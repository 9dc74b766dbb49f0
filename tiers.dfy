/**
 * Threshold tables. Every quality verdict in the dashboards is an if/elif chain
 * over a fixed list of cut points; `Rango` is the table-driven reference those
 * chains are proved against: the number of cut points a value has passed.
 */
module Tiers {

  /** Whether `v` has passed the cut point `c`: `c <= v` when the test is
      lower-inclusive (`v < c` fails), `c < v` when it is strict (`v > c` holds). */
  predicate Supera(c: real, v: real, inclusivo: bool) {
    if inclusivo then c <= v else c < v
  }

  function Cuenta(c: real, v: real, inclusivo: bool): nat {
    if Supera(c, v, inclusivo) then 1 else 0
  }

  /** Cut points listed from the lowest to the highest. */
  predicate Ascendente(cortes: seq<real>) {
    forall i, j :: 0 <= i < j < |cortes| ==> cortes[i] < cortes[j]
  }

  /** The tier index of `v` in the table `cortes`: how many cut points it has passed. */
  function Rango(cortes: seq<real>, v: real, inclusivo: bool): (k: nat)
    ensures k <= |cortes|
  {
    if cortes == [] then 0 else Cuenta(cortes[0], v, inclusivo) + Rango(cortes[1..], v, inclusivo)
  }

  /** In an ascending table the tiers are half-open intervals: `v` has passed exactly
      the first `Rango` cut points and none of the others. */
  lemma {:induction false} RangoSemiabierto(cortes: seq<real>, v: real, inclusivo: bool)
    requires Ascendente(cortes)
    ensures forall i :: 0 <= i < Rango(cortes, v, inclusivo) ==> Supera(cortes[i], v, inclusivo)
    ensures forall i :: Rango(cortes, v, inclusivo) <= i < |cortes| ==> !Supera(cortes[i], v, inclusivo)
  {
    if cortes != [] {
      var resto := cortes[1..];
      assert Ascendente(resto) by {
        forall i, j | 0 <= i < j < |resto| ensures resto[i] < resto[j] {
          assert resto[i] == cortes[i + 1] && resto[j] == cortes[j + 1];
        }
      }
      RangoSemiabierto(resto, v, inclusivo);
      if !Supera(cortes[0], v, inclusivo) && |resto| > 0 {
        assert cortes[0] < resto[0] by { assert resto[0] == cortes[1]; }
        assert !Supera(resto[0], v, inclusivo);
      }
      forall i | 0 <= i < |cortes|
        ensures i < Rango(cortes, v, inclusivo) ==> Supera(cortes[i], v, inclusivo)
        ensures Rango(cortes, v, inclusivo) <= i ==> !Supera(cortes[i], v, inclusivo)
      {
        if i > 0 {
          assert cortes[i] == resto[i - 1];
        }
      }
    }
  }

  /** A larger value never lands in a lower tier. */
  lemma {:induction false} RangoMonotono(cortes: seq<real>, v1: real, v2: real, inclusivo: bool)
    requires v1 <= v2
    ensures Rango(cortes, v1, inclusivo) <= Rango(cortes, v2, inclusivo)
  {
    if cortes != [] {
      RangoMonotono(cortes[1..], v1, v2, inclusivo);
    }
  }

  /** `Rango` on a two-entry table, one cut point at a time. */
  lemma RangoDos(a: real, b: real, v: real, inclusivo: bool)
    ensures Rango([a, b], v, inclusivo) == Cuenta(a, v, inclusivo) + Cuenta(b, v, inclusivo)
  {
    assert [a, b][1..] == [b];
    assert [b][1..] == [];
  }

  /** `Rango` on a three-entry table, one cut point at a time. */
  lemma RangoTres(a: real, b: real, c: real, v: real, inclusivo: bool)
    ensures Rango([a, b, c], v, inclusivo)
         == Cuenta(a, v, inclusivo) + Cuenta(b, v, inclusivo) + Cuenta(c, v, inclusivo)
  {
    assert [a, b, c][1..] == [b, c];
    RangoDos(b, c, v, inclusivo);
  }

  /** The four-tier verdict shared by the degradation, acidity and protein pages. */
  datatype Grado = Excelente | Buena | Moderada | Critica {
    /** Position in the table, from the best grade (0) to the worst (3). */
    function Severidad(): nat {
      match this
      case Excelente => 0
      case Buena => 1
      case Moderada => 2
      case Critica => 3
    }
  }
}
