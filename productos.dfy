/** The five soybean-derived products both impact calculators report on. */
module Productos {

  /** Keys of the product dictionaries, in declaration order. */
  datatype Producto = AceiteDeSoya | HarinaDeSoya | ProteinaDeSoya | Lecitina | Biodiesel

  /** Every product: the key set each impact calculator returns. */
  const Todos: set<Producto> := {AceiteDeSoya, HarinaDeSoya, ProteinaDeSoya, Lecitina, Biodiesel}
}
