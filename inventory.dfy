/**
 * The product catalog: its records, the catalog a new game starts with,
 * and the lookup by identifier that the economy actions use.
 * Costs and prices are in integer cents.
 */
module Inventory {
  import opened Wrappers

  datatype Product = Product(
    id: string,
    name: string,
    stock: int,
    purchaseCost: int,
    price: int)

  /** The four products of a new game, all with empty stock. */
  function InitialCatalog(): (ps: seq<Product>)
    ensures |ps| == 4
    ensures forall i :: 0 <= i < |ps| ==> ps[i].stock == 0 && ps[i].purchaseCost > 0 && ps[i].price > 0
  {
    [ Product("shampoo", "Shampoo para Cães", 0, 1000, 2500),
      Product("ração", "Ração Premium (1kg)", 0, 2000, 4500),
      Product("coleira", "Coleira Ajustável", 0, 500, 1500),
      Product("brinquedo", "Brinquedo Mordedor", 0, 700, 1800) ]
  }

  /** `products.find(p => p.id === id)`, as the index of the first match. */
  function Find(products: seq<Product>, id: string): (r: Option<nat>)
    ensures r.Some? ==> r.value < |products| && products[r.value].id == id
    ensures r.Some? ==> forall j :: 0 <= j < r.value ==> products[j].id != id
    ensures r.None? <==> forall j :: 0 <= j < |products| ==> products[j].id != id
  {
    if products == [] then None
    else if products[0].id == id then Some(0)
    else match Find(products[1..], id)
      case None => None
      case Some(k) => Some(k + 1)
  }

  /** No product has negative stock. */
  ghost predicate StocksNonNegative(products: seq<Product>) {
    forall i :: 0 <= i < |products| ==> products[i].stock >= 0
  }
}
