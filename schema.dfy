/** The view model of a product shared by every component (the `Product` type of
    the product schema). Fields that the row mapping fills from nullable database
    columns hold `JsString`, since the mapping copies them without validation. */
module Schema {
  import opened Js

  datatype Product = Product(
    url: JsString,
    id: string,
    name: JsString,
    status: string,
    price: int,
    inventory: int,
    totalSales: int,
    createdAt: string,
    labels: Option<seq<JsString>>,
    imageDescription: JsString,
    providedDescription: JsString,
    retailer: JsString,
    aiGeneratedDescription: JsString)

  /** No two products of `products` share an id. */
  predicate DistinctIds(products: seq<Product>) {
    forall i, j :: 0 <= i < j < |products| ==> products[i].id != products[j].id
  }

  /** The ids of `products`, in order. */
  function Ids(products: seq<Product>): (r: seq<string>)
    ensures |r| == |products|
    ensures forall k :: 0 <= k < |r| ==> r[k] == products[k].id
  {
    if |products| == 0 then [] else [products[0].id] + Ids(products[1..])
  }
}
