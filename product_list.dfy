/** The product dashboard's data handling: the mapping of a raw product row to
    the `Product` view model and the placeholder rows the table shows while
    loading. The cart and the search sheet import a `dataToViewModel` from the
    same file; this model takes it to be the same mapping. */
module ProductList {
  import opened Js
  import opened Schema
  import opened ProductRouter

  const DraftStatus: string := "draft"
  const CreatedAt: string := "2024-01-01"
  const PlaceholderCount: nat := 50

  /** A raw row as a draft product. */
  function RowToProduct(row: ProductRow): (p: Product)
    ensures IsFreshDraft(p)
    ensures p.id == row.retailerProductId && p.labels == Some([row.category])
  {
    Product(
      url := row.retailerImage,
      id := row.retailerProductId,
      name := row.retailerProductName,
      status := DraftStatus,
      price := 0,
      inventory := 0,
      totalSales := 0,
      createdAt := CreatedAt,
      labels := Some([row.category]),
      imageDescription := row.imageDescription,
      providedDescription := row.description,
      retailer := row.retailer,
      aiGeneratedDescription := Undefined)
  }

  /** The two columns of a row that the view model drops, kept aside. */
  datatype DroppedColumns = DroppedColumns(retailerProductUrl: JsString, aiGeneratedProductDescription: JsString)

  /** Reads a row back from a product produced by RowToProduct. */
  function ProductToRow(p: Product, dropped: DroppedColumns): (row: ProductRow)
    requires p.labels.Some? && |p.labels.value| == 1
  {
    ProductRow(
      retailerProductId := p.id,
      retailerProductName := p.name,
      retailerProductUrl := dropped.retailerProductUrl,
      retailerImage := p.url,
      category := p.labels.value[0],
      description := p.providedDescription,
      imageDescription := p.imageDescription,
      retailer := p.retailer,
      aiGeneratedProductDescription := dropped.aiGeneratedProductDescription)
  }

  /** The mapping keeps every column except the product URL and the AI description:
      the row can be rebuilt from the product and those two. */
  lemma RowToProductKeepsColumns(row: ProductRow)
    ensures RowToProduct(row).labels.Some? && |RowToProduct(row).labels.value| == 1
    ensures ProductToRow(RowToProduct(row),
                         DroppedColumns(row.retailerProductUrl, row.aiGeneratedProductDescription)) == row
  {
  }

  /** The fixed fields every mapped product carries. */
  predicate IsFreshDraft(p: Product) {
    && p.status == "draft"
    && p.price == 0 && p.inventory == 0 && p.totalSales == 0
    && p.createdAt == "2024-01-01"
    && p.aiGeneratedDescription == Undefined
  }

  /** `data.map(dataToViewModel)` */
  function MapRows(rows: seq<ProductRow>): (r: seq<Product>)
    ensures |r| == |rows|
    ensures forall k :: 0 <= k < |rows| ==> r[k] == RowToProduct(rows[k])
  {
    if |rows| == 0 then [] else [RowToProduct(rows[0])] + MapRows(rows[1..])
  }

  /** Mapping keeps the length and order of the rows, each product carries its row's
      id, name, image, descriptions, retailer and one-element category list, and
      every product is a fresh draft. */
  lemma {:induction false} MapRowsFields(rows: seq<ProductRow>)
    ensures |MapRows(rows)| == |rows|
    ensures forall k :: 0 <= k < |rows| ==>
      var p := MapRows(rows)[k];
      && p.id == rows[k].retailerProductId
      && p.name == rows[k].retailerProductName
      && p.url == rows[k].retailerImage
      && p.imageDescription == rows[k].imageDescription
      && p.providedDescription == rows[k].description
      && p.retailer == rows[k].retailer
      && p.labels == Some([rows[k].category])
      && IsFreshDraft(p)
  {
  }

  /** The product of an empty placeholder row. */
  const Placeholder: Product := Product(
    url := Str(""), id := "", name := Str(""), status := "",
    price := 0, inventory := 0, totalSales := 0, createdAt := "",
    labels := None, imageDescription := Undefined, providedDescription := Undefined,
    retailer := Undefined, aiGeneratedDescription := Undefined)

  /** loadingFakeData: fifty empty products. */
  function LoadingFakeData(): (r: seq<Product>)
    ensures |r| == 50
    ensures forall k :: 0 <= k < |r| ==>
      && r[k].id == "" && r[k].url == Str("") && r[k].name == Str("")
      && r[k].status == "" && r[k].createdAt == ""
      && r[k].price == 0 && r[k].inventory == 0 && r[k].totalSales == 0
  {
    seq(PlaceholderCount, _ => Placeholder)
  }
}
