/** The product details panel of the edit modal: the fields it shows for the
    open product and their fallbacks. */
module ProductDetails {
  import opened Js
  import opened Schema
  import opened ProductRouter
  import opened ProductList

  const NoDescription: string := "No description provided."
  const NoAiDescription: string := "No AI generated description available."

  /** `openSignal.value?.name`: undefined when no product is open. */
  function Title(open: Option<Product>): (r: JsString)
    ensures open.Some? ==> r == open.value.name
    ensures open.None? ==> r == Undefined
  {
    if open.Some? then open.value.name else Undefined
  }

  /** `openSignal.value?.providedDescription ?? "No description provided."` */
  function Description(open: Option<Product>): (r: string)
    ensures open.Some? && open.value.providedDescription.Str? ==> r == open.value.providedDescription.s
    ensures open.None? || !open.value.providedDescription.Str? ==> r == NoDescription
  {
    if open.Some? then Coalesce(open.value.providedDescription, NoDescription) else NoDescription
  }

  /** `openSignal.value?.aiGeneratedDescription ?? "No AI generated description available."` */
  function AiDescription(open: Option<Product>): (r: string)
    ensures open.Some? && open.value.aiGeneratedDescription.Str? ==> r == open.value.aiGeneratedDescription.s
    ensures open.None? || !open.value.aiGeneratedDescription.Str? ==> r == NoAiDescription
  {
    if open.Some? then Coalesce(open.value.aiGeneratedDescription, NoAiDescription) else NoAiDescription
  }

  /** `openSignal.value?.labels?.join(",") ?? ""` */
  function LabelsText(open: Option<Product>): string {
    if open.Some? && open.value.labels.Some? then JoinValues(open.value.labels.value, ",") else ""
  }

  /** `${openSignal.value?.id}` */
  function IdText(open: Option<Product>): string {
    if open.Some? then open.value.id else "undefined"
  }

  /** `${openSignal.value?.retailer}` */
  function RetailerText(open: Option<Product>): string {
    if open.Some? then Render(open.value.retailer) else "undefined"
  }

  /** labelString */
  function LabelString(open: Option<Product>): (r: string)
    ensures "Labels: " <= r
  {
    "Labels: " + LabelsText(open) + ", Product ID: " + IdText(open) + ", Retailer: " + RetailerText(open)
  }

  /** Every label of the open product appears in the label string, and so do its id
      and its retailer. */
  lemma LabelStringShowsProduct(p: Product)
    ensures p.labels.Some? ==> forall k :: 0 <= k < |p.labels.value| && p.labels.value[k].Str? ==>
      Contains(LabelString(Some(p)), p.labels.value[k].s)
    ensures Contains(LabelString(Some(p)), p.id)
    ensures p.retailer.Str? ==> Contains(LabelString(Some(p)), p.retailer.s)
  {
    var open := Some(p);
    var tail := ", Product ID: " + IdText(open) + ", Retailer: " + RetailerText(open);
    assert LabelString(open) == "Labels: " + LabelsText(open) + tail;
    if p.labels.Some? {
      JoinValuesContains(p.labels.value, ",");
      forall k | 0 <= k < |p.labels.value| && p.labels.value[k].Str?
        ensures Contains(LabelString(open), p.labels.value[k].s)
      {
        ContainsWithin("Labels: ", LabelsText(open), tail, p.labels.value[k].s);
      }
    }
    assert OccursAt(p.id, p.id, 0);
    ContainsWithin("Labels: " + LabelsText(open) + ", Product ID: ", p.id, ", Retailer: " + RetailerText(open), p.id);
    assert LabelString(open) == "Labels: " + LabelsText(open) + ", Product ID: " + p.id + (", Retailer: " + RetailerText(open));
    if p.retailer.Str? {
      var r := p.retailer.s;
      assert OccursAt(r, r, 0);
      ContainsWithin("Labels: " + LabelsText(open) + ", Product ID: " + IdText(open) + ", Retailer: ", r, "", r);
      assert LabelString(open) == "Labels: " + LabelsText(open) + ", Product ID: " + IdText(open) + ", Retailer: " + r + "";
    }
  }

  /** With no product open the panel shows the fallbacks. */
  lemma DetailsWithoutProduct()
    ensures Title(None) == Undefined
    ensures Description(None) == "No description provided."
    ensures AiDescription(None) == "No AI generated description available."
    ensures LabelString(None) == "Labels: " + ", Product ID: " + "undefined" + ", Retailer: " + "undefined"
  {
    assert "Labels: " + "" == "Labels: ";
  }

  /** A product taken from the catalogue shows its row's name, description and
      category, and always the AI fallback, since the mapping leaves the AI
      description undefined. */
  lemma DetailsOfMappedRow(row: ProductRow)
    ensures Title(Some(RowToProduct(row))) == row.retailerProductName
    ensures Description(Some(RowToProduct(row))) == Coalesce(row.description, NoDescription)
    ensures AiDescription(Some(RowToProduct(row))) == NoAiDescription
    ensures LabelString(Some(RowToProduct(row))) ==
      "Labels: " + JoinPiece(row.category) + ", Product ID: " + row.retailerProductId + ", Retailer: " + Render(row.retailer)
  {
    var labels := [row.category];
    assert seq(|labels|, i requires 0 <= i < |labels| => JoinPiece(labels[i])) == [JoinPiece(row.category)];
  }

  /** A saved description is what the panel shows next, and nothing else it shows
      changes. */
  lemma SavedDescriptionShown(p: Product, finalDescription: string)
    ensures var q := p.(providedDescription := Str(finalDescription));
      && Description(Some(q)) == finalDescription
      && Title(Some(q)) == Title(Some(p))
      && AiDescription(Some(q)) == AiDescription(Some(p))
      && LabelString(Some(q)) == LabelString(Some(p))
  {
  }
}
