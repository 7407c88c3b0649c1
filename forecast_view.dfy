/** The forecast modal: the product whose forecast is shown, the chart series
    built from its forecast rows (actual weeks and forecast weeks as separate,
    status-masked series over one week axis), and what the chart area shows. */
module ForecastView {
  import opened Js
  import opened Schema
  import opened ForecastRouter

  const ActualsType: string := "actuals"
  const ForecastType: string := "forecast"

  /** The four arrays createSeries returns; a None count is the chart's null gap. */
  datatype Series = Series(
    weeks: seq<string>,
    unitsSold: seq<Option<JsNumber>>,
    unitsOnHand: seq<Option<JsNumber>>,
    outOfStock: seq<bool>)

  /** `item.STATUS == forecastType`: a missing or null status matches no type. */
  predicate HasStatus(row: ForecastRow, forecastType: string) {
    row.status == Str(forecastType)
  }

  /** `item.STATUS == forecastType ? parseInt(count) : null` */
  function MaskedCount(row: ForecastRow, forecastType: string, count: string): Option<JsNumber> {
    if HasStatus(row, forecastType) then Some(ParseInt(count)) else None
  }

  /** createSeries: one entry per row in every array. The week label is "Week "
      and the row's week; the counts are present exactly on rows of the requested
      status; a row is out of stock exactly when its column is the text "true". */
  function CreateSeries(rows: seq<ForecastRow>, forecastType: string): (r: Series)
    ensures |r.weeks| == |r.unitsSold| == |r.unitsOnHand| == |r.outOfStock| == |rows|
    ensures forall i :: 0 <= i < |rows| ==> r.weeks[i] == "Week " + rows[i].week
    ensures forall i :: 0 <= i < |rows| ==>
      (r.unitsSold[i].Some? <==> HasStatus(rows[i], forecastType)) &&
      (r.unitsOnHand[i].Some? <==> HasStatus(rows[i], forecastType))
    ensures forall i :: 0 <= i < |rows| && HasStatus(rows[i], forecastType) ==>
      r.unitsSold[i] == Some(ParseInt(rows[i].unitsSold)) && r.unitsOnHand[i] == Some(ParseInt(rows[i].unitsOnHand))
    ensures forall i :: 0 <= i < |rows| ==> (r.outOfStock[i] <==> rows[i].outOfStock == Str("true"))
  {
    Series(
      seq(|rows|, i requires 0 <= i < |rows| => "Week " + rows[i].week),
      seq(|rows|, i requires 0 <= i < |rows| => MaskedCount(rows[i], forecastType, rows[i].unitsSold)),
      seq(|rows|, i requires 0 <= i < |rows| => MaskedCount(rows[i], forecastType, rows[i].unitsOnHand)),
      seq(|rows|, i requires 0 <= i < |rows| => rows[i].outOfStock == Str("true")))
  }

  /** The actuals and the forecast share the week axis and the out-of-stock flags,
      and no week has a count in both. */
  lemma ActualsAndForecastSplit(rows: seq<ForecastRow>)
    ensures CreateSeries(rows, ActualsType).weeks == CreateSeries(rows, ForecastType).weeks
    ensures CreateSeries(rows, ActualsType).outOfStock == CreateSeries(rows, ForecastType).outOfStock
    ensures forall i :: 0 <= i < |rows| ==>
      !(CreateSeries(rows, ActualsType).unitsSold[i].Some? && CreateSeries(rows, ForecastType).unitsSold[i].Some?)
    ensures forall i :: 0 <= i < |rows| ==>
      !(CreateSeries(rows, ActualsType).unitsOnHand[i].Some? && CreateSeries(rows, ForecastType).unitsOnHand[i].Some?)
  {
    var a, f := CreateSeries(rows, ActualsType), CreateSeries(rows, ForecastType);
    assert ActualsType != ForecastType by { assert ActualsType[0] != ForecastType[0]; }
    assert a.weeks == f.weeks;
    assert a.outOfStock == f.outOfStock;
  }

  /** Counts written as decimal integers are plotted as those integers on the rows
      of the requested status. */
  lemma SeriesReadsCounts(rows: seq<ForecastRow>, forecastType: string, i: nat, sold: int, onHand: int)
    requires i < |rows| && HasStatus(rows[i], forecastType)
    requires rows[i].unitsSold == IntToString(sold) && rows[i].unitsOnHand == IntToString(onHand)
    ensures CreateSeries(rows, forecastType).unitsSold[i] == Some(Int(sold))
    ensures CreateSeries(rows, forecastType).unitsOnHand[i] == Some(Int(onHand))
  {
    ParseIntOfIntToString(sold);
    ParseIntOfIntToString(onHand);
  }

  /** What ForecaseViz shows: dots while loading, "No data" without data, otherwise
      the chart of the actuals and the forecast. */
  datatype VizState = Loading | NoData | Chart(actuals: Series, forecast: Series)

  /** An empty row list is still data (an empty array is truthy): it gives an
      empty chart, not "No data". */
  function Viz(isLoading: bool, data: Option<seq<ForecastRow>>): (r: VizState)
    ensures isLoading <==> r.Loading?
    ensures r.NoData? <==> !isLoading && data.None?
    ensures r.Chart? ==> |r.actuals.weeks| == |data.value| && r.actuals.weeks == r.forecast.weeks
    ensures r.Chart? ==>
      r.actuals == CreateSeries(data.value, ActualsType) && r.forecast == CreateSeries(data.value, ForecastType)
  {
    if isLoading then Loading
    else if data.None? then NoData
    else
      ActualsAndForecastSplit(data.value);
      Chart(CreateSeries(data.value, ActualsType), CreateSeries(data.value, ForecastType))
  }

  /** ProductForecastModal's state: the product in displayForecastSignal, if any. */
  class ForecastModal {
    var displayed: Option<Product>

    constructor ()
      ensures displayed == None
    {
      displayed := None;
    }

    /** The dialog is open exactly when a product is held. */
    function IsOpen(): (r: bool)
      reads this
      ensures r <==> displayed.Some?
    {
      displayed != None
    }

    /** A row's forecast action puts (a validated copy of) the product in the signal. */
    method Show(p: Product)
      modifies this
      ensures displayed == Some(p)
    {
      displayed := Some(p);
    }

    /** setOpenF: a close request empties the signal; an open request changes nothing. */
    method OnOpenChange(open: bool)
      modifies this
      ensures !open ==> displayed == None && !IsOpen()
      ensures open ==> displayed == old(displayed)
    {
      if !open {
        displayed := None;
      }
    }

    /** The product id the chart is drawn for: the card is rendered only when the
        held product has a non-empty id. */
    function ChartProductId(): (r: Option<string>)
      reads this
      ensures r.Some? <==> displayed.Some? && displayed.value.id != ""
      ensures r.Some? ==> r.value == displayed.value.id
    {
      if displayed.Some? && displayed.value.id != "" then Some(displayed.value.id) else None
    }
  }

  /** The chart drawn for a product plots only that product's forecast rows: every
      week of the chart comes from a row with the product's id. */
  lemma ChartRowsBelongToProduct(records: seq<CsvRecord>, id: string)
    requires ParseRecords(records).Ok?
    ensures var rows := FilterByProduct(ParseRecords(records).value, id);
      && Viz(false, Some(rows)).Chart?
      && |Viz(false, Some(rows)).actuals.weeks| == |rows|
      && forall i :: 0 <= i < |rows| ==> rows[i].retailerProductId == id
  {
    var rows := FilterByProduct(ParseRecords(records).value, id);
    FilterByProductExact(ParseRecords(records).value, id);
    assert forall i :: 0 <= i < |rows| ==> rows[i] in rows;
  }
}
