/** The forecast API router: loading the forecast rows (all rows are validated,
    one invalid row fails the whole load) and the `list` and `get` procedures.
    The CSV file is a parameter: the sequence of records the CSV parser emits,
    each a map from column header to cell text. */
module ForecastRouter {
  import opened Js

  /** A validated forecast row (ForecastDBModel). */
  datatype ForecastRow = ForecastRow(
    retailerProductId: string,
    week: string,
    unitsSold: string,
    unitsOnHand: string,
    status: JsString,
    outOfStock: JsString)

  /** One CSV record: header name to cell text; a missing column is a missing key. */
  type CsvRecord = map<string, string>

  /** Why a load failed: the index of the first record that did not validate. */
  datatype LoadError = InvalidRecord(index: nat)

  /** A column that may be absent: present cells are strings, absent ones undefined. */
  function OptionalColumn(rec: CsvRecord, key: string): JsString {
    if key in rec then Str(rec[key]) else Undefined
  }

  /** `forecastDBSchema.parse`: the four required columns must be present; STATUS and
      OUT_OF_STOCK may be missing; other columns are dropped. */
  function ParseRecord(rec: CsvRecord): (r: Option<ForecastRow>)
    ensures r.Some? <==> "RETAILER_PRODUCT_ID" in rec && "WEEK" in rec && "UNITS_SOLD" in rec && "UNITS_ON_HAND" in rec
    ensures r.Some? ==> r.value.retailerProductId == rec["RETAILER_PRODUCT_ID"] && r.value.week == rec["WEEK"]
    ensures r.Some? ==> r.value.unitsSold == rec["UNITS_SOLD"] && r.value.unitsOnHand == rec["UNITS_ON_HAND"]
    ensures r.Some? ==> r.value.status == OptionalColumn(rec, "STATUS") && r.value.outOfStock == OptionalColumn(rec, "OUT_OF_STOCK")
  {
    if "RETAILER_PRODUCT_ID" in rec && "WEEK" in rec && "UNITS_SOLD" in rec && "UNITS_ON_HAND" in rec then
      Some(ForecastRow(rec["RETAILER_PRODUCT_ID"], rec["WEEK"], rec["UNITS_SOLD"], rec["UNITS_ON_HAND"],
                       OptionalColumn(rec, "STATUS"), OptionalColumn(rec, "OUT_OF_STOCK")))
    else None
  }

  /** The outcome of streaming `records` in order: the first rejection wins, and the
      rows pushed so far are the outcome when nothing was rejected. */
  function ParseRecords(records: seq<CsvRecord>): (r: Result<seq<ForecastRow>, LoadError>)
    ensures r.Ok? ==> |r.value| == |records|
    ensures r.Err? ==> r.error.index < |records| && ParseRecord(records[r.error.index]).None?
  {
    if |records| == 0 then Ok([])
    else match ParseRecords(records[..|records| - 1])
      case Err(e) => Err(e)
      case Ok(rows) =>
        match ParseRecord(records[|records| - 1])
        case None => Err(InvalidRecord(|records| - 1))
        case Some(row) => Ok(rows + [row])
  }

  /** Loading is all or nothing: it succeeds exactly when every record validates,
      and then yields every record's row in file order; otherwise it fails with the
      first record that does not validate. */
  lemma {:induction false} ParseRecordsAllOrNothing(records: seq<CsvRecord>)
    ensures ParseRecords(records).Ok? <==> forall k :: 0 <= k < |records| ==> ParseRecord(records[k]).Some?
    ensures ParseRecords(records).Ok? ==>
      |ParseRecords(records).value| == |records| &&
      forall k :: 0 <= k < |records| ==> ParseRecords(records).value[k] == ParseRecord(records[k]).value
    ensures ParseRecords(records).Err? ==>
      var i := ParseRecords(records).error.index;
      && i < |records| && ParseRecord(records[i]).None?
      && forall k :: 0 <= k < i ==> ParseRecord(records[k]).Some?
  {
    if |records| > 0 {
      var init := records[..|records| - 1];
      ParseRecordsAllOrNothing(init);
      assert forall k :: 0 <= k < |init| ==> init[k] == records[k];
    }
  }

  /** getForecastData: pushes every record that validates, remembers the first
      rejection, and settles once the stream ends. */
  method GetForecastData(records: seq<CsvRecord>) returns (r: Result<seq<ForecastRow>, LoadError>)
    ensures r == ParseRecords(records)
  {
    var results: seq<ForecastRow> := [];
    var rejected: Option<LoadError> := None;
    var i := 0;
    while i < |records|
      invariant 0 <= i <= |records|
      invariant rejected.None? ==> ParseRecords(records[..i]) == Ok(results)
      invariant rejected.Some? ==> ParseRecords(records[..i]) == Err(rejected.value)
    {
      assert records[..i + 1][..i] == records[..i];
      match ParseRecord(records[i]) {
        case Some(row) =>
          results := results + [row];
        case None =>
          if rejected.None? {
            rejected := Some(InvalidRecord(i));
          }
      }
      i := i + 1;
    }
    assert records[..|records|] == records;
    r := if rejected.Some? then Err(rejected.value) else Ok(results);
  }

  /** The `list` procedure: every forecast row. */
  method List(records: seq<CsvRecord>) returns (r: Result<seq<ForecastRow>, LoadError>)
    ensures r == ParseRecords(records)
  {
    r := GetForecastData(records);
  }

  /** `data.filter(item => item.RETAILER_PRODUCT_ID === id)` */
  function FilterByProduct(rows: seq<ForecastRow>, id: string): (r: seq<ForecastRow>)
    ensures |r| <= |rows|
    ensures forall k :: 0 <= k < |r| ==> r[k].retailerProductId == id
  {
    if |rows| == 0 then []
    else (if rows[0].retailerProductId == id then [rows[0]] else []) + FilterByProduct(rows[1..], id)
  }

  /** The `get` procedure: the forecast rows of one product; a failed load fails it. */
  method Get(records: seq<CsvRecord>, id: string) returns (r: Result<seq<ForecastRow>, LoadError>)
    ensures ParseRecords(records).Err? ==> r == ParseRecords(records)
    ensures ParseRecords(records).Ok? ==> r == Ok(FilterByProduct(ParseRecords(records).value, id))
  {
    var data := GetForecastData(records);
    match data {
      case Err(e) => r := Err(e);
      case Ok(rows) => r := Ok(FilterByProduct(rows, id));
    }
  }

  /** `get(id)` keeps exactly the rows of product `id`, each as often as it occurs. */
  lemma {:induction false} FilterByProductExact(rows: seq<ForecastRow>, id: string)
    ensures forall x :: x in FilterByProduct(rows, id) ==> x.retailerProductId == id
    ensures forall x: ForecastRow :: x.retailerProductId == id ==> multiset(FilterByProduct(rows, id))[x] == multiset(rows)[x]
  {
    if |rows| > 0 {
      FilterByProductExact(rows[1..], id);
      assert rows == [rows[0]] + rows[1..];
    }
  }

  /** `s` is `t` with some elements removed, the rest in their order. */
  predicate IsSubsequence<T(==)>(s: seq<T>, t: seq<T>) {
    if |s| == 0 then true
    else if |t| == 0 then false
    else if s[0] == t[0] then IsSubsequence(s[1..], t[1..])
    else IsSubsequence(s, t[1..])
  }

  /** `get(id)` is an order-preserving subsequence of `list()`. */
  lemma {:induction false} FilterByProductIsSubsequence(rows: seq<ForecastRow>, id: string)
    ensures IsSubsequence(FilterByProduct(rows, id), rows)
  {
    if |rows| > 0 {
      FilterByProductIsSubsequence(rows[1..], id);
      var rest := FilterByProduct(rows[1..], id);
      if rows[0].retailerProductId == id {
        assert ([rows[0]] + rest)[1..] == rest;
      } else {
        assert [] + rest == rest;
        FilterByProductExact(rows[1..], id);
        assert |rest| > 0 ==> rest[0] in rest && rest[0] != rows[0];
      }
    }
  }

  /** Filtering `get(id)` again by the same id changes nothing. */
  lemma {:induction false} FilterByProductIdempotent(rows: seq<ForecastRow>, id: string)
    ensures FilterByProduct(FilterByProduct(rows, id), id) == FilterByProduct(rows, id)
  {
    if |rows| > 0 {
      FilterByProductIdempotent(rows[1..], id);
      var rest := FilterByProduct(rows[1..], id);
      if rows[0].retailerProductId == id {
        assert ([rows[0]] + rest)[1..] == rest;
      } else {
        assert [] + rest == rest;
      }
    }
  }
}
