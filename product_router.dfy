/** The product API router: the `search` procedure and the shaping of the
    vector-search index's reply in fetchData. The HTTP exchange itself is a
    function parameter (`remote`) from the request body to the parsed reply. */
module ProductRouter {
  import opened Js

  /** A row of the product details view as the database returns it (ProductDBModel). */
  datatype ProductRow = ProductRow(
    retailerProductId: string,
    retailerProductName: JsString,
    retailerProductUrl: JsString,
    retailerImage: JsString,
    category: JsString,
    description: JsString,
    imageDescription: JsString,
    retailer: JsString,
    aiGeneratedProductDescription: JsString)

  /** The input of `search`; `numResults` may be omitted. */
  datatype SearchInput = SearchInput(searchQuery: string, numResults: Option<int>)

  /** The JSON body posted to the vector-search index. */
  datatype VectorQuery = VectorQuery(numResults: int, columns: seq<string>, queryText: string)

  /** A JSON value of the reply where a string is expected: a string or anything else
      (a number, null, a missing element). */
  datatype Cell = Text(s: string) | NonText

  /** The parts of the index's reply that fetchData reads; None where the path is
      missing or does not hold a value of the expected kind. */
  datatype VectorResponse = VectorResponse(
    rowCount: Option<int>,             // result.row_count
    columnNames: Option<seq<Cell>>,    // manifest.columns[*].name
    dataArray: Option<seq<seq<Cell>>>) // result.data_array

  /** The validated search result (ProductSearchResults). */
  datatype SearchResults = SearchResults(numResults: int, columns: seq<string>, results: seq<string>)

  /** What `search` returns: `null` for an empty query, otherwise what fetchData
      resolved to, where None is the `undefined` of a caught failure. */
  datatype SearchReply = NullReply | Fetched(data: Option<SearchResults>)

  const DefaultNumResults: int := 50
  const IdColumn: string := "Retailer_Product_ID"

  /** The request `search` sends to the index, None when it sends none. */
  function SearchRequest(input: SearchInput): (r: Option<VectorQuery>)
    ensures r.None? <==> input.searchQuery == ""
    ensures r.Some? ==> r.value.queryText == input.searchQuery
    ensures r.Some? ==> r.value.columns == ["Retailer_Product_ID"]
    ensures r.Some? && input.numResults.None? ==> r.value.numResults == 50
    ensures r.Some? && input.numResults.Some? ==> r.value.numResults == input.numResults.value
  {
    if |input.searchQuery| > 0 then
      var numResults := if input.numResults.Some? then input.numResults.value else DefaultNumResults;
      Some(VectorQuery(numResults, [IdColumn], input.searchQuery))
    else None
  }

  /** The strings of `cells`, or None as soon as one is not a string
      (`z.array(z.string())` rejects the whole array). */
  function AllText(cells: seq<Cell>): (r: Option<seq<string>>)
    ensures r.Some? <==> forall k :: 0 <= k < |cells| ==> cells[k].Text?
    ensures r.Some? ==> |r.value| == |cells|
    ensures r.Some? ==> forall k :: 0 <= k < |cells| ==> r.value[k] == cells[k].s
  {
    if |cells| == 0 then Some([])
    else if !cells[0].Text? then None
    else match AllText(cells[1..])
      case None => None
      case Some(rest) => Some([cells[0].s] + rest)
  }

  /** `row[0]`, which is undefined for an empty row. */
  function FirstCell(row: seq<Cell>): Cell {
    if |row| == 0 then NonText else row[0]
  }

  /** The body of fetchData's success handler: the row count, the manifest's column
      names and the first cell of every data row, validated all or nothing. None is
      every path on which the handler throws and the catch yields undefined. */
  function ShapeResponse(resp: VectorResponse): (r: Option<SearchResults>)
    ensures r.Some? <==>
      && resp.rowCount.Some? && resp.columnNames.Some? && resp.dataArray.Some?
      && (forall k :: 0 <= k < |resp.columnNames.value| ==> resp.columnNames.value[k].Text?)
      && (forall k :: 0 <= k < |resp.dataArray.value| ==>
            |resp.dataArray.value[k]| > 0 && resp.dataArray.value[k][0].Text?)
    ensures r.Some? ==> r.value.numResults == resp.rowCount.value
    ensures r.Some? ==> |r.value.columns| == |resp.columnNames.value|
    ensures r.Some? ==> forall k :: 0 <= k < |r.value.columns| ==> r.value.columns[k] == resp.columnNames.value[k].s
    ensures r.Some? ==> |r.value.results| == |resp.dataArray.value|
    ensures r.Some? ==> forall k :: 0 <= k < |r.value.results| ==> r.value.results[k] == resp.dataArray.value[k][0].s
  {
    if resp.rowCount.None? || resp.columnNames.None? || resp.dataArray.None? then None
    else
      var rows := resp.dataArray.value;
      var firsts := seq(|rows|, k requires 0 <= k < |rows| => FirstCell(rows[k]));
      var columns := AllText(resp.columnNames.value);
      var results := AllText(firsts);
      if columns.Some? && results.Some? then
        forall k | 0 <= k < |rows| ensures |rows[k]| > 0 && firsts[k] == rows[k][0] {
          assert firsts[k] == FirstCell(rows[k]) && firsts[k].Text?;
        }
        Some(SearchResults(resp.rowCount.value, columns.value, results.value))
      else
        assert results.None? ==> exists k :: 0 <= k < |rows| && !firsts[k].Text?;
        None
  }

  /** fetchData after the request: None from the transport is a failed fetch or
      JSON parse, which the catch also turns into undefined. */
  function FetchData(reply: Option<VectorResponse>): (r: Option<SearchResults>)
    ensures reply.None? ==> r.None?
    ensures reply.Some? ==> r == ShapeResponse(reply.value)
  {
    if reply.None? then None else ShapeResponse(reply.value)
  }

  /** The `search` procedure: an empty query returns null without a request;
      any other query is forwarded, and its reply shaped by fetchData. */
  function Search(input: SearchInput, remote: VectorQuery -> Option<VectorResponse>): (r: SearchReply)
    ensures r.NullReply? <==> input.searchQuery == ""
    ensures r.Fetched? ==> r.data == FetchData(remote(SearchRequest(input).value))
  {
    match SearchRequest(input)
    case None => NullReply
    case Some(q) => Fetched(FetchData(remote(q)))
  }

  /** An empty query never reaches the index: the reply is the same whatever the
      endpoint would have answered. */
  lemma EmptyQueryIgnoresIndex(input: SearchInput,
                               remote1: VectorQuery -> Option<VectorResponse>,
                               remote2: VectorQuery -> Option<VectorResponse>)
    requires input.searchQuery == ""
    ensures Search(input, remote1) == Search(input, remote2) == NullReply
  {
  }

  /** What a client holds after the query: null and undefined both read as no results. */
  function ClientData(reply: SearchReply): (r: Option<SearchResults>)
    ensures r.Some? <==> reply.Fetched? && reply.data.Some?
    ensures r.Some? ==> r == reply.data
  {
    if reply.Fetched? then reply.data else None
  }
}
