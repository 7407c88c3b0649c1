/** Turning the ids of a vector search back into products: each id becomes the
    product of the first catalogue row with that id, ids without a row are dropped,
    and the order of the search result is kept. Both the product search sheet and
    the cart recommendations do this; the recommendations take only the first five ids. */
module Resolution {
  import opened Js
  import opened Schema
  import opened ProductRouter
  import opened ProductList

  const RecommendationLimit: nat := 5

  /** Some catalogue row carries `id`. */
  predicate HasRow(data: seq<ProductRow>, id: string) {
    exists k :: 0 <= k < |data| && data[k].retailerProductId == id
  }

  /** `data.find(product => product.RETAILER_PRODUCT_ID === id)`, as an index. */
  function FindRow(data: seq<ProductRow>, id: string): (r: Option<nat>)
    ensures r.Some? <==> HasRow(data, id)
    ensures r.Some? ==> r.value < |data| && data[r.value].retailerProductId == id
    ensures r.Some? ==> forall j :: 0 <= j < r.value ==> data[j].retailerProductId != id
  {
    FindIndex(data, (row: ProductRow) => row.retailerProductId == id)
  }

  /** `ids.map(find).filter(v => v != null).map(dataToViewModel)` */
  function ResolveIds(ids: seq<string>, data: seq<ProductRow>): (r: seq<Product>)
    ensures |r| <= |ids|
  {
    if |ids| == 0 then []
    else
      var found := FindRow(data, ids[0]);
      (if found.Some? then [RowToProduct(data[found.value])] else []) + ResolveIds(ids[1..], data)
  }

  /** Reference: the ids of `ids` that some row carries, in their order. */
  function MatchedIds(ids: seq<string>, data: seq<ProductRow>): seq<string> {
    if |ids| == 0 then []
    else (if HasRow(data, ids[0]) then [ids[0]] else []) + MatchedIds(ids[1..], data)
  }

  /** The resolved products carry exactly the matched ids, in search order, and
      each is the product of the first row with its id; so the output is never
      longer than the search result. */
  lemma {:induction false} ResolveIdsSpec(ids: seq<string>, data: seq<ProductRow>)
    ensures |ResolveIds(ids, data)| <= |ids|
    ensures Ids(ResolveIds(ids, data)) == MatchedIds(ids, data)
    ensures forall k :: 0 <= k < |ResolveIds(ids, data)| ==>
      var p := ResolveIds(ids, data)[k];
      FindRow(data, p.id).Some? && p == RowToProduct(data[FindRow(data, p.id).value])
  {
    if |ids| > 0 {
      ResolveIdsSpec(ids[1..], data);
      var found := FindRow(data, ids[0]);
      var head := if found.Some? then [RowToProduct(data[found.value])] else [];
      var rest := ResolveIds(ids[1..], data);
      assert ResolveIds(ids, data) == head + rest;
      assert Ids(head + rest) == Ids(head) + Ids(rest);
      forall k | 0 <= k < |head + rest|
        ensures var p := (head + rest)[k];
          FindRow(data, p.id).Some? && p == RowToProduct(data[FindRow(data, p.id).value])
      {
        if k >= |head| {
          assert (head + rest)[k] == rest[k - |head|];
        }
      }
    }
  }

  /** When every id has a row, nothing is dropped: one product per id, in order. */
  lemma {:induction false} MatchedIdsAllFound(ids: seq<string>, data: seq<ProductRow>)
    requires forall k :: 0 <= k < |ids| ==> HasRow(data, ids[k])
    ensures MatchedIds(ids, data) == ids
  {
    if |ids| > 0 {
      MatchedIdsAllFound(ids[1..], data);
      assert ids == [ids[0]] + ids[1..];
    }
  }

  /** An id that no row carries is dropped, wherever it stands. */
  lemma {:induction false} MatchedIdsDropsUnknown(ids: seq<string>, data: seq<ProductRow>, id: string)
    requires !HasRow(data, id)
    ensures id !in MatchedIds(ids, data)
  {
    if |ids| > 0 {
      MatchedIdsDropsUnknown(ids[1..], data, id);
    }
  }

  /** The recommendations: `results.slice(0, 5)` resolved. */
  function Recommendations(ids: seq<string>, data: seq<ProductRow>): (r: seq<Product>)
    ensures |r| <= RecommendationLimit
  {
    ResolveIds(if |ids| <= RecommendationLimit then ids else ids[..RecommendationLimit], data)
  }

  /** At most five recommendations, carrying the matched ids among the first five
      search results, in result order. */
  lemma RecommendationsSpec(ids: seq<string>, data: seq<ProductRow>)
    ensures |Recommendations(ids, data)| <= 5
    ensures Ids(Recommendations(ids, data)) == MatchedIds(if |ids| <= 5 then ids else ids[..5], data)
  {
    ResolveIdsSpec(if |ids| <= RecommendationLimit then ids else ids[..RecommendationLimit], data);
  }
}
