/** The product search sheet of the cart page: its loading flag and product list,
    the effect that fills them from the catalogue or from a vector search, the
    first nine products it shows, the loading skeleton, and adding a shown product
    to the cart. */
module SearchProductView {
  import opened Js
  import opened Schema
  import opened ProductRouter
  import opened ProductList
  import opened Resolution
  import opened CartList

  /** How many products the sheet shows, and how many skeleton rows it shows while searching. */
  const ShownCount: nat := 9

  /** SearchLoadingSkeleton's loop: the keys 0, 1, ..., nItems - 1 of the skeleton rows. */
  method LoadingSkeleton(nItems: int) returns (range: seq<int>)
    ensures |range| == if nItems > 0 then nItems else 0
    ensures forall k :: 0 <= k < |range| ==> range[k] == k
  {
    range := [];
    var i := 0;
    while i < nItems
      invariant 0 <= i <= (if nItems > 0 then nItems else 0)
      invariant |range| == i
      invariant forall k :: 0 <= k < i ==> range[k] == k
    {
      range := range + [i];
      i := i + 1;
    }
  }

  /** `products.slice(0, 9)` */
  function FirstShown(products: seq<Product>): (r: seq<Product>)
    ensures |r| == if |products| <= 9 then |products| else 9
    ensures r <= products
  {
    if |products| <= ShownCount then products else products[..ShownCount]
  }

  /** After a search the sheet shows the products of the first nine matched ids, in
      search order. */
  lemma ShownSearchResults(ids: seq<string>, data: seq<ProductRow>)
    ensures var m := MatchedIds(ids, data);
      Ids(FirstShown(ResolveIds(ids, data))) == if |m| <= 9 then m else m[..9]
  {
    ResolveIdsSpec(ids, data);
    var m := MatchedIds(ids, data);
    var shown := FirstShown(ResolveIds(ids, data));
    assert forall k :: 0 <= k < |shown| ==> Ids(shown)[k] == Ids(ResolveIds(ids, data))[k];
  }

  /** Without a search the sheet shows the first nine catalogue rows as products. */
  lemma ShownCatalogue(data: seq<ProductRow>)
    ensures |FirstShown(MapRows(data))| == if |data| <= 9 then |data| else 9
    ensures forall k :: 0 <= k < |FirstShown(MapRows(data))| ==>
      FirstShown(MapRows(data))[k] == RowToProduct(data[k])
  {
    var shown := FirstShown(MapRows(data));
    assert forall k :: 0 <= k < |shown| ==> shown[k] == MapRows(data)[k];
  }

  /** What the search hook hands the sheet: no results (`== null`) for an empty
      query and for a failed fetch, so that `OnSearchChange` then shows the whole
      catalogue; otherwise the shaped reply of the index to the request. */
  lemma SearchResultsOfQuery(input: SearchInput, remote: VectorQuery -> Option<VectorResponse>)
    ensures input.searchQuery == "" ==> ClientData(Search(input, remote)).None?
    ensures input.searchQuery != "" && remote(SearchRequest(input).value).None? ==>
      ClientData(Search(input, remote)).None?
    ensures input.searchQuery != "" ==>
      ClientData(Search(input, remote)) == FetchData(remote(SearchRequest(input).value))
  {
  }

  /** The component state of SearchProductView. */
  class SearchView {
    var loadingProducts: bool
    var products: seq<Product>

    constructor ()
      ensures loadingProducts && products == []
    {
      loadingProducts := true;
      products := [];
    }

    /** The search effect. While the search runs, only the loading flag is set.
        Once it has settled with the catalogue loaded, the products are the whole
        catalogue when the search gave no results (an empty query or a failed
        fetch), and the resolved results otherwise. Without the catalogue nothing
        changes. */
    method OnSearchChange(searchLoading: bool, searchResults: Option<SearchResults>,
                          data: Option<seq<ProductRow>>)
      modifies this
      ensures searchLoading ==> loadingProducts && products == old(products)
      ensures !searchLoading && data.None? ==>
        loadingProducts == old(loadingProducts) && products == old(products)
      ensures !searchLoading && data.Some? ==> !loadingProducts
      ensures !searchLoading && data.Some? && searchResults.None? ==> products == MapRows(data.value)
      ensures !searchLoading && data.Some? && searchResults.Some? ==>
        products == ResolveIds(searchResults.value.results, data.value)
    {
      if searchLoading {
        loadingProducts := true;
        return;
      }
      if searchResults.None? && data.Some? {
        products := MapRows(data.value);
        loadingProducts := false;
      }
      if searchResults.Some? && data.Some? {
        products := ResolveIds(searchResults.value.results, data.value);
        loadingProducts := false;
      }
    }

    /** The products the sheet lists: none while searching (the skeleton is shown),
        otherwise the first nine. */
    function Displayed(searchLoading: bool): (r: seq<Product>)
      reads this
      ensures searchLoading ==> r == []
      ensures !searchLoading ==> r <= products && |r| == if |products| <= 9 then |products| else 9
    {
      if searchLoading then [] else FirstShown(products)
    }

    /** Clicking the product at `index` of the list adds it to the cart unless the
        cart already holds its id. */
    method SelectProduct(index: nat, cart: CartStore)
      requires index < |Displayed(false)|
      requires cart.Valid()
      modifies cart
      ensures cart.Valid()
      ensures cart.cartView == AddIfAbsent(old(cart.cartView), products[index])
      ensures HasId(cart.cartView, products[index].id)
      ensures cart.recommendedProducts == old(cart.recommendedProducts)
    {
      var shown := Displayed(false);
      cart.AddToCartIfNotExists(shown[index]);
    }
  }
}
