/** The shopping cart: the module-level lists of cart items and recommended
    products, adding a product unless one with its id is already there, emptying
    both lists, refreshing the recommendations from a vector search, and the
    prompt that asks the language model for recommendations. */
module CartList {
  import opened Js
  import opened Schema
  import opened ProductRouter
  import opened Resolution

  /** Some item of `cart` has id `id`. */
  predicate HasId(cart: seq<Product>, id: string) {
    exists k :: 0 <= k < |cart| && cart[k].id == id
  }

  /** `cart.find(p => p.id === id)`, as an index. */
  function FindInCart(cart: seq<Product>, id: string): (r: Option<nat>)
    ensures r.Some? <==> HasId(cart, id)
  {
    FindIndex(cart, (p: Product) => p.id == id)
  }

  /** The cart after addToCartIfNotExists: unchanged when an item already has the
      product's id (whatever its other fields), otherwise the product appended. */
  function AddIfAbsent(cart: seq<Product>, product: Product): (r: seq<Product>)
    ensures HasId(cart, product.id) ==> r == cart
    ensures !HasId(cart, product.id) ==> |r| == |cart| + 1 && r[..|cart|] == cart && r[|cart|] == product
    ensures HasId(r, product.id)
    ensures DistinctIds(cart) ==> DistinctIds(r)
  {
    if FindInCart(cart, product.id).Some? then cart
    else
      var r := cart + [product];
      assert r[|cart|].id == product.id;
      r
  }

  /** The two module-level signals of the cart page. */
  class CartStore {
    var cartView: seq<Product>
    var recommendedProducts: seq<Product>

    /** No two cart items share an id. */
    ghost predicate Valid()
      reads this
    {
      DistinctIds(cartView)
    }

    constructor ()
      ensures Valid()
      ensures cartView == [] && recommendedProducts == []
    {
      cartView := [];
      recommendedProducts := [];
    }

    /** emptyCart */
    method EmptyCart()
      modifies this
      ensures Valid()
      ensures cartView == [] && recommendedProducts == []
    {
      cartView := [];
      recommendedProducts := [];
    }

    /** addToCartIfNotExists */
    method AddToCartIfNotExists(product: Product)
      requires Valid()
      modifies this
      ensures Valid()
      ensures cartView == AddIfAbsent(old(cartView), product)
      ensures recommendedProducts == old(recommendedProducts)
    {
      if FindInCart(cartView, product.id).None? {
        cartView := cartView + [product];
      }
    }

    /** CartView's reply effect, first step: while the chat is answering, the
        recommendations are cleared. */
    method OnChatLoading(isLoading: bool)
      modifies this
      ensures cartView == old(cartView)
      ensures isLoading ==> recommendedProducts == []
      ensures !isLoading ==> recommendedProducts == old(recommendedProducts)
    {
      if isLoading {
        recommendedProducts := [];
      }
    }

    /** The effect of CartRecommendations (mounted while the cart and the search
        string are both non-empty): a pending search clears the
        recommendations; a search result together with the catalogue replaces
        them with the resolved first five results. */
    method RefreshRecommendations(searchLoading: bool, searchResults: Option<SearchResults>,
                                  data: Option<seq<ProductRow>>)
      modifies this
      ensures cartView == old(cartView)
      ensures searchResults.Some? && data.Some? ==>
        recommendedProducts == Recommendations(searchResults.value.results, data.value)
      ensures !(searchResults.Some? && data.Some?) && searchLoading ==> recommendedProducts == []
      ensures !(searchResults.Some? && data.Some?) && !searchLoading ==>
        recommendedProducts == old(recommendedProducts)
    {
      if searchLoading {
        recommendedProducts := [];
      }
      if searchResults.Some? && data.Some? {
        recommendedProducts := Recommendations(searchResults.value.results, data.value);
      }
    }
  }

  /** CartView's reply effect, second step: the search string becomes
      `next_items.join(", ")` when the assistant's reply parsed to an object whose
      `next_items` is an array of strings (`nextItems`); when it did not, the error
      is caught and the previous string stays. Every recommended item description
      appears in the new search string. */
  function SearchTopics(nextItems: Option<seq<JsString>>, previous: string): (r: string)
    ensures nextItems.None? ==> r == previous
    ensures nextItems.Some? ==>
      forall k :: 0 <= k < |nextItems.value| && nextItems.value[k].Str? ==> Contains(r, nextItems.value[k].s)
  {
    if nextItems.None? then previous
    else
      JoinValuesContains(nextItems.value, ", ");
      JoinValues(nextItems.value, ", ")
  }

  /** Adding never creates a second item with an id already in the cart. */
  lemma {:induction false} AddIfAbsentKeepsIdsDistinct(cart: seq<Product>, products: seq<Product>)
    requires DistinctIds(cart)
    ensures DistinctIds(AddAll(cart, products))
    decreases |products|
  {
    if |products| > 0 {
      AddIfAbsentKeepsIdsDistinct(AddIfAbsent(cart, products[0]), products[1..]);
    }
  }

  /** The cart after clicking `products` one after another. */
  function AddAll(cart: seq<Product>, products: seq<Product>): seq<Product>
    decreases |products|
  {
    if |products| == 0 then cart else AddAll(AddIfAbsent(cart, products[0]), products[1..])
  }

  // ---------------------------------------------------------------------------
  // makePrompt

  datatype RecommendationPrompt = RecommendationPrompt(userPrompt: string, systemPrompt: string)

  const SystemPrompt: string :=
    "You are an AI assistant functioning as a recommendation system for an ecommerce website.\n" +
    "    Be specific and limit your answers to the requested format.\n" +
    "    "

  /** The user prompt up to the cart's contents. */
  const UserPromptHead: string :=
    "Given the following products in the cart, recommend a product that the user might like. \n" +
    "    Express your response as a JSON object with a key of 'next_items' and an array of string which is a list of brief item descriptions, category, and color the user may want. \n" +
    "    Try to be specific and not general. Try to avoid recommending categories that are already selected in the cart, try to give complimentary recommendations.\n" +
    "     Do not use brand names in the response. Keep in mind the store only footwear, pants, shorts, shirts. Stick to one: Men's, Women's or Kid's clothing. Only respond the JSON nothing else!\n" +
    "     \n" +
    "     Avoid recommending the same product category that is already in the cart.\n" +
    "     For example if there are shoes in the cart avoid recommending shoes.\n" +
    "     Stick to one gender for your searches. If the selected item is boys stick to boys and if its women stick to women.\n" +
    "     Do not provide same category of items!\n" +
    "     Ensure response is valid json and just json!\n" +
    "     The cart contains: "

  /** The user prompt after the cart's contents. */
  const UserPromptTail: string :=
    "\n" +
    "     The recommendations are:\n" +
    "    "

  /** One cart item as the prompt shows it: `${name} - ${imageDescription}`. */
  function ProductLine(p: Product): string {
    Render(p.name) + " - " + Render(p.imageDescription)
  }

  /** The line of every item, in cart order. */
  function ProductLines(products: seq<Product>): (r: seq<string>)
    ensures |r| == |products|
    ensures forall k :: 0 <= k < |r| ==> r[k] == ProductLine(products[k])
  {
    if |products| == 0 then [] else [ProductLine(products[0])] + ProductLines(products[1..])
  }

  /** makePrompt */
  function MakePrompt(products: seq<Product>): (r: RecommendationPrompt)
    ensures r.systemPrompt == SystemPrompt
    ensures UserPromptHead <= r.userPrompt
    ensures |UserPromptTail| <= |r.userPrompt| && r.userPrompt[|r.userPrompt| - |UserPromptTail|..] == UserPromptTail
  {
    var productsString := Join(ProductLines(products), "\n");
    RecommendationPrompt(UserPromptHead + productsString + UserPromptTail, SystemPrompt)
  }

  /** CartView's cart effect: a non-empty cart seeds the chat with the system prompt
      as its only message and the user prompt as its input; an empty cart leaves the
      chat alone. */
  function ChatSeed(cart: seq<Product>): (r: Option<RecommendationPrompt>)
    ensures r.Some? <==> |cart| > 0
    ensures r.Some? ==> r.value.systemPrompt == SystemPrompt
    ensures r.Some? ==> UserPromptHead <= r.value.userPrompt
  {
    if |cart| > 0 then Some(MakePrompt(cart)) else None
  }

  /** The system prompt is fixed, whatever the cart holds. */
  lemma SystemPromptIgnoresCart(a: seq<Product>, b: seq<Product>)
    ensures MakePrompt(a).systemPrompt == MakePrompt(b).systemPrompt == SystemPrompt
  {
  }

  /** The user prompt embeds the cart after "The cart contains: ", one line per
      item in cart order, so the items can be read back from it as long as no name
      or image description holds a line break. */
  lemma {:induction false} UserPromptListsCart(products: seq<Product>)
    requires |products| > 0
    requires forall k :: 0 <= k < |products| ==> '\n' !in ProductLine(products[k])
    ensures var u := MakePrompt(products).userPrompt;
      && |UserPromptHead| + |UserPromptTail| <= |u|
      && u[..|UserPromptHead|] == UserPromptHead
      && u[|u| - |UserPromptTail|..] == UserPromptTail
      && Split(u[|UserPromptHead|..|u| - |UserPromptTail|], '\n') == ProductLines(products)
  {
    var lines := ProductLines(products);
    var middle := Join(lines, "\n");
    var u := MakePrompt(products).userPrompt;
    assert u == UserPromptHead + middle + UserPromptTail;
    assert u[|UserPromptHead|..|u| - |UserPromptTail|] == middle;
    SplitJoin(lines, '\n');
  }
}
