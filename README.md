# retail-lakestore dashboard logic in Dafny

This project models the logic of the retail-lakestore dashboard, a Next.js
product-management front end over a Databricks lakehouse, and proves properties
of that model. It covers:

- **Cart.** The module-level cart and recommendation lists, adding a product
  unless its id is already in the cart, and emptying both lists. It also covers
  the prompt that asks the language model for recommendations and the search
  string built from its reply.
- **Search resolution.** Turning vector-search ids back into catalogue products:
  the first row with each id, unknown ids dropped, search order kept. The search
  sheet shows at most nine; the cart recommendations take at most the first five ids.
- **Product router.** The `search` procedure: the empty-query guard, the request
  body with its defaults, and the shaping of the index's reply into a
  validated result, where every failure yields `undefined`.
- **Forecast router.** Loading the forecast rows, which is all or nothing, and
  the `list` and `get` procedures.
- **Product mapping.** Mapping raw product rows to the `Product` view model, and
  the fifty placeholder rows shown while loading.
- **Copy editor.** Filling the copy prompt's `{title}`, `{caption}` and
  `{category}` placeholders, the word and character counter, and the edit
  modal with its save-description update.
- **Details panel.** The fields and fallbacks the product details panel shows.
- **Forecast modal.** The chart series built from forecast rows (actuals and
  forecast, masked by status) and the modal's open/close state.

JavaScript semantics that matter are modelled in `js.dfy`:

- nullable strings with `??`, template-literal rendering of `null`/`undefined`, and `Array.prototype.join`;
- `Array.prototype.find` (first match);
- `split` with a one-character separator;
- `indexOf` and `replace` on the first occurrence;
- `parseInt`, including white space, sign, `0x` and NaN.

Search is a single remote vector query (src/server/api/routers/product.ts:28-60)
whose ids are joined back to the catalogue on the client.

Stateful parts are classes:

- `CartList.CartStore` holds the two cart signals.
- `SearchProductView.SearchView` holds the search sheet's component state.
- `ProductCopyEdit.EditModal` holds the edit modal's signal.
- `ForecastView.ForecastModal` holds the forecast modal's signal.

The forecast loader is a loop proved against the function `ForecastRouter.ParseRecords`.

## Model

| member | source | states |
|---|---|---|
| `Js.FindIndex` | src/components/cart-view/cart-list.tsx:27 | `find` yields the first element that matches; none means no element matches |
| `Js.IndexOf` | src/components/product-view/product-copy-edit-view.tsx:268 | the first position where the pattern occurs; none means it occurs nowhere |
| `Js.ReplaceFirstAfterPrefix` | src/components/product-view/product-copy-edit-view.tsx:268-270 | `replace` puts the value where the pattern follows a prefix free of the pattern's first character |
| `Js.SplitLength` | src/components/product-view/product-copy-edit-view.tsx:245 | `split(c)` yields one more piece than there are `c` in the string |
| `Js.SplitJoin` | src/components/cart-view/cart-list.tsx:47-49 | splitting a `join(c)` at `c` gives the parts back when no part holds `c` |
| `Js.JoinValuesContains` | src/components/product-view/product-details.tsx:20 | every string element of an array occurs in its `join` |
| `Js.ParseIntOfIntToString` | src/components/forecast-view/forecast.tsx:61-62 | `parseInt` reads back every integer written in decimal |
| `ProductRouter.SearchRequest` | src/server/api/routers/product.ts:28-39 | a request is sent exactly for a non-empty query; it carries the query, asks only for `Retailer_Product_ID`, and asks for 50 results unless told otherwise |
| `ProductRouter.AllText` | src/server/api/routers/product.ts:53-57 | a string array validates exactly when every element is a string, and then keeps them in order |
| `ProductRouter.ShapeResponse` | src/server/api/routers/product.ts:49-59 | the reply yields a result exactly when the row count, column names and data rows are present and every column name and first cell is a string; then `columns[i]` is the i-th column name and `results[i]` the first cell of row i |
| `ProductRouter.FetchData` | src/server/api/routers/product.ts:47-59 | a failed fetch or JSON parse is caught and yields undefined; a delivered reply yields exactly what `ShapeResponse` makes of it |
| `ProductRouter.Search` | src/server/api/routers/product.ts:85-90 | null exactly for an empty query; otherwise what the index's reply to the request shapes to |
| `ProductRouter.EmptyQueryIgnoresIndex` | src/server/api/routers/product.ts:86-89 | an empty query gives null whatever the index would answer: no request is made |
| `ForecastRouter.ParseRecord` | src/server/api/routers/forecast.ts:7-14 | a record validates exactly when the four required columns are present; its row copies them, and carries STATUS and OUT_OF_STOCK as given or undefined when missing |
| `ForecastRouter.ParseRecords` | src/server/api/routers/forecast.ts:25-35 | a load yields one row per record or names a record that failed; its meaning is given by `ParseRecordsAllOrNothing` |
| `ForecastRouter.ParseRecordsAllOrNothing` | src/server/api/routers/forecast.ts:25-35 | loading succeeds exactly when every record validates and then yields every row in file order; otherwise it fails with the first invalid record |
| `ForecastRouter.GetForecastData` | src/server/api/routers/forecast.ts:19-37 | the push loop with its first rejection yields exactly `ParseRecords` |
| `ForecastRouter.List` | src/server/api/routers/forecast.ts:40-43 | `list` is the whole load |
| `ForecastRouter.Get` | src/server/api/routers/forecast.ts:44-49 | `get(id)` fails when the load fails, and is otherwise the load filtered by id |
| `ForecastRouter.FilterByProduct` | src/server/api/routers/forecast.ts:48 | `filter` keeps no more rows than it is given, all of product `id`; `FilterByProductExact`, `FilterByProductIsSubsequence` and `FilterByProductIdempotent` give its meaning |
| `ForecastRouter.FilterByProductExact` | src/server/api/routers/forecast.ts:48 | `get(id)` keeps only rows of product `id` and every such row as often as it occurs |
| `ForecastRouter.FilterByProductIsSubsequence` | src/server/api/routers/forecast.ts:40-48 | `get(id)` is an order-preserving subsequence of `list()` |
| `ForecastRouter.FilterByProductIdempotent` | src/server/api/routers/forecast.ts:48 | filtering `get(id)` again by `id` changes nothing |
| `ProductList.RowToProduct` | src/components/product-view/product-list.tsx:95-109 | a row becomes a fresh draft with the row's id and its category as the only label; `RowToProductKeepsColumns` shows what else it keeps |
| `ProductList.RowToProductKeepsColumns` | src/components/product-view/product-list.tsx:94-110 | the mapping loses only the product URL and the AI description: the row can be rebuilt from the product and those two |
| `ProductList.MapRows` | src/components/product-view/product-list.tsx:94-110 | mapping keeps length and order, one product per row |
| `ProductList.MapRowsFields` | src/components/product-view/product-list.tsx:96-107 | each product carries its row's id, name, image, descriptions, retailer and `[CATEGORY]` labels, and is a draft with zero price, inventory and sales created 2024-01-01 |
| `ProductList.LoadingFakeData` | src/components/product-view/product-list.tsx:72-81 | fifty placeholders with empty strings and zero numbers |
| `Resolution.FindRow` | src/components/cart-view/cart-list.tsx:184 | finds a row exactly when some row has the id, and then the first such row |
| `Resolution.ResolveIds` | src/components/cart-view/search-product-view.tsx:67-71 | never more products than ids; `ResolveIdsSpec` ties it to `MatchedIds` |
| `Resolution.ResolveIdsSpec` | src/components/cart-view/search-product-view.tsx:66-74 | resolved products carry exactly the ids that have a row, in search order, each the product of the first row with its id; never more than the ids |
| `Resolution.MatchedIdsAllFound` | src/components/cart-view/search-product-view.tsx:67-71 | when every id has a row, one product per id in order |
| `Resolution.MatchedIdsDropsUnknown` | src/components/cart-view/search-product-view.tsx:69 | an id with no row is dropped |
| `Resolution.Recommendations` | src/components/cart-view/cart-list.tsx:183-187 | at most five products; `RecommendationsSpec` says which |
| `Resolution.RecommendationsSpec` | src/components/cart-view/cart-list.tsx:182-188 | at most five recommendations, carrying the matched ids among the first five results, in order |
| `CartList.FindInCart` | src/components/cart-view/cart-list.tsx:27 | an item is found exactly when some item has the id |
| `CartList.AddIfAbsent` | src/components/cart-view/cart-list.tsx:26-30 | unchanged when the id is present (whatever the other fields); otherwise the product is appended and earlier items keep their places; afterwards the id is present; distinct ids stay distinct |
| `CartList.AddIfAbsentKeepsIdsDistinct` | src/components/cart-view/cart-list.tsx:26-30 | any sequence of additions keeps the cart free of duplicate ids |
| `CartList.CartStore.constructor` | src/components/cart-view/cart-list.tsx:18-19 | both lists start empty |
| `CartList.CartStore.EmptyCart` | src/components/cart-view/cart-list.tsx:21-24 | both lists end empty |
| `CartList.CartStore.AddToCartIfNotExists` | src/components/cart-view/cart-list.tsx:26-30 | the cart becomes `AddIfAbsent` of the old cart, keeps distinct ids, and the recommendations are untouched |
| `CartList.CartStore.OnChatLoading` | src/components/cart-view/cart-list.tsx:125-128 | while the chat answers the recommendations are cleared; the cart is untouched |
| `CartList.CartStore.RefreshRecommendations` | src/components/cart-view/cart-list.tsx:177-190 | a pending search clears the recommendations; results with the catalogue replace them with the resolved first five; otherwise they stay |
| `CartList.SearchTopics` | src/components/cart-view/cart-list.tsx:129-140 | a parsed reply's items are joined into the search string and each occurs in it; an unparsable reply leaves the old string |
| `CartList.ProductLines` | src/components/cart-view/cart-list.tsx:47-49 | one `name - imageDescription` line per cart item, in cart order |
| `CartList.MakePrompt` | src/components/cart-view/cart-list.tsx:43-68 | the fixed system prompt, and a user prompt opening with the instructions and closing with the request for recommendations; `UserPromptListsCart` says what stands between |
| `CartList.ChatSeed` | src/components/cart-view/cart-list.tsx:96-109 | only a non-empty cart seeds the chat, with the fixed system prompt and a user prompt opening with the instructions |
| `CartList.SystemPromptIgnoresCart` | src/components/cart-view/cart-list.tsx:43-68 | the system prompt is the same for every cart |
| `CartList.UserPromptListsCart` | src/components/cart-view/cart-list.tsx:47-62 | the user prompt is the instructions, then the cart lines joined by line breaks, then the closing text; the lines can be split back out when no line holds a break |
| `ProductRouter.ClientData` | src/components/cart-view/search-product-view.tsx:61 | the client has results exactly when the procedure fetched and shaped a reply; null and undefined both read as none |
| `SearchProductView.SearchResultsOfQuery` | src/components/cart-view/search-product-view.tsx:50-65 | an empty query and a failed fetch both give the sheet no results, so it shows the whole catalogue; otherwise it gets the shaped reply to the request |
| `SearchProductView.LoadingSkeleton` | src/components/cart-view/search-product-view.tsx:16-20 | the loop builds the keys 0 to nItems-1, none for a non-positive count |
| `SearchProductView.FirstShown` | src/components/cart-view/search-product-view.tsx:100 | at most nine products, a prefix of the list |
| `SearchProductView.ShownSearchResults` | src/components/cart-view/search-product-view.tsx:66-100 | after a search the sheet shows the products of the first nine matched ids, in search order |
| `SearchProductView.ShownCatalogue` | src/components/cart-view/search-product-view.tsx:61-65 | without results the sheet shows the first nine catalogue rows, mapped, in order |
| `SearchProductView.SearchView.constructor` | src/components/cart-view/search-product-view.tsx:47-48 | loading, with no products |
| `SearchProductView.SearchView.OnSearchChange` | src/components/cart-view/search-product-view.tsx:55-75 | a running search sets only the loading flag; with the catalogue, no results give the whole catalogue and results give the resolved list, and loading ends; without the catalogue nothing changes |
| `SearchProductView.SearchView.Displayed` | src/components/cart-view/search-product-view.tsx:99-100 | nothing while searching, otherwise a prefix of at most nine |
| `SearchProductView.SearchView.SelectProduct` | src/components/cart-view/search-product-view.tsx:100-103 | clicking a shown product adds it if absent, so the cart keeps distinct ids and holds its id |
| `ProductCopyEdit.TitleValue` | src/components/product-view/product-copy-edit-view.tsx:268 | the open product's name, or "No product title" |
| `ProductCopyEdit.CaptionValue` | src/components/product-view/product-copy-edit-view.tsx:269 | the open product's image description, or "No product caption" |
| `ProductCopyEdit.CategoryValue` | src/components/product-view/product-copy-edit-view.tsx:270 | the labels joined by a space (empty labels give ""), each label occurring in it, or "No product labels" |
| `ProductCopyEdit.FillPrompt` | src/components/product-view/product-copy-edit-view.tsx:267-270 | the prompt with the values inserted literally; with no product open, the three fallbacks; `FillWithInOrder`, `FillDefaultPrompt` and `FillPromptWithoutPlaceholders` give its meaning |
| `ProductCopyEdit.FillPromptAsWritten` | src/components/product-view/product-copy-edit-view.tsx:267-270 | the prompt as the code builds it, expanding `$` patterns; with no product open it equals the intended fill; `DollarPatternInTitle` shows where they differ |
| `ProductCopyEdit.FillPromptWithoutPlaceholders` | src/components/product-view/product-copy-edit-view.tsx:267-270 | a template without placeholders is sent unchanged |
| `ProductCopyEdit.FillWithInOrder` | src/components/product-view/product-copy-edit-view.tsx:267-270 | title, then caption, then category each replace the first occurrence of their placeholder, so each value stands where its placeholder stood |
| `ProductCopyEdit.FillDefaultPrompt` | src/components/product-view/product-copy-edit-view.tsx:21-24 | the default prompt filled in is its text with the title, caption and category in place |
| `ProductCopyEdit.FillDefaultPromptWithoutProduct` | src/components/product-view/product-copy-edit-view.tsx:302-305 | with no product open the three fallbacks are filled in |
| `ProductCopyEdit.ExpandLiteral` | src/components/product-view/product-copy-edit-view.tsx:303 | a replacement without `$` is inserted literally |
| `ProductCopyEdit.FillPromptAsWrittenWithoutDollar` | src/components/product-view/product-copy-edit-view.tsx:302-305 | without `$` in the values the code fills the prompt as intended |
| `ProductCopyEdit.ReplaceAsWrittenLiteral` | src/components/product-view/product-copy-edit-view.tsx:268 | `replace` with a replacement free of `$` inserts it literally |
| `ProductCopyEdit.FillPromptAsWrittenWithoutPlaceholders` | src/components/product-view/product-copy-edit-view.tsx:267-270 | the code as written sends a template without placeholders unchanged, whatever `$` the values hold |
| `ProductCopyEdit.DollarPatternInTitle` | src/components/product-view/product-copy-edit-view.tsx:267-268 | a product named `$&` puts `{title}` back into the prompt instead of its name |
| `ProductCopyEdit.LastMessageContent` | src/components/product-view/product-copy-edit-view.tsx:243-244 | the last message's content when the assistant wrote it, else "" |
| `ProductCopyEdit.NumWordsCountsSpaces` | src/components/product-view/product-copy-edit-view.tsx:245 | the word count is the number of spaces, never negative |
| `ProductCopyEdit.CounterLabel` | src/components/product-view/product-copy-edit-view.tsx:247 | empty or a parenthesised label; `CounterLabelEmptyIff` says when each and what the label reads |
| `ProductCopyEdit.CounterLabelEmptyIff` | src/components/product-view/product-copy-edit-view.tsx:245-247 | the counter is empty exactly when the content has no space, and otherwise reads `(<characters> Characters, <spaces> Words)` |
| `ProductCopyEdit.EditModal.constructor` | src/components/product-view/product-copy-edit-view.tsx:20 | no product is open |
| `ProductCopyEdit.EditModal.IsOpen` | src/components/product-view/product-copy-edit-view.tsx:55-57 | open exactly when a product is held |
| `ProductCopyEdit.EditModal.Show` | src/components/product-view/table/data-table-row-actions.tsx:40 | the edit action holds the product |
| `ProductCopyEdit.EditModal.OnOpenChange` | src/components/product-view/product-copy-edit-view.tsx:58-62 | a close request empties the signal; an open request changes nothing |
| `ProductCopyEdit.EditModal.SaveDescription` | src/components/product-view/product-copy-edit-view.tsx:104-109 | with a non-empty description and an open product only its provided description changes, to the description; otherwise nothing changes |
| `ProductDetails.Title` | src/components/product-view/product-details.tsx:17 | the open product's name, undefined without one |
| `ProductDetails.Description` | src/components/product-view/product-details.tsx:18 | the provided description, or "No description provided." |
| `ProductDetails.AiDescription` | src/components/product-view/product-details.tsx:19 | the AI description, or "No AI generated description available." |
| `ProductDetails.LabelString` | src/components/product-view/product-details.tsx:20 | the string opens with "Labels: "; `LabelStringShowsProduct` and `DetailsWithoutProduct` say what follows |
| `ProductDetails.LabelStringShowsProduct` | src/components/product-view/product-details.tsx:20 | every label, the id and the retailer occur in the label string |
| `ProductDetails.DetailsWithoutProduct` | src/components/product-view/product-details.tsx:17-20 | without a product the fallbacks show, and the label string reads `undefined` for id and retailer |
| `ProductDetails.DetailsOfMappedRow` | src/components/product-view/product-details.tsx:17-20 | a catalogue product shows its row's name, description and category, and always the AI fallback |
| `ProductDetails.SavedDescriptionShown` | src/components/product-view/product-details.tsx:18 | after a save the panel shows the saved description and nothing else it shows changes |
| `ForecastView.CreateSeries` | src/components/forecast-view/forecast.tsx:58-65 | four arrays as long as the rows; `Week ` labels; counts present exactly on rows of the requested status, and then parsed; out of stock exactly on the text "true" |
| `ForecastView.ActualsAndForecastSplit` | src/components/forecast-view/forecast.tsx:66-67 | actuals and forecast share weeks and stock flags, and no week has a count in both |
| `ForecastView.SeriesReadsCounts` | src/components/forecast-view/forecast.tsx:61-62 | decimal counts are plotted as their integers |
| `ForecastView.Viz` | src/components/forecast-view/forecast.tsx:45-67 | dots exactly while loading, "No data" exactly without data, otherwise a chart over the rows (an empty array still charts) whose actuals are `createSeries(data, "actuals")` and whose forecast is `createSeries(data, "forecast")` |
| `ForecastView.ChartRowsBelongToProduct` | src/components/forecast-view/forecast.tsx:45 | the chart for a product plots only rows with its id, one week per row |
| `ForecastView.ForecastModal.constructor` | src/components/forecast-view/forecast.tsx:12 | no product is held |
| `ForecastView.ForecastModal.IsOpen` | src/components/forecast-view/forecast.tsx:16-18 | open exactly when a product is held |
| `ForecastView.ForecastModal.Show` | src/components/product-view/table/data-table-row-actions.tsx:65 | the forecast action holds the product |
| `ForecastView.ForecastModal.OnOpenChange` | src/components/forecast-view/forecast.tsx:19-23 | a close request empties the signal; an open request changes nothing |
| `ForecastView.ForecastModal.ChartProductId` | src/components/forecast-view/forecast.tsx:26-34 | the chart is drawn exactly for a held product with a non-empty id, for that id |

## Left out

- The SQL `list` procedure (src/server/api/routers/product.ts:62-79) is left out. Its result, the catalogue, is a parameter of the effects that use it.
- The HTTP request to the vector index (src/server/api/routers/product.ts:47-48) is the function parameter `remote` of `ProductRouter.Search`.
- The CSV file and its stream (src/server/api/routers/forecast.ts:23-24) are left out. The records the parser emits are a parameter.
- The stream's own error event is not handled in the source and is not modelled.
- The product CSV route (src/app/api/product/route.ts) is not part of this model.
- The chat with the language model is left out: `useChat`, the submission effects and streaming. Messages and replies are parameters.
- The `JSON.parse` of the assistant's reply is left out. Its `next_items` is a parameter of `CartList.SearchTopics`.
- CartList.SearchTopics takes `next_items` as an array of strings or nothing. Numbers or other values inside the array are not modelled.
- Timers are left out: `useDebounce`, the `setTimeout` resets of the copy editor, and the accordion switch after saving. The `generationLoadingSignal` counter is left out too, because its value depends on when the chat hook's loading flag flips.
- The model list and the selected model are left out. They only choose the chat endpoint.
- JSX rendering is left out, along with the navigation, layout, image and table-cell components.
- product-list.tsx maps rows inline (94-110) and exports neither `dataToViewModel` nor `useDebounce`, although cart-list.tsx and search-product-view.tsx import them from it. The model uses the inline mapping for `dataToViewModel`.
- Zod validation is modelled only as far as these files rely on it: required keys, and string arrays taken all or nothing.
- ForecastRouter.ParseRecord only checks that keys are present. CSV cells are always strings, so type checks cannot fail.
- `productSchema.parse` in the row actions yields a fresh copy of the product, so the modals hold products as values. The in-place write of the save handler becomes a new value in the signal.
- ProductCopyEdit.EditModal.SaveDescription does not model that the in-place write does not notify the signal. When the panel re-renders is outside the model.
- ProductCopyEdit.NumChars counts characters. JavaScript's `length` counts UTF-16 code units, which differs for characters outside the Basic Multilingual Plane.
- ForecastView.CreateSeries parses counts as unbounded integers. JavaScript numbers lose precision beyond 2^53.

## Findings

| source | as written | input that shows it | evidently intended | confidence | as-written member | corrected member |
|---|---|---|---|---|---|---|
| src/components/product-view/product-copy-edit-view.tsx:267-270 | `replace` is given the product's name, caption and labels as the replacement string, and `replace` expands `$&`, `` $` ``, `$'` and `$$` in it | a product named `$&` with the template `{title}`: the prompt stays `{title}` (also 302-305) | the values inserted literally, so the prompt reads `$&` | low, not executed | `ProductCopyEdit.FillPromptAsWritten` | `ProductCopyEdit.FillPrompt` |
