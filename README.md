# Green-Earth storefront: a Dafny model of its bookkeeping core

Green-Earth is a single browser script (`index.js`). It lists plant categories, shows
plant cards for the selected category, and keeps a shopping cart. This project models
the logic that sits under the DOM and fetch glue, and proves properties of it:

- **Payload normalisation** (`Shapes`). `parseDataArray` accepts a bare array or an
  object wrapping one under `data`, `plants` or `items`, in that order. `parseSingle`
  is a first-truthy chain.
- **Field fallbacks** (`Shapes`). A category record becomes `{id, name}` through `??`
  chains. A plant record becomes a card through destructuring defaults, which replace
  `undefined` only. `money` prints the currency glyph followed by `Number(num || 0)`.
- **Selection and endpoint choice** (`Shapes`, `Page`). `onCategoryClick` normalises
  the id with `id || ""`. `loadTrees` picks `/category/{id}` exactly for a truthy id,
  and `/plants` otherwise. `setActiveButton` leaves exactly one active button.
- **The cart** (`CartModel`). Items are appended with `push` and removed with
  `splice(idx, 1)`. Every change is followed by `renderCart`, which rebuilds one row
  per item and recomputes the total as a left fold.

JavaScript values are a datatype `JsValues.Value`: undefined, null, booleans, numbers,
strings, arrays and objects. Numbers are `JsValues.Number`, which holds the integers
plus NaN. Truthiness, `??`, `||`, destructuring defaults, `String(x)` and `Number(x)`
are written out explicitly. One consequence is an observable quirk: a single price
that converts to NaN makes the whole total NaN. `money(NaN)` then prints `৳0`, because
NaN is falsy (`CartModel.TotalIsInt`, `Shapes.Money`).

Network responses are method arguments. `Page.Storefront.CategoriesLoaded` receives
the decoded category payload. `Page.Storefront.TreesLoaded` receives the decoded
catalog payload, or `None` for a failed fetch.

## Model

| member | source | states |
|---|---|---|
| `Shapes.ParseDataArray` | index.js:21-28 | an array is returned unchanged; otherwise the result is the list under the first of `data`, `plants`, `items` that holds an array, with every earlier key not an array; or `[]` when none does |
| `Shapes.ParseDataArrayWrappers` | index.js:21-28 | a bare list, `{data: xs}`, `{plants: xs}` and `{items: xs}` all yield `xs`; `{}` and `null` yield `[]` |
| `Shapes.ParseSingle` | index.js:30-33 | the result is the first truthy of `data`, `plant`, `item`, or the payload itself when none is truthy |
| `Shapes.ParseSingleTruthy` | index.js:30-33 | the result is truthy exactly when the payload is; a non-object payload is returned as it is |
| `Shapes.Money` | index.js:35 | the text starts with the currency glyph; a falsy value prints `৳0`; an integer prints as its decimal form, and reading that form back with `Number` gives the integer |
| `JsValues.IntToStringRoundTrip` | index.js:35 | `Number(String(n)) == n` for every integer: the printed price reads back as the price |
| `JsValues.ToNumberOfPrinted` | index.js:35 | the text `money` prints after the glyph converts back with `Number` to the number it printed, NaN included |
| `Shapes.CategoryOf` | index.js:49-52 | a nullish record throws; otherwise `id` is the first non-nullish of `id`, `category_id`, `_id`, else `""`, and `name` is the first non-nullish of `category`, `category_name`, `name`, else `"Unnamed"` |
| `Shapes.CategoriesOf` | index.js:49-52 | the mapping succeeds exactly when no record is nullish, and then yields one category per record, in order |
| `Shapes.LoadedCategories` | index.js:46-53 | the appended categories are those of the `categories` field's records, one per record; nothing is appended when the payload or any record is nullish |
| `Shapes.Summarize` | index.js:119-126 | each card field is the record's own field unless that is `undefined`; then `id` falls back to the first truthy of `_id`, `plant_id`, else `""`; `name` to "Unnamed Tree"; `image` to the placeholder; `short_description` to a truthy `description`, else "—"; `category` to the first truthy of `category_name`, `type`, else "—"; `price` to 0 |
| `Shapes.MissingPriceShowsZero` | index.js:125 | a card whose price is missing or `null` shows `৳0` |
| `Shapes.NormalizeId` | index.js:87 | a truthy id is kept and a falsy one becomes `""`; truthiness is preserved |
| `Shapes.NormalizeIdIdempotent` | index.js:87 | normalising twice is the same as normalising once |
| `Shapes.TreesEndpoint` | index.js:98-100 | the category endpoint is chosen exactly when the id is truthy; a string id is used as the path segment, and a numeric id's segment reads back as that number |
| `Shapes.Url` | index.js:98-100 | all plants is `…/api/plants`; a category is `…/api/category/` followed by exactly its id |
| `Shapes.UrlInjective` | index.js:98-100 | different endpoints are fetched from different URLs |
| `Shapes.ClickedEndpoint` | index.js:86-100 | after a click, the category endpoint is chosen exactly when the button's id is truthy; otherwise the all-plants URL is fetched |
| `CartModel.Total` | index.js:216 | the left fold from 0 of each item's `PriceOf`, in cart order; a one-item cart totals that item's price |
| `CartModel.TotalUnpriced` | index.js:216 | a cart whose prices are all missing or falsy totals 0 |
| `CartModel.PriceOf` | index.js:216 | an item with a falsy price contributes 0; an integer price contributes itself |
| `CartModel.TotalAppend` | index.js:191-193 | appending an item raises the total by that item's price |
| `CartModel.TotalRemove` | index.js:196-198 | removing the item at any position lowers the total by exactly that item's price |
| `CartModel.TotalIsInt` | index.js:216 | the total is a number exactly when every item's price converts to one |
| `CartModel.SpliceStart` | index.js:197 | `splice`'s start position: an in-range start is kept, a negative start counts from the end, and the result is clamped to `[0, len]` |
| `CartModel.Splice` | index.js:197 | `splice(start, 1)` removes the element at the start position and shifts the later ones down by one; at the end nothing changes |
| `CartModel.SpliceInRange` | index.js:196-198 | for `0 <= i < len`, exactly element `i` goes, the others keep their order, and the multiset loses only that element |
| `CartModel.SpliceOutOfRange` | index.js:196-198 | an index at or past the end leaves the cart unchanged |
| `CartModel.AddTwiceKeepsBoth` | index.js:191-193 | adding the same item twice gives two entries, and removing either copy leaves the other |
| `CartModel.RowTargetsInRange` | index.js:203-212 | every rendered row's captured index is in range, names that row's own item, and removes exactly that item |
| `CartModel.Cart.constructor` | index.js:3 | the cart starts empty, with its display consistent |
| `CartModel.Cart.RenderCart` | index.js:201-218 | after rendering there is one row per item in cart order, row `i` targets index `i`, and the total is the fold of the prices, printed with `money` |
| `CartModel.Cart.AddToCart` | index.js:191-194 | the item is appended at the end, the display is consistent again, and the total rises by the item's price |
| `CartModel.Cart.RemoveFromCart` | index.js:196-199 | the cart becomes `splice(idx, 1)` of the old cart; in range that removes exactly element `idx` and lowers the total by its price; past the end nothing changes |
| `CartModel.Cart.ClickRemove` | index.js:212 | a remove click on row `r` removes exactly item `r` and shortens the cart by one |
| `Page.OnlyActiveCount` | index.js:77-84 | when button `b` is the only active one, exactly one button is active |
| `Page.CountOneIsOnlyActive` | index.js:77-84 | when exactly one button is active, some button is the only active one |
| `Page.CategoryStrip.SetActiveButton` | index.js:77-84 | afterwards `b` is active and every other button is inactive, whatever the previous styles were |
| `Page.CategoryStrip.RenderCategoryButtons` | index.js:59-75 | without replacing, the categories are appended as inactive buttons; with replacing, the strip becomes exactly the new buttons, with the first one active |
| `Page.CategoryStrip.constructor` | index.js:42 | the strip starts as the single "All Trees" button, and it is active |
| `Page.NullishFreePrefix` | index.js:118-126 | the length of the longest prefix of records that destructure without throwing |
| `Page.CardGrid.ShowSpinner` | index.js:16-19 | the loading indicator is shown exactly when requested |
| `Page.CardGrid.RenderCards` | index.js:116-159 | there is one card per record, in order, built by the card defaults; an empty list gives exactly one empty-state node; a nullish record throws after the cards before it |
| `Page.Storefront.constructor` | index.js:223-224 | on page load the cart is empty, "All Trees" is the only active button, the id is `""`, the grid is empty, the loading indicator shows, and `loadTrees()` requests all plants |
| `Page.Storefront.CategoriesLoaded` | index.js:46-53 | the loaded categories are appended after the existing buttons as inactive buttons; on a throw the strip and its styles are unchanged; the existing active styles are kept, so exactly one button stays active |
| `Page.Storefront.LoadTrees` | index.js:95-100 | the loading indicator shows, and the requested endpoint is the category one exactly for a truthy id, with that id as its segment |
| `Page.Storefront.TreesLoaded` | index.js:102-113 | a failed fetch or a throwing record leaves exactly one error node; an empty list leaves one empty-state node; otherwise there is one card per record; the indicator is hidden in every case |
| `Page.Storefront.OnCategoryClick` | index.js:86-90 | the stored id is the truthy id or `""`, the clicked button is the only active one, and the category endpoint is requested exactly for a truthy id |
| `Page.Storefront.ClickCategory` | index.js:69 | a click on button `b` stores the button's id, with a falsy id stored as `""`, makes it the only active one, shows the indicator, and requests the endpoint for the normalised id: the category one exactly when that id is truthy |
| `Page.Storefront.ClickAddToCart` | index.js:148-150 | a card's add control appends the `{id, name, price}` the card captured when it was rendered |

## Left out

- `fetch`, `res.json()`, `async`/`await` and `console` logging are left out, because they are network I/O and diagnostics. Decoded payloads are method parameters. For the catalog, `Page.Storefront.TreesLoaded` receives `None` for a failed fetch or decode. For categories, a failed fetch or decode means `Page.Storefront.CategoriesLoaded` is never called, and the strip keeps only "All Trees". The `None` of `Shapes.LoadedCategories` stands for a throw while reading `categories` or its records.
- The race between the page-load `loadTrees()` and a later category click's `loadTrees` is left out. Responses are applied in whatever order `TreesLoaded` is called, and the last call wins, as it does on the page.
- DOM construction, HTML templates, CSS class names and the modal are left out, because they are presentation only. `showModal` (index.js:164-187) is not part of this model: it is a network fetch followed by filling the modal.
- JsValues.StringToNumber: accepts only `""`, an optional `-` followed by decimal digits, and nothing else. Whitespace trimming, `+`, decimals, exponents, hexadecimal and `Infinity` all give NaN here, because numbers are integers in this model.
- JsValues.Number: floating-point values are not modelled. Prices and totals are integers or NaN. The integers are unbounded, so the rounding of sums above 2^53 is not modelled, and neither is the exponent form `String(n)` takes from 1e21 on (`"1e+21"`).
- Shapes.Money: an integer prints in plain decimal form at any size. The exponent form JavaScript uses from 1e21 on is not modelled.
- JsValues.Get: reads own properties of decoded objects only. Inherited and built-in properties are not modelled; none of the keys the script reads names one.
- CartModel.Cart.constructor: the page's static markup for the cart is not part of this model. The cart is taken to start rendered empty, showing `৳0`.
- Page.Storefront.constructor: the grid's static markup is not part of this model. The grid starts with no nodes.
- CartModel.Cart.RemoveFromCart: indices are integers. JavaScript's conversion of a non-integer argument to `splice` is not modelled.
