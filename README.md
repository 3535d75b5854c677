# Storefront client state, modelled in Dafny

This project models the client-side logic of a Next.js storefront: the cart
provider (`cartItems`, `loadingCart`, `cartError`) and the cart page, the
favorites provider and the favorites page, the customer dashboard's search
and twelve-per-page catalog, the pagination bar, the purchase history, the
seller dashboard (confirmation modal, product deletion, metrics, logout and
deactivation), the registration and product-creation pages, and the users
service client in `src/lib/api.js`.

Every network reply is an input value, not a request:
`Reply<T> = NetworkFailure(reason) | Response(status, statusText, body)`.
The body is `Parsed(value)`, or `Unparsable(reason)` when `response.json()`
rejects. A handler then becomes a deterministic state transition. React
state lives in a `class` per provider or page, and each handler is a
`method` whose `ensures` state the new state for every reply. The list logic is stated as functions with lemmas beside them:
the `map`/`filter`/`reduce` updaters, the add-merge, the page slices and the
record mappers. Token presence is a `hasToken: bool` input or a field
compared with `""`. The empty string stands for every falsy id (`null`,
`undefined`, `''`). Prices are integer cents.

Files, one module per source file: `common.dfy` (shared reply model,
`Option`, `||` on optional fields, subsequence), `js_builtins.dfy`
(`parseInt` with ECMAScript white space, number-to-text, ASCII `toLowerCase`, `String.includes`,
`Array.includes`, `Array.slice`, UTF-16 `length`), `cart_context.dfy`,
`cart_page.dfy`, `favorite_context.dfy`, `favorites_page.dfy`,
`pagination.dfy`, `customer_dashboard.dfy`, `purchase_history.dfy`,
`seller_dashboard.dfy`, `register.dfy`, `create_product.dfy`, `api.dfy`.

Where the design description and the code disagree, the model follows the
code:
- A failed top-level `fetchCart` keeps the lines already shown and only sets
  `cartError` (src/context/cartContext.jsx:113-118). The design text says it
  leaves the cart empty.
- A failed catalog lookup yields a sentinel line only for a non-ok status, a
  network error or a missing token. An ok lookup whose body is not JSON
  rejects the whole `Promise.all`, so the whole `fetchCart` fails. This is
  because `productResponse.json()` is returned without `await` inside the
  `try` (src/context/cartContext.jsx:26).

## Model

| member | source | states |
|---|---|---|
| JsBuiltins.ParseIntOfNatToString | src/context/cartContext.jsx:39-40 | `parseInt` reads back any decimal numeral, with or without a leading minus |
| JsBuiltins.ParseIntOfDigits | src/context/cartContext.jsx:39-40 | `parseInt` reads a run of digits as its decimal value, and the run behind a minus sign as the negation |
| JsBuiltins.ParseIntWithoutDigits | src/context/cartContext.jsx:39-40 | a quantity text with no digit is `NaN`, so the update guard rejects it |
| JsBuiltins.IncludesIff | src/app/customerDashboard/page.jsx:185 | `includes` is true exactly when the term occurs at some index |
| JsBuiltins.ArrayIncludes | src/context/favoriteContext.jsx:64 | `Array.includes` is sequence membership |
| JsBuiltins.SliceNonNegative | src/app/customerDashboard/page.jsx:195 | for non-negative bounds `slice` is the sub-range clipped to the length, never longer than `end - start` |
| JsBuiltins.Utf16Length | src/app/register/page.jsx:36 | `length` counts UTF-16 units: between one and two per character, one per character for text inside the Basic Multilingual Plane |
| CartContext.FetchProductDetails | src/context/cartContext.jsx:13-31 | the lookup rejects exactly for an ok reply whose body is not JSON; an ok JSON body is returned as is; no token gives 'Produto Desconhecido', a refusal 'Produto Indisponível', a network error 'Erro de Rede', each priced 0 |
| CartContext.EnrichAll | src/context/cartContext.jsx:99-110 | every raw line joined with its product details, in order, or no cart when a lookup throws; EnrichAllShape states it |
| CartContext.LoadedCart | src/context/cartContext.jsx:92-111 | the enriched lines of an ok, parsed cart reply, and no cart for any other reply |
| CartContext.EnrichAllShape | src/context/cartContext.jsx:97-111 | enrichment keeps the server's lines in order with their ids and quantities, gives each line its own lookup's fields, and fails exactly when some lookup rejects |
| CartContext.UnavailableLineScenario | src/context/cartContext.jsx:97-111 | a line whose lookup answers 500 still loads, named 'Produto Indisponível' and priced 0 |
| CartContext.SetQuantity | src/context/cartContext.jsx:63-67 | the lines with the given product's quantity replaced; SetQuantityEffect states the result line by line |
| CartContext.SetQuantityEffect | src/context/cartContext.jsx:63-67 | the update sets the quantity of the lines with that id only; length, order and other lines are unchanged |
| CartContext.FindIndex | src/context/cartContext.jsx:152 | the first line with the id, or -1 exactly when no line has it |
| CartContext.Merge | src/context/cartContext.jsx:151-167 | the cart after adding a product: the first line with its id gains the quantity, else a new line is appended; MergeByIndex, MergeShape and MergeQuantity state it |
| CartContext.MergeByIndex | src/context/cartContext.jsx:151-166 | the handler's in-place index update equals the reference merge |
| CartContext.MergeShape | src/context/cartContext.jsx:151-166 | adding a present product grows only that line's quantity and keeps the length; adding an absent one appends one line at the end |
| CartContext.MergeQuantity | src/context/cartContext.jsx:151-166 | an add raises that product's total quantity by the amount and no other product's |
| CartContext.MergeKeepsUniqueIds | src/context/cartContext.jsx:151-166 | an add never duplicates an id, and the ids afterwards are the old ids plus the product's |
| CartContext.AddAllMergesByKey | src/context/cartContext.jsx:151-166 | from a cart with unique ids, any series of accepted adds keeps ids unique, and each product's quantity is its old one plus the sum requested |
| CartContext.SameProductAdds | src/context/cartContext.jsx:151-166 | repeated adds of one new product leave exactly one line for it, holding the sum of the amounts |
| CartContext.UpdateFailureAlert | src/context/cartContext.jsx:58-71 | the alert for a failed quantity update: the fixed prefix followed by the connection error, the server's `message` (or the fixed fallback when it has none) or the parse error |
| CartContext.AddFailureAlert | src/context/cartContext.jsx:145-171 | the alert for a failed add: the fixed prefix followed by the connection error, the server's `message` (or the fixed fallback when it has none) or the parse error |
| CartContext.CheckoutFailure | src/context/cartContext.jsx:235 | the refused checkout's message: the body's `error`, or a failure naming the status when it has none |
| CartContext.CheckoutOutcome | src/context/cartContext.jsx:208-246 | no order without a token, customer or lines; otherwise the order, the refusal or the thrown error of the reply; CheckoutGuards states the guards |
| CartContext.CheckoutGuards | src/context/cartContext.jsx:208-246 | checkout answers `null` exactly on the token, customer-id and empty-items guards; it returns an order only for an ok JSON reply; a refusal without `error` throws a message naming the status |
| CartContext.CartProvider.constructor | src/context/cartContext.jsx:34-36 | empty cart, loading, no error |
| CartContext.CartProvider.FetchCart | src/context/cartContext.jsx:75-119 | without a token only loading drops; a successful load replaces the cart with the enriched lines; a failure sets the error and keeps the lines |
| CartContext.CartProvider.UpdateQuantity | src/context/cartContext.jsx:38-73 | a quantity that does not parse to an integer of at least 1 sends nothing; without a token only an alert; only an ok reply changes the cart, by `SetQuantity` |
| CartContext.CartProvider.AddToCart | src/context/cartContext.jsx:125-173 | without a token or with a refused or unreadable reply the cart is unchanged and the alert names the cause; otherwise the cart becomes the reference merge |
| CartContext.CartProvider.RemoveFromCart | src/context/cartContext.jsx:175-206 | an empty id or no token sends nothing; 204 and 404 both reload the cart; any other outcome leaves every field unchanged |
| CartContext.CartProvider.Checkout | src/context/cartContext.jsx:208-246 | the result is the checkout outcome with its guard alerts; only an accepted order reloads the cart; otherwise the cart is untouched |
| CartPage.CartTotal | src/app/cart/page.jsx:62-64 | the cart total: the sum of price times quantity over the lines, with its append and update laws in CartTotalAppend and CartTotalUpdate |
| CartPage.CartTotalAppend | src/app/cart/page.jsx:62-64 | the total is additive over concatenation |
| CartPage.CartTotalExamples | src/app/cart/page.jsx:62-64 | an empty cart totals 0; 10.00 x 2 plus 5.50 x 1 totals 25.50 |
| CartPage.CartTotalUpdate | src/app/cart/page.jsx:62-64 | replacing one line changes the total by that line's difference |
| CartPage.CartTotalAfterAdd | src/app/cart/page.jsx:62-64 | an accepted add raises the total by the amount times the price of the line that receives it |
| CartPage.ItemsToSell | src/app/cart/page.jsx:43-46 | one `{product_id, quantity}` per cart line, same order, no price |
| CartPage.CartPageState.HandleCheckout | src/app/cart/page.jsx:35-60 | an empty cart sets the "vazio" message, never calls checkout and leaves the cart as it was; otherwise the projected lines are sent; an order reports success and reloads (the page's reload result wins, else the cart is what checkout's own reload left, with the load error); `null` reports failure and a throw sets "Erro crítico: " + message, both leaving the cart as it was |
| FavoriteContext.ProductIdsOf | src/context/favoriteContext.jsx:48 | the ids of the records, in response order |
| FavoriteContext.RemoveAll | src/context/favoriteContext.jsx:82 | every occurrence of the id goes; every other id keeps its count and order |
| FavoriteContext.ToggledIds | src/context/favoriteContext.jsx:75-98 | the favourite ids after a toggle: removed when present, appended when absent, unchanged when the request fails; ToggleFlips, ToggleKeepsNoDuplicates and ToggleTwiceRestores state it |
| FavoriteContext.ToggleFailureAlert | src/context/favoriteContext.jsx:85-109 | the alert for a failed toggle: the fixed prefix followed by the connection error, the server's `error` (or the remove or add fallback when it has none) or the unknown-error text for an unreadable body |
| FavoriteContext.ToggleFlips | src/context/favoriteContext.jsx:63-112 | an acknowledged toggle flips the id's membership and no other id's; an unacknowledged one changes nothing |
| FavoriteContext.ToggleKeepsNoDuplicates | src/context/favoriteContext.jsx:63-103 | a list without duplicates stays without duplicates |
| FavoriteContext.ToggleTwiceRestores | src/context/favoriteContext.jsx:75-103 | two acknowledged toggles restore membership; when the id started absent they restore the list exactly |
| FavoriteContext.FavoriteProvider.FetchFavorites | src/context/favoriteContext.jsx:25-57 | no token leaves the list; success installs the ids in order; every failure, 401 included, empties it; loading ends false |
| FavoriteContext.FavoriteProvider.ToggleFavorite | src/context/favoriteContext.jsx:63-112 | no token answers false with an alert; 204/404 on a delete or 200/201 on a create answer true and update the list by `ToggledIds`; anything else answers false, alerts and changes nothing |
| FavoriteContext.FavoriteProvider.CheckIsFavorite | src/context/favoriteContext.jsx:114 | true exactly when the id is in the list |
| FavoritesPage.KeepFavorites | src/app/favorites/page.jsx:61-65 | a subsequence of the catalog holding each favorite product as often as the catalog does, and nothing else |
| FavoritesPage.KeepFavoritesMembers | src/app/favorites/page.jsx:61-65 | a product is kept exactly when it is in the catalog and its id is a favorite |
| FavoritesPage.FailureText | src/app/favorites/page.jsx:55-71 | the message of the error that ended the catalog fetch: the connection error, the fixed load failure for a refusal, or the parse error |
| FavoritesPage.FavoritesPageState.FetchFavoriteProducts | src/app/favorites/page.jsx:33-75 | no token only stops loading; while favorites load nothing changes; no favorites empties the list without a request; a catalog reply installs the favorites in catalog order; a failure keeps the list and sets the message |
| Pagination.RenderPaginationControls | src/components/renderPaginationControls/renderPaginationControls.jsx:3-41 | hidden iff at most one page; otherwise 1 to 5 consecutive pages inside `[1, totalPages]`, exactly 5 when there are at least 5, all of them when fewer, the current page among them when in range; the window starts at `max(1, min(currentPage - 2, totalPages - 4))` and ends at `min(totalPages, start + 4)` (page 5 of 10 shows 3 to 7); previous disabled iff page 1, next disabled iff the last page |
| CustomerDashboard.FilterMatching | src/app/customerDashboard/page.jsx:182-186 | a subsequence of the products holding each matching product as often as the list does, and no other |
| CustomerDashboard.FilterProducts | src/app/customerDashboard/page.jsx:173-187 | all products for an empty term, else those whose name contains it case-insensitively; FilterProductsSpec states it |
| CustomerDashboard.FilterProductsSpec | src/app/customerDashboard/page.jsx:173-187 | an empty term keeps the list; a non-empty one keeps, in order, exactly the products with a non-empty name containing the term, ignoring case |
| CustomerDashboard.TotalPages | src/app/customerDashboard/page.jsx:198 | the fewest pages of twelve that hold every product |
| CustomerDashboard.PageSlice | src/app/customerDashboard/page.jsx:189-196 | the products of one page, clipped to the list; PageSliceWindow states the window |
| CustomerDashboard.PageSliceWindow | src/app/customerDashboard/page.jsx:189-196 | page p is the range `[(p-1)*12, p*12)` clipped to the list, at most 12 long, never empty for a page in range |
| CustomerDashboard.PagesUpToPrefix | src/app/customerDashboard/page.jsx:189-198 | pages 1 to n, read in turn, are the first `12n` products |
| CustomerDashboard.PagesCoverFiltered | src/app/customerDashboard/page.jsx:189-198 | pages 1 to `totalPages`, read in turn, are the whole filtered list |
| CustomerDashboard.CustomerDashboardState.constructor | src/app/customerDashboard/page.jsx:29-32 | no products, empty search, page 1 |
| CustomerDashboard.CustomerDashboardState.SetSearchTerm | src/app/customerDashboard/page.jsx:288 | a new term is stored and the filter recomputed, sending a non-empty search to page 1 |
| CustomerDashboard.CustomerDashboardState.FilteredProducts | src/app/customerDashboard/page.jsx:173-187 | the filter result, with the page reset to 1 for a non-empty term |
| CustomerDashboard.CustomerDashboardState.CurrentProducts | src/app/customerDashboard/page.jsx:194-196 | at most twelve products, and some for a page in range |
| CustomerDashboard.CustomerDashboardState.Paginate | src/app/customerDashboard/page.jsx:200-205 | the page changes exactly when the target lies in `[1, totalPages]` |
| PurchaseHistory.MapItem | src/app/purchaseHistory/page.jsx:54-60 | name falls back to 'Produto Desconhecido' and is never empty; price and quantity fall back to 0 |
| PurchaseHistory.MapItems | src/app/purchaseHistory/page.jsx:54-61 | one order line per sale item, in order |
| PurchaseHistory.MapSale | src/app/purchaseHistory/page.jsx:49-62 | falsy id, date and status become '' and a falsy total 0; order line k is `MapItem` of sale item k |
| PurchaseHistory.MapOrders | src/app/purchaseHistory/page.jsx:49-62 | every sale mapped to an order, in order, or nothing when a sale has no item list; MapOrdersShape states it |
| PurchaseHistory.MapOrdersShape | src/app/purchaseHistory/page.jsx:49-62 | defined exactly when every record has its items and products; then one order per record, in response order |
| PurchaseHistory.MapOrdersAppend | src/app/purchaseHistory/page.jsx:49-62 | the mapping of two batches succeeds exactly when both do, and is then the two mappings concatenated |
| PurchaseHistory.MappedNamesNonEmpty | src/app/purchaseHistory/page.jsx:57 | no mapped order line has an empty name |
| PurchaseHistory.HistoryFailure | src/app/purchaseHistory/page.jsx:43-68 | the message of the error that ended the fetch: the connection error, the status text of a refusal, the parse error, or for a parsed list the `TypeError` of a sale without its item list |
| PurchaseHistory.PurchaseHistoryState.Mount | src/app/purchaseHistory/page.jsx:16-27 | both credentials are adopted, or loading stops with the "não autenticado" error |
| PurchaseHistory.PurchaseHistoryState.FetchPurchaseHistory | src/app/purchaseHistory/page.jsx:29-73 | no token does nothing; success installs the mapped orders; any failure empties the orders and sets the prefixed error; loading ends false |
| SellerDashboard.FindProduct | src/app/sellerDashboard/page.jsx:81 | the first product with the id, or none exactly when no product has it |
| SellerDashboard.OpenModal | src/app/sellerDashboard/page.jsx:61-94 | logout and deactivate open fixed modals; a delete with an id names the product or 'este produto'; any other call keeps the modal |
| SellerDashboard.ConfirmDispatch | src/app/sellerDashboard/page.jsx:250-258 | the modal's action picks the handler; delete runs only with an id |
| SellerDashboard.OpenThenConfirm | src/app/sellerDashboard/page.jsx:250-258 | confirming a modal runs the handler of the action it was opened for, on its id |
| SellerDashboard.WithoutProduct | src/app/sellerDashboard/page.jsx:165 | removes exactly the products with the id, keeping the others' counts and order |
| SellerDashboard.DeleteIdempotent | src/app/sellerDashboard/page.jsx:165 | deleting an id twice is deleting it once |
| SellerDashboard.TotalSales | src/app/sellerDashboard/page.jsx:112 | the sum of the sellers' sold totals; TotalSalesAppend and TotalSalesBounds state it |
| SellerDashboard.TotalSalesAppend | src/app/sellerDashboard/page.jsx:112 | the sales sum is additive over concatenation |
| SellerDashboard.TotalSalesBounds | src/app/sellerDashboard/page.jsx:112 | with no negative count the sum is non-negative and at least each seller's count |
| SellerDashboard.LoadErrorMessage | src/app/sellerDashboard/page.jsx:120 | the load failure message built around the error's text |
| SellerDashboard.DeleteOutcome | src/app/sellerDashboard/page.jsx:151-175 | the message after a delete request: success exactly for status 204; 403 names the ownership refusal; any other status is named in the failure; a connection error carries its reason |
| SellerDashboard.DeactivateOutcome | src/app/sellerDashboard/page.jsx:214-248 | the message after a deactivation request: success exactly for an ok reply; a connection error carries its reason; any other refusal gives the fixed failure text |
| SellerDashboard.Metrics | src/app/sellerDashboard/page.jsx:111-116 | total sales is the sum, revenue as sent, product count of the captured list, best seller's name or 'N/A' |
| SellerDashboard.SellerDashboardState.Mount | src/app/sellerDashboard/page.jsx:49-59 | both credentials are adopted, or the page redirects to the login page; products, modal, message, metrics and loading flag are unchanged |
| SellerDashboard.SellerDashboardState.Open | src/app/sellerDashboard/page.jsx:61-94 | the modal becomes `OpenModal` of the current one; every other field is unchanged |
| SellerDashboard.SellerDashboardState.FetchMetrics | src/app/sellerDashboard/page.jsx:96-122 | no token does nothing; an ok reply with the sellers list installs the metrics; each failure keeps them and sets its load error; products, modal, session and loading flag are unchanged |
| SellerDashboard.SellerDashboardState.FetchDashboardData | src/app/sellerDashboard/page.jsx:124-149 | an ok non-null list replaces the products; a failure keeps them with the load error; loading ends false |
| SellerDashboard.SellerDashboardState.ConfirmDeleteProduct | src/app/sellerDashboard/page.jsx:151-175 | closes the modal; 204 removes exactly that id; 403, other statuses and network errors keep the list with their messages; metrics, session and loading flag are unchanged |
| SellerDashboard.SellerDashboardState.Logout | src/app/sellerDashboard/page.jsx:185-212 | whatever the reply, token and user id are cleared, the logout message is shown and the page goes to login; products, metrics and loading flag are unchanged |
| SellerDashboard.SellerDashboardState.Deactivate | src/app/sellerDashboard/page.jsx:214-248 | the message tells whether the server deactivated; either way the session is cleared and the page goes to login; products, metrics and loading flag are unchanged |
| SellerDashboard.SellerDashboardState.ModalConfirm | src/app/sellerDashboard/page.jsx:250-258 | runs the handler `ConfirmDispatch` picks and ends in that handler's state: logout's message, deactivation's outcome message, or the delete's list and outcome message; any handler closes the modal; with no action nothing changes |
| Register.HomeFor | src/app/register/page.jsx:66-70 | the seller dashboard exactly for the role 'seller', else the customer dashboard |
| Register.RegisterPage.HandleRegistration | src/app/register/page.jsx:30-83 | a password under 6 units is refused with no request; otherwise the request carries the current email and password, the name the callback captured (`capturedName`) and `is_seller` exactly when the role is 'seller'; ok resets the form and redirects by the submitted role; a refusal or connection error sets its message; error exactly when no redirect |
| CreateProduct.ManualDetail | src/app/createProduct/page.jsx:51-53 | the server's message, the status text for a non-JSON body, and the fallback exactly when that text is missing or empty; never empty |
| CreateProduct.MalformedJson | src/app/createProduct/page.jsx:96 | the message for a JSON body that fails to parse, with the status |
| CreateProduct.StatusError | src/app/createProduct/page.jsx:89 | the default upload error: the status and its text |
| CreateProduct.UnexpectedBody | src/app/createProduct/page.jsx:106 | the message for a non-JSON refusal other than 401 and 404 |
| CreateProduct.UploadErrorMessage | src/app/createProduct/page.jsx:88-107 | a JSON content type wins with its message or the status line; else 401, then 404, then other non-ok, each with its own message |
| CreateProduct.CreateProductPage.HandleManualSubmit | src/app/createProduct/page.jsx:24-60 | no token sends nothing; ok confirms and resets the form with stock 0; a refusal reports the detail; the refresh follows every completed request |
| CreateProduct.CreateProductPage.HandleCsvUpload | src/app/createProduct/page.jsx:62-124 | the token is checked before the file and each missing one keeps the file and sends nothing; an ok reply clears the file; a refusal shows the decision-table message; a network error the connection message; the refresh follows every request |
| Api.RequestUrl | src/lib/api.js:1-4 | the base followed by the endpoint |
| Api.ApiCall | src/lib/api.js:3-20 | returns the data exactly for an ok JSON reply; a refusal throws `message` or the method-and-endpoint message |
| Api.DefaultError | src/lib/api.js:15 | the fallback error naming the verb and the endpoint, used when a refusal has no message |
| Api.RefusalMessageNonEmpty | src/lib/api.js:14-17 | a refusal always throws a non-empty message, naming the endpoint when the server sends none |
| Api.RegisterUser | src/lib/api.js:22-25 | sends `customer` exactly when the role is 'customer' |
| Api.RoleFromEmail | src/lib/api.js:29 | the role is 'seller' or 'customer' |
| Api.RoleFromEmailIff | src/lib/api.js:29 | 'seller' exactly when 'vendedor' or 'seller' occurs in the e-mail |
| Api.LoginUser | src/lib/api.js:27-37 | success carries `access_token`, `user_id`, the e-mail as typed and the derived role; failure throws as `apiCall` |

## Left out

- HTTP transport and JSON parsing: each reply is an input value. The catalog lookup is a function from product id to reply.
- `localStorage`, `alert`, `console` and `window.location`: token presence is a boolean or a field, alerts and redirects are returned values.
- Concurrency: the `Promise.all` fan-out in `fetchCart` is a sequential map. Races between overlapping handlers and React effect scheduling are not modelled. A `fetchCart` that is not awaited (after checkout, after removal, on the cart page) runs to completion at the point of call.
- The 5-second message timer on the registration page.
- Floating point and locale: `toFixed`, `Intl.NumberFormat`, `Date`, and `parseFloat` of the product price. Prices are integer cents.
- Full Unicode `toLowerCase`: only ASCII letters are folded.
- JSX rendering, the presentational components, the landing page, the build configuration and the login page.
- The customer dashboard's own catalog load and modal: only its filter, slices, page count, `paginate` and page reset are modelled.
- The hard-coded `localhost` URL of the remove request: the request is an input reply.
- Bodies of the wrong JSON shape (a non-array list, `null` where an object is read): such a body counts as `Unparsable`. The exception is the purchase history and the seller metrics, where a missing list is modelled with the `TypeError` message as an input.
- CartContext.CheckoutOutcome: an ok reply whose JSON body is `null` makes `checkout` reload the cart and return `null` (src/context/cartContext.jsx:231-240). The page then shows the "Falha ao finalizar a compra" message. The model has no `null` body: such a reply is `Unparsable`, so it gives `Thrown` ("Erro crítico: ...") and no reload.
- CreateProduct.CreateProductPage.HandleCsvUpload: a JSON content type with a `null` body makes reading `responseData.message` throw a `TypeError`, and the outer catch shows "Erro de conexão: ..." (src/app/createProduct/page.jsx:98-121). The model counts such a body as `Unparsable` and shows the `MalformedJson` text.
- `deactivateAccount` (src/lib/api.js:39-41) is not part of this model. Nothing in the modelled pages calls it: the seller dashboard sends its own deactivation request, modelled by `SellerDashboard.SellerDashboardState.Deactivate`.
- CartContext.CartProvider.AddToCart: the shallow copy at src/context/cartContext.jsx:155-156 mutates the line object shared with the previous state; the model updates a value sequence, so that aliasing is not captured.
- CartContext.CartProvider.FetchCart: with no token the lookup answers the 'Produto Desconhecido' sentinel, but `fetchCart` returns before any lookup then, so the model always looks up with a token.
- SellerDashboard.SellerDashboardState.FetchMetrics: `totalProducts` is the length of the product list the callback captured, which can be stale; the model takes that length as an input.
- Register.RegisterPage.HandleRegistration: the request's name is the one the callback captured when email, password or role last changed (src/app/register/page.jsx:83), which can be stale; the model takes it as the input `capturedName`.
- CreateProduct.CreateProductPage.HandleManualSubmit: the price is sent through `parseFloat`; the model returns the form as held, with the price text.
- CreateProduct.CreateProductPage.HandleCsvUpload: the file is a name, not its contents.
- CustomerDashboard.CustomerDashboardState.SetSearchTerm: the page reset runs when the memoised filter recomputes, which is when the term or the products change; paging within a search does not reset it, and the model follows that.
