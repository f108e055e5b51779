# simple-pos-frontend in Dafny

This project models the state logic of a point-of-sale web front end:

- **POS cart store.** Product lines keyed by id, a running total kept up to date call by call, and one customer slot.
- **POS screen controllers** that drive the cart:
  - the cart panel's quantity and checkout buttons;
  - the per-product add and minus buttons;
  - the customer search drafts and suggestions;
  - the catalog search.
- **Admin order store** with the order list's filter, its render branches, its mount-time load and its CSV export.
- **Request guard**, which redirects or passes a request through with a bearer token. It is tied to the session store's login and logout.
- **Admin product form**: its schema rules, image check, drag flags and submit sequence.

Money is exact: every price and total is an integer number of minor units (29.99 is 2999).

## How the model is organised

A zustand action `set(state => partial)` is modelled twice:

- as a pure function `After…(state, args)` that gives the new state;
- as a method of a `class` whose fields are the store's fields. The method updates those fields in place and is proved to produce `After…(old(State()), args)`.

The properties the source promises are lemmas about the `After…` functions. Controllers that only call store actions, and whose results are toasts or rendered branches, are functions or methods over the store.

| file | models |
|---|---|
| `wrappers.dfy` | `Option`, standing for `T \| null` |
| `notify.dfy` | the toast a handler raises: destructive flag, title, description |
| `seqs.dfy` | `Array.prototype.filter` and its order-preserving selection |
| `text.dfy` | ASCII `toLowerCase`, `includes`, `startsWith`, `join` and `split` on one character, `toString` of naturals, and `toFixed(2)` over minor units |
| `cart_store.dfy` | `useCartStore`: the reducers, the class `Store`, and the total and uniqueness invariants over any call sequence |
| `cart_section.dfy` | `CartSection`: `handleUpdateQuantity`, `handleCheckout`, the Place Order button |
| `product_card.dfy` | `ProductCard`: the displayed quantity, `handleAddToCart`, `handleDecreaseQuantity`, the minus button |
| `customer_search.dfy` | `CustomerSearch`: the `name`, `mobile` and `suggestions` state (class `Search`) and the selection that writes the cart's customer |
| `product_section.dfy` | `ProductSection`: the fixed catalog, the name filter, and the loading, empty and cards branches |
| `pos_session.dfy` | every POS action together: the cart stays sound however the screen is used |
| `order_store.dfy` | `useOrderStore`: the reducers and the class `Store` |
| `orders_table.dfy` | `OrdersTable`: the status-then-search filter, the render precedence, and `fetchOrders` with an abstract outcome |
| `orders_export.dfy` | `OrdersHeader`'s `handleExport` text, and the same table written with RFC 4180 quoting |
| `csv_format.dfy` | comma-separated text with the quoting of section 2 of RFC 4180 (rules 6 and 7), and its parser |
| `route_guard.dfy` | `middleware`: the redirect or pass-through decision and the `Authorization: Bearer` header (section 2.1 of RFC 6750) |
| `auth_store.dfy` | `useAuthStore`: `login`, `logout`, initial state (class `Session`) |
| `auth_session.dfy` | the session store as the guard sees it through the `auth-storage` cookie |
| `js_number.dfy` | JavaScript `Number(string)`, over exact rationals |
| `product_form.dfy` | `ProductForm`: the four schema rules, `handleFile`, the drag flags, `onSubmit` (class `Form`) |

## Model

| member | source | states |
|---|---|---|
| CartStore.FindLine | stores/useCartStore.ts:37 | `items.find` by id: None exactly when no line has the id, otherwise the line at the first position with it |
| CartStore.FindLineAt | stores/useCartStore.ts:55 | with unique ids, the line found for an id is the one at that id's position |
| CartStore.Incremented | stores/useCartStore.ts:39-41 | the `map` that bumps matching lines: same length; a matching line gains 1 in quantity, every other line is unchanged |
| CartStore.WithQuantity | stores/useCartStore.ts:72 | the `map` that sets a quantity: same length; matching lines get the new quantity, others are unchanged |
| CartStore.AfterAddItem | stores/useCartStore.ts:35-51 | addItem never touches the customer |
| CartStore.AfterRemoveItem | stores/useCartStore.ts:53-61 | removeItem never touches the customer |
| CartStore.AfterUpdateQuantity | stores/useCartStore.ts:63-76 | updateQuantity never touches the customer |
| CartStore.AfterSetCustomer | stores/useCartStore.ts:78-80 | setCustomer keeps items and total, and stores the customer's id, name and phone with isPending forced to false |
| CartStore.AfterSetPendingCustomer | stores/useCartStore.ts:82-84 | setPendingCustomer keeps items and total, and stores a customer with no id, marked pending |
| CartStore.AfterClearCart | stores/useCartStore.ts:86-88 | clearCart gives the initial state: no lines, no customer, total 0 |
| CartStore.AddItemExisting | stores/useCartStore.ts:37-44 | addItem on a present id bumps only that line by 1, adds no line, and adds the argument's price to the total |
| CartStore.AddItemNew | stores/useCartStore.ts:46-49 | addItem on a new id appends `{...item, quantity: 1}` at the end, keeps earlier lines as they were, and adds the price |
| CartStore.WithoutIdLines | stores/useCartStore.ts:57 | the removal filter keeps exactly the lines with another id, and keeps ids unique |
| CartStore.RemoveItemAbsent | stores/useCartStore.ts:53-61 | removeItem on an absent id leaves the state unchanged |
| CartStore.RemoveItemPresent | stores/useCartStore.ts:53-61 | removeItem on a present id removes exactly that line, and subtracts its price × quantity |
| CartStore.WithoutIdLength | stores/useCartStore.ts:57 | with unique ids, removing a present id shortens the list by exactly one |
| CartStore.UpdateQuantityAbsent | stores/useCartStore.ts:64-66 | updateQuantity on an absent id returns the state as it is |
| CartStore.UpdateQuantityPresent | stores/useCartStore.ts:63-76 | updateQuantity on a present id changes only that line's quantity, even to a value below 1, and moves the total by price × (new − old) |
| CartStore.ClearCartIdempotent | stores/useCartStore.ts:86-88 | clearCart twice is clearCart once |
| CartStore.AddItemKeepsPositive | stores/useCartStore.ts:35-51 | addItem keeps every quantity at 1 or above |
| CartStore.RemoveItemKeepsPositive | stores/useCartStore.ts:53-61 | removeItem keeps every quantity at 1 or above |
| CartStore.UpdateQuantityKeepsPositive | stores/useCartStore.ts:63-76 | updateQuantity to a value of at least 1 keeps every quantity at 1 or above |
| CartStore.SumAppend | stores/useCartStore.ts:46-50 | an appended line adds its price × quantity to the sum |
| CartStore.SumIncremented | stores/useCartStore.ts:38-43 | bumping one line adds exactly its price to the sum |
| CartStore.SumWithQuantity | stores/useCartStore.ts:68-73 | setting one line's quantity moves the sum by price × (new − old) |
| CartStore.SumWithoutId | stores/useCartStore.ts:55-58 | removing one line subtracts its price × quantity from the sum |
| CartStore.SameIdsAndPrices | stores/useCartStore.ts:37-76 | a map that keeps ids and prices position by position keeps ids unique and lines at the catalog price |
| CartStore.AddKeepsConsistent | stores/useCartStore.ts:35-51 | addItem at the catalog price keeps total = Σ price × quantity, unique ids and catalog prices |
| CartStore.RemoveKeepsConsistent | stores/useCartStore.ts:53-61 | removeItem keeps total = Σ price × quantity, unique ids and catalog prices |
| CartStore.UpdateKeepsConsistent | stores/useCartStore.ts:63-76 | updateQuantity keeps total = Σ price × quantity, unique ids and catalog prices |
| CartStore.StepKeepsConsistent | stores/useCartStore.ts:35-88 | any single store call keeps the cart consistent, provided an add uses the catalog price |
| CartStore.ReplayTotalIsSum | stores/useCartStore.ts:30-88 | from the initial store, after any sequence of calls, total = Σ price × quantity and ids are unique, if each id is always added at one price |
| CartStore.MixedPricesBreakTotal | stores/useCartStore.ts:43 | adding one id at 100 and then at 150 gives total 250 but Σ price × quantity 200 |
| CartStore.Store.constructor | stores/useCartStore.ts:30-33 | the initial state: no lines, no customer, total 0 |
| CartStore.Store.AddItem | stores/useCartStore.ts:35-51 | the fields become AfterAddItem of the old state |
| CartStore.Store.RemoveItem | stores/useCartStore.ts:53-61 | the fields become AfterRemoveItem of the old state |
| CartStore.Store.UpdateQuantity | stores/useCartStore.ts:63-76 | the fields become AfterUpdateQuantity of the old state |
| CartStore.Store.SetCustomer | stores/useCartStore.ts:78-80 | the fields become AfterSetCustomer of the old state |
| CartStore.Store.SetPendingCustomer | stores/useCartStore.ts:82-84 | the fields become AfterSetPendingCustomer of the old state |
| CartStore.Store.ClearCart | stores/useCartStore.ts:86-88 | the fields become AfterClearCart of the old state |
| CartSection.StepBelowOneRemovesLine | components/pos/CartSection.tsx:25-30 | current + delta < 1 removes the line, so it never stays at 0; the total drops by its price × quantity |
| CartSection.StepSetsQuantity | components/pos/CartSection.tsx:31-33 | current + delta ≥ 1 sets that line's quantity to exactly current + delta; other lines are unchanged |
| CartSection.StepKeepsPositive | components/pos/CartSection.tsx:20-34 | whatever the delta, the handler keeps every quantity at 1 or above, and it never touches the customer |
| CartSection.HandleUpdateQuantity | components/pos/CartSection.tsx:20-34 | the store becomes the remove or update of the handler; the "Item removed" toast is raised exactly when current + delta < 1 |
| CartSection.CheckoutToast | components/pos/CartSection.tsx:36-51 | the checkout toast is the destructive error exactly when no customer is set |
| CartSection.HandleCheckout | components/pos/CartSection.tsx:36-51 | checkout changes no store field and makes no remote call; it reports an error exactly when no customer is set |
| CartSection.EnabledButtonPlacesOrder | components/pos/CartSection.tsx:94-96 | the button is disabled exactly when the cart is empty or the handler would report an error; an enabled button always places the order; the label reads "Place Order" exactly when a customer is set |
| ProductCard.DisplayedQuantity | components/pos/ProductCard.tsx:26 | the card shows the quantity of the first line with the product's id, or 0 if there is none |
| ProductCard.DisplayedAt | components/pos/ProductCard.tsx:26 | the line at the first position with the id decides the displayed quantity |
| ProductCard.AddRaisesDisplayedQuantity | components/pos/ProductCard.tsx:28-38 | each add click raises the displayed quantity by exactly 1 |
| ProductCard.DecreaseLowersDisplayedQuantity | components/pos/ProductCard.tsx:40-49 | from q > 1 the card shows q − 1; from q ≤ 1 the product leaves the cart and shows 0 |
| ProductCard.DecreaseKeepsPositive | components/pos/ProductCard.tsx:40-49 | a decrease never leaves a line below quantity 1 |
| ProductCard.DecreaseShownIffInCart | components/pos/ProductCard.tsx:77-87 | when all quantities are at least 1, the minus control is rendered exactly when the product is in the cart |
| ProductCard.HandleAddToCart | components/pos/ProductCard.tsx:28-38 | one addItem with the product's id, name, price and image, then an "Added … to cart" toast |
| ProductCard.HandleDecreaseQuantity | components/pos/ProductCard.tsx:40-49 | updateQuantity(id, q − 1) when q > 1, otherwise removeItem(id); the "Removed … from cart" toast exactly when q ≤ 1 |
| CustomerSearch.SuggestionsFor | components/pos/CustomerSearch.tsx:37-51 | a query shorter than 2 leaves no suggestions; otherwise exactly one `{id: "new", isNew: true}` candidate, whose edited field is the query and whose other field is the current draft |
| CustomerSearch.TypingBothDraftsOffersThem | components/pos/CustomerSearch.tsx:33-52 | typing a name and then a mobile offers exactly the new customer with both |
| CustomerSearch.SelectionTitle | components/pos/CustomerSearch.tsx:69-72 | the title is "New Customer Created" exactly when the candidate is new, else "Customer Selected" |
| CustomerSearch.Search.constructor | components/pos/CustomerSearch.tsx:26-28 | both drafts are empty and there are no suggestions |
| CustomerSearch.Search.HandleSearch | components/pos/CustomerSearch.tsx:33-52 | writes the query into the draft that `field` names, leaves the other draft, and sets the suggestions to SuggestionsFor over the old drafts |
| CustomerSearch.Search.HandleSelectCustomer | components/pos/CustomerSearch.tsx:54-73 | with an empty draft: an error toast, and the drafts, suggestions and store are unchanged; otherwise both drafts take the candidate's values, the suggestions are cleared, and the store customer becomes the candidate, not pending |
| CustomerSearch.SelectionConfirmsCustomer | stores/useCartStore.ts:78-80 | a selection stores a confirmed customer with the candidate's id, name and mobile, and keeps lines and total |
| ProductSection.Show | components/pos/ProductSection.tsx:172-197 | while loading, 12 placeholders whatever the filter yields; otherwise the empty message exactly when nothing matches, else one card per matching product |
| ProductSection.FilteredIsOrderedSelection | components/pos/ProductSection.tsx:174-176 | the shown products are an order-preserving subsequence of the list, holding exactly the products whose lower-cased name includes the lower-cased query |
| ProductSection.EmptyQueryKeepsEvery | components/pos/ProductSection.tsx:172-176 | the default empty query keeps every product of the list |
| ProductSection.EmptyQueryKeepsAll | components/pos/ProductSection.tsx:172-197 | with the default props, a non-empty list renders one card per product |
| ProductSection.DefaultShowsCatalog | components/pos/ProductSection.tsx:12-197 | the component with default props shows the whole catalog as cards |
| ProductSection.CatalogIdsDistinct | components/pos/ProductSection.tsx:12-167 | no two catalog products share an id |
| PosSession.PriceInListed | components/pos/ProductSection.tsx:12-167 | in a list with distinct ids, the price found for a listed product's id is its own |
| PosSession.CatalogPriceOf | components/pos/ProductSection.tsx:12-167 | the catalog price of a catalog product's id is that product's price |
| PosSession.AddProductKeepsSound | components/pos/ProductCard.tsx:28-38 | a card's add button keeps the cart sound: total = Σ, unique ids, quantities ≥ 1 |
| PosSession.DecreaseProductKeepsSound | components/pos/ProductCard.tsx:40-49 | a card's minus button keeps the cart sound |
| PosSession.StepLineKeepsSound | components/pos/CartSection.tsx:20-34 | a line's plus or minus button keeps the cart sound |
| PosSession.PerformKeepsSound | components/pos/CartSection.tsx:20-51 | any single POS action keeps the cart sound |
| PosSession.SessionKeepsCartSound | stores/useCartStore.ts:30-88 | after any sequence of POS actions whose products come from the catalog: total = Σ price × quantity, ids are unique, no quantity is below 1, and each line has its catalog price |
| PosSession.SelectionEnablesCheckout | components/pos/CartSection.tsx:94 | after a customer is selected, a non-empty cart's button is enabled and checkout places the order |
| OrderStore.FindOrder | stores/useOrderStore.ts:68 | `orders.find(...) \|\| null`: None exactly when no order has the id, otherwise the first order with it |
| OrderStore.WithStatus | stores/useOrderStore.ts:57-59 | same length; orders with the id get the status, every other order is unchanged |
| OrderStore.AfterSetOrders | stores/useOrderStore.ts:48 | setOrders replaces the list and keeps the selection, loading flag and error |
| OrderStore.AfterAddOrder | stores/useOrderStore.ts:50-53 | addOrder appends: length + 1, the last element is the order, the prefix is unchanged, and nothing else changes |
| OrderStore.AfterUpdateOrderStatus | stores/useOrderStore.ts:55-64 | updateOrderStatus keeps the loading flag and error |
| OrderStore.AfterSelectOrder | stores/useOrderStore.ts:66-69 | selectOrder changes only the selection |
| OrderStore.AfterSetLoading | stores/useOrderStore.ts:71 | setLoading changes only the loading flag |
| OrderStore.AfterSetError | stores/useOrderStore.ts:72 | setError changes only the error |
| OrderStore.UpdateOrderStatusChangesOnlyMatches | stores/useOrderStore.ts:55-64 | keeps length, order and ids; restatuses exactly the orders with the id; restatuses the selection exactly when it has that id |
| OrderStore.UpdateOrderStatusAbsent | stores/useOrderStore.ts:57-59 | an id no order has leaves the list unchanged |
| OrderStore.UpdateOrderStatusIdempotent | stores/useOrderStore.ts:55-64 | the same status twice is the same as once |
| OrderStore.SelectOrderFirst | stores/useOrderStore.ts:66-69 | the selection is the order at the first position with the id |
| OrderStore.SelectThenUpdateCommute | stores/useOrderStore.ts:55-69 | selecting and then restatusing gives the same state as restatusing and then selecting |
| OrderStore.AddThenSelect | stores/useOrderStore.ts:50-69 | an appended order with a fresh id is what selecting its id picks |
| OrderStore.Store.constructor | stores/useOrderStore.ts:42-46 | orders [], selectedOrder null, isLoading false, error null |
| OrderStore.Store.SetOrders | stores/useOrderStore.ts:48 | the fields become AfterSetOrders of the old state |
| OrderStore.Store.AddOrder | stores/useOrderStore.ts:50-53 | the fields become AfterAddOrder of the old state |
| OrderStore.Store.UpdateOrderStatus | stores/useOrderStore.ts:55-64 | the fields become AfterUpdateOrderStatus of the old state |
| OrderStore.Store.SelectOrder | stores/useOrderStore.ts:66-69 | the fields become AfterSelectOrder of the old state |
| OrderStore.Store.SetLoading | stores/useOrderStore.ts:71 | the fields become AfterSetLoading of the old state |
| OrderStore.Store.SetError | stores/useOrderStore.ts:72 | the fields become AfterSetError of the old state |
| OrdersTable.FilterOrdersSelects | components/admin/orders/OrdersTable.tsx:115-127 | the filtered orders are an order-preserving subsequence of the store's orders, holding exactly those that pass the status test and the search |
| OrdersTable.SearchPassesIff | components/admin/orders/OrdersTable.tsx:121-125 | an order passes the search exactly when the lower-cased query occurs in its lower-cased order number or customer name |
| OrdersTable.AllAndEmptyKeepsEvery | components/admin/orders/OrdersTable.tsx:117-125 | the status "all" with an empty query keeps every order |
| OrdersTable.View | components/admin/orders/OrdersTable.tsx:129-219 | loading first, then a non-empty error, then the empty notice, then the rows; the notice reads "No orders found" exactly when the store has no orders, else "No orders match your search criteria" |
| OrdersTable.AfterFetch | components/admin/orders/OrdersTable.tsx:98-113 | loading is off afterwards; a delivery installs the sample orders and leaves the error; a throw keeps the orders and sets the error message |
| OrdersTable.FetchOrders | components/admin/orders/OrdersTable.tsx:98-113 | the store becomes AfterFetch of the old state |
| OrdersTable.FreshLoadShowsSamples | components/admin/orders/OrdersTable.tsx:38-113 | from a fresh store, a delivered load lists both sample orders under the default filters |
| OrdersTable.FailedLoadShowsError | components/admin/orders/OrdersTable.tsx:98-151 | a failed load shows the error panel with its message, unless the message is the empty string |
| OrdersTable.PendingFilterPicksSecondSample | components/admin/orders/OrdersTable.tsx:38-120 | the status filter "pending" keeps exactly the second sample order |
| OrdersExport.RowFields | components/admin/orders/OrdersHeader.tsx:49-56 | six fields in order: order number, customer name, date, item count, total and status; the item count reads back as `items.length` |
| OrdersExport.ExportRows | components/admin/orders/OrdersHeader.tsx:40-56 | one row per order that passes the table's filter, in list order |
| OrdersExport.HeaderLineHasNoBreak | components/admin/orders/OrdersHeader.tsx:32-39 | the header line (the six column names joined by ",") holds no line break |
| OrdersExport.FirstLineIsHeader | components/admin/orders/OrdersHeader.tsx:58-61 | whatever the orders hold, the text's first line is the header line |
| OrdersExport.PlainRowFields | components/admin/orders/OrdersHeader.tsx:49-56 | an order whose text holds neither separator yields fields that hold neither |
| OrdersExport.ExportSplitsBack | components/admin/orders/OrdersHeader.tsx:30-61 | for such orders the text has 1 + (number of exported orders) lines with no trailing newline; the header comes first, and each data line splits back into that order's six fields |
| OrdersExport.ExportMatchesTable | components/admin/orders/OrdersHeader.tsx:40-48 | the exported rows are the rows of exactly the orders the table lists, and there are none exactly when the table shows its empty notice |
| OrdersExport.CommaInNameShiftsFields | components/admin/orders/OrdersHeader.tsx:60 | fields are joined verbatim: a comma in a customer name makes that line split into seven fields |
| OrdersExport.QuotedExportReadsBack | components/admin/orders/OrdersHeader.tsx:30-61 | with RFC 4180 quoting, whatever the orders hold, the text reads back as the header and each exported order's six fields |
| OrdersExport.QuotingKeepsOrdinaryExport | components/admin/orders/OrdersHeader.tsx:58-61 | for orders whose text needs no quoting, the quoted export is the same text as the export as written |
| CsvFormat.ParseEncode | components/admin/orders/OrdersHeader.tsx:58-61 | the quoted writer's output reads back as exactly the table written |
| RouteGuard.OrNull | middleware.ts:19-20 | `value \|\| null`: the empty string counts as missing |
| RouteGuard.ReadCredentials | middleware.ts:8-24 | a missing or unparseable cookie gives not authenticated, no role, no token; otherwise the stored flag, role and token, with empty strings as missing |
| RouteGuard.Guard | middleware.ts:4-75 | a signed-in session on "/login" goes to "/admin" when its role is admin, else to "/pos"; "/login" is otherwise passed through unchanged; "/admin…" and "/pos…" redirect to "/login" unless signed in with that role; a passed request carries `Bearer <token>` exactly when signed in |
| RouteGuard.GuardAdmitsIff | middleware.ts:27-59 | exactly when a request passes: "/login" when not signed in, and any other path when it satisfies the admin and POS prefix rules |
| RouteGuard.ProtectedPagesCarryToken | middleware.ts:42-74 | a request that reaches an admin or POS page is signed in with a non-empty token and carries `authorization: Bearer <token>` |
| RouteGuard.RedirectTargets | middleware.ts:27-59 | every redirect goes to "/login", "/admin" or "/pos" |
| RouteGuard.UnreadableCookieIsSignedOut | middleware.ts:8-24 | a missing cookie and an unparseable one are both treated like a signed-out session |
| RouteGuard.SignInPageLeadsHome | middleware.ts:27-59 | a signed-in admin or POS session is sent from "/login" to its dashboard, which lets it in |
| RouteGuard.RolelessSessionBounces | middleware.ts:27-59 | a signed-in session with no role is sent from "/login" to "/pos", and from "/pos" back to "/login" |
| AuthStore.AfterLogin | stores/auth.ts:45-55 | login sets the token, sets the signed-in flag, and sets the user's role |
| AuthStore.AfterLogout | stores/auth.ts:56-59 | logout gives the initial state: no user, no token, signed out |
| AuthStore.LoginOverwrites | stores/auth.ts:45-55 | the state after login does not depend on the state before it |
| AuthStore.LogoutIdempotent | stores/auth.ts:56-59 | logging out twice is logging out once |
| AuthStore.LoginThenLogout | stores/auth.ts:45-59 | a login followed by a logout leaves exactly the initial state |
| AuthStore.RoleNamesDistinct | stores/auth.ts:8 | the two roles are told apart by their stored names |
| AuthStore.Session.constructor | stores/auth.ts:42-44 | user null, token null, isAuthenticated false |
| AuthStore.Session.Login | stores/auth.ts:45-55 | the fields become AfterLogin of the old state |
| AuthStore.Session.Logout | stores/auth.ts:56-59 | the fields become AfterLogout of the old state |
| AuthSession.AdminLoginOpensAdmin | middleware.ts:42-74 | after an admin login with a non-empty token, admin pages pass with the bearer header |
| AuthSession.PosLoginCannotOpenAdmin | middleware.ts:42-49 | after a POS login, admin pages redirect to "/login" |
| AuthSession.LogoutClosesProtectedPages | middleware.ts:42-59 | after a logout, every admin and POS page redirects to "/login" |
| AuthSession.EmptyTokenIsSignedOut | middleware.ts:20-27 | a login with an empty token is not a sign-in to the guard |
| AuthSession.LoginLandsOnDashboard | middleware.ts:27-59 | after a login with a non-empty token, "/login" sends the user to the dashboard named by their role, which lets them in |
| JsNumber.TrimStart | components/admin/ProductForm.tsx:28 | `Number` drops leading white space: a suffix, everything cut is white space, and it does not start with white space |
| JsNumber.TrimEnd | components/admin/ProductForm.tsx:28 | `Number` drops trailing white space in the same way |
| JsNumber.BlankIsZero | components/admin/ProductForm.tsx:28-39 | an empty or all-white-space text converts to 0, not NaN |
| JsNumber.TrimKeepsInner | components/admin/ProductForm.tsx:28 | a text with no white space at either end is left as it is |
| JsNumber.Mantissa | components/admin/ProductForm.tsx:28 | a digit string is a mantissa with its digits' value |
| JsNumber.ToNumberOfDigits | components/admin/ProductForm.tsx:28-39 | a digit string converts to its digits' value |
| JsNumber.ToNumberOfNegativeDigits | components/admin/ProductForm.tsx:28-39 | a minus sign before a digit string gives the negated value |
| JsNumber.NumberOfNatToString | components/admin/ProductForm.tsx:28-39 | the decimal rendering of a natural number converts back to it |
| JsNumber.InfinityIsANumber | components/admin/ProductForm.tsx:28 | "Infinity" converts to positive infinity, not NaN |
| JsNumber.HexIsANumber | components/admin/ProductForm.tsx:28 | "0x1F" converts to 31 |
| JsNumber.DecimalCommaIsNaN | components/admin/ProductForm.tsx:28 | "1,5" converts to NaN |
| ProductForm.Utf16Length | components/admin/ProductForm.tsx:25-33 | a string's `length` is between its character count and twice that count |
| ProductForm.Errors | components/admin/ProductForm.tsx:24-40 | the schema's verdict: no failing field exactly when all four rules hold, and each field fails exactly when its own rule fails |
| ProductForm.EmptyPriceRejected | components/admin/ProductForm.tsx:28-30 | an empty price converts to 0, which is not positive, so it is refused |
| ProductForm.EmptyQuantityAccepted | components/admin/ProductForm.tsx:35-39 | an empty quantity converts to 0, which is allowed |
| ProductForm.WholeNumberRules | components/admin/ProductForm.tsx:28-39 | a typed whole number is a valid price exactly when it is above 0, and is always a valid quantity |
| ProductForm.NegativeNumberRules | components/admin/ProductForm.tsx:28-39 | a negative whole number is never a valid price, and is a valid quantity only as "-0" |
| ProductForm.PriceRuleEdges | components/admin/ProductForm.tsx:28-30 | "Infinity" passes the price rule, and "1,5" fails it |
| ProductForm.AstralCharacterIsLongEnough | components/admin/ProductForm.tsx:25-27 | one character outside the Basic Multilingual Plane already meets the two-character name rule |
| ProductForm.BlankFormRefused | components/admin/ProductForm.tsx:53-58 | the default values fail on name, price and description, and pass on quantity |
| ProductForm.Payload | components/admin/ProductForm.tsx:117-125 | the upload holds name, price, description and quantity in that order, then the image only if one is chosen |
| ProductForm.Form.constructor | components/admin/ProductForm.tsx:46-58 | empty values, not loading, no image, no preview, not dragging |
| ProductForm.Form.Edit | components/admin/ProductForm.tsx:51-59 | a keystroke changes only the values |
| ProductForm.Form.HandleFile | components/admin/ProductForm.tsx:68-83 | an image type becomes the chosen file; any other type leaves the chosen file and raises "Invalid file type"; nothing else changes |
| ProductForm.Form.PreviewLoaded | components/admin/ProductForm.tsx:72-74 | the reader's data URL becomes the preview |
| ProductForm.Form.DragIn | components/admin/ProductForm.tsx:90-94 | isDragging becomes true and nothing else changes |
| ProductForm.Form.DragOut | components/admin/ProductForm.tsx:96-100 | isDragging becomes false and nothing else changes |
| ProductForm.Form.Drop | components/admin/ProductForm.tsx:102-111 | isDragging becomes false, then the dropped file, if any, is handled like handleFile |
| ProductForm.Form.RemoveImage | components/admin/ProductForm.tsx:203-207 | the chosen file and the preview are cleared |
| ProductForm.Form.OnSubmit | components/admin/ProductForm.tsx:113-158 | the upload carries the values and the image; loading is off afterwards whatever happened; only success resets the values and the image state |
| ProductForm.Form.Submit | components/admin/ProductForm.tsx:24-158 | with failing fields nothing is sent and the state is unchanged; otherwise OnSubmit runs |

## Left out

- Network and API clients (`lib/api/*`, `lib/services/auth.ts`) and the NextAuth configuration `auth.ts` are not part of this model. They are foreign calls: fetch, Prisma, bcrypt and random ids.
- Reading the cookie is not modelled: `lib/utils.ts`, `decodeURIComponent` and `JSON.parse`. The guard takes the outcome, `RouteGuard.AuthCookie`, as input.
- Persisting the session store to the `auth-storage` cookie is not modelled (stores/auth.ts:21-37,57,61-65). `AuthSession.Persisted` only states which cookie value the guard reads for a store state.
- The `config.matcher` of middleware.ts:77-79 is left to the platform. The guard is modelled for every path it receives.
- Timers, simulated delays, `FileReader`, `fetch`, the CSV `Blob` download, `router.push` and `router.refresh`, and `console` output are I/O. Each outcome is an input: `OrdersTable.FetchOutcome`, the `uploadOk` flag, and the `PreviewLoaded` call.
- OrdersTable.View: the `filteredOrders` state is modelled as its value after the filtering effect has run. The render between a change and that effect, which still shows the previous list, is not modelled.
- Money is exact integer minor units, not IEEE doubles. Float accumulation of `total` and the rounding in `toFixed(2)` are not modelled. `Text.FormatCents` renders the exact amount.
- JsNumber.ToNumber: the converted value is an exact rational. The rounding to the nearest double, and the overflow of very long literals to Infinity, are not modelled.
- Text.Lower: `toLowerCase` is modelled over ASCII letters only. Unicode case mapping is not modelled.
- Rendering is left out: the `app/**` pages and layouts and the purely presentational components. That covers the card markup, the table cells and `CartItem` beyond the ±1 and remove buttons. `ProductForm`'s `handleDrag` changes no state.
- The "SKU" field of the add-product page has no counterpart in the form schema, so it is not modelled.
- Where the written design and the code differ, the code is followed. The code has no debounced or remote customer lookup and no pending-customer derivation in the search. Its checkout makes no create-customer or create-order calls and does not check for an empty cart.
- CustomerSearch.AsCustomer: the candidate's `mobile` is stored in the customer's `phone` slot, and `isNew` plays no part in `isPending`. The source passes the candidate object as it is, and the store forces `isPending` to false.

## Findings

| source | as written | input that shows it | evidently intended | confidence | as-written member | corrected member |
|---|---|---|---|---|---|---|
| components/admin/orders/OrdersHeader.tsx:49-61 | every field is joined with "," verbatim, so a comma, double quote or line break inside a customer name, order number or date is written unescaped | an exported order whose customer name is `Doe, Jane`: its line splits into seven fields instead of six | a CSV in which every line reads back as the six columns, quoting fields as rules 6 and 7 of section 2 of RFC 4180 require | medium, not executed | OrdersExport.CommaInNameShiftsFields | OrdersExport.QuotedExportReadsBack |

`OrdersExport.Csv` is the export as written. `OrdersExport.QuotedCsv` is the corrected export, written with `CsvFormat.Encode`. `OrdersExport.QuotingKeepsOrdinaryExport` shows that the correction changes no text for orders that need no quoting.
