# sambaMart order flow, modelled in Dafny

sambaMart is a grocery shop. This project models how an order travels through it:

- the browser's cart store;
- the checkout page, which turns the cart into an order request;
- the REST handlers, which price the request from the catalog, store it and let its owner read it back;
- the storage layer's table reads and its two-step order insert;
- the shared API contract, which covers the shape check on an order request and the URL template builder;
- the sign-in gate, which decides whether a request passes, is refused, or first refreshes its tokens.

Money is an integer in the lowest currency unit, as the `price` and `total_amount` columns declare. Tables are sequences of rows held by one storage object. Time, the database clock, the server's reply to the browser and the outcome of a token refresh are all parameters.

Modules, one per source file:

| module | models |
|---|---|
| `Wrappers` | the optional value, `Option` |
| `Tables` | the first-row lookup and the order-keeping filter that the reads use |
| `Schema` | the row shapes and the defaults of an inserted order (`shared/schema.ts`) |
| `Cart` | the cart store, as the class `CartStore` over a sequence of items (`client/src/hooks/use-cart.ts`) |
| `Checkout` | the form check, the request projection, submission and the page's render gates (`client/src/pages/Checkout.tsx`, with the error mapping of `client/src/hooks/use-orders.ts`) |
| `ApiRoutes` | the order-creation input check and `buildUrl` (`shared/routes.ts`) |
| `Storage` | the class `DatabaseStorage` (`server/storage.ts`) |
| `ServerRoutes` | the product, category and order handlers (`server/routes.ts`) |
| `Auth` | `isAuthEnabled`, `getAuthStatus`, `updateUserSession`, `isAuthenticated` and `ensureStrategy` (`server/replit_integrations/auth/replitAuth.ts`) |

The central theorem is `ServerRoutes.CreateOrderRoute`'s last postcondition, proved through `ServerRoutes.StoredItemsAddUpToTotal`. When an order is created, the items stored under its id add up, at their stored prices, to the order's `totalAmount`. That amount is the catalog-priced sum over the request, in which unknown products count for nothing. No client-supplied price can enter it: the input check strips every other key (`ApiRoutes.LineIgnoresOtherKeys`), and the cart-to-request projection drops the prices (`Checkout.ProjectionIgnoresCartPrices`).

The code does some things a reader might not expect, and the model follows the code:

- The server accepts an order with an empty address and with an empty item list (`ApiRoutes.AcceptsAnyAddressAndNoItems`). Only the browser form insists on an address of 5 characters or more, and only the checkout page refuses an empty cart.
- A session without `claims.sub` gets 500 "User ID missing in session", not an authentication error. The pricing loop has already run by then.
- A storage error raised by `createOrder` is answered with 400 "Invalid order request", like a malformed body.

## Model

| member | source | states |
|---|---|---|
| `Schema.InsertedOrder` | shared/schema.ts:29-36 | the stored order keeps the given user, amount and address; a status not given becomes "pending"; a missing creation time becomes the clock's value |
| `Schema.ParseInsertOrder` | shared/schema.ts:81 | the insert schema accepts a body exactly when it has an address, and keeps only that address |
| `Schema.InsertOrderIgnoresServerColumns` | shared/schema.ts:81 | id, userId, status, totalAmount and createdAt sent by a client cannot change what the insert schema yields |
| `Cart.Total` | client/src/hooks/use-cart.ts:58 | specification function: the sum of price times quantity over the items; its arithmetic is stated by `Cart.TotalAppend` and `Cart.TotalSplit` |
| `Cart.ItemCount` | client/src/hooks/use-cart.ts:59 | specification function: the sum of the quantities; stated by the same two lemmas |
| `Cart.AddedItems` | client/src/hooks/use-cart.ts:36-54 | specification function: the items after an add; `Cart.AddExisting` and `Cart.AddNew` state its two cases |
| `Cart.Removed` | client/src/hooks/use-cart.ts:66 | every remaining item was in the cart and is of another product, and every item of another product remains |
| `Cart.UpdatedItems` | client/src/hooks/use-cart.ts:77-88 | specification function: removal for a quantity of 0 or less, otherwise the set-quantity rebuild; `Cart.UpdatePreservesWellFormed` states what it keeps |
| `Cart.IncrementedAt` | client/src/hooks/use-cart.ts:40-44 | the add-existing rebuild keeps length and order, raises the quantity of every item of that product by one and leaves the others equal |
| `Cart.WithQuantityAt` | client/src/hooks/use-cart.ts:86-88 | the set-quantity rebuild keeps length and order, sets the quantity of that product's items and leaves the others equal |
| `Cart.AddExisting` | client/src/hooks/use-cart.ts:36-44 | adding a product already in a well-formed cart bumps that one item's quantity by one and changes nothing else |
| `Cart.AddNew` | client/src/hooks/use-cart.ts:45-53 | adding a product not in the cart appends one item with the product's id, name, price and image and quantity 1 |
| `Cart.RemoveAbsent` | client/src/hooks/use-cart.ts:66 | removing a product the cart does not hold leaves the items as they are |
| `Cart.RemoveHeld` | client/src/hooks/use-cart.ts:66 | removing a product the cart holds once, at index k, deletes exactly that item and keeps the rest in order |
| `Cart.SetQuantityAbsent` | client/src/hooks/use-cart.ts:86-88 | setting a positive quantity for a product not in the cart inserts nothing |
| `Cart.AddPreservesWellFormed` | client/src/hooks/use-cart.ts:34-61 | adding keeps one item per product and every quantity at least 1 |
| `Cart.RemovePreservesWellFormed` | client/src/hooks/use-cart.ts:64-73 | removing keeps the cart well formed and leaves no item for the removed product |
| `Cart.UpdatePreservesWellFormed` | client/src/hooks/use-cart.ts:75-96 | updating with any quantity, zero or negative included, keeps the cart well formed |
| `Cart.DeleteKeepsWellFormed` | client/src/hooks/use-cart.ts:66 | deleting one item from a well-formed cart leaves it well formed |
| `Cart.TotalAppend` | client/src/hooks/use-cart.ts:58-59 | total and item count are additive over concatenated carts |
| `Cart.TotalSplit` | client/src/hooks/use-cart.ts:58-59 | total and item count split around any one item |
| `Cart.IncrementedOnlyAt` | client/src/hooks/use-cart.ts:40-44 | with a single item for the product, the rebuild rewrites that item alone |
| `Cart.AddHeldRaisesSums` | client/src/hooks/use-cart.ts:36-60 | re-adding a held product raises the total by the price the cart copied when the item was first added, not the product's current price, and the item count by one |
| `Cart.AddNewRaisesSums` | client/src/hooks/use-cart.ts:45-60 | adding a new product raises the total by its price and the item count by one |
| `Cart.RemoveLowersSums` | client/src/hooks/use-cart.ts:66-70 | removing a held product lowers the total by its line total and the count by its quantity |
| `Cart.CartStore.constructor` | client/src/hooks/use-cart.ts:29-32 | a new store is empty, closed, with zero sums, and valid |
| `Cart.CartStore.AddItem` | client/src/hooks/use-cart.ts:34-62 | items become the add rebuild, the sums are recomputed from them, validity is kept, the count rises by one, a new product raises the total by its price, and the drawer flag is untouched |
| `Cart.CartStore.RemoveItem` | client/src/hooks/use-cart.ts:64-73 | items become the filtered list, the sums are recomputed, validity is kept and the product is gone |
| `Cart.CartStore.UpdateQuantity` | client/src/hooks/use-cart.ts:75-96 | a quantity of 0 or less removes the product; a positive one sets it; the sums follow; validity is kept |
| `Cart.CartStore.ClearCart` | client/src/hooks/use-cart.ts:98 | empties the items, zeroes both sums and leaves the drawer flag |
| `Cart.CartStore.ToggleCart` | client/src/hooks/use-cart.ts:99 | flips the drawer flag and changes nothing else |
| `Cart.CartStore.SetOpen` | client/src/hooks/use-cart.ts:100 | sets the drawer flag and changes nothing else |
| `Checkout.Utf16LengthBounds` | client/src/pages/Checkout.tsx:16 | the JavaScript length of an address lies between its character count and twice that |
| `Checkout.CheckoutSchemaAccepts` | client/src/pages/Checkout.tsx:15-17 | the form accepts an address exactly when its JavaScript length is at least 5; so it refuses any address under 3 characters and accepts any of 5 or more |
| `Checkout.ProjectLines` | client/src/pages/Checkout.tsx:41 | the request has one line per cart item, in cart order, with the item's product and quantity |
| `Checkout.ProjectionIgnoresCartPrices` | client/src/pages/Checkout.tsx:41 | carts differing only in prices, names or images send identical lines |
| `Checkout.CreateOrderErrorMessage` | client/src/hooks/use-orders.ts:49-53 | a 401 reports the log-in message, a 400 "Invalid order data", anything else "Failed to create order" |
| `Checkout.ErrorMessageIdentifiesStatus` | client/src/hooks/use-orders.ts:49-53 | equal messages mean the same failure class: unauthenticated, invalid, or other |
| `Checkout.OnSubmit` | client/src/pages/Checkout.tsx:32-42 | without a user it only redirects; otherwise it hands the mutation the address and the cart's lines projected at that moment, and returns without touching the cart |
| `Checkout.OnReply` | client/src/pages/Checkout.tsx:43-60 | runs only while the page is mounted: a created order empties the cart as it stands when the reply arrives, edits made in the meantime included; a rejection reports the status's message and leaves the cart; after the page has unmounted nothing happens |
| `Checkout.Confirm` | client/src/pages/Checkout.tsx:64-173 | an order is submitted exactly when the cart is non-empty, auth has loaded, a user is present, no submission is pending and the address passes the form; the request sent is the one `Checkout.OnSubmit` builds: the address with the projected cart lines |
| `ApiRoutes.ParseLine` | shared/routes.ts:49-52 | an item is accepted exactly when it is an object with a numeric productId and a numeric quantity of at least 1, and only those two are kept |
| `ApiRoutes.ParseLines` | shared/routes.ts:49-52 | the item array is accepted exactly when every element is, and then parsed element by element |
| `ApiRoutes.ParseCreateOrderInput` | shared/routes.ts:47-53 | the body is accepted exactly when it is an object with a string address and an array of valid items; the request keeps the address and one parsed line per element |
| `ApiRoutes.RejectsLowQuantity` | shared/routes.ts:51 | a single item with quantity below 1 rejects the whole body |
| `ApiRoutes.AcceptsAnyAddressAndNoItems` | shared/routes.ts:47-53 | any address, the empty one included, with no items is accepted |
| `ApiRoutes.LineIgnoresOtherKeys` | shared/routes.ts:49-52 | extra keys on an item, a price among them, do not change the parsed line |
| `ApiRoutes.Digits` | shared/routes.ts:95 | the decimal form of a number is non-empty, made of digits, and has no leading zero unless the number is 0 |
| `ApiRoutes.DigitsRoundTrip` | shared/routes.ts:95 | the decimal form reads back as the number |
| `ApiRoutes.FindFrom` | shared/routes.ts:94-95 | finds the first occurrence of the pattern at or after a position, or reports that none exists |
| `ApiRoutes.ExpandLiteral` | shared/routes.ts:95 | a replacement without '$' is inserted as is |
| `ApiRoutes.ReplaceFirstAt` | shared/routes.ts:95 | replacement acts on the first occurrence only and keeps the text around it |
| `ApiRoutes.Decimal` | shared/routes.ts:95 | specification function: `String(n)` for an integer, a minus sign before the digits of a negative; `ApiRoutes.DigitsRoundTrip` states it reads back |
| `ApiRoutes.ReplaceFirst` | shared/routes.ts:95 | specification function: `replace` with a string pattern; `ApiRoutes.ReplaceFirstAt` and `ApiRoutes.ExpandLiteral` state its effect |
| `ApiRoutes.Substitute` | shared/routes.ts:94-96 | specification function: one step of the loop over the params; `ApiRoutes.SubstituteAbsent` states the absent case |
| `ApiRoutes.ApplyParams` | shared/routes.ts:93-97 | specification function: the params applied in order; `ApiRoutes.BuildUrl` is proved against it and `ApiRoutes.BuildIdUrl` evaluates it |
| `ApiRoutes.BuildUrl` | shared/routes.ts:90-100 | without params the path is returned; with params each key's first placeholder is substituted in turn |
| `ApiRoutes.SubstituteAbsent` | shared/routes.ts:94 | a key whose placeholder is absent leaves the url unchanged |
| `ApiRoutes.BuildIdUrl` | shared/routes.ts:90-100 | a numeric id parameter replaces ":id" with the number's decimal form |
| `ApiRoutes.OrderSevenUrl` | client/src/hooks/use-orders.ts:25 | the order-detail url for order 7 is "/api/orders/7" |
| `Storage.LinePrice` | server/routes.ts:52-55 | specification function: catalog price times quantity for a known product, 0 for an unknown one |
| `Storage.PricedTotal` | server/routes.ts:50-56 | specification function: the sum of the line prices; `ServerRoutes.ComputeTotal` is proved against it and `Storage.PricedTotalDependsOnPrices` states what it depends on |
| `Storage.Snapshot` | server/storage.ts:76-86 | specification function: the order items the insert loop writes; stated by `Storage.SnapshotRows`, `Storage.SnapshotLines` and `Storage.SnapshotTotal` |
| `Storage.SortNewestFirst` | server/storage.ts:92 | specification function: the orders by creation time, descending; `Storage.SortNewestFirstCorrect` states it is a newest-first permutation |
| `Storage.SnapshotStep` | server/storage.ts:76-86 | each requested line adds one order item if its product exists and none otherwise |
| `Storage.SnapshotRows` | server/storage.ts:79-84 | the inserted items carry consecutive serial ids and the new order's id |
| `Storage.SnapshotLines` | server/storage.ts:76-86 | the inserted items are the lines with a known product, in order, with their product and quantity and the product's price at insert time |
| `Storage.SnapshotTotal` | server/storage.ts:68-89 | the inserted items add up to the catalog-priced total of the request |
| `Storage.PricedTotalDependsOnPrices` | server/routes.ts:50-56 | two catalogs that agree on the requested products' presence and prices give the same total |
| `Storage.NoItemsYet` | server/storage.ts:69-80 | no stored item refers to an order id not yet handed out |
| `Storage.InsertByDateSorted` | server/storage.ts:92 | inserting an order into a newest-first list keeps it newest first |
| `Storage.SortNewestFirstCorrect` | server/storage.ts:92 | sorting by creation time gives a newest-first permutation |
| `Storage.DatabaseStorage.GetUserByUsername` | server/storage.ts:34-40 | no user is ever found |
| `Storage.LookupProductIsFirstRow` | server/storage.ts:54-57 | when several rows carry the id, the product returned is the first of them |
| `Storage.DatabaseStorage.GetProduct` | server/storage.ts:54-57 | returns a catalog product with that id, and nothing exactly when no product has it |
| `Storage.DatabaseStorage.GetCategory` | server/storage.ts:63-66 | returns a category with that id, and nothing exactly when none has it |
| `Storage.DatabaseStorage.GetOrder` | server/storage.ts:95-98 | returns an order with that id, and nothing exactly when none has it |
| `Storage.DatabaseStorage.GetProducts` | server/storage.ts:47-52 | no category, or category 0, gives every product; otherwise exactly the products of that category |
| `Storage.DatabaseStorage.GetOrders` | server/storage.ts:91-93 | exactly the user's orders, each as often as stored, newest first |
| `Storage.DatabaseStorage.CreateOrder` | server/storage.ts:68-89 | a failed insert writes nothing; otherwise one "pending" order is appended with the next id, then one item per priced line; catalog untouched; validity kept |
| `Storage.DatabaseStorage.InsertOrderItems` | server/storage.ts:76-86 | appends exactly the snapshot of the lines and keeps validity |
| `ServerRoutes.GetProductRoute` | server/routes.ts:25-29 | 404 "Product not found" exactly when no product has the id, else 200 with it |
| `ServerRoutes.GetCategoryRoute` | server/routes.ts:37-41 | 404 "Category not found" exactly when no category has the id, else 200 with it |
| `ServerRoutes.GetOrderRoute` | server/routes.ts:87-95 | 401 exactly when unauthenticated; then 404 exactly when no order has the id; then 403 exactly when the owner is not the caller; otherwise 200 with the caller's own order |
| `ServerRoutes.ComputeTotal` | server/routes.ts:50-56 | the handler's loop yields the catalog-priced total, unknown products adding nothing |
| `ServerRoutes.StoredItemsAddUpToTotal` | server/routes.ts:50-72 | a new order's stored items add up to the total priced from the same catalog |
| `ServerRoutes.CreateOrderRoute` | server/routes.ts:44-78 | 401 before parsing; 400 on a bad body; 500 without a subject; 400 when storage fails; every error writes nothing; 201 exactly otherwise, with a "pending" order of the caller carrying the next order id, the clock's time and the catalog-priced total; the order is appended, earlier items are kept and exactly the new order's priced lines are appended after them, and they add up to its total |
| `Auth.TrimStart` | server/replit_integrations/auth/replitAuth.ts:71 | strips exactly the leading whitespace |
| `Auth.TrimEnd` | server/replit_integrations/auth/replitAuth.ts:71 | strips exactly the trailing whitespace |
| `Auth.Trim` | server/replit_integrations/auth/replitAuth.ts:71 | the result is the input's middle, kept in place: everything cut before and after it is whitespace, and it neither starts nor ends with whitespace |
| `Auth.TrimEmptyIff` | server/replit_integrations/auth/replitAuth.ts:71 | a value trims to nothing exactly when it is all whitespace |
| `Auth.IsAuthEnabled` | server/replit_integrations/auth/replitAuth.ts:71 | enabled exactly when the client id is set and has a non-whitespace character |
| `Auth.GetAuthStatus` | server/replit_integrations/auth/replitAuth.ts:74-78 | provider "google" exactly when enabled, none otherwise |
| `Auth.SessionUser.constructor` | server/replit_integrations/auth/replitAuth.ts:161 | a fresh session user has no claims, tokens or expiry |
| `Auth.UpdateUserSession` | server/replit_integrations/auth/replitAuth.ts:109-117 | all three token fields are overwritten from the response, and the expiry becomes the claims' exp |
| `Auth.AuthGate` | server/replit_integrations/auth/replitAuth.ts:216-254 | passes exactly when auth is off, or the session is authenticated with an expiry and is unexpired or has a refresh token with no OIDC client; refreshes exactly when expired with a refresh token, a client and a successful refresh; refuses otherwise |
| `Auth.ExpiryBoundary` | server/replit_integrations/auth/replitAuth.ts:228-231 | every request within the expiry second passes; without a refresh token, every request from the next second on is refused |
| `Auth.IsAuthenticated` | server/replit_integrations/auth/replitAuth.ts:216-254 | calls next exactly when the gate does not refuse, otherwise answers 401 "Unauthorized"; the session user is updated from the new tokens exactly when the gate refreshes |
| `Auth.StrategyRegistry.constructor` | server/replit_integrations/auth/replitAuth.ts:168 | the registry starts empty |
| `Auth.StrategyRegistry.EnsureStrategy` | server/replit_integrations/auth/replitAuth.ts:171-186 | the host's strategy is registered once, with the host's callback URL and the fixed scope; a repeated call changes nothing |

## Left out

- Numbers are integers. JavaScript's fractional numbers, NaN and Infinity, and the float arithmetic of the sums, are not modelled. So a non-numeric `:id` path parameter, which `Number` turns into NaN, is not modelled either.
- `ApiRoutes.Decimal`: it writes integers in plain decimal. The exponent form that `String` uses for very large numbers is not modelled.
- `ServerRoutes.CreateOrderRoute`: the storage reads in the pricing loop never fail in the model. In the source such a failure is caught and answered with 400, and it happens before the subject check. So a failed read in a session without `claims.sub` gives 400 there, where the model gives 500.
- `ServerRoutes.CreateOrderRoute`: the 32-bit range of the `integer` columns is not modelled. A total, quantity or price above 2147483647 makes the insert raise, which the source answers with 400. The model reaches that answer only through the `insertFails` parameter, not from the values themselves.
- `Checkout.OnReply`: a request that fails to reach the server, when `fetch` rejects, is not modelled. The source then reports the network error's own message; a `Checkout.Reply` is always a status or a created order.
- Persistence of the cart to local storage, the `zustand` subscription machinery and React rendering are not modelled. The checkout page is reduced to its gates and its submit handler.
- `Checkout.OnReply`: the toasts, the redirect to the profile page, the query invalidation and the parse of a 201 reply are not modelled. The reply, and whether the page is still mounted when it arrives, are parameters. Which cart edits happen between `Checkout.OnSubmit` and `Checkout.OnReply` is left to the caller; the model states what the reply does to whatever the cart then holds.
- `Storage.DatabaseStorage.CreateOrder`: only a failure of the first insert is modelled. A failure part-way through the item inserts would leave a partial write, because the source uses no transaction; that is not modelled. Concurrent requests, which could see a price change between the handler's pricing loop and the item inserts, are also not modelled.
- `Storage.DatabaseStorage.GetOrders`: the relative order of orders with equal creation times is left to the sort used here. The database leaves it unspecified.
- `Storage.DatabaseStorage.GetProducts`: the `search` argument is accepted and ignored, as in the source. The query-string parsing of the list route is not modelled.
- `getUser`, `createUser`, `getCategories`, the GET /api/orders list route, GET /api/user and the seeding block are outside the order flow and are not modelled.
- Session storage, passport's login, callback and logout routes, OIDC discovery and its memoisation, and the upsert of the signed-in user are external. The OIDC client lookup and the refresh grant are parameters of `Auth.AuthGate`.
- `Auth.IsJsWhitespace` covers JavaScript's WhiteSpace and LineTerminator code points. Strings are sequences of code points, so lone surrogates do not arise.

## Findings

None. No discrepancy between a natural contract and the code came to light that would call for a correction.
