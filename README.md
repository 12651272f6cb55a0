# PixelMart, modelled in Dafny

PixelMart is a small video-game shop. It has a React client (catalogue, filters, product tiles, cart,
a three-step checkout, login, a route guard and an admin dashboard) and an Express/Mongoose
server (cart, product, order and admin controllers, and the Product and Order schemas). This
project models the logic of those parts and proves what they promise and what they do not.

Module layout, one module per source file:

- `Js`: the JavaScript semantics the code relies on, written out:
  - falsiness of optional strings (`||`, `??`);
  - ASCII `toLowerCase`, `includes`, and `trim` over ECMAScript's white-space and line-terminator set;
  - `Array.prototype.slice` with clamping;
  - decimal rendering of years;
  - code-unit string order, which stands in for `localeCompare`.
- `ClientTypes`: the client-side entities of `client/src/types/index.ts`.
- `Sorting`: a stable insertion sort over a strict order. It is proved sorted and a permutation.
- Server:
  - `CartController`: class `CartStore` over a map from user to cart lines.
  - `ProductController`: class `ProductStore`.
  - `OrderController`: class `OrderStore`, with a counter for fresh ids.
  - `AdminController`: status update, user deletion, the revenue and top-products aggregation, and month labels.
  - `ProductModel` and `OrderModel`: the Mongoose schemas, as a defaults-applying `Prepare` and a `Valid` predicate.
  - `SchemaChecks`: what the controllers build, checked against those schemas.
- Client:
  - `AppContext`: the reducer as a pure `Reduce`, and the dispatch sequences as methods of class `AppStore`.
  - `Pricing`: the cart arithmetic shared by the cart and checkout pages.
  - `CartPage`, `CheckoutPage` (class `CheckoutForm`) and `OrderService`.
  - `ProductsPage`: filtering, sorting and pagination. `ProductFilters` and `ProductCard`.
  - `AdminPage`: the statistics and lists, plus class `AdminPanel` for the product form and the user list.
  - `ProtectedRoute` and `LoginPage` (class `LoginForm`).

Network calls, storage and clocks are parameters. A reply the server or browser gives, such as
`Reply<T>`, a stored user or today's date, is an input to the method, so each method is proved
for every answer.

Behaviour of the code worth knowing:

- `updateCart` (`server/controllers/cartController.js:54-88`) does not drop lines whose quantity
  is zero or negative. It stores the quantity it is given (`CartController.AssignedHolds`).
- The client reducer clamps negative quantities to 0 and drops non-positive lines
  (`AppContext.UpdateQuantitySpec`). Only the client filters them.
- The admin status list (`adminController.js:137-140`) and the Order schema's enum
  (`Order.js:54-58`) do not share a single value (`AdminController.AdminStatusesOutsideEnum`).
  `order.save()` validates the status against that enum, so every admin status update that
  passes the whitelist is refused on save and answered with 500 (`AdminController.UpdateOrderStatus`).
- The product the create endpoint builds never satisfies the Product schema. Its `platform` is
  an array where the schema wants one string, and its default category "Game" is outside the
  category enum (`SchemaChecks.CreatedProductNeverValid`).
- The order the controller creates lacks the schema's required address and item fields
  (`SchemaChecks.CreatedOrderNeverValid`).
- The admin page matches products by `p.id`. For products without an `id`, `undefined ===
  undefined` holds, so every such product is replaced on update and removed on delete
  (`AdminPage.MissingIdsMatchEachOther`).
- The order controller sets 404 before throwing "Order not found" (`orderController.js:44-45`,
  `:68-69`), but the error middleware (`server/server.js:32-38`) answers every thrown error with
  500 "Something went wrong!". The model gives that answer (`OrderController.GetOrderById`,
  `OrderController.OrderStore.UpdateOrderStatus`).
- The login page sends the user back to the path they asked for, but drops the query string
  (`LoginPage.GuardRoundTrip`).

## Model

| member | source | states |
|---|---|---|
| CartController.CartStore.GetCart | server/controllers/cartController.js:3-16 | a user's stored lines, or the empty list when the user has no cart |
| CartController.IndexOf | server/controllers/cartController.js:34-36 | the first index holding the product, or -1 exactly when no line holds it |
| CartController.FindIndex | server/controllers/cartController.js:34-36 | the `findIndex` loop returns the first matching index, -1 if none |
| CartController.CartStore.AddToCart | server/controllers/cartController.js:18-52 | 400 and no change without a product id; otherwise add to the matching line or append, with quantity defaulting to 1, creating the cart if absent |
| CartController.CartStore.UpdateCart | server/controllers/cartController.js:54-88 | 400 and no change without product id or quantity; otherwise set the matching line's quantity or append, creating the cart if absent |
| CartController.CartStore.RemoveFromCart | server/controllers/cartController.js:90-102 | 404 and no change without a cart; otherwise every line of that product is removed and the rest kept |
| CartController.Added | server/controllers/cartController.js:38-42 | the lines after an add; specified by CartController.AddPresent and AddAbsent |
| CartController.AddPresent | server/controllers/cartController.js:38-39 | adding a present product raises only that line's quantity by q; length and other lines are unchanged |
| CartController.AddAbsent | server/controllers/cartController.js:40-42 | adding or setting an absent product appends one line with the given quantity |
| CartController.Assigned | server/controllers/cartController.js:74-80 | the lines after an update; specified by CartController.AssignedHolds |
| CartController.AssignedHolds | server/controllers/cartController.js:74-77 | after an update, exactly one line holds the product, with exactly the quantity sent, even a zero or negative one |
| CartController.UniquePreserved | server/controllers/cartController.js:34-42 | add and update keep at most one line per product |
| CartController.Removed | server/controllers/cartController.js:100-102 | the filter; specified by CartController.RemovedSpec |
| CartController.RemovedSpec | server/controllers/cartController.js:100-102 | the remaining lines are exactly the old lines of other products |
| CartController.RemovedAppend | server/controllers/cartController.js:100-102 | removal distributes over concatenation |
| CartController.RemovedAbsent | server/controllers/cartController.js:100-102 | removing an absent product leaves the cart unchanged |
| CartController.RemovedIdempotent | server/controllers/cartController.js:100-102 | removing twice is the same as removing once |
| CartController.UniqueRemoved | server/controllers/cartController.js:100-102 | removal keeps lines unique per product |
| CartController.AddsAccumulate | server/controllers/cartController.js:34-42 | repeated adds of one product leave one line whose quantity grew by the sum of the adds |
| AppContext.Reduce | client/src/context/AppContext.tsx:54-113 | `appReducer`; its cases are specified by the AppContext lemmas below |
| AppContext.AddToCartPresent | client/src/context/AppContext.tsx:58-71 | adding a product already in the cart increments every matching line by one and changes nothing else |
| AppContext.AbsentIdsMatch | client/src/context/AppContext.tsx:59-61 | two products with no `_id` count as the same product, so adding one increments the other's line |
| AppContext.AddToCartNew | client/src/context/AppContext.tsx:72-82 | adding a new product appends one line of quantity 1, identified by `_id`, else `id`, else "" |
| AppContext.WithoutIdSpec | client/src/context/AppContext.tsx:84-88 | the lines that remain are exactly those of other ids |
| AppContext.WithoutIdAppend | client/src/context/AppContext.tsx:84-88 | removal by id distributes over concatenation |
| AppContext.RemoveFromCartSpec | client/src/context/AppContext.tsx:84-88 | REMOVE_FROM_CART keeps exactly the other ids' lines, never grows the cart, and touches no other field |
| AppContext.WithoutIdShorter | client/src/context/AppContext.tsx:84-88 | removal never lengthens the cart |
| AppContext.PositiveSpec | client/src/context/AppContext.tsx:89-97 | the line filter keeps exactly the lines with positive quantity |
| AppContext.UpdateQuantitySpec | client/src/context/AppContext.tsx:89-97 | after UPDATE_CART_QUANTITY every line is positive; the lines of the target id are the old ones carrying q when q > 0 and none otherwise (counted); every other line stays exactly when positive, with its multiplicity, and nothing else appears |
| AppContext.ClearCartSpec | client/src/context/AppContext.tsx:98-99 | CLEAR_CART empties the cart and nothing else |
| AppContext.SetActionsReplaceOneField | client/src/context/AppContext.tsx:100-111 | each SET_ action replaces exactly its own field; an unknown action leaves the state unchanged |
| AppContext.CartActionsKeepOtherFields | client/src/context/AppContext.tsx:56-109 | cart actions change only the cart |
| AppContext.AppStore.constructor | client/src/context/AppContext.tsx:31-38 | the store starts in the initial state |
| AppContext.AppStore.Dispatch | client/src/context/AppContext.tsx:54-113 | dispatching applies the reducer to the state |
| AppContext.AppStore.Logout | client/src/context/AppContext.tsx:212-218 | logout clears the user, the cart and the orders and keeps the rest |
| AppContext.AppStore.LoadCart | client/src/context/AppContext.tsx:157-165 | a reply replaces the cart, falling back to the empty list; a failure sets the error message, falling back to "Failed to load cart" |
| AppContext.AppStore.LoadOrders | client/src/context/AppContext.tsx:167-175 | a reply replaces the orders, falling back to the empty list; a failure sets "Failed to load orders" |
| AppContext.AppStore.CartMutation | client/src/context/AppContext.tsx:219-257 | on failure the error shows the server's message or the operation's fallback; on success the cart is reloaded from the server; loading always ends false |
| AppContext.AppStore.Checkout | client/src/context/AppContext.tsx:258-271 | a failure sets the message or "Checkout failed"; a success reloads the cart and then the orders; loading ends false |
| Pricing.Subtotal | client/src/pages/CartPage.tsx:17 | the `reduce` over price times quantity; specified by Pricing.SubtotalCons, SubtotalAppend and SubtotalNonNegative |
| Pricing.Shipping | client/src/pages/CartPage.tsx:19 | the fee; specified by Pricing.ShippingThreshold |
| Pricing.Total | client/src/pages/CartPage.tsx:18-20 | subtotal, tax and fee; specified by Pricing.TotalFormula |
| Pricing.Summarize | client/src/pages/CartPage.tsx:17-20 | tax is a tenth of the subtotal, shipping is free exactly above 50 and otherwise 9.99, and the total is their sum |
| Pricing.SubtotalAppend | client/src/pages/CartPage.tsx:17 | the subtotal of a concatenation is the sum of the subtotals |
| Pricing.SubtotalCons | client/src/pages/CartPage.tsx:17 | the subtotal reads the same from the front as the `reduce` does from the left |
| Pricing.SubtotalNonNegative | client/src/pages/CartPage.tsx:17 | non-negative prices and quantities give a non-negative subtotal |
| Pricing.ShippingThreshold | client/src/pages/CartPage.tsx:19 | shipping is 0 exactly when the subtotal exceeds 50; exactly 50 still pays 9.99 |
| Pricing.TotalFormula | client/src/pages/CheckoutPage.tsx:62-65 | the total is 1.1 times the subtotal, plus 9.99 at or below 50 |
| Pricing.TotalExamples | client/src/pages/CartPage.tsx:17-20 | worked totals on both sides of the threshold and at it |
| Pricing.TotalNotMonotone | client/src/pages/CartPage.tsx:19-20 | a larger cart can cost less: 51 costs less than 50 |
| Pricing.SummaryExample | client/src/pages/CartPage.tsx:17-20 | a two-line cart of subtotal 55 ships free and totals 60.5 |
| CartPage.FreeShippingHint | client/src/pages/CartPage.tsx:151-155 | the hint shows exactly below 50 and names the amount that brings the subtotal to 50 |
| CartPage.HintedAmountNotEnough | client/src/pages/CartPage.tsx:151-155 | adding the hinted amount still costs 9.99 shipping, because the threshold is strictly above 50 |
| CartPage.CorrectedHint | client/src/pages/CartPage.tsx:19 | a hint shown exactly when shipping is charged, whose amount does reach free shipping |
| CartPage.PlusDisabled | client/src/pages/CartPage.tsx:103 | the plus button's `disabled`; specified by CartPage.PlusDisabledWithoutStock |
| CartPage.PlusDisabledWithoutStock | client/src/pages/CartPage.tsx:101-103 | the plus button is disabled for a product with no stock or zero stock |
| CartPage.Minus | client/src/pages/CartPage.tsx:95 | the minus button's action; specified by CartPage.MinusAtOneRemoves and MinusAboveOneDecrements |
| CartPage.MinusAtOneRemoves | client/src/pages/CartPage.tsx:95 | pressing minus at quantity 1 removes the line |
| CartPage.MinusAboveOneDecrements | client/src/pages/CartPage.tsx:95 | pressing minus above 1 lowers that line by one and keeps the others |
| CartPage.Plus | client/src/pages/CartPage.tsx:102 | the plus button's action; specified by CartPage.PlusIncrements |
| CartPage.PlusIncrements | client/src/pages/CartPage.tsx:102 | pressing plus raises that line by one and keeps every other positive line |
| CartPage.Remove | client/src/pages/CartPage.tsx:117 | the trash button's action; specified by CartPage.RemoveDropsLine |
| CartPage.RemoveDropsLine | client/src/pages/CartPage.tsx:117 | the remove button keeps exactly the other lines |
| CheckoutPage.With | client/src/pages/CheckoutPage.tsx:98-103 | the edited field takes the value and every other field is kept |
| CheckoutPage.FlagExtends | client/src/pages/CheckoutPage.tsx:74-96 | one more empty-field check extends the errors by that field |
| CheckoutPage.ShippingFlags | client/src/pages/CheckoutPage.tsx:77-85 | the seven step-1 checks build exactly the step-1 errors |
| CheckoutPage.CardFlags | client/src/pages/CheckoutPage.tsx:87-92 | the four card checks build exactly the step-2 errors for card payments |
| CheckoutPage.FieldCases | client/src/pages/CheckoutPage.tsx:77-92 | which fields each step checks |
| CheckoutPage.StepOneSpec | client/src/pages/CheckoutPage.tsx:77-85 | step 1 passes iff the seven shipping fields are non-empty; the country is never checked |
| CheckoutPage.StepTwoSpec | client/src/pages/CheckoutPage.tsx:87-95 | with a card, step 2 passes iff the four card fields are non-empty; otherwise, and at other steps, it passes |
| CheckoutPage.StepErrors | client/src/pages/CheckoutPage.tsx:74-96 | `validateStep`'s error map; specified by CheckoutPage.StepErrorsShape, StepOneSpec and StepTwoSpec |
| CheckoutPage.StepErrorsShape | client/src/pages/CheckoutPage.tsx:74-96 | an error exists exactly for a checked empty field, carrying that field's non-empty message |
| CheckoutPage.SubmitSkipsShipping | client/src/pages/CheckoutPage.tsx:115-116 | submitting re-checks only step 2, so a PayPal order with empty shipping fields passes |
| CheckoutPage.OrderDataFor | client/src/pages/CheckoutPage.tsx:122-140 | the order payload lists each cart line's product id and quantity, the computed total and the chosen payment method |
| CheckoutPage.NoCardDetailsSent | client/src/pages/CheckoutPage.tsx:122-142 | the page never passes card details, so the sanitized body never carries them; the country goes through |
| CheckoutPage.StepStaysInRange | client/src/pages/CheckoutPage.tsx:561-577 | through the rendered buttons the step never leaves 1..3 |
| CheckoutPage.CheckoutForm.constructor | client/src/pages/CheckoutPage.tsx:35-50 | the form starts at step 1 with the initial data and no errors |
| CheckoutPage.CheckoutForm.ValidateStep | client/src/pages/CheckoutPage.tsx:74-96 | the step's checks, run one after the other, leave exactly the errors of the step and report whether there are none |
| CheckoutPage.CheckoutForm.HandleInputChange | client/src/pages/CheckoutPage.tsx:98-103 | the field takes the value and only its own error is cleared |
| CheckoutPage.CheckoutForm.NextStep | client/src/pages/CheckoutPage.tsx:105-109 | the step advances exactly when the current step validates |
| CheckoutPage.CheckoutForm.PrevStep | client/src/pages/CheckoutPage.tsx:111-113 | the step goes back by one, unconditionally |
| CheckoutPage.CheckoutForm.PressPrevious | client/src/pages/CheckoutPage.tsx:561-568 | the rendered Previous button keeps the step in 1..3 |
| CheckoutPage.CheckoutForm.PressNext | client/src/pages/CheckoutPage.tsx:569-577 | the rendered Next button keeps the step in 1..3 and agrees with the interaction run |
| CheckoutPage.CheckoutForm.HandleSubmit | client/src/pages/CheckoutPage.tsx:115-154 | invalid step 2 sends nothing; otherwise the sanitized order is posted; on success the cart is cleared and the page navigates to the confirmation; on failure the service's message is shown and the cart kept |
| OrderService.RoundCents | client/src/services/orderService.ts:41 | `Number(total.toFixed(2))`; specified by OrderService.RoundCentsClose and RoundCentsExact |
| OrderService.RoundCentsClose | client/src/services/orderService.ts:41 | rounding to cents moves the total by at most half a cent and gives a whole number of cents |
| OrderService.RoundCentsExact | client/src/services/orderService.ts:41 | an amount already in whole cents is unchanged |
| OrderService.Sanitize | client/src/services/orderService.ts:26-45 | items keep only product id and quantity; the payment method is kept; card details are forwarded exactly when paying by card |
| OrderService.PhoneDropped | client/src/services/orderService.ts:31-39 | the phone number never reaches the server; the other address fields are copied |
| OrderService.UserIdDropped | client/src/services/orderService.ts:26-45 | the user id is not sent |
| OrderService.SanitizedTotal | client/src/services/orderService.ts:41 | the sent total is within half a cent of the computed one |
| OrderService.FailureMessage | client/src/services/orderService.ts:49-54 | an HTTP error shows the server's message or "Failed to create order"; no response shows the network message; never empty |
| OrderController.OrdersOf | server/controllers/orderController.js:30-33 | exactly the orders owned by the user |
| OrderController.CreateListsForOwnerOnly | server/controllers/orderController.js:8-33 | a new order appears in its owner's list and in no one else's |
| OrderController.StatusChangeKeepsOwnership | server/controllers/orderController.js:60-71 | a status change moves no order between users' lists |
| OrderController.GetOrderById | server/controllers/orderController.js:38-47 | found exactly for an owner that still resolves, or an admin; every other case, a missing order, another customer's order or a deleted owner, answers the error middleware's 500 "Something went wrong!" |
| OrderController.OwnerGoneFails | server/controllers/orderController.js:38-41 | an order whose owner `populate` cannot resolve is unreadable, even by an admin |
| OrderController.ForeignOrderLooksMissing | server/controllers/orderController.js:41-46 | another customer's order is indistinguishable from a missing one |
| OrderController.AdminSeesAll | server/controllers/orderController.js:41 | an admin sees every order whose owner still exists |
| OrderController.NewStatus | server/controllers/orderController.js:64 | a non-empty requested status replaces the old one; an empty or absent one keeps it |
| OrderController.AnyTokenAccepted | server/controllers/orderController.js:64 | any non-empty token becomes the new status the handler tries to save, even one outside the schema's list |
| OrderController.OrderStore.constructor | server/controllers/orderController.js:8-25 | the store starts empty |
| OrderController.OrderStore.CreateOrder | server/controllers/orderController.js:8-25 | a fresh id is stored with the sent items, address, method, total and the initial status; nothing else changes |
| OrderController.OrderStore.GetOrders | server/controllers/orderController.js:30-33 | returns exactly the user's orders |
| OrderController.OrderStore.SaveStatus | server/models/Order.js:54-58 | `save` writes the status exactly when the schema lists it; a refused save changes nothing |
| OrderController.OrderStore.UpdateOrderStatus | server/controllers/orderController.js:60-71 | an unknown id answers the middleware's 500 with no change; a listed new status changes only that order; an unlisted one is refused on save, also 500 with no change |
| AdminController.UpdateOrderStatus | server/controllers/adminController.js:132-155 | invalid statuses give 400 and unknown orders 404; an accepted status on an existing order is refused by `save`, so the answer is 500; nothing changes in any case |
| AdminController.IsValidStatus | server/controllers/adminController.js:137-140 | `validStatuses.includes(status)`; specified by AdminController.StatusWhitelist |
| AdminController.StatusWhitelist | server/controllers/adminController.js:137-140 | exactly the five lower-case statuses are accepted |
| AdminController.UserStore.constructor | server/controllers/adminController.js:16-35 | the store holds the given accounts |
| AdminController.UserStore.DeleteUser | server/controllers/adminController.js:16-35 | deleting oneself gives 400, an unknown user 404, both without change; otherwise exactly that account is removed |
| AdminController.DeleteKeepsOthers | server/controllers/adminController.js:30-31 | every other account survives unchanged |
| AdminController.Revenue | server/controllers/adminController.js:46-47 | the sum over completed orders; specified by AdminController.RevenueWithoutCompleted and RevenueAppend |
| AdminController.RevenueWithoutCompleted | server/controllers/adminController.js:46-47 | with no completed order the revenue is 0 |
| AdminController.RevenueAppend | server/controllers/adminController.js:46-47 | the revenue of two order lists adds up |
| AdminController.ProductsIn | server/controllers/adminController.js:57-63 | the grouped product ids: each sold product exactly once |
| AdminController.GroupLines | server/controllers/adminController.js:56-64 | one group per product, with the total quantity and revenue of its lines |
| AdminController.Take | server/controllers/adminController.js:66 | `$limit`: the first n groups |
| AdminController.RankedGroups | server/controllers/adminController.js:56-65 | the ranking is a permutation of the groups, by descending quantity, with each group's true totals |
| AdminController.RankedCovers | server/controllers/adminController.js:56-65 | every sold product has a group in the ranking |
| AdminController.TopProducts | server/controllers/adminController.js:56-67 | unwind, group, sort, limit 5; specified by AdminController.TopProductsSpec |
| AdminController.TopProductsSpec | server/controllers/adminController.js:56-67 | at most five distinct products, in descending quantity, with true totals; any product left out sold no more than each of the five |
| AdminController.FindGroup | server/controllers/adminController.js:73 | finds the product's group, or reports that none has that product |
| AdminController.Joined | server/controllers/adminController.js:69-79 | the joined list holds only top groups whose product is in the catalogue, and every such product appears in it |
| AdminController.JoinedUnsorted | server/controllers/adminController.js:69-79 | the join follows catalogue order, so a descending ranking comes back out of order |
| AdminController.RankedJoin | server/controllers/adminController.js:69-79 | the joined list, walked in ranking order: exactly the top groups present in the catalogue |
| AdminController.ConsDescending | server/controllers/adminController.js:65 | a group no smaller than a descending list may head it |
| AdminController.RankedJoinSorted | server/controllers/adminController.js:65-79 | the ranking-order join stays descending |
| AdminController.GroupsDistinct | server/controllers/adminController.js:59-63 | any permutation of the groups names each product once |
| AdminController.MonthLabel | server/controllers/adminController.js:105-114 | the month label; specified by AdminController.MonthLabelRoundTrip and MonthLabelInjective |
| AdminController.MonthLabelRoundTrip | server/controllers/adminController.js:105-114 | the label is the month's three-letter name, a space, and the year, read back exactly |
| AdminController.MonthLabelInjective | server/controllers/adminController.js:110-114 | different months give different labels |
| ProductController.PlatformList | server/controllers/productController.js:60 | an array is kept, a non-empty string is wrapped, and a missing or empty one becomes ["PC"] |
| ProductController.BuildProduct | server/controllers/productController.js:24-67 | 400 without a title or name, then 400 without a positive price; otherwise the record has the title as both title and name, the price and the platform array |
| ProductController.TitleFallsBackToName | server/controllers/productController.js:43 | without a title the name is used |
| ProductController.ZeroPriceRefused | server/controllers/productController.js:48-50 | a price of 0 is refused as invalid |
| ProductController.Defaults | server/controllers/productController.js:52-67 | for any request, each optional field keeps the value sent when truthy and otherwise takes its default, including category "Game" and today's date |
| ProductController.MinimalRequest | server/controllers/productController.js:52-67 | a request with only a title and a price builds the all-default record |
| ProductController.PlatformAlwaysArray | server/controllers/productController.js:60 | a created product's platform is the sent array or a one-element array |
| ProductController.ApplyPatch | server/controllers/productController.js:85-89 | each of the fourteen fields the body sends replaces the stored one; every field it omits is kept |
| ProductController.PatchLaws | server/controllers/productController.js:85-89 | an empty body changes nothing, and applying a body twice equals applying it once |
| ProductController.ProductStore.constructor | server/controllers/productController.js:12-22 | the store starts empty, so every lookup is a 404 |
| ProductController.ProductStore.GetProductById | server/controllers/productController.js:12-22 | the stored product, or 404 "Product not found" |
| ProductController.ProductStore.CreateProduct | server/controllers/productController.js:24-75 | a refusal stores nothing and returns the message; otherwise the built record is stored under a fresh id |
| ProductController.ProductStore.UpdateProduct | server/controllers/productController.js:77-95 | 404 and no change for an unknown id; otherwise the patch is applied to that product only |
| ProductController.ProductStore.DeleteProduct | server/controllers/productController.js:97-110 | 404 and no change for an unknown id; otherwise exactly that product is removed |
| ProductModel.Prepare | server/models/Product.js:3-77 | the schema's defaults and trimming: the name is trimmed, and each missing field takes its default |
| ProductModel.Valid | server/models/Product.js:3-77 | the schema's validators; specified by the ProductModel lemmas that follow |
| ProductModel.DefaultsAreValid | server/models/Product.js:3-77 | a name and a non-negative price alone make a valid product |
| ProductModel.NameRequired | server/models/Product.js:4-8 | a missing or blank name is invalid |
| ProductModel.PriceBounds | server/models/Product.js:14-18 | the price is required and may not be negative |
| ProductModel.StockAndRatingBounds | server/models/Product.js:25-30 | negative stock and ratings outside 0..5 are invalid |
| ProductModel.PlatformIsOneString | server/models/Product.js:37-42 | the platform must be one listed string; an array is invalid |
| ProductModel.EnumsEnforced | server/models/Product.js:31-69 | category, genre and age rating must be listed; "Game" is not a category |
| OrderModel.Prepare | server/models/Order.js:48-58 | tax and shipping default to 0 and the status to "Processing" |
| OrderModel.Valid | server/models/Order.js:3-58 | the schema's validators; specified by the OrderModel lemmas that follow |
| OrderModel.MinimalOrderValid | server/models/Order.js:3-58 | an order with no items and the required address fields is valid |
| OrderModel.BadItemInvalid | server/models/Order.js:3-20 | one incomplete item makes the order invalid |
| OrderModel.EnumsEnforced | server/models/Order.js:37-58 | the status and payment method must be listed |
| SchemaChecks.CreatedProductNeverValid | server/controllers/productController.js:57-60 | every product the create endpoint builds violates the Product schema |
| SchemaChecks.DefaultCategoryOutsideEnum | server/controllers/productController.js:57 | the default category is not in the schema's enum; "games" is |
| AdminController.AdminStatusesOutsideEnum | server/controllers/adminController.js:137-140 | no status the admin endpoint accepts is in the Order schema's enum |
| SchemaChecks.InitialStatusListed | server/models/Order.js:54-58 | the initial status is listed; "completed", which revenue counts, is not |
| SchemaChecks.CreatedOrderNeverValid | server/controllers/orderController.js:11-17 | the order the controller creates never satisfies the Order schema |
| SchemaChecks.ClientPaymentMethodsOutsideEnum | server/models/Order.js:37-41 | the client's "card" and "paypal" are not in the schema's enum |
| Sorting.ByKeyStrict | client/src/pages/ProductsPage.tsx:104-117 | a numeric-key comparison is a strict order |
| Sorting.InsertPermutes | client/src/pages/ProductsPage.tsx:100 | insertion adds exactly the new element |
| Sorting.InsertSorted | client/src/pages/ProductsPage.tsx:100 | insertion keeps a sorted list sorted |
| Sorting.SortCorrect | client/src/pages/ProductsPage.tsx:100 | the sort returns a sorted permutation of its input, for any strict order |
| Sorting.SortByKeyCorrect | client/src/pages/ProductsPage.tsx:104-117 | sorting by a key leaves the keys ascending or descending, and is a permutation |
| Js.Lower | client/src/pages/ProductsPage.tsx:63-66 | lower-casing maps each character and keeps the length |
| Js.Trim | server/models/Product.js:7 | the result is a slice of the input whose dropped prefix and suffix are all white space, and which neither starts nor ends with white space |
| Js.TrimIdempotent | server/models/Product.js:7 | trimming twice equals trimming once |
| Js.Slice | client/src/pages/ProductsPage.tsx:132-135 | within bounds the slice is the subsequence; it never exceeds the input |
| Js.DecimalRoundTrip | server/controllers/adminController.js:111 | the rendered year reads back as the year |
| Js.DecimalStringInjective | server/controllers/adminController.js:111 | different years render differently |
| Js.CodeUnitLessIrreflexive | client/src/pages/ProductsPage.tsx:118-123 | no name sorts before itself |
| Js.CodeUnitLessTransitive | client/src/pages/ProductsPage.tsx:118-123 | the name order is transitive |
| Js.CodeUnitLessTotal | client/src/pages/ProductsPage.tsx:118-123 | of two different names one sorts first |
| ProductsPage.Keep | client/src/pages/ProductsPage.tsx:59-97 | the filter callback; specified by ProductsPage.KeepRules |
| ProductsPage.KeepRules | client/src/pages/ProductsPage.tsx:59-97 | a product is kept iff it meets every active filter |
| ProductsPage.LowerIdempotent | client/src/pages/ProductsPage.tsx:63-66 | lower-casing twice equals lower-casing once |
| ProductsPage.SearchIgnoresCase | client/src/pages/ProductsPage.tsx:63-66 | the search term's case does not matter |
| ProductsPage.InitialFiltersKeep | client/src/pages/ProductsPage.tsx:18-24 | the initial filters keep exactly the products priced 0..100 |
| ProductsPage.Filtered | client/src/pages/ProductsPage.tsx:59-97 | filtering never lengthens the list |
| ProductsPage.FilteredSpec | client/src/pages/ProductsPage.tsx:59-97 | the kept products are exactly the products meeting the filters, each as often as before |
| ProductsPage.ComparatorStrict | client/src/pages/ProductsPage.tsx:100-125 | each sort option is a strict order |
| ProductsPage.Listing | client/src/pages/ProductsPage.tsx:58-125 | filter then sort; specified by ProductsPage.ListingSpec |
| ProductsPage.ListingSpec | client/src/pages/ProductsPage.tsx:59-125 | the listing is a permutation of the kept products, ordered by price, rating, date or name as chosen; unknown choices sort by name |
| ProductsPage.SortedPermutes | client/src/pages/ProductsPage.tsx:100-125 | each option's sort is a permutation |
| ProductsPage.SortedByName | client/src/pages/ProductsPage.tsx:118-123 | the default sort is by display name |
| ProductsPage.TotalPages | client/src/pages/ProductsPage.tsx:131 | the ceiling of the count over 12; zero exactly for no products |
| ProductsPage.Page | client/src/pages/ProductsPage.tsx:132-135 | at most 12 products: the current page's slice, empty beyond the end |
| ProductsPage.PagesPrefix | client/src/pages/ProductsPage.tsx:132-135 | the first k pages together are the first 12k products |
| ProductsPage.PagesCover | client/src/pages/ProductsPage.tsx:131-135 | all pages together are the whole listing, in order |
| ProductsPage.PageAfter | client/src/pages/ProductsPage.tsx:252-278 | Previous and Next clamp to 1..total pages; a numbered button goes to its page |
| ProductsPage.PreviousNextInverse | client/src/pages/ProductsPage.tsx:254-278 | away from the ends, Previous undoes Next and Next undoes Previous |
| ProductsPage.StalePageShowsNothing | client/src/pages/ProductsPage.tsx:14 | page 2 of a list that fits on one page is empty, and the pagination bar is hidden |
| ProductsPage.ShownPage | client/src/pages/ProductsPage.tsx:131-135 | a current page clamped to the existing pages, unchanged when valid |
| ProductsPage.ShownPageNonEmpty | client/src/pages/ProductsPage.tsx:131-135 | the clamped page of a non-empty listing shows products |
| ProductFilters.UpdateFilter | client/src/components/ProductFilters.tsx:20-22 | the named key takes the value; every other key is kept |
| ProductFilters.UpdateLaws | client/src/components/ProductFilters.tsx:20-22 | an update is idempotent, updates of different keys commute, and of the same key the last wins |
| ProductFilters.ClearFilters | client/src/components/ProductFilters.tsx:24-32 | clearing restores the page's initial filters |
| ProductFilters.HasActiveFilters | client/src/components/ProductFilters.tsx:34-40 | `hasActiveFilters`; specified by ProductFilters.ActiveIffNotCleared |
| ProductFilters.ActiveIffNotCleared | client/src/components/ProductFilters.tsx:34-40 | the clear button shows exactly when the filters differ from the cleared ones |
| ProductFilters.SliderMoved | client/src/components/ProductFilters.tsx:119 | the slider sets the upper price bound and nothing else |
| ProductFilters.SliderKeepsLowerBound | client/src/components/ProductFilters.tsx:119 | slider moves never change the lower bound; the last move sets the upper bound |
| ProductCard.CardStock | client/src/components/ProductCard.tsx:12 | only an absent stock falls through to countInStock, then to 0 |
| ProductCard.StockFallbacksDisagree | client/src/components/ProductCard.tsx:12 | an explicit stock of 0 beside a non-zero countInStock is in stock for the listing but out of stock on the tile |
| ProductCard.StockFallbacksAgree | client/src/components/ProductCard.tsx:12 | the two fallbacks agree when no stock value is 0 |
| ProductCard.HandleAddToCart | client/src/components/ProductCard.tsx:15-19 | ADD_TO_CART is dispatched exactly when the tile's stock is positive |
| ProductCard.BadgesNest | client/src/components/ProductCard.tsx:50-109 | low stock (1..5) implies the few-left note (1..10), which implies in stock and addable |
| ProductCard.Stars | client/src/components/ProductCard.tsx:28-36 | five stars, star i filled iff i is below the rating's floor |
| ProductCard.FilledPrefix | client/src/components/ProductCard.tsx:28-36 | a row filled up to k has k filled stars |
| ProductCard.StarsCount | client/src/components/ProductCard.tsx:28-36 | the number of filled stars is the floor of the rating clipped to 0..5 |
| ProductCard.NameFallback | client/src/components/ProductCard.tsx:13 | the title is the name, else the title field, else empty |
| AdminPage.Where | client/src/pages/AdminPage.tsx:45-46 | filtering never lengthens a list |
| AdminPage.WhereSpec | client/src/pages/AdminPage.tsx:45-46 | `filter` keeps exactly the matching elements, each as often as before |
| AdminPage.WhereNone | client/src/pages/AdminPage.tsx:186 | a test no element passes keeps nothing |
| AdminPage.WhereMonotone | client/src/pages/AdminPage.tsx:45-46 | a weaker test keeps at least as many |
| AdminPage.StatsOf | client/src/pages/AdminPage.tsx:40-47 | the totals are the list lengths, revenue falls back to 0, and out-of-stock ≤ low-stock ≤ products |
| AdminPage.StockCounts | client/src/pages/AdminPage.tsx:45-46 | a product counts as out of stock only at 0, low at 5 or below; out of stock is also low |
| AdminPage.Alerts | client/src/pages/AdminPage.tsx:597-598 | the alert list is exactly the products with stock ≤ 10, and is no shorter than the low-stock count |
| AdminPage.WellStocked | client/src/pages/AdminPage.tsx:616-618 | "all well stocked" shows iff every product with a stock has more than 10 |
| AdminPage.CanSave | client/src/pages/AdminPage.tsx:106 | `newProduct.title && newProduct.price`; specified by AdminPage.EmptyDraftRefused and EditedProductSavable |
| AdminPage.DraftOf | client/src/pages/AdminPage.tsx:146-148 | the form becomes the whole product being edited; specified by AdminPage.DraftOfInjective and EditedProductSavable |
| AdminPage.DraftOfInjective | client/src/pages/AdminPage.tsx:148 | the opened form loses no field of the product: equal forms come only from equal products, and the stored `name` and ids are carried |
| AdminPage.EditedProductSavable | client/src/pages/AdminPage.tsx:146-153 | an edited product can be saved again exactly when it has a title and a non-zero price; the form carries its title and price |
| AdminPage.EmptyDraftRefused | client/src/pages/AdminPage.tsx:26-38 | the initial form cannot be saved |
| AdminPage.ProductData | client/src/pages/AdminPage.tsx:108-120 | the create body carries the form's title and price and an array platform |
| AdminPage.ServerAgreesOnSavedForms | client/src/pages/AdminPage.tsx:106-122 | a positive-price form is accepted by the server with its title, price and date; a negative price, which the page lets through, is refused |
| AdminPage.Updated | client/src/pages/AdminPage.tsx:156-158 | the product with a matching id is replaced, the others kept, in place |
| AdminPage.Deleted | client/src/pages/AdminPage.tsx:186 | exactly the products with other ids remain, each as often as before |
| AdminPage.MissingIdsMatchEachOther | client/src/pages/AdminPage.tsx:155-186 | with no ids, an update replaces every product and a delete removes all |
| AdminPage.Categories | client/src/pages/AdminPage.tsx:578 | each product category exactly once |
| AdminPage.CountOutside | client/src/pages/AdminPage.tsx:579 | an absent category counts zero |
| AdminPage.SumCountsStep | client/src/pages/AdminPage.tsx:579 | one more product raises the sum of counts by one exactly when its category is listed |
| AdminPage.CategoryCountsSum | client/src/pages/AdminPage.tsx:578-580 | the category counts add up to the number of products |
| AdminPage.CategoryCountPositive | client/src/pages/AdminPage.tsx:578-579 | every listed category counts at least one |
| AdminPage.AdminPanel.constructor | client/src/pages/AdminPage.tsx:26-38 | the panel starts with the empty form, nothing edited, hidden, and the loaded users |
| AdminPage.AdminPanel.HandleAddProduct | client/src/pages/AdminPage.tsx:105-144 | a form with a title and non-zero price is sent; on success the created product is appended and the form reset; otherwise nothing changes |
| AdminPage.AdminPanel.HandleEditProduct | client/src/pages/AdminPage.tsx:146-150 | the product is being edited, its fields fill the form and the form shows |
| AdminPage.AdminPanel.HandleUpdateProduct | client/src/pages/AdminPage.tsx:152-180 | when editing a savable form, the edited product's `id` and the whole form (every field of the product, with the edits) are sent; on success matching products are replaced and the form reset; otherwise nothing changes |
| AdminPage.AdminPanel.HandleDeleteProduct | client/src/pages/AdminPage.tsx:182-193 | a confirmed delete is sent; on success products with that id are removed; otherwise nothing changes |
| AdminPage.AdminPanel.ClickDeleteUser | client/src/pages/AdminPage.tsx:545-552 | on a non-admin row a confirmed click sends the user's key and, on success, drops every user with that key |
| AdminPage.UserDeleteRemovesKey | client/src/pages/AdminPage.tsx:551 | exactly the users with another key remain |
| ProtectedRoute.Decide | client/src/components/ProtectedRoute.tsx:10-45 | a spinner while loading; the login redirect without a user; customers bounced from admin routes exactly when required; otherwise the page |
| ProtectedRoute.SignedInPasses | client/src/components/ProtectedRoute.tsx:10-45 | without the admin requirement every signed-in user passes; admins pass everywhere |
| ProtectedRoute.SpinnerIgnoresUser | client/src/components/ProtectedRoute.tsx:14-35 | while loading, who is signed in and where they go make no difference |
| LoginPage.From | client/src/pages/LoginPage.tsx:17-18 | the requested path when every level of the state is present and non-empty, else none |
| LoginPage.Redirect | client/src/pages/LoginPage.tsx:36-42 | admins go to /admin; others go back to a non-login path they came from, else to /products |
| LoginPage.NeverBackToLogin | client/src/pages/LoginPage.tsx:36-42 | a login never leads to the login page or an empty path |
| LoginPage.UnparseableIsNoUser | client/src/pages/LoginPage.tsx:27-33 | an unreadable stored user is treated like none |
| LoginPage.GuardRoundTrip | client/src/pages/LoginPage.tsx:17-42 | a customer the guard sends to login returns to the path asked for; admins land on /admin |
| LoginPage.PlainStringFromIgnored | client/src/pages/CheckoutPage.tsx:28-33 | the checkout page's own login redirect passes `from` as a plain string, which has no `pathname`, so a customer lands on /products |
| LoginPage.CustomerBouncedFromAdminRoute | client/src/pages/LoginPage.tsx:36-42 | a customer who asked for an admin page comes back to it and is sent on to the catalogue |
| LoginPage.ErrorMessage | client/src/pages/LoginPage.tsx:43-48 | an Error shows its message; anything else shows "Failed to login" |
| LoginPage.LoginForm.constructor | client/src/pages/LoginPage.tsx:15 | the form starts with no error |
| LoginPage.LoginForm.HandleSubmit | client/src/pages/LoginPage.tsx:20-50 | success clears the error and navigates by the redirect rule; failure shows the error and stays |

## Left out

- Network, storage and clocks: axios calls, `localStorage`, `console` and `alert` are outside the model. Server replies, thrown errors, the stored user and today's date are inputs.
- ProductsPage.ByName: `localeCompare` is modelled as code-unit order. It is a strict total order, like the locale order, but it ranks characters differently.
- ProductsPage.DateKey: `new Date(...).getTime()` is a parameter from strings to reals, because date parsing is outside the model.
- ProductsPage.Comparator: the `!a || !b` guard at `ProductsPage.tsx:101` never fires, because products in the list are never null. It is not modelled.
- The catalogue's category and platform option lists (`ProductsPage.tsx:48-55`) only feed the filter panel's select boxes. They are not modelled.
- OrderService.RoundCents: JavaScript floating point is modelled as exact reals. `toFixed(2)` is modelled as rounding half away from zero, so binary rounding artefacts are not captured.
- The percentage `toFixed(1)` in the category panel (`AdminPage.tsx:580`) is not modelled, for the same reason.
- The Intl price formatting on the product tile and cart is presentation only.
- ProductController.NumberOr0: `parseInt` and `parseFloat` on strings are not modelled. The body's numbers are taken as numbers.
- Mongoose's own validation, on create and on save, is modelled only for the status path that `save()` rewrites (`OrderController.OrderStore.SaveStatus`). The other paths of a stored order are taken to pass on save. Casting and strict mode are not modelled. `ProductModel.Valid` and `OrderModel.Valid` state the schema's rules on the document alone.
- OrderController.OrderStore.CreateOrder: the store call is modelled as succeeding. `SchemaChecks.CreatedOrderNeverValid` shows that the schema's create-time validation refuses every order the controller builds, so the program answers 500 instead.
- ProductController.ProductStore.CreateProduct: the store call is modelled as succeeding. `SchemaChecks.CreatedProductNeverValid` shows that the schema's create-time validation refuses every product the controller builds, so the program answers 500 "Error creating product" instead.
- ProductController.ProductStore.UpdateProduct: the patch is applied without the validators that `runValidators: true` runs, so a patch the schema refuses is modelled as stored.
- The `populate` of `getOrderById` is modelled through the accounts it can resolve. The other populate calls are not.
- The `else` branch of `createOrder` (`orderController.js:19-24`) is unreachable, because `Order.create` returns a document or throws. It is not modelled.
- OrderController.OrderStore.GetOrders: the model returns a map, so the order of Mongo's result is not modelled.
- AdminController.GroupLines: `$group` output has no defined order. The model lists groups by first appearance, and the stable sort keeps that order among ties.
- Recent orders and sales by month use `createdAt` windows and `$sort` on dates. Only the month label is modelled.
- Concurrent requests and React re-render timing: each handler is one atomic step.
- Data fetching in effects (products, users, orders, analytics) is left out. So is the checkout form's pre-filling of `fullName` and `email` from the signed-in user (`CheckoutPage.tsx:52-60`). These effects only fill state that the methods take as input.
- Js.IsSpace: the white-space set follows ECMAScript's WhiteSpace and LineTerminator code points as of Unicode 15. Later additions to the Unicode space-separator category are not tracked.
- Authentication (password checks, tokens, `AuthContext`) is not part of this model. The user is an input.

## Findings

| source | as written | input that shows it | evidently intended | confidence | as-written member | corrected member |
|---|---|---|---|---|---|---|
| client/src/pages/CartPage.tsx:151-155 | the hint asks for `50 - subtotal` more, but shipping is free only strictly above 50 (line 19) | subtotal 40: the hint says add 10, and a subtotal of 50 still pays 9.99 | an amount that reaches free shipping | not executed; medium | CartPage.HintedAmountNotEnough | CartPage.CorrectedHint |
| server/controllers/adminController.js:69-79 | the top products are re-read with `Product.find` and mapped in catalogue order, losing the `$sort` | ranking [b sold 5, a sold 1] with catalogue order [a, b] comes back as [a, b] | the top products in descending quantity | not executed; medium | AdminController.JoinedUnsorted | AdminController.RankedJoinSorted |
| client/src/pages/ProductsPage.tsx:14 | `currentPage` is not reset or clamped when filtering shortens the list | on page 2, filter down to 5 products: page 2 is empty and the bar (line 252) is hidden, so nothing navigates back | the shown page clamped to the existing pages | not executed; medium | ProductsPage.StalePageShowsNothing | ProductsPage.ShownPageNonEmpty |
