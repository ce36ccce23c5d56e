# nyraa-ecom storefront logic in Dafny

This project models the client-side logic of the nyraa-ecom storefront and proves properties of the model.

- **Cart and wishlist stores.** The cart store keys lines by product id plus variant and sums prices and quantities. The wishlist deduplicates by id. Both mirror their lists into browser storage.
- **Offline address book.** Add, edit, delete and set-default run over a stored list, together with the single-default rule and the required-field check of the address form.
- **Order API client.** This covers where the bearer token and the user record are looked up, the "authenticated" predicate, the auth header, the guard every order call runs before sending, and how each call turns a failed response into a message. It also builds the orders query.
- **Checkout page.** This covers the server/session readiness check, the SAVE10 coupon, the totals, the five pre-flight checks in their fixed order, the order payload built from the cart, and how a failed order is classified.
- **Order list and order detail pages.** This covers cancel and return eligibility, the status badge, the image and name fallbacks, the payment-method label, the two-item preview, the pagination bar, the start-up sequence and the height of the PDF invoice's item block.
- **Sign-in page.** This covers the e-mail shape check (proved equal to the page's regular expression), the OTP sanitiser and length gate, the normalised address every request carries, the resend countdown and the form shown in each state.
- **"Trending Styles" carousel.** This covers the width breakpoints, drag-versus-click with a 5-pixel threshold, the scroll offset while dragging, and snapping to the nearest card.

The model works as follows:

- Browser storage is an abstract map from keys to slots. A slot is a parsed value, the empty string, or text that does not parse.
- Money is integer paise. The totals are exact `real`s.
- Pixels are integers.
- Network replies, the clock, fresh ids and parsed dates are parameters. Each handler receives what its request returned or threw.
- Objects whose fields the page updates are classes: `Cart.CartStore`, `Wishlist.WishlistStore`, `AddressBook.LocalAddressBook`, `Checkout.CheckoutPage`, `Orders.OrdersPage`, `Login.LoginScreen` and `Carousel.Strip`. Each method states its whole new state.
- Pure helpers of the source are functions, and their properties are lemmas.

Files:

| file | modules |
|---|---|
| `seqs.dfy` | `Options`, `Seqs` (filter, findIndex, sums), `Storage` |
| `text.dfy` | `Text` (whitespace, startsWith, includes, case mapping, trim, decimal print) |
| `cart.dfy` | `Cart` |
| `wishlist.dfy` | `Wishlist` |
| `addresses.dfy` | `AddressBook` |
| `orderservice.dfy` | `OrderService` |
| `images.dfy` | `Images` (the "http" / upload-directory rule shared by the pages) |
| `checkout.dfy` | `Checkout` |
| `orders.dfy` | `OrderStatus` (the badge switch both order pages share), `Orders` |
| `orderdetail.dfy` | `OrderDetail` |
| `login.dfy` | `Login` |
| `carousel.dfy` | `Carousel` |

## Model

| member | source | states |
|---|---|---|
| Seqs.FindIndex | nyraa-ecom/src/store/cartSlice.js:39-42 | The `findIndex` scan returns the first index whose element satisfies the predicate, or -1 when none does. |
| Seqs.FilterConcat | nyraa-ecom/src/store/cartSlice.js:69 | `filter` distributes over concatenation, so it keeps the surviving elements in their original order. |
| Cart.CartAdd | nyraa-ecom/src/store/cartSlice.js:35-65 | The cart after `addToCart`: the first line with the same id and variant gains the quantity, else a new line is appended. `AddToExistingLine`, `AddNewLine`, `AddGrowsItemCount` and `AddKeepsPositive` state its properties. |
| Cart.CartRemove | nyraa-ecom/src/store/cartSlice.js:67-71 | The cart after `removeFromCart`: every line with the id is dropped. `RemoveDropsExactlyId` and `RemoveKeepsOrder` state its properties. |
| Cart.CartSetQuantity | nyraa-ecom/src/store/cartSlice.js:73-80 | The cart after `updateQuantity`: the first line with the id gets a positive quantity. `SetQuantityFirstLine` and `SetQuantityNoop` state its properties. |
| Cart.CartTotal | nyraa-ecom/src/store/cartSlice.js:98-99 | `selectCartTotal`, the sum of price·quantity over the lines. `CartTotalIsLineSum` characterises it. |
| Cart.ItemCount | nyraa-ecom/src/store/cartSlice.js:100 | `selectCartItemCount`, the sum of the quantities. `ItemCountIsQuantitySum` characterises it. |
| Cart.LoadCart | nyraa-ecom/src/store/cartSlice.js:4-15 | An absent "cart" key gives []. Text that does not parse gives []. Otherwise the result is the stored list. |
| Cart.AddToExistingLine | nyraa-ecom/src/store/cartSlice.js:36-46 | When the first line with the same id, color, size, type and carat is at k, only line k changes. Its quantity grows by the payload quantity (default 1), and the line count is unchanged. |
| Cart.AddNewLine | nyraa-ecom/src/store/cartSlice.js:47-61 | With no matching line, exactly one line is appended. It carries the payload fields and quantity, and the old lines form the prefix. |
| Cart.AddGrowsItemCount | nyraa-ecom/src/store/cartSlice.js:36-61 | On either branch, the item count after `addToCart` is the old count plus the added quantity. |
| Cart.AddKeepsPositive | nyraa-ecom/src/store/cartSlice.js:36-61 | Adding a positive quantity keeps every line's quantity at least 1. |
| Cart.RemoveDropsExactlyId | nyraa-ecom/src/store/cartSlice.js:67-71 | After removal no line has the id, whatever its variant. Every line without the id is still present, and nothing new appears. |
| Cart.RemoveKeepsOrder | nyraa-ecom/src/store/cartSlice.js:69 | Removal distributes over concatenation (order is kept). A cart without the id is unchanged. |
| Cart.SetQuantityFirstLine | nyraa-ecom/src/store/cartSlice.js:73-80 | With q > 0, only the first line with the id gets quantity q. All other lines and the length are unchanged. |
| Cart.SetQuantityNoop | nyraa-ecom/src/store/cartSlice.js:76 | A quantity of at most 0, or an unknown id, leaves the cart unchanged. |
| Cart.CartTotalIsLineSum | nyraa-ecom/src/store/cartSlice.js:98-99 | `selectCartTotal` is 0 on the empty cart and price·quantity on one line, and it adds over concatenation. |
| Cart.ItemCountIsQuantitySum | nyraa-ecom/src/store/cartSlice.js:100 | `selectCartItemCount` is 0 on the empty cart and the quantity on one line, and it adds over concatenation. |
| Cart.SaveThenLoad | nyraa-ecom/src/store/cartSlice.js:4-25 | Loading after a save returns the saved list. Loading after the key is removed returns []. |
| Cart.CartStore.constructor | nyraa-ecom/src/store/cartSlice.js:27-29 | The initial items are what `loadCartFromStorage` returns. |
| Cart.CartStore.Save | nyraa-ecom/src/store/cartSlice.js:18-25 | Writes the items under "cart" and touches nothing else. |
| Cart.CartStore.AddToCart | nyraa-ecom/src/store/cartSlice.js:35-65 | The new items are `CartAdd` of the old ones, and storage is synced. |
| Cart.CartStore.RemoveFromCart | nyraa-ecom/src/store/cartSlice.js:67-71 | The new items are the old ones without the id, and storage is synced. |
| Cart.CartStore.UpdateQuantity | nyraa-ecom/src/store/cartSlice.js:73-80 | The new items are `CartSetQuantity` of the old ones. Storage is written only when a line changed. |
| Cart.CartStore.ClearCart | nyraa-ecom/src/store/cartSlice.js:82-85 | Items become [] and the "cart" key is removed. |
| Cart.CartStore.LoadFromStorage | nyraa-ecom/src/store/cartSlice.js:88-90 | Items are reloaded from storage, and storage is unchanged. |
| Wishlist.LoadWishlist | nyraa-ecom/src/store/wishlistSlice.js:6 | An absent key gives []. A stored list is returned. Text that does not parse (the empty string included) makes initialisation fail. |
| Wishlist.WishlistAdd | nyraa-ecom/src/store/wishlistSlice.js:9-15 | The list after `addToWishlist`: unchanged when the id is listed, else the product appended. `AddAppendsIffNew`, `AddIdempotent` and `AddKeepsUnique` state its properties. |
| Wishlist.WishlistRemove | nyraa-ecom/src/store/wishlistSlice.js:16-20 | The list after `removeFromWishlist`: every entry with the id is dropped. `RemoveSpec` and `RemoveKeepsUnique` state its properties. |
| Wishlist.AddAppendsIffNew | nyraa-ecom/src/store/wishlistSlice.js:9-15 | The product is appended if and only if no item has its id. Otherwise the list is unchanged, in both directions. |
| Wishlist.AddIdempotent | nyraa-ecom/src/store/wishlistSlice.js:11-14 | After an add the id is listed, so adding the same product again is a no-op. |
| Wishlist.AddKeepsUnique | nyraa-ecom/src/store/wishlistSlice.js:11 | `addToWishlist` preserves unique ids. |
| Wishlist.RemoveKeepsUnique | nyraa-ecom/src/store/wishlistSlice.js:16-20 | `removeFromWishlist` preserves unique ids. |
| Wishlist.RemoveSpec | nyraa-ecom/src/store/wishlistSlice.js:16-20 | No entry with the id remains, every other entry does, and the order is kept. |
| Wishlist.WishlistStore.constructor | nyraa-ecom/src/store/wishlistSlice.js:5-7 | The initial items are the parsed "wishlist" list, or [] when the key is absent. |
| Wishlist.WishlistStore.AddToWishlist | nyraa-ecom/src/store/wishlistSlice.js:9-15 | Items become `WishlistAdd`. A listed id writes nothing to storage, and a new one writes the list. Unique ids and sync are preserved. |
| Wishlist.WishlistStore.RemoveFromWishlist | nyraa-ecom/src/store/wishlistSlice.js:16-20 | Items become `WishlistRemove`, storage is synced, and unique ids are preserved. |
| AddressBook.LoadAddresses | nyraa-ecom/src/pages/MyAccount/Addresses.jsx:122-125 | An absent key gives [], and so does the empty string. Text that does not parse, and only that, is a failure. Otherwise the result is the stored list. |
| AddressBook.RequiredFilled | nyraa-ecom/src/pages/MyAccount/Addresses.jsx:245-251 | The required-field check of `handleSubmit`: name, street, city, state, zip and phone all non-empty. When it fails, `LocalAddressBook.Submit` reports the missing fields and stores nothing. |
| AddressBook.ReplaceById | nyraa-ecom/src/pages/MyAccount/Addresses.jsx:131 | Same length. Each entry with the id becomes the form data with that id, and the others are kept. |
| AddressBook.MarkDefault | nyraa-ecom/src/pages/MyAccount/Addresses.jsx:162-165 | Same length. Each entry's flag becomes (entry id = target), and all other fields are kept. |
| AddressBook.SavedList | nyraa-ecom/src/pages/MyAccount/Addresses.jsx:127-151 | The list `saveAddress` stores: an edit replaces by id, anything else appends, and a default form then marks its target. The `Save…` lemmas below state its properties. |
| AddressBook.SaveEditReplaces | nyraa-ecom/src/pages/MyAccount/Addresses.jsx:130-131 | With a non-default form, an edit with a truthy id replaces exactly the entries with that id by the form data carrying that id, keeps every other entry and keeps the length. |
| AddressBook.SaveAppends | nyraa-ecom/src/pages/MyAccount/Addresses.jsx:132-139 | With a non-default form, any other save, including an edit with a null id, appends one record with the fresh id and time stamp. The old entries stay untouched. |
| AddressBook.SaveDefaultMarksTarget | nyraa-ecom/src/pages/MyAccount/Addresses.jsx:142-147 | With a default form, exactly the entries whose id is the target (addressId, else the appended id) are default. |
| AddressBook.DefaultSaveIsMarkedPlainSave | nyraa-ecom/src/pages/MyAccount/Addresses.jsx:130-147 | A save with a default form is the non-default save followed by marking the target default. Its contents are therefore those stated by `SaveEditReplaces` and `SaveAppends`, with every flag set to (id = target) by `MarkDefault`. |
| AddressBook.SaveKeepsUniqueIds | nyraa-ecom/src/pages/MyAccount/Addresses.jsx:127-151 | With unique ids and a fresh id, a save keeps ids unique. |
| AddressBook.SaveKeepsSingleDefault | nyraa-ecom/src/pages/MyAccount/Addresses.jsx:142-147 | With unique ids and a fresh id, a save never leaves two defaults. A non-default append keeps the old flags. |
| AddressBook.SetDefaultSpec | nyraa-ecom/src/pages/MyAccount/Addresses.jsx:160-168 | Each flag is (entry id = id) and the length is unchanged. With unique ids at most one default remains, and an unknown id clears them all. |
| AddressBook.DeleteSpec | nyraa-ecom/src/pages/MyAccount/Addresses.jsx:153-158 | No entry with the id remains, every other entry does, and the order is kept. |
| AddressBook.LocalAddressBook.constructor | nyraa-ecom/src/pages/MyAccount/Addresses.jsx:120-126 | The offline service reads and writes the given browser storage. |
| AddressBook.LocalAddressBook.SaveAddress | nyraa-ecom/src/pages/MyAccount/Addresses.jsx:127-151 | Stores and returns `SavedList` of the loaded list. When the stored text does not parse, it fails without writing. |
| AddressBook.LocalAddressBook.DeleteAddress | nyraa-ecom/src/pages/MyAccount/Addresses.jsx:153-158 | Stores and returns the loaded list without the id. When the stored text does not parse, it fails without writing. |
| AddressBook.LocalAddressBook.SetDefaultAddress | nyraa-ecom/src/pages/MyAccount/Addresses.jsx:160-168 | Stores and returns `MarkDefault(loaded, id)`. When the stored text does not parse, it fails without writing. |
| AddressBook.LocalAddressBook.Submit | nyraa-ecom/src/pages/MyAccount/Addresses.jsx:241-285 | A missing name, street, city, state, zip or phone stores nothing. A token with a successful API save stores nothing locally. Otherwise the local save runs: it stores the saved list, or fails on unparsable storage. |
| OrderService.TokenPrecedence | nyraa-ecom/src/services/orderService.js:5-13 | The token is the first truthy source among local token, authToken and accessToken, then session token and authToken. |
| OrderService.NoTokenSource | nyraa-ecom/src/services/orderService.js:5-13 | The token is falsy if and only if all five sources are falsy. |
| OrderService.GetAuthToken | nyraa-ecom/src/services/orderService.js:5-13 | The first truthy of the five token slots. `TokenPrecedence` and `NoTokenSource` characterise it. |
| OrderService.GetUserData | nyraa-ecom/src/services/orderService.js:16-24 | "user" is preferred over "userData". Absent keys give {}, and so does text that does not parse. |
| OrderService.GetAuthHeaders | nyraa-ecom/src/services/orderService.js:27-35 | The JSON content type is always set. Authorization is "Bearer " + token with a token, else "". |
| OrderService.IsAuthenticated | nyraa-ecom/src/services/orderService.js:85-89 | A truthy token and a truthy user email. `AuthenticatedIff` relates it to the five token slots and the header. |
| OrderService.AuthenticatedIff | nyraa-ecom/src/services/orderService.js:85-89 | Authenticated if and only if one of the five token slots is truthy and the user record has a truthy email. Then the header starts with "Bearer ". A user record missing under both keys means not authenticated. |
| OrderService.Perform | nyraa-ecom/src/services/orderService.js:105-155 | A request is sent if and only if the caller is authenticated. Otherwise the call's "Please log in…" error is thrown. A network failure gives the connection message. A non-OK status gives `ErrorMessage`. An OK reply returns its JSON body. The five order calls share this shape. |
| OrderService.Status401 | nyraa-ecom/src/services/orderService.js:134-136 | Status 401 always gives "Authentication required. Please log in again.", whatever the call and body. |
| OrderService.BodyMessage | nyraa-ecom/src/services/orderService.js:125-131 | The message of a failed response, chosen by the inner try/catch. `MessagePrecedence` states its four cases. |
| OrderService.ErrorMessage | nyraa-ecom/src/services/orderService.js:121-138 | The message thrown for a non-OK status. `Status401` and `OnlyCreatePrefixes` state its cases. |
| OrderService.MessagePrecedence | nyraa-ecom/src/services/orderService.js:125-131 | A body that parses to a value other than null decides by its own message. A truthy message wins. A missing or falsy one gives the call's default, as for a number, string or array body. Text that does not parse, or "null", gives the raw text when it is non-empty, else the default. |
| OrderService.OnlyCreatePrefixes | nyraa-ecom/src/services/orderService.js:134-138 | For status other than 401, only createOrder prefixes "Server Error (status): ". The other calls report the message as it is. |
| OrderService.OrdersQuery | nyraa-ecom/src/services/orderService.js:164-171 | page and limit always come first. A status entry exists if and only if the status is truthy, and then it is the only extra entry. Otherwise there are exactly two entries. |
| OrderService.Serialize | nyraa-ecom/src/services/orderService.js:164-173 | `params.toString()`: the entries as key=value joined by "&", in order. `OrdersQuerySerialized` gives its value on every query. |
| OrderService.OrdersQuerySerialized | nyraa-ecom/src/services/orderService.js:158-173 | For every page, limit and status, the query string is "page=<page>&limit=<limit>". It is followed by "&status=<status>" exactly when the status is truthy. |
| Images.Resolve | nyraa-ecom/src/pages/MyAccount/Orders.jsx:211-217 | "http" references pass through, and anything else gets the "/uploads/products/" prefix. The result is always one of the two forms. |
| Images.FirstEntry | nyraa-ecom/src/pages/MyAccount/Orders.jsx:219-233 | A string first entry is resolved. An object's truthy url is resolved. Anything else, or no entry, contributes nothing. |
| Checkout.TotalCases | nyraa-ecom/src/pages/Checkout.jsx:224-230 | The total is 1.08·subtotal + shipping without the coupon and 0.98·subtotal + shipping with it. The difference is 10% of the subtotal. |
| Checkout.Total | nyraa-ecom/src/pages/Checkout.jsx:224-230 | `getTotal` before rounding: subtotal + shipping + 8% tax − coupon rate·subtotal. `TotalCases` gives its value with and without the coupon. |
| Checkout.CouponIff | nyraa-ecom/src/pages/Checkout.jsx:204-218 | The coupon matches if and only if the code is "save10" in any letter case. |
| Checkout.ProductImage | nyraa-ecom/src/pages/Checkout.jsx:232-260 | `getProductImage` of the checkout page. `ProductImageCases` states its precedence and the form of every result. |
| Checkout.ProductImageCases | nyraa-ecom/src/pages/Checkout.jsx:232-260 | A real image (not the external placeholder) wins and is resolved. Then the first gallery entry is used, then the fixed placeholder. |
| Checkout.FindAddress | nyraa-ecom/src/pages/Checkout.jsx:297 | A found address is in the list and has the id. Nothing is found if and only if no entry has the id. |
| Checkout.Preflight | nyraa-ecom/src/pages/Checkout.jsx:262-304 | A cleared order carries the selected address, which is in the list. |
| Checkout.PreflightFirstFailure | nyraa-ecom/src/pages/Checkout.jsx:262-304 | The order is cleared if and only if none of the five checks fails. A blocked order reports the first failing check, in the order offline, login, no address, empty cart, unknown address. |
| Checkout.Nullable | nyraa-ecom/src/pages/Checkout.jsx:342-345 | A falsy variant field is sent as null, and a truthy one as itself. |
| Checkout.OrderLines | nyraa-ecom/src/pages/Checkout.jsx:334-347 | One payload line per cart line, in cart order. |
| Checkout.OrderLinesTotal | nyraa-ecom/src/pages/Checkout.jsx:333-340 | The payload's line totals add up to the cart total. |
| Checkout.BuildOrder | nyraa-ecom/src/pages/Checkout.jsx:314-357 | The `orderData` payload. `BuildOrderSpec` states every field and `OrderLinesTotal` the line sum. |
| Checkout.BuildOrderSpec | nyraa-ecom/src/pages/Checkout.jsx:314-357 | The payload has one line per cart line, in cart order. Each line carries the id, name, resolved image, quantity and unit price of its cart line, and totalPrice = price·quantity. All four variant fields are nulled exactly when falsy. Shipping copies the address with the type defaulting to "home", and billing equals shipping. The payment method defaults to "creditCard". The subtotal is the cart total, shipping is the fee, the lines sum to the subtotal, and total = subtotal + shipping + tax − discount. |
| Checkout.SummaryLines | nyraa-ecom/src/pages/Checkout.jsx:371-379 | The "lastOrder" record has one summary line per cart line, in order. |
| Checkout.Summary | nyraa-ecom/src/pages/Checkout.jsx:364-408 | The "lastOrder" record: the reply's ids, the summary lines, the payload's totals and the address, status "pending". `SummaryLines` states its lines. |
| Checkout.Classify | nyraa-ecom/src/pages/Checkout.jsx:409-433 | The catch block's three ways of reporting an error. `ClassifyServiceErrors` and `ClassifyBySubstring` state when each is taken. |
| Checkout.Settle | nyraa-ecom/src/pages/Checkout.jsx:361-433 | Placed if and only if the reply has `success`. A thrown message, or the reply's message (else "Failed to create order") when `success` is false, is classified by the catch block. |
| Checkout.CheckoutPage.constructor | nyraa-ecom/src/pages/Checkout.jsx:14-42 | The initial page state: both statuses "checking", not ready and not logged in, no coupon, no selected address, payment method "creditCard", no instructions and no "lastOrder". |
| Checkout.ClassifyServiceErrors | nyraa-ecom/src/pages/Checkout.jsx:310-312 | The service's expired-session and 401 messages lead to the login redirect. |
| Checkout.ClassifyBySubstring | nyraa-ecom/src/pages/Checkout.jsx:412-433 | Either session phrase anywhere leads to the login redirect. The connection phrase without them leads to the connection notice. |
| Checkout.CheckoutPage.CheckSystemStatus | nyraa-ecom/src/pages/Checkout.jsx:50-136 | systemReady holds if and only if health is OK, credentials are present and testAuth succeeds. `testAuth` is consulted only with credentials. A failed health probe gives offline/unknown. Missing credentials or a failed test give unauthenticated. |
| Checkout.CheckoutPage.ApplyCoupon | nyraa-ecom/src/pages/Checkout.jsx:204-218 | The rate is 0.1 if the upper-cased code is "SAVE10", otherwise it is reset to 0. Nothing else changes. |
| Checkout.CheckoutPage.ConfirmOrder | nyraa-ecom/src/pages/Checkout.jsx:262-437 | `Preflight` refusals come first. The order is sent if and only if the checks pass and the credentials are still present, and the payload is `BuildOrder`. A sent order ends in `Settle` of the service's result, so it is Placed if and only if the server reports success, and any other outcome is the classified failure. Only a placed order clears the cart and writes "lastOrder"; otherwise the cart is untouched. |
| Checkout.CheckoutPage.Record | nyraa-ecom/src/pages/Checkout.jsx:362-408 | The outcome is `Settle` of the result. success stores the summary and clears the cart (store and key). Anything else is classified and changes nothing. |
| OrderStatus.BadgeClass | nyraa-ecom/src/pages/MyAccount/Orders.jsx:185-198 | The result is one of the five badge classes. |
| OrderStatus.BadgeClassSpec | nyraa-ecom/src/pages/MyAccount/OrderDetail.jsx:173-186 | The four known statuses get distinct classes. Every other status, "pending" included, gets bg-warning, in both directions. |
| Orders.CancelEligibleIff | nyraa-ecom/src/pages/MyAccount/Orders.jsx:135-137 | An order is cancellable if and only if its status is "pending" or wears the processing badge. A cancellable order has the warning or processing badge, and one badged delivered, cancelled or shipped is never cancellable. |
| Orders.IsCancelEligible | nyraa-ecom/src/pages/MyAccount/Orders.jsx:135-137 | The status is "pending" or "processing". `CancelEligibleIff` relates it to the status badge. |
| Orders.ProductImagePrecedence | nyraa-ecom/src/pages/MyAccount/Orders.jsx:209-236 | productImage wins, then the product's first image, then the placeholder. Every result is resolved or the placeholder. |
| Orders.ProductImage | nyraa-ecom/src/pages/MyAccount/Orders.jsx:209-236 | `getProductImage` of the order list. `ProductImagePrecedence` states its precedence. |
| Orders.ProductName | nyraa-ecom/src/pages/MyAccount/Orders.jsx:239-241 | productName, else product.name, else "Product". The result is never empty. |
| Orders.PreviewSpec | nyraa-ecom/src/pages/MyAccount/Orders.jsx:342-374 | The preview is the first items, at most 2. The "+n more items" note appears if and only if items are hidden, and n is the number of hidden items. |
| Orders.Preview | nyraa-ecom/src/pages/MyAccount/Orders.jsx:342 | The first two items of an order card. `PreviewSpec` states its properties. |
| Orders.MoreNote | nyraa-ecom/src/pages/MyAccount/Orders.jsx:372-374 | The "+n more items" note. `PreviewSpec` states when it appears and that n is the number of items the preview hides. |
| Orders.PageNumbers | nyraa-ecom/src/pages/MyAccount/Orders.jsx:406 | The buttons are numbered 1..n. |
| Orders.PaginationBarSpec | nyraa-ecom/src/pages/MyAccount/Orders.jsx:392-424 | The bar appears if and only if totalPages > 1. Its buttons are 1..totalPages in increasing order, and a button is active if and only if it is the current page. Prev/Next target current∓1 and are disabled by !hasPrev/!hasNext. |
| Orders.PaginationBar | nyraa-ecom/src/pages/MyAccount/Orders.jsx:392-424 | The bar of Previous, numbered pages and Next. `PaginationBarSpec` and `OneActivePage` state its properties. |
| Orders.OneActivePage | nyraa-ecom/src/pages/MyAccount/Orders.jsx:407 | With the current page in range, exactly one button is active. |
| Orders.OrdersPage.constructor | nyraa-ecom/src/pages/MyAccount/Orders.jsx:15-36 | The initial state: no orders, loading, the one-page pagination with no neighbours, and both statuses "checking". |
| Orders.OrdersPage.FetchOrders | nyraa-ecom/src/pages/MyAccount/Orders.jsx:99-123 | success replaces the orders and pagination. A failure or refusal keeps them and yields the message or "Failed to fetch orders". Loading ends false. |
| Orders.OrdersPage.CheckSystemAndFetch | nyraa-ecom/src/pages/MyAccount/Orders.jsx:42-97 | Orders are fetched if and only if both health and auth succeed. Server and auth status follow the probes. A failed probe keeps the orders and pagination and toasts its own message. After a fetch, success replaces the orders and pagination, and a failure keeps them and toasts the message or "Failed to fetch orders". |
| OrderDetail.ReturnEligibleIff | nyraa-ecom/src/pages/MyAccount/OrderDetail.jsx:65-77 | An order is returnable if and only if it exists, is delivered, and has a delivery date that parses and lies at most 30 days' worth of milliseconds back. |
| OrderDetail.IsReturnEligible | nyraa-ecom/src/pages/MyAccount/OrderDetail.jsx:65-77 | `isReturnEligible`, with the elapsed milliseconds divided into days as a real quotient. `ReturnEligibleIff` restates the window as an integer comparison of milliseconds. |
| OrderDetail.HandleReturn | nyraa-ecom/src/pages/MyAccount/OrderDetail.jsx:152-161 | Navigates to "/account/orders/<id>/return" if and only if the order is returnable. |
| OrderDetail.TrackNotice | nyraa-ecom/src/pages/MyAccount/OrderDetail.jsx:138-150 | The tracking number when present, else the "not available" message. |
| OrderDetail.TrackNoticeIff | nyraa-ecom/src/pages/MyAccount/OrderDetail.jsx:138-150 | The notice starts "Tracking Number: " if and only if there is a tracking number. |
| OrderDetail.PaymentLabel | nyraa-ecom/src/pages/MyAccount/OrderDetail.jsx:232 | The label never starts or ends with whitespace. |
| OrderDetail.SpaceCapitals | nyraa-ecom/src/pages/MyAccount/OrderDetail.jsx:232 | A space before every capital letter. `PaymentLabelRoundTrip` inverts it by deleting the spaces. |
| OrderDetail.PaymentLabelRoundTrip | nyraa-ecom/src/pages/MyAccount/OrderDetail.jsx:232 | For a whitespace-free method name, deleting the spaces of the label gives the name back. |
| OrderDetail.VariantLinesBound | nyraa-ecom/src/pages/MyAccount/OrderDetail.jsx:114-121 | There are at most as many variant lines as items, and none when no item has a color or size. |
| OrderDetail.VariantLines | nyraa-ecom/src/pages/MyAccount/OrderDetail.jsx:114-121 | The number of items that get a variant line in the invoice. `VariantLinesBound` bounds it and `PdfTotalLine` uses it. |
| OrderDetail.PdfTotalLine | nyraa-ecom/src/pages/MyAccount/OrderDetail.jsx:111-133 | The loop's y: items start at 140, 10 per item plus 10 per variant line, then 10 of space, 10 for a discount, and the total 40 below. |
| Login.ValidEmailIff | nyraa-ecom/src/pages/Login.jsx:53-59 | The check accepts exactly the strings matching `^[^\s@]+@[^\s@]+\.[^\s@]+$`, in both directions. |
| Login.ValidEmailOneAt | nyraa-ecom/src/pages/Login.jsx:53-59 | An accepted address holds exactly one "@". |
| Login.ValidEmail | nyraa-ecom/src/pages/Login.jsx:53-59 | The executable e-mail check. `ValidEmailIff` proves it equal to the regular expression. |
| Login.EmailError | nyraa-ecom/src/pages/Login.jsx:47-59 | No error if and only if the address is valid. Empty gives "Please enter your email", and invalid gives the invalid-address message. |
| Login.SanitizeOtpSpec | nyraa-ecom/src/pages/Login.jsx:341 | The field holds the first min(6, number of digits typed) digits, all digits, a prefix of the digits typed, and sanitising is idempotent. |
| Login.SanitizeOtp | nyraa-ecom/src/pages/Login.jsx:341 | The OTP input's digit filter and six-character cut. `SanitizeOtpSpec` states its properties. |
| Login.OtpError | nyraa-ecom/src/pages/Login.jsx:84-94 | No error if and only if the OTP has length 6. Empty and wrong-length codes get their own messages. |
| Login.SanitizedOtpPasses | nyraa-ecom/src/pages/Login.jsx:84-94 | A field filled from six or more digits passes the length gate. |
| Login.NormalizeEmailSpec | nyraa-ecom/src/pages/Login.jsx:63 | The address sent has no upper-case letter, no whitespace at either end and is no longer than typed, and normalising is idempotent. |
| Login.NormalizeEmail | nyraa-ecom/src/pages/Login.jsx:63 | `email.toLowerCase().trim()`. `NormalizeEmailSpec` states its properties. |
| Login.StoredToken | nyraa-ecom/src/pages/Login.jsx:141 | What `localStorage.setItem("token", …)` stores: the token, or the text "undefined" when it is missing. `LoginSubmit` uses it. |
| Login.LoginScreen.constructor | nyraa-ecom/src/pages/Login.jsx:233-238 | Mounting removes token, userData and isLoggedIn from storage and shows the email form. |
| Login.LoginScreen.Screen | nyraa-ecom/src/pages/Login.jsx:270-325 | The reset form if and only if forgotPassword. Otherwise the email form if and only if !otpSent, else the OTP form if and only if !otpVerified, else the password form. |
| Login.LoginScreen.EnterOtp | nyraa-ecom/src/pages/Login.jsx:341 | The field holds the sanitised input. |
| Login.LoginScreen.SendOtp | nyraa-ecom/src/pages/Login.jsx:42-77 | A request goes out if and only if the e-mail check passes, carrying the normalised address. Success sets otpSent, countdown 60 and the success message. A thrown error shows the server's message or the default. A reply without success leaves both messages cleared. Otherwise otpSent and the countdown are kept. |
| Login.LoginScreen.EmailRequest | nyraa-ecom/src/pages/Login.jsx:47-64 | The normalised address is posted if and only if there is no e-mail error. Otherwise the error is shown. |
| Login.LoginScreen.SendOtpReply | nyraa-ecom/src/pages/Login.jsx:66-76 | Success sets otpSent, countdown 60 and the message. A throw sets the error. The countdown stays within 60. |
| Login.LoginScreen.StoreSession | nyraa-ecom/src/pages/Login.jsx:105-109 | Stores token, userData and isLoggedIn "true", shows the redirect message and targets the profile page. |
| Login.LoginScreen.VerifyOtp | nyraa-ecom/src/pages/Login.jsx:79-121 | A request goes out if and only if the OTP passes the gate, carrying the normalised address and trimmed code. A token stores the session. Success without a token only sets otpVerified. A throw shows the error. A reply without success leaves both messages cleared. Otherwise nothing is stored. |
| Login.LoginScreen.VerifyOtpReply | nyraa-ecom/src/pages/Login.jsx:102-120 | The token branch stores the session. Success without a token sets otpVerified and the set-password message. A throw sets the error. |
| Login.LoginScreen.LoginSubmit | nyraa-ecom/src/pages/Login.jsx:123-153 | A request goes out if and only if the e-mail and password are both filled, with the normalised address. Success stores the session (a missing token as "undefined"). A throw shows the error. A reply without success leaves both messages cleared and stores nothing. |
| Login.LoginScreen.ForgotSubmit | nyraa-ecom/src/pages/Login.jsx:184-209 | A request goes out if and only if the reset address is filled, and it is normalised. The reply's message becomes the success notice, and a throw the error. |
| Login.LoginScreen.ResendOtp | nyraa-ecom/src/pages/Login.jsx:211-231 | While the countdown is positive nothing changes. Otherwise the normalised address is posted, and success restarts the countdown at 60. A reply without success leaves both messages cleared. |
| Login.LoginScreen.ResendOtpReply | nyraa-ecom/src/pages/Login.jsx:222-229 | Success restarts the countdown with the resend message. A throw shows the error. |
| Login.LoginScreen.Tick | nyraa-ecom/src/pages/Login.jsx:27-33 | The countdown decreases by 1 while positive and stays at 0 otherwise. |
| Login.LoginScreen.BackToEmail | nyraa-ecom/src/pages/Login.jsx:385-390 | Clears otpSent, the OTP and the messages, so the email form shows. |
| Login.LoginScreen.ShowForgotPassword | nyraa-ecom/src/pages/Login.jsx:316-319 | The reset form shows. |
| Login.LoginScreen.BackToLogin | nyraa-ecom/src/pages/Login.jsx:567-571 | Leaves the reset form for the form the OTP state selects, and clears the messages. |
| Carousel.VisibleCards | nyraa-ecom/src/components/TrendingStyles/TrendingStyles.jsx:31-40 | The card count is one of 1, 2, 4 or 5. |
| Carousel.VisibleCardsMonotone | nyraa-ecom/src/components/TrendingStyles/TrendingStyles.jsx:31-40 | A wider window never shows fewer cards, and the count steps up at 768, 992 and 1200. |
| Carousel.SnapBounds | nyraa-ecom/src/components/TrendingStyles/TrendingStyles.jsx:92-98 | The snapped offset is a whole number of card pitches, within half a pitch of the release position (ties go to the next card, as `Math.round` does). |
| Carousel.SnapIsNearest | nyraa-ecom/src/components/TrendingStyles/TrendingStyles.jsx:94-96 | No other card boundary is closer to the release position. |
| Carousel.SnapIdempotent | nyraa-ecom/src/components/TrendingStyles/TrendingStyles.jsx:94-96 | Snapping an already snapped offset changes nothing. |
| Carousel.NearestCard | nyraa-ecom/src/components/TrendingStyles/TrendingStyles.jsx:94 | `Math.round(pos / full)` for a positive pitch. `SnapBounds` and `SnapIsNearest` state its properties. |
| Carousel.Snap | nyraa-ecom/src/components/TrendingStyles/TrendingStyles.jsx:94-96 | The offset the strip snaps to. `SnapBounds`, `SnapIsNearest` and `SnapIdempotent` state its properties. |
| Carousel.Strip.constructor | nyraa-ecom/src/components/TrendingStyles/TrendingStyles.jsx:14-20 | The initial state: not pressed, not dragging, zero distance, 5 visible cards. |
| Carousel.Strip.Initialize | nyraa-ecom/src/components/TrendingStyles/TrendingStyles.jsx:44-56 | The first resize runs before the strip is rendered, so it changes nothing. The strip is then rendered. |
| Carousel.Strip.Resize | nyraa-ecom/src/components/TrendingStyles/TrendingStyles.jsx:27-41 | The count follows the breakpoints once the strip is rendered, and does nothing before. |
| Carousel.Strip.Press | nyraa-ecom/src/components/TrendingStyles/TrendingStyles.jsx:59-67 | A press records x and the scroll position and resets the distance to 0. It does nothing unrendered. |
| Carousel.Strip.Move | nyraa-ecom/src/components/TrendingStyles/TrendingStyles.jsx:69-82 | Ignored unless a press is under way. Otherwise the distance is recorded |x − startX|. Past 5 px dragging starts and position = scrollLeft + (startX − x). Within 5 px the position is kept. |
| Carousel.Strip.Release | nyraa-ecom/src/components/TrendingStyles/TrendingStyles.jsx:84-101 | Clears both flags. When the strip is rendered, the position snaps to the nearest multiple of cardWidth + 16. |
| Carousel.Strip.Leave | nyraa-ecom/src/components/TrendingStyles/TrendingStyles.jsx:103-109 | Clears both flags without snapping. |
| Carousel.Strip.ProductClick | nyraa-ecom/src/components/TrendingStyles/TrendingStyles.jsx:157-163 | Navigates to "/product/<id>" if and only if the distance moved is at most 5. |

## Left out

- Network I/O is not modelled. Every `fetch`/axios call is replaced by its outcome, passed as a parameter. This covers the health probe and `testAuth` (booleans), the order calls (`OrderService.Reply`), the login endpoints (`Login.Reply`) and the address API (`apiSaved`). The `addressService` calls of the address page and `loadAddresses` are not modelled past that outcome.
- Cart.CartStore.Save: a failed `localStorage.setItem` is caught and logged (cartSlice.js:19-24). Writes never fail in the model, so that catch is not modelled.
- Login.StoredToken: a token that is `null` in the reply is treated like a missing one and stored as "undefined". The source stores the text "null" for it, because `setItem` stringifies its argument.
- Real `localStorage`/`sessionStorage` and `JSON.parse`/`stringify` are not modelled. Storage is a map, a parse failure is the `Corrupt` slot or a `parse` function returning None, and serialisation is assumed to round-trip.
- Clocks and ids are parameters: `new Date()`, `Date.now()`, the delivery-date parse (None for NaN) and the ISO time stamps. The one-second timer is the `Tick` method. The `setTimeout` redirects become the `redirect` field of the sign-in page. The ones in Checkout and in Orders (Orders.jsx:78-81, the redirect to /login after a failed session check) are dropped.
- Floating point is not modelled. `toFixed(2)`, `parseFloat` and amounts that are stringified in the payload are exact integers (paise) and reals here. The checkout shipping fee of 10.00 is 1000 paise.
- Case mapping is limited. `toUpperCase`/`toLowerCase` map only ASCII letters.
- Checkout.ProductImageCases: cart lines carry no `images` field, so the payload always uses the gallery-less case. The gallery cases are stated but not reached from the cart.
- OrderService.Serialize: percent-encoding of `URLSearchParams` is not modelled. The order of parameters and `&`/`=` joining are.
- OrderService.Perform: a reply whose OK body does not parse is reported as one fixed message. The JavaScript engine's actual wording is not modelled. An OK body of "null" is treated like one that does not parse. In the source, `createOrder` returns null and the page's `result.success` then throws a TypeError.
- Checkout.CheckoutPage.ConfirmOrder: `isLoading`, the toasts and `navigate` are not modelled. A reply with `success` but without `result.order` (which would throw in the source) is not distinguished. The `order` fields are taken from the reply as given.
- Checkout.CheckoutPage.CheckSystemStatus: a failed session test only sets state (Checkout.jsx:101-104). It does not clear the local session markers, so the model leaves storage untouched.
- Checkout.ClassifyServiceErrors is the only all-inputs link proved between the service's messages and the page's classification. The connection message of `createOrder` is covered by `ClassifyBySubstring`.
- Cart.CartStore.UpdateQuantity: `updateQuantity` writes storage only when a line changed (cartSlice.js:76-78). For an unknown id or for q ≤ 0 it writes nothing, and the model does the same.
- The Checkout address modal (`handleAddNewAddress`, `getAddresses`/`saveAddress` of `profileData.js`) and the default-address selection effect are not modelled. profileData.js is not part of this model. Checkout receives its addresses as a list.
- The Orders cancel flow (`handleConfirmAction`, the confirmation modal) and the image viewer are not modelled. The cancel call's guard and error rules are those of `OrderService.Perform` with `UpdateOrderStatus`.
- `fetchOrderDetail` and the order detail page's loading state are not modelled. The detail page's functions take the order as a value.
- The jsPDF drawing calls are not modelled. Only the y-counter arithmetic of `downloadPDF` is kept.
- Google OAuth (`handleGoogleSuccess`/`handleGoogleError`) and the password visibility toggle of the sign-in page are not modelled.
- React rendering has no model here. This covers the two renders between a state update and its effect (each handler reads the state at its start), the Bootstrap modals and CSS.
- The carousel's DOM is not modelled: the "dragging" class, smooth scrolling, the browser clamping scrollLeft to the strip's extent and fractional pixel positions are outside the model. `visibleCards` is computed but never used when rendering, and the model keeps it only as a field.
- Profile.jsx, CheckoutConfirmation.jsx, FeaturedCategories.jsx, ActivewearSpotlight.jsx, ProductGrid.jsx, ProductCard.jsx and vite.config.js are presentation or configuration. They are not part of this model.
- Concurrency is not modelled. Races between tabs on storage and overlapping order submissions are outside a sequential model.
