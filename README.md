# A verified model of a PHP web shop's cart, checkout, payment and admin pages

This project models the state-changing core of a small PHP e-commerce store.

- **Cart pages.** The session cart can be added to, updated, emptied of a product and viewed.
- **Checkout.** Guest details are validated and the payment total is stored.
- **Payment.** The Stripe and PayPal initiators build the provider requests. The return page (`payment/process.php`) verifies the payment and records the order, its items and the payment in one transaction.
- **Admin pages.** Order status, user role and catalog editing.
- **Account pages.** Registration and profile editing.

The model's state has two parts:

- `Store.Session` is a class with one optional field per `$_SESSION` key the pages use. `None` means the key is unset.
- `Store.Database` is a class with one map or sequence per table, plus the auto-increment counters.

Each page is a method whose `modifies` clause names exactly the session keys and tables the page may write. Its `ensures` clause states the new state, in terms of specification functions about which lemmas are proved.

The session cart is a PHP ordered array. It is modelled as `CartMap.Cart`: a key order `ids` together with a quantity map `qty`.

- Writing a new key appends it to the order.
- Writing an existing key keeps its position.
- `unset` removes the key and keeps the remaining order.

Money is held in integer cents throughout.

PHP semantics that matter to the pages are written out:

- **Truthiness.** `""` and `"0"` are false (`Common.Truthy`).
- **Integer filter.** `FILTER_VALIDATE_INT` becomes an `Option<int>`. It passes a `!$x` test when set and non-zero, so negative ids pass (`Common.IntGiven`).
- **trim().** PHP's `trim()` strips its six default characters (`Common.Trim`).
- **Phone pattern.** It is `/^[\d\s\-\+\(\)]{7,20}$/` without the `D` modifier, so `$` also matches before a final newline. A 21-character phone whose last character is `"\n"` is therefore accepted (`Checkout.PhonePatternExactly`).
- **PayPal cardholder name.** It is `given . ' ' . surname ?? 'Unknown'`. The concatenation is never null, so 'Unknown' never applies. The model always stores the concatenation.
- **CSRF comparison.** It is a strict comparison against `$_SESSION['csrf_token']`. With no session token every submission is refused. `admin/users.php` never creates a token, so it depends on another page having stored one (`AdminGuard.CsrfMatches`).

Provider SDK calls, the random CSRF token, `password_hash`, `FILTER_VALIDATE_EMAIL`, the client address and the browser string are method parameters.

## Model

| member | source | states |
|---|---|---|
| Common.Trim | payment/checkout.php:40 | trim() returns the middle of the string once a leading and a trailing run of strippable characters are dropped, and the result neither starts nor ends with a strippable character |
| Common.TrimIdempotent | payment/checkout.php:48 | trimming the stored (already trimmed) address again changes nothing |
| AdminGuard.CsrfMatches | admin/orders.php:39 | a posted token is accepted only when it is set and strictly equal to the session token, which must be set too |
| CartMap.Put | cart/add.php:27 | assigning a cart key sets that entry, keeps every other entry and the key order, and appends a new key last |
| CartMap.Unset | cart/remove.php:12 | unset removes exactly that key, keeps the others with their quantities and order, and shrinks the cart by one when the key was present |
| Store.Session.EnsureCsrfToken | admin/orders.php:20-22 | a CSRF token is created only when the session has none and kept otherwise |
| CartReader.PricedItems | cart/view.php:16-27 | the priced lines are exactly the cart's products that exist, each carrying the cart quantity and the catalog name and price |
| CartReader.ItemsInCartOrder | cart/view.php:20-25 | the lines come in cart order, one per cart entry whose product exists |
| CartReader.AllFoundOnePerEntry | cart/view.php:20-25 | when every cart product exists there is one line per cart entry |
| CartReader.TotalIsCartSum | cart/view.php:26 | the total is the sum of catalog price times cart quantity over the entries whose product exists |
| CartReader.ReadCart | cart/view.php:20-27 | the fetch loop collects exactly the priced lines and their total |
| CartAdd.AddOne | cart/add.php:27 | a new product gets quantity 1 and goes last, an existing one gets exactly one more, nothing else changes, quantities stay at least 1 |
| CartAdd.Add | cart/add.php:6-27 | a falsy id or a missing product leaves the cart unchanged; otherwise the initialised cart gets one more unit |
| CartUpdate.UpdateKeepsValid | cart/update.php:9 | writing a quantity of at least 1 keeps every cart quantity at least 1 |
| CartUpdate.Update | cart/update.php:6-24 | the cart changes exactly when the id is truthy and in the cart, the quantity is at least 1 and the product exists; the entry then holds exactly that quantity |
| CartRemove.RemoveKeepsValid | cart/remove.php:12 | removing an entry keeps the cart well formed with positive quantities |
| CartRemove.Remove | cart/remove.php:5-12 | a falsy id or one not in the cart changes nothing; otherwise exactly that entry is removed |
| CartView.View | cart/view.php:6-28 | the cart is initialised if unset; the page shows the priced lines and their total |
| Checkout.EmailAccepted | payment/checkout.php:37 | the email must be set, truthy and pass the email filter |
| Checkout.AddressAccepted | payment/checkout.php:40 | the address must be set, truthy and at least 5 bytes once trimmed |
| Checkout.PhoneAccepted | payment/checkout.php:43 | the phone must be set, truthy and match the anchored phone pattern |
| Checkout.AddressAcceptedByLength | payment/checkout.php:40 | the address check is exactly "set and at least 5 bytes once trimmed" |
| Checkout.PhonePatternExactly | payment/checkout.php:43 | the phone pattern accepts 7 to 20 allowed characters, or 7 to 20 followed by one final newline |
| Checkout.AddressExamples | payment/checkout.php:40 | a 2-letter address is refused and a street address accepted |
| Checkout.PhoneExamples | payment/checkout.php:43 | letters are refused and a formatted international number accepted |
| Checkout.ValidateGuestInfo | payment/checkout.php:37-49 | the email, then the address, then the phone are checked and only the first failure is reported; on success the email and phone are kept as given and the address trimmed |
| Checkout.SaveGuestInfo | payment/checkout.php:30-55 | a valid post writes exactly the validated email, trimmed address and phone; an invalid one reports its first error and writes nothing; a GET does neither |
| Checkout.Checkout | payment/checkout.php:20-90 | an unset or empty cart redirects with nothing written; a valid post writes all three guest keys and an invalid one none; a cart with a found product stores its total and the user id (0 for guests); a cart with none stores nothing |
| StripeInit.ChargedIsTotal | payment/stripe.php:37-39 | the amount Stripe charges (unit amount times quantity) equals the cart total |
| StripeInit.LineItemsOfCart | payment/stripe.php:24-42 | one line item per cart entry whose product exists, in cart order, in euros, at the catalog price with the cart quantity |
| StripeInit.BuildLineItems | payment/stripe.php:23-42 | the loop builds exactly the line items of the found products, skipping missing ones |
| StripeInit.Initiate | payment/stripe.php:11-63 | an unset or empty cart or unset total goes to the cart; otherwise the request has card payment, payment mode, required billing address and the cart's line items; the page writes no session key |
| PayPalInit.PayPalItems | payment/paypal.php:84-93 | one item per found product, in dollars, with its catalog name and price and its cart quantity |
| PayPalInit.FirstWithRel | payment/paypal.php:104-109 | the index found is the first link with the wanted rel, or the end when there is none |
| PayPalInit.FindApproveUrl | payment/paypal.php:103-109 | the loop returns the href of the first approve link, and none exactly when no link is an approve link |
| PayPalInit.Initiate | payment/paypal.php:17-121 | the cart and guest redirects come first; the order's amount and item total both equal the recomputed total; the PayPal order id is stored exactly when the first approve link has a truthy href |
| Capture.KeepPresent | payment/process.php:75-82 | the filter keeps only truthy values, and keeps none exactly when no component is set and truthy |
| Capture.KeepPresentOne | payment/process.php:75-82 | a single component is kept exactly when it is set and neither "" nor "0" |
| Capture.KeepPresentAppend | payment/process.php:75-82 | filtering a concatenation concatenates the filtered parts, so the kept components stay in their order |
| Capture.Join | payment/process.php:83 | implode of no parts is empty, and of several starts with the first part followed by the separator |
| Capture.JoinOne | payment/process.php:83 | implode of a single part is that part |
| Capture.JoinAppend | payment/process.php:83 | implode of two non-empty runs of parts is their two joins with one separator between, so every part appears in order |
| Capture.Prefix | payment/process.php:84-86 | substr keeps a short string whole and cuts a longer one to exactly the limit, always keeping a prefix |
| Capture.ComposeStripeAddress | payment/process.php:73-87 | the Stripe address is the kept components joined by ", ", whole when at most 255 bytes and cut to the first 255 otherwise |
| Capture.ComposeExample | payment/process.php:75-83 | "1 Main St", "", "Madrid", no state, "0" and "ES" compose to "1 Main St, Madrid, ES" |
| Capture.ComposedTruthyIffComponent | payment/process.php:75-88 | the composed address is truthy exactly when one component is set and neither "" nor "0" |
| Capture.StripeBillingAddress | payment/process.php:72-93 | Stripe's address wins when it has any component; otherwise the guest address is used if it passes the checkout address rule, else there is none |
| Capture.CheckoutAddressPassesCapture | payment/process.php:90 | an address stored by checkout always passes the capture's address check |
| Capture.VerifyPayment | payment/process.php:54-121 | an unknown method fails; each failing Stripe or PayPal check reports its own error in the page's order; a payment succeeds exactly when all its checks pass; a Stripe row takes the card brand and holder ("Unknown" when null), the last four digits and the address country ("Unknown" when null); a PayPal row takes card type "PayPal", given name and surname joined by a space, no last four digits and the payer country ("Unknown" when null) |
| Capture.FirstMissing | payment/process.php:138-148 | the position of the first cart entry whose product is gone, with every earlier product present |
| Capture.ItemRows | payment/process.php:138-156 | the item rows exist exactly when every cart product exists; otherwise the error names the first cart entry, in cart order, whose product is gone |
| Capture.ItemRowsTotal | payment/process.php:149-153 | the recorded item rows add up to the reader's cart total |
| Capture.Ready | payment/process.php:23-34 | a capture proceeds only with a non-empty cart, a set non-zero payment total and, for a guest, the email, address and phone set |
| Capture.Plan | payment/process.php:124-164 | a planned capture records the stored total in both the order and the payment under the given order id; a failure is the provider step's error or, after a verified payment, a cart product that is gone |
| Capture.PlanRecords | payment/process.php:125-164 | a capture succeeds exactly when the payment is verified and every product exists; the order has the user id or guest email, the stored total, status "completed", the verified address and the guest phone; there is one item per cart entry at the current price; the payment carries the stored total, the provider as its method, and card type, cardholder name, last four digits and country of the verified payment (for PayPal card type "PayPal" and no last four digits, for Stripe the card's last four digits) |
| Capture.RecordedTotalsAgree | payment/process.php:129-163 | with the catalog unchanged since checkout, the item rows, the order total and the payment amount agree |
| Capture.PageShowsSuccessAsWritten | payment/process.php:193 | the page as written shows success whenever the provider step passed |
| Capture.SuccessShownAfterRollback | payment/process.php:193-194 | the page as written announces success for a capture that was rolled back (see Findings) |
| Capture.InsertItems | payment/process.php:138-157 | the loop writes one row per cart entry and stops at the first product that is gone, reporting it |
| Capture.RecordOrder | payment/process.php:124-176 | the order, items and payment are written together, or nothing is when a product is gone; the order counter stays advanced |
| Capture.Transact | payment/process.php:51-177 | the try block commits exactly the planned order, item and payment rows under the next order id, or reports the planned error with those tables as they were |
| Capture.Capture | payment/process.php:24-179 | without a pending checkout nothing changes; otherwise exactly the planned rows are committed, or the planned error is reported with the tables and session unchanged; the checkout keys are cleared only after the commit |
| AdminGuard.AdminGate | admin/orders.php:6-17 | only a logged-in user whose row has a truthy is_admin is admitted; with no session user the page goes to login |
| OrderStatus.ChangeAllowed | admin/orders.php:44 | a status change needs a truthy integer order id and a status from the page's list |
| OrderStatus.SetStatus | admin/orders.php:45-46 | a status update changes only the named order's status, and only if that order exists |
| OrderStatus.StatusListsDiffer | admin/updated_order.php:19 | the status endpoint accepts "shipped" and refuses "pending", unlike the order list |
| AdminOrders.HandleOrders | admin/orders.php:6-56 | a non-admin changes nothing; a CSRF mismatch aborts; a truthy id with pending, completed or cancelled updates only that order's status; anything else reports an error |
| UpdatedOrder.HandleUpdate | admin/updated_order.php:16-34 | only a POST acts; a truthy id with completed, shipped or cancelled updates only that order's status; anything else is rejected with no change |
| AdminUsers.RoleFlag | admin/users.php:30 | is_admin is normalised to 1 for a truthy integer and 0 otherwise |
| AdminUsers.SetRole | admin/users.php:32-33 | a role update changes only the target user's is_admin |
| AdminUsers.AllowedChangeKeepsActingAdmin | admin/users.php:31 | an allowed role change never demotes the acting admin |
| AdminUsers.HandleUsers | admin/users.php:6-43 | a non-admin changes nothing; a CSRF mismatch aborts; an admin's own id or a falsy id is an error with no update; another user's is_admin becomes the normalised flag |
| AdminProducts.SaveAcceptedAsWritten | admin/products.php:75 | the save test as written: truthy name, positive price, a stock that is not negative or not an integer, truthy category |
| AdminProducts.InvalidStockPassesAsWritten | admin/products.php:71-75 | a stock field that is not an integer passes the save test as written and is stored as 0 (see Findings) |
| AdminProducts.SaveAcceptedIsStricter | admin/products.php:75 | the corrected save test is the written one restricted to a valid stock, so every saved stock is at least 0 |
| AdminProducts.SaveProduct | admin/products.php:76-84 | an edit keeps the ids and the counter, an insert adds exactly the next id and advances the counter, and the saved row holds the form's values |
| AdminProducts.SaveChangesOneProduct | admin/products.php:76-84 | an edit replaces only the named product; an insert adds exactly one product under a fresh id |
| AdminProducts.HandleProducts | admin/products.php:6-94 | a non-admin changes nothing; a delete link with the session token and a truthy id removes only that product; a CSRF mismatch aborts; an accepted form edits or inserts one product; anything else writes nothing |
| Register.RegistrationError | auth/register.php:24-36 | the checks run in the order all fields, email format, password of at least 8 bytes, email not taken, and the first failure is reported |
| Register.AddKeepsEmailsUnique | auth/register.php:32-41 | inserting a user whose email nobody has keeps emails unique |
| Register.Register | auth/register.php:6-56 | a CSRF mismatch aborts; a passing form inserts exactly one non-admin user under a fresh id and one log row with the submitted country; a failing one writes nothing; unique emails stay unique |
| Profile.UpdateNames | auth/profile.php:38-39 | the update changes only first name, last name and country of the session user; email, password hash and role stay |
| Profile.UpdateNamesKeepsRoles | auth/profile.php:38 | a profile edit never changes anybody's admin status |
| Profile.UpdateProfile | auth/profile.php:7-57 | no session user goes to login with nothing changed; a CSRF mismatch aborts; an empty field is an error with no write; otherwise the row is updated and exactly one log row is appended with the submitted country |

## Left out

- HTML output, Bootstrap markup, the browser-side geolocation script in payment/checkout.php, headers, `die` and the log files. Pages return an outcome value instead of rendering or redirecting.
- The Stripe and PayPal SDK calls. Their answers (session status, card, address, the links of a created order, capture status and payer) are method inputs. An exception from a call becomes `None` or `CreateFailed`.
- Floating point. Prices are integer cents, so `price * 100` is the price in cents and `sprintf('%.2f', …)` is not modelled. A float price that is not a whole number of cents is outside the model.
- `FILTER_SANITIZE_STRING`, `FILTER_SANITIZE_EMAIL` and `FILTER_SANITIZE_URL`. They are taken as the identity on the submitted value.
- `FILTER_VALIDATE_EMAIL`. It is the parameter `validEmail`.
- `FILTER_VALIDATE_FLOAT`. The price is submitted in cents.
- `password_hash`. It is the parameter `passwordHash`.
- `random_bytes` for CSRF tokens. It is the parameter `generated`.
- Strings are sequences of characters, and `strlen` and `substr` count characters as bytes. Multi-byte text is not modelled.
- Failures of `execute()` on a prepared statement: "Failed to update…", "Registration failed…" and a failed query inside the capture transaction. Every statement the model runs succeeds. The one query failure modelled, in payment/paypal.php, is the input `queryOk`, and client setup failure there is `clientOk`.
- The type string `'isdsis'` of the order insert binds the address as an integer. The model stores the address string the page intends.
- Row order of `WHERE product_id IN (…)`. SQL leaves it unspecified; the model uses cart order.
- Case-insensitive collation in the duplicate email query. `Register.EmailRegistered` compares emails exactly.
- `created_at` timestamps, and the success, cancel and return URLs sent to the providers.
- The read-only queries: the order, user, product and category listings and the `edit` lookup in admin/products.php.
- admin/auth.php, which admin/updated_order.php includes, is not part of this model. `UpdatedOrder.HandleUpdate` therefore has no access guard.
- AdminProducts.HandleProducts: applies the corrected save test (see Findings), so a form whose stock is missing or not an integer writes nothing, where admin/products.php:71,75 saves it with stock 0.
- Register.Register: the INSERT at auth/register.php:40 names no is_admin column, so the new user's is_admin takes the table's default, assumed here to be 0.
- A missing `stock` field in admin/products.php binds NULL, and its fate depends on the table definition. The model treats any non-integer stock field like an invalid one (see Findings).
- Concurrent requests, and a second capture of the same provider token.
- Session start and stop, Dotenv loading, and the PayPal request's `prefer` header.

## Findings

| source | as written | input that shows it | evidently intended | confidence | as-written member | corrected member |
|---|---|---|---|---|---|---|
| payment/process.php:95,119,134,193 | `$success` is set once the provider verifies the payment and `$order_id` right after the order insert. The page shows success when both are set, even if a later step threw and the transaction was rolled back. | A logged-in user pays with PayPal (status COMPLETED) for product 7, which was deleted after checkout. The item loop throws "Product not found", the insert is rolled back, and the page still says the payment completed and shows an order id. | Report success only when the transaction committed. | not executed | Capture.SuccessShownAfterRollback | Capture.Capture |
| admin/products.php:71,75 | `$stock >= 0` with `$stock === false` (a stock field that is not an integer) is true in PHP. | Posting name "Mug", price 12.99, stock "abc" and a category passes the test, and the product is saved with stock 0. | Refuse a stock that is not a valid non-negative integer. | not executed | AdminProducts.InvalidStockPassesAsWritten | AdminProducts.SaveAcceptedIsStricter |
