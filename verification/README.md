# Shop pages: a Dafny model of their logic

This project models the decisions made by the pages of a small Next.js shop: checkout polling, the cart, the product page, the home listing, the administrators' product table, and the registration, sign-in and product forms. Rendering, styling and the remote services are not modelled.

Each page becomes pure functions over immutable records.

- **Network answers.** Every answer a page can receive is a datatype value passed in as a parameter. An axios error with a response, one without a response, and any other exception are the three `Http.Failure` cases.
- **Local storage.** The two entries the pages use are a `Session.Store`. The `authData` entry is read through `JSON.parse`, so it has four cases: absent, unparseable, `null`, and a record.
- **Navigation, toasts and events.** Where the pages go, which texts they show and which `cartUpdated` events they dispatch are fields of each function's result.

Modules:

- `Js`: the JavaScript built-ins the pages rely on. These are truthiness and `||` fallbacks, `\s` and `trim`, `replace(/\D/g, "")`, `parseInt`, `Number` on integer literals, and `toString`.
- `Http`: the failure shapes and the precedence of the error texts built from them.
- `Session`: the `authData` and `cartCount` entries, the navigation bar's mount effect and logout, and the `cartUpdated` event.
- `Validation`: the e-mail pattern `^[^\s@]+@[^\s@]+\.[^\s@]+$` written as a predicate over positions.
- One module per page or component:
  - `Checkout` (`app/checkout/page.tsx`)
  - `Cart` (`app/cart/page.tsx`)
  - `CartItem` (`components/cart-item.tsx`, with the cart page's stepper)
  - `ProductPage` (`app/product/page.tsx`)
  - `Catalog` (`app/page.tsx`)
  - `Admin` (`app/admin/products/page.tsx`)
  - `RegisterForm` (`components/ui/register-form.tsx`)
  - `LoginForm` (`components/login-form.tsx`)
  - `ProductModal` (`components/admin/product-modal.tsx`)

### The checkout state machine

Checkout is a transition function. `Checkout.Begin` handles the session gate. `Checkout.OnOrderCreated` handles the order-creation answer. `Checkout.Tick` is one firing of the three-second interval, and `Checkout.Run` is a sequence of firings.

The model follows the code, which differs from the page's own comments and the intended design in three places:

1. An explicit `null` payment link is checked before the attempt limit, so a run of `null` links polls forever.
2. A failed status request and the timeout are rethrown inside the interval callback, so they never reach the page's `catch`. The page keeps showing "polling" with no error instead of ending in the error state.
3. The cleanup clears the interval only if it already exists. Leaving the page while the order is still being created cancels nothing, and polling starts when the order arrives.

All three are listed under Findings. `Checkout.CorrectedTick` is the evidently intended step, and `Checkout.CorrectedUnmount` with `Checkout.CorrectedOnOrderCreated` the intended cleanup, with their properties proved.

## Model

| member | source | states |
|---|---|---|
| Http.ServerMessage | app/cart/page.tsx:295-299 | The server's `message` when it has one, else `Server error: <status>`; never empty |
| Http.Describe | app/product/page.tsx:376-387 | A response gives the server text, a request without a response the fixed network text, any other error its own message, else the page's default |
| Http.DescribeWithoutNetwork | app/checkout/page.tsx:335-356 | Like `Describe`, except that a request without a response shows the error's own message |
| Http.BearerHeader | app/product/page.tsx:271-275 | The `Authorization` value starts with `Bearer `, and the rest is the token, or `undefined` when there is none |
| Http.BearerHeaderReadsBack | app/product/page.tsx:271-275 | Two headers are equal exactly when their tokens are, except that a missing token and the token `undefined` give the same header |
| Js.TrimEmptyIffBlank | components/ui/register-form.tsx:35-39 | `trim()` gives the empty string exactly for text made only of white space |
| Js.DigitsOnlyIdempotent | components/ui/register-form.tsx:220-225 | Filtering digits from text that is already filtered changes nothing |
| Js.DigitsOnlyKeepsDigits | components/cart-item.tsx:18 | A text of digits only passes the filter unchanged |
| Js.DigitsOnlyCountsDigits | components/cart-item.tsx:18 | The filter keeps every digit of the text, each as often as it occurs, and no other character |
| Js.DigitsOnlyAppend | components/cart-item.tsx:18 | Filtering a text is filtering its parts one after the other, so the kept digits stay in order |
| Js.Utf16LengthOfBmp | components/ui/register-form.tsx:35-62 | JavaScript's `length` counts UTF-16 code units; for text inside the Basic Multilingual Plane that is the number of characters |
| Js.ParseIntOfDecimalString | app/product/page.tsx:113-116 | `parseInt` of a count written with `toString` gives the count back |
| Session.ReadSession | app/cart/page.tsx:203-222 | Pages see "logged out" exactly when there is no entry, and a token exactly when the entry parses to a record |
| Session.QuietToken | app/admin/products/page.tsx:379-396 | The token the session page-gate would yield, and none whenever the gate yields none; the product page's anonymous read (app/product/page.tsx:253-264) is the same |
| Session.MountNavbar | app/product/page.tsx:104-121 | Unreadable data removes both entries and leaves the initial bar. Otherwise the badge is the stored count read by `parseInt`. A user is shown exactly when the record has one with an e-mail (any user on the admin bar) |
| Session.StoredBadge | app/product/page.tsx:113-116 | A non-empty stored count is parsed, and an empty or missing one leaves the badge at 0 |
| Session.Logout | app/product/page.tsx:128-133 | Both entries are removed |
| Session.OnCartUpdated | app/product/page.tsx:95-100 | A numeric `newCount` becomes the badge; anything else leaves the bar unchanged |
| Session.Dispatch | app/cart/page.tsx:394-396 | Every mounted bar receives the event, and only its badge may change |
| Session.Publish | app/cart/page.tsx:392-396 | The count is stored as its decimal text and the same number is dispatched |
| Session.PublishReachesEveryBar | app/cart/page.tsx:384-396 | After publishing, every mounted bar shows the new count, and a bar mounted later reads the same count back |
| Session.LogoutForgetsEverything | app/admin/products/page.tsx:144-150 | After logout the next bar shows no user, no badge and no Admin link |
| Checkout.Begin | app/checkout/page.tsx:245-264 | Without a readable session the flow is in error, sent to `/login`, with no order request. With one, exactly one order request carries the stored token |
| Checkout.FailureMessage | app/checkout/page.tsx:335-356 | The outer `catch` shows the server text or the error's message, never an empty text |
| Checkout.OnOrderCreated | app/checkout/page.tsx:266-292 | Polling starts, with no attempts made, exactly when the answer has a truthy order id. Any other answer is an error and the timer never starts |
| Checkout.Tick | app/checkout/page.tsx:294-334 | A stopped timer does nothing. Each firing counts one attempt before its one request. Only a truthy link redirects, to exactly that link. `null` changes only the message. The limit stops only silent answers, after more than 20 attempts. A failure clears the timer and escapes with the status unchanged |
| Checkout.Unmount | app/checkout/page.tsx:361-366 | The cleanup clears a running interval. An interval that has not started yet is not affected |
| Checkout.LateOrderPollsAfterUnmount | app/checkout/page.tsx:240-366 | Leaving the page before the order is created clears nothing. When the order arrives, the interval still starts and its first firing sends a status request |
| Checkout.CorrectedUnmount | app/checkout/page.tsx:361-366 | The intended cleanup marks the effect as left, whether or not the interval exists yet, and changes nothing the page shows |
| Checkout.CorrectedOnOrderCreated | app/checkout/page.tsx:266-294 | The intended handler: once the page has been left, the order answer starts nothing; otherwise it is handled as the page does |
| Checkout.CorrectedUnmountStopsPolling | app/checkout/page.tsx:361-366 | With the intended cleanup, leaving the page before the order arrives means no status request is ever made, whatever the answers |
| Checkout.NoTickAfterUnmount | app/checkout/page.tsx:361-366 | After unmounting, no sequence of firings changes anything |
| Checkout.NullLinksNeverTimeOut | app/checkout/page.tsx:318-328 | Any number of `null` links keeps the page polling with its timer running |
| Checkout.SilentWithinLimitKeepsPolling | app/checkout/page.tsx:325-328 | Silent answers within the limit only count attempts and requests |
| Checkout.RunAppend | app/checkout/page.tsx:294-334 | Two runs in a row are one run over both answer sequences |
| Checkout.TimeoutOnTwentyFirstSilentAnswer | app/checkout/page.tsx:325-333 | Twenty silent answers keep polling. The twenty-first clears the timer, and the timeout escapes with the status still polling and no error message |
| Checkout.PollFailureLeavesStatus | app/checkout/page.tsx:329-333 | A failed status request stops all further requests, yet the status stays polling with no error message |
| Checkout.NullThenLinkRedirects | app/checkout/page.tsx:240-334 | From a session and a created order, a `null` link and then a link redirect to that link after two status requests |
| Checkout.CorrectedTick | app/checkout/page.tsx:243 | The intended step: a failure and the timeout end in the error state with the timer cleared, for every kind of answer |
| Checkout.CorrectedPollingIsBounded | app/checkout/page.tsx:325-328 | With the intended step, polling that never sees a link ends in error once the attempts exceed the limit |
| Checkout.CorrectedPollFailureIsError | app/checkout/page.tsx:329-356 | With the intended step, a failed status request ends in error with the failure's message |
| Checkout.FindIndex | app/checkout/page.tsx:184 | The first position of the status among the steps, or -1 exactly when it is absent |
| Checkout.ActiveIndex | app/checkout/page.tsx:177-184 | The active step is `-1` exactly when the status is not one of the steps. Otherwise it is the position of the status among the steps |
| Checkout.ActiveStepFollowsStatus | app/checkout/page.tsx:177-184 | Each in-progress status is its own step, and the error status is no step, so no step is marked done |
| Cart.ToLine | app/cart/page.tsx:258-277 | The line id is `_id`, else the product id. Quantity and price come from the cart, the name from the details, and the image is the first truthy of the two image fields, else the placeholder |
| Cart.ToLines | app/cart/page.tsx:258-277 | One line per item, in the cart's order |
| Cart.FirstDetailFailure | app/cart/page.tsx:255 | No failure exactly when every detail request answered. Otherwise the reported failure is one of them |
| Cart.FetchCart | app/cart/page.tsx:198-311 | Only a readable session loads, and unreadable data is forgotten. The page loads exactly when the cart is an array and every detail request answers with `data`. The lines are then the cart's items mapped with their details, position by position. Every other outcome with a session is a failure with a non-empty message |
| Cart.Subtotal | app/cart/page.tsx:318-323 | An empty cart costs 0, and a cart with no negative price or quantity never costs less than 0 |
| Cart.SubtotalSingle | app/cart/page.tsx:318-323 | One line contributes its price times its quantity. With `Cart.SubtotalAppend` this fixes the subtotal of every list |
| Cart.SubtotalAppend | app/cart/page.tsx:318-323 | The subtotal of two lists is the sum of their subtotals |
| Cart.Shipping | app/cart/page.tsx:325 | Shipping is 0 exactly when the subtotal is above 500000, and 30000 otherwise |
| Cart.Tax | app/cart/page.tsx:326 | The tax is the whole amount nearest to 8 % of the subtotal, with halves rounded up |
| Cart.TaxIsTheNearestWholeAmount | app/cart/page.tsx:326 | The rounding property determines the tax uniquely |
| Cart.Total | app/cart/page.tsx:327-330 | The total is the whole amount nearest to 108 % of the subtotal plus the shipping, with halves rounded up |
| Cart.TotalIsTheNearestWholeAmount | app/cart/page.tsx:326-330 | The rounding property determines the total uniquely |
| Cart.EmptyCartSummary | app/cart/page.tsx:318-330 | The empty cart has subtotal 0, tax 0 and a total equal to the shipping fee |
| Cart.SetQuantity | app/cart/page.tsx:333-338 | Lines with the id take the new quantity. All other lines, the length and the order are unchanged |
| Cart.SetQuantityLastWins | app/cart/page.tsx:333-338 | The later of two changes to the same line wins |
| Cart.SetQuantityMovesSubtotal | app/cart/page.tsx:318-338 | Changing a unique line's quantity moves the subtotal by its price times the change |
| Cart.NoMatchUnchanged | app/cart/page.tsx:333-338 | A change for an id no line has leaves the list as it was |
| Cart.RemoveLines | app/cart/page.tsx:385-387 | The remaining lines are exactly those without the id, and the length drops by the number that had it |
| Cart.RemoveLinesAppend | app/cart/page.tsx:385-387 | Removal keeps the order of the remaining lines |
| Cart.HandleRemove | app/cart/page.tsx:341-422 | A request is made only with a readable session. Status 200 removes the lines with the id and stores and dispatches the new length. Any other outcome leaves the lines, the stored count and the bars alone |
| Cart.RemovalUpdatesEveryBadge | app/cart/page.tsx:384-396 | After removal, every bar and the next mounted bar show the number of remaining lines |
| CartItem.StepperBounds | components/cart-item.tsx:36-44 | Minus never goes below one. Plus then minus is the identity from one upwards, and minus then plus from two upwards |
| CartItem.EnabledMinusLowersByOne | app/cart/page.tsx:111-122 | When the cart page's minus is enabled it lowers the quantity by exactly one and stays at least one |
| CartItem.PriceNumber | components/cart-item.tsx:18 | The price is not a number exactly when its text has no digit |
| CartItem.LineSubtotal | components/cart-item.tsx:18-19 | The line amount is `NaN` exactly when the price text has no digit. Otherwise it is the value of the text's digits times the quantity |
| CartItem.LineSubtotalOfFormattedPrice | components/cart-item.tsx:18-19 | Given the Vietnamese-formatted text of a whole amount, the component's line amount is that amount times the quantity. The separators and the currency sign do not disturb the parse |
| CartItem.GroupThousandsKeepsDigits | app/cart/page.tsx:142-147 | Grouping the digits by thousands keeps exactly those digits |
| CartItem.PriceNumberReadsFormattedPrice | components/cart-item.tsx:18 | Reading a formatted price back with the digit parse gives the amount |
| ProductPage.DetailHeaders | app/product/page.tsx:271-275 | The detail request carries one bearer header exactly when a truthy token was read, and otherwise none |
| ProductPage.LoadDetail | app/product/page.tsx:241-312 | Without an `id` nothing is fetched and the page keeps loading. With one, the product is shown exactly when the body reports success |
| ProductPage.PressAll | app/product/page.tsx:543-561 | Disabled controls keep the quantity. From a quantity of at least one, the presses never go below one and rise by at most one per press |
| ProductPage.PressesKeepQuantityPositive | app/product/page.tsx:543-561 | From a quantity of at least one, no series of presses goes below one or rises by more than the number of presses. Disabled controls keep the quantity |
| ProductPage.FirstPresent | app/product/page.tsx:376-387 | The first available candidate: present exactly when some candidate is, and no earlier candidate is present |
| ProductPage.AddMessagePrecedence | app/product/page.tsx:376-387 | The error text is the first available of: server message, server status, network text, error message, default |
| ProductPage.AddToCart | app/product/page.tsx:315-396 | Without a product nothing happens. Without a readable session the page goes to `/login` with no request, forgetting unreadable data. Only status 200 with `items` succeeds, storing and dispatching `items.length`. Other responses are invalid |
| ProductPage.AddToCartSyncsBadge | app/product/page.tsx:356-369 | After adding, every bar and the next mounted bar show the server's line count |
| Catalog.ToProduct | app/page.tsx:431-440 | The image is the first truthy of `imageUrl` and `avatar_url`, else the placeholder. The category defaults to "accessories". The other fields are copied |
| Catalog.ToCatalog | app/page.tsx:427-441 | Every listed product has a positive price, an image and a category |
| Catalog.ToCatalogMembers | app/page.tsx:427-441 | A record is listed exactly when its price is positive, and then in its mapped form |
| Catalog.ToCatalogAppend | app/page.tsx:427-441 | Mapping keeps the API's order |
| Catalog.HomeLogout | app/page.tsx:197-202 | The home bar's logout removes the session but keeps the stored cart count. After the reload the bar shows no user and no badge |
| Catalog.HomeLogoutLeavesStaleBadge | app/page.tsx:197-202 | After the home bar's logout, the next shopper page's bar shows the old cart count to a signed-out visitor. After the other bars' logout it shows none |
| Catalog.MountHomeNavbar | app/page.tsx:172-202 | The home bar's badge is always 0. Unreadable data removes only the session. A user is shown exactly when the record has one with an e-mail |
| Catalog.HomeBadgeIgnoresPublishedCount | app/page.tsx:172-202 | A count published by another page never reaches the home bar's badge |
| Catalog.FilterCategory | app/page.tsx:480-483 | "all" keeps everything, and any other category keeps only its products |
| Catalog.FilterCategoryAppend | app/page.tsx:480-483 | Filtering a list is filtering its parts in turn, so the kept products stay in order, each as often as it occurs |
| Catalog.FilterCategorySingle | app/page.tsx:480-483 | One product is kept exactly when the choice is "all" or its category |
| Catalog.FilterCategoryMembers | app/page.tsx:480-483 | A product survives exactly when the choice is "all" or its category is the chosen one |
| Catalog.FilterCategoryIdempotent | app/page.tsx:480-483 | Filtering twice by one category is filtering once |
| Catalog.CompareIsRankDifference | app/page.tsx:486-504 | The comparator is a difference of ranks, so it is antisymmetric and consistent |
| Catalog.SortSorted | app/page.tsx:486-504 | Neighbours in the sorted list are in the chosen order |
| Catalog.SortedPairwise | app/page.tsx:486-504 | In a sorted list every earlier product is no later in the order |
| Catalog.SortOrders | app/page.tsx:491-503 | "price-low" gives non-decreasing prices, "price-high" non-increasing prices, and "newest" non-increasing creation times |
| Catalog.Sort | app/page.tsx:486-504 | The sorted list has the same products, each as often as it occurs. Its order is stated by `Catalog.SortSorted`, `Catalog.SortOrders` and `Catalog.SortStable` |
| Catalog.SortPermutes | app/page.tsx:486 | Sorting neither loses nor invents products |
| Catalog.SortStable | app/page.tsx:486-504 | Products the order ranks equally keep their listing order |
| Catalog.FeaturedKeepsOrder | app/page.tsx:502-503 | "featured" and unknown keys leave the listing in its order |
| Catalog.FetchProducts | app/page.tsx:387-474 | A request is made exactly with a readable session. Otherwise the page goes to `/login`, forgetting unreadable data. Success lists the mapped products. Every failure shows a non-empty message and no products |
| Catalog.Shown | app/page.tsx:480-504 | The grid is a permutation of the filtered products, in the chosen order |
| Admin.CheckAccess | app/admin/products/page.tsx:259-278 | Admitted exactly for a readable session whose user has the role `ADMIN`. No entry asks for a login. Unparseable data shows the parser's message. Every other visitor is told access is denied |
| Admin.FetchMessage | app/admin/products/page.tsx:300-309 | Only a server response contributes its own text. Every other failure shows the fixed text |
| Admin.Mount | app/admin/products/page.tsx:259-314 | Products are requested exactly for an admitted visitor. A refused one sees the reason and goes to the home page. An error leaves the table empty |
| Admin.AdminLinkOnlyForAdministrators | app/admin/products/page.tsx:162 | The Admin link shows exactly for a user with the role `ADMIN`, the same users the page admits |
| Admin.StatusLabel | app/admin/products/page.tsx:612-659 | The status reads "Deleted" exactly for a deleted product. Otherwise it reads "In Stock" exactly when the quantity is positive, and "Out of Stock" when it is not |
| Admin.LabelMatchesAction | app/admin/products/page.tsx:612-659 | "Deleted" is shown exactly when the restore button is. Otherwise "In Stock" is shown exactly when the quantity is positive |
| Admin.SetDeleted | app/admin/products/page.tsx:416-420 | Only the products with the id change, and only in their deleted flag |
| Admin.RestoreUndoesDelete | app/admin/products/page.tsx:462-466 | Restoring after deleting a live product gives the table back |
| Admin.SetDeletedIdempotent | app/admin/products/page.tsx:416-420 | Setting the flag twice is setting it once |
| Admin.ToggleShowsInTable | app/admin/products/page.tsx:612-659 | After a delete the row is labelled "Deleted" and offers restore. After a restore it is labelled by its stock |
| Admin.HandleToggle | app/admin/products/page.tsx:399-483 | A request is made exactly with a truthy token. Success flips the flag of the product with the id. Failure and no request leave the table unchanged |
| Admin.DeleteThenRestore | app/admin/products/page.tsx:399-483 | A delete and then a restore of a live product, both successful, give the table back |
| Admin.RefreshAfterSave | app/admin/products/page.tsx:335-374 | The form always closes. With no session, nothing is reloaded and nothing is shown. A successful reload replaces the table and shows "Product list refreshed!". An unsuccessful body changes nothing. Any failure keeps the table and shows the warning |
| Validation.EmailError | components/ui/register-form.tsx:41-45 | No error exactly for the accepted shape. An empty address is "required", and any other rejected one "valid email"; the sign-in form applies the same rule (components/login-form.tsx:27-31) |
| Validation.EmailPatternIff | components/ui/register-form.tsx:41-45 | The regular expression matches exactly the texts with no white space, one `@` after a non-empty part, and a `.` with text on both sides after it |
| Validation.EmailPatternNeedsFive | components/login-form.tsx:27-31 | Every accepted address has at least five characters |
| RegisterForm.FullNameError | components/ui/register-form.tsx:35-39 | No error exactly when the trimmed name is two or more UTF-16 code units long. A blank name is "required", and any other rejected name "valid full name" |
| RegisterForm.AstralNameIsLongEnough | components/ui/register-form.tsx:35-39 | A single character outside the Basic Multilingual Plane is a long-enough name, as JavaScript counts it |
| RegisterForm.PhoneError | components/ui/register-form.tsx:47-53 | No error exactly for ten or eleven digits, and an empty phone is "required" |
| RegisterForm.PasswordError | components/ui/register-form.tsx:55-62 | No error exactly for a length of eight or more UTF-16 code units with an upper-case letter and a digit. Emptiness, then length, then the character rule are reported, in that order |
| RegisterForm.ConfirmError | components/ui/register-form.tsx:64-68 | No error exactly when the confirmation is non-empty and equals the password |
| RegisterForm.Validate | components/ui/register-form.tsx:32-76 | Each field has no error exactly when its rule holds: name length, e-mail shape, phone digits, password, a matching non-empty confirmation, and the terms |
| RegisterForm.ValidIffEveryRuleHolds | components/ui/register-form.tsx:32-76 | The form is valid exactly when all six rules hold |
| RegisterForm.PhoneInput | components/ui/register-form.tsx:220-225 | The phone keeps only digits, and only the phone error is cleared |
| RegisterForm.PhoneInputAcceptedIffEnoughDigits | components/ui/register-form.tsx:220-225 | A typed phone passes exactly when it contains ten or eleven digits, and filtering again changes nothing |
| RegisterForm.Submit | components/ui/register-form.tsx:78-134 | A request is made exactly for a valid form. On success the page leaves for the home page. Otherwise it shows a non-empty error. The token, and the `user` entry next to it, are stored exactly on success with a truthy token |
| LoginForm.Validate | components/login-form.tsx:24-41 | The e-mail has no error exactly when it has the accepted shape. The password has none exactly when it is at least six UTF-16 code units long |
| LoginForm.PasswordError | components/login-form.tsx:33-37 | No error exactly for a length of six or more UTF-16 code units. An empty password is "required", and a shorter one gets the length message |
| LoginForm.Submit | components/login-form.tsx:44-124 | A request is made exactly for a valid form. An accepted answer stores its data as the session and goes to `/`. A refusal shows the server's message or "Invalid email or password". Other failures show the connection text. The session changes only on success |
| LoginForm.SignedInPagesReadTheSession | components/login-form.tsx:68-91 | After signing in, every page reads the new token, and the admin page admits exactly an `ADMIN` user |
| ProductModal.Initial | components/admin/product-modal.tsx:169-178 | Add mode starts from the defaults, with 365 days of validity. An existing product's zero validity also becomes 365 |
| ProductModal.InputChange | components/admin/product-modal.tsx:185-200 | Only the named field changes. The five numeric fields store `Number(value)`, and the others store the text |
| ProductModal.InputChangeKeepsShape | components/admin/product-modal.tsx:185-200 | Changes keep the form well formed, and clearing a numeric field stores 0 |
| ProductModal.TokenProblem | components/admin/product-modal.tsx:237-251 | There is no problem exactly for a readable session with a truthy token |
| ProductModal.Submit | components/admin/product-modal.tsx:209-315 | Edit mode, a missing image and a token problem each stop the request, in that order. `onSave` with the data and then `onClose` are called exactly on success. Uploading is off afterwards on every path |

## Left out

- Rendering, styling, toasts' presentation, and the duplicated Button/Card stubs are not modelled. Toast texts are kept only where they are a page's reported error.
- Remote services, `localStorage`, `window.location` and `CustomEvent` are not called. Their answers are parameters, and their effects are fields of the results.
- `JSON.stringify`/`JSON.parse` are assumed to round-trip the stored session record. An entry that does not parse carries the parser's message as a parameter.
- The JavaScript engine's exception text for reading a property of `null` is a fixed constant, `Session.NullReadMessage`.
- Real timers and overlapping asynchronous interval callbacks are not modelled. Each firing of the checkout interval is one atomic step.
- Checkout.Tick: the status-message texts of the intermediate states are modelled, but the toast that accompanies the outer `catch` is not.
- Cart.FirstDetailFailure: states that the reported failure is one of the failed requests, not which one `Promise.all` reports first in time, because that depends on timing.
- Cart.FetchCart: does not model the page's check on each detail body beyond whether `data` is present.
- `formatCurrency` uses `Intl.NumberFormat`. `CartItem.FormatVnd` fixes its Vietnamese output for a non-negative whole amount: digits grouped by three with `.`, then a no-break space and the dong sign, as in `1.234.567 ₫`. Negative amounts and the runtime's locale data are not modelled.
- Prices and creation dates are whole numbers. Parsing `createdAt` with `Date` and floating-point rounding are left out. `Math.round(subtotal * 0.08)` is modelled exactly on whole amounts, with halves rounded up.
- CartItem.PriceNumber: JavaScript numbers are doubles, so `parseInt` of a price with more than about 16 digits loses precision. The model reads the exact value.
- CartItem.PriceNumberReadsFormattedPrice: holds for every amount in the model, but in the page only for amounts a double represents exactly (up to 2^53).
- CartItem.LineSubtotalOfFormattedPrice: `price * quantity` is exact in the model. In the component it is a double and loses precision above 2^53.
- Cart.Subtotal: the sum is exact in the model. In the page it is a double and loses precision above 2^53.
- The cart page draws its lines with its own local `CartItem` (app/cart/page.tsx:74-137), which shows the formatted price and computes no line amount. `components/cart-item.tsx` is modelled as a component on its own, and no page here renders it.
- Cart.Total: exact integer arithmetic. In the page the sum and `subtotal * 0.08` are doubles.
- `Js.ToNumber` models `Number` only on decimal integer literals. Fractions, exponents, hexadecimal and `Infinity` all become one "not an integer" value. This is because the form's numeric fields are whole amounts.
- `Js.ParseInt` reads the leading run of digits. It does not model leading white space, a sign or other radices, because the pages only parse counts they wrote themselves and digit-filtered prices.
- The registration success path stores the token under the key `accessToken`, which no other page reads. `RegisterForm.Submit` records that key in its result rather than in the session store.
- RegisterForm.Submit: the page leaves for the home page after a 1500 ms timer. The model records only the destination, and it records the `user` entry as written or not, without its contents.
- The sign-in success toast's text is recorded, but its timing is not.
- The product modal's edit mode sends nothing. The page's own `handleSaveProduct` refresh is `Admin.RefreshAfterSave`.
- `components/LiveNotificationHandler.tsx` is a socket connection with toasts, and is pure input/output.
- `app/profile/page.tsx` and `components/product-reviews.tsx` use fixed mock data.
- The wishlist toggle and the coupon field of the cart page only show toasts and are not modelled.
- The presentational components (`navbar.tsx`, `product-filter.tsx`, `product-card.tsx`, `checkout-steps.tsx`, `product-table.tsx`, the two confirmation dialogs, and the login and register page wrappers) carry no logic beyond what the models above state.

## Findings

| source | as written | input that shows it | evidently intended | confidence | as-written member | corrected member |
|---|---|---|---|---|---|---|
| app/checkout/page.tsx:318-328 | The `checkoutUrl === null` branch comes before the attempt-limit test, so `null` answers are never counted against the limit | A status service that answers `{ checkoutUrl: null }` forever: the interval polls forever | The limit of 20 attempts stops polling whatever the answer | not executed | Checkout.NullLinksNeverTimeOut | Checkout.CorrectedPollingIsBounded |
| app/checkout/page.tsx:329-333 | A failed status request, and the timeout thrown just above, are rethrown inside the interval callback, so the page's `catch` never sees them | A status request that fails with HTTP 500 while polling: the interval stops, yet the page shows "polling" with no error | The flow ends in the error state with the failure's message, as the comments at lines 243 and 332 say | not executed | Checkout.PollFailureLeavesStatus | Checkout.CorrectedPollFailureIsError |
| app/checkout/page.tsx:361-366 | The cleanup clears the interval only if it exists. While the order is being created it does not exist yet, so leaving the page then cancels nothing, and the interval starts when the order arrives | Leave the checkout page before the order-creation request answers: the interval starts afterwards, keeps polling, and can still redirect the browser | Leaving the page stops the checkout: no interval starts after the cleanup | not executed | Checkout.LateOrderPollsAfterUnmount | Checkout.CorrectedUnmountStopsPolling |
