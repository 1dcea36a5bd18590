# Yanev Shop storefront rules in Dafny

This project models the rules of the Yanev Shop web storefront, a Swiss shop for ski
equipment built with Next.js. The storefront's behaviour lives in small, deterministic
rules written inline in its React pages and components. Each rule is modelled here
apart from its `fetch` calls, the Stripe SDK, its timers and its markup. Every network
answer, SDK result or timer firing is a plain input to the model.

The model covers these rules:

- **The pricing rule.** Shipping is free from 50 CHF and a flat 8 CHF below that; tax
  is 0. The model includes the amount still needed for free shipping. The rule is
  defined once in `Pricing`, and each copy in the checkout page (two copies), the cart
  page and the navigation bar is proved equal to it.
- **The checkout decisions.** These are:
  - the order payload built from the cart;
  - the order and payment-intent creation;
  - the detection of the payment method;
  - which payment status is written back for each outcome of the Stripe confirmation;
  - the restore of the cart from a failed order when the customer retries.
- **The order-success page.** Its bounded polling of the payment status is modelled as
  a state machine over a sequence of fetch results, together with its fallback fetch
  and its lookups.
- **The catalogue and back-office lists.** These are:
  - the product filter and sort, the category counts and the price ceiling;
  - the home-page tiles and carousel;
  - the admin product search and image list;
  - the profitability sort;
  - the dashboard stock counters;
  - the admin order filter and summary.
- **Validators and lookups.** These are the password checks on registration and on
  the profile page, the status label and colour tables, the order-administration query
  URL, and the update guards.

Amounts are integer Rappen (1 CHF = 100 Rappen), so 50 CHF is `5000` and 8 CHF is
`800`. A JavaScript `null` or `undefined` becomes `None`. Where the source only ever
applies `x || ''` to such a value, the model uses the empty string instead.

The JavaScript building blocks are stated once, in `Text`, `Seqs` and `Sorting`:
`trim`, `toLowerCase`, `includes`, `localeCompare`, `filter`, `some`, `reduce` and the
stable `Array.prototype.sort`. The page modules are written in terms of them.

## Model

| member | source | states |
|---|---|---|
| Pricing.Quote | app/checkout/page.tsx:326-329 | Shipping is 0 exactly from 5000 Rappen on and 800 exactly below it; tax is 0; the total is subtotal plus shipping; the amount still needed for free shipping is never negative, is 0 exactly when shipping is free, and is otherwise 5000 minus the subtotal |
| Pricing.ThresholdBoundary | app/checkout/page.tsx:326-328 | Exactly 50 CHF ships free with total 50 CHF; 49.99 CHF pays 8 CHF and totals 57.99 CHF |
| Pricing.ShippingMonotone | app/cart/page.tsx:45-48 | A larger cart never pays more shipping and never needs more for free shipping |
| Checkout.SubmitCharges | app/checkout/page.tsx:326-329 | The tax, shipping and total computed when the order is submitted are those of the reference rule |
| Checkout.SummaryFigures | app/checkout/page.tsx:437-441 | The order summary's figures are the reference rule's for the same cart total |
| Checkout.SummaryMatchesSubmit | app/checkout/page.tsx:437-441 | The summary shows the same tax, shipping and total as the submission computes |
| CartPage.Summary | app/cart/page.tsx:43-48 | The cart page's subtotal, shipping, total and remaining amount are the reference rule's |
| CartPage.View | app/cart/page.tsx:13 | No summary is shown exactly when the cart is empty; otherwise it is the reference rule's for the cart total |
| CartPage.HintNamesPositiveAmount | app/cart/page.tsx:198-204 | The free-shipping hint shows exactly when shipping is charged, which is exactly when the amount it names is positive and the subtotal is below 50 CHF |
| CartPage.LineTotalStep | app/cart/page.tsx:155 | One more unit raises a line's total by exactly the unit price |
| CartPage.LineTotal | app/cart/page.tsx:155 | A line of no units costs nothing, one unit costs the unit price, and non-negative prices and quantities give a non-negative amount |
| CartPage.ShowsFreeShippingHint | app/cart/page.tsx:198 | For a breakdown of the reference rule, the hint shows exactly when the subtotal is below the free-shipping threshold |
| CartPage.DecreaseRequest | app/cart/page.tsx:116 | The minus button asks for that line's id with one unit less |
| CartPage.IncreaseRequest | app/cart/page.tsx:128 | The plus button asks for that line's id with one unit more |
| CartPage.IncreaseThenDecrease | app/cart/page.tsx:113-136 | Plus followed by minus asks for the original quantity of the same line |
| Navbar.RemainingForFreeShipping | app/components/Navbar.tsx:17-18 | The remaining amount is never negative, equals the reference rule's for a known cart total, and is the full 50 CHF without one |
| Navbar.ShippingBanner | app/components/Navbar.tsx:37-49 | Exactly one banner shows: the amount still needed exactly for totals strictly between 0 and 50 CHF, free shipping exactly when the reference rule ships free, the generic notice otherwise; the named amount lies strictly between 0 and 50 CHF |
| Navbar.CartBadge | app/components/Navbar.tsx:136 | The badge shows exactly for a positive item count, with that count |
| Checkout.OrderItems | app/checkout/page.tsx:334-337 | One order item per cart line, in cart order, with the line's id as product id and its quantity |
| Checkout.OrderPayload | app/checkout/page.tsx:330-345 | The order carries the customer's id, one item per cart line with its id and quantity, the six address fields of the form, and CARD as method |
| Checkout.StoredItems | app/checkout/page.tsx:260 | A stored order without lines gives no lines; otherwise its lines |
| Checkout.InitialForm | app/checkout/page.tsx:221-240 | The form starts empty with country "Schweiz" and the customer's e-mail and phone, if any |
| Checkout.HandleFormSubmit | app/checkout/page.tsx:313-390 | Without a customer nothing is sent and login is demanded; otherwise the request is the order payload built from the customer, the cart and the form's address. The created order's id is kept exactly when the order was created. The payment step opens exactly when order and intent both succeed, with the intent's secret. Otherwise the error is the rejection's text or the thrown message, falling back to "Fehler beim Erstellen der Bestellung"; a rejected intent shows "Failed to create payment intent", and a thrown one its message or "Fehler beim Erstellen der Zahlung" |
| Checkout.DetectFromCharge | app/checkout/page.tsx:29-38 | The charge type "twint" gives TWINT; every other type, or none, gives CARD |
| Checkout.ResolvePaymentMethod | app/checkout/page.tsx:29-38 | An explicitly passed method wins; without one the method is detected from the charge |
| Checkout.DetectionsAgree | app/checkout/page.tsx:139-149 | The method detected in the form's handler and then passed on is the one the success handler would detect itself |
| Checkout.HandlePaymentSuccess | app/checkout/page.tsx:40-65 | The PAID update with the resolved method is always sent; the success callback runs exactly when that update is answered ok, and otherwise the form shows the paid-but-not-recorded error |
| Checkout.HandleSubmit | app/checkout/page.tsx:69-186 | Before the SDK is ready nothing happens. FAILED is written exactly for a Stripe error or a requires-payment-method/canceled intent. PAID is written exactly for a succeeded intent, with the detected method. The callback runs only after PAID is recorded, and the succeeded case is exactly the payment-success handler's outcome. Invalid input, a thrown check or confirm, a Stripe error and an incomplete intent each release the form with their own message or its fixed fallback. The form is loading exactly when no error is shown, and a new error is never empty |
| Checkout.OtherOutcomesWriteNothing | app/checkout/page.tsx:103-181 | A redirect, or an intent in any other status, writes no payment status and leaves the form waiting without an error |
| Checkout.RetryOrder | app/checkout/page.tsx:244-249 | The restore runs exactly when a non-empty retry id is present and the cart is empty |
| Checkout.RestoreUpdates | app/checkout/page.tsx:262-281 | One delayed quantity update per added line, aimed at the product added at the same position |
| Checkout.RestoreUpdatesAreProductQuantities | app/checkout/page.tsx:264-280 | The delayed updates are exactly one per stored line that carries a product, in order, each setting that product to the line's stored quantity |
| Checkout.RestoreAdds | app/checkout/page.tsx:262-281 | Every call is an add, there is at most one per stored line, and lines that all lack a product give none |
| Checkout.RestoreAddsAreProductLines | app/checkout/page.tsx:262-281 | The lines added to the cart are exactly the stored lines that carry a product, in their order |
| Checkout.ScheduleRestore | app/checkout/page.tsx:262-281 | The loop over the stored lines produces exactly the adds and the delayed updates that the specification functions describe |
| Checkout.RestoreCalls | app/checkout/page.tsx:260-282 | An order without lines makes no cart call; otherwise the cart is cleared once, first, and every later call adds a line |
| Checkout.RestoredForm | app/checkout/page.tsx:285-296 | First and last name, address, city and postcode come from the stored address (missing ones as ""), the country defaults to "Schweiz", and e-mail and phone come from the customer as in the initial form |
| Checkout.CheckoutPage.RestoreCartFromOrder | app/checkout/page.tsx:251-304 | A failed fetch changes nothing but the restoring flag. Otherwise the cart calls grow by the restore calls, the timers by the delayed updates, and the form is refilled exactly when an address was stored. The flag ends cleared |
| Checkout.CheckoutPage.FireTimers | app/checkout/page.tsx:276-280 | The delayed updates reach the cart in the order they were scheduled; nothing else changes |
| Checkout.CheckoutPage.PaymentSucceeded | app/checkout/page.tsx:392-395 | The cart is cleared and the page goes to the success page for that order |
| OrderSuccess.Tick | app/order-success/page.tsx:64-94 | A tick whose fetch failed keeps polling. PAID shows the order and FAILED redirects, both before the ceiling is consulted. Any other status stops as pending exactly when the attempt count reaches 15 |
| OrderSuccess.PollFrom | app/order-success/page.tsx:64-94 | While still polling, every tick has been counted exactly once; a paid outcome shows a PAID order |
| OrderSuccess.Reconcile | app/order-success/page.tsx:95-118 | An immediate PAID shows the order and an immediate FAILED redirects, without polling; any other answer leaves the outcome to the polling ticks. The fallback load happens exactly when the immediate check threw. A paid outcome always shows a PAID order |
| OrderSuccess.FailedTicksNeverStop | app/order-success/page.tsx:65-93 | Ticks whose fetch fails never stop the loop, however many there are |
| OrderSuccess.PendingOnlyAtCeiling | app/order-success/page.tsx:82-89 | The pending outcome needs at least 15 attempts, and shows an order that one of the ticks returned with a non-terminal status |
| OrderSuccess.PendingTicksStopAtCeiling | app/order-success/page.tsx:82-89 | Successive pending answers stop the loop at the tick where the count reaches 15 |
| OrderSuccess.PaidOnThirdTick | app/order-success/page.tsx:72-77 | Two pending answers followed by a paid one show the paid order; later ticks are ignored |
| OrderSuccess.FetchOrder | app/order-success/page.tsx:122-147 | A failed fetch shows the load error. Outside a payment check an unpaid order redirects to the failure page, and the order is shown exactly when it is paid or a check is running |
| OrderSuccess.CheckPaymentStatus | app/order-success/page.tsx:55-120 | The loop with its mutable attempt counter computes the reconciliation function; a pending result has a non-terminal status after at least 15 ticks, and a result still polling has counted every tick |
| OrderSuccess.PaymentMethodLabel | app/order-success/page.tsx:173-183 | No method shows "Nicht angegeben"; the known codes show their labels |
| OrderSuccess.PaymentMethodLabelUnchanged | app/order-success/page.tsx:173-183 | A method is shown unchanged exactly when it is not one of the relabelled codes |
| OrderSuccess.StatusColor | app/order-success/page.tsx:160-171 | Unknown statuses get the slate default, and only they do |
| OrderManagement.StatusLabel | app/admin/components/OrderManagement.tsx:160-169 | The five order statuses get their German labels, and a status is shown unchanged exactly when it is not one of them |
| OrderManagement.PaymentStatusLabel | app/admin/components/OrderManagement.tsx:171-179 | The four payment statuses get their German labels, and a value is shown unchanged exactly when it is not one of them |
| OrderManagement.StatusColor | app/admin/components/OrderManagement.tsx:128-143 | The slate default is used exactly for unknown order statuses |
| OrderManagement.PaymentStatusColor | app/admin/components/OrderManagement.tsx:145-158 | The slate default is used exactly for unknown payment statuses |
| OrderManagement.OrdersUrl | app/admin/components/OrderManagement.tsx:61-63 | The URL is the orders endpoint, extended exactly when a status filter is set, and then by "?status=" and the filter |
| OrderManagement.Prefill | app/admin/components/OrderManagement.tsx:90-91 | Opening an order prefills its current status and its tracking number, or "" without an address |
| OrderManagement.UpdateRequest | app/admin/components/OrderManagement.tsx:99-111 | Nothing is sent without a selected order or new status; otherwise that order gets that status, and the tracking number is sent exactly when it is non-empty, whatever the status |
| OrderManagement.HandleUpdateStatus | app/admin/components/OrderManagement.tsx:98-126 | A guarded-out update changes nothing. The list is refetched and the dialog closed exactly for an ok answer, which also clears the selection and sets no error (an earlier error is left as it was). A non-ok answer keeps the dialog open with "Failed to update status"; a thrown fetch keeps it open with the exception's message, or "Fehler beim Aktualisieren" when that is empty. The busy flag is always reset |
| OrderManagement.OpenedDialogStartsDisabled | app/admin/components/OrderManagement.tsx:450 | The update button starts disabled when an order is opened, because the prefilled status equals the current one |
| OrderManagement.ShowsTrackingInput | app/admin/components/OrderManagement.tsx:438 | The tracking field appears exactly when the chosen status is SHIPPED |
| OrderManagement.UpdateDisabled | app/admin/components/OrderManagement.tsx:450 | The button is disabled while an update runs; otherwise it is disabled exactly when the chosen status equals the order's current one |
| OrderManagement.TrackingSentWhileHidden | app/admin/components/OrderManagement.tsx:103-111 | A tracking number typed for SHIPPED and kept after switching to another status is still sent, though its field is hidden |
| OrdersPage.StatusLabel | app/orders/page.tsx:75-84 | The customer's order list labels every status as the order administration does |
| OrdersPage.StatusColor | app/orders/page.tsx:86-101 | The customer's order list colours every status as the order administration does |
| OrdersPage.HasPendingPayments | app/orders/page.tsx:42-46 | True exactly when some order's payment is PENDING |
| OrdersPage.FetchOrders | app/orders/page.tsx:53-72 | A foreground load ends not loading, and a background refresh never touches the flag. A listed answer replaces the orders; a failure keeps them and shows "Failed to fetch orders" for a non-ok answer, or the thrown message, falling back to "Fehler beim Laden der Bestellungen" |
| OrdersPage.RefreshTick | app/orders/page.tsx:42-47 | Without a pending payment the refresh changes nothing; with one it is a quiet fetch, whose listed answer replaces the orders. It never touches the loading flag |
| ProductsPage.FilteredProducts | app/products/page.tsx:95-104 | Only active products that pass all five filters are kept, and every such product is kept as often as it occurs in the catalogue |
| ProductsPage.MatchesSearch | app/products/page.tsx:100-101 | An empty query matches every product; without a description, a product matches exactly when its name contains the query, case-insensitively |
| ProductsPage.FilteredIsSubseq | app/products/page.tsx:95 | The filtered list is an order-preserving subsequence of the catalogue |
| ProductsPage.EmptyQueryMatchesAll | app/products/page.tsx:100-101 | An empty search query matches every product |
| ProductsPage.ComparatorConsistent | app/products/page.tsx:107-120 | Each choice of sort gives a consistent comparator (a total preorder) |
| ProductsPage.VisibleProducts | app/products/page.tsx:107 | The sorted list is a permutation of the filtered one |
| ProductsPage.VisibleSorted | app/products/page.tsx:107-120 | The sorted list is ordered by the chosen comparator |
| ProductsPage.PriceLowAscending | app/products/page.tsx:109-110 | "price-low" gives non-decreasing prices |
| ProductsPage.PriceHighDescending | app/products/page.tsx:111-112 | "price-high" gives non-increasing prices |
| ProductsPage.UnknownSortKeepsOrder | app/products/page.tsx:117-118 | The default or any unknown sort keeps the filtered order |
| ProductsPage.DistinctCategories | app/products/page.tsx:53 | The categories are listed without repetition and every product's category is among them |
| ProductsPage.DistinctCategoriesOccur | app/products/page.tsx:53 | Every listed category is some product's category |
| ProductsPage.CategoryList | app/products/page.tsx:53-61 | The list starts with "Alle" counting all products; after it come the distinct categories, each with the number of catalogue products in that category; the names are distinct and each counts at least one product |
| ProductsPage.CategoryCountsSumToAll | app/products/page.tsx:53-61 | The counts after "Alle" add up to the number of products |
| ProductsPage.PriceCeiling | app/products/page.tsx:64-66 | The upper bound is a multiple of 100 CHF, at least every price, and less than 100 CHF above the highest price |
| ProductsPage.PriceRangeAfterLoad | app/products/page.tsx:64-67 | An empty catalogue keeps the range; otherwise it becomes 0 to the ceiling |
| ProductsPage.LoadedRangeCoversCatalogue | app/products/page.tsx:64-67 | After loading, every product with a non-negative price lies inside the price range |
| ProductsPage.SliderMax | app/products/page.tsx:122 | The slider maximum is 1000 CHF without products; otherwise it is the highest price: at least every price and equal to one of them |
| ProductsPage.AddToCartRequest | app/products/page.tsx:124-135 | The product is added exactly when it has an image, with its id, name, price and image |
| HomePage.ConsideredProducts | app/page.tsx:77 | Only active products with an image are considered, and all of them are, as often as they occur |
| HomePage.Featured | app/page.tsx:80 | The first min(4, n) considered products, in order |
| HomePage.UpdatedTiles | app/page.tsx:83-86 | Each of the four fixed tiles gets the count of considered products in its category, and nothing else about it changes |
| HomePage.TilesCountFixedCategoriesOnce | app/page.tsx:83-86 | The tile counts add up to the considered products less those outside the four fixed categories |
| HomePage.Carousel.SetFeatured | app/page.tsx:96-97 | Rotation runs exactly when there are featured products |
| HomePage.Carousel.Tick | app/page.tsx:98-100 | A running rotation advances the index to (index + 1) mod n, which stays in range; otherwise it stays |
| HomePage.Carousel.Select | app/page.tsx:207 | Clicking a dot shows that product |
| ProductManagement.WithoutIndex | app/admin/components/ProductManagement.tsx:144 | Exactly the element at the index is removed and the others keep their order |
| ProductManagement.ImageEditor.AddImage | app/admin/components/ProductManagement.tsx:132-141 | A blank URL changes nothing; otherwise the trimmed URL is appended and becomes the main image exactly when the list was empty. The first image stays the main image |
| ProductManagement.ImageEditor.AddUploaded | app/admin/components/ProductManagement.tsx:119-126 | An uploaded image is appended and becomes the main image only in an empty list; the first image stays the main image |
| ProductManagement.ImageEditor.RemoveImage | app/admin/components/ProductManagement.tsx:143-152 | Exactly that image is removed. Removing the first makes the next the main image, removing the last clears it, any other removal keeps it; the first image stays the main image |
| ProductManagement.ImageEditor.Edit | app/admin/components/ProductManagement.tsx:219 | Editing a product starts its image list from its image, if any |
| ProductManagement.ImageEditor.Close | app/admin/components/ProductManagement.tsx:243-264 | Closing the dialog empties the images, the URL field and the main image |
| ProductManagement.SubmittedImage | app/admin/components/ProductManagement.tsx:160-166 | The first listed image is submitted, or the main image without a list; an empty value, including an empty first entry, is sent as null |
| ProductManagement.SubmittedImageIsMainImage | app/admin/components/ProductManagement.tsx:160-166 | While the first image is the main image, exactly the main image is submitted (or nothing when it is empty) |
| ProductManagement.CheckFile | app/admin/components/ProductManagement.tsx:106-115 | A non-image is rejected before the size is considered, an image over 5 MiB is rejected, and exactly images up to 5 MiB are accepted |
| ProductManagement.AdminFiltered | app/admin/components/ProductManagement.tsx:355-361 | Exactly the products whose name, barcode or SKU contains the term, case-insensitively, in the chosen category (or any) are listed, each as often as it occurs |
| ProductManagement.AdminKeep | app/admin/components/ProductManagement.tsx:356-360 | With no term and no category every product is kept; a kept product is in the chosen category, if one is chosen |
| ProductManagement.EmptySearchListsAll | app/admin/components/ProductManagement.tsx:355-361 | No term and no category list every product, in order |
| ProductManagement.StockShownRed | app/admin/components/ProductManagement.tsx:502 | Stock is shown red exactly when it is at most the minimum; an empty stock with a non-negative minimum is therefore red |
| FinanceManagement.Toggled | app/admin/components/FinanceManagement.tsx:74-82 | The toggled id flips membership; every other id keeps its own |
| FinanceManagement.ToggleTwice | app/admin/components/FinanceManagement.tsx:74-82 | Toggling the same id twice restores the set |
| FinanceManagement.FinanceView.constructor | app/admin/components/FinanceManagement.tsx:42-43 | The view starts sorted by profit, descending, with nothing expanded |
| FinanceManagement.FinanceView.ToggleProduct | app/admin/components/FinanceManagement.tsx:74-82 | The expanded set is toggled at that id and the sort is untouched |
| FinanceManagement.FinanceView.HandleSort | app/admin/components/FinanceManagement.tsx:84-91 | The current column flips the direction; another column is selected descending |
| FinanceManagement.ComparatorConsistent | app/admin/components/FinanceManagement.tsx:120-130 | Every column and direction gives a consistent comparator |
| FinanceManagement.SortedProducts | app/admin/components/FinanceManagement.tsx:120 | The sorted list is a permutation of the products |
| FinanceManagement.SortedByKey | app/admin/components/FinanceManagement.tsx:122-129 | Sorting by profit or revenue gives a non-decreasing key ascending and a non-increasing key descending |
| FinanceManagement.SortedByName | app/admin/components/FinanceManagement.tsx:120-121 | Sorting by name orders the names alphabetically, ascending or descending |
| AdminDashboard.FetchStats | app/admin/page.tsx:54-99 | A failed load keeps the counters. Otherwise they are the product count, the low-stock and out-of-stock counts, the pending-order count and the revenue, each 0 when its answer is missing; low plus out-of-stock never exceeds the total |
| AdminDashboard.LowStock | app/admin/page.tsx:71 | A low-stock product has some stock left and is shown red in the product table |
| AdminDashboard.OutOfStock | app/admin/page.tsx:72 | An out-of-stock product is never also low-stock, and with a non-negative minimum it is shown red |
| AdminDashboard.CountedProductsShownRed | app/admin/page.tsx:71-72 | A product the dashboard counts as low or out of stock is shown red in the product table |
| AdminDashboard.LowStockWarning | app/admin/page.tsx:251-264 | The warning shows exactly with low-stock products, in the singular exactly for one. The out-of-stock note appears exactly with such products, again singular exactly for one |
| AdminOrders.FilteredOrders | app/admin/orders/page.tsx:111-140 | Exactly the orders within the date period and matching the query are kept, each as often as it occurs in the list |
| AdminOrders.FilteredOrdersIsSubseq | app/admin/orders/page.tsx:111 | The filtered orders are an order-preserving subsequence |
| AdminOrders.AllWithoutQueryKeepsEverything | app/admin/orders/page.tsx:116-128 | The "all" period with no query keeps every order |
| AdminOrders.EmptyQueryFiltersByDateOnly | app/admin/orders/page.tsx:131-139 | With an empty query the result is the date-filtered list |
| AdminOrders.ListSummary | app/admin/orders/page.tsx:418-422 | The summary counts the filtered orders; no orders give count and value 0, and one order gives that order's total |
| AdminOrders.SummaryAppend | app/admin/orders/page.tsx:418-422 | The summary of two lists together is the sum of their summaries, count and value alike; with the empty and one-order cases this fixes the value as the sum of the totals |
| AdminOrders.OnDate | app/admin/orders/page.tsx:116-128 | The "all" period keeps every order; today, week and month keep exactly the orders created at or after the period's start |
| AdminOrders.MatchesQuery | app/admin/orders/page.tsx:131-139 | An empty query matches every order; without a name, an order matches exactly when its number or e-mail contains the query, case-insensitively |
| AdminOrders.StatusBadge | app/admin/orders/page.tsx:80-94 | Unknown statuses fall back to a gray badge with the raw status; known ones get another colour and a label |
| AdminOrders.StatusBadgeAgreesExceptShipped | app/admin/orders/page.tsx:80-94 | The order list's badges agree with the order administration's colours and labels, except that SHIPPED is labelled differently |
| AdminOrders.PaymentStatusBadge | app/admin/orders/page.tsx:96-109 | Known payment statuses get the administration's labels; the badge is gray exactly for REFUNDED and unknown values |
| AdminOrders.OrdersUrl | app/admin/orders/page.tsx:61-63 | The order list builds the same URL as the order administration |
| RegisterPage.HandleChange | app/register/page.tsx:24-30 | The edited field takes the value, the other fields keep theirs, and the error is cleared |
| RegisterPage.HandleSubmit | app/register/page.tsx:32-61 | Differing passwords, then passwords under 6 characters, are rejected with their messages and nothing is sent. Otherwise the account is requested with the e-mail and password, and with the name and phone exactly when they are non-empty. The verification notice shows exactly on success; a failure shows its message, or "Registrierung fehlgeschlagen" when that is empty |
| RegisterPage.MismatchTakesPrecedence | app/register/page.tsx:36-44 | A short password that also differs from its confirmation is reported as a mismatch |
| ProfilePage.HandleChangePassword | app/profile/page.tsx:113-140 | A mismatch is reported before the length check and neither sends anything. Success resets all three fields and closes the form; a failure keeps the form and shows its message as an error, or "Fehler beim Ändern des Passworts" when that is empty |
| ProfilePage.SaveProfileCall | app/profile/page.tsx:103 | An empty full name or phone is sent as undefined, any other value as it is |
| ProfilePage.HandleSaveProfile | app/profile/page.tsx:99-111 | The profile is always sent; success ends editing with the success message, and a failure keeps the edit state and shows its message as an error, or "Fehler beim Aktualisieren des Profils" when that is empty |
| ProfilePage.ApplyVerifiedParam | app/profile/page.tsx:40-50 | Exactly `verified=true` marks the e-mail verified, shows the success message and reloads the customer; anything else changes nothing |
| Text.TrimEmptyIffBlank | app/admin/components/ProductManagement.tsx:132-133 | A URL trims to "" exactly when it consists only of the white space and line terminators JavaScript's trim strips |
| Text.ContainsIffOccurs | app/products/page.tsx:100-101 | `includes` holds exactly when the query occurs at some offset |
| Sorting.SortSorted | app/products/page.tsx:107 | The stable sort's result is ordered by any consistent comparator |
| Sorting.SortAllTiesKeepsOrder | app/products/page.tsx:117-118 | A comparator that ties everything leaves the order unchanged |
| Seqs.FilterIsSubseq | app/admin/orders/page.tsx:111 | `filter` returns an order-preserving subsequence |
| Seqs.DisjointCounts | app/admin/page.tsx:70-72 | Counts of two disjoint groups add up to at most the length |

## Left out

- Network, SDK and timers: every `fetch`, every Stripe call and every timer firing is an input; JSON decoding is not modelled.
- Navigation, `window.history` and the auth context are left out, except where a route or a reload request is part of an outcome.
- app/context/CartContext.tsx is not part of this model, so the cart store's own semantics are out. The checkout restore is modelled as the calls it makes on the store.
- Floating point is replaced by integer Rappen, and the display formatting (`toFixed`) is not modelled.
- ProductsPage.PriceCeiling: the price slider's 100 CHF rounding step and 1000 CHF default are scaled to Rappen (10000 and 100000).
- Date arithmetic is out: the start of today, the week and the month are inputs to `AdminOrders.FilteredOrders`.
- `toLowerCase` maps only ASCII and Latin-1 capitals.
- `localeCompare` is taken as character-code order.
- String lengths count characters, not UTF-16 code units.
- Label lookups through object literals are modelled as plain maps. Keys inherited from `Object.prototype` (such as "constructor") are not modelled.
- OrderSuccess.CheckPaymentStatus: the immediate check and the first ticks can overlap in the source. The model runs the immediate check first, then the ticks in order.
- OrderSuccess.FetchOrder: the fallback after a thrown immediate check is modelled with payment checking off. That is the value its closure sees when the effect starts.
- OrdersPage.RefreshTick: the background refresh tests the orders of the render that created the interval (`seen`), not the latest list.
- Image upload to storage, barcode scanning and the camera are left out; `AddUploaded` takes the uploaded URL (or "" on failure) as input.
- Checkout.HandleFormSubmit: the computed total is not part of the order request, as in the source; it is used only for display.
- AdminDashboard.FetchStats: the `statsLoading` flag is not modelled.
- ProfilePage: the e-mail verification check and resend handlers (`handleCheckVerification`, `handleResendVerification`) are not modelled; they only relay a service answer to a message.
- HomePage.Carousel.Tick: the four-second interval is an explicit tick event.
- Checkout.CheckoutPage.FireTimers: the restore staggers its quantity updates by 20 ms per line, so they fire in the order they were scheduled. The model fires all pending updates in one explicit event and does not model interleaving with other cart changes.
