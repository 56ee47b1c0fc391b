# Milk-run storefront: cart pricing, checkout and page state in Dafny

This project models the logic of a subscription dairy-delivery storefront and
its small admin console, and proves properties of that model.

- **Cart page.** Money is whole rupees. The subtotal is the sum of price ×
  quantity. The discount adds two parts on the same base:
  - each subscribed line's own savings percentage on that line;
  - a cart-wide 5 % (weekly) or 8 % (monthly) of the full subtotal.

  The sum is rounded once with JavaScript's `Math.round`. The total is
  subtotal − discount + a delivery fee of 15. The page changes quantities
  (never below 1), removes lines, and dispatches checkout: no method, a
  payment gateway (Razorpay, PhonePe), or cash on delivery.
- **Payment options card.** It tracks which methods are offered and picks a
  default in the order razorpay, phonepe, cod.
- **Product detail page.** It has a quantity stepper and an exact price
  preview per subscription option.
- **Subscription plans page.** Delivery days are toggled on and off; the
  custom plan costs 55 per day.
- **Browse page.** Category filter plus case-insensitive search.
- **Admin media and product lists.** Search, add, edit and delete.
- **Session context.** Login with the demo credentials, register, logout and
  the online switch.

Files: `wrappers.dfy` (Option), `seqs.dfy` (`filter`, `map` and summing as
generic functions, with facts about order, idempotence, permutation and
duplicates), `text.dfy` (ASCII `toLowerCase`, `includes`), then one module
per source file: `cart.dfy`, `payment_options.dfy`, `product_detail.dfy`,
`subscription_plans.dfy`, `browse.dfy`, `media_management.dfy`,
`product_management.dfy`, `auth.dfy`.

Pure computations are functions. Pages whose handlers update React state are
classes with those fields. Each handler is a method whose `ensures` give the
whole new state in terms of the old one. The facts are lemmas about those
functions. The browse page is the exception: its only state is the search
term and the active category (`Browse.tsx:10`, `Browse.tsx:91`), whose
setters just store a value, so the model has no class for it and takes both
as parameters of `FilteredProducts`.

Modelling choices:
- Discounts are exact. A line saving of price × quantity × p % is counted as
  price × quantity × p paise. `Math.round(x)` is `floor(x + 1/2)`, its exact
  JavaScript meaning.
- A gateway's asynchronous callback is a separate step, `Settle`. It receives
  the `PaymentRequest` that checkout produced and exactly one
  `GatewayResult`. The request carries the amount, the order id and the
  subscription option that the callbacks' closure captured.
- The checkout button is disabled while processing (`Cart.tsx:260-266`).
  `PressCheckout` therefore ignores presses while a payment is in flight.
- `login` and `register` await a simulated delay. Each is split into a
  `Begin` step and a `Complete` step, so "loading while the call runs" is
  a state the model has.

In these places the code does something a reader might not expect; the model
follows the code:
- The delivery fee is 15 even for an empty cart.
- A negative total is not clamped. `TotalBounds` gives the conditions under
  which it cannot occur.
- No invalid-cadence error exists: an unknown option id gives no cart-wide
  discount. Because it is not `one-time`, it still leads to subscription
  tracking after payment.
- The cart is not cleared after a successful checkout.

## Model

| member | source | states |
|---|---|---|
| `Cart.CartWidePercent` | src/pages/Cart.tsx:79-86 | weekly gives 5, monthly gives 8, every other id (one-time included) gives 0 |
| `Cart.Round` | src/pages/Cart.tsx:88 | the result is the integer nearest the raw discount, halves going up: r − 1/2 ≤ x < r + 1/2 |
| `Cart.Subtotal` | src/pages/Cart.tsx:64-66 | `calculateSubtotal`, the sum of price × quantity; a definition without a contract of its own, whose properties `SubtotalOfEmpty`, `SubtotalAppend`, `PricingIgnoresOrder` and `TotalBounds` state |
| `Cart.LinePart` | src/pages/Cart.tsx:69-77 | the per-line `reduce` of the discount, exact in paise; a definition, pinned on concrete carts by `InitialCartSummary` and `RoundedOnceOnTheSum` and bounded by `TotalBounds` |
| `Cart.CartWidePart` | src/pages/Cart.tsx:79-86 | the cart-wide 5 % or 8 % of the full subtotal; a definition, its rate stated by `CartWidePercent` and its base by `DiscountsAreNotCompounded` |
| `Cart.RawDiscount` | src/pages/Cart.tsx:68-86 | the two parts added before any rounding; a definition, whose values `InitialCartSummary` and `RoundedOnceOnTheSum` state |
| `Cart.Discount` | src/pages/Cart.tsx:68-89 | `calculateDiscount`, `Round` applied once to the raw sum; a definition, whose properties `SubtotalOfEmpty`, `PricingIgnoresOrder`, `TotalBounds`, `InitialCartSummary` and `RoundedOnceOnTheSum` state |
| `Cart.Total` | src/pages/Cart.tsx:91-94 | subtotal − discount + 15; a definition, whose properties `SubtotalOfEmpty`, `PricingIgnoresOrder`, `TotalBounds` and `InitialCartSummary` state |
| `Cart.CartPage.Summary` | src/pages/Cart.tsx:235-257 | the four lines of the order summary for the current state; its properties are `SummaryAddsUp` |
| `Cart.SummaryAddsUp` | src/pages/Cart.tsx:91-94 | the summary's total is subtotal − discount + the 15 fee, and under the hypotheses of `TotalBounds` 0 ≤ discount ≤ subtotal and 15 ≤ total ≤ subtotal + 15 |
| `Cart.SubtotalOfEmpty` | src/pages/Cart.tsx:64-94 | for every option, an empty cart has subtotal 0 and discount 0, and its total is just the delivery fee |
| `Cart.SubtotalAppend` | src/pages/Cart.tsx:64-66 | the subtotal of two carts joined is the sum of their subtotals |
| `Cart.PricingIgnoresOrder` | src/pages/Cart.tsx:64-94 | any reordering of the lines (same multiset) gives the same subtotal, discount and total |
| `Cart.TotalBounds` | src/pages/Cart.tsx:68-94 | with non-negative prices and savings, and every line's savings plus the option's cart-wide rate at most 100 %, 0 ≤ discount ≤ subtotal, so the total lies between 15 and subtotal + 15 |
| `Cart.InitialCartSummary` | src/pages/Cart.tsx:16-94 | the initial cart: subtotal 305; one-time: discount 13, total 307; weekly: 28.25 → 28, total 292; monthly: 37.4 → 37, total 283 |
| `Cart.DiscountsAreNotCompounded` | src/pages/Cart.tsx:68-89 | the cart-wide rate is taken on the full subtotal; compounding it on the amount left after line savings would give 36 instead of 37 |
| `Cart.RoundedOnceOnTheSum` | src/pages/Cart.tsx:68-89 | the parts 0.40 and 0.32 each round to 0, but the discount is the rounded sum, 1 |
| `Cart.WithQuantityChanged` | src/pages/Cart.tsx:50-58 | same length and order; only `quantity` can change, and only on lines with the id, where it becomes max(1, q + change); quantities ≥ 1 stay ≥ 1 |
| `Cart.QuantityChangeOfUnknownId` | src/pages/Cart.tsx:50-58 | an id no line has leaves the cart unchanged |
| `Cart.WithoutLine` | src/pages/Cart.tsx:60-62 | the result holds exactly the lines whose id differs, each as many times as the cart holds it, and no line with the id; quantities ≥ 1 stay ≥ 1 |
| `Cart.RemovalKeepsOrder` | src/pages/Cart.tsx:60-62 | the result is a subsequence of the cart, so the kept lines stay in order |
| `Cart.RemovalIdempotent` | src/pages/Cart.tsx:60-62 | removing the same id twice is removing it once |
| `Cart.RemovalOfUnknownId` | src/pages/Cart.tsx:60-62 | removing an id no line has leaves the cart unchanged |
| `Cart.Destination` | src/pages/Cart.tsx:111-118 | the home route exactly for `one-time`, subscription tracking for every other option |
| `Cart.Dispatch` | src/pages/Cart.tsx:96-142 | empty method gives no-payment-method; razorpay and phonepe go to their own gateway with the total, the order id and the captured option; anything else places the order at once with the destination for the option |
| `Cart.CashOnDeliverySettlesAtOnce` | src/pages/Cart.tsx:132-142 | every non-empty method other than the two gateways settles immediately, with no gateway request |
| `Cart.CartPage.constructor` | src/pages/Cart.tsx:16-48 | the three initial lines, option one-time, no payment method, not processing |
| `Cart.CartPage.UpdateQuantity` | src/pages/Cart.tsx:50-58 | the cart becomes `WithQuantityChanged` of the old cart; all quantities stay ≥ 1 |
| `Cart.CartPage.RemoveItem` | src/pages/Cart.tsx:60-62 | the cart becomes `WithoutLine` of the old cart |
| `Cart.CartPage.SetSubscriptionOption` | src/pages/Cart.tsx:220-223 | the option card's change sets the cadence and nothing else |
| `Cart.CartPage.SetPaymentMethod` | src/pages/Cart.tsx:225-228 | the payment card's change sets the method and nothing else |
| `Cart.CartPage.PressCheckout` | src/pages/Cart.tsx:96-142 | the button exists only for a non-empty cart (`Cart.tsx:149`); a press while processing is ignored; otherwise the outcome is `Dispatch` of the current method, total and option; processing is on afterwards exactly when a gateway was called; the cart is untouched |
| `Cart.CartPage.Settle` | src/pages/Cart.tsx:107-125 | success and failure both clear processing; a destination is produced exactly on success, chosen by the captured option; the cart is untouched |
| `PaymentOptions.DefaultChoice` | src/components/cart/PaymentOptions.tsx:48-54 | razorpay exactly when available; else phonepe exactly when available; else cod; always an offered method while cash on delivery is on |
| `PaymentOptions.DefaultSelection` | src/components/cart/PaymentOptions.tsx:46-56 | the effect picks a method exactly when nothing is selected and loading is over, and then `DefaultChoice` |
| `PaymentOptions.DefaultIsOffered` | src/components/cart/PaymentOptions.tsx:29-56 | whatever flags the collaborator reports, the default picked is a non-empty method that the card offers |
| `PaymentOptions.PaymentOptionsCard.constructor` | src/components/cart/PaymentOptions.tsx:18-23 | razorpay off, phonepe off, cash on delivery on, loading |
| `PaymentOptions.PaymentOptionsCard.StartFetch` | src/components/cart/PaymentOptions.tsx:28 | loading is set again, availability untouched |
| `PaymentOptions.PaymentOptionsCard.FetchSucceeded` | src/components/cart/PaymentOptions.tsx:29-34 | the gateway flags come from the collaborator, cash on delivery is forced on, loading ends |
| `PaymentOptions.PaymentOptionsCard.FetchFailed` | src/components/cart/PaymentOptions.tsx:35-39 | availability is kept, loading ends |
| `PaymentOptions.PaymentOptionsCard.DefaultEffect` | src/components/cart/PaymentOptions.tsx:46-56 | changes nothing; returns a choice exactly when nothing is selected and loading is over, and the choice is offered |
| `ProductDetail.FindOption` | src/pages/ProductDetail.tsx:82 | none exactly when no option has the id; otherwise the first option with that id |
| `ProductDetail.Price` | src/pages/ProductDetail.tsx:78-90 | `calculatePrice`, exact; a definition, whose cases `OneTimePrice`, `OptionPrice` and `UnlistedOptionPrice` state |
| `ProductDetail.ProductDetailPage.CurrentPrice` | src/pages/ProductDetail.tsx:195 | the price shown for the current quantity and purchase type; its properties are `CurrentPriceBounds` |
| `ProductDetail.CurrentPriceBounds` | src/pages/ProductDetail.tsx:78-90 | with quantity ≥ 1 the shown price is positive, at most 55 × quantity (exactly that for one-time) and at least 90 % of it, whatever the purchase type |
| `ProductDetail.OneTimePrice` | src/pages/ProductDetail.tsx:78-90 | one-time costs exactly price × quantity |
| `ProductDetail.OptionPrice` | src/pages/ProductDetail.tsx:81-86 | a listed option (first with its id) costs price × quantity × (1 − savings/100), unrounded |
| `ProductDetail.UnlistedOptionPrice` | src/pages/ProductDetail.tsx:82-89 | an id not listed falls back to the undiscounted price |
| `ProductDetail.ProductPricesOrdered` | src/pages/ProductDetail.tsx:46-90 | daily, alternate and weekly take 10 %, 8 % and 5 % off, so 0 ≤ daily ≤ alternate ≤ weekly ≤ one-time for non-negative price and quantity |
| `ProductDetail.ProductDetailPage.constructor` | src/pages/ProductDetail.tsx:17-18 | quantity 1, purchase type one-time |
| `ProductDetail.ProductDetailPage.IncrementQuantity` | src/pages/ProductDetail.tsx:75 | quantity goes up by one |
| `ProductDetail.ProductDetailPage.DecrementQuantity` | src/pages/ProductDetail.tsx:76 | quantity becomes max(1, q − 1), so it stays ≥ 1 |
| `ProductDetail.ProductDetailPage.SetPurchaseType` | src/pages/ProductDetail.tsx:160-181 | the radio buttons set the purchase type |
| `SubscriptionPlans.Toggled` | src/pages/SubscriptionPlans.tsx:25-31 | a selected day is gone afterwards (the list shrinks); an unselected one is appended at the end |
| `SubscriptionPlans.ToggleFlipsOnlyThatDay` | src/pages/SubscriptionPlans.tsx:25-31 | the toggled day's membership flips; every other day's membership is unchanged |
| `SubscriptionPlans.ToggleKeepsOthersInOrder` | src/pages/SubscriptionPlans.tsx:25-31 | with the toggled day filtered out, the list is the same before and after, so the other days keep their relative order |
| `SubscriptionPlans.ToggleTwiceRestores` | src/pages/SubscriptionPlans.tsx:25-31 | toggling an unselected day twice gives back the identical list |
| `SubscriptionPlans.ToggleKeepsNoDuplicates` | src/pages/SubscriptionPlans.tsx:25-31 | a duplicate-free list stays duplicate-free |
| `SubscriptionPlans.WeekDaysCount` | src/components/products/DeliveryDaySelector.tsx:15-23 | the selector offers seven day ids |
| `SubscriptionPlans.CustomPrice` | src/pages/SubscriptionPlans.tsx:182-185 | `calculateCustomPrice`, days × 55; a definition, bounded by `CustomPriceBounded` |
| `SubscriptionPlans.CustomPriceBounded` | src/pages/SubscriptionPlans.tsx:182-185 | duplicate-free days drawn from the seven ids number at most 7, so the custom price is between 0 and 385 |
| `SubscriptionPlans.SubscriptionPlansPage.constructor` | src/pages/SubscriptionPlans.tsx:22 | no days selected, custom price 0 |
| `SubscriptionPlans.SubscriptionPlansPage.ToggleDay` | src/pages/SubscriptionPlans.tsx:25-31 | the days become `Toggled` of the old days; still duplicate-free week days; custom price in 0..385 |
| `Browse.FilteredProducts` | src/pages/Browse.tsx:93-97 | the result holds exactly the products in the active category whose lower-cased name or description includes the lower-cased term, each as many times as the list holds it |
| `Browse.FilteredKeepsOrder` | src/pages/Browse.tsx:93-97 | the result is a subsequence of the product list |
| `Browse.CategoryAdmits` | src/pages/Browse.tsx:94 | "All" admits every product; any other category admits exactly products of that category |
| `Browse.SearchIgnoresCase` | src/pages/Browse.tsx:95-96 | two terms that lower-case alike give the same result |
| `Browse.SearchTermCaseIrrelevant` | src/pages/Browse.tsx:95-96 | a term and its lower-cased form give the same result |
| `Browse.EverythingShownByDefault` | src/pages/Browse.tsx:93-97 | an empty term with "All" returns the whole list |
| `Browse.DefaultViewListsCatalogue` | src/pages/Browse.tsx:12-97 | so the default view lists all six catalogue products |
| `Browse.EmptyCategoryShowsNothing` | src/pages/Browse.tsx:93-97 | a category other than "All" that no product carries shows nothing, whatever the term |
| `Browse.CreamShowsNothing` | src/pages/Browse.tsx:87-97 | "Cream" is a listed category, yet no product is shown for it, whatever the term |
| `Text.Lower` | src/pages/Browse.tsx:95-96 | `toLowerCase` keeps the length and lower-cases each ASCII capital, leaving every other character as it is |
| `Browse.InCategory` | src/pages/Browse.tsx:94 | the category half of the filter; a definition, whose meaning `CategoryAdmits` states |
| `Browse.MatchesSearch` | src/pages/Browse.tsx:95-96 | the search half of the filter; a definition, whose case-insensitivity `SearchIgnoresCase` and `SearchTermCaseIrrelevant` state |
| `Text.Includes` | src/pages/Browse.tsx:95-96 | `includes` is true exactly when the needle occurs at some position of the haystack |
| `MediaManagement.FilteredMedia` | src/pages/admin/MediaManagement.tsx:53-55 | the result holds exactly the items whose lower-cased name includes the lower-cased term, each as many times as the library holds it |
| `MediaManagement.FilteredMediaKeepsOrder` | src/pages/admin/MediaManagement.tsx:53-55 | the result is a subsequence of the library |
| `MediaManagement.EmptySearchShowsAll` | src/pages/admin/MediaManagement.tsx:53-55 | an empty term lists every item |
| `MediaManagement.MediaSearchIgnoresCase` | src/pages/admin/MediaManagement.tsx:53-55 | terms that lower-case alike list the same items |
| `MediaManagement.WithoutMedia` | src/pages/admin/MediaManagement.tsx:57-60 | exactly the items with the id are gone; every other item stays, as many times as before |
| `MediaManagement.DeleteKeepsOrder` | src/pages/admin/MediaManagement.tsx:57-60 | the rest stay in order, and deleting twice is deleting once |
| `MediaManagement.UploadedItem` | src/pages/admin/MediaManagement.tsx:74-81 | the record an upload adds: the given name and URL, type image, size Unknown, the clock's id and date; a definition, used by the contract of `UploadMedia` |
| `MediaManagement.MediaLibrary.Listed` | src/pages/admin/MediaManagement.tsx:53-55 | what the tab lists keeps the library's order, and is the whole library while the term is empty |
| `MediaManagement.MediaLibrary.constructor` | src/pages/admin/MediaManagement.tsx:48-51 | the four initial items and empty search, name and URL fields |
| `MediaManagement.MediaLibrary.SetSearchTerm` | src/pages/admin/MediaManagement.tsx:105 | the search field sets the term |
| `MediaManagement.MediaLibrary.SetUploadName` | src/pages/admin/MediaManagement.tsx:166 | the name field sets the upload name |
| `MediaManagement.MediaLibrary.SetUploadUrl` | src/pages/admin/MediaManagement.tsx:177 | the URL field sets the upload URL |
| `MediaManagement.MediaLibrary.DeleteMedia` | src/pages/admin/MediaManagement.tsx:57-60 | the library becomes `WithoutMedia` of the old one |
| `MediaManagement.MediaLibrary.UploadMedia` | src/pages/admin/MediaManagement.tsx:67-87 | refused, with nothing changed, exactly when the name or the URL is empty; otherwise one item (given name and URL, type image, size Unknown) is appended and both fields are cleared |
| `ProductManagement.WithAdded` | src/pages/admin/ProductManagement.tsx:46-54 | one product more; the old ones are an unchanged prefix; the new last one is the submission with the fresh id in place of any submitted id |
| `ProductManagement.WithEdited` | src/pages/admin/ProductManagement.tsx:56-60 | same length; every product with the submitted id becomes the submission, the others stay in place |
| `ProductManagement.EditOfUnknownId` | src/pages/admin/ProductManagement.tsx:56-60 | a submission whose id no product has changes nothing |
| `ProductManagement.EditIdempotent` | src/pages/admin/ProductManagement.tsx:56-60 | submitting the same edit twice is submitting it once |
| `ProductManagement.WithoutProduct` | src/pages/admin/ProductManagement.tsx:62-65 | exactly the products with the id are gone; every other product stays, as many times as before |
| `ProductManagement.DeleteProductFacts` | src/pages/admin/ProductManagement.tsx:62-65 | the rest stay in order, and deleting twice is deleting once |
| `ProductManagement.ProductAdmin.constructor` | src/pages/admin/ProductManagement.tsx:42-44 | the three initial products, add dialog closed, nothing being edited |
| `ProductManagement.ProductAdmin.SetAddProductOpen` | src/pages/admin/ProductManagement.tsx:71 | the dialog's open flag follows its open-change event |
| `ProductManagement.ProductAdmin.StartEditing` | src/pages/admin/ProductManagement.tsx:118 | the Edit button makes that product the one being edited |
| `ProductManagement.ProductAdmin.AddProduct` | src/pages/admin/ProductManagement.tsx:46-54 | the list becomes `WithAdded` of the old one and the add dialog closes |
| `ProductManagement.ProductAdmin.EditProduct` | src/pages/admin/ProductManagement.tsx:56-60 | the list becomes `WithEdited` of the old one and nothing is being edited any more |
| `ProductManagement.ProductAdmin.DeleteProduct` | src/pages/admin/ProductManagement.tsx:62-65 | the list becomes `WithoutProduct` of the old one |
| `Auth.Authenticate` | src/contexts/AuthContext.tsx:46-63 | a user exactly for demo@milk.com with password `password`; that user has the given email, is online and passes the admin check |
| `Auth.RegisteredUser` | src/contexts/AuthContext.tsx:78-86 | the given id, name, email and phone; online; rating 5.0; 0 deliveries; no profile image |
| `Auth.AfterRequest` | src/contexts/AuthContext.tsx:40-97 | a login sets the authenticated user or leaves the user as it was; a register always sets the registered user |
| `Auth.LoginOutcome` | src/contexts/AuthContext.tsx:46-63 | wrong credentials never clear a signed-in user; the demo credentials give an online admin (admin check of src/components/layout/AdminLayout.tsx:13) |
| `Auth.RegisterIgnoresPassword` | src/contexts/AuthContext.tsx:72-88 | the new user depends neither on the password nor on who was signed in |
| `Auth.WithOnlineStatus` | src/contexts/AuthContext.tsx:105-112 | no user stays no user; otherwise only `isOnline` changes, to the given status |
| `Auth.AuthProvider.constructor` | src/contexts/AuthContext.tsx:28-29 | no user, loading |
| `Auth.AuthProvider.RestoreSession` | src/contexts/AuthContext.tsx:31-38 | a stored user is taken over; loading ends |
| `Auth.AuthProvider.BeginLogin` | src/contexts/AuthContext.tsx:40-44 | loading is on while the call waits, and the user is untouched |
| `Auth.AuthProvider.BeginRegister` | src/contexts/AuthContext.tsx:72-76 | loading is on while the call waits, and the user is untouched |
| `Auth.AuthProvider.Complete` | src/contexts/AuthContext.tsx:45-97 | the user becomes `AfterRequest` of the pending call; loading ends whatever the outcome |
| `Auth.AuthProvider.Logout` | src/contexts/AuthContext.tsx:99-103 | no user afterwards |
| `Auth.AuthProvider.UpdateOnlineStatus` | src/contexts/AuthContext.tsx:105-112 | the user becomes `WithOnlineStatus` of the old one |

## Left out

- Rendering, layout, icons and the purely presentational pages and components: they hold no logic.
- Toasts, `console` output and the clipboard copy of a media URL: output side effects only.
- Navigation is a side effect. The model returns the destination instead (`Route`).
- Local storage is outside the model. The mount effect reads the stored session, which the model takes as a parameter. The writes after login, register, logout and status change are omitted.
- The payment service's mock timers and random payment ids are not modelled. The mocks never call `onFailure`. A gateway is an abstract collaborator that answers once with success or failure (`GatewayResult`).
- The random order id and the `Date.now()` / `Date` ids and dates are parameters (`orderId`, `newId`, `today`).
- The availability service's answer or failure is a parameter of `FetchSucceeded` / `FetchFailed`.
- Floating point is not modelled. Prices and discounts are exact reals, and the two-decimal display formatting is left out.
- Percentage strings such as '10%' are parsed in the source; the model stores them as integer percents. The admin form's `Number(price)` is an integer price.
- `toLowerCase` is modelled on ASCII letters only. Other characters are kept as they are.
- Record fields that no modelled logic reads are dropped: icons, images, ratings, reviews, tags, nutrition, benefits and plan descriptions. So is the plan-type tab of the subscription plans page.
- React scheduling is not modelled. Each handler and effect is one atomic step, and `login` / `register` are split at their await.
- The `catch` branches of `login` and `register` are not modelled as a separate outcome. The simulated delay never rejects; what can throw is the `localStorage.setItem` and the toast that follow `setUser` (`AuthContext.tsx:59-60`, `AuthContext.tsx:89-90`). The catch branches only show a toast and log, after `setUser` has already run, so `user` and `isLoading` end as `Complete` states.
- Only one auth request is in flight at a time. The `Begin` methods require that nothing is pending, because the login and register pages disable their submit buttons while submitting.
- SubscriptionPlans.SubscriptionPlansPage.ToggleDay: requires the day to be one of the seven selector ids, which is the only way the page calls it.
