# LUXE storefront: cart, checkout and order reconciliation in Dafny

A model of the logic of a Next.js apparel storefront, with proofs about that model:

- **The cart provider.** It holds a list of lines keyed by (product id, size). It supports add-or-merge, remove, set-quantity and clear. It derives the cart total and the unit count. It restores itself from browser storage and writes itself back.
- **The pricing rule.** The cart and checkout pages share it: shipping is free from 100.00, otherwise 9.99.
- **The checkout form's submit sequence.** It creates a payment intent, confirms the card, posts the order, then clears the cart.
- **The row and card components.** These are the components that call the cart: the cart row's −/+/remove buttons and the product card's quick add and initials placeholder.
- **The payment webhook.** It marks the order carrying a succeeded payment intent as paid.
- **The API routes.** The orders route assigns owners and lists orders by role. The products route builds the product query and guards creation to admins.
- **The product and order schemas.** Each is a datatype, a validity predicate and a `Build` that applies defaults and validation.
- **The admin page's product form and data gate.** The form toggles sizes, normalises image URLs and chooses between update and create; the gate loads data only for admins.

Money is integer cents throughout: 100.00 is `10000` and 9.99 is `999`.

Remote systems are parameters:
- the payment provider (intent creation, card confirmation, webhook signature check);
- the database (success of connecting and writing; ids and clock readings);
- the browser's storage and JSON.

Each module follows one source file:
- `CartStore`: `context/CartContext.jsx`
- `CartPage`: `app/cart/page.jsx`
- `Checkout`: `app/checkout/page.jsx`
- `CartItemView`: `components/CartItem.jsx`
- `ProductCard`: `components/ProductCard.jsx`
- `StripeWebhook`: `app/api/stripe/webhook/route.js`
- `OrdersRoute`: `app/api/orders/route.js`
- `ProductsRoute`: `app/api/products/route.js`
- `OrderModel`: `models/Order.js`
- `ProductModel`: `models/Product.js`
- `AdminPage`: `app/admin/page.jsx`

Shared helpers:
- `Wrappers`: `Option`, `Result`, and `Reply`, the outcome of a remote call that may throw.
- `Text`: the JavaScript string operations used (`split`, `join`, `trim`, `slice`, `toUpperCase`).
- `NewestFirst`: `sort({ createdAt: -1 })`.
- `Session`: the caller `getAuthUser` returns.

Stateful parts are classes whose methods are proved against the pure functions that specify them:
- `CartStore.LocalStorage` and `CartStore.CartProvider`;
- `Checkout.CheckoutForm`;
- `OrderModel.OrderCollection` and `ProductModel.ProductCollection`;
- `AdminPage.AdminPanel`.

The routes' `Post` methods update these collections in place.

The model follows the code's behaviour, including where it checks less than a storefront might be expected to:
- `addToCart` validates nothing. Any quantity (zero, negative) and any size string are stored as given.
- The order schema puts no minimum on `total`.
- No guard keeps order status moving forward. The webhook sets a shipped or delivered order back to paid (`StripeWebhook.StatusRegresses`).
- Checkout errors carry only a message, with no tag naming the failed step.

## Model

| member | source | states |
|---|---|---|
| CartStore.AddExisting | context/CartContext.jsx:25-33 | adding under a present key keeps the length and raises each line with that key by `quantity`; every line keeps its name, price and image |
| CartStore.AddExistingUnique | context/CartContext.jsx:25-33 | with unique keys, adding under line k's key gives exactly `items[k := items[k] with quantity + q]` |
| CartStore.AddNew | context/CartContext.jsx:35-42 | adding under a new key appends exactly one line at the end, holding the product's id, name, price, first image or `''`, the size and the quantity; earlier lines are unchanged |
| CartStore.AddPreservesUnique | context/CartContext.jsx:23-44 | adding keeps (productId, size) keys unique |
| CartStore.AddCount | context/CartContext.jsx:23-69 | with unique keys, adding raises the count by exactly `quantity` |
| CartStore.AddTotalNew | context/CartContext.jsx:35-68 | adding under a new key raises the total by the product's price times quantity |
| CartStore.AddTotalExisting | context/CartContext.jsx:28-68 | adding under an existing key raises the total by the line's snapshotted price (not the product's current one) times quantity |
| CartStore.AddEachMerges | context/CartContext.jsx:23-44 | any sequence of adds under one key leaves exactly one line with that key, holding the old quantity plus the sum of the added quantities |
| CartStore.RemoveSpec | context/CartContext.jsx:46-48 | removing leaves no line with the key and keeps every other line exactly as often as it occurred; it is a no-op when the key is absent |
| CartStore.RemoveSplits | context/CartContext.jsx:46-48 | removal works piece by piece (`RemoveLine(a + b) == RemoveLine(a) + RemoveLine(b)`), so the kept lines stay in their order |
| CartStore.RemoveUnique | context/CartContext.jsx:46-48 | with unique keys, removing line k's key gives `items[..k] + items[k+1..]`, so the other lines keep their order |
| CartStore.RemovePreservesUnique | context/CartContext.jsx:46-48 | removing keeps keys unique |
| CartStore.RemoveTotals | context/CartContext.jsx:46-69 | with unique keys, removing line k takes its price × quantity off the total and its quantity off the count |
| CartStore.UpdateSpec | context/CartContext.jsx:50-62 | a quantity ≤ 0 is exactly a removal; a positive one overwrites only the matching lines' quantity, keeping length and order, and is a no-op when the key is absent |
| CartStore.UpdatePreservesUnique | context/CartContext.jsx:50-62 | updating keeps keys unique |
| CartStore.TotalsOfUpdate | context/CartContext.jsx:68-69 | replacing one line changes the total and the count by exactly the difference of that line's contribution |
| CartStore.TotalsOfAppend | context/CartContext.jsx:68-69 | appending a line adds its price × quantity to the total and its quantity to the count |
| CartStore.TotalsOfCut | context/CartContext.jsx:68-69 | cutting a line subtracts its contribution from the total and the count |
| CartStore.TwoSizesTwoLines | context/CartContext.jsx:23-69 | two sizes of a 40.00 product added ×2 and ×1 give two lines, total 120.00 and count 3 |
| CartStore.Restore | context/CartContext.jsx:10-17 | a stored cart is loaded as it is; a missing or unparseable value gives the empty cart |
| CartStore.LocalStorage.SetItem | context/CartContext.jsx:20 | writes one key and leaves every other key as it was |
| CartStore.LocalStorage.RemoveItem | context/CartContext.jsx:15 | removes one key and leaves every other key as it was |
| CartStore.CartProvider.Mount | context/CartContext.jsx:8-21 | mounting loads the stored cart, or the empty cart after removing an unparseable value, then writes the cart back; afterwards storage holds exactly the current lines |
| CartStore.CartProvider.AddToCart | context/CartContext.jsx:19-44 | the new lines are `AddLine` of the old; storage is written back; unique keys are preserved |
| CartStore.CartProvider.RemoveFromCart | context/CartContext.jsx:19-48 | the new lines are `RemoveLine` of the old; storage is written back; unique keys are preserved |
| CartStore.CartProvider.UpdateQuantity | context/CartContext.jsx:19-62 | the new lines are `ChangeQuantity` of the old (removal for quantity ≤ 0); storage is written back; unique keys are preserved |
| CartStore.CartProvider.ClearCart | context/CartContext.jsx:64-69 | the cart is empty, so the total and the count are 0, and storage holds the empty cart |
| CartStore.Reload | context/CartContext.jsx:10-21 | a provider mounted on storage that another provider wrote back reloads the identical lines and leaves storage unchanged |
| CartStore.MountCorrupt | context/CartContext.jsx:11-16 | mounting on an unparseable stored value starts empty, with total and count 0, and overwrites the value with the empty cart |
| CartPage.PricingSpec | app/cart/page.jsx:10-66 | the fee is 0 exactly from 100.00 and 9.99 below it; the total is subtotal plus fee, never below the subtotal; the hint shows exactly below 100.00, names a positive amount, and that amount reaches 100.00 |
| CartPage.PricingExamples | app/cart/page.jsx:10-11 | 85.00 pays 9.99 shipping for 94.99; 100.00 ships free for 100.00 |
| CartPage.ViewSpec | app/cart/page.jsx:13-70 | the empty-cart view is shown exactly when there are no lines; otherwise the summary lists the lines and prices them by the shipping rule |
| Checkout.OrderItemsSpec | app/checkout/page.jsx:45-51 | one posted item per cart line, copying productId, name, price, quantity and size and nothing else |
| Checkout.SubmitPostsOnlyAfterSuccess | app/checkout/page.jsx:31-57 | every submission first requests an intent for the checkout total; the order is posted exactly when confirmation reports `succeeded`, as the last call, carrying the lines, form, total, intent id and status `paid` |
| Checkout.SubmitOutcomes | app/checkout/page.jsx:40-62 | the order is placed exactly when the post returns, and then no error remains; a decline records its message; a non-succeeded status records nothing; a thrown step records the server error or the default message; none of these places an order |
| Checkout.PostedOrderIsAccepted | app/checkout/page.jsx:44-56 | with named, sized lines of quantity ≥ 1 and a filled form, the orders route (database up) creates the posted order: paid, with one item per line, the checkout total and the intent id, owned by the signed-in caller or by nobody for a guest |
| Checkout.CheckoutOfTwoLines | app/checkout/page.jsx:24-66 | checking out a 120.00 cart of two lines charges 120.00 (free shipping), places the order, and the orders route stores it paid with two items |
| Checkout.DeclinedCard | app/checkout/page.jsx:40-41 | "card declined" posts no order and is shown as the error |
| Checkout.CheckoutForm.constructor | app/checkout/page.jsx:16-18 | the form starts with empty fields, no error, not loading and no success, so the pay button is enabled exactly once the payment library has loaded |
| Checkout.CheckoutForm.HandleSubmit | app/checkout/page.jsx:24-66 | without the payment library nothing happens; otherwise the calls and error are those of `Submit`, loading ends false so the pay button is enabled again, and the cart and its storage are cleared (and success set, so no redirect) only when the order was placed; otherwise they are kept |
| CartItemView.PlaceholderSpec | components/CartItem.jsx:12-18 | the placeholder shows exactly when there is no image: the first two characters of the name, upper-cased |
| CartItemView.DecrementLastUnit | components/CartItem.jsx:31 | minus on a line of quantity 1 removes exactly that line; the count drops by 1 and the total by its price |
| CartItemView.DecrementLowers | components/CartItem.jsx:31 | minus on a line of quantity > 1 lowers only that line by 1; the count drops by 1 and the total by its price |
| CartItemView.IncrementRaises | components/CartItem.jsx:38 | plus raises only that line by 1; the count rises by 1 and the total by its price |
| CartItemView.IncrementThenDecrement | components/CartItem.jsx:31-38 | plus then minus on the same row restores the cart |
| CartItemView.RemoveCuts | components/CartItem.jsx:47-49 | remove cuts exactly that row and takes its shown subtotal off the total |
| CartItemView.Step | components/CartItem.jsx:31-38 | with unique keys, moving one row's quantity by n changes that row only, the count by n and the total by price × n |
| ProductCard.FirstCharsOfSplit | components/ProductCard.jsx:13 | taking the first character of each space-separated piece yields exactly the word starts: non-space characters at the start or after a space |
| ProductCard.InitialsSpec | components/ProductCard.jsx:13 | the initials are the first one or two word starts, upper-cased; empty pieces from repeated spaces add nothing |
| ProductCard.InitialsOfTwoWords | components/ProductCard.jsx:13 | "Wool Coat" shows "WC" |
| ProductCard.InitialsAfterLeadingSpace | components/ProductCard.jsx:13 | " silk" shows "S" |
| ProductCard.CategoryClassesSpec | components/ProductCard.jsx:6-47 | the three categories get distinct badge and background colours; any other category gets the fallback colours |
| ProductCard.QuickAddSpec | components/ProductCard.jsx:29-45 | quick add puts one unit in the cart under the first declared size, or `M` when none is declared (then it is `addToCart` with its default size), which is a schema size for a valid product; the count rises by 1 and keys stay unique; the card shows its placeholder exactly when the added line has no image |
| StripeWebhook.Post | app/api/stripe/webhook/route.js:8-33 | the response is 400 for a forged signature and 200 otherwise; the order store becomes `Apply` of the old one |
| StripeWebhook.ResponseSpec | app/api/stripe/webhook/route.js:13-32 | a forged signature gets 400 and every verified event 200; only a verified succeeded event with a working database can change the store |
| StripeWebhook.SucceededSpec | app/api/stripe/webhook/route.js:19-26 | a succeeded event sets the first order carrying the intent to paid and changes nothing else; without a match the store is unchanged |
| StripeWebhook.AtMostOneChanges | app/api/stripe/webhook/route.js:23-26 | at most one order changes, and only in its status |
| StripeWebhook.Idempotent | app/api/stripe/webhook/route.js:23-26 | delivering the same event twice gives the store that delivering it once does |
| StripeWebhook.StatusRegresses | app/api/stripe/webhook/route.js:25 | a shipped or delivered order is set back to paid; an order already paid is left unchanged |
| StripeWebhook.WebhookAndCreateOrders | app/api/stripe/webhook/route.js:23-26 | webhook before order post: the order is stored as posted; post before webhook: the webhook marks it paid |
| OrderModel.ParseStatusSpec | models/Order.js:24-28 | the four status names parse to their status, and nothing else does |
| OrderModel.ItemsErrorSpec | models/Order.js:3-20 | the items are accepted exactly when each has a name, price, size and a quantity ≥ 1 |
| OrderModel.BuildSpec | models/Order.js:18-31 | creation succeeds exactly for acceptable payloads; the stored order is valid, carries the sent fields, total and intent, defaults status to pending and createdAt to now |
| OrderModel.FirstMatch | app/api/stripe/webhook/route.js:23-24 | the index found is the first order carrying the intent; none means no order carries it |
| OrderModel.SetStatusOfFirstAt | app/api/stripe/webhook/route.js:23-26 | updating by intent changes only the first matching order, and only its status |
| OrderModel.SetStatusOfFirstNoMatch | app/api/stripe/webhook/route.js:23-26 | without a matching order the update changes nothing |
| OrderModel.FindFirstWithIntent | app/api/stripe/webhook/route.js:23-24 | the loop returns the first matching index, or none exactly when no order matches |
| OrderModel.OrderCollection.Create | app/api/orders/route.js:12 | the built order is appended when valid; nothing is stored on a validation error |
| OrderModel.OrderCollection.SetStatusByIntent | app/api/stripe/webhook/route.js:23-26 | the store becomes `SetStatusOfFirst` of the old; it returns the first matching order as it was before the update, or nothing exactly when no order carries the intent |
| ProductModel.BuildSpec | models/Product.js:3-13 | creation succeeds exactly for acceptable bodies; the product stored is valid, has the trimmed name and sent fields, keeps a `createdAt` sent in the body, and defaults stock to 0, featured to false and an absent createdAt to now |
| ProductModel.BlankNameRefused | models/Product.js:4 | a whitespace-only name is refused as missing, because trimming runs first |
| ProductModel.ProductCollection.Create | app/api/products/route.js:38-39 | the built product is appended when valid; nothing is stored on a validation error |
| OrdersRoute.Post | app/api/orders/route.js:6-17 | the answer is `PostResult`; the order is inserted exactly when the answer is 201 |
| OrdersRoute.PostSpec | app/api/orders/route.js:6-17 | 201 exactly when the database is up and the owner-assigned payload is valid, otherwise 500; a signed-in caller owns the order whatever was sent; a guest's `user` is kept |
| OrdersRoute.OwnedBySpec | app/api/orders/route.js:29 | the filter keeps each order owned by the caller as often as stored, and nothing else |
| OrdersRoute.ListSpec | app/api/orders/route.js:19-35 | 401 exactly without a caller; an admin gets every order, each as often as stored, newest first; others get exactly their own orders, newest first |
| OrdersRoute.ListsOnlyOwnOrders | app/api/orders/route.js:28-29 | a non-admin never sees an order owned by anyone else, nor a guest order |
| ProductsRoute.BuildQuerySpec | app/api/products/route.js:14-22 | the category filter is set exactly for a category other than `All`; featured exactly for `true`; search exactly for a non-empty search |
| ProductsRoute.FindSpec | app/api/products/route.js:24 | the query keeps each satisfying product as often as stored, and nothing else |
| ProductsRoute.ListSpec | app/api/products/route.js:5-29 | with the database up, the answer is 500 exactly when a non-empty search is a pattern the database rejects; otherwise the listing holds exactly the products passing every filter, each as often as stored, newest first, and a search matches name or description |
| ProductsRoute.ListAll | app/api/products/route.js:14-24 | with no parameters the listing succeeds and holds every product |
| ProductsRoute.PostSpec | app/api/products/route.js:31-45 | a non-admin or anonymous caller gets 401; an admin gets 201 exactly when the database is up and the body is valid, and the product is then valid, with the body's createdAt or else the creation time |
| ProductsRoute.Post | app/api/products/route.js:31-45 | the answer is `PostResult`; the product is inserted exactly when the answer is 201 |
| AdminPage.WithoutSpec | app/admin/page.jsx:30 | filtering out a size keeps every other entry as often as it occurred and removes every occurrence of that size |
| AdminPage.ToggleSpec | app/admin/page.jsx:26-33 | toggling an absent size appends it; toggling a present one removes every occurrence and keeps the rest |
| AdminPage.ToggleTwice | app/admin/page.jsx:26-33 | toggling twice restores which sizes are selected |
| AdminPage.CleanSpec | app/admin/page.jsx:42 | trimmed, non-empty pieces of comma-free text are clean URLs |
| AdminPage.NormalizeTextSpec | app/admin/page.jsx:42 | typed image text yields only non-empty, trimmed, comma-free URLs |
| AdminPage.ImagesRoundTrip | app/admin/page.jsx:42-92 | a URL list shown joined by ", " and submitted unchanged comes back as the same list |
| AdminPage.SaveSpec | app/admin/page.jsx:38-49 | a product with an id is updated by PUT, otherwise created by POST, never both; the body is the form (an edited product's form carries its createdAt) with images normalised (a list passes through, an empty field gives `[]`) |
| AdminPage.SubmitProductForm | app/admin/page.jsx:35-54 | the one save request is made; an alert shows exactly on failure, with the server error or "Failed to save product" |
| AdminPage.AdminPanel.LoadUser | app/admin/page.jsx:139-146 | a stored user record becomes the user; an unparseable one is removed |
| AdminPage.AdminPanel.OnUser | app/admin/page.jsx:148-209 | only an admin fetches products and orders (a failed fetch gives `[]`) and sees the panel; anyone else fetches nothing and sees access denied |
| AdminPage.AdminPanel.FetchProducts | app/admin/page.jsx:157-167 | products become the loaded list or `[]`; loading ends |
| AdminPage.AdminPanel.Delete | app/admin/page.jsx:179-188 | nothing unless confirmed; a successful DELETE reloads the products; a failed one alerts with the server error or "Delete failed" and changes nothing |
| NewestFirst.SortPermutes | app/api/orders/route.js:27 | sorting keeps exactly the documents given, each as often |
| NewestFirst.SortSorted | app/api/products/route.js:24 | the sorted list is newest `createdAt` first |
| NewestFirst.SortStable | app/api/products/route.js:24 | documents created at the same time keep their store order |
| Text.JoinSplit | components/ProductCard.jsx:13 | joining the pieces of a split with the separator gives back the string |
| Text.Split | app/admin/page.jsx:42 | a split has at least one piece and no piece contains the separator |
| Text.Trim | models/Product.js:4 | the trimmed string is a slice of the input with only whitespace cut from either end, and neither of its ends is whitespace |
| Text.TrimOfTrimmed | models/Product.js:4 | trimming a trimmed string changes nothing |
| Text.TrimIgnoresLeadingSpace | app/admin/page.jsx:42 | leading whitespace makes no difference to trim |
| Text.ToUpper | components/CartItem.jsx:16 | upper-casing keeps the length and maps each character |

## Left out

- Floating-point money. Prices, totals and the 9.99 fee are integer cents. `toFixed(2)` display and JavaScript's float sums are not reproduced.
- The payment-intent route (`app/api/stripe/create-payment-intent/route.js`) and its `Math.round(amount * 100)` conversion are not part of this model. `CreatePaymentIntent` carries the checkout total in cents as it is.
- Stripe itself is not modelled: the signature check, `paymentIntents.create` and `confirmCardPayment`. Their outcomes are parameters (`Verification`, `Reply`, `Confirmation`).
- JSON and storage are abstract. A stored value is either a cart or text that does not parse. JSON that parses to something other than an array of lines (`null`, a number, an object) is not modelled. The source keeps such a value instead of removing it, and what the cart then holds is outside this model.
- `Checkout.CheckoutForm.HandleSubmit` only models the state after each submission. `loading` being true while the remote calls are in flight is not captured.
- React rendering, effect scheduling and the gap between `setItems` and the write-back effect are not modelled. `CartProvider.Mount` gives the state after both mount effects.
- Strings are sequences of Unicode scalar values. JavaScript indexes UTF-16 code units, so for a name that starts with a character outside the Basic Multilingual Plane, `slice(0, 2)` (`Text.Take`, `components/CartItem.jsx:16`) and `w[0]` (`ProductCard.FirstChars`, `components/ProductCard.jsx:13`) take a different prefix in JavaScript than in the model.
- `OrderModel.OrderCollection` searches its documents in insertion order. `findOneAndUpdate` takes the first match in MongoDB's natural order, which is not promised to be insertion order. So when several orders carry the same intent, which of them the webhook updates is fixed by the model but not by the database.
- Text.ToUpper (through `Text.UpperChar`) upper-cases ASCII letters only. JavaScript's full Unicode `toUpperCase`, including its length-changing mappings, is not modelled. This carries over to `CartItemView.PlaceholderSpec` and `ProductCard.InitialsSpec`.
- The product search's case-insensitive regular expression is abstract. Matching is the `matches` parameter of `ProductsRoute.Satisfies`, and whether the database accepts the pattern is the `validPattern` parameter of `ProductsRoute.List`. MongoDB's regular-expression syntax is not modelled.
- Mongoose's `populate('user', 'name email')` on the admin listing is not modelled. Nor are its casting of ids and dates, or its validation messages: errors are a `ValidationError` path and a 500.
- `parseFloat` and `parseInt` on the admin form are not modelled. Price and stock arrive already read as cents and integers, with `None` for unreadable input.
- `NewestFirst.Sort` is stable, so equal `createdAt` values keep store order (`NewestFirst.SortStable`). MongoDB does not promise an order for ties, so the model fixes one that the database may not follow.
- The webhook racing with the order post is shown only as its two sequential orders (`StripeWebhook.WebhookAndCreateOrders`). Interleavings are not modelled.
- Authentication (`app/api/auth/*`, token issuing and `getAuthUser`'s token check) is not part of this model. The caller is a parameter.
- Logging (`console.error`) is left out.
- Pure UI files are not part of this model: the navigation bar, footer, home, shop, login, register and product-detail pages, the layout and the Tailwind configuration. Also left out are the admin page's status colours and the products `[id]` route.
