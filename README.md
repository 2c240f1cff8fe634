# Pittsburgh Firewood storefront: record store, cart and subscription flow

A Dafny model of the in-memory bookkeeping of the storefront script
(`script.js`). The script keeps a shopping cart and a small record store of
customers, subscriptions and orders. On a subscription form it looks the
customer up by email, creates one if none exists, and saves a subscription
priced from a separate subscription price table.

The modules follow the script's parts:

- `Wrappers`: the `Option` type that stands for JavaScript's `undefined` on a miss.
- `Seqs`: `Array.prototype.find`, as the index of the first match, and
  `Array.prototype.filter`. Both are defined once and used for every lookup in
  the script. Lemmas cover appending, concatenation, membership and replacing
  one element.
- `Catalog`: the product catalog and the subscription price table, in cents.
  The subscription table keys its bundle entry `bundle-10`, so a `bundle`
  subscription has no price (`None`). Every other catalog product's
  subscription price is the catalog price less 10%, rounded down to whole
  dollars.
- `Delivery`: `calculateNextDelivery` as month arithmetic with carry into the
  year. The month offset is 1 for `monthly`, 2 for `bimonthly`, 3 for
  `quarterly` and 1 for any other value. The next delivery is always strictly
  later than the creation time.
- `Cart`: the cart as a class whose `items` field `AddToCart` reassigns. Its
  invariant is one entry per product key, each a copy of its catalog entry with
  a positive quantity. The cart count is the sum of the quantities, and each
  accepted add raises it by exactly one.
- `Records`: the `Database` class with its three collections, the save methods
  that stamp and append records, the lookup by email (first match), the
  subscriptions of a customer (order-preserving filter), and the status update
  (first match by id; nothing changes on a miss).
- `Storefront`: the subscription form's lookup-or-create-then-save sequence, the
  customer portal lookup, and the pause, resume and cancel actions.

The clock is a parameter everywhere. Record ids (`Date.now()` in the script)
and timestamps are passed in. Ids are opaque strings, and nothing assumes they
are unique: lookups by id take the first match, as `find` does. An `Instant`
is a year, a month numbered as `Date.getMonth` numbers it (0 is January), and
an opaque position within the month.

Record statuses are the strings the script writes (`active`, `paused`,
`cancelled`, `pending`), not an enumeration. The script's status update accepts
any string.

## Model

| member | source | states |
|---|---|---|
| Seqs.FindIndex | script.js:97-99 | the result is the first position whose element passes the test, and None exactly when no element passes |
| Seqs.Filter | script.js:101-103 | the result is no longer than the input, and every element of it passes the test |
| Seqs.FindIndexAppend | script.js:213-220 | after appending to a sequence with no match, the search finds the new element exactly when it passes the test, and otherwise finds nothing |
| Seqs.FindIndexExtend | script.js:97-99 | once an element matches, appending more elements never changes which element `find` returns |
| Seqs.FilterConcat | script.js:101-103 | filtering a concatenation is the concatenation of the filtered parts, so survivors keep their original order |
| Seqs.FilterAppend | script.js:101-103 | a newly appended element appears at the end of the filtered result exactly when it passes the test |
| Seqs.FilterMembership | script.js:101-103 | an element is in the filtered result if and only if it is in the input and passes the test |
| Seqs.FilterUpdate | script.js:105-113 | replacing one element by one the test judges alike keeps the filtered result's length; each survivor is either unchanged or the replaced element turned into its replacement |
| Catalog.SubscriptionPrice | script.js:227 | a price is present exactly when the key is in the subscription price table, and it is that table's entry |
| Catalog.SubscriptionPriceCoverage | script.js:9-42 | of the catalog's product keys, exactly `bundle` has no subscription price |
| Catalog.SubscriptionDiscount | script.js:36-42 | where both tables have a product, its subscription price is the catalog price less 10%, rounded down to whole dollars, and so strictly lower |
| Catalog.SubscriptionPriceExamples | script.js:37-42 | `facecord` subscribes at 359 dollars, `bundle-10` at 92.50 dollars, and `bundle` has no subscription price |
| Delivery.AddMonths | script.js:83 | adding k months advances the month count by exactly k and keeps the position within the month |
| Delivery.MonthOffset | script.js:81-93 | the offset is 1 to 3 months; it is 2 exactly for `bimonthly`, 3 exactly for `quarterly`, and 1 otherwise |
| Delivery.CalculateNextDelivery | script.js:79-95 | the next delivery lies the frequency's month offset after now, in the same position within the month, and strictly after now |
| Delivery.AddMonthsCompose | script.js:83 | adding j and then k months equals adding j + k months (in this month arithmetic, which keeps the position within the month) |
| Delivery.AddMonthsYearCarry | script.js:83 | an offset under a year moves into the next year exactly when it passes December, and wraps the month index |
| Delivery.UnknownFrequencyIsMonthly | script.js:91-92 | any frequency other than `bimonthly` and `quarterly` schedules the same delivery as `monthly` |
| Delivery.FrequencyOrder | script.js:81-90 | from the same date, the monthly delivery comes before the bimonthly one, which comes before the quarterly one |
| Cart.TotalQuantityAppend | script.js:146 | appending an entry adds its quantity to the cart count |
| Cart.TotalQuantityIncrement | script.js:132 | raising one entry's quantity by one raises the cart count by exactly one |
| Cart.TotalQuantityAtLeastLength | script.js:146 | when every quantity is positive, the cart count is at least the number of entries |
| Cart.ShoppingCart.constructor | script.js:5 | the cart starts empty and satisfies its invariant |
| Cart.ShoppingCart.Count | script.js:146 | the count of a valid cart is at least its number of entries, and the empty cart counts zero |
| Cart.ShoppingCart.AddToCart | script.js:125-139 | an unknown key leaves the cart unchanged; a key already present gets its quantity raised by one with every other entry and the length unchanged; a new catalog key appends exactly one entry copied from the catalog with quantity 1; every accepted add raises the count by one; no two entries ever share a key |
| Records.Database.constructor | script.js:46-50 | the store starts with exactly the collections it is given |
| Records.Database.SaveCustomer | script.js:52-58 | the returned record is the input stamped with the given id and creation time; it is appended to the customers; the other collections are unchanged; an email lookup that already found a customer finds the same one afterwards |
| Records.Database.SaveSubscription | script.js:60-68 | the returned record is the input with the given id and creation time, status `active` whatever the input's status was, and the next delivery computed from its frequency; it is appended to the subscriptions; the other collections are unchanged |
| Records.Database.SaveOrder | script.js:70-77 | the returned record is the input with the given id and creation time and status `pending`; it is appended to the orders; the other collections are unchanged |
| Records.Database.GetCustomerByEmail | script.js:97-99 | None exactly when no customer has the email; otherwise the first customer whose email is equal |
| Records.Database.GetCustomerSubscriptions | script.js:101-103 | exactly the subscriptions owned by the customer id, and only those |
| Records.Database.UpdateSubscriptionStatus | script.js:105-113 | an unknown id yields None and leaves the subscriptions unchanged; a known id rewrites only the first match's status and update time and returns that record; customers and orders are unchanged; every customer keeps the same number of subscriptions |
| Storefront.SubmitSubscription | script.js:212-229 | a customer is added only when none has the email, otherwise the existing one is reused; exactly one subscription is appended, owned by that customer, priced from the subscription price table, active, and due the frequency's offset later; afterwards the email finds that customer and the new subscription is last among that customer's subscriptions |
| Storefront.FaceCordQuarterlyScenario | script.js:212-229 | a new customer subscribing to `facecord` quarterly on a store with no customers or subscriptions leaves exactly one customer record and one subscription in it; the customer has that email and an active subscription that belongs to them, priced at 359 dollars and due three months later |
| Storefront.LoadCustomerPortal | script.js:338-345 | None exactly when no customer has the email; otherwise the first customer with that email (the email lookup's result) and that customer's subscriptions in saved order (the subscription filter's result) |
| Storefront.PauseSubscription | script.js:354-359 | the notification is shown exactly when the id is known; then only the first matching subscription becomes `paused`, otherwise nothing changes |
| Storefront.ResumeSubscription | script.js:361-366 | the notification is shown exactly when the id is known; then only the first matching subscription becomes `active`, otherwise nothing changes |
| Storefront.CancelSubscription | script.js:368-373 | the notification is shown exactly when the id is known; then only the first matching subscription becomes `cancelled`, otherwise nothing changes |

## Left out

- Browser storage: the constructor's read of `localStorage` becomes constructor parameters, and `save()` (`script.js:115-119`) writes nothing in the model. The round trip of saving and reloading the collections through JSON is therefore not modelled.
- The contact form (`script.js:243-265`): it only appends a record to browser storage.
- Stripe initialisation and the payment simulators (`script.js:2`, `script.js:310-335`): they are asynchronous and random. `Storefront.SubmitSubscription` stops before the payment step. Its effect on the store does not depend on the payment outcome, because the script never rolls back a subscription whose payment failed.
- The cart total (`script.js:147`): it multiplies floating-point prices. The model keeps prices in integer cents but does not sum them.
- DOM and notification code: the cart badge, `showNotification`, form reset, smooth scrolling, the sticky header, the injected CSS, and the console logging in `loadCustomerPortal`. Where a notification's appearance is all that distinguishes outcomes, a boolean result stands for it.
- Delivery.CalculateNextDelivery: keeps the position within the month unchanged. JavaScript's `setMonth` rolls a day that the target month lacks (31 January plus one month) into the following month. ISO string formatting and time zones are not modelled either.
- Object identity: the script's save methods mutate and return the caller's own object, and `updateSubscriptionStatus` returns the stored object itself. The model works on values, so aliasing between the caller and the store is not captured.
- Property lookup through the prototype chain: `products[productId]` and `subscriptionPricing[product]` also find inherited names such as `toString`. The model treats both tables as plain maps of their own keys.
- `FormData.get` can return `null` for a missing field; the model takes every form field as a string.
- The order payload is whatever the caller passes, and no caller exists in the script; the model gives an order a product key and a quantity.
