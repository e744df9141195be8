# LiveBuyNow storefront core in Dafny

This project models the server side of the LiveBuyNow storefront, plus the
browser cart that talks to the same tables:

- the `cart_items` table and the cart endpoint;
- the guest-to-user cart merge;
- the browser cart context of a signed-in user;
- order creation from a cart, and the order listings (the SQL route and the
  repository-based route);
- fulfilment of a paid card checkout;
- the card-gateway payment intent and checkout session;
- mobile-money payments: initiate, callback, status, the provider adapters
  and their registry, and the serverless reference builders and callback;
- the SQL text and placeholder numbering of the product listing and of the
  lookup by ids.

Tables are objects. `CartStore.CartItems` holds the cart rows and
`Ledger.OrderTable` holds the orders and order items. Each SQL statement a
handler issues is one method on those objects, and its effect is stated as a
function of the rows before it. An UPDATE is a `Change` applied to the rows
a `Selector` picks (`Ledger.Rewrite`). Handlers are methods that take the
tables, the request fields and every value the code gets from outside:
fresh ids, the clock, random numbers, provider replies, gateway sessions and
a fault index for a failing statement.

Validation failures are modelled with `Http.Fail`, using the code's status
codes and messages. These include a body the schema rejects (a 500 in these
handlers, because the parse error is caught by the outer handler), a
missing order and an empty cart.

Money is an integer number of minor units. Where the code multiplies a price
by 100 and rounds, or divides by 100, the model keeps the integer unchanged.

Three behaviours of the code are worth spelling out:

- **Callbacks write unconditionally.** A `failed` callback after a `paid`
  one leaves the order failed (`Ledger.FailedAfterPaid`). The only paid
  guard is in initiate (`api/mobile/initiate.ts:39`).
- **Halotel is unreachable from initiate.** The provider enum says
  `halo_pesa`, but the adapter module is named `halotel`.
- **`airtel_money` and `halo_pesa` never reach an adapter.** They always take
  the generic fallback in `api/mobile/initiate.ts:55-67`
  (`Adapters.ProvidersReachingAdapters`).

## Model

| member | source | states |
|---|---|---|
| CartStore.OwnedBy | api/cart.ts:22-26 | the rows returned are exactly the rows of that owner |
| CartStore.WithoutOwner | api/cart.ts:65-72 | after deleting by owner, exactly the rows of other owners remain |
| CartStore.WithoutId | api/cart.ts:61-64 | after deleting by id, exactly the rows with another id remain |
| CartStore.FindConflict | api/cart.ts:39-45 | finds the row the unique index on (owner, product) collides with; none only when no row collides |
| CartStore.UpsertAdds | api/cart.ts:39-48 | the upsert raises the quantity of its (owner, product) key by the added quantity and leaves every other key's quantity unchanged |
| CartStore.UpsertKeepsKeys | api/cart.ts:39-48 | the upsert keeps one row per key, spends at most the fresh id, and contains the returned row |
| CartStore.UpsertFrame | api/cart.ts:39-48 | after the upsert the key has a row; every key present before still is; rows not on the key survive; every row is old or on the key |
| CartStore.Requantified | api/cart.ts:55 | the UPDATE by id sets that row's quantity and leaves every other row as it was |
| CartStore.RequantifyKeepsKeys | api/cart.ts:55 | setting a quantity keeps the key constraint and the set of ids |
| CartStore.FirstWithId | api/cart.ts:56 | the returned row has that id; none only when no row has it |
| CartStore.Joined | api/cart.ts:22-27 | the joined rows are lines with their catalog product, and every line whose product exists appears |
| CartStore.CartItems.Upsert | api/cart.ts:39-48 | INSERT ... ON CONFLICT DO UPDATE: the new rows are `Upserted` of the old ones and the returned row is in the table |
| CartStore.CartItems.Insert | src/contexts/CartContext.tsx:69-71 | a plain insert succeeds iff it collides with no row under the unique indexes; on failure nothing changes |
| CartStore.CartItems.Requantify | api/cart.ts:55-56 | UPDATE ... RETURNING: rows become `Requantified`; a row comes back iff the id existed |
| CartStore.CartItems.DeleteId | api/cart.ts:62 | DELETE by id leaves `WithoutId` of the old rows |
| CartStore.CartItems.DeleteOwner | api/cart.ts:66-70 | DELETE by owner leaves `WithoutOwner` of the old rows |
| CartApi.Get | api/cart.ts:14-28 | 400 iff neither user id nor guest token; otherwise only the chosen owner's rows (user id first), each joined with its product, and every such row |
| CartApi.Post | api/cart.ts:30-50 | a rejected quantity gives 500 with no change; an inactive or unknown product gives 400 with no change; otherwise the upsert for the owner with quantity defaulting to 1 |
| CartApi.Put | api/cart.ts:52-57 | a missing id or a falsy quantity gives 400 with no change; otherwise the row's quantity is set and the updated row returned |
| CartApi.Delete | api/cart.ts:59-74 | deletes by id, else by user, else by guest token, in that order; 400 with no change when none is given |
| CartApi.AddTwiceSums | api/cart.ts:39-48 | from no line for that key, two adds of the same product leave one row holding q1 + q2, and no other key changes (the general case, from any quantity, is `CartStore.UpsertAdds`) |
| CartMerge.Merge | api/cart/merge.ts:8-24 | 400 with no change without both ids; otherwise reports the guest row count and leaves `Merged` of the old rows |
| CartMerge.MergeAddsGuestQuantities | api/cart/merge.ts:13-22 | after a merge the user's quantity of each product is the user's plus the guest's, the guest holds none, and other owners are unchanged |
| CartMerge.MergeFrame | api/cart/merge.ts:13-22 | a merge keeps one row per key, leaves no guest row, gives the user a row for each guest product, and keeps every unaffected row |
| CartMerge.MergeIdempotent | api/cart/merge.ts:13-22 | a second merge finds no guest rows and changes nothing |
| CartContext.FindLocal | src/contexts/CartContext.tsx:62 | finds the first local line for the product; none iff there is no such line |
| CartContext.OwnedByTotal | src/contexts/CartContext.tsx:133 | the sum of the quantities of the user's rows equals the user's total |
| CartContext.SyncedAddNew | src/contexts/CartContext.tsx:69-71 | adding a product the user has no line for inserts one line with that quantity, raising the user's total by it |
| CartContext.SyncedAddIsUpdate | src/contexts/CartContext.tsx:62-67 | adding a product the user already has updates that line to the sum, or deletes it when the sum is below 1; it never inserts |
| CartContext.RaiseLine | src/contexts/CartContext.tsx:83-92 | raising a line keeps the key constraint, raises its key and the user's total by the same amount, and leaves other keys alone |
| CartContext.DropLine | src/contexts/CartContext.tsx:84-87 | a quantity below 1 removes the line: its key disappears, the total drops by its quantity, other keys are unchanged |
| CartContext.DropLeavesNoLine | src/contexts/CartContext.tsx:102-106 | after deleting a line by id, its owner has no line for that product |
| CartContext.DropKeepsOtherKeys | src/contexts/CartContext.tsx:102-106 | deleting one line by id leaves every other key's quantity unchanged |
| CartContext.LocalMissMeansNoLine | src/contexts/CartContext.tsx:62-67 | a product is missing from the user's copy iff the table has no line for it |
| CartContext.CartSession.constructor | src/contexts/CartContext.tsx:29-31 | a new session starts with an empty local copy |
| CartContext.CartSession.Visible | src/contexts/CartContext.tsx:33-42 | signed out, nothing is visible; signed in, exactly the user's rows |
| CartContext.CartSession.CartCount | src/contexts/CartContext.tsx:133 | an empty cart counts 0; in sync, the count is the user's total quantity in the table |
| CartContext.CartSession.Refresh | src/contexts/CartContext.tsx:33-50 | signed out, the local copy is emptied; signed in, it is reloaded from the table, or kept stale when the read fails; the table never changes |
| CartContext.CartSession.AddToCart | src/contexts/CartContext.tsx:56-81 | signed out, nothing changes; with a local line, the quantity update to the sum; otherwise an insert and a refresh when it succeeds; a failing write changes nothing |
| CartContext.CartSession.UpdateQuantity | src/contexts/CartContext.tsx:83-100 | below 1 the line is deleted, otherwise its quantity is set, then in sync; a failing write changes neither the table nor the local copy |
| CartContext.CartSession.RemoveFromCart | src/contexts/CartContext.tsx:102-115 | deletes the line by id and resynchronises; a failing delete changes nothing |
| CartContext.CartSession.ClearCart | src/contexts/CartContext.tsx:117-131 | signed out or on a failing delete, nothing changes; otherwise all the user's rows are deleted and the local copy emptied |
| Ledger.Apply | api/mobile/callback.ts:38 | an UPDATE never changes an order's id, user, number, total, address, notes or creation time |
| Ledger.Rewrite | api/mobile/callback.ts:38-42 | the selected rows get the change and all others stay; ids are kept and stay distinct |
| Ledger.FirstMatch | api/mobile/callback.ts:20 | the first selected row, with none before it; none iff no row is selected |
| Ledger.Lookup | api/mobile/initiate.ts:36-37 | a selected row from the table; none iff no row is selected |
| Ledger.FirstUpdated | api/mobile/callback.ts:38-44 | RETURNING's first row: none iff nothing matched, otherwise the updated form of the first match, present in the new table |
| Ledger.SettleTwice | api/mobile/callback.ts:38-42 | two settlements by one reference compose: the second status and time win and a declared provider overrides |
| Ledger.SettleIdempotent | api/mobile/callback.ts:38-42 | repeating a settlement changes nothing more |
| Ledger.FailedAfterPaid | api/mobile/callback.ts:37-42 | a failed callback after a paid one leaves the order failed, since callbacks have no paid guard |
| Ledger.MarkProviderEffect | api/mobile/providers/index.ts:20-22 | the provider is always set and the reference only when a non-empty one is given; other orders are unchanged |
| Ledger.OrderTable.InsertOrder | api/orders.ts:35-38 | appends the order and leaves the items |
| Ledger.OrderTable.InsertOrderWithItems | api/orders.ts:29-54 | the order INSERT and item INSERTs either all land, appended in order, or (a statement throws) neither table changes |
| Ledger.OrderTable.InsertItem | api/orders.ts:41-43 | appends an item of an existing order |
| Ledger.OrderTable.InsertAll | api/orders.ts:42-44 | inserts items one by one; succeeds iff the fault index names none of them, else keeps only those before it |
| Ledger.OrderTable.Rollback | api/orders.ts:52-54 | ROLLBACK restores the rows from the start of the transaction |
| Ledger.OrderTable.Update | api/mobile/callback.ts:38-42 | the orders become `Rewrite` of the old ones and RETURNING gives `FirstUpdated` |
| OrdersApi.CheckoutRows | api/orders.ts:21-26 | the rows are the chosen owner's lines joined with their products, all of them; empty when neither id is given |
| OrdersApi.Total | api/orders.ts:33 | no rows total 0; non-negative prices and quantities give a non-negative total (with `SnapshotAddsUp`, the items' subtotals add up to it) |
| OrdersApi.SnapshotItem | api/orders.ts:41-43 | an item copies the product name, price and line quantity, and its subtotal is price times quantity |
| OrdersApi.Snapshot | api/orders.ts:42-44 | one item per cart row, in order |
| OrdersApi.SnapshotAddsUp | api/orders.ts:33-44 | the items' subtotals add up to the order total |
| OrdersApi.OrderNumber | api/orders.ts:36 | the order number starts with `ORD-` |
| OrdersApi.OrderNumberParts | api/orders.ts:36 | split at dashes, the number reads back as `ORD`, the time and the random part |
| OrdersApi.OrderNumberInjective | api/orders.ts:36 | different times or random parts give different order numbers |
| OrdersApi.NewOrder | api/orders.ts:35-37 | a new order is pending and unpaid, with method defaulting to mobile_money, the given user only when truthy, the request's phone and address, notes only when truthy, and no provider, reference or payment time |
| OrdersApi.PlaceOrder | api/orders.ts:29-54 | with rows read, a throwing statement leaves orders, items and cart unchanged; otherwise the order, its snapshot and the cleared cart are stored together |
| OrdersApi.Create | api/orders.ts:16-58 | a rejected body, an empty cart or a failing statement leaves both tables unchanged (ROLLBACK); otherwise one order, its snapshot items and the owner's cart cleared, together |
| OrdersApi.ItemsOf | api/orders.ts:68 | the aggregated items are exactly the order's items, and null when it has none |
| OrdersApi.InsertByAgeSorted | api/orders.ts:74 | inserting into a newest-first list keeps it newest first |
| OrdersApi.InsertByAgePermutes | api/orders.ts:74 | inserting adds exactly the new order to the list's multiset |
| OrdersApi.SortKeepsMembers | api/orders.ts:74 | sorting neither adds nor drops an order |
| OrdersApi.SortNewestFirst | api/orders.ts:74 | the listing is newest first and a permutation of its input |
| OrdersApi.OrdersOf | api/orders.ts:74 | exactly the orders of that user |
| OrdersApi.UserViews | api/orders.ts:74-76 | every order of the user appears exactly once (the same multiset), with its items, newest first |
| OrdersApi.Get | api/orders.ts:60-77 | 400 iff neither id; order id first; 404 iff no such order; it fails only in those cases, so a present order id or a user id answers 200 with that order and its items, or with the user's listing |
| OrdersOrm.EntriesOf | src/pages/api/orders/index.ts:32-35 | exactly the user's cart entries |
| OrdersOrm.WithoutEntriesOf | src/pages/api/orders/index.ts:68 | after removal, exactly the entries of other users remain |
| OrdersOrm.BuildItems | src/pages/api/orders/index.ts:56-62 | one item per entry with that product, quantity and price; the items add up to the cart total |
| OrdersOrm.PendingOrder | src/pages/api/orders/index.ts:48-53 | a pending order for the user with the given address and items, whose total is the items' sum when the items were built from the entries |
| OrdersOrm.OrmStore.constructor | src/pages/api/orders/index.ts:15-16 | a new store is empty |
| OrdersOrm.History | src/pages/api/orders/index.ts:18-25 | 200 with exactly the user's orders |
| OrdersOrm.Checkout | src/pages/api/orders/index.ts:27-71 | empty cart gives 400; a failed save changes nothing; otherwise a pending order with the cart total and one item per entry with its product, quantity and price; a failed removal keeps the cart and answers 500 |
| Fulfill.CardOrder | api/fulfill-order.ts:30-34 | the order is numbered `STRIPE-<session id>`, processing, paid by card, with the session total (0 when absent), the given user only when truthy, and the metadata's phone, address and notes |
| Fulfill.ItemName | api/fulfill-order.ts:41 | description, else product name, else `Item`; never empty |
| Fulfill.CardItem | api/fulfill-order.ts:39-42 | unit amount (0 when absent), a non-zero quantity kept and an absent or zero one made 1, subtotal their product, no product id |
| Fulfill.CardItems | api/fulfill-order.ts:38-43 | one item per session line, none when the session has no lines |
| Fulfill.Fulfil | api/fulfill-order.ts:9-57 | 400 without a session id or when unpaid; a failing statement leaves the tables unchanged; otherwise the order and its items are inserted |
| Adapters.GetAdapter | api/mobile/providers/index.ts:9-18 | of the names that can reach it (the provider enum and recorded providers), exactly the module names present (index, tigo_pesa, halotel, vodacom) resolve, and every other gives null |
| Adapters.ProvidersReachingAdapters | api/mobile/providers/index.ts:9-18 | of the four enum providers, only tigo_pesa and vodacom reach an adapter; none reaches Halotel |
| Adapters.ConfigOf | api/mobile/providers/tigo_pesa.ts:5-9 | the merchant is the configured one when set, else the adapter's default (`12345`, `halotel-merchant`, `mpesa-merchant`); sandbox is on unless the variable is set to something other than `true`; Tigo and Halotel take the configured API URL and callback secret (empty when unset), Vodacom has neither |
| Adapters.InstructionNames | api/mobile/providers/tigo_pesa.ts:44-46 | an instruction text names the amount, phone, merchant and reference |
| Adapters.Instruction | api/mobile/providers/tigo_pesa.ts:44-46 | an instruction starts with its sandbox prefix and ends with the reference |
| Adapters.FallbackText | api/mobile/providers/tigo_pesa.ts:44-46 | each adapter's local text starts with `SANDBOX: ` in sandbox (nothing otherwise) and ends with the reference |
| Adapters.InstructionPrefix | api/mobile/providers/tigo_pesa.ts:44-46 | an instruction starts with `SANDBOX: ` iff it is the sandbox form |
| Adapters.FallbackTextFacts | api/mobile/providers/halotel.ts:41-43 | each adapter's local instructions start with `SANDBOX: ` iff in sandbox, and name amount, phone, merchant and reference |
| Adapters.Outcome | api/mobile/providers/tigo_pesa.ts:24-50 | a usable provider reply gives its id (else its reference); otherwise the local reference with local instructions; never an empty reference |
| Adapters.Initiate | api/mobile/providers/tigo_pesa.ts:24-50 | calls the API iff one is configured, with the merchant, amount, phone, order and reference; records the resulting reference on the order |
| Adapters.SettlementFor | api/mobile/providers/tigo_pesa.ts:68 | paid iff the status is `success`, failed otherwise |
| Adapters.HandleCallback | api/mobile/providers/tigo_pesa.ts:52-71 | settles every order with the reference; returns the first one's id iff one exists; a wrong signature only warns |
| MobileApi.ProviderInstructions | api/mobile/initiate.ts:11-25 | every provider's text names the amount, and a provider outside the list gets the generic text |
| MobileApi.InstructionsDistinct | api/mobile/initiate.ts:14-25 | each listed provider's text differs from every other provider's |
| MobileApi.InitiatingAdapter | api/mobile/initiate.ts:43-45 | an adapter is used only when the registry resolves the name to an adapter module |
| MobileApi.Initiate | api/mobile/initiate.ts:28-72 | bad body gives 500; unknown order 404; paid order 400; otherwise the adapter's reference and provider are recorded, or the fallback records provider, reference, phone and pending state; nothing changes on error |
| MobileApi.AdapterPathRecords | api/mobile/initiate.ts:46-47 | on the adapter path the order gains exactly the provider and reference, and others are untouched |
| MobileApi.InitiatedReferenceResolves | api/mobile/initiate.ts:47-65 | after either path, the reference handed to the payer finds the order |
| MobileApi.CallbackAdapter | api/mobile/callback.ts:27 | the declared provider, else the recorded one, picks the adapter |
| MobileApi.Callback | api/mobile/callback.ts:12-50 | bad body gives 500; unknown reference 404; otherwise the adapter or the fallback settles every order with the reference, with no paid guard |
| MobileApi.FallbackSettlement | api/mobile/callback.ts:37-42 | orders with the reference get the mapped status and a payment time, and keep their provider unless one is declared |
| MobileApi.Status | api/mobile/status.ts:10-31 | 400 iff neither key; order id first; 404 iff no order matches; an order id or reference that resolves answers 200 with the matching order's payment view |
| MobileApi.ViewOf | api/mobile/status.ts:20-21 | the status view carries the order's id, payment status, provider and reference |
| Edge.Prefix | supabase/functions/mobile-payment-initiate/providers/airtelmoney.ts:15 | each provider's reference prefix ends with a dash |
| Edge.InitiatePayment | supabase/functions/mobile-payment-initiate/providers/airtelmoney.ts:7-35 | the reference starts with the provider's prefix, and the message is the fixed check-your-phone text |
| Edge.AmountAndPhoneIgnored | supabase/functions/mobile-payment-initiate/providers/airtelmoney.ts:12-15 | the amount and phone do not affect the result |
| Edge.ReferenceRoundTrip | supabase/functions/mobile-payment-initiate/providers/airtelmoney.ts:15 | a reference reads back as provider, order id and time, even when the order id holds dashes |
| Edge.ReferenceInjective | supabase/functions/mobile-payment-initiate/providers/mpesa.ts:15 | equal references come from the same provider, order and time |
| Edge.EdgeSettlement | supabase/functions/mobile-payment-callback/index.ts:25-26 | paid and confirmed iff the status is exactly `SUCCESS`, otherwise failed and cancelled |
| Edge.Callback | supabase/functions/mobile-payment-callback/index.ts:8-58 | an unparsable body or a failing update gives 500 with no change; otherwise 200 and the named order is settled, even if none has that id |
| Edge.CallbackEffect | supabase/functions/mobile-payment-callback/index.ts:28-35 | only the named order changes, in payment status, status and update time; an unknown id changes nothing |
| Products.PlaceholdersSplit | api/products/by_ids.ts:11 | the list splits at commas into `$1` to `$n`, n non-empty pieces |
| Products.DollarInjective | api/products/by_ids.ts:11 | distinct indexes give distinct placeholders |
| Products.ByIds | api/products/by_ids.ts:8-13 | fails (400) iff the ids are missing or empty; otherwise 200, the ids are the parameters and the IN list splits into exactly `$1`, ..., `$n` |
| Products.Clauses | api/products.ts:11-34 | one clause per filter after `is_active = true` |
| Products.AppendFilter | api/products.ts:15-34 | appending a filter appends its clause numbered next and its parameter |
| Products.BuildWhere | api/products.ts:11-34 | the clauses, parameters and next index are those of the query's filters, in order |
| Products.BuildListing | api/products.ts:9-44 | as `BuildWhere`, then LIMIT and OFFSET take the next two placeholders and parameters, defaulting to 100 and 0 |
| Products.FilterAsked | api/products.ts:15-34 | a filter is present iff its query field is truthy |
| Products.FiltersInOrder | api/products.ts:15-34 | at most four filters, in the order category, min price, max price, search |
| Products.ClauseBinding | api/products.ts:15-34 | clause k belongs to filter k, and parameter k to the same filter |
| Products.ClauseNamesPlaceholder | api/products.ts:16-31 | each clause names its own placeholder |
| Products.ListingPlaceholders | api/products.ts:36-44 | clause k names `$k` and parameter k is its value; the last two parameters are limit and offset |
| Card.PriceMap | api/create-payment-intent.ts:19-22 | a product is priced iff some returned row has its id |
| Card.PriceMapLastRow | api/create-payment-intent.ts:19-22 | a later row for the same id overwrites an earlier one |
| Card.BuildPriceMap | api/create-payment-intent.ts:19-22 | the loop builds `PriceMap` of the rows |
| Card.Quantity | api/create-payment-intent.ts:28 | a non-zero quantity is kept; an absent or zero one counts as 1 |
| Card.PriceQuery | api/create-payment-intent.ts:15-17 | one parameter per item: its product id, in order |
| Card.Amount | api/create-payment-intent.ts:24-29 | none iff some item is unpriced; otherwise the sum of price times quantity |
| Card.AmountGrowsByPrice | api/create-payment-intent.ts:24-29 | one more unit of an item adds its price to the amount |
| Card.CreatePaymentIntent | api/create-payment-intent.ts:8-40 | 400 iff no items; 400 iff an item is unpriced; it fails only in those cases, so priced items answer 200 with the server-side amount, currency default usd and metadata default empty |
| Card.LineItemOf | api/create-checkout-session.ts:21-28 | a line item is in usd with the item's name and price; a non-zero quantity is kept and an absent or zero one becomes 1 |
| Card.BaseUrl | api/create-checkout-session.ts:30 | the first truthy of the two settings, else the localhost default |
| Card.SuccessUrl | api/create-checkout-session.ts:36 | starts with the base, names the session placeholder, ends with the user id text |
| Card.SessionMetadata | api/create-checkout-session.ts:38-41 | `user_id` first, then the given metadata, which overrides it |
| Card.CreateCheckoutSession | api/create-checkout-session.ts:14-44 | fails (400) iff no items; otherwise 200 with one line item per item, and the success URL, cancel URL and metadata |
| Card.CheckoutFulfilsCart | api/create-checkout-session.ts:21-28 | fulfilling a session that echoes these line items gives, per item, its price, quantity, subtotal and name |

## Left out

- Number formatting: `toLocaleString` digit grouping in instruction texts is not modelled; amounts are written in plain decimal.
- Floating point: prices are integer minor units, so `Number(...)`, `* 100`, `Math.round` and `/ 100` are not modelled.
- Schema checks on UUID format are not modelled: every id (order ids, and the `user_id` and `product_id` of the cart POST in `api/cart.ts:6-8`) is any string. So `user_id: ""`, which the schema rejects with a 500, is treated as absent by `CartApi.Post`, and the guest token decides the owner.
- Schema error messages are not modelled; every rejected body is reported with one fixed message.
- Every 405 "Method not allowed" branch is left out.
- The generic 500 branches that catch database or network exceptions are left out, except where a fault parameter models a failing statement inside a transaction.
- A failing COMMIT is not modelled.
- Concurrency is not modelled: each handler runs alone. So the second "Transaction not found" in `api/mobile/callback.ts:44` cannot happen in the model, because the reference was just found.
- MobileApi.Initiate: an adapter that throws after a database error falls back to the generic path in the source; the model's adapters do not throw.
- MobileApi.Callback: likewise, a throwing adapter handler is not modelled.
- Adapters.HandleCallback: the HMAC signature is a boolean input rather than a computed digest; the result is only a warning, as in the source.
- Payment gateway calls are not modelled: the gateway session, its client secret and its URL are inputs or left out.
- Provider HTTP calls are not modelled: the reply is an input.
- The registry's dynamic import resolves names against the modules that exist (`Adapters.GetAdapter`); module loading itself is not modelled.
- Adapters.GetAdapter: a name holding a path (such as `../db`) would also resolve in the source; only provider names reach the registry, so such names are not modelled.
- `supabase/functions/mobile-payment-initiate/index.ts`, which dispatches to the four builders, is not part of this model.
- Edge.Callback: a payload without `orderId` is treated as carrying a string id.
- Edge.Callback: the error text (an `Error`'s message or 'Unknown error') is an input.
- SQL whitespace is normalised in the listing text.
- `Number(limit)` and `Number(offset)` are kept symbolic as `Numeric` parameters.
- `src/models/Order.ts`, `src/models/OrderItem.ts` and `src/models/Cart.ts` are not part of this model; their entities are reduced to the fields the route uses.
- Logging and toasts are not modelled.
- CartContext.CartSession.AddToCart, UpdateQuantity, RemoveFromCart and InsertLine: the refresh that follows a successful write is taken to succeed; a failing read is modelled in `Refresh` alone.
- Card.CheckoutFulfilsCart: assumes the gateway echoes each line item's name, price and quantity; the gateway itself is not modelled.
