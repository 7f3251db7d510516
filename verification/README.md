# Storefront core in Dafny

A model of the logic inside a small Arabic-language storefront. It covers three parts.

- **The client-side cart.** `cartReducer` handles its five closed actions: load, add, remove, set quantity and clear. `getTotalItems` and `getTotalPrice` compute the two totals. Module `Cart` defines them; module `CartProperties` proves their laws:
  - how every action moves both totals;
  - that ids stay unique and quantities stay at least one;
  - how actions relate to each other (remove undoes a fresh add, repeated adds, a non-positive update is a removal).
- **The server's in-memory store `MemStorage`.** It holds two JavaScript `Map`s, for products and for orders.
  - Each `Map` is an insertion-ordered association list (module `OrderedMap`). `set` replaces an existing key in place and appends a new key.
  - Module `Storage` defines the queries (by id, by exact category, by featured flag, by lower-cased substring) and the two inserts.
  - Module `CatalogSeed` builds the seeded constructor: eight sample products.
- **Checkout** (module `Checkout`):
  - the field rules of the page's schema and of the reusable form component's schema, with the issues each one reports;
  - the order payload the page builds from the cart;
  - what a submission does to the cart and the store, end to end (`PlaceOrder`).

Shared record shapes live in module `Schema`. The generic array combinators `map` and `filter` live in module `Seqs`; the option and result types live in `Wrappers`.

Modelling conventions:

- Money is an integer number of minor units: `decimal(10,2)` times 100, so `"150.00"` is `15000`. Ratings are integer tenths: `"5.0"` is `50`.
- A cart quantity is an unbounded `int`, because a loaded cart is trusted as it is.
- A string is `seq<char>`, and its length is its number of characters.
- The fresh id (`randomUUID`) and the clock reading (`new Date()`) are parameters `id` and `now`.
- `String.prototype.toLowerCase` is the parameter `lower`.
- Zod's email check is the parameter `isEmail`.
- How the order request ends is the parameter `delivery`:
  - `Rejected`: it failed before the server stored anything.
  - `Unacknowledged`: it failed after the server stored the order, for instance because the answer was lost. The client's `onError` runs.
  - `Confirmed`: it succeeded, and `onSuccess` runs.

The source validates before it checks for an empty cart, and the model follows that order. The form's `handleSubmit` runs the zod schema first and calls `onSubmit` only with valid data. `onSubmit` then returns early when the cart is empty. So with an empty cart and invalid fields the outcome is the field issues, not an empty-cart refusal.

## Model

| member | source | states |
|---|---|---|
| Cart.FindLine | client/src/contexts/cart-context.tsx:19 | `state.find` returns the first line carrying the id. It returns nothing exactly when no line carries it. |
| Cart.Increment | client/src/contexts/cart-context.tsx:21-25 | The length and every id are kept. Each line with the id has its quantity raised by one, with its other fields unchanged. Every other line is unchanged. |
| Cart.Overwrite | client/src/contexts/cart-context.tsx:37-41 | The length and every id are kept. Each line with the id gets exactly the new quantity. Every other line is unchanged. |
| Cart.AddProduct | client/src/contexts/cart-context.tsx:18-28 | If the id is present, the length is kept and only the matching line gains one unit. If it is absent, the old cart stays as an unchanged prefix and one line with the payload fields and quantity 1 is appended. |
| Cart.RemoveProduct | client/src/contexts/cart-context.tsx:30-31 | The result keeps exactly the lines whose id differs, each as often as before and in their original order. No line with the id is left. An absent id leaves the cart as it was. |
| Cart.SetQuantity | client/src/contexts/cart-context.tsx:33-42 | A quantity of zero or less removes the id's lines. A positive quantity replaces, rather than adds to, the quantity of the matching lines and keeps all other lines and the length. An absent id is a no-op. |
| Cart.Reduce | client/src/contexts/cart-context.tsx:13-50 | LOAD_CART yields the payload exactly and CLEAR_CART yields the empty cart. No action other than load or add lengthens the cart. |
| Cart.TotalItems | client/src/contexts/cart-context.tsx:89-91 | The sum of the quantities. When every quantity is at least one, it is at least the number of lines. |
| Cart.TotalPrice | client/src/contexts/cart-context.tsx:93-95 | The sum of price times quantity. It is non-negative when prices and quantities are. |
| CartProperties.TotalsAppend | client/src/contexts/cart-context.tsx:89-95 | Both totals add up over concatenated carts. |
| CartProperties.IncrementItems | client/src/contexts/cart-context.tsx:21-25 | Incrementing the lines of an id raises the item total by the number of such lines. |
| CartProperties.IncrementPrice | client/src/contexts/cart-context.tsx:21-25 | Incrementing the lines of an id raises the price total by the sum of their unit prices. |
| CartProperties.OverwriteTotals | client/src/contexts/cart-context.tsx:37-41 | Overwriting the quantity of an id leaves the items contributed by all other lines unchanged. |
| CartProperties.RemoveTotals | client/src/contexts/cart-context.tsx:30-31 | Removal subtracts exactly the removed lines' quantities from the item total and their amounts from the price total. |
| CartProperties.AddTotals | client/src/contexts/cart-context.tsx:18-28 | On a cart with unique ids, an add raises the item total by one. It raises the price total by the existing line's price if the product is present, otherwise by the product's price. |
| CartProperties.AddPresentTotals | client/src/contexts/cart-context.tsx:20-25 | With unique ids, bumping a product already in the cart adds one item and that line's unit price. |
| CartProperties.AddAbsentTotals | client/src/contexts/cart-context.tsx:27 | Appending a product's new line adds one item and the product's price. |
| CartProperties.RemoveLineTotals | client/src/contexts/cart-context.tsx:30-31 | On a cart with unique ids, removal lowers the totals by the removed line's quantity and amount. It is a no-op for an absent id. |
| CartProperties.OverwriteLineTotals | client/src/contexts/cart-context.tsx:37-41 | On a cart with unique ids, overwriting the line at position i changes the item total from its old quantity to the new one. |
| CartProperties.UpdateLineTotals | client/src/contexts/cart-context.tsx:33-42 | UPDATE_QUANTITY with a positive quantity moves the item total from the line's old quantity to the new quantity. |
| CartProperties.ClearTotals | client/src/contexts/cart-context.tsx:44-45 | CLEAR_CART yields the empty cart, and both totals are zero. |
| CartProperties.UpdateNonPositiveIsRemove | client/src/contexts/cart-context.tsx:34-36 | UPDATE_QUANTITY with a quantity of zero or less gives the same cart as REMOVE_FROM_CART of that id. |
| CartProperties.AddAbsentAppends | client/src/contexts/cart-context.tsx:27 | ADD_TO_CART of a product the cart lacks gives the old cart followed by the product's new line. |
| CartProperties.RemoveAppended | client/src/contexts/cart-context.tsx:30-31 | Removing the id of a line appended to a cart without that id gives the cart back. |
| CartProperties.RemoveUndoesAdd | client/src/contexts/cart-context.tsx:18-31 | Adding a product the cart lacks and then removing it gives back the original cart. |
| CartProperties.RemoveIdempotent | client/src/contexts/cart-context.tsx:30-31 | Removing the same id twice gives the same cart as removing it once. |
| CartProperties.RemoveKeepsWellFormed | client/src/contexts/cart-context.tsx:30-31 | Removal keeps ids unique and every quantity at least one. |
| CartProperties.AddKeepsWellFormed | client/src/contexts/cart-context.tsx:18-28 | An add keeps ids unique and every quantity at least one. |
| CartProperties.OverwriteKeepsWellFormed | client/src/contexts/cart-context.tsx:37-41 | A positive overwrite keeps ids unique and every quantity at least one. |
| CartProperties.ReducePreservesWellFormed | client/src/contexts/cart-context.tsx:13-50 | Every action except LOAD_CART takes a cart with unique ids and positive quantities to another such cart. |
| CartProperties.LoadCartTrustsPayload | client/src/contexts/cart-context.tsx:15-16 | LOAD_CART installs a payload that breaks the cart invariant (a line with quantity zero) without validating it. |
| CartProperties.AddToLastLine | client/src/contexts/cart-context.tsx:19-25 | Adding a product whose only line is the last one bumps that line's quantity and leaves the lines in front of it alone. |
| CartProperties.RepeatedAdds | client/src/contexts/cart-context.tsx:18-28 | Adding a product n ≥ 1 times to a cart that lacks it appends one line with quantity n after the untouched old lines. |
| Seqs.Filter | server/storage.ts:157-161 | `filter` keeps exactly the elements that pass and never lengthens the sequence. If every element passes, the result is the input. |
| Seqs.FilterIsSubsequence | server/storage.ts:157-161 | `filter` keeps the relative order of the elements it keeps. |
| Seqs.FilterCounts | client/src/contexts/cart-context.tsx:31 | `filter` keeps each passing element as many times as it occurs, and no failing element. |
| Seqs.Map | client/src/pages/checkout.tsx:92-98 | `map` keeps the length and transforms element i into the image of element i. |
| OrderedMap.Get | server/storage.ts:153-155 | `Map.get` returns nothing exactly when the key is absent. A value it returns is stored under that key, and with unique keys it is the value of the key's entry. |
| OrderedMap.Set | server/storage.ts:185 | `Map.set` on a present key keeps every key in its position. On an absent key it appends the new entry at the end. |
| OrderedMap.SetFinds | server/storage.ts:185 | After `set(k, v)`, `get(k)` returns v. |
| OrderedMap.SetKeepsOthers | server/storage.ts:197 | After `set(k, v)`, every other key maps to what it mapped to before. |
| OrderedMap.SetKeepsKeysUnique | server/storage.ts:144-146 | `set` never creates a duplicate key. |
| OrderedMap.SetInPlace | server/storage.ts:185 | With unique keys, setting a present key replaces exactly that key's entry and leaves every other entry unchanged. |
| OrderedMap.Values | server/storage.ts:149-151 | `Array.from(m.values())` lists the values in insertion order. |
| Storage.AllProducts | server/storage.ts:149-151 | `getAllProducts` lists every stored product, in insertion order. |
| Storage.GetProductById | server/storage.ts:153-155 | `getProductById` returns nothing exactly when no product is stored under the id. Otherwise it returns the product stored under that id; in a well-shaped store that product carries the id and is among all products. |
| Storage.ProductsByCategory | server/storage.ts:157-161 | `getProductsByCategory` returns exactly the stored products whose category equals c, compared case-sensitively, in insertion order. |
| Storage.FeaturedProducts | server/storage.ts:163-167 | `getFeaturedProducts` returns exactly the stored products flagged as featured, in insertion order. |
| Storage.Contains | server/storage.ts:173-174 | `includes`: the empty string occurs in every string, every string contains itself, and no string contains a longer one. |
| Storage.Matches | server/storage.ts:172-174 | A query that lower-cases to empty matches every product, as does one equal, after lower-casing, to the name or the description. When a product matches, the lower-cased query is no longer than its lower-cased name or its lower-cased description. |
| Storage.SearchProducts | server/storage.ts:169-176 | A product is in the result iff its lower-cased name or description contains the lower-cased query; results keep insertion order. A query that lower-cases to empty returns every product. |
| Storage.CreateProduct | server/storage.ts:178-187 | `createProduct` stamps the id and the time and keeps all submitted fields. Afterwards `getProductById(id)` returns the new product, and every other key still maps to its old product. The orders are untouched, and a fresh id appends the product to the listing. |
| Storage.GetOrderById | server/storage.ts:201-203 | `getOrderById` returns nothing exactly when no order is stored under the id. Otherwise it returns the order stored under that id, which in a well-shaped store carries that id. |
| Storage.CreateOrder | server/storage.ts:189-199 | `createOrder` stamps the id and the time, forces the status to "pending" and keeps the submitted fields. Afterwards `getOrderById(id)` returns the order and every other order is unchanged. The product map, stock quantities included, is unchanged. |
| Storage.SetKeepsKeyed | server/storage.ts:185 | Setting a record under its own id keeps the keys unique and keeps every record stored under its own id. |
| Storage.CreateProductKeepsValid | server/storage.ts:178-187 | Inserting a product keeps the store well-shaped, even when the id collides with an existing key. |
| Storage.CreateOrderKeepsValid | server/storage.ts:189-199 | Inserting an order keeps the store well-shaped, even when the id collides with an existing key. |
| Storage.QueriesAreSubsequences | server/storage.ts:149-176 | Every query answer is a subsequence of `getAllProducts`, and a product found by id is one of them. |
| CatalogSeed.SampleProducts | server/storage.ts:29-142 | The sample list has eight products with ids "1" to "8", in listing order, each stamped with the clock reading. |
| CatalogSeed.SetAll | server/storage.ts:144-146 | Setting products one by one never shrinks the map, grows it by at most one entry per product, and keeps its keys unique. |
| CatalogSeed.NewMemStorage | server/storage.ts:22-26 | The constructor's store has no orders, lists exactly the sample products in order, and is well-shaped. |
| CatalogSeed.SetAllFresh | server/storage.ts:144-146 | Setting products with distinct, unused ids one by one appends them in order. |
| CatalogSeed.SeedFromDistinct | server/storage.ts:144-146 | A store seeded from products with distinct ids lists exactly those products, in order, and is well-shaped. |
| CatalogSeed.SampleFacts | server/storage.ts:29-142 | The sample list has eight products with ids "1" to "8" and their listed categories. Exactly the first five are featured, and all ids differ. |
| CatalogSeed.SeededCatalog | server/storage.ts:22-26 | After construction the store lists the eight sample products in order, under ids "1" to "8", with no orders, and is well-shaped. |
| CatalogSeed.SeededFeatured | server/storage.ts:28-146 | In the seeded store the featured query returns exactly the first five products. |
| CatalogSeed.SeededSkincare | server/storage.ts:28-146 | In the seeded store category "skincare" yields the products with ids "1", "5" and "7", in that order. |
| Checkout.ParsePaymentMethod | client/src/pages/checkout.tsx:29-31 | A string is accepted exactly when it spells one of credit-card, bank-transfer or cash-on-delivery, and then it yields the method it spells. |
| Checkout.PaymentRoundTrip | client/src/pages/checkout.tsx:29 | Spelling a method and parsing the spelling gives the method back, and no two methods share a spelling. |
| Checkout.CheckoutIssues | client/src/pages/checkout.tsx:22-32 | A field of the page's form is reported iff its rule fails. The rules: name and city at least 2 characters, phone and address at least 10, postal code at least 5, an email, one of the three methods. Issues come in schema order. |
| Checkout.ValidateCheckout | client/src/pages/checkout.tsx:22-32 | The page's form is accepted iff all seven rules hold, and the parsed data reads back as the input. Otherwise the non-empty list of failing fields is returned. |
| Checkout.DefaultCheckoutRejected | client/src/pages/checkout.tsx:42-53 | The default form has payment method cash on delivery. It is rejected for its five length rules and, exactly when "" is not an email, for the email, but never for the payment method. |
| Checkout.FormIssues | client/src/components/checkout-form.tsx:11-20 | A field of the component's form is reported iff its rule fails. First and last name and city need at least 2 characters, phone and address at least 10, postal code at least 5, plus an email and one of the three methods. |
| Checkout.ValidateForm | client/src/components/checkout-form.tsx:11-20 | The component's form is accepted iff all eight rules hold, and the parsed data reads back as the input. Otherwise the non-empty list of failing fields is returned. |
| Checkout.DefaultFormRejected | client/src/components/checkout-form.tsx:29-42 | The component's default form has payment method cash on delivery. It is rejected for its six length rules and, exactly when "" is not an email, for the email, but never for the payment method. |
| Checkout.Snapshot | client/src/pages/checkout.tsx:92-98 | The payload's items have one entry per cart line, in cart order, copying id, name, price, quantity and imageUrl. |
| Checkout.SnapshotRoundTrip | client/src/pages/checkout.tsx:92-98 | The cart can be read back from the snapshot unchanged. |
| Checkout.SnapshotTotal | client/src/pages/checkout.tsx:91-98 | The snapshot's items add up to the cart's total price. |
| Checkout.BuildOrder | client/src/pages/checkout.tsx:89-99 | The payload carries the validated fields and a payment method that parses back to the chosen one. Its total is the cart's total price and equals what its items add up to, and its items read back as the cart. |
| Checkout.Submit | client/src/pages/checkout.tsx:77-101 | Invalid fields are reported first, as exactly the failing fields. With valid fields an empty cart is refused before any payload is built. Otherwise the payload is sent. It is the one built from the validated form and the cart, so it carries all seven form fields as typed, the cart's total and the cart's snapshot. |
| Checkout.Settle | client/src/pages/checkout.tsx:60-74 | On success the cart is cleared and both totals become zero. On error the cart is left as it was. |
| Checkout.PlaceOrder | client/src/pages/checkout.tsx:55-103 | A checkout that sends nothing, or whose request is rejected before the server stores anything, changes neither the store nor the cart. Once the server has stored the order, `getOrderById(id)` finds it: pending, stamped with the time, carrying exactly the sent payload, whose total and items are the cart's. Every other order and all products are unchanged. The cart is emptied only when the request is confirmed; an unacknowledged request keeps the cart. An empty cart never reaches the store. |

## Left out

- Browser storage: reading and writing `localStorage` and `JSON.parse` are left out (client/src/contexts/cart-context.tsx:55-71). Only the LOAD_CART transition they dispatch is modelled.
- The reducer's `default` branch (client/src/contexts/cart-context.tsx:47-48) is unreachable for the closed action type, and `Cart.Reduce` matches exhaustively instead.
- Framework glue is left out: React context and hooks, `useMutation` and the HTTP request, toasts, and navigation (`setLocation`). How the request ends is the `delivery` parameter.
- Repeated submissions are not modelled. The confirm button is disabled while `isSubmitting` is set or the order request is pending (client/src/pages/checkout.tsx:404), which blocks a second submission while one is in flight. The model treats each checkout as a single submission.
- The empty-cart page view (client/src/pages/checkout.tsx:109-125) is left out. It renders a redirect prompt instead of the form. The empty-cart guard inside `onSubmit` is modelled.
- Floating-point prices and formatting are left out. Prices are integer minor units, and `toFixed` and the price display are not modelled.
- Checkout.BuildOrder: `totalAmount` is the integer total in minor units, not the two-decimal text `toFixed(2)` produces. `items` is the structured list that the `JSON.stringify` text encodes, not the text itself.
- Checkout.ValidateCheckout: lengths count characters, not the UTF-16 code units zod counts. The email grammar is the abstract `isEmail`. Zod's error messages and its `required_error` wording are not modelled.
- Checkout.ValidateForm: the same character-versus-code-unit and email caveats as Checkout.ValidateCheckout.
- Storage.SearchProducts: `toLowerCase` is the abstract `lower`. Unicode case mapping is not modelled.
- Storage.CreateProduct: the insert shape requires every field. The source's insert schema leaves the defaulted columns optional: `inStock`, `stockQuantity`, `rating`, `reviewCount` and `featured` (shared/schema.ts:13-17, 36-39). `createProduct` spreads the insert as it is (server/storage.ts:180-184), so an omitted field stays absent rather than taking the column default. For example, an omitted `inStock` stays `undefined`, which is falsy, instead of taking its default `true` (shared/schema.ts:13). Absent fields are not modelled.
- Storage.CreateProduct: the id is a parameter rather than a fresh UUID. A colliding id replaces the stored product in place, as `Map.set` would. Freshness is only a hypothesis of the append clause.
- CatalogSeed.SampleProducts: every sample product gets the same clock reading `now`. The source calls `new Date()` separately for each of the eight products, so their `createdAt` values may differ by a few milliseconds.
- Storage.CreateOrder: the id and the timestamp are parameters. `Promise`/`async` wrapping is left out throughout the store. The store keeps no stock bookkeeping, and none is added: no stock is decremented or checked.
- The client-side sort comparator in products.tsx, star rendering and all page markup are left out.
