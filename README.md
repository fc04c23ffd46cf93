# Shopping-cart state holder

A model of the cart hook of a small storefront (`src/hooks/useCart.tsx`).
The hook owns one ordered list of products. Each product has an `id` and an
`amount`, its quantity in the cart. The hook offers three operations on the
list:

- add one unit of a product;
- remove a product;
- set a product's quantity.

Incrementing a product already in the cart and setting a quantity are checked
against the stock a remote service reports. Removal reads no stock, and a
product not yet in the cart is appended without a stock check. After each
successful change the whole list is written to a browser storage slot, and at
start-up the list is read back from that slot.

- `cart_list.dfy` (module `CartList`) holds the record types and the list
  steps the operations are built from. `FirstIndex`/`Find` is the `find`
  step. `Without` is the `filter` step. `Incremented` and `WithAmount` are the
  two `map` steps. The module also proves the lemmas about these steps.
- `use_cart.dfy` (module `UseCart`) holds the class `CartProvider`. Its fields
  `cart` and `storage` are the React state and the storage slot. Its
  constructor is the state initialiser, and its methods are `addProduct`,
  `removeProduct` and `updateProductAmount`.

The two remote reads are passed in as inputs of type `Response<T>`: either
`Fetched(data)` or `Failed`. The user-visible notifications become the
returned `Outcome`. That outcome is `OutOfStock`, `AddFailed`, `RemoveFailed`
or `UpdateFailed` for the four messages, `Ok` for a saved change, and `NoOp`
for the early return of a non-positive quantity.

Two invariants are proved for every operation:

- `Persisted`: reloading the storage slot gives back the current cart. The
  constructor establishes it, and each operation keeps it, because a
  successful change writes exactly the new list and a failed one writes
  nothing.
- `WellFormed`: there is one entry per id, and every amount is at least 1.
  The code does not enforce this. It holds because add appends only when the
  id is absent, and update sets only positive amounts. For add, the proof also
  needs the product the catalogue returned to carry the requested id. The code
  appends the fetched record (line 41), not a record built from `productId`.

Three behaviours of the code worth knowing:

- A product not yet in the cart is appended with amount 1 without looking at
  the stock it fetched (lines 59-61).
- Add increments every entry with the id, remove drops every entry with the
  id, and update sets every entry with the id. With one entry per id,
  `IncrementChangesOneEntry`, `RemoveDeletesEntry` and
  `WithAmountChangesOneEntry` show that exactly one entry is touched.
- Update saves the list even when the id is not in the cart.

## Model

| member | source | states |
|---|---|---|
| CartList.FirstIndex | src/hooks/useCart.tsx:44 | the position `find` stops at: no earlier entry has the id, and the entry there has it unless the position is the length (no match) |
| CartList.Find | src/hooks/useCart.tsx:71 | `find` returns nothing exactly when no entry has the id; otherwise it returns an entry of the cart with that id |
| CartList.FindIsFirst | src/hooks/useCart.tsx:44 | the entry `find` returns is the first with the id: it sits at a position with no earlier entry of that id |
| CartList.Without | src/hooks/useCart.tsx:72 | the filtered list is no longer than the cart and contains no entry with the removed id |
| CartList.Incremented | src/hooks/useCart.tsx:48-51 | the `map` of add keeps the length, gives every entry with the id one more unit, and leaves every other entry as it was |
| CartList.WithAmount | src/hooks/useCart.tsx:93-97 | the `map` of update keeps the length, gives every entry with the id the requested amount, and leaves every other entry as it was |
| CartList.WithoutMembers | src/hooks/useCart.tsx:72 | a product is in the filtered list if and only if it was in the cart and its id differs from the removed one |
| CartList.WithoutAppend | src/hooks/useCart.tsx:72 | filtering a concatenation filters each part, so the kept entries stay in their original order |
| CartList.WithoutAbsent | src/hooks/useCart.tsx:71-72 | filtering out an id the cart does not hold returns the cart unchanged |
| CartList.RemoveDeletesEntry | src/hooks/useCart.tsx:71-73 | with one entry per id, removing the id at position k yields the cart minus exactly position k |
| CartList.WithoutWellFormed | src/hooks/useCart.tsx:72-73 | removal keeps one entry per id and every amount at least 1 |
| CartList.RemoveUndoesAppend | src/hooks/useCart.tsx:59-73 | appending a product whose id is absent and then removing that id restores the original cart |
| CartList.AppendWellFormed | src/hooks/useCart.tsx:41-61 | appending an absent id with amount 1 keeps one entry per id and every amount at least 1 |
| CartList.IncrementedWellFormed | src/hooks/useCart.tsx:48-52 | incrementing keeps one entry per id and every amount at least 1 |
| CartList.FindIncremented | src/hooks/useCart.tsx:44-52 | the entry whose amount the stock check reads is found again after the increment, with exactly one more unit |
| CartList.IncrementChangesOneEntry | src/hooks/useCart.tsx:46-52 | with one entry per id, incrementing changes only the entry holding the id, and only its amount, by one |
| CartList.WithAmountWellFormed | src/hooks/useCart.tsx:88-98 | setting a positive amount keeps one entry per id and every amount at least 1 |
| CartList.WithAmountChangesOneEntry | src/hooks/useCart.tsx:93-97 | with one entry per id, setting an amount changes only the entry holding the id, and only its amount |
| CartList.FindWithAmount | src/hooks/useCart.tsx:92-99 | after the update, a held product is found with the requested amount; for an absent id the list is unchanged |
| CartList.WithAmountIdempotent | src/hooks/useCart.tsx:93-97 | setting the same amount twice gives the same list as setting it once |
| UseCart.CartProvider.constructor | src/hooks/useCart.tsx:25-33 | start-up takes the stored list when the slot holds one and the empty cart otherwise, and the slot then restores the cart |
| UseCart.CartProvider.AddProduct | src/hooks/useCart.tsx:35-67 | a failed read changes nothing (`AddFailed`); an absent id appends the fetched record with amount 1; a present id is incremented when stock covers one more unit and otherwise nothing changes (`OutOfStock`); every `Ok` saves exactly the new cart, and the incremented amount never exceeds the stock read |
| UseCart.CartProvider.RemoveProduct | src/hooks/useCart.tsx:69-81 | a present id is filtered out and the result saved; with one entry per id that deletes exactly its entry; an absent id changes nothing (`RemoveFailed`) |
| UseCart.CartProvider.UpdateProductAmount | src/hooks/useCart.tsx:83-106 | a non-positive amount changes nothing (`NoOp`); a failed read changes nothing (`UpdateFailed`); a covered amount is set on the matching entries and the list saved, even when no entry matches; with one entry per id exactly that entry changes; an uncovered amount changes nothing (`OutOfStock`) |

## Left out

- React context, provider rendering and the `useCart` accessor are UI plumbing with no behaviour of their own.
- The HTTP client and the `/products` and `/stock` endpoints are network I/O. Each read is an input that delivered a well-formed record or failed.
- Response bodies without the expected fields cannot be expressed. The code handles them as follows:
  - A stock body `{}` makes the comparison with `undefined` false. Add on a held id then reports out-of-stock (lines 47, 56), and update does too (lines 92, 101).
  - A `null` stock body throws where it is read, which reaches the generic add or update error (lines 47 or 92, then 65 or 104).
  - For an id not in the cart the stock body is never read. A product body `{}` or `null` is spread into `{amount: 1}` and appended as a success (lines 41, 59-61).
- The toast notifications are an external UI library. Each one is the returned `Outcome`.
- JSON serialisation and the browser storage API: the slot holds a copy of the list. A stored string that fails to parse, or the empty string (which the initialiser treats as no stored cart), cannot be expressed.
- A storage write that throws (quota exceeded) is not modelled. In the code the cart state would already have been replaced while the catch block reports the operation's generic error. The model assumes every write succeeds.
- The two reads of add run concurrently, and two overlapping calls can each start from the same stale cart, so the last write wins. Each call is modelled as one atomic step over the current state.
- React's deferred state update: the new list is assigned to `cart` at once.
- In-place mutation of the shared product records inside the `map` callbacks is not modelled. A component still holding the previous list would see the changed amounts. The model produces a new list of values, which is what becomes the state and what gets saved.
- UseCart.CartProvider.UpdateProductAmount: the early return for a non-positive amount issues no stock read. The model shows this only in that the `stock` input is never examined.
- Ids, amounts and prices are JavaScript numbers. Ids and amounts are modelled as unbounded integers, so fractional, `NaN` or overflowing values are not covered.
