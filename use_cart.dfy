/**
 * The cart state holder: one product list, the storage slot it is saved to
 * after every successful change, and the three operations over it. The two
 * remote reads (`/products/{id}` and `/stock/{id}`) are inputs that either
 * delivered data or failed; each user-visible notification is the returned
 * `Outcome`.
 */
module UseCart {
  import opened CartList

  /** What a remote read delivered: its data, or a failure of any kind. */
  datatype Response<T> = Fetched(data: T) | Failed

  /** How an operation ended; each value other than `Ok` and `NoOp` is one error notification. */
  datatype Outcome = Ok | OutOfStock | AddFailed | RemoveFailed | UpdateFailed | NoOp

  /** The list start-up restores from a storage slot: the saved list, or the empty cart when the slot is empty. */
  function Restore(stored: Option<seq<Product>>): seq<Product>
  {
    if stored.Some? then stored.value else []
  }

  class CartProvider {
    var cart: seq<Product>
    var storage: Option<seq<Product>>

    /** Reloading the storage slot now would give back the current cart. */
    predicate Persisted()
      reads this
    {
      Restore(storage) == cart
    }

    /** Start-up: the cart is the list held in the storage slot, or empty when the slot is empty. */
    constructor (stored: Option<seq<Product>>)
      ensures storage == stored
      ensures stored.Some? ==> cart == stored.value
      ensures stored.None? ==> cart == []
      ensures Persisted()
    {
      storage := stored;
      cart := Restore(stored);
    }

    /**
     * Adds one unit of product `productId`. `product` and `stock` are the two
     * reads issued together; if either fails nothing changes. An absent id is
     * appended as the fetched record with amount 1 (no stock check); a present
     * one is incremented only when the stock covers one more unit.
     */
    method AddProduct(productId: int, product: Response<Product>, stock: Response<Stock>) returns (outcome: Outcome)
      modifies this
      ensures product.Failed? || stock.Failed? ==>
        outcome == AddFailed && cart == old(cart) && storage == old(storage)
      ensures product.Fetched? && stock.Fetched? && !HasId(old(cart), productId) ==>
        outcome == Ok && cart == old(cart) + [product.data.(amount := 1)]
      ensures product.Fetched? && stock.Fetched? && HasId(old(cart), productId) ==>
        var inCart := old(Find(cart, productId)).value;
        if stock.data.amount >= inCart.amount + 1 then
          outcome == Ok && cart == Incremented(old(cart), productId)
        else
          outcome == OutOfStock && cart == old(cart) && storage == old(storage)
      ensures outcome == Ok ==> storage == Some(cart)
      ensures outcome == Ok && HasId(old(cart), productId) ==>
        Find(cart, productId) == Some(Bumped(old(Find(cart, productId)).value)) &&
        Find(cart, productId).value.amount <= stock.data.amount
      ensures outcome == Ok && HasId(old(cart), productId) && old(UniqueIds(cart)) ==>
        var k := old(FirstIndex(cart, productId));
        k < |old(cart)| && cart == old(cart)[k := Bumped(old(cart)[k])]
      ensures old(Persisted()) ==> Persisted()
      ensures old(WellFormed(cart)) && (product.Fetched? ==> product.data.id == productId) ==> WellFormed(cart)
    {
      if product.Failed? || stock.Failed? {
        return AddFailed;
      }
      var added := product.data.(amount := 1);
      var inCart := Find(cart, productId);
      if inCart.Some? {
        if stock.data.amount >= inCart.value.amount + 1 {
          IncrementedFacts(cart, productId);
          cart := Incremented(cart, productId);
          storage := Some(cart);
          outcome := Ok;
        } else {
          outcome := OutOfStock;
        }
      } else {
        if WellFormed(cart) && added.id == productId {
          AppendWellFormed(cart, added);
        }
        cart := cart + [added];
        storage := Some(cart);
        outcome := Ok;
      }
    }

    /** Removes every entry of product `productId`, or reports that the cart does not hold it. */
    method RemoveProduct(productId: int) returns (outcome: Outcome)
      modifies this
      ensures HasId(old(cart), productId) ==>
        outcome == Ok && cart == Without(old(cart), productId) && storage == Some(cart)
      ensures HasId(old(cart), productId) && old(UniqueIds(cart)) ==>
        var k := old(FirstIndex(cart, productId));
        k < |old(cart)| && cart == old(cart)[..k] + old(cart)[k + 1..]
      ensures !HasId(old(cart), productId) ==>
        outcome == RemoveFailed && cart == old(cart) && storage == old(storage)
      ensures old(Persisted()) ==> Persisted()
      ensures old(WellFormed(cart)) ==> WellFormed(cart)
    {
      if Find(cart, productId).Some? {
        WithoutFacts(cart, productId);
        cart := Without(cart, productId);
        storage := Some(cart);
        outcome := Ok;
      } else {
        outcome := RemoveFailed;
      }
    }

    /**
     * Sets the amount of product `productId` to `amount`. A non-positive amount
     * ends the call at once (the stock read is never issued, so `stock` is not
     * looked at). Otherwise the amount is set when the stock covers it; an id
     * the cart does not hold leaves the list as it is, and the list is saved.
     */
    method UpdateProductAmount(productId: int, amount: int, stock: Response<Stock>) returns (outcome: Outcome)
      modifies this
      ensures amount <= 0 ==>
        outcome == NoOp && cart == old(cart) && storage == old(storage)
      ensures amount > 0 && stock.Failed? ==>
        outcome == UpdateFailed && cart == old(cart) && storage == old(storage)
      ensures amount > 0 && stock.Fetched? && stock.data.amount >= amount ==>
        outcome == Ok && cart == WithAmount(old(cart), productId, amount) && storage == Some(cart)
      ensures outcome == Ok && HasId(old(cart), productId) ==>
        Find(cart, productId) == Some(old(Find(cart, productId)).value.(amount := amount)) &&
        Find(cart, productId).value.amount <= stock.data.amount
      ensures outcome == Ok && HasId(old(cart), productId) && old(UniqueIds(cart)) ==>
        var k := old(FirstIndex(cart, productId));
        k < |old(cart)| && cart == old(cart)[k := old(cart)[k].(amount := amount)]
      ensures outcome == Ok && !HasId(old(cart), productId) ==> cart == old(cart)
      ensures amount > 0 && stock.Fetched? && stock.data.amount < amount ==>
        outcome == OutOfStock && cart == old(cart) && storage == old(storage)
      ensures old(Persisted()) ==> Persisted()
      ensures old(WellFormed(cart)) ==> WellFormed(cart)
    {
      if amount <= 0 {
        return NoOp;
      }
      if stock.Failed? {
        return UpdateFailed;
      }
      if stock.data.amount >= amount {
        WithAmountFacts(cart, productId, amount);
        cart := WithAmount(cart, productId, amount);
        storage := Some(cart);
        outcome := Ok;
      } else {
        outcome := OutOfStock;
      }
    }
  }

  /** Three concrete scenarios the contracts decide. */
  method Scenarios()
  {
    var shoe := Product(1, "Running shoe", 179.9, "shoe.jpg", 0);

    // An empty cart receives product 1 with amount 1.
    var empty := new CartProvider(None);
    var o := empty.AddProduct(1, Fetched(shoe), Fetched(Stock(1, 5)));
    assert o == Ok && empty.cart == [shoe.(amount := 1)] && empty.storage == Some(empty.cart);

    // One unit in the cart and one in stock: a second unit is refused.
    var single := [shoe.(amount := 1)];
    var full := new CartProvider(Some(single));
    assert Find(single, 1) == Some(single[0]);
    o := full.AddProduct(1, Fetched(shoe), Fetched(Stock(1, 1)));
    assert o == OutOfStock && full.cart == single && full.storage == Some(single);

    // A zero amount leaves the cart alone.
    var two := [shoe.(amount := 2)];
    var held := new CartProvider(Some(two));
    o := held.UpdateProductAmount(1, 0, Failed);
    assert o == NoOp && held.cart == two;
  }
}
