/**
 * The product list a shopping cart holds, and the three list steps the cart
 * operations are built from: `find` (first entry with an id), `filter`
 * (drop every entry with an id) and the two `map` passes that change the
 * amount of every entry with an id (add one, or set a requested amount).
 */
module CartList {

  datatype Option<T> = None | Some(value: T)

  /** A cart entry: the catalogue record of a product plus `amount`, its quantity in the cart. */
  datatype Product = Product(id: int, name: string, price: real, image: string, amount: int)

  /** The quantity of a product the stock service reports as available. */
  datatype Stock = Stock(id: int, amount: int)

  predicate HasId(cart: seq<Product>, id: int)
  {
    exists i :: 0 <= i < |cart| && cart[i].id == id
  }

  /** No two entries of the cart share an id. */
  predicate UniqueIds(cart: seq<Product>)
  {
    forall i, j :: 0 <= i < j < |cart| ==> cart[i].id != cart[j].id
  }

  /** The shape every cart operation keeps: one entry per id, each with a positive amount. */
  predicate WellFormed(cart: seq<Product>)
  {
    UniqueIds(cart) && forall i :: 0 <= i < |cart| ==> cart[i].amount >= 1
  }

  /**
   * The position of the first entry whose id is `id`, or `|cart|` when
   * there is none: the search `Array.prototype.find` performs.
   */
  function FirstIndex(cart: seq<Product>, id: int): (i: nat)
    ensures i <= |cart|
    ensures i < |cart| ==> cart[i].id == id
    ensures forall j :: 0 <= j < i ==> cart[j].id != id
  {
    if |cart| == 0 then 0
    else if cart[0].id == id then 0
    else 1 + FirstIndex(cart[1..], id)
  }

  /** The first entry of the cart whose id is `id`, if any (`Array.prototype.find`). */
  function Find(cart: seq<Product>, id: int): (r: Option<Product>)
    ensures r.None? <==> !HasId(cart, id)
    ensures r.Some? ==> r.value in cart && r.value.id == id
  {
    var i := FirstIndex(cart, id);
    if i < |cart| then Some(cart[i]) else None
  }

  /** What `Find` returns is the first entry with the id: no entry before it has that id. */
  lemma FindIsFirst(cart: seq<Product>, id: int)
    ensures Find(cart, id).Some? ==>
      exists i :: 0 <= i < |cart| && cart[i] == Find(cart, id).value && forall j :: 0 <= j < i ==> cart[j].id != id
  {
    var i := FirstIndex(cart, id);
    if i < |cart| {
      assert cart[i] == Find(cart, id).value;
    }
  }

  /** The cart without any entry whose id is `id`, the others in their order (`filter` in removal). */
  function Without(cart: seq<Product>, id: int): (r: seq<Product>)
    ensures |r| <= |cart|
    ensures forall i :: 0 <= i < |r| ==> r[i].id != id
  {
    if |cart| == 0 then []
    else if cart[0].id != id then [cart[0]] + Without(cart[1..], id)
      else Without(cart[1..], id)
  }

  /** A product with its amount raised by one: the `amount++` of the increment. */
  function Bumped(p: Product): Product
  {
    p.(amount := p.amount + 1)
  }

  /** The cart with the amount of every entry whose id is `id` raised by one (`map` in addition). */
  function Incremented(cart: seq<Product>, id: int): (r: seq<Product>)
    ensures |r| == |cart|
    ensures forall i :: 0 <= i < |cart| && cart[i].id == id ==> r[i] == Bumped(cart[i])
    ensures forall i :: 0 <= i < |cart| && cart[i].id != id ==> r[i] == cart[i]
  {
    if |cart| == 0 then []
    else
      var p := if cart[0].id == id then Bumped(cart[0]) else cart[0];
      [p] + Incremented(cart[1..], id)
  }

  /** The cart with the amount of every entry whose id is `id` set to `amount` (`map` in quantity update). */
  function WithAmount(cart: seq<Product>, id: int, amount: int): (r: seq<Product>)
    ensures |r| == |cart|
    ensures forall i :: 0 <= i < |cart| && cart[i].id == id ==> r[i] == cart[i].(amount := amount)
    ensures forall i :: 0 <= i < |cart| && cart[i].id != id ==> r[i] == cart[i]
  {
    if |cart| == 0 then []
    else
      var p := if cart[0].id == id then cart[0].(amount := amount) else cart[0];
      [p] + WithAmount(cart[1..], id, amount)
  }

  // ---------------------------------------------------------------------------
  // Removal

  /** Filtering a concatenation filters each part: removal keeps the order of what it keeps. */
  lemma {:induction false} WithoutAppend(a: seq<Product>, b: seq<Product>, id: int)
    ensures Without(a + b, id) == Without(a, id) + Without(b, id)
  {
    if |a| == 0 {
      assert a + b == b;
    } else {
      assert (a + b)[0] == a[0];
      assert (a + b)[1..] == a[1..] + b;
      WithoutAppend(a[1..], b, id);
    }
  }

  /** Removing an id the cart does not hold leaves the cart as it is. */
  lemma {:induction false} WithoutAbsent(cart: seq<Product>, id: int)
    requires !HasId(cart, id)
    ensures Without(cart, id) == cart
  {
    if |cart| > 0 {
      assert cart[0].id != id;
      assert !HasId(cart[1..], id) by {
        forall i | 0 <= i < |cart[1..]| ensures cart[1..][i].id != id {
          assert cart[1..][i] == cart[i + 1];
        }
      }
      WithoutAbsent(cart[1..], id);
      assert cart == [cart[0]] + cart[1..];
    }
  }

  /** Removal keeps exactly the entries whose id differs from the removed one. */
  lemma {:induction false} WithoutMembers(cart: seq<Product>, id: int, p: Product)
    ensures p in Without(cart, id) <==> p in cart && p.id != id
  {
    if |cart| > 0 {
      WithoutMembers(cart[1..], id, p);
      assert cart == [cart[0]] + cart[1..];
    }
  }

  /** In a cart with one entry per id, the id at position `k` occurs neither before nor after it. */
  lemma UniqueElsewhereAbsent(cart: seq<Product>, k: int)
    requires UniqueIds(cart)
    requires 0 <= k < |cart|
    ensures !HasId(cart[..k], cart[k].id) && !HasId(cart[k + 1..], cart[k].id)
  {
  }

  /** A cart is what comes before position `k`, the entry at `k`, and what comes after. */
  lemma SplitAt(cart: seq<Product>, k: int)
    requires 0 <= k < |cart|
    ensures cart == cart[..k] + ([cart[k]] + cart[k + 1..])
  {
  }

  /** In a cart with one entry per id, removing a present id deletes exactly that entry. */
  lemma RemoveDeletesEntry(cart: seq<Product>, k: int)
    requires UniqueIds(cart)
    requires 0 <= k < |cart|
    ensures Without(cart, cart[k].id) == cart[..k] + cart[k + 1..]
  {
    var id, head, tail := cart[k].id, cart[..k], cart[k + 1..];
    UniqueElsewhereAbsent(cart, k);
    calc {
      Without(cart, id);
      { SplitAt(cart, k); }
      Without(head + ([cart[k]] + tail), id);
      { WithoutAppend(head, [cart[k]] + tail, id); }
      Without(head, id) + Without([cart[k]] + tail, id);
      { WithoutAppend([cart[k]], tail, id); }
      Without(head, id) + (Without([cart[k]], id) + Without(tail, id));
      { WithoutAbsent(head, id); WithoutAbsent(tail, id); assert Without([cart[k]], id) == []; }
      head + ([] + tail);
      { assert [] + tail == tail; }
      head + tail;
    }
  }

  /** Removing an id keeps the cart well formed (it keeps a subsequence of the entries). */
  lemma {:induction false} WithoutWellFormed(cart: seq<Product>, id: int)
    requires WellFormed(cart)
    ensures WellFormed(Without(cart, id))
  {
    if |cart| > 0 {
      var tail := cart[1..];
      assert WellFormed(tail) by {
        forall i, j | 0 <= i < j < |tail| ensures tail[i].id != tail[j].id {
          assert tail[i] == cart[i + 1] && tail[j] == cart[j + 1];
        }
        forall i | 0 <= i < |tail| ensures tail[i].amount >= 1 {
          assert tail[i] == cart[i + 1];
        }
      }
      WithoutWellFormed(tail, id);
      var rest := Without(tail, id);
      if cart[0].id != id {
        var r := [cart[0]] + rest;
        forall j | 0 < j < |r| ensures r[0].id != r[j].id {
          assert r[j] in rest;
          WithoutMembers(tail, id, r[j]);
          var m :| 0 <= m < |tail| && tail[m] == r[j];
          assert tail[m] == cart[m + 1];
        }
        forall i | 0 <= i < |r| ensures r[i].amount >= 1 {
          if i > 0 { assert r[i] == rest[i - 1]; }
        }
        forall i, j | 0 <= i < j < |r| ensures r[i].id != r[j].id {
          if i > 0 { assert r[i] == rest[i - 1] && r[j] == rest[j - 1]; }
        }
      }
    }
  }

  /** Adding an absent product and then removing its id gives back the original cart. */
  lemma RemoveUndoesAppend(cart: seq<Product>, p: Product)
    requires !HasId(cart, p.id)
    ensures Without(cart + [p], p.id) == cart
  {
    WithoutAppend(cart, [p], p.id);
    WithoutAbsent(cart, p.id);
    assert Without([p], p.id) == [];
  }

  /** Everything removal needs to know about `Without`, in one place. */
  lemma WithoutFacts(cart: seq<Product>, id: int)
    requires HasId(cart, id)
    ensures UniqueIds(cart) ==>
      var k := FirstIndex(cart, id);
      k < |cart| && Without(cart, id) == cart[..k] + cart[k + 1..]
    ensures WellFormed(cart) ==> WellFormed(Without(cart, id))
  {
    FirstIndexFound(cart, id);
    if UniqueIds(cart) {
      RemoveDeletesEntry(cart, FirstIndex(cart, id));
    }
    if WellFormed(cart) {
      WithoutWellFormed(cart, id);
    }
  }

  // ---------------------------------------------------------------------------
  // Addition

  /** Appending a product whose id is absent, with amount one, keeps the cart well formed. */
  lemma AppendWellFormed(cart: seq<Product>, p: Product)
    requires WellFormed(cart)
    requires !HasId(cart, p.id) && p.amount == 1
    ensures WellFormed(cart + [p])
  {
  }

  /** Incrementing keeps the cart well formed. */
  lemma IncrementedWellFormed(cart: seq<Product>, id: int)
    requires WellFormed(cart)
    ensures WellFormed(Incremented(cart, id))
  {
  }

  /** When the id is present, its first position lies inside the cart. */
  lemma FirstIndexFound(cart: seq<Product>, id: int)
    requires HasId(cart, id)
    ensures FirstIndex(cart, id) < |cart|
  {
    var k :| 0 <= k < |cart| && cart[k].id == id;
  }

  /** Two carts with the same ids position by position have their first match of an id at the same place. */
  lemma FirstIndexSameIds(a: seq<Product>, b: seq<Product>, id: int)
    requires |a| == |b|
    requires forall k :: 0 <= k < |a| ==> a[k].id == b[k].id
    ensures FirstIndex(a, id) == FirstIndex(b, id)
  {
  }

  /**
   * The entry whose amount the stock check reads (the first with the id) is
   * the entry the increment raises by one.
   */
  lemma FindIncremented(cart: seq<Product>, id: int)
    requires HasId(cart, id)
    ensures Find(cart, id).Some?
    ensures Find(Incremented(cart, id), id) == Some(Bumped(Find(cart, id).value))
  {
    var r := Incremented(cart, id);
    var i := FirstIndex(cart, id);
    FirstIndexFound(cart, id);
    FirstIndexSameIds(cart, r, id);
    assert r[i] == Bumped(cart[i]);
  }

  /** With one entry per id, incrementing changes exactly the entry holding the id. */
  lemma IncrementChangesOneEntry(cart: seq<Product>, k: int)
    requires UniqueIds(cart)
    requires 0 <= k < |cart|
    ensures Incremented(cart, cart[k].id) == cart[k := Bumped(cart[k])]
  {
  }

  /** Everything addition needs to know about `Incremented`, in one place. */
  lemma IncrementedFacts(cart: seq<Product>, id: int)
    requires HasId(cart, id)
    ensures Find(cart, id).Some?
    ensures Find(Incremented(cart, id), id) == Some(Bumped(Find(cart, id).value))
    ensures UniqueIds(cart) ==>
      var k := FirstIndex(cart, id);
      k < |cart| && Incremented(cart, id) == cart[k := Bumped(cart[k])]
    ensures WellFormed(cart) ==> WellFormed(Incremented(cart, id))
  {
    FindIncremented(cart, id);
    FirstIndexFound(cart, id);
    if UniqueIds(cart) {
      IncrementChangesOneEntry(cart, FirstIndex(cart, id));
    }
    if WellFormed(cart) {
      IncrementedWellFormed(cart, id);
    }
  }

  // ---------------------------------------------------------------------------
  // Quantity update

  /** Setting a positive amount keeps the cart well formed. */
  lemma WithAmountWellFormed(cart: seq<Product>, id: int, amount: int)
    requires WellFormed(cart) && amount > 0
    ensures WellFormed(WithAmount(cart, id, amount))
  {
  }

  /** With one entry per id, setting an amount changes exactly the entry holding the id. */
  lemma WithAmountChangesOneEntry(cart: seq<Product>, k: int, amount: int)
    requires UniqueIds(cart)
    requires 0 <= k < |cart|
    ensures WithAmount(cart, cart[k].id, amount) == cart[k := cart[k].(amount := amount)]
  {
  }

  /** After an update the product is found with the requested amount, and an absent id stays absent. */
  lemma FindWithAmount(cart: seq<Product>, id: int, amount: int)
    ensures HasId(cart, id) ==> Find(WithAmount(cart, id, amount), id) == Some(Find(cart, id).value.(amount := amount))
    ensures !HasId(cart, id) ==> WithAmount(cart, id, amount) == cart
  {
    var r := WithAmount(cart, id, amount);
    if HasId(cart, id) {
      FirstIndexSameIds(cart, r, id);
    } else {
      forall i | 0 <= i < |cart| ensures r[i] == cart[i] {
        assert cart[i].id != id;
      }
    }
  }

  /** Everything the quantity update needs to know about `WithAmount`, in one place. */
  lemma WithAmountFacts(cart: seq<Product>, id: int, amount: int)
    ensures HasId(cart, id) ==> Find(WithAmount(cart, id, amount), id) == Some(Find(cart, id).value.(amount := amount))
    ensures HasId(cart, id) && UniqueIds(cart) ==>
      var k := FirstIndex(cart, id);
      k < |cart| && WithAmount(cart, id, amount) == cart[k := cart[k].(amount := amount)]
    ensures !HasId(cart, id) ==> WithAmount(cart, id, amount) == cart
    ensures WellFormed(cart) && amount > 0 ==> WellFormed(WithAmount(cart, id, amount))
  {
    FindWithAmount(cart, id, amount);
    if HasId(cart, id) && UniqueIds(cart) {
      FirstIndexFound(cart, id);
      WithAmountChangesOneEntry(cart, FirstIndex(cart, id), amount);
    }
    if WellFormed(cart) && amount > 0 {
      WithAmountWellFormed(cart, id, amount);
    }
  }

  /** Setting the same amount twice is the same as setting it once. */
  lemma WithAmountIdempotent(cart: seq<Product>, id: int, amount: int)
    ensures WithAmount(WithAmount(cart, id, amount), id, amount) == WithAmount(cart, id, amount)
  {
  }
}
