/**
 * The shopping cart store (src/store/cartStore.js): a list of cart items,
 * each a product with a quantity, keyed by the product id. Adding is
 * add-if-absent, decreasing drops an item whose quantity reaches 0, and the
 * totals are sums over the list. Prices are integer cents.
 */
module CartStore {
  import opened Basics
  import opened Seqs
  import opened ProductStore

  /** `{ ...product, quantity }`. */
  datatype CartItem = CartItem(product: Product, quantity: int)

  function ItemId(it: CartItem): int { it.product.id }

  predicate Positive(it: CartItem) { it.quantity > 0 }

  predicate HasId(items: seq<CartItem>, id: int)
  {
    exists i :: 0 <= i < |items| && items[i].product.id == id
  }

  /** The cart invariant: ids are pairwise distinct and every quantity is at least 1. */
  predicate CartValid(items: seq<CartItem>)
  {
    UniqueKeys(ItemId, items) && forall i :: 0 <= i < |items| ==> items[i].quantity >= 1
  }

  /** totalItems: the sum of the quantities. */
  function QuantitySum(items: seq<CartItem>): (r: int)
    ensures items == [] ==> r == 0
    ensures (forall i :: 0 <= i < |items| ==> items[i].quantity >= 1) ==> r >= |items|
    decreases |items|
  {
    if items == [] then 0 else items[0].quantity + QuantitySum(items[1..])
  }

  /** totalPrice: the sum of price times quantity. */
  function PriceSum(items: seq<CartItem>): int
    decreases |items|
  {
    if items == [] then 0 else items[0].product.price * items[0].quantity + PriceSum(items[1..])
  }

  /** The sums distribute over concatenation, so appending adds the new item's share. */
  lemma {:induction false} SumsAppend(a: seq<CartItem>, b: seq<CartItem>)
    ensures QuantitySum(a + b) == QuantitySum(a) + QuantitySum(b)
    ensures PriceSum(a + b) == PriceSum(a) + PriceSum(b)
    decreases |a|
  {
    if a == [] {
      assert a + b == b;
    } else {
      assert (a + b)[1..] == a[1..] + b;
      SumsAppend(a[1..], b);
    }
  }

  /** addToCart: append the product with quantity 1 unless its id is already in the cart. */
  function AddedTo(items: seq<CartItem>, p: Product): seq<CartItem>
  {
    if HasId(items, p.id) then items else items + [CartItem(p, 1)]
  }

  /** removeFromCart: keep the items with another id. */
  function Removed(items: seq<CartItem>, id: int): seq<CartItem>
  {
    Filter((it: CartItem) => it.product.id != id, items)
  }

  function DecrementIf(it: CartItem, id: int): CartItem
  {
    if it.product.id == id then it.(quantity := it.quantity - 1) else it
  }

  /** The `map` step of decreaseQuantity. */
  function DecrementMatching(items: seq<CartItem>, id: int): (r: seq<CartItem>)
    ensures |r| == |items|
    ensures forall i :: 0 <= i < |items| ==> r[i] == DecrementIf(items[i], id)
  {
    seq(|items|, i requires 0 <= i < |items| => DecrementIf(items[i], id))
  }

  /** decreaseQuantity: decrement the matching item, then drop items whose quantity is not positive. */
  function Decreased(items: seq<CartItem>, id: int): seq<CartItem>
  {
    Filter(Positive, DecrementMatching(items, id))
  }

  /** The quantity of the item with this id, 0 when there is none. */
  function QuantityOf(items: seq<CartItem>, id: int): int
  {
    match FindFirst((it: CartItem) => it.product.id == id, items)
    case Some(it) => it.quantity
    case None => 0
  }

  /** Appending an item whose id is new, with a positive quantity, keeps the invariant. */
  lemma AppendKeepsValid(items: seq<CartItem>, x: CartItem)
    requires CartValid(items) && !HasId(items, x.product.id) && x.quantity >= 1
    ensures CartValid(items + [x])
  {
    var r := items + [x];
    forall i, j | 0 <= i < j < |r|
      ensures ItemId(r[i]) != ItemId(r[j])
    {
      if j < |items| {
        assert r[i] == items[i] && r[j] == items[j];
      } else {
        assert r[i] == items[i] && r[j] == x;
      }
    }
  }

  /**
   * addToCart keeps the invariant; an id already present leaves the cart
   * as it was, and a new one adds exactly one unit at the product's price.
   */
  lemma AddedToSpec(items: seq<CartItem>, p: Product)
    ensures CartValid(items) ==> CartValid(AddedTo(items, p))
    ensures HasId(items, p.id) ==> AddedTo(items, p) == items
    ensures !HasId(items, p.id) ==> AddedTo(items, p) == items + [CartItem(p, 1)]
    ensures QuantitySum(AddedTo(items, p)) == QuantitySum(items) + (if HasId(items, p.id) then 0 else 1)
    ensures PriceSum(AddedTo(items, p)) == PriceSum(items) + (if HasId(items, p.id) then 0 else p.price)
  {
    if HasId(items, p.id) {
      assert AddedTo(items, p) == items;
    } else {
      var x := CartItem(p, 1);
      assert AddedTo(items, p) == items + [x];
      SumsAppend(items, [x]);
      assert [x][1..] == [];
      assert QuantitySum([x]) == 1;
      assert PriceSum([x]) == p.price;
      if CartValid(items) {
        AppendKeepsValid(items, x);
      }
    }
  }

  /** Decrementing keeps every id in place. */
  lemma DecrementKeepsIds(items: seq<CartItem>, id: int)
    ensures forall i :: 0 <= i < |items| ==> ItemId(DecrementMatching(items, id)[i]) == ItemId(items[i])
  {
  }

  /** With distinct ids, the `map` step takes exactly one unit off the sum when the id is present. */
  lemma {:induction false} DecrementMatchingSum(items: seq<CartItem>, id: int)
    requires UniqueKeys(ItemId, items)
    ensures QuantitySum(DecrementMatching(items, id)) == QuantitySum(items) - (if HasId(items, id) then 1 else 0)
    decreases |items|
  {
    if items != [] {
      var rest := items[1..];
      assert DecrementMatching(items, id)[1..] == DecrementMatching(rest, id);
      TailKeepsUniqueIds(items);
      DecrementMatchingSum(rest, id);
      if items[0].product.id == id {
        assert !HasId(rest, id) by {
          forall i | 0 <= i < |rest|
            ensures rest[i].product.id != id
          {
            assert rest[i] == items[i + 1];
          }
        }
      } else {
        assert HasId(items, id) == HasId(rest, id) by {
          if HasId(items, id) {
            var k :| 0 <= k < |items| && items[k].product.id == id;
            assert rest[k - 1] == items[k];
          }
          if HasId(rest, id) {
            var k :| 0 <= k < |rest| && rest[k].product.id == id;
            assert items[k + 1] == rest[k];
          }
        }
      }
    }
  }

  /** Dropping items whose quantity is exactly 0 leaves the sum alone. */
  lemma {:induction false} DropZerosKeepsSum(items: seq<CartItem>)
    requires forall i :: 0 <= i < |items| ==> items[i].quantity >= 0
    ensures QuantitySum(Filter(Positive, items)) == QuantitySum(items)
    decreases |items|
  {
    if items != [] {
      DropZerosKeepsSum(items[1..]);
      var head := if Positive(items[0]) then [items[0]] else [];
      assert Filter(Positive, items) == head + Filter(Positive, items[1..]);
      SumsAppend(head, Filter(Positive, items[1..]));
      if head != [] {
        assert head[1..] == [];
      }
    }
  }

  /** decreaseQuantity keeps ids distinct and quantities positive. */
  lemma DecreasedValid(items: seq<CartItem>, id: int)
    requires CartValid(items)
    ensures CartValid(Decreased(items, id))
  {
    var m := DecrementMatching(items, id);
    assert UniqueKeys(ItemId, m) by {
      forall i, j | 0 <= i < j < |m|
        ensures ItemId(m[i]) != ItemId(m[j])
      {
        assert ItemId(m[i]) == ItemId(items[i]) && ItemId(m[j]) == ItemId(items[j]);
      }
    }
    FilterKeepsUniqueKeys(ItemId, Positive, m);
  }

  /** The other items stay, and an item with the id left behind is the old one minus a unit. */
  lemma DecreasedKeepsOthers(items: seq<CartItem>, id: int)
    requires CartValid(items)
    ensures forall it :: it in items && it.product.id != id ==> it in Decreased(items, id)
    ensures forall it :: it in Decreased(items, id) && it.product.id == id ==>
              it.(quantity := it.quantity + 1) in items
  {
    var m := DecrementMatching(items, id);
    forall it | it in items && it.product.id != id
      ensures it in Decreased(items, id)
    {
      var k :| 0 <= k < |items| && items[k] == it;
      assert m[k] == it;
    }
    forall it | it in Decreased(items, id) && it.product.id == id
      ensures it.(quantity := it.quantity + 1) in items
    {
      var k :| 0 <= k < |m| && m[k] == it;
      assert items[k] == it.(quantity := it.quantity + 1);
    }
  }

  /** One unit goes when the id is present; otherwise the cart is unchanged. */
  lemma DecreasedSum(items: seq<CartItem>, id: int)
    requires CartValid(items)
    ensures QuantitySum(Decreased(items, id)) == QuantitySum(items) - (if HasId(items, id) then 1 else 0)
    ensures !HasId(items, id) ==> Decreased(items, id) == items
  {
    var m := DecrementMatching(items, id);
    DecrementMatchingSum(items, id);
    DropZerosKeepsSum(m);
    if !HasId(items, id) {
      assert m == items;
      FilterKeepsAll(Positive, items);
    }
  }

  /** Decreasing keeps the items with other ids exactly, in their order. */
  lemma {:induction false} DecreasedKeepsOrder(items: seq<CartItem>, id: int)
    requires forall i :: 0 <= i < |items| ==> items[i].quantity >= 1
    ensures Removed(Decreased(items, id), id) == Removed(items, id)
    decreases |items|
  {
    if items != [] {
      var x := items[0];
      var rest := items[1..];
      DecreasedKeepsOrder(rest, id);
      var m := DecrementMatching(items, id);
      assert m[0] == DecrementIf(x, id) && m[1..] == DecrementMatching(rest, id);
      var d := Decreased(rest, id);
      assert Decreased(items, id) == (if Positive(DecrementIf(x, id)) then [DecrementIf(x, id)] else []) + d;
      assert Removed(items, id) == (if x.product.id != id then [x] else []) + Removed(rest, id);
      if x.product.id != id {
        assert Decreased(items, id) == [x] + d;
        assert ([x] + d)[1..] == d;
      } else if Positive(DecrementIf(x, id)) {
        var y := DecrementIf(x, id);
        assert Decreased(items, id) == [y] + d;
        assert ([y] + d)[1..] == d;
        assert y.product.id == id;
        assert Removed([y] + d, id) == Removed(d, id);
        assert Removed(items, id) == Removed(rest, id);
      } else {
        assert Decreased(items, id) == d;
        assert Removed(items, id) == Removed(rest, id);
      }
    }
  }

  /**
   * decreaseQuantity keeps the invariant, leaves the other items as they
   * were and in their order, and with the id present takes exactly one unit
   * off the count; with the id absent the cart is unchanged.
   */
  lemma DecreasedSpec(items: seq<CartItem>, id: int)
    requires CartValid(items)
    ensures CartValid(Decreased(items, id))
    ensures forall it :: it in items && it.product.id != id ==> it in Decreased(items, id)
    ensures forall it :: it in Decreased(items, id) && it.product.id == id ==>
              it.(quantity := it.quantity + 1) in items
    ensures QuantitySum(Decreased(items, id)) == QuantitySum(items) - (if HasId(items, id) then 1 else 0)
    ensures !HasId(items, id) ==> Decreased(items, id) == items
    ensures IsSubsequence(Decreased(items, id), DecrementMatching(items, id))
    ensures Removed(Decreased(items, id), id) == Removed(items, id)
  {
    FilterIsSubsequence(Positive, DecrementMatching(items, id));
    DecreasedKeepsOrder(items, id);
    DecreasedValid(items, id);
    DecreasedKeepsOthers(items, id);
    DecreasedSum(items, id);
  }

  /** The tail of a list with distinct ids has distinct ids. */
  lemma TailKeepsUniqueIds(items: seq<CartItem>)
    requires items != [] && UniqueKeys(ItemId, items)
    ensures UniqueKeys(ItemId, items[1..])
    ensures forall i :: 1 <= i < |items| ==> items[i].product.id != items[0].product.id
  {
    var rest := items[1..];
    forall i, j | 0 <= i < j < |rest|
      ensures ItemId(rest[i]) != ItemId(rest[j])
    {
      assert rest[i] == items[i + 1] && rest[j] == items[j + 1];
    }
    forall i | 1 <= i < |items|
      ensures items[i].product.id != items[0].product.id
    {
      assert ItemId(items[0]) != ItemId(items[i]);
    }
  }

  /**
   * decreaseQuantity on an item of a valid cart: an item holding one unit
   * leaves the cart, any other item stays with one unit less.
   */
  lemma DecreasedItem(items: seq<CartItem>, i: nat)
    requires CartValid(items) && i < |items|
    ensures items[i].quantity == 1 ==> !HasId(Decreased(items, items[i].product.id), items[i].product.id)
    ensures items[i].quantity > 1 ==>
              items[i].(quantity := items[i].quantity - 1) in Decreased(items, items[i].product.id)
  {
    var id := items[i].product.id;
    var m := DecrementMatching(items, id);
    var d := Decreased(items, id);
    if items[i].quantity == 1 {
      forall k | 0 <= k < |d|
        ensures d[k].product.id != id
      {
        var j :| 0 <= j < |m| && m[j] == d[k];
        if j < i {
          assert ItemId(items[j]) != ItemId(items[i]);
        } else if j > i {
          assert ItemId(items[i]) != ItemId(items[j]);
        } else {
          assert false;
        }
      }
    } else {
      assert Positive(m[i]);
    }
  }

  /** With distinct ids, removing takes off exactly the quantity of the item with that id. */
  lemma {:induction false} RemovedSum(items: seq<CartItem>, id: int)
    requires UniqueKeys(ItemId, items)
    ensures QuantitySum(Removed(items, id)) == QuantitySum(items) - QuantityOf(items, id)
    decreases |items|
  {
    if items != [] {
      var rest := items[1..];
      var keep := (it: CartItem) => it.product.id != id;
      TailKeepsUniqueIds(items);
      if items[0].product.id == id {
        forall i | 0 <= i < |rest|
          ensures keep(rest[i])
        {
          assert rest[i] == items[i + 1];
        }
        FilterKeepsAll(keep, rest);
        assert Removed(items, id) == rest;
        assert QuantityOf(items, id) == items[0].quantity;
      } else {
        RemovedSum(rest, id);
        assert Removed(items, id) == [items[0]] + Removed(rest, id);
        assert ([items[0]] + Removed(rest, id))[1..] == Removed(rest, id);
        assert QuantityOf(items, id) == QuantityOf(rest, id);
      }
    }
  }

  /**
   * removeFromCart keeps the invariant, removes every item with the id and
   * keeps the others in their order, and takes that item's quantity off the count.
   */
  lemma RemovedSpec(items: seq<CartItem>, id: int)
    requires CartValid(items)
    ensures CartValid(Removed(items, id))
    ensures !HasId(Removed(items, id), id)
    ensures IsSubsequence(Removed(items, id), items)
    ensures forall it :: it in items && it.product.id != id ==> it in Removed(items, id)
    ensures QuantitySum(Removed(items, id)) == QuantitySum(items) - QuantityOf(items, id)
    ensures !HasId(items, id) ==> Removed(items, id) == items
  {
    FilterKeepsUniqueKeys(ItemId, (it: CartItem) => it.product.id != id, items);
    FilterIsSubsequence((it: CartItem) => it.product.id != id, items);
    RemovedSum(items, id);
    if !HasId(items, id) {
      FilterKeepsAll((it: CartItem) => it.product.id != id, items);
    }
  }

  /** The quantity looked up by id is the quantity of the item that carries it. */
  lemma QuantityOfItem(items: seq<CartItem>, i: nat)
    requires CartValid(items) && i < |items|
    ensures QuantityOf(items, items[i].product.id) == items[i].quantity >= 1
  {
    var id := items[i].product.id;
    assert forall j :: 0 <= j < i ==> ItemId(items[j]) != ItemId(items[i]);
    FindFirstIsFirst((it: CartItem) => it.product.id == id, items, i);
  }

  /** The cart: `cartItems`, replaced as a whole by every action. */
  class Cart {
    var items: seq<CartItem>

    ghost predicate Valid()
      reads this
    {
      CartValid(items)
    }

    /** The cart starts empty. */
    constructor ()
      ensures items == [] && Valid()
    {
      items := [];
    }

    method AddToCart(p: Product)
      requires Valid()
      modifies this
      ensures items == AddedTo(old(items), p) && Valid()
    {
      AddedToSpec(items, p);
      items := AddedTo(items, p);
    }

    method RemoveFromCart(id: int)
      requires Valid()
      modifies this
      ensures items == Removed(old(items), id) && Valid()
    {
      RemovedSpec(items, id);
      items := Removed(items, id);
    }

    method DecreaseQuantity(id: int)
      requires Valid()
      modifies this
      ensures items == Decreased(old(items), id) && Valid()
    {
      DecreasedSpec(items, id);
      items := Decreased(items, id);
    }

    method ClearCart()
      modifies this
      ensures items == [] && Valid()
    {
      items := [];
    }

    /** totalItems(): at least one per item, since every quantity is at least 1. */
    function TotalItems(): (r: int)
      reads this
      ensures Valid() ==> r >= |items|
      ensures r == QuantitySum(items)
    {
      QuantitySum(items)
    }

    /** totalPrice(). */
    function TotalPrice(): (r: int)
      reads this
      ensures r == PriceSum(items)
      ensures items == [] ==> r == 0
    {
      PriceSum(items)
    }
  }
}
