/**
 * The cart page (src/pages/Cart.jsx): the order summary's shipping and
 * final total, the item-count label, the empty-cart view, and what its
 * quantity buttons do to the cart. Amounts are integer cents.
 */
module CartPage {
  import opened Seqs
  import opened ProductStore
  import opened CartStore

  /** Orders of $50.00 and above ship free. */
  const FreeShippingFrom := 5000
  /** Otherwise shipping is $4.99. */
  const ShippingFee := 499

  function Shipping(subtotal: int): (r: int)
    ensures r == 0 <==> subtotal >= FreeShippingFrom
    ensures r == ShippingFee <==> subtotal < FreeShippingFrom
  {
    if subtotal >= FreeShippingFrom then 0 else ShippingFee
  }

  /** What the customer pays: the subtotal plus shipping. */
  function FinalTotal(subtotal: int): (r: int)
    ensures subtotal <= r <= subtotal + ShippingFee
    ensures r == subtotal <==> subtotal >= FreeShippingFrom
    ensures subtotal < FreeShippingFrom ==> r == subtotal + ShippingFee
  {
    subtotal + Shipping(subtotal)
  }

  /** The final total is not monotone in the subtotal: one more cent at the
      threshold makes the order cheaper. */
  lemma FinalTotalDropsAtThreshold()
    ensures FinalTotal(FreeShippingFrom - 1) > FinalTotal(FreeShippingFrom)
    ensures FinalTotal(FreeShippingFrom - 1) == 5498
  {
  }

  /** Below the threshold the total rises with the subtotal, and so it does above it. */
  lemma FinalTotalMonotoneWithinBands(a: int, b: int)
    requires a <= b
    requires (b < FreeShippingFrom) || (a >= FreeShippingFrom)
    ensures FinalTotal(a) <= FinalTotal(b)
  {
  }

  /** "item" only for exactly one unit. */
  function ItemLabel(totalItems: int): (r: string)
    ensures r == "item" <==> totalItems == 1
    ensures r == "item" || r == "items"
  {
    if totalItems == 1 then "item" else "items"
  }

  /** The "Your cart is empty" view. */
  predicate ShowsEmptyView(items: seq<CartItem>)
  {
    |items| == 0
  }

  /** A valid cart shows the empty view exactly when it holds no units, and
      the label then reads "items". */
  lemma EmptyViewIffNoUnits(items: seq<CartItem>)
    requires CartValid(items)
    ensures ShowsEmptyView(items) <==> QuantitySum(items) == 0
    ensures ShowsEmptyView(items) ==> ItemLabel(QuantitySum(items)) == "items" && FinalTotal(PriceSum(items)) == ShippingFee
  {
  }

  /**
   * The "+" button passes an item that is already in the cart to addToCart,
   * which ignores ids already present: the cart does not change, so no
   * quantity ever rises on this page.
   */
  lemma PlusButtonIsNoOp(items: seq<CartItem>, i: nat)
    requires i < |items|
    ensures AddedTo(items, items[i].product) == items
    ensures QuantitySum(AddedTo(items, items[i].product)) == QuantitySum(items)
  {
    assert HasId(items, items[i].product.id);
  }

  /** The "-" button on an item of a valid cart takes exactly one unit off,
      removing the line when it held one unit. */
  lemma MinusButtonTakesOneUnit(items: seq<CartItem>, i: nat)
    requires CartValid(items) && i < |items|
    ensures QuantitySum(Decreased(items, items[i].product.id)) == QuantitySum(items) - 1
    ensures items[i].quantity == 1 ==> !HasId(Decreased(items, items[i].product.id), items[i].product.id)
  {
    var id := items[i].product.id;
    assert HasId(items, id);
    DecreasedSpec(items, id);
    DecreasedItem(items, i);
  }
}
