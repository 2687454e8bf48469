/**
 * The checkout page (src/pages/Checkout.jsx): a four-step wizard (cart
 * review, address, payment, confirmation), the Next button's guard, and
 * placing the order. The backend calls are replaced by their outcomes,
 * passed in as parameters.
 */
module Checkout {
  import opened Basics
  import opened ProductStore
  import opened CartStore
  import CartPage

  const FirstStep := 1
  const LastStep := 4

  /** handleNextStep: `Math.min(prev + 1, 4)`. */
  function NextStep(step: int): (r: int)
    ensures r <= LastStep
    ensures step < LastStep ==> r == step + 1
    ensures step >= LastStep - 1 ==> r == LastStep
  {
    Min(step + 1, LastStep)
  }

  /** handlePreviousStep: `Math.max(prev - 1, 1)`. */
  function PreviousStep(step: int): (r: int)
    ensures r >= FirstStep
    ensures step > FirstStep ==> r == step - 1
    ensures step <= FirstStep + 1 ==> r == FirstStep
  {
    Max(step - 1, FirstStep)
  }

  /** The step stays in 1..4 whatever buttons are pressed, and the two moves undo each other inside it. */
  lemma StepsStayInRange(step: int)
    requires FirstStep <= step <= LastStep
    ensures FirstStep <= NextStep(step) <= LastStep
    ensures FirstStep <= PreviousStep(step) <= LastStep
    ensures step < LastStep ==> PreviousStep(NextStep(step)) == step
    ensures step > FirstStep ==> NextStep(PreviousStep(step)) == step
  {
  }

  /** Next is disabled on the address step without an address and on the
      payment step without a payment method. */
  predicate NextDisabled(step: int, hasAddress: bool, hasPaymentMethod: bool)
  {
    (step == 2 && !hasAddress) || (step == 3 && !hasPaymentMethod)
  }

  /** The Next button is shown below step 4, the Place Order button on it,
      and Back above step 1. */
  predicate ShowsNext(step: int) { step < LastStep }
  predicate ShowsBack(step: int) { step > FirstStep }

  /** Back is shown exactly on the steps it moves back from, and Next on the
      steps it moves on from; on the others the move would leave the step as is. */
  lemma ButtonsShownWhereTheyMove(step: int)
    requires FirstStep <= step <= LastStep
    ensures ShowsBack(step) <==> PreviousStep(step) != step
    ensures ShowsNext(step) <==> NextStep(step) != step
  {
  }

  /**
   * Clicking an enabled Next from step 1 moves exactly one step on; the
   * payment step is reached only with an address, the confirmation step
   * only with a payment method.
   */
  lemma EnabledNextAdvances(step: int, hasAddress: bool, hasPaymentMethod: bool)
    requires FirstStep <= step < LastStep
    requires ShowsNext(step) && !NextDisabled(step, hasAddress, hasPaymentMethod)
    ensures NextStep(step) == step + 1
    ensures NextStep(step) == 3 ==> hasAddress
    ensures NextStep(step) == 4 ==> hasPaymentMethod
  {
  }

  /** The order's status: "pending" exactly for pay-on-delivery. */
  function OrderStatus(paymentMethod: Option<string>): (r: string)
    ensures r == "pending" <==> paymentMethod == Some("pay_later")
    ensures r == "processing" <==> paymentMethod != Some("pay_later")
  {
    if paymentMethod == Some("pay_later") then "pending" else "processing"
  }

  /** A row of `order_items`. */
  datatype OrderItem = OrderItem(orderId: int, productId: int, quantity: int, price: int)

  /** `cartItems.map(...)`: one order item per cart item. */
  function OrderItems(orderId: int, items: seq<CartItem>): (r: seq<OrderItem>)
    ensures |r| == |items|
    ensures forall i :: 0 <= i < |items| ==>
              r[i] == OrderItem(orderId, items[i].product.id, items[i].quantity, items[i].product.price)
  {
    seq(|items|, i requires 0 <= i < |items| =>
      OrderItem(orderId, items[i].product.id, items[i].quantity, items[i].product.price))
  }

  /** The sum over the order items of price times quantity is the order's total amount. */
  function ItemsAmount(rows: seq<OrderItem>): int
    decreases |rows|
  {
    if rows == [] then 0 else rows[0].price * rows[0].quantity + ItemsAmount(rows[1..])
  }

  /** The order items carry the cart's product ids without repeats, and add up to the order total. */
  lemma {:induction false} OrderItemsMatchTotal(orderId: int, items: seq<CartItem>)
    ensures ItemsAmount(OrderItems(orderId, items)) == PriceSum(items)
    ensures CartValid(items) ==> forall i, j :: 0 <= i < j < |items| ==>
              OrderItems(orderId, items)[i].productId != OrderItems(orderId, items)[j].productId
    decreases |items|
  {
    if items != [] {
      assert OrderItems(orderId, items)[1..] == OrderItems(orderId, items[1..]);
      OrderItemsMatchTotal(orderId, items[1..]);
    }
  }

  /**
   * The order's `total_amount` is the cart subtotal: the $4.99 shipping the
   * cart page adds below $50 is not charged.
   */
  lemma OrderAmountLeavesOutShipping(items: seq<CartItem>)
    requires PriceSum(items) < CartPage.FreeShippingFrom
    ensures PriceSum(items) == CartPage.FinalTotal(PriceSum(items)) - CartPage.ShippingFee
  {
  }

  /** What the address fetch produced. */
  datatype AddressFetch = Address(addressId: int) | FetchFailed(message: string)

  const PlaceOrderError := "Failed to place order. Please try again."

  /** The page state. */
  class Wizard {
    var currentStep: int
    var userAddress: Option<int>
    var selectedPaymentMethod: Option<string>
    var orderProcessing: bool
    var orderComplete: bool
    var orderId: Option<int>
    var error: Option<string>

    ghost predicate Valid()
      reads this
    {
      FirstStep <= currentStep <= LastStep
    }

    constructor ()
      ensures Valid() && currentStep == FirstStep
      ensures userAddress == None && selectedPaymentMethod == None && error == None
      ensures !orderProcessing && !orderComplete && orderId == None
    {
      currentStep := FirstStep;
      userAddress := None;
      selectedPaymentMethod := None;
      orderProcessing := false;
      orderComplete := false;
      orderId := None;
      error := None;
    }

    /** The effect that fetches the user's address on mount. */
    method AddressFetched(outcome: AddressFetch)
      modifies this`userAddress, this`error
      ensures outcome.Address? ==> userAddress == Some(outcome.addressId) && error == old(error)
      ensures outcome.FetchFailed? ==> error == Some(outcome.message) && userAddress == old(userAddress)
    {
      match outcome
      case Address(a) => userAddress := Some(a);
      case FetchFailed(m) => error := Some(m);
    }

    method HandleNextStep()
      requires Valid()
      modifies this`currentStep
      ensures currentStep == NextStep(old(currentStep)) && Valid()
    {
      currentStep := NextStep(currentStep);
    }

    method HandlePreviousStep()
      requires Valid()
      modifies this`currentStep
      ensures currentStep == PreviousStep(old(currentStep)) && Valid()
    {
      currentStep := PreviousStep(currentStep);
    }

    method HandlePaymentMethodSelect(m: string)
      modifies this`selectedPaymentMethod
      ensures selectedPaymentMethod == Some(m)
    {
      selectedPaymentMethod := Some(m);
    }

    /**
     * handlePlaceOrder. The outcomes of the backend calls are parameters: a
     * signed-in user, the id of the inserted order (None when the insert
     * fails) and whether the order items were inserted. Reading the address
     * id of a missing address throws before the insert. Only full success
     * completes the order and empties the cart; any failure sets the error
     * message and leaves the cart alone. The status and the order item rows
     * sent to the backend are returned.
     */
    method PlaceOrder(cart: Cart, signedIn: bool, insertedOrder: Option<int>, itemsInserted: bool)
      returns (status: string, rows: seq<OrderItem>)
      modifies this`orderProcessing, this`orderComplete, this`orderId, this`error, cart
      ensures status == OrderStatus(selectedPaymentMethod)
      ensures var attempted := signedIn && userAddress.Some? && insertedOrder.Some?;
              rows == if attempted then OrderItems(insertedOrder.value, old(cart.items)) else []
      ensures !orderProcessing
      ensures var success := signedIn && userAddress.Some? && insertedOrder.Some? && itemsInserted;
              && (success ==> orderComplete && orderId == insertedOrder && cart.items == [] && error == old(error))
              && (!success ==> error == Some(PlaceOrderError) && cart.items == old(cart.items) &&
                                orderComplete == old(orderComplete) && orderId == old(orderId))
    {
      orderProcessing := true;
      status := OrderStatus(selectedPaymentMethod);
      rows := [];
      if signedIn && userAddress.Some? && insertedOrder.Some? {
        rows := OrderItems(insertedOrder.value, cart.items);
        if itemsInserted {
          orderId := insertedOrder;
          orderComplete := true;
          cart.ClearCart();
        } else {
          error := Some(PlaceOrderError);
        }
      } else {
        error := Some(PlaceOrderError);
      }
      orderProcessing := false;
    }
  }
}
