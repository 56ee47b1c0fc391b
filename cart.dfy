/** The cart page: pricing (subtotal, discount, delivery fee, total), the
    quantity and removal mutations, and checkout dispatch to a payment
    gateway or to cash on delivery. */
module Cart {
  import opened Wrappers
  import Seqs

  /** A line's own subscription; `savings` is the percentage that the
      source writes as a string such as '10%'. */
  datatype LineSubscription = LineSubscription(frequency: string, savings: int)

  datatype CartLine = CartLine(
    id: int,
    name: string,
    price: int,
    unit: string,
    quantity: int,
    subscription: Option<LineSubscription>)

  const DeliveryFee: int := 15

  /** The cart the page starts with. */
  const InitialCart: seq<CartLine> := [
    CartLine(1, "Organic A2 Milk", 55, "500ml", 1, None),
    CartLine(2, "Greek Yogurt", 65, "400g", 2, Some(LineSubscription("daily", 10))),
    CartLine(4, "Fresh Paneer", 120, "200g", 1, None)
  ]

  // ---------------------------------------------------------------------
  // Pricing

  function LineAmount(l: CartLine): int {
    l.price * l.quantity
  }

  /** Sum of price × quantity over the lines. */
  function Subtotal(items: seq<CartLine>): int {
    Seqs.Sum(items, LineAmount)
  }

  /** A line's own subscription saving, price × quantity × savings / 100
      rupees, counted exactly in paise (hundredths of a rupee). */
  function LineSavingPaise(l: CartLine): int {
    if l.subscription.Some? then l.price * l.quantity * l.subscription.value.savings else 0
  }

  /** The cart-wide percentage of the selected subscription option: weekly
      5, monthly 8, anything else (one-time included) 0. */
  function CartWidePercent(option: string): (r: int)
    ensures option == "subscription-weekly" ==> r == 5
    ensures option == "subscription-monthly" ==> r == 8
    ensures option != "subscription-weekly" && option != "subscription-monthly" ==> r == 0
  {
    if option == "subscription-weekly" then 5
    else if option == "subscription-monthly" then 8
    else 0
  }

  /** The per-line part of the discount, in rupees, before rounding. */
  function LinePart(items: seq<CartLine>): real {
    Seqs.Sum(items, LineSavingPaise) as real / 100.0
  }

  /** The cart-wide part, taken on the full subtotal, before rounding. */
  function CartWidePart(items: seq<CartLine>, option: string): real {
    (Subtotal(items) * CartWidePercent(option)) as real / 100.0
  }

  /** Both parts on the same base, added before any rounding. */
  function RawDiscount(items: seq<CartLine>, option: string): real {
    LinePart(items) + CartWidePart(items, option)
  }

  /** JavaScript's `Math.round`: the integer nearest to `x`, halves
      rounded up (towards positive infinity). */
  function Round(x: real): (r: int)
    ensures r as real - 0.5 <= x < r as real + 0.5
  {
    (x + 0.5).Floor
  }

  /** `calculateDiscount`: rounded once, on the final sum. */
  function Discount(items: seq<CartLine>, option: string): int {
    Round(RawDiscount(items, option))
  }

  function Total(items: seq<CartLine>, option: string): int {
    Subtotal(items) - Discount(items, option) + DeliveryFee
  }

  // ---------------------------------------------------------------------
  // Facts about pricing

  /** An empty cart costs only the delivery fee, whatever the option. */
  lemma SubtotalOfEmpty(option: string)
    ensures Subtotal([]) == 0 && Discount([], option) == 0
    ensures Total([], option) == DeliveryFee
  {
  }

  lemma SubtotalAppend(a: seq<CartLine>, b: seq<CartLine>)
    ensures Subtotal(a + b) == Subtotal(a) + Subtotal(b)
  {
    Seqs.SumAppend(a, b, LineAmount);
  }

  /** Reordering the lines changes none of subtotal, discount and total. */
  lemma PricingIgnoresOrder(a: seq<CartLine>, b: seq<CartLine>, option: string)
    requires multiset(a) == multiset(b)
    ensures Subtotal(a) == Subtotal(b)
    ensures Discount(a, option) == Discount(b, option)
    ensures Total(a, option) == Total(b, option)
  {
    Seqs.SumPermutation(a, b, LineAmount);
    Seqs.SumPermutation(a, b, LineSavingPaise);
  }

  ghost predicate WellFormedLine(l: CartLine) {
    l.price >= 0 && l.quantity >= 1 &&
    (l.subscription.Some? ==> 0 <= l.subscription.value.savings)
  }

  lemma LineSavingBound(l: CartLine, rate: int)
    requires WellFormedLine(l) && 0 <= rate <= 100
    requires l.subscription.Some? ==> l.subscription.value.savings + rate <= 100
    ensures 0 <= LineSavingPaise(l)
    ensures LineSavingPaise(l) + LineAmount(l) * rate <= LineAmount(l) * 100
  {
    var a := l.price * l.quantity;
    assert a >= 0;
    assert a * rate <= a * 100;
    if l.subscription.Some? {
      var s := l.subscription.value.savings;
      assert a * s + a * rate == a * (s + rate);
      assert a * (s + rate) <= a * 100;
    }
  }

  lemma {:induction false} SavingsBound(items: seq<CartLine>, rate: int)
    requires 0 <= rate <= 100
    requires forall i :: 0 <= i < |items| ==> WellFormedLine(items[i])
    requires forall i :: 0 <= i < |items| && items[i].subscription.Some? ==>
               items[i].subscription.value.savings + rate <= 100
    ensures 0 <= Seqs.Sum(items, LineSavingPaise)
    ensures 0 <= Subtotal(items)
    ensures Seqs.Sum(items, LineSavingPaise) + Subtotal(items) * rate <= Subtotal(items) * 100
    decreases |items|
  {
    if items != [] {
      LineSavingBound(items[0], rate);
      SavingsBound(items[1..], rate);
      assert LineAmount(items[0]) >= 0;
      var s0, s1 := LineAmount(items[0]), Subtotal(items[1..]);
      assert (s0 + s1) * rate == s0 * rate + s1 * rate;
      assert (s0 + s1) * 100 == s0 * 100 + s1 * 100;
    }
  }

  /** With non-negative prices and savings, and no line saving more than
      the percentage the option's cart-wide rate leaves, the discount lies
      between 0 and the subtotal, so the total never falls below the
      delivery fee. */
  lemma TotalBounds(items: seq<CartLine>, option: string)
    requires forall i :: 0 <= i < |items| ==> WellFormedLine(items[i])
    requires forall i :: 0 <= i < |items| && items[i].subscription.Some? ==>
               items[i].subscription.value.savings + CartWidePercent(option) <= 100
    ensures 0 <= Discount(items, option) <= Subtotal(items)
    ensures DeliveryFee <= Total(items, option) <= Subtotal(items) + DeliveryFee
  {
    var rate := CartWidePercent(option);
    SavingsBound(items, rate);
    var paise := Seqs.Sum(items, LineSavingPaise) + Subtotal(items) * rate;
    assert RawDiscount(items, option) == paise as real / 100.0;
    assert 0.0 <= RawDiscount(items, option) <= Subtotal(items) as real;
  }

  /** The initial cart's order summary for each of the three options. */
  lemma InitialCartSummary()
    ensures Subtotal(InitialCart) == 305
    ensures Discount(InitialCart, "one-time") == 13 && Total(InitialCart, "one-time") == 307
    ensures RawDiscount(InitialCart, "subscription-weekly") == 28.25
    ensures Discount(InitialCart, "subscription-weekly") == 28 && Total(InitialCart, "subscription-weekly") == 292
    ensures RawDiscount(InitialCart, "subscription-monthly") == 37.4
    ensures Discount(InitialCart, "subscription-monthly") == 37 && Total(InitialCart, "subscription-monthly") == 283
  {
    assert Subtotal(InitialCart) == 305;
    assert Seqs.Sum(InitialCart, LineSavingPaise) == 1300;
  }

  /** The cart-wide rate applies to the full subtotal, not to what is left
      after the line savings: on the initial cart, monthly, compounding would
      give 36 where the page gives 37. */
  lemma DiscountsAreNotCompounded()
    ensures Discount(InitialCart, "subscription-monthly") == 37
    ensures Round(LinePart(InitialCart) + (Subtotal(InitialCart) as real - LinePart(InitialCart)) * 0.08) == 36
  {
    InitialCartSummary();
    assert LinePart(InitialCart) == 13.0;
  }

  /** Rounding happens once: a line saving 0.40 and a cart-wide 0.32 each
      round to 0, but together they give a discount of 1. */
  lemma RoundedOnceOnTheSum()
    ensures var items := [CartLine(7, "Sample", 4, "", 1, Some(LineSubscription("daily", 10)))];
      LinePart(items) == 0.4 && CartWidePart(items, "subscription-monthly") == 0.32 &&
      Round(LinePart(items)) == 0 && Round(CartWidePart(items, "subscription-monthly")) == 0 &&
      Discount(items, "subscription-monthly") == 1
  {
    var items := [CartLine(7, "Sample", 4, "", 1, Some(LineSubscription("daily", 10)))];
    assert Subtotal(items) == 4;
    assert Seqs.Sum(items, LineSavingPaise) == 40;
  }

  // ---------------------------------------------------------------------
  // Cart mutations

  ghost predicate QuantitiesAtLeastOne(items: seq<CartLine>) {
    forall i :: 0 <= i < |items| ==> items[i].quantity >= 1
  }

  function Max(a: int, b: int): int {
    if a >= b then a else b
  }

  function ChangeQuantity(id: int, change: int): CartLine -> CartLine {
    (l: CartLine) => if l.id == id then l.(quantity := Max(1, l.quantity + change)) else l
  }

  /** `updateQuantity`: the lines with `id` get quantity max(1, q + change);
      nothing else changes. */
  function WithQuantityChanged(items: seq<CartLine>, id: int, change: int): (r: seq<CartLine>)
    ensures |r| == |items|
    ensures forall i :: 0 <= i < |items| ==> r[i].(quantity := items[i].quantity) == items[i]
    ensures forall i :: 0 <= i < |items| && items[i].id == id ==>
              r[i].quantity == Max(1, items[i].quantity + change) && r[i].quantity >= 1
    ensures forall i :: 0 <= i < |items| && items[i].id != id ==> r[i] == items[i]
    ensures QuantitiesAtLeastOne(items) ==> QuantitiesAtLeastOne(r)
  {
    Seqs.Map(items, ChangeQuantity(id, change))
  }

  lemma QuantityChangeOfUnknownId(items: seq<CartLine>, id: int, change: int)
    requires forall i :: 0 <= i < |items| ==> items[i].id != id
    ensures WithQuantityChanged(items, id, change) == items
  {
  }

  function OtherThan(id: int): CartLine -> bool {
    (l: CartLine) => l.id != id
  }

  /** `removeItem`: every line with `id` goes, the rest stay in order. */
  function WithoutLine(items: seq<CartLine>, id: int): (r: seq<CartLine>)
    ensures forall i :: 0 <= i < |r| ==> r[i] in items && r[i].id != id
    ensures forall i :: 0 <= i < |items| && items[i].id != id ==> items[i] in r
    ensures forall l :: multiset(r)[l] == if l.id != id then multiset(items)[l] else 0
    ensures QuantitiesAtLeastOne(items) ==> QuantitiesAtLeastOne(r)
  {
    Seqs.FilterMultiset(items, OtherThan(id));
    Seqs.Filter(items, OtherThan(id))
  }

  lemma RemovalKeepsOrder(items: seq<CartLine>, id: int)
    ensures Seqs.SubsequenceOf(WithoutLine(items, id), items)
  {
    Seqs.FilterIsSubsequence(items, OtherThan(id));
  }

  lemma RemovalIdempotent(items: seq<CartLine>, id: int)
    ensures WithoutLine(WithoutLine(items, id), id) == WithoutLine(items, id)
  {
    Seqs.FilterIdempotent(items, OtherThan(id));
  }

  lemma RemovalOfUnknownId(items: seq<CartLine>, id: int)
    requires forall i :: 0 <= i < |items| ==> items[i].id != id
    ensures WithoutLine(items, id) == items
  {
    Seqs.FilterKeepsAll(items, OtherThan(id));
  }

  // ---------------------------------------------------------------------
  // Checkout

  /** Where the page navigates after a settled payment. */
  datatype Route = Home | SubscriptionTracking

  datatype Gateway = Razorpay | PhonePe

  /** What is handed to a gateway collaborator: the amount, the order id and
      the subscription option captured when checkout was pressed (the
      callbacks' closure). */
  datatype PaymentRequest = PaymentRequest(gateway: Gateway, amount: int, orderId: string, cadence: string)

  /** The single callback a gateway collaborator eventually makes. */
  datatype GatewayResult = Success(paymentId: string) | Failure(error: string)

  datatype CheckoutOutcome =
    | NoPaymentMethod
    | AwaitingGateway(request: PaymentRequest)
    | OrderPlaced(destination: Route)

  function Destination(cadence: string): (r: Route)
    ensures r == Home <==> cadence == "one-time"
  {
    if cadence != "one-time" then SubscriptionTracking else Home
  }

  /** `handleCheckout`'s decision, given the state when it runs. */
  function Dispatch(paymentMethod: string, total: int, orderId: string, cadence: string): (r: CheckoutOutcome)
    ensures r == NoPaymentMethod <==> paymentMethod == ""
    ensures r.AwaitingGateway? <==> paymentMethod == "razorpay" || paymentMethod == "phonepe"
    ensures r.AwaitingGateway? ==>
              r.request.amount == total && r.request.orderId == orderId && r.request.cadence == cadence &&
              (r.request.gateway == Razorpay <==> paymentMethod == "razorpay")
    ensures r.OrderPlaced? ==> r.destination == Destination(cadence)
  {
    if paymentMethod == "" then NoPaymentMethod
    else if paymentMethod == "razorpay" then AwaitingGateway(PaymentRequest(Razorpay, total, orderId, cadence))
    else if paymentMethod == "phonepe" then AwaitingGateway(PaymentRequest(PhonePe, total, orderId, cadence))
    else OrderPlaced(Destination(cadence))
  }

  /** Every selected method other than the two gateways is cash on delivery
      and settles at once. */
  lemma CashOnDeliverySettlesAtOnce(paymentMethod: string, total: int, orderId: string, cadence: string)
    requires paymentMethod !in {"", "razorpay", "phonepe"}
    ensures Dispatch(paymentMethod, total, orderId, cadence) == OrderPlaced(Destination(cadence))
  {
  }

  /** The state of the cart page. */
  class CartPage {
    var items: seq<CartLine>
    var subscriptionOption: string
    var paymentMethod: string
    var isProcessing: bool

    ghost predicate Valid()
      reads this
    {
      QuantitiesAtLeastOne(items)
    }

    constructor ()
      ensures Valid()
      ensures items == InitialCart && subscriptionOption == "one-time"
      ensures paymentMethod == "" && !isProcessing
    {
      items := InitialCart;
      subscriptionOption := "one-time";
      paymentMethod := "";
      isProcessing := false;
    }

    /** The order summary the page shows: subtotal, discount, delivery fee
        and total. */
    function Summary(): (int, int, int, int)
      reads this
    {
      (Subtotal(items), Discount(items, subscriptionOption), DeliveryFee, Total(items, subscriptionOption))
    }

    method UpdateQuantity(id: int, change: int)
      requires Valid()
      modifies this`items
      ensures Valid()
      ensures items == WithQuantityChanged(old(items), id, change)
    {
      items := WithQuantityChanged(items, id, change);
    }

    method RemoveItem(id: int)
      requires Valid()
      modifies this`items
      ensures Valid()
      ensures items == WithoutLine(old(items), id)
    {
      items := WithoutLine(items, id);
    }

    /** The subscription option card's `onOptionChange`. */
    method SetSubscriptionOption(option: string)
      requires Valid()
      modifies this`subscriptionOption
      ensures Valid()
      ensures subscriptionOption == option
    {
      subscriptionOption := option;
    }

    /** The payment options card's `onOptionChange`. */
    method SetPaymentMethod(m: string)
      requires Valid()
      modifies this`paymentMethod
      ensures Valid()
      ensures paymentMethod == m
    {
      paymentMethod := m;
    }

    /** Pressing "Proceed to Checkout": the button is only shown for a
        non-empty cart and is disabled while a payment is processing;
        otherwise `handleCheckout` runs. Only `isProcessing` may change,
        and it stays set exactly while a gateway's answer is awaited. */
    method PressCheckout(orderId: string) returns (outcome: Option<CheckoutOutcome>)
      requires Valid() && |items| > 0
      modifies this`isProcessing
      ensures Valid()
      ensures old(isProcessing) ==> outcome == None && isProcessing
      ensures !old(isProcessing) ==>
                outcome == Some(Dispatch(paymentMethod, Total(items, subscriptionOption), orderId, subscriptionOption))
      ensures !old(isProcessing) ==> (isProcessing <==> outcome.value.AwaitingGateway?)
    {
      if isProcessing {
        return None;
      }
      if paymentMethod == "" {
        return Some(NoPaymentMethod);
      }
      isProcessing := true;
      var total := Total(items, subscriptionOption);
      if paymentMethod == "razorpay" {
        outcome := Some(AwaitingGateway(PaymentRequest(Razorpay, total, orderId, subscriptionOption)));
      } else if paymentMethod == "phonepe" {
        outcome := Some(AwaitingGateway(PaymentRequest(PhonePe, total, orderId, subscriptionOption)));
      } else {
        isProcessing := false;
        outcome := Some(OrderPlaced(Destination(subscriptionOption)));
      }
    }

    /** The gateway's one callback: success navigates by the captured
        option, failure does not; either way processing ends and the cart
        is left as it is. */
    method Settle(request: PaymentRequest, result: GatewayResult) returns (destination: Option<Route>)
      requires Valid()
      modifies this`isProcessing
      ensures Valid() && !isProcessing
      ensures destination.Some? <==> result.Success?
      ensures result.Success? ==> destination == Some(Destination(request.cadence))
    {
      isProcessing := false;
      if result.Success? {
        destination := Some(Destination(request.cadence));
      } else {
        destination := None;
      }
    }
  }

  /** The summary the page shows adds up: its total line is subtotal minus
      discount plus fee, and under the conditions of `TotalBounds` the
      discount is at most the subtotal and the total at least the fee. */
  lemma SummaryAddsUp(page: CartPage)
    requires forall i :: 0 <= i < |page.items| ==> WellFormedLine(page.items[i])
    requires forall i :: 0 <= i < |page.items| && page.items[i].subscription.Some? ==>
               page.items[i].subscription.value.savings + CartWidePercent(page.subscriptionOption) <= 100
    ensures page.Summary().3 == page.Summary().0 - page.Summary().1 + page.Summary().2
    ensures page.Summary().2 == DeliveryFee
    ensures 0 <= page.Summary().1 <= page.Summary().0
    ensures DeliveryFee <= page.Summary().3 <= page.Summary().0 + DeliveryFee
  {
    TotalBounds(page.items, page.subscriptionOption);
  }
}
