/** The payment options card: which methods are offered, and the method it
    picks by itself when none is selected yet. */
module PaymentOptions {
  import opened Wrappers

  datatype Gateways = Gateways(razorpay: bool, phonepe: bool, cashOnDelivery: bool)

  /** Before the availability collaborator answers, only cash on delivery. */
  const InitialGateways: Gateways := Gateways(false, false, true)

  /** Whether `option` (a radio value) is offered under `g`. */
  predicate Offered(g: Gateways, option: string) {
    (option == "razorpay" && g.razorpay) ||
    (option == "phonepe" && g.phonepe) ||
    (option == "cod" && g.cashOnDelivery)
  }

  /** The first available method in the order razorpay, phonepe, cod. */
  function DefaultChoice(g: Gateways): (r: string)
    ensures r == "razorpay" <==> g.razorpay
    ensures r == "phonepe" <==> !g.razorpay && g.phonepe
    ensures r == "cod" <==> !g.razorpay && !g.phonepe
    ensures g.cashOnDelivery ==> Offered(g, r)
  {
    if g.razorpay then "razorpay"
    else if g.phonepe then "phonepe"
    else "cod"
  }

  /** The default-selection effect: it calls `onOptionChange` only when no
      option is selected and loading is over. */
  function DefaultSelection(selected: string, isLoading: bool, g: Gateways): (r: Option<string>)
    ensures r.Some? <==> selected == "" && !isLoading
    ensures r.Some? ==> r.value == DefaultChoice(g)
  {
    if selected == "" && !isLoading then Some(DefaultChoice(g)) else None
  }

  /** Whatever the collaborator reported, the chosen default is a method
      the card offers. */
  lemma DefaultIsOffered(selected: string, isLoading: bool, razorpay: bool, phonepe: bool)
    ensures var g := Gateways(razorpay, phonepe, true);
      var choice := DefaultSelection(selected, isLoading, g);
      choice.Some? ==> Offered(g, choice.value) && choice.value != ""
  {
  }

  class PaymentOptionsCard {
    var available: Gateways
    var isLoading: bool

    /** Cash on delivery is always offered. */
    ghost predicate Valid()
      reads this
    {
      available.cashOnDelivery
    }

    constructor ()
      ensures Valid()
      ensures available == InitialGateways && isLoading
    {
      available := InitialGateways;
      isLoading := true;
    }

    /** The fetch effect starts (it sets loading again). */
    method StartFetch()
      requires Valid()
      modifies this`isLoading
      ensures Valid() && isLoading
    {
      isLoading := true;
    }

    /** The collaborator answered: its two flags are taken, cash on
        delivery is forced on, loading ends. */
    method FetchSucceeded(razorpay: bool, phonepe: bool)
      requires Valid()
      modifies this
      ensures Valid() && !isLoading
      ensures available == Gateways(razorpay, phonepe, true)
    {
      available := Gateways(razorpay, phonepe, true);
      isLoading := false;
    }

    /** The collaborator failed: availability is kept, loading ends. */
    method FetchFailed()
      requires Valid()
      modifies this`isLoading
      ensures Valid() && !isLoading
      ensures available == old(available)
    {
      isLoading := false;
    }

    /** What the default-selection effect hands to `onOptionChange`, if
        anything; it changes nothing in the card. */
    method DefaultEffect(selected: string) returns (choice: Option<string>)
      requires Valid()
      ensures choice.Some? <==> selected == "" && !isLoading
      ensures choice.Some? ==> choice.value == DefaultChoice(available) && Offered(available, choice.value)
    {
      choice := DefaultSelection(selected, isLoading, available);
    }
  }
}
