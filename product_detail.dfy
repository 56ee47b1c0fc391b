/** The product detail page: the quantity stepper and the price preview for
    a one-time purchase or one of the product's subscription options. */
module ProductDetail {
  import opened Wrappers

  /** `savings` is the percentage the source writes as '10%'. */
  datatype SubscriptionOption = SubscriptionOption(id: string, name: string, savings: int)

  const ProductPrice: int := 55

  const ProductOptions: seq<SubscriptionOption> := [
    SubscriptionOption("daily", "Daily Delivery", 10),
    SubscriptionOption("alternate", "Alternate Days", 8),
    SubscriptionOption("weekly", "Weekly Pack", 5)
  ]

  /** `options.find(opt => opt.id === id)`: the first option with that id. */
  function FindOption(options: seq<SubscriptionOption>, id: string): (r: Option<SubscriptionOption>)
    ensures r.None? <==> forall i :: 0 <= i < |options| ==> options[i].id != id
    ensures r.Some? ==> exists i :: 0 <= i < |options| && options[i] == r.value && r.value.id == id &&
                                    forall j :: 0 <= j < i ==> options[j].id != id
    decreases |options|
  {
    if options == [] then None
    else if options[0].id == id then Some(options[0])
    else
      var r := FindOption(options[1..], id);
      assert r.Some? ==> exists i :: 0 <= i < |options[1..]| && options[1..][i] == r.value && r.value.id == id &&
                                     forall j :: 0 <= j < i ==> options[1..][j].id != id;
      assert r.Some? ==> exists i :: 1 <= i < |options| && options[i] == r.value && r.value.id == id &&
                                     forall j :: 0 <= j < i ==> options[j].id != id;
      r
  }

  /** `calculatePrice`, exact: no rounding and no display formatting. */
  function Price(price: int, quantity: int, purchaseType: string, options: seq<SubscriptionOption>): real {
    var base := (price * quantity) as real;
    if purchaseType != "one-time" && FindOption(options, purchaseType).Some? then
      base * (1.0 - FindOption(options, purchaseType).value.savings as real / 100.0)
    else
      base
  }

  lemma OneTimePrice(price: int, quantity: int, options: seq<SubscriptionOption>)
    ensures Price(price, quantity, "one-time", options) == (price * quantity) as real
  {
  }

  /** A listed option takes its own percentage off the base price. */
  lemma OptionPrice(price: int, quantity: int, options: seq<SubscriptionOption>, k: nat)
    requires k < |options| && options[k].id != "one-time"
    requires forall j :: 0 <= j < k ==> options[j].id != options[k].id
    ensures Price(price, quantity, options[k].id, options) ==
            (price * quantity) as real * (1.0 - options[k].savings as real / 100.0)
  {
    var r := FindOption(options, options[k].id);
    var i :| 0 <= i < |options| && options[i] == r.value && r.value.id == options[k].id &&
             forall j :: 0 <= j < i ==> options[j].id != options[k].id;
    assert i == k;
  }

  /** An id that is not listed gets the undiscounted price. */
  lemma UnlistedOptionPrice(price: int, quantity: int, purchaseType: string, options: seq<SubscriptionOption>)
    requires forall i :: 0 <= i < |options| ==> options[i].id != purchaseType
    ensures Price(price, quantity, purchaseType, options) == (price * quantity) as real
  {
  }

  /** The product's three options: daily 10 %, alternate 8 %, weekly 5 %,
      so daily <= alternate <= weekly <= one-time, all non-negative. */
  lemma ProductPricesOrdered(price: int, quantity: int)
    requires price >= 0 && quantity >= 0
    ensures Price(price, quantity, "daily", ProductOptions) == (price * quantity) as real * 0.9
    ensures Price(price, quantity, "alternate", ProductOptions) == (price * quantity) as real * 0.92
    ensures Price(price, quantity, "weekly", ProductOptions) == (price * quantity) as real * 0.95
    ensures 0.0 <= Price(price, quantity, "daily", ProductOptions)
    ensures Price(price, quantity, "daily", ProductOptions) <= Price(price, quantity, "alternate", ProductOptions)
    ensures Price(price, quantity, "alternate", ProductOptions) <= Price(price, quantity, "weekly", ProductOptions)
    ensures Price(price, quantity, "weekly", ProductOptions) <= Price(price, quantity, "one-time", ProductOptions)
  {
    OptionPrice(price, quantity, ProductOptions, 0);
    OptionPrice(price, quantity, ProductOptions, 1);
    OptionPrice(price, quantity, ProductOptions, 2);
    assert price * quantity >= 0;
  }

  class ProductDetailPage {
    var quantity: int
    var purchaseType: string

    ghost predicate Valid()
      reads this
    {
      quantity >= 1
    }

    constructor ()
      ensures Valid() && quantity == 1 && purchaseType == "one-time"
    {
      quantity := 1;
      purchaseType := "one-time";
    }

    method IncrementQuantity()
      requires Valid()
      modifies this`quantity
      ensures Valid() && quantity == old(quantity) + 1
    {
      quantity := quantity + 1;
    }

    /** max(1, q - 1): the stepper never goes below 1. */
    method DecrementQuantity()
      requires Valid()
      modifies this`quantity
      ensures Valid()
      ensures quantity == if old(quantity) - 1 >= 1 then old(quantity) - 1 else 1
    {
      quantity := if quantity - 1 >= 1 then quantity - 1 else 1;
    }

    method SetPurchaseType(t: string)
      modifies this`purchaseType
      ensures purchaseType == t
    {
      purchaseType := t;
    }

    /** The price the page shows for the current state. */
    function CurrentPrice(): real
      reads this
    {
      Price(ProductPrice, quantity, purchaseType, ProductOptions)
    }
  }

  /** The price the page shows is the base price 55 × quantity or a listed
      option's reduction of it: positive, at most the base, and at least
      90 % of it, since the largest saving on offer is 10 %. */
  lemma CurrentPriceBounds(page: ProductDetailPage)
    requires page.Valid()
    ensures page.purchaseType == "one-time" ==> page.CurrentPrice() == (ProductPrice * page.quantity) as real
    ensures (ProductPrice * page.quantity) as real * 0.9 <= page.CurrentPrice()
    ensures 0.0 < page.CurrentPrice() <= (ProductPrice * page.quantity) as real
  {
    var t := page.purchaseType;
    ProductPricesOrdered(ProductPrice, page.quantity);
    if t != "daily" && t != "alternate" && t != "weekly" {
      UnlistedOptionPrice(ProductPrice, page.quantity, t, ProductOptions);
    }
  }
}
