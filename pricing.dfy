/** The per-item pricing strategies and the fixed table that assigns a strategy to an item.
    Quantities and unit prices are natural numbers (prices in minor currency units). */
module Pricing {

  /** The three strategies. Each prices `quantity` units of one item at `unitPrice` each,
      knowing nothing about the rest of the basket. */
  datatype Strategy = RegularPricing | BuyOneGetOneFree | ThreeForTwo {

    /** The number of units that are actually charged. */
    function PaidUnits(quantity: nat): (r: nat)
      ensures r <= quantity
      ensures quantity == 0 ==> r == 0
    {
      match this
      case RegularPricing => quantity
      case BuyOneGetOneFree => BogoPaidUnits(quantity)
      case ThreeForTwo => ThreeForTwoPaidUnits(quantity)
    }

    /** The subtotal for `quantity` units: never above the flat price, zero for no units. */
    function Calculate(quantity: nat, unitPrice: nat): (r: nat)
      ensures r <= quantity * unitPrice
      ensures quantity == 0 ==> r == 0
    {
      var paid := PaidUnits(quantity);
      MulMonotone(paid, quantity, unitPrice);
      paid * unitPrice
    }
  }

  /** Buy one, get one free: the paid units are the quantity halved and rounded up. */
  function BogoPaidUnits(quantity: nat): (r: nat)
    ensures quantity <= 2 * r <= quantity + 1
  {
    (quantity + 1) / 2
  }

  /** Three for the price of two: every complete group of three has one free unit,
      and the remainder is charged in full. */
  function ThreeForTwoPaidUnits(quantity: nat): (r: nat)
    ensures r + quantity / 3 == quantity
  {
    var groupsOfThree := quantity / 3;
    var remainingItems := quantity % 3;
    groupsOfThree * 2 + remainingItems
  }

  lemma MulMonotone(a: nat, b: nat, c: nat)
    requires a <= b
    ensures a * c <= b * c
  {
  }

  /** The rule table: items without an entry fall back to regular pricing. */
  const PricingRules: map<string, Strategy> :=
    map["Apple" := RegularPricing, "Banana" := RegularPricing,
        "Melon" := BuyOneGetOneFree, "Lime" := ThreeForTwo]

  /** The four item names the rule table and the price catalog use are distinct. */
  lemma CatalogNamesDistinct()
    ensures "Apple" != "Banana" && "Apple" != "Melon" && "Apple" != "Lime"
    ensures "Banana" != "Melon" && "Banana" != "Lime" && "Melon" != "Lime"
  {
    assert "Apple"[0] != "Banana"[0] && "Apple"[0] != "Melon"[0] && "Apple"[0] != "Lime"[0];
    assert "Banana"[0] != "Melon"[0] && "Banana"[0] != "Lime"[0] && "Melon"[0] != "Lime"[0];
  }

  /** The rule table holds exactly the four items: Apple and Banana at regular pricing,
      Melon at buy-one-get-one-free and Lime at three-for-two. */
  lemma RuleTable()
    ensures PricingRules.Keys == {"Apple", "Banana", "Melon", "Lime"}
    ensures PricingRules["Apple"] == RegularPricing && PricingRules["Banana"] == RegularPricing
    ensures PricingRules["Melon"] == BuyOneGetOneFree && PricingRules["Lime"] == ThreeForTwo
  {
    CatalogNamesDistinct();
  }

  /** The subtotal of one item of the basket: its rule if it has one, else the flat price. */
  function ItemSubtotal(item: string, quantity: nat, unitPrice: nat): (r: nat)
    ensures r <= quantity * unitPrice
    ensures quantity == 0 ==> r == 0
  {
    if item in PricingRules then PricingRules[item].Calculate(quantity, unitPrice)
    else quantity * unitPrice
  }

  /** An item without a rule is priced exactly as regular pricing would price it. */
  lemma FallbackIsRegular(item: string, quantity: nat, unitPrice: nat)
    requires item !in PricingRules
    ensures ItemSubtotal(item, quantity, unitPrice) == RegularPricing.Calculate(quantity, unitPrice)
    ensures ItemSubtotal(item, quantity, unitPrice) == quantity * unitPrice
  {
  }

  /** Regular pricing is the flat price. */
  lemma RegularIsFlat(quantity: nat, unitPrice: nat)
    ensures RegularPricing.Calculate(quantity, unitPrice) == quantity * unitPrice
  {
  }

  /** No discount applies below a complete group: a single unit under buy-one-get-one-free,
      and up to two units under three-for-two, cost the flat price. */
  lemma NoDiscountBelowGroup(quantity: nat, unitPrice: nat)
    ensures quantity <= 1 ==> BuyOneGetOneFree.Calculate(quantity, unitPrice) == quantity * unitPrice
    ensures quantity <= 2 ==> ThreeForTwo.Calculate(quantity, unitPrice) == quantity * unitPrice
  {
  }

  /** Buy-one-get-one-free charges at least half the flat price. */
  lemma BogoFloor(quantity: nat, unitPrice: nat)
    ensures 2 * BuyOneGetOneFree.Calculate(quantity, unitPrice) >= quantity * unitPrice
  {
    var b := BogoPaidUnits(quantity);
    MulMonotone(quantity, 2 * b, unitPrice);
    assert 2 * (b * unitPrice) == (2 * b) * unitPrice;
  }

  /** Three-for-two charges at least two thirds of the flat price. */
  lemma ThreeForTwoFloor(quantity: nat, unitPrice: nat)
    ensures 3 * ThreeForTwo.Calculate(quantity, unitPrice) >= 2 * (quantity * unitPrice)
  {
    var t := ThreeForTwoPaidUnits(quantity);
    MulMonotone(2 * quantity, 3 * t, unitPrice);
    assert 3 * (t * unitPrice) == (3 * t) * unitPrice;
    assert 2 * (quantity * unitPrice) == (2 * quantity) * unitPrice;
  }

  /** One more unit never lowers the paid units and adds at most one paid unit. */
  lemma PaidUnitsStep(s: Strategy, quantity: nat)
    ensures s.PaidUnits(quantity) <= s.PaidUnits(quantity + 1) <= s.PaidUnits(quantity) + 1
  {
  }

  /** One more unit never lowers a subtotal and adds at most one unit price. */
  lemma CalculateStep(s: Strategy, quantity: nat, unitPrice: nat)
    ensures s.Calculate(quantity, unitPrice) <= s.Calculate(quantity + 1, unitPrice)
    ensures s.Calculate(quantity + 1, unitPrice) <= s.Calculate(quantity, unitPrice) + unitPrice
  {
    var a, b := s.PaidUnits(quantity), s.PaidUnits(quantity + 1);
    PaidUnitsStep(s, quantity);
    MulMonotone(a, b, unitPrice);
    MulMonotone(b, a + 1, unitPrice);
    assert (a + 1) * unitPrice == a * unitPrice + unitPrice;
  }

  /** Every strategy is non-decreasing in the quantity. */
  lemma {:induction false} CalculateMonotone(s: Strategy, q1: nat, q2: nat, unitPrice: nat)
    requires q1 <= q2
    ensures s.Calculate(q1, unitPrice) <= s.Calculate(q2, unitPrice)
    decreases q2 - q1
  {
    if q1 < q2 {
      CalculateStep(s, q1, unitPrice);
      CalculateMonotone(s, q1 + 1, q2, unitPrice);
    }
  }

  /** The same bounds lifted to the per-item subtotal, rule or fallback. */
  lemma ItemSubtotalStep(item: string, quantity: nat, unitPrice: nat)
    ensures ItemSubtotal(item, quantity, unitPrice) <= ItemSubtotal(item, quantity + 1, unitPrice)
    ensures ItemSubtotal(item, quantity + 1, unitPrice) <= ItemSubtotal(item, quantity, unitPrice) + unitPrice
  {
    if item in PricingRules {
      CalculateStep(PricingRules[item], quantity, unitPrice);
    } else {
      CalculateStep(RegularPricing, quantity, unitPrice);
    }
  }

  /** Buy-one-get-one-free at a unit price of 50, for the quantities the test suite uses. */
  lemma BogoExamples()
    ensures BuyOneGetOneFree.Calculate(1, 50) == 50
    ensures BuyOneGetOneFree.Calculate(2, 50) == 50
    ensures BuyOneGetOneFree.Calculate(3, 50) == 100
    ensures BuyOneGetOneFree.Calculate(10, 50) == 250
  {
  }

  /** Three-for-two at a unit price of 15, for the quantities the test suite uses. */
  lemma ThreeForTwoExamples()
    ensures ThreeForTwo.Calculate(1, 15) == 15
    ensures ThreeForTwo.Calculate(2, 15) == 30
    ensures ThreeForTwo.Calculate(3, 15) == 30
    ensures ThreeForTwo.Calculate(4, 15) == 45
    ensures ThreeForTwo.Calculate(5, 15) == 60
    ensures ThreeForTwo.Calculate(6, 15) == 60
    ensures ThreeForTwo.Calculate(10, 15) == 105
    ensures ThreeForTwo.Calculate(15, 15) == 150
  {
  }
}
