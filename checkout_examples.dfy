/** The pricer on the catalog its test suite pins: Apple 35, Banana 20, Melon 50 and
    Lime 15, in minor currency units. */
module CheckoutExamples {
  import opened Pricing
  import opened Checkout

  const Catalog: map<string, nat> := map["Apple" := 35, "Banana" := 20, "Melon" := 50, "Lime" := 15]

  /** A basket of `n` copies of one item (the suite's `Array(n).fill(item)`). */
  function Repeat(item: string, n: nat): seq<string>
  {
    if n == 0 then [] else Repeat(item, n - 1) + [item]
  }

  /** `n` copies: nothing but `item`, and `item` exactly `n` times. */
  lemma {:induction false} RepeatCopies(item: string, n: nat)
    ensures |Repeat(item, n)| == n
    ensures forall x :: x in Repeat(item, n) ==> x == item
    ensures multiset(Repeat(item, n))[item] == n
  {
    if n > 0 {
      RepeatCopies(item, n - 1);
    }
  }

  /** A basket holding copies of one item only costs that item's subtotal. */
  lemma TotalOfRepeat(item: string, n: nat, prices: map<string, nat>)
    requires item in prices
    ensures TotalOf(Repeat(item, n), prices) == ItemSubtotal(item, n, prices[item])
  {
    var basket := Repeat(item, n);
    var counts := Tally(basket);
    TallyCounts(basket);
    RepeatCopies(item, n);
    if n > 0 {
      assert basket[0] in basket;
      assert counts.Keys == {item};
      SetSums.SetSumSingleton(item, SubtotalOf(counts, prices));
    } else {
      assert counts.Keys == {};
    }
  }

  /** A basket written as lines of (item, quantity): each line's copies, line after line. */
  function Expand(lines: seq<(string, nat)>): seq<string>
  {
    if lines == [] then []
    else Repeat(lines[0].0, lines[0].1) + Expand(lines[1..])
  }

  /** A basket expanded from lines holds only the items the lines name. */
  lemma {:induction false} ExpandItems(lines: seq<(string, nat)>)
    ensures forall x :: x in Expand(lines) ==> x in ItemsOf(lines)
  {
    if lines != [] {
      ExpandItems(lines[1..]);
      RepeatCopies(lines[0].0, lines[0].1);
    }
  }

  /** Expanding concatenated lines is expanding each part, one after the other. */
  lemma {:induction false} ExpandAppend(a: seq<(string, nat)>, b: seq<(string, nat)>)
    ensures Expand(a + b) == Expand(a) + Expand(b)
  {
    if a == [] {
      assert a + b == b;
    } else {
      assert (a + b)[1..] == a[1..] + b;
      ExpandAppend(a[1..], b);
    }
  }

  /** The items named by the lines. */
  function ItemsOf(lines: seq<(string, nat)>): set<string>
  {
    if lines == [] then {} else {lines[0].0} + ItemsOf(lines[1..])
  }

  /** The sum of the lines' subtotals. */
  function LinesTotal(lines: seq<(string, nat)>, prices: map<string, nat>): nat
    requires ItemsOf(lines) <= prices.Keys
  {
    if lines == [] then 0
    else
      ItemSubtotal(lines[0].0, lines[0].1, prices[lines[0].0]) + LinesTotal(lines[1..], prices)
  }

  /** Lines name distinct items. */
  predicate DistinctLines(lines: seq<(string, nat)>)
  {
    lines == [] || (lines[0].0 !in ItemsOf(lines[1..]) && DistinctLines(lines[1..]))
  }

  /** A basket of distinct known items, in quantity lines, costs the sum of the lines. */
  lemma {:induction false} TotalOfLines(lines: seq<(string, nat)>, prices: map<string, nat>)
    requires ItemsOf(lines) <= prices.Keys
    requires DistinctLines(lines)
    ensures TotalOf(Expand(lines), prices) == LinesTotal(lines, prices)
  {
    if lines != [] {
      var head, rest := lines[0], lines[1..];
      TotalOfLines(rest, prices);
      ExpandItems(rest);
      RepeatCopies(head.0, head.1);
      TotalOfRepeat(head.0, head.1, prices);
      TotalOfDisjoint(Repeat(head.0, head.1), Expand(rest), prices);
    }
  }

  /** The price of a basket of distinct known items in quantity lines. */
  lemma PriceOfLines(lines: seq<(string, nat)>, prices: map<string, nat>)
    requires ItemsOf(lines) <= prices.Keys
    requires DistinctLines(lines)
    ensures Price(Expand(lines), prices) == Ok(LinesTotal(lines, prices))
  {
    ExpandItems(lines);
    KnownBasketPrice(Expand(lines), prices);
    TotalOfLines(lines, prices);
  }

  /** The catalog holds exactly the four items, at their unit prices. */
  lemma CatalogPrices()
    ensures Catalog.Keys == {"Apple", "Banana", "Melon", "Lime"}
    ensures Catalog["Apple"] == 35 && Catalog["Banana"] == 20
    ensures Catalog["Melon"] == 50 && Catalog["Lime"] == 15
  {
    CatalogNamesDistinct();
  }

  /** Copies of one known item cost that item's subtotal. */
  lemma PriceOfOneLine(item: string, quantity: nat, prices: map<string, nat>)
    requires item in prices
    ensures Price(Repeat(item, quantity), prices) == Ok(ItemSubtotal(item, quantity, prices[item]))
  {
    RepeatCopies(item, quantity);
    KnownBasketPrice(Repeat(item, quantity), prices);
    TotalOfRepeat(item, quantity, prices);
  }

  /** The small baskets of apples the test suite writes out. */
  lemma LiteralApples()
    ensures Repeat("Apple", 1) == ["Apple"]
    ensures Repeat("Apple", 2) == ["Apple", "Apple"]
    ensures Repeat("Apple", 3) == ["Apple", "Apple", "Apple"]
  {
  }

  /** The small baskets of bananas the test suite writes out. */
  lemma LiteralBananas()
    ensures Repeat("Banana", 1) == ["Banana"]
    ensures Repeat("Banana", 2) == ["Banana", "Banana"]
    ensures Repeat("Banana", 3) == ["Banana", "Banana", "Banana"]
  {
  }

  /** The small baskets of melons the test suite writes out. */
  lemma LiteralMelons()
    ensures Repeat("Melon", 1) == ["Melon"]
    ensures Repeat("Melon", 2) == ["Melon", "Melon"]
    ensures Repeat("Melon", 3) == ["Melon", "Melon", "Melon"]
  {
  }

  /** The small baskets of limes the test suite writes out. */
  lemma LiteralLimes()
    ensures Repeat("Lime", 1) == ["Lime"]
    ensures Repeat("Lime", 2) == ["Lime", "Lime"]
    ensures Repeat("Lime", 3) == ["Lime", "Lime", "Lime"]
    ensures Repeat("Lime", 4) == ["Lime", "Lime", "Lime", "Lime"]
    ensures Repeat("Lime", 5) == ["Lime", "Lime", "Lime", "Lime", "Lime"]
    ensures Repeat("Lime", 6) == ["Lime", "Lime", "Lime", "Lime", "Lime", "Lime"]
  {
  }

  /** A single apple costs its unit price. */
  lemma OneApple()
    ensures Repeat("Apple", 1) == ["Apple"]
    ensures Price(Repeat("Apple", 1), Catalog) == Ok(35)
  {
    LiteralApples();
    assert ItemSubtotal("Apple", 1, 35) == 35;
    CatalogPrices();
    PriceOfOneLine("Apple", 1, Catalog);
  }

  /** A single banana costs its unit price. */
  lemma OneBanana()
    ensures Repeat("Banana", 1) == ["Banana"]
    ensures Price(Repeat("Banana", 1), Catalog) == Ok(20)
  {
    LiteralBananas();
    assert ItemSubtotal("Banana", 1, 20) == 20;
    CatalogPrices();
    PriceOfOneLine("Banana", 1, Catalog);
  }

  /** A single melon is charged in full: there is no pair. */
  lemma OneMelon()
    ensures Repeat("Melon", 1) == ["Melon"]
    ensures Price(Repeat("Melon", 1), Catalog) == Ok(50)
  {
    LiteralMelons();
    assert ItemSubtotal("Melon", 1, 50) == 50 by { BogoExamples(); }
    CatalogPrices();
    PriceOfOneLine("Melon", 1, Catalog);
  }

  /** A single lime is charged in full: there is no group of three. */
  lemma OneLime()
    ensures Repeat("Lime", 1) == ["Lime"]
    ensures Price(Repeat("Lime", 1), Catalog) == Ok(15)
  {
    LiteralLimes();
    assert ItemSubtotal("Lime", 1, 15) == 15 by { ThreeForTwoExamples(); }
    CatalogPrices();
    PriceOfOneLine("Lime", 1, Catalog);
  }

  /** Two apples cost two unit prices. */
  lemma TwoApples()
    ensures Repeat("Apple", 2) == ["Apple", "Apple"]
    ensures Price(Repeat("Apple", 2), Catalog) == Ok(70)
  {
    LiteralApples();
    assert ItemSubtotal("Apple", 2, 35) == 70;
    CatalogPrices();
    PriceOfOneLine("Apple", 2, Catalog);
  }

  /** Three apples cost three unit prices. */
  lemma ThreeApples()
    ensures Repeat("Apple", 3) == ["Apple", "Apple", "Apple"]
    ensures Price(Repeat("Apple", 3), Catalog) == Ok(105)
  {
    LiteralApples();
    assert ItemSubtotal("Apple", 3, 35) == 105;
    CatalogPrices();
    PriceOfOneLine("Apple", 3, Catalog);
  }

  /** Two bananas cost two unit prices. */
  lemma TwoBananas()
    ensures Repeat("Banana", 2) == ["Banana", "Banana"]
    ensures Price(Repeat("Banana", 2), Catalog) == Ok(40)
  {
    LiteralBananas();
    assert ItemSubtotal("Banana", 2, 20) == 40;
    CatalogPrices();
    PriceOfOneLine("Banana", 2, Catalog);
  }

  /** Three bananas cost three unit prices. */
  lemma ThreeBananas()
    ensures Repeat("Banana", 3) == ["Banana", "Banana", "Banana"]
    ensures Price(Repeat("Banana", 3), Catalog) == Ok(60)
  {
    LiteralBananas();
    assert ItemSubtotal("Banana", 3, 20) == 60;
    CatalogPrices();
    PriceOfOneLine("Banana", 3, Catalog);
  }

  /** Two melons: the second is free. */
  lemma TwoMelons()
    ensures Repeat("Melon", 2) == ["Melon", "Melon"]
    ensures Price(Repeat("Melon", 2), Catalog) == Ok(50)
  {
    LiteralMelons();
    assert ItemSubtotal("Melon", 2, 50) == 50 by { BogoExamples(); }
    CatalogPrices();
    PriceOfOneLine("Melon", 2, Catalog);
  }

  /** Three melons: a pair with one free, and one in full. */
  lemma ThreeMelons()
    ensures Repeat("Melon", 3) == ["Melon", "Melon", "Melon"]
    ensures Price(Repeat("Melon", 3), Catalog) == Ok(100)
  {
    LiteralMelons();
    assert ItemSubtotal("Melon", 3, 50) == 100 by { BogoExamples(); }
    CatalogPrices();
    PriceOfOneLine("Melon", 3, Catalog);
  }

  /** Two limes are charged in full. */
  lemma TwoLimes()
    ensures Repeat("Lime", 2) == ["Lime", "Lime"]
    ensures Price(Repeat("Lime", 2), Catalog) == Ok(30)
  {
    LiteralLimes();
    assert ItemSubtotal("Lime", 2, 15) == 30 by { ThreeForTwoExamples(); }
    CatalogPrices();
    PriceOfOneLine("Lime", 2, Catalog);
  }

  /** Three limes cost two. */
  lemma ThreeLimes()
    ensures Repeat("Lime", 3) == ["Lime", "Lime", "Lime"]
    ensures Price(Repeat("Lime", 3), Catalog) == Ok(30)
  {
    LiteralLimes();
    assert ItemSubtotal("Lime", 3, 15) == 30 by { ThreeForTwoExamples(); }
    CatalogPrices();
    PriceOfOneLine("Lime", 3, Catalog);
  }

  /** Four limes: a group of three at the price of two, plus one. */
  lemma FourLimes()
    ensures Repeat("Lime", 4) == ["Lime", "Lime", "Lime", "Lime"]
    ensures Price(Repeat("Lime", 4), Catalog) == Ok(45)
  {
    LiteralLimes();
    assert ItemSubtotal("Lime", 4, 15) == 45 by { ThreeForTwoExamples(); }
    CatalogPrices();
    PriceOfOneLine("Lime", 4, Catalog);
  }

  /** Five limes: a group of three at the price of two, plus two. */
  lemma FiveLimes()
    ensures Repeat("Lime", 5) == ["Lime", "Lime", "Lime", "Lime", "Lime"]
    ensures Price(Repeat("Lime", 5), Catalog) == Ok(60)
  {
    LiteralLimes();
    assert ItemSubtotal("Lime", 5, 15) == 60 by { ThreeForTwoExamples(); }
    CatalogPrices();
    PriceOfOneLine("Lime", 5, Catalog);
  }

  /** Six limes cost four. */
  lemma SixLimes()
    ensures Repeat("Lime", 6) == ["Lime", "Lime", "Lime", "Lime", "Lime", "Lime"]
    ensures Price(Repeat("Lime", 6), Catalog) == Ok(60)
  {
    LiteralLimes();
    assert ItemSubtotal("Lime", 6, 15) == 60 by { ThreeForTwoExamples(); }
    CatalogPrices();
    PriceOfOneLine("Lime", 6, Catalog);
  }

  /** Ten apples cost ten unit prices. */
  lemma TenApples()
    ensures Price(Repeat("Apple", 10), Catalog) == Ok(350)
  {
    assert ItemSubtotal("Apple", 10, 35) == 350;
    CatalogPrices();
    PriceOfOneLine("Apple", 10, Catalog);
  }

  /** Ten melons cost five. */
  lemma TenMelons()
    ensures Price(Repeat("Melon", 10), Catalog) == Ok(250)
  {
    assert ItemSubtotal("Melon", 10, 50) == 250 by { BogoExamples(); }
    CatalogPrices();
    PriceOfOneLine("Melon", 10, Catalog);
  }

  /** Ten limes: three groups at the price of two, plus one. */
  lemma TenLimes()
    ensures Price(Repeat("Lime", 10), Catalog) == Ok(105)
  {
    assert ItemSubtotal("Lime", 10, 15) == 105 by { ThreeForTwoExamples(); }
    CatalogPrices();
    PriceOfOneLine("Lime", 10, Catalog);
  }

  /** Fifteen limes: five groups at the price of two. */
  lemma FifteenLimes()
    ensures Price(Repeat("Lime", 15), Catalog) == Ok(150)
  {
    assert ItemSubtotal("Lime", 15, 15) == 150 by { ThreeForTwoExamples(); }
    CatalogPrices();
    PriceOfOneLine("Lime", 15, Catalog);
  }

  /** An apple and a banana, as the test suite writes the basket out. */
  lemma AppleBananaLiteral()
    ensures Expand([("Apple", 1), ("Banana", 1)]) == ["Apple", "Banana"]
  {
  }

  /** An apple and a banana: distinct catalog items whose subtotals add up to 55. */
  lemma AppleBananaLines()
    ensures ItemsOf([("Apple", 1), ("Banana", 1)]) <= Catalog.Keys
    ensures DistinctLines([("Apple", 1), ("Banana", 1)])
    ensures Expand([("Apple", 1), ("Banana", 1)]) != []
    ensures LinesTotal([("Apple", 1), ("Banana", 1)], Catalog) == 55
  {
    CatalogPrices();
  }

  /** An apple and a banana. */
  lemma AppleBanana()
    ensures Expand([("Apple", 1), ("Banana", 1)]) == ["Apple", "Banana"]
    ensures Price(Expand([("Apple", 1), ("Banana", 1)]), Catalog) == Ok(55)
  {
    AppleBananaLiteral();
    AppleBananaLines();
    PriceOfLines([("Apple", 1), ("Banana", 1)], Catalog);
  }

  /** An apple and a melon, as the test suite writes the basket out. */
  lemma AppleMelonLiteral()
    ensures Expand([("Apple", 1), ("Melon", 1)]) == ["Apple", "Melon"]
  {
  }

  /** An apple and a melon: distinct catalog items whose subtotals add up to 85. */
  lemma AppleMelonLines()
    ensures ItemsOf([("Apple", 1), ("Melon", 1)]) <= Catalog.Keys
    ensures DistinctLines([("Apple", 1), ("Melon", 1)])
    ensures Expand([("Apple", 1), ("Melon", 1)]) != []
    ensures LinesTotal([("Apple", 1), ("Melon", 1)], Catalog) == 85
  {
    assert ItemSubtotal("Melon", 1, 50) == 50 by { BogoExamples(); }
    CatalogPrices();
  }

  /** An apple and a melon. */
  lemma AppleMelon()
    ensures Expand([("Apple", 1), ("Melon", 1)]) == ["Apple", "Melon"]
    ensures Price(Expand([("Apple", 1), ("Melon", 1)]), Catalog) == Ok(85)
  {
    AppleMelonLiteral();
    AppleMelonLines();
    PriceOfLines([("Apple", 1), ("Melon", 1)], Catalog);
  }

  /** A banana and a lime, as the test suite writes the basket out. */
  lemma BananaLimeLiteral()
    ensures Expand([("Banana", 1), ("Lime", 1)]) == ["Banana", "Lime"]
  {
  }

  /** A banana and a lime: distinct catalog items whose subtotals add up to 35. */
  lemma BananaLimeLines()
    ensures ItemsOf([("Banana", 1), ("Lime", 1)]) <= Catalog.Keys
    ensures DistinctLines([("Banana", 1), ("Lime", 1)])
    ensures Expand([("Banana", 1), ("Lime", 1)]) != []
    ensures LinesTotal([("Banana", 1), ("Lime", 1)], Catalog) == 35
  {
    assert ItemSubtotal("Lime", 1, 15) == 15 by { ThreeForTwoExamples(); }
    CatalogPrices();
  }

  /** A banana and a lime. */
  lemma BananaLime()
    ensures Expand([("Banana", 1), ("Lime", 1)]) == ["Banana", "Lime"]
    ensures Price(Expand([("Banana", 1), ("Lime", 1)]), Catalog) == Ok(35)
  {
    BananaLimeLiteral();
    BananaLimeLines();
    PriceOfLines([("Banana", 1), ("Lime", 1)], Catalog);
  }

  /** A melon and a lime, as the test suite writes the basket out. */
  lemma MelonLimeLiteral()
    ensures Expand([("Melon", 1), ("Lime", 1)]) == ["Melon", "Lime"]
  {
  }

  /** A melon and a lime: distinct catalog items whose subtotals add up to 65. */
  lemma MelonLimeLines()
    ensures ItemsOf([("Melon", 1), ("Lime", 1)]) <= Catalog.Keys
    ensures DistinctLines([("Melon", 1), ("Lime", 1)])
    ensures Expand([("Melon", 1), ("Lime", 1)]) != []
    ensures LinesTotal([("Melon", 1), ("Lime", 1)], Catalog) == 65
  {
    assert ItemSubtotal("Melon", 1, 50) == 50 by { BogoExamples(); }
    assert ItemSubtotal("Lime", 1, 15) == 15 by { ThreeForTwoExamples(); }
    CatalogPrices();
  }

  /** A melon and a lime. */
  lemma MelonLime()
    ensures Expand([("Melon", 1), ("Lime", 1)]) == ["Melon", "Lime"]
    ensures Price(Expand([("Melon", 1), ("Lime", 1)]), Catalog) == Ok(65)
  {
    MelonLimeLiteral();
    MelonLimeLines();
    PriceOfLines([("Melon", 1), ("Lime", 1)], Catalog);
  }

  /** One of each item, as the test suite writes the basket out. */
  lemma OneOfEachLiteral()
    ensures Expand([("Apple", 1), ("Banana", 1), ("Melon", 1), ("Lime", 1)])
         == ["Apple", "Banana", "Melon", "Lime"]
  {
  }

  /** One of each item: distinct catalog items whose subtotals add up to 120. */
  lemma OneOfEachLines()
    ensures ItemsOf([("Apple", 1), ("Banana", 1), ("Melon", 1), ("Lime", 1)]) <= Catalog.Keys
    ensures DistinctLines([("Apple", 1), ("Banana", 1), ("Melon", 1), ("Lime", 1)])
    ensures Expand([("Apple", 1), ("Banana", 1), ("Melon", 1), ("Lime", 1)]) != []
    ensures LinesTotal([("Apple", 1), ("Banana", 1), ("Melon", 1), ("Lime", 1)], Catalog) == 120
  {
    assert ItemSubtotal("Melon", 1, 50) == 50 by { BogoExamples(); }
    assert ItemSubtotal("Lime", 1, 15) == 15 by { ThreeForTwoExamples(); }
    CatalogPrices();
  }

  /** One of each of the four items. */
  lemma OneOfEach()
    ensures Expand([("Apple", 1), ("Banana", 1), ("Melon", 1), ("Lime", 1)])
         == ["Apple", "Banana", "Melon", "Lime"]
    ensures Price(Expand([("Apple", 1), ("Banana", 1), ("Melon", 1), ("Lime", 1)]), Catalog) == Ok(120)
  {
    OneOfEachLiteral();
    OneOfEachLines();
    PriceOfLines([("Apple", 1), ("Banana", 1), ("Melon", 1), ("Lime", 1)], Catalog);
  }

  /** Two apples and a banana: distinct catalog items whose subtotals add up to 90. */
  lemma TwoApplesOneBananaLines()
    ensures ItemsOf([("Apple", 2), ("Banana", 1)]) <= Catalog.Keys
    ensures DistinctLines([("Apple", 2), ("Banana", 1)])
    ensures Expand([("Apple", 2), ("Banana", 1)]) != []
    ensures LinesTotal([("Apple", 2), ("Banana", 1)], Catalog) == 90
  {
    CatalogPrices();
  }

  /** Two apples and a banana. */
  lemma TwoApplesOneBanana()
    ensures Price(Expand([("Apple", 2), ("Banana", 1)]), Catalog) == Ok(90)
  {
    TwoApplesOneBananaLines();
    PriceOfLines([("Apple", 2), ("Banana", 1)], Catalog);
  }

  /** Two melons and three limes: distinct catalog items whose subtotals add up to 80. */
  lemma TwoMelonsThreeLimesLines()
    ensures ItemsOf([("Melon", 2), ("Lime", 3)]) <= Catalog.Keys
    ensures DistinctLines([("Melon", 2), ("Lime", 3)])
    ensures Expand([("Melon", 2), ("Lime", 3)]) != []
    ensures LinesTotal([("Melon", 2), ("Lime", 3)], Catalog) == 80
  {
    assert ItemSubtotal("Melon", 2, 50) == 50 by { BogoExamples(); }
    assert ItemSubtotal("Lime", 3, 15) == 30 by { ThreeForTwoExamples(); }
    CatalogPrices();
  }

  /** Two melons at the price of one, three limes at the price of two. */
  lemma TwoMelonsThreeLimes()
    ensures Price(Expand([("Melon", 2), ("Lime", 3)]), Catalog) == Ok(80)
  {
    TwoMelonsThreeLimesLines();
    PriceOfLines([("Melon", 2), ("Lime", 3)], Catalog);
  }

  /** The first two lines of the family basket, written out. */
  lemma FamilyApplesAndBananas()
    ensures Expand([("Apple", 4), ("Banana", 2)])
         == ["Apple", "Apple", "Apple", "Apple", "Banana", "Banana"]
  {
  }

  /** The last two lines of the family basket, written out. */
  lemma FamilyMelonsAndLimes()
    ensures Expand([("Melon", 3), ("Lime", 5)])
         == ["Melon", "Melon", "Melon", "Lime", "Lime", "Lime", "Lime", "Lime"]
  {
  }

  /** The family basket, as the test suite writes it out, line by line. */
  lemma FamilyBasketLiteral()
    ensures Expand([("Apple", 4), ("Banana", 2), ("Melon", 3), ("Lime", 5)])
         == ["Apple", "Apple", "Apple", "Apple", "Banana", "Banana",
            "Melon", "Melon", "Melon", "Lime", "Lime", "Lime", "Lime", "Lime"]
  {
    var front: seq<(string, nat)> := [("Apple", 4), ("Banana", 2)];
    var back: seq<(string, nat)> := [("Melon", 3), ("Lime", 5)];
    assert front + back == [("Apple", 4), ("Banana", 2), ("Melon", 3), ("Lime", 5)];
    ExpandAppend(front, back);
    FamilyApplesAndBananas();
    FamilyMelonsAndLimes();
  }

  /** The family basket: distinct catalog items whose subtotals add up to 340. */
  lemma FamilyBasketLines()
    ensures ItemsOf([("Apple", 4), ("Banana", 2), ("Melon", 3), ("Lime", 5)]) <= Catalog.Keys
    ensures DistinctLines([("Apple", 4), ("Banana", 2), ("Melon", 3), ("Lime", 5)])
    ensures Expand([("Apple", 4), ("Banana", 2), ("Melon", 3), ("Lime", 5)]) != []
    ensures LinesTotal([("Apple", 4), ("Banana", 2), ("Melon", 3), ("Lime", 5)], Catalog) == 340
  {
    assert ItemSubtotal("Melon", 3, 50) == 100 by { BogoExamples(); }
    assert ItemSubtotal("Lime", 5, 15) == 60 by { ThreeForTwoExamples(); }
    CatalogPrices();
  }

  /** Four apples, two bananas, three melons and five limes. */
  lemma FamilyBasket()
    ensures Expand([("Apple", 4), ("Banana", 2), ("Melon", 3), ("Lime", 5)])
         == ["Apple", "Apple", "Apple", "Apple", "Banana", "Banana",
            "Melon", "Melon", "Melon", "Lime", "Lime", "Lime", "Lime", "Lime"]
    ensures Price(Expand([("Apple", 4), ("Banana", 2), ("Melon", 3), ("Lime", 5)]), Catalog) == Ok(340)
  {
    FamilyBasketLiteral();
    FamilyBasketLines();
    PriceOfLines([("Apple", 4), ("Banana", 2), ("Melon", 3), ("Lime", 5)], Catalog);
  }

  /** The fruit salad, as the test suite writes the basket out. */
  lemma FruitSaladLiteral()
    ensures Expand([("Apple", 1), ("Banana", 1), ("Melon", 1), ("Lime", 2)])
         == ["Apple", "Banana", "Melon", "Lime", "Lime"]
  {
  }

  /** The fruit salad: distinct catalog items whose subtotals add up to 135. */
  lemma FruitSaladLines()
    ensures ItemsOf([("Apple", 1), ("Banana", 1), ("Melon", 1), ("Lime", 2)]) <= Catalog.Keys
    ensures DistinctLines([("Apple", 1), ("Banana", 1), ("Melon", 1), ("Lime", 2)])
    ensures Expand([("Apple", 1), ("Banana", 1), ("Melon", 1), ("Lime", 2)]) != []
    ensures LinesTotal([("Apple", 1), ("Banana", 1), ("Melon", 1), ("Lime", 2)], Catalog) == 135
  {
    assert ItemSubtotal("Melon", 1, 50) == 50 by { BogoExamples(); }
    assert ItemSubtotal("Lime", 2, 15) == 30 by { ThreeForTwoExamples(); }
    CatalogPrices();
  }

  /** An apple, a banana, a melon and two limes. */
  lemma FruitSalad()
    ensures Expand([("Apple", 1), ("Banana", 1), ("Melon", 1), ("Lime", 2)])
         == ["Apple", "Banana", "Melon", "Lime", "Lime"]
    ensures Price(Expand([("Apple", 1), ("Banana", 1), ("Melon", 1), ("Lime", 2)]), Catalog) == Ok(135)
  {
    FruitSaladLiteral();
    FruitSaladLines();
    PriceOfLines([("Apple", 1), ("Banana", 1), ("Melon", 1), ("Lime", 2)], Catalog);
  }

  /** Apple, banana, apple holds the same entries as two apples followed by a banana. */
  lemma AppleBananaAppleIsGrouped()
    ensures multiset(["Apple", "Banana", "Apple"]) == multiset(Expand([("Apple", 2), ("Banana", 1)]))
  {
    assert Expand([("Apple", 2), ("Banana", 1)]) == ["Apple", "Apple", "Banana"];
  }

  /** The order of the basket does not matter: apple, banana, apple. */
  lemma AppleBananaApple()
    ensures Price(["Apple", "Banana", "Apple"], Catalog) == Ok(90)
  {
    TwoApplesOneBanana();
    AppleBananaAppleIsGrouped();
    PricePermutationInvariant(["Apple", "Banana", "Apple"], Expand([("Apple", 2), ("Banana", 1)]), Catalog);
  }

  /** The interleaved basket holds the same entries as two melons followed by three limes. */
  lemma InterleavedIsGrouped()
    ensures multiset(["Melon", "Lime", "Lime", "Melon", "Lime"])
         == multiset(Expand([("Melon", 2), ("Lime", 3)]))
  {
    assert Expand([("Melon", 2), ("Lime", 3)]) == ["Melon", "Melon", "Lime", "Lime", "Lime"];
  }

  /** Melons and limes interleaved cost what they cost grouped. */
  lemma InterleavedMelonsAndLimes()
    ensures Price(["Melon", "Lime", "Lime", "Melon", "Lime"], Catalog) == Ok(80)
  {
    TwoMelonsThreeLimes();
    InterleavedIsGrouped();
    PricePermutationInvariant(["Melon", "Lime", "Lime", "Melon", "Lime"],
                              Expand([("Melon", 2), ("Lime", 3)]), Catalog);
  }

  /** An unknown item is rejected with its name in the message. */
  lemma UnknownItemRejected()
    ensures Price(["UnknownItem"], Catalog) == UnknownItems(["UnknownItem"])
    ensures UnknownItems(["UnknownItem"]).Message() == "Unknown items found: UnknownItem"
  {
  }

  /** Known items beside an unknown one are not priced: the whole basket is rejected. */
  lemma MixedBasketRejected()
    ensures Price(["Apple", "UnknownItem", "Banana"], Catalog) == UnknownItems(["UnknownItem"])
    ensures Price(["Apple", "UnknownItem", "Banana"], Catalog).Message() == "Unknown items found: UnknownItem"
  {
    UnknownItemRejected();
  }

  /** Names are matched exactly: other capitalisations of a catalog item are unknown. */
  lemma CaseSensitive()
    ensures Price(["apple"], Catalog) == UnknownItems(["apple"])
    ensures Price(["APPLE"], Catalog) == UnknownItems(["APPLE"])
    ensures Price(["apple"], Catalog).Message() == "Unknown items found: apple"
    ensures Price(["APPLE"], Catalog).Message() == "Unknown items found: APPLE"
  {
  }

  /** Every unknown entry is reported, repetitions included, in basket order. */
  lemma UnknownEntriesKeptInOrder()
    ensures Price(["Kiwi", "Apple", "Kiwi", "Mango"], Catalog) == UnknownItems(["Kiwi", "Kiwi", "Mango"])
  {
  }

  /** The message joins the reported entries with a comma and a space. */
  lemma UnknownEntriesMessage()
    ensures UnknownItems(["Kiwi", "Kiwi", "Mango"]).Message() == "Unknown items found: Kiwi, Kiwi, Mango"
  {
  }
}
