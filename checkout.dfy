/** The basket pricer `calculateTotal`: reject unknown items, tally the basket, and add up
    one strategy subtotal per distinct item. The price table is a parameter `prices`
    (item name to unit price in minor currency units). */
module Checkout {
  import opened Pricing
  import opened SetSums

  /** What pricing a basket produces: a total, or the error listing the unknown entries. */
  datatype Outcome = Ok(total: nat) | UnknownItems(items: seq<string>) {

    /** The text of the error raised for unknown items: the fixed prefix, then the first
        unknown entry; a single entry is the whole rest of the text. */
    function Message(): (r: string)
      requires UnknownItems?
      ensures "Unknown items found: " <= r
      ensures items != [] ==> "Unknown items found: " + items[0] <= r
      ensures |items| == 1 ==> r == "Unknown items found: " + items[0]
    {
      "Unknown items found: " + Join(items, ", ")
    }
  }

  /** The lengths of `parts`, added up. */
  function LengthSum(parts: seq<string>): nat
  {
    if parts == [] then 0 else |parts[0]| + LengthSum(parts[1..])
  }

  /** `parts` joined with `sep` between neighbours, as JavaScript's `Array.join` does: the
      text starts with the first part and holds every part plus one separator per gap. */
  function Join(parts: seq<string>, sep: string): (r: string)
    ensures parts != [] ==> parts[0] <= r
    ensures |r| == LengthSum(parts) + (if parts == [] then 0 else (|parts| - 1) * |sep|)
  {
    if |parts| == 0 then ""
    else if |parts| == 1 then parts[0]
    else parts[0] + sep + Join(parts[1..], sep)
  }

  /** Joining two non-empty lists is joining each and putting one separator between. */
  lemma {:induction false} JoinAppend(xs: seq<string>, ys: seq<string>, sep: string)
    requires |xs| > 0 && |ys| > 0
    ensures Join(xs + ys, sep) == Join(xs, sep) + sep + Join(ys, sep)
  {
    if |xs| == 1 {
      assert (xs + ys)[1..] == ys;
    } else {
      assert (xs + ys)[1..] == xs[1..] + ys;
      JoinAppend(xs[1..], ys, sep);
    }
  }

  /** The basket entries missing from the price table, in basket order and with every
      repetition kept (the source filters the basket, it does not deduplicate). */
  function UnknownIn(basket: seq<string>, prices: map<string, nat>): (r: seq<string>)
    ensures |r| <= |basket|
    ensures forall i :: 0 <= i < |r| ==> r[i] in basket && r[i] !in prices
  {
    if basket == [] then []
    else if basket[0] in prices then UnknownIn(basket[1..], prices)
    else [basket[0]] + UnknownIn(basket[1..], prices)
  }

  /** The unknown entries are exactly the basket's names missing from the price table,
      so there are none exactly when every entry is known. */
  lemma {:induction false} UnknownInMembers(basket: seq<string>, prices: map<string, nat>)
    ensures forall x :: x in UnknownIn(basket, prices) <==> x in basket && x !in prices
    ensures UnknownIn(basket, prices) == [] <==> forall x :: x in basket ==> x in prices
  {
    if basket != [] {
      assert basket == [basket[0]] + basket[1..];
      UnknownInMembers(basket[1..], prices);
    }
  }

  /** Every unknown entry is kept as often as it occurs; known entries are dropped. */
  lemma {:induction false} UnknownInCounts(basket: seq<string>, prices: map<string, nat>)
    ensures forall x :: multiset(UnknownIn(basket, prices))[x] ==
                        if x in prices then 0 else multiset(basket)[x]
  {
    if basket != [] {
      assert basket == [basket[0]] + basket[1..];
      UnknownInCounts(basket[1..], prices);
    }
  }

  /** Filtering keeps the basket's order: the unknown entries of a concatenation are those
      of the first part followed by those of the second. */
  lemma {:induction false} UnknownInAppend(a: seq<string>, b: seq<string>, prices: map<string, nat>)
    ensures UnknownIn(a + b, prices) == UnknownIn(a, prices) + UnknownIn(b, prices)
  {
    if a == [] {
      assert a + b == b;
    } else {
      var ab := a + b;
      assert ab[0] == a[0] && ab[1..] == a[1..] + b;
      UnknownInAppend(a[1..], b, prices);
      var rest := UnknownIn(a[1..], prices) + UnknownIn(b, prices);
      if a[0] in prices {
        calc {
          UnknownIn(ab, prices);
          UnknownIn(ab[1..], prices);
          rest;
        }
      } else {
        calc {
          UnknownIn(ab, prices);
          [a[0]] + UnknownIn(ab[1..], prices);
          [a[0]] + rest;
          ([a[0]] + UnknownIn(a[1..], prices)) + UnknownIn(b, prices);
        }
      }
    }
  }

  /** The tally of a basket, built entry by entry as the source's `reduce` builds its
      record: each distinct item maps to the number of times it occurs. */
  function Tally(basket: seq<string>): map<string, nat>
  {
    if basket == [] then map[]
    else
      var acc := Tally(basket[..|basket| - 1]);
      var item := basket[|basket| - 1];
      acc[item := (if item in acc then acc[item] else 0) + 1]
  }

  /** After the tally, the distinct items of the basket are exactly its keys, each
      mapped to its number of occurrences. */
  lemma {:induction false} TallyCounts(basket: seq<string>)
    ensures forall x :: x in Tally(basket) <==> x in basket
    ensures forall x :: x in Tally(basket) ==> Tally(basket)[x] == multiset(basket)[x]
  {
    if basket != [] {
      var front, item := basket[..|basket| - 1], basket[|basket| - 1];
      assert basket == front + [item];
      TallyCounts(front);
    }
  }

  /** The weight of each item in a tally: its count. */
  function CountOf(counts: map<string, nat>): string -> nat
  {
    item => if item in counts then counts[item] else 0
  }

  /** The weight of each item in a tally: its subtotal under its rule and unit price. */
  function SubtotalOf(counts: map<string, nat>, prices: map<string, nat>): string -> nat
  {
    item => if item in counts && item in prices then ItemSubtotal(item, counts[item], prices[item]) else 0
  }

  /** The sum, over the distinct items of a basket, of their subtotals. */
  ghost function TotalOf(basket: seq<string>, prices: map<string, nat>): (r: nat)
    ensures basket == [] ==> r == 0
    ensures |basket| == 1 && basket[0] in prices ==> r == ItemSubtotal(basket[0], 1, prices[basket[0]])
  {
    var counts := Tally(basket);
    if |basket| == 1 then
      TallyCounts(basket);
      assert counts.Keys == {basket[0]};
      SetSumSingleton(basket[0], SubtotalOf(counts, prices));
      SetSum(counts.Keys, SubtotalOf(counts, prices))
    else
      SetSum(counts.Keys, SubtotalOf(counts, prices))
  }

  /** What `calculateTotal` produces: 0 for an empty basket, the unknown entries when there
      are any, and otherwise the sum of the per-item subtotals. */
  ghost function Price(basket: seq<string>, prices: map<string, nat>): (r: Outcome)
    ensures r.UnknownItems? <==> exists x :: x in basket && x !in prices
    ensures r.UnknownItems? ==> r.items != [] && r.items == UnknownIn(basket, prices)
  {
    UnknownInMembers(basket, prices);
    if |basket| == 0 then Ok(0)
    else
      var unknown := UnknownIn(basket, prices);
      if |unknown| > 0 then assert unknown[0] in unknown; UnknownItems(unknown)
      else Ok(TotalOf(basket, prices))
  }

  /** The tally loop: one pass over the basket, incrementing the entry's count. */
  method CountItems(basket: seq<string>) returns (counts: map<string, nat>)
    ensures forall x :: x in counts <==> x in basket
    ensures forall x :: x in counts ==> counts[x] == multiset(basket)[x]
    ensures counts == Tally(basket)
  {
    TallyCounts(basket);
    counts := map[];
    var i := 0;
    while i < |basket|
      invariant 0 <= i <= |basket|
      invariant counts == Tally(basket[..i])
    {
      var item := basket[i];
      assert basket[..i + 1][..i] == basket[..i];
      counts := counts[item := (if item in counts then counts[item] else 0) + 1];
      i := i + 1;
    }
    assert basket[..i] == basket;
  }

  /** The summing loop: every distinct item adds its rule's subtotal, or the flat price
      when it has no rule. Items are taken in no particular order. */
  method SumSubtotals(counts: map<string, nat>, prices: map<string, nat>) returns (total: nat)
    requires counts.Keys <= prices.Keys
    ensures total == SetSum(counts.Keys, SubtotalOf(counts, prices))
  {
    ghost var f := SubtotalOf(counts, prices);
    total := 0;
    var remaining := counts.Keys;
    while remaining != {}
      invariant remaining <= counts.Keys
      invariant total + SetSum(remaining, f) == SetSum(counts.Keys, f)
      decreases remaining
    {
      var item :| item in remaining;
      SetSumRemove(remaining, f, item);
      var quantity := counts[item];
      var unitPrice := prices[item];
      if item in PricingRules {
        total := total + PricingRules[item].Calculate(quantity, unitPrice);
      } else {
        total := total + quantity * unitPrice;
      }
      remaining := remaining - {item};
    }
  }

  /** `calculateTotal`: the empty basket costs nothing, a basket with an unknown entry is
      rejected before anything is priced, and otherwise the subtotals are summed. */
  method CalculateTotal(basket: seq<string>, prices: map<string, nat>) returns (r: Outcome)
    ensures r == Price(basket, prices)
  {
    if |basket| == 0 {
      return Ok(0);
    }
    UnknownInMembers(basket, prices);
    var unknownItems := UnknownIn(basket, prices);
    if |unknownItems| > 0 {
      return UnknownItems(unknownItems);
    }
    var itemCount := CountItems(basket);
    var total := SumSubtotals(itemCount, prices);
    return Ok(total);
  }

  /** Baskets with the same items in any order have the same tally. */
  lemma TallyOfPermutation(b1: seq<string>, b2: seq<string>)
    requires multiset(b1) == multiset(b2)
    ensures Tally(b1) == Tally(b2)
  {
    var t1, t2 := Tally(b1), Tally(b2);
    TallyCounts(b1);
    TallyCounts(b2);
    forall x ensures x in t1 <==> x in t2 {
      assert x in b1 <==> x in multiset(b1);
      assert x in b2 <==> x in multiset(b2);
    }
    assert t1.Keys == t2.Keys;
  }

  /** The counts of a tally add up to the length of the basket. */
  lemma {:induction false} TallySumIsLength(basket: seq<string>)
    ensures SetSum(Tally(basket).Keys, CountOf(Tally(basket))) == |basket|
  {
    if basket != [] {
      var front, item := basket[..|basket| - 1], basket[|basket| - 1];
      var c, c' := Tally(front), Tally(basket);
      var f, f' := CountOf(c), CountOf(c');
      TallySumIsLength(front);
      assert c'.Keys == c.Keys + {item};
      SetSumInsert(c.Keys, f, f', item);
      if item in c {
        SetSumRemove(c.Keys, f, item);
      } else {
        assert c.Keys - {item} == c.Keys;
      }
    }
  }

  /** Pricing depends only on how many of each item the basket holds: reordering the basket
      gives the same total, or an error listing the same unknown entries. */
  lemma PricePermutationInvariant(b1: seq<string>, b2: seq<string>, prices: map<string, nat>)
    requires multiset(b1) == multiset(b2)
    ensures Price(b1, prices).Ok? <==> Price(b2, prices).Ok?
    ensures Price(b1, prices).Ok? ==> Price(b1, prices) == Price(b2, prices)
    ensures Price(b1, prices).UnknownItems? ==>
              multiset(Price(b1, prices).items) == multiset(Price(b2, prices).items)
  {
    assert |b1| == |multiset(b1)| == |multiset(b2)| == |b2|;
    UnknownInPermutation(b1, b2, prices);
    var u1, u2 := UnknownIn(b1, prices), UnknownIn(b2, prices);
    assert |u1| == |multiset(u1)| == |multiset(u2)| == |u2|;
    if |b1| > 0 && |u1| == 0 {
      TallyOfPermutation(b1, b2);
    }
  }

  /** Reordering the basket reorders its unknown entries and nothing more. */
  lemma UnknownInPermutation(b1: seq<string>, b2: seq<string>, prices: map<string, nat>)
    requires multiset(b1) == multiset(b2)
    ensures multiset(UnknownIn(b1, prices)) == multiset(UnknownIn(b2, prices))
  {
    UnknownInCounts(b1, prices);
    UnknownInCounts(b2, prices);
  }

  /** The empty basket costs nothing, whatever the price table holds. */
  lemma EmptyBasketIsFree(prices: map<string, nat>)
    ensures Price([], prices) == Ok(0)
  {
  }

  /** A basket of known items is priced at its total (the empty basket's total is 0). */
  lemma KnownBasketPrice(basket: seq<string>, prices: map<string, nat>)
    requires forall x :: x in basket ==> x in prices
    ensures Price(basket, prices) == Ok(TotalOf(basket, prices))
  {
  }

  /** Additivity across distinct items: when two baskets share no item, the total of both
      together is the sum of their totals. */
  lemma TotalOfDisjoint(a: seq<string>, b: seq<string>, prices: map<string, nat>)
    requires forall x :: x in a ==> x !in b
    ensures TotalOf(a + b, prices) == TotalOf(a, prices) + TotalOf(b, prices)
  {
    var ca, cb, cab := Tally(a), Tally(b), Tally(a + b);
    TallyCounts(a);
    TallyCounts(b);
    TallyCounts(a + b);
    var fa, fb, fab := SubtotalOf(ca, prices), SubtotalOf(cb, prices), SubtotalOf(cab, prices);
    assert multiset(a + b) == multiset(a) + multiset(b);
    assert cab.Keys == ca.Keys + cb.Keys;
    forall x | x in ca.Keys ensures fab(x) == fa(x) {
      assert multiset(b)[x] == 0;
    }
    forall x | x in cb.Keys ensures fab(x) == fb(x) {
      assert multiset(a)[x] == 0;
    }
    SetSumUnion(ca.Keys, cb.Keys, fab);
    SetSumExt(ca.Keys, fab, fa);
    SetSumExt(cb.Keys, fab, fb);
  }

  /** Adding one known entry to a basket never lowers its total and raises it by at most
      that entry's unit price. */
lemma TotalOfSnoc(basket: seq<string>, item: string, prices: map<string, nat>)
    requires item in prices
    ensures TotalOf(basket, prices) <= TotalOf(basket + [item], prices)
    ensures TotalOf(basket + [item], prices) <= TotalOf(basket, prices) + prices[item]
  {
    var b' := basket + [item];
    var c := Tally(basket);
    assert Tally(b') == c[item := (if item in c then c[item] else 0) + 1] by {
      assert b'[..|b'| - 1] == basket;
    }
    SubtotalsAfterIncrement(c, item, prices);
  }

  /** Counting one more of a priced item raises the sum of subtotals by at most its price. */
  lemma SubtotalsAfterIncrement(c: map<string, nat>, item: string, prices: map<string, nat>)
    requires item in prices
    ensures var c' := c[item := (if item in c then c[item] else 0) + 1];
      SetSum(c.Keys, SubtotalOf(c, prices)) <= SetSum(c'.Keys, SubtotalOf(c', prices)) <=
      SetSum(c.Keys, SubtotalOf(c, prices)) + prices[item]
  {
    var n := if item in c then c[item] else 0;
    var c' := c[item := n + 1];
    var f, f' := SubtotalOf(c, prices), SubtotalOf(c', prices);
    assert c'.Keys == c.Keys + {item};
    SetSumInsert(c.Keys, f, f', item);
    assert f'(item) == ItemSubtotal(item, n + 1, prices[item]);
    ItemSubtotalStep(item, n, prices[item]);
    if item in c {
      SetSumRemove(c.Keys, f, item);
    } else {
      assert c.Keys - {item} == c.Keys;
    }
  }

  /** The undiscounted price of a basket: every entry at its unit price. */
  function FlatSum(basket: seq<string>, prices: map<string, nat>): nat
    requires forall x :: x in basket ==> x in prices
  {
    if basket == [] then 0
    else FlatSum(basket[..|basket| - 1], prices) + prices[basket[|basket| - 1]]
  }

  /** The discounts never make a basket dearer than its undiscounted price. */
  lemma {:induction false} TotalAtMostFlat(basket: seq<string>, prices: map<string, nat>)
    requires forall x :: x in basket ==> x in prices
    ensures TotalOf(basket, prices) <= FlatSum(basket, prices)
  {
    if basket != [] {
      var front, item := basket[..|basket| - 1], basket[|basket| - 1];
      assert basket == front + [item];
      TotalAtMostFlat(front, prices);
      TotalOfSnoc(front, item, prices);
    }
  }

  /** On success the total is never above the undiscounted price of the basket. */
  lemma PriceAtMostFlat(basket: seq<string>, prices: map<string, nat>)
    requires forall x :: x in basket ==> x in prices
    ensures Price(basket, prices).Ok?
    ensures Price(basket, prices).total <= FlatSum(basket, prices)
  {
    if basket != [] {
      TotalAtMostFlat(basket, prices);
    }
  }

  /** A known item added to a basket of known items never lowers the price. */
  lemma PriceMonotone(basket: seq<string>, item: string, prices: map<string, nat>)
    requires forall x :: x in basket ==> x in prices
    requires item in prices
    ensures Price(basket, prices).Ok? && Price(basket + [item], prices).Ok?
    ensures Price(basket, prices).total <= Price(basket + [item], prices).total
  {
    KnownBasketPrice(basket + [item], prices);
    if basket != [] {
      KnownBasketPrice(basket, prices);
      TotalOfSnoc(basket, item, prices);
    }
  }
}
