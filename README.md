# Shopping-basket pricer

A model of the basket pricer `calculateTotal` in `src/index.ts`. A basket is a list of
item names. A price table maps a name to its unit price in minor currency units. The
pricer works in four steps:

1. An empty basket costs 0.
2. A basket holding any name missing from the price table is rejected. The error
   message is `"Unknown items found: "` followed by those entries joined with `", "`.
3. The basket is tallied into a count per distinct item.
4. Each distinct item adds the subtotal of its pricing rule.

There are three rules:

- regular pricing: the flat price;
- buy one, get one free: `ceil(q/2)` units charged;
- three for the price of two: `2*floor(q/3) + q%3` units charged.

The rule table gives Apple and Banana regular pricing, Melon buy-one-get-one-free and
Lime three-for-two. An item with no rule is charged the flat price.

The project has four modules:

- `Pricing` (`pricing.dfy`): the strategies as a datatype with pure functions, and the
  rule table as a constant map.
- `SetSums` (`set_sum.dfy`): a sum of per-key weights over a finite set of keys, taken
  in no particular order.
- `Checkout` (`checkout.dfy`): the pricer itself.
  - `Price` is the specification. It gives 0, the unknown entries, or the sum of the
    per-item subtotals over the basket's tally.
  - `CountItems` is the tally loop and `SumSubtotals` the summing loop. Both are
    imperative methods proved against that specification.
  - `CalculateTotal` composes the steps. It is proved equal to `Price` on every input.
  - The remaining lemmas relate `Price` to its parts: tally counts, permutation
    invariance, additivity, monotonicity and the flat-price bound.
- `CheckoutExamples` (`checkout_examples.dfy`): the values the test suite pins, on the
  price table `Apple 35, Banana 20, Melon 50, Lime 15`.
  - A basket of `n` copies of one item is `Repeat(item, n)`, the suite's
    `Array(n).fill(item)`.
  - A basket written as quantity lines is `Expand(lines)`: each line's copies, line after
    line. For example, `Expand([("Apple", 1), ("Banana", 1)])` is `["Apple", "Banana"]`.

The thrown error is modelled as the `UnknownItems` case of the `Outcome` result type.
Quantities and prices are natural numbers. JavaScript's `Math.ceil(q / 2)` becomes
`(q + 1) / 2` and `Math.floor(q / 3)` becomes `q / 3`. Both agree with the source for
every non-negative integer quantity.

The error keeps every unknown entry, repetitions included, in basket order: the code
(`src/index.ts:53`) filters the basket and does not deduplicate, so `["Kiwi", "Apple",
"Kiwi", "Mango"]` is reported as `Kiwi, Kiwi, Mango` (`UnknownIn`,
`UnknownEntriesKeptInOrder`).

## Model

| member | source | states |
|---|---|---|
| Pricing.Strategy.PaidUnits | src/index.ts:9-26 | every strategy charges at most the quantity in units, and nothing for quantity 0 |
| Pricing.Strategy.Calculate | src/index.ts:4-27 | a strategy's subtotal never exceeds `quantity * unitPrice` and is 0 for quantity 0 |
| Pricing.BogoPaidUnits | src/index.ts:15-18 | buy-one-get-one-free charges r units with `q <= 2r <= q+1`, i.e. exactly `ceil(q/2)` |
| Pricing.ThreeForTwoPaidUnits | src/index.ts:22-26 | three-for-two charges the quantity less one unit per complete group of three |
| Pricing.RuleTable | src/index.ts:30-35 | the rule table holds exactly Apple and Banana at regular pricing, Melon at buy-one-get-one-free and Lime at three-for-two |
| Pricing.ItemSubtotal | src/index.ts:67-75 | the subtotal of an item, by its rule or by the flat fallback, is at most the flat price and 0 for quantity 0 |
| Pricing.FallbackIsRegular | src/index.ts:70-75 | an item with no rule is priced exactly as regular pricing prices it, `quantity * unitPrice` |
| Pricing.RegularIsFlat | src/index.ts:9-11 | regular pricing is exactly `quantity * unitPrice` |
| Pricing.NoDiscountBelowGroup | src/index.ts:14-26 | buy-one-get-one-free at quantity up to 1, and three-for-two up to 2, equal the flat price |
| Pricing.BogoFloor | src/index.ts:15-18 | buy-one-get-one-free charges at least half the flat price |
| Pricing.ThreeForTwoFloor | src/index.ts:22-26 | three-for-two charges at least two thirds of the flat price |
| Pricing.PaidUnitsStep | src/index.ts:9-26 | one more unit adds zero or one charged unit, for every strategy |
| Pricing.CalculateStep | src/index.ts:9-26 | one more unit never lowers a subtotal and raises it by at most the unit price |
| Pricing.CalculateMonotone | src/index.ts:9-26 | every strategy is non-decreasing in the quantity |
| Pricing.ItemSubtotalStep | src/index.ts:67-75 | the rule-or-fallback subtotal grows by between 0 and one unit price per added unit |
| Pricing.BogoExamples | src/index.ts:15-18 | at unit price 50, buy-one-get-one-free gives 1→50, 2→50, 3→100, 10→250 |
| Pricing.ThreeForTwoExamples | src/index.ts:22-26 | at unit price 15, three-for-two gives 1→15, 2→30, 3→30, 4→45, 5→60, 6→60, 10→105, 15→150 |
| SetSums.SetSumRemove | src/index.ts:65-76 | the sum over the tally's keys can start from any key, so the loop's visiting order does not matter |
| SetSums.SetSumInsert | src/index.ts:59-62 | adding a key, or changing only its weight, changes the sum by that key's term alone |
| SetSums.SetSumSingleton | src/index.ts:65-76 | a single key sums to its own weight |
| SetSums.SetSumExt | src/index.ts:65-76 | the sum depends only on the weights of the keys in the set |
| SetSums.SetSumUnion | src/index.ts:65-76 | the sum over two disjoint key sets is the sum of their sums |
| Checkout.Outcome.Message | src/index.ts:55 | the error text starts with `"Unknown items found: "` followed by the first unknown entry, and is exactly that when there is one unknown entry |
| Checkout.Join | src/index.ts:55 | the joined text starts with the first part and its length is the parts' lengths plus one separator per gap between neighbours |
| Checkout.JoinAppend | src/index.ts:55 | joining two non-empty lists is joining each with one separator between them |
| Checkout.UnknownIn | src/index.ts:53 | the filter returns at most as many entries as the basket holds, and each is a basket entry missing from the price table |
| Checkout.UnknownInMembers | src/index.ts:53 | an entry is reported exactly when it is in the basket and missing from the price table; none is reported exactly when every entry is known |
| Checkout.UnknownInCounts | src/index.ts:53 | each unknown name is reported as many times as it occurs in the basket, and known names never are |
| Checkout.UnknownInAppend | src/index.ts:53 | the filter keeps basket order: the unknown entries of `a + b` are those of `a` followed by those of `b` |
| Checkout.TallyCounts | src/index.ts:59-62 | the tally's keys are exactly the basket's items, each mapped to its number of occurrences |
| Checkout.TotalOf | src/index.ts:59-76 | the sum of the per-item subtotals over the basket's tally is 0 for the empty basket and the item's own subtotal for a one-entry basket |
| Checkout.Price | src/index.ts:43-79 | the result is an error exactly when some entry is unknown; the error lists the unknown entries in basket order and is never empty |
| Checkout.CountItems | src/index.ts:59-62 | the tally loop maps each item of the basket, and nothing else, to its occurrence count |
| Checkout.SumSubtotals | src/index.ts:65-76 | the summing loop returns the sum over the tally's items of their rule-or-fallback subtotals, in any visiting order |
| Checkout.CalculateTotal | src/index.ts:43-79 | the pricer returns 0 for the empty basket, the unknown entries when there are any, and otherwise the sum of subtotals, i.e. `Price` on every input |
| Checkout.EmptyBasketIsFree | src/index.ts:48-50 | the empty basket costs 0 whatever the price table |
| Checkout.TallyOfPermutation | src/index.ts:59-62 | baskets with the same entries in any order have the same tally |
| Checkout.TallySumIsLength | src/index.ts:59-62 | the counts of the tally add up to the length of the basket |
| Checkout.PricePermutationInvariant | src/index.ts:43-79 | reordering a basket keeps success or failure, keeps the total, and reports the same unknown entries up to order |
| Checkout.UnknownInPermutation | src/index.ts:53 | reordering a basket reorders its unknown entries and changes nothing else about them |
| Checkout.KnownBasketPrice | src/index.ts:52-78 | a basket of known items succeeds with the sum of its per-item subtotals, 0 for the empty basket |
| Checkout.TotalOfDisjoint | src/index.ts:65-76 | for baskets sharing no item, the total of both together is the sum of their totals |
| Checkout.TotalOfSnoc | src/index.ts:59-76 | adding one known entry never lowers the total and raises it by at most that entry's unit price |
| Checkout.SubtotalsAfterIncrement | src/index.ts:59-76 | counting one more of a priced item in a tally raises the sum of subtotals by between 0 and its unit price |
| Checkout.TotalAtMostFlat | src/index.ts:65-76 | the total is never above the undiscounted price, each entry at its unit price |
| Checkout.PriceAtMostFlat | src/index.ts:43-79 | a basket of known items succeeds with a total at most its undiscounted price |
| Checkout.PriceMonotone | src/index.ts:43-79 | adding a known item to a basket of known items never lowers the price |
| CheckoutExamples.RepeatCopies | src/index.test.ts:78 | `Array(n).fill(item)` has length n and holds n copies of `item` and nothing else |
| CheckoutExamples.TotalOfRepeat | src/index.ts:59-76 | copies of one item cost that item's subtotal at their count |
| CheckoutExamples.ExpandItems | src/index.test.ts:55-123 | a basket written as quantity lines holds only the items the lines name, so a test basket of catalog items passes the unknown-item check |
| CheckoutExamples.ExpandAppend | src/index.test.ts:112-117 | a basket written as concatenated quantity lines is the baskets of the two parts one after the other |
| CheckoutExamples.TotalOfLines | src/index.ts:65-76 | a basket of distinct known items written as quantity lines totals the sum of the lines' subtotals |
| CheckoutExamples.PriceOfLines | src/index.ts:43-79 | such a basket succeeds with the sum of the lines' subtotals |
| CheckoutExamples.PriceOfOneLine | src/index.ts:43-79 | a basket of copies of one known item succeeds with that item's subtotal |
| CheckoutExamples.CatalogPrices | src/index.test.ts:11-25 | the test catalog holds exactly Apple 35, Banana 20, Melon 50 and Lime 15 |
| CheckoutExamples.LiteralApples | src/index.test.ts:12-31 | `Repeat("Apple", n)` for n = 1..3 is the written-out basket of n apples |
| CheckoutExamples.LiteralBananas | src/index.test.ts:16-36 | `Repeat("Banana", n)` for n = 1..3 is the written-out basket of n bananas |
| CheckoutExamples.LiteralMelons | src/index.test.ts:20-41 | `Repeat("Melon", n)` for n = 1..3 is the written-out basket of n melons |
| CheckoutExamples.LiteralLimes | src/index.test.ts:24-49 | `Repeat("Lime", n)` for n = 1..6 is the written-out basket of n limes |
| CheckoutExamples.OneApple | src/index.test.ts:12 | `['Apple']` costs 35 |
| CheckoutExamples.OneBanana | src/index.test.ts:16 | `['Banana']` costs 20 |
| CheckoutExamples.OneMelon | src/index.test.ts:20 | `['Melon']` costs 50 |
| CheckoutExamples.OneLime | src/index.test.ts:24 | `['Lime']` costs 15 |
| CheckoutExamples.TwoApples | src/index.test.ts:30 | `['Apple', 'Apple']` costs 70 |
| CheckoutExamples.ThreeApples | src/index.test.ts:31 | `['Apple', 'Apple', 'Apple']` costs 105 |
| CheckoutExamples.TwoBananas | src/index.test.ts:35 | `['Banana', 'Banana']` costs 40 |
| CheckoutExamples.ThreeBananas | src/index.test.ts:36 | `['Banana', 'Banana', 'Banana']` costs 60 |
| CheckoutExamples.TwoMelons | src/index.test.ts:40 | `['Melon', 'Melon']` costs 50 |
| CheckoutExamples.ThreeMelons | src/index.test.ts:41 | `['Melon', 'Melon', 'Melon']` costs 100 |
| CheckoutExamples.TwoLimes | src/index.test.ts:45 | `['Lime', 'Lime']` costs 30 |
| CheckoutExamples.ThreeLimes | src/index.test.ts:46 | `['Lime', 'Lime', 'Lime']` costs 30 |
| CheckoutExamples.FourLimes | src/index.test.ts:47 | `['Lime', 'Lime', 'Lime', 'Lime']` costs 45 |
| CheckoutExamples.FiveLimes | src/index.test.ts:48 | `['Lime', 'Lime', 'Lime', 'Lime', 'Lime']` costs 60 |
| CheckoutExamples.SixLimes | src/index.test.ts:49 | `['Lime', 'Lime', 'Lime', 'Lime', 'Lime', 'Lime']` costs 60 |
| CheckoutExamples.AppleBananaLiteral | src/index.test.ts:55 | the quantity lines expand to the written-out basket `['Apple', 'Banana']` |
| CheckoutExamples.AppleBananaLines | src/index.test.ts:55 | the lines Apple×1, Banana×1 name distinct catalog items with subtotals adding up to 55 |
| CheckoutExamples.AppleBanana | src/index.test.ts:55 | the basket `['Apple', 'Banana']`, written as quantity lines, costs 55 |
| CheckoutExamples.TwoApplesOneBananaLines | src/index.test.ts:56 | the lines Apple×2, Banana×1 name distinct catalog items with subtotals adding up to 90 |
| CheckoutExamples.TwoApplesOneBanana | src/index.test.ts:56 | two apples and a banana cost 90 |
| CheckoutExamples.AppleBananaAppleIsGrouped | src/index.test.ts:56 | `['Apple', 'Banana', 'Apple']` holds the same entries as two apples followed by a banana |
| CheckoutExamples.AppleBananaApple | src/index.test.ts:56 | `['Apple', 'Banana', 'Apple']` costs 90 |
| CheckoutExamples.AppleMelonLiteral | src/index.test.ts:60 | the quantity lines expand to the written-out basket `['Apple', 'Melon']` |
| CheckoutExamples.AppleMelonLines | src/index.test.ts:60 | the lines Apple×1, Melon×1 name distinct catalog items with subtotals adding up to 85 |
| CheckoutExamples.AppleMelon | src/index.test.ts:60 | the basket `['Apple', 'Melon']`, written as quantity lines, costs 85 |
| CheckoutExamples.BananaLimeLiteral | src/index.test.ts:61 | the quantity lines expand to the written-out basket `['Banana', 'Lime']` |
| CheckoutExamples.BananaLimeLines | src/index.test.ts:61 | the lines Banana×1, Lime×1 name distinct catalog items with subtotals adding up to 35 |
| CheckoutExamples.BananaLime | src/index.test.ts:61 | the basket `['Banana', 'Lime']`, written as quantity lines, costs 35 |
| CheckoutExamples.MelonLimeLiteral | src/index.test.ts:62 | the quantity lines expand to the written-out basket `['Melon', 'Lime']` |
| CheckoutExamples.MelonLimeLines | src/index.test.ts:62 | the lines Melon×1, Lime×1 name distinct catalog items with subtotals adding up to 65 |
| CheckoutExamples.MelonLime | src/index.test.ts:62 | the basket `['Melon', 'Lime']`, written as quantity lines, costs 65 |
| CheckoutExamples.OneOfEachLiteral | src/index.test.ts:66 | the quantity lines expand to the written-out basket `['Apple', 'Banana', 'Melon', 'Lime']` |
| CheckoutExamples.OneOfEachLines | src/index.test.ts:66-67 | one line of each item names distinct catalog items with subtotals adding up to 120 |
| CheckoutExamples.OneOfEach | src/index.test.ts:66-67 | the basket `['Apple', 'Banana', 'Melon', 'Lime']`, written as quantity lines, costs 120 |
| CheckoutExamples.TwoMelonsThreeLimesLines | src/index.test.ts:71-72 | the lines Melon×2, Lime×3 name distinct catalog items with subtotals adding up to 80 |
| CheckoutExamples.TwoMelonsThreeLimes | src/index.test.ts:71-72 | two melons and three limes cost 80 |
| CheckoutExamples.InterleavedIsGrouped | src/index.test.ts:71 | the interleaved example basket holds the same entries as two melons followed by three limes |
| CheckoutExamples.InterleavedMelonsAndLimes | src/index.test.ts:71-72 | `["Melon", "Lime", "Lime", "Melon", "Lime"]` costs 80 |
| CheckoutExamples.TenApples | src/index.test.ts:78-79 | ten apples cost 350 |
| CheckoutExamples.TenMelons | src/index.test.ts:83-84 | ten melons cost 250 |
| CheckoutExamples.TenLimes | src/index.test.ts:88-89 | ten limes cost 105 |
| CheckoutExamples.UnknownItemRejected | src/index.test.ts:95 | `['UnknownItem']` is rejected with the message "Unknown items found: UnknownItem" |
| CheckoutExamples.MixedBasketRejected | src/index.test.ts:99-100 | `['Apple', 'UnknownItem', 'Banana']` is rejected, reporting only the unknown entry, with the message "Unknown items found: UnknownItem" |
| CheckoutExamples.CaseSensitive | src/index.test.ts:105-106 | `'apple'` and `'APPLE'` are unknown names, rejected with the messages "Unknown items found: apple" and "Unknown items found: APPLE" |
| CheckoutExamples.FamilyApplesAndBananas | src/index.test.ts:113-114 | the lines Apple×4, Banana×2 expand to four apples followed by two bananas |
| CheckoutExamples.FamilyMelonsAndLimes | src/index.test.ts:115-116 | the lines Melon×3, Lime×5 expand to three melons followed by five limes |
| CheckoutExamples.FamilyBasketLiteral | src/index.test.ts:112-117 | the quantity lines expand to the written-out family basket of fourteen entries |
| CheckoutExamples.FamilyBasketLines | src/index.test.ts:112-118 | the lines Apple×4, Banana×2, Melon×3, Lime×5 name distinct catalog items with subtotals adding up to 340 |
| CheckoutExamples.FamilyBasket | src/index.test.ts:112-118 | the written-out family basket of four apples, two bananas, three melons and five limes costs 340 |
| CheckoutExamples.FruitSaladLiteral | src/index.test.ts:122 | the quantity lines expand to the written-out basket `['Apple', 'Banana', 'Melon', 'Lime', 'Lime']` |
| CheckoutExamples.FruitSaladLines | src/index.test.ts:122-123 | the lines Apple×1, Banana×1, Melon×1, Lime×2 name distinct catalog items with subtotals adding up to 135 |
| CheckoutExamples.FruitSalad | src/index.test.ts:122-123 | the basket `['Apple', 'Banana', 'Melon', 'Lime', 'Lime']`, written as quantity lines, costs 135 |
| CheckoutExamples.FifteenLimes | src/index.test.ts:127-128 | fifteen limes cost 150 |
| CheckoutExamples.UnknownEntriesKeptInOrder | src/index.ts:53-55 | unknown entries are reported in basket order with repetitions kept |
| CheckoutExamples.UnknownEntriesMessage | src/index.ts:55 | the message joins the reported entries with a comma and a space |

## Left out

- The price table module `./pricing` is not part of this model. The price table is a
  parameter `prices: map<string, nat>` of every checkout member. The examples use the
  values the test suite pins.
- The `!basket || !Array.isArray(basket)` guard (`src/index.ts:44-46`) is left out. A
  `seq<string>` can be neither null nor a non-array.
- The example usage at `src/index.ts:81-90` is left out. It is console I/O and rupee
  formatting with `toFixed`.
- JavaScript `number` semantics are left out: floating point, NaN, negative or fractional
  prices. Quantities and unit prices are natural numbers, and the division in
  `Math.ceil` and `Math.floor` is integer division.
- The `in` operator's prototype-chain lookups (for example `"toString" in prices`) are
  left out. A name is known exactly when it is a key of the map. In the source, a basket
  entry such as `"toString"` or `"constructor"` passes the unknown-item check at
  `src/index.ts:53`. The tally at `:60` then builds a string count for it, and
  `pricingStrategy.calculate` at `:71` throws a `TypeError`. The model instead reports
  that entry as an unknown item.
- `Object.entries` key order is left out. `SumSubtotals` visits the tally's items in an
  unspecified order, and its contract holds for every order.
- `CountItems` rebuilds an immutable map at each step rather than mutating one record in
  place. No other code can observe the record, so nothing is lost.
- Thrown exceptions are modelled as the `UnknownItems` result. Their `Error` object and
  stack are left out.
