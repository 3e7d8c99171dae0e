/** One simulated day for one item, as the current engine computes it
    (GildedRose/GildedRose.cs, UpdateItem and the helpers it relies on). */
module Rules {
  import opened Naming

  /** The three fields of an Item, as a value. */
  datatype ItemState = ItemState(name: string, sellIn: int, quality: int)

  function Min(a: int, b: int): int { if a <= b then a else b }
  function Max(a: int, b: int): int { if a >= b then a else b }

  /** The factor Prerequisite stores: 1 before the sell date, 2 from it on. */
  function DegradeFactor(sellIn: int): (f: int)
    ensures f == 1 || f == 2
    ensures f == 1 <==> sellIn > 0
  {
    if sellIn > 0 then 1 else 2
  }

  /** The daily increase of a concert pass that still has SellIn days to go:
      one, plus one at ten days or fewer, plus one more at five days or fewer. */
  function ConcertTier(sellIn: int): (t: int)
    ensures 1 <= t <= 3
    ensures t == 3 <==> sellIn <= 5
    ensures t == 1 <==> sellIn > 10
  {
    if sellIn <= 5 then 3 else if sellIn <= 10 then 2 else 1
  }

  /** The quality GetQuality computes before it is normalized, given the category
      and the degrade factor Prerequisite chose and the item's SellIn before this
      day's decrement. */
  function RawQuality(cat: Category, sellIn: int, quality: int, factor: int): (r: int)
    ensures cat == LegendaryItem ==> r == quality
    ensures cat == AgedItem ==> r == quality + 1
    ensures cat == ConcertItem && sellIn < 0 ==> r == 0
    ensures cat == ConcertItem && 0 <= sellIn ==> r == quality + ConcertTier(sellIn)
    ensures (cat == NormalItem || cat == ConjuredItem) && 0 < factor ==> r < quality
    ensures cat == NormalItem ==> r == quality - factor
    ensures cat == ConjuredItem ==> r == quality - 2 * factor
  {
    match cat
    case AgedItem => quality + 1
    case LegendaryItem => quality
    case ConcertItem =>
      if sellIn < 0 then 0
      else if sellIn <= 5 then quality + 3
      else if sellIn <= 10 then quality + 2
      else quality + 1
    case ConjuredItem => quality - 2 * factor
    case NormalItem => quality - factor
  }

  /** NormalizeQuality: every category except Legendary is clamped into
      [0, maxQuality]. The lower bound is applied first, so a negative ceiling wins. */
  function Normalize(cat: Category, result: int, maxQuality: int): (r: int)
    ensures cat == LegendaryItem ==> r == result
    ensures cat != LegendaryItem ==> r <= maxQuality
    ensures cat != LegendaryItem && 0 <= maxQuality ==> 0 <= r
    ensures cat != LegendaryItem && 0 <= result <= maxQuality ==> r == result
    ensures cat != LegendaryItem && result < 0 <= maxQuality ==> r == 0
    ensures cat != LegendaryItem && maxQuality < Max(result, 0) ==> r == maxQuality
  {
    if cat == LegendaryItem then result
    else
      var lowered := if result < 0 then 0 else result;
      if lowered > maxQuality then maxQuality else lowered
  }

  /** GetSellIn: a Legendary item keeps its SellIn, every other item loses one day. */
  function NewSellIn(cat: Category, sellIn: int): (r: int)
    ensures r == sellIn <==> cat == LegendaryItem
    ensures r == sellIn || r == sellIn - 1
  {
    if cat == LegendaryItem then sellIn else sellIn - 1
  }

  /** UpdateItem, given the category Prerequisite chose: the item after one
      day. Quality is computed from the SellIn before the decrement; both fields
      are written once. */
  function Update(cat: Category, s: ItemState, maxQuality: int): (r: ItemState)
    ensures r.name == s.name
    ensures cat == LegendaryItem ==> r == s
    ensures cat != LegendaryItem ==> r.sellIn == s.sellIn - 1
    ensures cat != LegendaryItem ==> r.quality <= maxQuality
    ensures cat != LegendaryItem && 0 <= maxQuality ==> 0 <= r.quality
  {
    var quality := Normalize(cat, RawQuality(cat, s.sellIn, s.quality, DegradeFactor(s.sellIn)), maxQuality);
    ItemState(s.name, NewSellIn(cat, s.sellIn), quality)
  }

  /** One day for one item: classify its name, then update it. */
  function Step(s: ItemState, maxQuality: int): (r: ItemState)
    ensures r.name == s.name
    ensures Classify(s.name) == LegendaryItem <==> r == s
    ensures Classify(s.name) != LegendaryItem ==> r.sellIn == s.sellIn - 1
  {
    Update(Classify(s.name), s, maxQuality)
  }

  /** n updates under one category. A Legendary item never changes; any other
      item loses one SellIn a day and, after at least one day, has its quality
      inside [0, maxQuality]. */
  function Repeat(cat: Category, s: ItemState, n: nat, maxQuality: int): (r: ItemState)
    ensures r.name == s.name
    ensures cat == LegendaryItem ==> r == s
    ensures cat != LegendaryItem ==> r.sellIn == s.sellIn - n
    ensures cat != LegendaryItem && n > 0 ==> r.quality <= maxQuality
    ensures cat != LegendaryItem && n > 0 && 0 <= maxQuality ==> 0 <= r.quality
  {
    if n == 0 then s else Update(cat, Repeat(cat, s, n - 1, maxQuality), maxQuality)
  }

  /** The item after n days: n calls of UpdateQuality on a list that holds it
      once (Sessions.RunDays). The name never changes, so neither does the category. */
  function Days(s: ItemState, n: nat, maxQuality: int): (r: ItemState)
    ensures r.name == s.name
    ensures Classify(s.name) == LegendaryItem ==> r == s
    ensures Classify(s.name) != LegendaryItem ==> r.sellIn == s.sellIn - n
  {
    Repeat(Classify(s.name), s, n, maxQuality)
  }

  /** Days adds one Step per day. */
  lemma DaysSucc(s: ItemState, n: nat, maxQuality: int)
    ensures Days(s, n + 1, maxQuality) == Step(Days(s, n, maxQuality), maxQuality)
  {
  }
}
