/** What several days of the current engine do to one item, category by
    category: closed forms of Repeat, and the independence of the result from
    white space around the name. */
module Properties {
  import opened Naming
  import opened Rules

  /** How many of the first n days start at or past the sell date: day j
      (counting from 0) starts with SellIn sellIn - j. */
  function LateDays(sellIn: int, n: nat): (r: nat)
    ensures r <= n
  {
    if n == 0 then 0
    else LateDays(sellIn, n - 1) + (if sellIn - (n - 1) <= 0 then 1 else 0)
  }

  /** The late days are the days left once the SellIn is used up. */
  lemma {:induction false} LateDaysClosedForm(sellIn: int, n: nat)
    ensures LateDays(sellIn, n) ==
      if sellIn <= 0 then n else if sellIn >= n then 0 else n - sellIn
  {
    if n > 0 {
      LateDaysClosedForm(sellIn, n - 1);
    }
  }

  /** The quality a degrading item loses over k normal-rate days: one a day for
      a normal item, two for a Conjured one. */
  function Loss(cat: Category, k: int): int {
    if cat == ConjuredItem then 2 * k else k
  }

  /** A day of a degrading item within the ceiling: it loses its rate times the
      degrade factor, down to zero. */
  lemma DegradingDay(cat: Category, p: ItemState, maxQuality: int)
    requires cat == NormalItem || cat == ConjuredItem
    requires 0 <= p.quality <= maxQuality
    ensures Update(cat, p, maxQuality) ==
      ItemState(p.name, p.sellIn - 1, Max(0, p.quality - Loss(cat, DegradeFactor(p.sellIn))))
  {
  }

  /** A normal item loses one a day and a Conjured item two, twice that on late
      days, and neither goes below zero. */
  lemma {:induction false} DegradingClosedForm(cat: Category, s: ItemState, n: nat, maxQuality: int)
    requires cat == NormalItem || cat == ConjuredItem
    requires 0 <= s.quality <= maxQuality
    ensures Repeat(cat, s, n, maxQuality) ==
      ItemState(s.name, s.sellIn - n, Max(0, s.quality - Loss(cat, n + LateDays(s.sellIn, n))))
  {
    if n > 0 {
      DegradingClosedForm(cat, s, n - 1, maxQuality);
      var prev := Repeat(cat, s, n - 1, maxQuality);
      DegradingDay(cat, prev, maxQuality);
      assert n + LateDays(s.sellIn, n) == n - 1 + LateDays(s.sellIn, n - 1) + DegradeFactor(prev.sellIn);
    }
  }

  /** Aged Brie gains one a day, before and after its sell date, up to the ceiling. */
  lemma {:induction false} AgedBrieClosedForm(s: ItemState, n: nat, maxQuality: int)
    requires 0 <= s.quality <= maxQuality
    ensures Repeat(AgedItem, s, n, maxQuality) == ItemState(s.name, s.sellIn - n, Min(maxQuality, s.quality + n))
  {
    if n > 0 {
      AgedBrieClosedForm(s, n - 1, maxQuality);
    }
  }

  /** The total increase over the first n days, before clamping. */
  function ConcertGain(sellIn: int, n: nat): (g: int)
    ensures n <= g <= 3 * n
  {
    if n == 0 then 0 else ConcertGain(sellIn, n - 1) + ConcertTier(sellIn - (n - 1))
  }

  /** Up to and including the concert day (the day that starts with SellIn 0), a
      Backstage pass gains its tiers, up to the ceiling. */
  lemma {:induction false} ConcertClosedForm(s: ItemState, n: nat, maxQuality: int)
    requires 0 <= s.quality <= maxQuality
    requires n <= s.sellIn + 1
    ensures Repeat(ConcertItem, s, n, maxQuality) ==
      ItemState(s.name, s.sellIn - n, Min(maxQuality, s.quality + ConcertGain(s.sellIn, n)))
  {
    if n > 0 {
      ConcertClosedForm(s, n - 1, maxQuality);
    }
  }

  /** Before the concert a pass never loses quality. */
  lemma ConcertNeverDecreasesBeforeConcert(s: ItemState, n: nat, maxQuality: int)
    requires 0 <= s.quality <= maxQuality
    requires n <= s.sellIn + 1
    ensures s.quality <= Repeat(ConcertItem, s, n, maxQuality).quality
  {
    ConcertClosedForm(s, n, maxQuality);
  }

  /** Any day that starts past the concert leaves a pass worthless, and it stays so. */
  lemma ConcertWorthlessAfterConcert(s: ItemState, n: nat, maxQuality: int)
    requires 0 <= maxQuality
    requires 0 < n && s.sellIn + 1 < n
    ensures Repeat(ConcertItem, s, n, maxQuality).quality == 0
  {
  }

  /** The update never looks at the name, only at the category. */
  lemma {:induction false} RepeatIgnoresName(cat: Category, s: ItemState, name: string, n: nat, maxQuality: int)
    ensures Repeat(cat, s.(name := name), n, maxQuality) == Repeat(cat, s, n, maxQuality).(name := name)
  {
    if n > 0 {
      RepeatIgnoresName(cat, s, name, n - 1, maxQuality);
    }
  }

  /** White space around a name changes nothing but the name: the item is
      classified, and so updated, by its trimmed name. */
  lemma DaysIgnoresPadding(pre: string, s: ItemState, post: string, n: nat, maxQuality: int)
    requires AllWhiteSpace(pre) && AllWhiteSpace(post)
    ensures Days(s.(name := pre + s.name + post), n, maxQuality) ==
      Days(s, n, maxQuality).(name := pre + s.name + post)
  {
    ClassifyIgnoresPadding(pre, s.name, post);
    RepeatIgnoresName(Classify(s.name), s, pre + s.name + post, n, maxQuality);
  }

  /** Running a + b days is running a days and then b more. */
  lemma {:induction false} RepeatSplit(cat: Category, s: ItemState, a: nat, b: nat, maxQuality: int)
    ensures Repeat(cat, s, a + b, maxQuality) == Repeat(cat, Repeat(cat, s, a, maxQuality), b, maxQuality)
  {
    if b > 0 {
      RepeatSplit(cat, s, a, b - 1, maxQuality);
    }
  }

  /** A degrading item above the ceiling is clamped to it on the first day. */
  lemma DegradingFromAboveCeiling(cat: Category, s: ItemState, n: nat, maxQuality: int)
    requires cat == NormalItem || cat == ConjuredItem
    requires 0 <= maxQuality < s.quality - Loss(cat, 2)
    requires 0 < n
    ensures Repeat(cat, s, n, maxQuality) == Repeat(cat, ItemState(s.name, s.sellIn - 1, maxQuality), n - 1, maxQuality)
  {
    RepeatSplit(cat, s, 1, n - 1, maxQuality);
  }
}
