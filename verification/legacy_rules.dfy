/** The per-item effect of UpdateQuality_Old (GildedRose/GildedRose.cs), written
    as a closed form per name. The legacy code compares the untrimmed name with
    the literal catalogue names and caps increases at the literal 50, whatever
    ceiling the engine was built with. */
module LegacyRules {
  import opened Constants
  import opened Rules

  /** The ceiling hard-coded in the legacy code. */
  const LegacyCeiling: int := 50

  /** One day of UpdateQuality_Old for one item. */
  function LegacyStep(s: ItemState): (r: ItemState)
    ensures r.name == s.name
    ensures s.name == Sulfuras ==> r == s
    ensures s.name != Sulfuras ==> r.sellIn == s.sellIn - 1
    ensures 0 <= s.quality <= LegacyCeiling ==> 0 <= r.quality <= LegacyCeiling
  {
    var expired := s.sellIn <= 0;  // SellIn is negative after this day's decrement
    var quality :=
      if s.name == AgedBrie then
        (if s.quality >= LegacyCeiling then s.quality
         else Min(s.quality + (if expired then 2 else 1), LegacyCeiling))
      else if s.name == Backstage then
        (if expired then 0
         else if s.quality >= LegacyCeiling then s.quality
         else Min(s.quality + ConcertTier(s.sellIn), LegacyCeiling))
      else if s.name == Sulfuras then s.quality
      else if s.quality > 0 then Max(s.quality - (if expired then 2 else 1), 0)
      else s.quality;
    ItemState(s.name, if s.name == Sulfuras then s.sellIn else s.sellIn - 1, quality)
  }

  /** The item after n calls of UpdateQuality_Old on a list that holds it once. */
  function LegacyDays(s: ItemState, n: nat): (r: ItemState)
    ensures r.name == s.name
  {
    if n == 0 then s else LegacyStep(LegacyDays(s, n - 1))
  }

  /** LegacyDays adds one LegacyStep per day. */
  lemma LegacyDaysSucc(s: ItemState, n: nat)
    ensures LegacyDays(s, n + 1) == LegacyStep(LegacyDays(s, n))
  {
  }

  /** Under the legacy code Sulfuras never changes, every other item loses one
      SellIn a day, and a quality inside [0, 50] stays there. */
  lemma {:induction false} LegacyDaysInvariants(s: ItemState, n: nat)
    ensures s.name == Sulfuras ==> LegacyDays(s, n) == s
    ensures s.name != Sulfuras ==> LegacyDays(s, n).sellIn == s.sellIn - n
    ensures 0 <= s.quality <= LegacyCeiling ==> 0 <= LegacyDays(s, n).quality <= LegacyCeiling
  {
    if n > 0 {
      LegacyDaysInvariants(s, n - 1);
    }
  }
}
