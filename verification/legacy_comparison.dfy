/** Where UpdateQuality_Old and UpdateQuality agree and where they part ways. */
module LegacyComparison {
  import opened Constants
  import opened Naming
  import opened Rules
  import opened LegacyRules
  import opened Properties

  /** For a name without surrounding white space and a quality inside [0, 50],
      the legacy day and the current day with the default ceiling give the same
      item exactly when none of three cases applies: Aged Brie at or past its
      sell date (the legacy code adds two), a Backstage pass on the concert day
      (the legacy code zeroes it a day early), and a Conjured item whose
      quality exceeds one day's normal loss (the legacy code degrades it like a
      normal item). */
  lemma LegacyAgreesUnlessDiverging(s: ItemState)
    requires Trim(s.name) == s.name
    requires 0 <= s.quality <= LegacyCeiling
    ensures LegacyStep(s) == Step(s, DefaultMaxQuality) <==>
      !(s.name == AgedBrie && s.sellIn <= 0 && s.quality < 49) &&
      !(s.name == Backstage && s.sellIn == 0) &&
      !(s.name == Conjured && s.quality > DegradeFactor(s.sellIn))
  {
    var cat := Classify(s.name);
    if s.name == AgedBrie {
      assert cat == AgedItem;
    } else if s.name == Sulfuras {
      assert cat == LegendaryItem;
    } else if s.name == Backstage {
      assert cat == ConcertItem;
    } else if s.name == Conjured {
      assert cat == ConjuredItem;
    } else {
      assert cat == NormalItem;
    }
  }

  /** The legacy code lets Aged Brie gain two a day once its sell date has
      passed, up to 50. */
  lemma {:induction false} LegacyAgedBrieClosedForm(s: ItemState, n: nat)
    requires s.name == AgedBrie
    requires 0 <= s.quality <= LegacyCeiling
    ensures LegacyDays(s, n) ==
      ItemState(s.name, s.sellIn - n, Min(LegacyCeiling, s.quality + n + LateDays(s.sellIn, n)))
  {
    if n > 0 {
      LegacyAgedBrieClosedForm(s, n - 1);
    }
  }

  /** The example noted in the tests: after twelve calls the legacy code gives
      Aged Brie 24 where the current engine gives 22. */
  lemma AgedBrieTwelveDays()
    ensures LegacyDays(ItemState(AgedBrie, 10, 10), 12) == ItemState(AgedBrie, -2, 24)
    ensures Days(ItemState(AgedBrie, 10, 10), 12, DefaultMaxQuality) == ItemState(AgedBrie, -2, 22)
  {
    LegacyAgedBrieClosedForm(ItemState(AgedBrie, 10, 10), 12);
    LateDaysClosedForm(10, 12);
    ClassifyCatalogName(AgedItem);
    AgedBrieClosedForm(ItemState(AgedBrie, 10, 10), 12, DefaultMaxQuality);
  }

  /** The legacy code compares untrimmed names: padded Aged Brie degrades there
      and ages in the current engine. */
  lemma LegacyDoesNotTrim()
    ensures LegacyStep(ItemState(" Aged Brie", 5, 10)) == ItemState(" Aged Brie", 4, 9)
    ensures Step(ItemState(" Aged Brie", 5, 10), DefaultMaxQuality) == ItemState(" Aged Brie", 4, 11)
  {
    assert AllWhiteSpace(" ") && AllWhiteSpace("");
    assert " Aged Brie" == " " + AgedBrie + "";
    ClassifyIgnoresPadding(" ", AgedBrie, "");
    ClassifyCatalogName(AgedItem);
  }

  /** The legacy code caps at the literal 50 whatever ceiling the engine holds. */
  lemma LegacyIgnoresCustomCeiling()
    ensures LegacyStep(ItemState(AgedBrie, 5, 45)).quality == 46
    ensures Step(ItemState(AgedBrie, 5, 45), 45).quality == 45
  {
    ClassifyCatalogName(AgedItem);
  }
}
