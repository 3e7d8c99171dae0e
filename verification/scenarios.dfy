/** The end-to-end expectations of GildedRoseTests/GildedRoseTest.cs, restated
    over the per-item model: each item sits once in its list, so after d calls of
    UpdateQuality it is Days(initial, d, ceiling). */
module Scenarios {
  import opened Constants
  import opened Naming
  import opened Rules
  import opened Properties

  /** A name with no white space at its ends that is not in the catalogue is a NormalItem. */
  lemma PlainName(name: string)
    requires name != [] && !IsWhiteSpace(name[0]) && !IsWhiteSpace(name[|name| - 1])
    requires name !in CatalogNames
    ensures Classify(name) == NormalItem
  {
    TrimUnpadded(name);
  }

  lemma NormalItemQualityZeroSellInMinus()
    ensures Days(ItemState("Elixir of the Mongoose", 10, 5), 12, DefaultMaxQuality) ==
      ItemState("Elixir of the Mongoose", -2, 0)
  {
    var s := ItemState("Elixir of the Mongoose", 10, 5);
    PlainName(s.name);
    DegradingClosedForm(NormalItem, s, 12, DefaultMaxQuality);
    LateDaysClosedForm(10, 12);
  }

  lemma NormalItemQualityDegradeTwiceSellInMinus()
    ensures Days(ItemState("Elixir of the Mongoose", 10, 50), 12, DefaultMaxQuality) ==
      ItemState("Elixir of the Mongoose", -2, 36)
  {
    var s := ItemState("Elixir of the Mongoose", 10, 50);
    PlainName(s.name);
    DegradingClosedForm(NormalItem, s, 12, DefaultMaxQuality);
    LateDaysClosedForm(10, 12);
  }

  lemma AgedBrieQualityIncrease()
    ensures Days(ItemState(AgedBrie, 10, 10), 12, DefaultMaxQuality) == ItemState(AgedBrie, -2, 22)
  {
    ClassifyCatalogName(AgedItem);
    AgedBrieClosedForm(ItemState(AgedBrie, 10, 10), 12, DefaultMaxQuality);
  }

  lemma AgedBrieQualityNeverMoreThanDefault()
    ensures Days(ItemState(AgedBrie, 10, 40), 12, DefaultMaxQuality) == ItemState(AgedBrie, -2, 50)
  {
    ClassifyCatalogName(AgedItem);
    AgedBrieClosedForm(ItemState(AgedBrie, 10, 40), 12, DefaultMaxQuality);
  }

  lemma AgedBrieQualityNeverMoreThanCustomQualityValue()
    ensures Days(ItemState(AgedBrie, 10, 40), 12, 45) == ItemState(AgedBrie, -2, 45)
  {
    ClassifyCatalogName(AgedItem);
    AgedBrieClosedForm(ItemState(AgedBrie, 10, 40), 12, 45);
  }

  lemma SulfurasQualityAndSellInNeverChange()
    ensures Days(ItemState(Sulfuras, 10, 70), 12, DefaultMaxQuality) == ItemState(Sulfuras, 10, 70)
  {
    ClassifyCatalogName(LegendaryItem);
  }

  lemma BackstageQualityIncreasesWithFactor()
    ensures Days(ItemState(Backstage, 10, 2), 8, DefaultMaxQuality) == ItemState(Backstage, 2, 21)
  {
    ClassifyCatalogName(ConcertItem);
    ConcertClosedForm(ItemState(Backstage, 10, 2), 8, DefaultMaxQuality);
  }

  lemma BackstageQualitySetToZero()
    ensures Days(ItemState(Backstage, 10, 2), 12, DefaultMaxQuality) == ItemState(Backstage, -2, 0)
  {
    ClassifyCatalogName(ConcertItem);
    ConcertWorthlessAfterConcert(ItemState(Backstage, 10, 2), 12, DefaultMaxQuality);
  }

  lemma ConjuredQualityDegradeAsTwice()
    ensures Days(ItemState(Conjured, 10, 40), 10, DefaultMaxQuality) == ItemState(Conjured, 0, 20)
  {
    ClassifyCatalogName(ConjuredItem);
    DegradingClosedForm(ConjuredItem, ItemState(Conjured, 10, 40), 10, DefaultMaxQuality);
    LateDaysClosedForm(10, 10);
  }

  /** A degrading item that starts inside [0, 50] with at most ten days to sell
      is worthless after 31 days. */
  lemma DegradedAfterAMonth(cat: Category, s: ItemState)
    requires cat == NormalItem || cat == ConjuredItem
    requires 0 <= s.quality <= DefaultMaxQuality && 0 <= s.sellIn <= 10
    ensures Repeat(cat, s, 31, DefaultMaxQuality) == ItemState(s.name, s.sellIn - 31, 0)
  {
    DegradingClosedForm(cat, s, 31, DefaultMaxQuality);
    LateDaysClosedForm(s.sellIn, 31);
  }

  // The big transaction: nine items, 31 calls, one lemma per item.

  lemma BigTransactionVest()
    ensures Days(ItemState("+5 Dexterity Vest", 10, 20), 31, DefaultMaxQuality) ==
      ItemState("+5 Dexterity Vest", -21, 0)
  {
    PlainName("+5 Dexterity Vest");
    DegradedAfterAMonth(NormalItem, ItemState("+5 Dexterity Vest", 10, 20));
  }

  lemma BigTransactionAgedBrie()
    ensures Days(ItemState(AgedBrie, 2, 0), 31, DefaultMaxQuality) == ItemState(AgedBrie, -29, 31)
  {
    ClassifyCatalogName(AgedItem);
    AgedBrieClosedForm(ItemState(AgedBrie, 2, 0), 31, DefaultMaxQuality);
  }

  lemma BigTransactionElixir()
    ensures Days(ItemState("Elixir of the Mongoose", 5, 7), 31, DefaultMaxQuality) ==
      ItemState("Elixir of the Mongoose", -26, 0)
  {
    PlainName("Elixir of the Mongoose");
    DegradedAfterAMonth(NormalItem, ItemState("Elixir of the Mongoose", 5, 7));
  }

  /** The blank name is invalid but still a NormalItem. */
  lemma BlankNameIsNormal()
    ensures IsInvalidName("  ") && Classify("  ") == NormalItem
  {
    assert AllWhiteSpace("  ");
  }

  lemma BigTransactionBlankName()
    ensures Days(ItemState("  ", 0, 80), 31, DefaultMaxQuality) == ItemState("  ", -31, 0)
  {
    BlankNameIsNormal();
    DegradingFromAboveCeiling(NormalItem, ItemState("  ", 0, 80), 31, DefaultMaxQuality);
    DegradingClosedForm(NormalItem, ItemState("  ", -1, 50), 30, DefaultMaxQuality);
    LateDaysClosedForm(-1, 30);
  }

  lemma BigTransactionSulfuras()
    ensures Days(ItemState(Sulfuras, -1, 80), 31, DefaultMaxQuality) == ItemState(Sulfuras, -1, 80)
  {
    ClassifyCatalogName(LegendaryItem);
  }

  lemma BigTransactionPasses()
    ensures Days(ItemState(Backstage, 15, 20), 31, DefaultMaxQuality) == ItemState(Backstage, -16, 0)
    ensures Days(ItemState(Backstage, 10, 49), 31, DefaultMaxQuality) == ItemState(Backstage, -21, 0)
    ensures Days(ItemState(Backstage, 5, 49), 31, DefaultMaxQuality) == ItemState(Backstage, -26, 0)
  {
    ClassifyCatalogName(ConcertItem);
    ConcertWorthlessAfterConcert(ItemState(Backstage, 15, 20), 31, DefaultMaxQuality);
    ConcertWorthlessAfterConcert(ItemState(Backstage, 10, 49), 31, DefaultMaxQuality);
    ConcertWorthlessAfterConcert(ItemState(Backstage, 5, 49), 31, DefaultMaxQuality);
  }

  lemma BigTransactionConjured()
    ensures Days(ItemState(Conjured, 3, 6), 31, DefaultMaxQuality) == ItemState(Conjured, -28, 0)
  {
    ClassifyCatalogName(ConjuredItem);
    DegradedAfterAMonth(ConjuredItem, ItemState(Conjured, 3, 6));
  }
}
