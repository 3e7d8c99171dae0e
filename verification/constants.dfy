/** The fixed values of the engine: the default quality ceiling, the initial
    degrade factor and the four catalogue names (GildedRose/Constants.cs). */
module Constants {

  /** Ceiling on quality used when the engine is built without one. */
  const DefaultMaxQuality: int := 50

  /** Initial value of the engine's degrade-factor field; every item overwrites it before use. */
  const DefaultQualityDegradeFactor: int := 1

  const AgedBrie: string := "Aged Brie"
  const Sulfuras: string := "Sulfuras, Hand of Ragnaros"
  const Backstage: string := "Backstage passes to a TAFKAL80ETC concert"
  const Conjured: string := "Conjured Mana Cake"
}
