# Gilded Rose daily update, modelled in Dafny

The model covers the engine of the Gilded Rose inventory kata, C# edition. A `GildedRose` engine holds a list of
`Item` objects, each with a `Name`, a `SellIn` (days left to sell) and a `Quality`, plus a quality
ceiling that defaults to 50. Each call of `UpdateQuality` walks the list in order and advances
every item by one day. It first classifies the item by its trimmed name: Aged Brie, Sulfuras
(legendary), Backstage passes (concert), Conjured, or a normal item. Then it computes the new
quality for that category, clamps it into `[0, ceiling]` unless the item is legendary, and
decrements `SellIn` unless the item is legendary. `UpdateQuality_Old` is the original
nested-conditional version of the same rules.

Layout:

- `constants.dfy` (`Constants`): the default ceiling, the default degrade factor and the four
  catalogue names.
- `naming.dfy` (`Naming`): `String.Trim` over the Unicode White_Space characters, the
  category a name gets, and the invalid-name test.
- `rules.dfy` (`Rules`): one day for one item as a pure function (`Update` for a given category,
  `Step` including classification), and its n-fold iteration `Days`.
- `legacy_rules.dfy` (`LegacyRules`): one day of the legacy sweep for one item, as a closed form.
- `engine.dfy` (`Engine`): the `Item` and `GildedRose` classes. The methods follow the source
  one for one and mutate the items and the engine's scratch fields in place. Each method is
  proved against the pure functions.
- `properties.dfy` (`Properties`): closed forms of many days per category, and independence
  from white space around the name.
- `sessions.dfy` (`Sessions`): repeated calls of `UpdateQuality` on one engine, as the unit tests
  make them, proved to give each item `Days` of its start state.
- `scenarios.dfy` (`Scenarios`): the literal expectations of the unit tests.
- `legacy_comparison.dfy` (`LegacyComparison`): where the legacy sweep and the current one agree
  and where they differ.

Aliasing is modelled. The list holds references, and the same `Item` object may occur several
times. `UpdateQuality` then advances that object once per occurrence, and its postcondition says
so with the occurrence count. `AdvancedDistinct` proves that in a list without repetitions
every item gets exactly one day.

## Model

| member | source | states |
|---|---|---|
| Engine.CeilingOrDefault | GildedRose/GildedRose.cs:20 | the ceiling is the given value, or 50 when none is given |
| Engine.GildedRose.constructor | GildedRose/GildedRose.cs:17-21 | keeps the caller's list, fixes the ceiling, and starts the scratch fields at NormalItem and factor 1 |
| Engine.GildedRose.UpdateQuality | GildedRose/GildedRose.cs:26-34 | the list and every name are unchanged; each item's new state is its old state advanced by `Days`, one day per occurrence of the object in the list |
| Engine.GildedRose.VisitAt | GildedRose/GildedRose.cs:28-33 | one loop iteration steps the object at position i, at every position holding it, and leaves all other positions alone |
| Engine.GildedRose.Visit | GildedRose/GildedRose.cs:30-32 | validate, classify and update together advance the item by exactly one `Step` of its old state |
| Engine.AdvancedOneMore | GildedRose/GildedRose.cs:28-33 | visiting position i turns the states after i visited positions into the states after i + 1 (the loop invariant) |
| Engine.AdvancedDistinct | GildedRose/GildedRose.cs:28-33 | in a list without repeated objects, a full sweep applies exactly one `Step` to every item |
| Engine.DistinctOccursOnce | GildedRose/GildedRose.cs:28 | in a list without repeated objects, every object occurs exactly once |
| Engine.GildedRose.ValidateItem | GildedRose/GildedRose.cs:137-141 | the warning is raised exactly when the name is white space only |
| Engine.GildedRose.Prerequisite | GildedRose/GildedRose.cs:114-131 | the scratch category becomes the category of the trimmed name, and the factor becomes 1 when `SellIn > 0`, else 2 |
| Engine.GildedRose.UpdateItem | GildedRose/GildedRose.cs:40-44 | given the factor of the current `SellIn`, the item becomes `Update` of its old state under the scratch category |
| Engine.GildedRose.GetQuality | GildedRose/GildedRose.cs:61-91 | returns the clamped per-category quality; as a side effect Quality goes up by one exactly for Aged Brie and for concerts more than ten days away |
| Engine.GildedRose.GetSellIn | GildedRose/GildedRose.cs:51-54 | legendary items keep their SellIn; any other item's SellIn is decremented in place and returned |
| Engine.GildedRose.UpdateQualityOld | GildedRose/GildedRose.cs:143-217 | the list is unchanged and each item gets `LegacyDays`, one legacy day per occurrence |
| Engine.GildedRose.VisitOldAt | GildedRose/GildedRose.cs:145-216 | one iteration of the legacy loop gives every position holding the object at index i one `LegacyStep`, and leaves all other positions alone |
| Engine.LegacyAdvancedOneMore | GildedRose/GildedRose.cs:144-216 | the legacy visit of index i turns the states after i visited positions into the states after i + 1 (the legacy loop invariant) |
| Engine.GildedRose.UpdateItemOld | GildedRose/GildedRose.cs:147-215 | the nested conditionals for one item equal the closed form `LegacyStep` |
| Naming.IsWhiteSpace | GildedRose/GildedRose.cs:116 | the characters `Trim` removes: the Unicode White_Space set that `Char.IsWhiteSpace` accepts; among ASCII characters exactly the space and tab through carriage return, and nothing between `!` and NEL |
| Naming.SkipLeading | GildedRose/GildedRose.cs:116 | the first non-space position at or after i; everything skipped is white space |
| Naming.SkipTrailing | GildedRose/GildedRose.cs:116 | the end of the last non-space character before j, not below lo; everything skipped is white space |
| Naming.Trim | GildedRose/GildedRose.cs:116 | the result is empty exactly for all-white-space names, and otherwise starts and ends with a non-space |
| Naming.TrimStripsPadding | GildedRose/GildedRose.cs:116 | trimming white space around an unpadded core gives back that core |
| Naming.TrimIgnoresPadding | GildedRose/GildedRose.cs:116 | adding white space around a name does not change its trimmed form |
| Naming.TrimIdempotent | GildedRose/GildedRose.cs:116 | trimming twice is trimming once |
| Naming.Classify | GildedRose/GildedRose.cs:114-127 | a name is NormalItem exactly when its trimmed form is not a catalogue name; otherwise the trimmed form is the name of its category |
| Naming.ClassifyCatalogName | GildedRose/Constants.cs:10-13 | each catalogue name, written exactly, gets its own category |
| Naming.ClassifyIgnoresPadding | GildedRose/GildedRose.cs:116-127 | white space around a name never changes its category |
| Naming.ClassifyIsCaseSensitive | GildedRose/GildedRose.cs:118-124 | the catalogue names in other letter case are normal items |
| Naming.IsInvalidName | GildedRose/GildedRose.cs:139 | a name is invalid exactly when it is white space only, and such a name is still a NormalItem |
| Rules.DegradeFactor | GildedRose/GildedRose.cs:130 | the factor is 1 or 2, and 1 exactly when `SellIn > 0` |
| Rules.ConcertTier | GildedRose/GildedRose.cs:75-80 | a pass still before its concert gains 1 to 3 a day: 3 exactly at five days or fewer, 1 exactly at more than ten |
| Rules.RawQuality | GildedRose/GildedRose.cs:64-88 | the per-category table before clamping: legendary unchanged, Aged Brie +1, a pass 0 after the concert and `ConcertTier` before it, a normal item minus the factor, Conjured minus twice the factor; degrading items always lose when the factor is positive |
| Rules.Normalize | GildedRose/GildedRose.cs:98-108 | legendary quality is left alone; any other result ends up at most the ceiling, at least 0 when the ceiling is not negative, unchanged when already in range, 0 when negative, and the ceiling when above it |
| Rules.Update | GildedRose/GildedRose.cs:40-44 | the name is kept; a legendary item is unchanged; any other item loses one SellIn and ends with a quality in range |
| Rules.NewSellIn | GildedRose/GildedRose.cs:53 | the SellIn is kept exactly for legendary items, and otherwise goes down by one |
| Rules.Step | GildedRose/GildedRose.cs:30-32 | one loop body on a value: the name is kept, the item is unchanged exactly when its trimmed name is Sulfuras, and otherwise its SellIn goes down by one; `Engine.GildedRose.Visit` is proved equal to it |
| Rules.Repeat | GildedRose/GildedRose.cs:26-34 | over n days a legendary item never changes; any other loses exactly n SellIn and, after a day, stays in range |
| Rules.Days | GildedRose/GildedRose.cs:26-34 | n days of one item: the name is kept, a legendary item never changes, any other loses n SellIn; `Sessions.RunSingle` is proved equal to it |
| Rules.DaysSucc | GildedRose/GildedRose.cs:26-34 | n + 1 days are n days followed by one `Step` |
| LegacyRules.LegacyStep | GildedRose/GildedRose.cs:147-215 | the closed form of one legacy day: the name is kept, Sulfuras never changes, every other item loses one SellIn, and a quality in [0, 50] stays there; `Engine.GildedRose.UpdateItemOld` is proved equal to it |
| LegacyRules.LegacyDays | GildedRose/GildedRose.cs:143-217 | n legacy days of one item, keeping its name; `Engine.GildedRose.UpdateQualityOld` is proved to give it once per occurrence |
| LegacyRules.LegacyDaysSucc | GildedRose/GildedRose.cs:143-217 | n + 1 legacy days are n legacy days followed by one `LegacyStep` |
| LegacyRules.LegacyDaysInvariants | GildedRose/GildedRose.cs:143-217 | under the legacy sweep Sulfuras never changes, every other item loses one SellIn a day, and a quality in [0, 50] stays there |
| Properties.LateDaysClosedForm | GildedRose/GildedRose.cs:130 | the number of days starting at or past the sell date is the number of days left once SellIn is used up |
| Properties.DegradingDay | GildedRose/GildedRose.cs:82-86 | a normal or Conjured item in range loses its rate times the degrade factor, down to 0 |
| Properties.DegradingClosedForm | GildedRose/GildedRose.cs:82-86 | after n days a normal item has lost n plus its late days, a Conjured item twice that, never below 0 |
| Properties.AgedBrieClosedForm | GildedRose/GildedRose.cs:66-67 | Aged Brie gains exactly one a day, before and after its sell date, up to the ceiling |
| Properties.ConcertGain | GildedRose/GildedRose.cs:72-80 | a pass gains between one and three a day before the concert |
| Properties.ConcertClosedForm | GildedRose/GildedRose.cs:72-80 | up to the concert day a pass gains the sum of its tiers (+1, +2 from ten days, +3 from five), up to the ceiling |
| Properties.ConcertNeverDecreasesBeforeConcert | GildedRose/GildedRose.cs:72-80 | before the concert a pass never loses quality |
| Properties.ConcertWorthlessAfterConcert | GildedRose/GildedRose.cs:73-74 | any day that starts past the concert leaves the pass at 0, and it stays there |
| Properties.RepeatIgnoresName | GildedRose/GildedRose.cs:40-44 | once the category is fixed, the update never looks at the name |
| Properties.DaysIgnoresPadding | GildedRose/GildedRose.cs:116 | white space around a name changes nothing but the name itself, on every day |
| Properties.RepeatSplit | GildedRose/GildedRose.cs:26-34 | a + b days are a days followed by b more |
| Properties.DegradingFromAboveCeiling | GildedRose/GildedRose.cs:104-105 | a normal or Conjured item whose quality exceeds the ceiling by more than one late day's loss (2, or 4 for Conjured) is at the ceiling after its first day, whatever its SellIn |
| Sessions.DaysAdd | GildedRose/GildedRose.cs:26-34 | b more days after a days are a + b days |
| Sessions.SweptOneMore | GildedRose/GildedRose.cs:26-34 | one more call of `UpdateQuality` turns n sweeps into n + 1: an object occurring m times in the list has had n * m days |
| Sessions.RunDays | GildedRoseTests/GildedRoseTest.cs:19-22 | after `days` calls of `UpdateQuality` the list is unchanged and each position holds its start state advanced `days` times its occurrence count |
| Sessions.SweptDistinct | GildedRoseTests/GildedRoseTest.cs:158-175 | in a list without repeated objects, n calls give every item exactly `Days(s, n)` |
| Sessions.RunSingle | GildedRoseTests/GildedRoseTest.cs:16-22 | a fresh engine holding one item, called `days` times, leaves that item at `Days` of its start state under the engine's ceiling |
| Scenarios.NormalItemQualityZeroSellInMinus | GildedRoseTests/GildedRoseTest.cs:14-25 | Elixir (10, 5) becomes (-2, 0) after 12 days |
| Scenarios.NormalItemQualityDegradeTwiceSellInMinus | GildedRoseTests/GildedRoseTest.cs:28-39 | Elixir (10, 50) becomes (-2, 36) after 12 days |
| Scenarios.AgedBrieQualityIncrease | GildedRoseTests/GildedRoseTest.cs:44-61 | Aged Brie (10, 10) becomes (-2, 22) after 12 days |
| Scenarios.AgedBrieQualityNeverMoreThanDefault | GildedRoseTests/GildedRoseTest.cs:64-75 | Aged Brie (10, 40) stops at 50 |
| Scenarios.AgedBrieQualityNeverMoreThanCustomQualityValue | GildedRoseTests/GildedRoseTest.cs:78-89 | with ceiling 45, Aged Brie (10, 40) stops at 45 |
| Scenarios.SulfurasQualityAndSellInNeverChange | GildedRoseTests/GildedRoseTest.cs:94-105 | Sulfuras (10, 70) is unchanged after 12 days |
| Scenarios.BackstageQualityIncreasesWithFactor | GildedRoseTests/GildedRoseTest.cs:110-121 | a pass (10, 2) becomes (2, 21) after 8 days |
| Scenarios.BackstageQualitySetToZero | GildedRoseTests/GildedRoseTest.cs:124-135 | a pass (10, 2) becomes (-2, 0) after 12 days |
| Scenarios.ConjuredQualityDegradeAsTwice | GildedRoseTests/GildedRoseTest.cs:140-152 | Conjured (10, 40) becomes (0, 20) after 10 days |
| Scenarios.BigTransactionVest | GildedRoseTests/GildedRoseTest.cs:175-176 | the vest (10, 20) becomes (-21, 0) after 31 days |
| Scenarios.BigTransactionAgedBrie | GildedRoseTests/GildedRoseTest.cs:178-179 | Aged Brie (2, 0) becomes (-29, 31) |
| Scenarios.BigTransactionElixir | GildedRoseTests/GildedRoseTest.cs:181-182 | Elixir (5, 7) becomes (-26, 0) |
| Scenarios.BlankNameIsNormal | GildedRoseTests/GildedRoseTest.cs:163 | the blank name is invalid and still a NormalItem |
| Scenarios.BigTransactionBlankName | GildedRoseTests/GildedRoseTest.cs:184-185 | the blank item (0, 80) becomes (-31, 0) |
| Scenarios.BigTransactionSulfuras | GildedRoseTests/GildedRoseTest.cs:187-188 | Sulfuras (-1, 80) is unchanged |
| Scenarios.BigTransactionPasses | GildedRoseTests/GildedRoseTest.cs:190-197 | the three passes end at 0 with SellIn -16, -21, -26 |
| Scenarios.BigTransactionConjured | GildedRoseTests/GildedRoseTest.cs:199-200 | Conjured (3, 6) becomes (-28, 0) |
| LegacyComparison.LegacyAgreesUnlessDiverging | GildedRose/GildedRose.cs:143-217 | for an unpadded name and quality in [0, 50], a legacy day equals a current day with ceiling 50 exactly unless the item is Aged Brie past its sell date below 49, a pass on the concert day, or Conjured above one day's normal loss |
| LegacyComparison.LegacyAgedBrieClosedForm | GildedRose/GildedRose.cs:157-214 | under the legacy code Aged Brie gains one a day plus one more on each late day, up to 50 |
| LegacyComparison.AgedBrieTwelveDays | GildedRoseTests/GildedRoseTest.cs:54-59 | Aged Brie (10, 10) after 12 days is 24 under the legacy code and 22 now |
| LegacyComparison.LegacyDoesNotTrim | GildedRose/GildedRose.cs:147 | the legacy code degrades " Aged Brie" like a normal item; the current engine ages it |
| LegacyComparison.LegacyIgnoresCustomCeiling | GildedRose/GildedRose.cs:159 | the legacy code lets quality pass a custom ceiling of 45; the current engine stops at it |

## Left out

- Console output: `Logger.LogWarning` and the warning text at GildedRose/GildedRose.cs:140. `ValidateItem` returns whether it would warn. GildedRose/Logger.cs is not part of this model.
- 32-bit integers: `SellIn` and `Quality` are unbounded, so the wrap-around of C# `int` at `++`, `--` and subtraction near the int32 limits is not modelled.
- Null names: `Trim()` on a null name throws. Names are non-null strings here.
- `String.Trim` is modelled over the characters with the Unicode White_Space property, as `Char.IsWhiteSpace` defines them. Any other difference in .NET's trimming is not modelled.
- `Item` and `ItemCategory` are defined elsewhere in the program; here they are defined from their use in GildedRose/GildedRose.cs.
- `DefaultQualityDegradeFactor` (GildedRose/Constants.cs:7) is modelled only as the constructor's initial value of the factor field. `Prerequisite` overwrites that field before any use.
- Engine.GildedRose.UpdateQuality: it does not state the scratch fields' final values. After the call they hold the last item's category and factor (for a non-empty list; an empty list leaves them as they were), and nothing reads them before the next `Prerequisite`.
- The list is a fixed-length array. The source holds the caller's `IList<Item>`, which the caller could grow or shrink between calls of `UpdateQuality`, and the engine would then see the new items. The engine never relies on this; the unit tests build the list before they build the engine.
- The xUnit wiring of GildedRoseTests/GildedRoseTest.cs. Its expected values are restated as lemmas over `Days`, one per item; `Sessions.RunSingle` and `Sessions.SweptDistinct` prove that the tests' repeated calls of `UpdateQuality` compute `Days`.
