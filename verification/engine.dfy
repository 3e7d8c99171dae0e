/** The engine of GildedRose/GildedRose.cs: a caller-owned list of mutable items
    and the two sweeps that advance every item by one day. */
module Engine {
  import opened Constants
  import opened Naming
  import opened Rules
  import opened LegacyRules

  datatype Option<T> = None | Some(value: T)

  /** The constructor's `maxQuality ?? DefaultMaxQuality`. */
  function CeilingOrDefault(maxQuality: Option<int>): (r: int)
    ensures maxQuality.Some? ==> r == maxQuality.value
    ensures maxQuality.None? ==> r == DefaultMaxQuality
  {
    match maxQuality
    case Some(m) => m
    case None => DefaultMaxQuality
  }

  /** An inventory record; the engine rewrites SellIn and Quality in place. */
  class Item {
    var name: string
    var sellIn: int
    var quality: int

    constructor (name: string, sellIn: int, quality: int)
      ensures this.name == name && this.sellIn == sellIn && this.quality == quality
    {
      this.name := name;
      this.sellIn := sellIn;
      this.quality := quality;
    }

    function State(): ItemState
      reads this
    {
      ItemState(name, sellIn, quality)
    }
  }

  /** The states after one day for the object at position i, wherever it occurs. */
  function Visited(states: seq<ItemState>, refs: seq<Item>, i: nat, maxQuality: int): (r: seq<ItemState>)
    requires |states| == |refs| && i < |refs|
    ensures |r| == |refs|
  {
    seq(|refs|, k requires 0 <= k < |refs| => if refs[k] == refs[i] then Step(states[k], maxQuality) else states[k])
  }

  /** The states after the first i positions have been visited: every object has
      had one day per occurrence among them. */
  function Advanced(start: seq<ItemState>, refs: seq<Item>, i: nat, maxQuality: int): (r: seq<ItemState>)
    requires |start| == |refs| && i <= |refs|
    ensures |r| == |refs|
  {
    seq(|refs|, k requires 0 <= k < |refs| => Days(start[k], multiset(refs[..i])[refs[k]], maxQuality))
  }

  /** Extending a prefix by one position adds one occurrence of the object there. */
  lemma CountOneMore(refs: seq<Item>, i: nat, x: Item)
    requires i < |refs|
    ensures multiset(refs[..i + 1])[x] == multiset(refs[..i])[x] + (if x == refs[i] then 1 else 0)
  {
    assert refs[..i + 1] == refs[..i] + [refs[i]];
  }

  /** Position k after visiting position i. */
  lemma AdvancedOneMoreAt(start: seq<ItemState>, refs: seq<Item>, i: nat, k: nat, maxQuality: int)
    requires |start| == |refs| && i < |refs| && k < |refs|
    ensures Visited(Advanced(start, refs, i, maxQuality), refs, i, maxQuality)[k] == Advanced(start, refs, i + 1, maxQuality)[k]
  {
    CountOneMore(refs, i, refs[k]);
    if refs[k] == refs[i] {
      DaysSucc(start[k], multiset(refs[..i])[refs[k]], maxQuality);
    }
  }

  /** Visiting position i takes the states from i visited positions to i + 1. */
  lemma AdvancedOneMore(start: seq<ItemState>, refs: seq<Item>, i: nat, maxQuality: int)
    requires |start| == |refs| && i < |refs|
    ensures Visited(Advanced(start, refs, i, maxQuality), refs, i, maxQuality) == Advanced(start, refs, i + 1, maxQuality)
  {
    forall k | 0 <= k < |refs|
      ensures Visited(Advanced(start, refs, i, maxQuality), refs, i, maxQuality)[k] == Advanced(start, refs, i + 1, maxQuality)[k]
    {
      AdvancedOneMoreAt(start, refs, i, k, maxQuality);
    }
  }

  /** The legacy counterpart of Visited: one legacy day for the object at position i. */
  function LegacyVisited(states: seq<ItemState>, refs: seq<Item>, i: nat): (r: seq<ItemState>)
    requires |states| == |refs| && i < |refs|
    ensures |r| == |refs|
  {
    seq(|refs|, k requires 0 <= k < |refs| => if refs[k] == refs[i] then LegacyStep(states[k]) else states[k])
  }

  /** The legacy counterpart of Advanced: one legacy day per occurrence among the
      first i positions. */
  function LegacyAdvanced(start: seq<ItemState>, refs: seq<Item>, i: nat): (r: seq<ItemState>)
    requires |start| == |refs| && i <= |refs|
    ensures |r| == |refs|
  {
    seq(|refs|, k requires 0 <= k < |refs| => LegacyDays(start[k], multiset(refs[..i])[refs[k]]))
  }

  /** Position k after the legacy visit of position i. */
  lemma LegacyAdvancedOneMoreAt(start: seq<ItemState>, refs: seq<Item>, i: nat, k: nat)
    requires |start| == |refs| && i < |refs| && k < |refs|
    ensures LegacyVisited(LegacyAdvanced(start, refs, i), refs, i)[k] == LegacyAdvanced(start, refs, i + 1)[k]
  {
    CountOneMore(refs, i, refs[k]);
    if refs[k] == refs[i] {
      LegacyDaysSucc(start[k], multiset(refs[..i])[refs[k]]);
    }
  }

  /** The legacy visit of position i takes the states from i visited positions to i + 1. */
  lemma LegacyAdvancedOneMore(start: seq<ItemState>, refs: seq<Item>, i: nat)
    requires |start| == |refs| && i < |refs|
    ensures LegacyVisited(LegacyAdvanced(start, refs, i), refs, i) == LegacyAdvanced(start, refs, i + 1)
  {
    forall k | 0 <= k < |refs|
      ensures LegacyVisited(LegacyAdvanced(start, refs, i), refs, i)[k] == LegacyAdvanced(start, refs, i + 1)[k]
    {
      LegacyAdvancedOneMoreAt(start, refs, i, k);
    }
  }

  /** No Item object occurs twice in the list. */
  ghost predicate Distinct(a: seq<Item>) {
    forall j, k | 0 <= j < k < |a| :: a[j] != a[k]
  }

  /** In a list without repetitions every element occurs exactly once. */
  lemma {:induction false} DistinctOccursOnce(a: seq<Item>, k: nat)
    requires Distinct(a) && k < |a|
    ensures multiset(a)[a[k]] == 1
  {
    var last := |a| - 1;
    assert a == a[..last] + [a[last]];
    assert Distinct(a[..last]);
    if k < last {
      DistinctOccursOnce(a[..last], k);
      assert a[..last][k] == a[k];
    } else {
      assert a[k] !in a[..last];
    }
  }

  /** In a list without repetitions, a full sweep advances every item by exactly one Step. */
  lemma AdvancedDistinct(start: seq<ItemState>, refs: seq<Item>, maxQuality: int)
    requires |start| == |refs| && Distinct(refs)
    ensures forall k | 0 <= k < |refs| ::
      Advanced(start, refs, |refs|, maxQuality)[k] == Step(start[k], maxQuality)
  {
    assert refs[..|refs|] == refs;
    forall k | 0 <= k < |refs|
      ensures Advanced(start, refs, |refs|, maxQuality)[k] == Step(start[k], maxQuality)
    {
      DistinctOccursOnce(refs, k);
      DaysSucc(start[k], 0, maxQuality);
    }
  }

  class GildedRose {
    const items: array<Item>
    const maxQuality: int
    /** Per-item scratch state written by Prerequisite and read by the getters. */
    var itemCategory: Category
    var qualityFactor: int

    constructor (items: array<Item>, maxQuality: Option<int>)
      ensures this.items == items
      ensures this.maxQuality == CeilingOrDefault(maxQuality)
      ensures itemCategory == NormalItem && qualityFactor == DefaultQualityDegradeFactor
    {
      this.items := items;
      this.maxQuality := CeilingOrDefault(maxQuality);
      itemCategory := NormalItem;
      qualityFactor := DefaultQualityDegradeFactor;
    }

    /** The item objects the list refers to. */
    ghost function ItemSet(): set<Item>
      reads items
    {
      set k | 0 <= k < items.Length :: items[k]
    }

    /** Advances every item by one day, in list order. An item that occurs m
        times in the list is advanced m days; in a list without repetitions each
        item is advanced exactly one day. The list itself and the names are
        untouched. */
    method UpdateQuality()
      modifies this, ItemSet()
      ensures items[..] == old(items[..])
      ensures States() == Advanced(old(States()), items[..], items.Length, maxQuality)
      ensures forall k | 0 <= k < items.Length ::
        items[k].State() == Days(old(items[k].State()), multiset(items[..])[items[k]], maxQuality)
      ensures forall k | 0 <= k < items.Length :: items[k].name == old(items[k].name)
    {
      ghost var start := States();
      var i := 0;
      while i < items.Length
        invariant 0 <= i <= items.Length
        invariant States() == Advanced(start, items[..], i, maxQuality)
      {
        VisitAt(i);
        AdvancedOneMore(start, items[..], i, maxQuality);
        i := i + 1;
      }
      assert items[..items.Length] == items[..];
    }

    /** The states of the items, position by position. */
    ghost function States(): (r: seq<ItemState>)
      reads this, items, ItemSet()
      ensures |r| == items.Length
      ensures forall k | 0 <= k < items.Length :: r[k] == items[k].State()
    {
      seq(items.Length, k reads items, ItemSet() requires 0 <= k < items.Length => items[k].State())
    }

    /** One iteration of UpdateQuality's loop: the item at position i is
        advanced a day, and so is every position that refers to the same object. */
    method VisitAt(i: nat)
      requires i < items.Length
      modifies this, items[i]
      ensures States() == Visited(old(States()), items[..], i, maxQuality)
    {
      var item := items[i];
      Visit(item);
      assert forall k | 0 <= k < items.Length && items[k] != item :: items[k].State() == old(items[k].State());
    }

    /** The body of UpdateQuality's loop for one item: validate, classify, update. */
    method Visit(item: Item)
      modifies this, item
      ensures item.State() == Step(old(item.State()), maxQuality)
    {
      var invalid := ValidateItem(item);
      Prerequisite(item);
      UpdateItem(item);
    }

    /** ValidateItem: decides whether the item's name draws a warning. The
        warning itself is console output and is not modelled; the item is
        processed either way. */
    static method ValidateItem(item: Item) returns (invalid: bool)
      ensures invalid <==> AllWhiteSpace(item.name)
    {
      invalid := IsInvalidName(item.name);
    }

    /** Prerequisite: records the item's category and degrade factor in the
        engine's scratch fields, overwriting whatever the previous item left. */
    method Prerequisite(item: Item)
      modifies this
      ensures itemCategory == Classify(item.name)
      ensures qualityFactor == DegradeFactor(item.sellIn)
    {
      var itemName := Trim(item.name);
      if itemName == AgedBrie {
        itemCategory := AgedItem;
      } else if itemName == Sulfuras {
        itemCategory := LegendaryItem;
      } else if itemName == Backstage {
        itemCategory := ConcertItem;
      } else if itemName == Conjured {
        itemCategory := ConjuredItem;
      } else {
        itemCategory := NormalItem;
      }
      qualityFactor := if item.sellIn > 0 then 1 else 2;
    }

    /** UpdateItem: writes the new quality, then the new SellIn. */
    method UpdateItem(item: Item)
      requires qualityFactor == DegradeFactor(item.sellIn)
      modifies item
      ensures item.State() == Update(itemCategory, old(item.State()), maxQuality)
    {
      var quality := GetQuality(item);
      item.quality := quality;
      var sellIn := GetSellIn(item);
      item.sellIn := sellIn;
    }

    /** GetQuality: the normalized new quality. Like the source, it bumps the
        item's Quality by one on its way for Aged Brie and for distant concerts. */
    method GetQuality(item: Item) returns (result: int)
      modifies item
      ensures result == Normalize(itemCategory,
        RawQuality(itemCategory, old(item.sellIn), old(item.quality), qualityFactor), maxQuality)
      ensures item.name == old(item.name) && item.sellIn == old(item.sellIn)
      ensures item.quality ==
        if itemCategory == AgedItem || (itemCategory == ConcertItem && old(item.sellIn) > 10)
        then old(item.quality) + 1 else old(item.quality)
    {
      match itemCategory {
      case AgedItem =>
        item.quality := item.quality + 1;
        result := item.quality;
      case LegendaryItem =>
        result := item.quality;
      case ConcertItem =>
        if item.sellIn < 0 {
          result := 0;
        } else if item.sellIn <= 5 {
          result := item.quality + 3;
        } else if item.sellIn <= 10 {
          result := item.quality + 2;
        } else {
          item.quality := item.quality + 1;
          result := item.quality;
        }
      case ConjuredItem =>
        result := item.quality - 2 * qualityFactor;
      case NormalItem =>
        result := item.quality - 1 * qualityFactor;
      }
      result := Normalize(itemCategory, result, maxQuality);
    }

    /** GetSellIn: a Legendary item keeps its SellIn; any other has it decremented in place. */
    method GetSellIn(item: Item) returns (result: int)
      modifies item
      ensures result == NewSellIn(itemCategory, old(item.sellIn))
      ensures item.sellIn == result
      ensures item.name == old(item.name) && item.quality == old(item.quality)
    {
      if itemCategory == LegendaryItem {
        result := item.sellIn;
      } else {
        item.sellIn := item.sellIn - 1;
        result := item.sellIn;
      }
    }

    /** UpdateQuality_Old: the legacy nested-conditional sweep. An item that
        occurs m times in the list gets m legacy days. */
    method UpdateQualityOld()
      modifies ItemSet()
      ensures items[..] == old(items[..])
      ensures States() == LegacyAdvanced(old(States()), items[..], items.Length)
      ensures forall k | 0 <= k < items.Length ::
        items[k].State() == LegacyDays(old(items[k].State()), multiset(items[..])[items[k]])
    {
      ghost var start := States();
      var i := 0;
      while i < items.Length
        invariant 0 <= i <= items.Length
        invariant States() == LegacyAdvanced(start, items[..], i)
      {
        VisitOldAt(i);
        LegacyAdvancedOneMore(start, items[..], i);
        i := i + 1;
      }
      assert items[..items.Length] == items[..];
    }

    /** One iteration of UpdateQuality_Old's loop: every position holding the
        object at position i gets one legacy day. */
    method VisitOldAt(i: nat)
      requires i < items.Length
      modifies items[i]
      ensures States() == LegacyVisited(old(States()), items[..], i)
    {
      var item := items[i];
      UpdateItemOld(item);
      assert forall k | 0 <= k < items.Length && items[k] != item :: items[k].State() == old(items[k].State());
    }

    /** The body of UpdateQuality_Old's loop for the item at the current index. */
    method UpdateItemOld(item: Item)
      modifies item
      ensures item.State() == LegacyStep(old(item.State()))
    {
      if item.name != "Aged Brie" && item.name != "Backstage passes to a TAFKAL80ETC concert" {
        if item.quality > 0 {
          if item.name != "Sulfuras, Hand of Ragnaros" {
            item.quality := item.quality - 1;
          }
        }
      } else {
        if item.quality < 50 {
          item.quality := item.quality + 1;
          if item.name == "Backstage passes to a TAFKAL80ETC concert" {
            if item.sellIn < 11 {
              if item.quality < 50 {
                item.quality := item.quality + 1;
              }
            }
            if item.sellIn < 6 {
              if item.quality < 50 {
                item.quality := item.quality + 1;
              }
            }
          }
        }
      }
      if item.name != "Sulfuras, Hand of Ragnaros" {
        item.sellIn := item.sellIn - 1;
      }
      if item.sellIn < 0 {
        if item.name != "Aged Brie" {
          if item.name != "Backstage passes to a TAFKAL80ETC concert" {
            if item.quality > 0 {
              if item.name != "Sulfuras, Hand of Ragnaros" {
                item.quality := item.quality - 1;
              }
            }
          } else {
            item.quality := item.quality - item.quality;
          }
        } else {
          if item.quality < 50 {
            item.quality := item.quality + 1;
          }
        }
      }
    }
  }
}
