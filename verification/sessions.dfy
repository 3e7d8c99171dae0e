/** Repeated calls of UpdateQuality on one engine, as the unit tests in
    GildedRoseTests/GildedRoseTest.cs make them: build the engine once, then call
    UpdateQuality once per simulated day. */
module Sessions {
  import opened Naming
  import opened Rules
  import opened Engine
  import opened Properties

  /** n * m, counted out as n additions of m. Sweeps are counted with it so
      that the proofs below need no multiplication. */
  function Times(n: nat, m: nat): nat {
    if n == 0 then 0 else Times(n - 1, m) + m
  }

  /** Times is the product. */
  lemma {:induction false} TimesIsProduct(n: nat, m: nat)
    ensures Times(n, m) == n * m
  {
    if n > 0 {
      TimesIsProduct(n - 1, m);
    }
  }

  /** The states after n sweeps: an object that occurs m times in the list has
      had n * m days. */
  function Swept(start: seq<ItemState>, refs: seq<Item>, n: nat, maxQuality: int): (r: seq<ItemState>)
    requires |start| == |refs|
    ensures |r| == |refs|
  {
    seq(|refs|, k requires 0 <= k < |refs| => Days(start[k], Times(n, multiset(refs)[refs[k]]), maxQuality))
  }

  /** b more days after a days are a + b days. */
  lemma DaysAdd(s: ItemState, a: nat, b: nat, maxQuality: int)
    ensures Days(Days(s, a, maxQuality), b, maxQuality) == Days(s, a + b, maxQuality)
  {
    RepeatSplit(Classify(s.name), s, a, b, maxQuality);
  }

  /** A full sweep gives position k one day per occurrence of its object. */
  lemma AdvancedFull(states: seq<ItemState>, refs: seq<Item>, k: nat, maxQuality: int)
    requires |states| == |refs| && k < |refs|
    ensures Advanced(states, refs, |refs|, maxQuality)[k] == Days(states[k], multiset(refs)[refs[k]], maxQuality)
  {
    assert refs[..|refs|] == refs;
  }

  /** Position k after one more sweep. */
  lemma SweptOneMoreAt(start: seq<ItemState>, refs: seq<Item>, n: nat, k: nat, maxQuality: int)
    requires |start| == |refs| && k < |refs|
    ensures Advanced(Swept(start, refs, n, maxQuality), refs, |refs|, maxQuality)[k] == Swept(start, refs, n + 1, maxQuality)[k]
  {
    var m := multiset(refs)[refs[k]];
    var before := Swept(start, refs, n, maxQuality);
    AdvancedFull(before, refs, k, maxQuality);
    DaysAfter(start[k], before[k], Times(n, m), m, Times(n + 1, m), maxQuality);
  }

  /** DaysAdd with the intermediate state and the total named by the caller. */
  lemma DaysAfter(s: ItemState, mid: ItemState, a: nat, b: nat, total: nat, maxQuality: int)
    requires mid == Days(s, a, maxQuality) && total == a + b
    ensures Days(mid, b, maxQuality) == Days(s, total, maxQuality)
  {
    DaysAdd(s, a, b, maxQuality);
  }

  /** One more sweep turns n sweeps into n + 1, for every list, repeated
      objects included. */
  lemma SweptOneMore(start: seq<ItemState>, refs: seq<Item>, n: nat, maxQuality: int)
    requires |start| == |refs|
    ensures Advanced(Swept(start, refs, n, maxQuality), refs, |refs|, maxQuality) == Swept(start, refs, n + 1, maxQuality)
  {
    forall k | 0 <= k < |refs|
      ensures Advanced(Swept(start, refs, n, maxQuality), refs, |refs|, maxQuality)[k] == Swept(start, refs, n + 1, maxQuality)[k]
    {
      SweptOneMoreAt(start, refs, n, k, maxQuality);
    }
  }

  /** Calls UpdateQuality `days` times. Every item ends `days` days on per
      occurrence in the list; the list and the names are untouched. */
  method RunDays(app: GildedRose, days: nat)
    modifies app, app.ItemSet()
    ensures app.items[..] == old(app.items[..])
    ensures app.States() == Swept(old(app.States()), app.items[..], days, app.maxQuality)
  {
    ghost var start := app.States();
    var j := 0;
    while j < days
      invariant 0 <= j <= days
      invariant app.items[..] == old(app.items[..])
      invariant app.States() == Swept(start, app.items[..], j, app.maxQuality)
    {
      app.UpdateQuality();
      SweptOneMore(start, app.items[..], j, app.maxQuality);
      j := j + 1;
    }
  }

  /** In a list without repeated objects, `days` sweeps give every item exactly
      `days` days. */
  lemma SweptDistinct(start: seq<ItemState>, refs: seq<Item>, n: nat, maxQuality: int)
    requires |start| == |refs| && Distinct(refs)
    ensures forall k | 0 <= k < |refs| :: Swept(start, refs, n, maxQuality)[k] == Days(start[k], n, maxQuality)
  {
    forall k | 0 <= k < |refs|
      ensures Swept(start, refs, n, maxQuality)[k] == Days(start[k], n, maxQuality)
    {
      DistinctOccursOnce(refs, k);
      TimesIsProduct(n, 1);
    }
  }

  /** One test case: a single item on a fresh engine, advanced `days` days. */
  method RunSingle(name: string, sellIn: int, quality: int, maxQuality: Option<int>, days: nat)
    returns (r: ItemState)
    ensures r == Days(ItemState(name, sellIn, quality), days, CeilingOrDefault(maxQuality))
  {
    var item := new Item(name, sellIn, quality);
    var items := new Item[1](_ => item);
    var app := new GildedRose(items, maxQuality);
    assert items[..] == [item];
    RunDays(app, days);
    assert multiset(items[..])[item] == 1;
    TimesIsProduct(days, 1);
    r := item.State();
  }
}
