/** How an item's name is read: .NET-style trimming, the exact match against the
    catalogue that yields a category, and the "invalid name" test of ValidateItem. */
module Naming {
  import opened Constants

  /** The closed set of update rules; every name outside the catalogue is a NormalItem. */
  datatype Category = NormalItem | AgedItem | LegendaryItem | ConcertItem | ConjuredItem

  const CatalogNames: set<string> := {AgedBrie, Sulfuras, Backstage, Conjured}

  /** The characters Char.IsWhiteSpace accepts (the Unicode White_Space property).
      Among ASCII characters these are the space and the controls tab, line feed,
      vertical tab, form feed and carriage return; no letter or digit is one. */
  predicate IsWhiteSpace(c: char): (b: bool)
    ensures c < '\U{80}' ==> (b <==> c == ' ' || c == '\t' || c == '\n' || c == '\U{B}' || c == '\U{C}' || c == '\r')
    ensures b ==> c <= ' ' || '\U{85}' <= c
  {
    c == ' ' || ('\t' <= c <= '\r') || c == '\U{85}' || c == '\U{A0}' || c == '\U{1680}'
    || ('\U{2000}' <= c <= '\U{200A}') || c == '\U{2028}' || c == '\U{2029}'
    || c == '\U{202F}' || c == '\U{205F}' || c == '\U{3000}'
  }

  predicate AllWhiteSpace(s: string) {
    forall i | 0 <= i < |s| :: IsWhiteSpace(s[i])
  }

  /** The index of the first non-space character at or after i (|s| if there is none). */
  function SkipLeading(s: string, i: nat): (k: nat)
    requires i <= |s|
    ensures i <= k <= |s|
    ensures forall m | i <= m < k :: IsWhiteSpace(s[m])
    ensures k < |s| ==> !IsWhiteSpace(s[k])
    decreases |s| - i
  {
    if i < |s| && IsWhiteSpace(s[i]) then SkipLeading(s, i + 1) else i
  }

  /** Walking back from j, never below lo: the end of the last non-space character. */
  function SkipTrailing(s: string, lo: nat, j: nat): (k: nat)
    requires lo <= j <= |s|
    ensures lo <= k <= j
    ensures forall m | k <= m < j :: IsWhiteSpace(s[m])
    ensures lo < k ==> !IsWhiteSpace(s[k - 1])
    decreases j
  {
    if lo < j && IsWhiteSpace(s[j - 1]) then SkipTrailing(s, lo, j - 1) else j
  }

  /** String.Trim: the name without its leading and trailing white space. It is
      empty exactly when the name is all white space, and otherwise starts and
      ends with a non-space character. */
  function Trim(s: string): (r: string)
    ensures |r| <= |s|
    ensures r == [] <==> AllWhiteSpace(s)
    ensures r != [] ==> !IsWhiteSpace(r[0]) && !IsWhiteSpace(r[|r| - 1])
  {
    var lo := SkipLeading(s, 0);
    var hi := SkipTrailing(s, lo, |s|);
    s[lo..hi]
  }

  /** Trim removes exactly the white-space padding around a core that is empty
      or starts and ends with a non-space. */
  lemma TrimStripsPadding(pre: string, core: string, post: string)
    requires AllWhiteSpace(pre) && AllWhiteSpace(post)
    requires core == [] || (!IsWhiteSpace(core[0]) && !IsWhiteSpace(core[|core| - 1]))
    ensures Trim(pre + core + post) == core
  {
    var s := pre + core + post;
    var lo := SkipLeading(s, 0);
    var hi := SkipTrailing(s, lo, |s|);
    var a, b := |pre|, |pre| + |core|;
    assert forall m | 0 <= m < a :: s[m] == pre[m];
    assert forall m | b <= m < |s| :: s[m] == post[m - b];
    if core == [] {
      assert forall m | 0 <= m < |s| :: IsWhiteSpace(s[m]);
    } else {
      assert s[a] == core[0] && s[b - 1] == core[|core| - 1];
      assert lo == a;
      assert hi == b;
      assert s[lo..hi] == core;
    }
  }

  lemma AllWhiteSpaceConcat(a: string, b: string)
    requires AllWhiteSpace(a) && AllWhiteSpace(b)
    ensures AllWhiteSpace(a + b)
  {
    forall i | 0 <= i < |a + b| ensures IsWhiteSpace((a + b)[i]) {
      if i >= |a| { assert (a + b)[i] == b[i - |a|]; }
    }
  }

  /** Every name is its trimmed form with white-space padding on either side. */
  lemma TrimSplit(s: string) returns (lead: string, trail: string)
    ensures s == lead + Trim(s) + trail
    ensures AllWhiteSpace(lead) && AllWhiteSpace(trail)
  {
    var lo := SkipLeading(s, 0);
    var hi := SkipTrailing(s, lo, |s|);
    lead, trail := s[..lo], s[hi..];
    assert s == lead + s[lo..hi] + trail;
  }

  lemma Regroup(a: string, b: string, c: string, d: string, e: string)
    ensures a + (b + c + d) + e == (a + b) + c + (d + e)
  {
  }

  /** Trimming ignores any extra white space put around a name. */
  lemma TrimIgnoresPadding(pre: string, s: string, post: string)
    requires AllWhiteSpace(pre) && AllWhiteSpace(post)
    ensures Trim(pre + s + post) == Trim(s)
  {
    var core := Trim(s);
    var lead, trail := TrimSplit(s);
    AllWhiteSpaceConcat(pre, lead);
    AllWhiteSpaceConcat(trail, post);
    Regroup(pre, lead, core, trail, post);
    TrimStripsPadding(pre + lead, core, trail + post);
  }

  /** A name that has no white space at either end is its own trimmed form. */
  lemma TrimUnpadded(s: string)
    requires s == [] || (!IsWhiteSpace(s[0]) && !IsWhiteSpace(s[|s| - 1]))
    ensures Trim(s) == s
  {
    assert AllWhiteSpace([]);
    assert [] + s + [] == s;
    TrimStripsPadding([], s, []);
  }

  /** Trimming twice is trimming once. */
  lemma TrimIdempotent(s: string)
    ensures Trim(Trim(s)) == Trim(s)
  {
    TrimUnpadded(Trim(s));
  }

  /** The catalogue name of each special category. */
  function CatalogName(c: Category): string
    requires c != NormalItem
  {
    match c
    case AgedItem => AgedBrie
    case LegendaryItem => Sulfuras
    case ConcertItem => Backstage
    case ConjuredItem => Conjured
  }

  /** Prerequisite's category choice: the trimmed name matched exactly, case
      included, against the catalogue; anything else is a NormalItem. */
  function Classify(name: string): (c: Category)
    ensures c == NormalItem <==> Trim(name) !in CatalogNames
    ensures c != NormalItem ==> Trim(name) == CatalogName(c)
  {
    var itemName := Trim(name);
    if itemName == AgedBrie then AgedItem
    else if itemName == Sulfuras then LegendaryItem
    else if itemName == Backstage then ConcertItem
    else if itemName == Conjured then ConjuredItem
    else NormalItem
  }

  /** Every catalogue name, written exactly, is classified as its own category. */
  lemma ClassifyCatalogName(c: Category)
    requires c != NormalItem
    ensures Classify(CatalogName(c)) == c
  {
    match c
    case AgedItem => TrimUnpadded(AgedBrie);
    case LegendaryItem => TrimUnpadded(Sulfuras);
    case ConcertItem => TrimUnpadded(Backstage);
    case ConjuredItem => TrimUnpadded(Conjured);
  }

  /** White space around a name never changes its category. */
  lemma ClassifyIgnoresPadding(pre: string, name: string, post: string)
    requires AllWhiteSpace(pre) && AllWhiteSpace(post)
    ensures Classify(pre + name + post) == Classify(name)
  {
    TrimIgnoresPadding(pre, name, post);
  }

  /** The match is case-sensitive: a catalogue name in other letter case is a NormalItem. */
  lemma ClassifyIsCaseSensitive()
    ensures Classify("aged brie") == NormalItem
    ensures Classify("SULFURAS, HAND OF RAGNAROS") == NormalItem
    ensures Classify("conjured mana cake") == NormalItem
  {
    TrimUnpadded("aged brie");
    TrimUnpadded("SULFURAS, HAND OF RAGNAROS");
    TrimUnpadded("conjured mana cake");
  }

  /** ValidateItem's test: the trimmed name is empty or white space only. This holds
      exactly for names made of white space, and such a name is still classified,
      as a NormalItem. */
  function IsInvalidName(name: string): (r: bool)
    ensures r <==> AllWhiteSpace(name)
    ensures r ==> Classify(name) == NormalItem
  {
    var t := Trim(name);
    assert t != [] ==> !IsWhiteSpace(t[0]);
    AllWhiteSpace(t)
  }
}
