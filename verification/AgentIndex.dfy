/**
 The short agent listing: entries ranked by score, then cut down to a size limit. How an entry
 scores and how long an encoding is are parameters.
 */
module AgentIndex {
  import opened Sorting
  import opened Text
  import opened Wrappers

  datatype Entry = Entry(kind: string, name: string, details: string)

  datatype Scored = Scored(entry: Entry, score: int, order: nat)

  datatype Dropped = Dropped(kind: string, name: string)

  datatype Index = Index(entries: seq<Entry>, dropped: seq<Dropped>, bytes: nat)

  // ---------------------------------------------------------------- the ranking

  /** Higher scores first, then by kind, name and the order of the input. */
  predicate Before(a: Scored, b: Scored) {
    if a.score != b.score then a.score > b.score
    else if a.entry.kind != b.entry.kind then StringLeq(a.entry.kind, b.entry.kind)
    else if a.entry.name != b.entry.name then StringLeq(a.entry.name, b.entry.name)
    else a.order <= b.order
  }

  lemma BeforeIsTransitive(a: Scored, b: Scored, c: Scored)
    requires Before(a, b) && Before(b, c)
    ensures Before(a, c)
  {
    if a.score == b.score == c.score {
      StringLeqTotal(a.entry.kind, b.entry.kind);
      if a.entry.kind == b.entry.kind == c.entry.kind {
        if a.entry.name != b.entry.name && b.entry.name != c.entry.name {
          StringLeqTransitive(a.entry.name, b.entry.name, c.entry.name);
          StringLeqTotal(a.entry.name, b.entry.name);
        }
      } else if a.entry.kind != b.entry.kind && b.entry.kind != c.entry.kind {
        StringLeqTransitive(a.entry.kind, b.entry.kind, c.entry.kind);
      }
    }
  }

  lemma BeforeIsOrder()
    ensures Preorder(Before)
  {
    forall a, b ensures Before(a, b) || Before(b, a) {
      StringLeqTotal(a.entry.kind, b.entry.kind);
      StringLeqTotal(a.entry.name, b.entry.name);
    }
    forall a, b, c | Before(a, b) && Before(b, c) ensures Before(a, c) {
      BeforeIsTransitive(a, b, c);
    }
  }

  predicate Numbered(s: seq<Scored>) {
    forall i, j :: 0 <= i < j < |s| ==> s[i].order != s[j].order
  }

  lemma NumberedIsSeparate(s: seq<Scored>)
    requires Numbered(s)
    ensures Separates(Before, s)
  {
    forall a, b | a in s && b in s && Before(a, b) && Before(b, a) ensures a == b {
      StringLeqTotal(a.entry.kind, b.entry.kind);
      StringLeqTotal(a.entry.name, b.entry.name);
      var i :| 0 <= i < |s| && s[i] == a;
      var j :| 0 <= j < |s| && s[j] == b;
    }
  }

  // ---------------------------------------------------------------- the limit

  /** The size limit; zero or less means none. */
  function Limit(maxChars: int, maxContextTokens: int): int {
    if maxContextTokens > 0 && (maxChars == 0 || maxContextTokens * 4 < maxChars) then maxContextTokens * 4
    else maxChars
  }

  /** A limit binds when it is positive and the listing obeys it. */
  predicate Obeys(size: int, limit: int) {
    limit > 0 ==> size <= limit
  }

  /**
   Obeying the limit means obeying both the given ones, unless the character limit is negative:
   then a token limit is ignored.
   */
  lemma LimitCombinesBoth(maxChars: int, maxContextTokens: int)
    ensures (forall size :: Obeys(size, Limit(maxChars, maxContextTokens)) <==>
                 Obeys(size, maxChars) && Obeys(size, maxContextTokens * 4))
        <==> (maxChars >= 0 || maxContextTokens <= 0)
  {
    var limit := Limit(maxChars, maxContextTokens);
    if maxChars < 0 && maxContextTokens > 0 {
      var size := maxContextTokens * 4 + 1;
      assert Obeys(size, limit) && Obeys(size, maxChars) && !Obeys(size, maxContextTokens * 4);
    }
  }

  // ---------------------------------------------------------------- cutting to size

  function Entries(s: seq<Scored>): seq<Entry> {
    seq(|s|, i requires 0 <= i < |s| => s[i].entry)
  }

  predicate Fits(size: seq<Entry> -> nat, entries: seq<Entry>, limit: int) {
    limit <= 0 || size(entries) <= limit
  }

  /** How many entries are kept: the longest prefix that fits, but at least one if there is one. */
  ghost predicate IsCut(size: seq<Entry> -> nat, all: seq<Entry>, limit: int, n: nat) {
    n <= |all|
    && (all != [] ==> n > 0)
    && (Fits(size, all[..n], limit) || n <= 1)
    && forall m :: n < m <= |all| ==> !Fits(size, all[..m], limit)
  }

  function Drop(entries: seq<Entry>): seq<Dropped> {
    if entries == [] then []
    else Drop(entries[1..]) + [Dropped(entries[0].kind, entries[0].name)]
  }

  lemma DropLonger(all: seq<Entry>, k: nat)
    requires 0 < k <= |all|
    ensures Drop(all[k - 1..]) == Drop(all[k..]) + [Dropped(all[k - 1].kind, all[k - 1].name)]
  {
    assert all[k - 1..][1..] == all[k..];
  }

  method Cut(size: seq<Entry> -> nat, all: seq<Entry>, limit: int) returns (kept: seq<Entry>, dropped: seq<Dropped>)
    ensures kept <= all && dropped == Drop(all[|kept|..])
    ensures IsCut(size, all, limit, |kept|)
  {
    kept, dropped := all, [];
    assert all[..|all|] == all;
    if limit > 0 {
      while |kept| > 0
        invariant kept == all[..|kept|] && |kept| <= |all|
        invariant all != [] ==> |kept| > 0
        invariant dropped == Drop(all[|kept|..])
        invariant forall m :: |kept| < m <= |all| ==> !Fits(size, all[..m], limit)
        decreases |kept|
      {
        if size(kept) <= limit || |kept| == 1 {
          break;
        }
        var last := kept[|kept| - 1];
        DropLonger(all, |kept|);
        kept := kept[..|kept| - 1];
        dropped := dropped + [Dropped(last.kind, last.name)];
      }
    }
  }

  /** The cut is determined by the entries and the limit. */
  lemma OneCut(size: seq<Entry> -> nat, all: seq<Entry>, limit: int, n: nat, m: nat)
    requires IsCut(size, all, limit, n) && IsCut(size, all, limit, m)
    ensures n == m
  {
  }

  function Labels(entries: seq<Entry>): seq<Dropped> {
    seq(|entries|, i requires 0 <= i < |entries| => Dropped(entries[i].kind, entries[i].name))
  }

  function Reverse(s: seq<Dropped>): seq<Dropped> {
    if s == [] then [] else Reverse(s[1..]) + [s[0]]
  }

  lemma {:induction false} ReverseAppends(s: seq<Dropped>, x: Dropped)
    ensures Reverse(s + [x]) == [x] + Reverse(s)
  {
    if s != [] {
      ReverseAppends(s[1..], x);
      assert (s + [x])[1..] == s[1..] + [x];
    }
  }

  lemma {:induction false} DroppedIsReversed(entries: seq<Entry>)
    ensures Reverse(Drop(entries)) == Labels(entries)
  {
    if entries != [] {
      DroppedIsReversed(entries[1..]);
      ReverseAppends(Drop(entries[1..]), Dropped(entries[0].kind, entries[0].name));
      assert Labels(entries) == [Dropped(entries[0].kind, entries[0].name)] + Labels(entries[1..]);
    }
  }

  /** Nothing is lost: the kept entries and the dropped ones reversed are the ranked list. */
  lemma KeptThenDropped(all: seq<Entry>, n: nat)
    requires n <= |all|
    ensures Labels(all[..n]) + Reverse(Drop(all[n..])) == Labels(all)
  {
    DroppedIsReversed(all[n..]);
    assert all == all[..n] + all[n..];
  }

  /** A longer list has a longer encoding. */
  ghost predicate Growing(size: seq<Entry> -> nat) {
    forall s, t :: s < t ==> size(s) < size(t)
  }

  /** With growing encodings, exactly the prefixes up to the cut fit. */
  lemma CutSeparates(size: seq<Entry> -> nat, all: seq<Entry>, limit: int, n: nat, m: nat)
    requires Growing(size) && IsCut(size, all, limit, n) && 1 < m <= |all|
    ensures Fits(size, all[..m], limit) <==> m <= n
  {
    if m < n {
      assert all[..m] < all[..n];
    }
  }

  // ---------------------------------------------------------------- the index

  function Number(entries: seq<Entry>, score: Entry -> int): seq<Scored> {
    seq(|entries|, i requires 0 <= i < |entries| => Scored(entries[i], score(entries[i]), i))
  }

  function Ranking(entries: seq<Entry>, score: Entry -> int): seq<Scored> {
    Sort(Before, Number(entries, score))
  }

  /** What a listing of the entries is. */
  ghost predicate IsListing(index: Index, entries: seq<Entry>, score: Entry -> int, size: seq<Entry> -> nat, limit: int) {
    var all := Entries(Ranking(entries, score));
    && index.entries <= all && index.dropped == Drop(all[|index.entries|..])
    && IsCut(size, all, limit, |index.entries|)
    && index.bytes == size(index.entries)
  }

  method BuildAgentIndex(entries: seq<Entry>, score: Entry -> int, size: seq<Entry> -> nat, maxChars: int, maxContextTokens: int)
      returns (index: Index)
    ensures IsListing(index, entries, score, size, Limit(maxChars, maxContextTokens))
  {
    var scored: seq<Scored> := [];
    for i := 0 to |entries|
      invariant scored == Number(entries, score)[..i]
    {
      scored := scored + [Scored(entries[i], score(entries[i]), i)];
    }
    assert scored == Number(entries, score);
    var ranked := Sort(Before, scored);
    var all: seq<Entry> := [];
    for i := 0 to |ranked|
      invariant all == Entries(ranked)[..i]
    {
      all := all + [ranked[i].entry];
    }
    assert all == Entries(ranked);
    var kept, dropped := Cut(size, all, Limit(maxChars, maxContextTokens));
    index := Index(kept, dropped, size(kept));
  }

  /** The ranking lists every entry as often as it came, best first, and no other sort differs. */
  lemma RankingIsTheSort(entries: seq<Entry>, score: Entry -> int, other: seq<Scored>)
    ensures var numbered := Number(entries, score);
      (Sorted(Before, other) && multiset(other) == multiset(numbered)) <==> other == Ranking(entries, score)
  {
    var numbered := Number(entries, score);
    BeforeIsOrder();
    SortSorts(Before, numbered);
    if Sorted(Before, other) && multiset(other) == multiset(numbered) {
      NumberedIsSeparate(numbered);
      forall x ensures x in other <==> x in numbered {
        SameElements(other, numbered, x);
      }
      OneOrder(Before, other, Ranking(entries, score));
    }
  }

  /** Entries, scores and limit leave one listing only. */
  lemma ListingIsDetermined(entries: seq<Entry>, score: Entry -> int, size: seq<Entry> -> nat, limit: int, a: Index, b: Index)
    requires IsListing(a, entries, score, size, limit) && IsListing(b, entries, score, size, limit)
    ensures a == b
  {
    var all := Entries(Ranking(entries, score));
    OneCut(size, all, limit, |a.entries|, |b.entries|);
    assert a.entries == all[..|a.entries|] && b.entries == all[..|b.entries|];
  }
}
