/**
 Finding matching delimiters and splitting at top-level separators, on text whose string
 literals have been blanked.
 */
module Delimiters {
  import opened Wrappers
  import opened Lexers

  function Weight(c: char, opening: char, closing: char): int {
    if c == opening then 1 else if c == closing then -1 else 0
  }

  /** How many more delimiters open than close in `s[i..j]`. */
  function Depth(s: string, i: nat, j: nat, opening: char, closing: char): int
    requires j <= |s|
  {
    if i >= j then 0 else Depth(s, i, j - 1, opening, closing) + Weight(s[j - 1], opening, closing)
  }

  lemma {:induction false} DepthSplits(s: string, i: nat, j: nat, k: nat, opening: char, closing: char)
    requires i <= j <= k <= |s|
    ensures Depth(s, i, k, opening, closing) == Depth(s, i, j, opening, closing) + Depth(s, j, k, opening, closing)
    decreases k
  {
    if j < k {
      DepthSplits(s, i, j, k - 1, opening, closing);
    }
  }

  predicate Closes(s: string, start: nat, k: nat, opening: char, closing: char) {
    start <= k < |s| && opening != closing && s[k] == closing && Depth(s, start, k + 1, opening, closing) == 0
  }

  predicate Opens(s: string, k: nat, end: nat, opening: char, closing: char) {
    k <= end < |s| && opening != closing && s[k] == opening && Depth(s, k, end + 1, opening, closing) == 0
  }

  /** `r` is the first delimiter that closes what is open from `start` on, if there is one. */
  ghost predicate IsClosing(s: string, start: nat, opening: char, closing: char, r: Option<nat>) {
    match r
    case Some(k) =>
      Closes(s, start, k, opening, closing) && forall j :: start <= j < k ==> !Closes(s, start, j, opening, closing)
    case None => forall j :: start <= j < |s| ==> !Closes(s, start, j, opening, closing)
  }

  /** `r` is the last delimiter that opens what is closed up to `end`, if there is one. */
  ghost predicate IsOpening(s: string, end: nat, opening: char, closing: char, r: Option<nat>) {
    match r
    case Some(k) =>
      Opens(s, k, end, opening, closing) && forall j :: k < j <= end ==> !Opens(s, j, end, opening, closing)
    case None => forall j :: 0 <= j <= end ==> !Opens(s, j, end, opening, closing)
  }

  method MatchingDelimiter(masked: string, start: nat, opening: char, closing: char) returns (r: Option<nat>)
    ensures IsClosing(masked, start, opening, closing, r)
  {
    var depth, index := 0, start;
    while index < |masked|
      invariant index <= |masked| || index == start
      invariant start <= index
      invariant index <= |masked| ==> depth == Depth(masked, start, index, opening, closing)
      invariant forall j :: start <= j < index && j < |masked| ==> !Closes(masked, start, j, opening, closing)
    {
      var c := masked[index];
      if c == opening {
        depth := depth + 1;
      } else if c == closing {
        depth := depth - 1;
        if depth == 0 {
          return Some(index);
        }
      }
      index := index + 1;
    }
    return None;
  }

  method MatchingOpeningDelimiter(masked: string, end: nat, opening: char, closing: char) returns (r: Option<nat>)
    requires end < |masked|
    ensures IsOpening(masked, end, opening, closing, r)
  {
    var depth, index: int := 0, end;
    while index >= 0
      invariant -1 <= index <= end
      invariant opening != closing ==> depth == -Depth(masked, index + 1, end + 1, opening, closing)
      invariant opening == closing ==> depth >= 0
      invariant forall j :: index < j <= end ==> !Opens(masked, j, end, opening, closing)
    {
      var c := masked[index];
      DepthSplits(masked, index, index + 1, end + 1, opening, closing);
      if c == closing {
        depth := depth + 1;
      } else if c == opening {
        depth := depth - 1;
        if depth == 0 {
          return Some(index);
        }
      }
      index := index - 1;
    }
    return None;
  }

  /** Before its closing delimiter, an open one stays open. */
  lemma {:induction false} StaysOpen(s: string, start: nat, k: nat, j: nat, opening: char, closing: char)
    requires start < j <= k <= |s| && opening != closing && s[start] == opening
    requires forall p :: start <= p < k ==> !Closes(s, start, p, opening, closing)
    ensures Depth(s, start, j, opening, closing) > 0
    decreases j
  {
    if j == start + 1 {
      assert Depth(s, start, start, opening, closing) == 0;
    } else {
      StaysOpen(s, start, k, j - 1, opening, closing);
      assert !Closes(s, start, j - 1, opening, closing);
    }
  }

  /** The delimiter that closes an opening one is, read backwards, opened by it. */
  lemma MatchingGoesBack(s: string, start: nat, k: nat, opening: char, closing: char)
    requires start < |s| && s[start] == opening
    requires IsClosing(s, start, opening, closing, Some(k))
    ensures IsOpening(s, k, opening, closing, Some(start))
  {
    forall j | start < j <= k ensures !Opens(s, j, k, opening, closing) {
      StaysOpen(s, start, k, j, opening, closing);
      DepthSplits(s, start, j, k + 1, opening, closing);
    }
  }

  /** Once the depth from `j` has fallen below zero, `j`'s closing delimiter lies before. */
  lemma {:induction false} ClosedBefore(s: string, j: nat, e: nat, opening: char, closing: char) returns (k: nat)
    requires j < e <= |s| && opening != closing && s[j] == opening && Depth(s, j, e, opening, closing) <= 0
    ensures j < k < e && IsClosing(s, j, opening, closing, Some(k))
    decreases e
  {
    assert Depth(s, j, j, opening, closing) == 0;
    if p :| j <= p < e - 1 && Closes(s, j, p, opening, closing) {
      k := ClosedBefore(s, j, p + 1, opening, closing);
    } else {
      if j + 1 < e {
        StaysOpen(s, j, e - 1, e - 1, opening, closing);
      }
      k := e - 1;
    }
  }

  /** Matched pairs nest: what opens between a pair closes before the pair does. */
  lemma PairsNest(s: string, start: nat, k: nat, j: nat, opening: char, closing: char)
    requires start < j < k && s != [] && IsClosing(s, start, opening, closing, Some(k))
    requires s[start] == opening == s[j]
    ensures exists q :: j < q < k && IsClosing(s, j, opening, closing, Some(q))
  {
    StaysOpen(s, start, k, j, opening, closing);
    DepthSplits(s, start, j, k + 1, opening, closing);
    var q := ClosedBefore(s, j, k + 1, opening, closing);
    assert Depth(s, j, q + 1, opening, closing) == 0;
  }

  // ---------------------------------------------------------------- splitting at the top level

  predicate IsBracket(c: char) {
    c in "()[]{}"
  }

  predicate TopLevel(s: string, i: nat, separator: char)
    requires i < |s|
  {
    s[i] == separator && !IsBracket(separator)
    && Depth(s, 0, i, '(', ')') == Depth(s, 0, i, '[', ']') == Depth(s, 0, i, '{', '}') == 0
  }

  datatype Part = Part(text: string, masked: string)

  function Split(text: string, masked: string, separator: char, start: nat, i: nat): seq<Part>
    requires start <= i <= |masked| == |text|
    decreases |masked| - i
  {
    if i == |masked| then [Part(text[start..], masked[start..])]
    else if TopLevel(masked, i, separator) then
      [Part(text[start..i], masked[start..i])] + Split(text, masked, separator, i + 1, i + 1)
    else Split(text, masked, separator, start, i + 1)
  }

  method SplitTopLevel(text: string, masked: string, separator: char) returns (parts: seq<Part>)
    requires |text| == |masked|
    ensures parts == Split(text, masked, separator, 0, 0)
  {
    parts := [];
    var start, index := 0, 0;
    var paren, bracket, brace := 0, 0, 0;
    while index < |masked|
      invariant start <= index <= |masked|
      invariant paren == Depth(masked, 0, index, '(', ')')
      invariant bracket == Depth(masked, 0, index, '[', ']')
      invariant brace == Depth(masked, 0, index, '{', '}')
      invariant parts + Split(text, masked, separator, start, index) == Split(text, masked, separator, 0, 0)
    {
      var c := masked[index];
      ghost var before, rest := parts, Split(text, masked, separator, start, index);
      if c == '(' {
        paren := paren + 1;
      } else if c == ')' {
        paren := paren - 1;
      } else if c == '[' {
        bracket := bracket + 1;
      } else if c == ']' {
        bracket := bracket - 1;
      } else if c == '{' {
        brace := brace + 1;
      } else if c == '}' {
        brace := brace - 1;
      } else if c == separator && paren == bracket == brace == 0 {
        parts := parts + [Part(text[start..index], masked[start..index])];
        start := index + 1;
      }
      index := index + 1;
      assert before + rest == parts + Split(text, masked, separator, start, index);
    }
    parts := parts + [Part(text[start..], masked[start..])];
  }

  function JoinText(parts: seq<Part>, separator: char): string {
    if parts == [] then ""
    else if |parts| == 1 then parts[0].text
    else parts[0].text + [separator] + JoinText(parts[1..], separator)
  }

  function JoinMasked(parts: seq<Part>, separator: char): string {
    if parts == [] then ""
    else if |parts| == 1 then parts[0].masked
    else parts[0].masked + [separator] + JoinMasked(parts[1..], separator)
  }

  lemma {:induction false} SplitJoins(text: string, masked: string, separator: char, start: nat, i: nat)
    requires start <= i <= |masked| && Blanks(masked, text) && separator != ' '
    ensures var parts := Split(text, masked, separator, start, i);
      parts != [] && JoinText(parts, separator) == text[start..] && JoinMasked(parts, separator) == masked[start..]
    decreases |masked| - i
  {
    if i < |masked| {
      if TopLevel(masked, i, separator) {
        SplitJoins(text, masked, separator, i + 1, i + 1);
        assert text[start..] == text[start..i] + [text[i]] + text[i + 1..];
        assert masked[start..] == masked[start..i] + [masked[i]] + masked[i + 1..];
      } else {
        SplitJoins(text, masked, separator, start, i + 1);
      }
    }
  }

  /** Nothing is lost: joining the parts gives the text, and its masked form, back. */
  lemma JoinUndoesSplit(text: string, masked: string, separator: char)
    requires Blanks(masked, text) && separator != ' '
    ensures JoinText(Split(text, masked, separator, 0, 0), separator) == text
    ensures JoinMasked(Split(text, masked, separator, 0, 0), separator) == masked
  {
    SplitJoins(text, masked, separator, 0, 0);
    assert text[0..] == text && masked[0..] == masked;
  }

  predicate Level(s: string, i: nat)
    requires i <= |s|
  {
    Depth(s, 0, i, '(', ')') == Depth(s, 0, i, '[', ']') == Depth(s, 0, i, '{', '}') == 0
  }

  lemma {:induction false} DepthOfSlice(s: string, from: nat, to: nat, j: nat, opening: char, closing: char)
    requires from <= to <= |s| && j <= to - from
    ensures Depth(s[from..to], 0, j, opening, closing) == Depth(s, from, from + j, opening, closing)
  {
    if j > 0 {
      DepthOfSlice(s, from, to, j - 1, opening, closing);
    }
  }

  lemma SliceIsAsDeep(s: string, from: nat, to: nat, j: nat, opening: char, closing: char)
    requires from <= to <= |s| && j <= to - from && Depth(s, 0, from, opening, closing) == 0
    ensures Depth(s[from..to], 0, j, opening, closing) == Depth(s, 0, from + j, opening, closing)
  {
    DepthOfSlice(s, from, to, j, opening, closing);
    DepthSplits(s, 0, from, from + j, opening, closing);
  }

  lemma SliceHasSameTopLevel(s: string, from: nat, to: nat, j: nat, separator: char)
    requires from <= to <= |s| && j < to - from && Level(s, from)
    ensures TopLevel(s[from..to], j, separator) == TopLevel(s, from + j, separator)
  {
    SliceIsAsDeep(s, from, to, j, '(', ')');
    SliceIsAsDeep(s, from, to, j, '[', ']');
    SliceIsAsDeep(s, from, to, j, '{', '}');
  }

  predicate Indivisible(p: Part, separator: char) {
    |p.text| == |p.masked| && forall j :: 0 <= j < |p.masked| ==> !TopLevel(p.masked, j, separator)
  }

  lemma PieceIsIndivisible(text: string, masked: string, separator: char, start: nat, i: nat)
    requires start <= i <= |masked| == |text| && Level(masked, start)
    requires forall j :: start <= j < i ==> !TopLevel(masked, j, separator)
    ensures Indivisible(Part(text[start..i], masked[start..i]), separator)
  {
    forall j | 0 <= j < i - start ensures !TopLevel(masked[start..i], j, separator) {
      SliceHasSameTopLevel(masked, start, i, j, separator);
    }
  }

  lemma SeparatorKeepsLevel(s: string, i: nat, separator: char)
    requires i < |s| && TopLevel(s, i, separator)
    ensures Level(s, i + 1)
  {
  }

  lemma {:induction false} PartsAreIndivisible(text: string, masked: string, separator: char, start: nat, i: nat)
    requires start <= i <= |masked| == |text| && Level(masked, start)
    requires forall j :: start <= j < i ==> !TopLevel(masked, j, separator)
    ensures forall p :: p in Split(text, masked, separator, start, i) ==> Indivisible(p, separator)
    decreases |masked| - i
  {
    PieceIsIndivisible(text, masked, separator, start, i);
    if i == |masked| {
      assert text[start..] == text[start..i] && masked[start..] == masked[start..i];
    } else if TopLevel(masked, i, separator) {
      SeparatorKeepsLevel(masked, i, separator);
      PartsAreIndivisible(text, masked, separator, i + 1, i + 1);
    } else {
      PartsAreIndivisible(text, masked, separator, start, i + 1);
    }
  }

  lemma {:induction false} IndivisibleIsOnePart(p: Part, separator: char, i: nat)
    requires Indivisible(p, separator) && i <= |p.masked|
    ensures Split(p.text, p.masked, separator, 0, i) == [p]
    decreases |p.masked| - i
  {
    if i < |p.masked| {
      IndivisibleIsOnePart(p, separator, i + 1);
    }
  }

  /** Every separator outside brackets was used: splitting a part again gives the part alone. */
  lemma PartsSplitNoFurther(text: string, masked: string, separator: char, p: Part)
    requires |text| == |masked| && p in Split(text, masked, separator, 0, 0)
    ensures |p.text| == |p.masked| && Split(p.text, p.masked, separator, 0, 0) == [p]
  {
    PartsAreIndivisible(text, masked, separator, 0, 0);
    IndivisibleIsOnePart(p, separator, 0);
  }
}
