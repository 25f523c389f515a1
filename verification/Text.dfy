/**
 The string operations the rest of the model relies on: trimming, lower-casing, equality
 under case folding and splitting into fields, over `seq<char>`.

 White space is the Unicode `White_Space` set used by Go's `strings.TrimSpace`; lower-casing
 is the ASCII part of Go's `strings.ToLower`.
 */
module Text {

  predicate IsSpace(c: char) {
    || '\U{0009}' <= c <= '\U{000D}'
    || c == ' ' || c == '\U{0085}' || c == '\U{00A0}' || c == '\U{1680}'
    || '\U{2000}' <= c <= '\U{200A}'
    || c == '\U{2028}' || c == '\U{2029}' || c == '\U{202F}' || c == '\U{205F}' || c == '\U{3000}'
  }

  function TrimLeft(s: string): (r: string)
    ensures |r| <= |s|
  {
    if s != "" && IsSpace(s[0]) then TrimLeft(s[1..]) else s
  }

  function TrimRight(s: string): string {
    if s != "" && IsSpace(s[|s| - 1]) then TrimRight(s[..|s| - 1]) else s
  }

  /** Neither end is white space. */
  predicate Trimmed(s: string) {
    s == "" || (!IsSpace(s[0]) && !IsSpace(s[|s| - 1]))
  }

  function TrimSpace(s: string): string {
    TrimRight(TrimLeft(s))
  }

  lemma {:induction false} TrimLeftCuts(s: string)
    ensures TrimLeft(s) == s[|s| - |TrimLeft(s)|..]
    ensures TrimLeft(s) == "" || !IsSpace(TrimLeft(s)[0])
  {
    if s != "" && IsSpace(s[0]) {
      TrimLeftCuts(s[1..]);
    }
  }

  lemma {:induction false} TrimRightCuts(s: string)
    ensures TrimRight(s) <= s
    ensures TrimRight(s) == "" || !IsSpace(TrimRight(s)[|TrimRight(s)| - 1])
  {
    if s != "" && IsSpace(s[|s| - 1]) {
      TrimRightCuts(s[..|s| - 1]);
    }
  }

  /** Trimming cuts both ends down to a trimmed string and leaves a trimmed string alone. */
  lemma TrimSpaceTrims(s: string)
    ensures Trimmed(TrimSpace(s))
    ensures Trimmed(s) ==> TrimSpace(s) == s
  {
    TrimLeftCuts(s);
    TrimRightCuts(TrimLeft(s));
  }

  function LowerChar(c: char): char {
    if 'A' <= c <= 'Z' then (c as int - 'A' as int + 'a' as int) as char else c
  }

  function ToLower(s: string): string {
    seq(|s|, i requires 0 <= i < |s| => LowerChar(s[i]))
  }

  predicate Lowered(s: string) {
    forall i :: 0 <= i < |s| ==> LowerChar(s[i]) == s[i]
  }

  lemma ToLowerLowers(s: string)
    ensures Lowered(ToLower(s))
    ensures Lowered(s) ==> ToLower(s) == s
  {
  }

  lemma TrimSpaceKeepsLowered(s: string)
    requires Lowered(s)
    ensures Lowered(TrimSpace(s))
  {
    TrimLeftCuts(s);
    TrimRightCuts(TrimLeft(s));
  }

  /** Normalising a normal form again changes nothing. */
  lemma NormalFormIsStable(s: string)
    ensures TrimSpace(ToLower(TrimSpace(ToLower(s)))) == TrimSpace(ToLower(s))
  {
    ToLowerLowers(s);
    TrimSpaceKeepsLowered(ToLower(s));
    ToLowerLowers(TrimSpace(ToLower(s)));
    TrimSpaceTrims(ToLower(s));
    TrimSpaceTrims(TrimSpace(ToLower(s)));
  }

  function FirstNonEmpty(a: string, b: string): string {
    if a != "" then a else b
  }

  predicate EqualFold(a: string, b: string) {
    ToLower(a) == ToLower(b)
  }

  /** The maximal runs of non-space characters, in order. */
  function Fields(s: string): (r: seq<string>)
    ensures forall f :: f in r ==> IsWord(f)
    decreases |s|
  {
    TrimLeftCuts(s);
    var t := TrimLeft(s);
    if t == "" then []
    else
      var n := WordLength(t);
      [t[..n]] + Fields(t[n..])
  }

  /** Non-empty and without white space. */
  predicate IsWord(s: string) {
    s != "" && forall i :: 0 <= i < |s| ==> !IsSpace(s[i])
  }

  function WordLength(s: string): (n: nat)
    ensures n <= |s| && forall i :: 0 <= i < n ==> !IsSpace(s[i])
    ensures n == |s| || IsSpace(s[n])
    ensures s != "" && !IsSpace(s[0]) ==> n > 0
  {
    if s == "" || IsSpace(s[0]) then 0 else 1 + WordLength(s[1..])
  }

  /** Words separated by single blanks. */
  function Joined(words: seq<string>): string {
    if words == [] then "" else if |words| == 1 then words[0] else words[0] + " " + Joined(words[1..])
  }

  predicate AreWords(words: seq<string>) {
    forall w :: w in words ==> IsWord(w)
  }

  lemma {:induction false} WordEnds(w: string, rest: string)
    requires (forall i :: 0 <= i < |w| ==> !IsSpace(w[i])) && (rest == "" || IsSpace(rest[0]))
    ensures WordLength(w + rest) == |w|
  {
    if w == "" {
      assert w + rest == rest;
    } else {
      assert (w + rest)[1..] == w[1..] + rest;
      WordEnds(w[1..], rest);
    }
  }

  lemma FirstField(w: string, rest: string)
    requires IsWord(w) && (rest == "" || IsSpace(rest[0]))
    ensures Fields(w + rest) == [w] + Fields(rest)
  {
    var s := w + rest;
    assert s[0] == w[0] && TrimLeft(s) == s;
    WordEnds(w, rest);
    assert s[..|w|] == w && s[|w|..] == rest;
  }

  lemma BlankIsSkipped(s: string)
    ensures Fields(" " + s) == Fields(s)
  {
    assert (" " + s)[1..] == s;
  }

  /** Splitting undoes joining. */
  lemma {:induction false} FieldsOfJoined(words: seq<string>)
    requires AreWords(words)
    ensures Fields(Joined(words)) == words
  {
    if words != [] {
      assert words[0] in words;
      if |words| == 1 {
        FirstField(words[0], "");
        assert words[0] + "" == words[0];
      } else {
        FieldsOfJoined(words[1..]);
        BlankIsSkipped(Joined(words[1..]));
        FirstField(words[0], " " + Joined(words[1..]));
        assert Joined(words) == words[0] + (" " + Joined(words[1..]));
      }
      assert words == [words[0]] + words[1..];
    }
  }

  lemma {:induction false} JoinedIsTrimmed(words: seq<string>)
    requires AreWords(words)
    ensures Trimmed(Joined(words)) && (words != [] ==> Joined(words) != "")
  {
    if words != [] {
      assert words[0] in words;
      if |words| > 1 {
        JoinedIsTrimmed(words[1..]);
        var rest := Joined(words[1..]);
        assert Joined(words)[0] == words[0][0];
        assert Joined(words)[|Joined(words)| - 1] == rest[|rest| - 1];
      }
    }
  }

  /** Decimal digits of a number, as `fmt.Sprintf("%d", n)` prints them. */
  function Decimal(n: int): string
    decreases if n < 0 then 1 - n else n
  {
    if n < 0 then "-" + Decimal(-n)
    else if n < 10 then [('0' as int + n) as char]
    else Decimal(n / 10) + [('0' as int + n % 10) as char]
  }

  /** Byte-wise lexicographic order, `<=` on Go strings. */
  predicate StringLeq(a: string, b: string) {
    a == "" || (b != "" && (a[0] < b[0] || (a[0] == b[0] && StringLeq(a[1..], b[1..]))))
  }

  lemma {:induction false} StringLeqTotal(a: string, b: string)
    ensures StringLeq(a, b) || StringLeq(b, a)
    ensures StringLeq(a, b) && StringLeq(b, a) ==> a == b
  {
    if a != "" && b != "" && a[0] == b[0] {
      StringLeqTotal(a[1..], b[1..]);
      assert a == [a[0]] + a[1..] && b == [b[0]] + b[1..];
    }
  }

  lemma {:induction false} StringLeqTransitive(a: string, b: string, c: string)
    requires StringLeq(a, b) && StringLeq(b, c)
    ensures StringLeq(a, c)
  {
    if a != "" && a[0] == b[0] == c[0] {
      StringLeqTransitive(a[1..], b[1..], c[1..]);
    }
  }
}
