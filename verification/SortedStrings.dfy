/** Sorting strings: a sorted list is determined by its contents. */
module SortedStrings {
  import opened Text
  import opened Wrappers
  import Sorting

  predicate Sorted(s: seq<string>) {
    Sorting.Sorted(StringLeq, s)
  }

  function Sort(s: seq<string>): seq<string> {
    Sorting.Sort(StringLeq, s)
  }

  lemma StringsAreOrdered()
    ensures Sorting.Preorder(StringLeq)
  {
    forall a, b ensures StringLeq(a, b) || StringLeq(b, a) {
      StringLeqTotal(a, b);
    }
    forall a, b, c | StringLeq(a, b) && StringLeq(b, c) ensures StringLeq(a, c) {
      StringLeqTransitive(a, b, c);
    }
  }

  lemma StringsAreSeparate(s: seq<string>)
    ensures Sorting.Separates(StringLeq, s)
  {
    forall x, y | StringLeq(x, y) && StringLeq(y, x) ensures x == y {
      StringLeqTotal(x, y);
    }
  }

  lemma SortSorts(s: seq<string>)
    ensures Sorted(Sort(s)) && multiset(Sort(s)) == multiset(s) && |Sort(s)| == |s|
  {
    StringsAreOrdered();
    Sorting.SortSorts(StringLeq, s);
  }

  /** Sorted lists with the same contents are the same list. */
  lemma SortedIsUnique(a: seq<string>, b: seq<string>)
    requires Sorted(a) && Sorted(b) && multiset(a) == multiset(b)
    ensures a == b
  {
    StringsAreOrdered();
    StringsAreSeparate(a);
    Sorting.OneOrder(StringLeq, a, b);
  }

  /** Sorting depends on the contents alone, and leaves a sorted list alone. */
  lemma SortByContents(a: seq<string>, b: seq<string>)
    ensures Sort(a) == Sort(b) <==> multiset(a) == multiset(b)
    ensures Sorted(a) ==> Sort(a) == a
  {
    SortSorts(a);
    SortSorts(b);
    if multiset(a) == multiset(b) {
      SortedIsUnique(Sort(a), Sort(b));
    }
    if Sorted(a) {
      SortedIsUnique(Sort(a), a);
    }
  }

  // ---------------------------------------------------------------- unique sorted strings

  /** The trimmed, non-empty values. */
  function Values(values: seq<string>): set<string> {
    set v | v in values && TrimSpace(v) != "" :: TrimSpace(v)
  }

  predicate Distinct(s: seq<string>) {
    forall i, j :: 0 <= i < j < |s| ==> s[i] != s[j]
  }

  /** First occurrences of the trimmed non-empty values. */
  function Uniques(values: seq<string>, seen: set<string>): seq<string> {
    if values == [] then []
    else
      var v := TrimSpace(values[0]);
      if v == "" || v in seen then Uniques(values[1..], seen) else [v] + Uniques(values[1..], seen + {v})
  }

  /** No list at all for no values, which is not the same as an empty list for blank ones. */
  function UniqueSorted(values: seq<string>): Option<seq<string>> {
    if values == [] then None else Some(Sort(Uniques(values, {})))
  }

  /** The strings of a list that may be missing. */
  function Listed(list: Option<seq<string>>): seq<string> {
    if list.Some? then list.value else []
  }

  method UniqueSortedStrings(values: seq<string>) returns (list: Option<seq<string>>)
    ensures list == UniqueSorted(values)
  {
    if values == [] {
      return None;
    }
    var out: seq<string>;
    var seen: set<string> := {};
    out := [];
    var i := 0;
    while i < |values|
      invariant i <= |values| && out + Uniques(values[i..], seen) == Uniques(values, {})
    {
      var value := TrimSpace(values[i]);
      ghost var before, rest := out, Uniques(values[i..], seen);
      if value != "" && value !in seen {
        seen := seen + {value};
        out := out + [value];
      }
      i := i + 1;
      assert values[i - 1..][1..] == values[i..];
      assert before + rest == out + Uniques(values[i..], seen);
    }
    assert out == Uniques(values, {});
    list := Some(Sort(out));
  }

  lemma {:induction false} UniquesContents(values: seq<string>, seen: set<string>, x: string)
    ensures x in Uniques(values, seen) <==> x in Values(values) && x !in seen
  {
    if values != [] {
      var v := TrimSpace(values[0]);
      assert values == [values[0]] + values[1..];
      assert x in Values(values) <==> x in Values(values[1..]) || (x == v && v != "");
      UniquesContents(values[1..], seen, x);
      UniquesContents(values[1..], seen + {v}, x);
    }
  }

  lemma {:induction false} UniquesAreDistinct(values: seq<string>, seen: set<string>)
    ensures Distinct(Uniques(values, seen))
  {
    if values != [] {
      var v := TrimSpace(values[0]);
      UniquesAreDistinct(values[1..], seen);
      UniquesAreDistinct(values[1..], seen + {v});
      UniquesContents(values[1..], seen + {v}, v);
    }
  }

  predicate AtMostOnce(m: multiset<string>) {
    forall x :: x in m ==> m[x] == 1
  }

  lemma {:induction false} DistinctOnce(s: seq<string>)
    ensures Distinct(s) <==> AtMostOnce(multiset(s))
  {
    if s != [] {
      DistinctOnce(s[1..]);
      assert s == [s[0]] + s[1..];
      var m, rest := multiset(s), multiset(s[1..]);
      assert m == rest + multiset{s[0]};
      assert s[0] in s[1..] <==> s[0] in rest;
      if AtMostOnce(m) {
        assert m[s[0]] == 1;
        forall x | x in rest ensures rest[x] == 1 {
          assert x in m;
        }
      }
    }
  }

  lemma OnceByContents(a: seq<string>, b: seq<string>)
    requires Distinct(a) && Distinct(b) && forall x :: x in a <==> x in b
    ensures multiset(a) == multiset(b)
  {
    DistinctOnce(a);
    DistinctOnce(b);
    forall x ensures multiset(a)[x] == multiset(b)[x] {
      assert x in multiset(a) <==> x in a;
      assert x in multiset(b) <==> x in b;
    }
  }

  /** The result is sorted, without repetition, and holds exactly the trimmed non-empty values. */
  lemma UniqueSortedIsTheSortedSet(values: seq<string>)
    ensures UniqueSorted(values).Some? <==> values != []
    ensures Sorted(Listed(UniqueSorted(values))) && Distinct(Listed(UniqueSorted(values)))
    ensures forall x :: x in Listed(UniqueSorted(values)) <==> x in Values(values)
  {
    var u, r := Uniques(values, {}), Listed(UniqueSorted(values));
    SortSorts(u);
    UniquesAreDistinct(values, {});
    DistinctOnce(u);
    DistinctOnce(r);
    forall x ensures x in r <==> x in Values(values) {
      if values != [] {
        SameElements(r, u, x);
      }
      UniquesContents(values, {}, x);
    }
  }

  /** Lists give the same result exactly when they have the same trimmed non-empty values and are both present. */
  lemma UniqueSortedByValues(a: seq<string>, b: seq<string>)
    ensures UniqueSorted(a) == UniqueSorted(b) <==> Values(a) == Values(b) && (a == [] <==> b == [])
  {
    UniqueSortedIsTheSortedSet(a);
    UniqueSortedIsTheSortedSet(b);
    var r, q := Listed(UniqueSorted(a)), Listed(UniqueSorted(b));
    if Values(a) == Values(b) {
      OnceByContents(r, q);
      SortedIsUnique(r, q);
    }
    if UniqueSorted(a) == UniqueSorted(b) {
      forall x ensures x in Values(a) <==> x in Values(b) {
        assert x in r <==> x in q;
      }
    }
  }

  lemma ValuesOfResult(values: seq<string>)
    ensures Values(Listed(UniqueSorted(values))) == Values(values)
    ensures Listed(UniqueSorted(values)) == [] <==> Values(values) == {}
  {
    UniqueSortedIsTheSortedSet(values);
    var r := Listed(UniqueSorted(values));
    forall x | x in r ensures TrimSpace(x) == x != "" {
      assert x in Values(values);
      var v :| v in values && TrimSpace(v) == x != "";
      TrimSpaceTrims(v);
      TrimSpaceTrims(x);
    }
    forall x ensures x in Values(r) <==> x in Values(values) {
      if x in Values(values) {
        assert x in r;
      }
    }
    if r != [] {
      assert r[0] in Values(values);
    }
  }

  /** A list that is its own result. */
  predicate Normal(list: seq<string>) {
    Sort(Uniques(list, {})) == list
  }

  lemma ResultIsNormal(values: seq<string>)
    ensures Normal(Listed(UniqueSorted(values)))
  {
    var r := Listed(UniqueSorted(values));
    ValuesOfResult(values);
    if r != [] {
      UniqueSortedByValues(r, values);
    }
  }

  /**
   Normalising the given list together with an earlier result changes nothing, unless the given list
   was missing and the rest of the earlier one was blank: then the empty result goes missing.
   */
  lemma UniqueSortedAbsorbs(a: seq<string>, b: seq<string>)
    ensures UniqueSorted(a + Listed(UniqueSorted(a + b))) == UniqueSorted(a + b) <==> a != [] || b == [] || Values(b) != {}
  {
    ValuesOfResult(a + b);
    var r := Listed(UniqueSorted(a + b));
    assert Values(a + b) == Values(a) + Values(b);
    assert Values(a + r) == Values(a) + Values(r);
    UniqueSortedByValues(a + r, a + b);
    if a == [] {
      assert a + b == b && a + r == r && Values(a) == {};
    }
  }
}
