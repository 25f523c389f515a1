/**
 The canonical form of a JSON value that is hashed: strings and keys are trimmed, and an array of
 strings is sorted. Keys that collide after trimming overwrite one another in the order the map is
 iterated, which is not fixed; `Normalizes` allows every order.
 */
module HashJson {
  import opened Json
  import opened SortedStrings
  import opened Text
  import opened Wrappers

  predicate AllStrings(items: seq<Json>) {
    forall i :: 0 <= i < |items| ==> items[i].Str?
  }

  function Texts(items: seq<Json>): seq<string>
    requires AllStrings(items)
  {
    seq(|items|, i requires 0 <= i < |items| => items[i].s)
  }

  function Strings(texts: seq<string>): seq<Json> {
    seq(|texts|, i requires 0 <= i < |texts| => Str(texts[i]))
  }

  function SortStrings(items: seq<Json>): seq<Json> {
    if AllStrings(items) then Strings(Sort(Texts(items))) else items
  }

  function TrimmedKeys(fields: map<string, Json>): set<string> {
    set k | k in fields :: TrimSpace(k)
  }

  /** `r` may be the result of normalising `v`. */
  ghost predicate Normalizes(v: Json, r: Json)
    decreases v
  {
    match v
    case Obj(fields) =>
      && r.Obj? && r.fields.Keys == TrimmedKeys(fields)
      && forall t :: t in r.fields ==> exists k :: k in fields && TrimSpace(k) == t && Normalizes(fields[k], r.fields[t])
    case Arr(items) =>
      exists mid: seq<Json> :: |mid| == |items| && r == Arr(SortStrings(mid))
        && forall i :: 0 <= i < |items| ==> Normalizes(items[i], mid[i])
    case Str(s) => r == Str(TrimSpace(s))
    case _ => r == v
  }

  method NormalizeHashJson(v: Json) returns (r: Json)
    ensures Normalizes(v, r)
    decreases v
  {
    match v
    case Obj(fields) =>
      var out: map<string, Json> := map[];
      var left := fields.Keys;
      while left != {}
        invariant left <= fields.Keys
        invariant out.Keys == set k | k in fields.Keys - left :: TrimSpace(k)
        invariant forall t :: t in out ==> exists k :: k in fields && TrimSpace(k) == t && Normalizes(fields[k], out[t])
      {
        var key :| key in left;
        var item := NormalizeHashJson(fields[key]);
        out := out[TrimSpace(key) := item];
        left := left - {key};
      }
      assert fields.Keys - {} == fields.Keys;
      r := Obj(out);
    case Arr(items) =>
      var out: seq<Json> := [];
      var allStrings := true;
      for i := 0 to |items|
        invariant |out| == i && forall j :: 0 <= j < i ==> Normalizes(items[j], out[j])
        invariant allStrings == AllStrings(out)
      {
        var normalized := NormalizeHashJson(items[i]);
        if !normalized.Str? {
          allStrings := false;
        }
        out := out + [normalized];
      }
      r := Arr(if allStrings then SortStrings(out) else out);
      assert r == Arr(SortStrings(out));
    case Str(s) =>
      r := Str(TrimSpace(s));
    case _ =>
      r := v;
  }

  // ---------------------------------------------------------------- results are fixed points

  /** Strings and keys are trimmed, and arrays of strings sorted, at every depth. */
  predicate Canonical(v: Json)
    decreases v
  {
    match v
    case Obj(fields) => forall k :: k in fields ==> Trimmed(k) && Canonical(fields[k])
    case Arr(items) =>
      && (AllStrings(items) ==> Sorted(Texts(items)))
      && forall i :: 0 <= i < |items| ==> Canonical(items[i])
    case Str(s) => Trimmed(s)
    case _ => true
  }

  lemma TextsOfStrings(texts: seq<string>)
    ensures AllStrings(Strings(texts)) && Texts(Strings(texts)) == texts
  {
  }

  lemma SortedStringsAreCanonical(mid: seq<Json>)
    requires forall i :: 0 <= i < |mid| ==> Canonical(mid[i])
    ensures Canonical(Arr(SortStrings(mid)))
  {
    if AllStrings(mid) {
      var texts := Texts(mid);
      SortSorts(texts);
      TextsOfStrings(Sort(texts));
      forall i | 0 <= i < |texts| ensures Trimmed(Sort(texts)[i]) {
        SameElements(Sort(texts), texts, Sort(texts)[i]);
      }
    }
  }

  /** Whatever the order of iteration, the result is canonical. */
  lemma {:induction false} ResultIsCanonical(v: Json, r: Json)
    requires Normalizes(v, r)
    ensures Canonical(r)
    decreases v
  {
    match v
    case Obj(fields) =>
      forall t | t in r.fields ensures Trimmed(t) && Canonical(r.fields[t]) {
        var k :| k in fields && TrimSpace(k) == t && Normalizes(fields[k], r.fields[t]);
        TrimSpaceTrims(k);
        ResultIsCanonical(fields[k], r.fields[t]);
      }
    case Arr(items) =>
      var mid: seq<Json> :| |mid| == |items| && r == Arr(SortStrings(mid))
        && forall i :: 0 <= i < |items| ==> Normalizes(items[i], mid[i]);
      forall i | 0 <= i < |mid| ensures Canonical(mid[i]) {
        ResultIsCanonical(items[i], mid[i]);
      }
      SortedStringsAreCanonical(mid);
    case Str(s) =>
      TrimSpaceTrims(s);
    case _ =>
  }

  lemma CanonicalKeys(fields: map<string, Json>)
    requires Canonical(Obj(fields))
    ensures TrimmedKeys(fields) == fields.Keys
    ensures forall k :: k in fields ==> TrimSpace(k) == k
  {
    forall k | k in fields ensures TrimSpace(k) == k {
      TrimSpaceTrims(k);
    }
    forall k ensures k in TrimmedKeys(fields) <==> k in fields.Keys {
      if k in fields {
        assert TrimSpace(k) in TrimmedKeys(fields);
      }
    }
  }

  lemma SortedStaysSorted(items: seq<Json>)
    requires Canonical(Arr(items))
    ensures SortStrings(items) == items
  {
    if AllStrings(items) {
      SortByContents(Texts(items), Texts(items));
    }
  }

  lemma {:induction false} CanonicalIsFixed(v: Json, r: Json)
    requires Canonical(v)
    ensures Normalizes(v, r) <==> r == v
    decreases v
  {
    match v
    case Obj(fields) =>
      CanonicalKeys(fields);
      forall k | k in fields ensures Normalizes(fields[k], fields[k]) {
        CanonicalIsFixed(fields[k], fields[k]);
      }
      if Normalizes(v, r) {
        forall t | t in r.fields ensures r.fields[t] == fields[t] {
          CanonicalIsFixed(fields[t], r.fields[t]);
        }
        assert r.fields == fields;
      }
    case Arr(items) =>
      SortedStaysSorted(items);
      forall i | 0 <= i < |items| ensures Normalizes(items[i], items[i]) {
        CanonicalIsFixed(items[i], items[i]);
      }
      if Normalizes(v, r) {
        var mid: seq<Json> :| |mid| == |items| && r == Arr(SortStrings(mid))
          && forall i :: 0 <= i < |items| ==> Normalizes(items[i], mid[i]);
        forall i | 0 <= i < |items| ensures mid[i] == items[i] {
          CanonicalIsFixed(items[i], mid[i]);
        }
        assert mid == items;
      }
    case Str(s) =>
      TrimSpaceTrims(s);
    case _ =>
  }

  /** Normalising what was normalised changes nothing, for every tree and every order of iteration. */
  lemma NormalizingIsIdempotent(v: Json, r: Json, again: Json)
    requires Normalizes(v, r)
    ensures Normalizes(r, again) <==> again == r
  {
    ResultIsCanonical(v, r);
    CanonicalIsFixed(r, again);
  }

  // ---------------------------------------------------------------- which trees hash alike

  function TrimmedTexts(items: seq<Json>): seq<string>
    requires AllStrings(items)
  {
    seq(|items|, i requires 0 <= i < |items| => TrimSpace(items[i].s))
  }

  /**
   The trees differ only in white space around strings and keys and in the order of arrays of
   strings. Keys that collide within one tree must hold similar values.
   */
  predicate Similar(v: Json, w: Json)
    decreases v
  {
    match v
    case Obj(fields) =>
      && w.Obj? && TrimmedKeys(fields) == TrimmedKeys(w.fields)
      && forall k :: k in fields ==> forall l :: l in w.fields ==> TrimSpace(k) == TrimSpace(l) ==> Similar(fields[k], w.fields[l])
    case Arr(items) =>
      && w.Arr? && |items| == |w.items| && AllStrings(items) == AllStrings(w.items)
      && (if AllStrings(items) then multiset(TrimmedTexts(items)) == multiset(TrimmedTexts(w.items))
          else forall i :: 0 <= i < |items| ==> Similar(items[i], w.items[i]))
    case Str(s) => w.Str? && TrimSpace(s) == TrimSpace(w.s)
    case _ => v == w
  }

  ghost predicate NormalizeAll(items: seq<Json>, mid: seq<Json>) {
    |mid| == |items| && forall i :: 0 <= i < |items| ==> Normalizes(items[i], mid[i])
  }

  /** Normalising keeps the kind of a value, so arrays of strings stay such. */
  lemma StringsStayStrings(items: seq<Json>, mid: seq<Json>)
    requires NormalizeAll(items, mid)
    ensures AllStrings(items) <==> AllStrings(mid)
    ensures AllStrings(items) ==> Texts(mid) == TrimmedTexts(items)
  {
    if AllStrings(mid) {
      forall i | 0 <= i < |items| ensures items[i].Str? {
        assert Normalizes(items[i], mid[i]);
      }
    }
    if AllStrings(items) {
      forall i | 0 <= i < |items| ensures mid[i] == Str(TrimSpace(items[i].s)) {
        assert Normalizes(items[i], mid[i]);
      }
    }
  }

  lemma StringArraysAlike(items: seq<Json>, mid: seq<Json>, others: seq<Json>, mid': seq<Json>)
    requires NormalizeAll(items, mid) && NormalizeAll(others, mid') && AllStrings(items) && AllStrings(others)
    ensures SortStrings(mid) == SortStrings(mid') <==> multiset(TrimmedTexts(items)) == multiset(TrimmedTexts(others))
  {
    StringsStayStrings(items, mid);
    StringsStayStrings(others, mid');
    SortByContents(Texts(mid), Texts(mid'));
    TextsOfStrings(Sort(Texts(mid)));
    TextsOfStrings(Sort(Texts(mid')));
  }

  lemma {:induction false} SimilarAlike(v: Json, w: Json, r: Json, q: Json)
    requires Similar(v, w) && Normalizes(v, r) && Normalizes(w, q)
    ensures r == q
    decreases v, 1
  {
    match v
    case Obj(fields) => SimilarObjectsAlike(fields, w.fields, r, q);
    case Arr(items) =>
      var mid: seq<Json> :| NormalizeAll(items, mid) && r == Arr(SortStrings(mid));
      var mid': seq<Json> :| NormalizeAll(w.items, mid') && q == Arr(SortStrings(mid'));
      if AllStrings(items) {
        StringArraysAlike(items, mid, w.items, mid');
      } else {
        SimilarItemsAlike(items, w.items, mid, mid');
      }
    case Str(s) =>
    case _ =>
  }

  lemma FieldsAreSimilar(fields: map<string, Json>, others: map<string, Json>, k: string, l: string)
    requires Similar(Obj(fields), Obj(others)) && k in fields && l in others && TrimSpace(k) == TrimSpace(l)
    ensures Similar(fields[k], others[l])
  {
  }

  lemma ResultKeys(fields: map<string, Json>, r: Json)
    requires Normalizes(Obj(fields), r)
    ensures r.Obj? && r.fields.Keys == TrimmedKeys(fields)
  {
  }

  lemma SimilarKeys(fields: map<string, Json>, others: map<string, Json>)
    requires Similar(Obj(fields), Obj(others))
    ensures TrimmedKeys(fields) == TrimmedKeys(others)
  {
  }

  lemma ResultField(fields: map<string, Json>, r: Json, t: string) returns (k: string)
    requires Normalizes(Obj(fields), r) && r.Obj? && t in r.fields
    ensures k in fields && TrimSpace(k) == t && Normalizes(fields[k], r.fields[t])
  {
    k :| k in fields && TrimSpace(k) == t && Normalizes(fields[k], r.fields[t]);
  }

  lemma {:induction false} SimilarObjectsAlike(fields: map<string, Json>, others: map<string, Json>, r: Json, q: Json)
    requires Similar(Obj(fields), Obj(others)) && Normalizes(Obj(fields), r) && Normalizes(Obj(others), q)
    ensures r == q
    decreases Obj(fields), 0
  {
    ResultKeys(fields, r);
    ResultKeys(others, q);
    SimilarKeys(fields, others);
    forall t | t in r.fields ensures r.fields[t] == q.fields[t] {
      var k := ResultField(fields, r, t);
      var l := ResultField(others, q, t);
      FieldsAreSimilar(fields, others, k, l);
      SimilarAlike(fields[k], others[l], r.fields[t], q.fields[t]);
    }
    assert r.fields == q.fields;
  }

  lemma {:induction false} SimilarItemsAlike(items: seq<Json>, others: seq<Json>, mid: seq<Json>, mid': seq<Json>)
    requires NormalizeAll(items, mid) && NormalizeAll(others, mid') && |items| == |others|
    requires forall i :: 0 <= i < |items| ==> Similar(items[i], others[i])
    ensures mid == mid'
    decreases items, 0
  {
    forall i | 0 <= i < |items| ensures mid[i] == mid'[i] {
      SimilarAlike(items[i], others[i], mid[i], mid'[i]);
    }
  }

  ghost function Origin(fields: map<string, Json>, t: string): (k: string)
    requires t in TrimmedKeys(fields)
    ensures k in fields && TrimSpace(k) == t
  {
    var k :| k in fields && TrimSpace(k) == t;
    k
  }

  /** One of the results. */
  ghost function Result(v: Json): (r: Json)
    ensures Normalizes(v, r)
    decreases v
  {
    match v
    case Obj(fields) => Obj(map t | t in TrimmedKeys(fields) :: Result(fields[Origin(fields, t)]))
    case Arr(items) =>
      var mid := seq(|items|, i requires 0 <= i < |items| => Result(items[i]));
      assert NormalizeAll(items, mid);
      Arr(SortStrings(mid))
    case Str(s) => Str(TrimSpace(s))
    case _ => v
  }

  /** A result of an object in which the value under `k` came last and became `r`. */
  lemma ObjectWith(fields: map<string, Json>, k: string, r: Json) returns (out: map<string, Json>)
    requires k in fields && Normalizes(fields[k], r)
    ensures Normalizes(Obj(fields), Obj(out)) && TrimSpace(k) in out && out[TrimSpace(k)] == r
  {
    var t := TrimSpace(k);
    out := Result(Obj(fields)).fields[t := r];
    assert t in TrimmedKeys(fields);
    assert out.Keys == TrimmedKeys(fields);
    forall u | u in out ensures exists l :: l in fields && TrimSpace(l) == u && Normalizes(fields[l], out[u]) {
      if u == t {
        assert Normalizes(fields[k], out[u]);
      } else {
        assert u in Result(Obj(fields)).fields;
      }
    }
  }

  /** A result of an array in which the item `i` became `r`. */
  lemma ArrayWith(items: seq<Json>, i: nat, r: Json) returns (mid: seq<Json>)
    requires i < |items| && Normalizes(items[i], r)
    ensures NormalizeAll(items, mid) && mid[i] == r && Normalizes(Arr(items), Arr(SortStrings(mid)))
  {
    mid := seq(|items|, j requires 0 <= j < |items| => Result(items[j]));
    mid := mid[i := r];
  }

  lemma {:induction false} DissimilarDiffer(v: Json, w: Json) returns (r: Json, q: Json)
    requires !Similar(v, w)
    ensures Normalizes(v, r) && Normalizes(w, q) && r != q
    decreases v
  {
    r, q := Result(v), Result(w);
    if v.Obj? && w.Obj? {
      if TrimmedKeys(v.fields) == TrimmedKeys(w.fields) {
        var k, l :| k in v.fields && l in w.fields && TrimSpace(k) == TrimSpace(l) && !Similar(v.fields[k], w.fields[l]);
        var r', q' := DissimilarDiffer(v.fields[k], w.fields[l]);
        var out := ObjectWith(v.fields, k, r');
        var out' := ObjectWith(w.fields, l, q');
        r, q := Obj(out), Obj(out');
      }
    } else if v.Arr? && w.Arr? {
      r, q := DissimilarArrays(v.items, w.items);
    }
  }

  lemma {:induction false} DissimilarArrays(items: seq<Json>, others: seq<Json>) returns (r: Json, q: Json)
    requires !Similar(Arr(items), Arr(others))
    ensures Normalizes(Arr(items), r) && Normalizes(Arr(others), q) && r != q
    decreases items
  {
    if |items| == |others| && !AllStrings(items) && !AllStrings(others) {
      var i :| 0 <= i < |items| && !Similar(items[i], others[i]);
      var r', q' := DissimilarDiffer(items[i], others[i]);
      var mid := ArrayWith(items, i, r');
      var mid' := ArrayWith(others, i, q');
      StringsStayStrings(items, mid);
      StringsStayStrings(others, mid');
      r, q := Arr(SortStrings(mid)), Arr(SortStrings(mid'));
    } else {
      r, q := Result(Arr(items)), Result(Arr(others));
      var mid: seq<Json> :| NormalizeAll(items, mid) && r == Arr(SortStrings(mid));
      var mid': seq<Json> :| NormalizeAll(others, mid') && q == Arr(SortStrings(mid'));
      StringsStayStrings(items, mid);
      StringsStayStrings(others, mid');
      LengthIsKept(mid);
      LengthIsKept(mid');
      if |items| == |others| && AllStrings(items) && AllStrings(others) {
        StringArraysAlike(items, mid, others, mid');
      }
    }
  }

  lemma LengthIsKept(mid: seq<Json>)
    ensures |SortStrings(mid)| == |mid| && AllStrings(SortStrings(mid)) == AllStrings(mid)
  {
    if AllStrings(mid) {
      SortSorts(Texts(mid));
      TextsOfStrings(Sort(Texts(mid)));
    }
  }

  /** Every result of one tree is every result of the other. */
  ghost predicate AlwaysAlike(v: Json, w: Json) {
    forall r, q :: Normalizes(v, r) && Normalizes(w, q) ==> r == q
  }

  /** Two trees are bound to get the same canonical form exactly when they are similar. */
  lemma AlikeExactlyWhenSimilar(v: Json, w: Json)
    ensures AlwaysAlike(v, w) <==> Similar(v, w)
  {
    if Similar(v, w) {
      forall r, q | Normalizes(v, r) && Normalizes(w, q) ensures r == q {
        SimilarAlike(v, w, r, q);
      }
    } else {
      var r, q := DissimilarDiffer(v, w);
    }
  }

  // ---------------------------------------------------------------- when the result is determined

  /** No two keys of one object are the same after trimming, at any depth. */
  predicate KeysStayDistinct(v: Json)
    decreases v
  {
    match v
    case Obj(fields) =>
      && (forall k, l :: k in fields && l in fields && TrimSpace(k) == TrimSpace(l) ==> k == l)
      && forall k :: k in fields ==> KeysStayDistinct(fields[k])
    case Arr(items) => forall i :: 0 <= i < |items| ==> KeysStayDistinct(items[i])
    case _ => true
  }

  lemma {:induction false} DistinctIsSimilar(v: Json)
    requires KeysStayDistinct(v)
    ensures Similar(v, v)
    decreases v
  {
    match v
    case Obj(fields) =>
      forall k | k in fields ensures Similar(fields[k], fields[k]) {
        DistinctIsSimilar(fields[k]);
      }
    case Arr(items) =>
      forall i | 0 <= i < |items| ensures Similar(items[i], items[i]) {
        DistinctIsSimilar(items[i]);
      }
    case _ =>
  }

  /**
   The canonical form of a tree is independent of the order of iteration exactly when the tree is
   similar to itself, as it is when its keys stay distinct.
   */
  lemma DeterminedExactlyWhenSelfSimilar(v: Json)
    ensures AlwaysAlike(v, v) <==> Similar(v, v)
    ensures KeysStayDistinct(v) ==> AlwaysAlike(v, v)
  {
    AlikeExactlyWhenSimilar(v, v);
    if KeysStayDistinct(v) {
      DistinctIsSimilar(v);
    }
  }

  lemma BlankBeforeA()
    ensures TrimSpace(" a") == TrimSpace("a") == "a"
  {
    TrimSpaceTrims("a");
    assert " a"[1..] == "a";
  }

  /** Two keys that collide with different values: the object has two possible canonical forms. */
  lemma CollidingKeysAreAmbiguous()
    ensures !AlwaysAlike(Obj(map["a" := Bool(true), " a" := Bool(false)]), Obj(map["a" := Bool(true), " a" := Bool(false)]))
  {
    var fields: map<string, Json> := map["a" := Bool(true), " a" := Bool(false)];
    BlankBeforeA();
    assert !Similar(fields["a"], fields[" a"]);
    assert "a" in fields && " a" in fields;
    assert !Similar(Obj(fields), Obj(fields));
    AlikeExactlyWhenSimilar(Obj(fields), Obj(fields));
  }
}
