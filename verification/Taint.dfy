/**
 The search for a tainted value: from an expression back through the nearest assignments before
 it, scope by scope from the inside out.
 */
module Taint {
  import opened Wrappers
  import opened Sorting

  /** What the search sees of an expression: a match of the source pattern, and its identifiers. */
  datatype Expr = Expr(direct: Option<string>, identifiers: seq<string>)

  datatype Assignment = Assignment(offset: nat, rhs: Expr)

  datatype Scope = Scope(start: int, end: int)

  /** The function scopes, the length of the source, and the assignments by scope and name. */
  datatype Program = Program(scopes: seq<Scope>, length: nat, assignments: map<Scope, map<string, seq<Assignment>>>)

  const MAX_TAINT_DEPTH: nat := 16

  // ---------------------------------------------------------------- scope chains

  predicate Contains(scope: Scope, offset: int) {
    scope.start <= offset <= scope.end
  }

  function Size(scope: Scope): int {
    scope.end - scope.start
  }

  function Containing(scopes: seq<Scope>, offset: int): seq<Scope> {
    if scopes == [] then []
    else if Contains(scopes[0], offset) then [scopes[0]] + Containing(scopes[1..], offset)
    else Containing(scopes[1..], offset)
  }

  predicate NoLarger(a: Scope, b: Scope) {
    Size(a) <= Size(b)
  }

  function ScopeChain(p: Program, offset: int): seq<Scope> {
    var containing := Sort(NoLarger, Containing(p.scopes, offset));
    var file := Scope(0, p.length);
    if file in containing then containing else containing + [file]
  }

  lemma {:induction false} ContainingFilters(scopes: seq<Scope>, offset: int, s: Scope)
    ensures s in Containing(scopes, offset) <==> s in scopes && Contains(s, offset)
  {
    if scopes != [] {
      ContainingFilters(scopes[1..], offset, s);
    }
  }

  predicate InnermostFirst(chain: seq<Scope>, file: Scope) {
    forall i, j :: 0 <= i < j < |chain| ==> Size(chain[i]) <= Size(chain[j]) || chain[j] == file
  }

  /** The chain holds the scopes around the offset, smaller before larger, and the whole file. */
  lemma ChainIsInnermostFirst(p: Program, offset: int, s: Scope)
    ensures s in ScopeChain(p, offset) <==> (s in p.scopes && Contains(s, offset)) || s == Scope(0, p.length)
    ensures InnermostFirst(ScopeChain(p, offset), Scope(0, p.length))
  {
    var containing := Containing(p.scopes, offset);
    SortSorts(NoLarger, containing);
    ContainingFilters(p.scopes, offset, s);
    SameElements(Sort(NoLarger, containing), containing, s);
  }

  // ---------------------------------------------------------------- the nearest assignment

  function Definitions(p: Program, scope: Scope, name: string): seq<Assignment> {
    if scope in p.assignments && name in p.assignments[scope] then p.assignments[scope][name] else []
  }

  /** The last definition in the list that starts before the offset. */
  function LastBefore(definitions: seq<Assignment>, before: nat): (r: Option<Assignment>)
    ensures r.Some? ==> r.value in definitions && r.value.offset < before
    ensures r.None? ==> forall a :: a in definitions ==> a.offset >= before
  {
    if definitions == [] then None
    else if definitions[|definitions| - 1].offset < before then Some(definitions[|definitions| - 1])
    else LastBefore(definitions[..|definitions| - 1], before)
  }

  function NearestIn(p: Program, chain: seq<Scope>, name: string, before: nat): (r: Option<Assignment>)
    ensures r.Some? ==> r.value.offset < before
  {
    if chain == [] then None
    else
      var found := LastBefore(Definitions(p, chain[0], name), before);
      if found.Some? then found else NearestIn(p, chain[1..], name, before)
  }

  function Nearest(p: Program, name: string, before: nat): (r: Option<Assignment>)
    ensures r.Some? ==> r.value.offset < before
  {
    NearestIn(p, ScopeChain(p, before), name, before)
  }

  method NearestAssignment(p: Program, name: string, before: nat) returns (r: Option<Assignment>)
    ensures r == Nearest(p, name, before)
  {
    var chain := ScopeChain(p, before);
    var i := 0;
    while i < |chain|
      invariant i <= |chain| && Nearest(p, name, before) == NearestIn(p, chain[i..], name, before)
    {
      var candidates := Definitions(p, chain[i], name);
      var k := |candidates|;
      assert candidates[..k] == candidates;
      while k > 0
        invariant k <= |candidates| && LastBefore(candidates[..k], before) == LastBefore(candidates, before)
      {
        k := k - 1;
        assert candidates[..k + 1][..k] == candidates[..k];
        if candidates[k].offset < before {
          return Some(candidates[k]);
        }
      }
      i := i + 1;
    }
    return None;
  }

  predicate InOrder(definitions: seq<Assignment>) {
    forall i, j :: 0 <= i < j < |definitions| ==> definitions[i].offset <= definitions[j].offset
  }

  /** In a list sorted by offset, the last definition before the offset is the closest one. */
  lemma {:induction false} LastIsClosest(definitions: seq<Assignment>, before: nat, a: Assignment)
    requires InOrder(definitions) && a in definitions && a.offset < before
    ensures LastBefore(definitions, before).Some? && a.offset <= LastBefore(definitions, before).value.offset
  {
    var n := |definitions| - 1;
    if definitions[n].offset >= before {
      assert a in definitions[..n];
      LastIsClosest(definitions[..n], before, a);
    }
  }

  /** A definition counts only when no scope further in defines the name before the offset. */
  lemma {:induction false} InnermostScopeWins(p: Program, chain: seq<Scope>, name: string, before: nat, a: Assignment)
    ensures NearestIn(p, chain, name, before) == Some(a) <==>
        exists i :: 0 <= i < |chain| && LastBefore(Definitions(p, chain[i], name), before) == Some(a)
            && forall j :: 0 <= j < i ==> LastBefore(Definitions(p, chain[j], name), before).None?
  {
    if chain != [] {
      var rest := chain[1..];
      InnermostScopeWins(p, rest, name, before, a);
      if LastBefore(Definitions(p, chain[0], name), before).None? {
        forall i | 0 <= i < |rest| ensures rest[i] == chain[i + 1] {
        }
        if i :| 0 <= i < |rest| && LastBefore(Definitions(p, rest[i], name), before) == Some(a)
                && forall j :: 0 <= j < i ==> LastBefore(Definitions(p, rest[j], name), before).None? {
          assert LastBefore(Definitions(p, chain[i + 1], name), before) == Some(a);
        }
        if i :| 0 <= i < |chain| && LastBefore(Definitions(p, chain[i], name), before) == Some(a)
                && forall j :: 0 <= j < i ==> LastBefore(Definitions(p, chain[j], name), before).None? {
          assert LastBefore(Definitions(p, rest[i - 1], name), before) == Some(a);
        }
      } else {
        assert LastBefore(Definitions(p, chain[0], name), before).Some?;
      }
    }
  }

  // ---------------------------------------------------------------- the search

  /** The first occurrences of each name, in order. */
  function Distinct(names: seq<string>): seq<string> {
    if names == [] then []
    else
      var front := Distinct(names[..|names| - 1]);
      var last := names[|names| - 1];
      if last in front then front else front + [last]
  }

  datatype Key = Key(name: string, offset: nat)

  function TaintPath(p: Program, e: Expr, before: nat, seen: set<Key>, depth: nat): Option<seq<string>>
    decreases before, |e.identifiers| + 1, 0
  {
    if e.direct.Some? then Some([e.direct.value])
    else if depth >= MAX_TAINT_DEPTH then None
    else
      DistinctIsShorter(e.identifiers);
      Try(p, Distinct(e.identifiers), before, seen, depth)
  }

  lemma {:induction false} DistinctIsShorter(names: seq<string>)
    ensures |Distinct(names)| <= |names|
    ensures forall n :: n in Distinct(names) <==> n in names
  {
    if names != [] {
      DistinctIsShorter(names[..|names| - 1]);
      SplitLast(names);
    }
  }

  function Try(p: Program, names: seq<string>, before: nat, seen: set<Key>, depth: nat): Option<seq<string>>
    decreases before, |names|, 1
  {
    if names == [] then None
    else
      var name := names[0];
      var nearest := Nearest(p, name, before);
      if nearest.None? || Key(name, nearest.value.offset) in seen then Try(p, names[1..], before, seen, depth)
      else
        var a := nearest.value;
        var nested := TaintPath(p, a.rhs, a.offset, seen + {Key(name, a.offset)}, depth + 1);
        if nested.Some? then Some([name] + nested.value) else Try(p, names[1..], before, seen, depth)
  }

  method FindTaintPath(p: Program, e: Expr, before: nat, seen: set<Key>, depth: nat) returns (r: Option<seq<string>>)
    ensures r == TaintPath(p, e, before, seen, depth)
    decreases before
  {
    if e.direct.Some? {
      return Some([e.direct.value]);
    }
    if depth >= MAX_TAINT_DEPTH {
      return None;
    }
    var names := Distinct(e.identifiers);
    var i := 0;
    while i < |names|
      invariant i <= |names| && TaintPath(p, e, before, seen, depth) == Try(p, names[i..], before, seen, depth)
    {
      var name := names[i];
      var nearest := NearestAssignment(p, name, before);
      i := i + 1;
      if nearest.None? {
        continue;
      }
      var key := Key(name, nearest.value.offset);
      if key in seen {
        continue;
      }
      var nested := FindTaintPath(p, nearest.value.rhs, nearest.value.offset, seen + {key}, depth + 1);
      if nested.Some? {
        return Some([name] + nested.value);
      }
    }
    return None;
  }

  // ---------------------------------------------------------------- the check for cycles never fires

  /** Every assignment seen so far starts at or behind the current offset. */
  predicate Behind(seen: set<Key>, before: nat) {
    forall k :: k in seen ==> k.offset >= before
  }

  lemma {:induction false} SeenDoesNotMatter(p: Program, e: Expr, before: nat, seen: set<Key>, depth: nat)
    requires Behind(seen, before)
    ensures TaintPath(p, e, before, seen, depth) == TaintPath(p, e, before, {}, depth)
    decreases before, |e.identifiers| + 1, 0
  {
    DistinctIsShorter(e.identifiers);
    if e.direct.None? && depth < MAX_TAINT_DEPTH {
      SeenDoesNotMatterFor(p, Distinct(e.identifiers), before, seen, depth);
    }
  }

  /** The nearest assignment starts before the offset, so it is never one seen already. */
  lemma {:induction false} SeenDoesNotMatterFor(p: Program, names: seq<string>, before: nat, seen: set<Key>, depth: nat)
    requires Behind(seen, before)
    ensures Try(p, names, before, seen, depth) == Try(p, names, before, {}, depth)
    decreases before, |names|, 1
  {
    if names != [] {
      SeenDoesNotMatterFor(p, names[1..], before, seen, depth);
      var nearest := Nearest(p, names[0], before);
      if nearest.Some? {
        var a := nearest.value;
        var key := Key(names[0], a.offset);
        SeenDoesNotMatter(p, a.rhs, a.offset, seen + {key}, depth + 1);
        SeenDoesNotMatter(p, a.rhs, a.offset, {} + {key}, depth + 1);
      }
    }
  }

  // ---------------------------------------------------------------- what the search finds

  /** `path` names, step by step, nearest assignments that lead from `e` to a source. */
  predicate Leads(p: Program, e: Expr, before: nat, path: seq<string>)
    decreases path
  {
    path != []
    && if |path| == 1 then e.direct == Some(path[0])
       else
         && path[0] in e.identifiers
         && Nearest(p, path[0], before).Some?
         && var a := Nearest(p, path[0], before).value; Leads(p, a.rhs, a.offset, path[1..])
  }

  lemma LongerLeads(p: Program, e: Expr, before: nat, name: string, path: seq<string>)
    requires name in e.identifiers && Nearest(p, name, before).Some?
    requires var a := Nearest(p, name, before).value; Leads(p, a.rhs, a.offset, path)
    ensures Leads(p, e, before, [name] + path)
  {
    assert ([name] + path)[1..] == path;
  }

  lemma {:induction false} FoundLeads(p: Program, e: Expr, before: nat, depth: nat)
    requires depth <= MAX_TAINT_DEPTH
    ensures var r := TaintPath(p, e, before, {}, depth);
      r.Some? ==> Leads(p, e, before, r.value) && |r.value| <= 1 + MAX_TAINT_DEPTH - depth
    decreases before, |e.identifiers| + 1, 0
  {
    DistinctIsShorter(e.identifiers);
    if e.direct.None? && depth < MAX_TAINT_DEPTH {
      FoundLeadsFor(p, e, Distinct(e.identifiers), before, depth);
    }
  }

  lemma {:induction false} FoundLeadsFor(p: Program, e: Expr, names: seq<string>, before: nat, depth: nat)
    requires depth < MAX_TAINT_DEPTH && forall n :: n in names ==> n in e.identifiers
    ensures var r := Try(p, names, before, {}, depth);
      r.Some? ==> Leads(p, e, before, r.value) && |r.value| <= 1 + MAX_TAINT_DEPTH - depth
    decreases before, |names|, 1
  {
    if names != [] {
      var nearest := Nearest(p, names[0], before);
      FoundLeadsFor(p, e, names[1..], before, depth);
      if nearest.Some? {
        var a := nearest.value;
        SeenDoesNotMatter(p, a.rhs, a.offset, {} + {Key(names[0], a.offset)}, depth + 1);
        FoundLeads(p, a.rhs, a.offset, depth + 1);
        var nested := TaintPath(p, a.rhs, a.offset, {}, depth + 1);
        if nested.Some? {
          LongerLeads(p, e, before, names[0], nested.value);
        }
      }
    }
  }

  lemma {:induction false} LeadsIsFound(p: Program, e: Expr, before: nat, depth: nat, path: seq<string>)
    requires Leads(p, e, before, path) && |path| <= 1 + MAX_TAINT_DEPTH - depth
    ensures TaintPath(p, e, before, {}, depth).Some?
    decreases path
  {
    if |path| > 1 && e.direct.None? {
      var a := Nearest(p, path[0], before).value;
      LeadsIsFound(p, a.rhs, a.offset, depth + 1, path[1..]);
      DistinctIsShorter(e.identifiers);
      TriedNameIsFound(p, Distinct(e.identifiers), before, depth, path[0]);
    }
  }

  lemma {:induction false} TriedNameIsFound(p: Program, names: seq<string>, before: nat, depth: nat, name: string)
    requires name in names && Nearest(p, name, before).Some?
    requires var a := Nearest(p, name, before).value; TaintPath(p, a.rhs, a.offset, {}, depth + 1).Some?
    ensures Try(p, names, before, {}, depth).Some?
    decreases names
  {
    if names[0] == name {
      var a := Nearest(p, name, before).value;
      SeenDoesNotMatter(p, a.rhs, a.offset, {} + {Key(name, a.offset)}, depth + 1);
    } else {
      TriedNameIsFound(p, names[1..], before, depth, name);
    }
  }

  ghost predicate Tainted(p: Program, e: Expr, before: nat, steps: nat) {
    exists path :: Leads(p, e, before, path) && |path| <= 1 + steps
  }

  /**
   The search finds a path exactly when at most sixteen nearest assignments lead from the
   expression to a source, and what it finds is such a chain.
   */
  lemma FindsExactlyTheTainted(p: Program, e: Expr, before: nat)
    ensures TaintPath(p, e, before, {}, 0).Some? <==> Tainted(p, e, before, MAX_TAINT_DEPTH)
    ensures var r := TaintPath(p, e, before, {}, 0);
      r.Some? ==> Leads(p, e, before, r.value) && |r.value| <= 1 + MAX_TAINT_DEPTH
  {
    FoundLeads(p, e, before, 0);
    forall path | Leads(p, e, before, path) && |path| <= 1 + MAX_TAINT_DEPTH
      ensures TaintPath(p, e, before, {}, 0).Some?
    {
      LeadsIsFound(p, e, before, 0, path);
    }
  }
}
