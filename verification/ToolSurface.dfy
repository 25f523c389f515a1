/** The tools a turn may see and dispatch: their order, their defaults and their validation. */
module ToolSurface {
  import opened Sorting
  import opened Text
  import opened Wrappers

  datatype Tool = Tool(
    name: string,
    namespace: string,
    capability: string,
    mutating: bool,
    rollbackReady: bool,
    rollbackDeclarationHash: string,
    hiddenReason: string,
    details: string)

  datatype Surface = Surface(
    lifecycle: string,
    registered: seq<Tool>,
    visible: seq<Tool>,
    dispatchable: seq<Tool>,
    hidden: seq<Tool>,
    policyHash: string,
    fingerprint: string,
    hash: string)

  datatype SurfaceError =
    | NotDispatchable(key: string)
    | MissingReason(name: string)
    | UnknownReason(name: string)
    | InconsistentRollback(key: string)

  // ---------------------------------------------------------------- the order of tools

  predicate ToolLeq(a: Tool, b: Tool) {
    if a.namespace != b.namespace then StringLeq(a.namespace, b.namespace) else StringLeq(a.name, b.name)
  }

  predicate SameIdentity(a: Tool, b: Tool) {
    a.namespace == b.namespace && a.name == b.name
  }

  predicate DistinctTools(s: seq<Tool>) {
    forall i, j :: 0 <= i < j < |s| ==> !SameIdentity(s[i], s[j])
  }

  lemma ToolsAreOrdered()
    ensures Preorder(ToolLeq)
  {
    forall a, b ensures ToolLeq(a, b) || ToolLeq(b, a) {
      StringLeqTotal(a.namespace, b.namespace);
      StringLeqTotal(a.name, b.name);
    }
    forall a, b, c | ToolLeq(a, b) && ToolLeq(b, c) ensures ToolLeq(a, c) {
      ToolLeqTransitive(a, b, c);
    }
  }

  lemma ToolLeqTransitive(a: Tool, b: Tool, c: Tool)
    requires ToolLeq(a, b) && ToolLeq(b, c)
    ensures ToolLeq(a, c)
  {
    if a.namespace == b.namespace == c.namespace {
      StringLeqTransitive(a.name, b.name, c.name);
    } else if a.namespace != b.namespace && b.namespace != c.namespace {
      StringLeqTransitive(a.namespace, b.namespace, c.namespace);
      StringLeqTotal(a.namespace, b.namespace);
    }
  }

  lemma DistinctToolsAreSeparate(s: seq<Tool>)
    requires DistinctTools(s)
    ensures Separates(ToolLeq, s)
  {
    forall a, b | a in s && b in s && ToolLeq(a, b) && ToolLeq(b, a) ensures a == b {
      StringLeqTotal(a.namespace, b.namespace);
      StringLeqTotal(a.name, b.name);
      assert SameIdentity(a, b);
      var i :| 0 <= i < |s| && s[i] == a;
      var j :| 0 <= j < |s| && s[j] == b;
    }
  }

  // ---------------------------------------------------------------- validation

  function IdentityKey(t: Tool): string {
    var name := TrimSpace(t.name);
    if name == "" then "" else TrimSpace(t.namespace) + "/" + name
  }

  function Keys(tools: seq<Tool>): set<string> {
    set t | t in tools && IdentityKey(t) != "" :: IdentityKey(t)
  }

  predicate Dispatched(t: Tool, dispatchable: set<string>) {
    IdentityKey(t) == "" || IdentityKey(t) in dispatchable
  }

  predicate ReasonGiven(t: Tool) {
    TrimSpace(t.name) == "" || TrimSpace(t.hiddenReason) != ""
  }

  predicate ReasonKnown(t: Tool, known: set<string>) {
    TrimSpace(t.name) == "" || TrimSpace(ToLower(TrimSpace(t.hiddenReason))) in known
  }

  predicate Consistent(t: Tool) {
    t.rollbackReady == (TrimSpace(t.rollbackDeclarationHash) != "")
  }

  /** What a valid surface is. */
  ghost predicate ValidSurface(s: Surface, known: set<string>) {
    && (forall t :: t in s.visible ==> Dispatched(t, Keys(s.dispatchable)))
    && (forall t :: t in s.hidden ==> ReasonGiven(t) && ReasonKnown(t, known))
    && (forall t :: t in s.registered + s.visible + s.dispatchable ==> Consistent(t))
  }

  function CheckVisible(tools: seq<Tool>, dispatchable: set<string>): Outcome<SurfaceError> {
    if tools == [] then Pass
    else if !Dispatched(tools[0], dispatchable) then Fail(NotDispatchable(IdentityKey(tools[0])))
    else CheckVisible(tools[1..], dispatchable)
  }

  function CheckHidden(tools: seq<Tool>, known: set<string>): Outcome<SurfaceError> {
    if tools == [] then Pass
    else if !ReasonGiven(tools[0]) then Fail(MissingReason(TrimSpace(tools[0].name)))
    else if !ReasonKnown(tools[0], known) then Fail(UnknownReason(TrimSpace(tools[0].name)))
    else CheckHidden(tools[1..], known)
  }

  function CheckRollback(tools: seq<Tool>): Outcome<SurfaceError> {
    if tools == [] then Pass
    else if !Consistent(tools[0]) then Fail(InconsistentRollback(IdentityKey(tools[0])))
    else CheckRollback(tools[1..])
  }

  /** The first error found, list by list. */
  function CheckSurface(s: Surface, known: set<string>): Outcome<SurfaceError> {
    var visible := CheckVisible(s.visible, Keys(s.dispatchable));
    var hidden := CheckHidden(s.hidden, known);
    if visible.Fail? then visible
    else if hidden.Fail? then hidden
    else CheckRollback(s.registered + s.visible + s.dispatchable)
  }

  method Validate(s: Surface, known: set<string>) returns (r: Outcome<SurfaceError>)
    ensures r == CheckSurface(s, known)
  {
    var dispatchable: set<string> := {};
    for i := 0 to |s.dispatchable|
      invariant dispatchable == Keys(s.dispatchable[..i])
    {
      var key := IdentityKey(s.dispatchable[i]);
      assert s.dispatchable[..i + 1] == s.dispatchable[..i] + [s.dispatchable[i]];
      if key != "" {
        dispatchable := dispatchable + {key};
      }
    }
    assert s.dispatchable[..|s.dispatchable|] == s.dispatchable;
    for i := 0 to |s.visible|
      invariant CheckVisible(s.visible, dispatchable) == CheckVisible(s.visible[i..], dispatchable)
    {
      var key := IdentityKey(s.visible[i]);
      if key != "" && key !in dispatchable {
        return Fail(NotDispatchable(key));
      }
    }
    for i := 0 to |s.hidden|
      invariant CheckHidden(s.hidden, known) == CheckHidden(s.hidden[i..], known)
    {
      var name := TrimSpace(s.hidden[i].name);
      if name == "" {
        continue;
      }
      var reason := TrimSpace(s.hidden[i].hiddenReason);
      if reason == "" {
        return Fail(MissingReason(name));
      }
      if TrimSpace(ToLower(reason)) !in known {
        return Fail(UnknownReason(name));
      }
    }
    r := ValidateRollback(s.registered + s.visible + s.dispatchable);
  }

  method ValidateRollback(tools: seq<Tool>) returns (r: Outcome<SurfaceError>)
    ensures r == CheckRollback(tools)
  {
    for i := 0 to |tools|
      invariant CheckRollback(tools) == CheckRollback(tools[i..])
    {
      var declared := TrimSpace(tools[i].rollbackDeclarationHash) != "";
      if tools[i].rollbackReady != declared {
        return Fail(InconsistentRollback(IdentityKey(tools[i])));
      }
    }
    return Pass;
  }

  lemma {:induction false} VisiblePasses(tools: seq<Tool>, dispatchable: set<string>)
    ensures CheckVisible(tools, dispatchable).Pass? <==> forall t :: t in tools ==> Dispatched(t, dispatchable)
  {
    if tools != [] {
      VisiblePasses(tools[1..], dispatchable);
    }
  }

  lemma {:induction false} HiddenPasses(tools: seq<Tool>, known: set<string>)
    ensures CheckHidden(tools, known).Pass? <==> forall t :: t in tools ==> ReasonGiven(t) && ReasonKnown(t, known)
  {
    if tools != [] {
      HiddenPasses(tools[1..], known);
    }
  }

  lemma {:induction false} RollbackPasses(tools: seq<Tool>)
    ensures CheckRollback(tools).Pass? <==> forall t :: t in tools ==> Consistent(t)
  {
    if tools != [] {
      RollbackPasses(tools[1..]);
    }
  }

  /** The check passes exactly the valid surfaces. */
  lemma CheckPassesTheValid(s: Surface, known: set<string>)
    ensures CheckSurface(s, known).Pass? <==> ValidSurface(s, known)
  {
    VisiblePasses(s.visible, Keys(s.dispatchable));
    HiddenPasses(s.hidden, known);
    RollbackPasses(s.registered + s.visible + s.dispatchable);
  }

  // ---------------------------------------------------------------- rollback readiness of mutating tools

  predicate Mutates(t: Tool) {
    t.mutating || t.capability == "mutate"
  }

  predicate Ready(t: Tool) {
    t.rollbackReady && TrimSpace(t.rollbackDeclarationHash) != ""
  }

  /** Only the first mutating tool of each identity is looked at. */
  function CheckReadiness(tools: seq<Tool>, seen: set<string>): Outcome<string> {
    if tools == [] then Pass
    else
      var t := tools[0];
      var key := IdentityKey(t);
      if !Mutates(t) || key in seen then CheckReadiness(tools[1..], seen)
      else if !Ready(t) then Fail(key)
      else CheckReadiness(tools[1..], seen + {key})
  }

  method ValidateReadiness(tools: seq<Tool>) returns (r: Outcome<string>)
    ensures r == CheckReadiness(tools, {})
  {
    var seen: set<string> := {};
    for i := 0 to |tools|
      invariant CheckReadiness(tools, {}) == CheckReadiness(tools[i..], seen)
    {
      var key := IdentityKey(tools[i]);
      if Mutates(tools[i]) && key !in seen {
        if !Ready(tools[i]) {
          return Fail(key);
        }
        seen := seen + {key};
      }
    }
    return Pass;
  }

  ghost predicate ReadyTwin(tools: seq<Tool>, t: Tool) {
    exists u :: u in tools && Mutates(u) && IdentityKey(u) == IdentityKey(t) && Ready(u)
  }

  /** After a passed check, every mutating tool shares its identity with a ready one. */
  lemma {:induction false} PassedHaveReadyTwins(tools: seq<Tool>, seen: set<string>)
    requires CheckReadiness(tools, seen).Pass?
    ensures forall t :: t in tools && Mutates(t) && IdentityKey(t) !in seen ==> ReadyTwin(tools, t)
  {
    if tools != [] {
      var first, rest := tools[0], tools[1..];
      var after := if Mutates(first) then seen + {IdentityKey(first)} else seen;
      if Mutates(first) && IdentityKey(first) in seen {
        assert after == seen;
      }
      PassedHaveReadyTwins(rest, after);
      forall t | t in tools && Mutates(t) && IdentityKey(t) !in seen ensures ReadyTwin(tools, t) {
        if Mutates(first) && IdentityKey(t) == IdentityKey(first) {
          assert Ready(first);
        } else {
          assert t in rest && ReadyTwin(rest, t);
        }
      }
    }
  }

  lemma {:induction false} ReadyPass(tools: seq<Tool>, seen: set<string>)
    requires AllReady(tools)
    ensures CheckReadiness(tools, seen).Pass?
  {
    if tools != [] {
      ReadyPass(tools[1..], seen);
      ReadyPass(tools[1..], seen + {IdentityKey(tools[0])});
    }
  }

  /** Mutating tools of one identity are equally ready. */
  ghost predicate SameReadiness(tools: seq<Tool>) {
    forall a, b :: a in tools && b in tools && Mutates(a) && Mutates(b) && IdentityKey(a) == IdentityKey(b)
      ==> (Ready(a) <==> Ready(b))
  }

  ghost predicate AllReady(tools: seq<Tool>) {
    forall t :: t in tools && Mutates(t) ==> Ready(t)
  }

  /**
   A passed check means that every mutating tool is ready exactly when tools of one identity agree
   about it; a duplicate that is not ready goes unnoticed.
   */
  lemma ReadinessMeansAllReady(tools: seq<Tool>)
    ensures CheckReadiness(tools, {}).Pass? && SameReadiness(tools) <==> AllReady(tools)
  {
    if CheckReadiness(tools, {}).Pass? {
      PassedHaveReadyTwins(tools, {});
    }
    if AllReady(tools) {
      ReadyPass(tools, {});
    }
  }

  lemma DuplicateGoesUnnoticed(ready: Tool, other: Tool)
    requires Mutates(ready) && Ready(ready) && Mutates(other) && !Ready(other) && IdentityKey(other) == IdentityKey(ready)
    ensures CheckReadiness([ready, other], {}).Pass? && !AllReady([ready, other])
  {
    var key := IdentityKey(ready);
    assert CheckReadiness([], {key}).Pass?;
    assert [other][1..] == [] && CheckReadiness([other], {key}).Pass?;
    assert [ready, other][1..] == [other] && {} + {key} == {key};
    assert other in [ready, other];
  }
}
