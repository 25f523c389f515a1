/**
 The registry of agent definitions: one set of definitions kept under two keys, by name and by kind
 and source.
 */
module Registry {
  import opened Text
  import opened Wrappers

  datatype Definition = Definition(
    kind: string,
    name: string,
    source: string,
    maxIterations: int,
    maxConcurrent: int,
    costClass: string,
    body: string)

  datatype RegistryError =
    | KindRequired
    | NameRequired
    | UnknownSource(source: string)
    | NegativeIterations
    | NegativeConcurrent
    | UnknownCost(cost: string)
    | Blocked(name: string)
    | NameTaken(name: string)
    | KindTaken(kind: string, source: string)

  /** Weakest source first. */
  const SOURCE_PRECEDENCE: seq<string> :=
    ["built-in", "plugin", "userSettings", "projectSettings", "flagSettings", "policySettings"]

  function NormalizeSource(source: string): Result<string, RegistryError> {
    if source == "" || source == "builtin" then Success("built-in")
    else if source in SOURCE_PRECEDENCE then Success(source)
    else Failure(UnknownSource(source))
  }

  function Check(d: Definition): Outcome<RegistryError> {
    if d.kind == "" then Fail(KindRequired)
    else if d.name == "" then Fail(NameRequired)
    else if NormalizeSource(d.source).Failure? then Fail(NormalizeSource(d.source).error)
    else if d.maxIterations < 0 then Fail(NegativeIterations)
    else if d.maxConcurrent < 0 then Fail(NegativeConcurrent)
    else if d.costClass !in ["", "low", "medium", "high"] then Fail(UnknownCost(d.costClass))
    else Pass
  }

  /** The sources governance allows; without governance every source is. */
  type Governance = Option<set<string>>

  predicate Allows(g: Governance, source: string) {
    g.None? || source in g.value
  }

  type BySource = map<string, Definition>

  datatype Store = Store(byName: map<string, Definition>, byKind: map<string, BySource>)

  const EMPTY_STORE := Store(map[], map[])

  // ---------------------------------------------------------------- two views of one set

  function NameAt(s: Store, name: string): Option<Definition> {
    if name in s.byName then Some(s.byName[name]) else None
  }

  function SlotAt(s: Store, kind: string, source: string): Option<Definition> {
    if kind in s.byKind && source in s.byKind[kind] then Some(s.byKind[kind][source]) else None
  }

  ghost predicate NamesAreKinds(s: Store) {
    forall n :: NameAt(s, n).Some? ==> NamedRight(s, n, NameAt(s, n).value)
  }

  predicate NamedRight(s: Store, n: string, d: Definition) {
    d.name == n && SlotAt(s, d.kind, d.source) == Some(d) && NormalizeSource(d.source) == Success(d.source)
  }

  ghost predicate KindsAreNames(s: Store) {
    forall k, o :: SlotAt(s, k, o).Some? ==> FiledRight(s, k, o, SlotAt(s, k, o).value)
  }

  predicate FiledRight(s: Store, k: string, o: string, d: Definition) {
    d.kind == k && d.source == o && NameAt(s, d.name) == Some(d)
  }

  predicate NoEmptyKind(s: Store) {
    forall k :: k in s.byKind ==> s.byKind[k] != map[]
  }

  ghost predicate Views(s: Store) {
    NamesAreKinds(s) && KindsAreNames(s) && NoEmptyKind(s)
  }

  /** In two views of one set, a name means a definition exactly when its kind and source do. */
  lemma ViewsAgree(s: Store, d: Definition)
    requires Views(s)
    ensures NameAt(s, d.name) == Some(d) <==> SlotAt(s, d.kind, d.source) == Some(d)
  {
    if NameAt(s, d.name) == Some(d) {
      assert NamedRight(s, d.name, d);
    }
    if SlotAt(s, d.kind, d.source) == Some(d) {
      assert FiledRight(s, d.kind, d.source, d);
    }
  }

  // ---------------------------------------------------------------- registration

  function SlotsOf(s: Store, kind: string): BySource {
    if kind in s.byKind then s.byKind[kind] else map[]
  }

  function Put(s: Store, d: Definition): Store {
    Store(s.byName[d.name := d], s.byKind[d.kind := SlotsOf(s, d.kind)[d.source := d]])
  }

  /** Adding a definition whose source is normalised. */
  function Add(s: Store, g: Governance, d: Definition): Result<Store, RegistryError> {
    if !Allows(g, d.source) then Failure(Blocked(d.name))
    else if d.name in s.byName then Failure(NameTaken(d.name))
    else if d.source in SlotsOf(s, d.kind) then Failure(KindTaken(d.kind, d.source))
    else Success(Put(s, d))
  }

  function Registered(s: Store, g: Governance, d: Definition): Result<Store, RegistryError> {
    var checked := Check(d);
    if checked.Fail? then Failure(checked.error)
    else Add(s, g, d.(source := NormalizeSource(d.source).value))
  }

  function CheckAll(defs: seq<Definition>): Outcome<RegistryError> {
    if defs == [] then Pass
    else
      var checked := Check(defs[0]);
      if checked.Fail? then checked else CheckAll(defs[1..])
  }

  function AddAll(s: Store, g: Governance, defs: seq<Definition>): Result<Store, RegistryError>
    decreases defs
  {
    if defs == [] then Success(s)
    else
      var source := NormalizeSource(defs[0].source);
      if source.Failure? then Failure(source.error)
      else
        var added := Add(s, g, defs[0].(source := source.value));
        if added.Failure? then added else AddAll(added.value, g, defs[1..])
  }

  function BatchRegistered(s: Store, g: Governance, defs: seq<Definition>): Result<Store, RegistryError> {
    var checked := CheckAll(defs);
    if checked.Fail? then Failure(checked.error) else AddAll(s, g, defs)
  }

  /** Registering one after the other, stopping at the first error. */
  function OneByOne(s: Store, g: Governance, defs: seq<Definition>): Result<Store, RegistryError>
    decreases defs
  {
    if defs == [] then Success(s)
    else
      var added := Registered(s, g, defs[0]);
      if added.Failure? then added else OneByOne(added.value, g, defs[1..])
  }

  function Unregistered(s: Store, name: string): Store {
    var n := TrimSpace(name);
    if n !in s.byName then s
    else
      var d := s.byName[n];
      var source := NormalizeSource(d.source);
      if source.Failure? then s.(byName := s.byName - {n})
      else
        var slots := SlotsOf(s, d.kind) - {source.value};
        Store(s.byName - {n}, if slots == map[] then s.byKind - {d.kind} else s.byKind[d.kind := slots])
  }

  /** The first hit from the strongest source down to `SOURCE_PRECEDENCE[0]`. */
  function Strongest(slots: BySource, i: nat): Option<Definition>
    requires i <= |SOURCE_PRECEDENCE|
  {
    if i == 0 then None
    else if SOURCE_PRECEDENCE[i - 1] in slots then Some(slots[SOURCE_PRECEDENCE[i - 1]])
    else Strongest(slots, i - 1)
  }

  function Found(s: Store, key: string): Option<Definition> {
    if key in s.byName then Some(s.byName[key])
    else Strongest(SlotsOf(s, key), |SOURCE_PRECEDENCE|)
  }

  // ---------------------------------------------------------------- the registry

  class Registry {
    var governance: Governance
    var byName: map<string, Definition>
    var byKind: map<string, BySource>

    ghost function Contents(): Store
      reads this
    {
      Store(byName, byKind)
    }

    constructor ()
      ensures Contents() == EMPTY_STORE && governance == None
    {
      governance, byName, byKind := None, map[], map[];
    }

    method SetGovernance(g: Governance)
      modifies this
      ensures governance == g && Contents() == old(Contents())
    {
      governance := g;
    }

    method Register(def: Definition) returns (r: Outcome<RegistryError>)
      modifies this
      ensures governance == old(governance)
      ensures var after := Registered(old(Contents()), governance, def);
        if after.Success? then r == Pass && Contents() == after.value
        else r == Fail(after.error) && Contents() == old(Contents())
    {
      var checked := Check(def);
      if checked.Fail? {
        return checked;
      }
      var d := def.(source := NormalizeSource(def.source).value);
      if !Allows(governance, d.source) {
        return Fail(Blocked(d.name));
      }
      if d.name in byName {
        return Fail(NameTaken(d.name));
      }
      var slots: BySource := if d.kind in byKind then byKind[d.kind] else map[];
      if d.source in slots {
        return Fail(KindTaken(d.kind, d.source));
      }
      byName := byName[d.name := d];
      byKind := byKind[d.kind := slots[d.source := d]];
      return Pass;
    }

    /** Stages every definition before the registry changes at all. */
    method RegisterBatch(defs: seq<Definition>) returns (r: Outcome<RegistryError>)
      modifies this
      ensures governance == old(governance)
      ensures var after := BatchRegistered(old(Contents()), governance, defs);
        if after.Success? then r == Pass && Contents() == after.value
        else r == Fail(after.error) && Contents() == old(Contents())
    {
      for i := 0 to |defs|
        invariant CheckAll(defs) == CheckAll(defs[i..])
      {
        var checked := Check(defs[i]);
        if checked.Fail? {
          return checked;
        }
      }
      var nextByName, nextByKind := byName, byKind;
      for i := 0 to |defs|
        invariant Contents() == old(Contents()) && governance == old(governance)
        invariant AddAll(Contents(), governance, defs) == AddAll(Store(nextByName, nextByKind), governance, defs[i..])
      {
        var source := NormalizeSource(defs[i].source);
        if source.Failure? {
          return Fail(source.error);
        }
        var d := defs[i].(source := source.value);
        if !Allows(governance, d.source) {
          return Fail(Blocked(d.name));
        }
        if d.name in nextByName {
          return Fail(NameTaken(d.name));
        }
        var slots: BySource := if d.kind in nextByKind then nextByKind[d.kind] else map[];
        if d.source in slots {
          return Fail(KindTaken(d.kind, d.source));
        }
        ghost var staged := Store(nextByName, nextByKind);
        nextByName := nextByName[d.name := d];
        nextByKind := nextByKind[d.kind := slots[d.source := d]];
        assert Add(staged, governance, d) == Success(Store(nextByName, nextByKind));
      }
      byName, byKind := nextByName, nextByKind;
      return Pass;
    }

    method Unregister(name: string)
      modifies this
      ensures governance == old(governance)
      ensures Contents() == Unregistered(old(Contents()), name)
    {
      var n := TrimSpace(name);
      if n !in byName {
        return;
      }
      var d := byName[n];
      byName := byName - {n};
      var source := NormalizeSource(d.source);
      if source.Failure? {
        return;
      }
      var slots: BySource := if d.kind in byKind then byKind[d.kind] else map[];
      slots := slots - {source.value};
      byKind := if |slots| == 0 then byKind - {d.kind} else byKind[d.kind := slots];
    }

    method Get(key: string) returns (r: Option<Definition>)
      ensures r == Found(Contents(), key)
    {
      if key in byName {
        return Some(byName[key]);
      }
      if key in byKind {
        var i: nat := |SOURCE_PRECEDENCE|;
        while i > 0
          invariant i <= |SOURCE_PRECEDENCE|
          invariant Found(Contents(), key) == Strongest(byKind[key], i)
        {
          i := i - 1;
          if SOURCE_PRECEDENCE[i] in byKind[key] {
            return Some(byKind[key][SOURCE_PRECEDENCE[i]]);
          }
        }
        return None;
      }
      NothingIsStrongest(|SOURCE_PRECEDENCE|);
      return None;
    }
  }

  lemma {:induction false} NothingIsStrongest(i: nat)
    requires i <= |SOURCE_PRECEDENCE|
    ensures Strongest(map[], i) == None
  {
    if i > 0 {
      NothingIsStrongest(i - 1);
    }
  }

  // ---------------------------------------------------------------- what every operation keeps

  lemma PutAt(s: Store, d: Definition, n: string, k: string, o: string)
    ensures NameAt(Put(s, d), n) == if n == d.name then Some(d) else NameAt(s, n)
    ensures SlotAt(Put(s, d), k, o) == if k == d.kind && o == d.source then Some(d) else SlotAt(s, k, o)
  {
  }

  lemma PutKeepsName(s: Store, d: Definition, n: string)
    requires Views(s) && SlotAt(s, d.kind, d.source).None? && NormalizeSource(d.source) == Success(d.source)
    requires NameAt(Put(s, d), n).Some?
    ensures NamedRight(Put(s, d), n, NameAt(Put(s, d), n).value)
  {
    PutAt(s, d, n, "", "");
    if n == d.name {
      PutAt(s, d, n, d.kind, d.source);
    } else {
      var e := NameAt(s, n).value;
      assert NamedRight(s, n, e);
      PutAt(s, d, n, e.kind, e.source);
    }
  }

  lemma PutKeepsSlot(s: Store, d: Definition, k: string, o: string)
    requires Views(s) && NameAt(s, d.name).None?
    requires SlotAt(Put(s, d), k, o).Some?
    ensures FiledRight(Put(s, d), k, o, SlotAt(Put(s, d), k, o).value)
  {
    PutAt(s, d, "", k, o);
    if k == d.kind && o == d.source {
      PutAt(s, d, d.name, k, o);
    } else {
      var e := SlotAt(s, k, o).value;
      assert FiledRight(s, k, o, e);
      PutAt(s, d, e.name, k, o);
    }
  }

  lemma PutLeavesNoEmptyKind(s: Store, d: Definition)
    requires NoEmptyKind(s)
    ensures NoEmptyKind(Put(s, d))
  {
    assert d.source in Put(s, d).byKind[d.kind];
  }

  lemma PutKeepsViews(s: Store, d: Definition)
    requires Views(s) && NameAt(s, d.name).None? && SlotAt(s, d.kind, d.source).None?
    requires NormalizeSource(d.source) == Success(d.source)
    ensures Views(Put(s, d))
  {
    PutLeavesNoEmptyKind(s, d);
    forall n | NameAt(Put(s, d), n).Some? ensures NamedRight(Put(s, d), n, NameAt(Put(s, d), n).value) {
      PutKeepsName(s, d, n);
    }
    forall k, o | SlotAt(Put(s, d), k, o).Some? ensures FiledRight(Put(s, d), k, o, SlotAt(Put(s, d), k, o).value) {
      PutKeepsSlot(s, d, k, o);
    }
  }

  lemma NormalizingIsIdempotent(source: string)
    ensures NormalizeSource(source).Success? ==>
        NormalizeSource(NormalizeSource(source).value) == NormalizeSource(source)
  {
  }

  lemma AddKeepsViews(s: Store, g: Governance, d: Definition)
    requires Views(s) && NormalizeSource(d.source) == Success(d.source) && Add(s, g, d).Success?
    ensures Views(Add(s, g, d).value)
  {
    PutKeepsViews(s, d);
  }

  lemma {:induction false} AddAllKeepsViews(s: Store, g: Governance, defs: seq<Definition>)
    requires Views(s) && AddAll(s, g, defs).Success?
    ensures Views(AddAll(s, g, defs).value)
    decreases defs
  {
    if defs != [] {
      NormalizingIsIdempotent(defs[0].source);
      var d := defs[0].(source := NormalizeSource(defs[0].source).value);
      AddKeepsViews(s, g, d);
      AddAllKeepsViews(Add(s, g, d).value, g, defs[1..]);
    }
  }

  /** What is left when `d`, registered under its name and its slot, is taken out. */
  function TakeOut(s: Store, d: Definition): Store {
    var slots := SlotsOf(s, d.kind) - {d.source};
    Store(s.byName - {d.name}, if slots == map[] then s.byKind - {d.kind} else s.byKind[d.kind := slots])
  }

  lemma UnregisteredTakesOut(s: Store, name: string)
    requires Views(s)
    ensures Unregistered(s, name)
        == if NameAt(s, TrimSpace(name)).None? then s else TakeOut(s, NameAt(s, TrimSpace(name)).value)
  {
    if NameAt(s, TrimSpace(name)).Some? {
      assert NamedRight(s, TrimSpace(name), NameAt(s, TrimSpace(name)).value);
    }
  }

  lemma TakenNameAt(s: Store, d: Definition, n: string)
    ensures NameAt(TakeOut(s, d), n) == if n == d.name then None else NameAt(s, n)
  {
  }

  lemma TakenSlotAt(s: Store, d: Definition, k: string, o: string)
    ensures SlotAt(TakeOut(s, d), k, o) == if k == d.kind && o == d.source then None else SlotAt(s, k, o)
  {
    var slots := SlotsOf(s, d.kind) - {d.source};
    if k == d.kind && o != d.source && SlotAt(s, k, o).Some? {
      assert o in slots;
    }
  }

  lemma TakingKeepsName(s: Store, d: Definition, n: string)
    requires Views(s) && NameAt(s, d.name) == Some(d) && NameAt(TakeOut(s, d), n).Some?
    ensures NamedRight(TakeOut(s, d), n, NameAt(TakeOut(s, d), n).value)
  {
    TakenNameAt(s, d, n);
    var e := NameAt(s, n).value;
    assert NamedRight(s, n, e) && NamedRight(s, d.name, d);
    TakenSlotAt(s, d, e.kind, e.source);
  }

  lemma TakingKeepsSlot(s: Store, d: Definition, k: string, o: string)
    requires Views(s) && NameAt(s, d.name) == Some(d) && SlotAt(TakeOut(s, d), k, o).Some?
    ensures FiledRight(TakeOut(s, d), k, o, SlotAt(TakeOut(s, d), k, o).value)
  {
    TakenSlotAt(s, d, k, o);
    var e := SlotAt(s, k, o).value;
    assert FiledRight(s, k, o, e) && NamedRight(s, d.name, d);
    TakenNameAt(s, d, e.name);
  }

  lemma TakingLeavesNoEmptyKind(s: Store, d: Definition)
    requires NoEmptyKind(s)
    ensures NoEmptyKind(TakeOut(s, d))
  {
  }

  lemma UnregisterKeepsViews(s: Store, name: string)
    requires Views(s)
    ensures Views(Unregistered(s, name))
  {
    UnregisteredTakesOut(s, name);
    if NameAt(s, TrimSpace(name)).Some? {
      var d := NameAt(s, TrimSpace(name)).value;
      assert NamedRight(s, TrimSpace(name), d);
      var t := TakeOut(s, d);
      TakingLeavesNoEmptyKind(s, d);
      forall n | NameAt(t, n).Some? ensures NamedRight(t, n, NameAt(t, n).value) {
        TakingKeepsName(s, d, n);
      }
      forall k, o | SlotAt(t, k, o).Some? ensures FiledRight(t, k, o, SlotAt(t, k, o).value) {
        TakingKeepsSlot(s, d, k, o);
      }
    }
  }

  datatype Action =
    | Register(def: Definition)
    | RegisterBatch(defs: seq<Definition>)
    | Unregister(name: string)
    | SetGovernance(g: Governance)

  datatype State = State(store: Store, governance: Governance)

  function Kept(s: Store, r: Result<Store, RegistryError>): Store {
    if r.Success? then r.value else s
  }

  function Next(s: State, a: Action): State {
    match a
    case Register(def) => s.(store := Kept(s.store, Registered(s.store, s.governance, def)))
    case RegisterBatch(defs) => s.(store := Kept(s.store, BatchRegistered(s.store, s.governance, defs)))
    case Unregister(name) => s.(store := Unregistered(s.store, name))
    case SetGovernance(g) => s.(governance := g)
  }

  function After(actions: seq<Action>): State {
    if actions == [] then State(EMPTY_STORE, None)
    else Next(After(actions[..|actions| - 1]), actions[|actions| - 1])
  }

  /** After any run of operations, the two maps are views of one set. */
  lemma {:induction false} EveryRunKeepsViews(actions: seq<Action>)
    ensures Views(After(actions).store)
  {
    if actions != [] {
      var before, a := After(actions[..|actions| - 1]), actions[|actions| - 1];
      EveryRunKeepsViews(actions[..|actions| - 1]);
      match a
      case Register(def) =>
        if Registered(before.store, before.governance, def).Success? {
          NormalizingIsIdempotent(def.source);
          AddKeepsViews(before.store, before.governance, def.(source := NormalizeSource(def.source).value));
        }
      case RegisterBatch(defs) =>
        if BatchRegistered(before.store, before.governance, defs).Success? {
          AddAllKeepsViews(before.store, before.governance, defs);
        }
      case Unregister(name) =>
        UnregisterKeepsViews(before.store, name);
      case SetGovernance(g) =>
    }
  }

  // ---------------------------------------------------------------- batches

  lemma {:induction false} PassedAddAlike(s: Store, g: Governance, defs: seq<Definition>)
    requires CheckAll(defs).Pass?
    ensures AddAll(s, g, defs) == OneByOne(s, g, defs)
    decreases defs
  {
    if defs != [] {
      var added := Registered(s, g, defs[0]);
      if added.Success? {
        PassedAddAlike(added.value, g, defs[1..]);
      }
    }
  }

  lemma {:induction false} OneByOneChecksAll(s: Store, g: Governance, defs: seq<Definition>)
    requires OneByOne(s, g, defs).Success?
    ensures CheckAll(defs).Pass?
    decreases defs
  {
    if defs != [] {
      OneByOneChecksAll(Registered(s, g, defs[0]).value, g, defs[1..]);
    }
  }

  /** A batch succeeds exactly when registering one by one does, and leaves the same registry. */
  lemma BatchIsOneByOne(s: Store, g: Governance, defs: seq<Definition>)
    ensures BatchRegistered(s, g, defs).Success? <==> OneByOne(s, g, defs).Success?
    ensures BatchRegistered(s, g, defs).Success? ==> BatchRegistered(s, g, defs) == OneByOne(s, g, defs)
  {
    if CheckAll(defs).Pass? {
      PassedAddAlike(s, g, defs);
    }
    if OneByOne(s, g, defs).Success? {
      OneByOneChecksAll(s, g, defs);
    }
  }

  // ---------------------------------------------------------------- taking back

  lemma TakingBackNames(s: Store, d: Definition)
    requires NameAt(s, d.name).None?
    ensures Put(s, d).byName - {d.name} == s.byName
  {
  }

  lemma TakingBackSlots(s: Store, d: Definition)
    requires SlotAt(s, d.kind, d.source).None?
    ensures SlotsOf(Put(s, d), d.kind) - {d.source} == SlotsOf(s, d.kind)
  {
  }

  lemma TakingBack(s: Store, d: Definition)
    requires NoEmptyKind(s) && NameAt(s, d.name).None? && SlotAt(s, d.kind, d.source).None?
    ensures TakeOut(Put(s, d), d) == s
  {
    TakingBackNames(s, d);
    TakingBackSlots(s, d);
    if d.kind in s.byKind {
      assert s.byKind[d.kind := s.byKind[d.kind]] == s.byKind;
    } else {
      assert Put(s, d).byKind - {d.kind} == s.byKind;
    }
  }

  lemma UntrimmedStays(s: Store, d: Definition)
    requires d.name !in s.byName && TrimSpace(d.name) != d.name
    ensures Unregistered(Put(s, d), d.name) != s
  {
    assert d.name in Unregistered(Put(s, d), d.name).byName;
  }

  /** Unregistering what was just registered restores the registry exactly when the name is trimmed. */
  lemma UnregisterUndoesRegister(s: Store, g: Governance, def: Definition)
    requires Views(s) && Registered(s, g, def).Success?
    ensures Unregistered(Registered(s, g, def).value, def.name) == s <==> TrimSpace(def.name) == def.name
  {
    NormalizingIsIdempotent(def.source);
    var d := def.(source := NormalizeSource(def.source).value);
    if TrimSpace(d.name) == d.name {
      PutKeepsViews(s, d);
      UnregisteredTakesOut(Put(s, d), d.name);
      TakingBack(s, d);
    } else {
      UntrimmedStays(s, d);
    }
  }

  // ---------------------------------------------------------------- lookup by kind

  /** The first hit from above: no stronger source below `n` has a definition. */
  lemma {:induction false} StrongestWins(slots: BySource, n: nat)
    requires n <= |SOURCE_PRECEDENCE|
    ensures match Strongest(slots, n)
      case Some(d) =>
        (exists i :: 0 <= i < n && SOURCE_PRECEDENCE[i] in slots && slots[SOURCE_PRECEDENCE[i]] == d
           && forall j :: i < j < n ==> SOURCE_PRECEDENCE[j] !in slots)
      case None => forall j :: 0 <= j < n ==> SOURCE_PRECEDENCE[j] !in slots
  {
    if n > 0 && SOURCE_PRECEDENCE[n - 1] !in slots {
      StrongestWins(slots, n - 1);
    }
  }

  /** A kind is answered with its definition of the highest precedence. */
  lemma KindFindsTheStrongest(s: Store, kind: string)
    requires Views(s) && kind !in s.byName
    ensures Found(s, kind).Some? <==> kind in s.byKind
    ensures Found(s, kind).Some? ==>
        var d := Found(s, kind).value;
        d.kind == kind && NameAt(s, d.name) == Some(d)
        && (exists i :: 0 <= i < |SOURCE_PRECEDENCE| && SOURCE_PRECEDENCE[i] == d.source
              && forall j :: i < j < |SOURCE_PRECEDENCE| ==> SOURCE_PRECEDENCE[j] !in s.byKind[kind])
  {
    StrongestWins(SlotsOf(s, kind), |SOURCE_PRECEDENCE|);
    if kind in s.byKind {
      var slots := s.byKind[kind];
      var o :| o in slots;
      assert SlotAt(s, kind, o) == Some(slots[o]) && FiledRight(s, kind, o, slots[o]);
      assert NamedRight(s, slots[o].name, slots[o]);
      assert o in SOURCE_PRECEDENCE;
      var k :| 0 <= k < |SOURCE_PRECEDENCE| && SOURCE_PRECEDENCE[k] == o;
      var d := Found(s, kind).value;
      var i :| 0 <= i < |SOURCE_PRECEDENCE| && SOURCE_PRECEDENCE[i] in slots && slots[SOURCE_PRECEDENCE[i]] == d
        && forall j :: i < j < |SOURCE_PRECEDENCE| ==> SOURCE_PRECEDENCE[j] !in slots;
      assert SlotAt(s, kind, SOURCE_PRECEDENCE[i]) == Some(d) && FiledRight(s, kind, SOURCE_PRECEDENCE[i], d);
    }
  }
}
