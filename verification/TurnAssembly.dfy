/**
 Building the frozen assembly of a turn, and validating one by building it again from its own
 parts. Hashing, sorting of equal tools, the integrity check of the admission facts and the list of
 known hidden reasons are parameters.
 */
module TurnAssembly {
  import SortedStrings
  import opened Sorting
  import opened Text
  import opened ToolSurface
  import opened Wrappers

  const SCHEMA_VERSION := "aiops.turn-assembly.v1"
  const REQUEST_SCOPE := "request_scope"
  const DISPATCH_SCOPE := "dispatch_scope"

  datatype Intent = Intent(kind: string, riskBudget: seq<string>, details: string)

  /** `controls` stands for the remaining fields that are hashed, `extras` for those that are not. */
  datatype Facts = Facts(intent: Intent, permissionProfile: string, sourceRefs: seq<string>, controls: string, extras: string)

  datatype ContextSelector = ContextSelector(lifecycle: string, policy: string, budget: string, hash: string)
  datatype LoopPolicy = LoopPolicy(lifecycle: string, maxIterations: int, toolCallPolicy: string, hash: string)
  datatype FinalContract = FinalContract(lifecycle: string, shape: string, hash: string)

  datatype Input = Input(
    facts: Facts,
    admissionError: string,
    permissionProfile: string,
    surface: Surface,
    context: ContextSelector,
    loop: LoopPolicy,
    contract: FinalContract,
    rollbackPolicy: string,
    sourceRefs: seq<string>)

  datatype Assembly = Assembly(
    schemaVersion: string,
    facts: Facts,
    permissionProfile: string,
    surface: Surface,
    context: ContextSelector,
    loop: LoopPolicy,
    contract: FinalContract,
    rollbackPolicy: string,
    sourceRefs: Option<seq<string>>,
    hash: string)

  /** The values that are hashed. */
  datatype Hashed =
    | FingerprintOf(visible: seq<Tool>, dispatchable: seq<Tool>, hidden: seq<Tool>, policyHash: string)
    | SurfaceOf(registered: seq<Tool>, visible: seq<Tool>, dispatchable: seq<Tool>, hidden: seq<Tool>,
                policyHash: string, fingerprint: string)
    | ContextOf(selector: ContextSelector)
    | LoopOf(lifecycle: string, maxIterations: int, toolCallPolicy: string)
    | ContractOf(contract: FinalContract)
    | AdmissionOf(intent: Intent, permissionProfile: string, sourceRefs: seq<string>, controls: string)
    | AssemblyOf(parts: Parts)

  /** What the hash of an assembly covers. */
  datatype Parts = Parts(schemaVersion: string, admissionHash: string, permissionProfile: string, surfaceHash: string,
                         contextHash: string, loopHash: string, contractHash: string, rollbackPolicy: string,
                         sourceRefs: Option<seq<string>>)

  datatype Env = Env(hash: Hashed -> string, sort: seq<Tool> -> seq<Tool>, integrity: Facts -> bool, reasons: set<string>)

  predicate SortsTo(s: seq<Tool>, sorted: seq<Tool>) {
    Sorted(ToolLeq, sorted) && multiset(sorted) == multiset(s)
  }

  /** A hash is never blank; sorting sorts, and may order tools of one identity in any way. */
  ghost predicate Sound(env: Env) {
    (forall h :: env.hash(h) != "" && Trimmed(env.hash(h)))
    && forall s :: SortsTo(s, env.sort(s))
  }

  datatype BuildError =
    | InvalidFacts
    | AdmissionFailed
    | PermissionConflict
    | InvalidSurface(error: SurfaceError)
    | PermissionRequired
    | RollbackRequired
    | ToolNotReady(key: string)

  // ---------------------------------------------------------------- normal forms of the parts

  function NormalContext(env: Env, c: ContextSelector): ContextSelector {
    var n := ContextSelector(FirstNonEmpty(c.lifecycle, REQUEST_SCOPE), TrimSpace(c.policy), TrimSpace(c.budget), c.hash);
    n.(hash := env.hash(ContextOf(n)))
  }

  function NormalLoop(env: Env, l: LoopPolicy): LoopPolicy {
    var n := l.(toolCallPolicy := TrimSpace(l.toolCallPolicy), lifecycle := FirstNonEmpty(l.lifecycle, REQUEST_SCOPE));
    n.(hash := env.hash(LoopOf(n.lifecycle, n.maxIterations, n.toolCallPolicy)))
  }

  function NormalContract(env: Env, c: FinalContract): FinalContract {
    var n := c.(shape := TrimSpace(c.shape), lifecycle := FirstNonEmpty(c.lifecycle, REQUEST_SCOPE));
    n.(hash := env.hash(ContractOf(n)))
  }

  function DefaultTools(tools: seq<Tool>, fallback: seq<Tool>): seq<Tool> {
    if tools == [] then fallback else tools
  }

  function Fingerprint(env: Env, given: string, visible: seq<Tool>, dispatchable: seq<Tool>, hidden: seq<Tool>, policyHash: string): string {
    if given == "" then env.hash(FingerprintOf(visible, dispatchable, hidden, policyHash)) else given
  }

  /** The sorted lists with their defaults, the fingerprint and the hash over all of it. */
  function NormalSurface(env: Env, s: Surface): Surface {
    var visible := env.sort(s.visible);
    var dispatchable := DefaultTools(env.sort(s.dispatchable), visible);
    var registered := DefaultTools(env.sort(s.registered), dispatchable);
    var hidden := env.sort(s.hidden);
    var policyHash := TrimSpace(s.policyHash);
    var fingerprint := Fingerprint(env, TrimSpace(s.fingerprint), visible, dispatchable, hidden, policyHash);
    Surface(DISPATCH_SCOPE, registered, visible, dispatchable, hidden, policyHash, fingerprint,
            env.hash(SurfaceOf(registered, visible, dispatchable, hidden, policyHash, fingerprint)))
  }

  predicate RequiresChange(intent: Intent) {
    intent.kind == "change" || intent.kind == "configure"
    || "write" in intent.riskBudget || "host_exec" in intent.riskBudget || "destructive" in intent.riskBudget
  }

  function AdmissionHash(env: Env, f: Facts): string {
    env.hash(AdmissionOf(f.intent, f.permissionProfile, f.sourceRefs, f.controls))
  }

  function PartsOf(env: Env, a: Assembly): Parts {
    Parts(a.schemaVersion, AdmissionHash(env, a.facts), a.permissionProfile, a.surface.hash, a.context.hash, a.loop.hash,
          a.contract.hash, a.rollbackPolicy, a.sourceRefs)
  }

  /** The assembly before the checks for changes and before its hash is set. */
  function Draft(env: Env, input: Input): Assembly {
    Assembly(
      SCHEMA_VERSION, input.facts,
      FirstNonEmpty(TrimSpace(input.permissionProfile), TrimSpace(input.facts.permissionProfile)),
      NormalSurface(env, input.surface),
      NormalContext(env, input.context.(hash := "")), NormalLoop(env, input.loop),
      NormalContract(env, input.contract.(hash := "")),
      TrimSpace(input.rollbackPolicy), SortedStrings.UniqueSorted(input.facts.sourceRefs + input.sourceRefs), "")
  }

  /** What a turn that changes something must bring along. */
  function CheckChange(a: Assembly): Outcome<BuildError> {
    if !RequiresChange(a.facts.intent) then Pass
    else if a.permissionProfile == "" then Fail(PermissionRequired)
    else if a.rollbackPolicy == "" then Fail(RollbackRequired)
    else
      match CheckReadiness(a.surface.visible + a.surface.dispatchable, {})
      case Pass => Pass
      case Fail(key) => Fail(ToolNotReady(key))
  }

  predicate PermissionsConflict(given: string, admitted: string) {
    given != "" && admitted != "" && given != admitted
  }

  function Build(env: Env, input: Input): Result<Assembly, BuildError> {
    if !env.integrity(input.facts) then Failure(InvalidFacts)
    else if TrimSpace(input.admissionError) != "" then Failure(AdmissionFailed)
    else if PermissionsConflict(TrimSpace(input.permissionProfile), TrimSpace(input.facts.permissionProfile)) then
      Failure(PermissionConflict)
    else
      var draft := Draft(env, input);
      var surface := CheckSurface(draft.surface, env.reasons);
      if surface.Fail? then Failure(InvalidSurface(surface.error))
      else
        match CheckChange(draft)
        case Fail(e) => Failure(e)
        case Pass => Success(draft.(hash := env.hash(AssemblyOf(PartsOf(env, draft)))))
  }

  function InputOf(a: Assembly): Input {
    Input(a.facts, "", a.permissionProfile, a.surface, a.context, a.loop, a.contract, a.rollbackPolicy, SortedStrings.Listed(a.sourceRefs))
  }

  function Rebuild(env: Env, a: Assembly): Result<Assembly, BuildError> {
    Build(env, InputOf(a))
  }

  datatype ValidationError = WrongSchema | NotRebuilt(error: BuildError) | HashMismatch

  function Validate(env: Env, a: Assembly): Outcome<ValidationError> {
    if TrimSpace(a.schemaVersion) != SCHEMA_VERSION then Fail(WrongSchema)
    else
      match Rebuild(env, a)
      case Failure(e) => Fail(NotRebuilt(e))
      case Success(r) => if TrimSpace(a.hash) == "" || a.hash != r.hash then Fail(HashMismatch) else Pass
  }

  // ---------------------------------------------------------------- the parts are fixed points

  lemma ContextIsFixed(env: Env, c: ContextSelector)
    requires Sound(env)
    ensures NormalContext(env, NormalContext(env, c.(hash := "")).(hash := "")) == NormalContext(env, c.(hash := ""))
  {
    TrimSpaceTrims(c.policy);
    TrimSpaceTrims(TrimSpace(c.policy));
    TrimSpaceTrims(c.budget);
    TrimSpaceTrims(TrimSpace(c.budget));
  }

  lemma LoopIsFixed(env: Env, l: LoopPolicy)
    ensures NormalLoop(env, NormalLoop(env, l)) == NormalLoop(env, l)
  {
    TrimSpaceTrims(l.toolCallPolicy);
    TrimSpaceTrims(TrimSpace(l.toolCallPolicy));
  }

  lemma ContractIsFixed(env: Env, c: FinalContract)
    ensures NormalContract(env, NormalContract(env, c.(hash := "")).(hash := "")) == NormalContract(env, c.(hash := ""))
  {
    TrimSpaceTrims(c.shape);
    TrimSpaceTrims(TrimSpace(c.shape));
  }

  /** Sorting the lists of the surface again leaves them as they are. */
  predicate InPlace(env: Env, s: Surface) {
    env.sort(s.registered) == s.registered && env.sort(s.visible) == s.visible
    && env.sort(s.dispatchable) == s.dispatchable && env.sort(s.hidden) == s.hidden
  }

  lemma SortKeepsEmpty(env: Env)
    requires Sound(env)
    ensures env.sort([]) == []
  {
    var r := env.sort([]);
    assert SortsTo([], r);
    assert |multiset(r)| == |r|;
  }

  lemma ListsOfNormal(env: Env, s: Surface)
    ensures var n := NormalSurface(env, s);
      (n.dispatchable == [] ==> n.visible == []) && (n.registered == [] ==> n.dispatchable == [])
      && n.policyHash == TrimSpace(s.policyHash) && n.lifecycle == DISPATCH_SCOPE
      && n.hash == env.hash(SurfaceOf(n.registered, n.visible, n.dispatchable, n.hidden, n.policyHash, n.fingerprint))
  {
  }

  lemma FingerprintIsGiven(env: Env, s: Surface)
    requires Sound(env)
    ensures NormalSurface(env, s).fingerprint != "" && Trimmed(NormalSurface(env, s).fingerprint)
  {
    TrimSpaceTrims(s.fingerprint);
  }

  lemma NormalOfSettled(env: Env, n: Surface)
    requires InPlace(env, n) && n.fingerprint != "" && Trimmed(n.fingerprint) && Trimmed(n.policyHash)
    requires (n.dispatchable == [] ==> n.visible == []) && (n.registered == [] ==> n.dispatchable == [])
    requires n.lifecycle == DISPATCH_SCOPE
    requires n.hash == env.hash(SurfaceOf(n.registered, n.visible, n.dispatchable, n.hidden, n.policyHash, n.fingerprint))
    ensures NormalSurface(env, n) == n
  {
    TrimSpaceTrims(n.fingerprint);
    TrimSpaceTrims(n.policyHash);
  }

  lemma SurfaceIsFixed(env: Env, s: Surface)
    requires Sound(env)
    ensures NormalSurface(env, NormalSurface(env, s)) == NormalSurface(env, s) <==> InPlace(env, NormalSurface(env, s))
  {
    var n := NormalSurface(env, s);
    ListsOfNormal(env, s);
    FingerprintIsGiven(env, s);
    TrimSpaceTrims(s.policyHash);
    if InPlace(env, n) {
      NormalOfSettled(env, n);
    }
    if NormalSurface(env, n) == n {
      RefilledListsAreSorted(env, n);
    }
  }

  /** A list that is filled in on rebuilding was empty before, so it was sorted as it was. */
  lemma RefilledListsAreSorted(env: Env, n: Surface)
    requires Sound(env) && NormalSurface(env, n) == n
    ensures InPlace(env, n)
  {
    EmptyOnlyFromEmpty(env, n.dispatchable);
    EmptyOnlyFromEmpty(env, n.registered);
  }

  lemma EmptyOnlyFromEmpty(env: Env, s: seq<Tool>)
    requires Sound(env)
    ensures env.sort(s) == [] <==> s == []
  {
    assert SortsTo(s, env.sort(s));
    assert |multiset(s)| == |s| && |multiset(env.sort(s))| == |env.sort(s)|;
  }

  // ---------------------------------------------------------------- built assemblies are fixed points

  lemma BuiltIsDraft(env: Env, input: Input, a: Assembly)
    requires Build(env, input) == Success(a)
    ensures a == Draft(env, input).(hash := env.hash(AssemblyOf(PartsOf(env, Draft(env, input)))))
    ensures CheckSurface(a.surface, env.reasons).Pass? && CheckChange(a).Pass? && env.integrity(a.facts)
    ensures !PermissionsConflict(TrimSpace(input.permissionProfile), TrimSpace(input.facts.permissionProfile))
  {
    assert CheckChange(Draft(env, input)) == CheckChange(a);
  }

  /** The permission profile of a built assembly does not conflict with its facts. */
  lemma PermissionIsFixed(given: string, admitted: string)
    requires !PermissionsConflict(TrimSpace(given), TrimSpace(admitted))
    ensures var p := FirstNonEmpty(TrimSpace(given), TrimSpace(admitted));
      TrimSpace(p) == p && !PermissionsConflict(p, TrimSpace(admitted)) && FirstNonEmpty(p, TrimSpace(admitted)) == p
  {
    TrimSpaceTrims(given);
    TrimSpaceTrims(admitted);
    TrimSpaceTrims(FirstNonEmpty(TrimSpace(given), TrimSpace(admitted)));
  }

  /** The source references of a turn built again. */
  function RefsAgain(input: Input): Option<seq<string>> {
    var built := SortedStrings.UniqueSorted(input.facts.sourceRefs + input.sourceRefs);
    SortedStrings.UniqueSorted(input.facts.sourceRefs + SortedStrings.Listed(built))
  }

  /** The references given are not blank only, or others are admitted: an empty list is not kept as one. */
  predicate RefsStay(input: Input) {
    input.facts.sourceRefs != [] || input.sourceRefs == [] || SortedStrings.Values(input.sourceRefs) != {}
  }

  lemma DraftAgain(env: Env, input: Input)
    requires Sound(env)
    requires !PermissionsConflict(TrimSpace(input.permissionProfile), TrimSpace(input.facts.permissionProfile))
    ensures var d := Draft(env, input);
      Draft(env, InputOf(d)) == d.(surface := NormalSurface(env, d.surface), sourceRefs := RefsAgain(input))
  {
    PermissionIsFixed(input.permissionProfile, input.facts.permissionProfile);
    ContextIsFixed(env, input.context);
    LoopIsFixed(env, input.loop);
    ContractIsFixed(env, input.contract);
    TrimSpaceTrims(input.rollbackPolicy);
    TrimSpaceTrims(TrimSpace(input.rollbackPolicy));
  }

  /** Sorting the sorted lists of the input once more leaves them as they are. */
  predicate SortsSettle(env: Env, s: Surface) {
    && env.sort(env.sort(s.registered)) == env.sort(s.registered)
    && env.sort(env.sort(s.visible)) == env.sort(s.visible)
    && env.sort(env.sort(s.dispatchable)) == env.sort(s.dispatchable)
    && env.sort(env.sort(s.hidden)) == env.sort(s.hidden)
  }

  lemma SettledIsInPlace(env: Env, s: Surface)
    requires Sound(env)
    ensures InPlace(env, NormalSurface(env, s)) <==> SortsSettle(env, s)
  {
    SortKeepsEmpty(env);
    EmptyOnlyFromEmpty(env, s.dispatchable);
    EmptyOnlyFromEmpty(env, s.registered);
  }

  lemma RebuildsToItself(env: Env, input: Input, a: Assembly)
    requires Sound(env) && Build(env, input) == Success(a) && SortsSettle(env, input.surface) && RefsStay(input)
    ensures Rebuild(env, a) == Success(a)
  {
    BuiltIsDraft(env, input, a);
    var d := Draft(env, input);
    DraftAgain(env, input);
    SettledIsInPlace(env, input.surface);
    SurfaceIsFixed(env, input.surface);
    SortedStrings.UniqueSortedAbsorbs(input.facts.sourceRefs, input.sourceRefs);
    assert InputOf(a) == InputOf(d);
    assert Draft(env, InputOf(a)) == d;
    PermissionIsFixed(input.permissionProfile, input.facts.permissionProfile);
    assert TrimSpace("") == "";
    assert CheckChange(d) == CheckChange(a);
  }

  lemma RebuiltParts(env: Env, input: Input, a: Assembly, r: Assembly)
    requires Sound(env) && Build(env, input) == Success(a) && Rebuild(env, a) == Success(r)
    ensures r.surface == NormalSurface(env, NormalSurface(env, input.surface)) && a.surface == NormalSurface(env, input.surface)
    ensures r.sourceRefs == RefsAgain(input)
    ensures a.sourceRefs == SortedStrings.UniqueSorted(input.facts.sourceRefs + input.sourceRefs)
  {
    BuiltIsDraft(env, input, a);
    BuiltIsDraft(env, InputOf(a), r);
    DraftAgain(env, input);
    assert InputOf(a) == InputOf(Draft(env, input));
  }

  /**
   Building a built assembly again gives the same assembly and hash exactly when sorting settles at
   once and the source references given were not blank only while none were admitted.
   */
  lemma BuiltIsFixed(env: Env, input: Input, a: Assembly)
    requires Sound(env) && Build(env, input) == Success(a)
    ensures Rebuild(env, a) == Success(a) <==> SortsSettle(env, input.surface) && RefsStay(input)
  {
    if SortsSettle(env, input.surface) && RefsStay(input) {
      RebuildsToItself(env, input, a);
    }
    if Rebuild(env, a) == Success(a) {
      RebuiltParts(env, input, a, a);
      SurfaceIsFixed(env, input.surface);
      SettledIsInPlace(env, input.surface);
      SortedStrings.UniqueSortedAbsorbs(input.facts.sourceRefs, input.sourceRefs);
    }
  }

  lemma SchemaIsTrimmed()
    ensures TrimSpace(SCHEMA_VERSION) == SCHEMA_VERSION
  {
    TrimSpaceTrims(SCHEMA_VERSION);
  }

  lemma HashIsGiven(env: Env, h: Hashed)
    requires Sound(env)
    ensures Trimmed(env.hash(h)) && TrimSpace(env.hash(h)) == env.hash(h) != ""
  {
    TrimSpaceTrims(env.hash(h));
  }

  lemma BuiltIsSigned(env: Env, input: Input, a: Assembly)
    requires Sound(env) && Build(env, input) == Success(a)
    ensures a.schemaVersion == SCHEMA_VERSION && TrimSpace(a.hash) != ""
  {
    BuiltIsDraft(env, input, a);
    HashIsGiven(env, AssemblyOf(PartsOf(env, Draft(env, input))));
  }

  /** A freshly built assembly passes validation. */
  lemma BuiltIsValid(env: Env, input: Input, a: Assembly)
    requires Sound(env) && Build(env, input) == Success(a) && SortsSettle(env, input.surface) && RefsStay(input)
    ensures Validate(env, a) == Pass
  {
    RebuildsToItself(env, input, a);
    BuiltIsSigned(env, input, a);
    SchemaIsTrimmed();
  }

  predicate DistinctLists(s: Surface) {
    DistinctTools(s.registered) && DistinctTools(s.visible) && DistinctTools(s.dispatchable) && DistinctTools(s.hidden)
  }

  ghost predicate Stable(env: Env) {
    forall s :: Sorted(ToolLeq, s) ==> env.sort(s) == s
  }

  lemma DistinctSettles(env: Env, s: seq<Tool>)
    requires Sound(env) && (DistinctTools(s) || Stable(env))
    ensures env.sort(env.sort(s)) == env.sort(s)
  {
    assert SortsTo(s, env.sort(s)) && SortsTo(env.sort(s), env.sort(env.sort(s)));
    if DistinctTools(s) {
      ToolsAreOrdered();
      DistinctToolsAreSeparate(s);
      forall x ensures x in env.sort(s) <==> x in s {
        SameElements(env.sort(s), s, x);
      }
      OneOrder(ToolLeq, env.sort(s), env.sort(env.sort(s)));
    }
  }

  /** Sorting settles when the identities in each list are distinct, or when it keeps sorted lists. */
  lemma DistinctStaysInPlace(env: Env, s: Surface)
    requires Sound(env) && (DistinctLists(s) || Stable(env))
    ensures SortsSettle(env, s)
  {
    DistinctSettles(env, s.registered);
    DistinctSettles(env, s.visible);
    DistinctSettles(env, s.dispatchable);
    DistinctSettles(env, s.hidden);
  }

  /** A stable sort and any trimmed non-blank hash satisfy what is asked of them. */
  lemma StableSortIsSound(hash: Hashed -> string, integrity: Facts -> bool, reasons: set<string>)
    requires forall h :: hash(h) != "" && Trimmed(hash(h))
    ensures var env := Env(hash, s => Sort(ToolLeq, s), integrity, reasons); Sound(env) && Stable(env)
  {
    ToolsAreOrdered();
    forall s: seq<Tool> ensures SortsTo(s, Sort(ToolLeq, s)) {
      SortSorts(ToolLeq, s);
    }
    forall s: seq<Tool> | Sorted(ToolLeq, s) ensures Sort(ToolLeq, s) == s {
      SortKeepsSorted(ToolLeq, s);
    }
  }

  /** A turn without tools that changes nothing, with some source references. */
  function PlainTurn(refs: seq<string>): Input {
    Input(Facts(Intent("explain", [], ""), "", [], "", ""), "", "", Surface("", [], [], [], [], "", "", ""),
          ContextSelector("", "", "", ""), LoopPolicy("", 0, "", ""), FinalContract("", "", ""), "", refs)
  }

  lemma PlainTurnIsBuilt(env: Env, refs: seq<string>)
    requires Sound(env) && forall f :: env.integrity(f)
    ensures Build(env, PlainTurn(refs)).Success? && SortsSettle(env, PlainTurn(refs).surface)
  {
    SortKeepsEmpty(env);
    var draft := Draft(env, PlainTurn(refs));
    assert CheckSurface(draft.surface, env.reasons).Pass?;
  }

  // ---------------------------------------------------------------- what a valid hash vouches for

  /** Hashing trims strings and sorts lists, so only parts in that form can be told apart. */
  predicate NormalParts(p: Parts) {
    Trimmed(p.schemaVersion) && Trimmed(p.admissionHash) && Trimmed(p.permissionProfile) && Trimmed(p.surfaceHash)
    && Trimmed(p.contextHash) && Trimmed(p.loopHash) && Trimmed(p.contractHash) && Trimmed(p.rollbackPolicy)
    && (p.sourceRefs.Some? ==> SortedStrings.Normal(p.sourceRefs.value))
  }

  /** Different parts have different hashes. */
  ghost predicate CollisionFree(env: Env) {
    forall p, q :: NormalParts(p) && NormalParts(q) && env.hash(AssemblyOf(p)) == env.hash(AssemblyOf(q)) ==> p == q
  }

  lemma DraftHashesAreTrimmed(env: Env, input: Input)
    requires Sound(env)
    ensures var d := Draft(env, input);
      Trimmed(AdmissionHash(env, d.facts)) && Trimmed(d.surface.hash) && Trimmed(d.context.hash)
      && Trimmed(d.loop.hash) && Trimmed(d.contract.hash)
  {
    ListsOfNormal(env, input.surface);
  }

  lemma DraftPartsAreNormal(env: Env, input: Input)
    requires Sound(env)
    ensures NormalParts(PartsOf(env, Draft(env, input)))
  {
    hide NormalSurface, SortedStrings.UniqueSorted, SortedStrings.Normal, TrimSpace, AdmissionHash;
    DraftHashesAreTrimmed(env, input);
    TrimSpaceTrims(input.permissionProfile);
    TrimSpaceTrims(input.facts.permissionProfile);
    TrimSpaceTrims(input.rollbackPolicy);
    SortedStrings.ResultIsNormal(input.facts.sourceRefs + input.sourceRefs);
  }

  lemma BuiltPartsAreHashed(env: Env, input: Input, a: Assembly)
    requires Sound(env) && Build(env, input) == Success(a)
    ensures NormalParts(PartsOf(env, a)) && a.hash == env.hash(AssemblyOf(PartsOf(env, a)))
  {
    BuiltIsDraft(env, input, a);
    DraftPartsAreNormal(env, input);
    assert PartsOf(env, Draft(env, input)) == PartsOf(env, a);
  }

  /**
   An assembly that validates under the hash of a built one rebuilds to an assembly that agrees
   with it in every part the hash covers.
   */
  lemma ValidHashPinsTheParts(env: Env, input: Input, built: Assembly, a: Assembly)
    requires Sound(env) && CollisionFree(env) && Build(env, input) == Success(built)
    requires Validate(env, a) == Pass && a.hash == built.hash
    ensures Rebuild(env, a).Success? && PartsOf(env, Rebuild(env, a).value) == PartsOf(env, built)
  {
    BuiltPartsAreHashed(env, input, built);
    BuiltPartsAreHashed(env, InputOf(a), Rebuild(env, a).value);
  }

  lemma BlankRefsGoMissing(input: Input)
    requires !RefsStay(input)
    ensures SortedStrings.UniqueSorted(input.facts.sourceRefs + input.sourceRefs) == Some([])
    ensures RefsAgain(input) == None
  {
    var refs := input.facts.sourceRefs + input.sourceRefs;
    assert refs == input.sourceRefs;
    SortedStrings.ValuesOfResult(refs);
    assert input.facts.sourceRefs + [] == [];
  }

  /** Without collisions, a freshly built assembly passes validation exactly when its references stay. */
  lemma ValidExactlyWhenRefsStay(env: Env, input: Input, a: Assembly)
    requires Sound(env) && CollisionFree(env) && Build(env, input) == Success(a) && SortsSettle(env, input.surface)
    ensures Validate(env, a) == Pass <==> RefsStay(input)
  {
    if RefsStay(input) {
      BuiltIsValid(env, input, a);
    } else if Rebuild(env, a).Success? {
      var r := Rebuild(env, a).value;
      BlankRefsGoMissing(input);
      RebuiltParts(env, input, a, r);
      BuiltPartsAreHashed(env, input, a);
      BuiltPartsAreHashed(env, InputOf(a), r);
      assert PartsOf(env, a).sourceRefs != PartsOf(env, r).sourceRefs;
    }
  }

  /** A turn whose only source reference is a blank is built, and then fails its own validation. */
  lemma BlankReferenceIsRejected(env: Env)
    requires Sound(env) && CollisionFree(env) && forall f :: env.integrity(f)
    ensures Build(env, PlainTurn([" "])).Success? && Validate(env, Build(env, PlainTurn([" "])).value) != Pass
    ensures Build(env, PlainTurn([])).Success? && Validate(env, Build(env, PlainTurn([])).value) == Pass
  {
    PlainTurnIsBuilt(env, [" "]);
    PlainTurnIsBuilt(env, []);
    BlankIsNoValue();
    ValidExactlyWhenRefsStay(env, PlainTurn([" "]), Build(env, PlainTurn([" "])).value);
    ValidExactlyWhenRefsStay(env, PlainTurn([]), Build(env, PlainTurn([])).value);
  }

  lemma BlankIsNoValue()
    ensures SortedStrings.Values([" "]) == {}
  {
    assert " "[1..] == "";
  }

  /** A turn that changes something is built only with a permission, a rollback policy and checked tools. */
  lemma ChangesAreCovered(env: Env, input: Input, a: Assembly)
    requires Build(env, input) == Success(a)
    ensures ValidSurface(a.surface, env.reasons)
    ensures RequiresChange(a.facts.intent) && SameReadiness(a.surface.visible + a.surface.dispatchable) ==>
        a.permissionProfile != "" && a.rollbackPolicy != "" && AllReady(a.surface.visible + a.surface.dispatchable)
  {
    BuiltIsDraft(env, input, a);
    CheckPassesTheValid(a.surface, env.reasons);
    ReadinessMeansAllReady(a.surface.visible + a.surface.dispatchable);
  }
}
