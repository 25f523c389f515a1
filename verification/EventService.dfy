/**
 The event service: per session a log, a map of seen event ids and a projection kept step by step,
 in front of a repository. Loading a session is not atomic; appending is.

 Applying an event may close approval rows of the kept projection before the repository has agreed.
 `Session` is the state of one session in memory and in the repository. The class works on the maps
 of all sessions; the transition system interleaves loaders, appends and restarts.
 */
module EventService {
  import opened Wrappers
  import opened AgentEvents
  import opened Projector
  import opened ProjectorLoops
  import opened ApprovalRows

  datatype Session = Session(
    loaded: bool, log: seq<AgentEvent>, seen: map<string, AgentEvent>, proj: Option<Projection>,
    stored: seq<AgentEvent>, saved: Option<Projection>)

  const FRESH := Session(false, [], map[], None, [], None)

  datatype ServiceError = Rejected(why: EventError) | AppendFailed | SaveFailed

  // ---------------------------------------------------------------- one session

  function MaxSeq(events: seq<AgentEvent>): (m: int)
    ensures 0 <= m
    ensures forall i :: 0 <= i < |events| ==> events[i].seqNo <= m
    ensures m == 0 || exists i :: 0 <= i < |events| && events[i].seqNo == m
  {
    if events == [] then 0
    else
      var m := MaxSeq(events[..|events| - 1]);
      var last := events[|events| - 1];
      assert last.seqNo == events[|events| - 1].seqNo;
      if last.seqNo > m then last.seqNo else m
  }

  function ProjectionOr(c: Session, sessionID: string): Projection {
    if c.proj.Some? && c.proj.value.sessionID != "" then c.proj.value else EmptyProjection(sessionID)
  }

  function Numbered(e: AgentEvent, n: int): AgentEvent {
    e.(seqNo := n)
  }

  /**
   The critical section of an append: `appendOk` and `saveOk` are the outcomes of the two
   repository calls. An accepted event is stored first, then the projection, then memory.
   */
  function AppendTo(c: Session, e: AgentEvent, appendOk: bool, saveOk: bool): (Session, Result<AgentEvent, ServiceError>) {
    if e.eventID in c.seen then (c, Success(c.seen[e.eventID]))
    else Extended(c, Numbered(e, MaxSeq(c.log) + 1), Answer(c, Numbered(e, MaxSeq(c.log) + 1)), appendOk, saveOk)
  }

  /** Does this event close approvals that are pending in the projection? */
  predicate EndsApprovals(p: Projection, e: AgentEvent) {
    e.kind == KindTurn && TerminalPhase(e.phase) && p.live.approvals + p.live.userInputs != {}
  }

  /**
   Applying an event works on a copy of the projection that shares the array of approval rows, and
   a terminal turn event closes the pending rows right there: the kept projection shows them closed
   whatever becomes of the event.
   */
  function WrittenThrough(c: Session, e: AgentEvent): Session {
    if c.proj.None? || c.proj.value.sessionID == "" || !EndsApprovals(c.proj.value, e) then c
    else
      var p := c.proj.value;
      c.(proj := Some(p.(approvals :=
           CloseApprovalRows(p.approvals, p.live.approvals + p.live.userInputs, e.status, e.createdAt))))
  }

  /** What the projector makes of a numbered event. */
  function Answer(c: Session, e: AgentEvent): Result<Projection, EventError> {
    Apply(ProjectionOr(c, e.sessionID), e)
  }

  /** The section for a numbered event that was not seen before, with what the projector made of it. */
  function Extended(c: Session, e: AgentEvent, applied: Result<Projection, EventError>, appendOk: bool, saveOk: bool)
      : (Session, Result<AgentEvent, ServiceError>)
  {
    match applied
    case Failure(why) => (c, Failure(Rejected(why)))
    case Success(next) => Committed(WrittenThrough(c, e), e, next, appendOk, saveOk)
  }

  /** Storing an accepted event and its projection, then remembering both. */
  function Committed(c: Session, e: AgentEvent, next: Projection, appendOk: bool, saveOk: bool)
      : (Session, Result<AgentEvent, ServiceError>)
  {
    if !appendOk then (c, Failure(AppendFailed))
    else if !saveOk then (c.(stored := c.stored + [e]), Failure(SaveFailed))
    else (c.(log := c.log + [e], seen := c.seen[e.eventID := e], proj := Some(next), stored := c.stored + [e],
             saved := Some(next)), Success(e))
  }

  function SeenOf(events: seq<AgentEvent>): map<string, AgentEvent> {
    if events == [] then map[]
    else SeenOf(events[..|events| - 1])[events[|events| - 1].eventID := events[|events| - 1]]
  }

  /** The last section of a load: a session loaded meanwhile is left alone. */
  function InstallIn(c: Session, events: seq<AgentEvent>, proj: Projection): Session {
    if c.loaded then c
    else c.(loaded := true, log := events, seen := SeenOf(events), proj := Some(proj))
  }

  function Restarted(c: Session): Session {
    FRESH.(stored := c.stored, saved := c.saved)
  }

  // ---------------------------------------------------------------- the class

  class AgentEventService {
    var log: map<string, seq<AgentEvent>>
    var seen: map<string, map<string, AgentEvent>>
    var proj: map<string, Projection>
    var loaded: set<string>
    /** What the repository holds. */
    var stored: map<string, seq<AgentEvent>>
    var saved: map<string, Projection>

    constructor ()
      ensures forall s :: At(s) == FRESH
    {
      log, seen, proj, loaded, stored, saved := map[], map[], map[], {}, map[], map[];
    }

    function At(s: string): Session
      reads this
    {
      Session(s in loaded, if s in log then log[s] else [], if s in seen then seen[s] else map[],
              if s in proj then Some(proj[s]) else None,
              if s in stored then stored[s] else [], if s in saved then Some(saved[s]) else None)
    }

    method NextSeq(s: string) returns (n: int)
      ensures n == MaxSeq(At(s).log) + 1
    {
      var events := if s in log then log[s] else [];
      var max := 0;
      var i := 0;
      while i < |events|
        invariant 0 <= i <= |events|
        invariant max == MaxSeq(events[..i])
      {
        assert events[..i + 1][..i] == events[..i];
        if events[i].seqNo > max {
          max := events[i].seqNo;
        }
        i := i + 1;
      }
      assert events[..i] == events;
      return max + 1;
    }

    /** Appends under the lock, after the session has been loaded. */
    method Append(e: AgentEvent, appendOk: bool, saveOk: bool) returns (r: Result<AgentEvent, ServiceError>)
      requires Validate(e).Pass?
      modifies this
      ensures (At(e.sessionID), r) == AppendTo(old(At(e.sessionID)), e, appendOk, saveOk)
      ensures forall s :: s != e.sessionID ==> At(s) == old(At(s))
    {
      hide Apply;
      var s := e.sessionID;
      if s in seen && e.eventID in seen[s] {
        return Success(seen[s][e.eventID]);
      }
      var n := NextSeq(s);
      r := Extend(Numbered(e, n), appendOk, saveOk);
    }

    method Extend(e: AgentEvent, appendOk: bool, saveOk: bool) returns (r: Result<AgentEvent, ServiceError>)
      requires Validate(e).Pass?
      modifies this
      ensures (At(e.sessionID), r)
           == Extended(old(At(e.sessionID)), e, Answer(old(At(e.sessionID)), e), appendOk, saveOk)
      ensures forall s :: s != e.sessionID ==> At(s) == old(At(s))
    {
      hide Apply;
      var s := e.sessionID;
      var p := if s in proj && proj[s].sessionID != "" then proj[s] else EmptyProjection(s);
      assert p == ProjectionOr(At(s), s);
      var next := Apply(p, e);
      if next.Failure? {
        return Failure(Rejected(next.error));
      }
      CloseShared(s, e);
      r := Commit(s, e, next.value, appendOk, saveOk);
    }

    /** The trace that applying an event leaves in the kept projection. */
    method CloseShared(s: string, e: AgentEvent)
      modifies `proj
      ensures At(s) == WrittenThrough(old(At(s)), e)
      ensures forall t :: t != s ==> At(t) == old(At(t))
    {
      if s in proj && proj[s].sessionID != "" && EndsApprovals(proj[s], e) {
        var p := proj[s];
        var rows := new ApprovalRow[|p.approvals|](i requires 0 <= i < |p.approvals| => p.approvals[i]);
        assert rows[..] == p.approvals;
        CloseApprovals(rows, p.live.approvals + p.live.userInputs, e.status, e.createdAt);
        proj := proj[s := p.(approvals := rows[..])];
      }
    }

    method Commit(s: string, e: AgentEvent, next: Projection, appendOk: bool, saveOk: bool)
        returns (r: Result<AgentEvent, ServiceError>)
      modifies this
      ensures (At(s), r) == Committed(old(At(s)), e, next, appendOk, saveOk)
      ensures forall t :: t != s ==> At(t) == old(At(t))
    {
      if !appendOk {
        return Failure(AppendFailed);
      }
      AppendAgentEvent(s, e);
      if !saveOk {
        return Failure(SaveFailed);
      }
      SaveAgentEventProjection(s, next);
      Remember(s, e, next);
      return Success(e);
    }

    /** The repository stores an event. */
    method AppendAgentEvent(s: string, e: AgentEvent)
      modifies `stored
      ensures At(s) == old(At(s)).(stored := old(At(s)).stored + [e])
      ensures forall t :: t != s ==> At(t) == old(At(t))
    {
      stored := stored[s := (if s in stored then stored[s] else []) + [e]];
    }

    /** The repository saves a projection. */
    method SaveAgentEventProjection(s: string, p: Projection)
      modifies `saved
      ensures At(s) == old(At(s)).(saved := Some(p))
      ensures forall t :: t != s ==> At(t) == old(At(t))
    {
      saved := saved[s := p];
    }

    method Remember(s: string, e: AgentEvent, p: Projection)
      modifies `log, `seen, `proj
      ensures At(s) == old(At(s)).(log := old(At(s)).log + [e], seen := old(At(s)).seen[e.eventID := e], proj := Some(p))
      ensures forall t :: t != s ==> At(t) == old(At(t))
    {
      log := log[s := (if s in log then log[s] else []) + [e]];
      seen := seen[s := (if s in seen then seen[s] else map[])[e.eventID := e]];
      proj := proj[s := p];
    }

    /** Builds the map of seen ids and publishes a loaded session, unless another loader was faster. */
    method Install(s: string, events: seq<AgentEvent>, p: Projection)
      modifies this
      ensures At(s) == InstallIn(old(At(s)), events, p)
      ensures forall t :: t != s ==> At(t) == old(At(t))
    {
      var ids: map<string, AgentEvent> := map[];
      var i := 0;
      while i < |events|
        invariant 0 <= i <= |events|
        invariant ids == SeenOf(events[..i])
        modifies {}
      {
        assert events[..i + 1][..i] == events[..i];
        ids := ids[events[i].eventID := events[i]];
        i := i + 1;
      }
      assert events[..i] == events;
      if s in loaded {
        return;
      }
      log, seen, proj, loaded := log[s := events], seen[s := ids], proj[s := p], loaded + {s};
    }

    /** The events after a sequence number. */
    method ReplayAfter(s: string, afterSeq: int) returns (out: seq<AgentEvent>)
      ensures out == After(At(s).log, afterSeq)
    {
      var events := if s in log then log[s] else [];
      out := [];
      var i := 0;
      while i < |events|
        invariant 0 <= i <= |events|
        invariant out == After(events[..i], afterSeq)
      {
        assert events[..i + 1][..i] == events[..i];
        if events[i].seqNo > afterSeq {
          out := out + [events[i]];
        }
        i := i + 1;
      }
      assert events[..i] == events;
    }
  }

  function After(events: seq<AgentEvent>, afterSeq: int): seq<AgentEvent> {
    if events == [] then []
    else
      var last := events[|events| - 1];
      After(events[..|events| - 1], afterSeq) + if last.seqNo > afterSeq then [last] else []
  }

  // ---------------------------------------------------------------- interleavings

  /** A thread inside `ensureSessionLoaded`, between its unlocked steps. */
  datatype Loader =
    | Flagged(sessionID: string)
    | Listed(sessionID: string, events: seq<AgentEvent>)
    | Ready(sessionID: string, events: seq<AgentEvent>, proj: Projection)

  datatype World = World(sessions: map<string, Session>, loaders: map<nat, Loader>)

  datatype Action =
    | BeginLoad(thread: nat, sessionID: string)
    | ListEvents(thread: nat)
    | PrepareLoad(thread: nat)
    | FinishLoad(thread: nat)
    | AppendEvent(event: AgentEvent, appendOk: bool, saveOk: bool)
    | Restart

  function SessionAt(w: World, s: string): Session {
    if s in w.sessions then w.sessions[s] else FRESH
  }

  /** What the third step of a load has in hand: a replay, or the saved projection of an empty log. */
  function Prepared(c: Session, s: string, events: seq<AgentEvent>): Option<Projection> {
    if events == [] then Some(if c.saved.Some? then c.saved.value else EmptyProjection(s))
    else if Replay(s, events).Success? then Some(Replay(s, events).value) else None
  }

  function Without(loaders: map<nat, Loader>, thread: nat): map<nat, Loader> {
    map t | t in loaders && t != thread :: loaders[t]
  }

  /** One atomic step; an action that is not enabled changes nothing. */
  function Next(w: World, a: Action): World {
    match a
    case BeginLoad(t, s) =>
      if s == "" || SessionAt(w, s).loaded || t in w.loaders then w
      else w.(loaders := w.loaders[t := Flagged(s)])
    case ListEvents(t) =>
      if t !in w.loaders || !w.loaders[t].Flagged? then w
      else
        var s := w.loaders[t].sessionID;
        w.(loaders := w.loaders[t := Listed(s, SessionAt(w, s).stored)])
    case PrepareLoad(t) =>
      if t !in w.loaders || !w.loaders[t].Listed? then w
      else
        var l := w.loaders[t];
        var p := Prepared(SessionAt(w, l.sessionID), l.sessionID, l.events);
        w.(loaders := if p.None? then Without(w.loaders, t)
                      else w.loaders[t := Ready(l.sessionID, l.events, p.value)])
    case FinishLoad(t) =>
      if t !in w.loaders || !w.loaders[t].Ready? then w
      else
        var l := w.loaders[t];
        World(w.sessions[l.sessionID := InstallIn(SessionAt(w, l.sessionID), l.events, l.proj)], Without(w.loaders, t))
    case AppendEvent(e, appendOk, saveOk) =>
      if Validate(e).Fail? || !SessionAt(w, e.sessionID).loaded then w
      else With(w, e.sessionID, AppendTo(SessionAt(w, e.sessionID), e, appendOk, saveOk).0)
    case Restart =>
      World(map s | s in w.sessions :: Restarted(w.sessions[s]), map[])
  }

  function Run(actions: seq<Action>): World {
    if actions == [] then World(map[], map[])
    else Next(Run(actions[..|actions| - 1]), actions[|actions| - 1])
  }

  // ---------------------------------------------------------------- invariants

  /** A log numbered from one, of valid events of the session with distinct ids. */
  predicate WellNumbered(s: string, events: seq<AgentEvent>) {
    && (forall i :: 0 <= i < |events| ==> events[i].seqNo == i + 1)
    && (forall i :: 0 <= i < |events| ==> events[i].sessionID == s)
    && (forall i, j :: 0 <= i < j < |events| ==> events[i].eventID != events[j].eventID)
    && Replay(s, events).Success?
  }

  predicate StoreSound(s: string, c: Session, exact: bool) {
    && WellNumbered(s, c.stored)
    && (c.stored == [] <==> c.saved.None?)
    && (c.saved.Some? ==> Agree(c.saved.value, Replay(s, c.stored).value, exact))
  }

  /** Memory is empty, or mirrors the repository. */
  predicate MemorySound(s: string, c: Session, exact: bool) {
    StoreSound(s, c, exact) &&
    if c.loaded then
      c.log == c.stored && c.seen == SeenOf(c.stored)
      && c.proj.Some? && Agree(c.proj.value, Replay(s, c.stored).value, exact)
    else c == Restarted(c)
  }

  /** A loader that may still publish has read the repository as it is now. */
  predicate LoaderSound(w: World, l: Loader) {
    var c := SessionAt(w, l.sessionID);
    c.loaded ||
    match l
    case Flagged(_) => true
    case Listed(s, events) => events == c.stored
    case Ready(s, events, p) => events == c.stored && WellNumbered(s, events) && p == Replay(s, events).value
  }

  ghost predicate Sound(w: World, exact: bool) {
    && (forall s :: MemorySound(s, SessionAt(w, s), exact))
    && (forall t :: t in w.loaders ==> LoaderSound(w, w.loaders[t]))
  }

  /** The event would close a pending approval row that shows something else. */
  predicate ClosesRow(c: Session, e: AgentEvent) {
    c.proj.Some? && EndsApprovals(c.proj.value, e)
    && exists i :: 0 <= i < |c.proj.value.approvals| && ClosesIt(c.proj.value, i, e)
  }

  predicate ClosesIt(p: Projection, i: nat, e: AgentEvent)
    requires i < |p.approvals|
  {
    p.approvals[i].id in p.live.approvals + p.live.userInputs
    && (p.approvals[i].status != e.status || p.approvals[i].updatedAt != e.createdAt)
  }

  /** An append after which memory and repository agree: a repeat, a full success, or a failure that closes no row. */
  predicate Clean(c: Session, e: AgentEvent, appendOk: bool, saveOk: bool) {
    e.eventID in c.seen || (appendOk && saveOk) || (!appendOk && !ClosesRow(c, e))
  }

  /** A step over a repository whose saves succeed when its appends do; `exact` also asks for a clean append. */
  predicate Reliable(w: World, a: Action, exact: bool) {
    a.AppendEvent? ==>
      && (a.appendOk ==> a.saveOk)
      && (exact ==> Clean(SessionAt(w, a.event.sessionID), a.event, a.appendOk, a.saveOk))
  }

  ghost predicate AllReliable(actions: seq<Action>, exact: bool) {
    actions == [] ||
    (AllReliable(actions[..|actions| - 1], exact)
     && Reliable(Run(actions[..|actions| - 1]), actions[|actions| - 1], exact))
  }

  // ---------------------------------------------------------------- lemmas on logs

  lemma {:induction false} ReplaySession(s: string, events: seq<AgentEvent>)
    requires Replay(s, events).Success? && s != ""
    ensures Replay(s, events).value.sessionID == s
  {
    if events != [] {
      var before, e := events[..|events| - 1], events[|events| - 1];
      SplitLast(events);
      ReplayStep(s, before, e);
      ReplaySession(s, before);
      StepSession(Replay(s, before).value, e);
    }
  }

  lemma StepSession(p: Projection, e: AgentEvent)
    ensures Step(p, e).sessionID == e.sessionID
  {
    var q := Prepare(p, e);
    KindKeepsSession(q, e);
    assert Step(p, e).sessionID == ApplyKind(q, e).sessionID;
  }

  lemma KindKeepsSession(p: Projection, e: AgentEvent)
    ensures ApplyKind(p, e).sessionID == p.sessionID
  {
    hide ToolRow, SystemRow, PlanRow, EvidenceRow, ReasoningRow, SideRow;
    match e.kind
    case KindTurn => TurnKeepsSession(p, e);
    case KindTool => ArchiveKeepsSession(p, e, BEFORE_TOOL, false);
    case KindSystem => ArchiveKeepsSession(p, e, BEFORE_ITERATION, true);
    case _ =>
  }

  lemma TurnKeepsSession(p: Projection, e: AgentEvent)
    ensures ApplyTurn(p, e).sessionID == p.sessionID
  {
    LivenessKeepsSession(p, e);
  }

  lemma LivenessKeepsSession(p: Projection, e: AgentEvent)
    ensures TurnLiveness(p, e).sessionID == p.sessionID
  {
  }

  lemma ArchiveKeepsSession(p: Projection, e: AgentEvent, idKind: string, includeCompleted: bool)
    ensures ArchiveFinal(p, e, idKind, includeCompleted).sessionID == p.sessionID
  {
  }

  lemma MaxSeqIsLength(s: string, events: seq<AgentEvent>)
    requires WellNumbered(s, events)
    ensures MaxSeq(events) == |events|
  {
    if events != [] {
      assert events[|events| - 1].seqNo == |events|;
    }
  }

  lemma {:induction false} SeenHolds(events: seq<AgentEvent>, id: string)
    ensures id in SeenOf(events) <==> exists i :: 0 <= i < |events| && events[i].eventID == id
    ensures id in SeenOf(events) ==> SeenOf(events)[id] in events && SeenOf(events)[id].eventID == id
  {
    if events != [] {
      SeenHolds(events[..|events| - 1], id);
      SplitLast(events);
      assert events[|events| - 1].eventID == id ==> id in SeenOf(events);
    }
  }

  lemma SeenStep(events: seq<AgentEvent>, e: AgentEvent)
    ensures SeenOf(events + [e]) == SeenOf(events)[e.eventID := e]
  {
    assert (events + [e])[..|events|] == events;
  }

  /** One more numbered event keeps the log well numbered and its replay one application longer. */
  lemma NumberedStep(s: string, events: seq<AgentEvent>, e: AgentEvent)
    requires WellNumbered(s, events) && Validate(e).Pass? && e.sessionID == s
    requires e.seqNo == |events| + 1 && e.eventID !in SeenOf(events)
    ensures WellNumbered(s, events + [e])
    ensures Replay(s, events + [e]) == Apply(Replay(s, events).value, e)
  {
    var all := events + [e];
    assert all[..|all| - 1] == events;
    ReplaySession(s, events);
    SeenHolds(events, e.eventID);
  }

  // ---------------------------------------------------------------- the append section

  lemma CommitMirrors(s: string, c: Session, e: AgentEvent, next: Projection, exact: bool)
    requires c.loaded && c.log == c.stored && c.seen == SeenOf(c.stored) && WellNumbered(s, c.stored + [e])
    requires Agree(next, Replay(s, c.stored + [e]).value, exact)
    ensures var (c', r) := Committed(c, e, next, true, true);
      r == Success(e) && c'.log == c.log + [e] == c'.stored && MemorySound(s, c', exact) && c'.loaded
  {
    hide Replay, Apply, SeenOf, Agree;
    SeenStep(c.stored, e);
  }

  lemma NextIsProjected(s: string, c: Session, e: AgentEvent, exact: bool)
    requires MemorySound(s, c, exact) && c.loaded && Validate(e).Pass? && e.sessionID == s
    requires e.seqNo == |c.stored| + 1 && e.eventID !in c.seen
    ensures WellNumbered(s, c.stored + [e]) && Agree(Step(c.proj.value, e), Replay(s, c.stored + [e]).value, exact)
  {
    ReplaySession(s, c.stored);
    NumberedStep(s, c.stored, e);
    StepAgrees(c.proj.value, Replay(s, c.stored).value, e, exact);
  }

  lemma NextNumber(s: string, c: Session, exact: bool)
    requires MemorySound(s, c, exact) && c.loaded
    ensures MaxSeq(c.log) + 1 == |c.log| + 1 == |c.stored| + 1
  {
    hide Replay;
    MaxSeqIsLength(s, c.stored);
  }

  lemma ThroughKeepsLog(c: Session, e: AgentEvent)
    ensures WrittenThrough(c, e) == c.(proj := WrittenThrough(c, e).proj)
    ensures c.proj.Some? ==> WrittenThrough(c, e).proj.Some?
  {
  }

  lemma AcceptedIsStepped(p: Projection, e: AgentEvent)
    requires Validate(e).Pass? && p.sessionID == e.sessionID
    ensures Apply(p, e) == Success(Step(p, e))
  {
  }

  lemma AppendExtends(c: Session, e: AgentEvent, n: int, applied: Result<Projection, EventError>, appendOk: bool, saveOk: bool)
    requires e.eventID !in c.seen && n == MaxSeq(c.log) + 1 && applied == Answer(c, Numbered(e, n))
    ensures AppendTo(c, e, appendOk, saveOk) == Extended(c, Numbered(e, n), applied, appendOk, saveOk)
  {
    hide Apply;
  }

  lemma AnswerIsStep(c: Session, e: AgentEvent)
    requires Validate(e).Pass? && c.proj.Some? && c.proj.value.sessionID == e.sessionID
    ensures Answer(c, e) == Success(Step(c.proj.value, e))
  {
    AcceptedIsStepped(c.proj.value, e);
  }

  lemma AppendCommits(c: Session, e: AgentEvent, n: int, next: Projection, appendOk: bool, saveOk: bool)
    requires e.eventID !in c.seen && n == MaxSeq(c.log) + 1 && Answer(c, Numbered(e, n)) == Success(next)
    ensures AppendTo(c, e, appendOk, saveOk)
         == Committed(WrittenThrough(c, Numbered(e, n)), Numbered(e, n), next, appendOk, saveOk)
  {
    hide Apply;
    AppendExtends(c, e, n, Success(next), appendOk, saveOk);
  }

  /** On a mirrored session a fresh event is appended everywhere at once, with the next number. */
  lemma AppendMirrors(s: string, c: Session, e: AgentEvent, exact: bool)
    requires MemorySound(s, c, exact) && c.loaded && Validate(e).Pass? && e.sessionID == s
    requires e.eventID !in c.seen
    ensures var numbered := Numbered(e, |c.log| + 1); var (c', r) := AppendTo(c, e, true, true);
      && r == Success(numbered) && c'.log == c.log + [numbered] == c'.stored
      && MemorySound(s, c', exact) && c'.loaded
  {
    hide Step, Replay;
    NextNumber(s, c, exact);
    LoadedHasSession(s, c, exact);
    var numbered := Numbered(e, |c.log| + 1);
    NextIsProjected(s, c, numbered, exact);
    AnswerIsStep(c, numbered);
    AppendCommits(c, e, |c.log| + 1, Step(c.proj.value, numbered), true, true);
    ThroughKeepsLog(c, numbered);
    CommitMirrors(s, WrittenThrough(c, numbered), numbered, Step(c.proj.value, numbered), exact);
  }

  /** A repeated event id returns the stored event and changes nothing, whatever the repository would do. */
  lemma RepeatIsReturned(s: string, c: Session, e: AgentEvent, appendOk: bool, saveOk: bool, i: nat)
    requires MemorySound(s, c, false) && c.loaded && i < |c.log| && c.log[i].eventID == e.eventID
    ensures AppendTo(c, e, appendOk, saveOk) == (c, Success(c.log[i]))
  {
    SeenIsTheLog(s, c.log, i);
    SeenIsReturned(c, e, appendOk, saveOk);
  }

  lemma SeenIsTheLog(s: string, events: seq<AgentEvent>, i: nat)
    requires WellNumbered(s, events) && i < |events|
    ensures events[i].eventID in SeenOf(events) && SeenOf(events)[events[i].eventID] == events[i]
  {
    hide Replay;
    SeenHolds(events, events[i].eventID);
  }

  lemma SeenIsReturned(c: Session, e: AgentEvent, appendOk: bool, saveOk: bool)
    requires e.eventID in c.seen
    ensures AppendTo(c, e, appendOk, saveOk) == (c, Success(c.seen[e.eventID]))
  {
  }

  /** A failed append leaves the trace of the event, and a failed save also the event in the repository. */
  lemma FailureLeaves(s: string, c: Session, e: AgentEvent, appendOk: bool, exact: bool)
    requires MemorySound(s, c, exact) && c.loaded && Validate(e).Pass? && e.sessionID == s && e.eventID !in c.seen
    ensures var numbered := Numbered(e, |c.log| + 1); var after := AppendTo(c, e, appendOk, false).0;
      after == WrittenThrough(c, e).(stored := if appendOk then c.stored + [numbered] else c.stored)
  {
    hide Step, Replay;
    NextNumber(s, c, exact);
    LoadedHasSession(s, c, exact);
    var numbered := Numbered(e, |c.log| + 1);
    AnswerIsStep(c, numbered);
    AppendCommits(c, e, |c.log| + 1, Step(c.proj.value, numbered), appendOk, false);
    ThroughKeepsLog(c, numbered);
    assert WrittenThrough(c, numbered) == WrittenThrough(c, e);
  }

  /** The trace changes the projection exactly when the event closes a pending row that shows something else. */
  lemma TraceShows(c: Session, e: AgentEvent)
    requires c.proj.Some? && c.proj.value.sessionID != ""
    ensures WrittenThrough(c, e).proj == c.proj <==> !ClosesRow(c, e)
  {
    var p := c.proj.value;
    if EndsApprovals(p, e) {
      var rows := CloseApprovalRows(p.approvals, p.live.approvals + p.live.userInputs, e.status, e.createdAt);
      if ClosesRow(c, e) {
        var i :| 0 <= i < |p.approvals| && ClosesIt(p, i, e);
        assert rows[i] != p.approvals[i];
      } else {
        forall i | 0 <= i < |p.approvals| ensures rows[i] == p.approvals[i] {
          assert !ClosesIt(p, i, e);
        }
        assert rows == p.approvals;
      }
    }
  }

  lemma TraceAgrees(p: Projection, c: Session, q: Projection, e: AgentEvent)
    requires c.proj == Some(p) && Agree(p, q, false)
    ensures WrittenThrough(c, e).proj.Some? && Agree(WrittenThrough(c, e).proj.value, q, false)
  {
  }

  lemma LoadedHasSession(s: string, c: Session, exact: bool)
    requires MemorySound(s, c, exact) && c.loaded && s != ""
    ensures c.proj.value.sessionID == s
  {
    ReplaySession(s, c.stored);
  }

  /**
   Memory and repository still agree after an append exactly when it repeats an event, both calls
   succeed, or the append fails and the event closes no pending approval row.
   */
  lemma AgreementAfterAppend(s: string, c: Session, e: AgentEvent, appendOk: bool, saveOk: bool)
    requires MemorySound(s, c, true) && c.loaded && Validate(e).Pass? && e.sessionID == s
    ensures MemorySound(s, AppendTo(c, e, appendOk, saveOk).0, true) <==> Clean(c, e, appendOk, saveOk)
  {
    hide Replay, Apply;
    if e.eventID !in c.seen {
      if appendOk && saveOk {
        AppendMirrors(s, c, e, true);
      } else {
        FailureIsSame(c, e, appendOk, saveOk);
        FailureLeaves(s, c, e, appendOk, true);
        LoadedHasSession(s, c, true);
        TraceShows(c, e);
        FailureAgreement(s, c, e, appendOk);
      }
    }
  }

  lemma FailureIsSame(c: Session, e: AgentEvent, appendOk: bool, saveOk: bool)
    requires !(appendOk && saveOk)
    ensures AppendTo(c, e, appendOk, saveOk) == AppendTo(c, e, appendOk, false)
  {
  }

  lemma FailureAgreement(s: string, c: Session, e: AgentEvent, appendOk: bool)
    requires MemorySound(s, c, true) && c.loaded
    ensures var numbered := Numbered(e, |c.log| + 1);
      var after := WrittenThrough(c, e).(stored := if appendOk then c.stored + [numbered] else c.stored);
      MemorySound(s, after, true) <==> !appendOk && WrittenThrough(c, e).proj == c.proj
  {
    hide Replay;
    ThroughKeepsLog(c, e);
    assert |c.stored + [Numbered(e, |c.log| + 1)]| != |c.log|;
  }

  /** When the append fails for a terminal turn event, the pending approvals are shown closed all the same. */
  lemma RefusedEventClosesApprovals(s: string, c: Session, e: AgentEvent, i: nat)
    requires MemorySound(s, c, true) && c.loaded && Validate(e).Pass? && e.sessionID == s && e.eventID !in c.seen
    requires e.kind == KindTurn && TerminalPhase(e.phase)
    requires var p := c.proj.value;
      (i < |p.approvals| && p.approvals[i].id in p.live.approvals && p.approvals[i].status != e.status)
    ensures var after := AppendTo(c, e, false, false).0;
      && after.log == c.log && after.stored == c.stored
      && after.proj.Some? && i < |after.proj.value.approvals| && after.proj.value.approvals[i].status == e.status
      && c.proj.value.approvals[i].id in after.proj.value.live.approvals
      && !MemorySound(s, after, true)
  {
    FailureLeaves(s, c, e, false, true);
    LoadedHasSession(s, c, true);
    assert ClosesIt(c.proj.value, i, e);
    AgreementAfterAppend(s, c, e, false, false);
  }

  /** After a failed save, retrying the event stores it twice under one number. */
  lemma RetryStoresTwice(s: string, c: Session, e: AgentEvent)
    requires MemorySound(s, c, true) && c.loaded && Validate(e).Pass? && e.sessionID == s && e.eventID !in c.seen
    ensures var numbered := Numbered(e, |c.log| + 1);
      var failed := AppendTo(c, e, true, false).0;
      var retried := AppendTo(failed, e, true, true).0;
      retried.stored == c.stored + [numbered, numbered] && retried.log == c.log + [numbered]
  {
    hide Apply, Replay;
    var numbered := Numbered(e, |c.log| + 1);
    FailureLeaves(s, c, e, true, true);
    NextNumber(s, c, true);
    LoadedHasSession(s, c, true);
    ThroughKeepsLog(c, e);
    var failed := WrittenThrough(c, e).(stored := c.stored + [numbered]);
    assert failed.log == c.log && failed.seen == c.seen && failed.proj.value.sessionID == s;
    RetryCommits(failed, e);
    assert (c.stored + [numbered]) + [numbered] == c.stored + [numbered, numbered];
  }

  lemma RetryCommits(c: Session, e: AgentEvent)
    requires Validate(e).Pass? && e.eventID !in c.seen && c.proj.Some? && c.proj.value.sessionID == e.sessionID
    ensures var numbered := Numbered(e, MaxSeq(c.log) + 1); var after := AppendTo(c, e, true, true).0;
      after.stored == c.stored + [numbered] && after.log == c.log + [numbered]
  {
    hide Step, Answer;
    var numbered := Numbered(e, MaxSeq(c.log) + 1);
    AnswerIsStep(c, numbered);
    AppendCommits(c, e, MaxSeq(c.log) + 1, Step(c.proj.value, numbered), true, true);
    ThroughKeepsLog(c, numbered);
  }

  // ---------------------------------------------------------------- every interleaving

  /** A step that changes one session, which is loaded and sound after it, keeps all sound. */
  lemma OneSessionSound(w: World, w': World, s: string, exact: bool)
    requires Sound(w, exact) && (forall u :: u != s ==> SessionAt(w', u) == SessionAt(w, u))
    requires SessionAt(w', s).loaded && MemorySound(s, SessionAt(w', s), exact)
    requires forall t :: t in w'.loaders ==> t in w.loaders && w'.loaders[t] == w.loaders[t]
    ensures Sound(w', exact)
  {
    hide Replay;
    forall u ensures MemorySound(u, SessionAt(w', u), exact) {
      assert MemorySound(u, SessionAt(w, u), exact);
    }
    forall t | t in w'.loaders ensures LoaderSound(w', w'.loaders[t]) {
      assert LoaderSound(w, w.loaders[t]);
    }
  }

  lemma AppendKeepsLoaded(c: Session, e: AgentEvent, appendOk: bool, saveOk: bool)
    requires c.loaded
    ensures AppendTo(c, e, appendOk, saveOk).0.loaded
  {
  }

  lemma RefusedNearly(s: string, c: Session, e: AgentEvent)
    requires MemorySound(s, c, false) && c.loaded
    ensures MemorySound(s, WrittenThrough(c, e), false)
  {
    hide Replay;
    ThroughKeepsLog(c, e);
    TraceAgrees(c.proj.value, c, Replay(s, c.stored).value, e);
  }

  lemma AppendedMemory(s: string, c: Session, e: AgentEvent, appendOk: bool, saveOk: bool, exact: bool)
    requires MemorySound(s, c, exact) && c.loaded && Validate(e).Pass? && e.sessionID == s && (appendOk ==> saveOk)
    requires exact ==> Clean(c, e, appendOk, saveOk)
    ensures MemorySound(s, AppendTo(c, e, appendOk, saveOk).0, exact) && AppendTo(c, e, appendOk, saveOk).0.loaded
  {
    hide Replay, Apply;
    AppendKeepsLoaded(c, e, appendOk, saveOk);
    if exact {
      AgreementAfterAppend(s, c, e, appendOk, saveOk);
    } else if e.eventID !in c.seen {
      if appendOk {
        AppendMirrors(s, c, e, false);
      } else {
        FailureIsSame(c, e, appendOk, saveOk);
        FailureLeaves(s, c, e, false, false);
        RefusedNearly(s, c, e);
      }
    }
  }

  /** One session of the world is replaced. */
  function With(w: World, s: string, c: Session): World {
    w.(sessions := w.sessions[s := c])
  }

  lemma WithSound(w: World, s: string, c: Session, exact: bool)
    requires Sound(w, exact) && MemorySound(s, c, exact) && c.loaded
    ensures Sound(With(w, s, c), exact)
  {
    OneSessionSound(w, With(w, s, c), s, exact);
  }

  lemma AppendSound(w: World, e: AgentEvent, appendOk: bool, saveOk: bool, exact: bool)
    requires Sound(w, exact) && Reliable(w, AppendEvent(e, appendOk, saveOk), exact)
    ensures Sound(Next(w, AppendEvent(e, appendOk, saveOk)), exact)
  {
    hide Replay, AppendTo;
    var s := e.sessionID;
    if Validate(e).Pass? && SessionAt(w, s).loaded {
      assert MemorySound(s, SessionAt(w, s), exact);
      AppendedMemory(s, SessionAt(w, s), e, appendOk, saveOk, exact);
      WithSound(w, s, AppendTo(SessionAt(w, s), e, appendOk, saveOk).0, exact);
    }
  }

  lemma InstallSound(s: string, c: Session, events: seq<AgentEvent>, p: Projection, exact: bool)
    requires MemorySound(s, c, exact) && (c.loaded || (events == c.stored && p == Replay(s, events).value))
    ensures MemorySound(s, InstallIn(c, events, p), exact) && InstallIn(c, events, p).loaded
  {
  }

  lemma FinishSound(w: World, t: nat, exact: bool)
    requires Sound(w, exact)
    ensures Sound(Next(w, FinishLoad(t)), exact)
  {
    hide Replay;
    if t in w.loaders && w.loaders[t].Ready? {
      var l := w.loaders[t];
      assert LoaderSound(w, l) && MemorySound(l.sessionID, SessionAt(w, l.sessionID), exact);
      InstallSound(l.sessionID, SessionAt(w, l.sessionID), l.events, l.proj, exact);
      OneSessionSound(w, Next(w, FinishLoad(t)), l.sessionID, exact);
    }
  }

  lemma PreparedIsReplay(s: string, c: Session, exact: bool)
    requires MemorySound(s, c, exact)
    ensures Prepared(c, s, c.stored) == Some(Replay(s, c.stored).value)
  {
  }

  /** The loader is as it was, or has gone from the listed events to what a load has in hand. */
  predicate MaybePrepared(w: World, l: Loader, l': Loader) {
    l' == l ||
    (l.Listed? && var p := Prepared(SessionAt(w, l.sessionID), l.sessionID, l.events);
     p.Some? && l' == Ready(l.sessionID, l.events, p.value))
  }

  /** What the third step of a load does to the loaders. */
  lemma PrepareStep(w: World, t: nat)
    ensures var w' := Next(w, PrepareLoad(t));
      w'.sessions == w.sessions && forall k :: k in w'.loaders ==> k in w.loaders && MaybePrepared(w, w.loaders[k], w'.loaders[k])
  {
    hide AppendTo, Prepared, SessionAt;
  }

  lemma PrepareSound(w: World, t: nat, exact: bool)
    requires Sound(w, exact)
    ensures Sound(Next(w, PrepareLoad(t)), exact)
  {
    hide Replay, Prepared, Next, MemorySound, WellNumbered;
    var w' := Next(w, PrepareLoad(t));
    PrepareStep(w, t);
    assert forall s :: SessionAt(w', s) == SessionAt(w, s);
    forall k | k in w'.loaders ensures LoaderSound(w', w'.loaders[k]) {
      var l := w.loaders[k];
      var c := SessionAt(w, l.sessionID);
      assert LoaderSound(w, l) && MemorySound(l.sessionID, c, exact);
      PreparedIsReplay(l.sessionID, c, exact);
      SoundIsNumbered(l.sessionID, c, exact);
    }
  }

  lemma SoundIsNumbered(s: string, c: Session, exact: bool)
    requires MemorySound(s, c, exact)
    ensures WellNumbered(s, c.stored)
  {
  }

  lemma StepSound(w: World, a: Action, exact: bool)
    requires Sound(w, exact) && Reliable(w, a, exact)
    ensures Sound(Next(w, a), exact)
  {
    hide Replay, AppendTo;
    match a
    case AppendEvent(e, appendOk, saveOk) => AppendSound(w, e, appendOk, saveOk, exact);
    case FinishLoad(t) => FinishSound(w, t, exact);
    case PrepareLoad(t) => PrepareSound(w, t, exact);
    case BeginLoad(t, s) => LoaderOnly(w, Next(w, a), exact);
    case ListEvents(t) => LoaderOnly(w, Next(w, a), exact);
    case Restart =>
      forall s ensures MemorySound(s, SessionAt(Next(w, a), s), exact) {
        assert MemorySound(s, SessionAt(w, s), exact);
      }
  }

  lemma LoaderOnly(w: World, w': World, exact: bool)
    requires Sound(w, exact) && w'.sessions == w.sessions
    requires forall t :: t in w'.loaders ==>
      (|| (t in w.loaders && w'.loaders[t] == w.loaders[t])
       || w'.loaders[t].Flagged?
       || (w'.loaders[t].Listed? && w'.loaders[t].events == SessionAt(w, w'.loaders[t].sessionID).stored))
    ensures Sound(w', exact)
  {
    hide Replay;
    forall s ensures MemorySound(s, SessionAt(w', s), exact) {
      assert MemorySound(s, SessionAt(w, s), exact);
    }
    forall t | t in w'.loaders ensures LoaderSound(w', w'.loaders[t]) {
      if t in w.loaders && w'.loaders[t] == w.loaders[t] {
        assert LoaderSound(w, w.loaders[t]);
      }
    }
  }

  /**
   In every interleaving of loads, appends and restarts over a repository whose saves succeed when
   its appends do, each loaded session mirrors its stored log: exactly, when every failed append
   was clean, and up to the closing of approval rows otherwise.
   */
  lemma {:induction false} EveryRunIsSound(actions: seq<Action>, exact: bool)
    requires AllReliable(actions, exact)
    ensures Sound(Run(actions), exact)
  {
    if actions != [] {
      EveryRunIsSound(actions[..|actions| - 1], exact);
      StepSound(Run(actions[..|actions| - 1]), actions[|actions| - 1], exact);
    } else {
      assert forall s :: Replay(s, []) == Success(EmptyProjection(s));
    }
  }

  /** A stale loader never overwrites newer state: once loaded, finishing another load changes no session. */
  lemma StaleLoaderIsIgnored(w: World, t: nat)
    requires t in w.loaders && w.loaders[t].Ready? && SessionAt(w, w.loaders[t].sessionID).loaded
    ensures forall s :: SessionAt(Next(w, FinishLoad(t)), s) == SessionAt(w, s)
  {
  }

  /**
   A service restarted over the same repository and loaded again has the same log and seen ids and
   the replay of the log; it is where it was exactly when it showed no row closed by a lost event.
   */
  lemma RestartRebuilds(s: string, c: Session)
    requires MemorySound(s, c, false) && c.loaded
    ensures var r := Restarted(c); var p := Prepared(r, s, r.stored);
      && p == Some(Replay(s, c.stored).value)
      && (InstallIn(r, r.stored, p.value) == c <==> c.proj == Some(Replay(s, c.stored).value))
      && InstallIn(r, r.stored, p.value) == c.(proj := p)
  {
    PreparedIsReplay(s, Restarted(c), false);
  }

  /** The events after number `k` are the log without its first `k` events. */
  lemma {:induction false} AfterIsSuffix(events: seq<AgentEvent>, k: nat)
    requires forall i :: 0 <= i < |events| ==> events[i].seqNo == i + 1
    ensures After(events, k) == if k <= |events| then events[k..] else []
  {
    if events != [] {
      var before, last := events[..|events| - 1], events[|events| - 1];
      AfterIsSuffix(before, k);
      assert After(events, k) == After(before, k) + if last.seqNo > k then [last] else [];
      if k < |events| {
        DropLast(events, k);
      }
    }
  }

  lemma DropLast<T>(s: seq<T>, k: nat)
    requires k < |s|
    ensures s[k..] == s[..|s| - 1][k..] + [s[|s| - 1]]
  {
  }
}
