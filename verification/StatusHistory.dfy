/**
 What the status of a replayed projection says about the history of events.

 A `Watch` is something the projection keeps an eye on. It is live when some event opened it
 and no later event closed it; the status is a function of what is live.
 */
module StatusHistory {
  import opened Wrappers
  import opened AgentEvents
  import opened Projector
  import opened Text

  datatype Watch =
    | TurnOpen(id: string)
    | AgentRun(id: string)
    | ToolStream(id: string)
    | Approval(id: string)
    | TurnFailure
    | DiffSeen

  predicate TerminalTurn(e: AgentEvent) {
    e.kind == KindTurn && TerminalPhase(e.phase)
  }

  predicate StartsStream(phase: Phase) {
    phase == PhaseStarted || phase == PhaseUpdated || phase == PhaseDelta
  }

  predicate Opens(w: Watch, e: AgentEvent) {
    match w
    case TurnOpen(id) => e.kind == KindTurn && (e.phase == PhaseRequested || e.phase == PhaseStarted)
                         && e.turnID == id != ""
    case AgentRun(id) => e.kind == KindAgent && StartsStream(e.phase) && FirstNonEmpty(e.agentID, e.eventID) == id
    case ToolStream(id) => e.kind == KindTool && StartsStream(e.phase) && ToolID(e) == id
    case Approval(id) => e.kind == KindApproval && (e.phase == PhaseRequested || e.phase == PhaseBlocked)
                         && ApprovalID(e) == id
    case TurnFailure => e.kind == KindTurn && e.phase == PhaseFailed
    case DiffSeen => e.kind == KindDiff
  }

  predicate Closes(w: Watch, e: AgentEvent) {
    match w
    case TurnOpen(id) => TerminalTurn(e) && e.turnID == id
    case AgentRun(id) => TerminalTurn(e)
                         || (e.kind == KindAgent && TerminalPhase(e.phase) && FirstNonEmpty(e.agentID, e.eventID) == id)
    case ToolStream(id) => TerminalTurn(e)
                           || (e.kind == KindTool && TerminalPhase(e.phase) && ToolID(e) == id)
    case Approval(id) => TerminalTurn(e)
                         || (e.kind == KindApproval && ApprovalID(e) == id
                             && (e.phase == PhaseResolved || e.phase == PhaseCompleted || e.phase == PhaseCanceled))
    case TurnFailure => e.kind == KindTurn
                        && (e.phase == PhaseRequested || e.phase == PhaseStarted
                            || e.phase == PhaseCompleted || e.phase == PhaseCanceled)
    case DiffSeen => false
  }

  /** Some event opened the watch and no later one closed it. */
  ghost predicate Live(events: seq<AgentEvent>, w: Watch) {
    exists i :: 0 <= i < |events| && Opens(w, events[i])
      && forall j :: i < j < |events| ==> !Closes(w, events[j])
  }

  ghost function HistoryStatus(events: seq<AgentEvent>): ProjectionStatus {
    if exists id :: Live(events, Approval(id)) then Blocked
    else if exists id :: Live(events, TurnOpen(id)) || Live(events, AgentRun(id)) || Live(events, ToolStream(id))
    then Working
    else if Live(events, TurnFailure) then Failed
    else if Live(events, DiffSeen) then Reviewing
    else Idle
  }

  lemma LiveStays(events: seq<AgentEvent>, e: AgentEvent, w: Watch)
    requires Live(events, w) && !Closes(w, e)
    ensures Live(events + [e], w)
  {
    var all, n := events + [e], |events|;
    var i :| 0 <= i < n && Opens(w, events[i]) && forall j :: i < j < n ==> !Closes(w, events[j]);
    assert Opens(w, all[i]);
    forall j | i < j < |all| ensures !Closes(w, all[j]) {
      assert j < n ==> all[j] == events[j];
    }
  }

  lemma LiveBefore(events: seq<AgentEvent>, e: AgentEvent, w: Watch)
    requires Live(events + [e], w) && !Opens(w, e)
    ensures Live(events, w) && !Closes(w, e)
  {
    var all, n := events + [e], |events|;
    assert all[n] == e;
    var i :| 0 <= i < |all| && Opens(w, all[i]) && forall j :: i < j < |all| ==> !Closes(w, all[j]);
    assert Opens(w, events[i]);
    forall j | i < j < n ensures !Closes(w, events[j]) {
      assert all[j] == events[j];
    }
  }

  /** Liveness after one more event. */
  lemma LiveStep(events: seq<AgentEvent>, e: AgentEvent, w: Watch)
    ensures Live(events + [e], w) <==> Opens(w, e) || (Live(events, w) && !Closes(w, e))
  {
    if Opens(w, e) {
      assert Opens(w, (events + [e])[|events|]);
    } else if Live(events, w) && !Closes(w, e) {
      LiveStays(events, e, w);
    } else if Live(events + [e], w) {
      LiveBefore(events, e, w);
    }
  }

  /** The part of a projection the status depends on. */
  datatype Facts = Facts(live: Liveness, diffSeen: bool, failed: bool)

  function FactsOf(p: Projection): Facts {
    Facts(p.live, p.diff.Some?, p.lastTerminalFailed)
  }

  /** What one event does to the facts, whatever it does to the rows. */
  function FactsStep(f: Facts, e: AgentEvent): Facts {
    match e.kind
    case KindTurn => TurnStep(f, e)
    case KindAgent => f.(live := f.live.(agents := Stream(f.live.agents, FirstNonEmpty(e.agentID, e.eventID), e.phase)))
    case KindTool => f.(live := f.live.(streams := Stream(f.live.streams, ToolID(e), e.phase)))
    case KindApproval => f.(live := ApprovalLiveness(f.live, e))
    case KindDiff => f.(diffSeen := true)
    case _ => f
  }

  function TurnStep(f: Facts, e: AgentEvent): Facts {
    if e.phase == PhaseRequested || e.phase == PhaseStarted then
      Facts(f.live.(turns := if e.turnID == "" then f.live.turns else f.live.turns + {e.turnID}), f.diffSeen, false)
    else if TerminalPhase(e.phase) then
      Facts(Liveness(f.live.turns - {e.turnID}, {}, {}, {}, {}), f.diffSeen, e.phase == PhaseFailed)
    else f
  }

  lemma TerminalFacts(p: Projection, e: AgentEvent)
    requires TerminalPhase(e.phase)
    ensures FactsOf(TurnLiveness(p, e)) == TurnStep(FactsOf(p), e)
  {
    var q := p.(live := p.live.(turns := p.live.turns - {e.turnID}, agents := {}, streams := {}),
                finals := CompleteFinal(p.finals, e),
                lastTerminalFailed := e.phase == PhaseFailed);
    var c := ClearApprovals(q, e.status, e.createdAt);
    assert FactsOf(c) == FactsOf(q).(live := q.live.(approvals := {}, userInputs := {}));
    CompleteActivityFacts(c, e);
  }

  lemma CompleteActivityFacts(p: Projection, e: AgentEvent)
    ensures FactsOf(CompleteActivityRows(p, e)) == FactsOf(p)
  {
  }

  lemma WriteRowFacts(p: Projection, row: TimelineEntry)
    ensures FactsOf(WriteRow(p, row)) == FactsOf(p)
  {
  }

  lemma ArchiveFacts(p: Projection, e: AgentEvent, idKind: string, includeCompleted: bool)
    ensures FactsOf(ArchiveFinal(p, e, idKind, includeCompleted)) == FactsOf(p)
  {
  }

  lemma TurnFacts(p: Projection, e: AgentEvent)
    ensures FactsOf(ApplyTurn(p, e)) == TurnStep(FactsOf(p), e)
  {
    assert FactsOf(ApplyTurn(p, e)) == FactsOf(TurnLiveness(p, e));
    if TerminalPhase(e.phase) {
      TerminalFacts(p, e);
    }
  }

  /** The whole projector, seen through the facts, is `FactsStep`. */
  lemma ApplyFacts(p: Projection, e: AgentEvent)
    ensures FactsOf(ApplyKind(p, e)) == FactsStep(FactsOf(p), e)
  {
    match e.kind
    case KindTurn => TurnFacts(p, e);
    case KindTool =>
      ArchiveFacts(p, e, BEFORE_TOOL, false);
      WriteRowFacts(ArchiveFinal(p, e, BEFORE_TOOL, false), ToolRow(e));
    case KindPlan => WriteRowFacts(p, PlanRow(e));
    case KindEvidence => WriteRowFacts(p, EvidenceRow(e));
    case KindReasoning => WriteRowFacts(p, ReasoningRow(e));
    case KindSystem =>
      ArchiveFacts(p, e, BEFORE_ITERATION, true);
      WriteRowFacts(if ResetsFinal(e) then ArchiveFinal(p, e, BEFORE_ITERATION, true) else p, SystemRow(e));
    case KindAssistant => WriteRowFacts(p, SideRow(e));
    case _ =>
  }

  /** What the projection records for a watch. */
  predicate RecordedIn(f: Facts, w: Watch) {
    match w
    case TurnOpen(id) => id in f.live.turns
    case AgentRun(id) => id in f.live.agents
    case ToolStream(id) => id in f.live.streams
    case Approval(id) => id in f.live.approvals
    case TurnFailure => f.failed
    case DiffSeen => f.diffSeen
  }

  predicate Recorded(p: Projection, w: Watch) {
    RecordedIn(FactsOf(p), w)
  }

  /** Pending user inputs are a part of the pending approvals. */
  predicate InputsArePending(f: Facts) {
    f.live.userInputs <= f.live.approvals
  }

  lemma RecordedStep(f: Facts, e: AgentEvent, w: Watch)
    requires InputsArePending(f)
    ensures RecordedIn(FactsStep(f, e), w) <==> Opens(w, e) || (RecordedIn(f, w) && !Closes(w, e))
    ensures InputsArePending(FactsStep(f, e))
  {
  }

  lemma ReplayFacts(sessionID: string, before: seq<AgentEvent>, e: AgentEvent)
    requires Replay(sessionID, before + [e]).Success?
    ensures Replay(sessionID, before).Success?
    ensures FactsOf(Replay(sessionID, before + [e]).value) == FactsStep(FactsOf(Replay(sessionID, before).value), e)
  {
    ReplayStep(sessionID, before, e);
    var p := Replay(sessionID, before).value;
    ApplyFacts(Prepare(p, e), e);
    assert FactsOf(Prepare(p, e)) == FactsOf(p);
  }

  /** The projection records exactly the live watches of its history. */
  lemma {:induction false} RecordedIsLive(sessionID: string, events: seq<AgentEvent>, w: Watch)
    requires Replay(sessionID, events).Success?
    ensures Recorded(Replay(sessionID, events).value, w) <==> Live(events, w)
    ensures InputsArePending(FactsOf(Replay(sessionID, events).value))
  {
    if events != [] {
      var before, e := events[..|events| - 1], events[|events| - 1];
      SplitLast(events);
      ReplayFacts(sessionID, before, e);
      RecordedIsLive(sessionID, before, w);
      LiveStep(before, e, w);
      RecordedStep(FactsOf(Replay(sessionID, before).value), e, w);
    }
  }

  /** The status of a replay is the declarative reading of the whole history. */
  lemma StatusMeansHistory(sessionID: string, events: seq<AgentEvent>)
    requires Replay(sessionID, events).Success?
    ensures Replay(sessionID, events).value.status == HistoryStatus(events)
  {
    var p := Replay(sessionID, events).value;
    StatusIsDerived(sessionID, events);
    forall w: Watch ensures Recorded(p, w) <==> Live(events, w) {
      RecordedIsLive(sessionID, events, w);
    }
    RecordedIsLive(sessionID, events, DiffSeen);
    FactsStatus(p, events);
  }

  lemma FactsStatus(p: Projection, events: seq<AgentEvent>)
    requires forall w: Watch :: Recorded(p, w) <==> Live(events, w)
    requires InputsArePending(FactsOf(p))
    ensures DeriveStatus(p.live, p.diff, p.lastTerminalFailed) == HistoryStatus(events)
  {
    SomeApproval(p, events);
    SomeWork(p, events);
    assert Recorded(p, TurnFailure) <==> Live(events, TurnFailure);
    assert Recorded(p, DiffSeen) <==> Live(events, DiffSeen);
  }

  lemma SomeApproval(p: Projection, events: seq<AgentEvent>)
    requires forall w: Watch :: Recorded(p, w) <==> Live(events, w)
    ensures p.live.approvals != {} <==> exists id :: Live(events, Approval(id))
  {
    forall id ensures id in p.live.approvals <==> Live(events, Approval(id)) {
      assert Recorded(p, Approval(id)) <==> Live(events, Approval(id));
    }
  }

  lemma SomeWork(p: Projection, events: seq<AgentEvent>)
    requires forall w: Watch :: Recorded(p, w) <==> Live(events, w)
    ensures p.live.turns != {} || p.live.agents != {} || p.live.streams != {}
      <==> exists id :: Live(events, TurnOpen(id)) || Live(events, AgentRun(id)) || Live(events, ToolStream(id))
  {
    forall id ensures id in p.live.turns <==> Live(events, TurnOpen(id)) {
      assert Recorded(p, TurnOpen(id)) <==> Live(events, TurnOpen(id));
    }
    forall id ensures id in p.live.agents <==> Live(events, AgentRun(id)) {
      assert Recorded(p, AgentRun(id)) <==> Live(events, AgentRun(id));
    }
    forall id ensures id in p.live.streams <==> Live(events, ToolStream(id)) {
      assert Recorded(p, ToolStream(id)) <==> Live(events, ToolStream(id));
    }
  }

  lemma StatusIsDerived(sessionID: string, events: seq<AgentEvent>)
    requires Replay(sessionID, events).Success?
    ensures var p := Replay(sessionID, events).value;
      p.status == DeriveStatus(p.live, p.diff, p.lastTerminalFailed)
  {
  }
}
