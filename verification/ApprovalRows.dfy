/**
 The approval rows of a projection stand apart: nothing else in it depends on them. Projections that
 differ only in how their approval rows are closed stay that way.
 */
module ApprovalRows {
  import opened Wrappers
  import opened AgentEvents
  import opened Projector

  /** The same approval rows, some perhaps closed by an event that was never stored. */
  predicate SameRows(a: seq<ApprovalRow>, b: seq<ApprovalRow>) {
    |a| == |b| && forall i :: 0 <= i < |a| ==> a[i].(status := b[i].status, updatedAt := b[i].updatedAt) == b[i]
  }

  /** Equal, or equal up to the closing of approval rows. */
  predicate Agree(p: Projection, q: Projection, exact: bool) {
    if exact then p == q else SameRows(p.approvals, q.approvals) && p.(approvals := q.approvals) == q
  }

  /** What an event makes of the approval rows, and of nothing else. */
  function ApprovalsAfter(rows: seq<ApprovalRow>, live: Liveness, e: AgentEvent): seq<ApprovalRow> {
    match e.kind
    case KindTurn =>
      var pending := live.approvals + live.userInputs;
      if TerminalPhase(e.phase) && pending != {} then CloseApprovalRows(rows, pending, e.status, e.createdAt) else rows
    case KindApproval =>
      var id := ApprovalID(e);
      var row := ApprovalRow(id, e.payload.approvalType, e.payload.title, e.payload.reason, e.status, e.createdAt);
      var i := IndexOf(ApprovalIDs(rows), id);
      if i < |rows| then rows[i := MergeApproval(rows[i], row)] else rows + [row]
    case _ => rows
  }

  lemma ClearApart(p: Projection, rows: seq<ApprovalRow>, status: Status, updatedAt: string)
    ensures var pending := p.live.approvals + p.live.userInputs;
      ClearApprovals(p.(approvals := rows), status, updatedAt)
        == ClearApprovals(p, status, updatedAt).(approvals :=
             if pending == {} then rows else CloseApprovalRows(rows, pending, status, updatedAt))
  {
  }

  lemma CompleteApart(p: Projection, rows: seq<ApprovalRow>, e: AgentEvent)
    ensures CompleteActivityRows(p.(approvals := rows), e) == CompleteActivityRows(p, e).(approvals := rows)
  {
  }

  /** A projection in the middle of a terminal turn event. */
  function Ending(p: Projection, e: AgentEvent): Projection {
    p.(live := p.live.(turns := p.live.turns - {e.turnID}, agents := {}, streams := {}),
       finals := CompleteFinal(p.finals, e), lastTerminalFailed := e.phase == PhaseFailed)
  }

  lemma TurnEnds(p: Projection, e: AgentEvent)
    requires TerminalPhase(e.phase)
    ensures TurnLiveness(p, e) == CompleteActivityRows(ClearApprovals(Ending(p, e), e.status, e.createdAt), e)
  {
  }

  lemma EndApart(p: Projection, rows: seq<ApprovalRow>, e: AgentEvent)
    requires e.kind == KindTurn && TerminalPhase(e.phase)
    ensures TurnLiveness(p.(approvals := rows), e) == TurnLiveness(p, e).(approvals := ApprovalsAfter(rows, p.live, e))
  {
    var after := ApprovalsAfter(rows, p.live, e);
    TurnEnds(p, e);
    TurnEnds(p.(approvals := rows), e);
    assert Ending(p.(approvals := rows), e) == Ending(p, e).(approvals := rows);
    ClearApart(Ending(p, e), rows, e.status, e.createdAt);
    CompleteApart(ClearApprovals(Ending(p, e), e.status, e.createdAt), after, e);
  }

  lemma BeginApart(p: Projection, rows: seq<ApprovalRow>, e: AgentEvent)
    requires e.kind == KindTurn && !TerminalPhase(e.phase)
    ensures TurnLiveness(p.(approvals := rows), e) == TurnLiveness(p, e).(approvals := ApprovalsAfter(rows, p.live, e))
  {
  }

  lemma TurnApart(p: Projection, rows: seq<ApprovalRow>, e: AgentEvent)
    requires e.kind == KindTurn
    ensures ApplyTurn(p.(approvals := rows), e) == ApplyTurn(p, e).(approvals := ApprovalsAfter(rows, p.live, e))
  {
    hide TurnLiveness, TurnRow;
    if TerminalPhase(e.phase) {
      EndApart(p, rows, e);
    } else {
      BeginApart(p, rows, e);
    }
  }

  lemma ArchiveApart(p: Projection, rows: seq<ApprovalRow>, e: AgentEvent, idKind: string, includeCompleted: bool)
    ensures ArchiveFinal(p.(approvals := rows), e, idKind, includeCompleted)
         == ArchiveFinal(p, e, idKind, includeCompleted).(approvals := rows)
  {
    hide ArchiveRow;
  }

  lemma WriteApart(p: Projection, rows: seq<ApprovalRow>, row: TimelineEntry)
    ensures WriteRow(p.(approvals := rows), row) == WriteRow(p, row).(approvals := rows)
  {
  }

  lemma RowsApart(p: Projection, rows: seq<ApprovalRow>, e: AgentEvent)
    requires e.kind == KindTool || e.kind == KindSystem
    ensures ApplyKind(p.(approvals := rows), e) == ApplyKind(p, e).(approvals := rows)
  {
    if e.kind == KindTool {
      ArchiveApart(p, rows, e, BEFORE_TOOL, false);
      WriteApart(ArchiveFinal(p, e, BEFORE_TOOL, false), rows, ToolRow(e));
    } else {
      ArchiveApart(p, rows, e, BEFORE_ITERATION, true);
      WriteApart(if ResetsFinal(e) then ArchiveFinal(p, e, BEFORE_ITERATION, true) else p, rows, SystemRow(e));
    }
  }

  lemma WritesApart(p: Projection, rows: seq<ApprovalRow>, e: AgentEvent)
    requires e.kind == KindPlan || e.kind == KindEvidence || e.kind == KindReasoning || e.kind == KindAssistant
    ensures ApplyKind(p.(approvals := rows), e) == ApplyKind(p, e).(approvals := rows)
  {
    hide WriteRow, PlanRow, EvidenceRow, ReasoningRow, SideRow;
    match e.kind
    case KindPlan => WriteApart(p, rows, PlanRow(e));
    case KindEvidence => WriteApart(p, rows, EvidenceRow(e));
    case KindReasoning => WriteApart(p, rows, ReasoningRow(e));
    case KindAssistant => WriteApart(p, rows, SideRow(e));
  }

  lemma ListsApart(p: Projection, rows: seq<ApprovalRow>, e: AgentEvent)
    requires e.kind == KindAgent || e.kind == KindApproval || e.kind == KindDiff || e.kind == KindArtifact
    ensures ApplyKind(p.(approvals := rows), e) == ApplyKind(p, e).(approvals := ApprovalsAfter(rows, p.live, e))
  {
  }

  /** The approval rows influence nothing but themselves. */
  lemma KindApart(p: Projection, rows: seq<ApprovalRow>, e: AgentEvent)
    ensures ApplyKind(p.(approvals := rows), e) == ApplyKind(p, e).(approvals := ApprovalsAfter(rows, p.live, e))
  {
    match e.kind
    case KindTurn => TurnApart(p, rows, e);
    case KindTool => RowsApart(p, rows, e);
    case KindSystem => RowsApart(p, rows, e);
    case KindPlan => WritesApart(p, rows, e);
    case KindEvidence => WritesApart(p, rows, e);
    case KindReasoning => WritesApart(p, rows, e);
    case KindAssistant => WritesApart(p, rows, e);
    case KindAgent => ListsApart(p, rows, e);
    case KindApproval => ListsApart(p, rows, e);
    case KindDiff => ListsApart(p, rows, e);
    case KindArtifact => ListsApart(p, rows, e);
    case _ =>
  }

  lemma StepApart(p: Projection, rows: seq<ApprovalRow>, e: AgentEvent)
    ensures Step(p.(approvals := rows), e) == Step(p, e).(approvals := ApprovalsAfter(rows, p.live, e))
  {
    KindApart(Prepare(p, e), rows, e);
    assert Prepare(p.(approvals := rows), e) == Prepare(p, e).(approvals := rows);
  }

  lemma SameRowsAfter(a: seq<ApprovalRow>, b: seq<ApprovalRow>, live: Liveness, e: AgentEvent)
    requires SameRows(a, b)
    ensures SameRows(ApprovalsAfter(a, live, e), ApprovalsAfter(b, live, e))
  {
    assert ApprovalIDs(a) == ApprovalIDs(b);
  }

  /** Applying one event to projections that agree gives projections that agree. */
  lemma StepAgrees(p: Projection, q: Projection, e: AgentEvent, exact: bool)
    requires Agree(p, q, exact)
    ensures Agree(Step(p, e), Step(q, e), exact)
  {
    if !exact {
      assert q.(approvals := p.approvals) == p;
      StepApart(q, p.approvals, e);
      StepApart(q, q.approvals, e);
      assert q.(approvals := q.approvals) == q;
      SameRowsAfter(p.approvals, q.approvals, q.live, e);
    }
  }
}
