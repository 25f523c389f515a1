/**
 The projector: one event applied to a projection, and the replay of a list of events.

 The code passes the projection by value, so each `apply` step is a function from projection
 to projection; the loops over rows are methods proved against these functions.
 */
module Projector {
  import opened Wrappers
  import opened Text
  import opened AgentEvents

  // ---------------------------------------------------------------- rows of the timeline

  predicate SameRow(a: TimelineEntry, id: string, kind: Kind) {
    a.id == id && a.kind == kind
  }

  /** Position of the first row with this id and kind, or the length of the list. */
  function RowIndex(list: seq<TimelineEntry>, id: string, kind: Kind): (i: nat)
    ensures i <= |list|
    ensures i < |list| ==> SameRow(list[i], id, kind)
    ensures forall j :: 0 <= j < i ==> !SameRow(list[j], id, kind)
  {
    if list == [] then 0
    else if SameRow(list[0], id, kind) then 0
    else 1 + RowIndex(list[1..], id, kind)
  }

  /** `row` replaces `existing`, except that blank texts keep the existing ones. */
  function Merge(existing: TimelineEntry, row: TimelineEntry): TimelineEntry {
    row.(title := if row.title == "" then existing.title else row.title,
         summary := if row.summary == "" then existing.summary else row.summary,
         detail := if row.detail == "" then existing.detail else row.detail,
         outputPreview := if row.outputPreview == "" then existing.outputPreview else row.outputPreview)
  }

  function Upsert(list: seq<TimelineEntry>, row: TimelineEntry): seq<TimelineEntry> {
    var i := RowIndex(list, row.id, row.kind);
    if i < |list| then list[i := Merge(list[i], row)] else list + [row]
  }

  function Group(p: Projection, turnID: string): seq<TimelineEntry> {
    if turnID in p.groups then p.groups[turnID] else []
  }

  /** Writes a row to the timeline and, when it belongs to a turn, to that turn's process group. */
  function WriteRow(p: Projection, row: TimelineEntry): Projection {
    var q := p.(timeline := Upsert(p.timeline, row));
    if row.turnID == "" then q
    else q.(groups := p.groups[row.turnID := Upsert(Group(p, row.turnID), row)])
  }

  function BlankRow(e: AgentEvent, id: string): TimelineEntry {
    TimelineEntry(id, e.kind, e.turnID, e.agentID, "", e.phase, e.status, "", "", "", "", [],
                  false, false, false, e.createdAt, e.seqNo)
  }

  // ---------------------------------------------------------------- apply

  function DeriveStatus(l: Liveness, diff: Option<DiffView>, lastTerminalFailed: bool): ProjectionStatus {
    if l.approvals != {} || l.userInputs != {} then Blocked
    else if l.turns != {} || l.agents != {} || l.streams != {} then Working
    else if lastTerminalFailed then Failed
    else if diff.Some? then Reviewing
    else Idle
  }

  function Settle(p: Projection): Projection {
    p.(status := DeriveStatus(p.live, p.diff, p.lastTerminalFailed))
  }

  predicate AdoptsCurrentTurn(p: Projection, e: AgentEvent) {
    e.turnID != "" && e.kind == KindTurn &&
    match e.phase
    case PhaseRequested | PhaseStarted | PhaseUpdated | PhaseDelta | PhaseBlocked => true
    case _ => p.currentTurnID == ""
  }

  function Prepare(p: Projection, e: AgentEvent): Projection {
    p.(sessionID := e.sessionID,
       threadID := if p.threadID == "" then e.threadID else p.threadID,
       currentTurnID := if AdoptsCurrentTurn(p, e) then e.turnID else p.currentTurnID,
       lastSeq := if e.seqNo > p.lastSeq then e.seqNo else p.lastSeq)
  }

  function ApplyKind(p: Projection, e: AgentEvent): Projection {
    match e.kind
    case KindTurn => ApplyTurn(p, e)
    case KindAgent => ApplyAgent(p, e)
    case KindTool => ApplyTool(p, e)
    case KindApproval => ApplyApproval(p, e)
    case KindAssistant => ApplyAssistant(p, e)
    case KindPlan => WriteRow(p, PlanRow(e))
    case KindEvidence => WriteRow(p, EvidenceRow(e))
    case KindReasoning => WriteRow(p, ReasoningRow(e))
    case KindSystem => ApplySystem(p, e)
    case KindDiff => p.(diff := Some(DiffView(e.payload.summary, e.createdAt)))
    case KindArtifact => ApplyArtifact(p, e)
    case _ => p
  }

  function Apply(p: Projection, e: AgentEvent): Result<Projection, EventError> {
    match Validate(e)
    case Fail(error) => Failure(error)
    case Pass =>
      if p.sessionID != "" && p.sessionID != e.sessionID then
        Failure(SessionMismatch(e.sessionID, p.sessionID))
      else
        Success(Step(p, e))
  }

  /** The effect of an accepted event. */
  function Step(p: Projection, e: AgentEvent): Projection {
    Settle(ApplyKind(Prepare(p, e), e))
  }

  /** The fold of a whole list, from the empty projection of a session. */
  function Replay(sessionID: string, events: seq<AgentEvent>): (r: Result<Projection, EventError>)
  {
    if events == [] then Success(EmptyProjection(sessionID))
    else
      var p :- Replay(sessionID, events[..|events| - 1]);
      Apply(p, events[|events| - 1])
  }

  /** The replay of a longer history is one application after the replay of the shorter one. */
  lemma ReplayStep(sessionID: string, before: seq<AgentEvent>, e: AgentEvent)
    requires Replay(sessionID, before + [e]).Success?
    ensures Replay(sessionID, before).Success?
    ensures var p := Replay(sessionID, before).value;
      && (p.sessionID == "" || p.sessionID == e.sessionID)
      && Validate(e).Pass?
      && Replay(sessionID, before + [e]).value == Step(p, e)
  {
    var all := before + [e];
    assert all[..|all| - 1] == before && all[|all| - 1] == e;
  }

  // ---------------------------------------------------------------- turn events

  predicate TerminalPhase(phase: Phase) {
    phase == PhaseCompleted || phase == PhaseCanceled || phase == PhaseFailed
  }

  function ApplyTurn(p: Projection, e: AgentEvent): Projection {
    var rowID := TurnRowID(p, e);
    var q := TurnLiveness(p, e);
    if rowID == "" then q else q.(timeline := Upsert(q.timeline, TurnRow(e, rowID)))
  }

  function TurnLiveness(p: Projection, e: AgentEvent): Projection {
    match e.phase
    case PhaseRequested | PhaseStarted =>
      p.(live := p.live.(turns := if e.turnID == "" then p.live.turns else p.live.turns + {e.turnID}),
         lastTerminalFailed := false)
    case PhaseCompleted | PhaseCanceled | PhaseFailed =>
      var q := p.(live := p.live.(turns := p.live.turns - {e.turnID}, agents := {}, streams := {}),
                  finals := CompleteFinal(p.finals, e),
                  lastTerminalFailed := e.phase == PhaseFailed);
      CompleteActivityRows(ClearApprovals(q, e.status, e.createdAt), e)
    case _ => p
  }

  function TurnRow(e: AgentEvent, rowID: string): TimelineEntry {
    var given := FirstNonEmpty(e.payload.summary, e.payload.error);
    var title := if e.payload.prompt == "" && e.phase == PhaseRequested then e.payload.title
                 else e.payload.prompt;
    BlankRow(e, rowID).(title := title, summary := if given == "" then DefaultTurnSummary(e) else given)
  }

  function DefaultTurnSummary(e: AgentEvent): string {
    match e.phase
    case PhaseRequested => "正在发送请求"
    case PhaseStarted => FirstNonEmpty(e.payload.title, "正在等待 Agent 启动")
    case PhaseCompleted => "已完成"
    case PhaseCanceled => "已停止生成"
    case PhaseFailed => "请求失败"
    case _ => ""
  }

  /** The row a turn event is shown on: an explicit message id, the turn's existing row, or a fallback id. */
  function TurnRowID(p: Projection, e: AgentEvent): string {
    if e.payload.clientMessageID != "" then e.payload.clientMessageID
    else
      var existing := if e.turnID == "" then "" else ExistingTurnRow(p.timeline, e.turnID);
      if existing != "" then existing
      else FirstNonEmpty(e.clientTurnID, FirstNonEmpty(e.payload.clientTurnID, e.turnID))
  }

  function ExistingTurnRow(rows: seq<TimelineEntry>, turnID: string): string {
    if rows == [] then ""
    else if rows[0].kind == KindTurn && rows[0].turnID == turnID && rows[0].id != "" then rows[0].id
    else ExistingTurnRow(rows[1..], turnID)
  }

  function ClearApprovals(p: Projection, status: Status, updatedAt: string): Projection {
    var pending := p.live.approvals + p.live.userInputs;
    if pending == {} then p
    else p.(live := p.live.(approvals := {}, userInputs := {}),
            approvals := CloseApprovalRows(p.approvals, pending, status, updatedAt))
  }

  function CloseApprovalRows(rows: seq<ApprovalRow>, pending: set<string>, status: Status,
                             updatedAt: string): (r: seq<ApprovalRow>)
    ensures |r| == |rows|
    ensures forall i :: 0 <= i < |rows| ==>
      r[i] == if rows[i].id in pending then rows[i].(status := status, updatedAt := updatedAt) else rows[i]
  {
    seq(|rows|, i requires 0 <= i < |rows| =>
      if rows[i].id in pending then rows[i].(status := status, updatedAt := updatedAt) else rows[i])
  }

  type Finals = map<string, FinalMessage>

  /** The running answer of a finished turn: dropped when the turn was aborted, else marked as done. */
  function CompleteFinal(finals: Finals, e: AgentEvent): Finals {
    if e.turnID == "" || e.turnID !in finals then finals
    else if e.status == StatusFailed || e.status == StatusCanceled then finals - {e.turnID}
    else finals[e.turnID := finals[e.turnID].(status := e.status, updatedAt := e.createdAt)]
  }

  /** A running activity row of the finished turn takes the phase and status of the terminal event. */
  function CompleteRow(row: TimelineEntry, e: AgentEvent): TimelineEntry {
    if row.turnID != e.turnID || row.displayKind != "runtime.activity" then row
    else if row.status != StatusRunning && row.phase != PhaseUpdated then row
    else row.(phase := e.phase, status := e.status, updatedAt := e.createdAt,
              seqNo := if e.seqNo > row.seqNo then e.seqNo else row.seqNo)
  }

  function CompleteRows(rows: seq<TimelineEntry>, e: AgentEvent): (r: seq<TimelineEntry>)
    ensures |r| == |rows|
    ensures forall i :: 0 <= i < |rows| ==> r[i] == CompleteRow(rows[i], e)
  {
    seq(|rows|, i requires 0 <= i < |rows| => CompleteRow(rows[i], e))
  }

  function CompleteActivityRows(p: Projection, e: AgentEvent): Projection {
    if e.turnID == "" then p
    else
      var q := p.(timeline := CompleteRows(p.timeline, e));
      if e.turnID !in p.groups then q
      else q.(groups := p.groups[e.turnID := CompleteRows(p.groups[e.turnID], e)])
  }

  // ---------------------------------------------------------------- agent, approval and artifact events

  function AgentIDs(rows: seq<AgentRow>): seq<string> {
    seq(|rows|, i requires 0 <= i < |rows| => rows[i].id)
  }

  function ApplyAgent(p: Projection, e: AgentEvent): Projection {
    var id := FirstNonEmpty(e.agentID, e.eventID);
    var row := AgentRow(id, e.status, e.startedAt);
    var i := IndexOf(AgentIDs(p.agents), id);
    var agents := if i < |p.agents|
                  then p.agents[i := row.(startedAt := FirstNonEmpty(row.startedAt, p.agents[i].startedAt))]
                  else p.agents + [row];
    p.(agents := agents, live := p.live.(agents := Stream(p.live.agents, id, e.phase)))
  }

  /** A started stream is live until it completes, fails or is cancelled. */
  function Stream(live: set<string>, id: string, phase: Phase): set<string> {
    match phase
    case PhaseStarted | PhaseUpdated | PhaseDelta => live + {id}
    case PhaseCompleted | PhaseFailed | PhaseCanceled => live - {id}
    case _ => live
  }

  function ApprovalIDs(rows: seq<ApprovalRow>): seq<string> {
    seq(|rows|, i requires 0 <= i < |rows| => rows[i].id)
  }

  function ApprovalID(e: AgentEvent): string {
    FirstNonEmpty(e.payload.approvalID, e.eventID)
  }

  function ApplyApproval(p: Projection, e: AgentEvent): Projection {
    var id := ApprovalID(e);
    var row := ApprovalRow(id, e.payload.approvalType, e.payload.title, e.payload.reason, e.status, e.createdAt);
    var i := IndexOf(ApprovalIDs(p.approvals), id);
    var approvals := if i < |p.approvals| then p.approvals[i := MergeApproval(p.approvals[i], row)]
                     else p.approvals + [row];
    p.(approvals := approvals, live := ApprovalLiveness(p.live, e))
  }

  function MergeApproval(existing: ApprovalRow, row: ApprovalRow): ApprovalRow {
    row.(title := FirstNonEmpty(row.title, existing.title),
         reason := FirstNonEmpty(row.reason, existing.reason),
         approvalType := FirstNonEmpty(row.approvalType, existing.approvalType))
  }

  function ApprovalLiveness(l: Liveness, e: AgentEvent): Liveness {
    var id := ApprovalID(e);
    match e.phase
    case PhaseRequested | PhaseBlocked =>
      var asks := e.payload.approvalType == "user_input" || e.payload.approvalType == "ask_user";
      l.(approvals := l.approvals + {id}, userInputs := if asks then l.userInputs + {id} else l.userInputs)
    case PhaseResolved | PhaseCompleted | PhaseCanceled =>
      l.(approvals := l.approvals - {id}, userInputs := l.userInputs - {id})
    case _ => l
  }

  function ArtifactIDs(rows: seq<ArtifactRow>): seq<string> {
    seq(|rows|, i requires 0 <= i < |rows| => rows[i].id)
  }

  function ApplyArtifact(p: Projection, e: AgentEvent): Projection {
    var id := FirstNonEmpty(e.payload.artifactID, e.eventID);
    var row := ArtifactRow(id, e.payload.title, e.status, e.createdAt);
    var i := IndexOf(ArtifactIDs(p.artifacts), id);
    p.(artifacts := if i < |p.artifacts| then p.artifacts[i := row] else p.artifacts + [row])
  }

  // ---------------------------------------------------------------- tool and system events

  function ToolID(e: AgentEvent): string {
    FirstNonEmpty(e.payload.toolCallID, e.eventID)
  }

  function ToolRow(e: AgentEvent): TimelineEntry {
    BlankRow(e, ToolID(e)).(
      displayKind := e.payload.displayKind,
      title := FirstNonEmpty(e.payload.title, FirstNonEmpty(e.payload.displayName, e.payload.toolName)),
      summary := ToolSummary(e.payload),
      outputPreview := e.payload.outputPreview,
      foldable := e.payload.foldable,
      autoCollapse := e.payload.autoCollapse,
      collapsed := e.payload.autoCollapse && e.status == StatusCompleted)
  }

  function ToolSummary(p: Payload): string {
    if p.error != "" then
      if p.inputSummary != "" then p.inputSummary + ": " + p.error else p.error
    else FirstNonEmpty(p.outputSummary, p.inputSummary)
  }

  const BEFORE_TOOL := "assistant-before-tool"
  const BEFORE_ITERATION := "assistant-before-runtime-iteration"

  function ApplyTool(p: Projection, e: AgentEvent): Projection {
    var q := WriteRow(ArchiveFinal(p, e, BEFORE_TOOL, false), ToolRow(e));
    q.(live := q.live.(streams := Stream(q.live.streams, ToolID(e), e.phase)))
  }

  /** Does this event archive the running answer of its turn? */
  predicate Archives(finals: Finals, e: AgentEvent, includeCompleted: bool) {
    e.turnID != "" && e.turnID in finals &&
    (finals[e.turnID].status == StatusCompleted ==> includeCompleted || e.phase == PhaseStarted)
  }

  function SourceID(e: AgentEvent): string {
    FirstNonEmpty(TrimSpace(e.eventID), Decimal(e.seqNo))
  }

  function ArchiveID(e: AgentEvent, idKind: string): string {
    e.turnID + ":" + idKind + ":" + SourceID(e)
  }

  function ArchiveRow(final: FinalMessage, e: AgentEvent, idKind: string): TimelineEntry {
    TimelineEntry(ArchiveID(e, idKind), KindAssistant, e.turnID, e.agentID, "assistant.process",
                  PhaseCompleted, StatusCompleted, "assistant", TrimSpace(final.text), "", "", [],
                  false, false, false, FirstNonEmpty(final.updatedAt, e.createdAt),
                  if e.seqNo > 0 then e.seqNo - 1 else e.seqNo)
  }

  /** Moves the running answer of the turn into the timeline; blank text is only dropped. */
  function ArchiveFinal(p: Projection, e: AgentEvent, idKind: string, includeCompleted: bool): Projection {
    if !Archives(p.finals, e, includeCompleted) then p
    else
      var final := p.finals[e.turnID];
      var q := if TrimSpace(final.text) == "" then p else WriteRow(p, ArchiveRow(final, e, idKind));
      q.(finals := q.finals - {e.turnID})
  }

  predicate ResetsFinal(e: AgentEvent) {
    e.turnID != "" && e.phase == PhaseUpdated && e.status == StatusRunning &&
    EqualFold(TrimSpace(e.payload.displayKind), "runtime.activity") &&
    e.payload.iteration > 0 &&
    EqualFold(TrimSpace(e.payload.stage), "context_pipeline")
  }

  function SystemRow(e: AgentEvent): TimelineEntry {
    BlankRow(e, FirstNonEmpty(e.payload.id, e.eventID)).(
      displayKind := e.payload.displayKind, title := e.payload.title,
      summary := e.payload.summary, detail := e.payload.detail)
  }

  function ApplySystem(p: Projection, e: AgentEvent): Projection {
    WriteRow(if ResetsFinal(e) then ArchiveFinal(p, e, BEFORE_ITERATION, true) else p, SystemRow(e))
  }

  // ---------------------------------------------------------------- plan, evidence and reasoning rows

  function PlanRow(e: AgentEvent): TimelineEntry {
    var steps := NormalizeSteps(e.payload.steps, false);
    var done := e.status == StatusCompleted;
    BlankRow(e, if e.turnID == "" then e.eventID else e.turnID + ":plan").(
      displayKind := "plan", title := e.payload.title, summary := PlanSummary(steps), steps := steps,
      foldable := true, autoCollapse := done, collapsed := done)
  }

  function StepStatus(raw: string, runningSeen: bool): string {
    var status := ToLower(TrimSpace(raw));
    var named := if status == "in_progress" then "running" else if status == "" then "pending" else status;
    if named == "running" && runningSeen then "pending" else named
  }

  /** At most the first running step stays running. */
  function NormalizeSteps(steps: seq<PlanStep>, runningSeen: bool): (r: seq<PlanStep>)
    ensures |r| == |steps|
  {
    if steps == [] then []
    else
      var status := StepStatus(steps[0].status, runningSeen);
      [steps[0].(status := status)] + NormalizeSteps(steps[1..], runningSeen || status == "running")
  }

  function PlanSummary(steps: seq<PlanStep>): string {
    var i := RunningStep(steps);
    var running := if i < |steps| then steps[i].text else "";
    if running == "" && |steps| > 0 then steps[|steps| - 1].text else running
  }

  function RunningStep(steps: seq<PlanStep>): (i: nat)
    ensures i <= |steps|
    ensures i < |steps| ==> steps[i].status == "running"
    ensures forall j :: 0 <= j < i ==> steps[j].status != "running"
  {
    if steps == [] || steps[0].status == "running" then 0 else 1 + RunningStep(steps[1..])
  }

  function EvidenceRow(e: AgentEvent): TimelineEntry {
    BlankRow(e, FirstNonEmpty(e.payload.id, e.eventID)).(
      displayKind := "evidence." + e.payload.kind,
      title := FirstNonEmpty(e.payload.title, e.payload.kind), summary := e.payload.summary)
  }

  function ReasoningRow(e: AgentEvent): TimelineEntry {
    var done := e.phase == PhaseCompleted || e.status == StatusCompleted;
    var collapse := e.payload.autoCollapse || done;
    BlankRow(e, FirstNonEmpty(e.payload.itemID, e.eventID)).(
      displayKind := "reasoning.summary", title := if done then "思考摘要" else "正在思考",
      summary := FirstNonEmpty(e.payload.summary, e.payload.delta),
      foldable := e.payload.foldable || done, autoCollapse := collapse,
      collapsed := collapse && e.status == StatusCompleted)
  }

  // ---------------------------------------------------------------- assistant events

  predicate IsSideText(e: AgentEvent) {
    e.payload.channel == "intent" || e.payload.channel == "summary"
  }

  function SideText(e: AgentEvent): string {
    FirstNonEmpty(e.payload.text, e.payload.delta)
  }

  function SideRow(e: AgentEvent): TimelineEntry {
    BlankRow(e, FirstNonEmpty(e.payload.messageID, e.eventID)).(
      title := e.payload.channel, summary := SideText(e))
  }

  function FinalText(e: AgentEvent): string {
    FirstNonEmpty(e.payload.delta, e.payload.text)
  }

  /** A whole text outside the delta phase replaces what was streamed; anything else is appended. */
  predicate ReplacesFinal(e: AgentEvent) {
    e.payload.text != "" && e.payload.delta == "" && e.phase != PhaseDelta
  }

  function ApplyAssistant(p: Projection, e: AgentEvent): Projection {
    if IsSideText(e) then
      if SideText(e) == "" || e.turnID == "" then p else WriteRow(p, SideRow(e))
    else if StreamsFinal(e) then p.(finals := StreamFinal(p.finals, e))
    else p
  }

  predicate StreamsFinal(e: AgentEvent) {
    (e.payload.channel == "" || e.payload.channel == "final") && FinalText(e) != "" && e.turnID != ""
  }

  function RunningText(finals: Finals, turnID: string): string {
    if turnID in finals then finals[turnID].text else ""
  }

  function StreamFinal(finals: Finals, e: AgentEvent): Finals {
    var text := if ReplacesFinal(e) then e.payload.text else RunningText(finals, e.turnID) + FinalText(e);
    finals[e.turnID := FinalMessage(e.turnID, text, e.status, e.createdAt)]
  }
}
