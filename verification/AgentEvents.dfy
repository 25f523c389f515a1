/**
 Agent events and the projection they are folded into.

 A payload is the decoded JSON object of the event: one field per key the projector reads,
 the zero value standing for an absent key. Fields that are only copied to the screen are dropped.
 */
module AgentEvents {
  import opened Wrappers

  datatype Kind =
    | KindTurn | KindAgent | KindAssistant | KindTool | KindApproval | KindArtifact
    | KindDiff | KindBrowser | KindPlan | KindEvidence | KindReasoning | KindSystem
    | KindOther(name: string)

  datatype Phase =
    | PhaseRequested | PhaseStarted | PhaseDelta | PhaseUpdated | PhaseCompleted
    | PhaseFailed | PhaseCanceled | PhaseBlocked | PhaseResolved
    | PhaseOther(name: string)

  datatype Status =
    | StatusQueued | StatusRunning | StatusWaiting | StatusBlocked | StatusCompleted
    | StatusFailed | StatusCanceled | StatusSkipped
    | StatusOther(name: string)

  datatype Visibility = Primary | Secondary | Debug | Hidden | VisibilityOther(name: string)

  datatype PlanStep = PlanStep(id: string, text: string, status: string)

  datatype Payload = Payload(
    id: string, kind: string, title: string, prompt: string, summary: string, detail: string,
    error: string, clientMessageID: string, clientTurnID: string, toolCallID: string,
    toolName: string, displayName: string, displayKind: string, inputSummary: string,
    outputSummary: string, outputPreview: string, itemID: string, text: string, delta: string,
    channel: string, messageID: string, approvalID: string, approvalType: string,
    artifactID: string, reason: string, stage: string, iteration: int, steps: seq<PlanStep>,
    foldable: bool, autoCollapse: bool)

  datatype AgentEvent = AgentEvent(
    eventID: string, seqNo: int, sessionID: string, threadID: string, turnID: string,
    clientTurnID: string, agentID: string, kind: Kind, phase: Phase, status: Status,
    visibility: Visibility, source: string, createdAt: string, startedAt: string,
    payload: Payload)

  datatype EventError =
    | MissingField(field: string)
    | InvalidField(field: string, value: string)
    | SessionMismatch(event: string, projection: string)

  /** The first missing or invalid field, in the order the checks are made. */
  function Validate(e: AgentEvent): Outcome<EventError> {
    if e.eventID == "" then Fail(MissingField("event id"))
    else if e.sessionID == "" then Fail(MissingField("session id"))
    else if e.kind == KindOther("") then Fail(MissingField("kind"))
    else if e.kind.KindOther? then Fail(InvalidField("kind", e.kind.name))
    else if e.phase == PhaseOther("") then Fail(MissingField("phase"))
    else if e.phase.PhaseOther? then Fail(InvalidField("phase", e.phase.name))
    else if e.status == StatusOther("") then Fail(MissingField("status"))
    else if e.status.StatusOther? then Fail(InvalidField("status", e.status.name))
    else if e.visibility == VisibilityOther("") then Fail(MissingField("visibility"))
    else if e.visibility.VisibilityOther? then Fail(InvalidField("visibility", e.visibility.name))
    else if e.source == "" then Fail(MissingField("source"))
    else if e.createdAt == "" then Fail(MissingField("createdAt"))
    else Pass
  }

  datatype TimelineEntry = TimelineEntry(
    id: string, kind: Kind, turnID: string, agentID: string, displayKind: string, phase: Phase,
    status: Status, title: string, summary: string, detail: string, outputPreview: string,
    steps: seq<PlanStep>, foldable: bool, autoCollapse: bool, collapsed: bool,
    updatedAt: string, seqNo: int)

  datatype AgentRow = AgentRow(id: string, status: Status, startedAt: string)

  datatype ApprovalRow = ApprovalRow(
    id: string, approvalType: string, title: string, reason: string, status: Status,
    updatedAt: string)

  datatype ArtifactRow = ArtifactRow(id: string, title: string, status: Status, updatedAt: string)

  datatype DiffView = DiffView(summary: string, updatedAt: string)

  datatype FinalMessage = FinalMessage(turnID: string, text: string, status: Status, updatedAt: string)

  /** Sets of live ids; the code keeps them as maps whose values are only ever `true`. */
  datatype Liveness = Liveness(
    turns: set<string>, agents: set<string>, approvals: set<string>, userInputs: set<string>,
    streams: set<string>)

  datatype ProjectionStatus = Idle | Blocked | Working | Failed | Reviewing

  datatype Projection = Projection(
    sessionID: string, threadID: string, currentTurnID: string, status: ProjectionStatus,
    lastSeq: int, live: Liveness, timeline: seq<TimelineEntry>, agents: seq<AgentRow>,
    approvals: seq<ApprovalRow>, artifacts: seq<ArtifactRow>, diff: Option<DiffView>,
    finals: map<string, FinalMessage>, groups: map<string, seq<TimelineEntry>>,
    lastTerminalFailed: bool)

  const NOTHING_LIVE := Liveness({}, {}, {}, {}, {})

  function EmptyProjection(sessionID: string): Projection {
    Projection(sessionID, "", "", Idle, 0, NOTHING_LIVE, [], [], [], [], None, map[], map[], false)
  }
}
