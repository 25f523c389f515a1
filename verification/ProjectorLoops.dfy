/** The projector's loops, each proved to compute the function the projection laws are stated about. */
module ProjectorLoops {
  import opened Wrappers
  import opened Text
  import opened AgentEvents
  import opened Projector

  method UpsertTimelineEntry(list: seq<TimelineEntry>, row: TimelineEntry) returns (next: seq<TimelineEntry>)
    ensures next == Upsert(list, row)
  {
    var i := 0;
    while i < |list|
      invariant 0 <= i <= |list|
      invariant forall j :: 0 <= j < i ==> !SameRow(list[j], row.id, row.kind)
    {
      if SameRow(list[i], row.id, row.kind) {
        assert RowIndex(list, row.id, row.kind) == i;
        return list[i := Merge(list[i], row)];
      }
      i := i + 1;
    }
    return list + [row];
  }

  method CompleteActivity(rows: seq<TimelineEntry>, e: AgentEvent) returns (next: seq<TimelineEntry>)
    ensures next == CompleteRows(rows, e)
  {
    next := rows;
    var i := 0;
    while i < |next|
      invariant 0 <= i <= |next| == |rows|
      invariant forall j :: 0 <= j < i ==> next[j] == CompleteRow(rows[j], e)
      invariant forall j :: i <= j < |rows| ==> next[j] == rows[j]
    {
      var row := next[i];
      if row.turnID == e.turnID && row.displayKind == "runtime.activity"
         && (row.status == StatusRunning || row.phase == PhaseUpdated) {
        next := next[i := row.(phase := e.phase, status := e.status, updatedAt := e.createdAt)];
        if e.seqNo > row.seqNo {
          next := next[i := next[i].(seqNo := e.seqNo)];
        }
      }
      i := i + 1;
    }
  }

  /** Closes the rows where they are: every projection that shares the array sees it. */
  method CloseApprovals(rows: array<ApprovalRow>, pending: set<string>, status: Status, updatedAt: string)
    modifies rows
    ensures rows[..] == CloseApprovalRows(old(rows[..]), pending, status, updatedAt)
  {
    for i := 0 to rows.Length
      invariant forall j :: 0 <= j < i ==> rows[j] == CloseApprovalRows(old(rows[..]), pending, status, updatedAt)[j]
      invariant forall j :: i <= j < rows.Length ==> rows[j] == old(rows[j])
    {
      if rows[i].id in pending {
        rows[i] := rows[i].(status := status, updatedAt := updatedAt);
      }
    }
  }

  method ResolveTurnTimelineRowID(p: Projection, e: AgentEvent) returns (id: string)
    ensures id == TurnRowID(p, e)
  {
    if e.payload.clientMessageID != "" {
      return e.payload.clientMessageID;
    }
    if e.turnID != "" {
      var i := 0;
      while i < |p.timeline|
        invariant 0 <= i <= |p.timeline|
        invariant ExistingTurnRow(p.timeline, e.turnID) == ExistingTurnRow(p.timeline[i..], e.turnID)
      {
        var row := p.timeline[i];
        if row.kind == KindTurn && row.turnID == e.turnID && row.id != "" {
          return row.id;
        }
        i := i + 1;
      }
    }
    if e.clientTurnID != "" {
      return e.clientTurnID;
    }
    if e.payload.clientTurnID != "" {
      return e.payload.clientTurnID;
    }
    return e.turnID;
  }

  method NormalizeStepStatus(raw: string, runningSeen: bool) returns (status: string, seen: bool)
    ensures status == StepStatus(raw, runningSeen)
    ensures seen == (runningSeen || status == "running")
  {
    status, seen := ToLower(TrimSpace(raw)), runningSeen;
    if status == "in_progress" {
      status := "running";
    } else if status == "" {
      status := "pending";
    }
    if status == "running" {
      if seen {
        status := "pending";
      } else {
        seen := true;
      }
    }
  }

  method NormalizePlanSteps(steps: seq<PlanStep>) returns (out: seq<PlanStep>)
    ensures out == NormalizeSteps(steps, false)
  {
    hide StepStatus;
    out := [];
    var runningSeen := false;
    var i := 0;
    while i < |steps|
      invariant 0 <= i <= |steps|
      invariant out + NormalizeSteps(steps[i..], runningSeen) == NormalizeSteps(steps, false)
    {
      var status, seen := NormalizeStepStatus(steps[i].status, runningSeen);
      NormalizeFirst(steps[i..], runningSeen);
      assert steps[i..][1..] == steps[i + 1..];
      out, runningSeen := out + [steps[i].(status := status)], seen;
      i := i + 1;
    }
  }

  lemma NormalizeFirst(steps: seq<PlanStep>, seen: bool)
    requires steps != []
    ensures var status := StepStatus(steps[0].status, seen);
      NormalizeSteps(steps, seen)
        == [steps[0].(status := status)] + NormalizeSteps(steps[1..], seen || status == "running")
  {
  }

  /** The statuses left running, in order. */
  function RunningCount(steps: seq<PlanStep>): nat {
    if steps == [] then 0
    else (if steps[0].status == "running" then 1 else 0) + RunningCount(steps[1..])
  }

  /** A normalised plan has at most one running step, and none once one was seen. */
  lemma {:induction false} AtMostOneRunning(steps: seq<PlanStep>, seen: bool)
    ensures RunningCount(NormalizeSteps(steps, seen)) <= if seen then 0 else 1
  {
    if steps != [] {
      var status := StepStatus(steps[0].status, seen);
      AtMostOneRunning(steps[1..], seen || status == "running");
      NormalizeFirst(steps, seen);
      var rest := NormalizeSteps(steps[1..], seen || status == "running");
      assert ([steps[0].(status := status)] + rest)[1..] == rest;
    }
  }

  lemma PrefixStep(sessionID: string, events: seq<AgentEvent>, i: nat)
    requires i < |events| && Replay(sessionID, events[..i]).Success?
    ensures Replay(sessionID, events[..i + 1]) == Apply(Replay(sessionID, events[..i]).value, events[i])
  {
    assert events[..i + 1][..i] == events[..i];
  }

  /** The replay loop: stops at the first rejected event with the projection reached so far. */
  method ReplayEvents(sessionID: string, events: seq<AgentEvent>)
    returns (p: Projection, error: Option<EventError>, ghost read: nat)
    ensures read <= |events| && Replay(sessionID, events[..read]) == Success(p)
    ensures error.None? ==> Replay(sessionID, events) == Success(p)
    ensures error.Some? ==> Replay(sessionID, events) == Failure(error.value)
    ensures error.Some? ==> read < |events| && Apply(p, events[read]) == Failure(error.value)
  {
    p, error, read := EmptyProjection(sessionID), None, 0;
    var i := 0;
    while i < |events|
      invariant 0 <= i <= |events|
      invariant Replay(sessionID, events[..i]) == Success(p)
    {
      PrefixStep(sessionID, events, i);
      var applied := Apply(p, events[i]);
      if applied.Failure? {
        FailureIsFinal(sessionID, events, i + 1);
        return p, Some(applied.error), i;
      }
      p := applied.value;
      i := i + 1;
    }
    read := i;
    assert events[..i] == events;
    SettledAlready(sessionID, events);
    p := Settle(p);
  }

  /** Once a prefix is rejected the whole list is, with the same error. */
  lemma {:induction false} FailureIsFinal(sessionID: string, events: seq<AgentEvent>, n: nat)
    requires n <= |events| && Replay(sessionID, events[..n]).Failure?
    ensures Replay(sessionID, events) == Failure(Replay(sessionID, events[..n]).error)
  {
    if n == |events| {
      assert events[..n] == events;
    } else {
      var before := events[..|events| - 1];
      assert before[..n] == events[..n];
      FailureIsFinal(sessionID, before, n);
    }
  }

  lemma SettledAlready(sessionID: string, events: seq<AgentEvent>)
    requires Replay(sessionID, events).Success?
    ensures Settle(Replay(sessionID, events).value) == Replay(sessionID, events).value
  {
  }
}
