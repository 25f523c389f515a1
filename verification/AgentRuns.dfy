/**
 The life of agent instances: spawn, run, finish, clear, kill, mark failed and reconcile.

 A run takes four critical sections (begin, finish, clear, and the runner in between outside the
 lock), so runs of the same agent may overlap in their tails. The class has one method per section;
 the transition system interleaves them.
 */
module AgentRuns {
  import opened Wrappers
  import opened Text
  import opened Budget

  datatype AgentStatus = Idle | Running | Waiting | Completed | Failed | Killed

  predicate IsTerminal(s: AgentStatus) {
    s == Completed || s == Failed || s == Killed
  }

  datatype Instance = Instance(missionID: string, hostID: string, status: AgentStatus, output: string, error: string)

  datatype ManagerError = InvalidRequest | AlreadyExists | NotFound | WrongStatus(status: AgentStatus)

  datatype AgentResult = AgentResult(agentID: string, status: AgentStatus, output: string, error: string)

  // ---------------------------------------------------------------- the sections, on values

  datatype Agents = Agents(instances: map<string, Instance>, cancels: map<string, nat>, lastRunID: nat)

  const NO_AGENTS := Agents(map[], map[], 0)

  function WithStatus(a: Agents, id: string, status: AgentStatus): Agents
    requires id in a.instances
  {
    a.(instances := a.instances[id := a.instances[id].(status := status)])
  }

  function Spawned(a: Agents, id: string, missionID: string, hostID: string, sessionID: string): (Agents, Outcome<ManagerError>) {
    if id == "" || missionID == "" || sessionID == "" then (a, Fail(InvalidRequest))
    else if id in a.instances then (a, Fail(AlreadyExists))
    else (a.(instances := a.instances[id := Instance(missionID, hostID, Idle, "", "")]), Pass)
  }

  predicate CanRun(status: AgentStatus, allowRepeat: bool) {
    status == Idle || (allowRepeat && (status == Completed || status == Waiting))
  }

  function Begun(a: Agents, id: string, allowRepeat: bool): (Agents, Result<nat, ManagerError>) {
    if id !in a.instances then (a, Failure(NotFound))
    else if !CanRun(a.instances[id].status, allowRepeat) then (a, Failure(WrongStatus(a.instances[id].status)))
    else
      var run := a.lastRunID + 1;
      (WithStatus(a, id, Running).(cancels := a.cancels[id := run], lastRunID := run), Success(run))
  }

  /** What the runner returned: an output and possibly an error. */
  datatype RunnerOutcome = RunnerOutcome(output: string, error: Option<string>)

  function Finished(a: Agents, id: string, o: RunnerOutcome): (Agents, Result<AgentResult, ManagerError>) {
    if id !in a.instances then (a, Failure(NotFound))
    else if a.instances[id].status == Killed then (a, Success(AgentResult(id, Killed, o.output, "")))
    else
      match o.error
      case Some(e) =>
        (a.(instances := a.instances[id := a.instances[id].(status := Failed, error := e)]),
         Success(AgentResult(id, Failed, o.output, e)))
      case None =>
        (a.(instances := a.instances[id := a.instances[id].(status := Completed, output := o.output)]),
         Success(AgentResult(id, Completed, o.output, "")))
  }

  function Cleared(a: Agents, id: string, run: nat): Agents {
    if id in a.cancels && a.cancels[id] == run then a.(cancels := a.cancels - {id}) else a
  }

  /** The section of a kill: returns the run whose context is cancelled after the lock is released. */
  function KilledBy(a: Agents, id: string, reason: string): (Agents, Result<Option<nat>, ManagerError>) {
    if id !in a.instances then (a, Failure(NotFound))
    else if IsTerminal(a.instances[id].status) then (a, Failure(WrongStatus(a.instances[id].status)))
    else
      var error := if TrimSpace(reason) == "" then a.instances[id].error else TrimSpace(reason);
      (a.(instances := a.instances[id := a.instances[id].(status := Killed, error := error)]),
       Success(if id in a.cancels then Some(a.cancels[id]) else None))
  }

  function MarkedFailed(a: Agents, id: string, error: Option<string>): Agents {
    if id !in a.instances || IsTerminal(a.instances[id].status) then a
    else
      var inst := a.instances[id];
      a.(instances := a.instances[id := inst.(status := Failed, error := if error.Some? then error.value else inst.error)])
  }

  const RECONCILED := "reconciled after restart"

  function ReconciledInstance(i: Instance): Instance {
    if IsTerminal(i.status) then i else i.(status := Failed, error := RECONCILED)
  }

  function Reconciled(a: Agents): Agents {
    a.(instances := map id | id in a.instances :: ReconciledInstance(a.instances[id]))
  }

  // ---------------------------------------------------------------- the manager

  class AgentManager {
    var instances: map<string, Instance>
    var cancels: map<string, nat>
    var nextRunID: nat

    constructor ()
      ensures State() == NO_AGENTS
    {
      instances, cancels, nextRunID := map[], map[], 0;
    }

    function State(): Agents
      reads this
    {
      Agents(instances, cancels, nextRunID)
    }

    method Spawn(id: string, missionID: string, hostID: string, sessionID: string) returns (r: Outcome<ManagerError>)
      modifies this
      ensures (State(), r) == Spawned(old(State()), id, missionID, hostID, sessionID)
    {
      if id == "" || missionID == "" || sessionID == "" {
        return Fail(InvalidRequest);
      }
      if id in instances {
        return Fail(AlreadyExists);
      }
      instances := instances[id := Instance(missionID, hostID, Idle, "", "")];
      return Pass;
    }

    method BeginRun(id: string, allowRepeat: bool) returns (r: Result<nat, ManagerError>)
      modifies this
      ensures (State(), r) == Begun(old(State()), id, allowRepeat)
    {
      if id !in instances {
        return Failure(NotFound);
      }
      var inst := instances[id];
      if !CanRun(inst.status, allowRepeat) {
        return Failure(WrongStatus(inst.status));
      }
      instances := instances[id := inst.(status := Running)];
      nextRunID := nextRunID + 1;
      cancels := cancels[id := nextRunID];
      return Success(nextRunID);
    }

    method FinishRun(id: string, o: RunnerOutcome) returns (r: Result<AgentResult, ManagerError>)
      modifies this
      ensures (State(), r) == Finished(old(State()), id, o)
    {
      if id !in instances {
        return Failure(NotFound);
      }
      var inst := instances[id];
      if inst.status == Killed {
        return Success(AgentResult(id, Killed, o.output, ""));
      }
      if o.error.Some? {
        instances := instances[id := inst.(status := Failed, error := o.error.value)];
        return Success(AgentResult(id, Failed, o.output, o.error.value));
      }
      instances := instances[id := inst.(status := Completed, output := o.output)];
      return Success(AgentResult(id, Completed, o.output, ""));
    }

    method ClearActiveRun(id: string, run: nat)
      modifies this
      ensures State() == Cleared(old(State()), id, run)
    {
      if id in cancels && cancels[id] == run {
        cancels := cancels - {id};
      }
    }

    method KillAgentWithReason(id: string, reason: string) returns (r: Result<Option<nat>, ManagerError>)
      modifies this
      ensures (State(), r) == KilledBy(old(State()), id, reason)
    {
      if id !in instances {
        return Failure(NotFound);
      }
      var inst := instances[id];
      if IsTerminal(inst.status) {
        return Failure(WrongStatus(inst.status));
      }
      inst := inst.(status := Killed);
      if TrimSpace(reason) != "" {
        inst := inst.(error := TrimSpace(reason));
      }
      instances := instances[id := inst];
      return Success(if id in cancels then Some(cancels[id]) else None);
    }

    method MarkAgentFailed(id: string, error: Option<string>)
      modifies this
      ensures State() == MarkedFailed(old(State()), id, error)
    {
      if id !in instances || IsTerminal(instances[id].status) {
        return;
      }
      var inst := instances[id].(status := Failed);
      if error.Some? {
        inst := inst.(error := error.value);
      }
      instances := instances[id := inst];
    }

    /** The results of a mission's finished agents, in any order, each agent once. */
    method CollectResults(missionID: string) returns (results: map<string, AgentResult>)
      ensures results == map id | id in instances && instances[id].missionID == missionID && IsTerminal(instances[id].status)
        :: AgentResult(id, instances[id].status, instances[id].output, instances[id].error)
    {
      results := map[];
      var rest := instances.Keys;
      while rest != {}
        invariant rest <= instances.Keys
        invariant results == map id | id in instances && id !in rest
          && instances[id].missionID == missionID && IsTerminal(instances[id].status)
          :: AgentResult(id, instances[id].status, instances[id].output, instances[id].error)
        decreases rest
      {
        var id :| id in rest;
        var inst := instances[id];
        if inst.missionID == missionID && IsTerminal(inst.status) {
          results := results[id := AgentResult(id, inst.status, inst.output, inst.error)];
        }
        rest := rest - {id};
      }
    }

    /** Fails every instance that was not finished, and reports which. */
    method FailUnfinished() returns (reconciled: set<string>, terminal: set<string>)
      modifies this
      ensures State() == Reconciled(old(State()))
      ensures terminal == set id | id in old(instances) && IsTerminal(old(instances)[id].status)
      ensures reconciled == old(instances).Keys - terminal
    {
      reconciled, terminal := {}, {};
      var all := instances;
      var rest := instances.Keys;
      while rest != {}
        invariant rest <= all.Keys == instances.Keys
        invariant cancels == old(cancels) && nextRunID == old(nextRunID) && all == old(instances)
        invariant forall id :: id in all ==> instances[id] == if id in rest then all[id] else ReconciledInstance(all[id])
        invariant terminal == set id | id in all && id !in rest && IsTerminal(all[id].status)
        invariant reconciled == set id | id in all && id !in rest && !IsTerminal(all[id].status)
        decreases rest
      {
        var id :| id in rest;
        if IsTerminal(instances[id].status) {
          terminal := terminal + {id};
        } else {
          instances := instances[id := instances[id].(status := Failed, error := RECONCILED)];
          reconciled := reconciled + {id};
        }
        rest := rest - {id};
      }
    }
  }

  /** Reconciling after a restart: the budget forgets everything, then every unfinished agent has failed. */
  method ReconcileAgents(m: AgentManager, bc: AgentBudgetController) returns (reconciled: set<string>, terminal: set<string>)
    modifies m, bc
    ensures m.State() == Reconciled(old(m.State()))
    ensures forall mission :: bc.At(mission) == IDLE_MISSION
    ensures reconciled + terminal == old(m.instances).Keys && reconciled !! terminal
    ensures forall id :: id in terminal ==> m.instances[id] == old(m.instances)[id]
    ensures forall id :: id in reconciled ==> m.instances[id].status == Failed && !IsTerminal(old(m.instances)[id].status)
  {
    bc.Reset();
    reconciled, terminal := m.FailUnfinished();
  }

  // ---------------------------------------------------------------- interleavings

  datatype Run = Run(agent: string, executing: bool)

  /**
   The manager together with what the threads around it are doing: the runs between begin and clear,
   the runs whose cancellation a kill still owes, and the runs whose context is cancelled.
   */
  datatype System = System(mgr: Agents, runs: map<nat, Run>, owed: set<nat>, cancelled: set<nat>)

  const START := System(NO_AGENTS, map[], {}, {})

  datatype Action =
    | SpawnAgent(id: string, missionID: string, hostID: string, sessionID: string)
    | Begin(id: string, allowRepeat: bool)
    | Finish(run: nat, outcome: RunnerOutcome)
    | Clear(run: nat)
    | Kill(id: string, reason: string)
    | Cancel(run: nat)
    | MarkFailed(id: string, error: Option<string>)
    | Reconcile

  function Next(s: System, a: Action): System {
    match a
    case SpawnAgent(id, missionID, hostID, sessionID) => s.(mgr := Spawned(s.mgr, id, missionID, hostID, sessionID).0)
    case Begin(id, allowRepeat) =>
      var (mgr, r) := Begun(s.mgr, id, allowRepeat);
      if r.Failure? then s else s.(mgr := mgr, runs := s.runs[r.value := Run(id, true)])
    case Finish(run, outcome) =>
      if run !in s.runs || !s.runs[run].executing then s
      else
        var agent := s.runs[run].agent;
        s.(mgr := Finished(s.mgr, agent, outcome).0, runs := s.runs[run := Run(agent, false)])
    case Clear(run) =>
      if run !in s.runs || s.runs[run].executing then s
      else s.(mgr := Cleared(s.mgr, s.runs[run].agent, run), runs := s.runs - {run}, cancelled := s.cancelled + {run})
    case Kill(id, reason) =>
      var (mgr, r) := KilledBy(s.mgr, id, reason);
      s.(mgr := mgr, owed := if r.Success? && r.value.Some? then s.owed + {r.value.value} else s.owed)
    case Cancel(run) =>
      if run in s.owed then s.(owed := s.owed - {run}, cancelled := s.cancelled + {run}) else s
    case MarkFailed(id, error) => s.(mgr := MarkedFailed(s.mgr, id, error))
    case Reconcile => s.(mgr := Reconciled(s.mgr))
  }

  function After(actions: seq<Action>): System {
    if actions == [] then START else Next(After(actions[..|actions| - 1]), actions[|actions| - 1])
  }

  predicate Executes(s: System, run: nat, agent: string) {
    run in s.runs && s.runs[run] == Run(agent, true)
  }

  ghost predicate Inv(s: System) {
    && (forall r :: r in s.runs ==> 1 <= r <= s.mgr.lastRunID && s.runs[r].agent in s.mgr.instances)
    && (forall r, id :: Executes(s, r, id) ==>
          id in s.mgr.cancels && s.mgr.cancels[id] == r && s.mgr.instances[id].status in {Running, Killed, Failed})
    && (forall id :: id in s.mgr.cancels ==> s.mgr.cancels[id] in s.runs && s.runs[s.mgr.cancels[id]].agent == id)
    && (forall id :: id in s.mgr.instances && s.mgr.instances[id].status == Running ==>
          id in s.mgr.cancels && Executes(s, s.mgr.cancels[id], id))
  }

  lemma BeginKeepsInv(s: System, id: string, allowRepeat: bool)
    requires Inv(s)
    ensures Inv(Next(s, Begin(id, allowRepeat)))
  {
    var s' := Next(s, Begin(id, allowRepeat));
    var (mgr, r) := Begun(s.mgr, id, allowRepeat);
    if r.Success? {
      forall q, other | Executes(s', q, other)
        ensures other in s'.mgr.cancels && s'.mgr.cancels[other] == q && s'.mgr.instances[other].status in {Running, Killed, Failed} {
        if q != r.value {
          assert Executes(s, q, other);
        }
      }
      forall other | other in s'.mgr.instances && s'.mgr.instances[other].status == Running
        ensures other in s'.mgr.cancels && Executes(s', s'.mgr.cancels[other], other) {
        if other != id {
          assert Executes(s, s.mgr.cancels[other], other);
        }
      }
    }
  }

  lemma FinishKeepsInv(s: System, run: nat, outcome: RunnerOutcome)
    requires Inv(s)
    ensures Inv(Next(s, Finish(run, outcome)))
  {
    var s' := Next(s, Finish(run, outcome));
    if run in s.runs && s.runs[run].executing {
      var agent := s.runs[run].agent;
      assert Executes(s, run, agent);
      forall q, other | Executes(s', q, other)
        ensures other in s'.mgr.cancels && s'.mgr.cancels[other] == q && s'.mgr.instances[other].status in {Running, Killed, Failed} {
        assert Executes(s, q, other) && q != run;
      }
      forall other | other in s'.mgr.instances && s'.mgr.instances[other].status == Running
        ensures other in s'.mgr.cancels && Executes(s', s'.mgr.cancels[other], other) {
        assert other != agent && Executes(s, s.mgr.cancels[other], other);
      }
    }
  }

  lemma ClearKeepsInv(s: System, run: nat)
    requires Inv(s)
    ensures Inv(Next(s, Clear(run)))
  {
    var s' := Next(s, Clear(run));
    if run in s.runs && !s.runs[run].executing {
      forall q, other | Executes(s', q, other)
        ensures other in s'.mgr.cancels && s'.mgr.cancels[other] == q && s'.mgr.instances[other].status in {Running, Killed, Failed} {
        assert Executes(s, q, other);
      }
      forall other | other in s'.mgr.instances && s'.mgr.instances[other].status == Running
        ensures other in s'.mgr.cancels && Executes(s', s'.mgr.cancels[other], other) {
        assert Executes(s, s.mgr.cancels[other], other);
      }
    }
  }

  /** Steps that only change statuses to killed or failed, or add an idle agent, keep the invariant. */
  lemma StatusKeepsInv(s: System, s': System)
    requires Inv(s)
    requires s'.runs == s.runs && s'.mgr.cancels == s.mgr.cancels && s'.mgr.lastRunID == s.mgr.lastRunID
    requires s.mgr.instances.Keys <= s'.mgr.instances.Keys
    requires forall id :: id in s'.mgr.instances ==>
      (|| (id in s.mgr.instances && s'.mgr.instances[id].status in {s.mgr.instances[id].status, Killed, Failed})
       || (id !in s.mgr.instances && s'.mgr.instances[id].status == Idle))
    ensures Inv(s')
  {
    forall q, other | Executes(s', q, other)
      ensures other in s'.mgr.cancels && s'.mgr.cancels[other] == q && s'.mgr.instances[other].status in {Running, Killed, Failed} {
      assert Executes(s, q, other);
    }
    forall other | other in s'.mgr.instances && s'.mgr.instances[other].status == Running
      ensures other in s'.mgr.cancels && Executes(s', s'.mgr.cancels[other], other) {
      assert Executes(s, s.mgr.cancels[other], other);
    }
  }

  lemma NextKeepsInv(s: System, a: Action)
    requires Inv(s)
    ensures Inv(Next(s, a))
  {
    match a
    case Begin(id, allowRepeat) => BeginKeepsInv(s, id, allowRepeat);
    case Finish(run, outcome) => FinishKeepsInv(s, run, outcome);
    case Clear(run) => ClearKeepsInv(s, run);
    case _ => StatusKeepsInv(s, Next(s, a));
  }

  /** The invariant holds in every reachable state, whatever the interleaving. */
  lemma {:induction false} InvAlways(actions: seq<Action>)
    ensures Inv(After(actions))
  {
    if actions != [] {
      InvAlways(actions[..|actions| - 1]);
      NextKeepsInv(After(actions[..|actions| - 1]), actions[|actions| - 1]);
    }
  }

  /** An agent has at most one executing run, and its cancel entry names exactly that run. */
  lemma OneExecutingRun(actions: seq<Action>, agent: string, r: nat, q: nat)
    requires Executes(After(actions), r, agent) && Executes(After(actions), q, agent)
    ensures r == q && agent in After(actions).mgr.cancels && After(actions).mgr.cancels[agent] == r
  {
    InvAlways(actions);
  }

  /** The delayed clear of a finished run never removes the cancel entry of a newer run. */
  lemma ClearSparesNewerRun(actions: seq<Action>, run: nat, agent: string, newer: nat)
    requires Executes(After(actions), newer, agent)
    ensures var s := Next(After(actions), Clear(run));
      Executes(s, newer, agent) && agent in s.mgr.cancels && s.mgr.cancels[agent] == newer
  {
    InvAlways(actions);
    assert Executes(Next(After(actions), Clear(run)), newer, agent);
    InvAlways(actions + [Clear(run)]);
    assert (actions + [Clear(run)])[..|actions|] == actions;
  }

  /** Killing a running agent cancels precisely its current run. */
  lemma KillCancelsCurrentRun(actions: seq<Action>, agent: string, reason: string)
    requires var m := After(actions).mgr; agent in m.instances && m.instances[agent].status == Running
    ensures var s := After(actions);
      var r := KilledBy(s.mgr, agent, reason).1;
      r.Success? && r.value.Some? && Executes(s, r.value.value, agent)
      && r.value.value in Next(s, Kill(agent, reason)).owed
      && r.value.value in Next(Next(s, Kill(agent, reason)), Cancel(r.value.value)).cancelled
  {
    InvAlways(actions);
  }

  predicate StatusIs(s: System, agent: string, status: AgentStatus) {
    agent in s.mgr.instances && s.mgr.instances[agent].status == status
  }

  /** `killed` is never left. */
  lemma {:induction false} KilledForever(actions: seq<Action>, more: seq<Action>, agent: string)
    requires StatusIs(After(actions), agent, Killed)
    ensures StatusIs(After(actions + more), agent, Killed)
  {
    if more == [] {
      assert actions + more == actions;
    } else {
      var front := more[..|more| - 1];
      KilledForever(actions, front, agent);
      assert (actions + more)[..|actions + more| - 1] == actions + front;
    }
  }

  /** `failed` is left exactly by the late finish, without error, of a run that was still executing. */
  lemma FailedIsLeftOnlyByLateFinish(actions: seq<Action>, a: Action, agent: string)
    requires StatusIs(After(actions), agent, Failed)
    ensures !StatusIs(Next(After(actions), a), agent, Failed)
      <==> a.Finish? && a.outcome.error.None? && Executes(After(actions), a.run, agent)
  {
  }

  /** Such a finish is possible: an agent marked as failed while it runs ends up completed. */
  lemma FailedCanBecomeCompleted()
    ensures exists actions, a :: StatusIs(After(actions), "w", Failed) && StatusIs(Next(After(actions), a), "w", Completed)
  {
    var spawn, begin, mark := SpawnAgent("w", "m", "h", "s"), Begin("w", false), MarkFailed("w", None);
    var s1, s2 := [spawn], [spawn, begin];
    var s3, finish := [spawn, begin, mark], Finish(1, RunnerOutcome("", None));
    assert s1[..0] == [] && s2[..1] == s1 && s3[..2] == s2;
    assert After(s1) == Next(START, spawn);
    assert After(s2) == Next(After(s1), begin);
    assert After(s3) == Next(After(s2), mark);
    assert StatusIs(After(s3), "w", Failed);
    assert StatusIs(Next(After(s3), finish), "w", Completed);
  }
}
