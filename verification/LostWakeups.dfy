/**
 Whether a parallel execution gets to its end.

 A worker that gives its slot back promotes the first of the queue and leaves one token. Every waiting worker
 takes tokens, also one that was not promoted; then the promoted one has no wake-up. If that happens to every
 slot, nobody moves any more. This is possible exactly when more than twice as many workers are
 launched as the budget allows; otherwise an execution that nobody cancels always ends.
 */
module LostWakeups {
  import opened Wrappers
  import opened Budget
  import opened ResourceLocks
  import opened ParallelExecute
  import opened WorkerRuns
  import AgentRuns

  function Launchable(r: Request): set<string> {
    set w | w in r.order && w !in r.refused
  }

  /** No step of this execution changes anything; only a cancellation could. */
  ghost predicate Halted(r: Request, s: Exec) {
    forall step: Step :: !step.Elsewhere? && !step.ContextDone? ==> Next(r, s, step) == s
  }

  /** Some workers wait although there is no token, and all the others have returned. */
  predicate Stranded(s: Exec) {
    && s.tokens == 0
    && (forall w :: w in s.pcs ==> s.pcs[w].Waiting? || s.pcs[w].Done?)
    && exists w :: w in s.pcs && s.pcs[w].Waiting?
  }

  // ---------------------------------------------------------------- who is still to be spawned

  /** The workers not spawned yet are those the loop has not come to. */
  ghost predicate InTurn(r: Request, s: Exec) {
    s.spawned <= |r.order| && forall k :: 0 <= k < |r.order| ==> (At(s, r.order[k]).Unspawned? <==> k >= s.spawned)
  }

  lemma EarlyStepsKeepSpawned(r: Request, s: Exec, step: Step)
    requires Early(step) && !step.Spawn? && step.w in r.keys && step.w in s.pcs
    ensures At(WorkerStep(r, s, step, s.pcs[step.w]), step.w).Unspawned? == s.pcs[step.w].Unspawned?
  {
    hide Budget.Acquire, Withdraw, Spawned, LockStep, LateStep;
  }

  lemma LockStepsKeepSpawned(r: Request, s: Exec, step: Step)
    requires TakesLocks(step) && step.w in r.keys && step.w in s.pcs
    ensures At(WorkerStep(r, s, step, s.pcs[step.w]), step.w).Unspawned? == s.pcs[step.w].Unspawned?
  {
    hide ResourceLocks.Acquire, Released, AcquireError, Normalize, EarlyStep, LateStep;
  }

  lemma LateStepsKeepSpawned(r: Request, s: Exec, step: Step)
    requires !Early(step) && !TakesLocks(step) && !step.Elsewhere? && step.w in r.keys && step.w in s.pcs
    ensures At(WorkerStep(r, s, step, s.pcs[step.w]), step.w).Unspawned? == s.pcs[step.w].Unspawned?
  {
    hide Give, Released, EarlyStep, LockStep;
  }

  /** A step of another kind moves one worker and spawns nobody. */
  lemma OtherStepsKeepTurn(r: Request, s: Exec, step: Step)
    requires !step.Elsewhere? && !step.Spawn? && step.w in r.keys && s.pcs.Keys == r.keys.Keys
    ensures var s' := Next(r, s, step);
      OnlyMoves(s, s', step.w) && s'.spawned == s.spawned && (s'.pcs[step.w].Unspawned? <==> s.pcs[step.w].Unspawned?)
  {
    hide WorkerStep;
    SpawnedOnlyBySpawn(r, s, step);
    if Early(step) {
      EarlyStepsMove(r, s, step);
      EarlyStepsKeepSpawned(r, s, step);
    } else if TakesLocks(step) {
      LockStepsMove(r, s, step);
      LockStepsKeepSpawned(r, s, step);
    } else {
      LateStepsMove(r, s, step);
      LateStepsKeepSpawned(r, s, step);
    }
  }

  lemma SpawnKeepsTurn(r: Request, s: Exec, s': Exec, w: string)
    requires NoRepeats(r.order) && InTurn(r, s) && SpawnsNext(r, s, w) && OnlyMoves(s, s', w)
    requires s'.spawned == s.spawned + 1 && !s'.pcs[w].Unspawned?
    ensures InTurn(r, s')
  {
    forall k | 0 <= k < |r.order| ensures At(s', r.order[k]).Unspawned? <==> k >= s'.spawned {
      assert k != s.spawned ==> r.order[k] != w;
    }
  }

  lemma OthersKeepTurn(r: Request, s: Exec, s': Exec, w: string)
    requires InTurn(r, s) && OnlyMoves(s, s', w) && s'.spawned == s.spawned
    requires s'.pcs[w].Unspawned? <==> s.pcs[w].Unspawned?
    ensures InTurn(r, s')
  {
  }

  lemma NextKeepsTurn(r: Request, s: Exec, step: Step)
    requires WellFormed(r) && InTurn(r, s) && s.pcs.Keys == r.keys.Keys
    ensures InTurn(r, Next(r, s, step)) && Next(r, s, step).pcs.Keys == r.keys.Keys
  {
    hide WorkerStep, Spawned, InTurn, NoRepeats;
    if step.Elsewhere? {
      LocksKeepTurn(r, s, Next(r, s, step));
    } else if step.w in r.keys {
      if step.Spawn? {
        SpawnStep(r, s, step.w);
        SpawnedMoves(r, s, step.w);
        SpawnedPlaces(r, s, step.w);
        if At(s, step.w).Unspawned? && SpawnsNext(r, s, step.w) {
          SpawnKeepsTurn(r, s, Next(r, s, step), step.w);
        }
      } else {
        OtherStepsKeepTurn(r, s, step);
        OthersKeepTurn(r, s, Next(r, s, step), step.w);
      }
    }
  }

  lemma LocksKeepTurn(r: Request, s: Exec, s': Exec)
    requires InTurn(r, s) && s'.pcs == s.pcs && s'.spawned == s.spawned
    ensures InTurn(r, s')
  {
  }

  lemma {:induction false} TurnAlways(r: Request, table: Table, steps: seq<Step>)
    requires WellFormed(r)
    ensures InTurn(r, After(r, table, steps)) && After(r, table, steps).pcs.Keys == r.keys.Keys
  {
    hide Next, InTurn;
    if steps == [] {
      NobodySpawned(r, table);
    } else {
      TurnAlways(r, table, steps[..|steps| - 1]);
      NextKeepsTurn(r, After(r, table, steps[..|steps| - 1]), steps[|steps| - 1]);
    }
  }

  lemma NobodySpawned(r: Request, table: Table)
    ensures InTurn(r, Start(r, table)) && Start(r, table).pcs.Keys == r.keys.Keys
  {
  }

  // ---------------------------------------------------------------- where an execution halts

  /** A step the worker can take, unless it waits for a token or for the lock of the results. */
  function Due(keys: seq<Key>, w: string, pc: PC): Step {
    match pc
    case Unspawned => Spawn(w)
    case AtBudget => TryBudget(w)
    case Waiting => TakeToken(w)
    case Failing => BeginFailing(w)
    case Locking(taken) => if |taken| < |keys| then LockNext(w, 0) else LocksDone(w)
    case RollingBack(_, left) => if left > 0 then Undo(w) else BeginLockFailure(w)
    case Running(_) => RunAgent(w, AgentRuns.Completed)
    case WritingFailure => EndWrite(w, map[])
    case Writing(_, _, _) => EndWrite(w, map[])
    case Recorded(_, _) => ReleaseBudget(w)
    case Signalling(_, _) => Signal(w)
    case Unlocking(_, left) => if left > 0 then Unlock(w) else Return(w)
    case Done(_) => Return(w)
  }

  predicate Blocked(s: Exec, pc: PC) {
    pc.Unspawned? || pc.Done? || (pc.Waiting? && s.tokens == 0) || (s.busy && !IsWriting(pc))
  }

  lemma DueMoves(r: Request, s: Exec, w: string)
    requires w in r.keys && w in s.pcs && !Blocked(s, s.pcs[w]) && Fits(r.keys[w], s.pcs[w])
    ensures Next(r, s, Due(r.keys[w], w, s.pcs[w])) != s
  {
    hide Budget.Acquire, ResourceLocks.Acquire, Released, Give, AcquireError, Normalize;
  }

  lemma RestStays(r: Request, s: Exec, step: Step)
    requires !step.Elsewhere? && !step.ContextDone? && step.w in r.keys && step.w in s.pcs
    requires s.pcs[step.w].Done? || (s.pcs[step.w].Waiting? && s.tokens == 0)
    ensures Next(r, s, step) == s
  {
    if s.pcs[step.w].Done? {
      DoneStays(r, s, step);
    } else {
      WaitingStays(r, s, step);
    }
  }

  lemma WaitingStays(r: Request, s: Exec, step: Step)
    requires !step.Elsewhere? && !step.ContextDone? && step.w in r.keys && At(s, step.w).Waiting? && s.tokens == 0
    ensures Next(r, s, step) == s
  {
    hide Budgeted, Attempt, GiveBack, EndedWrite, BeginWrite, Spawned, Give;
  }

  lemma HaltedMovesNobody(r: Request, s: Exec, w: string)
    requires Halted(r, s) && w in r.keys && w in s.pcs && Fits(r.keys[w], s.pcs[w])
    ensures Blocked(s, s.pcs[w])
  {
    hide Next, Fits;
    if !Blocked(s, s.pcs[w]) {
      DueMoves(r, s, w);
    }
  }

  lemma HaltedSpawnsNobody(r: Request, s: Exec)
    requires Halted(r, s) && WellFormed(r) && InTurn(r, s)
    ensures s.spawned == |r.order|
  {
    hide Next, Spawned;
    if s.spawned < |r.order| {
      var w := r.order[s.spawned];
      assert w in r.order;
      SpawnStep(r, s, w);
      SpawnedPlaces(r, s, w);
    }
  }

  lemma HaltedIsAtRest(r: Request, s: Exec)
    requires Halted(r, s) && WellFormed(r) && InTurn(r, s) && OneWriter(s) && AllFit(r, s)
    ensures AllReturned(s) || Stranded(s)
  {
    hide Halted, Fits;
    HaltedSpawnsNobody(r, s);
    forall w | w in s.pcs ensures Blocked(s, s.pcs[w]) && !s.pcs[w].Unspawned? {
      HaltedMovesNobody(r, s, w);
      assert w in r.order;
      var k :| 0 <= k < |r.order| && r.order[k] == w;
      assert !At(s, r.order[k]).Unspawned?;
    }
    assert !s.busy;
  }

  lemma AtRestIsHalted(r: Request, s: Exec)
    requires s.pcs.Keys == r.keys.Keys && (AllReturned(s) || Stranded(s))
    ensures Halted(r, s)
  {
    hide WorkerStep;
    forall step: Step | !step.Elsewhere? && !step.ContextDone? ensures Next(r, s, step) == s {
      if step.w in r.keys {
        RestStays(r, s, step);
      }
    }
  }

  /** An execution halts exactly when all workers have returned or those that have not wait without a token. */
  lemma HaltsExactly(r: Request, table: Table, steps: seq<Step>)
    requires WellFormed(r)
    ensures var s := After(r, table, steps); Halted(r, s) <==> AllReturned(s) || Stranded(s)
  {
    hide After, Halted, WellFormed, InTurn, OneWriter, AllFit;
    TurnAlways(r, table, steps);
    OneWriterAlways(r, table, steps);
    FitsAlways(r, table, steps);
    if Halted(r, After(r, table, steps)) {
      HaltedIsAtRest(r, After(r, table, steps));
    } else if AllReturned(After(r, table, steps)) || Stranded(After(r, table, steps)) {
      AtRestIsHalted(r, After(r, table, steps));
    }
  }

  // ---------------------------------------------------------------- why twice the budget is enough

  function Promoted(s: Exec): set<string> {
    set w | w in s.pcs && s.pcs[w].Waiting? && w in s.mission.running
  }

  predicate IsPast(pc: PC) {
    pc.Signalling? || pc.Unlocking? || pc.Done?
  }

  /** The launched workers that are past their slot. */
  function Past(r: Request, s: Exec): set<string> {
    set w | w in s.pcs && w !in r.refused && IsPast(s.pcs[w])
  }

  /** There is a token, or somebody is on the way to leave one. */
  ghost predicate TokenComes(s: Exec) {
    s.tokens > 0 || exists w :: w in s.pcs && (HoldsSlot(s.pcs[w]) || s.pcs[w].Signalling?)
  }

  /** Refused workers take no part. */
  predicate RefusedRest(r: Request, s: Exec) {
    forall w :: w in s.pcs && w in r.refused ==> s.pcs[w].Unspawned? || s.pcs[w].Done?
  }

  /**
   Once the queue is empty only promoted workers take tokens, so a promoted one has a token to come; and
   everyone promoted owes it to somebody who gave a slot back.
   */
  ghost predicate WakeInv(r: Request, s: Exec) {
    && (s.mission.queue == [] && Promoted(s) != {} ==> TokenComes(s))
    && |Promoted(s)| <= |Past(r, s)|
    && RefusedRest(r, s)
  }

  /** A move outside the budget that takes no token and no place among those past their slot. */
  predicate Steady(s: Exec, s': Exec, w: string) {
    && Moved(s, s', w) && SameSlot(s.pcs[w], s'.pcs[w])
    && (IsPast(s.pcs[w]) ==> IsPast(s'.pcs[w]))
    && s'.tokens >= s.tokens
    && (s.pcs[w].Signalling? ==> s'.pcs[w].Signalling? || s'.tokens > 0)
  }

  lemma EarlyStepsSteady(r: Request, s: Exec, step: Step)
    requires Early(step) && step.w in r.keys && s.pcs.Keys == r.keys.Keys && !TouchesBudget(step, s.pcs[step.w])
    ensures Steady(s, WorkerStep(r, s, step, s.pcs[step.w]), step.w)
  {
    hide Budgeted, TokenTaken, Withdraw, LockStep, LateStep, Moved, SameSlot;
    OtherStepsStay(r, s, step);
  }

  lemma LockStepsSteady(r: Request, s: Exec, step: Step)
    requires TakesLocks(step) && step.w in r.keys && s.pcs.Keys == r.keys.Keys
    ensures Steady(s, WorkerStep(r, s, step, s.pcs[step.w]), step.w)
  {
    hide ResourceLocks.Acquire, Released, AcquireError, Normalize, EarlyStep, LateStep, Moved, SameSlot;
    OtherStepsStay(r, s, step);
  }

  lemma LateStepsSteady(r: Request, s: Exec, step: Step)
    requires !Early(step) && !TakesLocks(step) && !step.Elsewhere? && step.w in r.keys && s.pcs.Keys == r.keys.Keys
    requires !TouchesBudget(step, s.pcs[step.w])
    ensures Steady(s, WorkerStep(r, s, step, s.pcs[step.w]), step.w)
  {
    hide Give, Released, EarlyStep, LockStep, Moved, SameSlot;
    assert step.w in r.keys ==> |r.keys| > 0;
    OtherStepsStay(r, s, step);
  }

  lemma OtherStepsSteady(r: Request, s: Exec, step: Step)
    requires !step.Elsewhere? && step.w in r.keys && s.pcs.Keys == r.keys.Keys && !TouchesBudget(step, s.pcs[step.w])
    ensures Steady(s, WorkerStep(r, s, step, s.pcs[step.w]), step.w)
  {
    hide WorkerStep, Steady;
    if Early(step) {
      EarlyStepsSteady(r, s, step);
    } else if TakesLocks(step) {
      LockStepsSteady(r, s, step);
    } else {
      LateStepsSteady(r, s, step);
    }
  }

  /** The steps that change the budget. */
  lemma TouchesBudgetStep(r: Request, s: Exec, step: Step, pc: PC)
    requires !step.Elsewhere? && !step.ContextDone? && step.w in r.keys && TouchesBudget(step, pc)
    ensures step.TryBudget? ==> WorkerStep(r, s, step, pc) == Budgeted(r, s, step.w)
    ensures step.TakeToken? ==> WorkerStep(r, s, step, pc) == TokenTaken(s, step.w)
    ensures step.ReleaseBudget? ==>
      WorkerStep(r, s, step, pc) == Goto(s, step.w, Signalling(pc.taken, pc.left)).(mission := Give(s.mission, step.w).0)
  {
    hide Budgeted, TokenTaken, Give;
  }

  lemma SteadyKeepsWake(r: Request, s: Exec, s': Exec, w: string)
    requires WakeInv(r, s) && Steady(s, s', w) && RefusedRest(r, s')
    ensures WakeInv(r, s')
  {
    assert Promoted(s') == Promoted(s);
    SubsetSize(Past(r, s), Past(r, s'));
    if s.mission.queue == [] && Promoted(s) != {} && s'.tokens == 0 {
      var v :| v in s.pcs && (HoldsSlot(s.pcs[v]) || s.pcs[v].Signalling?);
      assert v in s'.pcs && (HoldsSlot(s'.pcs[v]) || s'.pcs[v].Signalling?);
    }
  }

  lemma RefusedStays(r: Request, s: Exec, step: Step)
    requires RefusedRest(r, s) && !step.Elsewhere? && step.w in r.keys && s.pcs.Keys == r.keys.Keys
    ensures RefusedRest(r, Next(r, s, step))
  {
    hide WorkerStep, Spawned;
    var s' := Next(r, s, step);
    if step.Spawn? {
      SpawnStep(r, s, step.w);
      SpawnedMoves(r, s, step.w);
      SpawnedPlaces(r, s, step.w);
    } else {
      OtherStepsKeepTurn(r, s, step);
      if step.w in r.refused {
        IdleStaysIdle(r, s, step, s.pcs[step.w]);
      }
    }
  }

  lemma EnterKeepsSets(r: Request, s: Exec, w: string)
    requires w in s.pcs && s.pcs[w] == AtBudget && w != "" && w !in s.mission.running && w !in s.mission.queue
    ensures var s' := Budgeted(r, s, w); Promoted(s') == Promoted(s) && Past(r, s') == Past(r, s)
  {
  }

  lemma EnterKeepsWake(r: Request, s: Exec, w: string)
    requires WakeInv(r, s) && BudgetInv(r, s) && w in s.pcs && s.pcs[w] == AtBudget && w != ""
    requires RefusedRest(r, Budgeted(r, s, w))
    ensures WakeInv(r, Budgeted(r, s, w))
  {
    hide RefusedRest, Promoted, Past, WithinBudget;
    var s' := Budgeted(r, s, w);
    assert w !in s.mission.running && w !in s.mission.queue;
    EnterKeepsSets(r, s, w);
    if |s.mission.running| < r.budget {
      assert w in s'.pcs && HoldsSlot(s'.pcs[w]);
    }
  }

  lemma TokenKeepsWake(r: Request, s: Exec, w: string)
    requires WakeInv(r, s) && BudgetInv(r, s) && w in s.pcs && s.pcs[w].Waiting? && RefusedRest(r, TokenTaken(s, w))
    ensures WakeInv(r, TokenTaken(s, w))
  {
    hide RefusedRest;
    var s' := TokenTaken(s, w);
    assert Past(r, s') == Past(r, s);
    if s.tokens > 0 && w in s.mission.running {
      assert Promoted(s') <= Promoted(s);
      SubsetSize(Promoted(s'), Promoted(s));
      assert w in s'.pcs && HoldsSlot(s'.pcs[w]);
    } else {
      assert Promoted(s') == Promoted(s);
    }
  }

  /** The first of the queue is all that giving a slot back adds to the promoted workers. */
  lemma LeavePromotes(s: Exec, s': Exec, w: string)
    requires w in s.pcs && w in s.mission.running && !s.pcs[w].Waiting? && OnlyMoves(s, s', w) && !s'.pcs[w].Waiting?
    requires s'.mission == Vacate(s.mission, w).0
    ensures |Promoted(s')| <= |Promoted(s)| + 1
    ensures s.mission.queue == [] ==> Promoted(s') <= Promoted(s)
  {
    hide Vacate;
    VacatedQueue(s.mission, w);
    var head := if s.mission.queue == [] then {} else {s.mission.queue[0]};
    SubsetSize(Promoted(s'), Promoted(s) + head);
  }

  lemma LeaveIsPast(r: Request, s: Exec, s': Exec, w: string)
    requires OnlyMoves(s, s', w) && w !in r.refused && !IsPast(s.pcs[w]) && IsPast(s'.pcs[w])
    ensures |Past(r, s')| == |Past(r, s)| + 1
  {
    assert Past(r, s') == Past(r, s) + {w};
  }

  lemma LeaveKeepsWake(r: Request, s: Exec, w: string, pc: PC)
    requires WakeInv(r, s) && BudgetInv(r, s) && w in s.pcs && s.pcs[w].Recorded? && pc.Signalling?
    requires RefusedRest(r, Goto(s, w, pc).(mission := Give(s.mission, w).0))
    ensures WakeInv(r, Goto(s, w, pc).(mission := Give(s.mission, w).0))
  {
    hide Promoted, Past, Vacate;
    var s' := Goto(s, w, pc).(mission := Give(s.mission, w).0);
    LeavePromotes(s, s', w);
    LeaveIsPast(r, s, s', w);
    assert w in s'.pcs && s'.pcs[w].Signalling?;
  }

  lemma WorkerKeepsWake(r: Request, s: Exec, step: Step, pc: PC)
    requires WakeInv(r, s) && BudgetInv(r, s) && !step.Elsewhere? && !step.ContextDone? && step.w in r.keys && step.w != ""
    requires pc == s.pcs[step.w]
    ensures WakeInv(r, WorkerStep(r, s, step, pc))
  {
    hide WorkerStep, Steady, TokenComes, Promoted, Past;
    RefusedStays(r, s, step);
    if !TouchesBudget(step, pc) {
      OtherStepsSteady(r, s, step);
      SteadyKeepsWake(r, s, WorkerStep(r, s, step, pc), step.w);
    } else {
      TouchesBudgetStep(r, s, step, pc);
      if step.TryBudget? {
        EnterKeepsWake(r, s, step.w);
      } else if step.ReleaseBudget? {
        LeaveKeepsWake(r, s, step.w, Signalling(pc.taken, pc.left));
      } else {
        TokenKeepsWake(r, s, step.w);
      }
    }
  }

  lemma {:induction false} WakeAlways(r: Request, table: Table, steps: seq<Step>)
    requires r.budget >= 1 && Exclusive(table) && WellFormed(r) && "" !in r.order && NoCancel(steps)
    ensures WakeInv(r, After(r, table, steps))
  {
    hide WorkerStep, WakeInv, BudgetInv, Exclusive, Complete, LockInv;
    if steps == [] {
      NobodyWaits(r, table);
    } else {
      var before, step := steps[..|steps| - 1], steps[|steps| - 1];
      var s := After(r, table, before);
      WakeAlways(r, table, before);
      InvAlways(r, table, before);
      if step.Elsewhere? {
        LocksDoNotWake(r, s, Next(r, s, step));
      } else if step.w in r.keys {
        WorkerKeepsWake(r, s, step, At(s, step.w));
      }
    }
  }

  lemma NobodyWaits(r: Request, table: Table)
    ensures WakeInv(r, Start(r, table))
  {
    assert Promoted(Start(r, table)) == {};
  }

  lemma LocksDoNotWake(r: Request, s: Exec, s': Exec)
    requires WakeInv(r, s) && s'.pcs == s.pcs && s'.mission == s.mission && s'.tokens == s.tokens
    ensures WakeInv(r, s')
  {
    assert Promoted(s') == Promoted(s) && Past(r, s') == Past(r, s);
  }

  lemma StrandedQueue(r: Request, s: Exec)
    requires WakeInv(r, s) && BudgetInv(r, s) && Stranded(s)
    ensures s.mission.queue != [] && s.mission.queue[0] in s.mission.queue
  {
    var w :| w in s.pcs && s.pcs[w].Waiting?;
    assert w in s.mission.running ==> w in Promoted(s);
  }

  lemma StrandedRunning(r: Request, s: Exec)
    requires BudgetInv(r, s) && Stranded(s)
    ensures Promoted(s) == s.mission.running
  {
  }

  /** The promoted, those past their slot and the first of the queue are launched workers, all different. */
  lemma StrandedAreLaunched(r: Request, s: Exec, q: string)
    requires WellFormed(r) && RefusedRest(r, s) && BudgetInv(r, s) && q in s.mission.queue && q !in s.mission.running
    ensures Promoted(s) !! Past(r, s) && q !in Promoted(s) + Past(r, s) && Promoted(s) + Past(r, s) + {q} <= Launchable(r)
  {
    hide WithinBudget;
  }

  lemma ThreeParts(a: set<string>, b: set<string>, q: string, all: set<string>)
    requires a !! b && q !in a + b && a + b + {q} <= all
    ensures |all| >= |a| + |b| + 1
  {
    SubsetSize(a + b + {q}, all);
  }

  /** Where workers are stranded, every slot is promised to one of them and was given back by another. */
  lemma StrandedNeedsMany(r: Request, s: Exec)
    requires WellFormed(r) && WakeInv(r, s) && BudgetInv(r, s) && Stranded(s)
    ensures |Launchable(r)| > 2 * r.budget
  {
    hide WellFormed, Stranded, Promoted, Past, TokenComes, RefusedRest;
    StrandedQueue(r, s);
    StrandedRunning(r, s);
    StrandedAreLaunched(r, s, s.mission.queue[0]);
    ThreeParts(Promoted(s), Past(r, s), s.mission.queue[0], Launchable(r));
  }

  // ---------------------------------------------------------------- why one more is too many

  function Elements(l: seq<string>): set<string> {
    set w | w in l
  }

  lemma {:induction false} ElementsSize(l: seq<string>)
    requires NoRepeats(l)
    ensures |Elements(l)| == |l|
  {
    if l != [] {
      var front, last := l[..|l| - 1], l[|l| - 1];
      ElementsSize(front);
      assert Elements(l) == Elements(front) + {last} && last !in Elements(front);
    }
  }

  /** The workers that are launched, in order. */
  function LaunchOrder(order: seq<string>, refused: set<string>): (l: seq<string>)
    requires NoRepeats(order)
    ensures NoRepeats(l) && (forall w :: w in l <==> w in order && w !in refused)
  {
    if order == [] then []
    else
      var front, last := order[..|order| - 1], order[|order| - 1];
      assert forall w :: w in order <==> w in front || w == last;
      LaunchOrder(front, refused) + if last in refused then [] else [last]
  }

  function Min(a: int, b: int): int {
    if a < b then a else b
  }

  /** The first `asked` workers have asked for a slot, and the first `done` of them have returned. */
  ghost predicate Stage(r: Request, s: Exec, l: seq<string>, done: nat, asked: nat)
    requires done <= asked <= |l| && done <= r.budget
  {
    && !s.busy && !s.torn && s.tokens == 0 && s.pcs.Keys == r.keys.Keys
    && s.mission.running == Elements(l[done..Min(asked, r.budget + done)])
    && s.mission.queue == l[Min(asked, r.budget + done)..asked]
    && (forall w :: w in s.pcs && w !in l ==> s.pcs[w].Done?)
    && (forall i :: 0 <= i < |l| ==> l[i] in s.pcs && Placed(r, s.pcs[l[i]], done, asked, i))
  }

  predicate Placed(r: Request, pc: PC, done: nat, asked: nat, i: nat) {
    if i >= asked then pc == AtBudget
    else if i >= r.budget then pc == Waiting
    else if i >= done then pc == Locking([])
    else pc.Done?
  }

  lemma AsksNext(r: Request, s: Exec, l: seq<string>, asked: nat)
    requires NoRepeats(l) && "" !in l && r.budget >= 1 && asked < |l| && Stage(r, s, l, 0, asked)
    ensures Stage(r, Next(r, s, TryBudget(l[asked])), l, 0, asked + 1)
  {
    hide Next, Elements, Placed, NoRepeats;
    var w, s' := l[asked], Next(r, s, TryBudget(l[asked]));
    if asked < r.budget {
      AskedInBudget(l, asked);
    } else {
      AskedBeyond(l, r.budget, asked);
    }
    assert Placed(r, s.pcs[w], 0, asked, asked);
    assert s.pcs[w] == AtBudget by {
      AskedIsAtBudget(r, s.pcs[w], 0, asked);
    }
    AsksFor(r, s, w);
    MovesOnePlace(r, s, s', l, 0, 0, asked, asked + 1, asked);
  }

  lemma AskedIsAtBudget(r: Request, pc: PC, done: nat, asked: nat)
    requires Placed(r, pc, done, asked, asked)
    ensures pc == AtBudget
  {
  }

  lemma AskedInBudget(l: seq<string>, asked: nat)
    requires NoRepeats(l) && asked < |l|
    ensures l[asked] !in Elements(l[..asked]) && |Elements(l[..asked])| == asked
    ensures Elements(l[..asked + 1]) == Elements(l[..asked]) + {l[asked]}
    ensures l[asked..asked] == l[asked + 1..asked + 1]
  {
    ElementsSize(l[..asked]);
    NotBefore(l, asked);
    LongerElements(l, asked);
  }

  lemma AskedBeyond(l: seq<string>, budget: nat, asked: nat)
    requires NoRepeats(l) && budget <= asked < |l|
    ensures l[asked] !in Elements(l[..budget]) && l[asked] !in l[budget..asked] && |Elements(l[..budget])| == budget
    ensures l[budget..asked + 1] == l[budget..asked] + [l[asked]]
  {
    ElementsSize(l[..budget]);
    NotBefore(l, asked);
  }

  lemma NotBefore(l: seq<string>, i: nat)
    requires NoRepeats(l) && i < |l|
    ensures forall j, k :: 0 <= j <= k <= i ==> l[i] !in l[j..k]
  {
  }

  lemma LongerElements(l: seq<string>, i: nat)
    requires i < |l|
    ensures Elements(l[..i + 1]) == Elements(l[..i]) + {l[i]}
  {
    assert l[..i + 1] == l[..i] + [l[i]];
  }

  /** The others keep their places when worker number `i` alone moves. */
  lemma MovesOnePlace(
      r: Request, s: Exec, s': Exec, l: seq<string>, done: nat, done': nat, asked: nat, asked': nat, i: nat)
    requires NoRepeats(l) && i < |l| && OnlyMoves(s, s', l[i])
    requires asked == asked' || (asked' == asked + 1 && i == asked)
    requires done == done' || (done' == done + 1 && i == done)
    requires forall w :: w in s.pcs && w !in l ==> s.pcs[w].Done?
    requires forall k :: 0 <= k < |l| ==> l[k] in s.pcs && Placed(r, s.pcs[l[k]], done, asked, k)
    requires Placed(r, s'.pcs[l[i]], done', asked', i)
    ensures forall w :: w in s'.pcs && w !in l ==> s'.pcs[w].Done?
    ensures forall k :: 0 <= k < |l| ==> l[k] in s'.pcs && Placed(r, s'.pcs[l[k]], done', asked', k)
  {
    forall k | 0 <= k < |l| ensures l[k] in s'.pcs && Placed(r, s'.pcs[l[k]], done', asked', k) {
      assert Placed(r, s.pcs[l[k]], done, asked, k);
      assert k != i ==> l[k] != l[i];
    }
    forall w | w in s'.pcs && w !in l ensures s'.pcs[w].Done? {
      assert l[i] in l && w in s.pcs;
    }
  }

  lemma AsksFor(r: Request, s: Exec, w: string)
    requires w in r.keys && w in s.pcs && s.pcs[w] == AtBudget && w != "" && w !in s.mission.running && w !in s.mission.queue
    ensures var s' := Next(r, s, TryBudget(w)); var free := |s.mission.running| < r.budget;
      && Apart(s, s', w) && s'.busy == s.busy && s'.pcs[w] == (if free then Locking([]) else Waiting)
      && s'.mission == if free then s.mission.(running := s.mission.running + {w}) else s.mission.(queue := s.mission.queue + [w])
  {
  }

  lemma PassesSlotOn(l: seq<string>, budget: nat, done: nat)
    requires NoRepeats(l) && done < budget && 2 * budget < |l|
    ensures var m := Mission(Elements(l[done..budget + done]), l[budget + done..|l|]);
      && l[done] in m.running && l[|l| - 1] !in Elements(l[done + 1..budget + done + 1])
      && Vacate(m, l[done]).0 == Mission(Elements(l[done + 1..budget + done + 1]), l[budget + done + 1..|l|])
  {
    var last := l[budget + done];
    assert l[done..budget + done] == [l[done]] + l[done + 1..budget + done];
    assert l[done + 1..budget + done + 1] == l[done + 1..budget + done] + [last];
    assert l[done] !in l[done + 1..budget + done + 1];
    assert Elements(l[done + 1..budget + done + 1]) == Elements(l[done + 1..budget + done]) + {last};
  }

  /** Giving the slot of worker number `done` back brings the mission to the next stage. */
  lemma RoundMission(r: Request, s: Exec, l: seq<string>, done: nat)
    requires NoRepeats(l) && done < r.budget && 2 * r.budget < |l| && Stage(r, s, l, done, |l|)
    ensures var m := Give(s.mission, l[done]).0;
      && m == Mission(Elements(l[done + 1..r.budget + done + 1]), l[r.budget + done + 1..|l|])
      && l[|l| - 1] !in m.running
  {
    hide Elements, Placed, NoRepeats, Vacate;
    PassesSlotOn(l, r.budget, done);
    assert s.mission == Mission(Elements(l[done..r.budget + done]), l[r.budget + done..|l|]);
  }

  /** A token goes to a worker that was not promoted. */
  lemma WastesToken(r: Request, s: Exec, w: string)
    requires w in r.keys && w in s.pcs && s.pcs[w] == Waiting && s.tokens == 1 && w !in s.mission.running
    ensures Next(r, s, TakeToken(w)) == s.(tokens := 0)
  {
    assert s.pcs[w := Waiting] == s.pcs;
  }

  /** One worker runs and returns, and its token goes to the last in the queue. */
  lemma RunsRound(r: Request, table: Table, steps: seq<Step>, l: seq<string>, done: nat) returns (more: seq<Step>)
    requires NoRepeats(l) && done < r.budget && 2 * r.budget < |l| && NoCancel(steps)
    requires Stage(r, After(r, table, steps), l, done, |l|)
    ensures NoCancel(more) && Stage(r, After(r, table, more), l, done + 1, |l|)
  {
    hide Next, After, Elements, Placed, NoRepeats, Give;
    var s, w, last := After(r, table, steps), l[done], l[|l| - 1];
    RoundMission(r, s, l, done);
    PlacedAs(r, s.pcs[w], done, |l|, done);
    PlacedAs(r, s.pcs[last], done, |l|, |l| - 1);
    more := Finishes(r, table, steps, w);
    var s1 := After(r, table, more);
    Differ(l, done, |l| - 1);
    WastesToken(r, s1, last);
    OneStepMore(r, table, more, TakeToken(last));
    more := more + [TakeToken(last)];
    PlacedAs(r, s1.pcs[w], done + 1, |l|, done);
    MovesOnePlace(r, s, s1.(tokens := 0), l, done, done + 1, |l|, |l|, done);
  }

  lemma Differ(l: seq<string>, i: nat, j: nat)
    requires NoRepeats(l) && i < j < |l|
    ensures l[i] != l[j]
  {
  }

  lemma PlacedAs(r: Request, pc: PC, done: nat, asked: nat, i: nat)
    requires i < asked
    ensures i >= r.budget ==> (Placed(r, pc, done, asked, i) <==> pc == Waiting)
    ensures done <= i < r.budget ==> (Placed(r, pc, done, asked, i) <==> pc == Locking([]))
    ensures i < done && i < r.budget ==> (Placed(r, pc, done, asked, i) <==> pc.Done?)
  {
  }

  lemma NobodyAsked(r: Request, s: Exec, l: seq<string>)
    requires WellFormed(r) && r.budget >= 1 && OnlySpawned(r, s, |r.order|) && l == LaunchOrder(r.order, r.refused)
    ensures Stage(r, s, l, 0, 0)
  {
    assert Elements(l[0..0]) == {} && l[0..0] == [];
    forall w | w in s.pcs && w !in l ensures s.pcs[w].Done? {
      assert w in r.order;
      var k :| 0 <= k < |r.order| && r.order[k] == w;
      assert At(s, r.order[k]).Done?;
    }
    forall i | 0 <= i < |l| ensures l[i] in s.pcs && Placed(r, s.pcs[l[i]], 0, 0, i) {
      assert l[i] in l && l[i] in r.order;
      var k :| 0 <= k < |r.order| && r.order[k] == l[i];
      assert At(s, r.order[k]) == AtBudget;
    }
  }

  /** All workers are spawned, then the first `asked` ask for a slot. */
  lemma {:induction false} AskingRun(r: Request, table: Table, l: seq<string>, asked: nat) returns (steps: seq<Step>)
    requires WellFormed(r) && "" !in r.order && r.budget >= 1 && l == LaunchOrder(r.order, r.refused) && asked <= |l|
    ensures NoCancel(steps) && Stage(r, After(r, table, steps), l, 0, asked)
  {
    hide Next, After, OnlySpawned, Stage, LaunchOrder;
    if asked == 0 {
      steps := SpawnAll(r, |r.order|);
      AfterSpawns(r, table, |r.order|);
      NobodyAsked(r, After(r, table, steps), l);
    } else {
      steps := AskingRun(r, table, l, asked - 1);
      AsksNext(r, After(r, table, steps), l, asked - 1);
      OneStepMore(r, table, steps, TryBudget(l[asked - 1]));
      steps := steps + [TryBudget(l[asked - 1])];
    }
  }

  lemma {:induction false} WastingRun(r: Request, table: Table, l: seq<string>, done: nat) returns (steps: seq<Step>)
    requires WellFormed(r) && "" !in r.order && r.budget >= 1 && l == LaunchOrder(r.order, r.refused)
    requires done <= r.budget && 2 * r.budget < |l|
    ensures NoCancel(steps) && Stage(r, After(r, table, steps), l, done, |l|)
  {
    hide Next, After, Stage, LaunchOrder;
    if done == 0 {
      steps := AskingRun(r, table, l, |l|);
    } else {
      steps := WastingRun(r, table, l, done - 1);
      steps := RunsRound(r, table, steps, l, done - 1);
    }
  }

  lemma LastStageIsStranded(r: Request, s: Exec, l: seq<string>)
    requires r.budget >= 1 && 2 * r.budget < |l| && Stage(r, s, l, r.budget, |l|)
    ensures Stranded(s)
  {
    assert Placed(r, s.pcs[l[|l| - 1]], r.budget, |l|, |l| - 1);
    forall w | w in s.pcs ensures s.pcs[w].Waiting? || s.pcs[w].Done? {
      if w in l {
        var i :| 0 <= i < |l| && l[i] == w;
        assert Placed(r, s.pcs[l[i]], r.budget, |l|, i);
      }
    }
  }

  lemma LaunchCount(r: Request)
    requires WellFormed(r)
    ensures |LaunchOrder(r.order, r.refused)| == |Launchable(r)|
  {
    var l := LaunchOrder(r.order, r.refused);
    ElementsSize(l);
    assert Elements(l) == Launchable(r);
  }

  /** More workers than twice the budget can all end up waiting, every one of the slots promised. */
  lemma ManyCanStrand(r: Request, table: Table) returns (steps: seq<Step>)
    requires WellFormed(r) && "" !in r.order && r.budget >= 1 && |Launchable(r)| > 2 * r.budget
    ensures NoCancel(steps) && Stranded(After(r, table, steps))
  {
    hide After, Stage, LaunchOrder, Stranded;
    LaunchCount(r);
    var l := LaunchOrder(r.order, r.refused);
    steps := WastingRun(r, table, l, r.budget);
    LastStageIsStranded(r, After(r, table, steps), l);
  }

  /** The steps can be the whole of an execution that nobody cancels, and some worker has not returned. */
  ghost predicate GetsStuck(r: Request, table: Table, steps: seq<Step>) {
    NoCancel(steps) && Halted(r, After(r, table, steps)) && !AllReturned(After(r, table, steps))
  }

  /**
   An execution that nobody cancels can halt before all workers have returned exactly when more than
   twice as many workers are launched as the budget allows to run.
   */
  lemma StuckExactly(r: Request, table: Table)
    requires WellFormed(r) && "" !in r.order && r.budget >= 1 && Exclusive(table)
    ensures (exists steps :: GetsStuck(r, table, steps)) <==> |Launchable(r)| > 2 * r.budget
  {
    hide After, Halted, Stranded, AllReturned, WellFormed, Launchable, Exclusive, WakeInv, BudgetInv;
    if |Launchable(r)| > 2 * r.budget {
      var steps := ManyCanStrand(r, table);
      HaltsExactly(r, table, steps);
      StrandedIsNotDone(After(r, table, steps));
      assert GetsStuck(r, table, steps);
    } else {
      forall steps ensures !GetsStuck(r, table, steps) {
        if GetsStuck(r, table, steps) {
          HaltsExactly(r, table, steps);
          WakeAlways(r, table, steps);
          InvAlways(r, table, steps);
          StrandedNeedsMany(r, After(r, table, steps));
        }
      }
    }
  }

  lemma StrandedIsNotDone(s: Exec)
    requires Stranded(s)
    ensures !AllReturned(s)
  {
  }

  // ---------------------------------------------------------------- how long an execution can go on

  /** A bound on the steps a worker has ahead. */
  function Ahead(keys: seq<Key>, pc: PC): int {
    match pc
    case Unspawned => 2 * |keys| + 10
    case AtBudget => 2 * |keys| + 9
    case Waiting => 2 * |keys| + 8
    case Locking(taken) => 2 * |keys| + 7 - |taken|
    case Running(_) => |keys| + 6
    case RollingBack(_, left) => left + 6
    case Writing(_, left, _) => left + 5
    case Recorded(_, left) => left + 4
    case Signalling(_, left) => left + 3
    case Failing => 2
    case WritingFailure => 1
    case Unlocking(_, left) => left + 1
    case Done(_) => 0
  }

  predicate InBounds(keys: seq<Key>, pc: PC) {
    0 <= Left(pc) <= |Taken(pc)| <= |keys|
  }

  lemma FitsInBounds(r: Request, s: Exec)
    requires AllFit(r, s)
    ensures forall w :: w in r.keys ==> w in s.pcs && InBounds(r.keys[w], s.pcs[w])
  {
    hide Normalize;
    LeftIsNat(s);
    forall w | w in r.keys ensures w in s.pcs && InBounds(r.keys[w], s.pcs[w]) {
      assert w in s.pcs && Fits(r.keys[w], s.pcs[w]);
    }
  }

  predicate Advances(keys: seq<Key>, s: Exec, s': Exec, w: string)
    requires w in s.pcs
  {
    s' == s || (w in s'.pcs && 0 <= Ahead(keys, s'.pcs[w]) + s'.tokens < Ahead(keys, s.pcs[w]) + s.tokens)
  }

  lemma EarlyStepsAdvance(r: Request, s: Exec, step: Step)
    requires Early(step) && step.w in r.keys && step.w in s.pcs && InBounds(r.keys[step.w], s.pcs[step.w])
    ensures Advances(r.keys[step.w], s, WorkerStep(r, s, step, s.pcs[step.w]), step.w)
  {
    hide Spawned, Budget.Acquire, Withdraw, LockStep, LateStep;
    SpawnedMoves(r, s, step.w);
    SpawnedPlaces(r, s, step.w);
  }

  lemma AttemptAdvances(r: Request, s: Exec, w: string, taken: seq<Key>, now: int)
    requires w in r.keys && w in s.pcs && s.pcs[w] == Locking(taken) && |taken| < |r.keys[w]|
    ensures Advances(r.keys[w], s, Attempt(r, s, w, taken, now), w)
  {
    hide Attempt, Normalize;
    AttemptMoves(r, s, w, taken, now);
    AttemptKeepsTheRest(r, s, w, taken, now);
  }

  lemma LockStepsAdvance(r: Request, s: Exec, step: Step)
    requires TakesLocks(step) && step.w in r.keys && step.w in s.pcs && InBounds(r.keys[step.w], s.pcs[step.w])
    ensures Advances(r.keys[step.w], s, WorkerStep(r, s, step, s.pcs[step.w]), step.w)
  {
    hide Attempt, Released, EarlyStep, LateStep;
    var pc := s.pcs[step.w];
    if TouchesLocks(r, step, pc) && step.LockNext? {
      AttemptAdvances(r, s, step.w, pc.taken, step.now);
    }
  }

  lemma EndedAdvances(keys: seq<Key>, s: Exec, w: string, found: Results)
    requires w in s.pcs && IsWriting(s.pcs[w]) && InBounds(keys, s.pcs[w])
    ensures Advances(keys, s, EndedWrite(s, w, s.pcs[w], found), w)
  {
  }

  lemma LateStepsAdvance(r: Request, s: Exec, step: Step)
    requires !Early(step) && !TakesLocks(step) && !step.Elsewhere?
    requires step.w in r.keys && step.w in s.pcs && InBounds(r.keys[step.w], s.pcs[step.w])
    ensures Advances(r.keys[step.w], s, WorkerStep(r, s, step, s.pcs[step.w]), step.w)
  {
    hide Give, Released, EndedWrite, EarlyStep, LockStep;
    if step.EndWrite? && IsWriting(s.pcs[step.w]) {
      EndedAdvances(r.keys[step.w], s, step.w, step.found);
    }
  }

  /** The steps all workers have ahead, and the tokens they may take in vain. */
  ghost function Work(r: Request, s: Exec): int
    requires WellFormed(r)
  {
    assert forall k :: 0 <= k < |r.order| ==> r.order[k] in r.order;
    AheadOf(r, s, |r.order|) + s.tokens
  }

  ghost function AheadOf(r: Request, s: Exec, n: nat): int
    requires n <= |r.order| && forall k :: 0 <= k < |r.order| ==> r.order[k] in r.keys
  {
    if n == 0 then 0 else AheadOf(r, s, n - 1) + Ahead(r.keys[r.order[n - 1]], At(s, r.order[n - 1]))
  }

  lemma {:induction false} AheadOfMoves(r: Request, s: Exec, s': Exec, w: string, n: nat)
    requires n <= |r.order| && (forall k :: 0 <= k < |r.order| ==> r.order[k] in r.keys) && NoRepeats(r.order)
    requires w in r.keys && OnlyMoves(s, s', w)
    ensures AheadOf(r, s', n) - AheadOf(r, s, n)
         == if w in r.order[..n] then Ahead(r.keys[w], s'.pcs[w]) - Ahead(r.keys[w], s.pcs[w]) else 0
  {
    if n > 0 {
      AheadOfMoves(r, s, s', w, n - 1);
      assert r.order[..n] == r.order[..n - 1] + [r.order[n - 1]];
      assert r.order[n - 1] !in r.order[..n - 1];
    }
  }

  lemma {:induction false} AheadIsNat(r: Request, s: Exec, n: nat)
    requires n <= |r.order| && (forall k :: 0 <= k < |r.order| ==> r.order[k] in r.keys)
    requires forall w :: w in r.keys ==> w in s.pcs && InBounds(r.keys[w], s.pcs[w])
    ensures 0 <= AheadOf(r, s, n)
  {
    hide InBounds, Ahead;
    if n > 0 {
      AheadIsNat(r, s, n - 1);
      AheadIsPositive(r.keys[r.order[n - 1]], s.pcs[r.order[n - 1]]);
    }
  }

  lemma AheadIsPositive(keys: seq<Key>, pc: PC)
    requires InBounds(keys, pc)
    ensures 0 <= Ahead(keys, pc)
  {
  }

  /** Every step of a worker that changes anything brings the execution nearer to its end. */
  lemma EveryStepAdvances(r: Request, s: Exec, step: Step)
    requires WellFormed(r) && AllFit(r, s) && !step.Elsewhere?
    ensures Next(r, s, step) == s || Work(r, Next(r, s, step)) < Work(r, s)
  {
    hide WorkerStep, AllFit, InBounds, Ahead;
    if step.w in r.keys {
      var w, s' := step.w, Next(r, s, step);
      FitsInBounds(r, s);
      SamePlaces(r, s);
      if Early(step) {
        EarlyStepsMove(r, s, step);
        EarlyStepsAdvance(r, s, step);
      } else if TakesLocks(step) {
        LockStepsMove(r, s, step);
        LockStepsAdvance(r, s, step);
      } else {
        LateStepsMove(r, s, step);
        LateStepsAdvance(r, s, step);
      }
      assert forall k :: 0 <= k < |r.order| ==> r.order[k] in r.order;
      assert w in r.order[..|r.order|];
      AheadOfMoves(r, s, s', w, |r.order|);
    }
  }

  lemma SamePlaces(r: Request, s: Exec)
    requires AllFit(r, s)
    ensures s.pcs.Keys == r.keys.Keys
  {
  }

  /** How many steps of a run are steps of a worker that changed something. */
  ghost function Changes(r: Request, table: Table, steps: seq<Step>): nat {
    if steps == [] then 0
    else
      var before, step := steps[..|steps| - 1], steps[|steps| - 1];
      Changes(r, table, before) + if step.Elsewhere? || After(r, table, steps) == After(r, table, before) then 0 else 1
  }

  lemma LocksDoNotWork(r: Request, s: Exec, s': Exec, n: nat)
    requires n <= |r.order| && (forall k :: 0 <= k < |r.order| ==> r.order[k] in r.keys) && s'.pcs == s.pcs
    ensures AheadOf(r, s', n) == AheadOf(r, s, n)
  {
  }

  lemma {:induction false} ChangesAreCounted(r: Request, table: Table, steps: seq<Step>)
    requires WellFormed(r)
    ensures Changes(r, table, steps) + Work(r, After(r, table, steps)) <= Work(r, Start(r, table))
  {
    hide Start, AllFit, WorkerStep;
    if steps != [] {
      var before, step := steps[..|steps| - 1], steps[|steps| - 1];
      ChangesAreCounted(r, table, before);
      FitsAlways(r, table, before);
      if step.Elsewhere? {
        assert forall k :: 0 <= k < |r.order| ==> r.order[k] in r.order;
        LocksDoNotWork(r, After(r, table, before), After(r, table, steps), |r.order|);
      } else {
        EveryStepAdvances(r, After(r, table, before), step);
      }
    }
  }

  lemma WorkIsNat(r: Request, table: Table, steps: seq<Step>)
    requires WellFormed(r)
    ensures 0 <= Work(r, After(r, table, steps))
  {
    hide After;
    assert forall k :: 0 <= k < |r.order| ==> r.order[k] in r.order;
    FitsAlways(r, table, steps);
    FitsInBounds(r, After(r, table, steps));
    AheadIsNat(r, After(r, table, steps), |r.order|);
  }

  /** Every run has at most a fixed number of steps that change something, whoever takes them. */
  lemma RunsAreBounded(r: Request, table: Table, steps: seq<Step>)
    requires WellFormed(r)
    ensures Changes(r, table, steps) <= Work(r, Start(r, table))
  {
    ChangesAreCounted(r, table, steps);
    WorkIsNat(r, table, steps);
  }

  /** With at most twice as many workers as the budget allows, every uncancelled run can be brought to its end. */
  lemma {:induction false} EveryoneCanReturn(r: Request, table: Table, steps: seq<Step>) returns (more: seq<Step>)
    requires WellFormed(r) && "" !in r.order && r.budget >= 1 && Exclusive(table)
    requires |Launchable(r)| <= 2 * r.budget && NoCancel(steps)
    ensures steps <= more && NoCancel(more) && AllReturned(After(r, table, more))
    decreases Work(r, After(r, table, steps))
  {
    hide After, Next, WellFormed, AllReturned, Launchable, Exclusive, AllFit;
    more := steps;
    StuckExactly(r, table);
    if !AllReturned(After(r, table, steps)) {
      assert !GetsStuck(r, table, steps);
      var s := After(r, table, steps);
      var step: Step :| !step.Elsewhere? && !step.ContextDone? && Next(r, s, step) != s;
      FitsAlways(r, table, steps);
      EveryStepAdvances(r, s, step);
      OneStepMore(r, table, steps, step);
      WorkIsNat(r, table, steps + [step]);
      WorkIsNat(r, table, steps);
      more := EveryoneCanReturn(r, table, steps + [step]);
    }
  }
}
