/**
 One parallel execution of workers: every worker takes a budget slot, locks its resources one by one,
 runs, records its result, gives the slot back and releases its locks.

 Each critical section is one step; steps of different workers, of the loop that spawns them and of
 anyone else who uses the locks interleave freely. A worker writes its result in two steps, under the
 lock of the results. The loop records a failed spawn without that lock: when its write falls into
 one of a worker, the two race, and the worker's write may leave any results.
 */
module ParallelExecute {
  import opened Wrappers
  import opened Budget
  import opened ResourceLocks
  import AgentRuns

  /** Where a worker is; `taken` are the keys it acquired, `taken[..left]` those it has yet to release. */
  datatype PC =
    | Unspawned
    | AtBudget
    | Waiting
    | Failing
    | Locking(taken: seq<Key>)
    | RollingBack(taken: seq<Key>, left: nat)
    | Running(taken: seq<Key>)
    | WritingFailure
    | Writing(taken: seq<Key>, left: nat, status: AgentRuns.AgentStatus)
    | Recorded(taken: seq<Key>, left: nat)
    | Signalling(taken: seq<Key>, left: nat)
    | Unlocking(taken: seq<Key>, left: nat)
    | Done(taken: seq<Key>)

  type Results = map<string, AgentRuns.AgentStatus>

  /**
   The request: the workers in the order they are spawned, those whose spawning is refused, the keys
   each worker wants, the budget of the mission and the life of a lease.
   */
  datatype Request = Request(
    order: seq<string>, refused: set<string>, keys: map<string, seq<Key>>, budget: int, ttl: int)

  /**
   `spawned` is how far the spawning loop has come. `busy` says that a worker is writing its result, `torn`
   that the loop has written into that, and `raced` that this has happened at all.
   */
  datatype Exec = Exec(
    mission: Mission, table: Table, pcs: map<string, PC>, results: Results, tokens: nat, spawned: nat,
    busy: bool, torn: bool, raced: bool)

  datatype Step =
    | Spawn(w: string)
    | TryBudget(w: string)
    | TakeToken(w: string)
    | ContextDone(w: string)
    | BeginFailing(w: string)
    | LockNext(w: string, now: int)
    | LocksDone(w: string)
    | Undo(w: string)
    | BeginLockFailure(w: string)
    | RunAgent(w: string, status: AgentRuns.AgentStatus)
    | EndWrite(w: string, found: Results)
    | ReleaseBudget(w: string)
    | Signal(w: string)
    | Unlock(w: string)
    | Return(w: string)
    | Elsewhere(op: LockOp)

  function Start(r: Request, table: Table): Exec {
    Exec(IDLE_MISSION, table, map w | w in r.keys :: Unspawned, map[], 0, 0, false, false, false)
  }

  function At(s: Exec, w: string): PC {
    if w in s.pcs then s.pcs[w] else Unspawned
  }

  function Goto(s: Exec, w: string, pc: PC): Exec {
    s.(pcs := s.pcs[w := pc])
  }

  /** Records a worker's result. */
  function Record(s: Exec, w: string, status: AgentRuns.AgentStatus, pc: PC): Exec {
    Goto(s, w, pc).(results := s.results[w := status])
  }

  function Budgeted(r: Request, s: Exec, w: string): Exec {
    var (m, got) := Budget.Acquire(s.mission, r.budget, w);
    Goto(s, w, if got.Failure? then Failing else if got.value then Locking([]) else Waiting).(mission := m)
  }

  /** The attempt to lock the next key: taken, or everything is to be rolled back. */
  function Attempt(r: Request, s: Exec, w: string, taken: seq<Key>, now: int): Exec
    requires w in r.keys && |taken| < |r.keys[w]|
  {
    var key := r.keys[w][|taken|];
    if AcquireError(key, w).Some? then Goto(s, w, RollingBack(taken, |taken|))
    else
      var (t, ok) := ResourceLocks.Acquire(s.table, r.ttl, Normalize(key), w, now);
      Goto(s, w, if ok then Locking(taken + [Normalize(key)]) else RollingBack(taken, |taken|)).(table := t)
  }

  /** Lock operations outside this execution, under any name. */
  function ElsewhereTable(r: Request, t: Table, op: LockOp): Table {
    match op
    case LockAcquire(key, owner, now) => ResourceLocks.Acquire(t, r.ttl, Normalize(key), owner, now).0
    case LockRelease(key, owner) => Released(t, key, owner)
  }

  /** Some worker was launched among the first `n`. */
  predicate Launched(r: Request, n: nat) {
    exists i :: 0 <= i < n && i < |r.order| && r.order[i] !in r.refused
  }

  predicate SpawnsNext(r: Request, s: Exec, w: string) {
    s.spawned < |r.order| && r.order[s.spawned] == w
  }

  /**
   The spawning loop launches a worker, or records that it could not. It records without the lock
   the workers use, so its write may fall into a worker's.
   */
  function Spawned(r: Request, s: Exec, w: string): Exec {
    var next := s.(spawned := s.spawned + 1);
    if w !in r.refused then Goto(next, w, AtBudget)
    else Record(next, w, AgentRuns.Failed, Done([])).(torn := s.torn || s.busy, raced := s.raced || s.busy)
  }

  predicate IsWriting(pc: PC) {
    pc.WritingFailure? || pc.Writing?
  }

  /** A worker takes the lock of the results to write its own, if nobody has it. */
  function BeginWrite(s: Exec, w: string, pc: PC): Exec {
    if s.busy then s else Goto(s, w, pc).(busy := true)
  }

  function Written(pc: PC): PC
    requires IsWriting(pc)
  {
    if pc.Writing? then Recorded(pc.taken, pc.left) else Done([])
  }

  /** The result a worker writes. */
  function WrittenStatus(pc: PC): AgentRuns.AgentStatus
    requires IsWriting(pc)
  {
    if pc.Writing? then pc.status else AgentRuns.Failed
  }

  /** The end of a worker's write, which leaves any results when the loop has written into it. */
  function EndedWrite(s: Exec, w: string, pc: PC, found: Results): Exec
    requires IsWriting(pc)
  {
    var next := s.(busy := false, torn := false);
    if s.torn then Goto(next, w, Written(pc)).(results := found)
    else Record(next, w, WrittenStatus(pc), Written(pc))
  }

  /** One step; a step that is not enabled changes nothing. */
  function Next(r: Request, s: Exec, step: Step): Exec {
    match step
    case Elsewhere(op) => s.(table := ElsewhereTable(r, s.table, op))
    case _ => if step.w !in r.keys then s else WorkerStep(r, s, step, At(s, step.w))
  }

  /** The steps up to the locks. */
  predicate Early(step: Step) {
    step.Spawn? || step.TryBudget? || step.TakeToken? || step.ContextDone? || step.BeginFailing?
  }

  predicate TakesLocks(step: Step) {
    step.LockNext? || step.LocksDone? || step.Undo? || step.BeginLockFailure?
  }

  function WorkerStep(r: Request, s: Exec, step: Step, pc: PC): Exec
    requires !step.Elsewhere? && step.w in r.keys
  {
    if Early(step) then EarlyStep(r, s, step, pc)
    else if TakesLocks(step) then LockStep(r, s, step, pc)
    else LateStep(r, s, step, pc)
  }

  function EarlyStep(r: Request, s: Exec, step: Step, pc: PC): Exec
    requires Early(step) && step.w in r.keys
  {
    var w := step.w;
    match step
    case Spawn(_) => if pc.Unspawned? && SpawnsNext(r, s, w) then Spawned(r, s, w) else s
    case TryBudget(_) => if pc.AtBudget? then Budgeted(r, s, w) else s
    case TakeToken(_) => if pc.Waiting? then TokenTaken(s, w) else s
    case ContextDone(_) => if pc.Waiting? then Goto(s, w, Failing).(mission := Withdraw(s.mission, w).0) else s
    case BeginFailing(_) => if pc.Failing? then BeginWrite(s, w, WritingFailure) else s
  }

  function LockStep(r: Request, s: Exec, step: Step, pc: PC): Exec
    requires TakesLocks(step) && step.w in r.keys
  {
    var w := step.w;
    match step
    case LockNext(_, now) => if pc.Locking? && |pc.taken| < |r.keys[w]| then Attempt(r, s, w, pc.taken, now) else s
    case LocksDone(_) => if pc.Locking? && |pc.taken| >= |r.keys[w]| then Goto(s, w, Running(pc.taken)) else s
    case Undo(_) =>
      if pc.RollingBack? && 0 < pc.left <= |pc.taken| then GiveBack(s, w, RollingBack(pc.taken, pc.left - 1)) else s
    case BeginLockFailure(_) =>
      if pc.RollingBack? && pc.left == 0 then BeginWrite(s, w, Writing(pc.taken, 0, AgentRuns.Failed)) else s
  }

  function LateStep(r: Request, s: Exec, step: Step, pc: PC): Exec
    requires !Early(step) && !TakesLocks(step) && !step.Elsewhere? && step.w in r.keys
  {
    var w := step.w;
    match step
    case RunAgent(_, status) => if pc.Running? then BeginWrite(s, w, Writing(pc.taken, |pc.taken|, status)) else s
    case EndWrite(_, found) => if IsWriting(pc) then EndedWrite(s, w, pc, found) else s
    case ReleaseBudget(_) =>
      if pc.Recorded? then Goto(s, w, Signalling(pc.taken, pc.left)).(mission := Give(s.mission, w).0) else s
    case Signal(_) =>
      if pc.Signalling?
      then Goto(s, w, Unlocking(pc.taken, pc.left)).(tokens := if s.tokens < |r.keys| then s.tokens + 1 else s.tokens)
      else s
    case Unlock(_) =>
      if pc.Unlocking? && 0 < pc.left <= |pc.taken| then GiveBack(s, w, Unlocking(pc.taken, pc.left - 1)) else s
    case Return(_) => if pc.Unlocking? && pc.left == 0 then Goto(s, w, Done(pc.taken)) else s
  }

  /** A worker woken by a token goes on only if it was the one promoted. */
  function TokenTaken(s: Exec, w: string): Exec {
    if s.tokens == 0 then s
    else Goto(s, w, if w in s.mission.running then Locking([]) else Waiting).(tokens := s.tokens - 1)
  }

  /** Releases the last key not yet released. */
  function GiveBack(s: Exec, w: string, pc: PC): Exec
    requires (pc.RollingBack? || pc.Unlocking?) && pc.left < |pc.taken|
  {
    Goto(s, w, pc).(table := Released(s.table, pc.taken[pc.left], w))
  }

  function After(r: Request, table: Table, steps: seq<Step>): Exec {
    if steps == [] then Start(r, table)
    else Next(r, After(r, table, steps[..|steps| - 1]), steps[|steps| - 1])
  }

  // ---------------------------------------------------------------- one step

  /** Every worker but `w` stays where it is. */
  predicate OnlyMoves(s: Exec, s': Exec, w: string) {
    w in s.pcs && w in s'.pcs && s'.pcs == s.pcs[w := s'.pcs[w]]
  }

  lemma EarlyStepsMove(r: Request, s: Exec, step: Step)
    requires Early(step) && step.w in r.keys && s.pcs.Keys == r.keys.Keys
    ensures OnlyMoves(s, WorkerStep(r, s, step, s.pcs[step.w]), step.w)
  {
    hide Spawned, Withdraw, LockStep, LateStep;
    SpawnedMoves(r, s, step.w);
  }

  lemma SpawnedMoves(r: Request, s: Exec, w: string)
    requires w in s.pcs
    ensures OnlyMoves(s, Spawned(r, s, w), w)
  {
  }

  lemma LockStepsMove(r: Request, s: Exec, step: Step)
    requires TakesLocks(step) && step.w in r.keys && s.pcs.Keys == r.keys.Keys
    ensures OnlyMoves(s, WorkerStep(r, s, step, s.pcs[step.w]), step.w)
  {
    hide ResourceLocks.Acquire, Released, AcquireError, Normalize, EarlyStep, LateStep;
  }

  lemma LateStepsMove(r: Request, s: Exec, step: Step)
    requires !Early(step) && !TakesLocks(step) && !step.Elsewhere? && step.w in r.keys && s.pcs.Keys == r.keys.Keys
    ensures OnlyMoves(s, WorkerStep(r, s, step, s.pcs[step.w]), step.w)
  {
    hide Give, Released, EarlyStep, LockStep;
  }

  // ---------------------------------------------------------------- the budget

  predicate HoldsSlot(pc: PC) {
    pc.Locking? || pc.RollingBack? || pc.Running? || pc.Writing? || pc.Recorded?
  }

  /** The running set and the queue are exactly the workers past acquisition and the waiting ones. */
  predicate BudgetInv(r: Request, s: Exec) {
    && WithinBudget(s.mission, r.budget)
    && s.pcs.Keys == r.keys.Keys
    && (forall w :: w in s.pcs && HoldsSlot(s.pcs[w]) ==> w in s.mission.running)
    && (forall w :: w in s.mission.running ==> w in s.pcs && (HoldsSlot(s.pcs[w]) || s.pcs[w].Waiting?))
    && (forall w :: w in s.mission.queue ==> w in s.pcs && s.pcs[w].Waiting?)
    && (forall w :: w in s.pcs && s.pcs[w].Waiting? ==> w in s.mission.running || w in s.mission.queue)
  }

  /** A worker's move within the budget, or outside of it. */
  predicate SameSlot(pc: PC, pc': PC) {
    HoldsSlot(pc) == HoldsSlot(pc') && pc.Waiting? == pc'.Waiting?
  }

  /** Only `w` has moved, and the budget is untouched. */
  predicate Moved(s: Exec, s': Exec, w: string) {
    OnlyMoves(s, s', w) && s'.mission == s.mission
  }

  /** Steps of a worker that neither enter nor leave the budget. */
  lemma StayKeepsBudget(r: Request, s: Exec, s': Exec, w: string)
    requires BudgetInv(r, s) && Moved(s, s', w) && SameSlot(s.pcs[w], s'.pcs[w])
    ensures BudgetInv(r, s')
  {
  }

  lemma EnterKeepsBudget(r: Request, s: Exec, w: string)
    requires BudgetInv(r, s) && r.budget >= 1 && w in s.pcs && s.pcs[w] == AtBudget
    ensures BudgetInv(r, Budgeted(r, s, w))
  {
    assert w !in s.mission.running && w !in s.mission.queue;
    var m := Do(s.mission, r.budget, OpAcquire(w));
    DoKeepsBudget(s.mission, r.budget, OpAcquire(w));
    if w == "" {
      EntersAs(r, s, w, Failing, m);
    } else {
      EntersAs(r, s, w, if |s.mission.running| < r.budget then Locking([]) else Waiting, m);
    }
  }

  /** A worker unknown to the budget fails, gets a slot or joins the queue. */
  lemma EntersAs(r: Request, s: Exec, w: string, pc: PC, m: Mission)
    requires BudgetInv(r, s) && w in s.pcs && s.pcs[w] == AtBudget && WithinBudget(m, r.budget)
    requires match pc
      case Failing => m == s.mission
      case Locking(_) => m == s.mission.(running := s.mission.running + {w})
      case Waiting => m == s.mission.(queue := s.mission.queue + [w])
      case _ => false
    ensures BudgetInv(r, Goto(s, w, pc).(mission := m))
  {
    hide WithinBudget;
  }

  lemma PromotedKeepsBudget(r: Request, s: Exec, w: string, tokens: nat)
    requires BudgetInv(r, s) && w in s.pcs && s.pcs[w] == Waiting && w in s.mission.running
    ensures BudgetInv(r, Goto(s, w, Locking([])).(tokens := tokens))
  {
    assert w !in s.mission.queue;
  }

  lemma LeaveKeepsBudget(r: Request, s: Exec, w: string, pc: PC)
    requires BudgetInv(r, s) && r.budget >= 1 && w in s.pcs && HoldsSlot(s.pcs[w])
    requires !HoldsSlot(pc) && !pc.Waiting?
    ensures BudgetInv(r, Goto(s, w, pc).(mission := Give(s.mission, w).0))
  {
    DoKeepsBudget(s.mission, r.budget, OpRelease(w));
    VacatedQueue(s.mission, w);
  }

  lemma AbandonKeepsBudget(r: Request, s: Exec, w: string)
    requires BudgetInv(r, s) && r.budget >= 1 && w in s.pcs && s.pcs[w] == Waiting
    ensures BudgetInv(r, Goto(s, w, Failing).(mission := Withdraw(s.mission, w).0))
  {
    DoKeepsBudget(s.mission, r.budget, OpRemove(w));
    if w in s.mission.running {
      PromotedAbandons(r, s, w, Vacate(s.mission, w).0);
    } else {
      WithdrawnQueue(s.mission, w);
      QueuedAbandons(r, s, w, Withdraw(s.mission, w).0);
    }
  }

  lemma PromotedAbandons(r: Request, s: Exec, w: string, m: Mission)
    requires BudgetInv(r, s) && w in s.pcs && s.pcs[w] == Waiting && w in s.mission.running
    requires m == Vacate(s.mission, w).0 && WithinBudget(m, r.budget)
    ensures BudgetInv(r, Goto(s, w, Failing).(mission := m))
  {
    VacatedQueue(s.mission, w);
  }

  lemma QueuedAbandons(r: Request, s: Exec, w: string, m: Mission)
    requires BudgetInv(r, s) && w in s.pcs && s.pcs[w] == Waiting && w !in s.mission.running
    requires WithinBudget(m, r.budget) && m.running == s.mission.running
    requires forall q :: q in m.queue <==> q in s.mission.queue && q != w
    ensures BudgetInv(r, Goto(s, w, Failing).(mission := m))
  {
  }

  lemma VacatedQueue(m: Mission, w: string)
    requires w in m.running
    ensures forall q :: q in m.queue <==> q in Vacate(m, w).0.queue || (m.queue != [] && q == m.queue[0])
    ensures Vacate(m, w).0.running == m.running - {w} + if m.queue == [] then {} else {m.queue[0]}
  {
  }

  lemma WithdrawnQueue(m: Mission, w: string)
    requires NoRepeats(m.queue) && w in m.queue && w !in m.running
    ensures forall q :: q in Withdraw(m, w).0.queue <==> q in m.queue && q != w
    ensures Withdraw(m, w).0.running == m.running
  {
    CutOut(m.queue, IndexOf(m.queue, w));
  }

  lemma CutOut(queue: seq<string>, i: nat)
    requires NoRepeats(queue) && i < |queue|
    ensures forall q :: q in queue[..i] + queue[i + 1..] <==> q in queue && q != queue[i]
  {
    assert queue == queue[..i] + [queue[i]] + queue[i + 1..];
    assert queue[i] !in queue[..i] && queue[i] !in queue[i + 1..];
  }

  predicate TouchesBudget(step: Step, pc: PC) {
    || (step.TryBudget? && pc.AtBudget?)
    || ((step.TakeToken? || step.ContextDone?) && pc.Waiting?)
    || (step.ReleaseBudget? && pc.Recorded?)
  }

  lemma EarlyStepsStay(r: Request, s: Exec, step: Step)
    requires Early(step) && step.w in r.keys && s.pcs.Keys == r.keys.Keys && !TouchesBudget(step, s.pcs[step.w])
    ensures var s' := WorkerStep(r, s, step, s.pcs[step.w]);
      Moved(s, s', step.w) && SameSlot(s.pcs[step.w], s'.pcs[step.w])
  {
    hide Budgeted, TokenTaken, Launched, LockStep, LateStep, OnlyMoves;
    EarlyStepsMove(r, s, step);
  }

  lemma LockStepsStay(r: Request, s: Exec, step: Step)
    requires TakesLocks(step) && step.w in r.keys && s.pcs.Keys == r.keys.Keys
    ensures var s' := WorkerStep(r, s, step, s.pcs[step.w]);
      Moved(s, s', step.w) && SameSlot(s.pcs[step.w], s'.pcs[step.w])
  {
    hide ResourceLocks.Acquire, Released, AcquireError, Normalize, Budgeted, TokenTaken, Spawned, EndedWrite, EarlyStep, LateStep, OnlyMoves;
    LockStepsMove(r, s, step);
  }

  lemma EndedStays(s: Exec, w: string, found: Results)
    requires w in s.pcs && IsWriting(s.pcs[w])
    ensures var s' := EndedWrite(s, w, s.pcs[w], found); Moved(s, s', w) && SameSlot(s.pcs[w], s'.pcs[w])
  {
  }

  lemma LateStepsStay(r: Request, s: Exec, step: Step)
    requires !Early(step) && !TakesLocks(step) && !step.Elsewhere? && step.w in r.keys && s.pcs.Keys == r.keys.Keys
    requires !TouchesBudget(step, s.pcs[step.w])
    ensures var s' := WorkerStep(r, s, step, s.pcs[step.w]);
      Moved(s, s', step.w) && SameSlot(s.pcs[step.w], s'.pcs[step.w])
  {
    hide Give, Released, EndedWrite, LockStep, EarlyStep, OnlyMoves;
    LateStepsMove(r, s, step);
    if step.EndWrite? && IsWriting(s.pcs[step.w]) {
      EndedStays(s, step.w, step.found);
    }
  }

  lemma OtherStepsStay(r: Request, s: Exec, step: Step)
    requires !step.Elsewhere? && step.w in r.keys && s.pcs.Keys == r.keys.Keys && !TouchesBudget(step, s.pcs[step.w])
    ensures var s' := WorkerStep(r, s, step, s.pcs[step.w]);
      Moved(s, s', step.w) && SameSlot(s.pcs[step.w], s'.pcs[step.w])
  {
    hide WorkerStep;
    if Early(step) {
      EarlyStepsStay(r, s, step);
    } else if TakesLocks(step) {
      LockStepsStay(r, s, step);
    } else {
      LateStepsStay(r, s, step);
    }
  }

  lemma NextKeepsBudget(r: Request, s: Exec, step: Step)
    requires BudgetInv(r, s) && r.budget >= 1
    ensures BudgetInv(r, Next(r, s, step))
  {
    if !step.Elsewhere? && step.w in r.keys {
      WorkerKeepsBudget(r, s, step, s.pcs[step.w]);
    }
  }

  lemma WorkerKeepsBudget(r: Request, s: Exec, step: Step, pc: PC)
    requires BudgetInv(r, s) && r.budget >= 1 && !step.Elsewhere? && step.w in r.keys && pc == s.pcs[step.w]
    ensures BudgetInv(r, WorkerStep(r, s, step, pc))
  {
    var w := step.w;
    if !TouchesBudget(step, pc) {
      OtherStepsStay(r, s, step);
      StayKeepsBudget(r, s, WorkerStep(r, s, step, pc), w);
    } else if step.TryBudget? {
      EnterKeepsBudget(r, s, w);
    } else if step.ContextDone? {
      AbandonKeepsBudget(r, s, w);
    } else if step.ReleaseBudget? {
      LeaveKeepsBudget(r, s, w, Signalling(pc.taken, pc.left));
    } else {
      TokenKeepsBudget(r, s, w);
    }
  }

  lemma TokenKeepsBudget(r: Request, s: Exec, w: string)
    requires BudgetInv(r, s) && w in s.pcs && s.pcs[w].Waiting?
    ensures BudgetInv(r, TokenTaken(s, w))
  {
    if s.tokens > 0 && w in s.mission.running {
      PromotedKeepsBudget(r, s, w, s.tokens - 1);
    } else {
      StayKeepsBudget(r, s, TokenTaken(s, w), w);
    }
  }

  // ---------------------------------------------------------------- the locks

  /** The keys a worker has taken so far, all normalised. */
  function Taken(pc: PC): seq<Key> {
    match pc
    case Locking(taken) => taken
    case RollingBack(taken, _) => taken
    case Running(taken) => taken
    case Writing(taken, _, _) => taken
    case Recorded(taken, _) => taken
    case Signalling(taken, _) => taken
    case Unlocking(taken, _) => taken
    case Done(taken) => taken
    case _ => []
  }

  /** How many of the taken keys are not released yet. */
  function Left(pc: PC): int {
    match pc
    case RollingBack(_, left) => left
    case Writing(_, left, _) => left
    case Recorded(_, left) => left
    case Signalling(_, left) => left
    case Unlocking(_, left) => left
    case Done(_) => 0
    case _ => |Taken(pc)|
  }

  /** Released keys are no longer held. */
  predicate Returned(t: Table, w: string, pc: PC) {
    && NormalKeys(Taken(pc)) && 0 <= Left(pc) <= |Taken(pc)|
    && (forall j :: Left(pc) <= j < |Taken(pc)| ==> (Taken(pc)[j], w) !in t)
  }

  predicate LockInv(s: Exec) {
    && Exclusive(s.table)
    && (forall w :: w in s.pcs ==> Returned(s.table, w, s.pcs[w]))
  }

  /** A table change on behalf of others takes nothing for worker `w`. */
  lemma FewerLeasesKeepReturned(t: Table, t': Table, w: string, pc: PC)
    requires Returned(t, w, pc) && (forall k: Key :: (k, w) in t' ==> (k, w) in t)
    ensures Returned(t', w, pc)
  {
  }

  lemma ReleaseStep(t: Table, w: string, taken: seq<Key>, left: nat, pc: PC, pc': PC)
    requires Returned(t, w, pc) && Taken(pc) == taken == Taken(pc') && Left(pc) == left && Left(pc') == left - 1
    requires 0 < left <= |taken|
    ensures Returned(Released(t, taken[left - 1], w), w, pc')
  {
    assert Normalize(taken[left - 1]) == taken[left - 1];
  }

  lemma AttemptKeepsLocks(r: Request, s: Exec, w: string, taken: seq<Key>, now: int)
    requires LockInv(s) && w in r.keys && w in s.pcs && s.pcs[w] == Locking(taken) && |taken| < |r.keys[w]|
    ensures LockInv(Attempt(r, s, w, taken, now))
  {
    assert Returned(s.table, w, s.pcs[w]);
    var s' := Attempt(r, s, w, taken, now);
    AttemptIsOwn(r, s, w, taken, now);
    forall v | v in s'.pcs ensures Returned(s'.table, v, s'.pcs[v]) {
      assert Returned(s.table, v, s.pcs[v]);
      if v != w {
        FewerLeasesKeepReturned(s.table, s'.table, v, s.pcs[v]);
      }
    }
  }

  /** An attempt moves only its worker, gives nobody else a lease and extends the keys by a normal one. */
  lemma AttemptIsOwn(r: Request, s: Exec, w: string, taken: seq<Key>, now: int)
    requires Exclusive(s.table) && NormalKeys(taken) && w in r.keys && w in s.pcs && |taken| < |r.keys[w]|
    ensures var s' := Attempt(r, s, w, taken, now);
      && Exclusive(s'.table) && w in s'.pcs && s'.pcs == s.pcs[w := s'.pcs[w]]
      && (forall k: Key, v :: v != w && (k, v) in s'.table ==> (k, v) in s.table)
      && NormalKeys(Taken(s'.pcs[w])) && Left(s'.pcs[w]) == |Taken(s'.pcs[w])|
  {
    hide Attempt, Exclusive, ResourceLocks.Acquire, AcquireError, Normalize;
    var key := Normalize(r.keys[w][|taken|]);
    AttemptMoves(r, s, w, taken, now);
    AcquireKeepsExclusive(s.table, r.ttl, key, w, now);
    OthersGainNothing(s.table, r.ttl, key, w, now);
    NormalizeTwice(r.keys[w][|taken|]);
  }

  lemma AttemptMoves(r: Request, s: Exec, w: string, taken: seq<Key>, now: int)
    requires w in r.keys && w in s.pcs && |taken| < |r.keys[w]|
    ensures var s' := Attempt(r, s, w, taken, now); var key := Normalize(r.keys[w][|taken|]);
      && (s'.table == s.table || s'.table == ResourceLocks.Acquire(s.table, r.ttl, key, w, now).0)
      && w in s'.pcs && s'.pcs == s.pcs[w := s'.pcs[w]]
      && (s'.pcs[w] == RollingBack(taken, |taken|) || s'.pcs[w] == Locking(taken + [key]))
  {
  }

  lemma AttemptKeepsTheRest(r: Request, s: Exec, w: string, taken: seq<Key>, now: int)
    requires w in r.keys && |taken| < |r.keys[w]|
    ensures Attempt(r, s, w, taken, now) == s.(pcs := Attempt(r, s, w, taken, now).pcs, table := Attempt(r, s, w, taken, now).table)
  {
    hide Normalize, ResourceLocks.Acquire, AcquireError;
  }

  lemma OthersGainNothing(t: Table, ttl: int, key: Key, owner: string, now: int)
    ensures forall k: Key, v :: v != owner && (k, v) in ResourceLocks.Acquire(t, ttl, key, owner, now).0 ==> (k, v) in t
  {
  }

  lemma ShrunkKeepsLocks(s: Exec, t: Table, w: string, pc: PC)
    requires LockInv(s) && w in s.pcs && Returned(t, w, pc)
    requires forall k: Key, v :: (k, v) in t ==> (k, v) in s.table && t[(k, v)] == s.table[(k, v)]
    ensures LockInv(Goto(s, w, pc).(table := t))
  {
    forall v | v in s.pcs && v != w ensures Returned(t, v, s.pcs[v]) {
      FewerLeasesKeepReturned(s.table, t, v, s.pcs[v]);
    }
  }

  lemma GiveBackKeepsLocks(s: Exec, w: string, pc: PC)
    requires LockInv(s) && w in s.pcs && (pc.RollingBack? || pc.Unlocking?) && pc.left < |pc.taken|
    requires Taken(s.pcs[w]) == pc.taken && Left(s.pcs[w]) == pc.left + 1
    ensures LockInv(GiveBack(s, w, pc))
  {
    ReleaseStep(s.table, w, pc.taken, pc.left + 1, s.pcs[w], pc);
    ShrunkKeepsLocks(s, Released(s.table, pc.taken[pc.left], w), w, pc);
  }

  /** Only `w` has moved, with its keys and without any change to the table. */
  predicate Quiet(s: Exec, s': Exec, w: string) {
    && OnlyMoves(s, s', w) && s'.table == s.table
    && Taken(s'.pcs[w]) == Taken(s.pcs[w]) && Left(s'.pcs[w]) == Left(s.pcs[w])
  }

  lemma QuietKeepsLocks(s: Exec, s': Exec, w: string)
    requires LockInv(s) && Quiet(s, s', w)
    ensures LockInv(s')
  {
    forall v | v in s'.pcs ensures Returned(s'.table, v, s'.pcs[v]) {
      assert Returned(s.table, v, s.pcs[v]);
    }
  }

  /** The step does not use a worker's name from outside. */
  predicate Foreign(r: Request, step: Step) {
    step.Elsewhere? ==> step.op.owner !in r.keys
  }

  predicate AllForeign(r: Request, steps: seq<Step>) {
    forall i :: 0 <= i < |steps| ==> Foreign(r, steps[i])
  }

  lemma ElsewhereKeepsLocks(r: Request, s: Exec, op: LockOp)
    requires LockInv(s) && s.pcs.Keys == r.keys.Keys && op.owner !in r.keys
    ensures LockInv(Next(r, s, Elsewhere(op)))
  {
    var t := ElsewhereTable(r, s.table, op);
    ElsewhereIsForeign(r, s.table, op);
    ElsewhereIsExclusive(r, s.table, op);
    forall v | v in s.pcs ensures Returned(t, v, s.pcs[v]) {
      FewerLeasesKeepReturned(s.table, t, v, s.pcs[v]);
    }
  }

  lemma ElsewhereIsExclusive(r: Request, t: Table, op: LockOp)
    requires Exclusive(t)
    ensures Exclusive(ElsewhereTable(r, t, op))
  {
    if op.LockAcquire? {
      AcquireKeepsExclusive(t, r.ttl, Normalize(op.key), op.owner, op.now);
    }
  }

  /** What others do gives a worker no lease. */
  lemma ElsewhereIsForeign(r: Request, t: Table, op: LockOp)
    requires op.owner !in r.keys
    ensures forall k: Key, w :: w in r.keys && (k, w) in ElsewhereTable(r, t, op) ==> (k, w) in t
  {
  }

  predicate TouchesLocks(r: Request, step: Step, pc: PC)
    requires !step.Elsewhere? && step.w in r.keys
  {
    || (step.LockNext? && pc.Locking? && |pc.taken| < |r.keys[step.w]|)
    || (step.Undo? && pc.RollingBack? && 0 < pc.left <= |pc.taken|)
    || (step.Unlock? && pc.Unlocking? && 0 < pc.left <= |pc.taken|)
  }

  /** The steps that change the table. */
  lemma TouchingStep(r: Request, s: Exec, step: Step, pc: PC)
    requires !step.Elsewhere? && step.w in r.keys && TouchesLocks(r, step, pc)
    ensures step.LockNext? ==> WorkerStep(r, s, step, pc) == Attempt(r, s, step.w, pc.taken, step.now)
    ensures step.Undo? ==> WorkerStep(r, s, step, pc) == GiveBack(s, step.w, RollingBack(pc.taken, pc.left - 1))
    ensures step.Unlock? ==> WorkerStep(r, s, step, pc) == GiveBack(s, step.w, Unlocking(pc.taken, pc.left - 1))
  {
    hide Attempt, GiveBack;
  }

  lemma SpawnedIsQuiet(r: Request, s: Exec, w: string)
    requires w in s.pcs && s.pcs[w].Unspawned?
    ensures Quiet(s, Spawned(r, s, w), w)
  {
  }

  lemma BudgetedIsQuiet(r: Request, s: Exec, w: string)
    requires w in s.pcs && s.pcs[w].AtBudget?
    ensures Quiet(s, Budgeted(r, s, w), w)
  {
    hide Budget.Acquire;
  }

  lemma EarlyStepsQuiet(r: Request, s: Exec, step: Step)
    requires Early(step) && step.w in r.keys && s.pcs.Keys == r.keys.Keys
    ensures Quiet(s, WorkerStep(r, s, step, s.pcs[step.w]), step.w)
  {
    hide Spawned, Budgeted, Withdraw, LockStep, LateStep;
    var pc := s.pcs[step.w];
    if step.Spawn? && pc.Unspawned? {
      SpawnedIsQuiet(r, s, step.w);
    } else if step.TryBudget? && pc.AtBudget? {
      BudgetedIsQuiet(r, s, step.w);
    }
  }

  lemma LockStepsQuiet(r: Request, s: Exec, step: Step)
    requires TakesLocks(step) && step.w in r.keys && s.pcs.Keys == r.keys.Keys
    requires !TouchesLocks(r, step, s.pcs[step.w]) && Left(s.pcs[step.w]) >= 0
    ensures Quiet(s, WorkerStep(r, s, step, s.pcs[step.w]), step.w)
  {
    hide ResourceLocks.Acquire, Released, AcquireError, Normalize, Budgeted, TokenTaken, Spawned, EndedWrite, EarlyStep, LateStep, OnlyMoves;
    LockStepsMove(r, s, step);
  }

  lemma EndedIsQuiet(s: Exec, w: string, found: Results)
    requires w in s.pcs && IsWriting(s.pcs[w])
    ensures Quiet(s, EndedWrite(s, w, s.pcs[w], found), w)
  {
  }

  lemma LateStepsQuiet(r: Request, s: Exec, step: Step)
    requires !Early(step) && !TakesLocks(step) && !step.Elsewhere? && step.w in r.keys && s.pcs.Keys == r.keys.Keys
    requires !TouchesLocks(r, step, s.pcs[step.w]) && Left(s.pcs[step.w]) >= 0
    ensures Quiet(s, WorkerStep(r, s, step, s.pcs[step.w]), step.w)
  {
    hide Give, Released, EndedWrite, LockStep, EarlyStep;
    if step.EndWrite? && IsWriting(s.pcs[step.w]) {
      EndedIsQuiet(s, step.w, step.found);
    }
  }

  lemma OtherStepsQuiet(r: Request, s: Exec, step: Step)
    requires !step.Elsewhere? && step.w in r.keys && s.pcs.Keys == r.keys.Keys && !TouchesLocks(r, step, s.pcs[step.w])
    requires Left(s.pcs[step.w]) >= 0
    ensures Quiet(s, WorkerStep(r, s, step, s.pcs[step.w]), step.w)
  {
    hide WorkerStep;
    if Early(step) {
      EarlyStepsQuiet(r, s, step);
    } else if TakesLocks(step) {
      LockStepsQuiet(r, s, step);
    } else {
      LateStepsQuiet(r, s, step);
    }
  }

  lemma NextKeepsLocks(r: Request, s: Exec, step: Step)
    requires LockInv(s) && s.pcs.Keys == r.keys.Keys && Foreign(r, step)
    ensures LockInv(Next(r, s, step))
  {
    hide WorkerStep, Exclusive;
    if step.Elsewhere? {
      ElsewhereKeepsLocks(r, s, step.op);
    } else if step.w in r.keys {
      WorkerKeepsLocks(r, s, step, s.pcs[step.w]);
    }
  }

  lemma WorkerKeepsLocks(r: Request, s: Exec, step: Step, pc: PC)
    requires LockInv(s) && s.pcs.Keys == r.keys.Keys && !step.Elsewhere? && step.w in r.keys && pc == s.pcs[step.w]
    ensures LockInv(WorkerStep(r, s, step, pc))
  {
    hide WorkerStep, Exclusive, Attempt, GiveBack;
    var w := step.w;
    if !TouchesLocks(r, step, pc) {
      assert Returned(s.table, w, pc);
      OtherStepsQuiet(r, s, step);
      QuietKeepsLocks(s, WorkerStep(r, s, step, pc), w);
    } else {
      TouchingStep(r, s, step, pc);
      if step.LockNext? {
        AttemptKeepsLocks(r, s, w, pc.taken, step.now);
      } else if step.Undo? {
        GiveBackKeepsLocks(s, w, RollingBack(pc.taken, pc.left - 1));
      } else {
        GiveBackKeepsLocks(s, w, Unlocking(pc.taken, pc.left - 1));
      }
    }
  }

  // ---------------------------------------------------------------- the results

  predicate HasResult(pc: PC) {
    pc.Recorded? || pc.Signalling? || pc.Unlocking? || pc.Done?
  }

  /** A result is on record exactly for the workers past recording. */
  ghost predicate Complete(s: Exec) {
    forall w :: w in s.results <==> w in s.pcs && HasResult(s.pcs[w])
  }

  ghost predicate ResultInv(r: Request, s: Exec) {
    s.pcs.Keys == r.keys.Keys && (s.torn ==> s.raced) && (!s.raced ==> Complete(s))
  }

  predicate TouchesResults(step: Step, pc: PC) {
    (step.Spawn? && pc.Unspawned?) || (step.EndWrite? && IsWriting(pc))
  }

  /** Only `w` has moved, and the record of results is as it was. */
  predicate Unrecorded(s: Exec, s': Exec, w: string) {
    s'.results == s.results && s'.raced == s.raced && s'.torn == s.torn
    && OnlyMoves(s, s', w) && HasResult(s'.pcs[w]) == HasResult(s.pcs[w])
  }

  lemma EarlyStepsKeepResults(r: Request, s: Exec, step: Step)
    requires Early(step) && step.w in r.keys && s.pcs.Keys == r.keys.Keys && !TouchesResults(step, s.pcs[step.w])
    ensures Unrecorded(s, WorkerStep(r, s, step, s.pcs[step.w]), step.w)
  {
    hide Budget.Acquire, Withdraw, Give, Launched, Attempt, GiveBack, EndedWrite, LockStep, LateStep, OnlyMoves;
    EarlyStepsMove(r, s, step);
  }

  lemma LockStepsKeepResults(r: Request, s: Exec, step: Step)
    requires TakesLocks(step) && step.w in r.keys && s.pcs.Keys == r.keys.Keys && !TouchesResults(step, s.pcs[step.w])
    ensures Unrecorded(s, WorkerStep(r, s, step, s.pcs[step.w]), step.w)
  {
    hide Attempt, Released, EarlyStep, LateStep, OnlyMoves;
    LockStepsMove(r, s, step);
    var pc := s.pcs[step.w];
    if TouchesLocks(r, step, pc) && step.LockNext? {
      AttemptMoves(r, s, step.w, pc.taken, step.now);
      AttemptKeepsTheRest(r, s, step.w, pc.taken, step.now);
    }
  }

  lemma LateStepsKeepResults(r: Request, s: Exec, step: Step)
    requires !Early(step) && !TakesLocks(step) && !step.Elsewhere? && step.w in r.keys && s.pcs.Keys == r.keys.Keys
    requires !TouchesResults(step, s.pcs[step.w])
    ensures Unrecorded(s, WorkerStep(r, s, step, s.pcs[step.w]), step.w)
  {
    hide Give, Released, Attempt, Budgeted, TokenTaken, Spawned, LockStep, EarlyStep, OnlyMoves;
    LateStepsMove(r, s, step);
  }

  lemma UnrecordedKeepsResults(r: Request, s: Exec, s': Exec, w: string)
    requires ResultInv(r, s) && Unrecorded(s, s', w)
    ensures ResultInv(r, s')
  {
  }

  lemma RecordKeepsResults(r: Request, s: Exec, w: string, status: AgentRuns.AgentStatus, pc: PC)
    requires ResultInv(r, s) && w in s.pcs && !HasResult(s.pcs[w]) && HasResult(pc)
    ensures ResultInv(r, Record(s, w, status, pc))
    ensures !s.raced ==> w !in s.results
  {
  }

  lemma SpawnKeepsResults(r: Request, s: Exec, w: string)
    requires ResultInv(r, s) && w in s.pcs && s.pcs[w].Unspawned?
    ensures ResultInv(r, Spawned(r, s, w))
    ensures !Spawned(r, s, w).raced ==> ResultsStay(s, Spawned(r, s, w))
  {
    if w in r.refused {
      RecordKeepsResults(r, s.(spawned := s.spawned + 1), w, AgentRuns.Failed, Done([]));
    }
  }

  lemma EndKeepsResults(r: Request, s: Exec, w: string, found: Results)
    requires ResultInv(r, s) && w in s.pcs && IsWriting(s.pcs[w])
    ensures var s' := EndedWrite(s, w, s.pcs[w], found); ResultInv(r, s') && (!s'.raced ==> ResultsStay(s, s'))
  {
    var pc := s.pcs[w];
    if !s.torn {
      RecordKeepsResults(r, s.(busy := false, torn := false), w, WrittenStatus(pc), Written(pc));
    }
  }

  predicate ResultsStay(s: Exec, s': Exec) {
    forall w :: w in s.results ==> w in s'.results && s'.results[w] == s.results[w]
  }

  lemma TouchingStepKeepsResults(r: Request, s: Exec, step: Step)
    requires ResultInv(r, s) && !step.Elsewhere? && step.w in r.keys && TouchesResults(step, s.pcs[step.w])
    ensures var s' := WorkerStep(r, s, step, s.pcs[step.w]); ResultInv(r, s') && (!s'.raced ==> ResultsStay(s, s'))
  {
    hide Spawned, EndedWrite, Complete;
    if step.EndWrite? {
      EndKeepsResults(r, s, step.w, step.found);
    } else if SpawnsNext(r, s, step.w) {
      SpawnKeepsResults(r, s, step.w);
    }
  }

  lemma OtherStepsKeepResults(r: Request, s: Exec, step: Step)
    requires !step.Elsewhere? && step.w in r.keys && s.pcs.Keys == r.keys.Keys && !TouchesResults(step, s.pcs[step.w])
    ensures Unrecorded(s, WorkerStep(r, s, step, s.pcs[step.w]), step.w)
  {
    hide WorkerStep;
    if Early(step) {
      EarlyStepsKeepResults(r, s, step);
    } else if TakesLocks(step) {
      LockStepsKeepResults(r, s, step);
    } else {
      LateStepsKeepResults(r, s, step);
    }
  }

  lemma WorkerKeepsResults(r: Request, s: Exec, step: Step)
    requires ResultInv(r, s) && !step.Elsewhere? && step.w in r.keys
    ensures var s' := WorkerStep(r, s, step, s.pcs[step.w]); ResultInv(r, s') && (!s'.raced ==> ResultsStay(s, s'))
  {
    hide WorkerStep;
    var w, pc := step.w, s.pcs[step.w];
    if !TouchesResults(step, pc) {
      OtherStepsKeepResults(r, s, step);
      UnrecordedKeepsResults(r, s, WorkerStep(r, s, step, pc), w);
    } else {
      TouchingStepKeepsResults(r, s, step);
    }
  }

  /** Unless two writes race, every step keeps the record complete and never replaces a recorded result. */
  lemma NextKeepsResults(r: Request, s: Exec, step: Step)
    requires ResultInv(r, s)
    ensures ResultInv(r, Next(r, s, step)) && (!Next(r, s, step).raced ==> ResultsStay(s, Next(r, s, step)))
  {
    hide WorkerStep;
    if !step.Elsewhere? && step.w in r.keys {
      WorkerKeepsResults(r, s, step);
    }
  }

  // ---------------------------------------------------------------- the unlocked write of a failed spawn

  /** No refused worker is listed behind one that can be spawned. */
  predicate RefusedFirst(r: Request) {
    forall i, j :: 0 <= i < j < |r.order| && r.order[j] in r.refused ==> r.order[i] in r.refused
  }

  /** Before the first launch, nobody runs and nobody writes. */
  predicate BeforeLaunch(r: Request, s: Exec) {
    Launched(r, s.spawned) || (!s.busy && forall w :: w in s.pcs ==> s.pcs[w].Unspawned? || s.pcs[w].Done?)
  }

  lemma IdleStaysIdle(r: Request, s: Exec, step: Step, pc: PC)
    requires !step.Elsewhere? && !step.Spawn? && step.w in r.keys && (pc.Unspawned? || pc.Done?)
    ensures WorkerStep(r, s, step, pc) == s
  {
  }

  lemma SpawnKeepsBeforeLaunch(r: Request, s: Exec, w: string)
    requires BeforeLaunch(r, s) && SpawnsNext(r, s, w)
    ensures BeforeLaunch(r, Spawned(r, s, w))
  {
    if Launched(r, s.spawned) {
      var i :| 0 <= i < s.spawned && i < |r.order| && r.order[i] !in r.refused;
      assert i < s.spawned + 1;
    }
  }

  lemma SpawnedOnlyBySpawn(r: Request, s: Exec, step: Step)
    requires !step.Elsewhere? && !step.Spawn? && step.w in r.keys
    ensures WorkerStep(r, s, step, At(s, step.w)).spawned == s.spawned
    ensures s.raced == WorkerStep(r, s, step, At(s, step.w)).raced
  {
    hide ResourceLocks.Acquire, Budget.Acquire, Released, AcquireError, Withdraw, Give, Launched, Normalize;
  }

  lemma NextKeepsBeforeLaunch(r: Request, s: Exec, step: Step)
    requires BeforeLaunch(r, s)
    ensures BeforeLaunch(r, Next(r, s, step))
  {
    hide WorkerStep, Spawned;
    if !step.Elsewhere? && step.w in r.keys {
      if step.Spawn? {
        SpawnStep(r, s, step.w);
        if SpawnsNext(r, s, step.w) {
          SpawnKeepsBeforeLaunch(r, s, step.w);
        }
      } else if Launched(r, s.spawned) {
        SpawnedOnlyBySpawn(r, s, step);
      } else {
        IdleStaysIdle(r, s, step, At(s, step.w));
      }
    }
  }

  lemma SpawnStep(r: Request, s: Exec, w: string)
    requires w in r.keys
    ensures Next(r, s, Spawn(w)) == if At(s, w).Unspawned? && SpawnsNext(r, s, w) then Spawned(r, s, w) else s
  {
    hide Spawned;
  }

  lemma StepDoesNotRace(r: Request, s: Exec, step: Step)
    requires RefusedFirst(r) && BeforeLaunch(r, s) && !s.raced
    ensures !Next(r, s, step).raced
  {
    hide WorkerStep;
    if !step.Elsewhere? && step.w in r.keys {
      if step.Spawn? {
        SpawnStep(r, s, step.w);
      } else {
        SpawnedOnlyBySpawn(r, s, step);
      }
    }
  }

  lemma {:induction false} NeverRaces(r: Request, table: Table, steps: seq<Step>)
    requires RefusedFirst(r)
    ensures !After(r, table, steps).raced && BeforeLaunch(r, After(r, table, steps))
  {
    hide Next;
    if steps != [] {
      var s := After(r, table, steps[..|steps| - 1]);
      NeverRaces(r, table, steps[..|steps| - 1]);
      StepDoesNotRace(r, s, steps[|steps| - 1]);
      NextKeepsBeforeLaunch(r, s, steps[|steps| - 1]);
    }
  }

  // ---------------------------------------------------------------- one write at a time

  /** The lock of the results is held exactly while one worker writes. */
  ghost predicate OneWriter(s: Exec) {
    && (forall v, w :: v in s.pcs && w in s.pcs && IsWriting(s.pcs[v]) && IsWriting(s.pcs[w]) ==> v == w)
    && (s.busy <==> exists w :: w in s.pcs && IsWriting(s.pcs[w]))
  }

  /** A step starts a write, ends one, or leaves the lock and the writers alone. */
  predicate LockMove(s: Exec, s': Exec, w: string) {
    OnlyMoves(s, s', w) &&
    (|| (s'.busy == s.busy && IsWriting(s'.pcs[w]) == IsWriting(s.pcs[w]))
     || (!s.busy && s'.busy && IsWriting(s'.pcs[w]))
     || (IsWriting(s.pcs[w]) && !s'.busy && !IsWriting(s'.pcs[w])))
  }

  lemma EarlyLockMove(r: Request, s: Exec, step: Step)
    requires Early(step) && step.w in r.keys && s.pcs.Keys == r.keys.Keys
    ensures LockMove(s, WorkerStep(r, s, step, s.pcs[step.w]), step.w)
  {
    hide Budget.Acquire, Withdraw, Give, Launched, Attempt, GiveBack, EndedWrite, LockStep, LateStep, OnlyMoves;
    EarlyStepsMove(r, s, step);
  }

  lemma LocksLockMove(r: Request, s: Exec, step: Step)
    requires TakesLocks(step) && step.w in r.keys && s.pcs.Keys == r.keys.Keys
    ensures LockMove(s, WorkerStep(r, s, step, s.pcs[step.w]), step.w)
  {
    hide ResourceLocks.Acquire, Released, AcquireError, Normalize, Budgeted, TokenTaken, Spawned, EndedWrite, EarlyStep, LateStep, OnlyMoves;
    LockStepsMove(r, s, step);
  }

  lemma LateLockMove(r: Request, s: Exec, step: Step)
    requires !Early(step) && !TakesLocks(step) && !step.Elsewhere? && step.w in r.keys && s.pcs.Keys == r.keys.Keys
    ensures LockMove(s, WorkerStep(r, s, step, s.pcs[step.w]), step.w)
  {
    hide Give, Released, Attempt, Budgeted, TokenTaken, Spawned, LockStep, EarlyStep, OnlyMoves;
    LateStepsMove(r, s, step);
  }

  lemma LockMoveKeepsOneWriter(s: Exec, s': Exec, w: string)
    requires OneWriter(s) && LockMove(s, s', w)
    ensures OneWriter(s')
  {
    assert forall v :: v != w && v in s'.pcs ==> v in s.pcs && s'.pcs[v] == s.pcs[v];
    if v :| v in s.pcs && IsWriting(s.pcs[v]) && v != w {
      assert v in s'.pcs && IsWriting(s'.pcs[v]);
    }
  }

  /** In every interleaving at most one worker writes its result, and the lock is held exactly meanwhile. */
  lemma {:induction false} OneWriterAlways(r: Request, table: Table, steps: seq<Step>)
    ensures OneWriter(After(r, table, steps)) && After(r, table, steps).pcs.Keys == r.keys.Keys
  {
    hide WorkerStep, OneWriter, LockMove;
    if steps == [] {
      NobodyWrites(r, table);
    } else {
      var s, step := After(r, table, steps[..|steps| - 1]), steps[|steps| - 1];
      OneWriterAlways(r, table, steps[..|steps| - 1]);
      if !step.Elsewhere? && step.w in r.keys {
        OneStepOneWriter(r, s, step);
      } else {
        SamePlacesOneWriter(s, Next(r, s, step));
      }
    }
  }

  lemma NobodyWrites(r: Request, table: Table)
    ensures OneWriter(Start(r, table))
  {
  }

  lemma SamePlacesOneWriter(s: Exec, s': Exec)
    requires OneWriter(s) && s'.pcs == s.pcs && s'.busy == s.busy
    ensures OneWriter(s')
  {
  }

  lemma OneStepOneWriter(r: Request, s: Exec, step: Step)
    requires OneWriter(s) && s.pcs.Keys == r.keys.Keys && !step.Elsewhere? && step.w in r.keys
    ensures var s' := WorkerStep(r, s, step, s.pcs[step.w]); OneWriter(s') && s'.pcs.Keys == r.keys.Keys
  {
    hide WorkerStep, OneWriter;
    if Early(step) {
      EarlyLockMove(r, s, step);
    } else if TakesLocks(step) {
      LocksLockMove(r, s, step);
    } else {
      LateLockMove(r, s, step);
    }
    LockMoveKeepsOneWriter(s, WorkerStep(r, s, step, s.pcs[step.w]), step.w);
  }

  // ---------------------------------------------------------------- every run of one execution

  lemma StartInv(r: Request, table: Table)
    requires r.budget >= 1 && Exclusive(table)
    ensures var s := Start(r, table); BudgetInv(r, s) && LockInv(s) && ResultInv(r, s)
  {
  }

  lemma AttemptIsExclusive(r: Request, s: Exec, w: string, taken: seq<Key>, now: int)
    requires Exclusive(s.table) && w in r.keys && w in s.pcs && |taken| < |r.keys[w]|
    ensures Exclusive(Attempt(r, s, w, taken, now).table)
  {
    AttemptMoves(r, s, w, taken, now);
    AcquireKeepsExclusive(s.table, r.ttl, Normalize(r.keys[w][|taken|]), w, now);
  }

  lemma ReleaseIsExclusive(t: Table, key: Key, owner: string)
    requires Exclusive(t)
    ensures Exclusive(Released(t, key, owner))
  {
  }

  lemma NextKeepsExclusive(r: Request, s: Exec, step: Step)
    requires Exclusive(s.table) && s.pcs.Keys == r.keys.Keys && (step.Elsewhere? || step.w !in r.keys || 0 <= Left(s.pcs[step.w]))
    ensures Exclusive(Next(r, s, step).table)
  {
    hide WorkerStep, Exclusive, Attempt, Released;
    if step.Elsewhere? {
      ElsewhereIsExclusive(r, s.table, step.op);
    } else if step.w in r.keys {
      var pc := s.pcs[step.w];
      if !TouchesLocks(r, step, pc) {
        OtherStepsQuiet(r, s, step);
      } else {
        TouchingStep(r, s, step, pc);
        if step.LockNext? {
          AttemptIsExclusive(r, s, step.w, pc.taken, step.now);
        } else {
          ReleaseIsExclusive(s.table, pc.taken[pc.left - 1], step.w);
        }
      }
    }
  }

  /**
   In every interleaving: the budget is kept, no two leases conflict, results are complete unless the
   loop wrote into a write, and released keys stay released unless a worker's name was used from outside.
   */
  lemma {:induction false} InvAlways(r: Request, table: Table, steps: seq<Step>)
    requires r.budget >= 1 && Exclusive(table)
    ensures var s := After(r, table, steps);
      BudgetInv(r, s) && Exclusive(s.table) && ResultInv(r, s) && (AllForeign(r, steps) ==> LockInv(s))
  {
    hide WorkerStep, Complete, BudgetInv, Exclusive, Returned;
    if steps == [] {
      StartInv(r, table);
    } else {
      var before, step := steps[..|steps| - 1], steps[|steps| - 1];
      var s := After(r, table, before);
      InvAlways(r, table, before);
      NextKeepsBudget(r, s, step);
      NextKeepsResults(r, s, step);
      NextKeepsExclusive(r, s, step);
      if AllForeign(r, steps) {
        assert AllForeign(r, before) && Foreign(r, step);
        NextKeepsLocks(r, s, step);
      }
    }
  }

  function Executing(s: Exec): set<string> {
    set w | w in s.pcs && HoldsSlot(s.pcs[w])
  }

  lemma SubsetSize(a: set<string>, b: set<string>)
    requires a <= b
    ensures |a| <= |b|
  {
    assert |b - a| >= 0 && a + (b - a) == b;
  }

  /** At most `budget` workers are between acquiring and releasing their slot, in every interleaving. */
  lemma NeverOverBudget(r: Request, table: Table, steps: seq<Step>)
    requires r.budget >= 1 && Exclusive(table)
    ensures var s := After(r, table, steps); Executing(s) <= s.mission.running && |Executing(s)| <= r.budget
  {
    InvAlways(r, table, steps);
    var s := After(r, table, steps);
    SubsetSize(Executing(s), s.mission.running);
  }

  predicate AllReturned(s: Exec) {
    forall w :: w in s.pcs ==> s.pcs[w].Done?
  }

  lemma BudgetIsFree(r: Request, s: Exec)
    requires BudgetInv(r, s) && AllReturned(s)
    ensures s.mission == IDLE_MISSION
  {
    assert forall w :: w !in s.mission.running;
    assert forall q :: q !in s.mission.queue;
    FirstIsIn(s.mission.queue);
  }

  lemma FirstIsIn(queue: seq<string>)
    ensures queue != [] ==> queue[0] in queue
  {
  }

  lemma LocksAreFree(s: Exec)
    requires LockInv(s) && AllReturned(s)
    ensures forall w, i :: w in s.pcs && 0 <= i < |s.pcs[w].taken| ==> (s.pcs[w].taken[i], w) !in s.table
  {
    hide Exclusive, Normalize;
    forall w, i | w in s.pcs && 0 <= i < |s.pcs[w].taken| ensures (s.pcs[w].taken[i], w) !in s.table {
      assert Returned(s.table, w, s.pcs[w]);
    }
  }

  // ---------------------------------------------------------------- what the workers hold

  /** The taken keys are the requested ones in order, normalised; a running worker has taken them all. */
  predicate Fits(keys: seq<Key>, pc: PC) {
    && Left(pc) <= |Taken(pc)| <= |keys|
    && (forall i :: 0 <= i < |Taken(pc)| ==> Taken(pc)[i] == Normalize(keys[i]))
    && (pc.Running? ==> |Taken(pc)| == |keys|)
  }

  predicate AllFit(r: Request, s: Exec) {
    s.pcs.Keys == r.keys.Keys && forall w :: w in s.pcs ==> Fits(r.keys[w], s.pcs[w])
  }

  lemma QuietFits(r: Request, s: Exec, step: Step)
    requires !step.Elsewhere? && step.w in r.keys && AllFit(r, s) && !TouchesLocks(r, step, s.pcs[step.w])
    requires Quiet(s, WorkerStep(r, s, step, s.pcs[step.w]), step.w)
    ensures AllFit(r, WorkerStep(r, s, step, s.pcs[step.w]))
  {
    OnlyAllRun(r, s, step);
  }

  /** A worker starts to run when it has taken as many keys as it requested. */
  lemma OnlyAllRun(r: Request, s: Exec, step: Step)
    requires !step.Elsewhere? && step.w in r.keys && step.w in s.pcs && |Taken(s.pcs[step.w])| <= |r.keys[step.w]|
    requires s.pcs[step.w].Running? ==> |Taken(s.pcs[step.w])| == |r.keys[step.w]|
    ensures var pc := At(WorkerStep(r, s, step, s.pcs[step.w]), step.w);
      pc.Running? ==> |Taken(pc)| == |r.keys[step.w]|
  {
    hide EarlyStep, LockStep, LateStep;
    if Early(step) {
      EarlyStepsDoNotRun(r, s, step);
    } else if TakesLocks(step) {
      LockStepsRunAll(r, s, step);
    } else {
      LateStepsDoNotRun(r, s, step);
    }
  }

  lemma EarlyStepsDoNotRun(r: Request, s: Exec, step: Step)
    requires Early(step) && step.w in r.keys && step.w in s.pcs
    ensures var s' := EarlyStep(r, s, step, s.pcs[step.w]); At(s', step.w).Running? ==> s' == s
  {
    hide Budget.Acquire, Withdraw, Launched;
  }

  lemma LockStepsRunAll(r: Request, s: Exec, step: Step)
    requires TakesLocks(step) && step.w in r.keys && step.w in s.pcs && |Taken(s.pcs[step.w])| <= |r.keys[step.w]|
    ensures var s' := LockStep(r, s, step, s.pcs[step.w]); var pc := At(s', step.w);
      pc.Running? ==> s' == s || |Taken(pc)| == |r.keys[step.w]|
  {
    hide ResourceLocks.Acquire, Released, AcquireError, Normalize;
  }

  lemma LateStepsDoNotRun(r: Request, s: Exec, step: Step)
    requires !Early(step) && !TakesLocks(step) && !step.Elsewhere? && step.w in r.keys && step.w in s.pcs
    ensures var s' := LateStep(r, s, step, s.pcs[step.w]); At(s', step.w).Running? ==> s' == s
  {
    hide Give, Released;
  }

  lemma LongerFits(keys: seq<Key>, taken: seq<Key>)
    requires Fits(keys, Locking(taken)) && |taken| < |keys|
    ensures Fits(keys, Locking(taken + [Normalize(keys[|taken|])])) && Fits(keys, RollingBack(taken, |taken|))
  {
    hide Normalize;
  }

  lemma AttemptFits(r: Request, s: Exec, w: string, taken: seq<Key>, now: int)
    requires AllFit(r, s) && w in r.keys && s.pcs[w] == Locking(taken) && |taken| < |r.keys[w]|
    ensures AllFit(r, Attempt(r, s, w, taken, now))
  {
    hide Attempt, Fits, Normalize;
    AttemptMoves(r, s, w, taken, now);
    LongerFits(r.keys[w], taken);
  }

  lemma GiveBackFits(r: Request, s: Exec, w: string, pc: PC)
    requires AllFit(r, s) && w in s.pcs && (pc.RollingBack? || pc.Unlocking?) && pc.left < |pc.taken|
    requires Taken(s.pcs[w]) == pc.taken
    ensures AllFit(r, GiveBack(s, w, pc))
  {
    hide Normalize, Released;
  }

  lemma NextFits(r: Request, s: Exec, step: Step)
    requires AllFit(r, s) && (forall w :: w in s.pcs ==> 0 <= Left(s.pcs[w]))
    ensures AllFit(r, Next(r, s, step))
  {
    hide WorkerStep, Fits, Attempt, GiveBack;
    if !step.Elsewhere? && step.w in r.keys {
      var w, pc := step.w, s.pcs[step.w];
      if !TouchesLocks(r, step, pc) {
        OtherStepsQuiet(r, s, step);
        QuietFits(r, s, step);
      } else {
        TouchingStep(r, s, step, pc);
        if step.LockNext? {
          AttemptFits(r, s, w, pc.taken, step.now);
        } else if step.Undo? {
          GiveBackFits(r, s, w, RollingBack(pc.taken, pc.left - 1));
        } else {
          GiveBackFits(r, s, w, Unlocking(pc.taken, pc.left - 1));
        }
      }
    }
  }

  lemma LeftIsNat(s: Exec)
    ensures forall w :: w in s.pcs ==> 0 <= Left(s.pcs[w])
  {
  }

  lemma {:induction false} FitsAlways(r: Request, table: Table, steps: seq<Step>)
    ensures AllFit(r, After(r, table, steps))
  {
    if steps != [] {
      var before := steps[..|steps| - 1];
      FitsAlways(r, table, before);
      LeftIsNat(After(r, table, before));
      NextFits(r, After(r, table, before), steps[|steps| - 1]);
    }
  }

  /** Every lease of a worker is on a key it took and has yet to release. */
  ghost predicate OwnInv(r: Request, s: Exec) {
    forall k: Key, w :: (k, w) in s.table && w in s.pcs ==> Owns(s.pcs[w], k)
  }

  predicate Owns(pc: PC, k: Key) {
    exists j :: 0 <= j < Left(pc) && j < |Taken(pc)| && Taken(pc)[j] == k
  }

  lemma QuietKeepsOwn(r: Request, s: Exec, s': Exec, w: string)
    requires OwnInv(r, s) && Quiet(s, s', w)
    ensures OwnInv(r, s')
  {
    forall k: Key, v | (k, v) in s'.table && v in s'.pcs ensures Owns(s'.pcs[v], k) {
      assert Owns(s.pcs[v], k);
    }
  }

  lemma LongerOwns(taken: seq<Key>, key: Key, k: Key)
    requires Owns(Locking(taken), k) || k == key
    ensures Owns(Locking(taken + [key]), k)
  {
    if k == key {
      assert Taken(Locking(taken + [key]))[|taken|] == k;
    } else {
      var j :| 0 <= j < |taken| && taken[j] == k;
      assert Taken(Locking(taken + [key]))[j] == k;
    }
  }

  lemma RollingOwns(taken: seq<Key>, k: Key)
    requires Owns(Locking(taken), k)
    ensures Owns(RollingBack(taken, |taken|), k)
  {
    var j :| 0 <= j < |taken| && taken[j] == k;
    assert Taken(RollingBack(taken, |taken|))[j] == k;
  }

  lemma AttemptGrants(r: Request, s: Exec, w: string, taken: seq<Key>, now: int)
    requires w in r.keys && w in s.pcs && |taken| < |r.keys[w]|
    ensures var s' := Attempt(r, s, w, taken, now); var key := Normalize(r.keys[w][|taken|]);
      forall k: Key, v :: (k, v) in s'.table && (k, v) !in s.table ==> k == key && v == w && s'.pcs[w] == Locking(taken + [key])
  {
  }

  lemma AttemptKeepsOwn(r: Request, s: Exec, w: string, taken: seq<Key>, now: int)
    requires OwnInv(r, s) && w in r.keys && w in s.pcs && s.pcs[w] == Locking(taken) && |taken| < |r.keys[w]|
    ensures OwnInv(r, Attempt(r, s, w, taken, now))
  {
    hide Attempt, Owns;
    var s', key := Attempt(r, s, w, taken, now), Normalize(r.keys[w][|taken|]);
    AttemptMoves(r, s, w, taken, now);
    AttemptGrants(r, s, w, taken, now);
    forall k: Key, v | (k, v) in s'.table && v in s'.pcs ensures Owns(s'.pcs[v], k) {
      if (k, v) in s.table {
        assert Owns(s.pcs[v], k);
      }
      if v == w {
        if s'.pcs[w] == Locking(taken + [key]) {
          LongerOwns(taken, key, k);
        } else {
          RollingOwns(taken, k);
        }
      }
    }
  }

  lemma GiveBackKeepsOwn(r: Request, s: Exec, w: string, pc: PC)
    requires OwnInv(r, s) && w in s.pcs && (pc.RollingBack? || pc.Unlocking?) && pc.left < |pc.taken|
    requires Taken(s.pcs[w]) == pc.taken && Left(s.pcs[w]) == pc.left + 1 && NormalKeys(pc.taken)
    ensures OwnInv(r, GiveBack(s, w, pc))
  {
    hide Normalize;
    var s' := GiveBack(s, w, pc);
    assert Normalize(pc.taken[pc.left]) == pc.taken[pc.left];
    forall k: Key, v | (k, v) in s'.table && v in s'.pcs ensures Owns(s'.pcs[v], k) {
      assert Owns(s.pcs[v], k);
      if v == w {
        var j :| 0 <= j < Left(s.pcs[w]) && j < |pc.taken| && pc.taken[j] == k;
        assert j != pc.left && Taken(pc)[j] == k;
      }
    }
  }

  lemma ElsewhereKeepsOwn(r: Request, s: Exec, op: LockOp)
    requires OwnInv(r, s) && s.pcs.Keys == r.keys.Keys && op.owner !in r.keys
    ensures OwnInv(r, Next(r, s, Elsewhere(op)))
  {
    ElsewhereIsForeign(r, s.table, op);
  }

  lemma NextKeepsOwn(r: Request, s: Exec, step: Step)
    requires OwnInv(r, s) && LockInv(s) && s.pcs.Keys == r.keys.Keys && Foreign(r, step)
    ensures OwnInv(r, Next(r, s, step))
  {
    if step.Elsewhere? {
      ElsewhereKeepsOwn(r, s, step.op);
    } else if step.w in r.keys {
      WorkerKeepsOwn(r, s, step, s.pcs[step.w]);
    }
  }

  lemma WorkerKeepsOwn(r: Request, s: Exec, step: Step, pc: PC)
    requires OwnInv(r, s) && LockInv(s) && s.pcs.Keys == r.keys.Keys && !step.Elsewhere? && step.w in r.keys
    requires pc == s.pcs[step.w]
    ensures OwnInv(r, WorkerStep(r, s, step, pc))
  {
    hide WorkerStep, OwnInv, Exclusive, Attempt, GiveBack;
    var w := step.w;
    assert Returned(s.table, w, pc);
    if !TouchesLocks(r, step, pc) {
      OtherStepsQuiet(r, s, step);
      QuietKeepsOwn(r, s, WorkerStep(r, s, step, pc), w);
    } else {
      TouchingStep(r, s, step, pc);
      if step.LockNext? {
        AttemptKeepsOwn(r, s, w, pc.taken, step.now);
      } else if step.Undo? {
        GiveBackKeepsOwn(r, s, w, RollingBack(pc.taken, pc.left - 1));
      } else {
        GiveBackKeepsOwn(r, s, w, Unlocking(pc.taken, pc.left - 1));
      }
    }
  }

  lemma {:induction false} OwnAlways(r: Request, table: Table, steps: seq<Step>)
    requires r.budget >= 1 && Exclusive(table) && AllForeign(r, steps) && CleanStart(r, table)
    ensures OwnInv(r, After(r, table, steps))
  {
    hide Next, LockInv, Exclusive, BudgetInv, Complete;
    if steps != [] {
      var before := steps[..|steps| - 1];
      assert AllForeign(r, before) && Foreign(r, steps[|steps| - 1]);
      OwnAlways(r, table, before);
      InvAlways(r, table, before);
      NextKeepsOwn(r, After(r, table, before), steps[|steps| - 1]);
    }
  }

  lemma NothingOwned(r: Request, s: Exec)
    requires OwnInv(r, s) && s.pcs.Keys == r.keys.Keys && AllReturned(s)
    ensures CleanStart(r, s.table)
  {
    forall l | l in s.table && l.1 in r.keys ensures false {
      DoneOwnsNothing(s.pcs[l.1], l.0);
    }
  }

  lemma DoneOwnsNothing(pc: PC, k: Key)
    requires pc.Done?
    ensures !Owns(pc, k)
  {
  }

  /** No worker holds a lease when the execution starts. */
  predicate CleanStart(r: Request, table: Table) {
    forall l :: l in table ==> l.1 !in r.keys
  }

  /**
   When all workers have returned, nobody runs or waits in the budget; unless the loop could write into a write every
   worker has its result; and unless a worker's name is used from outside, no key it took is still
   leased to it, and if it held nothing before it holds nothing now.
   */
  lemma NothingIsLeft(r: Request, table: Table, steps: seq<Step>)
    requires r.budget >= 1 && Exclusive(table) && AllReturned(After(r, table, steps))
    ensures var s := After(r, table, steps);
      && s.mission == IDLE_MISSION
      && (RefusedFirst(r) ==> s.results.Keys == r.keys.Keys)
      && (AllForeign(r, steps) ==>
            (forall w, i :: w in s.pcs && 0 <= i < |s.pcs[w].taken| ==> (s.pcs[w].taken[i], w) !in s.table))
      && (AllForeign(r, steps) && CleanStart(r, table) ==> CleanStart(r, s.table))
  {
    hide After, BudgetInv, Exclusive, Returned, OwnInv;
    InvAlways(r, table, steps);
    var s := After(r, table, steps);
    BudgetIsFree(r, s);
    if RefusedFirst(r) {
      NeverRaces(r, table, steps);
      assert s.results.Keys == r.keys.Keys by {
        assert Complete(s);
      }
    }
    if AllForeign(r, steps) {
      LocksAreFree(s);
      if CleanStart(r, table) {
        OwnAlways(r, table, steps);
        NothingOwned(r, s);
      }
    }
  }

  // ---------------------------------------------------------------- mutual exclusion

  /** No lease expires at this step. */
  predicate Timely(s: Exec, step: Step) {
    match step
    case LockNext(_, now) => Purged(s.table, now) == s.table
    case Elsewhere(LockAcquire(_, _, now)) => Purged(s.table, now) == s.table
    case _ => true
  }

  predicate Holding(pc: PC) {
    pc.Locking? || pc.Running?
  }

  /** A worker that is locking or running holds everything it took. */
  predicate HeldInv(s: Exec) {
    forall w, i :: w in s.pcs && Holding(s.pcs[w]) && 0 <= i < |s.pcs[w].taken| ==> (s.pcs[w].taken[i], w) in s.table
  }

  lemma ElsewhereKeepsHeld(r: Request, s: Exec, op: LockOp)
    requires HeldInv(s) && s.pcs.Keys == r.keys.Keys && op.owner !in r.keys && Timely(s, Elsewhere(op))
    ensures HeldInv(Next(r, s, Elsewhere(op)))
  {
    var t := ElsewhereTable(r, s.table, op);
    forall w, i | w in s.pcs && Holding(s.pcs[w]) && 0 <= i < |s.pcs[w].taken| ensures (s.pcs[w].taken[i], w) in t {
      assert (s.pcs[w].taken[i], w) in s.table;
    }
  }

  /** Who holds after a step without locks held before it, or has taken nothing. */
  lemma HoldersHeld(r: Request, s: Exec, step: Step)
    requires !step.Elsewhere? && step.w in r.keys && step.w in s.pcs && !TouchesLocks(r, step, s.pcs[step.w])
    ensures var pc := At(WorkerStep(r, s, step, s.pcs[step.w]), step.w);
      Holding(pc) ==> Holding(s.pcs[step.w]) || Taken(pc) == []
  {
    hide ResourceLocks.Acquire, Released, AcquireError, Normalize, Budget.Acquire, Withdraw, Give, Launched;
  }

  lemma QuietKeepsHeld(s: Exec, s': Exec, w: string)
    requires HeldInv(s) && Quiet(s, s', w) && (Holding(s'.pcs[w]) ==> Holding(s.pcs[w]) || Taken(s'.pcs[w]) == [])
    ensures HeldInv(s')
  {
    forall v, i | v in s'.pcs && Holding(s'.pcs[v]) && 0 <= i < |s'.pcs[v].taken| ensures (s'.pcs[v].taken[i], v) in s'.table {
      assert Holding(s.pcs[v]) && s.pcs[v].taken == s'.pcs[v].taken;
    }
  }

  lemma GiveBackKeepsHeld(s: Exec, w: string, pc: PC)
    requires HeldInv(s) && w in s.pcs && (pc.RollingBack? || pc.Unlocking?) && pc.left < |pc.taken|
    ensures HeldInv(GiveBack(s, w, pc))
  {
    var s' := GiveBack(s, w, pc);
    forall v, i | v in s'.pcs && Holding(s'.pcs[v]) && 0 <= i < |s'.pcs[v].taken| ensures (s'.pcs[v].taken[i], v) in s'.table {
      assert v != w && (s.pcs[v].taken[i], v) in s.table;
    }
  }

  lemma NextKeepsHeld(r: Request, s: Exec, step: Step)
    requires HeldInv(s) && s.pcs.Keys == r.keys.Keys && Timely(s, step) && Foreign(r, step)
    requires forall w :: w in s.pcs ==> 0 <= Left(s.pcs[w])
    ensures HeldInv(Next(r, s, step))
  {
    hide WorkerStep, HeldInv, Attempt, GiveBack;
    if step.Elsewhere? {
      ElsewhereKeepsHeld(r, s, step.op);
    } else if step.w in r.keys {
      var w, pc := step.w, s.pcs[step.w];
      if !TouchesLocks(r, step, pc) {
        OtherStepsQuiet(r, s, step);
        HoldersHeld(r, s, step);
        QuietKeepsHeld(s, WorkerStep(r, s, step, pc), w);
      } else {
        TouchingStep(r, s, step, pc);
        if step.LockNext? {
          AttemptKeepsHeld(r, s, w, pc.taken, step.now);
        } else if step.Undo? {
          GiveBackKeepsHeld(s, w, RollingBack(pc.taken, pc.left - 1));
        } else {
          GiveBackKeepsHeld(s, w, Unlocking(pc.taken, pc.left - 1));
        }
      }
    }
  }

  lemma AttemptKeepsHeld(r: Request, s: Exec, w: string, taken: seq<Key>, now: int)
    requires HeldInv(s) && w in r.keys && w in s.pcs && s.pcs[w] == Locking(taken) && |taken| < |r.keys[w]|
    requires Purged(s.table, now) == s.table
    ensures HeldInv(Attempt(r, s, w, taken, now))
  {
    hide Normalize;
    var s' := Attempt(r, s, w, taken, now);
    forall v, i | v in s'.pcs && Holding(s'.pcs[v]) && 0 <= i < |s'.pcs[v].taken| ensures (s'.pcs[v].taken[i], v) in s'.table {
      if v != w || i < |taken| {
        assert Holding(s.pcs[v]) && s'.pcs[v].taken[i] == s.pcs[v].taken[i];
        assert (s.pcs[v].taken[i], v) in s.table;
      }
    }
  }

  ghost predicate AllTimely(r: Request, table: Table, steps: seq<Step>) {
    steps == [] ||
    (AllTimely(r, table, steps[..|steps| - 1]) && Timely(After(r, table, steps[..|steps| - 1]), steps[|steps| - 1]))
  }

  lemma {:induction false} HeldAlways(r: Request, table: Table, steps: seq<Step>)
    requires r.budget >= 1 && Exclusive(table) && AllTimely(r, table, steps) && AllForeign(r, steps)
    ensures HeldInv(After(r, table, steps))
  {
    hide Next, LockInv, Exclusive, Complete, Timely;
    if steps != [] {
      var before := steps[..|steps| - 1];
      assert AllForeign(r, before) && Foreign(r, steps[|steps| - 1]);
      HeldAlways(r, table, before);
      InvAlways(r, table, before);
      LeftIsNat(After(r, table, before));
      NextKeepsHeld(r, After(r, table, before), steps[|steps| - 1]);
    }
  }

  /**
   While no lease expires and no worker's name is used from outside, two workers never run with
   conflicting requests.
   */
  lemma NoConflictingRunners(r: Request, table: Table, steps: seq<Step>, v: string, w: string, i: nat, j: nat)
    requires r.budget >= 1 && Exclusive(table) && AllTimely(r, table, steps) && AllForeign(r, steps)
    requires v in r.keys && w in r.keys && v != w && i < |r.keys[v]| && j < |r.keys[w]|
    requires At(After(r, table, steps), v).Running? && At(After(r, table, steps), w).Running?
    ensures !Conflict(Normalize(r.keys[v][i]), Normalize(r.keys[w][j]))
  {
    hide After, BudgetInv, LockInv, Complete;
    HeldAlways(r, table, steps);
    InvAlways(r, table, steps);
    FitsAlways(r, table, steps);
    var s := After(r, table, steps);
    assert Fits(r.keys[v], s.pcs[v]) && Fits(r.keys[w], s.pcs[w]);
    var a, b := (s.pcs[v].taken[i], v), (s.pcs[w].taken[j], w);
    assert a in s.table && b in s.table && a != b;
  }

  /** A release under a running worker's name takes its lease away while it runs. */
  lemma OutsiderTakesLease(r: Request, s: Exec, w: string, i: nat)
    requires w in r.keys && AllFit(r, s) && s.pcs[w].Running? && i < |s.pcs[w].taken|
    ensures var s' := Next(r, s, Elsewhere(LockRelease(r.keys[w][i], w)));
      w in s'.pcs && s'.pcs[w] == s.pcs[w] && (s.pcs[w].taken[i], w) !in s'.table
  {
    assert Fits(r.keys[w], s.pcs[w]);
  }

  // ---------------------------------------------------------------- around the workers

  datatype Worker = Worker(agentID: string, hasConfig: bool)

  /** The request is accepted if and only if every worker is named, configured and listed once. */
  method ValidateWorkers(workers: seq<Worker>) returns (ok: bool)
    ensures ok <==>
      && (forall i :: 0 <= i < |workers| ==> workers[i].agentID != "" && workers[i].hasConfig)
      && (forall i, j :: 0 <= i < j < |workers| ==> workers[i].agentID != workers[j].agentID)
  {
    var seen: set<string> := {};
    var i := 0;
    while i < |workers|
      invariant 0 <= i <= |workers|
      invariant seen == set j | 0 <= j < i :: workers[j].agentID
      invariant forall j :: 0 <= j < i ==> workers[j].agentID != "" && workers[j].hasConfig
      invariant forall j, k :: 0 <= j < k < i ==> workers[j].agentID != workers[k].agentID
    {
      if workers[i].agentID == "" || !workers[i].hasConfig || workers[i].agentID in seen {
        return false;
      }
      seen := seen + {workers[i].agentID};
      i := i + 1;
    }
    return true;
  }

  /** Splits the recorded workers into succeeded and failed, in any order: each is in exactly one list, once. */
  method Partition(results: map<string, AgentRuns.AgentStatus>) returns (succeeded: seq<string>, failed: seq<string>)
    ensures multiset(succeeded) == multiset(set w | w in results && results[w] == AgentRuns.Completed)
    ensures multiset(failed) == multiset(set w | w in results && results[w] != AgentRuns.Completed)
  {
    succeeded, failed := [], [];
    var rest := results.Keys;
    while rest != {}
      invariant rest <= results.Keys
      invariant multiset(succeeded) == multiset(set w | w in results && w !in rest && results[w] == AgentRuns.Completed)
      invariant multiset(failed) == multiset(set w | w in results && w !in rest && results[w] != AgentRuns.Completed)
      decreases rest
    {
      var w :| w in rest;
      if results[w] == AgentRuns.Completed {
        succeeded := succeeded + [w];
      } else {
        failed := failed + [w];
      }
      rest := rest - {w};
    }
  }
}
