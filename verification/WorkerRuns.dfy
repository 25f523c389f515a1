/**
 Runs of a parallel execution: what the spawning loop does alone, and how one worker gets from its slot
 to its write and on to its return by its own steps.
 */
module WorkerRuns {
  import opened Wrappers
  import opened Budget
  import opened ResourceLocks
  import opened ParallelExecute
  import AgentRuns

  /** The request as it is after validation: every worker is listed once. */
  ghost predicate WellFormed(r: Request) {
    NoRepeats(r.order) && (forall w :: w in r.keys <==> w in r.order)
  }

  /** Nobody is cancelled while waiting for a slot. */
  predicate NoCancel(steps: seq<Step>) {
    forall i :: 0 <= i < |steps| ==> !steps[i].ContextDone?
  }

  lemma OneStepMore(r: Request, table: Table, steps: seq<Step>, step: Step)
    ensures After(r, table, steps + [step]) == Next(r, After(r, table, steps), step)
  {
    hide Next;
    assert (steps + [step])[..|steps|] == steps;
  }

  // ---------------------------------------------------------------- the spawning loop alone

  function SpawnAll(r: Request, n: nat): seq<Step>
    requires n <= |r.order|
  {
    seq(n, i requires 0 <= i < n => Spawn(r.order[i]))
  }

  /** The loop has spawned the first `n` workers and nobody has done anything else. */
  ghost predicate OnlySpawned(r: Request, s: Exec, n: nat) {
    && s.mission == IDLE_MISSION && s.spawned == n <= |r.order|
    && !s.busy && !s.torn && !s.raced && s.tokens == 0 && s.pcs.Keys == r.keys.Keys
    && (forall k :: n <= k < |r.order| ==> At(s, r.order[k]).Unspawned?)
    && (forall k :: 0 <= k < n && r.order[k] !in r.refused ==> At(s, r.order[k]) == AtBudget)
    && (forall k :: 0 <= k < n && r.order[k] in r.refused ==> At(s, r.order[k]).Done?)
  }

  lemma OneMoreSpawned(r: Request, s: Exec, n: nat)
    requires WellFormed(r) && OnlySpawned(r, s, n) && n < |r.order|
    ensures OnlySpawned(r, Next(r, s, Spawn(r.order[n])), n + 1)
  {
    hide Next, Spawned;
    var w := r.order[n];
    assert w in r.order;
    SpawnStep(r, s, w);
    SpawnedMoves(r, s, w);
    SpawnedPlaces(r, s, w);
  }

  lemma SpawnedPlaces(r: Request, s: Exec, w: string)
    ensures var s' := Spawned(r, s, w);
      && s'.mission == s.mission && s'.spawned == s.spawned + 1 && s'.busy == s.busy && s'.tokens == s.tokens
      && (!s.busy ==> s'.torn == s.torn && s'.raced == s.raced)
      && (if w in r.refused then At(s', w).Done? else At(s', w) == AtBudget)
  {
  }

  lemma NothingSpawned(r: Request, table: Table)
    ensures OnlySpawned(r, Start(r, table), 0)
  {
  }

  lemma {:induction false} AfterSpawns(r: Request, table: Table, n: nat)
    requires WellFormed(r) && n <= |r.order|
    ensures OnlySpawned(r, After(r, table, SpawnAll(r, n)), n)
  {
    hide Next, OnlySpawned, WellFormed, Start;
    if n == 0 {
      assert SpawnAll(r, 0) == [];
      NothingSpawned(r, table);
    } else {
      AfterSpawns(r, table, n - 1);
      assert SpawnAll(r, n) == SpawnAll(r, n - 1) + [Spawn(r.order[n - 1])];
      OneStepMore(r, table, SpawnAll(r, n - 1), Spawn(r.order[n - 1]));
      OneMoreSpawned(r, After(r, table, SpawnAll(r, n - 1)), n - 1);
    }
  }

  lemma DoneStays(r: Request, s: Exec, step: Step)
    requires !step.Elsewhere? && step.w in r.keys && At(s, step.w).Done?
    ensures Next(r, s, step) == s
  {
    hide WorkerStep;
    if step.Spawn? {
      SpawnStep(r, s, step.w);
    } else {
      IdleStaysIdle(r, s, step, At(s, step.w));
    }
  }

  // ---------------------------------------------------------------- one worker on its way to its write

  /** Only `w` has moved; the spawning loop, the tokens and the record of results are as they were. */
  predicate Apart(s: Exec, s': Exec, w: string) {
    && OnlyMoves(s, s', w)
    && s'.results == s.results && s'.spawned == s.spawned && s'.torn == s.torn && s'.tokens == s.tokens
  }

  /** Between its slot and its write, or on the way to record that it got no slot. */
  predicate Underway(keys: seq<Key>, pc: PC) {
    match pc
    case Failing => true
    case Locking(taken) => |taken| <= |keys|
    case RollingBack(taken, left) => left <= |taken| <= |keys|
    case Running(_) => true
    case _ => false
  }

  /** The worker's next step; its run may end with any status. */
  function Onward(keys: seq<Key>, w: string, pc: PC): Step
    requires Underway(keys, pc)
  {
    match pc
    case Failing => BeginFailing(w)
    case Locking(taken) => if |taken| < |keys| then LockNext(w, 0) else LocksDone(w)
    case RollingBack(_, left) => if left > 0 then Undo(w) else BeginLockFailure(w)
    case Running(_) => RunAgent(w, AgentRuns.Completed)
  }

  /** A bound on the steps left before the write begins. */
  function Distance(keys: seq<Key>, pc: PC): nat
    requires Underway(keys, pc)
  {
    match pc
    case Locking(taken) => 2 * |keys| + 1 - |taken|
    case RollingBack(_, left) => left
    case Failing => 0
    case Running(_) => 0
  }

  /** A worker with a slot begins to write with the keys it has yet to release. */
  predicate Begun(pc: PC, pc': PC) {
    && IsWriting(pc') && pc'.Writing? == HoldsSlot(pc)
    && (pc'.Writing? ==> pc'.left <= |pc'.taken|)
  }

  /** The worker has begun its write, or it is closer to it. */
  ghost predicate Closer(r: Request, s: Exec, s': Exec, w: string)
    requires w in r.keys && w in s.pcs && Underway(r.keys[w], s.pcs[w])
  {
    Apart(s, s', w) && s'.mission == s.mission &&
    if s'.busy then Begun(s.pcs[w], s'.pcs[w])
    else
      && Underway(r.keys[w], s'.pcs[w]) && HoldsSlot(s'.pcs[w]) == HoldsSlot(s.pcs[w])
      && Distance(r.keys[w], s'.pcs[w]) < Distance(r.keys[w], s.pcs[w])
  }

  lemma LockingIsCloser(r: Request, s: Exec, w: string)
    requires w in r.keys && w in s.pcs && !s.busy && Underway(r.keys[w], s.pcs[w]) && s.pcs[w].Locking?
    ensures Closer(r, s, Next(r, s, Onward(r.keys[w], w, s.pcs[w])), w)
  {
    hide Attempt, Normalize, ResourceLocks.Acquire, EarlyStep, LateStep;
    var pc := s.pcs[w];
    if |pc.taken| < |r.keys[w]| {
      AttemptMoves(r, s, w, pc.taken, 0);
      AttemptKeepsTheRest(r, s, w, pc.taken, 0);
    }
  }

  lemma RollingBackIsCloser(r: Request, s: Exec, w: string)
    requires w in r.keys && w in s.pcs && !s.busy && Underway(r.keys[w], s.pcs[w]) && s.pcs[w].RollingBack?
    ensures Closer(r, s, Next(r, s, Onward(r.keys[w], w, s.pcs[w])), w)
  {
    hide Attempt, Released, EarlyStep, LateStep;
  }

  lemma OnwardIsCloser(r: Request, s: Exec, w: string)
    requires w in r.keys && w in s.pcs && !s.busy && Underway(r.keys[w], s.pcs[w])
    ensures Closer(r, s, Next(r, s, Onward(r.keys[w], w, s.pcs[w])), w)
  {
    hide LockStep;
    if s.pcs[w].Locking? {
      LockingIsCloser(r, s, w);
    } else if s.pcs[w].RollingBack? {
      RollingBackIsCloser(r, s, w);
    }
  }

  /** However its locks turn out, a worker reaches its write by its own steps alone. */
  lemma {:induction false} ReachesWrite(r: Request, table: Table, steps: seq<Step>, w: string) returns (more: seq<Step>)
    requires var s := After(r, table, steps); w in r.keys && w in s.pcs && !s.busy && Underway(r.keys[w], s.pcs[w])
    ensures var s, s' := After(r, table, steps), After(r, table, more);
      Apart(s, s', w) && s'.mission == s.mission && s'.busy && Begun(s.pcs[w], s'.pcs[w])
    ensures NoCancel(steps) ==> NoCancel(more)
    decreases Distance(r.keys[w], After(r, table, steps).pcs[w])
  {
    hide Next, After;
    var s := After(r, table, steps);
    var step := Onward(r.keys[w], w, s.pcs[w]);
    OnwardIsCloser(r, s, w);
    OneStepMore(r, table, steps, step);
    more := steps + [step];
    if !Next(r, s, step).busy {
      more := ReachesWrite(r, table, more, w);
    }
  }

  /** With an idle mission the first worker to ask gets a slot at once. */
  lemma FirstGetsSlot(r: Request, s: Exec, w: string)
    requires r.budget >= 1 && w in r.keys && w in s.pcs && s.pcs[w] == AtBudget && s.mission == IDLE_MISSION
    ensures var s' := Next(r, s, TryBudget(w));
      Apart(s, s', w) && s'.busy == s.busy && s'.pcs[w] == if w == "" then Failing else Locking([])
  {
  }

  // ---------------------------------------------------------------- from the write to the return

  /** Only `w` has moved, and nobody writes. */
  predicate Calm(s: Exec, s': Exec, w: string) {
    OnlyMoves(s, s', w) && s'.spawned == s.spawned && !s'.busy && !s'.torn
  }

  lemma EndsWrite(r: Request, s: Exec, w: string)
    requires w in r.keys && w in s.pcs && s.pcs[w].Writing? && !s.torn
    ensures var s' := Next(r, s, EndWrite(w, map[]));
      && Calm(s, s', w) && s'.mission == s.mission && s'.tokens == s.tokens
      && s'.pcs[w] == Recorded(s.pcs[w].taken, s.pcs[w].left)
  {
    hide EarlyStep, LockStep;
  }

  lemma GivesSlotBack(r: Request, s: Exec, w: string)
    requires w in r.keys && w in s.pcs && s.pcs[w].Recorded? && !s.busy && !s.torn
    ensures var s' := Next(r, s, ReleaseBudget(w));
      && Calm(s, s', w) && s'.mission == Give(s.mission, w).0 && s'.tokens == s.tokens
      && s'.pcs[w] == Signalling(s.pcs[w].taken, s.pcs[w].left)
  {
    hide EarlyStep, LockStep, Give;
  }

  lemma Signals(r: Request, s: Exec, w: string)
    requires w in r.keys && w in s.pcs && s.pcs[w].Signalling? && !s.busy && !s.torn && s.tokens < |r.keys|
    ensures var s' := Next(r, s, Signal(w));
      && Calm(s, s', w) && s'.mission == s.mission && s'.tokens == s.tokens + 1
      && s'.pcs[w] == Unlocking(s.pcs[w].taken, s.pcs[w].left)
  {
    hide EarlyStep, LockStep;
  }

  lemma Unlocks(r: Request, s: Exec, w: string)
    requires w in r.keys && w in s.pcs && s.pcs[w].Unlocking? && s.pcs[w].left <= |s.pcs[w].taken| && !s.busy && !s.torn
    ensures var pc := s.pcs[w]; var s' := Next(r, s, if pc.left > 0 then Unlock(w) else Return(w));
      && Calm(s, s', w) && s'.mission == s.mission && s'.tokens == s.tokens
      && s'.pcs[w] == if pc.left > 0 then Unlocking(pc.taken, pc.left - 1) else Done(pc.taken)
  {
    hide EarlyStep, LockStep, Released;
  }

  lemma {:induction false} ReachesReturn(r: Request, table: Table, steps: seq<Step>, w: string) returns (more: seq<Step>)
    requires var s := After(r, table, steps);
      && w in r.keys && w in s.pcs && s.pcs[w].Unlocking? && s.pcs[w].left <= |s.pcs[w].taken| && !s.busy && !s.torn
    ensures var s, s' := After(r, table, steps), After(r, table, more);
      Calm(s, s', w) && s'.mission == s.mission && s'.tokens == s.tokens && s'.pcs[w].Done?
    ensures NoCancel(steps) ==> NoCancel(more)
    decreases After(r, table, steps).pcs[w].left
  {
    hide Next, After;
    var s := After(r, table, steps);
    var step := if s.pcs[w].left > 0 then Unlock(w) else Return(w);
    Unlocks(r, s, w);
    OneStepMore(r, table, steps, step);
    more := steps + [step];
    if s.pcs[w].left > 0 {
      more := ReachesReturn(r, table, more, w);
    }
  }

  /** A worker with a slot can go on to its return: it gives the slot back and leaves one token. */
  lemma Finishes(r: Request, table: Table, steps: seq<Step>, w: string) returns (more: seq<Step>)
    requires var s := After(r, table, steps);
      && w in r.keys && w in s.pcs && s.pcs[w] == Locking([]) && !s.busy && !s.torn && s.tokens < |r.keys|
    ensures var s, s' := After(r, table, steps), After(r, table, more);
      Calm(s, s', w) && s'.mission == Give(s.mission, w).0 && s'.tokens == s.tokens + 1 && s'.pcs[w].Done?
    ensures NoCancel(steps) ==> NoCancel(more)
  {
    hide Next, After, Give;
    more := ReachesWrite(r, table, steps, w);
    EndsWrite(r, After(r, table, more), w);
    OneStepMore(r, table, more, EndWrite(w, map[]));
    more := more + [EndWrite(w, map[])];
    GivesSlotBack(r, After(r, table, more), w);
    OneStepMore(r, table, more, ReleaseBudget(w));
    more := more + [ReleaseBudget(w)];
    Signals(r, After(r, table, more), w);
    OneStepMore(r, table, more, Signal(w));
    more := more + [Signal(w)];
    more := ReachesReturn(r, table, more, w);
  }
}
