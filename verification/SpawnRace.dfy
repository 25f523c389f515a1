/**
 When the results of a parallel execution are complete in every run.

 A refused worker listed behind one that was launched is recorded while that worker may be writing its
 own result. The runs built here show that this can happen: the launched worker is driven to its write, the
 loop's write falls into it, and the loop's entry is lost.
 */
module SpawnRace {
  import opened Wrappers
  import opened Budget
  import opened ResourceLocks
  import opened ParallelExecute
  import opened WorkerRuns
  import AgentRuns

  /** The loop records a refused worker while `w` writes, and the record ends up with the entry of `w` only. */
  lemma LoopsEntryIsLost(r: Request, s: Exec, v: string, w: string)
    requires v in r.keys && w in r.keys && v != w && v in r.refused && SpawnsNext(r, s, v) && At(s, v).Unspawned?
    requires s.busy && IsWriting(At(s, w)) && v !in s.results
    ensures var found := s.results[w := WrittenStatus(At(s, w))];
      var s' := Next(r, Next(r, s, Spawn(v)), EndWrite(w, found));
      v in s'.pcs && s'.pcs[v].Done? && s'.results == found && v !in found
  {
    SpawnStep(r, s, v);
  }

  /**
   With a refused worker `v` behind a launched `w`, there is a run in which the loop's entry for `v` is lost
   to the entry `w` was writing at that moment.
   */
  lemma RefusedLaterLosesResults(r: Request, table: Table, i: nat, j: nat) returns (steps: seq<Step>)
    requires r.budget >= 1 && Exclusive(table) && WellFormed(r)
    requires i < j < |r.order| && r.order[i] !in r.refused && r.order[j] in r.refused
    ensures var s := After(r, table, steps); var v := r.order[j];
      v in s.pcs && s.pcs[v].Done? && v !in s.results && r.order[i] in s.results
    ensures !Complete(After(r, table, steps))
  {
    hide Next, After, WellFormed;
    var v, w := r.order[j], r.order[i];
    InOrder(r, i, j);
    AfterSpawns(r, table, j);
    FirstGetsSlot(r, After(r, table, SpawnAll(r, j)), w);
    OneStepMore(r, table, SpawnAll(r, j), TryBudget(w));
    steps := ReachesWrite(r, table, SpawnAll(r, j) + [TryBudget(w)], w);
    var s := After(r, table, steps);
    InvAlways(r, table, SpawnAll(r, j));
    LoopsEntryIsLost(r, s, v, w);
    OneStepMore(r, table, steps, Spawn(v));
    steps := steps + [Spawn(v)];
    OneStepMore(r, table, steps, EndWrite(w, s.results[w := WrittenStatus(At(s, w))]));
    steps := steps + [EndWrite(w, s.results[w := WrittenStatus(At(s, w))])];
  }

  lemma InOrder(r: Request, i: nat, j: nat)
    requires WellFormed(r) && i < j < |r.order|
    ensures r.order[i] != r.order[j] && r.order[i] in r.keys && r.order[j] in r.keys
  {
    assert r.order[i] in r.order && r.order[j] in r.order;
  }

  /** No later step brings a lost entry back, save the end of another write that was torn. */
  lemma LostStaysLost(r: Request, s: Exec, step: Step, v: string)
    requires s.pcs.Keys == r.keys.Keys && v in r.keys && s.pcs[v].Done? && v !in s.results
    requires step.EndWrite? ==> !s.torn
    ensures var s' := Next(r, s, step); v in s'.pcs && s'.pcs[v].Done? && v !in s'.results
  {
    hide WorkerStep, Spawned;
    if !step.Elsewhere? && step.w in r.keys {
      if step.w == v {
        DoneStays(r, s, step);
      } else if step.Spawn? {
        SpawnStep(r, s, step.w);
        SpawnedMoves(r, s, step.w);
        SpawnedRecords(r, s, step.w);
      } else if step.EndWrite? && IsWriting(s.pcs[step.w]) {
        EndRecords(r, s, step.w, step.found);
      } else {
        OtherStepsKeepResults(r, s, step);
      }
    }
  }

  lemma SpawnedRecords(r: Request, s: Exec, w: string)
    ensures Spawned(r, s, w).results.Keys <= s.results.Keys + {w}
  {
  }

  lemma EndRecords(r: Request, s: Exec, w: string, found: Results)
    requires w in r.keys && w in s.pcs && IsWriting(s.pcs[w]) && !s.torn
    ensures var s' := Next(r, s, EndWrite(w, found));
      OnlyMoves(s, s', w) && s'.results == s.results[w := WrittenStatus(s.pcs[w])]
  {
    hide EarlyStep, LockStep;
  }

  /**
   The record of results is complete in every run exactly when no worker whose spawning is refused is
   listed behind one that is launched.
   */
  lemma ResultsAreCompleteExactly(r: Request, table: Table)
    requires r.budget >= 1 && Exclusive(table) && WellFormed(r)
    ensures (forall steps :: Complete(After(r, table, steps))) <==> RefusedFirst(r)
  {
    hide After, Complete, WellFormed;
    if RefusedFirst(r) {
      forall steps ensures Complete(After(r, table, steps)) {
        InvAlways(r, table, steps);
        NeverRaces(r, table, steps);
      }
    } else {
      var i, j :| 0 <= i < j < |r.order| && r.order[j] in r.refused && r.order[i] !in r.refused;
      var steps := RefusedLaterLosesResults(r, table, i, j);
    }
  }
}
