/**
 The budget of concurrently running workers, per mission: a running set and a first-in-first-out
 queue that is promoted whenever a slot is given back.
 */
module Budget {
  import opened Wrappers

  datatype Mission = Mission(running: set<string>, queue: seq<string>)

  const IDLE_MISSION := Mission({}, [])

  datatype BudgetError =
    | MissionRequired | AgentRequired | AlreadyRunning | AlreadyQueued | MissionNotFound | NotRunning

  // ---------------------------------------------------------------- one mission

  /** Acquired, queued, or refused because the agent is already known. */
  function Acquire(m: Mission, budget: int, agent: string): (Mission, Result<bool, BudgetError>) {
    if agent == "" then (m, Failure(AgentRequired))
    else if agent in m.running then (m, Failure(AlreadyRunning))
    else if agent in m.queue then (m, Failure(AlreadyQueued))
    else if |m.running| < budget then (m.(running := m.running + {agent}), Success(true))
    else (m.(queue := m.queue + [agent]), Success(false))
  }

  /** Takes a running agent out and promotes the first of the queue in its place. */
  function Vacate(m: Mission, agent: string): (Mission, string) {
    if m.queue == [] then (m.(running := m.running - {agent}), "")
    else (Mission(m.running - {agent} + {m.queue[0]}, m.queue[1..]), m.queue[0])
  }

  function Give(m: Mission, agent: string): (Mission, Result<string, BudgetError>) {
    if agent !in m.running then (m, Failure(NotRunning))
    else (Vacate(m, agent).0, Success(Vacate(m, agent).1))
  }

  function Withdraw(m: Mission, agent: string): (Mission, (bool, string)) {
    if agent in m.running then (Vacate(m, agent).0, (true, Vacate(m, agent).1))
    else if agent in m.queue then
      var i := IndexOf(m.queue, agent);
      (m.(queue := m.queue[..i] + m.queue[i + 1..]), (true, ""))
    else (m, (false, ""))
  }

  // ---------------------------------------------------------------- the controller

  class AgentBudgetController {
    const missionBudget: int
    var missions: map<string, Mission>

    constructor (missionBudget: int)
      requires missionBudget >= 1
      ensures this.missionBudget == missionBudget && forall m :: At(m) == IDLE_MISSION
    {
      this.missionBudget, missions := missionBudget, map[];
    }

    function At(mission: string): Mission
      reads this
    {
      if mission in missions then missions[mission] else IDLE_MISSION
    }

    method TryAcquire(mission: string, agent: string) returns (r: Result<bool, BudgetError>)
      modifies this
      ensures mission == "" ==> r == Failure(MissionRequired) && missions == old(missions)
      ensures mission != "" ==> (At(mission), r) == Acquire(old(At(mission)), missionBudget, agent)
      ensures forall m :: m != mission ==> At(m) == old(At(m))
    {
      if mission == "" {
        return Failure(MissionRequired);
      }
      if agent == "" {
        return Failure(AgentRequired);
      }
      var state := if mission in missions then missions[mission] else IDLE_MISSION;
      missions := missions[mission := state];
      if agent in state.running {
        return Failure(AlreadyRunning);
      }
      var i := 0;
      while i < |state.queue|
        invariant 0 <= i <= |state.queue|
        invariant agent !in state.queue[..i]
        modifies {}
      {
        if state.queue[i] == agent {
          return Failure(AlreadyQueued);
        }
        i := i + 1;
      }
      if |state.running| < missionBudget {
        missions := missions[mission := state.(running := state.running + {agent})];
        return Success(true);
      }
      missions := missions[mission := state.(queue := state.queue + [agent])];
      return Success(false);
    }

    method Release(mission: string, agent: string) returns (r: Result<string, BudgetError>)
      modifies this
      ensures mission == "" || agent == "" || mission !in old(missions) ==> r.Failure? && missions == old(missions)
      ensures mission != "" && agent != "" && mission in old(missions) ==> (At(mission), r) == Give(old(At(mission)), agent)
      ensures forall m :: m != mission ==> At(m) == old(At(m))
    {
      if mission == "" {
        return Failure(MissionRequired);
      }
      if agent == "" {
        return Failure(AgentRequired);
      }
      if mission !in missions {
        return Failure(MissionNotFound);
      }
      var state := missions[mission];
      if agent !in state.running {
        return Failure(NotRunning);
      }
      var promoted := Backfill(mission, agent);
      return Success(promoted);
    }

    method Backfill(mission: string, agent: string) returns (promoted: string)
      requires mission in missions
      modifies this
      ensures mission in missions && (At(mission), promoted) == Vacate(old(At(mission)), agent)
      ensures forall m :: m != mission ==> At(m) == old(At(m))
    {
      var state := missions[mission];
      state := state.(running := state.running - {agent});
      promoted := "";
      if |state.queue| > 0 {
        promoted := state.queue[0];
        state := Mission(state.running + {promoted}, state.queue[1..]);
      }
      missions := missions[mission := state];
    }

    method Remove(mission: string, agent: string) returns (found: bool, promoted: string)
      modifies this
      ensures (At(mission), (found, promoted)) == Withdraw(old(At(mission)), agent)
      ensures forall m :: m != mission ==> At(m) == old(At(m))
    {
      if mission !in missions {
        return false, "";
      }
      var state := missions[mission];
      if agent in state.running {
        promoted := Backfill(mission, agent);
        return true, promoted;
      }
      var i := 0;
      while i < |state.queue|
        invariant 0 <= i <= |state.queue|
        invariant forall j :: 0 <= j < i ==> state.queue[j] != agent
        invariant missions == old(missions)
      {
        if state.queue[i] == agent {
          assert i == IndexOf(state.queue, agent);
          missions := missions[mission := state.(queue := state.queue[..i] + state.queue[i + 1..])];
          return true, "";
        }
        i := i + 1;
      }
      return false, "";
    }

    method ResetMission(mission: string)
      modifies this
      ensures At(mission) == IDLE_MISSION && forall m :: m != mission ==> At(m) == old(At(m))
    {
      missions := missions - {mission};
    }

    method Reset()
      modifies this
      ensures forall m :: At(m) == IDLE_MISSION
    {
      missions := map[];
    }
  }

  // ---------------------------------------------------------------- any run of operations on a mission

  datatype Op = OpAcquire(agent: string) | OpRelease(agent: string) | OpRemove(agent: string) | OpReset

  /** The mission after an operation, and the name the operation returns as promoted, or "". */
  function Effect(m: Mission, budget: int, op: Op): (Mission, string) {
    match op
    case OpAcquire(a) => (Acquire(m, budget, a).0, "")
    case OpRelease(a) => var (next, r) := Give(m, a); (next, if r.Success? then r.value else "")
    case OpRemove(a) => var (next, (found, promoted)) := Withdraw(m, a); (next, promoted)
    case OpReset => (IDLE_MISSION, "")
  }

  function Do(m: Mission, budget: int, op: Op): Mission {
    Effect(m, budget, op).0
  }

  predicate NoRepeats(queue: seq<string>) {
    forall i, j :: 0 <= i < j < |queue| ==> queue[i] != queue[j]
  }

  /** Never over budget, nobody twice, and nobody waits while a slot is free. */
  predicate WithinBudget(m: Mission, budget: int) {
    && |m.running| <= budget
    && NoRepeats(m.queue)
    && (forall i :: 0 <= i < |m.queue| ==> m.queue[i] !in m.running)
    && (m.queue != [] ==> |m.running| == budget)
  }

  lemma VacateKeepsBudget(m: Mission, budget: int, agent: string)
    requires WithinBudget(m, budget) && agent in m.running
    ensures WithinBudget(Vacate(m, agent).0, budget)
  {
    if m.queue != [] {
      assert m.queue[0] !in m.running - {agent};
    }
  }

  lemma DoKeepsBudget(m: Mission, budget: int, op: Op)
    requires WithinBudget(m, budget) && budget >= 1
    ensures WithinBudget(Do(m, budget, op), budget)
  {
    match op
    case OpRelease(a) => if a in m.running { VacateKeepsBudget(m, budget, a); }
    case OpRemove(a) => if a in m.running { VacateKeepsBudget(m, budget, a); }
    case OpAcquire(a) =>
    case OpReset =>
  }

  // ---------------------------------------------------------------- strict FIFO

  /**
   A mission with its history: every enqueued agent in order, the names that releases and removals
   returned as promoted, and by position in the first history who still waits, who was promoted and
   who left the queue without being promoted.
   */
  datatype Tracked = Tracked(
    m: Mission, enqueued: seq<string>, granted: seq<string>, waiting: seq<nat>, promoted: seq<nat>, removed: set<nat>)

  const UNTRACKED := Tracked(IDLE_MISSION, [], [], [], [], {})

  /** The history goes by what the operation returned and by how the queue changed. */
  function Track(t: Tracked, budget: int, op: Op): Tracked {
    var (next, name) := Effect(t.m, budget, op);
    if name != "" then
      t.(m := next, granted := t.granted + [name],
         waiting := if t.waiting == [] then [] else t.waiting[1..],
         promoted := if t.waiting == [] then t.promoted else t.promoted + [t.waiting[0]])
    else
      match op
      case OpAcquire(a) =>
        if |next.queue| == |t.m.queue| then t.(m := next)
        else t.(m := next, enqueued := t.enqueued + [a], waiting := t.waiting + [|t.enqueued|])
      case OpRemove(a) =>
        var i := IndexOf(t.m.queue, a);
        if a in t.m.running || i >= |t.waiting| then t.(m := next)
        else t.(m := next, waiting := t.waiting[..i] + t.waiting[i + 1..], removed := t.removed + {t.waiting[i]})
      case OpRelease(a) => t.(m := next)
      case OpReset => t.(m := next, waiting := [], removed := t.removed + (set i | i in t.waiting))
  }

  function TrackAll(budget: int, ops: seq<Op>): Tracked {
    if ops == [] then UNTRACKED else Track(TrackAll(budget, ops[..|ops| - 1]), budget, ops[|ops| - 1])
  }

  /** The history positions below `n` that were not removed. */
  function Kept(n: nat, removed: set<nat>): seq<nat> {
    if n == 0 then [] else Kept(n - 1, removed) + if n - 1 in removed then [] else [n - 1]
  }

  function Names(enqueued: seq<string>, positions: seq<nat>): (r: seq<string>)
    requires forall i :: 0 <= i < |positions| ==> positions[i] < |enqueued|
    ensures |r| == |positions| && forall i :: 0 <= i < |r| ==> r[i] == enqueued[positions[i]]
  {
    seq(|positions|, i requires 0 <= i < |positions| => enqueued[positions[i]])
  }

  predicate Increasing(s: seq<nat>) {
    forall i, j :: 0 <= i < j < |s| ==> s[i] < s[j]
  }

  predicate InOrder(t: Tracked) {
    && (forall a :: a in t.enqueued ==> a != "")
    && |t.waiting| == |t.m.queue|
    && (forall i :: 0 <= i < |t.waiting| ==> t.waiting[i] < |t.enqueued| && t.enqueued[t.waiting[i]] == t.m.queue[i])
    && Kept(|t.enqueued|, t.removed) == t.promoted + t.waiting
    && (forall x :: x in t.removed ==> x < |t.enqueued|)
    && Granted(t)
  }

  /** The names returned are those of the promoted positions. */
  predicate Granted(t: Tracked) {
    && |t.granted| == |t.promoted|
    && forall i :: 0 <= i < |t.promoted| ==> t.promoted[i] < |t.enqueued| && t.granted[i] == t.enqueued[t.promoted[i]]
  }

  lemma {:induction false} KeptBounds(n: nat, removed: set<nat>)
    ensures Increasing(Kept(n, removed))
    ensures forall i :: 0 <= i < |Kept(n, removed)| ==> Kept(n, removed)[i] < n
  {
    if n > 0 {
      KeptBounds(n - 1, removed);
    }
  }

  function Drop(s: seq<nat>, gone: set<nat>): seq<nat> {
    if s == [] then []
    else Drop(s[..|s| - 1], gone) + if s[|s| - 1] in gone then [] else [s[|s| - 1]]
  }

  lemma {:induction false} KeptWithout(n: nat, removed: set<nat>, gone: set<nat>)
    ensures Kept(n, removed + gone) == Drop(Kept(n, removed), gone)
  {
    if n > 0 {
      KeptWithout(n - 1, removed, gone);
      if n - 1 !in removed {
        assert (Kept(n - 1, removed) + [n - 1])[..|Kept(n - 1, removed)|] == Kept(n - 1, removed);
      } else {
        assert Kept(n - 1, removed) + [] == Kept(n - 1, removed);
      }
    }
  }

  lemma {:induction false} DropNone(s: seq<nat>, gone: set<nat>)
    requires forall i :: 0 <= i < |s| ==> s[i] !in gone
    ensures Drop(s, gone) == s
  {
    if s != [] {
      DropNone(s[..|s| - 1], gone);
    }
  }

  lemma {:induction false} DropAll(a: seq<nat>, b: seq<nat>, gone: set<nat>)
    requires forall i :: 0 <= i < |b| ==> b[i] in gone
    ensures Drop(a + b, gone) == Drop(a, gone)
  {
    if b == [] {
      assert a + b == a;
    } else {
      assert (a + b)[..|a + b| - 1] == a + b[..|b| - 1];
      DropAll(a, b[..|b| - 1], gone);
    }
  }

  lemma {:induction false} DropConcat(a: seq<nat>, b: seq<nat>, gone: set<nat>)
    ensures Drop(a + b, gone) == Drop(a, gone) + Drop(b, gone)
  {
    if b == [] {
      assert a + b == a;
    } else {
      assert (a + b)[..|a + b| - 1] == a + b[..|b| - 1];
      DropConcat(a, b[..|b| - 1], gone);
    }
  }

  /** Dropping one element of an increasing sequence takes out just that position. */
  lemma DropOne(a: seq<nat>, x: nat, b: seq<nat>)
    requires Increasing(a + [x] + b)
    ensures Drop(a + [x] + b, {x}) == a + b
  {
    var s := a + [x] + b;
    forall i | 0 <= i < |a| ensures a[i] != x {
      assert s[i] == a[i] && s[|a|] == x;
    }
    forall i | 0 <= i < |b| ensures b[i] != x {
      assert s[|a| + 1 + i] == b[i] && s[|a|] == x;
    }
    DropConcat(a + [x], b, {x});
    DropAll(a, [x], {x});
    DropNone(a, {x});
    DropNone(b, {x});
  }

  lemma EnqueueInOrder(t: Tracked, next: Mission, a: string)
    requires InOrder(t) && next.queue == t.m.queue + [a] && a != ""
    ensures InOrder(t.(m := next, enqueued := t.enqueued + [a], waiting := t.waiting + [|t.enqueued|]))
  {
    assert (t.promoted + t.waiting) + [|t.enqueued|] == t.promoted + (t.waiting + [|t.enqueued|]);
  }

  lemma PromoteInOrder(t: Tracked, next: Mission)
    requires InOrder(t) && t.m.queue != [] && next.queue == t.m.queue[1..]
    ensures InOrder(t.(m := next, granted := t.granted + [t.m.queue[0]], waiting := t.waiting[1..],
                       promoted := t.promoted + [t.waiting[0]]))
  {
    assert (t.promoted + [t.waiting[0]]) + t.waiting[1..] == t.promoted + t.waiting;
  }

  /**
   What a release or removal returns: the head of the queue, which then runs, or nobody when
   nobody waits or no slot became free.
   */
  lemma PromotionIsHead(m: Mission, budget: int, op: Op)
    requires WithinBudget(m, budget) && (forall a :: a in m.queue ==> a != "")
    ensures var (next, name) := Effect(m, budget, op);
      && (name != "" <==> m.queue != [] && (op.OpRelease? || op.OpRemove?) && op.agent in m.running)
      && (name != "" ==> name == m.queue[0] && name in next.running && next.queue == m.queue[1..])
  {
    if m.queue != [] {
      assert m.queue[0] in m.queue;
    }
  }

  /** Apart from the agent that leaves, a release or removal loses nobody. */
  lemma NobodyIsLost(m: Mission, budget: int, op: Op)
    requires WithinBudget(m, budget) && (op.OpRelease? || op.OpRemove?) && op.agent in m.running
    ensures var next := Do(m, budget, op);
      next.running + Members(next.queue) == (m.running + Members(m.queue)) - {op.agent}
  {
    if m.queue != [] {
      MembersCons(m.queue);
    }
  }

  lemma MembersCons(queue: seq<string>)
    requires queue != []
    ensures Members(queue) == {queue[0]} + Members(queue[1..])
  {
    assert queue == [queue[0]] + queue[1..];
  }

  function Members(queue: seq<string>): set<string> {
    set a | a in queue
  }

  lemma WithdrawKept(n: nat, removed: set<nat>, promoted: seq<nat>, waiting: seq<nat>, i: nat)
    requires Kept(n, removed) == promoted + waiting && i < |waiting|
    ensures Kept(n, removed + {waiting[i]}) == promoted + (waiting[..i] + waiting[i + 1..])
  {
    KeptBounds(n, removed);
    KeptWithout(n, removed, {waiting[i]});
    DropWaiting(promoted, waiting, i);
  }

  lemma WithdrawInOrder(t: Tracked, next: Mission, i: nat)
    requires InOrder(t) && i < |t.m.queue| && next.queue == t.m.queue[..i] + t.m.queue[i + 1..]
    ensures InOrder(t.(m := next, waiting := t.waiting[..i] + t.waiting[i + 1..], removed := t.removed + {t.waiting[i]}))
  {
    WithdrawKept(|t.enqueued|, t.removed, t.promoted, t.waiting, i);
  }

  lemma DropWaiting(promoted: seq<nat>, waiting: seq<nat>, i: nat)
    requires Increasing(promoted + waiting) && i < |waiting|
    ensures Drop(promoted + waiting, {waiting[i]}) == promoted + (waiting[..i] + waiting[i + 1..])
  {
    var front, back := promoted + waiting[..i], waiting[i + 1..];
    assert promoted + waiting == front + [waiting[i]] + back;
    DropOne(front, waiting[i], back);
    assert front + back == promoted + (waiting[..i] + back);
  }

  lemma ResetKept(n: nat, removed: set<nat>, promoted: seq<nat>, waiting: seq<nat>, gone: set<nat>)
    requires Kept(n, removed) == promoted + waiting && (forall i :: i in gone <==> i in waiting)
    ensures Kept(n, removed + gone) == promoted
  {
    KeptBounds(n, removed);
    KeptWithout(n, removed, gone);
    DropAll(promoted, waiting, gone);
    forall i | 0 <= i < |promoted| ensures promoted[i] !in gone {
      PromotedBeforeWaiting(promoted, waiting, i);
    }
    DropNone(promoted, gone);
  }

  lemma ResetInOrder(t: Tracked)
    requires InOrder(t)
    ensures InOrder(t.(m := IDLE_MISSION, waiting := [], removed := t.removed + (set i | i in t.waiting)))
  {
    ResetKept(|t.enqueued|, t.removed, t.promoted, t.waiting, set i | i in t.waiting);
    assert t.promoted + [] == t.promoted;
  }

  lemma PromotedBeforeWaiting(promoted: seq<nat>, waiting: seq<nat>, i: nat)
    requires Increasing(promoted + waiting) && i < |promoted|
    ensures promoted[i] !in waiting
  {
    forall j | 0 <= j < |waiting| ensures waiting[j] != promoted[i] {
      assert (promoted + waiting)[i] == promoted[i] && (promoted + waiting)[|promoted| + j] == waiting[j];
    }
  }

  lemma QueueIsNamed(t: Tracked, a: string)
    requires InOrder(t) && a in t.m.queue
    ensures a != ""
  {
    var i :| 0 <= i < |t.m.queue| && t.m.queue[i] == a;
    assert t.enqueued[t.waiting[i]] in t.enqueued;
  }

  lemma TrackInOrder(t: Tracked, budget: int, op: Op)
    requires InOrder(t) && WithinBudget(t.m, budget)
    ensures InOrder(Track(t, budget, op)) && Track(t, budget, op).m == Do(t.m, budget, op)
  {
    forall a | a in t.m.queue ensures a != "" {
      QueueIsNamed(t, a);
    }
    PromotionIsHead(t.m, budget, op);
    var (next, name) := Effect(t.m, budget, op);
    if name != "" {
      PromoteInOrder(t, next);
    } else {
      match op
      case OpAcquire(a) =>
        if |next.queue| != |t.m.queue| {
          EnqueueInOrder(t, next, a);
        }
      case OpRelease(a) =>
      case OpRemove(a) =>
        if a !in t.m.running && a in t.m.queue {
          WithdrawInOrder(t, next, IndexOf(t.m.queue, a));
        }
      case OpReset => ResetInOrder(t);
    }
  }

  /**
   After any run of operations the mission is within budget, and the enqueue history without its
   removed entries is the list of names returned as promoted, in the order they were returned,
   followed by the queue: promotion is strictly FIFO.
   */
  lemma {:induction false} EveryRunIsFair(budget: int, ops: seq<Op>)
    requires budget >= 1
    ensures var t := TrackAll(budget, ops);
      && WithinBudget(t.m, budget) && InOrder(t)
      && (forall i :: 0 <= i < |Kept(|t.enqueued|, t.removed)| ==> Kept(|t.enqueued|, t.removed)[i] < |t.enqueued|)
      && Names(t.enqueued, Kept(|t.enqueued|, t.removed)) == t.granted + t.m.queue
  {
    if ops != [] {
      var before := ops[..|ops| - 1];
      EveryRunIsFair(budget, before);
      TrackInOrder(TrackAll(budget, before), budget, ops[|ops| - 1]);
      DoKeepsBudget(TrackAll(budget, before).m, budget, ops[|ops| - 1]);
    }
    NamesInOrder(TrackAll(budget, ops));
  }

  lemma NamesInOrder(t: Tracked)
    requires InOrder(t)
    ensures forall i :: 0 <= i < |Kept(|t.enqueued|, t.removed)| ==> Kept(|t.enqueued|, t.removed)[i] < |t.enqueued|
    ensures Names(t.enqueued, Kept(|t.enqueued|, t.removed)) == t.granted + t.m.queue
  {
    KeptBounds(|t.enqueued|, t.removed);
  }

  /**
   Along any run, each operation returns the agent that has waited longest exactly when it frees
   a slot while someone waits, and that agent runs from then on.
   */
  lemma EveryPromotionRuns(budget: int, ops: seq<Op>, op: Op)
    requires budget >= 1
    ensures var t := TrackAll(budget, ops); var (next, name) := Effect(t.m, budget, op);
      && Track(t, budget, op).granted == (if name == "" then t.granted else t.granted + [name])
      && (name != "" <==> t.m.queue != [] && (op.OpRelease? || op.OpRemove?) && op.agent in t.m.running)
      && (name != "" ==> name == t.m.queue[0] && name in next.running && name !in next.queue)
  {
    EveryRunIsFair(budget, ops);
    var t := TrackAll(budget, ops);
    forall a | a in t.m.queue ensures a != "" {
      QueueIsNamed(t, a);
    }
    PromotionIsHead(t.m, budget, op);
  }
}
