/**
 Locking several resources at once: acquire key by key, and give everything back in reverse order
 when one key is refused. The same loop serves parallel workers and tool calls.
 */
module BatchLocks {
  import opened Wrappers
  import opened Text
  import opened ResourceLocks

  function ReleaseAll(t: Table, keys: seq<Key>, owner: string): Table {
    if keys == [] then t
    else ReleaseAll(Released(t, keys[|keys| - 1], owner), keys[..|keys| - 1], owner)
  }

  datatype Batch = Batch(table: Table, acquired: seq<Key>, ok: bool)

  /** Acquires `keys[n..]` after `acquired`; `times[i]` is the clock at the i-th attempt. */
  function AcquireFrom(t: Table, ttl: int, keys: seq<Key>, owner: string, times: seq<int>, acquired: seq<Key>): Batch
    requires |acquired| <= |keys| == |times|
    decreases |keys| - |acquired|
  {
    var n := |acquired|;
    if n == |keys| then Batch(t, acquired, true)
    else if AcquireError(keys[n], owner).Some? then Batch(ReleaseAll(t, acquired, owner), acquired, false)
    else
      var (next, ok) := Acquire(t, ttl, Normalize(keys[n]), owner, times[n]);
      if ok then AcquireFrom(next, ttl, keys, owner, times, acquired + [Normalize(keys[n])])
      else Batch(ReleaseAll(next, acquired, owner), acquired, false)
  }

  function AcquireBatch(t: Table, ttl: int, keys: seq<Key>, owner: string, times: seq<int>): Batch
    requires |keys| == |times|
  {
    AcquireFrom(t, ttl, keys, owner, times, [])
  }

  /** The owner of a tool call's locks. */
  function GateOwner(ownerID: string, callID: string, callName: string): string {
    FirstNonEmpty(TrimSpace(ownerID), FirstNonEmpty(TrimSpace(callID), TrimSpace(callName)))
  }

  // ---------------------------------------------------------------- the loop

  method ReleaseReversed(locks: ResourceLockManager, acquired: seq<Key>, owner: string)
    requires locks.Valid()
    modifies locks
    ensures locks.Valid() && locks.table == ReleaseAll(old(locks.table), acquired, owner)
  {
    var i := |acquired| - 1;
    assert acquired[..|acquired|] == acquired;
    while i >= 0
      invariant -1 <= i < |acquired| && locks.Valid()
      invariant ReleaseAll(locks.table, acquired[..i + 1], owner) == ReleaseAll(old(locks.table), acquired, owner)
    {
      ReleaseLast(locks.table, acquired, i, owner);
      var _ := locks.Release(acquired[i], owner);
      i := i - 1;
    }
    assert acquired[..0] == [];
  }

  lemma ReleaseLast(t: Table, keys: seq<Key>, i: nat, owner: string)
    requires i < |keys|
    ensures ReleaseAll(t, keys[..i + 1], owner) == ReleaseAll(Released(t, keys[i], owner), keys[..i], owner)
  {
    assert keys[..i + 1][..i] == keys[..i];
  }

  method AcquireLocks(locks: ResourceLockManager, keys: seq<Key>, owner: string, times: seq<int>)
    returns (ok: bool, acquired: seq<Key>)
    requires locks.Valid() && |keys| == |times|
    modifies locks
    ensures locks.Valid()
    ensures Batch(locks.table, acquired, ok) == AcquireBatch(old(locks.table), locks.EffectiveTTL(), keys, owner, times)
  {
    acquired := [];
    while |acquired| < |keys|
      invariant |acquired| <= |keys| && locks.Valid()
      invariant AcquireFrom(locks.table, locks.EffectiveTTL(), keys, owner, times, acquired)
             == AcquireBatch(old(locks.table), locks.EffectiveTTL(), keys, owner, times)
    {
      var n := |acquired|;
      var r := locks.TryAcquire(keys[n], owner, times[n]);
      if r.Failure? || !r.value.acquired {
        ReleaseReversed(locks, acquired, owner);
        return false, acquired;
      }
      acquired := acquired + [r.value.key];
    }
    ok := true;
  }

  /** The gate in front of a tool call; `ReleaseReversed(locks, acquired, owner)` is the release it hands out. */
  method AcquireToolResourceLocks(locks: ResourceLockManager, keys: seq<Key>, ownerID: string, callID: string,
                                  callName: string, times: seq<int>)
    returns (ok: bool, acquired: seq<Key>, owner: string)
    requires locks.Valid() && |keys| == |times|
    modifies locks
    ensures locks.Valid() && owner == GateOwner(ownerID, callID, callName)
    ensures Batch(locks.table, acquired, ok) == AcquireBatch(old(locks.table), locks.EffectiveTTL(), keys, owner, times)
  {
    owner := TrimSpace(ownerID);
    if owner == "" {
      owner := TrimSpace(callID);
    }
    if owner == "" {
      owner := TrimSpace(callName);
    }
    if |keys| == 0 {
      return true, [], owner;
    }
    ok, acquired := AcquireLocks(locks, keys, owner, times);
  }

  // ---------------------------------------------------------------- what a batch does

  function OwnLeases(keys: seq<Key>, owner: string): set<Lease> {
    set i | 0 <= i < |keys| :: (keys[i], owner)
  }

  lemma {:induction false} ReleaseAllIs(t: Table, keys: seq<Key>, owner: string)
    requires NormalKeys(keys)
    ensures ReleaseAll(t, keys, owner) == t - OwnLeases(keys, owner)
  {
    if keys != [] {
      var last := keys[|keys| - 1];
      ReleaseAllIs(Released(t, last, owner), keys[..|keys| - 1], owner);
      OwnLeasesSnoc(keys[..|keys| - 1], last, owner);
      SplitLast(keys);
    }
  }

  lemma OwnLeasesSnoc(keys: seq<Key>, key: Key, owner: string)
    ensures OwnLeases(keys + [key], owner) == OwnLeases(keys, owner) + {(key, owner)}
  {
    var all := keys + [key];
    assert all[|keys|] == key;
    forall l | l in OwnLeases(keys, owner) ensures l in OwnLeases(all, owner) {
      var i :| 0 <= i < |keys| && l == (keys[i], owner);
      assert all[i] == keys[i];
    }
  }

  /** Nothing expires while the batch runs: neither an old lease nor one the batch takes. */
  predicate NothingExpires(t: Table, ttl: int, times: seq<int>) {
    && (forall l, i :: l in t && 0 <= i < |times| ==> !Expired(t[l], times[i]))
    && (forall i, j :: 0 <= i < |times| && 0 <= j < |times| ==> !Expired(times[i] + ttl, times[j]))
  }

  /** The table while the batch runs: the leases it started from and the ones it took. */
  predicate Grown(t0: Table, t: Table, acquired: seq<Key>, owner: string) {
    && t.Keys == t0.Keys + OwnLeases(acquired, owner)
    && (forall l :: l in t0 ==> t[l] == t0[l])
  }

  predicate FreshOnes(t0: Table, t: Table, ttl: int, times: seq<int>) {
    forall l :: l in t && l !in t0 ==> exists i :: 0 <= i < |times| && t[l] == times[i] + ttl
  }

  lemma NothingPurged(t0: Table, t: Table, ttl: int, times: seq<int>, acquired: seq<Key>, owner: string, n: nat)
    requires NothingExpires(t0, ttl, times) && Grown(t0, t, acquired, owner) && FreshOnes(t0, t, ttl, times)
    requires n < |times|
    ensures Purged(t, times[n]) == t
  {
    forall l | l in t ensures !Expired(t[l], times[n]) {
      if l !in t0 {
        var i :| 0 <= i < |times| && t[l] == times[i] + ttl;
      }
    }
  }

  /** How a batch ends: with everything it was asked for, or with the table it took its leases out of again. */
  ghost predicate Outcome(t0: Table, b: Batch, keys: seq<Key>, owner: string) {
    && |b.acquired| <= |keys|
    && (forall i :: 0 <= i < |b.acquired| ==> b.acquired[i] == Normalize(keys[i]))
    && if b.ok then |b.acquired| == |keys| && Grown(t0, b.table, b.acquired, owner)
       else b.table == t0 - OwnLeases(b.acquired, owner)
  }

  lemma GrowthStep(t0: Table, t: Table, ttl: int, times: seq<int>, acquired: seq<Key>, owner: string, n: nat, key: Key)
    requires NothingExpires(t0, ttl, times) && Grown(t0, t, acquired, owner) && FreshOnes(t0, t, ttl, times)
    requires n < |times| && Acquire(t, ttl, key, owner, times[n]).1
    ensures var next := Acquire(t, ttl, key, owner, times[n]).0;
      Grown(t0, next, acquired + [key], owner) && FreshOnes(t0, next, ttl, times)
  {
    NothingPurged(t0, t, ttl, times, acquired, owner, n);
    OwnLeasesSnoc(acquired, key, owner);
    var next := Acquire(t, ttl, key, owner, times[n]).0;
    if (key, owner) !in t {
      assert next == t[(key, owner) := times[n] + ttl];
    }
  }

  lemma UndoGrowth(t0: Table, t: Table, acquired: seq<Key>, owner: string)
    requires Grown(t0, t, acquired, owner) && NormalKeys(acquired)
    ensures ReleaseAll(t, acquired, owner) == t0 - OwnLeases(acquired, owner)
  {
    ReleaseAllIs(t, acquired, owner);
  }

  lemma {:induction false} BatchOutcome(t0: Table, t: Table, ttl: int, keys: seq<Key>, owner: string, times: seq<int>, acquired: seq<Key>)
    requires |acquired| <= |keys| == |times| && NothingExpires(t0, ttl, times)
    requires forall i :: 0 <= i < |acquired| ==> acquired[i] == Normalize(keys[i])
    requires Grown(t0, t, acquired, owner) && FreshOnes(t0, t, ttl, times)
    ensures Outcome(t0, AcquireFrom(t, ttl, keys, owner, times, acquired), keys, owner)
    decreases |keys| - |acquired|
  {
    var n := |acquired|;
    if n < |keys| {
      var key := Normalize(keys[n]);
      if AcquireError(keys[n], owner).None? && Acquire(t, ttl, key, owner, times[n]).1 {
        var next := Acquire(t, ttl, key, owner, times[n]).0;
        GrowthStep(t0, t, ttl, times, acquired, owner, n, key);
        BatchOutcome(t0, next, ttl, keys, owner, times, acquired + [key]);
        Granted(t, ttl, keys, owner, times, acquired);
      } else {
        Undone(t0, t, ttl, keys, owner, times, acquired);
        Refused(t, ttl, keys, owner, times, acquired);
      }
    }
  }

  lemma Granted(t: Table, ttl: int, keys: seq<Key>, owner: string, times: seq<int>, acquired: seq<Key>)
    requires |acquired| < |keys| == |times| && AcquireError(keys[|acquired|], owner).None?
    requires Acquire(t, ttl, Normalize(keys[|acquired|]), owner, times[|acquired|]).1
    ensures var key := Normalize(keys[|acquired|]);
      AcquireFrom(t, ttl, keys, owner, times, acquired)
        == AcquireFrom(Acquire(t, ttl, key, owner, times[|acquired|]).0, ttl, keys, owner, times, acquired + [key])
  {
  }

  lemma Refused(t: Table, ttl: int, keys: seq<Key>, owner: string, times: seq<int>, acquired: seq<Key>)
    requires |acquired| < |keys| == |times|
    requires AcquireError(keys[|acquired|], owner).Some?
      || !Acquire(t, ttl, Normalize(keys[|acquired|]), owner, times[|acquired|]).1
    ensures var b := AcquireFrom(t, ttl, keys, owner, times, acquired);
      && b.acquired == acquired && !b.ok
      && (b.table == ReleaseAll(t, acquired, owner)
          || b.table == ReleaseAll(Purged(t, times[|acquired|]), acquired, owner))
  {
  }

  /** Giving up at key `n`, whether it is malformed or refused. */
  lemma Undone(t0: Table, t: Table, ttl: int, keys: seq<Key>, owner: string, times: seq<int>, acquired: seq<Key>)
    requires |acquired| < |keys| == |times| && NothingExpires(t0, ttl, times)
    requires forall i :: 0 <= i < |acquired| ==> acquired[i] == Normalize(keys[i])
    requires Grown(t0, t, acquired, owner) && FreshOnes(t0, t, ttl, times)
    ensures ReleaseAll(t, acquired, owner) == t0 - OwnLeases(acquired, owner)
    ensures ReleaseAll(Purged(t, times[|acquired|]), acquired, owner) == t0 - OwnLeases(acquired, owner)
  {
    forall i | 0 <= i < |acquired| ensures Normalize(acquired[i]) == acquired[i] {
      NormalizeTwice(keys[i]);
    }
    UndoGrowth(t0, t, acquired, owner);
    NothingPurged(t0, t, ttl, times, acquired, owner, |acquired|);
  }

  lemma BatchIs(t: Table, ttl: int, keys: seq<Key>, owner: string, times: seq<int>)
    requires |keys| == |times| && NothingExpires(t, ttl, times)
    ensures Outcome(t, AcquireBatch(t, ttl, keys, owner, times), keys, owner)
  {
    assert OwnLeases([], owner) == {};
    BatchOutcome(t, t, ttl, keys, owner, times, []);
  }

  // ---------------------------------------------------------------- which keys a batch gets

  /** Key `i` will be granted: valid, free for the owner, and in no conflict with an earlier other key. */
  predicate KeyOk(t: Table, keys: seq<Key>, owner: string, i: nat)
    requires i < |keys|
  {
    && AcquireError(keys[i], owner).None?
    && !Denied(t, Normalize(keys[i]), owner)
    && forall j :: 0 <= j < i ==>
         Normalize(keys[j]) == Normalize(keys[i]) || !Conflict(Normalize(keys[j]), Normalize(keys[i]))
  }

  /** The first key from `i` on that will not be granted, or the number of keys. */
  function FirstRefused(t: Table, keys: seq<Key>, owner: string, i: nat): (n: nat)
    requires i <= |keys|
    ensures i <= n <= |keys|
    decreases |keys| - i
  {
    if i == |keys| || !KeyOk(t, keys, owner, i) then i else FirstRefused(t, keys, owner, i + 1)
  }

  lemma {:induction false} FirstRefusedIs(t: Table, keys: seq<Key>, owner: string, i: nat)
    requires i <= |keys|
    ensures var n := FirstRefused(t, keys, owner, i);
      (n < |keys| ==> !KeyOk(t, keys, owner, n)) && forall j :: i <= j < n ==> KeyOk(t, keys, owner, j)
    decreases |keys| - i
  {
    hide KeyOk;
    if i < |keys| && KeyOk(t, keys, owner, i) {
      FirstRefusedIs(t, keys, owner, i + 1);
    }
  }

  /** The leases taken so far block a key exactly when one on another key conflicts with it. */
  lemma GrownDenies(t0: Table, t: Table, acquired: seq<Key>, owner: string, key: Key)
    requires Grown(t0, t, acquired, owner)
    ensures Denied(t, key, owner)
      <==> Denied(t0, key, owner) || exists j :: 0 <= j < |acquired| && acquired[j] != key && Conflict(acquired[j], key)
  {
    if Denied(t0, key, owner) {
      var l :| l in t0 && Blocks(t0, l, key, owner);
      assert Blocks(t, l, key, owner);
    }
    if j :| 0 <= j < |acquired| && acquired[j] != key && Conflict(acquired[j], key) {
      assert (acquired[j], owner) in OwnLeases(acquired, owner);
      assert Blocks(t, (acquired[j], owner), key, owner);
    }
    if Denied(t, key, owner) {
      var l :| l in t && Blocks(t, l, key, owner);
      if l in t0 {
        assert Blocks(t0, l, key, owner);
      } else {
        var j :| 0 <= j < |acquired| && l == (acquired[j], owner);
      }
    }
  }

  /** The attempt at key `n`, after all before it were granted. */
  lemma AttemptIsKeyOk(t0: Table, t: Table, ttl: int, keys: seq<Key>, owner: string, times: seq<int>, acquired: seq<Key>)
    requires |acquired| < |keys| == |times| && NothingExpires(t0, ttl, times)
    requires forall i :: 0 <= i < |acquired| ==> acquired[i] == Normalize(keys[i])
    requires Grown(t0, t, acquired, owner) && FreshOnes(t0, t, ttl, times)
    ensures var n := |acquired|;
      KeyOk(t0, keys, owner, n)
      == (AcquireError(keys[n], owner).None? && Acquire(t, ttl, Normalize(keys[n]), owner, times[n]).1)
  {
    NothingPurged(t0, t, ttl, times, acquired, owner, |acquired|);
    GrownDenies(t0, t, acquired, owner, Normalize(keys[|acquired|]));
  }

  lemma {:induction false} BatchTakes(t0: Table, t: Table, ttl: int, keys: seq<Key>, owner: string, times: seq<int>, acquired: seq<Key>)
    requires |acquired| <= |keys| == |times| && NothingExpires(t0, ttl, times)
    requires forall i :: 0 <= i < |acquired| ==> acquired[i] == Normalize(keys[i])
    requires Grown(t0, t, acquired, owner) && FreshOnes(t0, t, ttl, times)
    ensures var b := AcquireFrom(t, ttl, keys, owner, times, acquired);
      var n := FirstRefused(t0, keys, owner, |acquired|);
      |b.acquired| == n && (b.ok <==> n == |keys|)
    decreases |keys| - |acquired|
  {
    hide KeyOk, Acquire, Normalize, AcquireError;
    var n := |acquired|;
    if n < |keys| {
      var key := Normalize(keys[n]);
      AttemptIsKeyOk(t0, t, ttl, keys, owner, times, acquired);
      if KeyOk(t0, keys, owner, n) {
        var next := Acquire(t, ttl, key, owner, times[n]).0;
        GrowthStep(t0, t, ttl, times, acquired, owner, n, key);
        BatchTakes(t0, next, ttl, keys, owner, times, acquired + [key]);
        Granted(t, ttl, keys, owner, times, acquired);
      } else {
        Refused(t, ttl, keys, owner, times, acquired);
      }
    }
  }

  /**
   A batch is granted exactly when every key is valid, free for the owner and in no conflict with
   another key of the batch; else it takes the keys before the first that is not.
   */
  lemma BatchVerdict(t: Table, ttl: int, keys: seq<Key>, owner: string, times: seq<int>)
    requires |keys| == |times| && NothingExpires(t, ttl, times)
    ensures var b := AcquireBatch(t, ttl, keys, owner, times);
      && (b.ok <==> forall i :: 0 <= i < |keys| ==> KeyOk(t, keys, owner, i))
      && |b.acquired| == FirstRefused(t, keys, owner, 0)
  {
    hide KeyOk, Normalize;
    assert OwnLeases([], owner) == {};
    FirstRefusedIs(t, keys, owner, 0);
    BatchTakes(t, t, ttl, keys, owner, times, []);
  }

  /** Two conflicting keys of one batch: it is never granted, as the owner's first lease blocks the second key. */
  lemma ConflictingKeysAreRefused(t: Table, ttl: int, keys: seq<Key>, owner: string, times: seq<int>, i: nat, j: nat)
    requires |keys| == |times| && NothingExpires(t, ttl, times) && i < j < |keys|
    requires Normalize(keys[i]) != Normalize(keys[j]) && Conflict(Normalize(keys[i]), Normalize(keys[j]))
    ensures !AcquireBatch(t, ttl, keys, owner, times).ok
  {
    BatchVerdict(t, ttl, keys, owner, times);
    assert !KeyOk(t, keys, owner, j);
  }

  /**
   A refused batch leaves the table as it was exactly when the owner held none of the keys before
   the first one that is not granted.
   */
  lemma FailureRestores(t: Table, ttl: int, keys: seq<Key>, owner: string, times: seq<int>)
    requires |keys| == |times| && NothingExpires(t, ttl, times)
    requires exists i :: 0 <= i < |keys| && !KeyOk(t, keys, owner, i)
    ensures var b := AcquireBatch(t, ttl, keys, owner, times);
      !b.ok &&
      (b.table == t <==> forall i :: 0 <= i < FirstRefused(t, keys, owner, 0) ==> (Normalize(keys[i]), owner) !in t)
  {
    BatchVerdict(t, ttl, keys, owner, times);
    BatchIs(t, ttl, keys, owner, times);
    var b := AcquireBatch(t, ttl, keys, owner, times);
    MinusIsSame(t, OwnLeases(b.acquired, owner));
    forall i | 0 <= i < |b.acquired| ensures (Normalize(keys[i]), owner) in OwnLeases(b.acquired, owner) {
      assert (b.acquired[i], owner) == (Normalize(keys[i]), owner);
    }
  }

  const HELD := Key("host", "a", "read")
  const WANTED := Key("host", "b", "write")

  lemma PlainText(s: string)
    requires Lowered(s) && Trimmed(s)
    ensures TrimSpace(ToLower(s)) == s == TrimSpace(s)
  {
    ToLowerLowers(s);
    TrimSpaceTrims(s);
  }

  lemma HeldIsNormal()
    ensures Normalize(HELD) == HELD
  {
    PlainText("host");
    PlainText("read");
    PlainText("a");
  }

  lemma WantedIsNormal()
    ensures Normalize(WANTED) == WANTED && IsWrite(WANTED.operationKind)
  {
    PlainText("host");
    PlainText("write");
    PlainText("b");
    assert ToLower(TrimSpace("write")) == "write";
  }

  /** An owner reads `a` while another one writes `b`. */
  function OneEach(): Table {
    map[(HELD, "me") := 100, (WANTED, "other") := 100]
  }

  lemma OnlyHeldIsFree()
    ensures !Denied(OneEach(), HELD, "me") && Denied(OneEach(), WANTED, "me")
  {
    WantedIsNormal();
    assert Blocks(OneEach(), (WANTED, "other"), WANTED, "me");
  }

  lemma NoKeyError()
    ensures AcquireError(HELD, "me").None?
  {
    HeldIsNormal();
    PlainText("me");
  }

  lemma FirstIsGranted()
    ensures FirstRefused(OneEach(), [HELD, WANTED], "me", 0) == 1
  {
    HeldIsNormal();
    WantedIsNormal();
    OnlyHeldIsFree();
    NoKeyError();
    var keys := [HELD, WANTED];
    assert KeyOk(OneEach(), keys, "me", 0) && !KeyOk(OneEach(), keys, "me", 1);
    assert FirstRefused(OneEach(), keys, "me", 1) == 1;
  }

  lemma NothingExpiresYet(ttl: int)
    requires ttl > 2
    ensures NothingExpires(OneEach(), ttl, [1, 2])
  {
  }

  /** The reader asks for `a` and `b`: it is refused and loses the lease on `a` it had before. */
  lemma LeaseIsLost(ttl: int)
    requires ttl > 2
    ensures var b := AcquireBatch(OneEach(), ttl, [HELD, WANTED], "me", [1, 2]);
      !b.ok && (HELD, "me") in OneEach() && (HELD, "me") !in b.table
  {
    NothingExpiresYet(ttl);
    FirstIsGranted();
    HeldIsNormal();
    BatchVerdict(OneEach(), ttl, [HELD, WANTED], "me", [1, 2]);
    BatchIs(OneEach(), ttl, [HELD, WANTED], "me", [1, 2]);
    var b := AcquireBatch(OneEach(), ttl, [HELD, WANTED], "me", [1, 2]);
    assert (b.acquired[0], "me") in OwnLeases(b.acquired, "me");
  }

  lemma MinusIsSame(t: Table, gone: set<Lease>)
    ensures t - gone == t <==> forall l :: l in gone ==> l !in t
  {
    if t - gone == t {
      forall l | l in gone ensures l !in t {
        assert l !in t - gone;
      }
    }
  }

  /** A granted batch holds every key, and its release restores the table exactly when the owner held none before. */
  lemma SuccessHoldsAndReleases(t: Table, ttl: int, keys: seq<Key>, owner: string, times: seq<int>)
    requires |keys| == |times| && NothingExpires(t, ttl, times)
    requires forall i :: 0 <= i < |keys| ==> KeyOk(t, keys, owner, i)
    ensures var b := AcquireBatch(t, ttl, keys, owner, times);
      && b.ok
      && (forall i :: 0 <= i < |keys| ==> (Normalize(keys[i]), owner) in b.table)
      && (ReleaseAll(b.table, b.acquired, owner) == t
          <==> forall i :: 0 <= i < |keys| ==> (Normalize(keys[i]), owner) !in t)
  {
    BatchVerdict(t, ttl, keys, owner, times);
    BatchIs(t, ttl, keys, owner, times);
    var b := AcquireBatch(t, ttl, keys, owner, times);
    forall i | 0 <= i < |keys| ensures Normalize(b.acquired[i]) == b.acquired[i]
                               ensures (Normalize(keys[i]), owner) in OwnLeases(b.acquired, owner) {
      NormalizeTwice(keys[i]);
      assert (b.acquired[i], owner) == (Normalize(keys[i]), owner);
    }
    UndoGrowth(t, b.table, b.acquired, owner);
    MinusIsSame(t, OwnLeases(b.acquired, owner));
  }

  /** No batch and no release touches a lease of another owner. */
  lemma BatchLeavesOthers(t: Table, ttl: int, keys: seq<Key>, owner: string, times: seq<int>, l: Lease)
    requires |keys| == |times| && NothingExpires(t, ttl, times) && l.1 != owner
    ensures var b := AcquireBatch(t, ttl, keys, owner, times);
      (l in b.table <==> l in t) && (l in t ==> b.table[l] == t[l])
  {
    BatchIs(t, ttl, keys, owner, times);
  }
}
