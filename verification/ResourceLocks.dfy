/**
 Read/write locks on resources, held as leases that expire. A lease is a (key, owner) pair; the
 manager keeps the leases of one key in one map, `Table` is the same thing as one flat map.
 */
module ResourceLocks {
  import opened Wrappers
  import opened Text

  datatype Key = Key(resourceType: string, resourceID: string, operationKind: string)

  type Lease = (Key, string)
  type Table = map<Lease, int>

  datatype LockError = TypeRequired | ResourceRequired | OperationRequired | OwnerRequired

  function Normalize(k: Key): Key {
    Key(TrimSpace(ToLower(k.resourceType)), TrimSpace(k.resourceID), TrimSpace(ToLower(k.operationKind)))
  }

  lemma NormalizeTwice(k: Key)
    ensures Normalize(Normalize(k)) == Normalize(k)
  {
    NormalFormIsStable(k.resourceType);
    TrimSpaceTrims(k.resourceID);
    TrimSpaceTrims(TrimSpace(k.resourceID));
    NormalFormIsStable(k.operationKind);
  }

  predicate NormalKeys(keys: seq<Key>) {
    forall i :: 0 <= i < |keys| ==> Normalize(keys[i]) == keys[i]
  }

  function KeyError(k: Key): Option<LockError> {
    if k.resourceType == "" then Some(TypeRequired)
    else if k.resourceID == "" then Some(ResourceRequired)
    else if k.operationKind == "" then Some(OperationRequired)
    else None
  }

  predicate IsWrite(operation: string) {
    ToLower(TrimSpace(operation)) in {"write", "mutate", "delete", "create", "update", "execute"}
  }

  predicate SameResource(a: Key, b: Key) {
    a.resourceType == b.resourceType && a.resourceID == b.resourceID
  }

  predicate Conflict(a: Key, b: Key) {
    SameResource(a, b) && (IsWrite(a.operationKind) || IsWrite(b.operationKind))
  }

  /** The zero time never expires. */
  predicate Expired(expiresAt: int, now: int) {
    expiresAt != 0 && expiresAt <= now
  }

  // ---------------------------------------------------------------- the table

  /** Two distinct leases on one resource are both for reading. */
  predicate Exclusive(t: Table) {
    forall a, b :: a in t && b in t && a != b ==> !Conflict(a.0, b.0)
  }

  function Purged(t: Table, now: int): Table {
    map l | l in t && !Expired(t[l], now) :: t[l]
  }

  predicate Blocks(t: Table, l: Lease, key: Key, owner: string) {
    l in t && l != (key, owner) && Conflict(l.0, key)
  }

  /** A live lease other than the caller's own on this key conflicts. */
  predicate Denied(t: Table, key: Key, owner: string) {
    exists l :: l in t && Blocks(t, l, key, owner)
  }

  /** Acquire on a normalised, valid key: an existing own lease is kept as it is. */
  function Acquire(t: Table, ttl: int, key: Key, owner: string, now: int): (Table, bool) {
    var live := Purged(t, now);
    if Denied(live, key, owner) then (live, false)
    else if (key, owner) in live then (live, true)
    else (live[(key, owner) := now + ttl], true)
  }

  function Released(t: Table, key: Key, owner: string): Table {
    t - {(Normalize(key), owner)}
  }

  // ---------------------------------------------------------------- the manager

  type Leases = map<Key, map<string, int>>

  predicate Has(leases: Leases, k: Key, o: string) {
    k in leases && o in leases[k]
  }

  /** The nested maps hold exactly the leases of the flat table. */
  ghost predicate Matches(leases: Leases, t: Table) {
    && (forall k, o :: Has(leases, k, o) <==> (k, o) in t)
    && (forall k, o :: Has(leases, k, o) ==> leases[k][o] == t[(k, o)])
  }

  predicate NoEmptyKey(leases: Leases) {
    forall k :: k in leases ==> leases[k] != map[]
  }

  function Put(leases: Leases, key: Key, owner: string, expiresAt: int): Leases {
    leases[key := (if key in leases then leases[key] else map[])[owner := expiresAt]]
  }

  lemma PutMatches(leases: Leases, t: Table, key: Key, owner: string, expiresAt: int)
    requires NoEmptyKey(leases) && Matches(leases, t)
    ensures NoEmptyKey(Put(leases, key, owner, expiresAt))
    ensures Matches(Put(leases, key, owner, expiresAt), t[(key, owner) := expiresAt])
  {
    var after := Put(leases, key, owner, expiresAt);
    assert owner in after[key];
    forall k, o ensures Has(after, k, o) <==> Has(leases, k, o) || (k, o) == (key, owner) {
      if k != key {
        assert Has(after, k, o) <==> Has(leases, k, o);
      }
    }
  }

  /** Takes a lease out, and its key with the last of its owners. */
  function TakeOut(leases: Leases, key: Key, owner: string): Leases {
    if !Has(leases, key, owner) then leases
    else
      var owners := leases[key] - {owner};
      if |owners| == 0 then leases - {key} else leases[key := owners]
  }

  lemma TakeOutMatches(leases: Leases, t: Table, key: Key, owner: string)
    requires NoEmptyKey(leases) && Matches(leases, t)
    ensures NoEmptyKey(TakeOut(leases, key, owner))
    ensures Matches(TakeOut(leases, key, owner), t - {(key, owner)})
  {
    var after := TakeOut(leases, key, owner);
    if Has(leases, key, owner) {
      var owners := leases[key] - {owner};
      assert |owners| == 0 <==> owners == map[];
      assert forall k, o :: Has(after, k, o) <==> Has(leases, k, o) && !(k == key && o == owner);
    }
  }

  datatype LockResult = LockResult(acquired: bool, key: Key, blocking: string)

  const DEFAULT_TTL := 600

  class ResourceLockManager {
    var leases: Leases
    const ttl: int
    /** The same leases, as a flat table. */
    ghost var table: Table

    constructor ()
      ensures Valid() && table == map[] && ttl == DEFAULT_TTL
    {
      leases, ttl, table := map[], DEFAULT_TTL, map[];
    }

    ghost predicate Valid()
      reads this
    {
      NoEmptyKey(leases) && Matches(leases, table) && Exclusive(table)
    }

    function EffectiveTTL(): int {
      if ttl <= 0 then DEFAULT_TTL else ttl
    }

    /** Keeps the live owners of one key. */
    method LiveOwners(owners: map<string, int>, now: int) returns (live: map<string, int>)
      ensures live == map o | o in owners && !Expired(owners[o], now) :: owners[o]
    {
      live := owners;
      var rest := owners.Keys;
      while rest != {}
        invariant rest <= owners.Keys
        invariant live == map o | o in owners && (o in rest || !Expired(owners[o], now)) :: owners[o]
        decreases rest
      {
        var owner :| owner in rest;
        if owners[owner] != 0 && !(owners[owner] > now) {
          live := live - {owner};
        }
        rest := rest - {owner};
      }
    }

    method PurgeExpired(now: int)
      requires Valid()
      modifies this
      ensures Valid() && table == Purged(old(table), now)
    {
      var all := leases;
      var rest := leases.Keys;
      leases := map[];
      while rest != {}
        invariant rest <= all.Keys && table == old(table)
        invariant NoEmptyKey(leases) && leases.Keys <= all.Keys - rest
        invariant PurgedPart(all, leases, rest, now)
        decreases rest
      {
        var key :| key in rest;
        var live := LiveOwners(all[key], now);
        PurgedStep(all, leases, rest, now, key, live);
        if live != map[] {
          leases := leases[key := live];
        }
        rest := rest - {key};
      }
      PurgedMatches(all, leases, table, now);
      PurgeKeepsExclusive(table, now);
      table := Purged(table, now);
    }

    /** Looks for the caller's own lease or a conflicting one, in any order. */
    method Scan(key: Key, owner: string) returns (own: bool, blocker: Option<Lease>)
      requires Valid()
      ensures own ==> (key, owner) in table && !Denied(table, key, owner)
      ensures !own && blocker.Some? ==> Denied(table, key, owner) && Blocks(table, blocker.value, key, owner)
      ensures !own && blocker.None? ==> (key, owner) !in table && !Denied(table, key, owner)
    {
      own, blocker := false, None;
      var rest := leases.Keys;
      while rest != {}
        invariant rest <= leases.Keys
        invariant forall k :: k in leases && k !in rest ==> !(k == key && owner in leases[k]) && !Conflict(k, key)
        decreases rest
      {
        var held :| held in rest;
        if owner in leases[held] && held == key {
          assert Has(leases, key, owner);
          return true, None;
        }
        if Conflict(held, key) {
          assert leases[held] != map[];
          assert leases[held].Keys != {};
          var blocking :| blocking in leases[held];
          assert Has(leases, held, blocking);
          return false, Some((held, blocking));
        }
        rest := rest - {held};
      }
    }

    method TryAcquire(rawKey: Key, owner: string, now: int) returns (r: Result<LockResult, LockError>)
      requires Valid()
      modifies this
      ensures Valid()
      ensures AcquireError(rawKey, owner).Some? ==>
        r == Failure(AcquireError(rawKey, owner).value) && table == old(table)
      ensures AcquireError(rawKey, owner).None? ==>
        r.Success? && r.value.key == Normalize(rawKey) &&
        (table, r.value.acquired) == Acquire(old(table), EffectiveTTL(), Normalize(rawKey), owner, now)
      ensures r.Success? && !r.value.acquired ==>
        exists held :: Blocks(table, (held, r.value.blocking), Normalize(rawKey), owner)
    {
      var key := Normalize(rawKey);
      var error := AcquireError(rawKey, owner);
      if error.Some? {
        return Failure(error.value);
      }
      PurgeExpired(now);
      var own, blocker := Scan(key, owner);
      if own {
        return Success(LockResult(true, key, ""));
      }
      if blocker.Some? {
        assert Blocks(table, (blocker.value.0, blocker.value.1), key, owner);
        return Success(LockResult(false, key, blocker.value.1));
      }
      Grant(key, owner, now + EffectiveTTL());
      return Success(LockResult(true, key, ""));
    }

    method Grant(key: Key, owner: string, expiresAt: int)
      requires Valid() && !Denied(table, key, owner)
      modifies this
      ensures Valid() && table == old(table)[(key, owner) := expiresAt]
    {
      PutMatches(leases, table, key, owner, expiresAt);
      leases := Put(leases, key, owner, expiresAt);
      GrantKeepsExclusive(table, key, owner, expiresAt);
      table := table[(key, owner) := expiresAt];
    }

    method Release(rawKey: Key, owner: string) returns (found: bool)
      requires Valid()
      modifies this
      ensures Valid()
      ensures table == Released(old(table), rawKey, owner)
      ensures found <==> (Normalize(rawKey), owner) in old(table)
    {
      var key := Normalize(rawKey);
      TakeOutMatches(leases, table, key, owner);
      found := key in leases && owner in leases[key];
      assert found <==> Has(leases, key, owner);
      leases := TakeOut(leases, key, owner);
      table := Released(table, rawKey, owner);
    }
  }

  function AcquireError(rawKey: Key, owner: string): Option<LockError> {
    var error := KeyError(Normalize(rawKey));
    if error.Some? then error else if TrimSpace(owner) == "" then Some(OwnerRequired) else None
  }

  /** The keys outside `rest` have been purged. */
  ghost predicate PurgedPart(all: Leases, live: Leases, rest: set<Key>, now: int) {
    && (forall k, o :: Has(live, k, o) <==> k !in rest && Has(all, k, o) && !Expired(all[k][o], now))
    && (forall k, o :: Has(live, k, o) ==> Has(all, k, o) && live[k][o] == all[k][o])
  }

  lemma PurgedStep(all: Leases, leases: Leases, rest: set<Key>, now: int, key: Key, live: map<string, int>)
    requires PurgedPart(all, leases, rest, now) && key in rest && key in all && key !in leases
    requires live == map o | o in all[key] && !Expired(all[key][o], now) :: all[key][o]
    ensures PurgedPart(all, if live == map[] then leases else leases[key := live], rest - {key}, now)
  {
    var after := if live == map[] then leases else leases[key := live];
    forall k, o ensures Has(after, k, o) <==> k !in rest - {key} && Has(all, k, o) && !Expired(all[k][o], now)
                ensures Has(after, k, o) ==> Has(all, k, o) && after[k][o] == all[k][o] {
      if k == key {
        assert Has(after, k, o) <==> o in live;
      } else {
        assert Has(after, k, o) <==> Has(leases, k, o);
      }
    }
  }

  lemma PurgedMatches(all: Leases, live: Leases, t: Table, now: int)
    requires Matches(all, t) && PurgedPart(all, live, {}, now)
    ensures Matches(live, Purged(t, now))
  {
  }

  // ---------------------------------------------------------------- every reachable table

  lemma PurgeKeepsExclusive(t: Table, now: int)
    requires Exclusive(t)
    ensures Exclusive(Purged(t, now))
  {
  }

  lemma GrantKeepsExclusive(t: Table, key: Key, owner: string, expiresAt: int)
    requires Exclusive(t) && !Denied(t, key, owner)
    ensures Exclusive(t[(key, owner) := expiresAt])
  {
    forall l | l in t && l != (key, owner) ensures !Conflict(l.0, key) {
      assert !Blocks(t, l, key, owner);
    }
  }

  lemma AcquireKeepsExclusive(t: Table, ttl: int, key: Key, owner: string, now: int)
    requires Exclusive(t)
    ensures Exclusive(Acquire(t, ttl, key, owner, now).0)
  {
    PurgeKeepsExclusive(t, now);
    if !Denied(Purged(t, now), key, owner) {
      GrantKeepsExclusive(Purged(t, now), key, owner, now + ttl);
    }
  }

  datatype LockOp = LockAcquire(key: Key, owner: string, now: int) | LockRelease(key: Key, owner: string)

  function TableAfter(ttl: int, ops: seq<LockOp>): Table {
    if ops == [] then map[]
    else
      var t := TableAfter(ttl, ops[..|ops| - 1]);
      match ops[|ops| - 1]
      case LockAcquire(key, owner, now) => Acquire(t, ttl, Normalize(key), owner, now).0
      case LockRelease(key, owner) => Released(t, key, owner)
  }

  /** In every reachable table two leases on one resource are both for reading. */
  lemma {:induction false} EveryTableIsExclusive(ttl: int, ops: seq<LockOp>)
    ensures Exclusive(TableAfter(ttl, ops))
  {
    if ops != [] {
      EveryTableIsExclusive(ttl, ops[..|ops| - 1]);
      var t := TableAfter(ttl, ops[..|ops| - 1]);
      match ops[|ops| - 1]
      case LockAcquire(key, owner, now) => AcquireKeepsExclusive(t, ttl, Normalize(key), owner, now);
      case LockRelease(key, owner) =>
    }
  }

  /** Why the order of the scan is irrelevant: whoever holds the key is not blocked on it. */
  lemma HolderIsNotBlocked(t: Table, key: Key, owner: string)
    requires Exclusive(t) && (key, owner) in t
    ensures !Denied(t, key, owner)
  {
    forall l | l in t ensures !Blocks(t, l, key, owner) {
      if l != (key, owner) {
        assert !Conflict(l.0, (key, owner).0);
      }
    }
  }

  /** No operation of one owner touches a live lease of another. */
  lemma OthersUntouched(t: Table, ttl: int, key: Key, owner: string, now: int, l: Lease)
    requires l.1 != owner
    ensures l in Acquire(t, ttl, key, owner, now).0 <==> l in t && !Expired(t[l], now)
    ensures l in Acquire(t, ttl, key, owner, now).0 ==> Acquire(t, ttl, key, owner, now).0[l] == t[l]
    ensures l in Released(t, key, owner) <==> l in t
    ensures l in t ==> Released(t, key, owner)[l] == t[l]
  {
  }
}
