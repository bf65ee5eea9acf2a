/** Record-level leases: app/queue/lock_manager.py. The table is sync_locks,
    keyed by lock_key; times are whole seconds, as the stored timestamps are. */
module Locks {
  import opened Text

  datatype Lease = Lease(worker: string, expires: int)
  type LockTable = map<string, Lease>

  /** generate_lock_key. */
  function LockKey(company: string, entityType: string, direction: string, recordId: string): string {
    Lower(Strip(Or(company, "default"))) + ":" + Lower(Strip(entityType)) + ":"
    + Lower(Strip(Or(direction, "forward"))) + ":" + Strip(recordId)
  }

  function Purged(rows: LockTable, now: int): LockTable {
    map k | k in rows && now < rows[k].expires :: rows[k]
  }

  predicate Held(rows: LockTable, key: string, now: int) {
    key in rows && now < rows[key].expires
  }

  predicate CanAcquire(rows: LockTable, key: string, worker: string, now: int) {
    key != "" && worker != "" && !Held(rows, key, now)
  }

  function AfterAcquire(rows: LockTable, key: string, worker: string, now: int, seconds: int): LockTable {
    if CanAcquire(rows, key, worker, now) then rows[key := Lease(worker, now + seconds)] else rows
  }

  predicate CanRelease(rows: LockTable, key: string, worker: string) {
    key != "" && worker != "" && key in rows && rows[key].worker == worker
  }

  function AfterRelease(rows: LockTable, key: string, worker: string): LockTable {
    if CanRelease(rows, key, worker) then rows - {key} else rows
  }

  class LockManager {
    var rows: LockTable
    const defaultLeaseSeconds: int

    constructor (leaseSeconds: int)
      ensures rows == map[] && defaultLeaseSeconds == leaseSeconds
    {
      rows := map[];
      defaultLeaseSeconds := leaseSeconds;
    }

    method PurgeExpiredLocks(now: int) returns (count: nat)
      modifies this
      ensures rows == Purged(old(rows), now)
      ensures count == |old(rows)| - |rows|
    {
      var kept := Purged(rows, now);
      assert kept.Keys == rows.Keys - (rows.Keys - kept.Keys);
      count := |rows.Keys - kept.Keys|;
      rows := kept;
    }

    /** The stale row of this key is deleted first; the insert then fails exactly
        when the primary key is still taken. */
    method AcquireLock(key: string, worker: string, now: int, seconds: int) returns (ok: bool)
      modifies this
      ensures ok == CanAcquire(old(rows), key, worker, now)
      ensures rows == AfterAcquire(old(rows), key, worker, now, seconds)
    {
      if key == "" || worker == "" {
        return false;
      }
      if key in rows && rows[key].expires <= now {
        rows := rows - {key};
      }
      ok := key !in rows;
      if ok {
        rows := rows[key := Lease(worker, now + seconds)];
      }
    }

    method ReleaseLock(key: string, worker: string) returns (released: bool)
      modifies this
      ensures released == CanRelease(old(rows), key, worker)
      ensures rows == AfterRelease(old(rows), key, worker)
    {
      if key == "" || worker == "" {
        return false;
      }
      released := key in rows && rows[key].worker == worker;
      if released {
        rows := rows - {key};
      }
    }
  }

  // ---------- every run of the lock table ----------

  datatype Op =
    | Acquire(key: string, worker: string, seconds: int)
    | Release(key: string, worker: string)
    | Purge
    | Tick(elapsed: nat)

  datatype State = State(rows: LockTable, now: int)

  function Next(s: State, op: Op): State {
    match op
    case Acquire(k, w, d) => s.(rows := AfterAcquire(s.rows, k, w, s.now, d))
    case Release(k, w) => s.(rows := AfterRelease(s.rows, k, w))
    case Purge => s.(rows := Purged(s.rows, s.now))
    case Tick(d) => s.(now := s.now + d)
  }

  function Run(s: State, ops: seq<Op>): State
    decreases |ops|
  {
    if ops == [] then s else Run(Next(s, ops[0]), ops[1..])
  }

  predicate Granted(s: State, op: Op) {
    op.Acquire? && CanAcquire(s.rows, op.key, op.worker, s.now)
  }

  lemma {:induction false} ClockNeverGoesBack(s: State, ops: seq<Op>)
    ensures s.now <= Run(s, ops).now
    decreases |ops|
  {
    if ops != [] {
      ClockNeverGoesBack(Next(s, ops[0]), ops[1..]);
    }
  }

  /** A granted lease outlives every run that contains no release by its owner,
      for as long as the clock is before its expiry: nobody, its owner included,
      can acquire the key, and no other operation removes or alters the row. */
  lemma LeaseExcludes(s: State, lease: Op, ops: seq<Op>)
    requires Granted(s, lease)
    requires Release(lease.key, lease.worker) !in ops
    requires Run(Next(s, lease), ops).now < s.now + lease.seconds
    ensures var after := Run(Next(s, lease), ops);
            lease.key in after.rows && after.rows[lease.key] == Lease(lease.worker, s.now + lease.seconds)
            && forall w, d :: !Granted(after, Acquire(lease.key, w, d))
  {
    ClockNeverGoesBack(Next(s, lease), ops);
    HeldThrough(Next(s, lease), lease.key, ops);
  }

  lemma {:induction false} HeldThrough(s: State, key: string, ops: seq<Op>)
    requires Held(s.rows, key, s.now)
    requires Release(key, s.rows[key].worker) !in ops
    requires Run(s, ops).now < s.rows[key].expires
    ensures key in Run(s, ops).rows && Run(s, ops).rows[key] == s.rows[key]
    decreases |ops|
  {
    if ops != [] {
      var s' := Next(s, ops[0]);
      ClockNeverGoesBack(s', ops[1..]);
      assert key in s'.rows && s'.rows[key] == s.rows[key];
      HeldThrough(s', key, ops[1..]);
    }
  }

  /** The row there is now lasts: its owner does not release it, nor does it expire by
      `end`. */
  predicate Lasts(s: State, ops: seq<Op>, key: string, end: int) {
    key in s.rows && Release(key, s.rows[key].worker) !in ops && end < s.rows[key].expires
  }

  /** Some acquire of the key in the run was granted, and that lease lasts. */
  predicate GrantLasts(s: State, ops: seq<Op>, key: string, end: int)
    decreases |ops|
  {
    ops != []
    && ((Granted(s, ops[0]) && ops[0].key == key && Release(key, ops[0].worker) !in ops[1..] && end < s.now + ops[0].seconds)
        || GrantLasts(Next(s, ops[0]), ops[1..], key, end))
  }

  predicate Named(rows: LockTable) {
    forall k :: k in rows ==> k != "" && rows[k].worker != ""
  }

  lemma {:induction false} HeldThroughIff(s: State, ops: seq<Op>, key: string)
    requires Named(s.rows)
    ensures Held(Run(s, ops).rows, key, Run(s, ops).now)
            <==> Lasts(s, ops, key, Run(s, ops).now) || GrantLasts(s, ops, key, Run(s, ops).now)
    decreases |ops|
  {
    if ops != [] {
      var s' := Next(s, ops[0]);
      ClockNeverGoesBack(s, ops);
      assert ops == [ops[0]] + ops[1..];
      HeldThroughIff(s', ops[1..], key);
    }
  }

  /** From an empty table, a key is refused after any run if and only if an acquire of it
      was granted, its owner has not released it since, and its lease has not run out. So
      a crashed owner blocks a key no longer than its lease. */
  lemma RefusedIff(start: int, ops: seq<Op>, key: string, worker: string, seconds: int)
    requires key != "" && worker != ""
    ensures var s := Run(State(map[], start), ops);
            !Granted(s, Acquire(key, worker, seconds)) <==> GrantLasts(State(map[], start), ops, key, s.now)
  {
    HeldThroughIff(State(map[], start), ops, key);
  }

  /** Distinct record ids of one company, entity and direction get distinct keys. */
  lemma KeysSeparateRecords(company: string, entityType: string, direction: string, id: string, id': string)
    requires LockKey(company, entityType, direction, id) == LockKey(company, entityType, direction, id')
    ensures Strip(id) == Strip(id')
  {
    var head := Lower(Strip(Or(company, "default"))) + ":" + Lower(Strip(entityType)) + ":"
    + Lower(Strip(Or(direction, "forward"))) + ":";
    assert Strip(id) == LockKey(company, entityType, direction, id)[|head|..];
    assert Strip(id') == LockKey(company, entityType, direction, id')[|head|..];
  }
}
