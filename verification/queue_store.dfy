/** app/queue/queue_store.py: every QueueStore operation as a method on the two
    tables it writes. `false` or None stands for the IntegrityError of the unique
    index, after which the transaction is rolled back. */
module QueueStores {
  import opened Text
  import opened Wrappers
  import opened QueueTable
  import L = Locks

  datatype LetterStatus = Open | Resolved | Ignored

  datatype Letter = Letter(
    company: string,
    entity: string,
    entityId: string,
    source: string,
    payload: Option<string>,
    error: string,
    status: LetterStatus
  )

  function Digits(n: nat): string {
    var last := [('0' as int + n % 10) as char];
    if n < 10 then last else Digits(n / 10) + last
  }

  /** The letter mark_dlq leaves. It does not copy the job's company. */
  function LetterOf(j: Job, id: nat, reason: string): Letter {
    Letter("default", j.entity, "", Or(j.entityId, Digits(id)), j.payload, reason, Open)
  }

  function Truncated(s: string): string {
    if |s| <= 1000 then s else s[..1000]
  }

  function RecoveryLetter(j: Job, id: nat, threshold: int, reason: string, now: int): seq<Letter> {
    if Stale(j, threshold, now) && j.maxAttempts <= j.attemptCount + 1 then [LetterOf(j, id, reason)] else []
  }

  /** The letters recovery leaves for the first n jobs, in id order. */
  function RecoveryLetters(t: Jobs, n: nat, threshold: int, reason: string, now: int): seq<Letter>
    requires n <= |t|
  {
    if n == 0 then []
    else RecoveryLetters(t, n - 1, threshold, reason, now) + RecoveryLetter(t[n - 1], n, threshold, reason, now)
  }

  function StaleCount(t: Jobs, n: nat, threshold: int, now: int): nat
    requires n <= |t|
  {
    if n == 0 then 0 else StaleCount(t, n - 1, threshold, now) + if Stale(t[n - 1], threshold, now) then 1 else 0
  }

  function RetriableCount(t: Jobs, n: nat): nat
    requires n <= |t|
  {
    if n == 0 then 0 else RetriableCount(t, n - 1) + if Retriable(t[n - 1].status) then 1 else 0
  }

  lemma RecoveryOfOne(j: Job, id: nat, threshold: int, reason: string, now: int)
    ensures !Stale(j, threshold, now) ==> RecoveredJob(j, threshold, reason, now) == j
                                          && RecoveryLetter(j, id, threshold, reason, now) == []
    ensures Stale(j, threshold, now) ==>
              |RecoveryLetter(j, id, threshold, reason, now)| == if j.maxAttempts <= j.attemptCount + 1 then 1 else 0
  {
  }

  class QueueStore {
    var jobs: Jobs
    var letters: seq<Letter>

    /** What SQLite itself maintains. */
    ghost predicate Valid()
      reads this
    {
      ActiveUnique(jobs)
    }

    constructor ()
      ensures Valid() && jobs == [] && letters == []
    {
      jobs, letters := [], [];
    }

    method Commit(after: Jobs) returns (ok: bool)
      requires Valid()
      modifies this`jobs
      ensures Valid() && ok == ActiveUnique(after) && jobs == Committed(old(jobs), after)
    {
      ok := ActiveUnique(after);
      if ok {
        jobs := after;
      }
    }

    method Enqueue(entityType: string, payload: Option<string>, priority: bool, entityId: string, company: string, now: int)
      returns (id: Option<nat>)
      requires Valid()
      modifies this`jobs
      ensures Valid() && (Normalised(old(jobs)) ==> Normalised(jobs))
      ensures jobs == AfterEnqueue(old(jobs), entityType, payload, priority, entityId, company, now)
      ensures id == if Blocked(old(jobs), company, NormalizeEntityType(entityType), entityType) then None else Some(|jobs|)
    {
      var norm := NormalizeEntityType(entityType);
      EnqueueKeepsIndex(jobs, entityType, payload, priority, entityId, company, now);
      hide NormalizeEntityType, ActiveUnique, Normalised, Blocked;
      var present := HasBlocking(company, norm, entityType);
      if present {
        return None;
      }
      var ok := Commit(jobs + [NewJob(company, norm, entityId, payload, DueOnEnqueue(priority, now))]);
      return Some(|jobs|);
    }

    method HasBlocking(company: string, norm: string, raw: string) returns (present: bool)
      ensures present == Blocked(jobs, company, norm, raw)
    {
      for i := 0 to |jobs|
        invariant forall k :: 0 <= k < i ==> !Blocks(jobs[k], company, norm, raw)
      {
        if Blocks(jobs[i], company, norm, raw) {
          return true;
        }
      }
      return false;
    }

    method ClaimNextJob(now: int) returns (id: Option<nat>)
      requires Valid()
      modifies this`jobs
      ensures Valid()
      ensures id == None ==> NothingDue(old(jobs), now) && jobs == old(jobs)
      ensures id.Some? ==> NextDue(old(jobs), id.value, now)
                           && jobs == Replaced(old(jobs), id.value, Claimed(old(jobs)[id.value - 1], now))
    {
      for i := 0 to |jobs|
        invariant jobs == old(jobs)
        invariant forall k :: 0 <= k < i ==> !Due(jobs[k], now)
      {
        if Due(jobs[i], now) {
          ClaimAccepted(jobs, i + 1, now);
          var ok := Commit(Replaced(jobs, i + 1, Claimed(jobs[i], now)));
          return Some(i + 1);
        }
      }
      return None;
    }

    method MarkWaitingForDependency(id: int, reason: string, delay: int, now: int) returns (ok: bool)
      requires Valid()
      modifies this`jobs
      ensures Valid()
      ensures !HasJob(old(jobs), id) ==> ok && jobs == old(jobs)
      ensures HasJob(old(jobs), id) ==>
                ok == !KeyBusy(old(jobs), id)
                && jobs == if ok then Replaced(old(jobs), id, Waiting(old(jobs)[id - 1], Truncated(reason), now + delay)) else old(jobs)
    {
      if !HasJob(jobs, id) {
        return true;
      }
      var j := Waiting(jobs[id - 1], Truncated(reason), now + delay);
      MarkActiveRefusedIff(jobs, id, j);
      ok := Commit(Replaced(jobs, id, j));
    }

    method MarkRetrying(id: int, reason: string, delay: int, now: int) returns (ok: bool)
      requires Valid()
      modifies this`jobs
      ensures Valid()
      ensures !HasJob(old(jobs), id) ==> ok && jobs == old(jobs)
      ensures HasJob(old(jobs), id) ==>
                ok == !KeyBusy(old(jobs), id)
                && jobs == if ok then Replaced(old(jobs), id, Retried(old(jobs)[id - 1], Truncated(reason), now + delay)) else old(jobs)
    {
      if !HasJob(jobs, id) {
        return true;
      }
      var j := Retried(jobs[id - 1], Truncated(reason), now + delay);
      MarkActiveRefusedIff(jobs, id, j);
      ok := Commit(Replaced(jobs, id, j));
    }

    method MarkSuccess(id: int, partial: bool, now: int)
      requires Valid()
      modifies this`jobs
      ensures Valid()
      ensures jobs == if HasJob(old(jobs), id) then Replaced(old(jobs), id, Succeeded(old(jobs)[id - 1], partial, now)) else old(jobs)
    {
      if HasJob(jobs, id) {
        MarkInactiveAccepted(jobs, id, Succeeded(jobs[id - 1], partial, now));
        var ok := Commit(Replaced(jobs, id, Succeeded(jobs[id - 1], partial, now)));
      }
    }

    method MarkDlq(id: int, reason: string, now: int)
      requires Valid()
      modifies this
      ensures Valid()
      ensures !HasJob(old(jobs), id) ==> jobs == old(jobs) && letters == old(letters)
      ensures HasJob(old(jobs), id) ==>
                jobs == Replaced(old(jobs), id, DeadLettered(old(jobs)[id - 1], Truncated(reason), now))
                && letters == old(letters) + [LetterOf(old(jobs)[id - 1], id, Truncated(reason))]
    {
      if HasJob(jobs, id) {
        var j := jobs[id - 1];
        MarkInactiveAccepted(jobs, id, DeadLettered(j, Truncated(reason), now));
        var ok := Commit(Replaced(jobs, id, DeadLettered(j, Truncated(reason), now)));
        letters := letters + [LetterOf(j, id, Truncated(reason))];
      }
    }

    method RecoverJob(id: int, threshold: int, reason: string, now: int)
      requires Valid() && HasJob(jobs, id) && Stale(jobs[id - 1], threshold, now) && |reason| <= 1000
      modifies this
      ensures Valid()
      ensures jobs == Replaced(old(jobs), id, RecoveredJob(old(jobs)[id - 1], threshold, reason, now))
      ensures letters == old(letters) + RecoveryLetter(old(jobs)[id - 1], id, threshold, reason, now)
    {
      var j := jobs[id - 1];
      if j.maxAttempts <= j.attemptCount + 1 {
        MarkDlq(id, reason, now);
      } else {
        MarkActiveRefusedIff(jobs, id, Recovered(j, reason, now));
        hide ActiveUnique;
        var ok := Commit(Replaced(jobs, id, Recovered(j, reason, now)));
      }
    }

    /** Expired locks are purged first. */
    method RecoverCrashedJobs(locks: L.LockManager, threshold: int, reason: string, now: int)
      returns (retrying: nat, dlq: nat, purged: nat)
      requires Valid() && |reason| <= 1000
      modifies this, locks
      ensures Valid()
      ensures locks.rows == L.Purged(old(locks.rows), now) && purged == |old(locks.rows)| - |locks.rows|
      ensures jobs == AfterRecovery(old(jobs), threshold, reason, now)
      ensures letters == old(letters) + RecoveryLetters(old(jobs), |old(jobs)|, threshold, reason, now)
      ensures dlq == |RecoveryLetters(old(jobs), |old(jobs)|, threshold, reason, now)|
      ensures retrying + dlq == StaleCount(old(jobs), |old(jobs)|, threshold, now)
    {
      hide ActiveUnique, RecoveredJob, Stale, RecoveryLetter, L.Purged;
      purged := locks.PurgeExpiredLocks(now);
      retrying, dlq := 0, 0;
      for i := 0 to |jobs|
        invariant Valid() && |jobs| == |old(jobs)|
        invariant forall k :: 0 <= k < i ==> jobs[k] == RecoveredJob(old(jobs)[k], threshold, reason, now)
        invariant forall k :: i <= k < |jobs| ==> jobs[k] == old(jobs)[k]
        invariant letters == old(letters) + RecoveryLetters(old(jobs), i, threshold, reason, now)
        invariant dlq == |RecoveryLetters(old(jobs), i, threshold, reason, now)|
        invariant retrying + dlq == StaleCount(old(jobs), i, threshold, now)
        invariant locks.rows == L.Purged(old(locks.rows), now) && purged == |old(locks.rows)| - |locks.rows|
      {
        RecoveryOfOne(jobs[i], i + 1, threshold, reason, now);
        if Stale(jobs[i], threshold, now) {
          if jobs[i].maxAttempts <= jobs[i].attemptCount + 1 {
            dlq := dlq + 1;
          } else {
            retrying := retrying + 1;
          }
          RecoverJob(i + 1, threshold, reason, now);
        }
      }
    }

    method CancelJob(id: int, now: int) returns (cancelled: bool)
      requires Valid()
      modifies this`jobs
      ensures Valid()
      ensures cancelled == (HasJob(old(jobs), id) && Active(old(jobs)[id - 1].status))
      ensures jobs == if cancelled then Replaced(old(jobs), id, CancelledJob(old(jobs)[id - 1], now)) else old(jobs)
    {
      cancelled := HasJob(jobs, id) && Active(jobs[id - 1].status);
      if cancelled {
        MarkInactiveAccepted(jobs, id, CancelledJob(jobs[id - 1], now));
        var ok := Commit(Replaced(jobs, id, CancelledJob(jobs[id - 1], now)));
      }
    }

    /** The count is the statement's row count; None is the refused statement. */
    method RetryFailedJobs(now: int) returns (count: Option<nat>)
      requires Valid()
      modifies this`jobs
      ensures Valid()
      ensures count == if BulkClash(old(jobs)) then None else Some(RetriableCount(old(jobs), |old(jobs)|))
      ensures jobs == if BulkClash(old(jobs)) then old(jobs) else AllReset(old(jobs), now)
    {
      BulkRetryRefusedIff(jobs, now);
      hide ActiveUnique, BulkClash, AllReset;
      var n := 0;
      for i := 0 to |jobs|
        invariant n == RetriableCount(jobs, i)
      {
        n := if Retriable(jobs[i].status) then n + 1 else n;
      }
      var ok := Commit(AllReset(jobs, now));
      count := if ok then Some(n) else None;
    }
  }
}
