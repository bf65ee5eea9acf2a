/** Lives of jobs: app/queue/worker.py over the queue table, for every interleaving of
    pool threads, API calls, clock ticks and crashes. A pool thread works from the
    snapshot of the row it claimed. */
module QueueLife {
  import opened Text
  import opened Wrappers
  import opened QueueTable
  import opened QueueStores
  import opened Backoff

  /** What _process_job copied from the claimed row. */
  datatype Snapshot = Snapshot(attempts: int, maxAttempts: int)

  datatype Outcome =
    | Returned(failed: nat, created: nat, updated: nat, skipped: nat)
    | MissingDependency(reason: string)
    | Raised(retryable: bool, message: string)

  /** `claims` and `waits` count what happened to each job since it was enqueued, or
      since retry_failed_jobs last revived it. `letters` is every dead letter written. */
  datatype State = State(
    jobs: Jobs,
    letters: seq<Letter>,
    now: int,
    inflight: map<int, Snapshot>,
    claims: seq<nat>,
    waits: seq<nat>
  )

  datatype Op =
    | Enqueue(entityType: string, payload: Option<string>, priority: bool, entityId: string, company: string)
    | Claim(id: int)
    | Finish(id: int, outcome: Outcome, delay: Option<int>)
    | Crash
    | Recover(threshold: int, reason: string)
    | Cancel(id: int)
    | RetryFailed
    | Tick(elapsed: nat)

  const EMPTY := State([], [], 0, map[], [], [])

  predicate AllFailed(o: Outcome) {
    o.Returned? && o.failed > 0 && o.created == 0 && o.updated == 0 && o.skipped == 0
  }

  predicate Partial(o: Outcome) {
    o.Returned? && o.failed > 0 && !AllFailed(o)
  }

  predicate TriesAgain(o: Outcome, snap: Snapshot, delay: Option<int>) {
    (AllFailed(o) || (o.Raised? && o.retryable)) && delay.Some? && snap.attempts + 1 < snap.maxAttempts
  }

  /** The thread tries to put the job back under an active status. */
  predicate PutsBack(o: Outcome, snap: Snapshot, delay: Option<int>) {
    o.MissingDependency? || TriesAgain(o, snap, delay)
  }

  /** What the thread reports as the job's error. */
  function MessageOf(o: Outcome, entity: string): string {
    Truncated(match o
              case Returned(failed, _, _, _) => AllFailedText(failed, entity)
              case MissingDependency(reason) => reason
              case Raised(_, message) => message)
  }

  /** The row the thread writes back, starting from the row as it is by then. */
  function Finished(j: Job, o: Outcome, snap: Snapshot, delay: Option<int>, now: int): Job {
    if o.MissingDependency? then Waiting(j, MessageOf(o, j.entity), now + 60)
    else if o.Returned? && !AllFailed(o) then Succeeded(j, Partial(o), now)
    else if TriesAgain(o, snap, delay) then Retried(j, MessageOf(o, j.entity), now + delay.value)
    else DeadLettered(j, MessageOf(o, j.entity), now)
  }

  const INDEX_ERROR := "UNIQUE constraint failed: sync_queue.company_id, sync_queue.entity_type"

  ghost predicate Can(cfg: RetryConfig, s: State, op: Op) {
    && |s.claims| == |s.waits| == |s.jobs|
    && match op
    case Claim(id) => NextDue(s.jobs, id, s.now) && id !in s.inflight
    case Finish(id, o, delay) =>
      id in s.inflight && HasJob(s.jobs, id) && IsDelay(cfg, s.inflight[id].attempts + 1, delay)
    case Recover(_, _) => s.inflight == map[]
    case _ => true
  }

  function Bump(counts: seq<nat>, id: int): seq<nat> {
    if 1 <= id <= |counts| then counts[id - 1 := counts[id - 1] + 1] else counts
  }

  function AfterEnqueueOp(s: State, jobs: Jobs): State {
    if |jobs| == |s.jobs| then s else s.(jobs := jobs, claims := s.claims + [0], waits := s.waits + [0])
  }

  function AfterClaim(s: State, id: int): State
    requires HasJob(s.jobs, id)
  {
    var j := s.jobs[id - 1];
    s.(jobs := Replaced(s.jobs, id, Claimed(j, s.now)), claims := Bump(s.claims, id),
       inflight := s.inflight[id := Snapshot(j.attemptCount, j.maxAttempts)])
  }

  function ErrorOf(j: Job): string {
    if j.error.Some? then j.error.value else ""
  }

  /** The thread lets go of the job, having written the row and, for DLQ, its letter. */
  function Wrote(s: State, id: int, j: Job): State
    requires HasJob(s.jobs, id)
  {
    s.(jobs := Replaced(s.jobs, id, j), inflight := s.inflight - {id},
       letters := if j.status == Dlq then s.letters + [LetterOf(j, id, ErrorOf(j))] else s.letters)
  }

  /** An active status is refused when the job's key has been taken meanwhile. For a job
      whose items all failed that refusal is one more exception, not a retryable one, and
      the handler dead-letters the job; from within the handlers it goes unheeded. */
  function AfterFinish(s: State, id: int, o: Outcome, delay: Option<int>): State
    requires HasJob(s.jobs, id) && id in s.inflight
  {
    var j := s.jobs[id - 1];
    var j' := Finished(j, o, s.inflight[id], delay, s.now);
    if ActiveUnique(Replaced(s.jobs, id, j')) then
      Wrote(s, id, j').(waits := if o.MissingDependency? then Bump(s.waits, id) else s.waits)
    else if AllFailed(o) then Wrote(s, id, DeadLettered(j, INDEX_ERROR, s.now))
    else s.(inflight := s.inflight - {id})
  }

  function AfterRecover(s: State, threshold: int, reason: string): State {
    s.(jobs := AfterRecovery(s.jobs, threshold, reason, s.now),
       letters := s.letters + RecoveryLetters(s.jobs, |s.jobs|, threshold, reason, s.now))
  }

  function AfterCancel(s: State, id: int): State {
    if HasJob(s.jobs, id) && Active(s.jobs[id - 1].status)
    then s.(jobs := Replaced(s.jobs, id, CancelledJob(s.jobs[id - 1], s.now))) else s
  }

  function Zeroed(t: Jobs, counts: seq<nat>): seq<nat>
    requires |t| == |counts|
  {
    seq(|t|, i requires 0 <= i < |t| => if Retriable(t[i].status) then 0 else counts[i])
  }

  function AfterRetryFailed(s: State): State
    requires |s.claims| == |s.waits| == |s.jobs|
  {
    if ActiveUnique(AllReset(s.jobs, s.now))
    then s.(jobs := AllReset(s.jobs, s.now), claims := Zeroed(s.jobs, s.claims), waits := Zeroed(s.jobs, s.waits))
    else s
  }

  ghost function Next(cfg: RetryConfig, s: State, op: Op): State
    requires Can(cfg, s, op)
  {
    match op
    case Enqueue(e, p, priority, i, c) => AfterEnqueueOp(s, AfterEnqueue(s.jobs, e, p, priority, i, c, s.now))
    case Claim(id) => AfterClaim(s, id)
    case Finish(id, o, delay) => AfterFinish(s, id, o, delay)
    case Crash => s.(inflight := map[])
    case Recover(threshold, reason) => AfterRecover(s, threshold, reason)
    case Cancel(id) => AfterCancel(s, id)
    case RetryFailed => AfterRetryFailed(s)
    case Tick(d) => s.(now := s.now + d)
  }

  // ---------- what every job satisfies ----------

  /** The statuses this release writes from an empty table. */
  predicate Modern(st: Status) {
    Active(st) ==> st in {Pending, Processing, Retrying, WaitingForDependency}
  }

  predicate JobSound(j: Job, claims: nat, waits: nat, held: Option<Snapshot>) {
    && j.attempts == j.attemptCount && 0 <= j.attempts <= j.maxAttempts == MAX_ATTEMPTS
    && j.scheduled == j.nextRetry == j.nextAttempt
    && Modern(j.status) && (j.attempts == j.maxAttempts ==> j.status == Dlq)
    && claims <= j.attempts + waits + 1
    && (Claimable(j.status) || j.status == Dlq ==> claims == j.attempts + waits && held == None)
    && (j.status == Processing ==> claims == j.attempts + waits + 1)
    && (held.Some? ==>
          && j.status in {Processing, Cancelled} && claims == j.attempts + waits + 1
          && held.value == Snapshot(j.attempts, j.maxAttempts))
  }

  function HeldBy(s: State, id: int): Option<Snapshot> {
    if id in s.inflight then Some(s.inflight[id]) else None
  }

  predicate LifeSound(s: State) {
    && |s.claims| == |s.waits| == |s.jobs| && ActiveUnique(s.jobs) && Normalised(s.jobs)
    && (forall id :: id in s.inflight ==> HasJob(s.jobs, id))
    && forall i :: 0 <= i < |s.jobs| ==> JobSound(s.jobs[i], s.claims[i], s.waits[i], HeldBy(s, i + 1))
  }

  lemma FinishedIsSound(j: Job, claims: nat, waits: nat, o: Outcome, snap: Snapshot, delay: Option<int>, now: int)
    requires JobSound(j, claims, waits, Some(snap))
    ensures JobSound(Finished(j, o, snap, delay, now), claims, if o.MissingDependency? then waits + 1 else waits, None)
    ensures SameKey(Finished(j, o, snap, delay, now), j)
  {
  }

  lemma DeadLetteredIsSound(j: Job, claims: nat, waits: nat, held: Option<Snapshot>, reason: string, now: int)
    requires JobSound(j, claims, waits, held) && held.Some?
    ensures JobSound(DeadLettered(j, reason, now), claims, waits, None)
    ensures SameKey(DeadLettered(j, reason, now), j) && !Active(DeadLettered(j, reason, now).status)
  {
  }

  lemma LifeKeptByEnqueue(s: State, op: Op)
    requires LifeSound(s) && op.Enqueue?
    ensures LifeSound(AfterEnqueueOp(s, AfterEnqueue(s.jobs, op.entityType, op.payload, op.priority, op.entityId, op.company, s.now)))
  {
    EnqueueKeepsIndex(s.jobs, op.entityType, op.payload, op.priority, op.entityId, op.company, s.now);
    hide NormalizeEntityType, ActiveUnique, Normalised, Blocked, JobSound, NewJob;
    var norm, due := NormalizeEntityType(op.entityType), DueOnEnqueue(op.priority, s.now);
    NewJobIsSound(op.company, norm, op.entityId, op.payload, due);
    OneRowAdded(s, NewJob(op.company, norm, op.entityId, op.payload, due));
  }

  lemma NewJobIsSound(company: string, norm: string, entityId: string, payload: Option<string>, due: int)
    ensures JobSound(NewJob(company, norm, entityId, payload, due), 0, 0, None)
  {
  }

  lemma OneRowAdded(s: State, j: Job)
    requires LifeSound(s) && JobSound(j, 0, 0, None)
    ensures ActiveUnique(s.jobs + [j]) && Normalised(s.jobs + [j]) ==>
              LifeSound(s.(jobs := s.jobs + [j], claims := s.claims + [0], waits := s.waits + [0]))
  {
    hide JobSound, ActiveUnique, Normalised;
    assert (|s.jobs| + 1) !in s.inflight;
  }

  /** A step that rewrites one row, and its tallies, soundly. */
  lemma OneRowKept(s: State, s': State, id: int, j: Job)
    requires LifeSound(s) && HasJob(s.jobs, id) && s'.jobs == Replaced(s.jobs, id, j) && ActiveUnique(s'.jobs)
    requires SameKey(j, s.jobs[id - 1])
    requires (s'.claims == s.claims || s'.claims == Bump(s.claims, id)) && (s'.waits == s.waits || s'.waits == Bump(s.waits, id))
    requires forall x :: x != id ==> HeldBy(s', x) == HeldBy(s, x)
    requires JobSound(j, s'.claims[id - 1], s'.waits[id - 1], HeldBy(s', id))
    ensures LifeSound(s')
  {
    hide JobSound, ActiveUnique, NormalizeEntityType;
    forall i | 0 <= i < |s'.jobs| ensures JobSound(s'.jobs[i], s'.claims[i], s'.waits[i], HeldBy(s', i + 1)) {
      if i != id - 1 {
        assert JobSound(s.jobs[i], s.claims[i], s.waits[i], HeldBy(s, i + 1));
      }
    }
    forall x | x in s'.inflight ensures HasJob(s'.jobs, x) {
      assert HeldBy(s', x).Some?;
    }
  }

  lemma RowIsSound(s: State, id: int)
    requires LifeSound(s) && HasJob(s.jobs, id)
    ensures JobSound(s.jobs[id - 1], s.claims[id - 1], s.waits[id - 1], HeldBy(s, id))
  {
  }

  lemma ClaimedIsSound(j: Job, claims: nat, waits: nat, held: Option<Snapshot>, now: int)
    requires JobSound(j, claims, waits, held) && Claimable(j.status)
    ensures JobSound(Claimed(j, now), claims + 1, waits, Some(Snapshot(j.attemptCount, j.maxAttempts)))
    ensures held == None
  {
  }

  lemma LifeKeptByClaim(s: State, id: int)
    requires LifeSound(s) && NextDue(s.jobs, id, s.now)
    ensures LifeSound(AfterClaim(s, id))
  {
    ClaimAccepted(s.jobs, id, s.now);
    RowIsSound(s, id);
    hide NormalizeEntityType, ActiveUnique, JobSound, LifeSound, Claimed, SameKey;
    ClaimedIsSound(s.jobs[id - 1], s.claims[id - 1], s.waits[id - 1], HeldBy(s, id), s.now);
    ClaimedKeepsKey(s.jobs[id - 1], s.now);
    LengthsAgree(s);
    OneRowKept(s, AfterClaim(s, id), id, Claimed(s.jobs[id - 1], s.now));
  }

  lemma ClaimedKeepsKey(j: Job, now: int)
    ensures SameKey(Claimed(j, now), j) && SameKey(CancelledJob(j, now), j)
  {
  }

  lemma LengthsAgree(s: State)
    requires LifeSound(s)
    ensures |s.claims| == |s.waits| == |s.jobs|
  {
  }

  lemma LifeKeptByFinish(s: State, id: int, o: Outcome, delay: Option<int>)
    requires LifeSound(s) && HasJob(s.jobs, id) && id in s.inflight
    ensures LifeSound(AfterFinish(s, id, o, delay))
  {
    RowIsSound(s, id);
    LengthsAgree(s);
    IndexHolds(s);
    hide ActiveUnique, Finished, JobSound, LifeSound, SameKey, DeadLettered;
    var j := s.jobs[id - 1];
    var j' := Finished(j, o, s.inflight[id], delay, s.now);
    if ActiveUnique(Replaced(s.jobs, id, j')) {
      FinishedIsSound(j, s.claims[id - 1], s.waits[id - 1], o, s.inflight[id], delay, s.now);
      OneRowKept(s, AfterFinish(s, id, o, delay), id, j');
    } else if AllFailed(o) {
      DeadLetteredIsSound(j, s.claims[id - 1], s.waits[id - 1], HeldBy(s, id), INDEX_ERROR, s.now);
      MarkInactiveAccepted(s.jobs, id, DeadLettered(j, INDEX_ERROR, s.now));
      OneRowKept(s, AfterFinish(s, id, o, delay), id, DeadLettered(j, INDEX_ERROR, s.now));
    } else {
      LifeKeptByLettingGo(s, AfterFinish(s, id, o, delay));
    }
  }

  /** Pool threads vanish, by finishing or by a crash. */
  lemma LifeKeptByLettingGo(s: State, s': State)
    requires LifeSound(s) && s' == s.(inflight := s'.inflight)
    requires forall x :: x in s'.inflight ==> HeldBy(s', x) == HeldBy(s, x)
    ensures LifeSound(s')
  {
  }

  lemma IndexHolds(s: State)
    requires LifeSound(s)
    ensures ActiveUnique(s.jobs)
  {
  }

  lemma LifeKeptByRecovery(s: State, threshold: int, reason: string)
    requires LifeSound(s) && s.inflight == map[]
    ensures LifeSound(AfterRecover(s, threshold, reason))
  {
    RecoveryAccepted(s.jobs, threshold, reason, s.now);
    hide NormalizeEntityType, ActiveUnique;
    var s' := AfterRecover(s, threshold, reason);
    forall i | 0 <= i < |s'.jobs| ensures JobSound(s'.jobs[i], s'.claims[i], s'.waits[i], HeldBy(s', i + 1)) {
      assert JobSound(s.jobs[i], s.claims[i], s.waits[i], HeldBy(s, i + 1));
    }
  }

  lemma CancelledIsSound(j: Job, claims: nat, waits: nat, held: Option<Snapshot>, now: int)
    requires JobSound(j, claims, waits, held) && Active(j.status)
    ensures JobSound(CancelledJob(j, now), claims, waits, held)
  {
  }

  lemma LifeKeptByCancel(s: State, id: int)
    requires LifeSound(s)
    ensures LifeSound(AfterCancel(s, id))
  {
    if HasJob(s.jobs, id) && Active(s.jobs[id - 1].status) {
      IndexHolds(s);
      MarkInactiveAccepted(s.jobs, id, CancelledJob(s.jobs[id - 1], s.now));
      RowIsSound(s, id);
      LengthsAgree(s);
      hide ActiveUnique, JobSound, LifeSound, SameKey, CancelledJob;
      CancelledIsSound(s.jobs[id - 1], s.claims[id - 1], s.waits[id - 1], HeldBy(s, id), s.now);
      ClaimedKeepsKey(s.jobs[id - 1], s.now);
      OneRowKept(s, AfterCancel(s, id), id, CancelledJob(s.jobs[id - 1], s.now));
    }
  }

  lemma LifeKeptByRetryFailed(s: State)
    requires LifeSound(s)
    ensures LifeSound(AfterRetryFailed(s))
  {
    hide NormalizeEntityType, ActiveUnique;
    var s' := AfterRetryFailed(s);
    forall i | 0 <= i < |s'.jobs| ensures JobSound(s'.jobs[i], s'.claims[i], s'.waits[i], HeldBy(s', i + 1)) {
      assert JobSound(s.jobs[i], s.claims[i], s.waits[i], HeldBy(s, i + 1));
    }
  }

  lemma LifeKept(cfg: RetryConfig, s: State, op: Op)
    requires LifeSound(s) && Can(cfg, s, op)
    ensures LifeSound(Next(cfg, s, op))
  {
    hide JobSound, ActiveUnique, Normalised, AfterEnqueueOp, AfterClaim, AfterFinish, AfterCancel, AfterRetryFailed,
         AfterRecovery, AfterEnqueue, NextDue, IsDelay;
    match op
    case Enqueue(_, _, _, _, _) => LifeKeptByEnqueue(s, op);
    case Claim(id) => ClaimHasJob(s, id); LifeKeptByClaim(s, id);
    case Finish(id, o, delay) => LifeKeptByFinish(s, id, o, delay);
    case Crash => LifeKeptByLettingGo(s, s.(inflight := map[]));
    case Recover(threshold, reason) => LifeKeptByRecovery(s, threshold, reason);
    case Cancel(id) => LifeKeptByCancel(s, id);
    case RetryFailed => LifeKeptByRetryFailed(s);
    case Tick(_) => LifeKeptByTick(s, op.elapsed);
  }

  lemma ClaimHasJob(s: State, id: int)
    requires NextDue(s.jobs, id, s.now)
    ensures HasJob(s.jobs, id)
  {
  }

  lemma LifeKeptByTick(s: State, elapsed: nat)
    requires LifeSound(s)
    ensures LifeSound(s.(now := s.now + elapsed))
  {
  }

  // ---------- runs ----------

  ghost predicate Legal(cfg: RetryConfig, s: State, ops: seq<Op>)
    decreases |ops|
  {
    ops == [] || (Can(cfg, s, ops[0]) && Legal(cfg, Next(cfg, s, ops[0]), ops[1..]))
  }

  ghost function Run(cfg: RetryConfig, s: State, ops: seq<Op>): State
    requires Legal(cfg, s, ops)
    decreases |ops|
  {
    if ops == [] then s else Run(cfg, Next(cfg, s, ops[0]), ops[1..])
  }

  lemma {:induction false} LifeSoundThroughout(cfg: RetryConfig, s: State, ops: seq<Op>)
    requires LifeSound(s) && Legal(cfg, s, ops)
    ensures LifeSound(Run(cfg, s, ops))
    decreases |ops|
  {
    hide LifeSound, Can, Next;
    if ops != [] {
      LifeKept(cfg, s, ops[0]);
      LifeSoundThroughout(cfg, Next(cfg, s, ops[0]), ops[1..]);
    }
  }

  /** In every run a job is claimed at most three times, crash recoveries included, plus
      once for each wait on a dependency; an active job always has an attempt left. */
  lemma ClaimsAreBounded(cfg: RetryConfig, ops: seq<Op>, id: int)
    requires Legal(cfg, EMPTY, ops) && HasJob(Run(cfg, EMPTY, ops).jobs, id)
    ensures var s := Run(cfg, EMPTY, ops);
            && |s.claims| == |s.waits| == |s.jobs|
            && s.claims[id - 1] <= MAX_ATTEMPTS + s.waits[id - 1]
            && (Active(s.jobs[id - 1].status) ==> s.jobs[id - 1].attempts < s.jobs[id - 1].maxAttempts)
  {
    hide Legal, Run;
    LifeSoundThroughout(cfg, EMPTY, ops);
    RowIsSound(Run(cfg, EMPTY, ops), id);
  }

  /** At most one active job per company and normalised entity, in every run. */
  lemma OneActiveJobPerKey(cfg: RetryConfig, ops: seq<Op>, id: int, id': int)
    requires Legal(cfg, EMPTY, ops) && HasJob(Run(cfg, EMPTY, ops).jobs, id) && HasJob(Run(cfg, EMPTY, ops).jobs, id')
    ensures var t := Run(cfg, EMPTY, ops).jobs;
            && NormalizeEntityType(t[id - 1].entity) == t[id - 1].entity
            && (Active(t[id - 1].status) && Active(t[id' - 1].status) && SameKey(t[id - 1], t[id' - 1]) ==> id == id')
  {
    hide Legal, Run, NormalizeEntityType;
    LifeSoundThroughout(cfg, EMPTY, ops);
    var t := Run(cfg, EMPTY, ops).jobs;
    if id < id' {
      assert SameKey(t[id - 1], t[id' - 1]) <==> SameKey(t[id' - 1], t[id - 1]);
    }
  }

  // ---------- dead letters ----------

  /** The letter a dead job's thread, or recovery, left for it. */
  predicate Lettered(t: Jobs, letters: seq<Letter>, i: int)
    requires 0 <= i < |t|
  {
    t[i].status == Dlq ==> LetterOf(t[i], i + 1, ErrorOf(t[i])) in letters
  }

  predicate AllLettered(s: State) {
    forall i :: 0 <= i < |s.jobs| ==> Lettered(s.jobs, s.letters, i)
  }

  lemma {:induction false} RecoveryWrites(t: Jobs, n: nat, threshold: int, reason: string, now: int, i: int)
    requires 0 <= i < n <= |t| && Stale(t[i], threshold, now) && t[i].maxAttempts <= t[i].attemptCount + 1
    ensures LetterOf(t[i], i + 1, reason) in RecoveryLetters(t, n, threshold, reason, now)
  {
    hide LetterOf, Stale;
    if i < n - 1 {
      RecoveryWrites(t, n - 1, threshold, reason, now, i);
    }
  }

  lemma LetteredKeptByRecovery(s: State, threshold: int, reason: string)
    requires AllLettered(s)
    ensures AllLettered(AfterRecover(s, threshold, reason))
  {
    hide RecoveryLetters, Digits, Stale;
    var s' := AfterRecover(s, threshold, reason);
    forall i | 0 <= i < |s.jobs| ensures Lettered(s'.jobs, s'.letters, i) {
      assert Lettered(s.jobs, s.letters, i);
      if Stale(s.jobs[i], threshold, s.now) && s.jobs[i].maxAttempts <= s.jobs[i].attemptCount + 1 {
        RecoveryWrites(s.jobs, |s.jobs|, threshold, reason, s.now, i);
      }
    }
  }

  lemma LetteredKeptByWriting(s: State, id: int, j: Job)
    requires AllLettered(s) && HasJob(s.jobs, id)
    ensures AllLettered(Wrote(s, id, j))
  {
    hide LetterOf;
    var s' := Wrote(s, id, j);
    forall i | 0 <= i < |s'.jobs| ensures Lettered(s'.jobs, s'.letters, i) {
      assert Lettered(s.jobs, s.letters, i);
    }
  }

  lemma LetteredKeptByFinish(s: State, id: int, o: Outcome, delay: Option<int>)
    requires AllLettered(s) && HasJob(s.jobs, id) && id in s.inflight
    ensures AllLettered(AfterFinish(s, id, o, delay))
  {
    hide ActiveUnique, Finished, DeadLettered, LetterOf, Wrote;
    var j := s.jobs[id - 1];
    LetteredKeptByWriting(s, id, Finished(j, o, s.inflight[id], delay, s.now));
    LetteredKeptByWriting(s, id, DeadLettered(j, INDEX_ERROR, s.now));
  }

  /** At most one row is new or rewritten, and it is not dead. */
  lemma LetteredKeptByOneRow(s: State, s': State, id: int)
    requires AllLettered(s) && s'.letters == s.letters && |s.jobs| <= |s'.jobs|
    requires forall i :: 0 <= i < |s'.jobs| && i != id - 1 ==> i < |s.jobs| && s'.jobs[i] == s.jobs[i]
    requires HasJob(s'.jobs, id) ==> s'.jobs[id - 1].status != Dlq || (HasJob(s.jobs, id) && s'.jobs[id - 1] == s.jobs[id - 1])
    ensures AllLettered(s')
  {
    hide LetterOf;
    forall i | 0 <= i < |s'.jobs| ensures Lettered(s'.jobs, s'.letters, i) {
      assert i < |s.jobs| ==> Lettered(s.jobs, s.letters, i);
    }
  }

  lemma LetteredKeptByApi(s: State, op: Op)
    requires AllLettered(s)
    ensures op.Enqueue? ==>
              AllLettered(AfterEnqueueOp(s, AfterEnqueue(s.jobs, op.entityType, op.payload, op.priority, op.entityId, op.company, s.now)))
    ensures op.Claim? && HasJob(s.jobs, op.id) ==> AllLettered(AfterClaim(s, op.id))
    ensures op.Cancel? ==> AllLettered(AfterCancel(s, op.id))
  {
    hide AllLettered, NormalizeEntityType, Blocked;
    match op
    case Enqueue(e, p, priority, i, c) =>
      LetteredKeptByOneRow(s, AfterEnqueueOp(s, AfterEnqueue(s.jobs, e, p, priority, i, c, s.now)), |s.jobs| + 1);
    case Claim(id) =>
      if HasJob(s.jobs, id) {
        LetteredKeptByOneRow(s, AfterClaim(s, id), id);
      }
    case Cancel(id) => LetteredKeptByOneRow(s, AfterCancel(s, id), id);
    case _ =>
  }

  lemma LetteredKeptByRetry(s: State)
    requires AllLettered(s) && |s.claims| == |s.waits| == |s.jobs|
    ensures AllLettered(AfterRetryFailed(s))
  {
    hide LetterOf, ActiveUnique;
    var s' := AfterRetryFailed(s);
    forall i | 0 <= i < |s'.jobs| ensures Lettered(s'.jobs, s'.letters, i) {
      assert Lettered(s.jobs, s.letters, i);
    }
  }

  lemma LetteredKept(cfg: RetryConfig, s: State, op: Op)
    requires AllLettered(s) && Can(cfg, s, op)
    ensures AllLettered(Next(cfg, s, op))
  {
    hide AllLettered, AfterEnqueueOp, AfterEnqueue, AfterClaim, AfterCancel, AfterFinish, AfterRetryFailed, AfterRecover, IsDelay, NextDue;
    LetteredKeptByApi(s, op);
    match op
    case Claim(id) => ClaimHasJob(s, id);
    case Finish(id, o, delay) => LetteredKeptByFinish(s, id, o, delay);
    case Recover(threshold, reason) => LetteredKeptByRecovery(s, threshold, reason);
    case RetryFailed => LetteredKeptByRetry(s);
    case _ => LetteredIgnoresRest(s, Next(cfg, s, op));
  }

  lemma LetteredIgnoresRest(s: State, s': State)
    requires AllLettered(s)
    ensures s'.jobs == s.jobs && s'.letters == s.letters ==> AllLettered(s')
  {
  }

  lemma {:induction false} LetteredThroughout(cfg: RetryConfig, s: State, ops: seq<Op>)
    requires AllLettered(s) && Legal(cfg, s, ops)
    ensures AllLettered(Run(cfg, s, ops))
    decreases |ops|
  {
    hide AllLettered, Can, Next;
    if ops != [] {
      LetteredKept(cfg, s, ops[0]);
      LetteredThroughout(cfg, Next(cfg, s, ops[0]), ops[1..]);
    }
  }

  /** In every run, every job in DLQ has the dead letter of its last error. */
  lemma DeadJobsHaveLetters(cfg: RetryConfig, ops: seq<Op>, id: int)
    requires Legal(cfg, EMPTY, ops) && HasJob(Run(cfg, EMPTY, ops).jobs, id) && Run(cfg, EMPTY, ops).jobs[id - 1].status == Dlq
    ensures var s := Run(cfg, EMPTY, ops); LetterOf(s.jobs[id - 1], id, ErrorOf(s.jobs[id - 1])) in s.letters
  {
    hide Legal, Run, LetterOf;
    LetteredThroughout(cfg, EMPTY, ops);
    assert Lettered(Run(cfg, EMPTY, ops).jobs, Run(cfg, EMPTY, ops).letters, id - 1);
  }

  /** Scheduled for `due`, or cancelled since, and in no thread's hands. */
  predicate Parked(s: State, id: int, due: int, claims: nat) {
    && HasJob(s.jobs, id) && id !in s.inflight && |s.claims| == |s.jobs| && s.claims[id - 1] == claims
    && (Claimable(s.jobs[id - 1].status) || s.jobs[id - 1].status == Cancelled)
    && s.jobs[id - 1].scheduled == s.jobs[id - 1].nextRetry == s.jobs[id - 1].nextAttempt == due
  }

  lemma ParkedKeptByFinish(s: State, op: Op, id: int, due: int, claims: nat)
    requires Parked(s, id, due, claims) && op.Finish? && HasJob(s.jobs, op.id) && op.id in s.inflight
    ensures Parked(AfterFinish(s, op.id, op.outcome, op.delay), id, due, claims)
  {
    hide ActiveUnique, Finished, DeadLettered;
  }

  lemma ParkedKeptByTable(s: State, op: Op, id: int, due: int, claims: nat)
    requires |s.claims| == |s.waits| == |s.jobs| && Parked(s, id, due, claims)
    ensures op.Recover? ==> Parked(AfterRecover(s, op.threshold, op.reason), id, due, claims)
    ensures op.RetryFailed? ==> Parked(AfterRetryFailed(s), id, due, claims)
  {
    hide ActiveUnique, RecoveryLetters;
  }

  lemma ParkedKeptByEnqueue(s: State, jobs: Jobs, id: int, due: int, claims: nat)
    requires Parked(s, id, due, claims) && (jobs == s.jobs || exists j :: jobs == s.jobs + [j])
    ensures Parked(AfterEnqueueOp(s, jobs), id, due, claims)
  {
  }

  lemma ParkedKeptByApi(s: State, op: Op, id: int, due: int, claims: nat)
    requires Parked(s, id, due, claims) && s.now < due
    ensures op.Claim? && NextDue(s.jobs, op.id, s.now) ==> Parked(AfterClaim(s, op.id), id, due, claims)
    ensures op.Cancel? ==> Parked(AfterCancel(s, op.id), id, due, claims)
  {
  }

  lemma ParkedKept(cfg: RetryConfig, s: State, op: Op, id: int, due: int, claims: nat)
    requires Can(cfg, s, op) && Parked(s, id, due, claims) && s.now < due
    ensures Parked(Next(cfg, s, op), id, due, claims) && s.now <= Next(cfg, s, op).now
  {
    ParkedKeptByApi(s, op, id, due, claims);
    ParkedKeptByTable(s, op, id, due, claims);
    if op.Finish? {
      ParkedKeptByFinish(s, op, id, due, claims);
    } else if op.Enqueue? {
      hide NormalizeEntityType, Blocked;
      ParkedKeptByEnqueue(s, AfterEnqueue(s.jobs, op.entityType, op.payload, op.priority, op.entityId, op.company, s.now), id, due, claims);
    }
    hide AfterFinish, AfterRecover, AfterRetryFailed, AfterClaim, AfterCancel, AfterEnqueue, NextDue, IsDelay;
  }

  lemma {:induction false} TimeGoesOn(cfg: RetryConfig, s: State, ops: seq<Op>)
    requires LifeSound(s) && Legal(cfg, s, ops)
    ensures s.now <= Run(cfg, s, ops).now
    decreases |ops|
  {
    hide LifeSound;
    if ops != [] {
      LifeKept(cfg, s, ops[0]);
      TimeGoesOn(cfg, Next(cfg, s, ops[0]), ops[1..]);
    }
  }

  /** A job put off until `due` is claimed in no run that ends before `due`, whatever
      happens meanwhile. */
  lemma {:induction false} NeverClaimedEarly(cfg: RetryConfig, s: State, ops: seq<Op>, id: int, due: int, claims: nat)
    requires LifeSound(s) && Legal(cfg, s, ops) && Parked(s, id, due, claims) && Run(cfg, s, ops).now < due
    ensures Parked(Run(cfg, s, ops), id, due, claims)
    decreases |ops|
  {
    hide LifeSound, Can, Next, Parked;
    if ops != [] {
      var s' := Next(cfg, s, ops[0]);
      LifeKept(cfg, s, ops[0]);
      TimeGoesOn(cfg, s', ops[1..]);
      TimeGoesOn(cfg, s, ops);
      ParkedKept(cfg, s, ops[0], id, due, claims);
      NeverClaimedEarly(cfg, s', ops[1..], id, due, claims);
    }
  }

  lemma PutOffIsParked(cfg: RetryConfig, s: State, id: int, o: Outcome, delay: Option<int>)
    requires LifeSound(s) && Can(cfg, s, Finish(id, o, delay)) && PutsBack(o, s.inflight[id], delay) && !KeyBusy(s.jobs, id)
    ensures Parked(Next(cfg, s, Finish(id, o, delay)), id, PutOffUntil(s, o, delay), s.claims[id - 1])
  {
    WrittenIff(s, id, o, delay);
    hide ActiveUnique, KeyBusy, IsDelay, Normalised;
  }

  function PutOffUntil(s: State, o: Outcome, delay: Option<int>): int {
    s.now + if !o.MissingDependency? && delay.Some? then delay.value else 60
  }

  lemma EmptyIsSound()
    ensures LifeSound(EMPTY)
  {
  }

  /** A retry or a dependency wait whose row is free is not claimed again before its whole
      delay has passed, whatever happened before it and whatever happens after. */
  lemma PutOffIsHonoured(cfg: RetryConfig, before: seq<Op>, id: int, o: Outcome, delay: Option<int>, after: seq<Op>)
    requires Legal(cfg, EMPTY, before) && Can(cfg, Run(cfg, EMPTY, before), Finish(id, o, delay))
    requires PutsBack(o, Run(cfg, EMPTY, before).inflight[id], delay) && !KeyBusy(Run(cfg, EMPTY, before).jobs, id)
    requires Legal(cfg, Next(cfg, Run(cfg, EMPTY, before), Finish(id, o, delay)), after)
    ensures var s := Run(cfg, EMPTY, before);
            var t := Run(cfg, Next(cfg, s, Finish(id, o, delay)), after);
            t.now < PutOffUntil(s, o, delay) ==> Parked(t, id, PutOffUntil(s, o, delay), s.claims[id - 1])
  {
    hide Legal, Run, LifeSound, Next, Parked, KeyBusy, PutsBack, IsDelay;
    EmptyIsSound();
    LifeSoundThroughout(cfg, EMPTY, before);
    var s := Run(cfg, EMPTY, before);
    PutOffIsParked(cfg, s, id, o, delay);
    LifeKept(cfg, s, Finish(id, o, delay));
    var s' := Next(cfg, s, Finish(id, o, delay));
    if Run(cfg, s', after).now < PutOffUntil(s, o, delay) {
      NeverClaimedEarly(cfg, s', after, id, PutOffUntil(s, o, delay), s.claims[id - 1]);
    }
  }

  // ---------- what a report earns ----------

  /** _fail_job, over the store. */
  method FailJob(store: QueueStore, id: int, message: string, retryable: bool, snap: Snapshot, delay: Option<int>, now: int)
    returns (ok: bool)
    requires store.Valid() && HasJob(store.jobs, id)
    modifies store
    ensures store.Valid()
    ensures var retries := retryable && delay.Some? && snap.attempts + 1 < snap.maxAttempts;
            var j, text := old(store.jobs)[id - 1], Truncated(message);
            && (retries && KeyBusy(old(store.jobs), id) ==> !ok && store.jobs == old(store.jobs) && store.letters == old(store.letters))
            && (retries && !KeyBusy(old(store.jobs), id) ==>
                  ok && store.jobs == Replaced(old(store.jobs), id, Retried(j, text, now + delay.value))
                  && store.letters == old(store.letters))
            && (!retries ==>
                  ok && store.jobs == Replaced(old(store.jobs), id, DeadLettered(j, text, now))
                  && store.letters == old(store.letters) + [LetterOf(j, id, text)])
  {
    hide ActiveUnique, KeyBusy, Truncated, LetterOf;
    if retryable && delay.Some? && snap.attempts + 1 < snap.maxAttempts {
      ok := store.MarkRetrying(id, message, delay.value, now);
    } else {
      store.MarkDlq(id, message, now);
      ok := true;
    }
  }

  function AllFailedText(failed: nat, entity: string): string {
    "All " + Digits(failed) + " item(s) failed during '" + entity + "' sync."
  }

  /** The end of _process_job, once the executor has returned or raised: the marks it
      calls leave exactly the table and the letters of the Finish step. */
  method ReportJob(store: QueueStore, id: int, snap: Snapshot, o: Outcome, delay: Option<int>, now: int, ghost s: State)
    requires store.Valid() && HasJob(store.jobs, id)
    requires s.jobs == store.jobs && s.letters == store.letters && s.now == now && id in s.inflight && s.inflight[id] == snap
    modifies store
    ensures store.Valid()
    ensures store.jobs == AfterFinish(s, id, o, delay).jobs && store.letters == AfterFinish(s, id, o, delay).letters
  {
    WrittenIff(s, id, o, delay);
    var entity := store.jobs[id - 1].entity;
    hide ActiveUnique, KeyBusy, LetterOf, Digits, AllFailedText, Truncated;
    match o {
      case Returned(failed, created, updated, skipped) =>
        var succeededAny := created > 0 || updated > 0 || skipped > 0;
        if failed > 0 && !succeededAny {
          TextIsShort();
          var ok := FailJob(store, id, AllFailedText(failed, entity), true, snap, delay, now);
          if !ok {
            ok := FailJob(store, id, INDEX_ERROR, false, snap, delay, now);
          }
        } else {
          store.MarkSuccess(id, failed > 0 && succeededAny, now);
        }
      case MissingDependency(reason) =>
        var ok := store.MarkWaitingForDependency(id, reason, 60, now);
      case Raised(retryable, message) =>
        var ok := FailJob(store, id, message, retryable, snap, delay, now);
    }
    LetterNamesJob(s.jobs[id - 1], id);
  }

  lemma TextIsShort()
    ensures Truncated(INDEX_ERROR) == INDEX_ERROR
  {
  }

  /** A dead job's letter does not depend on what the move to DLQ writes. */
  lemma LetterNamesJob(j: Job, id: nat)
    ensures forall text, now :: LetterOf(DeadLettered(j, text, now), id, text) == LetterOf(j, id, text)
  {
  }

  /** What a thread's report does to its job, in every run, on the report's counters, the
      attempts it started with and the delay drawn for the next one. */
  lemma ReportDecidesIff(cfg: RetryConfig, before: seq<Op>, id: int, o: Outcome, delay: Option<int>)
    requires Legal(cfg, EMPTY, before) && Can(cfg, Run(cfg, EMPTY, before), Finish(id, o, delay))
    ensures var s := Run(cfg, EMPTY, before); var t := Next(cfg, s, Finish(id, o, delay));
            ReportDecides(s, t, id, o, delay)
  {
    hide Legal, Run, LifeSound, IsDelay;
    EmptyIsSound();
    LifeSoundThroughout(cfg, EMPTY, before);
    var s := Run(cfg, EMPTY, before);
    RowIsSound(s, id);
    IndexHolds(s);
    ReportDecidesFrom(s, id, o, delay);
  }

  /** Nothing succeeded: the executor raised, or reports failures and nothing else. */
  predicate NothingDone(o: Outcome) {
    o.Raised? || (o.Returned? && o.failed > 0 && o.created + o.updated + o.skipped == 0)
  }

  /** No further attempt is due: the error is permanent, or the attempts are spent. */
  predicate NoMoreTries(o: Outcome, snap: Snapshot, delay: Option<int>) {
    (o.Raised? && !o.retryable) || delay == None || snap.attempts + 1 >= snap.maxAttempts
  }

  predicate ReportDecides(s: State, t: State, id: int, o: Outcome, delay: Option<int>)
    requires HasJob(s.jobs, id) && id in s.inflight
  {
    && |t.jobs| == |s.jobs| == |t.waits| == |s.waits| && id !in t.inflight
    && var j, j', snap, free := s.jobs[id - 1], t.jobs[id - 1], s.inflight[id], !KeyBusy(s.jobs, id);
       && (j'.status == Success <==> o.Returned? && o.failed == 0)
       && (j'.status == PartialSuccess <==> o.Returned? && o.failed > 0 && o.created + o.updated + o.skipped > 0)
       && (j'.status in {Success, PartialSuccess} ==>
             j'.error == None && j'.completed == Some(s.now) && j'.attempts == j.attempts && t.letters == s.letters)
       && (free ==>
             && (j'.status == Dlq <==> NothingDone(o) && NoMoreTries(o, snap, delay))
             && (j'.status == Retrying <==> NothingDone(o) && !NoMoreTries(o, snap, delay))
             && (j'.status == WaitingForDependency <==> o.MissingDependency?)
             && (NothingDone(o) ==> j'.error == Some(Truncated(if o.Raised? then o.message else AllFailedText(o.failed, j.entity)))))
       && (!free ==>
             && (j'.status == Dlq <==> NothingDone(o) && (o.Returned? || NoMoreTries(o, snap, delay)))
             && (j'.status !in {Success, PartialSuccess, Dlq} ==> j' == j && t.letters == s.letters))
       && (j'.status == Dlq ==>
             j'.attempts == j.attempts + 1 && j'.error.Some? && t.letters == s.letters + [LetterOf(j, id, j'.error.value)])
       && (j'.status == Retrying ==>
             delay.Some? && j'.attempts == j.attempts + 1 && t.letters == s.letters
             && j'.scheduled == j'.nextRetry == j'.nextAttempt == s.now + delay.value)
       && (j'.status == WaitingForDependency ==>
             j'.attempts == j.attempts && t.letters == s.letters && t.waits[id - 1] == s.waits[id - 1] + 1
             && j'.scheduled == j'.nextRetry == j'.nextAttempt == s.now + 60)
  }

  /** The row a report that the index accepts leaves. */
  lemma AcceptedReport(j: Job, o: Outcome, snap: Snapshot, delay: Option<int>, now: int)
    ensures var j' := Finished(j, o, snap, delay, now);
            && (j'.status == Success <==> o.Returned? && o.failed == 0)
            && (j'.status == PartialSuccess <==> o.Returned? && o.failed > 0 && o.created + o.updated + o.skipped > 0)
            && (j'.status in {Success, PartialSuccess} ==>
                  j'.error == None && j'.completed == Some(now) && j'.attempts == j.attempts)
            && (j'.status == Dlq <==> NothingDone(o) && NoMoreTries(o, snap, delay))
            && (j'.status == Retrying <==> NothingDone(o) && !NoMoreTries(o, snap, delay))
            && (j'.status == WaitingForDependency <==> o.MissingDependency?)
            && (NothingDone(o) ==> j'.error == Some(Truncated(if o.Raised? then o.message else AllFailedText(o.failed, j.entity))))
            && (j'.status in {Dlq, Retrying} ==> j'.attempts == j.attempts + 1 && j'.error.Some?)
            && (j'.status == WaitingForDependency ==> j'.attempts == j.attempts)
            && (j'.status in {Retrying, WaitingForDependency} ==>
                  j'.scheduled == j'.nextRetry == j'.nextAttempt
                  == now + if o.MissingDependency? then 60 else if delay.Some? then delay.value else 0)
            && j'.entity == j.entity && j'.entityId == j.entityId && j'.payload == j.payload
            && (PutsBack(o, snap, delay) <==> o.MissingDependency? || (NothingDone(o) && !NoMoreTries(o, snap, delay)))
            && (j'.status == Retrying ==> delay.Some?)
  {
    hide Truncated, AllFailedText, Digits;
  }

  lemma ReportDecidesFrom(s: State, id: int, o: Outcome, delay: Option<int>)
    requires ActiveUnique(s.jobs) && |s.claims| == |s.waits| == |s.jobs| && HasJob(s.jobs, id) && id in s.inflight
    requires s.jobs[id - 1].status in {Processing, Cancelled}
    ensures ReportDecides(s, AfterFinish(s, id, o, delay), id, o, delay)
  {
    WrittenIff(s, id, o, delay);
    AcceptedReport(s.jobs[id - 1], o, s.inflight[id], delay, s.now);
    hide ActiveUnique, KeyBusy, Digits, Truncated, AllFailedText, Finished, NoMoreTries, PutsBack;
  }

  // ---------- terminal states ----------

  predicate Terminal(st: Status) {
    st in {Success, PartialSuccess, Dlq, Cancelled}
  }

  /** What the index makes of a thread's report. */
  lemma WrittenIff(s: State, id: int, o: Outcome, delay: Option<int>)
    requires ActiveUnique(s.jobs) && HasJob(s.jobs, id) && id in s.inflight
    ensures ActiveUnique(Replaced(s.jobs, id, Finished(s.jobs[id - 1], o, s.inflight[id], delay, s.now)))
            <==> !PutsBack(o, s.inflight[id], delay) || !KeyBusy(s.jobs, id)
  {
    var j' := Finished(s.jobs[id - 1], o, s.inflight[id], delay, s.now);
    if PutsBack(o, s.inflight[id], delay) {
      MarkActiveRefusedIff(s.jobs, id, j');
    } else {
      MarkInactiveAccepted(s.jobs, id, j');
    }
  }

  /** A terminal job leaves its state exactly when a thread that was already running it
      when it was cancelled reports back, unless it would put the job back over a key taken
      meanwhile and its items did not all fail, or when retry_failed_jobs revives it. */
  lemma TerminalLeavesIff(cfg: RetryConfig, s: State, op: Op, id: int)
    requires LifeSound(s) && Can(cfg, s, op) && HasJob(s.jobs, id) && Terminal(s.jobs[id - 1].status)
    ensures |Next(cfg, s, op).jobs| >= |s.jobs|
    ensures Next(cfg, s, op).jobs[id - 1].status != s.jobs[id - 1].status <==>
            || (op.Finish? && op.id == id
                && (AllFailed(op.outcome) || !PutsBack(op.outcome, s.inflight[id], op.delay) || !KeyBusy(s.jobs, id)))
            || (op.RetryFailed? && s.jobs[id - 1].status == Dlq && !BulkClash(s.jobs))
  {
    IndexHolds(s);
    hide LifeSound, ActiveUnique, Can, Next, KeyBusy, BulkClash, PutsBack;
    if op.Finish? && op.id == id {
      FinishChanges(cfg, s, op, id);
    } else if op.RetryFailed? {
      CanHasLengths(cfg, s, op);
      RetryRevives(s, id);
      BulkRetryRefusedIff(s.jobs, s.now);
    } else {
      OthersKeepTerminal(cfg, s, op, id);
    }
  }

  lemma CanHasLengths(cfg: RetryConfig, s: State, op: Op)
    requires Can(cfg, s, op)
    ensures |s.claims| == |s.waits| == |s.jobs|
    ensures op.RetryFailed? ==> Next(cfg, s, op) == AfterRetryFailed(s)
    ensures op.Finish? ==> HasJob(s.jobs, op.id) && op.id in s.inflight && Next(cfg, s, op) == AfterFinish(s, op.id, op.outcome, op.delay)
  {
  }

  lemma FinishChanges(cfg: RetryConfig, s: State, op: Op, id: int)
    requires LifeSound(s) && Can(cfg, s, op) && op.Finish? && op.id == id && Terminal(s.jobs[id - 1].status)
    ensures |Next(cfg, s, op).jobs| == |s.jobs|
    ensures Next(cfg, s, op).jobs[id - 1].status != s.jobs[id - 1].status
            <==> AllFailed(op.outcome) || !PutsBack(op.outcome, s.inflight[id], op.delay) || !KeyBusy(s.jobs, id)
  {
    RowIsSound(s, id);
    IndexHolds(s);
    CanHasLengths(cfg, s, op);
    HeldStatus(s.jobs[id - 1], s.claims[id - 1], s.waits[id - 1], HeldBy(s, id));
    FinishedIsNotCancelled(s.jobs[id - 1], op.outcome, s.inflight[id], op.delay, s.now);
    WrittenIff(s, id, op.outcome, op.delay);
    hide ActiveUnique, LifeSound, JobSound, Finished, Can, Next, KeyBusy, PutsBack;
  }

  lemma OthersKeepTerminal(cfg: RetryConfig, s: State, op: Op, id: int)
    requires Can(cfg, s, op) && HasJob(s.jobs, id) && Terminal(s.jobs[id - 1].status)
    requires !op.RetryFailed? && !(op.Finish? && op.id == id)
    ensures |Next(cfg, s, op).jobs| >= |s.jobs| && Next(cfg, s, op).jobs[id - 1].status == s.jobs[id - 1].status
  {
    hide ActiveUnique, NormalizeEntityType, IsDelay, Blocked, Finished;
  }

  lemma HeldStatus(j: Job, claims: nat, waits: nat, held: Option<Snapshot>)
    requires JobSound(j, claims, waits, held) && held.Some? && Terminal(j.status)
    ensures j.status == Cancelled
  {
  }

  lemma FinishedIsNotCancelled(j: Job, o: Outcome, snap: Snapshot, delay: Option<int>, now: int)
    ensures Finished(j, o, snap, delay, now).status != Cancelled
  {
  }

  lemma RetryRevives(s: State, id: int)
    requires |s.claims| == |s.waits| == |s.jobs| && HasJob(s.jobs, id) && Terminal(s.jobs[id - 1].status)
    ensures |AfterRetryFailed(s).jobs| == |s.jobs|
    ensures AfterRetryFailed(s).jobs[id - 1].status != s.jobs[id - 1].status
            <==> s.jobs[id - 1].status == Dlq && ActiveUnique(AllReset(s.jobs, s.now))
  {
  }

  /** One job, cancelled while a thread was running it. */
  predicate CancelledInFlight(s: State, entityType: string, company: string) {
    && |s.claims| == |s.waits| == |s.jobs| == 1 && s.inflight == map[1 := Snapshot(0, MAX_ATTEMPTS)] && s.letters == []
    && s.jobs[0].status == Cancelled && s.jobs[0].attempts == 0
    && s.jobs[0].company == company && s.jobs[0].entity == NormalizeEntityType(entityType)
  }

  lemma CancelInFlight(cfg: RetryConfig, entityType: string, company: string)
    ensures var ops := [Enqueue(entityType, None, false, "", company), Claim(1), Cancel(1)];
            Legal(cfg, EMPTY, ops) && CancelledInFlight(Run(cfg, EMPTY, ops), entityType, company)
  {
    hide NormalizeEntityType;
    var a, b, c := Enqueue(entityType, None, false, "", company), Claim(1), Cancel(1);
    var j := NewJob(company, NormalizeEntityType(entityType), "", None, 0);
    var s1 := State([j], [], 0, map[], [0], [0]);
    var s2 := State([Claimed(j, 0)], [], 0, map[1 := Snapshot(0, MAX_ATTEMPTS)], [1], [0]);
    assert Next(cfg, EMPTY, a) == s1;
    assert Next(cfg, s1, b) == s2;
    assert CancelledInFlight(Next(cfg, s2, c), entityType, company);
    assert [a, b, c][1..] == [b, c] && [b, c][1..] == [c] && [c][1..] == [];
    assert Legal(cfg, Next(cfg, s2, c), []);
    assert Legal(cfg, s2, [c]) && Run(cfg, s2, [c]) == Next(cfg, s2, c);
    assert Legal(cfg, s1, [b, c]) && Run(cfg, s1, [b, c]) == Next(cfg, s2, c);
  }

  /** So cancelling is not final: the thread still running brings the job back. */
  lemma CancelledComesBack(cfg: RetryConfig, entityType: string, company: string, delay: int)
    requires IsDelay(cfg, 1, Some(delay))
    ensures exists ops ::
              && Legal(cfg, EMPTY, ops) && CancelledInFlight(Run(cfg, EMPTY, ops), entityType, company)
              && Can(cfg, Run(cfg, EMPTY, ops), Finish(1, Raised(true, "timeout"), Some(delay)))
              && Next(cfg, Run(cfg, EMPTY, ops), Finish(1, Raised(true, "timeout"), Some(delay))).jobs[0].status == Retrying
  {
    CancelInFlight(cfg, entityType, company);
    hide IsDelay, Legal, Run, NormalizeEntityType;
    var ops := [Enqueue(entityType, None, false, "", company), Claim(1), Cancel(1)];
    var s := Run(cfg, EMPTY, ops);
    assert Can(cfg, s, Finish(1, Raised(true, "timeout"), Some(delay)));
  }

  /** The cancelled job's key has a new job while the thread still runs. */
  predicate KeyTakenInFlight(s: State) {
    && |s.claims| == |s.waits| == |s.jobs| == 2 && s.jobs[0].status == Cancelled && s.jobs[0].attempts == 0 && s.letters == []
    && s.inflight == map[1 := Snapshot(0, MAX_ATTEMPTS)] && KeyBusy(s.jobs, 1)
  }

  lemma {:induction false} OneMore(cfg: RetryConfig, s: State, ops: seq<Op>, op: Op)
    requires Legal(cfg, s, ops) && Can(cfg, Run(cfg, s, ops), op)
    ensures Legal(cfg, s, ops + [op]) && Run(cfg, s, ops + [op]) == Next(cfg, Run(cfg, s, ops), op)
    decreases |ops|
  {
    hide Can, Next;
    if ops == [] {
      assert ops + [op] == [op] && [op][1..] == [];
    } else {
      assert (ops + [op])[1..] == ops[1..] + [op];
      OneMore(cfg, Next(cfg, s, ops[0]), ops[1..], op);
    }
  }

  lemma TakeKey(cfg: RetryConfig, s: State, entityType: string, company: string)
    requires CancelledInFlight(s, entityType, company)
    ensures var enqueue := Enqueue(entityType, None, false, "", company);
            Can(cfg, s, enqueue) && KeyTakenInFlight(Next(cfg, s, enqueue))
  {
    hide NormalizeEntityType;
    var s' := Next(cfg, s, Enqueue(entityType, None, false, "", company));
    assert !Blocked(s.jobs, company, NormalizeEntityType(entityType), entityType);
    assert Active(s'.jobs[1].status) && SameKey(s'.jobs[1], s'.jobs[0]);
  }

  /** And a cancelled job whose key has been taken can still die: its items all failing,
      the refused retry dead-letters it, with one attempt more. */
  lemma CancelledIsDeadLettered(cfg: RetryConfig, entityType: string, company: string, failed: nat, delay: int)
    requires IsDelay(cfg, 1, Some(delay)) && failed > 0
    ensures exists ops ::
              && Legal(cfg, EMPTY, ops) && KeyTakenInFlight(Run(cfg, EMPTY, ops))
              && var s, finish := Run(cfg, EMPTY, ops), Finish(1, Returned(failed, 0, 0, 0), Some(delay));
                 && Can(cfg, s, finish)
                 && Next(cfg, s, finish).jobs[0].status == Dlq && Next(cfg, s, finish).jobs[0].attempts == 1
                 && Next(cfg, s, finish).letters == [LetterOf(s.jobs[0], 1, INDEX_ERROR)]
  {
    CancelInFlight(cfg, entityType, company);
    hide IsDelay, Legal, Run, NormalizeEntityType, INDEX_ERROR, Digits, KeyBusy, ActiveUnique;
    var ops := [Enqueue(entityType, None, false, "", company), Claim(1), Cancel(1)];
    var enqueue := Enqueue(entityType, None, false, "", company);
    TakeKey(cfg, Run(cfg, EMPTY, ops), entityType, company);
    OneMore(cfg, EMPTY, ops, enqueue);
    var s := Run(cfg, EMPTY, ops + [enqueue]);
    assert Can(cfg, s, Finish(1, Returned(failed, 0, 0, 0), Some(delay)));
    RetryRefused(s, failed, delay);
  }

  lemma RetryRefused(s: State, failed: nat, delay: int)
    requires KeyTakenInFlight(s) && failed > 0
    ensures !ActiveUnique(Replaced(s.jobs, 1, Finished(s.jobs[0], Returned(failed, 0, 0, 0), s.inflight[1], Some(delay), s.now)))
  {
    hide Truncated;
    var t := Replaced(s.jobs, 1, Finished(s.jobs[0], Returned(failed, 0, 0, 0), s.inflight[1], Some(delay), s.now));
    var k :| 0 <= k < |s.jobs| && k != 0 && Active(s.jobs[k].status) && SameKey(s.jobs[k], s.jobs[0]);
    assert t[1] == s.jobs[1] && Active(t[0].status);
  }
}
