/** The sync_queue table of app/database/connection.py and the SQL statements
    app/queue/queue_store.py runs against it, as functions on the sequence of its
    rows. Ids are AUTOINCREMENT and rows are never deleted, so job `id` is row
    `id - 1`. Times are whole seconds. */
module QueueTable {
  import opened Text
  import opened Wrappers

  /** The Old* statuses are those earlier releases wrote. */
  datatype Status =
    | Pending | Processing | Retrying | WaitingForDependency
    | Success | PartialSuccess | Failed | Dlq | Cancelled
    | OldPending | OldRunning | OldWaiting | OldRetry | OldFailed | OldCompleted

  datatype Job = Job(
    company: string,
    entity: string,
    entityId: string,
    payload: Option<string>,
    status: Status,
    attemptCount: int,
    attempts: int,
    maxAttempts: int,
    scheduled: int,
    nextRetry: int,
    nextAttempt: int,
    started: Option<int>,
    completed: Option<int>,
    error: Option<string>
  )

  type Jobs = seq<Job>

  const MAX_ATTEMPTS := 3

  predicate Claimable(st: Status) {
    st in {Pending, Retrying, WaitingForDependency, OldPending, OldWaiting, OldRetry}
  }

  predicate InProgress(st: Status) {
    st in {Processing, OldRunning}
  }

  predicate Active(st: Status) {
    Claimable(st) || InProgress(st)
  }

  predicate Retriable(st: Status) {
    st in {Failed, Dlq, OldFailed}
  }

  function NormalizeEntityType(entityType: string): string {
    var ent := Lower(Strip(entityType));
    if ent in ["customer", "customers"] then "customers"
    else if ent in ["equipment", "product", "products"] then "equipment"
    else if ent in ["invoice", "invoices"] then "invoices"
    else if ent in ["payment", "payments"] then "payments"
    else if ent in ["rental_order", "rental_orders"] then "rental_orders"
    else if ent in ["tally_to_rentasst", "reverse_sync"] then "tally_to_rentasst"
    else ent
  }

  predicate SameKey(a: Job, b: Job) {
    a.company == b.company && a.entity == b.entity
  }

  /** idx_active_queue_job. */
  predicate ActiveUnique(t: Jobs) {
    forall i, j | 0 <= i < j < |t| :: Active(t[i].status) && Active(t[j].status) ==> !SameKey(t[i], t[j])
  }

  predicate Normalised(t: Jobs) {
    forall i :: 0 <= i < |t| ==> NormalizeEntityType(t[i].entity) == t[i].entity
  }

  predicate HasJob(t: Jobs, id: int) {
    1 <= id <= |t|
  }

  /** A statement that would leave the index violated raises and is rolled back. */
  function Committed(before: Jobs, after: Jobs): Jobs {
    if ActiveUnique(after) then after else before
  }

  function Replaced(t: Jobs, id: int, j: Job): Jobs
    requires HasJob(t, id)
  {
    t[id - 1 := j]
  }

  // ---------- enqueue ----------

  predicate Blocks(j: Job, company: string, norm: string, raw: string) {
    j.company == company && (j.entity == norm || j.entity == raw) && Active(j.status)
  }

  predicate Blocked(t: Jobs, company: string, norm: string, raw: string) {
    exists i :: 0 <= i < |t| && Blocks(t[i], company, norm, raw)
  }

  function NewJob(company: string, norm: string, entityId: string, payload: Option<string>, due: int): Job {
    Job(company, norm, entityId, payload, Pending, 0, 0, MAX_ATTEMPTS, due, due, due, None, None, None)
  }

  function DueOnEnqueue(priority: bool, now: int): int {
    if priority then now - 10 else now
  }

  function AfterEnqueue(t: Jobs, entityType: string, payload: Option<string>, priority: bool, entityId: string,
                        company: string, now: int): Jobs
  {
    var norm := NormalizeEntityType(entityType);
    if Blocked(t, company, norm, entityType) then t
    else t + [NewJob(company, norm, entityId, payload, DueOnEnqueue(priority, now))]
  }

  // ---------- claim ----------

  predicate Due(j: Job, now: int) {
    Claimable(j.status) && (j.scheduled <= now || j.nextRetry <= now || j.nextAttempt <= now)
  }

  predicate NextDue(t: Jobs, id: int, now: int) {
    HasJob(t, id) && Due(t[id - 1], now) && forall k :: 0 <= k < id - 1 ==> !Due(t[k], now)
  }

  predicate NothingDue(t: Jobs, now: int) {
    forall k :: 0 <= k < |t| ==> !Due(t[k], now)
  }

  function Claimed(j: Job, now: int): Job {
    j.(status := Processing, started := Some(now))
  }

  // ---------- what the marks write ----------

  function Waiting(j: Job, reason: string, due: int): Job {
    j.(status := WaitingForDependency, error := Some(reason), scheduled := due, nextRetry := due, nextAttempt := due)
  }

  function Retried(j: Job, reason: string, due: int): Job {
    j.(status := Retrying, attemptCount := j.attemptCount + 1, attempts := j.attempts + 1,
       error := Some(reason), scheduled := due, nextRetry := due, nextAttempt := due)
  }

  function Succeeded(j: Job, partial: bool, now: int): Job {
    j.(status := if partial then PartialSuccess else Success, completed := Some(now), error := None)
  }

  function DeadLettered(j: Job, reason: string, now: int): Job {
    j.(status := Dlq, attemptCount := j.attemptCount + 1, attempts := j.attempts + 1,
       error := Some(reason), completed := Some(now))
  }

  function Recovered(j: Job, reason: string, now: int): Job {
    j.(status := Retrying, attemptCount := j.attemptCount + 1, attempts := j.attemptCount + 1,
       error := Some(reason), scheduled := now, nextRetry := now, nextAttempt := now)
  }

  function CancelledJob(j: Job, now: int): Job {
    j.(status := Cancelled, completed := Some(now))
  }

  function Reset(j: Job, now: int): Job {
    j.(status := Pending, attemptCount := 0, attempts := 0, error := None, scheduled := now, nextRetry := now, nextAttempt := now)
  }

  // ---------- recovery and bulk retry ----------

  predicate Stale(j: Job, threshold: int, now: int) {
    InProgress(j.status) && (j.started == None || threshold <= now - j.started.value)
  }

  function RecoveredJob(j: Job, threshold: int, reason: string, now: int): Job {
    if !Stale(j, threshold, now) then j
    else if j.maxAttempts <= j.attemptCount + 1 then DeadLettered(j, reason, now)
    else Recovered(j, reason, now)
  }

  function AfterRecovery(t: Jobs, threshold: int, reason: string, now: int): Jobs {
    seq(|t|, i requires 0 <= i < |t| => RecoveredJob(t[i], threshold, reason, now))
  }

  function AllReset(t: Jobs, now: int): Jobs {
    seq(|t|, i requires 0 <= i < |t| => if Retriable(t[i].status) then Reset(t[i], now) else t[i])
  }

  // ---------- normalisation ----------

  predicate Canonical(s: string) {
    Lower(Strip(s)) == s
  }

  lemma CanonicalWord(s: string)
    requires Tight(s) && Tidy(s)
    ensures Canonical(s)
  {
  }

  lemma QueueWordsAreCanonical()
    ensures Canonical("customers") && Canonical("equipment") && Canonical("invoices")
    ensures Canonical("payments") && Canonical("rental_orders") && Canonical("tally_to_rentasst")
  {
    hide Canonical;
    CanonicalWord("customers");
    CanonicalWord("equipment");
    CanonicalWord("invoices");
    CanonicalWord("payments");
    CanonicalWord("rental_orders");
    CanonicalWord("tally_to_rentasst");
  }

  /** normalize_entity_type is idempotent: what it returns is already normalised. */
  lemma NormalizeIsIdempotent(entityType: string)
    ensures NormalizeEntityType(NormalizeEntityType(entityType)) == NormalizeEntityType(entityType)
  {
    hide Strip, Lower, Tight, Tidy;
    var ent := Lower(Strip(entityType));
    StripIsTight(entityType);
    LowerKeepsTight(Strip(entityType));
    LowerIsTidy(Strip(entityType));
    CanonicalWord(ent);
    QueueWordsAreCanonical();
    var r := NormalizeEntityType(entityType);
    assert Canonical(r);
  }

  /** On a table of normalised types, testing the caller's own spelling as well finds
      nothing that testing the normalised one does not. */
  lemma RawTestIsRedundant(t: Jobs, company: string, raw: string)
    requires Normalised(t)
    ensures Blocked(t, company, NormalizeEntityType(raw), raw)
            <==> Blocked(t, company, NormalizeEntityType(raw), NormalizeEntityType(raw))
  {
  }

  // ---------- the index ----------

  /** Another active row already has this row's key. */
  predicate KeyBusy(t: Jobs, id: int)
    requires HasJob(t, id)
  {
    exists k :: 0 <= k < |t| && k != id - 1 && Active(t[k].status) && SameKey(t[k], t[id - 1])
  }

  /** enqueue alone never trips the index, whatever the table holds; on a table of
      normalised types its test is exact: it inserts if and only if no active job has
      the company and the normalised type. */
  lemma EnqueueKeepsIndex(t: Jobs, raw: string, payload: Option<string>, priority: bool, entityId: string, company: string, now: int)
    requires ActiveUnique(t)
    ensures var t' := AfterEnqueue(t, raw, payload, priority, entityId, company, now);
            && ActiveUnique(t')
            && (Normalised(t) ==>
                  Normalised(t')
                  && (t' == t <==> exists i :: 0 <= i < |t| && Active(t[i].status) && t[i].company == company
                                                && t[i].entity == NormalizeEntityType(raw)))
  {
    NormalizeIsIdempotent(raw);
    hide NormalizeEntityType;
    var norm, t' := NormalizeEntityType(raw), AfterEnqueue(t, raw, payload, priority, entityId, company, now);
    if Blocked(t, company, norm, raw) {
      var i :| 0 <= i < |t| && Blocks(t[i], company, norm, raw);
      if Normalised(t) {
        RawTestIsRedundant(t, company, raw);
        var k :| 0 <= k < |t| && Blocks(t[k], company, norm, norm);
      }
    } else {
      assert |t'| == |t| + 1;
      forall i | 0 <= i < |t| ensures !(Active(t[i].status) && t[i].company == company && t[i].entity == norm) {
        assert !Blocks(t[i], company, norm, raw);
      }
    }
  }

  /** A mark that writes an active status is refused exactly when the job had become
      inactive and its key has since been taken by another active job. */
  lemma MarkActiveRefusedIff(t: Jobs, id: int, j: Job)
    requires ActiveUnique(t) && HasJob(t, id) && Active(j.status) && SameKey(j, t[id - 1])
    ensures ActiveUnique(Replaced(t, id, j)) <==> !KeyBusy(t, id)
    ensures KeyBusy(t, id) ==> !Active(t[id - 1].status)
  {
    var t' := Replaced(t, id, j);
    if KeyBusy(t, id) {
      var k :| 0 <= k < |t| && k != id - 1 && Active(t[k].status) && SameKey(t[k], t[id - 1]);
      assert t'[k] == t[k] && t'[id - 1] == j;
    }
  }

  /** A mark that writes an inactive status is never refused. */
  lemma MarkInactiveAccepted(t: Jobs, id: int, j: Job)
    requires ActiveUnique(t) && HasJob(t, id) && !Active(j.status)
    ensures ActiveUnique(Replaced(t, id, j))
  {
  }

  lemma ClaimAccepted(t: Jobs, id: int, now: int)
    requires ActiveUnique(t) && NextDue(t, id, now)
    ensures ActiveUnique(Replaced(t, id, Claimed(t[id - 1], now)))
  {
  }

  lemma RecoveryAccepted(t: Jobs, threshold: int, reason: string, now: int)
    requires ActiveUnique(t)
    ensures ActiveUnique(AfterRecovery(t, threshold, reason, now))
  {
  }

  /** Two rows retry_failed_jobs would revive share a key, or one shares it with an
      active row. */
  predicate BulkClash(t: Jobs) {
    exists i, k :: 0 <= i < |t| && 0 <= k < |t| && i != k && SameKey(t[i], t[k])
                   && Retriable(t[i].status) && (Retriable(t[k].status) || Active(t[k].status))
  }

  /** retry_failed_jobs is refused, as a whole, exactly on such a clash. */
  lemma BulkRetryRefusedIff(t: Jobs, now: int)
    requires ActiveUnique(t)
    ensures !ActiveUnique(AllReset(t, now)) <==> BulkClash(t)
  {
    var t' := AllReset(t, now);
    if i, k :| 0 <= i < |t| && 0 <= k < |t| && i != k && SameKey(t[i], t[k])
               && Retriable(t[i].status) && (Retriable(t[k].status) || Active(t[k].status)) {
      assert Active(t'[i].status) && Active(t'[k].status) && SameKey(t'[i], t'[k]) && SameKey(t'[k], t'[i]);
    }
  }

  // ---------- what recovery and enqueue write, on the row ----------

  /** Recovery touches a row exactly when it was running and was started, if ever, at least
      the threshold ago: it is dead when that was its last attempt, and due again at once
      otherwise, with one attempt more either way. */
  lemma RecoveryIff(t: Jobs, threshold: int, reason: string, now: int, i: nat)
    requires i < |t| && t[i].attempts == t[i].attemptCount
    ensures var j, j' := t[i], AfterRecovery(t, threshold, reason, now)[i];
            var stuck := j.status in {Processing, OldRunning} && (j.started == None || now - j.started.value >= threshold);
            && (!stuck ==> j' == j)
            && (stuck ==> j'.attempts == j'.attemptCount == j.attempts + 1 && j'.error == Some(reason)
                          && j'.company == j.company && j'.entity == j.entity && j'.payload == j.payload)
            && (stuck && j.attempts + 1 >= j.maxAttempts ==> j'.status == Dlq)
            && (stuck && j.attempts + 1 < j.maxAttempts ==>
                  j'.status == Retrying && j'.scheduled == j'.nextRetry == j'.nextAttempt == now)
  {
  }

  /** A job is due as soon as it is enqueued, with or without priority, and with none of
      its three attempts used. */
  lemma EnqueuedIsDue(t: Jobs, raw: string, payload: Option<string>, priority: bool, entityId: string, company: string, now: int)
    ensures var t' := AfterEnqueue(t, raw, payload, priority, entityId, company, now);
            t' != t ==> |t'| == |t| + 1 && t'[..|t|] == t
                        && var j := t'[|t|];
                           && j.status == Pending && j.scheduled <= now && j.nextRetry <= now && j.nextAttempt <= now
                           && j.attempts == j.attemptCount == 0 && j.maxAttempts == 3 && j.payload == payload && j.company == company
  {
    hide NormalizeEntityType, Blocked;
  }

  // ---------- spellings ----------

  /** The types with several spellings, trimmed and lower-cased; 0 is any other word. */
  function TypeOf(word: string): nat {
    if word in ["customer", "customers"] then 1
    else if word in ["equipment", "product", "products"] then 2
    else if word in ["invoice", "invoices"] then 3
    else if word in ["payment", "payments"] then 4
    else if word in ["rental_order", "rental_orders"] then 5
    else if word in ["tally_to_rentasst", "reverse_sync"] then 6
    else 0
  }

  lemma NormalFormKeepsType(raw: string)
    ensures var word, norm := Lower(Strip(raw)), NormalizeEntityType(raw);
            TypeOf(norm) == TypeOf(word) && (TypeOf(word) == 0 ==> norm == word)
  {
    hide Lower, Strip;
  }

  lemma OneNormalForm(a: string, b: string)
    requires TypeOf(Lower(Strip(a))) == TypeOf(Lower(Strip(b))) != 0
    ensures NormalizeEntityType(a) == NormalizeEntityType(b)
  {
    hide Lower, Strip;
  }

  /** Two spellings share the queue's key exactly when they are the same word or spellings
      of one type. */
  lemma SpellingsShareKeyIff(a: string, b: string)
    ensures var x, y := Lower(Strip(a)), Lower(Strip(b));
            NormalizeEntityType(a) == NormalizeEntityType(b) <==> x == y || TypeOf(x) == TypeOf(y) != 0
  {
    var x, y := Lower(Strip(a)), Lower(Strip(b));
    NormalFormKeepsType(a);
    NormalFormKeepsType(b);
    if TypeOf(x) == TypeOf(y) != 0 {
      OneNormalForm(a, b);
    }
    hide TypeOf, NormalizeEntityType;
    if x == y {
      SameWordSameForm(a, b);
    }
  }

  lemma SameWordSameForm(a: string, b: string)
    requires Lower(Strip(a)) == Lower(Strip(b))
    ensures NormalizeEntityType(a) == NormalizeEntityType(b)
  {
  }
}
