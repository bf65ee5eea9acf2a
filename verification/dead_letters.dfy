/** Requeueing dead letters: app/mapping/store.py over the queue. Letters are never
    renumbered, so letter `id` is row `id - 1`. */
module DeadLetters {
  import opened Text
  import opened Wrappers
  import opened QueueTable
  import opened QueueStores

  const LIST_LIMIT := 1000

  type Key = (string, string)

  function KeyOf(l: Letter): Key {
    (Or(l.company, "default"), NormalizeEntityType(l.entity))
  }

  function ActiveKeys(t: Jobs): set<Key> {
    set i | 0 <= i < |t| && Active(t[i].status) :: (t[i].company, t[i].entity)
  }

  function LetterKeys(letters: seq<Letter>, ids: seq<int>): set<Key>
    requires forall k :: 0 <= k < |ids| ==> 0 <= ids[k] - 1 < |letters|
  {
    set k | 0 <= k < |ids| :: KeyOf(letters[ids[k] - 1])
  }

  function IsOpen(letters: seq<Letter>, i: int): bool
    requires 0 <= i < |letters|
  {
    letters[i].status == Open
  }

  /** list_dead_letters(status="PENDING"): newest first, at most `limit`, of the first n. */
  function OpenLetters(letters: seq<Letter>, n: nat, limit: nat): seq<int>
    requires n <= |letters|
  {
    if n == 0 || limit == 0 then []
    else if IsOpen(letters, n - 1) then [n] + OpenLetters(letters, n - 1, limit - 1)
    else OpenLetters(letters, n - 1, limit)
  }

  /** Ids of letters, newest first. */
  predicate Listed(letters: seq<Letter>, ids: seq<int>) {
    && (forall k :: 0 <= k < |ids| ==> 1 <= ids[k] <= |letters|)
    && (forall k, h :: 0 <= k < h < |ids| ==> ids[k] > ids[h])
  }

  lemma {:induction false} OpenLettersAreListed(letters: seq<Letter>, n: nat, limit: nat)
    requires n <= |letters|
    ensures Listed(letters, OpenLetters(letters, n, limit)) && |OpenLetters(letters, n, limit)| <= limit
    ensures forall id :: id in OpenLetters(letters, n, limit) ==> 1 <= id <= n && IsOpen(letters, id - 1)
  {
    if n > 0 && limit > 0 {
      if IsOpen(letters, n - 1) {
        OpenLettersAreListed(letters, n - 1, limit - 1);
        OneNewer(letters, OpenLetters(letters, n - 1, limit - 1), n);
      } else {
        OpenLettersAreListed(letters, n - 1, limit);
      }
    }
  }

  lemma OneNewer(letters: seq<Letter>, ids: seq<int>, n: nat)
    requires Listed(letters, ids) && 1 <= n <= |letters| && forall id :: id in ids ==> id < n
    ensures Listed(letters, [n] + ids)
  {
    forall k, h | 0 <= k < h < |[n] + ids| ensures ([n] + ids)[k] > ([n] + ids)[h] {
      assert ids[h - 1] in ids;
    }
  }

  function Requeued(t: Jobs, l: Letter, now: int): Jobs {
    AfterEnqueue(t, l.entity, l.payload, true, Or(l.entityId, l.source), Or(l.company, "default"), now)
  }

  /** Requeueing adds a job exactly when the letter's key has no active one, and then it
      has. */
  lemma RequeueTakesKey(t: Jobs, l: Letter, now: int)
    requires ActiveUnique(t) && Normalised(t)
    ensures ActiveUnique(Requeued(t, l, now)) && Normalised(Requeued(t, l, now))
    ensures |Requeued(t, l, now)| > |t| <==> KeyOf(l) !in ActiveKeys(t)
    ensures Blocked(t, Or(l.company, "default"), NormalizeEntityType(l.entity), l.entity) <==> KeyOf(l) in ActiveKeys(t)
    ensures ActiveKeys(Requeued(t, l, now)) == ActiveKeys(t) + {KeyOf(l)}
  {
    var company, norm := Or(l.company, "default"), NormalizeEntityType(l.entity);
    EnqueueKeepsIndex(t, l.entity, l.payload, true, Or(l.entityId, l.source), company, now);
    RawTestIsRedundant(t, company, l.entity);
    hide NormalizeEntityType, ActiveUnique, Normalised;
    var t' := Requeued(t, l, now);
    if Blocked(t, company, norm, norm) {
      var i :| 0 <= i < |t| && Blocks(t[i], company, norm, norm);
      assert (t[i].company, t[i].entity) == KeyOf(l);
    } else {
      KeysOfAppended(t, t'[|t|]);
    }
  }

  lemma KeysOfAppended(t: Jobs, j: Job)
    requires Active(j.status)
    ensures ActiveKeys(t + [j]) == ActiveKeys(t) + {(j.company, j.entity)}
  {
    var t' := t + [j];
    forall k | k in ActiveKeys(t) + {(j.company, j.entity)} ensures k in ActiveKeys(t') {
      if k in ActiveKeys(t) {
        var i :| 0 <= i < |t| && Active(t[i].status) && (t[i].company, t[i].entity) == k;
        assert t'[i] == t[i];
      } else {
        assert t'[|t|] == j;
      }
    }
  }

  lemma RequeueAddsOne(t: Jobs, l: Letter, now: int)
    ensures |Requeued(t, l, now)| > |t| <==> !Blocked(t, Or(l.company, "default"), NormalizeEntityType(l.entity), l.entity)
  {
  }

  /** An unknown id changes nothing. Otherwise the letter's job is enqueued unless its key
      is busy, and the letter is resolved exactly when it was; on a table of normalised
      types, busy means an active job of the key, and afterwards there is one. */
  predicate RequeuedOne(t: Jobs, letters: seq<Letter>, t': Jobs, letters': seq<Letter>, id: int, now: int, requeued: bool) {
    if !(1 <= id <= |letters|) then !requeued && t' == t && letters' == letters
    else
      var l := letters[id - 1];
      && t' == Requeued(t, l, now) && requeued == (|t'| > |t|)
      && letters' == (if requeued then letters[id - 1 := l.(status := Resolved)] else letters)
      && (Normalised(t) ==> requeued == (KeyOf(l) !in ActiveKeys(t)) && ActiveKeys(t') == ActiveKeys(t) + {KeyOf(l)})
  }

  class DeadLetterStore {
    const queue: QueueStore

    constructor (queue: QueueStore)
      ensures this.queue == queue
    {
      this.queue := queue;
    }

    method RequeueDeadLetter(id: int, now: int) returns (requeued: bool)
      requires queue.Valid()
      modifies queue
      ensures queue.Valid() && (Normalised(old(queue.jobs)) ==> Normalised(queue.jobs))
      ensures |queue.letters| == |old(queue.letters)|
      ensures RequeuedOne(old(queue.jobs), old(queue.letters), queue.jobs, queue.letters, id, now, requeued)
    {
      if !(1 <= id <= |queue.letters|) {
        return false;
      }
      var l := queue.letters[id - 1];
      if Normalised(queue.jobs) {
        RequeueTakesKey(queue.jobs, l, now);
      }
      RequeueAddsOne(queue.jobs, l, now);
      hide NormalizeEntityType, ActiveUnique, Normalised, Blocked, AfterEnqueue, ActiveKeys;
      var job := queue.Enqueue(l.entity, l.payload, true, Or(l.entityId, l.source), Or(l.company, "default"), now);
      requeued := job.Some?;
      if requeued {
        queue.letters := queue.letters[id - 1 := l.(status := Resolved)];
      }
    }

    /** requeue_all_dead_letters; on a table of normalised types the outcome is exact. */
    method RequeueAllDeadLetters(now: int) returns (count: nat)
      requires queue.Valid()
      modifies queue
      ensures queue.Valid() && |queue.letters| == |old(queue.letters)|
      ensures Normalised(old(queue.jobs)) ==>
                RequeuedAll(old(queue.letters), queue.letters, ActiveKeys(old(queue.jobs)), ActiveKeys(queue.jobs), count)
    {
      ghost var before, busy := queue.letters, ActiveKeys(queue.jobs);
      var ids := OpenLetters(queue.letters, |queue.letters|, LIST_LIMIT);
      count := 0;
      hide NormalizeEntityType, ActiveUnique, Normalised, ActiveKeys, OpenLetters, RequeuedOne, KeyOf, NewestOfKey, Progress, RequeuedAll;
      ghost var normalised := Normalised(queue.jobs);
      hide Listed, Tracked, LetterKeys, Settled, IsOpen;
      OpenLettersAreListed(before, |before|, LIST_LIMIT);
      StartTracking(normalised, before, ids, busy);
      for n := 0 to |ids|
        invariant queue.Valid() && |queue.letters| == |before|
        invariant normalised ==> Normalised(queue.jobs)
        invariant Tracked(normalised, before, ids, n, busy, queue.letters, ActiveKeys(queue.jobs), count)
      {
        ghost var jobs, letters := queue.jobs, queue.letters;
        var ok := RequeueDeadLetter(ids[n], now);
        TrackedByOne(normalised, before, ids, n, busy, jobs, letters, count, queue.jobs, queue.letters, now, ok);
        if ok {
          count := count + 1;
        }
      }
      TrackedToEnd(normalised, before, busy, queue.letters, ActiveKeys(queue.jobs), count);
    }
  }

  /** As many letters were requeued as there are distinct keys among the listed letters
      with no active job beforehand; for each such key exactly the newest letter is
      resolved, and every other letter is as it was. */
  ghost predicate RequeuedAll(before: seq<Letter>, after: seq<Letter>, busy: set<Key>, keys: set<Key>, count: nat) {
    OpenLettersAreListed(before, |before|, LIST_LIMIT);
    var ids := OpenLetters(before, |before|, LIST_LIMIT);
    && |after| == |before|
    && count == |LetterKeys(before, ids) - busy|
    && keys == busy + LetterKeys(before, ids)
    && forall i :: 0 <= i < |before| ==> after[i] == Settled(before, ids, |ids|, busy, i)
  }

  /** Letter i after the first n of `ids` were tried, the keys in `busy` being active
      beforehand: resolved if it is the newest of a key that was free. */
  ghost function Settled(letters: seq<Letter>, ids: seq<int>, n: nat, busy: set<Key>, i: int): Letter
    requires 0 <= i < |letters| && n <= |ids| && Listed(letters, ids)
  {
    if KeyOf(letters[i]) !in busy
       && exists k :: 0 <= k < n && ids[k] == i + 1 && NewestOfKey(letters, ids, k)
    then letters[i].(status := Resolved) else letters[i]
  }

  ghost predicate NewestOfKey(letters: seq<Letter>, ids: seq<int>, k: nat)
    requires k < |ids| && Listed(letters, ids)
  {
    forall h :: 0 <= h < k ==> KeyOf(letters[ids[h] - 1]) != KeyOf(letters[ids[k] - 1])
  }

  lemma KeysOfLonger(letters: seq<Letter>, ids: seq<int>, n: nat, busy: set<Key>)
    requires n < |ids| && Listed(letters, ids)
    ensures var key, keys := KeyOf(letters[ids[n] - 1]), LetterKeys(letters, ids[..n]);
            && LetterKeys(letters, ids[..n + 1]) == keys + {key}
            && (key in keys <==> !NewestOfKey(letters, ids, n))
            && |keys + {key} - busy| == |keys - busy| + (if key in keys || key in busy then 0 else 1)
  {
    hide KeyOf, LetterKeys, NewestOfKey;
    KeysWithNext(letters, ids, n);
    SeenBeforeIff(letters, ids, n);
    OneMoreFree(LetterKeys(letters, ids[..n]), busy, KeyOf(letters[ids[n] - 1]));
  }

  lemma OneMoreFree(keys: set<Key>, busy: set<Key>, key: Key)
    ensures |keys + {key} - busy| == |keys - busy| + (if key in keys || key in busy then 0 else 1)
  {
    if key in keys || key in busy {
      assert keys + {key} - busy == keys - busy;
    } else {
      assert keys + {key} - busy == (keys - busy) + {key};
    }
  }

  lemma KeysWithNext(letters: seq<Letter>, ids: seq<int>, n: nat)
    requires n < |ids| && Listed(letters, ids)
    ensures LetterKeys(letters, ids[..n + 1]) == LetterKeys(letters, ids[..n]) + {KeyOf(letters[ids[n] - 1])}
  {
    hide KeyOf;
    var key, keys := KeyOf(letters[ids[n] - 1]), LetterKeys(letters, ids[..n]);
    forall x | x in keys + {key} ensures x in LetterKeys(letters, ids[..n + 1]) {
      if x in keys {
        var k :| 0 <= k < n && KeyOf(letters[ids[..n][k] - 1]) == x;
        assert ids[..n + 1][k] == ids[k];
      } else {
        assert ids[..n + 1][n] == ids[n];
      }
    }
    forall x | x in LetterKeys(letters, ids[..n + 1]) ensures x in keys + {key} {
      var k :| 0 <= k < n + 1 && KeyOf(letters[ids[..n + 1][k] - 1]) == x;
      if k < n {
        assert ids[..n][k] == ids[k];
      }
    }
  }

  lemma SeenBeforeIff(letters: seq<Letter>, ids: seq<int>, n: nat)
    requires n < |ids| && Listed(letters, ids)
    ensures KeyOf(letters[ids[n] - 1]) in LetterKeys(letters, ids[..n]) <==> !NewestOfKey(letters, ids, n)
  {
  }

  lemma SettledByOneMore(letters: seq<Letter>, ids: seq<int>, n: nat, busy: set<Key>)
    requires n < |ids| && Listed(letters, ids)
    ensures forall i :: 0 <= i < |letters| && i != ids[n] - 1 ==>
              Settled(letters, ids, n + 1, busy, i) == Settled(letters, ids, n, busy, i)
    ensures Settled(letters, ids, n, busy, ids[n] - 1) == letters[ids[n] - 1]
    ensures Settled(letters, ids, n + 1, busy, ids[n] - 1)
            == if KeyOf(letters[ids[n] - 1]) !in busy && NewestOfKey(letters, ids, n)
               then letters[ids[n] - 1].(status := Resolved) else letters[ids[n] - 1]
  {
  }

  /** The first n listed letters have been tried. */
  ghost predicate Progress(before: seq<Letter>, ids: seq<int>, n: nat, busy: set<Key>,
                           letters: seq<Letter>, keys: set<Key>, count: nat)
    requires n <= |ids| && Listed(before, ids)
  {
    && |letters| == |before|
    && keys == busy + LetterKeys(before, ids[..n])
    && count == |LetterKeys(before, ids[..n]) - busy|
    && forall i :: 0 <= i < |before| ==> letters[i] == Settled(before, ids, n, busy, i)
  }

  /** Followed only on tables of normalised types. */
  ghost predicate Tracked(normalised: bool, before: seq<Letter>, ids: seq<int>, n: nat, busy: set<Key>,
                          letters: seq<Letter>, keys: set<Key>, count: nat)
    requires n <= |ids| && Listed(before, ids)
  {
    normalised ==> Progress(before, ids, n, busy, letters, keys, count)
  }

  lemma StartTracking(normalised: bool, before: seq<Letter>, ids: seq<int>, busy: set<Key>)
    requires Listed(before, ids)
    ensures Tracked(normalised, before, ids, 0, busy, before, busy, 0)
  {
    NoProgress(before, ids, busy);
  }

  lemma TrackedByOne(normalised: bool, before: seq<Letter>, ids: seq<int>, n: nat, busy: set<Key>, jobs: Jobs,
                     letters: seq<Letter>, count: nat, jobs': Jobs, letters': seq<Letter>, now: int, ok: bool)
    requires n < |ids| && |letters| == |before| && Listed(before, ids)
    requires Tracked(normalised, before, ids, n, busy, letters, ActiveKeys(jobs), count)
    requires (normalised ==> Normalised(jobs)) && RequeuedOne(jobs, letters, jobs', letters', ids[n], now, ok)
    ensures Tracked(normalised, before, ids, n + 1, busy, letters', ActiveKeys(jobs'), if ok then count + 1 else count)
  {
    hide Progress, KeyOf, ActiveKeys, Normalised, Requeued;
    if normalised {
      NextLetterUntouched(before, ids, n, busy, letters, ActiveKeys(jobs), count);
      ProgressByOne(before, ids, n, busy, letters, ActiveKeys(jobs), count, letters', ok);
    }
  }

  lemma TrackedToEnd(normalised: bool, before: seq<Letter>, busy: set<Key>, letters: seq<Letter>, keys: set<Key>, count: nat)
    requires var ids := OpenLetters(before, |before|, LIST_LIMIT);
             Listed(before, ids) && Tracked(normalised, before, ids, |ids|, busy, letters, keys, count)
    ensures normalised ==> RequeuedAll(before, letters, busy, keys, count)
  {
    if normalised {
      ProgressDone(before, OpenLetters(before, |before|, LIST_LIMIT), busy, letters, keys, count);
    }
  }

  lemma NoProgress(before: seq<Letter>, ids: seq<int>, busy: set<Key>)
    requires Listed(before, ids)
    ensures Progress(before, ids, 0, busy, before, busy, 0)
  {
  }

  lemma NextLetterUntouched(before: seq<Letter>, ids: seq<int>, n: nat, busy: set<Key>,
                            letters: seq<Letter>, keys: set<Key>, count: nat)
    requires n < |ids| && Listed(before, ids)
    requires Progress(before, ids, n, busy, letters, keys, count)
    ensures |letters| == |before| && letters[ids[n] - 1] == before[ids[n] - 1]
  {
    hide KeyOf, NewestOfKey, Settled;
    SettledByOneMore(before, ids, n, busy);
  }

  lemma ProgressByOne(before: seq<Letter>, ids: seq<int>, n: nat, busy: set<Key>, letters: seq<Letter>,
                      keys: set<Key>, count: nat, letters': seq<Letter>, ok: bool)
    requires n < |ids| && Listed(before, ids)
    requires Progress(before, ids, n, busy, letters, keys, count)
    requires ok == (KeyOf(before[ids[n] - 1]) !in keys)
    requires letters' == if ok then letters[ids[n] - 1 := before[ids[n] - 1].(status := Resolved)] else letters
    ensures Progress(before, ids, n + 1, busy, letters', keys + {KeyOf(before[ids[n] - 1])}, if ok then count + 1 else count)
  {
    hide KeyOf, NewestOfKey, Settled, LetterKeys;
    KeysOfLonger(before, ids, n, busy);
    LettersByOne(before, ids, n, busy, letters, letters', ok);
  }

  lemma LettersByOne(before: seq<Letter>, ids: seq<int>, n: nat, busy: set<Key>, letters: seq<Letter>, letters': seq<Letter>, ok: bool)
    requires n < |ids| && Listed(before, ids)
    requires |letters| == |before| && forall i :: 0 <= i < |before| ==> letters[i] == Settled(before, ids, n, busy, i)
    requires ok == (KeyOf(before[ids[n] - 1]) !in busy && NewestOfKey(before, ids, n))
    requires letters' == if ok then letters[ids[n] - 1 := before[ids[n] - 1].(status := Resolved)] else letters
    ensures forall i :: 0 <= i < |before| ==> letters'[i] == Settled(before, ids, n + 1, busy, i)
  {
  }

  lemma ProgressDone(before: seq<Letter>, ids: seq<int>, busy: set<Key>, letters: seq<Letter>, keys: set<Key>, count: nat)
    requires Listed(before, ids)
    requires Progress(before, ids, |ids|, busy, letters, keys, count)
    ensures |letters| == |before| && keys == busy + LetterKeys(before, ids) && count == |LetterKeys(before, ids) - busy|
    ensures forall i :: 0 <= i < |before| ==> letters[i] == Settled(before, ids, |ids|, busy, i)
  {
    hide KeyOf, Settled;
    assert ids[..|ids|] == ids;
  }

  // ---------- a dead job's second life ----------

  /** Requeueing the letter of a dead job whose key is free brings the job back with its
      type and payload, all attempts before it and due at once, under its entity id or,
      for want of one, its number; but for the default company, whatever its own was. */
  lemma DeadJobRequeued(t: Jobs, j: Job, id: nat, reason: string, now: int)
    requires NormalizeEntityType(j.entity) == j.entity && !Blocked(t, "default", j.entity, j.entity)
    ensures var t' := Requeued(t, LetterOf(j, id, reason), now);
            && |t'| == |t| + 1 && t'[..|t|] == t
            && var k := t'[|t|];
               && k.entity == j.entity && k.payload == j.payload && k.status == Pending && k.attempts == 0
               && k.entityId == (if j.entityId != "" then j.entityId else Digits(id))
               && k.scheduled == k.nextRetry == k.nextAttempt <= now && k.company == "default"
  {
    hide NormalizeEntityType, Digits, Blocked;
  }
}
