/** At most one Tally voucher per marker, over every interleaving of forward
    workers, crashes and outside changes. */
module ProtocolTally {
  import opened Text
  import opened Wrappers
  import opened Markers
  import opened MappingTable
  import opened Protocol
  import opened ProtocolLocks

  /** Tally never holds two live vouchers with the same RENTAL- narration. */
  predicate MarkersUnique(s: State) {
    forall g, h | g in s.liveVouchers && h in s.liveVouchers && g in s.vouchers && h in s.vouchers ::
      "RENTAL-" <= s.vouchers[g].narration && s.vouchers[g].narration == s.vouchers[h].narration ==> g == h
  }

  predicate Unasked(worker: Worker, item: Item, retry: bool)
    requires worker.Forward?
  {
    MarkerOf(item, retry) !in worker.asked
  }

  /** What a worker knows at its stage. The existence cache never holds a marker the
      worker has yet to ask about, so every "absent" it acts on was asked for inside
      the present critical section. */
  predicate StageSound(s: State, worker: Worker, item: Item, stage: ForwardStage)
    requires worker.Forward?
  {
    match stage
    case Guarded => Unasked(worker, item, false) && Unasked(worker, item, true)
    case Holding => Unasked(worker, item, false) && Unasked(worker, item, true)
    case Asking(retry) => Unasked(worker, item, retry) && (!retry ==> Unasked(worker, item, true))
    case Sending(retry, create) =>
      (!retry ==> Unasked(worker, item, true)) && (create ==> NotInTally(s, MarkerOf(item, retry)))
    case _ => true
  }

  ghost predicate WorkerSound(s: State, worker: Worker) {
    worker.Forward? ==>
      && CleanFetch(worker.todo)
      && (forall i :: i in worker.todo ==> Unasked(worker, i, false) && Unasked(worker, i, true))
      && (worker.fjob.Some? ==>
            Numeric(worker.fjob.value.item.id) && worker.fjob.value.item !in worker.todo
            && StageSound(s, worker, worker.fjob.value.item, worker.fjob.value.stage))
  }

  ghost predicate TallySound(s: State) {
    && MarkersUnique(s)
    && s.liveVouchers <= s.vouchers.Keys
    && forall w :: w in s.workers ==> WorkerSound(s, s.workers[w])
  }

  lemma MarkersOfItems(a: Item, x: bool, b: Item, y: bool)
    requires Numeric(a.id) && Numeric(b.id) && MarkerOf(a, x) == MarkerOf(b, y)
    ensures a == b && x == y
  {
    MarkersAreInjective(a.kind, a.id, x, b.kind, b.id, y);
  }

  lemma MarkerIsRental(item: Item, retry: bool)
    ensures "RENTAL-" <= MarkerOf(item, retry)
  {
  }

  /** Changes elsewhere: the vouchers are the same or fewer, and workers keep their
      knowledge. */
  lemma TallySoundWithFewer(s: State, s': State)
    requires TallySound(s) && s'.vouchers == s.vouchers && s'.liveVouchers <= s.liveVouchers
    requires forall w :: w in s'.workers ==> WorkerSound(s, s'.workers[w])
    ensures TallySound(s')
  {
  }

  lemma TallyKeptByNativeVoucher(s: State, g: string, v: Voucher)
    requires TallySound(s) && NativeVoucher(s, g, v)
    ensures TallySound(AfterAddVoucher(s, g, v))
  {
    hide NumberIsApart;
    var s' := AfterAddVoucher(s, g, v);
    forall w | w in s'.workers ensures WorkerSound(s', s'.workers[w]) {
      assert WorkerSound(s, s.workers[w]);
      var worker := s.workers[w];
      if worker.Forward? && worker.fjob.Some? && worker.fjob.value.stage.Sending? {
        MarkerIsRental(worker.fjob.value.item, worker.fjob.value.stage.retry);
      }
    }
  }

  lemma TallyKeptByWorld(s: State, a: WorldAct)
    requires TallySound(s) && WorldCan(s, a) && WorldAssumed(s, a)
    ensures TallySound(AfterWorld(s, a))
  {
    if a.AddVoucher? {
      TallyKeptByNativeVoucher(s, a.guid, a.voucher);
    } else {
      hide NativeRentout, TickInTime, WorkerSound, MarkersUnique;
      TallySoundWithFewer(s, AfterWorld(s, a));
    }
  }

  lemma TailIsClean(items: seq<Item>)
    requires CleanFetch(items) && items != []
    ensures CleanFetch(items[1..]) && Numeric(items[0].id) && items[0] in items && items[0] !in items[1..]
    ensures forall i :: i in items[1..] ==> i in items
  {
  }

  lemma TallyKeptByGuard(s: State, w: string, notes: string, mapped: Option<Row>, inTally: bool)
    requires TallySound(s) && CanGuard(s, w, notes, mapped)
    ensures TallySound(AfterGuard(s, w, notes, mapped, inTally))
  {
    hide GuardSkips, Best, TargetHits, Deleted;
    var s' := AfterGuard(s, w, notes, mapped, inTally);
    assert WorkerSound(s, s.workers[w]);
    TailIsClean(s.workers[w].todo);
    assert WorkerSound(s, s'.workers[w]);
    forall x | x in s'.workers ensures WorkerSound(s, s'.workers[x]) {
      if x != w {
        assert WorkerSound(s, s.workers[x]);
      }
    }
    TallySoundWithFewer(s, s');
  }

  lemma TallyKeptByAsking(s: State, w: string, present: bool, remember: bool)
    requires TallySound(s) && CanAskTally(s, w, present) && TallyTruthful(s, w, present)
    ensures TallySound(AfterAskTally(s, w, present, remember))
  {
    var s' := AfterAskTally(s, w, present, remember);
    var item, retry := ItemOf(s, w), ForwardStageOf(s, w).retry;
    assert WorkerSound(s, s.workers[w]);
    forall i: Item, r: bool | Numeric(i.id) && MarkerOf(i, r) == MarkerOf(item, retry) ensures i == item && r == retry {
      MarkersOfItems(i, r, item, retry);
    }
    forall x | x in s'.workers ensures WorkerSound(s, s'.workers[x]) {
      if x != w {
        assert WorkerSound(s, s.workers[x]);
      }
    }
    TallySoundWithFewer(s, s');
  }

  /** No other worker is about to create the marker this one just created. */
  lemma OthersUnaffectedByCreate(s: State, w: string, x: string)
    requires TallySound(s) && LeasesHeld(s)
    requires ForwardAt(s, w) && ForwardStageOf(s, w).Sending? && ForwardAt(s, x) && ForwardStageOf(s, x).Sending?
    requires MarkerOf(ItemOf(s, w), ForwardStageOf(s, w).retry) == MarkerOf(ItemOf(s, x), ForwardStageOf(s, x).retry)
    ensures x == w
  {
    assert WorkerSound(s, s.workers[w]) && WorkerSound(s, s.workers[x]);
    MarkersOfItems(ItemOf(s, w), ForwardStageOf(s, w).retry, ItemOf(s, x), ForwardStageOf(s, x).retry);
    SectionsExclude(s, w, x);
  }

  lemma TallyKeptByCreate(s: State, w: string, reply: Reply, g: string, number: string)
    requires TallySound(s) && LeasesHeld(s) && CanSend(s, w, reply, g)
    requires ForwardStageOf(s, w).create && Lands(reply)
    ensures TallySound(AfterSend(s, w, reply, g, number))
  {
    hide Marker;
    var s' := AfterSend(s, w, reply, g, number);
    var m := MarkerOf(ItemOf(s, w), ForwardStageOf(s, w).retry);
    assert WorkerSound(s, s.workers[w]) && NotInTally(s, m);
    forall x | x in s'.workers ensures WorkerSound(s', s'.workers[x]) {
      assert WorkerSound(s, s.workers[x]);
      if x != w && ForwardAt(s, x) && ForwardStageOf(s, x).Sending? && MarkerOf(ItemOf(s, x), ForwardStageOf(s, x).retry) == m {
        OthersUnaffectedByCreate(s, w, x);
      }
    }
  }

  lemma TallyKeptByReply(s: State, w: string, reply: Reply, g: string, number: string)
    requires TallySound(s) && CanSend(s, w, reply, g)
    requires !(ForwardStageOf(s, w).create && Lands(reply))
    ensures TallySound(AfterSend(s, w, reply, g, number))
  {
    var s' := AfterSend(s, w, reply, g, number);
    assert WorkerSound(s, s.workers[w]);
    forall x | x in s'.workers ensures WorkerSound(s, s'.workers[x]) {
      if x != w {
        assert WorkerSound(s, s.workers[x]);
      }
    }
    TallySoundWithFewer(s, s');
  }

  lemma TallyKeptByForward(s: State, w: string, a: ForwardAct)
    requires TallySound(s) && LeasesHeld(s) && ForwardCan(s, w, a) && ForwardAssumed(s, w, a)
    ensures TallySound(AfterForward(s, w, a))
  {
    match a
    case Guard(notes, mapped, inTally) => TallyKeptByGuard(s, w, notes, mapped, inTally);
    case AskTally(present, remember) => TallyKeptByAsking(s, w, present, remember);
    case Send(reply, g, number) =>
      if ForwardStageOf(s, w).create && Lands(reply) {
        TallyKeptByCreate(s, w, reply, g, number);
      } else {
        TallyKeptByReply(s, w, reply, g, number);
      }
    case _ => TallyKeptByPlainForward(s, w, a);
  }

  lemma TallyKeptByPlainForward(s: State, w: string, a: ForwardAct)
    requires TallySound(s) && ForwardCan(s, w, a) && ForwardAssumed(s, w, a)
    requires !a.Guard? && !a.AskTally? && !a.Send?
    ensures TallySound(AfterForward(s, w, a))
  {
    hide RecordKey, ForwardRow, Marker, AfterGuard, AfterAskTally, AfterSend, CanGuard, CanAskTally, CanSend, TallyTruthful,
         SendFresh, GuardTruthful, L.AfterAcquire, L.AfterRelease, Upsert, NotInTally, Numeric;
    var s' := AfterForward(s, w, a);
    if w in s.workers {
      assert WorkerSound(s, s.workers[w]);
    }
    forall x | x in s'.workers ensures WorkerSound(s, s'.workers[x]) {
      if x != w {
        assert WorkerSound(s, s.workers[x]);
      }
    }
    TallySoundWithFewer(s, s');
  }

  /** Reverse workers leave Tally and the forward workers alone. */
  lemma TallyKeptByReverse(s: State, w: string, a: ReverseAct)
    requires TallySound(s) && ReverseCan(s, w, a)
    ensures TallySound(AfterReverse(s, w, a))
  {
    ReverseLeavesTally(s, w, a);
    var s' := AfterReverse(s, w, a);
    forall x | x in s'.workers ensures WorkerSound(s, s'.workers[x]) {
      if x != w {
        assert WorkerSound(s, s.workers[x]);
      }
    }
    TallySoundWithFewer(s, s');
  }

  lemma ReverseLeavesTally(s: State, w: string, a: ReverseAct)
    requires ReverseCan(s, w, a)
    ensures var s' := AfterReverse(s, w, a);
            && s'.vouchers == s.vouchers && s'.liveVouchers == s.liveVouchers && s'.now == s.now
            && w in s'.workers && s'.workers[w].Reverse? && (w in s.workers ==> s.workers[w].Reverse?)
            && forall x :: x != w ==> (x in s'.workers <==> x in s.workers) && (x in s.workers ==> s'.workers[x] == s.workers[x])
  {
    if Deciding(a) {
      DecidingMoves(s, w, a);
    } else {
      hide RecordKey, VoucherKey, ReverseRow, Matches, RentoutFrom;
    }
  }

  lemma TallyKept(s: State, step: Step)
    requires TallySound(s) && LeasesHeld(s) && Enabled(s, step) && Assumed(s, step)
    ensures TallySound(Next(s, step))
  {
    match step
    case ByWorld(a) => TallyKeptByWorld(s, a);
    case ByForward(w, a) => TallyKeptByForward(s, w, a);
    case ByReverse(w, a) => TallyKeptByReverse(s, w, a);
  }
}
