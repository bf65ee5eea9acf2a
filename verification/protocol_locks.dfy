/** Critical sections: while a worker is inside one, the lock table holds its live
    lease, so no two workers are ever inside the same section. */
module ProtocolLocks {
  import opened Text
  import opened Wrappers
  import opened Markers
  import opened MappingTable
  import opened Protocol
  import L = Locks

  ghost predicate LeaseHeld(s: State, w: string) {
    w in s.workers && InSection(s.workers[w]) ==>
      var key := SectionKey(s.workers[w]);
      key in s.locks && s.locks[key] == L.Lease(w, SectionEnd(s.workers[w])) && s.now < SectionEnd(s.workers[w])
  }

  ghost predicate LeasesHeld(s: State) {
    forall w :: LeaseHeld(s, w)
  }

  /** The forward key of a rentout is never the lock a voucher is processed under. */
  lemma DirectionsDiffer(item: Item, guid: string)
    ensures RecordKey(item) != VoucherKey(guid)
  {
    var a, b := RecordKey(item), VoucherKey(guid);
    if item.kind == Order {
      assert a[21] == 'f' && b[21] == 'r';
    } else {
      assert a[8] != 'r' && b[8] == 'r';
    }
  }

  /** Any change that leaves locks and clock alone, and only the given worker's
      stage moves, inside the section it was in, or out of none. */
  lemma LeasesKeptByMoving(s: State, s': State, w: string)
    requires LeasesHeld(s) && s'.locks == s.locks && s'.now == s.now
    requires forall x :: x in s'.workers && x != w ==> x in s.workers && s'.workers[x] == s.workers[x]
    requires w in s'.workers && InSection(s'.workers[w]) ==>
               w in s.workers && InSection(s.workers[w]) && SectionKey(s'.workers[w]) == SectionKey(s.workers[w])
               && SectionEnd(s'.workers[w]) == SectionEnd(s.workers[w])
    ensures LeasesHeld(s')
  {
    forall x ensures LeaseHeld(s', x) {
      assert LeaseHeld(s, x);
    }
  }

  lemma LeasesKeptByWorld(s: State, a: WorldAct)
    requires LeasesHeld(s) && WorldAssumed(s, a)
    ensures LeasesHeld(AfterWorld(s, a))
  {
    hide RecordKey, VoucherKey, NativeRentout, NativeVoucher;
    forall x ensures LeaseHeld(AfterWorld(s, a), x) {
      assert LeaseHeld(s, x);
    }
  }

  lemma LeasesKeptByTakingRecord(s: State, w: string)
    requires LeasesHeld(s) && ForwardAt(s, w)
    ensures LeasesHeld(AfterTakeRecord(s, w))
  {
    hide RecordKey, VoucherKey;
    forall x ensures LeaseHeld(AfterTakeRecord(s, w), x) {
      assert LeaseHeld(s, x);
    }
  }

  lemma LeasesKeptByTakingVoucher(s: State, w: string)
    requires LeasesHeld(s) && FreeReverse(s, w)
    ensures LeasesHeld(AfterTakeVoucher(s, w))
  {
    hide RecordKey, VoucherKey;
    forall x ensures LeaseHeld(AfterTakeVoucher(s, w), x) {
      assert LeaseHeld(s, x);
    }
  }

  lemma LeasesKeptByReleasing(s: State, w: string)
    requires LeasesHeld(s)
    ensures ForwardAt(s, w) && InForwardSection(s.workers[w]) ==> LeasesHeld(AfterReleaseRecord(s, w))
    ensures ReverseAt(s, w) ==> LeasesHeld(AfterReleaseVoucher(s, w))
  {
    hide RecordKey, VoucherKey;
    forall x
      ensures ForwardAt(s, w) && InForwardSection(s.workers[w]) ==> LeaseHeld(AfterReleaseRecord(s, w), x)
      ensures ReverseAt(s, w) ==> LeaseHeld(AfterReleaseVoucher(s, w), x)
    {
      assert LeaseHeld(s, x);
    }
  }

  lemma LeasesKeptByReserving(s: State, w: string, rid: string)
    requires LeasesHeld(s) && ReverseAt(s, w)
    ensures LeasesHeld(AfterFreeNew(s, w, rid))
    ensures CanReserveNew(s, w) ==> LeasesHeld(AfterReserveNew(s, w))
  {
    hide RecordKey, VoucherKey;
    DirectionsDiffer(Item(Order, rid), GuidOf(s, w));
    forall x
      ensures LeaseHeld(AfterFreeNew(s, w, rid), x)
      ensures CanReserveNew(s, w) ==> LeaseHeld(AfterReserveNew(s, w), x)
    {
      assert LeaseHeld(s, x);
    }
  }

  lemma LeasesKeptByForward(s: State, w: string, a: ForwardAct)
    requires LeasesHeld(s) && ForwardCan(s, w, a)
    ensures LeasesHeld(AfterForward(s, w, a))
  {
    hide RecordKey, VoucherKey, ForwardRow, GuardSkips, MarkerOf, Best, TargetHits, Deleted;
    match a
    case TakeRecord => LeasesKeptByTakingRecord(s, w);
    case ReleaseRecord => LeasesKeptByReleasing(s, w);
    case _ => LeasesKeptByMoving(s, AfterForward(s, w, a), w);
  }

  predicate Deciding(a: ReverseAct) {
    a.Classify? || a.LookNumber? || a.AskRentAsst?
  }

  /** Only the worker's own stage and the mapping table changed. */
  predicate OnlyMoved(s: State, s': State, w: string)
    requires ReverseAt(s, w)
  {
    w in s'.workers && InReverseSection(s'.workers[w])
    && s' == MoveReverse(s, w, s'.workers[w].rjob.value.stage).(rows := s'.rows)
  }

  lemma ClassifyMoves(s: State, w: string, mapped: Option<Row>, stored: bool)
    requires ReverseAt(s, w)
    ensures OnlyMoved(s, AfterClassify(s, w, mapped, stored), w)
  {
    hide BackfillRow, ParseMarker, Strip, Upsert;
  }

  lemma DecidingMoves(s: State, w: string, a: ReverseAct)
    requires ReverseCan(s, w, a) && Deciding(a)
    ensures OnlyMoved(s, AfterReverse(s, w, a), w)
  {
    hide BackfillRow, ParseMarker, Best, TargetHits, SourceHits, NumberLookup, Deleted;
    match a
    case Classify(mapped, stored) => ClassifyMoves(s, w, mapped, stored);
    case _ =>
  }

  lemma LeasesKeptByDeciding(s: State, w: string, a: ReverseAct)
    requires LeasesHeld(s) && ReverseCan(s, w, a) && Deciding(a)
    ensures LeasesHeld(AfterReverse(s, w, a))
  {
    hide RecordKey, VoucherKey, AfterReverse;
    DecidingMoves(s, w, a);
    LeasesKeptByMoving(s, AfterReverse(s, w, a), w);
  }

  lemma LeasesKeptByReverse(s: State, w: string, a: ReverseAct)
    requires LeasesHeld(s) && ReverseCan(s, w, a) && !Deciding(a)
    ensures LeasesHeld(AfterReverse(s, w, a))
  {
    hide RecordKey, VoucherKey, ReverseRow, Matches, RentoutFrom;
    match a
    case TakeVoucher => LeasesKeptByTakingVoucher(s, w);
    case ReleaseVoucher => LeasesKeptByReleasing(s, w);
    case ReserveNew => LeasesKeptByReserving(s, w, "");
    case FreeNew(rid) => LeasesKeptByReserving(s, w, rid);
    case FetchVouchers(_) => LeasesKeptByMoving(s, AfterReverse(s, w, a), w);
    case Fail => LeasesKeptByMoving(s, AfterReverse(s, w, a), w);
    case ListRentouts(_, _, _) => LeasesKeptByMoving(s, AfterReverse(s, w, a), w);
    case PushRentout(_, _) => LeasesKeptByMoving(s, AfterReverse(s, w, a), w);
    case SaveReverse(_) => LeasesKeptByMoving(s, AfterReverse(s, w, a), w);
  }

  lemma LeasesKept(s: State, step: Step)
    requires LeasesHeld(s) && Enabled(s, step) && Assumed(s, step)
    ensures LeasesHeld(Next(s, step))
  {
    match step
    case ByWorld(a) => LeasesKeptByWorld(s, a);
    case ByForward(w, a) => LeasesKeptByForward(s, w, a);
    case ByReverse(w, a) =>
      if Deciding(a) {
        LeasesKeptByDeciding(s, w, a);
      } else {
        LeasesKeptByReverse(s, w, a);
      }
  }

  /** Mutual exclusion. */
  lemma SectionsExclude(s: State, w: string, w': string)
    requires LeasesHeld(s) && w in s.workers && w' in s.workers
    requires InSection(s.workers[w]) && InSection(s.workers[w'])
    requires SectionKey(s.workers[w]) == SectionKey(s.workers[w'])
    ensures w == w'
  {
    assert LeaseHeld(s, w) && LeaseHeld(s, w');
  }
}
