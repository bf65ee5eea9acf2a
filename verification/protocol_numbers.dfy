/** When no RentAsst number is ever reused, no copy of a living voucher is pushed. */
module ProtocolNumbers {
  import opened Text
  import opened Wrappers
  import opened Markers
  import opened MappingTable
  import opened Protocol
  import opened ProtocolLocks
  import opened ProtocolTally
  import opened ProtocolRentouts
  import opened ProtocolPing
  import opened ProtocolTheorems
  import L = Locks

  type Rentouts = map<string, Rentout>

  predicate RowOwned(rents: Rentouts, r: Row) {
    r.sourceSystem == "tally" ==> r.target in rents && rents[r.target].origin == Some(r.source)
  }

  predicate RowsOwned(rents: Rentouts, t: Table) {
    forall k :: k in t ==> RowOwned(rents, t[k])
  }

  predicate SameOwner(copyOf: Option<string>, dropped: Option<string>) {
    copyOf.Some? && dropped.Some? ==> dropped == copyOf
  }

  /** No record has changed owner since it was seen, recorded or pushed. */
  predicate WorkerOwned(rents: Rentouts, worker: Worker) {
    match worker
    case Forward(_, seen, _, fjob) =>
      (forall r :: r in seen ==> r in rents && rents[r] == seen[r])
      && (fjob.Some? ==> SameOwner(CopyOf(worker, fjob.value.item), fjob.value.dropped))
    case Reverse(_, rjob) =>
      rjob.Some? && rjob.value.stage.Pushed? ==>
        rjob.value.stage.rid in rents && rents[rjob.value.stage.rid].origin == Some(rjob.value.guid)
  }

  predicate PushesOwned(vouchers: map<string, Voucher>) {
    forall g :: g in vouchers && vouchers[g].pushed.Some? ==>
      SameOwner(vouchers[g].pushed.value.copyOf, vouchers[g].pushed.value.dropped)
  }

  predicate Owned(s: State) {
    RowsOwned(s.rentouts, s.rows) && PushesOwned(s.vouchers) && forall w :: w in s.workers ==> WorkerOwned(s.rentouts, s.workers[w])
  }

  predicate Grows(rents: Rentouts, rents': Rentouts) {
    forall r :: r in rents ==> r in rents' && rents'[r] == rents[r]
  }

  /** A step gives a number a second record. */
  ghost predicate ReusesNumber(s: State, step: Step) {
    match step
    case ByWorld(a) => a.AddRentout? && a.rid in s.rentouts
    case ByForward(_, _) => false
    case ByReverse(_, a) => a.PushRentout? && Lands(a.reply) && a.rid in s.rentouts
  }

  lemma OwnedStays(rents: Rentouts, s: State)
    requires Grows(rents, s.rentouts) && RowsOwned(rents, s.rows) && PushesOwned(s.vouchers)
    requires forall w :: w in s.workers ==> WorkerOwned(rents, s.workers[w]) || WorkerOwned(s.rentouts, s.workers[w])
    ensures Owned(s)
  {
    hide CopyOf, SameOwner;
    forall k | k in s.rows ensures RowOwned(s.rentouts, s.rows[k]) {
      assert RowOwned(rents, s.rows[k]);
    }
  }

  lemma OwnedByWorld(s: State, a: WorldAct)
    requires Owned(s) && WorldCan(s, a) && !ReusesNumber(s, ByWorld(a))
    ensures Owned(AfterWorld(s, a))
  {
    hide WorkerOwned, RowsOwned, SameOwner;
    OwnedStays(s.rentouts, AfterWorld(s, a));
  }

  // ---------- forward workers ----------

  lemma GuardDropsOwner(s: State, w: string, notes: string, mapped: Option<Row>)
    requires Owned(s) && RowsSound(s) && CanGuard(s, w, notes, mapped)
    ensures SameOwner(CopyOf(s.workers[w], s.workers[w].todo[0]), DroppedBy(mapped))
  {
    hide Numeric;
    var item := s.workers[w].todo[0];
    assert WorkerOwned(s.rentouts, s.workers[w]);
    if FromTally(mapped) {
      var k :| k in TargetHits(s.rows, "default", Entity(item.kind), "rentasst", item.id) && s.rows[k] == mapped.value;
      assert RowSound(s, s.rows[k]) && RowOwned(s.rentouts, s.rows[k]);
    }
  }

  lemma OwnedByGuard(s: State, w: string, notes: string, mapped: Option<Row>, inTally: bool)
    requires Owned(s) && RowsSound(s) && CanGuard(s, w, notes, mapped)
    ensures Owned(AfterGuard(s, w, notes, mapped, inTally))
  {
    GuardDropsOwner(s, w, notes, mapped);
    hide RowSound, RowsSound, GuardSkips, Best, TargetHits, SameOwner, RowOwned, DeleteHit;
    var s' := AfterGuard(s, w, notes, mapped, inTally);
    assert WorkerOwned(s.rentouts, s.workers[w]);
    OwnedStays(s.rentouts, s');
  }

  lemma OwnedBySend(s: State, w: string, reply: Reply, g: string, number: string)
    requires Owned(s) && CanSend(s, w, reply, g)
    ensures Owned(AfterSend(s, w, reply, g, number))
  {
    hide Marker, RowsOwned;
    assert WorkerOwned(s.rentouts, s.workers[w]);
    OwnedStays(s.rentouts, AfterSend(s, w, reply, g, number));
  }

  lemma OwnedBySaving(s: State, s': State, w: string, r: Row, stored: bool)
    requires Owned(s) && ForwardAt(s, w) && RowOwned(s.rentouts, r)
    requires exists stage :: s' == MoveForward(s, w, stage).(rows := Stored(s.rows, r, stored))
    ensures Owned(s')
  {
    hide SameOwner;
    assert WorkerOwned(s.rentouts, s.workers[w]);
    OwnedStays(s.rentouts, s');
  }

  lemma ForwardRowIsOwned(rents: Rentouts, item: Item, target: string, hash: string)
    ensures RowOwned(rents, ForwardRow(item, target, hash))
  {
  }

  /** The worker moves on with the item it has, or takes none. */
  lemma OwnedByMoving(s: State, s': State, w: string)
    requires Owned(s) && s'.rentouts == s.rentouts && s'.rows == s.rows && s'.vouchers == s.vouchers
    requires ForwardAt(s, w) && w in s'.workers && s'.workers[w].Forward? && s'.workers[w].seen == s.workers[w].seen
    requires s'.workers[w].fjob.Some? ==>
               s'.workers[w].fjob.value.item == ItemOf(s, w) && s'.workers[w].fjob.value.dropped == s.workers[w].fjob.value.dropped
    requires forall x :: x in s'.workers && x != w ==> x in s.workers && s'.workers[x] == s.workers[x]
    ensures Owned(s')
  {
    hide SameOwner, RowsOwned;
    assert WorkerOwned(s.rentouts, s.workers[w]);
    OwnedStays(s.rentouts, s');
  }

  lemma OwnedByFetch(s: State, w: string, items: seq<Item>)
    requires Owned(s)
    ensures Owned(AfterFetchForward(s, w, items))
  {
    hide SameOwner, RowsOwned;
    OwnedStays(s.rentouts, AfterFetchForward(s, w, items));
  }

  lemma OwnedByForward(s: State, w: string, a: ForwardAct)
    requires Owned(s) && RowsSound(s) && ForwardCan(s, w, a)
    ensures Owned(AfterForward(s, w, a))
  {
    hide Owned, RowsSound, Best, TargetHits, RecordKey, Marker, ForwardRow, GuardSkips, CanGuard, AfterGuard, RowOwned, Upsert;
    match a
    case FetchItems(items) => OwnedByFetch(s, w, items);
    case Guard(notes, mapped, inTally) => OwnedByGuard(s, w, notes, mapped, inTally);
    case Send(reply, g, number) => OwnedBySend(s, w, reply, g, number);
    case Settle(adopt, hash) =>
      var r := ForwardRow(ItemOf(s, w), MarkerOf(ItemOf(s, w), false), hash);
      ForwardRowIsOwned(s.rentouts, ItemOf(s, w), MarkerOf(ItemOf(s, w), false), hash);
      OwnedBySaving(s, AfterForward(s, w, a), w, r, adopt);
    case SaveForward(stored, hash) =>
      var m := MarkerOf(ItemOf(s, w), ForwardStageOf(s, w).retry);
      ForwardRowIsOwned(s.rentouts, ItemOf(s, w), m, hash);
      OwnedBySaving(s, AfterForward(s, w, a), w, ForwardRow(ItemOf(s, w), m, hash), stored);
    case _ => OwnedByMoving(s, AfterForward(s, w, a), w);
  }

  // ---------- reverse workers ----------

  /** The worker is at a stage of its own, and at most one owned row is new. */
  lemma OwnedByReverseMove(s: State, s': State, w: string)
    requires Owned(s) && Grows(s.rentouts, s'.rentouts) && RowsOwned(s.rentouts, s'.rows) && s'.vouchers == s.vouchers
    requires w in s'.workers ==> WorkerOwned(s'.rentouts, s'.workers[w])
    requires forall x :: x in s'.workers && x != w ==> x in s.workers && s'.workers[x] == s.workers[x]
    ensures Owned(s')
  {
    hide WorkerOwned, RowsOwned, SameOwner;
    OwnedStays(s.rentouts, s');
  }

  lemma RowsOwnedWith(rents: Rentouts, t: Table, r: Row, entity: string, id: string)
    requires RowsOwned(rents, t) && RowOwned(rents, r)
    ensures RowsOwned(rents, Upsert(t, r))
    ensures RowsOwned(rents, Deleted(t, entity, id))
  {
  }

  lemma BackfillRowIsOwned(rents: Rentouts, kind: Kind, id: string, marker: string)
    ensures RowOwned(rents, BackfillRow(kind, id, marker))
  {
  }

  lemma ReverseRowIsOwned(rents: Rentouts, guid: string, rid: string)
    requires rid in rents && rents[rid].origin == Some(guid)
    ensures RowOwned(rents, ReverseRow(guid, rid))
  {
  }

  lemma OwnedByDeciding(s: State, w: string, a: ReverseAct)
    requires Owned(s) && ReverseCan(s, w, a) && Deciding(a)
    ensures Owned(AfterReverse(s, w, a))
  {
    DecidingMoves(s, w, a);
    DecidedRows(s, w, a);
    hide ReverseCan, AfterReverse, RowsOwned, SameOwner;
    OwnedByReverseMove(s, AfterReverse(s, w, a), w);
  }

  lemma DecidedRows(s: State, w: string, a: ReverseAct)
    requires Owned(s) && ReverseCan(s, w, a) && Deciding(a)
    ensures RowsOwned(s.rentouts, AfterReverse(s, w, a).rows)
    ensures ReverseAt(AfterReverse(s, w, a), w) && !ReverseStageOf(AfterReverse(s, w, a), w).Pushed?
  {
    hide RowsOwned, RowOwned, BackfillRow, ParseMarker, Best, TargetHits, SourceHits, NumberLookup, Upsert, Deleted, NewRow;
    var own := ParseMarker(VoucherOf(s, w).narration);
    var anyRow := BackfillRow(Order, "", "");
    BackfillRowIsOwned(s.rentouts, Order, "", "");
    if own.Some? {
      var r := BackfillRow(own.value.0, own.value.1, Strip(VoucherOf(s, w).narration));
      BackfillRowIsOwned(s.rentouts, own.value.0, own.value.1, Strip(VoucherOf(s, w).narration));
      RowsOwnedWith(s.rentouts, s.rows, r, "", "");
    }
    RowsOwnedWith(s.rentouts, s.rows, anyRow, "rental_order", GuidOf(s, w));
    if ReverseStageOf(s, w).Numbered? {
      RowsOwnedWith(s.rentouts, s.rows, anyRow, "rental_order", ReverseStageOf(s, w).target);
    }
  }

  lemma OwnedByList(s: State, w: string, listed: Option<set<string>>, pick: Option<string>, stored: bool)
    requires Owned(s) && RentoutsSound(s) && CanListRentouts(s, w, listed, pick) && ListComplete(s, listed, pick, stored)
    ensures Owned(AfterListRentouts(s, w, pick, stored))
  {
    hide Matches, IsOwnMarker, ReverseRow, Upsert, RowsOwned, RowsSound, RecordsCurrent, OriginsSound, RentoutsUnique, SameOwner;
    var s', g := AfterListRentouts(s, w, pick, stored), GuidOf(s, w);
    if pick.Some? {
      assert ReverseWorkerSound(s, s.workers[w]);
      assert s.rentouts[pick.value].origin == Some(g);
      ReverseRowIsOwned(s.rentouts, g, pick.value);
      RowsOwnedWith(s.rentouts, s.rows, ReverseRow(g, pick.value), "", "");
    }
    OwnedByReverseMove(s, s', w);
  }

  lemma OwnedByPush(s: State, w: string, reply: Reply, rid: string)
    requires Owned(s) && CanPushRentout(s, w, rid) && !(Lands(reply) && rid in s.rentouts)
    ensures Owned(AfterPushRentout(s, w, reply, rid))
  {
    hide RentoutFrom, RowsOwned, SameOwner;
    PostedOrigin(GuidOf(s, w), VoucherOf(s, w));
    OwnedByReverseMove(s, AfterPushRentout(s, w, reply, rid), w);
  }

  lemma OwnedBySaveReverse(s: State, w: string, stored: bool)
    requires Owned(s) && CanReserveNew(s, w)
    ensures Owned(AfterSaveReverse(s, w, stored))
  {
    hide ReverseRow, Upsert, RowsOwned, RowOwned, SameOwner;
    assert WorkerOwned(s.rentouts, s.workers[w]);
    var g, rid := GuidOf(s, w), ReverseStageOf(s, w).rid;
    ReverseRowIsOwned(s.rentouts, g, rid);
    RowsOwnedWith(s.rentouts, s.rows, ReverseRow(g, rid), "", "");
    OwnedByReverseMove(s, AfterSaveReverse(s, w, stored), w);
  }

  lemma OwnedByPlainReverse(s: State, w: string, a: ReverseAct)
    requires Owned(s) && ReverseCan(s, w, a) && !Deciding(a)
    requires !a.ListRentouts? && !a.PushRentout? && !a.SaveReverse?
    ensures Owned(AfterReverse(s, w, a))
  {
    hide RecordKey, VoucherKey, RowsOwned, SameOwner, L.AfterAcquire, L.AfterRelease;
    if w in s.workers {
      assert WorkerOwned(s.rentouts, s.workers[w]);
    }
    OwnedByReverseMove(s, AfterReverse(s, w, a), w);
  }

  lemma OwnedByReverse(s: State, w: string, a: ReverseAct)
    requires Owned(s) && RentoutsSound(s) && ReverseCan(s, w, a) && ReverseAssumed(s, w, a)
    requires !ReusesNumber(s, ByReverse(w, a))
    ensures Owned(AfterReverse(s, w, a))
  {
    hide Owned, RentoutsSound, AfterListRentouts, AfterPushRentout, AfterSaveReverse, CanListRentouts;
    if Deciding(a) {
      OwnedByDeciding(s, w, a);
    } else {
      match a
      case ListRentouts(listed, pick, stored) => OwnedByList(s, w, listed, pick, stored);
      case PushRentout(reply, rid) => OwnedByPush(s, w, reply, rid);
      case SaveReverse(stored) => OwnedBySaveReverse(s, w, stored);
      case _ => OwnedByPlainReverse(s, w, a);
    }
  }

  lemma OwnersKept(s: State, step: Step)
    requires Owned(s) && Sound(s) && Enabled(s, step) && Assumed(s, step) && !ReusesNumber(s, step)
    ensures Owned(Next(s, step))
  {
    hide Owned, LeasesHeld, TallySound, PingSound, ForwardCan, ReverseCan, AfterForward, AfterReverse, AfterWorld,
         ForwardAssumed, ReverseAssumed, WorldAssumed, RowsSound;
    match step
    case ByWorld(a) => OwnedByWorld(s, a);
    case ByForward(w, a) => OwnedByForward(s, w, a);
    case ByReverse(w, a) => OwnedByReverse(s, w, a);
  }

  // ---------- runs ----------

  ghost predicate NeverReuses(s: State, steps: seq<Step>)
    requires Legal(s, steps)
    decreases |steps|
  {
    steps == [] || (!ReusesNumber(s, steps[0]) && NeverReuses(Next(s, steps[0]), steps[1..]))
  }

  lemma {:induction false} OwnedThroughout(s: State, steps: seq<Step>)
    requires Sound(s) && Owned(s) && Legal(s, steps) && AllAssumed(s, steps) && NeverReuses(s, steps)
    ensures Owned(Run(s, steps))
    decreases |steps|
  {
    hide Sound, Owned, Enabled, Assumed, Next, ReusesNumber;
    if steps != [] {
      SoundKept(s, steps[0]);
      OwnersKept(s, steps[0]);
      OwnedThroughout(Next(s, steps[0]), steps[1..]);
    }
  }

  /** In every assumed run that never gives a number a second record, nothing forward sync
      has in hand or ever pushed is a copy of a voucher that is alive. */
  lemma FreshNumbersNoCopies(steps: seq<Step>, w: string, g: string, source: string)
    requires Legal(FRESH_INSTALL, steps) && AllAssumed(FRESH_INSTALL, steps) && NeverReuses(FRESH_INSTALL, steps)
    requires source in Run(FRESH_INSTALL, steps).liveVouchers
    ensures var s := Run(FRESH_INSTALL, steps);
            && (ForwardAt(s, w) ==> CopyOf(s.workers[w], ItemOf(s, w)) != Some(source))
            && (g in s.vouchers && s.vouchers[g].pushed.Some? ==> s.vouchers[g].pushed.value.copyOf != Some(source))
  {
    hide Sound, Legal, AllAssumed, NeverReuses, Run, CopyOf;
    SoundAtStart();
    OwnedThroughout(FRESH_INSTALL, steps);
    var s := Run(FRESH_INSTALL, steps);
    assert Reachable(s);
    NoPingPong(s, w, g, source);
    if ForwardAt(s, w) {
      assert WorkerOwned(s.rentouts, s.workers[w]);
    }
  }
}
