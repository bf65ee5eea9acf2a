/** Ping-pong: what forward sync pushes of the orders reverse sync imported. */
module ProtocolPing {
  import opened Text
  import opened Wrappers
  import opened Markers
  import opened MappingTable
  import opened Protocol
  import opened ProtocolLocks
  import opened ProtocolTally
  import opened ProtocolRentouts

  /** A copy of a Tally voucher is let through only on a mapping to a dead voucher. */
  predicate Excused(s: State, copyOf: Option<string>, dropped: Option<string>) {
    copyOf.Some? ==> dropped.Some? && dropped.value in s.vouchers && dropped.value !in s.liveVouchers
  }

  predicate SeenSound(seen: map<string, Rentout>) {
    forall r :: r in seen && seen[r].origin.Some? ==> IMPORTED <= seen[r].notes
  }

  predicate WorkerSafe(s: State, worker: Worker) {
    worker.Forward? ==>
      && SeenSound(worker.seen)
      && (worker.fjob.Some? ==> Excused(s, CopyOf(worker, worker.fjob.value.item), worker.fjob.value.dropped))
  }

  predicate PushesSafe(s: State, vouchers: map<string, Voucher>) {
    forall g :: g in vouchers && vouchers[g].pushed.Some? ==>
      Excused(s, vouchers[g].pushed.value.copyOf, vouchers[g].pushed.value.dropped)
  }

  predicate PingSound(s: State) {
    (forall w :: w in s.workers ==> WorkerSafe(s, s.workers[w])) && PushesSafe(s, s.vouchers)
  }

  /** No voucher that ever existed is forgotten or comes back to life. */
  predicate Ages(s: State, s': State) {
    forall g :: g in s.vouchers ==> g in s'.vouchers && (g in s'.liveVouchers ==> g in s.liveVouchers)
  }

  lemma PingKeptByAgeing(s: State, s': State)
    requires Ages(s, s')
    requires forall w :: w in s'.workers ==> WorkerSafe(s, s'.workers[w])
    requires PushesSafe(s, s'.vouchers)
    ensures PingSound(s')
  {
    hide SeenSound, CopyOf;
    forall w | w in s'.workers ensures WorkerSafe(s', s'.workers[w]) {
      assert WorkerSafe(s, s'.workers[w]);
    }
  }

  /** An imported order passes the guard only by dropping a mapping to a dead voucher: a
      lost mapping leaves it the notes reverse sync wrote, and those stop it. */
  lemma GuardedItemIsExcused(s: State, w: string, notes: string, mapped: Option<Row>, inTally: bool)
    requires RentoutsSound(s) && PingSound(s) && CanGuard(s, w, notes, mapped) && GuardTruthful(s, mapped, inTally)
    requires !GuardSkips(s.workers[w].todo[0], notes, mapped, inTally)
    ensures Excused(s, CopyOf(s.workers[w], s.workers[w].todo[0]), DroppedBy(mapped))
  {
    hide Matches, IsOwnMarker, Strip, NumbersApart, OriginsSound, RecordsCurrent, ReverseWorkersSound;
    var item := s.workers[w].todo[0];
    assert WorkerSafe(s, s.workers[w]);
    if CopyOf(s.workers[w], item).Some? && mapped.Some? {
      var k :| k in TargetHits(s.rows, "default", Entity(item.kind), "rentasst", item.id) && s.rows[k] == mapped.value;
      assert RowSound(s, s.rows[k]);
    }
  }

  lemma PingKeptByWorld(s: State, a: WorldAct)
    requires PingSound(s) && WorldCan(s, a)
    ensures PingSound(AfterWorld(s, a))
  {
    hide SeenSound, CopyOf;
    PingKeptByAgeing(s, AfterWorld(s, a));
  }

  lemma PingKeptByGuard(s: State, w: string, notes: string, mapped: Option<Row>, inTally: bool)
    requires RentoutsSound(s) && PingSound(s) && CanGuard(s, w, notes, mapped) && GuardTruthful(s, mapped, inTally)
    ensures PingSound(AfterGuard(s, w, notes, mapped, inTally))
  {
    var s' := AfterGuard(s, w, notes, mapped, inTally);
    assert WorkerSafe(s, s.workers[w]);
    if !GuardSkips(s.workers[w].todo[0], notes, mapped, inTally) {
      GuardedItemIsExcused(s, w, notes, mapped, inTally);
    }
    hide RentoutsSound, GuardSkips, Best, TargetHits, Deleted, SeenSound, Excused;
    PingKeptByAgeing(s, s');
  }

  lemma PingKeptBySend(s: State, w: string, reply: Reply, g: string, number: string)
    requires PingSound(s) && CanSend(s, w, reply, g)
    ensures PingSound(AfterSend(s, w, reply, g, number))
  {
    hide Marker, SeenSound;
    assert WorkerSafe(s, s.workers[w]);
    PingKeptByAgeing(s, AfterSend(s, w, reply, g, number));
  }

  lemma PingKeptByFetch(s: State, w: string, items: seq<Item>)
    requires RentoutsSound(s) && PingSound(s) && CanFetchForward(s, w, items)
    ensures PingSound(AfterFetchForward(s, w, items))
  {
    hide Matches, IsOwnMarker, Strip, NumbersApart, RowsSound, RecordsCurrent, ReverseWorkersSound, RentoutsUnique;
    PingKeptByAgeing(s, AfterFetchForward(s, w, items));
  }

  /** A forward worker moves on with the item it has. */
  lemma PingKeptByMoving(s: State, s': State, w: string)
    requires PingSound(s) && ForwardAt(s, w) && w in s'.workers && s'.workers[w].Forward?
    requires s'.vouchers == s.vouchers && s'.liveVouchers == s.liveVouchers && s'.workers[w].seen == s.workers[w].seen
    requires s'.workers[w].fjob.Some? ==>
               s'.workers[w].fjob.value.item == ItemOf(s, w) && s'.workers[w].fjob.value.dropped == s.workers[w].fjob.value.dropped
    requires forall x :: x in s'.workers && x != w ==> x in s.workers && s'.workers[x] == s.workers[x]
    ensures PingSound(s')
  {
    assert WorkerSafe(s, s.workers[w]);
    hide SeenSound, Excused;
    PingKeptByAgeing(s, s');
  }

  lemma PingKeptByForward(s: State, w: string, a: ForwardAct)
    requires RentoutsSound(s) && PingSound(s) && ForwardCan(s, w, a) && ForwardAssumed(s, w, a)
    ensures PingSound(AfterForward(s, w, a))
  {
    hide RentoutsSound, PingSound, Best, TargetHits, RecordKey, Marker, ForwardRow, CleanFetch, NumberIsApart, GuardSkips;
    match a
    case FetchItems(items) => PingKeptByFetch(s, w, items);
    case Guard(notes, mapped, inTally) => PingKeptByGuard(s, w, notes, mapped, inTally);
    case Send(reply, g, number) => PingKeptBySend(s, w, reply, g, number);
    case _ => PingKeptByMoving(s, AfterForward(s, w, a), w);
  }

  lemma PingKeptByReverse(s: State, w: string, a: ReverseAct)
    requires PingSound(s) && ReverseCan(s, w, a)
    ensures PingSound(AfterReverse(s, w, a))
  {
    hide AfterReverse, ReverseCan, SeenSound, Excused;
    ReverseLeavesTally(s, w, a);
    PingKeptByAgeing(s, AfterReverse(s, w, a));
  }

  lemma PingKept(s: State, step: Step)
    requires RentoutsSound(s) && PingSound(s) && Enabled(s, step) && Assumed(s, step)
    ensures PingSound(Next(s, step))
  {
    hide RentoutsSound, PingSound, ForwardCan, ReverseCan, AfterForward, AfterReverse, AfterWorld,
         ForwardAssumed, ReverseAssumed, WorldAssumed;
    match step
    case ByWorld(a) => PingKeptByWorld(s, a);
    case ByForward(w, a) => PingKeptByForward(s, w, a);
    case ByReverse(w, a) => PingKeptByReverse(s, w, a);
  }

  // ---------- exactly when the guard stops an imported order ----------

  /** The mappings the guard's ranked lookup may answer with. */
  ghost predicate MayPick(s: State, id: string, mapped: Option<Row>) {
    Best(s.rows, TargetHits(s.rows, "default", "rental_order", "rentasst", id), mapped)
  }

  /** Whatever mapping the lookup picks, a truthful oracle stops the order in hand. */
  ghost predicate SurelyStops(s: State, w: string)
    requires FreeForward(s, w)
  {
    var item := s.workers[w].todo[0];
    forall notes, mapped :: CanGuard(s, w, notes, mapped) ==>
      GuardSkips(item, notes, mapped, mapped.Some? && SourceName(mapped.value) in s.liveVouchers)
  }

  lemma NotesInHand(s: State, w: string, mapped: Option<Row>)
    requires FreeForward(s, w) && s.workers[w].todo[0].kind == Order && s.workers[w].todo[0].id in s.workers[w].seen
    requires MayPick(s, s.workers[w].todo[0].id, mapped)
    ensures CanGuard(s, w, s.workers[w].seen[s.workers[w].todo[0].id].notes, mapped)
  {
  }

  /** A fetched copy of a Tally voucher is stopped, whatever the lookup picks, if and only
      if every mapping it may pick for this number names a living voucher. A mapping left
      over from an earlier life of the number is the one way past. */
  lemma CopyStopsIff(s: State, w: string)
    requires RentoutsSound(s) && PingSound(s) && FreeForward(s, w) && s.workers[w].todo[0].kind == Order
    requires CopyOf(s.workers[w], s.workers[w].todo[0]).Some?
    ensures SurelyStops(s, w) <==>
            forall mapped :: MayPick(s, s.workers[w].todo[0].id, mapped) && mapped.Some? ==>
              SourceName(mapped.value) in s.liveVouchers
  {
    hide Matches, IsOwnMarker, Strip, NumbersApart, OriginsSound, RecordsCurrent, ReverseWorkersSound, RentoutsUnique;
    var item := s.workers[w].todo[0];
    assert WorkerSafe(s, s.workers[w]);
    forall mapped: Option<Row> | MayPick(s, item.id, mapped) && mapped.Some? ensures FromTally(mapped) && SourceName(mapped.value) != "" {
      var k :| k in TargetHits(s.rows, "default", "rental_order", "rentasst", item.id) && s.rows[k] == mapped.value;
      assert RowSound(s, s.rows[k]);
    }
    if SurelyStops(s, w) {
      forall mapped | MayPick(s, item.id, mapped) && mapped.Some? ensures SourceName(mapped.value) in s.liveVouchers {
        NotesInHand(s, w, mapped);
      }
    } else {
      var notes, mapped :| CanGuard(s, w, notes, mapped)
                           && !GuardSkips(item, notes, mapped, mapped.Some? && SourceName(mapped.value) in s.liveVouchers);
      assert MayPick(s, item.id, mapped);
    }
  }
}
