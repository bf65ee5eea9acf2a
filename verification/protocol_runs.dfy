/** Assumed runs of the protocol, and whole phases of them: a forward worker's way from
    the guard to the import, and a reverse worker's whole import of a voucher. */
module ProtocolRuns {
  import opened Text
  import opened Wrappers
  import opened Markers
  import opened MappingTable
  import opened Protocol
  import opened ProtocolLocks
  import opened ProtocolTally
  import opened ProtocolRentouts
  import opened ProtocolPing
  import opened ProtocolTheorems
  import L = Locks

  /** An assumed run from `s` ends in `t`. */
  ghost predicate Leads(s: State, t: State) {
    exists steps :: Legal(s, steps) && AllAssumed(s, steps) && Run(s, steps) == t
  }

  lemma {:induction false} OneMore(s: State, steps: seq<Step>, step: Step)
    requires Legal(s, steps) && AllAssumed(s, steps)
    requires Enabled(Run(s, steps), step) && Assumed(Run(s, steps), step)
    ensures Legal(s, steps + [step]) && AllAssumed(s, steps + [step])
    ensures Run(s, steps + [step]) == Next(Run(s, steps), step)
    decreases |steps|
  {
    hide Enabled, Assumed, Next;
    if steps == [] {
      assert steps + [step] == [step];
      assert [step][1..] == [];
    } else {
      assert (steps + [step])[1..] == steps[1..] + [step];
      OneMore(Next(s, steps[0]), steps[1..], step);
    }
  }

  lemma LeadsHere(s: State)
    ensures Leads(s, s)
  {
    assert Legal(s, []) && AllAssumed(s, []) && Run(s, []) == s;
  }

  lemma LeadsOn(s: State, t: State, step: Step)
    requires Leads(s, t) && Enabled(t, step) && Assumed(t, step)
    ensures Leads(s, Next(t, step))
  {
    hide Legal, AllAssumed, Run, Enabled, Assumed, Next;
    var steps :| Legal(s, steps) && AllAssumed(s, steps) && Run(s, steps) == t;
    OneMore(s, steps, step);
  }

  lemma LeadsTrans(s: State, t: State, u: State)
    requires Leads(s, t) && Leads(t, u)
    ensures Leads(s, u)
  {
    hide Legal, AllAssumed, Run;
    var xs :| Legal(s, xs) && AllAssumed(s, xs) && Run(s, xs) == t;
    var ys :| Legal(t, ys) && AllAssumed(t, ys) && Run(t, ys) == u;
    Joined(s, xs, ys);
  }

  lemma {:induction false} Joined(s: State, xs: seq<Step>, ys: seq<Step>)
    requires Legal(s, xs) && AllAssumed(s, xs) && Legal(Run(s, xs), ys) && AllAssumed(Run(s, xs), ys)
    ensures Legal(s, xs + ys) && AllAssumed(s, xs + ys) && Run(s, xs + ys) == Run(Run(s, xs), ys)
    decreases |xs|
  {
    hide Enabled, Assumed, Next;
    if xs == [] {
      assert xs + ys == ys;
    } else {
      assert (xs + ys)[1..] == xs[1..] + ys;
      Joined(Next(s, xs[0]), xs[1..], ys);
    }
  }

  lemma KeyIsNotBlank(item: Item)
    ensures RecordKey(item) != ""
  {
  }

  lemma LeadsIsReachable(s: State)
    requires Leads(FRESH_INSTALL, s)
    ensures Reachable(s)
  {
  }

  // ---------- a forward worker's item ----------

  lemma GuardOn(s: State, t: State, w: string, notes: string, mapped: Option<Row>, inTally: bool)
    requires Leads(s, t) && CanGuard(t, w, notes, mapped) && GuardTruthful(t, mapped, inTally)
    ensures Leads(s, AfterGuard(t, w, notes, mapped, inTally))
  {
    hide Leads, AfterGuard, CanGuard, GuardTruthful;
    LeadsOn(s, t, ByForward(w, Guard(notes, mapped, inTally)));
  }

  lemma TakeOn(s: State, t: State, w: string)
    requires Leads(s, t) && ForwardAt(t, w) && ForwardStageOf(t, w).Guarded?
    ensures Leads(s, AfterTakeRecord(t, w))
  {
    hide Leads, RecordKey, AfterTakeRecord;
    LeadsOn(s, t, ByForward(w, TakeRecord));
  }

  lemma EnterOn(s: State, t: State, w: string)
    requires Leads(s, t) && ForwardAt(t, w) && ForwardStageOf(t, w).Holding?
    ensures Leads(s, MoveForward(t, w, Asking(false)))
  {
    hide Leads, MoveForward;
    LeadsOn(s, t, ByForward(w, Enter));
  }

  lemma AskOn(s: State, t: State, w: string, present: bool, remember: bool)
    requires Leads(s, t) && CanAskTally(t, w, present) && TallyTruthful(t, w, present)
    ensures Leads(s, AfterAskTally(t, w, present, remember))
  {
    hide Leads, AfterAskTally, CanAskTally, TallyTruthful;
    LeadsOn(s, t, ByForward(w, AskTally(present, remember)));
  }

  lemma SendOn(s: State, t: State, w: string, reply: Reply, g: string, number: string)
    requires Leads(s, t) && CanSend(t, w, reply, g) && SendFresh(t, w, reply, g, number)
    ensures Leads(s, AfterSend(t, w, reply, g, number))
  {
    hide Leads, AfterSend, CanSend, SendFresh;
    LeadsOn(s, t, ByForward(w, Send(reply, g, number)));
  }

  lemma SaveOn(s: State, t: State, w: string, hash: string)
    requires Leads(s, t) && CanSaveForward(t, w)
    ensures Leads(s, AfterSaveForward(t, w, true, hash))
  {
    hide Leads, AfterSaveForward, CanSaveForward;
    LeadsOn(s, t, ByForward(w, SaveForward(true, hash)));
  }

  lemma ReleaseOn(s: State, t: State, w: string)
    requires Leads(s, t) && ForwardAt(t, w) && ForwardStageOf(t, w).Leaving?
    ensures Leads(s, AfterReleaseRecord(t, w))
  {
    hide Leads, AfterReleaseRecord;
    LeadsOn(s, t, ByForward(w, ReleaseRecord));
  }

  predicate AboutToSend(s: State, t: State, w: string, item: Item) {
    && ForwardAt(s, w) && w in t.workers && t == s.(workers := s.workers[w := t.workers[w]], locks := t.locks)
    && t.locks == s.locks[RecordKey(item) := L.Lease(w, s.now + FORWARD_LEASE)]
    && t.workers[w] == s.workers[w].(
         asked := s.workers[w].asked[MarkerOf(item, false) := false],
         fjob := Some(s.workers[w].fjob.value.(item := item, stage := Sending(false, true), until := s.now + FORWARD_LEASE)))
  }

  /** From the guard to the moment before the import, Tally's answer being "absent",
      a true one or one from the client's cache. */
  lemma EnterAndAsk(s: State, w: string, item: Item)
    requires ForwardAt(s, w) && ItemOf(s, w) == item && ForwardStageOf(s, w) == Guarded
    requires L.CanAcquire(s.locks, RecordKey(item), w, s.now)
    requires MarkerOf(item, false) in s.workers[w].asked || NotInTally(s, MarkerOf(item, false))
    requires MarkerOf(item, false) in s.workers[w].asked ==> !s.workers[w].asked[MarkerOf(item, false)]
    ensures exists t :: Leads(s, t) && AboutToSend(s, t, w, item)
  {
    hide Numeric, RecordKey, Marker, Leads;
    LeadsHere(s);
    TakeOn(s, s, w);
    var s1 := AfterTakeRecord(s, w);
    EnterOn(s, s1, w);
    var s2 := MoveForward(s1, w, Asking(false));
    AskOn(s, s2, w, false, true);
    assert AboutToSend(s, AfterAskTally(s2, w, false, true), w, item);
  }

  /** `t` has one voucher more than `s`, under guid `g`: the one `w` sent. */
  predicate Delivered(s: State, t: State, w: string, g: string) {
    && ForwardAt(s, w) && g !in s.vouchers && g in t.vouchers && t.vouchers == s.vouchers[g := t.vouchers[g]]
    && t.liveVouchers == s.liveVouchers + {g}
    && t.vouchers[g].narration == MarkerOf(ItemOf(s, w), false)
    && t.vouchers[g].pushed == Some(Push(ItemOf(s, w), CopyOf(s.workers[w], ItemOf(s, w)), s.workers[w].fjob.value.dropped))
    && t.rentouts == s.rentouts && t.liveRentouts == s.liveRentouts && t.now == s.now
  }

  /** An item past the guard, its lock free and its marker not in Tally, is delivered. */
  lemma GuardedIsDelivered(s: State, w: string, g: string, number: string)
    requires ForwardAt(s, w) && ForwardStageOf(s, w) == Guarded && FreshGuid(s, g)
    requires L.CanAcquire(s.locks, RecordKey(ItemOf(s, w)), w, s.now)
    requires s.workers[w].asked == map[] && NotInTally(s, MarkerOf(ItemOf(s, w), false))
    ensures exists t :: Leads(s, t) && Delivered(s, t, w, g)
  {
    hide Numeric, RecordKey, Marker, Leads;
    var item := ItemOf(s, w);
    EnterAndAsk(s, w, item);
    var s1 :| Leads(s, s1) && AboutToSend(s, s1, w, item);
    SendOn(s, s1, w, Accepted, g, number);
    assert Delivered(s, AfterSend(s1, w, Accepted, g, number), w, g);
  }

  // ---------- a reverse worker's voucher ----------

  /** Worker `w` has voucher `g` in hand. */
  function WithVoucher(s: State, w: string, g: string, stage: ReverseStage): State {
    s.(workers := s.workers[w := Reverse([], Some(ReverseJob(g, stage, s.now + REVERSE_LEASE)))],
       locks := s.locks[VoucherKey(g) := L.Lease(w, s.now + REVERSE_LEASE)])
  }

  /** A foreign voucher and a worker yet to start, with the voucher's lock free. */
  predicate Ready(s: State, w: string, g: string) {
    Importable(s, g) && g in s.liveVouchers && w != "" && w !in s.workers && !L.Held(s.locks, VoucherKey(g), s.now)
  }

  lemma VoucherKeyIsNotBlank(g: string)
    ensures VoucherKey(g) != ""
  {
  }

  lemma FetchAndTake(s: State, w: string, g: string)
    requires Ready(s, w, g)
    ensures Leads(s, WithVoucher(s, w, g, Entered))
  {
    hide VoucherKey, IsOwnMarker, Leads;
    VoucherKeyIsNotBlank(g);
    LeadsHere(s);
    LeadsOn(s, s, ByReverse(w, FetchVouchers([g])));
    var s1 := AfterFetchReverse(s, w, [g]);
    LeadsOn(s, s1, ByReverse(w, TakeVoucher));
    assert [g][1..] == [];
    assert AfterTakeVoucher(s1, w) == WithVoucher(s, w, g, Entered);
  }

  lemma NumberIsUnknown(s: State, g: string)
    requires RowsSound(s) && NumbersApart(s) && Importable(s, g)
    ensures NumberLookup(s.rows, Strip(s.vouchers[g].number), None)
  {
    hide Matches, RentoutFrom, IsOwnMarker, Strip;
    var n := Strip(s.vouchers[g].number);
    assert ("RENT-" + n)[4] == '-' && ("ORD-" + n)[0] == 'O';
    NoForwardTarget(s, n);
    NoForwardTarget(s, "RENT-" + n);
    NoForwardTarget(s, "ORD-" + n);
  }

  lemma NoMappingByGuid(s: State, g: string)
    requires RowsSound(s) && Unrecorded(s, g)
    ensures SourceHits(s.rows, "default", "rental_order", g) == {}
  {
    forall k | k in s.rows ensures !SourceHit(s.rows[k], "default", "rental_order", g) {
      assert RowSound(s, s.rows[k]);
    }
  }

  lemma ClassifyAndLook(s: State, w: string, g: string)
    requires Sound(s) && Ready(s, w, g) && Unrecorded(s, g)
    ensures Leads(s, WithVoucher(s, w, g, Listing))
  {
    hide VoucherKey, Strip, Leads, LeasesHeld, TallySound, PingSound, NumberLookup, SourceHits, RowsSound, NumbersApart,
         RentoutsUnique, RecordsCurrent, OriginsSound, ReverseWorkersSound, ParseMarker;
    FetchAndTake(s, w, g);
    NoMappingByGuid(s, g);
    var s1, s2 := WithVoucher(s, w, g, Entered), WithVoucher(s, w, g, Unmapped);
    assert Best(s1.rows, SourceHits(s1.rows, "default", "rental_order", g), None);
    ClassifyOn(s, s1, w, None);
    assert AfterClassify(s1, w, None, false) == s2;
    NumberIsUnknown(s, g);
    LookOn(s, s2, w);
    assert AfterLookNumber(s2, w, None) == WithVoucher(s, w, g, Listing);
  }

  lemma ClassifyOn(s: State, t: State, w: string, mapped: Option<Row>)
    requires Leads(s, t) && ReverseAt(t, w) && ReverseStageOf(t, w).Entered? && !IsOwnMarker(VoucherOf(t, w).narration)
    requires Best(t.rows, SourceHits(t.rows, "default", "rental_order", GuidOf(t, w)), mapped)
    requires mapped.Some? ==> mapped.value.entity == "rental_order" && mapped.value.source == GuidOf(t, w)
    ensures Leads(s, AfterClassify(t, w, mapped, false))
  {
    hide Leads, AfterClassify, Best, SourceHits;
    LeadsOn(s, t, ByReverse(w, Classify(mapped, false)));
  }

  lemma LookOn(s: State, t: State, w: string)
    requires Leads(s, t) && CanLookNumber(t, w, None)
    ensures Leads(s, AfterLookNumber(t, w, None))
  {
    hide Leads, AfterLookNumber, CanLookNumber;
    LeadsOn(s, t, ByReverse(w, LookNumber(None)));
  }

  lemma AskRentAsstOn(s: State, t: State, w: string)
    requires Leads(s, t) && CanAskRentAsst(t, w) && RentAsstTruthful(t, w, false)
    ensures Leads(s, AfterAskRentAsst(t, w, false))
  {
    hide Leads, AfterAskRentAsst, CanAskRentAsst, RentAsstTruthful;
    LeadsOn(s, t, ByReverse(w, AskRentAsst(false)));
  }

  lemma ListOn(s: State, t: State, w: string)
    requires Leads(s, t) && CanListRentouts(t, w, Some(t.liveRentouts), None)
    ensures Leads(s, AfterListRentouts(t, w, None, false))
  {
    hide Leads, AfterListRentouts, CanListRentouts;
    LeadsOn(s, t, ByReverse(w, ListRentouts(Some(t.liveRentouts), None, false)));
  }

  /** A first import, up to the moment before the push. */
  lemma JudgedNew(s: State, w: string, g: string)
    requires Sound(s) && Ready(s, w, g) && Unrecorded(s, g) && NoneLive(s, g)
    ensures Leads(s, WithVoucher(s, w, g, Absent))
  {
    hide VoucherKey, Leads, RentoutFrom, Matches, IsOwnMarker, Numeric, TallySound, PingSound, LeasesHeld, RowsSound;
    ClassifyAndLook(s, w, g);
    var s1 := WithVoucher(s, w, g, Listing);
    forall r | r in s.liveRentouts ensures !Matches(s.rentouts[r], s.vouchers[g].number, g) {
      assert !CameFrom(s, r, g);
    }
    ListOn(s, s1, w);
    assert AfterListRentouts(s1, w, None, false) == WithVoucher(s, w, g, Absent);
  }

  lemma PushOn(s: State, t: State, w: string, rid: string)
    requires Leads(s, t) && CanPushRentout(t, w, rid) && Numeric(rid)
    ensures Leads(s, AfterPushRentout(t, w, Accepted, rid))
  {
    hide Leads, AfterPushRentout, CanPushRentout, Numeric;
    LeadsOn(s, t, ByReverse(w, PushRentout(Accepted, rid)));
  }

  lemma SaveReverseOn(s: State, t: State, w: string)
    requires Leads(s, t) && CanReserveNew(t, w)
    ensures Leads(s, AfterSaveReverse(t, w, true))
  {
    hide Leads, AfterSaveReverse, CanReserveNew;
    LeadsOn(s, t, ByReverse(w, SaveReverse(true)));
  }

  lemma ReleaseVoucherOn(s: State, t: State, w: string)
    requires Leads(s, t) && ReverseAt(t, w) && ReverseStageOf(t, w).Left?
    ensures Leads(s, AfterReleaseVoucher(t, w))
  {
    hide Leads, AfterReleaseVoucher;
    LeadsOn(s, t, ByReverse(w, ReleaseVoucher));
  }

  /** Worker `w` has imported voucher `g` as rentout `rid`, saved the mapping and left. */
  function Imported(s: State, w: string, g: string, rid: string): State
    requires g in s.vouchers
  {
    AfterAddRentout(s, rid, RentoutFrom(g, s.vouchers[g])).(
      rows := Upsert(s.rows, ReverseRow(g, rid)),
      locks := s.locks - {VoucherKey(g)},
      workers := s.workers[w := Reverse([], None)])
  }

  lemma AbsentIsImported(s0: State, s: State, w: string, g: string, rid: string)
    requires Leads(s0, WithVoucher(s, w, g, Absent)) && Ready(s, w, g) && rid !in s.liveRentouts && Numeric(rid)
    ensures Leads(s0, Imported(s, w, g, rid))
  {
    hide VoucherKey, Leads, RentoutFrom, IsOwnMarker, Numeric, ReverseRow, Upsert, Imported;
    PushOn(s0, WithVoucher(s, w, g, Absent), w, rid);
    var s1 := AfterAddRentout(WithVoucher(s, w, g, Pushed(rid)), rid, RentoutFrom(g, s.vouchers[g]));
    assert AfterPushRentout(WithVoucher(s, w, g, Absent), w, Accepted, rid) == s1;
    SaveReverseOn(s0, s1, w);
    ReleaseVoucherOn(s0, AfterSaveReverse(s1, w, true), w);
    SavedAndReleased(s, w, g, rid);
  }

  lemma SavedAndReleased(s: State, w: string, g: string, rid: string)
    requires g in s.vouchers && w != ""
    ensures var s1 := AfterAddRentout(WithVoucher(s, w, g, Pushed(rid)), rid, RentoutFrom(g, s.vouchers[g]));
            AfterReleaseVoucher(AfterSaveReverse(s1, w, true), w) == Imported(s, w, g, rid)
  {
    hide VoucherKey, RentoutFrom, ReverseRow, Upsert;
    VoucherKeyIsNotBlank(g);
    var lease := L.Lease(w, s.now + REVERSE_LEASE);
    assert s.locks[VoucherKey(g) := lease] - {VoucherKey(g)} == s.locks - {VoucherKey(g)};
  }

  lemma Import(s: State, w: string, g: string, rid: string)
    requires Sound(s) && Ready(s, w, g) && Unrecorded(s, g) && NoneLive(s, g) && rid !in s.liveRentouts && Numeric(rid)
    ensures Leads(s, Imported(s, w, g, rid))
  {
    hide Sound, Ready, Leads, NoneLive, Unrecorded, Numeric;
    JudgedNew(s, w, g);
    AbsentIsImported(s, s, w, g, rid);
  }
}
