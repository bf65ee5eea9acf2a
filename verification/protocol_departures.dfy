/** Runs in which one hypothesis of the theorems fails, and the theorem with it. */
module ProtocolDepartures {
  import opened Text
  import opened Wrappers
  import opened Markers
  import opened MappingTable
  import opened Protocol
  import opened ProtocolLocks
  import opened ProtocolTally
  import opened ProtocolRentouts
  import opened ProtocolPing
  import opened ProtocolTheorems
  import opened ProtocolRuns
  import L = Locks

  /** One worker has an invoice in hand, with nothing in Tally or the mapping table yet. */
  predicate AtInvoice(s: State, w: string, item: Item, stage: ForwardStage) {
    && ForwardAt(s, w) && ItemOf(s, w) == item && ForwardStageOf(s, w) == stage && item.kind == Invoice && Numeric(item.id)
    && s.workers[w].asked == map[] && s.rows == map[] && s.vouchers == map[] && s.liveVouchers == {}
  }

  lemma FetchAndGuard(s: State, w: string, item: Item)
    requires w != "" && w !in s.workers && item.kind == Invoice && Numeric(item.id)
    requires s.rows == map[] && s.vouchers == map[] && s.liveVouchers == {}
    ensures exists t :: Leads(s, t) && AtInvoice(t, w, item, Guarded) && t == s.(workers := t.workers)
                        && t.workers == s.workers[w := t.workers[w]]
  {
    hide Numeric, RecordKey;
    var fetch, guard := ByForward(w, FetchItems([item])), ByForward(w, Guard("", None, false));
    LeadsHere(s);
    assert [item][1..] == [];
    LeadsOn(s, s, fetch);
    var s1 := Next(s, fetch);
    assert TargetHits(s1.rows, "default", Entity(item.kind), "rentasst", item.id) == {};
    LeadsOn(s, s1, guard);
  }

  predicate Racing(s: State, item: Item, w: string, x: string) {
    && ForwardAt(s, w) && ItemOf(s, w) == item && ForwardStageOf(s, w) == Sending(false, true)
    && AtInvoice(s, x, item, Guarded)
    && s.locks == map[RecordKey(item) := L.Lease(w, s.now + FORWARD_LEASE)]
  }

  /** Two workers pick the same new invoice; one of them has the lock and has asked. */
  lemma TwoWorkersRace(item: Item, w: string, x: string)
    requires item.kind == Invoice && Numeric(item.id) && w != "" && x != "" && w != x
    ensures exists s :: Leads(FRESH_INSTALL, s) && Racing(s, item, w, x)
  {
    hide Numeric, RecordKey, Leads;
    FetchAndGuard(FRESH_INSTALL, x, item);
    var s1 :| Leads(FRESH_INSTALL, s1) && AtInvoice(s1, x, item, Guarded) && s1 == FRESH_INSTALL.(workers := s1.workers)
              && s1.workers == map[x := s1.workers[x]];
    FetchAndGuard(s1, w, item);
    var s2 :| Leads(s1, s2) && AtInvoice(s2, w, item, Guarded) && s2 == s1.(workers := s2.workers)
              && s2.workers == s1.workers[w := s2.workers[w]];
    LeadsTrans(FRESH_INSTALL, s1, s2);
    KeyIsNotBlank(item);
    EnterAndAsk(s2, w, item);
    var s :| Leads(s2, s) && AboutToSend(s2, s, w, item);
    LeadsTrans(FRESH_INSTALL, s2, s);
  }

  lemma RaceAfterLapse(s: State, item: Item, w: string, x: string, g: string, h: string)
    requires Racing(s, item, w, x) && x != "" && w != x && g != h && FreshGuid(s, g) && FreshGuid(s, h)
    ensures exists t :: Leads(AfterWorld(s, Tick(FORWARD_LEASE)), t) && !MarkersUnique(t)
  {
    hide Numeric, RecordKey, Marker, Leads;
    var s0 := s.(now := s.now + FORWARD_LEASE);
    KeyIsNotBlank(item);
    EnterAndAsk(s0, x, item);
    var s1 :| Leads(s0, s1) && AboutToSend(s0, s1, x, item);
    BothSend(s0, s1, item, w, x, g, h);
    assert s0 == AfterWorld(s, Tick(FORWARD_LEASE));
  }

  lemma BothSend(s0: State, s: State, item: Item, w: string, x: string, g: string, h: string)
    requires Leads(s0, s) && w != x && g != h && FreshGuid(s, g) && FreshGuid(s, h)
    requires ForwardAt(s, w) && ItemOf(s, w) == item && ForwardStageOf(s, w) == Sending(false, true)
    requires ForwardAt(s, x) && ItemOf(s, x) == item && ForwardStageOf(s, x) == Sending(false, true)
    ensures exists t :: Leads(s0, t) && !MarkersUnique(t)
  {
    hide Numeric, Marker, Leads;
    SendOn(s0, s, w, Accepted, g, "1");
    var s1 := AfterSend(s, w, Accepted, g, "1");
    SendOn(s0, s1, x, Accepted, h, "2");
    var t := AfterSend(s1, x, Accepted, h, "2");
    MarkerIsRental(item, false);
    assert t.vouchers[g].narration == MarkerOf(item, false) && t.vouchers[h].narration == MarkerOf(item, false);
    assert g in t.liveVouchers && h in t.liveVouchers && !MarkersUnique(t);
  }

  /** A worker that outlives its lease by one remote call is enough for two vouchers
      with one marker: every step but the clock tick is as assumed. */
  lemma LapsedLeaseDuplicates(item: Item, w: string, x: string, g: string, h: string)
    requires item.kind == Invoice && Numeric(item.id) && w != "" && x != "" && w != x
    requires g != "" && h != "" && g != h && !Numeric(g) && !Numeric(h)
    ensures exists s, t :: Reachable(s) && !TickInTime(s, FORWARD_LEASE)
                           && Leads(AfterWorld(s, Tick(FORWARD_LEASE)), t) && !MarkersUnique(t)
  {
    hide Numeric, Leads, MarkersUnique, RecordKey;
    TwoWorkersRace(item, w, x);
    var s :| Leads(FRESH_INSTALL, s) && Racing(s, item, w, x);
    LeadsIsReachable(s);
    RaceAfterLapse(s, item, w, x, g, h);
    LeaseIsDue(s, item, w, x);
  }

  lemma LeaseIsDue(s: State, item: Item, w: string, x: string)
    requires Reachable(s) && Racing(s, item, w, x)
    ensures !TickInTime(s, FORWARD_LEASE)
  {
    hide Reachable, TallySound, RentoutsSound, PingSound, RecordKey, Numeric;
    ReachableIsSound(s);
    assert LeaseHeld(s, w);
  }

  // ---------- a repeated id ----------

  /** The worker is back for its next item, the same one, and no lock is held. */
  predicate Again(s: State, w: string, item: Item) {
    && item.kind == Invoice && w != "" && s.locks == map[] && w in s.workers
    && s.workers[w].Forward? && s.workers[w].fjob == None && s.workers[w].todo != [] && s.workers[w].todo[0] == item
    && TargetHits(s.rows, "default", "invoice", "rentasst", item.id) == {}
  }

  predicate InSend(s: State, t: State, w: string, item: Item) {
    && w in s.workers && s.workers[w].Forward? && s.workers[w].todo != []
    && ForwardAt(t, w) && ItemOf(t, w) == item && ForwardStageOf(t, w) == Sending(false, true)
    && t.locks == map[RecordKey(item) := L.Lease(w, s.now + FORWARD_LEASE)]
    && t.rows == s.rows && t.vouchers == s.vouchers && t.liveVouchers == s.liveVouchers && t.now == s.now
    && t.workers[w].todo == s.workers[w].todo[1..]
    && t.workers[w].asked == s.workers[w].asked[MarkerOf(item, false) := false]
  }

  lemma AgainToSend(s0: State, s: State, w: string, item: Item)
    requires Leads(s0, s) && Again(s, w, item)
    requires MarkerOf(item, false) in s.workers[w].asked || s.liveVouchers == {}
    requires MarkerOf(item, false) in s.workers[w].asked ==> !s.workers[w].asked[MarkerOf(item, false)]
    ensures exists t :: Leads(s0, t) && InSend(s, t, w, item)
  {
    hide Leads, RecordKey, Marker, TargetHits;
    KeyIsNotBlank(item);
    GuardOn(s0, s, w, "", None, false);
    var s1 := AfterGuard(s, w, "", None, false);
    EnterAndAsk(s1, w, item);
    var t :| Leads(s1, t) && AboutToSend(s1, t, w, item);
    LeadsTrans(s0, s1, t);
    assert InSend(s, t, w, item);
  }

  /** From the import to the worker's next item. */
  lemma SendToAgain(s0: State, s: State, w: string, item: Item, g: string, hash: string)
    requires Leads(s0, s) && ForwardAt(s, w) && ItemOf(s, w) == item && ForwardStageOf(s, w) == Sending(false, true) && FreshGuid(s, g)
    requires s.locks == map[RecordKey(item) := L.Lease(w, s.now + FORWARD_LEASE)] && w != "" && s.rows == map[]
    requires item.kind == Invoice && s.workers[w].todo == [item]
    ensures exists t :: Leads(s0, t) && Again(t, w, item) && t.workers[w].asked == s.workers[w].asked
                        && t.vouchers == s.vouchers[g := Sent(s, w, "1")]
                        && t.liveVouchers == s.liveVouchers + {g}
  {
    hide Leads, RecordKey, Marker, Numeric, ForwardKey;
    KeyIsNotBlank(item);
    SendOn(s0, s, w, Accepted, g, "1");
    var s1 := AfterSend(s, w, Accepted, g, "1");
    SaveOn(s0, s1, w, hash);
    var s2 := AfterSaveForward(s1, w, true, hash);
    ReleaseOn(s0, s2, w);
    var t := AfterReleaseRecord(s2, w);
    assert t.locks == map[];
  }

  /** A fetch that repeats an id is enough too: the second copy, its payload changed, is
      answered "absent" by the client's own cache, and is created again. */
  lemma RepeatedIdDuplicates(item: Item, w: string, g: string, h: string, hash: string)
    requires item.kind == Invoice && w != "" && g != "" && h != "" && g != h && !Numeric(g) && !Numeric(h)
    ensures CanFetchForward(FRESH_INSTALL, w, [item, item])
    ensures exists t :: Leads(AfterFetchForward(FRESH_INSTALL, w, [item, item]), t) && !MarkersUnique(t)
  {
    hide Leads, RecordKey, Marker, Numeric, MarkersUnique;
    var s0 := AfterFetchForward(FRESH_INSTALL, w, [item, item]);
    LeadsHere(s0);
    AgainToSend(s0, s0, w, item);
    var s1 :| Leads(s0, s1) && InSend(s0, s1, w, item);
    SendToAgain(s0, s1, w, item, g, hash);
    var s2 :| Leads(s0, s2) && Again(s2, w, item) && s2.workers[w].asked == s1.workers[w].asked
              && s2.vouchers == s1.vouchers[g := Sent(s1, w, "1")]
              && s2.liveVouchers == s1.liveVouchers + {g};
    SecondCopy(s0, s2, w, item, g, h);
  }

  lemma SecondCopy(s0: State, s: State, w: string, item: Item, g: string, h: string)
    requires Leads(s0, s) && Again(s, w, item) && FreshGuid(s, h) && g != h
    requires MarkerOf(item, false) in s.workers[w].asked && !s.workers[w].asked[MarkerOf(item, false)]
    requires g in s.vouchers && g in s.liveVouchers && s.vouchers[g].narration == MarkerOf(item, false)
    ensures exists t :: Leads(s0, t) && !MarkersUnique(t)
  {
    hide Leads, RecordKey, Marker, Numeric;
    AgainToSend(s0, s, w, item);
    var s1 :| Leads(s0, s1) && InSend(s, s1, w, item);
    SendOn(s0, s1, w, Accepted, h, "2");
    var t := AfterSend(s1, w, Accepted, h, "2");
    MarkerIsRental(item, false);
    assert t.vouchers[g].narration == MarkerOf(item, false) && t.vouchers[h].narration == MarkerOf(item, false);
    assert g in t.liveVouchers && h in t.liveVouchers && !MarkersUnique(t);
  }

  // ---------- a failed cloud list ----------

  predicate LostMapping(s: State, g: string, rid: string) {
    && Importable(s, g) && g in s.liveVouchers && s.rows == map[] && s.workers == map[]
    && !L.Held(s.locks, VoucherKey(g), s.now) && CameFrom(s, rid, g) && s.rentouts.Keys == {rid}
  }

  /** A fresh installation and one voucher. */
  lemma OneVoucher(g: string, v: Voucher)
    requires NativeVoucher(FRESH_INSTALL, g, v) && v.pushed == None
    ensures var s := AfterAddVoucher(FRESH_INSTALL, g, v); Leads(FRESH_INSTALL, s) && Sound(s) && Importable(s, g)
  {
    hide Leads, Sound, RentoutFrom, Matches, IsOwnMarker, NumberIsApart, Strip, Numeric;
    NativeNarrationIsNotOwn(v.narration);
    LeadsHere(FRESH_INSTALL);
    LeadsOn(FRESH_INSTALL, FRESH_INSTALL, ByWorld(AddVoucher(g, v)));
    var s := AfterAddVoucher(FRESH_INSTALL, g, v);
    LeadsIsReachable(s);
    ReachableIsSound(s);
  }

  /** A crash before the save leaves a rentout without a mapping. */
  lemma MappingLost(g: string, v: Voucher, w: string, rid: string)
    requires NativeVoucher(FRESH_INSTALL, g, v) && v.pushed == None && w != "" && Numeric(rid)
    ensures exists s :: Leads(FRESH_INSTALL, s) && LostMapping(s, g, rid)
  {
    hide VoucherKey, Leads, Sound, RentoutFrom, Matches, IsOwnMarker, Numeric, NativeVoucher, Strip;
    OneVoucher(g, v);
    PostedOrigin(g, v);
    var s0 := AfterAddVoucher(FRESH_INSTALL, g, v);
    JudgedNew(s0, w, g);
    var s1 := WithVoucher(s0, w, g, Absent);
    PushOn(s0, s1, w, rid);
    var s2 := AfterPushRentout(s1, w, Accepted, rid);
    LeadsTrans(FRESH_INSTALL, s0, s2);
    LeadsOn(FRESH_INSTALL, s2, ByWorld(Crash(w)));
    var s3 := AfterWorld(s2, Crash(w));
    LeadsOn(FRESH_INSTALL, s3, ByWorld(Tick(REVERSE_LEASE)));
    assert LostMapping(AfterWorld(s3, Tick(REVERSE_LEASE)), g, rid);
  }

  /** The next cycle, its cloud list failing, imports the voucher a second time: every
      step but that one reply is as assumed. */
  lemma FailedListDuplicates(g: string, v: Voucher, w: string, x: string, rid: string, q: string)
    requires NativeVoucher(FRESH_INSTALL, g, v) && v.pushed == None && w != "" && x != "" && Numeric(rid) && Numeric(q) && rid != q
    ensures exists s, t :: Reachable(s) && CanListRentouts(s, x, None, None)
                           && Leads(AfterListRentouts(s, x, None, false), t) && !RentoutsUnique(t)
  {
    hide VoucherKey, Leads, Sound, RentoutFrom, Matches, IsOwnMarker, Numeric, NativeVoucher, RentoutsUnique, Strip;
    MappingLost(g, v, w, rid);
    var s0 :| Leads(FRESH_INSTALL, s0) && LostMapping(s0, g, rid);
    LeadsIsReachable(s0);
    ReachableIsSound(s0);
    ClassifyAndLook(s0, x, g);
    var s1 := WithVoucher(s0, x, g, Listing);
    LeadsTrans(FRESH_INSTALL, s0, s1);
    LeadsIsReachable(s1);
    SecondImport(s1, x, g, rid, q);
  }

  lemma SecondImport(s: State, x: string, g: string, rid: string, q: string)
    requires Reachable(s) && ReverseAt(s, x) && GuidOf(s, x) == g && ReverseStageOf(s, x) == Listing
    requires CameFrom(s, rid, g) && s.rentouts.Keys == {rid} && Numeric(q) && q != rid
    ensures exists t :: Leads(AfterListRentouts(s, x, None, false), t) && !RentoutsUnique(t)
  {
    hide Leads, RentoutFrom, Numeric, Reachable, TallySound, RowsSound, RecordsCurrent, NumbersApart, PingSound, LeasesHeld;
    ReachableIsSound(s);
    var s1 := AfterListRentouts(s, x, None, false);
    LeadsHere(s1);
    PushOn(s1, s1, x, q);
    PushKeepsRentoutsIff(s1, x, Accepted, q);
    assert CameFrom(s1, rid, g);
  }
}
