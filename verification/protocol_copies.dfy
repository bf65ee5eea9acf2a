/** Runs in which records travel back and forth after all: a reused order number, the
    guard's own oracle, a stale mapping, and the fallback marker. */
module ProtocolCopies {
  import opened Text
  import opened Wrappers
  import opened Markers
  import opened MappingTable
  import opened Protocol
  import opened ProtocolLocks
  import opened ProtocolTally
  import opened ProtocolRentouts
  import opened ProtocolPing
  import opened ProtocolTheorems
  import opened ProtocolRuns
  import opened ProtocolDepartures
  import L = Locks

  /** Worker `w` has imported `g`, the one voucher there is, as order `rid`. */
  function OneLife(g: string, v: Voucher, w: string, rid: string): State {
    State(0, map[], map[("rental_order", g) := ReverseRow(g, rid)], map[g := v], {g}, map[rid := RentoutFrom(g, v)], {rid},
          map[w := Reverse([], None)])
  }

  lemma FirstLife(g: string, v: Voucher, w: string, rid: string)
    requires NativeVoucher(FRESH_INSTALL, g, v) && v.pushed == None && w != "" && Numeric(rid)
    ensures Leads(FRESH_INSTALL, OneLife(g, v, w, rid)) && Sound(OneLife(g, v, w, rid))
  {
    hide VoucherKey, Leads, Sound, RentoutFrom, IsOwnMarker, Numeric, NativeVoucher;
    OneVoucher(g, v);
    var s := AfterAddVoucher(FRESH_INSTALL, g, v);
    NativeGuid(g, v);
    Import(s, w, g, rid);
    assert Imported(s, w, g, rid) == OneLife(g, v, w, rid);
    LeadsTrans(FRESH_INSTALL, s, OneLife(g, v, w, rid));
    LeadsIsReachable(OneLife(g, v, w, rid));
    ReachableIsSound(OneLife(g, v, w, rid));
  }

  lemma NativeGuid(g: string, v: Voucher)
    requires NativeVoucher(FRESH_INSTALL, g, v)
    ensures g != "" && !Numeric(g) && !IsOwnMarker(v.narration) && !("RENTAL-" <= v.narration)
  {
    hide NumberIsApart, Numeric, IsOwnMarker, Strip;
    NativeNarrationIsNotOwn(v.narration);
  }

  /** The mapping of an imported order names its voucher. */
  lemma RowNamesVoucher(g: string, rid: string)
    requires g != ""
    ensures FromTally(Some(ReverseRow(g, rid))) && SourceName(ReverseRow(g, rid)) == g
    ensures RowKey(ReverseRow(g, rid)) == ("rental_order", g) && ReverseRow(g, rid).version == 1
    ensures TargetHit(ReverseRow(g, rid), "default", Entity(Order), "rentasst", rid)
  {
  }

  /** A worker that has just fetched order `rid`. */
  lemma FetchOrder(s: State, y: string, rid: string)
    requires y != "" && y !in s.workers && rid in s.liveRentouts && Numeric(rid)
    ensures Leads(s, AfterFetchForward(s, y, [Item(Order, rid)]))
  {
    hide Leads, Numeric;
    LeadsHere(s);
    LeadsOn(s, s, ByForward(y, FetchItems([Item(Order, rid)])));
  }

  /** Past the guard, on the mapping to `g`. */
  lemma DropsMapping(s: State, y: string, rid: string, g: string)
    requires y in s.workers && s.workers[y] == Forward([Item(Order, rid)], s.rentouts, map[], None)
    requires rid in s.rentouts && g != "" && ("rental_order", g) in s.rows && s.rows[("rental_order", g)] == ReverseRow(g, rid)
    requires forall k :: k in s.rows ==> s.rows[k].version == 1
    ensures var mapped := Some(ReverseRow(g, rid));
            && CanGuard(s, y, s.rentouts[rid].notes, mapped)
            && AfterGuard(s, y, s.rentouts[rid].notes, mapped, false) ==
                 s.(workers := s.workers[y := Forward([], s.rentouts, map[], Some(ForwardJob(Item(Order, rid), Some(g), Guarded, 0)))],
                    rows := Deleted(s.rows, "rental_order", g))
  {
    RowNamesVoucher(g, rid);
    hide ReverseRow, TargetHit, Deleted, SourceName;
    assert ("rental_order", g) in TargetHits(s.rows, "default", Entity(Order), "rentasst", rid);
    assert [Item(Order, rid)][1..] == [];
  }

  // ---------- a reused number ----------

  /** Order number `rid` has had two lives: the first from voucher `g`, which is gone. */
  function TwoLives(g: string, v: Voucher, h: string, u: Voucher, w: string, x: string, rid: string): State {
    State(0, map[], map[("rental_order", g) := ReverseRow(g, rid), ("rental_order", h) := ReverseRow(h, rid)],
          map[g := v, h := u], {h}, map[rid := RentoutFrom(h, u)], {rid}, map[w := Reverse([], None), x := Reverse([], None)])
  }

  lemma SecondLife(g: string, v: Voucher, h: string, u: Voucher, w: string, x: string, rid: string)
    requires NativeVoucher(FRESH_INSTALL, g, v) && v.pushed == None && u.pushed == None && g != h
    requires NativeVoucher(AfterAddVoucher(FRESH_INSTALL, g, v), h, u)
    requires w != "" && x != "" && w != x && Numeric(rid)
    ensures Leads(FRESH_INSTALL, TwoLives(g, v, h, u, w, x, rid))
  {
    hide VoucherKey, Leads, Sound, RentoutFrom, IsOwnMarker, Numeric, ReverseRow, Strip;
    FirstLife(g, v, w, rid);
    var s := OneLife(g, v, w, rid);
    LeadsOn(FRESH_INSTALL, s, ByWorld(DeleteRentout(rid)));
    var s1 := AfterWorld(s, DeleteRentout(rid));
    ApartAfterDeletion(g, v, h, u, s1);
    LeadsOn(FRESH_INSTALL, s1, ByWorld(AddVoucher(h, u)));
    var s2 := AfterAddVoucher(s1, h, u);
    LeadsIsReachable(s2);
    ReachableIsSound(s2);
    NativeNarrationIsNotOwn(u.narration);
    Import(s2, x, h, rid);
    var s3 := Imported(s2, x, h, rid);
    LeadsTrans(FRESH_INSTALL, s2, s3);
    LeadsOn(FRESH_INSTALL, s3, ByWorld(DeleteVoucher(g)));
    RowNamesVoucher(h, rid);
    assert AfterWorld(s3, DeleteVoucher(g)) == TwoLives(g, v, h, u, w, x, rid);
  }

  lemma ApartAfterDeletion(g: string, v: Voucher, h: string, u: Voucher, s: State)
    requires NativeVoucher(AfterAddVoucher(FRESH_INSTALL, g, v), h, u)
    requires s.vouchers == map[g := v] && s.liveRentouts == {}
    ensures NativeVoucher(s, h, u)
  {
    hide Matches, RentoutFrom, IsOwnMarker, Strip, Numeric;
  }

  /** With every step as assumed, the guard lets the order of the second life through on
      the mapping of the first, and a copy of a living voucher lands in Tally. */
  lemma ReusedNumberCopies(g: string, v: Voucher, h: string, u: Voucher, k: string, w: string, x: string, y: string, rid: string)
    requires NativeVoucher(FRESH_INSTALL, g, v) && v.pushed == None && u.pushed == None && g != h
    requires NativeVoucher(AfterAddVoucher(FRESH_INSTALL, g, v), h, u)
    requires w != "" && x != "" && y != "" && w != x && w != y && x != y && Numeric(rid)
    requires k != "" && !Numeric(k) && k != g && k != h
    ensures exists t :: Reachable(t) && h in t.liveVouchers && k in t.liveVouchers && k in t.vouchers
                        && t.vouchers[k].pushed == Some(Push(Item(Order, rid), Some(h), Some(g)))
  {
    hide Leads, Numeric, RecordKey, Marker, RentoutFrom, ReverseRow, NumberIsApart, Reachable, Strip;
    SecondLife(g, v, h, u, w, x, rid);
    var s := TwoLives(g, v, h, u, w, x, rid);
    FetchOrder(s, y, rid);
    var s1, mapped := AfterFetchForward(s, y, [Item(Order, rid)]), Some(ReverseRow(g, rid));
    RowNamesVoucher(g, rid);
    RowNamesVoucher(h, rid);
    DropsMapping(s1, y, rid, g);
    GuardOn(s, s1, y, s1.rentouts[rid].notes, mapped, false);
    var s2 := AfterGuard(s1, y, s1.rentouts[rid].notes, mapped, false);
    KeyIsNotBlank(Item(Order, rid));
    MarkerIsRental(Item(Order, rid), false);
    PostedOrigin(h, u);
    GuardedIsDelivered(s2, y, k, "1");
    var t :| Leads(s2, t) && Delivered(s2, t, y, k);
    LeadsTrans(s, s2, t);
    LeadsTrans(FRESH_INSTALL, s, t);
    LeadsIsReachable(t);
  }

  // ---------- the guard's own oracle ----------

  /** With check_exists itself as the guard's oracle, and every other step as assumed, an
      imported order is pushed back while its voucher lives. */
  lemma OwnOracleCopies(g: string, v: Voucher, k: string, w: string, y: string, rid: string)
    requires NativeVoucher(FRESH_INSTALL, g, v) && v.pushed == None && !SameText(v.narration, g)
    requires w != "" && y != "" && w != y && Numeric(rid) && k != "" && !Numeric(k) && k != g
    ensures exists s, notes, mapped, t :: Reachable(s) && CanGuard(s, y, notes, mapped) && mapped.Some?
              && !GuardTruthful(s, mapped, NarrationInTally(s, SourceName(mapped.value)))
              && Leads(AfterGuard(s, y, notes, mapped, NarrationInTally(s, SourceName(mapped.value))), t)
              && g in t.liveVouchers && k in t.liveVouchers && k in t.vouchers
              && t.vouchers[k].pushed == Some(Push(Item(Order, rid), Some(g), Some(g)))
  {
    hide Leads, Numeric, RecordKey, Marker, RentoutFrom, ReverseRow, NativeVoucher, Reachable, Sound, SameText, CanGuard;
    FirstLife(g, v, w, rid);
    NativeGuid(g, v);
    var s0 := OneLife(g, v, w, rid);
    FetchOrder(s0, y, rid);
    var s, mapped := AfterFetchForward(s0, y, [Item(Order, rid)]), Some(ReverseRow(g, rid));
    LeadsTrans(FRESH_INSTALL, s0, s);
    LeadsIsReachable(s);
    RowNamesVoucher(g, rid);
    DropsMapping(s, y, rid, g);
    assert !NarrationInTally(s, g);
    var s1 := AfterGuard(s, y, s.rentouts[rid].notes, mapped, false);
    KeyIsNotBlank(Item(Order, rid));
    MarkerIsRental(Item(Order, rid), false);
    PostedOrigin(g, v);
    GuardedIsDelivered(s1, y, k, "1");
    var t :| Leads(s1, t) && Delivered(s1, t, y, k);
  }

  // ---------- a stale mapping ----------

  lemma DropAndJudge(s0: State, s: State, x: string, g: string, rid: string)
    requires Leads(s0, WithVoucher(s, x, g, Mapped(rid))) && g in s.vouchers && rid !in s.liveRentouts
    ensures Leads(s0, WithVoucher(s.(rows := Deleted(s.rows, "rental_order", g)), x, g, Absent))
  {
    hide Leads, VoucherKey, Deleted;
    AskRentAsstOn(s0, WithVoucher(s, x, g, Mapped(rid)), x);
    assert AfterAskRentAsst(WithVoucher(s, x, g, Mapped(rid)), x, false)
           == WithVoucher(s.(rows := Deleted(s.rows, "rental_order", g)), x, g, Absent);
  }

  /** Order `rid` was deleted, and worker `x` has imported its voucher again as `q`. */
  function Again(g: string, v: Voucher, w: string, x: string, rid: string, q: string): State {
    State(0, map[], map[("rental_order", g) := ReverseRow(g, q)], map[g := v], {g},
          map[rid := RentoutFrom(g, v), q := RentoutFrom(g, v)], {q}, map[w := Reverse([], None), x := Reverse([], None)])
  }

  lemma ImportedAgain(g: string, v: Voucher, w: string, x: string, rid: string, q: string)
    requires NativeVoucher(FRESH_INSTALL, g, v) && v.pushed == None
    requires w != "" && x != "" && w != x && Numeric(rid) && Numeric(q) && rid != q
    ensures Leads(FRESH_INSTALL, Again(g, v, w, x, rid, q))
  {
    hide VoucherKey, Leads, Sound, RentoutFrom, IsOwnMarker, Numeric, ReverseRow, NativeVoucher, Best;
    FirstLife(g, v, w, rid);
    NativeGuid(g, v);
    var s0 := OneLife(g, v, w, rid);
    LeadsOn(FRESH_INSTALL, s0, ByWorld(DeleteRentout(rid)));
    var s := AfterWorld(s0, DeleteRentout(rid));
    FetchAndTake(s, x, g);
    LeadsTrans(FRESH_INSTALL, s, WithVoucher(s, x, g, Entered));
    ClassifiedAs(FRESH_INSTALL, s, x, g, rid);
    DropAndJudge(FRESH_INSTALL, s, x, g, rid);
    var s1 := s.(rows := Deleted(s.rows, "rental_order", g));
    OnlyRowDeleted(g, rid);
    AbsentIsImported(FRESH_INSTALL, s1, x, g, q);
    RowNamesVoucher(g, q);
    assert Imported(s1, x, g, q) == Again(g, v, w, x, rid, q);
  }

  lemma OnlyRowDeleted(g: string, rid: string)
    requires g != ""
    ensures Deleted(map[("rental_order", g) := ReverseRow(g, rid)], "rental_order", g) == map[]
  {
  }

  lemma ClassifiedAs(s0: State, s: State, x: string, g: string, rid: string)
    requires Leads(s0, WithVoucher(s, x, g, Entered)) && Importable(s, g) && g != "" && Numeric(rid)
    requires s.rows == map[("rental_order", g) := ReverseRow(g, rid)]
    ensures Leads(s0, WithVoucher(s, x, g, Mapped(rid)))
  {
    hide Leads, VoucherKey, ParseMarker;
    var s1 := WithVoucher(s, x, g, Entered);
    assert SourceHits(s1.rows, "default", "rental_order", g) == {("rental_order", g)};
    ClassifyOn(s0, s1, x, Some(ReverseRow(g, rid)));
    assert AfterClassify(s1, x, Some(ReverseRow(g, rid)), false) == WithVoucher(s, x, g, Mapped(rid));
  }

  /** A worker whose store still holds the mapping of the first import finds its order
      gone, drops the mapping of the second, and imports the voucher a third time: every
      step but that one lookup is as assumed, and the clock does not move. */
  lemma StaleMappingDuplicates(g: string, v: Voucher, w: string, x: string, y: string, rid: string, q: string, p: string)
    requires NativeVoucher(FRESH_INSTALL, g, v) && v.pushed == None && w != "" && x != "" && y != "" && w != x && w != y && x != y
    requires Numeric(rid) && Numeric(q) && Numeric(p) && rid != q && p != q
    ensures exists s, mapped, t :: Reachable(s) && CanClassify(s, y, mapped) && !CurrentLookup(s, y, mapped)
              && Leads(AfterClassify(s, y, mapped, false), t) && !RentoutsUnique(t)
  {
    hide VoucherKey, Leads, RentoutFrom, IsOwnMarker, NativeVoucher, Reachable, RentoutsUnique, CanClassify, CurrentLookup;
    ImportedAgain(g, v, w, x, rid, q);
    NativeGuid(g, v);
    var s0 := Again(g, v, w, x, rid, q);
    FetchAndTake(s0, y, g);
    var s := WithVoucher(s0, y, g, Entered);
    LeadsTrans(FRESH_INSTALL, s0, s);
    LeadsIsReachable(s);
    StaleAnswer(s0, y, g, rid, q);
    PostedOrigin(g, v);
    ThirdImport(s0, y, g, rid, q, p);
  }

  lemma StaleAnswer(s: State, y: string, g: string, rid: string, q: string)
    requires Importable(s, g) && g != "" && rid != q && Numeric(rid)
    requires s.rows == map[("rental_order", g) := ReverseRow(g, q)]
    ensures var s1, mapped := WithVoucher(s, y, g, Entered), Some(ReverseRow(g, rid));
            CanClassify(s1, y, mapped) && !CurrentLookup(s1, y, mapped)
            && AfterClassify(s1, y, mapped, false) == WithVoucher(s, y, g, Mapped(rid))
  {
    hide VoucherKey, ParseMarker;
  }

  lemma ThirdImport(s: State, y: string, g: string, rid: string, q: string, p: string)
    requires g in s.vouchers && CameFrom(s, q, g) && rid !in s.liveRentouts && p !in s.liveRentouts && Numeric(p)
    ensures exists t :: Leads(WithVoucher(s, y, g, Mapped(rid)), t) && !RentoutsUnique(t)
  {
    hide VoucherKey, Leads, RentoutFrom, Deleted, Numeric;
    var s1 := WithVoucher(s, y, g, Mapped(rid));
    LeadsHere(s1);
    DropAndJudge(s1, s, y, g, rid);
    var s2 := WithVoucher(s.(rows := Deleted(s.rows, "rental_order", g)), y, g, Absent);
    PushOn(s1, s2, y, p);
    PostedOrigin(g, s.vouchers[g]);
    var t := AfterPushRentout(s2, y, Accepted, p);
    assert t.rentouts[p].origin == t.rentouts[q].origin && p in t.liveRentouts && q in t.liveRentouts;
    assert !RentoutsUnique(t);
  }

  // ---------- the fallback marker ----------

  /** One order in RentAsst, entered there. */
  predicate Ordered(s: State, r: string) {
    && s.locks == map[] && TargetHits(s.rows, "default", "rental_order", "rentasst", r) == {}
    && r in s.liveRentouts && r in s.rentouts && s.rentouts.Keys == {r} && Numeric(r)
    && s.rentouts[r].origin == None && !(IMPORTED <= s.rentouts[r].notes)
  }

  function InHand(s: State, y: string, r: string): State {
    s.(workers := s.workers[y := Forward([], s.rentouts, map[], Some(ForwardJob(Item(Order, r), None, Guarded, 0)))])
  }

  lemma FetchesOrder(s: State, y: string, r: string)
    requires Ordered(s, r) && y != "" && y !in s.workers
    ensures Leads(s, InHand(s, y, r))
  {
    hide Leads, Numeric, IMPORTED;
    FetchOrder(s, y, r);
    var s1 := AfterFetchForward(s, y, [Item(Order, r)]);
    assert TargetHits(s1.rows, "default", Entity(Order), "rentasst", r) == {};
    GuardOn(s, s1, y, s.rentouts[r].notes, None, false);
    assert [Item(Order, r)][1..] == [];
    assert AfterGuard(s1, y, s.rentouts[r].notes, None, false) == InHand(s, y, r);
  }

  /** Tally holds one voucher of order `r`, under the plain marker; nothing else is known. */
  predicate Plain(s: State, r: string, a: string, y: string) {
    && Ordered(s, r) && s.rows == map[] && s.vouchers.Keys == {a} && s.liveVouchers == {a} && y !in s.workers
    && s.vouchers[a].narration == MarkerOf(Item(Order, r), false) && s.vouchers[a].pushed == Some(Push(Item(Order, r), None, None))
  }

  /** The reply to the first import is lost, so no mapping is saved. */
  lemma PlainSent(s: State, r: string, a: string, w: string, y: string)
    requires Ordered(s, r) && s.rows == map[] && s.vouchers == map[] && s.liveVouchers == {} && FreshGuid(s, a)
    requires w != "" && s.workers == map[] && y != w
    ensures exists t :: Leads(s, t) && Plain(t, r, a, y) && t.rentouts == s.rentouts && t.liveRentouts == s.liveRentouts && t.workers.Keys == {w}
  {
    hide Leads, Numeric, RecordKey, Marker, IMPORTED;
    FetchesOrder(s, w, r);
    var s1 := InHand(s, w, r);
    KeyIsNotBlank(Item(Order, r));
    EnterAndAsk(s1, w, Item(Order, r));
    var s2 :| Leads(s1, s2) && AboutToSend(s1, s2, w, Item(Order, r));
    LeadsTrans(s, s1, s2);
    SendOn(s, s2, w, Dropped(true), a, "1");
    var s3 := AfterSend(s2, w, Dropped(true), a, "1");
    ReleaseOn(s, s3, w);
    var t := AfterReleaseRecord(s3, w);
    assert t.locks == map[];
    assert Plain(t, r, a, y);
  }

  /** Worker `y` found the plain voucher, and has just been told it cannot be altered. */
  lemma FallsBack(s: State, r: string, a: string, b: string, y: string)
    requires Plain(s, r, a, y) && y != "" && b !in s.vouchers
    ensures exists t :: Leads(s, t) && Retrying(s, t, r, y)
  {
    hide Leads, Numeric, RecordKey, Marker, IMPORTED;
    var item := Item(Order, r);
    FetchesOrder(s, y, r);
    var s1 := InHand(s, y, r);
    KeyIsNotBlank(item);
    TakeOn(s, s1, y);
    var s2 := AfterTakeRecord(s1, y);
    EnterOn(s, s2, y);
    var s3 := MoveForward(s2, y, Asking(false));
    AskOn(s, s3, y, true, false);
    var s4 := AfterAskTally(s3, y, true, false);
    SendOn(s, s4, y, Rejected(Fallback), b, "");
    assert Retrying(s, AfterSend(s4, y, Rejected(Fallback), b, ""), r, y);
  }

  predicate Retrying(s: State, t: State, r: string, y: string) {
    && t == s.(workers := t.workers, locks := t.locks) && t.locks == map[RecordKey(Item(Order, r)) := L.Lease(y, s.now + FORWARD_LEASE)]
    && t.workers.Keys == s.workers.Keys + {y}
    && t.workers[y] == Forward([], s.rentouts, map[], Some(ForwardJob(Item(Order, r), None, Asking(true), s.now + FORWARD_LEASE)))
  }

  /** Tally holds two vouchers of order `r`. */
  predicate Doubled(s: State, r: string, a: string, b: string) {
    && a != b && s.liveVouchers == {a, b} && a in s.vouchers && b in s.vouchers
    && s.vouchers[a].pushed == Some(Push(Item(Order, r), None, None)) && s.vouchers[b].pushed == Some(Push(Item(Order, r), None, None))
    && s.vouchers[a].narration == Marker(Order, r, false) && s.vouchers[b].narration == Marker(Order, r, true)
  }

  lemma FallbackSent(s: State, t: State, r: string, a: string, b: string, number: string, y: string)
    requires Plain(s, r, a, y) && Retrying(s, t, r, y) && Leads(s, t) && b != a && FreshGuid(s, b)
    requires NumberIsApart(t, b, Voucher(number, Marker(Order, r, true), Some(Push(Item(Order, r), None, None))))
    ensures exists u :: Leads(s, u) && Doubled(u, r, a, b) && u.rows == s.rows && u.rentouts == s.rentouts
                        && u.liveRentouts == s.liveRentouts && u.locks == t.locks && u.now == t.now && u.workers.Keys == t.workers.Keys
  {
    hide Leads, Numeric, RecordKey, IMPORTED, NumberIsApart;
    MarkersDiffer(r);
    hide Marker;
    AskOn(s, t, y, false, false);
    var t1 := AfterAskTally(t, y, false, false);
    ApartElsewhere(t, t1, b, number, r);
    SendOn(s, t1, y, Accepted, b, number);
    assert Doubled(AfterSend(t1, y, Accepted, b, number), r, a, b);
  }

  lemma MarkersDiffer(r: string)
    ensures Marker(Order, r, false) != Marker(Order, r, true)
  {
  }

  lemma ApartElsewhere(t: State, t1: State, b: string, number: string, r: string)
    requires t1 == t.(workers := t1.workers)
    requires NumberIsApart(t, b, Voucher(number, Marker(Order, r, true), Some(Push(Item(Order, r), None, None))))
    ensures NumberIsApart(t1, b, Voucher(number, Marker(Order, r, true), Some(Push(Item(Order, r), None, None))))
  {
    hide Matches, RentoutFrom, IsOwnMarker, Strip, Marker;
  }

  lemma FallbackIsApart(t: State, r: string, a: string, b: string, number: string)
    requires Numeric(r) && t.vouchers.Keys == {a} && t.vouchers[a].narration == MarkerOf(Item(Order, r), false)
    requires t.liveRentouts == {r} && r in t.rentouts
    requires Strip(number) != "" && !("RENTAL-" <= Strip(number)) && !Matches(t.rentouts[r], number, b)
    ensures NumberIsApart(t, b, Voucher(number, Marker(Order, r, true), Some(Push(Item(Order, r), None, None))))
  {
    hide Matches, RentoutFrom, IsOwnMarker, Strip, Numeric, Marker;
    SentNarrationIsOwn(Item(Order, r), false);
  }

  /** The second voucher is imported like one a user entered. */
  lemma FallbackImported(s: State, z: string, r: string, a: string, b: string, q: string)
    requires Reachable(s) && Doubled(s, r, a, b) && s.rows == map[] && s.rentouts.Keys == {r} && s.rentouts[r].origin == None
    requires s.liveRentouts == {r} && z != "" && z !in s.workers && Numeric(q) && q != r && Numeric(r)
    requires !L.Held(s.locks, VoucherKey(b), s.now)
    ensures var t := Imported(s, z, b, q); Leads(s, t) && CameFrom(t, q, b) && Doubled(t, r, a, b) && r in t.liveRentouts
  {
    hide Leads, Sound, Numeric, VoucherKey, RentoutFrom, IsOwnMarker, Marker, Reachable;
    ReachableIsSound(s);
    SentNarrationIsOwn(Item(Order, r), true);
    PostedOrigin(b, s.vouchers[b]);
    Import(s, z, b, q);
  }

  lemma RecordLockIsNotVouchers(s: State, t: State, r: string, y: string, b: string)
    requires Retrying(s, t, r, y)
    ensures !L.Held(t.locks, VoucherKey(b), t.now)
  {
    hide RecordKey, VoucherKey;
    DirectionsDiffer(Item(Order, r), b);
  }

  /** The plain voucher sent, and the worker that found it told to fall back. */
  lemma ComesToRetry(r: string, order: Rentout, a: string, b: string, w: string, y: string)
    requires Numeric(r) && order.origin == None && !(IMPORTED <= order.notes)
    requires a != "" && !Numeric(a) && a != b && w != "" && y != "" && w != y
    ensures exists s, t :: Leads(FRESH_INSTALL, s) && Leads(s, t) && Plain(s, r, a, y) && Retrying(s, t, r, y)
                           && s.rentouts == map[r := order] && s.liveRentouts == {r} && s.workers.Keys == {w}
  {
    hide Leads, Numeric, IMPORTED, Plain, Retrying;
    LeadsHere(FRESH_INSTALL);
    LeadsOn(FRESH_INSTALL, FRESH_INSTALL, ByWorld(AddRentout(r, order)));
    var s0 := AfterAddRentout(FRESH_INSTALL, r, order);
    PlainSent(s0, r, a, w, y);
    var s :| Leads(s0, s) && Plain(s, r, a, y) && s.rentouts == s0.rentouts && s.liveRentouts == s0.liveRentouts
             && s.workers.Keys == {w};
    LeadsTrans(FRESH_INSTALL, s0, s);
    OnlyPlain(s, r, a, b, y);
    FallsBack(s, r, a, b, y);
    var t :| Leads(s, t) && Retrying(s, t, r, y);
  }

  lemma OnlyPlain(s: State, r: string, a: string, b: string, y: string)
    requires Plain(s, r, a, y) && a != b
    ensures b !in s.vouchers
  {
  }

  /** With every step as assumed, an order whose first import went unconfirmed and could
      not be altered later ends with two vouchers, and the second comes back to RentAsst
      as a new order. */
  lemma FallbackDoubles(r: string, order: Rentout, a: string, b: string, number: string, w: string, y: string, z: string, q: string)
    requires Numeric(r) && order.origin == None && !(IMPORTED <= order.notes)
    requires a != b && a != "" && b != "" && !Numeric(a) && !Numeric(b)
    requires Strip(number) != "" && !("RENTAL-" <= Strip(number)) && !Matches(order, number, b)
    requires w != "" && y != "" && z != "" && w != y && w != z && y != z && Numeric(q) && q != r
    ensures exists t :: Reachable(t) && Doubled(t, r, a, b) && r in t.liveRentouts && CameFrom(t, q, b)
  {
    hide Leads, Numeric, IMPORTED, RecordKey, VoucherKey, Matches, Marker, NumberIsApart, Imported, Reachable, Strip, CameFrom;
    ComesToRetry(r, order, a, b, w, y);
    var s1, s2 :| Leads(FRESH_INSTALL, s1) && Leads(s1, s2) && Plain(s1, r, a, y) && Retrying(s1, s2, r, y)
                  && s1.rentouts == map[r := order] && s1.liveRentouts == {r} && s1.workers.Keys == {w};
    FallbackIsApart(s2, r, a, b, number);
    FallbackSent(s1, s2, r, a, b, number, y);
    var s3 :| Leads(s1, s3) && Doubled(s3, r, a, b) && s3.rows == s1.rows && s3.rentouts == s1.rentouts
              && s3.liveRentouts == s1.liveRentouts && s3.locks == s2.locks && s3.now == s2.now && s3.workers.Keys == s2.workers.Keys;
    LeadsTrans(FRESH_INSTALL, s1, s3);
    LeadsIsReachable(s3);
    RecordLockIsNotVouchers(s1, s2, r, y, b);
    FallbackImported(s3, z, r, a, b, q);
    var t := Imported(s3, z, b, q);
    LeadsTrans(FRESH_INSTALL, s3, t);
    LeadsIsReachable(t);
  }

  // ---------- the fallback marker first ----------

  /** The first import is rejected as stuck, with nothing in Tally. */
  lemma RetriesAtOnce(s: State, r: string, b: string, w: string)
    requires Ordered(s, r) && s.vouchers == map[] && w != "" && w !in s.workers
    ensures exists t :: Leads(s, t) && Retrying(s, t, r, w)
  {
    hide Leads, Numeric, RecordKey, Marker, IMPORTED, TargetHits;
    var item := Item(Order, r);
    FetchesOrder(s, w, r);
    var s1 := InHand(s, w, r);
    KeyIsNotBlank(item);
    TakeOn(s, s1, w);
    var s2 := AfterTakeRecord(s1, w);
    EnterOn(s, s2, w);
    var s3 := MoveForward(s2, w, Asking(false));
    AskOn(s, s3, w, false, false);
    var s4 := AfterAskTally(s3, w, false, false);
    SendOn(s, s4, w, Rejected(Fallback), b, "");
    assert Retrying(s, AfterSend(s4, w, Rejected(Fallback), b, ""), r, w);
  }

  /** Tally holds one voucher of order `r`, under the fallback marker, and its mapping is
      saved. */
  predicate Fallen(s: State, r: string, b: string) {
    && Ordered(s, r) && s.vouchers.Keys == {b} && s.liveVouchers == {b}
    && s.vouchers[b].narration == MarkerOf(Item(Order, r), true) && s.vouchers[b].pushed == Some(Push(Item(Order, r), None, None))
  }

  lemma FallbackSaved(s: State, t: State, r: string, b: string, number: string, w: string, hash: string)
    requires Ordered(s, r) && s.rows == map[] && s.vouchers == map[] && s.liveVouchers == {} && Retrying(s, t, r, w) && Leads(s, t)
    requires w != "" && FreshGuid(s, b) && NumberIsApart(t, b, Voucher(number, Marker(Order, r, true), Some(Push(Item(Order, r), None, None))))
    ensures exists u :: Leads(s, u) && Fallen(u, r, b) && u.workers.Keys == t.workers.Keys
  {
    hide Leads, Numeric, RecordKey, IMPORTED, NumberIsApart, Marker, ForwardRow, Upsert;
    AskOn(s, t, w, false, false);
    var t1 := AfterAskTally(t, w, false, false);
    ApartElsewhere(t, t1, b, number, r);
    SendOn(s, t1, w, Accepted, b, number);
    var t2 := AfterSend(t1, w, Accepted, b, number);
    SaveOn(s, t2, w, hash);
    var t3 := AfterSaveForward(t2, w, true, hash);
    KeyIsNotBlank(Item(Order, r));
    ReleaseOn(s, t3, w);
    var u := AfterReleaseRecord(t3, w);
    assert u.locks == map[];
    ForwardMappingGuardsNothing(Item(Order, r), MarkerOf(Item(Order, r), true), hash, r);
    assert Fallen(u, r, b);
  }

  lemma ForwardMappingGuardsNothing(item: Item, target: string, hash: string, id: string)
    ensures TargetHits(Upsert(map[], ForwardRow(item, target, hash)), "default", "rental_order", "rentasst", id) == {}
  {
    hide ForwardKey, RentasstId;
  }

  lemma NewIsApart(t: State, r: string, b: string, number: string)
    requires t.vouchers == map[] && t.liveRentouts == {r} && r in t.rentouts
    requires Strip(number) != "" && !("RENTAL-" <= Strip(number)) && !Matches(t.rentouts[r], number, b)
    ensures NumberIsApart(t, b, Voucher(number, Marker(Order, r, true), Some(Push(Item(Order, r), None, None))))
  {
    hide Matches, RentoutFrom, IsOwnMarker, Strip, Marker;
  }

  lemma FallsAtOnce(r: string, order: Rentout, b: string, number: string, w: string, hash: string)
    requires Numeric(r) && order.origin == None && !(IMPORTED <= order.notes) && b != "" && !Numeric(b) && w != ""
    requires Strip(number) != "" && !("RENTAL-" <= Strip(number)) && !Matches(order, number, b)
    ensures exists s :: Leads(FRESH_INSTALL, s) && Fallen(s, r, b) && s.workers.Keys == {w}
  {
    hide Leads, Numeric, IMPORTED, RecordKey, Matches, Marker, NumberIsApart, Strip;
    LeadsHere(FRESH_INSTALL);
    LeadsOn(FRESH_INSTALL, FRESH_INSTALL, ByWorld(AddRentout(r, order)));
    var s0 := AfterAddRentout(FRESH_INSTALL, r, order);
    RetriesAtOnce(s0, r, b, w);
    var s1 :| Leads(s0, s1) && Retrying(s0, s1, r, w);
    NewIsApart(s1, r, b, number);
    FallbackSaved(s0, s1, r, b, number, w, hash);
    var s :| Leads(s0, s) && Fallen(s, r, b) && s.workers.Keys == s1.workers.Keys;
    LeadsTrans(FRESH_INSTALL, s0, s);
  }

  /** With every step as assumed, an order that Tally holds under the fallback marker,
      mapping and all, is created again under the plain one by the next pass: that is the
      marker the pipeline and the client ask about, and it is truthfully absent. */
  lemma PlainBesideFallback(r: string, order: Rentout, a: string, b: string, number: string, w: string, y: string, hash: string)
    requires Numeric(r) && order.origin == None && !(IMPORTED <= order.notes)
    requires a != b && a != "" && b != "" && !Numeric(a) && !Numeric(b) && w != "" && y != "" && w != y
    requires Strip(number) != "" && !("RENTAL-" <= Strip(number)) && !Matches(order, number, b)
    ensures exists s, t :: Reachable(s) && Fallen(s, r, b) && Leads(s, t) && Doubled(t, r, a, b)
  {
    hide Leads, Numeric, IMPORTED, RecordKey, Matches, Reachable, Strip, TargetHits;
    FallsAtOnce(r, order, b, number, w, hash);
    var s :| Leads(FRESH_INSTALL, s) && Fallen(s, r, b) && s.workers.Keys == {w};
    LeadsIsReachable(s);
    MarkersDiffer(r);
    hide Marker;
    FetchesOrder(s, y, r);
    var s1 := InHand(s, y, r);
    KeyIsNotBlank(Item(Order, r));
    GuardedIsDelivered(s1, y, a, "1");
    var t :| Leads(s1, t) && Delivered(s1, t, y, a);
    LeadsTrans(s, s1, t);
    assert Doubled(t, r, a, b);
  }
}
