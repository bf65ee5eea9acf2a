/** At most one live rentout per Tally voucher, and only from vouchers forward sync
    did not write, over every interleaving of reverse and forward workers, crashes
    and outside changes. */
module ProtocolRentouts {
  import opened Text
  import opened Wrappers
  import opened Markers
  import opened MappingTable
  import opened Protocol
  import opened ProtocolLocks
  import opened ProtocolTally

  predicate CameFrom(s: State, rid: string, guid: string) {
    rid in s.liveRentouts && rid in s.rentouts && s.rentouts[rid].origin == Some(guid)
  }

  predicate Importable(s: State, guid: string) {
    guid in s.vouchers && !IsOwnMarker(s.vouchers[guid].narration)
  }

  /** No Tally voucher has two live rentouts. */
  predicate RentoutsUnique(s: State) {
    forall r, q | r in s.liveRentouts && q in s.liveRentouts && r in s.rentouts && q in s.rentouts ::
      s.rentouts[r].origin.Some? && s.rentouts[r].origin == s.rentouts[q].origin ==> r == q
  }

  predicate ForwardRowSound(r: Row) {
    r.sourceSystem == "rentasst" && r.targetSystem == "tally" && "RENTAL-" <= r.target && Numeric(r.source)
  }

  predicate ReverseRowSound(s: State, r: Row) {
    && r.sourceSystem == "tally" && r.targetSystem == "rentasst" && r.entity == "rental_order"
    && r.source != "" && !Numeric(r.source) && r.source in s.vouchers && Numeric(r.target)
  }

  predicate RowSound(s: State, r: Row) {
    && r.company == "default" && r.rentasst == r.source && r.external == r.target && r.guid == r.target
    && (ForwardRowSound(r) || ReverseRowSound(s, r))
  }

  predicate RowsSound(s: State) {
    forall k :: k in s.rows ==> k == RowKey(s.rows[k]) && RowSound(s, s.rows[k])
  }

  predicate Unrecorded(s: State, guid: string) {
    ("rental_order", guid) !in s.rows
  }

  /** A voucher's mapping, when there is one, names its live rentout. */
  ghost predicate RecordsCurrent(s: State) {
    forall g, r :: CameFrom(s, r, g) && !Unrecorded(s, g) ==> s.rows[("rental_order", g)].target == r
  }

  /** Every rentout made by reverse sync still looks as it was posted. */
  predicate OriginsSound(s: State) {
    && s.liveRentouts <= s.rentouts.Keys
    && (forall r :: r in s.rentouts ==>
          Numeric(r) && (s.rentouts[r].origin.Some? ==>
            Importable(s, s.rentouts[r].origin.value)
            && s.rentouts[r] == RentoutFrom(s.rentouts[r].origin.value, s.vouchers[s.rentouts[r].origin.value])))
  }

  /** Importable vouchers have numbers of their own. */
  ghost predicate NumbersApart(s: State) {
    && (forall g :: g in s.vouchers ==> g != "" && !Numeric(g))
    && (forall g :: Importable(s, g) ==> Strip(s.vouchers[g].number) != "" && !("RENTAL-" <= Strip(s.vouchers[g].number)))
    && (forall g, r :: Importable(s, g) && r in s.liveRentouts && r in s.rentouts && Matches(s.rentouts[r], s.vouchers[g].number, g) ==>
          s.rentouts[r].origin == Some(g))
    && (forall g, h :: Importable(s, g) && Importable(s, h) && g != h ==>
          !Matches(RentoutFrom(h, s.vouchers[h]), s.vouchers[g].number, g))
  }

  ghost predicate NoneLive(s: State, guid: string) {
    forall r :: !CameFrom(s, r, guid)
  }

  ghost predicate OnlyLive(s: State, guid: string, rid: string) {
    forall r :: CameFrom(s, r, guid) ==> r == rid
  }

  ghost predicate ReverseStageSound(s: State, guid: string, stage: ReverseStage) {
    match stage
    case Entered => true
    case Left => true
    case Mapped(target) => Importable(s, guid) && OnlyLive(s, guid, target)
    case Unmapped => Importable(s, guid) && Unrecorded(s, guid)
    case Numbered(_) => false
    case Listing => Importable(s, guid) && Unrecorded(s, guid)
    case Absent => Importable(s, guid) && Unrecorded(s, guid) && NoneLive(s, guid)
    case Pushed(rid) =>
      Importable(s, guid) && Unrecorded(s, guid) && OnlyLive(s, guid, rid) && Numeric(rid)
  }

  ghost predicate ReverseWorkerSound(s: State, worker: Worker) {
    worker.Reverse? && worker.rjob.Some? ==> ReverseStageSound(s, worker.rjob.value.guid, worker.rjob.value.stage)
  }

  ghost predicate ReverseWorkersSound(s: State) {
    forall w :: w in s.workers ==> ReverseWorkerSound(s, s.workers[w])
  }

  ghost predicate RentoutsSound(s: State) {
    RentoutsUnique(s) && RowsSound(s) && RecordsCurrent(s) && OriginsSound(s) && NumbersApart(s) && ReverseWorkersSound(s)
  }

  predicate SubTable(t: Table, t': Table) {
    forall k :: k in t' ==> k in t && t'[k] == t[k]
  }

  /** Records and mappings may vanish, and workers move on soundly: nothing breaks. */
  lemma RentoutsSoundWithFewer(s: State, s': State)
    requires RentoutsSound(s)
    requires s'.vouchers == s.vouchers && s'.rentouts == s.rentouts && s'.liveRentouts <= s.liveRentouts
    requires SubTable(s.rows, s'.rows)
    requires ReverseWorkersSound(s')
    ensures RentoutsSound(s')
  {
    hide Matches, RentoutFrom, IsOwnMarker, Numeric, Strip;
    assert forall r, g :: CameFrom(s', r, g) ==> CameFrom(s, r, g);
    assert forall g :: Importable(s', g) <==> Importable(s, g);
  }

  lemma WorkerSoundWithFewer(s: State, s': State, worker: Worker)
    requires ReverseWorkerSound(s, worker)
    requires s'.vouchers == s.vouchers && s'.rentouts == s.rentouts && s'.liveRentouts <= s.liveRentouts
    requires SubTable(s.rows, s'.rows)
    ensures ReverseWorkerSound(s', worker)
  {
    hide IsOwnMarker;
    assert forall r, g :: CameFrom(s', r, g) ==> CameFrom(s, r, g);
  }

  // ---------- outside changes ----------

  lemma RentoutsKeptByNativeRentout(s: State, rid: string, r: Rentout)
    requires RentoutsSound(s) && rid !in s.liveRentouts && r.origin == None && NativeRentout(s, rid, r)
    ensures RentoutsSound(AfterAddRentout(s, rid, r))
  {
    hide Matches, RentoutFrom, IsOwnMarker, Numeric, Strip, NumbersApart, ReverseWorkersSound;
    var s' := AfterAddRentout(s, rid, r);
    assert forall q, g :: CameFrom(s', q, g) ==> CameFrom(s, q, g);
    NumbersApartWithNativeRentout(s, rid, r);
    WorkersSoundWithNativeRentout(s, rid, r);
  }

  lemma NumbersApartWithNativeRentout(s: State, rid: string, r: Rentout)
    requires NumbersApart(s) && rid !in s.liveRentouts && r.origin == None && NativeRentout(s, rid, r)
    ensures NumbersApart(AfterAddRentout(s, rid, r))
  {
  }

  lemma WorkersSoundWithNativeRentout(s: State, rid: string, r: Rentout)
    requires ReverseWorkersSound(s) && rid !in s.liveRentouts && r.origin == None
    ensures ReverseWorkersSound(AfterAddRentout(s, rid, r))
  {
    hide IsOwnMarker;
    var s' := AfterAddRentout(s, rid, r);
    assert forall q, g :: CameFrom(s', q, g) ==> CameFrom(s, q, g);
    assert forall g :: Importable(s', g) <==> Importable(s, g);
    forall w | w in s'.workers ensures ReverseWorkerSound(s', s'.workers[w]) {
      assert ReverseWorkerSound(s, s.workers[w]);
    }
  }

  /** A voucher appears: one of a user, or one forward sync wrote. */
  lemma RentoutsKeptByNewVoucher(s: State, g: string, v: Voucher)
    requires RentoutsSound(s) && FreshGuid(s, g)
    requires !IsOwnMarker(v.narration) ==> NumberIsApart(s, g, v)
    ensures RentoutsSound(AfterAddVoucher(s, g, v))
  {
    hide Matches, RentoutFrom, IsOwnMarker, Numeric, Strip, NumbersApart, ReverseWorkersSound, NumberIsApart;
    var s' := AfterAddVoucher(s, g, v);
    assert forall q, h :: CameFrom(s', q, h) <==> CameFrom(s, q, h);
    NumbersApartWithNewVoucher(s, g, v);
    WorkersSoundWithNewVoucher(s, g, v);
  }

  lemma NumbersApartWithNewVoucher(s: State, g: string, v: Voucher)
    requires NumbersApart(s) && FreshGuid(s, g) && OriginsSound(s)
    requires !IsOwnMarker(v.narration) ==> NumberIsApart(s, g, v)
    ensures NumbersApart(AfterAddVoucher(s, g, v))
  {
    hide Matches, RentoutFrom, IsOwnMarker, Numeric, Strip;
    assert forall h :: h != g ==> (Importable(AfterAddVoucher(s, g, v), h) <==> Importable(s, h));
  }

  lemma WorkersSoundWithNewVoucher(s: State, g: string, v: Voucher)
    requires ReverseWorkersSound(s) && g !in s.vouchers
    ensures ReverseWorkersSound(AfterAddVoucher(s, g, v))
  {
    hide IsOwnMarker;
    var s' := AfterAddVoucher(s, g, v);
    assert forall q, h :: CameFrom(s', q, h) <==> CameFrom(s, q, h);
    assert forall h :: Importable(s, h) ==> Importable(s', h);
    forall w | w in s'.workers ensures ReverseWorkerSound(s', s'.workers[w]) {
      assert ReverseWorkerSound(s, s.workers[w]);
    }
  }

  lemma NativeNarrationIsNotOwn(narration: string)
    requires !("RENTAL-" <= Strip(narration))
    ensures !IsOwnMarker(narration)
  {
  }

  lemma RentoutsKeptByWorld(s: State, a: WorldAct)
    requires RentoutsSound(s) && WorldCan(s, a) && WorldAssumed(s, a)
    ensures RentoutsSound(AfterWorld(s, a))
  {
    hide NumberIsApart, Matches, RentoutsSound, RentoutFrom, IsOwnMarker;
    if a.AddRentout? {
      RentoutsKeptByNativeRentout(s, a.rid, a.rentout);
    } else if a.AddVoucher? {
      NativeNarrationIsNotOwn(a.voucher.narration);
      RentoutsKeptByNewVoucher(s, a.guid, a.voucher);
    } else {
      RentoutsKeptByQuietWorld(s, a);
    }
  }

  lemma RentoutsKeptByQuietWorld(s: State, a: WorldAct)
    requires RentoutsSound(s) && !a.AddRentout? && !a.AddVoucher?
    ensures RentoutsSound(AfterWorld(s, a))
  {
    var s' := AfterWorld(s, a);
    forall w | w in s'.workers ensures ReverseWorkerSound(s', s'.workers[w]) {
      WorkerSoundWithFewer(s, s', s.workers[w]);
    }
    RentoutsSoundWithFewer(s, s');
  }

  // ---------- forward workers ----------

  /** Saving a row of forward sync touches no voucher's mapping. */
  lemma RentoutsKeptByForwardRow(s: State, s': State, r: Row)
    requires RentoutsSound(s) && ForwardRowSound(r) && RowSound(s, r)
    requires s'.rows == Upsert(s.rows, r)
    requires s'.vouchers == s.vouchers && s'.rentouts == s.rentouts && s'.liveRentouts == s.liveRentouts
    requires forall w :: w in s'.workers ==> ReverseWorkerSound(s, s'.workers[w])
    ensures RentoutsSound(s')
  {
    hide NumbersApart, OriginsSound, ReverseWorkersSound, RowsSound, RecordsCurrent, ForwardRowSound, RowSound, Upsert;
    ApartAndOriginsIgnoreRows(s, s');
    WorkersSoundWithForwardRow(s, s', r);
    RowsSoundWithForwardRow(s, s', r);
    RecordsCurrentWithForwardRow(s, s', r);
  }

  lemma RowsSoundWithForwardRow(s: State, s': State, r: Row)
    requires RowsSound(s) && ForwardRowSound(r) && RowSound(s, r)
    requires s'.rows == Upsert(s.rows, r) && s'.rentouts == s.rentouts && s'.vouchers == s.vouchers
    ensures RowsSound(s')
  {
    hide Numeric;
  }

  lemma RecordsCurrentWithForwardRow(s: State, s': State, r: Row)
    requires NumbersApart(s) && OriginsSound(s) && RecordsCurrent(s) && ForwardRowSound(r) && RowSound(s, r)
    requires s'.rows == Upsert(s.rows, r)
    requires s'.vouchers == s.vouchers && s'.rentouts == s.rentouts && s'.liveRentouts == s.liveRentouts
    ensures RecordsCurrent(s')
  {
    KnownVouchersAreNotNumbers(s);
    hide NumbersApart, OriginsSound, Numeric;
    assert forall q, g :: CameFrom(s', q, g) <==> CameFrom(s, q, g);
  }

  lemma KnownVouchersAreNotNumbers(s: State)
    requires NumbersApart(s) && OriginsSound(s)
    ensures forall g :: g in s.vouchers ==> !Numeric(g)
    ensures forall g, r :: CameFrom(s, r, g) ==> g in s.vouchers
  {
  }

  lemma WorkersSoundWithForwardRow(s: State, s': State, r: Row)
    requires ForwardRowSound(r) && RowSound(s, r) && NumbersApart(s)
    requires s'.rows == Upsert(s.rows, r)
    requires s'.vouchers == s.vouchers && s'.rentouts == s.rentouts && s'.liveRentouts == s.liveRentouts
    requires forall w :: w in s'.workers ==> ReverseWorkerSound(s, s'.workers[w])
    ensures ReverseWorkersSound(s')
  {
    hide Matches, RentoutFrom, IsOwnMarker, Strip;
    assert forall q, g :: CameFrom(s', q, g) <==> CameFrom(s, q, g);
    assert forall g :: Importable(s', g) <==> Importable(s, g);
    assert forall g :: g in s.vouchers ==> (Unrecorded(s', g) <==> Unrecorded(s, g));
    forall w | w in s'.workers ensures ReverseWorkerSound(s', s'.workers[w]) {
      assert ReverseWorkerSound(s, s'.workers[w]);
    }
  }

  lemma ForwardRowIsSound(s: State, item: Item, retry: bool, hash: string)
    requires Numeric(item.id)
    ensures var r := ForwardRow(item, MarkerOf(item, retry), hash); ForwardRowSound(r) && RowSound(s, r)
  {
  }

  lemma RentoutsKeptByForwardSave(s: State, w: string, stage: ForwardStage, retry: bool, stored: bool, hash: string)
    requires RentoutsSound(s) && ForwardAt(s, w) && Numeric(ItemOf(s, w).id)
    ensures RentoutsSound(MoveForward(s, w, stage).(
              rows := Stored(s.rows, ForwardRow(ItemOf(s, w), MarkerOf(ItemOf(s, w), retry), hash), stored)))
  {
    hide RentoutsSound, ForwardRow, Marker;
    var r := ForwardRow(ItemOf(s, w), MarkerOf(ItemOf(s, w), retry), hash);
    var s' := MoveForward(s, w, stage).(rows := Stored(s.rows, r, stored));
    ForwardMoveKeepsReverse(s, s', w);
    if stored {
      ForwardRowIsSound(s, ItemOf(s, w), retry, hash);
      RentoutsKeptByForwardRow(s, s', r);
    } else {
      RentoutsKeptByForwardMove(s, s', w);
    }
  }

  lemma ForwardMoveKeepsReverse(s: State, s': State, w: string)
    requires RentoutsSound(s)
    requires w in s'.workers ==> s'.workers[w].Forward?
    requires forall x :: x in s'.workers && x != w ==> x in s.workers && s'.workers[x] == s.workers[x]
    ensures forall x :: x in s'.workers ==> ReverseWorkerSound(s, s'.workers[x])
  {
  }

  /** A forward worker moves, possibly dropping mappings, and changes nothing else. */
  lemma RentoutsKeptByForwardMove(s: State, s': State, w: string)
    requires RentoutsSound(s) && SubTable(s.rows, s'.rows)
    requires s'.vouchers == s.vouchers && s'.rentouts == s.rentouts && s'.liveRentouts == s.liveRentouts
    requires w in s'.workers ==> s'.workers[w].Forward?
    requires forall x :: x in s'.workers && x != w ==> x in s.workers && s'.workers[x] == s.workers[x]
    ensures RentoutsSound(s')
  {
    ForwardMoveKeepsReverse(s, s', w);
    forall x | x in s'.workers ensures ReverseWorkerSound(s', s'.workers[x]) {
      WorkerSoundWithFewer(s, s', s'.workers[x]);
    }
    RentoutsSoundWithFewer(s, s');
  }

  lemma SentNarrationIsOwn(item: Item, retry: bool)
    requires Numeric(item.id)
    ensures IsOwnMarker(MarkerOf(item, retry)) <==> !retry
  {
    assert item.id[|item.id| - 1] in item.id;
    MarkerRoundTrip(item.kind, item.id);
    RetryMarkerIsNotRecognised(item.kind, item.id);
  }

  lemma RentoutsKeptBySend(s: State, w: string, reply: Reply, g: string, number: string)
    requires RentoutsSound(s) && CanSend(s, w, reply, g) && SendFresh(s, w, reply, g, number) && Numeric(ItemOf(s, w).id)
    ensures RentoutsSound(AfterSend(s, w, reply, g, number))
  {
    hide RentoutsSound, Marker, IsOwnMarker, NumberIsApart;
    var stage, item := ForwardStageOf(s, w), ItemOf(s, w);
    var s1 := MoveForward(s, w, AfterReply(stage, reply));
    RentoutsKeptByForwardMove(s, s1, w);
    if stage.create && Lands(reply) {
      var v := Sent(s, w, number);
      SentNarrationIsOwn(item, stage.retry);
      ApartIgnoresWorkers(s, s1, g, v);
      RentoutsKeptByNewVoucher(s1, g, v);
    }
  }

  lemma ApartIgnoresWorkers(s: State, s': State, g: string, v: Voucher)
    requires s'.vouchers == s.vouchers && s'.rentouts == s.rentouts && s'.liveRentouts == s.liveRentouts
    ensures NumberIsApart(s, g, v) <==> NumberIsApart(s', g, v)
  {
  }

  lemma RentoutsKeptByForward(s: State, w: string, a: ForwardAct)
    requires RentoutsSound(s) && TallySound(s) && ForwardCan(s, w, a) && ForwardAssumed(s, w, a)
    ensures RentoutsSound(AfterForward(s, w, a))
  {
    hide RentoutsSound, SendFresh, ForwardRow, Best, TargetHits, RecordKey, MarkersUnique, Marker, GuardSkips;
    if ForwardAt(s, w) {
      assert WorkerSound(s, s.workers[w]);
    }
    match a
    case Send(reply, g, number) => RentoutsKeptBySend(s, w, reply, g, number);
    case Settle(adopt, hash) => RentoutsKeptByForwardSave(s, w, Leaving, false, adopt, hash);
    case SaveForward(stored, hash) => RentoutsKeptByForwardSave(s, w, Leaving, ForwardStageOf(s, w).retry, stored, hash);
    case _ => RentoutsKeptByPlainForward(s, w, a);
  }

  /** Only this forward worker, the locks, and possibly fewer mappings. */
  predicate LeavesRecords(s: State, s': State, w: string) {
    && SubTable(s.rows, s'.rows)
    && s'.vouchers == s.vouchers && s'.rentouts == s.rentouts && s'.liveRentouts == s.liveRentouts
    && (w in s'.workers ==> s'.workers[w].Forward?)
    && (forall x :: x in s'.workers && x != w ==> x in s.workers && s'.workers[x] == s.workers[x])
  }

  lemma RentoutsKeptByPlainForward(s: State, w: string, a: ForwardAct)
    requires RentoutsSound(s) && ForwardCan(s, w, a) && !a.Send? && !a.Settle? && !a.SaveForward?
    ensures RentoutsSound(AfterForward(s, w, a))
  {
    hide RentoutsSound, ForwardCan, AfterForward;
    PlainForwardMoves(s, w, a);
    RentoutsKeptByForwardMove(s, AfterForward(s, w, a), w);
  }

  lemma PlainForwardMoves(s: State, w: string, a: ForwardAct)
    requires ForwardCan(s, w, a) && !a.Send? && !a.Settle? && !a.SaveForward?
    ensures LeavesRecords(s, AfterForward(s, w, a), w)
  {
    hide LeavesRecords, AfterGuard, AfterTakeRecord, AfterReleaseRecord, AfterAskTally, AfterFetchForward, Best, Numeric;
    match a
    case FetchItems(items) => FetchOrAskMoves(s, w, a);
    case AskTally(present, remember) => FetchOrAskMoves(s, w, a);
    case Guard(notes, mapped, inTally) => GuardMoves(s, w, notes, mapped, inTally);
    case TakeRecord => LockMoves(s, w);
    case ReleaseRecord => LockMoves(s, w);
    case Enter => LockMoves(s, w);
  }

  lemma FetchOrAskMoves(s: State, w: string, a: ForwardAct)
    requires ForwardCan(s, w, a) && (a.FetchItems? || a.AskTally?)
    ensures LeavesRecords(s, AfterForward(s, w, a), w)
  {
    hide Marker, Numeric;
  }

  lemma GuardMoves(s: State, w: string, notes: string, mapped: Option<Row>, inTally: bool)
    requires FreeForward(s, w)
    ensures LeavesRecords(s, AfterGuard(s, w, notes, mapped, inTally), w)
  {
    hide GuardSkips;
  }

  lemma LockMoves(s: State, w: string)
    requires ForwardAt(s, w)
    ensures LeavesRecords(s, AfterTakeRecord(s, w), w)
    ensures LeavesRecords(s, AfterReleaseRecord(s, w), w)
    ensures LeavesRecords(s, MoveForward(s, w, Asking(false)), w)
  {
    hide RecordKey;
  }

  // ---------- reverse workers ----------

  /** A reverse worker moves to a sound stage, possibly dropping mappings. */
  lemma RentoutsKeptByReverseMove(s: State, s': State, w: string)
    requires RentoutsSound(s) && SubTable(s.rows, s'.rows)
    requires s'.vouchers == s.vouchers && s'.rentouts == s.rentouts && s'.liveRentouts == s.liveRentouts
    requires w in s'.workers ==> ReverseWorkerSound(s', s'.workers[w])
    requires forall x :: x in s'.workers && x != w ==> x in s.workers && s'.workers[x] == s.workers[x]
    ensures RentoutsSound(s')
  {
    forall x | x in s'.workers ensures ReverseWorkerSound(s', s'.workers[x]) {
      if x != w {
        WorkerSoundWithFewer(s, s', s.workers[x]);
      }
    }
    RentoutsSoundWithFewer(s, s');
  }

  /** The mapping read by guid is the voucher's own row. */
  lemma MappingByGuid(s: State, guid: string, mapped: Option<Row>)
    requires RentoutsSound(s) && guid in s.vouchers
    requires Best(s.rows, SourceHits(s.rows, "default", "rental_order", guid), mapped)
    ensures mapped == None ==> Unrecorded(s, guid)
    ensures mapped.Some? ==> !Unrecorded(s, guid) && mapped.value == s.rows[("rental_order", guid)] && mapped.value.target != ""
  {
    hide Matches, RentoutFrom, IsOwnMarker, Strip;
    var k := ("rental_order", guid);
    if k in s.rows {
      assert RowSound(s, s.rows[k]);
      assert k in SourceHits(s.rows, "default", "rental_order", guid);
    }
    if mapped.Some? {
      var h :| h in SourceHits(s.rows, "default", "rental_order", guid) && s.rows[h] == mapped.value;
      assert RowSound(s, s.rows[h]) && h == k;
    }
  }

  lemma BackfillRowIsSound(s: State, narration: string)
    requires IsOwnMarker(narration)
    ensures var own := ParseMarker(narration).value;
            var r := BackfillRow(own.0, own.1, Strip(narration)); ForwardRowSound(r) && RowSound(s, r)
  {
  }

  lemma RentoutsKeptByClassify(s: State, w: string, mapped: Option<Row>, stored: bool)
    requires RentoutsSound(s) && CanClassify(s, w, mapped) && CurrentLookup(s, w, mapped)
    ensures RentoutsSound(AfterClassify(s, w, mapped, stored))
  {
    hide RentoutsSound, ParseMarker, BackfillRow, Strip, TargetHits;
    var s', g := AfterClassify(s, w, mapped, stored), GuidOf(s, w);
    var narration := VoucherOf(s, w).narration;
    if IsOwnMarker(narration) {
      var own := ParseMarker(narration).value;
      if mapped == None && stored {
        BackfillRowIsSound(s, narration);
        LeftMoveKeepsReverse(s, s', w);
        RentoutsKeptByForwardRow(s, s', BackfillRow(own.0, own.1, Strip(narration)));
      } else {
        RentoutsKeptByReverseMove(s, s', w);
      }
    } else {
      MappingByGuid(s, g, mapped);
      if mapped.Some? {
        RecordedTargetIsOnlyLive(s, g);
      }
      assert forall q, h :: CameFrom(s', q, h) ==> CameFrom(s, q, h);
      RentoutsKeptByReverseMove(s, s', w);
    }
  }

  lemma RecordedTargetIsOnlyLive(s: State, guid: string)
    requires RentoutsSound(s) && !Unrecorded(s, guid)
    ensures OnlyLive(s, guid, s.rows[("rental_order", guid)].target)
  {
  }

  lemma LeftMoveKeepsReverse(s: State, s': State, w: string)
    requires RentoutsSound(s) && ReverseAt(s', w) && ReverseStageOf(s', w).Left?
    requires forall x :: x in s'.workers && x != w ==> x in s.workers && s'.workers[x] == s.workers[x]
    ensures forall x :: x in s'.workers ==> ReverseWorkerSound(s, s'.workers[x])
  {
  }

  /** No forward mapping can sit under a number that is no marker. */
  lemma NumberFindsNothing(s: State, guid: string, mapped: Option<Row>)
    requires RentoutsSound(s) && Importable(s, guid) && NumberLookup(s.rows, Strip(s.vouchers[guid].number), mapped)
    ensures mapped == None
  {
    hide Matches, RentoutFrom, IsOwnMarker, Strip;
    var n := Strip(s.vouchers[guid].number);
    assert ("RENT-" + n)[4] == '-' && ("ORD-" + n)[0] == 'O';
    NoForwardTarget(s, n);
    NoForwardTarget(s, "RENT-" + n);
    NoForwardTarget(s, "ORD-" + n);
  }

  lemma NoForwardTarget(s: State, id: string)
    requires RowsSound(s) && !("RENTAL-" <= id)
    ensures TargetHits(s.rows, "default", "rental_order", "tally", id) == {}
  {
  }

  lemma RentoutsKeptByLookNumber(s: State, w: string, mapped: Option<Row>)
    requires RentoutsSound(s) && CanLookNumber(s, w, mapped)
    ensures RentoutsSound(AfterLookNumber(s, w, mapped))
  {
    hide RentoutsSound, NumberLookup, IsOwnMarker, Strip;
    WorkerIsSound(s, w);
    NumberFindsNothing(s, GuidOf(s, w), mapped);
    RentoutsKeptByReverseMove(s, AfterLookNumber(s, w, mapped), w);
  }

  lemma WorkerIsSound(s: State, w: string)
    requires RentoutsSound(s) && ReverseAt(s, w)
    ensures ReverseStageSound(s, GuidOf(s, w), ReverseStageOf(s, w))
  {
  }

  lemma RentoutsKeptByAskRentAsst(s: State, w: string, present: bool)
    requires RentoutsSound(s) && CanAskRentAsst(s, w) && RentAsstTruthful(s, w, present)
    ensures RentoutsSound(AfterAskRentAsst(s, w, present))
  {
    hide RentoutsSound, IsOwnMarker;
    WorkerIsSound(s, w);
    var s', g := AfterAskRentAsst(s, w, present), GuidOf(s, w);
    if !present {
      OwnRowDeleted(s, g);
    }
    assert forall q, h :: CameFrom(s', q, h) ==> CameFrom(s, q, h);
    RentoutsKeptByReverseMove(s, s', w);
  }

  lemma OwnRowDeleted(s: State, guid: string)
    requires RentoutsSound(s)
    ensures ("rental_order", guid) !in Deleted(s.rows, "rental_order", guid)
  {
  }

  lemma RentoutsKeptByCheapReverse(s: State, w: string, a: ReverseAct)
    requires RentoutsSound(s) && ReverseCan(s, w, a)
    requires a.FetchVouchers? || a.TakeVoucher? || a.ReserveNew? || a.FreeNew? || a.Fail? || a.ReleaseVoucher?
    ensures RentoutsSound(AfterReverse(s, w, a))
  {
    hide RentoutsSound, AfterFetchReverse, AfterTakeVoucher, AfterReleaseVoucher, IsOwnMarker, RecordKey, VoucherKey;
    match a
    case FetchVouchers(guids) => RentoutsKeptByFetchVouchers(s, w, guids);
    case TakeVoucher => RentoutsKeptByTakeVoucher(s, w);
    case ReserveNew => RentoutsKeptByLocking(s, AfterReserveNew(s, w), w);
    case FreeNew(rid) => RentoutsKeptByLocking(s, AfterFreeNew(s, w, rid), w);
    case Fail => RentoutsKeptByReverseMove(s, AfterFail(s, w), w);
    case ReleaseVoucher => RentoutsKeptByReleaseVoucher(s, w);
  }

  lemma RentoutsKeptByFetchVouchers(s: State, w: string, guids: seq<string>)
    requires RentoutsSound(s) && w !in s.workers
    ensures RentoutsSound(AfterFetchReverse(s, w, guids))
  {
    hide RentoutsSound;
    RentoutsKeptByReverseMove(s, AfterFetchReverse(s, w, guids), w);
  }

  lemma RentoutsKeptByTakeVoucher(s: State, w: string)
    requires RentoutsSound(s) && FreeReverse(s, w)
    ensures RentoutsSound(AfterTakeVoucher(s, w))
  {
    hide RentoutsSound, VoucherKey;
    RentoutsKeptByReverseMove(s, AfterTakeVoucher(s, w), w);
  }

  lemma RentoutsKeptByReleaseVoucher(s: State, w: string)
    requires RentoutsSound(s) && ReverseAt(s, w)
    ensures RentoutsSound(AfterReleaseVoucher(s, w))
  {
    hide RentoutsSound, VoucherKey;
    RentoutsKeptByReverseMove(s, AfterReleaseVoucher(s, w), w);
  }

  /** Only the lock table moved. */
  lemma RentoutsKeptByLocking(s: State, s': State, w: string)
    requires RentoutsSound(s) && ReverseAt(s, w) && s' == s.(locks := s'.locks)
    ensures RentoutsSound(s')
  {
    hide RentoutsSound, ReverseWorkerSound;
    WorkerSoundHere(s, w);
    WorkerSoundWithFewer(s, s', s.workers[w]);
    RentoutsKeptByReverseMove(s, s', w);
  }

  lemma WorkerSoundHere(s: State, w: string)
    requires RentoutsSound(s) && ReverseAt(s, w)
    ensures ReverseWorkerSound(s, s.workers[w])
  {
  }

  // ---------- creating and recording a rentout ----------

  /** The posted rentout is found again by the cloud test. */
  lemma PostedRentoutMatches(guid: string, v: Voucher)
    requires v.number != ""
    ensures Matches(RentoutFrom(guid, v), v.number, guid)
  {
  }

  /** A complete list without a match proves there is no live rentout. */
  lemma CompleteListDecides(s: State, guid: string, listed: set<string>)
    requires RentoutsSound(s) && Importable(s, guid) && s.liveRentouts <= listed && listed <= s.rentouts.Keys
    requires forall r :: r in listed ==> !Matches(s.rentouts[r], s.vouchers[guid].number, guid)
    ensures NoneLive(s, guid)
  {
  }

  /** Two workers are never inside the section of one voucher. */
  lemma OthersProcessOtherVouchers(s: State, w: string, x: string)
    requires LeasesHeld(s) && ReverseAt(s, w) && ReverseAt(s, x) && x != w
    ensures GuidOf(s, x) != GuidOf(s, w)
  {
    if GuidOf(s, x) == GuidOf(s, w) {
      SectionsExclude(s, x, w);
    }
  }

  lemma RentoutsKeptByReverseRow(s: State, s': State, w: string, rid: string)
    requires RentoutsSound(s) && LeasesHeld(s) && ReverseAt(s, w)
    requires Importable(s, GuidOf(s, w)) && OnlyLive(s, GuidOf(s, w), rid)
    requires Numeric(rid)
    requires s' == MoveReverse(s, w, Left).(rows := Upsert(s.rows, ReverseRow(GuidOf(s, w), rid)))
    ensures RentoutsSound(s')
  {
    hide Matches, RentoutFrom, IsOwnMarker, Strip, NumbersApart, OriginsSound;
    ReverseRowIsSound(s, GuidOf(s, w), rid);
    assert forall q, g :: CameFrom(s', q, g) <==> CameFrom(s, q, g);
    assert forall g :: Importable(s', g) <==> Importable(s, g);
    assert forall g :: g != GuidOf(s, w) ==> (Unrecorded(s', g) <==> Unrecorded(s, g));
    WorkersSoundWithReverseRow(s, s', w, rid);
    ApartAndOriginsIgnoreRows(s, s');
  }

  lemma ApartAndOriginsIgnoreRows(s: State, s': State)
    requires NumbersApart(s) && OriginsSound(s)
    requires s'.vouchers == s.vouchers && s'.rentouts == s.rentouts && s'.liveRentouts == s.liveRentouts
    ensures NumbersApart(s') && OriginsSound(s')
  {
    hide Matches, RentoutFrom, IsOwnMarker, Strip, Numeric;
    assert forall g :: Importable(s', g) <==> Importable(s, g);
  }

  lemma ReverseRowIsSound(s: State, guid: string, rid: string)
    requires NumbersApart(s) && guid in s.vouchers && Numeric(rid)
    ensures var r := ReverseRow(guid, rid); RowSound(s, r) && RowKey(r) == ("rental_order", guid) && r.target == rid
  {
  }

  lemma WorkersSoundWithReverseRow(s: State, s': State, w: string, rid: string)
    requires ReverseWorkersSound(s) && LeasesHeld(s) && ReverseAt(s, w)
    requires s' == MoveReverse(s, w, Left).(rows := Upsert(s.rows, ReverseRow(GuidOf(s, w), rid)))
    ensures ReverseWorkersSound(s')
  {
    hide IsOwnMarker, Strip;
    assert forall q, g :: CameFrom(s', q, g) <==> CameFrom(s, q, g);
    assert forall g :: Importable(s', g) <==> Importable(s, g);
    assert forall g :: g != GuidOf(s, w) ==> (Unrecorded(s', g) <==> Unrecorded(s, g));
    forall x | x in s'.workers ensures ReverseWorkerSound(s', s'.workers[x]) {
      if x != w {
        assert ReverseWorkerSound(s, s.workers[x]);
        if ReverseAt(s, x) {
          OthersProcessOtherVouchers(s, w, x);
        }
      }
    }
  }

  /** A live match of the cloud test is the voucher's one live rentout. */
  lemma PickIsOnlyLive(s: State, guid: string, rid: string)
    requires RentoutsSound(s) && Importable(s, guid) && rid in s.liveRentouts
    requires rid in s.rentouts && Matches(s.rentouts[rid], s.vouchers[guid].number, guid)
    ensures Numeric(rid) && OnlyLive(s, guid, rid)
  {
  }

  lemma RentoutsKeptByList(s: State, w: string, listed: Option<set<string>>, pick: Option<string>, stored: bool)
    requires RentoutsSound(s) && LeasesHeld(s)
    requires CanListRentouts(s, w, listed, pick) && ListComplete(s, listed, pick, stored)
    ensures RentoutsSound(AfterListRentouts(s, w, pick, stored))
  {
    hide RentoutsSound, Matches, IsOwnMarker, ReverseRow, Upsert;
    var s', g := AfterListRentouts(s, w, pick, stored), GuidOf(s, w);
    WorkerIsSound(s, w);
    if pick.Some? {
      PickIsOnlyLive(s, g, pick.value);
      RentoutsKeptByReverseRow(s, s', w, pick.value);
    } else {
      CompleteListDecides(s, g, listed.value);
      assert forall q, h :: CameFrom(s', q, h) ==> CameFrom(s, q, h);
      RentoutsKeptByReverseMove(s, s', w);
    }
  }

  /** The new rentout of a voucher that has none is that voucher's only one. */
  lemma RentoutsKeptByPush(s: State, s': State, w: string, rid: string, stage: ReverseStage)
    requires RentoutsSound(s) && LeasesHeld(s) && ReverseAt(s, w) && rid !in s.liveRentouts && Numeric(rid)
    requires Importable(s, GuidOf(s, w)) && Unrecorded(s, GuidOf(s, w)) && NoneLive(s, GuidOf(s, w))
    requires stage == Pushed(rid) || stage == Left
    requires s' == AfterAddRentout(MoveReverse(s, w, stage), rid, RentoutFrom(GuidOf(s, w), VoucherOf(s, w)))
    ensures RentoutsSound(s')
  {
    hide Matches, IsOwnMarker, Numeric, Strip, NumbersApart, ReverseWorkersSound;
    var guid := GuidOf(s, w);
    assert forall q, g :: CameFrom(s', q, g) <==> CameFrom(s, q, g) || (q == rid && g == guid);
    assert forall g :: Importable(s', g) <==> Importable(s, g);
    NumbersApartWithOwnRentout(s, s', guid, rid);
    WorkersSoundWithOwnRentout(s, s', w, rid, stage);
    forall q | q in s.liveRentouts && q in s.rentouts ensures s.rentouts[q].origin != Some(guid) {
      assert !CameFrom(s, q, guid);
    }
  }

  lemma NumbersApartWithOwnRentout(s: State, s': State, guid: string, rid: string)
    requires NumbersApart(s) && Importable(s, guid) && s'.vouchers == s.vouchers
    requires s'.rentouts == s.rentouts[rid := RentoutFrom(guid, s.vouchers[guid])] && s'.liveRentouts == s.liveRentouts + {rid}
    ensures NumbersApart(s')
  {
    hide Matches, IsOwnMarker, Numeric, Strip;
    assert forall g :: Importable(s', g) <==> Importable(s, g);
  }

  lemma WorkersSoundWithOwnRentout(s: State, s': State, w: string, rid: string, stage: ReverseStage)
    requires ReverseWorkersSound(s) && LeasesHeld(s) && ReverseAt(s, w) && rid !in s.liveRentouts && Numeric(rid)
    requires Importable(s, GuidOf(s, w)) && Unrecorded(s, GuidOf(s, w)) && NoneLive(s, GuidOf(s, w))
    requires stage == Pushed(rid) || stage == Left
    requires s' == AfterAddRentout(MoveReverse(s, w, stage), rid, RentoutFrom(GuidOf(s, w), VoucherOf(s, w)))
    ensures ReverseWorkersSound(s')
  {
    hide IsOwnMarker, Strip;
    var guid := GuidOf(s, w);
    assert forall q, g :: CameFrom(s', q, g) ==> CameFrom(s, q, g) || (q == rid && g == guid);
    assert forall g :: Importable(s', g) <==> Importable(s, g);
    forall x | x in s'.workers ensures ReverseWorkerSound(s', s'.workers[x]) {
      if x != w {
        assert ReverseWorkerSound(s, s.workers[x]);
        if s.workers[x].Reverse? && s.workers[x].rjob.Some? && s.workers[x].rjob.value.guid == guid {
          OthersProcessOtherVouchers(s, w, x);
        }
      }
    }
  }

  lemma RentoutsKeptByPushRentout(s: State, w: string, reply: Reply, rid: string)
    requires RentoutsSound(s) && LeasesHeld(s) && CanPushRentout(s, w, rid) && (Lands(reply) ==> Numeric(rid))
    ensures RentoutsSound(AfterPushRentout(s, w, reply, rid))
  {
    hide RentoutsSound, Matches, IsOwnMarker, RentoutFrom, Numeric;
    var s' := AfterPushRentout(s, w, reply, rid);
    WorkerIsSound(s, w);
    if Lands(reply) {
      RentoutsKeptByPush(s, s', w, rid, if reply.Accepted? then Pushed(rid) else Left);
    } else {
      RentoutsKeptByReverseMove(s, s', w);
    }
  }

  lemma RentoutsKeptBySaveReverse(s: State, w: string, stored: bool)
    requires RentoutsSound(s) && LeasesHeld(s) && CanReserveNew(s, w)
    ensures RentoutsSound(AfterSaveReverse(s, w, stored))
  {
    hide RentoutsSound, IsOwnMarker, ReverseRow;
    var s' := AfterSaveReverse(s, w, stored);
    WorkerIsSound(s, w);
    if stored {
      RentoutsKeptByReverseRow(s, s', w, ReverseStageOf(s, w).rid);
    } else {
      RentoutsKeptByReverseMove(s, s', w);
    }
  }

  lemma RentoutsKeptByReverse(s: State, w: string, a: ReverseAct)
    requires RentoutsSound(s) && LeasesHeld(s) && ReverseCan(s, w, a) && ReverseAssumed(s, w, a)
    ensures RentoutsSound(AfterReverse(s, w, a))
  {
    hide RentoutsSound, CanClassify, CanLookNumber, CanListRentouts, ListComplete, RentAsstTruthful, CurrentLookup,
         AfterClassify, AfterListRentouts, AfterPushRentout, AfterAskRentAsst, AfterSaveReverse, AfterLookNumber;
    match a
    case Classify(mapped, stored) => RentoutsKeptByClassify(s, w, mapped, stored);
    case LookNumber(mapped) => RentoutsKeptByLookNumber(s, w, mapped);
    case AskRentAsst(present) => RentoutsKeptByAskRentAsst(s, w, present);
    case ListRentouts(listed, pick, stored) => RentoutsKeptByList(s, w, listed, pick, stored);
    case PushRentout(reply, rid) => RentoutsKeptByPushRentout(s, w, reply, rid);
    case SaveReverse(stored) => RentoutsKeptBySaveReverse(s, w, stored);
    case _ => RentoutsKeptByCheapReverse(s, w, a);
  }

  lemma RentoutsKept(s: State, step: Step)
    requires RentoutsSound(s) && TallySound(s) && LeasesHeld(s) && Enabled(s, step) && Assumed(s, step)
    ensures RentoutsSound(Next(s, step))
  {
    hide RentoutsSound, TallySound, LeasesHeld, ForwardCan, ReverseCan, AfterForward, AfterReverse, AfterWorld,
         ForwardAssumed, ReverseAssumed, WorldAssumed;
    match step
    case ByWorld(a) => RentoutsKeptByWorld(s, a);
    case ByForward(w, a) => RentoutsKeptByForward(s, w, a);
    case ByReverse(w, a) => RentoutsKeptByReverse(s, w, a);
  }
}
