/** The safety theorems over whole runs of the two-way protocol, and exactly when
    the steps they rest on would break them. */
module ProtocolTheorems {
  import opened Text
  import opened Wrappers
  import opened Markers
  import opened MappingTable
  import opened Protocol
  import opened ProtocolLocks
  import opened ProtocolTally
  import opened ProtocolRentouts
  import opened ProtocolPing
  import opened Cache
  import opened MappingStores
  import C = CacheRefinement
  import L = Locks
  import P = PipelineModel

  ghost predicate Sound(s: State) {
    LeasesHeld(s) && TallySound(s) && RentoutsSound(s) && PingSound(s)
  }

  lemma SoundAtStart()
    ensures Sound(FRESH_INSTALL)
  {
    hide Matches, RentoutFrom, IsOwnMarker, Strip, Numeric;
    assert forall r, g :: !CameFrom(FRESH_INSTALL, r, g);
    assert forall g :: !Importable(FRESH_INSTALL, g);
  }

  lemma SoundKept(s: State, step: Step)
    requires Sound(s) && Enabled(s, step) && Assumed(s, step)
    ensures Sound(Next(s, step))
  {
    hide LeasesHeld, TallySound, RentoutsSound, PingSound, Enabled, Assumed, Next;
    LeasesKept(s, step);
    TallyKept(s, step);
    RentoutsKept(s, step);
    PingKept(s, step);
  }

  lemma {:induction false} SoundThroughout(s: State, steps: seq<Step>)
    requires Sound(s) && Legal(s, steps) && AllAssumed(s, steps)
    ensures Sound(Run(s, steps))
    decreases |steps|
  {
    hide Sound, Enabled, Assumed, Next;
    if steps != [] {
      SoundKept(s, steps[0]);
      SoundThroughout(Next(s, steps[0]), steps[1..]);
    }
  }

  /** A state some assumed run from a fresh installation ends in. */
  ghost predicate Reachable(s: State) {
    exists steps :: Legal(FRESH_INSTALL, steps) && AllAssumed(FRESH_INSTALL, steps) && Run(FRESH_INSTALL, steps) == s
  }

  lemma ReachableIsSound(s: State)
    requires Reachable(s)
    ensures Sound(s)
  {
    hide Sound, Legal, AllAssumed, Run;
    var steps :| Legal(FRESH_INSTALL, steps) && AllAssumed(FRESH_INSTALL, steps) && Run(FRESH_INSTALL, steps) == s;
    SoundAtStart();
    SoundThroughout(FRESH_INSTALL, steps);
  }

  // ---------- the theorems ----------

  /** No two workers are ever inside one record's critical section. */
  lemma MutualExclusion(s: State, w: string, w': string)
    requires Reachable(s) && w in s.workers && w' in s.workers
    requires InSection(s.workers[w]) && InSection(s.workers[w']) && SectionKey(s.workers[w]) == SectionKey(s.workers[w'])
    ensures w == w'
  {
    hide Reachable, SectionKey, TallySound, RentoutsSound, PingSound;
    ReachableIsSound(s);
    SectionsExclude(s, w, w');
  }

  /** Tally never holds two vouchers with the same RENTAL- marker. */
  lemma OneVoucherPerMarker(s: State, g: string, h: string)
    requires Reachable(s) && g in s.liveVouchers && h in s.liveVouchers && g in s.vouchers && h in s.vouchers
    requires "RENTAL-" <= s.vouchers[g].narration && s.vouchers[g].narration == s.vouchers[h].narration
    ensures g == h
  {
    hide Reachable, RentoutsSound, PingSound, LeasesHeld;
    ReachableIsSound(s);
  }

  /** Every Tally voucher has at most one live rentout created from it. */
  lemma OneRentoutPerVoucher(s: State, r: string, q: string)
    requires Reachable(s) && r in s.liveRentouts && q in s.liveRentouts && r in s.rentouts && q in s.rentouts
    requires s.rentouts[r].origin.Some? && s.rentouts[r].origin == s.rentouts[q].origin
    ensures r == q
  {
    hide Reachable, TallySound, PingSound, LeasesHeld, RowsSound, RecordsCurrent, OriginsSound, NumbersApart, ReverseWorkersSound;
    ReachableIsSound(s);
  }

  /** A voucher that carries a plain forward marker never becomes a rentout. */
  lemma OwnVouchersStayOut(s: State, r: string, kind: Kind, id: string)
    requires Reachable(s) && r in s.rentouts && s.rentouts[r].origin.Some? && Numeric(id)
    ensures s.rentouts[r].origin.value in s.vouchers
    ensures s.vouchers[s.rentouts[r].origin.value].narration != Marker(kind, id, false)
  {
    hide Reachable, TallySound, PingSound, LeasesHeld, RowsSound, RecordsCurrent, NumbersApart, ReverseWorkersSound,
         RentoutsUnique, Marker, IsOwnMarker, RentoutFrom;
    ReachableIsSound(s);
    SentNarrationIsOwn(Item(kind, id), false);
    assert Importable(s, s.rentouts[r].origin.value);
  }

  /** Whatever forward sync has in hand, or ever pushed, as the copy of a voucher that is
      alive, it let through on a mapping to another voucher, a dead one. */
  lemma NoPingPong(s: State, w: string, g: string, source: string)
    requires Reachable(s) && source in s.liveVouchers
    ensures ForwardAt(s, w) && CopyOf(s.workers[w], ItemOf(s, w)) == Some(source) ==>
              var d := s.workers[w].fjob.value.dropped; d.Some? && d.value != source && d.value !in s.liveVouchers
    ensures g in s.vouchers && s.vouchers[g].pushed.Some? && s.vouchers[g].pushed.value.copyOf == Some(source) ==>
              var d := s.vouchers[g].pushed.value.dropped; d.Some? && d.value != source && d.value !in s.liveVouchers
  {
    hide Reachable, TallySound, RentoutsSound, LeasesHeld, CopyOf;
    ReachableIsSound(s);
    if ForwardAt(s, w) {
      assert WorkerSafe(s, s.workers[w]);
    }
  }

  /** So nothing in hand is such a copy when the guard stopped it whatever it looked up,
      which it does if and only if no mapping it may pick names a dead voucher. */
  lemma CopyIsStoppedIff(s: State, w: string)
    requires Reachable(s) && FreeForward(s, w) && s.workers[w].todo[0].kind == Order
    requires CopyOf(s.workers[w], s.workers[w].todo[0]).Some?
    ensures SurelyStops(s, w) <==>
            forall mapped :: MayPick(s, s.workers[w].todo[0].id, mapped) && mapped.Some? ==>
              SourceName(mapped.value) in s.liveVouchers
  {
    hide Reachable, TallySound, RentoutsSound, LeasesHeld, PingSound, MayPick, SurelyStops, CopyOf;
    ReachableIsSound(s);
    CopyStopsIff(s, w);
  }

  // ---------- the protocol's forward steps are the pipeline's ----------

  /** The guard step decides as the pipeline's guard does. */
  lemma GuardIsPipelines(kind: Kind, item: P.Item, a: P.Answers, mapped: Option<Row>)
    ensures GuardSkips(Item(kind, item.id), item.notes, mapped, a.inTally) <==> P.Guard(Entity(kind), item, a, mapped).Some?
  {
    hide IMPORTED;
    assert P.ReadsNotes(Entity(kind)) <==> kind != Payment;
    hide P.ReadsNotes, Entity;
  }

  /** A mapping the protocol saves is the row the pipeline saves. */
  lemma SavedRowIsPipelines(kind: Kind, item: P.Item, target: string)
    ensures ForwardRow(Item(kind, item.id), target, item.hash) == P.RowFor(Entity(kind), item, target)
  {
    hide NewRow, IntegrationKey, ForwardKey, Entity;
    KeysAreGenerated(Item(kind, item.id), "");
  }

  /** The mapping a store answers by guid is current for the Classify step when the store
      reads it from the table, as one filled inside the section does, or when its cache
      is coherent, as that of the only store is. */
  lemma StoreLookupIsCurrent(s: State, w: string, c: Entries<Row>, c': Entries<Row>, now: real, mapped: Option<Row>)
    requires Sound(s) && ReverseAt(s, w) && ColonFree(GuidOf(s, w))
    requires FindEffect(s.rows, c, c', "default", "rental_order", GuidOf(s, w), now, mapped)
    requires Peek(c, CacheKey("default", "rental_order", GuidOf(s, w)), now) == None || C.Coherent(s.rows, c)
    ensures CurrentLookup(s, w, mapped)
  {
    hide LeasesHeld, TallySound, PingSound, RentoutsUnique, RecordsCurrent, OriginsSound, NumbersApart, ReverseWorkersSound,
         IsOwnMarker, CacheKey;
    if Peek(c, CacheKey("default", "rental_order", GuidOf(s, w)), now) != None {
      RowsAreWellFormed(s);
      C.CurrentAnswer(s.rows, c, c', "rental_order", GuidOf(s, w), now, mapped);
      LookupIsBest(s, GuidOf(s, w));
    }
  }

  lemma RowsAreWellFormed(s: State)
    requires RowsSound(s)
    ensures WellFormed(s.rows)
  {
    hide ForwardRowSound, ReverseRowSound;
    forall k | k in s.rows ensures k == RowKey(s.rows[k]) && s.rows[k].rentasst == RentasstId(s.rows[k].company, s.rows[k].source) {
      assert RowSound(s, s.rows[k]);
    }
  }

  lemma LookupIsBest(s: State, id: string)
    requires RowsSound(s)
    ensures Best(s.rows, SourceHits(s.rows, "default", "rental_order", id), Lookup(s.rows, "default", "rental_order", id))
  {
    hide ForwardRowSound, ReverseRowSound;
    var own := ("rental_order", id);
    forall k | k in s.rows ensures SourceHit(s.rows[k], "default", "rental_order", id) <==> k == own {
      assert RowSound(s, s.rows[k]);
    }
    assert RentasstId("default", id) == id;
    if own in s.rows {
      assert RowSound(s, s.rows[own]) && SourceHits(s.rows, "default", "rental_order", id) == {own};
    }
  }

  // ---------- exactly when a step breaks them ----------

  /** The voucher a step adds to Tally. */
  ghost function NewVoucher(s: State, step: Step): Option<Voucher>
    requires Enabled(s, step)
  {
    match step
    case ByWorld(a) => if a.AddVoucher? then Some(a.voucher) else None
    case ByForward(w, a) =>
      if a.Send? && ForwardStageOf(s, w).create && Lands(a.reply) then Some(Sent(s, w, a.number)) else None
    case ByReverse(_, _) => None
  }

  lemma VouchersAfter(s: State, step: Step)
    requires Enabled(s, step)
    ensures var s' := Next(s, step);
            && (NewVoucher(s, step) == None ==> s'.vouchers == s.vouchers && s'.liveVouchers <= s.liveVouchers)
            && (NewVoucher(s, step).Some? ==>
                  exists g :: g !in s.vouchers && s'.vouchers == s.vouchers[g := NewVoucher(s, step).value]
                              && s'.liveVouchers == s.liveVouchers + {g})
  {
    hide ForwardCan, AfterForward, ReverseCan, AfterReverse;
    match step
    case ByWorld(a) =>
      if a.AddVoucher? {
        assert a.guid !in s.vouchers;
      }
    case ByForward(w, a) =>
      ForwardVouchersAfter(s, w, a);
    case ByReverse(w, a) => ReverseLeavesTally(s, w, a);
  }

  lemma ForwardVouchersAfter(s: State, w: string, a: ForwardAct)
    requires ForwardCan(s, w, a)
    ensures var s' := AfterForward(s, w, a);
            if a.Send? && ForwardStageOf(s, w).create && Lands(a.reply)
            then a.guid !in s.vouchers && s'.vouchers == s.vouchers[a.guid := Sent(s, w, a.number)]
                 && s'.liveVouchers == s.liveVouchers + {a.guid}
            else s'.vouchers == s.vouchers && s'.liveVouchers == s.liveVouchers
  {
    hide RecordKey, Marker, ForwardRow, GuardSkips, Best, TargetHits, Deleted, Upsert, CopyOf;
  }

  /** Any step, assumed or not, leaves two living vouchers with one marker if and only if
      it adds a voucher whose marker a living one carries. A lapsed lease, a repeated id
      and a non-200 reply read as "absent" are how the code gets there. */
  lemma StepBreaksMarkersIff(s: State, step: Step)
    requires MarkersUnique(s) && s.liveVouchers <= s.vouchers.Keys && Enabled(s, step)
    ensures !MarkersUnique(Next(s, step)) <==>
            NewVoucher(s, step).Some? && "RENTAL-" <= NewVoucher(s, step).value.narration
            && !NotInTally(s, NewVoucher(s, step).value.narration)
  {
    VouchersAfter(s, step);
    hide Enabled, Next, NewVoucher;
    var s', added := Next(s, step), NewVoucher(s, step);
    if added.Some? {
      var g :| g !in s.vouchers && s'.vouchers == s.vouchers[g := added.value] && s'.liveVouchers == s.liveVouchers + {g};
      if !NotInTally(s, added.value.narration) {
        var h :| h in s.liveVouchers && h in s.vouchers && s.vouchers[h].narration == added.value.narration;
        assert s'.vouchers[h].narration == s'.vouchers[g].narration;
      }
    }
  }

  /** A step that pushes a voucher's rentout while another lives. */
  ghost predicate PushesAgain(s: State, step: Step)
    requires Enabled(s, step)
  {
    step.ByReverse? && step.reverse.PushRentout? && Lands(step.reverse.reply) && !NoneLive(s, GuidOf(s, step.w))
  }

  /** Any step, assumed or not, leaves two living rentouts of one voucher if and only if it
      pushes the voucher's rentout while another lives. A failed cloud list, a failed save
      of the adopted mapping and a stale mapping are how the code gets there. */
  lemma StepBreaksRentoutsIff(s: State, step: Step)
    requires RentoutsUnique(s) && s.liveRentouts <= s.rentouts.Keys && Enabled(s, step)
    ensures !RentoutsUnique(Next(s, step)) <==> PushesAgain(s, step)
  {
    hide ForwardCan, AfterForward;
    match step
    case ByWorld(a) => WorldKeepsRentoutsUnique(s, a);
    case ByForward(w, a) => ForwardLeavesRentouts(s, w, a);
    case ByReverse(w, a) =>
      if a.PushRentout? && Lands(a.reply) {
        PushKeepsRentoutsIff(s, w, a.reply, a.rid);
      } else {
        ReverseLeavesRentouts(s, w, a);
      }
  }

  lemma WorldKeepsRentoutsUnique(s: State, a: WorldAct)
    requires RentoutsUnique(s) && s.liveRentouts <= s.rentouts.Keys && WorldCan(s, a)
    ensures RentoutsUnique(AfterWorld(s, a))
  {
  }

  lemma ForwardLeavesRentouts(s: State, w: string, a: ForwardAct)
    requires ForwardCan(s, w, a)
    ensures AfterForward(s, w, a).rentouts == s.rentouts && AfterForward(s, w, a).liveRentouts == s.liveRentouts
  {
    hide RecordKey, Marker, ForwardRow, GuardSkips, Best, TargetHits, Deleted, Upsert, CopyOf;
  }

  lemma ReverseLeavesRentouts(s: State, w: string, a: ReverseAct)
    requires ReverseCan(s, w, a) && !(a.PushRentout? && Lands(a.reply))
    ensures AfterReverse(s, w, a).rentouts == s.rentouts && AfterReverse(s, w, a).liveRentouts == s.liveRentouts
  {
    if Deciding(a) {
      DecidingMoves(s, w, a);
    } else {
      hide RecordKey, VoucherKey, ReverseRow, Matches, RentoutFrom, Upsert;
    }
  }

  lemma PushKeepsRentoutsIff(s: State, w: string, reply: Reply, rid: string)
    requires RentoutsUnique(s) && s.liveRentouts <= s.rentouts.Keys && CanPushRentout(s, w, rid) && Lands(reply)
    ensures RentoutsUnique(AfterPushRentout(s, w, reply, rid)) <==> NoneLive(s, GuidOf(s, w))
  {
    hide RentoutFrom;
    var s', g := AfterPushRentout(s, w, reply, rid), GuidOf(s, w);
    PostedOrigin(g, VoucherOf(s, w));
    assert s'.rentouts[rid].origin == Some(g) && rid in s'.liveRentouts;
    if !NoneLive(s, g) {
      var q :| CameFrom(s, q, g);
      assert s'.rentouts[q].origin == Some(g) && q in s'.liveRentouts && q != rid;
    } else {
      forall q | q in s.liveRentouts && q in s.rentouts ensures s.rentouts[q].origin != Some(g) {
        assert !CameFrom(s, q, g);
      }
    }
  }

  lemma PostedOrigin(guid: string, v: Voucher)
    ensures RentoutFrom(guid, v).origin == Some(guid)
  {
  }

  /** Reverse sync takes a voucher forward sync wrote for a foreign one if and only if it
      carries the fallback marker. */
  lemma SentVoucherIsForeignIff(s: State, w: string, reply: Reply, g: string, number: string)
    requires CanSend(s, w, reply, g) && ForwardStageOf(s, w).create && Lands(reply) && Numeric(ItemOf(s, w).id)
    ensures Importable(AfterSend(s, w, reply, g, number), g) <==> ForwardStageOf(s, w).retry
  {
    hide Marker, IsOwnMarker;
    SentNarrationIsOwn(ItemOf(s, w), ForwardStageOf(s, w).retry);
  }

  // ---------- the guard's real oracle ----------

  /** What check_exists compares: text stripped and lower-cased. */
  predicate SameText(narration: string, id: string) {
    narration != "" && Lower(Strip(narration)) == Lower(Strip(id))
  }

  /** What check_exists itself answers for a voucher id on a 200 reply. */
  predicate NarrationInTally(s: State, id: string) {
    exists g :: g in s.liveVouchers && g in s.vouchers && SameText(s.vouchers[g].narration, id)
  }

  /** A worker's own way from the guard to Tally. */
  predicate OnItem(w: string, step: Step) {
    step.ByForward? && step.w == w && (step.forward.TakeRecord? || step.forward.Enter? || step.forward.AskTally?)
  }

  /** Left to its own steps, the worker comes to send the item while the source lives. */
  ghost predicate GoesToSend(s: State, w: string, item: Item, source: string) {
    exists steps :: (forall k :: 0 <= k < |steps| ==> OnItem(w, steps[k])) && Legal(s, steps) && AllAssumed(s, steps)
                    && SendsCopy(Run(s, steps), w, item, source)
  }

  predicate SendsCopy(s: State, w: string, item: Item, source: string) {
    ForwardAt(s, w) && ItemOf(s, w) == item && ForwardStageOf(s, w).Sending? && source in s.liveVouchers
  }

  lemma IdleHasNoStep(s: State, w: string, step: Step)
    requires w in s.workers && s.workers[w].Forward? && s.workers[w].fjob == None && OnItem(w, step)
    ensures !Enabled(s, step)
  {
  }

  lemma NoJobNoSend(s: State, w: string, item: Item, source: string)
    requires w in s.workers && s.workers[w].Forward? && s.workers[w].fjob == None
    ensures !GoesToSend(s, w, item, source)
  {
    hide Enabled, Next, Assumed, OnItem;
    forall steps | (forall k :: 0 <= k < |steps| ==> OnItem(w, steps[k])) && Legal(s, steps) ensures steps == [] {
      if steps != [] {
        IdleHasNoStep(s, w, steps[0]);
      }
    }
  }

  lemma TakeStep(s: State, w: string)
    requires ForwardAt(s, w) && ForwardStageOf(s, w).Guarded?
    ensures var a := ByForward(w, TakeRecord);
            OnItem(w, a) && Enabled(s, a) && Assumed(s, a) && Next(s, a) == AfterTakeRecord(s, w)
  {
    hide AfterTakeRecord;
  }

  lemma EnterStep(s: State, w: string)
    requires ForwardAt(s, w) && ForwardStageOf(s, w).Holding?
    ensures var a := ByForward(w, Enter);
            OnItem(w, a) && Enabled(s, a) && Assumed(s, a) && Next(s, a) == MoveForward(s, w, Asking(false))
  {
    hide MoveForward;
  }

  lemma AskStep(s: State, w: string, present: bool, remember: bool)
    requires CanAskTally(s, w, present) && TallyTruthful(s, w, present)
    ensures var a := ByForward(w, AskTally(present, remember));
            OnItem(w, a) && Enabled(s, a) && Assumed(s, a) && Next(s, a) == AfterAskTally(s, w, present, remember)
  {
    hide AfterAskTally, CanAskTally, TallyTruthful;
  }

  lemma GuardedGoesToSend(s: State, w: string, item: Item, source: string)
    requires ForwardAt(s, w) && ItemOf(s, w) == item && ForwardStageOf(s, w).Guarded? && source in s.liveVouchers
    requires L.CanAcquire(s.locks, RecordKey(item), w, s.now)
    ensures GoesToSend(s, w, item, source)
  {
    hide RecordKey, Marker, Enabled, Assumed, Next, Legal, AllAssumed, Run, OnItem;
    var m := MarkerOf(item, false);
    var present := m in s.workers[w].asked ==> s.workers[w].asked[m];
    var a, b, c := ByForward(w, TakeRecord), ByForward(w, Enter), ByForward(w, AskTally(present, false));
    TakeStep(s, w);
    var s1 := AfterTakeRecord(s, w);
    EnterStep(s1, w);
    var s2 := MoveForward(s1, w, Asking(false));
    AskStep(s2, w, present, false);
    var s3 := AfterAskTally(s2, w, present, false);
    ThreeSteps(s, s1, s2, s3, a, b, c);
    assert SendsCopy(Run(s, [a, b, c]), w, item, source);
  }

  lemma ThreeSteps(s: State, s1: State, s2: State, s3: State, a: Step, b: Step, c: Step)
    requires Enabled(s, a) && Assumed(s, a) && Next(s, a) == s1
    requires Enabled(s1, b) && Assumed(s1, b) && Next(s1, b) == s2
    requires Enabled(s2, c) && Assumed(s2, c) && Next(s2, c) == s3
    ensures Legal(s, [a, b, c]) && AllAssumed(s, [a, b, c]) && Run(s, [a, b, c]) == s3
  {
    hide Enabled, Assumed, Next;
    assert [a, b, c][1..] == [b, c] && [b, c][1..] == [c] && [c][1..] == [];
    assert Legal(s3, []) && Run(s3, []) == s3 && AllAssumed(s3, []);
    assert Legal(s2, [c]) && Run(s2, [c]) == s3 && AllAssumed(s2, [c]);
    assert Legal(s1, [b, c]) && Run(s1, [b, c]) == s3 && AllAssumed(s1, [b, c]);
  }

  /** The guard asks check_exists about a GUID, and that compares narrations. With this
      oracle, a mapped imported order whose record lock is free goes on to Tally while its
      source voucher lives if and only if no living voucher's narration spells the GUID. */
  lemma OwnOraclePushesIff(s: State, w: string, notes: string, mapped: Option<Row>)
    requires CanGuard(s, w, notes, mapped) && FromTally(mapped) && SourceName(mapped.value) != ""
    requires SourceName(mapped.value) in s.liveVouchers
    requires L.CanAcquire(s.locks, RecordKey(s.workers[w].todo[0]), w, s.now)
    ensures var item, source := s.workers[w].todo[0], SourceName(mapped.value);
            GoesToSend(AfterGuard(s, w, notes, mapped, NarrationInTally(s, source)), w, item, source)
            <==> !NarrationInTally(s, source)
  {
    hide GoesToSend, NarrationInTally, RecordKey, Best, TargetHits, Deleted;
    var item, source := s.workers[w].todo[0], SourceName(mapped.value);
    var s' := AfterGuard(s, w, notes, mapped, NarrationInTally(s, source));
    if NarrationInTally(s, source) {
      NoJobNoSend(s', w, item, source);
    } else {
      GuardedGoesToSend(s', w, item, source);
    }
  }
}
