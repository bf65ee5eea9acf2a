/** How many living vouchers one record of RentAsst has in Tally. */
module ProtocolItems {
  import opened Text
  import opened Wrappers
  import opened Markers
  import opened MappingTable
  import opened Protocol
  import opened ProtocolLocks
  import opened ProtocolTally
  import opened ProtocolRentouts
  import opened ProtocolPing
  import opened ProtocolTheorems

  predicate Stamped(v: Voucher) {
    if v.pushed == None then !("RENTAL-" <= v.narration)
    else
      var item := v.pushed.value.item;
      Numeric(item.id) && (v.narration == MarkerOf(item, false) || v.narration == MarkerOf(item, true))
  }

  predicate AllStamped(s: State) {
    forall g :: g in s.vouchers ==> Stamped(s.vouchers[g])
  }

  ghost predicate SoundAndStamped(s: State) {
    Sound(s) && AllStamped(s)
  }

  lemma NewVoucherIsStamped(s: State, step: Step)
    requires Sound(s) && Enabled(s, step) && Assumed(s, step) && NewVoucher(s, step).Some?
    ensures Stamped(NewVoucher(s, step).value)
  {
    hide RentoutsSound, PingSound, LeasesHeld, MarkersUnique, Marker, Numeric, NumberIsApart, CopyOf;
    if step.ByForward? {
      assert WorkerSound(s, s.workers[step.w]);
    }
  }

  /** Every step keeps: what forward sync pushed carries one of its item's two markers,
      and what users entered carries none. */
  lemma StampsKept(s: State, step: Step)
    requires SoundAndStamped(s) && Enabled(s, step) && Assumed(s, step)
    ensures SoundAndStamped(Next(s, step))
  {
    hide Sound, Enabled, Assumed, Next, NewVoucher, Stamped;
    SoundKept(s, step);
    VouchersAfter(s, step);
    if NewVoucher(s, step).Some? {
      NewVoucherIsStamped(s, step);
    }
  }

  lemma {:induction false} StampedThroughout(s: State, steps: seq<Step>)
    requires SoundAndStamped(s) && Legal(s, steps) && AllAssumed(s, steps)
    ensures SoundAndStamped(Run(s, steps))
    decreases |steps|
  {
    hide SoundAndStamped, Enabled, Assumed, Next;
    if steps != [] {
      StampsKept(s, steps[0]);
      StampedThroughout(Next(s, steps[0]), steps[1..]);
    }
  }

  lemma StampedAtStart()
    ensures SoundAndStamped(FRESH_INSTALL)
  {
    hide Sound;
    SoundAtStart();
  }

  lemma ReachableIsStamped(s: State)
    requires Reachable(s)
    ensures SoundAndStamped(s)
  {
    hide SoundAndStamped, Legal, AllAssumed, Run;
    var steps :| Legal(FRESH_INSTALL, steps) && AllAssumed(FRESH_INSTALL, steps) && Run(FRESH_INSTALL, steps) == s;
    StampedAtStart();
    StampedThroughout(FRESH_INSTALL, steps);
  }

  /** `g` is a living voucher forward sync pushed for the item. */
  predicate VoucherOfItem(s: State, g: string, item: Item) {
    g in s.liveVouchers && g in s.vouchers && s.vouchers[g].pushed.Some? && s.vouchers[g].pushed.value.item == item
  }

  /** Two living vouchers of one record carry its two markers, so it never has three. */
  lemma TwoVouchersAreThePair(s: State, g: string, h: string, k: string, item: Item)
    requires Reachable(s) && g != h && VoucherOfItem(s, g, item) && VoucherOfItem(s, h, item)
    ensures {s.vouchers[g].narration, s.vouchers[h].narration} == {MarkerOf(item, false), MarkerOf(item, true)}
    ensures VoucherOfItem(s, k, item) ==> k == g || k == h
  {
    hide Reachable, RentoutsSound, PingSound, LeasesHeld, Marker, Numeric;
    ReachableIsStamped(s);
    assert Stamped(s.vouchers[g]) && Stamped(s.vouchers[h]);
    MarkerIsRental(item, false);
    MarkerIsRental(item, true);
    if VoucherOfItem(s, k, item) {
      assert Stamped(s.vouchers[k]);
    }
  }

  // ---------- exactly when a record gets its second voucher ----------

  predicate OnePerItem(s: State) {
    forall g, h | g in s.liveVouchers && h in s.liveVouchers && g in s.vouchers && h in s.vouchers ::
      s.vouchers[g].pushed.Some? && s.vouchers[h].pushed.Some? && s.vouchers[g].pushed.value.item == s.vouchers[h].pushed.value.item
      ==> g == h
  }

  /** A create lands while a living voucher carries the item's other marker. */
  ghost predicate DoublesItem(s: State, step: Step)
    requires Enabled(s, step)
  {
    step.ByForward? && step.forward.Send? && ForwardStageOf(s, step.w).create && Lands(step.forward.reply)
    && !NotInTally(s, MarkerOf(ItemOf(s, step.w), !ForwardStageOf(s, step.w).retry))
  }

  lemma CarrierIsOfItem(s: State, h: string, item: Item, retry: bool)
    requires AllStamped(s) && h in s.vouchers && s.vouchers[h].narration == MarkerOf(item, retry) && Numeric(item.id)
    ensures s.vouchers[h].pushed.Some? && s.vouchers[h].pushed.value.item == item
  {
    hide Marker, Numeric;
    assert Stamped(s.vouchers[h]);
    MarkerIsRental(item, retry);
    var v := s.vouchers[h];
    if v.narration == MarkerOf(v.pushed.value.item, false) {
      MarkersOfItems(v.pushed.value.item, false, item, retry);
    } else {
      MarkersOfItems(v.pushed.value.item, true, item, retry);
    }
  }

  /** Any step of any party, assumed or not, gives a record its second living voucher if
      and only if it is a create that lands while a living voucher carries the record's
      other marker. The client asks about the marker it is to write, never about the
      other one. */
  lemma StepDoublesItemIff(s: State, step: Step)
    requires SoundAndStamped(s) && OnePerItem(s) && Enabled(s, step)
    ensures !OnePerItem(Next(s, step)) <==> DoublesItem(s, step)
  {
    hide Sound, AllStamped, Enabled, Next, NewVoucher, DoublesItem, OnePerItem;
    VouchersAfter(s, step);
    if NewVoucher(s, step) == None {
      FewerStayOne(s, Next(s, step));
      NoCreateNoDouble(s, step);
    } else if step.ByForward? {
      CreateDoublesIff(s, step);
    } else {
      UserVoucherDoublesNone(s, step);
    }
  }

  lemma FewerStayOne(s: State, s': State)
    requires OnePerItem(s) && s'.vouchers == s.vouchers && s'.liveVouchers <= s.liveVouchers
    ensures OnePerItem(s')
  {
  }

  lemma NoCreateNoDouble(s: State, step: Step)
    requires Enabled(s, step) && NewVoucher(s, step) == None
    ensures !DoublesItem(s, step)
  {
    hide ForwardCan, ReverseCan;
  }

  lemma UserVoucherDoublesNone(s: State, step: Step)
    requires SoundAndStamped(s) && OnePerItem(s) && Enabled(s, step) && NewVoucher(s, step).Some? && !step.ByForward?
    ensures OnePerItem(Next(s, step)) && !DoublesItem(s, step)
  {
    hide RentoutsSound, PingSound, LeasesHeld, AllStamped, MarkersUnique, WorkerSound;
  }

  /** A create asked about its own marker, and nobody has written it since. */
  lemma CreateWasAsked(s: State, step: Step)
    requires Sound(s) && Enabled(s, step) && NewVoucher(s, step).Some? && step.ByForward?
    ensures ForwardAt(s, step.w) && ForwardStageOf(s, step.w).Sending?
    ensures var item, retry := ItemOf(s, step.w), ForwardStageOf(s, step.w).retry;
            && NewVoucher(s, step).value.pushed.Some? && NewVoucher(s, step).value.pushed.value.item == item
            && NotInTally(s, MarkerOf(item, retry)) && Numeric(item.id)
            && (DoublesItem(s, step) <==> !NotInTally(s, MarkerOf(item, !retry)))
  {
    hide RentoutsSound, PingSound, LeasesHeld, MarkersUnique, Marker, Numeric, NotInTally, CopyOf;
    assert WorkerSound(s, s.workers[step.w]);
  }

  lemma CreateDoublesIff(s: State, step: Step)
    requires SoundAndStamped(s) && OnePerItem(s) && Enabled(s, step) && NewVoucher(s, step).Some? && step.ByForward?
    ensures !OnePerItem(Next(s, step)) <==> DoublesItem(s, step)
  {
    hide Enabled, Next, NewVoucher, DoublesItem, Sound, OnePerItem;
    VouchersAfter(s, step);
    CreateWasAsked(s, step);
    var v, s' := NewVoucher(s, step).value, Next(s, step);
    var g :| g !in s.vouchers && s'.vouchers == s.vouchers[g := v] && s'.liveVouchers == s.liveVouchers + {g};
    OneMoreDoublesIff(s, s', g, v, ItemOf(s, step.w), ForwardStageOf(s, step.w).retry);
  }

  lemma OneMoreDoublesIff(s: State, s': State, g: string, v: Voucher, item: Item, retry: bool)
    requires AllStamped(s) && OnePerItem(s) && g !in s.vouchers
    requires s'.vouchers == s.vouchers[g := v] && s'.liveVouchers == s.liveVouchers + {g}
    requires v.pushed.Some? && v.pushed.value.item == item && Numeric(item.id) && NotInTally(s, MarkerOf(item, retry))
    ensures !OnePerItem(s') <==> !NotInTally(s, MarkerOf(item, !retry))
  {
    hide Marker, Numeric;
    if !NotInTally(s, MarkerOf(item, !retry)) {
      var h :| h in s.liveVouchers && h in s.vouchers && s.vouchers[h].narration == MarkerOf(item, !retry);
      CarrierIsOfItem(s, h, item, !retry);
      assert s'.vouchers[h] == s.vouchers[h] && s'.vouchers[g] == v && g != h;
    } else {
      forall h | h in s.liveVouchers && h in s.vouchers && s.vouchers[h].pushed.Some?
        ensures s.vouchers[h].pushed.value.item != item
      {
        assert Stamped(s.vouchers[h]);
      }
    }
  }

  ghost predicate NeverDoubles(s: State, steps: seq<Step>)
    requires Legal(s, steps)
    decreases |steps|
  {
    steps == [] || (!DoublesItem(s, steps[0]) && NeverDoubles(Next(s, steps[0]), steps[1..]))
  }

  ghost predicate OneThroughout(s: State, steps: seq<Step>)
    requires Legal(s, steps)
    decreases |steps|
  {
    OnePerItem(s) && (steps == [] || OneThroughout(Next(s, steps[0]), steps[1..]))
  }

  lemma {:induction false} OneThroughoutFrom(s: State, steps: seq<Step>)
    requires SoundAndStamped(s) && OnePerItem(s) && Legal(s, steps) && AllAssumed(s, steps)
    ensures OneThroughout(s, steps) <==> NeverDoubles(s, steps)
    decreases |steps|
  {
    hide SoundAndStamped, OnePerItem, Enabled, Assumed, Next, DoublesItem;
    if steps != [] {
      var s' := Next(s, steps[0]);
      StampsKept(s, steps[0]);
      StepDoublesItemIff(s, steps[0]);
      if OnePerItem(s') {
        OneThroughoutFrom(s', steps[1..]);
      } else {
        assert !OneThroughout(s', steps[1..]);
      }
    }
  }

  /** So in any assumed run no record ever has two living vouchers if and only if no step
      is such a create. */
  lemma OneVoucherPerRecordIff(steps: seq<Step>)
    requires Legal(FRESH_INSTALL, steps) && AllAssumed(FRESH_INSTALL, steps)
    ensures OneThroughout(FRESH_INSTALL, steps) <==> NeverDoubles(FRESH_INSTALL, steps)
  {
    hide SoundAndStamped, Legal, AllAssumed, OneThroughout, NeverDoubles;
    StampedAtStart();
    OneThroughoutFrom(FRESH_INSTALL, steps);
  }

  // ---------- without a stuck rejection ----------

  predicate FallsBack(step: Step) {
    step.ByForward? && step.forward.Send? && step.forward.reply == Rejected(Fallback)
  }

  predicate PlainJob(worker: Worker) {
    worker.Forward? && worker.fjob.Some? ==>
      match worker.fjob.value.stage
      case Asking(retry) => !retry
      case Sending(retry, _) => !retry
      case Saving(retry) => !retry
      case _ => true
  }

  predicate PlainVoucher(v: Voucher) {
    v.pushed.Some? ==> v.narration == MarkerOf(v.pushed.value.item, false)
  }

  predicate AllPlain(s: State) {
    (forall w :: w in s.workers ==> PlainJob(s.workers[w])) && (forall g :: g in s.vouchers ==> PlainVoucher(s.vouchers[g]))
  }

  lemma PlainJobsKept(s: State, step: Step, x: string)
    requires Enabled(s, step) && !FallsBack(step) && forall w :: w in s.workers ==> PlainJob(s.workers[w])
    ensures x in Next(s, step).workers ==> PlainJob(Next(s, step).workers[x])
  {
    match step
    case ByWorld(a) =>
    case ByForward(w, a) => PlainJobsKeptByForward(s, w, a, x);
    case ByReverse(w, a) => ReverseLeavesTally(s, w, a);
      hide AfterReverse, ReverseCan;
  }

  lemma PlainJobsKeptByForward(s: State, w: string, a: ForwardAct, x: string)
    requires ForwardCan(s, w, a) && !FallsBack(ByForward(w, a)) && forall w :: w in s.workers ==> PlainJob(s.workers[w])
    ensures x in AfterForward(s, w, a).workers ==> PlainJob(AfterForward(s, w, a).workers[x])
  {
    hide RecordKey, Marker, ForwardRow, GuardSkips, Best, TargetHits, Deleted, Upsert, CopyOf;
  }

  lemma PlainKept(s: State, step: Step)
    requires AllPlain(s) && Enabled(s, step) && !FallsBack(step)
    ensures AllPlain(Next(s, step))
  {
    VouchersAfter(s, step);
    forall x | x in Next(s, step).workers ensures PlainJob(Next(s, step).workers[x]) {
      PlainJobsKept(s, step, x);
    }
    if NewVoucher(s, step).Some? {
      NewVoucherIsPlain(s, step);
    }
    hide Enabled, Next, NewVoucher, PlainJob, PlainVoucher;
  }

  lemma NewVoucherIsPlain(s: State, step: Step)
    requires AllPlain(s) && Enabled(s, step) && NewVoucher(s, step).Some?
    ensures PlainVoucher(NewVoucher(s, step).value)
  {
    hide Marker, CopyOf;
    if step.ByForward? {
      assert PlainJob(s.workers[step.w]);
    }
  }

  lemma {:induction false} PlainThroughout(s: State, steps: seq<Step>)
    requires AllPlain(s) && Legal(s, steps) && forall k :: 0 <= k < |steps| ==> !FallsBack(steps[k])
    ensures AllPlain(Run(s, steps))
    decreases |steps|
  {
    hide AllPlain, Enabled, Next, FallsBack;
    if steps != [] {
      PlainKept(s, steps[0]);
      PlainThroughout(Next(s, steps[0]), steps[1..]);
    }
  }

  /** And as long as Tally leaves no identifier stuck, a record has at most one living
      voucher, whatever else happens. */
  lemma NeverStuckNeverTwo(steps: seq<Step>)
    requires Legal(FRESH_INSTALL, steps) && AllAssumed(FRESH_INSTALL, steps)
    requires forall k :: 0 <= k < |steps| ==> !FallsBack(steps[k])
    ensures OnePerItem(Run(FRESH_INSTALL, steps))
  {
    hide Legal, AllAssumed, Run, Marker, RentoutsSound, PingSound, LeasesHeld, WorkerSound;
    var s := Run(FRESH_INSTALL, steps);
    StampedAtStart();
    StampedThroughout(FRESH_INSTALL, steps);
    PlainThroughout(FRESH_INSTALL, steps);
    forall g, h | g in s.liveVouchers && h in s.liveVouchers && g in s.vouchers && h in s.vouchers
                  && s.vouchers[g].pushed.Some? && s.vouchers[h].pushed.Some?
                  && s.vouchers[g].pushed.value.item == s.vouchers[h].pushed.value.item
      ensures g == h
    {
      assert PlainVoucher(s.vouchers[g]) && PlainVoucher(s.vouchers[h]);
      MarkerIsRental(s.vouchers[g].pushed.value.item, false);
    }
  }
}
