/** The two-way sync protocol as a state machine: forward workers
    (run_sync_pipeline of app/sync/base.py driving app/connectors/tally/client.py)
    and reverse workers (the rental-order part of app/sync/tally_to_rentasst.py) over
    one lock table and one mapping table, with RentAsst and Tally as servers whose
    users add and delete records at any time. Each table operation and each remote
    call is one step, replies are part of the step, and any worker may crash between
    any two steps. */
module Protocol {
  import opened Text
  import opened Wrappers
  import opened Markers
  import opened MappingTable
  import L = Locks

  const FORWARD_LEASE := 300
  const REVERSE_LEASE := 120

  datatype Item = Item(kind: Kind, id: string)

  /** How forward sync came to push a record: the Tally voucher its payload was imported
      from, if any, and the one named by the mapping its guard dropped, if it did. */
  datatype Push = Push(item: Item, copyOf: Option<string>, dropped: Option<string>)

  /** `pushed` is None for a voucher a user entered. */
  datatype Voucher = Voucher(number: string, narration: string, pushed: Option<Push>)

  /** `origin` remembers which Tally voucher reverse sync made the rentout from. */
  datatype Rentout = Rentout(number: string, notes: string, origin: Option<string>)

  datatype ForwardStage =
    | Guarded                               // past the reverse-mapping guard, no lock yet
    | Holding                               // record lock taken
    | Asking(retry: bool)                   // inside sync_func, before check_exists
    | Sending(retry: bool, create: bool)    // Create or Alter decided
    | Saving(retry: bool)                   // Tally confirmed, mapping not saved yet
    | Leaving                               // only the lock is left to release

  datatype ReverseStage =
    | Entered                               // voucher lock taken
    | Mapped(target: string)                // a mapping by guid was read
    | Unmapped                              // no mapping by guid
    | Numbered(target: string)              // a forward mapping under the voucher number
    | Listing                               // before the cloud list
    | Absent                                // judged not a duplicate
    | Pushed(rid: string)                   // rentout created, mapping not saved yet
    | Left                                  // only the lock is left to release

  datatype ForwardJob = ForwardJob(item: Item, dropped: Option<string>, stage: ForwardStage, until: int)
  datatype ReverseJob = ReverseJob(guid: string, stage: ReverseStage, until: int)

  /** `seen` is RentAsst's orders as fetched, and `asked` the TallyClient's existence
      cache; both live for one pass. */
  datatype Worker =
    | Forward(todo: seq<Item>, seen: map<string, Rentout>, asked: map<string, bool>, fjob: Option<ForwardJob>)
    | Reverse(guids: seq<string>, rjob: Option<ReverseJob>)

  /** `vouchers` holds every voucher that ever existed, `rentouts` the last record of each
      number that was ever in use. */
  datatype State = State(
    now: int,
    locks: L.LockTable,
    rows: Table,
    vouchers: map<string, Voucher>,
    liveVouchers: set<string>,
    rentouts: map<string, Rentout>,
    liveRentouts: set<string>,
    workers: map<string, Worker>
  )

  datatype AfterReject = Resend | Fallback | GiveUp
  datatype Reply = Accepted | Dropped(landed: bool) | Rejected(next: AfterReject)

  datatype WorldAct =
    | Tick(elapsed: nat)
    | Purge
    | AddRentout(rid: string, rentout: Rentout)
    | DeleteRentout(rid: string)
    | AddVoucher(guid: string, voucher: Voucher)
    | DeleteVoucher(guid: string)
    | Crash(w: string)

  datatype ForwardAct =
    | FetchItems(items: seq<Item>)
    | Guard(notes: string, mapped: Option<Row>, inTally: bool)
    | TakeRecord
    | Settle(adopt: bool, hash: string)
    | Enter
    | AskTally(present: bool, remember: bool)
    | Send(reply: Reply, guid: string, number: string)
    | SaveForward(stored: bool, hash: string)
    | ReleaseRecord

  datatype ReverseAct =
    | FetchVouchers(fetched: seq<string>)
    | TakeVoucher
    | Classify(mapped: Option<Row>, stored: bool)
    | LookNumber(mapped: Option<Row>)
    | AskRentAsst(present: bool)
    | ListRentouts(listed: Option<set<string>>, pick: Option<string>, stored: bool)
    | PushRentout(reply: Reply, rid: string)
    | ReserveNew
    | SaveReverse(stored: bool)
    | FreeNew(rid: string)
    | Fail
    | ReleaseVoucher

  datatype Step =
    | ByWorld(world: WorldAct)
    | ByForward(w: string, forward: ForwardAct)
    | ByReverse(w: string, reverse: ReverseAct)

  function Entity(kind: Kind): string {
    match kind
    case Order => "rental_order"
    case Invoice => "invoice"
    case Payment => "payment"
  }

  function MarkerOf(item: Item, retry: bool): string {
    Marker(item.kind, item.id, retry)
  }

  /** The lock a forward worker holds on a record. */
  function RecordKey(item: Item): string {
    "default:" + Entity(item.kind) + (":" + "forward" + ":") + Strip(item.id)
  }

  /** The lock a reverse worker holds on a voucher. */
  function VoucherKey(guid: string): string {
    "default:" + "rental_order" + (":" + "reverse-self" + ":") + Strip(guid)
  }

  function ForwardKey(item: Item): string {
    "default:" + Entity(item.kind) + ":" + Strip(item.id) + (":" + "forward")
  }

  function ReverseKey(guid: string): string {
    "default:" + "rental_order" + ":" + Strip(guid) + (":" + "reverse")
  }

  lemma PlainKeys(company: string, entity: string, direction: string, id: string)
    requires PlainWord(company) && PlainWord(entity) && PlainWord(direction)
    ensures L.LockKey(company, entity, direction, id) == company + ":" + entity + ":" + direction + ":" + Strip(id)
    ensures IntegrationKey(company, entity, id, direction) == company + ":" + entity + ":" + Strip(id) + ":" + direction
  {
    PlainWordStays(company);
    PlainWordStays(entity);
    PlainWordStays(direction);
  }

  /** The four keys are those of generate_lock_key and generate_integration_key. */
  lemma KeysAreGenerated(item: Item, guid: string)
    ensures RecordKey(item) == L.LockKey("default", Entity(item.kind), "forward", item.id)
    ensures VoucherKey(guid) == L.LockKey("default", "rental_order", "reverse-self", guid)
    ensures ForwardKey(item) == IntegrationKey("default", Entity(item.kind), item.id, "forward")
    ensures ReverseKey(guid) == IntegrationKey("default", "rental_order", guid, "reverse")
  {
    hide L.LockKey, IntegrationKey;
    WordsArePlain();
    EntityIsPlain(item.kind);
    PlainKeys("default", Entity(item.kind), "forward", item.id);
    PlainKeys("default", "rental_order", "reverse-self", guid);
    PlainKeys("default", "rental_order", "reverse", guid);
    JoinedByColons(Entity(item.kind), "forward", Strip(item.id));
    JoinedByColons("rental_order", "reverse-self", Strip(guid));
    JoinedByColons("rental_order", "reverse", Strip(guid));
  }

  lemma EntityIsPlain(kind: Kind)
    ensures PlainWord(Entity(kind))
  {
  }

  lemma WordsArePlain()
    ensures PlainWord("default") && PlainWord("forward") && PlainWord("rental_order")
    ensures PlainWord("reverse-self") && PlainWord("reverse")
  {
  }

  lemma JoinedByColons(entity: string, direction: string, id: string)
    ensures "default:" + entity + (":" + direction + ":") + id == "default" + ":" + entity + ":" + direction + ":" + id
    ensures "default:" + entity + ":" + id + (":" + direction) == "default" + ":" + entity + ":" + id + ":" + direction
  {
  }

  const IMPORTED_ORDER := "Imported from Tally Sales Order #"

  /** The rentout reverse sync posts for a voucher. */
  function RentoutFrom(guid: string, v: Voucher): Rentout {
    Rentout(if v.number != "" then v.number else "ORD-" + guid[..if |guid| < 8 then |guid| else 8],
            IMPORTED_ORDER + v.number, Some(guid))
  }

  /** The cloud deduplication test of is_tally_voucher_duplicate. */
  ghost predicate Matches(r: Rentout, number: string, guid: string) {
    var n, num, notes := Strip(number), Strip(r.number), Strip(r.notes);
    num == n || num == "ORD-" + n || EndsWith(notes, "#" + n) || (Strip(guid) != "" && Contains(notes, Strip(guid)))
  }

  function ForwardRow(item: Item, target: string, hash: string): Row {
    NewRow(Entity(item.kind), item.id, target, "rentasst", "default", "tally", "default",
           ForwardKey(item), Some(hash), "synced")
  }

  /** The row is_own_forward_sync_voucher backfills. */
  function BackfillRow(kind: Kind, id: string, marker: string): Row {
    NewRow(Entity(kind), id, marker, "rentasst", "default", "tally", "default", "", None, "synced")
  }

  function ReverseRow(guid: string, rid: string): Row {
    NewRow("rental_order", guid, rid, "tally", "default", "rentasst", "default",
           ReverseKey(guid), None, "synced")
  }

  predicate InForwardSection(worker: Worker) {
    worker.Forward? && worker.fjob.Some? && !worker.fjob.value.stage.Guarded?
  }

  predicate InReverseSection(worker: Worker) {
    worker.Reverse? && worker.rjob.Some?
  }

  predicate InSection(worker: Worker) {
    InForwardSection(worker) || InReverseSection(worker)
  }

  function SectionKey(worker: Worker): string
    requires InSection(worker)
  {
    if worker.Forward? then RecordKey(worker.fjob.value.item) else VoucherKey(worker.rjob.value.guid)
  }

  function SectionEnd(worker: Worker): int
    requires InSection(worker)
  {
    if worker.Forward? then worker.fjob.value.until else worker.rjob.value.until
  }

  predicate ForwardAt(s: State, w: string) {
    w in s.workers && s.workers[w].Forward? && s.workers[w].fjob.Some?
  }

  function ForwardStageOf(s: State, w: string): ForwardStage
    requires ForwardAt(s, w)
  {
    s.workers[w].fjob.value.stage
  }

  predicate ReverseAt(s: State, w: string) {
    w in s.workers && s.workers[w].Reverse? && s.workers[w].rjob.Some?
    && s.workers[w].rjob.value.guid in s.vouchers
  }

  function ReverseStageOf(s: State, w: string): ReverseStage
    requires ReverseAt(s, w)
  {
    s.workers[w].rjob.value.stage
  }

  predicate FreeForward(s: State, w: string) {
    w in s.workers && s.workers[w].Forward? && s.workers[w].fjob == None && s.workers[w].todo != []
  }

  predicate FreeReverse(s: State, w: string) {
    w in s.workers && s.workers[w].Reverse? && s.workers[w].rjob == None && s.workers[w].guids != []
  }

  // ---------- steps of the outside world ----------

  function AfterAddRentout(s: State, rid: string, r: Rentout): State {
    s.(rentouts := s.rentouts[rid := r], liveRentouts := s.liveRentouts + {rid})
  }

  function AfterAddVoucher(s: State, g: string, v: Voucher): State {
    s.(vouchers := s.vouchers[g := v], liveVouchers := s.liveVouchers + {g})
  }

  predicate CanFetchForward(s: State, w: string, items: seq<Item>) {
    w != "" && w !in s.workers && forall i :: i in items && i.kind == Order ==> i.id in s.liveRentouts
  }

  function AfterFetchForward(s: State, w: string, items: seq<Item>): State {
    s.(workers := s.workers[w := Forward(items, s.rentouts, map[], None)])
  }

  predicate CanFetchReverse(s: State, w: string, guids: seq<string>) {
    w != "" && w !in s.workers && forall g :: g in guids ==> g in s.liveVouchers
  }

  function AfterFetchReverse(s: State, w: string, guids: seq<string>): State {
    s.(workers := s.workers[w := Reverse(guids, None)])
  }

  // ---------- forward sync: one item of run_sync_pipeline ----------

  function MoveForward(s: State, w: string, stage: ForwardStage): State
    requires ForwardAt(s, w)
  {
    var worker := s.workers[w];
    s.(workers := s.workers[w := worker.(fjob := Some(worker.fjob.value.(stage := stage)))])
  }

  function ItemOf(s: State, w: string): Item
    requires ForwardAt(s, w)
  {
    s.workers[w].fjob.value.item
  }

  /** The voucher the payload in hand was imported from. */
  function CopyOf(worker: Worker, item: Item): Option<string>
    requires worker.Forward?
  {
    if item.kind == Order && item.id in worker.seen then worker.seen[item.id].origin else None
  }

  ghost predicate CanGuard(s: State, w: string, notes: string, mapped: Option<Row>) {
    && FreeForward(s, w)
    && var item := s.workers[w].todo[0];
       && (item.kind == Order && item.id in s.workers[w].seen ==> notes == s.workers[w].seen[item.id].notes)
       && Best(s.rows, TargetHits(s.rows, "default", Entity(item.kind), "rentasst", item.id), mapped)
  }

  predicate GuardSkips(item: Item, notes: string, mapped: Option<Row>, inTally: bool) {
    if FromTally(mapped) then SourceName(mapped.value) == "" || inTally
    else (item.kind == Order || item.kind == Invoice) && IMPORTED <= notes
  }

  function DroppedBy(mapped: Option<Row>): Option<string> {
    if FromTally(mapped) then Some(SourceName(mapped.value)) else None
  }

  function AfterGuard(s: State, w: string, notes: string, mapped: Option<Row>, inTally: bool): State
    requires FreeForward(s, w)
  {
    var item, rest := s.workers[w].todo[0], s.workers[w].(todo := s.workers[w].todo[1..]);
    if GuardSkips(item, notes, mapped, inTally) then s.(workers := s.workers[w := rest])
    else
      s.(workers := s.workers[w := rest.(fjob := Some(ForwardJob(item, DroppedBy(mapped), Guarded, 0)))],
         rows := if FromTally(mapped) then Deleted(s.rows, Entity(item.kind), SourceName(mapped.value)) else s.rows)
  }

  /** A refused lock makes the pipeline skip the item. */
  function AfterTakeRecord(s: State, w: string): State
    requires ForwardAt(s, w)
  {
    var worker, key := s.workers[w], RecordKey(ItemOf(s, w));
    if L.CanAcquire(s.locks, key, w, s.now) then
      s.(locks := L.AfterAcquire(s.locks, key, w, s.now, FORWARD_LEASE),
         workers := s.workers[w := worker.(fjob := Some(worker.fjob.value.(stage := Holding, until := s.now + FORWARD_LEASE)))])
    else s.(workers := s.workers[w := worker.(fjob := None)])
  }

  function Stored(t: Table, r: Row, stored: bool): Table {
    if stored then Upsert(t, r) else t
  }

  /** Every way out of the critical section without a push: invalid payload, missing
      dependency, unchanged, or (adopt) already present in Tally. */
  function AfterSettle(s: State, w: string, adopt: bool, hash: string): State
    requires ForwardAt(s, w)
  {
    MoveForward(s, w, Leaving).(rows := Stored(s.rows, ForwardRow(ItemOf(s, w), MarkerOf(ItemOf(s, w), false), hash), adopt))
  }

  predicate CanAskTally(s: State, w: string, present: bool) {
    && ForwardAt(s, w) && ForwardStageOf(s, w).Asking?
    && var m := MarkerOf(ItemOf(s, w), ForwardStageOf(s, w).retry);
       m in s.workers[w].asked ==> present == s.workers[w].asked[m]
  }

  function AfterAskTally(s: State, w: string, present: bool, remember: bool): State
    requires CanAskTally(s, w, present)
  {
    var worker, retry := s.workers[w], ForwardStageOf(s, w).retry;
    s.(workers := s.workers[w := worker.(
      fjob := Some(worker.fjob.value.(stage := Sending(retry, !present))),
      asked := if remember then worker.asked[MarkerOf(ItemOf(s, w), retry) := present] else worker.asked)])
  }

  predicate CanSend(s: State, w: string, reply: Reply, g: string) {
    && ForwardAt(s, w) && ForwardStageOf(s, w).Sending?
    && g !in s.vouchers
    && (reply.Rejected? && reply.next.Fallback? ==> ItemOf(s, w).kind == Order && !ForwardStageOf(s, w).retry)
  }

  predicate Lands(reply: Reply) {
    reply.Accepted? || (reply.Dropped? && reply.landed)
  }

  function AfterReply(stage: ForwardStage, reply: Reply): ForwardStage
    requires stage.Sending?
  {
    match reply
    case Accepted => Saving(stage.retry)
    case Dropped(_) => Leaving
    case Rejected(Resend) => stage
    case Rejected(Fallback) => Asking(true)
    case Rejected(GiveUp) => Leaving
  }

  /** The voucher a create leaves in Tally. */
  function Sent(s: State, w: string, number: string): Voucher
    requires ForwardAt(s, w) && ForwardStageOf(s, w).Sending?
  {
    var worker, item := s.workers[w], ItemOf(s, w);
    Voucher(number, MarkerOf(item, ForwardStageOf(s, w).retry), Some(Push(item, CopyOf(worker, item), worker.fjob.value.dropped)))
  }

  /** An Alter never adds a voucher; a Create adds one unless it was rejected. */
  function AfterSend(s: State, w: string, reply: Reply, g: string, number: string): State
    requires CanSend(s, w, reply, g)
  {
    var stage, item := ForwardStageOf(s, w), ItemOf(s, w);
    var s' := MoveForward(s, w, AfterReply(stage, reply));
    if stage.create && Lands(reply) then AfterAddVoucher(s', g, Sent(s, w, number)) else s'
  }

  predicate CanSaveForward(s: State, w: string) {
    ForwardAt(s, w) && ForwardStageOf(s, w).Saving?
  }

  function AfterSaveForward(s: State, w: string, stored: bool, hash: string): State
    requires CanSaveForward(s, w)
  {
    MoveForward(s, w, Leaving).(
      rows := Stored(s.rows, ForwardRow(ItemOf(s, w), MarkerOf(ItemOf(s, w), ForwardStageOf(s, w).retry), hash), stored))
  }

  function AfterReleaseRecord(s: State, w: string): State
    requires ForwardAt(s, w)
  {
    s.(locks := L.AfterRelease(s.locks, RecordKey(ItemOf(s, w)), w),
       workers := s.workers[w := s.workers[w].(fjob := None)])
  }

  // ---------- reverse sync: one voucher of the loop ----------

  function MoveReverse(s: State, w: string, stage: ReverseStage): State
    requires ReverseAt(s, w)
  {
    var worker := s.workers[w];
    s.(workers := s.workers[w := worker.(rjob := Some(worker.rjob.value.(stage := stage)))])
  }

  function GuidOf(s: State, w: string): string
    requires ReverseAt(s, w)
  {
    s.workers[w].rjob.value.guid
  }

  function VoucherOf(s: State, w: string): Voucher
    requires ReverseAt(s, w)
  {
    s.vouchers[GuidOf(s, w)]
  }

  function AfterTakeVoucher(s: State, w: string): State
    requires FreeReverse(s, w)
  {
    var g, rest := s.workers[w].guids[0], s.workers[w].(guids := s.workers[w].guids[1..]);
    if L.CanAcquire(s.locks, VoucherKey(g), w, s.now) then
      s.(locks := L.AfterAcquire(s.locks, VoucherKey(g), w, s.now, REVERSE_LEASE),
         workers := s.workers[w := rest.(rjob := Some(ReverseJob(g, Entered, s.now + REVERSE_LEASE)))])
    else s.(workers := s.workers[w := rest])
  }

  ghost predicate CanClassify(s: State, w: string, mapped: Option<Row>) {
    && ReverseAt(s, w) && ReverseStageOf(s, w).Entered?
    && var own := ParseMarker(VoucherOf(s, w).narration);
       if own.Some?
       then Best(s.rows, TargetHits(s.rows, "default", Entity(own.value.0), "tally", Strip(VoucherOf(s, w).narration)), mapped)
       else mapped.Some? ==> mapped.value.entity == "rental_order" && mapped.value.source == GuidOf(s, w)
  }

  /** The mapping by guid comes through the store's cache; it is current when it is what
      the table holds. */
  ghost predicate CurrentLookup(s: State, w: string, mapped: Option<Row>)
    requires ReverseAt(s, w)
  {
    IsOwnMarker(VoucherOf(s, w).narration) || Best(s.rows, SourceHits(s.rows, "default", "rental_order", GuidOf(s, w)), mapped)
  }

  /** is_own_forward_sync_voucher first, with its backfill; then the mapping by guid. */
  function AfterClassify(s: State, w: string, mapped: Option<Row>, stored: bool): State
    requires ReverseAt(s, w)
  {
    var own := ParseMarker(VoucherOf(s, w).narration);
    if own.Some? then
      MoveReverse(s, w, Left).(
        rows := Stored(s.rows, BackfillRow(own.value.0, own.value.1, Strip(VoucherOf(s, w).narration)), mapped == None && stored))
    else if mapped.Some? && mapped.value.target != "" then MoveReverse(s, w, Mapped(mapped.value.target))
    else MoveReverse(s, w, Unmapped)
  }

  /** get_rentasst_id tried with the number itself, then RENT- and ORD- in front. */
  ghost predicate NumberLookup(t: Table, n: string, answer: Option<Row>) {
    var a := TargetHits(t, "default", "rental_order", "tally", n);
    var b := TargetHits(t, "default", "rental_order", "tally", "RENT-" + n);
    var c := TargetHits(t, "default", "rental_order", "tally", "ORD-" + n);
    if n == "" then answer == None
    else if a != {} then Best(t, a, answer)
    else if b != {} then Best(t, b, answer)
    else Best(t, c, answer)
  }

  ghost predicate CanLookNumber(s: State, w: string, mapped: Option<Row>) {
    ReverseAt(s, w) && ReverseStageOf(s, w).Unmapped? && NumberLookup(s.rows, Strip(VoucherOf(s, w).number), mapped)
  }

  function AfterLookNumber(s: State, w: string, mapped: Option<Row>): State
    requires ReverseAt(s, w)
  {
    MoveReverse(s, w, if mapped.Some? then Numbered(SourceName(mapped.value)) else Listing)
  }

  predicate CanAskRentAsst(s: State, w: string) {
    ReverseAt(s, w) && (ReverseStageOf(s, w).Mapped? || ReverseStageOf(s, w).Numbered?)
  }

  /** A mapping whose rentout is gone is dropped, and the voucher is then judged new
      without consulting the cloud list. */
  function AfterAskRentAsst(s: State, w: string, present: bool): State
    requires CanAskRentAsst(s, w)
  {
    var stage := ReverseStageOf(s, w);
    if present then MoveReverse(s, w, Left)
    else MoveReverse(s, w, Absent).(
      rows := Deleted(s.rows, "rental_order", if stage.Mapped? then GuidOf(s, w) else stage.target))
  }

  ghost predicate CanListRentouts(s: State, w: string, listed: Option<set<string>>, pick: Option<string>) {
    && ReverseAt(s, w) && ReverseStageOf(s, w).Listing?
    && (listed == None ==> pick == None)
    && (listed.Some? ==>
          && listed.value <= s.rentouts.Keys
          && (pick.Some? ==> pick.value in listed.value && Matches(s.rentouts[pick.value], VoucherOf(s, w).number, GuidOf(s, w)))
          && (pick == None ==>
                forall r :: r in listed.value ==> !Matches(s.rentouts[r], VoucherOf(s, w).number, GuidOf(s, w))))
  }

  /** A failed list, or a failed save of the adopted mapping, is swallowed and falls
      through to "not a duplicate". */
  function AfterListRentouts(s: State, w: string, pick: Option<string>, stored: bool): State
    requires ReverseAt(s, w)
  {
    if pick.Some? && stored then
      MoveReverse(s, w, Left).(rows := Upsert(s.rows, ReverseRow(GuidOf(s, w), pick.value)))
    else MoveReverse(s, w, Absent)
  }

  predicate CanPushRentout(s: State, w: string, rid: string) {
    ReverseAt(s, w) && ReverseStageOf(s, w).Absent? && rid !in s.liveRentouts
  }

  function AfterPushRentout(s: State, w: string, reply: Reply, rid: string): State
    requires CanPushRentout(s, w, rid)
  {
    var s' := MoveReverse(s, w, if reply.Accepted? then Pushed(rid) else Left);
    if Lands(reply) then AfterAddRentout(s', rid, RentoutFrom(GuidOf(s, w), VoucherOf(s, w))) else s'
  }

  predicate CanReserveNew(s: State, w: string) {
    ReverseAt(s, w) && ReverseStageOf(s, w).Pushed?
  }

  /** The new rentout's forward key is reserved; the answer is ignored. */
  function AfterReserveNew(s: State, w: string): State
    requires CanReserveNew(s, w)
  {
    s.(locks := L.AfterAcquire(s.locks, RecordKey(Item(Order, ReverseStageOf(s, w).rid)), w, s.now, REVERSE_LEASE))
  }

  function AfterSaveReverse(s: State, w: string, stored: bool): State
    requires CanReserveNew(s, w)
  {
    MoveReverse(s, w, Left).(rows := Stored(s.rows, ReverseRow(GuidOf(s, w), ReverseStageOf(s, w).rid), stored))
  }

  function AfterFreeNew(s: State, w: string, rid: string): State {
    s.(locks := L.AfterRelease(s.locks, RecordKey(Item(Order, rid)), w))
  }

  /** An exception anywhere in the voucher's section is caught by the loop. */
  function AfterFail(s: State, w: string): State
    requires ReverseAt(s, w)
  {
    MoveReverse(s, w, Left)
  }

  function AfterReleaseVoucher(s: State, w: string): State
    requires ReverseAt(s, w)
  {
    s.(locks := L.AfterRelease(s.locks, VoucherKey(GuidOf(s, w)), w),
       workers := s.workers[w := s.workers[w].(rjob := None)])
  }

  // ---------- the machine ----------

  predicate WorldCan(s: State, a: WorldAct) {
    match a
    case AddRentout(rid, r) => rid !in s.liveRentouts && r.origin == None
    case AddVoucher(g, v) => g !in s.vouchers && v.pushed == None
    case _ => true
  }

  function AfterWorld(s: State, a: WorldAct): State {
    match a
    case Tick(d) => s.(now := s.now + d)
    case Purge => s.(locks := L.Purged(s.locks, s.now))
    case AddRentout(rid, r) => AfterAddRentout(s, rid, r)
    case DeleteRentout(rid) => s.(liveRentouts := s.liveRentouts - {rid})
    case AddVoucher(g, v) => AfterAddVoucher(s, g, v)
    case DeleteVoucher(g) => s.(liveVouchers := s.liveVouchers - {g})
    case Crash(w) => s.(workers := s.workers - {w})
  }

  /** Program order of a forward worker, and what the tables determine. */
  ghost predicate ForwardCan(s: State, w: string, a: ForwardAct) {
    match a
    case FetchItems(items) => CanFetchForward(s, w, items)
    case Guard(notes, mapped, _) => CanGuard(s, w, notes, mapped)
    case TakeRecord => ForwardAt(s, w) && ForwardStageOf(s, w).Guarded?
    case Settle(_, _) => ForwardAt(s, w) && ForwardStageOf(s, w).Holding?
    case Enter => ForwardAt(s, w) && ForwardStageOf(s, w).Holding?
    case AskTally(present, _) => CanAskTally(s, w, present)
    case Send(reply, g, _) => CanSend(s, w, reply, g)
    case SaveForward(_, _) => CanSaveForward(s, w)
    case ReleaseRecord => ForwardAt(s, w) && ForwardStageOf(s, w).Leaving?
  }

  ghost function AfterForward(s: State, w: string, a: ForwardAct): State
    requires ForwardCan(s, w, a)
  {
    match a
    case FetchItems(items) => AfterFetchForward(s, w, items)
    case Guard(notes, mapped, inTally) => AfterGuard(s, w, notes, mapped, inTally)
    case TakeRecord => AfterTakeRecord(s, w)
    case Settle(adopt, hash) => AfterSettle(s, w, adopt, hash)
    case Enter => MoveForward(s, w, Asking(false))
    case AskTally(present, remember) => AfterAskTally(s, w, present, remember)
    case Send(reply, g, number) => AfterSend(s, w, reply, g, number)
    case SaveForward(stored, hash) => AfterSaveForward(s, w, stored, hash)
    case ReleaseRecord => AfterReleaseRecord(s, w)
  }

  /** Program order of a reverse worker, and what the tables and servers determine. */
  ghost predicate ReverseCan(s: State, w: string, a: ReverseAct) {
    match a
    case FetchVouchers(guids) => CanFetchReverse(s, w, guids)
    case TakeVoucher => FreeReverse(s, w)
    case Classify(mapped, _) => CanClassify(s, w, mapped)
    case LookNumber(mapped) => CanLookNumber(s, w, mapped)
    case AskRentAsst(_) => CanAskRentAsst(s, w)
    case ListRentouts(listed, pick, _) => CanListRentouts(s, w, listed, pick)
    case PushRentout(_, rid) => CanPushRentout(s, w, rid)
    case ReserveNew => CanReserveNew(s, w)
    case SaveReverse(_) => CanReserveNew(s, w)
    case FreeNew(_) => ReverseAt(s, w) && ReverseStageOf(s, w).Left?
    case Fail => ReverseAt(s, w)
    case ReleaseVoucher => ReverseAt(s, w) && ReverseStageOf(s, w).Left?
  }

  ghost function AfterReverse(s: State, w: string, a: ReverseAct): State
    requires ReverseCan(s, w, a)
  {
    match a
    case FetchVouchers(guids) => AfterFetchReverse(s, w, guids)
    case TakeVoucher => AfterTakeVoucher(s, w)
    case Classify(mapped, stored) => AfterClassify(s, w, mapped, stored)
    case LookNumber(mapped) => AfterLookNumber(s, w, mapped)
    case AskRentAsst(present) => AfterAskRentAsst(s, w, present)
    case ListRentouts(_, pick, stored) => AfterListRentouts(s, w, pick, stored)
    case PushRentout(reply, rid) => AfterPushRentout(s, w, reply, rid)
    case ReserveNew => AfterReserveNew(s, w)
    case SaveReverse(stored) => AfterSaveReverse(s, w, stored)
    case FreeNew(rid) => AfterFreeNew(s, w, rid)
    case Fail => AfterFail(s, w)
    case ReleaseVoucher => AfterReleaseVoucher(s, w)
  }

  ghost predicate Enabled(s: State, step: Step) {
    match step
    case ByWorld(a) => WorldCan(s, a)
    case ByForward(w, a) => ForwardCan(s, w, a)
    case ByReverse(w, a) => ReverseCan(s, w, a)
  }

  ghost function Next(s: State, step: Step): State
    requires Enabled(s, step)
  {
    match step
    case ByWorld(a) => AfterWorld(s, a)
    case ByForward(w, a) => AfterForward(s, w, a)
    case ByReverse(w, a) => AfterReverse(s, w, a)
  }

  // ---------- what the theorems assume of the world ----------

  predicate Distinct<T(==)>(xs: seq<T>) {
    forall i, j :: 0 <= i < j < |xs| ==> xs[i] != xs[j]
  }

  /** Every critical section ends within its lease. */
  predicate TickInTime(s: State, elapsed: nat) {
    forall w :: w in s.workers && InSection(s.workers[w]) ==> s.now + elapsed < SectionEnd(s.workers[w])
  }

  /** A voucher number that identifies its voucher: not blank, not a marker, and
      matching no living rentout and none that comes from another voucher. */
  ghost predicate NumberIsApart(s: State, guid: string, v: Voucher) {
    && Strip(v.number) != "" && !("RENTAL-" <= Strip(v.number))
    && (forall r :: r in s.liveRentouts && r in s.rentouts ==> !Matches(s.rentouts[r], v.number, guid))
    && (forall g :: g in s.vouchers && !IsOwnMarker(s.vouchers[g].narration) ==>
          !Matches(RentoutFrom(g, s.vouchers[g]), v.number, guid)
          && !Matches(RentoutFrom(guid, v), s.vouchers[g].number, g))
  }

  /** Tally GUIDs are not plain numbers. */
  predicate FreshGuid(s: State, guid: string) {
    guid != "" && !Numeric(guid) && guid !in s.vouchers
  }

  /** Users number their own orders apart from the Tally vouchers to be imported. */
  ghost predicate NativeRentout(s: State, rid: string, r: Rentout) {
    && Numeric(rid)
    && forall g :: g in s.vouchers && !IsOwnMarker(s.vouchers[g].narration) ==> !Matches(r, s.vouchers[g].number, g)
  }

  /** Users of Tally do not write RENTAL- narrations. */
  ghost predicate NativeVoucher(s: State, g: string, v: Voucher) {
    FreshGuid(s, g) && !("RENTAL-" <= Strip(v.narration)) && !("RENTAL-" <= v.narration)
    && NumberIsApart(s, g, v)
  }

  predicate CleanFetch(items: seq<Item>) {
    Distinct(items) && forall i :: i in items ==> Numeric(i.id)
  }

  predicate GuardTruthful(s: State, mapped: Option<Row>, inTally: bool) {
    mapped.Some? && !inTally ==> SourceName(mapped.value) !in s.liveVouchers
  }

  predicate NotInTally(s: State, m: string) {
    forall g :: g in s.liveVouchers && g in s.vouchers ==> s.vouchers[g].narration != m
  }

  /** check_exists answers truthfully, or raises, which counts as present. */
  predicate TallyTruthful(s: State, w: string, present: bool)
    requires CanAskTally(s, w, present)
  {
    var m := MarkerOf(ItemOf(s, w), ForwardStageOf(s, w).retry);
    !present && m !in s.workers[w].asked ==> NotInTally(s, m)
  }

  ghost predicate SendFresh(s: State, w: string, reply: Reply, g: string, number: string)
    requires CanSend(s, w, reply, g)
  {
    ForwardStageOf(s, w).create && Lands(reply) ==>
      && FreshGuid(s, g)
      && (ForwardStageOf(s, w).retry ==>
            NumberIsApart(s, g, Sent(s, w, number)))
  }

  predicate RentAsstTruthful(s: State, w: string, present: bool)
    requires CanAskRentAsst(s, w)
  {
    !present ==> ReverseStageOf(s, w).target !in s.liveRentouts
  }

  predicate ListComplete(s: State, listed: Option<set<string>>, pick: Option<string>, stored: bool) {
    listed == Some(s.liveRentouts) && (pick.Some? ==> stored)
  }

  ghost predicate WorldAssumed(s: State, a: WorldAct) {
    match a
    case Tick(d) => TickInTime(s, d)
    case AddRentout(rid, r) => NativeRentout(s, rid, r)
    case AddVoucher(g, v) => NativeVoucher(s, g, v)
    case _ => true
  }

  ghost predicate ForwardAssumed(s: State, w: string, a: ForwardAct)
    requires ForwardCan(s, w, a)
  {
    match a
    case FetchItems(items) => CleanFetch(items)
    case Guard(_, mapped, inTally) => GuardTruthful(s, mapped, inTally)
    case AskTally(present, _) => TallyTruthful(s, w, present)
    case Send(reply, g, number) => SendFresh(s, w, reply, g, number)
    case _ => true
  }

  ghost predicate ReverseAssumed(s: State, w: string, a: ReverseAct)
    requires ReverseCan(s, w, a)
  {
    match a
    case FetchVouchers(guids) => Distinct(guids)
    case AskRentAsst(present) => RentAsstTruthful(s, w, present)
    case ListRentouts(listed, pick, stored) => ListComplete(s, listed, pick, stored)
    case Classify(mapped, _) => CurrentLookup(s, w, mapped)
    case PushRentout(reply, rid) => Lands(reply) ==> Numeric(rid)
    case _ => true
  }

  ghost predicate Assumed(s: State, step: Step)
    requires Enabled(s, step)
  {
    match step
    case ByWorld(a) => WorldAssumed(s, a)
    case ByForward(w, a) => ForwardAssumed(s, w, a)
    case ByReverse(w, a) => ReverseAssumed(s, w, a)
  }

  // ---------- runs ----------

  ghost predicate Legal(s: State, steps: seq<Step>)
    decreases |steps|
  {
    steps == [] || (Enabled(s, steps[0]) && Legal(Next(s, steps[0]), steps[1..]))
  }

  ghost function Run(s: State, steps: seq<Step>): State
    requires Legal(s, steps)
    decreases |steps|
  {
    if steps == [] then s else Run(Next(s, steps[0]), steps[1..])
  }

  ghost predicate AllAssumed(s: State, steps: seq<Step>)
    requires Legal(s, steps)
    decreases |steps|
  {
    steps == [] || (Assumed(s, steps[0]) && AllAssumed(Next(s, steps[0]), steps[1..]))
  }

  const FRESH_INSTALL := State(0, map[], map[], map[], {}, map[], {}, map[])
}
