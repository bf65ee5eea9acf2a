/** One item of run_sync_pipeline (app/sync/base.py) with its dependency check
    (app/sync/dependencies.py), as a function of the mapping table and the answers of
    the outside world. Every caller leaves both companies at "default". */
module PipelineModel {
  import opened Text
  import opened Wrappers
  import opened MappingTable
  import opened Markers
  import opened MappingStores

  /** "" stands for an absent field; `hash` is the payload's SHA-256, taken injective. */
  datatype Item = Item(
    id: string,
    notes: string,
    identifier: string,
    hash: string,
    valid: bool,
    customer: string,
    customerName: string,
    assets: seq<string>,
    invoice: string
  )

  /** What the outside says of one item: whether the guard finds the mapped source in
      Tally, whether the target holds the identifier, and what sync_func returns or, as
      None, that it raises. */
  datatype Answers = Answers(now: int, inTally: bool, present: bool, sync: Option<string>)

  /** What the item meets in the tables: the reverse mapping found, and a free lock. */
  datatype Seen = Seen(reverse: Option<Row>, free: bool)

  datatype Outcome =
    | GuardedByMapping | GuardedByNotes | Locked | Invalid | MissingDeps | Unchanged | Adopted
    | Created | Updated | SyncRaised | SaveRefused | Aborted

  predicate Synced(o: Outcome) {
    o.Created? || o.Updated? || o.SyncRaised? || o.SaveRefused?
  }

  predicate Skipped(o: Outcome) {
    o in {GuardedByMapping, GuardedByNotes, Locked, MissingDeps, Unchanged, Adopted}
  }

  predicate Failed(o: Outcome) {
    o in {Invalid, SyncRaised, SaveRefused}
  }

  predicate Guards(entity: string) {
    entity == "rental_order" || entity == "invoice" || entity == "payment"
  }

  predicate ReadsNotes(entity: string) {
    entity == "rental_order" || entity == "invoice"
  }

  /** find_by_target answered this; entities without the guard are not looked up. */
  ghost predicate IsReverse(t: Table, entity: string, item: Item, reverse: Option<Row>) {
    if Guards(entity) then Best(t, TargetHits(t, "default", entity, "rentasst", item.id), reverse) else reverse == None
  }

  function KeyFor(entity: string, item: Item): string {
    IntegrationKey("default", entity, item.id, "forward")
  }

  function RowFor(entity: string, item: Item, target: string): Row {
    NewRow(entity, item.id, target, "rentasst", "default", "tally", "default", KeyFor(entity, item), Some(item.hash), "synced")
  }

  // ---------- dependencies ----------

  predicate Known(t: Table, entity: string, external: string) {
    TargetHits(t, "default", entity, "tally", external) != {}
  }

  predicate Mapped(t: Table, entity: string, id: string) {
    Lookup(t, "default", entity, id).Some? || Known(t, entity, id)
  }

  predicate CustomerMapped(t: Table, item: Item) {
    item.customer == "" || Mapped(t, "customer", Strip(item.customer))
    || (item.customerName != "" && Known(t, "customer", item.customerName))
  }

  predicate EquipmentMapped(t: Table, assets: seq<string>) {
    forall i :: 0 <= i < |assets| && assets[i] != "" ==> Mapped(t, "equipment", Strip(assets[i]))
  }

  predicate PaymentMapped(t: Table, item: Item) {
    if item.invoice != "" then
      Mapped(t, "invoice", Strip(item.invoice)) || Lookup(t, "default", "rental_orders", Strip(item.invoice)).Some?
    else item.customer == "" || Mapped(t, "customer", Strip(item.customer))
  }

  predicate Deps(t: Table, entity: string, item: Item) {
    if entity == "invoice" || entity == "rental_order" then CustomerMapped(t, item) && EquipmentMapped(t, item.assets)
    else if entity == "payment" then PaymentMapped(t, item)
    else true
  }

  // ---------- one item ----------

  function Guard(entity: string, item: Item, a: Answers, reverse: Option<Row>): Option<Outcome> {
    if FromTally(reverse) then
      if SourceName(reverse.value) == "" || a.inTally then Some(GuardedByMapping) else None
    else if ReadsNotes(entity) && IMPORTED <= item.notes then Some(GuardedByNotes)
    else None
  }

  function AfterGuard(t: Table, entity: string, reverse: Option<Row>): Table {
    if FromTally(reverse) then Deleted(t, entity, SourceName(reverse.value)) else t
  }

  function External(mine: Option<Row>): string {
    if mine == None then "" else Or(mine.value.target, mine.value.external)
  }

  function AfterSync(t: Table, entity: string, item: Item, a: Answers): (Table, Outcome) {
    var ext := External(Lookup(t, "default", entity, item.id));
    if a.sync == None then (t, SyncRaised)
    else
      var r := RowFor(entity, item, Or(a.sync.value, Or(ext, item.id)));
      if KeyTaken(t, r) then (t, SaveRefused) else (Upsert(t, r), if ext != "" then Updated else Created)
  }

  function AfterAdopt(t: Table, entity: string, item: Item): (Table, Outcome) {
    var r := RowFor(entity, item, item.identifier);
    if KeyTaken(t, r) then (t, Aborted) else (Upsert(t, r), Adopted)
  }

  function AfterChecks(t: Table, entity: string, item: Item, a: Answers): (Table, Outcome) {
    var keyed := KeyHits(t, KeyFor(entity, item)) != {};
    var mine := Lookup(t, "default", entity, item.id);
    if keyed && DuplicateRow(mine, item.hash) && (item.identifier == "" || a.present) then (t, Unchanged)
    else if !keyed && item.identifier != "" && a.present then AfterAdopt(t, entity, item)
    else AfterSync(t, entity, item, a)
  }

  function AfterLock(t: Table, entity: string, item: Item, a: Answers, free: bool): (Table, Outcome) {
    if !free then (t, Locked)
    else if !item.valid then (t, Invalid)
    else if !Deps(t, entity, item) then (t, MissingDeps)
    else AfterChecks(t, entity, item, a)
  }

  function AfterItem(t: Table, entity: string, item: Item, a: Answers, seen: Seen): (Table, Outcome) {
    var g := Guard(entity, item, a, seen.reverse);
    if g.Some? then (t, g.value) else AfterLock(AfterGuard(t, entity, seen.reverse), entity, item, a, seen.free)
  }
}
