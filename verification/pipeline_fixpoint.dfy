/** A second pass over the same payloads pushes nothing but what failed before. */
module PipelineFixpoint {
  import opened Text
  import opened Wrappers
  import opened MappingTable
  import opened Markers
  import opened MappingStores
  import opened PipelineModel

  predicate SyncEntity(entity: string) {
    entity in ["customer", "equipment", "invoice", "rental_order", "payment"]
  }

  // ---------- passes ----------

  /** tables[i] is what item i meets. */
  ghost predicate IsPass(entity: string, items: seq<Item>, answers: seq<Answers>, seen: seq<Seen>,
                         tables: seq<Table>, outcomes: seq<Outcome>)
  {
    && |answers| == |seen| == |outcomes| == |items| && |tables| == |items| + 1
    && forall i :: 0 <= i < |items| ==>
         IsReverse(tables[i], entity, items[i], seen[i].reverse)
         && (tables[i + 1], outcomes[i]) == AfterItem(tables[i], entity, items[i], answers[i], seen[i])
  }

  /** Colon-free ids that can be told apart, and hashed payloads. */
  predicate ProperItems(entity: string, items: seq<Item>) {
    && (forall i :: 0 <= i < |items| ==> items[i].id != "" && ColonFree(items[i].id) && items[i].hash != "")
    && (forall i, j :: 0 <= i < j < |items| ==> Strip(items[i].id) != Strip(items[j].id))
  }

  /** The integration keys of two items differ exactly when their trimmed ids do. */
  lemma KeysDifferIff(entity: string, a: Item, b: Item)
    ensures KeyFor(entity, a) == KeyFor(entity, b) <==> Strip(a.id) == Strip(b.id)
  {
    hide Strip, Lower;
    var head := Lower(Strip(Or("default", "default"))) + ":" + Lower(Strip(entity)) + ":";
    var tail := ":" + Lower(Strip(Or("forward", "forward")));
    assert KeyFor(entity, a) == head + Strip(a.id) + tail && KeyFor(entity, b) == head + Strip(b.id) + tail;
    SameMiddle(head, Strip(a.id), Strip(b.id), tail);
  }

  lemma ItemsAreApart(entity: string, items: seq<Item>, i: nat, j: nat)
    requires ProperItems(entity, items) && i < |items| && j < |items| && i != j
    ensures items[i].id != items[j].id && KeyFor(entity, items[i]) != KeyFor(entity, items[j])
  {
    hide KeyFor, Strip;
    KeysDifferIff(entity, items[i], items[j]);
  }

  lemma SameMiddle(head: string, a: string, b: string, tail: string)
    ensures head + a + tail == head + b + tail ==> a == b
  {
    if head + a + tail == head + b + tail {
      assert |a| == |b|;
      assert a == (head + a + tail)[|head|..|head| + |a|];
      assert b == (head + b + tail)[|head|..|head| + |b|];
    }
  }

  /** A row as save_mapping leaves it, of the default company, in one direction. */
  predicate RowProper(entity: string, items: seq<Item>, k: (string, string), r: Row) {
    && k == RowKey(r) && r.company == "default" && r.rentasst == r.source && r.source != ""
    && r.external == r.target && r.guid == r.target
    && (r.sourceSystem == "tally" <==> r.targetSystem == "rentasst")
    && (r.sourceSystem == "tally" && r.entity == entity ==> forall i :: 0 <= i < |items| ==> items[i].id != r.source)
    && (forall i :: 0 <= i < |items| && r.key == KeyFor(entity, items[i]) ==> k == (entity, items[i].id))
  }

  predicate TableProper(entity: string, items: seq<Item>, t: Table) {
    forall k :: k in t ==> RowProper(entity, items, k, t[k])
  }

  // ---------- what an item's outcome depends on ----------

  /** `guarded`: a reverse mapping names the item. */
  datatype Facts = Facts(mine: Option<Row>, keyed: bool, guarded: bool, deps: bool)

  function FactsOf(t: Table, entity: string, item: Item): Facts {
    Facts(Lookup(t, "default", entity, item.id),
          KeyHits(t, KeyFor(entity, item)) != {},
          Guards(entity) && TargetHits(t, "default", entity, "rentasst", item.id) != {},
          Deps(t, entity, item))
  }

  predicate GoesThrough(f: Facts, entity: string, item: Item, a: Answers) {
    if f.guarded then !a.inTally else !(ReadsNotes(entity) && IMPORTED <= item.notes)
  }

  function OutcomeOf(f: Facts, entity: string, item: Item, a: Answers, free: bool): Outcome {
    if !GoesThrough(f, entity, item, a) then (if f.guarded then GuardedByMapping else GuardedByNotes)
    else OutcomeIn(f, item, a, free)
  }

  /** Past the guard. */
  function OutcomeIn(f: Facts, item: Item, a: Answers, free: bool): Outcome {
    if !free then Locked
    else if !item.valid then Invalid
    else if !f.deps then MissingDeps
    else if f.keyed && DuplicateRow(f.mine, item.hash) && (item.identifier == "" || a.present) then Unchanged
    else if !f.keyed && item.identifier != "" && a.present then Adopted
    else if a.sync == None then SyncRaised
    else if External(f.mine) != "" then Updated
    else Created
  }

  lemma HitIsReverse(entity: string, items: seq<Item>, t: Table, item: Item, reverse: Option<Row>)
    requires TableProper(entity, items, t) && IsReverse(t, entity, item, reverse)
    ensures reverse.Some? <==> FactsOf(t, entity, item).guarded
    ensures reverse.Some? ==> FromTally(reverse) && reverse.value.entity == entity && reverse.value.target == item.id
                              && SourceName(reverse.value) == reverse.value.source != ""
                              && forall i :: 0 <= i < |items| ==> items[i].id != reverse.value.source
    ensures reverse.Some? ==> RowKey(reverse.value) in t && t[RowKey(reverse.value)] == reverse.value
  {
  }

  /** Deleting a reverse mapping takes that one row and no other. */
  lemma GuardTakesOneRow(entity: string, items: seq<Item>, t: Table, item: Item, reverse: Option<Row>)
    requires TableProper(entity, items, t) && IsReverse(t, entity, item, reverse)
    ensures AfterGuard(t, entity, reverse) == if reverse.Some? then t - {(entity, reverse.value.source)} else t
  {
  }

  /** The tables agree on every other entity type, and rows are under their own keys. */
  ghost predicate SameElsewhere(entity: string, t: Table, t': Table) {
    && (forall k: (string, string) :: k.0 != entity ==> (k in t <==> k in t') && (k in t ==> t'[k] == t[k]))
    && (forall k :: k in t ==> k == RowKey(t[k])) && (forall k :: k in t' ==> k == RowKey(t'[k]))
  }

  /** Dependencies are read off rows of other entity types. */
  lemma DepsElsewhere(entity: string, t: Table, t': Table, item: Item)
    requires SyncEntity(entity) && SameElsewhere(entity, t, t')
    ensures Deps(t', entity, item) == Deps(t, entity, item)
  {
    hide Strip, RentasstId, SameElsewhere;
    MappedElsewhere(entity, t, t', "customer");
    MappedElsewhere(entity, t, t', "equipment");
    MappedElsewhere(entity, t, t', "invoice");
    MappedElsewhere(entity, t, t', "rental_orders");
    hide Mapped, Known, Lookup;
  }

  lemma MappedElsewhere(entity: string, t: Table, t': Table, e: string)
    requires SameElsewhere(entity, t, t')
    ensures e != entity ==> forall id :: Mapped(t', e, id) == Mapped(t, e, id) && Known(t', e, id) == Known(t, e, id)
                                         && Lookup(t', "default", e, id) == Lookup(t, "default", e, id)
  {
  }

  /** A row that is no item's own may go, if it guarded no item but the given one. */
  lemma FactsWithoutReverse(entity: string, items: seq<Item>, t: Table, name: string, j: nat)
    requires SyncEntity(entity) && ProperItems(entity, items) && TableProper(entity, items, t) && j < |items|
    requires (entity, name) in t && forall i :: 0 <= i < |items| ==> items[i].id != name
    ensures var t', item := t - {(entity, name)}, items[j];
            && TableProper(entity, items, t')
            && Lookup(t', "default", entity, item.id) == Lookup(t, "default", entity, item.id)
            && KeyHits(t', KeyFor(entity, item)) == KeyHits(t, KeyFor(entity, item))
            && Deps(t', entity, item) == Deps(t, entity, item)
            && (t[(entity, name)].target != item.id ==>
                  TargetHits(t', "default", entity, "rentasst", item.id) == TargetHits(t, "default", entity, "rentasst", item.id))
  {
    hide KeyFor, Deps;
    var t', item := t - {(entity, name)}, items[j];
    assert RowProper(entity, items, (entity, name), t[(entity, name)]);
    assert forall k :: k in t ==> RowProper(entity, items, k, t[k]);
    assert SameElsewhere(entity, t, t');
    DepsElsewhere(entity, t, t', item);
  }

  /** A saved row of item n: nobody's key is taken, and only item n's facts move. */
  lemma FactsWithOwnRow(entity: string, items: seq<Item>, t: Table, n: nat, target: string, j: nat)
    requires SyncEntity(entity) && ProperItems(entity, items) && TableProper(entity, items, t) && n < |items| && j < |items|
    ensures var r := RowFor(entity, items[n], target); var t' := Upsert(t, r);
            && !KeyTaken(t, r) && TableProper(entity, items, t')
            && (j != n ==> FactsOf(t', entity, items[j]) == FactsOf(t, entity, items[j]))
            && var f := FactsOf(t', entity, items[n]);
               f.keyed && DuplicateRow(f.mine, items[n].hash)
               && f.guarded == FactsOf(t, entity, items[n]).guarded && f.deps == FactsOf(t, entity, items[n]).deps
  {
    OwnRowIsProper(entity, items, t, n, target);
    OwnRowElsewhere(entity, items, t, n, target);
    hide SameElsewhere;
    var t' := Upsert(t, RowFor(entity, items[n], target));
    DepsElsewhere(entity, t, t', items[j]);
    DepsElsewhere(entity, t, t', items[n]);
    SameGuards(entity, items, t, n, target, j);
    SameGuards(entity, items, t, n, target, n);
    SameKeys(entity, items, t, n, target, j);
    OwnLookups(entity, items, t, n, target, j);
    hide TargetHits, KeyHits, TableProper, ProperItems, Lookup, Upsert, RowFor, KeyTaken, DuplicateRow, KeyFor, Deps, SyncEntity;
  }

  lemma RowForFields(entity: string, item: Item, target: string)
    ensures var r := RowFor(entity, item, target);
            && r.key == KeyFor(entity, item) != "" && RowKey(r) == (entity, item.id) && r.entity == entity
            && r.company == "default" && r.source == r.rentasst == item.id && r.target == r.external == r.guid == target
            && r.sourceSystem == "rentasst" && r.targetSystem == "tally" && r.hash == Some(item.hash) && r.status == "synced"
  {
  }

  lemma OwnRowElsewhere(entity: string, items: seq<Item>, t: Table, n: nat, target: string)
    requires TableProper(entity, items, t) && n < |items|
    ensures SameElsewhere(entity, t, Upsert(t, RowFor(entity, items[n], target)))
  {
    RowForFields(entity, items[n], target);
    RowsAtHome(entity, items, t);
    hide RowFor, KeyFor, TableProper, SameElsewhere, Upsert;
    UpsertElsewhere(t, RowFor(entity, items[n], target));
  }

  lemma UpsertElsewhere(t: Table, r: Row)
    requires forall k :: k in t ==> k == RowKey(t[k])
    ensures SameElsewhere(r.entity, t, Upsert(t, r))
  {
  }

  lemma RowsAtHome(entity: string, items: seq<Item>, t: Table)
    requires TableProper(entity, items, t)
    ensures forall k :: k in t ==> k == RowKey(t[k])
  {
  }

  lemma OwnLookups(entity: string, items: seq<Item>, t: Table, n: nat, target: string, j: nat)
    requires ProperItems(entity, items) && n < |items| && j < |items|
    ensures var t' := Upsert(t, RowFor(entity, items[n], target));
            && (j != n ==> Lookup(t', "default", entity, items[j].id) == Lookup(t, "default", entity, items[j].id))
            && DuplicateRow(Lookup(t', "default", entity, items[n].id), items[n].hash)
  {
  }

  lemma OwnRowIsProper(entity: string, items: seq<Item>, t: Table, n: nat, target: string)
    requires ProperItems(entity, items) && TableProper(entity, items, t) && n < |items|
    ensures var r := RowFor(entity, items[n], target);
            !KeyTaken(t, r) && TableProper(entity, items, Upsert(t, r))
  {
    RowForFields(entity, items[n], target);
    forall i | 0 <= i < |items| && i != n ensures KeyFor(entity, items[i]) != KeyFor(entity, items[n]) {
      ItemsAreApart(entity, items, i, n);
    }
    hide RowFor, KeyFor, Strip;
    var r := RowFor(entity, items[n], target);
    forall k | k in t ensures RowProper(entity, items, k, t[k]) {
    }
    assert RowProper(entity, items, RowKey(r), Upsert(t, r)[RowKey(r)]);
  }

  /** What stood at item n's place was no reverse mapping and carried nobody else's key. */
  lemma OwnPlace(entity: string, items: seq<Item>, t: Table, n: nat, j: nat)
    requires ProperItems(entity, items) && TableProper(entity, items, t) && n < |items| && j < |items|
    ensures var own := (entity, items[n].id);
            own in t ==> t[own].targetSystem != "rentasst" && (t[own].key == KeyFor(entity, items[j]) ==> j == n)
    ensures j != n ==> KeyFor(entity, items[n]) != KeyFor(entity, items[j]) && items[n].id != items[j].id
  {
    hide KeyFor, Strip;
    if j != n {
      ItemsAreApart(entity, items, n, j);
    }
    if (entity, items[n].id) in t {
      assert RowProper(entity, items, (entity, items[n].id), t[(entity, items[n].id)]);
    }
  }

  lemma SameGuards(entity: string, items: seq<Item>, t: Table, n: nat, target: string, j: nat)
    requires ProperItems(entity, items) && TableProper(entity, items, t) && n < |items| && j < |items|
    ensures TargetHits(Upsert(t, RowFor(entity, items[n], target)), "default", entity, "rentasst", items[j].id)
            == TargetHits(t, "default", entity, "rentasst", items[j].id)
  {
  }

  lemma SameKeys(entity: string, items: seq<Item>, t: Table, n: nat, target: string, j: nat)
    requires ProperItems(entity, items) && TableProper(entity, items, t) && n < |items| && j < |items|
    ensures var t' := Upsert(t, RowFor(entity, items[n], target));
            && (j != n ==> KeyHits(t', KeyFor(entity, items[j])) == KeyHits(t, KeyFor(entity, items[j])))
            && (entity, items[n].id) in KeyHits(t', KeyFor(entity, items[n]))
  {
    RowForFields(entity, items[n], target);
    OwnPlace(entity, items, t, n, j);
    hide RowFor, KeyFor, TableProper, ProperItems, KeyHits, Upsert;
    var r := RowFor(entity, items[n], target);
    KeyHitsWithRow(t, r, KeyFor(entity, items[j]));
    KeyHitsWithRow(t, r, r.key);
  }

  lemma KeyHitsWithRow(t: Table, r: Row, key: string)
    ensures r.key != key && (RowKey(r) in t ==> t[RowKey(r)].key != key) ==> KeyHits(Upsert(t, r), key) == KeyHits(t, key)
    ensures r.key == key ==> RowKey(r) in KeyHits(Upsert(t, r), key)
  {
  }

  /** The item after its guard: the rest of its facts are as they were. */
  lemma FactsAfterGuard(entity: string, items: seq<Item>, t: Table, n: nat, reverse: Option<Row>, j: nat)
    requires SyncEntity(entity) && ProperItems(entity, items) && TableProper(entity, items, t) && n < |items| && j < |items|
    requires IsReverse(t, entity, items[n], reverse)
    ensures var t' := AfterGuard(t, entity, reverse);
            && TableProper(entity, items, t')
            && (j != n ==> FactsOf(t', entity, items[j]) == FactsOf(t, entity, items[j]))
            && FactsOf(t', entity, items[n]) == FactsOf(t, entity, items[n]).(guarded := FactsOf(t', entity, items[n]).guarded)
            && (reverse == None ==> t' == t)
  {
    HitIsReverse(entity, items, t, items[n], reverse);
    GuardTakesOneRow(entity, items, t, items[n], reverse);
    hide KeyFor, Deps, Lookup, KeyHits, TargetHits, IsReverse, TableProper;
    if reverse.Some? {
      FactsWithoutReverse(entity, items, t, reverse.value.source, j);
      FactsWithoutReverse(entity, items, t, reverse.value.source, n);
    }
  }

  predicate Recorded(f: Facts, item: Item) {
    f.keyed && DuplicateRow(f.mine, item.hash)
  }

  predicate Saves(o: Outcome) {
    o.Adopted? || o.Created? || o.Updated?
  }

  /** One item: its outcome is read off its facts; afterwards only its own facts have
      moved, and what was saved is recorded. */
  lemma ItemMoves(entity: string, items: seq<Item>, t: Table, n: nat, a: Answers, seen: Seen, j: nat)
    requires SyncEntity(entity) && ProperItems(entity, items) && TableProper(entity, items, t) && n < |items| && j < |items|
    requires IsReverse(t, entity, items[n], seen.reverse)
    ensures var (t', o) := AfterItem(t, entity, items[n], a, seen);
            && TableProper(entity, items, t')
            && o == OutcomeOf(FactsOf(t, entity, items[n]), entity, items[n], a, seen.free)
            && (j != n ==> FactsOf(t', entity, items[j]) == FactsOf(t, entity, items[j]))
            && AfterOwn(FactsOf(t, entity, items[n]), FactsOf(t', entity, items[n]), items[n], o)
  {
    hide KeyFor, Deps, Lookup, KeyHits, TargetHits, IsReverse, TableProper, SyncEntity, ProperItems, IMPORTED, AfterGuard,
         DuplicateRow, AfterLock;
    HitIsReverse(entity, items, t, items[n], seen.reverse);
    FactsAfterGuard(entity, items, t, n, seen.reverse, j);
    if Guard(entity, items[n], a, seen.reverse) == None {
      LockedItemMoves(entity, items, AfterGuard(t, entity, seen.reverse), n, a, seen.free, j);
    }
  }

  /** The same past the guard. */
  lemma LockedItemMoves(entity: string, items: seq<Item>, t: Table, n: nat, a: Answers, free: bool, j: nat)
    requires SyncEntity(entity) && ProperItems(entity, items) && TableProper(entity, items, t) && n < |items| && j < |items|
    ensures var (t', o) := AfterLock(t, entity, items[n], a, free); var f := FactsOf(t, entity, items[n]);
            && TableProper(entity, items, t')
            && o == OutcomeIn(f, items[n], a, free)
            && (j != n ==> FactsOf(t', entity, items[j]) == FactsOf(t, entity, items[j]))
            && AfterOwn(f, FactsOf(t', entity, items[n]), items[n], o)
  {
    hide KeyFor, Deps, Lookup, KeyHits, TargetHits, TableProper, SyncEntity, ProperItems, KeyTaken, RowFor, Upsert, DuplicateRow, Guards;
    var item, ext := items[n], External(Lookup(t, "default", entity, items[n].id));
    FactsWithOwnRow(entity, items, t, n, item.identifier, j);
    if a.sync.Some? {
      FactsWithOwnRow(entity, items, t, n, Or(a.sync.value, Or(ext, item.id)), j);
    }
  }

  /** How an item's own facts may move. */
  predicate AfterOwn(f: Facts, f': Facts, item: Item, o: Outcome) {
    && f'.deps == f.deps
    && (if Saves(o) then Recorded(f', item) else f'.mine == f.mine && f'.keyed == f.keyed)
    && (o.GuardedByMapping? || o.GuardedByNotes? ==> f' == f)
    && (f'.guarded ==> f.guarded)
  }

  // ---------- passes ----------

  lemma {:induction false} FactsThrough(entity: string, items: seq<Item>, answers: seq<Answers>, seen: seq<Seen>,
                                        tables: seq<Table>, outcomes: seq<Outcome>, m: nat, j: nat)
    requires SyncEntity(entity) && ProperItems(entity, items) && IsPass(entity, items, answers, seen, tables, outcomes)
    requires TableProper(entity, items, tables[0]) && m <= |items| && j < |items|
    ensures TableProper(entity, items, tables[m])
    ensures m <= j ==> FactsOf(tables[m], entity, items[j]) == FactsOf(tables[0], entity, items[j])
    ensures m > j ==>
              AfterOwn(FactsOf(tables[0], entity, items[j]), FactsOf(tables[m], entity, items[j]), items[j], outcomes[j])
    ensures m > j ==> outcomes[j] == OutcomeOf(FactsOf(tables[0], entity, items[j]), entity, items[j], answers[j], seen[j].free)
  {
    hide ProperItems, TableProper, SyncEntity, FactsOf, AfterOwn, OutcomeOf, IsReverse, AfterItem;
    if m > 0 {
      FactsThrough(entity, items, answers, seen, tables, outcomes, m - 1, j);
      ItemMoves(entity, items, tables[m - 1], m - 1, answers[m - 1], seen[m - 1], j);
    }
  }

  // ---------- what a pass demands of other records ----------

  /** The table has a row of the default company for the record. */
  predicate HasOwnRow(t: Table, entity: string, id: string) {
    exists k :: k in t && t[k].entity == entity && t[k].company == "default" && t[k].source == id
  }

  /** Some row carries the id as Tally's own name for its record. */
  predicate HasTallyRow(t: Table, entity: string, id: string) {
    exists k :: k in t && t[k].entity == entity && t[k].targetCompany == "default" && t[k].targetSystem == "tally"
                && id in {t[k].target, t[k].external, t[k].guid}
  }

  predicate HasRow(t: Table, entity: string, id: string) {
    HasOwnRow(t, entity, id) || HasTallyRow(t, entity, id)
  }

  lemma LookupIsOwnRow(entity: string, items: seq<Item>, t: Table, e: string, id: string)
    requires TableProper(entity, items, t)
    ensures Lookup(t, "default", e, id).Some? <==> HasOwnRow(t, e, id)
  {
    hide KeyFor, Strip;
    forall k | k in t ensures RowProper(entity, items, k, t[k]) {
    }
  }

  lemma KnownIsTallyRow(t: Table, e: string, id: string)
    ensures Known(t, e, id) <==> HasTallyRow(t, e, id)
  {
    if HasTallyRow(t, e, id) {
      var k :| k in t && t[k].entity == e && t[k].targetCompany == "default" && t[k].targetSystem == "tally"
               && id in {t[k].target, t[k].external, t[k].guid};
      assert k in TargetHits(t, "default", e, "tally", id);
    }
  }

  lemma MappedIsRow(entity: string, items: seq<Item>, t: Table, e: string, id: string)
    requires TableProper(entity, items, t)
    ensures Mapped(t, e, id) <==> HasRow(t, e, id)
    ensures Lookup(t, "default", e, id).Some? <==> HasOwnRow(t, e, id)
    ensures Known(t, e, id) <==> HasTallyRow(t, e, id)
  {
    LookupIsOwnRow(entity, items, t, e, id);
    KnownIsTallyRow(t, e, id);
  }

  /** The records an item of that type waits for are all in the table. */
  predicate ParentsThere(t: Table, entity: string, item: Item) {
    && (entity == "invoice" || entity == "rental_order" ==>
          && (item.customer != "" ==>
                HasRow(t, "customer", Strip(item.customer))
                || (item.customerName != "" && HasTallyRow(t, "customer", item.customerName)))
          && forall k :: 0 <= k < |item.assets| && item.assets[k] != "" ==> HasRow(t, "equipment", Strip(item.assets[k])))
    && (entity == "payment" && item.invoice != "" ==>
          HasRow(t, "invoice", Strip(item.invoice)) || HasOwnRow(t, "rental_orders", Strip(item.invoice)))
    && (entity == "payment" && item.invoice == "" && item.customer != "" ==> HasRow(t, "customer", Strip(item.customer)))
  }

  lemma DepsAreParents(entity: string, items: seq<Item>, t: Table, item: Item)
    requires TableProper(entity, items, t)
    ensures Deps(t, entity, item) <==> ParentsThere(t, entity, item)
  {
    hide Strip, Mapped, Known, Lookup, HasRow, HasOwnRow, HasTallyRow, TableProper;
    MappedIsRow(entity, items, t, "customer", Strip(item.customer));
    MappedIsRow(entity, items, t, "customer", item.customerName);
    MappedIsRow(entity, items, t, "invoice", Strip(item.invoice));
    MappedIsRow(entity, items, t, "rental_orders", Strip(item.invoice));
    forall k | 0 <= k < |item.assets| ensures Mapped(t, "equipment", Strip(item.assets[k])) <==> HasRow(t, "equipment", Strip(item.assets[k])) {
      MappedIsRow(entity, items, t, "equipment", Strip(item.assets[k]));
    }
  }

  /** In any pass, sync_func is called for an item only if the table the pass began with
      has every record the item waits for; and an item that got past guard, lock and
      validator is put off for a missing dependency exactly when one of them is absent. */
  lemma PassWaitsForParents(entity: string, items: seq<Item>, answers: seq<Answers>, seen: seq<Seen>,
                            tables: seq<Table>, outcomes: seq<Outcome>, i: nat)
    requires SyncEntity(entity) && ProperItems(entity, items) && IsPass(entity, items, answers, seen, tables, outcomes)
    requires TableProper(entity, items, tables[0]) && i < |items|
    ensures Synced(outcomes[i]) ==> ParentsThere(tables[0], entity, items[i])
    ensures outcomes[i] == MissingDeps <==>
            && GoesThrough(FactsOf(tables[0], entity, items[i]), entity, items[i], answers[i])
            && seen[i].free && items[i].valid && !ParentsThere(tables[0], entity, items[i])
  {
    hide ProperItems, TableProper, SyncEntity, FactsOf, AfterOwn, OutcomeOf, IsReverse, AfterItem, Deps, ParentsThere, GoesThrough;
    FactsThrough(entity, items, answers, seen, tables, outcomes, |items|, i);
    DepsAreParents(entity, items, tables[0], items[i]);
    WaitsIff(tables[0], entity, items[i], answers[i], seen[i].free);
  }

  lemma WaitsIff(t: Table, entity: string, item: Item, a: Answers, free: bool)
    ensures var f := FactsOf(t, entity, item); var o := OutcomeOf(f, entity, item, a, free);
            && (Synced(o) ==> Deps(t, entity, item))
            && (o == MissingDeps <==> GoesThrough(f, entity, item, a) && free && item.valid && !Deps(t, entity, item))
  {
    hide Deps, DuplicateRow, Lookup, KeyHits, TargetHits, KeyFor, IMPORTED, GoesThrough;
  }

  /** In any pass, sync_func is called for an item exactly when it gets past the guard and
      the lock, is valid, has its dependencies, and is neither unchanged nor adopted; all of
      it read off the table the pass began with, whatever was saved before its turn. */
  lemma PassPushesIff(entity: string, items: seq<Item>, answers: seq<Answers>, seen: seq<Seen>,
                      tables: seq<Table>, outcomes: seq<Outcome>, i: nat)
    requires SyncEntity(entity) && ProperItems(entity, items) && IsPass(entity, items, answers, seen, tables, outcomes)
    requires TableProper(entity, items, tables[0]) && i < |items|
    ensures var item, a, f := items[i], answers[i], FactsOf(tables[0], entity, items[i]);
            Synced(outcomes[i]) <==>
              && (if f.guarded then !a.inTally
                  else !((entity == "rental_order" || entity == "invoice") && "Imported from Tally " <= item.notes))
              && seen[i].free && item.valid && ParentsThere(tables[0], entity, item)
              && !(f.keyed && f.mine.Some? && f.mine.value.status == "synced" && f.mine.value.hash == Some(item.hash) && item.hash != ""
                   && (item.identifier == "" || a.present))
              && !(!f.keyed && item.identifier != "" && a.present)
  {
    hide ProperItems, TableProper, SyncEntity, FactsOf, AfterOwn, OutcomeOf, IsReverse, AfterItem, Deps, ParentsThere, DuplicateRow,
         IMPORTED;
    FactsThrough(entity, items, answers, seen, tables, outcomes, |items|, i);
    DepsAreParents(entity, items, tables[0], items[i]);
    PushedIff(tables[0], entity, items[i], answers[i], seen[i].free);
  }

  lemma PushedIff(t: Table, entity: string, item: Item, a: Answers, free: bool)
    ensures var f := FactsOf(t, entity, item);
            Synced(OutcomeOf(f, entity, item, a, free)) <==>
              && (if f.guarded then !a.inTally
                  else !((entity == "rental_order" || entity == "invoice") && "Imported from Tally " <= item.notes))
              && free && item.valid && Deps(t, entity, item)
              && !(f.keyed && f.mine.Some? && f.mine.value.status == "synced" && f.mine.value.hash == Some(item.hash) && item.hash != ""
                   && (item.identifier == "" || a.present))
              && !(!f.keyed && item.identifier != "" && a.present)
  {
    hide Deps, Lookup, KeyHits, TargetHits, KeyFor;
  }

  /** The target loses nothing between the passes: what the guard found is still there,
      and so is what the first pass found, created or updated. */
  predicate TargetKeeps(items: seq<Item>, first: seq<Answers>, outcomes: seq<Outcome>, second: seq<Answers>)
    requires |first| == |outcomes| == |second| == |items|
  {
    forall i :: 0 <= i < |items| ==>
      && (first[i].inTally ==> second[i].inTally)
      && (first[i].present || outcomes[i].Created? || outcomes[i].Updated? ==> second[i].present)
  }

  lemma SecondOutcome(entity: string, item: Item, f: Facts, f': Facts, a: Answers, a': Answers, free: bool, free': bool)
    requires AfterOwn(f, f', item, OutcomeOf(f, entity, item, a, free))
    requires a.inTally ==> a'.inTally
    requires var o := OutcomeOf(f, entity, item, a, free); a.present || o.Created? || o.Updated? ==> a'.present
    requires Synced(OutcomeOf(f', entity, item, a', free'))
    ensures OutcomeOf(f, entity, item, a, free).SyncRaised? || OutcomeOf(f, entity, item, a, free).Locked?
  {
  }

  /** A second pass over the same payloads, right after the first, calls sync_func only
      for items whose sync_func raised in the first pass, or that another worker had
      locked then. */
  lemma SecondPassIsQuiet(entity: string, items: seq<Item>,
                          answers: seq<Answers>, seen: seq<Seen>, tables: seq<Table>, outcomes: seq<Outcome>,
                          answers': seq<Answers>, seen': seq<Seen>, tables': seq<Table>, outcomes': seq<Outcome>, i: nat)
    requires IsPass(entity, items, answers, seen, tables, outcomes)
    requires IsPass(entity, items, answers', seen', tables', outcomes') && tables'[0] == tables[|items|]
    requires SyncEntity(entity) && ProperItems(entity, items) && TableProper(entity, items, tables[0])
    requires TargetKeeps(items, answers, outcomes, answers')
    requires i < |items| && Synced(outcomes'[i])
    ensures outcomes[i].SyncRaised? || outcomes[i].Locked?
  {
    hide ProperItems, TableProper, SyncEntity, FactsOf, AfterOwn, OutcomeOf, IsReverse, AfterItem;
    FactsThrough(entity, items, answers, seen, tables, outcomes, |items|, i);
    FactsThrough(entity, items, answers', seen', tables', outcomes', |items|, i);
    SecondOutcome(entity, items[i], FactsOf(tables[0], entity, items[i]), FactsOf(tables'[0], entity, items[i]),
                  answers[i], answers'[i], seen[i].free, seen'[i].free);
  }

  lemma SavedOutcome(entity: string, item: Item, f: Facts, f': Facts, a: Answers, a': Answers, free: bool, free': bool)
    requires AfterOwn(f, f', item, OutcomeOf(f, entity, item, a, free)) && Saves(OutcomeOf(f, entity, item, a, free))
    ensures Synced(OutcomeOf(f', entity, item, a', free')) <==>
            GoesThrough(f', entity, item, a') && free' && item.identifier != "" && !a'.present
  {
    hide IMPORTED, DuplicateRow;
  }

  /** Whatever the target does between the passes, an item the first pass saved is pushed
      again by the second exactly when it gets past guard and lock and the target does not
      know its identifier. The identifier of an order is its plain marker, so an order
      that Tally holds under the fallback marker alone is pushed again by every pass. */
  lemma SavedIsPushedAgainIff(entity: string, items: seq<Item>,
                              answers: seq<Answers>, seen: seq<Seen>, tables: seq<Table>, outcomes: seq<Outcome>,
                              answers': seq<Answers>, seen': seq<Seen>, tables': seq<Table>, outcomes': seq<Outcome>, i: nat)
    requires IsPass(entity, items, answers, seen, tables, outcomes)
    requires IsPass(entity, items, answers', seen', tables', outcomes') && tables'[0] == tables[|items|]
    requires SyncEntity(entity) && ProperItems(entity, items) && TableProper(entity, items, tables[0])
    requires i < |items| && Saves(outcomes[i])
    ensures Synced(outcomes'[i]) <==>
            GoesThrough(FactsOf(tables'[0], entity, items[i]), entity, items[i], answers'[i])
            && seen'[i].free && items[i].identifier != "" && !answers'[i].present
  {
    hide ProperItems, TableProper, SyncEntity, FactsOf, AfterOwn, OutcomeOf, IsReverse, AfterItem, GoesThrough, Saves;
    FactsThrough(entity, items, answers, seen, tables, outcomes, |items|, i);
    FactsThrough(entity, items, answers', seen', tables', outcomes', |items|, i);
    SavedOutcome(entity, items[i], FactsOf(tables[0], entity, items[i]), FactsOf(tables'[0], entity, items[i]),
                 answers[i], answers'[i], seen[i].free, seen'[i].free);
  }

  // ---------- what a pass saves ----------

  predicate SavedRow(t: Table, had: string, entity: string, item: Item, a: Answers, o: Outcome) {
    var own := (entity, item.id);
    && own in t
    && var r := t[own];
       && r.source == item.id && r.sourceSystem == "rentasst" && r.targetSystem == "tally" && r.status == "synced"
       && r.hash == Some(item.hash) && r.key == KeyFor(entity, item)
       && (o.Adopted? ==> r.target == item.identifier)
       && (!o.Adopted? ==>
             && a.sync.Some? && (o.Updated? <==> had != "")
             && r.target == if a.sync.value != "" then a.sync.value else if had != "" then had else item.id)
  }

  lemma RowIsSaved(t: Table, had: string, entity: string, item: Item, a: Answers, target: string, o: Outcome)
    requires o.Adopted? ==> target == item.identifier
    requires !o.Adopted? ==>
               a.sync.Some? && (o.Updated? <==> had != "")
               && target == if a.sync.value != "" then a.sync.value else if had != "" then had else item.id
    ensures SavedRow(Upsert(t, RowFor(entity, item, target)), had, entity, item, a, o)
  {
    RowForFields(entity, item, target);
    hide RowFor, KeyFor;
  }

  lemma SavedIsRow(t: Table, entity: string, item: Item, a: Answers, free: bool)
    requires Saves(AfterLock(t, entity, item, a, free).1)
    ensures var (t', o) := AfterLock(t, entity, item, a, free);
            SavedRow(t', External(Lookup(t, "default", entity, item.id)), entity, item, a, o)
  {
    hide RowFor, KeyFor, Deps, Lookup, KeyHits, DuplicateRow, KeyTaken, Upsert, External, SavedRow;
    var had, o := External(Lookup(t, "default", entity, item.id)), AfterLock(t, entity, item, a, free).1;
    if o.Adopted? {
      RowIsSaved(t, had, entity, item, a, item.identifier, o);
    } else {
      RowIsSaved(t, had, entity, item, a, Or(a.sync.value, Or(had, item.id)), o);
    }
  }

  /** The row an item saved by a pass leaves: the target sync_func named, or else the one
      it had, or its own id; its identifier when it was adopted. It was updated exactly
      when it had one. */
  lemma SavedRowNames(entity: string, items: seq<Item>, answers: seq<Answers>, seen: seq<Seen>,
                      tables: seq<Table>, outcomes: seq<Outcome>, i: nat)
    requires IsPass(entity, items, answers, seen, tables, outcomes) && i < |items| && Saves(outcomes[i])
    ensures var had := External(Lookup(AfterGuard(tables[i], entity, seen[i].reverse), "default", entity, items[i].id));
            SavedRow(tables[i + 1], had, entity, items[i], answers[i], outcomes[i])
  {
    hide AfterLock, SavedRow, AfterGuard, IsReverse, Lookup, External, IMPORTED;
    assert (tables[i + 1], outcomes[i]) == AfterItem(tables[i], entity, items[i], answers[i], seen[i]);
    SavedIsRow(AfterGuard(tables[i], entity, seen[i].reverse), entity, items[i], answers[i], seen[i].free);
  }
}
