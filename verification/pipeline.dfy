/** run_sync_pipeline of app/sync/base.py on the mapping store, its cache and the lock
    manager: the batch loop, one item, and the dependency check. */
module Pipelines {
  import opened Text
  import opened Wrappers
  import opened MappingTable
  import opened Markers
  import opened Cache
  import opened MappingStores
  import opened CacheRefinement
  import opened PipelineModel
  import opened PipelineFixpoint
  import L = Locks

  const LEASE_SECONDS := 300

  datatype Stats = Stats(processed: nat, created: nat, updated: nat, failed: nat, skipped: nat)

  function Count(s: Stats, o: Outcome): Stats {
    var p := s.(processed := s.processed + 1);
    if o.Created? then p.(created := s.created + 1)
    else if o.Updated? then p.(updated := s.updated + 1)
    else if Failed(o) then p.(failed := s.failed + 1)
    else if Skipped(o) then p.(skipped := s.skipped + 1)
    else p
  }

  predicate Balanced(s: Stats) {
    s.processed == s.created + s.updated + s.failed + s.skipped
  }

  /** Rows of the default company whose ids can be told apart in the cache's keys. */
  ghost predicate PlainRows(t: Table) {
    WellFormed(t) && OnlyDefaultRows(t)
    && forall k :: k in t ==> t[k].source != "" && ColonFree(t[k].source) && t[k].rentasst == t[k].source
  }

  /** Then, with a coherent cache, what the store answers is what the table holds. */
  ghost predicate Exact(t: Table, c: Entries<Row>) {
    PlainRows(t) && Coherent(t, c)
  }

  predicate PlainItem(entity: string, item: Item) {
    && ColonFree(entity) && item.id != "" && ColonFree(item.id)
    && ColonFree(item.customer) && ColonFree(item.invoice)
    && forall i :: 0 <= i < |item.assets| ==> ColonFree(item.assets[i])
  }

  predicate PlainItems(entity: string, items: seq<Item>) {
    forall i :: 0 <= i < |items| ==> PlainItem(entity, items[i])
  }

  /** No lock is left that was not there before. */
  predicate LocksRestored(before: L.LockTable, after: L.LockTable) {
    forall k :: k in after ==> k in before && after[k] == before[k]
  }

  lemma {:induction false} StripKeepsColonFree(s: string)
    requires ColonFree(s)
    ensures ColonFree(Strip(s))
  {
    LeftPart(s);
    RightPart(StripLeft(s));
  }

  lemma {:induction false} LeftPart(s: string)
    requires ColonFree(s)
    ensures ColonFree(StripLeft(s))
  {
    if s != "" && IsSpace(s[0]) {
      LeftPart(s[1..]);
    }
  }

  lemma {:induction false} RightPart(s: string)
    requires ColonFree(s)
    ensures ColonFree(StripRight(s))
  {
    if s != "" && IsSpace(s[|s| - 1]) {
      RightPart(s[..|s| - 1]);
    }
  }

  // ---------- exactness through the store's operations ----------

  lemma ExactAfterFind(t: Table, c: Entries<Row>, c': Entries<Row>, e: string, id: string, now: real, answer: Option<Row>)
    requires Exact(t, c) && Plain("default", e, id) && FindEffect(t, c, c', "default", e, id, now, answer)
    ensures Exact(t, c') && answer == Lookup(t, "default", e, id)
  {
    CurrentAnswer(t, c, c', e, id, now, answer);
    hide FindEffect, Lookup, WellFormed;
    var s: State, s': State := History([View(t, now)], c), History([View(t, now), View(t, now)], c');
    CoherenceKept(s, Op.Find("default", e, id, answer), s');
  }

  lemma ExactAfterPrefetch(t: Table, c: Entries<Row>, c': Entries<Row>, e: string, ids: set<string>, now: real)
    requires Exact(t, c) && PrefetchEffect(t, c, c', "default", e, ids, now)
    ensures Exact(t, c')
  {
    hide PrefetchEffect, Lookup, WellFormed;
    var s: State, s': State := History([View(t, now)], c), History([View(t, now), View(t, now)], c');
    CoherenceKept(s, Op.Prefetch("default", e, ids), s');
  }

  lemma ExactAfterDelete(t: Table, c: Entries<Row>, e: string, id: string)
    requires Exact(t, c) && Plain("default", e, id)
    ensures Exact(Deleted(t, e, id), AfterDeleteCache(t, c, e, id))
  {
    hide AfterDeleteCache, Lookup, WellFormed;
    var s: State := History([View(t, 0.0)], c);
    var s': State := History([View(t, 0.0), View(Deleted(t, e, id), 0.0)], AfterDeleteCache(t, c, e, id));
    CoherenceKept(s, Op.Delete(e, id), s');
  }

  lemma ExactAfterSave(t: Table, c: Entries<Row>, r: Row)
    requires Exact(t, c) && r.company == "default" && Plain("default", r.entity, r.source)
    requires r.source != "" && r.rentasst == r.source
    ensures Exact(AfterSaveTable(t, r), AfterSaveCache(t, c, r))
  {
    hide AfterSaveCache, Lookup;
    var s: State := History([View(t, 0.0)], c);
    var s': State := History([View(t, 0.0), View(AfterSaveTable(t, r), 0.0)], AfterSaveCache(t, c, r));
    CoherenceKept(s, Op.Save(r), s');
  }

  lemma KnownByBest(t: Table, e: string, external: string, found: Option<Row>)
    requires PlainRows(t) && Best(t, TargetHits(t, "default", e, "tally", external), found)
    ensures (found.Some? && SourceName(found.value) != "") == Known(t, e, external)
  {
  }

  class SyncPipeline {
    const store: MappingStore
    const locks: L.LockManager
    const worker: string
    const entity: string
    var letters: seq<string>
    var pushed: seq<string>

    constructor (store: MappingStore, locks: L.LockManager, worker: string, entity: string)
      ensures this.store == store && this.locks == locks && this.worker == worker && this.entity == entity
      ensures letters == [] && pushed == []
    {
      this.store, this.locks, this.worker, this.entity := store, locks, worker, entity;
      letters, pushed := [], [];
    }

    ghost predicate IsExact()
      reads store.db, store.cache
    {
      Exact(store.db.rows, store.cache.entries)
    }

    function LockOf(item: Item): string {
      L.LockKey("default", entity, "forward", item.id)
    }

    method Find(e: string, id: string, now: real) returns (found: Option<Row>)
      requires store.Valid()
      modifies store.cache
      ensures old(IsExact()) && Plain("default", e, id) ==> IsExact() && found == Lookup(store.db.rows, "default", e, id)
    {
      ghost var t, c := store.db.rows, store.cache.entries;
      found := store.FindMapping(e, id, "default", now);
      if Exact(t, c) && Plain("default", e, id) {
        ExactAfterFind(t, c, store.cache.entries, e, id, now, found);
      }
    }

    method IsKnown(e: string, external: string) returns (known: bool)
      ensures PlainRows(store.db.rows) ==> known == Known(store.db.rows, e, external)
    {
      var found := store.FindByTarget(e, external, "tally", "default");
      if PlainRows(store.db.rows) {
        KnownByBest(store.db.rows, e, external, found);
      }
      known := found.Some? && SourceName(found.value) != "";
    }

    method IsMapped(e: string, id: string, now: real) returns (mapped: bool)
      requires store.Valid()
      modifies store.cache
      ensures old(IsExact()) && Plain("default", e, id) ==> IsExact() && mapped == Mapped(store.db.rows, e, id)
    {
      hide Lookup, Known, Coherent, WellFormed;
      var found := Find(e, id, now);
      if found.Some? {
        return true;
      }
      mapped := IsKnown(e, id);
    }

    /** _find_missing_equipment. */
    method HasEquipment(assets: seq<string>, now: real) returns (ok: bool)
      requires store.Valid()
      modifies store.cache
      ensures old(IsExact()) && (forall i :: 0 <= i < |assets| ==> ColonFree(assets[i])) ==>
                IsExact() && ok == EquipmentMapped(store.db.rows, assets)
    {
      hide Mapped, Exact, Strip;
      ghost var plain := IsExact() && forall i :: 0 <= i < |assets| ==> ColonFree(assets[i]);
      for i := 0 to |assets|
        invariant plain ==> IsExact()
        invariant plain ==> forall k :: 0 <= k < i && assets[k] != "" ==> Mapped(store.db.rows, "equipment", Strip(assets[k]))
      {
        if assets[i] != "" {
          if plain {
            StripKeepsColonFree(assets[i]);
          }
          var mapped := IsMapped("equipment", Strip(assets[i]), now);
          if !mapped {
            return false;
          }
        }
      }
      return true;
    }

    method HasCustomer(item: Item, now: real) returns (ok: bool)
      requires store.Valid()
      modifies store.cache
      ensures old(IsExact()) && ColonFree(item.customer) ==> IsExact() && ok == CustomerMapped(store.db.rows, item)
    {
      hide Mapped, Coherent, Known, WellFormed;
      if item.customer == "" {
        return true;
      }
      if ColonFree(item.customer) {
        StripKeepsColonFree(item.customer);
      }
      ok := IsMapped("customer", Strip(item.customer), now);
      if !ok && item.customerName != "" {
        ok := IsKnown("customer", item.customerName);
      }
    }

    method HasPaymentParent(item: Item, now: real) returns (ok: bool)
      requires store.Valid()
      modifies store.cache
      ensures old(IsExact()) && ColonFree(item.customer) && ColonFree(item.invoice) ==>
                IsExact() && ok == PaymentMapped(store.db.rows, item)
    {
      hide Mapped, Exact, Known, Lookup, Strip;
      ghost var plain := IsExact() && ColonFree(item.customer) && ColonFree(item.invoice);
      if plain {
        StripKeepsColonFree(item.customer);
        StripKeepsColonFree(item.invoice);
      }
      if item.invoice != "" {
        ok := IsMapped("invoice", Strip(item.invoice), now);
        if !ok {
          var order := Find("rental_orders", Strip(item.invoice), now);
          ok := order.Some?;
        }
      } else if item.customer != "" {
        ok := IsMapped("customer", Strip(item.customer), now);
      } else {
        ok := true;
      }
    }

    method CheckDependencies(item: Item, now: real) returns (ok: bool)
      requires store.Valid()
      modifies store.cache
      ensures old(IsExact()) && PlainItem(entity, item) ==> IsExact() && ok == Deps(store.db.rows, entity, item)
    {
      hide Exact, CustomerMapped, EquipmentMapped, PaymentMapped;
      if entity == "invoice" || entity == "rental_order" {
        ok := HasCustomer(item, now);
        if ok {
          ok := HasEquipment(item.assets, now);
        }
      } else if entity == "payment" {
        ok := HasPaymentParent(item, now);
      } else {
        ok := true;
      }
    }

    /** The guard, dropping a mapping whose Tally record is gone. */
    method GuardItem(item: Item, a: Answers) returns (stop: Option<Outcome>, ghost reverse: Option<Row>)
      requires store.Valid()
      modifies store.db, store.cache
      ensures IsReverse(old(store.db.rows), entity, item, reverse) && stop == Guard(entity, item, a, reverse)
      ensures store.db.rows == if stop == None then AfterGuard(old(store.db.rows), entity, reverse) else old(store.db.rows)
      ensures old(IsExact()) && ColonFree(entity) ==> IsExact()
    {
      ghost var t, c := store.db.rows, store.cache.entries;
      var found: Option<Row> := None;
      if Guards(entity) {
        found := store.FindByTarget(entity, item.id, "rentasst", "default");
      }
      reverse := found;
      if FromTally(found) {
        var name := SourceName(found.value);
        if name == "" || a.inTally {
          return Some(GuardedByMapping), reverse;
        }
        var deleted := store.Delete(entity, name);
        if Exact(t, c) && ColonFree(entity) {
          NameIsPlain(t, entity, item, found);
          ExactAfterDelete(t, c, entity, name);
        }
      } else if ReadsNotes(entity) && IMPORTED <= item.notes {
        return Some(GuardedByNotes), reverse;
      }
      return None, reverse;
    }

    /** sync_func, called only inside the item's critical section. */
    method Push(item: Item, a: Answers) returns (id: Option<string>)
      requires LockOf(item) in locks.rows && locks.rows[LockOf(item)] == L.Lease(worker, a.now + LEASE_SECONDS)
      modifies this`pushed
      ensures pushed == old(pushed) + [item.id] && id == a.sync
    {
      pushed := pushed + [item.id];
      id := a.sync;
    }

    method Save(item: Item, target: string) returns (saved: bool)
      requires store.Valid()
      modifies store.db, store.cache
      ensures saved == !KeyTaken(old(store.db.rows), RowFor(entity, item, target))
      ensures store.db.rows == AfterSaveTable(old(store.db.rows), RowFor(entity, item, target))
      ensures old(IsExact()) && PlainItem(entity, item) ==> IsExact()
    {
      ghost var t, c := store.db.rows, store.cache.entries;
      saved := store.SaveMapping(entity, item.id, target, "rentasst", "default", "tally", "default",
                                 KeyFor(entity, item), Some(item.hash), "synced");
      if Exact(t, c) && PlainItem(entity, item) {
        RowForFields(entity, item, target);
        ExactAfterSave(t, c, RowFor(entity, item, target));
      }
    }

    method FindsDuplicate(item: Item, now: real) returns (duplicate: bool)
      requires store.Valid()
      modifies store.cache
      ensures old(IsExact()) && PlainItem(entity, item) ==>
                IsExact() && duplicate == DuplicateRow(Lookup(store.db.rows, "default", entity, item.id), item.hash)
    {
      ghost var t, c := store.db.rows, store.cache.entries;
      duplicate := store.IsDuplicate(entity, item.id, item.hash, "default", now);
      if Exact(t, c) && PlainItem(entity, item) {
        ghost var found :| FindEffect(t, c, store.cache.entries, "default", entity, item.id, now, found)
                           && duplicate == DuplicateRow(found, item.hash);
        ExactAfterFind(t, c, store.cache.entries, entity, item.id, now, found);
      }
    }

    method ExternalId(item: Item, now: real) returns (ext: string)
      requires store.Valid()
      modifies store.cache
      ensures old(IsExact()) && PlainItem(entity, item) ==>
                IsExact() && ext == External(Lookup(store.db.rows, "default", entity, item.id))
    {
      ghost var t, c := store.db.rows, store.cache.entries;
      ext := store.GetExternalId(entity, item.id, "default", now);
      if Exact(t, c) && PlainItem(entity, item) {
        ghost var found :| FindEffect(t, c, store.cache.entries, "default", entity, item.id, now, found)
                           && ext == if found == None then "" else Or(found.value.target, found.value.external);
        ExactAfterFind(t, c, store.cache.entries, entity, item.id, now, found);
      }
    }

    /** Step 5: create or update. */
    method Execute(item: Item, a: Answers) returns (o: Outcome)
      requires store.Valid()
      requires LockOf(item) in locks.rows && locks.rows[LockOf(item)] == L.Lease(worker, a.now + LEASE_SECONDS)
      modifies this`pushed, store.db, store.cache
      ensures Synced(o) && pushed == old(pushed) + [item.id]
      ensures old(IsExact()) && PlainItem(entity, item) ==>
                IsExact() && (store.db.rows, o) == AfterSync(old(store.db.rows), entity, item, a)
    {
      hide Exact, PlainItem, RowFor, KeyTaken, External, Lookup;
      var ext := ExternalId(item, a.now as real);
      var id := Push(item, a);
      if id == None {
        return SyncRaised;
      }
      var saved := Save(item, Or(id.value, Or(ext, item.id)));
      o := if !saved then SaveRefused else if ext != "" then Updated else Created;
    }

    /** Steps 3 to 5: deduplication, timeout recovery, execution. */
    method Deduplicate(item: Item, a: Answers) returns (o: Outcome)
      requires store.Valid()
      requires LockOf(item) in locks.rows && locks.rows[LockOf(item)] == L.Lease(worker, a.now + LEASE_SECONDS)
      modifies this`pushed, store.db, store.cache
      ensures Synced(o) || o.Unchanged? || o.Adopted? || o.Aborted?
      ensures pushed == if Synced(o) then old(pushed) + [item.id] else old(pushed)
      ensures old(IsExact()) && PlainItem(entity, item) ==>
                IsExact() && (store.db.rows, o) == AfterChecks(old(store.db.rows), entity, item, a)
    {
      RowForFields(entity, item, "");
      hide Exact, PlainItem, RowFor, KeyTaken, KeyFor, AfterSync, DuplicateRow, Lookup;
      var mapping := store.FindByIntegrationKey(KeyFor(entity, item));
      if mapping.Some? {
        var duplicate := FindsDuplicate(item, a.now as real);
        if duplicate && (item.identifier == "" || a.present) {
          return Unchanged;
        }
      } else if item.identifier != "" && a.present {
        var saved := Save(item, item.identifier);
        return if saved then Adopted else Aborted;
      }
      o := Execute(item, a);
    }

    /** Inside the record's lock. */
    method ProcessLocked(item: Item, a: Answers) returns (o: Outcome)
      requires store.Valid()
      requires LockOf(item) in locks.rows && locks.rows[LockOf(item)] == L.Lease(worker, a.now + LEASE_SECONDS)
      modifies this, store.db, store.cache
      ensures !o.GuardedByMapping? && !o.GuardedByNotes? && !o.Locked?
      ensures pushed == if Synced(o) then old(pushed) + [item.id] else old(pushed)
      ensures letters == if Failed(o) then old(letters) + [item.id] else old(letters)
      ensures old(IsExact()) && PlainItem(entity, item) ==>
                IsExact() && (store.db.rows, o) == AfterLock(old(store.db.rows), entity, item, a, true)
    {
      hide Exact, PlainItem, AfterChecks, Deps;
      if !item.valid {
        letters := letters + [item.id];
        return Invalid;
      }
      var ready := CheckDependencies(item, a.now as real);
      if !ready {
        return MissingDeps;
      }
      o := Deduplicate(item, a);
      if Failed(o) {
        letters := letters + [item.id];
      }
    }

    /** One item: whatever happens, its lock is given back and it is counted once. */
    method ProcessItem(item: Item, a: Answers) returns (o: Outcome, ghost seen: Seen)
      requires store.Valid() && worker != ""
      modifies this, store.db, store.cache, locks
      ensures LocksRestored(old(locks.rows), locks.rows)
      ensures pushed == if Synced(o) then old(pushed) + [item.id] else old(pushed)
      ensures letters == if Failed(o) then old(letters) + [item.id] else old(letters)
      ensures seen.free == L.CanAcquire(old(locks.rows), LockOf(item), worker, a.now)
      ensures IsReverse(old(store.db.rows), entity, item, seen.reverse)
      ensures old(IsExact()) && PlainItem(entity, item) ==>
                IsExact() && (store.db.rows, o) == AfterItem(old(store.db.rows), entity, item, a, seen)
    {
      hide Exact, AfterLock, AfterGuard, IsReverse, Guard, L.LockKey;
      ghost var reverse;
      var stop;
      stop, reverse := GuardItem(item, a);
      seen := Seen(reverse, L.CanAcquire(locks.rows, LockOf(item), worker, a.now));
      if stop.Some? {
        GuardOnlySkips(entity, item, a, reverse);
        return stop.value, seen;
      }
      var taken := locks.AcquireLock(LockOf(item), worker, a.now, LEASE_SECONDS);
      if !taken {
        LockedAfter(store.db.rows, entity, item, a);
        return Locked, seen;
      }
      o := ProcessLocked(item, a);
      var released := locks.ReleaseLock(LockOf(item), worker);
    }

    method ProcessBatch(items: seq<Item>, answers: seq<Answers>, from: nat, to: nat, stats: Stats)
      returns (ok: bool, after: Stats, outcomes: seq<Outcome>, ghost seen: seq<Seen>, ghost tables: seq<Table>)
      requires store.Valid() && worker != "" && |answers| == |items| && from <= to <= |items|
      modifies this, store.db, store.cache, locks
      ensures LocksRestored(old(locks.rows), locks.rows)
      ensures ok ==> Counted(stats, after, outcomes) && |outcomes| == to - from
      ensures ok ==> |letters| - |old(letters)| == after.failed - stats.failed
      ensures ok && old(IsExact()) && PlainItems(entity, items) ==>
                IsExact() && IsPass(entity, items[from..to], answers[from..to], seen, tables, outcomes)
                && tables[0] == old(store.db.rows) && tables[to - from] == store.db.rows
    {
      hide Exact, PlainItem, IsReverse, AfterItem, L.LockKey;
      ghost var exact := IsExact() && PlainItems(entity, items);
      ok, after, outcomes, seen, tables := true, stats, [], [], [store.db.rows];
      for i := from to to
        invariant LocksRestored(old(locks.rows), locks.rows)
        invariant Counted(stats, after, outcomes) && |outcomes| == |seen| == i - from && |tables| == i - from + 1
        invariant |letters| - |old(letters)| == after.failed - stats.failed
        invariant exact ==> IsExact() && IsPass(entity, items[from..i], answers[from..i], seen, tables, outcomes)
                            && tables[0] == old(store.db.rows) && tables[i - from] == store.db.rows
      {
        ghost var look;
        var o;
        o, look := ProcessItem(items[i], answers[i]);
        if o == Aborted {
          ok := false;
          return;
        }
        if exact {
          OneMoreItem(entity, items[from..i], answers[from..i], seen, tables, outcomes, items[i], answers[i], look, store.db.rows, o);
          assert items[from..i + 1] == items[from..i] + [items[i]];
          assert answers[from..i + 1] == answers[from..i] + [answers[i]];
        }
        CountedMore(stats, after, outcomes, o);
        after := Count(after, o);
        outcomes, seen, tables := outcomes + [o], seen + [look], tables + [store.db.rows];
      }
    }

    /** The whole pass. `ok` is false only when saving an adopted mapping was refused,
        which aborts the pass; otherwise every item is counted once, under one head, and
        the dead letters are the failures. The pass is the model's pass. */
    method RunSyncPipeline(items: seq<Item>, answers: seq<Answers>, batchSize: nat)
      returns (ok: bool, stats: Stats, outcomes: seq<Outcome>, ghost seen: seq<Seen>, ghost tables: seq<Table>)
      requires store.Valid() && worker != "" && |answers| == |items| && batchSize >= 1
      modifies this, store.db, store.cache, locks
      ensures LocksRestored(old(locks.rows), locks.rows)
      ensures ok ==> stats.processed == |items| && Balanced(stats) && |letters| - |old(letters)| == stats.failed
      ensures ok ==> Counted(Stats(0, 0, 0, 0, 0), stats, outcomes)
      ensures ok && old(IsExact()) && PlainItems(entity, items) ==>
                IsPass(entity, items, answers, seen, tables, outcomes)
                && tables[0] == old(store.db.rows) && tables[|items|] == store.db.rows
    {
      hide Exact, PlainItems, IsPass, Counted, LocksRestored, Done, Balanced;
      ghost var exact := IsExact() && PlainItems(entity, items);
      ghost var locked, t0 := locks.rows, store.db.rows;
      ok, stats, outcomes, seen, tables := true, Stats(0, 0, 0, 0, 0), [], [], [t0];
      NothingYet(entity, items, answers, stats, t0, locked);
      var from := 0;
      while from < |items|
        invariant 0 <= from <= |items|
        invariant LocksRestored(locked, locks.rows)
        invariant Counted(Stats(0, 0, 0, 0, 0), stats, outcomes) && |outcomes| == from
        invariant |letters| - |old(letters)| == stats.failed
        invariant exact ==> IsExact() && Done(entity, items, answers, from, seen, tables, outcomes, t0, store.db.rows)
      {
        var to := if from + batchSize <= |items| then from + batchSize else |items|;
        ghost var between, t1, before := locks.rows, store.db.rows, stats;
        ghost var look, tabs;
        var outs;
        ok, stats, outs, look, tabs := PrefetchAndProcess(items, answers, from, to, stats);
        RestoredThrough(locked, between, locks.rows);
        if !ok {
          return;
        }
        CountedThrough(Stats(0, 0, 0, 0, 0), before, stats, outcomes, outs);
        if exact {
          DoneMore(entity, items, answers, from, to, seen, tables, outcomes, t0, t1, look, tabs, outs, store.db.rows);
          seen, tables := seen + look, tables + tabs[1..];
        }
        outcomes := outcomes + outs;
        from := to;
      }
      CountedBalances(Stats(0, 0, 0, 0, 0), stats, outcomes);
      if exact {
        DoneIsPass(entity, items, answers, seen, tables, outcomes, t0, store.db.rows);
      }
    }

    /** One batch: the prefetch, then its items. */
    method PrefetchAndProcess(items: seq<Item>, answers: seq<Answers>, from: nat, to: nat, stats: Stats)
      returns (ok: bool, after: Stats, outcomes: seq<Outcome>, ghost seen: seq<Seen>, ghost tables: seq<Table>)
      requires store.Valid() && worker != "" && |answers| == |items| && from < to <= |items|
      modifies this, store.db, store.cache, locks
      ensures LocksRestored(old(locks.rows), locks.rows)
      ensures ok ==> Counted(stats, after, outcomes) && |outcomes| == to - from
      ensures ok ==> |letters| - |old(letters)| == after.failed - stats.failed
      ensures ok && old(IsExact()) && PlainItems(entity, items) ==>
                IsExact() && IsPass(entity, items[from..to], answers[from..to], seen, tables, outcomes)
                && tables[0] == old(store.db.rows) && tables[to - from] == store.db.rows
    {
      hide Exact, PlainItems, IsPass, Counted, LocksRestored, PrefetchEffect;
      var ids := seq(to - from, i requires 0 <= i < to - from => items[from + i].id);
      ghost var cached := store.cache.entries;
      ghost var exact := IsExact();
      store.PrefetchMappings(entity, ids, "default", answers[from].now as real);
      if exact {
        ghost var wanted := set i | 0 <= i < |ids| && ids[i] != "" :: Strip(ids[i]);
        ExactAfterPrefetch(store.db.rows, cached, store.cache.entries, entity, wanted, answers[from].now as real);
      }
      ok, after, outcomes, seen, tables := ProcessBatch(items, answers, from, to, stats);
    }
  }

  /** The first n items are behind, taking table t0 to t. */
  ghost predicate Done(entity: string, items: seq<Item>, answers: seq<Answers>, n: nat, seen: seq<Seen>,
                       tables: seq<Table>, outcomes: seq<Outcome>, t0: Table, t: Table)
    requires n <= |items| == |answers|
  {
    IsPass(entity, items[..n], answers[..n], seen, tables, outcomes) && tables[0] == t0 && tables[n] == t
  }

  lemma DoneMore(entity: string, items: seq<Item>, answers: seq<Answers>, from: nat, to: nat, seen: seq<Seen>,
                 tables: seq<Table>, outcomes: seq<Outcome>, t0: Table, t1: Table,
                 look: seq<Seen>, tabs: seq<Table>, outs: seq<Outcome>, t: Table)
    requires from <= to <= |items| == |answers|
    requires Done(entity, items, answers, from, seen, tables, outcomes, t0, t1)
    requires IsPass(entity, items[from..to], answers[from..to], look, tabs, outs) && tabs[0] == t1 && tabs[to - from] == t
    ensures |tabs| >= 1 && Done(entity, items, answers, to, seen + look, tables + tabs[1..], outcomes + outs, t0, t)
  {
    hide IsPass;
    PassesJoin(entity, items[..from], answers[..from], seen, tables, outcomes, items[from..to], answers[from..to], look, tabs, outs);
    assert items[..to] == items[..from] + items[from..to];
    assert answers[..to] == answers[..from] + answers[from..to];
  }

  lemma DoneIsPass(entity: string, items: seq<Item>, answers: seq<Answers>, seen: seq<Seen>,
                   tables: seq<Table>, outcomes: seq<Outcome>, t0: Table, t: Table)
    requires |items| == |answers| && Done(entity, items, answers, |items|, seen, tables, outcomes, t0, t)
    ensures IsPass(entity, items, answers, seen, tables, outcomes) && tables[0] == t0 && tables[|items|] == t
  {
  }

  function CountAll(s: Stats, outcomes: seq<Outcome>): Stats {
    if outcomes == [] then s else Count(CountAll(s, outcomes[..|outcomes| - 1]), outcomes[|outcomes| - 1])
  }

  /** No outcome aborted, and the counters moved by these outcomes exactly. */
  predicate Counted(before: Stats, after: Stats, outcomes: seq<Outcome>) {
    after == CountAll(before, outcomes) && Aborted !in outcomes
  }

  lemma CountedMore(before: Stats, after: Stats, outcomes: seq<Outcome>, o: Outcome)
    requires Counted(before, after, outcomes) && o != Aborted
    ensures Counted(before, Count(after, o), outcomes + [o])
  {
  }

  lemma {:induction false} CountedThrough(start: Stats, middle: Stats, end: Stats, xs: seq<Outcome>, ys: seq<Outcome>)
    requires Counted(start, middle, xs) && Counted(middle, end, ys)
    ensures Counted(start, end, xs + ys)
    decreases |ys|
  {
    if ys == [] {
      assert xs + ys == xs;
    } else {
      var n := |ys| - 1;
      CountedThrough(start, middle, CountAll(middle, ys[..n]), xs, ys[..n]);
      assert (xs + ys)[..|xs + ys| - 1] == xs + ys[..n];
    }
  }

  /** Every counted item falls under exactly one of the four heads. */
  lemma {:induction false} CountedBalances(before: Stats, after: Stats, outcomes: seq<Outcome>)
    requires Counted(before, after, outcomes) && Balanced(before)
    ensures Balanced(after) && after.processed == before.processed + |outcomes|
    decreases |outcomes|
  {
    if outcomes != [] {
      var n := |outcomes| - 1;
      assert outcomes[n] in outcomes;
      CountedBalances(before, CountAll(before, outcomes[..n]), outcomes[..n]);
    }
  }

  /** Each counter moved by the items with its own outcomes. */
  lemma {:induction false} CountedByOutcome(before: Stats, after: Stats, outcomes: seq<Outcome>)
    requires Counted(before, after, outcomes)
    ensures var m := multiset(outcomes);
            && after.processed == before.processed + |outcomes|
            && after.created == before.created + m[Created] && after.updated == before.updated + m[Updated]
            && after.failed == before.failed + m[Invalid] + m[SyncRaised] + m[SaveRefused]
            && after.skipped == before.skipped + m[GuardedByMapping] + m[GuardedByNotes] + m[Locked] + m[MissingDeps] + m[Unchanged]
                                + m[Adopted]
    decreases |outcomes|
  {
    if outcomes != [] {
      var n := |outcomes| - 1;
      assert outcomes == outcomes[..n] + [outcomes[n]] && outcomes[n] in outcomes;
      CountedByOutcome(before, CountAll(before, outcomes[..n]), outcomes[..n]);
    }
  }

  lemma RestoredThrough(a: L.LockTable, b: L.LockTable, c: L.LockTable)
    requires LocksRestored(a, b) && LocksRestored(b, c)
    ensures LocksRestored(a, c)
  {
  }

  lemma NothingYet(entity: string, items: seq<Item>, answers: seq<Answers>, s: Stats, t: Table, l: L.LockTable)
    requires |items| == |answers|
    ensures Counted(s, s, []) && LocksRestored(l, l) && Done(entity, items, answers, 0, [], [t], [], t, t)
  {
  }

  lemma PassesJoin(entity: string, items: seq<Item>, answers: seq<Answers>, seen: seq<Seen>, tables: seq<Table>,
                   outcomes: seq<Outcome>, items': seq<Item>, answers': seq<Answers>, seen': seq<Seen>,
                   tables': seq<Table>, outcomes': seq<Outcome>)
    requires IsPass(entity, items, answers, seen, tables, outcomes)
    requires IsPass(entity, items', answers', seen', tables', outcomes') && tables'[0] == tables[|items|]
    ensures IsPass(entity, items + items', answers + answers', seen + seen', tables + tables'[1..], outcomes + outcomes')
    ensures |tables| == |items| + 1 && |tables'| == |items'| + 1
    ensures (tables + tables'[1..])[0] == tables[0]
    ensures (tables + tables'[1..])[|items| + |items'|] == tables'[|items'|]
  {
    hide IsReverse, AfterItem;
    var ts := tables + tables'[1..];
    forall i | 0 <= i <= |items'| ensures ts[|items| + i] == tables'[i] {
    }
    forall i | |items| <= i < |items + items'|
      ensures IsReverse(ts[i], entity, (items + items')[i], (seen + seen')[i].reverse)
      ensures (ts[i + 1], (outcomes + outcomes')[i]) == AfterItem(ts[i], entity, (items + items')[i], (answers + answers')[i], (seen + seen')[i])
    {
      var k := i - |items|;
      assert ts[i] == tables'[k] && ts[|items| + (k + 1)] == tables'[k + 1];
    }
  }

  lemma GuardOnlySkips(entity: string, item: Item, a: Answers, reverse: Option<Row>)
    requires Guard(entity, item, a, reverse).Some?
    ensures Skipped(Guard(entity, item, a, reverse).value)
  {
  }

  lemma LockedAfter(t: Table, entity: string, item: Item, a: Answers)
    ensures AfterLock(t, entity, item, a, false) == (t, Locked)
  {
  }

  lemma OneMoreItem(entity: string, items: seq<Item>, answers: seq<Answers>, seen: seq<Seen>, tables: seq<Table>,
                    outcomes: seq<Outcome>, item: Item, a: Answers, look: Seen, t: Table, o: Outcome)
    requires IsPass(entity, items, answers, seen, tables, outcomes)
    requires IsReverse(tables[|items|], entity, item, look.reverse)
    requires (t, o) == AfterItem(tables[|items|], entity, item, a, look)
    ensures IsPass(entity, items + [item], answers + [a], seen + [look], tables + [t], outcomes + [o])
  {
    hide IsReverse, AfterItem;
  }

  lemma NameIsPlain(t: Table, entity: string, item: Item, found: Option<Row>)
    requires PlainRows(t) && IsReverse(t, entity, item, found) && found.Some?
    ensures ColonFree(SourceName(found.value))
  {
  }
}
