/** The three-strike rule of the reverse voucher loop (app/sync/tally_to_rentasst.py): a
    rentout whose missing items cannot be pushed is given up after three failures, which
    are counted in the version column of a mapping row. Its items are counted before
    they are pushed, so that none is pushed twice. */
module Backfill {
  import opened Text
  import opened Wrappers
  import opened MappingTable
  import opened MappingStores
  import opened CacheRefinement
  import opened Pipelines

  const FAILURES := "rentout_backfill_failures"

  datatype Push = Accepted | Broken(landed: bool)

  /** What one cycle meets: whether RentAsst answers with the rentout's items, a 404 or an
      exception counting as none, and how pushing the lines would end. */
  datatype Cycle = Cycle(answered: bool, push: Push)

  datatype Outcome = GivenUp | HasItems | Filled | Strike | Refused

  function StrikeRow(guid: string, target: string, status: string): Row {
    NewRow(FAILURES, guid, target, "tally", "default", "rentasst", "default", "", None, status)
  }

  function Tracker(t: Table, guid: string): Option<Row> {
    Lookup(t, "default", FAILURES, guid)
  }

  predicate Blocked(t: Table, guid: string) {
    Tracker(t, guid).Some? && Tracker(t, guid).value.status == "blocked"
  }

  predicate Lands(p: Push) {
    p.Accepted? || p.landed
  }

  /** The lines are pushed: no items were listed. */
  predicate Pushes(items: nat, c: Cycle) {
    !c.answered || items == 0
  }

  predicate Fails(items: nat, c: Cycle) {
    Pushes(items, c) && c.push.Broken?
  }

  function ItemsAfter(items: nat, lines: nat, c: Cycle): nat {
    if Pushes(items, c) && Lands(c.push) then items + lines else items
  }

  function AfterStrike(t: Table, guid: string, target: string): (Table, Outcome) {
    var t1 := AfterSaveTable(t, StrikeRow(guid, target, "failed"));
    if KeyTaken(t, StrikeRow(guid, target, "failed")) then (t, Refused)
    else if Tracker(t1, guid).Some? && Tracker(t1, guid).value.version >= 3 then
      (AfterSaveTable(t1, StrikeRow(guid, target, "blocked")),
       if KeyTaken(t1, StrikeRow(guid, target, "blocked")) then Refused else Strike)
    else (t1, Strike)
  }

  /** One cycle for a rentout with `items` items and a voucher of `lines` lines: the
      table, the items and the outcome after it. */
  function AfterCycle(t: Table, items: nat, guid: string, target: string, lines: nat, c: Cycle): (Table, nat, Outcome) {
    if Blocked(t, guid) then (t, items, GivenUp)
    else if !Pushes(items, c) then (t, items, HasItems)
    else if c.push.Accepted? then (t, items + lines, Filled)
    else (AfterStrike(t, guid, target).0, ItemsAfter(items, lines, c), AfterStrike(t, guid, target).1)
  }

  /** One cycle of the program, for a voucher whose rentout is known. */
  method BackfillItems(store: MappingStore, items: nat, guid: string, target: string, lines: nat, c: Cycle, now: real)
    returns (left: nat, o: Outcome)
    requires store.Valid() && lines > 0
    modifies store.db, store.cache
    ensures Exact(old(store.db.rows), old(store.cache.entries)) && guid != "" && ColonFree(guid) ==>
              Exact(store.db.rows, store.cache.entries)
              && (store.db.rows, left, o) == AfterCycle(old(store.db.rows), items, guid, target, lines, c)
  {
    hide Exact, Lookup, KeyTaken, Upsert, NewRow;
    ghost var exact := Exact(store.db.rows, store.cache.entries) && guid != "" && ColonFree(guid);
    left := items;
    var tracker := FindTracker(store, guid, now);
    if tracker.Some? && tracker.value.status == "blocked" {
      return left, GivenUp;
    }
    var count := if c.answered then items else 0;
    if count != 0 {
      return left, HasItems;
    }
    if Lands(c.push) {
      left := left + lines;
    }
    if c.push.Accepted? {
      return left, Filled;
    }
    var saved := SaveStrike(store, guid, target, "failed");
    if !saved {
      return left, Refused;
    }
    var attempts := FindTracker(store, guid, now);
    if attempts.Some? && attempts.value.version >= 3 {
      saved := SaveStrike(store, guid, target, "blocked");
      return left, if saved then Strike else Refused;
    }
    return left, Strike;
  }

  method FindTracker(store: MappingStore, guid: string, now: real) returns (found: Option<Row>)
    requires store.Valid()
    modifies store.cache
    ensures Exact(store.db.rows, old(store.cache.entries)) && ColonFree(guid) ==>
              Exact(store.db.rows, store.cache.entries) && found == Tracker(store.db.rows, guid)
  {
    ghost var t, c := store.db.rows, store.cache.entries;
    found := store.FindMapping(FAILURES, guid, "default", now);
    if Exact(t, c) && ColonFree(guid) {
      ExactAfterFind(t, c, store.cache.entries, FAILURES, guid, now, found);
    }
  }

  method SaveStrike(store: MappingStore, guid: string, target: string, status: string) returns (saved: bool)
    requires store.Valid()
    modifies store.db, store.cache
    ensures saved == !KeyTaken(old(store.db.rows), StrikeRow(guid, target, status))
    ensures store.db.rows == AfterSaveTable(old(store.db.rows), StrikeRow(guid, target, status))
    ensures Exact(old(store.db.rows), old(store.cache.entries)) && guid != "" && ColonFree(guid) ==>
              Exact(store.db.rows, store.cache.entries)
  {
    ghost var t, c := store.db.rows, store.cache.entries;
    saved := store.SaveMapping(FAILURES, guid, target, "tally", "default", "rentasst", "default", "", None, status);
    if Exact(t, c) && guid != "" && ColonFree(guid) {
      ExactAfterSave(t, c, StrikeRow(guid, target, status));
    }
  }

  // ---------- any number of cycles ----------

  function Run(t: Table, items: nat, guid: string, target: string, lines: nat, cycles: seq<Cycle>): (Table, nat)
    decreases |cycles|
  {
    if cycles == [] then (t, items)
    else
      var s := AfterCycle(t, items, guid, target, lines, cycles[0]);
      Run(s.0, s.1, guid, target, lines, cycles[1..])
  }

  function Failures(items: nat, lines: nat, cycles: seq<Cycle>): nat
    decreases |cycles|
  {
    if cycles == [] then 0
    else (if Fails(items, cycles[0]) then 1 else 0) + Failures(ItemsAfter(items, lines, cycles[0]), lines, cycles[1..])
  }

  /** The tracker's key belongs to the tracker. */
  predicate OwnKey(t: Table, guid: string) {
    forall k :: k in t && t[k].key == StrikeRow(guid, "", "").key ==> k == (FAILURES, guid)
  }

  /** `n` failures so far, three meaning given up. */
  predicate Counts(t: Table, guid: string, n: nat) {
    && OwnKey(t, guid)
    && (n == 0 ==> Tracker(t, guid) == None && (FAILURES, guid) !in t)
    && (0 < n < 3 ==> Tracker(t, guid).Some? && Tracker(t, guid).value.version == n && Tracker(t, guid).value.status == "failed")
    && (n >= 3 ==> Blocked(t, guid))
  }

  lemma SavedStrike(t: Table, guid: string, target: string, status: string)
    requires OwnKey(t, guid) && ((FAILURES, guid) in t ==> t[(FAILURES, guid)].company == "default")
    ensures var r := StrikeRow(guid, target, status); var t' := AfterSaveTable(t, r);
            && !KeyTaken(t, r) && OwnKey(t', guid) && Tracker(t', guid).Some? && t'[(FAILURES, guid)].company == "default"
            && Tracker(t', guid).value.status == status
            && Tracker(t', guid).value.version == if (FAILURES, guid) in t then t[(FAILURES, guid)].version + 1 else 1
  {
  }

  lemma StrikeCounts(t: Table, items: nat, guid: string, target: string, lines: nat, c: Cycle, n: nat)
    requires Counts(t, guid, n)
    ensures var s := AfterCycle(t, items, guid, target, lines, c);
            && Counts(s.0, guid, if Fails(items, c) then n + 1 else n)
            && (n < 3 ==> s.1 == ItemsAfter(items, lines, c))
  {
    hide FAILURES, StrikeRow, OwnKey, KeyTaken, AfterSaveTable;
    assert RentasstId("default", guid) == guid;
    if Fails(items, c) && n < 3 {
      SavedStrike(t, guid, target, "failed");
      var t1 := AfterSaveTable(t, StrikeRow(guid, target, "failed"));
      SavedStrike(t1, guid, target, "blocked");
    }
  }

  lemma CountsBeyondThree(t: Table, guid: string, n: nat, m: nat)
    requires Counts(t, guid, n) && n >= 3 && m >= 3
    ensures Counts(t, guid, m)
  {
  }

  /** After any cycles, the rentout is given up if and only if at least three of them
      failed. They need not have been in a row: a success in between resets nothing. */
  lemma {:induction false} GivenUpIff(t: Table, items: nat, guid: string, target: string, lines: nat, cycles: seq<Cycle>, n: nat)
    requires Counts(t, guid, n)
    ensures Counts(Run(t, items, guid, target, lines, cycles).0, guid, n + Failures(items, lines, cycles))
    ensures Blocked(Run(t, items, guid, target, lines, cycles).0, guid) <==> n + Failures(items, lines, cycles) >= 3
    decreases |cycles|
  {
    hide FAILURES, OwnKey, AfterCycle, Fails, ItemsAfter, Lookup;
    if cycles != [] {
      var s, n' := AfterCycle(t, items, guid, target, lines, cycles[0]), if Fails(items, cycles[0]) then n + 1 else n;
      StrikeCounts(t, items, guid, target, lines, cycles[0], n);
      GivenUpIff(s.0, s.1, guid, target, lines, cycles[1..], n');
      if n >= 3 {
        CountsBeyondThree(Run(s.0, s.1, guid, target, lines, cycles[1..]).0, guid,
                          n' + Failures(s.1, lines, cycles[1..]), n + Failures(items, lines, cycles));
      }
    }
  }

  // ---------- duplicated items ----------

  /** A cycle adds to the items of a rentout that has some if and only if it is not given
      up, the list call failed, and the pushed lines landed. */
  lemma AddsToItemsIff(t: Table, items: nat, guid: string, target: string, lines: nat, c: Cycle)
    requires items > 0 && lines > 0
    ensures AfterCycle(t, items, guid, target, lines, c).1 != items <==> !Blocked(t, guid) && !c.answered && Lands(c.push)
    ensures AfterCycle(t, items, guid, target, lines, c).1 in {items, items + lines}
  {
  }

  /** Some cycle of the run does. */
  predicate PushesTwice(t: Table, items: nat, guid: string, target: string, lines: nat, cycles: seq<Cycle>)
    decreases |cycles|
  {
    cycles != []
    && var s := AfterCycle(t, items, guid, target, lines, cycles[0]);
       (items > 0 && !Blocked(t, guid) && !cycles[0].answered && Lands(cycles[0].push))
       || PushesTwice(s.0, s.1, guid, target, lines, cycles[1..])
  }

  lemma {:induction false} ItemsStay(t: Table, items: nat, guid: string, target: string, lines: nat, cycles: seq<Cycle>)
    ensures Run(t, items, guid, target, lines, cycles).1 >= items
    decreases |cycles|
  {
    hide AfterStrike, Blocked;
    if cycles != [] {
      var s := AfterCycle(t, items, guid, target, lines, cycles[0]);
      ItemsStay(s.0, s.1, guid, target, lines, cycles[1..]);
    }
  }

  /** After any cycles, the rentout has more than one copy of the lines if and only if in
      one of them it had items already, was not given up, and the list call failed while
      the push landed. So while every list call answers, it gets the lines once. */
  lemma {:induction false} DuplicatedIff(t: Table, items: nat, guid: string, target: string, lines: nat, cycles: seq<Cycle>)
    requires lines > 0
    ensures Run(t, items, guid, target, lines, cycles).1 > (if items == 0 then lines else items)
            <==> PushesTwice(t, items, guid, target, lines, cycles)
    ensures (forall k :: 0 <= k < |cycles| ==> cycles[k].answered) ==> !PushesTwice(t, items, guid, target, lines, cycles)
    decreases |cycles|
  {
    hide AfterStrike, Blocked;
    if cycles != [] {
      var s := AfterCycle(t, items, guid, target, lines, cycles[0]);
      DuplicatedIff(s.0, s.1, guid, target, lines, cycles[1..]);
      ItemsStay(s.0, s.1, guid, target, lines, cycles[1..]);
    }
  }

  /** Filled in the first cycle, and again in the second, whose list call fails. */
  lemma ItemsDuplicated(guid: string, target: string, lines: nat)
    requires lines > 0
    ensures Run(map[], 0, guid, target, lines, [Cycle(true, Accepted), Cycle(false, Accepted)]) == (map[], lines + lines)
  {
    var a, b := Cycle(true, Accepted), Cycle(false, Accepted);
    assert !Blocked(map[], guid);
    assert [a, b][1..] == [b] && [b][1..] == [];
    assert Run(map[], lines, guid, target, lines, [b]) == (map[], lines + lines);
  }
}
