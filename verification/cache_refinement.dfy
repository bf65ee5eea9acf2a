/** The cache refines the mapping table: over every run of one store, with other
    stores of the same database writing at any moment, and with this store's own
    operations as app/mapping/store.py defines them. */
module CacheRefinement {
  import opened Text
  import opened Wrappers
  import opened MappingTable
  import opened Cache
  import opened MappingStores

  datatype View = View(table: Table, now: real)

  /** `views` records the database at every step; the last one is current. */
  datatype History = History(views: seq<View>, cache: Entries<Row>)
  type State = h: History | h.views != [] witness History([View(map[], 0.0)], map[])

  datatype Op =
    | Find(company: string, entity: string, id: string, answer: Option<Row>)
    | Prefetch(company: string, entity: string, ids: set<string>)
    | Save(row: Row)
    | Delete(entity: string, id: string)
    | Foreign(table: Table)
    | Tick(elapsed: real)

  function Now(s: State): View {
    s.views[|s.views| - 1]
  }

  ghost predicate Step(s: State, op: Op, s': State) {
    && |s'.views| == |s.views| + 1 && s'.views[..|s.views|] == s.views
    && var v, v' := Now(s), Now(s');
       match op
       case Find(c, e, i, answer) =>
         v' == v && FindEffect(v.table, s.cache, s'.cache, c, e, i, v.now, answer)
       case Prefetch(c, e, ids) =>
         v' == v && PrefetchEffect(v.table, s.cache, s'.cache, c, e, ids, v.now)
       case Save(r) =>
         r.rentasst == RentasstId(r.company, r.source)
         && v' == v.(table := AfterSaveTable(v.table, r)) && s'.cache == AfterSaveCache(v.table, s.cache, r)
       case Delete(e, i) =>
         v' == v.(table := Deleted(v.table, e, i)) && s'.cache == AfterDeleteCache(v.table, s.cache, e, i)
       case Foreign(t) =>
         WellFormed(t) && v' == v.(table := t) && s'.cache == s.cache
       case Tick(d) =>
         0.0 <= d && v' == v.(now := v.now + d) && s'.cache == s.cache
  }

  ghost predicate Start(s: State) {
    |s.views| == 1 && WellFormed(s.views[0].table) && s.cache == map[]
  }

  ghost predicate IsRun(states: seq<State>, ops: seq<Op>) {
    |states| == |ops| + 1 && Start(states[0])
    && forall i :: 0 <= i < |ops| ==> Step(states[i], ops[i], states[i + 1])
  }

  predicate Plain(company: string, entity: string, id: string) {
    ColonFree(company) && ColonFree(entity) && ColonFree(id)
  }

  lemma ColonsOfKey(company: string, entity: string, id: string)
    ensures Colons(CacheKey(company, entity, id)) == 3 + Colons(company) + Colons(entity) + Colons(id)
  {
    ColonsOfConcat("map:" + company + ":" + entity + ":", id);
    ColonsOfConcat("map:" + company + ":" + entity, ":");
    ColonsOfConcat("map:" + company + ":", entity);
    ColonsOfConcat("map:" + company, ":");
    ColonsOfConcat("map:", company);
    assert Colons("map:") == 1 && Colons(":") == 1;
  }

  lemma PlainByCount(company: string, entity: string, id: string)
    ensures Plain(company, entity, id) <==> Colons(CacheKey(company, entity, id)) == 3
  {
    ColonsOfKey(company, entity, id);
    NoColonsIsColonFree(company);
    NoColonsIsColonFree(entity);
    NoColonsIsColonFree(id);
  }

  lemma KeyAsPairs(c: string, e: string, i: string)
    ensures CacheKey(c, e, i) == "map" + ":" + (c + ":" + (e + ":" + i))
  {
  }

  /** The key of a colon-free query is the key of no other query at all. */
  lemma KeyIsUnambiguous(c: string, e: string, i: string, c': string, e': string, i': string)
    requires Plain(c, e, i) && CacheKey(c, e, i) == CacheKey(c', e', i')
    ensures c == c' && e == e' && i == i'
  {
    PlainByCount(c, e, i);
    PlainByCount(c', e', i');
    KeyAsPairs(c, e, i);
    KeyAsPairs(c', e', i');
    HeadOfColonPair("map", c + ":" + (e + ":" + i), "map", c' + ":" + (e' + ":" + i'));
    HeadOfColonPair(c, e + ":" + i, c', e' + ":" + i');
    HeadOfColonPair(e, i, e', i');
  }

  // ---------- any writers: answers are at most one TTL old ----------

  /** The table gave this answer at some moment no older than `since`. */
  ghost predicate AnsweredSince(views: seq<View>, since: real, c: string, e: string, i: string, answer: Option<Row>) {
    exists j :: 0 <= j < |views| && since <= views[j].now && Lookup(views[j].table, c, e, i) == answer
  }

  ghost predicate EntriesAreRecent(s: State) {
    && (forall j :: 0 <= j < |s.views| ==> WellFormed(s.views[j].table) && s.views[j].now <= Now(s).now)
    && forall c, e, i :: Plain(c, e, i) && CacheKey(c, e, i) in s.cache ==>
         AnsweredSince(s.views, s.cache[CacheKey(c, e, i)].expires - CACHE_TTL_SECONDS, c, e, i,
                       Some(s.cache[CacheKey(c, e, i)].value))
  }

  lemma StepTableIsWellFormed(s: State, op: Op, s': State)
    requires Step(s, op, s') && WellFormed(Now(s).table)
    ensures WellFormed(Now(s').table)
  {
  }

  /** An entry of a plain query after a step was there before, or was written by this
      very step from the current table. */
  lemma EntryOrigin(s: State, op: Op, s': State, c: string, e: string, i: string)
    requires Step(s, op, s') && WellFormed(Now(s).table) && Plain(c, e, i) && CacheKey(c, e, i) in s'.cache
    ensures var key := CacheKey(c, e, i);
            (key in s.cache && s'.cache[key] == s.cache[key])
            || (s'.cache[key].expires == Now(s').now + CACHE_TTL_SECONDS
                && Lookup(Now(s').table, c, e, i) == Some(s'.cache[key].value))
  {
    var key, t := CacheKey(c, e, i), Now(s).table;
    match op
    case Find(c', e', i', answer) =>
      if !(key in s.cache && s'.cache[key] == s.cache[key]) {
        KeyIsUnambiguous(c, e, i, c', e', i');
        BestIsLookup(t, c, e, i, answer);
      }
    case Prefetch(c', e', ids) =>
      if !(key in s.cache && s'.cache[key] == s.cache[key]) {
        var h :| h in PrefetchHits(t, c', e', ids) && SourceName(t[h]) != ""
                 && key == CacheKey(c', e', SourceName(t[h])) && s'.cache[key] == Entry(t[h], Now(s).now + CACHE_TTL_SECONDS);
        KeyIsUnambiguous(c, e, i, c', e', SourceName(t[h]));
        SourceHitIsLookup(t, c, e, i, h);
      }
    case _ =>
  }

  lemma RecencyKept(s: State, op: Op, s': State)
    requires EntriesAreRecent(s) && Step(s, op, s')
    ensures EntriesAreRecent(s')
  {
    StepTableIsWellFormed(s, op, s');
    forall c, e, i | Plain(c, e, i) && CacheKey(c, e, i) in s'.cache
      ensures AnsweredSince(s'.views, s'.cache[CacheKey(c, e, i)].expires - CACHE_TTL_SECONDS, c, e, i,
                            Some(s'.cache[CacheKey(c, e, i)].value))
    {
      EntryOrigin(s, op, s', c, e, i);
      var key := CacheKey(c, e, i);
      if key in s.cache && s'.cache[key] == s.cache[key] {
        var j :| 0 <= j < |s.views| && s.cache[key].expires - CACHE_TTL_SECONDS <= s.views[j].now
                 && Lookup(s.views[j].table, c, e, i) == Some(s.cache[key].value);
        assert s'.views[j] == s.views[j];
      } else {
        assert s'.views[|s.views|] == Now(s');
      }
    }
    forall j | 0 <= j < |s'.views|
      ensures WellFormed(s'.views[j].table) && s'.views[j].now <= Now(s').now
    {
      if j < |s.views| {
        assert s'.views[j] == s.views[j];
      }
    }
  }

  lemma {:induction false} RecentThroughout(states: seq<State>, ops: seq<Op>, n: nat)
    requires IsRun(states, ops) && n < |states|
    ensures EntriesAreRecent(states[n])
  {
    if n > 0 {
      RecentThroughout(states, ops, n - 1);
      RecencyKept(states[n - 1], ops[n - 1], states[n]);
    }
  }

  /** In every run, whatever other stores of the database write and whenever, each
      find_mapping answer for colon-free arguments was the table's own answer at
      some moment of the last CACHE_TTL_SECONDS; "no mapping" is never stale. */
  lemma AnswersAreRecent(states: seq<State>, ops: seq<Op>, n: nat)
    requires IsRun(states, ops) && n < |ops| && ops[n].Find? && Plain(ops[n].company, ops[n].entity, ops[n].id)
    ensures var q := ops[n];
            AnsweredSince(states[n].views, Now(states[n]).now - CACHE_TTL_SECONDS, q.company, q.entity, q.id, q.answer)
            && (q.answer == None ==> Lookup(Now(states[n]).table, q.company, q.entity, q.id) == None)
  {
    RecentThroughout(states, ops, n);
    var s, q := states[n], ops[n];
    assert Step(s, q, states[n + 1]);
    var key := CacheKey(q.company, q.entity, q.id);
    if Peek(s.cache, key, Now(s).now).Some? {
      var j :| 0 <= j < |s.views| && s.cache[key].expires - CACHE_TTL_SECONDS <= s.views[j].now
               && Lookup(s.views[j].table, q.company, q.entity, q.id) == Some(s.cache[key].value);
      assert Now(s).now - CACHE_TTL_SECONDS <= s.views[j].now;
    } else {
      BestIsLookup(Now(s).table, q.company, q.entity, q.id, q.answer);
      assert s.views[|s.views| - 1] == Now(s);
    }
  }

  // ---------- one writer, default company: answers are exact ----------

  /** Every cached row of the default company is the current row. */
  ghost predicate Coherent(t: Table, cache: Entries<Row>) {
    forall e, i :: Plain("default", e, i) && CacheKey("default", e, i) in cache ==>
      Lookup(t, "default", e, i) == Some(cache[CacheKey("default", e, i)].value)
  }

  predicate OwnWrite(op: Op) {
    match op
    case Save(r) => r.company == "default" && Plain("default", r.entity, r.source)
    case Delete(e, i) => Plain("default", e, i)
    case Foreign(_) => false
    case _ => true
  }

  ghost predicate OnlyDefaultRows(t: Table) {
    forall k :: k in t ==> t[k].company == "default"
  }

  lemma CoherenceKept(s: State, op: Op, s': State)
    requires Step(s, op, s') && OwnWrite(op)
    requires WellFormed(Now(s).table) && OnlyDefaultRows(Now(s).table) && Coherent(Now(s).table, s.cache)
    ensures WellFormed(Now(s').table) && OnlyDefaultRows(Now(s').table) && Coherent(Now(s').table, s'.cache)
  {
    StepTableIsWellFormed(s, op, s');
    var t := Now(s).table;
    forall e, i | Plain("default", e, i) && CacheKey("default", e, i) in s'.cache
      ensures Lookup(Now(s').table, "default", e, i) == Some(s'.cache[CacheKey("default", e, i)].value)
    {
      EntryOrigin(s, op, s', "default", e, i);
      if op.Save? && !KeyTaken(t, op.row) {
        assert e != op.row.entity || i != op.row.source;
      } else if op.Delete? && Deleted(t, op.entity, op.id) != t {
        assert e != op.entity || i != op.id;
      }
    }
  }

  lemma {:induction false} CoherentThroughout(states: seq<State>, ops: seq<Op>, n: nat)
    requires IsRun(states, ops) && n < |states|
    requires OnlyDefaultRows(states[0].views[0].table) && forall i :: 0 <= i < |ops| ==> OwnWrite(ops[i])
    ensures WellFormed(Now(states[n]).table) && OnlyDefaultRows(Now(states[n]).table)
    ensures Coherent(Now(states[n]).table, states[n].cache)
  {
    if n > 0 {
      CoherentThroughout(states, ops, n - 1);
      CoherenceKept(states[n - 1], ops[n - 1], states[n]);
    }
  }

  /** When every write of the default company goes through this store, each
      find_mapping answer is exactly the current row. */
  lemma AnswersAreCurrent(states: seq<State>, ops: seq<Op>, n: nat)
    requires IsRun(states, ops) && n < |ops| && ops[n].Find?
    requires ops[n].company == "default" && Plain("default", ops[n].entity, ops[n].id)
    requires OnlyDefaultRows(states[0].views[0].table) && forall i :: 0 <= i < |ops| ==> OwnWrite(ops[i])
    ensures ops[n].answer == Lookup(Now(states[n]).table, "default", ops[n].entity, ops[n].id)
  {
    CoherentThroughout(states, ops, n);
    CurrentAnswer(Now(states[n]).table, states[n].cache, states[n + 1].cache, ops[n].entity, ops[n].id,
                  Now(states[n]).now, ops[n].answer);
  }

  lemma CurrentAnswer(t: Table, c: Entries<Row>, c': Entries<Row>, e: string, i: string, now: real, answer: Option<Row>)
    requires WellFormed(t) && Coherent(t, c) && Plain("default", e, i)
    requires FindEffect(t, c, c', "default", e, i, now, answer)
    ensures answer == Lookup(t, "default", e, i)
  {
    if Peek(c, CacheKey("default", e, i), now) == None {
      BestIsLookup(t, "default", e, i, answer);
    }
  }

  /** delete() clears only the default company's key. After it, a cached live entry
      of another company for the deleted id still answers find_mapping, with a row
      the table no longer has; the default company's never does. */
  lemma DeleteLeavesOtherCompaniesStale(t: Table, c: Entries<Row>, company: string, e: string, i: string, now: real)
    requires WellFormed(t) && Plain(company, e, i)
    requires Lookup(t, company, e, i).Some? && Peek(c, CacheKey(company, e, i), now) == Lookup(t, company, e, i)
    ensures Lookup(Deleted(t, e, i), company, e, i) == None
    ensures Peek(AfterDeleteCache(t, c, e, i), CacheKey(company, e, i), now).Some? <==> company != "default"
  {
    var k := (e, RentasstId(company, i));
    SameRentasstId(company, t[k].source, i);
    assert k !in Deleted(t, e, i);
    if CacheKey(company, e, i) == CacheKey("default", e, i) {
      KeyIsUnambiguous(company, e, i, "default", e, i);
    }
  }
}
