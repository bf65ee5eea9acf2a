/** app/mapping/store.py: the repository over the mapping table with its cache.
    Several stores may share one database; each owns its cache. */
module MappingStores {
  import opened Text
  import opened Wrappers
  import opened MappingTable
  import opened Cache

  const CACHE_TTL_SECONDS := 300.0

  function CacheKey(company: string, entity: string, id: string): string {
    "map:" + company + ":" + entity + ":" + id
  }

  // ---------- what each cached operation does, as a relation ----------

  ghost predicate FindEffect(t: Table, c: Entries<Row>, c': Entries<Row>, company: string, entity: string, id: string,
                             now: real, answer: Option<Row>)
  {
    var key := CacheKey(company, entity, id);
    if Peek(c, key, now).Some? then
      answer == Peek(c, key, now) && c' == c
    else
      && Best(t, SourceHits(t, company, entity, id), answer)
      && c' == match answer
               case None => AfterGet(c, key, now)
               case Some(r) => AfterSet(AfterGet(c, key, now), key, r, now, CACHE_TTL_SECONDS)
  }

  function PrefetchHits(t: Table, company: string, entity: string, ids: set<string>): set<(string, string)> {
    set k | k in t && t[k].company == company && t[k].entity == entity && (t[k].source in ids || t[k].rentasst in ids)
  }

  /** Every row found is cached under its own id, and nothing else changes. */
  ghost predicate PrefetchEffect(t: Table, c: Entries<Row>, c': Entries<Row>, company: string, entity: string,
                                 ids: set<string>, now: real)
  {
    && (forall k :: k in c ==> k in c')
    && (forall k :: k in c' ==>
          || (k in c && c'[k] == c[k])
          || (exists h :: h in PrefetchHits(t, company, entity, ids) && SourceName(t[h]) != ""
                && k == CacheKey(company, entity, SourceName(t[h])) && c'[k] == Entry(t[h], now + CACHE_TTL_SECONDS)))
    && (forall h :: h in PrefetchHits(t, company, entity, ids) && SourceName(t[h]) != "" ==>
          CacheKey(company, entity, SourceName(t[h])) in c'
          && c'[CacheKey(company, entity, SourceName(t[h]))].expires == now + CACHE_TTL_SECONDS)
  }

  function AfterSaveCache(t: Table, c: Entries<Row>, r: Row): Entries<Row> {
    if KeyTaken(t, r) then c else c - {CacheKey(r.company, r.entity, r.source)}
  }

  function AfterSaveTable(t: Table, r: Row): Table {
    if KeyTaken(t, r) then t else Upsert(t, r)
  }

  function AfterDeleteCache(t: Table, c: Entries<Row>, entity: string, id: string): Entries<Row> {
    if Deleted(t, entity, id) == t then c else c - {CacheKey("default", entity, id)}
  }

  predicate DuplicateRow(found: Option<Row>, hash: string) {
    found.Some? && hash != "" && found.value.hash == Some(hash) && found.value.status == "synced"
  }

  class Database {
    var rows: Table

    constructor ()
      ensures rows == map[]
    {
      rows := map[];
    }
  }

  class MappingStore {
    const db: Database
    const cache: TTLCache<Row>

    constructor (db: Database)
      ensures this.db == db && fresh(cache) && cache.entries == map[] && Valid()
    {
      this.db := db;
      cache := new TTLCache(CACHE_TTL_SECONDS);
    }

    ghost predicate Valid() {
      cache.ttl == CACHE_TTL_SECONDS
    }

    /** The ranked SELECT shared by the finders. */
    method SelectBest(hits: set<(string, string)>) returns (answer: Option<Row>)
      requires hits <= db.rows.Keys
      ensures Best(db.rows, hits, answer)
    {
      answer := None;
      var todo := hits;
      while todo != {}
        invariant todo <= hits
        invariant Best(db.rows, hits - todo, answer)
        decreases todo
      {
        var k :| k in todo;
        if answer == None || answer.value.version < db.rows[k].version {
          answer := Some(db.rows[k]);
        }
        assert hits - (todo - {k}) == (hits - todo) + {k};
        todo := todo - {k};
      }
      assert hits - todo == hits;
    }

    /** Returns false when SQLite refuses the row on the integration-key index; the
        exception leaves both the table and the cache as they were. */
    method SaveMapping(entity: string, source: string, target: string, sourceSystem: string, company: string,
                       targetSystem: string, targetCompany: string, key: string, hash: Option<string>, status: string)
      returns (saved: bool)
      requires Valid()
      modifies db, cache
      ensures var r := NewRow(entity, source, target, sourceSystem, company, targetSystem, targetCompany, key, hash, status);
              saved == !KeyTaken(old(db.rows), r)
              && db.rows == AfterSaveTable(old(db.rows), r)
              && cache.entries == AfterSaveCache(old(db.rows), old(cache.entries), r)
    {
      var r := NewRow(entity, source, target, sourceSystem, company, targetSystem, targetCompany, key, hash, status);
      var others := set k | k in db.rows && k != RowKey(r) && db.rows[k].key == r.key;
      saved := r.key == "" || others == {};
      if !saved {
        var k :| k in others;
        assert KeyTaken(db.rows, r);
      } else if r.key != "" {
        assert forall k :: k in db.rows && k != RowKey(r) && db.rows[k].key == r.key ==> k in others;
      }
      if saved {
        db.rows := Upsert(db.rows, r);
        cache.Invalidate(CacheKey(company, entity, source));
      }
    }

    method FindMapping(entity: string, id: string, company: string, now: real) returns (found: Option<Row>)
      requires Valid()
      modifies cache
      ensures FindEffect(db.rows, old(cache.entries), cache.entries, company, entity, id, now, found)
    {
      var key := CacheKey(company, entity, id);
      found := cache.Get(key, now);
      if found == None {
        found := SelectBest(SourceHits(db.rows, company, entity, id));
        if found.Some? {
          cache.Set(key, found.value, now);
        }
      }
    }

    method PrefetchMappings(entity: string, ids: seq<string>, company: string, now: real)
      requires Valid()
      modifies cache
      ensures PrefetchEffect(db.rows, old(cache.entries), cache.entries, company, entity,
                             set i | 0 <= i < |ids| && ids[i] != "" :: Strip(ids[i]), now)
    {
      var wanted := set i | 0 <= i < |ids| && ids[i] != "" :: Strip(ids[i]);
      var hits := PrefetchHits(db.rows, company, entity, wanted);
      var todo := hits;
      while todo != {}
        invariant todo <= hits
        invariant forall k :: k in old(cache.entries) ==> k in cache.entries
        invariant forall k :: k in cache.entries ==>
            || (k in old(cache.entries) && cache.entries[k] == old(cache.entries)[k])
            || (exists h :: h in hits && SourceName(db.rows[h]) != ""
                  && k == CacheKey(company, entity, SourceName(db.rows[h]))
                  && cache.entries[k] == Entry(db.rows[h], now + CACHE_TTL_SECONDS))
        invariant forall h :: h in hits - todo && SourceName(db.rows[h]) != "" ==>
            CacheKey(company, entity, SourceName(db.rows[h])) in cache.entries
            && cache.entries[CacheKey(company, entity, SourceName(db.rows[h]))].expires == now + CACHE_TTL_SECONDS
        decreases todo
      {
        var h :| h in todo;
        todo := todo - {h};
        if SourceName(db.rows[h]) != "" {
          cache.Set(CacheKey(company, entity, SourceName(db.rows[h])), db.rows[h], now);
        }
      }
    }

    method FindByTarget(entity: string, id: string, targetSystem: string, targetCompany: string)
      returns (found: Option<Row>)
      ensures Best(db.rows, TargetHits(db.rows, targetCompany, entity, targetSystem, id), found)
    {
      found := SelectBest(TargetHits(db.rows, targetCompany, entity, targetSystem, id));
    }

    method FindByIntegrationKey(key: string) returns (found: Option<Row>)
      ensures key == "" ==> found == None
      ensures key != "" ==> Best(db.rows, KeyHits(db.rows, key), found)
    {
      if key == "" {
        return None;
      }
      found := SelectBest(KeyHits(db.rows, key));
    }

    method Delete(entity: string, id: string) returns (deleted: bool)
      requires Valid()
      modifies db, cache
      ensures db.rows == Deleted(old(db.rows), entity, id)
      ensures deleted == (db.rows != old(db.rows))
      ensures cache.entries == AfterDeleteCache(old(db.rows), old(cache.entries), entity, id)
    {
      var kept := Deleted(db.rows, entity, id);
      deleted := kept != db.rows;
      db.rows := kept;
      if deleted {
        cache.Invalidate(CacheKey("default", entity, id));
      }
    }

    method IsDuplicate(entity: string, id: string, hash: string, company: string, now: real) returns (duplicate: bool)
      requires Valid()
      modifies cache
      ensures exists found :: FindEffect(db.rows, old(cache.entries), cache.entries, company, entity, id, now, found)
                              && duplicate == DuplicateRow(found, hash)
    {
      var found := FindMapping(entity, id, company, now);
      duplicate := DuplicateRow(found, hash);
    }

    /** get_external_id: the target of the mapping, "" standing for None. */
    method GetExternalId(entity: string, id: string, company: string, now: real) returns (target: string)
      requires Valid()
      modifies cache
      ensures exists found :: FindEffect(db.rows, old(cache.entries), cache.entries, company, entity, id, now, found)
                              && target == if found == None then "" else Or(found.value.target, found.value.external)
    {
      var found := FindMapping(entity, id, company, now);
      target := if found == None then "" else Or(found.value.target, found.value.external);
    }
  }
}
