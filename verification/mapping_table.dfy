/** The mapping table of app/database/connection.py and the SQL statements
    app/mapping/store.py runs against it, as functions on a map keyed by the
    primary key (entity_type, rentasst_id). */
module MappingTable {
  import opened Text
  import opened Wrappers

  datatype Row = Row(
    entity: string,
    sourceSystem: string,
    company: string,
    source: string,
    targetSystem: string,
    targetCompany: string,
    target: string,
    key: string,
    hash: Option<string>,
    version: int,
    status: string,
    rentasst: string,
    external: string,
    guid: string
  )

  type Table = map<(string, string), Row>

  function RentasstId(company: string, source: string): string {
    if company == "" || company == "default" then source else company + ":" + source
  }

  /** The store's own default key, used when the caller passes none. */
  function DefaultKey(entity: string, source: string, sourceSystem: string, company: string): string {
    sourceSystem + ":" + company + ":" + entity + ":" + source
  }

  /** generate_integration_key of app/sync/idempotency.py. */
  function IntegrationKey(company: string, entity: string, source: string, direction: string): string {
    Lower(Strip(Or(company, "default"))) + ":" + Lower(Strip(entity)) + ":"
    + Strip(source) + ":" + Lower(Strip(Or(direction, "forward")))
  }

  /** The row save_mapping offers to the table. */
  function NewRow(entity: string, source: string, target: string, sourceSystem: string, company: string,
                  targetSystem: string, targetCompany: string, key: string, hash: Option<string>, status: string): Row
  {
    Row(entity, sourceSystem, company, source, targetSystem, targetCompany, target,
        if key != "" then key else DefaultKey(entity, source, sourceSystem, company),
        hash, 1, status, RentasstId(company, source), target, target)
  }

  /** The id a row goes by: its source id, or the older rentasst_id column. */
  function SourceName(r: Row): string {
    Or(r.source, r.rentasst)
  }

  /** A mapping reverse sync wrote. */
  predicate FromTally(mapped: Option<Row>) {
    mapped.Some? && mapped.value.sourceSystem == "tally"
  }

  function RowKey(r: Row): (string, string) {
    (r.entity, r.rentasst)
  }

  /** INSERT ... ON CONFLICT(entity_type, rentasst_id) DO UPDATE. */
  function Upsert(t: Table, r: Row): Table {
    t[RowKey(r) := if RowKey(r) in t then r.(version := t[RowKey(r)].version + 1) else r]
  }

  /** idx_mapping_integration_key: another row already carries the key. */
  predicate KeyTaken(t: Table, r: Row) {
    r.key != "" && exists k :: k in t && k != RowKey(r) && t[k].key == r.key
  }

  predicate DeleteHit(r: Row, entity: string, id: string) {
    r.entity == entity && (r.rentasst == id || r.source == id)
  }

  function Deleted(t: Table, entity: string, id: string): Table {
    map k | k in t && !DeleteHit(t[k], entity, id) :: t[k]
  }

  predicate SourceHit(r: Row, company: string, entity: string, id: string) {
    r.company == company && r.entity == entity && (r.source == id || r.rentasst == id)
  }

  predicate TargetHit(r: Row, company: string, entity: string, system: string, id: string) {
    r.targetCompany == company && r.entity == entity && r.targetSystem == system
    && (r.target == id || r.external == id || r.guid == id)
  }

  function SourceHits(t: Table, company: string, entity: string, id: string): set<(string, string)> {
    set k | k in t && SourceHit(t[k], company, entity, id)
  }

  function TargetHits(t: Table, company: string, entity: string, system: string, id: string): set<(string, string)> {
    set k | k in t && TargetHit(t[k], company, entity, system, id)
  }

  function KeyHits(t: Table, key: string): set<(string, string)> {
    set k | k in t && t[k].key == key
  }

  /** ORDER BY sync_version DESC LIMIT 1 over the rows at `hits`: any row of the
      highest version, since SQL leaves ties open. */
  ghost predicate Best(t: Table, hits: set<(string, string)>, answer: Option<Row>)
    requires hits <= t.Keys
  {
    match answer
    case None => hits == {}
    case Some(r) => exists k :: k in hits && t[k] == r && forall h :: h in hits ==> t[h].version <= r.version
  }

  /** What every table written by save_mapping satisfies. */
  ghost predicate WellFormed(t: Table) {
    forall k :: k in t ==> k == RowKey(t[k]) && t[k].rentasst == RentasstId(t[k].company, t[k].source)
  }

  ghost predicate KeysUnique(t: Table) {
    forall k, h :: k in t && h in t && t[k].key == t[h].key && t[k].key != "" ==> k == h
  }

  /** The one row a colon-free id can denote. */
  function Lookup(t: Table, company: string, entity: string, id: string): Option<Row> {
    var k := (entity, RentasstId(company, id));
    if k in t && t[k].company == company then Some(t[k]) else None
  }

  /** The ranked SELECT of find_mapping has at most one candidate when the id holds
      no colon, whatever the company. */
  lemma SourceHitIsLookup(t: Table, company: string, entity: string, id: string, k: (string, string))
    requires WellFormed(t) && ColonFree(id) && k in t && SourceHit(t[k], company, entity, id)
    ensures Lookup(t, company, entity, id) == Some(t[k])
  {
  }

  lemma BestIsLookup(t: Table, company: string, entity: string, id: string, answer: Option<Row>)
    requires WellFormed(t) && ColonFree(id)
    requires Best(t, SourceHits(t, company, entity, id), answer)
    ensures answer == Lookup(t, company, entity, id)
  {
    var k := (entity, RentasstId(company, id));
    if k in t && t[k].company == company {
      SameRentasstId(company, t[k].source, id);
      assert k in SourceHits(t, company, entity, id);
    }
    if answer.Some? {
      var h :| h in SourceHits(t, company, entity, id) && t[h] == answer.value;
      SourceHitIsLookup(t, company, entity, id, h);
    }
  }

  lemma SameRentasstId(company: string, a: string, b: string)
    requires RentasstId(company, a) == RentasstId(company, b)
    ensures a == b
  {
    if company != "" && company != "default" {
      assert a == (company + ":" + a)[|company| + 1..];
      assert b == (company + ":" + b)[|company| + 1..];
    }
  }

  /** save_mapping keeps the table well formed and integration keys unique; what it
      saved is what a colon-free lookup of the same id then returns, and no other
      colon-free id of any company sees a difference. */
  lemma UpsertThenLookup(t: Table, r: Row, company: string, entity: string, id: string)
    requires WellFormed(t) && KeysUnique(t) && !KeyTaken(t, r)
    requires r.rentasst == RentasstId(r.company, r.source) && ColonFree(r.source) && ColonFree(id)
    ensures WellFormed(Upsert(t, r)) && KeysUnique(Upsert(t, r))
    ensures company == r.company && entity == r.entity && id == r.source ==>
              Lookup(Upsert(t, r), company, entity, id) == Some(Upsert(t, r)[RowKey(r)])
    ensures entity != r.entity || id != r.source ==>
              Lookup(Upsert(t, r), company, entity, id) == Lookup(t, company, entity, id)
  {
    if entity == r.entity && id != r.source && RentasstId(company, id) == r.rentasst {
      RentasstIdsMeet(company, id, r.company, r.source);
    }
  }

  /** Colon-free sources meet at one rentasst_id only when they are the same source. */
  lemma RentasstIdsMeet(c: string, a: string, d: string, b: string)
    requires ColonFree(a) && ColonFree(b) && RentasstId(c, a) == RentasstId(d, b)
    ensures a == b
  {
    var x, y := RentasstId(c, a), RentasstId(d, b);
    if x != a {
      assert x[|c|] == ':' && x[|c| + 1..] == a;
    }
    if y != b {
      assert y[|d|] == ':' && y[|d| + 1..] == b;
    }
    if x != a && y != b {
      LastColon(c, a, d, b);
    }
  }

  lemma LastColon(c: string, a: string, d: string, b: string)
    requires ColonFree(a) && ColonFree(b) && c + ":" + a == d + ":" + b
    ensures a == b
  {
    var x, y := c + ":" + a, d + ":" + b;
    assert forall i :: |c| < i < |x| ==> x[i] == a[i - |c| - 1] && x[i] != ':';
    assert forall i :: |d| < i < |y| ==> y[i] == b[i - |d| - 1] && y[i] != ':';
    assert x[|c|] == ':' && y[|d|] == ':';
    assert |c| == |d|;
    assert a == x[|c| + 1..] && b == y[|d| + 1..];
  }
}
