/**
 * Autotask as the mirror sees it: tables of stamped rows behind a clock that only moves forward,
 * changed by other people at any moment, and read one 500-row page at a time.
 */
module Autotask {
  import opened Base

  const PAGE: nat := 500

  /** A record: its payload and the stamps in its modified and creation fields. */
  datatype Row = Row(data: string, modified: Option<nat>, created: Option<nat>)

  /** Autotask ids only grow: `top` is the highest id ever handed out. */
  datatype Table = Table(rows: map<nat, Row>, top: nat)

  datatype Remote = Remote(clock: nat, tables: map<string, Table>)

  /** How one mirrored entity stays fresh. */
  datatype Entity = Entity(
    name: string,
    watermark: bool,                          // has a queryable modified stamp
    create: bool,                             // has a creation stamp, OR-ed into the incremental filter
    window: Option<(Row, nat) -> bool>,       // rows worth mirroring, given the cutoff day
    fullEvery: nat,                           // full / window refresh interval
    lookup: bool,                             // its field list is read once per process
    mirrored: bool)                           // the tenant has the fields it needs

  /** The incremental filter: modified, or (when there is a creation field) created, at or after `since`. */
  predicate ChangedSince(e: Entity, row: Row, since: int) {
    || (row.modified.Some? && row.modified.value >= since)
    || (e.create && row.created.Some? && row.created.value >= since)
  }

  /** The record's modified stamp, or its creation stamp. */
  function ModifiedAt(e: Entity, row: Row): Option<nat> {
    if e.watermark && row.modified.Some? then row.modified
    else if e.create then row.created
    else None
  }

  // ---------------------------------------------------------------- what other people do to a table

  datatype Change = Insert(id: nat, row: Row) | Update(id: nat, row: Row) | Delete(id: nat) | Tick(clock: nat)

  predicate StampsBy(row: Row, clock: nat) {
    && (row.modified.Some? ==> row.modified.value <= clock)
    && (row.created.Some? ==> row.created.value <= clock)
  }

  /** The stamps a change leaves: an entity with a modified field gets stamped at the moment of the change. */
  predicate Stamped(e: Entity, row: Row, clock: nat) {
    StampsBy(row, clock) && (e.watermark ==> ChangedSince(e, row, clock))
  }

  predicate CanChange(e: Entity, t: Table, clock: nat, c: Change) {
    match c
    case Insert(id, row) => id > t.top && Stamped(e, row, clock)
    case Update(id, row) => id in t.rows && Stamped(e, row, clock)
    case Delete(id) => id in t.rows
    case Tick(k) => clock <= k
  }

  function Changed(t: Table, c: Change): Table {
    match c
    case Insert(id, row) => Table(t.rows[id := row], id)
    case Update(id, row) => t.(rows := t.rows[id := row])
    case Delete(id) => t.(rows := t.rows - {id})
    case Tick(_) => t
  }

  function ClockAfter(clock: nat, c: Change): nat {
    if c.Tick? then c.clock else clock
  }

  predicate TableOk(t: Table, clock: nat) {
    forall id | id in t.rows :: 1 <= id <= t.top && StampsBy(t.rows[id], clock)
  }

  /** Everything any number of changes can do to a table between two moments. */
  ghost predicate Moves(e: Entity, t: Table, clock: nat, t': Table, clock': nat) {
    && clock <= clock'
    && t.top <= t'.top
    && TableOk(t', clock')
    && forall id | id in t'.rows ::
         || (id in t.rows && t'.rows[id] == t.rows[id])
         || ((id in t.rows || id > t.top) && (e.watermark ==> ChangedSince(e, t'.rows[id], clock)))
  }

  /** A legal run of changes. */
  ghost predicate CanRun(e: Entity, t: Table, clock: nat, cs: seq<Change>)
    decreases |cs|
  {
    cs == [] || (CanChange(e, t, clock, cs[0]) && CanRun(e, Changed(t, cs[0]), ClockAfter(clock, cs[0]), cs[1..]))
  }

  function Run(t: Table, cs: seq<Change>): Table
    decreases |cs|
  {
    if cs == [] then t else Run(Changed(t, cs[0]), cs[1..])
  }

  function ClockOf(clock: nat, cs: seq<Change>): nat
    decreases |cs|
  {
    if cs == [] then clock else ClockOf(ClockAfter(clock, cs[0]), cs[1..])
  }

  lemma MovesTransitive(e: Entity, a: Table, ca: nat, b: Table, cb: nat, c: Table, cc: nat)
    requires Moves(e, a, ca, b, cb) && Moves(e, b, cb, c, cc)
    ensures Moves(e, a, ca, c, cc)
  {
  }

  /** Any run of inserts, updates, deletes and clock ticks is covered by Moves. */
  lemma {:induction false} RunMoves(e: Entity, t: Table, clock: nat, cs: seq<Change>)
    requires TableOk(t, clock) && CanRun(e, t, clock, cs)
    ensures Moves(e, t, clock, Run(t, cs), ClockOf(clock, cs))
    decreases |cs|
  {
    if cs != [] {
      var t1, c1 := Changed(t, cs[0]), ClockAfter(clock, cs[0]);
      assert Moves(e, t, clock, t1, c1);
      RunMoves(e, t1, c1, cs[1..]);
      MovesTransitive(e, t, clock, t1, c1, Run(t, cs), ClockOf(clock, cs));
    }
  }

  // ---------------------------------------------------------------- reading pages

  /** The filters the sync sends (each beside `id > cursor`). */
  datatype Filter =
    | Everything
    | InWindowFrom(entity: Entity, day: Option<nat>)
    | ChangedFrom(entity: Entity, since: int)
    | IdIn(ids: set<nat>)

  predicate InWindow(e: Entity, day: Option<nat>, row: Row) {
    e.window.Some? && day.Some? ==> e.window.value(row, day.value)
  }

  predicate Pass(f: Filter, id: nat, row: Row) {
    match f
    case Everything => true
    case InWindowFrom(e, day) => InWindow(e, day, row)
    case ChangedFrom(e, since) => ChangedSince(e, row, since)
    case IdIn(ids) => id in ids
  }

  /** The ids above the cursor whose rows pass the filter. */
  function Above(rows: map<nat, Row>, f: Filter, cursor: nat): set<nat> {
    set id | id in rows && id > cursor && Pass(f, id, rows[id])
  }

  /** One query: the PAGE lowest matching ids above the cursor, with their rows. */
  function PageOf(rows: map<nat, Row>, f: Filter, cursor: nat): (page: map<nat, Row>)
    ensures forall id :: id in page ==> id in rows && page[id] == rows[id] && id > cursor && Pass(f, id, rows[id])
    ensures |page| <= PAGE
  {
    var ids := Smallest(Above(rows, f, cursor), PAGE);
    var page := map id | id in ids :: rows[id];
    assert page.Keys == ids;
    page
  }

  function CursorAfter(page: map<nat, Row>, cursor: nat): (c: nat)
    requires forall id :: id in page ==> id > cursor
    ensures c >= cursor
    ensures forall id :: id in page ==> id <= c
    ensures page != map[] ==> c in page
    ensures page == map[] ==> c == cursor
  {
    if page == map[] then cursor else assert page.Keys != {}; MaxOf(page.Keys)
  }

  /** A page leaves nothing behind: matching ids up to the new cursor are on it, and all of them when it is short. */
  lemma PageComplete(rows: map<nat, Row>, f: Filter, cursor: nat, id: nat)
    requires id in rows && id > cursor && Pass(f, id, rows[id])
    requires var page := PageOf(rows, f, cursor); id <= CursorAfter(page, cursor) || |page| < PAGE
    ensures id in PageOf(rows, f, cursor)
  {
    var all := Above(rows, f, cursor);
    var ids := Smallest(all, PAGE);
    var page := PageOf(rows, f, cursor);
    assert page.Keys == ids;
    assert id in all;
    if |page| < PAGE {
      assert |page.Keys| == |page|;
      if ids != all {
        assert ids < all;
        ProperSubsetSmaller(ids, all);
      }
    } else {
      var c := CursorAfter(page, cursor);
      assert page != map[];
      assert c in ids && id <= c;
    }
  }

  lemma ProperSubsetSmaller(a: set<nat>, b: set<nat>)
    requires a < b
    ensures |a| < |b|
  {
    var d := b - a;
    assert b == a + d && a !! d;
    assert |b| == |a| + |d|;
    var x :| x in b && x !in a;
    assert x in d;
  }

  // ---------------------------------------------------------------- a run of calls

  /** The k-th Autotask call of a run finds the remote as it is then, or fails. */
  datatype Call = Call(remote: Remote, ok: bool)

  predicate Has(e: Entity, r: Remote) { e.name in r.tables }

  function Rows(e: Entity, r: Remote): map<nat, Row>
    requires Has(e, r)
  {
    r.tables[e.name].rows
  }

  ghost predicate MovesOn(e: Entity, a: Remote, b: Remote) {
    Has(e, a) && Has(e, b) && Moves(e, a.tables[e.name], a.clock, b.tables[e.name], b.clock)
  }

  ghost predicate MovesAll(es: seq<Entity>, a: Remote, b: Remote) {
    forall e | e in es :: MovesOn(e, a, b)
  }

  /** The remote over a run: between any two calls, any number of changes. */
  ghost predicate Timeline(es: seq<Entity>, env: seq<Call>) {
    forall i, j {:trigger MovesAll(es, env[i].remote, env[j].remote)} | 0 <= i <= j < |env| ::
      MovesAll(es, env[i].remote, env[j].remote)
  }

  lemma Between(es: seq<Entity>, env: seq<Call>, i: nat, j: nat, e: Entity)
    requires Timeline(es, env) && i <= j < |env| && e in es
    ensures MovesOn(e, env[i].remote, env[j].remote)
    ensures TableOk(env[j].remote.tables[e.name], env[j].remote.clock)
  {
    assert MovesAll(es, env[i].remote, env[j].remote);
  }
}
