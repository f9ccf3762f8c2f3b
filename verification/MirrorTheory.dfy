/**
 * What the mirror promises about one entity, and why each kind of page read keeps it while
 * other people go on changing Autotask.
 */
module MirrorTheory {
  import opened Base
  import opened Autotask
  import opened ShadowStores

  /** Re-read this far behind the watermark, in milliseconds. */
  const OVERLAP: nat := 120_000

  predicate Mirrored(m: Mirror, id: nat, row: Row) {
    id in m && m[id] == Rec(row, true)
  }

  /** The next incremental walk asks for this row. */
  predicate Due(e: Entity, st: SyncState, row: Row) {
    st.watermark.Some? && ChangedSince(e, row, st.watermark.value - OVERLAP)
  }

  /** No lost update: every row is mirrored as it is, or is going to be read. */
  ghost predicate NoLostUpdate(e: Entity, rows: map<nat, Row>, m: Mirror, st: SyncState) {
    forall id | id in rows && InWindow(e, st.windowFrom, rows[id]) ::
      || Mirrored(m, id, rows[id])
      || Due(e, st, rows[id])
      || (!st.done && id > st.cursor)
  }

  /** A watermark is set before anything is read, and never runs ahead of Autotask's clock by more than the overlap. */
  predicate StateOk(st: SyncState, clock: nat) {
    && (st.watermark.Some? ==> st.watermark.value <= clock + OVERLAP)
    && (st.watermark.None? ==> st.cursor == 0 && !st.done)
  }

  /** Mirrored ids are ids Autotask has handed out. */
  ghost predicate KnownIds(m: Mirror, top: nat) {
    forall id | id in m :: id <= top
  }

  /** An entity's mirror fits its Autotask table and state; `kept`: and no update was lost. */
  ghost predicate InSync(e: Entity, r: Remote, m: Mirror, st: SyncState, kept: bool) {
    && Has(e, r)
    && KnownIds(m, r.tables[e.name].top)
    && (e.watermark ==> StateOk(st, r.clock) && (kept ==> NoLostUpdate(e, Rows(e, r), m, st)))
  }

  /** A row that was live in `before` and no longer is has really gone from Autotask. */
  ghost predicate DeletionsSound(before: Mirror, after: Mirror, r: Remote, e: Entity) {
    && Has(e, r)
    && before.Keys <= after.Keys
    && forall id | id in before && before[id].live ::
         after[id].live || (id !in Rows(e, r) && id <= r.tables[e.name].top)
  }

  // ---------------------------------------------------------------- other people's changes

  lemma InSyncStable(e: Entity, a: Remote, b: Remote, m: Mirror, st: SyncState, kept: bool)
    requires InSync(e, a, m, st, kept) && MovesOn(e, a, b)
    ensures InSync(e, b, m, st, kept)
  {
    var ra, rb := Rows(e, a), Rows(e, b);
    if e.watermark && kept {
      forall id | id in rb && InWindow(e, st.windowFrom, rb[id])
        ensures Mirrored(m, id, rb[id]) || Due(e, st, rb[id]) || (!st.done && id > st.cursor)
      {
        if !(id in ra && rb[id] == ra[id]) {
          assert ChangedSince(e, rb[id], a.clock);
        }
      }
    }
  }

  lemma DeletionsStable(e: Entity, a: Remote, b: Remote, before: Mirror, after: Mirror)
    requires DeletionsSound(before, after, a, e) && MovesOn(e, a, b)
    ensures DeletionsSound(before, after, b, e)
  {
  }

  lemma DeletionsCompose(e: Entity, r: Remote, m0: Mirror, m1: Mirror, m2: Mirror)
    requires DeletionsSound(m0, m1, r, e) && DeletionsSound(m1, m2, r, e)
    ensures DeletionsSound(m0, m2, r, e)
  {
  }

  // ---------------------------------------------------------------- rows read

  /** Copying rows as Autotask has them now loses nothing, whatever the filter was. */
  lemma UpsertKeeps(e: Entity, r: Remote, m: Mirror, st: SyncState, page: map<nat, Row>, kept: bool)
    requires InSync(e, r, m, st, kept) && TableOk(r.tables[e.name], r.clock)
    requires forall id :: id in page ==> id in Rows(e, r) && page[id] == Rows(e, r)[id]
    ensures InSync(e, r, Upserted(m, page), st, kept)
    ensures DeletionsSound(m, Upserted(m, page), r, e)
  {
  }

  /** Marking rows Autotask no longer has loses nothing. */
  lemma MarkKeeps(e: Entity, r: Remote, m: Mirror, st: SyncState, ids: set<nat>, kept: bool)
    requires InSync(e, r, m, st, kept)
    requires forall id :: id in ids ==> id !in Rows(e, r)
    ensures InSync(e, r, MarkedDeleted(m, ids), st, kept)
    ensures DeletionsSound(m, MarkedDeleted(m, ids), r, e)
  {
  }

  function AfterBackfillPage(st: SyncState, page: map<nat, Row>): SyncState
    requires forall id :: id in page ==> id > st.cursor
  {
    st.(cursor := CursorAfter(page, st.cursor), done := st.done || |page| < PAGE)
  }

  /** A backfill page: the cursor may move to its end, and a short page finishes the backfill. */
  lemma BackfillPage(e: Entity, r: Remote, m: Mirror, st: SyncState, kept: bool)
    requires InSync(e, r, m, st, kept) && TableOk(r.tables[e.name], r.clock)
    requires e.watermark ==> st.watermark.Some?
    ensures var page := PageOf(Rows(e, r), InWindowFrom(e, st.windowFrom), st.cursor);
            InSync(e, r, Upserted(m, page), AfterBackfillPage(st, page), kept)
  {
    var rows := Rows(e, r);
    var pass := InWindowFrom(e, st.windowFrom);
    var page := PageOf(rows, pass, st.cursor);
    UpsertKeeps(e, r, m, st, page, kept);
    if e.watermark && kept {
      forall id | id in rows && InWindow(e, st.windowFrom, rows[id]) && id > st.cursor
                  && (id <= CursorAfter(page, st.cursor) || |page| < PAGE)
        ensures Mirrored(Upserted(m, page), id, rows[id])
      {
        assert Pass(pass, id, rows[id]);
        PageComplete(rows, pass, st.cursor, id);
      }
      CursorAdvances(e, rows, Upserted(m, page), st, AfterBackfillPage(st, page));
    }
  }

  /** One call of a backfill, with whatever happened since the call before. */
  lemma BackfillCall(e: Entity, a: Remote, b: Remote, first: Mirror, m: Mirror, st: SyncState, ok: bool, page: map<nat, Row>, st': SyncState, kept: bool)
    requires InSync(e, a, m, st, kept) && DeletionsSound(first, m, a, e) && MovesOn(e, a, b)
    requires e.watermark ==> st.watermark.Some?
    requires page == if ok then PageOf(Rows(e, b), InWindowFrom(e, st.windowFrom), st.cursor) else map[]
    requires st' == if ok then AfterBackfillPage(st, page) else st
    ensures InSync(e, b, Upserted(m, page), st', kept)
    ensures DeletionsSound(first, Upserted(m, page), b, e)
  {
    InSyncStable(e, a, b, m, st, kept);
    DeletionsStable(e, a, b, first, m);
    UpsertKeeps(e, b, m, st, page, kept);
    DeletionsCompose(e, b, first, m, Upserted(m, page));
    if ok { BackfillPage(e, b, m, st, kept); }
  }

  /** The cursor may pass, and the backfill may end over, rows that are all mirrored. */
  lemma CursorAdvances(e: Entity, rows: map<nat, Row>, m: Mirror, st: SyncState, st': SyncState)
    requires NoLostUpdate(e, rows, m, st)
    requires st' == st.(cursor := st'.cursor, done := st'.done) && (st.done ==> st'.done)
    requires forall id | id in rows && InWindow(e, st.windowFrom, rows[id]) && id > st.cursor && (id <= st'.cursor || (st'.done && !st.done)) ::
               Mirrored(m, id, rows[id])
    ensures NoLostUpdate(e, rows, m, st')
  {
  }

  /** What a run computes from its local clock: the time, and the days the history window and the recent part start. */
  datatype Clock = Clock(now: nat, historyFrom: Option<nat>, recentFrom: nat)

  /** The watermark and the history window are fixed when the backfill starts, before anything is read. */
  function StartState(e: Entity, st: SyncState, clock: Clock): SyncState {
    if st.cursor == 0 && st.watermark.None? then
      st.(watermark := Some(clock.now), windowFrom := if e.window.Some? && clock.historyFrom.Some? then clock.historyFrom else st.windowFrom)
    else st
  }

  lemma BackfillStart(e: Entity, r: Remote, m: Mirror, st: SyncState, clock: Clock, kept: bool)
    requires InSync(e, r, m, st, kept) && TableOk(r.tables[e.name], r.clock)
    requires !st.done && clock.now <= r.clock + OVERLAP
    ensures InSync(e, r, m, StartState(e, st, clock), kept)
    ensures DeletionsSound(m, m, r, e)
    ensures e.watermark ==> StartState(e, st, clock).watermark.Some?
  {
  }

  /** Recording when something ran changes nothing else. */
  lemma NotesKeep(e: Entity, r: Remote, m: Mirror, st: SyncState, st': SyncState, kept: bool)
    requires InSync(e, r, m, st, kept)
    requires st'.watermark == st.watermark && st'.cursor == st.cursor && st'.done == st.done && st'.windowFrom == st.windowFrom
    ensures InSync(e, r, m, st', kept)
  {
  }

  lemma PlainInSync(e: Entity, r: Remote, m: Mirror, m': Mirror, st: SyncState, kept: bool)
    requires InSync(e, r, m, st, kept) && !e.watermark && m'.Keys == m.Keys
    ensures forall st' :: InSync(e, r, m', st', kept)
  {
  }

  // ---------------------------------------------------------------- the incremental walk

  /** The largest of `base` and the stamps on a page. */
  function Newest(e: Entity, page: map<nat, Row>, base: nat): (n: nat)
    ensures n >= base
    ensures n == base || exists id :: id in page && ModifiedAt(e, page[id]) == Some(n)
    ensures forall id :: id in page && ModifiedAt(e, page[id]).Some? ==> ModifiedAt(e, page[id]).value <= n
    decreases |page|
  {
    if page == map[] then base
    else
      assert page.Keys != {};
      var id := MinOf(page.Keys);
      var rest := page - {id};
      var stamp := ModifiedAt(e, page[id]);
      assert |rest| < |page| by { assert rest.Keys == page.Keys - {id}; }
      assert forall k :: k in page <==> k == id || k in rest;
      Newest(e, rest, if stamp.Some? && stamp.value > base then stamp.value else base)
  }

  /**
   * Midway through an incremental walk that began at clock `start`: below the cursor a row is mirrored as it is
   * or has changed since the walk began; above it, it is mirrored or still due.
   */
  ghost predicate Walked(e: Entity, rows: map<nat, Row>, m: Mirror, st: SyncState, cursor: nat, whole: bool, start: nat) {
    forall id | id in rows && InWindow(e, st.windowFrom, rows[id]) ::
      || Mirrored(m, id, rows[id])
      || (if id <= cursor || whole then ChangedSince(e, rows[id], start) else Due(e, st, rows[id]))
  }

  lemma WalkStable(e: Entity, a: Remote, b: Remote, m: Mirror, st: SyncState, cursor: nat, start: nat)
    requires e.watermark && st.watermark.Some? && st.watermark.value - OVERLAP <= start <= a.clock
    requires MovesOn(e, a, b)
    requires Walked(e, Rows(e, a), m, st, cursor, false, start)
    ensures Walked(e, Rows(e, b), m, st, cursor, false, start)
  {
  }

  lemma WalkPage(e: Entity, r: Remote, m: Mirror, st: SyncState, cursor: nat, start: nat)
    requires e.watermark && Has(e, r) && st.watermark.Some?
    requires Walked(e, Rows(e, r), m, st, cursor, false, start)
    ensures var page := PageOf(Rows(e, r), ChangedFrom(e, st.watermark.value - OVERLAP), cursor);
            Walked(e, Rows(e, r), Upserted(m, page), st, CursorAfter(page, cursor), |page| < PAGE, start)
  {
    var rows := Rows(e, r);
    var pass := ChangedFrom(e, st.watermark.value - OVERLAP);
    var page := PageOf(rows, pass, cursor);
    var c := CursorAfter(page, cursor);
    forall id | id in rows && InWindow(e, st.windowFrom, rows[id])
      ensures || Mirrored(Upserted(m, page), id, rows[id])
              || (if id <= c || |page| < PAGE then ChangedSince(e, rows[id], start) else Due(e, st, rows[id]))
    {
      if id > cursor && !Mirrored(m, id, rows[id]) && (id <= c || |page| < PAGE) {
        assert Pass(pass, id, rows[id]);
        PageComplete(rows, pass, cursor, id);
      }
    }
  }

  lemma WalkedCall(e: Entity, a: Remote, b: Remote, m: Mirror, st: SyncState, cursor: nat, start: nat, page: map<nat, Row>)
    requires e.watermark && st.watermark.Some? && st.watermark.value - OVERLAP <= start <= a.clock && MovesOn(e, a, b)
    requires Walked(e, Rows(e, a), m, st, cursor, false, start)
    requires page == PageOf(Rows(e, b), ChangedFrom(e, st.watermark.value - OVERLAP), cursor)
    ensures Walked(e, Rows(e, b), Upserted(m, page), st, CursorAfter(page, cursor), |page| < PAGE, start)
  {
    WalkStable(e, a, b, m, st, cursor, start);
    WalkPage(e, b, m, st, cursor, start);
  }

  /** Rows read, and left alone since the walk began, carry no stamp past `newest`. */
  ghost predicate Caught(e: Entity, rows: map<nat, Row>, since: int, cursor: nat, whole: bool, start: nat, newest: nat) {
    forall id | id in rows && (id <= cursor || whole) && ChangedSince(e, rows[id], since) && !ChangedSince(e, rows[id], start) ::
      ModifiedAt(e, rows[id]).Some? ==> ModifiedAt(e, rows[id]).value <= newest
  }

  /** Midway through an incremental walk, call `k` of the run being the last one made. */
  ghost predicate Walking(e: Entity, r: Remote, first: Mirror, m: Mirror, st: SyncState, since: int, cursor: nat, whole: bool, start: nat, newest: nat, kept: bool) {
    && e.watermark && st.watermark.Some? && since == st.watermark.value - OVERLAP && since <= start <= r.clock
    && InSync(e, r, m, st, kept)
    && DeletionsSound(first, m, r, e)
    && (kept ==> Walked(e, Rows(e, r), m, st, cursor, whole, start))
    && Caught(e, Rows(e, r), since, cursor, whole, start, newest)
    && st.watermark.value <= newest <= Max(st.watermark.value, r.clock)
  }

  /** One call of an incremental walk, with whatever happened since the call before. */
  lemma WalkCall(e: Entity, a: Remote, b: Remote, first: Mirror, m: Mirror, st: SyncState,
                 since: int, cursor: nat, start: nat, newest: nat, page: map<nat, Row>, kept: bool)
    requires Walking(e, a, first, m, st, since, cursor, false, start, newest, kept) && MovesOn(e, a, b)
    requires page == PageOf(Rows(e, b), ChangedFrom(e, since), cursor)
    ensures Walking(e, b, first, Upserted(m, page), st, since, CursorAfter(page, cursor), |page| < PAGE, start, Newest(e, page, newest), kept)
  {
    CopyKeeps(e, a, b, first, m, st, page, kept);
    if kept { WalkedCall(e, a, b, m, st, cursor, start, page); }
    CaughtCall(e, a, b, since, cursor, start, newest, page);
    NewestBound(e, Rows(e, b), b.clock, page, newest);
  }

  lemma NewestBound(e: Entity, rows: map<nat, Row>, clock: nat, page: map<nat, Row>, base: nat)
    requires forall id | id in rows :: StampsBy(rows[id], clock)
    requires forall id | id in page :: id in rows && page[id] == rows[id]
    ensures Newest(e, page, base) <= Max(base, clock)
  {
  }

  lemma WalkIdle(e: Entity, a: Remote, b: Remote, first: Mirror, m: Mirror, st: SyncState, since: int, cursor: nat, start: nat, newest: nat, kept: bool)
    requires Walking(e, a, first, m, st, since, cursor, false, start, newest, kept) && MovesOn(e, a, b)
    ensures Walking(e, b, first, m, st, since, cursor, false, start, newest, kept)
  {
    IdleCall(e, a, b, first, m, st, kept);
    if kept { WalkStable(e, a, b, m, st, cursor, start); }
  }

  lemma WalkStart(e: Entity, r: Remote, m: Mirror, st: SyncState, kept: bool)
    requires e.watermark && st.done && InSync(e, r, m, st, kept) && TableOk(r.tables[e.name], r.clock)
    ensures Walking(e, r, m, m, st, st.watermark.value - OVERLAP, 0, false, r.clock, st.watermark.value, kept)
  {
  }

  /** Rows read in one call, after whatever happened since the call before. */
  lemma CopyKeeps(e: Entity, a: Remote, b: Remote, first: Mirror, m: Mirror, st: SyncState, page: map<nat, Row>, kept: bool)
    requires InSync(e, a, m, st, kept) && DeletionsSound(first, m, a, e) && MovesOn(e, a, b)
    requires forall id | id in page :: id in Rows(e, b) && page[id] == Rows(e, b)[id]
    ensures InSync(e, b, Upserted(m, page), st, kept) && DeletionsSound(first, Upserted(m, page), b, e)
  {
  }

  lemma CaughtCall(e: Entity, a: Remote, b: Remote, since: int, cursor: nat, start: nat, newest: nat, page: map<nat, Row>)
    requires e.watermark && MovesOn(e, a, b) && start <= a.clock
    requires Caught(e, Rows(e, a), since, cursor, false, start, newest)
    requires page == PageOf(Rows(e, b), ChangedFrom(e, since), cursor)
    ensures Caught(e, Rows(e, b), since, CursorAfter(page, cursor), |page| < PAGE, start, Newest(e, page, newest))
  {
    var ra, rb := Rows(e, a), Rows(e, b);
    var f := ChangedFrom(e, since);
    forall id | id in rb && (id <= CursorAfter(page, cursor) || |page| < PAGE)
                && ChangedSince(e, rb[id], since) && !ChangedSince(e, rb[id], start)
                && ModifiedAt(e, rb[id]).Some?
      ensures ModifiedAt(e, rb[id]).value <= Newest(e, page, newest)
    {
      if id > cursor {
        assert Pass(f, id, rb[id]);
        PageComplete(rb, f, cursor, id);
      } else {
        assert id in ra && rb[id] == ra[id];
      }
    }
  }

  /** A call that failed: only other people's changes. */
  lemma IdleCall(e: Entity, a: Remote, b: Remote, first: Mirror, m: Mirror, st: SyncState, kept: bool)
    requires InSync(e, a, m, st, kept) && DeletionsSound(first, m, a, e) && MovesOn(e, a, b)
    ensures InSync(e, b, m, st, kept) && DeletionsSound(first, m, b, e)
  {
    InSyncStable(e, a, b, m, st, kept);
    DeletionsStable(e, a, b, first, m);
  }

  /** A whole walk may move the watermark to the newest stamp it saw: no update is lost if it lasted no longer than the overlap. */
  lemma WalkDone(e: Entity, r: Remote, first: Mirror, m: Mirror, st: SyncState, since: int, cursor: nat, start: nat, newest: nat, clock: Clock, st': SyncState, kept: bool)
    requires Walking(e, r, first, m, st, since, cursor, true, start, newest, kept) && st.done
    requires clock.now <= start + OVERLAP
    requires st' == st.(watermark := Some(NewWatermark(newest, clock)), lastIncremental := Some(clock.now))
    ensures InSync(e, r, m, st', kept && r.clock <= start + OVERLAP)
  {
  }

  /** Where a complete walk leaves the watermark. */
  function NewWatermark(newest: nat, clock: Clock): nat {
    if newest != 0 then newest else clock.now
  }

  /**
   * What a complete walk achieved, however long it took: every row of the window not changed since it began is
   * mirrored, and the watermark has caught up with every stamp it read but not with Autotask's clock.
   */
  ghost predicate WalkEnded(e: Entity, r: Remote, m: Mirror, st: SyncState, start: nat, watermark: Option<nat>, clock: Clock, kept: bool) {
    && Has(e, r) && st.watermark.Some? && watermark.Some?
    && (kept ==> Walked(e, Rows(e, r), m, st, 0, true, start))
    && (watermark.value == clock.now || Caught(e, Rows(e, r), st.watermark.value - OVERLAP, 0, true, start, watermark.value))
    && watermark.value >= st.watermark.value
    && (watermark.value <= Max(st.watermark.value, r.clock) || (st.watermark.value == 0 && watermark.value == clock.now))
  }

  lemma WalkClosed(e: Entity, r: Remote, first: Mirror, m: Mirror, st: SyncState, since: int, cursor: nat, start: nat, newest: nat, clock: Clock, kept: bool)
    requires Walking(e, r, first, m, st, since, cursor, true, start, newest, kept)
    ensures WalkEnded(e, r, m, st, start, Some(NewWatermark(newest, clock)), clock, kept)
  {
  }

  // ---------------------------------------------------------------- deletion walks

  /** An unfiltered walk has seen every id up to its cursor (all of them, after a short page). */
  ghost predicate SeenUpTo(rows: map<nat, Row>, seen: set<nat>, cursor: nat, whole: bool) {
    forall id | id in rows && (id <= cursor || whole) :: id in seen
  }

  lemma SeenCall(e: Entity, a: Remote, b: Remote, seen: set<nat>, cursor: nat, page: map<nat, Row>)
    requires MovesOn(e, a, b) && cursor <= a.tables[e.name].top
    requires SeenUpTo(Rows(e, a), seen, cursor, false)
    requires page == PageOf(Rows(e, b), Everything, cursor)
    ensures SeenUpTo(Rows(e, b), seen + page.Keys, CursorAfter(page, cursor), |page| < PAGE)
    ensures CursorAfter(page, cursor) <= b.tables[e.name].top
  {
    var rb := Rows(e, b);
    forall id | id in rb && (id <= CursorAfter(page, cursor) || |page| < PAGE) ensures id in seen + page.Keys {
      if id > cursor { PageComplete(rb, Everything, cursor, id); }
    }
  }

  predicate Present(e: Entity, r: Remote, id: nat) {
    Has(e, r) && id in Rows(e, r)
  }

  /** The mirror's copy of a row is one the walk itself read. */
  ghost predicate CopiedDuring(e: Entity, env: seq<Call>, m: Mirror, id: nat, from: nat, to: nat) {
    to < |env| && exists j | from < j <= to :: CopyOf(e, env[j].remote, m, id)
  }

  predicate CopyOf(e: Entity, r: Remote, m: Mirror, id: nat) {
    Has(e, r) && id in Rows(e, r) && Mirrored(m, id, Rows(e, r)[id])
  }

  ghost predicate AllCopied(e: Entity, env: seq<Call>, m: Mirror, seen: set<nat>, from: nat, to: nat) {
    forall id | id in seen :: CopiedDuring(e, env, m, id, from, to)
  }

  lemma CopyCall(e: Entity, env: seq<Call>, m: Mirror, seen: set<nat>, from: nat, k: nat, k1: nat, f: Filter, cursor: nat, page: map<nat, Row>)
    requires from <= k && k1 == k + 1 < |env| && AllCopied(e, env, m, seen, from, k) && Has(e, env[k1].remote)
    requires page == PageOf(Rows(e, env[k1].remote), f, cursor)
    ensures AllCopied(e, env, Upserted(m, page), seen + page.Keys, from, k1)
  {
  }

  lemma CopyMark(e: Entity, env: seq<Call>, m: Mirror, seen: set<nat>, from: nat, to: nat, gone: set<nat>)
    requires AllCopied(e, env, m, seen, from, to) && seen !! gone
    ensures AllCopied(e, env, MarkedDeleted(m, gone), seen, from, to)
  {
  }

  /** Midway through re-reading a whole table, call `k` of the run being the last one made. */
  ghost predicate FullWalk(e: Entity, env: seq<Call>, first: Mirror, m: Mirror, st: SyncState, seen: set<nat>,
                           from: nat, k: nat, cursor: nat, whole: bool, kept: bool) {
    && from <= k < |env|
    && InSync(e, env[k].remote, m, st, kept)
    && DeletionsSound(first, m, env[k].remote, e)
    && SeenUpTo(Rows(e, env[k].remote), seen, cursor, whole)
    && cursor <= env[k].remote.tables[e.name].top
    && AllCopied(e, env, m, seen, from, k)
    && seen <= Live(m)
  }

  lemma FullCall(e: Entity, env: seq<Call>, first: Mirror, m: Mirror, st: SyncState, seen: set<nat>,
                 from: nat, k: nat, k1: nat, cursor: nat, page: map<nat, Row>, kept: bool)
    requires FullWalk(e, env, first, m, st, seen, from, k, cursor, false, kept)
    requires k1 == k + 1 < |env| && MovesOn(e, env[k].remote, env[k1].remote)
    requires page == PageOf(Rows(e, env[k1].remote), Everything, cursor)
    ensures FullWalk(e, env, first, Upserted(m, page), st, seen + page.Keys, from, k1, CursorAfter(page, cursor), |page| < PAGE, kept)
  {
    CopyKeeps(e, env[k].remote, env[k1].remote, first, m, st, page, kept);
    SeenCall(e, env[k].remote, env[k1].remote, seen, cursor, page);
    CopyCall(e, env, m, seen, from, k, k1, Everything, cursor, page);
  }

  lemma FullIdle(e: Entity, env: seq<Call>, first: Mirror, m: Mirror, st: SyncState, seen: set<nat>, from: nat, k: nat, k1: nat, cursor: nat, kept: bool)
    requires FullWalk(e, env, first, m, st, seen, from, k, cursor, false, kept)
    requires k1 == k + 1 < |env| && MovesOn(e, env[k].remote, env[k1].remote)
    ensures FullWalk(e, env, first, m, st, seen, from, k1, cursor, false, kept)
  {
  }

  /** After a whole walk, what it did not see is gone. */
  lemma FullEnd(e: Entity, env: seq<Call>, first: Mirror, m: Mirror, st: SyncState, seen: set<nat>, from: nat, k: nat, cursor: nat, kept: bool)
    requires FullWalk(e, env, first, m, st, seen, from, k, cursor, true, kept)
    ensures var final := MarkedDeleted(m, Live(m) - seen);
            && InSync(e, env[k].remote, final, st, kept)
            && DeletionsSound(first, final, env[k].remote, e)
            && AllCopied(e, env, final, seen, from, k)
            && Live(final) == seen
  {
    var gone := Live(m) - seen;
    MarkKeeps(e, env[k].remote, m, st, gone, kept);
    DeletionsCompose(e, env[k].remote, first, m, MarkedDeleted(m, gone));
    CopyMark(e, env, m, seen, from, k, gone);
  }

  /** A row that stayed in the range for the whole walk so far. */
  ghost predicate Stayed(e: Entity, env: seq<Call>, day: Option<nat>, id: nat, from: nat, to: nat) {
    to < |env| && forall j | from < j <= to :: InRange(e, env[j].remote, day, id)
  }

  predicate InRange(e: Entity, r: Remote, day: Option<nat>, id: nat) {
    Has(e, r) && id in Rows(e, r) && InWindow(e, day, Rows(e, r)[id])
  }

  /** A walk over a range has seen every row that stayed in it. */
  ghost predicate RangeSeen(e: Entity, env: seq<Call>, day: Option<nat>, seen: set<nat>, from: nat, to: nat, cursor: nat, whole: bool) {
    forall id | 0 < id && (id <= cursor || whole) && from < to && Stayed(e, env, day, id, from, to) :: id in seen
  }

  lemma RangeCall(e: Entity, env: seq<Call>, day: Option<nat>, seen: set<nat>, from: nat, k: nat, k1: nat, cursor: nat, page: map<nat, Row>)
    requires from <= k && k1 == k + 1 < |env| && Has(e, env[k1].remote)
    requires from == k ==> cursor == 0
    requires RangeSeen(e, env, day, seen, from, k, cursor, false)
    requires page == PageOf(Rows(e, env[k1].remote), InWindowFrom(e, day), cursor)
    ensures RangeSeen(e, env, day, seen + page.Keys, from, k1, CursorAfter(page, cursor), |page| < PAGE)
  {
    forall id | 0 < id && (id <= CursorAfter(page, cursor) || |page| < PAGE) && Stayed(e, env, day, id, from, k + 1)
      ensures id in seen + page.Keys
    {
      assert InRange(e, env[k + 1].remote, day, id);
      if id > cursor {
        assert Pass(InWindowFrom(e, day), id, Rows(e, env[k + 1].remote)[id]);
        PageComplete(Rows(e, env[k + 1].remote), InWindowFrom(e, day), cursor, id);
      } else {
        assert Stayed(e, env, day, id, from, k);
      }
    }
  }

  /** Reading new rows: every id above the highest mirrored one, up to the cursor, is in the mirror. */
  ghost predicate NewRead(rows: map<nat, Row>, m: Mirror, highest: nat, cursor: nat, whole: bool) {
    highest <= cursor && forall id | id in rows && id > highest && (id <= cursor || whole) :: id in m
  }

  lemma NewCall(e: Entity, a: Remote, b: Remote, m: Mirror, highest: nat, cursor: nat, page: map<nat, Row>)
    requires MovesOn(e, a, b) && cursor <= a.tables[e.name].top
    requires NewRead(Rows(e, a), m, highest, cursor, false)
    requires page == PageOf(Rows(e, b), Everything, cursor)
    ensures NewRead(Rows(e, b), Upserted(m, page), highest, CursorAfter(page, cursor), |page| < PAGE)
    ensures CursorAfter(page, cursor) <= b.tables[e.name].top
  {
    forall id | id in Rows(e, b) && id > highest && (id <= CursorAfter(page, cursor) || |page| < PAGE)
      ensures id in Upserted(m, page)
    {
      if id > cursor { PageComplete(Rows(e, b), Everything, cursor, id); }
    }
  }

  /** A walk over a range: what it saw is copied, and it saw whatever stayed in the range. */
  ghost predicate RangeWalk(e: Entity, env: seq<Call>, m: Mirror, st: SyncState, day: Option<nat>, seen: set<nat>,
                            from: nat, k: nat, cursor: nat, whole: bool, kept: bool) {
    && from <= k < |env| && (from == k ==> cursor == 0)
    && InSync(e, env[k].remote, m, st, kept)
    && RangeSeen(e, env, day, seen, from, k, cursor, whole)
    && AllCopied(e, env, m, seen, from, k)
  }

  lemma RangeStep(e: Entity, env: seq<Call>, m: Mirror, st: SyncState, day: Option<nat>, seen: set<nat>,
                  from: nat, k: nat, k1: nat, cursor: nat, page: map<nat, Row>, kept: bool)
    requires RangeWalk(e, env, m, st, day, seen, from, k, cursor, false, kept)
    requires k1 == k + 1 < |env| && MovesOn(e, env[k].remote, env[k1].remote)
    requires page == PageOf(Rows(e, env[k1].remote), InWindowFrom(e, day), cursor)
    ensures RangeWalk(e, env, Upserted(m, page), st, day, seen + page.Keys, from, k1, CursorAfter(page, cursor), |page| < PAGE, kept)
  {
    InSyncStable(e, env[k].remote, env[k1].remote, m, st, kept);
    UpsertKeeps(e, env[k1].remote, m, st, page, kept);
    RangeCall(e, env, day, seen, from, k, k1, cursor, page);
    CopyCall(e, env, m, seen, from, k, k1, InWindowFrom(e, day), cursor, page);
  }

  /** Live mirrored rows in a range (by the mirror's own copy). */
  function LiveInRange(e: Entity, m: Mirror, day: Option<nat>): set<nat> {
    set id | id in m && m[id].live && InWindow(e, day, m[id].row)
  }

  /** A complete re-read: rows that stayed in the range are copied, and no other live row of the range is left. */
  ghost predicate Reread(e: Entity, env: seq<Call>, m: Mirror, day: Option<nat>, seen: set<nat>, from: nat, to: nat) {
    && RangeSeen(e, env, day, seen, from, to, 0, true)
    && AllCopied(e, env, m, seen, from, to)
    && LiveInRange(e, m, day) <= seen
  }

  lemma RangeEnd(e: Entity, env: seq<Call>, m: Mirror, st: SyncState, day: Option<nat>, seen: set<nat>, from: nat, k: nat, kept: bool)
    requires k < |env| && InSync(e, env[k].remote, m, st, kept) && !e.watermark
    requires RangeSeen(e, env, day, seen, from, k, 0, true) && AllCopied(e, env, m, seen, from, k)
    ensures var final := MarkedDeleted(m, LiveInRange(e, m, day) - seen);
            && Reread(e, env, final, day, seen, from, k)
            && forall st' :: InSync(e, env[k].remote, final, st', kept)
  {
    var gone := LiveInRange(e, m, day) - seen;
    CopyMark(e, env, m, seen, from, k, gone);
    PlainInSync(e, env[k].remote, m, MarkedDeleted(m, gone), st, kept);
  }

  // ---------------------------------------------------------------- re-reading given rows

  /** The mirror of one row is what Autotask had: the row, or no live row. */
  predicate AsOf(e: Entity, r: Remote, m: Mirror, id: nat) {
    Has(e, r) && if id in Rows(e, r) then Mirrored(m, id, Rows(e, r)[id]) else id in m ==> !m[id].live
  }

  ghost predicate AsOfDuring(e: Entity, env: seq<Call>, m: Mirror, id: nat, from: nat, to: nat) {
    to < |env| && exists j | from < j <= to :: AsOf(e, env[j].remote, m, id)
  }

  /** One chunk of at most 500 ids: found rows are copied, the others marked deleted. */
  function AfterChunk(m: Mirror, page: map<nat, Row>, chunk: set<nat>): Mirror {
    MarkedDeleted(Upserted(m, page), chunk - page.Keys)
  }

  lemma ChunkFound(rows: map<nat, Row>, chunk: set<nat>, id: nat)
    requires |chunk| <= PAGE && id in chunk && id in rows && id > 0
    ensures id in PageOf(rows, IdIn(chunk), 0)
  {
    var all := Above(rows, IdIn(chunk), 0);
    var page := PageOf(rows, IdIn(chunk), 0);
    var ids := Smallest(all, PAGE);
    assert page.Keys == ids;
    assert all <= chunk;
    SubsetNoLarger(all, chunk);
    if ids != all { ProperSubsetSmaller(ids, all); }
  }

  lemma SubsetNoLarger(a: set<nat>, b: set<nat>)
    requires a <= b
    ensures |a| <= |b|
  {
    if a != b { ProperSubsetSmaller(a, b); }
  }

  lemma ChunkCall(e: Entity, env: seq<Call>, first: Mirror, m: Mirror, st: SyncState, k: nat, k1: nat, chunk: set<nat>, page: map<nat, Row>, m': Mirror, kept: bool)
    requires k1 == k + 1 < |env| && MovesOn(e, env[k].remote, env[k1].remote)
    requires InSync(e, env[k].remote, m, st, kept) && DeletionsSound(first, m, env[k].remote, e)
    requires |chunk| <= PAGE && page == PageOf(Rows(e, env[k1].remote), IdIn(chunk), 0)
    requires m' == AfterChunk(m, page, chunk)
    ensures InSync(e, env[k1].remote, m', st, kept)
    ensures DeletionsSound(first, m', env[k1].remote, e)
    ensures forall id | id in chunk :: AsOf(e, env[k1].remote, m', id)
    ensures page.Keys <= chunk
  {
    var r := env[k1].remote;
    var up := Upserted(m, page);
    CopyKeeps(e, env[k].remote, r, first, m, st, page, kept);
    forall id | id in chunk - page.Keys ensures id !in Rows(e, r) {
      if id in Rows(e, r) { ChunkFound(Rows(e, r), chunk, id); }
    }
    MarkKeeps(e, r, up, st, chunk - page.Keys, kept);
    DeletionsCompose(e, r, first, up, m');
    forall id | id in chunk ensures AsOf(e, r, m', id) {
      if id in Rows(e, r) { ChunkFound(Rows(e, r), chunk, id); }
    }
  }

  ghost predicate AllAsOf(e: Entity, env: seq<Call>, m: Mirror, ids: seq<nat>, from: nat, to: nat) {
    forall id | id in ids :: AsOfDuring(e, env, m, id, from, to)
  }

  lemma AsOfCall(e: Entity, env: seq<Call>, ids: seq<nat>, i: nat, next: nat, chunk: set<nat>, m: Mirror, page: map<nat, Row>, m': Mirror, from: nat, k: nat, k1: nat)
    requires i <= next <= |ids| && chunk == (set t | i <= t < next :: ids[t]) && from <= k && k1 == k + 1 < |env|
    requires AllAsOf(e, env, m, ids[..i], from, k)
    requires m' == AfterChunk(m, page, chunk) && forall id | id in page :: id in chunk
    requires forall id | id in chunk :: AsOf(e, env[k1].remote, m', id)
    ensures AllAsOf(e, env, m', ids[..next], from, k1)
  {
    forall id | id in ids[..next] ensures AsOfDuring(e, env, m', id, from, k1) {
      if id in chunk {
        assert AsOf(e, env[k1].remote, m', id);
      } else {
        assert id in ids[..i];
        var j :| from < j <= k && AsOf(e, env[j].remote, m, id);
        assert AsOf(e, env[j].remote, m', id);
      }
    }
  }

  // ---------------------------------------------------------------- convergence

  /** Autotask has been left alone since before `start`. */
  ghost predicate Quiet(e: Entity, rows: map<nat, Row>, start: nat) {
    forall id | id in rows :: !ChangedSince(e, rows[id], start)
  }

  /**
   * Once Autotask stops changing, a complete incremental walk and then a complete id walk leave the live mirror
   * of an unwindowed entity equal to Autotask.
   */
  lemma Convergence(e: Entity, rows: map<nat, Row>, walked: Mirror, st: SyncState, start: nat, seen: set<nat>, final: Mirror)
    requires e.window.None? && Quiet(e, rows, start)
    requires Walked(e, rows, walked, st, 0, true, start)
    requires SeenUpTo(rows, seen, 0, true) && seen <= rows.Keys
    requires final == MarkedDeleted(walked, Live(walked) - seen)
    ensures Live(final) == rows.Keys
    ensures forall id | id in rows :: final[id] == Rec(rows[id], true)
  {
    forall id | id in rows ensures final[id] == Rec(rows[id], true) {
      assert Mirrored(walked, id, rows[id]);
    }
  }
}
