/**
 * The activity feed's ticket source: changed tickets are found by a budgeted walk, their histories are read oldest
 * change first, and the watermark moves only past what was read.
 */
module ActivityFeeds {
  import opened Base
  import opened Autotask
  import opened AuditLedgers

  /** Re-scan this far behind the watermark. */
  const OVERLAP: nat := 900_000
  const LOOKBACK: nat := 90 * 86_400_000

  const TICKETS := Entity("Tickets", true, false, None, 0, false, true)

  /** Where the source stands: read up to the watermark, from coveredFrom on. */
  datatype Checkpoint = Checkpoint(watermark: int, coveredFrom: int)

  /** The last tracked change of each ticket a scan found. */
  type View = map<nat, nat>

  /** A ticket's last tracked change, at or after a moment. */
  predicate Since(row: Row, from: int) { row.modified.Some? && row.modified.value >= from }

  /** A ticket's history was read at or after a moment. */
  predicate ReadSince(readAt: map<nat, nat>, id: nat, m: nat) { id in readAt && readAt[id] >= m }

  /** Every ticket last changed since coveredFrom has had its history read after that change, or is due for the next scan. */
  ghost predicate Covered(rows: map<nat, Row>, cp: Checkpoint, readAt: map<nat, nat>) {
    forall id | id in rows && Since(rows[id], cp.coveredFrom) ::
      ReadSince(readAt, id, rows[id].modified.value) || Since(rows[id], cp.watermark - OVERLAP)
  }

  /** The marks kept beside the ledger never claim more than was read, and nothing was read in the future. */
  ghost predicate MarksOk(fetched: map<nat, nat>, readAt: map<nat, nat>, clock: nat) {
    && (forall id | id in fetched :: ReadSince(readAt, id, fetched[id]))
    && (forall id | id in readAt :: readAt[id] <= clock)
  }

  /** The feed's books; `kept`: and no ticket was missed. */
  ghost predicate FeedOk(r: Remote, cp: Option<Checkpoint>, fetched: map<nat, nat>, readAt: map<nat, nat>, kept: bool) {
    && Has(TICKETS, r) && MarksOk(fetched, readAt, r.clock)
    && (cp.Some? ==> (kept ==> Covered(Rows(TICKETS, r), cp.value, readAt)) && cp.value.watermark <= Max(r.clock, cp.value.coveredFrom))
  }

  lemma CoveredStable(a: Remote, b: Remote, cp: Checkpoint, readAt: map<nat, nat>)
    requires MovesOn(TICKETS, a, b) && Covered(Rows(TICKETS, a), cp, readAt) && cp.watermark <= Max(a.clock, cp.coveredFrom)
    ensures Covered(Rows(TICKETS, b), cp, readAt)
  {
  }

  /** Whatever other people change in the meantime. */
  lemma FeedStable(a: Remote, b: Remote, cp: Option<Checkpoint>, fetched: map<nat, nat>, readAt: map<nat, nat>, kept: bool)
    requires FeedOk(a, cp, fetched, readAt, kept) && MovesOn(TICKETS, a, b)
    ensures FeedOk(b, cp, fetched, readAt, kept)
  {
    if cp.Some? && kept { CoveredStable(a, b, cp.value, readAt); }
  }

  // ---------------------------------------------------------------- the scan

  predicate Shown(view: View, id: nat, row: Row) { id in view && row.modified == Some(view[id]) }

  /** A scan from `from`: what it covered and did not show was changed after `start`; it shows nothing from the future. */
  ghost predicate Scanned(r: Remote, view: View, from: int, cursor: nat, whole: bool, start: nat) {
    && Has(TICKETS, r) && start <= r.clock
    && (forall id | id in view :: view[id] <= r.clock)
    && forall id | id in Rows(TICKETS, r) && Since(Rows(TICKETS, r)[id], from) && (id <= cursor || whole) ::
         Shown(view, id, Rows(TICKETS, r)[id]) || Since(Rows(TICKETS, r)[id], start)
  }

  lemma ScannedStable(a: Remote, b: Remote, view: View, from: int, cursor: nat, whole: bool, start: nat)
    requires Scanned(a, view, from, cursor, whole, start) && MovesOn(TICKETS, a, b)
    ensures Scanned(b, view, from, cursor, whole, start)
  {
    var ra, rb := Rows(TICKETS, a), Rows(TICKETS, b);
    forall id | id in rb && Since(rb[id], from) && (id <= cursor || whole) ensures Shown(view, id, rb[id]) || Since(rb[id], start) {
      if !(id in ra && rb[id] == ra[id]) {
        assert ChangedSince(TICKETS, rb[id], a.clock);
      }
    }
  }

  function Stamps(page: map<nat, Row>): (v: View)
    requires forall id | id in page :: page[id].modified.Some?
    ensures v.Keys == page.Keys && forall id | id in page :: v[id] == page[id].modified.value
  {
    map id | id in page :: page[id].modified.value
  }

  /** A page shows every ticket between the cursors whose change the scan asks for. */
  lemma PageShows(rows: map<nat, Row>, from: int, cursor: nat, page: map<nat, Row>, id: nat)
    requires page == PageOf(rows, ChangedFrom(TICKETS, from), cursor)
    requires id in rows && Since(rows[id], from) && id > cursor && (id <= CursorAfter(page, cursor) || |page| < PAGE)
    ensures id in page && page[id] == rows[id]
  {
    assert Pass(ChangedFrom(TICKETS, from), id, rows[id]);
    PageComplete(rows, ChangedFrom(TICKETS, from), cursor, id);
  }

  /** What a page shows joins what was shown before. */
  lemma ScanMerge(b: Remote, view: View, from: int, cursor: nat, start: nat, page: map<nat, Row>, next: nat, whole: bool)
    requires Scanned(b, view, from, cursor, false, start)
    requires forall id | id in Rows(TICKETS, b) :: StampsBy(Rows(TICKETS, b)[id], b.clock)
    requires forall id | id in page :: id > cursor && id in Rows(TICKETS, b) && page[id] == Rows(TICKETS, b)[id] && page[id].modified.Some?
    requires forall id | id in Rows(TICKETS, b) && Since(Rows(TICKETS, b)[id], from) && id > cursor && (id <= next || whole) :: id in page
    ensures Scanned(b, view + Stamps(page), from, next, whole, start)
  {
  }

  lemma ScanPage(a: Remote, b: Remote, view: View, from: int, cursor: nat, start: nat, page: map<nat, Row>)
    requires Scanned(a, view, from, cursor, false, start) && MovesOn(TICKETS, a, b)
    requires page == PageOf(Rows(TICKETS, b), ChangedFrom(TICKETS, from), cursor)
    ensures forall id | id in page :: page[id].modified.Some?
    ensures Scanned(b, view + Stamps(page), from, CursorAfter(page, cursor), |page| < PAGE, start)
  {
    ScannedStable(a, b, view, from, cursor, false, start);
    var rows := Rows(TICKETS, b);
    forall id | id in rows && Since(rows[id], from) && id > cursor && (id <= CursorAfter(page, cursor) || |page| < PAGE) ensures id in page {
      PageShows(rows, from, cursor, page, id);
    }
    ScanMerge(b, view, from, cursor, start, page, CursorAfter(page, cursor), |page| < PAGE);
  }

  /** Changed before another ticket, or at the same moment with a lower id. */
  predicate Precedes(v: View, a: nat, b: nat)
    requires a in v && b in v
  {
    v[a] < v[b] || (v[a] == v[b] && a < b)
  }

  function Earliest(v: View): (e: nat)
    requires v != map[]
    ensures e in v && forall id | id in v && id != e :: Precedes(v, e, id)
  {
    assert v.Values != {} by { var k :| k in v; assert v[k] in v.Values; }
    var m := MinOf(v.Values);
    var ids := set id | id in v && v[id] == m;
    assert ids != {} by { var k :| k in v && v[k] == m; assert k in ids; }
    assert forall id | id in v :: v[id] in v.Values && (v[id] == m ==> id in ids);
    MinOf(ids)
  }

  /** Tickets in order of their last change, then of id. */
  function InOrder(v: View): seq<nat>
    decreases |v|
  {
    if v == map[] then []
    else
      var first := Earliest(v);
      assert (v - {first}).Keys == v.Keys - {first};
      [first] + InOrder(v - {first})
  }

  /** Every ticket once, and in order. */
  ghost predicate Sorted(v: View, s: seq<nat>) {
    && (forall id :: id in s <==> id in v)
    && forall i, j | 0 <= i < j < |s| :: s[i] in v && s[j] in v && Precedes(v, s[i], s[j])
  }

  lemma SortedCons(v: View, t: seq<nat>)
    requires v != map[] && Sorted(v - {Earliest(v)}, t)
    ensures Sorted(v, [Earliest(v)] + t)
  {
    var rest, s := v - {Earliest(v)}, [Earliest(v)] + t;
    forall j | 0 < j < |s| ensures s[j] in rest && Precedes(v, s[0], s[j]) { assert s[j] == t[j - 1] && t[j - 1] in t; }
    forall i, j | 0 < i < j < |s| ensures Precedes(v, s[i], s[j]) { assert Precedes(rest, t[i - 1], t[j - 1]); }
  }

  lemma {:induction false} InOrderSorted(v: View)
    ensures Sorted(v, InOrder(v))
    decreases |v|
  {
    if v != map[] {
      var rest := v - {Earliest(v)};
      assert rest.Keys == v.Keys - {Earliest(v)};
      InOrderSorted(rest);
      SortedCons(v, InOrder(rest));
    }
  }

  // ---------------------------------------------------------------- one ingest

  /** Where a source starts: its checkpoint, or the requested start the first time (or when asked to go further back). */
  function Start(cp: Option<Checkpoint>, since: int, backfill: bool): Checkpoint {
    if cp.None? || (backfill && since < cp.value.coveredFrom) then Checkpoint(since, since) else cp.value
  }

  /** The calls an ingest may make. */
  function Budget(maxCalls: int): nat { if maxCalls < 0 then 0 else if maxCalls > 500 then 500 else maxCalls }

  function Clamped(since: int, now: int): int { if since < now - LOOKBACK then now - LOOKBACK else since }

  /** Starting over covers nothing yet, and promises nothing yet. */
  lemma StartCovered(r: Remote, cp: Option<Checkpoint>, fetched: map<nat, nat>, readAt: map<nat, nat>, since: int, backfill: bool, kept: bool)
    requires FeedOk(r, cp, fetched, readAt, kept)
    ensures FeedOk(r, Some(Start(cp, since, backfill)), fetched, readAt, kept)
  {
  }

  /** The histories of the first n candidates have been read since they last changed. */
  ghost predicate ReadUpTo(cand: seq<nat>, view: View, readAt: map<nat, nat>, n: nat) {
    n <= |cand| && forall j | 0 <= j < n :: cand[j] in view && ReadSince(readAt, cand[j], view[cand[j]])
  }

  /** The next watermark: the first candidate left unread, or the last one's change when none was. */
  function Next(start: Checkpoint, cand: seq<nat>, view: View, stop: nat): Checkpoint
    requires stop <= |cand| && forall id | id in cand :: id in view
  {
    var w := if stop < |cand| then view[cand[stop]] else if cand == [] then start.watermark else Max(view[cand[|cand| - 1]], start.watermark);
    start.(watermark := w)
  }

  /** Nothing changed before the scan's horizon less the overlap is left unread. */
  lemma NextCovered(r: Remote, start: Checkpoint, view: View, cand: seq<nat>, readAt: map<nat, nat>, stop: nat, horizon: nat)
    requires Has(TICKETS, r) && Covered(Rows(TICKETS, r), start, readAt)
    requires Scanned(r, view, start.watermark - OVERLAP, 0, true, horizon) && Sorted(view, cand) && ReadUpTo(cand, view, readAt, stop)
    requires forall id | id in view :: view[id] <= horizon + OVERLAP
    ensures Covered(Rows(TICKETS, r), Next(start, cand, view, stop), readAt)
  {
    var rows := Rows(TICKETS, r);
    var next := Next(start, cand, view, stop);
    forall j | 0 <= j < |cand| ensures cand[j] in view { assert cand[j] in cand; }
    forall id | id in rows && Since(rows[id], start.coveredFrom)
      ensures ReadSince(readAt, id, rows[id].modified.value) || Since(rows[id], next.watermark - OVERLAP)
    {
      if Since(rows[id], start.watermark - OVERLAP) && Shown(view, id, rows[id]) {
        assert id in cand;
        var j :| 0 <= j < |cand| && cand[j] == id;
        if j >= stop { assert j == stop || Precedes(view, cand[stop], cand[j]); }
      }
    }
  }

  /** The watermark never runs ahead of Autotask's clock. */
  lemma NextNotAhead(r: Remote, start: Checkpoint, view: View, cand: seq<nat>, stop: nat)
    requires start.watermark <= Max(r.clock, start.coveredFrom) && stop <= |cand| && forall id | id in cand :: id in view && view[id] <= r.clock
    ensures Next(start, cand, view, stop).watermark <= Max(r.clock, start.coveredFrom)
  {
  }

  /** Every ticket last changed in [coveredFrom, watermark) has had its history read after that change. */
  ghost predicate FullyCovered(rows: map<nat, Row>, cp: Checkpoint, readAt: map<nat, nat>) {
    forall id | id in rows && Since(rows[id], cp.coveredFrom) && !Since(rows[id], cp.watermark) :: ReadSince(readAt, id, rows[id].modified.value)
  }

  /** A scan that showed nothing newer than its own start. */
  ghost predicate Still(view: View, horizon: nat) { forall id | id in view :: view[id] <= horizon }

  /** A scan that showed nothing newer than its own start covers right up to the watermark it leaves. */
  lemma NextFullyCovered(r: Remote, start: Checkpoint, view: View, cand: seq<nat>, readAt: map<nat, nat>, stop: nat, horizon: nat)
    requires Has(TICKETS, r) && Covered(Rows(TICKETS, r), start, readAt) && start.watermark <= Max(horizon, start.coveredFrom)
    requires Scanned(r, view, start.watermark - OVERLAP, 0, true, horizon) && Sorted(view, cand) && ReadUpTo(cand, view, readAt, stop)
    requires Still(view, horizon)
    ensures FullyCovered(Rows(TICKETS, r), Next(start, cand, view, stop), readAt)
  {
    var rows := Rows(TICKETS, r);
    var next := Next(start, cand, view, stop);
    forall j | 0 <= j < |cand| ensures cand[j] in view { assert cand[j] in cand; }
    forall id | id in rows && Since(rows[id], start.coveredFrom) && !Since(rows[id], next.watermark)
      ensures ReadSince(readAt, id, rows[id].modified.value)
    {
      if Since(rows[id], start.watermark - OVERLAP) && Shown(view, id, rows[id]) {
        assert id in cand;
        var j :| 0 <= j < |cand| && cand[j] == id;
        LaterLater(view, cand, stop, j);
      }
    }
  }

  /** And one that was fully covered before stays so, wherever its watermark stood. */
  lemma NextStaysCovered(r: Remote, start: Checkpoint, view: View, cand: seq<nat>, readAt: map<nat, nat>, stop: nat, horizon: nat)
    requires Has(TICKETS, r) && FullyCovered(Rows(TICKETS, r), start, readAt)
    requires Scanned(r, view, start.watermark - OVERLAP, 0, true, horizon) && Sorted(view, cand) && ReadUpTo(cand, view, readAt, stop)
    requires Still(view, horizon)
    ensures FullyCovered(Rows(TICKETS, r), Next(start, cand, view, stop), readAt)
  {
    var rows := Rows(TICKETS, r);
    var next := Next(start, cand, view, stop);
    forall j | 0 <= j < |cand| ensures cand[j] in view { assert cand[j] in cand; }
    forall id | id in rows && Since(rows[id], start.coveredFrom) && !Since(rows[id], next.watermark)
      ensures ReadSince(readAt, id, rows[id].modified.value)
    {
      if Since(rows[id], start.watermark) && Shown(view, id, rows[id]) {
        assert id in cand;
        var j :| 0 <= j < |cand| && cand[j] == id;
        LaterLater(view, cand, stop, j);
      }
    }
  }

  /** What the source promises its readers: full coverage up to a watermark that is not in the future. */
  ghost predicate Promised(r: Remote, cp: Option<Checkpoint>, readAt: map<nat, nat>) {
    Has(TICKETS, r) && (cp.Some? ==> FullyCovered(Rows(TICKETS, r), cp.value, readAt) && cp.value.watermark <= Max(r.clock, cp.value.coveredFrom))
  }

  /** The promise lasts, whatever other people change, and whatever else is read. */
  lemma PromiseLasts(a: Remote, b: Remote, cp: Option<Checkpoint>, r1: map<nat, nat>, r2: map<nat, nat>)
    requires Promised(a, cp, r1) && MovesOn(TICKETS, a, b) && Grew(r1, r2)
    ensures Promised(b, cp, r2)
  {
    if cp.Some? {
      var ra, rb := Rows(TICKETS, a), Rows(TICKETS, b);
      forall id | id in rb && Since(rb[id], cp.value.coveredFrom) && !Since(rb[id], cp.value.watermark)
        ensures ReadSince(r2, id, rb[id].modified.value)
      {
        assert (id in ra && rb[id] == ra[id]) || ChangedSince(TICKETS, rb[id], a.clock);
      }
    }
  }

  lemma KeepsPromise(a: Remote, b: Remote, cp: Option<Checkpoint>, r1: map<nat, nat>, r2: map<nat, nat>)
    requires MovesOn(TICKETS, a, b) && Grew(r1, r2)
    ensures Promised(a, cp, r1) ==> Promised(b, cp, r2)
  {
    if Promised(a, cp, r1) { PromiseLasts(a, b, cp, r1, r2); }
  }

  /** Starting over promises nothing yet. */
  lemma StartPromised(r: Remote, cp: Option<Checkpoint>, readAt: map<nat, nat>, since: int, backfill: bool)
    requires Promised(r, cp, readAt)
    ensures Promised(r, Some(Start(cp, since, backfill)), readAt)
  {
  }

  /** No ticket carries a change later than this. */
  ghost predicate NoneLater(c: Call, clock: nat) {
    Has(TICKETS, c.remote) && forall id | id in Rows(TICKETS, c.remote) && Rows(TICKETS, c.remote)[id].modified.Some? ::
      Rows(TICKETS, c.remote)[id].modified.value <= clock
  }

  /** Nobody changed a ticket while these calls were made. */
  ghost predicate NobodyChanged(env: seq<Call>, from: nat, to: nat) {
    from < |env| && forall k | from <= k <= to && k < |env| :: NoneLater(env[k], env[from].remote.clock)
  }

  lemma StillMore(env: seq<Call>, from: nat, k: nat, view: View, page: map<nat, Row>)
    requires from <= k && k + 1 < |env| && Has(TICKETS, env[k + 1].remote)
    requires NobodyChanged(env, from, k) ==> Still(view, env[from].remote.clock)
    requires forall id | id in page :: page[id].modified.Some? && id in Rows(TICKETS, env[k + 1].remote) && page[id] == Rows(TICKETS, env[k + 1].remote)[id]
    ensures NobodyChanged(env, from, k + 1) ==> Still(view + Stamps(page), env[from].remote.clock)
  {
    if NobodyChanged(env, from, k + 1) {
      assert NoneLater(env[k + 1], env[from].remote.clock);
    }
  }

  /** A scan that began at call `first`, after call k. */
  ghost predicate Scanning(env: seq<Call>, first: nat, k: nat, view: View, from: int, cursor: nat, whole: bool) {
    && first <= k < |env| && Scanned(env[k].remote, view, from, cursor, whole, env[first].remote.clock)
    && (NobodyChanged(env, first, k) ==> Still(view, env[first].remote.clock))
  }

  lemma ScanningIdle(env: seq<Call>, first: nat, k: nat, view: View, from: int, cursor: nat)
    requires Scanning(env, first, k, view, from, cursor, false) && k + 1 < |env| && MovesOn(TICKETS, env[k].remote, env[k + 1].remote)
    ensures Scanning(env, first, k + 1, view, from, cursor, false)
  {
    ScannedStable(env[k].remote, env[k + 1].remote, view, from, cursor, false, env[first].remote.clock);
  }

  lemma ScanningPage(env: seq<Call>, first: nat, k: nat, view: View, from: int, cursor: nat, page: map<nat, Row>)
    requires Scanning(env, first, k, view, from, cursor, false) && k + 1 < |env| && MovesOn(TICKETS, env[k].remote, env[k + 1].remote)
    requires page == PageOf(Rows(TICKETS, env[k + 1].remote), ChangedFrom(TICKETS, from), cursor)
    ensures forall id | id in page :: page[id].modified.Some?
    ensures Scanning(env, first, k + 1, view + Stamps(page), from, CursorAfter(page, cursor), |page| < PAGE)
  {
    ScanPage(env[k].remote, env[k + 1].remote, view, from, cursor, env[first].remote.clock, page);
    StillMore(env, first, k, view, page);
  }

  lemma LaterLater(view: View, cand: seq<nat>, i: nat, j: nat)
    requires Sorted(view, cand) && j < |cand| && forall k | 0 <= k < |cand| :: cand[k] in view
    ensures i <= j ==> view[cand[i]] <= view[cand[j]]
  {
    if i < j { assert Precedes(view, cand[i], cand[j]); }
  }

  /** Reading again never forgets. */
  ghost predicate Grew(a: map<nat, nat>, b: map<nat, nat>) { forall k | k in a :: k in b && b[k] >= a[k] }

  /** An ingest that gave up keeps its checkpoint, and what it read is still read. */
  lemma KeepsOld(a: Remote, b: Remote, cp: Option<Checkpoint>, f1: map<nat, nat>, r1: map<nat, nat>, f2: map<nat, nat>, r2: map<nat, nat>, kept: bool)
    requires FeedOk(a, cp, f1, r1, kept) && MovesOn(TICKETS, a, b) && Grew(r1, r2) && MarksOk(f2, r2, b.clock)
    ensures FeedOk(b, cp, f2, r2, kept)
  {
    FeedStable(a, b, cp, f1, r1, kept);
  }

  /** The scan and the reads so far, midway through an ingest that began at `start`. */
  ghost predicate Reading(r: Remote, start: Checkpoint, view: View, cand: seq<nat>, complete: bool, horizon: nat,
                          fetched: map<nat, nat>, readAt: map<nat, nat>, i: nat, kept: bool) {
    && FeedOk(r, Some(start), fetched, readAt, kept) && Sorted(view, cand) && ReadUpTo(cand, view, readAt, i)
    && (complete ==> Scanned(r, view, start.watermark - OVERLAP, 0, true, horizon))
    && (forall id | id in view :: view[id] <= r.clock)
  }

  /** The next candidate's history: already read since its last change, or read now. */
  lemma ReadingStep(a: Remote, b: Remote, start: Checkpoint, view: View, cand: seq<nat>, complete: bool, horizon: nat,
                    fetched: map<nat, nat>, readAt: map<nat, nat>, i: nat, now: nat, kept: bool)
    requires Reading(a, start, view, cand, complete, horizon, fetched, readAt, i, kept) && i < |cand| && MovesOn(TICKETS, a, b) && now <= b.clock
    ensures cand[i] in view
    ensures cand[i] in fetched && fetched[cand[i]] >= view[cand[i]] ==> Reading(a, start, view, cand, complete, horizon, fetched, readAt, i + 1, kept)
    ensures Reading(b, start, view, cand, complete, horizon, fetched[cand[i] := now], readAt[cand[i] := b.clock], i + 1, kept)
    ensures Grew(readAt, readAt[cand[i] := b.clock])
    ensures Reading(b, start, view, cand, complete, horizon, fetched, readAt, i, kept)
  {
    if complete { ScannedStable(a, b, view, start.watermark - OVERLAP, 0, true, horizon); }
  }

  /** What still holds after a scan, of the checkpoint as it was and as the ingest starts from. */
  lemma AfterScan(a: Remote, b: Remote, cp: Option<Checkpoint>, fetched: map<nat, nat>, readAt: map<nat, nat>, since: int, backfill: bool, kept: bool)
    requires FeedOk(a, cp, fetched, readAt, kept) && MovesOn(TICKETS, a, b)
    ensures FeedOk(b, cp, fetched, readAt, kept) && FeedOk(b, Some(Start(cp, since, backfill)), fetched, readAt, kept)
    ensures Promised(a, cp, readAt) ==> Promised(b, cp, readAt) && Promised(b, Some(Start(cp, since, backfill)), readAt)
  {
    StartCovered(a, cp, fetched, readAt, since, backfill, kept);
    FeedStable(a, b, cp, fetched, readAt, kept);
    FeedStable(a, b, Some(Start(cp, since, backfill)), fetched, readAt, kept);
    if Promised(a, cp, readAt) {
      StartPromised(a, cp, readAt, since, backfill);
      PromiseLasts(a, b, cp, readAt, readAt);
      PromiseLasts(a, b, Some(Start(cp, since, backfill)), readAt, readAt);
    }
  }

  /** How one ingest went; its upstream calls were numbers from+1 .. to, the scan's up to `scanned`. */
  datatype Report = Report(from: nat, scanned: nat, to: nat, complete: bool, stopped: bool, failed: bool)

  /** A scan whose newest sight is within the overlap of the moment from which it may have missed changes. */
  ghost predicate Sharp(view: View, horizon: nat) { forall id | id in view :: view[id] <= horizon + OVERLAP }

  /** An ingest that read everything it found leaves nothing unread that changed before its horizon. */
  ghost predicate CaughtUp(r: Remote, start: Checkpoint, readAt: map<nat, nat>, horizon: nat) {
    Has(TICKETS, r) && forall id | id in Rows(TICKETS, r) && Since(Rows(TICKETS, r)[id], start.coveredFrom) ::
      ReadSince(readAt, id, Rows(TICKETS, r)[id].modified.value) || Since(Rows(TICKETS, r)[id], horizon)
  }

  lemma IngestEnd(r: Remote, start: Checkpoint, view: View, cand: seq<nat>, horizon: nat, fetched: map<nat, nat>, readAt: map<nat, nat>, stop: nat, kept: bool)
    requires Reading(r, start, view, cand, true, horizon, fetched, readAt, stop, kept)
    requires forall id | id in cand :: id in view
    ensures FeedOk(r, Some(Next(start, cand, view, stop)), fetched, readAt, kept && Sharp(view, horizon))
    ensures Still(view, horizon) && (Promised(r, Some(start), readAt) || (kept && start.watermark <= Max(horizon, start.coveredFrom))) ==>
              Promised(r, Some(Next(start, cand, view, stop)), readAt)
    ensures kept && stop == |cand| && start.watermark <= horizon + OVERLAP ==> CaughtUp(r, start, readAt, horizon)
  {
    NextNotAhead(r, start, view, cand, stop);
    if kept && Sharp(view, horizon) { NextCovered(r, start, view, cand, readAt, stop, horizon); }
    if Still(view, horizon) && kept && start.watermark <= Max(horizon, start.coveredFrom) { NextFullyCovered(r, start, view, cand, readAt, stop, horizon); }
    if Still(view, horizon) && Promised(r, Some(start), readAt) { NextStaysCovered(r, start, view, cand, readAt, stop, horizon); }
  }

  function At(clock: nat, rows: map<nat, Row>): Remote { Remote(clock, map[TICKETS.name := Table(rows, 2)]) }

  function Stamped(m: nat): Row { Row("", Some(m), None) }

  /**
   * The overlap is what a scan's blur may be, and no more. A scan shows one ticket's change and misses another's, `d`
   * earlier, made as it began (or, with a mirror, not copied yet): the watermark then passes an unread change, which is
   * due again if and only if d is within the overlap. A mirror's age limit is twice the overlap.
   */
  lemma BlurredScan(t: nat, d: nat)
    requires d > 0
    ensures var r := At(t + d, map[1 := Stamped(t), 2 := Stamped(t + d)]);
            var start, view, cand := Checkpoint(t, t), map[2 := t + d], [2];
            && FeedOk(r, Some(start), map[], map[], true) && Scanned(r, view, t - OVERLAP, 0, true, t) && Sorted(view, cand)
            && ReadUpTo(cand, view, map[2 := t + d], 1)
            && !FullyCovered(Rows(TICKETS, r), Next(start, cand, view, 1), map[2 := t + d])
            && (Covered(Rows(TICKETS, r), Next(start, cand, view, 1), map[2 := t + d]) <==> d <= OVERLAP)
  {
    var r := At(t + d, map[1 := Stamped(t), 2 := Stamped(t + d)]);
    assert Since(Rows(TICKETS, r)[1], t) && 1 in Rows(TICKETS, r);
    assert Next(Checkpoint(t, t), [2], map[2 := t + d], 1).watermark == t + d;
  }

  // ---------------------------------------------------------------- one ingest after another

  /** The mirror's copy of the tickets: its rows, how far back they reach, and the moment from which it may miss changes. */
  datatype Copy = Copy(rows: map<nat, Row>, reach: int, lag: nat)

  /** It holds every ticket changed since its reach as Autotask has it, or the ticket changed after its lag. */
  ghost predicate CopyOk(r: Remote, c: Copy) {
    && Has(TICKETS, r) && c.lag <= r.clock && (forall id | id in c.rows :: StampsBy(c.rows[id], r.clock))
    && forall id | id in Rows(TICKETS, r) && Since(Rows(TICKETS, r)[id], c.reach) ::
         (id in c.rows && c.rows[id] == Rows(TICKETS, r)[id]) || Since(Rows(TICKETS, r)[id], c.lag)
  }

  /** What the mirror shows of the tickets changed since a moment. */
  function ViewOf(rows: map<nat, Row>, from: int): View {
    map id | id in rows && Since(rows[id], from) :: rows[id].modified.value
  }

  lemma CopyScanned(r: Remote, c: Copy, from: int)
    requires CopyOk(r, c) && c.reach <= from
    ensures Scanned(r, ViewOf(c.rows, from), from, 0, true, c.lag)
  {
  }

  /** An ingest to come: its timeline, what the histories hold, what is asked for, and the mirror's copy when it is fresh. */
  datatype Round = Round(env: seq<Call>, histories: seq<seq<Event>>, asked: int, backfill: bool, maxCalls: int, used: nat, now: nat, copy: Option<Copy>)

  ghost predicate RoundOk(before: Remote, round: Round) {
    && Timeline([TICKETS], round.env) && round.used < |round.env| == |round.histories| && 500 < |round.env|
    && round.now <= round.env[round.used].remote.clock && MovesOn(TICKETS, before, round.env[round.used].remote)
    && (round.copy.Some? ==> CopyOk(round.env[round.used].remote, round.copy.value))
  }

  /** Autotask when an ingest is over. */
  function Last(round: Round): Remote
    requires |round.env| > 0
  {
    round.env[|round.env| - 1].remote
  }

  /** Ingests one after another, any number of changes by other people during and between them. */
  ghost predicate Scheduled(before: Remote, rounds: seq<Round>)
    decreases |rounds|
  {
    rounds == [] || (RoundOk(before, rounds[0]) && Scheduled(Last(rounds[0]), rounds[1..]))
  }

  lemma {:induction false} NextScheduled(before: Remote, rounds: seq<Round>, n: nat)
    requires n < |rounds| && Scheduled(before, rounds[n..])
    ensures RoundOk(before, rounds[n]) && Scheduled(Last(rounds[n]), rounds[n + 1..])
  {
    assert rounds[n..][1..] == rounds[n + 1..];
  }

  /** Autotask after the first n ingests. */
  function After(start: Remote, rounds: seq<Round>, n: nat): Remote
    requires n <= |rounds|
  {
    if n == 0 || rounds[n - 1].env == [] then start else Last(rounds[n - 1])
  }

  /** How an ingest went, what its scan showed, and the moment from which that scan may have missed changes. */
  datatype Turn = Turn(rep: Report, view: View, horizon: nat)

  predicate Finished(t: Turn) { t.rep.complete && !t.rep.failed }

  /** What the horizon is, and when nobody got in the way of a live scan. */
  ghost predicate TurnOk(round: Round, t: Turn) {
    && round.used < |round.env|
    && (t.horizon == round.env[round.used].remote.clock || (round.copy.Some? && t.horizon == round.copy.value.lag))
    && (round.copy.None? && NobodyChanged(round.env, round.used, t.rep.scanned) ==> Still(t.view, t.horizon))
  }

  /** The turns taken so far, with their reports. */
  ghost predicate TurnsOk(rounds: seq<Round>, reports: seq<Report>, turns: seq<Turn>) {
    |reports| == |turns| <= |rounds| && forall k | 0 <= k < |turns| :: turns[k].rep == reports[k] && TurnOk(rounds[k], turns[k])
  }

  ghost predicate AllSharp(turns: seq<Turn>) { forall k | 0 <= k < |turns| && Finished(turns[k]) :: Sharp(turns[k].view, turns[k].horizon) }

  ghost predicate AllStill(turns: seq<Turn>) { forall k | 0 <= k < |turns| && Finished(turns[k]) :: Still(turns[k].view, turns[k].horizon) }

  lemma OneMoreTurn(rounds: seq<Round>, reports: seq<Report>, turns: seq<Turn>, rep: Report, t: Turn)
    requires TurnsOk(rounds, reports, turns) && |turns| < |rounds| && t.rep == rep && TurnOk(rounds[|turns|], t)
    ensures TurnsOk(rounds, reports + [rep], turns + [t])
    ensures AllSharp(turns + [t]) <==> AllSharp(turns) && (Finished(t) ==> Sharp(t.view, t.horizon))
    ensures AllStill(turns + [t]) <==> AllStill(turns) && (Finished(t) ==> Still(t.view, t.horizon))
  {
    assert (turns + [t])[|turns|] == t && forall k | 0 <= k < |turns| :: (turns + [t])[k] == turns[k];
  }

  class ActivityFeed {
    var calls: nat                       // upstream calls of the ingest under way
    var cp: Option<Checkpoint>
    var fetched: map<nat, nat>
    ghost var readAt: map<nat, nat>
    const ledger: Ledger

    constructor ()
      ensures cp == None && fetched == map[] && readAt == map[] && calls == 0
      ensures fresh(ledger) && ledger.events == []
    {
      cp, fetched, readAt, calls := None, map[], map[], 0;
      ledger := new Ledger();
    }

    ghost predicate Running(env: seq<Call>)
      reads this
    {
      calls < |env| && Timeline([TICKETS], env)
    }

    /** One call of the live scan. */
    method ScanCall(env: seq<Call>, ghost first: nat, from: int, before: View, cursor: nat) returns (ok: bool, view: View, at: nat, complete: bool)
      requires Running(env) && calls + 1 < |env| && Scanning(env, first, calls, before, from, cursor, false)
      modifies `calls
      ensures calls == old(calls) + 1 && (complete ==> ok) && Scanning(env, first, calls, view, from, at, complete)
    {
      ghost var k := calls;
      calls := calls + 1;
      Between([TICKETS], env, k, calls, TICKETS);
      if !env[calls].ok {
        ScanningIdle(env, first, k, before, from, cursor);
        return false, before, cursor, false;
      }
      var page := PageOf(Rows(TICKETS, env[calls].remote), ChangedFrom(TICKETS, from), cursor);
      ScanningPage(env, first, k, before, from, cursor, page);
      ok, view, at, complete := true, before + Stamps(page), CursorAfter(page, cursor), |page| < PAGE;
    }

    /** The live scan: changed tickets, walked by id, within the budget. */
    method Scan(env: seq<Call>, from: int, budget: nat) returns (view: View, complete: bool, failed: bool)
      requires Running(env) && budget < |env|
      modifies `calls
      ensures old(calls) <= calls <= Max(old(calls), budget) && (complete ==> !failed)
      ensures complete ==> Scanned(env[calls].remote, view, from, 0, true, env[old(calls)].remote.clock)
      ensures forall id | id in view :: view[id] <= env[calls].remote.clock
      ensures NobodyChanged(env, old(calls), calls) ==> Still(view, env[old(calls)].remote.clock)
    {
      view, complete, failed := map[], false, false;
      var first := calls;
      var cursor: nat := 0;
      Between([TICKETS], env, calls, calls, TICKETS);
      while calls < budget && !complete && !failed
        invariant first <= calls <= Max(first, budget) && (complete ==> !failed)
        invariant Scanning(env, first, calls, view, from, cursor, complete)
        decreases budget - calls
      {
        var ok;
        ok, view, cursor, complete := ScanCall(env, first, from, view, cursor);
        failed := !ok;
      }
    }

    /** One ticket's history: its events into the ledger, and the mark. */
    method ReadHistory(id: nat, events: seq<Event>, now: nat, ghost clock: nat)
      requires DistinctKeys(ledger.events)
      modifies `fetched, `readAt, ledger
      ensures fetched == old(fetched)[id := now] && readAt == old(readAt)[id := clock]
      ensures DistinctKeys(ledger.events) && ledger.events == Inserted(old(ledger.events), events)
    {
      var _ := ledger.Insert(events);
      fetched, readAt := fetched[id := now], readAt[id := clock];
    }

    /** Candidates in order of their last change, until the budget is spent; the first one left unread stops it. */
    method ReadHistories(env: seq<Call>, histories: seq<seq<Event>>, ghost start: Checkpoint, view: View, cand: seq<nat>,
                         ghost complete: bool, ghost horizon: nat, budget: nat, now: nat, ghost kept: bool) returns (stop: nat, failed: bool)
      requires Running(env) && budget < |env| == |histories| && now <= env[calls].remote.clock && DistinctKeys(ledger.events)
      requires Reading(env[calls].remote, start, view, cand, complete, horizon, fetched, readAt, 0, kept)
      modifies `calls, `fetched, `readAt, ledger
      ensures old(calls) <= calls <= Max(old(calls), budget) && stop <= |cand| && DistinctKeys(ledger.events) && old(ledger.events) <= ledger.events
      ensures Reading(env[calls].remote, start, view, cand, complete, horizon, fetched, readAt, stop, kept) && Grew(old(readAt), readAt)
      ensures stop < |cand| && !failed ==> calls >= budget
    {
      stop, failed := 0, false;
      var first := calls;
      while stop < |cand|
        invariant first <= calls <= Max(first, budget) && stop <= |cand| && DistinctKeys(ledger.events) && old(ledger.events) <= ledger.events
        invariant now <= env[calls].remote.clock && Grew(old(readAt), readAt)
        invariant Reading(env[calls].remote, start, view, cand, complete, horizon, fetched, readAt, stop, kept)
      {
        Between([TICKETS], env, calls, calls, TICKETS);
        ReadingStep(env[calls].remote, env[calls].remote, start, view, cand, complete, horizon, fetched, readAt, stop, now, kept);
        if cand[stop] in fetched && fetched[cand[stop]] >= view[cand[stop]] {
          stop := stop + 1;
        } else if calls >= budget {
          return;
        } else {
          ghost var k := calls;
          calls := calls + 1;
          Between([TICKETS], env, k, calls, TICKETS);
          ReadingStep(env[k].remote, env[calls].remote, start, view, cand, complete, horizon, fetched, readAt, stop, now, kept);
          if !env[calls].ok { return stop, true; }
          ReadHistory(cand[stop], histories[calls], now, env[calls].remote.clock);
          stop := stop + 1;
        }
      }
    }

    /** What the scan found: the mirror's copy when it is fresh, else the live walk. */
    method FindChanged(env: seq<Call>, from: int, budget: nat, mirror: Option<View>, ghost lag: nat)
      returns (view: View, complete: bool, failed: bool, ghost horizon: nat)
      requires Running(env) && budget < |env|
      requires mirror.Some? ==> Scanned(env[calls].remote, mirror.value, from, 0, true, lag)
      modifies `calls
      ensures old(calls) <= calls <= Max(old(calls), budget) && (complete ==> !failed)
      ensures complete ==> Scanned(env[calls].remote, view, from, 0, true, horizon)
      ensures forall id | id in view :: view[id] <= env[calls].remote.clock
      ensures horizon == if mirror.Some? then lag else env[old(calls)].remote.clock
      ensures mirror.Some? ==> view == mirror.value && complete && calls == old(calls)
      ensures mirror.None? && NobodyChanged(env, old(calls), calls) ==> Still(view, horizon)
    {
      if mirror.Some? {
        view, complete, failed, horizon := mirror.value, true, false, lag;
      } else {
        horizon := env[calls].remote.clock;
        view, complete, failed := Scan(env, from, budget);
      }
    }

    /** The second half of an ingest: read the candidates' histories and move the checkpoint. */
    method CatchUp(env: seq<Call>, histories: seq<seq<Event>>, start: Checkpoint, view: View, complete: bool, ghost horizon: nat, budget: nat, now: nat, ghost kept: bool)
      returns (stopped: bool, failed: bool)
      requires Running(env) && budget < |env| == |histories| && now <= env[calls].remote.clock && DistinctKeys(ledger.events)
      requires FeedOk(env[calls].remote, Some(start), fetched, readAt, kept) && FeedOk(env[calls].remote, cp, fetched, readAt, kept)
      requires complete ==> Scanned(env[calls].remote, view, start.watermark - OVERLAP, 0, true, horizon)
      requires forall id | id in view :: view[id] <= env[calls].remote.clock
      modifies this, ledger
      ensures old(calls) <= calls <= Max(old(calls), budget) && DistinctKeys(ledger.events) && old(ledger.events) <= ledger.events
      ensures FeedOk(env[calls].remote, cp, fetched, readAt, kept && (complete && !failed ==> Sharp(view, horizon)))
      ensures (if failed then Promised(env[old(calls)].remote, old(cp), old(readAt))
               else
                 || (Promised(env[old(calls)].remote, Some(start), old(readAt)) && (complete ==> Still(view, horizon)))
                 || (complete && kept && Still(view, horizon) && start.watermark <= Max(horizon, start.coveredFrom)))
              ==> Promised(env[calls].remote, cp, readAt)
      ensures failed ==> cp == old(cp)
      ensures !failed ==> cp.Some? && cp.value.coveredFrom == start.coveredFrom && (!complete ==> cp.value == start)
      ensures kept && complete && !stopped && !failed && start.watermark <= horizon + OVERLAP ==> CaughtUp(env[calls].remote, start, readAt, horizon)
    {
      var cand := InOrder(view);
      InOrderSorted(view);
      ghost var k, f, r := calls, fetched, readAt;
      var stop;
      stop, failed := ReadHistories(env, histories, start, view, cand, complete, horizon, budget, now, kept);
      stopped := stop < |cand|;
      Between([TICKETS], env, k, calls, TICKETS);
      if failed {
        KeepsOld(env[k].remote, env[calls].remote, cp, f, r, fetched, readAt, kept);
        KeepsPromise(env[k].remote, env[calls].remote, cp, r, readAt);
        return;
      }
      KeepsPromise(env[k].remote, env[calls].remote, Some(start), r, readAt);
      if complete {
        IngestEnd(env[calls].remote, start, view, cand, horizon, fetched, readAt, stop, kept);
        cp := Some(Next(start, cand, view, stop));
      } else {
        cp := Some(start);
      }
    }

    /**
     * One ingest. Whatever the budget, wherever it was cut and whatever failed, every ticket last changed since
     * coveredFrom stays covered, provided the scan was sharp; and an ingest that finishes leaves nothing unread that
     * changed before its scan. `used` calls were spent by the feed's other sources.
     */
    method Ingest(env: seq<Call>, histories: seq<seq<Event>>, asked: int, backfill: bool, maxCalls: int, used: nat, now: nat, mirror: Option<View>, ghost lag: nat, ghost kept: bool)
      returns (rep: Report, ghost view: View, ghost horizon: nat)
      requires Timeline([TICKETS], env) && used < |env| == |histories| && 500 < |env| && now <= env[used].remote.clock && DistinctKeys(ledger.events)
      requires FeedOk(env[used].remote, cp, fetched, readAt, kept)
      requires mirror.Some? ==> Scanned(env[used].remote, mirror.value, Start(cp, Clamped(asked, now), backfill).watermark - OVERLAP, 0, true, lag)
      modifies this, ledger
      ensures used <= calls <= Max(used, Budget(maxCalls)) && rep.from == used <= rep.scanned <= rep.to == calls
      ensures horizon == if mirror.Some? then lag else env[used].remote.clock
      ensures forall id | id in view :: view[id] <= env[rep.scanned].remote.clock
      ensures FeedOk(env[calls].remote, cp, fetched, readAt, kept && (rep.complete && !rep.failed ==> Sharp(view, horizon)))
      ensures DistinctKeys(ledger.events) && old(ledger.events) <= ledger.events
      ensures old(Promised(env[used].remote, cp, readAt)) && (rep.complete && !rep.failed ==> Still(view, horizon)) ==>
                Promised(env[calls].remote, cp, readAt)
      ensures var start := Start(old(cp), Clamped(asked, now), backfill);
              kept && rep.complete && !rep.failed && Still(view, horizon) && start.watermark <= Max(horizon, start.coveredFrom) ==>
                Promised(env[calls].remote, cp, readAt)
      ensures mirror.None? && NobodyChanged(env, used, rep.scanned) ==> Still(view, horizon)
      ensures rep.failed ==> cp == old(cp)
      ensures !rep.failed ==> cp.Some? && cp.value.coveredFrom == Start(old(cp), Clamped(asked, now), backfill).coveredFrom
      ensures !rep.failed && !rep.complete ==> cp == Some(Start(old(cp), Clamped(asked, now), backfill))
      ensures var start := Start(old(cp), Clamped(asked, now), backfill);
              kept && rep.complete && !rep.stopped && !rep.failed && start.watermark <= horizon + OVERLAP ==>
                CaughtUp(env[calls].remote, start, readAt, horizon)
    {
      calls := used;
      var budget := Budget(maxCalls);
      var start := Start(cp, Clamped(asked, now), backfill);
      StartCovered(env[calls].remote, cp, fetched, readAt, Clamped(asked, now), backfill, kept);
      ghost var first, k0, read := cp, calls, readAt;
      var seen, complete, failed;
      seen, complete, failed, horizon := FindChanged(env, start.watermark - OVERLAP, budget, mirror, lag);
      view := seen;
      var scanned := calls;
      Between([TICKETS], env, k0, calls, TICKETS);
      AfterScan(env[k0].remote, env[calls].remote, first, fetched, read, Clamped(asked, now), backfill, kept);
      var stopped := false;
      if !failed { stopped, failed := CatchUp(env, histories, start, seen, complete, horizon, budget, now, kept); }
      rep := Report(used, scanned, calls, complete, stopped, failed);
    }

    /** One ingest, some time after the last one. */
    method IngestRound(round: Round, ghost before: Remote, ghost kept: bool) returns (rep: Report, ghost turn: Turn)
      requires RoundOk(before, round) && DistinctKeys(ledger.events) && FeedOk(before, cp, fetched, readAt, kept)
      modifies this, ledger
      ensures DistinctKeys(ledger.events) && old(ledger.events) <= ledger.events && TurnOk(round, turn) && turn.rep == rep
      ensures FeedOk(Last(round), cp, fetched, readAt, kept && (Finished(turn) ==> Sharp(turn.view, turn.horizon)))
      ensures old(Promised(before, cp, readAt)) && (Finished(turn) ==> Still(turn.view, turn.horizon)) ==> Promised(Last(round), cp, readAt)
    {
      ghost var first, read := cp, readAt;
      var env := round.env;
      FeedStable(before, env[round.used].remote, cp, fetched, readAt, kept);
      KeepsPromise(before, env[round.used].remote, cp, readAt, readAt);
      var from := Start(cp, Clamped(round.asked, round.now), round.backfill).watermark - OVERLAP;
      var usable := round.copy.Some? && round.copy.value.reach <= from;
      if usable { CopyScanned(env[round.used].remote, round.copy.value, from); }
      ghost var view, horizon;
      rep, view, horizon := Ingest(env, round.histories, round.asked, round.backfill, round.maxCalls, round.used, round.now,
                                   if usable then Some(ViewOf(round.copy.value.rows, from)) else None, if usable then round.copy.value.lag else 0, kept);
      turn := Turn(rep, view, horizon);
      Between([TICKETS], env, calls, |env| - 1, TICKETS);
      FeedStable(env[calls].remote, Last(round), cp, fetched, readAt, kept && (Finished(turn) ==> Sharp(view, horizon)));
      KeepsPromise(env[calls].remote, Last(round), cp, readAt, readAt);
    }

    /**
     * Ingest after ingest, whatever the budgets, wherever they are cut and whatever fails, and whatever other people
     * change during and between them: as long as the scans that finished were sharp, every ticket last changed since
     * coveredFrom is read or due; as long as they showed nothing newer than their start, every one last changed in
     * [coveredFrom, watermark) is read. The ledger only grows, without duplicates.
     */
    method Run(rounds: seq<Round>, ghost start: Remote) returns (reports: seq<Report>, ghost turns: seq<Turn>)
      requires Scheduled(start, rounds) && DistinctKeys(ledger.events)
      requires FeedOk(start, cp, fetched, readAt, true) && Promised(start, cp, readAt)
      modifies this, ledger
      ensures DistinctKeys(ledger.events) && old(ledger.events) <= ledger.events
      ensures |reports| == |rounds| && TurnsOk(rounds, reports, turns)
      ensures FeedOk(After(start, rounds, |rounds|), cp, fetched, readAt, AllSharp(turns))
      ensures AllStill(turns) ==> Promised(After(start, rounds, |rounds|), cp, readAt)
    {
      ghost var at, sharp, still := start, true, true;
      reports, turns := [], [];
      while |reports| < |rounds|
        invariant TurnsOk(rounds, reports, turns) && sharp == AllSharp(turns) && still == AllStill(turns)
        invariant at == After(start, rounds, |reports|)
        invariant Scheduled(at, rounds[|reports|..]) && DistinctKeys(ledger.events) && old(ledger.events) <= ledger.events
        invariant FeedOk(at, cp, fetched, readAt, sharp) && (still ==> Promised(at, cp, readAt))
      {
        var round := rounds[|reports|];
        NextScheduled(at, rounds, |reports|);
        var rep;
        ghost var turn;
        rep, turn := IngestRound(round, at, sharp);
        OneMoreTurn(rounds, reports, turns, rep, turn);
        sharp, still := sharp && (Finished(turn) ==> Sharp(turn.view, turn.horizon)), still && (Finished(turn) ==> Still(turn.view, turn.horizon));
        at, reports, turns := Last(round), reports + [rep], turns + [turn];
      }
    }
  }
}
