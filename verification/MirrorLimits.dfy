/** How long an incremental walk may last: the two-minute overlap is exactly what it needs. */
module MirrorLimits {
  import opened Base
  import opened Autotask
  import opened ShadowStores
  import opened MirrorTheory

  const TABLE := Entity("Contracts", true, false, None, 0, false, true)

  predicate Within(id: nat, n: nat) { 1 <= id <= n }

  function Upto(n: nat): set<nat> { set id: nat | id <= n && Within(id, n) }

  lemma {:induction false} UptoSize(n: nat)
    ensures |Upto(n)| == n
  {
    if n == 0 {
      assert Upto(0) == {};
    } else {
      UptoSize(n - 1);
      assert Upto(n) == Upto(n - 1) + {n};
    }
  }

  function Stamp(data: string, stamp: nat): Row { Row(data, Some(stamp), None) }

  /** One row more than a page holds, all changed just now. */
  function Before(top: nat, t: nat): map<nat, Row> { map id | id in Upto(top) :: Stamp("old", t) }

  /** While the second page is on its way: row 1 changes at once, the last row `d` later. */
  function After(top: nat, t: nat, d: nat): map<nat, Row> {
    map id | id in Upto(top) :: if id == top then Stamp("new", t + d) else if id == 1 then Stamp("new", t) else Stamp("old", t)
  }

  function At(top: nat, clock: nat, rows: map<nat, Row>): Remote { Remote(clock, map[TABLE.name := Table(rows, top)]) }

  /** The walk's filter, its watermark being OVERLAP. */
  const DUE := ChangedFrom(TABLE, 0)

  /** All but the last of 1 .. n + 1 are the n smallest. */
  lemma AllButLast(n: nat, top: nat)
    requires top == n + 1
    ensures Smallest(Upto(top), n) == Upto(n)
  {
    var ids := Smallest(Upto(top), n);
    UptoSize(top);
    UptoSize(n);
    if Upto(top) <= ids { SubsetNoLarger(Upto(top), ids); }
    assert !(Upto(top) <= ids);
    var x :| x in Upto(top) && x !in ids;
    assert top in Upto(top) && top !in ids;
    assert ids <= Upto(n);
    if ids != Upto(n) { ProperSubsetSmaller(ids, Upto(n)); }
  }

  lemma AllDue(top: nat, t: nat)
    ensures Above(Before(top, t), DUE, 0) == Upto(top)
  {
  }

  lemma FirstPage(top: nat, t: nat)
    requires top == PAGE + 1
    ensures var page := PageOf(Before(top, t), DUE, 0);
            |page| == PAGE && CursorAfter(page, 0) == PAGE && 1 in page && forall id | id in page :: page[id] == Stamp("old", t)
  {
    var rows := Before(top, t);
    var page := PageOf(rows, DUE, 0);
    AllDue(top, t);
    AllButLast(PAGE, top);
    UptoSize(PAGE);
    assert page.Keys == Upto(PAGE);
    assert PAGE in Upto(PAGE) && 1 in Upto(PAGE);
  }

  lemma SecondPage(top: nat, t: nat, d: nat)
    requires top == PAGE + 1
    ensures PageOf(After(top, t, d), DUE, PAGE) == map[top := Stamp("new", t + d)]
  {
  }

  lemma OnlyStamp(page: map<nat, Row>, data: string, t: nat, base: nat)
    requires page != map[] && forall id | id in page :: page[id] == Stamp(data, t)
    ensures Newest(TABLE, page, base) == Max(base, t)
  {
    var id :| id in page;
    assert ModifiedAt(TABLE, page[id]) == Some(t);
  }

  /** The three moments of the run are a legal history of the table. */
  lemma ExampleRun(top: nat, t: nat, d: nat)
    ensures var a, b := At(top, t, Before(top, t)), At(top, t + d, After(top, t, d));
            Timeline([TABLE], [Call(a, true), Call(a, true), Call(b, true)])
  {
  }

  /** Nothing is mirrored yet, but every row is due. */
  lemma ExampleStart(top: nat, t: nat)
    requires t == OVERLAP
    ensures InSync(TABLE, At(top, t, Before(top, t)), map[], NEW_STATE.(watermark := Some(t), done := true), true)
  {
  }

  /** The walk's two pages, copied. */
  function Walk(top: nat, t: nat, d: nat): Mirror {
    var p1 := PageOf(Before(top, t), DUE, 0);
    Upserted(Upserted(map[], p1), PageOf(After(top, t, d), DUE, CursorAfter(p1, 0)))
  }

  /** The newest stamp on them, from a watermark of `t`. */
  function WalkNewest(top: nat, t: nat, d: nat): nat {
    var p1 := PageOf(Before(top, t), DUE, 0);
    Newest(TABLE, PageOf(After(top, t, d), DUE, CursorAfter(p1, 0)), Newest(TABLE, p1, t))
  }

  lemma SingleStamp(top: nat, data: string, t: nat, base: nat)
    ensures Newest(TABLE, map[top := Stamp(data, t)], base) == Max(base, t)
  {
  }

  /** The first page shows only old stamps, so the watermark it leaves is still `t`. */
  lemma FirstNewest(top: nat, t: nat)
    requires top == PAGE + 1
    ensures Newest(TABLE, PageOf(Before(top, t), DUE, 0), t) == t
  {
    FirstPage(top, t);
    OnlyStamp(PageOf(Before(top, t), DUE, 0), "old", t, t);
  }

  lemma ExampleWalk(top: nat, t: nat, d: nat)
    requires top == PAGE + 1
    ensures WalkNewest(top, t, d) == t + d
    ensures 1 in Walk(top, t, d) && Walk(top, t, d)[1] == Rec(Stamp("old", t), true)
  {
    FirstPage(top, t);
    SecondPage(top, t, d);
    FirstNewest(top, t);
    SingleStamp(top, "new", t + d, t);
  }

  /** Row 1 is neither mirrored as it is nor due to be read again. */
  lemma ExampleLost(top: nat, t: nat, d: nat, st: SyncState)
    requires top == PAGE + 1 && d > OVERLAP && st.done && st.watermark == Some(t + d)
    ensures !NoLostUpdate(TABLE, After(top, t, d), Walk(top, t, d), st)
  {
    ExampleWalk(top, t, d);
    assert 1 in Upto(top);
    var row := After(top, t, d)[1];
    assert row == Stamp("new", t);
    assert InWindow(TABLE, st.windowFrom, row);
    assert !Mirrored(Walk(top, t, d), 1, row);
    assert !Due(TABLE, st, row);
  }

  /**
   * Any walk longer than the overlap can lose an update: a legal run of three moments, in step at its start and
   * read whole in two pages.
   */
  lemma LongWalkLosesAnUpdate(top: nat, t: nat, d: nat)
    requires d > OVERLAP == t && top == PAGE + 1
    ensures var a, b := At(top, t, Before(top, t)), At(top, t + d, After(top, t, d));
            && b.clock == a.clock + d
            && Timeline([TABLE], [Call(a, true), Call(a, true), Call(b, true)])
    ensures InSync(TABLE, At(top, t, Before(top, t)), map[], NEW_STATE.(watermark := Some(t), done := true), true)
    ensures !NoLostUpdate(TABLE, After(top, t, d), Walk(top, t, d), NEW_STATE.(watermark := Some(WalkNewest(top, t, d)), done := true))
  {
    ExampleRun(top, t, d);
    ExampleStart(top, t);
    ExampleWalk(top, t, d);
    ExampleLost(top, t, d, NEW_STATE.(watermark := Some(t + d), done := true));
  }
}
