/**
 * Undoing contract adjustments: what each counter-adjustment of a revert plan finds when the plan's rows are undone in
 * order, and what it leaves on its line.
 */
module Adjustments {
  import opened Base
  import opened ChangePlans
  import opened Reverts

  /** An adjustment changes a contract line's units from a day on. */
  datatype Adjustment = Adjustment(entity: string, line: int, day: int, change: int)

  predicate Adjusts(r: Row) {
    LineField(r.entity).Some? && LineOf(r).Some? && DayOf(After(r)).Some?
  }

  function AdjustmentOf(r: Row): Adjustment
    requires Adjusts(r)
  {
    Adjustment(r.entity, LineOf(r).value, DayOf(After(r)).value, ValueOr(NumOf(Get(After(r), "unitChange")), 0))
  }

  /** A line on a day. */
  datatype Spot = Spot(entity: string, line: int, day: int)

  /** The units an adjustment adds to a line on a day. */
  function Effect(a: Adjustment, s: Spot): int {
    if a.entity == s.entity && a.line == s.line && a.day <= s.day then a.change else 0
  }

  /** The same units taken back, from the counter's own day on. */
  function CounterOf(a: Adjustment, effective: int): Adjustment {
    Adjustment(a.entity, a.line, Max(a.day, effective), -a.change)
  }

  /** What an adjustment and its counter leave: its change, on the days it was in effect before the counter was. */
  function Residue(a: Adjustment, effective: int, s: Spot): int {
    if a.entity == s.entity && a.line == s.line && a.day <= s.day < Max(a.day, effective) then a.change else 0
  }

  /** The units the plan saw on the line (none when it kept no before-image). */
  function Image(r: Row): int { ValueOr(NumOf(Get(BeforeOf(r), "units")), 0) }

  /** An applied adjustment whose line is known: it has a counter. */
  predicate Adjusted(r: Row) { r.status == Applied && Adjusts(r) }

  /** A row whose adjustment the revert counters. */
  predicate Countered(plan: seq<Row>, rowNos: seq<int>, i: nat) { i < |plan| && Adjusted(plan[i]) && Selected(i, rowNos) }

  /** Autotask creates no adjustment without its effective date. */
  predicate Dated(plan: seq<Row>) {
    forall i | 0 <= i < |plan| && plan[i].status == Applied && LineField(plan[i].entity).Some? :: DayOf(After(plan[i])).Some?
  }

  lemma {:induction false} CounterFields(r: Row, effective: int)
    requires Adjusted(r)
    ensures var c := Counter(r, LineOf(r).value, effective);
            && Adjusts(c) && AdjustmentOf(c) == CounterOf(AdjustmentOf(r), effective)
  {
    var c := Counter(r, LineOf(r).value, effective);
    assert After(c)[LineField(r.entity).value] == Num(LineOf(r).value);
    assert After(c)["effectiveDate"] == Day(CounterDay(r, effective));
    assert Get(After(c), "unitChange").Num?;
  }

  /** The revert row of an applied adjustment is its counter, and what it expects the day before. */
  lemma {:induction false} CounterIs(r: Row, effective: int)
    requires Adjusted(r)
    ensures RevertOf(r, effective).Some? && Adjusts(RevertOf(r, effective).value)
    ensures var c := RevertOf(r, effective).value;
            && AdjustmentOf(c) == CounterOf(AdjustmentOf(r), effective)
            && c.action == Create && c.before.Some? && "units" in c.before.value
            && c.before.value["units"] == Num(Image(r) + Effect(AdjustmentOf(r), DayBefore(AdjustmentOf(c))))
            && (forall k | k in c.before.value && k != "units" :: c.before.value[k].Num?)
  {
    CounterFields(r, effective);
  }

  /** Where an adjustment's line is looked at before it is made, and after. */
  function DayBefore(a: Adjustment): Spot { Spot(a.entity, a.line, a.day - 1) }

  function OnDay(a: Adjustment): Spot { Spot(a.entity, a.line, a.day) }

  // ---------------------------------------------------------------- the lines' units

  /** The units of every line on every day, and the adjustments made since. */
  type Units = Spot -> int

  datatype Book = Book(base: Units, since: seq<Adjustment>)

  function Total(adjs: seq<Adjustment>, s: Spot): int {
    if adjs == [] then 0 else Total(adjs[..|adjs| - 1], s) + Effect(adjs[|adjs| - 1], s)
  }

  function Shown(b: Book, s: Spot): int { b.base(s) + Total(b.since, s) }

  function With(b: Book, a: Adjustment): Book { Book(b.base, b.since + [a]) }

  lemma {:induction false} ShownWith(b: Book, a: Adjustment, s: Spot)
    ensures Shown(With(b, a), s) == Shown(b, s) + Effect(a, s)
  {
    assert (b.since + [a])[..|b.since|] == b.since;
  }

  /** The adjustments a plan made. */
  function Made(plan: seq<Row>): seq<Adjustment> {
    if plan == [] then []
    else Made(plan[..|plan| - 1]) + if Adjusted(plan[|plan| - 1]) then [AdjustmentOf(plan[|plan| - 1])] else []
  }

  function EffectOf(r: Row, s: Spot): int { if Adjusted(r) then Effect(AdjustmentOf(r), s) else 0 }

  /** What one row leaves after the revert: its whole change when it is not countered. */
  function ResidueOf(plan: seq<Row>, rowNos: seq<int>, i: nat, effective: int, s: Spot): int
    requires i < |plan|
  {
    if Countered(plan, rowNos, i) then Residue(AdjustmentOf(plan[i]), effective, s) else EffectOf(plan[i], s)
  }

  /** What the first i rows of a plan add. */
  function Earlier(plan: seq<Row>, i: nat, s: Spot): int
    requires i <= |plan|
  {
    if i == 0 then 0 else Earlier(plan, i - 1, s) + EffectOf(plan[i - 1], s)
  }

  /** What the rows from i on leave once those selected among them are undone. */
  function Left(plan: seq<Row>, rowNos: seq<int>, i: nat, effective: int, s: Spot): int
    requires i <= |plan|
    decreases |plan| - i
  {
    if i == |plan| then 0 else ResidueOf(plan, rowNos, i, effective, s) + Left(plan, rowNos, i + 1, effective, s)
  }

  lemma {:induction false} EarlierFront(plan: seq<Row>, i: nat, s: Spot)
    requires i < |plan|
    ensures Earlier(plan[..|plan| - 1], i, s) == Earlier(plan, i, s)
  {
    if i > 0 { EarlierFront(plan, i - 1, s); }
  }

  lemma {:induction false} MadeTotal(plan: seq<Row>, s: Spot)
    ensures Total(Made(plan), s) == Earlier(plan, |plan|, s)
    decreases |plan|
  {
    if plan != [] {
      var front, r := plan[..|plan| - 1], plan[|plan| - 1];
      MadeTotal(front, s);
      EarlierFront(plan, |plan| - 1, s);
      if Adjusted(r) { assert Made(plan)[..|Made(plan)| - 1] == Made(front); } else { assert Made(plan) == Made(front); }
    }
  }

  /** The lines show the same with row i on either side. */
  ghost predicate Level(plan: seq<Row>, rowNos: seq<int>, i: nat, effective: int, s: Spot) {
    && i < |plan|
    && Earlier(plan, i + 1, s) + Left(plan, rowNos, i + 1, effective, s) == Earlier(plan, i, s) + Left(plan, rowNos, i, effective, s)
  }

  lemma {:induction false} LevelAt(plan: seq<Row>, rowNos: seq<int>, i: nat, effective: int, s: Spot)
    requires i < |plan| && !Countered(plan, rowNos, i)
    ensures Level(plan, rowNos, i, effective, s)
  {
  }

  lemma {:induction false} LevelAcross(plan: seq<Row>, rowNos: seq<int>, low: nat, high: nat, effective: int, s: Spot)
    requires low <= high <= |plan| && forall i: nat | low <= i < high :: Level(plan, rowNos, i, effective, s)
    ensures Earlier(plan, high, s) + Left(plan, rowNos, high, effective, s) == Earlier(plan, low, s) + Left(plan, rowNos, low, effective, s)
    decreases high - low
  {
    if low < high {
      LevelAcross(plan, rowNos, low, high - 1, effective, s);
      assert Level(plan, rowNos, high - 1, effective, s);
    }
  }

  /** Rows that are not countered leave what they added. */
  lemma {:induction false} NothingBetween(plan: seq<Row>, rowNos: seq<int>, low: nat, high: nat, effective: int, s: Spot)
    requires low <= high <= |plan| && forall i | low <= i < high :: !Countered(plan, rowNos, i)
    ensures Earlier(plan, high, s) + Left(plan, rowNos, high, effective, s) == Earlier(plan, low, s) + Left(plan, rowNos, low, effective, s)
  {
    forall i: nat | low <= i < high ensures Level(plan, rowNos, i, effective, s) { LevelAt(plan, rowNos, i, effective, s); }
    LevelAcross(plan, rowNos, low, high, effective, s);
  }

  // ---------------------------------------------------------------- one counter's turn

  /** The create of an adjustment answers no id. */
  const NO_ID: int := 0

  /**
   * What Autotask answers to counter `back` of row `r` when nobody interferes: the line the day before, whether it
   * already shows the units restored (`priced`: the price, or the lack of a change, does not say otherwise), and what
   * it shows once the counter is in. Prices the day before are as the counter expects.
   */
  function Answers(b: Book, r: Row, back: Row, priced: bool): Replies
    requires Adjusts(back) && back.before.Some?
  {
    var a := AdjustmentOf(back);
    Replies(Some(Ok(Some(back.before.value["units" := Num(Shown(b, DayBefore(a)))]))),
            Ok(if priced && Shown(b, OnDay(a)) == Image(r) then Some(a.line) else None),
            Ok(NO_ID),
            Some(Ok(Some(Seen(map["units" := Num(Shown(With(b, a), OnDay(a)))], map["units" := Num(Image(r))], Some(a.line))))),
            Ok(None), Ok(()), Ok(None))
  }

  /** Row j of a revert plan, tried. */
  function Turn(b: Book, r: Row, back: Row, priced: bool, j: nat): Outcome
    requires Adjusts(back) && back.before.Some?
  {
    RunRow(j, back, Answers(b, r, back, priced))
  }

  /** A revert row as the builder makes it, or approved, or with its dependencies. */
  predicate IsCounter(back: Row, r: Row, effective: int) {
    RevertOf(r, effective).Some? && back == RevertOf(r, effective).value.(deps := back.deps, status := back.status)
  }

  /** A create row with every question answered. */
  lemma {:induction false} CreateTurn(back: Row, x: Replies, snap: Fields, record: Fields, want: Fields, line: int, j: nat)
    requires back.action == Create && back.before.Some? && x.snapshot == Some(Ok(Some(snap))) && x.existing.Ok? && x.create == Ok(NO_ID)
    requires x.readBack == Some(Ok(Some(Seen(record, want, Some(line)))))
    ensures Fresh(back, x) <==> Reads(snap, back.before.value)
    ensures var o := RunRow(j, back, x);
            && o.status == (if !Reads(snap, back.before.value) then Stale
                            else if x.existing.value.Some? then Skipped
                            else if Reads(record, want) then Applied else Failed)
            && (o.write.Some? <==> o.status == Applied || o.status == Failed)
            && !o.stop && (o.status == Applied ==> o.result.id == Some(NO_ID))
  {
  }

  lemma {:induction false} ReadsUnits(before: Fields, n: int, m: int)
    requires "units" in before && before["units"] == Num(m) && forall k | k in before && k != "units" :: before[k].Num?
    ensures Reads(before["units" := Num(n)], before) <==> n == m
  {
    assert Reads(before["units" := Num(n)], before) ==> Same(Get(before["units" := Num(n)], "units"), before["units"]);
  }

  lemma {:induction false} ReadsOne(n: int, m: int)
    ensures var record: Fields, want: Fields := map["units" := Num(n)], map["units" := Num(m)]; Reads(record, want) <==> n == m
  {
    ReadsUnits(map["units" := Num(m)], n, m);
    var want: Fields := map["units" := Num(m)];
    assert want["units" := Num(n)] == map["units" := Num(n)];
  }

  /** What a counter is: a create row for the same units taken back, expecting the image and the row's own effect the day before. */
  ghost predicate CounterFor(back: Row, r: Row, effective: int) {
    && Adjusted(r) && back.action == Create && Adjusts(back) && AdjustmentOf(back) == CounterOf(AdjustmentOf(r), effective)
    && back.before.Some? && "units" in back.before.value && (forall k | k in back.before.value && k != "units" :: back.before.value[k].Num?)
    && back.before.value["units"] == Num(Image(r) + Effect(AdjustmentOf(r), DayBefore(AdjustmentOf(back))))
  }

  lemma {:induction false} CounterRow(back: Row, r: Row, effective: int)
    requires Adjusted(r) && IsCounter(back, r, effective)
    ensures CounterFor(back, r, effective)
  {
    CounterIs(r, effective);
    var c := RevertOf(r, effective).value;
    assert After(back) == After(c) && LineOf(back) == LineOf(c);
  }

  /** How a counter's turn ends, from what its line shows. */
  lemma {:induction false} TurnIs(b: Book, r: Row, back: Row, effective: int, priced: bool, j: nat)
    requires CounterFor(back, r, effective)
    ensures var a, before, day := AdjustmentOf(r), DayBefore(AdjustmentOf(back)), OnDay(AdjustmentOf(back));
            var o := Turn(b, r, back, priced, j);
            && (Fresh(back, Answers(b, r, back, priced)) <==> Shown(b, before) == Image(r) + Effect(a, before))
            && o.status == (if Shown(b, before) != Image(r) + Effect(a, before) then Stale
                            else if priced && Shown(b, day) == Image(r) then Skipped
                            else if Shown(b, day) - a.change == Image(r) then Applied else Failed)
            && (o.write.Some? <==> o.status == Applied || o.status == Failed)
            && !o.stop && (o.status == Applied ==> o.result.id == Some(NO_ID))
  {
    var a, before := AdjustmentOf(back), back.before.value;
    ShownWith(b, a, OnDay(a));
    ReadsUnits(before, Shown(b, DayBefore(a)), Image(r) + Effect(AdjustmentOf(r), DayBefore(a)));
    ReadsOne(Shown(With(b, a), OnDay(a)), Image(r));
    CreateTurn(back, Answers(b, r, back, priced), before["units" := Num(Shown(b, DayBefore(a)))],
               map["units" := Num(Shown(With(b, a), OnDay(a)))], map["units" := Num(Image(r))], a.line, j);
  }

  // ---------------------------------------------------------------- a plan's counters, in order

  /** What the plan's other rows add at row i's counter's turn: the earlier rows' changes, and what undoing the later ones leaves. */
  function Others(plan: seq<Row>, rowNos: seq<int>, i: nat, effective: int, s: Spot): int
    requires i < |plan|
  {
    Earlier(plan, i, s) + Left(plan, rowNos, i + 1, effective, s)
  }

  function CounterAt(plan: seq<Row>, i: nat, effective: int): Adjustment
    requires i < |plan| && Adjusted(plan[i])
  {
    CounterOf(AdjustmentOf(plan[i]), effective)
  }

  /** The before-image of row i is its line's units the day before its counter, the plan's other rows included. */
  predicate Fits(plan: seq<Row>, rowNos: seq<int>, i: nat, effective: int, base: Units)
    requires i < |plan| && Adjusted(plan[i])
  {
    var s := DayBefore(CounterAt(plan, i, effective));
    Image(plan[i]) == base(s) + Others(plan, rowNos, i, effective, s)
  }

  /** The line shows the restored units by itself on the counter's day. */
  predicate Already(plan: seq<Row>, rowNos: seq<int>, i: nat, effective: int, base: Units, priced: bool)
    requires i < |plan| && Adjusted(plan[i])
  {
    var s := OnDay(CounterAt(plan, i, effective));
    priced && Image(plan[i]) == base(s) + Others(plan, rowNos, i, effective, s) + AdjustmentOf(plan[i]).change
  }

  /** The line's units on the counter's day, but for the row, are those the plan saw. */
  predicate ReadsBack(plan: seq<Row>, rowNos: seq<int>, i: nat, effective: int, base: Units)
    requires i < |plan| && Adjusted(plan[i])
  {
    var s := OnDay(CounterAt(plan, i, effective));
    Image(plan[i]) == base(s) + Others(plan, rowNos, i, effective, s)
  }

  /** Row j of the revert plan is a counter, and it was created. */
  predicate Sent(plan: seq<Row>, rows: seq<Row>, from: seq<nat>, priced: seq<bool>, b: Book, j: nat)
    requires j < |rows| == |from| && from[j] < |plan| == |priced|
  {
    Adjusts(rows[j]) && rows[j].before.Some? && Turn(b, plan[from[j]], rows[j], priced[from[j]], j).write.Some?
  }

  /** The lines after row j of the revert plan was tried. */
  function Tried(plan: seq<Row>, rows: seq<Row>, from: seq<nat>, priced: seq<bool>, b: Book, j: nat): Book
    requires j < |rows| == |from| && from[j] < |plan| == |priced|
  {
    if Sent(plan, rows, from, priced, b, j) then With(b, AdjustmentOf(rows[j])) else b
  }

  /** The lines over a revert run: its rows are tried in order, nobody interferes. */
  ghost predicate Countering(plan: seq<Row>, rowNos: seq<int>, effective: int, rows: seq<Row>, from: seq<nat>, priced: seq<bool>, base: Units, books: seq<Book>) {
    && Dated(plan) && Undoes(UndoRows(plan, effective), rowNos, 0, rows, from)
    && |priced| == |plan| && |books| == |rows| + 1 && books[0] == Book(base, Made(plan))
    && forall j | 0 <= j < |rows| ::
         books[j + 1] == Tried(plan, rows, from, priced, books[j], j)
  }

  /** The lines over the first j rows of a run. */
  ghost function Played(plan: seq<Row>, rows: seq<Row>, from: seq<nat>, priced: seq<bool>, base: Units, j: nat): (books: seq<Book>)
    requires j <= |rows| == |from| && |priced| == |plan| && forall k | 0 <= k < |from| :: from[k] < |plan|
    ensures |books| == j + 1
  {
    if j == 0 then [Book(base, Made(plan))]
    else
      var front := Played(plan, rows, from, priced, base, j - 1);
      front + [Tried(plan, rows, from, priced, front[j - 1], j - 1)]
  }

  lemma {:induction false} PlayedSteps(plan: seq<Row>, rows: seq<Row>, from: seq<nat>, priced: seq<bool>, base: Units, j: nat)
    requires j <= |rows| == |from| && |priced| == |plan| && forall k | 0 <= k < |from| :: from[k] < |plan|
    ensures var books := Played(plan, rows, from, priced, base, j);
            books[0] == Book(base, Made(plan)) && forall k | 0 <= k < j :: books[k + 1] == Tried(plan, rows, from, priced, books[k], k)
  {
    if j > 0 {
      PlayedSteps(plan, rows, from, priced, base, j - 1);
      assert Played(plan, rows, from, priced, base, j)[..j] == Played(plan, rows, from, priced, base, j - 1);
    }
  }

  /** Every revert plan has its run. */
  lemma {:induction false} RunExists(plan: seq<Row>, rowNos: seq<int>, effective: int, rows: seq<Row>, from: seq<nat>, priced: seq<bool>, base: Units)
    requires Dated(plan) && Undoes(UndoRows(plan, effective), rowNos, 0, rows, from) && |priced| == |plan|
    ensures exists books :: Countering(plan, rowNos, effective, rows, from, priced, base, books)
  {
    PlayedSteps(plan, rows, from, priced, base, |rows|);
    assert Countering(plan, rowNos, effective, rows, from, priced, base, Played(plan, rows, from, priced, base, |rows|));
  }

  /** The counters among the revert rows are those of the adjusted rows. */
  lemma {:induction false} CounterRows(plan: seq<Row>, rowNos: seq<int>, effective: int, rows: seq<Row>, from: seq<nat>, j: nat)
    requires Dated(plan) && Undoes(UndoRows(plan, effective), rowNos, 0, rows, from) && j < |rows|
    ensures from[j] < |plan| && plan[from[j]].status == Applied && IsCounter(rows[j], plan[from[j]], effective)
    ensures Adjusts(rows[j]) <==> Adjusted(plan[from[j]])
    ensures Selected(from[j], rowNos)
  {
    var r := plan[from[j]];
    assert UndoRows(plan, effective)[from[j]] == RevertOf(r, effective);
    if Adjusted(r) { CounterIs(r, effective); }
  }

  /** Every countered row is undone by some revert row. */
  lemma {:induction false} HasCounter(plan: seq<Row>, rowNos: seq<int>, effective: int, rows: seq<Row>, from: seq<nat>, i: nat) returns (j: nat)
    requires Dated(plan) && Undoes(UndoRows(plan, effective), rowNos, 0, rows, from) && Countered(plan, rowNos, i)
    ensures j < |rows| && from[j] == i && Adjusts(rows[j])
  {
    CounterIs(plan[i], effective);
    assert UndoRows(plan, effective)[i] == RevertOf(plan[i], effective);
    assert Selected(i, rowNos) && i in from;
    j :| 0 <= j < |from| && from[j] == i;
    CounterRows(plan, rowNos, effective, rows, from, j);
  }

  ghost predicate SentAt(plan: seq<Row>, rows: seq<Row>, from: seq<nat>, priced: seq<bool>, books: seq<Book>, j: nat) {
    && j < |rows| == |from| && j < |books| && from[j] < |plan| == |priced|
    && (Adjusts(rows[j]) ==> Sent(plan, rows, from, priced, books[j], j))
  }

  /** Counters before j were all created. */
  ghost predicate SentUpTo(plan: seq<Row>, rows: seq<Row>, from: seq<nat>, priced: seq<bool>, books: seq<Book>, j: nat) {
    forall k | 0 <= k < j :: SentAt(plan, rows, from, priced, books, k)
  }

  lemma {:induction false} SentPrefix(plan: seq<Row>, rows: seq<Row>, from: seq<nat>, priced: seq<bool>, books: seq<Book>, j: nat, n: nat)
    requires SentUpTo(plan, rows, from, priced, books, n) && j <= n
    ensures SentUpTo(plan, rows, from, priced, books, j)
  {
  }

  /** No countered row lies between the one undone last and the next. */
  lemma {:induction false} NoneSkipped(plan: seq<Row>, rowNos: seq<int>, effective: int, rows: seq<Row>, from: seq<nat>, j: nat, i: nat)
    requires Dated(plan) && Undoes(UndoRows(plan, effective), rowNos, 0, rows, from) && j <= |rows| && i < |plan|
    requires Front(rows, from, j) <= i && (j == 0 || i < from[j - 1])
    ensures !Countered(plan, rowNos, i)
  {
    if Countered(plan, rowNos, i) {
      CounterIs(plan[i], effective);
      NoneBetween(UndoRows(plan, effective), rowNos, rows, from, j, i);
    }
  }

  /** Nothing countered between the row undone last and the next. */
  ghost predicate Gapped(plan: seq<Row>, rowNos: seq<int>, rows: seq<Row>, from: seq<nat>, j: nat) {
    && j <= |rows| == |from|
    && var low, high := Front(rows, from, j), if j == 0 then |plan| else from[j - 1];
       low <= high <= |plan| && forall i | low <= i < high :: !Countered(plan, rowNos, i)
  }

  lemma {:induction false} GappedIs(plan: seq<Row>, rowNos: seq<int>, effective: int, rows: seq<Row>, from: seq<nat>, j: nat)
    requires Dated(plan) && Undoes(UndoRows(plan, effective), rowNos, 0, rows, from) && j <= |rows|
    ensures Gapped(plan, rowNos, rows, from, j)
  {
    var low, high := Front(rows, from, j), if j == 0 then |plan| else from[j - 1];
    assert j > 0 && j < |rows| ==> from[j - 1] > from[j];
    forall i | low <= i < high ensures !Countered(plan, rowNos, i) { NoneSkipped(plan, rowNos, effective, rows, from, j, i); }
  }

  /** What row j's turn adds to every line. */
  ghost predicate Adds(plan: seq<Row>, effective: int, from: seq<nat>, books: seq<Book>, j: nat) {
    && j < |from| && j + 1 < |books| && from[j] < |plan| && books[j + 1].base == books[j].base
    && forall s :: Shown(books[j + 1], s) == Shown(books[j], s) + if Adjusted(plan[from[j]]) then Effect(CounterAt(plan, from[j], effective), s) else 0
  }

  lemma {:induction false} TurnAdds(plan: seq<Row>, rowNos: seq<int>, effective: int, rows: seq<Row>, from: seq<nat>, priced: seq<bool>, base: Units, books: seq<Book>, j: nat)
    requires Countering(plan, rowNos, effective, rows, from, priced, base, books) && SentAt(plan, rows, from, priced, books, j)
    ensures Adds(plan, effective, from, books, j)
  {
    CounterRows(plan, rowNos, effective, rows, from, j);
    if Adjusted(plan[from[j]]) {
      CounterRow(rows[j], plan[from[j]], effective);
      forall s ensures Shown(books[j + 1], s) == Shown(books[j], s) + Effect(CounterAt(plan, from[j], effective), s) {
        ShownWith(books[j], AdjustmentOf(rows[j]), s);
      }
    }
  }

  /** Undoing a row turns its change into its residue. */
  lemma {:induction false} UndoneAt(plan: seq<Row>, rowNos: seq<int>, at: nat, effective: int, s: Spot)
    requires at < |plan| && Selected(at, rowNos)
    ensures Earlier(plan, at + 1, s) + Left(plan, rowNos, at + 1, effective, s) + (if Adjusted(plan[at]) then Effect(CounterAt(plan, at, effective), s) else 0)
         == Earlier(plan, at, s) + Left(plan, rowNos, at, effective, s)
  {
  }

  /** What a line shows over the rows that are not undone yet, the later ones being undone. */
  ghost predicate LineAt(plan: seq<Row>, rowNos: seq<int>, effective: int, base: Units, b: Book, low: nat, s: Spot) {
    low <= |plan| && Shown(b, s) == base(s) + Earlier(plan, low, s) + Left(plan, rowNos, low, effective, s)
  }

  /** One row's turn, and the rows passed over after it. */
  lemma {:induction false} LineStep(plan: seq<Row>, rowNos: seq<int>, effective: int, from: seq<nat>, base: Units, books: seq<Book>, j: nat, low: nat, s: Spot)
    requires Adds(plan, effective, from, books, j) && Selected(from[j], rowNos) && LineAt(plan, rowNos, effective, base, books[j], from[j] + 1, s)
    requires low <= from[j] && forall i | low <= i < from[j] :: !Countered(plan, rowNos, i)
    ensures LineAt(plan, rowNos, effective, base, books[j + 1], low, s)
  {
    UndoneAt(plan, rowNos, from[j], effective, s);
    NothingBetween(plan, rowNos, low, from[j], effective, s);
  }

  lemma {:induction false} LinesFrom(plan: seq<Row>, rowNos: seq<int>, effective: int, rows: seq<Row>, from: seq<nat>, base: Units, books: seq<Book>, j: nat, s: Spot)
    requires j <= |rows| == |from| && |books| == |rows| + 1 && books[0] == Book(base, Made(plan))
    requires forall k | 0 <= k < |from| :: Selected(from[k], rowNos)
    requires forall k | 0 <= k <= j :: Gapped(plan, rowNos, rows, from, k)
    requires forall k | 0 <= k < j :: Adds(plan, effective, from, books, k)
    ensures LineAt(plan, rowNos, effective, base, books[j], Front(rows, from, j), s)
    decreases j
  {
    assert Gapped(plan, rowNos, rows, from, j);
    if j == 0 {
      MadeTotal(plan, s);
      NothingBetween(plan, rowNos, Front(rows, from, 0), |plan|, effective, s);
    } else {
      LinesFrom(plan, rowNos, effective, rows, from, base, books, j - 1, s);
      assert Adds(plan, effective, from, books, j - 1);
      LineStep(plan, rowNos, effective, from, base, books, j - 1, Front(rows, from, j), s);
    }
  }

  /** While every counter is created, each turn adds what it should. */
  lemma {:induction false} AllAdd(plan: seq<Row>, rowNos: seq<int>, effective: int, rows: seq<Row>, from: seq<nat>, priced: seq<bool>, base: Units, books: seq<Book>, j: nat)
    requires Countering(plan, rowNos, effective, rows, from, priced, base, books) && SentUpTo(plan, rows, from, priced, books, j) && j <= |rows|
    ensures forall k | 0 <= k <= j :: Gapped(plan, rowNos, rows, from, k)
    ensures forall k | 0 <= k < j :: Adds(plan, effective, from, books, k)
  {
    forall k | 0 <= k <= j ensures Gapped(plan, rowNos, rows, from, k) { GappedIs(plan, rowNos, effective, rows, from, k); }
    forall k | 0 <= k < j ensures Adds(plan, effective, from, books, k) {
      assert SentAt(plan, rows, from, priced, books, k);
      TurnAdds(plan, rowNos, effective, rows, from, priced, base, books, k);
    }
  }

  /** Then the lines show what the rows still in add, and what undoing the others left. */
  lemma {:induction false} LinesAt(plan: seq<Row>, rowNos: seq<int>, effective: int, rows: seq<Row>, from: seq<nat>, priced: seq<bool>, base: Units, books: seq<Book>, j: nat, s: Spot)
    requires Countering(plan, rowNos, effective, rows, from, priced, base, books) && SentUpTo(plan, rows, from, priced, books, j) && j <= |rows|
    ensures var low := Front(rows, from, j);
            low <= |plan| && Shown(books[j], s) == base(s) + Earlier(plan, low, s) + Left(plan, rowNos, low, effective, s)
  {
    AllAdd(plan, rowNos, effective, rows, from, priced, base, books, j);
    LinesFrom(plan, rowNos, effective, rows, from, base, books, j, s);
  }

  /** Every line shows its own units, what the plan's other rows add at row i's turn, and what row i added. */
  ghost predicate Shows(plan: seq<Row>, rowNos: seq<int>, effective: int, base: Units, b: Book, i: nat) {
    i < |plan| && forall s :: Shown(b, s) == base(s) + Others(plan, rowNos, i, effective, s) + EffectOf(plan[i], s)
  }

  lemma {:induction false} ShowsFrom(plan: seq<Row>, rowNos: seq<int>, effective: int, rows: seq<Row>, from: seq<nat>, base: Units, books: seq<Book>, j: nat)
    requires j < |rows| == |from| && from[j] < |plan| && |books| == |rows| + 1 && books[0] == Book(base, Made(plan))
    requires forall k | 0 <= k < |from| :: Selected(from[k], rowNos)
    requires forall k | 0 <= k <= j :: Gapped(plan, rowNos, rows, from, k)
    requires forall k | 0 <= k < j :: Adds(plan, effective, from, books, k)
    ensures Shows(plan, rowNos, effective, base, books[j], from[j])
  {
    forall s ensures Shown(books[j], s) == base(s) + Others(plan, rowNos, from[j], effective, s) + EffectOf(plan[from[j]], s) {
      LinesFrom(plan, rowNos, effective, rows, from, base, books, j, s);
    }
  }

  lemma {:induction false} LinesShow(plan: seq<Row>, rowNos: seq<int>, effective: int, rows: seq<Row>, from: seq<nat>, priced: seq<bool>, base: Units, books: seq<Book>, j: nat)
    requires Countering(plan, rowNos, effective, rows, from, priced, base, books) && SentUpTo(plan, rows, from, priced, books, j)
    requires j < |rows| && from[j] < |plan|
    ensures Shows(plan, rowNos, effective, base, books[j], from[j])
  {
    AllAdd(plan, rowNos, effective, rows, from, priced, base, books, j);
    ShowsFrom(plan, rowNos, effective, rows, from, base, books, j);
  }

  /** What its line shows at a counter's turn, the day before it and on its day. */
  lemma {:induction false} TurnSees(plan: seq<Row>, rowNos: seq<int>, effective: int, base: Units, b: Book, i: nat)
    requires Shows(plan, rowNos, effective, base, b, i) && Adjusted(plan[i])
    ensures var c := CounterAt(plan, i, effective);
            && Shown(b, DayBefore(c)) == base(DayBefore(c)) + Others(plan, rowNos, i, effective, DayBefore(c)) + Effect(AdjustmentOf(plan[i]), DayBefore(c))
            && Shown(b, OnDay(c)) == base(OnDay(c)) + Others(plan, rowNos, i, effective, OnDay(c)) + AdjustmentOf(plan[i]).change
  {
  }

  /** Row i's counter's turn: stale unless the image fits, and how it ends otherwise. */
  lemma {:induction false} TurnFits(plan: seq<Row>, rowNos: seq<int>, effective: int, base: Units, b: Book, i: nat, back: Row, priced: bool, j: nat)
    requires Shows(plan, rowNos, effective, base, b, i) && CounterFor(back, plan[i], effective)
    ensures Fresh(back, Answers(b, plan[i], back, priced)) <==> Fits(plan, rowNos, i, effective, base)
    ensures var o := Turn(b, plan[i], back, priced, j);
            && o.status == (if !Fits(plan, rowNos, i, effective, base) then Stale
                            else if Already(plan, rowNos, i, effective, base, priced) then Skipped
                            else if ReadsBack(plan, rowNos, i, effective, base) then Applied else Failed)
            && (o.write.Some? <==> Fits(plan, rowNos, i, effective, base) && !Already(plan, rowNos, i, effective, base, priced))
            && !o.stop && (o.status == Applied ==> o.result.id == Some(NO_ID))
  {
    TurnSees(plan, rowNos, effective, base, b, i);
    TurnIs(b, plan[i], back, effective, priced, j);
  }

  /** Counter j's turn, when those before it were created: stale unless the image fits, and how it ends otherwise. */
  lemma {:induction false} CounterTurn(plan: seq<Row>, rowNos: seq<int>, effective: int, rows: seq<Row>, from: seq<nat>, priced: seq<bool>, base: Units, books: seq<Book>, j: nat)
    requires Countering(plan, rowNos, effective, rows, from, priced, base, books) && SentUpTo(plan, rows, from, priced, books, j)
    requires j < |rows| && Adjusts(rows[j])
    ensures rows[j].before.Some? && from[j] < |plan| && Adjusted(plan[from[j]])
    ensures Fresh(rows[j], Answers(books[j], plan[from[j]], rows[j], priced[from[j]])) <==> Fits(plan, rowNos, from[j], effective, base)
    ensures var o, i := Turn(books[j], plan[from[j]], rows[j], priced[from[j]], j), from[j];
            && o.status == (if !Fits(plan, rowNos, i, effective, base) then Stale
                            else if Already(plan, rowNos, i, effective, base, priced[i]) then Skipped
                            else if ReadsBack(plan, rowNos, i, effective, base) then Applied else Failed)
            && !o.stop && (o.status == Applied ==> o.result.id == Some(NO_ID))
    ensures Sent(plan, rows, from, priced, books[j], j) <==>
              Fits(plan, rowNos, from[j], effective, base) && !Already(plan, rowNos, from[j], effective, base, priced[from[j]])
  {
    CounterRows(plan, rowNos, effective, rows, from, j);
    CounterRow(rows[j], plan[from[j]], effective);
    LinesShow(plan, rowNos, effective, rows, from, priced, base, books, j);
    TurnFits(plan, rowNos, effective, base, books[j], from[j], rows[j], priced[from[j]], j);
  }

  /** What every countered row must meet for its counter to be created. */
  ghost predicate AllFit(plan: seq<Row>, rowNos: seq<int>, effective: int, base: Units, priced: seq<bool>) {
    |priced| == |plan| && forall i: nat | Countered(plan, rowNos, i) ::
      Fits(plan, rowNos, i, effective, base) && !Already(plan, rowNos, i, effective, base, priced[i])
  }

  lemma {:induction false} NextSent(plan: seq<Row>, rowNos: seq<int>, effective: int, rows: seq<Row>, from: seq<nat>, priced: seq<bool>, base: Units, books: seq<Book>, j: nat)
    requires Countering(plan, rowNos, effective, rows, from, priced, base, books) && AllFit(plan, rowNos, effective, base, priced) && j < |rows|
    ensures SentUpTo(plan, rows, from, priced, books, j) ==> SentAt(plan, rows, from, priced, books, j)
  {
    CounterRows(plan, rowNos, effective, rows, from, j);
    if SentUpTo(plan, rows, from, priced, books, j) && Adjusts(rows[j]) { CounterTurn(plan, rowNos, effective, rows, from, priced, base, books, j); }
  }

  lemma {:induction false} OneByOne(plan: seq<Row>, rows: seq<Row>, from: seq<nat>, priced: seq<bool>, books: seq<Book>, n: nat)
    requires forall j: nat | j < n :: SentUpTo(plan, rows, from, priced, books, j) ==> SentAt(plan, rows, from, priced, books, j)
    ensures SentUpTo(plan, rows, from, priced, books, n)
  {
    if n > 0 {
      OneByOne(plan, rows, from, priced, books, n - 1);
    }
  }

  lemma {:induction false} FitSent(plan: seq<Row>, rowNos: seq<int>, effective: int, rows: seq<Row>, from: seq<nat>, priced: seq<bool>, base: Units, books: seq<Book>)
    requires Countering(plan, rowNos, effective, rows, from, priced, base, books) && AllFit(plan, rowNos, effective, base, priced)
    ensures SentUpTo(plan, rows, from, priced, books, |rows|)
  {
    forall j: nat | j < |rows| ensures SentUpTo(plan, rows, from, priced, books, j) ==> SentAt(plan, rows, from, priced, books, j) {
      NextSent(plan, rowNos, effective, rows, from, priced, base, books, j);
    }
    OneByOne(plan, rows, from, priced, books, |rows|);
  }

  /**
   * Undo of adjustments: with nobody interfering, every counter is created if and only if every undone row's image
   * fits and no line shows the restored units by itself.
   */
  lemma {:induction false} CountersRun(plan: seq<Row>, rowNos: seq<int>, effective: int, rows: seq<Row>, from: seq<nat>, priced: seq<bool>, base: Units, books: seq<Book>)
    requires Countering(plan, rowNos, effective, rows, from, priced, base, books)
    ensures SentUpTo(plan, rows, from, priced, books, |rows|) <==> AllFit(plan, rowNos, effective, base, priced)
  {
    if AllFit(plan, rowNos, effective, base, priced) {
      FitSent(plan, rowNos, effective, rows, from, priced, base, books);
    }
    if SentUpTo(plan, rows, from, priced, books, |rows|) {
      forall i: nat | Countered(plan, rowNos, i)
        ensures Fits(plan, rowNos, i, effective, base) && !Already(plan, rowNos, i, effective, base, priced[i])
      {
        var j := HasCounter(plan, rowNos, effective, rows, from, i);
        SentPrefix(plan, rows, from, priced, books, j, |rows|);
        assert SentAt(plan, rows, from, priced, books, j);
        CounterTurn(plan, rowNos, effective, rows, from, priced, base, books, j);
      }
    }
  }

  /** What the rows from i on that are not undone add. */
  function Kept(plan: seq<Row>, rowNos: seq<int>, i: nat, s: Spot): int
    requires i <= |plan|
    decreases |plan| - i
  {
    if i == |plan| then 0 else (if Selected(i, rowNos) then 0 else EffectOf(plan[i], s)) + Kept(plan, rowNos, i + 1, s)
  }

  /** The day from which a line's counters are all in. */
  ghost predicate CountersIn(plan: seq<Row>, rowNos: seq<int>, effective: int, s: Spot) {
    forall i: nat | Countered(plan, rowNos, i) && AdjustmentOf(plan[i]).entity == s.entity && AdjustmentOf(plan[i]).line == s.line ::
      s.day >= CounterAt(plan, i, effective).day
  }

  lemma {:induction false} CountersInLeaveKept(plan: seq<Row>, rowNos: seq<int>, i: nat, effective: int, s: Spot)
    requires i <= |plan| && CountersIn(plan, rowNos, effective, s)
    ensures Left(plan, rowNos, i, effective, s) == Kept(plan, rowNos, i, s)
    ensures rowNos == [] ==> Kept(plan, rowNos, i, s) == 0
    decreases |plan| - i
  {
    if i < |plan| { CountersInLeaveKept(plan, rowNos, i + 1, effective, s); }
  }

  /**
   * Then every line's units are, from the day its counters are in, as if the plan had made only the adjustments that are
   * not undone (as before the plan when all are), and before that off by the changes already in effect.
   */
  lemma {:induction false} UnitsRestored(plan: seq<Row>, rowNos: seq<int>, effective: int, rows: seq<Row>, from: seq<nat>, priced: seq<bool>, base: Units, books: seq<Book>, s: Spot)
    requires Countering(plan, rowNos, effective, rows, from, priced, base, books) && AllFit(plan, rowNos, effective, base, priced)
    ensures Shown(books[|rows|], s) == base(s) + Left(plan, rowNos, 0, effective, s)
    ensures CountersIn(plan, rowNos, effective, s) ==> Shown(books[|rows|], s) == base(s) + Kept(plan, rowNos, 0, s)
    ensures CountersIn(plan, rowNos, effective, s) && rowNos == [] ==> Shown(books[|rows|], s) == base(s)
  {
    CountersRun(plan, rowNos, effective, rows, from, priced, base, books);
    LinesAt(plan, rowNos, effective, rows, from, priced, base, books, |rows|, s);
    if CountersIn(plan, rowNos, effective, s) { CountersInLeaveKept(plan, rowNos, 0, effective, s); }
  }

  /** Every counter finds its line as it expects. */
  ghost predicate AllFresh(plan: seq<Row>, rows: seq<Row>, from: seq<nat>, priced: seq<bool>, books: seq<Book>) {
    |rows| == |from| <= |books| && |priced| == |plan| && forall j | 0 <= j < |rows| && Adjusts(rows[j]) ::
      from[j] < |plan| && rows[j].before.Some? && Fresh(rows[j], Answers(books[j], plan[from[j]], rows[j], priced[from[j]]))
  }

  lemma {:induction false} FreshSent(plan: seq<Row>, rowNos: seq<int>, effective: int, rows: seq<Row>, from: seq<nat>, priced: seq<bool>, base: Units, books: seq<Book>)
    requires Countering(plan, rowNos, effective, rows, from, priced, base, books) && AllFresh(plan, rows, from, priced, books)
    requires forall i: nat | Countered(plan, rowNos, i) :: !Already(plan, rowNos, i, effective, base, priced[i])
    ensures SentUpTo(plan, rows, from, priced, books, |rows|)
  {
    forall j: nat | j < |rows| ensures SentUpTo(plan, rows, from, priced, books, j) ==> SentAt(plan, rows, from, priced, books, j) {
      CounterRows(plan, rowNos, effective, rows, from, j);
      if SentUpTo(plan, rows, from, priced, books, j) && Adjusts(rows[j]) { CounterTurn(plan, rowNos, effective, rows, from, priced, base, books, j); }
    }
    OneByOne(plan, rows, from, priced, books, |rows|);
  }

  /** The stale check alone: where no line shows the restored units by itself, every counter is fresh if and only if every image fits. */
  lemma {:induction false} CountersFresh(plan: seq<Row>, rowNos: seq<int>, effective: int, rows: seq<Row>, from: seq<nat>, priced: seq<bool>, base: Units, books: seq<Book>)
    requires Countering(plan, rowNos, effective, rows, from, priced, base, books)
    requires forall i: nat | Countered(plan, rowNos, i) :: !Already(plan, rowNos, i, effective, base, priced[i])
    ensures AllFresh(plan, rows, from, priced, books) <==> forall i: nat | Countered(plan, rowNos, i) :: Fits(plan, rowNos, i, effective, base)
  {
    if AllFresh(plan, rows, from, priced, books) {
      FreshSent(plan, rowNos, effective, rows, from, priced, base, books);
      CountersRun(plan, rowNos, effective, rows, from, priced, base, books);
    }
    if forall i: nat | Countered(plan, rowNos, i) :: Fits(plan, rowNos, i, effective, base) {
      assert AllFit(plan, rowNos, effective, base, priced);
      FitSent(plan, rowNos, effective, rows, from, priced, base, books);
      forall j | 0 <= j < |rows| && Adjusts(rows[j])
        ensures from[j] < |plan| && rows[j].before.Some? && Fresh(rows[j], Answers(books[j], plan[from[j]], rows[j], priced[from[j]]))
      {
        SentPrefix(plan, rows, from, priced, books, j, |rows|);
        CounterTurn(plan, rowNos, effective, rows, from, priced, base, books, j);
      }
    }
  }

  /** Neither approval nor the id it answers changes how a counter's turn ends. */
  lemma {:induction false} ApprovedAlike(back: Row, x: Replies, id: int, j: nat)
    requires back.action == Create && back.target.None? && x.create.Ok? && RunRow(j, back, x).status == Applied
    ensures Succeeds(back.(status := Approved), RunRow(j, back.(status := Approved), x.(create := Ok(id))), NonZero(Some(id)))
  {
  }

  ghost predicate AllReadBack(plan: seq<Row>, rowNos: seq<int>, effective: int, base: Units) {
    forall i: nat | Countered(plan, rowNos, i) :: ReadsBack(plan, rowNos, i, effective, base)
  }

  /** What a counter met with nobody interfering, whatever id its create answers. */
  predicate Met(b: Book, r: Row, back: Row, priced: bool, x: Replies, id: Option<int>)
    requires Adjusts(back) && back.before.Some?
  {
    x.create.Ok? && x == Answers(b, r, back, priced).(create := x.create) && id == NonZero(Some(x.create.value))
  }

  lemma {:induction false} ApprovedTurn(plan: seq<Row>, rowNos: seq<int>, effective: int, rows: seq<Row>, from: seq<nat>, priced: seq<bool>, base: Units, books: seq<Book>, j: nat, x: Replies, id: Option<int>)
    requires Countering(plan, rowNos, effective, rows, from, priced, base, books) && AllFit(plan, rowNos, effective, base, priced) && AllReadBack(plan, rowNos, effective, base)
    requires j < |rows| && Adjusts(rows[j]) && rows[j].before.Some? && from[j] < |plan| && Met(books[j], plan[from[j]], rows[j], priced[from[j]], x, id)
    ensures var back := rows[j].(status := Approved);
            Runnable(back) && back.refs == map[] && Succeeds(back, RunRow(j, back, x), id)
  {
    CounterRows(plan, rowNos, effective, rows, from, j);
    FitSent(plan, rowNos, effective, rows, from, priced, base, books);
    SentPrefix(plan, rows, from, priced, books, j, |rows|);
    CounterTurn(plan, rowNos, effective, rows, from, priced, base, books, j);
    CounterRow(rows[j], plan[from[j]], effective);
    ApprovedAlike(rows[j], Answers(books[j], plan[from[j]], rows[j], priced[from[j]]), x.create.value, j);
  }

  /** Counters that also read back as planned: the executor finishes the revert plan. */
  lemma {:induction false} CountersRunSmoothly(plan: seq<Row>, rowNos: seq<int>, effective: int, rows: seq<Row>, from: seq<nat>, priced: seq<bool>, base: Units, books: seq<Book>, io: IO, ids: seq<Option<int>>)
    requires Countering(plan, rowNos, effective, rows, from, priced, base, books) && AllFit(plan, rowNos, effective, base, priced) && AllReadBack(plan, rowNos, effective, base)
    requires Backward(rows) && |io| == |rows| == |ids|
    requires forall j | 0 <= j < |rows| ::
               Adjusts(rows[j]) && rows[j].before.Some? && from[j] < |plan| && Met(books[j], plan[from[j]], rows[j], priced[from[j]], io[j], ids[j])
    ensures Smooth(Approve(rows), io, ids)
  {
    forall j | 0 <= j < |rows| ensures SmoothRow(Approve(rows), io, ids, j) {
      ApprovedTurn(plan, rowNos, effective, rows, from, priced, base, books, j, io[j], ids[j]);
    }
    ApprovedSmooth(rows, io, ids);
  }

  // ---------------------------------------------------------------- a plan of any rows

  /** The undo of a created service: a deactivation, its service still active. */
  predicate Retires(r: Row, back: Row, v: World) {
    && r.status == Applied && r.action == Create && r.entity == "Services" && back.target.Some?
    && KeyOf(back) in v && Get(v[KeyOf(back)], "isActive") == Flag(true)
  }

  lemma {:induction false} RetireSucceeds(r: Row, back: Row, effective: int, v: World, j: nat)
    requires Retires(r, back, v)
    requires RevertOf(r, effective).Some? && back == RevertOf(r, effective).value.(deps := back.deps, status := Approved)
    ensures Runnable(back) && back.refs == map[] && Succeeds(back, RunRow(j, back, Honest(v, back)), NonZero(back.target))
  {
    var cur := v[KeyOf(back)];
    assert After(back) == map["isActive" := Flag(false)];
    assert Reads(cur + After(back), After(back));
  }

  /**
   * What row j of a revert met with nobody interfering: a counter its line, an update the record as the revert had left
   * it, a deactivation an active service.
   */
  ghost predicate Undisturbed(plan: seq<Row>, rowNos: seq<int>, rows: seq<Row>, from: seq<nat>, priced: seq<bool>, books: seq<Book>, vs: seq<World>, io: IO, ids: seq<Option<int>>, j: nat) {
    && j < |rows| == |from| == |io| == |ids| && j < |books| && j < |vs| && from[j] < |plan| == |priced|
    && if Adjusts(rows[j]) then
         rows[j].before.Some? && Met(books[j], plan[from[j]], rows[j], priced[from[j]], io[j], ids[j])
       else
         && rows[j].target.Some? && ids[j] == NonZero(rows[j].target) && io[j] == Honest(vs[j], rows[j])
         && (Undoable(plan, rowNos, from[j]) || Retires(plan[from[j]], rows[j], vs[j]))
  }

  lemma {:induction false} OtherBackSucceeds(plan: seq<Row>, rowNos: seq<int>, effective: int, ws: seq<World>, rows: seq<Row>, from: seq<nat>, vs: seq<World>, j: nat)
    requires Story(plan, rowNos, effective, ws, rows, from, vs) && j < |rows| && rows[j].target.Some?
    requires Undoable(plan, rowNos, from[j]) || (from[j] < |plan| && Retires(plan[from[j]], rows[j], vs[j]))
    ensures var back := rows[j].(status := Approved);
            Runnable(back) && back.refs == map[] && Succeeds(back, RunRow(j, back, Honest(vs[j], rows[j])), NonZero(back.target))
  {
    var back := rows[j].(status := Approved);
    if Undoable(plan, rowNos, from[j]) {
      BackSucceeds(plan, rowNos, effective, ws, rows, from, vs, j, back);
    } else {
      RevertsPlain(plan, effective);
      assert UndoRows(plan, effective)[from[j]] == RevertOf(plan[from[j]], effective);
      assert Honest(vs[j], back) == Honest(vs[j], rows[j]) && KeyOf(back) == KeyOf(rows[j]);
      RetireSucceeds(plan[from[j]], back, effective, vs[j], j);
    }
  }

  /** Undo of updates, created services and adjustments together, approved: the executor finishes the revert plan. */
  lemma {:induction false} UndoRunsSmoothly(plan: seq<Row>, rowNos: seq<int>, effective: int, ws: seq<World>, rows: seq<Row>, from: seq<nat>, vs: seq<World>, priced: seq<bool>, base: Units, books: seq<Book>, io: IO, ids: seq<Option<int>>)
    requires Story(plan, rowNos, effective, ws, rows, from, vs) && Countering(plan, rowNos, effective, rows, from, priced, base, books)
    requires AllFit(plan, rowNos, effective, base, priced) && AllReadBack(plan, rowNos, effective, base)
    requires Backward(rows) && |io| == |rows| == |ids| && forall j | 0 <= j < |rows| :: Undisturbed(plan, rowNos, rows, from, priced, books, vs, io, ids, j)
    ensures Smooth(Approve(rows), io, ids)
  {
    forall j | 0 <= j < |rows| ensures SmoothRow(Approve(rows), io, ids, j) {
      assert Undisturbed(plan, rowNos, rows, from, priced, books, vs, io, ids, j);
      if Adjusts(rows[j]) {
        ApprovedTurn(plan, rowNos, effective, rows, from, priced, base, books, j, io[j], ids[j]);
      } else {
        OtherBackSucceeds(plan, rowNos, effective, ws, rows, from, vs, j);
      }
    }
    ApprovedSmooth(rows, io, ids);
  }

  // ---------------------------------------------------------------- where it fails

  /** A plan row that added units to a line already in use kept no image: its counter is stale, whatever the revert date. */
  lemma {:induction false} TopUpStale(r: Row, back: Row, effective: int, priced: bool, j: nat, base: Units)
    requires Adjusted(r) && r.before.None? && IsCounter(back, r, effective)
    requires base(DayBefore(CounterOf(AdjustmentOf(r), effective))) != 0
    ensures Adjusts(back) && back.before.Some? && Turn(Book(base, Made([r])), r, back, priced, j).status == Stale
    ensures !Fits([r], [], 0, effective, base)
  {
    CounterRow(back, r, effective);
    TurnIs(Book(base, Made([r])), r, back, effective, priced, j);
    MadeTotal([r], DayBefore(AdjustmentOf(back)));
    assert Earlier([r], 0, DayBefore(AdjustmentOf(back))) == 0;
  }

  /** Two adjustments of one line, the second planned on the first. */
  predicate Stacked(a: Row, b: Row, u: int, effective: int) {
    && Adjusted(a) && Adjusted(b) && a.entity == b.entity && LineOf(a) == LineOf(b)
    && AdjustmentOf(a).day < AdjustmentOf(b).day < effective && AdjustmentOf(a).change != 0 && AdjustmentOf(b).change != 0
    && Image(a) == u && Image(b) == u + AdjustmentOf(a).change
  }

  lemma {:induction false} TwoDescending(from: seq<nat>, x: nat, y: nat)
    requires x < |from| && y < |from| && from[x] == 0 && from[y] == 1
    requires forall j | 0 <= j < |from| :: from[j] < 2
    requires forall j, k | 0 <= j < k < |from| :: from[j] > from[k]
    ensures from == [1, 0]
  {
    Descends(from, |from| - 1);
  }

  lemma {:induction false} Descends(from: seq<nat>, k: nat)
    requires k < |from| && forall i, j | 0 <= i < j < |from| :: from[i] > from[j]
    ensures from[0] >= from[k] + k
  {
    if k > 0 { Descends(from, k - 1); }
  }

  lemma {:induction false} StackedOrder(a: Row, b: Row, u: int, effective: int, rows: seq<Row>, from: seq<nat>)
    requires Stacked(a, b, u, effective) && Dated([a, b]) && Undoes(UndoRows([a, b], effective), [], 0, rows, from)
    ensures from == [1, 0] && |rows| == 2 && Adjusts(rows[0]) && Adjusts(rows[1])
  {
    var plan := [a, b];
    assert plan[0] == a && plan[1] == b;
    var x := HasCounter(plan, [], effective, rows, from, 0);
    var y := HasCounter(plan, [], effective, rows, from, 1);
    TwoDescending(from, x, y);
  }

  /** What the two add and leave on their line, from the day before the counters. */
  lemma {:induction false} StackedSums(a: Row, b: Row, u: int, effective: int, s: Spot)
    requires Stacked(a, b, u, effective) && s.entity == a.entity && Some(s.line) == LineOf(a) && s.day >= effective - 1
    ensures Earlier([a, b], 0, s) == 0 && Earlier([a, b], 1, s) == AdjustmentOf(a).change
    ensures Left([a, b], [], 2, effective, s) == 0 && Left([a, b], [], 1, effective, s) == if s.day < effective then AdjustmentOf(b).change else 0
  {
    var plan := [a, b];
    assert plan[0] == a && plan[1] == b;
    assert Left(plan, [], 1, effective, s) == ResidueOf(plan, [], 1, effective, s) + Left(plan, [], 2, effective, s);
    assert Earlier(plan, 1, s) == Earlier(plan, 0, s) + EffectOf(a, s);
  }

  /** The second row's image fits; the first row's does not, for the second was still in effect the day before. */
  lemma {:induction false} StackedFits(a: Row, b: Row, u: int, effective: int, base: Units, priced: bool)
    requires Stacked(a, b, u, effective) && forall s :: base(s) == u
    ensures Fits([a, b], [], 1, effective, base) && !Already([a, b], [], 1, effective, base, priced) && ReadsBack([a, b], [], 1, effective, base)
    ensures !Fits([a, b], [], 0, effective, base)
  {
    var plan := [a, b];
    assert plan[0] == a && plan[1] == b;
    StackedSums(a, b, u, effective, Spot(a.entity, LineOf(a).value, effective - 1));
    StackedSums(a, b, u, effective, Spot(a.entity, LineOf(a).value, effective));
    assert CounterAt(plan, 0, effective).day == effective && CounterAt(plan, 1, effective).day == effective;
  }

  /** Their second counter to run is stale: the line stays off by the first change. */
  lemma {:induction false} StackedStale(a: Row, b: Row, u: int, effective: int, rows: seq<Row>, from: seq<nat>, priced: seq<bool>, base: Units, books: seq<Book>, s: Spot)
    requires Stacked(a, b, u, effective) && (forall x :: base(x) == u) && Countering([a, b], [], effective, rows, from, priced, base, books)
    requires s.entity == a.entity && Some(s.line) == LineOf(a) && s.day >= effective
    ensures from == [1, 0] && |rows| == 2 && Adjusts(rows[0]) && rows[0].before.Some? && Adjusts(rows[1]) && rows[1].before.Some?
    ensures Turn(books[0], b, rows[0], priced[1], 0).status == Applied && Turn(books[1], a, rows[1], priced[0], 1).status == Stale
    ensures Shown(books[2], s) == u + AdjustmentOf(a).change
  {
    var plan := [a, b];
    assert plan[0] == a && plan[1] == b;
    StackedOrder(a, b, u, effective, rows, from);
    StackedFits(a, b, u, effective, base, priced[1]);
    FirstTurn(plan, [], effective, rows, from, priced, base, books);
    StaleTurn(plan, [], effective, rows, from, priced, base, books, 1, s);
    StackedSums(a, b, u, effective, s);
  }

  lemma {:induction false} FirstTurn(plan: seq<Row>, rowNos: seq<int>, effective: int, rows: seq<Row>, from: seq<nat>, priced: seq<bool>, base: Units, books: seq<Book>)
    requires Countering(plan, rowNos, effective, rows, from, priced, base, books)
    requires |rows| > 0 && from[0] < |plan| && Adjusts(rows[0]) && Adjusted(plan[from[0]])
    requires Fits(plan, rowNos, from[0], effective, base) && !Already(plan, rowNos, from[0], effective, base, priced[from[0]]) && ReadsBack(plan, rowNos, from[0], effective, base)
    ensures rows[0].before.Some? && Turn(books[0], plan[from[0]], rows[0], priced[from[0]], 0).status == Applied
    ensures SentUpTo(plan, rows, from, priced, books, 1)
  {
    CounterTurn(plan, rowNos, effective, rows, from, priced, base, books, 0);
    assert SentAt(plan, rows, from, priced, books, 0);
  }

  /** A stale counter leaves its line as it is. */
  lemma {:induction false} StaleTurn(plan: seq<Row>, rowNos: seq<int>, effective: int, rows: seq<Row>, from: seq<nat>, priced: seq<bool>, base: Units, books: seq<Book>, j: nat, s: Spot)
    requires Countering(plan, rowNos, effective, rows, from, priced, base, books) && SentUpTo(plan, rows, from, priced, books, j)
    requires j < |rows| && from[j] < |plan| && Adjusts(rows[j]) && Adjusted(plan[from[j]]) && !Fits(plan, rowNos, from[j], effective, base)
    ensures rows[j].before.Some? && Turn(books[j], plan[from[j]], rows[j], priced[from[j]], j).status == Stale
    ensures Shown(books[j + 1], s) == base(s) + Earlier(plan, from[j] + 1, s) + Left(plan, rowNos, from[j] + 1, effective, s)
  {
    CounterTurn(plan, rowNos, effective, rows, from, priced, base, books, j);
    LinesAt(plan, rowNos, effective, rows, from, priced, base, books, j, s);
  }
}
