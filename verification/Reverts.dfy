/** Undoing an executed plan: a new plan whose rows put back what the original rows changed. */
module Reverts {
  import opened Base
  import opened ChangePlans

  function NumOf(v: Value): Option<int> { if v.Num? then Some(v.n) else None }

  function OrElse<T>(a: Option<T>, b: Option<T>): Option<T> { if a.Some? then a else b }

  function ValueOr(a: Option<int>, n: int): int { if a.Some? then a.value else n }

  /** The field naming the contract line an adjustment is for. */
  function LineField(entity: string): Option<string> {
    if entity == "ContractServiceAdjustments" then Some("contractServiceID")
    else if entity == "ContractServiceBundleAdjustments" then Some("contractServiceBundleID")
    else None
  }

  /** The line an adjustment changed: named in the row, or recorded when the row created it. */
  function LineOf(r: Row): Option<int>
    requires LineField(r.entity).Some?
  {
    OrElse(NumOf(Get(After(r), LineField(r.entity).value)), r.result.line)
  }

  function DayOf(f: Fields): Option<int> { if Get(f, "effectiveDate").Day? then Some(Get(f, "effectiveDate").day) else None }

  /** When a counter-adjustment takes effect: never before the adjustment it undoes. */
  function CounterDay(r: Row, effective: int): int {
    if DayOf(After(r)).Some? && DayOf(After(r)).value > effective then DayOf(After(r)).value else effective
  }

  function Maybe(k: string, v: Option<int>, on: bool): Fields { if v.Some? && on then map[k := Num(v.value)] else map[] }

  function Copied(f: Fields, k: string, on: bool): Fields { if on && Get(f, k) != Null then map[k := f[k]] else map[] }

  /** The counter-adjustment, and what its line should read the day before. */
  function Counter(r: Row, line: int, effective: int): Row
    requires LineField(r.entity).Some?
  {
    var a, b := After(r), BeforeOf(r);
    var date := CounterDay(r, effective);
    var units, change := ValueOr(NumOf(Get(b, "units")), 0), ValueOr(NumOf(Get(a, "unitChange")), 0);
    var price, newPrice := NumOf(Get(b, "unitPrice")), NumOf(Get(a, "adjustedUnitPrice"));
    var inEffect := DayOf(a).None? || date > DayOf(a).value;
    var field := LineField(r.entity).value;
    var before := if inEffect then map["units" := Num(units + change)] + Maybe("unitPrice", newPrice, units + change > 0)
                  else map["units" := Num(units)] + Maybe("unitPrice", price, units > 0);
    var after := Copied(a, "contractID", true) + Copied(a, "serviceID", field == "contractServiceID") + Copied(a, "serviceBundleID", true)
                 + Maybe("adjustedUnitPrice", price, units > 0 && newPrice.Some?)
                 + map[field := Num(line)] + map["effectiveDate" := Day(date)] + map["unitChange" := Num(-change)];
    Row(Create, r.entity, None, Some(before), Some(after), false, [], map[], Pending, NO_RESULT)
  }

  predicate PutsBack(r: Row) { (r.action == Update || r.action == Deactivate) && r.target.Some? && r.before.Some? && r.after.Some? }

  /** The row that undoes one applied row, when there is one. */
  function RevertOf(r: Row, effective: int): Option<Row> {
    if r.status != Applied then None
    else if LineField(r.entity).Some? then
      if LineOf(r).None? then None else Some(Counter(r, LineOf(r).value, effective))
    else if r.action == Create && r.entity == "Services" then
      if r.result.id.None? then None
      else Some(Row(Deactivate, "Services", r.result.id, Some(map["isActive" := Flag(true)]), Some(map["isActive" := Flag(false)]), false, [], map[], Pending, NO_RESULT))
    else if PutsBack(r) then
      var back := map k | k in r.after.value :: if k in r.before.value then r.before.value[k] else Null;
      Some(Row(Update, r.entity, r.target, r.after, Some(back), false, [], map[], Pending, NO_RESULT))
    else None
  }

  // ---------------------------------------------------------------- building the revert plan

  function UndoRows(plan: seq<Row>, effective: int): (backs: seq<Option<Row>>)
    ensures |backs| == |plan|
    ensures forall i | 0 <= i < |plan| :: backs[i] == RevertOf(plan[i], effective)
  {
    seq(|plan|, i requires 0 <= i < |plan| => RevertOf(plan[i], effective))
  }

  /** Revert rows start without dependencies or references. */
  ghost predicate Plain(backs: seq<Option<Row>>) {
    forall i | 0 <= i < |backs| && backs[i].Some? :: backs[i].value.deps == [] && backs[i].value.refs == map[]
  }

  lemma RevertsPlain(plan: seq<Row>, effective: int)
    ensures Plain(UndoRows(plan, effective))
  {
  }

  predicate Selected(i: nat, rowNos: seq<int>) { rowNos == [] || (i + 1) in rowNos }

  /** Row j of a revert plan undoes row from[j] of the plan; later rows are undone first, and none is left out. */
  ghost predicate Undoes(backs: seq<Option<Row>>, rowNos: seq<int>, low: nat, rows: seq<Row>, from: seq<nat>) {
    && |from| == |rows|
    && (forall j | 0 <= j < |from| :: low <= from[j] < |backs| && Selected(from[j], rowNos)
          && backs[from[j]].Some? && rows[j] == backs[from[j]].value.(deps := rows[j].deps))
    && (forall j, k | 0 <= j < k < |from| :: from[j] > from[k])
    && (forall i: nat | low <= i < |backs| && Selected(i, rowNos) && backs[i].Some? :: i in from)
  }

  ghost predicate Numbering(newNo: map<nat, nat>, from: seq<nat>) {
    && (forall j | 0 <= j < |from| :: from[j] in newNo && newNo[from[j]] == j)
    && (forall i | i in newNo :: newNo[i] < |from| && from[newNo[i]] == i)
  }

  /** Row i, undone by the revert plan's row number b, depended on row `on`. */
  predicate Dependent(plan: seq<Row>, newNo: map<nat, nat>, i: nat, on: nat, b: int) {
    i < |plan| && (on + 1) in DependsOn(plan[i]) && i in newNo && newNo[i] + 1 == b
  }

  /** Dependencies flip: undoing a row waits for undoing the rows that depended on it (among the first `high`). */
  ghost predicate Flipped(plan: seq<Row>, rows: seq<Row>, from: seq<nat>, newNo: map<nat, nat>, high: nat) {
    |from| == |rows| && forall j, b | 0 <= j < |rows| ::
      b in rows[j].deps <==> exists i: nat :: i < high && Dependent(plan, newNo, i, from[j], b)
  }

  /** The undone rows among those a row depended on. */
  function UndoneAmong(dependsOn: set<int>, newNo: map<nat, nat>): set<nat> { set k | k in newNo && (k + 1) in dependsOn }

  /** What one dependant adds: the undoing of each row in `on` waits for b. */
  ghost predicate Added(was: seq<Row>, rows: seq<Row>, from: seq<nat>, on: set<nat>, b: int) {
    && |rows| == |was| == |from| && (forall j | 0 <= j < |rows| :: rows[j] == was[j].(deps := rows[j].deps))
    && forall j, x | 0 <= j < |rows| :: x in rows[j].deps <==> x in was[j].deps || (x == b && from[j] in on)
  }

  /** Undoing whatever row i depended on waits for undoing row i. */
  method FlipRow(was: seq<Row>, newNo: map<nat, nat>, ghost from: seq<nat>, dependsOn: set<int>, b: int) returns (rows: seq<Row>)
    requires Numbering(newNo, from) && |from| == |was|
    ensures Added(was, rows, from, UndoneAmong(dependsOn, newNo), b)
  {
    rows := was;
    var on := UndoneAmong(dependsOn, newNo);
    var todo := on;
    while todo != {}
      invariant todo <= on && Added(was, rows, from, on - todo, b)
      decreases |todo|
    {
      var d := MinOf(todo);
      todo := todo - {d};
      var j := newNo[d];
      if b !in rows[j].deps {
        rows := rows[j := rows[j].(deps := rows[j].deps + [b])];
      }
    }
    assert on - todo == on;
  }

  /** Rows without an undo, other than information rows, are reported. */
  ghost predicate Reported(plan: seq<Row>, backs: seq<Option<Row>>, rowNos: seq<int>, low: nat, skipped: set<nat>) {
    |backs| == |plan| && forall i: nat :: i in skipped <==>
      low <= i < |plan| && Selected(i, rowNos) && backs[i].None? && (plan[i].status == Applied || plan[i].action != Info)
  }

  lemma UndoesStep(backs: seq<Option<Row>>, rowNos: seq<int>, i: nat, rows: seq<Row>, from: seq<nat>)
    requires i < |backs| && Undoes(backs, rowNos, i + 1, rows, from)
    ensures Selected(i, rowNos) && backs[i].Some? ==> Undoes(backs, rowNos, i, rows + [backs[i].value], from + [i])
    ensures !(Selected(i, rowNos) && backs[i].Some?) ==> Undoes(backs, rowNos, i, rows, from)
  {
  }

  /** The first pass, down to row `low`. */
  ghost predicate Built(plan: seq<Row>, backs: seq<Option<Row>>, rowNos: seq<int>, low: nat,
                        rows: seq<Row>, skipped: set<nat>, newNo: map<nat, nat>, from: seq<nat>) {
    && Undoes(backs, rowNos, low, rows, from) && Numbering(newNo, from) && (forall j | 0 <= j < |rows| :: rows[j].deps == [])
    && Reported(plan, backs, rowNos, low, skipped)
  }

  lemma BuiltStep(plan: seq<Row>, backs: seq<Option<Row>>, rowNos: seq<int>, i: nat,
                  rows: seq<Row>, skipped: set<nat>, newNo: map<nat, nat>, from: seq<nat>)
    requires i < |backs| == |plan| && Plain(backs) && Built(plan, backs, rowNos, i + 1, rows, skipped, newNo, from)
    ensures if Selected(i, rowNos) && backs[i].Some? then Built(plan, backs, rowNos, i, rows + [backs[i].value], skipped, newNo[i := |rows|], from + [i])
            else if Selected(i, rowNos) && (plan[i].status == Applied || plan[i].action != Info) then Built(plan, backs, rowNos, i, rows, skipped + {i}, newNo, from)
            else Built(plan, backs, rowNos, i, rows, skipped, newNo, from)
  {
    UndoesStep(backs, rowNos, i, rows, from);
  }

  /** The revert rows, last row first, before dependencies. */
  method PutBack(plan: seq<Row>, backs: seq<Option<Row>>, rowNos: seq<int>) returns (rows: seq<Row>, skipped: set<nat>, newNo: map<nat, nat>)
    requires |backs| == |plan| && Plain(backs)
    ensures exists from :: Built(plan, backs, rowNos, 0, rows, skipped, newNo, from)
  {
    rows, skipped, newNo := [], {}, map[];
    var i := |plan|;
    assert Built(plan, backs, rowNos, i, rows, skipped, newNo, []);
    while i > 0
      invariant 0 <= i <= |plan|
      invariant exists from :: Built(plan, backs, rowNos, i, rows, skipped, newNo, from)
    {
      i := i - 1;
      ghost var from :| Built(plan, backs, rowNos, i + 1, rows, skipped, newNo, from);
      BuiltStep(plan, backs, rowNos, i, rows, skipped, newNo, from);
      if Selected(i, rowNos) {
        if backs[i].Some? {
          rows, newNo := rows + [backs[i].value], newNo[i := |rows|];
        } else if plan[i].status == Applied || plan[i].action != Info {
          skipped := skipped + {i};
        }
      }
    }
  }

  /** The revert plan: undo rows in reverse order, with dependencies flipped. */
  method BuildRevertRows(plan: seq<Row>, effective: int, rowNos: seq<int>) returns (rows: seq<Row>, skipped: set<nat>, newNo: map<nat, nat>, ghost from: seq<nat>)
    ensures Undoes(UndoRows(plan, effective), rowNos, 0, rows, from)
    ensures Numbering(newNo, from) && Flipped(plan, rows, from, newNo, |plan|)
    ensures Reported(plan, UndoRows(plan, effective), rowNos, 0, skipped)
    ensures Backward(plan) ==> Backward(rows)
  {
    var backs := UndoRows(plan, effective);
    RevertsPlain(plan, effective);
    rows, skipped, newNo := PutBack(plan, backs, rowNos);
    from :| Built(plan, backs, rowNos, 0, rows, skipped, newNo, from);
    rows := FlipAll(plan, backs, rowNos, rows, newNo, from);
    if Backward(plan) { FlippedBackward(plan, backs, rowNos, rows, from, newNo); }
  }

  /** The second pass, over every row of the plan. */
  method FlipAll(plan: seq<Row>, ghost backs: seq<Option<Row>>, ghost rowNos: seq<int>, was: seq<Row>, newNo: map<nat, nat>, ghost from: seq<nat>)
    returns (rows: seq<Row>)
    requires Undoes(backs, rowNos, 0, was, from) && Numbering(newNo, from) && forall j | 0 <= j < |was| :: was[j].deps == []
    ensures Undoes(backs, rowNos, 0, rows, from) && Flipped(plan, rows, from, newNo, |plan|)
  {
    rows := was;
    var i := 0;
    while i < |plan|
      invariant 0 <= i <= |plan|
      invariant Undoes(backs, rowNos, 0, rows, from)
      invariant Flipped(plan, rows, from, newNo, i)
    {
      ghost var before := rows;
      if i in newNo {
        rows := FlipRow(rows, newNo, from, DependsOn(plan[i]), newNo[i] + 1);
      }
      FlipStep(plan, before, rows, from, newNo, i);
      i := i + 1;
    }
  }

  lemma FlipStep(plan: seq<Row>, was: seq<Row>, rows: seq<Row>, from: seq<nat>, newNo: map<nat, nat>, i: nat)
    requires i < |plan| && Flipped(plan, was, from, newNo, i)
    requires if i in newNo then Added(was, rows, from, UndoneAmong(DependsOn(plan[i]), newNo), newNo[i] + 1) && Numbering(newNo, from) else rows == was
    ensures Flipped(plan, rows, from, newNo, i + 1)
  {
    forall j, b | 0 <= j < |rows|
      ensures b in rows[j].deps <==> exists k: nat :: k < i + 1 && Dependent(plan, newNo, k, from[j], b)
    {
      assert b in rows[j].deps <==> b in was[j].deps || Dependent(plan, newNo, i, from[j], b);
    }
  }

  /** Backward in, backward out. */
  lemma FlippedBackward(plan: seq<Row>, backs: seq<Option<Row>>, rowNos: seq<int>, rows: seq<Row>, from: seq<nat>, newNo: map<nat, nat>)
    requires Backward(plan) && Plain(backs) && Undoes(backs, rowNos, 0, rows, from) && Numbering(newNo, from) && Flipped(plan, rows, from, newNo, |plan|)
    ensures Backward(rows)
  {
  }

  // ---------------------------------------------------------------- undoing updates

  datatype Key = Key(entity: string, id: int)

  type World = map<Key, Fields>

  function KeyOf(r: Row): Key
    requires r.target.Some?
  {
    Key(r.entity, r.target.value)
  }

  /** A field reads the same in both. */
  predicate Alike(v: World, w: World, key: Key, k: string) { key in v && key in w && Get(v[key], k) == Get(w[key], k) }

  /** What Autotask answers to an update when nobody else changes anything. */
  function Honest(w: World, r: Row): Replies
    requires r.target.Some?
  {
    var cur := if KeyOf(r) in w then Some(w[KeyOf(r)]) else None;
    Replies(None, Ok(None), Ok(0), None, Ok(cur), Ok(()), Ok(if cur.Some? then Some(cur.value + After(r)) else None))
  }

  function WithUpdate(w: World, r: Row): World
    requires r.target.Some? && KeyOf(r) in w
  {
    w[KeyOf(r) := w[KeyOf(r)] + After(r)]
  }

  /** An update, its fields all given by the plan, whose before-image covers what it changes. */
  predicate Covered(r: Row) {
    PutsBack(r) && r.refs == map[] && LineField(r.entity).None? && r.after.value.Keys <= r.before.value.Keys
  }

  /** One update was applied: its target read as the plan had seen it. */
  ghost predicate AppliedOn(w: World, r: Row, w': World) {
    Covered(r) && KeyOf(r) in w && Reads(w[KeyOf(r)], r.before.value) && w' == WithUpdate(w, r)
  }

  /** The undo of an applied update: the same fields of the same record, from the planned values back to those before. */
  predicate Undo(r: Row, back: Row) {
    && back.action == Update && back.entity == r.entity && back.target == r.target && back.before == r.after
    && back.after.Some? && PutsBack(r) && back.after.value.Keys == r.after.value.Keys
    && forall k | k in r.after.value :: back.after.value[k] == if k in r.before.value then r.before.value[k] else Null
  }

  lemma UndoIs(r: Row, effective: int, back: Row)
    requires Covered(r) && r.status == Applied
    requires RevertOf(r, effective).Some? && back == RevertOf(r, effective).value.(deps := back.deps, status := back.status)
    ensures Undo(r, back)
  {
  }

  /** The undo's turn: its record reads as the plan left it, and every field it touches goes back. */
  lemma UndoReads(w: World, r: Row, w': World, v: World, back: Row)
    requires AppliedOn(w, r, w') && Undo(r, back) && forall k | k in r.after.value :: Alike(v, w', KeyOf(r), k)
    requires KeyOf(r) in v
    ensures KeyOf(back) == KeyOf(r) && Reads(v[KeyOf(r)], BeforeOf(back)) && Reads(v[KeyOf(r)] + After(back), After(back))
    ensures forall k | k in r.after.value :: Alike(WithUpdate(v, back), w, KeyOf(r), k)
  {
    var key := KeyOf(r);
    forall k | k in r.after.value ensures Same(Get(v[key], k), r.after.value[k]) {
      assert Alike(v, w', key, k);
    }
    var v' := WithUpdate(v, back);
    forall k | k in r.after.value ensures Get(v'[key], k) == Get(w[key], k) {
      assert Same(Get(w[key], k), r.before.value[k]);
    }
  }

  /** Running the undo of an applied update, its fields as the plan left them, is applied and puts each back as it read. */
  lemma UndoOne(w: World, r: Row, w': World, v: World, back: Row, effective: int, n: nat)
    requires AppliedOn(w, r, w') && r.status == Applied
    requires KeyOf(r) in v && forall k | k in r.after.value :: Alike(v, w', KeyOf(r), k)
    requires RevertOf(r, effective).Some? && back == RevertOf(r, effective).value.(deps := back.deps, status := back.status)
    ensures back.action == Update && back.target == r.target && KeyOf(back) == KeyOf(r) && After(back).Keys == r.after.value.Keys
    ensures RunRow(n, back, Honest(v, back)) == Settled(Applied, NO_RESULT, Some(Write.Updated(n, back.entity, back.target.value, After(back), true)))
    ensures forall k | k in r.after.value :: Alike(WithUpdate(v, back), w, KeyOf(r), k)
  {
    UndoIs(r, effective, back);
    UndoReads(w, r, w', v, back);
  }

  /** A row the revert puts back: selected, applied, an update that kept what it replaced. */
  predicate Undoable(plan: seq<Row>, rowNos: seq<int>, i: nat) {
    i < |plan| && plan[i].status == Applied && Covered(plan[i]) && Selected(i, rowNos)
  }

  /** The worlds a plan went through, row by row; what any other row did is not said, but records stay. */
  ghost predicate History(plan: seq<Row>, rowNos: seq<int>, ws: seq<World>) {
    |ws| == |plan| + 1 && forall i: nat | i < |plan| ::
      if Undoable(plan, rowNos, i) then AppliedOn(ws[i], plan[i], ws[i + 1]) else ws[i].Keys <= ws[i + 1].Keys
  }

  /** The worlds of the revert: its updates are run in order with nobody else changing anything. */
  ghost predicate Reverting(plan: seq<Row>, rowNos: seq<int>, rows: seq<Row>, from: seq<nat>, vs: seq<World>) {
    && |vs| == |rows| + 1 && |from| == |rows|
    && forall j | 0 <= j < |rows| ::
         if Undoable(plan, rowNos, from[j]) then
           rows[j].target.Some? && vs[j + 1] == if KeyOf(rows[j]) in vs[j] && RunRow(j, rows[j], Honest(vs[j], rows[j])).write.Some? then WithUpdate(vs[j], rows[j]) else vs[j]
         else vs[j + 1].Keys == vs[j].Keys
  }

  /** Row i, if it is no row the revert puts back, left the field alone. */
  ghost predicate LeftAlone(plan: seq<Row>, rowNos: seq<int>, ws: seq<World>, i: nat, key: Key, k: string) {
    i + 1 < |ws| && (!Undoable(plan, rowNos, i) ==> Alike(ws[i + 1], ws[i], key, k))
  }

  /** And so did its undo row, if it has one. */
  ghost predicate UndoneAlone(plan: seq<Row>, rowNos: seq<int>, from: seq<nat>, vs: seq<World>, j: nat, key: Key, k: string) {
    j < |from| && j + 1 < |vs| && (!Undoable(plan, rowNos, from[j]) ==> Alike(vs[j + 1], vs[j], key, k))
  }

  /** From row `low` on, only rows the revert puts back touched the field. */
  ghost predicate Quiet(plan: seq<Row>, rowNos: seq<int>, ws: seq<World>, from: seq<nat>, vs: seq<World>, low: nat, key: Key, k: string) {
    && (forall i: nat | low <= i < |plan| :: LeftAlone(plan, rowNos, ws, i, key, k))
    && (forall j: nat | j < |from| && from[j] >= low :: UndoneAlone(plan, rowNos, from, vs, j, key, k))
  }

  /** After a row that is put back, nothing else touched what it changed. */
  ghost predicate Calm(plan: seq<Row>, rowNos: seq<int>, ws: seq<World>, from: seq<nat>, vs: seq<World>) {
    forall i: nat, k | Undoable(plan, rowNos, i) && k in After(plan[i]) :: Quiet(plan, rowNos, ws, from, vs, i + 1, KeyOf(plan[i]), k)
  }

  /** Everything known of a plan, its worlds and its revert's. */
  ghost predicate Story(plan: seq<Row>, rowNos: seq<int>, effective: int, ws: seq<World>, rows: seq<Row>, from: seq<nat>, vs: seq<World>) {
    && History(plan, rowNos, ws) && Undoes(UndoRows(plan, effective), rowNos, 0, rows, from)
    && Reverting(plan, rowNos, rows, from, vs) && vs[0] == ws[|plan|] && Calm(plan, rowNos, ws, from, vs)
  }

  /** What is still to be undone at row j of the revert plan: the rows before this one. */
  function Front(rows: seq<Row>, from: seq<nat>, j: nat): nat
    requires j <= |rows| == |from|
  {
    if j == |rows| then 0 else from[j] + 1
  }

  /** Between the rows undone last and next (or the start), no selected row has an undo. */
  lemma NoneBetween(backs: seq<Option<Row>>, rowNos: seq<int>, rows: seq<Row>, from: seq<nat>, j: nat, i: nat)
    requires Undoes(backs, rowNos, 0, rows, from) && j <= |from| && i < |backs| && Selected(i, rowNos)
    requires (j == 0 || i < from[j - 1]) && (j == |from| || i > from[j])
    ensures backs[i].None?
  {
  }

  /** No row the revert puts back lies between the one undone last and the next. */
  ghost predicate GapOk(plan: seq<Row>, rowNos: seq<int>, rows: seq<Row>, from: seq<nat>, j: nat) {
    && j <= |rows| == |from|
    && var low, high := Front(rows, from, j), if j == 0 then |plan| else from[j - 1];
       low <= high <= |plan| && forall i: nat | low <= i < high :: !Undoable(plan, rowNos, i)
  }

  lemma GapIs(plan: seq<Row>, rowNos: seq<int>, effective: int, rows: seq<Row>, from: seq<nat>, j: nat)
    requires Undoes(UndoRows(plan, effective), rowNos, 0, rows, from) && j <= |rows|
    ensures GapOk(plan, rowNos, rows, from, j)
  {
    forall i: nat | Front(rows, from, j) <= i < |plan| && (j == 0 || i < from[j - 1]) ensures !Undoable(plan, rowNos, i) {
      if Undoable(plan, rowNos, i) { NoneBetween(UndoRows(plan, effective), rowNos, rows, from, j, i); }
    }
    assert j > 0 && j < |rows| ==> from[j - 1] > from[j];
  }

  /** A quiet field reads the same across rows that are not put back. */
  lemma {:induction false} Across(plan: seq<Row>, rowNos: seq<int>, ws: seq<World>, from: seq<nat>, vs: seq<World>, low: nat, high: nat, key: Key, k: string)
    requires Quiet(plan, rowNos, ws, from, vs, low, key, k) && low <= high <= |plan| < |ws| && key in ws[low]
    requires forall i: nat | low <= i < high :: !Undoable(plan, rowNos, i)
    ensures Alike(ws[high], ws[low], key, k)
    decreases high
  {
    if low < high {
      Across(plan, rowNos, ws, from, vs, low, high - 1, key, k);
      assert LeftAlone(plan, rowNos, ws, high - 1, key, k);
    }
  }

  /** At row j of the revert, every quiet field reads as it did before the rows undone so far. */
  ghost predicate BackTo(plan: seq<Row>, rowNos: seq<int>, ws: seq<World>, from: seq<nat>, vs: seq<World>, v: World, low: nat) {
    low < |ws| && forall key, k | key in ws[low] && Quiet(plan, rowNos, ws, from, vs, low, key, k) :: Alike(v, ws[low], key, k)
  }

  lemma GapBackTo(plan: seq<Row>, rowNos: seq<int>, ws: seq<World>, from: seq<nat>, vs: seq<World>, v: World, low: nat, high: nat)
    requires low <= high <= |plan| < |ws| && BackTo(plan, rowNos, ws, from, vs, v, high)
    requires forall i: nat | low <= i < high :: !Undoable(plan, rowNos, i)
    ensures BackTo(plan, rowNos, ws, from, vs, v, low)
  {
    forall key, k | key in ws[low] && Quiet(plan, rowNos, ws, from, vs, low, key, k) ensures Alike(v, ws[low], key, k) {
      Across(plan, rowNos, ws, from, vs, low, high, key, k);
      assert Quiet(plan, rowNos, ws, from, vs, high, key, k);
      assert Alike(v, ws[high], key, k);
    }
  }

  /** The undo of some other row. */
  lemma OtherTurn(plan: seq<Row>, rowNos: seq<int>, ws: seq<World>, from: seq<nat>, vs: seq<World>, j: nat)
    requires j < |from| && j + 1 < |vs| && from[j] < |plan| && |ws| == |plan| + 1 && !Undoable(plan, rowNos, from[j])
    requires BackTo(plan, rowNos, ws, from, vs, vs[j], from[j] + 1)
    ensures BackTo(plan, rowNos, ws, from, vs, vs[j + 1], from[j])
  {
    var at := from[j];
    forall key, k | key in ws[at] && Quiet(plan, rowNos, ws, from, vs, at, key, k) ensures Alike(vs[j + 1], ws[at], key, k) {
      assert LeftAlone(plan, rowNos, ws, at, key, k) && UndoneAlone(plan, rowNos, from, vs, j, key, k);
      assert Quiet(plan, rowNos, ws, from, vs, at + 1, key, k);
      assert Alike(vs[j], ws[at + 1], key, k);
    }
  }

  /** The undo of a row that is put back: applied, and one row further back. */
  lemma UndoTurn(plan: seq<Row>, rowNos: seq<int>, effective: int, ws: seq<World>, rows: seq<Row>, from: seq<nat>, vs: seq<World>, j: nat, back: Row)
    requires Story(plan, rowNos, effective, ws, rows, from, vs) && j < |rows| && Undoable(plan, rowNos, from[j])
    requires BackTo(plan, rowNos, ws, from, vs, vs[j], from[j] + 1) && back == rows[j].(status := back.status)
    ensures back.action == Update && back.target == plan[from[j]].target && back.refs == map[] && After(back).Keys == After(plan[from[j]]).Keys
    ensures RunRow(j, back, Honest(vs[j], back)) == Settled(Applied, NO_RESULT, Some(Write.Updated(j, back.entity, back.target.value, After(back), true)))
    ensures KeyOf(back) == KeyOf(plan[from[j]]) && KeyOf(back) in vs[j]
    ensures forall k | k in After(plan[from[j]]) :: Alike(WithUpdate(vs[j], back), ws[from[j]], KeyOf(plan[from[j]]), k)
  {
    var at, r := from[j], plan[from[j]];
    RevertsPlain(plan, effective);
    assert UndoRows(plan, effective)[at] == RevertOf(r, effective);
    HasUndo(r, effective);
    assert AppliedOn(ws[at], r, ws[at + 1]);
    KeysStay(plan, rowNos, effective, ws, rows, from, vs, at, j);
    forall k | k in r.after.value ensures Alike(vs[j], ws[at + 1], KeyOf(r), k) {
      assert Quiet(plan, rowNos, ws, from, vs, at + 1, KeyOf(r), k);
    }
    UndoOne(ws[at], r, ws[at + 1], vs[j], back, effective, j);
  }

  lemma HasUndo(r: Row, effective: int)
    requires r.status == Applied && Covered(r)
    ensures RevertOf(r, effective).Some?
  {
  }

  /** Records stay: those a row found are there when it is undone. */
  lemma KeysStay(plan: seq<Row>, rowNos: seq<int>, effective: int, ws: seq<World>, rows: seq<Row>, from: seq<nat>, vs: seq<World>, i: nat, j: nat)
    requires Story(plan, rowNos, effective, ws, rows, from, vs) && i <= |plan| && j <= |rows|
    ensures ws[i].Keys <= vs[j].Keys
  {
    KeysForward(plan, rowNos, ws, i, |plan|);
    KeysBack(plan, rowNos, rows, from, vs, j);
  }

  lemma {:induction false} KeysForward(plan: seq<Row>, rowNos: seq<int>, ws: seq<World>, i: nat, n: nat)
    requires History(plan, rowNos, ws) && i <= n <= |plan|
    ensures ws[i].Keys <= ws[n].Keys
    decreases n
  {
    if i < n {
      KeysForward(plan, rowNos, ws, i, n - 1);
      assert if Undoable(plan, rowNos, n - 1) then AppliedOn(ws[n - 1], plan[n - 1], ws[n]) else ws[n - 1].Keys <= ws[n].Keys;
    }
  }

  lemma {:induction false} KeysBack(plan: seq<Row>, rowNos: seq<int>, rows: seq<Row>, from: seq<nat>, vs: seq<World>, j: nat)
    requires Reverting(plan, rowNos, rows, from, vs) && j <= |rows|
    ensures vs[j].Keys == vs[0].Keys
    decreases j
  {
    if j > 0 { KeysBack(plan, rowNos, rows, from, vs, j - 1); }
  }

  lemma UndoBackTo(plan: seq<Row>, rowNos: seq<int>, effective: int, ws: seq<World>, rows: seq<Row>, from: seq<nat>, vs: seq<World>, j: nat)
    requires Story(plan, rowNos, effective, ws, rows, from, vs) && j < |rows| && Undoable(plan, rowNos, from[j])
    requires BackTo(plan, rowNos, ws, from, vs, vs[j], from[j] + 1)
    ensures BackTo(plan, rowNos, ws, from, vs, vs[j + 1], from[j])
  {
    UndoTurn(plan, rowNos, effective, ws, rows, from, vs, j, rows[j]);
    var at, r := from[j], plan[from[j]];
    assert AppliedOn(ws[at], r, ws[at + 1]);
    forall key, k | key in ws[at] && Quiet(plan, rowNos, ws, from, vs, at, key, k) ensures Alike(vs[j + 1], ws[at], key, k) {
      if key != KeyOf(r) || k !in r.after.value {
        assert Quiet(plan, rowNos, ws, from, vs, at + 1, key, k);
        assert Alike(vs[j], ws[at + 1], key, k);
      }
    }
  }

  /** Where the revert stands at its row j. */
  ghost predicate Stands(plan: seq<Row>, rowNos: seq<int>, ws: seq<World>, rows: seq<Row>, from: seq<nat>, vs: seq<World>, j: nat) {
    j <= |rows| == |from| && j < |vs| && BackTo(plan, rowNos, ws, from, vs, vs[j], Front(rows, from, j))
  }

  lemma StandsFirst(plan: seq<Row>, rowNos: seq<int>, effective: int, ws: seq<World>, rows: seq<Row>, from: seq<nat>, vs: seq<World>)
    requires Story(plan, rowNos, effective, ws, rows, from, vs)
    ensures Stands(plan, rowNos, ws, rows, from, vs, 0)
  {
    GapIs(plan, rowNos, effective, rows, from, 0);
    GapBackTo(plan, rowNos, ws, from, vs, vs[0], Front(rows, from, 0), |plan|);
  }

  lemma StandsNext(plan: seq<Row>, rowNos: seq<int>, effective: int, ws: seq<World>, rows: seq<Row>, from: seq<nat>, vs: seq<World>, j: nat)
    requires Story(plan, rowNos, effective, ws, rows, from, vs) && j < |rows|
    ensures Stands(plan, rowNos, ws, rows, from, vs, j) ==> Stands(plan, rowNos, ws, rows, from, vs, j + 1)
  {
    if Stands(plan, rowNos, ws, rows, from, vs, j) {
      if Undoable(plan, rowNos, from[j]) {
        UndoBackTo(plan, rowNos, effective, ws, rows, from, vs, j);
      } else {
        OtherTurn(plan, rowNos, ws, from, vs, j);
      }
      GapIs(plan, rowNos, effective, rows, from, j + 1);
      GapBackTo(plan, rowNos, ws, from, vs, vs[j + 1], Front(rows, from, j + 1), from[j]);
    }
  }

  lemma {:induction false} StandsAll(plan: seq<Row>, rowNos: seq<int>, ws: seq<World>, rows: seq<Row>, from: seq<nat>, vs: seq<World>, n: nat)
    requires Stands(plan, rowNos, ws, rows, from, vs, 0)
    requires forall j: nat | j < n :: Stands(plan, rowNos, ws, rows, from, vs, j) ==> Stands(plan, rowNos, ws, rows, from, vs, j + 1)
    ensures Stands(plan, rowNos, ws, rows, from, vs, n)
  {
    if n > 0 { StandsAll(plan, rowNos, ws, rows, from, vs, n - 1); }
  }

  lemma StandsAt(plan: seq<Row>, rowNos: seq<int>, effective: int, ws: seq<World>, rows: seq<Row>, from: seq<nat>, vs: seq<World>, j: nat)
    requires Story(plan, rowNos, effective, ws, rows, from, vs) && j <= |rows|
    ensures Stands(plan, rowNos, ws, rows, from, vs, j)
  {
    StandsFirst(plan, rowNos, effective, ws, rows, from, vs);
    forall k: nat | k < j ensures Stands(plan, rowNos, ws, rows, from, vs, k) ==> Stands(plan, rowNos, ws, rows, from, vs, k + 1) {
      StandsNext(plan, rowNos, effective, ws, rows, from, vs, k);
    }
    StandsAll(plan, rowNos, ws, rows, from, vs, j);
  }

  /**
   * Undo: however much of a plan is undone and whatever its other rows did, as long as nothing else touched the fields
   * of a row after it, the undo of each update is applied and its fields read as before the row.
   */
  lemma UndoRestores(plan: seq<Row>, rowNos: seq<int>, effective: int, ws: seq<World>, rows: seq<Row>, from: seq<nat>, vs: seq<World>, j: nat)
    requires Story(plan, rowNos, effective, ws, rows, from, vs) && j < |rows| && Undoable(plan, rowNos, from[j])
    ensures RunRow(j, rows[j], Honest(vs[j], rows[j])).status == Applied
    ensures forall k | k in After(plan[from[j]]) :: Alike(vs[j + 1], ws[from[j]], KeyOf(plan[from[j]]), k)
  {
    StandsAt(plan, rowNos, effective, ws, rows, from, vs, j);
    UndoTurn(plan, rowNos, effective, ws, rows, from, vs, j, rows[j]);
  }

  /** So, the whole revert run, every field that only the undone updates touched reads as before the plan. */
  lemma AllRestored(plan: seq<Row>, rowNos: seq<int>, effective: int, ws: seq<World>, rows: seq<Row>, from: seq<nat>, vs: seq<World>, key: Key, k: string)
    requires Story(plan, rowNos, effective, ws, rows, from, vs) && key in ws[0] && Quiet(plan, rowNos, ws, from, vs, 0, key, k)
    ensures Alike(vs[|rows|], ws[0], key, k)
  {
    StandsAt(plan, rowNos, effective, ws, rows, from, vs, |rows|);
  }

  // ---------------------------------------------------------------- the executor finishes a revert plan

  /** A row that needs no reference filled in, and succeeds. */
  ghost predicate SmoothRow(rows: seq<Row>, io: IO, ids: seq<Option<int>>, j: nat) {
    j < |rows| == |io| == |ids| && Runnable(rows[j]) && rows[j].refs == map[] && Succeeds(rows[j], RunRow(j, rows[j], io[j]), ids[j])
  }

  lemma ApprovedSmooth(rows: seq<Row>, io: IO, ids: seq<Option<int>>)
    requires Backward(rows) && |io| == |rows| == |ids| && forall j | 0 <= j < |rows| :: SmoothRow(Approve(rows), io, ids, j)
    ensures Smooth(Approve(rows), io, ids)
  {
    var approved := Approve(rows);
    forall j: nat | j < |rows| ensures GoesWell(approved, io, ids, j) {
      assert SmoothRow(approved, io, ids, j) && Expected(approved[j], ids) == approved[j];
      forall d | d in DependsOn(approved[j]) ensures 1 <= d <= j && Runnable(approved[d - 1]) {
        assert d in DependsOn(rows[j]) && SmoothRow(approved, io, ids, d - 1);
      }
    }
  }

  /** Each update of it, approved, succeeds on those worlds. */
  lemma BackSucceeds(plan: seq<Row>, rowNos: seq<int>, effective: int, ws: seq<World>, rows: seq<Row>, from: seq<nat>, vs: seq<World>, j: nat, back: Row)
    requires Story(plan, rowNos, effective, ws, rows, from, vs) && j < |rows| && Undoable(plan, rowNos, from[j])
    requires rows[j].target.Some? && back == rows[j].(status := Approved)
    ensures Runnable(back) && back.refs == map[] && Succeeds(back, RunRow(j, back, Honest(vs[j], rows[j])), NonZero(rows[j].target))
  {
    StandsAt(plan, rowNos, effective, ws, rows, from, vs, j);
    UndoTurn(plan, rowNos, effective, ws, rows, from, vs, j, back);
    assert Honest(vs[j], back) == Honest(vs[j], rows[j]);
    BackOpen(plan, effective, rowNos, rows, from, j);
  }

  lemma BackOpen(plan: seq<Row>, effective: int, rowNos: seq<int>, rows: seq<Row>, from: seq<nat>, j: nat)
    requires Undoes(UndoRows(plan, effective), rowNos, 0, rows, from) && j < |rows| && from[j] < |plan|
    ensures !rows[j].blocked
  {
    assert UndoRows(plan, effective)[from[j]] == RevertOf(plan[from[j]], effective);
  }

  /** Approved, the revert of updates runs smoothly on those worlds: every row is finished, in order. */
  lemma RevertRunsSmoothly(plan: seq<Row>, rowNos: seq<int>, effective: int, ws: seq<World>, rows: seq<Row>, from: seq<nat>, vs: seq<World>, io: IO, ids: seq<Option<int>>)
    requires Story(plan, rowNos, effective, ws, rows, from, vs) && Backward(rows) && |io| == |rows| == |ids|
    requires forall j | 0 <= j < |rows| ::
               Undoable(plan, rowNos, from[j]) && rows[j].target.Some? && io[j] == Honest(vs[j], rows[j]) && ids[j] == NonZero(rows[j].target)
    ensures Smooth(Approve(rows), io, ids)
  {
    forall j | 0 <= j < |rows| ensures SmoothRow(Approve(rows), io, ids, j) {
      BackSucceeds(plan, rowNos, effective, ws, rows, from, vs, j, Approve(rows)[j]);
    }
    ApprovedSmooth(rows, io, ids);
  }
}
