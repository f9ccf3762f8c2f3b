/**
 * Change plans: rows approved one by one and executed with a fresh read before every write, over any number of
 * executions and whatever Autotask answers.
 */
module ChangePlans {
  import opened Base

  // ---------------------------------------------------------------- values and rows

  datatype Value = Null | Text(s: string) | Num(n: int) | Flag(b: bool) | Day(day: int)

  type Fields = map<string, Value>

  /** An empty text is no value. */
  function Norm(v: Value): Value { if v == Text("") then Null else v }

  function Get(f: Fields, k: string): Value { if k in f then Norm(f[k]) else Null }

  predicate Same(a: Value, b: Value) { Norm(a) == Norm(b) }

  /** Every wanted field reads as wanted. */
  predicate Reads(cur: Fields, want: Fields) { forall k | k in want :: Same(Get(cur, k), want[k]) }

  datatype Action = Create | Update | Deactivate | Info | Manual

  datatype Status = Pending | Approved | Excluded | Applied | Failed | Stale | Skipped

  /** What a finished row recorded: the id it created, one it found, the contract line it caused. */
  datatype Result = Result(id: Option<int>, existing: Option<int>, line: Option<int>)

  const NO_RESULT := Result(None, None, None)

  datatype Row = Row(action: Action, entity: string, target: Option<int>, before: Option<Fields>, after: Option<Fields>,
                     blocked: bool, deps: seq<int>, refs: map<string, int>, status: Status, result: Result)

  function After(r: Row): Fields { if r.after.Some? then r.after.value else map[] }

  function BeforeOf(r: Row): Fields { if r.before.Some? then r.before.value else map[] }

  predicate Done(s: Status) { s == Applied || s == Skipped }

  /** The rows that must be in first: its dependencies and the rows it refers to. */
  function DependsOn(r: Row): set<int> { (set d | d in r.deps) + r.refs.Values }

  /** An id of 0 is none: creates that answer no id leave one. */
  function NonZero(id: Option<int>): Option<int> { if id == Some(0) then None else id }

  /** The id a finished row stands for: created, found, or its target. */
  function RowId(r: Row): Option<int> {
    NonZero(if r.result.id.Some? then r.result.id else if r.result.existing.Some? then r.result.existing else r.target)
  }

  // ---------------------------------------------------------------- Autotask's answers

  /** A call answers or throws; `stop`: a rejected login or a rate limit; `took`: the write took effect all the same. */
  datatype Reply<T> = Ok(value: T) | Thrown(stop: bool, took: bool)

  datatype Effect = Unverifiable | Seen(record: Fields, want: Fields, line: Option<int>)

  /** Everything Autotask will answer to one row (None: this kind of I/O is not offered for the entity). */
  datatype Replies = Replies(
    snapshot: Option<Reply<Option<Fields>>>, existing: Reply<Option<int>>, create: Reply<int>, readBack: Option<Reply<Option<Effect>>>,
    read: Reply<Option<Fields>>, update: Reply<()>, back: Reply<Option<Fields>>)

  /** A write sent to Autotask; `made` when it took effect. */
  datatype Write = Created(row: nat, entity: string, fields: Fields, made: bool) | Updated(row: nat, entity: string, id: int, fields: Fields, made: bool)

  datatype Outcome = Outcome(status: Status, result: Result, write: Option<Write>, stop: bool)

  function Settled(status: Status, result: Result, write: Option<Write>): Outcome { Outcome(status, result, write, false) }

  function Threw<T>(x: Reply<T>, write: Option<Write>): Outcome
    requires x.Thrown?
  {
    Outcome(Failed, NO_RESULT, write, x.stop)
  }

  /** A created record, read back (or verified by its effect). */
  function VerifyCreate(r: Row, x: Replies, w: Write, id: int): Outcome {
    if x.readBack.Some? && x.readBack.value.Thrown? then Threw(x.readBack.value, Some(w))
    else
      var effect := if x.readBack.Some? then x.readBack.value.value else None;
      if effect == Some(Unverifiable) then Settled(Applied, Result(Some(id), None, None), Some(w))
      else if effect.Some? then
        Settled(if Reads(effect.value.record, effect.value.want) then Applied else Failed, Result(Some(id), None, effect.value.line), Some(w))
      else if x.back.Thrown? then Threw(x.back, Some(w))
      else Settled(if x.back.value.Some? && Reads(x.back.value.value, After(r)) then Applied else Failed, Result(Some(id), None, None), Some(w))
  }

  function RunCreate(n: nat, r: Row, x: Replies): Outcome {
    if x.snapshot.Some? && x.snapshot.value.Thrown? then Threw(x.snapshot.value, None)
    else if r.before.Some? && x.snapshot.Some? && !(x.snapshot.value.value.Some? && Reads(x.snapshot.value.value.value, r.before.value)) then
      Settled(Stale, NO_RESULT, None)
    else if x.existing.Thrown? then Threw(x.existing, None)
    else if x.existing.value.Some? then Settled(Skipped, Result(None, x.existing.value, None), None)
    else if x.create.Thrown? then Threw(x.create, Some(Created(n, r.entity, After(r), x.create.took)))
    else VerifyCreate(r, x, Created(n, r.entity, After(r), true), x.create.value)
  }

  function RunUpdate(n: nat, r: Row, x: Replies): Outcome {
    if r.target.None? then Settled(Failed, NO_RESULT, None)
    else if x.read.Thrown? then Threw(x.read, None)
    else if x.read.value.None? then Settled(Failed, NO_RESULT, None)
    else if !Reads(x.read.value.value, BeforeOf(r)) then
      Settled(if Reads(x.read.value.value, After(r)) then Skipped else Stale, NO_RESULT, None)
    else if x.update.Thrown? then Threw(x.update, Some(Updated(n, r.entity, r.target.value, After(r), x.update.took)))
    else
      var w := Some(Updated(n, r.entity, r.target.value, After(r), true));
      if x.back.Thrown? then Threw(x.back, w)
      else Settled(if x.back.value.Some? && Reads(x.back.value.value, After(r)) then Applied else Failed, NO_RESULT, w)
  }

  function RunRow(n: nat, r: Row, x: Replies): Outcome {
    if r.action == Create then RunCreate(n, r, x) else RunUpdate(n, r, x)
  }

  /** The record a row's plan was built on still reads as it did then. */
  predicate Fresh(r: Row, x: Replies) {
    if r.action == Create then
      r.before.Some? && x.snapshot.Some? ==> x.snapshot.value.Ok? && x.snapshot.value.value.Some? && Reads(x.snapshot.value.value.value, r.before.value)
    else x.read.Ok? && x.read.value.Some? && Reads(x.read.value.value, BeforeOf(r))
  }

  /** What a row's outcome tells: what was written and why it could be, and what each status stands for. */
  lemma RowMeaning(n: nat, r: Row, x: Replies)
    ensures var o := RunRow(n, r, x);
            && (o.write.Some? <==> Fresh(r, x) && (if r.action == Create then (x.snapshot.Some? ==> x.snapshot.value.Ok?) && x.existing == Ok(None) else r.target.Some?))
            && (o.write.Some? ==> o.write.value.row == n && o.write.value.entity == r.entity && o.write.value.fields == After(r))
            && (o.write.Some? ==> o.write.value.Created? == (r.action == Create) && (o.write.value.Updated? ==> Some(o.write.value.id) == r.target))
            && (o.status in {Applied, Failed, Stale, Skipped})
            && (Done(o.status) ==> (o.status == Applied <==> o.write.Some?))
            && (o.status == Applied ==> o.write.value.made)
            && (o.status == Stale ==> !Fresh(r, x) && o.write.None?)
            && (o.stop ==> o.status == Failed)
  {
  }

  // ---------------------------------------------------------------- the store and the executor

  datatype PlanStatus = Open | Executing | Finished | Superseded

  /** How an execution went. */
  datatype Report = Report(attempted: nat, applied: nat, failed: nat, stale: nat, skipped: nat, waiting: nat, stopped: bool)

  function Counted(rep: Report, s: Status): Report {
    match s
    case Applied => rep.(attempted := rep.attempted + 1, applied := rep.applied + 1)
    case Skipped => rep.(attempted := rep.attempted + 1, skipped := rep.skipped + 1)
    case Stale => rep.(attempted := rep.attempted + 1, stale := rep.stale + 1)
    case _ => rep.(attempted := rep.attempted + 1, failed := rep.failed + 1)
  }

  /** The id the row numbered n stands for. */
  function IdOf(rows: seq<Row>, n: int): Option<int> {
    if 1 <= n <= |rows| then RowId(rows[n - 1]) else None
  }

  function IdValue(id: Option<int>): Value { if id.Some? then Num(id.value) else Null }

  /** A row with its references filled from the rows they point at. */
  function Filled(r: Row, rows: seq<Row>): Row {
    if r.refs == map[] then r
    else r.(after := Some(After(r) + map f | f in r.refs :: IdValue(IdOf(rows, r.refs[f]))))
  }

  /** Everything it depends on is in, and every row it refers to has an id. */
  predicate Ready(r: Row, rows: seq<Row>) {
    && (forall d | d in DependsOn(r) :: 1 <= d <= |rows| && Done(rows[d - 1].status))
    && (forall f | f in r.refs :: IdOf(rows, r.refs[f]).Some?)
  }

  /** A row of the plan may be run: approved, not blocked, not a person's step. */
  predicate Runnable(r: Row) { r.status == Approved && !r.blocked && r.action != Manual && r.action != Info }

  /** Rows approved are never blocked or informational. */
  ghost predicate ApprovalsOk(rows: seq<Row>) {
    forall i | 0 <= i < |rows| && rows[i].status == Approved :: !rows[i].blocked && rows[i].action != Info
  }

  /** The plan itself never changes, and applied, skipped and stale rows stay as they are. */
  ghost predicate Absorbing(a: seq<Row>, b: seq<Row>) {
    && |a| == |b|
    && forall i | 0 <= i < |a| ::
         b[i] == a[i].(status := b[i].status, result := b[i].result) && (Done(a[i].status) || a[i].status == Stale ==> b[i] == a[i])
  }

  /** The records a create row has made. */
  function Made(log: seq<Write>, n: nat): nat {
    if log == [] then 0
    else Made(log[..|log| - 1], n) + if log[|log| - 1].Created? && log[|log| - 1].row == n && log[|log| - 1].made then 1 else 0
  }

  ghost predicate MadeOnce(log: seq<Write>) { forall n: nat :: Made(log, n) <= 1 }

  /** What Autotask answers in one execution, row by row (row i of the list is row number i + 1). */
  type IO = seq<Replies>

  /** A create that may be tried again finds the record it made before. */
  ghost predicate SeesEarlier(rows: seq<Row>, log: seq<Write>, io: IO) {
    |io| == |rows| && forall i: nat | i < |rows| && rows[i].status == Approved && Made(log, i) > 0 :: io[i].existing != Ok(None)
  }

  /** The outcome row i has once the rows it depends on stand as in `b`. */
  function OutcomeOf(r: Row, b: seq<Row>, i: nat, io: IO): Outcome
    requires i < |io|
  {
    RunRow(i, Filled(r, b), io[i])
  }

  /** Row i, approved in `a` and with everything it depends on in, got its outcome recorded in `b`. */
  ghost predicate Executed(a: seq<Row>, b: seq<Row>, i: nat, io: IO) {
    && i < |a| == |b| == |io| && Runnable(a[i]) && Ready(a[i], b)
    && b[i] == a[i].(status := OutcomeOf(a[i], b, i, io).status, result := OutcomeOf(a[i], b, i, io).result)
  }

  /** A write sent in a run from `a` to `b` was an executed row's, read afresh. */
  ghost predicate Justified(w: Write, a: seq<Row>, b: seq<Row>, io: IO) {
    && Executed(a, b, w.row, io)
    && OutcomeOf(a[w.row], b, w.row, io).write == Some(w)
    && Fresh(Filled(a[w.row], b), io[w.row])
  }

  lemma ReadyStable(r: Row, a: seq<Row>, b: seq<Row>)
    requires Ready(r, a) && Absorbing(a, b)
    ensures Ready(r, b) && Filled(r, b) == Filled(r, a)
  {
    forall d | d in DependsOn(r) ensures 1 <= d <= |b| && b[d - 1] == a[d - 1] {}
    forall f | f in r.refs ensures IdOf(b, r.refs[f]) == IdOf(a, r.refs[f]) {
      assert r.refs[f] in DependsOn(r);
    }
    if r.refs != map[] {
      assert (map f | f in r.refs :: IdValue(IdOf(b, r.refs[f]))) == map f | f in r.refs :: IdValue(IdOf(a, r.refs[f]));
    }
  }

  lemma ExecutedStable(a: seq<Row>, b: seq<Row>, b': seq<Row>, i: nat, io: IO)
    requires Executed(a, b, i, io) && Absorbing(b, b') && b'[i] == b[i]
    ensures Executed(a, b', i, io) && OutcomeOf(a[i], b', i, io) == OutcomeOf(a[i], b, i, io)
    ensures Filled(a[i], b') == Filled(a[i], b)
  {
    ReadyStable(a[i], b, b');
  }

  /** What a run did so far: some approved rows were executed, and no other row changed. */
  ghost predicate Ran(a: seq<Row>, b: seq<Row>, io: IO, executed: set<nat>) {
    && Absorbing(a, b) && |io| == |a|
    && (forall i | i in executed :: Executed(a, b, i, io))
    && (forall i: nat | i < |a| && i !in executed :: b[i] == a[i])
  }

  /** What it wrote: the executed rows' own writes, each row's once. */
  ghost predicate Wrote(a: seq<Row>, b: seq<Row>, io: IO, executed: set<nat>, was: seq<Write>, log: seq<Write>) {
    && was <= log
    && (forall j: nat | |was| <= j < |log| :: log[j].row in executed && Justified(log[j], a, b, io))
    && (forall j: nat, k: nat | |was| <= j < k < |log| :: log[j].row != log[k].row)
  }

  /** Row i after its outcome. */
  function Recorded(rows: seq<Row>, i: nat, o: Outcome): seq<Row>
    requires i < |rows|
  {
    rows[i := rows[i].(status := o.status, result := o.result)]
  }

  function Logged(log: seq<Write>, o: Outcome): seq<Write> { if o.write.Some? then log + [o.write.value] else log }

  lemma RanStep(a: seq<Row>, b: seq<Row>, io: IO, executed: set<nat>, i: nat, o: Outcome)
    requires Ran(a, b, io, executed) && i < |a| && i !in executed && Runnable(a[i]) && Ready(a[i], b)
    requires o == OutcomeOf(a[i], b, i, io)
    ensures Absorbing(b, Recorded(b, i, o)) && Ran(a, Recorded(b, i, o), io, executed + {i})
  {
    var b' := Recorded(b, i, o);
    assert Absorbing(b, b');
    forall k | k in executed ensures Executed(a, b', k, io) { ExecutedStable(a, b, b', k, io); }
    ReadyStable(a[i], b, b');
  }

  lemma JustifiedStable(w: Write, a: seq<Row>, b: seq<Row>, b': seq<Row>, io: IO)
    requires Justified(w, a, b, io) && Absorbing(b, b') && b'[w.row] == b[w.row]
    ensures Justified(w, a, b', io)
  {
    ExecutedStable(a, b, b', w.row, io);
  }

  lemma JustifiedNow(w: Write, a: seq<Row>, b: seq<Row>, i: nat, o: Outcome, io: IO)
    requires |a| == |b| == |io| && i < |a| && Runnable(a[i]) && Ready(a[i], b) && b[i] == a[i] && Absorbing(b, Recorded(b, i, o))
    requires o == OutcomeOf(a[i], b, i, io) && o.write == Some(w)
    ensures w.row == i && Justified(w, a, Recorded(b, i, o), io)
  {
    ReadyStable(a[i], b, Recorded(b, i, o));
    RowMeaning(i, Filled(a[i], b), io[i]);
  }

  lemma WroteStep(a: seq<Row>, b: seq<Row>, io: IO, executed: set<nat>, was: seq<Write>, log: seq<Write>, i: nat, o: Outcome)
    requires Ran(a, b, io, executed) && Wrote(a, b, io, executed, was, log)
    requires i < |a| && i !in executed && Runnable(a[i]) && Ready(a[i], b) && o == OutcomeOf(a[i], b, i, io)
    ensures Ran(a, Recorded(b, i, o), io, executed + {i}) && Wrote(a, Recorded(b, i, o), io, executed + {i}, was, Logged(log, o))
    ensures o.status in {Applied, Failed, Stale, Skipped}
  {
    var b', log' := Recorded(b, i, o), Logged(log, o);
    RowMeaning(i, Filled(a[i], b), io[i]);
    RanStep(a, b, io, executed, i, o);
    forall j: nat | |was| <= j < |log| ensures Justified(log[j], a, b', io) {
      JustifiedStable(log[j], a, b, b', io);
    }
    if o.write.Some? { JustifiedNow(o.write.value, a, b, i, o, io); }
  }

  // ---------------------------------------------------------------- the log over any executions and approvals

  /** What Autotask answered to the row when it was written: its record read as planned, and this is what that sends. */
  ghost predicate ReadAfresh(w: Write, x: Replies, rows: seq<Row>) {
    w.row < |rows| && Fresh(Filled(rows[w.row], rows), x) && RunRow(w.row, Filled(rows[w.row], rows), x).write == Some(w)
  }

  /** A write that was sent: an approved row's, read afresh, with what it depends on in and the ids of the rows it refers to filled in. */
  ghost predicate Lawful(w: Write, x: Replies, rows: seq<Row>, approved: set<nat>) {
    && w.row < |rows| && w.row in approved && !rows[w.row].blocked && rows[w.row].action != Manual && rows[w.row].action != Info
    && Ready(rows[w.row], rows) && ReadAfresh(w, x, rows)
    && w.entity == rows[w.row].entity && w.fields == After(Filled(rows[w.row], rows))
    && w.Created? == (rows[w.row].action == Create) && (w.Updated? ==> Some(w.id) == rows[w.row].target)
  }

  /** The log, with what Autotask had answered to the row of each write. */
  ghost predicate LogOk(rows: seq<Row>, log: seq<Write>, seen: seq<Replies>, approved: set<nat>) {
    && (forall i | 0 <= i < |rows| && rows[i].status == Approved :: i in approved)
    && |seen| == |log| && forall k | 0 <= k < |log| :: Lawful(log[k], seen[k], rows, approved)
  }

  /** An execution keeps with each write what Autotask had answered to its row. */
  ghost predicate Noted(was: seq<Write>, seenWas: seq<Replies>, log: seq<Write>, seen: seq<Replies>, io: IO) {
    was <= log && seenWas <= seen && |seen| == |log| && forall k | |was| <= k < |log| :: log[k].row < |io| && seen[k] == io[log[k].row]
  }

  /** A row's own status and result play no part in what it reads and writes. */
  lemma RunAside(n: nat, x: Replies, r: Row, r': Row)
    requires r' == r.(status := r'.status, result := r'.result)
    ensures Fresh(r', x) == Fresh(r, x) && RunRow(n, r', x) == RunRow(n, r, x) && After(r') == After(r)
  {
  }

  lemma StatusAside(w: Write, x: Replies, r: Row, r': Row, rows: seq<Row>)
    requires r' == r.(status := r'.status, result := r'.result)
    ensures Fresh(Filled(r', rows), x) == Fresh(Filled(r, rows), x)
    ensures RunRow(w.row, Filled(r', rows), x) == RunRow(w.row, Filled(r, rows), x)
    ensures After(Filled(r', rows)) == After(Filled(r, rows))
  {
    assert Filled(r', rows) == Filled(r, rows).(status := r'.status, result := r'.result);
    RunAside(w.row, x, Filled(r, rows), Filled(r', rows));
  }

  lemma LawfulStays(w: Write, x: Replies, a: seq<Row>, b: seq<Row>, was: set<nat>, now: set<nat>)
    requires Lawful(w, x, a, was) && Absorbing(a, b) && was <= now
    ensures Lawful(w, x, b, now)
  {
    ReadyStable(a[w.row], a, b);
    assert b[w.row] == a[w.row].(status := b[w.row].status, result := b[w.row].result);
    StatusAside(w, x, a[w.row], b[w.row], b);
  }

  lemma JustifiedLawful(w: Write, a: seq<Row>, b: seq<Row>, io: IO, approved: set<nat>)
    requires Justified(w, a, b, io) && Absorbing(a, b) && w.row in approved
    ensures Lawful(w, io[w.row], b, approved)
  {
    RowMeaning(w.row, Filled(a[w.row], b), io[w.row]);
    assert b[w.row] == a[w.row].(status := b[w.row].status, result := b[w.row].result);
    StatusAside(w, io[w.row], a[w.row], b[w.row], b);
  }

  lemma LogAfterRun(a: seq<Row>, b: seq<Row>, io: IO, executed: set<nat>, was: seq<Write>, log: seq<Write>, seen: seq<Replies>, approved: set<nat>)
    returns (now: seq<Replies>)
    requires LogOk(a, was, seen, approved) && Ran(a, b, io, executed) && Wrote(a, b, io, executed, was, log)
    ensures LogOk(b, log, now, approved) && Noted(was, seen, log, now, io)
  {
    forall k: nat | |was| <= k < |log| ensures log[k].row < |io| { assert Executed(a, b, log[k].row, io); }
    now := seq(|log|, k requires 0 <= k < |log| => if k < |was| then seen[k] else io[log[k].row]);
    forall k: nat | k < |log| ensures Lawful(log[k], now[k], b, approved) {
      if k < |was| {
        LawfulStays(log[k], seen[k], a, b, approved, approved);
      } else {
        assert Executed(a, b, log[k].row, io);
        JustifiedLawful(log[k], a, b, io, approved);
      }
    }
    forall i: nat | i < |b| && b[i].status == Approved ensures i in approved {
      if i in executed { assert Executed(a, b, i, io); RowMeaning(i, Filled(a[i], b), io[i]); }
    }
  }

  function ApprovedRows(rows: seq<Row>): set<nat> { set i: nat | i < |rows| && rows[i].status == Approved }

  lemma LogAfterApproval(a: seq<Row>, b: seq<Row>, log: seq<Write>, seen: seq<Replies>, was: set<nat>, now: set<nat>)
    requires LogOk(a, log, seen, was) && Absorbing(a, b) && now == was + ApprovedRows(b)
    ensures LogOk(b, log, seen, now)
  {
    forall k: nat | k < |log| ensures Lawful(log[k], seen[k], b, now) { LawfulStays(log[k], seen[k], a, b, was, now); }
  }

  lemma AbsorbingTransitive(a: seq<Row>, b: seq<Row>, c: seq<Row>)
    requires Absorbing(a, b) && Absorbing(b, c)
    ensures Absorbing(a, c)
  {
    forall i: nat | i < |a| ensures c[i] == a[i].(status := c[i].status, result := c[i].result) && (Done(a[i].status) || a[i].status == Stale ==> c[i] == a[i]) {
      assert b[i] == a[i].(status := b[i].status, result := b[i].result);
      assert c[i] == b[i].(status := c[i].status, result := c[i].result);
    }
  }

  // ---------------------------------------------------------------- at most one record per create row

  lemma {:induction false} MadeBefore(was: seq<Write>, log: seq<Write>, n: nat)
    requires was <= log && forall j: nat | |was| <= j < |log| :: log[j].row != n
    ensures Made(log, n) == Made(was, n)
    decreases |log|
  {
    if |log| > |was| {
      MadeBefore(was, log[..|log| - 1], n);
    } else {
      assert log == was;
    }
  }

  lemma {:induction false} OnlyOnce(a: seq<Row>, b: seq<Row>, io: IO, executed: set<nat>, was: seq<Write>, log: seq<Write>)
    requires Wrote(a, b, io, executed, was, log) && SeesEarlier(a, was, io) && MadeOnce(was)
    ensures MadeOnce(log)
    decreases |log|
  {
    if |log| > |was| {
      var front, w := log[..|log| - 1], log[|log| - 1];
      OnlyOnce(a, b, io, executed, was, front);
      assert Justified(w, a, b, io);
      RowMeaning(w.row, Filled(a[w.row], b), io[w.row]);
      MadeBefore(was, front, w.row);
      forall n: nat ensures Made(log, n) <= 1 { assert Made(front, n) <= 1; }
    } else {
      assert log == was;
    }
  }

  // ---------------------------------------------------------------- the rows of one execution

  predicate Wants(r: Row, rowNo: int, rowNos: seq<int>) {
    r.status == Approved && r.action != Manual && (rowNos == [] || rowNo in rowNos)
  }

  /** The approved rows among the first n, in order. */
  function Wanted(rows: seq<Row>, rowNos: seq<int>, n: nat): (t: seq<nat>)
    requires n <= |rows|
    ensures forall i: nat :: i in t <==> i < n && Wants(rows[i], i + 1, rowNos)
    ensures Ascends(t)
  {
    if n == 0 then []
    else
      var t := Wanted(rows, rowNos, n - 1);
      assert forall j | 0 <= j < |t| :: t[j] in t;
      t + if Wants(rows[n - 1], n, rowNos) then [n - 1] else []
  }

  /** How many rows one execution takes. */
  function Cap(maxRows: Option<int>): (k: nat)
    ensures 1 <= k <= 100
  {
    var m := if maxRows.Some? then maxRows.value else 25;
    if m < 1 then 1 else if m > 100 then 100 else m
  }

  function Todo(rows: seq<Row>, rowNos: seq<int>, maxRows: Option<int>): seq<nat> {
    var all := Wanted(rows, rowNos, |rows|);
    if |all| <= Cap(maxRows) then all else all[..Cap(maxRows)]
  }

  predicate Ascends(t: seq<nat>) { forall j, k :: 0 <= j < k < |t| ==> t[j] < t[k] }

  lemma PrefixAt(all: seq<nat>, todo: seq<nat>, k: nat)
    requires Ascends(all) && todo <= all && k < |todo|
    ensures todo[k] == all[k] && all[k] in all && todo[k] !in todo[..k] && todo[..k] == all[..k] && todo[..k + 1] == todo[..k] + [todo[k]]
  {
  }

  lemma WantedIs(rows: seq<Row>, rowNos: seq<int>, i: nat)
    requires i in Wanted(rows, rowNos, |rows|)
    ensures i < |rows| && Wants(rows[i], i + 1, rowNos)
  {
  }

  /** What is executed k-th: an approved row, not met before, next in line. */
  lemma TodoIs(rows: seq<Row>, rowNos: seq<int>, maxRows: Option<int>, k: nat)
    requires k < |Todo(rows, rowNos, maxRows)|
    ensures var todo, all := Todo(rows, rowNos, maxRows), Wanted(rows, rowNos, |rows|);
            && todo[k] < |rows| && Wants(rows[todo[k]], todo[k] + 1, rowNos) && todo[k] !in todo[..k]
            && k < |all| && todo[k] == all[k] && todo[..k] == all[..k] && todo[..k + 1] == todo[..k] + [todo[k]]
  {
    PrefixAt(Wanted(rows, rowNos, |rows|), Todo(rows, rowNos, maxRows), k);
    WantedIs(rows, rowNos, Wanted(rows, rowNos, |rows|)[k]);
  }

  predicate Numbered(rows: seq<Row>, n: int) { 1 <= n <= |rows| }

  function StatusOf(rows: seq<Row>, n: int): Status
    requires Numbered(rows, n)
  {
    rows[n - 1].status
  }

  function StatusMap(rows: seq<Row>): map<int, Status> {
    map n: int | 1 <= n <= |rows| && Numbered(rows, n) :: StatusOf(rows, n)
  }

  function IdMap(rows: seq<Row>): map<int, Option<int>> {
    map n: int | 1 <= n <= |rows| && Numbered(rows, n) && Done(StatusOf(rows, n)) :: IdOf(rows, n)
  }

  /** What the executor keeps in memory says what the store would. */
  lemma MapsTell(r: Row, rows: seq<Row>, statusNow: map<int, Status>, idNow: map<int, Option<int>>)
    requires statusNow == StatusMap(rows) && idNow == IdMap(rows)
    ensures Ready(r, rows) <==>
            && (forall d | d in DependsOn(r) :: d in statusNow && Done(statusNow[d]))
            && (forall f | f in r.refs :: r.refs[f] in idNow && idNow[r.refs[f]].Some?)
  {
    forall f | f in r.refs ensures r.refs[f] in DependsOn(r) {}
    forall n: int ensures n in statusNow <==> Numbered(rows, n) {}
  }

  /** Recording an outcome keeps the two in step. */
  lemma MapsStep(rows: seq<Row>, i: nat, o: Outcome)
    requires i < |rows| && !Done(rows[i].status)
    ensures var b := Recorded(rows, i, o);
            && StatusMap(b) == StatusMap(rows)[i + 1 := o.status]
            && IdMap(b) == if Done(o.status) then IdMap(rows)[i + 1 := RowId(b[i])] else IdMap(rows)
  {
  }

  function LeftOpen(rows: seq<Row>): bool { exists i | 0 <= i < |rows| :: rows[i].status == Approved || rows[i].status == Pending }

  // ---------------------------------------------------------------- progress

  function Elements(t: seq<nat>): set<nat> { set i | i in t }

  /** Rows point only at earlier rows. */
  ghost predicate Backward(rows: seq<Row>) {
    forall i, d | 0 <= i < |rows| && d in DependsOn(rows[i]) :: 1 <= d <= i
  }

  /** Applied or found in place, and standing for the id (if any). */
  predicate Succeeds(r: Row, o: Outcome, id: Option<int>) { Done(o.status) && !o.stop && RowId(r.(result := o.result)) == id }

  /** The id row number n will stand for. */
  function IdThen(ids: seq<Option<int>>, n: int): Option<int> { if 1 <= n <= |ids| then ids[n - 1] else None }

  /** A row with its references filled from the ids the rows will stand for. */
  function Expected(r: Row, ids: seq<Option<int>>): Row {
    if r.refs == map[] then r
    else r.(after := Some(After(r) + map f | f in r.refs :: IdValue(IdThen(ids, r.refs[f]))))
  }

  predicate DoneAs(r: Row, id: Option<int>) { Done(r.status) && RowId(r) == id }

  /** Everything row i depends on comes before it and is done or runnable too, and what it refers to will have an id. */
  ghost predicate Supplied(rows: seq<Row>, ids: seq<Option<int>>, i: nat) {
    && i < |rows| == |ids|
    && (forall d | d in DependsOn(rows[i]) :: 1 <= d <= i && (DoneAs(rows[d - 1], ids[d - 1]) || Runnable(rows[d - 1])))
    && (forall f | f in rows[i].refs :: IdThen(ids, rows[i].refs[f]).Some?)
  }

  /** Row i may be run, and succeeds once its references are filled. */
  ghost predicate GoesWell(rows: seq<Row>, io: IO, ids: seq<Option<int>>, i: nat) {
    && i < |rows| == |io| == |ids| && Runnable(rows[i]) && Supplied(rows, ids, i)
    && Succeeds(rows[i], RunRow(i, Expected(rows[i], ids), io[i]), ids[i])
  }

  /**
   * A plan on a good day: what is approved (a person's steps aside) depends only on earlier rows that are done or
   * approved too, and succeeds; `ids` are what those rows stand for in the end. Other rows may be as they are.
   */
  ghost predicate Smooth(rows: seq<Row>, io: IO, ids: seq<Option<int>>) {
    && |io| == |rows| == |ids|
    && forall i: nat | i < |rows| && Wants(rows[i], i + 1, []) :: GoesWell(rows, io, ids, i)
  }

  /** A plan with every row approved. */
  function Approve(rows: seq<Row>): (r: seq<Row>)
    ensures |r| == |rows| && forall j | 0 <= j < |rows| :: r[j] == rows[j].(status := Approved)
  {
    seq(|rows|, j requires 0 <= j < |rows| => rows[j].(status := Approved))
  }

  /** Everything before position k of an ascending list that is smaller is in the first k. */
  lemma InPrefix(all: seq<nat>, k: nat, j: nat)
    requires Ascends(all) && k < |all| && j in all && j < all[k]
    ensures j in all[..k]
  {
    var t :| 0 <= t < |all| && all[t] == j;
    assert all[..k][t] == j;
  }

  /** Once what it refers to is done, a row is filled as expected. */
  lemma {:induction false} FilledAsExpected(r: Row, b: seq<Row>, ids: seq<Option<int>>)
    requires forall f | f in r.refs :: IdOf(b, r.refs[f]) == IdThen(ids, r.refs[f])
    ensures Filled(r, b) == Expected(r, ids)
  {
    if r.refs != map[] {
      assert (map f | f in r.refs :: IdValue(IdOf(b, r.refs[f]))) == map f | f in r.refs :: IdValue(IdThen(ids, r.refs[f]));
    }
  }

  /** ... and ready, and succeeds. */
  lemma {:induction false} EarlierDone(a: seq<Row>, b: seq<Row>, io: IO, ids: seq<Option<int>>, i: nat)
    requires GoesWell(a, io, ids, i) && |b| == |a|
    requires forall d | d in DependsOn(a[i]) :: DoneAs(b[d - 1], ids[d - 1])
    ensures Ready(a[i], b) && Succeeds(a[i], OutcomeOf(a[i], b, i, io), ids[i])
  {
    var r := a[i];
    forall f | f in r.refs ensures IdOf(b, r.refs[f]) == IdThen(ids, r.refs[f]) { assert r.refs[f] in DependsOn(r); }
    FilledAsExpected(r, b, ids);
  }

  /** By its turn, what the next row in line depends on is done. */
  lemma {:induction false} BeforeDone(a: seq<Row>, b: seq<Row>, io: IO, ids: seq<Option<int>>, executed: set<nat>, all: seq<nat>, k: nat, j: nat)
    requires Ran(a, b, io, executed) && all == Wanted(a, [], |a|) && k < |all| && executed == Elements(all[..k])
    requires j < all[k] && j < |a| == |ids| && (DoneAs(a[j], ids[j]) || Runnable(a[j]))
    requires forall i | i in executed :: DoneAs(b[i], ids[i])
    ensures DoneAs(b[j], ids[j])
  {
    if j !in executed && Runnable(a[j]) {
      assert Wants(a[j], j + 1, []) && j in all;
      InPrefix(all, k, j);
    }
  }

  /** The next row in line is ready, and succeeds. */
  lemma {:induction false} SmoothReady(a: seq<Row>, b: seq<Row>, io: IO, ids: seq<Option<int>>, executed: set<nat>, all: seq<nat>, k: nat)
    requires Smooth(a, io, ids) && Ran(a, b, io, executed) && all == Wanted(a, [], |a|)
    requires k < |all| && executed == Elements(all[..k]) && forall j | j in executed :: DoneAs(b[j], ids[j])
    ensures all[k] < |a| && Ready(a[all[k]], b) && Succeeds(a[all[k]], OutcomeOf(a[all[k]], b, all[k], io), ids[all[k]])
  {
    var i := all[k];
    assert i in all && Wants(a[i], i + 1, []);
    assert GoesWell(a, io, ids, i);
    forall d | d in DependsOn(a[i]) ensures DoneAs(b[d - 1], ids[d - 1]) { BeforeDone(a, b, io, ids, executed, all, k, d - 1); }
    EarlierDone(a, b, io, ids, i);
  }

  /** What the executor holds in memory. */
  datatype Memory = Memory(statusNow: map<int, Status>, idNow: map<int, Option<int>>, rep: Report)

  function Remembered(m: Memory, i: nat, o: Option<Outcome>, rows: seq<Row>): Memory
    requires i < |rows|
  {
    if o.None? then m.(rep := m.rep.(waiting := m.rep.waiting + 1))
    else Memory(m.statusNow[i + 1 := o.value.status], if Done(o.value.status) then m.idNow[i + 1 := RowId(rows[i])] else m.idNow,
                Counted(m.rep, o.value.status).(stopped := o.value.stop))
  }

  predicate Recalls(m: Memory, rows: seq<Row>) { m.statusNow == StatusMap(rows) && m.idNow == IdMap(rows) }

  function With(executed: set<nat>, i: nat, o: Option<Outcome>): set<nat> { if o.Some? then executed + {i} else executed }

  /** The rows executed so far are among the first k in line; on a good day all of them are, and done. */
  ghost predicate InLine(a: seq<Row>, b: seq<Row>, rowNos: seq<int>, io: IO, ids: seq<Option<int>>, executed: set<nat>, todo: seq<nat>, k: nat, stopped: bool) {
    && k <= |todo| && executed <= Elements(todo[..k])
    && (Smooth(a, io, ids) && rowNos == [] ==>
          executed == Elements(todo[..k]) && !stopped && forall j | j in executed :: j < |b| == |ids| && DoneAs(b[j], ids[j]))
  }

  lemma SucceededDone(b: seq<Row>, i: nat, o: Outcome, ids: seq<Option<int>>, executed: set<nat>)
    requires i < |b| == |ids| && Succeeds(b[i], o, ids[i]) && i !in executed
    requires forall j | j in executed :: j < |b| && DoneAs(b[j], ids[j])
    ensures var b' := Recorded(b, i, o); |b'| == |ids| && forall j | j in executed + {i} :: j < |b'| && DoneAs(b'[j], ids[j])
  {
  }

  /** The next row in line was tried. */
  lemma InLineStep(a: seq<Row>, b: seq<Row>, rowNos: seq<int>, maxRows: Option<int>, io: IO, ids: seq<Option<int>>, executed: set<nat>, k: nat, i: nat,
                   o: Option<Outcome>, b': seq<Row>)
    requires Ran(a, b, io, executed) && k < |Todo(a, rowNos, maxRows)| && i == Todo(a, rowNos, maxRows)[k] && i < |a|
    requires InLine(a, b, rowNos, io, ids, executed, Todo(a, rowNos, maxRows), k, false)
    requires o == (if Ready(a[i], b) then Some(OutcomeOf(a[i], b, i, io)) else None) && b' == if o.Some? then Recorded(b, i, o.value) else b
    ensures Wants(a[i], i + 1, rowNos) && i !in executed
    ensures InLine(a, b', rowNos, io, ids, With(executed, i, o), Todo(a, rowNos, maxRows), k + 1, o.Some? && o.value.stop)
  {
    var todo := Todo(a, rowNos, maxRows);
    TodoIs(a, rowNos, maxRows, k);
    assert Elements(todo[..k + 1]) == Elements(todo[..k]) + {i};
    if Smooth(a, io, ids) && rowNos == [] {
      SmoothReady(a, b, io, ids, executed, Wanted(a, [], |a|), k);
      SucceededDone(b, i, OutcomeOf(a[i], b, i, io), ids, executed);
    }
  }

  /** k rows tried, n of them executed, each counted under its status. */
  predicate Tally(rep: Report, n: nat, k: nat) {
    rep.attempted == rep.applied + rep.failed + rep.stale + rep.skipped == n && rep.attempted + rep.waiting == k
  }

  lemma TallyStep(m: Memory, executed: set<nat>, k: nat, i: nat, o: Option<Outcome>, rows: seq<Row>)
    requires Tally(m.rep, |executed|, k) && i !in executed && i < |rows| && (o.Some? ==> o.value.status in {Applied, Failed, Stale, Skipped})
    ensures Tally(Remembered(m, i, o, rows).rep, |With(executed, i, o)|, k + 1)
  {
  }

  lemma RecallsStep(m: Memory, b: seq<Row>, i: nat, o: Option<Outcome>, b': seq<Row>)
    requires Recalls(m, b) && i < |b| && !Done(b[i].status) && b' == if o.Some? then Recorded(b, i, o.value) else b
    ensures Recalls(Remembered(m, i, o, b'), b')
  {
    if o.Some? { MapsStep(b, i, o.value); }
  }

  /** Midway through an execution of `a`, k rows of the line tried. */
  ghost predicate Midway(a: seq<Row>, rowNos: seq<int>, maxRows: Option<int>, io: IO, ids: seq<Option<int>>, was: seq<Write>,
                         b: seq<Row>, log: seq<Write>, m: Memory, executed: set<nat>, k: nat) {
    && Ran(a, b, io, executed) && Wrote(a, b, io, executed, was, log)
    && InLine(a, b, rowNos, io, ids, executed, Todo(a, rowNos, maxRows), k, m.rep.stopped)
    && Tally(m.rep, |executed|, k) && Recalls(m, b)
  }

  lemma MidwayStep(a: seq<Row>, rowNos: seq<int>, maxRows: Option<int>, io: IO, ids: seq<Option<int>>, was: seq<Write>,
                   b: seq<Row>, log: seq<Write>, m: Memory, executed: set<nat>, k: nat, i: nat, o: Option<Outcome>, b': seq<Row>, log': seq<Write>)
    requires Midway(a, rowNos, maxRows, io, ids, was, b, log, m, executed, k) && !m.rep.stopped && ApprovalsOk(a)
    requires k < |Todo(a, rowNos, maxRows)| && i == Todo(a, rowNos, maxRows)[k] && i < |a|
    requires o == if Ready(a[i], b) then Some(OutcomeOf(a[i], b, i, io)) else None
    requires b' == (if o.Some? then Recorded(b, i, o.value) else b) && log' == if o.Some? then Logged(log, o.value) else log
    ensures Midway(a, rowNos, maxRows, io, ids, was, b', log', Remembered(m, i, o, b'), With(executed, i, o), k + 1)
  {
    InLineStep(a, b, rowNos, maxRows, io, ids, executed, k, i, o, b');
    if o.Some? { WroteStep(a, b, io, executed, was, log, i, o.value); }
    TallyStep(m, executed, k, i, o, b');
    RecallsStep(m, b, i, o, b');
  }

  lemma MidwayStart(a: seq<Row>, rowNos: seq<int>, maxRows: Option<int>, io: IO, ids: seq<Option<int>>, log: seq<Write>)
    requires |io| == |a|
    ensures Midway(a, rowNos, maxRows, io, ids, log, a, log, Memory(StatusMap(a), IdMap(a), Report(0, 0, 0, 0, 0, 0, false)), {}, 0)
  {
    assert Elements(Todo(a, rowNos, maxRows)[..0]) == {};
  }

  lemma MidwayEnd(a: seq<Row>, rowNos: seq<int>, maxRows: Option<int>, io: IO, ids: seq<Option<int>>, was: seq<Write>,
                  b: seq<Row>, log: seq<Write>, m: Memory, executed: set<nat>, k: nat)
    requires Midway(a, rowNos, maxRows, io, ids, was, b, log, m, executed, k) && (k == |Todo(a, rowNos, maxRows)| || m.rep.stopped)
    requires ApprovalsOk(a)
    ensures ApprovalsOk(b)
    ensures MadeOnce(was) && SeesEarlier(a, was, io) ==> MadeOnce(log)
    ensures executed <= Elements(Todo(a, rowNos, maxRows))
    ensures Tally(m.rep, |executed|, m.rep.attempted + m.rep.waiting)
    ensures !m.rep.stopped ==> m.rep.attempted + m.rep.waiting == |Todo(a, rowNos, maxRows)|
    ensures Smooth(a, io, ids) && rowNos == [] ==> executed == Elements(Todo(a, [], maxRows)) && forall i | i in executed :: DoneAs(b[i], ids[i])
  {
    var todo := Todo(a, rowNos, maxRows);
    forall i | 0 <= i < |b| && b[i].status == Approved ensures !b[i].blocked && b[i].action != Info {
      if i in executed { RowMeaning(i, Filled(a[i], b), io[i]); }
    }
    if MadeOnce(was) && SeesEarlier(a, was, io) { OnlyOnce(a, b, io, executed, was, log); }
    if k == |todo| { assert todo[..k] == todo; }
  }

  /**
   * One execution took the plan from a to b: what ran and what it wrote, each row counted under its outcome and every
   * row in line tried unless it was stopped; on a good day all of them are done.
   */
  ghost predicate WentThrough(a: seq<Row>, b: seq<Row>, rowNos: seq<int>, maxRows: Option<int>, io: IO, ids: seq<Option<int>>, executed: set<nat>,
                            was: seq<Write>, log: seq<Write>, rep: Report) {
    && Ran(a, b, io, executed) && Wrote(a, b, io, executed, was, log)
    && executed <= Elements(Todo(a, rowNos, maxRows))
    && Tally(rep, |executed|, rep.attempted + rep.waiting)
    && (!rep.stopped ==> rep.attempted + rep.waiting == |Todo(a, rowNos, maxRows)|)
    && (Smooth(a, io, ids) && rowNos == [] ==> executed == Elements(Todo(a, [], maxRows)) && forall i | i in executed :: DoneAs(b[i], ids[i]))
  }

  lemma ExecutionEnd(a: seq<Row>, rowNos: seq<int>, maxRows: Option<int>, io: IO, ids: seq<Option<int>>, was: seq<Write>,
                     b: seq<Row>, log: seq<Write>, m: Memory, executed: set<nat>, k: nat, seen: seq<Replies>, approved: set<nat>)
    returns (now: seq<Replies>)
    requires Midway(a, rowNos, maxRows, io, ids, was, b, log, m, executed, k) && (k == |Todo(a, rowNos, maxRows)| || m.rep.stopped)
    requires ApprovalsOk(a) && LogOk(a, was, seen, approved)
    ensures ApprovalsOk(b) && LogOk(b, log, now, approved) && Noted(was, seen, log, now, io)
    ensures MadeOnce(was) && SeesEarlier(a, was, io) ==> MadeOnce(log)
    ensures WentThrough(a, b, rowNos, maxRows, io, ids, executed, was, log, m.rep)
  {
    MidwayEnd(a, rowNos, maxRows, io, ids, was, b, log, m, executed, k);
    now := LogAfterRun(a, b, io, executed, was, log, seen, approved);
  }

  // ---------------------------------------------------------------- how many executions a plan needs

  lemma {:induction false} AscendingSize(t: seq<nat>)
    requires Ascends(t)
    ensures |Elements(t)| == |t|
    decreases |t|
  {
    if t == [] {
      assert Elements(t) == {};
    } else {
      var front, last := t[..|t| - 1], t[|t| - 1];
      AscendingSize(front);
      assert Elements(t) == Elements(front) + {last};
      assert last !in Elements(front);
    }
  }

  /** The rows still to be executed. */
  function ToRun(rows: seq<Row>): nat { |Wanted(rows, [], |rows|)| }

  /** The rows left to run are those that were, less those executed and done. */
  lemma LeftToRun(a: seq<Row>, b: seq<Row>, io: IO, executed: set<nat>)
    requires Ran(a, b, io, executed) && forall i | i in executed :: Done(b[i].status)
    ensures Elements(Wanted(b, [], |b|)) == Elements(Wanted(a, [], |a|)) - executed
  {
    forall i: nat ensures i in Wanted(b, [], |b|) <==> i in Wanted(a, [], |a|) && i !in executed {
      assert i in executed ==> i < |b| && Done(b[i].status);
      assert i < |a| && i !in executed ==> b[i] == a[i];
    }
  }

  /** An execution on a good day finishes as many rows as it takes. */
  lemma FewerToRun(a: seq<Row>, b: seq<Row>, io: IO, ids: seq<Option<int>>, maxRows: Option<int>, executed: set<nat>)
    requires Ran(a, b, io, executed) && executed == Elements(Todo(a, [], maxRows)) && |ids| == |b| && forall i | i in executed :: DoneAs(b[i], ids[i])
    ensures ToRun(b) == if ToRun(a) <= Cap(maxRows) then 0 else ToRun(a) - Cap(maxRows)
  {
    forall i | i in executed ensures Done(b[i].status) { assert DoneAs(b[i], ids[i]); }
    LeftToRun(a, b, io, executed);
    PrefixLeft(Wanted(a, [], |a|), Todo(a, [], maxRows), Wanted(b, [], |b|));
  }

  lemma PrefixLeft(was: seq<nat>, todo: seq<nat>, now: seq<nat>)
    requires Ascends(was) && Ascends(now) && todo <= was && Elements(now) == Elements(was) - Elements(todo)
    ensures |now| == |was| - |todo|
  {
    assert Ascends(todo);
    AscendingSize(was);
    AscendingSize(now);
    AscendingSize(todo);
    forall i | i in todo ensures i in was {}
    assert |Elements(was) - Elements(todo)| == |Elements(was)| - |Elements(todo)|;
  }

  /** A good day's plan stays one. */
  lemma {:induction false} SmoothAfter(a: seq<Row>, b: seq<Row>, io: IO, next: IO, ids: seq<Option<int>>, executed: set<nat>)
    requires Smooth(a, next, ids) && Ran(a, b, io, executed) && forall i | i in executed :: DoneAs(b[i], ids[i])
    ensures Smooth(b, next, ids)
  {
    forall i: nat | i < |b| && Wants(b[i], i + 1, []) ensures GoesWell(b, next, ids, i) {
      assert i !in executed && b[i] == a[i];
      assert GoesWell(a, next, ids, i);
      forall d | d in DependsOn(b[i]) ensures DoneAs(b[d - 1], ids[d - 1]) || Runnable(b[d - 1]) {
        var j: nat := d - 1;
        assert j !in executed ==> b[j] == a[j];
      }
    }
  }

  /** Rows still to be executed have made nothing yet. */
  ghost predicate NothingMade(rows: seq<Row>, log: seq<Write>) {
    forall i: nat | i < |rows| && rows[i].status == Approved :: Made(log, i) == 0
  }

  lemma NothingMadeAfter(a: seq<Row>, b: seq<Row>, io: IO, executed: set<nat>, was: seq<Write>, log: seq<Write>)
    requires Ran(a, b, io, executed) && Wrote(a, b, io, executed, was, log) && NothingMade(a, was)
    requires forall i | i in executed :: Done(b[i].status)
    ensures NothingMade(b, log)
  {
    forall i: nat | i < |b| && b[i].status == Approved ensures Made(log, i) == 0 {
      assert i !in executed && b[i] == a[i];
      MadeBefore(was, log, i);
    }
  }

  function Executions(n: nat, k: nat): nat
    requires k > 0
  {
    if n == 0 then 0 else 1 + Executions(if n <= k then 0 else n - k, k)
  }

  /** n / k, rounded up. */
  lemma {:induction false} ExecutionsIs(n: nat, k: nat)
    requires k > 0
    ensures n <= Executions(n, k) * k < n + k
    decreases n
  {
    if n > k {
      ExecutionsIs(n - k, k);
      var e := Executions(n - k, k);
      assert (e + 1) * k == e * k + k;
    }
  }

  /** A good day: nothing waiting has made a record, and the plan runs smoothly. */
  ghost predicate GoodDay(rows: seq<Row>, log: seq<Write>, io: IO, ids: seq<Option<int>>) { NothingMade(rows, log) && Smooth(rows, io, ids) }

  ghost predicate GoodDays(rows: seq<Row>, log: seq<Write>, ios: seq<IO>, ids: seq<Option<int>>) {
    forall t | 0 <= t < |ios| :: GoodDay(rows, log, ios[t], ids)
  }

  lemma GoodDaysAfter(a: seq<Row>, b: seq<Row>, io: IO, ios: seq<IO>, ids: seq<Option<int>>, executed: set<nat>, was: seq<Write>, log: seq<Write>)
    requires GoodDays(a, was, ios, ids) && Ran(a, b, io, executed) && Wrote(a, b, io, executed, was, log)
    requires |ids| == |b| && forall i | i in executed :: DoneAs(b[i], ids[i])
    ensures GoodDays(b, log, ios, ids)
  {
    forall t | 0 <= t < |ios| ensures GoodDay(b, log, ios[t], ids) {
      assert GoodDay(a, was, ios[t], ids);
      SmoothAfter(a, b, io, ios[t], ids, executed);
      NothingMadeAfter(a, b, io, executed, was, log);
    }
  }

  /** From a to b nothing changed but runnable rows, which are done. */
  ghost predicate Onward(a: seq<Row>, b: seq<Row>, ids: seq<Option<int>>) {
    |a| == |b| && forall i: nat | i < |a| :: b[i] == a[i] || (Runnable(a[i]) && i < |ids| && DoneAs(b[i], ids[i]))
  }

  lemma {:induction false} OnwardAfter(start: seq<Row>, a: seq<Row>, b: seq<Row>, io: IO, ids: seq<Option<int>>, executed: set<nat>)
    requires Onward(start, a, ids) && Ran(a, b, io, executed) && |ids| == |b| && forall i | i in executed :: DoneAs(b[i], ids[i])
    ensures Onward(start, b, ids)
  {
    forall i: nat | i < |b| ensures b[i] == start[i] || (Runnable(start[i]) && i < |ids| && DoneAs(b[i], ids[i])) {
      if i in executed { assert Executed(a, b, i, io); }
    }
  }

  /** Nothing left to run: what could be run is done. */
  lemma {:induction false} AllDone(start: seq<Row>, rows: seq<Row>, ids: seq<Option<int>>)
    requires Onward(start, rows, ids) && ToRun(rows) == 0
    ensures forall i | 0 <= i < |rows| :: if Runnable(start[i]) then i < |ids| && DoneAs(rows[i], ids[i]) else rows[i] == start[i]
  {
    var left := Wanted(rows, [], |rows|);
    forall i: nat | i < |rows| && Runnable(start[i]) ensures i < |ids| && DoneAs(rows[i], ids[i]) {
      assert i !in left;
    }
  }
}
