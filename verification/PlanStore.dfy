/** The plan store and the executor. */
module PlanStores {
  import opened Base
  import opened ChangePlans

  datatype Event = Approval(hash: string, rowNos: seq<int>, approve: bool) | Execution(rowNos: seq<int>, maxRows: Option<int>, io: IO)

  class PlanStore {
    var rows: seq<Row>
    var status: PlanStatus
    var log: seq<Write>
    const hash: string
    ghost var seen: seq<Replies>         // what Autotask had answered to the row of each write
    ghost var approved: set<nat>         // rows ever approved
    ghost var recalled: bool             // every execution so far saw the records its creates had made

    ghost predicate Valid()
      reads this
    {
      ApprovalsOk(rows) && LogOk(rows, log, seen, approved) && (recalled ==> MadeOnce(log))
    }

    /** A new plan: nothing approved; information rows are done with. */
    constructor (inputs: seq<Row>, hash: string)
      ensures Valid() && status == Open && log == [] && seen == [] && recalled && this.hash == hash && |rows| == |inputs|
      ensures forall i | 0 <= i < |inputs| :: rows[i] == inputs[i].(status := if inputs[i].action == Info then Skipped else Pending, result := NO_RESULT)
    {
      this.hash := hash;
      rows := seq(|inputs|, i requires 0 <= i < |inputs| =>
        inputs[i].(status := if inputs[i].action == Info then Skipped else Pending, result := NO_RESULT));
      status, log, seen, approved, recalled := Open, [], [], {}, true;
    }

    /** The answers to a write's row were those of one of the executions. */
    static ghost predicate Answered(events: seq<Event>, w: Write, x: Replies) {
      exists e :: e in events && e.Execution? && w.row < |e.io| && x == e.io[w.row]
    }

    static predicate Approvable(r: Row) {
      !r.blocked && r.action != Info && r.status in {Pending, Approved, Excluded, Failed}
    }

    /** The listed rows that may be, one by one. */
    method SetListed(rowNos: seq<int>, to: Status)
      requires ApprovalsOk(rows) && (to == Approved || to == Excluded)
      modifies `rows
      ensures ApprovalsOk(rows) && |rows| == |old(rows)|
      ensures forall i | 0 <= i < |rows| :: rows[i] == if (i + 1) in rowNos && Approvable(old(rows)[i]) then old(rows)[i].(status := to) else old(rows)[i]
    {
      var k := 0;
      while k < |rowNos|
        invariant 0 <= k <= |rowNos| && |rows| == |old(rows)| && ApprovalsOk(rows)
        invariant forall i | 0 <= i < |rows| ::
                    rows[i] == if (i + 1) in rowNos[..k] && Approvable(old(rows)[i]) then old(rows)[i].(status := to) else old(rows)[i]
      {
        var n := rowNos[k];
        if 1 <= n <= |rows| && Approvable(rows[n - 1]) {
          rows := rows[n - 1 := rows[n - 1].(status := to)];
        }
        k := k + 1;
      }
    }

    /** Approve or exclude rows of an open plan whose hash matches; the others are refused. */
    method SetApproval(hash: string, rowNos: seq<int>, approve: bool) returns (ok: bool)
      requires Valid()
      modifies `rows, `approved
      ensures Valid() && ok == (status == Open && hash == this.hash)
      ensures !ok ==> rows == old(rows)
      ensures approved == if ok then old(approved) + ApprovedRows(rows) else old(approved)
      ensures Absorbing(old(rows), rows)
      ensures ok ==> forall i | 0 <= i < |rows| ::
                rows[i] == if (i + 1) in rowNos && Approvable(old(rows)[i]) then old(rows)[i].(status := if approve then Approved else Excluded) else old(rows)[i]
    {
      ok := status == Open && hash == this.hash;
      if !ok { return; }
      SetListed(rowNos, if approve then Approved else Excluded);
      approved := approved + ApprovedRows(rows);
      LogAfterApproval(old(rows), rows, log, seen, old(approved), approved);
    }

    method SetRowResult(i: nat, o: Outcome)
      requires i < |rows|
      modifies `rows
      ensures rows == Recorded(old(rows), i, o)
    {
      rows := Recorded(rows, i, o);
    }

    /** One row: nothing while something it depends on is not in; else its outcome, recorded. */
    method TryRow(i: nat, r: Row, statusNow: map<int, Status>, idNow: map<int, Option<int>>, io: IO) returns (o: Option<Outcome>)
      requires i < |rows| == |io| && statusNow == StatusMap(rows) && idNow == IdMap(rows)
      modifies `rows, `log
      ensures |rows| == |old(rows)|
      ensures o.Some? <==> Ready(r, old(rows))
      ensures o.Some? ==> o.value == OutcomeOf(r, old(rows), i, io) && rows == Recorded(old(rows), i, o.value) && log == Logged(old(log), o.value)
      ensures o.None? ==> rows == old(rows) && log == old(log)
    {
      MapsTell(r, rows, statusNow, idNow);
      if && (forall d | d in DependsOn(r) :: d in statusNow && Done(statusNow[d]))
         && (forall f | f in r.refs :: r.refs[f] in idNow && idNow[r.refs[f]].Some?) {
        var x := Filled(r, rows);
        o := Some(RunRow(i, x, io[i]));
        log := Logged(log, o.value);
        SetRowResult(i, o.value);
      } else {
        o := None;
      }
    }

    /** The next row in line. */
    method TryNext(planned: seq<Row>, rowNos: seq<int>, maxRows: Option<int>, io: IO, ghost ids: seq<Option<int>>, ghost was: seq<Write>,
                   m: Memory, ghost executed: set<nat>, k: nat) returns (m': Memory, ghost executed': set<nat>)
      requires Midway(planned, rowNos, maxRows, io, ids, was, rows, log, m, executed, k)
      requires ApprovalsOk(planned) && k < |Todo(planned, rowNos, maxRows)| && !m.rep.stopped
      modifies `rows, `log
      ensures Midway(planned, rowNos, maxRows, io, ids, was, rows, log, m', executed', k + 1)
    {
      var i := Todo(planned, rowNos, maxRows)[k];
      TodoIs(planned, rowNos, maxRows, k);
      ghost var b, l := rows, log;
      var o := TryRow(i, planned[i], m.statusNow, m.idNow, io);
      MidwayStep(planned, rowNos, maxRows, io, ids, was, b, l, m, executed, k, i, o, rows, log);
      m', executed' := Remembered(m, i, o, rows), With(executed, i, o);
    }

    /** The rows of one execution, in order, until one is stopped by a rejected login or a rate limit. */
    method RunRows(rowNos: seq<int>, maxRows: Option<int>, io: IO, ghost ids: seq<Option<int>>) returns (m: Memory, k: nat)
      requires ApprovalsOk(rows) && |io| == |rows|
      modifies `rows, `log
      ensures exists executed :: Midway(old(rows), rowNos, maxRows, io, ids, old(log), rows, log, m, executed, k)
      ensures k == |Todo(old(rows), rowNos, maxRows)| || m.rep.stopped
    {
      var planned := rows;
      var n := |Todo(rows, rowNos, maxRows)|;
      m, k := Memory(StatusMap(rows), IdMap(rows), Report(0, 0, 0, 0, 0, 0, false)), 0;
      MidwayStart(rows, rowNos, maxRows, io, ids, log);
      while k < n && !m.rep.stopped
        invariant k <= n
        invariant exists executed :: Midway(planned, rowNos, maxRows, io, ids, old(log), rows, log, m, executed, k)
      {
        ghost var executed :| Midway(planned, rowNos, maxRows, io, ids, old(log), rows, log, m, executed, k);
        m, executed := TryNext(planned, rowNos, maxRows, io, ids, old(log), m, executed, k);
        k := k + 1;
      }
    }

    /** The rows of one execution, and what came of them. */
    method ExecuteRows(rowNos: seq<int>, maxRows: Option<int>, io: IO, ghost ids: seq<Option<int>>) returns (rep: Report, ghost executed: set<nat>)
      requires Valid() && |io| == |rows|
      modifies `rows, `log, `seen
      ensures ApprovalsOk(rows) && LogOk(rows, log, seen, approved) && Noted(old(log), old(seen), log, seen, io)
      ensures old(MadeOnce(log) && SeesEarlier(rows, log, io)) ==> MadeOnce(log)
      ensures WentThrough(old(rows), rows, rowNos, maxRows, io, ids, executed, old(log), log, rep)
    {
      var m, k := RunRows(rowNos, maxRows, io, ids);
      executed :| Midway(old(rows), rowNos, maxRows, io, ids, old(log), rows, log, m, executed, k);
      seen := ExecutionEnd(old(rows), rowNos, maxRows, io, ids, old(log), rows, log, m, executed, k, seen, approved);
      rep := m.rep;
    }

    /**
     * Execute approved rows. Whatever Autotask answers, every write is an approved row's, read afresh, with what it
     * depends on in and its references filled; nothing finished changes. A create makes at most one record when a
     * retried one finds the record it made before.
     */
    method Execute(rowNos: seq<int>, maxRows: Option<int>, io: IO, ghost ids: seq<Option<int>>) returns (rep: Report, ghost executed: set<nat>)
      requires Valid() && |io| == |rows|
      modifies this
      ensures Valid() && Noted(old(log), old(seen), log, seen, io)
      ensures approved == old(approved) && recalled == (old(recalled) && old(SeesEarlier(rows, log, io)))
      ensures old(MadeOnce(log) && SeesEarlier(rows, log, io)) ==> MadeOnce(log)
      ensures WentThrough(old(rows), rows, rowNos, maxRows, io, ids, executed, old(log), log, rep)
      ensures status == if LeftOpen(rows) then Open else Finished
    {
      status := Executing;
      recalled := recalled && SeesEarlier(rows, log, io);
      rep, executed := ExecuteRows(rowNos, maxRows, io, ids);
      status := if LeftOpen(rows) then Open else Finished;
    }

    /** What happens to a plan: rows are approved or excluded, or it is executed. */
    method Happen(e: Event)
      requires Valid() && (e.Execution? ==> |e.io| == |rows|)
      modifies this
      ensures Valid() && Absorbing(old(rows), rows) && old(log) <= log && old(seen) <= seen && old(approved) <= approved
      ensures forall k | |old(log)| <= k < |log| :: Answered([e], log[k], seen[k])
      ensures recalled == (old(recalled) && (e.Execution? ==> old(SeesEarlier(rows, log, e.io))))
    {
      match e
      case Approval(hash, rowNos, approve) =>
        var _ := SetApproval(hash, rowNos, approve);
      case Execution(rowNos, maxRows, io) =>
        var _, _ := Execute(rowNos, maxRows, io, []);
        assert e in [e];
    }

    /**
     * Any run of approvals and executions, whatever Autotask answers: every write ever sent is lawful, its record read
     * afresh in the execution that sent it, finished rows stay, and no create row makes two records as long as every execution finds the records made before it.
     */
    method Run(events: seq<Event>)
      requires Valid() && forall e | e in events && e.Execution? :: |e.io| == |rows|
      modifies this
      ensures Valid() && Absorbing(old(rows), rows) && old(log) <= log && old(seen) <= seen && old(approved) <= approved
      ensures |seen| == |log| && forall k | 0 <= k < |log| :: Lawful(log[k], seen[k], rows, approved)
      ensures forall k | |old(log)| <= k < |log| :: Answered(events, log[k], seen[k])
      ensures recalled ==> MadeOnce(log)
    {
      var k := 0;
      while k < |events|
        invariant 0 <= k <= |events| && Valid() && Absorbing(old(rows), rows) && old(log) <= log && old(seen) <= seen && old(approved) <= approved
        invariant forall i | |old(log)| <= i < |log| :: Answered(events, log[i], seen[i])
      {
        assert events[k] in events;
        ghost var before, was := rows, |log|;
        Happen(events[k]);
        forall i | was <= i < |log| ensures Answered(events, log[i], seen[i]) {
          assert Answered([events[k]], log[i], seen[i]);
        }
        AbsorbingTransitive(old(rows), before, rows);
        k := k + 1;
      }
    }

    /** One execution on a good day. */
    method ExecuteWell(maxRows: Option<int>, ios: seq<IO>, t: nat, ghost start: seq<Row>, ghost ids: seq<Option<int>>)
      requires Valid() && GoodDays(rows, log, ios, ids) && t < |ios| && Onward(start, rows, ids)
      modifies this
      ensures Valid() && GoodDays(rows, log, ios, ids) && Onward(start, rows, ids)
      ensures ToRun(rows) == if ToRun(old(rows)) <= Cap(maxRows) then 0 else ToRun(old(rows)) - Cap(maxRows)
    {
      ghost var a, was := rows, log;
      assert GoodDay(a, was, ios[t], ids);
      var _, executed := Execute([], maxRows, ios[t], ids);
      FewerToRun(a, rows, ios[t], ids, maxRows, executed);
      GoodDaysAfter(a, rows, ios[t], ios, ids, executed, was, log);
      OnwardAfter(start, a, rows, ios[t], ids, executed);
    }

    /** Executions until nothing is left to run. */
    method RunOut(maxRows: Option<int>, ios: seq<IO>, ghost ids: seq<Option<int>>) returns (runs: nat)
      requires Valid() && GoodDays(rows, log, ios, ids) && |ios| >= Executions(ToRun(rows), Cap(maxRows))
      modifies this
      ensures Valid() && GoodDays(rows, log, ios, ids) && Onward(old(rows), rows, ids)
      ensures ToRun(rows) == 0 && runs == Executions(ToRun(old(rows)), Cap(maxRows))
    {
      runs := 0;
      while ToRun(rows) > 0
        invariant Valid() && GoodDays(rows, log, ios, ids) && Onward(old(rows), rows, ids)
        invariant runs + Executions(ToRun(rows), Cap(maxRows)) == Executions(ToRun(old(rows)), Cap(maxRows))
        decreases ToRun(rows)
      {
        ExecuteWell(maxRows, ios, runs, old(rows), ids);
        runs := runs + 1;
      }
    }

    /**
     * n rows that may be run, k at a time, are done in n / k executions, rounded up, each standing for its id if it has
     * one; nothing else changes.
     */
    method Finish(maxRows: Option<int>, ios: seq<IO>, ghost ids: seq<Option<int>>) returns (runs: nat)
      requires Valid() && GoodDays(rows, log, ios, ids) && |ios| >= Executions(ToRun(rows), Cap(maxRows))
      modifies this
      ensures Valid() && GoodDays(rows, log, ios, ids) && |rows| == |old(rows)|
      ensures ToRun(old(rows)) <= runs * Cap(maxRows) < ToRun(old(rows)) + Cap(maxRows)
      ensures forall i | 0 <= i < |rows| ::
                if Runnable(old(rows)[i]) then i < |ids| && DoneAs(rows[i], ids[i]) else rows[i] == old(rows)[i]
    {
      ExecutionsIs(ToRun(rows), Cap(maxRows));
      runs := RunOut(maxRows, ios, ids);
      AllDone(old(rows), rows, ids);
    }
  }
}
