/**
 * The idempotency claim: SQL statements as functions on the operation table, the claim as a retry loop over them, and
 * any number of claimers and finishers interleaved statement by statement.
 */
module OperationStores {
  import opened Base

  const RUNNING_STALE: nat := 600_000

  datatype Status = Running | Succeeded | Failed | Partial

  /** A call: its idempotency key (if any), tool and payload digest. */
  datatype Input = Input(key: Option<string>, tool: string, digest: Option<string>)

  datatype Row = Row(input: Input, status: Status, started: nat, text: Option<string>)

  /** The table, by operation id; ids are never reused. */
  type Table = map<nat, Row>

  // ---------------------------------------------------------------- the statements

  predicate HasKey(db: Table, key: string, id: nat) { id in db && db[id].input.key == Some(key) }

  predicate KeyTaken(db: Table, key: string) { exists id | id in db :: HasKey(db, key, id) }

  /** INSERT … ON CONFLICT (idempotency_key) DO NOTHING */
  function Inserted(db: Table, id: nat, i: Input, now: nat): Table {
    if i.key.Some? && KeyTaken(db, i.key.value) then db else db[id := Row(i, Running, now, None)]
  }

  /** SELECT … WHERE idempotency_key = … */
  function Selected(db: Table, key: string): (r: Option<nat>)
    ensures r.Some? <==> KeyTaken(db, key)
    ensures r.Some? ==> HasKey(db, key, r.value)
  {
    if KeyTaken(db, key) then
      var ids := set id | id in db && HasKey(db, key, id);
      assert ids != {} by { var id :| id in db && HasKey(db, key, id); assert id in ids; }
      Some(MinOf(ids))
    else None
  }

  /** DELETE … WHERE operation_id = … AND status = 'error' */
  function Released(db: Table, id: nat): Table {
    if id in db && db[id].status == Failed then db - {id} else db
  }

  /** INSERT … ON CONFLICT (operation_id) DO UPDATE; nothing when another row holds the key. */
  function Finished(db: Table, id: nat, i: Input, status: Status, text: Option<string>, now: nat): Table {
    if id in db then db[id := db[id].(status := status, text := text)]
    else if i.key.Some? && KeyTaken(db, i.key.value) then db
    else db[id := Row(i, status, now, text)]
  }

  /** What a claim answers. */
  datatype Claim = Claimed | Replay(of: nat, text: Option<string>) | Conflict(of: nat) | InProgress(of: nat) | Incomplete(of: nat) | HalfDone(of: nat)

  /** The answer when the key's row is not a failed one. */
  function Answer(i: Input, id: nat, r: Row, now: nat): Claim {
    if r.input.tool != i.tool || r.input.digest != i.digest then Conflict(id)
    else if r.status == Succeeded then Replay(id, r.text)
    else if r.status == Partial then HalfDone(id)
    else if now - r.started < RUNNING_STALE then InProgress(id) else Incomplete(id)
  }

  class OperationStore {
    var db: Table

    ghost predicate Valid()
      reads this
    {
      UniqueKeys(db)
    }

    constructor ()
      ensures Valid() && db == map[]
    {
      db := map[];
    }

    method InsertIfAbsent(id: nat, i: Input, now: nat) returns (inserted: bool)
      requires Valid() && id !in db
      modifies this
      ensures Valid() && db == Inserted(old(db), id, i, now)
      ensures inserted <==> !(i.key.Some? && KeyTaken(old(db), i.key.value))
    {
      inserted := !(i.key.Some? && KeyTaken(db, i.key.value));
      if inserted { db := db[id := Row(i, Running, now, None)]; }
    }

    method Release(id: nat)
      requires Valid()
      modifies this
      ensures Valid() && db == Released(old(db), id)
    {
      if id in db && db[id].status == Failed { db := db - {id}; }
    }

    method Finish(id: nat, i: Input, status: Status, text: Option<string>, now: nat)
      requires Valid() && (id in db ==> db[id].input == i)
      modifies this
      ensures Valid() && db == Finished(old(db), id, i, status, text, now)
    {
      db := Finished(db, id, i, status, text, now);
    }

    /** Undisturbed, a claim never gives up: a free or failed key is claimed, any other is answered from its row. */
    method ClaimKey(id: nat, i: Input, now: nat) returns (c: Option<Claim>)
      requires Valid() && id !in db && i.key.Some?
      modifies this
      ensures Valid() && c.Some?
      ensures forall k | KeyTaken(old(db), i.key.value) && Selected(old(db), i.key.value) == Some(k) ::
                if old(db)[k].status == Failed then c == Some(Claimed) && db == old(db) - {k} + map[id := Row(i, Running, now, None)]
                else c == Some(Answer(i, k, old(db)[k], now)) && db == old(db)
      ensures !KeyTaken(old(db), i.key.value) ==> c == Some(Claimed) && db == old(db)[id := Row(i, Running, now, None)]
    {
      var attempt := 0;
      c := None;
      ghost var first := Selected(db, i.key.value);
      while attempt < 2 && c.None?
        invariant 0 <= attempt <= 2 && Valid() && id !in old(db)
        invariant attempt == 0 ==> c.None? && db == old(db)
        invariant attempt == 1 && c.None? ==>
                    first.Some? && old(db)[first.value].status == Failed && db == old(db) - {first.value} && !KeyTaken(db, i.key.value)
        invariant attempt == 2 ==> c.Some?
        invariant c.Some? ==>
                    if first.None? then c == Some(Claimed) && db == old(db)[id := Row(i, Running, now, None)]
                    else if old(db)[first.value].status == Failed then c == Some(Claimed) && db == old(db) - {first.value} + map[id := Row(i, Running, now, None)]
                    else c == Some(Answer(i, first.value, old(db)[first.value], now)) && db == old(db)
      {
        var inserted := InsertIfAbsent(id, i, now);
        if inserted {
          c := Some(Claimed);
        } else {
          var ex := Selected(db, i.key.value);
          if ex.Some? {
            if db[ex.value].status == Failed {
              Release(ex.value);
            } else {
              c := Some(Answer(i, ex.value, db[ex.value], now));
            }
          }
        }
        attempt := attempt + 1;
      }
    }
  }

  /** The unique index on the key. */
  ghost predicate UniqueKeys(db: Table) {
    forall a, b | a in db && b in db && db[a].input.key.Some? && db[a].input.key == db[b].input.key :: a == b
  }

  // ---------------------------------------------------------------- statement by statement

  /** Where a call is: about to insert, select or delete (with its attempt), running, or done. */
  datatype Phase =
    | Inserting(attempt: nat)
    | Selecting(attempt: nat)
    | Deleting(attempt: nat, failed: nat)
    | Executing
    | Answered(claim: Claim)
    | GaveUp
    | Ended(status: Status)
    | Lost                                  // the process died while it ran

  datatype Call = Call(input: Input, phase: Phase)

  datatype System = System(db: Table, calls: map<nat, Call>, now: nat)

  datatype Event =
    | Arrive(id: nat, input: Input)
    | Insert(id: nat)
    | Select(id: nat)
    | Delete(id: nat)
    | End(id: nat, status: Status, text: Option<string>)
    | Crash(id: nat)
    | Tick(ms: nat)

  /** An attempt ends without an answer: the next one, or no more. */
  function Retry(attempt: nat): Phase { if attempt == 0 then Inserting(1) else GaveUp }

  predicate Underway(p: Phase) { p.Inserting? || p.Selecting? || p.Deleting? || p.Executing? }

  predicate Legal(s: System, e: Event) {
    match e
    case Arrive(id, _) => id !in s.calls && id !in s.db
    case Insert(id) => id in s.calls && s.calls[id].phase.Inserting?
    case Select(id) => id in s.calls && s.calls[id].phase.Selecting?
    case Delete(id) => id in s.calls && s.calls[id].phase.Deleting?
    case End(id, status, _) => id in s.calls && s.calls[id].phase == Executing && status != Running
    case Crash(id) => id in s.calls && Underway(s.calls[id].phase)
    case Tick(_) => true
  }

  function Step(s: System, e: Event): System
    requires Legal(s, e)
  {
    match e
    case Arrive(id, i) => s.(calls := s.calls[id := Call(i, if i.key.Some? then Inserting(0) else Executing)])
    case Insert(id) =>
      var c := s.calls[id];
      var db := Inserted(s.db, id, c.input, s.now);
      System(db, s.calls[id := c.(phase := if id in db then Executing else Selecting(c.phase.attempt))], s.now)
    case Select(id) =>
      var c := s.calls[id];
      var ex := if c.input.key.Some? then Selected(s.db, c.input.key.value) else None;
      var next := if ex.None? then Retry(c.phase.attempt)
                  else if s.db[ex.value].status == Failed then Deleting(c.phase.attempt, ex.value)
                  else Answered(Answer(c.input, ex.value, s.db[ex.value], s.now));
      s.(calls := s.calls[id := c.(phase := next)])
    case Delete(id) =>
      var c := s.calls[id];
      System(Released(s.db, c.phase.failed), s.calls[id := c.(phase := Retry(c.phase.attempt))], s.now)
    case End(id, status, text) =>
      var c := s.calls[id];
      System(Finished(s.db, id, c.input, status, text, s.now), s.calls[id := c.(phase := Ended(status))], s.now)
    case Crash(id) => s.(calls := s.calls[id := s.calls[id].(phase := Lost)])
    case Tick(ms) => s.(now := s.now + ms)
  }

  /** A row that ended well or half-way: it stays. */
  ghost predicate Settled(db: Table, id: nat) { id in db && (db[id].status == Succeeded || db[id].status == Partial) }

  /** A replay is the stored result of the same key, tool and payload; a half-done answer names a half-done call. */
  ghost predicate AnswerTrue(db: Table, i: Input, claim: Claim) {
    match claim
    case Replay(of, text) => of in db && db[of].status == Succeeded && db[of].input == i && db[of].text == text
    case HalfDone(of) => of in db && db[of].status == Partial && db[of].input == i
    case Claimed => false
    case _ => true
  }

  /** Before it is claimed a call has no row; while it runs its row says so; once it ended its row says how. */
  ghost predicate CallOk(db: Table, id: nat, c: Call) {
    && (id in db ==> db[id].input == c.input)
    && match c.phase
       case Inserting(_) => id !in db && c.input.key.Some?
       case Selecting(_) => id !in db && c.input.key.Some?
       case Deleting(_, _) => id !in db && c.input.key.Some?
       case GaveUp => id !in db
       case Answered(claim) => id !in db && AnswerTrue(db, c.input, claim)
       case Executing => if c.input.key.Some? then id in db && db[id].status == Running else id !in db
       case Ended(status) => status != Running && (id in db ==> db[id].status == status) && (c.input.key.Some? && id !in db ==> status == Failed)
       case Lost => id in db ==> db[id].status == Running
  }

  ghost predicate Inv(s: System) {
    && UniqueKeys(s.db)
    && (forall id | id in s.db :: id in s.calls)
    && (forall id | id in s.calls :: CallOk(s.db, id, s.calls[id]))
  }

  /** Nothing but a failed row is ever removed, and nothing but its own call changes a row. */
  lemma StepRows(s: System, e: Event, id: nat)
    requires Inv(s) && Legal(s, e) && id in s.db
    ensures id in Step(s, e).db || (e.Delete? && s.db[id].status == Failed)
    ensures id in Step(s, e).db ==> Step(s, e).db[id] == s.db[id] || (e.End? && e.id == id && s.db[id].status == Running)
  {
    assert CallOk(s.db, id, s.calls[id]);
  }

  lemma UniqueStays(s: System, e: Event)
    requires Inv(s) && Legal(s, e)
    ensures UniqueKeys(Step(s, e).db)
  {
    if e.End? { assert CallOk(s.db, e.id, s.calls[e.id]); }
  }

  /** Another call's bookkeeping stays true. */
  lemma OthersOk(s: System, e: Event, id: nat)
    requires Inv(s) && Legal(s, e) && id in s.calls
    requires e.Tick? || e.id != id
    ensures CallOk(Step(s, e).db, id, s.calls[id])
  {
  }

  lemma OwnOk(s: System, e: Event)
    requires Inv(s) && Legal(s, e) && !e.Tick?
    ensures CallOk(Step(s, e).db, e.id, Step(s, e).calls[e.id])
  {
    if !e.Arrive? { assert CallOk(s.db, e.id, s.calls[e.id]); }
  }

  lemma StepInv(s: System, e: Event)
    requires Inv(s) && Legal(s, e)
    ensures Inv(Step(s, e))
  {
    var t := Step(s, e);
    UniqueStays(s, e);
    forall id | id in t.calls ensures CallOk(t.db, id, t.calls[id]) {
      if e.Tick? || e.id != id { OthersOk(s, e, id); } else { OwnOk(s, e); }
    }
    forall id | id in t.db ensures id in t.calls {}
  }

  ghost predicate LegalRun(s: System, es: seq<Event>)
    decreases |es|
  {
    es == [] || (Legal(s, es[0]) && LegalRun(Step(s, es[0]), es[1..]))
  }

  ghost function Run(s: System, es: seq<Event>): System
    requires LegalRun(s, es)
    decreases |es|
  {
    if es == [] then s else Run(Step(s, es[0]), es[1..])
  }

  /** In every interleaving at most one call of a key is running. */
  lemma AtMostOneRuns(s: System, es: seq<Event>, a: nat, b: nat)
    requires Inv(s) && LegalRun(s, es)
    requires var t := Run(s, es);
             a in t.calls && b in t.calls && t.calls[a].phase == Executing && t.calls[b].phase == Executing
             && t.calls[a].input.key.Some? && t.calls[a].input.key == t.calls[b].input.key
    ensures a == b
  {
    RunInv(s, es);
    var t := Run(s, es);
    assert CallOk(t.db, a, t.calls[a]) && CallOk(t.db, b, t.calls[b]);
  }

  lemma {:induction false} RunInv(s: System, es: seq<Event>)
    requires Inv(s) && LegalRun(s, es)
    ensures Inv(Run(s, es))
    decreases |es|
  {
    if es != [] {
      StepInv(s, es[0]);
      RunInv(Step(s, es[0]), es[1..]);
    }
  }

  /** And at most one call of a key ever ends well or half-way. */
  lemma AtMostOneSettles(s: System, es: seq<Event>, a: nat, b: nat)
    requires Inv(s) && LegalRun(s, es)
    requires var t := Run(s, es);
             a in t.calls && b in t.calls && t.calls[a].phase in {Ended(Succeeded), Ended(Partial)} && t.calls[b].phase in {Ended(Succeeded), Ended(Partial)}
             && t.calls[a].input.key.Some? && t.calls[a].input.key == t.calls[b].input.key
    ensures a == b
  {
    RunInv(s, es);
    var t := Run(s, es);
    assert CallOk(t.db, a, t.calls[a]) && CallOk(t.db, b, t.calls[b]);
  }

  /** Another call of a key whose row is running, ended well or half-way. */
  ghost predicate ShutOut(s: System, holder: nat, id: nat, i: Input) {
    && holder in s.db && s.db[holder].status != Failed && s.db[holder].input.key == i.key && i.key.Some? && id != holder
    && (id in s.calls ==> s.calls[id].input == i && s.calls[id].phase != Executing)
  }

  /** While a key's row stands, no other call of the key is claimed. */
  lemma NotClaimed(s: System, e: Event, holder: nat, id: nat, i: Input)
    requires Inv(s) && Legal(s, e) && ShutOut(s, holder, id, i) && (e.Arrive? && e.id == id ==> e.input == i)
    ensures id in Step(s, e).calls ==> Step(s, e).calls[id].input == i && Step(s, e).calls[id].phase != Executing
    ensures holder in Step(s, e).db && (Settled(s.db, holder) ==> Step(s, e).db[holder] == s.db[holder])
  {
    StepRows(s, e, holder);
    if e.Insert? && e.id == id {
      assert CallOk(s.db, id, s.calls[id]);
      assert HasKey(s.db, i.key.value, holder);
    }
  }

  /** A key whose call ended well or half-way is never claimed again, over any run, and its row never changes. */
  lemma {:induction false} NeverAgain(s: System, es: seq<Event>, holder: nat, id: nat, i: Input)
    requires Inv(s) && LegalRun(s, es) && Settled(s.db, holder) && ShutOut(s, holder, id, i)
    requires forall e | e in es && e.Arrive? && e.id == id :: e.input == i
    ensures var t := Run(s, es);
            && holder in t.db && t.db[holder] == s.db[holder]
            && (id in t.calls ==> t.calls[id].phase != Executing)
    decreases |es|
  {
    if es != [] {
      assert es[0] in es;
      NotClaimed(s, es[0], holder, id, i);
      StepInv(s, es[0]);
      NeverAgain(Step(s, es[0]), es[1..], holder, id, i);
    }
  }

  /** A replay answered at any moment of a run is still the stored result at its end. */
  lemma ReplayTells(s: System, es: seq<Event>, id: nat)
    requires Inv(s) && LegalRun(s, es)
    requires id in Run(s, es).calls && Run(s, es).calls[id].phase.Answered? && Run(s, es).calls[id].phase.claim.Replay?
    ensures var t := Run(s, es);
            var c := t.calls[id];
            c.phase.claim.of in t.db && t.db[c.phase.claim.of] == Row(c.input, Succeeded, t.db[c.phase.claim.of].started, c.phase.claim.text)
  {
    RunInv(s, es);
    assert CallOk(Run(s, es).db, id, Run(s, es).calls[id]);
  }
}
