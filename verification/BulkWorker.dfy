/** The bulk worker and the operator's actions on one job, ticks being atomic. */
module BulkWorkers {
  import opened Base
  import opened BulkJobs

  const PAUSE_AFTER_FAILURES: nat := 20
  const WAIT_AFTER_THROTTLE: nat := 60_000

  /** Autotask's answer to one write. */
  datatype Reply = Ok | Unauthorised | NotFound | Protected | Throttled | Broke

  datatype Outcome = Written | Gone | Refused | Again | Wait | Stopped

  /** One write, classified. */
  function Classified(i: Item, r: Reply): Outcome {
    if i.key.entity == Contacts && i.parent.None? then Refused
    else
      match r
      case Ok => Written
      case Unauthorised => Stopped
      case NotFound => Gone
      case Protected => Refused
      case Throttled => Wait
      case Broke => if i.attempts + 1 >= MAX_ATTEMPTS then Refused else Again
  }

  /** The item after its outcome. */
  function ItemAfter(i: Item, o: Outcome): Item {
    match o
    case Written => i.(status := Done, attempts := i.attempts + 1)
    case Gone => i.(status := Skipped, attempts := i.attempts + 1)
    case Refused => i.(status := Failed, attempts := i.attempts + 1)
    case Again => i.(attempts := i.attempts + 1)
    case Stopped => i.(attempts := i.attempts + 1)
    case Wait => i
  }

  /** A write that said something about its item: done, skipped, failed, or one attempt less. */
  predicate Moves(o: Outcome) { o == Written || o == Gone || o == Refused || o == Again }

  lemma OneStep(items: seq<Item>, i: nat, r: Reply)
    requires i < |items| && items[i].status == Pending
    ensures var o := Classified(items[i], r);
            var after := items[i := ItemAfter(items[i], o)];
            && Progressed(items, after)
            && Potential(after) <= Potential(items)
            && (Moves(o) ==> Potential(after) < Potential(items))
  {
    var o := Classified(items[i], r);
    PotentialAt(items, i, ItemAfter(items[i], o));
  }

  /** What one tick sees: the local time and the clock at its readings, the tenant's load, and the write's answer. */
  datatype Tick = Tick(quietAt: Local, paceAt: Local, check: int, write: int, record: int, level: Level, reply: Reply)

  predicate Sane(t: Tick) { 0 <= t.check <= t.write <= t.record }

  datatype Result = Idle | QuietHours | Busy | TooSoon | CanaryPause | Completed | Did(o: Outcome) | FailurePause

  datatype Action = Approve(hash: seq<Key>) | Start | Pause | Resume | Cancel | RetryFailed

  datatype Event = Ticked(t: Tick) | Acted(a: Action)

  class BulkJob {
    var items: seq<Item>
    var status: JobStatus
    var hash: seq<Key>
    var approved: Option<seq<Key>>
    const rate: nat
    const canarySize: nat
    const schedule: Option<Schedule>
    const quiet: seq<Window>
    var canaryDone: bool
    var processed: nat
    // The worker's own memory, and what it sent.
    var lastWrite: int
    var streak: nat
    var written: seq<Write>

    constructor (rate: nat, canarySize: nat, schedule: Option<Schedule>, quiet: seq<Window>)
      ensures Valid() && status == Preparing && written == [] && items == []
      ensures this.rate == rate && this.canarySize == canarySize && this.schedule == schedule && this.quiet == quiet
    {
      this.rate, this.canarySize, this.schedule, this.quiet := rate, canarySize, schedule, quiet;
      items, status, hash, approved, canaryDone, processed := [], Preparing, [], None, false, 0;
      lastWrite, streak, written := 0, 0, [];
    }

    /** The job may be or become running only under an approved hash, and that hash is the items'. */
    ghost predicate HashOk()
      reads this
    {
      && (status == Approved || status == Running || status == Paused || written != [] ==> approved == Some(HashOf(items)))
      && (status != Preparing && status != Broken ==> hash == HashOf(items))
    }

    ghost predicate Valid()
      reads this
    {
      && HashOk() && Handled(items) <= processed && (!canaryDone ==> processed <= canarySize)
      && LogOk(items, written, rate, lastWrite) && (status == Preparing ==> items == [] && hash == [] && written == [])
    }

    /** The prepared items, with their hash; a job cancelled meanwhile is ready all the same. */
    method Fill(prepared: seq<Item>)
      requires Valid() && status in {Preparing, Cancelled} && items == [] && written == [] && forall i | i in prepared :: i.status == Pending || i.status == Excluded
      modifies this
      ensures Valid() && status == Ready && items == prepared && hash == HashOf(items) && written == []
    {
      FreshHandled(prepared);
      items, hash, status := prepared, HashOf(prepared), Ready;
    }

    /** The first pending item. */
    method Next() returns (i: Option<nat>)
      ensures i.Some? ==> IsNext(items, i.value)
      ensures i.None? ==> forall j | 0 <= j < |items| :: items[j].status != Pending
    {
      var k := 0;
      while k < |items|
        invariant 0 <= k <= |items| && forall j | 0 <= j < k :: items[j].status != Pending
      {
        if items[k].status == Pending { return Some(k); }
        k := k + 1;
      }
      i := None;
    }

    /** Record one write's outcome. */
    method Record(i: nat, o: Outcome, at: int) returns (r: Result)
      requires i < |items| && status == Running
      modifies `items, `status, `processed, `lastWrite, `streak
      ensures items == old(items)[i := ItemAfter(old(items)[i], o)]
      ensures lastWrite == if o == Wait then at + WAIT_AFTER_THROTTLE else old(lastWrite)
      ensures processed == if o in {Written, Gone, Refused} then old(processed) + 1 else old(processed)
      ensures streak == if o in {Stopped, Wait} then old(streak) else if o in {Written, Gone} || old(streak) + 1 >= PAUSE_AFTER_FAILURES then 0 else old(streak) + 1
      ensures r == if o in {Refused, Again} && old(streak) + 1 >= PAUSE_AFTER_FAILURES then FailurePause else Did(o)
      ensures status == if o == Stopped || r == FailurePause then Paused else Running
    {
      items := items[i := ItemAfter(items[i], o)];
      if o == Stopped {
        status := Paused;
        return Did(o);
      }
      if o == Wait {
        lastWrite := at + WAIT_AFTER_THROTTLE;
        return Did(o);
      }
      streak := if o == Written || o == Gone then 0 else streak + 1;
      processed := processed + if o == Again then 0 else 1;
      if streak >= PAUSE_AFTER_FAILURES {
        status, streak := Paused, 0;
        return FailurePause;
      }
      r := Did(o);
    }

    /** The gate in front of a write: not in a quiet hour, not too fast, and the canary's end pauses the job. */
    method Admit(t: Tick) returns (r: Option<Result>)
      requires Valid() && status == Running && Sane(t)
      modifies `status, `canaryDone
      ensures r.None? ==> !InQuiet(quiet, t.quietAt) && GapPassed(t.check - lastWrite, CurrentRate(t.paceAt, rate, schedule), t.level)
      ensures r.None? ==> status == Running && canaryDone == old(canaryDone) && (canaryDone || processed < canarySize)
      ensures r == Some(CanaryPause) <==>
                (!old(canaryDone) && processed >= canarySize && !InQuiet(quiet, t.quietAt)
                 && GapPassed(t.check - lastWrite, CurrentRate(t.paceAt, rate, schedule), t.level))
      ensures r == Some(CanaryPause) ==> status == Paused && canaryDone
      ensures r.Some? && r != Some(CanaryPause) ==> r.value in {QuietHours, Busy, TooSoon} && status == Running && canaryDone == old(canaryDone)
    {
      if InQuiet(quiet, t.quietAt) { return Some(QuietHours); }
      if t.level == Stop { return Some(Busy); }
      if !GapPassed(t.check - lastWrite, CurrentRate(t.paceAt, rate, schedule), t.level) { return Some(TooSoon); }
      if !canaryDone && processed >= canarySize {
        status, canaryDone := Paused, true;
        return Some(CanaryPause);
      }
      r := None;
    }

    /** A write may be sent only for the next item, approved, in its turn, outside quiet hours, after the gap. */
    ghost predicate MayWrite(items: seq<Item>, approved: Option<seq<Key>>, last: int, t: Tick, i: nat) {
      && IsNext(items, i) && approved.Some? && items[i].key in approved.value
      && !InQuiet(quiet, t.quietAt) && Apart(last, t.write, rate)
      && (ContactsFirst(items) && items[i].key.entity == Companies ==>
            forall j | 0 <= j < |items| && items[j].key.entity == Contacts && items[j].parent == Some(items[i].key.record) :: items[j].status != Pending)
    }

    /** The write itself (none for a contact without its company), and its outcome. */
    method WriteItem(t: Tick, i: nat) returns (r: Result)
      requires Valid() && status == Running && Sane(t) && IsNext(items, i) && (canaryDone || processed < canarySize)
      requires GapPassed(t.check - lastWrite, CurrentRate(t.paceAt, rate, schedule), t.level)
      modifies `items, `status, `processed, `lastWrite, `streak, `written
      ensures Valid() && items == old(items)[i := ItemAfter(old(items)[i], Classified(old(items)[i], t.reply))]
      ensures written == Logged(old(items), old(written), t, i, Classified(old(items)[i], t.reply))
      ensures r == Did(Classified(old(items)[i], t.reply)) || (r == FailurePause && Classified(old(items)[i], t.reply) in {Refused, Again})
      ensures status == Running || status == Paused
    {
      var o := Classified(items[i], t.reply);
      WriteKeeps(items, written, rate, lastWrite, t, CurrentRate(t.paceAt, rate, schedule), i, o,
                 if o == Wait then t.record + WAIT_AFTER_THROTTLE else t.write);
      lastWrite := t.write;
      written := Logged(items, written, t, i, o);
      r := Record(i, o, t.record);
    }

    /** One item's turn. */
    method TryItem(t: Tick, i: nat) returns (r: Result)
      requires Valid() && status == Running && Sane(t) && IsNext(items, i) && (canaryDone || processed < canarySize)
      requires GapPassed(t.check - lastWrite, CurrentRate(t.paceAt, rate, schedule), t.level)
      modifies `items, `status, `processed, `lastWrite, `streak, `written
      ensures Valid() && ItemTried(old(items), items, old(written), written, t, i, r) && (status == Running || status == Paused)
    {
      r := WriteItem(t, i);
      Tried(old(items), items, old(written), written, t, i, r);
    }

    /** The next item's turn, or the end of the job. */
    method Proceed(t: Tick) returns (r: Result, tried: Option<nat>)
      requires Valid() && Sane(t) && status == Running && (canaryDone || processed < canarySize)
      requires !InQuiet(quiet, t.quietAt) && GapPassed(t.check - lastWrite, CurrentRate(t.paceAt, rate, schedule), t.level)
      modifies `items, `status, `processed, `lastWrite, `streak, `written
      ensures Valid()
      ensures tried.Some? ==> MayWrite(old(items), approved, old(lastWrite), t, tried.value)
      ensures tried.Some? ==> ItemTried(old(items), items, old(written), written, t, tried.value, r)
      ensures tried.Some? ==> status == Running || status == Paused
      ensures tried.None? ==> r == Completed && status == Complete && items == old(items) && written == old(written)
      ensures tried.None? ==> forall i | 0 <= i < |items| :: items[i].status != Pending
    {
      tried := Next();
      if tried.None? {
        status := Complete;
        return Completed, None;
      }
      PrepareWrite(items, tried.value, t, lastWrite, CurrentRate(t.paceAt, rate, schedule), rate);
      r := TryItem(t, tried.value);
    }

    /**
     * One step of the worker, with at most one write. Whatever Autotask answers, the hash stays the approved one,
     * finished items stay finished, and a write that says something about its item lowers what is ahead.
     */
    method RunTick(t: Tick) returns (r: Result, tried: Option<nat>)
      requires Valid() && Sane(t)
      modifies this
      ensures Valid() && hash == old(hash) && approved == old(approved)
      ensures old(status) != Running ==> r == Idle && status == old(status) && tried.None?
      ensures tried.None? ==> items == old(items) && written == old(written) && !r.Did? && r != FailurePause
      ensures tried.Some? ==> old(status) == Running && (old(canaryDone) || old(processed) < canarySize)
      ensures tried.Some? ==> MayWrite(old(items), approved, old(lastWrite), t, tried.value)
      ensures tried.Some? ==> ItemTried(old(items), items, old(written), written, t, tried.value, r)
      ensures r == Completed <==> old(status) == Running && status == Complete
      ensures r == Completed ==> forall i | 0 <= i < |items| :: items[i].status != Pending
    {
      if status != Running { return Idle, None; }
      var gate := Admit(t);
      if gate.Some? { return gate.value, None; }
      r, tried := Proceed(t);
    }

    /** One state change by an operator, with the rules. */
    method Act(a: Action) returns (ok: bool)
      requires Valid()
      modifies `status, `approved, `items
      ensures Valid() && Progressed(old(items), items)
      ensures !ok ==> status == old(status) && items == old(items) && approved == old(approved)
      ensures ok <==> match a
                      case Approve(h) => old(status) == Ready && h == hash
                      case Start => old(status) == Approved
                      case Pause => old(status) == Running
                      case Resume => old(status) == Paused
                      case Cancel => old(status) !in {Complete, Cancelled, Broken}
                      case RetryFailed => true
      ensures ok ==> status == match a
                               case Approve(_) => Approved
                               case Start => Running
                               case Pause => Paused
                               case Resume => Running
                               case Cancel => Cancelled
                               case RetryFailed => old(status)
      ensures ok && a.Approve? ==> approved == Some(HashOf(items)) && a.hash == HashOf(items)
      ensures items == if a == RetryFailed then Requeued(old(items)) else old(items)
    {
      ok := true;
      match a
      case Approve(h) =>
        ok := status == Ready && h == hash && HashOf(items) == hash;
        if ok { status, approved := Approved, Some(h); }
      case Start =>
        ok := status == Approved;
        if ok { status := Running; }
      case Pause =>
        ok := status == Running;
        if ok { status := Paused; }
      case Resume =>
        ok := status == Paused;
        if ok { status := Running; }
      case Cancel =>
        ok := status !in {Complete, Cancelled, Broken};
        if ok { status := Cancelled; }
      case RetryFailed =>
        Requeue();
    }

    /** Failed items back in the queue, whatever the job's status. */
    method Requeue()
      requires Valid()
      modifies `items
      ensures Valid() && items == Requeued(old(items)) && Progressed(old(items), items)
    {
      RequeuedKeeps(items, written);
      items := Requeued(items);
    }

    /** What happens next: a tick or an operator's action; whether it was a write that said something about its item. */
    method Happen(e: Event) returns (moved: bool)
      requires Valid() && (e.Ticked? ==> Sane(e.t))
      modifies this
      ensures Valid() && hash == old(hash) && Progressed(old(items), items) && old(written) <= written
      ensures e != Acted(RetryFailed) && ContactsFirst(old(items)) && old(CompaniesLast(items, written)) ==> CompaniesLast(items, written)
      ensures e != Acted(RetryFailed) ==> Potential(items) + (if moved then 1 else 0) <= Potential(old(items))
      ensures moved ==> e.Ticked?
    {
      match e
      case Acted(a) =>
        var _ := Act(a);
        moved := false;
      case Ticked(t) =>
        ghost var before, was := items, written;
        var r, tried := RunTick(t);
        if tried.Some? && ContactsFirst(before) && CompaniesLast(before, was) {
          CompaniesStay(before, items, was, written, t, tried.value, r);
        }
        moved := (r.Did? && Moves(r.o)) || r == FailurePause;
    }

    /**
     * Any run of ticks and operator actions: the hash stays the items', finished items stay finished, what was sent
     * stays sent; and between requeues at most three writes an item say anything about it.
     */
    method Run(events: seq<Event>) returns (moves: nat)
      requires Valid() && forall t | Ticked(t) in events :: Sane(t)
      modifies this
      ensures Valid() && hash == old(hash) && Progressed(old(items), items) && old(written) <= written
      ensures moves <= |events| && (ContactsFirst(old(items)) ==> ContactsFirst(items))
      ensures Acted(RetryFailed) !in events && ContactsFirst(old(items)) && old(CompaniesLast(items, written)) ==> CompaniesLast(items, written)
      ensures Acted(RetryFailed) !in events ==> moves + Potential(items) <= Potential(old(items)) <= MAX_ATTEMPTS * |old(items)|
    {
      PotentialBound(items);
      moves := 0;
      var k := 0;
      while k < |events|
        invariant 0 <= k <= |events| && moves <= k
        invariant Valid() && hash == old(hash) && Progressed(old(items), items) && old(written) <= written
        invariant Acted(RetryFailed) !in events ==> moves + Potential(items) <= Potential(old(items))
        invariant ContactsFirst(old(items)) ==> ContactsFirst(items)
        invariant Acted(RetryFailed) !in events && ContactsFirst(old(items)) && old(CompaniesLast(items, written)) ==> CompaniesLast(items, written)
      {
        assert events[k] in events;
        ghost var before := items;
        if events[k].Ticked? { assert Ticked(events[k].t) in events; }
        var moved := Happen(events[k]);
        if ContactsFirst(before) { OrderKept(before, items); }
        if moved { moves := moves + 1; }
        k := k + 1;
      }
    }
  }

  /** Progress keeps the order of the items. */
  lemma OrderKept(a: seq<Item>, b: seq<Item>)
    requires Progressed(a, b) && ContactsFirst(a)
    ensures ContactsFirst(b)
  {
    forall i, j | 0 <= i < |b| && 0 <= j < |b| && b[i].key.entity == Companies && b[j].key.entity == Contacts && b[j].parent == Some(b[i].key.record)
      ensures j < i
    {
      assert a[i].key == b[i].key && a[j].key == b[j].key && a[j].parent == b[j].parent;
    }
  }

  /** No contact of item i's company is waiting. */
  predicate ContactsDone(items: seq<Item>, i: nat) {
    i < |items| && (items[i].key.entity == Companies ==>
      forall j | 0 <= j < |items| && items[j].key.entity == Contacts && items[j].parent == Some(items[i].key.record) :: items[j].status != Pending)
  }

  /** No company was written with a contact of its own still waiting. */
  ghost predicate CompaniesLast(items: seq<Item>, ws: seq<Write>) { forall k | 0 <= k < |ws| :: ContactsDone(items, ws[k].item) }

  lemma ContactsStayDone(a: seq<Item>, b: seq<Item>, i: nat)
    requires ContactsDone(a, i) && Progressed(a, b) && forall j | 0 <= j < |a| && a[j].status != Pending :: b[j].status != Pending
    ensures ContactsDone(b, i)
  {
    forall j | 0 <= j < |b| && b[i].key.entity == Companies && b[j].key.entity == Contacts && b[j].parent == Some(b[i].key.record) ensures b[j].status != Pending {
      assert a[i].key == b[i].key && a[j].key == b[j].key && a[j].parent == b[j].parent;
    }
  }

  lemma CompaniesStay(a: seq<Item>, b: seq<Item>, was: seq<Write>, ws: seq<Write>, t: Tick, i: nat, r: Result)
    requires ItemTried(a, b, was, ws, t, i, r) && IsNext(a, i) && ContactsFirst(a) && CompaniesLast(a, was)
    ensures CompaniesLast(b, ws)
  {
    TurnOk(a, i);
    assert ContactsDone(a, i);
    forall j | 0 <= j < |a| && a[j].status != Pending ensures b[j].status != Pending { assert j != i; }
    forall k | 0 <= k < |ws| ensures ContactsDone(b, ws[k].item) {
      assert k < |was| ==> ws[k] == was[k];
      ContactsStayDone(a, b, ws[k].item);
    }
  }

  lemma RequeuedKeeps(items: seq<Item>, ws: seq<Write>)
    requires WritesOk(items, ws)
    ensures Progressed(items, Requeued(items)) && HashOf(Requeued(items)) == HashOf(items)
    ensures WritesOk(Requeued(items), ws) && Handled(Requeued(items)) <= Handled(items)
  {
    HashStays(items, Requeued(items));
    RequeuedHandled(items);
  }

  /** Everything ever written was on the list the hash stands for, was never excluded, and was written well at most once. */
  lemma WritesAreApproved(items: seq<Item>, ws: seq<Write>)
    requires WritesOk(items, ws)
    ensures forall k | 0 <= k < |ws| :: ws[k].item < |items| && items[ws[k].item].status != Excluded && items[ws[k].item].key in HashOf(items)
    ensures forall j, k | 0 <= j < |ws| && 0 <= k < |ws| && ws[j].done && ws[k].done && ws[j].item == ws[k].item :: j == k
  {
    forall k | 0 <= k < |ws| ensures items[ws[k].item].key in HashOf(items) { InHash(items, ws[k].item); }
  }

  /** What one item's turn changes: that item alone, by its outcome; its write is logged; what is ahead goes down. */
  ghost predicate ItemTried(a: seq<Item>, b: seq<Item>, was: seq<Write>, ws: seq<Write>, t: Tick, i: nat, r: Result) {
    i < |a| && a[i].status == Pending
    && var o := Classified(a[i], t.reply);
       && b == a[i := ItemAfter(a[i], o)] && Progressed(a, b)
       && ws == (if Sends(a[i]) then was + [Write(i, t.write, o == Written)] else was)
       && (r == Did(o) || (r == FailurePause && o in {Refused, Again}))
       && Potential(b) <= Potential(a) && (Moves(o) ==> Potential(b) < Potential(a))
  }

  lemma Tried(a: seq<Item>, b: seq<Item>, was: seq<Write>, ws: seq<Write>, t: Tick, i: nat, r: Result)
    requires i < |a| && a[i].status == Pending && b == a[i := ItemAfter(a[i], Classified(a[i], t.reply))]
    requires ws == Logged(a, was, t, i, Classified(a[i], t.reply))
    requires r == Did(Classified(a[i], t.reply)) || (r == FailurePause && Classified(a[i], t.reply) in {Refused, Again})
    ensures ItemTried(a, b, was, ws, t, i, r)
  {
    OneStep(a, i, t.reply);
  }

  /** A contact is written through its company's route; without one nothing is sent. */
  predicate Sends(i: Item) { i.key.entity == Companies || i.parent.Some? }

  lemma LongerApart(a: int, b: int, c: int, d: int, rate: nat)
    requires Apart(a, b, rate) && d - c >= b - a
    ensures Apart(c, d, rate)
  {
    var r := Max(1, rate);
    assert (d - c) * r == (b - a) * r + (d - c - (b - a)) * r;
  }

  /** A write let through is sent a whole gap after the last one. */
  lemma ApartWhenSent(t: Tick, last: int, now: int, rate: nat)
    requires Sane(t) && GapPassed(t.check - last, now, t.level) && now <= rate
    ensures Apart(last, t.write, rate) && t.write > last
  {
    GapAtLeast(t.check - last, now, t.level, rate);
    LongerApart(0, t.check - last, last, t.write, rate);
  }

  /** What holds of the item whose turn it is. */
  lemma PrepareWrite(items: seq<Item>, i: nat, t: Tick, last: int, now: int, rate: nat)
    requires IsNext(items, i) && Sane(t) && GapPassed(t.check - last, now, t.level) && now <= rate
    ensures items[i].key in HashOf(items) && Apart(last, t.write, rate)
    ensures ContactsFirst(items) && items[i].key.entity == Companies ==>
              forall j | 0 <= j < |items| && items[j].key.entity == Contacts && items[j].parent == Some(items[i].key.record) :: items[j].status != Pending
  {
    TurnOk(items, i);
    ApartWhenSent(t, last, now, rate);
  }

  lemma SpacedStep(ws: seq<Write>, rate: nat, last: int, t: Tick, now: int, i: nat, done: bool)
    requires Spaced(ws, rate) && Sane(t) && (ws != [] ==> last >= ws[|ws| - 1].at) && GapPassed(t.check - last, now, t.level) && now <= rate
    ensures Spaced(ws + [Write(i, t.write, done)], rate) && t.write >= last
  {
    var more := ws + [Write(i, t.write, done)];
    ApartWhenSent(t, last, now, rate);
    if ws != [] { LongerApart(last, t.write, ws[|ws| - 1].at, t.write, rate); }
    forall k: nat | 0 < k < |more| ensures FarFromLast(more, k, rate) {
      if k < |ws| { assert FarFromLast(ws, k, rate); }
    }
  }

  /** What the worker keeps of the writes sent: for items that may be written, spaced, the last one not after `last`. */
  ghost predicate LogOk(items: seq<Item>, ws: seq<Write>, rate: nat, last: int) {
    WritesOk(items, ws) && Spaced(ws, rate) && (ws != [] ==> last >= ws[|ws| - 1].at)
  }

  function Logged(items: seq<Item>, ws: seq<Write>, t: Tick, i: nat, o: Outcome): seq<Write>
    requires i < |items|
  {
    if Sends(items[i]) then ws + [Write(i, t.write, o == Written)] else ws
  }

  /** All that one write keeps. */
  lemma WriteKeeps(items: seq<Item>, ws: seq<Write>, rate: nat, last: int, t: Tick, now: int, i: nat, o: Outcome, next: int)
    requires LogOk(items, ws, rate, last) && Sane(t) && next >= t.write
    requires GapPassed(t.check - last, now, t.level) && now <= rate && i < |items| && items[i].status == Pending
    ensures var b := items[i := ItemAfter(items[i], o)];
            && HashOf(b) == HashOf(items) && LogOk(b, Logged(items, ws, t, i, o), rate, next)
            && Handled(b) == Handled(items) + if o in {Written, Gone, Refused} then 1 else 0
  {
    SpacedStep(ws, rate, last, t, now, i, o == Written);
    HashStays(items, items[i := ItemAfter(items[i], o)]);
    WritesStep(items, ws, i, o, t.write);
    HandledAt(items, i, ItemAfter(items[i], o));
  }

  lemma WritesStep(items: seq<Item>, ws: seq<Write>, i: nat, o: Outcome, at: int)
    requires WritesOk(items, ws) && i < |items| && items[i].status == Pending
    ensures WritesOk(items[i := ItemAfter(items[i], o)], ws)
    ensures WritesOk(items[i := ItemAfter(items[i], o)], ws + [Write(i, at, o == Written)])
  {
  }

  /** The next item is one the hash lists; when it is a company, its contacts had their turn. */
  lemma TurnOk(items: seq<Item>, i: nat)
    requires IsNext(items, i)
    ensures items[i].key in HashOf(items)
    ensures ContactsFirst(items) && items[i].key.entity == Companies ==>
              forall j | 0 <= j < |items| && items[j].key.entity == Contacts && items[j].parent == Some(items[i].key.record) :: items[j].status != Pending
  {
    InHash(items, i);
  }

  /** Every write sent was for an item outside the exclusions; nothing is sent for an item after it was done. */
  ghost predicate WritesOk(items: seq<Item>, ws: seq<Write>) {
    && (forall k | 0 <= k < |ws| :: ws[k].item < |items| && items[ws[k].item].status != Excluded
          && (ws[k].done ==> items[ws[k].item].status == Done))
    && (forall j, k | 0 <= j < k < |ws| && ws[j].item == ws[k].item :: !ws[j].done)
  }
}
