/** Bulk jobs: the item queue, the approved hash, the schedule, and what any step may do to them. */
module BulkJobs {
  import opened Base

  const MAX_ATTEMPTS: nat := 3
  const HOUR: nat := 3_600_000

  datatype Entity = Contacts | Companies

  /** What is to be inactivated. */
  datatype Key = Key(entity: Entity, record: nat)

  datatype ItemStatus = Pending | Done | Skipped | Failed | Excluded

  datatype Item = Item(key: Key, parent: Option<nat>, status: ItemStatus, attempts: nat)

  datatype JobStatus = Preparing | Ready | Approved | Running | Paused | Complete | Cancelled | Broken

  // ---------------------------------------------------------------- the approval hash

  /** The hash stands for the exact list of keys to be written; excluded items are not part of it. */
  function HashOf(items: seq<Item>): seq<Key> {
    if items == [] then []
    else
      var front := HashOf(items[..|items| - 1]);
      if items[|items| - 1].status == Excluded then front else front + [items[|items| - 1].key]
  }

  /** What progress may do to the items: keys and exclusions stay, done and skipped items stay as they are. */
  ghost predicate Progressed(a: seq<Item>, b: seq<Item>) {
    && |a| == |b|
    && forall i | 0 <= i < |a| ::
         && b[i] == a[i].(status := b[i].status, attempts := b[i].attempts)
         && (b[i].status == Excluded <==> a[i].status == Excluded)
         && (a[i].status == Done || a[i].status == Skipped ==> b[i] == a[i])
  }

  lemma {:induction false} HashStays(a: seq<Item>, b: seq<Item>)
    requires Progressed(a, b)
    ensures HashOf(b) == HashOf(a)
    decreases |a|
  {
    if a != [] {
      var x, y := a[..|a| - 1], b[..|b| - 1];
      assert b[|b| - 1].key == a[|a| - 1].key;
      HashStays(x, y);
    }
  }

  lemma {:induction false} InHash(items: seq<Item>, i: nat)
    requires i < |items| && items[i].status != Excluded
    ensures items[i].key in HashOf(items)
    decreases |items|
  {
    if i < |items| - 1 { InHash(items[..|items| - 1], i); }
  }

  // ---------------------------------------------------------------- the queue

  /** The item whose turn it is: the first pending one. */
  ghost predicate IsNext(items: seq<Item>, i: nat) {
    i < |items| && items[i].status == Pending && forall j | 0 <= j < i :: items[j].status != Pending
  }

  /** A company comes after its contacts. */
  ghost predicate ContactsFirst(items: seq<Item>) {
    forall i, j | 0 <= i < |items| && 0 <= j < |items| && items[i].key.entity == Companies && items[j].key.entity == Contacts
                  && items[j].parent == Some(items[i].key.record) :: j < i
  }

  /** Writes still ahead of an item: at least one, at most its remaining attempts. */
  function Ahead(i: Item): nat {
    if i.status != Pending then 0 else if i.attempts >= 2 then 1 else MAX_ATTEMPTS - i.attempts
  }

  function Potential(items: seq<Item>): nat {
    if items == [] then 0 else Potential(items[..|items| - 1]) + Ahead(items[|items| - 1])
  }

  lemma {:induction false} PotentialAt(items: seq<Item>, i: nat, x: Item)
    requires i < |items|
    ensures Potential(items[i := x]) == Potential(items) - Ahead(items[i]) + Ahead(x)
    decreases |items|
  {
    var n := |items| - 1;
    if i == n {
      assert items[i := x][..n] == items[..n];
    } else {
      assert items[i := x][..n] == items[..n][i := x];
      PotentialAt(items[..n], i, x);
    }
  }

  lemma {:induction false} PotentialBound(items: seq<Item>)
    ensures Potential(items) <= MAX_ATTEMPTS * |items|
    decreases |items|
  {
    if items != [] { PotentialBound(items[..|items| - 1]); }
  }

  /** Items that have been processed: written, gone or failed. */
  predicate IsHandled(i: Item) { i.status == Done || i.status == Skipped || i.status == Failed }

  function Handled(items: seq<Item>): nat {
    if items == [] then 0 else Handled(items[..|items| - 1]) + if IsHandled(items[|items| - 1]) then 1 else 0
  }

  lemma {:induction false} HandledAt(items: seq<Item>, i: nat, x: Item)
    requires i < |items|
    ensures Handled(items[i := x]) == Handled(items) - (if IsHandled(items[i]) then 1 else 0) + if IsHandled(x) then 1 else 0
    decreases |items|
  {
    var n := |items| - 1;
    if i == n {
      assert items[i := x][..n] == items[..n];
    } else {
      assert items[i := x][..n] == items[..n][i := x];
      HandledAt(items[..n], i, x);
    }
  }

  lemma {:induction false} FreshHandled(items: seq<Item>)
    requires forall i | i in items :: i.status == Pending || i.status == Excluded
    ensures Handled(items) == 0
    decreases |items|
  {
    if items != [] {
      assert items[|items| - 1] in items;
      FreshHandled(items[..|items| - 1]);
    }
  }

  /** An operator's retry: failed items are pending again, their attempts forgotten. */
  function Requeued(items: seq<Item>): (r: seq<Item>)
    ensures |r| == |items|
    ensures forall i | 0 <= i < |items| :: r[i] == if items[i].status == Failed then items[i].(status := Pending, attempts := 0) else items[i]
  {
    seq(|items|, i requires 0 <= i < |items| => if items[i].status == Failed then items[i].(status := Pending, attempts := 0) else items[i])
  }

  lemma {:induction false} RequeuedHandled(items: seq<Item>)
    ensures Handled(Requeued(items)) <= Handled(items)
    decreases |items|
  {
    if items != [] {
      RequeuedHandled(items[..|items| - 1]);
      assert Requeued(items)[..|items| - 1] == Requeued(items[..|items| - 1]);
    }
  }

  // ---------------------------------------------------------------- the pace

  /** Local weekday (0 = Sunday) and hour of an instant. */
  datatype Local = Local(day: nat, hour: nat)

  /** Local hours [start, end) on some days (None: every day). */
  datatype Window = Window(start: nat, end: nat, days: Option<set<nat>>)

  predicate Within(w: Window, at: Local) {
    w.start <= at.hour < w.end && (w.days.Some? ==> at.day in w.days.value)
  }

  predicate InQuiet(quiet: seq<Window>, at: Local) { exists w | w in quiet :: Within(w, at) }

  datatype Schedule = Schedule(hours: Window, rate: int)

  /** Writes per hour right now: never more than the job's own rate. */
  function CurrentRate(at: Local, rate: nat, s: Option<Schedule>): (r: int)
    ensures r <= rate
  {
    if s.Some? && Within(s.value.hours, at) && s.value.rate < rate then s.value.rate else rate
  }

  datatype Level = Fine | Slow | Stop

  /** The gap since the last write is long enough (never, when Autotask is busy). */
  predicate GapPassed(ms: int, rate: int, level: Level) {
    match level
    case Fine => ms * Max(1, rate) >= HOUR
    case Slow => ms * Max(1, rate) >= 2 * HOUR
    case Stop => false
  }

  /** Whatever the schedule and the backpressure say, the gap is at least the job's own. */
  lemma GapAtLeast(ms: int, rate: int, level: Level, jobRate: nat)
    requires GapPassed(ms, rate, level) && rate <= jobRate
    ensures Apart(0, ms, jobRate) && ms > 0
  {
    var a, b := Max(1, rate), Max(1, jobRate);
    assert ms * a >= HOUR;
    assert ms > 0 || ms * a <= 0;
    assert ms * b == ms * a + ms * (b - a);
    assert ms * (b - a) >= 0;
  }

  /** A write sent: the item, when, and how it turned out. */
  datatype Write = Write(item: nat, at: int, done: bool)

  /** The job's own gap lies between two moments. */
  predicate Apart(from: int, to: int, rate: nat) { (to - from) * Max(1, rate) >= HOUR }

  ghost predicate FarFromLast(ws: seq<Write>, k: nat, rate: nat) { 0 < k < |ws| && Apart(ws[k - 1].at, ws[k].at, rate) }

  ghost predicate Spaced(ws: seq<Write>, rate: nat) {
    forall k: nat | 0 < k < |ws| :: FarFromLast(ws, k, rate)
  }

  lemma {:induction false} SpacedApart(ws: seq<Write>, rate: nat, i: nat, j: nat)
    requires Spaced(ws, rate) && i <= j < |ws|
    ensures (ws[j].at - ws[i].at) * Max(1, rate) >= (j - i) * HOUR
    decreases j
  {
    if i < j {
      SpacedApart(ws, rate, i, j - 1);
      assert FarFromLast(ws, j, rate);
      var r := Max(1, rate);
      var a, b := ws[j].at - ws[j - 1].at, ws[j - 1].at - ws[i].at;
      assert (a + b) * r == a * r + b * r;
    }
  }

  /** Any stretch of t milliseconds holds at most t * rate / 3,600,000 writes, and one. */
  lemma Pacing(ws: seq<Write>, rate: nat, i: nat, j: nat, t: nat)
    requires Spaced(ws, rate) && i <= j < |ws| && ws[j].at - ws[i].at <= t
    ensures j - i + 1 <= t * Max(1, rate) / HOUR + 1
  {
    SpacedApart(ws, rate, i, j);
    var r := Max(1, rate);
    assert (ws[j].at - ws[i].at) * r <= t * r;
    assert (j - i) * HOUR <= t * r;
  }
}
