/** The audit ledger: an append-only event stream without duplicates, read by cursor. */
module AuditLedgers {
  import opened Base

  datatype Event = Event(key: string, at: int, kind: string)

  ghost predicate DistinctKeys(events: seq<Event>) {
    forall i, j | 0 <= i < j < |events| :: events[i].key != events[j].key
  }

  predicate Known(events: seq<Event>, key: string) { exists i | 0 <= i < |events| :: events[i].key == key }

  /** What a batch adds: the events whose key is not there yet, each key once, in order. */
  function Inserted(events: seq<Event>, batch: seq<Event>): (r: seq<Event>)
    ensures events <= r
    decreases |batch|
  {
    if batch == [] then events
    else Inserted(if Known(events, batch[0].key) then events else events + [batch[0]], batch[1..])
  }

  lemma {:induction false} InsertedDistinct(events: seq<Event>, batch: seq<Event>)
    requires DistinctKeys(events)
    ensures DistinctKeys(Inserted(events, batch))
    ensures forall e | e in batch :: Known(Inserted(events, batch), e.key)
    decreases |batch|
  {
    if batch != [] {
      var more := if Known(events, batch[0].key) then events else events + [batch[0]];
      assert Known(more, batch[0].key) by { if more != events { assert more[|events|].key == batch[0].key; } }
      InsertedDistinct(more, batch[1..]);
      StillKnown(more, Inserted(events, batch), batch[0].key);
      forall e | e in batch ensures Known(Inserted(events, batch), e.key) {
        if e != batch[0] { assert e in batch[1..]; }
      }
    }
  }

  lemma StillKnown(a: seq<Event>, b: seq<Event>, key: string)
    requires a <= b && Known(a, key)
    ensures Known(b, key)
  {
    var i :| 0 <= i < |a| && a[i].key == key;
    assert b[i].key == key;
  }

  /** Reading the same things again adds nothing. */
  lemma {:induction false} InsertAgain(events: seq<Event>, batch: seq<Event>)
    requires forall e | e in batch :: Known(events, e.key)
    ensures Inserted(events, batch) == events
    decreases |batch|
  {
    if batch != [] { InsertAgain(events, batch[1..]); }
  }

  datatype Query = Query(since: int, kinds: set<string>)

  predicate Asked(q: Query, e: Event) { e.at >= q.since && (q.kinds == {} || e.kind in q.kinds) }

  /** The event with this id is stored and asked for (an event's id is its position plus one). */
  predicate Wanted(events: seq<Event>, q: Query, id: nat) { 0 < id <= |events| && Asked(q, events[id - 1]) }

  /** The events asked for among events[from..to], by their ids. */
  function Serving(events: seq<Event>, q: Query, from: nat, to: nat): (r: seq<nat>)
    requires from <= to <= |events|
    ensures forall id :: id in r <==> from < id <= to && Wanted(events, q, id)
    ensures forall i, j :: 0 <= i < j < |r| ==> r[i] < r[j]
    decreases |events| - from
  {
    if from == to then []
    else
      var rest := Serving(events, q, from + 1, to);
      assert forall j | 0 <= j < |rest| :: rest[j] in rest;
      if Asked(q, events[from]) then [from + 1] + rest else rest
  }

  /** At least one event, at most two thousand. */
  function PageSize(limit: int): (n: nat)
    ensures 1 <= n <= 2000
  {
    if limit < 1 then 1 else if limit > 2000 then 2000 else limit
  }

  class Ledger {
    var events: seq<Event>

    constructor ()
      ensures events == []
    {
      events := [];
    }

    /** Inserts are idempotent on the event key. */
    method Insert(batch: seq<Event>) returns (n: nat)
      requires DistinctKeys(events)
      modifies this
      ensures DistinctKeys(events) && events == Inserted(old(events), batch) && n == |events| - |old(events)|
    {
      InsertedDistinct(events, batch);
      ghost var was := events;
      n := 0;
      var i := 0;
      while i < |batch|
        invariant 0 <= i <= |batch| && n == |events| - |was| && n >= 0
        invariant Inserted(events, batch[i..]) == Inserted(was, batch)
      {
        assert batch[i..][1..] == batch[i + 1..];
        if !Known(events, batch[i].key) {
          events := events + [batch[i]];
          n := n + 1;
        }
        i := i + 1;
      }
    }

    /**
     * One page after the cursor, for a reader who was served `served` from `start` to it while the ledger was `was`:
     * it goes on exactly there, `more` says whether anything asked for is left, and only a full page leaves something.
     */
    method FeedPage(q: Query, after: nat, limit: int, ghost was: seq<Event>, ghost start: nat, ghost served: seq<nat>) returns (ids: seq<nat>, more: bool)
      requires was <= events && start <= after <= |was| && served == Serving(was, q, start, after)
      ensures after <= NextCursor(after, ids) <= |events|
      ensures served + ids == Serving(events, q, start, if more then NextCursor(after, ids) else |events|)
      ensures more <==> exists id | NextCursor(after, ids) < id :: Wanted(events, q, id)
      ensures |ids| <= PageSize(limit) && (more ==> |ids| == PageSize(limit))
    {
      var size := PageSize(limit);
      var all := Serving(events, q, after, |events|);
      ids := if |all| <= size then all else all[..size];
      more := |all| > size;
      PageContinues(was, events, q, start, after, served, ids, size);
      PageLeaves(events, q, after, ids, size);
    }
  }

  /** Where a reader goes on: after the last event it was served. */
  function NextCursor(after: nat, ids: seq<nat>): nat { if ids == [] then after else ids[|ids| - 1] }

  lemma {:induction false} ServingSplit(events: seq<Event>, q: Query, from: nat, mid: nat, to: nat)
    requires from <= mid <= to <= |events|
    ensures Serving(events, q, from, to) == Serving(events, q, from, mid) + Serving(events, q, mid, to)
    decreases |events| - from
  {
    if from < mid { ServingSplit(events, q, from + 1, mid, to); }
  }

  lemma {:induction false} ServingStable(a: seq<Event>, b: seq<Event>, q: Query, from: nat, to: nat)
    requires a <= b && from <= to <= |a|
    ensures Serving(b, q, from, to) == Serving(a, q, from, to)
    decreases |a| - from
  {
    if from < to { ServingStable(a, b, q, from + 1, to); }
  }

  /** What is served up to an id is everything asked for up to that id. */
  lemma {:induction false} ServingUpTo(events: seq<Event>, q: Query, from: nat, to: nat, n: nat)
    requires from <= to <= |events| && 0 < n <= |Serving(events, q, from, to)|
    ensures var id := Serving(events, q, from, to)[n - 1];
            from < id <= to && Serving(events, q, from, id) == Serving(events, q, from, to)[..n]
    decreases |events| - from
  {
    var all := Serving(events, q, from, to);
    var id := all[n - 1];
    assert id in all;
    if Asked(q, events[from]) {
      if n > 1 {
        ServingUpTo(events, q, from + 1, to, n - 1);
      } else {
        assert Serving(events, q, from + 1, from + 1) == [];
      }
    } else {
      ServingUpTo(events, q, from + 1, to, n);
    }
  }

  /**
   * A reader never skips an event and never sees one twice: a page, taken after any inserts, continues exactly where
   * the pages before it stopped.
   */
  lemma PageContinues(was: seq<Event>, now: seq<Event>, q: Query, start: nat, after: nat, served: seq<nat>, ids: seq<nat>, size: nat)
    requires was <= now && start <= after <= |was| && served == Serving(was, q, start, after) && size >= 1
    requires var all := Serving(now, q, after, |now|); ids == if |all| <= size then all else all[..size]
    ensures after <= NextCursor(after, ids) <= |now|
    ensures served + ids == Serving(now, q, start, NextCursor(after, ids))
    ensures |Serving(now, q, after, |now|)| <= size ==> served + ids == Serving(now, q, start, |now|)
  {
    var all := Serving(now, q, after, |now|);
    ServingStable(was, now, q, start, after);
    var next := NextCursor(after, ids);
    assert Serving(now, q, after, after) == [];
    if ids != [] {
      ServingUpTo(now, q, after, |now|, |ids|);
      assert ids == all[..|ids|];
    }
    assert Serving(now, q, after, next) == ids;
    ServingSplit(now, q, start, after, next);
    ServingSplit(now, q, start, after, |now|);
  }

  lemma LastLargest(all: seq<nat>)
    requires all != [] && forall i, j | 0 <= i < j < |all| :: all[i] < all[j]
    ensures forall x | x in all :: x <= all[|all| - 1]
  {
  }

  /** Something asked for is left after a page exactly when the page was cut. */
  lemma PageLeaves(events: seq<Event>, q: Query, after: nat, ids: seq<nat>, size: nat)
    requires after <= |events| && size >= 1
    requires var all := Serving(events, q, after, |events|); ids == if |all| <= size then all else all[..size]
    ensures |Serving(events, q, after, |events|)| > size <==> exists id | NextCursor(after, ids) < id :: Wanted(events, q, id)
  {
    var all := Serving(events, q, after, |events|);
    if |all| > size {
      CutLeaves(events, q, after, size);
    } else {
      WholeLeaves(events, q, after);
    }
  }

  lemma CutLeaves(events: seq<Event>, q: Query, after: nat, size: nat)
    requires after <= |events| && 1 <= size < |Serving(events, q, after, |events|)|
    ensures exists id | NextCursor(after, Serving(events, q, after, |events|)[..size]) < id :: Wanted(events, q, id)
  {
    var all := Serving(events, q, after, |events|);
    assert all[size] in all && all[size] > all[..size][size - 1];
  }

  lemma WholeLeaves(events: seq<Event>, q: Query, after: nat)
    requires after <= |events|
    ensures forall id | NextCursor(after, Serving(events, q, after, |events|)) < id :: !Wanted(events, q, id)
  {
    var all := Serving(events, q, after, |events|);
    if all != [] {
      LastLargest(all);
      assert all[|all| - 1] in all;
    }
    forall id | NextCursor(after, all) < id ensures !Wanted(events, q, id) { assert id !in all; }
  }
}
