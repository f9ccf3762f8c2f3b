/** The mirror's two tables, entity by entity: copied rows (with a deleted mark) and a sync state. */
module ShadowStores {
  import opened Base
  import opened Autotask

  datatype Rec = Rec(row: Row, live: bool)

  type Mirror = map<nat, Rec>

  datatype SyncState = SyncState(
    watermark: Option<nat>, cursor: nat, done: bool, windowFrom: Option<nat>,
    lastBackfill: Option<nat>, lastIncremental: Option<nat>, lastFull: Option<nat>, lastReconcile: Option<nat>)

  const NEW_STATE := SyncState(None, 0, false, None, None, None, None, None)

  /** Inserting or updating rows revives the deleted ones. */
  function Upserted(m: Mirror, page: map<nat, Row>): (r: Mirror)
    ensures forall id :: id in page ==> id in r && r[id] == Rec(page[id], true)
    ensures forall id :: id !in page ==> (id in r <==> id in m)
    ensures forall id :: id !in page && id in m ==> r[id] == m[id]
  {
    m + map id | id in page :: Rec(page[id], true)
  }

  function MarkedDeleted(m: Mirror, ids: set<nat>): (r: Mirror)
    ensures r.Keys == m.Keys
    ensures forall id :: id in m ==> r[id] == (if id in ids then m[id].(live := false) else m[id])
  {
    map id | id in m :: if id in ids then m[id].(live := false) else m[id]
  }

  function Live(m: Mirror): (s: set<nat>)
    ensures forall id :: id in s <==> id in m && m[id].live
  {
    set id | id in m && m[id].live
  }

  /** One entity's share of the two tables. */
  class ShadowTable {
    var rows: Mirror
    var state: SyncState

    constructor ()
      ensures rows == map[] && state == NEW_STATE
    {
      rows, state := map[], NEW_STATE;
    }

    method Upsert(page: map<nat, Row>)
      modifies `rows
      ensures rows == Upserted(old(rows), page)
    {
      if page == map[] {
        assert Upserted(rows, page) == rows;
        return;
      }
      rows := Upserted(rows, page);
    }

    method MarkDeleted(ids: set<nat>) returns (n: nat)
      modifies `rows
      ensures rows == MarkedDeleted(old(rows), ids)
      ensures n == |ids * old(Live(rows))|
    {
      if ids == {} {
        assert MarkedDeleted(rows, ids) == rows;
        assert ids * Live(rows) == {};
        return 0;
      }
      n := |ids * Live(rows)|;
      rows := MarkedDeleted(rows, ids);
    }

    /** Highest mirrored id, live or deleted; 0 when there is none. */
    method MaxId() returns (m: nat)
      ensures forall id :: id in rows ==> id <= m
      ensures m == 0 || m in rows
    {
      m := if rows.Keys == {} then 0 else MaxOf(rows.Keys);
    }

    method SaveState(st: SyncState)
      modifies `state
      ensures state == st
    {
      state := st;
    }
  }
}
