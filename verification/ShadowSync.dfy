/** The sync engine: budgeted walks that keep the mirror in step while Autotask goes on changing. */
module ShadowSyncs {
  import opened Base
  import opened Autotask
  import opened ShadowStores
  import opened MirrorTheory

  datatype Mode = Backfill | Incremental | Full | Refresh | Skip

  /** What one entity's turn did; its Autotask calls were numbers from+1 .. to of the run. */
  datatype Report = Report(entity: string, mode: Mode, from: nat, to: nat, done: bool, failed: bool)

  datatype Usage = Held | Unknown | Pct(pct: nat)

  function Pages(n: nat): nat { (n + PAGE - 1) / PAGE }

  lemma {:induction false} ChunkSize(ids: seq<nat>, i: nat, next: nat)
    requires i <= next <= |ids|
    ensures |set t | i <= t < next :: ids[t]| <= next - i
  {
    var s := set t | i <= t < next :: ids[t];
    if i == next {
      assert s == {};
    } else {
      var s' := set t | i <= t < next - 1 :: ids[t];
      ChunkSize(ids, i, next - 1);
      assert s == s' + {ids[next - 1]};
    }
  }

  /** Calls needed to re-read an entity's queued rows, and everybody's. */
  function OwnCalls(e: Entity, dirty: map<string, set<nat>>): nat { if e.name in dirty then Pages(|dirty[e.name]|) else 0 }

  function DirtyCalls(es: seq<Entity>, dirty: map<string, set<nat>>): nat {
    if es == [] then 0
    else OwnCalls(es[0], dirty) + DirtyCalls(es[1..], dirty)
  }

  /** No incremental walk lasted longer than the overlap, by Autotask's clock. */
  predicate Paced(rep: Report, env: seq<Call>) {
    rep.mode == Incremental && rep.done ==>
      rep.from <= rep.to < |env| && env[rep.to].remote.clock <= env[rep.from].remote.clock + OVERLAP
  }

  predicate Distinct<T(==)>(s: seq<T>) {
    forall i, j :: 0 <= i < j < |s| ==> s[i] != s[j]
  }

  /** An entity's mirror fits (`kept`: and lost no update), and only what has gone was marked deleted (outside window refresh). */
  ghost predicate Kept(e: Entity, r: Remote, first: Mirror, m: Mirror, st: SyncState, kept: bool) {
    && InSync(e, r, m, st, kept)
    && (!WindowMode(e) ==> DeletionsSound(first, m, r, e))
  }

  lemma KeptStable(e: Entity, a: Remote, b: Remote, first: Mirror, m: Mirror, st: SyncState, kept: bool)
    requires Kept(e, a, first, m, st, kept) && MovesOn(e, a, b)
    ensures Kept(e, b, first, m, st, kept)
  {
    InSyncStable(e, a, b, m, st, kept);
    if !WindowMode(e) { DeletionsStable(e, a, b, first, m); }
  }

  lemma KeptCompose(e: Entity, a: Remote, b: Remote, first: Mirror, m: Mirror, st: SyncState, was: bool, m': Mirror, st': SyncState, kept: bool)
    requires Kept(e, a, first, m, st, was) && MovesOn(e, a, b) && Kept(e, b, m, m', st', kept)
    ensures Kept(e, b, first, m', st', kept)
  {
  }

  ghost function RowsOf(ts: seq<ShadowTable>): (r: seq<Mirror>)
    reads ts
    ensures |r| == |ts| && forall j | 0 <= j < |ts| :: r[j] == ts[j].rows
  {
    seq(|ts|, j requires 0 <= j < |ts| reads ts => ts[j].rows)
  }

  ghost function StatesOf(ts: seq<ShadowTable>): (r: seq<SyncState>)
    reads ts
    ensures |r| == |ts| && forall j | 0 <= j < |ts| :: r[j] == ts[j].state
  {
    seq(|ts|, j requires 0 <= j < |ts| reads ts => ts[j].state)
  }

  /** Entity j lost no update in a run that it began without a lost one. */
  predicate StillKept(kept: seq<bool>, reports: seq<Report>, env: seq<Call>, j: nat) {
    j < |kept| && kept[j] && (j < |reports| ==> Paced(reports[j], env))
  }

  /** Where every table stands after call `k` of a run; `reports` are the turns taken so far, `kept` the entities that had lost no update. */
  ghost predicate Standing(es: seq<Entity>, env: seq<Call>, k: nat, ms: seq<Mirror>, sts: seq<SyncState>, firsts: seq<Mirror>, kept: seq<bool>, reports: seq<Report>) {
    && k < |env| && |ms| == |sts| == |es| == |firsts| == |kept| && |reports| <= |es|
    && forall j | 0 <= j < |es| :: Kept(es[j], env[k].remote, firsts[j], ms[j], sts[j], StillKept(kept, reports, env, j))
  }

  lemma StandingStart(es: seq<Entity>, env: seq<Call>, ms: seq<Mirror>, sts: seq<SyncState>, kept: seq<bool>)
    requires |env| > 0 && |ms| == |sts| == |es| == |kept|
    requires forall j | 0 <= j < |es| :: InSync(es[j], env[0].remote, ms[j], sts[j], kept[j])
    ensures Standing(es, env, 0, ms, sts, ms, kept, [])
  {
  }

  lemma StandingIdle(es: seq<Entity>, env: seq<Call>, k: nat, k1: nat, ms: seq<Mirror>, sts: seq<SyncState>, firsts: seq<Mirror>, kept: seq<bool>, reports: seq<Report>)
    requires Standing(es, env, k, ms, sts, firsts, kept, reports) && Timeline(es, env) && k <= k1 < |env|
    ensures Standing(es, env, k1, ms, sts, firsts, kept, reports)
  {
    forall j | 0 <= j < |es| ensures Kept(es[j], env[k1].remote, firsts[j], ms[j], sts[j], StillKept(kept, reports, env, j)) {
      Between(es, env, k, k1, es[j]);
      KeptStable(es[j], env[k].remote, env[k1].remote, firsts[j], ms[j], sts[j], StillKept(kept, reports, env, j));
    }
  }

  /** The next entity in line took its turn. */
  lemma StandingTurnReport(es: seq<Entity>, env: seq<Call>, k: nat, k1: nat, ms: seq<Mirror>, sts: seq<SyncState>, firsts: seq<Mirror>,
                           kept: seq<bool>, reports: seq<Report>, rep: Report, m: Mirror, st: SyncState)
    requires Standing(es, env, k, ms, sts, firsts, kept, reports) && Timeline(es, env) && k <= k1 < |env| && |reports| < |es|
    requires Kept(es[|reports|], env[k1].remote, ms[|reports|], m, st, kept[|reports|] && Paced(rep, env))
    ensures Standing(es, env, k1, ms[|reports| := m], sts[|reports| := st], firsts, kept, reports + [rep])
  {
    var i := |reports|;
    StandingIdle(es, env, k, k1, ms, sts, firsts, kept, reports);
    Between(es, env, k, k1, es[i]);
    KeptCompose(es[i], env[k].remote, env[k1].remote, firsts[i], ms[i], sts[i], StillKept(kept, reports, env, i), m, st, kept[i] && Paced(rep, env));
    forall j | 0 <= j < |es|
      ensures Kept(es[j], env[k1].remote, firsts[j], ms[i := m][j], sts[i := st][j], StillKept(kept, reports + [rep], env, j))
    {
      assert j != i ==> StillKept(kept, reports + [rep], env, j) == StillKept(kept, reports, env, j);
    }
  }

  lemma StandingReport(es: seq<Entity>, env: seq<Call>, k: nat, ms: seq<Mirror>, sts: seq<SyncState>, firsts: seq<Mirror>,
                       kept: seq<bool>, reports: seq<Report>, rep: Report)
    requires Standing(es, env, k, ms, sts, firsts, kept, reports) && |reports| < |es| && rep.mode == Skip
    ensures Standing(es, env, k, ms, sts, firsts, kept, reports + [rep])
  {
    forall j: nat | j < |es| ensures StillKept(kept, reports + [rep], env, j) == StillKept(kept, reports, env, j) {}
  }

  /** Outside the turns, one entity's rows were read or marked. */
  lemma StandingTurn(es: seq<Entity>, env: seq<Call>, k: nat, k1: nat, ms: seq<Mirror>, sts: seq<SyncState>, firsts: seq<Mirror>,
                     kept: seq<bool>, i: nat, m: Mirror, st: SyncState)
    requires Standing(es, env, k, ms, sts, firsts, kept, []) && Timeline(es, env) && k <= k1 < |env| && i < |es|
    requires InSync(es[i], env[k1].remote, m, st, kept[i]) && DeletionsSound(ms[i], m, env[k1].remote, es[i])
    ensures Standing(es, env, k1, ms[i := m], sts[i := st], firsts, kept, [])
  {
    StandingIdle(es, env, k, k1, ms, sts, firsts, kept, []);
    Between(es, env, k, k1, es[i]);
    KeptCompose(es[i], env[k].remote, env[k1].remote, firsts[i], ms[i], sts[i], kept[i], m, st, kept[i]);
  }

  // ---------------------------------------------------------------- one run after another

  /**
   * What the scheduler runs: a sync run, with the rows the MCP wrote since the last one and the usage it finds, or the
   * nightly deletion sweep of one entity; each with its timeline and clock.
   */
  datatype Round =
    | Sync(marks: map<string, set<nat>>, env: seq<Call>, usage: Usage, clock: Clock)
    | Sweep(entity: nat, env: seq<Call>, clock: Clock)

  /** The calls a sweep may make. */
  const SWEEP_CALLS: nat := 600

  /** A sweep is due once a day, when the entity was loaded. */
  predicate SweepDue(e: Entity, st: SyncState, now: nat) {
    e.watermark && st.done && (st.lastReconcile.None? || now - st.lastReconcile.value > 20 * HOUR)
  }

  /** The written rows still to be re-read, once more are written. */
  function Marked(dirty: map<string, set<nat>>, marks: map<string, set<nat>>): map<string, set<nat>> {
    map n | n in dirty.Keys + marks.Keys :: (if n in dirty then dirty[n] else {}) + if n in marks then marks[n] else {}
  }

  function MarkedBy(dirty: map<string, set<nat>>, round: Round): map<string, set<nat>> {
    if round.Sync? then Marked(dirty, round.marks) else dirty
  }

  ghost predicate Within(es: seq<Entity>, a: map<string, set<nat>>, b: map<string, set<nat>>) {
    forall e | e in es && e.name in a :: e.name in b && a[e.name] <= b[e.name]
  }

  lemma MarkedWithin(es: seq<Entity>, a: map<string, set<nat>>, b: map<string, set<nat>>, round: Round)
    requires Within(es, a, b)
    ensures Within(es, MarkedBy(a, round), MarkedBy(b, round))
  {
  }

  lemma {:induction false} FewerDirtyCalls(es: seq<Entity>, a: map<string, set<nat>>, b: map<string, set<nat>>)
    requires Within(es, a, b)
    ensures DirtyCalls(es, a) <= DirtyCalls(es, b)
    decreases |es|
  {
    if es != [] {
      FewerDirtyCalls(es[1..], a, b);
      if es[0].name in a { SubsetNoLarger(a[es[0].name], b[es[0].name]); }
    }
  }

  /** A round whose timeline starts some time after `before` and is long enough for the calls it makes. */
  ghost predicate RoundOk(es: seq<Entity>, maxCalls: nat, before: Remote, pending: map<string, set<nat>>, round: Round) {
    && |round.env| > 0 && maxCalls < |round.env| && Timeline(es, round.env) && MovesAll(es, before, round.env[0].remote)
    && round.clock.now <= round.env[0].remote.clock + OVERLAP
    && if round.Sync? then DirtyCalls(es, pending) < |round.env| else SWEEP_CALLS < |round.env| && round.entity < |es|
  }

  /** Autotask when a round is over. */
  function Last(round: Round): Remote
    requires |round.env| > 0
  {
    round.env[|round.env| - 1].remote
  }

  /** Rounds one after another, any number of changes by other people, and any writes of the MCP, between them. */
  ghost predicate Scheduled(es: seq<Entity>, maxCalls: nat, before: Remote, pending: map<string, set<nat>>, rounds: seq<Round>)
    decreases |rounds|
  {
    rounds == [] ||
    (var waiting := MarkedBy(pending, rounds[0]);
     RoundOk(es, maxCalls, before, waiting, rounds[0]) && Scheduled(es, maxCalls, Last(rounds[0]), waiting, rounds[1..]))
  }

  lemma {:induction false} NextScheduled(es: seq<Entity>, maxCalls: nat, before: Remote, pending: map<string, set<nat>>, rounds: seq<Round>, n: nat)
    requires n < |rounds| && Scheduled(es, maxCalls, before, pending, rounds[n..])
    ensures var waiting := MarkedBy(pending, rounds[n]);
            && RoundOk(es, maxCalls, before, waiting, rounds[n])
            && Scheduled(es, maxCalls, Last(rounds[n]), waiting, rounds[n + 1..])
  {
    assert rounds[n..][1..] == rounds[n + 1..];
  }

  /** Autotask after the first n rounds. */
  function After(start: Remote, rounds: seq<Round>, n: nat): Remote
    requires n <= |rounds|
  {
    if n == 0 || rounds[n - 1].env == [] then start else Last(rounds[n - 1])
  }

  /** Where every table stands between rounds. */
  ghost predicate Steady(es: seq<Entity>, r: Remote, ms: seq<Mirror>, sts: seq<SyncState>, firsts: seq<Mirror>, kept: seq<bool>) {
    |ms| == |sts| == |es| == |firsts| == |kept| && forall j | 0 <= j < |es| :: Kept(es[j], r, firsts[j], ms[j], sts[j], kept[j])
  }

  lemma SteadyStart(es: seq<Entity>, start: Remote, ms: seq<Mirror>, sts: seq<SyncState>, kept: seq<bool>)
    requires |ms| == |sts| == |es| == |kept| && forall j | 0 <= j < |es| :: InSync(es[j], start, ms[j], sts[j], kept[j])
    ensures Steady(es, start, ms, sts, ms, kept)
  {
  }

  /** Other people's changes until a round begins. */
  lemma SteadyStable(es: seq<Entity>, a: Remote, b: Remote, ms: seq<Mirror>, sts: seq<SyncState>, firsts: seq<Mirror>, kept: seq<bool>)
    requires Steady(es, a, ms, sts, firsts, kept) && MovesAll(es, a, b)
    ensures Steady(es, b, ms, sts, firsts, kept)
  {
    forall j | 0 <= j < |es| ensures Kept(es[j], b, firsts[j], ms[j], sts[j], kept[j]) {
      KeptStable(es[j], a, b, firsts[j], ms[j], sts[j], kept[j]);
    }
  }

  /** The entities that lost no update over a run. */
  function KeptAfter(kept: seq<bool>, reports: seq<Report>, env: seq<Call>): (now: seq<bool>)
    ensures |now| == |kept| && forall j | 0 <= j < |kept| :: now[j] == StillKept(kept, reports, env, j)
  {
    seq(|kept|, j requires 0 <= j < |kept| => StillKept(kept, reports, env, j))
  }

  /** What a run kept since it began, it kept since the first of them, and to the end of its timeline. */
  lemma StandingSteady(es: seq<Entity>, env: seq<Call>, k: nat, ms: seq<Mirror>, sts: seq<SyncState>, firsts: seq<Mirror>, kept: seq<bool>,
                       ms': seq<Mirror>, sts': seq<SyncState>, reports: seq<Report>)
    requires Timeline(es, env) && k < |env| && Steady(es, env[0].remote, ms, sts, firsts, kept)
    requires Standing(es, env, k, ms', sts', ms, kept, reports)
    ensures Steady(es, env[|env| - 1].remote, ms', sts', firsts, KeptAfter(kept, reports, env))
  {
    StandingIdle(es, env, k, |env| - 1, ms', sts', ms, kept, reports);
    forall j | 0 <= j < |es| ensures Kept(es[j], env[|env| - 1].remote, firsts[j], ms'[j], sts'[j], StillKept(kept, reports, env, j)) {
      Between(es, env, 0, |env| - 1, es[j]);
      KeptCompose(es[j], env[0].remote, env[|env| - 1].remote, firsts[j], ms[j], sts[j], kept[j], ms'[j], sts'[j], StillKept(kept, reports, env, j));
    }
  }

  /** Entity j's walk was paced in every round it took a turn in. */
  predicate AllPaced(rounds: seq<Round>, reports: seq<seq<Report>>, j: nat)
    requires |reports| <= |rounds|
  {
    forall k | 0 <= k < |reports| :: j < |reports[k]| ==> Paced(reports[k][j], rounds[k].env)
  }

  /** `kept` tells which entities' walks were all paced so far. */
  ghost predicate Tells(kept: seq<bool>, rounds: seq<Round>, reports: seq<seq<Report>>) {
    |reports| <= |rounds| && forall j: nat | j < |kept| :: kept[j] <==> AllPaced(rounds, reports, j)
  }

  lemma TellsMore(kept: seq<bool>, rounds: seq<Round>, reports: seq<seq<Report>>, reps: seq<Report>)
    requires Tells(kept, rounds, reports) && |reports| < |rounds|
    ensures Tells(KeptAfter(kept, reps, rounds[|reports|].env), rounds, reports + [reps])
  {
    var env, more := rounds[|reports|].env, reports + [reps];
    forall j: nat | j < |kept| ensures StillKept(kept, reps, env, j) <==> AllPaced(rounds, more, j) {
      assert AllPaced(rounds, more, j) <==> AllPaced(rounds, reports, j) && (j < |reps| ==> Paced(reps[j], env)) by {
        assert more[|reports|] == reps && forall k | 0 <= k < |reports| :: more[k] == reports[k];
      }
    }
  }

  predicate StillHas(e: Entity, r: Remote, rows: map<nat, Row>) { Has(e, r) && Rows(e, r) == rows }

  predicate WindowMode(e: Entity) { !e.watermark && e.window.Some? }

  const HOUR: nat := 3_600_000

  /** The whole window is re-read once a day; a just-finished backfill counts. */
  predicate FullDue(st: SyncState, now: nat) {
    var last := if st.lastReconcile.Some? then st.lastReconcile else st.lastBackfill;
    last.None? || now - last.value > 20 * HOUR
  }

  predicate HotDue(e: Entity, st: SyncState, now: nat) {
    var last := if st.lastFull.Some? then st.lastFull else st.lastBackfill;
    last.None? || now - last.value >= e.fullEvery
  }

  class ShadowSync {
    var calls: nat
    var maxCalls: nat
    var pauseAtPct: nat
    var dirty: map<string, set<nat>>
    var resolved: set<string>
    const entities: seq<Entity>

    constructor (entities: seq<Entity>, maxCalls: nat, pauseAtPct: nat)
      ensures this.entities == entities && this.maxCalls == maxCalls && dirty == map[]
    {
      this.entities, this.maxCalls, this.pauseAtPct := entities, maxCalls, pauseAtPct;
      calls, dirty, resolved := 0, map[], {};
    }

    /** Whatever other people do to Autotask during the run is in `env`, one moment per call. */
    ghost predicate Running(env: seq<Call>)
      reads this
    {
      calls < |env| && maxCalls < |env| && Timeline(entities, env)
    }

    /** One page: a call, counted whether or not it answers. */
    method Page(env: seq<Call>, e: Entity, f: Filter, cursor: nat) returns (ok: bool, page: map<nat, Row>)
      requires Running(env) && e in entities && calls + 1 < |env|
      modifies `calls
      ensures calls == old(calls) + 1
      ensures Has(e, env[calls].remote) && ok == env[calls].ok
      ensures page == if ok then PageOf(Rows(e, env[calls].remote), f, cursor) else map[]
    {
      calls := calls + 1;
      Between(entities, env, calls, calls, e);
      ok := env[calls].ok;
      page := if ok then PageOf(Rows(e, env[calls].remote), f, cursor) else map[];
    }

    /** One page of the first load, and where it left off. */
    method BackfillPage(env: seq<Call>, e: Entity, s: ShadowTable, ghost first: Mirror, ghost kept: bool) returns (ok: bool)
      requires Running(env) && e in entities && calls < maxCalls && !s.state.done
      requires InSync(e, env[calls].remote, s.rows, s.state, kept) && DeletionsSound(first, s.rows, env[calls].remote, e)
      requires e.watermark ==> s.state.watermark.Some?
      modifies `calls, s
      ensures calls == old(calls) + 1 && (s.state.done ==> ok)
      ensures InSync(e, env[calls].remote, s.rows, s.state, kept) && DeletionsSound(first, s.rows, env[calls].remote, e)
      ensures s.state.cursor >= old(s.state.cursor) && s.state.watermark == old(s.state).watermark
    {
      ghost var m, st, k := s.rows, s.state, calls;
      var page;
      ok, page := Page(env, e, InWindowFrom(e, s.state.windowFrom), s.state.cursor);
      s.Upsert(page);
      if ok { s.SaveState(AfterBackfillPage(s.state, page)); }
      Between(entities, env, k, calls, e);
      BackfillCall(e, env[k].remote, env[calls].remote, first, m, st, ok, page, s.state, kept);
    }

    /** First load: walk up from the saved cursor, resumable across runs. */
    method Backfill(env: seq<Call>, e: Entity, s: ShadowTable, clock: Clock, ghost kept: bool) returns (rep: Report)
      requires Running(env) && e in entities
      requires InSync(e, env[calls].remote, s.rows, s.state, kept) && !s.state.done
      requires clock.now <= env[calls].remote.clock + OVERLAP
      modifies `calls, s
      ensures old(calls) <= calls <= Max(old(calls), maxCalls)
      ensures rep == Report(e.name, Mode.Backfill, old(calls), calls, rep.done, rep.failed)
      ensures InSync(e, env[calls].remote, s.rows, s.state, kept)
      ensures DeletionsSound(old(s.rows), s.rows, env[calls].remote, e)
      ensures s.state.done == rep.done && s.state.cursor >= old(s.state.cursor)
      ensures s.state.watermark == StartState(e, old(s.state), clock).watermark
    {
      var from := calls;
      Between(entities, env, calls, calls, e);
      BackfillStart(e, env[calls].remote, s.rows, s.state, clock, kept);
      if s.state.cursor == 0 && s.state.watermark.None? {
        s.SaveState(StartState(e, s.state, clock));
      }
      var failed := false;
      while calls < maxCalls && !s.state.done && !failed
        invariant from <= calls <= Max(from, maxCalls) && (s.state.done ==> !failed)
        invariant s.state.cursor >= old(s.state.cursor)
        invariant s.state.watermark == StartState(e, old(s.state), clock).watermark
        invariant InSync(e, env[calls].remote, s.rows, s.state, kept)
        invariant DeletionsSound(old(s.rows), s.rows, env[calls].remote, e)
        decreases maxCalls - calls
      {
        var ok := BackfillPage(env, e, s, old(s.rows), kept);
        failed := !ok;
      }
      if s.state.done {
        var noted := s.state.(lastBackfill := Some(clock.now));
        NotesKeep(e, env[calls].remote, s.rows, s.state, noted, kept);
        s.SaveState(noted);
      }
      rep := Report(e.name, Mode.Backfill, from, calls, s.state.done, failed);
    }

    /** The incremental walk itself: changed rows in id order, copied page by page. */
    method ReadChanged(env: seq<Call>, e: Entity, s: ShadowTable, ghost kept: bool) returns (newest: nat, complete: bool, failed: bool, ghost cursor: nat)
      requires Running(env) && e in entities && e.watermark && s.state.done
      requires InSync(e, env[calls].remote, s.rows, s.state, kept)
      modifies `calls, s`rows
      ensures old(calls) <= calls <= Max(old(calls), maxCalls)
      ensures Walking(e, env[calls].remote, old(s.rows), s.rows, s.state, s.state.watermark.value - OVERLAP,
                      cursor, complete, env[old(calls)].remote.clock, newest, kept)
      ensures complete ==> !failed
    {
      var from := calls;
      ghost var start := env[calls].remote.clock;
      Between(entities, env, calls, calls, e);
      WalkStart(e, env[calls].remote, s.rows, s.state, kept);
      var since := s.state.watermark.value - OVERLAP;
      var at: nat := 0;
      newest, complete, failed, cursor := s.state.watermark.value, false, false, 0;
      while calls < maxCalls && !complete
        invariant from <= calls <= Max(from, maxCalls)
        invariant Walking(e, env[calls].remote, old(s.rows), s.rows, s.state, since, at, complete, start, newest, kept)
        decreases maxCalls - calls
      {
        ghost var m, k := s.rows, calls;
        var ok, page := Page(env, e, ChangedFrom(e, since), at);
        Between(entities, env, k, calls, e);
        if !ok {
          WalkIdle(e, env[k].remote, env[calls].remote, old(s.rows), m, s.state, since, at, start, newest, kept);
          failed, cursor := true, at;
          return;
        }
        WalkCall(e, env[k].remote, env[calls].remote, old(s.rows), m, s.state, since, at, start, newest, page, kept);
        s.Upsert(page);
        newest, at, complete := Newest(e, page, newest), CursorAfter(page, at), |page| < PAGE;
      }
      cursor := at;
    }

    /**
     * Rows changed since the watermark less the overlap. The watermark moves only when the whole walk was read;
     * a walk no longer than the overlap then loses no update.
     */
    method Incremental(env: seq<Call>, e: Entity, s: ShadowTable, clock: Clock, ghost kept: bool) returns (rep: Report)
      requires Running(env) && e in entities && e.watermark && s.state.done
      requires InSync(e, env[calls].remote, s.rows, s.state, kept)
      requires clock.now <= env[calls].remote.clock + OVERLAP
      modifies `calls, s
      ensures old(calls) <= calls <= Max(old(calls), maxCalls)
      ensures rep == Report(e.name, Mode.Incremental, old(calls), calls, rep.done, rep.failed)
      ensures InSync(e, env[calls].remote, s.rows, s.state, kept && Paced(rep, env))
      ensures DeletionsSound(old(s.rows), s.rows, env[calls].remote, e)
      ensures !rep.done ==> s.state == old(s.state)
      ensures rep.done ==> s.state == old(s.state).(watermark := s.state.watermark, lastIncremental := Some(clock.now))
      ensures rep.done ==> WalkEnded(e, env[calls].remote, s.rows, old(s.state), env[old(calls)].remote.clock, s.state.watermark, clock, kept)
    {
      var from := calls;
      Between(entities, env, calls, calls, e);
      var newest, complete, failed, cursor := ReadChanged(env, e, s, kept);
      rep := Report(e.name, Mode.Incremental, from, calls, complete, failed);
      if complete {
        var st := s.state.(watermark := Some(NewWatermark(newest, clock)), lastIncremental := Some(clock.now));
        WalkDone(e, env[calls].remote, old(s.rows), s.rows, s.state, s.state.watermark.value - OVERLAP, cursor, env[from].remote.clock, newest, clock, st, kept);
        WalkClosed(e, env[calls].remote, old(s.rows), s.rows, s.state, s.state.watermark.value - OVERLAP, cursor, env[from].remote.clock, newest, clock, kept);
        s.SaveState(st);
      }
    }

    /** One page of a full refresh: its rows are copied, its ids noted. */
    method ReadWholePage(env: seq<Call>, e: Entity, s: ShadowTable, ghost first: Mirror, ghost from: nat, before: set<nat>, cursor: nat, ghost kept: bool)
      returns (ok: bool, seen: set<nat>, at: nat, complete: bool)
      requires Running(env) && e in entities && calls < maxCalls
      requires FullWalk(e, env, first, s.rows, s.state, before, from, calls, cursor, false, kept)
      modifies `calls, s`rows
      ensures calls == old(calls) + 1 && (complete ==> ok)
      ensures FullWalk(e, env, first, s.rows, s.state, seen, from, calls, at, complete, kept)
    {
      ghost var m, k := s.rows, calls;
      var page;
      ok, page := Page(env, e, Everything, cursor);
      Between(entities, env, k, calls, e);
      if !ok {
        FullIdle(e, env, first, m, s.state, before, from, k, calls, cursor, kept);
        return ok, before, cursor, false;
      }
      FullCall(e, env, first, m, s.state, before, from, k, calls, cursor, page, kept);
      s.Upsert(page);
      seen, at, complete := before + page.Keys, CursorAfter(page, cursor), |page| < PAGE;
    }

    /** The walk of a full refresh. */
    method ReadWhole(env: seq<Call>, e: Entity, s: ShadowTable, ghost kept: bool) returns (seen: set<nat>, complete: bool, failed: bool, ghost cursor: nat)
      requires Running(env) && e in entities
      requires InSync(e, env[calls].remote, s.rows, s.state, kept)
      modifies `calls, s`rows
      ensures old(calls) <= calls <= Max(old(calls), maxCalls)
      ensures FullWalk(e, env, old(s.rows), s.rows, s.state, seen, old(calls), calls, cursor, complete, kept)
      ensures complete ==> !failed
    {
      var from := calls;
      var at: nat := 0;
      seen, complete, failed, cursor := {}, false, false, 0;
      Between(entities, env, calls, calls, e);
      while calls < maxCalls && !complete && !failed
        invariant calls <= Max(from, maxCalls) && (complete ==> !failed)
        invariant FullWalk(e, env, old(s.rows), s.rows, s.state, seen, from, calls, at, complete, kept)
        decreases maxCalls - calls
      {
        var ok;
        ok, seen, at, complete := ReadWholePage(env, e, s, old(s.rows), from, seen, at, kept);
        failed := !ok;
      }
      cursor := at;
    }

    /** Small tables without a modified stamp: re-read whole; rows that vanished are marked deleted. */
    method FullRefresh(env: seq<Call>, e: Entity, s: ShadowTable, clock: Clock, ghost kept: bool) returns (rep: Report, seen: set<nat>)
      requires Running(env) && e in entities && !e.watermark
      requires InSync(e, env[calls].remote, s.rows, s.state, kept)
      modifies `calls, s
      ensures old(calls) <= calls <= Max(old(calls), maxCalls)
      ensures rep == Report(e.name, rep.mode, old(calls), calls, rep.done, rep.failed) && (rep.mode == Full || rep.mode == Skip)
      ensures rep.mode == Skip <==> old(s.state).lastFull.Some? && clock.now - old(s.state).lastFull.value < e.fullEvery
      ensures rep.mode == Skip ==> s.rows == old(s.rows) && s.state == old(s.state) && calls == old(calls) && !rep.done
      ensures InSync(e, env[calls].remote, s.rows, s.state, kept)
      ensures DeletionsSound(old(s.rows), s.rows, env[calls].remote, e)
      ensures rep.done ==> SeenUpTo(Rows(e, env[calls].remote), seen, 0, true) && Live(s.rows) == seen
      ensures rep.done ==> AllCopied(e, env, s.rows, seen, old(calls), calls)
      ensures s.state == if rep.done then old(s.state).(lastFull := Some(clock.now), done := true, lastBackfill := Some(clock.now)) else old(s.state)
    {
      var from := calls;
      Between(entities, env, calls, calls, e);
      if s.state.lastFull.Some? && clock.now - s.state.lastFull.value < e.fullEvery {
        return Report(e.name, Skip, from, from, false, false), {};
      }
      var complete, failed;
      ghost var cursor;
      seen, complete, failed, cursor := ReadWhole(env, e, s, kept);
      if complete {
        FullEnd(e, env, old(s.rows), s.rows, s.state, seen, from, calls, cursor, kept);
        var _ := s.MarkDeleted(Live(s.rows) - seen);
        s.SaveState(s.state.(lastFull := Some(clock.now), done := true, lastBackfill := Some(clock.now)));
      }
      rep := Report(e.name, Full, from, calls, complete, failed);
    }

    /** Catch deletions in a big table: an id-only walk; live rows Autotask no longer returns are marked deleted. */
    method Reconcile(env: seq<Call>, e: Entity, s: ShadowTable, budget: nat, clock: Clock, ghost kept: bool) returns (rep: Report, seen: set<nat>)
      requires e in entities && |env| > 0 && budget < |env| && Timeline(entities, env)
      requires InSync(e, env[0].remote, s.rows, s.state, kept)
      modifies `calls, `maxCalls, s
      ensures maxCalls == old(maxCalls) && calls <= budget
      ensures rep == Report(e.name, Full, 0, calls, rep.done, rep.failed)
      ensures InSync(e, env[calls].remote, s.rows, s.state, kept)
      ensures DeletionsSound(old(s.rows), s.rows, env[calls].remote, e)
      ensures rep.done ==> SeenUpTo(Rows(e, env[calls].remote), seen, 0, true)
      ensures forall id | id in seen :: exists k | 0 < k <= calls :: Present(e, env[k].remote, id)
      ensures s.rows == if rep.done then MarkedDeleted(old(s.rows), Live(old(s.rows)) - seen) else old(s.rows)
      ensures s.state == if rep.done then old(s.state).(lastReconcile := Some(clock.now)) else old(s.state)
    {
      var saved := maxCalls;
      maxCalls, calls, seen := budget, 0, {};
      Between(entities, env, 0, 0, e);
      var cursor: nat, complete: bool := 0, false;
      while calls < maxCalls && !complete
        invariant calls <= maxCalls == budget && s.rows == old(s.rows) && s.state == old(s.state)
        invariant InSync(e, env[calls].remote, s.rows, s.state, kept)
        invariant DeletionsSound(old(s.rows), s.rows, env[calls].remote, e)
        invariant SeenUpTo(Rows(e, env[calls].remote), seen, cursor, complete) && cursor <= env[calls].remote.tables[e.name].top
        invariant forall id | id in seen :: exists k | 0 < k <= calls :: Present(e, env[k].remote, id)
        decreases maxCalls - calls
      {
        ghost var k := calls;
        var ok, page := Page(env, e, Everything, cursor);
        Between(entities, env, k, calls, e);
        IdleCall(e, env[k].remote, env[calls].remote, old(s.rows), s.rows, s.state, kept);
        if !ok {
          maxCalls := saved;
          return Report(e.name, Full, 0, calls, false, true), seen;
        }
        SeenCall(e, env[k].remote, env[calls].remote, seen, cursor, page);
        assert forall id | id in page :: Present(e, env[calls].remote, id);
        seen := seen + page.Keys;
        cursor := CursorAfter(page, cursor);
        complete := |page| < PAGE;
      }
      if complete {
        var gone := Live(s.rows) - seen;
        MarkKeeps(e, env[calls].remote, s.rows, s.state, gone, kept);
        var _ := s.MarkDeleted(gone);
        NotesKeep(e, env[calls].remote, s.rows, s.state, s.state.(lastReconcile := Some(clock.now)), kept);
        s.SaveState(s.state.(lastReconcile := Some(clock.now)));
      }
      rep := Report(e.name, Full, 0, calls, complete, false);
      maxCalls := saved;
    }

    /**
     * The nightly sequence for one entity: an incremental run, then the deletion sweep. If Autotask stayed as it was
     * and both walks were complete, the live rows of an unwindowed entity are exactly Autotask's.
     */
    method SyncAndSweep(env: seq<Call>, sweep: seq<Call>, e: Entity, s: ShadowTable, clock: Clock, budget: nat, ghost rows: map<nat, Row>)
      returns (synced: Report, swept: Report)
      requires Running(env) && e in entities && e.watermark && e.window.None? && s.state.done
      requires InSync(e, env[calls].remote, s.rows, s.state, true) && clock.now <= env[calls].remote.clock + OVERLAP
      requires Timeline(entities, sweep) && budget < |sweep| && forall k | calls <= k < |env| :: MovesOn(e, env[k].remote, sweep[0].remote)
      requires Quiet(e, rows, env[calls].remote.clock)
      requires forall k | calls <= k < |env| :: StillHas(e, env[k].remote, rows)
      requires forall k | 0 <= k < |sweep| :: StillHas(e, sweep[k].remote, rows)
      modifies `calls, `maxCalls, s
      ensures synced.done && Paced(synced, env) && swept.done ==>
                Live(s.rows) == rows.Keys && forall id | id in rows :: s.rows[id] == Rec(rows[id], true)
    {
      ghost var st := s.state;
      ghost var start := env[calls].remote.clock;
      synced := Incremental(env, e, s, clock, true);
      swept := Report(e.name, Skip, 0, 0, false, true);
      if synced.done && Paced(synced, env) {
        ghost var walked := s.rows;
        assert StillHas(e, env[calls].remote, rows);
        InSyncStable(e, env[calls].remote, sweep[0].remote, s.rows, s.state, true);
        var seen;
        swept, seen := Reconcile(sweep, e, s, budget, clock, true);
        if swept.done {
          assert StillHas(e, sweep[calls].remote, rows);
          forall id | id in seen ensures id in rows {
            var k :| 0 < k <= calls && Present(e, sweep[k].remote, id);
            assert StillHas(e, sweep[k].remote, rows);
          }
          Convergence(e, rows, walked, st, start, seen, s.rows);
        }
      }
    }

    /** What one chunk found is copied; the rest of it is marked deleted. */
    static method CopyChunk(s: ShadowTable, page: map<nat, Row>, chunk: set<nat>)
      modifies s`rows
      ensures s.rows == AfterChunk(old(s.rows), page, chunk)
    {
      s.Upsert(page);
      var _ := s.MarkDeleted(chunk - page.Keys);
    }

    /** One `id in …` query of at most 500 ids: found rows are copied, the others marked deleted. */
    method RefreshChunk(env: seq<Call>, e: Entity, s: ShadowTable, chunk: set<nat>, ghost first: Mirror, ghost kept: bool) returns (ok: bool, ghost page: map<nat, Row>)
      requires calls + 1 < |env| && Running(env) && e in entities && |chunk| <= PAGE
      requires InSync(e, env[calls].remote, s.rows, s.state, kept) && DeletionsSound(first, s.rows, env[calls].remote, e)
      modifies `calls, s`rows
      ensures calls == old(calls) + 1
      ensures InSync(e, env[calls].remote, s.rows, s.state, kept) && DeletionsSound(first, s.rows, env[calls].remote, e)
      ensures page.Keys <= chunk && s.rows == if ok then AfterChunk(old(s.rows), page, chunk) else old(s.rows)
      ensures ok ==> forall id | id in chunk :: AsOf(e, env[calls].remote, s.rows, id)
    {
      ghost var k, m := calls, s.rows;
      var read;
      ok, read := Page(env, e, IdIn(chunk), 0);
      page := read;
      Between(entities, env, k, calls, e);
      if ok {
        CopyChunk(s, read, chunk);
        ChunkCall(e, env, first, m, s.state, k, calls, chunk, read, s.rows, kept);
      } else {
        IdleCall(e, env[k].remote, env[calls].remote, first, m, s.state, kept);
      }
    }

    /** Re-read given rows, whatever the budget. */
    method RefreshIds(env: seq<Call>, e: Entity, s: ShadowTable, ids: seq<nat>, ghost kept: bool) returns (failed: bool)
      requires calls + Pages(|ids|) < |env| && Timeline(entities, env) && e in entities && maxCalls < |env|
      requires InSync(e, env[calls].remote, s.rows, s.state, kept)
      modifies `calls, s`rows
      ensures old(calls) <= calls <= old(calls) + Pages(|ids|)
      ensures InSync(e, env[calls].remote, s.rows, s.state, kept)
      ensures DeletionsSound(old(s.rows), s.rows, env[calls].remote, e)
      ensures !failed ==> calls == old(calls) + Pages(|ids|) && AllAsOf(e, env, s.rows, ids, old(calls), calls)
    {
      var i := 0;
      Between(entities, env, calls, calls, e);
      while i < |ids|
        invariant 0 <= i <= |ids| && old(calls) <= calls && calls + Pages(|ids| - i) == old(calls) + Pages(|ids|)
        invariant InSync(e, env[calls].remote, s.rows, s.state, kept)
        invariant DeletionsSound(old(s.rows), s.rows, env[calls].remote, e)
        invariant AllAsOf(e, env, s.rows, ids[..i], old(calls), calls)
      {
        var next := if i + PAGE < |ids| then i + PAGE else |ids|;
        var chunk := set t | i <= t < next :: ids[t];
        ChunkSize(ids, i, next);
        ghost var m := s.rows;
        var ok, page := RefreshChunk(env, e, s, chunk, old(s.rows), kept);
        if !ok { return true; }
        AsOfCall(e, env, ids, i, next, chunk, m, page, s.rows, old(calls), calls - 1, calls);
        i := next;
      }
      assert ids[..i] == ids;
      failed := false;
    }

    /** Window refresh, first part: rows above the highest mirrored id. */
    method ReadNew(env: seq<Call>, e: Entity, s: ShadowTable, ghost kept: bool) returns (complete: bool, failed: bool, ghost highest: nat)
      requires Running(env) && e in entities && InSync(e, env[calls].remote, s.rows, s.state, kept)
      modifies `calls, s`rows
      ensures old(calls) <= calls <= Max(old(calls), maxCalls)
      ensures InSync(e, env[calls].remote, s.rows, s.state, kept)
      ensures Live(old(s.rows)) <= Live(s.rows)
      ensures highest == 0 || highest in old(s.rows)
      ensures complete ==> !failed && forall id | id in Rows(e, env[calls].remote) && id > highest :: id in s.rows
    {
      var from := calls;
      Between(entities, env, calls, calls, e);
      var cursor: nat := s.MaxId();
      highest := cursor;
      complete, failed := false, false;
      while calls < maxCalls && !complete
        invariant from <= calls <= Max(from, maxCalls)
        invariant InSync(e, env[calls].remote, s.rows, s.state, kept)
        invariant Live(old(s.rows)) <= Live(s.rows)
        invariant cursor <= env[calls].remote.tables[e.name].top
        invariant NewRead(Rows(e, env[calls].remote), s.rows, highest, cursor, complete)
        decreases maxCalls - calls
      {
        ghost var m, k := s.rows, calls;
        var ok, page := Page(env, e, Everything, cursor);
        Between(entities, env, k, calls, e);
        InSyncStable(e, env[k].remote, env[calls].remote, m, s.state, kept);
        if !ok { failed := true; return; }
        NewCall(e, env[k].remote, env[calls].remote, m, highest, cursor, page);
        UpsertKeeps(e, env[calls].remote, m, s.state, page, kept);
        s.Upsert(page);
        cursor, complete := CursorAfter(page, cursor), |page| < PAGE;
      }
    }

    /** Window refresh, second part: the rows of the window from `day` on. */
    method ReadRange(env: seq<Call>, e: Entity, s: ShadowTable, day: Option<nat>, ghost kept: bool) returns (seen: set<nat>, complete: bool, failed: bool)
      requires Running(env) && e in entities && InSync(e, env[calls].remote, s.rows, s.state, kept)
      modifies `calls, s`rows
      ensures old(calls) <= calls <= Max(old(calls), maxCalls)
      ensures InSync(e, env[calls].remote, s.rows, s.state, kept)
      ensures complete ==> !failed && RangeSeen(e, env, day, seen, old(calls), calls, 0, true) && AllCopied(e, env, s.rows, seen, old(calls), calls)
    {
      var from := calls;
      var cursor: nat := 0;
      seen, complete, failed := {}, false, false;
      Between(entities, env, calls, calls, e);
      while calls < maxCalls && !complete
        invariant calls <= Max(from, maxCalls)
        invariant RangeWalk(e, env, s.rows, s.state, day, seen, from, calls, cursor, complete, kept)
        decreases maxCalls - calls
      {
        ghost var m, k := s.rows, calls;
        var ok, page := Page(env, e, InWindowFrom(e, day), cursor);
        Between(entities, env, k, calls, e);
        if !ok {
          InSyncStable(e, env[k].remote, env[calls].remote, m, s.state, kept);
          failed := true;
          return;
        }
        RangeStep(e, env, m, s.state, day, seen, from, k, calls, cursor, page, kept);
        s.Upsert(page);
        seen, cursor, complete := seen + page.Keys, CursorAfter(page, cursor), |page| < PAGE;
      }
    }

    /**
     * Window-refresh mode: new rows every run; edits by re-reading the recent part of the window every `fullEvery`,
     * and the whole window once a day. Only rows of the re-read range can be marked deleted.
     */
    method WindowRefresh(env: seq<Call>, e: Entity, s: ShadowTable, clock: Clock, ghost kept: bool) returns (rep: Report, ghost mid: nat, ghost day: Option<nat>, seen: set<nat>)
      requires Running(env) && e in entities && WindowMode(e) && InSync(e, env[calls].remote, s.rows, s.state, kept)
      modifies `calls, s
      ensures old(calls) <= mid <= calls <= Max(old(calls), maxCalls)
      ensures rep == Report(e.name, rep.mode, old(calls), calls, rep.done, rep.failed) && (rep.mode == Refresh || rep.mode == Mode.Incremental)
      ensures InSync(e, env[calls].remote, s.rows, s.state, kept)
      ensures s.state == old(s.state).(lastIncremental := s.state.lastIncremental, lastFull := s.state.lastFull, lastReconcile := s.state.lastReconcile)
      ensures rep.done ==> s.state.lastIncremental == Some(clock.now)
      ensures rep.mode == Refresh ==> rep.done && s.state.lastFull == Some(clock.now)
      ensures rep.mode == Refresh && FullDue(old(s.state), clock.now) ==> s.state.lastReconcile == Some(clock.now) && day == old(s.state).windowFrom
      ensures rep.mode == Refresh && !FullDue(old(s.state), clock.now) ==> HotDue(e, old(s.state), clock.now)
      ensures rep.mode == Refresh ==> Reread(e, env, s.rows, day, seen, mid, calls)
    {
      var from := calls;
      var st := s.state;
      var newDone, failed, _ := ReadNew(env, e, s, kept);
      mid, day, seen := calls, None, {};
      if failed { return Report(e.name, Mode.Incremental, from, calls, false, true), mid, day, seen; }
      if newDone {
        PlainInSync(e, env[calls].remote, s.rows, s.rows, s.state, kept);
        s.SaveState(s.state.(lastIncremental := Some(clock.now)));
      }
      var refreshed := false;
      if newDone && (FullDue(st, clock.now) || HotDue(e, st, clock.now)) {
        var fromDay := if FullDue(st, clock.now) then st.windowFrom
                       else if st.windowFrom.Some? && st.windowFrom.value > clock.recentFrom then st.windowFrom
                       else Some(clock.recentFrom);
        day := fromDay;
        var complete;
        seen, complete, failed := ReadRange(env, e, s, fromDay, kept);
        if failed { return Report(e.name, Mode.Incremental, from, calls, false, true), mid, day, seen; }
        if complete {
          var gone := LiveInRange(e, s.rows, fromDay) - seen;
          RangeEnd(e, env, s.rows, s.state, day, seen, mid, calls, kept);
          var _ := s.MarkDeleted(gone);
          s.SaveState(if FullDue(st, clock.now) then s.state.(lastFull := Some(clock.now), lastReconcile := Some(clock.now))
                      else s.state.(lastFull := Some(clock.now)));
          refreshed := true;
        }
      }
      rep := Report(e.name, if refreshed then Refresh else Mode.Incremental, from, calls, newDone, false);
    }

    /** The entity as it applies to this tenant: one field-list call per process, and not mirrored when fields are missing. */
    method Effective(env: seq<Call>, e: Entity) returns (usable: bool)
      requires calls + 1 < |env|
      modifies `calls, `resolved
      ensures calls == if e.lookup && e.name !in old(resolved) then old(calls) + 1 else old(calls)
      ensures usable <==> !e.lookup || (e.mirrored && (e.name in old(resolved) || env[calls].ok))
      ensures resolved == if calls != old(calls) && env[calls].ok then old(resolved) + {e.name} else old(resolved)
    {
      if !e.lookup { return true; }
      if e.name in resolved { return e.mirrored; }
      calls := calls + 1;
      if !env[calls].ok { return false; }
      resolved := resolved + {e.name};
      usable := e.mirrored;
    }

    /** One entity's turn, by how the entity stays fresh. */
    method SyncEntity(env: seq<Call>, e: Entity, s: ShadowTable, clock: Clock, ghost kept: bool) returns (rep: Report)
      requires Running(env) && e in entities && InSync(e, env[calls].remote, s.rows, s.state, kept)
      requires clock.now <= env[calls].remote.clock + OVERLAP
      modifies `calls, s
      ensures old(calls) <= calls <= Max(old(calls), maxCalls)
      ensures rep == Report(e.name, rep.mode, old(calls), calls, rep.done, rep.failed)
      ensures e.watermark && old(s.state.done) ==> rep.mode == Mode.Incremental
      ensures Kept(e, env[calls].remote, old(s.rows), s.rows, s.state, kept && Paced(rep, env))
    {
      Between(entities, env, calls, calls, e);
      if !e.watermark && e.window.Some? {
        if !s.state.done {
          rep := Backfill(env, e, s, clock, kept);
        } else {
          var r, _, _, _ := WindowRefresh(env, e, s, clock, kept);
          rep := r;
        }
      } else if !e.watermark {
        var r, _ := FullRefresh(env, e, s, clock, kept);
        rep := r;
      } else if !s.state.done {
        rep := Backfill(env, e, s, clock, kept);
      } else {
        rep := Incremental(env, e, s, clock, kept);
      }
    }

    /** One entity's written rows, if any: the marks are dropped, then the rows re-read. */
    method RefreshOne(env: seq<Call>, tables: seq<ShadowTable>, ghost firsts: seq<Mirror>, ghost kept: seq<bool>, i: nat)
      requires Running(env) && i < |entities| == |tables| && Distinct(tables)
      requires calls + OwnCalls(entities[i], dirty) < |env|
      requires Standing(entities, env, calls, RowsOf(tables), StatesOf(tables), firsts, kept, [])
      modifies `calls, `dirty, tables
      ensures calls <= old(calls) + OwnCalls(entities[i], old(dirty))
      ensures dirty == old(dirty) - {entities[i].name}
      ensures Standing(entities, env, calls, RowsOf(tables), StatesOf(tables), firsts, kept, [])
    {
      if entities[i].name !in dirty {
        assert dirty == dirty - {entities[i].name};
        return;
      }
      ghost var k, ms, sts := calls, RowsOf(tables), StatesOf(tables);
      var ids := Ascending(dirty[entities[i].name]);
      dirty := dirty - {entities[i].name};
      var _ := RefreshIds(env, entities[i], tables[i], ids, kept[i]);
      assert RowsOf(tables) == ms[i := tables[i].rows];
      assert StatesOf(tables) == sts;
      StandingTurn(entities, env, k, calls, ms, sts, firsts, kept, i, tables[i].rows, sts[i]);
    }

    /** The rows the MCP wrote, re-read first, whatever the budget. */
    method RefreshDirty(env: seq<Call>, tables: seq<ShadowTable>, ghost firsts: seq<Mirror>, ghost kept: seq<bool>)
      requires Running(env) && calls == 0 && DirtyCalls(entities, dirty) < |env| && |entities| == |tables| && Distinct(tables)
      requires Standing(entities, env, 0, RowsOf(tables), StatesOf(tables), firsts, kept, [])
      modifies `calls, `dirty, tables
      ensures calls <= DirtyCalls(entities, old(dirty))
      ensures forall e | e in entities :: e.name !in dirty
      ensures Standing(entities, env, calls, RowsOf(tables), StatesOf(tables), firsts, kept, [])
    {
      var i := 0;
      while i < |entities|
        invariant 0 <= i <= |entities|
        invariant calls + DirtyCalls(entities[i..], old(dirty)) <= DirtyCalls(entities, old(dirty))
        invariant forall t | 0 <= t < i :: entities[t].name !in dirty
        invariant forall n | n in dirty :: n in old(dirty) && dirty[n] == old(dirty)[n]
        invariant Standing(entities, env, calls, RowsOf(tables), StatesOf(tables), firsts, kept, [])
      {
        assert entities[i..][1..] == entities[i + 1..];
        RefreshOne(env, tables, firsts, kept, i);
        i := i + 1;
      }
    }

    /** One entity's turn; the others meanwhile only see other people's changes. */
    method TakeTurn(env: seq<Call>, tables: seq<ShadowTable>, ghost firsts: seq<Mirror>, ghost kept: seq<bool>, reports: seq<Report>, clock: Clock) returns (rep: Report)
      requires Running(env) && |reports| < |entities| == |tables| && Distinct(tables)
      requires Standing(entities, env, calls, RowsOf(tables), StatesOf(tables), firsts, kept, reports)
      requires clock.now <= env[0].remote.clock + OVERLAP
      modifies `calls, tables
      ensures old(calls) <= calls <= Max(old(calls), maxCalls)
      ensures rep == Report(entities[|reports|].name, rep.mode, old(calls), calls, rep.done, rep.failed)
      ensures Standing(entities, env, calls, RowsOf(tables), StatesOf(tables), firsts, kept, reports + [rep])
    {
      var i := |reports|;
      ghost var k, ms, sts := calls, RowsOf(tables), StatesOf(tables);
      Between(entities, env, 0, calls, entities[i]);
      rep := SyncEntity(env, entities[i], tables[i], clock, kept[i]);
      assert RowsOf(tables) == ms[i := tables[i].rows];
      assert StatesOf(tables) == sts[i := tables[i].state];
      StandingTurnReport(entities, env, k, calls, ms, sts, firsts, kept, reports, rep, tables[i].rows, tables[i].state);
    }

    /** Whether the next entity gets a turn: budget left, and this tenant can serve it. */
    method Admit(env: seq<Call>, tables: seq<ShadowTable>, ghost firsts: seq<Mirror>, ghost kept: seq<bool>, reports: seq<Report>) returns (usable: bool, spent: bool)
      requires Running(env) && |reports| < |entities| == |tables|
      requires Standing(entities, env, calls, RowsOf(tables), StatesOf(tables), firsts, kept, reports)
      modifies `calls, `resolved
      ensures old(calls) <= calls <= Max(old(calls), maxCalls) && spent == (old(calls) >= maxCalls) && (spent ==> !usable && calls == old(calls))
      ensures Standing(entities, env, calls, RowsOf(tables), StatesOf(tables), firsts, kept, reports)
    {
      usable, spent := false, calls >= maxCalls;
      if !spent {
        ghost var k, ms, sts := calls, RowsOf(tables), StatesOf(tables);
        usable := Effective(env, entities[|reports|]);
        assert RowsOf(tables) == ms;
        assert StatesOf(tables) == sts;
        StandingIdle(entities, env, k, calls, ms, sts, firsts, kept, reports);
      }
    }

    /** A turn inside a run: skipped when the budget is spent or this tenant cannot serve the entity. */
    method Turn(env: seq<Call>, tables: seq<ShadowTable>, ghost firsts: seq<Mirror>, ghost kept: seq<bool>, reports: seq<Report>, clock: Clock) returns (rep: Report)
      requires Running(env) && |reports| < |entities| == |tables| && Distinct(tables)
      requires Standing(entities, env, calls, RowsOf(tables), StatesOf(tables), firsts, kept, reports)
      requires clock.now <= env[0].remote.clock + OVERLAP
      modifies `calls, `resolved, tables
      ensures old(calls) <= calls <= Max(old(calls), maxCalls)
      ensures rep.entity == entities[|reports|].name && old(calls) <= rep.from <= rep.to == calls
      ensures old(calls) >= maxCalls ==> rep.mode == Skip
      ensures Standing(entities, env, calls, RowsOf(tables), StatesOf(tables), firsts, kept, reports + [rep])
    {
      var usable, spent := Admit(env, tables, firsts, kept, reports);
      if usable {
        rep := TakeTurn(env, tables, firsts, kept, reports, clock);
      } else {
        rep := Report(entities[|reports|].name, Skip, calls, calls, false, !spent);
        StandingReport(entities, env, calls, RowsOf(tables), StatesOf(tables), firsts, kept, reports, rep);
      }
    }

    /** Every entity in turn, until the budget is spent. */
    method RunEntities(env: seq<Call>, tables: seq<ShadowTable>, ghost firsts: seq<Mirror>, ghost kept: seq<bool>, clock: Clock) returns (reports: seq<Report>)
      requires Running(env) && |entities| == |tables| && Distinct(tables) && clock.now <= env[0].remote.clock + OVERLAP
      requires Standing(entities, env, calls, RowsOf(tables), StatesOf(tables), firsts, kept, [])
      modifies `calls, `resolved, tables
      ensures old(calls) <= calls <= Max(old(calls), maxCalls) && |reports| == |entities|
      ensures Standing(entities, env, calls, RowsOf(tables), StatesOf(tables), firsts, kept, reports)
    {
      reports := [];
      while |reports| < |entities|
        invariant |reports| <= |entities| && old(calls) <= calls <= Max(old(calls), maxCalls)
        invariant Standing(entities, env, calls, RowsOf(tables), StatesOf(tables), firsts, kept, reports)
      {
        var rep := Turn(env, tables, firsts, kept, reports, clock);
        reports := reports + [rep];
      }
    }

    /**
     * A scheduled run: nothing when Autotask is holding calls or usage is high; else the written rows, then each
     * entity in turn. It spends no more than its budget (or what the written rows need), loses no update of an entity
     * that had lost none and whose walk was paced, and marks deleted only rows Autotask no longer has.
     */
    method RunOnce(env: seq<Call>, tables: seq<ShadowTable>, usage: Usage, clock: Clock, ghost kept: seq<bool>) returns (skipped: bool, reports: seq<Report>)
      requires |env| > 0 && maxCalls < |env| && DirtyCalls(entities, dirty) < |env| && Timeline(entities, env)
      requires |entities| == |tables| == |kept| && Distinct(tables) && clock.now <= env[0].remote.clock + OVERLAP
      requires forall j | 0 <= j < |tables| :: InSync(entities[j], env[0].remote, tables[j].rows, tables[j].state, kept[j])
      modifies `calls, `dirty, `resolved, tables
      ensures skipped <==> usage == Held || (usage.Pct? && usage.pct >= pauseAtPct)
      ensures skipped ==> calls == 0 && reports == [] && dirty == old(dirty)
      ensures skipped ==> RowsOf(tables) == old(RowsOf(tables)) && StatesOf(tables) == old(StatesOf(tables))
      ensures !skipped ==> |reports| == |entities| && forall e | e in entities :: e.name !in dirty
      ensures calls <= Max(maxCalls, DirtyCalls(entities, old(dirty)))
      ensures Standing(entities, env, calls, RowsOf(tables), StatesOf(tables), old(RowsOf(tables)), kept, reports)
    {
      ghost var ms, sts := RowsOf(tables), StatesOf(tables);
      StandingStart(entities, env, ms, sts, kept);
      calls, reports := 0, [];
      assert RowsOf(tables) == ms;
      assert StatesOf(tables) == sts;
      skipped := usage == Held || (usage.Pct? && usage.pct >= pauseAtPct);
      if !skipped {
        RefreshDirty(env, tables, ms, kept);
        reports := RunEntities(env, tables, ms, kept, clock);
      }
    }

    /** The nightly sweep of one entity, when it is due. */
    method SweepOne(env: seq<Call>, tables: seq<ShadowTable>, i: nat, clock: Clock, ghost firsts: seq<Mirror>, ghost kept: seq<bool>)
      requires |env| > 0 && SWEEP_CALLS < |env| && Timeline(entities, env) && i < |entities| == |tables| && Distinct(tables)
      requires Standing(entities, env, 0, RowsOf(tables), StatesOf(tables), firsts, kept, [])
      modifies `calls, `maxCalls, tables
      ensures calls <= SWEEP_CALLS && maxCalls == old(maxCalls)
      ensures Standing(entities, env, calls, RowsOf(tables), StatesOf(tables), firsts, kept, [])
    {
      ghost var ms, sts := RowsOf(tables), StatesOf(tables);
      calls := 0;
      assert RowsOf(tables) == ms;
      assert StatesOf(tables) == sts;
      if SweepDue(entities[i], tables[i].state, clock.now) {
        var _, _ := Reconcile(env, entities[i], tables[i], SWEEP_CALLS, clock, kept[i]);
        assert RowsOf(tables) == ms[i := tables[i].rows];
        assert StatesOf(tables) == sts[i := tables[i].state];
        StandingTurn(entities, env, 0, calls, ms, sts, firsts, kept, i, tables[i].rows, tables[i].state);
      }
    }

    /** A sync run or a sweep. */
    method TakeRound(round: Round, tables: seq<ShadowTable>, ghost pending: map<string, set<nat>>, ghost kept: seq<bool>) returns (reports: seq<Report>)
      requires |round.env| > 0 && RoundOk(entities, maxCalls, round.env[0].remote, pending, round) && DirtyCalls(entities, dirty) <= DirtyCalls(entities, pending)
      requires |entities| == |tables| == |kept| && Distinct(tables)
      requires forall j | 0 <= j < |tables| :: InSync(entities[j], round.env[0].remote, tables[j].rows, tables[j].state, kept[j])
      modifies `calls, `maxCalls, `dirty, `resolved, tables
      ensures maxCalls == old(maxCalls) && Within(entities, dirty, old(dirty))
      ensures calls <= if round.Sync? then Max(maxCalls, DirtyCalls(entities, pending)) else SWEEP_CALLS
      ensures Standing(entities, round.env, calls, RowsOf(tables), StatesOf(tables), old(RowsOf(tables)), kept, reports)
    {
      if round.Sync? {
        var _, reps := RunOnce(round.env, tables, round.usage, round.clock, kept);
        reports := reps;
      } else {
        StandingStart(entities, round.env, RowsOf(tables), StatesOf(tables), kept);
        SweepOne(round.env, tables, round.entity, round.clock, RowsOf(tables), kept);
        reports := [];
      }
    }

    /** One round, some time after the last one. */
    method RunRound(round: Round, tables: seq<ShadowTable>, ghost before: Remote, ghost pending: map<string, set<nat>>, ghost firsts: seq<Mirror>, ghost kept: seq<bool>)
      returns (reports: seq<Report>)
      requires |entities| == |tables| && Distinct(tables) && Steady(entities, before, RowsOf(tables), StatesOf(tables), firsts, kept)
      requires Within(entities, MarkedBy(dirty, round), pending) && RoundOk(entities, maxCalls, before, pending, round)
      modifies `calls, `maxCalls, `dirty, `resolved, tables
      ensures maxCalls == old(maxCalls) && Within(entities, dirty, pending)
      ensures calls <= if round.Sync? then Max(maxCalls, DirtyCalls(entities, pending)) else SWEEP_CALLS
      ensures Steady(entities, Last(round), RowsOf(tables), StatesOf(tables), firsts, KeptAfter(kept, reports, round.env))
    {
      ghost var ms, sts := RowsOf(tables), StatesOf(tables);
      SteadyStable(entities, before, round.env[0].remote, ms, sts, firsts, kept);
      dirty := MarkedBy(dirty, round);
      FewerDirtyCalls(entities, dirty, pending);
      assert RowsOf(tables) == ms;
      assert StatesOf(tables) == sts;
      reports := TakeRound(round, tables, pending, kept);
      StandingSteady(entities, round.env, calls, ms, sts, firsts, kept, RowsOf(tables), StatesOf(tables), reports);
    }

    /**
     * Round after round, runs and sweeps, other people's changes during and between them: an entity all of whose walks
     * were paced has lost no update, and (outside window mode) no row Autotask still has was marked deleted, counted
     * from the first round, whatever befell other entities.
     */
    method Run(rounds: seq<Round>, tables: seq<ShadowTable>, ghost start: Remote) returns (reports: seq<seq<Report>>, ghost kept: seq<bool>)
      requires |entities| == |tables| && Distinct(tables) && Scheduled(entities, maxCalls, start, dirty, rounds)
      requires forall j | 0 <= j < |tables| :: InSync(entities[j], start, tables[j].rows, tables[j].state, true)
      modifies `calls, `maxCalls, `dirty, `resolved, tables
      ensures |reports| == |rounds| && |kept| == |entities| && Tells(kept, rounds, reports)
      ensures Steady(entities, After(start, rounds, |rounds|), RowsOf(tables), StatesOf(tables), old(RowsOf(tables)), kept)
    {
      ghost var firsts, at, pending := RowsOf(tables), start, dirty;
      kept := seq(|entities|, _ => true);
      SteadyStart(entities, start, firsts, StatesOf(tables), kept);
      reports := [];
      while |reports| < |rounds|
        invariant |reports| <= |rounds| && |kept| == |entities| && maxCalls == old(maxCalls)
        invariant at == After(start, rounds, |reports|)
        invariant Scheduled(entities, maxCalls, at, pending, rounds[|reports|..]) && Within(entities, dirty, pending)
        invariant Tells(kept, rounds, reports)
        invariant Steady(entities, at, RowsOf(tables), StatesOf(tables), firsts, kept)
      {
        var round := rounds[|reports|];
        NextScheduled(entities, maxCalls, at, pending, rounds, |reports|);
        MarkedWithin(entities, dirty, pending, round);
        pending := MarkedBy(pending, round);
        var reps := RunRound(round, tables, at, pending, firsts, kept);
        TellsMore(kept, rounds, reports, reps);
        kept, at := KeptAfter(kept, reps, round.env), Last(round);
        reports := reports + [reps];
      }
    }
  }
}
