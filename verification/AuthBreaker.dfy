/**
 * The login-protection breaker: after a rejected login a tenant is paused, tested a few times, then held.
 * Functions say what each piece of a request does to one tenant's block; the class keeps the table of blocks;
 * the state machine interleaves any number of concurrent requests, restarts included.
 */
module AuthBreakers {
  import opened Base

  const PROBE_WINDOW: nat := 90_000
  const PROVISIONAL: nat := 60_000
  const HELD_UNTIL: nat := 9_007_199_254_740_991
  const PAUSE_MAX: nat := 3_600_000

  /** The first pause in milliseconds (0 disables the breaker) and the automatic test calls allowed. */
  datatype Config = Config(base: nat, maxProbes: nat)

  datatype AuthBlock = AuthBlock(
    since: nat, until: nat, failures: nat, probeAt: Option<nat>, held: bool, provisional: bool, fp: Option<string>)

  /** What survives a restart. */
  datatype Saved = Saved(since: nat, until: Option<nat>, failures: nat, held: bool, fp: Option<string>)

  function ToSave(b: Option<AuthBlock>): Option<Saved> {
    if b.None? || b.value.provisional then None
    else Some(Saved(b.value.since, if b.value.held then None else Some(b.value.until), b.value.failures, b.value.held, b.value.fp))
  }

  function Restored(s: Option<Saved>): Option<AuthBlock> {
    if s.None? then None
    else
      var until := if s.value.held then HELD_UNTIL else if s.value.until.Some? then s.value.until.value else 0;
      Some(AuthBlock(s.value.since, until, s.value.failures, None, s.value.held, false, s.value.fp))
  }

  /** A restart keeps a settled block whole, except that nobody waits for a test call's answer any more. */
  lemma SaveRestore(b: AuthBlock)
    requires !b.provisional && (b.held ==> b.until == HELD_UNTIL)
    ensures Restored(ToSave(Some(b))) == Some(b.(probeAt := None))
  {
  }

  // ---------------------------------------------------------------- one tenant's block

  /** A block for other credentials no longer applies. */
  function Applying(b: Option<AuthBlock>, fp: string): Option<AuthBlock> {
    if b.Some? && b.value.fp.Some? && b.value.fp.value != fp then None else b
  }

  /** Not sent: the pause lasts, or somebody else's test call is waiting for its answer. */
  predicate Blocks(b: AuthBlock, now: nat) {
    b.until > now || (b.probeAt.Some? && now - b.probeAt.value < PROBE_WINDOW)
  }

  datatype Entry = Refused | Through(probing: bool)

  function Gate(b: Option<AuthBlock>, fp: string, now: nat): (Option<AuthBlock>, Entry) {
    var a := Applying(b, fp);
    if a.None? then (None, Through(false))
    else if Blocks(a.value, now) then (a, Refused)
    else (Some(a.value.(probeAt := Some(now))), Through(true))
  }

  function Doubled(base: nat, times: nat): nat {
    if times == 0 then base else 2 * Doubled(base, times - 1)
  }

  function PauseMs(base: nat, failures: nat): nat
    requires failures >= 1
  {
    var ms := Doubled(base, failures - 1);
    if ms < PAUSE_MAX then ms else PAUSE_MAX
  }

  /** A login rejected while already paused, by a request sent before the pause, does not lengthen it. */
  predicate AlreadyPaused(b: Option<AuthBlock>, now: nat) {
    b.Some? && !b.value.provisional && b.value.until > now && b.value.probeAt.None?
  }

  function Trip(c: Config, b: Option<AuthBlock>, fp: string, now: nat): Option<AuthBlock> {
    if c.base == 0 then None
    else if AlreadyPaused(b, now) then b
    else
      var settled := b.Some? && !b.value.provisional;
      var failures := (if settled then b.value.failures else 0) + 1;
      var held := failures > c.maxProbes;
      Some(AuthBlock(if settled then b.value.since else now, if held then HELD_UNTIL else now + PauseMs(c.base, failures),
                     failures, None, held, false, Some(fp)))
  }

  function Provisional(now: nat): AuthBlock { AuthBlock(now, now + PROVISIONAL, 0, None, false, true, None) }

  /** What a 401 leads to: nothing more, a look at the zone and the login, or (for a test call) the verdict. */
  datatype Verdict = Ignored | LookFurther | Confirmed

  function After401(c: Config, b: Option<AuthBlock>, probing: bool, now: nat): (Option<AuthBlock>, Verdict) {
    if c.base == 0 || (b.Some? && !probing) then (b, Ignored)
    else if probing then (b, Confirmed)
    else (Some(Provisional(now)), LookFurther)
  }

  /** A request was answered: the login works. */
  function Accepted(b: Option<AuthBlock>, probing: bool): Option<AuthBlock> {
    if b.Some? && (probing || b.value.provisional) then None else b
  }

  // ---------------------------------------------------------------- the table of blocks

  function At<V>(m: map<string, V>, t: string): Option<V> { if t in m then Some(m[t]) else None }

  function Put<V>(m: map<string, V>, t: string, v: Option<V>): (r: map<string, V>)
    ensures At(r, t) == v && forall u | u != t :: At(r, u) == At(m, u)
  {
    if v.Some? then m[t := v.value] else m - {t}
  }

  class AuthBreaker {
    const config: Config
    var blocks: map<string, AuthBlock>
    var saved: map<string, Saved>

    constructor (config: Config, saved: map<string, Saved>)
      ensures this.config == config && this.saved == saved
      ensures blocks.Keys == saved.Keys && forall t | t in saved :: At(blocks, t) == Restored(Some(saved[t]))
    {
      this.config, this.saved := config, saved;
      blocks := map t | t in saved :: Restored(Some(saved[t])).value;
    }

    method Persist(t: string)
      modifies `saved
      ensures saved == Put(old(saved), t, ToSave(At(blocks, t)))
    {
      saved := Put(saved, t, ToSave(At(blocks, t)));
    }

    /** In front of every upstream call. */
    method Enter(t: string, fp: string, now: nat) returns (e: Entry)
      modifies `blocks, `saved
      ensures blocks == Put(old(blocks), t, Gate(At(old(blocks), t), fp, now).0) && e == Gate(At(old(blocks), t), fp, now).1
      ensures saved == if Applying(At(old(blocks), t), fp) == At(old(blocks), t) then old(saved) else Put(old(saved), t, None)
    {
      var auth := At(blocks, t);
      if auth.Some? && auth.value.fp.Some? && auth.value.fp.value != fp {
        blocks := Put(blocks, t, None);
        Persist(t);
        auth := None;
      }
      if auth.Some? && Blocks(auth.value, now) {
        assert blocks == Put(old(blocks), t, auth);
        return Refused;
      }
      if auth.Some? {
        blocks := blocks[t := auth.value.(probeAt := Some(now))];
      } else {
        assert blocks == Put(old(blocks), t, None);
      }
      e := Through(auth.Some?);
    }

    /** A 401 came back; LookFurther means the caller asks for the zone, then for ThresholdInformation. */
    method Answered401(t: string, probing: bool, now: nat) returns (v: Verdict)
      modifies `blocks
      ensures blocks == Put(old(blocks), t, After401(config, At(old(blocks), t), probing, now).0)
      ensures v == After401(config, At(old(blocks), t), probing, now).1
    {
      assert blocks == Put(blocks, t, At(blocks, t));
      if config.base == 0 { return Ignored; }
      if t in blocks && !probing { return Ignored; }
      if probing { return Confirmed; }
      blocks := blocks[t := Provisional(now)];
      v := LookFurther;
    }

    /** The verdict on the login itself. */
    method Judge(t: string, fp: string, rejected: bool, now: nat)
      modifies `blocks, `saved
      ensures rejected ==> blocks == Put(old(blocks), t, Trip(config, At(old(blocks), t), fp, now))
      ensures rejected ==> saved == if config.base == 0 || AlreadyPaused(At(old(blocks), t), now) then old(saved)
                                    else Put(old(saved), t, ToSave(Trip(config, At(old(blocks), t), fp, now)))
      ensures !rejected ==> blocks == Put(old(blocks), t, Accepted(At(old(blocks), t), false)) && saved == old(saved)
    {
      var prev := At(blocks, t);
      assert blocks == Put(blocks, t, prev);
      if !rejected {
        if prev.Some? && prev.value.provisional { blocks := blocks - {t}; }
        return;
      }
      if config.base == 0 { blocks := blocks - {t}; return; }
      if AlreadyPaused(prev, now) { return; }
      var failures := (if prev.Some? && !prev.value.provisional then prev.value.failures else 0) + 1;
      var held := failures > config.maxProbes;
      var since := if prev.Some? && !prev.value.provisional then prev.value.since else now;
      blocks := blocks[t := AuthBlock(since, if held then HELD_UNTIL else now + PauseMs(config.base, failures), failures, None, held, false, Some(fp))];
      Persist(t);
    }

    method Succeeded(t: string, probing: bool)
      modifies `blocks, `saved
      ensures blocks == Put(old(blocks), t, Accepted(At(old(blocks), t), probing))
      ensures saved == if probing && t in old(blocks) then Put(old(saved), t, None) else old(saved)
    {
      assert blocks == Put(blocks, t, At(blocks, t));
      if probing && t in blocks {
        blocks := blocks - {t};
        Persist(t);
      } else if t in blocks && blocks[t].provisional {
        blocks := blocks - {t};
      }
    }

    /** An administrator's "Retry now". */
    method Clear(t: string) returns (had: bool)
      modifies `blocks, `saved
      ensures had == (t in old(blocks)) && blocks == old(blocks) - {t} && saved == old(saved) - {t}
    {
      had := t in blocks;
      blocks := blocks - {t};
      Persist(t);
    }
  }

  // ---------------------------------------------------------------- any number of concurrent requests

  /**
   * A request past the gate since `at`: waiting for the zone's address, sent, or (the first rejected one) waiting to
   * check the login; `direct` when it asked for ThresholdInformation itself.
   */
  datatype Phase =
    | Waiting(at: nat, probing: bool)
    | Sent(at: nat, probing: bool)
    | Checking(at: nat, direct: bool)
    | CheckSent(at: nat)

  /**
   * One tenant. `sent` counts calls carrying the credentials, `tests` the checks and test calls among them, `refused`
   * 401 answers, `lost` test calls never answered, `forgot` restarts while the first 401 was being checked.
   */
  datatype Tenant = Tenant(now: nat, block: Option<AuthBlock>, saved: Option<Saved>, reqs: map<nat, Phase>,
                           sent: nat, tests: nat, refused: nat, lost: nat, forgot: nat)

  datatype Event =
    | Tick(ms: nat)
    | Arrive(id: nat)
    | Drop(id: nat)                      // stopped before it was sent: a 429 cooldown, no zone address
    | Send(id: nat)
    | Lose(id: nat)                      // a network error
    | Answer(id: nat, direct: bool)      // 401
    | SendCheck(id: nat)
    | CheckDone(id: nat)                 // 401 too
    | Restart

  predicate OnTime(p: Phase, now: nat) {
    match p
    case Waiting(at, probing) => probing ==> now - at < PROBE_WINDOW
    case Sent(at, probing) => probing ==> now - at < PROBE_WINDOW
    case Checking(at, _) => now - at < PROVISIONAL
    case CheckSent(at) => now - at < PROVISIONAL
  }

  predicate ProbeIn(p: Phase) { (p.Waiting? || p.Sent?) && p.probing }

  predicate CheckIn(p: Phase) { p.Checking? || p.CheckSent? }

  /**
   * Stragglers got past the gate before the first 401 was seen (Unsent ones are still waiting); a CheckDue is still to
   * be sent; a ProbeOut is a test call sent and not answered yet.
   */
  datatype Kind = Straggler | Unsent | CheckDue | ProbeOut

  predicate Is(k: Kind, p: Phase) {
    match k
    case Straggler => (p.Waiting? || p.Sent?) && !p.probing
    case Unsent => p.Waiting? && !p.probing
    case CheckDue => p.Checking? && !p.direct
    case ProbeOut => p.Sent? && p.probing
  }

  function Of(k: Kind, reqs: map<nat, Phase>): set<nat> { set id | id in reqs && Is(k, reqs[id]) }

  function Count(k: Kind, reqs: map<nat, Phase>): nat { |Of(k, reqs)| }

  lemma CountPut(k: Kind, reqs: map<nat, Phase>, id: nat, p: Phase)
    ensures Count(k, reqs[id := p]) == Count(k, reqs - {id}) + if Is(k, p) then 1 else 0
  {
    var rest := reqs - {id};
    assert Of(k, reqs[id := p]) == Of(k, rest) + if Is(k, p) then {id} else {};
  }

  lemma CountOut(k: Kind, reqs: map<nat, Phase>, id: nat)
    requires id in reqs
    ensures Count(k, reqs) == Count(k, reqs - {id}) + if Is(k, reqs[id]) then 1 else 0
  {
    assert reqs == reqs[id := reqs[id]];
    CountPut(k, reqs, id, reqs[id]);
  }

  /** The check a provisional block until `until` waits for. */
  predicate ChecksFor(p: Phase, until: nat) { CheckIn(p) && p.at + PROVISIONAL == until }

  predicate Legal(s: Tenant, e: Event) {
    match e
    case Tick(ms) => s.now + ms < HELD_UNTIL && forall id | id in s.reqs :: OnTime(s.reqs[id], s.now + ms)
    case Arrive(id) => id !in s.reqs
    case Drop(id) => id in s.reqs && s.reqs[id].Waiting?
    case Send(id) => id in s.reqs && s.reqs[id].Waiting?
    case Lose(id) => id in s.reqs && s.reqs[id].Sent?
    case Answer(id, _) => id in s.reqs && s.reqs[id].Sent?
    case SendCheck(id) => id in s.reqs && s.reqs[id].Checking? && !s.reqs[id].direct
    case CheckDone(id) => id in s.reqs && (s.reqs[id].CheckSent? || (s.reqs[id].Checking? && s.reqs[id].direct))
    case Restart => true
  }

  /** A confirmed rejection, saved. */
  function Tripped(c: Config, fp: string, s: Tenant, id: nat): Tenant {
    var b := Trip(c, s.block, fp, s.now);
    s.(block := b, saved := if c.base == 0 || AlreadyPaused(s.block, s.now) then s.saved else ToSave(b), reqs := s.reqs - {id})
  }

  /** The first 401 is being checked; nothing of that is saved. */
  predicate Checked(s: Tenant) { s.block.Some? && s.block.value.provisional }

  function Step(c: Config, fp: string, s: Tenant, e: Event): Tenant
    requires Legal(s, e)
  {
    match e
    case Tick(ms) => s.(now := s.now + ms)
    case Arrive(id) =>
      var (b, entry) := Gate(s.block, fp, s.now);
      s.(block := b, saved := if Applying(s.block, fp) == s.block then s.saved else None,
         reqs := if entry.Refused? then s.reqs else s.reqs[id := Waiting(s.now, entry.probing)])
    case Drop(id) => s.(reqs := s.reqs - {id})
    case Send(id) =>
      s.(reqs := s.reqs[id := Phase.Sent(s.reqs[id].at, s.reqs[id].probing)], sent := s.sent + 1, tests := s.tests + if s.reqs[id].probing then 1 else 0)
    case Lose(id) => s.(reqs := s.reqs - {id}, lost := s.lost + if s.reqs[id].probing then 1 else 0)
    case Answer(id, direct) =>
      var (b, verdict) := After401(c, s.block, s.reqs[id].probing, s.now);
      var t := s.(refused := s.refused + 1, block := b);
      (match verdict
       case Ignored => t.(reqs := s.reqs - {id})
       case LookFurther => t.(reqs := s.reqs[id := Checking(s.now, direct)])
       case Confirmed => Tripped(c, fp, t, id))
    case SendCheck(id) => s.(reqs := s.reqs[id := CheckSent(s.reqs[id].at)], sent := s.sent + 1, tests := s.tests + 1)
    case CheckDone(id) =>
      Tripped(c, fp, s.(refused := s.refused + if s.reqs[id].CheckSent? then 1 else 0), id)
    case Restart =>
      s.(block := Restored(s.saved), reqs := map[], lost := s.lost + Count(ProbeOut, s.reqs), forgot := s.forgot + if Checked(s) then 1 else 0)
  }

  ghost predicate LegalRun(c: Config, fp: string, s: Tenant, es: seq<Event>)
    decreases |es|
  {
    es == [] || (Legal(s, es[0]) && LegalRun(c, fp, Step(c, fp, s, es[0]), es[1..]))
  }

  ghost function Run(c: Config, fp: string, s: Tenant, es: seq<Event>): Tenant
    requires LegalRun(c, fp, s, es)
    decreases |es|
  {
    if es == [] then s else Run(c, fp, Step(c, fp, s, es[0]), es[1..])
  }

  // ---------------------------------------------------------------- the bound

  /** Since the first 401: one check under a provisional block, then at most one test call at a time. */
  ghost predicate Guarded(c: Config, fp: string, s: Tenant) {
    && c.base > 0 && s.now < HELD_UNTIL
    && s.block.Some? && s.saved == ToSave(s.block)
    && (forall id | id in s.reqs :: OnTime(s.reqs[id], s.now))
    && (forall i, j | i in s.reqs && j in s.reqs && CheckIn(s.reqs[i]) && CheckIn(s.reqs[j]) :: i == j)
    && (forall i, j | i in s.reqs && j in s.reqs && ProbeIn(s.reqs[i]) && ProbeIn(s.reqs[j]) :: i == j)
    && var b := s.block.value;
       if b.provisional then
         && b.fp.None? && b.probeAt.None? && !b.held
         && (exists id :: id in s.reqs && ChecksFor(s.reqs[id], b.until))
         && forall id | id in s.reqs :: !ProbeIn(s.reqs[id])
       else
         && b.fp == Some(fp) && 1 <= b.failures <= c.maxProbes + 1
         && (b.held <==> b.failures > c.maxProbes) && (b.held ==> b.until == HELD_UNTIL)
         && (forall id | id in s.reqs :: !CheckIn(s.reqs[id]))
         && forall id | id in s.reqs && ProbeIn(s.reqs[id]) :: b.probeAt == Some(s.reqs[id].at) && b.until <= s.now
  }

  /** Test calls the tenant may still be refused. */
  function Left(c: Config, b: AuthBlock): int {
    if b.provisional then c.maxProbes else c.maxProbes + 1 - b.failures
  }

  /** 401 answers still possible. */
  function Refusals(c: Config, s: Tenant): int
    requires s.block.Some?
  {
    Count(Straggler, s.reqs) + (if s.block.value.provisional then 1 else 0) + Left(c, s.block.value)
  }

  /** Calls still possible. */
  function Sends(c: Config, s: Tenant): int
    requires s.block.Some?
  {
    Count(Unsent, s.reqs) + Count(CheckDue, s.reqs) + Left(c, s.block.value) - Count(ProbeOut, s.reqs)
  }

  /** Checks and test calls still possible. */
  function Tests(c: Config, s: Tenant): int
    requires s.block.Some?
  {
    Count(CheckDue, s.reqs) + Left(c, s.block.value) - Count(ProbeOut, s.reqs)
  }

  /** Nothing is added to what may still be sent or refused, and a hold lasts. */
  ghost predicate Spends(c: Config, s: Tenant, s': Tenant) {
    && s.block.Some? && s'.block.Some?
    && s'.refused + Refusals(c, s') <= s.refused + Refusals(c, s)
    && s'.sent + Sends(c, s') - s'.lost <= s.sent + Sends(c, s) - s.lost
    && s'.tests + Tests(c, s') - s'.lost <= s.tests + Tests(c, s) - s.lost
    && s.lost <= s'.lost && s'.forgot == s.forgot
    && (!s.block.value.provisional ==> !s'.block.value.provisional)
    && (Count(Unsent, s.reqs) == 0 ==> Count(Unsent, s'.reqs) == 0)
    && (s.block.value.held ==> s'.block.value.held && s'.lost == s.lost)
  }

  /** A request gone or moved on: every count changes by at most that one. */
  lemma Counts(reqs: map<nat, Phase>, id: nat)
    requires id in reqs
    ensures forall k {:trigger Count(k, reqs)} :: Count(k, reqs) == Count(k, reqs - {id}) + if Is(k, reqs[id]) then 1 else 0
  {
    forall k: Kind ensures Count(k, reqs) == Count(k, reqs - {id}) + if Is(k, reqs[id]) then 1 else 0 { CountOut(k, reqs, id); }
  }

  lemma CountsPut(reqs: map<nat, Phase>, id: nat, p: Phase)
    ensures forall k {:trigger Count(k, reqs[id := p])} :: Count(k, reqs[id := p]) == Count(k, reqs - {id}) + if Is(k, p) then 1 else 0
  {
    forall k: Kind ensures Count(k, reqs[id := p]) == Count(k, reqs - {id}) + if Is(k, p) then 1 else 0 { CountPut(k, reqs, id, p); }
  }

  lemma StepTick(c: Config, fp: string, s: Tenant, ms: nat)
    requires Guarded(c, fp, s) && Legal(s, Tick(ms))
    ensures Guarded(c, fp, Step(c, fp, s, Tick(ms))) && Spends(c, s, Step(c, fp, s, Tick(ms)))
  {
  }

  /** While nobody waits for a test call, the gate lets one more through. */
  lemma StepProbe(c: Config, fp: string, s: Tenant, id: nat)
    requires Guarded(c, fp, s) && id !in s.reqs && !Blocks(s.block.value, s.now)
    ensures Guarded(c, fp, Step(c, fp, s, Arrive(id))) && !s.block.value.provisional && !s.block.value.held
  {
    assert forall i | i in s.reqs :: !ProbeIn(s.reqs[i]);
  }

  lemma ProbeCosts(c: Config, fp: string, s: Tenant, id: nat)
    requires Guarded(c, fp, s) && id !in s.reqs && !Blocks(s.block.value, s.now) && !s.block.value.held
    ensures Spends(c, s, Step(c, fp, s, Arrive(id)))
  {
    CountsPut(s.reqs, id, Waiting(s.now, true));
    assert s.reqs - {id} == s.reqs;
  }

  lemma StepArrive(c: Config, fp: string, s: Tenant, id: nat)
    requires Guarded(c, fp, s) && Legal(s, Arrive(id))
    ensures Guarded(c, fp, Step(c, fp, s, Arrive(id))) && Spends(c, s, Step(c, fp, s, Arrive(id)))
  {
    if Blocks(s.block.value, s.now) {
      assert Step(c, fp, s, Arrive(id)) == s;
    } else {
      StepProbe(c, fp, s, id);
      ProbeCosts(c, fp, s, id);
    }
  }

  /** Requests only went, or moved on without changing what they are; checks stayed. */
  ghost predicate Onward(a: map<nat, Phase>, b: map<nat, Phase>) {
    && (forall id | id in b ::
          id in a && a[id].at == b[id].at && (CheckIn(a[id]) <==> CheckIn(b[id])) && (ProbeIn(a[id]) <==> ProbeIn(b[id])))
    && (forall id | id in a && CheckIn(a[id]) :: id in b)
  }

  lemma GuardStays(c: Config, fp: string, s: Tenant, s': Tenant)
    requires Guarded(c, fp, s) && Onward(s.reqs, s'.reqs)
    requires s'.block == s.block && s'.saved == s.saved && s'.now == s.now
    ensures Guarded(c, fp, s')
  {
  }

  lemma StepDrop(c: Config, fp: string, s: Tenant, e: Event)
    requires Guarded(c, fp, s) && Legal(s, e) && (e.Drop? || e.Lose?)
    ensures Guarded(c, fp, Step(c, fp, s, e)) && Spends(c, s, Step(c, fp, s, e))
  {
    GuardStays(c, fp, s, Step(c, fp, s, e));
    Counts(s.reqs, e.id);
  }

  lemma SendCosts(c: Config, fp: string, s: Tenant, e: Event)
    requires s.block.Some? && Legal(s, e) && (e.Send? || e.SendCheck?)
    ensures Spends(c, s, Step(c, fp, s, e))
  {
    Counts(s.reqs, e.id);
    CountsPut(s.reqs, e.id, Step(c, fp, s, e).reqs[e.id]);
  }

  lemma StepSend(c: Config, fp: string, s: Tenant, e: Event)
    requires Guarded(c, fp, s) && Legal(s, e) && (e.Send? || e.SendCheck?)
    ensures Guarded(c, fp, Step(c, fp, s, e)) && Spends(c, s, Step(c, fp, s, e))
  {
    GuardStays(c, fp, s, Step(c, fp, s, e));
    SendCosts(c, fp, s, e);
  }

  lemma StepIgnored(c: Config, fp: string, s: Tenant, id: nat, direct: bool)
    requires Guarded(c, fp, s) && Legal(s, Answer(id, direct)) && !s.reqs[id].probing
    ensures Guarded(c, fp, Step(c, fp, s, Answer(id, direct))) && Spends(c, s, Step(c, fp, s, Answer(id, direct)))
  {
    GuardStays(c, fp, s, Step(c, fp, s, Answer(id, direct)));
    Counts(s.reqs, id);
  }

  lemma StepProbeFailed(c: Config, fp: string, s: Tenant, id: nat, direct: bool)
    requires Guarded(c, fp, s) && Legal(s, Answer(id, direct)) && s.reqs[id].probing
    ensures Guarded(c, fp, Step(c, fp, s, Answer(id, direct))) && Spends(c, s, Step(c, fp, s, Answer(id, direct)))
  {
    assert ProbeIn(s.reqs[id]);
    Counts(s.reqs, id);
  }

  lemma StepCheckDone(c: Config, fp: string, s: Tenant, id: nat)
    requires Guarded(c, fp, s) && Legal(s, CheckDone(id))
    ensures Guarded(c, fp, Step(c, fp, s, CheckDone(id))) && Spends(c, s, Step(c, fp, s, CheckDone(id)))
  {
    Counts(s.reqs, id);
  }

  lemma StepRestart(c: Config, fp: string, s: Tenant)
    requires Guarded(c, fp, s) && !Checked(s)
    ensures Guarded(c, fp, Step(c, fp, s, Restart)) && Spends(c, s, Step(c, fp, s, Restart))
  {
    SaveRestore(s.block.value);
    forall k: Kind ensures Count(k, map[]) == 0 { assert Of(k, map[]) == {}; }
  }

  /** Every step but a restart that forgets the check. */
  lemma AnyStep(c: Config, fp: string, s: Tenant, e: Event)
    requires Guarded(c, fp, s) && Legal(s, e) && !(e.Restart? && Checked(s))
    ensures Guarded(c, fp, Step(c, fp, s, e)) && Spends(c, s, Step(c, fp, s, e))
  {
    match e
    case Tick(ms) => StepTick(c, fp, s, ms);
    case Arrive(id) => StepArrive(c, fp, s, id);
    case Drop(_) => StepDrop(c, fp, s, e);
    case Lose(_) => StepDrop(c, fp, s, e);
    case Send(_) => StepSend(c, fp, s, e);
    case SendCheck(_) => StepSend(c, fp, s, e);
    case Answer(id, direct) => if s.reqs[id].probing { StepProbeFailed(c, fp, s, id, direct); } else { StepIgnored(c, fp, s, id, direct); }
    case CheckDone(id) => StepCheckDone(c, fp, s, id);
    case Restart => StepRestart(c, fp, s);
  }

  lemma {:induction false} ForgotGrows(c: Config, fp: string, s: Tenant, es: seq<Event>)
    requires LegalRun(c, fp, s, es)
    ensures Run(c, fp, s, es).forgot >= s.forgot
    decreases |es|
  {
    if es != [] { ForgotGrows(c, fp, Step(c, fp, s, es[0]), es[1..]); }
  }

  lemma {:induction false} GuardedRun(c: Config, fp: string, s: Tenant, es: seq<Event>)
    requires Guarded(c, fp, s) && LegalRun(c, fp, s, es) && Run(c, fp, s, es).forgot == s.forgot
    ensures Guarded(c, fp, Run(c, fp, s, es)) && Spends(c, s, Run(c, fp, s, es))
    decreases |es|
  {
    if es != [] {
      ForgotGrows(c, fp, Step(c, fp, s, es[0]), es[1..]);
      AnyStep(c, fp, s, es[0]);
      GuardedRun(c, fp, Step(c, fp, s, es[0]), es[1..]);
    }
  }

  /** Once the check is done, no restart forgets it. */
  lemma {:induction false} NothingForgotten(c: Config, fp: string, s: Tenant, es: seq<Event>)
    requires Guarded(c, fp, s) && !Checked(s) && LegalRun(c, fp, s, es)
    ensures Run(c, fp, s, es).forgot == s.forgot
    decreases |es|
  {
    if es != [] {
      AnyStep(c, fp, s, es[0]);
      NothingForgotten(c, fp, Step(c, fp, s, es[0]), es[1..]);
    }
  }

  /** What may still happen is never negative: a test call is out only when one is left. */
  lemma NothingOwed(c: Config, fp: string, s: Tenant)
    requires Guarded(c, fp, s)
    ensures Refusals(c, s) >= 0 && Sends(c, s) >= 0 && Tests(c, s) >= 0
    ensures s.block.value.held ==> Refusals(c, s) == Count(Straggler, s.reqs) && Sends(c, s) == Count(Unsent, s.reqs)
  {
    var out := Of(ProbeOut, s.reqs);
    if out == {} {
    } else {
      var id :| id in out;
      assert ProbeIn(s.reqs[id]);
      forall x | x in out ensures x == id { assert ProbeIn(s.reqs[x]); }
      assert out == {id};
    }
    if !s.block.value.provisional { assert Of(CheckDue, s.reqs) == {}; }
  }

  /** Before the first 401: no block, nobody probing or checking. */
  ghost predicate Trusting(c: Config, s: Tenant) {
    && c.base > 0 && s.now < HELD_UNTIL && s.block.None? && s.saved.None?
    && forall id | id in s.reqs :: !ProbeIn(s.reqs[id]) && !CheckIn(s.reqs[id])
  }

  lemma TrustingStep(c: Config, fp: string, s: Tenant, e: Event)
    requires Trusting(c, s) && Legal(s, e) && !e.Answer?
    ensures Trusting(c, Step(c, fp, s, e))
  {
  }

  lemma FirstGuarded(c: Config, fp: string, s: Tenant, id: nat, direct: bool)
    requires Trusting(c, s) && Legal(s, Answer(id, direct))
    ensures Guarded(c, fp, Step(c, fp, s, Answer(id, direct)))
  {
    assert ChecksFor(s.reqs[id := Checking(s.now, direct)][id], s.now + PROVISIONAL);
  }

  lemma FirstAnswer(c: Config, fp: string, s: Tenant, id: nat, direct: bool)
    requires Trusting(c, s) && Legal(s, Answer(id, direct))
    ensures var t := Step(c, fp, s, Answer(id, direct));
            && Guarded(c, fp, t) && t.sent == s.sent && t.tests == s.tests && t.refused == s.refused + 1 && t.lost == s.lost && t.forgot == s.forgot
            && Refusals(c, t) == Count(Straggler, s.reqs) + c.maxProbes
            && Sends(c, t) <= Count(Unsent, s.reqs) + 1 + c.maxProbes && Tests(c, t) <= 1 + c.maxProbes
  {
    FirstGuarded(c, fp, s, id, direct);
    Counts(s.reqs, id);
    CountsPut(s.reqs, id, Checking(s.now, direct));
    assert Of(CheckDue, s.reqs) == {} && Of(ProbeOut, s.reqs) == {};
  }

  /**
   * Bounded rejected logins: after the first 401, whatever arrives, however requests interleave, over restarts too
   * (unless one forgets the check), the calls still sent are those already past the gate, one check and at most
   * maxProbes test calls (and one more for each test call whose answer never came); the 401 answers are bounded
   * whatever gets lost.
   */
  lemma BoundedLogins(c: Config, fp: string, s: Tenant, id: nat, direct: bool, es: seq<Event>)
    requires Trusting(c, s) && Legal(s, Answer(id, direct)) && LegalRun(c, fp, Step(c, fp, s, Answer(id, direct)), es)
    ensures var t := Run(c, fp, Step(c, fp, s, Answer(id, direct)), es);
            t.forgot == s.forgot ==>
              && t.sent <= s.sent + Count(Unsent, s.reqs) + 1 + c.maxProbes + (t.lost - s.lost)
              && t.refused <= s.refused + Count(Straggler, s.reqs) + 1 + c.maxProbes
  {
    FirstAnswer(c, fp, s, id, direct);
    var t := Run(c, fp, Step(c, fp, s, Answer(id, direct)), es);
    if t.forgot == s.forgot {
      GuardedRun(c, fp, Step(c, fp, s, Answer(id, direct)), es);
      NothingOwed(c, fp, t);
    }
  }

  /** Before the first 401, or since it. */
  ghost predicate Sound(c: Config, fp: string, s: Tenant) { Trusting(c, s) || Guarded(c, fp, s) }

  /** Checks and test calls a tenant may still make, before and after the first 401. */
  function Allowed(c: Config, s: Tenant): int { if s.block.None? then 1 + c.maxProbes else Tests(c, s) }

  lemma SoundStep(c: Config, fp: string, s: Tenant, e: Event)
    requires Sound(c, fp, s) && Legal(s, e)
    ensures var t := Step(c, fp, s, e);
            Sound(c, fp, t) && t.tests + Allowed(c, t) - t.lost - t.forgot <= s.tests + Allowed(c, s) - s.lost - s.forgot
  {
    if Trusting(c, s) {
      if e.Answer? { FirstAnswer(c, fp, s, e.id, e.direct); } else { TrustingStep(c, fp, s, e); }
    } else if e.Restart? && Checked(s) {
      CheckForgotten(c, fp, s);
    } else {
      AnyStep(c, fp, s, e);
    }
  }

  /** A restart that forgets the check: the tenant is as before the first 401. */
  lemma CheckForgotten(c: Config, fp: string, s: Tenant)
    requires Guarded(c, fp, s) && Checked(s)
    ensures var t := Step(c, fp, s, Restart);
            Trusting(c, t) && t.tests == s.tests && t.lost == s.lost && t.forgot == s.forgot + 1 && Tests(c, s) >= c.maxProbes
  {
    assert Of(ProbeOut, s.reqs) == {};
  }

  /**
   * Over any run at all, restarts at any moment: at most one check and maxProbes test calls, one more for each test
   * call whose answer never came and one more for each restart that forgot the check.
   */
  lemma {:induction false} BoundedTests(c: Config, fp: string, s: Tenant, es: seq<Event>)
    requires Sound(c, fp, s) && LegalRun(c, fp, s, es)
    ensures var t := Run(c, fp, s, es);
            && Sound(c, fp, t)
            && t.tests - s.tests <= Allowed(c, s) + (t.lost - s.lost) + (t.forgot - s.forgot)
    decreases |es|
  {
    if es == [] {
      if Guarded(c, fp, s) { NothingOwed(c, fp, s); }
    } else {
      SoundStep(c, fp, s, es[0]);
      BoundedTests(c, fp, Step(c, fp, s, es[0]), es[1..]);
    }
  }

  /** Held is held: over any run, restarts included, only requests already past the gate are ever sent. */
  lemma HeldForever(c: Config, fp: string, s: Tenant, es: seq<Event>)
    requires Guarded(c, fp, s) && s.block.value.held && LegalRun(c, fp, s, es)
    ensures var t := Run(c, fp, s, es);
            && t.block.Some? && t.block.value.held && Blocks(t.block.value, t.now)
            && t.sent <= s.sent + Count(Unsent, s.reqs) && t.refused <= s.refused + Count(Straggler, s.reqs)
  {
    NothingForgotten(c, fp, s, es);
    GuardedRun(c, fp, s, es);
    NothingOwed(c, fp, s);
    NothingOwed(c, fp, Run(c, fp, s, es));
  }

  /** And the hold comes: a refused test call, once maxProbes were refused before it, holds the tenant. */
  lemma LastProbeHolds(c: Config, fp: string, s: Tenant, id: nat, direct: bool)
    requires Guarded(c, fp, s) && Legal(s, Answer(id, direct)) && s.reqs[id].probing
    ensures var b := Step(c, fp, s, Answer(id, direct)).block.value;
            && b.failures == s.block.value.failures + 1 && b.since == s.block.value.since
            && (b.held <==> s.block.value.failures == c.maxProbes)
            && (!b.held ==> b.until == s.now + PauseMs(c.base, b.failures))
  {
    assert ProbeIn(s.reqs[id]);
  }

  /** Those events lead from s to t. */
  ghost predicate Leads(c: Config, fp: string, s: Tenant, es: seq<Event>, t: Tenant) {
    LegalRun(c, fp, s, es) && Run(c, fp, s, es) == t
  }

  lemma LeadsOne(c: Config, fp: string, s: Tenant, e: Event, t: Tenant)
    requires Legal(s, e) && Step(c, fp, s, e) == t
    ensures Leads(c, fp, s, [e], t)
  {
    assert LegalRun(c, fp, t, []);
  }

  lemma {:induction false} LeadsOn(c: Config, fp: string, s: Tenant, es: seq<Event>, t: Tenant, fs: seq<Event>, u: Tenant)
    requires Leads(c, fp, s, es, t) && Leads(c, fp, t, fs, u)
    ensures Leads(c, fp, s, es + fs, u)
    decreases |es|
  {
    if es == [] {
      assert es + fs == fs;
    } else {
      assert (es + fs)[1..] == es[1..] + fs;
      LeadsOn(c, fp, Step(c, fp, s, es[0]), es[1..], t, fs, u);
    }
  }

  /** One test call is allowed, one request out; paused after its 401 and the check. */
  const ONE_ALLOWED := Config(1000, 1)
  const ONE_OUT := Tenant(0, None, None, map[0 := Phase.Sent(0, false)], 1, 0, 0, 0, 0)

  function Paused(fp: string, sent: nat, lost: nat): Tenant
    requires sent > 0
  {
    var b := Some(AuthBlock(0, 1000, 1, None, false, false, Some(fp)));
    Tenant(1000, b, ToSave(b), map[], sent, sent - 1, 2, lost, 0)
  }

  lemma FirstPause(fp: string)
    ensures Leads(ONE_ALLOWED, fp, ONE_OUT, [Answer(0, false)] + ([SendCheck(0)] + ([CheckDone(0)] + [Tick(1000)])), Paused(fp, 2, 0))
  {
    var s0 := Tenant(0, Some(Provisional(0)), None, map[0 := Checking(0, false)], 1, 0, 1, 0, 0);
    var s1 := s0.(reqs := map[0 := CheckSent(0)], sent := 2, tests := 1);
    var s2 := Paused(fp, 2, 0).(now := 0);
    assert s1.reqs - {0} == map[] && Doubled(1000, 0) == 1000;
    LeadsOne(ONE_ALLOWED, fp, s2, Tick(1000), Paused(fp, 2, 0));
    LeadsOne(ONE_ALLOWED, fp, s1, CheckDone(0), s2);
    LeadsOn(ONE_ALLOWED, fp, s1, [CheckDone(0)], s2, [Tick(1000)], Paused(fp, 2, 0));
    LeadsOne(ONE_ALLOWED, fp, s0, SendCheck(0), s1);
    LeadsOn(ONE_ALLOWED, fp, s0, [SendCheck(0)], s1, [CheckDone(0)] + [Tick(1000)], Paused(fp, 2, 0));
    LeadsOne(ONE_ALLOWED, fp, ONE_OUT, Answer(0, false), s0);
    LeadsOn(ONE_ALLOWED, fp, ONE_OUT, [Answer(0, false)], s0, [SendCheck(0)] + ([CheckDone(0)] + [Tick(1000)]), Paused(fp, 2, 0));
  }

  /** A test call is sent, and the process restarts. */
  lemma ForgottenTest(fp: string, id: nat, sent: nat, lost: nat)
    requires sent > 0
    ensures Leads(ONE_ALLOWED, fp, Paused(fp, sent, lost), [Arrive(id)] + ([Send(id)] + [Restart]), Paused(fp, sent + 1, lost + 1))
  {
    var s0 := Paused(fp, sent, lost);
    var s1 := s0.(block := Some(s0.block.value.(probeAt := Some(1000))), reqs := map[id := Waiting(1000, true)]);
    var s2 := s1.(reqs := map[id := Phase.Sent(1000, true)], sent := sent + 1, tests := sent);
    assert Of(ProbeOut, s2.reqs) == {id};
    LeadsOne(ONE_ALLOWED, fp, s2, Restart, Paused(fp, sent + 1, lost + 1));
    LeadsOne(ONE_ALLOWED, fp, s1, Send(id), s2);
    LeadsOn(ONE_ALLOWED, fp, s1, [Send(id)], s2, [Restart], Paused(fp, sent + 1, lost + 1));
    LeadsOne(ONE_ALLOWED, fp, s0, Arrive(id), s1);
    LeadsOn(ONE_ALLOWED, fp, s0, [Arrive(id)], s1, [Send(id)] + [Restart], Paused(fp, sent + 1, lost + 1));
  }

  lemma OneMoreTest(fp: string, n: nat, es: seq<Event>)
    requires n > 0 && Leads(ONE_ALLOWED, fp, ONE_OUT, es, Paused(fp, n + 1, n - 1))
    ensures Leads(ONE_ALLOWED, fp, ONE_OUT, es + ([Arrive(n)] + ([Send(n)] + [Restart])), Paused(fp, n + 2, n))
  {
    ForgottenTest(fp, n, n + 1, n - 1);
    LeadsOn(ONE_ALLOWED, fp, ONE_OUT, es, Paused(fp, n + 1, n - 1), [Arrive(n)] + ([Send(n)] + [Restart]), Paused(fp, n + 2, n));
  }

  /**
   * What BoundedLogins adds for test calls never answered is needed: n restarts, each while one is out, let n of them
   * be sent although one is allowed.
   */
  lemma {:induction false} RestartsForget(fp: string, n: nat)
    ensures Trusting(ONE_ALLOWED, ONE_OUT)
    ensures exists es :: LegalRun(ONE_ALLOWED, fp, ONE_OUT, es) && Run(ONE_ALLOWED, fp, ONE_OUT, es) == Paused(fp, ONE_OUT.sent + 1 + n, n)
  {
    if n == 0 {
      FirstPause(fp);
    } else {
      RestartsForget(fp, n - 1);
      var es :| LegalRun(ONE_ALLOWED, fp, ONE_OUT, es) && Run(ONE_ALLOWED, fp, ONE_OUT, es) == Paused(fp, n + 1, n - 1);
      OneMoreTest(fp, n, es);
    }
  }

  /** After k first 401s, each forgotten by a restart while its check was out. */
  function Anew(k: nat): Tenant { Tenant(0, None, None, map[], 2 * k, k, k, 0, k) }

  /** A request is refused and its check sent, and the process restarts. */
  lemma ForgottenCheck(fp: string, id: nat, k: nat)
    ensures Leads(ONE_ALLOWED, fp, Anew(k), [Arrive(id)] + ([Send(id)] + ([Answer(id, false)] + ([SendCheck(id)] + [Restart]))), Anew(k + 1))
  {
    var s1 := Anew(k).(reqs := map[id := Waiting(0, false)]);
    var s2 := s1.(reqs := map[id := Phase.Sent(0, false)], sent := 2 * k + 1);
    var s3 := s2.(block := Some(Provisional(0)), reqs := map[id := Checking(0, false)], refused := k + 1);
    var s4 := s3.(reqs := map[id := CheckSent(0)], sent := 2 * k + 2, tests := k + 1);
    assert Of(ProbeOut, s4.reqs) == {};
    LeadsOne(ONE_ALLOWED, fp, s4, Restart, Anew(k + 1));
    LeadsOne(ONE_ALLOWED, fp, s3, SendCheck(id), s4);
    LeadsOn(ONE_ALLOWED, fp, s3, [SendCheck(id)], s4, [Restart], Anew(k + 1));
    LeadsOne(ONE_ALLOWED, fp, s2, Answer(id, false), s3);
    LeadsOn(ONE_ALLOWED, fp, s2, [Answer(id, false)], s3, [SendCheck(id)] + [Restart], Anew(k + 1));
    LeadsOne(ONE_ALLOWED, fp, s1, Send(id), s2);
    LeadsOn(ONE_ALLOWED, fp, s1, [Send(id)], s2, [Answer(id, false)] + ([SendCheck(id)] + [Restart]), Anew(k + 1));
    LeadsOne(ONE_ALLOWED, fp, Anew(k), Arrive(id), s1);
    LeadsOn(ONE_ALLOWED, fp, Anew(k), [Arrive(id)], s1, [Send(id)] + ([Answer(id, false)] + ([SendCheck(id)] + [Restart])), Anew(k + 1));
  }

  /** Nor can what BoundedTests adds for forgotten checks be left out: n such restarts let n first 401s and n checks happen. */
  lemma {:induction false} RestartsRepeat(fp: string, n: nat)
    ensures Trusting(ONE_ALLOWED, Anew(0))
    ensures exists es :: LegalRun(ONE_ALLOWED, fp, Anew(0), es) && Run(ONE_ALLOWED, fp, Anew(0), es) == Anew(n)
  {
    if n == 0 {
      assert LegalRun(ONE_ALLOWED, fp, Anew(0), []) && Run(ONE_ALLOWED, fp, Anew(0), []) == Anew(0);
    } else {
      RestartsRepeat(fp, n - 1);
      var es :| LegalRun(ONE_ALLOWED, fp, Anew(0), es) && Run(ONE_ALLOWED, fp, Anew(0), es) == Anew(n - 1);
      ForgottenCheck(fp, n, n - 1);
      LeadsOn(ONE_ALLOWED, fp, Anew(0), es, Anew(n - 1), [Arrive(n)] + ([Send(n)] + ([Answer(n, false)] + ([SendCheck(n)] + [Restart]))), Anew(n));
    }
  }
}
