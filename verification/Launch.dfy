/** One 'compose launch' run: its stages, in the order they run
    (internal/cli/compose_launch.go, internal/cli/compose_launch_steps.go). */
module Launch {
  import opened Wrappers
  import opened LaunchOrder
  import opened FastMode
  import opened Carry
  import opened Grouping

  datatype Error = InvalidRequest | OtherError

  datatype Row = Row(id: string, service: string)

  /** One service of a run. */
  datatype Svc = Svc(row: Row, c: Option<Container>, fast: Option<Labels>, entry: bool, dll: string, appDir: string,
                     project: string, projectRel: string, out: Option<string>, carry: Carried,
                     downed: bool, recreated: bool, skipped: bool, error: Option<Error>, session: Option<string>)
  {
    /** Whether the service is still in the run. */
    predicate Live() { !skipped && error.None? }

    predicate AtMostOne() { !(skipped && error.Some?) && (session.Some? ==> Live()) }

    predicate ExactlyOne() { AtMostOne() && (Live() ==> session.Some?) }
  }

  function Picked(row: Row): Svc {
    Svc(row, None, None, false, "", "", "", "", None, Carried([], Unset, 0), false, false, false, None, None)
  }

  /** What the command line asks for, and what is known of the file system. */
  datatype Request = Request(project: string, noBuild: bool, implicit: bool, named: set<string>, mode: Mode, args: seq<Spec>,
                             settable: Spec -> bool)

  // ---------------------------------------------------------------- invariant

  /** How far a run is: the services in done have the phase behind them, the
      others the one before it; something asked for those in bad just failed. */
  ghost predicate RunOk(plan: Plan, svcs: seq<Svc>, log: Log, phase: nat, done: set<nat>, bad: set<string>) requires phase > 0 {
    LogOk(plan, log, phase) && DistinctLive(svcs) && AllSvcOk(plan, svcs, log, phase, done, bad)
  }

  ghost predicate LogOk(plan: Plan, log: Log, phase: nat) {
    && Ordered(plan, log) && (forall d | d in log :: Phase(d) <= phase)
    && (phase >= 3 ==> plan.carry.Then? && Tolds(log) == plan.carry.told)
  }

  ghost predicate AllSvcOk(plan: Plan, svcs: seq<Svc>, log: Log, phase: nat, done: set<nat>, bad: set<string>) requires phase > 0 {
    forall i | 0 <= i < |svcs| :: SvcOk(plan, svcs[i], log, if i in done then phase else phase - 1, bad)
  }

  /** A live service has its name to itself. */
  ghost predicate DistinctLive(svcs: seq<Svc>) {
    forall i, j | 0 <= i < |svcs| && svcs[i].Live() && 0 <= j < |svcs| && i != j :: svcs[i].row.service != svcs[j].row.service
  }

  ghost predicate SvcOk(plan: Plan, s: Svc, log: Log, phase: nat, bad: set<string>) {
    && s.AtMostOne() && (phase < 5 ==> s.session.None?) && DistinctKeys(s.carry.bps)
    && (s.row.service in plan.builds ==> plan.builds[s.row.service] == BuildKey(s))
    && CarryFits(plan, s)
    && (plan.hope ==> s.Live() && (phase >= 1 && !plan.noBuild ==> s.projectRel != ""))
    && (s.Live() ==>
          && (phase >= 1 && !plan.noBuild ==> Staged(log, s))
          && (s.row.service !in bad ==> Fine(log, s.row.service))
          && Ready(plan, log, phase, s.row.service)
          && (s.entry <==> s.row.service in plan.entering)
          && (plan.noBuild && phase >= 1 ==> !s.entry))
  }

  /** The service's build is in the directory to mirror. */
  ghost predicate Staged(log: Log, s: Svc) { s.out.Some? && IsStaged(log, s.row.service, s.out.value) }

  lemma StaysStaged(log: Log, e: Event, s: Svc)
    requires Staged(log, s)
    ensures Staged(log + [e], s)
  {
    var d :| d in log && d.Built? && d.ok && d.out == s.out.value && s.row.service in d.services;
    assert d in log + [e];
  }

  // ------------------------------------------------------------------- carry

  ghost predicate ToldKey(told: Log, s: string, key: string) {
    exists d | d in told && d.Told? && d.service == s && d.left.list.Some? :: Carries(d.left.list.value, key)
  }

  ghost predicate ToldSpec(told: Log, s: string, spec: Spec) {
    exists d, b | d in told && d.Told? && d.service == s && d.left.list.Some? && b in d.left.list.value :: CarriedSpec(b) == Some(spec)
  }

  ghost predicate ToldMode(told: Log, s: string, mode: Mode) {
    exists d | d in told && d.Told? && d.service == s && d.left.me.Some? && d.left.modes.Some? :: (d.left.me.value, mode) in d.left.modes.value
  }

  ghost predicate AtLeast(left: Left, mode: Mode) {
    left.me.Some? && left.modes.Some? ==> forall m | m in left.modes.value && m.0 == left.me.value :: ModeRank(m.1) <= ModeRank(mode)
  }

  /** What is carried is what the service's sessions told: a breakpoint of exactly
      the keys they carry over, and the caller's mode that stops at the most. */
  ghost predicate CarryOk(told: Log, s: string, c: Carried) {
    && (forall key :: HasKey(c.bps, key) <==> ToldKey(told, s, key))
    && (forall spec | spec in c.bps :: ToldSpec(told, s, spec))
    && (c.mode == Unset || ToldMode(told, s, c.mode))
    && (forall d | d in told && d.Told? && d.service == s :: AtLeast(d.left, c.mode))
  }

  ghost predicate CarriesOk(told: Log, svcs: seq<Svc>) {
    forall i | 0 <= i < |svcs| :: CarryOk(told, svcs[i].row.service, svcs[i].carry)
  }

  predicate SameCarry(a: Carried, b: Carried) { b.bps == a.bps && b.mode == a.mode }

  lemma NothingCarried(svcs: seq<Svc>)
    requires forall i | 0 <= i < |svcs| :: svcs[i].carry.bps == [] && svcs[i].carry.mode == Unset
    ensures CarriesOk([], svcs)
  {}

  /** What others tell does not matter. */
  lemma CarryStays(told: Log, e: Event, s: string, c: Carried)
    requires CarryOk(told, s, c) && e.Told? && e.service != s
    ensures CarryOk(told + [e], s, c)
  {
    forall key ensures ToldKey(told + [e], s, key) <==> ToldKey(told, s, key) {
      if ToldKey(told, s, key) {
        var d :| d in told && d.Told? && d.service == s && d.left.list.Some? && Carries(d.left.list.value, key);
        assert d in told + [e];
      }
    }
    forall spec | spec in c.bps ensures ToldSpec(told + [e], s, spec) {
      var d, b :| d in told && d.Told? && d.service == s && d.left.list.Some? && b in d.left.list.value && CarriedSpec(b) == Some(spec);
      assert d in told + [e];
    }
    if c.mode != Unset {
      var d :| d in told && d.Told? && d.service == s && d.left.me.Some? && d.left.modes.Some? && (d.left.me.value, c.mode) in d.left.modes.value;
      assert d in told + [e];
    }
  }

  lemma ToldMore(told: Log, e: Event, s: string)
    requires e.Told? && e.service == s
    ensures forall key :: ToldKey(told + [e], s, key) <==> ToldKey(told, s, key) || (e.left.list.Some? && Carries(e.left.list.value, key))
  {
    assert e in told + [e];
    forall key | ToldKey(told, s, key) ensures ToldKey(told + [e], s, key) {
      var d :| d in told && d.Told? && d.service == s && d.left.list.Some? && Carries(d.left.list.value, key);
      assert d in told + [e];
    }
  }

  lemma SpecsToldMore(told: Log, e: Event, s: string, c: Carried, r: Carried)
    requires CarryOk(told, s, c) && e.Told? && e.service == s && Captures(c, e.left, r)
    ensures forall spec | spec in r.bps :: ToldSpec(told + [e], s, spec)
  {
    assert e in told + [e];
    forall spec | spec in r.bps ensures ToldSpec(told + [e], s, spec) {
      if spec in c.bps {
        var d, b :| d in told && d.Told? && d.service == s && d.left.list.Some? && b in d.left.list.value && CarriedSpec(b) == Some(spec);
        assert d in told + [e];
      } else {
        assert r.bps == c.bps + r.bps[|c.bps|..] && spec in r.bps[|c.bps|..];
        var i: nat :| FirstOfKey(e.left.list.value, i, spec);
        assert e.left.list.value[i] in e.left.list.value;
      }
    }
  }

  /** One more session told what it leaves. */
  lemma CarryMore(told: Log, e: Event, s: string, c: Carried, r: Carried)
    requires CarryOk(told, s, c) && e.Told? && e.service == s && Captures(c, e.left, r)
    ensures CarryOk(told + [e], s, r)
  {
    ToldMore(told, e, s);
    SpecsToldMore(told, e, s, c, r);
    assert e in told + [e];
    if r.mode == c.mode && c.mode != Unset {
      var d :| d in told && d.Told? && d.service == s && d.left.me.Some? && d.left.modes.Some? && (d.left.me.value, c.mode) in d.left.modes.value;
      assert d in told + [e];
    }
    forall d | d in told + [e] && d.Told? && d.service == s ensures AtLeast(d.left, r.mode) {
      if d in told { assert AtLeast(d.left, c.mode); }
    }
  }

  lemma TellsOne(told: Log, svcs: seq<Svc>, i: nat, e: Event, c: Carried)
    requires CarriesOk(told, svcs) && i < |svcs| && e.Told? && e.service == svcs[i].row.service && Captures(svcs[i].carry, e.left, c)
    requires forall j | 0 <= j < |svcs| && j != i :: svcs[j].row.service != svcs[i].row.service
    ensures CarriesOk(told + [e], svcs[i := svcs[i].(carry := c)])
  {
    forall j | 0 <= j < |svcs| && j != i ensures CarryOk(told + [e], svcs[j].row.service, svcs[j].carry) {
      CarryStays(told, e, svcs[j].row.service, svcs[j].carry);
    }
    CarryMore(told, e, svcs[i].row.service, svcs[i].carry, c);
  }

  lemma CarriesKept(told: Log, a: seq<Svc>, b: seq<Svc>, i: nat)
    requires CarriesOk(told, a) && Weaker(a, b) && i < |a| && b[i].carry == a[i].carry
    requires forall j | 0 <= j < |b| && j != i :: b[j] == a[j]
    ensures CarriesOk(told, b)
  {
    forall j | 0 <= j < |b| ensures CarryOk(told, b[j].row.service, b[j].carry) { assert CarryOk(told, a[j].row.service, a[j].carry); }
  }

  // -------------------------------------------------------------- what a step keeps

  /** What the service carries is as far as the run is. */
  predicate CarryFits(plan: Plan, s: Svc) {
    match plan.carry
    case NotYet => s.carry.bps == [] && s.carry.mode == Unset
    case Now => true
    case Then(_, carries) => s.row.service in carries ==> SameCarry(carries[s.row.service], s.carry)
  }

  function BadOf(e: Event): set<string> { if Failing(e) then TouchedBy(e) else {} }

  ghost predicate IsLive(svcs: seq<Svc>, s: string) {
    exists i :: 0 <= i < |svcs| && svcs[i].Live() && svcs[i].row.service == s
  }

  /** One more event keeps what holds of a service. */
  lemma SvcActed(plan: Plan, s: Svc, log: Log, phase: nat, bad: set<string>, e: Event)
    requires SvcOk(plan, s, log, phase, bad) && BadOf(e) <= bad && e != Out(s.row.service)
    ensures SvcOk(plan, s, log + [e], phase, bad)
  {
    if s.Live() {
      if phase >= 1 && !plan.noBuild { StaysStaged(log, e, s); }
      StaysReady(plan, log, e, phase, s.row.service);
      if s.row.service !in bad {
        assert Fine(log, s.row.service);
        forall d | d in log + [e] && Failing(d) ensures !Touches(d, s.row.service) {
          if d == e {} else { assert d in log; }
        }
      }
    }
  }

  lemma SvcReady(plan: Plan, svcs: seq<Svc>, log: Log, phase: nat, done: set<nat>, s: string)
    requires phase > 0 && RunOk(plan, svcs, log, phase, done, {}) && IsLive(svcs, s)
    ensures Fine(log, s) && Ready(plan, log, phase - 1, s)
  {
    var i :| 0 <= i < |svcs| && svcs[i].Live() && svcs[i].row.service == s;
    assert SvcOk(plan, svcs[i], log, if i in done then phase else phase - 1, {});
  }

  /** Something was asked for live services. */
  lemma Acted(plan: Plan, svcs: seq<Svc>, log: Log, phase: nat, done: set<nat>, e: Event)
    requires phase > 0 && RunOk(plan, svcs, log, phase, done, {}) && Phase(e) == phase
    requires forall s | Touches(e, s) :: IsLive(svcs, s)
    requires e.Replaced? || e.Recreated? ==> !plan.noBuild
    requires e.Recreated? ==> e.services <= plan.entering
    requires OfListed(plan, log, e) && !e.Told? && (e.Replaced? ==> IsStaged(log, e.service, e.from))
    requires Once(log, e) && OwnBuild(plan, e)
    ensures RunOk(plan, svcs, log + [e], phase, done, BadOf(e))
  {
    forall s | Touches(e, s) ensures Fine(log, s) && Ready(plan, log, phase - 1, s) {
      SvcReady(plan, svcs, log, phase, done, s);
    }
    Follows(plan, log, e);
    ToldsMore(log, e);
    forall i | 0 <= i < |svcs| ensures SvcOk(plan, svcs[i], log + [e], if i in done then phase else phase - 1, BadOf(e)) {
      var p := if i in done then phase else phase - 1;
      assert SvcOk(plan, svcs[i], log, p, {});
      SvcActed(plan, svcs[i], log, p, BadOf(e), e);
    }
  }

  /** A session of a live service was stopped, or would not be. */
  lemma StopActs(plan: Plan, svcs: seq<Svc>, log: Log, done: set<nat>, i: nat, session: string, ok: bool)
    requires RunOk(plan, svcs, log, 2, done, {}) && i < |svcs| && svcs[i].Live()
    requires IsListed(plan.project, log, svcs[i].row.service, session) && WasTold(log, svcs[i].row.service, session)
    ensures RunOk(plan, svcs, log + [Stopped(svcs[i].row.service, session, ok)], 2, done, if ok then {} else {svcs[i].row.service})
  {
    assert IsLive(svcs, svcs[i].row.service);
    Acted(plan, svcs, log, 2, done, Stopped(svcs[i].row.service, session, ok));
  }

  lemma StopTellsNothing(log: Log, s: string, session: string, ok: bool)
    ensures Tolds(log + [Stopped(s, session, ok)]) == Tolds(log)
    ensures Stopped(s, session, ok) in log + [Stopped(s, session, ok)]
  {
    ToldsMore(log, Stopped(s, session, ok));
  }

  /** A live service's session told what it leaves, which is now carried. */
  lemma ToldOne(plan: Plan, svcs: seq<Svc>, log: Log, done: set<nat>, i: nat, e: Event, c: Carried)
    requires RunOk(plan, svcs, log, 2, done, {}) && i < |svcs| && svcs[i].Live() && e.Told? && e.service == svcs[i].row.service
    requires IsListed(plan.project, log, e.service, e.session) && DistinctKeys(c.bps) && plan.carry.Now?
    ensures RunOk(plan, svcs[i := svcs[i].(carry := c)], log + [e], 2, done, {}) && Weaker(svcs, svcs[i := svcs[i].(carry := c)])
  {
    TellFollows(plan, log, e);
    var more := svcs[i := svcs[i].(carry := c)];
    assert LogOk(plan, log + [e], 2) && DistinctLive(more);
    forall j | 0 <= j < |svcs| ensures SvcOk(plan, more[j], log + [e], if j in done then 2 else 1, {}) {
      var p := if j in done then 2 else 1;
      assert SvcOk(plan, svcs[j], log, p, {});
      SvcActed(plan, svcs[j], log, p, {}, e);
      if j == i { CarriesOther(plan, svcs[j], c, log + [e], p); }
    }
  }

  lemma CarriesOther(plan: Plan, s: Svc, c: Carried, log: Log, phase: nat)
    requires SvcOk(plan, s, log, phase, {}) && DistinctKeys(c.bps) && plan.carry.Now?
    ensures SvcOk(plan, s.(carry := c), log, phase, {})
  {
    assert Staged(log, s) ==> Staged(log, s.(carry := c));
  }

  lemma TellFollows(plan: Plan, log: Log, e: Event)
    requires Ordered(plan, log) && (forall d | d in log :: Phase(d) <= 2) && e.Told? && IsListed(plan.project, log, e.service, e.session)
    ensures Ordered(plan, log + [e])
  {
    Follows(plan, log, e);
  }

  /** A live service was taken out of the run. */
  lemma TakenOut(plan: Plan, svcs: seq<Svc>, log: Log, phase: nat, done: set<nat>, bad: set<string>, i: nat, s: Svc)
    requires phase > 0 && RunOk(plan, svcs, log, phase, done, bad) && i < |svcs| && svcs[i].Live() && !plan.hope
    requires s.row == svcs[i].row && !s.Live() && s.AtMostOne() && s.carry == svcs[i].carry && BuildKey(s) == BuildKey(svcs[i])
    ensures RunOk(plan, svcs[i := s], log + [Out(s.row.service)], phase, done, bad)
  {
    var e := Out(s.row.service);
    OutFollows(plan, log, s.row.service);
    ToldsMore(log, e);
    forall j | 0 <= j < |svcs| ensures SvcOk(plan, svcs[i := s][j], log + [e], if j in done then phase else phase - 1, bad) {
      var p := if j in done then phase else phase - 1;
      assert SvcOk(plan, svcs[j], log, p, bad);
      if j == i { OutIsOk(plan, svcs[j], s, log, p, bad, e); } else { SvcActed(plan, svcs[j], log, p, bad, e); }
    }
  }

  lemma OutFollows(plan: Plan, log: Log, s: string)
    requires Ordered(plan, log)
    ensures Ordered(plan, log + [Out(s)])
  {
    Follows(plan, log, Out(s));
  }

  lemma OutIsOk(plan: Plan, s: Svc, t: Svc, log: Log, phase: nat, bad: set<string>, e: Event)
    requires SvcOk(plan, s, log, phase, bad) && s.Live() && !plan.hope
    requires t.row == s.row && !t.Live() && t.AtMostOne() && t.carry == s.carry && BuildKey(t) == BuildKey(s)
    ensures SvcOk(plan, t, log + [e], phase, bad)
  {}

  /** All that something failed for are out. */
  lemma Cleared(plan: Plan, svcs: seq<Svc>, log: Log, phase: nat, done: set<nat>, bad: set<string>)
    requires phase > 0 && RunOk(plan, svcs, log, phase, done, bad)
    requires forall s | s in bad :: !IsLive(svcs, s)
    ensures RunOk(plan, svcs, log, phase, done, {})
  {
    forall i | 0 <= i < |svcs| ensures SvcOk(plan, svcs[i], log, if i in done then phase else phase - 1, {}) {
      assert SvcOk(plan, svcs[i], log, if i in done then phase else phase - 1, bad);
    }
  }

  /** What a service needs to go on is there. */
  lemma DoneOne(plan: Plan, svcs: seq<Svc>, log: Log, phase: nat, done: set<nat>, i: nat)
    requires phase > 0 && RunOk(plan, svcs, log, phase, done, {}) && i < |svcs|
    requires svcs[i].Live() ==> Ready(plan, log, phase, svcs[i].row.service) && (plan.noBuild ==> !svcs[i].entry)
    requires svcs[i].Live() && phase == 1 && !plan.noBuild ==> Staged(log, svcs[i]) && (plan.hope ==> svcs[i].projectRel != "")
    ensures RunOk(plan, svcs, log, phase, done + {i}, {})
  {
    forall j | 0 <= j < |svcs| ensures SvcOk(plan, svcs[j], log, if j in done + {i} then phase else phase - 1, {}) {
      assert SvcOk(plan, svcs[j], log, if j in done then phase else phase - 1, {});
    }
  }

  /** A service was changed, not as to its place in the run. */
  lemma Changed(plan: Plan, svcs: seq<Svc>, log: Log, phase: nat, done: set<nat>, i: nat, s: Svc)
    requires phase > 0 && RunOk(plan, svcs, log, phase, done, {}) && i < |svcs|
    requires s.row == svcs[i].row && s.Live() == svcs[i].Live() && s.AtMostOne() && s.entry == svcs[i].entry
    requires s.session == svcs[i].session && SameCarry(svcs[i].carry, s.carry)
    requires BuildKey(s) == BuildKey(svcs[i]) || plan.builds == map[]
    requires (s.out == svcs[i].out || Staged(log, s)) && (plan.hope ==> s.projectRel == svcs[i].projectRel || s.projectRel != "")
    ensures RunOk(plan, svcs[i := s], log, phase, done, {})
  {
    var more := svcs[i := s];
    forall j | 0 <= j < |more| ensures SvcOk(plan, more[j], log, if j in done then phase else phase - 1, {}) {
      assert SvcOk(plan, svcs[j], log, if j in done then phase else phase - 1, {});
    }
  }

  /** Every service has the phase behind it. */
  lemma NextPhase(plan: Plan, svcs: seq<Svc>, log: Log, phase: nat, done: set<nat>)
    requires 0 < phase < 5 && RunOk(plan, svcs, log, phase, done, {}) && phase != 2
    requires forall i | 0 <= i < |svcs| && svcs[i].Live() :: i in done
    ensures RunOk(plan, svcs, log, phase + 1, {}, {})
  {
    forall i | 0 <= i < |svcs| ensures SvcOk(plan, svcs[i], log, phase, {}) {
      assert SvcOk(plan, svcs[i], log, if i in done then phase else phase - 1, {});
    }
  }

  /** What every service carries. */
  ghost function CarriesNow(svcs: seq<Svc>): map<string, Carried> {
    map n | n in Names(svcs) && IsLive(svcs, n) :: CarryNamed(svcs, n)
  }

  ghost function CarryNamed(svcs: seq<Svc>, n: string): Carried
    requires IsLive(svcs, n)
  {
    var i :| 0 <= i < |svcs| && svcs[i].Live() && svcs[i].row.service == n;
    svcs[i].carry
  }

  ghost function WithCarries(plan: Plan, svcs: seq<Svc>, log: Log): Plan { plan.(carry := Then(Tolds(log), CarriesNow(svcs))) }

  /** What is carried is as the sessions told. */
  ghost predicate PlanCarries(plan: Plan) {
    plan.carry.Then? && forall n | n in plan.carry.carries :: CarryOk(plan.carry.told, n, plan.carry.carries[n])
  }

  lemma SameOrder(plan: Plan, more: Plan, log: Log)
    requires Ordered(plan, log) && more == plan.(carry := more.carry)
    ensures Ordered(more, log)
  {
    forall i | 0 <= i < |log| ensures Allowed(more, log[..i], log[i]) {
      OrderedAt(plan, log, i);
      forall s | Touches(log[i], s) && Phase(log[i]) > 1 ensures Ready(more, log[..i], Phase(log[i]) - 1, s) {
        assert Ready(plan, log[..i], Phase(log[i]) - 1, s);
      }
    }
    OrderedWhen(more, log);
  }

  lemma SessionsBegin(plan: Plan, svcs: seq<Svc>, log: Log)
    requires RunOk(plan, svcs, log, 2, {}, {}) && plan.carry.NotYet? && forall d | d in log :: !d.Told?
    ensures RunOk(plan.(carry := Now), svcs, log, 2, {}, {}) && CarriesOk(Tolds(log), svcs)
  {
    SameOrder(plan, plan.(carry := Now), log);
    NoneTold(log);
    forall i | 0 <= i < |svcs| ensures SvcOk(plan.(carry := Now), svcs[i], log, 1, {}) && svcs[i].carry.bps == [] && svcs[i].carry.mode == Unset {
      assert SvcOk(plan, svcs[i], log, 1, {});
      if svcs[i].Live() { assert Ready(plan, log, 1, svcs[i].row.service); }
    }
    NothingCarried(svcs);
  }

  lemma {:induction false} NoneTold(log: Log)
    requires forall d | d in log :: !d.Told?
    ensures Tolds(log) == []
  {
    if log != [] { NoneTold(log[..|log| - 1]); }
  }

  /** The sessions are ended: what is carried is settled. */
  lemma CarriesKnown(plan: Plan, svcs: seq<Svc>, log: Log, done: set<nat>)
    requires RunOk(plan, svcs, log, 2, done, {}) && CarriesOk(Tolds(log), svcs)
    requires forall i | 0 <= i < |svcs| && svcs[i].Live() :: i in done
    ensures RunOk(WithCarries(plan, svcs, log), svcs, log, 3, {}, {}) && PlanCarries(WithCarries(plan, svcs, log))
    ensures forall i | 0 <= i < |svcs| && svcs[i].Live() :: svcs[i].row.service in CarriesNow(svcs)
  {
    var more := WithCarries(plan, svcs, log);
    SameOrder(plan, more, log);
    var carries := CarriesNow(svcs);
    forall n | n in carries ensures CarryOk(Tolds(log), n, carries[n]) {
      var k :| 0 <= k < |svcs| && svcs[k].Live() && svcs[k].row.service == n && carries[n] == svcs[k].carry;
      assert CarryOk(Tolds(log), svcs[k].row.service, svcs[k].carry);
    }
    forall i | 0 <= i < |svcs| ensures SvcOk(more, svcs[i], log, 2, {}) {
      assert SvcOk(plan, svcs[i], log, if i in done then 2 else 1, {});
      CarryIsNow(svcs, i);
      if svcs[i].Live() { assert Ready(plan, log, 2, svcs[i].row.service); }
    }
    forall i | 0 <= i < |svcs| && svcs[i].Live() ensures svcs[i].row.service in CarriesNow(svcs) {
      assert svcs[i] in svcs && IsLive(svcs, svcs[i].row.service);
    }
  }

  lemma CarryIsNow(svcs: seq<Svc>, i: nat)
    requires i < |svcs| && DistinctLive(svcs)
    ensures svcs[i].row.service in CarriesNow(svcs) ==> CarriesNow(svcs)[svcs[i].row.service] == svcs[i].carry
  {
    var n := svcs[i].row.service;
    if n in CarriesNow(svcs) {
      var k :| 0 <= k < |svcs| && svcs[k].Live() && svcs[k].row.service == n && CarriesNow(svcs)[n] == svcs[k].carry;
      assert k == i;
    }
  }

  /** What every live service builds. */
  ghost function BuildsOf(svcs: seq<Svc>): map<string, Target> {
    map n | n in Names(svcs) && IsLive(svcs, n) :: BuildNamed(svcs, n)
  }

  function Names(svcs: seq<Svc>): set<string> { set s | s in svcs :: s.row.service }

  ghost function BuildNamed(svcs: seq<Svc>, n: string): Target
    requires IsLive(svcs, n)
  {
    var i :| 0 <= i < |svcs| && svcs[i].Live() && svcs[i].row.service == n;
    BuildKey(svcs[i])
  }

  /** The projects are known before anything is asked for. */
  lemma BuildsKnown(plan: Plan, svcs: seq<Svc>, log: Log)
    requires RunOk(plan, svcs, log, 1, {}, {}) && forall d | d in log :: d.Out?
    ensures RunOk(plan.(builds := BuildsOf(svcs)), svcs, log, 1, {}, {})
    ensures forall i | 0 <= i < |svcs| && svcs[i].Live() :: svcs[i].row.service in BuildsOf(svcs)
  {
    var more := plan.(builds := BuildsOf(svcs));
    forall i | 0 <= i < |log| ensures Allowed(more, log[..i], log[i]) {
      OrderedAt(plan, log, i);
      assert log[i] in log;
    }
    OrderedWhen(more, log);
    forall i | 0 <= i < |svcs| ensures SvcOk(more, svcs[i], log, 0, {}) {
      assert SvcOk(plan, svcs[i], log, 0, {});
      var n := svcs[i].row.service;
      if n in more.builds {
        var k :| 0 <= k < |svcs| && svcs[k].Live() && svcs[k].row.service == n && more.builds[n] == BuildKey(svcs[k]);
        assert k == i;
      }
    }
    forall i | 0 <= i < |svcs| && svcs[i].Live() ensures svcs[i].row.service in BuildsOf(svcs) {
      assert svcs[i] in svcs && IsLive(svcs, svcs[i].row.service);
    }
  }

  /** What enters fast mode has no container that the override made. */
  ghost predicate Fresh(cs: Containers, made: set<string>, s: Svc) {
    s.Live() && s.entry ==> forall id | id in made && id in cs :: cs[id].service != s.row.service
  }

  /** Labels that the override does not record are not those of a container it
      made, but for those it lost the record of. */
  lemma IgnoredIsFresh(path: string, cs: Containers, made: set<string>, file: OverrideFile, dirs: set<string>, lost: set<string>, o: string)
    requires StackOk(path, cs, made, file, dirs, lost) && o in cs
    requires cs[o].fast.Some? ==> !Corroborates(path, Reads(file), cs[o].service, cs[o].fast.value)
    ensures forall id | id in made && id in cs && cs[id].service == cs[o].service :: cs[id].service in lost
  {}

  /** What runs an app is not a container of the override's, which idles. */
  lemma RunsIsFresh(path: string, cs: Containers, made: set<string>, file: OverrideFile, dirs: set<string>, lost: set<string>, o: string)
    requires StackOk(path, cs, made, file, dirs, lost) && o in cs && cs[o].dll != ""
    ensures forall id | id in made && id in cs :: cs[id].service != cs[o].service
  {}

  /** Changed as to what is known of it, not as to its place in the run. */
  predicate SameSeat(a: Svc, b: Svc) {
    b.row == a.row && b.projectRel == a.projectRel && b.carry == a.carry && b.skipped == a.skipped && b.error == a.error && b.session == a.session && b.project == a.project
  }

  /** A service taken out: skipped when no service was named and the refusal is
      about the service, else failed. */
  function Refused(s: Svc, implicit: bool, err: Error): (t: Svc)
    ensures s.Live() && s.session.None? ==> t.AtMostOne() && !t.Live()
  {
    if implicit && err.InvalidRequest? then s.(skipped := true) else s.(error := Some(err))
  }

  /** The services are the same, some of them out of the run. */
  ghost predicate Weaker(a: seq<Svc>, b: seq<Svc>) {
    |a| == |b| && forall i | 0 <= i < |a| :: b[i].row == a[i].row && b[i].entry == a[i].entry && (b[i].Live() ==> a[i].Live())
  }

  /** Why a container is refused whatever its labels say. */
  function Unfit(info: Info, project: string, corroborated: bool): Option<Error> {
    if info.c.project != project then Some(InvalidRequest)
    else if info.paused || info.restarting || !info.running then Some(OtherError)
    else if info.c.composeDir == "" || !corroborated then Some(InvalidRequest)
    else None
  }

  ghost predicate SameRows(a: seq<Svc>, b: seq<Svc>) {
    |a| == |b| && forall i | 0 <= i < |a| :: a[i].row == b[i].row
  }

  /** While the containers are classified, n of them so far: only those taken
      out are in the log, and the live ones have their service to themselves. */
  ghost predicate Classifying(svcs: seq<Svc>, log: Log, n: nat) {
    && n <= |svcs|
    && (forall d | d in log :: exists j :: 0 <= j < n && !svcs[j].Live() && d == Out(svcs[j].row.service))
    && (forall j, k | 0 <= j < n && svcs[j].Live() && 0 <= k < |svcs| && k != j :: svcs[k].row.service != svcs[j].row.service)
    && (forall j | 0 <= j < |svcs| :: svcs[j].AtMostOne() && svcs[j].session.None? && svcs[j].carry == Carried([], Unset, 0))
    && (forall j | n <= j < |svcs| :: svcs[j].Live())
  }

  function Entering(svcs: seq<Svc>): set<string> { set s | s in svcs && s.Live() && s.entry :: s.row.service }

  lemma ClassifiedStarts(plan: Plan, svcs: seq<Svc>, log: Log)
    requires Classifying(svcs, log, |svcs|) && plan.entering == Entering(svcs) && plan.builds == map[] && plan.carry.NotYet?
    requires plan.hope ==> forall i | 0 <= i < |svcs| :: svcs[i].Live()
    ensures RunOk(plan, svcs, log, 1, {}, {})
  {
    forall i | 0 <= i < |svcs| ensures SvcOk(plan, svcs[i], log, 0, {}) {
      if svcs[i].Live() && svcs[i].row.service in plan.entering {
        var s :| s in svcs && s.Live() && s.entry && s.row.service == svcs[i].row.service;
        var k :| 0 <= k < |svcs| && svcs[k] == s;
        assert k == i;
      }
    }
    forall i | 0 <= i < |log| ensures Allowed(plan, log[..i], log[i]) { assert log[i] in log; }
    OrderedWhen(plan, log);
  }

  /** docker compose ps told the services of the containers, and what enters fast
      mode has none of its containers in it. */
  ghost predicate Fits(cs: Containers, made: set<string>, svcs: seq<Svc>) {
    forall i | 0 <= i < |svcs| :: FitsOne(cs, made, svcs[i])
  }

  ghost predicate FitsOne(cs: Containers, made: set<string>, s: Svc) {
    (s.row.id in cs ==> cs[s.row.id].service == s.row.service) && Fresh(cs, made, s)
  }

  lemma FitsWith(cs: Containers, made: set<string>, svcs: seq<Svc>, i: nat, s: Svc)
    requires Fits(cs, made, svcs) && i < |svcs| && s.row == svcs[i].row
    requires Fresh(cs, made, s)
    ensures Fits(cs, made, svcs[i := s])
  {
    var more := svcs[i := s];
    forall j | 0 <= j < |more| ensures FitsOne(cs, made, more[j]) {
      assert FitsOne(cs, made, svcs[j]);
    }
  }

  lemma FitsWeaker(cs: Containers, made: set<string>, a: seq<Svc>, b: seq<Svc>)
    requires Fits(cs, made, a) && Weaker(a, b)
    ensures Fits(cs, made, b)
  {
    forall i | 0 <= i < |b| ensures FitsOne(cs, made, b[i]) { assert FitsOne(cs, made, a[i]); }
  }

  /** One more container is classified: s is what was found, end what became of
      it. */
  lemma ClassifiedOne(cs: Containers, made: set<string>, svcs: seq<Svc>, log: Log, i: nat, s: Svc, end: Svc)
    requires Classifying(svcs, log, i) && i < |svcs| && Fits(cs, made, svcs)
    requires end.row == s.row == svcs[i].row && end.carry == svcs[i].carry && end.AtMostOne() && end.session.None?
    requires Fresh(cs, made, end)
    requires end.Live() ==> forall k | 0 <= k < |svcs| && k != i :: svcs[k].row.service != svcs[i].row.service
    ensures svcs[i := s][i := end] == svcs[i := end]
    ensures Fits(cs, made, svcs[i := end]) && SameRows(svcs[i := end], svcs)
    ensures Classifying(svcs[i := end], if end.Live() then log else log + [Out(s.row.service)], i + 1)
  {
    var b, log' := svcs[i := end], if end.Live() then log else log + [Out(s.row.service)];
    FitsWith(cs, made, svcs, i, end);
    forall d | d in log' ensures exists j :: 0 <= j < i + 1 && !b[j].Live() && d == Out(b[j].row.service) {
      if d in log {
        var j :| 0 <= j < i && !svcs[j].Live() && d == Out(svcs[j].row.service);
        assert b[j] == svcs[j];
      } else {
        assert !b[i].Live();
      }
    }
  }

  // ------------------------------------------------------------------ groups

  /** The services of the parts from p on are as they were. */
  ghost predicate Coming(start: seq<Svc>, svcs: seq<Svc>, parts: seq<seq<nat>>, p: nat) {
    |svcs| == |start| && forall q | p <= q < |parts| :: Unchanged(start, svcs, parts[q])
  }

  ghost predicate Unchanged(start: seq<Svc>, svcs: seq<Svc>, idxs: seq<nat>) {
    forall i | i in idxs :: i < |svcs| && i < |start| && svcs[i] == start[i]
  }

  lemma OnePart(n: nat, live: seq<nat>, parts: seq<seq<nat>>, p: nat, start: seq<Svc>, before: seq<Svc>, svcs: seq<Svc>, done: set<nat>)
    requires Parts(n, live, parts) && |before| == |svcs| == n && p < |parts|
    requires Coming(start, before, parts, p) && Been(parts, p, done)
    requires forall i | 0 <= i < n && i !in parts[p] :: svcs[i] == before[i]
    ensures Coming(start, svcs, parts, p + 1) && Been(parts, p + 1, done + Of(parts[p]))
  {
    forall q | p + 1 <= q < |parts| ensures Unchanged(start, svcs, parts[q]) {
      assert Unchanged(start, before, parts[q]);
      forall i | i in parts[q] ensures i !in parts[p] {}
    }
  }

  /** What a service runs: its project and assembly. */
  function BuildKey(s: Svc): Target { (s.project, s.dll) }

  function BuildKeys(svcs: seq<Svc>, live: seq<nat>): seq<Target>
    requires forall i | i in live :: i < |svcs|
  {
    seq(|live|, k requires 0 <= k < |live| => assert live[k] in live; BuildKey(svcs[live[k]]))
  }

  /** The services of a part, by name. */
  function NamesAt(svcs: seq<Svc>, idxs: seq<nat>): (names: seq<string>)
    requires forall i | i in idxs :: i < |svcs|
    ensures forall i | i in idxs :: svcs[i].row.service in names
  {
    var names := seq(|idxs|, k requires 0 <= k < |idxs| => assert idxs[k] in idxs; svcs[idxs[k]].row.service);
    assert forall k | 0 <= k < |idxs| && idxs[k] in idxs :: names[k] == svcs[idxs[k]].row.service;
    names
  }

  lemma NamesAreLive(svcs: seq<Svc>, idxs: seq<nat>)
    requires forall i | i in idxs :: i < |svcs| && svcs[i].Live()
    ensures forall s | s in NamesAt(svcs, idxs) :: IsLive(svcs, s)
    ensures forall s | s in NamesAt(svcs, idxs) :: exists i :: i in idxs && svcs[i].row.service == s
  {
    var names := NamesAt(svcs, idxs);
    forall s | s in names ensures IsLive(svcs, s) && exists i :: i in idxs && svcs[i].row.service == s {
      var k :| 0 <= k < |idxs| && names[k] == s;
      assert idxs[k] in idxs && svcs[idxs[k]].Live();
    }
  }

  lemma BatchesPart(carries: seq<Carried>, batches: seq<Batch>, settable: Spec -> bool, args: seq<Spec>, mode: Mode, groups: seq<seq<nat>>)
    requires Batched(carries, batches, settable, args, mode) && |groups| == |batches|
    requires forall b | 0 <= b < |batches| :: groups[b] == batches[b].members
    ensures Partition(|carries|, groups)
  {
    forall g | 0 <= g < |groups| ensures Increasing(groups[g]) { assert Increasing(batches[g].members); }
    forall g, m | 0 <= g < |groups| && m in groups[g] ensures m < |carries| {
      assert m in batches[g].members && Increasing(batches[g].members);
    }
    forall g, h, m | 0 <= g < h < |groups| && m in groups[g] ensures m !in groups[h] { assert m in batches[g].members; }
    forall m | 0 <= m < |carries| ensures InSome(groups, m) {
      assert InBatch(batches, m);
      var b :| 0 <= b < |batches| && m in batches[b].members;
      assert m in groups[b];
    }
  }

  // -------------------------------------------------------------- once each

  /** What a service is grouped by in a phase. */
  datatype Key = BuildOf(what: Target) | UpOf(ref: ComposeRef) | NoKey

  function KeyOf(path: string, phase: nat, s: Svc): Key {
    if phase == 1 then BuildOf(BuildKey(s)) else if phase == 4 then UpOf(UpKey(path, s)) else NoKey
  }

  function KeyOfEvent(e: Event): Key {
    match e
    case Built(what, _, _, _) => BuildOf(what)
    case Recreated(ref, _, _) => UpOf(ref)
    case _ => NoKey
  }

  function LiveSet(svcs: seq<Svc>): set<nat> { set i: nat | i < |svcs| && svcs[i].Live() }

  /** Only services were taken out since. */
  ghost predicate Outs(a: Log, b: Log) { a <= b && forall d | d in b :: d in a || d.Out? }

  ghost predicate Adds(a: Log, b: Log, e: Event) { a + [e] <= b && forall d | d in b :: d in a || d == e || d.Out? }

  /** The event is for exactly these services, and built or recreated what each
      of them is. */
  ghost predicate IsFor(path: string, phase: nat, e: Event, start: seq<Svc>, idxs: seq<nat>) {
    && Phase(e) == phase && (forall i | i in idxs :: i < |start|)
    && TouchedBy(e) == NamesOf(NamesAt(start, idxs))
    && forall i | i in idxs :: KeyOf(path, phase, start[i]) == KeyOfEvent(e)
  }

  /** Its failure takes out exactly these services. */
  ghost predicate Met(path: string, phase: nat, e: Event, start: seq<Svc>, svcs: seq<Svc>, idxs: seq<nat>) {
    && IsFor(path, phase, e, start, idxs)
    && (phase < 5 ==> forall i | i in idxs :: i < |svcs| && (svcs[i].Live() <==> !Failing(e)))
    && (phase == 4 ==> forall i | i in idxs :: i < |svcs| && (svcs[i].Live() ==> svcs[i].recreated))
  }

  /** Each place before p has an event that is its own, and no event of the phase
      is anything else's. */
  ghost predicate Matched(log: Log, phase: nat, p: nat, owns: (Event, nat) -> bool) {
    && (forall d | d in log && Phase(d) == phase :: IsOwned(d, p, owns))
    && (forall q: nat | q < p :: HasOwn(log, phase, q, owns))
  }

  ghost predicate IsOwned(d: Event, p: nat, owns: (Event, nat) -> bool) { exists q: nat | q < p :: owns(d, q) }

  ghost predicate HasOwn(log: Log, phase: nat, q: nat, owns: (Event, nat) -> bool) {
    exists d | d in log && Phase(d) == phase :: owns(d, q)
  }

  lemma NextMatched(log: Log, log': Log, phase: nat, p: nat, e: Event, owns: (Event, nat) -> bool)
    requires Matched(log, phase, p, owns) && Adds(log, log', e) && phase > 0 && Phase(e) == phase && owns(e, p)
    ensures Matched(log', phase, p + 1, owns)
  {
    assert e in log + [e] && forall d | d in log :: d in log + [e];
    forall d | d in log' && Phase(d) == phase ensures IsOwned(d, p + 1, owns) {
      if d in log { assert IsOwned(d, p, owns); }
    }
    forall q: nat | q < p + 1 ensures HasOwn(log', phase, q, owns) {
      if q < p { assert HasOwn(log, phase, q, owns); }
    }
  }

  lemma MatchedToo(log: Log, phase: nat, p: nat, was: (Event, nat) -> bool, owns: (Event, nat) -> bool)
    requires Matched(log, phase, p, was) && forall d, q: nat | q < p && was(d, q) :: owns(d, q)
    ensures Matched(log, phase, p, owns)
  {
    forall d | d in log && Phase(d) == phase ensures IsOwned(d, p, owns) {
      assert IsOwned(d, p, was);
      var q: nat :| q < p && was(d, q);
    }
    forall q: nat | q < p ensures HasOwn(log, phase, q, owns) {
      assert HasOwn(log, phase, q, was);
      var d :| d in log && Phase(d) == phase && was(d, q);
    }
  }

  lemma NowFor(path: string, phase: nat, e: Event, start: seq<Svc>, idxs: seq<nat>)
    requires Phase(e) == phase && forall i | i in idxs :: i < |start| && KeyOf(path, phase, start[i]) == KeyOfEvent(e)
    requires TouchedBy(e) == NamesOf(NamesAt(start, idxs))
    ensures IsFor(path, phase, e, start, idxs)
  {}

  lemma NowMet(path: string, e: Event, ok: bool, start: seq<Svc>, svcs: seq<Svc>, idxs: seq<nat>, log: Log, now: Log)
    requires IsFor(path, Phase(e), e, start, idxs) && Outs(log + [e], now)
    requires forall i | i in idxs :: i < |svcs| && (svcs[i].Live() <==> ok) && (e.Recreated? && ok ==> svcs[i].recreated)
    requires (e.Built? || e.Recreated?) && (ok <==> !Failing(e))
    ensures Met(path, Phase(e), e, start, svcs, idxs) && Adds(log, now, e)
  {}

  ghost function Owns(path: string, phase: nat, start: seq<Svc>, svcs: seq<Svc>, parts: seq<seq<nat>>): (Event, nat) -> bool {
    (d: Event, q: nat) => q < |parts| && Met(path, phase, d, start, svcs, parts[q])
  }

  /** Each part before p had its event, and there is no other of the phase. */
  ghost predicate PartsMet(path: string, phase: nat, log: Log, start: seq<Svc>, svcs: seq<Svc>, parts: seq<seq<nat>>, p: nat) {
    Matched(log, phase, p, Owns(path, phase, start, svcs, parts))
  }

  /** The services of a part have one key, which no other part has. */
  ghost predicate ByKey(path: string, phase: nat, start: seq<Svc>, parts: seq<seq<nat>>) {
    && (forall p | 0 <= p < |parts| :: parts[p] != [] && forall i | i in parts[p] :: i < |start|)
    && (forall p, q | 0 <= p < |parts| && 0 <= q < |parts| :: KeysTell(path, phase, start, parts[p], parts[q], p == q))
  }

  ghost predicate KeysTell(path: string, phase: nat, start: seq<Svc>, a: seq<nat>, b: seq<nat>, same: bool) {
    forall i, j | i in a && j in b :: i < |start| && j < |start| && (KeyOf(path, phase, start[i]) == KeyOf(path, phase, start[j]) <==> same)
  }

  lemma KeysApart<K(!new)>(path: string, phase: nat, start: seq<Svc>, live: seq<nat>, keys: seq<K>, groups: seq<seq<nat>>, parts: seq<seq<nat>>)
    requires Increasing(live) && |keys| == |live| && Groups(keys, groups) && PartsFrom(live, groups, parts)
    requires forall m | 0 <= m < |live| :: live[m] < |start|
    requires forall m, n | 0 <= m < |live| && 0 <= n < |live| ::
               keys[m] == keys[n] <==> KeyOf(path, phase, start[live[m]]) == KeyOf(path, phase, start[live[n]])
    ensures ByKey(path, phase, start, parts)
  {
    forall p | 0 <= p < |parts| ensures parts[p] != [] && forall i | i in parts[p] :: i < |start| {
      assert Group(keys, groups[p]);
      forall i | i in parts[p] ensures i < |start| { var m := PlaceOf(live, groups[p], i); }
    }
    forall p, q | 0 <= p < |parts| && 0 <= q < |parts| ensures KeysTell(path, phase, start, parts[p], parts[q], p == q) {
      forall i, j | i in parts[p] && j in parts[q]
        ensures i < |start| && j < |start| && (KeyOf(path, phase, start[i]) == KeyOf(path, phase, start[j]) <==> p == q)
      {
        var m, n := PartKeys(live, keys, groups, parts, p, q, i, j);
      }
    }
  }

  lemma BuildKeysApart(path: string, start: seq<Svc>, live: seq<nat>, keys: seq<Target>, groups: seq<seq<nat>>, parts: seq<seq<nat>>)
    requires Increasing(live) && (forall i | i in live :: i < |start|) && keys == BuildKeys(start, live)
    requires Groups(keys, groups) && PartsFrom(live, groups, parts)
    ensures ByKey(path, 1, start, parts)
  {
    assert forall m | 0 <= m < |live| :: live[m] in live;
    KeysApart(path, 1, start, live, keys, groups, parts);
  }

  lemma UpKeysApart(path: string, start: seq<Svc>, entering: seq<nat>, keys: seq<ComposeRef>, groups: seq<seq<nat>>, parts: seq<seq<nat>>)
    requires Increasing(entering) && (forall i | i in entering :: i < |start|) && keys == UpKeys(path, start, entering)
    requires Groups(keys, groups) && PartsFrom(entering, groups, parts)
    ensures ByKey(path, 4, start, parts)
  {
    assert forall m | 0 <= m < |entering| :: entering[m] in entering;
    KeysApart(path, 4, start, entering, keys, groups, parts);
  }

  lemma SameNames(start: seq<Svc>, svcs: seq<Svc>, idxs: seq<nat>)
    requires Unchanged(start, svcs, idxs)
    ensures NamesAt(start, idxs) == NamesAt(svcs, idxs)
  {
    forall k | 0 <= k < |idxs| ensures NamesAt(start, idxs)[k] == NamesAt(svcs, idxs)[k] { assert idxs[k] in idxs; }
  }

  lemma NamesApart(start: seq<Svc>, a: seq<nat>, b: seq<nat>)
    requires DistinctLive(start) && forall i | i in a :: i < |start| && start[i].Live() && i !in b
    requires forall i | i in b :: i < |start| && start[i].Live()
    ensures NamesOf(NamesAt(start, a)) !! NamesOf(NamesAt(start, b))
  {
    NamesAreLive(start, a);
    NamesAreLive(start, b);
    forall n | n in NamesAt(start, a) ensures n !in NamesAt(start, b) {
      var i :| i in a && start[i].row.service == n;
      assert forall j | j in b :: start[j].row.service != n;
    }
  }

  /** Two parts' events share no service and no key. */
  lemma EventsApart(path: string, phase: nat, d: Event, e: Event, start: seq<Svc>, a: seq<nat>, b: seq<nat>)
    requires IsFor(path, phase, d, start, a) && IsFor(path, phase, e, start, b) && DistinctLive(start)
    requires (forall i | i in a :: start[i].Live() && i !in b) && (forall i | i in b :: start[i].Live())
    requires phase < 5 ==> a != [] && b != [] && KeysTell(path, phase, start, a, b, false)
    ensures TouchedBy(d) !! TouchedBy(e) && (phase < 5 ==> KeyOfEvent(d) != KeyOfEvent(e))
  {
    NamesApart(start, a, b);
    if phase < 5 { assert a[0] in a && b[0] in b; }
  }

  ghost predicate AllApart(log: Log, phase: nat, e: Event) {
    forall d | d in log && Phase(d) == phase :: TouchedBy(d) !! TouchedBy(e) && (phase < 5 ==> KeyOfEvent(d) != KeyOfEvent(e))
  }

  lemma ApartIsOnce(log: Log, phase: nat, e: Event)
    requires AllApart(log, phase, e) && Phase(e) == phase && !IsListing(e)
    ensures Once(log, e)
  {}

  /** The next part's event is the first for its services and what they are. */
  lemma OncePart(path: string, phase: nat, log: Log, start: seq<Svc>, svcs: seq<Svc>, live: seq<nat>, parts: seq<seq<nat>>, p: nat, e: Event)
    requires PartsMet(path, phase, log, start, svcs, parts, p) && p < |parts| && Parts(|start|, live, parts)
    requires DistinctLive(start) && forall i | i in live :: i < |start| && start[i].Live()
    requires phase < 5 ==> ByKey(path, phase, start, parts)
    requires IsFor(path, phase, e, start, parts[p]) && !IsListing(e)
    ensures Once(log, e)
  {
    forall d | d in log && Phase(d) == phase ensures TouchedBy(d) !! TouchedBy(e) && (phase < 5 ==> KeyOfEvent(d) != KeyOfEvent(e)) {
      var owns := Owns(path, phase, start, svcs, parts);
      assert IsOwned(d, p, owns);
      var q: nat :| q < p && owns(d, q);
      assert phase < 5 ==> KeysTell(path, phase, start, parts[q], parts[p], false);
      EventsApart(path, phase, d, e, start, parts[q], parts[p]);
    }
    ApartIsOnce(log, phase, e);
  }

  /** An event of a part stays one when other services change. */
  lemma MetStays(path: string, phase: nat, d: Event, start: seq<Svc>, before: seq<Svc>, svcs: seq<Svc>, a: seq<nat>, b: seq<nat>)
    requires Met(path, phase, d, start, before, a) && |svcs| == |before|
    requires (forall i | i in a :: i !in b) && forall i | 0 <= i < |svcs| && i !in b :: svcs[i] == before[i]
    ensures Met(path, phase, d, start, svcs, a)
  {}

  lemma MetSince(path: string, phase: nat, e: Event, start: seq<Svc>, before: seq<Svc>, svcs: seq<Svc>, idxs: seq<nat>)
    requires Met(path, phase, e, before, svcs, idxs) && Unchanged(start, before, idxs)
    ensures Met(path, phase, e, start, svcs, idxs)
  {
    SameNames(start, before, idxs);
  }

  /** The part's event happened; the other parts are as they were. */
  lemma PartIsMet(path: string, phase: nat, log: Log, log': Log, start: seq<Svc>, before: seq<Svc>, svcs: seq<Svc>, live: seq<nat>,
                  parts: seq<seq<nat>>, p: nat, e: Event)
    requires PartsMet(path, phase, log, start, before, parts, p) && p < |parts| && Parts(|start|, live, parts)
    requires phase > 0 && Adds(log, log', e) && Phase(e) == phase && Unchanged(start, before, parts[p]) && Met(path, phase, e, before, svcs, parts[p])
    requires |svcs| == |before| && forall i | 0 <= i < |svcs| && i !in parts[p] :: svcs[i] == before[i]
    ensures PartsMet(path, phase, log', start, svcs, parts, p + 1)
  {
    MetSince(path, phase, e, start, before, svcs, parts[p]);
    var was, owns := Owns(path, phase, start, before, parts), Owns(path, phase, start, svcs, parts);
    forall d, q: nat | q < p && was(d, q) ensures owns(d, q) {
      MetStays(path, phase, d, start, before, svcs, parts[q], parts[p]);
    }
    MatchedToo(log, phase, p, was, owns);
    NextMatched(log, log', phase, p, e, owns);
  }

  /** Where a stage is that goes through the parts: those before p have been, and
      had their event. */
  ghost predicate Doing(path: string, phase: nat, plan: Plan, log: Log, start: seq<Svc>, svcs: seq<Svc>, parts: seq<seq<nat>>, p: nat, done: set<nat>)
    requires phase > 0
  {
    && RunOk(plan, svcs, log, phase, done, {}) && Weaker(start, svcs)
    && Been(parts, p, done) && Coming(start, svcs, parts, p)
    && PartsMet(path, phase, log, start, svcs, parts, p)
  }

  lemma DoingNone(path: string, phase: nat, plan: Plan, log: Log, svcs: seq<Svc>, live: seq<nat>, parts: seq<seq<nat>>, done: set<nat>)
    requires phase > 0 && RunOk(plan, svcs, log, phase, done, {}) && (forall d | d in log :: Phase(d) < phase) && Parts(|svcs|, live, parts)
    ensures Doing(path, phase, plan, log, svcs, svcs, parts, 0, done)
  {
    forall q | 0 <= q < |parts| ensures Unchanged(svcs, svcs, parts[q]) {}
  }

  /** Nothing of the phase was asked for these services, nor for their key. */
  ghost predicate FirstFor(log: Log, phase: nat, key: Key, services: set<string>) {
    forall e | Phase(e) == phase && !IsListing(e) && KeyOfEvent(e) == key && TouchedBy(e) == services :: Once(log, e)
  }

  lemma FirstIsOnce(log: Log, phase: nat, key: Key, services: set<string>, e: Event)
    requires FirstFor(log, phase, key, services) && Phase(e) == phase && !IsListing(e) && KeyOfEvent(e) == key && TouchedBy(e) == services
    ensures Once(log, e)
  {}

  /** The services of the next part are as they were, and have one key. */
  lemma ThisPart(path: string, phase: nat, plan: Plan, log: Log, start: seq<Svc>, svcs: seq<Svc>, live: seq<nat>, parts: seq<seq<nat>>, p: nat,
                 done: set<nat>) returns (key: Key)
    requires phase in {1, 4, 5} && Doing(path, phase, plan, log, start, svcs, parts, p, done) && p < |parts| && Parts(|start|, live, parts)
    requires DistinctLive(start) && forall i | i in live :: i < |start| && start[i].Live()
    requires phase < 5 ==> ByKey(path, phase, start, parts)
    ensures forall i | i in parts[p] :: i < |svcs| && i in live && svcs[i] == start[i] && KeyOf(path, phase, svcs[i]) == key
    ensures (phase == 1 ==> key.BuildOf?) && (phase == 4 ==> key.UpOf?) && (phase == 5 ==> key.NoKey?) && (phase < 5 ==> parts[p] != [])
    ensures FirstFor(log, phase, key, NamesOf(NamesAt(svcs, parts[p])))
  {
    assert Unchanged(start, svcs, parts[p]);
    SameNames(start, svcs, parts[p]);
    key := if parts[p] == [] then NoKey else KeyOf(path, phase, start[parts[p][0]]);
    if phase < 5 { assert KeysTell(path, phase, start, parts[p], parts[p], true) && parts[p][0] in parts[p]; }
    forall e | Phase(e) == phase && !IsListing(e) && KeyOfEvent(e) == key && TouchedBy(e) == NamesOf(NamesAt(svcs, parts[p]))
      ensures Once(log, e)
    {
      OncePart(path, phase, log, start, svcs, live, parts, p, e);
    }
  }

  lemma NextPart(path: string, phase: nat, plan: Plan, log: Log, log': Log, start: seq<Svc>, before: seq<Svc>, svcs: seq<Svc>, live: seq<nat>,
                 parts: seq<seq<nat>>, p: nat, done: set<nat>, e: Event)
    requires phase > 0 && Doing(path, phase, plan, log, start, before, parts, p, done) && p < |parts| && Parts(|start|, live, parts)
    requires RunOk(plan, svcs, log', phase, done + Of(parts[p]), {}) && Weaker(before, svcs)
    requires forall i | 0 <= i < |svcs| && i !in parts[p] :: svcs[i] == before[i]
    requires Phase(e) == phase && Met(path, phase, e, before, svcs, parts[p]) && Adds(log, log', e)
    ensures Doing(path, phase, plan, log', start, svcs, parts, p + 1, done + Of(parts[p]))
  {
    WeakerThrough(start, before, svcs);
    OnePart(|svcs|, live, parts, p, start, before, svcs, done);
    assert Unchanged(start, before, parts[p]);
    PartIsMet(path, phase, log, log', start, before, svcs, live, parts, p, e);
  }

  /** An event is for all services of its kind, and its failure takes out them
      and no other. */
  ghost predicate ForOwn(path: string, start: seq<Svc>, svcs: seq<Svc>, live: set<nat>, d: Event) {
    && TouchedBy(d) != {}
    && forall j | j in live && j < |start| && j < |svcs| ::
         && (start[j].row.service in TouchedBy(d) <==> KeyOf(path, Phase(d), start[j]) == KeyOfEvent(d))
         && (start[j].row.service in TouchedBy(d) ==> (svcs[j].Live() <==> !Failing(d)))
  }

  ghost predicate OwnIsIn(path: string, phase: nat, log: Log, s: Svc) {
    exists d | d in log && Phase(d) == phase :: s.row.service in TouchedBy(d) && KeyOf(path, phase, s) == KeyOfEvent(d)
  }

  lemma AllMet(path: string, phase: nat, log: Log, start: seq<Svc>, svcs: seq<Svc>, live: seq<nat>, parts: seq<seq<nat>>)
    requires PartsMet(path, phase, log, start, svcs, parts, |parts|) && Parts(|start|, live, parts) && ByKey(path, phase, start, parts)
    requires DistinctLive(start) && (forall i | i in live :: i < |start| && start[i].Live()) && phase < 5 && |svcs| == |start|
    ensures forall d | d in log && Phase(d) == phase :: ForOwn(path, start, svcs, Of(live), d)
    ensures forall i | i in live :: OwnIsIn(path, phase, log, start[i])
    ensures phase == 4 ==> forall i | i in live :: svcs[i].Live() ==> svcs[i].recreated
  {
    var owns := Owns(path, phase, start, svcs, parts);
    forall d | d in log && Phase(d) == phase ensures ForOwn(path, start, svcs, Of(live), d) {
      assert IsOwned(d, |parts|, owns);
      var q: nat :| q < |parts| && owns(d, q);
      OwnsPart(path, phase, d, start, svcs, live, parts, q);
    }
    forall i | i in live ensures OwnIsIn(path, phase, log, start[i]) && (phase == 4 && svcs[i].Live() ==> svcs[i].recreated) {
      assert InSome(parts, i);
      var q :| 0 <= q < |parts| && i in parts[q];
      assert HasOwn(log, phase, q, owns);
      var d :| d in log && Phase(d) == phase && owns(d, q);
      assert start[i].row.service in NamesAt(start, parts[q]);
    }
  }

  lemma OwnsPart(path: string, phase: nat, d: Event, start: seq<Svc>, svcs: seq<Svc>, live: seq<nat>, parts: seq<seq<nat>>, q: nat)
    requires q < |parts| && Met(path, phase, d, start, svcs, parts[q]) && Parts(|start|, live, parts) && ByKey(path, phase, start, parts)
    requires DistinctLive(start) && (forall i | i in live :: i < |start| && start[i].Live()) && phase < 5
    ensures ForOwn(path, start, svcs, Of(live), d)
  {
    var first := parts[q][0];
    assert first in parts[q] && start[first].row.service in NamesAt(start, parts[q]);
    NamesAreLive(start, parts[q]);
    forall j | j in live
      ensures start[j].row.service in TouchedBy(d) <==> j in parts[q]
      ensures KeyOf(path, phase, start[j]) == KeyOfEvent(d) <==> j in parts[q]
    {
      assert InSome(parts, j);
      var p :| 0 <= p < |parts| && j in parts[p];
      assert KeysTell(path, phase, start, parts[p], parts[q], p == q);
      if start[j].row.service in TouchedBy(d) {
        var i :| i in parts[q] && start[i].row.service == start[j].row.service;
      }
    }
  }

  /** What is built is each service's own. */
  lemma OwnBuilds(plan: Plan, svcs: seq<Svc>, log: Log, done: set<nat>, idxs: seq<nat>, e: Event)
    requires RunOk(plan, svcs, log, 1, done, {}) && !plan.noBuild && idxs != [] && e.Built?
    requires forall i | i in idxs :: i < |svcs| && svcs[i].Live() && svcs[i].row.service in plan.builds && BuildKey(svcs[i]) == e.what
    requires e.services == NamesOf(NamesAt(svcs, idxs)) && idxs[0] < |svcs| && e.out == svcs[idxs[0]].row.service
    ensures OwnBuild(plan, e)
  {
    NamesAreLive(svcs, idxs);
    assert idxs[0] in idxs && svcs[idxs[0]].row.service in NamesAt(svcs, idxs);
    forall s | s in e.services ensures s in plan.builds && plan.builds[s] == e.what {
      var i :| i in idxs && svcs[i].row.service == s;
      assert SvcOk(plan, svcs[i], log, if i in done then 1 else 0, {});
    }
  }

  lemma NoneBuilt(plan: Plan, log: Log)
    requires Ordered(plan, log) && plan.noBuild
    ensures forall d | d in log :: !d.Built?
  {
    forall d | d in log ensures !d.Built? {
      var i :| 0 <= i < |log| && log[i] == d;
      OrderedAt(plan, log, i);
    }
  }

  // ---------------------------------------------------------------- requests

  /** The service is in a request, with exactly its own breakpoints and mode. */
  ghost predicate LaunchedWith(log: Log, s: Svc, settable: Spec -> bool, args: seq<Spec>, mode: Mode) {
    exists d | d in log && d.Asked? :: s.row.service in d.services && BatchOf(Batch([], d.bps, d.mode), s.carry, settable, args, mode)
  }

  /** Each part's batch is that of each of its services. */
  ghost predicate OwnBatches(svcs: seq<Svc>, parts: seq<seq<nat>>, batches: seq<Batch>, settable: Spec -> bool, args: seq<Spec>, mode: Mode) {
    |parts| == |batches| && forall p | 0 <= p < |parts| :: AllBatchOf(svcs, parts[p], batches[p], settable, args, mode)
  }

  ghost predicate AllBatchOf(svcs: seq<Svc>, idxs: seq<nat>, b: Batch, settable: Spec -> bool, args: seq<Spec>, mode: Mode) {
    forall i | i in idxs :: i < |svcs| && BatchOf(b, svcs[i].carry, settable, args, mode)
  }

  lemma BatchesAreOwn(svcs: seq<Svc>, live: seq<nat>, carries: seq<Carried>, groups: seq<seq<nat>>, parts: seq<seq<nat>>, batches: seq<Batch>,
                      settable: Spec -> bool, args: seq<Spec>, mode: Mode)
    requires Batched(carries, batches, settable, args, mode) && PartsFrom(live, groups, parts) && |groups| == |batches|
    requires forall b | 0 <= b < |batches| :: groups[b] == batches[b].members
    requires (forall i | i in live :: i < |svcs|) && carries == CarriesOf(svcs, live)
    ensures OwnBatches(svcs, parts, batches, settable, args, mode)
  {
    forall p | 0 <= p < |parts| ensures AllBatchOf(svcs, parts[p], batches[p], settable, args, mode) {
      forall i | i in parts[p] ensures i < |svcs| && BatchOf(batches[p], svcs[i].carry, settable, args, mode) {
        var m := PlaceOf(live, groups[p], i);
        assert m in batches[p].members && live[m] in live && carries[m] == svcs[i].carry;
      }
    }
  }

  ghost predicate IsAsked(log: Log, start: seq<Svc>, idxs: seq<nat>, b: Batch) {
    (forall i | i in idxs :: i < |start|) && Asked(NamesOf(NamesAt(start, idxs)), b.bps, b.mode) in log
  }

  /** The batches before p were asked for. */
  ghost predicate AskedFor(log: Log, start: seq<Svc>, parts: seq<seq<nat>>, batches: seq<Batch>, p: nat) {
    |parts| == |batches| && forall q | 0 <= q < |parts| && q < p :: IsAsked(log, start, parts[q], batches[q])
  }

  lemma AskedMore(log: Log, log': Log, start: seq<Svc>, before: seq<Svc>, parts: seq<seq<nat>>, batches: seq<Batch>, p: nat, e: Event)
    requires AskedFor(log, start, parts, batches, p) && p < |parts| && Adds(log, log', e) && Unchanged(start, before, parts[p])
    requires e == Asked(NamesOf(NamesAt(before, parts[p])), batches[p].bps, batches[p].mode)
    ensures AskedFor(log', start, parts, batches, p + 1)
  {
    SameNames(start, before, parts[p]);
    assert e in log + [e] && forall d | d in log :: d in log + [e];
    forall q | 0 <= q < p + 1 ensures IsAsked(log', start, parts[q], batches[q]) {
      if q < p { assert IsAsked(log, start, parts[q], batches[q]); }
    }
  }

  /** Every live service was asked for, with its own batch. */
  lemma AllAsked(log: Log, was: seq<Svc>, start: seq<Svc>, live: seq<nat>, parts: seq<seq<nat>>, batches: seq<Batch>,
                 settable: Spec -> bool, args: seq<Spec>, mode: Mode)
    requires AskedFor(log, start, parts, batches, |parts|) && Parts(|start|, live, parts) && |was| == |start|
    requires forall i: nat :: i in live <==> i < |was| && was[i].Live()
    requires (forall i | i in live :: start[i].row == was[i].row) && OwnBatches(was, parts, batches, settable, args, mode)
    ensures forall i | i in LiveSet(was) :: LaunchedWith(log, was[i], settable, args, mode)
  {
    forall i | i in LiveSet(was) ensures LaunchedWith(log, was[i], settable, args, mode) {
      assert InSome(parts, i);
      var q :| 0 <= q < |parts| && i in parts[q];
      assert IsAsked(log, start, parts[q], batches[q]) && AllBatchOf(was, parts[q], batches[q], settable, args, mode);
      var d := Asked(NamesOf(NamesAt(start, parts[q])), batches[q].bps, batches[q].mode);
      assert d in log && start[i].row.service in NamesAt(start, parts[q]);
      SameBatch(batches[q], was[i].carry, settable, args, mode);
    }
  }

  lemma SameBatch(b: Batch, c: Carried, settable: Spec -> bool, args: seq<Spec>, mode: Mode)
    requires BatchOf(b, c, settable, args, mode)
    ensures BatchOf(Batch([], b.bps, b.mode), c, settable, args, mode)
  {}

  /** The service is in a request with exactly its own breakpoints and mode: those
      the command line asks for, and what its own sessions told. */
  ghost predicate OwnRequest(log: Log, s: Svc, req: Request) {
    LaunchedWith(log, s, req.settable, req.args, req.mode) && CarryOk(Tolds(log), s.row.service, s.carry)
  }

  lemma AllOwn(plan: Plan, start: seq<Svc>, svcs: seq<Svc>, log: Log, done: set<nat>, req: Request)
    requires RunOk(plan, svcs, log, 5, done, {}) && PlanCarries(plan) && Weaker(start, svcs)
    requires forall i | 0 <= i < |start| && start[i].Live() :: start[i].row.service in plan.carry.carries && CarryFits(plan, start[i])
    requires forall i | i in LiveSet(start) :: LaunchedWith(log, start[i], req.settable, req.args, req.mode)
    ensures forall i | 0 <= i < |svcs| && svcs[i].Live() :: OwnRequest(log, svcs[i], req)
  {
    forall i | 0 <= i < |svcs| && svcs[i].Live() ensures OwnRequest(log, svcs[i], req) {
      assert SvcOk(plan, svcs[i], log, if i in done then 5 else 4, {}) && i in LiveSet(start);
      var n := svcs[i].row.service;
      assert CarryOk(plan.carry.told, n, plan.carry.carries[n]);
      OwnOne(plan.carry.told, n, plan.carry.carries[n], svcs[i].carry);
      SameRequest(log, start[i], svcs[i], req);
    }
  }

  lemma OwnOne(told: Log, s: string, a: Carried, b: Carried)
    requires CarryOk(told, s, a) && SameCarry(a, b)
    ensures CarryOk(told, s, b)
  {}

  lemma SameRequest(log: Log, a: Svc, b: Svc, req: Request)
    requires LaunchedWith(log, a, req.settable, req.args, req.mode) && b.row == a.row && SameCarry(a.carry, b.carry)
    ensures LaunchedWith(log, b, req.settable, req.args, req.mode)
  {
    var d :| d in log && d.Asked? && a.row.service in d.services && BatchOf(Batch([], d.bps, d.mode), a.carry, req.settable, req.args, req.mode);
    assert BatchOf(Batch([], d.bps, d.mode), b.carry, req.settable, req.args, req.mode);
  }

  // ----------------------------------------------------------------- refresh

  /** A container that idles in fast mode with this project's override, as it
      was last read. */
  predicate Idles(path: string, c: Option<Container>, fast: Option<Labels>) {
    c.Some? && c.value.fast == fast && fast.Some? && fast.value.version == FAST_VERSION && fast.value.override == path
  }

  /** The service's only container in fast mode, and it runs idle. */
  ghost predicate Fit(path: string, fast: seq<Listed>, service: string, info: Info) {
    OneListed(fast, service, info.id) && info.running && Idles(path, Some(info.c), info.c.fast)
  }

  /** One inspection, and what it found is fit. */
  ghost predicate FitSeen(path: string, fast: seq<Listed>, service: string, before: Looks, now: Looks) {
    |now| == |before| + 1 && before <= now && now[|before|].Inspected? && Fit(path, fast, service, now[|before|].info)
  }

  lemma FoundFit(path: string, fast: seq<Listed>, service: string, ok: bool, info: Info, before: Looks, now: Looks)
    requires ok ==> now == before + [Inspected(info)] && OneListed(fast, service, info.id)
    requires !ok ==> now == before || exists s :: now == before + [NotInspected(s)]
    ensures FitSeen(path, fast, service, before, now) <==> ok && info.running && Idles(path, Some(info.c), info.c.fast)
  {}

  ghost predicate OneListed(fast: seq<Listed>, service: string, id: string) {
    exists k | 0 <= k < |fast| && fast[k] == Listed(id, service) :: forall m | 0 <= m < |fast| && m != k :: fast[m].service != service
  }

  function IdsOf(fast: seq<Listed>, service: string): seq<string> {
    if fast == [] then []
    else
      var c := fast[|fast| - 1];
      IdsOf(fast[..|fast| - 1], service) + if c.service == service then [c.id] else []
  }

  lemma {:induction false} NoId(fast: seq<Listed>, service: string)
    ensures IdsOf(fast, service) == [] <==> forall m | 0 <= m < |fast| :: fast[m].service != service
    ensures forall id | id in IdsOf(fast, service) :: Listed(id, service) in fast
  {
    if fast != [] { NoId(fast[..|fast| - 1], service); }
  }

  lemma {:induction false} OneId(fast: seq<Listed>, service: string)
    ensures forall id :: IdsOf(fast, service) == [id] <==> OneListed(fast, service, id)
    ensures |IdsOf(fast, service)| == 1 ==> Listed(IdsOf(fast, service)[0], service) in fast
  {
    NoId(fast, service);
    if fast != [] {
      OneId(fast[..|fast| - 1], service);
      NoId(fast[..|fast| - 1], service);
      forall id ensures IdsOf(fast, service) == [id] <==> OneListed(fast, service, id) {
        LastListed(fast[..|fast| - 1], fast[|fast| - 1], service, id);
        assert fast == fast[..|fast| - 1] + [fast[|fast| - 1]];
      }
    }
  }

  ghost predicate NoneListed(fast: seq<Listed>, service: string) { forall m | 0 <= m < |fast| :: fast[m].service != service }

  lemma LastListed(fast: seq<Listed>, c: Listed, service: string, id: string)
    ensures OneListed(fast + [c], service, id) <==>
              if c.service == service then c.id == id && NoneListed(fast, service) else OneListed(fast, service, id)
  {
    var more := fast + [c];
    if OneListed(more, service, id) {
      var k :| 0 <= k < |more| && more[k] == Listed(id, service) && forall m | 0 <= m < |more| && m != k :: more[m].service != service;
      if k < |fast| {
        assert more[|fast|] == c;
        assert fast[k] == more[k];
        forall m | 0 <= m < |fast| && m != k ensures fast[m].service != service { assert more[m] == fast[m]; }
      } else {
        forall m | 0 <= m < |fast| ensures fast[m].service != service { assert more[m] == fast[m]; }
      }
    }
    if c.service == service && c.id == id && NoneListed(fast, service) { assert more[|fast|] == Listed(id, service); }
    if c.service != service && OneListed(fast, service, id) {
      var k :| 0 <= k < |fast| && fast[k] == Listed(id, service) && forall m | 0 <= m < |fast| && m != k :: fast[m].service != service;
      assert more[k] == Listed(id, service);
    }
  }

  // ------------------------------------------------------------ what can launch

  /** The container is in fast mode, and its labels are what the override
      records. */
  predicate InFast(path: string, rec: Records, c: Container) { c.fast.Some? && Corroborates(path, rec, c.service, c.fast.value) }

  /** A container that can be launched in: in fast mode of this eyedbg's, with a
      build when none is to be made; or, if one is, as built, running its own
      app without arguments. */
  predicate Launchable(path: string, req: Request, cs: Containers, rec: Records, dirs: set<string>, row: Row) {
    && row.id in cs && cs[row.id].service == row.service && cs[row.id].project == req.project && cs[row.id].composeDir != ""
    && if InFast(path, rec, cs[row.id]) then cs[row.id].fast.value.version == FAST_VERSION && (req.noBuild ==> row.service in dirs)
       else !req.noBuild && cs[row.id].dll != "" && !cs[row.id].hasCmd && cs[row.id].workDir.Some?
  }

  /** Each service has one container of the same directory that can be launched
      in; and if one is to enter fast mode, the override has room for all. */
  ghost predicate AllLaunchable(path: string, canonical: string -> string, req: Request, cs: Containers, file: OverrideFile,
                                dirs: set<string>, rows: seq<Row>) {
    && (forall i | 0 <= i < |rows| :: Launchable(path, req, cs, Reads(file), dirs, rows[i]))
    && (forall i, j | 0 <= i < |rows| && 0 <= j < |rows| && i != j :: rows[i].service != rows[j].service)
    && (forall i, j | 0 <= i < |rows| && 0 <= j < |rows| :: DirOf(canonical, cs, rows[i].id) == DirOf(canonical, cs, rows[j].id))
    && (HasRoom(rows, file) || forall i | 0 <= i < |rows| :: rows[i].id in cs && InFast(path, Reads(file), cs[rows[i].id]))
  }

  function DirOf(canonical: string -> string, cs: Containers, id: string): Option<string> {
    if id in cs then Some(canonical(cs[id].composeDir)) else None
  }

  /** The override can record all services that it records, and these. */
  ghost predicate HasRoom(rows: seq<Row>, file: OverrideFile) {
    |(set r | r in rows :: r.service) + Reads(file).Keys| <= MAX_OVERRIDE_SERVICES
  }

  function Rows(svcs: seq<Svc>): seq<Row> { seq(|svcs|, i requires 0 <= i < |svcs| => svcs[i].row) }

  lemma SameRowsAre(a: seq<Svc>, b: seq<Svc>)
    requires SameRows(a, b)
    ensures Rows(a) == Rows(b)
  {}

  /** What enters fast mode is what is not in it. */
  ghost predicate Sorted(path: string, cs: Containers, file: OverrideFile, svcs: seq<Svc>) {
    forall i | 0 <= i < |svcs| :: SortedOne(path, cs, file, svcs[i])
  }

  predicate SortedOne(path: string, cs: Containers, file: OverrideFile, s: Svc) {
    s.row.id in cs && (s.entry <==> !InFast(path, Reads(file), cs[s.row.id]))
  }

  /** The first n are classified, and all are still in the run. */
  ghost predicate SortedSoFar(path: string, cs: Containers, file: OverrideFile, svcs: seq<Svc>, n: nat) {
    n <= |svcs| && (forall i | 0 <= i < |svcs| :: svcs[i].Live()) && forall i | 0 <= i < n :: SortedOne(path, cs, file, svcs[i])
  }

  /** Taking none out keeps what is known of the services. */
  lemma SortedStays(path: string, cs: Containers, file: OverrideFile, a: seq<Svc>, b: seq<Svc>)
    requires Sorted(path, cs, file, a) && Weaker(a, b)
    ensures Rows(a) == Rows(b) && Sorted(path, cs, file, b)
  {
    forall i | 0 <= i < |b| ensures SortedOne(path, cs, file, b[i]) { assert SortedOne(path, cs, file, a[i]); }
  }

  /** Without a build nothing enters fast mode, and the last builds are there. */
  lemma SortedHaveBuilds(path: string, canonical: string -> string, req: Request, cs: Containers, file: OverrideFile, dirs: set<string>,
                         svcs: seq<Svc>)
    requires AllLaunchable(path, canonical, req, cs, file, dirs, Rows(svcs)) && Sorted(path, cs, file, svcs) && req.noBuild
    ensures forall i | 0 <= i < |svcs| :: !svcs[i].entry && svcs[i].row.service in dirs
  {
    forall i | 0 <= i < |svcs| ensures !svcs[i].entry && svcs[i].row.service in dirs {
      assert Launchable(path, req, cs, Reads(file), dirs, Rows(svcs)[i]) && SortedOne(path, cs, file, svcs[i]);
    }
  }

  lemma SortedHaveRoom(path: string, canonical: string -> string, req: Request, cs: Containers, file: OverrideFile, dirs: set<string>,
                       a: seq<Svc>, b: seq<Svc>)
    requires AllLaunchable(path, canonical, req, cs, file, dirs, Rows(a)) && Sorted(path, cs, file, a) && Weaker(a, b)
    ensures (exists i | 0 <= i < |b| :: b[i].entry) ==> HasRoom(Rows(b), file)
  {
    SortedStays(path, cs, file, a, b);
    forall i | 0 <= i < |b| && b[i].entry ensures HasRoom(Rows(b), file) { assert SortedOne(path, cs, file, b[i]) && Rows(b)[i] == b[i].row; }
  }

  /** A service can be launched in, and has its name to itself. */
  lemma LaunchableAt(path: string, canonical: string -> string, req: Request, cs: Containers, file: OverrideFile, dirs: set<string>,
                     a: seq<Svc>, b: seq<Svc>, i: nat)
    requires AllLaunchable(path, canonical, req, cs, file, dirs, Rows(a)) && SameRows(a, b) && i < |b|
    ensures Launchable(path, req, cs, Reads(file), dirs, b[i].row)
    ensures forall j | 0 <= j < |b| && j != i :: b[j].row.service != b[i].row.service
    ensures forall j | 0 <= j < |b| :: DirOf(canonical, cs, b[j].row.id) == Some(canonical(cs[b[i].row.id].composeDir))
  {
    assert Rows(a)[i] == b[i].row;
    forall j | 0 <= j < |b| && j != i ensures b[j].row.service != b[i].row.service { assert Rows(a)[j] == b[j].row; }
    forall j | 0 <= j < |b| ensures DirOf(canonical, cs, b[j].row.id) == Some(canonical(cs[b[i].row.id].composeDir)) {
      assert DirOf(canonical, cs, Rows(a)[j].id) == DirOf(canonical, cs, Rows(a)[i].id);
    }
  }

  /** Only a live service that is built enters fast mode. */
  lemma MayEnter(plan: Plan, svcs: seq<Svc>, log: Log)
    requires RunOk(plan, svcs, log, 4, {}, {})
    ensures plan.hope ==> forall i | 0 <= i < |svcs| :: svcs[i].Live() && (svcs[i].entry ==> !plan.noBuild)
  {
    forall i | 0 <= i < |svcs| && plan.hope ensures svcs[i].Live() && (svcs[i].entry ==> !plan.noBuild) {
      assert SvcOk(plan, svcs[i], log, 3, {});
    }
  }

  // --------------------------------------------------------------------- run

  class LaunchRun {
    const r: Stack
    const req: Request
    var svcs: seq<Svc>
    var workDir: Option<string>

    constructor (r: Stack, req: Request, rows: seq<Row>)
      ensures this.r == r && this.req == req && workDir == None
      ensures svcs == seq(|rows|, i requires 0 <= i < |rows| => Picked(rows[i]))
    {
      this.r, this.req, workDir := r, req, None;
      svcs := seq(|rows|, i requires 0 <= i < |rows| => Picked(rows[i]));
    }

    /** What every stage keeps of the stack. */
    ghost predicate Holds() reads this`svcs, r`recorded, r`recordedErr, r.w`containers, r.w`made, r.w`file, r.w`dirs, r.w`lost, r.w`looks {
      r.Valid() && r.Honest() && Fits(r.w.containers, r.w.made, svcs)
    }

    /** All services can be launched. */
    ghost predicate CanAll() reads this`svcs, r.w`containers, r.w`file, r.w`dirs {
      AllLaunchable(r.w.path, r.w.canonical, req, r.w.containers, r.w.file, r.w.dirs, Rows(svcs))
    }

    /** All can be, and were found so. */
    ghost predicate CanStill() reads this`svcs, r.w`containers, r.w`file, r.w`dirs {
      CanAll() && Sorted(r.w.path, r.w.containers, r.w.file, svcs)
    }

    // ------------------------------------------------------------ taking out

    /** Takes a service out of the run with an error. */
    method Fail(i: nat, err: Error)
      requires i < |svcs|
      modifies this`svcs, r.w`log
      ensures svcs == old(svcs)[i := old(svcs)[i].(error := Some(err))]
      ensures r.w.log == old(r.w.log) + [Out(old(svcs)[i].row.service)]
    {
      svcs := svcs[i := svcs[i].(error := Some(err))];
      r.w.log := r.w.log + [Out(svcs[i].row.service)];
    }

    /** Takes out a service that can't be launched. */
    method Refuse(i: nat, err: Error)
      requires i < |svcs|
      modifies this`svcs, r.w`log
      ensures svcs == old(svcs)[i := Refused(old(svcs)[i], req.implicit, err)]
      ensures r.w.log == old(r.w.log) + [Out(old(svcs)[i].row.service)]
    {
      if req.implicit && err.InvalidRequest? {
        svcs := svcs[i := svcs[i].(skipped := true)];
        r.w.log := r.w.log + [Out(svcs[i].row.service)];
      } else {
        Fail(i, err);
      }
    }

    /** Fails every service still in the run that didn't launch. */
    method FailLive(err: Error, ghost plan: Plan, ghost phase: nat, ghost done: set<nat>)
      requires phase > 0 && RunOk(plan, svcs, r.w.log, phase, done, {})
      requires !plan.hope
      modifies this`svcs, r.w`log
      ensures RunOk(plan, svcs, r.w.log, phase, done, {}) && Weaker(old(svcs), svcs) && Outs(old(r.w.log), r.w.log)
      ensures forall s | s in svcs :: s.Live() ==> s.session.Some?
    {
      for i := 0 to |svcs|
        invariant RunOk(plan, svcs, r.w.log, phase, done, {}) && Weaker(old(svcs), svcs) && Outs(old(r.w.log), r.w.log)
        invariant forall j | 0 <= j < i :: svcs[j].Live() ==> svcs[j].session.Some?
      {
        if svcs[i].Live() && svcs[i].session.None? {
          var s := svcs[i].(error := Some(err));
          TakenOut(plan, svcs, r.w.log, phase, done, {}, i, s);
          Fail(i, err);
        }
      }
    }

    // -------------------------------------------------------------- classify

    ghost predicate CanBe(row: Row) reads r.w`containers, r.w`file, r.w`dirs {
      Launchable(r.w.path, req, r.w.containers, Reads(r.w.file), r.w.dirs, row)
    }

    /** Decides whether the container can be launched in and how. */
    method CheckKind(s: Svc, info: Info) returns (t: Svc, err: Option<Error>)
      requires r.Valid() && r.Honest() && info.id in r.w.containers && info.c == r.w.containers[info.id] && info.c.service == s.row.service
      requires !s.entry
      modifies r`recorded, r`recordedErr, r.w`looks
      ensures r.Valid() && r.Honest() && old(r.w.looks) <= r.w.looks
      ensures SameSeat(s, t)
      ensures err.None? ==> Fresh(r.w.containers, r.w.made, t)
      ensures r.w.smooth && info.running && !info.paused && !info.restarting && CanBe(Row(info.id, s.row.service)) ==>
                err.None? && (t.entry <==> !InFast(r.w.path, Reads(r.w.file), info.c))
    {
      var corroborated := r.w.Works();
      t, err := s, Unfit(info, req.project, corroborated);
      if err.Some? { return; }
      var c, believed := info.c, false;
      if c.fast.Some? { believed := r.RecordedFast(c.service, c.fast.value); }
      if believed {
        t, err := InFastMode(s, c.fast.value);
      } else {
        t, err := AsBuilt(s, c);
        if err.None? { RunsIsFresh(r.w.path, r.w.containers, r.w.made, r.w.file, r.w.dirs, r.w.lost, info.id); }
      }
    }

    /** A container in fast mode with this project's override: its labels say
        what runs. */
    method InFastMode(s: Svc, fl: Labels) returns (t: Svc, err: Option<Error>)
      requires !s.entry
      ensures SameSeat(s, t) && !t.entry && (err.None? ==> t.dll == fl.dll && t.appDir == fl.workDir)
      ensures err.None? <==> fl.version == FAST_VERSION
    {
      t, err := s.(fast := Some(fl)), Some(InvalidRequest);
      if fl.version == FAST_VERSION { t, err := t.(dll := fl.dll, appDir := fl.workDir), None; }
    }

    /** A container nobody changed: its entrypoint must be exactly 'dotnet X.dll',
        with no arguments, in a directory the build can be mounted at. */
    method AsBuilt(s: Svc, c: Container) returns (t: Svc, err: Option<Error>)
      requires !s.entry
      ensures SameSeat(s, t) && (err.None? <==> c.dll != "" && !c.hasCmd && c.workDir.Some?)
      ensures t.entry <==> err.None?
      ensures err.None? ==> t.dll == c.dll && t.appDir == c.workDir.value
    {
      t, err := s.(fast := None), Some(InvalidRequest);
      if c.dll != "" && !c.hasCmd && c.workDir.Some? {
        t, err := t.(entry := true, dll := c.dll, appDir := c.workDir.value), None;
      }
    }

    method ClassifyOne(s: Svc) returns (t: Svc, err: Option<Error>)
      requires r.Valid() && r.Honest() && FitsOne(r.w.containers, r.w.made, s) && !s.entry
      modifies r`recorded, r`recordedErr, r.w`looks
      ensures r.Valid() && r.Honest() && old(r.w.looks) <= r.w.looks
      ensures SameSeat(s, t)
      ensures err.None? ==> Fresh(r.w.containers, r.w.made, t)
      ensures r.w.smooth && CanBe(s.row) ==> err.None? && (t.entry <==> !InFast(r.w.path, Reads(r.w.file), r.w.containers[s.row.id]))
    {
      var ok, info := r.w.InspectFast(s.row.id);
      var e: Error := *;
      if !ok { return s, Some(e); }
      t, err := CheckKind(s.(c := Some(info.c)), info);
      if err.Some? || !t.entry { return; }
      err := CheckEntering(s.row.id);
    }

    /** What an entering container needs: valid compose files, an idle command,
        and netcoredbg for its platform. */
    method CheckEntering(id: string) returns (err: Option<Error>)
      ensures r.w.smooth ==> err.None?
    {
      var e: Error := *;
      var valid := r.w.Works();
      if !valid { return Some(InvalidRequest); }
      var ok := r.w.ProbeIdle(id);
      if ok { ok := r.w.EnsureAdapter(id); }
      err := if ok then None else Some(e);
    }

    method ClassifyAt(i: nat, ghost hope: bool)
      requires Holds() && i < |svcs| && Classifying(svcs, r.w.log, i) && !svcs[i].entry
      requires hope ==> r.w.smooth && CanBe(svcs[i].row) && forall j | 0 <= j < |svcs| && j != i :: svcs[j].row.service != svcs[i].row.service
      modifies this`svcs, r`recorded, r`recordedErr, r.w`looks, r.w`log
      ensures Holds() && Classifying(svcs, r.w.log, i + 1) && SameRows(svcs, old(svcs)) && old(r.w.looks) <= r.w.looks
      ensures forall j | 0 <= j < |svcs| && j != i :: svcs[j] == old(svcs)[j]
      ensures hope ==> svcs[i].Live() && SortedOne(r.w.path, r.w.containers, r.w.file, svcs[i])
    {
      var s, err := svcs[i], Some(InvalidRequest);
      if !exists j | 0 <= j < |svcs| :: j != i && svcs[j].row.service == svcs[i].row.service {
        s, err := ClassifyOne(s);
      }
      ghost var end := if err.Some? then Refused(s, req.implicit, err.value) else s;
      ClassifiedOne(r.w.containers, r.w.made, svcs, r.w.log, i, s, end);
      svcs := svcs[i := s];
      if err.Some? { Refuse(i, err.value); }
    }

    /** Inspects every selected container and decides what each is. */
    method Classify(ghost hope: bool) returns (ghost plan: Plan)
      requires Holds() && r.w.log == [] && forall i | 0 <= i < |svcs| :: svcs[i] == Picked(svcs[i].row)
      requires hope ==> r.w.smooth && CanAll()
      modifies this`svcs, r`recorded, r`recordedErr, r.w`looks, r.w`log
      ensures Holds() && RunOk(plan, svcs, r.w.log, 1, {}, {}) && SameRows(svcs, old(svcs)) && old(r.w.looks) <= r.w.looks
      ensures plan == Plan(hope, req.noBuild, plan.entering, req.project, map[], NotYet) && forall d | d in r.w.log :: d.Out?
      ensures hope ==> CanStill()
    {
      for i := 0 to |svcs|
        invariant hope ==> SortedSoFar(r.w.path, r.w.containers, r.w.file, svcs, i)
        invariant Holds() && Classifying(svcs, r.w.log, i) && SameRows(svcs, old(svcs)) && old(r.w.looks) <= r.w.looks
        invariant forall j | i <= j < |svcs| :: svcs[j] == old(svcs)[j]
      {
        if hope { LaunchableAt(r.w.path, r.w.canonical, req, r.w.containers, r.w.file, r.w.dirs, old(svcs), svcs, i); }
        ClassifyAt(i, hope);
      }
      SameRowsAre(old(svcs), svcs);
      plan := Plan(hope, req.noBuild, Entering(svcs), req.project, map[], NotYet);
      ClassifiedStarts(plan, svcs, r.w.log);
      CheckNames(plan);
      SameRowsAre(old(svcs), svcs);
    }

    /** Names that differ only by case fail every service. */
    method CheckNames(ghost plan: Plan)
      requires RunOk(plan, svcs, r.w.log, 1, {}, {}) && Fits(r.w.containers, r.w.made, svcs) && (plan.hope ==> r.w.smooth)
      modifies this`svcs, r.w`log
      ensures RunOk(plan, svcs, r.w.log, 1, {}, {}) && Fits(r.w.containers, r.w.made, svcs) && Weaker(old(svcs), svcs)
      ensures Outs(old(r.w.log), r.w.log) && (plan.hope ==> svcs == old(svcs))
    {
      var namesOk := r.w.Works();
      if !namesOk {
        FailLive(InvalidRequest, plan, 1, {});
        FitsWeaker(r.w.containers, r.w.made, old(svcs), svcs);
      }
    }

    // ---------------------------------------------------------------- stages

    /** Takes a live service out, in the middle of a stage. */
    method TakeOut(i: nat, err: Error, refuse: bool, ghost plan: Plan, ghost phase: nat, ghost done: set<nat>, ghost bad: set<string>)
      requires phase > 0 && RunOk(plan, svcs, r.w.log, phase, done, bad)
      requires i < |svcs| && svcs[i].Live() && svcs[i].session.None?
      requires !plan.hope
      modifies this`svcs, r.w`log
      ensures RunOk(plan, svcs, r.w.log, phase, done, bad) && r.w.log == old(r.w.log) + [Out(old(svcs)[i].row.service)]
      ensures Weaker(old(svcs), svcs) && svcs == old(svcs)[i := svcs[i]] && !svcs[i].Live() && svcs[i].carry == old(svcs)[i].carry
    {
      ghost var end := if refuse then Refused(svcs[i], req.implicit, err) else svcs[i].(error := Some(err));
      TakenOut(plan, svcs, r.w.log, phase, done, bad, i, end);
      if refuse { Refuse(i, err); } else { Fail(i, err); }
    }

    /** Changes what is known of a service. */
    method Set(i: nat, s: Svc, ghost plan: Plan, ghost phase: nat, ghost done: set<nat>)
      requires phase > 0 && RunOk(plan, svcs, r.w.log, phase, done, {})
      requires i < |svcs| && svcs[i].Live() && s.row == svcs[i].row && s.entry == svcs[i].entry && SameCarry(svcs[i].carry, s.carry)
      requires (s.out == svcs[i].out || Staged(r.w.log, s)) && (plan.hope ==> s.projectRel == svcs[i].projectRel || s.projectRel != "")
      requires s.Live() && s.session == svcs[i].session && (BuildKey(s) == BuildKey(svcs[i]) || plan.builds == map[])
      modifies this`svcs
      ensures RunOk(plan, svcs, r.w.log, phase, done, {}) && svcs == old(svcs)[i := s] && Weaker(old(svcs), svcs)
    {
      Changed(plan, svcs, r.w.log, phase, done, i, s);
      svcs := svcs[i := s];
    }

    /** The services still in the run, in order. */
    method LiveOnes() returns (live: seq<nat>)
      ensures Increasing(live) && forall i: nat :: i in live <==> i < |svcs| && svcs[i].Live()
    {
      live := [];
      for i := 0 to |svcs|
        invariant Increasing(live) && forall j: nat :: j in live <==> j < i && svcs[j].Live()
      {
        if svcs[i].Live() {
          forall k | 0 <= k < |live| ensures live[k] < i { assert live[k] in live; }
          live := live + [i];
        }
      }
    }

    method SomeLeft() returns (some: bool)
      ensures some <==> exists i | 0 <= i < |svcs| :: svcs[i].Live()
    {
      var live := LiveOnes();
      some := live != [];
      if some { assert live[0] in live; } else { NoneLeft(svcs, live); }
    }

    /** Fixes the compose directory every service shares and refuses what
        disagrees with it; an error ends the run. */
    method Settle(ghost plan: Plan) returns (err: Option<Error>)
      requires RunOk(plan, svcs, r.w.log, 1, {}, {})
      requires plan.hope ==> r.w.smooth && workDir.None? && CanAll()
      modifies this`svcs, this`workDir, r.w`log
      ensures RunOk(plan, svcs, r.w.log, 1, {}, {}) && Weaker(old(svcs), svcs) && Outs(old(r.w.log), r.w.log)
      ensures plan.hope ==> err.None?
    {
      for i := 0 to |svcs|
        invariant RunOk(plan, svcs, r.w.log, 1, {}, {}) && Weaker(old(svcs), svcs) && Outs(old(r.w.log), r.w.log)
        invariant plan.hope && workDir.Some? ==>
                    forall j | 0 <= j < |svcs| :: workDir == DirOf(r.w.canonical, r.w.containers, svcs[j].row.id)
      {
        if !svcs[i].Live() { continue; }
        var dir := r.w.FindDir(svcs[i].row.id);
        if plan.hope { LaunchableAt(r.w.path, r.w.canonical, req, r.w.containers, r.w.file, r.w.dirs, old(svcs), svcs, i); }
        if dir.Some? && workDir.None? { workDir := dir; }
        if dir.None? || dir != workDir { TakeOut(i, InvalidRequest, true, plan, 1, {}, {}); }
      }
      var e: Error := *;
      var ok := r.w.Works();
      err := if ok then None else Some(e);
    }

    /** Finds each service's project; not needed without a build. */
    method ResolveProjects(ghost plan: Plan)
      requires RunOk(plan, svcs, r.w.log, 1, {}, {}) && plan.builds == map[]
      requires plan.hope ==> r.w.smooth
      modifies this`svcs, r.w`log
      ensures RunOk(plan, svcs, r.w.log, 1, {}, {}) && Weaker(old(svcs), svcs) && Outs(old(r.w.log), r.w.log)
      ensures plan.hope && !req.noBuild ==> forall i | 0 <= i < |svcs| :: svcs[i].projectRel != ""
    {
      if req.noBuild { return; }
      for i := 0 to |svcs|
        invariant RunOk(plan, svcs, r.w.log, 1, {}, {}) && Weaker(old(svcs), svcs) && Outs(old(r.w.log), r.w.log)
        invariant plan.hope ==> forall j | 0 <= j < i :: svcs[j].projectRel != ""
      {
        assert SvcOk(plan, svcs[i], r.w.log, 0, {});
        if !svcs[i].Live() { continue; }
        var found := r.w.FindProject(svcs[i].row.service);
        if found.Some? {
          Set(i, svcs[i].(project := found.value.0, projectRel := found.value.1), plan, 1, {});
        } else {
          var err: Error := *;
          TakeOut(i, err, true, plan, 1, {}, {});
        }
      }
    }

    /** Fails these services. */
    method FailGroup(idxs: seq<nat>, err: Error, ghost plan: Plan, ghost phase: nat, ghost done: set<nat>, ghost bad: set<string>)
      requires phase > 0 && RunOk(plan, svcs, r.w.log, phase, done, bad)
      requires Increasing(idxs) && forall i | i in idxs :: i < |svcs| && svcs[i].Live() && svcs[i].session.None?
      requires !plan.hope
      modifies this`svcs, r.w`log
      ensures RunOk(plan, svcs, r.w.log, phase, done, bad) && Weaker(old(svcs), svcs) && Outs(old(r.w.log), r.w.log)
      ensures forall i | i in idxs :: !svcs[i].Live()
      ensures forall i | 0 <= i < |svcs| && i !in idxs :: svcs[i] == old(svcs)[i]
    {
      for k := 0 to |idxs|
        invariant RunOk(plan, svcs, r.w.log, phase, done, bad) && Weaker(old(svcs), svcs) && Outs(old(r.w.log), r.w.log)
        invariant forall m | 0 <= m < k :: idxs[m] < |svcs| && !svcs[idxs[m]].Live()
        invariant forall i | 0 <= i < |svcs| && i !in idxs[..k] :: svcs[i] == old(svcs)[i]
      {
        assert idxs[k] in idxs && idxs[k] !in idxs[..k];
        assert idxs[..k + 1] == idxs[..k] + [idxs[k]];
        TakeOut(idxs[k], err, false, plan, phase, done, bad);
      }
      assert idxs[..|idxs|] == idxs;
    }

    /** Fails what --no-build has no build for. */
    method CheckNoBuild(ghost plan: Plan)
      requires RunOk(plan, svcs, r.w.log, 1, {}, {}) && plan.noBuild
      requires plan.hope ==> r.w.smooth && forall i | 0 <= i < |svcs| :: !svcs[i].entry && svcs[i].row.service in r.w.dirs
      modifies this`svcs, r.w`log
      ensures RunOk(plan, svcs, r.w.log, 2, {}, {}) && Weaker(old(svcs), svcs)
      ensures forall d | d in r.w.log :: Phase(d) <= 1
    {
      ghost var done: set<nat> := {};
      for i := 0 to |svcs|
        invariant RunOk(plan, svcs, r.w.log, 1, done, {}) && Weaker(old(svcs), svcs)
        invariant forall j | 0 <= j < i && svcs[j].Live() :: j in done
      {
        if !svcs[i].Live() { continue; }
        if svcs[i].entry {
          TakeOut(i, InvalidRequest, true, plan, 1, done, {});
          continue;
        }
        var s := svcs[i].row.service;
        assert IsLive(svcs, s);
        Acted(plan, svcs, r.w.log, 1, done, HasBuild(s));
        var there := r.w.ReadBuild(s);
        if !there {
          TakeOut(i, InvalidRequest, true, plan, 1, done, {});
          continue;
        }
        assert HasBuild(s) in r.w.log;
        DoneOne(plan, svcs, r.w.log, 1, done, i);
        done := done + {i};
      }
      NextPhase(plan, svcs, r.w.log, 1, done);
    }

    /** Publishes each distinct project once; a failed build fails its services
        and changes nothing else. */
    method Build(ghost plan: Plan)
      requires RunOk(plan, svcs, r.w.log, 1, {}, {}) && plan.noBuild == req.noBuild && forall d | d in r.w.log :: d.Out?
      requires forall i | 0 <= i < |svcs| && svcs[i].Live() :: svcs[i].row.service in plan.builds
      requires plan.hope ==> r.w.smooth
      requires plan.hope && !req.noBuild ==> forall i | 0 <= i < |svcs| :: svcs[i].projectRel != ""
      requires plan.hope && req.noBuild ==> forall i | 0 <= i < |svcs| :: !svcs[i].entry && svcs[i].row.service in r.w.dirs
      modifies this`svcs, r`keepProject, r.w`log
      ensures RunOk(plan, svcs, r.w.log, 2, {}, {}) && Weaker(old(svcs), svcs)
      ensures forall d | d in r.w.log :: Phase(d) <= 1
      ensures forall d | d in r.w.log && d.Built? :: ForOwn(r.w.path, old(svcs), svcs, LiveSet(old(svcs)), d)
      ensures !req.noBuild ==>
        || (forall i | i in LiveSet(old(svcs)) :: OwnIsIn(r.w.path, 1, r.w.log, old(svcs)[i]))
        || (forall i | 0 <= i < |svcs| :: !svcs[i].Live() && forall d | d in r.w.log :: d.Out?)
    {
      if req.noBuild {
        CheckNoBuild(plan);
        NoneBuilt(plan, r.w.log);
        return;
      }
      var host := r.w.Works();
      var stage := r.w.Works();
      var log := r.w.Works();
      if !host || !stage || !log {
        FailLive(OtherError, plan, 1, {});
        assert forall i | 0 <= i < |svcs| :: svcs[i] in svcs && SvcOk(plan, svcs[i], r.w.log, 0, {});
        NextPhase(plan, svcs, r.w.log, 1, {});
        return;
      }
      var live := LiveOnes();
      ghost var start := svcs;
      var keys := BuildKeys(svcs, live);
      ghost var groups;
      var parts;
      parts, groups := PartsBy(|svcs|, live, keys);
      BuildKeysApart(r.w.path, start, live, keys, groups, parts);
      DoingNone(r.w.path, 1, plan, r.w.log, svcs, live, parts, {});
      ghost var done: set<nat> := {};
      for p := 0 to |parts|
        invariant Doing(r.w.path, 1, plan, r.w.log, start, svcs, parts, p, done)
      {
        ghost var before, log := svcs, r.w.log;
        ghost var key := ThisPart(r.w.path, 1, plan, log, start, svcs, live, parts, p, done);
        ghost var e := BuildPart(parts[p], key, plan, done);
        NextPart(r.w.path, 1, plan, log, r.w.log, start, before, svcs, live, parts, p, done, e);
        done := done + Of(parts[p]);
      }
      AllBeen(|svcs|, live, parts, done);
      forall i: nat | i < |svcs| && svcs[i].Live() ensures i in done { assert i in Of(live); }
      NextPhase(plan, svcs, r.w.log, 1, done);
      AllMet(r.w.path, 1, r.w.log, start, svcs, live, parts);
      assert Of(live) == LiveSet(start);
    }

    method BuildPart(idxs: seq<nat>, ghost key: Key, ghost plan: Plan, ghost done: set<nat>) returns (ghost e: Event)
      requires RunOk(plan, svcs, r.w.log, 1, done, {}) && !plan.noBuild && idxs != [] && key.BuildOf?
      requires Increasing(idxs) && forall i | i in idxs :: i < |svcs| && svcs[i].Live() && svcs[i].row.service in plan.builds
      requires forall i | i in idxs :: KeyOf(r.w.path, 1, svcs[i]) == key
      requires FirstFor(r.w.log, 1, key, NamesOf(NamesAt(svcs, idxs)))
      requires plan.hope ==> r.w.smooth
      requires plan.hope ==> forall i | i in idxs :: svcs[i].projectRel != ""
      modifies this`svcs, r`keepProject, r.w`log
      ensures RunOk(plan, svcs, r.w.log, 1, done + Of(idxs), {}) && Weaker(old(svcs), svcs)
      ensures forall i | 0 <= i < |svcs| && i !in idxs :: svcs[i] == old(svcs)[i]
      ensures Phase(e) == 1 && Met(r.w.path, 1, e, old(svcs), svcs, idxs) && Adds(old(r.w.log), r.w.log, e)
    {
      ghost var names := NamesOf(NamesAt(svcs, idxs));
      NamesAreLive(svcs, idxs);
      ghost var log := r.w.log;
      assert idxs[0] in idxs && key == KeyOf(r.w.path, 1, svcs[idxs[0]]);
      var out := svcs[idxs[0]].row.service;
      var ok := r.w.Publish(BuildKey(svcs[idxs[0]]), out, names);
      e := Built(key.what, out, names, ok);
      NowFor(r.w.path, 1, e, svcs, idxs);
      FirstIsOnce(log, 1, key, names, e);
      OwnBuilds(plan, svcs, log, done, idxs, e);
      Acted(plan, svcs, log, 1, done, e);
      if !ok {
        r.keepProject := true;
        FailGroup(idxs, OtherError, plan, 1, done, names);
        GroupIsOut(old(svcs), svcs, idxs, plan, r.w.log, 1, done);
      } else {
        StageGroup(idxs, out, plan, done);
      }
      NowMet(r.w.path, e, ok, old(svcs), svcs, idxs, log, r.w.log);
    }

    /** The build of these services is there to mirror. */
    method StageGroup(idxs: seq<nat>, out: string, ghost plan: Plan, ghost done: set<nat>)
      requires RunOk(plan, svcs, r.w.log, 1, done, {}) && !plan.noBuild
      requires Increasing(idxs) && forall i | i in idxs :: i < |svcs| && svcs[i].Live() && IsStaged(r.w.log, svcs[i].row.service, out)
      requires plan.hope ==> forall i | i in idxs :: svcs[i].projectRel != ""
      modifies this`svcs
      ensures RunOk(plan, svcs, r.w.log, 1, done + Of(idxs), {}) && Weaker(old(svcs), svcs)
      ensures forall i | 0 <= i < |svcs| && i !in idxs :: svcs[i] == old(svcs)[i]
      ensures forall i | i in idxs :: svcs[i].Live()
    {
      assert forall m | 0 <= m < |idxs| :: idxs[m] in idxs;
      for k := 0 to |idxs|
        invariant RunOk(plan, svcs, r.w.log, 1, done, {}) && Weaker(old(svcs), svcs)
        invariant forall m | 0 <= m < |idxs| :: idxs[m] < |svcs| && SameSeat(old(svcs)[idxs[m]], svcs[idxs[m]])
        invariant StagedSoFar(svcs, idxs, out, k)
        invariant forall i | 0 <= i < |svcs| && i !in idxs :: svcs[i] == old(svcs)[i]
      {
        assert idxs[k] in idxs;
        ghost var before := svcs;
        Set(idxs[k], svcs[idxs[k]].(out := Some(out)), plan, 1, done);
        StagedOne(before, svcs, idxs, out, k);
      }
      StagedAll(old(svcs), svcs, r.w.log, idxs, out);
      GroupIsDone(old(svcs), svcs, idxs, plan, r.w.log, 1, done);
    }

    /** Captures what each service's live sessions leave and ends them: the first
        change of the run. */
    method CarryAndStop(list: seq<SessionInfo>, ghost plan: Plan) returns (ghost more: Plan)
      requires RunOk(plan, svcs, r.w.log, 2, {}, {}) && Sessions(list) in r.w.log && plan.project == req.project
      requires plan.carry.NotYet? && forall d | d in r.w.log :: !d.Told?
      requires plan.hope ==> r.w.smooth
      modifies this`svcs, r.w`log
      ensures RunOk(more, svcs, r.w.log, 3, {}, {}) && Weaker(old(svcs), svcs) && forall d | d in r.w.log :: Phase(d) <= 2
      ensures more == plan.(carry := more.carry) && PlanCarries(more)
      ensures forall i | 0 <= i < |svcs| && svcs[i].Live() :: svcs[i].row.service in more.carry.carries
    {
      SessionsBegin(plan, svcs, r.w.log);
      more := plan.(carry := Now);
      ghost var done := StopAll(list, more);
      CarriesKnown(more, svcs, r.w.log, done);
      more := WithCarries(more, svcs, r.w.log);
    }

    method StopAll(list: seq<SessionInfo>, ghost plan: Plan) returns (ghost done: set<nat>)
      requires RunOk(plan, svcs, r.w.log, 2, {}, {}) && Sessions(list) in r.w.log && plan.project == req.project
      requires plan.carry.Now? && CarriesOk(Tolds(r.w.log), svcs)
      requires plan.hope ==> r.w.smooth
      modifies this`svcs, r.w`log
      ensures RunOk(plan, svcs, r.w.log, 2, done, {}) && Weaker(old(svcs), svcs) && CarriesOk(Tolds(r.w.log), svcs)
      ensures forall i | 0 <= i < |svcs| && svcs[i].Live() :: i in done
    {
      done := {};
      for i := 0 to |svcs|
        invariant RunOk(plan, svcs, r.w.log, 2, done, {}) && Weaker(old(svcs), svcs) && Sessions(list) in r.w.log
        invariant CarriesOk(Tolds(r.w.log), svcs)
        invariant forall j | 0 <= j < i && svcs[j].Live() :: j in done
      {
        if !svcs[i].Live() { continue; }
        ghost var before := svcs;
        StopSessions(i, LiveSessionsOf(list, req.project, svcs[i].row.service), list, plan, done);
        WeakerThrough(old(svcs), before, svcs);
        done := done + {i};
      }
    }

    /** A session that refuses to end fails its service and stays. */
    method StopSessions(i: nat, live: seq<LiveSession>, ghost list: seq<SessionInfo>, ghost plan: Plan, ghost done: set<nat>)
      requires RunOk(plan, svcs, r.w.log, 2, done, {}) && i < |svcs| && svcs[i].Live() && Sessions(list) in r.w.log
      requires live == LiveSessionsOf(list, plan.project, svcs[i].row.service) && plan.carry.Now? && CarriesOk(Tolds(r.w.log), svcs)
      requires plan.hope ==> r.w.smooth
      modifies this`svcs, r.w`log
      ensures RunOk(plan, svcs, r.w.log, 2, done + {i}, {}) && Weaker(old(svcs), svcs) && Sessions(list) in r.w.log
      ensures CarriesOk(Tolds(r.w.log), svcs)
      ensures forall j | 0 <= j < |svcs| && j != i :: svcs[j] == old(svcs)[j]
    {
      var name := svcs[i].row.service;
      for k := 0 to |live|
        invariant RunOk(plan, svcs, r.w.log, 2, done, {}) && Weaker(old(svcs), svcs) && svcs[i].Live() && Sessions(list) in r.w.log
        invariant AreStopped(name, live, k, r.w.log) && CarriesOk(Tolds(r.w.log), svcs)
        invariant forall j | 0 <= j < |svcs| && j != i :: svcs[j] == old(svcs)[j]
      {
        ghost var before, log := svcs, r.w.log;
        assert live[k] in live;
        IsOnList(plan.project, log, list, name, live[k]);
        var ok := StopOne(i, live[k], plan, done);
        WeakerThrough(old(svcs), before, svcs);
        if !ok { return; }
        OneMoreStopped(name, live, k, log, r.w.log);
      }
      NowQuiet(plan.project, r.w.log, list, name, live);
      DoneOne(plan, svcs, r.w.log, 2, done, i);
    }

    method StopOne(i: nat, session: LiveSession, ghost plan: Plan, ghost done: set<nat>) returns (ok: bool)
      requires RunOk(plan, svcs, r.w.log, 2, done, {}) && i < |svcs| && svcs[i].Live()
      requires IsListed(plan.project, r.w.log, svcs[i].row.service, session.id) && plan.carry.Now? && CarriesOk(Tolds(r.w.log), svcs)
      requires plan.hope ==> r.w.smooth
      modifies this`svcs, r.w`log
      ensures ok ==> RunOk(plan, svcs, r.w.log, 2, done, {})
      ensures !ok ==> RunOk(plan, svcs, r.w.log, 2, done + {i}, {})
      ensures Weaker(old(svcs), svcs) && old(r.w.log) <= r.w.log
      ensures ok ==> svcs[i].Live() && Stopped(svcs[i].row.service, session.id, true) in r.w.log
      ensures CarriesOk(Tolds(r.w.log), svcs)
      ensures forall j | 0 <= j < |svcs| && j != i :: svcs[j] == old(svcs)[j]
    {
      ghost var start := svcs;
      Capture(i, session, plan, done);
      ghost var captured := svcs;
      ghost var told := Tolds(r.w.log);
      ok := EndSession(i, session, plan, done);
      CarriesKept(told, captured, svcs, i);
      WeakerThrough(start, captured, svcs);
    }

    method EndSession(i: nat, session: LiveSession, ghost plan: Plan, ghost done: set<nat>) returns (ok: bool)
      requires RunOk(plan, svcs, r.w.log, 2, done, {}) && i < |svcs| && svcs[i].Live()
      requires IsListed(plan.project, r.w.log, svcs[i].row.service, session.id) && WasTold(r.w.log, svcs[i].row.service, session.id)
      requires plan.hope ==> r.w.smooth
      modifies this`svcs, r.w`log
      ensures ok ==> RunOk(plan, svcs, r.w.log, 2, done, {})
      ensures !ok ==> RunOk(plan, svcs, r.w.log, 2, done + {i}, {})
      ensures Weaker(old(svcs), svcs) && old(r.w.log) <= r.w.log && svcs[i].carry == old(svcs)[i].carry
      ensures ok ==> svcs[i].Live() && Stopped(svcs[i].row.service, session.id, true) in r.w.log
      ensures Tolds(r.w.log) == Tolds(old(r.w.log))
      ensures forall j | 0 <= j < |svcs| && j != i :: svcs[j] == old(svcs)[j]
    {
      ok := AskStop(i, session.id, plan, done);
      if ok { MarkDowned(i, session.launched, plan, done); } else { FailOne(i, plan, 2, done); }
    }

    method AskStop(i: nat, session: string, ghost plan: Plan, ghost done: set<nat>) returns (ok: bool)
      requires RunOk(plan, svcs, r.w.log, 2, done, {}) && i < |svcs| && svcs[i].Live()
      requires IsListed(plan.project, r.w.log, svcs[i].row.service, session) && WasTold(r.w.log, svcs[i].row.service, session)
      modifies r.w`log
      ensures ok ==> RunOk(plan, svcs, r.w.log, 2, done, {})
      ensures !ok ==> RunOk(plan, svcs, r.w.log, 2, done, {svcs[i].row.service})
      ensures old(r.w.log) <= r.w.log && Stopped(svcs[i].row.service, session, ok) in r.w.log && Tolds(r.w.log) == Tolds(old(r.w.log))
      ensures r.w.smooth ==> ok
    {
      StopActs(plan, svcs, r.w.log, done, i, session, true);
      StopActs(plan, svcs, r.w.log, done, i, session, false);
      var name := svcs[i].row.service;
      ghost var log := r.w.log;
      ok := r.w.StopSession(name, session);
      StopTellsNothing(log, name, session, ok);
    }

    /** A session that launched the app ends it, too. */
    method MarkDowned(i: nat, launched: bool, ghost plan: Plan, ghost done: set<nat>)
      requires RunOk(plan, svcs, r.w.log, 2, done, {}) && i < |svcs| && svcs[i].Live()
      modifies this`svcs
      ensures RunOk(plan, svcs, r.w.log, 2, done, {}) && Weaker(old(svcs), svcs) && svcs[i].Live() && svcs[i].carry == old(svcs)[i].carry
      ensures svcs == old(svcs)[i := svcs[i]] && svcs[i].row == old(svcs)[i].row
    {
      Set(i, svcs[i].(downed := svcs[i].downed || launched), plan, 2, done);
    }

    /** Reads the breakpoints and the exception mode of a live session. */
    method Capture(i: nat, session: LiveSession, ghost plan: Plan, ghost done: set<nat>)
      requires RunOk(plan, svcs, r.w.log, 2, done, {}) && i < |svcs| && svcs[i].Live()
      requires IsListed(plan.project, r.w.log, svcs[i].row.service, session.id) && plan.carry.Now? && CarriesOk(Tolds(r.w.log), svcs)
      modifies this`svcs, r.w`log
      ensures RunOk(plan, svcs, r.w.log, 2, done, {}) && Weaker(old(svcs), svcs) && svcs[i].Live() && old(r.w.log) <= r.w.log
      ensures CarriesOk(Tolds(r.w.log), svcs)
      ensures forall j | 0 <= j < |svcs| && j != i :: svcs[j] == old(svcs)[j]
      ensures IsListed(plan.project, r.w.log, svcs[i].row.service, session.id) && WasTold(r.w.log, svcs[i].row.service, session.id)
    {
      assert SvcOk(plan, svcs[i], r.w.log, if i in done then 2 else 1, {});
      ghost var log := r.w.log;
      var left := r.w.AskSession(svcs[i].row.service, session.id);
      var c := Carry.Capture(svcs[i].carry, left);
      ghost var e := Told(svcs[i].row.service, session.id, left);
      ToldOne(plan, svcs, log, done, i, e, c);
      ToldsMore(log, e);
      TellsOne(Tolds(log), svcs, i, e, c);
      NowTold(plan.project, log, svcs[i].row.service, session.id, left);
      svcs := svcs[i := svcs[i].(carry := c)];
    }

    /** Takes out the service that something just failed for. */
    method FailOne(i: nat, ghost plan: Plan, ghost phase: nat, ghost done: set<nat>)
      requires 0 < phase < 5 && i < |svcs| && svcs[i].Live() && RunOk(plan, svcs, r.w.log, phase, done, {svcs[i].row.service})
      requires !plan.hope
      modifies this`svcs, r.w`log
      ensures RunOk(plan, svcs, r.w.log, phase, done + {i}, {}) && Weaker(old(svcs), svcs) && !svcs[i].Live() && old(r.w.log) <= r.w.log
      ensures Tolds(r.w.log) == Tolds(old(r.w.log)) && svcs[i].carry == old(svcs)[i].carry
      ensures forall j | 0 <= j < |svcs| && j != i :: svcs[j] == old(svcs)[j]
    {
      ghost var bad := {svcs[i].row.service};
      assert SvcOk(plan, svcs[i], r.w.log, if i in done then phase else phase - 1, bad);
      ToldsMore(r.w.log, Out(svcs[i].row.service));
      TakeOut(i, OtherError, false, plan, phase, done, bad);
      Cleared(plan, svcs, r.w.log, phase, done, bad);
      DoneOne(plan, svcs, r.w.log, phase, done, i);
    }

    /** Replaces each service's files with its staged build. */
    method MirrorAll(ghost plan: Plan)
      requires r.Valid() && RunOk(plan, svcs, r.w.log, 3, {}, {}) && plan.noBuild == req.noBuild
      requires plan.hope ==> r.w.smooth
      modifies this`svcs, r.w`log, r.w`dirs
      ensures r.Valid() && RunOk(plan, svcs, r.w.log, 4, {}, {}) && Weaker(old(svcs), svcs) && forall d | d in r.w.log :: Phase(d) <= 3
      ensures !req.noBuild ==> forall i | 0 <= i < |svcs| && svcs[i].Live() :: svcs[i].row.service in r.w.dirs
    {
      if req.noBuild {
        NothingToReplace(plan, svcs, r.w.log);
        return;
      }
      ghost var done: set<nat> := {};
      for i := 0 to |svcs|
        invariant r.Valid() && RunOk(plan, svcs, r.w.log, 3, done, {}) && Weaker(old(svcs), svcs)
        invariant forall j | 0 <= j < i && svcs[j].Live() :: j in done && svcs[j].row.service in r.w.dirs
      {
        if !svcs[i].Live() { continue; }
        MirrorOne(i, plan, done);
        done := done + {i};
      }
      NextPhase(plan, svcs, r.w.log, 3, done);
    }

    method MirrorOne(i: nat, ghost plan: Plan, ghost done: set<nat>)
      requires r.Valid() && RunOk(plan, svcs, r.w.log, 3, done, {}) && i < |svcs| && svcs[i].Live() && !plan.noBuild
      requires plan.hope ==> r.w.smooth
      modifies this`svcs, r.w`log, r.w`dirs
      ensures r.Valid() && RunOk(plan, svcs, r.w.log, 3, done + {i}, {}) && Weaker(old(svcs), svcs)
      ensures forall j | 0 <= j < |svcs| && j != i :: svcs[j] == old(svcs)[j]
      ensures old(r.w.dirs) <= r.w.dirs && (svcs[i].Live() ==> svcs[i].row.service in r.w.dirs)
    {
      IsToMirror(plan, svcs, r.w.log, done, i);
      var ok := r.w.ServiceDir(svcs[i].row.service);
      if ok { MirrorFiles(i, plan, done); } else { DropOne(i, OtherError, plan, 3, done); }
    }

    method MirrorFiles(i: nat, ghost plan: Plan, ghost done: set<nat>)
      requires RunOk(plan, svcs, r.w.log, 3, done, {}) && i < |svcs| && svcs[i].Live() && !plan.noBuild
      requires Staged(r.w.log, svcs[i]) && svcs[i].row.service in r.w.dirs
      requires plan.hope ==> r.w.smooth
      modifies this`svcs, r.w`log
      ensures RunOk(plan, svcs, r.w.log, 3, done + {i}, {}) && Weaker(old(svcs), svcs)
      ensures forall j | 0 <= j < |svcs| && j != i :: svcs[j] == old(svcs)[j]
    {
      var ok := AskMirror(i, plan, done);
      if ok { DoneOne(plan, svcs, r.w.log, 3, done, i); } else { FailOne(i, plan, 3, done); }
    }

    method DropOne(i: nat, err: Error, ghost plan: Plan, ghost phase: nat, ghost done: set<nat>)
      requires phase > 0 && RunOk(plan, svcs, r.w.log, phase, done, {}) && i < |svcs| && svcs[i].Live() && svcs[i].session.None?
      requires !plan.hope
      modifies this`svcs, r.w`log
      ensures RunOk(plan, svcs, r.w.log, phase, done + {i}, {}) && Weaker(old(svcs), svcs)
      ensures !svcs[i].Live()
      ensures forall j | 0 <= j < |svcs| && j != i :: svcs[j] == old(svcs)[j]
    {
      TakeOut(i, err, false, plan, phase, done, {});
      DoneOne(plan, svcs, r.w.log, phase, done, i);
    }

    /** Replaces the service's files with those its own build left. */
    method AskMirror(i: nat, ghost plan: Plan, ghost done: set<nat>) returns (ok: bool)
      requires RunOk(plan, svcs, r.w.log, 3, done, {}) && i < |svcs| && svcs[i].Live() && !plan.noBuild
      requires Staged(r.w.log, svcs[i]) && svcs[i].row.service in r.w.dirs
      modifies r.w`log
      ensures r.w.log == old(r.w.log) + [Replaced(svcs[i].row.service, svcs[i].out.value, ok)]
      ensures ok ==> RunOk(plan, svcs, r.w.log, 3, done, {}) && Ready(plan, r.w.log, 3, svcs[i].row.service)
      ensures !ok ==> RunOk(plan, svcs, r.w.log, 3, done, {svcs[i].row.service})
      ensures r.w.smooth ==> ok
    {
      MirrorActs(plan, svcs, r.w.log, done, i, true);
      MirrorActs(plan, svcs, r.w.log, done, i, false);
      ok := r.w.MirrorInto(svcs[i].row.service, svcs[i].out.value);
    }

    // -------------------------------------------------------------- recreate

    /** Puts the entering services in fast mode: writes the override and recreates
        their containers. */
    method Recreate(ghost plan: Plan)
      requires Holds() && RunOk(plan, svcs, r.w.log, 4, {}, {}) && forall d | d in r.w.log :: Phase(d) <= 3
      requires plan.hope ==> r.w.smooth && forall i | 0 <= i < |svcs| && svcs[i].entry :: HasRoom(Rows(svcs), r.w.file) && svcs[i].row.service in r.w.dirs
      modifies this`svcs, r`recorded, r`recordedErr, r`upFailed
      modifies r.w`looks, r.w`lost, r.w`file, r.w`containers, r.w`made, r.w`log
      ensures r.Valid() && RunOk(plan, svcs, r.w.log, 5, {}, {}) && Weaker(old(svcs), svcs)
      ensures OnlyExcused(old(r.w.lost), old(r.w.looks), r.w.lost, r.w.looks)
      ensures forall d | d in r.w.log :: Phase(d) <= 4
      ensures forall i | 0 <= i < |svcs| && svcs[i].entry :: IdlesOrOut(r.w.path, svcs[i])
    {
      var entering := EnteringOnes();
      if entering == [] {
        EnteredAll(plan, svcs, r.w.log, {});
        return;
      }
      HaveProjects(plan, svcs, r.w.log, entering);
      assert entering[0] in entering;
      var ok := Override(entering, plan.hope);
      if ok {
        ghost var lost, looks := r.w.lost, r.w.looks;
        UpAndRefresh(entering, plan);
        ExcusedThrough(old(r.w.lost), old(r.w.looks), lost, looks, r.w.lost, r.w.looks);
      } else {
        FailGroup(entering, OtherError, plan, 4, {}, {});
        EnteredAll(plan, svcs, r.w.log, {});
      }
    }

    method UpAndRefresh(entering: seq<nat>, ghost plan: Plan)
      requires r.Valid() && RunOk(plan, svcs, r.w.log, 4, {}, {}) && forall d | d in r.w.log :: Phase(d) <= 3
      requires Increasing(entering) && forall i: nat :: i in entering <==> i < |svcs| && svcs[i].Live() && svcs[i].entry
      requires plan.hope ==> r.w.smooth && forall i | i in entering :: svcs[i].row.service in Reads(r.w.file) && svcs[i].row.service in r.w.dirs
      modifies this`svcs, r`upFailed, r.w`looks, r.w`lost, r.w`containers, r.w`made, r.w`log
      ensures r.Valid() && RunOk(plan, svcs, r.w.log, 5, {}, {}) && Weaker(old(svcs), svcs)
      ensures r.w.lost <= old(r.w.lost) && old(r.w.looks) <= r.w.looks && forall d | d in r.w.log :: Phase(d) <= 4
      ensures forall i | 0 <= i < |svcs| && svcs[i].entry :: IdlesOrOut(r.w.path, svcs[i])
    {
      ghost var done := Up(entering, plan);
      ghost var before := svcs;
      Refresh(entering, plan, done);
      WeakerThrough(old(svcs), before, svcs);
      forall i: nat | i < |svcs| && svcs[i].Live() && svcs[i].entry ensures i in entering && i in done { assert i in Of(entering); }
      EnteredAll(plan, svcs, r.w.log, done);
    }

    method Override(entering: seq<nat>, ghost hope: bool) returns (ok: bool)
      requires Holds() && DistinctLive(svcs)
      requires Increasing(entering) && forall i | i in entering :: i < |svcs| && svcs[i].Live() && svcs[i].entry
      requires hope ==> r.w.smooth && HasRoom(Rows(svcs), r.w.file) && entering != []
      requires hope ==> forall i | i in entering :: svcs[i].row.service in r.w.dirs && svcs[i].projectRel != ""
      modifies r`recorded, r`recordedErr, r.w`looks, r.w`lost, r.w`file
      ensures r.Valid() && OnlyExcused(old(r.w.lost), old(r.w.looks), r.w.lost, r.w.looks) && (hope ==> ok)
      ensures ok ==> forall i | i in entering :: svcs[i].row.service in Reads(r.w.file)
    {
      var fast;
      ok, fast := r.w.FastContainers();
      if ok { ok := WriteFragments(fast, entering, hope); }
    }

    method EnteringOnes() returns (idxs: seq<nat>)
      ensures Increasing(idxs) && forall i: nat :: i in idxs <==> i < |svcs| && svcs[i].Live() && svcs[i].entry
    {
      idxs := [];
      for i := 0 to |svcs|
        invariant Increasing(idxs) && forall j: nat :: j in idxs <==> j < i && svcs[j].Live() && svcs[j].entry
      {
        if svcs[i].Live() && svcs[i].entry {
          forall k | 0 <= k < |idxs| ensures idxs[k] < i { assert idxs[k] in idxs; }
          idxs := idxs + [i];
        }
      }
    }

    /** Writes the override: the entering services' fragments, and those of every
        other service already in fast mode. A container that the override made is
        recorded after it exactly when it was before and could be read. */
    method WriteFragments(fast: seq<Listed>, entering: seq<nat>, ghost hope: bool) returns (ok: bool)
      requires Holds() && DistinctLive(svcs)
      requires hope ==> r.w.smooth && HasRoom(Rows(svcs), r.w.file) && entering != []
      requires Increasing(entering) && forall i | i in entering :: i < |svcs| && svcs[i].Live() && svcs[i].entry
      requires hope ==> forall i | i in entering :: svcs[i].row.service in r.w.dirs && svcs[i].projectRel != ""
      requires forall c | c in fast :: c.id in r.w.containers && c.service == r.w.containers[c.id].service
      requires forall id | id in r.w.made :: Listed(id, r.w.containers[id].service) in fast
      modifies r`recorded, r`recordedErr, r.w`looks, r.w`lost, r.w`file
      ensures r.Valid() && OnlyExcused(old(r.w.lost), old(r.w.looks), r.w.lost, r.w.looks)
      ensures ok ==> Rewritten(r.w.containers, r.w.made, old(Reads(r.w.file)), Reads(r.w.file), After(old(r.w.looks), r.w.looks), r.recordedErr)
      ensures !ok ==> r.w.file == old(r.w.file) && r.w.lost == old(r.w.lost)
      ensures hope ==> ok
      ensures ok ==> forall i | i in entering :: svcs[i].row.service in Reads(r.w.file)
    {
      var own;
      ok, own := OwnFragments(entering);
      if !ok { return; }
      var names := set f | f in own :: f.name;
      var staying := r.StayingFragments(fast, names);
      OwnAreFresh(r.w.containers, r.w.made, svcs, entering, own);
      ghost var looks, rec := r.w.looks, Reads(r.w.file);
      RewriteKeeps(r.w.path, r.w.containers, r.w.made, r.w.file, r.w.dirs, r.w.lost, old(r.w.looks), looks, r.recordedErr, own, staying);
      if hope { CanBeWritten(r.w.path, svcs, entering, r.w.file, r.w.dirs, own, staying); }
      ok := Put(own + staying, rec, old(r.w.looks));
      if ok { AreRecorded(r.w.path, svcs, entering, own, staying); }
    }

    method Put(frags: seq<Fragment>, ghost rec: Records, ghost before: Looks) returns (ok: bool)
      requires r.Valid() && before <= r.w.looks
      requires Rewritten(r.w.containers, r.w.made, rec, FileOf(r.w.path, frags), After(before, r.w.looks), r.recordedErr)
      requires forall s | s in Dropped(r.w.containers, r.w.made, FileOf(r.w.path, frags)) :: s in r.w.lost || Missed(r.w.looks, s)
      modifies r`recorded, r.w`looks, r.w`lost, r.w`file
      ensures r.Valid() && OnlyExcused(old(r.w.lost), old(r.w.looks), r.w.lost, r.w.looks)
      ensures ok ==> Rewritten(r.w.containers, r.w.made, rec, Reads(r.w.file), After(before, r.w.looks), r.recordedErr)
      ensures ok ==> r.w.file == Written(FileOf(r.w.path, frags)) && Writable(r.w.dirs, frags)
      ensures !ok ==> r.w.file == old(r.w.file) && r.w.lost == old(r.w.lost)
      ensures r.w.smooth && Writable(r.w.dirs, frags) ==> ok
    {
      ghost var looks, lost := r.w.looks, r.w.lost;
      ok := r.WriteOverride(frags);
      RewrittenLooks(r.w.containers, r.w.made, rec, FileOf(r.w.path, frags), before, looks, r.recordedErr, r.w.lost - lost);
    }

    /** The fragments of these services, if the directory of each is there. */
    method OwnFragments(idxs: seq<nat>) returns (ok: bool, own: seq<Fragment>)
      requires forall i | i in idxs :: i < |svcs|
      modifies r.w`looks
      ensures old(r.w.looks) <= r.w.looks && (ok ==> r.w.looks == old(r.w.looks) && OwnOf(svcs, idxs, own))
      ensures r.w.smooth && (forall i | i in idxs :: svcs[i].row.service in r.w.dirs) ==> ok
    {
      own := [];
      for k := 0 to |idxs|
        invariant r.w.looks == old(r.w.looks)
        invariant |own| == k && forall m | 0 <= m < k :: idxs[m] < |svcs| && own[m] == OwnFragment(svcs[idxs[m]])
        modifies r.w`looks
      {
        assert idxs[k] in idxs;
        var there := r.ServiceDirThere(svcs[idxs[k]].row.service);
        if !there { return false, own; }
        own := own + [OwnFragment(svcs[idxs[k]])];
      }
      ok := true;
    }

    /** Runs 'compose up' for the entering services, once per distinct list of
        compose files; a failure fails that list's services. */
    method Up(entering: seq<nat>, ghost plan: Plan) returns (ghost done: set<nat>)
      requires r.Valid() && RunOk(plan, svcs, r.w.log, 4, {}, {}) && forall d | d in r.w.log :: Phase(d) <= 3
      requires Increasing(entering) && forall i | i in entering :: i < |svcs| && svcs[i].Live() && svcs[i].entry
      requires plan.hope ==> r.w.smooth && forall i | i in entering :: svcs[i].row.service in Reads(r.w.file) && svcs[i].row.service in r.w.dirs
      modifies this`svcs, r`upFailed, r.w`containers, r.w`made, r.w`lost, r.w`log
      ensures r.Valid() && RunOk(plan, svcs, r.w.log, 4, done, {}) && Weaker(old(svcs), svcs)
      ensures Of(entering) <= done && r.w.lost <= old(r.w.lost)
      ensures forall d | d in r.w.log && d.Recreated? :: ForOwn(r.w.path, old(svcs), svcs, Of(entering), d)
      ensures forall i | i in entering :: OwnIsIn(r.w.path, 4, r.w.log, old(svcs)[i])
      ensures forall i | i in entering && svcs[i].Live() :: svcs[i].recreated
      ensures plan.hope ==> forall i | i in entering :: OneMade(r.w.containers, Reads(r.w.file), svcs[i].row.service)
    {
      ghost var start := svcs;
      var keys := UpKeys(r.w.path, svcs, entering);
      ghost var groups;
      var parts;
      parts, groups := PartsBy(|svcs|, entering, keys);
      UpKeysApart(r.w.path, start, entering, keys, groups, parts);
      done := {};
      DoingNone(r.w.path, 4, plan, r.w.log, svcs, entering, parts, {});
      for p := 0 to |parts|
        invariant Doing(r.w.path, 4, plan, r.w.log, start, svcs, parts, p, done)
        invariant r.Valid() && r.w.lost <= old(r.w.lost)
        invariant plan.hope ==> AllOneMade(r.w.containers, Reads(r.w.file), start, done)
      {
        ghost var before, log, cs := svcs, r.w.log, r.w.containers;
        ghost var key := ThisPart(r.w.path, 4, plan, log, start, svcs, entering, parts, p, done);
        ghost var e := UpPart(parts[p], key, plan, done);
        if plan.hope { MoreOneMade(cs, r.w.containers, Reads(r.w.file), start, before, entering, parts, p, done); }
        NextPart(r.w.path, 4, plan, log, r.w.log, start, before, svcs, entering, parts, p, done, e);
        done := done + Of(parts[p]);
      }
      AllBeen(|svcs|, entering, parts, done);
      AllMet(r.w.path, 4, r.w.log, start, svcs, entering, parts);
    }

    method UpPart(idxs: seq<nat>, ghost key: Key, ghost plan: Plan, ghost done: set<nat>) returns (ghost e: Event)
      requires r.Valid() && RunOk(plan, svcs, r.w.log, 4, done, {}) && idxs != [] && key.UpOf?
      requires Increasing(idxs) && forall i | i in idxs :: i < |svcs| && svcs[i].Live() && svcs[i].entry
      requires forall i | i in idxs :: KeyOf(r.w.path, 4, svcs[i]) == key
      requires FirstFor(r.w.log, 4, key, NamesOf(NamesAt(svcs, idxs)))
      requires plan.hope ==> r.w.smooth && forall i | i in idxs :: svcs[i].row.service in Reads(r.w.file) && svcs[i].row.service in r.w.dirs
      modifies this`svcs, r`upFailed, r.w`containers, r.w`made, r.w`lost, r.w`log
      ensures RunOk(plan, svcs, r.w.log, 4, done + Of(idxs), {}) && Weaker(old(svcs), svcs)
      ensures r.Valid() && r.w.lost <= old(r.w.lost)
      ensures forall i | 0 <= i < |svcs| && i !in idxs :: svcs[i] == old(svcs)[i]
      ensures Phase(e) == 4 && Met(r.w.path, 4, e, old(svcs), svcs, idxs) && Adds(old(r.w.log), r.w.log, e)
      ensures plan.hope ==> OneMadeNow(old(r.w.containers), r.w.containers, Reads(r.w.file), NamesOf(NamesAt(old(svcs), idxs)))
    {
      ghost var start, log := svcs, r.w.log;
      var ok: bool;
      ok, e := AskUp(idxs, key, plan, done);
      UpEnds(idxs, ok, plan, done);
      NowMet(r.w.path, e, ok, start, svcs, idxs, log, r.w.log);
    }

    /** Recreates the containers of these services, together. */
    method AskUp(idxs: seq<nat>, ghost key: Key, ghost plan: Plan, ghost done: set<nat>) returns (ok: bool, ghost e: Event)
      requires r.Valid() && RunOk(plan, svcs, r.w.log, 4, done, {}) && idxs != [] && key.UpOf?
      requires forall i | i in idxs :: i < |svcs| && svcs[i].Live() && svcs[i].entry
      requires forall i | i in idxs :: KeyOf(r.w.path, 4, svcs[i]) == key
      requires FirstFor(r.w.log, 4, key, NamesOf(NamesAt(svcs, idxs)))
      requires plan.hope ==> r.w.smooth && forall i | i in idxs :: svcs[i].row.service in Reads(r.w.file) && svcs[i].row.service in r.w.dirs
      modifies r.w`containers, r.w`made, r.w`lost, r.w`log
      ensures r.Valid() && r.w.lost <= old(r.w.lost) && r.w.log == old(r.w.log) + [e]
      ensures e == Recreated(key.ref, NamesOf(NamesAt(svcs, idxs)), ok) && IsFor(r.w.path, 4, e, svcs, idxs)
      ensures UpGoesOn(plan, svcs, r.w.log, done, idxs, ok)
      ensures plan.hope ==> ok && OneMadeNow(old(r.w.containers), r.w.containers, Reads(r.w.file), NamesOf(NamesAt(svcs, idxs)))
    {
      ghost var log := r.w.log;
      assert idxs[0] in idxs && key == KeyOf(r.w.path, 4, svcs[idxs[0]]);
      var names := NamesAt(svcs, idxs);
      ghost var cs, made, rec := r.w.containers, r.w.made, Reads(r.w.file);
      ok := r.w.ComposeUp(UpKey(r.w.path, svcs[idxs[0]]), names, true);
      if plan.hope {
        OnlyTheirs(svcs, idxs);
        UpMakesOne(r.w.path, rec, r.w.dirs, cs, made, NamesOf(names), r.w.containers, r.w.made);
      }
      e := Recreated(key.ref, NamesOf(names), ok);
      NowFor(r.w.path, 4, e, svcs, idxs);
      FirstIsOnce(log, 4, key, NamesOf(names), e);
      UpActed(plan, svcs, log, done, idxs, e);
    }

    /** The recreate of these services went well, or failed. */
    method UpEnds(idxs: seq<nat>, ok: bool, ghost plan: Plan, ghost done: set<nat>)
      requires UpGoesOn(plan, svcs, r.w.log, done, idxs, ok)
      requires Increasing(idxs) && forall i | i in idxs :: i < |svcs| && svcs[i].Live()
      requires plan.hope ==> ok
      modifies this`svcs, r`upFailed, r.w`log
      ensures RunOk(plan, svcs, r.w.log, 4, done + Of(idxs), {}) && Weaker(old(svcs), svcs) && Outs(old(r.w.log), r.w.log)
      ensures forall i | 0 <= i < |svcs| && i !in idxs :: svcs[i] == old(svcs)[i]
      ensures forall i | i in idxs :: (svcs[i].Live() <==> ok) && (ok ==> svcs[i].recreated)
    {
      ghost var start := svcs;
      if ok {
        MarkRecreated(idxs, plan, done);
      } else {
        r.upFailed := true;
        FailGroup(idxs, OtherError, plan, 4, done, NamesOf(NamesAt(start, idxs)));
        GroupIsOut(start, svcs, idxs, plan, r.w.log, 4, done);
      }
    }

    method MarkRecreated(idxs: seq<nat>, ghost plan: Plan, ghost done: set<nat>)
      requires RunOk(plan, svcs, r.w.log, 4, done, {}) && !plan.noBuild
      requires Increasing(idxs) && forall i | i in idxs :: i < |svcs| && svcs[i].Live() && IsInFastMode(plan, r.w.log, svcs[i].row.service)
      modifies this`svcs
      ensures RunOk(plan, svcs, r.w.log, 4, done + Of(idxs), {}) && Weaker(old(svcs), svcs)
      ensures forall i | 0 <= i < |svcs| && i !in idxs :: svcs[i] == old(svcs)[i]
      ensures forall i | i in idxs :: svcs[i].Live() && svcs[i].recreated
    {
      ghost var start := svcs;
      assert forall m | 0 <= m < |idxs| :: idxs[m] in idxs;
      for k := 0 to |idxs|
        invariant RunOk(plan, svcs, r.w.log, 4, done, {}) && MarkedSoFar(start, svcs, idxs, k)
      {
        ghost var before := svcs;
        Set(idxs[k], svcs[idxs[k]].(recreated := true), plan, 4, done);
        MarkedOne(start, before, svcs, idxs, k);
      }
      MarkedAll(start, svcs, idxs);
      forall i | i in idxs ensures Ready(plan, r.w.log, 4, svcs[i].row.service) {
        assert SvcOk(plan, svcs[i], r.w.log, if i in done then 4 else 3, {});
      }
      GroupIsDone(start, svcs, idxs, plan, r.w.log, 4, done);
    }

    /** Reads the recreated containers again: each service must have exactly one,
        running, in fast mode with this project's override. */
    method Refresh(entering: seq<nat>, ghost plan: Plan, ghost done: set<nat>)
      requires RunOk(plan, svcs, r.w.log, 4, done, {})
      requires Increasing(entering) && forall i | i in entering :: i < |svcs| && (svcs[i].Live() ==> svcs[i].recreated)
      requires r.w.Valid()
      requires plan.hope ==> r.w.smooth && forall i | i in entering :: OneMade(r.w.containers, Reads(r.w.file), svcs[i].row.service)
      modifies this`svcs, r.w`looks, r.w`log
      ensures RunOk(plan, svcs, r.w.log, 4, done, {}) && Weaker(old(svcs), svcs) && old(r.w.looks) <= r.w.looks
      ensures forall i | i in entering :: IdlesOrOut(r.w.path, svcs[i])
    {
      var ok, fast := r.w.FastContainers();
      RefreshedNone(r.w.path, svcs, entering);
      for k := 0 to |entering|
        invariant RunOk(plan, svcs, r.w.log, 4, done, {}) && Weaker(old(svcs), svcs) && old(r.w.looks) <= r.w.looks
        invariant Refreshed(r.w.path, old(svcs), svcs, entering, k)
      {
        ghost var before := svcs;
        if svcs[entering[k]].Live() && svcs[entering[k]].recreated {
          RefreshOne(entering[k], if ok then Some(fast) else None, plan, done);
          WeakerThrough(old(svcs), before, svcs);
        }
        RefreshedMore(r.w.path, old(svcs), before, svcs, entering, k);
      }
      RefreshedAll(r.w.path, old(svcs), svcs, entering);
    }

    method TheirIds(fast: seq<Listed>, service: string) returns (ids: seq<string>)
      ensures ids == IdsOf(fast, service)
    {
      ids := [];
      for k := 0 to |fast|
        invariant ids == IdsOf(fast[..k], service)
      {
        assert fast[..k + 1][..k] == fast[..k];
        if fast[k].service == service { ids := ids + [fast[k].id]; }
      }
      assert fast[..|fast|] == fast;
    }

    /** A service stays exactly with one container in fast mode, which was
        inspected, and runs idle with this project's override. */
    method RefreshOne(i: nat, fast: Option<seq<Listed>>, ghost plan: Plan, ghost done: set<nat>)
      requires RunOk(plan, svcs, r.w.log, 4, done, {}) && i < |svcs| && svcs[i].Live()
      requires r.w.Valid() && (plan.hope ==> r.w.smooth && OneMade(r.w.containers, Reads(r.w.file), svcs[i].row.service))
      requires plan.hope ==> fast.Some?
      requires fast.Some? ==> AllListed(r.w.containers, fast.value)
      modifies this`svcs, r.w`looks, r.w`log
      ensures RunOk(plan, svcs, r.w.log, 4, done, {}) && Weaker(old(svcs), svcs) && old(r.w.looks) <= r.w.looks
      ensures svcs == old(svcs)[i := svcs[i]]
      ensures svcs[i].Live() <==> fast.Some? && FitSeen(r.w.path, fast.value, svcs[i].row.service, old(r.w.looks), r.w.looks)
      ensures IdlesOrOut(r.w.path, svcs[i])
      ensures svcs[i].Live() ==> |r.w.looks| > 0 && r.w.looks[|r.w.looks| - 1].Inspected? && svcs[i].c == Some(r.w.looks[|r.w.looks| - 1].info.c)
    {
      assert SvcOk(plan, svcs[i], r.w.log, if i in done then 4 else 3, {});
      var c: Option<Container> := None;
      if fast.Some? { c := FindIdle(svcs[i].row.service, fast.value, plan.hope); }
      if c.None? {
        TakeOut(i, OtherError, false, plan, 4, done, {});
      } else {
        Set(i, svcs[i].(c := c, fast := c.value.fast), plan, 4, done);
      }
    }

    method FindIdle(service: string, fast: seq<Listed>, ghost hope: bool) returns (c: Option<Container>)
      requires r.w.Valid() && AllListed(r.w.containers, fast)
      requires hope ==> r.w.smooth && OneMade(r.w.containers, Reads(r.w.file), service)
      modifies r.w`looks
      ensures old(r.w.looks) <= r.w.looks && (hope ==> c.Some?)
      ensures c.Some? <==> FitSeen(r.w.path, fast, service, old(r.w.looks), r.w.looks)
      ensures c.Some? ==> c == Some(r.w.looks[|r.w.looks| - 1].info.c) && Idles(r.w.path, c, c.value.fast)
    {
      var ids := TheirIds(fast, service);
      OneId(fast, service);
      if hope { OneMadeIsListed(r.w.path, r.w.containers, Reads(r.w.file), service, fast); }
      if |ids| != 1 { return None; }
      ghost var before := r.w.looks;
      var ok, info := r.w.InspectFast(ids[0]);
      FoundFit(r.w.path, fast, service, ok, info, before, r.w.looks);
      if !ok || !info.running || info.c.fast.None? || info.c.fast.value.version != FAST_VERSION || info.c.fast.value.override != r.w.path {
        return None;
      }
      c := Some(info.c);
    }

    // ---------------------------------------------------------------- launch

    /** Starts the apps of the services still in the run, one request per batch. */
    method LaunchAll(ghost plan: Plan) returns (ghost done: set<nat>)
      requires RunOk(plan, svcs, r.w.log, 5, {}, {}) && forall d | d in r.w.log :: Phase(d) <= 4
      requires PlanCarries(plan) && forall i | 0 <= i < |svcs| && svcs[i].Live() :: svcs[i].row.service in plan.carry.carries
      requires plan.hope ==> r.w.smooth
      modifies this`svcs, r.w`log
      ensures RunOk(plan, svcs, r.w.log, 5, done, {}) && Weaker(old(svcs), svcs)
      ensures forall i | 0 <= i < |svcs| && svcs[i].Live() :: svcs[i].session.Some?
      ensures forall i | i in LiveSet(old(svcs)) :: LaunchedWith(r.w.log, old(svcs)[i], req.settable, req.args, req.mode)
      ensures forall i | 0 <= i < |svcs| && svcs[i].Live() :: OwnRequest(r.w.log, svcs[i], req)
    {
      var live := LiveOnes();
      var parts, batches := Batch(live, plan);
      ghost var start := svcs;
      done := {};
      DoingNone(r.w.path, 5, plan, r.w.log, svcs, live, parts, {});
      for p := 0 to |parts|
        invariant AskedFor(r.w.log, start, parts, batches, p)
        invariant Doing(r.w.path, 5, plan, r.w.log, start, svcs, parts, p, done) && Apart(parts, p, done)
        invariant forall i | 0 <= i < |svcs| && i in done && svcs[i].Live() :: svcs[i].session.Some?
      {
        ghost var before, log := svcs, r.w.log;
        ghost var key := ThisPart(r.w.path, 5, plan, log, start, svcs, live, parts, p, done);
        ghost var e := LaunchBatch(parts[p], batches[p], key, plan, done);
        AskedMore(log, r.w.log, start, before, parts, batches, p, e);
        NextPart(r.w.path, 5, plan, log, r.w.log, start, before, svcs, live, parts, p, done, e);
        NextApart(|svcs|, live, parts, p, done);
        done := done + Of(parts[p]);
      }
      WeakerThrough(old(svcs), start, svcs);
      AllBeen(|svcs|, live, parts, done);
      forall i: nat | i < |svcs| && svcs[i].Live() ensures i in done { assert i in Of(live); }
      AllAsked(r.w.log, old(svcs), start, live, parts, batches, req.settable, req.args, req.mode);
      AllOwn(plan, old(svcs), svcs, r.w.log, done, req);
    }

    /** Groups the live services by what they launch with, and notes what could not
        be carried over. */
    method Batch(live: seq<nat>, ghost plan: Plan) returns (parts: seq<seq<nat>>, batches: seq<Carry.Batch>)
      requires RunOk(plan, svcs, r.w.log, 5, {}, {}) && Increasing(live)
      requires forall i: nat :: i in live <==> i < |svcs| && svcs[i].Live()
      modifies this`svcs
      ensures RunOk(plan, svcs, r.w.log, 5, {}, {}) && Weaker(old(svcs), svcs)
      ensures Parts(|svcs|, live, parts) && forall i: nat :: i in live <==> i < |svcs| && svcs[i].Live()
      ensures forall i | i in live :: svcs[i].row == old(svcs)[i].row
      ensures OwnBatches(old(svcs), parts, batches, req.settable, req.args, req.mode)
    {
      CarriesDistinct(plan, svcs, r.w.log, live);
      var carries, after := CarriesOf(svcs, live), [];
      batches, after := Batches(carries, req.settable, req.args, req.mode);
      var groups := seq(|batches|, b requires 0 <= b < |batches| => batches[b].members);
      BatchesPart(carries, batches, req.settable, req.args, req.mode, groups);
      assert forall m | 0 <= m < |live| :: live[m] in live;
      for k := 0 to |live|
        invariant RunOk(plan, svcs, r.w.log, 5, {}, {}) && Weaker(old(svcs), svcs)
        invariant Noted(old(svcs), svcs, live, k)
      {
        ghost var before := svcs;
        Set(live[k], svcs[live[k]].(carry := after[k]), plan, 5, {});
        NotedOne(old(svcs), before, svcs, live, after[k], k);
      }
      parts := PartsOf(|svcs|, live, groups);
      BatchesAreOwn(old(svcs), live, carries, groups, parts, batches, req.settable, req.args, req.mode);
    }

    /** One request for services that share breakpoints. */
    method LaunchBatch(idxs: seq<nat>, b: Carry.Batch, ghost key: Key, ghost plan: Plan, ghost done: set<nat>) returns (ghost e: Event)
      requires RunOk(plan, svcs, r.w.log, 5, done, {}) && Increasing(idxs) && (forall i | i in idxs :: i < |svcs| && svcs[i].Live()) && Of(idxs) !! done
      requires (forall i | i in idxs :: KeyOf(r.w.path, 5, svcs[i]) == key) && key.NoKey? && FirstFor(r.w.log, 5, key, NamesOf(NamesAt(svcs, idxs)))
      requires plan.hope ==> r.w.smooth
      modifies this`svcs, r.w`log
      ensures RunOk(plan, svcs, r.w.log, 5, done + Of(idxs), {}) && Weaker(old(svcs), svcs)
      ensures forall i | i in idxs && svcs[i].Live() :: svcs[i].session.Some?
      ensures forall i | 0 <= i < |svcs| && i !in idxs :: svcs[i] == old(svcs)[i]
      ensures Phase(e) == 5 && Met(r.w.path, 5, e, old(svcs), svcs, idxs) && Adds(old(r.w.log), r.w.log, e)
      ensures e == Asked(NamesOf(NamesAt(old(svcs), idxs)), b.bps, b.mode)
    {
      var names := NamesAt(svcs, idxs);
      NamesAreLive(svcs, idxs);
      ghost var log := r.w.log;
      var answer := r.w.AskLaunch(names, b.bps, b.mode);
      e := Asked(NamesOf(names), b.bps, b.mode);
      NowFor(r.w.path, 5, e, svcs, idxs);
      FirstIsOnce(log, 5, key, NamesOf(names), e);
      Acted(plan, svcs, log, 5, done, e);
      NoneYet(plan, svcs, r.w.log, done, idxs);
      if answer.None? || |answer.value| != |idxs| {
        FailGroup(idxs, OtherError, plan, 5, done, {});
        DeadAreDone(plan, svcs, r.w.log, done, idxs);
      } else {
        Answers(idxs, answer.value, plan, done);
        AnsweredAll(old(svcs), svcs, idxs);
      }
    }

    method Answers(idxs: seq<nat>, answers: seq<Answer>, ghost plan: Plan, ghost done: set<nat>)
      requires RunOk(plan, svcs, r.w.log, 5, done, {}) && Increasing(idxs) && |answers| == |idxs|
      requires Of(idxs) !! done && forall i | i in idxs :: i < |svcs| && svcs[i].Live() && svcs[i].session.None?
      requires plan.hope ==> AllLaunch(answers, |idxs|)
      modifies this`svcs, r.w`log
      ensures RunOk(plan, svcs, r.w.log, 5, done + Of(idxs), {}) && Weaker(old(svcs), svcs) && Outs(old(r.w.log), r.w.log)
      ensures AnsweredSome(old(svcs), svcs, idxs, |idxs|)
    {
      ghost var d := done;
      AnsweredNone(svcs, idxs);
      for k := 0 to |idxs|
        invariant RunOk(plan, svcs, r.w.log, 5, d, {}) && Weaker(old(svcs), svcs) && d == done + Of(idxs[..k]) && Outs(old(r.w.log), r.w.log)
        invariant AnsweredSome(old(svcs), svcs, idxs, k)
      {
        ghost var before := svcs;
        AnsweredNext(old(svcs), svcs, idxs, k);
        Answered(idxs[k], answers[k], plan, d);
        AnsweredMore(old(svcs), before, svcs, idxs, k);
        WeakerThrough(old(svcs), before, svcs);
        OfMore(idxs, k);
        d := d + {idxs[k]};
      }
      assert idxs[..|idxs|] == idxs;
    }

    method Answered(i: nat, a: Answer, ghost plan: Plan, ghost done: set<nat>)
      requires RunOk(plan, svcs, r.w.log, 5, done, {}) && i < |svcs| && svcs[i].Live() && svcs[i].session.None?
      requires plan.hope ==> !a.error && a.session.Some?
      modifies this`svcs, r.w`log
      ensures RunOk(plan, svcs, r.w.log, 5, done + {i}, {}) && Weaker(old(svcs), svcs) && Outs(old(r.w.log), r.w.log)
      ensures svcs[i].Live() <==> !a.error && a.session.Some?
      ensures svcs[i].Live() ==> svcs[i].session == a.session
      ensures forall j | 0 <= j < |svcs| && j != i :: svcs[j] == old(svcs)[j]
    {
      if a.error || a.session.None? {
        TakeOut(i, OtherError, false, plan, 5, done, {});
        DoneOne(plan, svcs, r.w.log, 5, done, i);
      } else {
        Launched(plan, svcs, r.w.log, done, i, a.session.value);
        svcs := svcs[i := svcs[i].(session := a.session)];
      }
    }

    // ------------------------------------------------------------------- run

    /** The stages before anything changes; an error is one that ends the run, and
        so does having no service left. */
    method Prepare(ghost hope: bool) returns (err: Option<Error>, ghost plan: Plan, ghost phase: nat)
      requires Holds() && r.w.log == [] && forall i | 0 <= i < |svcs| :: svcs[i] == Picked(svcs[i].row)
      requires hope ==> r.w.smooth && workDir.None? && CanAll()
      modifies this`svcs, this`workDir, r`recorded, r`recordedErr, r`keepProject, r.w`looks, r.w`log
      ensures Holds() && 0 < phase <= 2 && RunOk(plan, svcs, r.w.log, phase, {}, {}) && SameRows(svcs, old(svcs)) && old(r.w.looks) <= r.w.looks
      ensures plan.noBuild == req.noBuild && plan.project == req.project && plan.carry.NotYet?
      ensures forall d | d in r.w.log :: Phase(d) <= 1
      ensures err.None? && phase < 2 ==> forall i | 0 <= i < |svcs| :: !svcs[i].Live()
      ensures plan.hope == hope && (hope ==> err.None? && CanStill())
    {
      plan := Classify(hope);
      phase := 1;
      ghost var classified := svcs;
      err := Settle(plan);
      FitsWeaker(r.w.containers, r.w.made, classified, svcs);
      if hope { SortedStays(r.w.path, r.w.containers, r.w.file, classified, svcs); }
      if err.Some? { return; }
      var some := SomeLeft();
      if !some { return; }
      classified := svcs;
      plan := ResolveAndBuild(plan);
      FitsWeaker(r.w.containers, r.w.made, classified, svcs);
      if hope { SortedStays(r.w.path, r.w.containers, r.w.file, classified, svcs); }
      phase := 2;
    }

    method ResolveAndBuild(ghost plan: Plan) returns (ghost more: Plan)
      requires RunOk(plan, svcs, r.w.log, 1, {}, {}) && plan.noBuild == req.noBuild && plan.builds == map[] && forall d | d in r.w.log :: d.Out?
      requires plan.hope ==> r.w.smooth && CanStill()
      modifies this`svcs, r`keepProject, r.w`log
      ensures RunOk(more, svcs, r.w.log, 2, {}, {}) && Weaker(old(svcs), svcs) && more == plan.(builds := more.builds)
      ensures forall d | d in r.w.log :: Phase(d) <= 1
    {
      ResolveProjects(plan);
      if plan.hope { SortedStays(r.w.path, r.w.containers, r.w.file, old(svcs), svcs); }
      if plan.hope && req.noBuild { SortedHaveBuilds(r.w.path, r.w.canonical, req, r.w.containers, r.w.file, r.w.dirs, svcs); }
      BuildsKnown(plan, svcs, r.w.log);
      more := plan.(builds := BuildsOf(svcs));
      ghost var before := svcs;
      Build(more);
      WeakerThrough(old(svcs), before, svcs);
    }

    /** Starts or finds the daemon, before anything changes, and lists its
        sessions. */
    method Connect(ghost plan: Plan) returns (list: Option<seq<SessionInfo>>)
      requires RunOk(plan, svcs, r.w.log, 2, {}, {}) && forall d | d in r.w.log :: Phase(d) <= 1
      modifies r.w`log
      ensures RunOk(plan, svcs, r.w.log, 2, {}, {}) && (list.Some? ==> Sessions(list.value) in r.w.log)
      ensures forall d | d in r.w.log :: !d.Told?
      ensures r.w.smooth ==> list.Some?
    {
      ghost var log := r.w.log;
      list := r.w.ListSessions();
      if list.Some? { Acted(plan, svcs, log, 2, {}, Sessions(list.value)); }
    }

    /** The stages that change the stack. */
    method Change(list: seq<SessionInfo>, ghost plan: Plan) returns (ghost more: Plan, ghost done: set<nat>)
      requires Holds() && RunOk(plan, svcs, r.w.log, 2, {}, {}) && plan.carry.NotYet? && forall d | d in r.w.log :: !d.Told?
      requires Sessions(list) in r.w.log && plan.project == req.project && plan.noBuild == req.noBuild
      requires plan.hope ==> r.w.smooth && CanStill()
      modifies this`svcs, r`recorded, r`recordedErr, r`upFailed
      modifies r.w`looks, r.w`lost, r.w`file, r.w`dirs, r.w`containers, r.w`made, r.w`log
      ensures r.Valid() && RunOk(more, svcs, r.w.log, 5, done, {}) && Weaker(old(svcs), svcs) && more == plan.(carry := more.carry)
      ensures OnlyExcused(old(r.w.lost), old(r.w.looks), r.w.lost, r.w.looks)
      ensures forall i | 0 <= i < |svcs| && svcs[i].Live() :: svcs[i].session.Some? && OwnRequest(r.w.log, svcs[i], req)
    {
      more := CarryAndStop(list, plan);
      ghost var stopped := svcs;
      MirrorAll(more);
      ghost var mirrored := svcs;
      WeakerThrough(old(svcs), stopped, svcs);
      FitsWeaker(r.w.containers, r.w.made, old(svcs), svcs);
      if plan.hope { SortedHaveRoom(r.w.path, r.w.canonical, req, r.w.containers, r.w.file, old(r.w.dirs), old(svcs), svcs); }
      MayEnter(more, svcs, r.w.log);
      Recreate(more);
      WeakerThrough(stopped, mirrored, svcs);
      done := LaunchAll(more);
    }

    /** Runs the stages; an error is one that ends the whole run. */
    method Execute(ghost hope: bool) returns (err: Option<Error>, ghost plan: Plan, ghost phase: nat, ghost done: set<nat>)
      requires Holds() && r.w.log == [] && forall i | 0 <= i < |svcs| :: svcs[i] == Picked(svcs[i].row)
      requires hope ==> r.w.smooth && workDir.None? && CanAll()
      modifies this`svcs, this`workDir, r`recorded, r`recordedErr, r`keepProject, r`upFailed
      modifies r.w`looks, r.w`lost, r.w`file, r.w`dirs, r.w`containers, r.w`made, r.w`log
      ensures r.Valid() && 0 < phase <= 5 && RunOk(plan, svcs, r.w.log, phase, done, {}) && SameRows(svcs, old(svcs))
      ensures OnlyExcused(old(r.w.lost), old(r.w.looks), r.w.lost, r.w.looks)
      ensures plan.noBuild == req.noBuild && plan.project == req.project && (err.Some? ==> phase <= 2)
      ensures err.None? ==> forall i | 0 <= i < |svcs| && svcs[i].Live() :: svcs[i].session.Some? && OwnRequest(r.w.log, svcs[i], req)
      ensures plan.hope == hope && (hope ==> err.None?)
    {
      done := {};
      err, plan, phase := Prepare(hope);
      if err.Some? { return; }
      var some := SomeLeft();
      if !some { return; }
      ghost var lost, looks := r.w.lost, r.w.looks;
      err, plan, phase, done := Proceed(plan);
      ExcusedThrough(old(r.w.lost), old(r.w.looks), lost, looks, r.w.lost, r.w.looks);
    }

    /** Connects to the daemon and changes the stack. */
    method Proceed(ghost plan: Plan) returns (err: Option<Error>, ghost more: Plan, ghost phase: nat, ghost done: set<nat>)
      requires Holds() && RunOk(plan, svcs, r.w.log, 2, {}, {}) && forall d | d in r.w.log :: Phase(d) <= 1
      requires plan.noBuild == req.noBuild && plan.project == req.project && plan.carry.NotYet?
      requires plan.hope ==> r.w.smooth && CanStill()
      modifies this`svcs, r`recorded, r`recordedErr, r`upFailed
      modifies r.w`looks, r.w`lost, r.w`file, r.w`dirs, r.w`containers, r.w`made, r.w`log
      ensures r.Valid() && 0 < phase <= 5 && RunOk(more, svcs, r.w.log, phase, done, {}) && Weaker(old(svcs), svcs)
      ensures OnlyExcused(old(r.w.lost), old(r.w.looks), r.w.lost, r.w.looks)
      ensures more == plan.(carry := more.carry) && (err.Some? ==> phase <= 2)
      ensures err.None? ==> forall i | 0 <= i < |svcs| && svcs[i].Live() :: svcs[i].session.Some? && OwnRequest(r.w.log, svcs[i], req)
      ensures plan.hope ==> err.None?
    {
      var list := Connect(plan);
      if list.None? { return Some(OtherError), plan, 2, {}; }
      more, done := Change(list.value, plan);
      err, phase := None, 5;
    }

    /** One whole run: in whatever way calls fail, its log is in order and each
        service ends in exactly one way; what it leaves of the stack is in step,
        and a record is lost only by a rewrite that could not read it. When no
        call fails and all services can be launched, all are. */
    method Run() returns (ghost plan: Plan)
      requires r.w.Valid() && r.IsNew() && Fits(r.w.containers, r.w.made, svcs)
      requires forall i | 0 <= i < |svcs| :: svcs[i] == Picked(svcs[i].row)
      requires workDir.None?
      modifies this, r, r.w
      ensures r.w.Valid() && Ordered(plan, r.w.log)
      ensures plan.noBuild == req.noBuild && plan.project == req.project
      ensures |svcs| == |old(svcs)| && forall i | 0 <= i < |svcs| :: svcs[i].row == old(svcs)[i].row && svcs[i].ExactlyOne()
      ensures forall i | 0 <= i < |svcs| && svcs[i].row.service in plan.builds :: plan.builds[svcs[i].row.service] == BuildKey(svcs[i])
      ensures forall i | 0 <= i < |svcs| && svcs[i].session.Some? :: HasAll(plan, r.w.log, svcs[i]) && OwnRequest(r.w.log, svcs[i], req)
      ensures r.w.past == old(r.w.past) + [old(r.w.looks)]
      ensures forall s | s in r.w.lost && s !in old(r.w.lost) :: Excused(r.w.looks, s)
      ensures r.w.smooth && old(CanAll()) ==> forall i | 0 <= i < |svcs| :: svcs[i].session.Some?
    {
      r.w.Begin();
      plan := Stages(r.w.smooth && CanAll());
      var _ := r.Prune();
    }

    /** The run but for what it tidies up. */
    method Stages(ghost hope: bool) returns (ghost plan: Plan)
      requires Holds() && r.w.log == [] && forall i | 0 <= i < |svcs| :: svcs[i] == Picked(svcs[i].row)
      requires hope ==> r.w.smooth && workDir.None? && CanAll()
      modifies this`svcs, this`workDir, r`recorded, r`recordedErr, r`keepProject, r`upFailed
      modifies r.w`looks, r.w`lost, r.w`file, r.w`dirs, r.w`containers, r.w`made, r.w`log
      ensures r.Valid() && Ordered(plan, r.w.log) && OnlyExcused(old(r.w.lost), old(r.w.looks), r.w.lost, r.w.looks)
      ensures plan.noBuild == req.noBuild && plan.project == req.project && SameRows(old(svcs), svcs)
      ensures forall i | 0 <= i < |svcs| :: svcs[i].ExactlyOne() && (hope ==> svcs[i].session.Some?)
      ensures forall i | 0 <= i < |svcs| && svcs[i].row.service in plan.builds :: plan.builds[svcs[i].row.service] == BuildKey(svcs[i])
      ensures forall i | 0 <= i < |svcs| && svcs[i].session.Some? :: HasAll(plan, r.w.log, svcs[i]) && OwnRequest(r.w.log, svcs[i], req)
    {
      var err;
      ghost var phase, done;
      err, plan, phase, done := Execute(hope);
      if err.Some? { FailLive(err.value, plan, phase, done); }
      EndsOnce(plan, svcs, r.w.log, phase, done);
    }
  }

  /** A service that was launched: nothing of it failed, its own project and
      assembly were built, its sessions stopped, its files replaced, and it was
      recreated if it entered fast mode. */
  ghost predicate HasAll(plan: Plan, log: Log, s: Svc) {
    && Fine(log, s.row.service) && Ready(plan, log, 4, s.row.service) && (s.entry <==> s.row.service in plan.entering)
    && (!plan.noBuild ==> WasBuilt(log, s))
  }

  ghost predicate WasBuilt(log: Log, s: Svc) {
    exists d | d in log && d.Built? :: d.ok && d.what == BuildKey(s) && s.row.service in d.services
  }

  lemma NoneLeft(svcs: seq<Svc>, live: seq<nat>)
    requires live == [] && forall i: nat :: i in live <==> i < |svcs| && svcs[i].Live()
    ensures forall i | 0 <= i < |svcs| :: !svcs[i].Live()
  {
    forall i: nat | i < |svcs| ensures !svcs[i].Live() { assert i !in live; }
  }

  lemma EndsOnce(plan: Plan, svcs: seq<Svc>, log: Log, phase: nat, done: set<nat>)
    requires 0 < phase <= 5 && RunOk(plan, svcs, log, phase, done, {})
    requires forall i | 0 <= i < |svcs| && svcs[i].Live() :: svcs[i].session.Some?
    ensures forall i | 0 <= i < |svcs| :: svcs[i].ExactlyOne() && (plan.hope ==> svcs[i].session.Some?)
    ensures forall i | 0 <= i < |svcs| && svcs[i].session.Some? :: HasAll(plan, log, svcs[i])
    ensures forall i | 0 <= i < |svcs| && svcs[i].row.service in plan.builds :: plan.builds[svcs[i].row.service] == BuildKey(svcs[i])
  {
    forall i | 0 <= i < |svcs|
      ensures svcs[i].ExactlyOne() && (plan.hope ==> svcs[i].session.Some?)
      ensures svcs[i].session.Some? ==> HasAll(plan, log, svcs[i])
      ensures svcs[i].row.service in plan.builds ==> plan.builds[svcs[i].row.service] == BuildKey(svcs[i])
    {
      var p := if i in done then phase else phase - 1;
      assert SvcOk(plan, svcs[i], log, p, {});
      if svcs[i].session.Some? && !plan.noBuild { OwnWasBuilt(plan, svcs[i], log, p); }
    }
  }

  lemma OwnWasBuilt(plan: Plan, s: Svc, log: Log, phase: nat)
    requires Ordered(plan, log) && SvcOk(plan, s, log, phase, {}) && s.Live() && phase >= 1 && !plan.noBuild
    ensures WasBuilt(log, s)
  {
    var e :| e in log && ((e.Built? && e.ok && s.row.service in e.services) || e == HasBuild(s.row.service));
    var i :| 0 <= i < |log| && log[i] == e;
    OrderedAt(plan, log, i);
  }

  function CarriesOf(svcs: seq<Svc>, live: seq<nat>): seq<Carried>
    requires forall i | i in live :: i < |svcs|
  {
    seq(|live|, k requires 0 <= k < |live| => assert live[k] in live; svcs[live[k]].carry)
  }

  lemma CarriesDistinct(plan: Plan, svcs: seq<Svc>, log: Log, live: seq<nat>)
    requires RunOk(plan, svcs, log, 5, {}, {}) && forall i | i in live :: i < |svcs|
    ensures forall k | 0 <= k < |live| :: DistinctKeys(CarriesOf(svcs, live)[k].bps)
  {
    forall k | 0 <= k < |live| ensures DistinctKeys(CarriesOf(svcs, live)[k].bps) {
      assert live[k] in live;
      assert SvcOk(plan, svcs[live[k]], log, 4, {});
    }
  }

  /** The first k live services have what could not be carried noted; the others
      are as they were. */
  ghost predicate Noted(start: seq<Svc>, svcs: seq<Svc>, live: seq<nat>, k: nat) {
    && |svcs| == |start| && k <= |live| && (forall m | 0 <= m < |live| :: live[m] < |svcs|)
    && (forall m | k <= m < |live| :: svcs[live[m]] == start[live[m]])
    && (forall i | 0 <= i < |svcs| :: NotedAs(start[i], svcs[i]))
  }

  predicate NotedAs(a: Svc, b: Svc) { b == a.(carry := b.carry) && SameCarry(a.carry, b.carry) }

  lemma NotedOne(start: seq<Svc>, before: seq<Svc>, svcs: seq<Svc>, live: seq<nat>, c: Carried, k: nat)
    requires Noted(start, before, live, k) && k < |live| && Increasing(live) && SameCarry(start[live[k]].carry, c)
    requires svcs == before[live[k] := before[live[k]].(carry := c)]
    ensures Noted(start, svcs, live, k + 1)
  {
    forall m | k + 1 <= m < |live| ensures svcs[live[m]] == start[live[m]] { assert live[k] < live[m]; }
  }

  lemma NoneYet(plan: Plan, svcs: seq<Svc>, log: Log, done: set<nat>, idxs: seq<nat>)
    requires RunOk(plan, svcs, log, 5, done, {}) && Of(idxs) !! done && forall i | i in idxs :: i < |svcs|
    ensures forall i | i in idxs :: svcs[i].session.None?
  {
    forall i | i in idxs ensures svcs[i].session.None? {
      assert i in Of(idxs);
      assert SvcOk(plan, svcs[i], log, 4, {});
    }
  }

  /** The first k of these services have a session or are out; nothing else
      changed. */
  ghost predicate AnsweredSome(start: seq<Svc>, svcs: seq<Svc>, idxs: seq<nat>, k: nat) {
    && |svcs| == |start| && k <= |idxs| && (forall m | 0 <= m < |idxs| :: idxs[m] < |svcs|)
    && (forall m | 0 <= m < k :: HasEnded(svcs[idxs[m]]))
    && (forall m | k <= m < |idxs| :: svcs[idxs[m]] == start[idxs[m]])
    && (forall i | 0 <= i < |svcs| && i !in idxs :: svcs[i] == start[i])
  }

  predicate HasEnded(s: Svc) { s.Live() ==> s.session.Some? }

  lemma AnsweredNone(svcs: seq<Svc>, idxs: seq<nat>)
    requires forall i | i in idxs :: i < |svcs|
    ensures AnsweredSome(svcs, svcs, idxs, 0)
  {
    assert forall m | 0 <= m < |idxs| :: idxs[m] in idxs;
  }

  lemma AnsweredMore(start: seq<Svc>, before: seq<Svc>, svcs: seq<Svc>, idxs: seq<nat>, k: nat)
    requires AnsweredSome(start, before, idxs, k) && Increasing(idxs) && k < |idxs| && |svcs| == |before| && HasEnded(svcs[idxs[k]])
    requires forall j | 0 <= j < |svcs| && j != idxs[k] :: svcs[j] == before[j]
    ensures AnsweredSome(start, svcs, idxs, k + 1)
  {}

  lemma AnsweredNext(start: seq<Svc>, svcs: seq<Svc>, idxs: seq<nat>, k: nat)
    requires AnsweredSome(start, svcs, idxs, k) && k < |idxs|
    requires forall i | i in idxs :: i < |start| && start[i].Live() && start[i].session.None?
    ensures svcs[idxs[k]].Live() && svcs[idxs[k]].session.None?
  {
    assert idxs[k] in idxs;
  }

  lemma WeakerThrough(a: seq<Svc>, b: seq<Svc>, c: seq<Svc>)
    requires Weaker(a, b) && Weaker(b, c)
    ensures Weaker(a, c)
  {}

  lemma OfMore(idxs: seq<nat>, k: nat)
    requires k < |idxs|
    ensures Of(idxs[..k + 1]) == Of(idxs[..k]) + {idxs[k]}
  {
    assert idxs[..k + 1] == idxs[..k] + [idxs[k]];
  }

  lemma AnsweredAll(start: seq<Svc>, svcs: seq<Svc>, idxs: seq<nat>)
    requires AnsweredSome(start, svcs, idxs, |idxs|)
    ensures forall i | i in idxs && svcs[i].Live() :: svcs[i].session.Some?
    ensures forall i | 0 <= i < |svcs| && i !in idxs :: svcs[i] == start[i]
  {
    forall i | i in idxs ensures HasEnded(svcs[i]) { var m :| 0 <= m < |idxs| && idxs[m] == i; }
  }

  lemma DeadAreDone(plan: Plan, svcs: seq<Svc>, log: Log, done: set<nat>, idxs: seq<nat>)
    requires RunOk(plan, svcs, log, 5, done, {}) && forall i | i in idxs :: i < |svcs| && !svcs[i].Live()
    ensures RunOk(plan, svcs, log, 5, done + Of(idxs), {})
  {
    forall i | 0 <= i < |svcs| ensures SvcOk(plan, svcs[i], log, if i in done + Of(idxs) then 5 else 4, {}) {
      assert SvcOk(plan, svcs[i], log, if i in done then 5 else 4, {});
    }
  }

  lemma Launched(plan: Plan, svcs: seq<Svc>, log: Log, done: set<nat>, i: nat, session: string)
    requires RunOk(plan, svcs, log, 5, done, {}) && i < |svcs| && svcs[i].Live()
    ensures RunOk(plan, svcs[i := svcs[i].(session := Some(session))], log, 5, done + {i}, {})
  {
    var more := svcs[i := svcs[i].(session := Some(session))];
    forall j | 0 <= j < |more| ensures SvcOk(plan, more[j], log, if j in done + {i} then 5 else 4, {}) {
      assert SvcOk(plan, svcs[j], log, if j in done then 5 else 4, {});
    }
  }

  lemma NowTold(project: string, log: Log, s: string, session: string, left: Left)
    requires IsListed(project, log, s, session)
    ensures IsListed(project, log + [Told(s, session, left)], s, session) && WasTold(log + [Told(s, session, left)], s, session)
  {
    var e, ls :| e in log && e.Sessions? && ls in LiveSessionsOf(e.list, project, s) && ls.id == session;
    assert e in log + [Told(s, session, left)];
    assert Told(s, session, left) in log + [Told(s, session, left)];
  }

  /** Every entering service is in fast mode, or out of the run. */
  lemma EnteredAll(plan: Plan, svcs: seq<Svc>, log: Log, done: set<nat>)
    requires RunOk(plan, svcs, log, 4, done, {})
    requires forall i | 0 <= i < |svcs| && svcs[i].Live() && svcs[i].entry :: i in done
    ensures RunOk(plan, svcs, log, 5, {}, {})
  {
    forall i | 0 <= i < |svcs| ensures SvcOk(plan, svcs[i], log, 4, {}) {
      assert SvcOk(plan, svcs[i], log, if i in done then 4 else 3, {});
    }
  }

  lemma AreEntering(plan: Plan, svcs: seq<Svc>, log: Log, done: set<nat>, idxs: seq<nat>)
    requires RunOk(plan, svcs, log, 4, done, {}) && idxs != []
    requires forall i | i in idxs :: i < |svcs| && svcs[i].Live() && svcs[i].entry
    ensures !plan.noBuild && NamesOf(NamesAt(svcs, idxs)) <= plan.entering
    ensures forall i | i in idxs :: svcs[i].session.None?
    ensures forall s | s in NamesOf(NamesAt(svcs, idxs)) :: IsLive(svcs, s)
  {
    NamesAreLive(svcs, idxs);
    forall i | i in idxs ensures svcs[i].row.service in plan.entering && !plan.noBuild && svcs[i].session.None? {
      assert SvcOk(plan, svcs[i], log, if i in done then 4 else 3, {});
    }
    assert idxs[0] in idxs;
  }

  /** The services are in fast mode, or about to be taken out. */
  ghost predicate UpGoesOn(plan: Plan, svcs: seq<Svc>, log: Log, done: set<nat>, idxs: seq<nat>, ok: bool)
  {
    && !plan.noBuild && (forall i | i in idxs :: i < |svcs| && svcs[i].session.None?)
    && (ok ==> RunOk(plan, svcs, log, 4, done, {}) && forall i | i in idxs :: IsInFastMode(plan, log, svcs[i].row.service))
    && (!ok ==> RunOk(plan, svcs, log, 4, done, NamesOf(NamesAt(svcs, idxs))))
  }

  lemma UpActed(plan: Plan, svcs: seq<Svc>, log: Log, done: set<nat>, idxs: seq<nat>, e: Event)
    requires RunOk(plan, svcs, log, 4, done, {}) && idxs != []
    requires forall i | i in idxs :: i < |svcs| && svcs[i].Live() && svcs[i].entry
    requires e.Recreated? && e.services == NamesOf(NamesAt(svcs, idxs)) && Once(log, e)
    ensures UpGoesOn(plan, svcs, log + [e], done, idxs, e.ok)
  {
    AreEntering(plan, svcs, log, done, idxs);
    Acted(plan, svcs, log, 4, done, e);
    if e.ok {
      forall i | i in idxs ensures IsInFastMode(plan, log + [e], svcs[i].row.service) { NowInFastMode(plan, log, e, svcs[i].row.service); }
    }
  }

  lemma NowInFastMode(plan: Plan, log: Log, e: Event, s: string)
    requires e.Recreated? && e.ok && s in e.services
    ensures IsInFastMode(plan, log + [e], s)
  {
    assert e in log + [e];
  }

  /** The entering services have distinct names and none of the containers the
      override made. */
  lemma HaveProjects(plan: Plan, svcs: seq<Svc>, log: Log, idxs: seq<nat>)
    requires RunOk(plan, svcs, log, 4, {}, {}) && forall i | i in idxs :: i < |svcs| && svcs[i].Live() && svcs[i].entry
    ensures plan.hope ==> forall i | i in idxs :: svcs[i].projectRel != ""
  {
    forall i | i in idxs && plan.hope ensures svcs[i].projectRel != "" { assert SvcOk(plan, svcs[i], log, 3, {}); }
  }

  predicate OwnOf(svcs: seq<Svc>, idxs: seq<nat>, own: seq<Fragment>) {
    |own| == |idxs| && forall m | 0 <= m < |idxs| :: idxs[m] < |svcs| && own[m] == OwnFragment(svcs[idxs[m]])
  }

  /** Fragments of services that have a build directory and a project, and those
      that are there already, make an override if there is room. */
  lemma CanBeWritten(path: string, svcs: seq<Svc>, entering: seq<nat>, file: OverrideFile, dirs: set<string>,
                     own: seq<Fragment>, staying: seq<Fragment>)
    requires HasRoom(Rows(svcs), file) && entering != [] && OwnOf(svcs, entering, own) && (file.Written? ==> Recordable(path, file.services))
    requires forall i | i in entering :: i < |svcs| && svcs[i].row.service in dirs && svcs[i].projectRel != ""
    requires forall i, j | 0 <= i < j < |own| :: own[i].name != own[j].name
    requires forall i, j | 0 <= i < j < |staying| :: staying[i].name != staying[j].name
    requires AllRecorded(path, Reads(file), dirs, staying)
    requires forall f | f in staying :: f.name !in set g | g in own :: g.name
    ensures Writable(dirs, own + staying)
  {
    var frags := own + staying;
    forall i, j | 0 <= i < j < |frags| ensures frags[i].name != frags[j].name {
      if i < |own| && j >= |own| { assert own[i] in own && staying[j - |own|] in staying; }
    }
    var names := (set r | r in Rows(svcs) :: r.service) + Reads(file).Keys;
    forall f | f in frags ensures f.name in dirs && f.project != "" && f.name in names {
      if f in own {
        var m :| 0 <= m < |own| && own[m] == f;
        assert entering[m] in entering && Rows(svcs)[entering[m]] == svcs[entering[m]].row;
      }
    }
    NoMoreThan(frags, names);
  }

  lemma {:induction false} NoMoreThan(frags: seq<Fragment>, names: set<string>)
    requires forall i, j | 0 <= i < j < |frags| :: frags[i].name != frags[j].name
    requires forall f | f in frags :: f.name in names
    ensures |frags| <= |names|
  {
    if frags != [] {
      var less, f := frags[..|frags| - 1], frags[|frags| - 1];
      assert f in frags;
      forall g | g in less ensures g.name in names - {f.name} {
        var i :| 0 <= i < |less| && less[i] == g;
        assert frags[i].name != f.name && g in frags;
      }
      NoMoreThan(less, names - {f.name});
    }
  }

  lemma AreRecorded(path: string, svcs: seq<Svc>, entering: seq<nat>, own: seq<Fragment>, staying: seq<Fragment>)
    requires OwnOf(svcs, entering, own)
    requires forall i, j | 0 <= i < j < |own + staying| :: (own + staying)[i].name != (own + staying)[j].name
    ensures forall i | i in entering :: i < |svcs| && svcs[i].row.service in FileOf(path, own + staying)
  {
    forall i | i in entering ensures i < |svcs| && svcs[i].row.service in FileOf(path, own + staying) {
      var m :| 0 <= m < |entering| && entering[m] == i;
      assert (own + staying)[m] == own[m];
      FileHas(path, own + staying, m);
    }
  }

  /** The service's one container is as the override records it. */
  predicate OneMade(cs: Containers, rec: Records, s: string) {
    s in rec && exists id | id in cs :: IsOnly(cs, s, id) && cs[id].fast == Some(rec[s])
  }

  lemma NowOneMade(path: string, rec: Records, dirs: set<string>, cs: Containers, made: set<string>, services: set<string>,
                   cs': Containers, made': set<string>, s: string)
    requires UpResult(path, rec, dirs, cs, made, services, true, true, cs', made') && s in services && s in rec && OneContainer(cs', s)
    ensures OneMade(cs', rec, s)
  {
    var id :| id in cs' && IsOnly(cs', s, id);
    assert id !in cs;
  }

  lemma StillOneMade(path: string, rec: Records, dirs: set<string>, cs: Containers, made: set<string>, services: set<string>, ok: bool,
                     cs': Containers, made': set<string>, s: string)
    requires UpResult(path, rec, dirs, cs, made, services, true, ok, cs', made') && s !in services && OneMade(cs, rec, s)
    ensures OneMade(cs', rec, s)
  {
    var id :| id in cs && IsOnly(cs, s, id) && cs[id].fast == Some(rec[s]);
    assert id in cs' && cs'[id] == cs[id];
    forall o | o in cs' && o != id ensures cs'[o].service != s { if o in cs { assert cs'[o] == cs[o]; } }
    assert IsOnly(cs', s, id);
  }

  /** Each of the services has one container now, and so have those that had. */
  ghost predicate OneMadeNow(cs: Containers, cs': Containers, rec: Records, services: set<string>) {
    && (forall s | s in services :: OneMade(cs', rec, s))
    && (forall s | s !in services && OneMade(cs, rec, s) :: OneMade(cs', rec, s))
  }

  lemma UpMakesOne(path: string, rec: Records, dirs: set<string>, cs: Containers, made: set<string>, services: set<string>,
                   cs': Containers, made': set<string>)
    requires UpResult(path, rec, dirs, cs, made, services, true, true, cs', made') && OneEach(cs', services)
    requires forall s | s in services :: s in rec
    ensures OneMadeNow(cs, cs', rec, services)
  {
    forall s | s in services ensures OneMade(cs', rec, s) { NowOneMade(path, rec, dirs, cs, made, services, cs', made', s); }
    forall s | s !in services && OneMade(cs, rec, s) ensures OneMade(cs', rec, s) {
      StillOneMade(path, rec, dirs, cs, made, services, true, cs', made', s);
    }
  }

  lemma OnlyTheirs(svcs: seq<Svc>, idxs: seq<nat>)
    requires forall i | i in idxs :: i < |svcs|
    ensures forall s | s in NamesOf(NamesAt(svcs, idxs)) :: exists i | i in idxs :: svcs[i].row.service == s
  {
    forall s | s in NamesOf(NamesAt(svcs, idxs)) ensures exists i | i in idxs :: svcs[i].row.service == s {
      var k :| 0 <= k < |idxs| && NamesAt(svcs, idxs)[k] == s;
      assert idxs[k] in idxs;
    }
  }

  /** The services that were recreated have one container each. */
  ghost predicate AllOneMade(cs: Containers, rec: Records, start: seq<Svc>, done: set<nat>) {
    forall i | i in done && i < |start| :: OneMade(cs, rec, start[i].row.service)
  }

  lemma MoreOneMade(cs: Containers, cs': Containers, rec: Records, start: seq<Svc>, svcs: seq<Svc>, entering: seq<nat>,
                    parts: seq<seq<nat>>, p: nat, done: set<nat>)
    requires AllOneMade(cs, rec, start, done) && p < |parts| && forall i | i in parts[p] :: i < |svcs| && i < |start| && svcs[i] == start[i]
    requires OneMadeNow(cs, cs', rec, NamesOf(NamesAt(svcs, parts[p])))
    ensures AllOneMade(cs', rec, start, done + Of(parts[p]))
  {
    forall i | i in done + Of(parts[p]) && i < |start| ensures OneMade(cs', rec, start[i].row.service) {
      if i in parts[p] { assert start[i].row.service in NamesAt(svcs, parts[p]); }
      if i in done { assert OneMade(cs, rec, start[i].row.service); }
    }
  }

  /** The list has each container with fast-mode labels once. */
  ghost predicate AllListed(cs: Containers, fast: seq<Listed>) {
    && (forall c | c in fast :: c.id in cs && c.service == cs[c.id].service)
    && (forall id | id in cs && cs[id].fast.Some? :: Listed(id, cs[id].service) in fast)
    && (forall i, j | 0 <= i < j < |fast| :: fast[i].id != fast[j].id)
  }

  /** Its one container is the one that is listed. */
  lemma OneMadeIsListed(path: string, cs: Containers, rec: Records, s: string, fast: seq<Listed>)
    requires OneMade(cs, rec, s) && Recordable(path, rec) && AllListed(cs, fast)
    ensures exists id :: OneListed(fast, s, id)
    ensures forall id | OneListed(fast, s, id) :: id in cs && Idles(path, Some(cs[id]), cs[id].fast)
  {
    var id :| id in cs && IsOnly(cs, s, id) && cs[id].fast == Some(rec[s]);
    var k :| 0 <= k < |fast| && fast[k] == Listed(id, s);
    forall m | 0 <= m < |fast| && m != k ensures fast[m].service != s {
      assert fast[m] in fast;
      assert m < k || k < m;
    }
    assert OneListed(fast, s, id);
    forall o | OneListed(fast, s, o) ensures o == id {
      var j :| 0 <= j < |fast| && fast[j] == Listed(o, s) && forall m | 0 <= m < |fast| && m != j :: fast[m].service != s;
    }
  }

  /** What the override says of a service that enters fast mode. */
  function OwnFragment(s: Svc): Fragment { Fragment(s.row.service, s.dll, s.appDir, s.projectRel) }

  lemma OwnAreFresh(cs: Containers, made: set<string>, svcs: seq<Svc>, entering: seq<nat>, own: seq<Fragment>)
    requires Fits(cs, made, svcs) && DistinctLive(svcs) && Increasing(entering)
    requires forall i | i in entering :: i < |svcs| && svcs[i].Live() && svcs[i].entry
    requires OwnOf(svcs, entering, own)
    ensures forall i, j | 0 <= i < j < |own| :: own[i].name != own[j].name
    ensures forall id, f | id in made && id in cs && f in own :: cs[id].service != f.name
  {
    assert forall m | 0 <= m < |entering| :: entering[m] in entering;
    forall f | f in own ensures forall id | id in made && id in cs :: cs[id].service != f.name {
      var m :| 0 <= m < |own| && own[m] == f;
      assert FitsOne(cs, made, svcs[entering[m]]);
    }
  }

  function FilesWithout(files: seq<string>, override: string): seq<string> {
    if files == [] then []
    else (if files[0] == override then [] else [files[0]]) + FilesWithout(files[1..], override)
  }

  /** The compose files a service was created from, without any override of
      eyedbg's, and their directory. */
  function UpKey(path: string, s: Svc): ComposeRef {
    if s.c.None? then ("", [])
    else
      var files := if s.fast.Some? then FilesWithout(s.c.value.configFiles, s.fast.value.override) else s.c.value.configFiles;
      (s.c.value.composeDir, FilesWithout(files, path))
  }

  function UpKeys(path: string, svcs: seq<Svc>, idxs: seq<nat>): seq<ComposeRef>
    requires forall i | i in idxs :: i < |svcs|
  {
    seq(|idxs|, k requires 0 <= k < |idxs| => assert idxs[k] in idxs; UpKey(path, svcs[idxs[k]]))
  }

  lemma NothingToReplace(plan: Plan, svcs: seq<Svc>, log: Log)
    requires plan.noBuild && RunOk(plan, svcs, log, 3, {}, {})
    ensures RunOk(plan, svcs, log, 4, {}, {})
  {
    forall i | 0 <= i < |svcs| ensures SvcOk(plan, svcs[i], log, 3, {}) { assert SvcOk(plan, svcs[i], log, 2, {}); }
  }

  /** The first k of these services are marked as recreated; nothing else changed. */
  ghost predicate MarkedSoFar(start: seq<Svc>, svcs: seq<Svc>, idxs: seq<nat>, k: nat) {
    && |svcs| == |start| && (forall m | 0 <= m < |idxs| :: idxs[m] < |svcs| && start[idxs[m]].Live())
    && (forall m | 0 <= m < |idxs| :: svcs[idxs[m]] == start[idxs[m]].(recreated := svcs[idxs[m]].recreated))
    && (forall m | 0 <= m < k && m < |idxs| :: svcs[idxs[m]].recreated)
    && (forall i | 0 <= i < |svcs| && i !in idxs :: svcs[i] == start[i])
  }

  lemma MarkedOne(start: seq<Svc>, before: seq<Svc>, svcs: seq<Svc>, idxs: seq<nat>, k: nat)
    requires MarkedSoFar(start, before, idxs, k) && k < |idxs|
    requires svcs == before[idxs[k] := before[idxs[k]].(recreated := true)]
    ensures MarkedSoFar(start, svcs, idxs, k + 1)
  {
    assert idxs[k] in idxs;
  }

  lemma MarkedAll(start: seq<Svc>, svcs: seq<Svc>, idxs: seq<nat>)
    requires MarkedSoFar(start, svcs, idxs, |idxs|)
    ensures Weaker(start, svcs) && forall i | 0 <= i < |svcs| && i !in idxs :: svcs[i] == start[i]
    ensures forall i | i in idxs :: i < |svcs| && svcs[i].Live() && svcs[i].recreated && svcs[i].row == start[i].row
  {
    forall i | i in idxs ensures i < |svcs| && svcs[i] == start[i].(recreated := svcs[i].recreated) && svcs[i].Live() && svcs[i].recreated {
      var m :| 0 <= m < |idxs| && idxs[m] == i;
    }
    forall i | 0 <= i < |svcs| ensures svcs[i].row == start[i].row && svcs[i].entry == start[i].entry && svcs[i].Live() == start[i].Live() {
      if i !in idxs { assert svcs[i] == start[i]; }
    }
  }

  ghost predicate StagedSoFar(svcs: seq<Svc>, idxs: seq<nat>, out: string, k: nat) {
    forall m | 0 <= m < k && m < |idxs| :: idxs[m] < |svcs| && svcs[idxs[m]].out == Some(out)
  }

  lemma StagedOne(before: seq<Svc>, svcs: seq<Svc>, idxs: seq<nat>, out: string, k: nat)
    requires k < |idxs| && idxs[k] < |before| && StagedSoFar(before, idxs, out, k)
    requires svcs == before[idxs[k] := before[idxs[k]].(out := Some(out))]
    ensures StagedSoFar(svcs, idxs, out, k + 1)
  {}

  lemma StagedAll(before: seq<Svc>, svcs: seq<Svc>, log: Log, idxs: seq<nat>, out: string)
    requires |svcs| == |before| && StagedSoFar(svcs, idxs, out, |idxs|)
    requires forall i | i in idxs :: i < |svcs| && svcs[i].row == before[i].row && IsStaged(log, before[i].row.service, out)
    ensures forall i | i in idxs :: Staged(log, svcs[i]) && IsBuilt(log, svcs[i].row.service)
  {
    forall i | i in idxs ensures Staged(log, svcs[i]) && IsBuilt(log, svcs[i].row.service) {
      var m :| 0 <= m < |idxs| && idxs[m] == i;
      var d :| d in log && d.Built? && d.ok && d.out == out && svcs[i].row.service in d.services;
    }
  }

  /** The first k entering services idle or are out; the others are as they were. */
  ghost predicate Refreshed(path: string, start: seq<Svc>, svcs: seq<Svc>, entering: seq<nat>, k: nat) {
    && |svcs| == |start| && (forall m | 0 <= m < |entering| :: entering[m] < |svcs|)
    && (forall m | 0 <= m < k && m < |entering| :: IdlesOrOut(path, svcs[entering[m]]))
    && (forall m | k <= m < |entering| :: svcs[entering[m]] == start[entering[m]])
    && (forall m | 0 <= m < |entering| :: start[entering[m]].Live() ==> start[entering[m]].recreated)
  }

  predicate IdlesOrOut(path: string, s: Svc) { s.Live() ==> Idles(path, s.c, s.fast) }

  lemma RefreshedNone(path: string, svcs: seq<Svc>, entering: seq<nat>)
    requires forall i | i in entering :: i < |svcs| && (svcs[i].Live() ==> svcs[i].recreated)
    ensures Refreshed(path, svcs, svcs, entering, 0)
  {
    forall m | 0 <= m < |entering| ensures entering[m] < |svcs| && (svcs[entering[m]].Live() ==> svcs[entering[m]].recreated) {
      assert entering[m] in entering;
    }
  }

  lemma RefreshedMore(path: string, start: seq<Svc>, before: seq<Svc>, svcs: seq<Svc>, entering: seq<nat>, k: nat)
    requires Refreshed(path, start, before, entering, k) && k < |entering| && Increasing(entering) && |svcs| == |before|
    requires svcs == before[entering[k] := svcs[entering[k]]]
    requires before[entering[k]].Live() && before[entering[k]].recreated ==> IdlesOrOut(path, svcs[entering[k]])
    requires !(before[entering[k]].Live() && before[entering[k]].recreated) ==> svcs == before
    ensures Refreshed(path, start, svcs, entering, k + 1)
  {
    forall m | 0 <= m < k + 1 ensures IdlesOrOut(path, svcs[entering[m]]) {}
  }

  lemma RefreshedAll(path: string, start: seq<Svc>, svcs: seq<Svc>, entering: seq<nat>)
    requires Refreshed(path, start, svcs, entering, |entering|)
    ensures forall i | i in entering :: IdlesOrOut(path, svcs[i])
  {
    forall i | i in entering ensures IdlesOrOut(path, svcs[i]) { var m :| 0 <= m < |entering| && entering[m] == i; }
  }

  lemma IsToMirror(plan: Plan, svcs: seq<Svc>, log: Log, done: set<nat>, i: nat)
    requires RunOk(plan, svcs, log, 3, done, {}) && i < |svcs| && svcs[i].Live() && !plan.noBuild
    ensures Staged(log, svcs[i]) && svcs[i].session.None?
  {
    assert SvcOk(plan, svcs[i], log, if i in done then 3 else 2, {});
  }

  /** The files of a live service were replaced, or would not be. */
  lemma MirrorActs(plan: Plan, svcs: seq<Svc>, log: Log, done: set<nat>, i: nat, ok: bool)
    requires RunOk(plan, svcs, log, 3, done, {}) && i < |svcs| && svcs[i].Live() && !plan.noBuild && Staged(log, svcs[i])
    ensures RunOk(plan, svcs, log + [Replaced(svcs[i].row.service, svcs[i].out.value, ok)], 3, done, if ok then {} else {svcs[i].row.service})
    ensures ok ==> Ready(plan, log + [Replaced(svcs[i].row.service, svcs[i].out.value, ok)], 3, svcs[i].row.service)
  {
    var s, e := svcs[i].row.service, Replaced(svcs[i].row.service, svcs[i].out.value, ok);
    assert IsLive(svcs, s);
    Acted(plan, svcs, log, 3, done, e);
    SvcReady(plan, svcs, log, 3, done, s);
    StaysReady(plan, log, e, 2, s);
    assert e in log + [e];
  }

  /** These services have the phase behind them. */
  lemma GroupIsDone(before: seq<Svc>, svcs: seq<Svc>, idxs: seq<nat>, plan: Plan, log: Log, phase: nat, done: set<nat>)
    requires |svcs| == |before| && phase > 0 && !plan.noBuild && RunOk(plan, svcs, log, phase, done, {})
    requires forall i | i in idxs :: i < |svcs| && svcs[i].row == before[i].row && Ready(plan, log, phase, before[i].row.service)
    requires phase == 1 ==> forall i | i in idxs :: Staged(log, svcs[i]) && (plan.hope ==> svcs[i].projectRel != "")
    ensures RunOk(plan, svcs, log, phase, done + Of(idxs), {})
  {
    forall i | 0 <= i < |svcs| ensures SvcOk(plan, svcs[i], log, if i in done + Of(idxs) then phase else phase - 1, {}) {
      assert SvcOk(plan, svcs[i], log, if i in done then phase else phase - 1, {});
    }
  }

  /** Those a failed request was for are all out. */
  lemma GroupIsOut(before: seq<Svc>, svcs: seq<Svc>, idxs: seq<nat>, plan: Plan, log: Log, phase: nat, done: set<nat>)
    requires Weaker(before, svcs) && DistinctLive(before) && phase > 0
    requires forall i | i in idxs :: i < |svcs| && before[i].Live() && !svcs[i].Live()
    requires forall i | 0 <= i < |svcs| && i !in idxs :: svcs[i] == before[i]
    requires RunOk(plan, svcs, log, phase, done, NamesOf(NamesAt(before, idxs)))
    ensures RunOk(plan, svcs, log, phase, done + Of(idxs), {})
  {
    var bad := NamesOf(NamesAt(before, idxs));
    NamesAreLive(before, idxs);
    forall s | s in bad ensures !IsLive(svcs, s) {
      var i :| i in idxs && before[i].row.service == s;
      forall j | 0 <= j < |svcs| && svcs[j].Live() ensures svcs[j].row.service != s {
        assert j !in idxs && svcs[j] == before[j];
        assert i < j || j < i;
      }
    }
    Cleared(plan, svcs, log, phase, done, bad);
    forall i | 0 <= i < |svcs| ensures SvcOk(plan, svcs[i], log, if i in done + Of(idxs) then phase else phase - 1, {}) {
      assert SvcOk(plan, svcs[i], log, if i in done then phase else phase - 1, {});
    }
  }
}
