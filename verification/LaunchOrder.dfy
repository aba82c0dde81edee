/** The order of a 'compose launch' run (internal/cli/compose_launch.go,
    execute): what may happen to a service after what. A run's log has every
    change it asks for, with how it ended. */
module LaunchOrder {
  import C = Carry

  /** A project and its assembly: what is built. */
  type Target = (string, string)

  /** A directory and the compose files in it: what is recreated from. */
  type ComposeRef = (string, seq<string>)

  datatype Event =
    | Built(what: Target, out: string, services: set<string>, ok: bool)
    | HasBuild(service: string)
    | Sessions(list: seq<SessionInfo>)
    | NoDaemon
    | Told(service: string, session: string, left: C.Left)
    | Stopped(service: string, session: string, ok: bool)
    | Replaced(service: string, from: string, ok: bool)
    | Recreated(ref: ComposeRef, services: set<string>, ok: bool)
    | Asked(services: set<string>, bps: seq<C.Spec>, mode: C.Mode)
    | Out(service: string)

  type Log = seq<Event>

  /** A session as the daemon lists it. */
  datatype SessionInfo = SessionInfo(id: string, project: string, service: string, over: bool, launched: bool)

  datatype LiveSession = LiveSession(id: string, launched: bool)

  /** The sessions of the project's services that can still be debugged. */
  function LiveSessionsOf(list: seq<SessionInfo>, project: string, service: string): (r: seq<LiveSession>)
    ensures forall ls :: ls in r <==> exists s | s in list ::
                s.project == project && s.service == service && !s.over && ls == LiveSession(s.id, s.launched)
  {
    if list == [] then []
    else
      var s := list[|list| - 1];
      LiveSessionsOf(list[..|list| - 1], project, service)
      + if s.project == project && s.service == service && !s.over then [LiveSession(s.id, s.launched)] else []
  }

  /** What a run is to do: whether it builds and what for which service, which
      services enter fast mode, and what is carried over; and whether no service
      is to be taken out. */
  datatype Plan = Plan(hope: bool, noBuild: bool, entering: set<string>, project: string, builds: map<string, Target>, carry: Carrying)

  /** Nothing is carried yet; sessions are being read; or they told this, of which
      that is carried. */
  datatype Carrying = NotYet | Now | Then(told: Log, carries: map<string, C.Carried>)

  /** What the sessions told. */
  function Tolds(log: Log): Log {
    if log == [] then [] else Tolds(log[..|log| - 1]) + if log[|log| - 1].Told? then [log[|log| - 1]] else []
  }

  lemma ToldsMore(log: Log, e: Event)
    ensures Tolds(log + [e]) == Tolds(log) + if e.Told? then [e] else []
  {
    assert (log + [e])[..|log|] == log;
  }

  function TouchedBy(e: Event): set<string> {
    match e
    case Built(_, _, ss, _) => ss
    case HasBuild(t) => {t}
    case Sessions(_) => {}
    case NoDaemon => {}
    case Told(_, _, _) => {}
    case Stopped(t, _, _) => {t}
    case Replaced(t, _, _) => {t}
    case Recreated(_, ss, _) => ss
    case Asked(ss, _, _) => ss
    case Out(_) => {}
  }

  predicate Touches(e: Event, s: string) { s in TouchedBy(e) }

  function Phase(e: Event): nat {
    match e
    case Built(_, _, _, _) => 1
    case HasBuild(_) => 1
    case Sessions(_) => 2
    case NoDaemon => 2
    case Told(_, _, _) => 2
    case Stopped(_, _, _) => 2
    case Replaced(_, _, _) => 3
    case Recreated(_, _, _) => 4
    case Asked(_, _, _) => 5
    case Out(_) => 0
  }

  predicate Failing(e: Event) {
    match e
    case Built(_, _, _, ok) => !ok
    case Stopped(_, _, ok) => !ok
    case Replaced(_, _, ok) => !ok
    case Recreated(_, _, ok) => !ok
    case _ => false
  }

  /** Nothing asked for the service failed, and it is not out of the run. */
  ghost predicate Fine(log: Log, s: string) {
    Out(s) !in log && forall d | d in log && Failing(d) :: !Touches(d, s)
  }

  /** The service's own build succeeded, or its last one is there. */
  ghost predicate IsBuilt(log: Log, s: string) {
    exists e | e in log :: (e.Built? && e.ok && s in e.services) || e == HasBuild(s)
  }

  predicate IsListing(e: Event) { e.Sessions? || e.NoDaemon? }

  /** Every live session of the service that the daemon listed was stopped; no
      daemon means no sessions. */
  ghost predicate IsQuiet(project: string, log: Log, s: string) {
    exists e | e in log && IsListing(e) :: AllStopped(project, log, e, s)
  }

  ghost predicate AllStopped(project: string, log: Log, e: Event, s: string) {
    e.Sessions? ==> forall ls | ls in LiveSessionsOf(e.list, project, s) :: Stopped(s, ls.id, true) in log
  }

  /** The session is a live one of the service, as the daemon listed them. */
  ghost predicate IsListed(project: string, log: Log, s: string, session: string) {
    exists e, ls | e in log && e.Sessions? && ls in LiveSessionsOf(e.list, project, s) :: ls.id == session
  }

  ghost predicate IsReplaced(plan: Plan, log: Log, s: string) { plan.noBuild || WasReplaced(log, s) }

  ghost predicate WasReplaced(log: Log, s: string) { exists e | e in log && e.Replaced? :: e.ok && e.service == s }

  /** A build of the service that succeeded put it there. */
  ghost predicate IsStaged(log: Log, s: string, out: string) {
    exists e | e in log && e.Built? :: e.ok && e.out == out && s in e.services
  }

  /** What the session leaves was read. */
  ghost predicate WasTold(log: Log, s: string, session: string) {
    exists e | e in log && e.Told? :: e.service == s && e.session == session
  }

  ghost predicate IsInFastMode(plan: Plan, log: Log, s: string) {
    s in plan.entering ==> exists e | e in log :: e.Recreated? && e.ok && s in e.services
  }

  /** What a service must have behind it to go on after a phase. */
  ghost predicate Ready(plan: Plan, log: Log, phase: nat, s: string) {
    && (phase >= 1 ==> IsBuilt(log, s))
    && (phase >= 2 ==> IsQuiet(plan.project, log, s))
    && (phase >= 3 ==> IsReplaced(plan, log, s))
    && (phase >= 4 ==> IsInFastMode(plan, log, s))
  }

  /** Done once: nothing is built, recreated or launched again, and the sessions
      are listed once. */
  ghost predicate Once(log: Log, e: Event) {
    && (e.Built? ==> forall d | d in log && d.Built? :: d.what != e.what && d.services !! e.services)
    && (e.Recreated? ==> forall d | d in log && d.Recreated? :: d.ref != e.ref && d.services !! e.services)
    && (e.Asked? ==> forall d | d in log && d.Asked? :: d.services !! e.services)
    && (IsListing(e) ==> forall d | d in log :: !IsListing(d))
  }

  /** What is built is each service's own project and assembly, in a directory
      that is named after one of them; without a build the last one is looked for.
      The daemon is always there. */
  ghost predicate OwnBuild(plan: Plan, e: Event) {
    && (e.Built? ==> !plan.noBuild && e.out in e.services && forall s | s in e.services :: s in plan.builds && plan.builds[s] == e.what)
    && (e.HasBuild? ==> plan.noBuild)
    && !e.NoDaemon?
  }

  /** Only a listed session is read and stopped, and it is read first. */
  ghost predicate OfListed(plan: Plan, log: Log, e: Event) {
    && (e.Told? || e.Stopped? ==> IsListed(plan.project, log, e.service, e.session))
    && (e.Stopped? ==> WasTold(log, e.service, e.session))
  }

  /** What may happen next: nothing of an earlier phase, nothing to a service
      that failed or is out, and only to one that is ready. */
  ghost predicate Allowed(plan: Plan, log: Log, e: Event) {
    && (!e.Out? ==> forall d | d in log :: Phase(d) <= Phase(e))
    && (forall s | Touches(e, s) :: Fine(log, s))
    && (forall s | Touches(e, s) && Phase(e) > 1 :: Ready(plan, log, Phase(e) - 1, s))
    && (e.Replaced? || e.Recreated? ==> !plan.noBuild)
    && (e.Recreated? ==> e.services <= plan.entering)
    && OfListed(plan, log, e) && (e.Replaced? ==> IsStaged(log, e.service, e.from))
    && Once(log, e) && OwnBuild(plan, e)
  }

  /** The contract of the stage order, over a whole run. */
  ghost predicate Ordered(plan: Plan, log: Log) {
    log == [] || (Ordered(plan, log[..|log| - 1]) && Allowed(plan, log[..|log| - 1], log[|log| - 1]))
  }

  lemma {:induction false} OrderedAt(plan: Plan, log: Log, i: nat)
    requires Ordered(plan, log) && i < |log|
    ensures Allowed(plan, log[..i], log[i])
  {
    if i < |log| - 1 {
      OrderedAt(plan, log[..|log| - 1], i);
      assert log[..|log| - 1][..i] == log[..i];
    }
  }

  lemma {:induction false} OrderedWhen(plan: Plan, log: Log)
    requires forall i | 0 <= i < |log| :: Allowed(plan, log[..i], log[i])
    ensures Ordered(plan, log)
  {
    if log != [] {
      var less := log[..|log| - 1];
      forall i | 0 <= i < |less| ensures Allowed(plan, less[..i], less[i]) { assert less[..i] == log[..i]; }
      OrderedWhen(plan, less);
    }
  }

  lemma Follows(plan: Plan, log: Log, e: Event)
    requires Ordered(plan, log) && Allowed(plan, log, e)
    ensures Ordered(plan, log + [e])
  {
    assert (log + [e])[..|log|] == log;
  }

  lemma StaysQuiet(project: string, log: Log, e: Event, s: string)
    requires IsQuiet(project, log, s)
    ensures IsQuiet(project, log + [e], s)
  {
    var d :| d in log && IsListing(d) && AllStopped(project, log, d, s);
    assert d in log + [e] && AllStopped(project, log + [e], d, s);
  }

  lemma StaysReady(plan: Plan, log: Log, e: Event, phase: nat, s: string)
    requires Ready(plan, log, phase, s)
    ensures Ready(plan, log + [e], phase, s)
  {
    if phase >= 1 {
      var d :| d in log && ((d.Built? && d.ok && s in d.services) || d == HasBuild(s));
      assert d in log + [e];
    }
    if phase >= 2 { StaysQuiet(plan.project, log, e, s); }
    if phase >= 3 && !plan.noBuild {
      var d :| d in log && d.Replaced? && d.ok && d.service == s;
      assert d in log + [e];
    }
    if phase >= 4 && s in plan.entering {
      var d :| d in log && d.Recreated? && d.ok && s in d.services;
      assert d in log + [e];
    }
  }

  lemma IsOnList(project: string, log: Log, list: seq<SessionInfo>, s: string, session: LiveSession)
    requires Sessions(list) in log && session in LiveSessionsOf(list, project, s)
    ensures IsListed(project, log, s, session.id)
  {
    var e := Sessions(list);
    assert e in log && session in LiveSessionsOf(e.list, project, s);
  }

  ghost predicate AreStopped(s: string, live: seq<LiveSession>, k: nat, log: Log) {
    forall m | 0 <= m < k && m < |live| :: Stopped(s, live[m].id, true) in log
  }

  lemma OneMoreStopped(s: string, live: seq<LiveSession>, k: nat, log: Log, log': Log)
    requires AreStopped(s, live, k, log) && k < |live| && log <= log' && Stopped(s, live[k].id, true) in log'
    ensures AreStopped(s, live, k + 1, log')
  {}

  lemma NowQuiet(project: string, log: Log, list: seq<SessionInfo>, s: string, live: seq<LiveSession>)
    requires Sessions(list) in log && live == LiveSessionsOf(list, project, s)
    requires AreStopped(s, live, |live|, log)
    ensures IsQuiet(project, log, s)
  {
    assert AllStopped(project, log, Sessions(list), s);
  }

  // ------------------------------------------------------- what the order means

  /** All builds come before all stops, and so on. */
  lemma PhasesInOrder(plan: Plan, log: Log, i: nat, j: nat)
    requires Ordered(plan, log) && i < j < |log| && !log[j].Out?
    ensures Phase(log[i]) <= Phase(log[j])
  {
    OrderedAt(plan, log, j);
    assert log[i] in log[..j];
  }

  /** The event built the service's own project and assembly, or found its last
      build. */
  predicate BuildsIt(plan: Plan, e: Event, s: string) {
    || e == HasBuild(s)
    || (e.Built? && e.ok && s in e.services && s in plan.builds && e.what == plan.builds[s])
  }

  lemma BuiltBefore(plan: Plan, log: Log, j: nat, s: string)
    requires Ordered(plan, log) && j <= |log| && IsBuilt(log[..j], s)
    ensures exists i | 0 <= i < j :: BuildsIt(plan, log[i], s)
  {
    var e :| e in log[..j] && ((e.Built? && e.ok && s in e.services) || e == HasBuild(s));
    var i :| 0 <= i < j && log[..j][i] == e;
    assert log[i] == e && OwnBuild(plan, log[i]) by { OrderedAt(plan, log, i); }
  }

  /** A listed session is stopped, and only after its own service's project and
      assembly were built, or its last build was found. */
  lemma StopsAfterBuild(plan: Plan, log: Log, j: nat)
    requires Ordered(plan, log) && j < |log| && log[j].Stopped?
    ensures IsListed(plan.project, log[..j], log[j].service, log[j].session) && WasTold(log[..j], log[j].service, log[j].session)
    ensures exists i | 0 <= i < j :: BuildsIt(plan, log[i], log[j].service)
  {
    OrderedAt(plan, log, j);
    assert Touches(log[j], log[j].service);
    BuiltBefore(plan, log, j, log[j].service);
  }

  /** The sessions are listed once. */
  lemma OneListing(plan: Plan, log: Log, i: nat, j: nat)
    requires Ordered(plan, log) && i < j < |log| && IsListing(log[i])
    ensures !IsListing(log[j])
  {
    OrderedAt(plan, log, j);
    assert log[i] in log[..j];
  }

  /** A service is built, recreated and launched once each. */
  lemma OnceEach(plan: Plan, log: Log, i: nat, j: nat, s: string)
    requires Ordered(plan, log) && i < j < |log| && Touches(log[i], s) && Touches(log[j], s)
    ensures !(log[i].Built? && log[j].Built?) && !(log[i].Recreated? && log[j].Recreated?) && !(log[i].Asked? && log[j].Asked?)
  {
    OrderedAt(plan, log, j);
    assert log[i] in log[..j] && Once(log[..j], log[j]);
  }

  lemma SameListing(plan: Plan, log: Log, d: Event, e: Event)
    requires Ordered(plan, log) && d in log && e in log && IsListing(d) && IsListing(e)
    ensures d == e
  {
    var i :| 0 <= i < |log| && log[i] == d;
    var k :| 0 <= k < |log| && log[k] == e;
    if i < k { OneListing(plan, log, i, k); }
    if k < i { OneListing(plan, log, k, i); }
  }

  /** There is one listing: a service is quiet of that one. */
  lemma QuietOfListed(plan: Plan, log: Log, j: nat, list: seq<SessionInfo>, s: string)
    requires Ordered(plan, log) && j < |log| && Sessions(list) in log && IsQuiet(plan.project, log[..j], s)
    ensures AllStopped(plan.project, log[..j], Sessions(list), s)
  {
    var e :| e in log[..j] && IsListing(e) && AllStopped(plan.project, log[..j], e, s);
    assert e in log;
    SameListing(plan, log, e, Sessions(list));
  }

  /** A service's files are replaced only after all its sessions, of those the
      daemon listed, stopped. */
  lemma ReplacesAfterStops(plan: Plan, log: Log, j: nat, list: seq<SessionInfo>, session: SessionInfo)
    requires Ordered(plan, log) && j < |log| && log[j].Replaced? && Sessions(list) in log
    requires session in list && session.project == plan.project && session.service == log[j].service && !session.over
    ensures Stopped(log[j].service, session.id, true) in log[..j]
  {
    OrderedAt(plan, log, j);
    assert Touches(log[j], log[j].service);
    QuietOfListed(plan, log, j, list, log[j].service);
    assert LiveSession(session.id, session.launched) in LiveSessionsOf(list, plan.project, log[j].service);
  }

  /** A service's files are replaced with those of its own project and assembly:
      by what the one build left that was given the directory. */
  lemma ReplacesWithOwnBuild(plan: Plan, log: Log, j: nat)
    requires Ordered(plan, log) && j < |log| && log[j].Replaced?
    ensures exists i | 0 <= i < j && log[i].Built? ::
              && log[i].ok && log[i].out == log[j].from && log[j].service in log[i].services
              && log[j].service in plan.builds && log[i].what == plan.builds[log[j].service]
              && forall k | 0 <= k < |log| && log[k].Built? && k != i :: log[k].out != log[j].from
  {
    OrderedAt(plan, log, j);
    var e :| e in log[..j] && e.Built? && e.ok && e.out == log[j].from && log[j].service in e.services;
    var i :| 0 <= i < j && log[..j][i] == e;
    OrderedAt(plan, log, i);
    forall k | 0 <= k < |log| && log[k].Built? && k != i ensures log[k].out != log[j].from { OutsApart(plan, log, i, k); }
  }

  /** Two builds have two directories. */
  lemma OutsApart(plan: Plan, log: Log, i: nat, k: nat)
    requires Ordered(plan, log) && i < |log| && k < |log| && i != k && log[i].Built? && log[k].Built?
    ensures log[k].out != log[i].out
  {
    OrderedAt(plan, log, i);
    OrderedAt(plan, log, k);
    if i < k { assert log[i] in log[..k]; } else { assert log[k] in log[..i]; }
  }

  /** A container is recreated only after its service's own files were replaced. */
  lemma RecreatesAfterReplace(plan: Plan, log: Log, j: nat, s: string)
    requires Ordered(plan, log) && j < |log| && log[j].Recreated? && s in log[j].services
    ensures WasReplaced(log[..j], s)
  {
    OrderedAt(plan, log, j);
    assert Touches(log[j], s) && Ready(plan, log[..j], 3, s);
  }

  /** An app is launched last: on files that were replaced, in a container that
      was recreated if it was not in fast mode. */
  lemma LaunchesLast(plan: Plan, log: Log, j: nat, s: string)
    requires Ordered(plan, log) && j < |log| && log[j].Asked? && s in log[j].services
    ensures plan.noBuild || WasReplaced(log[..j], s)
    ensures s in plan.entering ==> exists e | e in log[..j] :: e.Recreated? && e.ok && s in e.services
    ensures forall k | j < k < |log| :: log[k].Asked? || log[k].Out?
  {
    OrderedAt(plan, log, j);
    assert Touches(log[j], s) && Ready(plan, log[..j], 4, s);
    forall k | j < k < |log| ensures log[k].Asked? || log[k].Out? {
      if !log[k].Out? { PhasesInOrder(plan, log, j, k); }
    }
  }

  /** What failed or is out of the run is never changed again. */
  lemma FailedStaysFailed(plan: Plan, log: Log, i: nat, j: nat, s: string)
    requires Ordered(plan, log) && i < j < |log|
    requires log[i] == Out(s) || (Failing(log[i]) && Touches(log[i], s))
    ensures !Touches(log[j], s)
  {
    OrderedAt(plan, log, j);
    assert log[i] in log[..j];
  }
}
