/** One 'compose restore' run (internal/cli/compose_restore.go), and any sequence
    of launch and restore runs over one project. */
module Restore {
  import opened Wrappers
  import opened Sorting
  import opened LaunchOrder
  import opened FastMode
  import opened Grouping
  import L = Launch

  /** One service of a restore run. */
  datatype Svc = Svc(service: string, id: Option<string>, composeDir: string, files: seq<string>, skipped: bool, failed: bool, restored: bool)
  {
    predicate Live() { !skipped && !failed }
  }

  /** Distinct names, sorted. */
  ghost predicate Strictly(names: seq<string>) {
    forall i, j | 0 <= i < j < |names| :: names[i] != names[j] && StrLe(names[i], names[j])
  }

  lemma StrOrder()
    ensures TotalOrder(StrLe)
  {
    KeyOrder((s: string) => s, StrLe);
  }

  lemma StrictlyMore(names: seq<string>, n: string)
    requires Strictly(names) && (names != [] ==> names[|names| - 1] != n && StrLe(names[|names| - 1], n))
    ensures Strictly(names + [n])
  {
    forall j | 0 <= j < |names| ensures names[j] != n && StrLe(names[j], n) {
      var last := names[|names| - 1];
      if j < |names| - 1 {
        StrLeTransitive(names[j], last, n);
        StrLeTotal(names[j], last);
      }
    }
  }

  /** A sorted list, each name once. */
  method Compact(sorted: seq<string>) returns (r: seq<string>)
    requires Sorted(sorted, StrLe)
    ensures Strictly(r) && forall n :: n in r <==> n in sorted
  {
    r := [];
    for i := 0 to |sorted|
      invariant Strictly(r) && forall n :: n in r <==> n in sorted[..i]
      invariant if i == 0 then r == [] else r != [] && r[|r| - 1] == sorted[i - 1]
    {
      assert sorted[..i + 1] == sorted[..i] + [sorted[i]];
      if r == [] || r[|r| - 1] != sorted[i] {
        StrictlyMore(r, sorted[i]);
        r := r + [sorted[i]];
      }
    }
    assert sorted[..|sorted|] == sorted;
  }

  method SortedOnce(names: seq<string>) returns (r: seq<string>)
    ensures Strictly(r) && forall n :: n in r <==> n in names
  {
    var sorted := Sort(names, StrLe);
    StrOrder();
    SortSorts(names, StrLe);
    r := Compact(sorted);
    forall n ensures n in sorted <==> n in names { assert n in multiset(sorted) <==> n in multiset(names); }
  }

  // ---------------------------------------------------------------- contract

  /** What may happen next in a restore: the sessions are listed once, and first;
      a listed session is stopped; a container is recreated only after all its
      service's sessions ended, and once. Nothing is asked for after a failure. */
  ghost predicate MayHappen(project: string, log: Log, e: Event) {
    && (e.Stopped? || e.Recreated? || (IsListing(e) && log == []))
    && (e.Stopped? ==> IsListed(project, log, e.service, e.session) && forall d | d in log :: !d.Recreated?)
    && (forall s | Touches(e, s) :: Fine(log, s) && (e.Recreated? ==> IsQuiet(project, log, s)))
    && Once(log, e)
  }

  ghost predicate RestoreOrder(project: string, log: Log) {
    forall i | 0 <= i < |log| :: MayHappen(project, log[..i], log[i])
  }

  lemma Happened(project: string, log: Log, e: Event)
    requires RestoreOrder(project, log) && MayHappen(project, log, e)
    ensures RestoreOrder(project, log + [e])
  {
    var more := log + [e];
    forall i | 0 <= i < |more| ensures MayHappen(project, more[..i], more[i]) {
      assert more[..i] == log[..i];
      if i == |log| { assert log[..i] == log; }
    }
  }

  /** In a restore's log, a service is recreated only after every session that
      the daemon listed as live of it was stopped. */
  lemma RecreatesAfterStops(project: string, log: Log, j: nat, list: seq<SessionInfo>, session: SessionInfo)
    requires RestoreOrder(project, log) && j < |log| && log[j].Recreated? && Sessions(list) in log
    requires session in list && session.project == project && session.service in log[j].services && !session.over
    ensures Stopped(session.service, session.id, true) in log[..j]
  {
    assert MayHappen(project, log[..j], log[j]) && Touches(log[j], session.service);
    var e :| e in log[..j] && IsListing(e) && AllStopped(project, log[..j], e, session.service);
    IsFirst(project, log, e);
    IsFirst(project, log, Sessions(list));
    assert LiveSession(session.id, session.launched) in LiveSessionsOf(list, project, session.service);
  }

  lemma IsFirst(project: string, log: Log, e: Event)
    requires RestoreOrder(project, log) && e in log && IsListing(e)
    ensures e == log[0]
  {
    var i :| 0 <= i < |log| && log[i] == e;
    assert MayHappen(project, log[..i], log[i]) && |log[..i]| == i;
  }

  ghost predicate Selects(svcs: seq<Svc>, n: string) { exists s :: s in svcs && s.service == n }

  ghost predicate DistinctNames(svcs: seq<Svc>) {
    forall i, j | 0 <= i < j < |svcs| :: svcs[i].service != svcs[j].service
  }

  /** A service still to be recreated: nothing of it failed, its sessions ended. */
  ghost predicate Waits(project: string, log: Log, s: Svc) {
    s.Live() && !s.restored && Fine(log, s.service) && IsQuiet(project, log, s.service)
  }

  /** One more event for others leaves a service as it was. */
  lemma OthersWait(project: string, log: Log, s: Svc, e: Event)
    requires Waits(project, log, s) && e != Out(s.service) && (Failing(e) ==> !Touches(e, s.service))
    ensures Waits(project, log + [e], s)
  {
    StaysQuiet(project, log, e, s.service);
  }

  /** None of a restored service's containers is made from the override. */
  ghost predicate IsAsBuilt(cs: Containers, made: set<string>, s: Svc) {
    s.restored ==> forall id | id in made && id in cs :: cs[id].service != s.service
  }

  /** The compose files to recreate a container from: its own, without eyedbg's
      override; another file its labels name as one is left out only when it is
      eyedbg's or isn't there (ours). */
  function FilesOf(path: string, c: Container, ours: bool): seq<string> {
    var files := L.FilesWithout(c.configFiles, path);
    if c.fast.Some? && c.fast.value.override != path && ours then L.FilesWithout(files, c.fast.value.override) else files
  }

  /** What inspecting and stopping may change of a service. */
  predicate Checked(a: Svc, b: Svc) {
    && b.service == a.service && b.id == a.id && b.skipped == a.skipped && b.restored == a.restored
    && (b.failed && !a.failed ==> a.Live()) && (a.failed ==> b.failed)
  }

  /** A service that was in the run is restored or failed, one of the two. */
  predicate Ended(a: Svc, b: Svc) {
    b.service == a.service && b.skipped == a.skipped && if a.Live() then b.restored == !b.failed else b == a
  }

  /** A service ends skipped, failed or restored, one of the three. */
  predicate OneEnd(s: Svc) {
    (s.skipped || s.failed || s.restored) && !(s.skipped && s.failed) && !(s.skipped && s.restored) && !(s.failed && s.restored)
  }

  lemma StoppedOne(project: string, svcs: seq<Svc>, log: Log, i: nat, e: Event)
    requires i < |svcs| && DistinctNames(svcs) && RestoreOrder(project, log) && e.Stopped? && e.service == svcs[i].service
    requires IsListed(project, log, e.service, e.session) && forall d | d in log :: !d.Recreated?
    requires forall j | 0 <= j < i && svcs[j].Live() :: Waits(project, log, svcs[j])
    requires forall j | i <= j < |svcs| :: Fine(log, svcs[j].service)
    ensures RestoreOrder(project, log + [e])
    ensures forall j | 0 <= j < i && svcs[j].Live() :: Waits(project, log + [e], svcs[j])
    ensures forall j | i <= j < |svcs| && (j == i ==> e.ok) :: Fine(log + [e], svcs[j].service)
  {
    Happened(project, log, e);
    forall j | 0 <= j < i && svcs[j].Live() ensures Waits(project, log + [e], svcs[j]) { OthersWait(project, log, svcs[j], e); }
    forall j | i <= j < |svcs| && (j == i ==> e.ok) ensures Fine(log + [e], svcs[j].service) { StaysFine(log, e, svcs[j].service); }
  }

  lemma StaysFine(log: Log, e: Event, s: string)
    requires Fine(log, s) && e != Out(s) && (Failing(e) ==> !Touches(e, s))
    ensures Fine(log + [e], s)
  {}

  lemma BeenOne(n: nat, live: seq<nat>, parts: seq<seq<nat>>, p: nat, done: set<nat>)
    requires Parts(n, live, parts) && p < |parts| && Been(parts, p, done)
    ensures Been(parts, p + 1, done + Of(parts[p]))
  {}

  /** What a service is recreated from. */
  function RefOf(s: Svc): ComposeRef { (s.composeDir, s.files) }

  /** The service was recreated from its own directory and files. */
  ghost predicate WasRecreated(log: Log, s: Svc) {
    exists e | e in log && e.Recreated? :: e.ok && e.ref == RefOf(s) && s.service in e.services
  }

  /** What was recreated so far are services in done. */
  ghost predicate OnlyDone(start: seq<Svc>, log: Log, done: set<nat>) {
    forall d | d in log && d.Recreated? :: IsOfDone(start, d, done)
  }

  ghost predicate IsOfDone(start: seq<Svc>, d: Event, done: set<nat>) requires d.Recreated? {
    && (exists i: nat | i in done && i < |start| :: RefOf(start[i]) == d.ref)
    && (forall s | s in d.services :: exists i: nat | i in done && i < |start| :: start[i].service == s)
  }

  /** None of done is of these services' files. */
  ghost predicate OtherRefs(start: seq<Svc>, idxs: seq<nat>, done: set<nat>) {
    forall i, j | i in done && i < |start| && j in idxs && j < |start| :: RefOf(start[i]) != RefOf(start[j])
  }

  /** The services of a part are recreated from the same files, and no others
      are. */
  ghost predicate ByRef(start: seq<Svc>, parts: seq<seq<nat>>) {
    forall p, q | 0 <= p < |parts| && 0 <= q < |parts| :: RefsTell(start, parts[p], parts[q], p == q)
  }

  ghost predicate RefsTell(start: seq<Svc>, a: seq<nat>, b: seq<nat>, same: bool) {
    forall i, j | i in a && j in b :: i < |start| && j < |start| && (RefOf(start[i]) == RefOf(start[j]) <==> same)
  }

  lemma RefsApart(start: seq<Svc>, live: seq<nat>, keys: seq<ComposeRef>, groups: seq<seq<nat>>, parts: seq<seq<nat>>)
    requires |keys| == |live| && Groups(keys, groups) && PartsFrom(live, groups, parts)
    requires forall k | 0 <= k < |live| :: live[k] < |start| && keys[k] == RefOf(start[live[k]])
    ensures ByRef(start, parts)
  {
    forall p, q | 0 <= p < |parts| && 0 <= q < |parts| ensures RefsTell(start, parts[p], parts[q], p == q) {
      forall i, j | i in parts[p] && j in parts[q]
        ensures i < |start| && j < |start| && (RefOf(start[i]) == RefOf(start[j]) <==> p == q)
      {
        var m, n := PartKeys(live, keys, groups, parts, p, q, i, j);
      }
    }
  }

  /** Those in done are of parts before p. */
  ghost predicate Within(parts: seq<seq<nat>>, p: nat, done: set<nat>) {
    forall i | i in done :: exists q | 0 <= q < |parts| && q < p :: i in parts[q]
  }

  lemma WithinRefs(start: seq<Svc>, parts: seq<seq<nat>>, p: nat, done: set<nat>)
    requires p < |parts| && Within(parts, p, done) && ByRef(start, parts)
    ensures OtherRefs(start, parts[p], done) && Within(parts, p + 1, done + Of(parts[p]))
  {
    forall i, j | i in done && i < |start| && j in parts[p] && j < |start| ensures RefOf(start[i]) != RefOf(start[j]) {
      var q :| 0 <= q < p && i in parts[q];
      assert RefsTell(start, parts[q], parts[p], false);
    }
    forall i | i in done + Of(parts[p]) ensures exists q | 0 <= q < |parts| && q < p + 1 :: i in parts[q] {
      if i in done {
        var q :| 0 <= q < p && i in parts[q];
      } else {
        assert i in parts[p];
      }
    }
  }

  /** Where a restore is while it recreates: those in done have ended, the others
      wait. */
  ghost predicate Recreating(project: string, start: seq<Svc>, svcs: seq<Svc>, log: Log, done: set<nat>) {
    && RestoreOrder(project, log) && |svcs| == |start| && DistinctNames(start) && OnlyDone(start, log, done)
    && (forall i | 0 <= i < |svcs| && i !in done :: svcs[i] == start[i] && !svcs[i].restored)
    && (forall i | 0 <= i < |svcs| && i !in done :: svcs[i].Live() ==> Waits(project, log, svcs[i]))
    && (forall i | 0 <= i < |svcs| && i in done :: Ended(start[i], svcs[i]) && (svcs[i].restored ==> WasRecreated(log, svcs[i])))
  }

  ghost predicate AllAsBuilt(cs: Containers, made: set<string>, svcs: seq<Svc>) {
    forall i | 0 <= i < |svcs| :: IsAsBuilt(cs, made, svcs[i])
  }

  lemma NoneRestored(cs: Containers, made: set<string>, svcs: seq<Svc>)
    requires forall i | 0 <= i < |svcs| :: !svcs[i].restored
    ensures AllAsBuilt(cs, made, svcs)
  {}

  /** These services were said to be restored, or failed. */
  predicate Marked(a: seq<Svc>, b: seq<Svc>, idxs: seq<nat>, ok: bool) {
    |a| == |b| && forall i | 0 <= i < |a| ::
      b[i] == if i !in idxs then a[i] else if ok then a[i].(restored := true) else a[i].(failed := true)
  }

  /** The recreate of these services ended, well or not: only they are still to
      be told. */
  ghost predicate Ending(project: string, start: seq<Svc>, svcs: seq<Svc>, log: Log, done: set<nat>, idxs: seq<nat>, ok: bool,
                         cs: Containers, made: set<string>) {
    && RestoreOrder(project, log) && |svcs| == |start| && DistinctNames(start) && OnlyDone(start, log, done + Of(idxs))
    && (forall i | 0 <= i < |svcs| && i !in done && i !in idxs :: svcs[i] == start[i] && !svcs[i].restored && (svcs[i].Live() ==> Waits(project, log, svcs[i])))
    && (forall i | 0 <= i < |svcs| && i in done :: Ended(start[i], svcs[i]) && (svcs[i].restored ==> WasRecreated(log, svcs[i])))
    && Of(idxs) !! done && AllAsBuilt(cs, made, svcs)
    && (forall i | i in idxs :: i < |svcs| && svcs[i] == start[i] && svcs[i].Live() && !svcs[i].restored && (ok ==> WasRecreated(log, svcs[i])))
    && (ok ==> forall id, i | id in made && id in cs && i in idxs :: cs[id].service != svcs[i].service)
  }

  lemma MarkedEnd(project: string, start: seq<Svc>, a: seq<Svc>, b: seq<Svc>, log: Log, done: set<nat>, idxs: seq<nat>, ok: bool,
                  cs: Containers, made: set<string>)
    requires Ending(project, start, a, log, done, idxs, ok, cs, made) && Marked(a, b, idxs, ok)
    ensures Recreating(project, start, b, log, done + Of(idxs)) && AllAsBuilt(cs, made, b)
  {
    forall i | 0 <= i < |b| ensures IsAsBuilt(cs, made, b[i]) { assert IsAsBuilt(cs, made, a[i]); }
    forall i | 0 <= i < |b| && i in done + Of(idxs) ensures Ended(start[i], b[i]) && (b[i].restored ==> WasRecreated(log, b[i])) {
      if i in idxs && ok {
        var e :| e in log && e.Recreated? && e.ok && e.ref == RefOf(a[i]) && a[i].service in e.services;
        assert e in log && e.ref == RefOf(b[i]);
      }
    }
  }

  function ServicesAt(svcs: seq<Svc>, idxs: seq<nat>): seq<string>
    requires forall i | i in idxs :: i < |svcs|
  {
    seq(|idxs|, k requires 0 <= k < |idxs| => assert idxs[k] in idxs; svcs[idxs[k]].service)
  }

  lemma ServicesAre(svcs: seq<Svc>, idxs: seq<nat>)
    requires forall i | i in idxs :: i < |svcs|
    ensures forall n :: n in NamesOf(ServicesAt(svcs, idxs)) <==> exists i | i in idxs :: svcs[i].service == n
  {
    var names := ServicesAt(svcs, idxs);
    forall n ensures n in NamesOf(names) <==> exists i | i in idxs :: svcs[i].service == n {
      if n in names {
        var k :| 0 <= k < |idxs| && names[k] == n;
        assert idxs[k] in idxs && svcs[idxs[k]].service == n;
      }
      if exists i | i in idxs :: svcs[i].service == n {
        var i :| i in idxs && svcs[i].service == n;
        var k :| 0 <= k < |idxs| && idxs[k] == i;
        assert names[k] == n;
      }
    }
  }

  /** A recreate asked for services that wait is the first of theirs. */
  lemma UpIsOnce(project: string, start: seq<Svc>, svcs: seq<Svc>, log: Log, idxs: seq<nat>, done: set<nat>, e: Event)
    requires Recreating(project, start, svcs, log, done) && Of(idxs) !! done && idxs != [] && OtherRefs(start, idxs, done)
    requires (forall i | i in idxs :: i < |svcs| && start[i].Live()) && e.Recreated? && e.services == NamesOf(ServicesAt(start, idxs))
    requires forall i | i in idxs :: RefOf(start[i]) == e.ref
    ensures Once(log, e)
  {
    ServicesAre(start, idxs);
    assert idxs[0] in idxs;
    forall d | d in log && d.Recreated? ensures d.ref != e.ref && d.services !! e.services {
      assert IsOfDone(start, d, done);
      forall s | s in d.services ensures s !in e.services {
        var i: nat :| i in done && i < |start| && start[i].service == s;
        forall j | j in idxs ensures start[j].service != s { assert j in Of(idxs) && (i < j || j < i); }
      }
    }
  }

  /** A recreate asked for services that wait: the others go on waiting. */
  lemma UpOne(project: string, start: seq<Svc>, svcs: seq<Svc>, log: Log, idxs: seq<nat>, done: set<nat>, e: Event)
    requires Recreating(project, start, svcs, log, done) && Of(idxs) !! done && forall i | i in idxs :: i < |svcs| && start[i].Live()
    requires e.Recreated? && e.services == NamesOf(ServicesAt(svcs, idxs)) && Once(log, e)
    ensures RestoreOrder(project, log + [e])
    ensures forall i | 0 <= i < |svcs| && i !in done && i !in idxs :: svcs[i].Live() ==> Waits(project, log + [e], svcs[i])
  {
    ServicesAre(svcs, idxs);
    forall i | i in idxs ensures Waits(project, log, svcs[i]) && svcs[i] == start[i] { assert i in Of(idxs); }
    forall s | Touches(e, s) ensures Fine(log, s) && IsQuiet(project, log, s) {
      var i :| i in idxs && svcs[i].service == s;
      assert Waits(project, log, svcs[i]);
    }
    Happened(project, log, e);
    forall i | 0 <= i < |svcs| && i !in done && i !in idxs && svcs[i].Live() ensures Waits(project, log + [e], svcs[i]) {
      assert Waits(project, log, svcs[i]);
      forall j | j in idxs ensures svcs[j].service != svcs[i].service { assert i < j || j < i; }
      OthersWait(project, log, svcs[i], e);
    }
  }

  /** What was recreated is that of the services now done. */
  lemma UpDone(start: seq<Svc>, log: Log, idxs: seq<nat>, done: set<nat>, e: Event)
    requires OnlyDone(start, log, done) && idxs != [] && e.Recreated?
    requires (forall i | i in idxs :: i < |start| && RefOf(start[i]) == e.ref) && e.services == NamesOf(ServicesAt(start, idxs))
    ensures OnlyDone(start, log, done + Of(idxs)) && OnlyDone(start, log + [e], done + Of(idxs))
    ensures e.ok ==> forall i | i in idxs :: WasRecreated(log + [e], start[i])
  {
    ServicesAre(start, idxs);
    var more := done + Of(idxs);
    assert idxs[0] in more && RefOf(start[idxs[0]]) == e.ref;
    forall s | s in e.services ensures exists i: nat | i in more && i < |start| :: start[i].service == s {
      var i :| i in idxs && start[i].service == s;
      assert i in more;
    }
    assert IsOfDone(start, e, more);
    forall d | d in log && d.Recreated? ensures IsOfDone(start, d, more) {
      assert IsOfDone(start, d, done);
      var i: nat :| i in done && i < |start| && RefOf(start[i]) == d.ref;
      assert i in more;
      forall s | s in d.services ensures exists i: nat | i in more && i < |start| :: start[i].service == s {
        var k: nat :| k in done && k < |start| && start[k].service == s;
        assert k in more;
      }
    }
    assert e in log + [e];
    if e.ok {
      forall i | i in idxs ensures WasRecreated(log + [e], start[i]) { assert start[i].service in e.services; }
    }
  }

  /** Recreating without the override makes no more containers from it, and
      leaves none of the services it recreated. */
  lemma AsBuiltAfter(path: string, rec: Records, dirs: set<string>, cs: Containers, made: set<string>, services: set<string>, ok: bool,
                     cs': Containers, made': set<string>, svcs: seq<Svc>)
    requires UpResult(path, rec, dirs, cs, made, services, false, ok, cs', made')
    requires AllAsBuilt(cs, made, svcs)
    ensures AllAsBuilt(cs', made', svcs)
    ensures ok ==> forall id | id in made' && id in cs' :: cs'[id].service !in services
  {
    forall i | 0 <= i < |svcs| ensures IsAsBuilt(cs', made', svcs[i]) { assert IsAsBuilt(cs, made, svcs[i]); }
  }

  /** Nothing was asked for these services. */
  lemma NotAsked(project: string, start: seq<Svc>, svcs: seq<Svc>, log: Log, done: set<nat>, idxs: seq<nat>, cs: Containers, made: set<string>)
    requires Recreating(project, start, svcs, log, done) && AllAsBuilt(cs, made, svcs) && Of(idxs) !! done
    requires idxs != [] && idxs[0] < |start| && forall i | i in idxs :: i < |svcs| && start[i].Live() && RefOf(start[i]) == RefOf(start[idxs[0]])
    ensures Ending(project, start, svcs, log, done, idxs, false, cs, made)
  {
    forall i | i in idxs ensures svcs[i] == start[i] && !svcs[i].restored { assert i in Of(idxs); }
    assert idxs[0] in idxs;
    UpDone(start, log, idxs, done, Recreated(RefOf(start[idxs[0]]), NamesOf(ServicesAt(start, idxs)), false));
  }

  /** A recreate was asked for these services, as they are. */
  lemma WasAsked(project: string, start: seq<Svc>, svcs: seq<Svc>, log: Log, done: set<nat>, idxs: seq<nat>, e: Event,
                 path: string, rec: Records, dirs: set<string>, cs: Containers, made: set<string>, cs': Containers, made': set<string>)
    requires Recreating(project, start, svcs, log, done) && AllAsBuilt(cs, made, svcs) && Of(idxs) !! done && OtherRefs(start, idxs, done)
    requires idxs != [] && idxs[0] < |start| && forall i | i in idxs :: i < |svcs| && start[i].Live() && RefOf(start[i]) == RefOf(start[idxs[0]])
    requires e.Recreated? && e.ref == RefOf(svcs[idxs[0]]) && e.services == NamesOf(ServicesAt(svcs, idxs))
    requires UpResult(path, rec, dirs, cs, made, e.services, false, e.ok, cs', made')
    ensures Ending(project, start, svcs, log + [e], done, idxs, e.ok, cs', made')
  {
    forall i | i in idxs ensures svcs[i] == start[i] && !svcs[i].restored { assert i in Of(idxs); }
    assert idxs[0] in idxs;
    SameServices(start, svcs, idxs);
    ServicesAre(svcs, idxs);
    UpIsOnce(project, start, svcs, log, idxs, done, e);
    UpOne(project, start, svcs, log, idxs, done, e);
    UpDone(start, log, idxs, done, e);
    AsBuiltAfter(path, rec, dirs, cs, made, e.services, e.ok, cs', made', svcs);
    StillRecreated(svcs, log, e);
  }

  ghost predicate IsFast(fast: seq<Listed>, n: string) { exists c | c in fast :: c.service == n }

  /** A container with fast-mode labels is the service's. */
  ghost predicate HasFast(cs: Containers, n: string) { exists id | id in cs :: cs[id].fast.Some? && cs[id].service == n }

  /** What is restored: each service in fast mode, or each named one, and of those
      it skips what is not in fast mode. */
  ghost predicate Picks(cs: Containers, names: seq<string>, svcs: seq<Svc>) {
    && (forall n :: Selects(svcs, n) <==> if names == [] then HasFast(cs, n) else n in names)
    && (forall s | s in svcs :: s.skipped <==> !HasFast(cs, s.service))
  }

  lemma PicksListed(cs: Containers, names: seq<string>, svcs: seq<Svc>, fast: seq<Listed>)
    requires forall c | c in fast :: c.id in cs && cs[c.id].fast.Some? && c.service == cs[c.id].service
    requires forall id | id in cs && cs[id].fast.Some? :: Listed(id, cs[id].service) in fast
    requires forall n :: Selects(svcs, n) <==> if names == [] then IsFast(fast, n) else n in names
    requires forall s | s in svcs :: s.skipped <==> forall c | c in fast :: c.service != s.service
    ensures Picks(cs, names, svcs)
  {
    forall n ensures IsFast(fast, n) <==> HasFast(cs, n) {
      if IsFast(fast, n) {
        var c :| c in fast && c.service == n;
        assert c.id in cs && cs[c.id].fast.Some? && cs[c.id].service == n;
      }
      if HasFast(cs, n) {
        var id :| id in cs && cs[id].fast.Some? && cs[id].service == n;
        assert Listed(id, n) in fast;
      }
    }
    forall s | s in svcs ensures s.skipped <==> !HasFast(cs, s.service) { assert s.skipped <==> !IsFast(fast, s.service); }
  }

  /** What was picked stays picked, whatever becomes of it. */
  lemma PicksStill(cs: Containers, names: seq<string>, a: seq<Svc>, b: seq<Svc>)
    requires Picks(cs, names, a) && |a| == |b| && forall i | 0 <= i < |a| :: b[i].service == a[i].service && b[i].skipped == a[i].skipped
    ensures Picks(cs, names, b)
  {
    forall n ensures Selects(b, n) <==> Selects(a, n) {
      if Selects(a, n) {
        var i :| 0 <= i < |a| && a[i].service == n;
        assert b[i] in b;
      }
      if Selects(b, n) {
        var i :| 0 <= i < |b| && b[i].service == n;
        assert a[i] in a;
      }
    }
    forall s | s in b ensures s.skipped <==> !HasFast(cs, s.service) {
      var i :| 0 <= i < |b| && b[i] == s;
      assert a[i] in a;
    }
  }

  /** The container's labels say what it is recreated from. */
  predicate CanRestore(project: string, c: Container) { c.project == project && c.composeDir != "" && c.configFiles != [] }

  /** So do those of all containers with fast-mode labels. */
  predicate AllCanRestore(project: string, cs: Containers) {
    forall id | id in cs && cs[id].fast.Some? :: CanRestore(project, cs[id])
  }

  predicate NoneFailed(svcs: seq<Svc>) { forall i | 0 <= i < |svcs| :: !svcs[i].failed }

  lemma AllRestored(svcs: seq<Svc>)
    requires NoneFailed(svcs) && forall i | 0 <= i < |svcs| :: OneEnd(svcs[i])
    ensures forall s | s in svcs :: s.skipped || s.restored
  {}

  /** Nothing is made from the override that was not. */
  ghost predicate NoMoreMade(cs: Containers, made: set<string>, cs': Containers, made': set<string>) {
    made' <= made && forall id | id in made' && id in cs && id in cs' :: cs'[id] == cs[id]
  }

  /** When all that is in fast mode is restored, nothing is left of what the
      override made. */
  lemma NoneMade(path: string, cs: Containers, made: set<string>, file: OverrideFile, dirs: set<string>, lost: set<string>,
                 cs': Containers, made': set<string>, svcs: seq<Svc>)
    requires StackOk(path, cs, made, file, dirs, lost) && made' <= cs'.Keys && NoMoreMade(cs, made, cs', made')
    requires Picks(cs, [], svcs) && AllAsBuilt(cs', made', svcs) && forall s | s in svcs :: s.skipped || s.restored
    ensures made' == {}
  {
    forall id | id in made ensures id !in made' {
      assert id in cs && cs[id].fast.Some?;
      assert HasFast(cs, cs[id].service) && Selects(svcs, cs[id].service);
      var s :| s in svcs && s.service == cs[id].service;
      var i :| 0 <= i < |svcs| && svcs[i] == s;
      assert IsAsBuilt(cs', made', svcs[i]);
    }
  }

  /** The files are those that the container's labels name. */
  ghost predicate FilesKnown(path: string, cs: Containers, s: Svc) {
    && s.id.Some? && s.id.value in cs && s.composeDir == cs[s.id.value].composeDir
    && exists ours :: s.files == FilesOf(path, cs[s.id.value], ours)
  }

  predicate SameFiles(a: Svc, b: Svc) { b.composeDir == a.composeDir && b.files == a.files }

  /** What was listed: the daemon's sessions, or there is no daemon. */
  predicate IsOf(listing: Event, list: seq<SessionInfo>) { listing == Sessions(list) || (listing == NoDaemon && list == []) }

  lemma IsStoppable(project: string, log: Log, list: seq<SessionInfo>, listing: Event, s: string, live: seq<LiveSession>, k: nat)
    requires IsOf(listing, list) && listing in log && live == LiveSessionsOf(list, project, s) && k < |live|
    ensures IsListed(project, log, s, live[k].id)
  {
    assert live[k] in live;
    IsOnList(project, log, list, s, live[k]);
  }

  lemma QuietNow(project: string, log: Log, list: seq<SessionInfo>, listing: Event, s: string, live: seq<LiveSession>)
    requires IsOf(listing, list) && listing in log && live == LiveSessionsOf(list, project, s) && AreStopped(s, live, |live|, log)
    ensures IsQuiet(project, log, s)
  {
    if listing == Sessions(list) {
      NowQuiet(project, log, list, s, live);
    } else {
      assert AllStopped(project, log, listing, s);
    }
  }

  lemma SameRef(start: seq<Svc>, parts: seq<seq<nat>>, p: nat)
    requires p < |parts| && parts[p] != [] && ByRef(start, parts)
    ensures parts[p][0] < |start| && forall i | i in parts[p] :: i < |start| && RefOf(start[i]) == RefOf(start[parts[p][0]])
  {
    assert RefsTell(start, parts[p], parts[p], true) && parts[p][0] in parts[p];
  }

  lemma SameServices(start: seq<Svc>, svcs: seq<Svc>, idxs: seq<nat>)
    requires forall i | i in idxs :: i < |start| && i < |svcs| && svcs[i] == start[i]
    ensures ServicesAt(start, idxs) == ServicesAt(svcs, idxs)
  {
    forall k | 0 <= k < |idxs| ensures ServicesAt(start, idxs)[k] == ServicesAt(svcs, idxs)[k] { assert idxs[k] in idxs; }
  }

  lemma StillRecreated(svcs: seq<Svc>, log: Log, e: Event)
    ensures forall s | WasRecreated(log, s) :: WasRecreated(log + [e], s)
  {
    forall s | WasRecreated(log, s) ensures WasRecreated(log + [e], s) {
      var d :| d in log && d.Recreated? && d.ok && d.ref == RefOf(s) && s.service in d.services;
      assert d in log + [e];
    }
  }

  class RestoreRun {
    const r: Stack
    const project: string
    const names: seq<string>
    var svcs: seq<Svc>
    var foundFast: bool
    var removed: bool

    constructor (r: Stack, project: string, names: seq<string>)
      ensures this.r == r && this.project == project && this.names == names && svcs == [] && !foundFast && !removed
    {
      this.r, this.project, this.names, svcs, foundFast, removed := r, project, names, [], false, false;
    }

    /** Lists the services to restore, by name: the named ones, else every service
        in fast mode; a named one that isn't in fast mode is skipped. */
    method Pick(fast: seq<Listed>)
      requires svcs == []
      modifies this`svcs
      ensures DistinctNames(svcs) && forall s | s in svcs :: !s.failed && !s.restored && (s.skipped <==> forall c | c in fast :: c.service != s.service)
      ensures forall s | s in svcs && !s.skipped :: s.id.Some? && Listed(s.id.value, s.service) in fast
      ensures forall n :: Selects(svcs, n) <==> if names == [] then IsFast(fast, n) else n in names
      ensures forall i, j | 0 <= i < j < |svcs| :: StrLe(svcs[i].service, svcs[j].service)
    {
      var byService: map<string, string> := map[];
      var services: seq<string> := [];
      for k := 0 to |fast|
        invariant forall c | c in fast[..k] :: c.service in byService
        invariant forall n | n in byService :: Listed(byService[n], n) in fast
        invariant forall n :: n in services <==> n in byService
      {
        assert fast[..k + 1] == fast[..k] + [fast[k]];
        if fast[k].service !in byService {
          byService := byService[fast[k].service := fast[k].id];
          services := services + [fast[k].service];
        }
      }
      assert fast[..|fast|] == fast;
      assert forall n :: n in services <==> IsFast(fast, n);
      if names != [] { services := names; }
      var sorted := SortedOnce(services);
      for k := 0 to |sorted|
        invariant |svcs| == k
        invariant forall j | 0 <= j < k ::
                    svcs[j] == Svc(sorted[j], if sorted[j] in byService then Some(byService[sorted[j]]) else None, "", [],
                                   sorted[j] !in byService, false, false)
      {
        var id := if sorted[k] in byService then Some(byService[sorted[k]]) else None;
        svcs := svcs + [Svc(sorted[k], id, "", [], id.None?, false, false)];
      }
      forall n ensures Selects(svcs, n) <==> n in sorted {
        if n in sorted {
          var j :| 0 <= j < |sorted| && sorted[j] == n;
          assert svcs[j] in svcs;
        }
      }
    }

    method PickAll(fast: seq<Listed>)
      requires svcs == []
      requires forall c | c in fast :: c.id in r.w.containers && r.w.containers[c.id].fast.Some? && c.service == r.w.containers[c.id].service
      requires forall id | id in r.w.containers && r.w.containers[id].fast.Some? :: Listed(id, r.w.containers[id].service) in fast
      modifies this`svcs
      ensures DistinctNames(svcs) && Picks(r.w.containers, names, svcs) && NoneFailed(svcs)
      ensures forall i | 0 <= i < |svcs| :: !svcs[i].restored && (svcs[i].skipped || svcs[i].id.Some?)
      ensures AllCanRestore(project, r.w.containers) ==> AllInspectable(svcs)
      ensures fast == [] ==> forall i | 0 <= i < |svcs| :: svcs[i].skipped
    {
      Pick(fast);
      PicksListed(r.w.containers, names, svcs, fast);
      assert forall i | 0 <= i < |svcs| :: svcs[i] in svcs;
    }

    ghost predicate AllInspectable(svcs: seq<Svc>) reads r.w`containers {
      forall i | 0 <= i < |svcs| && svcs[i].Live() && svcs[i].id.Some? ::
        svcs[i].id.value in r.w.containers && CanRestore(project, r.w.containers[svcs[i].id.value])
    }

    /** Reads each container: its compose directory and the files it was created
        from, which the recreate needs. */
    method Inspect()
      modifies this`svcs, r.w`looks
      ensures |svcs| == |old(svcs)| && old(r.w.looks) <= r.w.looks
      ensures forall i | 0 <= i < |svcs| :: Checked(old(svcs)[i], svcs[i])
      ensures forall i | 0 <= i < |svcs| && svcs[i].Live() && svcs[i].id.Some? :: FilesKnown(r.w.path, r.w.containers, svcs[i])
      ensures r.w.smooth && NoneFailed(old(svcs)) && AllInspectable(old(svcs)) ==> NoneFailed(svcs)
    {
      for i := 0 to |svcs|
        invariant |svcs| == |old(svcs)| && old(r.w.looks) <= r.w.looks
        invariant forall j | 0 <= j < |svcs| :: Checked(old(svcs)[j], svcs[j])
        invariant r.w.smooth && NoneFailed(old(svcs)) && AllInspectable(old(svcs)) ==> NoneFailed(svcs)
        invariant forall j | 0 <= j < i && svcs[j].Live() && svcs[j].id.Some? :: FilesKnown(r.w.path, r.w.containers, svcs[j])
      {
        if !svcs[i].Live() || svcs[i].id.None? { continue; }
        var ok, info := r.w.InspectFast(svcs[i].id.value);
        var corroborated := r.w.Works();
        if !ok || info.c.composeDir == "" || info.c.configFiles == [] || info.c.project != project || !corroborated {
          svcs := svcs[i := svcs[i].(failed := true)];
        } else {
          var ours: bool := *;
          svcs := svcs[i := svcs[i].(composeDir := info.c.composeDir, files := FilesOf(r.w.path, info.c, ours))];
        }
      }
    }

    /** Ends the sessions of the services to restore; no daemon means no
        sessions. */
    method StopSessions() returns (ok: bool)
      requires r.w.log == [] && DistinctNames(svcs) && forall i | 0 <= i < |svcs| :: !svcs[i].restored
      modifies this`svcs, r.w`log
      ensures RestoreOrder(project, r.w.log) && |svcs| == |old(svcs)| && forall d | d in r.w.log :: !d.Recreated?
      ensures forall i | 0 <= i < |svcs| :: Checked(old(svcs)[i], svcs[i]) && SameFiles(old(svcs)[i], svcs[i])
      ensures ok ==> forall i | 0 <= i < |svcs| && svcs[i].Live() :: Waits(project, r.w.log, svcs[i])
      ensures r.w.smooth ==> ok && (NoneFailed(old(svcs)) ==> NoneFailed(svcs))
    {
      if forall i | 0 <= i < |svcs| :: !svcs[i].Live() { return true; }
      var list;
      ok, list := r.w.ListRunning();
      if !ok { return; }
      ghost var listing := r.w.log[0];
      assert r.w.log == [] + [listing] && MayHappen(project, [], listing);
      Happened(project, [], listing);
      StopListed(list, listing);
    }

    method StopListed(list: seq<SessionInfo>, ghost listing: Event)
      requires r.w.log == [listing] && RestoreOrder(project, r.w.log) && IsOf(listing, list)
      requires DistinctNames(svcs) && forall i | 0 <= i < |svcs| :: !svcs[i].restored
      modifies this`svcs, r.w`log
      ensures RestoreOrder(project, r.w.log) && |svcs| == |old(svcs)| && forall d | d in r.w.log :: !d.Recreated?
      ensures forall i | 0 <= i < |svcs| :: Checked(old(svcs)[i], svcs[i]) && SameFiles(old(svcs)[i], svcs[i])
      ensures forall i | 0 <= i < |svcs| && svcs[i].Live() :: Waits(project, r.w.log, svcs[i])
      ensures r.w.smooth && NoneFailed(old(svcs)) ==> NoneFailed(svcs)
    {
      for i := 0 to |svcs|
        invariant RestoreOrder(project, r.w.log) && |svcs| == |old(svcs)| && DistinctNames(svcs)
        invariant forall j | 0 <= j < |svcs| :: Checked(old(svcs)[j], svcs[j]) && SameFiles(old(svcs)[j], svcs[j])
        invariant IsOf(listing, list) && listing in r.w.log && forall d | d in r.w.log :: !d.Recreated?
        invariant forall j | 0 <= j < i && svcs[j].Live() :: Waits(project, r.w.log, svcs[j])
        invariant forall j | i <= j < |svcs| :: Fine(r.w.log, svcs[j].service)
        invariant r.w.smooth && NoneFailed(old(svcs)) ==> NoneFailed(svcs)
      {
        if !svcs[i].Live() { continue; }
        StopAll(i, LiveSessionsOf(list, project, svcs[i].service), list, listing);
      }
    }

    method StopAll(i: nat, live: seq<LiveSession>, ghost list: seq<SessionInfo>, ghost listing: Event)
      requires i < |svcs| && svcs[i].Live() && !svcs[i].restored && DistinctNames(svcs) && RestoreOrder(project, r.w.log)
      requires live == LiveSessionsOf(list, project, svcs[i].service) && IsOf(listing, list) && listing in r.w.log
      requires forall d | d in r.w.log :: !d.Recreated?
      requires forall j | 0 <= j < i && svcs[j].Live() :: Waits(project, r.w.log, svcs[j])
      requires forall j | i <= j < |svcs| :: Fine(r.w.log, svcs[j].service)
      modifies this`svcs, r.w`log
      ensures RestoreOrder(project, r.w.log) && |svcs| == |old(svcs)| && svcs == old(svcs)[i := svcs[i]]
      ensures Checked(old(svcs)[i], svcs[i]) && SameFiles(old(svcs)[i], svcs[i])
      ensures listing in r.w.log && forall d | d in r.w.log :: !d.Recreated?
      ensures forall j | 0 <= j < i + 1 && svcs[j].Live() :: Waits(project, r.w.log, svcs[j])
      ensures forall j | i + 1 <= j < |svcs| :: Fine(r.w.log, svcs[j].service)
      ensures r.w.smooth ==> svcs == old(svcs)
    {
      var name := svcs[i].service;
      for k := 0 to |live|
        invariant svcs == old(svcs) && RestoreOrder(project, r.w.log)
        invariant listing in r.w.log && forall d | d in r.w.log :: !d.Recreated?
        invariant forall j | 0 <= j < i && svcs[j].Live() :: Waits(project, r.w.log, svcs[j])
        invariant forall j | i <= j < |svcs| :: Fine(r.w.log, svcs[j].service)
        invariant AreStopped(name, live, k, r.w.log)
      {
        ghost var log := r.w.log;
        IsStoppable(project, log, list, listing, name, live, k);
        var ok := r.w.StopSession(name, live[k].id);
        StoppedOne(project, svcs, log, i, Stopped(name, live[k].id, ok));
        if !ok {
          svcs := svcs[i := svcs[i].(failed := true)];
          return;
        }
        OneMoreStopped(name, live, k, log, r.w.log);
      }
      QuietNow(project, r.w.log, list, listing, name, live);
    }

    /** Recreates the services as built, once per distinct list of compose files. */
    method Up()
      requires r.Valid() && DistinctNames(svcs) && RestoreOrder(project, r.w.log) && forall d | d in r.w.log :: !d.Recreated?
      requires forall i | 0 <= i < |svcs| && svcs[i].Live() :: Waits(project, r.w.log, svcs[i])
      requires forall i | 0 <= i < |svcs| :: !svcs[i].restored
      modifies this`svcs, r`upFailed, r.w`containers, r.w`made, r.w`lost, r.w`log
      ensures r.Valid() && RestoreOrder(project, r.w.log) && |svcs| == |old(svcs)| && r.w.lost <= old(r.w.lost)
      ensures AllAsBuilt(r.w.containers, r.w.made, svcs)
      ensures forall i | 0 <= i < |svcs| :: Ended(old(svcs)[i], svcs[i]) && (svcs[i].restored ==> WasRecreated(r.w.log, svcs[i]))
      ensures r.w.smooth && NoneFailed(old(svcs)) ==> NoneFailed(svcs)
      ensures NoMoreMade(old(r.w.containers), old(r.w.made), r.w.containers, r.w.made)
    {
      var live: seq<nat> := LiveOnes();
      var start := svcs;
      var keys := seq(|live|, k requires 0 <= k < |live| => assert live[k] in live; RefOf(start[live[k]]));
      ghost var groups;
      var parts;
      parts, groups := PartsBy(|svcs|, live, keys);
      assert forall k | 0 <= k < |live| :: live[k] in live;
      RefsApart(start, live, keys, groups, parts);
      ghost var done: set<nat> := {};
      NoneRestored(r.w.containers, r.w.made, svcs);
      for p := 0 to |parts|
        invariant r.Valid() && Recreating(project, start, svcs, r.w.log, done) && AllAsBuilt(r.w.containers, r.w.made, svcs)
        invariant Been(parts, p, done) && Apart(parts, p, done) && Within(parts, p, done) && r.w.lost <= old(r.w.lost)
        invariant r.w.smooth && NoneFailed(start) ==> NoneFailed(svcs)
        invariant NoMoreMade(old(r.w.containers), old(r.w.made), r.w.containers, r.w.made)
      {
        WithinRefs(start, parts, p, done);
        SameRef(start, parts, p);
        UpPart(parts[p], start, done);
        NextApart(|svcs|, live, parts, p, done);
        BeenOne(|svcs|, live, parts, p, done);
        done := done + Of(parts[p]);
      }
      AllBeen(|svcs|, live, parts, done);
      forall i: nat | i < |svcs| ensures Ended(start[i], svcs[i]) && (svcs[i].restored ==> WasRecreated(r.w.log, svcs[i])) {
        if start[i].Live() { assert i in Of(live); }
      }
    }

    method LiveOnes() returns (live: seq<nat>)
      ensures Increasing(live) && forall i: nat :: i in live <==> i < |svcs| && svcs[i].Live()
    {
      live := [];
      for i := 0 to |svcs|
        invariant Increasing(live) && forall j: nat :: j in live <==> j < i && svcs[j].Live()
      {
        if svcs[i].Live() {
          forall k | 0 <= k < |live| ensures live[k] < i { assert live[k] in live; }
          live := live + [i];
        }
      }
    }

    method UpPart(idxs: seq<nat>, ghost start: seq<Svc>, ghost done: set<nat>)
      requires r.Valid() && Recreating(project, start, svcs, r.w.log, done) && AllAsBuilt(r.w.containers, r.w.made, svcs)
      requires idxs != [] && Increasing(idxs) && Of(idxs) !! done && OtherRefs(start, idxs, done) && idxs[0] < |start|
      requires forall i | i in idxs :: i < |svcs| && start[i].Live() && RefOf(start[i]) == RefOf(start[idxs[0]])
      modifies this`svcs, r`upFailed, r.w`containers, r.w`made, r.w`lost, r.w`log
      ensures r.Valid() && Recreating(project, start, svcs, r.w.log, done + Of(idxs)) && AllAsBuilt(r.w.containers, r.w.made, svcs)
      ensures r.w.lost <= old(r.w.lost)
      ensures r.w.smooth && NoneFailed(old(svcs)) ==> NoneFailed(svcs)
      ensures NoMoreMade(old(r.w.containers), old(r.w.made), r.w.containers, r.w.made)
    {
      var ok := RecreatePart(idxs, start, done);
      if !ok { r.upFailed := true; }
      ghost var was := svcs;
      Mark(idxs, ok);
      MarkedEnd(project, start, was, svcs, r.w.log, done, idxs, ok, r.w.containers, r.w.made);
    }

    /** One 'compose up' for these services, if their reference is valid. */
    method RecreatePart(idxs: seq<nat>, ghost start: seq<Svc>, ghost done: set<nat>) returns (ok: bool)
      requires r.Valid() && Recreating(project, start, svcs, r.w.log, done) && AllAsBuilt(r.w.containers, r.w.made, svcs)
      requires idxs != [] && Of(idxs) !! done && OtherRefs(start, idxs, done) && idxs[0] < |start|
      requires forall i | i in idxs :: i < |svcs| && start[i].Live() && RefOf(start[i]) == RefOf(start[idxs[0]])
      modifies r.w`containers, r.w`made, r.w`lost, r.w`log
      ensures r.Valid() && Ending(project, start, svcs, r.w.log, done, idxs, ok, r.w.containers, r.w.made) && r.w.lost <= old(r.w.lost)
      ensures r.w.smooth ==> ok
      ensures NoMoreMade(old(r.w.containers), old(r.w.made), r.w.containers, r.w.made)
    {
      ghost var cs, made, log := r.w.containers, r.w.made, r.w.log;
      assert idxs[0] in idxs;
      ok := r.w.Works();
      if !ok {
        NotAsked(project, start, svcs, log, done, idxs, cs, made);
        return;
      }
      var names, ref := ServicesAt(svcs, idxs), RefOf(svcs[idxs[0]]);
      ok := r.w.ComposeUp(ref, names, false);
      WasAsked(project, start, svcs, log, done, idxs, Recreated(ref, NamesOf(names), ok),
               r.w.path, Reads(r.w.file), r.w.dirs, cs, made, r.w.containers, r.w.made);
    }

    /** Says how it went for these services. */
    method Mark(idxs: seq<nat>, ok: bool)
      requires Increasing(idxs) && forall i | i in idxs :: i < |svcs|
      modifies this`svcs
      ensures Marked(old(svcs), svcs, idxs, ok)
    {
      for k := 0 to |idxs|
        invariant Marked(old(svcs), svcs, idxs[..k], ok)
      {
        assert idxs[k] in idxs && idxs[k] !in idxs[..k];
        assert idxs[..k + 1] == idxs[..k] + [idxs[k]];
        svcs := svcs[idxs[k] := if ok then svcs[idxs[k]].(restored := true) else svcs[idxs[k]].(failed := true)];
      }
      assert idxs[..|idxs|] == idxs;
    }

    /** Drops the restored services' fragments from the override when other
        services are still in fast mode. A container that the override made is
        recorded after it exactly when it was before and could be read. */
    method RewriteOverride() returns (ghost wrote: bool)
      requires r.Valid() && r.Honest()
      modifies r`recorded, r`recordedErr, r.w`looks, r.w`lost, r.w`file
      ensures r.Valid() && OnlyExcused(old(r.w.lost), old(r.w.looks), r.w.lost, r.w.looks)
      ensures wrote ==> Rewritten(r.w.containers, r.w.made, old(Reads(r.w.file)), Reads(r.w.file), After(old(r.w.looks), r.w.looks), r.recordedErr)
      ensures !wrote ==> r.w.file == old(r.w.file) && r.w.lost == old(r.w.lost)
    {
      wrote := false;
      var ok, fast := r.w.FastContainers();
      if ok && fast != [] { wrote := WriteStaying(fast); }
    }

    /** Writes the fragments of these containers' services, if there are any. */
    method WriteStaying(fast: seq<Listed>) returns (ghost wrote: bool)
      requires r.Valid() && r.Honest()
      requires forall c | c in fast :: c.id in r.w.containers && c.service == r.w.containers[c.id].service
      requires forall id | id in r.w.made :: Listed(id, r.w.containers[id].service) in fast
      modifies r`recorded, r`recordedErr, r.w`looks, r.w`lost, r.w`file
      ensures r.Valid() && OnlyExcused(old(r.w.lost), old(r.w.looks), r.w.lost, r.w.looks)
      ensures wrote ==> Rewritten(r.w.containers, r.w.made, old(Reads(r.w.file)), Reads(r.w.file), After(old(r.w.looks), r.w.looks), r.recordedErr)
      ensures !wrote ==> r.w.file == old(r.w.file) && r.w.lost == old(r.w.lost)
    {
      var frags := r.StayingFragments(fast, {});
      if frags == [] { return false; }
      assert [] + frags == frags;
      ghost var looks, lost, rec := r.w.looks, r.w.lost, Reads(r.w.file);
      RewriteKeeps(r.w.path, r.w.containers, r.w.made, r.w.file, r.w.dirs, lost, old(r.w.looks), looks, r.recordedErr, [], frags);
      var ok := r.WriteOverride(frags);
      wrote := ok;
      RewrittenLooks(r.w.containers, r.w.made, rec, FileOf(r.w.path, frags), old(r.w.looks), looks, r.recordedErr, r.w.lost - lost);
    }

    /** Ends the services' sessions, recreates them as built, then tidies
        eyedbg's files. */
    method Execute() returns (ok: bool)
      requires r.Valid() && r.Honest() && svcs == [] && !foundFast && r.w.log == []
      modifies this`svcs, this`foundFast, r`recorded, r`recordedErr, r`upFailed, r.w`looks, r.w`lost, r.w`file, r.w`containers, r.w`made, r.w`log
      ensures r.Valid() && RestoreOrder(project, r.w.log) && AllAsBuilt(r.w.containers, r.w.made, svcs)
      ensures OnlyExcused(old(r.w.lost), old(r.w.looks), r.w.lost, r.w.looks)
      ensures ok ==> forall i | 0 <= i < |svcs| :: OneEnd(svcs[i])
      ensures forall i | 0 <= i < |svcs| && svcs[i].restored :: WasRecreated(r.w.log, svcs[i])
      ensures !foundFast ==> r.w.file == old(r.w.file)
      ensures ok ==> Picks(old(r.w.containers), names, svcs)
      ensures r.w.smooth && AllCanRestore(project, old(r.w.containers)) ==> ok && NoneFailed(svcs)
      ensures NoMoreMade(old(r.w.containers), old(r.w.made), r.w.containers, r.w.made)
    {
      ok := Prepare();
      NoneRestored(r.w.containers, r.w.made, svcs);
      if !ok { return; }
      ghost var lost, looks, picked := r.w.lost, r.w.looks, svcs;
      UpAndRewrite();
      PicksStill(old(r.w.containers), names, picked, svcs);
      ExcusedThrough(old(r.w.lost), old(r.w.looks), lost, looks, r.w.lost, r.w.looks);
    }

    /** What comes before any change of the stack but the sessions' end. */
    method Prepare() returns (ok: bool)
      requires r.Honest() && svcs == [] && !foundFast && r.w.log == []
      modifies this`svcs, this`foundFast, r.w`looks, r.w`log
      ensures r.Honest() && old(r.w.looks) <= r.w.looks && RestoreOrder(project, r.w.log) && forall d | d in r.w.log :: !d.Recreated?
      ensures DistinctNames(svcs) && forall i | 0 <= i < |svcs| :: !svcs[i].restored && (svcs[i].skipped ==> !svcs[i].failed)
      ensures ok ==> forall i | 0 <= i < |svcs| && svcs[i].Live() :: Waits(project, r.w.log, svcs[i])
      ensures ok ==> Picks(r.w.containers, names, svcs)
      ensures !foundFast ==> forall i | 0 <= i < |svcs| :: !svcs[i].Live()
      ensures r.w.smooth && AllCanRestore(project, r.w.containers) ==> ok && NoneFailed(svcs)
    {
      var fast;
      ok, fast := r.w.FastContainers();
      if !ok { return; }
      foundFast := fast != [];
      PickAll(fast);
      ghost var picked := svcs;
      Inspect();
      ok := StopSessions();
      PicksStill(r.w.containers, names, picked, svcs);
    }

    /** The change, and the override without what is restored. */
    method UpAndRewrite()
      requires r.Valid() && r.Honest() && DistinctNames(svcs) && RestoreOrder(project, r.w.log) && forall d | d in r.w.log :: !d.Recreated?
      requires forall i | 0 <= i < |svcs| && svcs[i].Live() :: Waits(project, r.w.log, svcs[i])
      requires forall i | 0 <= i < |svcs| :: !svcs[i].restored
      modifies this`svcs, r`recorded, r`recordedErr, r`upFailed, r.w`looks, r.w`lost, r.w`file, r.w`containers, r.w`made, r.w`log
      ensures r.Valid() && RestoreOrder(project, r.w.log) && |svcs| == |old(svcs)| && AllAsBuilt(r.w.containers, r.w.made, svcs)
      ensures OnlyExcused(old(r.w.lost), old(r.w.looks), r.w.lost, r.w.looks)
      ensures forall i | 0 <= i < |svcs| :: Ended(old(svcs)[i], svcs[i]) && (svcs[i].restored ==> WasRecreated(r.w.log, svcs[i]))
      ensures (forall i | 0 <= i < |svcs| :: !svcs[i].restored) ==> r.w.file == old(r.w.file)
      ensures r.w.smooth && NoneFailed(old(svcs)) ==> NoneFailed(svcs)
      ensures NoMoreMade(old(r.w.containers), old(r.w.made), r.w.containers, r.w.made)
    {
      Up();
      ghost var lost, looks := r.w.lost, r.w.looks;
      if !r.upFailed && exists i | 0 <= i < |svcs| :: svcs[i].restored { var _ := RewriteOverride(); }
      ExcusedThrough(old(r.w.lost), old(r.w.looks), lost, looks, r.w.lost, r.w.looks);
    }

    /** One whole run: what it leaves of the stack is in step, in whatever way
        calls fail, and a record is lost only by a rewrite that could not read
        it. When no call fails and all containers say what they are recreated
        from, all picked services in fast mode are restored; and with no service
        named, nothing is left of what the override made. */
    method Run() returns (ok: bool)
      requires r.w.Valid() && r.IsNew() && svcs == [] && !foundFast
      modifies this, r, r.w
      ensures r.w.Valid() && RestoreOrder(project, r.w.log) && AllAsBuilt(r.w.containers, r.w.made, svcs)
      ensures ok ==> forall i | 0 <= i < |svcs| :: OneEnd(svcs[i])
      ensures forall i | 0 <= i < |svcs| && svcs[i].restored :: WasRecreated(r.w.log, svcs[i])
      ensures !foundFast && (old(r.w.file) != Absent || old(r.w.dirs) != {}) ==> r.w.file == old(r.w.file) && r.w.dirs == old(r.w.dirs)
      ensures removed ==> r.w.file == Absent && r.w.dirs == {} && r.w.made == {}
      ensures r.w.past == old(r.w.past) + [old(r.w.looks)]
      ensures forall s | s in r.w.lost && s !in old(r.w.lost) :: Excused(r.w.looks, s)
      ensures ok ==> Picks(old(r.w.containers), names, svcs)
      ensures r.w.smooth && AllCanRestore(project, old(r.w.containers)) ==>
                ok && (forall s | s in svcs :: s.skipped || s.restored) && (names == [] ==> r.w.made == {})
    {
      r.w.Begin();
      ok := Execute();
      if r.w.smooth && AllCanRestore(project, old(r.w.containers)) && names == [] {
        AllRestored(svcs);
        NoneMade(r.w.path, old(r.w.containers), old(r.w.made), old(r.w.file), old(r.w.dirs), old(r.w.lost), r.w.containers, r.w.made, svcs);
      }
      removed := false;
      var mounted := r.HoldsMounted();
      if foundFast || !mounted { removed := r.Prune(); }
    }
  }
}
