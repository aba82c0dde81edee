/** What 'compose launch' and 'compose restore' share (internal/cli/compose_stack.go):
    docker's containers and eyedbg's files for one compose project, and the part
    of a run that keeps the two in step. */
module FastMode {
  import opened Wrappers
  import opened LaunchOrder
  import C = Carry

  const FAST_VERSION := "1"
  const MAX_OVERRIDE_SERVICES: nat := 64

  /** A container's fast-mode labels. */
  datatype Labels = Labels(version: string, override: string, dll: string, workDir: string, project: string)

  datatype Container = Container(service: string, project: string, fast: Option<Labels>, dll: string, hasCmd: bool,
                                 workDir: Option<string>, composeDir: string, configFiles: seq<string>)

  /** An answer of docker inspect. */
  datatype Info = Info(id: string, c: Container, running: bool, paused: bool, restarting: bool)

  datatype Answer = Answer(error: bool, session: Option<string>)

  datatype Listed = Listed(id: string, service: string)

  type Containers = map<string, Container>

  type Records = map<string, Labels>

  /** The override file: not there, unreadable or not eyedbg's, or what it
      records of each service. */
  datatype OverrideFile = Absent | Broken | Written(services: Records)

  /** One service of an override to write. */
  datatype Fragment = Fragment(name: string, dll: string, workDir: string, project: string)

  function NamesOf(services: seq<string>): set<string> { set s | s in services }

  function Reads(file: OverrideFile): Records { if file.Written? then file.services else map[] }

  function LabelsOf(path: string, f: Fragment): Labels { Labels(FAST_VERSION, path, f.dll, f.workDir, f.project) }

  function FileOf(path: string, frags: seq<Fragment>): Records {
    if frags == [] then map[]
    else FileOf(path, frags[..|frags| - 1])[frags[|frags| - 1].name := LabelsOf(path, frags[|frags| - 1])]
  }

  /** The file records exactly these labels (of another label version, only the
      version and the override are compared). */
  predicate Corroborates(path: string, rec: Records, service: string, fl: Labels) {
    && service in rec && fl.override == path
    && rec[service].version == fl.version && rec[service].override == fl.override
    && (fl.version == FAST_VERSION ==>
          rec[service].dll == fl.dll && rec[service].workDir == fl.workDir && rec[service].project == fl.project)
  }

  // --------------------------------------------------------------- what is seen

  /** What a run saw, and did not: an inspection, one that failed, a read of the
      override, a build directory that is there and could not be read; and the
      rewrites of the override, with the services whose record it left out. */
  datatype Look =
    | Inspected(info: Info)
    | NotInspected(service: string)
    | ReadBack(ok: bool)
    | NotFound(service: string)
    | Rewrote(dropped: set<string>)

  type Looks = seq<Look>

  function After(a: Looks, b: Looks): Looks { if |a| <= |b| then b[|a|..] else [] }

  /** Nothing that says what a service's fragment is failed. */
  predicate Sees(looks: Looks, misread: bool, service: string) {
    !misread && NotInspected(service) !in looks && NotFound(service) !in looks
  }

  /** Something about the service, or the override, could not be read. */
  predicate Missed(looks: Looks, service: string) {
    NotInspected(service) in looks || ReadBack(false) in looks || NotFound(service) in looks
  }

  /** A rewrite left the service's record out after something could not be read
      in the same run. */
  ghost predicate Excused(looks: Looks, service: string) {
    exists k | 0 <= k < |looks| && looks[k].Rewrote? :: service in looks[k].dropped && Missed(looks[..k], service)
  }

  lemma AfterBoth(a: Looks, b: Looks, c: Looks)
    requires a <= b <= c
    ensures a <= c && After(a, c) == After(a, b) + After(b, c)
  {}

  lemma AfterIs(a: Looks, more: Looks)
    ensures After(a, a + more) == more
  {}

  /** The records lost since are all excused. */
  ghost predicate OnlyExcused(lost: set<string>, looks: Looks, lost': set<string>, looks': Looks) {
    looks <= looks' && forall s | s in lost' && s !in lost :: Excused(looks', s)
  }

  lemma ExcusedThrough(la: set<string>, a: Looks, lb: set<string>, b: Looks, lc: set<string>, c: Looks)
    requires OnlyExcused(la, a, lb, b) && OnlyExcused(lb, b, lc, c)
    ensures OnlyExcused(la, a, lc, c)
  {
    forall s | s in lc && s !in la ensures Excused(c, s) {
      if s in lb {
        var k :| 0 <= k < |b| && b[k].Rewrote? && s in b[k].dropped && Missed(b[..k], s);
        assert c[..k] == b[..k] && c[k] == b[k];
      }
    }
  }

  // --------------------------------------------------------- what is promised

  /** A container this override put in fast mode: it idles, and its build
      directory is there. */
  ghost predicate MadeOk(path: string, c: Container, dirs: set<string>) {
    && c.fast.Some? && c.fast.value.version == FAST_VERSION && c.fast.value.override == path && c.fast.value.project != ""
    && c.dll == "" && c.service in dirs
  }

  /** The override records exactly the container's labels. */
  predicate IsRecorded(rec: Records, c: Container) { c.service in rec && c.fast == Some(rec[c.service]) }

  /** Compose makes every container of a service the same way. */
  predicate Twins(cs: Containers, made: set<string>) {
    forall id, o | id in made && id in cs && o in cs && cs[o].service == cs[id].service ::
      cs[o].fast == cs[id].fast && cs[o].dll == cs[id].dll
  }

  /** What the override made is in order, and recorded exactly when its service's
      record is not lost. */
  ghost predicate StackOk(path: string, cs: Containers, made: set<string>, file: OverrideFile, dirs: set<string>, lost: set<string>) {
    && Twins(cs, made)
    && forall id | id in made :: id in cs && MadeOk(path, cs[id], dirs) && (IsRecorded(Reads(file), cs[id]) <==> cs[id].service !in lost)
  }

  /** The services with a container that these records leave out. */
  function Dropped(cs: Containers, made: set<string>, rec: Records): set<string> {
    set id | id in made && id in cs && !IsRecorded(rec, cs[id]) :: cs[id].service
  }

  /** A service's record is lost no more when it has a recorded container. */
  function StillLost(cs: Containers, made: set<string>, rec: Records, lost: set<string>): set<string> {
    set s | s in lost && forall id | id in made && id in cs && cs[id].service == s :: !IsRecorded(rec, cs[id])
  }

  // ------------------------------------------------------------ what docker may do

  /** What a 'compose up' may leave: of the services asked for, each container is
      as it was or new, new ones made from the override, to idle, exactly when it
      was given and records the service; all of them are new when it succeeds. */
  predicate UpResult(path: string, rec: Records, dirs: set<string>, cs: Containers, made: set<string>,
                           services: set<string>, withOverride: bool, ok: bool, cs': Containers, made': set<string>) {
    && made' <= cs'.Keys && Twins(cs', made')
    && (forall id | id in cs && cs[id].service !in services :: id in cs' && (id in made' <==> id in made))
    && (forall id | id in cs && id in cs' :: cs'[id] == cs[id] && (id in made' <==> id in made))
    && (forall id | id in cs' && id !in cs :: cs'[id].service in services
          && (id in made' <==> withOverride && cs'[id].service in rec)
          && (id in made' ==> cs'[id].service in dirs && cs'[id].dll == "" && cs'[id].fast == Some(rec[cs'[id].service])))
    && (ok ==> forall id | id in cs && id in cs' :: cs[id].service !in services)
  }

  /** Whatever a recreate may leave is in order: a record is lost only where it
      was, and no more where containers are new. */
  lemma UpKeeps(path: string, file: OverrideFile, dirs: set<string>, lost: set<string>, cs: Containers, made: set<string>,
                services: set<string>, withOverride: bool, ok: bool, cs': Containers, made': set<string>)
    requires StackOk(path, cs, made, file, dirs, lost) && Recordable(path, Reads(file))
    requires UpResult(path, Reads(file), dirs, cs, made, services, withOverride, ok, cs', made')
    ensures StackOk(path, cs', made', file, dirs, StillLost(cs', made', Reads(file), lost))
    ensures ok ==> forall id | id in made' && cs'[id].service in services :: IsRecorded(Reads(file), cs'[id])
  {}

  /** What an override of eyedbg's can record. */
  ghost predicate Recordable(path: string, rec: Records) {
    forall s | s in rec :: rec[s].version == FAST_VERSION && rec[s].override == path && rec[s].project != ""
  }

  /** The override does not keep a service from being recreated. */
  predicate UpCan(rec: Records, dirs: set<string>, services: set<string>, withOverride: bool) {
    withOverride ==> forall s | s in services && s in rec :: s in dirs
  }

  /** The service has exactly one container. */
  predicate OneContainer(cs: Containers, s: string) { exists id | id in cs :: IsOnly(cs, s, id) }

  predicate IsOnly(cs: Containers, s: string, id: string) {
    id in cs && cs[id].service == s && forall o | o in cs && o != id :: cs[o].service != s
  }

  predicate OneEach(cs: Containers, services: set<string>) { forall s | s in services :: OneContainer(cs, s) }

  /** Of the services, some have a container each, the others none. */
  predicate OnlyOf(cs: Containers, services: set<string>, some: set<string>) {
    OneEach(cs, some) && forall id | id in cs && cs[id].service in services :: cs[id].service in some
  }

  /** A recreate of these services can leave one container of each of some. */
  lemma {:induction false} UpExists(path: string, rec: Records, dirs: set<string>, cs: Containers, made: set<string>,
                                    services: set<string>, withOverride: bool, ok: bool, some: set<string>)
    requires made <= cs.Keys && Twins(cs, made) && some <= services && UpCan(rec, dirs, some, withOverride)
    ensures exists cs', made' :: UpResult(path, rec, dirs, cs, made, services, withOverride, ok, cs', made') && OnlyOf(cs', services, some)
    decreases some
  {
    if some == {} {
      var keep := map id | id in cs && cs[id].service !in services :: cs[id];
      assert UpResult(path, rec, dirs, cs, made, services, withOverride, ok, keep, made * keep.Keys);
    } else {
      var s :| s in some;
      UpExists(path, rec, dirs, cs, made, services, withOverride, ok, some - {s});
      var cs', made' :| UpResult(path, rec, dirs, cs, made, services, withOverride, ok, cs', made') && OnlyOf(cs', services, some - {s});
      assert some - {s} + {s} == some;
      UpOneMore(path, rec, dirs, cs, made, services, withOverride, ok, cs', made', some - {s}, s);
    }
  }

  lemma UpOneMore(path: string, rec: Records, dirs: set<string>, cs: Containers, made: set<string>, services: set<string>,
                  withOverride: bool, ok: bool, cs': Containers, made': set<string>, some: set<string>, s: string)
    requires UpResult(path, rec, dirs, cs, made, services, withOverride, ok, cs', made') && OnlyOf(cs', services, some)
    requires s in services && s !in some && UpCan(rec, dirs, {s}, withOverride)
    ensures exists more, m :: UpResult(path, rec, dirs, cs, made, services, withOverride, ok, more, m) && OnlyOf(more, services, some + {s})
  {
    var id := FreshId(cs.Keys + cs'.Keys);
    var isMade := withOverride && s in rec;
    var c := Container(s, "", if isMade then Some(rec[s]) else None, "", false, None, "", []);
    var more, m := cs'[id := c], if isMade then made' + {id} else made';
    UpMakes(path, rec, dirs, cs, made, services, withOverride, ok, cs', made', id, c);
    OneMore(cs', services, some, id, c);
  }

  lemma UpMakes(path: string, rec: Records, dirs: set<string>, cs: Containers, made: set<string>, services: set<string>,
                withOverride: bool, ok: bool, cs': Containers, made': set<string>, id: string, c: Container)
    requires UpResult(path, rec, dirs, cs, made, services, withOverride, ok, cs', made') && id !in cs && id !in cs'
    requires c.service in services && UpCan(rec, dirs, {c.service}, withOverride) && forall o | o in cs' :: cs'[o].service != c.service
    requires c.dll == "" && c.fast == if withOverride && c.service in rec then Some(rec[c.service]) else None
    ensures UpResult(path, rec, dirs, cs, made, services, withOverride, ok, cs'[id := c],
                     if withOverride && c.service in rec then made' + {id} else made')
  {}

  lemma OneMore(cs: Containers, services: set<string>, some: set<string>, id: string, c: Container)
    requires OnlyOf(cs, services, some) && id !in cs && c.service in services && c.service !in some
    ensures OnlyOf(cs[id := c], services, some + {c.service})
  {
    var more := cs[id := c];
    forall t | t in some + {c.service} ensures OneContainer(more, t) {
      if t == c.service {
        assert IsOnly(more, t, id);
      } else {
        assert OneContainer(cs, t);
        var o :| o in cs && IsOnly(cs, t, o);
        assert IsOnly(more, t, o);
      }
    }
  }

  /** An id that none of these is. */
  ghost function FreshId(ids: set<string>): (id: string)
    ensures id !in ids
  {
    var n := Longest(ids);
    seq(n + 1, i => 'x')
  }

  ghost function Longest(ids: set<string>): (n: nat)
    ensures forall id | id in ids :: |id| <= n
  {
    if ids == {} then 0
    else
      var id :| id in ids;
      var n := Longest(ids - {id});
      assert forall o | o in ids :: o == id || o in ids - {id};
      if |id| > n then |id| else n
  }

  /** What an override can be made of. */
  predicate Writable(dirs: set<string>, frags: seq<Fragment>) {
    && 0 < |frags| <= MAX_OVERRIDE_SERVICES && (forall f | f in frags :: f.name in dirs && f.project != "")
    && (forall i, j | 0 <= i < j < |frags| :: frags[i].name != frags[j].name)
  }

  /** Every service asked for has its session. */
  predicate AllLaunch(answers: seq<Answer>, n: nat) {
    |answers| == n && forall i | 0 <= i < n :: !answers[i].error && answers[i].session.Some?
  }

  // ------------------------------------------------------------------- world

  /** Docker's containers of the project and eyedbg's files for it. */
  class World {
    const path: string
    /** Whether all that a run asks of docker, dotnet, the daemon and the file
        system here is answered, and as a run needs it: what it asks for works,
        and containers run. */
    const smooth: bool
    /** A directory with its links resolved. */
    const canonical: string -> string
    const fold: bool
    const equalFold: (string, string) -> bool
    var containers: Containers
    var file: OverrideFile
    var dirs: set<string>
    /** The containers this override put in fast mode. */
    var made: set<string>
    /** The services whose records are lost: the override does not record the
        labels of their containers that it made. */
    ghost var lost: set<string>
    /** What the run saw so far, and what earlier ones did. */
    ghost var looks: Looks
    ghost var past: seq<Looks>
    /** What the run asked for so far. */
    ghost var log: Log

    ghost predicate Valid() reads this`containers, this`made, this`file, this`dirs, this`lost {
      StackOk(path, containers, made, file, dirs, lost) && (file.Written? ==> Recordable(path, file.services))
    }

    method Fails() returns (fails: bool)
      ensures smooth ==> !fails
    {
      fails := *;
      if smooth { fails := false; }
    }

    method Works() returns (works: bool)
      ensures smooth ==> works
    {
      var fails := Fails();
      works := !fails;
    }

    /** A new run. */
    method Begin()
      modifies this`log, this`looks, this`past
      ensures log == [] && looks == [] && past == old(past) + [old(looks)]
    {
      past := past + [looks];
      log, looks := [], [];
    }

    method InspectFast(id: string) returns (ok: bool, info: Info)
      modifies this`looks
      ensures ok ==> id in containers && info.id == id && info.c == containers[id] && looks == old(looks) + [Inspected(info)]
      ensures !ok ==> looks == if id in containers then old(looks) + [NotInspected(containers[id].service)] else old(looks)
      ensures smooth && id in containers ==> ok && info.running && !info.paused && !info.restarting
    {
      var fails := Fails();
      if id !in containers || fails {
        ok := false;
        info := *;
        if id in containers { looks := looks + [NotInspected(containers[id].service)]; }
      } else {
        var running, paused, restarting := *, *, *;
        if smooth { running, paused, restarting := true, false, false; }
        ok, info := true, Info(id, containers[id], running, paused, restarting);
        looks := looks + [Inspected(info)];
      }
    }

    /** Lists the containers with a fast-mode label, whoever put it there. */
    method FastContainers() returns (ok: bool, list: seq<Listed>)
      ensures ok ==> forall c | c in list :: c.id in containers && containers[c.id].fast.Some? && c.service == containers[c.id].service
      ensures ok ==> forall id | id in containers && containers[id].fast.Some? :: Listed(id, containers[id].service) in list
      ensures ok ==> forall i, j | 0 <= i < j < |list| :: list[i].id != list[j].id
      ensures smooth ==> ok
    {
      list := [];
      var fails := Fails();
      if fails { return false, []; }
      ok := true;
      var left := set id | id in containers && containers[id].fast.Some?;
      ghost var all := left;
      while left != {}
        invariant left <= all
        invariant forall c | c in list :: c.id in all - left && c.service == containers[c.id].service
        invariant forall i, j | 0 <= i < j < |list| :: list[i].id != list[j].id
        invariant forall id | id in all - left :: Listed(id, containers[id].service) in list
        decreases left
      {
        var id :| id in left;
        forall i | 0 <= i < |list| ensures list[i].id != id { assert list[i] in list; }
        list := list + [Listed(id, containers[id].service)];
        left := left - {id};
      }
    }

    method ProbeIdle(id: string) returns (ok: bool)
      ensures smooth ==> ok
    {
      ok := Works();
    }

    method EnsureAdapter(id: string) returns (ok: bool)
      ensures smooth ==> ok
    {
      ok := Works();
    }

    /** The compose directory of a container, with its links resolved. */
    method FindDir(id: string) returns (dir: Option<string>)
      ensures dir.Some? ==> id in containers && dir.value == canonical(containers[id].composeDir)
      ensures smooth && id in containers ==> dir.Some?
    {
      var ok := Works();
      dir := if ok && id in containers then Some(canonical(containers[id].composeDir)) else None;
    }

    /** The project of a service: its path, and that below the compose directory. */
    method FindProject(service: string) returns (found: Option<(string, string)>)
      ensures smooth ==> found.Some? && found.value.1 != ""
    {
      found := *;
      if smooth && !(found.Some? && found.value.1 != "") { found := Some((service, service + ".csproj")); }
    }

    /** Recreates services of the compose files in a directory, with the override
        after them or without. */
    method ComposeUp(ref: ComposeRef, services: seq<string>, withOverride: bool) returns (ok: bool)
      requires Valid()
      modifies this`containers, this`made, this`lost, this`log
      ensures Valid() && log == old(log) + [Recreated(ref, NamesOf(services), ok)] && lost <= old(lost)
      ensures UpResult(path, Reads(file), dirs, old(containers), old(made), NamesOf(services), withOverride, ok, containers, made)
      ensures smooth && UpCan(Reads(file), dirs, NamesOf(services), withOverride) ==> ok && OneEach(containers, NamesOf(services))
    {
      var names := NamesOf(services);
      ok := *;
      if smooth { ok := true; }
      var some := if smooth && UpCan(Reads(file), dirs, names, withOverride) then names else {};
      UpExists(path, Reads(file), dirs, containers, made, names, withOverride, ok, some);
      var cs;
      var m;
      cs, m :| UpResult(path, Reads(file), dirs, containers, made, names, withOverride, ok, cs, m) && OneEach(cs, some);
      UpKeeps(path, file, dirs, lost, containers, made, names, withOverride, ok, cs, m);
      containers, made := cs, m;
      lost := StillLost(cs, m, Reads(file), lost);
      log := log + [Recreated(ref, names, ok)];
    }

    /** Builds a project's assembly into a directory, for the services that run it. */
    method Publish(what: Target, out: string, ghost services: set<string>) returns (ok: bool)
      modifies this`log
      ensures log == old(log) + [Built(what, out, services, ok)] && (smooth ==> ok)
    {
      ok := Works();
      log := log + [Built(what, out, services, ok)];
    }

    /** Whether the service's build directory has anything in it. */
    method ReadBuild(service: string) returns (ok: bool)
      modifies this`log
      ensures (ok ==> service in dirs) && (smooth && service in dirs ==> ok)
      ensures log == if ok then old(log) + [HasBuild(service)] else old(log)
    {
      ok := Works();
      ok := ok && service in dirs;
      if ok { log := log + [HasBuild(service)]; }
    }

    /** Lists the sessions of the daemon, which is started if it does not run. */
    method ListSessions() returns (list: Option<seq<SessionInfo>>)
      modifies this`log
      ensures log == if list.Some? then old(log) + [Sessions(list.value)] else old(log)
      ensures smooth ==> list.Some?
    {
      list := *;
      if smooth && !list.Some? { list := Some([]); }
      if list.Some? { log := log + [Sessions(list.value)]; }
    }

    /** Lists the sessions of a daemon that runs; with none there are none. */
    method ListRunning() returns (ok: bool, list: seq<SessionInfo>)
      modifies this`log
      ensures !ok ==> log == old(log)
      ensures ok ==> log == old(log) + [Sessions(list)] || (list == [] && log == old(log) + [NoDaemon])
      ensures smooth ==> ok
    {
      ok := Works();
      var daemon: bool;
      daemon, list := *, *;
      if !ok { return; }
      if daemon {
        log := log + [Sessions(list)];
      } else {
        list := [];
        log := log + [NoDaemon];
      }
    }

    /** Reads what a session leaves, as far as it can be read. */
    method AskSession(service: string, session: string) returns (left: C.Left)
      modifies this`log
      ensures log == old(log) + [Told(service, session, left)]
    {
      left := *;
      log := log + [Told(service, session, left)];
    }

    method StopSession(service: string, session: string) returns (ok: bool)
      modifies this`log
      ensures log == old(log) + [Stopped(service, session, ok)] && (smooth ==> ok)
    {
      ok := Works();
      log := log + [Stopped(service, session, ok)];
    }

    /** Replaces the files of a service with those in a directory. */
    method MirrorInto(service: string, from: string) returns (ok: bool)
      requires service in dirs
      modifies this`log
      ensures log == old(log) + [Replaced(service, from, ok)] && (smooth ==> ok)
    {
      ok := Works();
      log := log + [Replaced(service, from, ok)];
    }

    /** Asks the daemon to launch with these breakpoints and exception mode; it
        answers for each service the session, or an error, or neither, or not at
        all. */
    method AskLaunch(services: seq<string>, bps: seq<C.Spec>, mode: C.Mode) returns (answer: Option<seq<Answer>>)
      modifies this`log
      ensures log == old(log) + [Asked(NamesOf(services), bps, mode)] && (smooth ==> answer.Some? && AllLaunch(answer.value, |services|))
    {
      answer := *;
      if smooth && !(answer.Some? && AllLaunch(answer.value, |services|)) { answer := Some(seq(|services|, i => Answer(false, Some("")))); }
      log := log + [Asked(NamesOf(services), bps, mode)];
    }

    /** Reads the override; a file that can't be read records nothing. */
    method ReadRecorded() returns (rec: Records, ok: bool)
      modifies this`looks
      ensures rec == (if ok then Reads(file) else map[]) && looks == old(looks) + [ReadBack(ok)]
      ensures smooth && !ok ==> file.Broken?
    {
      var fails := Fails();
      ok := !fails && !file.Broken?;
      rec := if ok then Reads(file) else map[];
      looks := looks + [ReadBack(ok)];
    }

    /** Whether the directory of a service's build is there, as far as can be
        told. */
    method FindServiceDir(service: string) returns (ok: bool)
      modifies this`looks
      ensures ok ==> service in dirs && looks == old(looks)
      ensures !ok ==> looks == if service in dirs then old(looks) + [NotFound(service)] else old(looks)
      ensures smooth && service in dirs ==> ok
    {
      var fails := Fails();
      ok := !fails && service in dirs;
      if !ok && service in dirs { looks := looks + [NotFound(service)]; }
    }

    /** Writes the override at once: all of it or, when it fails, nothing. Only
        what could not be read in the run may be left out. */
    method WriteOverride(frags: seq<Fragment>) returns (ok: bool)
      requires Valid()
      requires forall s | s in Dropped(containers, made, FileOf(path, frags)) :: s in lost || Missed(looks, s)
      modifies this`file, this`lost, this`looks
      ensures Valid() && OnlyExcused(old(lost), old(looks), lost, looks)
      ensures ok ==>
        && file == Written(FileOf(path, frags)) && Writable(dirs, frags)
        && lost == Dropped(containers, made, FileOf(path, frags)) && looks == old(looks) + [Rewrote(lost - old(lost))]
      ensures !ok ==> file == old(file) && lost == old(lost) && looks == old(looks)
      ensures smooth && Writable(dirs, frags) ==> ok
    {
      if |frags| == 0 || |frags| > MAX_OVERRIDE_SERVICES { return false; }
      if exists i, j | 0 <= i < j < |frags| :: frags[i].name == frags[j].name { return false; }
      if exists f | f in frags :: f.name !in dirs || f.project == "" { return false; }
      var fails := Fails();
      if fails { return false; }
      FileIsRecordable(path, frags);
      ghost var before := lost;
      file := Written(FileOf(path, frags));
      lost := Dropped(containers, made, FileOf(path, frags));
      DroppedKeeps(path, containers, made, FileOf(path, frags), dirs, old(file), before);
      Rewriting(before, looks, lost);
      looks := looks + [Rewrote(lost - before)];
      ok := true;
    }

    /** Makes the directory of a service's build, if it is missing. */
    method ServiceDir(service: string) returns (ok: bool)
      requires Valid()
      modifies this`dirs
      ensures Valid() && old(dirs) <= dirs && (ok ==> service in dirs) && (smooth ==> ok)
    {
      var fails := Fails();
      if fails { return false; }
      dirs := dirs + {service};
      ok := Works();
    }

    /** Whether the name is kept, ignoring case where the file system does. */
    predicate InKeep(keep: set<string>, name: string) {
      name in keep || (fold && exists k | k in keep :: equalFold(k, name))
    }

    /** Removes the directories of services not in keep, as far as it can. */
    method PruneServices(keep: set<string>)
      requires Valid() && forall id | id in made :: id in containers && containers[id].service in keep
      modifies this`dirs
      ensures Valid() && dirs <= old(dirs) && forall s | s in old(dirs) && InKeep(keep, s) :: s in dirs
    {
      var left := set s | s in dirs && !InKeep(keep, s);
      while left != {}
        invariant left <= dirs <= old(dirs) && forall s | s in left :: !InKeep(keep, s)
        invariant forall s | s in old(dirs) && InKeep(keep, s) :: s in dirs
        decreases left
      {
        var s :| s in left;
        left := left - {s};
        var fails := Fails();
        if !fails { dirs := dirs - {s}; }
      }
    }

    /** Removes eyedbg's directory for the project with all in it. */
    method RemoveProjectDir() returns (ok: bool)
      requires Valid() && made == {}
      modifies this`dirs, this`file
      ensures Valid() && (ok ==> file == Absent && dirs == {})
      ensures dirs <= old(dirs) && (file == old(file) || file == Absent)
    {
      var fails := Fails();
      if fails { return false; }
      file := Absent;
      fails := Fails();
      if fails { return false; }
      dirs := {};
      ok := true;
    }
  }

  lemma DroppedKeeps(path: string, cs: Containers, made: set<string>, rec: Records, dirs: set<string>, file: OverrideFile, lost: set<string>)
    requires StackOk(path, cs, made, file, dirs, lost)
    ensures StackOk(path, cs, made, Written(rec), dirs, Dropped(cs, made, rec))
  {
    forall id | id in made ensures IsRecorded(rec, cs[id]) <==> cs[id].service !in Dropped(cs, made, rec) {
      if cs[id].service in Dropped(cs, made, rec) {
        var o :| o in made && o in cs && !IsRecorded(rec, cs[o]) && cs[o].service == cs[id].service;
      }
    }
  }

  lemma Rewriting(lost: set<string>, looks: Looks, lost': set<string>)
    requires forall s | s in lost' :: s in lost || Missed(looks, s)
    ensures OnlyExcused(lost, looks, lost', looks + [Rewrote(lost' - lost)])
  {
    var more := looks + [Rewrote(lost' - lost)];
    assert more[..|looks|] == looks && more[|looks|].Rewrote?;
    assert forall s | s in lost' && s !in lost :: s in more[|looks|].dropped;
  }

  lemma {:induction false} FileIsRecordable(path: string, frags: seq<Fragment>)
    requires forall f | f in frags :: f.project != ""
    ensures Recordable(path, FileOf(path, frags))
  {
    if frags != [] { FileIsRecordable(path, frags[..|frags| - 1]); }
  }

  /** The file records of each service what its fragment says. */
  lemma {:induction false} FileHas(path: string, frags: seq<Fragment>, i: nat)
    requires i < |frags| && forall j, k | 0 <= j < k < |frags| :: frags[j].name != frags[k].name
    ensures frags[i].name in FileOf(path, frags) && FileOf(path, frags)[frags[i].name] == LabelsOf(path, frags[i])
  {
    if i < |frags| - 1 {
      FileHas(path, frags[..|frags| - 1], i);
      assert frags[i].name != frags[|frags| - 1].name;
    }
  }

  /** The file records exactly the labels of its fragments. */
  lemma {:induction false} FileRecords(path: string, frags: seq<Fragment>, service: string, fl: Labels)
    requires forall i, j | 0 <= i < j < |frags| :: frags[i].name != frags[j].name
    ensures service in FileOf(path, frags) && FileOf(path, frags)[service] == fl <==> HasFragment(path, frags, service, Some(fl))
  {
    if HasFragment(path, frags, service, Some(fl)) {
      var f :| f in frags && f.name == service && Some(fl) == Some(LabelsOf(path, f));
      var i :| 0 <= i < |frags| && frags[i] == f;
      FileHas(path, frags, i);
    }
    if service in FileOf(path, frags) && FileOf(path, frags)[service] == fl { FromFragment(path, frags, service); }
  }

  lemma {:induction false} FromFragment(path: string, frags: seq<Fragment>, service: string)
    requires service in FileOf(path, frags)
    ensures HasFragment(path, frags, service, Some(FileOf(path, frags)[service]))
  {
    var n := |frags| - 1;
    if frags[n].name != service {
      FromFragment(path, frags[..n], service);
      var f :| f in frags[..n] && f.name == service && FileOf(path, frags)[service] == LabelsOf(path, f);
      assert f in frags;
    } else {
      assert frags[n] in frags;
    }
  }

  // ---------------------------------------------------------------- staying

  /** The fragment of a service already in fast mode, of what its container's
      labels are; none when they are not the recorded ones or its build directory
      is gone. */
  function FragmentFor(path: string, rec: Records, dirs: set<string>, service: string, fast: Option<Labels>): Option<Fragment> {
    if fast.None? || fast.value.version != FAST_VERSION || fast.value.project == "" || !Corroborates(path, rec, service, fast.value)
       || service !in dirs
    then None
    else Some(Fragment(service, fast.value.dll, fast.value.workDir, fast.value.project))
  }

  /** The fragment of a service after these looks at its container, the override
      and its directory: none when one of them failed. */
  function FragmentSeen(path: string, rec: Records, dirs: set<string>, service: string, fast: Option<Labels>,
                        looks: Looks, misread: bool): Option<Fragment> {
    if Sees(looks, misread, service) then FragmentFor(path, rec, dirs, service, fast) else None
  }

  /** A container this override made has its fragment exactly when it is
      recorded and was seen. */
  lemma MadeHasFragment(path: string, c: Container, file: OverrideFile, dirs: set<string>, looks: Looks, misread: bool)
    requires MadeOk(path, c, dirs)
    ensures FragmentSeen(path, Reads(file), dirs, c.service, c.fast, looks, misread).Some?
            <==> IsRecorded(Reads(file), c) && Sees(looks, misread, c.service)
  {}

  /** What is recorded of the services that are not about to change: those whose
      record is not lost, and that were seen. */
  ghost predicate Stays(path: string, cs: Containers, made: set<string>, lost: set<string>, looks: Looks, misread: bool,
                        frags: seq<Fragment>, skip: set<string>) {
    && (forall f | f in frags :: f.name !in skip)
    && (forall i, j | 0 <= i < j < |frags| :: frags[i].name != frags[j].name)
    && (forall id | id in made && id in cs && cs[id].service !in skip :: StaysOne(path, cs[id], lost, looks, misread, frags))
  }

  ghost predicate StaysOne(path: string, c: Container, lost: set<string>, looks: Looks, misread: bool, frags: seq<Fragment>) {
    HasFragment(path, frags, c.service, c.fast) <==> c.service !in lost && Sees(looks, misread, c.service)
  }

  ghost predicate HasFragment(path: string, frags: seq<Fragment>, service: string, fast: Option<Labels>) {
    exists f | f in frags :: f.name == service && fast == Some(LabelsOf(path, f))
  }

  /** A new override, when what enters fast mode had no container made from the
      old one, records a container exactly when the old one did and its service
      was seen. */
  lemma RewriteKeeps(path: string, cs: Containers, made: set<string>, file: OverrideFile, dirs: set<string>, lost: set<string>,
                     before: Looks, now: Looks, misread: bool, entering: seq<Fragment>, staying: seq<Fragment>)
    requires StackOk(path, cs, made, file, dirs, lost) && before <= now && (misread ==> ReadBack(false) in now)
    requires Stays(path, cs, made, lost, After(before, now), misread, staying, set f | f in entering :: f.name)
    requires forall i, j | 0 <= i < j < |entering| :: entering[i].name != entering[j].name
    requires forall id, f | id in made && f in entering :: cs[id].service != f.name
    ensures Rewritten(cs, made, Reads(file), FileOf(path, entering + staying), After(before, now), misread)
    ensures forall s | s in Dropped(cs, made, FileOf(path, entering + staying)) :: s in lost || Missed(now, s)
  {
    var frags := entering + staying;
    forall i, j | 0 <= i < j < |frags| ensures frags[i].name != frags[j].name {
      if i < |entering| && j >= |entering| {
        assert entering[i] in entering && staying[j - |entering|] in staying;
      }
    }
    forall id | id in made
      ensures IsRecorded(FileOf(path, frags), cs[id]) <==> IsRecorded(Reads(file), cs[id]) && Sees(After(before, now), misread, cs[id].service)
    {
      assert StaysOne(path, cs[id], lost, After(before, now), misread, staying);
      FileRecords(path, frags, cs[id].service, cs[id].fast.value);
      EntersElsewhere(path, entering, staying, cs[id].service, cs[id].fast);
    }
  }

  /** What of the containers the override made is recorded after a rewrite:
      exactly what was before, and was seen. */
  ghost predicate Rewritten(cs: Containers, made: set<string>, rec: Records, rec': Records, looks: Looks, misread: bool) {
    forall id | id in made && id in cs ::
      (IsRecorded(rec', cs[id]) <==> IsRecorded(rec, cs[id]) && Sees(looks, misread, cs[id].service))
  }

  lemma RewrittenLooks(cs: Containers, made: set<string>, rec: Records, rec': Records, before: Looks, now: Looks, misread: bool, dropped: set<string>)
    requires Rewritten(cs, made, rec, rec', After(before, now), misread) && before <= now
    ensures Rewritten(cs, made, rec, rec', After(before, now + [Rewrote(dropped)]), misread)
  {
    assert After(before, now + [Rewrote(dropped)]) == After(before, now) + [Rewrote(dropped)];
  }

  lemma EntersElsewhere(path: string, entering: seq<Fragment>, staying: seq<Fragment>, service: string, fast: Option<Labels>)
    requires forall f | f in entering :: f.name != service
    ensures HasFragment(path, entering + staying, service, fast) <==> HasFragment(path, staying, service, fast)
  {
    if HasFragment(path, entering + staying, service, fast) {
      var f :| f in entering + staying && f.name == service && fast == Some(LabelsOf(path, f));
    }
    if HasFragment(path, staying, service, fast) {
      var f :| f in staying && f.name == service && fast == Some(LabelsOf(path, f));
      assert f in entering + staying;
    }
  }

  /** One run's hold on the stack. */
  class Stack {
    const w: World
    /** What the override records: read once, and again after a write; and
        whether the last read failed. */
    var recorded: Option<Records>
    var recordedErr: bool
    var upFailed: bool
    var keepProject: bool

    constructor (w: World)
      ensures this.w == w && IsNew()
    {
      this.w := w;
      recorded, recordedErr, upFailed, keepProject := None, false, false, false;
    }

    predicate IsNew() reads this { recorded == None && !recordedErr && !upFailed && !keepProject }

    /** The cached records are those of the file as it is, unless the read
        failed. */
    ghost predicate Valid() reads this`recorded, this`recordedErr, w`containers, w`made, w`file, w`dirs, w`lost {
      w.Valid() && (recorded.Some? ==> recorded.value == if recordedErr then map[] else Reads(w.file))
    }

    /** A read that failed was one of this run's, for a cause. */
    ghost predicate Honest() reads this`recordedErr, w`looks, w`file {
      recordedErr ==> ReadBack(false) in w.looks && (w.smooth ==> w.file.Broken?)
    }

    method RecordedFast(service: string, fl: Labels) returns (b: bool)
      requires Valid() && Honest()
      modifies this`recorded, this`recordedErr, w`looks
      ensures Valid() && Honest() && old(w.looks) <= w.looks && recorded.Some?
      ensures b <==> !recordedErr && Corroborates(w.path, Reads(w.file), service, fl)
      ensures old(recorded).Some? ==> recorded == old(recorded) && recordedErr == old(recordedErr) && w.looks == old(w.looks)
      ensures old(recorded).None? ==> w.looks == old(w.looks) + [ReadBack(!recordedErr)]
    {
      if recorded.None? {
        var rec, ok := w.ReadRecorded();
        recorded, recordedErr := Some(rec), !ok;
      }
      b := Corroborates(w.path, recorded.value, service, fl);
    }

    method WriteOverride(frags: seq<Fragment>) returns (ok: bool)
      requires Valid()
      requires forall s | s in Dropped(w.containers, w.made, FileOf(w.path, frags)) :: s in w.lost || Missed(w.looks, s)
      modifies this`recorded, w`file, w`lost, w`looks
      ensures Valid() && recorded.None? && OnlyExcused(old(w.lost), old(w.looks), w.lost, w.looks)
      ensures ok ==>
        && w.file == Written(FileOf(w.path, frags)) && Writable(w.dirs, frags)
        && w.lost == Dropped(w.containers, w.made, FileOf(w.path, frags)) && w.looks == old(w.looks) + [Rewrote(w.lost - old(w.lost))]
      ensures !ok ==> w.file == old(w.file) && w.lost == old(w.lost) && w.looks == old(w.looks)
      ensures w.smooth && Writable(w.dirs, frags) ==> ok
    {
      recorded := None;
      ok := w.WriteOverride(frags);
    }

    method FragmentOf(c: Listed) returns (r: Option<Fragment>)
      requires Valid() && Honest() && c.id in w.containers && w.containers[c.id].service == c.service
      modifies this`recorded, this`recordedErr, w`looks
      ensures Valid() && Honest() && old(w.looks) <= w.looks
      ensures GivesFragment(w.path, Reads(w.file), w.dirs, c.service, w.containers[c.id].fast, After(old(w.looks), w.looks),
                            recorded.Some?, Misread(), r)
      ensures old(recorded).Some? ==> recorded == old(recorded) && recordedErr == old(recordedErr)
    {
      ghost var before, rec, dirs, fast := w.looks, Reads(w.file), w.dirs, w.containers[c.id].fast;
      var ok, info := w.InspectFast(c.id);
      if !ok || info.c.fast.None? || info.c.fast.value.version != FAST_VERSION || info.c.fast.value.project == "" {
        GivesUnfit(w.path, rec, dirs, c.service, fast, before, if ok then Inspected(info) else NotInspected(c.service), w.looks, recorded.Some?, Misread());
        return None;
      }
      ghost var seen := w.looks;
      var believed := RecordedFast(c.service, info.c.fast.value);
      SeesInspected(before, info, seen, w.looks, if |w.looks| == |seen| then [] else [ReadBack(!recordedErr)], recordedErr, c.service);
      if !believed {
        GivesUnbelieved(w.path, rec, dirs, c.service, fast, before, w.looks, recordedErr);
        return None;
      }
      seen := w.looks;
      var there := ServiceDirThere(c.service);
      if !there {
        GivesUnfound(w.path, rec, dirs, c.service, fast, before, seen, w.looks);
        return None;
      }
      r := Some(Fragment(c.service, info.c.fast.value.dll, info.c.fast.value.workDir, info.c.fast.value.project));
      GivesFound(w.path, rec, dirs, c.service, fast, before, w.looks, r);
    }

    predicate Misread() reads this`recorded, this`recordedErr { recorded.Some? && recordedErr }

    /** The fragments of the services in fast mode that are not in skip. */
    method StayingFragments(fast: seq<Listed>, skip: set<string>) returns (frags: seq<Fragment>)
      requires Valid() && Honest()
      requires forall c | c in fast :: c.id in w.containers && c.service == w.containers[c.id].service
      requires forall id | id in w.made :: Listed(id, w.containers[id].service) in fast
      modifies this`recorded, this`recordedErr, w`looks
      ensures Valid() && Honest() && old(w.looks) <= w.looks
      ensures Stays(w.path, w.containers, w.made, w.lost, After(old(w.looks), w.looks), recordedErr, frags, skip)
      ensures AllRecorded(w.path, Reads(w.file), w.dirs, frags)
    {
      frags := [];
      var seen: set<string> := {};
      assert After(w.looks, w.looks) == [];
      for i := 0 to |fast|
        invariant Valid() && Honest() && old(w.looks) <= w.looks
        invariant forall k | 0 <= k < i :: fast[k].service in skip || fast[k].service in seen
        invariant FragsOk(w.path, Reads(w.file), w.dirs, frags, seen, skip)
        invariant StaysSoFar(w.path, w.containers, w.made, w.lost, After(old(w.looks), w.looks), recorded.Some?, Misread(), frags, seen)
      {
        var c := fast[i];
        if c.service in skip || c.service in seen { continue; }
        ghost var before, looks, read, misread := frags, w.looks, recorded.Some?, Misread();
        var frag := FragmentOf(c);
        AfterBoth(old(w.looks), looks, w.looks);
        if frag.Some? { frags := frags + [frag.value]; }
        StaysOneMore(w.path, w.containers, w.made, w.file, w.dirs, w.lost, After(old(w.looks), looks), After(looks, w.looks),
                     read, misread, recorded.Some?, Misread(), before, c, frag, seen, skip);
        seen := seen + {c.service};
      }
      forall id | id in w.made && w.containers[id].service !in skip
        ensures StaysOne(w.path, w.containers[id], w.lost, After(old(w.looks), w.looks), recordedErr, frags)
      {
        var k :| 0 <= k < |fast| && fast[k] == Listed(id, w.containers[id].service);
      }
    }

    method ServiceDirThere(service: string) returns (ok: bool)
      modifies w`looks
      ensures (ok ==> service in w.dirs && w.looks == old(w.looks))
      ensures !ok ==> w.looks == if service in w.dirs then old(w.looks) + [NotFound(service)] else old(w.looks)
      ensures w.smooth && service in w.dirs ==> ok
    {
      ok := w.FindServiceDir(service);
    }

    /** Removes what no container of the project refers to any more. */
    method Prune() returns (removed: bool)
      requires Valid()
      modifies w`dirs, w`file
      ensures w.Valid()
      ensures upFailed ==> w.dirs == old(w.dirs) && w.file == old(w.file)
      ensures w.file != old(w.file) || removed ==> w.made == {} && !keepProject
      ensures removed ==> w.file == Absent && w.dirs == {}
    {
      if upFailed { return false; }
      var ok, fast := w.FastContainers();
      if !ok { return false; }
      var keep := set c | c in fast :: c.service;
      assert forall id | id in w.made :: Listed(id, w.containers[id].service) in fast;
      w.PruneServices(keep);
      if keep == {} && !keepProject {
        removed := w.RemoveProjectDir();
      } else {
        removed := false;
      }
    }

    /** Whether eyedbg's directory holds anything a container can mount. */
    method HoldsMounted() returns (b: bool)
      ensures !b ==> w.file.Absent? && w.dirs == {}
    {
      b := w.file != Absent || w.dirs != {};
      if !b { b := *; }
    }
  }

  /** The fragment is what was seen says; unless the override was read, the
      container was not seen or has none. */
  predicate GivesFragment(path: string, rec: Records, dirs: set<string>, service: string, fast: Option<Labels>, looks: Looks,
                          read: bool, misread: bool, r: Option<Fragment>) {
    && r == FragmentSeen(path, rec, dirs, service, fast, looks, misread)
    && looks != [] && (forall l | l in looks :: IsAbout(l, service))
    && (read || NotInspected(service) in looks || FragmentFor(path, rec, dirs, service, fast).None?)
  }

  /** The container was seen. */
  predicate SeenSoFar(before: Looks, now: Looks, service: string) {
    && before <= now && After(before, now) != [] && (forall l | l in After(before, now) :: IsAbout(l, service))
    && NotInspected(service) !in After(before, now) && NotFound(service) !in After(before, now)
  }

  lemma GivesUnfit(path: string, rec: Records, dirs: set<string>, service: string, fast: Option<Labels>, before: Looks, l: Look, now: Looks,
              read: bool, misread: bool)
    requires now == before + [l] && (l == NotInspected(service) || (l.Inspected? && l.info.c.service == service))
    requires l.Inspected? ==> FragmentFor(path, rec, dirs, service, fast).None?
    ensures before <= now && GivesFragment(path, rec, dirs, service, fast, After(before, now), read, misread, None)
  {}

  lemma SeesInspected(before: Looks, info: Info, seen: Looks, now: Looks, more: Looks, misread: bool, service: string)
    requires seen == before + [Inspected(info)] && info.c.service == service && now == seen + more
    requires more == [] || more == [ReadBack(!misread)]
    ensures SeenSoFar(before, now, service)
  {
    assert After(before, now) == [Inspected(info)] + more;
  }

  lemma GivesUnbelieved(path: string, rec: Records, dirs: set<string>, service: string, fast: Option<Labels>, before: Looks, now: Looks, misread: bool)
    requires SeenSoFar(before, now, service) && (misread || FragmentFor(path, rec, dirs, service, fast).None?)
    ensures GivesFragment(path, rec, dirs, service, fast, After(before, now), true, misread, None)
  {}

  lemma GivesUnfound(path: string, rec: Records, dirs: set<string>, service: string, fast: Option<Labels>, before: Looks, seen: Looks, now: Looks)
    requires SeenSoFar(before, seen, service)
    requires now == if service in dirs then seen + [NotFound(service)] else seen
    ensures before <= now && GivesFragment(path, rec, dirs, service, fast, After(before, now), true, false, None)
  {
    if service in dirs { assert After(before, now) == After(before, seen) + [NotFound(service)]; }
  }

  lemma GivesFound(path: string, rec: Records, dirs: set<string>, service: string, fast: Option<Labels>, before: Looks, now: Looks, r: Option<Fragment>)
    requires SeenSoFar(before, now, service) && r == FragmentFor(path, rec, dirs, service, fast)
    ensures GivesFragment(path, rec, dirs, service, fast, After(before, now), true, false, r)
  {}

  predicate IsAbout(l: Look, service: string) {
    match l
    case Inspected(info) => info.c.service == service
    case NotInspected(s) => s == service
    case NotFound(s) => s == service
    case ReadBack(_) => true
    case _ => false
  }

  /** What the loop over the listed containers keeps: the services seen so far
      have their fragments, and unless the override was read, none was. */
  ghost predicate StaysSoFar(path: string, cs: Containers, made: set<string>, lost: set<string>, looks: Looks, read: bool,
                             misread: bool, frags: seq<Fragment>, seen: set<string>) {
    && (misread ==> read)
    && (forall s | s !in seen :: NotInspected(s) !in looks && NotFound(s) !in looks)
    && (forall id | id in made && id in cs && cs[id].service in seen :: StaysOne(path, cs[id], lost, looks, misread, frags))
    && (!read ==> forall id | id in made && id in cs && cs[id].service in seen && cs[id].service !in lost :: NotInspected(cs[id].service) in looks)
  }

  /** One fragment a service, of what is recorded of it already. */
  ghost predicate FragsOk(path: string, rec: Records, dirs: set<string>, frags: seq<Fragment>, seen: set<string>, skip: set<string>) {
    && (forall f | f in frags :: f.name in seen && f.name !in skip)
    && (forall j, k | 0 <= j < k < |frags| :: frags[j].name != frags[k].name)
    && AllRecorded(path, rec, dirs, frags)
  }

  predicate AllRecorded(path: string, rec: Records, dirs: set<string>, frags: seq<Fragment>) {
    forall f | f in frags :: f.name in dirs && f.name in rec && rec[f.name] == LabelsOf(path, f)
  }

  lemma StaysOneMore(path: string, cs: Containers, made: set<string>, file: OverrideFile, dirs: set<string>, lost: set<string>,
                     looks: Looks, more: Looks, read: bool, misread: bool, read': bool, misread': bool,
                     before: seq<Fragment>, c: Listed, frag: Option<Fragment>, seen: set<string>, skip: set<string>)
    requires StackOk(path, cs, made, file, dirs, lost) && c.id in cs && cs[c.id].service == c.service && c.service !in seen
    requires StaysSoFar(path, cs, made, lost, looks, read, misread, before, seen)
    requires FragsOk(path, Reads(file), dirs, before, seen, skip) && c.service !in skip
    requires GivesFragment(path, Reads(file), dirs, c.service, cs[c.id].fast, more, read', misread', frag)
    requires (read ==> read' && misread' == misread) && (misread' ==> read')
    ensures var frags := if frag.Some? then before + [frag.value] else before;
      && FragsOk(path, Reads(file), dirs, frags, seen + {c.service}, skip)
      && StaysSoFar(path, cs, made, lost, looks + more, read', misread', frags, seen + {c.service})
  {
    var frags := if frag.Some? then before + [frag.value] else before;
    forall id | id in made && cs[id].service in seen
      ensures StaysOne(path, cs[id], lost, looks + more, misread', frags)
    {
      assert StaysOne(path, cs[id], lost, looks, misread, before);
      HasStill(path, before, frag, cs[id].service, cs[id].fast);
    }
    forall id | id in made && cs[id].service == c.service
      ensures StaysOne(path, cs[id], lost, looks + more, misread', frags)
    {
      MadeHasFragment(path, cs[id], file, dirs, more, misread');
      if frag.Some? { assert frag.value in frags; }
      HasNow(path, before, frag, c.service, cs[id].fast);
    }
  }

  lemma HasStill(path: string, before: seq<Fragment>, frag: Option<Fragment>, service: string, fast: Option<Labels>)
    requires frag.Some? ==> frag.value.name != service
    ensures HasFragment(path, if frag.Some? then before + [frag.value] else before, service, fast) <==> HasFragment(path, before, service, fast)
  {
    if frag.Some? {
      var more := before + [frag.value];
      if HasFragment(path, more, service, fast) { var f :| f in more && f.name == service && fast == Some(LabelsOf(path, f)); }
      if HasFragment(path, before, service, fast) {
        var f :| f in before && f.name == service && fast == Some(LabelsOf(path, f));
        assert f in more;
      }
    }
  }

  lemma HasNow(path: string, before: seq<Fragment>, frag: Option<Fragment>, service: string, fast: Option<Labels>)
    requires forall f | f in before :: f.name != service
    requires frag.Some? ==> frag.value.name == service && fast == Some(LabelsOf(path, frag.value))
    ensures HasFragment(path, if frag.Some? then before + [frag.value] else before, service, fast) <==> frag.Some?
  {
    if frag.Some? { assert frag.value in before + [frag.value]; }
  }
}
