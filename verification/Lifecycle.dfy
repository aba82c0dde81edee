/** Any sequence of launch and restore runs over one compose project, one at a
    time (the lock), with whatever docker's other users do in between. */
module Lifecycle {
  import opened Wrappers
  import opened FastMode
  import L = Launch
  import R = Restore

  datatype Turn = DoLaunch(req: L.Request) | DoRestore(project: string, names: seq<string>) | Elsewhere

  /** What others may do between two runs: take containers away, make new ones as
      built, or make new ones from the override, where its directory is. */
  predicate ElseResult(rec: Records, dirs: set<string>, cs: Containers, made: set<string>, cs': Containers, made': set<string>) {
    && made' <= cs'.Keys && Twins(cs', made')
    && (forall id | id in cs && id in cs' :: cs'[id] == cs[id] && (id in made' <==> id in made))
    && (forall id | id in made' && id !in cs ::
          cs'[id].service in rec && cs'[id].service in dirs && cs'[id].dll == "" && cs'[id].fast == Some(rec[cs'[id].service]))
  }

  lemma ElseKeeps(path: string, file: OverrideFile, dirs: set<string>, lost: set<string>, cs: Containers, made: set<string>,
                  cs': Containers, made': set<string>)
    requires StackOk(path, cs, made, file, dirs, lost) && Recordable(path, Reads(file))
    requires ElseResult(Reads(file), dirs, cs, made, cs', made')
    ensures StackOk(path, cs', made', file, dirs, StillLost(cs', made', Reads(file), lost))
  {}

  predicate RowsOk(cs: Containers, rows: seq<L.Row>) {
    forall i | 0 <= i < |rows| :: rows[i].id in cs ==> cs[rows[i].id].service == rows[i].service
  }

  /** The containers a launch selects of what docker compose ps lists. */
  method Ps(w: World) returns (rows: seq<L.Row>)
    ensures RowsOk(w.containers, rows)
  {
    assert RowsOk(w.containers, []);
    rows :| RowsOk(w.containers, rows);
  }

  method Otherwise(w: World)
    requires w.Valid()
    modifies w`containers, w`made, w`lost
    ensures w.Valid() && w.lost <= old(w.lost)
  {
    assert ElseResult(Reads(w.file), w.dirs, w.containers, w.made, map[], {});
    var cs, made :| ElseResult(Reads(w.file), w.dirs, w.containers, w.made, cs, made);
    ElseKeeps(w.path, w.file, w.dirs, w.lost, w.containers, w.made, cs, made);
    w.containers, w.made := cs, made;
    w.lost := StillLost(cs, made, Reads(w.file), w.lost);
  }

  method OneLaunch(w: World, req: L.Request)
    requires w.Valid()
    modifies w
    ensures w.Valid() && w.past == old(w.past) + [old(w.looks)]
    ensures forall s | s in w.lost && s !in old(w.lost) :: Excused(w.looks, s)
  {
    var rows := Ps(w);
    var stack := new Stack(w);
    var run := new L.LaunchRun(stack, req, rows);
    var _ := run.Run();
  }

  method OneRestore(w: World, project: string, names: seq<string>)
    requires w.Valid()
    modifies w
    ensures w.Valid() && w.past == old(w.past) + [old(w.looks)]
    ensures forall s | s in w.lost && s !in old(w.lost) :: Excused(w.looks, s)
  {
    var stack := new Stack(w);
    var run := new R.RestoreRun(stack, project, names);
    var _ := run.Run();
  }

  /** What each run saw, the last one included. */
  function Seen(past: seq<Looks>, looks: Looks): seq<Looks> { past + [looks] }

  /** In a run after the first n, a rewrite left the service's record out after
      something could not be read in that run. */
  ghost predicate ExcusedSince(runs: seq<Looks>, n: nat, s: string) { exists k | n <= k < |runs| :: Excused(runs[k], s) }

  lemma NextRun(past: seq<Looks>, looks: Looks, now: Looks, n: nat, lost: set<string>, mid: set<string>, end: set<string>)
    requires n <= |past| + 1
    requires forall s | s in mid && s !in lost :: ExcusedSince(Seen(past, looks), n, s)
    requires forall s | s in end && s !in mid :: Excused(now, s)
    ensures forall s | s in end && s !in lost :: ExcusedSince(Seen(past + [looks], now), n, s)
  {
    var before, runs := Seen(past, looks), Seen(past + [looks], now);
    assert runs[|runs| - 1] == now;
    forall s | s in end && s !in lost ensures ExcusedSince(runs, n, s) {
      if s in mid {
        var k :| n <= k < |before| && Excused(before[k], s);
        assert runs[k] == before[k];
      }
    }
  }

  /** Whichever calls fail in whichever runs: a container the override put in fast
      mode has its build directory; and its labels are recorded exactly when its
      service's record is not lost. A record is lost only by a rewrite of the
      override, in a run in which an inspection of the service's container, the
      read of the override or that of the service's directory failed before. */
  method AnyRuns(w: World, turns: seq<Turn>)
    requires w.Valid()
    modifies w
    ensures w.Valid()
    ensures forall id | id in w.made ::
              && id in w.containers && w.containers[id].fast.Some? && w.containers[id].service in w.dirs
              && (Corroborates(w.path, Reads(w.file), w.containers[id].service, w.containers[id].fast.value)
                  <==> w.containers[id].service !in w.lost)
    ensures forall s | s in w.lost && s !in old(w.lost) :: ExcusedSince(Seen(w.past, w.looks), |old(w.past)| + 1, s)
  {
    ghost var n := |w.past| + 1;
    for i := 0 to |turns|
      invariant w.Valid() && n <= |w.past| + 1
      invariant forall s | s in w.lost && s !in old(w.lost) :: ExcusedSince(Seen(w.past, w.looks), n, s)
    {
      ghost var past, looks, lost := w.past, w.looks, w.lost;
      match turns[i] {
        case DoLaunch(req) =>
          OneLaunch(w, req);
          NextRun(past, looks, w.looks, n, old(w.lost), lost, w.lost);
        case DoRestore(project, names) =>
          OneRestore(w, project, names);
          NextRun(past, looks, w.looks, n, old(w.lost), lost, w.lost);
        case Elsewhere => Otherwise(w);
      }
    }
    RecordedIsCorroborated(w.path, w.containers, w.made, w.file, w.dirs, w.lost);
  }

  lemma RecordedIsCorroborated(path: string, cs: Containers, made: set<string>, file: OverrideFile, dirs: set<string>, lost: set<string>)
    requires StackOk(path, cs, made, file, dirs, lost) && (file.Written? ==> Recordable(path, file.services))
    ensures forall id | id in made :: cs[id].fast.Some?
              && (Corroborates(path, Reads(file), cs[id].service, cs[id].fast.value) <==> IsRecorded(Reads(file), cs[id]))
  {}

  // --------------------------------------------------------------- witnesses

  /** After these looks at its container a service has no fragment, and the
      override that another service is written into loses its record; seen, it
      has one. */
  ghost predicate LosesRecord(path: string, c: Container, file: OverrideFile, dirs: set<string>, looks: Looks, misread: bool, own: seq<Fragment>) {
    && StackOk(path, map["1" := c], {"1"}, file, dirs, {})
    && FragmentSeen(path, Reads(file), dirs, c.service, c.fast, looks, misread).None?
    && FragmentSeen(path, Reads(file), dirs, c.service, c.fast, [], false).Some?
    && Stays(path, map["1" := c], {"1"}, {}, looks, misread, [], set f | f in own :: f.name)
    && IsRecorded(Reads(file), c) && !IsRecorded(FileOf(path, own + []), c)
  }

  /** A failed inspection of a container that stays can lose its record. */
  lemma FailedInspectionLosesRecord()
    ensures exists path, c, file, dirs, own :: LosesRecord(path, c, file, dirs, [NotInspected("a")], false, own)
  {
    var fl := Labels(FAST_VERSION, "/p", "A.dll", "/app", "A.csproj");
    Loses(Container("a", "p", Some(fl), "", false, None, "/src", []), fl, [NotInspected("a")], false);
  }

  /** A failed read of the override can lose all records. */
  lemma FailedReadLosesRecord()
    ensures exists path, c, file, dirs, info: Info, own :: info.c == c && LosesRecord(path, c, file, dirs, [Inspected(info), ReadBack(false)], true, own)
  {
    var fl := Labels(FAST_VERSION, "/p", "A.dll", "/app", "A.csproj");
    var c := Container("a", "p", Some(fl), "", false, None, "/src", []);
    var info := Info("1", c, true, false, false);
    Loses(c, fl, [Inspected(info), ReadBack(false)], true);
    assert info.c == c;
  }

  lemma Loses(c: Container, fl: Labels, looks: Looks, misread: bool)
    requires fl == Labels(FAST_VERSION, "/p", "A.dll", "/app", "A.csproj") && c == Container("a", "p", Some(fl), "", false, None, "/src", [])
    requires !Sees(looks, misread, "a")
    ensures LosesRecord("/p", c, Written(map["a" := fl]), {"a", "b"}, looks, misread, [Fragment("b", "B.dll", "/app", "B.csproj")])
  {
    var cs: Containers := map["1" := c];
    var file := Written(map["a" := fl]);
    var own: seq<Fragment> := [Fragment("b", "B.dll", "/app", "B.csproj")];
    assert StackOk("/p", cs, {"1"}, file, {"a", "b"}, {});
    assert !HasFragment("/p", [], "a", c.fast);
    assert Stays("/p", cs, {"1"}, {}, looks, misread, [], set f | f in own :: f.name);
    assert own + [] == own && own[..0] == [];
    assert FileOf("/p", []) == map[] && "a" !in FileOf("/p", own);
  }
}
