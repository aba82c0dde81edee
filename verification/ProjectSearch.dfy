/** The search for a container's project (drivers/dotnet/fast.go): a walk below
    the compose directory that never takes a file a container could have written. */
module ProjectSearch {
  import opened Wrappers

  type Path = seq<string>

  type FileId = nat

  /** What there is at a path, symlinks followed. */
  type Stat = Path -> Option<FileId>

  /** What a directory walk meets; a directory that can't be read has no
      children to tell. */
  datatype Entry = Directory(name: string, readable: bool, children: seq<Entry>) | Regular(name: string) | Other(name: string)

  /** One spelling of a source a container can write: its path, if that is
      absolute, and the file there, if it is here. */
  datatype Spelling = Spelling(path: Option<Path>, shown: string, id: Option<FileId>)

  type Mounts = seq<seq<Spelling>>

  // ----------------------------------------------------------------- mounts

  predicate Hits(stat: Stat, s: Spelling, p: Path) { s.path == Some(p) || (s.id.Some? && stat(p) == s.id) }

  /** A source is p itself, by path or as the same file. */
  ghost predicate IsSource(stat: Stat, m: Mounts, p: Path) {
    exists i, j | 0 <= i < |m| && 0 <= j < |m[i]| :: Hits(stat, m[i][j], p)
  }

  /** A source is p or a directory p is in, none shorter than stop. */
  ghost predicate Covered(stat: Stat, m: Mounts, p: Path, stop: nat) {
    exists n: nat :: stop <= n <= |p| && IsSource(stat, m, p[..n])
  }

  /** The source (its first spelling) that p is at or under, up to and not above
      the directory of length stop. */
  method Covering(stat: Stat, m: Mounts, p: Path, stop: nat) returns (src: Option<Spelling>)
    requires stop <= |p|
    ensures src.Some? <==> Covered(stat, m, p, stop)
    ensures src.Some? ==> exists i | 0 <= i < |m| :: m[i] != [] && src.value == m[i][0]
  {
    if |m| == 0 { return None; }
    var n := |p|;
    while true
      invariant stop <= n <= |p|
      invariant forall k: nat | n < k <= |p| :: !IsSource(stat, m, p[..k])
      decreases n
    {
      src := SourceAt(stat, m, p[..n]);
      if src.Some? || n == stop { return; }
      n := n - 1;
    }
  }

  method SourceAt(stat: Stat, m: Mounts, p: Path) returns (src: Option<Spelling>)
    ensures src.Some? <==> IsSource(stat, m, p)
    ensures src.Some? ==> exists i | 0 <= i < |m| :: m[i] != [] && src.value == m[i][0]
  {
    for i := 0 to |m|
      invariant forall k, l | 0 <= k < i && 0 <= l < |m[k]| :: !Hits(stat, m[k][l], p)
    {
      for j := 0 to |m[i]|
        invariant forall l | 0 <= l < j :: !Hits(stat, m[i][l], p)
      {
        if Hits(stat, m[i][j], p) { return Some(m[i][0]); }
      }
    }
    src := None;
  }

  /** A source none of whose spellings exists here. */
  predicate Gone(source: seq<Spelling>) { source != [] && forall s | s in source :: s.id == None }

  method Unseen(m: Mounts) returns (src: Option<Spelling>)
    ensures src.None? <==> forall i | 0 <= i < |m| :: !Gone(m[i])
  {
    for i := 0 to |m|
      invariant forall k | 0 <= k < i :: !Gone(m[k])
    {
      if Gone(m[i]) { return Some(m[i][0]); }
    }
    src := None;
  }

  // ------------------------------------------------------------------- walk

  predicate SkippedDir(name: string) { "." <= name || name in {"bin", "obj", "node_modules"} }

  predicate IsProjectOf(file: string, name: string) { file in {name + ".csproj", name + ".fsproj", name + ".vbproj"} }

  predicate Skipped(e: Entry, top: bool) { !top && SkippedDir(e.name) }

  /** How often the walk visits: a directory it can't read twice. */
  function Visits(e: Entry, top: bool): nat decreases e, 0 {
    match e
    case Directory(_, readable, children) =>
      if Skipped(e, top) then 1 else if !readable then 2 else 1 + VisitsOf(children)
    case _ => 1
  }

  function VisitsOf(es: seq<Entry>): nat decreases es, 1 {
    if es == [] then 0 else VisitsOf(es[..|es| - 1]) + Visits(es[|es| - 1], false)
  }

  /** The regular files named as the project's that the walk meets, in order. */
  function Matches(e: Entry, p: Path, top: bool, name: string): seq<Path> decreases e, 0 {
    match e
    case Directory(_, readable, children) =>
      if Skipped(e, top) || !readable then [] else MatchesOf(children, p, name)
    case Regular(file) => if IsProjectOf(file, name) then [p] else []
    case Other(_) => []
  }

  function MatchesOf(es: seq<Entry>, dir: Path, name: string): seq<Path> decreases es, 1 {
    if es == [] then []
    else
      var last := es[|es| - 1];
      MatchesOf(es[..|es| - 1], dir, name) + Matches(last, dir + [last.name], false, name)
  }

  /** Those that are, or are not, at or under a source below the root. */
  ghost function Sorted(ps: seq<Path>, stat: Stat, m: Mounts, stop: nat, covered: bool): seq<Path> {
    if ps == [] then []
    else
      var p := ps[|ps| - 1];
      Sorted(ps[..|ps| - 1], stat, m, stop, covered) + if Covered(stat, m, p, stop) == covered then [p] else []
  }

  lemma {:induction false} SortedJoins(a: seq<Path>, b: seq<Path>, stat: Stat, m: Mounts, stop: nat, covered: bool)
    ensures Sorted(a + b, stat, m, stop, covered) == Sorted(a, stat, m, stop, covered) + Sorted(b, stat, m, stop, covered)
    decreases |b|
  {
    if b == [] {
      assert a + b == a;
    } else {
      var n := |b| - 1;
      assert (a + b)[..|a + b| - 1] == a + b[..n];
      SortedJoins(a, b[..n], stat, m, stop, covered);
    }
  }

  /** One walk for a project. */
  class Search {
    const name: string
    const root: Path
    const limit: nat
    const stat: Stat
    const mounts: Mounts
    var seen: nat
    var found: seq<Path>
    var written: seq<Path>

    constructor (name: string, root: Path, limit: nat, stat: Stat, mounts: Mounts)
      ensures this.name == name && this.root == root && this.limit == limit && this.stat == stat && this.mounts == mounts
      ensures seen == 0 && found == [] && written == []
    {
      this.name, this.root, this.limit, this.stat, this.mounts := name, root, limit, stat, mounts;
      seen, found, written := 0, [], [];
    }

    /** Sorts one match. */
    method Note(p: Path)
      requires root <= p
      modifies this`found, this`written
      ensures found == old(found) + Sorted([p], stat, mounts, |root|, false)
      ensures written == old(written) + Sorted([p], stat, mounts, |root|, true)
    {
      var src := Covering(stat, mounts, p, |root|);
      assert [p][..0] == [];
      if src.Some? { written := written + [p]; } else { found := found + [p]; }
    }

    /** Counts a visit; false when it is one too many. */
    method Count() returns (ok: bool)
      modifies this`seen
      ensures seen == old(seen) + 1 && (ok <==> seen <= limit)
    {
      seen := seen + 1;
      ok := seen <= limit;
    }

    /** Walks what is at p. */
    method Walk(e: Entry, p: Path, top: bool) returns (ok: bool)
      requires root <= p && seen <= limit
      modifies this`seen, this`found, this`written
      ensures ok <==> old(seen) + Visits(e, top) <= limit
      ensures ok ==>
        && seen == old(seen) + Visits(e, top)
        && found == old(found) + Sorted(Matches(e, p, top, name), stat, mounts, |root|, false)
        && written == old(written) + Sorted(Matches(e, p, top, name), stat, mounts, |root|, true)
      decreases e, 0
    {
      ok := Count();
      if !ok { return; }
      match e {
        case Directory(dir, readable, children) =>
          if !top && SkippedDir(dir) { return; }
          if readable { ok := WalkAll(children, p); } else { ok := Count(); }
        case Regular(file) => if IsProjectOf(file, name) { Note(p); }
        case Other(_) =>
      }
    }

    method WalkAll(es: seq<Entry>, dir: Path) returns (ok: bool)
      requires root <= dir && seen <= limit
      modifies this`seen, this`found, this`written
      ensures ok <==> old(seen) + VisitsOf(es) <= limit
      ensures ok ==>
        && seen == old(seen) + VisitsOf(es)
        && found == old(found) + Sorted(MatchesOf(es, dir, name), stat, mounts, |root|, false)
        && written == old(written) + Sorted(MatchesOf(es, dir, name), stat, mounts, |root|, true)
      decreases es, 1
    {
      ok := true;
      for i := 0 to |es|
        invariant seen == old(seen) + VisitsOf(es[..i]) <= limit
        invariant found == old(found) + Sorted(MatchesOf(es[..i], dir, name), stat, mounts, |root|, false)
        invariant written == old(written) + Sorted(MatchesOf(es[..i], dir, name), stat, mounts, |root|, true)
      {
        OneEntry(es, i, dir, name);
        OneInto(old(found), es, i, dir, name, stat, mounts, |root|, false);
        OneInto(old(written), es, i, dir, name, stat, mounts, |root|, true);
        ok := Walk(es[i], dir + [es[i].name], false);
        if !ok { return; }
      }
      assert es[..|es|] == es;
    }
  }

  /** One more entry of a directory. */
  lemma OneEntry(es: seq<Entry>, i: nat, dir: Path, name: string)
    requires i < |es|
    ensures VisitsOf(es[..i + 1]) == VisitsOf(es[..i]) + Visits(es[i], false) <= VisitsOf(es)
    ensures MatchesOf(es[..i + 1], dir, name) == MatchesOf(es[..i], dir, name) + Matches(es[i], dir + [es[i].name], false, name)
  {
    assert es[..i + 1][..i] == es[..i];
    VisitsGrow(es, i + 1);
  }

  lemma OneInto(base: seq<Path>, es: seq<Entry>, i: nat, dir: Path, name: string, stat: Stat, m: Mounts, stop: nat, covered: bool)
    requires i < |es|
    ensures base + Sorted(MatchesOf(es[..i], dir, name), stat, m, stop, covered)
            + Sorted(Matches(es[i], dir + [es[i].name], false, name), stat, m, stop, covered)
            == base + Sorted(MatchesOf(es[..i + 1], dir, name), stat, m, stop, covered)
  {
    OneEntry(es, i, dir, name);
    SortedJoins(MatchesOf(es[..i], dir, name), Matches(es[i], dir + [es[i].name], false, name), stat, m, stop, covered);
  }

  lemma {:induction false} VisitsGrow(es: seq<Entry>, i: nat)
    requires i <= |es|
    ensures VisitsOf(es[..i]) <= VisitsOf(es)
    decreases |es|
  {
    if i == |es| {
      assert es[..i] == es;
    } else {
      var n := |es| - 1;
      VisitsGrow(es[..n], i);
      assert es[..n][..i] == es[..i];
    }
  }

  // ----------------------------------------------------------------- matches

  /** The walk gets to a regular file at rel below the directory: through real
      directories it can read and does not skip. */
  ghost predicate HasFile(es: seq<Entry>, rel: Path) decreases |rel| {
    && rel != []
    && exists i | 0 <= i < |es| :: es[i].name == rel[0] && if |rel| == 1 then es[i].Regular? else Enters(es[i]) && HasFile(es[i].children, rel[1..])
  }

  predicate Enters(e: Entry) { e.Directory? && e.readable && !SkippedDir(e.name) }

  /** The matches below a directory are exactly such files of the project's name. */
  lemma {:induction false} MatchesMean(es: seq<Entry>, dir: Path, name: string, q: Path)
    ensures q in MatchesOf(es, dir, name) <==>
              dir <= q && HasFile(es, q[|dir|..]) && IsProjectOf(q[|q| - 1], name)
    decreases es, 1
  {
    if q in MatchesOf(es, dir, name) {
      var i := MatchIsOf(es, dir, name, q);
      OneMatch(es[i], dir, name, q);
    }
    if dir <= q && HasFile(es, q[|dir|..]) && IsProjectOf(q[|q| - 1], name) {
      var rel := q[|dir|..];
      var i :| 0 <= i < |es| && es[i].name == rel[0]
               && if |rel| == 1 then es[i].Regular? else Enters(es[i]) && HasFile(es[i].children, rel[1..]);
      OneMatch(es[i], dir, name, q);
      MatchIsIn(es, i, dir, name, q);
    }
  }

  /** ... of one entry. */
  lemma {:induction false} OneMatch(e: Entry, dir: Path, name: string, q: Path)
    ensures q in Matches(e, dir + [e.name], false, name) <==>
              && dir < q && q[|dir|] == e.name && IsProjectOf(q[|q| - 1], name)
              && if |q| == |dir| + 1 then e.Regular? else Enters(e) && HasFile(e.children, q[|dir|..][1..])
    decreases e, 0
  {
    var p := dir + [e.name];
    match e
    case Directory(_, readable, children) =>
      if Enters(e) {
        MatchesMean(children, p, name, q);
        if p <= q { assert q[|p|..] == q[|dir|..][1..]; }
        assert p <= q <==> dir < q && q[|dir|] == e.name;
      }
    case _ =>
      assert q == p <==> dir < q && q[|dir|] == e.name && |q| == |dir| + 1;
  }

  lemma {:induction false} MatchIsOf(es: seq<Entry>, dir: Path, name: string, q: Path) returns (i: nat)
    requires q in MatchesOf(es, dir, name)
    ensures i < |es| && q in Matches(es[i], dir + [es[i].name], false, name)
    decreases |es|
  {
    var n := |es| - 1;
    if q in Matches(es[n], dir + [es[n].name], false, name) {
      i := n;
    } else {
      i := MatchIsOf(es[..n], dir, name, q);
    }
  }

  lemma {:induction false} MatchIsIn(es: seq<Entry>, i: nat, dir: Path, name: string, q: Path)
    requires i < |es| && q in Matches(es[i], dir + [es[i].name], false, name)
    ensures q in MatchesOf(es, dir, name)
    decreases |es|
  {
    var n := |es| - 1;
    if i < n { MatchIsIn(es[..n], i, dir, name, q); }
  }

  lemma {:induction false} SortedMeans(ps: seq<Path>, stat: Stat, m: Mounts, stop: nat, covered: bool, p: Path)
    ensures p in Sorted(ps, stat, m, stop, covered) <==> p in ps && Covered(stat, m, p, stop) == covered
    decreases |ps|
  {
    if ps != [] {
      var n := |ps| - 1;
      SortedMeans(ps[..n], stat, m, stop, covered, p);
      assert p in ps <==> p in ps[..n] || p == ps[n];
    }
  }

  /** The check of the root and the check of a file up to the root compose: no
      directory on the whole way is a source. */
  lemma ChecksCompose(stat: Stat, m: Mounts, root: Path, p: Path)
    requires root <= p
    ensures !Covered(stat, m, p, 0) <==> !Covered(stat, m, root, 0) && !Covered(stat, m, p, |root|)
  {
    forall n: nat | n <= |root| ensures root[..n] == p[..n] {}
    if Covered(stat, m, p, 0) {
      var n: nat :| n <= |p| && IsSource(stat, m, p[..n]);
      if n <= |root| { assert IsSource(stat, m, root[..n]); }
    }
    if Covered(stat, m, root, 0) {
      var n: nat :| n <= |root| && IsSource(stat, m, root[..n]);
      assert IsSource(stat, m, p[..n]);
    }
  }

  // -------------------------------------------------------------------- find

  datatype Refusal = BadName | NoRoot | RootWritable | MountGone | TooMany | OnlyWritten | NoneFound | Several

  /** The only element, or why there is none. */
  function OneProject(found: seq<Path>): Result<Path, Refusal> {
    if |found| == 1 then Ok(found[0]) else if found == [] then Err(NoneFound) else Err(Several)
  }

  /** The files the walk gets to, at or below the root. */
  function AllMatches(tree: Entry, root: Path, name: string): seq<Path> { Matches(tree, root, true, name) }

  lemma MatchesBelow(tree: Entry, root: Path, name: string, q: Path)
    requires q in AllMatches(tree, root, name)
    ensures root <= q
  {
    if tree.Directory? { MatchesMean(tree.children, root, name, q); }
  }

  /** Finds the project of an assembly below the resolved root. */
  method FindContainerProject(dllOk: bool, realRoot: Option<Path>, tree: Entry, name: string, limit: nat, stat: Stat, mounts: Mounts)
    returns (r: Result<Path, Refusal>)
    ensures r.Ok? <==>
      && dllOk && realRoot.Some? && !Covered(stat, mounts, realRoot.value, 0)
      && (forall i | 0 <= i < |mounts| :: !Gone(mounts[i]))
      && Visits(tree, true) <= limit
      && |Sorted(AllMatches(tree, realRoot.value, name), stat, mounts, |realRoot.value|, false)| == 1
    ensures r.Ok? ==>
      && realRoot.value <= r.value && r.value in AllMatches(tree, realRoot.value, name)
      && !Covered(stat, mounts, r.value, 0)
      && forall q | q in AllMatches(tree, realRoot.value, name) && q != r.value :: Covered(stat, mounts, q, |realRoot.value|)
  {
    if !dllOk { return Err(BadName); }
    if realRoot.None? { return Err(NoRoot); }
    var root := realRoot.value;
    var src := Covering(stat, mounts, root, 0);
    if src.Some? { return Err(RootWritable); }
    src := Unseen(mounts);
    if src.Some? { return Err(MountGone); }
    var search := new Search(name, root, limit, stat, mounts);
    var ok := search.Walk(tree, root, true);
    if !ok { return Err(TooMany); }
    ghost var all := AllMatches(tree, root, name);
    assert search.found == Sorted(all, stat, mounts, |root|, false);
    if search.found == [] && search.written != [] { return Err(OnlyWritten); }
    r := OneProject(search.found);
    if r.Ok? { OnlyOne(all, stat, mounts, root, tree, name, r.value); }
  }

  lemma OnlyOne(all: seq<Path>, stat: Stat, m: Mounts, root: Path, tree: Entry, name: string, p: Path)
    requires all == AllMatches(tree, root, name) && Sorted(all, stat, m, |root|, false) == [p] && !Covered(stat, m, root, 0)
    ensures root <= p && p in all && !Covered(stat, m, p, 0)
    ensures forall q | q in all && q != p :: Covered(stat, m, q, |root|)
  {
    SortedMeans(all, stat, m, |root|, false, p);
    MatchesBelow(tree, root, name, p);
    ChecksCompose(stat, m, root, p);
    forall q | q in all && q != p ensures Covered(stat, m, q, |root|) { SortedMeans(all, stat, m, |root|, false, q); }
  }
}
