/** Mirror (internal/artifacts/mirror.go): making one directory tree equal
    another, on one disk that holds both, from any destination: symlinks, other
    kinds, extra subtrees. Every call to the file system may fail, and the disk
    after every single change is part of what is proved. */
module Mirror {
  import opened Wrappers

  type Path = seq<string>
  type Bytes = seq<bv8>
  type Mode = bv12

  const DIR_MODE: Mode := 0x1ED   // 0755
  const FILE_MODE: Mode := 0x1A4  // 0644
  const EXEC_MODE: Mode := 0x1ED  // 0755
  const TEMP_MODE: Mode := 0x180  // 0600
  const EXEC_BITS: Mode := 0x049  // 0111
  const TEMP_NAME := ".eyedbg-tmp-"
  const NAME_TRIES: nat := 5

  datatype Node = Dir(mode: Mode) | File(data: Bytes, mode: Mode) | Link(target: string) | Special

  type Tree = map<Path, Node>

  function Parent(p: Path): Path requires p != [] { p[..|p| - 1] }

  function Last(p: Path): string requires p != [] { p[|p| - 1] }

  predicate IsTempName(name: string) { TEMP_NAME <= name }

  /** Every entry is in a real directory: no path leads through a symlink. */
  ghost predicate TreeOk(t: Tree) {
    [] in t && t[[]].Dir? && forall p {:trigger Parent(p)} | p in t && p != [] :: Parent(p) in t && t[Parent(p)].Dir?
  }

  /** What Mirror makes of a source entry. */
  function Image(n: Node): Node {
    match n
    case Dir(_) => Dir(DIR_MODE)
    case File(data, mode) => File(data, if mode & EXEC_BITS != 0 then EXEC_MODE else FILE_MODE)
    case _ => n
  }

  // ------------------------------------------------------- what is promised

  /** One run of Mirror: the disk it started with and the two directories. */
  datatype Job = Job(start: Tree, src: Path, dst: Path)

  ghost predicate JobOk(job: Job) {
    && TreeOk(job.start)
    && job.src in job.start && job.start[job.src].Dir?
    && job.dst in job.start && job.start[job.dst].Dir?
    && !(job.src <= job.dst) && !(job.dst <= job.src)
  }

  /** The source's path for the destination's path p. */
  function SrcOf(job: Job, p: Path): Path requires job.dst <= p { job.src + p[|job.dst|..] }

  /** What may be at p of the destination at any moment: the old entry, the
      whole new one, a directory about to get its mode, or a temporary file. */
  ghost predicate NodeSafe(job: Job, p: Path, n: Node) requires job.dst < p {
    || (p in job.start && n == job.start[p])
    || (SrcOf(job, p) in job.start && n == Image(job.start[SrcOf(job, p)]))
    || (SrcOf(job, p) in job.start && job.start[SrcOf(job, p)].Dir? && n.Dir?)
    || (n.File? && IsTempName(Last(p)))
  }

  /** What holds at every moment: nothing outside the destination changed, the
      destination is a real directory, and every entry in it is safe. */
  ghost predicate SafeState(job: Job, t: Tree) {
    && TreeOk(t)
    && (forall p | p in t && !(job.dst <= p) :: p in job.start && t[p] == job.start[p])
    && (forall p | p in job.start && !(job.dst <= p) :: p in t)
    && job.dst in t && t[job.dst].Dir?
    && (forall p | p in t && job.dst < p :: NodeSafe(job, p, t[p]))
  }

  /** The destination holds exactly what the source holds, as Image has it. */
  ghost predicate Mirrors(job: Job, t: Tree) {
    && SafeState(job, t)
    && t[job.dst] == Dir(DIR_MODE)
    && (forall p | p in t && job.dst < p ::
          SrcOf(job, p) in job.start && t[p] == Image(job.start[SrcOf(job, p)])
          && (job.start[SrcOf(job, p)].Dir? || job.start[SrcOf(job, p)].File?))
    && (forall r | r != [] && job.src + r in job.start :: job.dst + r in t)
  }

  // ---------------------------------------------------------- path arithmetic

  lemma SplitPath(d: Path, p: Path)
    requires d <= p
    ensures d + p[|d|..] == p
  {}

  lemma RelOf(job: Job, r: Path)
    ensures job.dst <= job.dst + r && SrcOf(job, job.dst + r) == job.src + r
  {
    assert (job.dst + r)[|job.dst|..] == r;
  }

  /** Two prefixes of one path are prefixes of each other. */
  lemma PrefixesCompare(a: Path, b: Path, p: Path)
    ensures a <= p && b <= p ==> a <= b || b <= a
  {
    if a <= p && b <= p {
      if |a| <= |b| { assert p[..|a|] == b[..|a|]; } else { assert p[..|b|] == a[..|b|]; }
    }
  }

  /** Neither directory is in the other, so the source is never under the
      destination. */
  lemma SourceIsOutside(job: Job, r: Path)
    requires !(job.src <= job.dst) && !(job.dst <= job.src)
    ensures !(job.dst <= job.src + r)
  {
    PrefixesCompare(job.src, job.dst, job.src + r);
  }

  // ------------------------------------------------------------ safe changes

  /** Adding or replacing an entry of the destination, safely. */
  lemma PutIsSafe(job: Job, t: Tree, p: Path, n: Node)
    requires SafeState(job, t) && job.dst <= p && p != []
    requires Parent(p) in t && t[Parent(p)].Dir?
    requires p in t && t[p].Dir? ==> n.Dir?
    requires if p == job.dst then n.Dir? else NodeSafe(job, p, n)
    ensures SafeState(job, t[p := n])
  {}

  /** Taking away an entry of the destination that holds no other. */
  lemma CutIsSafe(job: Job, t: Tree, p: Path)
    requires SafeState(job, t) && job.dst < p && forall q | q in t && p <= q :: q == p
    ensures SafeState(job, t - {p})
  {
    var u := t - {p};
    forall q | q in u && q != [] ensures Parent(q) in u && u[Parent(q)].Dir? {
      assert Parent(q) in t && Parent(q) <= q;
    }
  }

  /** The longest paths of a set hold no other. */
  lemma {:induction false} HasLongest(ps: set<Path>)
    requires ps != {}
    ensures exists q | q in ps :: forall p | p in ps :: |p| <= |q|
  {
    var p :| p in ps;
    if ps != {p} {
      HasLongest(ps - {p});
      var q :| q in ps - {p} && forall r | r in ps - {p} :: |r| <= |q|;
      var longest := if |q| < |p| then p else q;
      assert longest in ps && forall r | r in ps :: |r| <= |longest|;
    }
  }

  lemma HasLeaf(t: Tree, p: Path)
    requires exists q | q in t :: p <= q
    ensures exists leaf | leaf in t && p <= leaf :: forall q | q in t && leaf <= q :: q == leaf
  {
    var below := set q | q in t && p <= q;
    var some :| some in t && p <= some;
    assert some in below;
    HasLongest(below);
    var leaf :| leaf in below && forall q | q in below :: |q| <= |leaf|;
    forall q | q in t && leaf <= q ensures q == leaf { assert q in below; }
  }

  /** A path in the tree has all its prefixes there, real directories. */
  lemma {:induction false} PrefixesAreThere(t: Tree, q: Path, p: Path)
    requires TreeOk(t) && p in t && q <= p
    ensures q in t && (q < p ==> t[q].Dir?)
    decreases |p|
  {
    if q < p {
      assert Parent(p) in t && q <= Parent(p);
      PrefixesAreThere(t, q, Parent(p));
      if |q| == |p| - 1 { assert q == Parent(p); }
    } else {
      assert q == p;
    }
  }

  lemma FilesHoldNothing(t: Tree, p: Path)
    requires TreeOk(t) && p in t && !t[p].Dir?
    ensures forall q | q in t && p <= q :: q == p
  {
    forall q | q in t && p <= q ensures q == p { PrefixesAreThere(t, p, q); }
  }

  // -------------------------------------------------------------------- disk

  /** The disk. Its history is the disk after every change of the job. */
  class Disk {
    var nodes: Tree
    ghost var job: Job
    ghost var history: seq<Tree>

    ghost predicate Valid() reads this {
      && JobOk(job) && SafeState(job, nodes) && (forall h | h in history :: SafeState(job, h))
      && nodes == if history == [] then job.start else history[|history| - 1]
    }

    /** What every call keeps: the job, and the history so far. */
    twostate predicate Goes() reads this {
      job == old(job) && old(history) <= history
    }

    method Fails() returns (fails: bool) { fails := *; }

    /** The names in the directory d, in any order. */
    method ListDir(d: Path) returns (ok: bool, names: seq<string>)
      requires d in nodes && nodes[d].Dir?
      ensures ok ==> forall i, j | 0 <= i < j < |names| :: names[i] != names[j]
      ensures ok ==> Elems(names) == NamesIn(nodes, d)
      ensures ok ==> forall n | n in names :: d + [n] in nodes
    {
      ok, names := true, [];
      var fails := Fails();
      if fails { return false, []; }
      var children := set p | p in nodes && |p| == |d| + 1 && d <= p;
      var left := children;
      while left != {}
        invariant left <= children
        invariant forall n | n in names :: d + [n] in children - left
        invariant forall p | p in children - left :: p[|d|] in names
        invariant forall i, j | 0 <= i < j < |names| :: names[i] != names[j]
        decreases left
      {
        var p :| p in left;
        assert p == d + [p[|d|]];
        names := names + [p[|d|]];
        left := left - {p};
      }
    }

    method Lstat(p: Path) returns (ok: bool, n: Option<Node>)
      ensures ok ==> n == if p in nodes then Some(nodes[p]) else None
    {
      ok, n := true, if p in nodes then Some(nodes[p]) else None;
      var fails := Fails();
      if fails { ok := false; }
    }

    /** Opens a regular file and reads it. */
    method Open(p: Path) returns (ok: bool, data: Bytes)
      ensures ok ==> p in nodes && nodes[p].File? && data == nodes[p].data
    {
      ok, data := p in nodes && nodes[p].File?, [];
      if ok { data := nodes[p].data; }
      var fails := Fails();
      if fails { ok := false; }
    }

    method Mkdir(p: Path) returns (ok: bool)
      requires Valid() && p != [] && p !in nodes && Parent(p) in nodes && nodes[Parent(p)].Dir?
      requires job.dst < p && SrcOf(job, p) in job.start && job.start[SrcOf(job, p)].Dir?
      modifies this
      ensures Valid() && Goes()
      ensures ok ==> exists mode :: nodes == old(nodes)[p := Dir(mode)]
      ensures !ok ==> nodes == old(nodes)
    {
      var fails := Fails();
      if fails { return false; }
      var mode: Mode := *;
      ok := true;
      PutIsSafe(job, nodes, p, Dir(mode));
      nodes := nodes[p := Dir(mode)];
      history := history + [nodes];
    }

    method Chmod(p: Path, mode: Mode) returns (ok: bool)
      requires Valid() && p in nodes && job.dst <= p && p != []
      requires nodes[p].Dir? || nodes[p].File?
      requires job.dst < p ==> NodeSafe(job, p, nodes[p].(mode := mode))
      modifies this
      ensures Valid() && Goes()
      ensures ok ==> nodes == old(nodes)[p := old(nodes)[p].(mode := mode)]
      ensures !ok ==> nodes == old(nodes)
    {
      var fails := Fails();
      if fails { return false; }
      ok := true;
      PutIsSafe(job, nodes, p, nodes[p].(mode := mode));
      nodes := nodes[p := nodes[p].(mode := mode)];
      history := history + [nodes];
    }

    /** Removes one entry that holds no other. */
    method Remove(p: Path) returns (ok: bool)
      requires Valid() && p in nodes && job.dst < p && forall q | q in nodes && p <= q :: q == p
      modifies this
      ensures Valid() && Goes()
      ensures ok ==> nodes == old(nodes) - {p}
      ensures !ok ==> nodes == old(nodes)
    {
      var fails := Fails();
      if fails { return false; }
      ok := true;
      CutIsSafe(job, nodes, p);
      nodes := nodes - {p};
      history := history + [nodes];
    }

    /** Removes an entry with everything in it, one entry at a time. */
    method RemoveAll(p: Path) returns (ok: bool)
      requires Valid() && p in nodes && job.dst < p
      modifies this
      ensures Valid() && Goes()
      ensures ok ==> nodes == map q | q in old(nodes) && !(p <= q) :: old(nodes)[q]
    {
      ok := true;
      while exists q | q in nodes :: p <= q
        invariant Valid() && Goes()
        invariant forall q | q in nodes :: q in old(nodes) && nodes[q] == old(nodes)[q]
        invariant forall q | q in old(nodes) && !(p <= q) :: q in nodes
        decreases |nodes|
      {
        HasLeaf(nodes, p);
        var leaf :| leaf in nodes && p <= leaf && forall q | q in nodes && leaf <= q :: q == leaf;
        ghost var before := nodes;
        assert nodes.Keys == (nodes - {leaf}).Keys + {leaf};
        var gone := Remove(leaf);
        if !gone { return false; }
        assert nodes == before - {leaf};
      }
    }

    /** Creates a fresh temporary file in the directory d, exclusively. */
    method CreateTemp(d: Path) returns (ok: bool, tmp: Path)
      requires Valid() && d in nodes && nodes[d].Dir? && job.dst <= d
      modifies this
      ensures Valid() && Goes()
      ensures ok ==>
        && tmp !in old(nodes) && d < tmp && |tmp| == |d| + 1 && IsTempName(Last(tmp))
        && nodes == old(nodes)[tmp := File([], TEMP_MODE)]
      ensures !ok ==> nodes == old(nodes)
    {
      for _ := 0 to NAME_TRIES
        invariant Valid() && Goes() && nodes == old(nodes)
      {
        var random: string := *;
        tmp := d + [TEMP_NAME + random];
        if tmp in nodes { continue; }
        var fails := Fails();
        if fails { return false, tmp; }
        assert Parent(tmp) == d && job.dst < tmp;
        PutIsSafe(job, nodes, tmp, File([], TEMP_MODE));
        nodes := nodes[tmp := File([], TEMP_MODE)];
        history := history + [nodes];
        return true, tmp;
      }
      ok, tmp := false, d;
    }

    /** Writes more to a temporary file. */
    method Append(tmp: Path, more: Bytes) returns (ok: bool)
      requires Valid() && tmp in nodes && nodes[tmp].File? && job.dst < tmp && IsTempName(Last(tmp))
      modifies this
      ensures Valid() && Goes()
      ensures ok ==> nodes == old(nodes)[tmp := File(old(nodes)[tmp].data + more, old(nodes)[tmp].mode)]
      ensures !ok ==> nodes == old(nodes)
    {
      var fails := Fails();
      if fails { return false; }
      ok := true;
      var n := File(nodes[tmp].data + more, nodes[tmp].mode);
      assert Parent(tmp) in nodes;
      PutIsSafe(job, nodes, tmp, n);
      nodes := nodes[tmp := n];
      history := history + [nodes];
    }

    /** Renames a temporary file over its target, at once. */
    method Rename(tmp: Path, to: Path) returns (ok: bool)
      requires Valid() && tmp in nodes && nodes[tmp].File? && job.dst < tmp
      requires job.dst < to && Parent(to) in nodes && nodes[Parent(to)].Dir? && (to in nodes ==> nodes[to].File?)
      requires NodeSafe(job, to, nodes[tmp])
      modifies this
      ensures Valid() && Goes()
      ensures ok ==> nodes == (old(nodes) - {tmp})[to := old(nodes)[tmp]]
      ensures !ok ==> nodes == old(nodes)
    {
      var fails := Fails();
      if fails { return false; }
      ok := true;
      var n := nodes[tmp];
      FilesHoldNothing(nodes, tmp);
      CutIsSafe(job, nodes, tmp);
      PutIsSafe(job, nodes - {tmp}, to, n);
      nodes := (nodes - {tmp})[to := n];
      history := history + [nodes];
    }
  }

  // -------------------------------------------------------------------- scan

  datatype Kind = KindDir | KindFile

  datatype SrcFile = SrcFile(rel: Path, exec: bool)

  predicate IsExec(n: Node) { n.File? && n.mode & EXEC_BITS != 0 }

  /** The source directory, scanned: its directories, its files, and what every
      path is. */
  datatype SrcTree = SrcTree(dirs: seq<Path>, files: seq<SrcFile>, kinds: map<Path, Kind>)

  ghost predicate ParentsFirst(dirs: seq<Path>) {
    forall i | 0 <= i < |dirs| :: dirs[i] != [] && (Parent(dirs[i]) == [] || Parent(dirs[i]) in dirs[..i])
  }

  /** What a scan recorded of the tree at root is true of it, parents first. */
  ghost predicate ScanOk(t: Tree, root: Path, maxDepth: nat, st: SrcTree) {
    && (forall r | r in st.kinds :: r != [] && root + r in t && |r| <= maxDepth + 1)
    && (forall r | r in st.kinds && st.kinds[r].KindDir? :: t[root + r].Dir? && r in st.dirs)
    && (forall r | r in st.kinds && st.kinds[r].KindFile? :: t[root + r].File? && SrcFile(r, IsExec(t[root + r])) in st.files)
    && (forall r | r in st.dirs :: r in st.kinds && st.kinds[r].KindDir?)
    && (forall f | f in st.files :: f.rel in st.kinds && st.kinds[f.rel].KindFile? && f.exec == IsExec(t[root + f.rel]))
    && ParentsFirst(st.dirs)
  }

  function WithDir(st: SrcTree, rel: Path): SrcTree {
    SrcTree(st.dirs + [rel], st.files, st.kinds[rel := KindDir])
  }

  function WithFile(st: SrcTree, f: SrcFile): SrcTree {
    SrcTree(st.dirs, st.files + [f], st.kinds[f.rel := KindFile])
  }

  lemma RecordDir(t: Tree, root: Path, maxDepth: nat, st: SrcTree, rel: Path)
    requires ScanOk(t, root, maxDepth, st)
    requires rel != [] && root + rel in t && t[root + rel].Dir? && |rel| <= maxDepth + 1
    requires Parent(rel) == [] || Parent(rel) in st.dirs
    ensures ScanOk(t, root, maxDepth, WithDir(st, rel))
  {
    var dirs, more := st.dirs, st.dirs + [rel];
    forall i | 0 <= i < |more|
      ensures more[i] != [] && (Parent(more[i]) == [] || Parent(more[i]) in more[..i])
    {
      if i < |dirs| {
        assert more[..i] == dirs[..i];
        assert dirs[i] != [] && (Parent(dirs[i]) == [] || Parent(dirs[i]) in dirs[..i]);
      } else {
        assert more[..i] == dirs;
      }
    }
    forall f | f in st.files ensures f.rel != rel { assert t[root + f.rel].File?; }
  }

  lemma RecordFile(t: Tree, root: Path, maxDepth: nat, st: SrcTree, rel: Path)
    requires ScanOk(t, root, maxDepth, st)
    requires rel != [] && root + rel in t && t[root + rel].File? && |rel| <= maxDepth + 1
    ensures ScanOk(t, root, maxDepth, WithFile(st, SrcFile(rel, IsExec(t[root + rel]))))
  {
    var more := st.files + [SrcFile(rel, IsExec(t[root + rel]))];
    assert SrcFile(rel, IsExec(t[root + rel])) in more;
    forall f | f in st.files ensures f in more {}
    forall r | r in st.dirs ensures r != rel { assert t[root + r].Dir?; }
  }

  /** What is asked of the names of a directory: the host keeps them, and keeps
      them apart. */
  ghost predicate NamesOk(names: set<string>, fold: bool, lower: string -> string, isLocal: string -> bool) {
    && (forall n | n in names :: isLocal(n))
    && (fold ==> forall m, n | m in names && n in names && lower(m) == lower(n) :: m == n)
  }

  ghost function Lowered(names: set<string>, lower: string -> string): set<string> {
    set n | n in names :: lower(n)
  }

  /** Every directory at or under dir has fit names. */
  ghost predicate FitBelow(t: Tree, root: Path, dir: Path, fold: bool, lower: string -> string, isLocal: string -> bool) {
    forall d | dir <= d && root + d in t && t[root + d].Dir? :: NamesOk(NamesIn(t, root + d), fold, lower, isLocal)
  }

  lemma FitAll(t: Tree, root: Path, dir: Path, fold: bool, lower: string -> string, isLocal: string -> bool)
    requires TreeOk(t) && NamesOk(NamesIn(t, root + dir), fold, lower, isLocal)
    requires forall n | n in NamesIn(t, root + dir) :: FitBelow(t, root, dir + [n], fold, lower, isLocal)
    ensures FitBelow(t, root, dir, fold, lower, isLocal)
  {
    forall d | dir <= d && root + d in t && t[root + d].Dir?
      ensures NamesOk(NamesIn(t, root + d), fold, lower, isLocal)
    {
      if d != dir {
        NameOn(t, root, dir, d);
        assert dir + [d[|dir|]] <= d;
      } else {
        assert d == dir;
      }
    }
  }

  lemma FitFile(t: Tree, root: Path, rel: Path, fold: bool, lower: string -> string, isLocal: string -> bool)
    requires TreeOk(t) && root + rel in t && !t[root + rel].Dir?
    ensures FitBelow(t, root, rel, fold, lower, isLocal)
  {
    FilesHoldNothing(t, root + rel);
    forall r | rel <= r && root + r in t ensures root + r == root + rel {
      assert root + rel <= root + r;
    }
  }

  /** The name on the way from a directory to what is under it. */
  lemma NameOn(t: Tree, root: Path, dir: Path, r: Path)
    requires TreeOk(t) && dir < r && root + r in t
    ensures r[|dir|] in NamesIn(t, root + dir)
  {
    var p := root + dir + [r[|dir|]];
    assert p <= root + r;
    PrefixesAreThere(t, p, root + r);
    assert p[|root + dir|] == r[|dir|];
  }

  /** From before to after, exactly what the tree holds at or under rel was
      recorded. */
  ghost predicate Recorded(t: Tree, root: Path, rel: Path, before: map<Path, Kind>, after: map<Path, Kind>) {
    forall r :: r in after <==> r in before || (rel <= r && root + r in t)
  }

  /** ... exactly what is in the directory dir under one of the names. */
  ghost predicate RecordedIn(t: Tree, root: Path, dir: Path, names: set<string>, before: map<Path, Kind>, after: map<Path, Kind>) {
    forall r :: r in after <==> r in before || (dir < r && r[|dir|] in names && root + r in t)
  }

  ghost function Elems(names: seq<string>): set<string> { set n | n in names }

  lemma ElemsOneMore(names: seq<string>, i: nat)
    requires i < |names|
    ensures Elems(names[..i + 1]) == Elems(names[..i]) + {names[i]}
  {
    assert names[..i + 1] == names[..i] + [names[i]];
  }

  ghost function NamesIn(t: Tree, d: Path): set<string> {
    set p | p in t && |p| == |d| + 1 && d <= p :: p[|d|]
  }

  lemma RecordsOneMore(t: Tree, root: Path, dir: Path, names: set<string>, n: string,
                       before: map<Path, Kind>, mid: map<Path, Kind>, after: map<Path, Kind>)
    requires RecordedIn(t, root, dir, names, before, mid) && Recorded(t, root, dir + [n], mid, after)
    ensures RecordedIn(t, root, dir, names + {n}, before, after)
  {
    forall r
      ensures r in after <==> r in before || (dir < r && r[|dir|] in names + {n} && root + r in t)
    {
      assert dir + [n] <= r <==> dir < r && r[|dir|] == n;
    }
  }

  /** The names are all the directory's, so all that is in it was recorded. */
  lemma RecordsAll(t: Tree, root: Path, dir: Path, before: map<Path, Kind>, after: map<Path, Kind>)
    requires TreeOk(t) && RecordedIn(t, root, dir, NamesIn(t, root + dir), before, after)
    ensures forall r :: r in after <==> r in before || (dir < r && root + r in t)
  {
    forall r | dir < r && root + r in t ensures r[|dir|] in NamesIn(t, root + dir) { NameOn(t, root, dir, r); }
  }

  lemma RecordsDir(t: Tree, root: Path, rel: Path, before: map<Path, Kind>, after: map<Path, Kind>)
    requires TreeOk(t) && root + rel in t && RecordedIn(t, root, rel, NamesIn(t, root + rel), before[rel := KindDir], after)
    ensures Recorded(t, root, rel, before, after)
  {
    RecordsAll(t, root, rel, before[rel := KindDir], after);
    forall r ensures r in after <==> r in before || (rel <= r && root + r in t) {
      assert rel <= r <==> rel < r || r == rel;
    }
  }

  lemma RecordsFile(t: Tree, root: Path, rel: Path, kinds: map<Path, Kind>)
    requires TreeOk(t) && root + rel in t && t[root + rel].File?
    ensures Recorded(t, root, rel, kinds, kinds[rel := KindFile])
  {
    FilesHoldNothing(t, root + rel);
    forall r | rel <= r && root + r in t ensures r == rel {
      assert root + rel <= root + r;
    }
  }

  lemma VisitsFile(t: Tree, root: Path, maxDepth: nat, st: SrcTree, rel: Path, fold: bool, lower: string -> string, isLocal: string -> bool)
    requires TreeOk(t) && ScanOk(t, root, maxDepth, st)
    requires rel != [] && root + rel in t && t[root + rel].File? && |rel| <= maxDepth + 1
    ensures ScanOk(t, root, maxDepth, WithFile(st, SrcFile(rel, IsExec(t[root + rel]))))
    ensures Recorded(t, root, rel, st.kinds, st.kinds[rel := KindFile])
    ensures FitBelow(t, root, rel, fold, lower, isLocal)
  {
    RecordFile(t, root, maxDepth, st, rel);
    RecordsFile(t, root, rel, st.kinds);
    FitFile(t, root, rel, fold, lower, isLocal);
  }

  /** Reads a source tree. */
  class Scanner {
    const disk: Disk
    const root: Path
    const fold: bool
    const lower: string -> string
    const isLocal: string -> bool
    const maxEntries: nat
    const maxDepth: nat
    var count: nat
    var tree: SrcTree

    constructor (disk: Disk, root: Path, fold: bool, lower: string -> string, isLocal: string -> bool, maxEntries: nat, maxDepth: nat)
      ensures this.disk == disk && this.root == root && this.maxEntries == maxEntries && this.maxDepth == maxDepth
      ensures this.fold == fold && this.lower == lower && this.isLocal == isLocal && count == 0
      ensures tree == SrcTree([], [], map[])
    {
      this.disk, this.root, this.fold, this.lower, this.isLocal := disk, root, fold, lower, isLocal;
      this.maxEntries, this.maxDepth := maxEntries, maxDepth;
      count, tree := 0, SrcTree([], [], map[]);
    }

    /** Counts an entry and checks its name against the directory's names
        before it. */
    method CheckName(name: string, seen: set<string>, ghost names: set<string>) returns (ok: bool, seen': set<string>)
      requires NamesOk(names, fold, lower, isLocal) && name !in names
      requires fold ==> seen == Lowered(names, lower)
      modifies this`count
      ensures count == old(count) + 1
      ensures ok <==> count <= maxEntries && NamesOk(names + {name}, fold, lower, isLocal)
      ensures ok && fold ==> seen' == Lowered(names + {name}, lower)
    {
      ok, seen' := true, seen;
      count := count + 1;
      assert name in names + {name};
      if count > maxEntries { return false, seen; }
      if !isLocal(name) { return false, seen; }
      if fold {
        if lower(name) in seen { return false, seen; }
        seen' := seen + {lower(name)};
      }
    }

    /** Scans the directory dir of the tree t, which is the disk's. */
    method Walk(ghost t: Tree, dir: Path, depth: nat) returns (ok: bool)
      requires t == disk.nodes && TreeOk(t) && ScanOk(t, root, maxDepth, tree)
      requires root + dir in t && t[root + dir].Dir?
      requires dir == [] || dir in tree.dirs
      requires |dir| == depth <= maxDepth + 1 && |tree.kinds| <= count
      modifies this
      ensures ok ==> ScanOk(t, root, maxDepth, tree) && old(tree.dirs) <= tree.dirs && |tree.kinds| <= count
      ensures ok ==> RecordedIn(t, root, dir, NamesIn(t, root + dir), old(tree.kinds), tree.kinds)
      ensures ok ==> count <= maxEntries || count == old(count)
      ensures ok ==> FitBelow(t, root, dir, fold, lower, isLocal)
      decreases maxDepth + 1 - depth, 3
    {
      if depth > maxDepth { return false; }
      var names;
      ok, names := disk.ListDir(root + dir);
      if !ok { return false; }
      var seen := {};
      ghost var before := tree;
      for i := 0 to |names|
        invariant t == disk.nodes
        invariant ScanOk(t, root, maxDepth, tree) && before.dirs <= tree.dirs && |tree.kinds| <= count
        invariant RecordedIn(t, root, dir, Elems(names[..i]), before.kinds, tree.kinds)
        invariant NamesOk(Elems(names[..i]), fold, lower, isLocal)
        invariant fold ==> seen == Lowered(Elems(names[..i]), lower)
        invariant forall n | n in names[..i] :: FitBelow(t, root, dir + [n], fold, lower, isLocal)
        invariant count <= maxEntries || count == old(count)
      {
        ElemsOneMore(names, i);
        ok, seen := WalkOne(t, dir, names[i], depth, seen, Elems(names[..i]), before.kinds);
        if !ok { return false; }
      }
      assert names[..|names|] == names;
      FitAll(t, root, dir, fold, lower, isLocal);
    }

    /** Scans one more of the names in dir. */
    method WalkOne(ghost t: Tree, dir: Path, name: string, depth: nat, seen: set<string>,
                   ghost names: set<string>, ghost before: map<Path, Kind>) returns (ok: bool, seen': set<string>)
      requires t == disk.nodes && TreeOk(t) && ScanOk(t, root, maxDepth, tree)
      requires root + dir + [name] in t && (dir == [] || dir in tree.dirs)
      requires |dir| == depth <= maxDepth && |tree.kinds| <= count
      requires NamesOk(names, fold, lower, isLocal) && name !in names && (fold ==> seen == Lowered(names, lower))
      requires RecordedIn(t, root, dir, names, before, tree.kinds)
      modifies this
      ensures ok ==> ScanOk(t, root, maxDepth, tree) && old(tree.dirs) <= tree.dirs && |tree.kinds| <= count <= maxEntries
      ensures ok ==> RecordedIn(t, root, dir, names + {name}, before, tree.kinds)
      ensures ok ==> FitBelow(t, root, dir + [name], fold, lower, isLocal)
      ensures ok ==> NamesOk(names + {name}, fold, lower, isLocal) && (fold ==> seen' == Lowered(names + {name}, lower))
      decreases maxDepth + 1 - depth, 2
    {
      ok, seen' := CheckName(name, seen, names);
      if !ok { return false, seen; }
      assert root + dir + [name] == root + (dir + [name]);
      assert Parent(dir + [name]) == dir;
      ghost var mid := tree.kinds;
      ok := Visit(t, dir + [name], depth);
      if ok { RecordsOneMore(t, root, dir, names, name, before, mid, tree.kinds); }
    }

    /** Records the directory rel and descends into it. */
    method Enter(ghost t: Tree, rel: Path, depth: nat) returns (ok: bool)
      requires t == disk.nodes && TreeOk(t) && ScanOk(t, root, maxDepth, tree)
      requires rel != [] && root + rel in t && t[root + rel].Dir?
      requires Parent(rel) == [] || Parent(rel) in tree.dirs
      requires |rel| == depth + 1 && depth <= maxDepth && |tree.kinds| + 1 <= count <= maxEntries
      modifies this
      ensures ok ==> ScanOk(t, root, maxDepth, tree) && old(tree.dirs) <= tree.dirs && |tree.kinds| <= count <= maxEntries
      ensures ok ==> Recorded(t, root, rel, old(tree.kinds), tree.kinds)
      ensures ok ==> FitBelow(t, root, rel, fold, lower, isLocal)
      decreases maxDepth + 1 - depth, 0
    {
      ghost var before := tree.kinds;
      RecordDir(t, root, maxDepth, tree, rel);
      tree := WithDir(tree, rel);
      ok := Walk(t, rel, depth + 1);
      if ok { RecordsDir(t, root, rel, before, tree.kinds); }
    }

    /** Records the entry rel and descends into a directory. */
    method Visit(ghost t: Tree, rel: Path, depth: nat) returns (ok: bool)
      requires t == disk.nodes && TreeOk(t) && ScanOk(t, root, maxDepth, tree)
      requires rel != [] && root + rel in t
      requires Parent(rel) == [] || Parent(rel) in tree.dirs
      requires |rel| == depth + 1 && depth <= maxDepth && |tree.kinds| + 1 <= count <= maxEntries
      modifies this
      ensures ok ==> ScanOk(t, root, maxDepth, tree) && old(tree.dirs) <= tree.dirs && |tree.kinds| <= count <= maxEntries
      ensures ok ==> Recorded(t, root, rel, old(tree.kinds), tree.kinds)
      ensures ok ==> FitBelow(t, root, rel, fold, lower, isLocal)
      decreases maxDepth + 1 - depth, 1
    {
      var info;
      ok, info := disk.Lstat(root + rel);
      if !ok || info.None? { return false; }
      match info.value {
        case Dir(_) =>
          ok := Enter(t, rel, depth);
        case File(_, mode) =>
          VisitsFile(t, root, maxDepth, tree, rel, fold, lower, isLocal);
          tree := WithFile(tree, SrcFile(rel, mode & EXEC_BITS != 0));
        case _ => ok := false;
      }
    }
  }

  // ------------------------------------------------------------------- prune

  /** The source has the destination's path q, as the same kind. */
  predicate Matches(t: Tree, kinds: map<Path, Kind>, dst: Path, q: Path) {
    && dst <= q && q in t && q[|dst|..] in kinds
    && (if kinds[q[|dst|..]].KindDir? then t[q].Dir? else t[q].File?)
  }

  /** Every entry on the way from d (not included) to p matches. */
  ghost predicate Kept(t: Tree, kinds: map<Path, Kind>, dst: Path, d: Path, p: Path) {
    forall q | d < q && q <= p :: Matches(t, kinds, dst, q)
  }

  /** The tree with everything pruned that is in d under one of the names. */
  ghost function PrunedIn(t: Tree, kinds: map<Path, Kind>, dst: Path, d: Path, names: set<string>): Tree {
    map p | p in t && (d < p && p[|d|] in names ==> Kept(t, kinds, dst, d, p)) :: t[p]
  }

  ghost function Pruned(t: Tree, kinds: map<Path, Kind>, dst: Path, d: Path): Tree {
    map p | p in t && (d < p ==> Kept(t, kinds, dst, d, p)) :: t[p]
  }

  /** The tree with the entry e pruned, and all under it. */
  ghost function PrunedAt(t: Tree, kinds: map<Path, Kind>, dst: Path, e: Path): Tree {
    map p | p in t && (e <= p ==> Matches(t, kinds, dst, e) && Kept(t, kinds, dst, e, p)) :: t[p]
  }

  lemma PrunesNone(t: Tree, kinds: map<Path, Kind>, dst: Path, d: Path)
    ensures PrunedIn(t, kinds, dst, d, {}) == t
  {}

  lemma KeptFrom(t: Tree, kinds: map<Path, Kind>, dst: Path, d: Path, n: string, p: Path)
    requires d + [n] <= p
    ensures Kept(t, kinds, dst, d, p) <==> Matches(t, kinds, dst, d + [n]) && Kept(t, kinds, dst, d + [n], p)
  {
    var e := d + [n];
    assert d < e;
    if Matches(t, kinds, dst, e) && Kept(t, kinds, dst, e, p) {
      forall q | d < q && q <= p ensures Matches(t, kinds, dst, q) {
        assert q[|d|] == p[|d|] == n;
        PrefixesCompare(q, e, p);
        assert q == e || e < q;
      }
    }
    if Kept(t, kinds, dst, d, p) {
      forall q | e < q && q <= p ensures Matches(t, kinds, dst, q) { assert d < q; }
    }
  }

  lemma PrunesSame(u: Tree, t: Tree, kinds: map<Path, Kind>, dst: Path, e: Path, p: Path)
    requires forall q | e <= q :: (q in u <==> q in t) && (q in u ==> u[q] == t[q])
    ensures Kept(u, kinds, dst, e, p) <==> Kept(t, kinds, dst, e, p)
    ensures Matches(u, kinds, dst, e) <==> Matches(t, kinds, dst, e)
  {
    forall q | e < q && q <= p ensures Matches(u, kinds, dst, q) <==> Matches(t, kinds, dst, q) {}
  }

  lemma PrunesOneMore(t: Tree, kinds: map<Path, Kind>, dst: Path, d: Path, names: set<string>, n: string)
    requires n !in names
    ensures PrunedAt(PrunedIn(t, kinds, dst, d, names), kinds, dst, d + [n]) == PrunedIn(t, kinds, dst, d, names + {n})
  {
    var u, e := PrunedIn(t, kinds, dst, d, names), d + [n];
    var left, right := PrunedAt(u, kinds, dst, e), PrunedIn(t, kinds, dst, d, names + {n});
    forall p | p in t ensures p in left <==> p in right {
      if e <= p {
        PrunesSame(u, t, kinds, dst, e, p);
        KeptFrom(t, kinds, dst, d, n, p);
      } else if d < p {
        assert p[|d|] != n;
      }
    }
    assert left.Keys == right.Keys;
  }

  lemma PrunesAll(t: Tree, kinds: map<Path, Kind>, dst: Path, d: Path)
    requires TreeOk(t)
    ensures PrunedIn(t, kinds, dst, d, NamesIn(t, d)) == Pruned(t, kinds, dst, d)
  {
    forall p | p in t && d < p ensures p[|d|] in NamesIn(t, d) {
      assert [] + d == d && [] + p == p;
      NameOn(t, [], d, p);
    }
  }

  /** The source has e as a directory: going on in it prunes at it. */
  lemma PrunesAtDir(t: Tree, kinds: map<Path, Kind>, dst: Path, e: Path)
    requires Matches(t, kinds, dst, e)
    ensures PrunedAt(t, kinds, dst, e) == Pruned(t, kinds, dst, e)
  {
    assert Kept(t, kinds, dst, e, e);
    forall p | p in t ensures p in PrunedAt(t, kinds, dst, e) <==> p in Pruned(t, kinds, dst, e) {
      assert e <= p ==> p == e || e < p;
    }
    assert PrunedAt(t, kinds, dst, e).Keys == Pruned(t, kinds, dst, e).Keys;
  }

  lemma PrunesAtFile(t: Tree, kinds: map<Path, Kind>, dst: Path, e: Path)
    requires TreeOk(t) && Matches(t, kinds, dst, e) && t[e].File?
    ensures PrunedAt(t, kinds, dst, e) == t
  {
    FilesHoldNothing(t, e);
    assert Kept(t, kinds, dst, e, e);
  }

  /** The tree without e and what is under it. */
  function Without(t: Tree, e: Path): Tree { map p | p in t && !(e <= p) :: t[p] }

  lemma PrunesAway(t: Tree, kinds: map<Path, Kind>, dst: Path, e: Path)
    requires !Matches(t, kinds, dst, e)
    ensures PrunedAt(t, kinds, dst, e) == Without(t, e)
  {}

  /** Removes, under the directory d, every entry the source does not have as
      the same kind; maxDepth bounds how deep the kinds go. */
  method PruneDst(disk: Disk, dst: Path, d: Path, kinds: map<Path, Kind>, ghost maxDepth: nat) returns (ok: bool)
    requires disk.Valid() && dst == disk.job.dst && dst <= d && d in disk.nodes && disk.nodes[d].Dir?
    requires |d| <= |dst| + maxDepth && forall r | r in kinds :: |r| <= maxDepth
    modifies disk
    ensures disk.Valid() && disk.Goes()
    ensures ok ==> disk.nodes == Pruned(old(disk.nodes), kinds, dst, d)
    decreases |dst| + maxDepth - |d|, 1
  {
    ghost var t := disk.nodes;
    var names;
    ok, names := disk.ListDir(d);
    if !ok { return; }
    PrunesNone(t, kinds, dst, d);
    for i := 0 to |names|
      invariant disk.Valid() && disk.Goes()
      invariant disk.nodes == PrunedIn(t, kinds, dst, d, Elems(names[..i]))
    {
      ElemsOneMore(names, i);
      PrunesOneMore(t, kinds, dst, d, Elems(names[..i]), names[i]);
      ok := PruneEntry(disk, dst, d + [names[i]], kinds, maxDepth);
      if !ok { return; }
    }
    assert names[..|names|] == names;
    PrunesAll(t, kinds, dst, d);
  }

  /** Takes away the entry e: a real directory with all in it, anything else
      alone (a symlink is never followed). */
  method TakeAway(disk: Disk, e: Path, info: Node) returns (ok: bool)
    requires disk.Valid() && disk.job.dst < e && e in disk.nodes && info == disk.nodes[e]
    modifies disk
    ensures disk.Valid() && disk.Goes()
    ensures ok ==> disk.nodes == Without(old(disk.nodes), e)
  {
    if info.Dir? {
      ok := disk.RemoveAll(e);
    } else {
      FilesHoldNothing(disk.nodes, e);
      ok := disk.Remove(e);
    }
  }

  method PruneEntry(disk: Disk, dst: Path, e: Path, kinds: map<Path, Kind>, ghost maxDepth: nat) returns (ok: bool)
    requires disk.Valid() && dst == disk.job.dst && dst < e && e in disk.nodes
    requires |e| <= |dst| + maxDepth + 1 && forall r | r in kinds :: |r| <= maxDepth
    modifies disk
    ensures disk.Valid() && disk.Goes()
    ensures ok ==> disk.nodes == PrunedAt(old(disk.nodes), kinds, dst, e)
    decreases |dst| + maxDepth + 1 - |e|, 0
  {
    var info;
    ok, info := disk.Lstat(e);
    if !ok || info.None? { return false; }
    var rel := e[|dst|..];
    var want := if rel in kinds then Some(kinds[rel]) else None;
    if info.value.Dir? && want == Some(KindDir) {
      PrunesAtDir(disk.nodes, kinds, dst, e);
      ok := PruneDst(disk, dst, e, kinds, maxDepth);
    } else if info.value.File? && want == Some(KindFile) {
      PrunesAtFile(disk.nodes, kinds, dst, e);
    } else {
      PrunesAway(disk.nodes, kinds, dst, e);
      ok := TakeAway(disk, e, info.value);
    }
  }

  // -------------------------------------------------------------------- copy

  ghost predicate ScanAll(t: Tree, root: Path, st: SrcTree) {
    forall r | r != [] && root + r in t :: r in st.kinds
  }

  /** How far a job is: pruned, i directories made, j files copied. */
  ghost predicate Stage(job: Job, st: SrcTree, t: Tree, i: nat, j: nat) requires i <= |st.dirs| && j <= |st.files| {
    && job.dst in t && t[job.dst] == Dir(DIR_MODE)
    && (forall p | p in t && job.dst < p :: Matches(t, st.kinds, job.dst, p))
    && HasDirs(job, st, t, i) && HasFiles(job, st, t, j)
  }

  lemma PruneStarts(job: Job, st: SrcTree, t: Tree)
    requires job.dst in t && t[job.dst] == Dir(DIR_MODE)
    ensures Stage(job, st, Pruned(t, st.kinds, job.dst, job.dst), 0, 0)
  {
    var u := Pruned(t, st.kinds, job.dst, job.dst);
    forall p | p in u && job.dst < p ensures Matches(u, st.kinds, job.dst, p) {
      assert Matches(t, st.kinds, job.dst, p);
    }
  }

  lemma SameRel(d: Path, a: Path, b: Path)
    ensures (d + a)[|d|..] == a
    ensures d + a == d + b ==> a == b
  {
    assert (d + a)[|d|..] == a && (d + b)[|d|..] == b;
  }

  /** What matches a source's kinds does so after a path is given what its kind is. */
  lemma MatchesWith(d: Path, kinds: map<Path, Kind>, t: Tree, rel: Path, n: Node, u: Tree)
    requires u == t[d + rel := n] && forall p | p in t && d < p :: Matches(t, kinds, d, p)
    requires rel in kinds && (if kinds[rel].KindDir? then n.Dir? else n.File?)
    ensures forall p | p in u && d < p :: Matches(u, kinds, d, p)
  {
    SameRel(d, rel, rel);
    forall p | p in u && d < p ensures Matches(u, kinds, d, p) {
      if p != d + rel { assert Matches(t, kinds, d, p); }
    }
  }

  /** The first directories are there, those after are not asked about. */
  ghost predicate HasDirs(job: Job, st: SrcTree, t: Tree, i: nat) {
    forall k | 0 <= k < i && k < |st.dirs| :: job.dst + st.dirs[k] in t && t[job.dst + st.dirs[k]] == Dir(DIR_MODE)
  }

  lemma HasOneDir(job: Job, st: SrcTree, t: Tree, i: nat)
    requires i < |st.dirs| && HasDirs(job, st, t, i)
    ensures HasDirs(job, st, t[job.dst + st.dirs[i] := Dir(DIR_MODE)], i + 1)
  {}

  lemma DirMade(job: Job, st: SrcTree, maxDepth: nat, t: Tree, i: nat)
    requires ScanOk(job.start, job.src, maxDepth, st) && i < |st.dirs| && Stage(job, st, t, i, 0)
    ensures Stage(job, st, t[job.dst + st.dirs[i] := Dir(DIR_MODE)], i + 1, 0)
  {
    assert st.dirs[i] in st.dirs;
    MatchesWith(job.dst, st.kinds, t, st.dirs[i], Dir(DIR_MODE), t[job.dst + st.dirs[i] := Dir(DIR_MODE)]);
    assert HasDirs(job, st, t, i);
    HasOneDir(job, st, t, i);
  }

  lemma DirsStay(job: Job, st: SrcTree, t: Tree, i: nat, rel: Path, n: Node)
    requires HasDirs(job, st, t, i) && rel !in st.dirs
    ensures HasDirs(job, st, t[job.dst + rel := n], i)
  {
    forall k | 0 <= k < i && k < |st.dirs| ensures job.dst + st.dirs[k] != job.dst + rel { SameRel(job.dst, st.dirs[k], rel); }
  }

  /** The first files are there, as the source's. */
  ghost predicate HasFiles(job: Job, st: SrcTree, t: Tree, j: nat) {
    forall k | 0 <= k < j && k < |st.files| :: HasFile(job, t, st.files[k].rel)
  }

  ghost predicate HasFile(job: Job, t: Tree, rel: Path) {
    job.src + rel in job.start && job.dst + rel in t && t[job.dst + rel] == Image(job.start[job.src + rel])
  }

  lemma HasOneFile(job: Job, st: SrcTree, t: Tree, j: nat)
    requires j < |st.files| && HasFiles(job, st, t, j) && job.src + st.files[j].rel in job.start
    ensures HasFiles(job, st, t[job.dst + st.files[j].rel := Image(job.start[job.src + st.files[j].rel])], j + 1)
  {
    var rel := st.files[j].rel;
    var u := t[job.dst + rel := Image(job.start[job.src + rel])];
    forall k | 0 <= k < j + 1 ensures HasFile(job, u, st.files[k].rel) {
      SameRel(job.dst, rel, st.files[k].rel);
      if k < j { assert HasFile(job, t, st.files[k].rel); }
    }
  }

  lemma FileCopied(job: Job, st: SrcTree, maxDepth: nat, t: Tree, j: nat)
    requires ScanOk(job.start, job.src, maxDepth, st) && j < |st.files| && Stage(job, st, t, |st.dirs|, j)
    requires job.src + st.files[j].rel in job.start
    ensures Stage(job, st, t[job.dst + st.files[j].rel := Image(job.start[job.src + st.files[j].rel])], |st.dirs|, j + 1)
  {
    var rel := st.files[j].rel;
    var n := Image(job.start[job.src + rel]);
    assert st.files[j] in st.files;
    MatchesWith(job.dst, st.kinds, t, rel, n, t[job.dst + rel := n]);
    DirsStay(job, st, t, |st.dirs|, rel, n);
    forall k | 0 <= k < j ensures HasFile(job, t, st.files[k].rel) {}
    HasOneFile(job, st, t, j);
  }

  lemma AllDone(job: Job, st: SrcTree, maxDepth: nat, t: Tree)
    requires SafeState(job, t) && ScanOk(job.start, job.src, maxDepth, st) && ScanAll(job.start, job.src, st)
    requires Stage(job, st, t, |st.dirs|, |st.files|)
    ensures Mirrors(job, t)
  {
    forall p | p in t && job.dst < p
      ensures SrcOf(job, p) in job.start && t[p] == Image(job.start[SrcOf(job, p)])
      ensures job.start[SrcOf(job, p)].Dir? || job.start[SrcOf(job, p)].File?
    {
      assert Matches(t, st.kinds, job.dst, p);
      IsDone(job, st, maxDepth, t, p[|job.dst|..]);
      SplitPath(job.dst, p);
    }
    forall r | r != [] && job.src + r in job.start ensures job.dst + r in t {
      assert r in st.kinds;
      IsDone(job, st, maxDepth, t, r);
    }
  }

  lemma IsDone(job: Job, st: SrcTree, maxDepth: nat, t: Tree, r: Path)
    requires ScanOk(job.start, job.src, maxDepth, st) && Stage(job, st, t, |st.dirs|, |st.files|)
    requires r in st.kinds
    ensures job.src + r in job.start && job.dst + r in t && t[job.dst + r] == Image(job.start[job.src + r])
    ensures job.start[job.src + r].Dir? || job.start[job.src + r].File?
  {
    if st.kinds[r].KindDir? {
      var k :| 0 <= k < |st.dirs| && st.dirs[k] == r;
    } else {
      var f := SrcFile(r, IsExec(job.start[job.src + r]));
      var k :| 0 <= k < |st.files| && st.files[k] == f;
    }
  }

  /** Makes p (a directory of the source) a real directory, 0755. */
  method EnsureDstDir(disk: Disk, p: Path) returns (ok: bool)
    requires disk.Valid() && disk.job.dst < p && Parent(p) in disk.nodes && disk.nodes[Parent(p)].Dir?
    requires SrcOf(disk.job, p) in disk.job.start && disk.job.start[SrcOf(disk.job, p)].Dir?
    modifies disk
    ensures disk.Valid() && disk.Goes()
    ensures ok ==> disk.nodes == old(disk.nodes)[p := Dir(DIR_MODE)]
  {
    var info;
    ok, info := disk.Lstat(p);
    if !ok { return; }
    match info {
      case None =>
        ok := disk.Mkdir(p);
        if !ok { return; }
      case Some(Dir(_)) =>
      case _ => return false;
    }
    PutTwice(old(disk.nodes), p, disk.nodes[p], Dir(DIR_MODE));
    ok := disk.Chmod(p, DIR_MODE);
  }

  /** Writes what is in the source file from to the target to: a fresh temporary
      file in its directory, mode set, renamed over the target. */
  method CopyFileTo(disk: Disk, from: Path, to: Path, exec: bool) returns (ok: bool)
    requires disk.Valid() && disk.job.dst < to && from == SrcOf(disk.job, to) && from in disk.job.start
    requires disk.job.start[from].File? && exec == IsExec(disk.job.start[from])
    requires Parent(to) in disk.nodes && disk.nodes[Parent(to)].Dir? && (to in disk.nodes ==> disk.nodes[to].File?)
    modifies disk
    ensures disk.Valid() && disk.Goes()
    ensures ok ==> disk.nodes == old(disk.nodes)[to := Image(disk.job.start[from])]
  {
    SourceIsOutside(disk.job, to[|disk.job.dst|..]);
    var data;
    ok, data := disk.Open(from);
    if !ok { return; }
    assert disk.nodes[from] == disk.job.start[from];
    var tmp;
    ok, tmp := disk.CreateTemp(Parent(to));
    if !ok { return; }
    ghost var image := Image(disk.job.start[from]);
    assert image == File(data, if exec then EXEC_MODE else FILE_MODE);
    RenamedOver(old(disk.nodes), tmp, disk.nodes[tmp], to, image);
    ok := WriteOver(disk, tmp, to, data, if exec then EXEC_MODE else FILE_MODE);
  }

  /** Fills the fresh temporary file and renames it over the target; when that
      fails, removes it. */
  method WriteOver(disk: Disk, tmp: Path, to: Path, data: Bytes, mode: Mode) returns (ok: bool)
    requires disk.Valid() && tmp in disk.nodes && disk.nodes[tmp] == File([], TEMP_MODE)
    requires disk.job.dst < tmp && IsTempName(Last(tmp))
    requires disk.job.dst < to && Parent(to) in disk.nodes && disk.nodes[Parent(to)].Dir?
    requires to in disk.nodes ==> disk.nodes[to].File?
    requires NodeSafe(disk.job, to, File(data, mode))
    modifies disk
    ensures disk.Valid() && disk.Goes()
    ensures ok ==> disk.nodes == (old(disk.nodes)[tmp := File(data, mode)] - {tmp})[to := File(data, mode)]
  {
    ok := FillTemp(disk, tmp, data, mode);
    if ok { ok := disk.Rename(tmp, to); }
    if !ok { Discard(disk, tmp); }
  }

  lemma RenamedOver(t: Tree, tmp: Path, empty: Node, to: Path, n: Node)
    requires tmp !in t
    ensures (t[tmp := empty][tmp := n] - {tmp})[to := n] == t[to := n]
  {}

  /** Removes a temporary file that was not renamed; best effort. */
  method Discard(disk: Disk, tmp: Path)
    requires disk.Valid() && disk.job.dst < tmp && tmp in disk.nodes && disk.nodes[tmp].File?
    modifies disk
    ensures disk.Valid() && disk.Goes()
  {
    FilesHoldNothing(disk.nodes, tmp);
    var _ := disk.Remove(tmp);
  }

  lemma PutTwice(t: Tree, p: Path, m: Node, n: Node)
    ensures t[p := m][p := n] == t[p := n]
  {}

  /** Writes data to the fresh temporary file in pieces, then sets its mode. */
  method FillTemp(disk: Disk, tmp: Path, data: Bytes, mode: Mode) returns (ok: bool)
    requires disk.Valid() && tmp in disk.nodes && disk.nodes[tmp] == File([], TEMP_MODE)
    requires disk.job.dst < tmp && IsTempName(Last(tmp))
    modifies disk
    ensures disk.Valid() && disk.Goes()
    ensures tmp in disk.nodes && disk.nodes[tmp].File?
    ensures ok ==> disk.nodes == old(disk.nodes)[tmp := File(data, mode)]
  {
    ghost var t := disk.nodes;
    var done := 0;
    ok := true;
    while done < |data|
      invariant disk.Valid() && disk.Goes() && done <= |data|
      invariant disk.nodes == t[tmp := File(data[..done], TEMP_MODE)]
    {
      var more :| 0 < more <= |data| - done;
      assert data[..done] + data[done..done + more] == data[..done + more];
      PutTwice(t, tmp, disk.nodes[tmp], File(data[..done + more], TEMP_MODE));
      ok := disk.Append(tmp, data[done..done + more]);
      if !ok { return; }
      done := done + more;
    }
    assert data[..done] == data;
    PutTwice(t, tmp, disk.nodes[tmp], File(data, mode));
    ok := disk.Chmod(tmp, mode);
  }

  // ------------------------------------------------------------------ mirror

  const MAX_ENTRIES: nat := 200000
  const MAX_DEPTH: nat := 64

  /** What a whole source must be to be copied: regular files and directories
      only, named as the host keeps names, not too many and not too deep. */
  ghost predicate FitSource(t: Tree, src: Path, fold: bool, lower: string -> string, isLocal: string -> bool, maxEntries: nat, maxDepth: nat) {
    && (forall r | r != [] && src + r in t :: |r| <= maxDepth + 1 && (t[src + r].Dir? || t[src + r].File?))
    && FitBelow(t, src, [], fold, lower, isLocal)
    && |BelowOf(t, src)| <= maxEntries
  }

  ghost function BelowOf(t: Tree, src: Path): set<Path> {
    set p | p in t && src < p :: p[|src|..]
  }

  /** Reads the whole source tree; the disk stays as it is. */
  method ScanTree(disk: Disk, src: Path, fold: bool, lower: string -> string, isLocal: string -> bool, maxEntries: nat, maxDepth: nat)
    returns (ok: bool, st: SrcTree)
    requires TreeOk(disk.nodes) && src in disk.nodes && disk.nodes[src].Dir?
    ensures ok ==> ScanOk(disk.nodes, src, maxDepth, st) && ScanAll(disk.nodes, src, st)
    ensures ok ==> FitSource(disk.nodes, src, fold, lower, isLocal, maxEntries, maxDepth)
  {
    var scanner := new Scanner(disk, src, fold, lower, isLocal, maxEntries, maxDepth);
    ghost var t := disk.nodes;
    assert src + [] == src;
    ok := scanner.Walk(t, [], 0);
    st := scanner.tree;
    if ok {
      RecordsAll(t, src, [], map[], st.kinds);
      assert ScanAll(t, src, st);
      assert BelowOf(t, src) <= st.kinds.Keys by {
        forall p | p in t && src < p ensures p[|src|..] in st.kinds { SplitPath(src, p); }
      }
      Subset(BelowOf(t, src), st.kinds.Keys);
    }
  }

  lemma {:induction false} Subset<T>(a: set<T>, b: set<T>)
    requires a <= b
    ensures |a| <= |b|
  {
    if a != {} {
      var x :| x in a;
      Subset(a - {x}, b - {x});
    }
  }

  datatype MirrorResult = Mirrored | NotRealDir | NotDistinct | ScanFailed | PartlyDone

  /** Makes the real directory dst hold exactly what the real directory src
      holds. */
  method Mirror(disk: Disk, src: Path, dst: Path, fold: bool, lower: string -> string, isLocal: string -> bool) returns (res: MirrorResult)
    requires TreeOk(disk.nodes)
    modifies disk
    ensures res.NotRealDir? || res.NotDistinct? || res.ScanFailed? ==> disk.nodes == old(disk.nodes) && disk.history == old(disk.history)
    ensures res.NotDistinct? ==> src <= dst || dst <= src
    ensures res.PartlyDone? || res.Mirrored? ==>
      && disk.job == Job(old(disk.nodes), src, dst) && disk.Valid()
      && FitSource(old(disk.nodes), src, fold, lower, isLocal, MAX_ENTRIES, MAX_DEPTH)
    ensures res.Mirrored? ==> Mirrors(disk.job, disk.nodes)
  {
    var ok, info := disk.Lstat(src);
    if !ok || info.None? || !info.value.Dir? { return NotRealDir; }
    ok, info := disk.Lstat(dst);
    if !ok || info.None? || !info.value.Dir? { return NotRealDir; }
    if src <= dst || dst <= src { return NotDistinct; }
    var st;
    ok, st := ScanTree(disk, src, fold, lower, isLocal, MAX_ENTRIES, MAX_DEPTH);
    if !ok { return ScanFailed; }
    disk.job, disk.history := Job(disk.nodes, src, dst), [];
    ok := Update(disk, src, dst, st, MAX_DEPTH);
    res := if ok then Mirrored else PartlyDone;
  }

  /** Mirror after the scan. */
  method Update(disk: Disk, src: Path, dst: Path, st: SrcTree, ghost maxDepth: nat) returns (ok: bool)
    requires disk.Valid() && disk.job == Job(disk.nodes, src, dst)
    requires ScanOk(disk.nodes, src, maxDepth, st) && ScanAll(disk.nodes, src, st)
    modifies disk
    ensures disk.Valid() && disk.Goes()
    ensures ok ==> Mirrors(disk.job, disk.nodes)
  {
    ghost var job := disk.job;
    ok := disk.Chmod(dst, DIR_MODE);
    if !ok { return; }
    PruneStarts(job, st, disk.nodes);
    ok := PruneDst(disk, dst, dst, st.kinds, maxDepth + 1);
    if !ok { return; }
    ok := MakeDirs(disk, dst, st, maxDepth);
    if !ok { return; }
    ok := CopyFiles(disk, src, dst, st, maxDepth);
    if ok { AllDone(job, st, maxDepth, disk.nodes); }
  }

  /** Every directory comes after its parent, so none meets a missing one. */
  method MakeDirs(disk: Disk, dst: Path, st: SrcTree, ghost maxDepth: nat) returns (ok: bool)
    requires disk.Valid() && dst == disk.job.dst
    requires ScanOk(disk.job.start, disk.job.src, maxDepth, st) && Stage(disk.job, st, disk.nodes, 0, 0)
    modifies disk
    ensures disk.Valid() && disk.Goes()
    ensures ok ==> Stage(disk.job, st, disk.nodes, |st.dirs|, 0)
  {
    ok := true;
    for i := 0 to |st.dirs|
      invariant disk.Valid() && disk.Goes() && Stage(disk.job, st, disk.nodes, i, 0)
    {
      DirHasParent(disk.job, st, maxDepth, disk.nodes, i);
      DirMade(disk.job, st, maxDepth, disk.nodes, i);
      ok := EnsureDstDir(disk, dst + st.dirs[i]);
      if !ok { return; }
    }
  }

  method CopyFiles(disk: Disk, src: Path, dst: Path, st: SrcTree, ghost maxDepth: nat) returns (ok: bool)
    requires disk.Valid() && dst == disk.job.dst && src == disk.job.src
    requires ScanOk(disk.job.start, src, maxDepth, st) && ScanAll(disk.job.start, src, st)
    requires Stage(disk.job, st, disk.nodes, |st.dirs|, 0)
    modifies disk
    ensures disk.Valid() && disk.Goes()
    ensures ok ==> Stage(disk.job, st, disk.nodes, |st.dirs|, |st.files|)
  {
    ok := true;
    for j := 0 to |st.files|
      invariant disk.Valid() && disk.Goes() && Stage(disk.job, st, disk.nodes, |st.dirs|, j)
    {
      FileHasParent(disk.job, st, maxDepth, disk.nodes, j);
      FileCopied(disk.job, st, maxDepth, disk.nodes, j);
      ok := CopyFileTo(disk, src + st.files[j].rel, dst + st.files[j].rel, st.files[j].exec);
      if !ok { return; }
    }
  }

  lemma DirHasParent(job: Job, st: SrcTree, maxDepth: nat, t: Tree, i: nat)
    requires JobOk(job) && ScanOk(job.start, job.src, maxDepth, st) && i < |st.dirs| && Stage(job, st, t, i, 0)
    ensures var p := job.dst + st.dirs[i];
      && p != [] && job.dst < p && Parent(p) in t && t[Parent(p)].Dir?
      && SrcOf(job, p) in job.start && job.start[SrcOf(job, p)].Dir?
  {
    var r := st.dirs[i];
    assert r in st.dirs && r in st.kinds;
    assert r != [] && (Parent(r) == [] || Parent(r) in st.dirs[..i]);
    RelOf(job, r);
    ParentIn(job.dst, r);
    if Parent(r) != [] {
      var k :| 0 <= k < i && st.dirs[k] == Parent(r);
    }
  }

  lemma ParentIn(d: Path, r: Path)
    requires r != []
    ensures Parent(d + r) == d + Parent(r)
  {}

  lemma FileHasParent(job: Job, st: SrcTree, maxDepth: nat, t: Tree, j: nat)
    requires JobOk(job) && ScanOk(job.start, job.src, maxDepth, st) && ScanAll(job.start, job.src, st)
    requires j < |st.files| && Stage(job, st, t, |st.dirs|, j)
    ensures var f := st.files[j]; var p := job.dst + f.rel;
      && p != [] && job.dst < p && Parent(p) in t && t[Parent(p)].Dir? && (p in t ==> t[p].File?)
      && SrcOf(job, p) == job.src + f.rel && job.src + f.rel in job.start
      && job.start[job.src + f.rel].File? && f.exec == IsExec(job.start[job.src + f.rel])
  {
    var f := st.files[j];
    assert f in st.files && f.rel in st.kinds;
    RelOf(job, f.rel);
    ParentIn(job.dst, f.rel);
    ParentIn(job.src, f.rel);
    if Parent(f.rel) != [] {
      PrefixesAreThere(job.start, Parent(job.src + f.rel), job.src + f.rel);
      assert Parent(f.rel) in st.kinds;
      var k :| 0 <= k < |st.dirs| && st.dirs[k] == Parent(f.rel);
    }
    if job.dst + f.rel in t { assert Matches(t, st.kinds, job.dst, job.dst + f.rel); }
  }

  // ----------------------------------------------------------- what it means

  /** At every moment each source file's path holds nothing, what it held
      before, or the whole new file; a name like a temporary file's may also
      hold partial data. */
  lemma FilesAreWhole(job: Job, t: Tree, r: Path)
    requires SafeState(job, t) && r != [] && job.src + r in job.start && job.start[job.src + r].File?
    requires !IsTempName(Last(r))
    ensures job.dst + r in t ==>
      || t[job.dst + r] == Image(job.start[job.src + r])
      || (job.dst + r in job.start && t[job.dst + r] == job.start[job.dst + r])
  {
    RelOf(job, r);
    if job.dst + r in t { assert NodeSafe(job, job.dst + r, t[job.dst + r]); }
  }

  /** Only what is in the destination changes: the source and everything a
      symlink points to elsewhere is as it was. */
  lemma OutsideIsUntouched(job: Job, t: Tree, p: Path)
    requires SafeState(job, t) && !(job.dst <= p)
    ensures p in t <==> p in job.start
    ensures p in t ==> t[p] == job.start[p]
  {}

  /** Mirroring again changes nothing. */
  lemma MirrorsAgain(first: Job, t: Tree, second: Job, u: Tree)
    requires JobOk(first) && Mirrors(first, t) && second == Job(t, first.src, first.dst) && Mirrors(second, u)
    ensures u == t
  {
    forall p | first.dst < p ensures p in u <==> p in t
      ensures p in t ==> p in u && u[p] == t[p]
    {
      MirrorsInside(first, t, second, u, p);
    }
    forall p | !(first.dst < p) ensures p in u <==> p in t
      ensures p in t ==> p in u && u[p] == t[p]
    {
      if first.dst <= p { assert p == first.dst; }
    }
    assert u.Keys == t.Keys;
  }

  lemma MirrorsInside(first: Job, t: Tree, second: Job, u: Tree, p: Path)
    requires JobOk(first) && Mirrors(first, t) && second == Job(t, first.src, first.dst) && Mirrors(second, u) && first.dst < p
    ensures (p in u <==> p in t) && (p in t ==> p in u && u[p] == t[p])
  {
    var r := p[|first.dst|..];
    SplitPath(first.dst, p);
    SourceIsOutside(first, r);
    assert SrcOf(first, p) == SrcOf(second, p) == first.src + r;
  }
}
