/** Names and retention of the artifacts eyedbg keeps (internal/artifacts/artifacts.go). */
module Retention {
  import opened Wrappers
  import opened Text
  import opened Sorting

  datatype Kind = Dumps | Traces | NoKind

  const SCRATCH_MAX_AGE: int := 3600
  const NAME_TRIES: nat := 5

  function Types(kind: Kind): set<string> {
    match kind
    case Dumps => {"heap", "mini", "triage", "full"}
    case Traces => {"cpu", "gc"}
    case NoKind => {}
  }

  function Extension(kind: Kind): string {
    match kind
    case Dumps => ".dmp"
    case Traces => ".nettrace"
    case NoKind => ""
  }

  const SCRATCH_TYPES := {"cpu", "gc", "file"}

  // ------------------------------------------------------------------- names

  predicate IsDigit(c: char) { '0' <= c <= '9' }

  predicate Digits(s: string) { forall i | 0 <= i < |s| :: IsDigit(s[i]) }

  predicate IsHex(c: char) { IsDigit(c) || 'a' <= c <= 'f' }

  predicate Random(s: string) { |s| == 8 && forall i | 0 <= i < 8 :: IsHex(s[i]) }

  /** A date, T, a time and Z. */
  predicate Stamp(s: string) { |s| == 16 && Digits(s[..8]) && s[8] == 'T' && Digits(s[9..15]) && s[15] == 'Z' }

  function Built(pid: string, stamp: string, typ: string, random: string, ext: string): string {
    pid + "-" + stamp + "-" + typ + "-" + random + ext
  }

  /** The name has the form of its pattern, with this type. */
  ghost predicate HasForm(types: set<string>, ext: string, name: string, typ: string) {
    exists pid, stamp, random ::
      pid != "" && Digits(pid) && Stamp(stamp) && Random(random) && typ in types && name == Built(pid, stamp, typ, random, ext)
  }

  function DigitsEnd(s: string, i: nat): (end: nat)
    requires i <= |s|
    ensures i <= end <= |s| && (forall k | i <= k < end :: IsDigit(s[k])) && (end < |s| ==> !IsDigit(s[end]))
    decreases |s| - i
  {
    if i < |s| && IsDigit(s[i]) then DigitsEnd(s, i + 1) else i
  }

  /** The type a name of the pattern's form records. */
  function TypeIn(types: set<string>, ext: string, name: string): Option<string> {
    var d, e := DigitsEnd(name, 0), |name| - |ext| - 9;
    if d == 0 || e < d + 18 then None
    else if name[d] != '-' || !Stamp(name[d + 1..d + 17]) || name[d + 17] != '-' then None
    else if name[e] != '-' || !Random(name[e + 1..e + 9]) || name[e + 9..] != ext || name[d + 18..e] !in types then None
    else Some(name[d + 18..e])
  }

  predicate IsName(kind: Kind, name: string) { kind != NoKind && TypeIn(Types(kind), Extension(kind), name).Some? }

  function TypeOf(kind: Kind, name: string): string {
    var t := TypeIn(Types(kind), Extension(kind), name);
    if kind != NoKind && t.Some? then t.value else ""
  }

  predicate IsScratch(kind: Kind, name: string) {
    kind == Traces && (TypeIn(SCRATCH_TYPES, ".etlx", name).Some? || TypeIn(SCRATCH_TYPES, ".etlx.new", name).Some?)
  }

  /** A built name's parts are where they were put, whatever the type is. */
  lemma PartsOf(pid: string, stamp: string, typ: string, random: string, ext: string)
    requires pid != "" && Digits(pid) && |stamp| == 16 && Random(random)
    ensures var name := Built(pid, stamp, typ, random, ext); var d, e := |pid|, |name| - |ext| - 9;
      && DigitsEnd(name, 0) == d && e == d + 18 + |typ| && name[d] == '-' && name[d + 1..d + 17] == stamp && name[d + 17] == '-'
      && name[d + 18..e] == typ && name[e] == '-' && name[e + 1..e + 9] == random && name[e + 9..] == ext
  {
    var name := Built(pid, stamp, typ, random, ext);
    forall k | 0 <= k < |pid| ensures name[k] == pid[k] {}
    DigitsEndIs(name, |pid|);
  }

  lemma DigitsEndIs(s: string, d: nat)
    requires d < |s| && !IsDigit(s[d]) && forall k | 0 <= k < d :: IsDigit(s[k])
    ensures DigitsEnd(s, 0) == d
  {}

  /** The recorded type is that of the name's form, both ways. */
  lemma TypeInMeans(types: set<string>, ext: string, name: string, typ: string)
    ensures TypeIn(types, ext, name) == Some(typ) <==> HasForm(types, ext, name, typ)
  {
    if TypeIn(types, ext, name) == Some(typ) { FormOf(types, ext, name, typ); }
    if HasForm(types, ext, name, typ) {
      var pid, stamp, random :|
        pid != "" && Digits(pid) && Stamp(stamp) && Random(random) && typ in types && name == Built(pid, stamp, typ, random, ext);
      PartsOf(pid, stamp, typ, random, ext);
    }
  }

  lemma FormOf(types: set<string>, ext: string, name: string, typ: string)
    requires TypeIn(types, ext, name) == Some(typ)
    ensures HasForm(types, ext, name, typ)
  {
    var d, e := DigitsEnd(name, 0), |name| - |ext| - 9;
    var pid, stamp, random := name[..d], name[d + 1..d + 17], name[e + 1..e + 9];
    Cut(name, d, e);
    assert name == Built(pid, stamp, typ, random, ext);
  }

  lemma Cut(s: string, d: nat, e: nat)
    requires d + 18 <= e && e + 9 <= |s|
    ensures s == s[..d] + [s[d]] + s[d + 1..d + 17] + [s[d + 17]] + s[d + 18..e] + [s[e]] + s[e + 1..e + 9] + s[e + 9..]
  {}

  lemma {:induction false} DecimalDigits(n: nat)
    ensures Decimal(n) != "" && Digits(Decimal(n))
  {
    if n >= 10 {
      DecimalDigits(n / 10);
      DecimalDigits(n % 10);
    }
  }

  /** A UTC time as the names have it: eight digits for the date, more from the
      year 10000 on. */
  ghost predicate Timestamp(s: string) { exists d: nat :: TimestampAt(s, d) }

  predicate TimestampAt(s: string, d: nat) {
    d >= 8 && |s| == d + 8 && Digits(s[..d]) && s[d] == 'T' && Digits(s[d + 1..d + 7]) && s[d + 7] == 'Z'
  }

  /** Picks a fresh name; the name must be one Prune knows. */
  method FreshName(taken: set<string>, kind: Kind, pid: int, typ: string, now: string) returns (name: Option<string>)
    requires Timestamp(now)
    ensures name.Some? ==> IsName(kind, name.value) && name.value !in taken
    ensures name.Some? ==> exists random :: Random(random) && name.value == Built(Decimal(pid), now, typ, random, Extension(kind))
  {
    for _ := 0 to NAME_TRIES {
      assert Random("00000000");
      var random :| Random(random);
      var candidate := Built(Decimal(pid), now, typ, random, Extension(kind));
      if !IsName(kind, candidate) { return None; }
      if candidate !in taken { return Some(candidate); }
    }
    name := None;
  }

  /** A name that was made records the type it was made with, and is never a
      scratch file's too. */
  lemma MadeNameIsRead(kind: Kind, pid: int, typ: string, now: string, random: string)
    requires Timestamp(now) && Random(random) && IsName(kind, Built(Decimal(pid), now, typ, random, Extension(kind)))
    ensures var name := Built(Decimal(pid), now, typ, random, Extension(kind));
      TypeOf(kind, name) == typ && typ in Types(kind) && !IsScratch(kind, name)
  {
    var d: nat :| TimestampAt(now, d);
    NegativeIsNone(pid, now, typ, random, Extension(kind), Types(kind));
    if pid >= 0 {
      DecimalDigits(pid);
      if d == 8 {
        ShortYearIsTyp(Decimal(pid), now, typ, random, Extension(kind), Types(kind));
      } else {
        LongYearIsNone(Decimal(pid), now, d, typ, random, Extension(kind), Types(kind));
      }
    }
    LastSays(kind, Built(Decimal(pid), now, typ, random, Extension(kind)));
  }

  lemma ShortYearIsTyp(pid: string, now: string, typ: string, random: string, ext: string, types: set<string>)
    requires pid != "" && Digits(pid) && TimestampAt(now, 8) && Random(random)
    ensures TypeIn(types, ext, Built(pid, now, typ, random, ext)) == if typ in types then Some(typ) else None
  {
    PartsOf(pid, now, typ, random, ext);
    assert now[9..15] == now[9..8 + 7];
  }

  lemma NegativeIsNone(pid: int, now: string, typ: string, random: string, ext: string, types: set<string>)
    ensures pid < 0 ==> TypeIn(types, ext, Built(Decimal(pid), now, typ, random, ext)) == None
  {
    if pid < 0 {
      assert Decimal(pid)[0] == '-' && Built(Decimal(pid), now, typ, random, ext)[0] == '-';
    }
  }

  lemma LongYearIsNone(pid: string, now: string, d: nat, typ: string, random: string, ext: string, types: set<string>)
    requires pid != "" && Digits(pid) && TimestampAt(now, d) && d > 8
    ensures TypeIn(types, ext, Built(pid, now, typ, random, ext)) == None
  {
    var name := Built(pid, now, typ, random, ext);
    assert forall k | 0 <= k < |pid| :: name[k] == pid[k];
    DigitsEndIs(name, |pid|);
    if |name| >= |pid| + 17 {
      var stamp := name[|pid| + 1..|pid| + 17];
      assert stamp[8] == now[8] == now[..d][8];
    }
  }

  lemma LastSays(kind: Kind, name: string)
    ensures IsName(kind, name) ==> !IsScratch(kind, name)
  {
    if IsName(kind, name) && kind == Traces {
      assert name[|name| - 1] == 'e' by { EndsWith(Types(kind), ".nettrace", name); }
      if TypeIn(SCRATCH_TYPES, ".etlx", name).Some? { EndsWith(SCRATCH_TYPES, ".etlx", name); }
      if TypeIn(SCRATCH_TYPES, ".etlx.new", name).Some? { EndsWith(SCRATCH_TYPES, ".etlx.new", name); }
    }
  }

  lemma EndsWith(types: set<string>, ext: string, name: string)
    requires TypeIn(types, ext, name).Some? && ext != ""
    ensures name != "" && name[|name| - 1] == ext[|ext| - 1]
  {
    var e := |name| - |ext| - 9;
    assert name[e + 9..][|ext| - 1] == name[|name| - 1];
  }

  // --------------------------------------------------------------- retention

  datatype File = File(regular: bool, mod: int)

  type Files = map<string, File>

  /** A file that may be removed. */
  datatype Entry = Entry(name: string, mod: int)

  /** Newer first; of the same time, by name. */
  predicate Before(a: Entry, b: Entry) { a.mod > b.mod || (a.mod == b.mod && StrLe(b.name, a.name)) }

  lemma BeforeIsOrder()
    ensures TotalOrder(Before)
  {
    forall a, b ensures Before(a, b) || Before(b, a) { StrLeTotal(a.name, b.name); }
    forall a, b, c ensures Before(a, b) && Before(b, c) ==> Before(a, c) { StrLeTransitive(c.name, b.name, a.name); }
  }

  function Artifacts(files: Files, kind: Kind): set<Entry> {
    set n | n in files && files[n].regular && IsName(kind, n) :: Entry(n, files[n].mod)
  }

  function Scratch(files: Files, kind: Kind): set<Entry> {
    set n | n in files && files[n].regular && !IsName(kind, n) && IsScratch(kind, n) :: Entry(n, files[n].mod)
  }

  function Newer(arts: set<Entry>, a: Entry): set<Entry> { set b | b in arts && b != a && Before(b, a) }

  /** Too old, or not among the newest; never the protected one. */
  predicate Doomed(arts: set<Entry>, a: Entry, now: int, maxAge: int, keep: nat, protected: string) {
    a.name != protected && (|Newer(arts, a)| >= keep || now - a.mod > maxAge)
  }

  predicate ScratchDoomed(a: Entry, now: int, protected: string) { a.name != protected && now - a.mod > SCRATCH_MAX_AGE }

  /** The names a prune takes away. */
  function Takes(files: Files, kind: Kind, now: int, maxAge: int, keep: nat, protected: string): set<string> {
    var arts := Artifacts(files, kind);
    (set a | a in arts && Doomed(arts, a, now, maxAge, keep, protected) :: a.name)
    + (set a | a in Scratch(files, kind) && ScratchDoomed(a, now, protected) :: a.name)
  }

  lemma {:induction false} MoreIsMore<T>(a: set<T>, b: set<T>)
    requires a <= b
    ensures |a| <= |b|
  {
    if a != {} {
      var x :| x in a;
      MoreIsMore(a - {x}, b - {x});
    }
  }

  /** Of any artifacts at most keep have fewer than keep newer ones. */
  lemma {:induction false} FewAreNewest(arts: set<Entry>, keep: nat)
    ensures |set a | a in arts && |Newer(arts, a)| < keep| <= keep
    decreases arts
  {
    var newest := set a | a in arts && |Newer(arts, a)| < keep;
    if arts != {} {
      var oldest := Oldest(arts);
      var rest := arts - {oldest};
      FewAreNewest(rest, keep);
      forall a | a in rest ensures Newer(rest, a) == Newer(arts, a) { OldestLast(arts, oldest, a); }
      var before := set a | a in rest && |Newer(rest, a)| < keep;
      assert Newer(arts, oldest) == rest;
      if |rest| < keep {
        MoreIsMore(newest, arts);
        assert arts == rest + {oldest};
      } else {
        assert newest == before;
      }
    }
  }

  lemma OldestLast(arts: set<Entry>, oldest: Entry, a: Entry)
    requires oldest in arts && (forall b | b in arts :: Before(b, oldest)) && a in arts && a != oldest
    ensures Newer(arts - {oldest}, a) == Newer(arts, a)
  {
    StrLeTotal(a.name, oldest.name);
    assert Before(a, oldest) && (Before(oldest, a) ==> a == oldest);
  }

  lemma {:induction false} Oldest(arts: set<Entry>) returns (oldest: Entry)
    requires arts != {}
    ensures oldest in arts && forall b | b in arts :: Before(b, oldest)
    decreases arts
  {
    BeforeIsOrder();
    var a :| a in arts;
    if arts == {a} {
      oldest := a;
    } else {
      var o := Oldest(arts - {a});
      oldest := if Before(a, o) then o else a;
      forall b | b in arts ensures Before(b, oldest) { assert b == a || Before(b, o); }
    }
  }

  // ------------------------------------------------------ what a prune leaves

  /** The files a listing shows: none when the directory can't be read, and not
      those that can't be looked at. */
  function Shown(files: Files, broken: bool, hidden: set<string>): Files { if broken then map[] else files - hidden }

  /** The directory after a prune: what it takes is gone, but for what the file
      system won't remove. */
  function After(files: Files, broken: bool, hidden: set<string>, stuck: set<string>,
                 kind: Kind, now: int, maxAge: int, keep: nat, protected: string): Files {
    files - (Takes(Shown(files, broken, hidden), kind, now, maxAge, keep, protected) - stuck)
  }

  /** When nothing is in its way, a prune leaves of the artifacts exactly those
      young enough among the newest keep, and the protected one; of the scratch
      files the young ones; and everything else. */
  lemma LeavesExactly(files: Files, kind: Kind, now: int, maxAge: int, keep: nat, protected: string, n: string)
    requires n in files
    ensures var arts, a, after := Artifacts(files, kind), Entry(n, files[n].mod), After(files, false, {}, {}, kind, now, maxAge, keep, protected);
      && (n in after ==> after[n] == files[n])
      && (a in arts ==> (n in after <==> n == protected || (|Newer(arts, a)| < keep && now - a.mod <= maxAge)))
      && (a in Scratch(files, kind) ==> (n in after <==> n == protected || now - a.mod <= SCRATCH_MAX_AGE))
      && (a !in arts && a !in Scratch(files, kind) ==> n in after)
  {
    assert files - {} == files;
    TakesOne(files, kind, now, maxAge, keep, protected, n);
  }

  /** A name is taken as its own entry says. */
  lemma TakesOne(files: Files, kind: Kind, now: int, maxAge: int, keep: nat, protected: string, n: string)
    requires n in files
    ensures var arts, a := Artifacts(files, kind), Entry(n, files[n].mod);
      n in Takes(files, kind, now, maxAge, keep, protected) <==>
        || (a in arts && Doomed(arts, a, now, maxAge, keep, protected))
        || (a in Scratch(files, kind) && ScratchDoomed(a, now, protected))
  {
    var arts, a := Artifacts(files, kind), Entry(n, files[n].mod);
    assert forall b | b in arts && b.name == n :: b == a;
    assert forall b | b in Scratch(files, kind) && b.name == n :: b == a;
  }

  /** Of the artifacts that were shown and could be removed at most keep are left,
      and the protected one. */
  lemma LeavesFew(files: Files, broken: bool, hidden: set<string>, stuck: set<string>,
                  kind: Kind, now: int, maxAge: int, keep: nat, protected: string)
    ensures var after := After(files, broken, hidden, stuck, kind, now, maxAge, keep, protected);
      |set a | a in Artifacts(Shown(after, broken, hidden), kind) && a.name !in stuck| <= keep + 1
  {
    var seen := Shown(files, broken, hidden);
    var after := After(files, broken, hidden, stuck, kind, now, maxAge, keep, protected);
    var arts := Artifacts(seen, kind);
    var left := set a | a in Artifacts(Shown(after, broken, hidden), kind) && a.name !in stuck;
    var newest := set a | a in arts && |Newer(arts, a)| < keep;
    var one := if protected in seen then {Entry(protected, seen[protected].mod)} else {};
    FewAreNewest(arts, keep);
    forall a | a in left ensures a in newest + one { LeftIsNew(files, broken, hidden, stuck, kind, now, maxAge, keep, protected, a); }
    MoreIsMore(left, newest + one);
    assert |newest + one| <= |newest| + |one|;
  }

  lemma LeftIsNew(files: Files, broken: bool, hidden: set<string>, stuck: set<string>,
                  kind: Kind, now: int, maxAge: int, keep: nat, protected: string, a: Entry)
    requires a in Artifacts(Shown(After(files, broken, hidden, stuck, kind, now, maxAge, keep, protected), broken, hidden), kind)
    requires a.name !in stuck
    ensures a in Artifacts(Shown(files, broken, hidden), kind)
    ensures |Newer(Artifacts(Shown(files, broken, hidden), kind), a)| < keep || a.name == protected
  {
    var seen := Shown(files, broken, hidden);
    assert a in Artifacts(seen, kind) && a.name !in Takes(seen, kind, now, maxAge, keep, protected);
  }

  /** Only eyedbg's own regular files go, never the protected one. */
  lemma TakesOwnOnly(files: Files, kind: Kind, now: int, maxAge: int, keep: nat, protected: string, n: string)
    requires n in Takes(files, kind, now, maxAge, keep, protected)
    ensures n in files && files[n].regular && n != protected && (IsName(kind, n) || IsScratch(kind, n))
  {}

  /** Pruning what a prune left takes only what the file system would not remove:
      a second prune at the same time changes nothing. */
  lemma SecondTakesNothing(files: Files, broken: bool, hidden: set<string>, stuck: set<string>,
                           kind: Kind, now: int, maxAge: int, keep: nat, protected: string)
    ensures var after := After(files, broken, hidden, stuck, kind, now, maxAge, keep, protected);
      && Takes(Shown(after, broken, hidden), kind, now, maxAge, keep, protected) <= stuck
      && After(after, broken, hidden, stuck, kind, now, maxAge, keep, protected) == after
  {
    var seen := Shown(files, broken, hidden);
    var after := After(files, broken, hidden, stuck, kind, now, maxAge, keep, protected);
    var again := Shown(after, broken, hidden);
    var takes := Takes(seen, kind, now, maxAge, keep, protected);
    var arts, arts' := Artifacts(seen, kind), Artifacts(again, kind);
    forall a | a in arts' && Doomed(arts', a, now, maxAge, keep, protected) ensures a.name in stuck {
      assert a in arts && arts' <= arts;
      assert Newer(arts', a) <= Newer(arts, a);
      MoreIsMore(Newer(arts', a), Newer(arts, a));
      assert Doomed(arts, a, now, maxAge, keep, protected) && a.name in takes;
    }
    forall a | a in Scratch(again, kind) && ScratchDoomed(a, now, protected) ensures a.name in stuck {
      assert a in Scratch(seen, kind) && a.name in takes;
    }
  }

  // ------------------------------------------------------------------- prune

  function SetOf<T>(s: seq<T>): set<T> { set x | x in s }

  lemma {:induction false} DistinctSize<T>(s: seq<T>)
    requires forall i, j | 0 <= i < j < |s| :: s[i] != s[j]
    ensures |SetOf(s)| == |s|
  {
    if s != [] {
      var n := |s| - 1;
      DistinctSize(s[..n]);
      assert SetOf(s) == SetOf(s[..n]) + {s[n]};
    }
  }

  /** Sorted newest first, an artifact's place is how many are newer. */
  lemma PlaceIsRank(s: seq<Entry>, i: nat)
    requires i < |s| && Sorted(s, Before) && forall i, j | 0 <= i < j < |s| :: s[i] != s[j]
    ensures |Newer(SetOf(s), s[i])| == i
  {
    var first := s[..i];
    DistinctSize(first);
    forall b | b in SetOf(s) ensures b in Newer(SetOf(s), s[i]) <==> b in SetOf(first) {
      var j :| 0 <= j < |s| && s[j] == b;
      StrLeTotal(b.name, s[i].name);
      if j < i { assert first[j] == b; }
      if b in first {
        var k :| 0 <= k < i && first[k] == b;
        assert s[k] == b && Before(s[k], s[i]);
      }
    }
    assert Newer(SetOf(s), s[i]) == SetOf(first);
  }

  /** A directory, and what is in the way: whether it can't be read, the names
      that can't be looked at, and those that can't be removed. Runs change the
      files only. */
  class Dir {
    var files: Files
    var broken: bool
    var hidden: set<string>
    var stuck: set<string>

    /** Removes a file; it stays when that fails. */
    method Remove(name: string) returns (ok: bool)
      modifies this`files
      ensures ok <==> name !in stuck
      ensures files == if ok then old(files) - {name} else old(files)
    {
      ok := name !in stuck;
      if ok { files := files - {name}; }
    }

    /** Reads the names in the directory, in any order. */
    method ReadDir() returns (ok: bool, names: seq<string>)
      ensures ok <==> !broken
      ensures ok ==> SetOf(names) == files.Keys && Unique(names)
    {
      ok, names := !broken, [];
      if !ok { return; }
      var left := files.Keys;
      while left != {}
        invariant left <= files.Keys && Unique(names)
        invariant forall n :: n in names <==> n in files && n !in left
        decreases left
      {
        var n :| n in left;
        names := names + [n];
        left := left - {n};
      }
    }

    method Lstat(name: string) returns (info: Option<File>)
      ensures info == if name in files && name !in hidden then Some(files[name]) else None
    {
      info := if name in files && name !in hidden then Some(files[name]) else None;
    }

    /** Lists the artifacts and scratch files that can be looked at. */
    method List(kind: Kind) returns (artifacts: seq<Entry>, scratch: seq<Entry>)
      ensures SetOf(artifacts) == Artifacts(Shown(files, broken, hidden), kind)
      ensures SetOf(scratch) == Scratch(Shown(files, broken, hidden), kind)
      ensures UniqueNames(artifacts) && UniqueNames(scratch)
    {
      artifacts, scratch := [], [];
      var ok, names := ReadDir();
      if !ok { return; }
      ghost var seen := files - hidden;
      for i := 0 to |names|
        invariant Listed(seen, kind, names, i, artifacts, scratch)
      {
        ghost var was, also := artifacts, scratch;
        assert names[i] in SetOf(names);
        var info := Lstat(names[i]);
        if info.Some? && info.value.regular {
          if IsName(kind, names[i]) {
            artifacts := artifacts + [Entry(names[i], info.value.mod)];
          } else if IsScratch(kind, names[i]) {
            scratch := scratch + [Entry(names[i], info.value.mod)];
          }
        }
        ListedOne(seen, kind, names, i, was, also, artifacts, scratch);
      }
      ListedAll(seen, kind, names, artifacts, scratch);
    }

    /** Removes kind's artifacts that are too old, then the oldest beyond the newest
        keep, and scratch files left behind. */
    method Prune(kind: Kind, now: int, maxAge: int, keep: nat, protected: string) returns (removed: seq<string>)
      modifies this`files
      ensures files == After(old(files), broken, hidden, stuck, kind, now, maxAge, keep, protected)
      ensures SetOf(removed) == Takes(Shown(old(files), broken, hidden), kind, now, maxAge, keep, protected) - stuck
      ensures Unique(removed)
    {
      var artifacts, scratch := List(kind);
      ghost var seen := Shown(files, broken, hidden);
      ghost var arts := Artifacts(seen, kind);
      var sorted := SortNewest(artifacts);
      removed := RemoveArtifacts(sorted, arts, now, maxAge, keep, protected);
      var more := RemoveScratch(scratch, now, protected);
      TakesBoth(seen, kind, sorted, scratch, now, maxAge, keep, protected);
      JoinUnique(removed, more);
      CutBoth(old(files), SetOf(removed), SetOf(more));
      removed := removed + more;
    }

    method RemoveArtifacts(sorted: seq<Entry>, ghost arts: set<Entry>, now: int, maxAge: int, keep: nat, protected: string)
      returns (removed: seq<string>)
      requires Sorted(sorted, Before) && SetOf(sorted) == arts && UniqueNames(sorted)
      modifies this`files
      ensures files == old(files) - SetOf(removed) && Unique(removed)
      ensures SetOf(removed) == Names(sorted, arts, now, maxAge, keep, protected) - stuck
    {
      removed := [];
      for i := 0 to |sorted|
        invariant files == old(files) - SetOf(removed) && Unique(removed)
        invariant SetOf(removed) == Names(sorted[..i], arts, now, maxAge, keep, protected) - stuck
      {
        NextNames(sorted, i, arts, now, maxAge, keep, protected);
        var a := sorted[i];
        if a.name != protected && (i >= keep || now - a.mod > maxAge) {
          NotYetNamed(sorted, i, arts, now, maxAge, keep, protected);
          assert a.name !in SetOf(removed);
          var ok := Remove(a.name);
          SetMore(removed, a.name);
          CutMore(old(files), SetOf(removed), a.name);
          if ok { removed := removed + [a.name]; }
        }
      }
      assert sorted[..|sorted|] == sorted;
    }

    method RemoveScratch(scratch: seq<Entry>, now: int, protected: string) returns (removed: seq<string>)
      requires UniqueNames(scratch)
      modifies this`files
      ensures files == old(files) - SetOf(removed) && Unique(removed)
      ensures SetOf(removed) == ScratchNames(scratch, now, protected) - stuck
    {
      removed := [];
      for i := 0 to |scratch|
        invariant files == old(files) - SetOf(removed) && Unique(removed)
        invariant SetOf(removed) == ScratchNames(scratch[..i], now, protected) - stuck
      {
        ScratchMore(scratch, i, now, protected);
        var a := scratch[i];
        if a.name != protected && now - a.mod > SCRATCH_MAX_AGE {
          assert a.name !in SetOf(removed);
          var ok := Remove(a.name);
          SetMore(removed, a.name);
          CutMore(old(files), SetOf(removed), a.name);
          if ok { removed := removed + [a.name]; }
        }
      }
      assert scratch[..|scratch|] == scratch;
    }
  }

  predicate Unique<T(==)>(s: seq<T>) { forall i, j | 0 <= i < j < |s| :: s[i] != s[j] }

  predicate UniqueNames(s: seq<Entry>) { forall i, j | 0 <= i < j < |s| :: s[i].name != s[j].name }

  /** The entries of these names are listed. */
  ghost predicate Lists(entries: set<Entry>, names: seq<string>, list: seq<Entry>) {
    UniqueNames(list) && forall a :: a in list <==> a in entries && a.name in names
  }

  /** The entries of the first i names are listed. */
  ghost predicate Listed(seen: Files, kind: Kind, names: seq<string>, i: nat, artifacts: seq<Entry>, scratch: seq<Entry>) {
    && i <= |names| && Unique(names)
    && Lists(Artifacts(seen, kind), names[..i], artifacts) && Lists(Scratch(seen, kind), names[..i], scratch)
  }

  lemma ListsOne(entries: set<Entry>, names: seq<string>, n: string, was: seq<Entry>, e: Option<Entry>)
    requires Lists(entries, names, was) && n !in names
    requires forall a :: a in entries && a.name == n <==> e == Some(a)
    ensures Lists(entries, names + [n], if e.Some? then was + [e.value] else was)
  {
    assert forall k | 0 <= k < |was| :: was[k] in was && was[k].name in names;
    var list := if e.Some? then was + [e.value] else was;
    forall a ensures a in list <==> a in entries && a.name in names + [n] {
      assert a in list <==> a in was || e == Some(a);
    }
  }

  lemma ListedOne(seen: Files, kind: Kind, names: seq<string>, i: nat, was: seq<Entry>, also: seq<Entry>, artifacts: seq<Entry>, scratch: seq<Entry>)
    requires i < |names| && Listed(seen, kind, names, i, was, also)
    requires var n := names[i];
      && artifacts == (if n in seen && seen[n].regular && IsName(kind, n) then was + [Entry(n, seen[n].mod)] else was)
      && scratch == (if n in seen && seen[n].regular && !IsName(kind, n) && IsScratch(kind, n) then also + [Entry(n, seen[n].mod)] else also)
    ensures Listed(seen, kind, names, i + 1, artifacts, scratch)
  {
    var n := names[i];
    assert names[..i + 1] == names[..i] + [n] && n !in names[..i];
    ListsOne(Artifacts(seen, kind), names[..i], n, was,
             if n in seen && seen[n].regular && IsName(kind, n) then Some(Entry(n, seen[n].mod)) else None);
    ListsOne(Scratch(seen, kind), names[..i], n, also,
             if n in seen && seen[n].regular && !IsName(kind, n) && IsScratch(kind, n) then Some(Entry(n, seen[n].mod)) else None);
  }

  lemma ListedAll(seen: Files, kind: Kind, names: seq<string>, artifacts: seq<Entry>, scratch: seq<Entry>)
    requires Listed(seen, kind, names, |names|, artifacts, scratch) && seen.Keys <= SetOf(names)
    ensures SetOf(artifacts) == Artifacts(seen, kind) && SetOf(scratch) == Scratch(seen, kind)
  {
    assert names[..|names|] == names;
    forall a ensures a in SetOf(artifacts) <==> a in Artifacts(seen, kind) {
      assert a in Artifacts(seen, kind) ==> a.name in SetOf(names);
    }
    forall a ensures a in SetOf(scratch) <==> a in Scratch(seen, kind) {
      assert a in Scratch(seen, kind) ==> a.name in SetOf(names);
    }
  }

  /** Artifacts and scratch files have different names. */
  lemma TakesBoth(seen: Files, kind: Kind, sorted: seq<Entry>, scratch: seq<Entry>, now: int, maxAge: int, keep: nat, protected: string)
    requires SetOf(sorted) == Artifacts(seen, kind) && SetOf(scratch) == Scratch(seen, kind)
    ensures var names, also := Names(sorted, Artifacts(seen, kind), now, maxAge, keep, protected), ScratchNames(scratch, now, protected);
      names + also == Takes(seen, kind, now, maxAge, keep, protected) && names !! also
  {
    assert forall a :: a in sorted <==> a in SetOf(sorted);
    assert forall a :: a in scratch <==> a in SetOf(scratch);
  }

  lemma JoinUnique<T>(a: seq<T>, b: seq<T>)
    requires Unique(a) && Unique(b) && SetOf(a) !! SetOf(b)
    ensures Unique(a + b) && SetOf(a + b) == SetOf(a) + SetOf(b)
  {
    assert forall i | 0 <= i < |a| :: a[i] in SetOf(a);
    assert forall i | 0 <= i < |b| :: b[i] in SetOf(b);
  }

  lemma CutBoth(files: Files, a: set<string>, b: set<string>)
    ensures (files - a) - b == files - (a + b)
  {}

  lemma NotYetNamed(s: seq<Entry>, i: nat, arts: set<Entry>, now: int, maxAge: int, keep: nat, protected: string)
    requires i < |s| && UniqueNames(s)
    ensures s[i].name !in Names(s[..i], arts, now, maxAge, keep, protected)
  {
    forall a | a in s[..i] ensures a.name != s[i].name { var k :| 0 <= k < i && s[..i][k] == a; }
  }

  lemma CutMore(files: Files, gone: set<string>, n: string)
    ensures (files - gone) - {n} == files - (gone + {n})
  {}

  lemma NextNames(sorted: seq<Entry>, i: nat, arts: set<Entry>, now: int, maxAge: int, keep: nat, protected: string)
    requires Sorted(sorted, Before) && SetOf(sorted) == arts && forall i, j | 0 <= i < j < |sorted| :: sorted[i] != sorted[j]
    requires i < |sorted|
    ensures Names(sorted[..i + 1], arts, now, maxAge, keep, protected)
            == Names(sorted[..i], arts, now, maxAge, keep, protected)
               + if sorted[i].name != protected && (i >= keep || now - sorted[i].mod > maxAge) then {sorted[i].name} else {}
  {
    PlaceIsRank(sorted, i);
    NamesMore(sorted, i, arts, now, maxAge, keep, protected);
  }

  lemma SetMore<T>(s: seq<T>, x: T)
    ensures SetOf(s + [x]) == SetOf(s) + {x}
  {}

  method SortNewest(s: seq<Entry>) returns (r: seq<Entry>)
    requires UniqueNames(s)
    ensures Sorted(r, Before) && SetOf(r) == SetOf(s) && UniqueNames(r)
  {
    r := Sort(s, Before);
    BeforeIsOrder();
    SortSorts(s, Before);
    forall x ensures x in r <==> x in s { assert x in multiset(r) <==> x in multiset(s); }
    assert SetOf(r) == SetOf(s);
    DistinctSize(s);
    assert |r| == |multiset(r)| == |multiset(s)| == |s|;
    SizeDistinct(r);
    forall i, j | 0 <= i < j < |r| ensures r[i].name != r[j].name {
      assert r[i] in SetOf(r) && r[j] in SetOf(r);
      var k :| 0 <= k < |s| && s[k] == r[i];
      var l :| 0 <= l < |s| && s[l] == r[j];
      assert k < l || l < k;
    }
  }

  lemma {:induction false} SizeDistinct<T>(s: seq<T>)
    requires |SetOf(s)| == |s|
    ensures forall i, j | 0 <= i < j < |s| :: s[i] != s[j]
  {
    if s != [] {
      var n := |s| - 1;
      assert SetOf(s) == SetOf(s[..n]) + {s[n]};
      SetSize(s[..n]);
      SizeDistinct(s[..n]);
      assert s[n] !in s[..n];
    }
  }

  lemma {:induction false} SetSize<T>(s: seq<T>)
    ensures |SetOf(s)| <= |s|
  {
    if s != [] {
      var n := |s| - 1;
      SetSize(s[..n]);
      assert SetOf(s) == SetOf(s[..n]) + {s[n]};
    }
  }

  ghost function Names(s: seq<Entry>, arts: set<Entry>, now: int, maxAge: int, keep: nat, protected: string): set<string> {
    set a | a in s && Doomed(arts, a, now, maxAge, keep, protected) :: a.name
  }

  ghost function ScratchNames(s: seq<Entry>, now: int, protected: string): set<string> {
    set a | a in s && ScratchDoomed(a, now, protected) :: a.name
  }

  lemma NamesMore(s: seq<Entry>, i: nat, arts: set<Entry>, now: int, maxAge: int, keep: nat, protected: string)
    requires i < |s|
    ensures Names(s[..i + 1], arts, now, maxAge, keep, protected)
            == Names(s[..i], arts, now, maxAge, keep, protected) + if Doomed(arts, s[i], now, maxAge, keep, protected) then {s[i].name} else {}
  {
    assert s[..i + 1] == s[..i] + [s[i]];
  }

  lemma ScratchMore(s: seq<Entry>, i: nat, now: int, protected: string)
    requires i < |s|
    ensures ScratchNames(s[..i + 1], now, protected)
            == ScratchNames(s[..i], now, protected) + if ScratchDoomed(s[i], now, protected) then {s[i].name} else {}
  {
    assert s[..i + 1] == s[..i] + [s[i]];
  }
}