/** Loading adapter manifests (internal/adapters/registry.go): which are taken,
    which are reported, and which a user's own replace. */
module Registry {
  import opened Wrappers
  import opened Sorting

  /** A parsed manifest; lang is "" when it serves no language. */
  datatype Manifest = Manifest(id: nat, name: string, lang: string, builtin: bool, path: string)

  /** Why a manifest was left out. */
  datatype Reason = NoDriver | HasDriver | SameName | SameLanguage

  datatype Problem = Problem(path: string, reason: Reason)

  /** A loaded manifest, and the bundled ones it replaces. */
  datatype Loaded = Loaded(m: Manifest, replaced: seq<Manifest>)

  function ManifestPath(m: Manifest): string { if m.path != "" then m.path else "bundled:" + m.name + ".json" }

  // ------------------------------------------------------------------ filters

  function Filter<T(!new)>(s: seq<T>, keep: T -> bool): (r: seq<T>)
    ensures forall x :: x in r <==> x in s && keep(x)
  {
    if s == [] then []
    else Filter(s[..|s| - 1], keep) + if keep(s[|s| - 1]) then [s[|s| - 1]] else []
  }

  lemma {:induction false} FilterCounts<T(!new)>(s: seq<T>, keep: T -> bool, x: T)
    ensures multiset(Filter(s, keep))[x] == if keep(x) then multiset(s)[x] else 0
  {
    if s != [] {
      var n := |s| - 1;
      FilterCounts(s[..n], keep, x);
      assert s == s[..n] + [s[n]];
    }
  }

  lemma FilterSplits<T(!new)>(s: seq<T>, keep: T -> bool, drop: T -> bool)
    requires forall x | x in s :: drop(x) == !keep(x)
    ensures multiset(Filter(s, keep)) + multiset(Filter(s, drop)) == multiset(s)
  {
    forall x ensures (multiset(Filter(s, keep)) + multiset(Filter(s, drop)))[x] == multiset(s)[x] {
      FilterCounts(s, keep, x);
      FilterCounts(s, drop, x);
      assert x in s <==> multiset(s)[x] > 0;
    }
  }

  /** No two share a name or a language. */
  ghost predicate Apart(a: Manifest, b: Manifest) { a.name != b.name && (a.lang == "" || a.lang != b.lang) }

  ghost predicate Distinct(ms: seq<Manifest>) { forall i, j | 0 <= i < j < |ms| :: Apart(ms[i], ms[j]) }

  lemma {:induction false} FilterDistinct(ms: seq<Manifest>, keep: Manifest -> bool)
    requires Distinct(ms)
    ensures Distinct(Filter(ms, keep))
  {
    if ms != [] {
      var n := |ms| - 1;
      FilterDistinct(ms[..n], keep);
      forall m | m in Filter(ms[..n], keep) ensures Apart(m, ms[n]) {
        var i :| 0 <= i < n && ms[..n][i] == m;
      }
    }
  }

  // ----------------------------------------------------------------- misfits

  /** A builtin manifest needs a Go driver of its language, and only it may name a
      Go driver's language. */
  function Misfit(m: Manifest, drivers: set<string>): Option<Reason> {
    if m.builtin && m.lang !in drivers then Some(NoDriver)
    else if m.lang != "" && !m.builtin && m.lang in drivers then Some(HasDriver)
    else None
  }

  /** How many of the manifests have the name, or serve the language. */
  function Named(ms: seq<Manifest>, name: string): nat {
    if ms == [] then 0 else Named(ms[..|ms| - 1], name) + if ms[|ms| - 1].name == name then 1 else 0
  }

  function Serving(ms: seq<Manifest>, lang: string): nat {
    if ms == [] then 0 else Serving(ms[..|ms| - 1], lang) + if ms[|ms| - 1].lang == lang then 1 else 0
  }

  function Conflict(ms: seq<Manifest>, m: Manifest): Option<Reason> {
    if Named(ms, m.name) > 1 then Some(SameName)
    else if m.lang != "" && Serving(ms, m.lang) > 1 then Some(SameLanguage)
    else None
  }

  lemma {:induction false} TwiceNamed(ms: seq<Manifest>, i: nat, j: nat, name: string)
    requires i < j < |ms| && ms[i].name == name && ms[j].name == name
    ensures Named(ms, name) > 1
    decreases |ms|
  {
    var n := |ms| - 1;
    if j < n { TwiceNamed(ms[..n], i, j, name); } else { OnceNamed(ms[..n], i, name); }
  }

  lemma {:induction false} OnceNamed(ms: seq<Manifest>, i: nat, name: string)
    requires i < |ms| && ms[i].name == name
    ensures Named(ms, name) > 0
    decreases |ms|
  {
    var n := |ms| - 1;
    if i < n { OnceNamed(ms[..n], i, name); }
  }

  lemma {:induction false} TwiceServing(ms: seq<Manifest>, i: nat, j: nat, lang: string)
    requires i < j < |ms| && ms[i].lang == lang && ms[j].lang == lang
    ensures Serving(ms, lang) > 1
    decreases |ms|
  {
    var n := |ms| - 1;
    if j < n { TwiceServing(ms[..n], i, j, lang); } else { OnceServing(ms[..n], i, lang); }
  }

  lemma {:induction false} OnceServing(ms: seq<Manifest>, i: nat, lang: string)
    requires i < |ms| && ms[i].lang == lang
    ensures Serving(ms, lang) > 0
    decreases |ms|
  {
    var n := |ms| - 1;
    if i < n { OnceServing(ms[..n], i, lang); }
  }

  /** Where the elements of a filtered list come from, in order. */
  lemma {:induction false} FilterFrom<T(!new)>(s: seq<T>, keep: T -> bool, a: nat, b: nat) returns (i: nat, j: nat)
    requires a < b < |Filter(s, keep)|
    ensures i < j < |s| && s[i] == Filter(s, keep)[a] && s[j] == Filter(s, keep)[b]
    decreases |s|
  {
    var n := |s| - 1;
    var before := Filter(s[..n], keep);
    if b < |before| {
      i, j := FilterFrom(s[..n], keep, a, b);
    } else {
      assert before[a] in before;
      i :| 0 <= i < n && s[..n][i] == before[a];
      j := n;
    }
  }

  /** What is left after the conflicts are dropped has none. */
  lemma ConflictsGone(ms: seq<Manifest>)
    ensures Distinct(Filter(ms, Taken(Clashes(ms))))
  {
    var taken := Taken(Clashes(ms));
    var kept := Filter(ms, taken);
    forall a, b | 0 <= a < b < |kept| ensures Apart(kept[a], kept[b]) {
      var i, j := FilterFrom(ms, taken, a, b);
      assert kept[a] in kept && Conflict(ms, kept[a]) == None;
      if kept[a].name == kept[b].name { TwiceNamed(ms, i, j, kept[a].name); }
      if kept[a].lang != "" && kept[a].lang == kept[b].lang { TwiceServing(ms, i, j, kept[a].lang); }
    }
  }

  // ---------------------------------------------------------------- registry

  function Taken(why: Manifest -> Option<Reason>): Manifest -> bool { m => why(m) == None }

  function Left(why: Manifest -> Option<Reason>): Manifest -> bool { m => why(m) != None }

  /** A problem was added for each manifest left out, saying where it came from
      and why. */
  ghost predicate Adds(before: seq<Problem>, dropped: seq<Manifest>, why: Manifest -> Option<Reason>, problems: seq<Problem>) {
    && |problems| == |before| + |dropped| && before <= problems
    && forall i | 0 <= i < |dropped| :: Some(problems[|before| + i].reason) == why(dropped[i]) && problems[|before| + i].path == ManifestPath(dropped[i])
  }

  predicate Supersedes(u: Manifest, b: Manifest) { b.name == u.name || (b.lang != "" && b.lang == u.lang) }

  function ManifestsOf(ls: seq<Loaded>): seq<Manifest> { seq(|ls|, i requires 0 <= i < |ls| => ls[i].m) }

  /** All that was replaced, one after the other. */
  function Gone(ls: seq<Loaded>): seq<Manifest> {
    if ls == [] then [] else Gone(ls[..|ls| - 1]) + ls[|ls| - 1].replaced
  }

  /** Every parsed manifest is in exactly one place: loaded, reported, or replaced
      by one user's. */
  ghost predicate InOneOf(bundledRead: seq<Manifest>, userRead: seq<Manifest>, adapters: seq<Loaded>, dropped: seq<Manifest>) {
    multiset(bundledRead) + multiset(userRead) == multiset(ManifestsOf(adapters)) + multiset(dropped) + multiset(Gone(adapters))
  }

  function UnfitFor(drivers: set<string>): Manifest -> Option<Reason> { m => Misfit(m, drivers) }

  function Clashes(ms: seq<Manifest>): Manifest -> Option<Reason> { m => Conflict(ms, m) }

  /** The manifests whose language fits the Go drivers. */
  function FitOnes(ms: seq<Manifest>, drivers: set<string>): seq<Manifest> { Filter(ms, Taken(UnfitFor(drivers))) }

  /** Of the users' manifests that fit, those that share no name or language. */
  function UserKept(userRead: seq<Manifest>, drivers: set<string>): seq<Manifest> {
    Filter(FitOnes(userRead, drivers), Taken(Clashes(FitOnes(userRead, drivers))))
  }

  predicate IsSuperseded(u: seq<Manifest>, b: Manifest) { exists x | x in u :: Supersedes(x, b) }

  function NotBy(u: seq<Manifest>): Manifest -> bool { b => !IsSuperseded(u, b) }

  /** Of the bundled manifests that fit, those no kept user manifest replaces. */
  function BundledKept(bundledRead: seq<Manifest>, userRead: seq<Manifest>, drivers: set<string>): seq<Manifest> {
    Filter(FitOnes(bundledRead, drivers), NotBy(UserKept(userRead, drivers)))
  }

  /** At most one manifest a name and a language. */
  ghost predicate DistinctAmong(ms: multiset<Manifest>) {
    (forall x | x in ms :: ms[x] == 1) && forall x, y | x in ms && y in ms && x != y :: Apart(x, y)
  }

  predicate ByName(a: Loaded, b: Loaded) { StrLe(a.m.name, b.m.name) }

  /** The loaded manifests, and the problems of the others. */
  class Registry {
    var adapters: seq<Loaded>
    var problems: seq<Problem>

    constructor ()
      ensures adapters == [] && problems == []
    {
      adapters, problems := [], [];
    }

    /** Drops the manifests there is a reason to leave out, and reports them. */
    method Leave(ms: seq<Manifest>, why: Manifest -> Option<Reason>) returns (kept: seq<Manifest>, ghost dropped: seq<Manifest>)
      modifies this`problems
      ensures kept == Filter(ms, Taken(why)) && dropped == Filter(ms, Left(why))
      ensures multiset(kept) + multiset(dropped) == multiset(ms)
      ensures Adds(old(problems), dropped, why, problems)
    {
      kept, dropped := [], [];
      for i := 0 to |ms|
        invariant kept == Filter(ms[..i], Taken(why)) && dropped == Filter(ms[..i], Left(why))
        invariant Adds(old(problems), dropped, why, problems)
      {
        assert ms[..i + 1][..i] == ms[..i];
        var reason := why(ms[i]);
        if reason.Some? {
          problems := problems + [Problem(ManifestPath(ms[i]), reason.value)];
          dropped := dropped + [ms[i]];
        } else {
          kept := kept + [ms[i]];
        }
      }
      assert ms[..|ms|] == ms;
      FilterSplits(ms, Taken(why), Left(why));
    }

    /** Keeps the manifests whose language fits the Go drivers. */
    method Admit(ms: seq<Manifest>, drivers: set<string>) returns (kept: seq<Manifest>, ghost dropped: seq<Manifest>)
      modifies this`problems
      ensures multiset(kept) + multiset(dropped) == multiset(ms) && kept == FitOnes(ms, drivers)
      ensures forall m | m in kept :: Misfit(m, drivers) == None
      ensures Distinct(ms) ==> Distinct(kept)
      ensures Adds(old(problems), dropped, UnfitFor(drivers), problems)
    {
      kept, dropped := Leave(ms, UnfitFor(drivers));
      if Distinct(ms) { FilterDistinct(ms, Taken(UnfitFor(drivers))); }
    }

    /** Leaves out every user manifest that shares its name or language with
        another one. */
    method DropConflicts(ms: seq<Manifest>) returns (kept: seq<Manifest>, ghost dropped: seq<Manifest>)
      modifies this`problems
      ensures multiset(kept) + multiset(dropped) == multiset(ms) && Distinct(kept)
      ensures forall m | m in kept :: Conflict(ms, m) == None
      ensures kept == Filter(ms, Taken(Clashes(ms)))
      ensures Adds(old(problems), dropped, Clashes(ms), problems)
    {
      var names, langs := Count(ms);
      kept, dropped := Leave(ms, m => ConflictBy(names, langs, m));
      SameConflicts(ms, names, langs);
      ConflictsGone(ms);
    }

    /** Takes the parsed manifests: a user's replaces the bundled one of the same
        name or language. What is loaded has one manifest a name and a language
        exactly when the bundled ones that stay have. */
    method Load(bundledRead: seq<Manifest>, userRead: seq<Manifest>, drivers: set<string>) returns (ghost dropped: seq<Manifest>)
      requires adapters == [] && problems == []
      modifies this
      ensures InOneOf(bundledRead, userRead, adapters, dropped) && AllReported(dropped, problems)
      ensures multiset(ManifestsOf(adapters)) ==
              multiset(BundledKept(bundledRead, userRead, drivers)) + multiset(UserKept(userRead, drivers))
      ensures forall l | l in adapters :: Replaces(l)
      ensures AtMostOne(adapters) <==> DistinctAmong(multiset(BundledKept(bundledRead, userRead, drivers)))
      ensures Distinct(bundledRead) ==> AtMostOne(adapters)
      ensures Sorted(adapters, ByName)
    {
      var b, u;
      ghost var lost, unfit, clash;
      b, lost := Admit(bundledRead, drivers);
      ghost var p1 := problems;
      u, unfit := Admit(userRead, drivers);
      ghost var fit, p2 := u, problems;
      u, clash := DropConflicts(u);
      dropped := lost + unfit + clash;
      ReportedThree(lost, UnfitFor(drivers), p1, unfit, UnfitFor(drivers), p2, clash, Clashes(fit), problems);
      ghost var admitted := b;
      var loaded;
      b, loaded := Supersede(b, u);
      adapters := Sort(Bare(b) + loaded, ByName);
      InOrder(b, u, loaded);
      if Distinct(bundledRead) { DistinctIs(b); }
      Counted(bundledRead, userRead, admitted, lost, fit, unfit, u, clash, b, loaded, adapters);
    }

    /** The manifest of this name. */
    method Adapter(name: string) returns (r: Option<Loaded>)
      ensures r.Some? ==> r.value in adapters && r.value.m.name == name
      ensures r.None? ==> forall l | l in adapters :: l.m.name != name
    {
      for i := 0 to |adapters|
        invariant forall k | 0 <= k < i :: adapters[k].m.name != name
      {
        if adapters[i].m.name == name { return Some(adapters[i]); }
      }
      r := None;
    }

    /** The manifest serving this language. */
    method Language(lang: string) returns (r: Option<Loaded>)
      ensures r.Some? ==> lang != "" && r.value in adapters && r.value.m.lang == lang
      ensures r.None? ==> lang == "" || forall l | l in adapters :: l.m.lang != lang
    {
      for i := 0 to |adapters|
        invariant lang == "" || forall k | 0 <= k < i :: adapters[k].m.lang != lang
      {
        if lang != "" && adapters[i].m.lang == lang { return Some(adapters[i]); }
      }
      r := None;
    }

    /** The manifest named s, else the one serving language s. */
    method Resolve(s: string) returns (r: Option<Loaded>)
      ensures r.Some? ==> Resolves(adapters, s, r.value)
      ensures r.None? ==> forall l :: !Resolves(adapters, s, l)
    {
      r := Adapter(s);
      if r.None? { r := Language(s); }
    }
  }

  /** l has the name s or, when none has, serves the language s. */
  ghost predicate Resolves(adapters: seq<Loaded>, s: string, l: Loaded) {
    l in adapters && (l.m.name == s || (s != "" && l.m.lang == s && forall k | k in adapters :: k.m.name != s))
  }

  /** With at most one manifest a name and a language, a name or language resolves
      to one manifest only. */
  lemma ResolvesToOne(adapters: seq<Loaded>, s: string, a: Loaded, b: Loaded)
    requires AtMostOne(adapters) && Resolves(adapters, s, a) && Resolves(adapters, s, b)
    ensures a.m == b.m
  {
    var ms := ManifestsOf(adapters);
    var i :| 0 <= i < |adapters| && adapters[i] == a;
    var j :| 0 <= j < |adapters| && adapters[j] == b;
    assert ms[i] == a.m && ms[j] == b.m;
    assert a.m in multiset(ms) && b.m in multiset(ms);
    assert a.m != b.m ==> Apart(a.m, b.m);
  }

  /** The loaded manifests, sorted. */
  lemma InOrder(b: seq<Manifest>, u: seq<Manifest>, loaded: seq<Loaded>)
    requires ManifestsOf(loaded) == u && Distinct(u) && forall k, x | 0 <= k < |u| && x in b :: !Supersedes(u[k], x)
    requires forall l | l in loaded :: Replaces(l)
    ensures var sorted := Sort(Bare(b) + loaded, ByName);
      && Sorted(sorted, ByName) && (AtMostOne(sorted) <==> DistinctAmong(multiset(b)))
      && multiset(ManifestsOf(sorted)) == multiset(b) + multiset(u) && multiset(Gone(sorted)) == multiset(Gone(loaded))
      && forall l | l in sorted :: Replaces(l)
  {
    var all := Bare(b) + loaded;
    var sorted := Sort(all, ByName);
    KeyOrder((l: Loaded) => l.m.name, ByName);
    SortSorts(all, ByName);
    Permuted(all, sorted);
    LoadedParts(b, loaded);
    LoadedDistinct(b, u);
    forall l | l in sorted ensures Replaces(l) {
      assert l in multiset(sorted) && l in all;
    }
  }

  lemma Counted(bundledRead: seq<Manifest>, userRead: seq<Manifest>, admitted: seq<Manifest>, lost: seq<Manifest>, fit: seq<Manifest>,
                unfit: seq<Manifest>, u: seq<Manifest>, clash: seq<Manifest>, b: seq<Manifest>, loaded: seq<Loaded>, adapters: seq<Loaded>)
    requires multiset(admitted) + multiset(lost) == multiset(bundledRead) && multiset(fit) + multiset(unfit) == multiset(userRead)
    requires multiset(u) + multiset(clash) == multiset(fit) && multiset(b) + multiset(Gone(loaded)) == multiset(admitted)
    requires multiset(ManifestsOf(adapters)) == multiset(b) + multiset(u) && multiset(Gone(adapters)) == multiset(Gone(loaded))
    ensures InOneOf(bundledRead, userRead, adapters, lost + unfit + clash)
  {
    assert multiset(lost + unfit + clash) == multiset(lost) + multiset(unfit) + multiset(clash);
  }

  /** Each problem of a manifest that was left out is one of the problems. */
  ghost predicate AllReported(dropped: seq<Manifest>, problems: seq<Problem>) {
    |problems| == |dropped| && forall i | 0 <= i < |dropped| :: problems[i].path == ManifestPath(dropped[i])
  }

  lemma ReportedThree(a: seq<Manifest>, f: Manifest -> Option<Reason>, p1: seq<Problem>, b: seq<Manifest>, g: Manifest -> Option<Reason>,
                      p2: seq<Problem>, c: seq<Manifest>, h: Manifest -> Option<Reason>, p3: seq<Problem>)
    requires Adds([], a, f, p1) && Adds(p1, b, g, p2) && Adds(p2, c, h, p3)
    ensures AllReported(a + b + c, p3)
  {
    var all := a + b + c;
    forall i | 0 <= i < |all| ensures p3[i].path == ManifestPath(all[i]) {
      if i < |a| {
        assert p3[i] == p2[i] == p1[i] && p1[0 + i].path == ManifestPath(a[i]);
      } else if i < |a| + |b| {
        assert p3[i] == p2[i] && p2[|p1| + (i - |a|)].path == ManifestPath(b[i - |a|]);
      } else {
        assert p3[|p2| + (i - |a| - |b|)].path == ManifestPath(c[i - |a| - |b|]);
      }
    }
  }

  /** A user's manifest replaces only what it has the name or language of. */
  ghost predicate Replaces(l: Loaded) { forall i | 0 <= i < |l.replaced| :: Supersedes(l.m, l.replaced[i]) }

  ghost predicate AtMostOne(ls: seq<Loaded>) { DistinctAmong(multiset(ManifestsOf(ls))) }

  function Bare(ms: seq<Manifest>): seq<Loaded> { seq(|ms|, i requires 0 <= i < |ms| => Loaded(ms[i], [])) }

  /** Takes out of the bundled manifests what each user manifest replaces. */
  method Supersede(b: seq<Manifest>, u: seq<Manifest>) returns (rest: seq<Manifest>, loaded: seq<Loaded>)
    ensures ManifestsOf(loaded) == u
    ensures multiset(rest) + multiset(Gone(loaded)) == multiset(b)
    ensures forall k, x | 0 <= k < |u| && x in rest :: !Supersedes(u[k], x)
    ensures forall l | l in loaded :: Replaces(l)
    ensures Distinct(b) ==> Distinct(rest)
    ensures rest == Filter(b, NotBy(u))
  {
    rest, loaded := b, [];
    FilterAll(b, NotBy([]));
    for i := 0 to |u|
      invariant Superseded(b, u, i, rest, loaded)
    {
      ghost var before, was := rest, loaded;
      var gone;
      rest, gone := SupersedeOne(rest, u[i]);
      loaded := loaded + [Loaded(u[i], gone)];
      SupersedesNext(b, u, i, before, was, rest, gone);
    }
    SupersededAll(b, u, rest, loaded);
    NoneBy(b, u);
  }

  /** The first i user manifests took out what they replace. */
  ghost predicate Superseded(b: seq<Manifest>, u: seq<Manifest>, i: nat, rest: seq<Manifest>, loaded: seq<Loaded>) {
    && i <= |u| && |loaded| == i && (forall k | 0 <= k < i :: loaded[k].m == u[k])
    && multiset(rest) + multiset(Gone(loaded)) == multiset(b)
    && rest == Filter(b, NotBy(u[..i]))
    && forall l | l in loaded :: Replaces(l)
  }

  lemma SupersedesNext(b: seq<Manifest>, u: seq<Manifest>, i: nat, before: seq<Manifest>, was: seq<Loaded>, rest: seq<Manifest>, gone: seq<Manifest>)
    requires i < |u| && Superseded(b, u, i, before, was) && Replaces(Loaded(u[i], gone))
    requires rest == Filter(before, NotOf(u[i])) && multiset(rest) + multiset(gone) == multiset(before)
    ensures Superseded(b, u, i + 1, rest, was + [Loaded(u[i], gone)])
  {
    OneMoreUser(b, u, i);
    GoneMore(was, Loaded(u[i], gone));
  }

  lemma SupersededAll(b: seq<Manifest>, u: seq<Manifest>, rest: seq<Manifest>, loaded: seq<Loaded>)
    requires Superseded(b, u, |u|, rest, loaded)
    ensures ManifestsOf(loaded) == u && rest == Filter(b, NotBy(u))
  {
    assert u[..|u|] == u;
  }

  lemma NoneBy(b: seq<Manifest>, u: seq<Manifest>)
    ensures forall k, x | 0 <= k < |u| && x in Filter(b, NotBy(u)) :: !Supersedes(u[k], x)
    ensures Distinct(b) ==> Distinct(Filter(b, NotBy(u)))
  {
    forall k, x | 0 <= k < |u| && x in Filter(b, NotBy(u)) ensures !Supersedes(u[k], x) { assert u[k] in u; }
    if Distinct(b) { FilterDistinct(b, NotBy(u)); }
  }

  lemma {:induction false} FilterAll<T(!new)>(s: seq<T>, keep: T -> bool)
    requires forall x | x in s :: keep(x)
    ensures Filter(s, keep) == s
  {
    if s != [] {
      var t, x := s[..|s| - 1], s[|s| - 1];
      assert s == t + [x] && x in s;
      FilterAll(t, keep);
      FilterOneMore(t, x, keep);
    }
  }

  lemma FilterOneMore<T(!new)>(s: seq<T>, x: T, keep: T -> bool)
    ensures Filter(s + [x], keep) == Filter(s, keep) + if keep(x) then [x] else []
  {
    assert (s + [x])[..|s|] == s;
  }

  lemma {:induction false} FilterAgain<T(!new)>(s: seq<T>, p: T -> bool, q: T -> bool, both: T -> bool)
    requires forall x :: both(x) <==> p(x) && q(x)
    ensures Filter(Filter(s, p), q) == Filter(s, both)
  {
    if s != [] {
      var t, x := s[..|s| - 1], s[|s| - 1];
      assert s == t + [x];
      FilterAgain(t, p, q, both);
      FilterOneMore(t, x, p);
      FilterOneMore(t, x, both);
      var kept := Filter(t, p);
      assert Filter(s, p) == if p(x) then kept + [x] else kept;
      FilterOneMore(kept, x, q);
    }
  }

  lemma OneMoreUser(b: seq<Manifest>, u: seq<Manifest>, i: nat)
    requires i < |u|
    ensures Filter(Filter(b, NotBy(u[..i])), NotOf(u[i])) == Filter(b, NotBy(u[..i + 1]))
  {
    assert u[..i + 1] == u[..i] + [u[i]];
    forall m ensures NotBy(u[..i + 1])(m) <==> NotBy(u[..i])(m) && NotOf(u[i])(m) {
      if IsSuperseded(u[..i], m) {
        var x :| x in u[..i] && Supersedes(x, m);
        assert x in u[..i + 1];
      }
      if Supersedes(u[i], m) { assert u[i] in u[..i + 1]; }
    }
    FilterAgain(b, NotBy(u[..i]), NotOf(u[i]), NotBy(u[..i + 1]));
  }

  function NotOf(u: Manifest): Manifest -> bool { x => !Supersedes(u, x) }

  method SupersedeOne(b: seq<Manifest>, u: Manifest) returns (rest: seq<Manifest>, gone: seq<Manifest>)
    ensures multiset(rest) + multiset(gone) == multiset(b)
    ensures rest == Filter(b, NotOf(u)) && forall x | x in rest :: x in b && !Supersedes(u, x)
    ensures Replaces(Loaded(u, gone))
    ensures Distinct(b) ==> Distinct(rest)
  {
    rest, gone := Filter(b, NotOf(u)), Filter(b, x => Supersedes(u, x));
    FilterSplits(b, NotOf(u), x => Supersedes(u, x));
    if Distinct(b) { FilterDistinct(b, NotOf(u)); }
    forall i | 0 <= i < |gone| ensures Supersedes(u, gone[i]) { assert gone[i] in gone; }
  }

  lemma GoneMore(ls: seq<Loaded>, l: Loaded)
    ensures Gone(ls + [l]) == Gone(ls) + l.replaced
  {
    assert (ls + [l])[..|ls|] == ls;
  }

  lemma LastOf<T>(a: seq<T>, b: seq<T>)
    requires b != []
    ensures a + b == (a + b[..|b| - 1]) + [b[|b| - 1]]
  {}

  lemma Grouped<T>(a: seq<T>, b: seq<T>, c: seq<T>)
    ensures (a + b) + c == a + (b + c) && a + [] == a
  {}

  lemma {:induction false} GoneJoins(a: seq<Loaded>, b: seq<Loaded>)
    ensures Gone(a + b) == Gone(a) + Gone(b)
    decreases |b|
  {
    if b == [] {
      Grouped(a, [], []);
      Grouped(Gone(a), [], []);
    } else {
      var n := |b| - 1;
      GoneJoins(a, b[..n]);
      LastOf(a, b);
      GoneMore(a + b[..n], b[n]);
      Grouped(Gone(a), Gone(b[..n]), b[n].replaced);
    }
  }

  lemma {:induction false} BareGone(b: seq<Manifest>)
    ensures Gone(Bare(b)) == [] && ManifestsOf(Bare(b)) == b
  {
    if b != [] {
      var n := |b| - 1;
      BareGone(b[..n]);
      assert Bare(b) == Bare(b[..n]) + [Loaded(b[n], [])];
      GoneMore(Bare(b[..n]), Loaded(b[n], []));
    }
  }

  lemma LoadedParts(b: seq<Manifest>, loaded: seq<Loaded>)
    ensures ManifestsOf(Bare(b) + loaded) == b + ManifestsOf(loaded)
    ensures Gone(Bare(b) + loaded) == Gone(loaded)
    ensures forall l | l in Bare(b) :: Replaces(l)
  {
    BareGone(b);
    GoneJoins(Bare(b), loaded);
    ManifestsJoin(Bare(b), loaded);
  }

  lemma ManifestsJoin(a: seq<Loaded>, b: seq<Loaded>)
    ensures ManifestsOf(a + b) == ManifestsOf(a) + ManifestsOf(b)
  {}

  /** Sorting keeps what was loaded and replaced. */
  lemma {:induction false} Permuted(s: seq<Loaded>, t: seq<Loaded>)
    requires multiset(s) == multiset(t)
    ensures multiset(ManifestsOf(s)) == multiset(ManifestsOf(t)) && multiset(Gone(s)) == multiset(Gone(t))
    decreases |s|
  {
    assert |multiset(t)| == |t| && |multiset(s)| == |s|;
    if s != [] {
      var n := |s| - 1;
      var x := s[n];
      var j := PlaceOf(t, x, s);
      assert s == s[..n] + [x] && t == t[..j] + [x] + t[j + 1..];
      WithoutOne(s[..n], x, t[..j], t[j + 1..]);
      Permuted(s[..n], t[..j] + t[j + 1..]);
      Grouped(s[..n] + [x], [], []);
      Grouped(s[..n], [], []);
      TakeOneOut(s[..n], x, []);
      TakeOneOut(t[..j], x, t[j + 1..]);
    }
  }

  lemma PlaceOf(t: seq<Loaded>, x: Loaded, s: seq<Loaded>) returns (j: nat)
    requires x in s && multiset(s) == multiset(t)
    ensures j < |t| && t[j] == x
  {
    assert x in multiset(s) && x in multiset(t);
    j :| 0 <= j < |t| && t[j] == x;
  }

  lemma WithoutOne(s: seq<Loaded>, x: Loaded, a: seq<Loaded>, b: seq<Loaded>)
    requires multiset(s + [x]) == multiset(a + [x] + b)
    ensures multiset(s) == multiset(a + b)
  {
    assert multiset(s + [x]) == multiset(s) + multiset{x};
    assert multiset(a + [x] + b) == multiset(a) + multiset{x} + multiset(b);
    assert multiset(a + b) == multiset(a) + multiset(b);
    forall y ensures multiset(s)[y] == multiset(a + b)[y] {
      assert (multiset(s) + multiset{x})[y] == (multiset(a) + multiset{x} + multiset(b))[y];
    }
  }

  lemma TakeOneOut(a: seq<Loaded>, x: Loaded, b: seq<Loaded>)
    ensures multiset(ManifestsOf(a + [x] + b)) == multiset(ManifestsOf(a + b)) + multiset{x.m}
    ensures multiset(Gone(a + [x] + b)) == multiset(Gone(a + b)) + multiset(x.replaced)
  {
    assert ManifestsOf(a + [x] + b) == ManifestsOf(a) + [x.m] + ManifestsOf(b);
    assert ManifestsOf(a + b) == ManifestsOf(a) + ManifestsOf(b);
    GoneJoins(a + [x], b);
    GoneMore(a, x);
    GoneJoins(a, b);
  }

  lemma DistinctIs(ms: seq<Manifest>)
    ensures Distinct(ms) ==> DistinctAmong(multiset(ms))
  {
    if Distinct(ms) {
      forall x | x in multiset(ms) ensures multiset(ms)[x] == 1 {
        var i :| 0 <= i < |ms| && ms[i] == x;
        assert ms == ms[..i] + [x] + ms[i + 1..];
        assert x !in ms[..i] && x !in ms[i + 1..];
      }
      forall x, y | x in multiset(ms) && y in multiset(ms) && x != y ensures Apart(x, y) {
        var i :| 0 <= i < |ms| && ms[i] == x;
        var j :| 0 <= j < |ms| && ms[j] == y;
        assert i < j || j < i;
      }
    }
  }

  /** With the users' manifests distinct, all are when the bundled ones that stay
      are. */
  lemma LoadedDistinct(b: seq<Manifest>, u: seq<Manifest>)
    requires Distinct(u) && forall k, x | 0 <= k < |u| && x in b :: !Supersedes(u[k], x)
    ensures DistinctAmong(multiset(b + u)) <==> DistinctAmong(multiset(b))
  {
    DistinctIs(u);
    assert forall k | 0 <= k < |u| :: u[k] !in b;
    forall x | x in u ensures x !in b && multiset(b)[x] == 0 {
      var k :| 0 <= k < |u| && u[k] == x;
    }
    forall x ensures multiset(b + u)[x] == multiset(b)[x] + multiset(u)[x] {}
    forall k, y | 0 <= k < |u| && y in b ensures Apart(u[k], y) && Apart(y, u[k]) {}
    forall x, y | x in multiset(u) && y in multiset(b) ensures Apart(x, y) && Apart(y, x) {
      var k :| 0 <= k < |u| && u[k] == x;
      assert y in b;
    }
  }

  /** How often each name is used and each language served. */
  method Count(ms: seq<Manifest>) returns (names: map<string, nat>, langs: map<string, nat>)
    ensures Counts(ms, names, langs)
  {
    names, langs := map[], map[];
    for i := 0 to |ms|
      invariant Counts(ms[..i], names, langs)
    {
      var m := ms[i];
      assert ms[..i + 1][..i] == ms[..i];
      names := names[m.name := (if m.name in names then names[m.name] else 0) + 1];
      if m.lang != "" { langs := langs[m.lang := (if m.lang in langs then langs[m.lang] else 0) + 1]; }
    }
    assert ms[..|ms|] == ms;
  }

  ghost predicate Counts(ms: seq<Manifest>, names: map<string, nat>, langs: map<string, nat>) {
    && (forall n :: Named(ms, n) == if n in names then names[n] else 0)
    && (forall l | l != "" :: Serving(ms, l) == if l in langs then langs[l] else 0)
  }

  function ConflictBy(names: map<string, nat>, langs: map<string, nat>, m: Manifest): Option<Reason> {
    if m.name in names && names[m.name] > 1 then Some(SameName)
    else if m.lang != "" && m.lang in langs && langs[m.lang] > 1 then Some(SameLanguage)
    else None
  }

  lemma SameConflicts(ms: seq<Manifest>, names: map<string, nat>, langs: map<string, nat>)
    requires Counts(ms, names, langs)
    ensures forall m :: ConflictBy(names, langs, m) == Conflict(ms, m)
    ensures Filter(ms, Taken(m => ConflictBy(names, langs, m))) == Filter(ms, Taken(Clashes(ms)))
  {
    FilterSame(ms, Taken(m => ConflictBy(names, langs, m)), Taken(Clashes(ms)));
  }

  lemma {:induction false} FilterSame<T(!new)>(s: seq<T>, p: T -> bool, q: T -> bool)
    requires forall x | x in s :: p(x) == q(x)
    ensures Filter(s, p) == Filter(s, q)
  {
    if s != [] {
      forall x | x in s[..|s| - 1] ensures p(x) == q(x) { assert x in s; }
      FilterSame(s[..|s| - 1], p, q);
      assert s[|s| - 1] in s;
    }
  }
}
