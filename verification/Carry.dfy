/** What a service's old debug sessions leave for its new one, and which
    services launch together (internal/cli/compose_launch_carry.go). */
module Carry {
  import opened Wrappers
  import opened Text
  import opened Sorting
  import opened Grouping

  /** A breakpoint as asked for. */
  datatype Spec = Spec(file: string, line: int, anchor: string, fn: string,
                       condition: string, hitCondition: string, logMessage: string)

  /** A breakpoint as a session lists it. */
  datatype Breakpoint = Breakpoint(file: string, line: int, requestedLine: int, anchor: string, fn: string,
                                   condition: string, hitCondition: string, logMessage: string,
                                   temporary: bool, editor: bool)

  datatype Mode = Unset | NoExceptions | Uncaught | All

  datatype Carried = Carried(bps: seq<Spec>, mode: Mode, dropped: nat)

  /** What a session answers: its breakpoints, who asks, and each client's exception
      mode; None where that could not be read. */
  datatype Left = Left(list: Option<seq<Breakpoint>>, me: Option<string>, modes: Option<seq<(string, Mode)>>)

  function ModeRank(m: Mode): nat {
    match m
    case All => 2
    case Uncaught => 1
    case _ => 0
  }

  // -------------------------------------------------------------------- keys

  /** What identifies a breakpoint within a session. */
  function BpKey(s: Spec): string {
    if s.fn != "" then "func:" + s.fn
    else if s.line == 0 && s.anchor != "" then s.file + "@" + s.anchor
    else s.file + ":" + Decimal(s.line)
  }

  ghost predicate HasKey(bps: seq<Spec>, key: string) { exists s | s in bps :: BpKey(s) == key }

  ghost predicate DistinctKeys(bps: seq<Spec>) {
    forall i, j | 0 <= i < j < |bps| :: BpKey(bps[i]) != BpKey(bps[j])
  }

  /** The line was asked for, not where the adapter placed it. */
  function CarriedSpec(b: Breakpoint): Option<Spec> {
    var line := if b.requestedLine < 1 then b.line else b.requestedLine;
    if b.temporary || b.editor then None
    else if b.fn != "" then Some(Spec("", 0, "", b.fn, b.condition, "", ""))
    else if b.file == "" || line < 1 then None
    else Some(Spec(b.file, line, b.anchor, "", b.condition, b.hitCondition, b.logMessage))
  }

  // ----------------------------------------------------------------- capture

  method AddBreakpoint(c: Carried, spec: Spec) returns (r: Carried)
    requires DistinctKeys(c.bps)
    ensures DistinctKeys(r.bps) && r.mode == c.mode && r.dropped == c.dropped
    ensures r.bps == if HasKey(c.bps, BpKey(spec)) then c.bps else c.bps + [spec]
  {
    for i := 0 to |c.bps|
      invariant forall j | 0 <= j < i :: BpKey(c.bps[j]) != BpKey(spec)
    {
      if BpKey(c.bps[i]) == BpKey(spec) { return c; }
    }
    r := c.(bps := c.bps + [spec]);
  }

  function AddMode(c: Carried, m: Mode): (r: Carried)
    ensures ModeRank(r.mode) >= ModeRank(c.mode) && ModeRank(r.mode) >= ModeRank(m)
    ensures r.mode == c.mode || r.mode == m
  {
    if ModeRank(m) > ModeRank(c.mode) then c.(mode := m) else c
  }

  /** The keys of the breakpoints a session's list carries over. */
  ghost predicate Carries(list: seq<Breakpoint>, key: string) {
    exists b | b in list :: CarriedSpec(b).Some? && BpKey(CarriedSpec(b).value) == key
  }

  /** The breakpoint at i is the list's first of its key, of those carried. */
  ghost predicate FirstOfKey(list: seq<Breakpoint>, i: nat, s: Spec) {
    i < |list| && CarriedSpec(list[i]) == Some(s) && !Carries(list[..i], BpKey(s))
  }

  /** What is carried, with what one more session leaves: the first breakpoint of
      each key, and the mode that stops at the most. */
  ghost predicate Captures(c: Carried, left: Left, r: Carried) {
    && DistinctKeys(r.bps) && c.bps <= r.bps && r.dropped == c.dropped
    && (left.list.None? ==> r.bps == c.bps)
    && (left.list.Some? ==> forall k :: HasKey(r.bps, k) <==> HasKey(c.bps, k) || Carries(left.list.value, k))
    && (left.list.Some? ==> forall s | s in r.bps[|c.bps|..] :: exists i: nat :: FirstOfKey(left.list.value, i, s))
    && ModeRank(r.mode) >= ModeRank(c.mode)
    && (left.me.Some? && left.modes.Some? ==>
          forall m | m in left.modes.value && m.0 == left.me.value :: ModeRank(r.mode) >= ModeRank(m.1))
    && (r.mode == c.mode || (left.me.Some? && left.modes.Some? && (left.me.value, r.mode) in left.modes.value))
  }

  /** Reads one session's own breakpoints and the client's exception mode; what
      could not be read is None, and not carried. */
  method Capture(c: Carried, left: Left) returns (r: Carried)
    requires DistinctKeys(c.bps)
    ensures Captures(c, left, r)
  {
    r := c;
    if left.list.Some? { r := CaptureList(c, left.list.value); }
    if left.me.None? || left.modes.None? { return; }
    ghost var bps := r.bps;
    var me, modes := left.me.value, left.modes.value;
    for i := 0 to |modes|
      invariant r.bps == bps && r.dropped == c.dropped
      invariant ModeRank(r.mode) >= ModeRank(c.mode)
      invariant forall m | m in modes[..i] && m.0 == me :: ModeRank(r.mode) >= ModeRank(m.1)
      invariant r.mode == c.mode || (me, r.mode) in modes
    {
      if modes[i].0 == me { r := AddMode(r, modes[i].1); }
    }
  }

  method CaptureList(c: Carried, list: seq<Breakpoint>) returns (r: Carried)
    requires DistinctKeys(c.bps)
    ensures DistinctKeys(r.bps) && c.bps <= r.bps && r.dropped == c.dropped && r.mode == c.mode
    ensures forall k :: HasKey(r.bps, k) <==> HasKey(c.bps, k) || Carries(list, k)
    ensures forall s | s in r.bps[|c.bps|..] :: exists i: nat :: FirstOfKey(list, i, s)
  {
    r := c;
    for i := 0 to |list|
      invariant DistinctKeys(r.bps) && r.dropped == c.dropped && r.mode == c.mode && CapturedSoFar(c.bps, r.bps, list, i)
    {
      CapturesNext(c.bps, r.bps, list, i);
      var spec := CarriedSpec(list[i]);
      if spec.Some? { r := AddBreakpoint(r, spec.value); }
    }
    assert list[..|list|] == list;
  }

  /** The first i breakpoints of the list are carried. */
  ghost predicate CapturedSoFar(had: seq<Spec>, bps: seq<Spec>, list: seq<Breakpoint>, i: nat) {
    && i <= |list| && had <= bps
    && (forall k :: HasKey(bps, k) <==> HasKey(had, k) || Carries(list[..i], k))
    && (forall s | s in bps[|had|..] :: exists j: nat :: FirstOfKey(list, j, s))
  }

  lemma CapturesNext(had: seq<Spec>, bps: seq<Spec>, list: seq<Breakpoint>, i: nat)
    requires CapturedSoFar(had, bps, list, i) && i < |list|
    ensures CarriedSpec(list[i]).None? || HasKey(bps, BpKey(CarriedSpec(list[i]).value)) ==> CapturedSoFar(had, bps, list, i + 1)
    ensures CarriedSpec(list[i]).Some? && !HasKey(bps, BpKey(CarriedSpec(list[i]).value)) ==>
              CapturedSoFar(had, bps + [CarriedSpec(list[i]).value], list, i + 1)
  {
    assert list[..i + 1] == list[..i] + [list[i]];
    CarriesOneMore(list[..i], list[i]);
    var spec := CarriedSpec(list[i]);
    if spec.Some? && !HasKey(bps, BpKey(spec.value)) {
      HasKeyOneMore(bps, spec.value);
      assert (bps + [spec.value])[|had|..] == bps[|had|..] + [spec.value];
      assert FirstOfKey(list, i, spec.value);
    }
  }

  lemma CarriesOneMore(list: seq<Breakpoint>, b: Breakpoint)
    ensures forall k :: Carries(list + [b], k) <==>
                        Carries(list, k) || (CarriedSpec(b).Some? && BpKey(CarriedSpec(b).value) == k)
  {
    forall k ensures Carries(list + [b], k) <==> Carries(list, k) || (CarriedSpec(b).Some? && BpKey(CarriedSpec(b).value) == k) {
      assert b in list + [b];
      if Carries(list, k) {
        var o :| o in list && CarriedSpec(o).Some? && BpKey(CarriedSpec(o).value) == k;
        assert o in list + [b];
      }
    }
  }

  lemma HasKeyOneMore(bps: seq<Spec>, s: Spec)
    ensures forall k :: HasKey(bps + [s], k) <==> HasKey(bps, k) || BpKey(s) == k
  {
    forall k ensures HasKey(bps + [s], k) <==> HasKey(bps, k) || BpKey(s) == k {
      assert s in bps + [s];
      if HasKey(bps, k) {
        var o :| o in bps && BpKey(o) == k;
        assert o in bps + [s];
      }
    }
  }

  // ---------------------------------------------------------- breakpoints for

  /** How many of the breakpoints can be set again. */
  function Count(bps: seq<Spec>, settable: Spec -> bool): (n: nat)
    ensures n <= |bps|
  {
    if bps == [] then 0
    else Count(bps[..|bps| - 1], settable) + if settable(bps[|bps| - 1]) then 1 else 0
  }

  /** One of the list, with no later one of its key. */
  ghost predicate LastOfKey(args: seq<Spec>, s: Spec) {
    exists j: nat :: j < |args| && args[j] == s && !HasKey(args[j + 1..], BpKey(s))
  }

  /** The result has one breakpoint a key: of every --bp's key the last one, and
      the settable carried ones of no --bp's key. */
  ghost predicate Overlays(bps: seq<Spec>, carried: seq<Spec>, settable: Spec -> bool, args: seq<Spec>) {
    && DistinctKeys(bps)
    && forall s :: s in bps <==> LastOfKey(args, s) || (s in carried && settable(s) && !HasKey(args, BpKey(s)))
  }

  method Without(bps: seq<Spec>, key: string) returns (r: seq<Spec>)
    requires DistinctKeys(bps)
    ensures DistinctKeys(r) && forall s :: s in r <==> s in bps && BpKey(s) != key
  {
    r := [];
    for i := 0 to |bps|
      invariant DistinctKeys(r) && forall s :: s in r <==> s in bps[..i] && BpKey(s) != key
    {
      if BpKey(bps[i]) != key {
        forall j | 0 <= j < |r| ensures BpKey(r[j]) != BpKey(bps[i]) { assert r[j] in bps[..i]; }
        r := r + [bps[i]];
      }
    }
  }

  /** The settable ones of the first i breakpoints. */
  ghost predicate Selected(bps: seq<Spec>, all: seq<Spec>, i: nat, settable: Spec -> bool) {
    && i <= |all| && DistinctKeys(bps) && |bps| == Count(all[..i], settable)
    && forall s :: s in bps <==> s in all[..i] && settable(s)
  }

  lemma SelectsNext(bps: seq<Spec>, all: seq<Spec>, i: nat, settable: Spec -> bool)
    requires DistinctKeys(all) && i < |all| && Selected(bps, all, i, settable)
    ensures settable(all[i]) ==> Selected(bps + [all[i]], all, i + 1, settable)
    ensures !settable(all[i]) ==> Selected(bps, all, i + 1, settable)
  {
    assert all[..i + 1][..i] == all[..i] && all[..i + 1] == all[..i] + [all[i]];
    forall j | 0 <= j < |bps| ensures BpKey(bps[j]) != BpKey(all[i]) {
      assert bps[j] in all[..i];
      var k :| 0 <= k < i && all[k] == bps[j];
    }
  }

  method Settable(c: Carried, settable: Spec -> bool) returns (bps: seq<Spec>, r: Carried)
    requires DistinctKeys(c.bps)
    ensures Selected(bps, c.bps, |c.bps|, settable)
    ensures r == c.(dropped := c.dropped + |c.bps| - Count(c.bps, settable))
  {
    bps, r := [], c;
    for i := 0 to |c.bps|
      invariant Selected(bps, c.bps, i, settable) && r == c.(dropped := c.dropped + i - |bps|)
    {
      SelectsNext(bps, c.bps, i, settable);
      if settable(c.bps[i]) { bps := bps + [c.bps[i]]; } else { r := r.(dropped := r.dropped + 1); }
    }
    SelectedAll(bps, c.bps, settable);
  }

  lemma SelectedAll(bps: seq<Spec>, all: seq<Spec>, settable: Spec -> bool)
    requires Selected(bps, all, |all|, settable)
    ensures |bps| == Count(all, settable)
  {
    assert all[..|all|] == all;
  }

  /** The breakpoints a service launches with. */
  method BreakpointsFor(c: Carried, settable: Spec -> bool, args: seq<Spec>) returns (bps: seq<Spec>, r: Carried)
    requires DistinctKeys(c.bps)
    ensures Overlays(bps, c.bps, settable, args)
    ensures r == c.(dropped := c.dropped + |c.bps| - Count(c.bps, settable))
  {
    bps, r := Settable(c, settable);
    assert c.bps[..|c.bps|] == c.bps;
    for i := 0 to |args|
      invariant Overlays(bps, c.bps, settable, args[..i])
    {
      ghost var before := bps;
      bps := Without(bps, BpKey(args[i]));
      OverlaysOneMore(before, bps, c.bps, settable, args[..i], args[i]);
      bps := bps + [args[i]];
      assert args[..i + 1] == args[..i] + [args[i]];
    }
    assert args[..|args|] == args;
  }

  lemma OverlaysOneMore(before: seq<Spec>, rest: seq<Spec>, carried: seq<Spec>, settable: Spec -> bool, args: seq<Spec>, a: Spec)
    requires Overlays(before, carried, settable, args) && DistinctKeys(rest)
    requires forall s :: s in rest <==> s in before && BpKey(s) != BpKey(a)
    ensures Overlays(rest + [a], carried, settable, args + [a])
  {
    var bps, more := rest + [a], args + [a];
    HasKeyOneMore(args, a);
    forall i | 0 <= i < |rest| ensures BpKey(rest[i]) != BpKey(a) { assert rest[i] in rest; }
    forall s ensures s in bps <==> LastOfKey(more, s) || (s in carried && settable(s) && !HasKey(more, BpKey(s))) {
      LastOneMore(args, a, s);
    }
  }

  lemma LastOneMore(args: seq<Spec>, a: Spec, s: Spec)
    ensures LastOfKey(args + [a], s) <==> s == a || (LastOfKey(args, s) && BpKey(s) != BpKey(a))
  {
    var more := args + [a];
    if s == a {
      assert more[|args|] == s && more[|args| + 1..] == [];
    }
    if LastOfKey(args, s) && BpKey(s) != BpKey(a) {
      var j: nat :| j < |args| && args[j] == s && !HasKey(args[j + 1..], BpKey(s));
      LaterKeys(args, a, j, BpKey(s));
      assert more[j] == s;
    }
    if LastOfKey(more, s) && s != a {
      var j: nat :| j < |more| && more[j] == s && !HasKey(more[j + 1..], BpKey(s));
      LaterKeys(args, a, j, BpKey(s));
      assert args[j] == s;
    }
  }

  lemma LaterKeys(args: seq<Spec>, a: Spec, j: nat, key: string)
    requires j < |args|
    ensures HasKey((args + [a])[j + 1..], key) <==> HasKey(args[j + 1..], key) || BpKey(a) == key
  {
    assert (args + [a])[j + 1..] == args[j + 1..] + [a];
    HasKeyOneMore(args[j + 1..], a);
  }

  // ----------------------------------------------------------------- batches

  /** Services that launch with the same breakpoints and exception mode. */
  datatype Batch = Batch(members: seq<nat>, bps: seq<Spec>, mode: Mode)

  predicate KeyLe(a: Spec, b: Spec) { StrLe(BpKey(a), BpKey(b)) }

  lemma HasOne(bps: seq<Spec>)
    ensures bps != [] ==> exists s :: s in bps
  {
    if bps != [] { assert bps[0] in bps; }
  }

  /** Sorted by distinct keys, the same breakpoints make the same list. */
  lemma {:induction false} OneOrder(a: seq<Spec>, b: seq<Spec>)
    requires DistinctKeys(a) && DistinctKeys(b) && Sorted(a, KeyLe) && Sorted(b, KeyLe)
    requires forall s :: s in a <==> s in b
    ensures a == b
    decreases |a|
  {
    if a == [] {
      HasOne(b);
    } else {
      assert a[0] in b && b[0] in a;
      var i :| 0 <= i < |b| && b[i] == a[0];
      var j :| 0 <= j < |a| && a[j] == b[0];
      StrLeTotal(BpKey(a[0]), BpKey(b[0]));
      assert a[0] == b[0];
      forall s ensures s in a[1..] <==> s in b[1..] {
        assert s in a[1..] <==> s in a && s != a[0];
        assert s in b[1..] <==> s in b && s != b[0];
      }
      OneOrder(a[1..], b[1..]);
    }
  }

  method SortByKey(bps: seq<Spec>) returns (r: seq<Spec>)
    requires DistinctKeys(bps)
    ensures DistinctKeys(r) && Sorted(r, KeyLe) && forall s :: s in r <==> s in bps
  {
    r := Sort(bps, KeyLe);
    KeyOrder(BpKey, KeyLe);
    SortSorts(bps, KeyLe);
    forall s ensures s in r <==> s in bps { assert s in multiset(r) <==> s in multiset(bps); }
    SameKeys(bps, r);
  }

  lemma SameKeys(a: seq<Spec>, b: seq<Spec>)
    requires DistinctKeys(a) && multiset(a) == multiset(b)
    ensures DistinctKeys(b)
  {
    forall i, j | 0 <= i < j < |b| ensures BpKey(b[i]) != BpKey(b[j]) {
      assert b == b[..i] + [b[i]] + b[i + 1..j] + [b[j]] + b[j + 1..];
      assert b[i] in multiset(a) && b[j] in multiset(a);
      var k :| 0 <= k < |a| && a[k] == b[i];
      var l :| 0 <= l < |a| && a[l] == b[j];
      if k == l {
        assert multiset(b)[b[i]] >= 2;
        OnlyOnce(a, k);
      }
    }
  }

  lemma OnlyOnce(a: seq<Spec>, k: nat)
    requires DistinctKeys(a) && k < |a|
    ensures multiset(a)[a[k]] == 1
  {
    assert a == a[..k] + [a[k]] + a[k + 1..];
    assert a[k] !in a[..k] && a[k] !in a[k + 1..];
  }

  /** What service i's batch must be: its own breakpoints, sorted, and mode. */
  ghost predicate BatchOf(b: Batch, c: Carried, settable: Spec -> bool, args: seq<Spec>, mode: Mode) {
    && Overlays(b.bps, c.bps, settable, args) && Sorted(b.bps, KeyLe)
    && b.mode == if mode == Unset then c.mode else mode
  }

  /** What each service launches with, and how many of its breakpoints can't be
      set any more. */
  method LaunchKeys(svcs: seq<Carried>, settable: Spec -> bool, args: seq<Spec>, mode: Mode) returns (keys: seq<Batch>, after: seq<Carried>)
    requires forall i | 0 <= i < |svcs| :: DistinctKeys(svcs[i].bps)
    ensures |keys| == |after| == |svcs|
    ensures forall i | 0 <= i < |svcs| ::
              after[i] == svcs[i].(dropped := svcs[i].dropped + |svcs[i].bps| - Count(svcs[i].bps, settable))
    ensures forall i | 0 <= i < |svcs| :: BatchOf(keys[i], svcs[i], settable, args, mode) && keys[i].members == []
  {
    keys, after := [], [];
    for i := 0 to |svcs|
      invariant |keys| == |after| == i
      invariant forall j | 0 <= j < i ::
                  after[j] == svcs[j].(dropped := svcs[j].dropped + |svcs[j].bps| - Count(svcs[j].bps, settable))
      invariant forall j | 0 <= j < i :: BatchOf(keys[j], svcs[j], settable, args, mode) && keys[j].members == []
    {
      var bps, c := BreakpointsFor(svcs[i], settable, args);
      var sorted := SortByKey(bps);
      keys := keys + [Batch([], sorted, if mode == Unset then c.mode else mode)];
      after := after + [c];
    }
  }

  ghost predicate InBatch(batches: seq<Batch>, i: nat) { exists b :: 0 <= b < |batches| && i in batches[b].members }

  /** Every service is in exactly one batch, which carries exactly what it
      launches with; two batches never carry the same. */
  ghost predicate Batched(svcs: seq<Carried>, batches: seq<Batch>, settable: Spec -> bool, args: seq<Spec>, mode: Mode) {
    && (forall i | 0 <= i < |svcs| :: InBatch(batches, i))
    && (forall b, i | 0 <= b < |batches| && i in batches[b].members ::
          i < |svcs| && BatchOf(batches[b], svcs[i], settable, args, mode))
    && (forall b | 0 <= b < |batches| ::
          batches[b].members != [] && Increasing(batches[b].members) && forall i | i in batches[b].members :: i < |svcs|)
    && (forall b, c | 0 <= b < c < |batches| ::
          && (forall i | i in batches[b].members :: i !in batches[c].members)
          && (batches[b].bps != batches[c].bps || batches[b].mode != batches[c].mode))
  }

  /** Groups the services by what they launch with. */
  method Batches(svcs: seq<Carried>, settable: Spec -> bool, args: seq<Spec>, mode: Mode) returns (batches: seq<Batch>, after: seq<Carried>)
    requires forall i | 0 <= i < |svcs| :: DistinctKeys(svcs[i].bps)
    ensures |after| == |svcs|
    ensures forall i | 0 <= i < |svcs| ::
              after[i] == svcs[i].(dropped := svcs[i].dropped + |svcs[i].bps| - Count(svcs[i].bps, settable))
    ensures Batched(svcs, batches, settable, args, mode)
  {
    var keys;
    keys, after := LaunchKeys(svcs, settable, args, mode);
    var groups := GroupBy(keys);
    batches := [];
    for g := 0 to |groups|
      invariant |batches| == g
      invariant forall b | 0 <= b < g :: Heads(keys, groups[b]) && batches[b] == keys[groups[b][0]].(members := groups[b])
    {
      assert Group(keys, groups[g]) && groups[g][0] in groups[g];
      batches := batches + [keys[groups[g][0]].(members := groups[g])];
    }
    BatchesOk(svcs, keys, groups, batches, settable, args, mode);
  }

  ghost predicate Heads(keys: seq<Batch>, g: seq<nat>) { g != [] && g[0] < |keys| }

  lemma BatchesOk(svcs: seq<Carried>, keys: seq<Batch>, groups: seq<seq<nat>>, batches: seq<Batch>, settable: Spec -> bool, args: seq<Spec>, mode: Mode)
    requires |keys| == |svcs| && Groups(keys, groups) && |batches| == |groups|
    requires forall i | 0 <= i < |svcs| :: BatchOf(keys[i], svcs[i], settable, args, mode) && keys[i].members == []
    requires forall b | 0 <= b < |groups| :: Heads(keys, groups[b]) && batches[b] == keys[groups[b][0]].(members := groups[b])
    ensures Batched(svcs, batches, settable, args, mode)
  {
    forall i | 0 <= i < |keys| ensures InBatch(batches, i) {
      assert InSome(groups, i);
      var g :| 0 <= g < |groups| && i in groups[g];
      assert i in batches[g].members;
    }
    forall b | 0 <= b < |batches| ensures batches[b].members != [] && Increasing(batches[b].members)
      ensures forall i | i in batches[b].members :: i < |svcs|
      ensures forall i | i in batches[b].members :: BatchOf(batches[b], svcs[i], settable, args, mode)
    {
      assert Group(keys, groups[b]);
    }
    forall b, c | 0 <= b < c < |batches|
      ensures forall i | i in batches[b].members :: i !in batches[c].members
      ensures batches[b].bps != batches[c].bps || batches[b].mode != batches[c].mode
    {
      assert Group(keys, groups[b]) && Group(keys, groups[c]);
      assert Before(keys, groups[b], groups[c]);
    }
  }

  /** Two services launch together exactly when they launch with the same
      breakpoints and mode. */
  lemma TogetherWhenSame(a: Batch, b: Batch, c: Carried, d: Carried, settable: Spec -> bool, args: seq<Spec>, mode: Mode)
    requires BatchOf(a, c, settable, args, mode) && BatchOf(b, d, settable, args, mode)
    ensures a.bps == b.bps && a.mode == b.mode <==>
            (forall s :: s in a.bps <==> s in b.bps) && (mode == Unset ==> c.mode == d.mode)
  {
    if forall s :: s in a.bps <==> s in b.bps { OneOrder(a.bps, b.bps); }
  }

  // ------------------------------------------------------------ what is shown

  function Those(bps: seq<Spec>, which: Spec -> bool): set<Spec> { set s | s in bps && which(s) }

  lemma ThoseAndOne(bps: seq<Spec>, s: Spec, which: Spec -> bool)
    requires s !in bps
    ensures |Those(bps + [s], which)| == |Those(bps, which)| + if which(s) then 1 else 0
  {
    assert Those(bps + [s], which) == if which(s) then Those(bps, which) + {s} else Those(bps, which);
  }

  lemma {:induction false} CountIsSize(bps: seq<Spec>, settable: Spec -> bool)
    requires DistinctKeys(bps)
    ensures Count(bps, settable) == |Those(bps, settable)|
  {
    if bps != [] {
      var n := |bps| - 1;
      CountIsSize(bps[..n], settable);
      assert bps == bps[..n] + [bps[n]];
      ThoseAndOne(bps[..n], bps[n], settable);
    }
  }

  lemma LastIsOne(args: seq<Spec>, s: Spec)
    ensures LastOfKey(args, s) ==> HasKey(args, BpKey(s))
  {
    assert forall j: nat | j < |args| :: args[j] in args;
  }

  /** The breakpoints that no --bp asked for. */
  ghost function Unasked(bps: seq<Spec>, args: seq<Spec>): set<Spec> { set s | s in bps && !HasKey(args, BpKey(s)) }

  /** The settable breakpoints that a --bp took the place of. */
  ghost function Replaced(bps: seq<Spec>, settable: Spec -> bool, args: seq<Spec>): set<Spec> {
    set s | s in bps && settable(s) && HasKey(args, BpKey(s))
  }

  lemma UnaskedAreCarried(bps: seq<Spec>, carried: seq<Spec>, settable: Spec -> bool, args: seq<Spec>)
    requires Overlays(bps, carried, settable, args)
    ensures Those(carried, settable) == Unasked(bps, args) + Replaced(carried, settable, args)
    ensures Unasked(bps, args) !! Replaced(carried, settable, args)
  {
    forall s | s in bps && !HasKey(args, BpKey(s)) ensures s in carried && settable(s) { LastIsOne(args, s); }
  }

  /** What the output says was carried: the breakpoints the service launches with
      that no --bp asked for, and those a --bp took the place of. */
  lemma CarriedIs(c: Carried, r: Carried, bps: seq<Spec>, settable: Spec -> bool, args: seq<Spec>)
    requires DistinctKeys(c.bps) && c.dropped == 0 && Overlays(bps, c.bps, settable, args)
    requires r == c.(dropped := c.dropped + |c.bps| - Count(c.bps, settable))
    ensures |r.bps| - r.dropped == |Unasked(bps, args)| + |Replaced(c.bps, settable, args)|
  {
    CountIsSize(c.bps, settable);
    UnaskedAreCarried(bps, c.bps, settable, args);
  }

  // -------------------------------------------------------- keys and places

  /** A breakpoint as it is asked for: a function, or an absolute file with a line
      or else the text of one. */
  predicate IsPlace(s: Spec) {
    if s.fn != "" then s.file == "" && s.line == 0 && s.anchor == ""
    else s.file != "" && s.file[0] == '/' && (s.line >= 1 || (s.line == 0 && s.anchor != ""))
  }

  predicate ByText(s: Spec) { s.fn == "" && s.line == 0 }

  predicate SamePlace(a: Spec, b: Spec) {
    if a.fn != "" || b.fn != "" then a.fn == b.fn
    else a.file == b.file && a.line == b.line && (a.line == 0 ==> a.anchor == b.anchor)
  }

  lemma {:induction false} DigitsOnly(n: nat)
    ensures Decimal(n) != "" && forall c | c in Decimal(n) :: '0' <= c <= '9'
    decreases n
  {
    if n >= 10 {
      DigitsOnly(n / 10);
      DigitsOnly(n % 10);
    }
  }

  lemma {:induction false} DecimalTells(m: nat, n: nat)
    requires Decimal(m) == Decimal(n)
    ensures m == n
    decreases m
  {
    DigitsOnly(m / 10);
    DigitsOnly(n / 10);
    if m >= 10 {
      assert Decimal(m) == Decimal(m / 10) + Decimal(m % 10) && |Decimal(m % 10)| == 1;
      assert n >= 10;
      assert Decimal(n) == Decimal(n / 10) + Decimal(n % 10) && |Decimal(n % 10)| == 1;
      assert Decimal(m)[..|Decimal(m)| - 1] == Decimal(m / 10) && Decimal(n)[..|Decimal(n)| - 1] == Decimal(n / 10);
      assert Decimal(m)[|Decimal(m)| - 1] == Decimal(m % 10)[0] && Decimal(n)[|Decimal(n)| - 1] == Decimal(n % 10)[0];
      DecimalTells(m / 10, n / 10);
    }
  }

  /** A separator that is not in what follows it splits one way. */
  lemma LastSplit(a: string, x: string, b: string, y: string, c: char)
    requires a + [c] + x == b + [c] + y && c !in x && c !in y
    ensures a == b && x == y
  {
    var s := a + [c] + x;
    assert s == b + [c] + y && s[|a|] == c && s[|b|] == c;
    forall k | |a| < k < |s| ensures s[k] != c { assert s[k] == x[k - |a| - 1]; }
    forall k | |b| < k < |s| ensures s[k] != c { assert s[k] == y[k - |b| - 1]; }
    assert s[..|a|] == a && s[..|b|] == b && s[|a| + 1..] == x && s[|b| + 1..] == y;
  }

  /** Lines have keys of their own. */
  lemma LineKeysTell(a: Spec, b: Spec)
    requires IsPlace(a) && IsPlace(b) && a.fn == "" && b.fn == "" && !ByText(a) && !ByText(b)
    ensures BpKey(a) == BpKey(b) <==> SamePlace(a, b)
  {
    DigitsOnly(a.line);
    DigitsOnly(b.line);
    assert BpKey(a) == a.file + [':'] + Decimal(a.line) && BpKey(b) == b.file + [':'] + Decimal(b.line);
    if BpKey(a) == BpKey(b) {
      LastSplit(a.file, Decimal(a.line), b.file, Decimal(b.line), ':');
      DecimalTells(a.line, b.line);
    }
  }

  /** A key tells a place, unless one of the two files' names starts with the
      other's and an @. */
  lemma KeysTellPlaces(a: Spec, b: Spec)
    requires IsPlace(a) && IsPlace(b) && !AtPrefix(a.file, b.file)
    ensures BpKey(a) == BpKey(b) <==> SamePlace(a, b)
  {
    if Collide(a, b) { CollidingFiles(a, b); }
    SameKey(a, b);
  }

  lemma SameKey(a: Spec, b: Spec)
    requires IsPlace(a) && IsPlace(b)
    ensures SamePlace(a, b) ==> BpKey(a) == BpKey(b)
  {}

  lemma FunctionKeys(a: Spec, b: Spec)
    requires IsPlace(a) && IsPlace(b) && (a.fn != "" || b.fn != "")
    ensures BpKey(a) == BpKey(b) <==> a.fn == b.fn
  {
    assert a.fn != "" ==> BpKey(a)[0] == 'f' && BpKey(a)[5..] == a.fn;
    assert b.fn != "" ==> BpKey(b)[0] == 'f' && BpKey(b)[5..] == b.fn;
    assert a.fn == "" ==> BpKey(a)[0] == '/';
    assert b.fn == "" ==> BpKey(b)[0] == '/';
  }

  ghost predicate Collide(a: Spec, b: Spec) { IsPlace(a) && IsPlace(b) && BpKey(a) == BpKey(b) && !SamePlace(a, b) }

  /** One file's name starts with the other's and an @. */
  predicate AtPrefix(f: string, g: string) { f + ['@'] <= g || g + ['@'] <= f }

  /** Places in two absolute files can have one key exactly when one file's name
      starts with the other's and an @. */
  lemma KeysCollide(f: string, g: string)
    requires f != "" && f[0] == '/' && g != "" && g[0] == '/'
    ensures (exists a: Spec, b: Spec :: a.file == f && b.file == g && Collide(a, b)) <==> AtPrefix(f, g)
  {
    if g + ['@'] <= f {
      var a, b := AtCollides(f, g);
    } else if f + ['@'] <= g {
      var a, b := AtCollides(g, f);
      assert Collide(b, a);
    }
    forall a: Spec, b: Spec | a.file == f && b.file == g && Collide(a, b) ensures AtPrefix(f, g) { CollidingFiles(a, b); }
  }

  /** Line 3 of a file x@y, and the text y:3 in file x. */
  lemma AtCollides(f: string, g: string) returns (a: Spec, b: Spec)
    requires f != "" && f[0] == '/' && g != "" && g[0] == '/' && g + ['@'] <= f
    ensures a.file == f && b.file == g && Collide(a, b)
  {
    var text := f[|g| + 1..] + ":3";
    a, b := Spec(f, 3, "", "", "", "", ""), Spec(g, 0, text, "", "", "", "");
    assert Decimal(3) == "3" && f == g + "@" + f[|g| + 1..];
    assert BpKey(a) == f + ":3" && BpKey(b) == g + "@" + text;
    assert f + ":3" == g + "@" + text;
  }

  /** A text's key and another text's: at the shorter file's end is its @. */
  lemma TextsAt(f: string, t: string, g: string, u: string)
    requires f + ['@'] + t == g + ['@'] + u && f != g
    ensures AtPrefix(f, g)
  {
    var s := f + ['@'] + t;
    assert s == g + ['@'] + u && s[..|f|] == f && s[..|g|] == g;
    if |f| < |g| {
      assert s[..|f| + 1] == f + ['@'] && g[..|f| + 1] == s[..|g|][..|f| + 1];
    } else {
      assert |f| == |g| ==> f == g;
      assert s[..|g| + 1] == g + ['@'] && f[..|g| + 1] == s[..|f|][..|g| + 1];
    }
  }

  /** A line's key and a text's: the text's @ is in the line's file. */
  lemma LineAndText(f: string, x: string, g: string, u: string)
    requires f + [':'] + x == g + ['@'] + u && '@' !in x
    ensures g + ['@'] <= f
  {
    var s := f + [':'] + x;
    assert s == g + ['@'] + u && s[|g|] == '@';
    forall k | |f| <= k < |s| ensures s[k] != '@' { assert k > |f| ==> s[k] == x[k - |f| - 1]; }
    assert s[..|g| + 1] == g + ['@'] && f == s[..|f|];
  }

  lemma CollidingFiles(a: Spec, b: Spec)
    requires Collide(a, b)
    ensures a.fn == "" && b.fn == "" && AtPrefix(a.file, b.file)
  {
    if a.fn != "" || b.fn != "" {
      FunctionKeys(a, b);
    } else if ByText(a) && ByText(b) {
      assert BpKey(a) == a.file + ['@'] + a.anchor && BpKey(b) == b.file + ['@'] + b.anchor;
      if a.file == b.file { LastPart(a.file + ['@'], a.anchor, b.anchor); }
      TextsAt(a.file, a.anchor, b.file, b.anchor);
    } else if ByText(a) {
      DigitsOnly(b.line);
      assert BpKey(a) == a.file + ['@'] + a.anchor && BpKey(b) == b.file + [':'] + Decimal(b.line);
      LineAndText(b.file, Decimal(b.line), a.file, a.anchor);
    } else if ByText(b) {
      DigitsOnly(a.line);
      assert BpKey(b) == b.file + ['@'] + b.anchor && BpKey(a) == a.file + [':'] + Decimal(a.line);
      LineAndText(a.file, Decimal(a.line), b.file, b.anchor);
    } else {
      LineKeysTell(a, b);
    }
  }

  lemma LastPart(a: string, x: string, y: string)
    requires a + x == a + y
    ensures x == y
  {
    assert (a + x)[|a|..] == x && (a + y)[|a|..] == y;
  }

  /** Of two --bp whose keys collide the first is dropped. */
  lemma FirstIsDropped(a: Spec, b: Spec, bps: seq<Spec>, carried: seq<Spec>, settable: Spec -> bool)
    requires Collide(a, b) && Overlays(bps, carried, settable, [a, b])
    ensures a !in bps && b in bps
  {
    assert [a, b][1] == b && [a, b][2..] == [] && [a, b][1..] == [b] && [a, b][0] == a;
    assert HasKey([b], BpKey(a)) && HasKey([a, b], BpKey(a)) by { assert b in [b] && b in [a, b]; }
    assert LastOfKey([a, b], b);
    forall j: nat | j < 2 && [a, b][j] == a ensures HasKey([a, b][j + 1..], BpKey(a)) { assert a != b; }
  }

  lemma LaterKey(args: seq<Spec>, j: nat)
    requires j < |args|
    ensures HasKey(args[j + 1..], BpKey(args[j])) <==> exists i :: j < i < |args| && BpKey(args[i]) == BpKey(args[j])
  {
    var rest := args[j + 1..];
    forall i | j < i < |args| ensures args[i] in rest { assert rest[i - j - 1] == args[i]; }
    forall s | s in rest ensures exists i :: j < i < |args| && args[i] == s {
      var k :| 0 <= k < |rest| && rest[k] == s;
      assert args[j + 1 + k] == s;
    }
  }

  /** The last --bp of a place is kept exactly when no later one collides with
      it. */
  lemma KeptExactly(args: seq<Spec>, j: nat, bps: seq<Spec>, carried: seq<Spec>, settable: Spec -> bool)
    requires j < |args| && Overlays(bps, carried, settable, args)
    requires forall i | j <= i < |args| :: IsPlace(args[i])
    requires forall i | j < i < |args| :: !SamePlace(args[j], args[i])
    ensures args[j] in bps <==> forall i | j < i < |args| :: !Collide(args[j], args[i])
  {
    LaterKey(args, j);
    assert args[j] in args && HasKey(args, BpKey(args[j]));
    if k :| j < k < |args| && BpKey(args[k]) == BpKey(args[j]) {
      LaterWins(args, j, k);
      assert Collide(args[j], args[k]);
    } else {
      assert LastOfKey(args, args[j]);
    }
  }

  /** What a later --bp of its key, of another place, takes the place of is not the
      last of its key anywhere. */
  lemma LaterWins(args: seq<Spec>, j: nat, k: nat)
    requires j < k < |args| && BpKey(args[k]) == BpKey(args[j])
    requires forall i | j < i < |args| :: !SamePlace(args[j], args[i])
    ensures !LastOfKey(args, args[j])
  {
    forall m: nat | m < |args| && args[m] == args[j] ensures HasKey(args[m + 1..], BpKey(args[j])) {
      assert m <= j;
      assert args[m + 1..][k - m - 1] == args[k] && args[k] in args[m + 1..];
    }
  }

  /** The last --bp of every place is kept when no file's name starts with
      another's and an @. */
  lemma LastOfPlaceIsKept(args: seq<Spec>, j: nat, bps: seq<Spec>, carried: seq<Spec>, settable: Spec -> bool)
    requires j < |args| && Overlays(bps, carried, settable, args)
    requires forall i | j <= i < |args| :: IsPlace(args[i])
    requires forall i | j < i < |args| :: !SamePlace(args[j], args[i]) && !AtPrefix(args[j].file, args[i].file)
    ensures args[j] in bps
  {
    forall i | j < i < |args| ensures !Collide(args[j], args[i]) {
      if Collide(args[j], args[i]) { CollidingFiles(args[j], args[i]); }
    }
    KeptExactly(args, j, bps, carried, settable);
  }
}
