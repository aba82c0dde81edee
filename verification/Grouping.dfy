/** Grouping by a key, in order of first appearance: what 'compose launch' and
    'compose restore' do with what they build, recreate and launch together. */
module Grouping {

  predicate Increasing(s: seq<nat>) { forall i, j | 0 <= i < j < |s| :: s[i] < s[j] }

  /** Some of the indices of one key, at least one, in order. */
  ghost predicate Group<K(!new)>(keys: seq<K>, g: seq<nat>) {
    g != [] && Increasing(g) && forall m | m in g :: m < |keys| && keys[m] == keys[g[0]]
  }

  /** Group g starts earlier than h, and has another key. */
  ghost predicate Before<K(!new)>(keys: seq<K>, g: seq<nat>, h: seq<nat>) {
    g != [] && h != [] && g[0] < h[0] < |keys| && keys[g[0]] != keys[h[0]]
  }

  ghost predicate Starts<K(!new)>(keys: seq<K>, g: seq<nat>, k: K) { g != [] && g[0] < |keys| && keys[g[0]] == k }

  ghost predicate InSome(groups: seq<seq<nat>>, i: nat) { exists g :: 0 <= g < |groups| && i in groups[g] }

  /** The groups hold every index, with those of the same key, in order of
      first appearance. */
  ghost predicate Groups<K(!new)>(keys: seq<K>, groups: seq<seq<nat>>) {
    && (forall g | 0 <= g < |groups| :: Group(keys, groups[g]))
    && (forall g, h | 0 <= g < h < |groups| :: Before(keys, groups[g], groups[h]))
    && (forall i | 0 <= i < |keys| :: InSome(groups, i))
  }

  /** The key at the end is new: a group of its own. */
  lemma Opens<K(!new)>(keys: seq<K>, k: K, groups: seq<seq<nat>>)
    requires Groups(keys, groups) && forall g | 0 <= g < |groups| :: !Starts(keys, groups[g], k)
    ensures Groups(keys + [k], groups + [[|keys|]])
  {
    var more := groups + [[|keys|]];
    forall g | 0 <= g < |more| ensures Group(keys + [k], more[g]) {
      if g < |groups| { assert Group(keys, groups[g]); }
    }
    forall g, h | 0 <= g < h < |more|
      ensures Before(keys + [k], more[g], more[h])
    {
      assert Group(keys, groups[g]);
      assert groups[g][0] in groups[g] && !Starts(keys, groups[g], k);
      if h < |groups| { assert Before(keys, groups[g], groups[h]); }
    }
    forall i | 0 <= i < |keys + [k]| ensures InSome(more, i) {
      if i < |keys| {
        assert InSome(groups, i);
        var g :| 0 <= g < |groups| && i in groups[g];
        assert i in more[g];
      } else {
        assert i in more[|groups|];
      }
    }
  }

  /** The key at the end is that of the group at. */
  lemma Joins<K(!new)>(keys: seq<K>, k: K, groups: seq<seq<nat>>, at: nat)
    requires Groups(keys, groups) && at < |groups| && Starts(keys, groups[at], k)
    ensures Groups(keys + [k], groups[at := groups[at] + [|keys|]])
  {
    var more := groups[at := groups[at] + [|keys|]];
    forall g | 0 <= g < |more| ensures Group(keys + [k], more[g]) {
      assert Group(keys, groups[g]);
      forall m | 0 <= m < |groups[g]| ensures groups[g][m] < |keys| { assert groups[g][m] in groups[g]; }
    }
    forall g, h | 0 <= g < h < |more| ensures Before(keys + [k], more[g], more[h]) {
      assert Before(keys, groups[g], groups[h]);
    }
    forall i | 0 <= i < |keys + [k]| ensures InSome(more, i) {
      if i < |keys| {
        assert InSome(groups, i);
        var g :| 0 <= g < |groups| && i in groups[g];
        assert i in more[g];
      } else {
        assert i in more[at];
      }
    }
  }

  /** The index has the group of every key there is. */
  ghost predicate Indexed<K(!new)>(keys: seq<K>, groups: seq<seq<nat>>, index: map<K, nat>) {
    && (forall k | k in index :: index[k] < |groups| && Starts(keys, groups[index[k]], k))
    && (forall g, k | 0 <= g < |groups| && Starts(keys, groups[g], k) :: k in index)
  }

  lemma IndexOpens<K(!new)>(keys: seq<K>, k: K, groups: seq<seq<nat>>, index: map<K, nat>)
    requires Groups(keys, groups) && Indexed(keys, groups, index) && k !in index
    ensures forall g | 0 <= g < |groups| :: !Starts(keys, groups[g], k)
    ensures Indexed(keys + [k], groups + [[|keys|]], index[k := |groups|])
  {
    forall g | 0 <= g < |groups| ensures groups[g][0] < |keys| && Starts(keys, groups[g], keys[groups[g][0]]) {
      assert Group(keys, groups[g]) && groups[g][0] in groups[g];
    }
  }

  lemma IndexJoins<K(!new)>(keys: seq<K>, k: K, groups: seq<seq<nat>>, index: map<K, nat>)
    requires Groups(keys, groups) && Indexed(keys, groups, index) && k in index
    ensures Indexed(keys + [k], groups[index[k] := groups[index[k]] + [|keys|]], index)
  {
    var more := groups[index[k] := groups[index[k]] + [|keys|]];
    forall g | 0 <= g < |groups| ensures more[g][0] == groups[g][0] < |keys| {
      assert Group(keys, groups[g]) && groups[g][0] in groups[g];
    }
    forall g, l | 0 <= g < |more| && Starts(keys + [k], more[g], l) ensures l in index {
      assert Starts(keys, groups[g], l);
    }
  }

  lemma OneMoreKey<K(!new)>(keys: seq<K>, i: nat, groups: seq<seq<nat>>, index: map<K, nat>)
    requires i < |keys| && Groups(keys[..i], groups) && Indexed(keys[..i], groups, index)
    ensures keys[i] !in index ==>
              Groups(keys[..i + 1], groups + [[i]]) && Indexed(keys[..i + 1], groups + [[i]], index[keys[i] := |groups|])
    ensures keys[i] in index ==> index[keys[i]] < |groups| && Joined(keys[..i + 1], groups, index, index[keys[i]], i)
  {
    assert keys[..i + 1] == keys[..i] + [keys[i]] && |keys[..i]| == i;
    if keys[i] !in index {
      IndexOpens(keys[..i], keys[i], groups, index);
      Opens(keys[..i], keys[i], groups);
    } else {
      Joins(keys[..i], keys[i], groups, index[keys[i]]);
      IndexJoins(keys[..i], keys[i], groups, index);
    }
  }

  ghost predicate Joined<K(!new)>(keys: seq<K>, groups: seq<seq<nat>>, index: map<K, nat>, at: nat, i: nat) requires at < |groups| {
    Groups(keys, groups[at := groups[at] + [i]]) && Indexed(keys, groups[at := groups[at] + [i]], index)
  }

  method GroupBy<K(==, !new)>(keys: seq<K>) returns (groups: seq<seq<nat>>)
    ensures Groups(keys, groups)
  {
    groups := [];
    var index: map<K, nat> := map[];
    for i := 0 to |keys|
      invariant Groups(keys[..i], groups) && Indexed(keys[..i], groups, index)
    {
      OneMoreKey(keys, i, groups, index);
      if keys[i] !in index {
        index := index[keys[i] := |groups|];
        groups := groups + [[i]];
      } else {
        var at := index[keys[i]];
        groups := groups[at := groups[at] + [i]];
      }
    }
    assert keys[..|keys|] == keys;
  }

  /** Two indices are in one group exactly when their keys are equal; and an
      index is in one group only. */
  lemma SameGroup<K(!new)>(keys: seq<K>, groups: seq<seq<nat>>, i: nat, j: nat, g: nat)
    requires Groups(keys, groups) && i < |keys| && j < |keys| && g < |groups| && i in groups[g]
    ensures j in groups[g] <==> keys[j] == keys[i]
    ensures forall h | 0 <= h < |groups| && i in groups[h] :: h == g
  {
    assert Group(keys, groups[g]);
    assert InSome(groups, j);
    var h :| 0 <= h < |groups| && j in groups[h];
    assert Group(keys, groups[h]);
    forall h | 0 <= h < |groups| && i in groups[h] ensures h == g { assert Group(keys, groups[h]); }
  }

  // ------------------------------------------------------------------- parts

  /** Some of the indices, as the group of their places says. */
  function IdxsOf(live: seq<nat>, group: seq<nat>): (idxs: seq<nat>)
    requires forall m | m in group :: m < |live|
  {
    seq(|group|, k requires 0 <= k < |group| => assert group[k] in group; live[group[k]])
  }

  function Of(idxs: seq<nat>): set<nat> { set i | i in idxs }

  /** Every index is in exactly one of the parts. */
  ghost predicate Parts(n: nat, live: seq<nat>, parts: seq<seq<nat>>) {
    && (forall p | 0 <= p < |parts| :: Increasing(parts[p]) && forall i | i in parts[p] :: i < n && i in live)
    && (forall p, q | 0 <= p < q < |parts| :: forall i | i in parts[p] :: i !in parts[q])
    && (forall i | i in live :: InSome(parts, i))
  }

  /** Those of the parts before p have been. */
  ghost predicate Been(parts: seq<seq<nat>>, p: nat, done: set<nat>) {
    forall q | 0 <= q < |parts| && q < p :: Of(parts[q]) <= done
  }

  lemma AllBeen(n: nat, live: seq<nat>, parts: seq<seq<nat>>, done: set<nat>)
    requires Parts(n, live, parts) && Been(parts, |parts|, done)
    ensures Of(live) <= done
  {
    forall i | i in live ensures i in done {
      assert InSome(parts, i);
      var q :| 0 <= q < |parts| && i in parts[q];
      assert i in Of(parts[q]);
    }
  }

  /** Each of the first n indices is in exactly one of the groups. */
  ghost predicate Partition(n: nat, groups: seq<seq<nat>>) {
    && (forall g | 0 <= g < |groups| :: Increasing(groups[g]) && forall m | m in groups[g] :: m < n)
    && (forall g, h | 0 <= g < h < |groups| :: forall m | m in groups[g] :: m !in groups[h])
    && (forall m | 0 <= m < n :: InSome(groups, m))
  }

  lemma GroupsPart<K(!new)>(keys: seq<K>, groups: seq<seq<nat>>)
    requires Groups(keys, groups)
    ensures Partition(|keys|, groups)
  {
    forall g | 0 <= g < |groups| ensures Increasing(groups[g]) && forall m | m in groups[g] :: m < |keys| {
      assert Group(keys, groups[g]);
    }
    forall g, h, m | 0 <= g < h < |groups| && m in groups[g] ensures m !in groups[h] {
      assert Group(keys, groups[g]);
      SameGroup(keys, groups, m, m, g);
    }
  }

  lemma IdxsInOrder(live: seq<nat>, group: seq<nat>)
    requires Increasing(live) && Increasing(group) && forall m | m in group :: m < |live|
    ensures Increasing(IdxsOf(live, group)) && forall i | i in IdxsOf(live, group) :: i in live
  {
    var idxs := IdxsOf(live, group);
    forall k | 0 <= k < |idxs| ensures group[k] < |live| && idxs[k] == live[group[k]] { assert group[k] in group; }
  }

  lemma IdxsPart(n: nat, live: seq<nat>, groups: seq<seq<nat>>, parts: seq<seq<nat>>)
    requires Increasing(live) && (forall i | i in live :: i < n) && Partition(|live|, groups) && |parts| == |groups|
    requires forall p | 0 <= p < |parts| :: (forall m | m in groups[p] :: m < |live|) && parts[p] == IdxsOf(live, groups[p])
    ensures Parts(n, live, parts)
  {
    forall p | 0 <= p < |parts| ensures Increasing(parts[p]) && forall i | i in parts[p] :: i < n && i in live {
      IdxsInOrder(live, groups[p]);
    }
    forall p, q, i | 0 <= p < q < |parts| && i in parts[p] ensures i !in parts[q] {
      var k :| 0 <= k < |parts[p]| && parts[p][k] == i;
      assert groups[p][k] in groups[p];
      forall l | 0 <= l < |parts[q]| ensures parts[q][l] != i { assert groups[q][l] in groups[q]; }
    }
    forall i | i in live ensures InSome(parts, i) {
      var m :| 0 <= m < |live| && live[m] == i;
      assert InSome(groups, m);
      var g :| 0 <= g < |groups| && m in groups[g];
      var k :| 0 <= k < |groups[g]| && groups[g][k] == m;
      assert parts[g][k] == i;
    }
  }

  ghost predicate Apart(parts: seq<seq<nat>>, p: nat, done: set<nat>) {
    forall q | p <= q < |parts| :: Of(parts[q]) !! done
  }

  lemma NextApart(n: nat, live: seq<nat>, parts: seq<seq<nat>>, p: nat, done: set<nat>)
    requires Parts(n, live, parts) && p < |parts| && Apart(parts, p, done)
    ensures Apart(parts, p + 1, done + Of(parts[p]))
  {
    forall q | p + 1 <= q < |parts| ensures Of(parts[q]) !! done + Of(parts[p]) {
      forall i | i in parts[p] ensures i !in parts[q] {}
    }
  }

  /** Some indices, in parts by key. */
  method PartsBy<K(==, !new)>(n: nat, live: seq<nat>, keys: seq<K>) returns (parts: seq<seq<nat>>, ghost groups: seq<seq<nat>>)
    requires Increasing(live) && |keys| == |live| && forall i | i in live :: i < n
    ensures Parts(n, live, parts) && forall p | 0 <= p < |parts| :: parts[p] != []
    ensures Groups(keys, groups) && PartsFrom(live, groups, parts)
  {
    var gs := GroupBy(keys);
    groups := gs;
    GroupsPart(keys, gs);
    parts := PartsOf(n, live, gs);
    forall p | 0 <= p < |parts| ensures parts[p] != [] { assert Group(keys, gs[p]); }
  }

  ghost predicate PartsFrom(live: seq<nat>, groups: seq<seq<nat>>, parts: seq<seq<nat>>) {
    && |parts| == |groups|
    && forall p | 0 <= p < |parts| :: (forall m | m in groups[p] :: m < |live|) && parts[p] == IdxsOf(live, groups[p])
  }

  method PartsOf(n: nat, live: seq<nat>, groups: seq<seq<nat>>) returns (parts: seq<seq<nat>>)
    requires Increasing(live) && Partition(|live|, groups) && forall i | i in live :: i < n
    ensures Parts(n, live, parts) && PartsFrom(live, groups, parts)
  {
    parts := [];
    for g := 0 to |groups|
      invariant |parts| == g
      invariant forall p | 0 <= p < g :: (forall m | m in groups[p] :: m < |live|) && parts[p] == IdxsOf(live, groups[p])
    {
      parts := parts + [IdxsOf(live, groups[g])];
    }
    IdxsPart(n, live, groups, parts);
  }

  lemma PlaceOf(live: seq<nat>, group: seq<nat>, i: nat) returns (m: nat)
    requires (forall m | m in group :: m < |live|) && i in IdxsOf(live, group)
    ensures m in group && m < |live| && live[m] == i
  {
    var k :| 0 <= k < |group| && IdxsOf(live, group)[k] == i;
    m := group[k];
  }

  /** Two of the indices have one key exactly when they are in one part. */
  lemma PartKeys<K(!new)>(live: seq<nat>, keys: seq<K>, groups: seq<seq<nat>>, parts: seq<seq<nat>>, p: nat, q: nat, i: nat, j: nat)
    returns (m: nat, n: nat)
    requires |keys| == |live| && Groups(keys, groups) && PartsFrom(live, groups, parts)
    requires p < |parts| && q < |parts| && i in parts[p] && j in parts[q]
    ensures m < |live| && live[m] == i && n < |live| && live[n] == j && (keys[m] == keys[n] <==> p == q)
  {
    m := PlaceOf(live, groups[p], i);
    n := PlaceOf(live, groups[q], j);
    SameGroup(keys, groups, m, n, p);
    SameGroup(keys, groups, n, m, q);
  }
}
