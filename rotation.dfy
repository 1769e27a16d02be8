/**
 * The rank-ordered round-robin protocol both balancers follow, stated over the
 * list of identifiers of the current items (method names in the TypeScript
 * balancer, stringified indices in the JavaScript one):
 *  - resolving the serving order from the stored sorted set (`getRange`),
 *  - which items one sequence yields, in which order (`getAsyncIterator`),
 *  - which score increments a sequence leaves behind.
 */
module Rotation {
  import opened SortedSet
  import opened Store

  /** What one pull of a sequence returns: the next item, or the end of the sequence. */
  datatype Step<T> = Yield(item: T) | Done

  /** The default rank each item is seeded with. */
  const InitialScore := 1

  /** INC_VALUE: the increment a selection adds to the selected item's rank. */
  const IncValue := 1

  /** The identifiers `ids` mentions. */
  function Elements(ids: seq<string>): set<string>
  {
    set k | 0 <= k < |ids| :: ids[k]
  }

  /** `ids` has no identifier twice. */
  ghost predicate Distinct(ids: seq<string>)
  {
    forall a, b :: 0 <= a < b < |ids| ==> ids[a] != ids[b]
  }

  // ---------------------------------------------------------------------------
  // getRange

  /** The ZADD arguments "1", id for every identifier, in declared order. */
  function Seeds(ids: seq<string>): (pairs: seq<(int, string)>)
    ensures |pairs| == |ids|
    ensures forall k :: 0 <= k < |ids| ==> pairs[k] == (InitialScore, ids[k])
  {
    seq(|ids|, k requires 0 <= k < |ids| => (InitialScore, ids[k]))
  }

  /** The stored set disagrees with the items in its member count. */
  predicate Stale(z: Scores, ids: seq<string>)
  {
    |Range(z)| != |ids|
  }

  /**
   * getRange on the whole keyspace: read the set under `key`; when it is stale,
   * seed every identifier with score 1 under NX and serve the declared order,
   * otherwise serve the stored ascending order and write nothing.
   */
  function Resolve(sets: Sets, key: string, ids: seq<string>): (res: (seq<string>, Sets))
    requires |ids| > 0
  {
    var z := Lookup(sets, key);
    if Stale(z, ids) then (ids, sets[key := AddNX(z, Seeds(ids))]) else (Range(z), sets)
  }

  lemma FirstMentionOf(pairs: seq<(int, string)>, m: string) returns (k: nat)
    requires m in Members(pairs)
    ensures k < |pairs| && pairs[k].1 == m && FirstMention(pairs, k)
  {
    var i :| 0 <= i < |pairs| && pairs[i].1 == m;
    k := 0;
    while pairs[k].1 != m
      invariant k <= i
      invariant forall e :: 0 <= e < k ==> pairs[e].1 != m
      decreases i - k
    {
      k := k + 1;
    }
  }

  /** The identifiers the seeding names are exactly the items' identifiers. */
  lemma SeedMembers(ids: seq<string>)
    ensures Members(Seeds(ids)) == Elements(ids)
  {
    var pairs := Seeds(ids);
    forall m | m in Members(pairs) ensures m in Elements(ids) {
      var k :| 0 <= k < |pairs| && pairs[k].1 == m;
    }
    forall m | m in Elements(ids) ensures m in Members(pairs) {
      var k :| 0 <= k < |ids| && ids[k] == m;
      assert pairs[k].1 == m;
    }
  }

  /** Seeding under NX gives every missing identifier score 1 and touches no present member. */
  lemma SeededScores(z: Scores, ids: seq<string>)
    ensures var r := AddNX(z, Seeds(ids));
      && r.Keys == z.Keys + Elements(ids)
      && (forall m :: m in z ==> r[m] == z[m])
      && (forall m :: m in r && m !in z ==> r[m] == InitialScore)
  {
    SeedMembers(ids);
    AddNXKeys(z, Seeds(ids));
    forall m | m in AddNX(z, Seeds(ids)) && m !in z ensures AddNX(z, Seeds(ids))[m] == InitialScore {
      SeedScore(z, ids, m);
    }
  }

  /** A member the seeding added carries the seed score. */
  lemma SeedScore(z: Scores, ids: seq<string>, m: string)
    requires m in AddNX(z, Seeds(ids)) && m !in z
    ensures AddNX(z, Seeds(ids))[m] == InitialScore
  {
    SeedMembers(ids);
    AddNXKeys(z, Seeds(ids));
    var k := FirstMentionOf(Seeds(ids), m);
    AddNXFirst(z, Seeds(ids), k);
  }

  /**
   * A stale set: the declared order is served, every identifier is present
   * afterwards, stored members keep their scores, new ones get 1, and no other
   * key changes.
   */
  lemma ResolveStale(sets: Sets, key: string, ids: seq<string>)
    requires |ids| > 0 && |Lookup(sets, key)| != |ids|
    ensures var (order, sets') := Resolve(sets, key, ids);
      var z, z' := Lookup(sets, key), Lookup(sets', key);
      && order == ids
      && sets'.Keys == sets.Keys + {key}
      && (forall k :: k in sets && k != key ==> sets'[k] == sets[k])
      && z'.Keys == z.Keys + Elements(ids)
      && (forall m :: m in z ==> z'[m] == z[m])
      && (forall m :: m in z' && m !in z ==> z'[m] == InitialScore)
  {
    SeededScores(Lookup(sets, key), ids);
  }

  /** The order part of `ResolveStale` for a stale set just written under the key. */
  lemma StaleServesDeclared(sets: Sets, key: string, ids: seq<string>, z: Scores)
    requires |ids| > 0 && Stale(z, ids)
    ensures Resolve(sets[key := z], key, ids).0 == ids
  {
    assert Lookup(sets[key := z], key) == z;
    ResolveStale(sets[key := z], key, ids);
  }

  /** A set whose member count matches is served in stored order, and nothing is written. */
  lemma ResolveSettled(sets: Sets, key: string, ids: seq<string>)
    requires |ids| > 0 && |Lookup(sets, key)| == |ids|
    ensures Resolve(sets, key, ids) == (Range(Lookup(sets, key)), sets)
  {
  }

  /** On a key that holds nothing, every identifier is seeded with 1 and the declared order is served. */
  lemma ResolveFresh(sets: Sets, key: string, ids: seq<string>)
    requires |ids| > 0 && key !in sets
    ensures var (order, sets') := Resolve(sets, key, ids);
      && order == ids
      && sets' == sets[key := map m | m in Elements(ids) :: InitialScore]
  {
    SeedsOnEmpty(ids);
    assert Lookup(sets, key) == map[];
  }

  /** Seeding an empty set gives exactly the identifiers, each with score 1. */
  lemma SeedsOnEmpty(ids: seq<string>)
    ensures AddNX(map[], Seeds(ids)) == map m | m in Elements(ids) :: InitialScore
  {
    SeededScores(map[], ids);
    var want := map m | m in Elements(ids) :: InitialScore;
    var got := AddNX(map[], Seeds(ids));
    assert got.Keys == want.Keys;
    assert forall m :: m in got ==> got[m] == want[m];
  }

  lemma DistinctCard(ids: seq<string>)
    requires Distinct(ids)
    ensures |Elements(ids)| == |ids|
    decreases |ids|
  {
    if |ids| > 0 {
      var init := ids[..|ids| - 1];
      DistinctCard(init);
      assert Elements(ids) == Elements(init) + {ids[|ids| - 1]};
      assert ids[|ids| - 1] !in Elements(init);
    }
  }

  /**
   * Re-initialisation settles the rotation: when the identifiers are distinct and the
   * stored set holds no stranger, one getRange leaves a set the next getRange serves as stored.
   */
  lemma ResolveSettles(sets: Sets, key: string, ids: seq<string>)
    requires |ids| > 0 && Distinct(ids)
    requires Lookup(sets, key).Keys <= Elements(ids)
    ensures var sets' := Resolve(sets, key, ids).1;
      && Lookup(sets', key).Keys == Elements(ids)
      && Resolve(sets', key, ids) == (Range(Lookup(sets', key)), sets')
  {
    var sets' := Resolve(sets, key, ids).1;
    ResolvedMembers(sets, key, ids);
    DistinctCard(ids);
    var z' := Lookup(sets', key);
    assert |z'| == |z'.Keys|;
    ResolveSettled(sets', key, ids);
  }

  lemma ResolvedMembers(sets: Sets, key: string, ids: seq<string>)
    requires |ids| > 0 && Distinct(ids)
    requires Lookup(sets, key).Keys <= Elements(ids)
    ensures Lookup(Resolve(sets, key, ids).1, key).Keys == Elements(ids)
  {
    var z := Lookup(sets, key);
    if |z| != |ids| {
      SeededScores(z, ids);
    } else {
      DistinctCard(ids);
      SubsetSameSize(z.Keys, Elements(ids));
    }
  }

  lemma SubsetSameSize(a: set<string>, b: set<string>)
    requires a <= b && |a| == |b|
    ensures a == b
  {
    assert b == a + (b - a);
    assert a * (b - a) == {};
    assert |b - a| == 0;
  }

  // ---------------------------------------------------------------------------
  // getAsyncIterator: which positions a sequence yields

  /**
   * The positions (into `ids`) the iterator's nested loops match, resuming at
   * stored entry `i` and item `j`: the outer loop walks `order`, the inner loop
   * walks the items, and every item whose identifier equals the entry matches.
   */
  function Matches(order: seq<string>, ids: seq<string>, i: nat, j: nat): seq<nat>
    decreases |order| - i, |ids| - j
  {
    if i >= |order| then []
    else if j >= |ids| then Matches(order, ids, i + 1, 0)
    else if ids[j] == order[i] then [j] + Matches(order, ids, i, j + 1)
    else Matches(order, ids, i, j + 1)
  }

  /**
   * The nested loops of the generator body, resumed at (i0, j0) and run until the
   * next item whose identifier equals the current stored entry, or to the end.
   */
  method FindMatch(order: seq<string>, ids: seq<string>, i0: nat, j0: nat) returns (i: nat, j: nat)
    requires i0 <= |order| && j0 <= |ids|
    ensures i <= |order| && j <= |ids|
    ensures i == |order| ==> Matches(order, ids, i0, j0) == []
    ensures i < |order| ==>
      j < |ids| && ids[j] == order[i] && Matches(order, ids, i0, j0) == [j] + Matches(order, ids, i, j + 1)
  {
    i, j := i0, j0;
    while i < |order| && !(j < |ids| && ids[j] == order[i])
      invariant i <= |order| && j <= |ids|
      invariant Matches(order, ids, i, j) == Matches(order, ids, i0, j0)
      decreases |order| - i, |ids| - j
    {
      if j < |ids| {
        j := j + 1;
      } else {
        i, j := i + 1, 0;
      }
    }
  }

  /** The positions from `j` on whose identifier is `name`, ascending. */
  function Positions(ids: seq<string>, name: string, j: nat): seq<nat>
    decreases |ids| - j
  {
    if j >= |ids| then [] else (if ids[j] == name then [j] else []) + Positions(ids, name, j + 1)
  }

  /** Reference definition of one full sequence: for each stored entry in turn, every item it names. */
  function Trace(order: seq<string>, ids: seq<string>): seq<nat>
  {
    if |order| == 0 then [] else Positions(ids, order[0], 0) + Trace(order[1..], ids)
  }

  /** The loop state machine, resumed at (i, j), produces the rest of the reference sequence. */
  lemma {:induction false} MatchesAsTrace(order: seq<string>, ids: seq<string>, i: nat, j: nat)
    requires i < |order|
    ensures Matches(order, ids, i, j) == Positions(ids, order[i], j) + Trace(order[i + 1..], ids)
    decreases |order| - i, |ids| - j
  {
    if j >= |ids| {
      if i + 1 < |order| {
        MatchesAsTrace(order, ids, i + 1, 0);
        assert order[i + 1..][1..] == order[i + 2..];
      } else {
        assert order[i + 1..] == [];
      }
    } else {
      MatchesAsTrace(order, ids, i, j + 1);
    }
  }

  /** A fresh loop state produces exactly the reference sequence. */
  lemma MatchesFromStart(order: seq<string>, ids: seq<string>)
    ensures Matches(order, ids, 0, 0) == Trace(order, ids)
  {
    if |order| > 0 {
      MatchesAsTrace(order, ids, 0, 0);
      assert order[1..] == order[0 + 1..];
    }
  }

  /** Among the indices from `j` on whose identifier is `name`, index `k` occurs once if it qualifies, else never. */
  lemma {:induction false} PositionsCount(ids: seq<string>, name: string, j: nat, k: nat)
    requires k < |ids|
    ensures multiset(Positions(ids, name, j))[k] == if j <= k && ids[k] == name then 1 else 0
    decreases |ids| - j
  {
    if j < |ids| {
      PositionsCount(ids, name, j + 1, k);
      PositionsSplit(ids, name, j, k);
      if k == j {
        assert multiset(Positions(ids, name, j + 1))[k] == 0;
        assert multiset(Positions(ids, name, j))[k] == if ids[k] == name then 1 else 0;
      } else if k < j {
        assert multiset(Positions(ids, name, j))[k] == 0;
      } else {
        assert multiset(Positions(ids, name, j))[k] == multiset(Positions(ids, name, j + 1))[k];
      }
    } else {
      assert Positions(ids, name, j) == [];
      assert multiset(Positions(ids, name, j))[k] == 0;
    }
  }

  /** The count of `k` among the matches from `j` splits into position `j` and the rest. */
  lemma PositionsSplit(ids: seq<string>, name: string, j: nat, k: nat)
    requires j < |ids|
    ensures multiset(Positions(ids, name, j))[k] ==
      (if ids[j] == name && k == j then 1 else 0) + multiset(Positions(ids, name, j + 1))[k]
  {
    var head: seq<nat> := if ids[j] == name then [j] else [];
    var tail := Positions(ids, name, j + 1);
    assert Positions(ids, name, j) == head + tail;
    assert multiset(head + tail) == multiset(head) + multiset(tail);
  }

  lemma {:induction false} PositionsNamed(ids: seq<string>, name: string, j: nat)
    ensures forall x :: 0 <= x < |Positions(ids, name, j)| ==>
      j <= Positions(ids, name, j)[x] < |ids| && ids[Positions(ids, name, j)[x]] == name
    decreases |ids| - j
  {
    if j < |ids| {
      PositionsNamed(ids, name, j + 1);
    }
  }

  /** Item `k` is yielded exactly as often as its identifier occurs in the stored order. */
  lemma {:induction false} TraceCount(order: seq<string>, ids: seq<string>, k: nat)
    requires k < |ids|
    ensures multiset(Trace(order, ids))[k] == multiset(order)[ids[k]]
  {
    if |order| > 0 {
      TraceCount(order[1..], ids, k);
      TraceCountStep(order, ids, k);
      OrderCountStep(order, ids[k]);
    } else {
      assert order == [];
    }
  }

  /** The first stored entry contributes item `k` once if it names it, else not at all. */
  lemma TraceCountStep(order: seq<string>, ids: seq<string>, k: nat)
    requires |order| > 0 && k < |ids|
    ensures multiset(Trace(order, ids))[k] ==
      (if order[0] == ids[k] then 1 else 0) + multiset(Trace(order[1..], ids))[k]
  {
    PositionsCount(ids, order[0], 0, k);
    var p: seq<nat>, r: seq<nat> := Positions(ids, order[0], 0), Trace(order[1..], ids);
    assert Trace(order, ids) == p + r;
    assert multiset(p + r) == multiset(p) + multiset(r);
  }

  lemma OrderCountStep(order: seq<string>, x: string)
    requires |order| > 0
    ensures multiset(order)[x] == (if order[0] == x then 1 else 0) + multiset(order[1..])[x]
  {
    assert order == [order[0]] + order[1..];
    assert multiset(order) == multiset([order[0]]) + multiset(order[1..]);
  }

  /** Every yield is an item whose identifier some stored entry names. */
  lemma {:induction false} TraceNamed(order: seq<string>, ids: seq<string>)
    ensures forall x :: 0 <= x < |Trace(order, ids)| ==>
      Trace(order, ids)[x] < |ids| && ids[Trace(order, ids)[x]] in order
  {
    if |order| > 0 {
      TraceNamed(order[1..], ids);
      PositionsNamed(ids, order[0], 0);
      var t := Trace(order, ids);
      var p := Positions(ids, order[0], 0);
      forall x | 0 <= x < |t| ensures t[x] < |ids| && ids[t[x]] in order {
        if x >= |p| {
          assert t[x] == Trace(order[1..], ids)[x - |p|];
        }
      }
    }
  }

  /** The sequence over concatenated orders is the concatenation of the sequences. */
  lemma {:induction false} TraceAppend(a: seq<string>, b: seq<string>, ids: seq<string>)
    ensures Trace(a + b, ids) == Trace(a, ids) + Trace(b, ids)
    decreases |a|
  {
    if |a| > 0 {
      assert (a + b)[0] == a[0] && (a + b)[1..] == a[1..] + b;
      TraceAppend(a[1..], b, ids);
    } else {
      assert a + b == b;
    }
  }

  lemma {:induction false} PositionsNone(ids: seq<string>, name: string, j: nat)
    requires forall k :: j <= k < |ids| ==> ids[k] != name
    ensures Positions(ids, name, j) == []
    decreases |ids| - j
  {
    if j < |ids| {
      PositionsNone(ids, name, j + 1);
    }
  }

  /** Drift tolerance: a stored entry that names no item is skipped and changes nothing else. */
  lemma DriftSkipped(a: seq<string>, x: string, b: seq<string>, ids: seq<string>)
    requires x !in ids
    ensures Trace(a + [x] + b, ids) == Trace(a + b, ids)
  {
    TraceAppend(a + [x], b, ids);
    TraceAppend(a, [x], ids);
    TraceAppend(a, b, ids);
    PositionsNone(ids, x, 0);
    assert Trace([x], ids) == Positions(ids, x, 0) + Trace([], ids);
  }

  lemma {:induction false} PositionsOfDistinct(ids: seq<string>, i: nat, j: nat)
    requires Distinct(ids) && j <= i < |ids|
    ensures Positions(ids, ids[i], j) == [i]
    decreases |ids| - j
  {
    if j == i {
      PositionsNone(ids, ids[i], i + 1);
    } else {
      PositionsOfDistinct(ids, i, j + 1);
    }
  }

  /** With distinct identifiers a sequence yields at most one item per stored entry. */
  lemma {:induction false} TraceBounded(order: seq<string>, ids: seq<string>)
    requires Distinct(ids)
    ensures |Trace(order, ids)| <= |order|
    decreases |order|
  {
    if |order| > 0 {
      TraceBounded(order[1..], ids);
      if k :| 0 <= k < |ids| && ids[k] == order[0] {
        PositionsOfDistinct(ids, k, 0);
      } else {
        PositionsNone(ids, order[0], 0);
      }
    }
  }

  /** The positions 0 .. n-1 in ascending order. */
  function Iota(n: nat): (r: seq<nat>)
    ensures |r| == n && forall k :: 0 <= k < n ==> r[k] == k
  {
    seq(n, k requires 0 <= k => k)
  }

  /** Served in declared order, distinct items come out in declared order, each once. */
  lemma DeclaredOrderTrace(ids: seq<string>)
    requires Distinct(ids)
    ensures Trace(ids, ids) == Iota(|ids|)
  {
    DeclaredSuffix(ids, 0);
    assert ids[0..] == ids;
  }

  lemma {:induction false} DeclaredSuffix(ids: seq<string>, i: nat)
    requires Distinct(ids) && i <= |ids|
    ensures Trace(ids[i..], ids) == seq(|ids| - i, k requires 0 <= k => i + k)
    decreases |ids| - i
  {
    if i < |ids| {
      DeclaredSuffix(ids, i + 1);
      PositionsOfDistinct(ids, i, 0);
      var s := ids[i..];
      assert s[0] == ids[i] && s[1..] == ids[i + 1..];
      var rest := seq(|ids| - (i + 1), k requires 0 <= k => i + 1 + k);
      assert Trace(s, ids) == [i] + rest;
      assert [i] + rest == seq(|ids| - i, k requires 0 <= k => i + k);
    } else {
      assert ids[i..] == [];
    }
  }

  // ---------------------------------------------------------------------------
  // Score deltas a sequence leaves behind

  /** The set after one ZINCRBY of INC_VALUE per selected identifier, in selection order. */
  function Bumped(z: Scores, names: seq<string>): Scores
    decreases |names|
  {
    if |names| == 0 then z else IncrBy(Bumped(z, names[..|names| - 1]), names[|names| - 1], IncValue)
  }

  /** Each member ends up with its old score plus one per time it was selected; no member disappears. */
  lemma {:induction false} BumpedScores(z: Scores, names: seq<string>, m: string)
    ensures Score(Bumped(z, names), m) == Score(z, m) + multiset(names)[m] * IncValue
    ensures Bumped(z, names).Keys == z.Keys + Elements(names)
    decreases |names|
  {
    if |names| > 0 {
      var init := names[..|names| - 1];
      BumpedScores(z, init, m);
      assert names == init + [names[|names| - 1]];
      assert (Elements(names)) == Elements(init) + {names[|names| - 1]};
    }
  }

  /** A prefix one longer is the prefix plus the next element. */
  lemma PrefixGrows<T>(s: seq<T>, k: nat)
    requires k < |s|
    ensures s[..k + 1] == s[..k] + [s[k]]
  {
  }

  /** Selecting one more declared name is one more increment. */
  lemma BumpedNext(z: Scores, ids: seq<string>, k: nat)
    requires k < |ids|
    ensures Bumped(z, ids[..k + 1]) == IncrBy(Bumped(z, ids[..k]), ids[k], IncValue)
  {
    assert ids[..k + 1][..k] == ids[..k];
  }

  lemma DistinctOnce(ids: seq<string>, m: string)
    requires Distinct(ids) && m in Elements(ids)
    ensures multiset(ids)[m] == 1
  {
    var k :| 0 <= k < |ids| && ids[k] == m;
    assert ids == ids[..k] + [m] + ids[k + 1..];
    assert m !in ids[..k] && m !in ids[k + 1..] by {
      forall e | 0 <= e < |ids| && e != k ensures ids[e] != m {
        if e < k { assert ids[e] != ids[k]; } else { assert ids[k] != ids[e]; }
      }
    }
    assert multiset(ids) == multiset(ids[..k]) + multiset{m} + multiset(ids[k + 1..]);
  }

  /** A full pass over freshly seeded distinct identifiers leaves each of them at score 2. */
  lemma FullPassScores(ids: seq<string>)
    requires Distinct(ids)
    ensures var z := Bumped(map m | m in Elements(ids) :: InitialScore, ids);
      && z.Keys == Elements(ids)
      && forall m :: m in z ==> z[m] == InitialScore + IncValue
  {
    var seeded := map m | m in Elements(ids) :: InitialScore;
    var z := Bumped(seeded, ids);
    forall m | m in z ensures z[m] == InitialScore + IncValue {
      BumpedScores(seeded, ids, m);
      DistinctOnce(ids, m);
    }
    BumpedScores(seeded, ids, "");
  }
}
