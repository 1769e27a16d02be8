/**
 * The behaviour test/iterator.ts exercises against a live Redis, replayed on
 * the model: every scenario starts, as the test's beforeEach does, from a
 * keyspace with arbitrary contents, builds a balancer over [A, B, C] and
 * resets its key.
 */
module Scenarios {
  import opened SortedSet
  import opened Store
  import opened Rotation
  import opened CallableBalancing

  /** The three handlers test/iterator.ts declares. */
  const A := Callable("A")
  const B := Callable("B")
  const C := Callable("C")

  /** A three-member set whose members precede each other as listed is served in that order. */
  lemma RangeOfThree(z: Scores, x: string, y: string, w: string)
    requires z.Keys == {x, y, w}
    requires Precedes(z, x, y) && Precedes(z, y, w)
    ensures Range(z) == [x, y, w]
  {
    if z[x] == z[y] && z[y] == z[w] {
      LexTransitive(x, y, w);
    }
    assert Precedes(z, x, w);
    LexIrreflexive(x);
    LexIrreflexive(y);
    RangeCharacterized(z, [x, y, w]);
  }

  lemma NamesABC()
    ensures Names([A, B, C]) == ["A", "B", "C"]
    ensures Distinct(["A", "B", "C"])
    ensures Elements(["A", "B", "C"]) == {"A", "B", "C"}
  {
    var ids := ["A", "B", "C"];
    assert ids[0] == "A" && ids[1] == "B" && ids[2] == "C";
  }

  /** test/iterator.ts:22-26: the key follows the declared names and is rederived by setMethods. */
  method StoreKeyScenario(initial: Sets) returns (first: string, second: string)
    requires NoEmptySets(initial)
    ensures first == "balancer.A.B.C" && second == "balancer.C.B.A"
  {
    var store := new RedisStore(initial);
    var balancer := new CallableBalancer([A, B, C], store);
    balancer.ResetStore();
    first := balancer.GetStoreKey();
    balancer.SetMethods([C, B, A]);
    second := balancer.GetStoreKey();
    KeysOfScenario();
  }

  /** The keys derived from the declared order and from its reverse. */
  lemma KeysOfScenario()
    ensures StorePrefix + DotEach(Names([A, B, C])) == "balancer.A.B.C"
    ensures StorePrefix + DotEach(Names([C, B, A])) == "balancer.C.B.A"
  {
    NamesABC();
    var cba := Names([C, B, A]);
    assert cba == ["C", "B", "A"] by { assert cba[0] == "C" && cba[1] == "B" && cba[2] == "A"; }
    assert DotEach(["A", "B", "C"][2..]) == ".C";
    assert DotEach(["C", "B", "A"][2..]) == ".A";
  }

  /** Three names in ascending member order. */
  predicate InOrder(x: Callable, y: Callable, w: Callable)
  {
    LexLess(x.name, y.name) && LexLess(y.name, w.name)
  }

  lemma ABCInOrder()
    ensures InOrder(A, B, C)
  {
  }

  lemma InOrderDistinct(x: Callable, y: Callable, w: Callable)
    requires InOrder(x, y, w)
    ensures Names([x, y, w]) == [x.name, y.name, w.name]
    ensures Distinct([x.name, y.name, w.name])
    ensures Elements([x.name, y.name, w.name]) == {x.name, y.name, w.name}
  {
    LexTransitive(x.name, y.name, w.name);
    LexIrreflexive(x.name);
    LexIrreflexive(y.name);
    var ids := [x.name, y.name, w.name];
    assert ids[0] == x.name && ids[1] == y.name && ids[2] == w.name;
  }

  /** Scores (a, b, c) for the names of x, y, w, and nothing else. */
  ghost predicate Holds(z: Scores, x: Callable, y: Callable, w: Callable, a: int, b: int, c: int)
  {
    z.Keys == {x.name, y.name, w.name} && x.name in z && y.name in z && w.name in z &&
    z[x.name] == a && z[y.name] == b && z[w.name] == c
  }

  /** The test's beforeEach: a balancer over `methods` whose key has just been deleted. */
  method ResetBalancer(initial: Sets, methods: seq<Callable>) returns (balancer: CallableBalancer)
    requires NoEmptySets(initial) && |methods| > 0
    ensures fresh(balancer) && fresh(balancer.store) && balancer.Valid()
    ensures balancer.methods == methods && balancer.storeKey !in balancer.store.sets
  {
    var store := new RedisStore(initial);
    balancer := new CallableBalancer(methods, store);
    balancer.ResetStore();
  }

  /** The first pull on a reset key yields the first method and leaves scores 2, 1, 1. */
  method FirstPull(it: MethodIterator, x: Callable, y: Callable, w: Callable) returns (step: Step<Callable>)
    requires it.Valid() && !it.started && it.owner.Valid() && InOrder(x, y, w)
    requires it.owner.methods == [x, y, w] && it.owner.storeKey !in it.owner.store.sets
    modifies it, it.owner.store
    ensures it.Valid() && it.owner.Valid() && it.started && it.methods == it.owner.methods
    ensures step == Yield(x) && it.Pending() == [1] + [2]
    ensures Holds(Lookup(it.owner.store.sets, it.owner.storeKey), x, y, w, 2, 1, 1)
  {
    ghost var ids := [x.name, y.name, w.name];
    InOrderDistinct(x, y, w);
    FirstPullFacts(it.owner.store.sets, it.owner.storeKey, x, y, w);
    ghost var seeded := Resolve(it.owner.store.sets, it.owner.storeKey, ids).1;
    ghost var z0 := Lookup(seeded, it.owner.storeKey);
    step := StartPending(it, ids, ids, seeded, 0, [1, 2]);
    BumpOfThree(z0, x, y, w, 1, 1, 1, 0, IncValue);
  }

  /** The first pull when getRange is known to resolve `order` and leave `seeded`, and the sequence starts at `j`. */
  method StartPending(it: MethodIterator, ghost ids: seq<string>, ghost order: seq<string>, ghost seeded: Sets,
                      ghost j: nat, ghost rest: seq<nat>)
    returns (step: Step<Callable>)
    requires it.Valid() && !it.started && it.owner.Valid() && Names(it.owner.methods) == ids
    requires Resolve(it.owner.store.sets, it.owner.storeKey, ids) == (order, seeded)
    requires Trace(order, ids) == [j] + rest
    modifies it, it.owner.store
    ensures it.Valid() && it.owner.Valid() && it.started && it.methods == it.owner.methods
    ensures j < |it.methods| && step == Yield(it.methods[j]) && it.Pending() == rest
    ensures Lookup(it.owner.store.sets, it.owner.storeKey) ==
      IncrBy(Lookup(seeded, it.owner.storeKey), it.methods[j].name, IncValue)
  {
    step := it.Next();
  }

  /** A later pull whose next pending index is `j`: it yields that method and increments its name. */
  method PullPending(it: MethodIterator, ghost j: nat, ghost rest: seq<nat>) returns (step: Step<Callable>)
    requires it.Valid() && it.owner.Valid() && it.started && it.methods == it.owner.methods
    requires it.Pending() == [j] + rest
    modifies it, it.owner.store
    ensures it.Valid() && it.owner.Valid() && it.started && it.methods == old(it.methods)
    ensures j < |it.methods| && step == Yield(it.methods[j]) && it.Pending() == rest
    ensures Lookup(it.owner.store.sets, it.owner.storeKey) ==
      IncrBy(Lookup(old(it.owner.store.sets), it.owner.storeKey), it.methods[j].name, IncValue)
  {
    step := it.Next();
  }

  /** The test's zRange(key, 0, -1) read-back. */
  method ReadBack(store: RedisStore, key: string) returns (members: seq<string>)
    ensures members == Range(Lookup(store.sets, key))
  {
    members := store.ZRange(key);
  }

  /**
   * test/iterator.ts:38-60, for any three methods whose names ascend as A, B, C
   * do: on a reset key the range is empty before and after the iterator is
   * created; then successive pulls yield the three in declared order and leave
   * the stored order rotated by one each time.
   */
  method RoundRobinScenario(initial: Sets, x: Callable, y: Callable, w: Callable)
    returns (empty1: seq<string>, empty2: seq<string>, pulls: seq<Step<Callable>>, ranges: seq<seq<string>>)
    requires NoEmptySets(initial) && InOrder(x, y, w)
    ensures empty1 == [] && empty2 == []
    ensures pulls == [Yield(x), Yield(y), Yield(w)]
    ensures ranges == [[y.name, w.name, x.name], [w.name, x.name, y.name], [x.name, y.name, w.name]]
  {
    var balancer := ResetBalancer(initial, [x, y, w]);
    var key := balancer.GetStoreKey();
    empty1 := ReadBack(balancer.store, key);
    var it := balancer.GetAsyncIterator();
    empty2 := ReadBack(balancer.store, key);
    var s1, r1 := FirstPullRead(it, x, y, w);
    var s2, r2 := SecondPull(it, x, y, w);
    var s3, r3 := ThirdPull(it, x, y, w);
    pulls := [s1, s2, s3];
    ranges := [r1, r2, r3];
  }

  /** The first pull and the read-back after it. */
  method FirstPullRead(it: MethodIterator, x: Callable, y: Callable, w: Callable) returns (step: Step<Callable>, range: seq<string>)
    requires it.Valid() && !it.started && it.owner.Valid() && InOrder(x, y, w)
    requires it.owner.methods == [x, y, w] && it.owner.storeKey !in it.owner.store.sets
    modifies it, it.owner.store
    ensures it.Valid() && it.owner.Valid() && it.started && it.methods == it.owner.methods
    ensures step == Yield(x) && it.Pending() == [1] + [2] && range == [y.name, w.name, x.name]
    ensures Holds(Lookup(it.owner.store.sets, it.owner.storeKey), x, y, w, 2, 1, 1)
  {
    step := FirstPull(it, x, y, w);
    range := ReadBack(it.owner.store, it.owner.storeKey);
    RangeOfThree(Lookup(it.owner.store.sets, it.owner.storeKey), y.name, w.name, x.name);
  }

  /** The second pull yields the second method and rotates the stored order to third, first, second. */
  method SecondPull(it: MethodIterator, x: Callable, y: Callable, w: Callable) returns (step: Step<Callable>, range: seq<string>)
    requires it.Valid() && it.owner.Valid() && it.started && it.methods == it.owner.methods
    requires InOrder(x, y, w) && it.methods == [x, y, w] && it.Pending() == [1] + [2]
    requires Holds(Lookup(it.owner.store.sets, it.owner.storeKey), x, y, w, 2, 1, 1)
    modifies it, it.owner.store
    ensures it.Valid() && it.owner.Valid() && it.started && it.methods == it.owner.methods && it.methods == [x, y, w]
    ensures step == Yield(y) && it.Pending() == [2] + [] && range == [w.name, x.name, y.name]
    ensures Holds(Lookup(it.owner.store.sets, it.owner.storeKey), x, y, w, 2, 2, 1)
  {
    ghost var z1 := Lookup(it.owner.store.sets, it.owner.storeKey);
    step := PullPending(it, 1, [2]);
    assert [x, y, w][1] == y;
    RangeAfterSecond(z1, x, y, w);
    range := ReadBack(it.owner.store, it.owner.storeKey);
    assert [2] == [2] + [];
  }

  /** The third pull yields the third method and brings the stored order back to the declared one. */
  method ThirdPull(it: MethodIterator, x: Callable, y: Callable, w: Callable) returns (step: Step<Callable>, range: seq<string>)
    requires it.Valid() && it.owner.Valid() && it.started && it.methods == it.owner.methods
    requires InOrder(x, y, w) && it.methods == [x, y, w] && it.Pending() == [2] + []
    requires Holds(Lookup(it.owner.store.sets, it.owner.storeKey), x, y, w, 2, 2, 1)
    modifies it, it.owner.store
    ensures step == Yield(w) && it.Pending() == [] && range == [x.name, y.name, w.name]
    ensures Holds(Lookup(it.owner.store.sets, it.owner.storeKey), x, y, w, 2, 2, 2)
  {
    ghost var z2 := Lookup(it.owner.store.sets, it.owner.storeKey);
    step := PullPending(it, 2, []);
    assert [x, y, w][2] == w;
    RangeAfterThird(z2, x, y, w);
    range := ReadBack(it.owner.store, it.owner.storeKey);
  }

  /** On a reset key the first getRange seeds the three names and the sequence is 0, 1, 2. */
  lemma FirstPullFacts(sets: Sets, key: string, x: Callable, y: Callable, w: Callable)
    requires key !in sets && InOrder(x, y, w)
    ensures var (order, seeded) := Resolve(sets, key, [x.name, y.name, w.name]);
      && order == [x.name, y.name, w.name]
      && Trace(order, [x.name, y.name, w.name]) == [0] + [1, 2]
      && Holds(Lookup(seeded, key), x, y, w, 1, 1, 1)
  {
    InOrderDistinct(x, y, w);
    var ids := [x.name, y.name, w.name];
    ResolveFresh(sets, key, ids);
    DeclaredOrderTrace(ids);
    IotaThree();
  }

  lemma IotaThree()
    ensures Iota(3) == [0] + [1, 2]
  {
    var r := Iota(3);
    assert r[0] == 0 && r[1] == 1 && r[2] == 2;
  }

  /** One increment on a three-name set: the incremented name gains `delta`, the others keep their score. */
  lemma BumpOfThree(z0: Scores, x: Callable, y: Callable, w: Callable, a: int, b: int, c: int, who: nat, delta: int)
    requires InOrder(x, y, w) && Holds(z0, x, y, w, a, b, c) && who < 3
    ensures Holds(IncrBy(z0, [x, y, w][who].name, delta), x, y, w,
      if who == 0 then a + delta else a, if who == 1 then b + delta else b, if who == 2 then c + delta else c)
  {
    InOrderDistinct(x, y, w);
    LexTransitive(x.name, y.name, w.name);
    LexIrreflexive(x.name);
    LexIrreflexive(y.name);
    var m := [x, y, w][who].name;
    var z := IncrBy(z0, m, delta);
    assert Score(z0, m) == z0[m];
    if who == 0 {
      assert m == x.name && z[x.name] == a + delta && z[y.name] == b && z[w.name] == c;
    } else if who == 1 {
      assert m == y.name && z[x.name] == a && z[y.name] == b + delta && z[w.name] == c;
    } else {
      assert m == w.name && z[x.name] == a && z[y.name] == b && z[w.name] == c + delta;
    }
  }

  /** After the second pull, the stored order is the third, first, second. */
  lemma RangeAfterSecond(z0: Scores, x: Callable, y: Callable, w: Callable)
    requires InOrder(x, y, w) && Holds(z0, x, y, w, 2, 1, 1)
    ensures Holds(IncrBy(z0, y.name, IncValue), x, y, w, 2, 2, 1)
    ensures Range(IncrBy(z0, y.name, IncValue)) == [w.name, x.name, y.name]
  {
    BumpOfThree(z0, x, y, w, 2, 1, 1, 1, IncValue);
    LexTransitive(x.name, y.name, w.name);
    RangeOfThree(IncrBy(z0, y.name, IncValue), w.name, x.name, y.name);
  }

  /** After the third pull, every name is at 2 and the stored order is the declared one. */
  lemma RangeAfterThird(z0: Scores, x: Callable, y: Callable, w: Callable)
    requires InOrder(x, y, w) && Holds(z0, x, y, w, 2, 2, 1)
    ensures Holds(IncrBy(z0, w.name, IncValue), x, y, w, 2, 2, 2)
    ensures Range(IncrBy(z0, w.name, IncValue)) == [x.name, y.name, w.name]
  {
    BumpOfThree(z0, x, y, w, 2, 2, 1, 2, IncValue);
    RangeOfThree(IncrBy(z0, w.name, IncValue), x.name, y.name, w.name);
  }

  /**
   * test/iterator.ts:62-71, for any three methods whose names ascend: after one
   * pull (the first method) and an explicit +2 on the second, a new iterator
   * serves the stored order [third, first, second] and yields the third first.
   */
  method TwoIteratorsScenario(initial: Sets, x: Callable, y: Callable, w: Callable) returns (first: Step<Callable>)
    requires NoEmptySets(initial) && InOrder(x, y, w)
    ensures first == Yield(w)
  {
    var balancer := ResetBalancer(initial, [x, y, w]);
    var it := balancer.GetAsyncIterator();
    var _ := FirstPull(it, x, y, w);
    first := BonusThenRestart(balancer, x, y, w);
  }

  /** +2 on the second method after one pull, then a new iterator's first pull. */
  method BonusThenRestart(balancer: CallableBalancer, x: Callable, y: Callable, w: Callable) returns (first: Step<Callable>)
    requires balancer.Valid() && InOrder(x, y, w) && balancer.methods == [x, y, w]
    requires Holds(Lookup(balancer.store.sets, balancer.storeKey), x, y, w, 2, 1, 1)
    modifies balancer.store
    ensures first == Yield(w)
  {
    ghost var z1 := Lookup(balancer.store.sets, balancer.storeKey);
    balancer.IncreaseMethodRank(y, 2);
    InOrderDistinct(x, y, w);
    BumpedSecond(balancer.store.sets, balancer.storeKey, z1, x, y, w);
    var it := balancer.GetAsyncIterator();
    first := StartPending(it, [x.name, y.name, w.name], [w.name, x.name, y.name], balancer.store.sets, 2, [0, 1]);
    assert [x, y, w][2] == w;
  }

  /** After the first was served once and the second got +2, the stored order is the third, first, second. */
  lemma RangeAfterBonus(z0: Scores, x: Callable, y: Callable, w: Callable)
    requires InOrder(x, y, w) && Holds(z0, x, y, w, 2, 1, 1)
    ensures |IncrBy(z0, y.name, 2)| == 3
    ensures Range(IncrBy(z0, y.name, 2)) == [w.name, x.name, y.name]
  {
    BumpOfThree(z0, x, y, w, 2, 1, 1, 1, 2);
    LexTransitive(x.name, y.name, w.name);
    var z := IncrBy(z0, y.name, 2);
    RangeOfThree(z, w.name, x.name, y.name);
  }

  /** The served order [third, first, second] yields indices 2, 0, 1. */
  lemma TraceOfRotated(x: Callable, y: Callable, w: Callable)
    requires InOrder(x, y, w)
    ensures Trace([w.name, x.name, y.name], [x.name, y.name, w.name]) == [2] + [0, 1]
  {
    InOrderDistinct(x, y, w);
    var ids := [x.name, y.name, w.name];
    PositionsOfDistinct(ids, 2, 0);
    PositionsOfDistinct(ids, 0, 0);
    PositionsOfDistinct(ids, 1, 0);
    var order := [w.name, x.name, y.name];
    assert Trace(order[2..], ids) == [1] by {
      assert order[2..][1..] == [];
    }
    assert Trace(order[1..], ids) == [0, 1] by {
      assert order[1..][1..] == order[2..];
    }
  }

  /** After the first was served once and the second got +2, getRange keeps the set and serves [third, first, second]. */
  lemma BumpedSecond(sets: Sets, key: string, z0: Scores, x: Callable, y: Callable, w: Callable)
    requires InOrder(x, y, w) && Holds(z0, x, y, w, 2, 1, 1) && Lookup(sets, key) == IncrBy(z0, y.name, 2)
    ensures var (order, sets') := Resolve(sets, key, [x.name, y.name, w.name]);
      && sets' == sets && order == [w.name, x.name, y.name]
      && Trace(order, [x.name, y.name, w.name]) == [2] + [0, 1]
  {
    RangeAfterBonus(z0, x, y, w);
    ResolveSettled(sets, key, [x.name, y.name, w.name]);
    TraceOfRotated(x, y, w);
  }

  /**
   * test/iterator.ts:28-36, for any methods with distinct names: on a reset key a
   * full pull yields the methods in declared order and leaves every name at score 2.
   */
  method CallableFirstRun(initial: Sets, methods: seq<Callable>) returns (yielded: seq<Callable>, scores: Scores)
    requires NoEmptySets(initial) && |methods| > 0 && Distinct(Names(methods))
    ensures yielded == methods
    ensures scores.Keys == Elements(Names(methods))
    ensures forall m :: m in scores ==> scores[m] == InitialScore + IncValue
  {
    var balancer := ResetBalancer(initial, methods);
    var it := balancer.GetAsyncIterator();
    ghost var ids := Names(methods);
    ghost var seed := map m | m in Elements(ids) :: InitialScore;
    ghost var seeded := balancer.store.sets[balancer.storeKey := seed];
    ResolveFresh(balancer.store.sets, balancer.storeKey, ids);
    DeclaredOrderTrace(ids);
    assert Iota(|ids|) == [0] + Iota(|ids|)[1..];
    var step := StartPending(it, ids, ids, seeded, 0, Iota(|ids|)[1..]);
    BumpedNext(seed, ids, 0);
    assert AfterPull(it, ids, seed, 0, step);
    yielded := DrainDeclared(it, ids, seed, step);
    scores := Lookup(balancer.store.sets, balancer.storeKey);
    FullPassScores(ids);
  }

  /**
   * The test's for-await loop over a sequence that serves the declared order,
   * entered after the first pull: it collects every method in turn and stops at the end.
   */
  method DrainDeclared(it: MethodIterator, ghost ids: seq<string>, ghost seed: Scores, first: Step<Callable>)
    returns (yielded: seq<Callable>)
    requires it.Valid() && it.owner.Valid() && it.started && it.methods == it.owner.methods
    requires Names(it.methods) == ids && AfterPull(it, ids, seed, 0, first)
    modifies it, it.owner.store
    ensures it.methods == old(it.methods) && yielded == it.methods
    ensures Lookup(it.owner.store.sets, it.owner.storeKey) == Bumped(seed, ids)
  {
    var step := first;
    yielded := [];
    while step.Yield?
      invariant it.Valid() && it.owner.Valid() && it.started && it.methods == it.owner.methods
      invariant it.methods == old(it.methods) && |yielded| <= |ids| && yielded == it.methods[..|yielded|]
      invariant AfterPull(it, ids, seed, |yielded|, step)
      decreases |ids| - |yielded|
    {
      PrefixGrows(it.methods, |yielded|);
      yielded := yielded + [step.item];
      step := PullDeclared(it, ids, seed, |yielded|);
    }
  }

  /**
   * Where a sequence over the declared order stands after pull `k` (counted from 0):
   * it yielded method k and every name up to it was incremented once, or, past the
   * last method, it ended with every name incremented once.
   */
  ghost predicate AfterPull(it: MethodIterator, ids: seq<string>, seed: Scores, k: nat, step: Step<Callable>)
    reads it, it.owner, it.owner.store
  {
    |ids| == |it.methods| && k <= |ids| &&
    if k < |ids| then
      step == Yield(it.methods[k]) && it.Pending() == Iota(|ids|)[k + 1..] &&
      Lookup(it.owner.store.sets, it.owner.storeKey) == Bumped(seed, ids[..k + 1])
    else
      step == Done && Lookup(it.owner.store.sets, it.owner.storeKey) == Bumped(seed, ids)
  }

  /** Pull `k` (counted from 0) of a sequence over the declared order, after pull k - 1. */
  method PullDeclared(it: MethodIterator, ghost ids: seq<string>, ghost seed: Scores, k: nat) returns (step: Step<Callable>)
    requires it.Valid() && it.owner.Valid() && it.started && it.methods == it.owner.methods
    requires Names(it.methods) == ids && 0 < k <= |ids| && it.Pending() == Iota(|ids|)[k..]
    requires Lookup(it.owner.store.sets, it.owner.storeKey) == Bumped(seed, ids[..k])
    modifies it, it.owner.store
    ensures it.Valid() && it.owner.Valid() && it.started && it.methods == old(it.methods)
    ensures AfterPull(it, ids, seed, k, step)
  {
    if k < |it.methods| {
      assert Iota(|ids|)[k..] == [k] + Iota(|ids|)[k + 1..];
      step := PullPending(it, k, Iota(|ids|)[k + 1..]);
      BumpedNext(seed, ids, k);
    } else {
      assert it.Pending() == [];
      step := PullEnd(it);
      assert ids[..k] == ids;
    }
  }

  /** A pull with nothing pending ends the sequence and writes nothing. */
  method PullEnd(it: MethodIterator) returns (step: Step<Callable>)
    requires it.Valid() && it.owner.Valid() && it.started && it.methods == it.owner.methods
    requires it.Pending() == []
    modifies it, it.owner.store
    ensures it.Valid() && it.owner.Valid() && it.started && it.methods == old(it.methods)
    ensures step == Done && it.owner.store.sets == old(it.owner.store.sets)
  {
    step := it.Next();
  }
}
