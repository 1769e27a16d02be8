/**
 * The JavaScript balancer's first run on a reset key: whatever the records
 * (repeated ones included, since identities are indices), a full pull of the
 * generator yields them in order and leaves every index identifier at score 2.
 */
module RecordScenarios {
  import opened SortedSet
  import opened Store
  import opened Rotation
  import opened Decimal
  import opened RedisBalancing

  /** A balancer over `data` under `prefix`, with its key deleted from an arbitrary keyspace. */
  method ResetRecords<T(==)>(initial: Sets, data: seq<T>, prefix: string) returns (balancer: RedisBalancer<T>)
    requires NoEmptySets(initial) && |data| > 0
    ensures fresh(balancer) && fresh(balancer.store) && balancer.Valid()
    ensures balancer.data == data && balancer.redisPrefix == prefix && prefix !in balancer.store.sets
  {
    var store := new RedisStore(initial);
    balancer := new RedisBalancer(data, store, prefix);
    balancer.ResetStore();
  }

  /** The first pull when getRange is known to resolve `order` and leave `seeded`, and the sequence starts at `j`. */
  method RecordStartPending<T(==)>(it: RecordIterator<T>, ghost ids: seq<string>, ghost order: seq<string>,
                                   ghost seeded: Sets, ghost j: nat, ghost rest: seq<nat>)
    returns (step: Step<T>)
    requires it.Valid() && !it.started && it.owner.Valid() && ids == IndexIds(|it.owner.data|)
    requires Resolve(it.owner.store.sets, it.owner.redisPrefix, ids) == (order, seeded)
    requires Trace(order, ids) == [j] + rest
    modifies it, it.owner.store
    ensures it.Valid() && it.owner.Valid() && it.started && it.data == it.owner.data
    ensures j < |it.data| && step == Yield(it.data[j]) && it.Pending() == rest
    ensures Lookup(it.owner.store.sets, it.owner.redisPrefix) ==
      IncrBy(Lookup(seeded, it.owner.redisPrefix), NatToString(j), IncValue)
  {
    step := it.Next();
  }

  /** A later pull whose next pending index is `j`: it yields that record and increments its index. */
  method RecordPullPending<T(==)>(it: RecordIterator<T>, ghost j: nat, ghost rest: seq<nat>) returns (step: Step<T>)
    requires it.Valid() && it.owner.Valid() && it.started && it.data == it.owner.data
    requires it.Pending() == [j] + rest
    modifies it, it.owner.store
    ensures it.Valid() && it.owner.Valid() && it.started && it.data == old(it.data) && it.data == it.owner.data
    ensures j < |it.data| && step == Yield(it.data[j]) && it.Pending() == rest
    ensures Lookup(it.owner.store.sets, it.owner.redisPrefix) ==
      IncrBy(Lookup(old(it.owner.store.sets), it.owner.redisPrefix), NatToString(j), IncValue)
  {
    step := it.Next();
  }

  /** A pull with nothing pending ends the sequence and writes nothing. */
  method RecordPullEnd<T(==)>(it: RecordIterator<T>) returns (step: Step<T>)
    requires it.Valid() && it.owner.Valid() && it.started && it.data == it.owner.data
    requires it.Pending() == []
    modifies it, it.owner.store
    ensures it.Valid() && it.owner.Valid() && it.started && it.data == old(it.data) && it.data == it.owner.data
    ensures step == Done && it.owner.store.sets == old(it.owner.store.sets)
  {
    step := it.Next();
  }

  /**
   * Where a sequence over the index identifiers in order stands after pull `k`
   * (counted from 0): it yielded record k and every index up to it was incremented
   * once, or, past the last record, it ended with every index incremented once.
   */
  ghost predicate RecordAfterPull<T>(it: RecordIterator<T>, ids: seq<string>, seed: Scores, k: nat, step: Step<T>)
    reads it, it.owner, it.owner.store
  {
    |ids| == |it.data| && k <= |ids| &&
    if k < |ids| then
      step == Yield(it.data[k]) && it.Pending() == Iota(|ids|)[k + 1..] &&
      Lookup(it.owner.store.sets, it.owner.redisPrefix) == Bumped(seed, ids[..k + 1])
    else
      step == Done && Lookup(it.owner.store.sets, it.owner.redisPrefix) == Bumped(seed, ids)
  }

  /** Pull `k` (counted from 0) of a sequence over the index identifiers in order, after pull k - 1. */
  method RecordPullDeclared<T(==)>(it: RecordIterator<T>, ghost ids: seq<string>, ghost seed: Scores, k: nat)
    returns (step: Step<T>)
    requires it.Valid() && it.owner.Valid() && it.started && it.data == it.owner.data
    requires ids == IndexIds(|it.data|) && 0 < k <= |ids| && it.Pending() == Iota(|ids|)[k..]
    requires Lookup(it.owner.store.sets, it.owner.redisPrefix) == Bumped(seed, ids[..k])
    modifies it, it.owner.store
    ensures it.Valid() && it.owner.Valid() && it.started && it.data == old(it.data) && it.data == it.owner.data
    ensures RecordAfterPull(it, ids, seed, k, step)
  {
    if k < |it.data| {
      assert Iota(|ids|)[k..] == [k] + Iota(|ids|)[k + 1..];
      step := RecordPullPending(it, k, Iota(|ids|)[k + 1..]);
      BumpedNext(seed, ids, k);
    } else {
      assert it.Pending() == [];
      step := RecordPullEnd(it);
      assert ids[..k] == ids;
    }
  }

  /** A for-await loop over a sequence that serves the index identifiers in order, entered after the first pull. */
  method RecordDrain<T(==)>(it: RecordIterator<T>, ghost ids: seq<string>, ghost seed: Scores, first: Step<T>)
    returns (yielded: seq<T>)
    requires it.Valid() && it.owner.Valid() && it.started && it.data == it.owner.data
    requires ids == IndexIds(|it.data|) && RecordAfterPull(it, ids, seed, 0, first)
    modifies it, it.owner.store
    ensures it.data == old(it.data) && yielded == it.data
    ensures Lookup(it.owner.store.sets, it.owner.redisPrefix) == Bumped(seed, ids)
  {
    var step := first;
    yielded := [];
    while step.Yield?
      invariant it.Valid() && it.owner.Valid() && it.started && it.data == it.owner.data
      invariant it.data == old(it.data) && |yielded| <= |ids| && yielded == it.data[..|yielded|]
      invariant RecordAfterPull(it, ids, seed, |yielded|, step)
      decreases |ids| - |yielded|
    {
      PrefixGrows(it.data, |yielded|);
      yielded := yielded + [step.item];
      step := RecordPullDeclared(it, ids, seed, |yielded|);
    }
  }

  /**
   * index.js on a reset key: the first getRange seeds "0" .. "n-1" at score 1 and
   * serves them in order, so a full pull yields the records in order and leaves
   * every index identifier at score 2.
   */
  method RecordFirstRun<T(==)>(initial: Sets, data: seq<T>, prefix: string) returns (yielded: seq<T>, scores: Scores)
    requires NoEmptySets(initial) && |data| > 0
    ensures yielded == data
    ensures scores.Keys == Elements(IndexIds(|data|))
    ensures forall m :: m in scores ==> scores[m] == InitialScore + IncValue
  {
    var balancer := ResetRecords(initial, data, prefix);
    var it := balancer.GetAsyncIterator();
    ghost var ids := IndexIds(|data|);
    IndexIdsDistinct(|data|);
    assert Distinct(ids);
    ghost var seed := map m | m in Elements(ids) :: InitialScore;
    ghost var seeded := balancer.store.sets[prefix := seed];
    ResolveFresh(balancer.store.sets, prefix, ids);
    DeclaredOrderTrace(ids);
    assert Iota(|ids|) == [0] + Iota(|ids|)[1..];
    var step := RecordStartPending(it, ids, ids, seeded, 0, Iota(|ids|)[1..]);
    BumpedNext(seed, ids, 0);
    assert RecordAfterPull(it, ids, seed, 0, step);
    yielded := RecordDrain(it, ids, seed, step);
    scores := Lookup(balancer.store.sets, prefix);
    FullPassScores(ids);
  }
}
