/**
 * The JavaScript balancer (index.js): the items are arbitrary records
 * identified by their stringified index, and the store key is supplied by the caller.
 */
module RedisBalancing {
  import opened SortedSet
  import opened Store
  import opened Rotation
  import opened Decimal

  /** Array.prototype.indexOf: the first position holding `x`, or -1. */
  function IndexOf<T(==)>(data: seq<T>, x: T): (i: int)
    ensures -1 <= i < |data|
    ensures i == -1 <==> x !in data
    ensures 0 <= i ==> data[i] == x && x !in data[..i]
    decreases |data|
  {
    if |data| == 0 then -1
    else if data[0] == x then 0
    else
      var r := IndexOf(data[1..], x);
      if r == -1 then -1
      else
        assert data[..r + 1] == [data[0]] + data[1..][..r];
        r + 1
  }

  class RedisBalancer<T(==)> {
    var data: seq<T>
    var redisPrefix: string
    const store: RedisStore

    ghost predicate Valid()
      reads this, store
    {
      store.Valid() && |data| > 0
    }

    /** The key is the one supplied; the store is not touched. */
    constructor (data: seq<T>, store: RedisStore, redisPrefix: string)
      requires |data| > 0 && store.Valid()
      ensures Valid()
      ensures this.data == data && this.store == store && this.redisPrefix == redisPrefix
    {
      this.data := data;
      this.store := store;
      this.redisPrefix := redisPrefix;
    }

    /** Replaces the records; the key stays. */
    method SetData(data: seq<T>)
      requires Valid() && |data| > 0
      modifies this
      ensures Valid()
      ensures this.data == data && redisPrefix == old(redisPrefix)
    {
      this.data := data;
    }

    /** Resolves the record by indexOf and increments that index; an absent record increments member "-1". */
    method IncreaseRank(record: T, incValue: int := IncValue)
      requires Valid()
      modifies store
      ensures Valid()
      ensures store.sets == old(store.sets)[redisPrefix :=
        IncrBy(Lookup(old(store.sets), redisPrefix), IntToString(IndexOf(data, record)), incValue)]
    {
      var key := IndexOf(data, record);
      IncreaseRankByIndex(key, incValue);
    }

    /** ZINCRBY under the key on the stringified index. */
    method IncreaseRankByIndex(index: int, incValue: int := IncValue)
      requires Valid()
      modifies store
      ensures Valid()
      ensures store.sets == old(store.sets)[redisPrefix := IncrBy(Lookup(old(store.sets), redisPrefix), IntToString(index), incValue)]
    {
      var _ := store.ZIncrBy(redisPrefix, incValue, IntToString(index));
    }

    /** A new, not yet started sequence; nothing is read or written until the first pull. */
    method GetAsyncIterator() returns (it: RecordIterator<T>)
      requires Valid()
      ensures fresh(it) && it.owner == this && !it.started && it.Valid()
    {
      it := new RecordIterator(this);
    }

    /** DEL of the whole key. */
    method ResetStore()
      requires Valid()
      modifies store
      ensures Valid()
      ensures store.sets == old(store.sets) - {redisPrefix}
    {
      var _ := store.Del(redisPrefix);
    }

    method GetStoreKey() returns (key: string)
      ensures key == redisPrefix
    {
      key := redisPrefix;
    }

    method SetStoreKey(key: string)
      requires Valid()
      modifies this
      ensures Valid()
      ensures redisPrefix == key && data == old(data)
    {
      redisPrefix := key;
    }

    /**
     * The serving order: the stored ascending order when the member count matches
     * the records, otherwise "0" .. "n-1" after seeding them with score 1 under NX.
     */
    method GetRange() returns (order: seq<string>)
      requires Valid()
      modifies store
      ensures Valid()
      ensures (order, store.sets) == Resolve(old(store.sets), redisPrefix, IndexIds(|data|))
    {
      var stored := store.ZRange(redisPrefix);
      if |stored| != |data| {
        var args: seq<(int, string)> := [];
        var result: seq<string> := [];
        var index := 0;
        while index < |data|
          invariant 0 <= index <= |data|
          invariant |args| == index && forall e :: 0 <= e < index ==> args[e] == (InitialScore, NatToString(e))
          invariant |result| == index && forall e :: 0 <= e < index ==> result[e] == NatToString(e)
        {
          args := args + [(InitialScore, NatToString(index))];
          result := result + [NatToString(index)];
          index := index + 1;
        }
        assert args == Seeds(IndexIds(|data|));
        assert result == IndexIds(|data|);
        var _ := store.ZAddNX(redisPrefix, args);
        return result;
      }
      return stored;
    }
  }

  /**
   * The async generator of getAsyncIterator as a pull state machine: the first
   * pull resolves the order, and every pull resumes the nested loops at
   * (stored entry `outer`, index `inner`), increments the next match and yields its record.
   */
  class RecordIterator<T(==)> {
    const owner: RedisBalancer<T>
    var started: bool
    /** The order the first pull resolved. */
    var order: seq<string>
    /** The records as they were at the first pull. */
    var data: seq<T>
    var outer: nat
    var inner: nat
    /** Indices yielded so far. */
    ghost var yielded: seq<nat>

    ghost predicate Valid()
      reads this
    {
      outer <= |order| && inner <= |data| &&
      (started ==> yielded + Pending() == Trace(order, IndexIds(|data|)))
    }

    /** Indices the rest of the sequence will yield. */
    ghost function Pending(): seq<nat>
      reads this
    {
      Matches(order, IndexIds(|data|), outer, inner)
    }

    /**
     * One pull took the first of the `before` indices (or found none) on a
     * keyspace that read `base` just before the increment.
     */
    ghost predicate Advanced(before: seq<nat>, base: Sets, step: Step<T>)
      reads this, owner, owner.store
    {
      if before == [] then
        step == Done && Pending() == [] && owner.store.sets == base
      else
        before[0] < |data| && step == Yield(data[before[0]]) && Pending() == before[1..] &&
        owner.store.sets == base[owner.redisPrefix := IncrBy(Lookup(base, owner.redisPrefix), NatToString(before[0]), IncValue)]
    }

    constructor (owner: RedisBalancer<T>)
      ensures this.owner == owner && !started && Valid()
    {
      this.owner := owner;
      started := false;
      order, data := [], [];
      outer, inner := 0, 0;
      yielded := [];
    }

    /** The first pull: getRange, then the loops start at the first stored entry and index 0. */
    method Begin()
      requires Valid() && owner.Valid() && !started
      modifies this, owner.store
      ensures Valid() && owner.Valid() && started && data == owner.data
      ensures (order, owner.store.sets) == Resolve(old(owner.store.sets), owner.redisPrefix, IndexIds(|data|))
      ensures yielded == [] && Pending() == Trace(order, IndexIds(|data|))
    {
      data := owner.data;
      order := owner.GetRange();
      outer, inner := 0, 0;
      yielded := [];
      started := true;
      MatchesFromStart(order, IndexIds(|data|));
      assert yielded + Pending() == Pending();
    }

    /** Resume the loops, increment the next matching index and yield its record. */
    method Advance() returns (step: Step<T>)
      requires Valid() && owner.Valid() && started && owner.data == data
      modifies this, owner.store
      ensures Valid() && owner.Valid() && started && data == old(data) && order == old(order)
      ensures Advanced(old(Pending()), old(owner.store.sets), step)
    {
      var i, j := FindMatch(order, IndexIds(|data|), outer, inner);
      if i < |order| {
        owner.IncreaseRankByIndex(j, IncValue);
        assert (yielded + [j]) + Matches(order, IndexIds(|data|), i, j + 1) == yielded + Pending();
        outer, inner := i, j + 1;
        yielded := yielded + [j];
        step := Yield(data[j]);
      } else {
        outer, inner := i, j;
        step := Done;
      }
    }

    /** One pull of the sequence (the generator's next()). */
    method Next() returns (step: Step<T>)
      requires Valid() && owner.Valid()
      requires started ==> owner.data == data
      modifies this, owner.store
      ensures Valid() && owner.Valid() && started && data == owner.data
      ensures old(started) ==> order == old(order) && Advanced(old(Pending()), old(owner.store.sets), step)
      ensures !old(started) ==>
        var (resolved, seeded) := Resolve(old(owner.store.sets), owner.redisPrefix, IndexIds(|owner.data|));
        order == resolved && Advanced(Trace(resolved, IndexIds(|data|)), seeded, step)
    {
      if !started {
        Begin();
      }
      step := Advance();
    }
  }

  // ---------------------------------------------------------------------------
  // What the index identity scheme implies

  /** With index identifiers a sequence yields at most one record per stored entry. */
  lemma YieldsBounded(order: seq<string>, n: nat)
    ensures |Trace(order, IndexIds(n))| <= |order|
  {
    IndexIdsDistinct(n);
    TraceBounded(order, IndexIds(n));
  }

  /** Record `k` is yielded exactly once for each stored identifier equal to k.toString(). */
  lemma YieldsPerIndex(order: seq<string>, n: nat, k: nat)
    requires k < n
    ensures multiset(Trace(order, IndexIds(n)))[k] == multiset(order)[NatToString(k)]
  {
    TraceCount(order, IndexIds(n), k);
  }

  /** "-1", the spelling of indexOf's miss, is none of the index identifiers. */
  lemma MinusOneIsNoIndex(n: nat)
    ensures IntToString(-1) == "-1"
    ensures "-1" !in IndexIds(n)
  {
    assert IntToString(-1) == "-" + NatToString(1);
    forall k | 0 <= k < n ensures IndexIds(n)[k] != "-1" {
      NegativeIsNoIndex(-1, k);
    }
  }

  /** One member more than the records makes a set stale. */
  lemma OneTooMany(z: Scores, ids: seq<string>, m: string, incValue: int)
    requires Distinct(ids) && z.Keys == Elements(ids) && m !in z
    ensures Stale(IncrBy(z, m, incValue), ids)
  {
    DistinctCard(ids);
    var z' := IncrBy(z, m, incValue);
    assert z'.Keys == z.Keys + {m};
    assert |z'| == |z| + 1;
  }

  /**
   * An absent record's increment lands on member "-1", which is no index: it never
   * yields, but it grows a settled set beyond the record count, so the next getRange
   * finds it stale and serves the declared order again.
   */
  lemma AbsentRecordUnsettles<T>(sets: Sets, key: string, data: seq<T>, record: T, incValue: int)
    requires |data| > 0 && record !in data
    requires Lookup(sets, key).Keys == Elements(IndexIds(|data|))
    ensures var z' := IncrBy(Lookup(sets, key), IntToString(IndexOf(data, record)), incValue);
      && "-1" in z' && "-1" !in IndexIds(|data|)
      && Resolve(sets[key := z'], key, IndexIds(|data|)).0 == IndexIds(|data|)
  {
    MinusOneIsNoIndex(|data|);
    assert IntToString(IndexOf(data, record)) == "-1";
    MinusOneUnsettles(Lookup(sets, key), |data|, incValue);
    StaleServesDeclared(sets, key, IndexIds(|data|), IncrBy(Lookup(sets, key), "-1", incValue));
  }

  /** Incrementing "-1" on a set of exactly the index identifiers makes it stale. */
  lemma MinusOneUnsettles(z: Scores, n: nat, incValue: int)
    requires z.Keys == Elements(IndexIds(n))
    ensures Stale(IncrBy(z, "-1", incValue), IndexIds(n))
  {
    MinusOneIsNoIndex(n);
    IndexIdsDistinct(n);
    assert "-1" !in z;
    OneTooMany(z, IndexIds(n), "-1", incValue);
  }
}
