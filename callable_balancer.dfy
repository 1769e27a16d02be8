/**
 * The TypeScript balancer (index.ts): the items are callables identified by
 * their name, and the store key is derived from the names in declared order.
 */
module CallableBalancing {
  import opened SortedSet
  import opened Store
  import opened Rotation

  /** A callable handler; the balancer only ever looks at its name. */
  datatype Callable = Callable(name: string)

  /** _STORE_PREFIX */
  const StorePrefix := "balancer"

  /** The member identifiers of the methods: their names, in declared order. */
  function Names(methods: seq<Callable>): (names: seq<string>)
    ensures |names| == |methods|
    ensures forall k :: 0 <= k < |methods| ==> names[k] == methods[k].name
  {
    seq(|methods|, k requires 0 <= k < |methods| => methods[k].name)
  }

  // ---------------------------------------------------------------------------
  // makeStoreKey

  /** Array.prototype.join: the parts with `sep` between neighbours. */
  function Join(parts: seq<string>, sep: string): string
    decreases |parts|
  {
    if |parts| == 0 then ""
    else if |parts| == 1 then parts[0]
    else parts[0] + sep + Join(parts[1..], sep)
  }

  /** "." followed by the name, for every name in order. */
  function DotEach(names: seq<string>): string
    decreases |names|
  {
    if |names| == 0 then "" else "." + names[0] + DotEach(names[1..])
  }

  lemma {:induction false} JoinAfterHead(head: string, names: seq<string>)
    ensures Join([head] + names, ".") == head + DotEach(names)
    decreases |names|
  {
    if |names| > 0 {
      JoinAfterHead(names[0], names[1..]);
      assert ([head] + names)[1..] == [names[0]] + names[1..];
    }
  }

  /** The store key: "balancer", then "." and the name of each method in declared order. */
  function MakeStoreKey(methods: seq<Callable>): (key: string)
    ensures key == StorePrefix + DotEach(Names(methods))
  {
    JoinAfterHead(StorePrefix, Names(methods));
    Join([StorePrefix] + Names(methods), ".")
  }

  /** The name holds no "." */
  predicate DotFree(name: string)
  {
    forall c :: 0 <= c < |name| ==> name[c] != '.'
  }

  lemma CharAfterShorter(x: string, s: string, y: string, t: string)
    requires x + s == y + t && |x| < |y|
    ensures |s| > 0 && s[0] == y[|x|]
  {
    assert (x + s)[|x|] == (y + t)[|x|];
  }

  lemma SplitAtDot(x: string, s: string, y: string, t: string)
    requires DotFree(x) && DotFree(y)
    requires |s| == 0 || s[0] == '.'
    requires |t| == 0 || t[0] == '.'
    requires x + s == y + t
    ensures x == y && s == t
  {
    if |x| < |y| {
      CharAfterShorter(x, s, y, t);
      assert false;
    } else if |y| < |x| {
      CharAfterShorter(y, t, x, s);
      assert false;
    } else {
      assert x == (x + s)[..|x|] && y == (y + t)[..|y|];
      assert s == (x + s)[|x|..] && t == (y + t)[|y|..];
    }
  }

  /** With dot-free names, different name lists give different keys: a new list starts a new rotation. */
  lemma {:induction false} DotEachInjective(a: seq<string>, b: seq<string>)
    requires forall k :: 0 <= k < |a| ==> DotFree(a[k])
    requires forall k :: 0 <= k < |b| ==> DotFree(b[k])
    requires DotEach(a) == DotEach(b)
    ensures a == b
    decreases |a|
  {
    if |a| > 0 && |b| > 0 {
      var ra, rb := DotEach(a[1..]), DotEach(b[1..]);
      assert "." + a[0] + ra == "." + b[0] + rb;
      assert a[0] + ra == b[0] + rb by {
        assert ("." + a[0] + ra)[1..] == a[0] + ra;
        assert ("." + b[0] + rb)[1..] == b[0] + rb;
      }
      SplitAtDot(a[0], ra, b[0], rb);
      DotEachInjective(a[1..], b[1..]);
      assert a == [a[0]] + a[1..] && b == [b[0]] + b[1..];
    }
  }

  lemma KeyDeterminesNames(a: seq<Callable>, b: seq<Callable>)
    requires forall k :: 0 <= k < |a| ==> DotFree(a[k].name)
    requires forall k :: 0 <= k < |b| ==> DotFree(b[k].name)
    requires MakeStoreKey(a) == MakeStoreKey(b)
    ensures Names(a) == Names(b)
  {
    var ka, kb := MakeStoreKey(a), MakeStoreKey(b);
    assert DotEach(Names(a)) == ka[|StorePrefix|..];
    assert DotEach(Names(b)) == kb[|StorePrefix|..];
    DotEachInjective(Names(a), Names(b));
  }

  /** Names that contain "." can make two different method lists share one key. */
  lemma DottedNamesCollide(x: string, y: string, z: string)
    ensures MakeStoreKey([Callable(x + "." + y), Callable(z)]) == MakeStoreKey([Callable(x), Callable(y + "." + z)])
    ensures Names([Callable(x + "." + y), Callable(z)]) != Names([Callable(x), Callable(y + "." + z)])
  {
    var n1, n2 := Names([Callable(x + "." + y), Callable(z)]), Names([Callable(x), Callable(y + "." + z)]);
    assert n1 == [x + "." + y, z] && n1[1..] == [z] && n1[1..][1..] == [];
    assert n2 == [x, y + "." + z] && n2[1..] == [y + "." + z] && n2[1..][1..] == [];
    assert DotEach(n1[1..]) == "." + z + "";
    assert DotEach(n2[1..]) == "." + (y + "." + z) + "";
    assert DotEach(n1) == "." + (x + "." + y) + ("." + z + "");
    assert DotEach(n2) == "." + x + ("." + (y + "." + z) + "");
    assert |n1[0]| > |n2[0]|;
  }

  // ---------------------------------------------------------------------------

  class CallableBalancer {
    var methods: seq<Callable>
    var storeKey: string
    const store: RedisStore

    ghost predicate Valid()
      reads this, store
    {
      store.Valid() && |methods| > 0 && storeKey == MakeStoreKey(methods)
    }

    /** The key is derived at construction; the store is not touched. */
    constructor (methods: seq<Callable>, store: RedisStore)
      requires |methods| > 0 && store.Valid()
      ensures Valid()
      ensures this.methods == methods && this.store == store
      ensures storeKey == MakeStoreKey(methods)
    {
      this.methods := methods;
      this.store := store;
      this.storeKey := MakeStoreKey(methods);
    }

    /** Replaces the methods and rederives the key. */
    method SetMethods(methods: seq<Callable>)
      requires Valid() && |methods| > 0
      modifies this
      ensures Valid()
      ensures this.methods == methods && storeKey == MakeStoreKey(methods)
    {
      this.methods := methods;
      this.storeKey := MakeStoreKey(methods);
    }

    /** ZINCRBY under the current key on the method's name; absent members are created. */
    method IncreaseMethodRank(callable: Callable, incValue: int := IncValue)
      requires Valid()
      modifies store
      ensures Valid()
      ensures store.sets == old(store.sets)[storeKey := IncrBy(Lookup(old(store.sets), storeKey), callable.name, incValue)]
    {
      var _ := store.ZIncrBy(storeKey, incValue, callable.name);
    }

    /** A new, not yet started sequence; nothing is read or written until the first pull. */
    method GetAsyncIterator() returns (it: MethodIterator)
      requires Valid()
      ensures fresh(it) && it.owner == this && !it.started && it.Valid()
    {
      it := new MethodIterator(this);
    }

    /** DEL of the whole key. */
    method ResetStore()
      requires Valid()
      modifies store
      ensures Valid()
      ensures store.sets == old(store.sets) - {storeKey}
    {
      var _ := store.Del(storeKey);
    }

    method GetStoreKey() returns (key: string)
      requires Valid()
      ensures key == StorePrefix + DotEach(Names(methods))
    {
      key := storeKey;
    }

    /**
     * The serving order: the stored ascending order when the member count matches
     * the methods, otherwise the declared names after seeding them with score 1 under NX.
     */
    method GetRange() returns (order: seq<string>)
      requires Valid()
      modifies store
      ensures Valid()
      ensures (order, store.sets) == Resolve(old(store.sets), storeKey, Names(methods))
    {
      var stored := store.ZRange(storeKey);
      if |stored| != |methods| {
        var args: seq<(int, string)> := [];
        var result: seq<string> := [];
        var k := 0;
        while k < |methods|
          invariant 0 <= k <= |methods|
          invariant args == Seeds(Names(methods))[..k]
          invariant result == Names(methods)[..k]
        {
          args := args + [(InitialScore, methods[k].name)];
          result := result + [methods[k].name];
          k := k + 1;
        }
        assert args == Seeds(Names(methods));
        assert result == Names(methods);
        var _ := store.ZAddNX(storeKey, args);
        return result;
      }
      return stored;
    }
  }

  /**
   * The async generator of getAsyncIterator as a pull state machine: the first
   * pull resolves the order, and every pull resumes the nested loops at
   * (stored entry `outer`, method `inner`), increments the next match and yields it.
   */
  class MethodIterator {
    const owner: CallableBalancer
    var started: bool
    /** The order the first pull resolved. */
    var order: seq<string>
    /** The methods as they were at the first pull. */
    var methods: seq<Callable>
    var outer: nat
    var inner: nat
    /** Positions (into `methods`) yielded so far. */
    ghost var yielded: seq<nat>

    ghost predicate Valid()
      reads this
    {
      outer <= |order| && inner <= |methods| &&
      (started ==> yielded + Pending() == Trace(order, Names(methods)))
    }

    /** Positions the rest of the sequence will yield. */
    ghost function Pending(): seq<nat>
      reads this
    {
      Matches(order, Names(methods), outer, inner)
    }

    /**
     * One pull took the first of the `before` positions (or found none) on a
     * keyspace that read `base` just before the increment.
     */
    ghost predicate Advanced(before: seq<nat>, base: Sets, step: Step<Callable>)
      reads this, owner, owner.store
    {
      if before == [] then
        step == Done && Pending() == [] && owner.store.sets == base
      else
        before[0] < |methods| && step == Yield(methods[before[0]]) && Pending() == before[1..] &&
        owner.store.sets == base[owner.storeKey := IncrBy(Lookup(base, owner.storeKey), methods[before[0]].name, IncValue)]
    }

    constructor (owner: CallableBalancer)
      ensures this.owner == owner && !started && Valid()
    {
      this.owner := owner;
      started := false;
      order, methods := [], [];
      outer, inner := 0, 0;
      yielded := [];
    }

    /** The first pull: getRange, then the loops start at the first stored entry and the first method. */
    method Begin()
      requires Valid() && owner.Valid() && !started
      modifies this, owner.store
      ensures Valid() && owner.Valid() && started && methods == owner.methods
      ensures (order, owner.store.sets) == Resolve(old(owner.store.sets), owner.storeKey, Names(methods))
      ensures yielded == [] && Pending() == Trace(order, Names(methods))
    {
      methods := owner.methods;
      order := owner.GetRange();
      outer, inner := 0, 0;
      yielded := [];
      started := true;
      MatchesFromStart(order, Names(methods));
      assert yielded + Pending() == Pending();
    }

    /** Resume the loops, increment the next matching method's rank and yield it. */
    method Advance() returns (step: Step<Callable>)
      requires Valid() && owner.Valid() && started && owner.methods == methods
      modifies this, owner.store
      ensures Valid() && owner.Valid() && started && methods == old(methods) && order == old(order)
      ensures Advanced(old(Pending()), old(owner.store.sets), step)
    {
      var i, j := FindMatch(order, Names(methods), outer, inner);
      if i < |order| {
        owner.IncreaseMethodRank(methods[j], IncValue);
        assert (yielded + [j]) + Matches(order, Names(methods), i, j + 1) == yielded + Pending();
        outer, inner := i, j + 1;
        yielded := yielded + [j];
        step := Yield(methods[j]);
      } else {
        outer, inner := i, j;
        step := Done;
      }
    }

    /** One pull of the sequence (the generator's next()). */
    method Next() returns (step: Step<Callable>)
      requires Valid() && owner.Valid()
      requires started ==> owner.methods == methods
      modifies this, owner.store
      ensures Valid() && owner.Valid() && started && methods == owner.methods
      ensures old(started) ==> order == old(order) && Advanced(old(Pending()), old(owner.store.sets), step)
      ensures !old(started) ==>
        var (resolved, seeded) := Resolve(old(owner.store.sets), owner.storeKey, Names(owner.methods));
        order == resolved && Advanced(Trace(resolved, Names(methods)), seeded, step)
    {
      if !started {
        Begin();
      }
      step := Advance();
    }
  }
}
