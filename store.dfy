/**
 * The Redis server as the balancer sees it: a keyspace of sorted sets, and the
 * four commands the balancer sends (DEL, ZADD NX, ZRANGE 0 -1, ZINCRBY).
 * Each command is one atomic step on the keyspace.
 */
module Store {
  import opened SortedSet

  /** key -> sorted set */
  type Sets = map<string, Scores>

  /** The sorted set under `key`; an absent key reads as the empty set. */
  function Lookup(sets: Sets, key: string): (z: Scores)
    ensures key !in sets ==> z == map[]
  {
    if key in sets then sets[key] else map[]
  }

  /** Redis removes a sorted set when it loses its last member, so no key holds an empty one. */
  ghost predicate NoEmptySets(sets: Sets)
  {
    forall k :: k in sets ==> |sets[k]| > 0
  }

  class RedisStore {
    var sets: Sets

    ghost predicate Valid()
      reads this
    {
      NoEmptySets(sets)
    }

    constructor (initial: Sets)
      requires NoEmptySets(initial)
      ensures Valid() && sets == initial
    {
      sets := initial;
    }

    /** DEL key: removes the key, reporting how many keys went away. */
    method Del(key: string) returns (removed: nat)
      requires Valid()
      modifies this
      ensures Valid()
      ensures sets == old(sets) - {key}
      ensures removed == if key in old(sets) then 1 else 0
    {
      removed := if key in sets then 1 else 0;
      sets := sets - {key};
    }

    /** ZADD key NX score member ...: Redis rejects the command without at least one pair. */
    method ZAddNX(key: string, pairs: seq<(int, string)>) returns (added: nat)
      requires Valid() && |pairs| > 0
      modifies this
      ensures Valid()
      ensures sets == old(sets)[key := AddNX(Lookup(old(sets), key), pairs)]
      ensures added == |Members(pairs) - Lookup(old(sets), key).Keys|
    {
      var z := Lookup(sets, key);
      var z' := AddNX(z, pairs);
      AddNXCount(z, pairs);
      AddNXNonEmpty(z, pairs);
      added := |Members(pairs) - z.Keys|;
      sets := sets[key := z'];
    }

    /** ZRANGE key 0 -1: every member, ascending by score, ties by member. */
    method ZRange(key: string) returns (members: seq<string>)
      ensures Ascending(Lookup(sets, key), members) && Covers(Lookup(sets, key), members)
      ensures members == Range(Lookup(sets, key))
    {
      members := Range(Lookup(sets, key));
      RangeOrdered(Lookup(sets, key));
    }

    /** ZINCRBY key delta member: creates the key and the member (from 0) when absent. */
    method ZIncrBy(key: string, delta: int, member: string) returns (score: int)
      requires Valid()
      modifies this
      ensures Valid()
      ensures sets == old(sets)[key := IncrBy(Lookup(old(sets), key), member, delta)]
      ensures score == Score(Lookup(old(sets), key), member) + delta
    {
      var z := IncrBy(Lookup(sets, key), member, delta);
      score := z[member];
      sets := sets[key := z];
    }
  }
}
