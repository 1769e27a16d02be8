/**
 * The value of one Redis sorted set, and the meaning of the commands the
 * balancer issues against it: ZRANGE key 0 -1, ZADD key NX, ZINCRBY.
 * Scores are integers (the balancer only ever adds whole increments).
 */
module SortedSet {

  /** member -> score */
  type Scores = map<string, int>

  /** The score a member has, where an absent member counts as 0 (as ZINCRBY treats it). */
  function Score(z: Scores, m: string): int
  {
    if m in z then z[m] else 0
  }

  // ---------------------------------------------------------------------------
  // Member order: Redis breaks score ties by comparing members as strings.

  /** `a` sorts strictly before `b`, character by character, a proper prefix first. */
  predicate LexLess(a: string, b: string)
    decreases |a|
  {
    |b| > 0 && (|a| == 0 || a[0] < b[0] || (a[0] == b[0] && LexLess(a[1..], b[1..])))
  }

  lemma {:induction false} LexIrreflexive(a: string)
    ensures !LexLess(a, a)
    decreases |a|
  {
    if |a| > 0 {
      LexIrreflexive(a[1..]);
    }
  }

  lemma {:induction false} LexTransitive(a: string, b: string, c: string)
    requires LexLess(a, b) && LexLess(b, c)
    ensures LexLess(a, c)
    decreases |a|
  {
    if |a| > 0 && a[0] == b[0] && b[0] == c[0] {
      LexTransitive(a[1..], b[1..], c[1..]);
    }
  }

  lemma {:induction false} LexTotal(a: string, b: string)
    requires a != b
    ensures LexLess(a, b) || LexLess(b, a)
    decreases |a|
  {
    if |a| > 0 && |b| > 0 && a[0] == b[0] {
      assert a == [a[0]] + a[1..] && b == [b[0]] + b[1..];
      LexTotal(a[1..], b[1..]);
    }
  }

  lemma LexAsymmetric(a: string, b: string)
    requires LexLess(a, b)
    ensures !LexLess(b, a)
  {
    if LexLess(b, a) {
      LexTransitive(a, b, a);
      LexIrreflexive(a);
    }
  }

  /** `a` comes before `b` in ZRANGE: lower score first, ties by member. */
  predicate Precedes(z: Scores, a: string, b: string)
    requires a in z && b in z
  {
    z[a] < z[b] || (z[a] == z[b] && LexLess(a, b))
  }

  /** `m` is the first member of `z` in ZRANGE order. */
  predicate IsLeast(z: Scores, m: string)
  {
    m in z && forall k :: k in z && k != m ==> Precedes(z, m, k)
  }

  lemma {:induction false} LeastExists(z: Scores)
    requires |z| > 0
    ensures exists m :: IsLeast(z, m)
    decreases |z|
  {
    var a :| a in z;
    var rest := z - {a};
    assert rest.Keys == z.Keys - {a};
    if |rest| == 0 {
      assert z.Keys == {a};
      assert IsLeast(z, a);
    } else {
      LeastExists(rest);
      var b :| IsLeast(rest, b);
      if Precedes(z, a, b) {
        forall k | k in z && k != a ensures Precedes(z, a, k) {
          if k != b {
            assert k in rest && Precedes(rest, b, k);
            if z[a] == z[b] && z[b] == z[k] {
              LexTransitive(a, b, k);
            }
          }
        }
        assert IsLeast(z, a);
      } else {
        if z[a] == z[b] {
          LexTotal(a, b);
        }
        forall k | k in z && k != b ensures Precedes(z, b, k) {
          if k != a {
            assert k in rest && Precedes(rest, b, k);
          }
        }
        assert IsLeast(z, b);
      }
    }
  }

  lemma LeastUnique(z: Scores)
    ensures forall m1, m2 :: IsLeast(z, m1) && IsLeast(z, m2) ==> m1 == m2
  {
    forall m1, m2 | IsLeast(z, m1) && IsLeast(z, m2) ensures m1 == m2 {
      if m1 != m2 {
        assert Precedes(z, m1, m2) && Precedes(z, m2, m1);
        LexAsymmetric(m1, m2);
      }
    }
  }

  /** `s` lists members of `z` strictly in ZRANGE order (so without repetition). */
  ghost predicate Ascending(z: Scores, s: seq<string>)
  {
    (forall i :: 0 <= i < |s| ==> s[i] in z) &&
    (forall i, j :: 0 <= i < j < |s| ==> Precedes(z, s[i], s[j]))
  }

  /** `s` mentions exactly the members of `z`. */
  ghost predicate Covers(z: Scores, s: seq<string>)
  {
    forall m :: m in s <==> m in z
  }

  // ---------------------------------------------------------------------------
  // ZRANGE key 0 -1

  /** Every member of `z`, ascending by score, ties ascending by member. */
  function Range(z: Scores): (r: seq<string>)
    ensures |r| == |z|
    decreases |z|
  {
    if |z| == 0 then []
    else
      LeastExists(z);
      LeastUnique(z);
      var m :| IsLeast(z, m);
      var rest := z - {m};
      assert |rest| == |z| - 1 by { assert rest.Keys == z.Keys - {m}; }
      [m] + Range(rest)
  }

  /** ZRANGE lists every member exactly once, in ascending order. */
  lemma {:induction false} RangeOrdered(z: Scores)
    ensures Ascending(z, Range(z)) && Covers(z, Range(z))
    decreases |z|
  {
    if |z| > 0 {
      LeastExists(z);
      LeastUnique(z);
      var m :| IsLeast(z, m);
      var rest := z - {m};
      assert |rest| == |z| - 1 by { assert rest.Keys == z.Keys - {m}; }
      RangeOrdered(rest);
      assert Range(z) == [m] + Range(rest);
      ConsLeast(z, m, Range(rest));
    } else {
      assert z.Keys == {};
    }
  }

  /** Putting the least member in front of an ascending listing of the others keeps it ascending. */
  lemma ConsLeast(z: Scores, m: string, tail: seq<string>)
    requires IsLeast(z, m)
    requires Ascending(z - {m}, tail) && Covers(z - {m}, tail)
    ensures Ascending(z, [m] + tail) && Covers(z, [m] + tail)
  {
    var s := [m] + tail;
    forall i, j | 0 <= i < j < |s| ensures Precedes(z, s[i], s[j]) {
      assert s[j] == tail[j - 1] && s[j] in z - {m};
      if i > 0 {
        assert s[i] == tail[i - 1];
        assert Precedes(z - {m}, tail[i - 1], tail[j - 1]);
      }
    }
  }

  /** An ascending listing that covers `z` is empty exactly when `z` is. */
  lemma EmptyListing(z: Scores, s: seq<string>)
    requires Ascending(z, s) && Covers(z, s)
    ensures |s| == 0 <==> |z| == 0
  {
    if |s| > 0 {
      assert s[0] in z;
    }
    if |z| > 0 {
      var m :| m in z;
      assert m in s;
    }
  }

  /** The first element of an ascending listing that covers `z` is its least member. */
  lemma HeadIsLeast(z: Scores, s: seq<string>)
    requires Ascending(z, s) && Covers(z, s) && |s| > 0
    ensures IsLeast(z, s[0])
  {
    forall k | k in z && k != s[0] ensures Precedes(z, s[0], k) {
      var i :| 0 <= i < |s| && s[i] == k;
      assert i != 0;
    }
  }

  /** There is only one ascending listing of a sorted set's members. */
  lemma {:induction false} AscendingUnique(z: Scores, s: seq<string>, t: seq<string>)
    requires Ascending(z, s) && Covers(z, s)
    requires Ascending(z, t) && Covers(z, t)
    ensures s == t
    decreases |z|
  {
    EmptyListing(z, s);
    EmptyListing(z, t);
    if |z| > 0 {
      HeadIsLeast(z, s);
      HeadIsLeast(z, t);
      LeastUnique(z);
      var m := s[0];
      var rest := z - {m};
      assert rest.Keys == z.Keys - {m};
      AscendingTail(z, s);
      AscendingTail(z, t);
      AscendingUnique(rest, s[1..], t[1..]);
      assert s == [m] + s[1..] && t == [m] + t[1..];
    }
  }

  lemma AscendingTail(z: Scores, s: seq<string>)
    requires Ascending(z, s) && Covers(z, s) && |s| > 0
    ensures Ascending(z - {s[0]}, s[1..]) && Covers(z - {s[0]}, s[1..])
  {
    var rest := z - {s[0]};
    forall i | 0 <= i < |s[1..]| ensures s[1..][i] in rest {
      assert Precedes(z, s[0], s[i + 1]);
      if s[0] == s[i + 1] { LexIrreflexive(s[0]); }
    }
    forall m | m in rest ensures m in s[1..] {
      var i :| 0 <= i < |s| && s[i] == m;
      assert i != 0;
      assert s[1..][i - 1] == m;
    }
  }

  /** A listing that is ascending and covers `z` is what ZRANGE returns. */
  lemma RangeCharacterized(z: Scores, s: seq<string>)
    requires Ascending(z, s) && Covers(z, s)
    ensures Range(z) == s
  {
    RangeOrdered(z);
    AscendingUnique(z, s, Range(z));
  }

  // ---------------------------------------------------------------------------
  // ZADD key NX score member [score member ...]

  /** The members named by ZADD arguments. */
  function Members(pairs: seq<(int, string)>): set<string>
  {
    set k | 0 <= k < |pairs| :: pairs[k].1
  }

  /** Position `k` is the first pair that names its member. */
  predicate FirstMention(pairs: seq<(int, string)>, k: nat)
    requires k < |pairs|
  {
    forall e :: 0 <= e < k ==> pairs[e].1 != pairs[k].1
  }

  /**
   * ZADD with NX: each (score, member) pair, left to right, is added only when
   * the member is absent, so a member keeps the first score given for it.
   * What that amounts to is stated by AddNXKeys and AddNXFirst.
   */
  function AddNX(z: Scores, pairs: seq<(int, string)>): (r: Scores)
    decreases |pairs|
  {
    if |pairs| == 0 then z
    else
      var (score, m) := pairs[0];
      AddNX(if m in z then z else z[m := score], pairs[1..])
  }

  /** The members of a non-empty argument list: the first pair's and the rest's. */
  lemma MembersCons(pairs: seq<(int, string)>)
    requires |pairs| > 0
    ensures Members(pairs) == {pairs[0].1} + Members(pairs[1..])
  {
    forall x | x in Members(pairs) ensures x in {pairs[0].1} + Members(pairs[1..]) {
      var k :| 0 <= k < |pairs| && pairs[k].1 == x;
      if k > 0 { assert pairs[1..][k - 1].1 == x; }
    }
    forall x | x in Members(pairs[1..]) ensures x in Members(pairs) {
      var k :| 0 <= k < |pairs[1..]| && pairs[1..][k].1 == x;
      assert pairs[k + 1].1 == x;
    }
  }

  /** ZADD NX ends with the old members plus the named ones, and no present member changes score. */
  lemma {:induction false} AddNXKeys(z: Scores, pairs: seq<(int, string)>)
    ensures AddNX(z, pairs).Keys == z.Keys + Members(pairs)
    ensures forall m :: m in z ==> AddNX(z, pairs)[m] == z[m]
    decreases |pairs|
  {
    if |pairs| > 0 {
      var (score, m) := pairs[0];
      var z' := if m in z then z else z[m := score];
      AddNXKeys(z', pairs[1..]);
      MembersCons(pairs);
    } else {
      assert Members(pairs) == {};
    }
  }

  /** A member that was absent gets the score of the first pair that names it. */
  lemma {:induction false} AddNXFirst(z: Scores, pairs: seq<(int, string)>, k: nat)
    requires k < |pairs| && pairs[k].1 !in z && FirstMention(pairs, k)
    ensures pairs[k].1 in AddNX(z, pairs) && AddNX(z, pairs)[pairs[k].1] == pairs[k].0
    decreases |pairs|
  {
    var (score, m) := pairs[0];
    var z' := if m in z then z else z[m := score];
    assert AddNX(z, pairs) == AddNX(z', pairs[1..]);
    if k == 0 {
      AddNXKeys(z', pairs[1..]);
    } else {
      assert pairs[1..][k - 1] == pairs[k];
      forall e | 0 <= e < k - 1 ensures pairs[1..][e].1 != pairs[1..][k - 1].1 {
        assert pairs[1..][e] == pairs[e + 1];
      }
      AddNXFirst(z', pairs[1..], k - 1);
    }
  }

  /** The number of members ZADD reports as added. */
  lemma AddNXCount(z: Scores, pairs: seq<(int, string)>)
    ensures |AddNX(z, pairs)| - |z| == |Members(pairs) - z.Keys|
  {
    var r := AddNX(z, pairs);
    AddNXKeys(z, pairs);
    assert r.Keys == z.Keys + (Members(pairs) - z.Keys);
    assert z.Keys !! (Members(pairs) - z.Keys);
  }

  /** A ZADD with at least one pair leaves a non-empty set. */
  lemma AddNXNonEmpty(z: Scores, pairs: seq<(int, string)>)
    requires |pairs| > 0
    ensures |AddNX(z, pairs)| > 0
  {
    AddNXKeys(z, pairs);
    MembersCons(pairs);
    assert pairs[0].1 in AddNX(z, pairs);
  }

  // ---------------------------------------------------------------------------
  // ZINCRBY key delta member

  /** ZINCRBY: the member's score grows by `delta`, an absent member starts from 0. */
  function IncrBy(z: Scores, m: string, delta: int): (r: Scores)
    ensures m in r && r[m] == Score(z, m) + delta
    ensures r.Keys == z.Keys + {m}
    ensures forall k :: k in z && k != m ==> r[k] == z[k]
  {
    z[m := Score(z, m) + delta]
  }
}
