/**
 * Decimal rendering of integers, as JavaScript's `Number.prototype.toString()`
 * produces it for the safe integers the balancer uses as member identifiers.
 */
module Decimal {

  /** The character of one decimal digit. */
  function DigitChar(d: nat): (c: char)
    requires d < 10
    ensures '0' <= c <= '9'
    ensures c as int - '0' as int == d
  {
    ('0' as int + d) as char
  }

  /** `s` is a run of decimal digits. */
  predicate AllDigits(s: string)
  {
    forall k :: 0 <= k < |s| ==> '0' <= s[k] <= '9'
  }

  /** The shortest decimal spelling of `n`, most significant digit first. */
  function NatToString(n: nat): (s: string)
    ensures |s| > 0
    ensures AllDigits(s)
    ensures (|s| == 1) <==> (n < 10)
    ensures (s[0] == '0') <==> (n == 0)
    decreases n
  {
    if n < 10 then [DigitChar(n)] else NatToString(n / 10) + [DigitChar(n % 10)]
  }

  /** The decimal spelling of an integer; negative numbers carry a leading minus sign. */
  function IntToString(i: int): (s: string)
    ensures |s| > 0
    ensures (s[0] == '-') <==> (i < 0)
  {
    if i < 0 then "-" + NatToString(-i) else NatToString(i)
  }

  /** The number a run of decimal digits denotes, read most significant digit first. */
  function DecimalValue(s: string): nat
    requires AllDigits(s)
    decreases |s|
  {
    if |s| == 0 then 0
    else DecimalValue(s[..|s| - 1]) * 10 + (s[|s| - 1] as int - '0' as int)
  }

  /** The spelling of `n` denotes `n`. */
  lemma {:induction false} NatToStringValue(n: nat)
    ensures DecimalValue(NatToString(n)) == n
    decreases n
  {
    var s := NatToString(n);
    if n < 10 {
      assert s[..0] == [];
    } else {
      NatToStringValue(n / 10);
      assert s[..|s| - 1] == NatToString(n / 10);
    }
  }

  /** An integer is spelt as its magnitude, behind a minus sign exactly when it is negative. */
  lemma IntToStringValue(i: int)
    ensures i < 0 ==> IntToString(i) == "-" + NatToString(-i) && DecimalValue(NatToString(-i)) == -i
    ensures i >= 0 ==> IntToString(i) == NatToString(i) && DecimalValue(NatToString(i)) == i
  {
    if i < 0 {
      NatToStringValue(-i);
    } else {
      NatToStringValue(i);
    }
  }

  /** Two numbers never share a spelling, so members named by index never collide. */
  lemma NatToStringInjective(a: nat, b: nat)
    requires NatToString(a) == NatToString(b)
    ensures a == b
  {
    NatToStringValue(a);
    NatToStringValue(b);
  }

  /** The spelling of a negative number is never the spelling of an index. */
  lemma NegativeIsNoIndex(i: int, k: nat)
    requires i < 0
    ensures IntToString(i) != NatToString(k)
  {
    assert IntToString(i)[0] == '-';
  }

  /** The identifiers "0" .. "n-1" of a list of `n` records, in index order. */
  function IndexIds(n: nat): (ids: seq<string>)
    ensures |ids| == n
    ensures forall k :: 0 <= k < n ==> ids[k] == NatToString(k)
  {
    seq(n, k requires 0 <= k => NatToString(k))
  }

  /** No index identifier appears twice. */
  lemma IndexIdsDistinct(n: nat)
    ensures forall a, b :: 0 <= a < b < n ==> IndexIds(n)[a] != IndexIds(n)[b]
  {
    forall a, b | 0 <= a < b < n ensures IndexIds(n)[a] != IndexIds(n)[b] {
      if IndexIds(n)[a] == IndexIds(n)[b] {
        NatToStringInjective(a, b);
      }
    }
  }
}
