/** The parts of Python's string handling that the webhook signature depends on. */
module Strings {

  function DigitChar(d: int): char
    requires 0 <= d < 10
  {
    "0123456789"[d]
  }

  /** Decimal digits of a natural number, most significant first. */
  function NatStr(n: nat): (s: string)
    ensures |s| >= 1
  {
    if n < 10 then [DigitChar(n)] else NatStr(n / 10) + [DigitChar(n % 10)]
  }

  /** Python's `str(i)` for an `int`. */
  function IntStr(i: int): string
  {
    if i < 0 then "-" + NatStr(-i) else NatStr(i)
  }

  function Pow10(k: nat): (r: nat)
    ensures r >= 1
  {
    if k == 0 then 1 else 10 * Pow10(k - 1)
  }

  /** A natural number below 10^k has at most k digits. */
  lemma {:induction false} NatStrLength(n: nat, k: nat)
    requires 1 <= k && n < Pow10(k)
    ensures |NatStr(n)| <= k
  {
    if n >= 10 {
      assert Pow10(1) == 10;
      assert n / 10 < Pow10(k - 1);
      NatStrLength(n / 10, k - 1);
    }
  }

  /** Python's `a < b` on `str`: lexicographic by code point. */
  predicate Less(a: string, b: string)
  {
    if a == [] then b != []
    else if b == [] then false
    else if a[0] != b[0] then a[0] < b[0]
    else Less(a[1..], b[1..])
  }

  lemma {:induction false} LessAsymmetric(a: string, b: string)
    requires Less(a, b)
    ensures !Less(b, a)
  {
    if a != [] && b != [] && a[0] == b[0] {
      LessAsymmetric(a[1..], b[1..]);
    }
  }

  /** Keys in ascending order: no key is smaller than the one before it. */
  predicate SortedByKey<V>(s: seq<(string, V)>)
  {
    |s| < 2 || (!Less(s[1].0, s[0].0) && SortedByKey(s[1..]))
  }

  /** Inserts `x` before the first element whose key is not smaller than its own. */
  function InsertByKey<V(==)>(x: (string, V), s: seq<(string, V)>): (r: seq<(string, V)>)
    requires SortedByKey(s)
    ensures SortedByKey(r)
    ensures |r| == |s| + 1
    ensures r[0] == x || (|s| > 0 && r[0] == s[0])
  {
    if s == [] || !Less(s[0].0, x.0) then
      [x] + s
    else
      LessAsymmetric(s[0].0, x.0);
      assert s == [s[0]] + s[1..];
      [s[0]] + InsertByKey(x, s[1..])
  }

  /**
   * `sorted(items, key=lambda x: x[0])`: ascending by key and a permutation of
   * the input. Like Python's sort it is stable (`InsertByKey` places the
   * earlier element before later ones with an equal key), but stability is not
   * stated as a contract: the payload's keys are pairwise distinct.
   */
  function SortByKey<V(==)>(items: seq<(string, V)>): (r: seq<(string, V)>)
    ensures SortedByKey(r)
    ensures |r| == |items|
  {
    if items == [] then []
    else
      assert items == [items[0]] + items[1..];
      InsertByKey(items[0], SortByKey(items[1..]))
  }

  /** `InsertByKey` adds exactly one element, `x`. */
  lemma {:induction false} InsertByKeyPermutes<V>(x: (string, V), s: seq<(string, V)>)
    requires SortedByKey(s)
    ensures multiset(InsertByKey(x, s)) == multiset(s) + multiset{x}
  {
    if s != [] && Less(s[0].0, x.0) {
      InsertByKeyPermutes(x, s[1..]);
      assert s == [s[0]] + s[1..];
    }
  }

  /** `SortByKey` returns a permutation of its input. */
  lemma {:induction false} SortByKeyPermutes<V>(items: seq<(string, V)>)
    ensures multiset(SortByKey(items)) == multiset(items)
  {
    if items != [] {
      SortByKeyPermutes(items[1..]);
      InsertByKeyPermutes(items[0], SortByKey(items[1..]));
      assert items == [items[0]] + items[1..];
    }
  }
}
