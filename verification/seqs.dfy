/** `Array.prototype.filter` and `slice(0, n)` on sequences, and what they preserve. */
module Seqs {

  /**
   * `a` occurs in `b` in order, possibly with gaps. Matching each element of `a` to its
   * earliest occurrence in `b` is enough to decide this.
   */
  predicate IsSubsequence<T(==)>(a: seq<T>, b: seq<T>)
    decreases |b|
  {
    |a| == 0 || (|b| > 0 && if a[0] == b[0] then IsSubsequence(a[1..], b[1..]) else IsSubsequence(a, b[1..]))
  }

  /**
   * The elements of `s` satisfying `p`, in their original order: every passing occurrence
   * is kept (duplicates included) and every failing one dropped.
   */
  function Filter<T(==,!new)>(s: seq<T>, p: T -> bool): (r: seq<T>)
    ensures |r| <= |s|
    ensures forall x :: x in r <==> x in s && p(x)
    ensures forall x :: multiset(r)[x] == if p(x) then multiset(s)[x] else 0
    ensures IsSubsequence(r, s)
  {
    if |s| == 0 then []
    else
      var rest := Filter(s[1..], p);
      assert s == [s[0]] + s[1..];
      assert multiset(s) == multiset{s[0]} + multiset(s[1..]);
      if p(s[0]) then
        assert ([s[0]] + rest)[1..] == rest;
        assert multiset([s[0]] + rest) == multiset{s[0]} + multiset(rest);
        [s[0]] + rest
      else
        assert |rest| > 0 ==> rest[0] in rest;
        rest
  }

  /** `slice(0, n)`: the first `n` elements, or all of them when there are fewer. */
  function Take<T>(s: seq<T>, n: nat): (r: seq<T>)
    ensures |r| <= n && |r| <= |s|
    ensures |s| <= n ==> r == s
    ensures |s| > n ==> |r| == n
    ensures r == s[..|r|]
  {
    if |s| <= n then s else s[..n]
  }

  /** A subsequence of the tail of `b` is a subsequence of `b`. */
  lemma {:induction false} SubsequenceOfTail<T>(a: seq<T>, b: seq<T>)
    requires |b| > 0
    requires IsSubsequence(a, b[1..])
    ensures IsSubsequence(a, b)
    decreases |b|, 0
  {
    if |a| > 0 && a[0] == b[0] {
      DropFirstKeepsSubsequence(a, b[1..]);
    }
  }

  /** Dropping the first element of a subsequence keeps it a subsequence. */
  lemma {:induction false} DropFirstKeepsSubsequence<T>(a: seq<T>, b: seq<T>)
    requires |a| > 0
    requires IsSubsequence(a, b)
    ensures IsSubsequence(a[1..], b)
    decreases |b|, 1
  {
    if a[0] == b[0] {
      if |a[1..]| > 0 {
        SubsequenceOfTail(a[1..], b);
      }
    } else {
      DropFirstKeepsSubsequence(a, b[1..]);
      if |a[1..]| > 0 {
        SubsequenceOfTail(a[1..], b);
      }
    }
  }

  /** A prefix of a subsequence is still a subsequence, in the same order. */
  lemma {:induction false} TakeKeepsSubsequence<T>(a: seq<T>, b: seq<T>, n: nat)
    requires IsSubsequence(a, b)
    ensures IsSubsequence(Take(a, n), b)
    decreases |b|
  {
    if |a| > n && n > 0 {
      if a[0] == b[0] {
        assert Take(a, n)[1..] == Take(a[1..], n - 1);
        TakeKeepsSubsequence(a[1..], b[1..], n - 1);
      } else {
        TakeKeepsSubsequence(a, b[1..], n);
      }
    }
  }
}
