/** Weighted sums over sequences: the bookkeeping behind every conservation and counting law. */
module Ledger {

  /** Total weight of the elements of `s`. */
  function Sum<T>(s: seq<T>, w: T -> int): int {
    if |s| == 0 then 0 else Sum(s[..|s| - 1], w) + w(s[|s| - 1])
  }

  lemma {:induction false} SumUpdate<T>(s: seq<T>, w: T -> int, i: nat, x: T)
    requires i < |s|
    ensures Sum(s[i := x], w) == Sum(s, w) - w(s[i]) + w(x)
  {
    var n := |s| - 1;
    assert s[i := x][..n] == if i == n then s[..n] else s[..n][i := x];
    if i < n {
      SumUpdate(s[..n], w, i, x);
    }
  }

  lemma {:induction false} SumRemove<T>(s: seq<T>, w: T -> int, i: nat)
    requires i < |s|
    ensures Sum(s[..i] + s[i + 1..], w) == Sum(s, w) - w(s[i])
  {
    var n := |s| - 1;
    var t := s[..i] + s[i + 1..];
    if i == n {
      assert t == s[..n];
    } else {
      SumRemove(s[..n], w, i);
      assert t[..|t| - 1] == s[..n][..i] + s[..n][i + 1..];
    }
  }

  lemma SumAppend<T>(s: seq<T>, w: T -> int, x: T)
    ensures Sum(s + [x], w) == Sum(s, w) + w(x)
  {
    assert (s + [x])[..|s|] == s;
  }

  lemma {:induction false} SumSame<T>(s: seq<T>, t: seq<T>, w: T -> int)
    requires |s| == |t|
    requires forall i | 0 <= i < |s| :: w(s[i]) == w(t[i])
    ensures Sum(s, w) == Sum(t, w)
  {
    if |s| > 0 {
      SumSame(s[..|s| - 1], t[..|t| - 1], w);
    }
  }

  lemma {:induction false} SumNonNegative<T>(s: seq<T>, w: T -> int)
    requires forall i | 0 <= i < |s| :: 0 <= w(s[i])
    ensures 0 <= Sum(s, w)
  {
    if |s| > 0 {
      SumNonNegative(s[..|s| - 1], w);
    }
  }

  /** One element never weighs more than the whole. */
  lemma SumMember<T>(s: seq<T>, w: T -> int, i: nat)
    requires forall k | 0 <= k < |s| :: 0 <= w(s[k])
    requires i < |s|
    ensures w(s[i]) <= Sum(s, w)
  {
    SumRemove(s, w, i);
    SumNonNegative(s[..i] + s[i + 1..], w);
  }

  /** Nor do two elements at different positions. */
  lemma SumPair<T>(s: seq<T>, w: T -> int, i: nat, j: nat)
    requires forall k | 0 <= k < |s| :: 0 <= w(s[k])
    requires i < |s| && j < |s| && i != j
    ensures w(s[i]) + w(s[j]) <= Sum(s, w)
  {
    var t := s[..i] + s[i + 1..];
    var k := if j < i then j else j - 1;
    assert t[k] == s[j];
    SumRemove(s, w, i);
    SumMember(t, w, k);
  }

  lemma SumTriple<T>(s: seq<T>, w: T -> int, i: nat, j: nat, l: nat)
    requires forall k | 0 <= k < |s| :: 0 <= w(s[k])
    requires i < |s| && j < |s| && l < |s| && i != j && i != l && j != l
    ensures w(s[i]) + w(s[j]) + w(s[l]) <= Sum(s, w)
  {
    var t := s[..i] + s[i + 1..];
    var a := if j < i then j else j - 1;
    var b := if l < i then l else l - 1;
    assert t[a] == s[j] && t[b] == s[l];
    SumRemove(s, w, i);
    SumPair(t, w, a, b);
  }

  lemma {:induction false} SumZero<T>(s: seq<T>, w: T -> int)
    requires forall k | 0 <= k < |s| :: w(s[k]) == 0
    ensures Sum(s, w) == 0
  {
    if |s| > 0 {
      SumZero(s[..|s| - 1], w);
    }
  }

  lemma {:induction false} SumSplit<T>(s: seq<T>, v: T -> int, w: T -> int, whole: T -> int)
    requires forall k | 0 <= k < |s| :: v(s[k]) + w(s[k]) == whole(s[k])
    ensures Sum(s, v) + Sum(s, w) == Sum(s, whole)
  {
    if |s| > 0 {
      SumSplit(s[..|s| - 1], v, w, whole);
    }
  }
}
