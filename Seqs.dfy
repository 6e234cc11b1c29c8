/** Sequence helpers shared by the dataset builder and its consumers. */
module Seqs {

  /** Python's `zip`: pairs elements index for index and stops at the shorter input. */
  function Zip<A, B>(a: seq<A>, b: seq<B>): seq<(A, B)>
  {
    seq(if |a| <= |b| then |a| else |b|, i requires 0 <= i < |a| && i < |b| => (a[i], b[i]))
  }

  lemma AppendAssociative<T>(a: seq<T>, b: seq<T>, c: seq<T>)
    ensures (a + b) + c == a + (b + c)
  {
  }

  /** Number of occurrences of `v` in `s`, i.e. `len([e for e in s if e == v])`. */
  function Count<T(==)>(s: seq<T>, v: T): (c: nat)
    ensures c <= |s|
    decreases |s|
  {
    if s == [] then 0 else (if s[0] == v then 1 else 0) + Count(s[1..], v)
  }

  /** Every element of a sequence of 0/1 labels is counted by exactly one of the two counts. */
  lemma {:induction false} BinaryCountsCoverAll(y: seq<int>)
    requires forall i :: 0 <= i < |y| ==> y[i] == 0 || y[i] == 1
    ensures Count(y, 0) + Count(y, 1) == |y|
    decreases |y|
  {
    if y != [] {
      BinaryCountsCoverAll(y[1..]);
    }
  }

  /** A sequence whose every element is `v` counts `v` once per element and nothing else. */
  lemma {:induction false} CountConstant<T>(s: seq<T>, v: T, w: T)
    requires forall i :: 0 <= i < |s| ==> s[i] == v
    ensures Count(s, v) == |s|
    ensures w != v ==> Count(s, w) == 0
    decreases |s|
  {
    if s != [] {
      CountConstant(s[1..], v, w);
    }
  }

  /**
   * A run of `k` zeros followed by a run of `w`s, `w` being 0 or 1: every element is 0 or 1,
   * and the zeros and ones counted are the two runs' lengths (all zeros when `w` is 0).
   */
  lemma {:induction false} TwoRunCounts(y: seq<int>, k: nat, w: int)
    requires k <= |y| && (w == 0 || w == 1)
    requires forall i :: 0 <= i < k ==> y[i] == 0
    requires forall i :: k <= i < |y| ==> y[i] == w
    ensures forall i :: 0 <= i < |y| ==> y[i] == 0 || y[i] == 1
    ensures w == 1 ==> Count(y, 0) == k && Count(y, 1) == |y| - k
    ensures w == 0 ==> Count(y, 0) == |y| && Count(y, 1) == 0
    decreases k
  {
    if k == 0 {
      CountConstant(y, w, 1 - w);
    } else {
      TwoRunCounts(y[1..], k - 1, w);
    }
  }
}
