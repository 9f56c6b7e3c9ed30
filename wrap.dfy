/**
 * The wraparound slide index every carousel of the sites uses:
 * `(i + 1) % n` forward and `(i - 1 + n) % n` backward, and the marker
 * row (dots, active cards) that shows which slide is current.
 *
 * For the non-negative operands these formulas meet, JavaScript's
 * truncating `%` and Dafny's Euclidean `%` agree.
 */
module Wrap {

  /** `(i + 1) % n`: the slide after `i`, the first one after the last. */
  function Succ(i: int, n: int): (r: int)
    requires n >= 1 && i >= 0
    ensures 0 <= r < n
    ensures i < n ==> r == if i == n - 1 then 0 else i + 1
  {
    (i + 1) % n
  }

  /** `(i - 1 + n) % n`: the slide before `i`, the last one before the first. */
  function Pred(i: int, n: int): (r: int)
    requires n >= 1 && i >= 0
    ensures 0 <= r < n
    ensures i < n ==> r == if i == 0 then n - 1 else i - 1
  {
    (i - 1 + n) % n
  }

  lemma PredSucc(i: int, n: int)
    requires 0 <= i < n
    ensures Pred(Succ(i, n), n) == i
  {
  }

  lemma SuccPred(i: int, n: int)
    requires 0 <= i < n
    ensures Succ(Pred(i, n), n) == i
  {
  }

  /** The index after `k` forward steps from `i`: up to a full round, it passes the last slide at most once. */
  function SuccN(i: int, n: int, k: nat): (r: int)
    requires 0 <= i < n
    ensures 0 <= r < n
    ensures k <= n ==> r == if i + k < n then i + k else i + k - n
  {
    if k == 0 then i else Succ(SuccN(i, n, k - 1), n)
  }

  /** `n` forward steps on `n` slides come back to the start. */
  lemma {:induction false} FullCycle(i: int, n: int)
    requires 0 <= i < n
    ensures SuccN(i, n, n) == i
    ensures forall k :: 0 < k < n ==> SuccN(i, n, k) != i
  {
  }

  /** The marker row for `n` slides: only position `index` is marked. */
  function Markers(n: nat, index: int): (r: seq<bool>)
    ensures |r| == n
    ensures forall k :: 0 <= k < n ==> (r[k] <==> k == index)
  {
    seq(n, k => k == index)
  }

  /** A valid index marks exactly one position, an invalid one none. */
  lemma {:induction false} MarkersExactlyOne(n: nat, index: int)
    ensures 0 <= index < n ==> Markers(n, index)[index]
    ensures forall k, l :: 0 <= k < n && 0 <= l < n && Markers(n, index)[k] && Markers(n, index)[l] ==> k == l
    ensures !(0 <= index < n) ==> forall k :: 0 <= k < n ==> !Markers(n, index)[k]
  {
  }
}
