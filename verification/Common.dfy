/** Small shared vocabulary: options, results, hidden rows and gathers. */
module Common {
  datatype Option<+T> = None | Some(value: T)

  datatype Result<+T, +E> = Ok(value: T) | Err(error: E)

  /** One hidden row of a rank-2 tensor. */
  type Row = seq<real>

  function Min(a: int, b: int): int { if a <= b then a else b }

  function Max(a: int, b: int): int { if a <= b then b else a }

  /** index_select(0, ids): the rows named by `ids`, in that order. */
  function Gather<T>(rows: seq<T>, ids: seq<int>): (out: seq<T>)
    requires forall k :: 0 <= k < |ids| ==> 0 <= ids[k] < |rows|
    ensures |out| == |ids|
  {
    seq(|ids|, k requires 0 <= k < |ids| => rows[ids[k]])
  }

  /** arange(n) */
  function Arange(n: nat): (out: seq<int>) { seq(n, i => i) }

  ghost predicate StrictlyIncreasing(ids: seq<int>) {
    forall a, b :: 0 <= a < b < |ids| ==> ids[a] < ids[b]
  }

  /** n strictly increasing ids in [0, n) are the identity. */
  lemma {:induction false} IncreasingCoverIsIdentity(ids: seq<int>, n: nat)
    requires StrictlyIncreasing(ids) && |ids| == n
    requires forall k :: 0 <= k < n ==> 0 <= ids[k] < n
    ensures ids == Arange(n)
  {
    forall k | 0 <= k < n ensures ids[k] == k {
      IncreasingAtLeast(ids, 0, k);
      IncreasingAtLeast(ids, k, n - 1);
    }
  }

  lemma {:induction false} IncreasingAtLeast(ids: seq<int>, a: nat, b: nat)
    requires StrictlyIncreasing(ids) && a <= b < |ids|
    ensures ids[b] - ids[a] >= b - a
    decreases b
  {
    if a < b { IncreasingAtLeast(ids, a, b - 1); }
  }
}
