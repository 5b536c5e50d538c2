/** Strided views that stand in for gathers of regularly spaced rows. */
module RowViews {
  import opened Common

  /** A rank-2 view into storage: element [i, j] is at offset + i * s0 + j * s1. */
  datatype View = View(offset: int, rows: nat, cols: nat, s0: int, s1: int)

  function Address(v: View, i: int, j: int): int { v.offset + i * v.s0 + j * v.s1 }

  ghost predicate InStorage(v: View, size: nat) {
    forall i, j :: 0 <= i < v.rows && 0 <= j < v.cols ==> 0 <= Address(v, i, j) < size
  }

  /** Evenly spaced, increasing, and inside n rows. */
  predicate IsRegular(ids: seq<int>, n: nat) {
    ids == [] || (0 <= ids[0] && ids[|ids| - 1] < n
      && (|ids| > 1 ==> ids[1] > ids[0])
      && forall k :: 0 <= k < |ids| - 1 ==> ids[k + 1] - ids[k] == ids[1] - ids[0])
  }

  lemma {:induction false} RegularAt(ids: seq<int>, n: nat, k: nat)
    requires IsRegular(ids, n) && k < |ids|
    ensures ids[k] == if k == 0 then ids[0] else ids[0] + k * (ids[1] - ids[0])
    ensures 0 <= ids[k] < n
  {
    LastBelow(ids, n, k);
    if k > 0 {
      RegularAt(ids, n, k - 1);
      assert ids[k - 1 + 1] - ids[k - 1] == ids[1] - ids[0];
    }
  }

  lemma {:induction false} LastBelow(ids: seq<int>, n: nat, k: nat)
    requires IsRegular(ids, n) && k < |ids|
    ensures ids[k] < n
    decreases |ids| - k
  {
    if k < |ids| - 1 { LastBelow(ids, n, k + 1); }
  }

  /** Row k of a view is row ids[k] of the view it was made from. */
  ghost predicate Selects(r: View, v: View, ids: seq<int>) {
    && r.rows == |ids| && r.cols == v.cols
    && (forall k :: 0 <= k < |ids| ==> 0 <= ids[k] < v.rows)
    && forall k, j :: 0 <= k < |ids| ==> Address(r, k, j) == Address(v, ids[k], j)
  }

  lemma {:induction false} StrideAddress(offset: int, start: int, step: int, k: int, s0: int)
    ensures offset + start * s0 + k * (s0 * step) == offset + (start + k * step) * s0
  {
    calc {
      (start + k * step) * s0;
      start * s0 + (k * step) * s0;
      { assert (k * step) * s0 == k * (step * s0) && step * s0 == s0 * step; }
      start * s0 + k * (s0 * step);
    }
  }

  function Strided(v: View, start: int, step: int, n: nat): View
  {
    View(v.offset + start * v.s0, n, v.cols, v.s0 * step, v.s1)
  }

  lemma {:induction false} StridedSelects(v: View, ids: seq<int>)
    requires IsRegular(ids, v.rows) && |ids| > 1
    ensures Selects(Strided(v, ids[0], ids[1] - ids[0], |ids|), v, ids)
  {
    var start, step := ids[0], ids[1] - ids[0];
    var r := Strided(v, start, step, |ids|);
    forall k | 0 <= k < |ids| ensures 0 <= ids[k] < v.rows { RegularAt(ids, v.rows, k); }
    forall k, j | 0 <= k < |ids| ensures Address(r, k, j) == Address(v, ids[k], j) {
      RegularAt(ids, v.rows, k);
      StrideAddress(v.offset, start, step, k, v.s0);
    }
  }

  lemma {:induction false} SingleSelects(v: View, ids: seq<int>)
    requires |ids| == 1 && 0 <= ids[0] < v.rows
    ensures Selects(v.(offset := v.offset + ids[0] * v.s0, rows := 1), v, ids)
  {
  }

  /** _regular_row_view, and _regular_position_view on one column: a view exists exactly for regular
      ids, and its row k is row ids[k] of the original. */
  method RegularView(v: View, ids: seq<int>) returns (r: Option<View>)
    ensures r.Some? <==> IsRegular(ids, v.rows)
    ensures r.Some? ==> Selects(r.value, v, ids)
  {
    hide Strided, Address;
    if ids == [] { return Some(v.(rows := 0)); }
    if |ids| == 1 {
      if ids[0] < 0 || ids[0] >= v.rows { return None; }
      SingleSelects(v, ids);
      return Some(v.(offset := v.offset + ids[0] * v.s0, rows := 1));
    }
    var step, start := ids[1] - ids[0], ids[0];
    if step <= 0 || start < 0 || ids[|ids| - 1] >= v.rows { return None; }
    for k := 0 to |ids| - 1
      invariant forall i :: 0 <= i < k ==> ids[i + 1] - ids[i] == step
    {
      if ids[k + 1] - ids[k] != step { return None; }
    }
    StridedSelects(v, ids);
    r := Some(Strided(v, start, step, |ids|));
  }

  function RowOf(storage: seq<real>, v: View, i: int): Row
    requires InStorage(v, |storage|) && 0 <= i < v.rows
  {
    seq(v.cols, j requires 0 <= j < v.cols => storage[Address(v, i, j)])
  }

  /** Such a view stays inside the storage and reads exactly what the gather reads. */
  lemma {:induction false} ViewIsGather(storage: seq<real>, v: View, ids: seq<int>, r: View)
    requires InStorage(v, |storage|) && Selects(r, v, ids)
    ensures InStorage(r, |storage|)
    ensures forall k :: 0 <= k < |ids| ==> 0 <= ids[k] < v.rows && RowOf(storage, r, k) == RowOf(storage, v, ids[k])
  {
    forall k, j | 0 <= k < r.rows && 0 <= j < r.cols ensures 0 <= Address(r, k, j) < |storage| {
      assert Address(r, k, j) == Address(v, ids[k], j);
    }
  }
}
