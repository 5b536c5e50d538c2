/** Block sizes, grids and row-major offsets shared by the Triton kernels. */
module Blocks {
  import opened Common

  // ---- block sizes ---------------------------------------------------------------------

  /** int.bit_length: of the absolute value */
  function BitLength(n: int): nat
    decreases if n < 0 then -n else n
  {
    if n == 0 then 0 else 1 + BitLength((if n < 0 then -n else n) / 2)
  }

  function Pow2(k: nat): (p: nat)
    ensures p > 0
  {
    if k == 0 then 1 else 2 * Pow2(k - 1)
  }

  function NextPowerOf2(value: int): nat { Pow2(BitLength(value - 1)) }

  lemma {:induction false} BitLengthBounds(n: nat)
    ensures n < Pow2(BitLength(n))
    ensures n > 0 ==> Pow2(BitLength(n)) <= 2 * n
  {
    if n > 0 { BitLengthBounds(n / 2); }
  }

  /** The least power of two that is not below the value. */
  lemma {:induction false} NextPowerOf2Bounds(value: int)
    requires value > 0
    ensures value <= NextPowerOf2(value) < 2 * value
  {
    BitLengthBounds(value - 1);
  }

  // ---- row-major offsets -----------------------------------------------------------------

  /** n * m, as repeated addition: offsets are then linear steps. */
  function Times(n: nat, m: nat): (t: nat)
    ensures n == 0 ==> t == 0
  {
    if n == 0 then 0 else Times(n - 1, m) + m
  }

  lemma {:induction false} TimesIsProduct(n: nat, m: nat)
    ensures Times(n, m) == n * m
  {
    if n > 0 { TimesIsProduct(n - 1, m); }
  }

  /** Row i of a tensor with rows of m ends inside a tensor with n rows. */
  lemma {:induction false} RowInside(i: nat, n: nat, m: nat)
    requires i < n
    ensures Times(i, m) + m <= Times(n, m)
  {
    if i < n - 1 { RowInside(i, n - 1, m); }
  }

  lemma {:induction false} TimesDistributes(a: nat, b: nat, m: nat)
    ensures Times(a + b, m) == Times(a, m) + Times(b, m)
  {
    if b > 0 { TimesDistributes(a, b - 1, m); }
  }

  /** Flat offset of [i, j, k] as the kernels compute it, slot * m * l + j * l + k. */
  function Offset3(i: nat, j: nat, k: nat, m: nat, l: nat): nat { Times(Times(i, m), l) + Times(j, l) + k }

  /** It is the row-major offset of row i * m + j, and in bounds. */
  lemma {:induction false} Offset3RowMajor(i: nat, j: nat, k: nat, n: nat, m: nat, l: nat)
    requires i < n && j < m && k < l
    ensures Offset3(i, j, k, m, l) == Times(Times(i, m) + j, l) + k < Times(Times(n, m), l)
  {
    TimesDistributes(Times(i, m), j, l);
    RowInside(i, n, m);
    RowInside(Times(i, m) + j, Times(n, m), l);
  }

  /** triton.cdiv */
  function Cdiv(n: nat, d: nat): nat
    requires d > 0
  {
    (n + d - 1) / d
  }

  lemma {:induction false} DivBounds(a: nat, d: nat)
    requires d > 0
    ensures (a / d) * d <= a < (a / d) * d + d
  {
  }

  /** cdiv blocks of d cover n, and every block starts inside. */
  lemma {:induction false} CdivCovers(n: nat, d: nat)
    requires d > 0
    ensures n <= Times(Cdiv(n, d), d) < n + d
    ensures forall k: nat :: k < Cdiv(n, d) ==> Times(k, d) < n
  {
    TimesIsProduct(Cdiv(n, d), d);
    DivBounds(n + d - 1, d);
    hide Cdiv;
    forall k: nat | k < Cdiv(n, d) ensures Times(k, d) < n { RowInside(k, Cdiv(n, d), d); }
  }

  // ---- masked stores into row-major outputs ---------------------------------------------

  function FlatRows<T>(rows: seq<seq<T>>): seq<T> {
    if rows == [] then [] else FlatRows(rows[..|rows| - 1]) + rows[|rows| - 1]
  }

  ghost predicate AllWide<T>(rows: seq<seq<T>>, m: nat) { forall r :: 0 <= r < |rows| ==> |rows[r]| == m }

  lemma {:induction false} FlatRowsSize<T>(rows: seq<seq<T>>, m: nat)
    requires AllWide(rows, m)
    ensures |FlatRows(rows)| == Times(|rows|, m)
  {
    if rows != [] { FlatRowsSize(rows[..|rows| - 1], m); }
  }

  lemma {:induction false} FlatRowsAt<T>(rows: seq<seq<T>>, m: nat, r: nat, k: nat)
    requires AllWide(rows, m) && r < |rows| && k < m
    ensures Times(r, m) + k < |FlatRows(rows)| && FlatRows(rows)[Times(r, m) + k] == rows[r][k]
  {
    var init := rows[..|rows| - 1];
    FlatRowsSize(init, m);
    if r < |init| { FlatRowsAt(init, m, r, k); }
  }

  /** The rows below `row`, and the columns of `row` below `upto`, hold what they should. */
  ghost predicate Written<T>(mem: seq<T>, want: seq<seq<T>>, row: nat, upto: nat, m: nat) {
    && row < |want| && upto <= |want[row]| && Times(row, m) + upto <= |mem|
    && mem[..Times(row, m) + upto] == FlatRows(want[..row]) + want[row][..upto]
  }

  /** A store of a block of lanes at column `base` of `row`, masked past the row's end. */
  method StoreMasked<T>(mem: array<T>, ghost want: seq<seq<T>>, row: nat, base: nat, lanes: seq<T>, m: nat)
    requires row < |want| && AllWide(want, m) && base <= m && mem.Length == Times(|want|, m)
    requires forall i :: 0 <= i < |lanes| && base + i < m ==> lanes[i] == want[row][base + i]
    requires Written(mem[..], want, row, base, m)
    modifies mem
    ensures Written(mem[..], want, row, Min(m, base + |lanes|), m)
  {
    RowInside(row, |want|, m);
    var start := Times(row, m);
    hide Times, FlatRows;
    for i := 0 to |lanes|
      invariant Written(mem[..], want, row, Min(m, base + i), m)
    {
      if base + i < m {
        ghost var before := mem[..start + base + i];
        mem[start + base + i] := lanes[i];
        assert mem[..start + base + i + 1] == before + [lanes[i]];
        assert want[row][..base + i + 1] == want[row][..base + i] + [lanes[i]];
      }
    }
  }

  /** A finished row is the start of the next. */
  lemma {:induction false} RowWritten<T>(mem: seq<T>, want: seq<seq<T>>, row: nat, m: nat)
    requires AllWide(want, m) && Written(mem, want, row, m, m)
    ensures Times(row + 1, m) <= |mem| && mem[..Times(row + 1, m)] == FlatRows(want[..row + 1])
    ensures row + 1 < |want| ==> Written(mem, want, row + 1, 0, m)
  {
    assert want[..row + 1][..row] == want[..row];
    assert want[row][..m] == want[row];
  }
}
