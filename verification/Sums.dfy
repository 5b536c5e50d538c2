/** Finite sums of reals. */
module Sums {
  function Sum(n: nat, x: int -> real): real {
    if n == 0 then 0.0 else Sum(n - 1, x) + x(n - 1)
  }

  lemma {:induction false} SumEqual(n: nat, x: int -> real, y: int -> real)
    requires forall i :: 0 <= i < n ==> x(i) == y(i)
    ensures Sum(n, x) == Sum(n, y)
  {
    if n > 0 { SumEqual(n - 1, x, y); }
  }

  /** Terms from n on that are zero do not count. */
  lemma {:induction false} SumTruncate(n: nat, m: nat, x: int -> real)
    requires n <= m && forall i :: n <= i < m ==> x(i) == 0.0
    ensures Sum(m, x) == Sum(n, x)
  {
    if n < m { SumTruncate(n, m - 1, x); }
  }

  lemma {:induction false} SumScale(n: nat, x: int -> real, c: real)
    requires c != 0.0
    ensures Sum(n, i => x(i) / c) == Sum(n, x) / c
  {
    if n > 0 {
      SumScale(n - 1, x, c);
      assert Sum(n - 1, x) / c + x(n - 1) / c == (Sum(n - 1, x) + x(n - 1)) / c;
    }
  }

  lemma {:induction false} SumAdd(n: nat, x: int -> real, y: int -> real)
    ensures Sum(n, i => x(i) + y(i)) == Sum(n, x) + Sum(n, y)
  {
    if n > 0 { SumAdd(n - 1, x, y); }
  }

  /** A sum with one term. */
  lemma {:induction false} SumPoint(n: nat, p: nat, x: int -> real)
    requires p < n && forall i :: 0 <= i < n && i != p ==> x(i) == 0.0
    ensures Sum(n, x) == x(p)
  {
    SumTruncate(p + 1, n, x);
    SumTruncate(0, p, x);
  }

  lemma {:induction false} SumOnes(n: nat, x: int -> real)
    requires forall i :: 0 <= i < n ==> x(i) == 1.0
    ensures Sum(n, x) == n as real
  {
    if n > 0 { SumOnes(n - 1, x); }
  }

  lemma {:induction false} SumSplit(n: nat, m: nat, x: int -> real)
    ensures Sum(n + m, x) == Sum(n, x) + Sum(m, i => x(n + i))
  {
    if m > 0 {
      SumSplit(n, m - 1, x);
      SumEqual(m - 1, i => x(n + i), i => x(n + i));
    }
  }

  /** One masked tile of width w at offset h: lanes past n load zero. */
  function Tile(h: nat, w: nat, n: nat, x: int -> real): real {
    Sum(w, i => if h + i < n then x(h + i) else 0.0)
  }

  /** Adding a masked tile advances the running sum to the end of the tile or of the data. */
  lemma {:induction false} TileStep(h: nat, w: nat, n: nat, x: int -> real)
    requires h <= n
    ensures Sum(h, x) + Tile(h, w, n, x) == Sum(if h + w < n then h + w else n, x)
  {
    var m := if h + w < n then w else n - h;
    var lane := i => if h + i < n then x(h + i) else 0.0;
    SumTruncate(m, w, lane);
    SumEqual(m, lane, i => x(h + i));
    SumSplit(h, m, x);
  }
}
