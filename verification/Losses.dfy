/** Training losses: the eager formulas, and the masked, padded formulas a captured graph computes
    over whole buffers whose tail is stale. */
module Losses {
  import opened Common
  import opened Sums

  /** One forward pass of a bank slot; shared training uses slot 0. */
  type Forward = (int, Row) -> Row

  function Cell(row: Row, j: int): real { if 0 <= j < |row| then row[j] else 0.0 }

  /** Squared error of one predicted row over `width` elements. */
  function RowSq(f: Forward, slot: int, src: Row, tgt: Row, width: nat): real { Distance(f(slot, src), tgt, width) }

  function Distance(got: Row, tgt: Row, width: nat): real {
    Sum(width, j => (Cell(got, j) - Cell(tgt, j)) * (Cell(got, j) - Cell(tgt, j)))
  }

  /** .mean(dim=1) */
  function RowMse(f: Forward, slot: int, src: Row, tgt: Row, width: nat): real
    requires width > 0
  {
    RowSq(f, slot, src, tgt, width) / (width as real)
  }

  function At(rows: seq<Row>, i: int): Row { if 0 <= i < |rows| then rows[i] else [] }

  function Clamp1(x: real): real { if x < 1.0 then 1.0 else x }

  /** Over rows as wide as the model: the sum of the squared differences of their cells. */
  lemma {:induction false} RowSqMeaning(f: Forward, slot: int, src: Row, tgt: Row, width: nat)
    requires |f(slot, src)| == |tgt| == width
    ensures RowSq(f, slot, src, tgt, width) ==
      Sum(width, j => if 0 <= j < width then (f(slot, src)[j] - tgt[j]) * (f(slot, src)[j] - tgt[j]) else 0.0)
  {
    var got := f(slot, src);
    SumEqual(width, j => (Cell(got, j) - Cell(tgt, j)) * (Cell(got, j) - Cell(tgt, j)),
             j => if 0 <= j < width then (f(slot, src)[j] - tgt[j]) * (f(slot, src)[j] - tgt[j]) else 0.0);
  }

  // ---- shared ------------------------------------------------------------------------

  /** F.mse_loss over the active rows: mean over all elements. */
  function SharedEager(f: Forward, src: seq<Row>, tgt: seq<Row>, n: nat, width: nat): real
    requires n > 0 && width > 0
  {
    Sum(n, Squares(f, src, tgt, width)) / (n as real * width as real)
  }

  /** The captured graph: row means weighted by `valid`, over every row of the buffer. */
  function SharedGraph(f: Forward, src: seq<Row>, tgt: seq<Row>, valid: seq<real>, width: nat): real
    requires width > 0
  {
    Sum(|valid|, Weighed(f, src, tgt, valid, width)) / Clamp1(Sum(|valid|, Valids(valid)))
  }

  /** The mean over all elements of the active rows, under the one shared model. */
  lemma {:induction false} SharedEagerMeaning(f: Forward, src: seq<Row>, tgt: seq<Row>, n: nat, width: nat)
    requires 0 < n <= |src| && n <= |tgt| && width > 0
    ensures SharedEager(f, src, tgt, n, width) ==
      Sum(n, i => if 0 <= i < n then RowSq(f, 0, src[i], tgt[i], width) else 0.0) / (n as real * width as real)
  {
    hide RowSq;
    SumEqual(n, Squares(f, src, tgt, width), i => if 0 <= i < n then RowSq(f, 0, src[i], tgt[i], width) else 0.0);
  }

  function ValidAt(valid: seq<real>, i: int): real { if 0 <= i < |valid| then valid[i] else 0.0 }

  /** valid is 1 on the first n rows and 0 behind them. */
  ghost predicate Prefix(valid: seq<real>, n: nat) {
    n <= |valid| && forall i :: 0 <= i < |valid| ==> valid[i] == if i < n then 1.0 else 0.0
  }

  /** Two batches agree on their first n rows. */
  ghost predicate SameRows(a: seq<Row>, b: seq<Row>, n: nat) {
    n <= |a| && n <= |b| && a[..n] == b[..n]
  }

  lemma {:induction false} SameRowsAt(a: seq<Row>, b: seq<Row>, n: nat, i: nat)
    requires SameRows(a, b, n) && i < n
    ensures At(a, i) == At(b, i)
  {
    assert a[..n][i] == b[..n][i];
  }

  lemma {:induction false} Quotient(a: real, w: real, n: real)
    requires w > 0.0 && n > 0.0
    ensures (a / w) / n == a / (n * w)
  {
    var q := a / w / n;
    assert q * n == a / w;
    assert q * n * w == a;
    assert q * (n * w) == a;
  }

  lemma {:induction false} ValidSum(valid: seq<real>, n: nat)
    requires Prefix(valid, n)
    ensures Sum(|valid|, Valids(valid)) == n as real
  {
    SumTruncate(n, |valid|, Valids(valid));
    SumOnes(n, Valids(valid));
  }

  function Weighed(f: Forward, buf: seq<Row>, tbuf: seq<Row>, valid: seq<real>, width: nat): int -> real
    requires width > 0
  {
    i => RowMse(f, 0, At(buf, i), At(tbuf, i), width) * ValidAt(valid, i)
  }

  function Squares(f: Forward, src: seq<Row>, tgt: seq<Row>, width: nat): int -> real {
    i => RowSq(f, 0, At(src, i), At(tgt, i), width)
  }

  lemma {:induction false} SharedNumerator(f: Forward, buf: seq<Row>, tbuf: seq<Row>, src: seq<Row>, tgt: seq<Row>,
        valid: seq<real>, n: nat, width: nat)
    requires width > 0 && n > 0 && Prefix(valid, n) && SameRows(buf, src, n) && SameRows(tbuf, tgt, n)
    ensures Sum(|valid|, Weighed(f, buf, tbuf, valid, width)) == Sum(n, Squares(f, src, tgt, width)) / (width as real)
  {
    hide RowSq;
    var g, sq := Weighed(f, buf, tbuf, valid, width), Squares(f, src, tgt, width);
    SumTruncate(n, |valid|, g);
    forall i | 0 <= i < n ensures g(i) == sq(i) / (width as real) {
      SameRowsAt(buf, src, n, i);
      SameRowsAt(tbuf, tgt, n, i);
    }
    SumEqual(n, g, i => sq(i) / (width as real));
    SumScale(n, sq, width as real);
  }

  /** The masked graph loss over stale rows is the eager loss on the active rows. */
  lemma {:induction false} SharedGraphIsEager(f: Forward, buf: seq<Row>, tbuf: seq<Row>, src: seq<Row>, tgt: seq<Row>,
        valid: seq<real>, n: nat, width: nat)
    requires width > 0 && n > 0 && Prefix(valid, n) && SameRows(buf, src, n) && SameRows(tbuf, tgt, n)
    ensures SharedGraph(f, buf, tbuf, valid, width) == SharedEager(f, src, tgt, n, width)
  {
    hide RowSq, RowMse, Sum, Prefix, SameRows;
    SharedNumerator(f, buf, tbuf, src, tgt, valid, n, width);
    ValidSum(valid, n);
    Quotient(Sum(n, Squares(f, src, tgt, width)), width as real, n as real);
  }

  // ---- model bank ----------------------------------------------------------------------

  function SlotAt(slots: seq<nat>, i: int): int { if 0 <= i < |slots| then slots[i] else -1 }

  function Only(slots: seq<nat>, u: int, x: int -> real): int -> real {
    i => if SlotAt(slots, i) == u then x(i) else 0.0
  }

  /** scatter_add of x over the rows of slot u */
  function SlotSum(slots: seq<nat>, u: int, n: nat, x: int -> real): real { Sum(n, Only(slots, u, x)) }

  function SlotMean(slots: seq<nat>, u: int, n: nat, x: int -> real, w: int -> real): real {
    SlotSum(slots, u, n, x) / Clamp1(SlotSum(slots, u, n, w))
  }

  /** sorted(set(slots)) for slots below k */
  function UniqueBelow(slots: seq<nat>, k: nat): (ids: seq<nat>)
    ensures forall i :: 0 <= i < |ids| ==> ids[i] < k && ids[i] in slots
  {
    if k == 0 then [] else UniqueBelow(slots, k - 1) + (if k - 1 in slots then [k - 1] else [])
  }

  lemma {:induction false} UniqueBelowMeaning(slots: seq<nat>, k: nat)
    ensures StrictlyIncreasing(UniqueBelow(slots, k))
    ensures forall u :: u in UniqueBelow(slots, k) <==> u < k && u in slots
  {
    if k > 0 { UniqueBelowMeaning(slots, k - 1); }
  }

  function MseOf(f: Forward, slots: seq<nat>, src: seq<Row>, tgt: seq<Row>, width: nat): int -> real
    requires width > 0
  {
    i => RowMse(f, SlotAt(slots, i), At(src, i), At(tgt, i), width)
  }

  function One(): int -> real { i => 1.0 }

  /** The eager kernel: sum over the distinct slots of each slot's mean row loss. */
  function BankEager(f: Forward, slots: seq<nat>, src: seq<Row>, tgt: seq<Row>, bank: nat, width: nat): real
    requires width > 0
  {
    var ids := UniqueBelow(slots, bank);
    Sum(|ids|, k =>
      SlotMean(slots, if 0 <= k < |ids| then ids[k] else -1, |slots|, MseOf(f, slots, src, tgt, width), One()))
  }

  /** Rows with key u: of slot u, or of prompt u. */
  function RowsWith(slots: seq<int>, u: int): set<int> { set i | 0 <= i < |slots| && slots[i] == u }

  /** Every distinct slot adds the mean, over exactly its own rows and all their elements, of the squared
      error under its own model. */
  lemma {:induction false} BankEagerMeaning(f: Forward, slots: seq<nat>, src: seq<Row>, tgt: seq<Row>, bank: nat,
                                            width: nat)
    requires width > 0 && |src| == |tgt| == |slots|
    ensures var ids := UniqueBelow(slots, bank);
      BankEager(f, slots, src, tgt, bank, width) == Sum(|ids|, k =>
        if 0 <= k < |ids| then OwnError(f, ids[k], slots, src, tgt, width) else 0.0)
  {
    var ids := UniqueBelow(slots, bank);
    var means := k => SlotMean(slots, if 0 <= k < |ids| then ids[k] else -1, |slots|, MseOf(f, slots, src, tgt, width),
                               One());
    var errors := k => if 0 <= k < |ids| then OwnError(f, ids[k], slots, src, tgt, width) else 0.0;
    forall k | 0 <= k < |ids| ensures means(k) == errors(k) {
      assert ids[k] in slots;
      SlotMeanIsError(f, ids[k], slots, src, tgt, width);
    }
    SumEqual(|ids|, means, errors);
    SumEqual(|ids|, errors, k => if 0 <= k < |ids| then OwnError(f, ids[k], slots, src, tgt, width) else 0.0);
    assert BankEager(f, slots, src, tgt, bank, width) == Sum(|ids|, means) by {
      SumEqual(|ids|, means, k => SlotMean(slots, if 0 <= k < |ids| then ids[k] else -1, |slots|,
                                           MseOf(f, slots, src, tgt, width), One()));
    }
  }

  /** The mean squared error of the rows with key u, under model u. */
  ghost function OwnError(f: Forward, u: int, slots: seq<int>, src: seq<Row>, tgt: seq<Row>, width: nat): real
    requires width > 0 && |src| == |tgt| == |slots|
  {
    var n := |RowsWith(slots, u)|;
    if n == 0 then 0.0
    else Sum(|slots|, i => if 0 <= i < |slots| && slots[i] == u then RowSq(f, u, src[i], tgt[i], width) else 0.0)
           / (n as real * width as real)
  }

  /** The mean of rows * width terms. */
  function Mean(total: real, rows: nat, width: nat): real
    requires rows > 0 && width > 0
  {
    total / (rows as real * width as real)
  }

  function OwnSquares(f: Forward, u: int, slots: seq<int>, src: seq<Row>, tgt: seq<Row>, width: nat): int -> real
    requires |src| == |tgt| == |slots|
  {
    i => if 0 <= i < |slots| && slots[i] == u then RowSq(f, u, src[i], tgt[i], width) else 0.0
  }

  lemma {:induction false} OwnErrorIs(f: Forward, u: int, slots: seq<int>, src: seq<Row>, tgt: seq<Row>, width: nat)
    requires width > 0 && |src| == |tgt| == |slots|
    ensures var n := |RowsWith(slots, u)|;
      OwnError(f, u, slots, src, tgt, width) ==
        if n == 0 then 0.0 else Mean(Sum(|slots|, OwnSquares(f, u, slots, src, tgt, width)), n, width)
  {
    hide RowSq;
    SumEqual(|slots|, OwnSquares(f, u, slots, src, tgt, width),
             i => if 0 <= i < |slots| && slots[i] == u then RowSq(f, u, src[i], tgt[i], width) else 0.0);
  }

  lemma {:induction false} SlotMeanIsError(f: Forward, u: nat, slots: seq<nat>, src: seq<Row>, tgt: seq<Row>,
                                           width: nat)
    requires width > 0 && |src| == |tgt| == |slots| && u in slots
    ensures SlotMean(slots, u, |slots|, MseOf(f, slots, src, tgt, width), One()) ==
      OwnError(f, u, slots, src, tgt, width)
  {
    hide RowSq, RowMse, SlotSum, OwnError, OwnSquares, Sum, RowsBelow, MseOf;
    var n, sq := |slots|, OwnSquares(f, u, slots, src, tgt, width);
    SlotSquares(f, u, slots, src, tgt, width);
    SlotCount(slots, u, n);
    SlotRows(slots, u);
    OwnErrorIs(f, u, slots, src, tgt, width);
    Quotient(Sum(n, sq), width as real, |RowsWith(slots, u)| as real);
  }

  lemma {:induction false} SlotRows(slots: seq<int>, u: int)
    requires u in slots
    ensures RowsWith(slots, u) == RowsBelow(slots, u, |slots|) && |RowsWith(slots, u)| > 0
  {
    var i :| 0 <= i < |slots| && slots[i] == u;
    assert i in RowsWith(slots, u);
  }

  lemma {:induction false} SlotSquares(f: Forward, u: nat, slots: seq<nat>, src: seq<Row>, tgt: seq<Row>, width: nat)
    requires width > 0 && |src| == |tgt| == |slots|
    ensures SlotSum(slots, u, |slots|, MseOf(f, slots, src, tgt, width)) ==
      Sum(|slots|, OwnSquares(f, u, slots, src, tgt, width)) / (width as real)
  {
    hide RowSq;
    var sq := OwnSquares(f, u, slots, src, tgt, width);
    SlotSumIs(slots, u, |slots|, MseOf(f, slots, src, tgt, width), i => sq(i) / (width as real));
    SumScale(|slots|, sq, width as real);
  }

  lemma {:induction false} SlotSumIs(slots: seq<nat>, u: nat, n: nat, x: int -> real, y: int -> real)
    requires n <= |slots|
    requires forall i :: 0 <= i < n ==> y(i) == if slots[i] == u then x(i) else 0.0
    ensures SlotSum(slots, u, n, x) == Sum(n, y)
  {
    var only := Only(slots, u, x);
    forall i | 0 <= i < n ensures only(i) == y(i) { assert SlotAt(slots, i) == slots[i]; }
    SumEqual(n, only, y);
  }

  function RowsBelow(slots: seq<int>, u: int, n: nat): set<int>
    requires n <= |slots|
  {
    set i | 0 <= i < n && slots[i] == u
  }

  /** Summing ones over a slot's rows counts them. */
  lemma {:induction false} SlotCount(slots: seq<nat>, u: nat, n: nat)
    requires n <= |slots|
    ensures SlotSum(slots, u, n, One()) == |RowsBelow(slots, u, n)| as real
  {
    if n > 0 {
      SlotCount(slots, u, n - 1);
      var before, now := RowsBelow(slots, u, n - 1), RowsBelow(slots, u, n);
      assert now == if slots[n - 1] == u then before + {n - 1} else before;
      assert SlotSum(slots, u, n, One()) == SlotSum(slots, u, n - 1, One()) + Only(slots, u, One())(n - 1);
      assert SlotAt(slots, n - 1) == slots[n - 1];
      assert n - 1 !in before;
      hide SlotSum, RowsBelow;
    }
  }

  function Weighted(f: Forward, slots: seq<nat>, src: seq<Row>, tgt: seq<Row>, valid: seq<real>,
        width: nat): int -> real
    requires width > 0
  {
    i => RowMse(f, SlotAt(slots, i), At(src, i), At(tgt, i), width) * ValidAt(valid, i)
  }

  function Valids(valid: seq<real>): int -> real { i => ValidAt(valid, i) }

  /** The captured graph: slot means over every bank slot, masked by whether the slot has rows. */
  function BankGraph(f: Forward, slots: seq<nat>, src: seq<Row>, tgt: seq<Row>, valid: seq<real>, bank: nat,
        width: nat): real
    requires width > 0
  {
    Sum(bank, u => SlotMean(slots, u, |valid|, Weighted(f, slots, src, tgt, valid, width), Valids(valid))
                   * (if SlotSum(slots, u, |valid|, Valids(valid)) > 0.0 then 1.0 else 0.0))
  }

  lemma {:induction false} SlotSumZero(slots: seq<nat>, u: int, n: nat, x: int -> real)
    requires forall i :: 0 <= i < n ==> SlotAt(slots, i) != u
    ensures SlotSum(slots, u, n, x) == 0.0
  {
    SumEqual(n, Only(slots, u, x), i => 0.0);
    SumTruncate(0, n, i => 0.0);
  }

  lemma {:induction false} SlotSumPositive(slots: seq<nat>, u: int, n: nat, r: nat)
    requires r < n && SlotAt(slots, r) == u
    ensures SlotSum(slots, u, n, One()) >= 1.0
    decreases n
  {
    if r == n - 1 { SlotSumNonNegative(slots, u, n - 1); } else { SlotSumPositive(slots, u, n - 1, r); }
  }

  lemma {:induction false} SlotSumNonNegative(slots: seq<nat>, u: int, n: nat)
    ensures SlotSum(slots, u, n, One()) >= 0.0
  {
    if n > 0 { SlotSumNonNegative(slots, u, n - 1); }
  }

  /** Stale rows carry weight 0, whatever slot id they still hold. */
  lemma {:induction false} SlotSumsAgree(f: Forward, gslots: seq<nat>, buf: seq<Row>, tbuf: seq<Row>, valid: seq<real>,
                      slots: seq<nat>, src: seq<Row>, tgt: seq<Row>, u: int, width: nat)
    requires width > 0 && Prefix(valid, |slots|) && |gslots| == |valid| && gslots[..|slots|] == slots
    requires SameRows(buf, src, |slots|) && SameRows(tbuf, tgt, |slots|)
    ensures SlotSum(gslots, u, |valid|, Weighted(f, gslots, buf, tbuf, valid, width))
         == SlotSum(slots, u, |slots|, MseOf(f, slots, src, tgt, width))
    ensures SlotSum(gslots, u, |valid|, Valids(valid)) == SlotSum(slots, u, |slots|, One())
  {
    var n := |slots|;
    var w, v := Only(gslots, u, Weighted(f, gslots, buf, tbuf, valid, width)), Only(gslots, u, Valids(valid));
    SumTruncate(n, |valid|, w);
    SumTruncate(n, |valid|, v);
    forall i | 0 <= i < n
      ensures w(i) == Only(slots, u, MseOf(f, slots, src, tgt, width))(i)
      ensures v(i) == Only(slots, u, One())(i)
    {
      assert gslots[..n][i] == slots[i];
      SameRowsAt(buf, src, n, i);
      SameRowsAt(tbuf, tgt, n, i);
    }
    SumEqual(n, w, Only(slots, u, MseOf(f, slots, src, tgt, width)));
    SumEqual(n, v, Only(slots, u, One()));
  }

  /** Summing a per-slot value over all bank slots, masked by presence, is summing over the
      distinct slots in order. */
  lemma {:induction false} SumOverUnique(slots: seq<nat>, k: nat, y: int -> real, masked: int -> real)
    requires forall u: nat :: u < k ==> masked(u) == if u in slots then y(u) else 0.0
    ensures var ids := UniqueBelow(slots, k);
      Sum(k, masked) == Sum(|ids|, j => y(if 0 <= j < |ids| then ids[j] else -1))
  {
    var ids := UniqueBelow(slots, k);
    if k > 0 {
      SumOverUnique(slots, k - 1, y, masked);
      var before := UniqueBelow(slots, k - 1);
      SumEqual(|before|,
        j => y(if 0 <= j < |before| then before[j] else -1),
        j => y(if 0 <= j < |ids| then ids[j] else -1));
    }
  }

  /** Sum over all slots of masked slot means on stale, padded buffers equals the eager sum of
      per-slot means on the active rows. */
  lemma {:induction false} BankGraphIsEager(f: Forward, gslots: seq<nat>, buf: seq<Row>, tbuf: seq<Row>,
        valid: seq<real>,
                         slots: seq<nat>, src: seq<Row>, tgt: seq<Row>, bank: nat, width: nat)
    requires width > 0 && Prefix(valid, |slots|) && |gslots| == |valid| && gslots[..|slots|] == slots
    requires SameRows(buf, src, |slots|) && SameRows(tbuf, tgt, |slots|)
    ensures BankGraph(f, gslots, buf, tbuf, valid, bank, width) == BankEager(f, slots, src, tgt, bank, width)
  {
    var x := MseOf(f, slots, src, tgt, width);
    var y := u => SlotMean(slots, u, |slots|, x, One());
    var masked := u => SlotMean(gslots, u, |valid|, Weighted(f, gslots, buf, tbuf, valid, width), Valids(valid))
                       * (if SlotSum(gslots, u, |valid|, Valids(valid)) > 0.0 then 1.0 else 0.0);
    forall u: nat | u < bank ensures masked(u) == if u in slots then y(u) else 0.0 {
      SlotSumsAgree(f, gslots, buf, tbuf, valid, slots, src, tgt, u, width);
      if u in slots {
        var r :| 0 <= r < |slots| && slots[r] == u;
        SlotSumPositive(slots, u, |slots|, r);
      } else {
        forall i | 0 <= i < |slots| ensures SlotAt(slots, i) != u { assert slots[i] in slots; }
        SlotSumZero(slots, u, |slots|, One());
      }
    }
    SumOverUnique(slots, bank, y, masked);
    var ids := UniqueBelow(slots, bank);
    SumEqual(bank, masked, u => SlotMean(gslots, u, |valid|, Weighted(f, gslots, buf, tbuf, valid, width),
      Valids(valid))
                       * (if SlotSum(gslots, u, |valid|, Valids(valid)) > 0.0 then 1.0 else 0.0));
    SumEqual(|ids|, j => y(if 0 <= j < |ids| then ids[j] else -1),
             k => SlotMean(slots, if 0 <= k < |ids| then ids[k] else -1, |slots|, x, One()));
  }

  // ---- one row a slot ----------------------------------------------------------------------

  ghost predicate OneRowEach(slots: seq<nat>, bank: nat) {
    && (forall k :: 0 <= k < |slots| ==> slots[k] < bank)
    && (forall a, b :: 0 <= a < b < |slots| ==> slots[a] != slots[b])
  }

  lemma {:induction false} SlotSumNext(slots: seq<nat>, u: int, n: nat, x: int -> real)
    requires 0 < n <= |slots|
    ensures Only(slots, u, x)(n - 1) == if slots[n - 1] == u then x(n - 1) else 0.0
    ensures SlotSum(slots, u, n, x) == SlotSum(slots, u, n - 1, x) + Only(slots, u, x)(n - 1)
  {
    assert SlotAt(slots, n - 1) == slots[n - 1];
    assert SlotSum(slots, u, n - 1, x) == Sum(n - 1, Only(slots, u, x));
  }

  /** The masked sums of all bank slots together are the sum over the rows. */
  lemma {:induction false} SlotsCover(slots: seq<nat>, n: nat, bank: nat, x: int -> real)
    requires n <= |slots| && forall k :: 0 <= k < |slots| ==> slots[k] < bank
    ensures Sum(bank, u => SlotSum(slots, u, n, x)) == Sum(n, x)
  {
    var at := (u: int) => SlotSum(slots, u, n, x);
    if n == 0 {
      SumTruncate(0, bank, at);
      SumEqual(bank, at, u => SlotSum(slots, u, n, x));
    } else {
      var before, last := (u: int) => SlotSum(slots, u, n - 1, x), (u: int) => Only(slots, u, x)(n - 1);
      SlotsCover(slots, n - 1, bank, x);
      SumEqual(bank, before, u => SlotSum(slots, u, n - 1, x));
      forall u: int
        ensures at(u) == before(u) + last(u) && last(u) == if u == slots[n - 1] then x(n - 1) else 0.0
      {
        SlotSumNext(slots, u, n, x);
      }
      SumPoint(bank, slots[n - 1], last);
      SumAdd(bank, before, last);
      SumEqual(bank, at, u => before(u) + last(u));
      SumEqual(bank, at, u => SlotSum(slots, u, n, x));
    }
  }

  lemma {:induction false} AloneMean(slots: seq<nat>, bank: nat, u: nat, x: int -> real)
    requires OneRowEach(slots, bank)
    ensures u in slots ==> SlotMean(slots, u, |slots|, x, One()) == SlotSum(slots, u, |slots|, x)
    ensures u !in slots ==> SlotSum(slots, u, |slots|, x) == 0.0
  {
    if u in slots {
      var r :| 0 <= r < |slots| && slots[r] == u;
      SlotCount(slots, u, |slots|);
      assert RowsBelow(slots, u, |slots|) == {r};
      hide SlotSum;
      assert SlotSum(slots, u, |slots|, One()) == 1.0;
    } else {
      forall i | 0 <= i < |slots| ensures SlotAt(slots, i) != u { assert slots[i] in slots; }
      SlotSumZero(slots, u, |slots|, x);
    }
  }

  /** With one row a slot the bank's loss is the sum of the rows' mean squared errors, each under the
      model of its own slot. */
  lemma {:induction false} OneRowEachLoss(f: Forward, slots: seq<nat>, src: seq<Row>, tgt: seq<Row>, bank: nat,
                                          width: nat)
    requires width > 0 && |src| == |tgt| == |slots| && OneRowEach(slots, bank)
    ensures BankEager(f, slots, src, tgt, bank, width) == Sum(|slots|, k =>
      if 0 <= k < |slots| then RowSq(f, slots[k], src[k], tgt[k], width) / (width as real) else 0.0)
  {
    hide RowSq, SlotSum, SlotMean;
    var x, n := MseOf(f, slots, src, tgt, width), |slots|;
    var mean, total := (u: int) => SlotMean(slots, u, n, x, One()), (u: int) => SlotSum(slots, u, n, x);
    forall u: nat | u < bank ensures total(u) == if u in slots then mean(u) else 0.0 {
      AloneMean(slots, bank, u, x);
    }
    SumOverUnique(slots, bank, mean, total);
    var ids := UniqueBelow(slots, bank);
    SumEqual(|ids|, j => mean(if 0 <= j < |ids| then ids[j] else -1),
             k => SlotMean(slots, if 0 <= k < |ids| then ids[k] else -1, n, x, One()));
    SlotsCover(slots, n, bank, x);
    SumEqual(bank, total, u => SlotSum(slots, u, n, x));
    SumEqual(n, x, k => if 0 <= k < n then RowSq(f, slots[k], src[k], tgt[k], width) / (width as real) else 0.0);
  }
}
