/** The grouped Triton forward of the model bank, over flat memory with masked tiles, against the
    torch formula on three-dimensional parameters. */
module ModelBankKernel {
  import opened Blocks
  import opened Common
  import opened Sums

  /** The single rank block of the out kernel covers every rank exactly for the ranks the guard
      lets through. */
  lemma {:induction false} RankBlockCovers(rank: int)
    requires rank > 0
    ensures Min(64, NextPowerOf2(rank)) >= rank <==> rank <= 64
  {
    NextPowerOf2Bounds(rank);
  }

  // ---- parameters ----------------------------------------------------------------------------

  datatype Params = Params(slots: nat, hidden: nat, rank: nat, a: seq<real>, g: seq<real>, b: seq<real>,
    bias: seq<real>)

  ghost predicate WellShaped(p: Params) {
    && |p.a| == |p.g| == Times(Times(p.slots, p.hidden), p.rank)
    && |p.b| == Times(Times(p.slots, p.rank), p.hidden) && |p.bias| == Times(p.slots, p.rank)
  }

  /** A masked load: masked lanes touch no memory. */
  function Load(mem: seq<real>, offset: int, mask: bool): real
    requires mask ==> 0 <= offset < |mem|
  {
    if mask then mem[offset] else 0.0
  }

  /** Element [i, j, k] of a contiguous n x m x l tensor. */
  function At3(mem: seq<real>, i: int, j: int, k: int, n: nat, m: nat, l: nat): real
    requires |mem| == Times(Times(n, m), l)
  {
    if 0 <= i < n && 0 <= j < m && 0 <= k < l then
      Offset3RowMajor(i, j, k, n, m, l);
      mem[Times(Times(i, m) + j, l) + k]
    else 0.0
  }

  function At2(mem: seq<real>, i: int, j: int, n: nat, m: nat): real
    requires |mem| == Times(n, m)
  {
    if 0 <= i < n && 0 <= j < m then
      RowInside(i, n, m);
      mem[Times(i, m) + j]
    else 0.0
  }

  // ---- the torch formula -----------------------------------------------------------------

  type Exp = real -> real

  ghost predicate Positive(exp: Exp) { forall x :: exp(x) > 0.0 }

  /** F.silu: x * sigmoid(x) */
  function Silu(exp: Exp, x: real): real {
    var d := 1.0 + exp(-x);
    if d == 0.0 then 0.0 else x * (1.0 / d)
  }

  datatype Batch = Batch(rows: nat, src: seq<real>, slotIds: seq<int>)

  ghost predicate Fits(x: Batch, p: Params) {
    && WellShaped(p) && |x.src| == Times(x.rows, p.hidden) && |x.slotIds| == x.rows
    && forall i :: 0 <= i < x.rows ==> 0 <= x.slotIds[i] < p.slots
  }

  /** One product of bmm(src, w)[row, r] */
  function UpTerm(x: Batch, p: Params, w: seq<real>, row: nat, r: int, h: int): real
    requires Fits(x, p) && row < x.rows && |w| == |p.a|
  {
    At2(x.src, row, h, x.rows, p.hidden) * At3(w, x.slotIds[row], h, r, p.slots, p.hidden, p.rank)
  }

  function UpSum(x: Batch, p: Params, w: seq<real>, row: nat, r: int): real
    requires Fits(x, p) && row < x.rows && |w| == |p.a|
  {
    Sum(p.hidden, h => UpTerm(x, p, w, row, r, h))
  }

  /** bmm(src, a)[row, r] * silu(bmm(src, g)[row, r] + gate_bias) */
  function UpGate(x: Batch, p: Params, exp: Exp, row: nat, r: int): real
    requires Fits(x, p) && row < x.rows
  {
    UpSum(x, p, p.a, row, r) * Silu(exp, UpSum(x, p, p.g, row, r) + At2(p.bias, x.slotIds[row], r, p.slots, p.rank))
  }

  function OutTerm(x: Batch, p: Params, exp: Exp, row: nat, h: int, r: int): real
    requires Fits(x, p) && row < x.rows
  {
    UpGate(x, p, exp, row, r) * At3(p.b, x.slotIds[row], r, h, p.slots, p.rank, p.hidden)
  }

  /** bmm(up * gate, b)[row, h] + src[row, h] */
  function OutCell(x: Batch, p: Params, exp: Exp, row: nat, h: int): real
    requires Fits(x, p) && row < x.rows
  {
    Sum(p.rank, r => OutTerm(x, p, exp, row, h, r)) + At2(x.src, row, h, x.rows, p.hidden)
  }

  function UpGateRow(x: Batch, p: Params, exp: Exp, row: nat): (out: seq<real>)
    requires Fits(x, p) && row < x.rows
    ensures |out| == p.rank
  {
    seq(p.rank, r requires 0 <= r < p.rank => UpGate(x, p, exp, row, r))
  }

  function UpGateRows(x: Batch, p: Params, exp: Exp): (out: seq<seq<real>>)
    requires Fits(x, p)
    ensures |out| == x.rows && AllWide(out, p.rank)
  {
    seq(x.rows, row requires 0 <= row < x.rows => UpGateRow(x, p, exp, row))
  }

  function OutRow(x: Batch, p: Params, exp: Exp, row: nat): (out: seq<real>)
    requires Fits(x, p) && row < x.rows
    ensures |out| == p.hidden
  {
    seq(p.hidden, h requires 0 <= h < p.hidden => OutCell(x, p, exp, row, h))
  }

  /** The rows of TorchModelBankForwardBackend.forward before layer norm. */
  function TorchForward(x: Batch, p: Params, exp: Exp): (out: seq<seq<real>>)
    requires Fits(x, p)
    ensures |out| == x.rows && AllWide(out, p.hidden)
  {
    seq(x.rows, row requires 0 <= row < x.rows => OutRow(x, p, exp, row))
  }

  // ---- what the formula says, element by element ------------------------------------------

  function Elem(mem: seq<real>, i: int): real { if 0 <= i < |mem| then mem[i] else 0.0 }

  /** Row `row` of src times column r of its slot's hidden x rank matrix. */
  ghost function Projected(x: Batch, p: Params, w: seq<real>, row: nat, r: nat): real
    requires row < |x.slotIds| && x.slotIds[row] >= 0
  {
    Sum(p.hidden, k =>
      if 0 <= k < p.hidden then
        Elem(x.src, Times(row, p.hidden) + k) * Elem(w, Times(Times(x.slotIds[row], p.hidden) + k, p.rank) + r)
      else 0.0)
  }

  /** One term of an output cell: up times silu of the biased gate, times the down projection. */
  ghost function Gated(x: Batch, p: Params, exp: Exp, row: nat, h: nat, r: nat): real
    requires row < |x.slotIds| && x.slotIds[row] >= 0 && Positive(exp)
  {
    var slot: nat := x.slotIds[row];
    var z := Projected(x, p, p.g, row, r) + Elem(p.bias, Times(slot, p.rank) + r);
    assert exp(-z) > 0.0;
    Projected(x, p, p.a, row, r) * (z / (1.0 + exp(-z))) * Elem(p.b, Times(Times(slot, p.rank) + r, p.hidden) + h)
  }

  lemma {:induction false} ProjectedIs(x: Batch, p: Params, w: seq<real>, row: nat, r: nat)
    requires Fits(x, p) && row < x.rows && |w| == |p.a| && r < p.rank
    ensures UpSum(x, p, w, row, r) == Projected(x, p, w, row, r)
  {
    var slot: nat := x.slotIds[row];
    forall k | 0 <= k < p.hidden
      ensures UpTerm(x, p, w, row, r, k) ==
        Elem(x.src, Times(row, p.hidden) + k) * Elem(w, Times(Times(slot, p.hidden) + k, p.rank) + r)
    {
      RowInside(row, x.rows, p.hidden);
      Offset3RowMajor(slot, k, r, p.slots, p.hidden, p.rank);
    }
    SumEqual(p.hidden, h => UpTerm(x, p, w, row, r, h), k =>
      if 0 <= k < p.hidden then
        Elem(x.src, Times(row, p.hidden) + k) * Elem(w, Times(Times(x.slotIds[row], p.hidden) + k, p.rank) + r)
      else 0.0);
  }

  lemma {:induction false} GatedIs(x: Batch, p: Params, exp: Exp, row: nat, h: nat, r: nat)
    requires Fits(x, p) && Positive(exp) && row < x.rows && h < p.hidden && r < p.rank
    ensures OutTerm(x, p, exp, row, h, r) == Gated(x, p, exp, row, h, r)
  {
    hide UpSum, Projected, Silu;
    var slot: nat := x.slotIds[row];
    ProjectedIs(x, p, p.a, row, r);
    ProjectedIs(x, p, p.g, row, r);
    RowInside(slot, p.slots, p.rank);
    Offset3RowMajor(slot, r, h, p.slots, p.rank, p.hidden);
    GateIsSilu(exp, Projected(x, p, p.g, row, r) + Elem(p.bias, Times(slot, p.rank) + r));
  }

  /** Every output cell: the gated rank sum of the row's slot, plus the source cell. */
  lemma {:induction false} CellMeaning(x: Batch, p: Params, exp: Exp, row: nat, h: nat)
    requires Fits(x, p) && Positive(exp) && row < x.rows && h < p.hidden
    ensures TorchForward(x, p, exp)[row][h] ==
      Sum(p.rank, r => if 0 <= r < p.rank then Gated(x, p, exp, row, h, r) else 0.0)
        + Elem(x.src, Times(row, p.hidden) + h)
  {
    hide OutTerm, Gated;
    forall r: nat | r < p.rank ensures OutTerm(x, p, exp, row, h, r) == Gated(x, p, exp, row, h, r) {
      GatedIs(x, p, exp, row, h, r);
    }
    RowInside(row, x.rows, p.hidden);
    SumEqual(p.rank, r => OutTerm(x, p, exp, row, h, r),
             r => if 0 <= r < p.rank then Gated(x, p, exp, row, h, r) else 0.0);
  }

  // ---- the kernels -----------------------------------------------------------------------

  /** One lane of the up/gate tile: row-major offsets, masked in h and in r. */
  function UpLane(x: Batch, p: Params, w: seq<real>, row: nat, r: nat, h: int): (v: real)
    requires Fits(x, p) && row < x.rows && |w| == |p.a|
    ensures v == if 0 <= h < p.hidden && r < p.rank then UpTerm(x, p, w, row, r, h) else 0.0
  {
    var hMask, rMask, slot: nat := 0 <= h < p.hidden, r < p.rank, x.slotIds[row];
    if hMask && rMask then
      RowInside(row, x.rows, p.hidden);
      Offset3RowMajor(slot, h, r, p.slots, p.hidden, p.rank);
      Load(x.src, Times(row, p.hidden) + h, hMask) * Load(w, Offset3(slot, h, r, p.hidden, p.rank), hMask && rMask)
    else if hMask then
      RowInside(row, x.rows, p.hidden);
      Load(x.src, Times(row, p.hidden) + h, hMask) * Load(w, Offset3(slot, h, r, p.hidden, p.rank), hMask && rMask)
    else Load(x.src, Times(row, p.hidden) + h, hMask) * Load(w, 0, hMask && rMask)
  }

  function UpTile(x: Batch, p: Params, w: seq<real>, row: nat, r: nat, h0: nat, blockH: nat): real
    requires Fits(x, p) && row < x.rows && |w| == |p.a|
  {
    Sum(blockH, i => UpLane(x, p, w, row, r, h0 + i))
  }

  lemma {:induction false} UpTileIsTile(x: Batch, p: Params, w: seq<real>, row: nat, r: nat, h0: nat, blockH: nat)
    requires Fits(x, p) && row < x.rows && |w| == |p.a| && r < p.rank
    ensures UpTile(x, p, w, row, r, h0, blockH) == Tile(h0, blockH, p.hidden, h => UpTerm(x, p, w, row, r, h))
  {
    hide UpTerm;
    var lane := i => UpLane(x, p, w, row, r, h0 + i);
    var t := h => UpTerm(x, p, w, row, r, h);
    forall i | 0 <= i < blockH ensures lane(i) == if h0 + i < p.hidden then t(h0 + i) else 0.0 {
      var h := h0 + i;
      assert lane(i) == UpLane(x, p, w, row, r, h);
      if h < p.hidden {
        assert UpLane(x, p, w, row, r, h) == UpTerm(x, p, w, row, r, h);
        assert t(h) == UpTerm(x, p, w, row, r, h);
      } else {
        assert UpLane(x, p, w, row, r, h) == 0.0;
      }
    }
    SumEqual(blockH, lane, i => if h0 + i < p.hidden then t(h0 + i) else 0.0);
    SumEqual(blockH, lane, i => UpLane(x, p, w, row, r, h0 + i));
  }

  /** The accumulation loop of one lane over all hidden tiles. */
  method Accumulate(x: Batch, p: Params, w: seq<real>, row: nat, r: nat, blockH: nat) returns (acc: real)
    requires Fits(x, p) && row < x.rows && |w| == |p.a| && blockH > 0
    ensures r < p.rank ==> acc == UpSum(x, p, w, row, r)
  {
    hide UpTerm, UpLane, Fits, UpTile;
    acc := 0.0;
    var h0 := 0;
    while h0 < p.hidden
      invariant r < p.rank ==> acc == Sum(if h0 < p.hidden then h0 else p.hidden, h => UpTerm(x, p, w, row, r, h))
    {
      if r < p.rank {
        UpTileIsTile(x, p, w, row, r, h0, blockH);
        TileStep(h0, blockH, p.hidden, h => UpTerm(x, p, w, row, r, h));
      }
      acc := acc + UpTile(x, p, w, row, r, h0, blockH);
      h0 := h0 + blockH;
    }
  }

  /** gate_pre / (1 + exp(-gate_pre)) */
  lemma {:induction false} GateIsSilu(exp: Exp, x: real)
    requires Positive(exp)
    ensures 1.0 + exp(-x) != 0.0 && x / (1.0 + exp(-x)) == Silu(exp, x)
  {
    assert exp(-x) > 0.0;
    var d := 1.0 + exp(-x);
    assert x / d == x * (1.0 / d);
  }

  /** The value lane r of program (row, _) stores. */
  method UpGateLane(x: Batch, p: Params, exp: Exp, row: nat, r: nat, blockH: nat) returns (v: real)
    requires Fits(x, p) && Positive(exp) && row < x.rows && blockH > 0 && r < p.rank
    ensures v == UpGate(x, p, exp, row, r)
  {
    hide UpSum, Silu;
    var accA := Accumulate(x, p, p.a, row, r, blockH);
    var accG := Accumulate(x, p, p.g, row, r, blockH);
    RowInside(x.slotIds[row], p.slots, p.rank);
    var pre := accG + Load(p.bias, Times(x.slotIds[row], p.rank) + r, r < p.rank);
    GateIsSilu(exp, pre);
    v := accA * (pre / (1.0 + exp(-pre)));
  }

  /** _up_gate_kernel for program (row, rankBlock): lanes below rank store. */
  method UpGateProgram(x: Batch, p: Params, exp: Exp, row: nat, rankBlock: nat, blockH: nat, blockR: nat,
        upGate: array<real>)
    requires Fits(x, p) && Positive(exp) && row < x.rows && blockH > 0
    requires upGate.Length == Times(x.rows, p.rank) && Times(rankBlock, blockR) <= p.rank
    requires Written(upGate[..], UpGateRows(x, p, exp), row, Times(rankBlock, blockR), p.rank)
    modifies upGate
    ensures Written(upGate[..], UpGateRows(x, p, exp), row, Min(p.rank, Times(rankBlock, blockR) + blockR), p.rank)
  {
    hide UpGate, Fits, Written;
    var base := Times(rankBlock, blockR);
    var lanes := [];
    for lane := 0 to blockR
      invariant |lanes| == lane && upGate[..] == old(upGate[..])
      invariant forall i :: 0 <= i < lane && base + i < p.rank ==> lanes[i] == UpGateRows(x, p, exp)[row][base + i]
    {
      var v := 0.0;
      if base + lane < p.rank { v := UpGateLane(x, p, exp, row, base + lane, blockH); }
      lanes := lanes + [v];
    }
    StoreMasked(upGate, UpGateRows(x, p, exp), row, base, lanes, p.rank);
  }

  /** One lane of the out tile: the single rank block is masked past rank. */
  function OutLane(x: Batch, p: Params, upGate: seq<real>, row: nat, h: nat, r: int): (v: real)
    requires Fits(x, p) && row < x.rows && |upGate| == Times(x.rows, p.rank)
    ensures 0 <= r < p.rank && h < p.hidden ==>
      (Times(row, p.rank) + r < |upGate|
        && v == upGate[Times(row, p.rank) + r] * At3(p.b, x.slotIds[row], r, h, p.slots, p.rank, p.hidden))
    ensures !(0 <= r < p.rank && h < p.hidden) ==> v == 0.0
  {
    var rMask, hMask, slot: nat := 0 <= r < p.rank, h < p.hidden, x.slotIds[row];
    if rMask && hMask then
      RowInside(row, x.rows, p.rank);
      Offset3RowMajor(slot, r, h, p.slots, p.rank, p.hidden);
      Load(upGate, Times(row, p.rank) + r, rMask) * Load(p.b, Offset3(slot, r, h, p.rank, p.hidden), rMask && hMask)
    else if rMask then
      RowInside(row, x.rows, p.rank);
      Load(upGate, Times(row, p.rank) + r, rMask) * Load(p.b, 0, rMask && hMask)
    else Load(upGate, 0, rMask) * Load(p.b, 0, rMask && hMask)
  }

  /** acc + residual of one lane */
  function OutValue(x: Batch, p: Params, upGate: seq<real>, row: nat, h: nat, blockR: nat): real
    requires Fits(x, p) && row < x.rows && |upGate| == Times(x.rows, p.rank) && h < p.hidden
  {
    RowInside(row, x.rows, p.hidden);
    Sum(blockR, r => OutLane(x, p, upGate, row, h, r)) + Load(x.src, Times(row, p.hidden) + h, h < p.hidden)
  }

  lemma {:induction false} OutLaneIsTerm(x: Batch, p: Params, exp: Exp, upGate: seq<real>, row: nat, h: nat, r: nat)
    requires Fits(x, p) && row < x.rows && h < p.hidden && r < p.rank
    requires upGate == FlatRows(UpGateRows(x, p, exp)) && |upGate| == Times(x.rows, p.rank)
    ensures OutLane(x, p, upGate, row, h, r) == OutTerm(x, p, exp, row, h, r)
  {
    hide UpGate, OutLane, Fits, FlatRows, Times, At3;
    FlatRowsAt(UpGateRows(x, p, exp), p.rank, row, r);
  }

  /** A rank block at least as wide as the rank computes the whole product. */
  lemma {:induction false} OutValueIsCell(x: Batch, p: Params, exp: Exp, upGate: seq<real>, row: nat, h: nat,
        blockR: nat)
    requires Fits(x, p) && row < x.rows && h < p.hidden && blockR >= p.rank
    requires upGate == FlatRows(UpGateRows(x, p, exp)) && |upGate| == Times(x.rows, p.rank)
    ensures OutValue(x, p, upGate, row, h, blockR) == OutCell(x, p, exp, row, h)
  {
    hide UpGate, OutLane, OutTerm, Fits, FlatRows, UpGateRows, Times;
    var lane := r => OutLane(x, p, upGate, row, h, r);
    SumTruncate(p.rank, blockR, lane);
    forall r | 0 <= r < p.rank ensures lane(r) == OutTerm(x, p, exp, row, h, r) {
      OutLaneIsTerm(x, p, exp, upGate, row, h, r);
      assert lane(r) == OutLane(x, p, upGate, row, h, r);
    }
    SumEqual(p.rank, lane, r => OutTerm(x, p, exp, row, h, r));
    SumEqual(blockR, lane, r => OutLane(x, p, upGate, row, h, r));
    RowInside(row, x.rows, p.hidden);
  }

  /** _out_kernel for program (row, hiddenBlock) */
  method OutProgram(x: Batch, p: Params, exp: Exp, row: nat, hiddenBlock: nat, blockH: nat, blockR: nat,
        upGate: seq<real>, out: array<real>)
    requires Fits(x, p) && row < x.rows && blockR >= p.rank
    requires upGate == FlatRows(UpGateRows(x, p, exp)) && |upGate| == Times(x.rows, p.rank)
    requires out.Length == Times(x.rows, p.hidden) && Times(hiddenBlock, blockH) <= p.hidden
    requires Written(out[..], TorchForward(x, p, exp), row, Times(hiddenBlock, blockH), p.hidden)
    modifies out
    ensures Written(out[..], TorchForward(x, p, exp), row, Min(p.hidden, Times(hiddenBlock, blockH) + blockH), p.hidden)
  {
    hide OutCell, OutValue, Fits, FlatRows, Written, UpGateRows;
    var base := Times(hiddenBlock, blockH);
    var lanes := [];
    for lane := 0 to blockH
      invariant |lanes| == lane && out[..] == old(out[..])
      invariant forall i :: 0 <= i < lane && base + i < p.hidden ==> lanes[i] == TorchForward(x, p, exp)[row][base + i]
    {
      var v := 0.0;
      if base + lane < p.hidden {
        OutValueIsCell(x, p, exp, upGate, row, base + lane, blockR);
        v := OutValue(x, p, upGate, row, base + lane, blockR);
      }
      lanes := lanes + [v];
    }
    StoreMasked(out, TorchForward(x, p, exp), row, base, lanes, p.hidden);
  }

  method UpGateBlocks(x: Batch, p: Params, exp: Exp, row: nat, blockH: nat, blockR: nat, upGate: array<real>)
    requires Fits(x, p) && Positive(exp) && row < x.rows && blockH > 0 && blockR > 0
    requires upGate.Length == Times(x.rows, p.rank) && Written(upGate[..], UpGateRows(x, p, exp), row, 0, p.rank)
    modifies upGate
    ensures Written(upGate[..], UpGateRows(x, p, exp), row, p.rank, p.rank)
  {
    hide Written, Fits;
    CdivCovers(p.rank, blockR);
    for block := 0 to Cdiv(p.rank, blockR)
      invariant Written(upGate[..], UpGateRows(x, p, exp), row, Min(p.rank, Times(block, blockR)), p.rank)
    {
      UpGateProgram(x, p, exp, row, block, blockH, blockR, upGate);
    }
  }

  method OutBlocks(x: Batch, p: Params, exp: Exp, row: nat, blockH: nat, blockR: nat, upGate: seq<real>,
        out: array<real>)
    requires Fits(x, p) && row < x.rows && blockH > 0 && blockR >= p.rank
    requires upGate == FlatRows(UpGateRows(x, p, exp)) && |upGate| == Times(x.rows, p.rank)
    requires out.Length == Times(x.rows, p.hidden) && Written(out[..], TorchForward(x, p, exp), row, 0, p.hidden)
    modifies out
    ensures Written(out[..], TorchForward(x, p, exp), row, p.hidden, p.hidden)
  {
    hide Written, Fits, FlatRows;
    CdivCovers(p.hidden, blockH);
    for block := 0 to Cdiv(p.hidden, blockH)
      invariant Written(out[..], TorchForward(x, p, exp), row, Min(p.hidden, Times(block, blockH)), p.hidden)
    {
      OutProgram(x, p, exp, row, block, blockH, blockR, upGate, out);
    }
  }

  /** The first grid: programs (row, rankBlock) for cdiv(rank, blockR) rank blocks. */
  method LaunchUpGate(x: Batch, p: Params, exp: Exp, blockH: nat, blockR: nat) returns (upGate: array<real>)
    requires Fits(x, p) && Positive(exp) && blockH > 0 && blockR > 0
    ensures fresh(upGate) && upGate[..] == FlatRows(UpGateRows(x, p, exp)) && upGate.Length == Times(x.rows, p.rank)
  {
    upGate := new real[Times(x.rows, p.rank)];
    ghost var want := UpGateRows(x, p, exp);
    for row := 0 to x.rows
      invariant Times(row, p.rank) <= upGate.Length && upGate[..Times(row, p.rank)] == FlatRows(want[..row])
    {
      hide Fits, UpGateRows;
      RowInside(row, x.rows, p.rank);
      UpGateBlocks(x, p, exp, row, blockH, blockR, upGate);
      RowWritten(upGate[..], want, row, p.rank);
    }
    assert want[..x.rows] == want;
  }

  /** The second grid: programs (row, hiddenBlock) for cdiv(hidden, blockH) hidden blocks. */
  method LaunchOut(x: Batch, p: Params, exp: Exp, blockH: nat, blockR: nat, upGate: seq<real>)
    returns (out: array<real>)
    requires Fits(x, p) && blockH > 0 && blockR >= p.rank
    requires upGate == FlatRows(UpGateRows(x, p, exp)) && |upGate| == Times(x.rows, p.rank)
    ensures fresh(out) && out[..] == FlatRows(TorchForward(x, p, exp))
  {
    out := new real[Times(x.rows, p.hidden)];
    ghost var want := TorchForward(x, p, exp);
    for row := 0 to x.rows
      invariant Times(row, p.hidden) <= out.Length && out[..Times(row, p.hidden)] == FlatRows(want[..row])
    {
      hide Fits, UpGateRows, TorchForward;
      RowInside(row, x.rows, p.hidden);
      OutBlocks(x, p, exp, row, blockH, blockR, upGate, out);
      RowWritten(out[..], want, row, p.hidden);
    }
    assert want[..x.rows] == want;
  }

  /** TritonGroupedModelBankForwardBackend.forward without layer norm: outside the supported ranks the
      torch formula, inside them the two kernels. Both give the same output for every shape. */
  method Forward(x: Batch, p: Params, exp: Exp) returns (out: seq<real>)
    requires Fits(x, p) && Positive(exp)
    ensures out == FlatRows(TorchForward(x, p, exp))
  {
    if !(0 < p.rank <= 64) { return FlatRows(TorchForward(x, p, exp)); }
    var blockR := Min(64, NextPowerOf2(p.rank));
    RankBlockCovers(p.rank);
    var upGate := LaunchUpGate(x, p, exp, Min(1024, NextPowerOf2(p.hidden)), blockR);
    var flat := LaunchOut(x, p, exp, Min(128, NextPowerOf2(p.hidden)), blockR, upGate[..]);
    out := flat[..];
  }
}
