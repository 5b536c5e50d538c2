/** Min-p filtering: the torch keep mask, the in-place filter, and the flat and tiled Triton kernels. */
module MinP {
  import opened Blocks
  import opened Common
  import opened Logits

  type Log = real -> real

  ghost predicate IsLog(log: Log) { forall p :: p > 0.0 ==> (p <= 1.0 <==> log(p) <= 0.0) }

  /** Smallest positive normal float32. */
  const TINY: real := 0.000000000000000000000000000000000000011754943508222875

  function Clamp(minP: real): real { if minP < TINY then TINY else minP }

  lemma {:induction false} ClampPositive(minP: real)
    ensures Clamp(minP) > 0.0
  {
  }

  function Threshold(row: seq<Logit>, minP: real, log: Log): Logit { Shift(Top(row), log(Clamp(minP))) }

  /** min_p_keep_mask for one row: above the threshold, or the first maximum. */
  function TorchKeep(row: seq<Logit>, minP: real, log: Log): seq<bool>
    requires |row| > 0
  {
    seq(|row|, i requires 0 <= i < |row| => AtMost(Threshold(row, minP, log), row[i]) || i == ArgMax(row))
  }

  /** What both Triton kernels store: above the threshold, or equal to the maximum. */
  function KernelKeep(row: seq<Logit>, minP: real, log: Log): seq<bool> {
    seq(|row|, i requires 0 <= i < |row| => AtMost(Threshold(row, minP, log), row[i]) || row[i] == Top(row))
  }

  predicate SingleMaximum(row: seq<Logit>) {
    forall i, j :: 0 <= i < |row| && 0 <= j < |row| && row[i] == Top(row) && row[j] == Top(row) ==> i == j
  }

  /** The kernels agree with torch exactly when min_p is at most one, or the row has no tie at its
      maximum, or is all minus infinity. */
  lemma {:induction false} KernelIsTorchExactly(row: seq<Logit>, minP: real, log: Log)
    requires |row| > 0 && IsLog(log)
    ensures KernelKeep(row, minP, log) == TorchKeep(row, minP, log) <==>
      minP <= 1.0 || SingleMaximum(row) || Top(row) == NegInf
  {
    var kernel, torch, best := KernelKeep(row, minP, log), TorchKeep(row, minP, log), ArgMax(row);
    if minP <= 1.0 || SingleMaximum(row) || Top(row) == NegInf {
      assert kernel == torch;
    } else {
      var i, j :| 0 <= i < |row| && 0 <= j < |row| && row[i] == Top(row) && row[j] == Top(row) && i != j;
      var other := if i == best then j else i;
      assert kernel[other] && !torch[other];
    }
  }

  /** Two maxima and min_p above one: the kernels keep both, torch keeps the first. */
  lemma {:induction false} TieAboveOne(log: Log)
    requires IsLog(log)
    ensures KernelKeep([Fin(3.0), Fin(3.0)], 2.0, log) == [true, true]
    ensures TorchKeep([Fin(3.0), Fin(3.0)], 2.0, log) == [true, false]
  {
  }

  /** exp and log as min-p uses them */
  ghost predicate IsExp(exp: real -> real, log: Log) {
    && (forall x :: exp(x) > 0.0)
    && (forall x, y :: x <= y <==> exp(x) <= exp(y))
    && (forall x, y :: exp(x + y) == exp(x) * exp(y))
    && (forall p :: p > 0.0 ==> exp(log(p)) == p)
  }

  lemma {:induction false} ExpThreshold(exp: real -> real, log: Log, m: real, p: real, v: real)
    requires IsExp(exp, log) && p > 0.0
    ensures m + log(p) <= v <==> p * exp(m) <= exp(v)
  {
    assert exp(m + log(p)) == exp(m) * exp(log(p));
  }

  /** A weight's share of the total is at least p times the largest weight's share. */
  predicate HasShare(p: real, em: real, ev: real, total: real)
    requires total > 0.0
  {
    ev / total >= p * (em / total)
  }

  lemma {:induction false} Normalise(p: real, em: real, ev: real, total: real)
    requires total > 0.0
    ensures p * em <= ev <==> HasShare(p, em, ev, total)
  {
    assert p * em / total == p * (em / total);
  }

  /** In probabilities, for any normaliser: a token stays when it has at least min_p times the probability
      of the most likely one, or is that one; a min_p below the smallest normal float32 counts as that. */
  lemma {:induction false} KeepMeansMinP(row: seq<Logit>, minP: real, log: Log, exp: real -> real, total: real, i: nat)
    requires i < |row| && row[i].Fin? && Top(row).Fin? && total > 0.0 && IsExp(exp, log)
    ensures minP >= 0.000000000000000000000000000000000000011754943508222875 ==>
      (TorchKeep(row, minP, log)[i] <==>
        exp(row[i].v) / total >= minP * (exp(Top(row).v) / total) || i == ArgMax(row))
    ensures minP < 0.000000000000000000000000000000000000011754943508222875 ==>
      (TorchKeep(row, minP, log)[i] <==>
        exp(row[i].v) / total >= 0.000000000000000000000000000000000000011754943508222875 * (exp(Top(row).v) / total)
        || i == ArgMax(row))
  {
    ClampPositive(minP);
    hide IsExp, Top, ArgMax;
    ExpThreshold(exp, log, Top(row).v, Clamp(minP), row[i].v);
    Normalise(Clamp(minP), exp(Top(row).v), exp(row[i].v), total);
  }

  // ---- the in-place filter -----------------------------------------------------------------

  function RowOf(logits: array2<Logit>, r: nat): (row: seq<Logit>)
    requires r < logits.Length0
    reads logits
    ensures |row| == logits.Length1
  {
    seq(logits.Length1, i requires 0 <= i < logits.Length1 reads logits => logits[r, i])
  }

  /** masked_fill_(~keep, -inf) */
  function Masked(row: seq<Logit>, keep: seq<bool>): seq<Logit>
    requires |keep| == |row|
  {
    seq(|row|, i requires 0 <= i < |row| => if keep[i] then row[i] else NegInf)
  }

  /** apply_min_p; the maximum of an empty row is torch's own error. */
  method ApplyMinP(logits: array2<Logit>, minP: Option<seq<real>>, log: Log) returns (r: Result<(), string>)
    modifies logits
    ensures r.Ok? <==> minP.None? || (|minP.value| == logits.Length0 && logits.Length1 > 0)
    ensures r.Err? || minP.None? ==> forall k :: 0 <= k < logits.Length0 ==> RowOf(logits, k) == old(RowOf(logits, k))
    ensures r.Ok? && minP.Some? ==> forall k :: 0 <= k < logits.Length0 ==>
      RowOf(logits, k) == Masked(old(RowOf(logits, k)), TorchKeep(old(RowOf(logits, k)), minP.value[k], log))
  {
    if minP.None? { return Ok(()); }
    if |minP.value| != logits.Length0 { return Err("min_p must be a rank-1 tensor matching the logits row count"); }
    if logits.Length1 == 0 { return Err("amax over an empty dimension"); }
    ghost var was := seq(logits.Length0, k requires 0 <= k < logits.Length0 reads logits => RowOf(logits, k));
    for k := 0 to logits.Length0
      invariant forall j :: 0 <= j < k ==> RowOf(logits, j) == Masked(was[j], TorchKeep(was[j], minP.value[j], log))
      invariant forall j :: k <= j < logits.Length0 ==> RowOf(logits, j) == was[j]
    {
      MaskRow(logits, k, TorchKeep(RowOf(logits, k), minP.value[k], log));
    }
    r := Ok(());
  }

  method MaskRow(logits: array2<Logit>, k: nat, keep: seq<bool>)
    requires k < logits.Length0 && |keep| == logits.Length1
    modifies logits
    ensures RowOf(logits, k) == Masked(old(RowOf(logits, k)), keep)
    ensures forall j :: 0 <= j < logits.Length0 && j != k ==> RowOf(logits, j) == old(RowOf(logits, j))
  {
    for i := 0 to logits.Length1
      invariant forall a, b :: 0 <= a < logits.Length0 && 0 <= b < logits.Length1 ==>
        logits[a, b] == if a == k && b < i && !keep[b] then NegInf else old(logits[a, b])
    {
      if !keep[i] { logits[k, i] := NegInf; }
    }
  }

  // ---- the kernels -----------------------------------------------------------------------

  const MAX_BLOCK_SIZE := 131072
  const TILED_BLOCK_SIZE := 2048
  const MAX_TILES := 256

  /** A logits tensor in memory: rows a stride apart, possibly overlapping or with gaps. */
  datatype View = View(mem: seq<Logit>, rows: nat, vocab: nat, stride: nat)

  ghost predicate InMemory(x: View) { forall r: nat :: r < x.rows ==> Times(r, x.stride) + x.vocab <= |x.mem| }

  function RowAt(x: View, r: nat): (row: seq<Logit>)
    requires InMemory(x) && r < x.rows
    ensures |row| == x.vocab
  {
    x.mem[Times(r, x.stride)..Times(r, x.stride) + x.vocab]
  }

  function KernelMask(x: View, minP: seq<real>, log: Log): (mask: seq<seq<bool>>)
    requires InMemory(x) && |minP| == x.rows
    ensures AllWide(mask, x.vocab) && |mask| == x.rows
  {
    seq(x.rows, r requires 0 <= r < x.rows => KernelKeep(RowAt(x, r), minP[r], log))
  }

  /** tl.load of a block of lanes, minus infinity where masked. */
  function LoadLanes(x: View, r: nat, offset: nat, block: nat): (lanes: seq<Logit>)
    requires InMemory(x) && r < x.rows
    ensures |lanes| == block
    ensures forall i :: 0 <= i < block ==> lanes[i] == if offset + i < x.vocab then RowAt(x, r)[offset + i] else NegInf
  {
    seq(block, i requires 0 <= i < block => if offset + i < x.vocab then x.mem[Times(r, x.stride) + offset + i]
      else NegInf)
  }

  /** The threshold test of a block of lanes, given a row maximum. */
  function KeepLanes(lanes: seq<Logit>, rowMax: Logit, minP: real, log: Log): (keep: seq<bool>)
    ensures |keep| == |lanes|
    ensures forall i :: 0 <= i < |lanes| ==>
      keep[i] == (AtMost(Shift(rowMax, log(Clamp(minP))), lanes[i]) || lanes[i] == rowMax)
  {
    seq(|lanes|, i requires 0 <= i < |lanes| => AtMost(Shift(rowMax, log(Clamp(minP))), lanes[i]) || lanes[i] == rowMax)
  }

  /** One block that covers the row has the row's maximum: padding lanes never win. */
  lemma {:induction false} BlockTop(x: View, r: nat, block: nat)
    requires InMemory(x) && r < x.rows && block >= x.vocab
    ensures Top(LoadLanes(x, r, 0, block)) == Top(RowAt(x, r))
  {
    var lanes, row := LoadLanes(x, r, 0, block), RowAt(x, r);
    forall i | 0 <= i < |row| ensures AtMost(row[i], Top(lanes)) { assert lanes[i] == row[i]; }
    TopIs(row, Top(lanes));
  }

  /** _minp_keep_mask_kernel over all rows */
  method FlatKernel(x: View, minP: seq<real>, log: Log, block: nat) returns (out: array<bool>)
    requires InMemory(x) && |minP| == x.rows && block >= x.vocab
    ensures fresh(out) && out[..] == FlatRows(KernelMask(x, minP, log))
  {
    out := new bool[Times(x.rows, x.vocab)];
    ghost var want := KernelMask(x, minP, log);
    for r := 0 to x.rows
      invariant Times(r, x.vocab) <= out.Length && out[..Times(r, x.vocab)] == FlatRows(want[..r])
    {
      hide InMemory, KernelMask;
      RowInside(r, x.rows, x.vocab);
      FlatProgram(x, minP, log, block, r, out);
      RowWritten(out[..], want, r, x.vocab);
    }
    assert want[..x.rows] == want;
  }

  method FlatProgram(x: View, minP: seq<real>, log: Log, block: nat, r: nat, out: array<bool>)
    requires InMemory(x) && |minP| == x.rows && block >= x.vocab && r < x.rows
    requires out.Length == Times(x.rows, x.vocab) && Written(out[..], KernelMask(x, minP, log), r, 0, x.vocab)
    modifies out
    ensures Written(out[..], KernelMask(x, minP, log), r, x.vocab, x.vocab)
  {
    hide InMemory, Written, Top, KernelKeep;
    var lanes := LoadLanes(x, r, 0, block);
    BlockTop(x, r, block);
    var keep := KeepLanes(lanes, Top(lanes), minP[r], log);
    LanesAreKernelKeep(x, r, 0, block, minP[r], log);
    StoreMasked(out, KernelMask(x, minP, log), r, 0, keep, x.vocab);
  }

  lemma {:induction false} LanesAreKernelKeep(x: View, r: nat, offset: nat, block: nat, minP: real, log: Log)
    requires InMemory(x) && r < x.rows
    ensures forall i :: 0 <= i < block && offset + i < x.vocab ==>
      KeepLanes(LoadLanes(x, r, offset, block), Top(RowAt(x, r)), minP, log)[i]
        == KernelKeep(RowAt(x, r), minP, log)[offset + i]
  {
  }

  // ---- tiles ---------------------------------------------------------------------------------

  function TileTops(x: View, r: nat, tiles: nat): (tops: seq<Logit>)
    requires InMemory(x) && r < x.rows
    ensures |tops| == tiles
  {
    seq(tiles, t requires 0 <= t < tiles => Top(LoadLanes(x, r, Times(t, TILED_BLOCK_SIZE), TILED_BLOCK_SIZE)))
  }

  function PartialMaxima(x: View, tiles: nat): (rows: seq<seq<Logit>>)
    requires InMemory(x)
    ensures |rows| == x.rows && AllWide(rows, tiles)
  {
    seq(x.rows, r requires 0 <= r < x.rows => TileTops(x, r, tiles))
  }

  /** Position i of n lies in tile i / d, which is one of cdiv(n, d). */
  lemma {:induction false} TileOf(i: nat, n: nat, d: nat) returns (t: nat, lane: nat)
    requires i < n && d > 0
    ensures t < Cdiv(n, d) && lane < d && i == Times(t, d) + lane
  {
    t, lane := i / d, i % d;
    TimesIsProduct(t, d);
    CdivCovers(n, d);
    if t >= Cdiv(n, d) {
      TimesDistributes(Cdiv(n, d), t - Cdiv(n, d), d);
      assert false;
    }
  }

  /** Lane i of the row is lane `lane` of some tile. */
  lemma {:induction false} LaneInTile(x: View, r: nat, i: nat) returns (t: nat)
    requires InMemory(x) && r < x.rows && i < x.vocab
    ensures t < Cdiv(x.vocab, TILED_BLOCK_SIZE)
    ensures RowAt(x, r)[i] in LoadLanes(x, r, Times(t, TILED_BLOCK_SIZE), TILED_BLOCK_SIZE)
  {
    var lane;
    t, lane := TileOf(i, x.vocab, TILED_BLOCK_SIZE);
    assert LoadLanes(x, r, Times(t, TILED_BLOCK_SIZE), TILED_BLOCK_SIZE)[lane] == RowAt(x, r)[i];
  }

  /** A tile's maximum is one of the row, or minus infinity. */
  lemma {:induction false} TileTopInRow(x: View, r: nat, t: nat)
    requires InMemory(x) && r < x.rows
    ensures var m := Top(LoadLanes(x, r, Times(t, TILED_BLOCK_SIZE), TILED_BLOCK_SIZE)); m == NegInf || m in RowAt(x, r)
  {
    var lanes := LoadLanes(x, r, Times(t, TILED_BLOCK_SIZE), TILED_BLOCK_SIZE);
    var m := Top(lanes);
    var lane :| 0 <= lane < |lanes| && lanes[lane] == m;
    if m != NegInf { assert RowAt(x, r)[Times(t, TILED_BLOCK_SIZE) + lane] == m; }
  }

  /** The maximum of the tile maxima is the row's maximum, padding tiles included. */
  lemma {:induction false} TiledTop(x: View, r: nat, tiles: nat, padded: seq<Logit>)
    requires InMemory(x) && r < x.rows && tiles == Cdiv(x.vocab, TILED_BLOCK_SIZE) <= |padded|
    requires forall t :: 0 <= t < |padded| ==> padded[t] == if t < tiles then TileTops(x, r, tiles)[t] else NegInf
    ensures Top(padded) == Top(RowAt(x, r))
  {
    hide Top, Times, Cdiv, InMemory, LoadLanes, RowAt;
    var row, m := RowAt(x, r), Top(padded);
    forall i | 0 <= i < |row| ensures AtMost(row[i], m) {
      var t := LaneInTile(x, r, i);
      assert AtMost(row[i], padded[t]) && AtMost(padded[t], m);
    }
    if m != NegInf {
      var t :| 0 <= t < |padded| && padded[t] == m;
      TileTopInRow(x, r, t);
    }
    TopIs(row, m);
  }

  /** _minp_partial_max_kernel: programs (row, tile) */
  method PartialMaxKernel(x: View, tiles: nat) returns (partial: array<Logit>)
    requires InMemory(x)
    ensures fresh(partial) && partial[..] == FlatRows(PartialMaxima(x, tiles))
  {
    partial := new Logit[Times(x.rows, tiles)];
    ghost var want := PartialMaxima(x, tiles);
    for r := 0 to x.rows
      invariant Times(r, tiles) <= partial.Length && partial[..Times(r, tiles)] == FlatRows(want[..r])
    {
      hide InMemory, PartialMaxima, Top;
      RowInside(r, x.rows, tiles);
      PartialRow(x, tiles, r, partial);
      RowWritten(partial[..], want, r, tiles);
    }
    assert want[..x.rows] == want;
  }

  method PartialRow(x: View, tiles: nat, r: nat, partial: array<Logit>)
    requires InMemory(x) && r < x.rows && partial.Length == Times(x.rows, tiles)
    requires Written(partial[..], PartialMaxima(x, tiles), r, 0, tiles)
    modifies partial
    ensures Written(partial[..], PartialMaxima(x, tiles), r, tiles, tiles)
  {
    hide InMemory, Top, Written, LoadLanes;
    for t := 0 to tiles
      invariant Written(partial[..], PartialMaxima(x, tiles), r, t, tiles)
    {
      var tileMax := Top(LoadLanes(x, r, Times(t, TILED_BLOCK_SIZE), TILED_BLOCK_SIZE));
      StoreMasked(partial, PartialMaxima(x, tiles), r, t, [tileMax], tiles);
    }
  }

  /** The second pass reads back row r of the partial maxima, minus infinity past the tiles. */
  function LoadPartial(partial: seq<Logit>, r: nat, tiles: nat, block: nat): (lanes: seq<Logit>)
    requires Times(r, tiles) + tiles <= |partial|
    ensures |lanes| == block
    ensures forall t :: 0 <= t < block ==> lanes[t] == if t < tiles then partial[Times(r, tiles) + t] else NegInf
  {
    seq(block, t requires 0 <= t < block => if t < tiles then partial[Times(r, tiles) + t] else NegInf)
  }

  /** _minp_keep_mask_tiled_kernel: programs (row, tile) */
  method TiledKernel(x: View, minP: seq<real>, log: Log, tiles: nat, partial: array<Logit>, reduceBlock: nat)
    returns (out: array<bool>)
    requires InMemory(x) && |minP| == x.rows && tiles == Cdiv(x.vocab, TILED_BLOCK_SIZE) <= reduceBlock
    requires partial[..] == FlatRows(PartialMaxima(x, tiles))
    ensures fresh(out) && out[..] == FlatRows(KernelMask(x, minP, log))
  {
    out := new bool[Times(x.rows, x.vocab)];
    ghost var want, maxima := KernelMask(x, minP, log), partial[..];
    for r := 0 to x.rows
      invariant partial[..] == maxima
      invariant Times(r, x.vocab) <= out.Length && out[..Times(r, x.vocab)] == FlatRows(want[..r])
    {
      hide KernelKeep, InMemory;
      RowInside(r, x.rows, x.vocab);
      assert Written(out[..], want, r, 0, x.vocab);
      TiledRow(x, minP, log, tiles, partial[..], reduceBlock, r, out);
      RowWritten(out[..], want, r, x.vocab);
    }
    assert want[..x.rows] == want;
  }

  /** The row's maximum as every program of the second pass reduces it. */
  lemma {:induction false} PartialTop(x: View, r: nat, tiles: nat, partial: seq<Logit>, reduceBlock: nat)
    requires InMemory(x) && r < x.rows && tiles == Cdiv(x.vocab, TILED_BLOCK_SIZE) <= reduceBlock
    requires partial == FlatRows(PartialMaxima(x, tiles))
    ensures Times(r, tiles) + tiles <= |partial|
    ensures Top(LoadPartial(partial, r, tiles, reduceBlock)) == Top(RowAt(x, r))
  {
    hide Top, Times, Cdiv, InMemory, FlatRows, LoadLanes, TileTops;
    FlatRowsSize(PartialMaxima(x, tiles), tiles);
    RowInside(r, x.rows, tiles);
    var lanes := LoadPartial(partial, r, tiles, reduceBlock);
    forall t | 0 <= t < tiles
      ensures lanes[t] == TileTops(x, r, tiles)[t]
    {
      FlatRowsAt(PartialMaxima(x, tiles), tiles, r, t);
    }
    TiledTop(x, r, tiles, lanes);
  }

  method TiledRow(x: View, minP: seq<real>, log: Log, tiles: nat, partial: seq<Logit>, reduceBlock: nat, r: nat,
        out: array<bool>)
    requires InMemory(x) && |minP| == x.rows && tiles == Cdiv(x.vocab, TILED_BLOCK_SIZE) <= reduceBlock && r < x.rows
    requires partial == FlatRows(PartialMaxima(x, tiles))
    requires out.Length == Times(x.rows, x.vocab) && Written(out[..], KernelMask(x, minP, log), r, 0, x.vocab)
    modifies out
    ensures Written(out[..], KernelMask(x, minP, log), r, x.vocab, x.vocab)
  {
    hide KernelKeep, InMemory, Written, Top, FlatRows;
    ghost var want := KernelMask(x, minP, log);
    PartialTop(x, r, tiles, partial, reduceBlock);
    CdivCovers(x.vocab, TILED_BLOCK_SIZE);
    for t := 0 to tiles
      invariant Written(out[..], want, r, Min(x.vocab, Times(t, TILED_BLOCK_SIZE)), x.vocab)
    {
      var rowMax := Top(LoadPartial(partial, r, tiles, reduceBlock));
      var offset := Times(t, TILED_BLOCK_SIZE);
      var keep := KeepLanes(LoadLanes(x, r, offset, TILED_BLOCK_SIZE), rowMax, minP[r], log);
      LanesAreKernelKeep(x, r, offset, TILED_BLOCK_SIZE, minP[r], log);
      StoreMasked(out, want, r, offset, keep, x.vocab);
    }
  }

  // ---- dispatch -----------------------------------------------------------------------------

  /** supports_keep_mask: None when supported, else the reason. */
  function SupportsKeepMask(available: bool, cuda: bool, x: View, minP: seq<real>): Option<string> {
    if !available then Some("triton_unavailable")
    else if !cuda then Some("non_cuda")
    else if |minP| != x.rows then Some("bad_shape")
    else if NextPowerOf2(x.vocab) > MAX_BLOCK_SIZE
      && Cdiv(x.vocab, TILED_BLOCK_SIZE) > MAX_TILES then Some("vocab_too_large")
    else None
  }

  /** The two size limits together: 256 tiles of 2048, which no single block reaches. */
  lemma {:induction false} TooLarge(vocab: nat)
    ensures NextPowerOf2(vocab) > MAX_BLOCK_SIZE && Cdiv(vocab, TILED_BLOCK_SIZE) > MAX_TILES <==> vocab > 524288
  {
    if vocab > 0 { NextPowerOf2Bounds(vocab); }
  }

  /** keep_mask: whichever kernel runs, the same mask.  It supports exactly the rows of up to 524288
      tokens on a cuda device. */
  method TritonKeepMask(available: bool, cuda: bool, x: View, minP: seq<real>, log: Log)
    returns (r: Result<seq<bool>, string>)
    requires InMemory(x)
    ensures r.Err? <==> SupportsKeepMask(available, cuda, x, minP).Some?
    ensures r.Err? ==> r.error == SupportsKeepMask(available, cuda, x, minP).value
    ensures r.Ok? ==> |minP| == x.rows && r.value == FlatRows(KernelMask(x, minP, log))
    ensures r.Ok? <==> available && cuda && |minP| == x.rows && x.vocab <= 524288
    ensures r.Err? && !available ==> r.error == "triton_unavailable"
    ensures r.Err? && available && !cuda ==> r.error == "non_cuda"
    ensures r.Err? && available && cuda && |minP| != x.rows ==> r.error == "bad_shape"
    ensures r.Err? && available && cuda && |minP| == x.rows ==> r.error == "vocab_too_large"
  {
    TooLarge(x.vocab);
    hide InMemory, Cdiv, NextPowerOf2;
    var reason := SupportsKeepMask(available, cuda, x, minP);
    if reason.Some? { return Err(reason.value); }
    var block := NextPowerOf2(x.vocab);
    if block <= MAX_BLOCK_SIZE {
      if x.vocab > 0 { NextPowerOf2Bounds(x.vocab); }
      var out := FlatKernel(x, minP, log, block);
      return Ok(out[..]);
    }
    var tiles := Cdiv(x.vocab, TILED_BLOCK_SIZE);
    var partial := PartialMaxKernel(x, tiles);
    if tiles > 0 { NextPowerOf2Bounds(tiles); }
    var out := TiledKernel(x, minP, log, tiles, partial, NextPowerOf2(tiles));
    r := Ok(out[..]);
  }

  predicate RowAgrees(x: View, minP: seq<real>, r: int)
    requires InMemory(x) && |minP| == x.rows && 0 <= r < x.rows
  {
    minP[r] <= 1.0 || SingleMaximum(RowAt(x, r)) || Top(RowAt(x, r)) == NegInf
  }

  /** TritonMinPCandidateKernel's mask: the kernels, or torch where they are not supported. */
  method KeepMaskWithFallback(available: bool, cuda: bool, x: View, minP: seq<real>, log: Log) returns (mask: seq<bool>)
    requires InMemory(x) && |minP| == x.rows && x.vocab > 0 && IsLog(log)
    ensures (forall r :: 0 <= r < x.rows ==> RowAgrees(x, minP, r)) ==>
      mask == FlatRows(seq(x.rows, r requires 0 <= r < x.rows => TorchKeep(RowAt(x, r), minP[r], log)))
  {
    var torch := seq(x.rows, r requires 0 <= r < x.rows => TorchKeep(RowAt(x, r), minP[r], log));
    var triton := TritonKeepMask(available, cuda, x, minP, log);
    if triton.Err? { return FlatRows(torch); }
    mask := triton.value;
    forall r | 0 <= r < x.rows && RowAgrees(x, minP, r) ensures KernelMask(x, minP, log)[r] == torch[r] {
      KernelIsTorchExactly(RowAt(x, r), minP[r], log);
    }
    assert (forall r :: 0 <= r < x.rows ==> RowAgrees(x, minP, r)) ==> KernelMask(x, minP, log) == torch;
  }
}
