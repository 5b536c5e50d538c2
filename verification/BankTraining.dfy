/** One training call, by graph replay or by the eager kernel, over pipeline buffers that may be
    reallocated between calls. */
module BankTraining {
  import opened Common
  import opened Rows
  import opened Sums
  import opened Losses
  import opened GraphReplay

  /** What the graph runtime reports when a graph is captured. */
  datatype CaptureOutcome = CaptureWorks | CaptureFails | CaptureSkipped

  // ---- the eager kernel --------------------------------------------------------------

  lemma {:induction false} UniquePosition(unique: seq<nat>, id: nat)
    requires StrictlyIncreasing(unique) && id in unique
    ensures var pos := SearchSorted(unique, id);
      pos < |unique| && unique[pos] == id && forall j :: 0 <= j < |unique| && j != pos ==> unique[j] != id
  {
    SearchSortedFinds(unique, id);
    var pos := SearchSorted(unique, id);
    forall j | 0 <= j < |unique| && j != pos ensures unique[j] != id {
      if j < pos { assert unique[j] < unique[pos]; } else { assert unique[pos] < unique[j]; }
    }
  }

  /** index_add of x and of 1 at every row's position among the distinct slots */
  method SlotTotals(ids: seq<nat>, unique: seq<nat>, x: int -> real) returns (sums: array<real>, counts: array<real>)
    requires StrictlyIncreasing(unique) && forall k :: 0 <= k < |ids| ==> ids[k] in unique
    ensures sums.Length == counts.Length == |unique| && fresh(sums) && fresh(counts)
    ensures forall j :: 0 <= j < |unique| ==> sums[j] == SlotSum(ids, unique[j], |ids|, x)
    ensures forall j :: 0 <= j < |unique| ==> counts[j] == SlotSum(ids, unique[j], |ids|, One())
  {
    sums, counts := new real[|unique|](_ => 0.0), new real[|unique|](_ => 0.0);
    for i := 0 to |ids|
      invariant forall j :: 0 <= j < |unique| ==> sums[j] == SlotSum(ids, unique[j], i, x)
      invariant forall j :: 0 <= j < |unique| ==> counts[j] == SlotSum(ids, unique[j], i, One())
    {
      UniquePosition(unique, ids[i]);
      var pos := SearchSorted(unique, ids[i]);
      sums[pos] := sums[pos] + x(i);
      counts[pos] := counts[pos] + 1.0;
    }
  }

  /** _train_model_bank_kernel: per-slot means over the sorted distinct slots, summed. */
  method BankKernel(f: Forward, ids: seq<nat>, src: seq<Row>, tgt: seq<Row>, bank: nat, width: nat)
    returns (loss: real, count: nat)
    requires width > 0 && |ids| == |src| == |tgt| && forall k :: 0 <= k < |ids| ==> ids[k] < bank
    ensures loss == BankEager(f, ids, src, tgt, bank, width) && count == |UniqueBelow(ids, bank)|
  {
    hide MseOf, SlotSum, One;
    var unique := UniqueBelow(ids, bank);
    UniqueBelowMeaning(ids, bank);
    forall k | 0 <= k < |ids| ensures ids[k] in unique { assert ids[k] in ids; }
    var x := MseOf(f, ids, src, tgt, width);
    var sums, counts := SlotTotals(ids, unique, x);
    loss, count := 0.0, 0;
    ghost var mean := k => SlotMean(ids, if 0 <= k < |unique| then unique[k] else -1, |ids|, x, One());
    for j := 0 to |unique|
      invariant loss == Sum(j, mean) && count == j
    {
      assert mean(j) == sums[j] / Clamp1(counts[j]);
      loss, count := loss + sums[j] / Clamp1(counts[j]), count + 1;
    }
    SumEqual(|unique|, mean, k => SlotMean(ids, if 0 <= k < |unique| then unique[k] else -1, |ids|, x, One()));
  }

  // ---- one training call ---------------------------------------------------------------

  /** The graph reads the rows it is given: an external graph aliases exactly these buffers. */
  ghost predicate Reading(g: Graph, s: array<Row>, t: array<Row>)
    reads g
  {
    s != t && if g.external then s == g.src && t == g.tgt else s !in g.Own() && t !in g.Own()
  }

  /** What a training of these rows adds to the loss: the bank formula, or with bank 0 the
      shared one. */
  function EagerLoss(f: Forward, ids: seq<nat>, src: seq<Row>, tgt: seq<Row>, bank: nat, width: nat): real
    requires width > 0 && |src| > 0
  {
    if bank == 0 then SharedEager(f, src, tgt, |src|, width) else BankEager(f, ids, src, tgt, bank, width)
  }

  /** _replay_graph_with_disable_fallback: stage, replay, or report a miss. */
  method TryReplay(g: Graph, f: Forward, s: array<Row>, t: array<Row>, n: nat, ids: seq<nat>, bank: nat, width: nat,
        replayWorks: bool)
    returns (hit: bool, loss: real)
    requires g.Valid() && (g.valid != null ==> g.bank == bank) && width > 0
    requires Reading(g, s, t) && 0 < n <= s.Length && n <= t.Length
    requires |ids| == n && (bank > 0 ==> forall k :: 0 <= k < n ==> ids[k] < bank)
    modifies g, g.Own()
    ensures g.Valid() && (g.valid != null ==> g.bank == bank)
    ensures g.Own() == old(g.Own()) && g.external == old(g.external) && g.src == old(g.src) && g.tgt == old(g.tgt)
    ensures g.valid == old(g.valid) && g.slotIds == old(g.slotIds)
    ensures hit ==> old(g.state) == Captured && g.state == Captured
    ensures hit ==> loss == EagerLoss(f, ids, s[..n], t[..n], bank, width)
    ensures s[..] == old(s[..]) && t[..] == old(t[..])
  {
    loss := 0.0;
    if g.state != Captured { return false, loss; }
    assert bank == 0 || forall k :: 0 <= k < n ==> ids[k] < g.bank;
    var staged := g.Stage(s, t, n, if bank == 0 then None else Some(ids));
    if !staged { return false, loss; }
    if !replayWorks {
      g.state := Disabled;
      return false, loss;
    }
    if bank == 0 {
      SharedGraphIsEager(f, g.src[..], g.tgt[..], s[..n], t[..n], g.valid[..], n, width);
      loss := g.SharedLoss(f, width);
    } else {
      BankGraphIsEager(f, g.slotIds[..], g.src[..], g.tgt[..], g.valid[..], ids, s[..n], t[..n], bank, width);
      loss := g.BankLoss(f, width);
    }
    return true, loss;
  }

  ghost predicate GraphOk(g: Graph, mode: nat)
    reads g, g.valid, g.slotIds
  {
    g.Valid() && (g.valid != null ==> g.bank == mode)
  }

  /** loss_count grows by one per training in shared mode, by one per distinct slot otherwise. */
  function Delta(ids: seq<nat>, mode: nat): nat {
    if mode == 0 then 1 else |UniqueBelow(ids, mode)|
  }

  /** Replay if the graph is captured and can take the batch, otherwise run the kernel: one or
      the other, never both, and the same loss either way. */
  method TrainOn(g: Graph, f: Forward, s: array<Row>, t: array<Row>, n: nat, ids: seq<nat>, mode: nat, width: nat,
                 enabled: bool, replayWorks: bool)
    returns (replayed: bool, loss: real, count: nat)
    requires GraphOk(g, mode) && width > 0 && Reading(g, s, t) && 0 < n <= s.Length && n <= t.Length
    requires |ids| == n && (mode > 0 ==> forall k :: 0 <= k < n ==> ids[k] < mode)
    modifies g, g.Own()
    ensures GraphOk(g, mode) && g.valid == old(g.valid) && g.slotIds == old(g.slotIds)
    ensures g.Own() == old(g.Own()) && g.external == old(g.external) && g.src == old(g.src) && g.tgt == old(g.tgt)
    ensures g.Parts() == old(g.Parts())
    ensures s[..] == old(s[..]) && t[..] == old(t[..])
    ensures loss == EagerLoss(f, ids, s[..n], t[..n], mode, width) && count == Delta(ids, mode)
    ensures replayed ==> enabled && old(g.state) == Captured
  {
    replayed, loss := false, 0.0;
    if enabled { replayed, loss := TryReplay(g, f, s, t, n, ids, mode, width, replayWorks); }
    count := Delta(ids, mode);
    if !replayed {
      if mode == 0 {
        loss := SharedEager(f, s[..n], t[..n], n, width);
      } else {
        loss, count := BankKernel(f, ids, s[..n], t[..n], mode, width);
      }
    }
  }

  /** The two buffers of one pipeline slot and the slot's graph, which reads those buffers
      themselves. */
  class PipelineSlot {
    const src: array<Row>
    const tgt: array<Row>
    const width: nat
    var graph: Graph
    var bank: nat
    ghost var Repr: set<object>

    /** A slot graph that has buffers aliases the slot's own. */
    ghost predicate Valid()
      reads this, Repr
    {
      && {this, src, tgt, graph} <= Repr && graph.Parts() <= Repr && this !in graph.Parts()
      && bank > 0 && width > 0 && src != tgt && src.Length == tgt.Length
      && GraphOk(graph, bank) && src !in graph.Own() && tgt !in graph.Own()
      && (graph.valid != null ==> graph.external && graph.src == src && graph.tgt == tgt)
    }

    /** New buffers of a (re)allocated pipeline. */
    constructor (rows: nat, bank: nat, width: nat)
      requires bank > 0 && width > 0
      ensures Valid() && fresh(Repr) && graph.valid == null
      ensures src.Length == rows && this.bank == bank && this.width == width
    {
      this.bank, this.width := bank, width;
      src := new Row[rows](_ => []);
      tgt := new Row[rows](_ => []);
      graph := new Graph();
      new;
      Repr := {this, src, tgt, graph};
    }

    /** _reset_runtime_cache drops the slot graphs; the next one may be for another bank. */
    method DropGraph(wanted: nat)
      requires Valid() && wanted > 0
      modifies this
      ensures Valid() && bank == wanted && graph.valid == null && fresh(Repr - old(Repr))
    {
      bank := wanted;
      graph := new Graph();
      Repr := Repr + {graph};
    }

    /** launch_step's two copies into the slot */
    method CopyIn(source: seq<Row>, target: seq<Row>)
      requires Valid()
      modifies src, tgt
      ensures Valid()
      ensures forall i :: 0 <= i < src.Length ==> src[i] == if i < |source| then source[i] else old(src[i])
      ensures forall i :: 0 <= i < tgt.Length ==> tgt[i] == if i < |target| then target[i] else old(tgt[i])
    {
      forall i | 0 <= i < src.Length && i < |source| { src[i] := source[i]; }
      forall i | 0 <= i < tgt.Length && i < |target| { tgt[i] := target[i]; }
    }

    /** _train_model_bank on a prefix selection: the slot's own buffers and graph. */
    method TrainPrefix(f: Forward, ids: seq<nat>, enabled: bool, replayWorks: bool, capture: CaptureOutcome)
      returns (replayed: bool, loss: real, count: nat)
      requires Valid() && 0 < |ids| <= src.Length && forall k :: 0 <= k < |ids| ==> ids[k] < bank
      modifies this`Repr, graph, graph.Own()
      ensures Valid() && src[..] == old(src[..]) && tgt[..] == old(tgt[..])
      ensures loss == BankEager(f, ids, src[..|ids|], tgt[..|ids|], bank, width) && count == |UniqueBelow(ids, bank)|
      ensures fresh(Repr - old(Repr))
    {
      hide BankEager, UniqueBelow, Graph.Parts;
      replayed, loss, count := TrainOn(graph, f, src, tgt, |ids|, ids, bank, width, enabled, replayWorks);
      if !replayed && enabled && graph.state == Uncaptured && capture != CaptureSkipped {
        graph.EnsureAliasStorage(|ids|, bank, src, tgt);
        graph.Settle(capture == CaptureWorks);
      }
      Repr := Repr + graph.Parts();
    }
  }

  /** _train_model_bank on any other selection: gathered rows and the bank-wide graph. */
  method TrainGathered(f: Forward, src: array<Row>, tgt: array<Row>, rowIds: seq<int>, ids: seq<nat>, g: Graph,
        bank: nat, width: nat,
                       enabled: bool, replayWorks: bool, capture: CaptureOutcome)
    returns (replayed: bool, loss: real, count: nat)
    requires bank > 0 && width > 0 && GraphOk(g, bank) && !g.external && src !in g.Own() && tgt !in g.Own()
    requires 0 < |rowIds| == |ids|
    requires forall k :: 0 <= k < |ids| ==> 0 <= rowIds[k] < src.Length && rowIds[k] < tgt.Length && ids[k] < bank
    modifies g, g.Own()
    ensures GraphOk(g, bank) && !g.external && src[..] == old(src[..]) && tgt[..] == old(tgt[..])
    ensures loss == BankEager(f, ids, Gather(src[..], rowIds), Gather(tgt[..], rowIds), bank, width)
    ensures count == |UniqueBelow(ids, bank)|
    ensures fresh(g.Parts() - old(g.Parts()))
  {
    hide BankEager, UniqueBelow, SharedEager, Graph.Parts;
    var n := |rowIds|;
    var s := GatherRows(src, rowIds);
    var t := GatherRows(tgt, rowIds);
    assert s[..n] == s[..] && t[..n] == t[..];
    replayed, loss, count := TrainOn(g, f, s, t, n, ids, bank, width, enabled, replayWorks);
    if !replayed && enabled && g.state == Uncaptured && capture != CaptureSkipped {
      label before: g.EnsureOwnStorage(n, bank);
      forall o | o in g.Parts() && o !in old(g.Parts()) ensures fresh(o) {
        assert o !in old@before(g.Parts()) && fresh@before(o);
      }
      g.Settle(capture == CaptureWorks);
    }
  }

  /** Trains on the selected rows of one slot, whichever buffers and graph they call for. */
  method TrainBank(p: PipelineSlot, f: Forward, rowIds: seq<int>, ids: seq<nat>, bankGraph: Graph,
                   enabled: bool, replayWorks: bool, capture: CaptureOutcome)
    returns (replayed: bool, loss: real, count: nat)
    requires p.Valid() && 0 < |rowIds| == |ids| <= p.src.Length
    requires forall k :: 0 <= k < |ids| ==> 0 <= rowIds[k] < p.src.Length && ids[k] < p.bank
    requires GraphOk(bankGraph, p.bank) && !bankGraph.external && p.Repr !! bankGraph.Parts()
    modifies p.Repr, bankGraph.Parts()
    ensures p.Valid() && GraphOk(bankGraph, p.bank) && !bankGraph.external && p.Repr !! bankGraph.Parts()
    ensures p.bank == old(p.bank)
    ensures p.src[..] == old(p.src[..]) && p.tgt[..] == old(p.tgt[..])
    ensures loss == BankEager(f, ids, Gather(p.src[..], rowIds), Gather(p.tgt[..], rowIds), p.bank, p.width)
    ensures count == |UniqueBelow(ids, p.bank)|
    ensures fresh(p.Repr - old(p.Repr)) && fresh(bankGraph.Parts() - old(bankGraph.Parts()))
  {
    hide BankEager, UniqueBelow;
    if rowIds == Arange(|rowIds|) {
      hide Graph.Parts;
      bankGraph.PartsHold();
      PrefixGather(p.src[..], rowIds);
      PrefixGather(p.tgt[..], rowIds);
      assert p.src[..][..|ids|] == p.src[..|ids|] && p.tgt[..][..|ids|] == p.tgt[..|ids|];
      replayed, loss, count := p.TrainPrefix(f, ids, enabled, replayWorks, capture);
    } else {
      replayed, loss, count := TrainElsewhere(p, f, rowIds, ids, bankGraph, enabled, replayWorks, capture);
    }
  }

  /** Gathered rows and the bank-wide graph leave the slot as it is. */
  method TrainElsewhere(p: PipelineSlot, f: Forward, rowIds: seq<int>, ids: seq<nat>, bankGraph: Graph,
                        enabled: bool, replayWorks: bool, capture: CaptureOutcome)
    returns (replayed: bool, loss: real, count: nat)
    requires p.Valid() && 0 < |rowIds| == |ids|
    requires forall k :: 0 <= k < |ids| ==> 0 <= rowIds[k] < p.src.Length && ids[k] < p.bank
    requires GraphOk(bankGraph, p.bank) && !bankGraph.external && p.Repr !! bankGraph.Parts()
    modifies bankGraph.Parts()
    ensures p.Valid() && GraphOk(bankGraph, p.bank) && !bankGraph.external && p.Repr !! bankGraph.Parts()
    ensures p.Repr == old(p.Repr) && p.bank == old(p.bank)
    ensures p.src[..] == old(p.src[..]) && p.tgt[..] == old(p.tgt[..])
    ensures loss == BankEager(f, ids, Gather(p.src[..], rowIds), Gather(p.tgt[..], rowIds), p.bank, p.width)
    ensures count == |UniqueBelow(ids, p.bank)| && fresh(bankGraph.Parts() - old(bankGraph.Parts()))
  {
    hide BankEager, UniqueBelow;
    replayed, loss, count := TrainGathered(f, p.src, p.tgt, rowIds, ids, bankGraph, p.bank, p.width,
                                           enabled, replayWorks, capture);
  }

  lemma {:induction false} PrefixGather(rows: seq<Row>, ids: seq<int>)
    requires |ids| <= |rows| && ids == Arange(|ids|)
    ensures forall k :: 0 <= k < |ids| ==> 0 <= ids[k] < |rows|
    ensures Gather(rows, ids) == rows[..|ids|]
  {
    assert forall k :: 0 <= k < |ids| ==> ids[k] == k;
  }

  /** index_select into a new tensor */
  method GatherRows(a: array<Row>, ids: seq<int>) returns (b: array<Row>)
    requires forall k :: 0 <= k < |ids| ==> 0 <= ids[k] < a.Length
    ensures fresh(b) && b[..] == Gather(a[..], ids)
  {
    b := new Row[|ids|](k requires 0 <= k < |ids| reads a => a[ids[k]]);
  }

  /** _train_shared over one pipeline slot: the shared graph copies its inputs into buffers sized
      to the slot. */
  method TrainShared(f: Forward, src: array<Row>, tgt: array<Row>, n: nat, g: Graph, width: nat,
                     enabled: bool, replayWorks: bool, capture: CaptureOutcome)
    returns (replayed: bool, loss: real, count: nat)
    requires GraphOk(g, 0) && !g.external && src != tgt && src !in g.Parts() && tgt !in g.Parts()
    requires width > 0 && 0 < n <= src.Length && n <= tgt.Length
    modifies g.Parts()
    ensures GraphOk(g, 0) && !g.external
    ensures src[..] == old(src[..]) && tgt[..] == old(tgt[..])
    ensures loss == old(SharedEager(f, src[..n], tgt[..n], n, width)) && count == 1
    ensures fresh(g.Parts() - old(g.Parts()))
  {
    hide SharedEager, BankEager;
    ghost var s, t := src[..], tgt[..];
    if enabled { g.EnsureOwnStorage(src.Length, 0); }
    assert src !in g.Own() && tgt !in g.Own();
    replayed, loss, count := TrainOn(g, f, src, tgt, n, seq(n, _ => 0), 0, width, enabled, replayWorks);
    assert src[..n] == s[..n] && tgt[..n] == t[..n];
    if !replayed && enabled && g.state == Uncaptured && capture != CaptureSkipped {
      g.Settle(capture == CaptureWorks);
    }
  }
}
