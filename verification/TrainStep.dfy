/** One queued training: the slot table, the pipeline slots' buffers, the graphs, and the three ways
    of training a step. */
module TrainStep {
  import opened Common
  import opened Rows
  import opened Losses
  import opened Sums
  import opened SlotTable
  import SlotEngine
  import SlotLookup
  import opened GraphReplay
  import opened BankTraining

  /** What one training adds to loss_sum and loss_count. */
  datatype Trained = Trained(loss: real, count: nat)

  // ---- one model per prompt -------------------------------------------------------------

  /** Rows below n with prompt p, in order. */
  function RowsOf(prompts: seq<int>, n: nat, p: int): (ids: seq<int>)
    requires n <= |prompts|
    ensures forall k :: 0 <= k < |ids| ==> 0 <= ids[k] < n
  {
    if n == 0 then [] else RowsOf(prompts, n - 1, p) + if prompts[n - 1] == p then [n - 1] else []
  }

  /** Every prompt below n has its group. */
  ghost predicate Grouped(prompts: seq<int>, n: nat, groups: map<int, seq<int>>)
    requires n <= |prompts|
  {
    && (forall p :: p in groups <==> p in prompts[..n])
    && (forall p :: p in groups ==> groups[p] == RowsOf(prompts, n, p))
  }

  lemma {:induction false} RowsOfNone(prompts: seq<int>, n: nat, p: int)
    requires n <= |prompts|
    ensures RowsOf(prompts, n, p) == [] <==> p !in prompts[..n]
  {
    if n > 0 {
      assert prompts[..n] == prompts[..n - 1] + [prompts[n - 1]];
      RowsOfNone(prompts, n - 1, p);
    }
  }

  lemma {:induction false} GroupedNext(prompts: seq<int>, n: nat, groups: map<int, seq<int>>)
    requires n < |prompts| && Grouped(prompts, n, groups)
    ensures Grouped(prompts, n + 1,
                    groups[prompts[n] := (if prompts[n] in groups then groups[prompts[n]] else []) + [n]])
  {
    assert prompts[..n + 1] == prompts[..n] + [prompts[n]];
    if prompts[n] !in groups { RowsOfNone(prompts, n, prompts[n]); }
  }

  lemma {:induction false} GatherPush(prompts: seq<int>, n: nat)
    requires n < |prompts|
    ensures Gather(prompts, FirstRows(prompts, n + 1)) ==
      Gather(prompts, FirstRows(prompts, n)) + if prompts[n] >= 0 && prompts[n] !in prompts[..n] then [prompts[n]]
        else []
  {
  }

  /** The dictionary of _train_per_request: one group per distinct prompt, in first-row order. A row
      without a prompt is an error. */
  method GroupByPrompt(prompts: seq<int>) returns (ok: bool, order: seq<int>, groups: map<int, seq<int>>)
    ensures ok <==> forall r :: 0 <= r < |prompts| ==> prompts[r] >= 0
    ensures ok ==> order == Gather(prompts, FirstRows(prompts, |prompts|)) && Grouped(prompts, |prompts|, groups)
  {
    order, groups := [], map[];
    for i := 0 to |prompts|
      invariant forall r :: 0 <= r < i ==> prompts[r] >= 0
      invariant order == Gather(prompts, FirstRows(prompts, i)) && Grouped(prompts, i, groups)
    {
      var p := prompts[i];
      if p < 0 { return false, order, groups; }
      GroupedNext(prompts, i, groups);
      GatherPush(prompts, i);
      assert p in groups <==> p in prompts[..i];
      if p !in groups { order := order + [p]; }
      groups := groups[p := (if p in groups then groups[p] else []) + [i]];
    }
    ok := true;
  }

  function ForPrompt(f: Forward, p: int): Forward { (slot, row) => f(p, row) }

  /** The mean squared error of one prompt's rows under that prompt's model. */
  function GroupLoss(f: Forward, p: int, prompts: seq<int>, src: seq<Row>, tgt: seq<Row>, width: nat): real
    requires width > 0 && |prompts| == |src| == |tgt|
  {
    var ids := RowsOf(prompts, |prompts|, p);
    if ids == [] then 0.0 else SharedEager(ForPrompt(f, p), Gather(src, ids), Gather(tgt, ids), |ids|, width)
  }

  function GroupsLoss(f: Forward, order: seq<int>, prompts: seq<int>, src: seq<Row>, tgt: seq<Row>, width: nat): real
    requires width > 0 && |prompts| == |src| == |tgt|
    decreases |order|
  {
    if order == [] then 0.0
    else
      var k := |order| - 1;
      GroupsLoss(f, order[..k], prompts, src, tgt, width) + GroupLoss(f, order[k], prompts, src, tgt, width)
  }

  /** A prompt's group loss is the mean squared error of exactly its rows, under its own model. */
  lemma {:induction false} GroupMeaning(f: Forward, p: int, prompts: seq<int>, src: seq<Row>, tgt: seq<Row>, width: nat)
    requires width > 0 && |prompts| == |src| == |tgt|
    ensures GroupLoss(f, p, prompts, src, tgt, width) == OwnError(f, p, prompts, src, tgt, width)
  {
    hide RowSq, Sum, RowsOf, GroupLoss, OwnError, OwnSquares, Squares, RowsWith, RowsBelow, ForPrompt, Gather, Mean;
    var n := |prompts|;
    var ids := RowsOf(prompts, n, p);
    RowsOfCount(prompts, n, p);
    GroupSum(f, p, prompts, src, tgt, width);
    OwnErrorIs(f, p, prompts, src, tgt, width);
    GroupLossIs(f, p, prompts, src, tgt, width);
  }

  lemma {:induction false} GroupLossIs(f: Forward, p: int, prompts: seq<int>, src: seq<Row>, tgt: seq<Row>, width: nat)
    requires width > 0 && |prompts| == |src| == |tgt|
    ensures var ids := RowsOf(prompts, |prompts|, p);
      GroupLoss(f, p, prompts, src, tgt, width) ==
        if ids == [] then 0.0
        else Mean(Sum(|ids|, Squares(ForPrompt(f, p), Gather(src, ids), Gather(tgt, ids), width)), |ids|, width)
  {
    hide Sum, Squares, ForPrompt;
  }

  lemma {:induction false} GroupSum(f: Forward, p: int, prompts: seq<int>, src: seq<Row>, tgt: seq<Row>, width: nat)
    requires |prompts| == |src| == |tgt|
    ensures var ids := RowsOf(prompts, |prompts|, p);
      Sum(|ids|, Squares(ForPrompt(f, p), Gather(src, ids), Gather(tgt, ids), width)) ==
        Sum(|prompts|, OwnSquares(f, p, prompts, src, tgt, width))
  {
    hide RowSq, ForPrompt;
    var ids := RowsOf(prompts, |prompts|, p);
    var own, squares := OwnSquares(f, p, prompts, src, tgt, width),
                        Squares(ForPrompt(f, p), Gather(src, ids), Gather(tgt, ids), width);
    RowsOfCount(prompts, |prompts|, p);
    forall k | 0 <= k < |ids| ensures squares(k) == own(ids[k]) {
      ForPromptSq(f, p, src[ids[k]], tgt[ids[k]], width);
    }
    RowsOfSum(prompts, |prompts|, p, own, squares);
  }

  lemma {:induction false} ForPromptSq(f: Forward, p: int, src: Row, tgt: Row, width: nat)
    ensures RowSq(ForPrompt(f, p), 0, src, tgt, width) == RowSq(f, p, src, tgt, width)
  {
    hide Distance;
  }

  lemma {:induction false} RowsOfCount(prompts: seq<int>, n: nat, p: int)
    requires n <= |prompts|
    ensures |RowsOf(prompts, n, p)| == |RowsBelow(prompts, p, n)|
    ensures n == |prompts| ==> RowsBelow(prompts, p, n) == RowsWith(prompts, p)
    ensures forall k :: 0 <= k < |RowsOf(prompts, n, p)| ==> prompts[RowsOf(prompts, n, p)[k]] == p
  {
    if n > 0 {
      RowsOfCount(prompts, n - 1, p);
      var before, now := RowsBelow(prompts, p, n - 1), RowsBelow(prompts, p, n);
      assert now == if prompts[n - 1] == p then before + {n - 1} else before;
    }
  }

  /** Summing over a prompt's rows is summing over all rows, zero elsewhere. */
  lemma {:induction false} RowsOfSum(prompts: seq<int>, n: nat, p: int, own: int -> real, picked: int -> real)
    requires n <= |prompts| && forall i :: 0 <= i < n && prompts[i] != p ==> own(i) == 0.0
    requires forall k :: 0 <= k < |RowsOf(prompts, n, p)| ==> picked(k) == own(RowsOf(prompts, n, p)[k])
    ensures Sum(|RowsOf(prompts, n, p)|, picked) == Sum(n, own)
  {
    if n > 0 {
      var before, ids := RowsOf(prompts, n - 1, p), RowsOf(prompts, n, p);
      assert forall k :: 0 <= k < |before| ==> ids[k] == before[k];
      RowsOfSum(prompts, n - 1, p, own, picked);
    }
  }

  lemma {:induction false} GroupsMeaning(f: Forward, order: seq<int>, prompts: seq<int>, src: seq<Row>, tgt: seq<Row>,
                                         width: nat)
    requires width > 0 && |prompts| == |src| == |tgt|
    ensures GroupsLoss(f, order, prompts, src, tgt, width) ==
      Sum(|order|, k => if 0 <= k < |order| then OwnError(f, order[k], prompts, src, tgt, width) else 0.0)
    decreases |order|
  {
    hide GroupLoss, OwnError;
    if order != [] {
      var k := |order| - 1;
      GroupsMeaning(f, order[..k], prompts, src, tgt, width);
      GroupMeaning(f, order[k], prompts, src, tgt, width);
      SumEqual(k, i => if 0 <= i < |order[..k]| then OwnError(f, order[..k][i], prompts, src, tgt, width) else 0.0,
               i => if 0 <= i < |order| then OwnError(f, order[i], prompts, src, tgt, width) else 0.0);
    }
  }

  lemma {:induction false} PerRequestMeaning(f: Forward, prompts: seq<int>, src: seq<Row>, tgt: seq<Row>, width: nat)
    requires width > 0 && |prompts| == |src| == |tgt|
    ensures var firsts := FirstRows(prompts, |prompts|);
      GroupsLoss(f, Gather(prompts, firsts), prompts, src, tgt, width) == Sum(|firsts|, k =>
        if 0 <= k < |firsts| then OwnError(f, prompts[firsts[k]], prompts, src, tgt, width) else 0.0)
  {
    hide FirstRows, OwnError, GroupsLoss;
    var firsts := FirstRows(prompts, |prompts|);
    var order := Gather(prompts, firsts);
    GroupsMeaning(f, order, prompts, src, tgt, width);
    SumEqual(|firsts|, k => if 0 <= k < |order| then OwnError(f, order[k], prompts, src, tgt, width) else 0.0,
             k => if 0 <= k < |firsts| then OwnError(f, prompts[firsts[k]], prompts, src, tgt, width) else 0.0);
  }

  /** _train_per_request: one training per group.  Every distinct prompt adds the mean squared error of
      exactly its own rows under its own model. */
  method TrainPerRequest(f: Forward, prompts: seq<int>, src: seq<Row>, tgt: seq<Row>, width: nat)
    returns (r: Result<Trained, Error>)
    requires width > 0 && |prompts| == |src| == |tgt|
    ensures r.Err? <==> exists k :: 0 <= k < |prompts| && prompts[k] < 0
    ensures r.Err? ==> r.error == MissingPrompt
    ensures var order := Gather(prompts, FirstRows(prompts, |prompts|));
      r.Ok? ==> r.value == Trained(GroupsLoss(f, order, prompts, src, tgt, width), |order|)
    ensures var firsts := FirstRows(prompts, |prompts|);
      r.Ok? ==> r.value.loss == Sum(|firsts|, k =>
        if 0 <= k < |firsts| then OwnError(f, prompts[firsts[k]], prompts, src, tgt, width) else 0.0)
  {
    hide SharedEager, OwnError;
    var ok, order, groups := GroupByPrompt(prompts);
    if !ok { return Err(MissingPrompt); }
    var loss, count := 0.0, 0;
    for i := 0 to |order|
      invariant loss == GroupsLoss(f, order[..i], prompts, src, tgt, width) && count == i
    {
      assert order[..i + 1][..i] == order[..i];
      OrderKnown(prompts, i);
      var p := order[i];
      RowsOfNone(prompts, |prompts|, p);
      assert prompts[..|prompts|] == prompts;
      var ids := groups[p];
      loss := loss + SharedEager(ForPrompt(f, p), Gather(src, ids), Gather(tgt, ids), |ids|, width);
      count := count + 1;
    }
    assert order[..|order|] == order;
    PerRequestMeaning(f, prompts, src, tgt, width);
    return Ok(Trained(loss, count));
  }

  lemma {:induction false} OrderKnown(prompts: seq<int>, i: nat)
    requires i < |FirstRows(prompts, |prompts|)|
    ensures Gather(prompts, FirstRows(prompts, |prompts|))[i] in prompts
  {
  }

  // ---- what a training is ------------------------------------------------------------------

  ghost function BankTrained(f: Forward, rows: seq<int>, ids: seq<nat>, src: seq<Row>, tgt: seq<Row>, bank: nat,
                             width: nat): Trained
    requires width > 0 && |src| == |tgt| && forall k :: 0 <= k < |rows| ==> 0 <= rows[k] < |src|
  {
    if rows == [] then Trained(0.0, 0)
    else Trained(BankEager(f, ids, Gather(src, rows), Gather(tgt, rows), bank, width), |UniqueBelow(ids, bank)|)
  }

  /** _train_slot on the active rows, as a function of the slot table. */
  ghost function TrainRows(t: Table, f: Forward, src: seq<Row>, tgt: seq<Row>, prompts: seq<int>)
    : (Table, Result<Trained, Error>)
    requires t.hidden > 0 && |src| == |tgt| == |prompts|
  {
    var n := |src|;
    if UsingBank(t) then
      var (t', r) := TrainSelect(t, prompts, n);
      if r.Err? then (t', Err(r.error))
      else (t', Ok(BankTrained(f, r.value.0, r.value.1, src, tgt, Wanted(t.cfg), t.hidden)))
    else if t.cfg.perRequest then
      if Missing(prompts, n) then (t, Err(MissingPrompt))
      else
        var order := Gather(prompts, FirstRows(prompts, n));
        (t, Ok(Trained(GroupsLoss(f, order, prompts, src, tgt, t.hidden), |order|)))
    else (t, Ok(if n == 0 then Trained(0.0, 0) else Trained(SharedEager(f, src, tgt, n, t.hidden), 1)))
  }

  /** What a training adds to loss_count: one in shared mode, one per distinct prompt otherwise. */
  ghost function Counted(cfg: Config, prompts: seq<int>): nat {
    if cfg.perRequest then |PromptSet(prompts, |prompts|)| else if prompts == [] then 0 else 1
  }

  /** The prompts a training gives slots to. */
  ghost function Taught(t: Table, prompts: seq<int>): set<int> {
    if UsingBank(t) then PromptSet(prompts, |prompts|) else {}
  }

  /** The bank kernel counts distinct slots; one prompt has one slot, so these are the prompts. */
  lemma {:induction false} BankCountsPrompts(t: Table, prompts: seq<int>, active: nat, bank: nat)
    requires Coherent(t) && t.hidden > 0 && TrainSelect(t, prompts, active).1.Ok?
    requires forall k :: 0 <= k < |TrainSelect(t, prompts, active).1.value.1|
               ==> TrainSelect(t, prompts, active).1.value.1[k] < bank
    ensures active <= |prompts|
    ensures |UniqueBelow(TrainSelect(t, prompts, active).1.value.1, bank)| == |PromptSet(prompts, active)|
  {
    hide TrainSelect, Coherent;
    TrainSelectCoherent(t, prompts, active);
    SelectedApart(t, prompts, active);
    DistinctUnique(TrainSelect(t, prompts, active).1.value.1, bank);
    FirstRowsCount(prompts, active);
  }

  lemma {:induction false} DistinctUnique(ids: seq<nat>, bank: nat)
    requires forall a, b :: 0 <= a < b < |ids| ==> ids[a] != ids[b]
    requires forall k :: 0 <= k < |ids| ==> ids[k] < bank
    ensures |UniqueBelow(ids, bank)| == |ids|
  {
    var unique := UniqueBelow(ids, bank);
    UniqueBelowMeaning(ids, bank);
    DistinctCount(ids);
    IncreasingDistinct(unique);
    DistinctCount(unique);
    assert Elements(unique) == Elements(ids);
  }

  lemma {:induction false} IncreasingDistinct(s: seq<nat>)
    requires StrictlyIncreasing(s)
    ensures forall a, b :: 0 <= a < b < |s| ==> s[a] != s[b]
  {
  }

  /** The slots of a selection are slots of the bank. */
  lemma {:induction false} SelectedInBank(t: Table, prompts: seq<int>, active: nat)
    requires Coherent(t) && t.hidden > 0 && t.bank.Some? && TrainSelect(t, prompts, active).1.Ok?
    ensures var (rows, ids) := TrainSelect(t, prompts, active).1.value;
      && active <= |prompts| && rows == FirstRows(prompts, active) && |ids| == |rows| <= active
      && forall k :: 0 <= k < |ids| ==> ids[k] < Wanted(t.cfg)
  {
    hide TrainSelect;
    TrainSelectCoherent(t, prompts, active);
    TrainSelectExactly(t, prompts, active);
    FirstRowsFit(prompts, active);
  }

  /** A training fails exactly when rows lack the prompts their mode needs or the prompts do not fit
      the bank; otherwise it counts one, or the distinct prompts, and bank training alone touches the
      table, by adding the batch's prompts. */
  lemma {:induction false} TrainExactly(t: Table, f: Forward, src: seq<Row>, tgt: seq<Row>, prompts: seq<int>)
    requires Coherent(t) && t.hidden > 0 && |src| == |tgt| == |prompts| && (UsingBank(t) ==> t.bank.Some?)
    ensures var (t', r) := TrainRows(t, f, src, tgt, prompts);
      && (r.Err? <==>
          (t.cfg.perRequest && Missing(prompts, |prompts|)) || (UsingBank(t) && !Fits(t, prompts, |prompts|)))
      && (r.Ok? ==> r.value.count == Counted(t.cfg, prompts))
      && (r.Ok? && r.value.count == 0 ==> r.value.loss == 0.0)
      && (r.Ok? ==> t'.slots.byPrompt.Keys == t.slots.byPrompt.Keys + Taught(t, prompts))
      && Coherent(t') && t' == t.(slots := t'.slots, cache := t'.cache, entries := t'.entries, dense := t'.dense)
  {
    hide TrainSelect, Coherent, BankEager, SharedEager, GroupLoss, Fits, Missing, PromptSet;
    var n := |prompts|;
    FirstRowsCount(prompts, n);
    if UsingBank(t) {
      TrainSelectExactly(t, prompts, n);
      TrainSelectCoherent(t, prompts, n);
      if TrainSelect(t, prompts, n).1.Ok? {
        SelectedInBank(t, prompts, n);
        BankCountsPrompts(t, prompts, n, Wanted(t.cfg));
      }
    }
  }

  /** The loss of a training, from the batch: in the bank, every distinct prompt's first row under its own
      slot's model; per request, every prompt's rows under its own model; otherwise all rows under the
      one model, each time the mean of the squared errors. */
  ghost predicate IsLoss(cfg: Config, slots: map<int, nat>, f: Forward, src: seq<Row>, tgt: seq<Row>,
                         prompts: seq<int>, width: nat, loss: real)
    requires width > 0 && |src| == |tgt| == |prompts|
  {
    var n, firsts := |prompts|, FirstRows(prompts, |prompts|);
    if cfg.perRequest && cfg.perBank then
      loss == Sum(|firsts|, k =>
        if 0 <= k < |firsts| && prompts[firsts[k]] in slots then
          RowSq(f, slots[prompts[firsts[k]]], src[firsts[k]], tgt[firsts[k]], width) / (width as real)
        else 0.0)
    else if cfg.perRequest then
      loss == Sum(|firsts|, k =>
        if 0 <= k < |firsts| then OwnError(f, prompts[firsts[k]], prompts, src, tgt, width) else 0.0)
    else if n == 0 then loss == 0.0
    else
      loss == Sum(n, i => if 0 <= i < n then RowSq(f, 0, src[i], tgt[i], width) else 0.0)
                / (n as real * width as real)
  }

  lemma {:induction false} TrainLossExactly(t: Table, f: Forward, src: seq<Row>, tgt: seq<Row>, prompts: seq<int>)
    requires Coherent(t) && t.hidden > 0 && |src| == |tgt| == |prompts| && (UsingBank(t) ==> t.bank.Some?)
    ensures var (t', r) := TrainRows(t, f, src, tgt, prompts);
      r.Ok? ==> IsLoss(t.cfg, t'.slots.byPrompt, f, src, tgt, prompts, t.hidden, r.value.loss)
  {
    hide FirstRows, TrainSelect, Coherent, RowSq, OwnError, GroupsLoss, SharedEager, BankTrained, Missing, Sum;
    var n := |prompts|;
    if UsingBank(t) {
      if TrainSelect(t, prompts, n).1.Ok? { BankLoss(t, f, src, tgt, prompts); }
    } else if t.cfg.perRequest {
      PerRequestMeaning(f, prompts, src, tgt, t.hidden);
    } else if n > 0 {
      SharedLoss(t.cfg, TrainRows(t, f, src, tgt, prompts).0.slots.byPrompt, f, src, tgt, prompts, t.hidden);
    }
  }

  lemma {:induction false} SharedLoss(cfg: Config, slots: map<int, nat>, f: Forward, src: seq<Row>, tgt: seq<Row>,
                                      prompts: seq<int>, width: nat)
    requires width > 0 && |src| == |tgt| == |prompts| > 0 && !cfg.perRequest
    ensures IsLoss(cfg, slots, f, src, tgt, prompts, width, SharedEager(f, src, tgt, |src|, width))
  {
    hide RowSq, Sum, SharedEager, FirstRows, OwnError;
    var n := |prompts|;
    SharedEagerMeaning(f, src, tgt, n, width);
    SumEqual(n, i => if 0 <= i < n then RowSq(f, 0, src[i], tgt[i], width) else 0.0,
             i => if 0 <= i < n then RowSq(f, 0, src[i], tgt[i], width) else 0.0);
  }

  lemma {:induction false} BankLoss(t: Table, f: Forward, src: seq<Row>, tgt: seq<Row>, prompts: seq<int>)
    requires Coherent(t) && t.hidden > 0 && |src| == |tgt| == |prompts| && t.bank.Some?
    requires TrainSelect(t, prompts, |prompts|).1.Ok?
    ensures var (t', r) := TrainSelect(t, prompts, |prompts|);
      var firsts, width := FirstRows(prompts, |prompts|), t.hidden;
      && r.value.0 == firsts
      && BankTrained(f, firsts, r.value.1, src, tgt, Wanted(t.cfg), width).loss == Sum(|firsts|, k =>
            if 0 <= k < |firsts| && prompts[firsts[k]] in t'.slots.byPrompt then
              RowSq(f, t'.slots.byPrompt[prompts[firsts[k]]], src[firsts[k]], tgt[firsts[k]], width) / (width as real)
            else 0.0)
  {
    hide FirstRows, TrainSelect, Coherent, RowSq, BankEager, UniqueBelow, Wanted;
    var n, width, bank := |prompts|, t.hidden, Wanted(t.cfg);
    var firsts := FirstRows(prompts, n);
    var (t', r) := TrainSelect(t, prompts, n);
    var ids := r.value.1;
    SelectedInBank(t, prompts, n);
    SelectedApart(t, prompts, n);
    TrainSelectCoherent(t, prompts, n);
    if firsts != [] {
      OneRowEachLoss(f, ids, Gather(src, firsts), Gather(tgt, firsts), bank, width);
      SumEqual(|firsts|, k => if 0 <= k < |ids| then
                 RowSq(f, ids[k], Gather(src, firsts)[k], Gather(tgt, firsts)[k], width) / (width as real) else 0.0,
               k => if 0 <= k < |firsts| && prompts[firsts[k]] in t'.slots.byPrompt then
                 RowSq(f, t'.slots.byPrompt[prompts[firsts[k]]], src[firsts[k]], tgt[firsts[k]], width)
                   / (width as real) else 0.0);
    }
  }

  /** Selected rows have different slots. */
  lemma {:induction false} SelectedApart(t: Table, prompts: seq<int>, active: nat)
    requires Coherent(t) && t.hidden > 0 && TrainSelect(t, prompts, active).1.Ok?
    ensures var ids := TrainSelect(t, prompts, active).1.value.1;
      forall a, b :: 0 <= a < b < |ids| ==> ids[a] != ids[b]
  {
    hide TrainSelect, Coherent;
    TrainSelectCoherent(t, prompts, active);
    var (t', r) := TrainSelect(t, prompts, active);
    var rows, ids := r.value.0, r.value.1;
    FirstRowsMeaning(prompts, active);
    forall a, b | 0 <= a < b < |ids| ensures ids[a] != ids[b] {
      assert rows[a] < rows[b] && rows[a] in rows && rows[b] in rows;
      assert IsFirst(prompts, rows[b]);
      assert t'.slots.bySlot[ids[a]] == prompts[rows[a]] && t'.slots.bySlot[ids[b]] == prompts[rows[b]];
    }
  }

  // ---- the state of training -----------------------------------------------------------------

  /** How the graph runtime behaves during one training. */
  datatype GraphRun = GraphRun(enabled: bool, replayWorks: bool, capture: CaptureOutcome)

  /** torch.empty over all pipeline slots */
  method NewSlots(n: nat, rows: nat, bank: nat, width: nat) returns (made: seq<PipelineSlot>, ghost all: set<object>)
    requires bank > 0 && width > 0
    ensures |made| == n && fresh(all)
    ensures forall k :: 0 <= k < n ==> made[k] in all && made[k].Repr <= all
    ensures forall k :: 0 <= k < n ==>
      made[k].Valid() && made[k].src.Length == rows && made[k].width == width && made[k].bank == bank
    ensures forall j, k :: 0 <= j < k < n ==> made[j].Repr !! made[k].Repr
  {
    hide PipelineSlot.Valid;
    made, all := [], {};
    for i := 0 to n
      invariant |made| == i && fresh(all)
      invariant forall k :: 0 <= k < i ==> made[k] in all && made[k].Repr <= all
      invariant forall k :: 0 <= k < i ==>
        made[k].Valid() && made[k].src.Length == rows && made[k].width == width && made[k].bank == bank
      invariant forall j, k :: 0 <= j < k < i ==> made[j].Repr !! made[k].Repr
    {
      var p := new PipelineSlot(rows, bank, width);
      made, all := made + [p], all + p.Repr;
    }
  }

  /** One buffer pair and one graph per pipeline slot; no two slots share an object. */
  class SlotBuffers {
    const slots: seq<PipelineSlot>
    const rows: nat
    const width: nat
    var bank: nat
    ghost var Repr: set<object>

    ghost predicate SlotOk(p: PipelineSlot, wanted: nat)
      reads p, p.Repr
    {
      p.Valid() && p.src.Length == rows && p.width == width && p.bank == wanted
    }

    ghost predicate Valid()
      reads this, Repr
    {
      && this in Repr && bank > 0 && width > 0
      && (forall k :: 0 <= k < |slots| ==> slots[k] in Repr && slots[k].Repr <= Repr && this !in slots[k].Repr)
      && (forall k :: 0 <= k < |slots| ==> SlotOk(slots[k], bank))
      && (forall j, k :: 0 <= j < k < |slots| ==> slots[j].Repr !! slots[k].Repr)
    }

    constructor (n: nat, rows: nat, bank: nat, width: nat)
      requires bank > 0 && width > 0
      ensures Valid() && fresh(Repr)
      ensures |slots| == n && this.rows == rows && this.width == width && this.bank == bank
    {
      this.rows, this.width, this.bank := rows, width, bank;
      var made;
      ghost var all;
      made, all := NewSlots(n, rows, bank, width);
      slots := made;
      new;
      hide PipelineSlot.Valid;
      Repr := {this} + all;
    }

    /** _reset_runtime_cache on the slot graphs. */
    method DropGraphs(wanted: nat)
      requires Valid() && wanted > 0
      modifies Repr
      ensures Valid() && fresh(Repr - old(Repr)) && bank == wanted
    {
      hide PipelineSlot.Valid;
      ghost var was := bank;
      bank := wanted;
      for i := 0 to |slots|
        invariant this in Repr && bank == wanted && fresh(Repr - old(Repr))
        invariant forall k :: 0 <= k < |slots| ==> slots[k] in Repr && slots[k].Repr <= Repr && this !in slots[k].Repr
        invariant forall k :: 0 <= k < |slots| ==> SlotOk(slots[k], if k < i then wanted else was)
        invariant forall j, k :: 0 <= j < k < |slots| ==> slots[j].Repr !! slots[k].Repr
      {
        slots[i].DropGraph(wanted);
        Repr := Repr + slots[i].Repr;
      }
    }

    lemma {:induction false} SelfOwned()
      requires Valid()
      ensures this in Repr
    {
    }

    lemma {:induction false} SlotParts(k: nat)
      requires Valid() && k < |slots|
      ensures var p := slots[k];
        && p.src in p.Repr && p.tgt in p.Repr && p.src.Length == p.tgt.Length == rows && p.src != p.tgt
        && {p, p.src, p.tgt, p.graph} <= p.Repr && p.graph.Parts() <= p.Repr && p.Repr <= Repr
    {
    }

    /** What is known of another slot while slot k trains. */
    lemma {:induction false} OtherSlot(j: nat, k: nat)
      requires Valid() && j < |slots| && k < |slots| && j != k
      ensures slots[j].Repr !! slots[k].Repr && slots[j] in slots[j].Repr && slots[j].Repr <= Repr
    {
      SlotParts(j);
      if j < k { assert slots[j].Repr !! slots[k].Repr; } else { assert slots[k].Repr !! slots[j].Repr; }
    }

    /** launch_step's copies into slot k: its first rows are the batch's. */
    method CopyIn(k: nat, source: seq<Row>, target: seq<Row>)
      requires Valid() && k < |slots| && |source| == |target| <= rows
      modifies Repr - {this}
      ensures Valid() && Repr == old(Repr) && bank == old(bank)
      ensures slots[k].src[..|source|] == source && slots[k].tgt[..|target|] == target
    {
      hide PipelineSlot.Valid;
      SlotParts(k);
      slots[k].CopyIn(source, target);
    }

    /** Bank training on slot k. */
    method TrainBankRows(k: nat, f: Forward, rowIds: seq<int>, ids: seq<nat>, bankGraph: Graph, run: GraphRun)
      returns (t: Trained)
      requires Valid() && k < |slots| && 0 < |rowIds| == |ids| <= rows
      requires forall j :: 0 <= j < |ids| ==> 0 <= rowIds[j] < rows && ids[j] < bank
      requires GraphOk(bankGraph, bank) && !bankGraph.external && Repr !! bankGraph.Parts()
      modifies Repr, bankGraph.Parts()
      ensures Valid() && GraphOk(bankGraph, bank) && !bankGraph.external && Repr !! bankGraph.Parts()
      ensures fresh(Repr - old(Repr)) && fresh(bankGraph.Parts() - old(bankGraph.Parts())) && bank == old(bank)
      ensures t.loss ==
        old(BankEager(f, ids, Gather(slots[k].src[..], rowIds), Gather(slots[k].tgt[..], rowIds), bank, width))
      ensures t.count == |UniqueBelow(ids, bank)|
    {
      hide PipelineSlot.Valid, BankEager, UniqueBelow, GraphOk, Graph.Parts;
      SlotParts(k);
      forall j | 0 <= j < |slots| && j != k
        ensures slots[j].Repr !! slots[k].Repr && slots[j].Repr !! bankGraph.Parts() && slots[j] in slots[j].Repr
      {
        OtherSlot(j, k);
      }
      var p := slots[k];
      var replayed, loss, count := TrainBank(p, f, rowIds, ids, bankGraph, run.enabled, run.replayWorks, run.capture);
      Repr := Repr + p.Repr;
      assert forall j :: 0 <= j < |slots| && j != k ==> slots[j].Repr == old(slots[j].Repr) && SlotOk(slots[j], bank);
      t := Trained(loss, count);
    }
  }

  /** The pipeline buffers and the two graphs that any slot may use. */
  class PipelineBuffers {
    const data: SlotBuffers
    const bankGraph: Graph
    const sharedGraph: Graph
    ghost var Repr: set<object>

    /** Which objects are whose. */
    ghost predicate Owned()
      reads this, Repr
    {
      && {this, data, bankGraph, sharedGraph} <= Repr
      && data.Repr <= Repr && bankGraph.Parts() <= Repr && sharedGraph.Parts() <= Repr
      && this !in data.Repr && this !in bankGraph.Parts() && this !in sharedGraph.Parts()
      && data.Repr !! bankGraph.Parts() && data.Repr !! sharedGraph.Parts() && bankGraph.Parts() !! sharedGraph.Parts()
    }

    ghost predicate Valid()
      reads this, Repr
    {
      && Owned() && data.Valid() && data.width > 0 && GraphOk(bankGraph, data.bank) && !bankGraph.external
      && GraphOk(sharedGraph, 0) && !sharedGraph.external
    }

    constructor (n: nat, rows: nat, bank: nat, width: nat)
      requires bank > 0 && width > 0
      ensures Valid() && fresh(Repr)
      ensures |data.slots| == n && data.rows == rows && data.width == width && data.bank == bank
    {
      hide SlotBuffers.Valid;
      data := new SlotBuffers(n, rows, bank, width);
      bankGraph := new Graph();
      sharedGraph := new Graph();
      new;
      Repr := {this, data, bankGraph, sharedGraph} + data.Repr;
    }

    /** _reset_runtime_cache on the graphs. */
    method ResetGraphs(bank: nat)
      requires Valid() && bank > 0
      modifies Repr
      ensures Valid() && fresh(Repr - old(Repr)) && data.bank == bank
    {
      hide SlotBuffers.Valid, Graph.Parts;
      bankGraph.Reset();
      sharedGraph.Reset();
      data.DropGraphs(bank);
      Repr := Repr + data.Repr;
    }

    /** launch_step's copies */
    method CopyIn(k: nat, source: seq<Row>, target: seq<Row>)
      requires Valid() && k < |data.slots| && |source| == |target| <= data.rows
      modifies data.Repr - {data}
      ensures Valid() && Repr == old(Repr) && data.bank == old(data.bank)
      ensures data.slots[k].src.Length == data.slots[k].tgt.Length == data.rows
      ensures data.slots[k].src[..|source|] == source && data.slots[k].tgt[..|target|] == target
    {
      data.SlotParts(k);
      hide SlotBuffers.Valid;
      data.CopyIn(k, source, target);
    }

    method TrainBankRows(k: nat, f: Forward, rowIds: seq<int>, ids: seq<nat>, run: GraphRun) returns (t: Trained)
      requires Valid() && k < |data.slots| && 0 < |rowIds| == |ids| <= data.rows
      requires forall j :: 0 <= j < |ids| ==> 0 <= rowIds[j] < data.rows && ids[j] < data.bank
      modifies Repr
      ensures Valid() && fresh(Repr - old(Repr)) && data.bank == old(data.bank)
      ensures var p := data.slots[k];
        t.loss == old(BankEager(f, ids, Gather(p.src[..], rowIds), Gather(p.tgt[..], rowIds), data.bank, data.width))
      ensures t.count == |UniqueBelow(ids, data.bank)|
    {
      hide SlotBuffers.Valid, BankEager, UniqueBelow, GraphOk, Graph.Parts;
      sharedGraph.PartsHold();
      t := data.TrainBankRows(k, f, rowIds, ids, bankGraph, run);
      Repr := Repr + data.Repr + bankGraph.Parts();
    }

    /** Shared training on the first n rows of a slot. */
    method TrainSharedRows(p: PipelineSlot, f: Forward, n: nat, run: GraphRun) returns (t: Trained)
      requires Valid() && {p.src, p.tgt} <= data.Repr && p.src != p.tgt && 0 < n <= p.src.Length && n <= p.tgt.Length
      modifies Repr - data.Repr
      ensures Valid() && fresh(Repr - old(Repr))
      ensures t == old(Trained(SharedEager(f, p.src[..n], p.tgt[..n], n, data.width), 1))
    {
      hide SlotBuffers.Valid, SharedEager, GraphOk, Graph.Parts;
      bankGraph.PartsHold();
      data.SelfOwned();
      assert p.src !in sharedGraph.Parts() && p.tgt !in sharedGraph.Parts();
      var replayed, loss, count :=
        TrainShared(f, p.src, p.tgt, n, sharedGraph, data.width, run.enabled, run.replayWorks, run.capture);
      Repr := Repr + sharedGraph.Parts();
      t := Trained(loss, count);
    }
  }
  /** The pipeline was made for the table's own layout. */
  ghost predicate ShapeKept(t: Table) {
    t.pipeline.Some? ==>
      var p := t.pipeline.value;
      t.hidden > 0 && p.hidden == t.hidden && p.dtype == t.dtype && p.device == t.device
  }

  /** The buffers have the shape of the table's pipeline. */
  ghost predicate BuffersFit(b: SlotBuffers, t: Table)
    reads b
  {
    && t.pipeline.Some? && |b.slots| == t.pipeline.value.slots && b.rows == t.pipeline.value.rows
    && b.width == t.hidden && b.bank == Wanted(t.cfg)
  }

  lemma {:induction false} ConfigureFrame(t: Table, cfg: Config)
    ensures var t' := SlotTable.Configure(t, cfg);
      && t'.cfg == cfg && t'.pipeline == t.pipeline && t'.hidden == t.hidden && t'.dtype == t.dtype
      && t'.device == t.device
  {
  }

  lemma {:induction false} EnsureResourcesFrame(t: Table, device: int, rows: nat, hidden: nat, dtype: int)
    requires hidden > 0
    ensures var t' := SlotTable.EnsureResources(t, device, rows, hidden, dtype);
      && t'.cfg == t.cfg && t'.hidden == hidden && t'.dtype == dtype && t'.device == device
      && t'.pipeline == Some(Shape(t.cfg.pipelineSlots, rows, hidden, dtype, device))
  {
  }

  lemma {:induction false} AssignForSamplingFrame(t: Table, prompts: seq<int>)
    requires Coherent(t)
    ensures var t' := SlotTable.AssignForSampling(t, prompts).0;
      t' == t.(slots := t'.slots, cache := t'.cache, entries := t'.entries, dense := t'.dense)
  {
    hide AssignAll;
    if UsingBank(t) { AssignForSamplingExactly(t, prompts); }
  }

  /** Ensuring the same resources twice changes nothing. */
  lemma {:induction false} EnsureAgain(t: Table, device: int, rows: nat, hidden: nat, dtype: int)
    requires Coherent(t) && ShapeKept(t) && hidden > 0
    requires t.pipeline == Some(Shape(t.cfg.pipelineSlots, rows, hidden, dtype, device))
    requires UsingBank(t) ==> t.bank.Some?
    ensures SlotTable.EnsureResources(t, device, rows, hidden, dtype) == t
  {
    hide Bijection, DenseSound, CacheOk;
  }

  /** All that one training reads and writes. */
  class StepTrainer {
    const table: SlotEngine.ModelBankSlots
    var buffers: PipelineBuffers?
    ghost var Repr: set<object>

    ghost function TableParts(): set<object>
      reads this, table
    {
      {table} + if table.dense == null then {} else {table.dense}
    }

    /** Which objects are whose. */
    ghost predicate Owned()
      reads this, Repr
    {
      && {this, table} <= Repr && TableParts() <= Repr && this !in TableParts()
      && (buffers != null ==>
            {buffers} <= Repr && buffers.Repr <= Repr && this !in buffers.Repr && TableParts() !! buffers.Repr)
    }

    ghost predicate Valid()
      reads this, Repr
    {
      && Owned() && table.cfg.pipelineSlots > 0 && Coherent(table.View()) && ShapeKept(table.View())
      && (table.pipeline.Some? <==> buffers != null)
      && (buffers != null ==> buffers.Valid() && BuffersFit(buffers.data, table.View()))
    }

    constructor (cfg: Config, device: int)
      requires cfg.pipelineSlots > 0
      ensures Valid() && fresh(Repr) && table.View() == SlotLookup.Fresh(cfg, device)
    {
      hide Coherent;
      table := new SlotEngine.ModelBankSlots(cfg, device);
      buffers := null;
      new;
      SlotLookup.FreshCoherent(cfg, device);
      Repr := {this, table};
    }

    method Configure(wanted: Config)
      requires Valid() && wanted.pipelineSlots > 0
      modifies Repr
      ensures Valid() && fresh(Repr - old(Repr))
      ensures table.View() == SlotTable.Configure(old(table.View()), wanted)
    {
      hide Coherent, SlotTable.Configure, PipelineBuffers.Valid;
      ghost var t := table.View();
      ConfigureCoherent(t, wanted);
      ConfigureFrame(t, wanted);
      var same := wanted == table.cfg;
      table.Configure(wanted);
      if !same && buffers != null {
        buffers.ResetGraphs(Wanted(wanted));
        Repr := Repr + buffers.Repr;
      }
    }

    /** The pipeline is allocated for the table's shape, with new graphs. */
    method NewBuffers()
      requires {this, table} <= Repr && this !in TableParts() && table.pipeline.Some? && table.hidden > 0
      requires Wanted(table.cfg) > 0
      modifies this
      ensures Owned() && buffers != null && buffers.Valid() && BuffersFit(buffers.data, table.View())
      ensures fresh(Repr - old(Repr) - TableParts())
    {
      hide PipelineBuffers.Valid;
      buffers := new PipelineBuffers(table.pipeline.value.slots, table.pipeline.value.rows, Wanted(table.cfg),
        table.hidden);
      Repr := Repr + TableParts() + {buffers} + buffers.Repr;
    }

    /** ensure_resources: another shape means new buffers, another bank new graphs. */
    method EnsureResources(device: int, rows: nat, hidden: nat, dtype: int)
      requires Valid() && hidden > 0
      modifies Repr
      ensures Valid() && fresh(Repr - old(Repr)) && buffers != null
      ensures table.View() == SlotTable.EnsureResources(old(table.View()), device, rows, hidden, dtype)
    {
      hide Coherent, SlotTable.EnsureResources, PipelineBuffers.Valid;
      ghost var t := table.View();
      EnsureResourcesCoherent(t, device, rows, hidden, dtype);
      EnsureResourcesFrame(t, device, rows, hidden, dtype);
      var pipeline, bank := table.pipeline, table.bank;
      table.EnsureResources(device, rows, hidden, dtype);
      if table.pipeline != pipeline {
        NewBuffers();
      } else {
        Repr := Repr + TableParts();
        if table.bank != bank {
          buffers.ResetGraphs(Wanted(table.cfg));
          Repr := Repr + buffers.Repr;
        }
      }
    }

    /** assign_sampling_model_bank_slots, called by the sampler between steps. */
    method AssignForSampling(prompts: seq<int>) returns (r: Result<bool, Error>)
      requires Valid()
      modifies Repr
      ensures fresh(Repr - old(Repr)) && buffers == old(buffers)
      ensures (table.View(), r) == SlotTable.AssignForSampling(old(table.View()), prompts)
      ensures Valid()
    {
      hide Coherent, PipelineBuffers.Valid, SlotTable.AssignForSampling;
      AssignForSamplingCoherent(table.View(), prompts);
      AssignForSamplingFrame(table.View(), prompts);
      r := table.AssignForSampling(prompts);
      Repr := Repr + TableParts();
    }

    /** Slot k holds the batch in its first rows. */
    ghost predicate Loaded(k: nat, source: seq<Row>, target: seq<Row>)
      requires buffers != null && k < |buffers.data.slots|
      reads this, buffers, buffers.data, buffers.data.slots[k], buffers.data.slots[k].src, buffers.data.slots[k].tgt
    {
      var p := buffers.data.slots[k];
      && |source| == |target| <= p.src.Length == p.tgt.Length
      && p.src[..|source|] == source && p.tgt[..|target|] == target
    }

    method CopyIn(k: nat, source: seq<Row>, target: seq<Row>)
      requires Valid() && buffers != null && k < |buffers.data.slots| && |source| == |target| <= buffers.data.rows
      modifies Repr - TableParts() - {this}
      ensures Valid() && Repr == old(Repr) && Loaded(k, source, target)
      ensures table.View() == old(table.View()) && buffers == old(buffers)
    {
      hide Coherent;
      buffers.CopyIn(k, source, target);
    }

    lemma {:induction false} LoadedSlot(k: nat, source: seq<Row>, target: seq<Row>)
      requires Valid() && buffers != null && k < |buffers.data.slots| && Loaded(k, source, target)
      ensures var p := buffers.data.slots[k];
        && {p.src, p.tgt} <= buffers.data.Repr && p.src != p.tgt && p.src.Length == p.tgt.Length == buffers.data.rows
        && |source| <= buffers.data.rows && p.src[..][..|source|] == source && p.tgt[..][..|source|] == target
        && buffers.data in buffers.data.Repr
    {
      buffers.data.SelfOwned();
      buffers.data.SlotParts(k);
      var p := buffers.data.slots[k];
      assert p.src[..][..|source|] == p.src[..|source|] && p.tgt[..][..|source|] == p.tgt[..|source|];
    }

    /** The selection of _train_model_bank. */
    method SelectRows(prompts: seq<int>, ghost k: nat, ghost source: seq<Row>, ghost target: seq<Row>)
      returns (r: Result<(seq<int>, seq<nat>), Error>)
      requires Valid() && buffers != null && k < |buffers.data.slots| && Loaded(k, source, target)
      modifies TableParts()
      ensures Valid() && Repr == old(Repr) && buffers == old(buffers) && Loaded(k, source, target)
      ensures (table.View(), r) == TrainSelect(old(table.View()), prompts, |prompts|)
    {
      hide Coherent, PipelineBuffers.Valid, TrainSelect;
      ghost var t := table.View();
      HasHidden();
      LoadedSlot(k, source, target);
      TrainSelectCoherent(t, prompts, |prompts|);
      TrainSelectExactly(t, prompts, |prompts|);
      r := table.TrainSelect(prompts, |prompts|);
    }

    lemma {:induction false} HasHidden()
      requires Valid() && buffers != null
      ensures table.hidden > 0 && buffers.data.width == table.hidden && buffers.data.bank == Wanted(table.cfg)
    {
    }

    /** The training of _train_model_bank, on the selected rows of slot k. */
    method TrainSelected(k: nat, f: Forward, ghost source: seq<Row>, ghost target: seq<Row>, rows: seq<int>,
                         ids: seq<nat>, run: GraphRun)
      returns (t: Trained)
      requires Valid() && buffers != null && k < |buffers.data.slots| && Loaded(k, source, target)
      requires |rows| == |ids| <= |source| && forall j :: 0 <= j < |rows| ==> 0 <= rows[j] < |source|
      requires forall j :: 0 <= j < |ids| ==> ids[j] < Wanted(table.cfg)
      modifies Repr - TableParts()
      ensures Valid() && fresh(Repr - old(Repr)) && buffers == old(buffers) && table.View() == old(table.View())
      ensures table.hidden > 0 && t == BankTrained(f, rows, ids, source, target, Wanted(table.cfg), table.hidden)
    {
      hide Coherent, PipelineBuffers.Valid, BankEager, UniqueBelow;
      HasHidden();
      LoadedSlot(k, source, target);
      if rows == [] { return Trained(0.0, 0); }
      var p := buffers.data.slots[k];
      GatherPrefix(p.src[..], source, rows);
      GatherPrefix(p.tgt[..], target, rows);
      t := buffers.TrainBankRows(k, f, rows, ids, run);
      Repr := Repr + buffers.Repr;
    }

    /** _train_model_bank */
    method TrainModelBank(k: nat, f: Forward, ghost source: seq<Row>, ghost target: seq<Row>, prompts: seq<int>,
                          run: GraphRun)
      returns (r: Result<Trained, Error>)
      requires Valid() && buffers != null && k < |buffers.data.slots| && Loaded(k, source, target)
      requires |prompts| == |source| && UsingBank(table.View()) && table.bank.Some?
      modifies Repr
      ensures Valid() && fresh(Repr - old(Repr)) && buffers == old(buffers)
      ensures old(table.hidden) > 0 && (table.View(), r) == TrainRows(old(table.View()), f, source, target, prompts)
    {
      hide Valid, TrainSelect, BankTrained, Coherent, Loaded, FirstRows;
      ghost var t := table.View();
      HasHidden();
      ValidTable();
      TrainSelectExactly(t, prompts, |prompts|);
      var selected := SelectRows(prompts, k, source, target);
      if selected.Err? { return Err(selected.error); }
      SelectedInBank(t, prompts, |prompts|);
      var (rows, ids) := selected.value;
      var trained := TrainSelected(k, f, source, target, rows, ids, run);
      return Ok(trained);
    }

    /** _train_shared */
    method TrainSharedModel(k: nat, f: Forward, n: nat, ghost source: seq<Row>, ghost target: seq<Row>, run: GraphRun)
      returns (t: Trained)
      requires Valid() && buffers != null && k < |buffers.data.slots| && Loaded(k, source, target) && n == |source|
      modifies Repr - TableParts()
      ensures Valid() && fresh(Repr - old(Repr)) && buffers == old(buffers) && table.View() == old(table.View())
      ensures table.hidden > 0
      ensures t == if n == 0 then Trained(0.0, 0) else Trained(SharedEager(f, source, target, n, table.hidden), 1)
    {
      hide Coherent, PipelineBuffers.Valid, SharedEager;
      HasHidden();
      LoadedSlot(k, source, target);
      if n == 0 { return Trained(0.0, 0); }
      var p := buffers.data.slots[k];
      t := buffers.TrainSharedRows(p, f, n, run);
      Repr := Repr + buffers.Repr;
    }

    /** _train_slot */
    method TrainSlot(k: nat, f: Forward, ghost source: seq<Row>, ghost target: seq<Row>, prompts: seq<int>,
          run: GraphRun)
      returns (r: Result<Trained, Error>)
      requires Valid() && buffers != null && k < |buffers.data.slots| && Loaded(k, source, target)
      requires |prompts| == |source| && (UsingBank(table.View()) ==> table.bank.Some?)
      modifies Repr
      ensures Valid() && fresh(Repr - old(Repr)) && buffers == old(buffers)
      ensures old(table.hidden) > 0 && (table.View(), r) == TrainRows(old(table.View()), f, source, target, prompts)
    {
      hide Valid, TrainSelect, BankTrained, Coherent, FirstRows, SharedEager, GroupsLoss;
      HasHidden();
      ValidTable();
      if table.cfg.perRequest && table.cfg.perBank {
        r := TrainModelBank(k, f, source, target, prompts, run);
      } else if table.cfg.perRequest {
        LoadedSlot(k, source, target);
        var p := buffers.data.slots[k];
        r := TrainPerRequest(f, prompts, p.src[..|prompts|], p.tgt[..|prompts|], table.hidden);
      } else {
        var t := TrainSharedModel(k, f, |prompts|, source, target, run);
        r := Ok(t);
      }
    }

    lemma {:induction false} ValidTable()
      requires Valid()
      ensures Coherent(table.View()) && table in Repr && TableParts() <= Repr && (buffers != null ==> buffers in Repr)
      ensures (table.pipeline.Some? <==> buffers != null) && ShapeKept(table.View()) && table.cfg.pipelineSlots > 0
    {
    }
  }

  lemma {:induction false} GatherPrefix(all: seq<Row>, first: seq<Row>, ids: seq<int>)
    requires |first| <= |all| && all[..|first|] == first
    requires forall k :: 0 <= k < |ids| ==> 0 <= ids[k] < |first|
    ensures Gather(all, ids) == Gather(first, ids)
  {
  }
}
