/** The four ways sampling turns prompts into model-bank predictions, and whole runs of the table. */
module SlotLookup {
  import opened Common
  import opened Rows
  import opened SlotTable

  // ---- runs ------------------------------------------------------------------------

  datatype Call =
    | Sampling(prompts: seq<int>)
    | Training(prompts: seq<int>, active: nat)
    | ResetRuntime
    | Configuring(cfg: Config)
    | Ensuring(device: int, rows: nat, hidden: nat, dtype: int)
    | Looking(device: int)

  /** Training raises before touching the slots unless ensure_resources made the bank. */
  function Apply(t: Table, c: Call): Table {
    match c
    case Sampling(prompts) => AssignForSampling(t, prompts).0
    case Training(prompts, active) => if t.bank.None? then t else TrainSelect(t, prompts, active).0
    case ResetRuntime => ResetCache(t)
    case Configuring(cfg) => Configure(t, cfg)
    case Ensuring(device, rows, hidden, dtype) =>
      if hidden == 0 then t else EnsureResources(t, device, rows, hidden, dtype)
    case Looking(device) => Lookup(t, device).0
  }

  function Run(t: Table, calls: seq<Call>): Table
    decreases |calls|
  {
    if calls == [] then t else Run(Apply(t, calls[0]), calls[1..])
  }

  function Fresh(cfg: Config, device: int): Table {
    Table(cfg, device, 0, 0, None, None, EMPTY, {}, Cache(None, -1, None), None)
  }

  lemma {:induction false} ApplyCoherent(t: Table, c: Call)
    requires Coherent(t)
    ensures Coherent(Apply(t, c))
  {
    hide Bijection, DenseSound, CacheOk, AssignForSampling, TrainSelect, ResetCache, Configure, EnsureResources, Lookup;
    match c
    case Sampling(prompts) => AssignForSamplingCoherent(t, prompts);
    case Training(prompts, active) => if t.bank.Some? { TrainSelectCoherent(t, prompts, active); }
    case ResetRuntime => ResetCoherent(t);
    case Configuring(cfg) => ConfigureCoherent(t, cfg);
    case Ensuring(device, rows, hidden, dtype) =>
      if hidden > 0 { EnsureResourcesCoherent(t, device, rows, hidden, dtype); }
    case Looking(device) => LookupCoherent(t, device);
  }

  /** Over every run: the two maps stay inverse bijections onto [0, next), next stays within
      capacity, every assigned prompt has a statistics entry, every dense cell is -1 or right,
      and the sorted cache, whenever it is reusable, is the sorted map. */
  lemma {:induction false} RunCoherent(t: Table, calls: seq<Call>)
    requires Coherent(t)
    ensures Coherent(Run(t, calls))
    decreases |calls|
  {
    hide Coherent, Apply;
    if calls != [] {
      ApplyCoherent(t, calls[0]);
      RunCoherent(Apply(t, calls[0]), calls[1..]);
    }
  }

  lemma {:induction false} FreshCoherent(cfg: Config, device: int)
    ensures Coherent(Fresh(cfg, device))
  {
  }

  lemma {:induction false} FreshRunCoherent(cfg: Config, device: int, calls: seq<Call>)
    ensures Coherent(Run(Fresh(cfg, device), calls))
  {
    RunCoherent(Fresh(cfg, device), calls);
  }

  ghost predicate Keeps(m: map<int, nat>, m': map<int, nat>) {
    forall p :: p in m ==> p in m' && m'[p] == m[p]
  }

  /** An assignment never changes until a reset forgets them all. */
  lemma {:induction false} AssignmentsStable(t: Table, c: Call)
    requires Coherent(t)
    ensures Apply(t, c).slots == EMPTY || Keeps(t.slots.byPrompt, Apply(t, c).slots.byPrompt)
  {
    hide Bijection, DenseSound, CacheOk, Coherent, AssignAll, ResetCache;
    match c
    case Sampling(prompts) =>
      if UsingBank(t) {
        StorageCoherent(t);
        HiddenOfDense(t);
        if EnsureStorage(t).value.dense.Some? {
          HiddenOfDense(EnsureStorage(t).value);
          AssignAllCoherent(EnsureStorage(t).value, prompts, |prompts|);
        }
      }
    case Training(prompts, active) =>
      HiddenOfDense(t);
      if t.bank.Some? && active <= |prompts| { AssignAllCoherent(t, prompts, active); }
    case Ensuring(device, rows, hidden, dtype) => if hidden > 0 { EnsureKeepsOrResets(t, device, rows, hidden, dtype); }
    case Looking(device) => LookupCoherent(t, device);
    case Configuring(cfg) => ConfigureKeepsOrResets(t, cfg);
    case ResetRuntime => ResetFrame(t);
  }

  lemma {:induction false} HiddenOfDense(t: Table)
    requires Coherent(t)
    ensures t.dense.Some? || t.bank.Some? ==> t.hidden > 0
  {
  }

  lemma {:induction false} ConfigureKeepsOrResets(t: Table, cfg: Config)
    ensures Configure(t, cfg).slots == EMPTY || Configure(t, cfg).slots == t.slots
  {
  }

  lemma {:induction false} EnsureKeepsOrResets(t: Table, device: int, rows: nat, hidden: nat, dtype: int)
    requires hidden > 0
    ensures var t' := EnsureResources(t, device, rows, hidden, dtype); t'.slots == EMPTY || t'.slots == t.slots
  {
    hide LookupCapacity, Blank;
  }

  // ---- predictions -----------------------------------------------------------------

  /** A per-row forward pass of one bank slot. */
  type Forward = (int, Row) -> Row

  datatype Prediction = Prediction(rows: seq<int>, preds: seq<Row>)

  function Clamp(x: int, n: int): int { Min(Max(x, 0), Max(0, n - 1)) }

  /** valid_prompt & in_range & (gathered_slots >= 0) */
  function DenseMask(cells: seq<int>, prompts: seq<int>): seq<bool>
    requires |cells| > 0
  {
    seq(|prompts|, i requires 0 <= i < |prompts| =>
      prompts[i] >= 0 && prompts[i] < |cells| && cells[Clamp(prompts[i], |cells|)] >= 0)
  }

  function DensePath(cells: seq<int>, prompts: seq<int>, src: seq<Row>, f: Forward): Prediction
    requires |cells| > 0 && |prompts| == |src|
  {
    var rows := Nonzero(DenseMask(cells, prompts));
    Prediction(rows, seq(|rows|, k requires 0 <= k < |rows| =>
      f(cells[Clamp(prompts[rows[k]], |cells|)], src[rows[k]])))
  }

  /** assume_all_model_bank_slots_ready=True */
  function AssumeAllPath(cells: seq<int>, prompts: seq<int>, src: seq<Row>, f: Forward): Prediction
    requires |cells| > 0 && |prompts| == |src|
  {
    Prediction(Arange(|src|), seq(|src|, i requires 0 <= i < |src| =>
      f(Max(0, cells[Clamp(prompts[i], |cells|)]), src[i])))
  }

  function SearchMask(keys: seq<int>, prompts: seq<int>): seq<bool> {
    seq(|prompts|, i requires 0 <= i < |prompts| =>
      var pos := SearchSorted(keys, Max(prompts[i], 0));
      prompts[i] >= 0 && pos < |keys| && keys[pos] == Max(prompts[i], 0))
  }

  function SearchPath(keys: seq<int>, values: seq<int>, prompts: seq<int>, src: seq<Row>, f: Forward): Prediction
    requires |keys| == |values| && |prompts| == |src|
  {
    var rows := Nonzero(SearchMask(keys, prompts));
    Prediction(rows, seq(|rows|, k requires 0 <= k < |rows| =>
      f(values[SearchSorted(keys, Max(prompts[rows[k]], 0))], src[rows[k]])))
  }

  /** What every path is meant to return: the rows whose prompt m knows, through that slot. */
  ghost function Known(m: map<int, nat>, prompts: seq<int>): seq<bool> {
    seq(|prompts|, i requires 0 <= i < |prompts| => prompts[i] >= 0 && prompts[i] in m)
  }

  ghost function Meant(m: map<int, nat>, prompts: seq<int>, src: seq<Row>, f: Forward): Prediction
    requires |prompts| == |src|
  {
    var rows := Nonzero(Known(m, prompts));
    Prediction(rows, seq(|rows|, k requires 0 <= k < |rows| => f(m[prompts[rows[k]]], src[rows[k]])))
  }

  /** The sorted lookup answers for the whole map, whatever the batch. */
  lemma {:induction false} SearchPathMeaning(keys: seq<int>, values: seq<int>, m: map<int, nat>, prompts: seq<int>,
        src: seq<Row>, f: Forward)
    requires SortedImage(keys, values, m) && |prompts| == |src|
    ensures SearchPath(keys, values, prompts, src, f) == Meant(m, prompts, src, f)
  {
    forall i | 0 <= i < |prompts| && prompts[i] >= 0
      ensures prompts[i] in keys <==> prompts[i] in m
      ensures var pos := SearchSorted(keys, prompts[i]);
        (pos < |keys| && keys[pos] == prompts[i]) <==> prompts[i] in m
    {
      SearchSortedFinds(keys, prompts[i]);
    }
    assert SearchMask(keys, prompts) == Known(m, prompts);
  }

  ghost function Covered(cells: seq<int>, m: map<int, nat>): map<int, nat> {
    map p | p in m && 0 <= p < |cells| && cells[p] != -1 :: m[p]
  }

  /** The dense lookup answers for the part of the map it currently holds. */
  lemma {:induction false} DensePathMeaning(cells: seq<int>, m: map<int, nat>, prompts: seq<int>, src: seq<Row>,
        f: Forward)
    requires DenseSound(cells, m) && |cells| > 0 && |prompts| == |src|
    ensures DensePath(cells, prompts, src, f) == Meant(Covered(cells, m), prompts, src, f)
  {
    assert DenseMask(cells, prompts) == Known(Covered(cells, m), prompts);
  }

  ghost predicate AllReady(cells: seq<int>, prompts: seq<int>) {
    forall i :: 0 <= i < |prompts| ==> 0 <= prompts[i] < |cells| && cells[prompts[i]] >= 0
  }

  lemma {:induction false} DenseMaskAll(cells: seq<int>, prompts: seq<int>)
    requires |cells| > 0
    ensures Nonzero(DenseMask(cells, prompts)) == Arange(|prompts|) <==> AllReady(cells, prompts)
  {
    var mask := DenseMask(cells, prompts);
    NonzeroAll(mask);
    assert forall r :: 0 <= r < |mask| ==> (mask[r] <==> 0 <= prompts[r] < |cells| && cells[prompts[r]] >= 0);
  }

  /** The shortcut that assumes every slot is ready selects the filtered rows exactly when it is. */
  lemma {:induction false} AssumeAllExact(cells: seq<int>, prompts: seq<int>, src: seq<Row>, f: Forward)
    requires |cells| > 0 && |prompts| == |src|
    ensures AllReady(cells, prompts) ==> AssumeAllPath(cells, prompts, src, f) == DensePath(cells, prompts, src, f)
    ensures AssumeAllPath(cells, prompts, src, f).rows == DensePath(cells, prompts, src, f).rows <==>
      AllReady(cells, prompts)
  {
    DenseMaskAll(cells, prompts);
    var a, d := AssumeAllPath(cells, prompts, src, f), DensePath(cells, prompts, src, f);
    if AllReady(cells, prompts) {
      assert |d.rows| == |src|;
      forall k | 0 <= k < |src| ensures a.preds[k] == d.preds[k] {
        assert d.rows[k] == k;
        assert Max(0, cells[Clamp(prompts[k], |cells|)]) == cells[Clamp(prompts[k], |cells|)];
      }
      assert a.preds == d.preds;
    }
  }

  /** What the shortcut predicts where not every slot is ready: a missing prompt is looked up as prompt 0, one
      behind the table as the last one, and an empty cell stands for slot 0. */
  lemma {:induction false} AssumeAllMeaning(cells: seq<int>, prompts: seq<int>, src: seq<Row>, f: Forward, i: nat)
    requires |cells| > 0 && |prompts| == |src| && i < |src|
    ensures var p := AssumeAllPath(cells, prompts, src, f);
      var cell := if prompts[i] < 0 then cells[0]
                  else if prompts[i] < |cells| then cells[prompts[i]] else cells[|cells| - 1];
      && |p.rows| == |p.preds| == |src| && p.rows[i] == i
      && p.preds[i] == if cell < 0 then f(0, src[i]) else f(cell, src[i])
  {
    var at := cells[Clamp(prompts[i], |cells|)];
    assert AssumeAllPath(cells, prompts, src, f).preds[i] == f(Max(0, at), src[i]);
    assert Max(0, at) == if at < 0 then 0 else at;
  }

  // ---- captured predictions ----------------------------------------------------------

  datatype Backend = PreFilterDense | PostFilterExact | PostFilterDenseCache

  /** A row of logits; None is memory nobody wrote. */
  type DenseRow = Option<seq<real>>

  datatype CapturedRows = CapturedRows(p: Prediction, dense: Option<seq<DenseRow>>)

  /** The capture buffers of SamplerPrecomputeState, filled in place. */
  class Precompute {
    const predHidden: array<Row>
    const validMask: array<bool>
    var dense: array?<DenseRow>
    var captureStep: int
    var allRows: bool

    ghost predicate Valid()
      reads this
    {
      predHidden.Length == validMask.Length && (dense != null ==> dense.Length == predHidden.Length)
    }

    constructor (rows: nat)
      ensures Valid() && predHidden.Length == rows && captureStep == -1 && !allRows && dense == null
      ensures fresh(predHidden) && fresh(validMask)
    {
      predHidden, validMask, captureStep, allRows := new Row[rows](_ => []), new bool[rows](_ => false), -1, false;
      dense := null;
    }

    /** ensure_runtime_buffers: both dense backends get a buffer for dense logits. */
    method EnsureDense(backend: Backend)
      requires Valid()
      modifies this`dense
      ensures Valid() && (dense == old(dense) || fresh(dense))
      ensures if backend == PostFilterExact || old(dense) != null then dense == old(dense)
              else dense != null && fresh(dense) && forall i :: 0 <= i < dense.Length ==> dense[i] == None
    {
      if backend != PostFilterExact && dense == null { dense := new DenseRow[predHidden.Length](_ => None); }
    }

    /** reset_decode_step */
    method ResetDecodeStep()
      requires Valid()
      modifies this`captureStep, this`allRows, validMask
      ensures Valid() && captureStep == -1 && !allRows
      ensures forall i :: 0 <= i < validMask.Length ==> !validMask[i]
    {
      captureStep, allRows := -1, false;
      forall i | 0 <= i < validMask.Length { validMask[i] := false; }
    }

    /** predict_hidden_for_sampling_capture on the model bank: every row is predicted, the mask
        says which predictions mean something. */
    method Capture(cells: seq<int>, prompts: seq<int>, src: seq<Row>, f: Forward, step: int)
      requires Valid() && |cells| > 0 && |prompts| == |src| <= predHidden.Length
      modifies this`captureStep, predHidden, validMask
      ensures Valid() && captureStep == step
      ensures validMask[..|src|] == DenseMask(cells, prompts)
      ensures predHidden[..|src|] == AssumeAllPath(cells, prompts, src, f).preds
      ensures forall i :: |src| <= i < predHidden.Length ==>
        validMask[i] == old(validMask[i]) && predHidden[i] == old(predHidden[i])
    {
      for i := 0 to |src|
        invariant validMask[..i] == DenseMask(cells, prompts)[..i]
        invariant predHidden[..i] == AssumeAllPath(cells, prompts, src, f).preds[..i]
        invariant forall k :: i <= k < predHidden.Length ==>
          validMask[k] == old(validMask[k]) && predHidden[k] == old(predHidden[k])
      {
        var slot := cells[Clamp(prompts[i], |cells|)];
        predHidden[i] := f(Max(0, slot), src[i]);
        validMask[i] := prompts[i] >= 0 && prompts[i] < |cells| && slot >= 0;
      }
      captureStep := step;
    }

    /** _run_capture after the prediction: only one of the two dense backends writes its logits. */
    method CaptureDense(backend: Backend, project: Row -> seq<real>)
      requires Valid()
      modifies dense
      ensures Valid()
      ensures dense != null ==> forall i :: 0 <= i < dense.Length ==>
        dense[i] == if backend == PreFilterDense then Some(project(predHidden[i])) else old(dense[i])
    {
      if backend == PreFilterDense && dense != null {
        forall i | 0 <= i < dense.Length { dense[i] := Some(project(predHidden[i])); }
      }
    }

    /** captured_rows_for_step */
    method CapturedRowsForStep(step: int, count: int) returns (r: Option<CapturedRows>)
      requires Valid()
      ensures r.Some? <==> Captured(predHidden[..], validMask[..], captureStep, allRows, step, count).Some?
      ensures r.Some? ==> Captured(predHidden[..], validMask[..], captureStep, allRows, step, count) == Some(r.value.p)
      ensures r.Some? ==> (dense == null <==> r.value.dense.None?)
      ensures r.Some? && dense != null ==> InBuffer(r.value.p.rows, dense.Length)
      ensures r.Some? && dense != null ==> r.value.dense == Some(Gather(dense[..], r.value.p.rows))
    {
      if count <= 0 || captureStep != step || predHidden.Length < count { return None; }
      var rows := if allRows then Arange(count) else Nonzero(validMask[..count]);
      assert validMask[..][..count] == validMask[..count] && predHidden[..][..count] == predHidden[..count];
      if rows == [] { return None; }
      var preds := if allRows then predHidden[..count] else Gather(predHidden[..count], rows);
      r := Some(CapturedRows(Prediction(rows, preds), if dense == null then None else Some(Gather(dense[..], rows))));
    }
  }

  ghost predicate InBuffer(rows: seq<int>, n: nat) { forall k :: 0 <= k < |rows| ==> 0 <= rows[k] < n }

  function Captured(preds: seq<Row>, mask: seq<bool>, captureStep: int, allRows: bool, step: int,
        count: int): Option<Prediction>
    requires |preds| == |mask|
  {
    if count <= 0 || captureStep != step || |preds| < count then None
    else if allRows then Some(Prediction(Arange(count), preds[..count]))
    else
      var rows := Nonzero(mask[..count]);
      if rows == [] then None else Some(Prediction(rows, Gather(preds[..count], rows)))
  }

  /** What prepare_step hands to the backend: dense logits that are the predictions' projections, or none. */
  ghost predicate DenseIsProjection(c: CapturedRows, project: Row -> seq<real>) {
    c.dense.Some? ==> |c.dense.value| == |c.p.preds| && forall k :: 0 <= k < |c.p.preds| ==>
      c.dense.value[k] == Some(project(c.p.preds[k]))
  }

  lemma {:induction false} CapturedAt(preds: seq<Row>, mask: seq<bool>, allRows: bool, step: int, count: int, k: nat)
    requires |preds| == |mask| && Captured(preds, mask, step, allRows, step, count).Some?
    requires k < |Captured(preds, mask, step, allRows, step, count).value.rows|
    ensures var p := Captured(preds, mask, step, allRows, step, count).value;
      |p.preds| == |p.rows| && 0 <= p.rows[k] < |preds| && p.preds[k] == preds[p.rows[k]]
  {
  }

  /** One captured step on new buffers: the dense logits that come back are the projections of the captured
      predictions if and only if the backend is not the dense cache, which gets a buffer nobody wrote. */
  method CaptureStep(backend: Backend, allRows: bool, cells: seq<int>, prompts: seq<int>, src: seq<Row>, f: Forward,
                     project: Row -> seq<real>, step: int, count: int)
    returns (r: Option<CapturedRows>)
    requires |cells| > 0 && |prompts| == |src|
    ensures r.Some? ==> (DenseIsProjection(r.value, project) <==> backend != PostFilterDenseCache)
  {
    var pre := new Precompute(|src|);
    pre.EnsureDense(backend);
    pre.ResetDecodeStep();
    pre.allRows := allRows;
    pre.Capture(cells, prompts, src, f, step);
    pre.CaptureDense(backend, project);
    r := pre.CapturedRowsForStep(step, count);
    if r.Some? {
      var p := r.value.p;
      forall k: nat | k < |p.rows|
        ensures |p.preds| == |p.rows| && 0 <= p.rows[k] < |src| && p.preds[k] == pre.predHidden[p.rows[k]]
      {
        CapturedAt(pre.predHidden[..], pre.validMask[..], allRows, step, count, k);
      }
      assert |p.rows| > 0;
      if backend == PostFilterDenseCache { assert r.value.dense.value[0] == None; }
    }
  }

  /** With the all-rows flag the capture returns what the mask selects if and only if every active row has
      a filled dense cell. */
  lemma {:induction false} CaptureAllExactly(cells: seq<int>, prompts: seq<int>, src: seq<Row>, f: Forward, step: int,
        count: nat)
    requires |cells| > 0 && |prompts| == |src| && 0 < count <= |src|
    ensures var preds, mask := AssumeAllPath(cells, prompts, src, f).preds, DenseMask(cells, prompts);
      var flagged := Captured(preds, mask, step, true, step, count);
      var selected := Captured(preds, mask, step, false, step, count);
      flagged == selected <==> AllReady(cells, prompts[..count])
  {
    var preds, mask := AssumeAllPath(cells, prompts, src, f).preds, DenseMask(cells, prompts);
    assert mask[..count] == DenseMask(cells, prompts[..count]);
    DenseMaskAll(cells, prompts[..count]);
    if AllReady(cells, prompts[..count]) {
      assert Arange(count)[0] == 0;
      assert Gather(preds[..count], Arange(count)) == preds[..count];
    }
  }

  /** The flag is set after a pre-assignment that said yes: every row is then ready if and only if every row
      has a prompt. */
  lemma {:induction false} PreassignedReady(t: Table, prompts: seq<int>)
    requires Coherent(t) && UsingBank(t) && AssignForSampling(t, prompts).1 == Ok(true)
    ensures var t1 := AssignForSampling(t, prompts).0;
      t1.dense.Some? && (AllReady(t1.dense.value.cells, prompts) <==> forall i :: 0 <= i < |prompts| ==>
        prompts[i] >= 0)
  {
    hide AssignForSampling, Coherent;
    AssignForSamplingCoherent(t, prompts);
  }

  /** Captured predictions are served exactly to the step that captured them, for no more rows than there are,
      and when some row is selected: with the all-rows flag every active row, otherwise those with the mask set,
      in order, each with its own prediction. */
  lemma {:induction false} CapturedExactly(preds: seq<Row>, mask: seq<bool>, captureStep: int, allRows: bool,
                                           step: int, count: int)
    requires |preds| == |mask|
    ensures var r := Captured(preds, mask, captureStep, allRows, step, count);
      && (r.Some? <==>
            0 < count <= |preds| && captureStep == step && (allRows || exists i :: 0 <= i < count && mask[i]))
      && (r.Some? ==>
            && StrictlyIncreasing(r.value.rows) && |r.value.preds| == |r.value.rows|
            && (forall i :: i in r.value.rows <==> 0 <= i < count && (allRows || mask[i]))
            && forall k :: 0 <= k < |r.value.rows| ==>
                 0 <= r.value.rows[k] < |preds| && r.value.preds[k] == preds[r.value.rows[k]])
  {
    if 0 < count <= |preds| && captureStep == step {
      NonzeroMeaning(mask[..count]);
      hide Nonzero;
      var rows := Nonzero(mask[..count]);
      forall i ensures i in rows <==> 0 <= i < count && mask[i] {
        assert i in rows <==> 0 <= i < |mask[..count]| && mask[..count][i];
      }
      if rows != [] { assert rows[0] in rows; }
      forall i ensures i in Arange(count) <==> 0 <= i < count {
        if 0 <= i < count { assert Arange(count)[i] == i; }
      }
    }
  }

  /** Selecting from the captured buffers by mask is the filtered dense path on the active rows,
      even though the capture also ran on stale rows behind them. */
  lemma {:induction false} CaptureIsDensePath(cells: seq<int>, prompts: seq<int>, src: seq<Row>, f: Forward,
        step: int, count: nat)
    requires |cells| > 0 && |prompts| == |src| && 0 < count <= |src|
    ensures var preds, mask := AssumeAllPath(cells, prompts, src, f).preds, DenseMask(cells, prompts);
      var direct := DensePath(cells, prompts[..count], src[..count], f);
      Captured(preds, mask, step, false, step, count) == if direct.rows == [] then None else Some(direct)
  {
    var preds, mask := AssumeAllPath(cells, prompts, src, f).preds, DenseMask(cells, prompts);
    var direct := DensePath(cells, prompts[..count], src[..count], f);
    assert mask[..count] == DenseMask(cells, prompts[..count]);
    forall k | 0 <= k < |direct.rows| ensures Gather(preds[..count], direct.rows)[k] == direct.preds[k] {
      var p := prompts[direct.rows[k]];
      assert DenseMask(cells, prompts[..count])[direct.rows[k]];
      assert Max(0, cells[Clamp(p, |cells|)]) == cells[Clamp(p, |cells|)];
    }
    assert Gather(preds[..count], direct.rows) == direct.preds;
  }

  ghost predicate AllIn(m: map<int, nat>, prompts: seq<int>) { forall i :: 0 <= i < |prompts| ==> prompts[i] in m }

  /** The whole batch through its own slots. */
  ghost function Everyone(m: map<int, nat>, prompts: seq<int>, src: seq<Row>, f: Forward): Prediction
    requires |prompts| == |src| && AllIn(m, prompts)
  {
    Prediction(Arange(|src|), seq(|src|, i requires 0 <= i < |src| => f(m[prompts[i]], src[i])))
  }

  lemma {:induction false} ReadyCells(cells: seq<int>, m: map<int, nat>, prompts: seq<int>, src: seq<Row>, f: Forward,
        step: int)
    requires DenseSound(cells, m) && |cells| > 0 && |prompts| == |src| > 0 && AllReady(cells, prompts)
    ensures AllIn(m, prompts)
    ensures var want, all := Everyone(m, prompts, src, f), AssumeAllPath(cells, prompts, src, f);
      var mask := DenseMask(cells, prompts);
      && all == want && DensePath(cells, prompts, src, f) == want
      && Captured(all.preds, mask, step, true, step, |src|) == Some(want)
      && Captured(all.preds, mask, step, false, step, |src|) == Some(want)
  {
    var want, all := Everyone(m, prompts, src, f), AssumeAllPath(cells, prompts, src, f);
    forall i | 0 <= i < |src| ensures all.preds[i] == want.preds[i] {
      assert Clamp(prompts[i], |cells|) == prompts[i];
      assert Max(0, cells[prompts[i]]) == m[prompts[i]];
    }
    assert all.preds == want.preds;
    AssumeAllExact(cells, prompts, src, f);
    CaptureIsDensePath(cells, prompts, src, f, step, |src|);
    assert prompts[..|src|] == prompts && src[..|src|] == src && all.preds[..|src|] == all.preds;
    assert Arange(|src|)[0] == 0;
  }

  lemma {:induction false} KnownPrompts(keys: seq<int>, values: seq<int>, m: map<int, nat>, prompts: seq<int>,
        src: seq<Row>, f: Forward)
    requires SortedImage(keys, values, m) && |prompts| == |src|
    requires AllIn(m, prompts) && forall i :: 0 <= i < |prompts| ==> prompts[i] >= 0
    ensures SearchPath(keys, values, prompts, src, f) == Everyone(m, prompts, src, f)
  {
    SearchPathMeaning(keys, values, m, prompts, src, f);
    NonzeroAll(Known(m, prompts));
    assert Arange(|prompts|) == Arange(|src|);
    assert Meant(m, prompts, src, f).preds == Everyone(m, prompts, src, f).preds;
  }

  /** After a batch of non-negative prompts was assigned, every path returns every row through
      its own prompt's slot: dense, assume-all, captured with and without the all-rows flag, and,
      on a device that has no dense lookup, searchsorted. */
  lemma {:induction false} PathsAgree(t: Table, prompts: seq<int>, src: seq<Row>, f: Forward, step: int, elsewhere: int)
    requires Coherent(t) && UsingBank(t) && AssignForSampling(t, prompts).1 == Ok(true)
    requires |prompts| == |src| > 0 && forall i :: 0 <= i < |prompts| ==> prompts[i] >= 0
    requires elsewhere != t.device
    ensures var t1 := AssignForSampling(t, prompts).0;
      && AllIn(t1.slots.byPrompt, prompts)
      && Lookup(t1, t.device).1.Some? && Lookup(t1, t.device).1.value.0.Some?
        && |Lookup(t1, t.device).1.value.0.value| > 0
      && Lookup(t1, elsewhere).1.Some? && Lookup(t1, elsewhere).1.value.0.None?
      && |Lookup(t1, elsewhere).1.value.1| == |Lookup(t1, elsewhere).1.value.2|
      && Agree(t1.slots.byPrompt, Lookup(t1, t.device).1.value.0.value, Lookup(t1, elsewhere).1.value, prompts, src, f,
        step)
  {
    hide AssignForSampling, Coherent, Agree, SortedImage, AllReady;
    AssignForSamplingCoherent(t, prompts);
    var t1 := AssignForSampling(t, prompts).0;
    LookupCoherent(t1, t.device);
    LookupCoherent(t1, elsewhere);
    assert prompts[0] in t1.slots.byPrompt;
    var cells, away := t1.dense.value.cells, Lookup(t1, elsewhere).1.value;
    assert Lookup(t1, t.device).1.value.0 == Some(cells);
    AllReadyIntro(cells, t1.slots.byPrompt, prompts);
    SortedImageLengths(away.1, away.2, t1.slots.byPrompt);
    CoherentDense(t1);
    AgreeIntro(t1.slots.byPrompt, cells, away, prompts, src, f, step);
  }

  ghost predicate Agree(m: map<int, nat>, cells: seq<int>, away: (Option<seq<int>>, seq<int>, seq<int>),
                        prompts: seq<int>, src: seq<Row>, f: Forward, step: int)
    requires |prompts| == |src| && |cells| > 0 && |away.1| == |away.2| && AllIn(m, prompts)
  {
    var want, all := Everyone(m, prompts, src, f), AssumeAllPath(cells, prompts, src, f);
    var mask := DenseMask(cells, prompts);
    && DensePath(cells, prompts, src, f) == want
    && all == want
    && Captured(all.preds, mask, step, true, step, |src|) == Some(want)
    && Captured(all.preds, mask, step, false, step, |src|) == Some(want)
    && SearchPath(away.1, away.2, prompts, src, f) == want
  }

  lemma {:induction false} AgreeIntro(m: map<int, nat>, cells: seq<int>, away: (Option<seq<int>>, seq<int>, seq<int>),
                   prompts: seq<int>, src: seq<Row>, f: Forward, step: int)
    requires |prompts| == |src| > 0 && |cells| > 0 && AllIn(m, prompts)
    requires forall i :: 0 <= i < |prompts| ==> prompts[i] >= 0
    requires DenseSound(cells, m) && AllReady(cells, prompts) && SortedImage(away.1, away.2, m)
    ensures Agree(m, cells, away, prompts, src, f, step)
  {
    ReadyCells(cells, m, prompts, src, f, step);
    KnownPrompts(away.1, away.2, m, prompts, src, f);
  }

  lemma {:induction false} CoherentDense(t: Table)
    requires Coherent(t) && t.dense.Some?
    ensures DenseSound(t.dense.value.cells, t.slots.byPrompt)
  {
  }

  lemma {:induction false} AllReadyIntro(cells: seq<int>, m: map<int, nat>, prompts: seq<int>)
    requires forall i :: 0 <= i < |prompts| ==>
      prompts[i] in m && 0 <= prompts[i] < |cells| && cells[prompts[i]] == m[prompts[i]]
    ensures AllReady(cells, prompts)
  {
  }

  lemma {:induction false} SortedImageLengths(keys: seq<int>, values: seq<int>, m: map<int, nat>)
    requires SortedImage(keys, values, m)
    ensures |keys| == |values|
  {
  }
}
