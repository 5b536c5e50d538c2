/** From packed layer output to delivered rows: localization, the capture taps, and the entry a flow
    reads. */
module RowDelivery {
  import opened Common
  import opened RowViews
  import CapturePlan
  import Rows

  // ---- localization --------------------------------------------------------------------

  /** What one step's input preparation hands over: a tuple or not, and logits indices or none. */
  datatype StepInputs = StepInputs(isTuple: bool, reqs: seq<string>, isDecode: seq<bool>, logits: Option<seq<int>>,
                                   tokens: int, resolve: string -> (int, int), onHost: bool)

  datatype Located = Located(rowIdx: seq<int>, prompts: seq<int>, samples: seq<int>, positions: seq<int>)

  const NOWHERE := Located([], [], [], [])

  /** Positions of decode requests that have a logits index. */
  function DecodePositions(x: StepInputs, n: nat): (pos: seq<int>)
    ensures forall k :: 0 <= k < |pos| ==>
      0 <= pos[k] < n && pos[k] < |x.reqs| && pos[k] < |x.isDecode| && x.isDecode[pos[k]]
  {
    Rows.Nonzero(seq(|x.isDecode|, i requires 0 <= i < |x.isDecode| => x.isDecode[i] && i < n && i < |x.reqs|))
  }

  predicate InRange(ids: seq<int>, n: int) { forall k :: 0 <= k < |ids| ==> 0 <= ids[k] < n }

  /** compute_decode_localization without a row cap */
  function Localize(x: StepInputs): (r: Result<Located, string>)
    ensures r.Ok? ==> |r.value.prompts| == |r.value.samples| == |r.value.rowIdx| == |r.value.positions|
    ensures r.Ok? ==> InRange(r.value.positions, |x.reqs|)
  {
    if x.tokens <= 0 || x.logits.None? || x.logits.value == [] then Ok(NOWHERE)
    else
      var pos := DecodePositions(x, |x.logits.value|);
      var rowIdx := Gather(x.logits.value, pos);
      if pos == [] then Ok(NOWHERE)
      else if x.onHost && !InRange(rowIdx, x.tokens) then Err("logits_indices out of range in prepare_inputs")
      else Ok(Located(rowIdx, Prompts(x, pos), Samples(x, pos), pos))
  }

  function Prompts(x: StepInputs, pos: seq<int>): seq<int>
    requires InRange(pos, |x.reqs|)
  {
    seq(|pos|, k requires 0 <= k < |pos| => x.resolve(x.reqs[pos[k]]).0)
  }

  function Samples(x: StepInputs, pos: seq<int>): seq<int>
    requires InRange(pos, |x.reqs|)
  {
    seq(|pos|, k requires 0 <= k < |pos| => x.resolve(x.reqs[pos[k]]).1)
  }

  /** A contiguous run of positions is narrowed instead of gathered. */
  method SelectRowIdx(logits: seq<int>, pos: seq<int>) returns (rowIdx: seq<int>)
    requires |pos| > 0 && InRange(pos, |logits|)
    ensures rowIdx == Gather(logits, pos)
  {
    if pos == seq(|pos|, k => pos[0] + k) {
      assert pos[|pos| - 1] == pos[0] + |pos| - 1;
      rowIdx := logits[pos[0]..pos[0] + |pos|];
    } else {
      rowIdx := Gather(logits, pos);
    }
  }

  /** The range check by minimum and maximum. */
  method OutOfRange(rowIdx: seq<int>, tokens: int) returns (bad: bool)
    requires |rowIdx| > 0
    ensures bad <==> !InRange(rowIdx, tokens)
  {
    var lowest, highest := rowIdx[0], rowIdx[0];
    for k := 0 to |rowIdx|
      invariant lowest in rowIdx && highest in rowIdx
      invariant forall i :: 0 <= i < k ==> lowest <= rowIdx[i] <= highest
    {
      lowest, highest := Min(lowest, rowIdx[k]), Max(highest, rowIdx[k]);
    }
    bad := lowest < 0 || highest >= tokens;
  }

  method ResolveRows(x: StepInputs, pos: seq<int>) returns (prompts: seq<int>, samples: seq<int>)
    requires InRange(pos, |x.reqs|)
    ensures prompts == Prompts(x, pos) && samples == Samples(x, pos)
  {
    prompts, samples := [], [];
    for k := 0 to |pos|
      invariant prompts == Prompts(x, pos)[..k] && samples == Samples(x, pos)[..k]
    {
      var resolved := x.resolve(x.reqs[pos[k]]);
      prompts, samples := prompts + [resolved.0], samples + [resolved.1];
    }
  }

  method ComputeDecodeLocalization(x: StepInputs) returns (r: Result<Located, string>)
    ensures r == Localize(x)
  {
    if x.tokens <= 0 || x.logits.None? || x.logits.value == [] { return Ok(NOWHERE); }
    var pos := DecodePositions(x, |x.logits.value|);
    if pos == [] { return Ok(NOWHERE); }
    var rowIdx := SelectRowIdx(x.logits.value, pos);
    if x.onHost {
      var bad := OutOfRange(rowIdx, x.tokens);
      if bad { return Err("logits_indices out of range in prepare_inputs"); }
    }
    var prompts, samples := ResolveRows(x, pos);
    r := Ok(Located(rowIdx, prompts, samples, pos));
  }

  /** More decode rows than scratch rows, or more first rows than an existing compact lane holds. */
  predicate Overflows(at: Located, rows: nat, compactRows: nat) {
    |at.rowIdx| > rows || (compactRows > 0 && |Rows.FirstRows(at.prompts, |at.prompts|)| > compactRows)
  }

  // ---- the runtime's step record ---------------------------------------------------------------

  /** What the runtime keeps about decode rows from one step to the next: the scratch indices, stale
      behind the active rows, the compact lane's indices, and whose rows the active ones are. */
  datatype Record = Record(scratch: seq<int>, lane: seq<int>, requests: seq<string>, prompts: seq<int>,
                           samples: seq<int>, compactIds: seq<int>)

  /** Lengths agree, and no more rows are active than there is room for. */
  predicate Fitting(rec: Record) {
    |rec.requests| == |rec.prompts| == |rec.samples| <= |rec.scratch| && |rec.compactIds| <= |rec.lane|
  }

  function Cleared(rec: Record): Record { rec.(requests := [], prompts := [], samples := [], compactIds := []) }

  /** Input preparation raises: an index out of range, or more rows than the buffers hold. */
  predicate Unprepared(rec: Record, x: StepInputs) {
    x.isTuple && x.logits.Some? && (Localize(x).Err? || Overflows(Localize(x).value, |rec.scratch|, |rec.lane|))
  }

  /** The record after a step's input preparation, whether it raises or not.  Without logits indices
      it is still the last step's. */
  function NextRecord(rec: Record, x: StepInputs): (next: Record)
    requires Fitting(rec)
    ensures Fitting(next) && |next.scratch| == |rec.scratch| && |next.lane| == |rec.lane|
  {
    if !x.isTuple then Cleared(rec)
    else if x.logits.None? || Localize(x).Err? then rec
    else
      var at := Localize(x).value;
      var k := |at.rowIdx|;
      if k == 0 then Cleared(rec)
      else if k > |rec.scratch| then rec
      else
        var named := rec.(scratch := at.rowIdx + rec.scratch[k..], requests := Gather(x.reqs, at.positions),
                          prompts := at.prompts, samples := at.samples);
        var ids := Rows.FirstRows(at.prompts, |at.prompts|);
        if |rec.lane| == 0 || |ids| > |rec.lane| then named
        else named.(lane := Gather(at.rowIdx, ids) + rec.lane[|ids|..], compactIds := ids)
  }

  class Localization {
    const rowIdx: array<int>
    /** Empty when there is no compact lane. */
    const compactIdx: array<int>
    var count: nat
    var requests: seq<string>
    var prompts: seq<int>
    var samples: seq<int>
    var compactCount: nat
    var compactIds: seq<int>

    ghost function View(): Record
      reads this, rowIdx, compactIdx
    {
      Record(rowIdx[..], compactIdx[..], requests, prompts, samples, compactIds)
    }

    ghost predicate Valid()
      reads this, rowIdx, compactIdx
    {
      rowIdx != compactIdx && Fitting(View()) && count == |requests| && compactCount == |compactIds|
    }

    constructor (rows: nat, compactRows: nat)
      ensures Valid() && fresh(rowIdx) && fresh(compactIdx)
      ensures View() == Start(rows, compactRows)
    {
      rowIdx := new int[rows](_ => 0);
      compactIdx := new int[compactRows](_ => 0);
      count, requests, prompts, samples, compactCount, compactIds := 0, [], [], [], 0, [];
      new;
      assert rowIdx[..] == seq(rows, _ => 0) && compactIdx[..] == seq(compactRows, _ => 0);
    }

    method Clear()
      requires Valid()
      modifies this
      ensures Valid() && View() == Cleared(old(View()))
    {
      count, requests, prompts, samples, compactCount, compactIds := 0, [], [], [], 0, [];
    }

    /** The active rows and whose they are. */
    method SetRows(x: StepInputs, at: Located)
      requires Valid() && Localize(x) == Ok(at) && 0 < |at.rowIdx| <= rowIdx.Length
      modifies this, rowIdx
      ensures Valid() && View() == old(View()).(scratch := at.rowIdx + old(View()).scratch[|at.rowIdx|..],
        requests := Gather(x.reqs, at.positions), prompts := at.prompts, samples := at.samples)
    {
      hide Rows.Nonzero;
      ghost var was := rowIdx[..];
      CopyPrefix(rowIdx, at.rowIdx);
      assert rowIdx[..] == at.rowIdx + was[|at.rowIdx|..];
      count, prompts, samples, requests := |at.rowIdx|, at.prompts, at.samples, Gather(x.reqs, at.positions);
    }

    /** The compact lane's indices. */
    method SetLane(at: Located, ids: seq<int>)
      requires Valid() && |ids| <= compactIdx.Length && InRange(ids, |at.rowIdx|)
      modifies this, compactIdx
      ensures Valid()
      ensures View() == old(View()).(lane := Gather(at.rowIdx, ids) + old(View()).lane[|ids|..], compactIds := ids)
    {
      ghost var was := compactIdx[..];
      if |ids| > 0 {
        var picked := PickRows(at.rowIdx, ids);
        CopyPrefix(compactIdx, picked);
      }
      assert compactIdx[..] == Gather(at.rowIdx, ids) + was[|ids|..];
      compactCount, compactIds := |ids|, ids;
    }

    /** prepare_decode_localization */
    method Prepare(x: StepInputs) returns (raised: Option<string>)
      requires Valid() && x.isTuple
      modifies this, rowIdx, compactIdx
      ensures Valid() && View() == NextRecord(old(View()), x)
      ensures raised.Some? <==> Unprepared(old(View()), x)
    {
      hide Rows.FirstRows, Rows.Nonzero;
      if x.logits.None? { return None; }
      var found := ComputeDecodeLocalization(x);
      if found.Err? { return Some(found.error); }
      var at := found.value;
      var k := |at.rowIdx|;
      if k == 0 {
        NoRowsFit();
        Clear();
        return None;
      }
      if k > rowIdx.Length { return Some("decode rows exceed configured scratch rows"); }
      SetRows(x, at);
      if compactIdx.Length > 0 {
        var ids := Rows.ScanFirstRows(at.prompts, k);
        if |ids| > compactIdx.Length { return Some("compact decode rows exceed configured compact scratch rows"); }
        SetLane(at, ids);
      }
      return None;
    }

    /** wrapped_prepare_inputs: an output that is no tuple clears the record. */
    method PrepareInputs(x: StepInputs) returns (raised: Option<string>)
      requires Valid()
      modifies this, rowIdx, compactIdx
      ensures Valid() && View() == NextRecord(old(View()), x)
      ensures raised.Some? <==> Unprepared(old(View()), x)
    {
      hide Localize;
      if !x.isTuple {
        Clear();
        return None;
      }
      raised := Prepare(x);
    }
  }

  lemma {:induction false} NoRowsFit()
    ensures Rows.FirstRows([], 0) == []
  {
  }

  function Start(rows: nat, compactRows: nat): (rec: Record)
    ensures Fitting(rec) && |rec.scratch| == rows && |rec.lane| == compactRows
  {
    Record(seq(rows, _ => 0), seq(compactRows, _ => 0), [], [], [], [])
  }

  /** buffer[:n].copy_(values) */
  method CopyPrefix(buffer: array<int>, values: seq<int>)
    requires |values| <= buffer.Length
    modifies buffer
    ensures buffer[..|values|] == values
    ensures forall i :: |values| <= i < buffer.Length ==> buffer[i] == old(buffer[i])
  {
    for k := 0 to |values|
      invariant buffer[..k] == values[..k]
      invariant forall i :: k <= i < buffer.Length ==> buffer[i] == old(buffer[i])
    {
      buffer[k] := values[k];
    }
  }

  /** The rows of a tensor named by ids: through a strided view when they are evenly spaced, by
      index_select otherwise. */
  method PickRows<T>(rows: seq<T>, ids: seq<int>) returns (out: seq<T>)
    requires InRange(ids, |rows|)
    ensures out == Gather(rows, ids)
  {
    var whole := View(0, |rows|, 1, 1, 0);
    var view := RegularView(whole, ids);
    if view.None? { return Gather(rows, ids); }
    forall k | 0 <= k < |ids|
      ensures Address(view.value, k, 0) == ids[k]
    {
      assert Address(whole, ids[k], 0) == ids[k];
    }
    out := seq(|ids|, k requires 0 <= k < |ids| => rows[Address(view.value, k, 0)]);
  }

  // ---- capture -------------------------------------------------------------------------

  /** The buffers of one tapped layer; None is memory nobody wrote. */
  class Tap {
    const full: array<Option<Row>>
    /** Empty when there is no compact lane. */
    const compact: array<Option<Row>>

    constructor (rows: nat, compactRows: nat)
      ensures fresh(full) && fresh(compact) && full != compact && full.Length == rows && compact.Length == compactRows
      ensures forall i :: 0 <= i < rows ==> full[i] == None
      ensures forall i :: 0 <= i < compactRows ==> compact[i] == None
    {
      full := new Option<Row>[rows](_ => None);
      compact := new Option<Row>[compactRows](_ => None);
    }

    /** The layer's forward with its tap. The full gather reads every scratch index, stale ones
        included, so it fails exactly when one of them is outside this step's tensor. */
    method Forward(tensor: seq<Row>, loc: Localization, captureFull: bool) returns (ok: bool)
      requires full != compact && full.Length == loc.rowIdx.Length && compact.Length == loc.compactIdx.Length
      requires loc.compactCount <= loc.compactIdx.Length
      modifies full, compact
      ensures ok <==>
        (captureFull ==> InRange(loc.rowIdx[..], |tensor|)) && InRange(loc.compactIdx[..loc.compactCount], |tensor|)
      ensures ok && captureFull ==> forall i :: 0 <= i < full.Length ==> full[i] == Some(tensor[loc.rowIdx[i]])
      ensures !captureFull ==> full[..] == old(full[..])
      ensures ok ==> forall i :: 0 <= i < loc.compactCount ==> compact[i] == Some(tensor[loc.compactIdx[i]])
    {
      ok := true;
      if captureFull { ok := GatherInto(full, tensor, loc.rowIdx[..]); }
      if !ok { return; }
      if loc.compactCount > 0 { ok := GatherInto(compact, tensor, loc.compactIdx[..loc.compactCount]); }
    }
  }

  /** torch.index_select(tensor, 0, ids, out=buffer[:n]) */
  method GatherInto(buffer: array<Option<Row>>, tensor: seq<Row>, ids: seq<int>) returns (ok: bool)
    requires |ids| <= buffer.Length
    modifies buffer
    ensures ok <==> InRange(ids, |tensor|)
    ensures ok ==> forall i :: 0 <= i < |ids| ==> buffer[i] == Some(tensor[ids[i]])
  {
    for k := 0 to |ids|
      invariant InRange(ids[..k], |tensor|)
      invariant forall i :: 0 <= i < k ==> 0 <= ids[i] < |tensor| && buffer[i] == Some(tensor[ids[i]])
    {
      if !(0 <= ids[k] < |tensor|) { return false; }
      buffer[k] := Some(tensor[ids[k]]);
    }
    ok := true;
  }

  // ---- delivery ----------------------------------------------------------------------------

  datatype Meta = Meta(request: string, prompt: int, sample: int)

  /** Direct: a step bundle. Framed: no step bundle was built, and the flow got the frames of all rows. */
  datatype Delivery =
    | Silent
    | Failed(why: string)
    | Direct(rowIds: seq<int>, rows: seq<Option<Row>>, meta: seq<Meta>)
    | Framed(rows: seq<Option<Row>>, meta: seq<Meta>)

  function MetaOf(rec: Record, ids: seq<int>): (meta: seq<Meta>)
    requires |rec.requests| == |rec.prompts| == |rec.samples| && InRange(ids, |rec.prompts|)
    ensures |meta| == |ids|
  {
    seq(|ids|, j requires 0 <= j < |ids| => Meta(rec.requests[ids[j]], rec.prompts[ids[j]], rec.samples[ids[j]]))
  }

  /** A tap's gather; None where it did not run. */
  function Captured(tensor: seq<Row>, ids: seq<int>, ran: bool): (rows: seq<Option<Row>>)
    requires ran ==> InRange(ids, |tensor|)
    ensures |rows| == |ids|
  {
    seq(|ids|, i requires 0 <= i < |ids| => if ran then Some(tensor[ids[i]]) else None)
  }

  /** The rows a flow asks for. */
  function RowIds(rec: Record, firstPerPrompt: bool): (ids: seq<int>)
    requires Fitting(rec)
    ensures InRange(ids, |rec.prompts|)
  {
    if firstPerPrompt then Rows.FirstRows(rec.prompts, |rec.prompts|) else Arange(|rec.prompts|)
  }

  /** A scratch index the taps read, stale or not, is outside this step's tensor. */
  predicate Unreadable(rec: Record, tensor: seq<Row>, captureFull: bool)
    requires Fitting(rec)
  {
    (captureFull && !InRange(rec.scratch, |tensor|)) || !InRange(rec.lane[..|rec.compactIds|], |tensor|)
  }

  /** The compact lane holds the rows the flow asks for. */
  predicate InLane(rec: Record, ids: seq<int>) { rec.compactIds == ids && ids != [] }

  /** What a step-scope flow gets once the taps ran. */
  function Deliver(rec: Record, tensor: seq<Row>, captureFull: bool, firstPerPrompt: bool, cap: int): Delivery
    requires Fitting(rec) && !Unreadable(rec, tensor, captureFull)
  {
    var n, ids, full := |rec.requests|, RowIds(rec, firstPerPrompt), Captured(tensor, rec.scratch, captureFull);
    if n == 0 then Silent
    else if firstPerPrompt && ids == [] then Framed(full[..n], MetaOf(rec, Arange(n)))
    else if 0 < cap < |ids| then Failed("flow row cap exceeded")
    else if firstPerPrompt && InLane(rec, ids) then
      Direct(ids, Captured(tensor, rec.lane[..|ids|], true), MetaOf(rec, ids))
    else Direct(ids, Gather(full, ids), MetaOf(rec, ids))
  }

  /** The buffers after the taps ran on this step's tensor. */
  ghost predicate Holds(rec: Record, tap: Tap, tensor: seq<Row>, captureFull: bool)
    requires Fitting(rec) && !Unreadable(rec, tensor, captureFull)
    reads tap.full, tap.compact
  {
    && tap.compact.Length == |rec.lane| && tap.full[..] == Captured(tensor, rec.scratch, captureFull)
    && tap.compact[..|rec.compactIds|] == Captured(tensor, rec.lane[..|rec.compactIds|], true)
  }

  /** _entry_for_flow_read of a bound residual read: compact lane, prefix, strided view or gather. */
  method EntryRows(loc: Localization, tap: Tap, rowIds: Option<seq<int>>, active: nat) returns (out: seq<Option<Row>>)
    requires loc.Valid() && active <= tap.full.Length && tap.compact.Length == loc.compactIdx.Length
    requires rowIds.Some? ==> |rowIds.value| == active && InRange(rowIds.value, tap.full.Length)
    ensures rowIds.None? ==> out == tap.full[..active]
    ensures rowIds.Some? && InLane(loc.View(), rowIds.value) ==> out == tap.compact[..active]
    ensures rowIds.Some? && !InLane(loc.View(), rowIds.value) ==> out == Gather(tap.full[..], rowIds.value)
  {
    if rowIds.None? { return tap.full[..active]; }
    var ids := rowIds.value;
    if ids == [] { return []; }
    if loc.compactCount == active && loc.compactIds == ids && 0 < tap.compact.Length && active <= tap.compact.Length {
      return tap.compact[..active];
    }
    if ids == Arange(|ids|) {
      out := tap.full[..|ids|];
      forall k | 0 <= k < |ids| ensures out[k] == tap.full[ids[k]] { assert ids[k] == Arange(|ids|)[k]; }
      return;
    }
    out := PickRows(tap.full[..], ids);
  }

  /** One step-scope flow: the direct bundle, or every row's frames when no row has a prompt. */
  method DeliverFlow(loc: Localization, tap: Tap, ghost tensor: seq<Row>, ghost captureFull: bool, firstPerPrompt: bool,
                     cap: int) returns (r: Delivery)
    requires loc.Valid() && tap.full.Length == loc.rowIdx.Length && tap.compact.Length == loc.compactIdx.Length
    requires !Unreadable(loc.View(), tensor, captureFull) && Holds(loc.View(), tap, tensor, captureFull)
    ensures r == Deliver(loc.View(), tensor, captureFull, firstPerPrompt, cap)
  {
    hide Rows.FirstRows;
    ghost var rec := loc.View();
    var active := loc.count;
    if active == 0 { return Silent; }
    var all := Record([], [], loc.requests, loc.prompts, loc.samples, []);
    var ids := Arange(active);
    if firstPerPrompt {
      ids := Rows.ScanFirstRows(loc.prompts, active);
      if ids == [] { return Framed(tap.full[..active], MetaOf(all, Arange(active))); }
    }
    if 0 < cap < |ids| { return Failed("flow row cap exceeded"); }
    Rows.FirstRowsFit(loc.prompts, active);
    var rows := EntryRows(loc, tap, if firstPerPrompt then Some(ids) else None, |ids|);
    if !firstPerPrompt { assert rows == Gather(tap.full[..], ids); }
    assert firstPerPrompt && InLane(rec, ids) ==> rows == Captured(tensor, rec.lane[..|ids|], true);
    r := Direct(ids, rows, MetaOf(all, ids));
  }

  datatype EngineStep = EngineStep(inputs: StepInputs, tensor: seq<Row>)

  /** Preparation raises, a tap's gather fails, or the flow's row cap is exceeded. */
  predicate StepFails(rec: Record, e: EngineStep, captureFull: bool, firstPerPrompt: bool, cap: int)
    requires Fitting(rec)
  {
    var now := NextRecord(rec, e.inputs);
    || Unprepared(rec, e.inputs) || Unreadable(now, e.tensor, captureFull)
    || 0 < cap < |RowIds(now, firstPerPrompt)|
  }

  /** What a step delivers, from the record the steps before it left. */
  ghost predicate Delivered(rec: Record, e: EngineStep, captureFull: bool, firstPerPrompt: bool, cap: int, d: Delivery)
    requires Fitting(rec)
  {
    && (d.Failed? <==> StepFails(rec, e, captureFull, firstPerPrompt, cap))
    && (!d.Failed? ==> d == Deliver(NextRecord(rec, e.inputs), e.tensor, captureFull, firstPerPrompt, cap))
  }

  /** Prepare, one tapped layer's forward, deliver. */
  method DeliverStep(loc: Localization, tap: Tap, e: EngineStep, captureFull: bool, firstPerPrompt: bool, cap: int)
    returns (r: Delivery)
    requires loc.Valid() && tap.full != tap.compact
    requires tap.full.Length == loc.rowIdx.Length && tap.compact.Length == loc.compactIdx.Length
    requires !captureFull ==> forall i :: 0 <= i < tap.full.Length ==> tap.full[i] == None
    modifies loc, loc.rowIdx, loc.compactIdx, tap.full, tap.compact
    ensures loc.Valid() && loc.View() == NextRecord(old(loc.View()), e.inputs)
    ensures !captureFull ==> tap.full[..] == old(tap.full[..])
    ensures Delivered(old(loc.View()), e, captureFull, firstPerPrompt, cap, r)
  {
    hide Localize, Rows.FirstRows, NextRecord, Deliver;
    ghost var rec := loc.View();
    var raised := loc.PrepareInputs(e.inputs);
    if raised.Some? { return Failed(raised.value); }
    ghost var now := loc.View();
    var ok := tap.Forward(e.tensor, loc, captureFull);
    assert ok <==> !Unreadable(now, e.tensor, captureFull);
    if !ok { return Failed("index out of range"); }
    assert tap.full[..] == Captured(e.tensor, now.scratch, captureFull);
    assert tap.compact[..|now.compactIds|] == Captured(e.tensor, now.lane[..|now.compactIds|], true);
    r := DeliverFlow(loc, tap, e.tensor, captureFull, firstPerPrompt, cap);
    DeliverFails(now, e.tensor, captureFull, firstPerPrompt, cap);
  }

  lemma {:induction false} DeliverFails(rec: Record, tensor: seq<Row>, captureFull: bool, firstPerPrompt: bool,
        cap: int)
    requires Fitting(rec) && !Unreadable(rec, tensor, captureFull)
    ensures Deliver(rec, tensor, captureFull, firstPerPrompt, cap).Failed? <==> 0 < cap < |RowIds(rec, firstPerPrompt)|
  {
  }

  // ---- whose rows are delivered --------------------------------------------------------------

  /** The row is this step's output row behind the logits index of the request at pos, which the
      metadata names. */
  ghost predicate RowIs(x: StepInputs, pos: int, tensor: seq<Row>, row: Option<Row>, meta: Meta) {
    && x.logits.Some? && 0 <= pos < |x.reqs| && pos < |x.logits.value|
    && 0 <= x.logits.value[pos] < |tensor| && row == Some(tensor[x.logits.value[pos]])
    && meta == Meta(x.reqs[pos], x.resolve(x.reqs[pos]).0, x.resolve(x.reqs[pos]).1)
  }

  ghost predicate OwnRow(e: EngineStep, row: Option<Row>, meta: Meta) {
    exists pos :: RowIs(e.inputs, pos, e.tensor, row, meta)
  }

  function RowsOf(d: Delivery): seq<Option<Row>> {
    match d case Direct(_, rows, _) => rows case Framed(rows, _) => rows case _ => []
  }

  function MetaIn(d: Delivery): seq<Meta> {
    match d case Direct(_, _, meta) => meta case Framed(_, meta) => meta case _ => []
  }

  /** Every delivered row is this step's row of the request that its metadata names. */
  ghost predicate OwnRows(e: EngineStep, d: Delivery) {
    |RowsOf(d)| == |MetaIn(d)| && forall j :: 0 <= j < |RowsOf(d)| ==> OwnRow(e, RowsOf(d)[j], MetaIn(d)[j])
  }

  /** There are decode rows, and none of them belongs to a known prompt. */
  predicate NobodyPrompted(at: Located) { at.rowIdx != [] && forall i :: 0 <= i < |at.prompts| ==> at.prompts[i] < 0 }

  /** The step leaves the last step's record in place, and that record names requests. */
  predicate StaleRecord(rec: Record, x: StepInputs) { x.isTuple && x.logits.None? && rec.requests != [] }

  /** The full gather is skipped, and a compacted flow has decode rows but no prompts. */
  predicate NobodyWrote(x: StepInputs, captureFull: bool) {
    !captureFull && x.isTuple && Localize(x).Ok? && NobodyPrompted(Localize(x).value)
  }

  /** A decode request with a logits index, in a step that has tokens. */
  predicate Due(x: StepInputs, p: int) {
    && x.isTuple && x.tokens > 0 && x.logits.Some?
    && 0 <= p < |x.logits.value| && p < |x.reqs| && p < |x.isDecode| && x.isDecode[p]
  }

  predicate HasPrompt(x: StepInputs, p: int) { 0 <= p < |x.reqs| && x.resolve(x.reqs[p]).0 >= 0 }

  predicate SamePrompt(x: StepInputs, p: int, q: int) {
    0 <= p < |x.reqs| && 0 <= q < |x.reqs| && x.resolve(x.reqs[p]).0 == x.resolve(x.reqs[q]).0
  }

  ghost predicate SomeKnown(x: StepInputs) { exists q :: Due(x, q) && HasPrompt(x, q) }

  /** The positions a flow asks for: all that are due, or, of every known prompt, the first one.  A
      compacted flow of a step without a known prompt gets the frames of all. */
  ghost predicate Asked(x: StepInputs, firstPerPrompt: bool, p: int) {
    && Due(x, p)
    && (firstPerPrompt && SomeKnown(x) ==>
          HasPrompt(x, p) && forall q :: Due(x, q) && q < p ==> !SamePrompt(x, q, p))
  }

  ghost predicate Named(x: StepInputs, p: int, meta: Meta) {
    0 <= p < |x.reqs| && meta == Meta(x.reqs[p], x.resolve(x.reqs[p]).0, x.resolve(x.reqs[p]).1)
  }

  ghost function DueBefore(x: StepInputs, p: int): set<int> { set q | 0 <= q < p && Due(x, q) }

  /** Delivered are exactly the positions asked for, each once and in order, under their requests' names:
      the step's own rows, or rows that no tap wrote. */
  ghost predicate DeliversAsked(e: EngineStep, captureFull: bool, firstPerPrompt: bool, d: Delivery, pos: seq<int>) {
    var x := e.inputs;
    && StrictlyIncreasing(pos) && (forall p :: p in pos <==> Asked(x, firstPerPrompt, p))
    && |pos| == |RowsOf(d)| == |MetaIn(d)|
    && (forall j :: 0 <= j < |pos| ==> Named(x, pos[j], MetaIn(d)[j]))
    && (captureFull || SomeKnown(x) ==>
          forall j :: 0 <= j < |pos| ==> RowIs(x, pos[j], e.tensor, RowsOf(d)[j], MetaIn(d)[j]))
    && (!captureFull && !SomeKnown(x) ==> forall j :: 0 <= j < |pos| ==> RowsOf(d)[j] == None)
    && (d.Silent? <==> pos == []) && (d.Framed? <==> pos != [] && firstPerPrompt && !SomeKnown(x))
    && (d.Direct? ==> |d.rowIds| == |pos| && forall j :: 0 <= j < |pos| ==> d.rowIds[j] == |DueBefore(x, pos[j])|)
  }

  lemma {:induction false} PositionsMeaning(x: StepInputs, n: nat)
    ensures StrictlyIncreasing(DecodePositions(x, n))
    ensures forall p :: p in DecodePositions(x, n) <==>
      0 <= p < n && p < |x.reqs| && p < |x.isDecode| && x.isDecode[p]
  {
    var mask := seq(|x.isDecode|, i requires 0 <= i < |x.isDecode| => x.isDecode[i] && i < n && i < |x.reqs|);
    Rows.NonzeroMeaning(mask);
    hide Rows.Nonzero;
    forall p ensures p in DecodePositions(x, n) <==> 0 <= p < n && p < |x.reqs| && p < |x.isDecode| && x.isDecode[p] {
      assert p in DecodePositions(x, n) <==> 0 <= p < |mask| && mask[p];
    }
  }

  /** Localization finds exactly the due positions, in order. */
  lemma {:induction false} LocatesDue(x: StepInputs)
    requires x.isTuple && x.logits.Some? && Localize(x).Ok?
    ensures var at := Localize(x).value;
      && StrictlyIncreasing(at.positions) && (forall p :: p in at.positions <==> Due(x, p))
      && |at.positions| == |at.rowIdx| == |at.prompts|
      && forall k :: 0 <= k < |at.positions| ==>
           var p := at.positions[k];
           && Due(x, p) && at.rowIdx[k] == x.logits.value[p] && at.prompts[k] == x.resolve(x.reqs[p]).0
           && at.samples[k] == x.resolve(x.reqs[p]).1
  {
    hide DecodePositions;
    var n := |x.logits.value|;
    if x.tokens > 0 && n > 0 {
      PositionsMeaning(x, n);
      var pos := DecodePositions(x, n);
      forall k | 0 <= k < |pos| ensures Due(x, pos[k]) { assert pos[k] in pos; }
      if pos == [] { assert forall p :: Due(x, p) ==> p in pos; }
    }
  }

  /** Nobody has a prompt, said of the step's inputs. */
  lemma {:induction false} KnownLocated(x: StepInputs)
    requires x.isTuple && x.logits.Some? && Localize(x).Ok?
    ensures var at := Localize(x).value;
      at.rowIdx != [] ==> (SomeKnown(x) <==> !NobodyPrompted(at))
  {
    hide Localize;
    LocatesDue(x);
    var at := Localize(x).value;
    if q :| Due(x, q) && HasPrompt(x, q) {
      var k :| 0 <= k < |at.positions| && at.positions[k] == q;
      assert at.prompts[k] >= 0;
    }
    if i :| 0 <= i < |at.prompts| && at.prompts[i] >= 0 { assert Due(x, at.positions[i]); }
  }

  /** First rows of the localized prompts are first due positions of the known prompts. */
  lemma {:induction false} FirstIsAsked(x: StepInputs, k: nat)
    requires x.isTuple && x.logits.Some? && Localize(x).Ok? && k < |Localize(x).value.positions|
    ensures var at := Localize(x).value;
      Rows.IsFirst(at.prompts, k) <==>
        HasPrompt(x, at.positions[k])
        && forall q :: Due(x, q) && q < at.positions[k] ==> !SamePrompt(x, q, at.positions[k])
  {
    hide Localize;
    LocatesDue(x);
    var at := Localize(x).value;
    var p := at.positions[k];
    if Rows.IsFirst(at.prompts, k) {
      forall q | Due(x, q) && q < p ensures !SamePrompt(x, q, p) {
        var i :| 0 <= i < |at.positions| && at.positions[i] == q;
        assert i < k;
      }
    } else if r :| 0 <= r < k && at.prompts[r] == at.prompts[k] {
      assert Due(x, at.positions[r]) && SamePrompt(x, at.positions[r], p);
    }
  }

  /** The decode rows a flow asks for. */
  function AskedRows(at: Located, firstPerPrompt: bool): seq<int> {
    if firstPerPrompt && !NobodyPrompted(at) then Rows.FirstRows(at.prompts, |at.prompts|) else Arange(|at.prompts|)
  }

  lemma {:induction false} AskedAt(x: StepInputs, firstPerPrompt: bool, k: nat)
    requires x.isTuple && x.logits.Some? && Localize(x).Ok? && k < |Localize(x).value.positions|
    ensures var at := Localize(x).value;
      Asked(x, firstPerPrompt, at.positions[k]) <==> k in AskedRows(at, firstPerPrompt)
  {
    hide Localize, Rows.FirstRows, Rows.IsFirst;
    var at := Localize(x).value;
    assert at.rowIdx != [] && |at.positions| == |at.prompts| && Due(x, at.positions[k]) by { LocatesDue(x); }
    KnownLocated(x);
    FirstIsAsked(x, k);
    Rows.FirstRowsMeaning(at.prompts, |at.prompts|);
    assert Arange(|at.prompts|)[k] == k;
  }

  lemma {:induction false} GatherMembers(positions: seq<int>, ids: seq<int>)
    requires InRange(ids, |positions|) && StrictlyIncreasing(positions) && StrictlyIncreasing(ids)
    ensures StrictlyIncreasing(Gather(positions, ids))
    ensures forall k :: 0 <= k < |positions| ==> (positions[k] in Gather(positions, ids) <==> k in ids)
    ensures forall p :: p in Gather(positions, ids) ==> p in positions
  {
    var pos := Gather(positions, ids);
    forall k | 0 <= k < |positions| ensures positions[k] in pos <==> k in ids {
      if positions[k] in pos {
        var j :| 0 <= j < |ids| && pos[j] == positions[k];
        assert ids[j] == k;
      }
      if k in ids {
        var j :| 0 <= j < |ids| && ids[j] == k;
        assert pos[j] == positions[k];
      }
    }
  }

  /** The positions behind the rows a flow asks for. */
  lemma {:induction false} AskedPositions(x: StepInputs, firstPerPrompt: bool)
    requires x.isTuple && x.logits.Some? && Localize(x).Ok?
    ensures var at := Localize(x).value;
      var ids := AskedRows(at, firstPerPrompt);
      && InRange(ids, |at.positions|) && StrictlyIncreasing(Gather(at.positions, ids))
      && forall p :: p in Gather(at.positions, ids) <==> Asked(x, firstPerPrompt, p)
  {
    hide Localize, Rows.FirstRows, SomeKnown, HasPrompt, SamePrompt, NobodyPrompted;
    LocatesDue(x);
    var at := Localize(x).value;
    Rows.FirstRowsMeaning(at.prompts, |at.prompts|);
    var ids := AskedRows(at, firstPerPrompt);
    var pos := Gather(at.positions, ids);
    hide AskedRows;
    GatherMembers(at.positions, ids);
    forall p ensures p in pos <==> Asked(x, firstPerPrompt, p) {
      if Due(x, p) {
        var k :| 0 <= k < |at.positions| && at.positions[k] == p;
        AskedAt(x, firstPerPrompt, k);
      }
    }
  }

  lemma {:induction false} NoFirstRows(prompts: seq<int>)
    ensures Rows.FirstRows(prompts, |prompts|) == [] <==> forall r :: 0 <= r < |prompts| ==> prompts[r] < 0
  {
    Rows.FirstRowsMeaning(prompts, |prompts|);
    var rows := Rows.FirstRows(prompts, |prompts|);
    if r :| 0 <= r < |prompts| && prompts[r] >= 0 {
      var f := Rows.FirstRowExists(prompts, r);
      assert f in rows;
    } else {
      Rows.SomeElement(rows);
    }
  }

  /** Rows and metadata gathered by the same ids belong to the same requests. */
  lemma {:induction false} IdentifiedBy(e: EngineStep, rec: Record, at: Located, ids: seq<int>, rows: seq<Option<Row>>)
    requires Localize(e.inputs) == Ok(at) && |at.rowIdx| > 0 && InRange(ids, |at.rowIdx|) && |rows| == |ids|
    requires rec.requests == Gather(e.inputs.reqs, at.positions) && rec.prompts == at.prompts
    requires rec.samples == at.samples
    requires forall j :: 0 <= j < |ids| ==>
      0 <= at.rowIdx[ids[j]] < |e.tensor| && rows[j] == Some(e.tensor[at.rowIdx[ids[j]]])
    ensures forall j :: 0 <= j < |ids| ==> OwnRow(e, rows[j], MetaOf(rec, ids)[j])
  {
    forall j | 0 <= j < |ids| ensures OwnRow(e, rows[j], MetaOf(rec, ids)[j]) {
      assert RowIs(e.inputs, at.positions[ids[j]], e.tensor, rows[j], MetaOf(rec, ids)[j]);
    }
  }

  /** A localized step's record describes the step: active indices, names, and the compact lane. */
  lemma {:induction false} LocalizedRecord(rec: Record, x: StepInputs)
    requires Fitting(rec) && x.isTuple && x.logits.Some? && !Unprepared(rec, x)
    ensures var now, at := NextRecord(rec, x), Localize(x).value;
      && (now.requests == [] <==> at.rowIdx == [])
      && (at.rowIdx != [] ==>
            now.scratch == at.rowIdx + rec.scratch[|at.rowIdx|..] && now.requests == Gather(x.reqs, at.positions)
            && now.prompts == at.prompts && now.samples == at.samples)
      && (at.rowIdx != [] && |rec.lane| > 0 ==>
            var ids := Rows.FirstRows(at.prompts, |at.prompts|);
            now.compactIds == ids && now.lane[..|ids|] == Gather(at.rowIdx, ids))
  {
    hide Rows.FirstRows;
  }

  /** Whatever earlier steps left in the record and the buffers: unless the step fails, the rows a flow
      gets are this step's rows of the requests its metadata names if and only if the step does not fall
      back on the last step's record and does not deliver rows that no tap wrote. */
  lemma {:induction false} OwnRowsExactly(rec: Record, e: EngineStep, captureFull: bool, firstPerPrompt: bool, cap: int,
                                          d: Delivery)
    requires Fitting(rec) && (captureFull || (firstPerPrompt && |rec.lane| > 0))
    requires Delivered(rec, e, captureFull, firstPerPrompt, cap, d) && !d.Failed?
    ensures OwnRows(e, d) <==> !StaleRecord(rec, e.inputs) && !NobodyWrote(e.inputs, captureFull)
  {
    hide Localize, Rows.FirstRows;
    var x := e.inputs;
    var now := NextRecord(rec, x);
    if !x.isTuple {
    } else if x.logits.None? {
      StaleRows(rec, e, captureFull, firstPerPrompt, cap, d);
    } else {
      LocalizedRecord(rec, x);
      var at := Localize(x).value;
      if at.rowIdx != [] {
        var ids := LocalizedRows(now, e, at, captureFull, firstPerPrompt, cap, d);
        if captureFull || !NobodyPrompted(at) {
          IdentifiedBy(e, now, at, ids, RowsOf(d));
        } else {
          assert !OwnRow(e, RowsOf(d)[0], MetaIn(d)[0]);
        }
      }
    }
  }

  /** Without logits indices no row is the step's own. */
  lemma {:induction false} StaleRows(rec: Record, e: EngineStep, captureFull: bool, firstPerPrompt: bool, cap: int,
        d: Delivery)
    requires Fitting(rec) && e.inputs.isTuple && e.inputs.logits.None?
    requires Delivered(rec, e, captureFull, firstPerPrompt, cap, d) && !d.Failed?
    ensures OwnRows(e, d) <==> rec.requests == []
    ensures !NobodyWrote(e.inputs, captureFull)
  {
    hide Rows.FirstRows;
    if rec.requests != [] {
      assert |RowsOf(d)| > 0;
      assert !OwnRow(e, RowsOf(d)[0], MetaIn(d)[0]);
    }
  }

  /** What a localized step delivers: the rows named by ids, by position of the request. */
  lemma {:induction false} LocalizedRows(now: Record, e: EngineStep, at: Located, captureFull: bool,
                                         firstPerPrompt: bool, cap: int, d: Delivery) returns (ids: seq<int>)
    requires Fitting(now) && Localize(e.inputs) == Ok(at) && at.rowIdx != [] && |at.rowIdx| == |at.prompts|
    requires !Unreadable(now, e.tensor, captureFull) && d == Deliver(now, e.tensor, captureFull, firstPerPrompt, cap)
    requires !d.Failed? && |at.rowIdx| <= |now.scratch| && now.scratch[..|at.rowIdx|] == at.rowIdx
    requires now.requests == Gather(e.inputs.reqs, at.positions) && now.prompts == at.prompts
    requires now.samples == at.samples
    requires captureFull || (firstPerPrompt && |now.lane| > 0)
    requires var ids := Rows.FirstRows(at.prompts, |at.prompts|);
      |now.lane| > 0 ==> now.compactIds == ids && |ids| <= |now.lane| && now.lane[..|ids|] == Gather(at.rowIdx, ids)
    ensures ids == AskedRows(at, firstPerPrompt)
    ensures ids != [] && InRange(ids, |at.rowIdx|) && |RowsOf(d)| == |ids| && MetaIn(d) == MetaOf(now, ids)
    ensures !d.Silent? && (d.Framed? <==> firstPerPrompt && NobodyPrompted(at)) && (d.Direct? ==> d.rowIds == ids)
    ensures captureFull || !NobodyPrompted(at) ==> forall j :: 0 <= j < |ids| ==>
      0 <= at.rowIdx[ids[j]] < |e.tensor| && RowsOf(d)[j] == Some(e.tensor[at.rowIdx[ids[j]]])
    ensures !captureFull && NobodyPrompted(at) ==> forall j :: 0 <= j < |ids| ==> RowsOf(d)[j] == None
  {
    hide Localize, Rows.FirstRows;
    NoFirstRows(at.prompts);
    ids := if d.Framed? then Arange(|at.prompts|) else RowIds(now, firstPerPrompt);
    if captureFull || !NobodyPrompted(at) {
      forall j | 0 <= j < |ids|
        ensures 0 <= at.rowIdx[ids[j]] < |e.tensor| && RowsOf(d)[j] == Some(e.tensor[at.rowIdx[ids[j]]])
      {
        assert now.scratch[ids[j]] == now.scratch[..|at.rowIdx|][ids[j]];
        if d.Direct? && firstPerPrompt && InLane(now, ids) {
          assert now.lane[j] == now.lane[..|ids|][j] == at.rowIdx[ids[j]];
        }
      }
    }
  }

  /** Whatever earlier steps left: unless the step fails or falls back on the last step's record, a flow
      gets exactly what it asks for. */
  lemma {:induction false} DeliversExactly(rec: Record, e: EngineStep, captureFull: bool, firstPerPrompt: bool,
                                           cap: int, d: Delivery) returns (pos: seq<int>)
    requires Fitting(rec) && (captureFull || (firstPerPrompt && |rec.lane| > 0))
    requires Delivered(rec, e, captureFull, firstPerPrompt, cap, d) && !d.Failed? && !StaleRecord(rec, e.inputs)
    ensures DeliversAsked(e, captureFull, firstPerPrompt, d, pos)
  {
    hide Localize, Rows.FirstRows, DeliversAsked, AskedRows;
    var x := e.inputs;
    pos := [];
    if x.isTuple && x.logits.Some? {
      LocalizedRecord(rec, x);
      var now, at := NextRecord(rec, x), Localize(x).value;
      assert |at.rowIdx| == |at.prompts|;
      if at.rowIdx != [] {
        var ids := LocalizedRows(now, e, at, captureFull, firstPerPrompt, cap, d);
        hide NextRecord, Deliver, Delivered, Captured;
        pos := AskedDelivered(now, e, captureFull, firstPerPrompt, d);
        return;
      }
    }
    NothingDue(e, captureFull, firstPerPrompt, d);
  }

  lemma {:induction false} NothingDue(e: EngineStep, captureFull: bool, firstPerPrompt: bool, d: Delivery)
    requires var x := e.inputs;
      x.isTuple && x.logits.Some? ==> Localize(x).Ok? && Localize(x).value.rowIdx == []
    requires d.Silent?
    ensures DeliversAsked(e, captureFull, firstPerPrompt, d, [])
  {
    hide Localize;
    var x := e.inputs;
    if x.isTuple && x.logits.Some? { LocatesDue(x); }
    assert forall p :: !Due(x, p);
  }

  lemma {:induction false} AskedDelivered(now: Record, e: EngineStep, captureFull: bool, firstPerPrompt: bool,
                                          d: Delivery) returns (pos: seq<int>)
    requires e.inputs.isTuple && e.inputs.logits.Some? && Localize(e.inputs).Ok? && Fitting(now)
    requires var at := Localize(e.inputs).value;
      var ids := AskedRows(at, firstPerPrompt);
      && at.rowIdx != [] && ids != [] && InRange(ids, |at.rowIdx|)
      && now.requests == Gather(e.inputs.reqs, at.positions)
      && now.prompts == at.prompts && now.samples == at.samples
      && |RowsOf(d)| == |ids| && MetaIn(d) == MetaOf(now, ids)
      && !d.Silent? && (d.Framed? <==> firstPerPrompt && NobodyPrompted(at)) && (d.Direct? ==> d.rowIds == ids)
      && (captureFull || !NobodyPrompted(at) ==> forall j :: 0 <= j < |ids| ==>
            0 <= at.rowIdx[ids[j]] < |e.tensor| && RowsOf(d)[j] == Some(e.tensor[at.rowIdx[ids[j]]]))
      && (!captureFull && NobodyPrompted(at) ==> forall j :: 0 <= j < |ids| ==> RowsOf(d)[j] == None)
    ensures DeliversAsked(e, captureFull, firstPerPrompt, d, pos)
  {
    hide Localize, AskedRows, NobodyPrompted, SomeKnown, Asked, StrictlyIncreasing;
    var x := e.inputs;
    var at := Localize(x).value;
    var ids := AskedRows(at, firstPerPrompt);
    KnownLocated(x);
    AskedPositions(x, firstPerPrompt);
    pos := Gather(at.positions, ids);
    LocatesDue(x);
    forall j | 0 <= j < |pos| ensures Named(x, pos[j], MetaIn(d)[j]) && |DueBefore(x, pos[j])| == ids[j] {
      assert Due(x, at.positions[ids[j]]);
      NumberOf(x, at.positions, ids[j]);
    }
  }

  lemma {:induction false} NumberOf(x: StepInputs, positions: seq<int>, k: nat)
    requires StrictlyIncreasing(positions) && (forall p :: p in positions <==> Due(x, p)) && k < |positions|
    requires forall i :: 0 <= i < |positions| ==> positions[i] >= 0
    ensures |DueBefore(x, positions[k])| == k
  {
    var before := positions[..k];
    Rows.DistinctCount(before);
    forall q ensures q in DueBefore(x, positions[k]) <==> q in before {
      if Due(x, q) {
        var i :| 0 <= i < |positions| && positions[i] == q;
        if i < k { assert before[i] == q; }
      }
    }
    assert Rows.Elements(before) == DueBefore(x, positions[k]);
  }

  // ---- when a step fails ---------------------------------------------------------------------

  ghost function DueSet(x: StepInputs): set<int> { set p | 0 <= p < |x.reqs| && Due(x, p) }

  /** The known prompts of a step's decode requests. */
  ghost function DuePrompts(x: StepInputs): set<int> {
    set p | p in DueSet(x) && HasPrompt(x, p) :: x.resolve(x.reqs[p]).0
  }

  /** A due request's logits index lies outside the step's tokens. */
  ghost predicate Outside(x: StepInputs, n: int) { exists p :: Due(x, p) && !(0 <= x.logits.value[p] < n) }

  lemma {:induction false} LocatedCounts(x: StepInputs)
    requires x.isTuple && x.logits.Some? && Localize(x).Ok?
    ensures var at := Localize(x).value;
      && |at.rowIdx| == |DueSet(x)|
      && |Rows.FirstRows(at.prompts, |at.prompts|)| == |DuePrompts(x)|
  {
    hide Localize, Rows.FirstRows, DuePrompts, Rows.PromptSet;
    LocatesDue(x);
    var at := Localize(x).value;
    Rows.DistinctCount(at.positions);
    assert Rows.Elements(at.positions) == DueSet(x);
    Rows.FirstRowsCount(at.prompts, |at.prompts|);
    LocatedPrompts(x);
  }

  lemma {:induction false} LocatedPrompts(x: StepInputs)
    requires x.isTuple && x.logits.Some? && Localize(x).Ok?
    ensures Rows.PromptSet(Localize(x).value.prompts, |Localize(x).value.prompts|) == DuePrompts(x)
  {
    hide Localize;
    LocatesDue(x);
    var at := Localize(x).value;
    var known, due := Rows.PromptSet(at.prompts, |at.prompts|), DuePrompts(x);
    forall u | u in known ensures u in due {
      var k :| 0 <= k < |at.prompts| && at.prompts[k] >= 0 && at.prompts[k] == u;
      assert at.positions[k] in DueSet(x);
    }
    forall u | u in due ensures u in known {
      var p :| p in DueSet(x) && HasPrompt(x, p) && x.resolve(x.reqs[p]).0 == u;
      var k :| 0 <= k < |at.positions| && at.positions[k] == p;
      assert at.prompts[k] == u;
    }
    assert known == due;
  }

  /** Localization fails exactly on a host index of a due request that is not a token of the step. */
  lemma {:induction false} LocalizeFailsExactly(x: StepInputs)
    requires x.isTuple && x.logits.Some?
    ensures Localize(x).Err? <==> x.onHost && Outside(x, x.tokens)
  {
    hide DecodePositions, Prompts, Samples;
    var n := |x.logits.value|;
    if x.tokens > 0 && n > 0 {
      PositionsMeaning(x, n);
      var pos := DecodePositions(x, n);
      assert Localize(x).Err? <==> x.onHost && !InRange(Gather(x.logits.value, pos), x.tokens);
      hide Localize;
      OutsideRows(x, pos, x.tokens);
    }
  }

  lemma {:induction false} OutsideRows(x: StepInputs, pos: seq<int>, n: int)
    requires x.logits.Some? && (forall p :: p in pos <==> Due(x, p)) && InRange(pos, |x.logits.value|)
    ensures InRange(Gather(x.logits.value, pos), n) <==> !Outside(x, n)
  {
    hide Due;
    var rowIdx := Gather(x.logits.value, pos);
    forall k | 0 <= k < |pos| ensures Due(x, pos[k]) && rowIdx[k] == x.logits.value[pos[k]] { assert pos[k] in pos; }
    if p :| Due(x, p) && !(0 <= x.logits.value[p] < n) {
      var k :| 0 <= k < |pos| && pos[k] == p;
      assert !(0 <= rowIdx[k] < n);
    }
  }

  /** Preparation raises exactly for a host index out of range, for more decode requests than scratch rows,
      and for more known prompts than a compact lane has rows. */
  lemma {:induction false} UnpreparedExactly(rec: Record, x: StepInputs)
    requires Fitting(rec)
    ensures Unprepared(rec, x) <==>
      x.isTuple && x.logits.Some?
      && ((x.onHost && Outside(x, x.tokens)) || |DueSet(x)| > |rec.scratch|
          || 0 < |rec.lane| < |DuePrompts(x)|)
  {
    hide Localize, Rows.FirstRows;
    if x.isTuple && x.logits.Some? {
      LocalizeFailsExactly(x);
      if Localize(x).Ok? { LocatedCounts(x); }
    }
  }

  /** What a raising preparation leaves: the last step's record, unless only the compact lane is too small;
      then the new rows are named already, beside the last step's compact lane. */
  lemma {:induction false} RaisedRecord(rec: Record, x: StepInputs)
    requires Fitting(rec) && Unprepared(rec, x)
    ensures var next := NextRecord(rec, x);
      if (x.onHost && Outside(x, x.tokens)) || |DueSet(x)| > |rec.scratch| then next == rec
      else
        && next.lane == rec.lane && next.compactIds == rec.compactIds && |next.requests| == |DueSet(x)|
        && forall k :: 0 <= k < |next.requests| ==>
             exists p :: Due(x, p) && Named(x, p, Meta(next.requests[k], next.prompts[k], next.samples[k]))
                         && next.scratch[k] == x.logits.value[p]
  {
    hide Localize, Rows.FirstRows;
    LocalizeFailsExactly(x);
    if Localize(x).Ok? {
      LocatedCounts(x);
      LocatesDue(x);
      var at, next := Localize(x).value, NextRecord(rec, x);
      NoRowsFit();
      if |at.rowIdx| <= |rec.scratch| {
        forall k | 0 <= k < |next.requests|
          ensures Named(x, at.positions[k], Meta(next.requests[k], next.prompts[k], next.samples[k]))
          ensures Due(x, at.positions[k]) && next.scratch[k] == x.logits.value[at.positions[k]]
        {
        }
      }
    }
  }

  /** Where the taps could read, a prepared step fails exactly when the flow asks for more rows than its
      cap: decode requests, or distinct known prompts. */
  lemma {:induction false} CapExactly(rec: Record, e: EngineStep, captureFull: bool, firstPerPrompt: bool, cap: int)
    requires Fitting(rec) && e.inputs.isTuple && e.inputs.logits.Some? && !Unprepared(rec, e.inputs)
    requires !Unreadable(NextRecord(rec, e.inputs), e.tensor, captureFull)
    ensures StepFails(rec, e, captureFull, firstPerPrompt, cap) <==>
      cap > 0 && (if firstPerPrompt then |DuePrompts(e.inputs)| else |DueSet(e.inputs)|) > cap
  {
    hide Localize, Rows.FirstRows, NextRecord, Unreadable;
    var x := e.inputs;
    LocalizedRecord(rec, x);
    LocatedCounts(x);
    var now, at := NextRecord(rec, x), Localize(x).value;
    assert |at.rowIdx| == |at.prompts|;
    if at.rowIdx == [] {
      assert at.prompts == [] && now.prompts == [];
    }
  }

  /** The compact gather fails exactly when the tensor lacks the index of a known prompt's first request. */
  lemma {:induction false} LaneReadExactly(rec: Record, e: EngineStep)
    requires Fitting(rec) && |rec.lane| > 0
    requires e.inputs.isTuple && e.inputs.logits.Some? && !Unprepared(rec, e.inputs)
    ensures Unreadable(NextRecord(rec, e.inputs), e.tensor, false) <==>
      exists p :: AskedOut(e.inputs, p, |e.tensor|)
  {
    hide Localize, Rows.FirstRows, AskedOut;
    var x, n := e.inputs, |e.tensor|;
    LocalizedRecord(rec, x);
    var now, at := NextRecord(rec, x), Localize(x).value;
    LocatesDue(x);
    KnownLocated(x);
    NoFirstRows(at.prompts);
    if at.rowIdx != [] && SomeKnown(x) {
      var ids := Rows.FirstRows(at.prompts, |at.prompts|);
      assert ids == AskedRows(at, true);
      assert now.compactIds == ids && now.lane[..|ids|] == Gather(at.rowIdx, ids);
      hide NextRecord;
      LaneOut(x, n, Gather(at.rowIdx, ids));
    } else {
      assert at.rowIdx == [] ==> now.compactIds == [];
      forall p ensures !AskedOut(x, p, n) { NotAskedOut(x, p, n); }
    }
  }

  /** The first due position of a known prompt, with an index that n rows do not have. */
  ghost predicate AskedOut(x: StepInputs, p: int, n: int) {
    Asked(x, true, p) && HasPrompt(x, p) && !(0 <= x.logits.value[p] < n)
  }

  lemma {:induction false} NotAskedOut(x: StepInputs, p: int, n: int)
    requires !SomeKnown(x)
    ensures !AskedOut(x, p, n)
  {
  }

  lemma {:induction false} LaneOut(x: StepInputs, n: int, lane: seq<int>)
    requires x.isTuple && x.logits.Some? && Localize(x).Ok? && SomeKnown(x)
    requires var at := Localize(x).value;
      |at.rowIdx| == |at.prompts| && InRange(AskedRows(at, true), |at.rowIdx|)
      && lane == Gather(at.rowIdx, AskedRows(at, true))
    ensures InRange(lane, n) <==> forall p :: !AskedOut(x, p, n)
  {
    hide Localize, AskedRows, SomeKnown;
    AskedPositions(x, true);
    LocatesDue(x);
    var at := Localize(x).value;
    var ids := AskedRows(at, true);
    var pos := Gather(at.positions, ids);
    forall j | 0 <= j < |ids|
      ensures AskedOut(x, pos[j], n) <==> !(0 <= lane[j] < n)
    {
      assert pos[j] in pos && Asked(x, true, pos[j]);
    }
    if p :| AskedOut(x, p, n) {
      assert p in pos;
      var j :| 0 <= j < |pos| && pos[j] == p;
    }
  }

  /** The full gather of a prepared step fails if and only if an index of its own rows, or an index that
      earlier, longer steps left behind them, is outside this step's tensor. */
  lemma {:induction false} StaleTailExactly(rec: Record, e: EngineStep)
    requires Fitting(rec) && e.inputs.isTuple && e.inputs.logits.Some? && !Unprepared(rec, e.inputs)
    ensures var at := Localize(e.inputs).value;
      && |at.rowIdx| <= |rec.scratch|
      && (Unreadable(NextRecord(rec, e.inputs), e.tensor, true) <==>
            !InRange(at.rowIdx, |e.tensor|) || !InRange(rec.scratch[|at.rowIdx|..], |e.tensor|))
  {
    hide Localize, Rows.FirstRows;
    LocalizedRecord(rec, e.inputs);
    var at, now, n := Localize(e.inputs).value, NextRecord(rec, e.inputs), |e.tensor|;
    var k := |at.rowIdx|;
    if k == 0 {
      assert rec.scratch[0..] == rec.scratch;
    } else {
      var tail := rec.scratch[k..];
      assert forall i :: 0 <= i < k ==> now.scratch[i] == at.rowIdx[i];
      assert forall i :: 0 <= i < |tail| ==> now.scratch[k + i] == tail[i];
      if InRange(at.rowIdx, n) && InRange(tail, n) {
        assert InRange(now.scratch, n);
        if |rec.lane| == 0 { assert now.compactIds == []; }
      }
    }
  }

  // ---- runs ----------------------------------------------------------------------------------

  /** The record before step i. */
  function RecordAt(start: Record, steps: seq<EngineStep>, i: nat): (rec: Record)
    requires Fitting(start) && i <= |steps|
    ensures Fitting(rec) && |rec.scratch| == |start.scratch| && |rec.lane| == |start.lane|
  {
    if i == 0 then start else NextRecord(RecordAt(start, steps, i - 1), steps[i - 1].inputs)
  }

  /** The step is delivered from the record that the steps before it left, or fails as that record says,
      its rows are its own exactly when they should be, and they are exactly the rows the flow asks for. */
  ghost predicate Accounted(start: Record, steps: seq<EngineStep>, i: nat, f: CapturePlan.Flow, captureFull: bool,
        d: Delivery)
    requires Fitting(start) && i < |steps|
  {
    var rec, e := RecordAt(start, steps, i), steps[i];
    && Delivered(rec, e, captureFull, f.firstPerPrompt, f.maxRows, d)
    && (!d.Failed? ==> (OwnRows(e, d) <==> !StaleRecord(rec, e.inputs) && !NobodyWrote(e.inputs, captureFull)))
    && (!d.Failed? && !StaleRecord(rec, e.inputs) ==>
          exists pos :: DeliversAsked(e, captureFull, f.firstPerPrompt, d, pos))
  }

  /** Step i of a run. */
  method RunStep(loc: Localization, tap: Tap, ghost start: Record, steps: seq<EngineStep>, i: nat, f: CapturePlan.Flow,
                 captureFull: bool) returns (d: Delivery)
    requires Fitting(start) && i < |steps| && loc.Valid() && tap.full != tap.compact
    requires loc.View() == RecordAt(start, steps, i)
    requires tap.full.Length == loc.rowIdx.Length && tap.compact.Length == loc.compactIdx.Length == |start.lane|
    requires !captureFull ==> forall k :: 0 <= k < tap.full.Length ==> tap.full[k] == None
    requires captureFull || (f.firstPerPrompt && |start.lane| > 0)
    modifies loc, loc.rowIdx, loc.compactIdx, tap.full, tap.compact
    ensures loc.Valid() && loc.View() == RecordAt(start, steps, i + 1)
    ensures !captureFull ==> forall k :: 0 <= k < tap.full.Length ==> tap.full[k] == None
    ensures Accounted(start, steps, i, f, captureFull, d)
  {
    hide NextRecord, Delivered, OwnRows, StaleRecord, NobodyWrote, StepFails;
    d := DeliverStep(loc, tap, steps[i], captureFull, f.firstPerPrompt, f.maxRows);
    if !captureFull {
      assert forall k :: 0 <= k < tap.full.Length ==> tap.full[k] == tap.full[..][k] == old(tap.full[..])[k];
    }
    ghost var rec := RecordAt(start, steps, i);
    if !d.Failed? {
      OwnRowsExactly(rec, steps[i], captureFull, f.firstPerPrompt, f.maxRows, d);
      if !StaleRecord(rec, steps[i].inputs) {
        ghost var pos := DeliversExactly(rec, steps[i], captureFull, f.firstPerPrompt, f.maxRows, d);
      }
    }
  }

  /** Every step of a run. */
  method RunFrom(loc: Localization, tap: Tap, ghost start: Record, steps: seq<EngineStep>, f: CapturePlan.Flow,
                 captureFull: bool) returns (out: seq<Delivery>)
    requires Fitting(start) && loc.Valid() && tap.full != tap.compact && loc.View() == start
    requires tap.full.Length == loc.rowIdx.Length && tap.compact.Length == loc.compactIdx.Length == |start.lane|
    requires !captureFull ==> forall k :: 0 <= k < tap.full.Length ==> tap.full[k] == None
    requires captureFull || (f.firstPerPrompt && |start.lane| > 0)
    modifies loc, loc.rowIdx, loc.compactIdx, tap.full, tap.compact
    ensures |out| == |steps|
    ensures forall i :: 0 <= i < |steps| ==> Accounted(start, steps, i, f, captureFull, out[i])
  {
    out := [];
    for i := 0 to |steps|
      invariant |out| == i && loc.Valid() && loc.View() == RecordAt(start, steps, i)
      invariant !captureFull ==> forall k :: 0 <= k < tap.full.Length ==> tap.full[k] == None
      invariant forall k :: 0 <= k < i ==> Accounted(start, steps, k, f, captureFull, out[k])
    {
      hide Accounted, RecordAt;
      var d := RunStep(loc, tap, start, steps, i, f, captureFull);
      out := out + [d];
    }
  }

  /** Setup and any number of steps for one residual flow of the plan; the runtime goes on after a step
      that raised. */
  method RunSteps(plan: CapturePlan.Plan, scratchRows: int, maxRequests: int, laneEnabled: bool, intervention: bool,
                  f: CapturePlan.Flow, steps: seq<EngineStep>)
    returns (setup: Result<CapturePlan.Setup, string>, out: seq<Delivery>)
    requires f in plan.flows && f.readsResidual
    ensures setup.Err? <==> scratchRows <= 0 && maxRequests <= 0
    ensures setup.Ok? ==> (!setup.value.captureFull <==>
      laneEnabled && !intervention && CapturePlan.OnlyCompacted(plan))
    ensures setup.Ok? ==> setup.value.rows == if scratchRows > 0 then scratchRows else maxRequests
    ensures setup.Ok? ==> |out| == |steps|
    ensures setup.Ok? ==> forall i :: 0 <= i < |steps| ==>
      Accounted(Start(setup.value.rows, setup.value.compactRows), steps, i, f, setup.value.captureFull, out[i])
  {
    out := [];
    setup := CapturePlan.Resolve(Some(plan), scratchRows, maxRequests, laneEnabled, intervention);
    if setup.Err? { return; }
    var s := setup.value;
    var loc := new Localization(s.rows, s.compactRows);
    var tap := new Tap(s.rows, s.compactRows);
    assert s.captureFull || (f.firstPerPrompt && s.compactRows > 0);
    hide CapturePlan.OnlyCompacted, Accounted;
    out := RunFrom(loc, tap, Start(s.rows, s.compactRows), steps, f, s.captureFull);
  }

  // ---- three concrete runs -------------------------------------------------------------------

  /** A step of decode requests, one per logits index. */
  function DecodeStep(reqs: seq<string>, prompt: int, logits: Option<seq<int>>, tensor: seq<Row>): EngineStep {
    EngineStep(StepInputs(true, reqs, seq(|reqs|, _ => true), logits, |tensor|, _ => (prompt, 0), true), tensor)
  }

  lemma {:induction false} DecodeLocated(reqs: seq<string>, prompt: int, logits: seq<int>, tensor: seq<Row>)
    requires 0 < |reqs| == |logits| && InRange(logits, |tensor|)
    ensures Localize(DecodeStep(reqs, prompt, Some(logits), tensor).inputs) ==
      Ok(Located(logits, seq(|reqs|, _ => prompt), seq(|reqs|, _ => 0), Arange(|reqs|)))
  {
    var x, n := DecodeStep(reqs, prompt, Some(logits), tensor).inputs, |reqs|;
    AllPositions(x, n);
    var pos := Arange(n);
    assert InRange(logits, |tensor|) && 0 <= logits[0] < |tensor|;
    assert Gather(logits, pos) == logits;
    assert Prompts(x, pos) == seq(n, _ => prompt) && Samples(x, pos) == seq(n, _ => 0);
  }

  lemma {:induction false} AllPositions(x: StepInputs, n: nat)
    requires |x.reqs| == |x.isDecode| == n && forall i :: 0 <= i < n ==> x.isDecode[i]
    ensures DecodePositions(x, n) == Arange(n)
  {
    Rows.NonzeroAll(seq(|x.isDecode|, i requires 0 <= i < |x.isDecode| => x.isDecode[i] && i < n && i < |x.reqs|));
  }

  lemma {:induction false} OneRow(prompt: int)
    ensures seq(1, _ => prompt) == [prompt] && seq(1, _ => 0) == [0] && Arange(1) == [0]
    ensures Rows.FirstRows([prompt], 1) == if prompt >= 0 then [0] else []
  {
    assert [prompt][..0] == [] && Rows.FirstRows([prompt], 0) == [];
  }

  /** One decode request without a prompt, compact lane on, nothing else interested: the flow gets a
      row the step never wrote. */
  method UnwrittenExample() returns (d: Delivery)
    ensures d.Framed? && d.rows == [None]
  {
    hide Localize;
    var flow := CapturePlan.Flow(true, true, 0);
    var step := DecodeStep(["r"], -1, Some([0]), [[1.0]]);
    DecodeLocated(["r"], -1, [0], [[1.0]]);
    OneRow(-1);
    assert flow in [flow];
    var setup, out := RunSteps(CapturePlan.Plan([flow], false), 1, 0, true, false, flow, [step]);
    d := out[0];
    assert CapturePlan.OnlyCompacted(CapturePlan.Plan([flow], false));
    assert Accounted(Start(1, setup.value.compactRows), [step], 0, flow, false, d);
    ghost var now := NextRecord(Start(1, setup.value.compactRows), step.inputs);
    assert RecordAt(Start(1, setup.value.compactRows), [step], 0) == Start(1, setup.value.compactRows);
  }

  /** The record that a first step of one decode request leaves. */
  lemma {:induction false} OneNamed(lane: nat, req: string, row: Row)
    ensures var next := NextRecord(Start(1, lane), DecodeStep([req], 7, Some([0]), [row]).inputs);
      && next.scratch == [0] && next.requests == [req] && next.prompts == [7] && next.samples == [0]
      && (next.compactIds == [] || (next.compactIds == [0] && next.lane[0] == 0))
  {
    hide Localize, NextRecord, Rows.FirstRows;
    var rec, x := Start(1, lane), DecodeStep([req], 7, Some([0]), [row]).inputs;
    DecodeLocated([req], 7, [0], [row]);
    OneRow(7);
    LocalizedRecord(rec, x);
    assert Gather([req], [0]) == [req] && rec.scratch[1..] == [];
    var next := NextRecord(rec, x);
    if lane > 0 { assert next.lane[0] == next.lane[..1][0]; }
  }

  lemma {:induction false} StaleDelivered(rec: Record, e: EngineStep, d: Delivery)
    requires Fitting(rec) && rec.scratch == [0] && rec.requests == ["a"] && rec.prompts == [7] && rec.samples == [0]
    requires rec.compactIds == [] || (rec.compactIds == [0] && rec.lane[0] == 0)
    requires e == DecodeStep(["b"], 7, None, [[2.0]]) && Delivered(rec, e, true, false, 0, d)
    ensures d == Direct([0], [Some([2.0])], [Meta("a", 7, 0)])
  {
    hide Localize;
  }

  /** A decode step of request a, then a step without logits indices for request b: the flow gets this
      step's row under the name of last step's request. */
  method StaleRecordExample() returns (d: Delivery)
    ensures d == Direct([0], [Some([2.0])], [Meta("a", 7, 0)])
  {
    hide Localize, NextRecord, Delivered;
    var flow := CapturePlan.Flow(true, false, 0);
    var steps := [DecodeStep(["a"], 7, Some([0]), [[1.0]]), DecodeStep(["b"], 7, None, [[2.0]])];
    assert flow in [flow];
    var setup, out := RunSteps(CapturePlan.Plan([flow], false), 1, 0, false, false, flow, steps);
    d := out[1];
    ghost var start := Start(1, setup.value.compactRows);
    assert RecordAt(start, steps, 1) == NextRecord(RecordAt(start, steps, 0), steps[0].inputs);
    assert Accounted(start, steps, 1, flow, true, d);
    OneNamed(setup.value.compactRows, "a", [1.0]);
    StaleDelivered(RecordAt(start, steps, 1), steps[1], d);
  }

  /** Two decode requests, then one: the full gather of the second step still reads the first step's
      second index, which the shorter tensor does not have. */
  method StaleTailExample() returns (d: Delivery)
    ensures d.Failed?
  {
    hide Localize;
    var flow := CapturePlan.Flow(true, false, 0);
    var steps := [DecodeStep(["a", "b"], 7, Some([0, 1]), [[1.0], [2.0]]), DecodeStep(["a"], 7, Some([0]), [[3.0]])];
    DecodeLocated(["a", "b"], 7, [0, 1], [[1.0], [2.0]]);
    DecodeLocated(["a"], 7, [0], [[3.0]]);
    assert flow in [flow];
    var setup, out := RunSteps(CapturePlan.Plan([flow], false), 2, 0, false, false, flow, steps);
    d := out[1];
    ghost var start := Start(2, setup.value.compactRows);
    ghost var rec := RecordAt(start, steps, 1);
    assert rec == NextRecord(RecordAt(start, steps, 0), steps[0].inputs) == NextRecord(start, steps[0].inputs);
    assert Accounted(start, steps, 1, flow, true, d);
    assert NextRecord(rec, steps[1].inputs).scratch[1] == 1;
  }
}
