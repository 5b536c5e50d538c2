/** What a run of the ESamp consumer should do: which steps raise, which prompts have slots, and
    what the loss counters say. */
module ConsumerRuns {
  import opened Common
  import opened Rows
  import opened Losses
  import opened SlotTable
  import SlotLookup
  import opened TrainStep
  import Pipeline = TrainPipeline

  // ---- delivered steps ------------------------------------------------------------------------

  /** A RowBatchMeta: how many request ids it has, and its prompts. */
  datatype Meta = Meta(requests: nat, prompts: seq<int>, firstPerPrompt: bool)

  /** A delivered step.  Rows of a device lease are cut to its active rows already; a bundle that was
      assembled from frames carries no RowBatchMeta. */
  datatype Batch = Batch(src: seq<Row>, tgt: seq<Row>, lease: bool, meta: Option<Meta>,
                         width: nat, tgtWidth: nat, model: int, modelHidden: nat, dtype: int, device: int)

  /** The pipeline is as wide as the model or the source rows, whichever is wider. */
  function Hidden(b: Batch): nat { Max(b.modelHidden, b.width) }

  /** Rows of another width than the pipeline cannot be copied into it. */
  predicate Misfits(b: Batch) { b.width != Hidden(b) || b.tgtWidth != Hidden(b) }

  datatype Reason =
    | RowCounts | NotRowBatchMeta | LeaseRows | NoHidden | NoRows
    | WrongWidth | NoPipelineYet | NoTrainStream
    | Training(error: Error)

  /** resource_key: the model, and the layout of the pipeline. */
  datatype Key = Key(model: int, layout: Pipeline.Layout)

  /** _TrainingRows, compacted: as many prompts as rows. */
  datatype Extract = Extract(src: seq<Row>, tgt: seq<Row>, prompts: seq<int>)

  /** Missing prompts are -1, prompts behind the last row are dropped. */
  function Padded(prompts: seq<int>, n: nat): (p: seq<int>)
    ensures |p| == n
  {
    seq(n, i requires 0 <= i < n => if i < |prompts| then prompts[i] else -1)
  }

  function ExtractRows(b: Batch): (r: Result<Extract, Reason>)
    ensures r.Ok? ==> |r.value.src| == |r.value.tgt| == |r.value.prompts| && b.meta.Some?
  {
    if |b.src| != |b.tgt| then Err(RowCounts)
    else if b.meta.None? then Err(NotRowBatchMeta)
    else if b.lease && b.meta.value.requests != |b.src| then Err(LeaseRows)
    else Ok(Extract(b.src, b.tgt, Padded(b.meta.value.prompts, |b.src|)))
  }

  /** consume_bundle keeps the first row of every prompt in bank mode, unless delivery already did. */
  function Compacted(cfg: Config, delivered: bool, x: Extract): (s: Extract)
    requires |x.src| == |x.tgt| == |x.prompts|
    ensures |s.src| == |s.tgt| == |s.prompts|
  {
    if cfg.perBank && !delivered then
      var ids := FirstRows(x.prompts, |x.prompts|);
      Extract(Gather(x.src, ids), Gather(x.tgt, ids), Gather(x.prompts, ids))
    else x
  }

  /** Compaction keeps every prompt, and leaves no row without one. */
  lemma {:induction false} CompactedPrompts(cfg: Config, delivered: bool, x: Extract)
    requires |x.src| == |x.tgt| == |x.prompts|
    ensures var s := Compacted(cfg, delivered, x).prompts; PromptSet(s, |s|) == PromptSet(x.prompts, |x.prompts|)
    ensures cfg.perBank && !delivered ==>
      !Missing(Compacted(cfg, delivered, x).prompts, |Compacted(cfg, delivered, x).prompts|)
  {
    if cfg.perBank && !delivered {
      var prompts := x.prompts;
      var ids := FirstRows(prompts, |prompts|);
      var kept := Gather(prompts, ids);
      FirstRowsMeaning(prompts, |prompts|);
      forall k | 0 <= k < |kept| ensures kept[k] >= 0 { assert ids[k] in ids; }
      assert PromptSet(kept, |kept|) == PromptSet(prompts, |prompts|) by {
        forall p | p in PromptSet(prompts, |prompts|) ensures p in PromptSet(kept, |kept|) {
          var r :| 0 <= r < |prompts| && prompts[r] >= 0 && prompts[r] == p;
          var f := FirstRowExists(prompts, r);
          assert f in ids;
          var k :| 0 <= k < |ids| && ids[k] == f;
          assert kept[k] == p;
        }
      }
    }
  }

  // ---- the account ----------------------------------------------------------------------------

  /** What can happen to the consumer between and at decode steps.  `f` and `run` are the models and
      the behaviour of the graph runtime during the training of the step; `Silent` is the end of a step
      whose bundle has no hidden tensors, or of one without a bundle. */
  datatype Event =
    | Delivered(b: Batch, f: Forward, run: GraphRun)
    | Silent
    | Sampling(prompts: seq<int>)
    | Toggle(on: bool)
    | Configure(on: bool, cfg: Config, scratch: nat)
    | ReadStats

  /** What the run should have launched and counted so far.  `streamed`: the latest launch made a train
      stream, or found one. */
  datatype Account = Account(on: bool, scratch: nat, streamed: bool, table: Table, launched: seq<seq<Row>>,
                             losses: nat, lossSum: real)

  /** What consume_bundle trains on: the compacted rows and the row count of the pipeline. */
  function Trainable(cfg: Config, scratch: nat, b: Batch): (r: Result<(Extract, nat), Reason>)
    ensures r.Ok? ==> |r.value.0.src| == |r.value.0.tgt| == |r.value.0.prompts| <= r.value.1
    ensures r.Ok? ==> Hidden(b) > 0 && r.value.1 > 0
  {
    var x := ExtractRows(b);
    if x.Err? then Err(x.error)
    else
      var s := Compacted(cfg, b.meta.value.firstPerPrompt, x.value);
      var rows := Max(scratch, |s.src|);
      if Hidden(b) == 0 then Err(NoHidden) else if rows == 0 then Err(NoRows) else Ok((s, rows))
  }

  function Wants(a: Account, b: Batch): (r: Result<(Extract, nat), Reason>)
    ensures r.Ok? ==> |r.value.0.src| == |r.value.0.tgt| == |r.value.0.prompts| <= r.value.1
    ensures r.Ok? ==> Hidden(b) > 0 && r.value.1 > 0
  {
    Trainable(a.table.cfg, a.scratch, b)
  }

  /** The table after _ensure_runtime_resources. */
  function Ensured(a: Account, b: Batch, rows: nat): Table
    requires Hidden(b) > 0
  {
    EnsureResources(a.table, b.device, rows, Hidden(b), b.dtype)
  }

  /** The account after a training: t is the table the launch ensured, t' the table now. */
  function Credited(a: Account, t: Table, t': Table, s: Extract, y: Trained): Account {
    var kept := t.pipeline == a.table.pipeline;
    a.(streamed := t.cfg.streamMode != Pipeline.Serial, table := t', launched := a.launched + [s.src],
       losses := (if kept then a.losses else 0) + y.count, lossSum := (if kept then a.lossSum else 0.0) + y.loss)
  }

  /** A step delivered while training is on. */
  ghost function TrainedStep(a: Account, b: Batch, f: Forward): Result<Account, Reason> {
    var w := Wants(a, b);
    if w.Err? then Err(w.error)
    else if Misfits(b) then Err(WrongWidth)
    else
      var (s, rows) := w.value;
      EnsureResourcesFrame(a.table, b.device, rows, Hidden(b), b.dtype);
      var t := Ensured(a, b, rows);
      var (t', r) := TrainRows(t, f, s.src, s.tgt, s.prompts);
      if r.Err? then Err(Training(r.error)) else Ok(Credited(a, t, t', s, r.value))
  }

  /** The slot count and the flush interval are stored as at least one. */
  function Normal(cfg: Config): Config {
    cfg.(pipelineSlots := Max(1, cfg.pipelineSlots), flush := Max(1, cfg.flush))
  }

  /** A step end with training on needs a pipeline, and a train stream unless its mode has none. */
  function EndIdle(a: Account): Result<Account, Reason> {
    if a.on && a.table.pipeline.None? then Err(NoPipelineYet)
    else if a.on && a.table.cfg.streamMode != Pipeline.Serial && !a.streamed then Err(NoTrainStream)
    else Ok(a)
  }

  /** The counters are cleared by a read and by a pipeline of another shape, and by nothing else. */
  ghost function Next(a: Account, e: Event): Result<Account, Reason> {
    match e
    case Delivered(b, f, _) => if a.on then TrainedStep(a, b, f) else Ok(a)
    case Silent => EndIdle(a)
    case Sampling(prompts) =>
      var (t, r) := AssignForSampling(a.table, prompts);
      if r.Err? then Err(Training(r.error)) else Ok(a.(table := t))
    case Toggle(on) => Ok(a.(on := on))
    case Configure(on, cfg, scratch) =>
      Ok(a.(on := on, scratch := scratch, table := SlotTable.Configure(a.table, Normal(cfg))))
    case ReadStats => Ok(a.(losses := 0, lossSum := 0.0))
  }

  ghost function After(a: Account, events: seq<Event>): Result<Account, Reason>
    decreases |events|
  {
    if events == [] then Ok(a)
    else
      var n := |events| - 1;
      var before := After(a, events[..n]);
      if before.Err? then before else Next(before.value, events[n])
  }

  ghost predicate Sound(a: Account) {
    && Coherent(a.table) && a.table.cfg.pipelineSlots > 0 && ShapeKept(a.table)
    && (a.losses == 0 ==> a.lossSum == 0.0)
  }

  function Start(cfg: Config, device: int, scratch: nat): Account {
    Account(true, scratch, cfg.streamMode != Pipeline.Serial, SlotLookup.Fresh(Normal(cfg), device), [], 0, 0.0)
  }

  // ---- which prompts have slots ----------------------------------------------------------------

  /** The pipeline a batch needs is not the current one. */
  predicate Reshapes(a: Account, b: Batch, rows: nat) {
    a.table.pipeline != Some(Shape(a.table.cfg.pipelineSlots, rows, Hidden(b), b.dtype, b.device))
  }

  /** A launch forgets all slots when it reallocates the pipeline or makes the bank. */
  predicate Forgets(a: Account, b: Batch, rows: nat) {
    Reshapes(a, b, rows) || (UsingBank(a.table) && a.table.bank.None?)
  }

  lemma {:induction false} EnsuredMeaning(a: Account, b: Batch, rows: nat)
    requires Sound(a) && Hidden(b) > 0
    ensures var t := Ensured(a, b, rows);
      && Coherent(t) && ShapeKept(t) && t.cfg == a.table.cfg && t.hidden > 0 && (UsingBank(t) ==> t.bank.Some?)
      && t.slots == (if Forgets(a, b, rows) then EMPTY else a.table.slots) && Capacity(t) == Wanted(t.cfg)
      && t.slots.byPrompt.Keys == (if Forgets(a, b, rows) then {} else Keys(a))
      && (t.pipeline == a.table.pipeline <==> !Reshapes(a, b, rows))
  {
    hide Bijection, DenseSound, CacheOk, LookupCapacity, AssignAll;
    EnsureResourcesCoherent(a.table, b.device, rows, Hidden(b), b.dtype);
    EnsureResourcesFrame(a.table, b.device, rows, Hidden(b), b.dtype);
    EnsuredSlots(a.table, b.device, rows, Hidden(b), b.dtype);
  }

  lemma {:induction false} EnsuredSlots(t: Table, device: int, rows: nat, hidden: nat, dtype: int)
    requires Coherent(t) && ShapeKept(t) && hidden > 0
    ensures EnsureResources(t, device, rows, hidden, dtype).slots ==
      if t.pipeline != Some(Shape(t.cfg.pipelineSlots, rows, hidden, dtype, device)) || (UsingBank(t) && t.bank.None?)
      then EMPTY else t.slots
  {
    hide Bijection, DenseSound, CacheOk, LookupCapacity;
  }

  /** The prompts whose slots are known when a batch trains. */
  ghost function KnownAt(a: Account, known: set<int>, b: Batch): set<int> {
    if Wants(a, b).Ok? && Forgets(a, b, Wants(a, b).value.1) then {} else known
  }

  function BatchPrompts(b: Batch): seq<int> {
    if b.meta.None? then [] else Padded(b.meta.value.prompts, |b.src|)
  }

  ghost function Carried(prompts: seq<int>): set<int> { PromptSet(prompts, |prompts|) }

  ghost function Preassigned(a: Account, prompts: seq<int>): set<int> {
    if UsingBank(a.table) && a.table.hidden > 0 then Carried(prompts) else {}
  }

  /** The prompts with slots after an event that did not raise: those of the bank steps and of the
      pre-assignments since the last event that forgets them. */
  ghost function KnownNext(a: Account, known: set<int>, e: Event): set<int> {
    match e
    case Delivered(b, _, _) =>
      if !a.on then known
      else KnownAt(a, known, b) + if UsingBank(a.table) then Carried(BatchPrompts(b)) else {}
    case Sampling(prompts) => known + Preassigned(a, prompts)
    case Configure(_, cfg, _) => if Normal(cfg) == a.table.cfg then known else {}
    case _ => known
  }

  ghost function Known(a: Account, events: seq<Event>): set<int>
    requires After(a, events).Ok?
    decreases |events|
  {
    if events == [] then {} else KnownNext(After(a, events[..|events| - 1]).value, Known(a, events[..|events| - 1]),
      events[|events| - 1])
  }

  // ---- which events raise -----------------------------------------------------------------------

  /** The step cannot be trained on whatever the slots: row counts or metadata do not match, or there
      is no hidden size or no row to size the pipeline by. */
  ghost predicate Malformed(a: Account, b: Batch) {
    || |b.src| != |b.tgt| || b.meta.None? || (b.lease && b.meta.value.requests != |b.src|) || Hidden(b) == 0
    || (a.scratch == 0 && (b.src == [] || (Compacts(a.table.cfg, b) && Carried(BatchPrompts(b)) == {})))
  }

  predicate Compacts(cfg: Config, b: Batch) { cfg.perBank && b.meta.Some? && !b.meta.value.firstPerPrompt }

  /** The first check that fails. */
  ghost predicate WhyNot(b: Batch, why: Reason) {
    if |b.src| != |b.tgt| then why == RowCounts
    else if b.meta.None? then why == NotRowBatchMeta
    else if b.lease && b.meta.value.requests != |b.src| then why == LeaseRows
    else if b.width == 0 == b.modelHidden then why == NoHidden
    else why == NoRows
  }

  lemma {:induction false} WantsExactly(a: Account, b: Batch)
    ensures Wants(a, b).Err? <==> Malformed(a, b)
    ensures Hidden(b) == 0 <==> b.width == 0 == b.modelHidden
    ensures Wants(a, b).Err? ==> WhyNot(b, Wants(a, b).error)
  {
    if ExtractRows(b).Ok? {
      var prompts := BatchPrompts(b);
      FirstRowsCount(prompts, |prompts|);
    }
  }

  /** The prompt of row i; rows behind the last given prompt have none. */
  function PromptAt(b: Batch, i: nat): int {
    if b.meta.Some? && i < |b.meta.value.prompts| then b.meta.value.prompts[i] else -1
  }

  /** The rows of a batch that are trained on: in bank mode, unless delivery already kept one row a prompt,
      the first row of every known prompt, otherwise all. */
  ghost predicate IsTrained(cfg: Config, b: Batch, i: int) {
    && 0 <= i < |b.src|
    && (cfg.perBank && b.meta.Some? && !b.meta.value.firstPerPrompt ==>
          PromptAt(b, i) >= 0 && forall q: nat :: q < i ==> PromptAt(b, q) != PromptAt(b, i))
  }

  /** A trainable batch is trained on exactly those rows, in order, each with its own target and prompt, in a
      pipeline of at least as many rows; the rows fit it exactly when source and target are equally wide
      and no narrower than the model. */
  lemma {:induction false} TrainedRowsExactly(a: Account, b: Batch) returns (pos: seq<int>)
    requires Wants(a, b).Ok?
    ensures StrictlyIncreasing(pos) && forall i :: i in pos <==> IsTrained(a.table.cfg, b, i)
    ensures var (s, rows) := Wants(a, b).value;
      && |s.src| == |s.tgt| == |s.prompts| == |pos| && |b.src| == |b.tgt|
      && (forall k :: 0 <= k < |pos| ==>
            && 0 <= pos[k] < |b.src| && s.src[k] == b.src[pos[k]] && s.tgt[k] == b.tgt[pos[k]]
            && s.prompts[k] == PromptAt(b, pos[k]))
      && (rows == a.scratch >= |pos| || rows == |pos| > a.scratch)
    ensures Misfits(b) <==> !(b.tgtWidth == b.width >= b.modelHidden)
  {
    var prompts := ExtractRows(b).value.prompts;
    var n := |prompts|;
    assert forall i :: 0 <= i < n ==> prompts[i] == PromptAt(b, i);
    if Compacts(a.table.cfg, b) {
      pos := FirstRows(prompts, n);
      FirstRowsMeaning(prompts, n);
      assert forall i :: 0 <= i < n ==> (IsFirst(prompts, i) <==> IsTrained(a.table.cfg, b, i));
    } else {
      pos := Arange(n);
      forall i ensures i in pos <==> 0 <= i < n {
        if 0 <= i < n { assert pos[i] == i; }
      }
    }
  }

  /** Known and new prompts are more than the bank has slots. */
  ghost predicate Overflows(cfg: Config, known: set<int>, prompts: seq<int>) {
    |known + Carried(prompts)| > Wanted(cfg)
  }

  /** Some row has no prompt, and nothing drops it before it trains. */
  ghost predicate Unprompted(cfg: Config, b: Batch) {
    && b.meta.Some? && !Compacts(cfg, b)
    && exists r :: 0 <= r < |b.src| && BatchPrompts(b)[r] < 0
  }

  /** What a caller can check before a step: whether it raises when training is on. */
  ghost predicate StepRefused(a: Account, known: set<int>, b: Batch) {
    || Malformed(a, b) || Misfits(b) || (a.table.cfg.perRequest && Unprompted(a.table.cfg, b))
    || (UsingBank(a.table) && Overflows(a.table.cfg, KnownAt(a, known, b), BatchPrompts(b)))
  }

  ghost predicate Refuses(a: Account, known: set<int>, e: Event) {
    match e
    case Delivered(b, _, _) => a.on && StepRefused(a, known, b)
    case Silent =>
      a.on && (a.table.pipeline.None? || (a.table.cfg.streamMode != Pipeline.Serial && !a.streamed))
    case Sampling(prompts) => UsingBank(a.table) && a.table.hidden > 0 && Overflows(a.table.cfg, known, prompts)
    case _ => false
  }

  function Keys(a: Account): set<int> { a.table.slots.byPrompt.Keys }

  lemma {:induction false} WantedPrompts(a: Account, b: Batch)
    requires Wants(a, b).Ok?
    ensures var s, cfg := Wants(a, b).value.0, a.table.cfg;
      && PromptSet(s.prompts, |s.prompts|) == Carried(BatchPrompts(b))
      && (Missing(s.prompts, |s.prompts|) <==> Unprompted(cfg, b))
  {
    var x := ExtractRows(b).value;
    assert x.prompts == BatchPrompts(b);
    CompactedPrompts(a.table.cfg, b.meta.value.firstPerPrompt, x);
  }

  lemma {:induction false} FitsExactly(t: Table, known: set<int>, prompts: seq<int>, all: seq<int>)
    requires t.slots.byPrompt.Keys == known && Capacity(t) == Wanted(t.cfg)
    requires PromptSet(prompts, |prompts|) == Carried(all)
    ensures Fits(t, prompts, |prompts|) <==> !Overflows(t.cfg, known, all)
  {
  }

  lemma {:induction false} StepExactly(a: Account, b: Batch, f: Forward)
    requires Sound(a)
    ensures var r := TrainedStep(a, b, f);
      && (r.Err? <==> StepRefused(a, Keys(a), b))
      && (r.Ok? ==> Sound(r.value))
      && (r.Ok? ==> Keys(r.value) == KnownAt(a, Keys(a), b) + if UsingBank(a.table) then Carried(BatchPrompts(b))
        else {})
  {
    hide Coherent, PromptSet, TrainRows, BatchPrompts, Forgets, Malformed, Unprompted, Fits, Overflows, Missing;
    WantsExactly(a, b);
    if Wants(a, b).Ok? && !Misfits(b) {
      var (s, rows) := Wants(a, b).value;
      EnsuredMeaning(a, b, rows);
      WantedPrompts(a, b);
      var t := Ensured(a, b, rows);
      TrainExactly(t, f, s.src, s.tgt, s.prompts);
      FitsExactly(t, KnownAt(a, Keys(a), b), s.prompts, BatchPrompts(b));
      var (t', r) := TrainRows(t, f, s.src, s.tgt, s.prompts);
      if r.Ok? {
        assert Keys(TrainedStep(a, b, f).value) == t'.slots.byPrompt.Keys;
        assert ShapeKept(t');
        assert TrainedStep(a, b, f).value.losses == 0 ==> TrainedStep(a, b, f).value.lossSum == 0.0;
      }
    }
  }

  lemma {:induction false} SamplingExactly(a: Account, prompts: seq<int>)
    requires Sound(a)
    ensures var r := Next(a, Sampling(prompts));
      && (r.Err? <==> UsingBank(a.table) && a.table.hidden > 0 && Overflows(a.table.cfg, Keys(a), prompts))
      && (r.Ok? ==> Sound(r.value) && Keys(r.value) == Keys(a) + Preassigned(a, prompts))
  {
    hide Bijection, DenseSound, CacheOk, Fits, PromptSet, AssignAll, EnsureStorage;
    AssignForSamplingCoherent(a.table, prompts);
    if UsingBank(a.table) {
      AssignForSamplingExactly(a.table, prompts);
      FitsExactly(a.table, Keys(a), prompts, prompts);
      var (t, r) := AssignForSampling(a.table, prompts);
      assert r.Ok? ==> Next(a, Sampling(prompts)).value.table == t;
    }
  }

  /** The settings are stored, counts of zero as one; slots are kept exactly when no setting changed. */
  ghost predicate Configured(a: Account, on: bool, cfg: Config, scratch: nat, next: Account) {
    && next.on == on && next.scratch == scratch
    && next.table.cfg == cfg.(pipelineSlots := if cfg.pipelineSlots == 0 then 1 else cfg.pipelineSlots,
                              flush := if cfg.flush == 0 then 1 else cfg.flush)
    && Keys(next) == if next.table.cfg == a.table.cfg then Keys(a) else {}
  }

  lemma {:induction false} ConfigureExactly(a: Account, cfg: Config)
    requires Sound(a)
    ensures var t := SlotTable.Configure(a.table, Normal(cfg));
      && Coherent(t) && ShapeKept(t) && t.cfg.pipelineSlots > 0
      && t.slots.byPrompt.Keys == if Normal(cfg) == a.table.cfg then Keys(a) else {}
    ensures forall on, scratch :: Next(a, Configure(on, cfg, scratch)).Ok?
    ensures forall on, scratch ::
      Configured(a, on, cfg, scratch, Next(a, Configure(on, cfg, scratch)).value)
  {
    hide Bijection, DenseSound, CacheOk;
    ConfigureCoherent(a.table, Normal(cfg));
    ConfigureFrame(a.table, Normal(cfg));
    var c := a.table.cfg;
    if Normal(cfg) != c && Normal(cfg).(flush := 0) == c.(flush := 0) {
      assert Normal(cfg) == c.(flush := Normal(cfg).flush);
    }
  }

  /** Every event raises exactly when the caller's test says so, keeps the account sound, and gives
      slots to exactly the prompts of KnownNext. */
  lemma {:induction false} NextExactly(a: Account, e: Event)
    requires Sound(a)
    ensures Next(a, e).Err? <==> Refuses(a, Keys(a), e)
    ensures Next(a, e).Ok? ==> Sound(Next(a, e).value) && Keys(Next(a, e).value) == KnownNext(a, Keys(a), e)
  {
    hide Coherent, TrainedStep, StepRefused, KnownAt, Overflows, AssignForSampling, SlotTable.Configure, PromptSet;
    match e
    case Delivered(b, f, _) => StepExactly(a, b, f);
    case Sampling(prompts) => SamplingExactly(a, prompts);
    case Configure(_, cfg, _) => ConfigureExactly(a, cfg);
    case _ =>
  }

  /** Over every run: slots belong to exactly the prompts seen since they were last forgotten. */
  lemma {:induction false} KnownExactly(a: Account, events: seq<Event>)
    requires Sound(a) && Keys(a) == {} && After(a, events).Ok?
    ensures Sound(After(a, events).value) && Keys(After(a, events).value) == Known(a, events)
    decreases |events|
  {
    hide Sound, Keys, Next, KnownNext;
    if events != [] {
      var n := |events| - 1;
      KnownExactly(a, events[..n]);
      NextExactly(After(a, events[..n]).value, events[n]);
    }
  }

  lemma {:induction false} StartSound(cfg: Config, device: int, scratch: nat)
    ensures Sound(Start(cfg, device, scratch)) && Keys(Start(cfg, device, scratch)) == {}
  {
  }

  /** The run gets to event k, and event k raises by the caller's test. */
  ghost predicate RaisesAt(a: Account, events: seq<Event>, k: nat) {
    && k < |events| && After(a, events[..k]).Ok?
    && Refuses(After(a, events[..k]).value, Known(a, events[..k]), events[k])
  }

  /** For every list of events: the run raises if and only if some event is refused: a malformed step,
      a row without the prompt its mode trains by, or more distinct prompts since the slots were last
      forgotten than the bank has. */
  lemma {:induction false} RaisesExactly(a: Account, events: seq<Event>)
    requires Sound(a) && Keys(a) == {}
    ensures After(a, events).Err? <==> exists k: nat :: RaisesAt(a, events, k)
    decreases |events|
  {
    hide Sound, Keys, Next, Refuses;
    if events != [] {
      var n := |events| - 1;
      RaisesExactly(a, events[..n]);
      forall k: nat
        ensures RaisesAt(a, events, k) <==> RaisesAt(a, events[..n], k) || (k == n && RaisesAt(a, events, n))
      {
        if k < n { assert events[..n][..k] == events[..k]; }
      }
      if After(a, events[..n]).Ok? {
        KnownExactly(a, events[..n]);
        NextExactly(After(a, events[..n]).value, events[n]);
        assert After(a, events).Err? <==> RaisesAt(a, events, n);
      }
    }
  }

  // ---- the counters -------------------------------------------------------------------------------

  /** What an event adds to loss_sum and loss_count, whatever they were. */
  ghost function Adds(a: Account, e: Event): Trained
    requires Next(a, e).Ok?
  {
    if e.Delivered? && a.on then
      var (s, rows) := Wants(a, e.b).value;
      TrainRows(Ensured(a, e.b, rows), e.f, s.src, s.tgt, s.prompts).1.value
    else Trained(0.0, 0)
  }

  /** A step counts one in shared mode, its distinct prompts otherwise. */
  lemma {:induction false} AddsExactly(a: Account, e: Event)
    requires Sound(a) && Next(a, e).Ok? && e.Delivered? && a.on
    ensures var prompts := Carried(BatchPrompts(e.b));
      Adds(a, e).count ==
        if a.table.cfg.perRequest then |prompts|
        else if Compacts(a.table.cfg, e.b) then if prompts == {} then 0 else 1
        else if e.b.src == [] then 0 else 1
  {
    hide Coherent, TrainRows, BatchPrompts, Forgets;
    var b := e.b;
    var (s, rows) := Wants(a, b).value;
    EnsuredMeaning(a, b, rows);
    WantedPrompts(a, b);
    TrainExactly(Ensured(a, b, rows), e.f, s.src, s.tgt, s.prompts);
    FirstRowsCount(BatchPrompts(b), |BatchPrompts(b)|);
    assert ExtractRows(b).value.prompts == BatchPrompts(b) by { PaddedIs(b); }
  }

  /** The loss a step adds is that of its trained rows, in the bank under the models of the slots that the
      prompts then have. */
  lemma {:induction false} AddsLossExactly(a: Account, e: Event)
    requires Sound(a) && Next(a, e).Ok? && e.Delivered? && a.on
    ensures var s := Wants(a, e.b).value.0;
      IsLoss(a.table.cfg, Next(a, e).value.table.slots.byPrompt, e.f, s.src, s.tgt, s.prompts, Hidden(e.b),
             Adds(a, e).loss)
  {
    hide Coherent, TrainRows, BatchPrompts, Forgets, IsLoss, Wants, ShapeKept;
    var b := e.b;
    var (s, rows) := Wants(a, b).value;
    EnsuredMeaning(a, b, rows);
    EnsuredHidden(a, b, rows);
    TrainLossExactly(Ensured(a, b, rows), e.f, s.src, s.tgt, s.prompts);
  }

  lemma {:induction false} EnsuredHidden(a: Account, b: Batch, rows: nat)
    requires Hidden(b) > 0
    ensures Ensured(a, b, rows).hidden == Hidden(b)
  {
  }

  lemma {:induction false} PaddedIs(b: Batch)
    requires ExtractRows(b).Ok?
    ensures ExtractRows(b).value.prompts == BatchPrompts(b)
  {
  }

  /** The step's launch reallocates the pipeline, and with it the counters. */
  predicate Clears(a: Account, e: Event) {
    e.Delivered? && a.on && Wants(a, e.b).Ok? && Reshapes(a, e.b, Wants(a, e.b).value.1)
  }

  /** Since the last read: what the steps added, and whether a launch cleared a counter that had
      something to lose. */
  datatype Tally = Tally(sum: Trained, lost: bool)

  ghost function TallyNext(y: Tally, a: Account, e: Event): Tally
    requires Next(a, e).Ok?
  {
    if e.ReadStats? then Tally(Trained(0.0, 0), false)
    else
      var x := Adds(a, e);
      Tally(Trained(y.sum.loss + x.loss, y.sum.count + x.count), y.lost || (Clears(a, e) && a.losses > 0))
  }

  ghost function Tallied(a: Account, events: seq<Event>): Tally
    requires After(a, events).Ok?
    decreases |events|
  {
    if events == [] then Tally(Trained(0.0, 0), false)
    else
      var n := |events| - 1;
      TallyNext(Tallied(a, events[..n]), After(a, events[..n]).value, events[n])
  }

  /** The counters after one event. */
  lemma {:induction false} NextCounters(a: Account, e: Event)
    requires Sound(a) && Next(a, e).Ok? && !e.ReadStats?
    ensures var a', x := Next(a, e).value, Adds(a, e);
      && a'.losses == (if Clears(a, e) then 0 else a.losses) + x.count
      && a'.lossSum == (if Clears(a, e) then 0.0 else a.lossSum) + x.loss
      && a'.launched == a.launched + (if e.Delivered? && a.on then [Wants(a, e.b).value.0.src] else [])
      && (e.Delivered? && a.on ==> (a'.streamed <==> a.table.cfg.streamMode != Pipeline.Serial))
      && (!(e.Delivered? && a.on) ==> a'.streamed == a.streamed)
  {
    hide Coherent, TrainRows, Forgets, Reshapes;
    if e.Delivered? && a.on {
      EnsuredMeaning(a, e.b, Wants(a, e.b).value.1);
    }
  }

  /** For every run without a raise, with toggles, reconfigurations and pre-assignments anywhere: the
      counter is the sum over the steps trained since the last read if and only if none of them
      reallocated the pipeline while the counter was not zero; loss_sum is then the sum as well. */
  lemma {:induction false} CounterExactly(a: Account, events: seq<Event>)
    requires Sound(a) && Keys(a) == {} && a.losses == 0 && After(a, events).Ok?
    ensures var a', y := After(a, events).value, Tallied(a, events);
      && a'.losses <= y.sum.count
      && (a'.losses == y.sum.count <==> !y.lost)
      && (!y.lost ==> a'.lossSum == y.sum.loss)
    decreases |events|
  {
    hide Keys, Next, Adds, Clears, Coherent, ShapeKept;
    if events != [] {
      var n := |events| - 1;
      CounterExactly(a, events[..n]);
      KnownExactly(a, events[..n]);
      var before := After(a, events[..n]).value;
      if events[n].ReadStats? { ReadClears(before); } else { NextCounters(before, events[n]); }
    }
  }

  lemma {:induction false} ReadClears(a: Account)
    ensures Next(a, ReadStats) == Ok(a.(losses := 0, lossSum := 0.0))
  {
  }

  // ---- from a new consumer -------------------------------------------------------------------------

  /** The counters say what the steps since the last read added, up to what was lost. */
  ghost predicate Tells(losses: nat, lossSum: real, y: Tally) {
    losses <= y.sum.count && (losses == y.sum.count <==> !y.lost) && (!y.lost ==> lossSum == y.sum.loss)
  }

  /** A run of a new consumer that handled its first events and raised at the next one, if there is one:
      which events raise, which prompts have slots, and what the counters say. */
  lemma {:induction false} RunMeaning(cfg: Config, device: int, scratch: nat, events: seq<Event>, handled: nat)
    requires handled <= |events| && After(Start(cfg, device, scratch), events[..handled]).Ok?
    requires handled < |events| ==>
      Next(After(Start(cfg, device, scratch), events[..handled]).value, events[handled]).Err?
    ensures var a := Start(cfg, device, scratch);
      && (handled < |events| <==> exists k: nat :: RaisesAt(a, events, k))
      && (handled < |events| ==> RaisesAt(a, events, handled))
      && (handled == |events| ==>
            && After(a, events).Ok? && Keys(After(a, events).value) == Known(a, events)
            && Tells(After(a, events).value.losses, After(a, events).value.lossSum, Tallied(a, events)))
  {
    hide Sound, Keys, Next, Refuses, Start, Known, Tallied;
    var a := Start(cfg, device, scratch);
    StartSound(cfg, device, scratch);
    KnownExactly(a, events[..handled]);
    if handled < |events| {
      NextExactly(After(a, events[..handled]).value, events[handled]);
      assert RaisesAt(a, events, handled);
    } else {
      assert events[..handled] == events;
      RaisesExactly(a, events);
      StartsAtZero(cfg, device, scratch);
      CounterExactly(a, events);
    }
  }

  lemma {:induction false} StartsAtZero(cfg: Config, device: int, scratch: nat)
    ensures Start(cfg, device, scratch).losses == 0
  {
  }
}
