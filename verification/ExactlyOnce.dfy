/** The ESamp consumer over whole runs: every launched step trains once, until a step raises, and the
    loss counters say what was trained since they were last cleared. */
module ExactlyOnce {
  import opened Common
  import opened DeviceQueue
  import opened ConsumerRuns
  import Rows
  import SlotTable
  import Spec = TrainPipeline
  import TrainEngine
  import opened TrainStep
  import opened Losses

  // ---- trainings in the log ----------------------------------------------------------------

  /** Trainings of batch b among the enqueued operations. */
  function TrainsOf(ops: seq<Op>, b: nat): nat {
    if ops == [] then 0
    else
      var a := ops[|ops| - 1].action;
      TrainsOf(ops[..|ops| - 1], b) + if a.Train? && a.batch == b then 1 else 0
  }

  lemma {:induction false} TrainsOfAppend(ops: seq<Op>, more: seq<Op>, b: nat)
    ensures TrainsOf(ops + more, b) == TrainsOf(ops, b) + TrainsOf(more, b)
  {
    if more == [] {
      assert ops + more == ops;
    } else {
      TrainsOfAppend(ops, more[..|more| - 1], b);
      assert (ops + more)[..|ops + more| - 1] == ops + more[..|more| - 1];
    }
  }

  lemma {:induction false} NoTrains(ops: seq<Op>, b: nat)
    requires forall i :: 0 <= i < |ops| ==> !ops[i].action.Train?
    ensures TrainsOf(ops, b) == 0
  {
    if ops != [] { NoTrains(ops[..|ops| - 1], b); }
  }

  lemma {:induction false} TrainOpsTrainOnce(h: Spec.Host, stream: nat, q: Spec.Queued, b: nat)
    requires |h.srcs| > 0
    ensures TrainsOf(Spec.TrainOps(h, stream, q), b) == if b == |h.srcs| - 1 then 1 else 0
  {
    var ops := Spec.TrainOps(h, stream, q);
    NoTrains(ops[..2], b);
    NoTrains(ops[3..], b);
    assert ops == ops[..2] + [ops[2]] + ops[3..];
    assert [ops[2]][..0] == [];
    TrainsOfAppend(ops[..2], [ops[2]], b);
    TrainsOfAppend(ops[..2] + [ops[2]], ops[3..], b);
  }

  /** Between steps: nothing in flight, streams fit the mode, every launched batch trained once. */
  ghost predicate Settled(h: Spec.Host) {
    h.slots > 0 && !Spec.Busy(h) && (h.mode == Spec.Serial <==> h.streams.train.None?) && Once(h.ops, |h.srcs|)
  }

  ghost predicate Once(ops: seq<Op>, launched: nat) {
    forall b: nat :: TrainsOf(ops, b) == if b < launched then 1 else 0
  }

  lemma {:induction false} OneMore(ops: seq<Op>, launch: seq<Op>, train: seq<Op>, n: nat)
    requires Once(ops, n) && (forall i :: 0 <= i < |launch| ==> !launch[i].action.Train?)
    requires forall b: nat :: TrainsOf(train, b) == if b == n then 1 else 0
    ensures Once(ops + launch + train, n + 1)
  {
    forall b: nat ensures TrainsOf(ops + launch + train, b) == if b < n + 1 then 1 else 0 {
      TrainsOfAppend(ops, launch, b);
      TrainsOfAppend(ops + launch, train, b);
      NoTrains(launch, b);
    }
  }

  /** The host after a step was launched and ended. */
  function StepAndEnd(h: Spec.Host, src: seq<Row>, tgt: seq<Row>, prompts: seq<int>): Spec.Host
    requires h.slots > 0
  {
    Spec.LaunchDelayedBackward(Spec.LaunchStep(h, src, tgt).0, |src|, prompts).0
  }

  /** Launching a step and ending it: no error, one more batch, trained once. */
  lemma {:induction false} StepSettles(h: Spec.Host, src: seq<Row>, tgt: seq<Row>, prompts: seq<int>)
    requires Settled(h) && |src| == |tgt|
    ensures Spec.LaunchStep(h, src, tgt).1 == Spec.Fine
    ensures Spec.LaunchDelayedBackward(Spec.LaunchStep(h, src, tgt).0, |src|, prompts).1 == Spec.Fine
    ensures Settled(StepAndEnd(h, src, tgt, prompts))
    ensures StepAndEnd(h, src, tgt, prompts).srcs == if h.enabled then h.srcs + [src] else h.srcs
    ensures StepAndEnd(h, src, tgt, prompts).enabled == h.enabled && StepAndEnd(h, src, tgt, prompts).slots == h.slots
    ensures StepAndEnd(h, src, tgt, prompts).layout == h.layout && StepAndEnd(h, src, tgt, prompts).mode == h.mode
  {
    if h.enabled {
      var h1 := Spec.LaunchStep(h, src, tgt).0;
      var stream := if h.mode == Spec.Serial then Spec.MAIN else h.streams.train.value;
      var q := Spec.Queued(h1.ready.value, |src|, prompts);
      var queued := h1.(pending := [q], ready := None);
      assert h1.pending + [q] == queued.pending;
      var trained := Spec.TrainHead(queued, stream);
      assert Spec.Drain(queued, stream) == Spec.Drain(trained, stream) == trained;
      var launch := h1.ops[|h.ops|..];
      assert h1.ops == h.ops + launch;
      forall b: nat
        ensures TrainsOf(Spec.TrainOps(queued, stream, q), b) == if b == |h.srcs| then 1 else 0
      {
        TrainOpsTrainOnce(queued, stream, q, b);
      }
      OneMore(h.ops, launch, Spec.TrainOps(queued, stream, q), |h.srcs|);
    }
  }

  lemma {:induction false} IdleEnd(h: Spec.Host)
    requires Settled(h)
    ensures Spec.LaunchDelayedBackward(h, 0, []) == (h, Spec.Fine)
  {
  }

  /** The training raised: the batch was launched and waited for, and has no training in the log. */
  lemma {:induction false} FailedStep(h: Spec.Host, src: seq<Row>, tgt: seq<Row>, prompts: seq<int>)
    requires Settled(h) && h.enabled && |src| == |tgt|
    ensures var h1 := Spec.LaunchStep(h, src, tgt).0;
      && Spec.LaunchStep(h, src, tgt).1 == Spec.Fine && h1.ready.Some? && h1.pending == []
      && var h2 := Spec.FailedBackward(h1, |src|, prompts);
      && h2.srcs == h.srcs + [src] && !Spec.Busy(h2) && Once(h2.ops, |h.srcs|)
      && h2.events == h1.events
  {
    var h1 := Spec.LaunchStep(h, src, tgt).0;
    var h2 := Spec.FailedBackward(h1, |src|, prompts);
    var more := h2.ops[|h.ops|..];
    assert h2.ops == h.ops + more;
    forall b: nat ensures TrainsOf(h2.ops, b) == if b < |h.srcs| then 1 else 0 {
      NoTrains(more, b);
      TrainsOfAppend(h.ops, more, b);
    }
  }

  // ---- the consumer -------------------------------------------------------------------------

  class Consumer {
    const engine: TrainEngine.Pipeline
    const trainer: StepTrainer
    var on: bool
    var scratchRows: nat
    /** _runtime_resource_key: what the resources were last ensured for. */
    var key: Option<Key>
    var lastActiveRows: int
    var lastPrompts: seq<int>
    var lossCount: nat
    var lossSum: real
    ghost var Repr: set<object>

    /** The engine's pipeline is the one the table and the buffers were made for. */
    ghost predicate SamePipeline()
      reads engine, trainer.table
    {
      match trainer.table.pipeline
      case None => engine.layout.rows == 0
      case Some(p) =>
        engine.slots == p.slots && engine.layout == Spec.Layout(p.rows, p.hidden, p.dtype, p.device) && p.rows > 0
    }

    /** While the key is cached, ensuring the resources again would change nothing. */
    ghost predicate KeyOk()
      reads this, engine, trainer.table
    {
      key.Some? ==>
        var l := key.value.layout;
        && engine.mode == trainer.table.cfg.streamMode
        && trainer.table.pipeline == Some(SlotTable.Shape(trainer.table.cfg.pipelineSlots, l.rows, l.hidden, l.dtype,
          l.device))
        && (trainer.table.cfg.perRequest && trainer.table.cfg.perBank ==> trainer.table.bank.Some?)
    }

    ghost predicate Owned()
      reads this, Repr
    {
      && {this, engine, trainer} <= Repr && trainer.Repr <= Repr && this !in trainer.Repr && engine !in trainer.Repr
    }

    ghost predicate Valid()
      reads this, Repr
    {
      && Owned() && trainer.Valid() && trainer.table in trainer.Repr
      && SamePipeline() && KeyOk()
      && Settled(engine.View()) && engine.enabled == on && lastActiveRows == 0 && lastPrompts == []
    }

    ghost function View(): Account
      reads this, Repr
      requires Valid()
    {
      Account(on, scratchRows, engine.streams.train.Some?, trainer.table.View(), engine.srcs, lossCount, lossSum)
    }

    constructor (cfg: SlotTable.Config, device: int, scratch: nat)
      ensures Valid() && fresh(Repr) && View() == Start(cfg, device, scratch)
    {
      engine := new TrainEngine.Pipeline(cfg.streamMode, 1, Spec.Layout(0, 0, 0, 0));
      trainer := new StepTrainer(Normal(cfg), device);
      on, scratchRows, key := true, scratch, None;
      lastActiveRows, lastPrompts, lossCount, lossSum := 0, [], 0, 0.0;
      new;
      trainer.ValidTable();
      Repr := {this, engine, trainer} + trainer.Repr;
    }

    lemma {:induction false} Table()
      requires Valid()
      ensures var t := trainer.table.View();
        && SlotTable.Coherent(t) && ShapeKept(t) && t.cfg.pipelineSlots > 0
        && (trainer.buffers != null <==> t.pipeline.Some?)
    {
      trainer.ValidTable();
    }

    /** What ensuring the resources does to the table and the counters. */
    ghost predicate Refreshed(t: SlotTable.Table, layout: Spec.Layout, count: nat, sum: real)
      requires layout.hidden > 0
      reads this, trainer.table, trainer.table.dense
    {
      && trainer.table.View() == SlotTable.EnsureResources(t, layout.device, layout.rows, layout.hidden, layout.dtype)
      && var kept := trainer.table.pipeline == t.pipeline;
         lossCount == (if kept then count else 0) && lossSum == if kept then sum else 0.0
    }

    /** ensure_resources, all but the streams and events: a pipeline of another shape starts with new
        counters. */
    method RefreshTrainer(layout: Spec.Layout)
      requires Valid() && layout.hidden > 0 && layout.rows > 0
      modifies trainer.Repr, this`Repr, this`lossCount, this`lossSum
      ensures Owned() && trainer.Valid() && trainer.table in trainer.Repr && fresh(Repr - old(Repr))
      ensures Refreshed(old(trainer.table.View()), layout, old(lossCount), old(lossSum))
    {
      hide Settled, StepTrainer.Valid, SlotTable.EnsureResources, SlotTable.Coherent;
      ghost var t := trainer.table.View();
      Table();
      EnsureResourcesFrame(t, layout.device, layout.rows, layout.hidden, layout.dtype);
      var was := trainer.table.pipeline;
      trainer.EnsureResources(layout.device, layout.rows, layout.hidden, layout.dtype);
      trainer.ValidTable();
      if trainer.table.pipeline != was { lossCount, lossSum := 0, 0.0; }
      Repr := Repr + trainer.Repr;
    }

    /** ensure_resources: streams and events as well. */
    method RefreshResources(model: int, layout: Spec.Layout)
      requires Valid() && layout.hidden > 0 && layout.rows > 0
      modifies Repr
      ensures Valid() && fresh(Repr - old(Repr)) && Kept(old(engine.View()), old(on), old(scratchRows))
      ensures engine.layout == layout && engine.mode == trainer.table.cfg.streamMode
      ensures Refreshed(old(trainer.table.View()), layout, old(lossCount), old(lossSum))
    {
      hide Settled, StepTrainer.Valid, SlotTable.EnsureResources, SlotTable.Coherent, Spec.EnsureResources;
      ghost var t := trainer.table.View();
      Table();
      EnsureResourcesFrame(t, layout.device, layout.rows, layout.hidden, layout.dtype);
      SlotTable.EnsureResourcesCoherent(t, layout.device, layout.rows, layout.hidden, layout.dtype);
      EnsureSettles(engine.View(), trainer.table.cfg.streamMode, trainer.table.cfg.pipelineSlots, layout);
      RefreshTrainer(layout);
      engine.EnsureResources(trainer.table.cfg.streamMode, trainer.table.cfg.pipelineSlots, layout);
      key := Some(Key(model, layout));
    }

    /** Resources come and go without touching what was enqueued. */
    ghost predicate Kept(h: Spec.Host, wasOn: bool, scratch: nat)
      reads this, engine
    {
      engine.srcs == h.srcs && engine.ops == h.ops && on == wasOn && scratchRows == scratch
    }

    /** _ensure_runtime_resources before a launch: skipped while the cached key is the wanted one. */
    method EnsureResources(model: int, layout: Spec.Layout)
      requires Valid() && layout.hidden > 0 && layout.rows > 0
      modifies Repr
      ensures Valid() && fresh(Repr - old(Repr)) && Kept(old(engine.View()), old(on), old(scratchRows))
      ensures engine.layout == layout && trainer.buffers != null && engine.mode == trainer.table.cfg.streamMode
      ensures Refreshed(old(trainer.table.View()), layout, old(lossCount), old(lossSum))
    {
      hide Settled, StepTrainer.Valid, SlotTable.EnsureResources, SlotTable.Coherent;
      ghost var t := trainer.table.View();
      Table();
      EnsureResourcesFrame(t, layout.device, layout.rows, layout.hidden, layout.dtype);
      if key == Some(Key(model, layout)) {
        EnsureAgain(t, layout.device, layout.rows, layout.hidden, layout.dtype);
      } else {
        RefreshResources(model, layout);
        Table();
      }
    }

    /** The slot that the launch will fill, and its room. */
    lemma {:induction false} NextSlot()
      requires Valid() && trainer.buffers != null
      ensures var k := Spec.Wrap(engine.nextPipelineSlot, engine.slots);
        && k < |trainer.buffers.data.slots| && trainer.buffers.data.rows == engine.layout.rows
        && trainer.table.hidden > 0
    {
      trainer.HasHidden();
    }

    /** After a training raised: the step is launched, gone from the queue, and neither trained nor counted. */
    ghost predicate Lost(launched: seq<seq<Row>>, src: seq<Row>, count: nat, sum: real)
      reads this, engine
    {
      && engine.srcs == launched + [src] && Once(engine.ops, |launched|) && !Spec.Busy(engine.View())
      && lossCount == count && lossSum == sum
    }

    /** A step in flight: h is the host before its launch. */
    ghost predicate InFlight(h: Spec.Host, x: Extract)
      reads this, Repr
    {
      && Owned() && trainer.Valid() && trainer.table in trainer.Repr && SamePipeline() && KeyOk()
      && Settled(h) && h.enabled && on && |x.src| == |x.tgt| == |x.prompts|
      && engine.View() == Spec.LaunchStep(h, x.src, x.tgt).0 && engine.readyStepSlot.Some?
      && lastActiveRows == |x.src| && lastPrompts == x.prompts
      && trainer.buffers != null && engine.readyStepSlot.value < |trainer.buffers.data.slots|
    }

    /** launch_step: the rows are in the slot. */
    method LaunchRows(x: Extract)
      requires Valid() && on && trainer.buffers != null && |x.src| == |x.tgt| == |x.prompts| <= engine.layout.rows
      modifies Repr
      ensures Repr == old(Repr) && trainer.Repr == old(trainer.Repr) && InFlight(old(engine.View()), x)
      ensures trainer.table.View() == old(trainer.table.View())
      ensures trainer.Loaded(engine.readyStepSlot.value, x.src, x.tgt)
      ensures scratchRows == old(scratchRows) && lossCount == old(lossCount) && lossSum == old(lossSum)
    {
      hide Settled, StepTrainer.Valid, SlotTable.Coherent, TrainRows, Spec.LaunchStep, Once;
      ghost var h := engine.View();
      NextSlot();
      LaunchedSlot(h, x.src, x.tgt);
      StepSettles(h, x.src, x.tgt, x.prompts);
      lastActiveRows, lastPrompts := |x.src|, x.prompts;
      var st := engine.LaunchStep(x.src, x.tgt);
      trainer.CopyIn(engine.readyStepSlot.value, x.src, x.tgt);
    }

    /** _train_slot on the slot that was launched. */
    method TrainLaunched(ghost h: Spec.Host, ghost x: Extract, f: Forward, run: GraphRun)
      returns (r: Result<Trained, SlotTable.Error>)
      requires InFlight(h, x) && trainer.Loaded(engine.readyStepSlot.value, x.src, x.tgt)
      requires SlotTable.UsingBank(trainer.table.View()) ==> trainer.table.bank.Some?
      modifies trainer.Repr, this`Repr
      ensures InFlight(h, x) && fresh(Repr - old(Repr))
      ensures old(trainer.table.hidden) > 0
      ensures (trainer.table.View(), r) == TrainRows(old(trainer.table.View()), f, x.src, x.tgt, x.prompts)
    {
      hide Settled, StepTrainer.Valid, SlotTable.Coherent, TrainRows, Spec.LaunchStep;
      trainer.HasHidden();
      trainer.ValidTable();
      TrainExactly(trainer.table.View(), f, x.src, x.tgt, x.prompts);
      r := trainer.TrainSlot(engine.readyStepSlot.value, f, x.src, x.tgt, lastPrompts, run);
      trainer.ValidTable();
      Repr := Repr + trainer.Repr;
    }

    /** The rest of the drain after a training: it is recorded and counted. */
    method FinishStep(ghost h: Spec.Host, ghost x: Extract, t: Trained)
      requires InFlight(h, x)
      modifies this, engine
      ensures Valid() && Repr == old(Repr) && on && scratchRows == old(scratchRows)
      ensures trainer.table.View() == old(trainer.table.View())
      ensures engine.srcs == h.srcs + [x.src] && engine.mode == h.mode && lossCount == old(lossCount) + t.count
      ensures lossSum == old(lossSum) + t.loss
    {
      hide Settled, StepTrainer.Valid, Spec.LaunchStep, Spec.LaunchDelayedBackward, Once;
      StepSettles(h, x.src, x.tgt, x.prompts);
      LaunchedSlot(h, x.src, x.tgt);
      var st := engine.LaunchDelayedBackward(lastActiveRows, lastPrompts);
      assert engine.View() == StepAndEnd(h, x.src, x.tgt, x.prompts);
      lossCount, lossSum := lossCount + t.count, lossSum + t.loss;
      lastActiveRows, lastPrompts := 0, [];
    }

    /** The drain when the training raises. */
    method DropStep(ghost h: Spec.Host, ghost x: Extract)
      requires InFlight(h, x)
      modifies engine
      ensures Lost(h.srcs, x.src, lossCount, lossSum) && trainer.table.View() == old(trainer.table.View())
    {
      hide Settled, StepTrainer.Valid, Spec.LaunchStep, Spec.FailedBackward, Once;
      FailedStep(h, x.src, x.tgt, x.prompts);
      SettledSlots(h);
      engine.FailBackward(lastActiveRows, lastPrompts);
      assert engine.View() == Spec.FailedBackward(Spec.LaunchStep(h, x.src, x.tgt).0, |x.src|, x.prompts);
    }

    /** on_step_end: the drain takes the step off the queue and trains it. */
    method EndStep(ghost h: Spec.Host, ghost x: Extract, f: Forward, run: GraphRun)
      returns (r: Result<Trained, SlotTable.Error>)
      requires InFlight(h, x) && trainer.Loaded(engine.readyStepSlot.value, x.src, x.tgt)
      requires SlotTable.UsingBank(trainer.table.View()) ==> trainer.table.bank.Some?
      modifies Repr
      ensures old(trainer.table.hidden) > 0
      ensures (trainer.table.View(), r) == TrainRows(old(trainer.table.View()), f, x.src, x.tgt, x.prompts)
      ensures r.Ok? ==> Valid() && fresh(Repr - old(Repr)) && on && scratchRows == old(scratchRows)
      ensures r.Ok? ==> engine.srcs == h.srcs + [x.src] && engine.mode == h.mode
      ensures r.Ok? ==> lossCount == old(lossCount) + r.value.count && lossSum == old(lossSum) + r.value.loss
      ensures r.Err? ==> Lost(h.srcs, x.src, old(lossCount), old(lossSum))
    {
      hide Lost, TrainRows, SlotTable.UsingBank, Valid, SamePipeline, KeyOk, StepTrainer.Valid, Spec.LaunchStep,
           Settled;
      r := TrainLaunched(h, x, f, run);
      if r.Err? { DropStep(h, x); } else { FinishStep(h, x, r.value); }
    }

    /** _extract_training_rows and the compaction of consume_bundle */
    method WantedRows(b: Batch) returns (r: Result<(Extract, nat), Reason>)
      requires Valid()
      ensures r == Wants(View(), b)
    {
      var x := ExtractRows(b);
      if x.Err? { return Err(x.error); }
      var s := x.value;
      if trainer.table.cfg.perBank && !b.meta.value.firstPerPrompt {
        var ids := Rows.ScanFirstRows(s.prompts, |s.prompts|);
        s := Extract(Gather(s.src, ids), Gather(s.tgt, ids), Gather(s.prompts, ids));
      }
      if Hidden(b) == 0 { return Err(NoHidden); }
      var rows := Max(scratchRows, |s.src|);
      if rows == 0 { return Err(NoRows); }
      return Ok((s, rows));
    }

    /** A launch with wanted rows: resources, launch, step end. */
    method StepRows(b: Batch, x: Extract, rows: nat, f: Forward, run: GraphRun)
      returns (r: Result<Trained, SlotTable.Error>)
      requires Valid() && on && Hidden(b) > 0 && !Misfits(b) && |x.src| == |x.tgt| == |x.prompts| <= rows && rows > 0
      modifies Repr
      ensures Ensured(old(View()), b, rows).hidden > 0
      ensures (trainer.table.View(), r) == TrainRows(Ensured(old(View()), b, rows), f, x.src, x.tgt, x.prompts)
      ensures r.Ok? ==> Valid() && fresh(Repr - old(Repr))
      ensures r.Ok? ==> View() == Credited(old(View()), Ensured(old(View()), b, rows), trainer.table.View(), x, r.value)
      ensures r.Err? ==> Once(engine.ops, |old(engine.srcs)|) && engine.srcs == old(engine.srcs) + [x.src]
      ensures r.Err? ==> !Spec.Busy(engine.View()) && (lossCount == old(lossCount) || lossCount == 0)
    {
      hide Settled, Once, StepTrainer.Valid, SlotTable.Coherent, TrainRows, SlotTable.EnsureResources, SamePipeline,
           KeyOk, InFlight, Owned;
      ghost var t := trainer.table.View();
      Table();
      EnsureResourcesFrame(t, b.device, rows, Hidden(b), b.dtype);
      SlotTable.EnsureResourcesCoherent(t, b.device, rows, Hidden(b), b.dtype);
      EnsureResources(b.model, Spec.Layout(rows, Hidden(b), b.dtype, b.device));
      ghost var h := engine.View();
      LaunchRows(x);
      r := EndStep(h, x, f, run);
      if r.Ok? { SettledStreams(engine.View()); }
    }

    /** on_step_end when nothing was launched */
    method EndStepIdle() returns (raised: Option<Reason>)
      requires Valid()
      modifies Repr
      ensures Valid() && Repr == old(Repr) && View() == old(View())
      ensures EndIdle(View()) == if raised.None? then Ok(View()) else Err(raised.value)
    {
      hide Settled;
      if on && trainer.table.pipeline.None? { return Some(NoPipelineYet); }
      if on && trainer.table.cfg.streamMode != Spec.Serial && engine.streams.train.None? { return Some(NoTrainStream); }
      IdleEnd(engine.View());
      var st := engine.LaunchDelayedBackward(lastActiveRows, lastPrompts);
      return None;
    }

    /** A launch whose rows are not as wide as the pipeline it just ensured. */
    method LaunchMisfit(b: Batch, x: Extract, rows: nat)
      requires Valid() && on && Hidden(b) > 0 && rows > 0
      modifies Repr
      ensures Once(engine.ops, |old(engine.srcs)|) && engine.srcs == old(engine.srcs)
    {
      hide Settled, Once, StepTrainer.Valid, SlotTable.Coherent, SlotTable.EnsureResources, SamePipeline, KeyOk;
      EnsureResources(b.model, Spec.Layout(rows, Hidden(b), b.dtype, b.device));
      lastActiveRows, lastPrompts := |x.src|, x.prompts;
      SettledSlots(engine.View());
      FailedLaunchOnce(engine.View(), if b.width == Hidden(b) then Some(x.src) else None);
      engine.FailLaunch(if b.width == Hidden(b) then Some(x.src) else None);
    }

    /** consume_bundle, and the step end that the dispatcher calls right after it. */
    method Step(b: Batch, f: Forward, run: GraphRun) returns (raised: Option<Reason>)
      requires Valid()
      modifies Repr
      ensures raised.None? ==> Valid() && fresh(Repr - old(Repr))
      ensures raised.None? ==> Next(old(View()), Delivered(b, f, run)) == Ok(View())
      ensures raised.Some? ==> Next(old(View()), Delivered(b, f, run)) == Err(raised.value)
      ensures raised.Some? ==> Once(engine.ops, |old(engine.srcs)|)
    {
      hide Settled, Once, Wants, StepTrainer.Valid, SlotTable.Coherent, TrainRows, SlotTable.EnsureResources,
           SamePipeline, KeyOk, Credited;
      ValidOnce();
      if !on {
        raised := EndStepIdle();
        return;
      }
      var w := WantedRows(b);
      if w.Err? { return Some(w.error); }
      var (x, rows) := w.value;
      if Misfits(b) {
        LaunchMisfit(b, x, rows);
        return Some(WrongWidth);
      }
      var r := StepRows(b, x, rows, f, run);
      if r.Err? { return Some(Training(r.error)); }
      return None;
    }

    lemma {:induction false} ValidOnce()
      requires Valid()
      ensures Once(engine.ops, |engine.srcs|) && View().launched == engine.srcs
    {
    }

    method SetEnabled(enabled: bool)
      requires Valid()
      modifies Repr
      ensures Valid() && Repr == old(Repr) && Next(old(View()), Event.Toggle(enabled)) == Ok(View())
    {
      hide StepTrainer.Valid;
      ghost var h := engine.View();
      on := enabled;
      engine.enabled := enabled;
      assert engine.View() == h.(enabled := enabled);
    }

    /** configure: the cached key is dropped. */
    method ConfigureTrainer(cfg: SlotTable.Config)
      requires Valid()
      modifies Repr
      ensures Valid() && fresh(Repr - old(Repr))
      ensures View() == old(View()).(table := SlotTable.Configure(old(View()).table, Normal(cfg)))
    {
      hide StepTrainer.Valid, SlotTable.Configure, SlotTable.Coherent, Settled;
      ConfigureFrame(trainer.table.View(), Normal(cfg));
      trainer.Configure(Normal(cfg));
      trainer.ValidTable();
      key := None;
      Repr := Repr + trainer.Repr;
    }

    /** update_config: the resources follow at the next launch. */
    method UpdateConfig(enabled: bool, cfg: SlotTable.Config, scratch: nat)
      requires Valid()
      modifies Repr
      ensures Valid() && fresh(Repr - old(Repr))
      ensures Next(old(View()), Event.Configure(enabled, cfg, scratch)) == Ok(View())
    {
      hide StepTrainer.Valid, SlotTable.Configure, SlotTable.Coherent, Settled;
      ConfigureTrainer(cfg);
      SetEnabled(enabled);
      scratchRows := scratch;
    }

    /** The sampler assigns slots ahead of the sampling of a step. */
    method AssignForSampling(prompts: seq<int>) returns (raised: Option<Reason>)
      requires Valid()
      modifies Repr
      ensures Valid() && fresh(Repr - old(Repr)) && engine.View() == old(engine.View())
      ensures raised.None? ==> Next(old(View()), Event.Sampling(prompts)) == Ok(View())
      ensures raised.Some? ==> Next(old(View()), Event.Sampling(prompts)) == Err(raised.value)
    {
      hide StepTrainer.Valid, SlotTable.AssignForSampling, SlotTable.Coherent, Settled;
      Table();
      AssignForSamplingFrame(trainer.table.View(), prompts);
      var r := trainer.AssignForSampling(prompts);
      trainer.ValidTable();
      Repr := Repr + trainer.Repr;
      return if r.Err? then Some(Training(r.error)) else None;
    }

    method ReadAndResetStats() returns (count: nat, sum: real)
      requires Valid()
      modifies Repr
      ensures Valid() && Repr == old(Repr) && count == old(lossCount) && sum == old(lossSum)
      ensures Next(old(View()), Event.ReadStats) == Ok(View())
    {
      hide StepTrainer.Valid, Settled;
      count, sum := lossCount, lossSum;
      lossCount, lossSum := 0, 0.0;
    }
  }

  lemma {:induction false} SettledStreams(h: Spec.Host)
    requires Settled(h)
    ensures h.mode == Spec.Serial <==> h.streams.train.None?
  {
  }

  lemma {:induction false} SettledSlots(h: Spec.Host)
    requires Settled(h)
    ensures h.slots > 0
  {
  }

  /** A launch that raised for its rows' width enqueued no training. */
  lemma {:induction false} FailedLaunchOnce(h: Spec.Host, fitting: Option<seq<Row>>)
    requires Settled(h)
    ensures Once(Spec.FailedLaunch(h, fitting).ops, |h.srcs|)
  {
    var more := Spec.FailedLaunch(h, fitting).ops[|h.ops|..];
    assert Spec.FailedLaunch(h, fitting).ops == h.ops + more;
    forall b: nat ensures TrainsOf(h.ops + more, b) == if b < |h.srcs| then 1 else 0 {
      NoTrains(more, b);
      TrainsOfAppend(h.ops, more, b);
    }
  }

  lemma {:induction false} LaunchedSlot(h: Spec.Host, src: seq<Row>, tgt: seq<Row>)
    requires Settled(h) && h.enabled && |src| == |tgt|
    ensures Spec.LaunchStep(h, src, tgt).0.ready == Some(Spec.Wrap(h.next, h.slots))
    ensures Spec.LaunchStep(h, src, tgt).0.layout == h.layout && Spec.LaunchStep(h, src, tgt).0.slots == h.slots
    ensures Spec.LaunchStep(h, src, tgt).0.mode == h.mode
  {
  }

  lemma {:induction false} EnsureSettles(h: Spec.Host, mode: Spec.Mode, slots: int, layout: Spec.Layout)
    requires Settled(h)
    ensures var h' := Spec.EnsureResources(h, mode, slots, layout);
      && Settled(h') && h'.srcs == h.srcs && h'.ops == h.ops && h'.enabled == h.enabled && h'.layout == layout
      && h'.slots == Max(1, slots) && h'.mode == mode
  {
    hide Once;
  }

  // ---- runs --------------------------------------------------------------------------------

  method Handle(c: Consumer, e: Event) returns (raised: Option<Reason>)
    requires c.Valid()
    modifies c.Repr
    ensures raised.None? ==> c.Valid() && fresh(c.Repr - old(c.Repr)) && Next(old(c.View()), e) == Ok(c.View())
    ensures raised.Some? ==> Next(old(c.View()), e) == Err(raised.value) && Once(c.engine.ops, |old(c.engine.srcs)|)
  {
    hide Consumer.Valid, Next, Once;
    c.ValidOnce();
    raised := None;
    match e
    case Delivered(b, f, run) => raised := c.Step(b, f, run);
    case Silent =>
      NextSilent(c.View());
      raised := c.EndStepIdle();
      c.ValidOnce();
    case Sampling(prompts) => raised := c.AssignForSampling(prompts);
    case Toggle(on) => c.SetEnabled(on);
    case Configure(on, cfg, scratch) => c.UpdateConfig(on, cfg, scratch);
    case ReadStats => var count, sum := c.ReadAndResetStats();
  }

  lemma {:induction false} NextSilent(a: Account)
    ensures Next(a, Silent) == EndIdle(a)
  {
  }

  lemma {:induction false} AfterNone(a: Account, events: seq<Event>)
    ensures After(a, events[..0]) == Ok(a)
  {
    assert events[..0] == [];
  }

  lemma {:induction false} AfterOne(a: Account, events: seq<Event>, n: nat)
    requires n < |events| && After(a, events[..n]).Ok?
    ensures After(a, events[..n + 1]) == Next(After(a, events[..n]).value, events[n])
  {
    assert events[..n + 1][..n] == events[..n];
  }

  /** Handles events until one raises. */
  method RunFrom(c: Consumer, ghost start: Account, events: seq<Event>) returns (handled: nat, raised: Option<Reason>)
    requires c.Valid() && c.View() == start
    modifies c.Repr
    ensures handled <= |events| && (raised.None? <==> handled == |events|)
    ensures var a := After(start, events[..handled]);
      && a.Ok? && Once(c.engine.ops, |a.value.launched|)
      && (raised.None? ==> c.Valid() && c.View() == a.value)
      && (raised.Some? ==> Next(a.value, events[handled]) == Err(raised.value))
  {
    hide Consumer.Valid, Consumer.View, Next, After, Once;
    raised, handled := None, 0;
    AfterNone(start, events);
    while handled < |events|
      invariant handled <= |events| && raised.None?
      invariant c.Valid() && fresh(c.Repr - old(c.Repr))
      invariant After(start, events[..handled]) == Ok(c.View())
    {
      AfterOne(start, events, handled);
      c.ValidOnce();
      raised := Handle(c, events[handled]);
      if raised.Some? { return; }
      handled := handled + 1;
    }
    c.ValidOnce();
  }

  /** Over every run of steps, pre-assignments, toggles, reconfigurations and reads, up to the first
      event that raises: the consumer's state is the account's, no launch is refused, and each batch of
      the account, and no other, has exactly one training in the log.  The run raises if and only if some
      event is refused by the caller's test; otherwise the known prompts have slots, and the counters are
      the tally, less what was lost. */
  method RunEvents(cfg: SlotTable.Config, device: int, scratch: nat, events: seq<Event>)
    returns (c: Consumer, handled: nat, raised: Option<Reason>)
    ensures fresh(c) && handled <= |events| && (raised.None? <==> handled == |events|)
    ensures var a := After(Start(cfg, device, scratch), events[..handled]);
      && a.Ok? && Once(c.engine.ops, |a.value.launched|)
      && (raised.None? ==> c.Valid() && c.View() == a.value)
      && (raised.Some? ==> Next(a.value, events[handled]) == Err(raised.value))
    ensures raised.Some? <==> exists k: nat :: RaisesAt(Start(cfg, device, scratch), events, k)
    ensures raised.Some? ==> RaisesAt(Start(cfg, device, scratch), events, handled)
    ensures raised.None? ==>
      && After(Start(cfg, device, scratch), events).Ok?
      && c.trainer.table.promptToSlot.Keys == Known(Start(cfg, device, scratch), events)
      && Tells(c.lossCount, c.lossSum, Tallied(Start(cfg, device, scratch), events))
  {
    hide RaisesAt, Known, Tallied, Tells, After, Next, Start, Once;
    c := new Consumer(cfg, device, scratch);
    handled, raised := RunFrom(c, Start(cfg, device, scratch), events);
    assert events[..|events|] == events;
    RunMeaning(cfg, device, scratch, events, handled);
  }
}
