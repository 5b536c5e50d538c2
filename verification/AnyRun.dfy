/** Runs that may abandon steps: enqueue order stays right, so whatever the device read is right as long
    as the log is race-free. */
module AnyRun {
  import opened Common
  import opened DeviceQueue
  import opened TrainPipeline
  import opened TrainPipelineProofs
  import opened TrainRuns

  /** What every call keeps, abandoned steps or not: in enqueue order, the step in flight is the latest in
      its slot, and each training follows its own batch's copies. */
  ghost predicate Plain(h: Host) {
    && h.slots > 0 && h.next < h.slots && h.pending == []
    && (forall b :: b in h.tgts ==> b < |h.srcs|)
    && (h.mode == Serial <==> h.streams.forward.None?) && (h.mode == Serial <==> h.streams.train.None?)
    && WellBound(h.ops) && EventsOk(h.ops, h.events) && TrainsHold(h.ops, h.srcs, h.tgts)
    && CurrentHolds(h) && ReadyHolds(h)
  }

  ghost predicate CurrentHolds(h: Host) {
    h.current.Some? ==>
      && h.current.value < h.slots && h.ready.None? && |h.srcs| > 0 && |h.srcs| - 1 !in h.tgts
      && Holds(h.ops, Source, h.base + h.current.value, |h.ops|, |h.srcs| - 1, h.srcs[|h.srcs| - 1])
  }

  ghost predicate ReadyHolds(h: Host) {
    h.ready.Some? ==>
      var buf, b := h.base + h.ready.value, |h.srcs| - 1;
      && h.ready.value < h.slots && h.current.None? && |h.srcs| > 0 && b in h.tgts
      && Holds(h.ops, Source, buf, |h.ops|, b, h.srcs[b]) && Holds(h.ops, Target, buf, |h.ops|, b, h.tgts[b])
  }

  lemma {:induction false} FreshPlain(mode: Mode, slots: int, layout: Layout)
    ensures Plain(Fresh(mode, slots, layout))
  {
  }

  lemma {:induction false} HoldsStable(ops: seq<Op>, more: seq<Op>, srcs: seq<seq<Row>>, srcs': seq<seq<Row>>,
                                       tgts: map<nat, seq<Row>>, tgts': map<nat, seq<Row>>)
    requires TrainsHold(ops, srcs, tgts) && forall k: nat :: k < |more| ==> !more[k].action.Train?
    requires srcs <= srcs' && forall b :: b in tgts && b < |srcs| ==> b in tgts' && tgts'[b] == tgts[b]
    ensures TrainsHold(ops + more, srcs', tgts')
  {
    var all := ops + more;
    assert forall k: nat :: |ops| <= k < |all| ==> all[k] == more[k - |ops|];
    forall i: nat | i < |all| && all[i].action.Train? ensures TrainHolds(all, srcs', tgts', i) {
      assert all[i] == ops[i];
      TrainHoldsStable(ops, more, srcs, srcs', tgts, tgts', i);
    }
  }

  lemma {:induction false} StepPlain(h: Host, src: seq<Row>, tgt: seq<Row>)
    requires Plain(h)
    ensures Plain(LaunchStep(h, src, tgt).0) && h.ops <= LaunchStep(h, src, tgt).0.ops
  {
    hide Holds, TrainsHold, LaunchStep;
    LaunchStepCases(h, src, tgt);
    var h' := LaunchStep(h, src, tgt).0;
    assert Wrap(h.next, h.slots) == h.next;
    if h.enabled && !Busy(h) && |src| == |tgt| {
      var buf, b := h.base + h.next, |h.srcs|;
      var more := StepOps(h.events, buf, b, src, tgt);
      assert h'.ops == h.ops + more;
      StepHolds(h.ops, h.events, buf, b, src, tgt);
      HoldsStable(h.ops, more, h.srcs, h'.srcs, h.tgts, h'.tgts);
    }
  }

  lemma {:induction false} ForwardPlain(h: Host, src: seq<Row>)
    requires Plain(h)
    ensures Plain(LaunchForward(h, src).0) && h.ops <= LaunchForward(h, src).0.ops
  {
    hide Holds, TrainsHold, LaunchForward;
    var h' := LaunchForward(h, src).0;
    if h.enabled && !Busy(h) {
      LaunchForwardEffect(h, src);
      var buf, b, fwd := h.base + h.next, |h.srcs|, h.streams.forward;
      var more := ForwardOps(h.ops, h.events, fwd, buf, b, src);
      ForwardHolds(h.ops, h.events, fwd, buf, b, src);
      HoldsStable(h.ops, more, h.srcs, h'.srcs, h.tgts, h'.tgts);
    } else {
      ForwardNoop(h, src);
    }
  }

  lemma {:induction false} ForwardHolds(ops: seq<Op>, ev: Events, fwd: Option<nat>, buf: nat, b: nat, src: seq<Row>)
    ensures var all := ops + ForwardOps(ops, ev, fwd, buf, b, src); Holds(all, Source, buf, |all|, b, src)
  {
    var more := ForwardOps(ops, ev, fwd, buf, b, src);
    var all := ops + more;
    assert forall k: nat :: |ops| <= k < |all| ==> all[k] == more[k - |ops|];
    HoldsCopy(all, Source, buf, |all| - 2, b, src);
  }

  lemma {:induction false} TargetPlain(h: Host, tgt: seq<Row>)
    requires Plain(h)
    ensures Plain(LaunchTarget(h, tgt).0) && h.ops <= LaunchTarget(h, tgt).0.ops
  {
    hide Holds, TrainsHold;
    var h' := LaunchTarget(h, tgt).0;
    if h.enabled && h.current.Some? {
      var buf, b, fwd := h.base + h.current.value, |h.srcs| - 1, h.streams.forward;
      var more := TargetOps(h.ops, fwd, buf, b, tgt);
      assert h'.ops == h.ops + more;
      TargetHolds(h.ops, fwd, buf, b, h.srcs[b], tgt);
      HoldsStable(h.ops, more, h.srcs, h'.srcs, h.tgts, h'.tgts);
    }
  }

  lemma {:induction false} TargetHolds(ops: seq<Op>, fwd: Option<nat>, buf: nat, b: nat, src: seq<Row>, tgt: seq<Row>)
    requires Holds(ops, Source, buf, |ops|, b, src)
    ensures var all := ops + TargetOps(ops, fwd, buf, b, tgt);
      Holds(all, Source, buf, |all|, b, src) && Holds(all, Target, buf, |all|, b, tgt)
  {
    var more := TargetOps(ops, fwd, buf, b, tgt);
    var all := ops + more;
    assert forall k: nat :: |ops| <= k < |all| ==> all[k] == more[k - |ops|];
    HoldsCopy(all, Target, buf, |all| - 2, b, tgt);
    HoldsNow(ops, more, Source, buf, |all|, b, src);
  }

  lemma {:induction false} BackwardPlain(h: Host, rows: int, prompts: seq<int>)
    requires Plain(h)
    ensures Plain(LaunchDelayedBackward(h, rows, prompts).0) && h.ops <= LaunchDelayedBackward(h, rows, prompts).0.ops
  {
    hide Holds, TrainsHold, LaunchDelayedBackward;
    if h.enabled && h.ready.Some? {
      BackwardEffect(h, rows, prompts);
      var st := if h.mode == Serial then MAIN else h.streams.train.value;
      BackwardHolds(h.ops, h.events, h.srcs, h.tgts, st, h.base + h.ready.value, |h.srcs| - 1, rows, prompts);
    } else {
      BackwardNoop(h, rows, prompts);
    }
  }

  lemma {:induction false} RaisingPlain(h: Host, rows: int, prompts: seq<int>)
    requires Plain(h)
    ensures Plain(RaisingBackward(h, rows, prompts)) && h.ops <= RaisingBackward(h, rows, prompts).ops
  {
    hide Holds, TrainsHold, LaunchDelayedBackward;
    if h.enabled && h.ready.Some? {
      var h' := RaisingBackward(h, rows, prompts);
      var more := h'.ops[|h.ops|..];
      assert h'.ops == h.ops + more;
      HoldsStable(h.ops, more, h.srcs, h.srcs, h.tgts, h.tgts);
    } else {
      BackwardNoop(h, rows, prompts);
    }
  }

  lemma {:induction false} MisfitPlain(h: Host, fitting: Option<seq<Row>>)
    requires Plain(h)
    ensures Plain(MisfitStep(h, fitting)) && h.ops <= MisfitStep(h, fitting).ops
  {
    hide Holds, TrainsHold;
    if h.enabled && !Busy(h) {
      var h' := MisfitStep(h, fitting);
      var more := h'.ops[|h.ops|..];
      assert h'.ops == h.ops + more;
      HoldsStable(h.ops, more, h.srcs, h.srcs, h.tgts, h.tgts);
    }
  }

  lemma {:induction false} ConfigurePlain(h: Host, on: bool, mode: Mode, slots: int, layout: Layout)
    requires Plain(h)
    ensures Plain(Reconfigure(h, on, mode, slots, layout)) && Reconfigure(h, on, mode, slots, layout).ops == h.ops
  {
    hide Holds, TrainsHold, WellBound, EventsOk;
  }

  lemma {:induction false} EnablePlain(h: Host, on: bool)
    requires Plain(h)
    ensures Plain(SetEnabled(h, on)) && SetEnabled(h, on).ops == h.ops
  {
    hide Holds, TrainsHold, WellBound, EventsOk;
  }

  /** Every call, those that drop a step included, keeps it, and only appends to the log. */
  lemma {:induction false} ApplyPlain(h: Host, c: Call)
    requires Plain(h)
    ensures Plain(Apply(h, c)) && h.ops <= Apply(h, c).ops
  {
    hide Plain, LaunchStep, LaunchForward, LaunchTarget, LaunchDelayedBackward, Reconfigure, RaisingBackward,
         MisfitStep;
    match c
    case Step(src, tgt) => StepPlain(h, src, tgt);
    case ForwardRows(src) => ForwardPlain(h, src);
    case TargetRows(tgt) => TargetPlain(h, tgt);
    case Backward(rows, prompts) => BackwardPlain(h, rows, prompts);
    case RaisingTraining(rows, prompts) => RaisingPlain(h, rows, prompts);
    case WrongWidth(fitting) => MisfitPlain(h, fitting);
    case Enable(on) => EnablePlain(h, on);
    case Configure(on, mode, slots, layout) => ConfigurePlain(h, on, mode, slots, layout);
  }

  // ---- runs --------------------------------------------------------------------------------

  /** Any host call, and any operation the device may run. */
  ghost predicate Possible(s: System, m: Move) { m.Dev? ==> Enabled(s.host.ops, s.dev.done, m.op) }

  ghost predicate PossibleRun(s: System, init: Memory, moves: seq<Move>)
    requires s.host.slots > 0
    decreases |moves|
  {
    moves == [] ||
    (Possible(s, moves[0]) && Next(s, init, moves[0]).host.slots > 0
      && PossibleRun(Next(s, init, moves[0]), init, moves[1..]))
  }

  ghost function After(s: System, init: Memory, moves: seq<Move>): System
    requires s.host.slots > 0 && PossibleRun(s, init, moves)
    decreases |moves|
  {
    if moves == [] then s else After(Next(s, init, moves[0]), init, moves[1..])
  }

  ghost predicate Right(s: System, init: Memory) {
    Plain(s.host) && (RaceFree(s.host.ops) ==> Coherent(s.host.ops, init, s.dev))
  }

  lemma {:induction false} NextRight(s: System, init: Memory, m: Move)
    requires Right(s, init) && s.host.slots > 0 && Possible(s, m)
    ensures Right(Next(s, init, m), init)
  {
    hide Plain, Coherent, Apply, Execute, RaceFree;
    match m
    case HostCall(c) =>
      ApplyPlain(s.host, c);
      var ops' := Apply(s.host, c).ops;
      var more := ops'[|s.host.ops|..];
      assert s.host.ops + more == ops';
      if RaceFree(ops') {
        RaceFreePrefix(s.host.ops, more);
        EnqueueCoherent(s.host.ops, more, init, s.dev);
      }
    case Dev(i) =>
      if RaceFree(s.host.ops) { ExecuteCoherent(s.host.ops, init, s.dev, i); }
  }

  lemma {:induction false} AfterRight(s: System, init: Memory, moves: seq<Move>)
    requires Right(s, init) && s.host.slots > 0 && PossibleRun(s, init, moves)
    ensures Right(After(s, init, moves), init)
    decreases |moves|
  {
    hide Right, Next;
    if moves != [] {
      NextRight(s, init, moves[0]);
      AfterRight(Next(s, init, moves[0]), init, moves[1..]);
    }
  }

  /** Over every interleaving of any host calls, abandoned steps included, with any device schedule: while
      the log is race-free, each training has read the rows of the step that queued it, and no copy or
      training has overtaken an earlier one of its slot. */
  lemma {:induction false} RaceFreeRunIsSafe(mode: Mode, slots: int, layout: Layout, init: Memory, moves: seq<Move>)
    requires Start(mode, slots, layout).host.slots > 0 && PossibleRun(Start(mode, slots, layout), init, moves)
    requires RaceFree(After(Start(mode, slots, layout), init, moves).host.ops)
    ensures var s := After(Start(mode, slots, layout), init, moves);
      && (forall r :: r in s.dev.observed ==> SawItsBatch(s.host, init, r))
      && FinishedInOrder(s.host.ops, s.dev.done)
  {
    hide Plain, Start, PossibleRun, After, SawItsBatch, TrainsHold;
    var s0 := Start(mode, slots, layout);
    StartRight(mode, slots, layout, init);
    AfterRight(s0, init, moves);
    var s := After(s0, init, moves);
    PlainTrains(s.host);
    forall r | r in s.dev.observed ensures SawItsBatch(s.host, init, r) { ReadIsLaunched(s, init, r); }
    forall i: nat, j: nat | i < j < |s.host.ops| && Conflict(s.host.ops[i].action, s.host.ops[j].action)
      && j in s.dev.done
      ensures i in s.dev.done
    {
      assert Before(s.host.ops, i, j);
    }
  }

  lemma {:induction false} PlainTrains(h: Host)
    requires Plain(h)
    ensures TrainsHold(h.ops, h.srcs, h.tgts)
  {
  }

  lemma {:induction false} StartRight(mode: Mode, slots: int, layout: Layout, init: Memory)
    ensures Right(Start(mode, slots, layout), init)
  {
    FreshPlain(mode, slots, layout);
  }
}
