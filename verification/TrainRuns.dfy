/** Whole runs: host calls interleaved with any device schedule. */
module TrainRuns {
  import opened Common
  import opened DeviceQueue
  import opened TrainPipeline
  import opened TrainPipelineProofs

  datatype Call =
    | Step(src: seq<Row>, tgt: seq<Row>)
    | ForwardRows(src: seq<Row>)
    | TargetRows(tgt: seq<Row>)
    | Backward(activeRows: int, prompts: seq<int>)
    | RaisingTraining(activeRows: int, prompts: seq<int>)
    | WrongWidth(fitting: Option<seq<Row>>)
    | Enable(on: bool)
    | Configure(on: bool, mode: Mode, slots: int, layout: Layout)

  function Apply(h: Host, c: Call): Host
    requires h.slots > 0
  {
    match c
    case Step(src, tgt) => LaunchStep(h, src, tgt).0
    case ForwardRows(src) => LaunchForward(h, src).0
    case TargetRows(tgt) => LaunchTarget(h, tgt).0
    case Backward(rows, prompts) => LaunchDelayedBackward(h, rows, prompts).0
    case RaisingTraining(rows, prompts) => RaisingBackward(h, rows, prompts)
    case WrongWidth(fitting) => MisfitStep(h, fitting)
    case Enable(on) => SetEnabled(h, on)
    case Configure(on, mode, slots, layout) => Reconfigure(h, on, mode, slots, layout)
  }

  /** A step that launch_forward copied off the main stream must not be dropped from buffers that survive:
      not by a reconfiguration, and not by a training that raises. */
  predicate Careful(h: Host, c: Call) {
    && (c.Configure? ==> !Abandons(h, c.slots, c.layout))
    && (c.RaisingTraining? ==> !(h.enabled && h.ready.Some? && h.forwarded))
  }

  lemma {:induction false} ApplyInv(h: Host, c: Call)
    requires Inv(h) && Careful(h, c)
    ensures Inv(Apply(h, c))
  {
    hide Inv, LaunchStep, LaunchForward, LaunchTarget, LaunchDelayedBackward, Reconfigure, RaisingBackward,
         MisfitStep;
    match c
    case Step(src, tgt) => LaunchStepInv(h, src, tgt);
    case ForwardRows(src) => LaunchForwardInv(h, src);
    case TargetRows(tgt) => LaunchTargetInv(h, tgt);
    case Backward(rows, prompts) => LaunchDelayedBackwardInv(h, rows, prompts);
    case RaisingTraining(rows, prompts) => RaisingBackwardInv(h, rows, prompts);
    case WrongWidth(fitting) => MisfitStepInv(h, fitting);
    case Enable(on) => EnableInv(h, on);
    case Configure(on, mode, slots, layout) => ReconfigureInv(h, on, mode, slots, layout);
  }

  lemma {:induction false} EnableInv(h: Host, on: bool)
    requires Inv(h)
    ensures Inv(SetEnabled(h, on))
  {
    hide Idle, Covered, Holds, TrainsHold, TrainsDone, RaceFree, WellBound, EventsOk, BufsBelow;
  }

  /** No call rewrites the log. */
  lemma {:induction false} ApplyAppends(h: Host, c: Call)
    requires Inv(h)
    ensures h.ops <= Apply(h, c).ops
  {
    hide Ordered, SlotsIdle, CurrentOk, Covered, Holds, TrainsHold, TrainsDone, BufsBelow, EnsureStreams, StreamsFor;
    match c
    case Backward(rows, prompts) =>
      if h.enabled && h.ready.Some? { BackwardEffect(h, rows, prompts); } else { BackwardNoop(h, rows, prompts); }
    case RaisingTraining(rows, prompts) =>
      if !(h.enabled && h.ready.Some?) { BackwardNoop(h, rows, prompts); }
    case _ =>
  }

  // ---- systems -----------------------------------------------------------------------

  datatype System = System(host: Host, dev: Device)

  datatype Move = HostCall(call: Call) | Dev(op: nat)

  ghost predicate Legal(s: System, m: Move) {
    match m
    case HostCall(c) => Careful(s.host, c)
    case Dev(i) => Enabled(s.host.ops, s.dev.done, i)
  }

  function Next(s: System, init: Memory, m: Move): System
    requires s.host.slots > 0 && (m.Dev? ==> m.op < |s.host.ops|)
  {
    match m
    case HostCall(c) => s.(host := Apply(s.host, c))
    case Dev(i) => s.(dev := Execute(s.host.ops, init, s.dev, i))
  }

  ghost predicate Good(s: System, init: Memory) {
    Inv(s.host) && Coherent(s.host.ops, init, s.dev)
  }

  ghost predicate LegalRun(s: System, init: Memory, moves: seq<Move>)
    requires s.host.slots > 0
    decreases |moves|
  {
    moves == [] ||
    (Legal(s, moves[0]) && Next(s, init, moves[0]).host.slots > 0
      && LegalRun(Next(s, init, moves[0]), init, moves[1..]))
  }

  ghost function Run(s: System, init: Memory, moves: seq<Move>): System
    requires s.host.slots > 0 && LegalRun(s, init, moves)
    decreases |moves|
  {
    if moves == [] then s else Run(Next(s, init, moves[0]), init, moves[1..])
  }

  lemma {:induction false} NextGood(s: System, init: Memory, m: Move)
    requires Good(s, init) && Legal(s, m)
    ensures Good(Next(s, init, m), init)
  {
    hide Inv, Coherent, Apply, Execute;
    InvRaceFree(s.host);
    match m
    case HostCall(c) =>
      ApplyInv(s.host, c);
      ApplyAppends(s.host, c);
      var ops' := Apply(s.host, c).ops;
      EnqueueCoherent(s.host.ops, ops'[|s.host.ops|..], init, s.dev);
      assert s.host.ops + ops'[|s.host.ops|..] == ops';
    case Dev(i) =>
      ExecuteCoherent(s.host.ops, init, s.dev, i);
  }

  lemma {:induction false} InvRaceFree(h: Host)
    requires Inv(h)
    ensures RaceFree(h.ops) && WellBound(h.ops) && h.slots > 0
  {
  }

  lemma {:induction false} GoodTrains(s: System, init: Memory)
    requires Good(s, init)
    ensures TrainsHold(s.host.ops, s.host.srcs, s.host.tgts)
  {
  }

  lemma {:induction false} RunGood(s: System, init: Memory, moves: seq<Move>)
    requires Good(s, init) && s.host.slots > 0 && LegalRun(s, init, moves)
    ensures Good(Run(s, init, moves), init)
    decreases |moves|
  {
    hide Good, Next;
    if moves != [] {
      NextGood(s, init, moves[0]);
      RunGood(Next(s, init, moves[0]), init, moves[1..]);
    }
  }

  function Start(mode: Mode, slots: int, layout: Layout): System {
    System(Fresh(mode, slots, layout), Device({}, map[], []))
  }

  lemma {:induction false} StartGood(mode: Mode, slots: int, layout: Layout, init: Memory)
    ensures Good(Start(mode, slots, layout), init)
  {
    FreshInv(mode, slots, layout);
  }

  // ---- what a training reads ---------------------------------------------------------

  /** Up to n rows, what was read is what was launched. */
  predicate Reads(got: seq<Row>, launched: seq<Row>, n: int) {
    0 <= n <= |launched| && n <= |got| ==> got[..n] == launched[..n]
  }

  lemma {:induction false} HoldsContents(ops: seq<Op>, init: Memory, side: Side, buf: nat, j: nat, b: nat,
        rows: seq<Row>, n: int)
    requires j <= |ops| && Holds(ops, side, buf, j, b, rows)
    ensures Reads(Sequential(ops, init, side, buf, j), rows, n)
    ensures |Sequential(ops, init, side, buf, j)| == |init(side, buf)|
  {
    var c: nat :| c < j && ops[c].action == Copy(side, buf, b, rows)
      && forall k: nat :: c < k < j && ops[k].action.Copy? && ops[k].action.side == side ==> ops[k].action.buf != buf;
    var d := Prefix(j);
    ContentsTail(ops, d, init, side, buf, c + 1, j);
    assert Contents(ops, d, init, side, buf, c + 1) == CopyRows(Contents(ops, d, init, side, buf, c), rows);
    ContentsLength(ops, d, init, side, buf, j);
  }

  lemma {:induction false} ContentsLength(ops: seq<Op>, d: set<nat>, init: Memory, side: Side, buf: nat, j: nat)
    requires j <= |ops|
    ensures |Contents(ops, d, init, side, buf, j)| == |init(side, buf)|
  {
    if j > 0 { ContentsLength(ops, d, init, side, buf, j - 1); }
  }

  /** Training r saw the rows of the batch that queued it, on both sides. */
  ghost predicate SawItsBatch(h: Host, init: Memory, r: Read) {
    && r.op < |h.ops| && h.ops[r.op].action.Train?
    && var a := h.ops[r.op].action;
    && a.batch < |h.srcs| && a.batch in h.tgts
    && |r.src| == |init(Source, a.buf)| && |r.tgt| == |init(Target, a.buf)|
    && Reads(r.src, h.srcs[a.batch], a.activeRows)
    && Reads(r.tgt, h.tgts[a.batch], a.activeRows)
  }

  lemma {:induction false} ReadIsLaunched(s: System, init: Memory, r: Read)
    requires TrainsHold(s.host.ops, s.host.srcs, s.host.tgts) && Coherent(s.host.ops, init, s.dev)
    requires r in s.dev.observed
    ensures SawItsBatch(s.host, init, r)
  {
    var h := s.host;
    assert ReadsSequentially(h.ops, init, r);
    var a := h.ops[r.op].action;
    assert TrainHolds(h.ops, h.srcs, h.tgts, r.op);
    HoldsContents(h.ops, init, Source, a.buf, r.op, a.batch, h.srcs[a.batch], a.activeRows);
    HoldsContents(h.ops, init, Target, a.buf, r.op, a.batch, h.tgts[a.batch], a.activeRows);
  }

  /** Of two operations on one slot, one of them a copy, the later has not overtaken the earlier. */
  ghost predicate FinishedInOrder(ops: seq<Op>, done: set<nat>) {
    forall i: nat, j: nat :: i < j < |ops| && Conflict(ops[i].action, ops[j].action) && j in done ==> i in done
  }

  /** Stream safety, over every interleaving of host calls and device operations, in every
      stream mode: a training reads the rows of the step that queued it, no copy into a slot
      runs before an earlier training of the slot has finished, and no training runs before an
      earlier copy of its slot. */
  lemma {:induction false} StreamSafety(mode: Mode, slots: int, layout: Layout, init: Memory, moves: seq<Move>)
    requires LegalRun(Start(mode, slots, layout), init, moves)
    ensures var s := Run(Start(mode, slots, layout), init, moves);
      && s.host.slots > 0
      && (forall r :: r in s.dev.observed ==> SawItsBatch(s.host, init, r))
      && FinishedInOrder(s.host.ops, s.dev.done)
  {
    hide Inv, Start, LegalRun, Run;
    var s0 := Start(mode, slots, layout);
    StartGood(mode, slots, layout, init);
    InvRaceFree(s0.host);
    RunGood(s0, init, moves);
    var s := Run(s0, init, moves);
    InvRaceFree(s.host);
    GoodTrains(s, init);
    forall r | r in s.dev.observed ensures SawItsBatch(s.host, init, r) {
      ReadIsLaunched(s, init, r);
    }
    forall i: nat, j: nat | i < j < |s.host.ops| && Conflict(s.host.ops[i].action, s.host.ops[j].action)
      && j in s.dev.done
      ensures i in s.dev.done
    {
      assert Before(s.host.ops, i, j);
    }
  }

  /** The device can always finish what was enqueued. */
  lemma {:induction false} NeverStuck(mode: Mode, slots: int, layout: Layout, init: Memory, moves: seq<Move>, i: nat)
    requires LegalRun(Start(mode, slots, layout), init, moves)
    requires var s := Run(Start(mode, slots, layout), init, moves); i < |s.host.ops| && i !in s.dev.done
    ensures var s := Run(Start(mode, slots, layout), init, moves);
      exists k: nat :: k <= i && Legal(s, Dev(k))
  {
    hide Inv, Start, LegalRun, Run;
    var s0 := Start(mode, slots, layout);
    StartGood(mode, slots, layout, init);
    InvRaceFree(s0.host);
    RunGood(s0, init, moves);
    var s := Run(s0, init, moves);
    InvRaceFree(s.host);
    SomeOpEnabled(s.host.ops, s.dev.done, i);
    var k: nat :| k <= i && Enabled(s.host.ops, s.dev.done, k);
    assert Legal(s, Dev(k));
  }
}
