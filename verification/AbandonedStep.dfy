/** configure forgets the step in flight, and a training that raises drops it.  When that step was copied
    on the forward stream and the buffers survive, nothing orders its copy before later main-stream copies
    of the slot. */
module AbandonedStep {
  import opened Common
  import opened DeviceQueue
  import opened TrainPipeline
  import opened TrainPipelineProofs
  import opened TrainRuns

  ghost predicate Positive(h: Host) {
    && h.streams.unused > 0
    && (h.streams.forward.Some? ==> h.streams.forward.value > 0)
    && (h.streams.train.Some? ==> h.streams.train.value > 0)
  }

  /** From the forward copy number c on, the main stream waits for nothing newer than c. */
  ghost predicate Loose(ops: seq<Op>, events: Events, c: nat, buf: nat) {
    && c < |ops| && ops[c].stream != MAIN && ops[c].action.Copy? && ops[c].action.side == Source
      && ops[c].action.buf == buf
    && (forall k: nat :: c < k < |ops| && ops[k].stream == MAIN && ops[k].action.Wait? && ops[k].action.target.Some?
          ==> ops[k].action.target.value < c)
    && (forall b: nat :: (TrainDone, b) in events ==> events[(TrainDone, b)] < c)
  }

  ghost predicate Tail(h: Host) {
    && Positive(h)
    && (h.forwarded && InFlight(h).Some? ==>
          h.mode != Serial && exists c: nat :: Loose(h.ops, h.events, c, InFlight(h).value))
  }

  lemma {:induction false} StartTail(mode: Mode, slots: int, layout: Layout)
    ensures Tail(Fresh(mode, slots, layout))
  {
  }

  lemma {:induction false} ForwardTail(h: Host, src: seq<Row>)
    requires Inv(h) && Tail(h)
    ensures Tail(LaunchForward(h, src).0)
  {
    hide LaunchForward, Ordered, SlotsIdle, CurrentOk, ReadyOk, TrainsHold, TrainsDone, BufsBelow;
    if h.enabled && !Busy(h) {
      LaunchForwardEffect(h, src);
      var h', n := LaunchForward(h, src).0, |h.ops|;
      if h.streams.forward.Some? {
        var more := ForwardOps(h.ops, h.events, h.streams.forward, h.base + h.next, |h.srcs|, src);
        assert forall k: nat :: n <= k < |h'.ops| ==> h'.ops[k] == more[k - n];
        assert EventsOk(h.ops, h.events) by { assert Inv(h); InvEvents(h); }
        assert Loose(h'.ops, h'.events, n + 3, h.base + h.next);
      }
    } else {
      ForwardNoop(h, src);
    }
  }

  lemma {:induction false} InvEvents(h: Host)
    requires Inv(h)
    ensures EventsOk(h.ops, h.events) && WellBound(h.ops)
  {
  }

  lemma {:induction false} TargetTail(h: Host, tgt: seq<Row>)
    requires Inv(h) && Tail(h)
    ensures Tail(LaunchTarget(h, tgt).0)
  {
    hide Ordered, SlotsIdle, ReadyOk, TrainsHold, TrainsDone, BufsBelow, Covered, Holds;
    var h', n := LaunchTarget(h, tgt).0, |h.ops|;
    if h.enabled && h.current.Some? && h.forwarded {
      var buf := h.base + h.current.value;
      var more := TargetOps(h.ops, h.streams.forward, buf, |h.srcs| - 1, tgt);
      assert h'.ops == h.ops + more;
      assert forall k: nat :: n <= k < |h'.ops| ==> h'.ops[k] == more[k - n];
      var c: nat :| Loose(h.ops, h.events, c, buf);
      assert Loose(h'.ops, h'.events, c, buf);
    }
  }

  lemma {:induction false} BackwardTail(h: Host, rows: int, prompts: seq<int>)
    requires Inv(h) && Tail(h)
    ensures Tail(LaunchDelayedBackward(h, rows, prompts).0)
  {
    hide LaunchDelayedBackward, Ordered, SlotsIdle, CurrentOk, TrainsHold, TrainsDone, BufsBelow, Covered, Holds, Loose;
    if h.enabled && h.ready.Some? { BackwardEffect(h, rows, prompts); } else { BackwardNoop(h, rows, prompts); }
  }

  lemma {:induction false} StepTail(h: Host, src: seq<Row>, tgt: seq<Row>)
    requires Inv(h) && Tail(h)
    ensures Tail(LaunchStep(h, src, tgt).0)
  {
    hide LaunchStep, Ordered, SlotsIdle, CurrentOk, ReadyOk, TrainsHold, TrainsDone, BufsBelow, Loose;
    LaunchStepCases(h, src, tgt);
  }

  lemma {:induction false} RaisingTail(h: Host, rows: int, prompts: seq<int>)
    requires Inv(h) && Tail(h)
    ensures Tail(RaisingBackward(h, rows, prompts))
  {
    hide LaunchDelayedBackward, Ordered, SlotsIdle, CurrentOk, TrainsHold, TrainsDone, BufsBelow, Covered, Holds, Loose;
    if !(h.enabled && h.ready.Some?) { BackwardNoop(h, rows, prompts); }
  }

  lemma {:induction false} MisfitTail(h: Host, fitting: Option<seq<Row>>)
    requires Inv(h) && Tail(h)
    ensures Tail(MisfitStep(h, fitting))
  {
    hide Ordered, SlotsIdle, CurrentOk, ReadyOk, TrainsHold, TrainsDone, BufsBelow, Loose;
  }

  lemma {:induction false} EnableTail(h: Host, on: bool)
    requires Tail(h)
    ensures Tail(SetEnabled(h, on))
  {
    hide Loose;
  }

  lemma {:induction false} ReconfigureTail(h: Host, on: bool, mode: Mode, slots: int, layout: Layout)
    requires Tail(h)
    ensures Tail(Reconfigure(h, on, mode, slots, layout))
  {
    hide Loose;
  }

  lemma {:induction false} ApplyTail(h: Host, call: Call)
    requires Inv(h) && Tail(h)
    ensures Tail(Apply(h, call))
  {
    hide LaunchStep, LaunchForward, LaunchTarget, LaunchDelayedBackward, Reconfigure, RaisingBackward, MisfitStep, Inv,
         Tail;
    match call
    case Step(src, tgt) => StepTail(h, src, tgt);
    case ForwardRows(src) => ForwardTail(h, src);
    case TargetRows(tgt) => TargetTail(h, tgt);
    case Backward(rows, prompts) => BackwardTail(h, rows, prompts);
    case RaisingTraining(rows, prompts) => RaisingTail(h, rows, prompts);
    case WrongWidth(fitting) => MisfitTail(h, fitting);
    case Enable(on) => EnableTail(h, on);
    case Configure(on, mode, slots, layout) => ReconfigureTail(h, on, mode, slots, layout);
  }

  // ---- the race ----------------------------------------------------------------------

  /** A main-stream copy into the abandoned buffer is not ordered after the abandoned copy:
      the log minus the forward stream's tail is a reachable set of finished work. */
  lemma {:induction false} LooseRace(ops: seq<Op>, events: Events, c: nat, j: nat, buf: nat)
    requires WellBound(ops) && Loose(ops, events, c, buf)
    requires c < j < |ops| && ops[j].stream == MAIN && ops[j].action.Copy? && ops[j].action.buf == buf
    ensures !RaceFree(ops)
  {
    var d := set k: nat | k in Prefix(|ops|) && (k < c || ops[k].stream == MAIN);
    assert Closed(ops, d) by {
      forall k | k in d
        ensures forall i :: 0 <= i < k && ops[i].stream == ops[k].stream ==> i in d
        ensures ops[k].action.Wait? && ops[k].action.target.Some? ==> ops[k].action.target.value in d
      {
        forall i | 0 <= i < k && ops[i].stream == ops[k].stream ensures i in d { assert i in Prefix(|ops|); }
        if ops[k].action.Wait? && ops[k].action.target.Some? {
          assert ops[k].action.target.value < c;
          assert ops[k].action.target.value in Prefix(|ops|);
        }
      }
    }
    assert j in d && c !in d;
    assert !Before(ops, c, j);
    assert Conflict(ops[c].action, ops[j].action);
  }

  function RunCalls(h: Host, cs: seq<Call>): Host
    decreases |cs|
  {
    if cs == [] || h.slots == 0 then h else RunCalls(Apply(h, cs[0]), cs[1..])
  }

  ghost predicate CarefulCalls(h: Host, cs: seq<Call>)
    decreases |cs|
  {
    cs == [] || h.slots == 0 || (Careful(h, cs[0]) && CarefulCalls(Apply(h, cs[0]), cs[1..]))
  }

  lemma {:induction false} CarefulRunInv(h: Host, cs: seq<Call>)
    requires Inv(h) && CarefulCalls(h, cs)
    ensures Inv(RunCalls(h, cs))
    decreases |cs|
  {
    hide Apply, Careful, Inv;
    if cs != [] && h.slots != 0 {
      ApplyInv(h, cs[0]);
      CarefulRunInv(Apply(h, cs[0]), cs[1..]);
    }
  }

  /** Launch on the main stream and forget, n times, then once more. */
  function Cycle(mode: Mode, slots: int, layout: Layout, n: nat): (cs: seq<Call>)
    ensures cs != []
  {
    if n == 0 then [Step([], [])]
    else [Step([], []), Configure(true, mode, slots, layout)] + Cycle(mode, slots, layout, n - 1)
  }

  /** What an idle host looks like after it forgot forward copy c of buffer buf. */
  ghost predicate Forgotten(h: Host, c: nat, buf: nat) {
    && h.slots > 0 && h.next < h.slots && h.enabled && !Busy(h)
    && WellBound(h.ops) && EventsOk(h.ops, h.events) && Loose(h.ops, h.events, c, buf)
  }

  lemma {:induction false} ForgottenStep(h: Host, c: nat, buf: nat)
    requires Forgotten(h, c, buf)
    ensures var h' := LaunchStep(h, [], []).0;
      && WellBound(h'.ops) && EventsOk(h'.ops, h'.events) && Loose(h'.ops, h'.events, c, buf)
      && h' == h.(ops := h'.ops, events := h'.events, next := Wrap(h.next + 1, h.slots), current := None,
                  ready := Some(h.next), forwarded := false, srcs := h'.srcs, tgts := h'.tgts)
      && |h'.ops| == |h.ops| + 5
      && h'.ops[|h.ops| + 1] == Op(MAIN, Copy(Source, h.base + h.next, |h.srcs|, []))
  {
    var h', n := LaunchStep(h, [], []).0, |h.ops|;
    assert Wrap(h.next, h.slots) == h.next;
    var more := StepOps(h.events, h.base + h.next, |h.srcs|, [], []);
    assert h'.ops == h.ops + more;
    assert forall k: nat :: n <= k < |h'.ops| ==> h'.ops[k] == more[k - n];
  }

  lemma {:induction false} CycleRaces(h: Host, mode: Mode, c: nat, slot: nat, n: nat)
    requires Forgotten(h, c, h.base + slot) && slot < h.slots
    requires n == if h.next <= slot then slot - h.next else slot + h.slots - h.next
    ensures CarefulCalls(h, Cycle(mode, h.slots, h.layout, n))
    ensures !RaceFree(RunCalls(h, Cycle(mode, h.slots, h.layout, n)).ops)
    decreases n
  {
    hide Loose, LaunchStep, WellBound, EventsOk, RaceFree, EnsureStreams, Cycle;
    var cs := Cycle(mode, h.slots, h.layout, n);
    ForgottenStep(h, c, h.base + slot);
    var h1 := LaunchStep(h, [], []).0;
    assert Apply(h, Step([], [])) == h1;
    CycleHead(mode, h.slots, h.layout, n);
    if n == 0 {
      LooseRace(h1.ops, h1.events, c, |h.ops| + 1, h.base + slot) by { LooseBounds(h, c, h.base + slot); }
      assert RunCalls(h, cs) == RunCalls(h1, []) == h1;
    } else {
      var h2 := Apply(h1, Configure(true, mode, h.slots, h.layout));
      var rest := Cycle(mode, h.slots, h.layout, n - 1);
      assert cs[1..][0] == Configure(true, mode, h.slots, h.layout) && cs[1..][1..] == rest;
      assert h2 == h1.(enabled := true, current := None, ready := None, pending := [], mode := mode,
                        streams := EnsureStreams(h1.streams, mode));
      NextModulo(h.next, h.slots);
      CycleRaces(h2, mode, c, slot, n - 1);
      assert RunCalls(h, cs) == RunCalls(h1, cs[1..]) == RunCalls(h2, rest);
    }
  }

  lemma {:induction false} NextModulo(next: nat, slots: nat)
    requires next < slots
    ensures Wrap(next + 1, slots) == if next + 1 == slots then 0 else next + 1
  {
  }

  lemma {:induction false} LooseBounds(h: Host, c: nat, buf: nat)
    requires Loose(h.ops, h.events, c, buf)
    ensures c < |h.ops|
  {
  }

  lemma {:induction false} CycleHead(mode: Mode, slots: int, layout: Layout, n: nat)
    ensures var cs := Cycle(mode, slots, layout, n);
      && cs[0] == Step([], [])
      && (n == 0 ==> cs[1..] == [])
      && (n > 0 ==> cs[1..] == [Configure(true, mode, slots, layout)] + Cycle(mode, slots, layout, n - 1))
  {
  }

  lemma {:induction false} InFlightBounds(h: Host)
    requires Inv(h) && Busy(h)
    ensures InFlight(h).Some? && h.base <= InFlight(h).value < h.base + h.slots
  {
  }

  /** Launching steps until the forgotten buffer's turn comes. */
  lemma {:induction false} ForgottenRaces(h: Host, c: nat, slot: nat) returns (cs: seq<Call>)
    requires Forgotten(SetEnabled(h, true), c, h.base + slot) && slot < h.slots
    ensures CarefulCalls(h, cs) && !RaceFree(RunCalls(h, cs).ops)
  {
    hide Loose, WellBound, EventsOk, RaceFree;
    var h1 := SetEnabled(h, true);
    var n := if h1.next <= slot then slot - h1.next else slot + h1.slots - h1.next;
    CycleRaces(h1, h.mode, c, slot, n);
    var rest := Cycle(h.mode, h1.slots, h1.layout, n);
    cs := [Enable(true)] + rest;
    PrependEnable(h, rest);
  }

  lemma {:induction false} AbandonRaces(h: Host, on: bool, mode: Mode, slots: int, layout: Layout)
    returns (cs: seq<Call>)
    requires Inv(h) && Tail(h) && Abandons(h, slots, layout)
    ensures CarefulCalls(Reconfigure(h, on, mode, slots, layout), cs)
    ensures !RaceFree(RunCalls(Reconfigure(h, on, mode, slots, layout), cs).ops)
  {
    hide Loose, Inv, WellBound, EventsOk, RaceFree, EnsureStreams;
    InFlightBounds(h);
    InvEvents(h);
    InvRaceFree(h);
    InvNext(h);
    var c: nat :| Loose(h.ops, h.events, c, InFlight(h).value);
    cs := ForgottenRaces(Reconfigure(h, on, mode, slots, layout), c, InFlight(h).value - h.base);
  }

  /** A training that raises on a forward-launched step drops it, and its copy stays loose. */
  lemma {:induction false} RaisingRaces(h: Host, rows: int, prompts: seq<int>) returns (cs: seq<Call>)
    requires Inv(h) && Tail(h) && h.enabled && h.ready.Some? && h.forwarded
    ensures CarefulCalls(RaisingBackward(h, rows, prompts), cs)
    ensures !RaceFree(RunCalls(RaisingBackward(h, rows, prompts), cs).ops)
  {
    InFlightBounds(h);
    InvEvents(h);
    InvRaceFree(h);
    InvNext(h);
    InvStreams(h);
    hide Inv, RaceFree, LaunchDelayedBackward;
    var h' := RaisingBackward(h, rows, prompts);
    var c: nat :| Loose(h.ops, h.events, c, InFlight(h).value);
    assert forall k: nat :: |h.ops| <= k < |h'.ops| ==> h'.ops[k].stream != MAIN && h'.ops[k].action.Wait?;
    assert Loose(h'.ops, h'.events, c, InFlight(h).value);
    assert WellBound(h'.ops) && EventsOk(h'.ops, h'.events);
    hide Loose, WellBound, EventsOk, RaisingBackward;
    cs := ForgottenRaces(h', c, InFlight(h).value - h.base);
  }

  lemma {:induction false} InvStreams(h: Host)
    requires Inv(h)
    ensures h.pending == [] && (h.mode == Serial <==> h.streams.train.None?) && (h.ready.Some? ==> h.current.None?)
  {
  }

  lemma {:induction false} InvNext(h: Host)
    requires Inv(h)
    ensures h.next < h.slots
  {
  }

  lemma {:induction false} PrependEnable(h: Host, rest: seq<Call>)
    requires h.slots > 0 && CarefulCalls(SetEnabled(h, true), rest)
    ensures CarefulCalls(h, [Enable(true)] + rest)
    ensures RunCalls(h, [Enable(true)] + rest) == RunCalls(SetEnabled(h, true), rest)
  {
    var cs := [Enable(true)] + rest;
    assert cs[1..] == rest;
  }

  /** Whatever is called next, without dropping a forward-launched step, the log stays race-free. */
  ghost predicate SafeFrom(h: Host) {
    forall cs :: CarefulCalls(h, cs) ==> RaceFree(RunCalls(h, cs).ops)
  }

  lemma {:induction false} InvSafe(h: Host)
    requires Inv(h)
    ensures SafeFrom(h)
  {
    hide Inv, CarefulCalls, RunCalls, RaceFree;
    forall cs | CarefulCalls(h, cs) ensures RaceFree(RunCalls(h, cs).ops) {
      CarefulRunInv(h, cs);
      InvRaceFree(RunCalls(h, cs));
    }
  }

  /** Exactly when a reconfiguration keeps every later log race-free: it must not abandon a
      forward-launched step inside buffers that survive. */
  lemma {:induction false} ReconfigureExact(h: Host, on: bool, mode: Mode, slots: int, layout: Layout)
    requires Inv(h) && Tail(h)
    ensures Abandons(h, slots, layout) <==> !SafeFrom(Reconfigure(h, on, mode, slots, layout))
  {
    hide Inv, Tail, Abandons, Reconfigure, CarefulCalls, RunCalls, RaceFree;
    if Abandons(h, slots, layout) {
      var cs := AbandonRaces(h, on, mode, slots, layout);
    } else {
      ReconfigureInv(h, on, mode, slots, layout);
      InvSafe(Reconfigure(h, on, mode, slots, layout));
    }
  }

  /** Exactly when a training that raises keeps every later log race-free: its step must not be
      forward-launched. */
  lemma {:induction false} RaisingExact(h: Host, rows: int, prompts: seq<int>)
    requires Inv(h) && Tail(h)
    ensures h.enabled && h.ready.Some? && h.forwarded <==> !SafeFrom(RaisingBackward(h, rows, prompts))
  {
    hide Inv, Tail, RaisingBackward, CarefulCalls, RunCalls, RaceFree;
    if h.enabled && h.ready.Some? && h.forwarded {
      var cs := RaisingRaces(h, rows, prompts);
    } else {
      RaisingBackwardInv(h, rows, prompts);
      InvSafe(RaisingBackward(h, rows, prompts));
    }
  }

  /** Whatever is called: careful calls, and no others, keep every later log race-free. */
  lemma {:induction false} CarefulExact(h: Host, c: Call)
    requires Inv(h) && Tail(h)
    ensures h.slots > 0 && (Careful(h, c) <==> SafeFrom(Apply(h, c)))
  {
    hide Inv, Tail, Abandons, SafeFrom;
    InvNext(h);
    if Careful(h, c) {
      ApplyInv(h, c);
      InvSafe(Apply(h, c));
    } else if c.Configure? {
      ReconfigureExact(h, c.on, c.mode, c.slots, c.layout);
    } else {
      RaisingExact(h, c.activeRows, c.prompts);
    }
  }

  lemma {:induction false} CarefulFrom(h: Host, cs: seq<Call>)
    requires Inv(h) && Tail(h)
    ensures CarefulCalls(h, cs) <==> forall n :: 0 <= n <= |cs| ==> SafeFrom(RunCalls(h, cs[..n]))
    decreases |cs|
  {
    hide Inv, Tail, Abandons, Reconfigure, SafeFrom, Apply;
    InvSafe(h);
    InvNext(h);
    assert cs[..0] == [];
    if cs != [] {
      var c, h1 := cs[0], Apply(h, cs[0]);
      forall n | 1 <= n <= |cs| ensures RunCalls(h, cs[..n]) == RunCalls(h1, cs[1..][..n - 1]) {
        assert cs[..n][0] == c && cs[..n][1..] == cs[1..][..n - 1];
      }
      if Careful(h, c) {
        ApplyInv(h, c);
        ApplyTail(h, c);
        CarefulFrom(h1, cs[1..]);
        forall n | 0 <= n <= |cs[1..]| ensures RunCalls(h1, cs[1..][..n]) == RunCalls(h, cs[..n + 1]) {
        }
      } else {
        CarefulExact(h, c);
        assert cs[1..][..0] == [];
        assert RunCalls(h, cs[..1]) == RunCalls(h1, []) == h1;
      }
    }
  }

  /** A list of calls on a new pipeline never drops a forward-launched step inside surviving buffers, by a
      reconfiguration or by a training that raises, if and only if none of its prefixes can be continued to
      a race. */
  lemma {:induction false} CarefulExactly(mode: Mode, slots: int, layout: Layout, cs: seq<Call>)
    ensures var h := Fresh(mode, slots, layout);
      CarefulCalls(h, cs) <==> forall n :: 0 <= n <= |cs| ==> SafeFrom(RunCalls(h, cs[..n]))
  {
    hide Inv, Tail, Fresh, CarefulCalls, SafeFrom, RunCalls;
    FreshInv(mode, slots, layout);
    StartTail(mode, slots, layout);
    CarefulFrom(Fresh(mode, slots, layout), cs);
  }

  // ---- the race as a wrong result ------------------------------------------------------

  const TINY := Layout(1, 1, 0, 0)
  const OLD_ROW: Row := [1.0]
  const NEW_ROW: Row := [2.0]

  const BAD_CALLS: seq<Call> :=
    [ForwardRows([OLD_ROW]), TargetRows([OLD_ROW]), Configure(true, Dual, 1, TINY), Step([NEW_ROW], [NEW_ROW]),
      Backward(1, [])]

  const BAD_LOG: seq<Op> :=
    [Op(MAIN, Record), Op(1, Wait(None)), Op(1, Wait(Some(0))), Op(1, Copy(Source, 0, 0, [OLD_ROW])), Op(1, Record),
     Op(MAIN, Record), Op(1, Wait(Some(5))), Op(1, Copy(Target, 0, 0, [OLD_ROW])), Op(1, Record),
     Op(MAIN, Wait(None)), Op(MAIN, Copy(Source, 0, 1, [NEW_ROW])), Op(MAIN, Copy(Target, 0, 1, [NEW_ROW])),
     Op(MAIN, Record), Op(MAIN, Record),
     Op(2, Wait(Some(12))), Op(2, Wait(Some(13))), Op(2, Train(0, 1, 1, [])), Op(2, Record)]

  lemma {:induction false} BadForward(h: Host)
    requires h == Fresh(Dual, 1, TINY)
    ensures var h1 := LaunchForward(h, [OLD_ROW]).0;
      h1 == h.(ops := BAD_LOG[..5], events := map[(SrcReady, 0) := 0, (SrcStaged, 0) := 4], current := Some(0),
               forwarded := true, srcs := [[OLD_ROW]])
  {
    assert Wrap(0 + 1, h.slots) == 0;
  }

  lemma {:induction false} BadTarget(h: Host)
    requires h.enabled && h.mode == Dual && h.streams.forward == Some(1) && h.current == Some(0) && h.base == 0
    requires |h.srcs| == 1
    requires h.ops == BAD_LOG[..5]
    ensures var h1 := LaunchTarget(h, [OLD_ROW]).0;
      h1.ops == BAD_LOG[..9] && h1 == h.(ops := h1.ops, events := h1.events, current := None, ready := Some(0),
        tgts := h1.tgts)
    ensures forall b: nat :: (TrainDone, b) in LaunchTarget(h, [OLD_ROW]).0.events ==> (TrainDone, b) in h.events
  {
  }

  lemma {:induction false} BadStep(h: Host)
    requires h.enabled && !Busy(h) && h.slots == 1 && h.base == 0 && h.next == 0 && |h.srcs| == 1
    requires h.ops == BAD_LOG[..9] && (TrainDone, 0) !in h.events
    ensures var h1 := LaunchStep(h, [NEW_ROW], [NEW_ROW]).0;
      h1.ops == BAD_LOG[..14] && |h1.srcs| == 2
      && h1 == h.(ops := h1.ops, events := h.events[(SrcStaged, 0) := 12][(TgtDone, 0) := 13], current := None,
                  ready := Some(0), forwarded := false, srcs := h1.srcs, tgts := h1.tgts)
  {
    assert Wrap(h.next, h.slots) == 0 && Wrap(0 + 1, h.slots) == 0;
  }

  lemma {:induction false} RunOne(h: Host, cs: seq<Call>)
    requires h.slots > 0 && cs != []
    ensures RunCalls(h, cs) == RunCalls(Apply(h, cs[0]), cs[1..])
  {
  }

  lemma {:induction false} BadLog()
    ensures RunCalls(Fresh(Dual, 1, TINY), BAD_CALLS).ops == BAD_LOG
  {
    hide LaunchForward, LaunchTarget, LaunchStep, LaunchDelayedBackward, RunCalls, BAD_LOG;
    var h0 := Fresh(Dual, 1, TINY);
    BadForward(h0);
    var h1 := LaunchForward(h0, [OLD_ROW]).0;
    BadTarget(h1);
    var h2 := LaunchTarget(h1, [OLD_ROW]).0;
    var h3 := Reconfigure(h2, true, Dual, 1, TINY);
    BadStep(h3);
    var h4 := LaunchStep(h3, [NEW_ROW], [NEW_ROW]).0;
    BadBackward(h4);
    var h5 := LaunchDelayedBackward(h4, 1, []).0;
    RunOne(h0, BAD_CALLS);
    RunOne(h1, BAD_CALLS[1..]);
    RunOne(h2, BAD_CALLS[1..][1..]);
    RunOne(h3, BAD_CALLS[1..][1..][1..]);
    RunOne(h4, BAD_CALLS[1..][1..][1..][1..]);
    RunNone(h5, BAD_CALLS[1..][1..][1..][1..][1..]);
  }

  lemma {:induction false} RunNone(h: Host, cs: seq<Call>)
    requires cs == []
    ensures RunCalls(h, cs) == h
  {
  }

  lemma {:induction false} BadBackward(h: Host)
    requires h.enabled && h.mode == Dual && h.streams.train == Some(2) && h.ready == Some(0) && h.pending == []
    requires h.base == 0
    requires h.ops == BAD_LOG[..14] && |h.srcs| == 2
    requires (SrcStaged, 0) in h.events && h.events[(SrcStaged, 0)] == 12
    requires (TgtDone, 0) in h.events && h.events[(TgtDone, 0)] == 13
    ensures LaunchDelayedBackward(h, 1, []).0.ops == BAD_LOG
  {
    var h1 := h.(pending := h.pending + [Queued(0, 1, [])], ready := None);
    assert h1.pending[1..] == [];
    assert Drain(h1, 2) == Drain(TrainHead(h1, 2), 2) == TrainHead(h1, 2);
  }

  /** Running the listed operations in order. */
  ghost predicate Schedulable(ops: seq<Op>, init: Memory, d: Device, ids: seq<nat>)
    decreases |ids|
  {
    ids == [] || (Enabled(ops, d.done, ids[0]) && Schedulable(ops, init, Execute(ops, init, d, ids[0]), ids[1..]))
  }

  ghost function Schedule(ops: seq<Op>, init: Memory, d: Device, ids: seq<nat>): Device
    requires Schedulable(ops, init, d, ids)
    decreases |ids|
  {
    if ids == [] then d else Schedule(ops, init, Execute(ops, init, d, ids[0]), ids[1..])
  }

  lemma {:induction false} ScheduleConcat(ops: seq<Op>, init: Memory, d: Device, a: seq<nat>, b: seq<nat>)
    requires Schedulable(ops, init, d, a) && Schedulable(ops, init, Schedule(ops, init, d, a), b)
    ensures Schedulable(ops, init, d, a + b)
    ensures Schedule(ops, init, d, a + b) == Schedule(ops, init, Schedule(ops, init, d, a), b)
    decreases |a|
  {
    hide Execute;
    if a == [] {
      assert a + b == b;
    } else {
      assert (a + b)[1..] == a[1..] + b;
      ScheduleConcat(ops, init, Execute(ops, init, d, a[0]), a[1..], b);
    }
  }

  lemma {:induction false} ScheduleOne(ops: seq<Op>, init: Memory, d: Device, i: nat)
    requires Enabled(ops, d.done, i)
    ensures Schedulable(ops, init, d, [i]) && Schedule(ops, init, d, [i]) == Execute(ops, init, d, i)
  {
    assert [i][1..] == [];
  }

  lemma {:induction false} Extend(ops: seq<Op>, init: Memory, d: Device, a: seq<nat>, b: seq<nat>)
    requires a != [] && b == a[..|a| - 1]
    requires Schedulable(ops, init, d, b) && Enabled(ops, Schedule(ops, init, d, b).done, a[|a| - 1])
    ensures Schedulable(ops, init, d, a)
    ensures Schedule(ops, init, d, a) == Execute(ops, init, Schedule(ops, init, d, b), a[|a| - 1])
  {
    hide Schedulable, Schedule, Enabled, Execute;
    var i := a[|a| - 1];
    ScheduleOne(ops, init, Schedule(ops, init, d, b), i);
    ScheduleConcat(ops, init, d, b, [i]);
    assert b + [i] == a;
  }

  /** The main stream runs ahead: the new step's rows are in the buffer. */
  lemma {:induction false} MainRunsAhead(init: Memory)
    requires |init(Source, 0)| == 1
    ensures var ids, d := [0, 5, 9, 10, 11, 12, 13], Device({}, map[], []);
      && Schedulable(BAD_LOG, init, d, ids)
      && var e := Schedule(BAD_LOG, init, d, ids);
         e.done == {0, 5, 9, 10, 11, 12, 13} && e.observed == [] && |Load(e, init, Source, 0)| == 1
  {
    hide Schedulable, Schedule;
    var d := Device({}, map[], []);
    ScheduleOne(BAD_LOG, init, d, 0);
    Extend(BAD_LOG, init, d, [0, 5], [0]);
    Extend(BAD_LOG, init, d, [0, 5, 9], [0, 5]);
    Extend(BAD_LOG, init, d, [0, 5, 9, 10], [0, 5, 9]);
    Extend(BAD_LOG, init, d, [0, 5, 9, 10, 11], [0, 5, 9, 10]);
    Extend(BAD_LOG, init, d, [0, 5, 9, 10, 11, 12], [0, 5, 9, 10, 11]);
    Extend(BAD_LOG, init, d, [0, 5, 9, 10, 11, 12, 13], [0, 5, 9, 10, 11, 12]);
  }

  /** Then the forward stream overwrites the source row ... */
  lemma {:induction false} AbandonedCopyLands(init: Memory, d: Device)
    requires |Load(d, init, Source, 0)| == 1
    requires d.done == {0, 5, 9, 10, 11, 12, 13} && d.observed == []
    ensures Schedulable(BAD_LOG, init, d, [1, 2, 3])
    ensures var e := Schedule(BAD_LOG, init, d, [1, 2, 3]);
      e.done == {0, 1, 2, 3, 5, 9, 10, 11, 12, 13} && e.observed == [] && Load(e, init, Source, 0) == [OLD_ROW]
  {
    hide Schedulable, Schedule;
    ForwardStreamWaits(init, d);
    Extend(BAD_LOG, init, d, [1, 2, 3], [1, 2]);
  }

  lemma {:induction false} ForwardStreamWaits(init: Memory, d: Device)
    requires d.done == {0, 5, 9, 10, 11, 12, 13}
    ensures Schedulable(BAD_LOG, init, d, [1, 2])
    ensures Schedule(BAD_LOG, init, d, [1, 2]) == d.(done := {0, 1, 2, 5, 9, 10, 11, 12, 13})
  {
    hide Schedulable, Schedule;
    ScheduleOne(BAD_LOG, init, d, 1);
    Extend(BAD_LOG, init, d, [1, 2], [1]);
  }

  /** ... and the training reads it. */
  lemma {:induction false} AbandonedRowIsRead(init: Memory, d: Device)
    requires d.done == {0, 1, 2, 3, 5, 9, 10, 11, 12, 13} && d.observed == [] && Load(d, init, Source, 0) == [OLD_ROW]
    ensures Schedulable(BAD_LOG, init, d, [14, 15, 16])
    ensures var e := Schedule(BAD_LOG, init, d, [14, 15, 16]);
      |e.observed| == 1 && e.observed[0].op == 16 && e.observed[0].src == [OLD_ROW]
  {
    hide Schedulable, Schedule;
    ScheduleOne(BAD_LOG, init, d, 14);
    Extend(BAD_LOG, init, d, [14, 15], [14]);
    Extend(BAD_LOG, init, d, [14, 15, 16], [14, 15]);
  }

  /** One slot, dual streams: launch_forward, launch_target, configure, launch_step, backward.
      Some schedule makes the new step's training read the forgotten step's source row. */
  lemma {:induction false} AbandonedRowIsTrained(init: Memory)
    requires |init(Source, 0)| == 1
    ensures var ops, d := RunCalls(Fresh(Dual, 1, TINY), BAD_CALLS).ops, Device({}, map[], []);
      && |ops| == 18 && ops[16].action == Train(0, 1, 1, [])
      && (exists ids :: Schedulable(ops, init, d, ids)
           && var e := Schedule(ops, init, d, ids);
              |e.observed| == 1 && e.observed[0].src == [OLD_ROW] && e.observed[0].op == 16)
  {
    hide Schedulable, Schedule, RunCalls;
    BadLog();
    MainRunsAhead(init);
    var d := Device({}, map[], []);
    var ids1, ids2, ids3 := [0, 5, 9, 10, 11, 12, 13], [1, 2, 3], [14, 15, 16];
    var d1 := Schedule(BAD_LOG, init, d, ids1);
    AbandonedCopyLands(init, d1);
    AbandonedRowIsRead(init, Schedule(BAD_LOG, init, d1, ids2));
    ScheduleConcat(BAD_LOG, init, d, ids1, ids2);
    ScheduleConcat(BAD_LOG, init, d, ids1 + ids2, ids3);
  }
}
