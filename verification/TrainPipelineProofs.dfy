/** Every call keeps the host invariant of TrainPipeline. */
module TrainPipelineProofs {
  import opened Common
  import opened DeviceQueue
  import opened TrainPipeline

  // ---- appending operations ---------------------------------------------------------

  lemma {:induction false} RaceFreeAppend(ops: seq<Op>, more: seq<Op>)
    requires WellBound(ops) && RaceFree(ops)
    requires forall i: nat, j: nat :: i < j && |ops| <= j < |ops + more| && Conflict((ops + more)[i].action,
      (ops + more)[j].action)
               ==> Before(ops + more, i, j)
    ensures RaceFree(ops + more)
  {
    var all := ops + more;
    forall i: nat, j: nat | i < j < |all| && Conflict(all[i].action, all[j].action) ensures Before(all, i, j) {
      if j < |ops| {
        assert all[i] == ops[i] && all[j] == ops[j];
        assert Before(ops, i, j);
        BeforeStable(ops, more, i, j);
      }
    }
  }

  /** Enqueueing more never repairs a race. */
  lemma {:induction false} RaceFreePrefix(ops: seq<Op>, more: seq<Op>)
    requires RaceFree(ops + more)
    ensures RaceFree(ops)
  {
    var all := ops + more;
    assert forall k: nat :: k < |ops| ==> all[k] == ops[k];
    forall i: nat, j: nat | i < j < |ops| && Conflict(ops[i].action, ops[j].action) ensures Before(ops, i, j) {
      assert Before(all, i, j);
      forall d: set<nat> | Closed(ops, d) && j in d ensures i in d { assert Closed(all, d); }
    }
  }

  ghost predicate SameEvent(ev: Events, ev': Events, e: Event, buf: nat) {
    (e, buf) in ev ==> (e, buf) in ev' && ev'[(e, buf)] == ev[(e, buf)]
  }

  lemma {:induction false} EventStable(ops: seq<Op>, more: seq<Op>, ev: Events, ev': Events, i: nat, e: Event, buf: nat)
    requires WellBound(ops) && EventsOk(ops, ev)
    requires BeforeEvent(ops, ev, i, e, buf) && SameEvent(ev, ev', e, buf)
    ensures BeforeEvent(ops + more, ev', i, e, buf)
  {
    BeforeStable(ops, more, i, ev[(e, buf)]);
  }

  /** A buffer that gets at most main-stream copies stays idle. */
  lemma {:induction false} IdleStable(ops: seq<Op>, more: seq<Op>, ev: Events, ev': Events, buf: nat)
    requires WellBound(ops) && EventsOk(ops, ev) && Idle(ops, ev, buf) && SameEvent(ev, ev', TrainDone, buf)
    requires forall k: nat :: k < |more| && Touches(more[k].action, buf) ==>
      more[k].action.Copy? && more[k].stream == MAIN
    ensures Idle(ops + more, ev', buf)
  {
    var all := ops + more;
    forall i: nat | i < |all| && Touches(all[i].action, buf)
      ensures (all[i].action.Copy? && all[i].stream == MAIN) || BeforeEvent(all, ev', i, TrainDone, buf)
    {
      if i < |ops| {
        assert all[i] == ops[i];
        if BeforeEvent(ops, ev, i, TrainDone, buf) { EventStable(ops, more, ev, ev', i, TrainDone, buf); }
      } else {
        assert all[i] == more[i - |ops|];
      }
    }
  }

  lemma {:induction false} HoldsThen(ops: seq<Op>, more: seq<Op>, side: Side, buf: nat, j: nat, b: nat, rows: seq<Row>)
    requires j <= |ops| && Holds(ops, side, buf, j, b, rows)
    ensures Holds(ops + more, side, buf, j, b, rows)
  {
    var c: nat :| c < j && ops[c].action == Copy(side, buf, b, rows)
      && forall k: nat :: c < k < j && ops[k].action.Copy? && ops[k].action.side == side ==> ops[k].action.buf != buf;
    assert (ops + more)[c] == ops[c];
  }

  lemma {:induction false} HoldsNow(ops: seq<Op>, more: seq<Op>, side: Side, buf: nat, j: nat, b: nat, rows: seq<Row>)
    requires |ops| <= j <= |ops + more| && Holds(ops, side, buf, |ops|, b, rows)
    requires forall k: nat :: k < |more| && more[k].action.Copy? && more[k].action.side == side ==>
      more[k].action.buf != buf
    ensures Holds(ops + more, side, buf, j, b, rows)
  {
    var all := ops + more;
    var c: nat :| c < |ops| && ops[c].action == Copy(side, buf, b, rows)
      && forall k: nat :: c < k < |ops| && ops[k].action.Copy? && ops[k].action.side == side ==>
        ops[k].action.buf != buf;
    assert all[c] == ops[c];
    forall k: nat | c < k < j && all[k].action.Copy? && all[k].action.side == side ensures all[k].action.buf != buf {
      if k < |ops| { assert all[k] == ops[k]; } else { assert all[k] == more[k - |ops|]; }
    }
  }

  lemma {:induction false} HoldsCopy(ops: seq<Op>, side: Side, buf: nat, c: nat, b: nat, rows: seq<Row>)
    requires c < |ops| && ops[c].action == Copy(side, buf, b, rows)
    requires forall k: nat :: c < k < |ops| ==> !(ops[k].action.Copy? && ops[k].action.side == side)
    ensures Holds(ops, side, buf, |ops|, b, rows)
  {
  }

  /** The parts of the invariant about trainings, when no training is added. */
  lemma {:induction false} TrainsStable(ops: seq<Op>, more: seq<Op>, ev: Events, ev': Events,
                     srcs: seq<seq<Row>>, srcs': seq<seq<Row>>, tgts: map<nat, seq<Row>>, tgts': map<nat, seq<Row>>)
    requires WellBound(ops) && EventsOk(ops, ev) && TrainsDone(ops, ev) && TrainsHold(ops, srcs, tgts)
    requires forall k: nat :: k < |more| ==> !more[k].action.Train?
    requires forall buf: nat :: SameEvent(ev, ev', TrainDone, buf)
    requires srcs <= srcs' && forall b :: b in tgts && b < |srcs| ==> b in tgts' && tgts'[b] == tgts[b]
    ensures TrainsDone(ops + more, ev') && TrainsHold(ops + more, srcs', tgts')
  {
    var all := ops + more;
    assert forall k: nat :: |ops| <= k < |all| ==> all[k] == more[k - |ops|];
    forall i: nat | i < |all| && all[i].action.Train?
      ensures BeforeEvent(all, ev', i, TrainDone, all[i].action.buf) && TrainHolds(all, srcs', tgts', i)
    {
      assert all[i] == ops[i];
      EventStable(ops, more, ev, ev', i, TrainDone, ops[i].action.buf);
      TrainHoldsStable(ops, more, srcs, srcs', tgts, tgts', i);
    }
  }

  lemma {:induction false} TrainHoldsStable(ops: seq<Op>, more: seq<Op>, srcs: seq<seq<Row>>, srcs': seq<seq<Row>>,
                         tgts: map<nat, seq<Row>>, tgts': map<nat, seq<Row>>, i: nat)
    requires i < |ops| && ops[i].action.Train? && TrainHolds(ops, srcs, tgts, i)
    requires srcs <= srcs' && forall b :: b in tgts && b < |srcs| ==> b in tgts' && tgts'[b] == tgts[b]
    ensures TrainHolds(ops + more, srcs', tgts', i)
  {
    var a := ops[i].action;
    HoldsThen(ops, more, Source, a.buf, i, a.batch, srcs[a.batch]);
    HoldsThen(ops, more, Target, a.buf, i, a.batch, tgts[a.batch]);
  }

  /** Whatever follows a wait on the slot's done event and some later main-stream operation is
      after everything on an idle slot. */
  lemma {:induction false} AfterIdle(ops: seq<Op>, more: seq<Op>, ev: Events, buf: nat, i: nat, w: nat, m: nat, j: nat)
    requires WellBound(ops) && EventsOk(ops, ev) && Idle(ops, ev, buf)
    requires i < |ops| && Touches(ops[i].action, buf)
    requires |ops| <= w < |ops + more| && (ops + more)[w].action == Wait(Bound(ev, TrainDone, buf))
    requires |ops| <= m < |ops + more| && (ops + more)[m].stream == MAIN
    requires Before(ops + more, w, j) && Before(ops + more, m, j)
    ensures Before(ops + more, i, j)
  {
    var all := ops + more;
    if BeforeEvent(ops, ev, i, TrainDone, buf) {
      BeforeStable(ops, more, i, ev[(TrainDone, buf)]);
      BeforeWait(all, i, ev[(TrainDone, buf)], w);
      BeforeTransitive(all, i, w, j);
    } else {
      assert all[i] == ops[i];
      BeforeSameStream(all, i, m);
      BeforeTransitive(all, i, m, j);
    }
  }

  // ---- launch_step --------------------------------------------------------------------

  ghost function StepOps(ev: Events, buf: nat, b: nat, src: seq<Row>, tgt: seq<Row>): seq<Op>
  {
    [Op(MAIN, Wait(Bound(ev, TrainDone, buf))),
     Op(MAIN, Copy(Source, buf, b, src)), Op(MAIN, Copy(Target, buf, b, tgt)),
     Op(MAIN, Record), Op(MAIN, Record)]
  }

  lemma {:induction false} StepOrder(ops: seq<Op>, ev: Events, buf: nat, b: nat, src: seq<Row>, tgt: seq<Row>, i: nat,
        j: nat)
    requires WellBound(ops) && EventsOk(ops, ev) && Idle(ops, ev, buf)
    requires var all := ops + StepOps(ev, buf, b, src, tgt);
      i < j < |all| && j > |ops| && Touches(all[i].action, buf)
    ensures Before(ops + StepOps(ev, buf, b, src, tgt), i, j)
  {
    var more := StepOps(ev, buf, b, src, tgt);
    var all, n := ops + more, |ops|;
    assert forall k: nat :: n <= k < |all| ==> all[k] == more[k - n] && all[k].stream == MAIN;
    if i < n {
      assert all[i] == ops[i];
      BeforeSameStream(all, n, j);
      AfterIdle(ops, more, ev, buf, i, n, n, j);
    } else {
      BeforeSameStream(all, i, j);
    }
  }

  ghost function StepEvents(ev: Events, buf: nat, n: nat): Events {
    ev[(SrcStaged, buf) := n + 3][(TgtDone, buf) := n + 4]
  }

  lemma {:induction false} StepRaceFree(ops: seq<Op>, ev: Events, buf: nat, b: nat, src: seq<Row>, tgt: seq<Row>)
    requires Ordered(ops, ev) && Idle(ops, ev, buf)
    ensures Ordered(ops + StepOps(ev, buf, b, src, tgt), StepEvents(ev, buf, |ops|))
  {
    var more := StepOps(ev, buf, b, src, tgt);
    var all, n := ops + more, |ops|;
    assert forall k: nat :: n <= k < |all| ==> all[k] == more[k - n];
    forall i: nat, j: nat | i < j && n <= j < |all| && Conflict(all[i].action, all[j].action)
      ensures Before(all, i, j)
    {
      StepOrder(ops, ev, buf, b, src, tgt, i, j);
    }
    RaceFreeAppend(ops, more);
  }

  lemma {:induction false} StepCovered(ops: seq<Op>, ev: Events, buf: nat, b: nat, src: seq<Row>, tgt: seq<Row>)
    requires Ordered(ops, ev) && Idle(ops, ev, buf)
    ensures Covered(ops + StepOps(ev, buf, b, src, tgt), StepEvents(ev, buf, |ops|), buf, SrcStaged, TgtDone)
  {
    var more, ev' := StepOps(ev, buf, b, src, tgt), StepEvents(ev, buf, |ops|);
    var all, n := ops + more, |ops|;
    assert forall k: nat :: n <= k < |all| ==> all[k] == more[k - n];
    forall i: nat | i < |all| && Touches(all[i].action, buf) ensures BeforeEvent(all, ev', i, TgtDone, buf) {
      StepOrder(ops, ev, buf, b, src, tgt, i, n + 4);
    }
  }

  lemma {:induction false} StepHolds(ops: seq<Op>, ev: Events, buf: nat, b: nat, src: seq<Row>, tgt: seq<Row>)
    ensures Holds(ops + StepOps(ev, buf, b, src, tgt), Source, buf, |ops| + 5, b, src)
    ensures Holds(ops + StepOps(ev, buf, b, src, tgt), Target, buf, |ops| + 5, b, tgt)
  {
    var more := StepOps(ev, buf, b, src, tgt);
    var all, n := ops + more, |ops|;
    assert forall k: nat :: n <= k < |all| ==> all[k] == more[k - n];
    HoldsCopy(all, Source, buf, n + 1, b, src);
    HoldsCopy(all, Target, buf, n + 2, b, tgt);
  }

  lemma {:induction false} StepIdle(ops: seq<Op>, ev: Events, buf: nat, b: nat, src: seq<Row>, tgt: seq<Row>, x: nat)
    requires Ordered(ops, ev) && Idle(ops, ev, x)
    ensures Idle(ops + StepOps(ev, buf, b, src, tgt), StepEvents(ev, buf, |ops|), x)
  {
    IdleStable(ops, StepOps(ev, buf, b, src, tgt), ev, StepEvents(ev, buf, |ops|), x);
  }

  lemma {:induction false} BufsAppend(ops: seq<Op>, more: seq<Op>, limit: nat)
    requires BufsBelow(ops, limit) && BufsBelow(more, limit)
    ensures BufsBelow(ops + more, limit)
  {
    assert forall k: nat :: |ops| <= k < |ops + more| ==> (ops + more)[k] == more[k - |ops|];
  }

  lemma {:induction false} LaunchStepCases(h: Host, src: seq<Row>, tgt: seq<Row>)
    requires h.slots > 0
    ensures LaunchStep(h, src, tgt) ==
      if !h.enabled then (h, Fine)
      else if Busy(h) then (h, OrderViolation)
      else if |src| != |tgt| then (h.(next := Wrap(Wrap(h.next, h.slots) + 1, h.slots)), RowMismatch)
      else (h.(next := Wrap(Wrap(h.next, h.slots) + 1, h.slots),
        ops := h.ops + StepOps(h.events, h.base + Wrap(h.next, h.slots), |h.srcs|, src, tgt),
               events := h.events[(SrcStaged, h.base + Wrap(h.next, h.slots)) := |h.ops| + 3]
                                 [(TgtDone, h.base + Wrap(h.next, h.slots)) := |h.ops| + 4],
               current := None, ready := Some(Wrap(h.next, h.slots)), forwarded := false,
               srcs := h.srcs + [src], tgts := h.tgts[|h.srcs| := tgt]), Fine)
  {
  }

  lemma {:induction false} LaunchStepInv(h: Host, src: seq<Row>, tgt: seq<Row>)
    requires Inv(h)
    ensures Inv(LaunchStep(h, src, tgt).0)
  {
    hide Idle, Before, BeforeEvent, Covered, Holds, TrainsHold, TrainsDone, RaceFree, WellBound, EventsOk, LaunchStep;
    LaunchStepCases(h, src, tgt);
    var h' := LaunchStep(h, src, tgt).0;
    assert Wrap(h.next, h.slots) == h.next;
    if h.enabled && !Busy(h) && |src| == |tgt| {
      var buf, b := h.base + h.next, |h.srcs|;
      var more := StepOps(h.events, buf, b, src, tgt);
      assert h'.ops == h.ops + more && h'.events == StepEvents(h.events, buf, |h.ops|);
      assert InFlight(h) == None;
      StepRaceFree(h.ops, h.events, buf, b, src, tgt);
      StepCovered(h.ops, h.events, buf, b, src, tgt);
      StepHolds(h.ops, h.events, buf, b, src, tgt);
      BufsAppend(h.ops, more, h.base + h.slots);
      TrainsStable(h.ops, more, h.events, h'.events, h.srcs, h'.srcs, h.tgts, h'.tgts);
      forall x: nat | h.base <= x < h.base + h.slots ensures Idle(h'.ops, h'.events, x) {
        StepIdle(h.ops, h.events, buf, b, src, tgt, x);
      }
    }
  }

  // ---- launch_forward -----------------------------------------------------------------

  ghost function ForwardOps(ops: seq<Op>, ev: Events, fwd: Option<nat>, buf: nat, b: nat, src: seq<Row>): seq<Op> {
    var f := if fwd.Some? then fwd.value else MAIN;
    if fwd.None? then
      [Op(MAIN, Record), Op(f, Wait(Bound(ev, TrainDone, buf))), Op(f, Copy(Source, buf, b, src)), Op(f, Record)]
    else
      [Op(MAIN, Record), Op(f, Wait(Bound(ev, TrainDone, buf))), Op(f, Wait(Some(|ops|))),
        Op(f, Copy(Source, buf, b, src)), Op(f, Record)]
  }

  ghost function ForwardEvents(ops: seq<Op>, ev: Events, fwd: Option<nat>, buf: nat): Events {
    ev[(SrcReady, buf) := |ops|][(SrcStaged, buf) := |ops| + (if fwd.None? then 3 else 4)]
  }

  lemma {:induction false} ForwardOrder(ops: seq<Op>, ev: Events, fwd: Option<nat>, buf: nat, b: nat, src: seq<Row>,
        i: nat, j: nat)
    requires Ordered(ops, ev) && Idle(ops, ev, buf)
    requires var all := ops + ForwardOps(ops, ev, fwd, buf, b, src);
      |all| - 2 <= j < |all| && i < j && Touches(all[i].action, buf)
    ensures Before(ops + ForwardOps(ops, ev, fwd, buf, b, src), i, j)
  {
    var more := ForwardOps(ops, ev, fwd, buf, b, src);
    var all, n := ops + more, |ops|;
    assert forall k: nat :: n <= k < |all| ==> all[k] == more[k - n];
    if i < n {
      assert all[i] == ops[i];
      BeforeSameStream(all, n + 1, j);
      if fwd.Some? {
        BeforeWait(all, n, n, n + 2);
        BeforeSameStream(all, n + 2, j);
        BeforeTransitive(all, n, n + 2, j);
      } else {
        BeforeSameStream(all, n, j);
      }
      AfterIdle(ops, more, ev, buf, i, n + 1, n, j);
    } else {
      BeforeSameStream(all, i, j);
    }
  }

  lemma {:induction false} ForwardOrdered(ops: seq<Op>, ev: Events, fwd: Option<nat>, buf: nat, b: nat, src: seq<Row>)
    requires Ordered(ops, ev) && Idle(ops, ev, buf)
    ensures Ordered(ops + ForwardOps(ops, ev, fwd, buf, b, src), ForwardEvents(ops, ev, fwd, buf))
  {
    var more := ForwardOps(ops, ev, fwd, buf, b, src);
    var all, n := ops + more, |ops|;
    assert forall k: nat :: n <= k < |all| ==> all[k] == more[k - n];
    forall i: nat, j: nat | i < j && n <= j < |all| && Conflict(all[i].action, all[j].action)
      ensures Before(all, i, j)
    {
      ForwardOrder(ops, ev, fwd, buf, b, src, i, j);
    }
    RaceFreeAppend(ops, more);
  }

  lemma {:induction false} ForwardStaged(ops: seq<Op>, ev: Events, fwd: Option<nat>, buf: nat, b: nat, src: seq<Row>)
    requires Ordered(ops, ev) && Idle(ops, ev, buf)
    ensures var all := ops + ForwardOps(ops, ev, fwd, buf, b, src);
      && Covered(all, ForwardEvents(ops, ev, fwd, buf), buf, SrcStaged, SrcStaged)
      && Holds(all, Source, buf, |all|, b, src)
  {
    var more, ev' := ForwardOps(ops, ev, fwd, buf, b, src), ForwardEvents(ops, ev, fwd, buf);
    var all, n := ops + more, |ops|;
    assert forall k: nat :: n <= k < |all| ==> all[k] == more[k - n];
    forall i: nat | i < |all| && Touches(all[i].action, buf) ensures BeforeEvent(all, ev', i, SrcStaged, buf) {
      ForwardOrder(ops, ev, fwd, buf, b, src, i, |all| - 1);
    }
    HoldsCopy(all, Source, buf, |all| - 2, b, src);
  }

  lemma {:induction false} LaunchForwardEffect(h: Host, src: seq<Row>)
    requires h.next < h.slots && (h.mode == Serial <==> h.streams.forward.None?) && h.enabled && !Busy(h)
    ensures var buf, b, fwd := h.base + h.next, |h.srcs|, h.streams.forward;
      LaunchForward(h, src) ==
        (h.(ops := h.ops + ForwardOps(h.ops, h.events, fwd, buf, b, src), next := Wrap(h.next + 1, h.slots),
            events := ForwardEvents(h.ops, h.events, fwd, buf), current := Some(h.next), ready := None,
            forwarded := fwd.Some?, srcs := h.srcs + [src]), Fine)
  {
    hide Ordered, SlotsIdle, CurrentOk, ReadyOk, TrainsHold, TrainsDone, BufsBelow;
    assert Wrap(h.next, h.slots) == h.next;
  }

  lemma {:induction false} LaunchForwardInv(h: Host, src: seq<Row>)
    requires Inv(h)
    ensures Inv(LaunchForward(h, src).0)
  {
    hide Idle, Before, BeforeEvent, Covered, Holds, TrainsHold, TrainsDone, RaceFree, WellBound, EventsOk,
         LaunchForward;
    if h.enabled && !Busy(h) {
      var buf, b, fwd := h.base + h.next, |h.srcs|, h.streams.forward;
      var more := ForwardOps(h.ops, h.events, fwd, buf, b, src);
      LaunchForwardEffect(h, src);
      var h' := LaunchForward(h, src).0;
      assert InFlight(h) == None;
      ForwardOrdered(h.ops, h.events, fwd, buf, b, src);
      ForwardStaged(h.ops, h.events, fwd, buf, b, src);
      BufsAppend(h.ops, more, h.base + h.slots);
      TrainsStable(h.ops, more, h.events, h'.events, h.srcs, h'.srcs, h.tgts, h'.tgts);
      forall x: nat | h.base <= x < h.base + h.slots && !(h'.forwarded && x == buf) ensures Idle(h'.ops, h'.events, x) {
        IdleStable(h.ops, more, h.events, h'.events, x);
      }
    } else {
      ForwardNoop(h, src);
    }
  }

  lemma {:induction false} ForwardNoop(h: Host, src: seq<Row>)
    requires h.slots > 0 && !(h.enabled && !Busy(h))
    ensures LaunchForward(h, src).0 == h
  {
  }

  // ---- launch_target ------------------------------------------------------------------

  ghost function TargetOps(ops: seq<Op>, fwd: Option<nat>, buf: nat, b: nat, tgt: seq<Row>): seq<Op> {
    var f := if fwd.Some? then fwd.value else MAIN;
    if fwd.None? then [Op(MAIN, Record), Op(f, Copy(Target, buf, b, tgt)), Op(f, Record)]
    else [Op(MAIN, Record), Op(f, Wait(Some(|ops|))), Op(f, Copy(Target, buf, b, tgt)), Op(f, Record)]
  }

  ghost function TargetEvents(ops: seq<Op>, ev: Events, fwd: Option<nat>, buf: nat): Events {
    ev[(TgtReady, buf) := |ops|][(TgtDone, buf) := |ops| + (if fwd.None? then 2 else 3)]
  }

  ghost predicate StagedOn(ops: seq<Op>, ev: Events, fwd: Option<nat>, buf: nat) {
    && Covered(ops, ev, buf, SrcStaged, SrcStaged)
    && (SrcStaged, buf) in ev && ev[(SrcStaged, buf)] < |ops|
    && ops[ev[(SrcStaged, buf)]].stream == (if fwd.Some? then fwd.value else MAIN)
  }

  lemma {:induction false} TargetOrder(ops: seq<Op>, ev: Events, fwd: Option<nat>, buf: nat, b: nat, tgt: seq<Row>,
        i: nat, j: nat)
    requires Ordered(ops, ev) && StagedOn(ops, ev, fwd, buf)
    requires var all := ops + TargetOps(ops, fwd, buf, b, tgt);
      |all| - 2 <= j < |all| && i < j && Touches(all[i].action, buf)
    ensures Before(ops + TargetOps(ops, fwd, buf, b, tgt), i, j)
  {
    var more := TargetOps(ops, fwd, buf, b, tgt);
    var all, n := ops + more, |ops|;
    assert forall k: nat :: n <= k < |all| ==> all[k] == more[k - n];
    if i < n {
      var r := ev[(SrcStaged, buf)];
      assert all[i] == ops[i] && all[r] == ops[r];
      assert BeforeEvent(ops, ev, i, SrcStaged, buf);
      BeforeStable(ops, more, i, r);
      BeforeSameStream(all, r, j);
      BeforeTransitive(all, i, r, j);
    } else {
      BeforeSameStream(all, i, j);
    }
  }

  lemma {:induction false} TargetOrdered(ops: seq<Op>, ev: Events, fwd: Option<nat>, buf: nat, b: nat, tgt: seq<Row>)
    requires Ordered(ops, ev) && StagedOn(ops, ev, fwd, buf)
    ensures Ordered(ops + TargetOps(ops, fwd, buf, b, tgt), TargetEvents(ops, ev, fwd, buf))
  {
    var more := TargetOps(ops, fwd, buf, b, tgt);
    var all, n := ops + more, |ops|;
    assert forall k: nat :: n <= k < |all| ==> all[k] == more[k - n];
    forall i: nat, j: nat | i < j && n <= j < |all| && Conflict(all[i].action, all[j].action)
      ensures Before(all, i, j)
    {
      TargetOrder(ops, ev, fwd, buf, b, tgt, i, j);
    }
    RaceFreeAppend(ops, more);
  }

  lemma {:induction false} TargetStaged(ops: seq<Op>, ev: Events, fwd: Option<nat>, buf: nat, b: nat, src: seq<Row>,
        tgt: seq<Row>)
    requires Ordered(ops, ev) && StagedOn(ops, ev, fwd, buf) && Holds(ops, Source, buf, |ops|, b, src)
    ensures var all := ops + TargetOps(ops, fwd, buf, b, tgt);
      && Covered(all, TargetEvents(ops, ev, fwd, buf), buf, SrcStaged, TgtDone)
      && Holds(all, Source, buf, |all|, b, src)
      && Holds(all, Target, buf, |all|, b, tgt)
  {
    var more, ev' := TargetOps(ops, fwd, buf, b, tgt), TargetEvents(ops, ev, fwd, buf);
    var all, n := ops + more, |ops|;
    assert forall k: nat :: n <= k < |all| ==> all[k] == more[k - n];
    forall i: nat | i < |all| && Touches(all[i].action, buf) ensures BeforeEvent(all, ev', i, TgtDone, buf) {
      TargetOrder(ops, ev, fwd, buf, b, tgt, i, |all| - 1);
    }
    HoldsCopy(all, Target, buf, |all| - 2, b, tgt);
    HoldsNow(ops, more, Source, buf, |all|, b, src);
  }

  lemma {:induction false} LaunchTargetInv(h: Host, tgt: seq<Row>)
    requires Inv(h)
    ensures Inv(LaunchTarget(h, tgt).0)
  {
    hide Idle, Before, BeforeEvent, Covered, Holds, TrainsHold, TrainsDone, RaceFree, WellBound, EventsOk;
    var h' := LaunchTarget(h, tgt).0;
    if h.enabled && h.current.Some? {
      var buf, b, fwd := h.base + h.current.value, |h.srcs| - 1, h.streams.forward;
      var more := TargetOps(h.ops, fwd, buf, b, tgt);
      assert h'.ops == h.ops + more && h'.events == TargetEvents(h.ops, h.events, fwd, buf);
      TargetOrdered(h.ops, h.events, fwd, buf, b, tgt);
      TargetStaged(h.ops, h.events, fwd, buf, b, h.srcs[b], tgt);
      BufsAppend(h.ops, more, h.base + h.slots);
      TrainsStable(h.ops, more, h.events, h'.events, h.srcs, h'.srcs, h.tgts, h'.tgts);
      forall x: nat | h.base <= x < h.base + h.slots && !(h'.forwarded && x == buf) ensures Idle(h'.ops, h'.events, x) {
        IdleStable(h.ops, more, h.events, h'.events, x);
      }
    }
  }

  // ---- launch_delayed_backward --------------------------------------------------------

  ghost function BackwardOps(ev: Events, st: nat, buf: nat, b: nat, rows: int, prompts: seq<int>): seq<Op> {
    [Op(st, Wait(Bound(ev, SrcStaged, buf))), Op(st, Wait(Bound(ev, TgtDone, buf))),
     Op(st, Train(buf, b, rows, prompts)), Op(st, Record)]
  }

  lemma {:induction false} BackwardOrder(ops: seq<Op>, ev: Events, st: nat, buf: nat, b: nat, rows: int,
        prompts: seq<int>, i: nat, j: nat)
    requires Ordered(ops, ev) && Covered(ops, ev, buf, SrcStaged, TgtDone)
    requires var all := ops + BackwardOps(ev, st, buf, b, rows, prompts);
      |ops| + 2 <= j < |all| && i < j && Touches(all[i].action, buf)
    ensures Before(ops + BackwardOps(ev, st, buf, b, rows, prompts), i, j)
  {
    var more := BackwardOps(ev, st, buf, b, rows, prompts);
    var all, n := ops + more, |ops|;
    assert forall k: nat :: n <= k < |all| ==> all[k] == more[k - n];
    if i < n {
      assert all[i] == ops[i];
      var e := if BeforeEvent(ops, ev, i, SrcStaged, buf) then SrcStaged else TgtDone;
      var w := if e == SrcStaged then n else n + 1;
      assert BeforeEvent(ops, ev, i, e, buf);
      BeforeStable(ops, more, i, ev[(e, buf)]);
      BeforeWait(all, i, ev[(e, buf)], w);
      BeforeSameStream(all, w, j);
      BeforeTransitive(all, i, w, j);
    } else {
      BeforeSameStream(all, i, j);
    }
  }

  lemma {:induction false} BackwardOrdered(ops: seq<Op>, ev: Events, st: nat, buf: nat, b: nat, rows: int,
        prompts: seq<int>)
    requires Ordered(ops, ev) && Covered(ops, ev, buf, SrcStaged, TgtDone)
    ensures Ordered(ops + BackwardOps(ev, st, buf, b, rows, prompts), ev[(TrainDone, buf) := |ops| + 3])
  {
    var more := BackwardOps(ev, st, buf, b, rows, prompts);
    var all, n := ops + more, |ops|;
    assert forall k: nat :: n <= k < |all| ==> all[k] == more[k - n];
    forall i: nat, j: nat | i < j && n <= j < |all| && Conflict(all[i].action, all[j].action)
      ensures Before(all, i, j)
    {
      BackwardOrder(ops, ev, st, buf, b, rows, prompts, i, j);
    }
    RaceFreeAppend(ops, more);
  }

  /** Once the training is queued its slot is idle again. */
  lemma {:induction false} BackwardIdle(ops: seq<Op>, ev: Events, st: nat, buf: nat, b: nat, rows: int,
        prompts: seq<int>)
    requires Ordered(ops, ev) && Covered(ops, ev, buf, SrcStaged, TgtDone)
    ensures var all, ev' := ops + BackwardOps(ev, st, buf, b, rows, prompts), ev[(TrainDone, buf) := |ops| + 3];
      forall i: nat :: i < |all| && Touches(all[i].action, buf) ==> BeforeEvent(all, ev', i, TrainDone, buf)
  {
    var more := BackwardOps(ev, st, buf, b, rows, prompts);
    var all, n := ops + more, |ops|;
    assert forall k: nat :: n <= k < |all| ==> all[k] == more[k - n];
    forall i: nat | i < |all| && Touches(all[i].action, buf)
      ensures BeforeEvent(all, ev[(TrainDone, buf) := n + 3], i, TrainDone, buf)
    {
      BackwardOrder(ops, ev, st, buf, b, rows, prompts, i, n + 3);
    }
  }

  lemma {:induction false} BackwardTrainsDone(ops: seq<Op>, ev: Events, st: nat, buf: nat, b: nat, rows: int,
        prompts: seq<int>)
    requires Ordered(ops, ev) && Covered(ops, ev, buf, SrcStaged, TgtDone) && TrainsDone(ops, ev)
    ensures TrainsDone(ops + BackwardOps(ev, st, buf, b, rows, prompts), ev[(TrainDone, buf) := |ops| + 3])
  {
    var more, ev' := BackwardOps(ev, st, buf, b, rows, prompts), ev[(TrainDone, buf) := |ops| + 3];
    var all, n := ops + more, |ops|;
    assert forall k: nat :: n <= k < |all| ==> all[k] == more[k - n];
    BackwardIdle(ops, ev, st, buf, b, rows, prompts);
    forall i: nat | i < |all| && all[i].action.Train? ensures BeforeEvent(all, ev', i, TrainDone, all[i].action.buf) {
      if all[i].action.buf != buf {
        assert all[i] == ops[i];
        EventStable(ops, more, ev, ev', i, TrainDone, ops[i].action.buf);
      }
    }
  }

  lemma {:induction false} BackwardHolds(ops: seq<Op>, ev: Events, srcs: seq<seq<Row>>, tgts: map<nat, seq<Row>>,
                      st: nat, buf: nat, b: nat, rows: int, prompts: seq<int>)
    requires TrainsHold(ops, srcs, tgts) && b < |srcs| && b in tgts
    requires Holds(ops, Source, buf, |ops|, b, srcs[b]) && Holds(ops, Target, buf, |ops|, b, tgts[b])
    ensures TrainsHold(ops + BackwardOps(ev, st, buf, b, rows, prompts), srcs, tgts)
  {
    var more := BackwardOps(ev, st, buf, b, rows, prompts);
    var all, n := ops + more, |ops|;
    assert forall k: nat :: n <= k < |all| ==> all[k] == more[k - n];
    forall i: nat | i < |all| && all[i].action.Train? ensures TrainHolds(all, srcs, tgts, i) {
      if i < n {
        assert all[i] == ops[i];
        TrainHoldsStable(ops, more, srcs, srcs, tgts, tgts, i);
      } else {
        HoldsNow(ops, more, Source, buf, i, b, srcs[b]);
        HoldsNow(ops, more, Target, buf, i, b, tgts[b]);
      }
    }
  }

  /** With one entry queued, draining enqueues exactly its four operations. */
  lemma {:induction false} BackwardEffect(h: Host, rows: int, prompts: seq<int>)
    requires h.pending == [] && |h.srcs| > 0 && (h.mode == Serial <==> h.streams.train.None?)
    requires h.enabled && h.ready.Some?
    ensures var st := if h.mode == Serial then MAIN else h.streams.train.value;
      var buf := h.base + h.ready.value;
      LaunchDelayedBackward(h, rows, prompts) ==
        (h.(ready := None, ops := h.ops + BackwardOps(h.events, st, buf, |h.srcs| - 1, rows, prompts),
            events := h.events[(TrainDone, buf) := |h.ops| + 3]), Fine)
  {
    var st := if h.mode == Serial then MAIN else h.streams.train.value;
    var h1 := h.(pending := h.pending + [Queued(h.ready.value, rows, prompts)], ready := None);
    assert h1.pending[1..] == [];
    assert Drain(h1, st) == Drain(TrainHead(h1, st), st) == TrainHead(h1, st);
  }

  lemma {:induction false} LaunchDelayedBackwardInv(h: Host, rows: int, prompts: seq<int>)
    requires Inv(h)
    ensures Inv(LaunchDelayedBackward(h, rows, prompts).0)
  {
    hide Idle, Before, BeforeEvent, Covered, Holds, TrainsHold, TrainsDone, RaceFree, WellBound, EventsOk,
         LaunchDelayedBackward;
    var h' := LaunchDelayedBackward(h, rows, prompts).0;
    if h.enabled && h.ready.Some? {
      var st := if h.mode == Serial then MAIN else h.streams.train.value;
      var buf, b := h.base + h.ready.value, |h.srcs| - 1;
      var more := BackwardOps(h.events, st, buf, b, rows, prompts);
      BackwardEffect(h, rows, prompts);
      BackwardOrdered(h.ops, h.events, st, buf, b, rows, prompts);
      BackwardTrainsDone(h.ops, h.events, st, buf, b, rows, prompts);
      BackwardHolds(h.ops, h.events, h.srcs, h.tgts, st, buf, b, rows, prompts);
      BufsAppend(h.ops, more, h.base + h.slots);
      forall x: nat | h.base <= x < h.base + h.slots ensures Idle(h'.ops, h'.events, x) {
        if x == buf {
          BackwardIdle(h.ops, h.events, st, buf, b, rows, prompts);
          IdleIntro(h'.ops, h'.events, buf);
        } else {
          IdleStable(h.ops, more, h.events, h'.events, x);
        }
      }
    } else {
      BackwardNoop(h, rows, prompts);
    }
  }

  lemma {:induction false} IdleIntro(ops: seq<Op>, ev: Events, buf: nat)
    requires forall i: nat :: i < |ops| && Touches(ops[i].action, buf) ==> BeforeEvent(ops, ev, i, TrainDone, buf)
    ensures Idle(ops, ev, buf)
  {
  }

  lemma {:induction false} BackwardNoop(h: Host, rows: int, prompts: seq<int>)
    requires h.pending == [] && !(h.enabled && h.ready.Some?)
    ensures LaunchDelayedBackward(h, rows, prompts).0 == h
  {
  }

  /** A training that raises drops its step; on the main stream nothing is lost. */
  lemma {:induction false} RaisingBackwardInv(h: Host, rows: int, prompts: seq<int>)
    requires Inv(h) && !(h.enabled && h.ready.Some? && h.forwarded)
    ensures Inv(RaisingBackward(h, rows, prompts))
  {
    hide Idle, Before, BeforeEvent, Covered, Holds, TrainsHold, TrainsDone, RaceFree, WellBound, LaunchDelayedBackward;
    if h.enabled && h.ready.Some? {
      var h' := RaisingBackward(h, rows, prompts);
      var more := h'.ops[|h.ops|..];
      assert h'.ops == h.ops + more;
      QuietAppend(h.ops, more, h.events);
      TrainsStable(h.ops, more, h.events, h.events, h.srcs, h.srcs, h.tgts, h.tgts);
      BufsAppend(h.ops, more, h.base + h.slots);
      forall x: nat | h.base <= x < h.base + h.slots ensures Idle(h'.ops, h'.events, x) {
        IdleStable(h.ops, more, h.events, h'.events, x);
      }
    } else {
      BackwardNoop(h, rows, prompts);
    }
  }

  /** Bound waits keep the log ordered. */
  lemma {:induction false} QuietAppend(ops: seq<Op>, more: seq<Op>, ev: Events)
    requires Ordered(ops, ev)
    requires forall k: nat :: k < |more| ==>
      more[k].action.Wait? && (more[k].action.target.Some? ==> more[k].action.target.value < |ops|)
    ensures Ordered(ops + more, ev)
  {
    var all := ops + more;
    assert forall k: nat :: |ops| <= k < |all| ==> all[k] == more[k - |ops|];
    RaceFreeAppend(ops, more);
  }

  /** A launch that raises for its rows' width enqueues the beginning of a launch. */
  lemma {:induction false} MisfitStepInv(h: Host, fitting: Option<seq<Row>>)
    requires Inv(h)
    ensures Inv(MisfitStep(h, fitting))
  {
    hide Idle, Before, BeforeEvent, Covered, Holds, TrainsHold, TrainsDone, RaceFree, WellBound, EventsOk;
    if h.enabled && !Busy(h) {
      var h', buf := MisfitStep(h, fitting), h.base + h.next;
      assert Wrap(h.next, h.slots) == h.next;
      var src := if fitting.Some? then fitting.value else [];
      var whole := StepOps(h.events, buf, |h.srcs|, src, []);
      var n := if fitting.Some? then 2 else 1;
      var more := whole[..n];
      assert h'.ops == h.ops + more;
      StepRaceFree(h.ops, h.events, buf, |h.srcs|, src, []);
      PrefixOrdered(h.ops, whole, n, h.events);
      TrainsStable(h.ops, more, h.events, h.events, h.srcs, h.srcs, h.tgts, h.tgts);
      BufsAppend(h.ops, more, h.base + h.slots);
      forall x: nat | h.base <= x < h.base + h.slots ensures Idle(h'.ops, h'.events, x) {
        IdleStable(h.ops, more, h.events, h'.events, x);
      }
    }
  }

  lemma {:induction false} PrefixOrdered(ops: seq<Op>, more: seq<Op>, n: nat, ev: Events)
    requires Ordered(ops, ev) && n <= |more| && WellBound(ops + more) && RaceFree(ops + more)
    ensures Ordered(ops + more[..n], ev)
  {
    var all := ops + more[..n];
    assert all + more[n..] == ops + more;
    assert forall k: nat :: k < |all| ==> all[k] == (ops + more)[k];
    RaceFreePrefix(all, more[n..]);
  }

  // ---- reconfiguration ----------------------------------------------------------------

  /** configure is called while a step that launch_forward copied off the main stream is in
      flight, and the pipeline buffers survive the call. */
  predicate Abandons(h: Host, slots: int, layout: Layout) {
    h.forwarded && Busy(h) && Max(1, slots) == h.slots && layout == h.layout
  }

  lemma {:induction false} IdleNew(ops: seq<Op>, ev: Events, buf: nat, limit: nat)
    requires BufsBelow(ops, limit) && limit <= buf
    ensures Idle(ops, ev, buf)
  {
  }

  lemma {:induction false} ReconfigureInv(h: Host, on: bool, mode: Mode, slots: int, layout: Layout)
    requires Inv(h) && !Abandons(h, slots, layout)
    ensures Inv(Reconfigure(h, on, mode, slots, layout))
  {
    hide Idle, Before, BeforeEvent, Covered, Holds, TrainsHold, TrainsDone, RaceFree, WellBound, EventsOk,
         EnsureStreams, StreamsFor;
    var wanted := Max(1, slots);
    var h1 := Forget(h, on);
    var h2 := if wanted == h.slots && layout == h.layout then h1
              else h1.(base := h.base + h.slots, slots := wanted, layout := layout, next := 0);
    var h' := h2.(mode := mode, streams := EnsureStreams(StreamsFor(h1, layout), mode));
    assert Reconfigure(h, on, mode, slots, layout) == h';
    assert InFlight(h') == None;
    forall x: nat | h2.base <= x < h2.base + h2.slots ensures Idle(h.ops, h.events, x) {
      if h2.base == h.base {
        assert InFlight(h) == None || !h.forwarded;
      } else {
        IdleNew(h.ops, h.events, x, h.base + h.slots);
      }
    }
  }

  lemma {:induction false} FreshInv(mode: Mode, slots: int, layout: Layout)
    ensures Inv(Fresh(mode, slots, layout))
    ensures var h := Fresh(mode, slots, layout);
      h.slots == (if slots < 1 then 1 else slots) && h.mode == mode && h.layout == layout && h.enabled
  {
  }
}
