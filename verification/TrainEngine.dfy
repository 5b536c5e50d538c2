/** The pipeline methods of the training engine, field by field, against TrainPipeline. */
module TrainEngine {
  import opened Common
  import opened DeviceQueue
  import Spec = TrainPipeline
  import opened TrainPipelineProofs

  class Pipeline {
    var enabled: bool
    var mode: Spec.Mode
    var slots: nat
    var layout: Spec.Layout
    var base: nat
    var streams: Spec.Streams
    var currentStepSlot: Option<nat>
    var readyStepSlot: Option<nat>
    var nextPipelineSlot: nat
    var pendingTrainQueue: seq<Spec.Queued>
    var events: Spec.Events
    var ops: seq<Op>
    var forwarded: bool
    var srcs: seq<seq<Row>>
    var tgts: map<nat, seq<Row>>

    ghost function View(): Spec.Host
      reads this
    {
      Spec.Host(enabled, mode, slots, layout, base, streams, currentStepSlot, readyStepSlot, nextPipelineSlot,
                pendingTrainQueue, events, ops, forwarded, srcs, tgts)
    }

    constructor (mode: Spec.Mode, wantedSlots: int, layout: Spec.Layout)
      ensures View() == Spec.Fresh(mode, wantedSlots, layout)
    {
      enabled, this.mode, slots, this.layout, base := true, mode, Max(1, wantedSlots), layout, 0;
      streams := Spec.EnsureStreams(Spec.Streams(None, None, 1), mode);
      currentStepSlot, readyStepSlot, nextPipelineSlot, pendingTrainQueue := None, None, 0, [];
      events, ops, forwarded, srcs, tgts := map[], [], false, [], map[];
    }

    /** event.record(stream) */
    method RecordEvent(e: Spec.Event, buf: nat, stream: nat)
      modifies this`ops, this`events
      ensures ops == old(ops) + [Op(stream, Record)] && events == old(events)[(e, buf) := |old(ops)|]
    {
      events := events[(e, buf) := |ops|];
      ops := ops + [Op(stream, Record)];
    }

    /** stream.wait_event(event): bound to the latest record made so far */
    method WaitEvent(e: Spec.Event, buf: nat, stream: nat)
      modifies this`ops
      ensures ops == old(ops) + [Op(stream, Wait(Spec.Bound(events, e, buf)))]
    {
      ops := ops + [Op(stream, Wait(Spec.Bound(events, e, buf)))];
    }

    method CopyInto(side: Side, buf: nat, batch: nat, data: seq<Row>, stream: nat)
      modifies this`ops
      ensures ops == old(ops) + [Op(stream, Copy(side, buf, batch, data))]
    {
      ops := ops + [Op(stream, Copy(side, buf, batch, data))];
    }

    /** _launch_step_kernel: wait for the slot's last training, copy both sides, record both events. */
    method LaunchStepKernel(buf: nat, batch: nat, src: seq<Row>, tgt: seq<Row>)
      modifies this`ops, this`events
      ensures ops == old(ops) + StepOps(old(events), buf, batch, src, tgt)
      ensures events == old(events)[(Spec.SrcStaged, buf) := |old(ops)| + 3][(Spec.TgtDone, buf) := |old(ops)| + 4]
    {
      WaitEvent(Spec.TrainDone, buf, Spec.MAIN);
      CopyInto(Source, buf, batch, src, Spec.MAIN);
      CopyInto(Target, buf, batch, tgt, Spec.MAIN);
      RecordEvent(Spec.SrcStaged, buf, Spec.MAIN);
      RecordEvent(Spec.TgtDone, buf, Spec.MAIN);
    }

    /** The slot is filled and becomes the ready one. */
    method FillSlot(slot: nat, src: seq<Row>, tgt: seq<Row>)
      modifies this`ops, this`events, this`currentStepSlot, this`readyStepSlot, this`forwarded, this`srcs, this`tgts
      ensures ops == old(ops) + StepOps(old(events), base + slot, |old(srcs)|, src, tgt)
      ensures events ==
        old(events)[(Spec.SrcStaged, base + slot) := |old(ops)| + 3][(Spec.TgtDone, base + slot) := |old(ops)| + 4]
      ensures currentStepSlot == None && readyStepSlot == Some(slot) && !forwarded
      ensures srcs == old(srcs) + [src] && tgts == old(tgts)[|old(srcs)| := tgt]
    {
      hide StepOps;
      LaunchStepKernel(base + slot, |srcs|, src, tgt);
      tgts := tgts[|srcs| := tgt];
      currentStepSlot, readyStepSlot, forwarded, srcs := None, Some(slot), false, srcs + [src];
    }

    method LaunchStep(src: seq<Row>, tgt: seq<Row>) returns (st: Spec.Status)
      requires slots > 0
      modifies this
      ensures (View(), st) == Spec.LaunchStep(old(View()), src, tgt)
    {
      hide Spec.Bound, Spec.Wrap, Spec.LaunchStep, StepOps;
      LaunchStepCases(View(), src, tgt);
      if !enabled { return Spec.Fine; }
      if currentStepSlot.Some? || readyStepSlot.Some? || pendingTrainQueue != [] { return Spec.OrderViolation; }
      var slot := Spec.Wrap(nextPipelineSlot, slots);
      nextPipelineSlot := Spec.Wrap(slot + 1, slots);
      if |src| != |tgt| { return Spec.RowMismatch; }
      FillSlot(slot, src, tgt);
      return Spec.Fine;
    }

    /** _launch_forward_kernel */
    method LaunchForwardKernel(buf: nat, batch: nat, src: seq<Row>)
      modifies this`ops, this`events
      ensures ops == old(ops) + ForwardOps(old(ops), old(events), streams.forward, buf, batch, src)
      ensures events == ForwardEvents(old(ops), old(events), streams.forward, buf)
    {
      RecordEvent(Spec.SrcReady, buf, Spec.MAIN);
      if streams.forward.None? {
        WaitEvent(Spec.TrainDone, buf, Spec.MAIN);
        CopyInto(Source, buf, batch, src, Spec.MAIN);
        RecordEvent(Spec.SrcStaged, buf, Spec.MAIN);
      } else {
        var f := streams.forward.value;
        WaitEvent(Spec.TrainDone, buf, f);
        WaitEvent(Spec.SrcReady, buf, f);
        CopyInto(Source, buf, batch, src, f);
        RecordEvent(Spec.SrcStaged, buf, f);
      }
    }

    method FillForward(slot: nat, src: seq<Row>)
      modifies this`ops, this`events, this`currentStepSlot, this`readyStepSlot, this`forwarded, this`srcs
      ensures ops == old(ops) + ForwardOps(old(ops), old(events), streams.forward, base + slot, |old(srcs)|, src)
      ensures events == ForwardEvents(old(ops), old(events), streams.forward, base + slot)
      ensures currentStepSlot == Some(slot) && readyStepSlot == None && forwarded == streams.forward.Some?
      ensures srcs == old(srcs) + [src]
    {
      currentStepSlot, readyStepSlot := Some(slot), None;
      LaunchForwardKernel(base + slot, |srcs|, src);
      forwarded, srcs := streams.forward.Some?, srcs + [src];
    }

    method LaunchForward(src: seq<Row>) returns (st: Spec.Status)
      requires slots > 0
      modifies this
      ensures (View(), st) == Spec.LaunchForward(old(View()), src)
    {
      hide Spec.Bound, Spec.Wrap, Spec.LaunchForward, ForwardOps, ForwardEvents;
      LaunchForwardCases(View(), src);
      if !enabled { return Spec.Fine; }
      if currentStepSlot.Some? || readyStepSlot.Some? || pendingTrainQueue != [] { return Spec.OrderViolation; }
      if streams.forward.None? && mode != Spec.Serial { return Spec.NoStream; }
      var slot := Spec.Wrap(nextPipelineSlot, slots);
      nextPipelineSlot := Spec.Wrap(slot + 1, slots);
      FillForward(slot, src);
      return Spec.Fine;
    }

    /** _launch_target_kernel */
    method LaunchTargetKernel(buf: nat, batch: nat, tgt: seq<Row>)
      modifies this`ops, this`events
      ensures ops == old(ops) + TargetOps(old(ops), streams.forward, buf, batch, tgt)
      ensures events == TargetEvents(old(ops), old(events), streams.forward, buf)
    {
      RecordEvent(Spec.TgtReady, buf, Spec.MAIN);
      if streams.forward.None? {
        CopyInto(Target, buf, batch, tgt, Spec.MAIN);
        RecordEvent(Spec.TgtDone, buf, Spec.MAIN);
      } else {
        var f := streams.forward.value;
        WaitEvent(Spec.TgtReady, buf, f);
        CopyInto(Target, buf, batch, tgt, f);
        RecordEvent(Spec.TgtDone, buf, f);
      }
    }

    method LaunchTarget(tgt: seq<Row>) returns (st: Spec.Status)
      modifies this
      ensures (View(), st) == Spec.LaunchTarget(old(View()), tgt)
    {
      if !enabled { return Spec.Fine; }
      if streams.forward.None? && mode != Spec.Serial { return Spec.NoStream; }
      if currentStepSlot.None? { return Spec.NoActiveSlot; }
      var slot := currentStepSlot.value;
      var buf, batch := base + slot, if |srcs| == 0 then 0 else |srcs| - 1;
      LaunchTargetKernel(buf, batch, tgt);
      currentStepSlot, readyStepSlot, tgts := None, Some(slot), tgts[batch := tgt];
      return Spec.Fine;
    }

    /** _train_slot_kernel: wait for both copies, train, record the slot's done event. */
    method TrainKernel(buf: nat, batch: nat, q: Spec.Queued, stream: nat)
      modifies this`ops, this`events
      ensures ops == old(ops) + BackwardOps(old(events), stream, buf, batch, q.activeRows, q.prompts)
      ensures events == old(events)[(Spec.TrainDone, buf) := |old(ops)| + 3]
    {
      WaitEvent(Spec.SrcStaged, buf, stream);
      WaitEvent(Spec.TgtDone, buf, stream);
      ops := ops + [Op(stream, Train(buf, batch, q.activeRows, q.prompts))];
      RecordEvent(Spec.TrainDone, buf, stream);
    }

    /** One turn of the drain loop. */
    method TrainHead(stream: nat)
      requires pendingTrainQueue != []
      modifies this
      ensures View() == Spec.TrainHead(old(View()), stream)
    {
      hide BackwardOps, Spec.TrainHead, Spec.TrainOps;
      TrainHeadCases(View(), stream);
      var q := pendingTrainQueue[0];
      pendingTrainQueue := pendingTrainQueue[1..];
      TrainKernel(base + q.slot, if |srcs| == 0 then 0 else |srcs| - 1, q, stream);
    }

    /** Drains the queue in order. */
    method LaunchDelayedBackward(activeRows: int, prompts: seq<int>) returns (st: Spec.Status)
      modifies this
      ensures (View(), st) == Spec.LaunchDelayedBackward(old(View()), activeRows, prompts)
    {
      if !enabled { return Spec.Fine; }
      if streams.train.None? && mode != Spec.Serial { return Spec.NoStream; }
      if readyStepSlot.Some? {
        pendingTrainQueue := pendingTrainQueue + [Spec.Queued(readyStepSlot.value, activeRows, prompts)];
        readyStepSlot := None;
      }
      var stream := if mode == Spec.Serial then Spec.MAIN else streams.train.value;
      ghost var whole := Spec.Drain(View(), stream);
      while pendingTrainQueue != []
        invariant Spec.Drain(View(), stream) == whole
        decreases |pendingTrainQueue|
      {
        TrainHead(stream);
      }
      return Spec.Fine;
    }

    /** launch_step when a copy raises for the width of the rows */
    method FailLaunch(fitting: Option<seq<Row>>)
      requires slots > 0
      modifies this`ops, this`nextPipelineSlot
      ensures View() == Spec.FailedLaunch(old(View()), fitting)
    {
      var slot := Spec.Wrap(nextPipelineSlot, slots);
      nextPipelineSlot := Spec.Wrap(slot + 1, slots);
      WaitEvent(Spec.TrainDone, base + slot, Spec.MAIN);
      if fitting.Some? { CopyInto(Source, base + slot, |srcs|, fitting.value, Spec.MAIN); }
    }

    /** launch_delayed_backward when training the queued step raises */
    method FailBackward(activeRows: int, prompts: seq<int>)
      requires readyStepSlot.Some? && pendingTrainQueue == []
      modifies this
      ensures View() == Spec.FailedBackward(old(View()), activeRows, prompts)
    {
      var buf := base + readyStepSlot.value;
      var stream := if mode == Spec.Serial || streams.train.None? then Spec.MAIN else streams.train.value;
      readyStepSlot := None;
      WaitEvent(Spec.SrcStaged, buf, stream);
      WaitEvent(Spec.TgtDone, buf, stream);
    }

    /** _ensure_pipeline: another shape, dtype or device means new buffers and new events, and no step in
        flight. */
    method EnsurePipeline(wantedSlots: int, layout: Spec.Layout)
      modifies this`base, this`slots, this`layout, this`nextPipelineSlot, this`currentStepSlot, this`readyStepSlot,
               this`pendingTrainQueue
      ensures slots == Max(1, wantedSlots) && this.layout == layout
      ensures var same := old(slots) == Max(1, wantedSlots) && old(this.layout) == layout;
        && base == (if same then old(base) else old(base) + old(slots))
        && nextPipelineSlot == (if same then old(nextPipelineSlot) else 0)
        && currentStepSlot == (if same then old(currentStepSlot) else None)
        && readyStepSlot == (if same then old(readyStepSlot) else None)
        && pendingTrainQueue == if same then old(pendingTrainQueue) else []
    {
      if Max(1, wantedSlots) != slots || layout != this.layout {
        base, nextPipelineSlot := base + slots, 0;
        slots, this.layout := Max(1, wantedSlots), layout;
        currentStepSlot, readyStepSlot, pendingTrainQueue := None, None, [];
      }
    }

    /** ensure_resources: the side streams of another device are of no use. */
    method DropStreams(layout: Spec.Layout)
      modifies this`streams
      ensures streams == Spec.StreamsFor(old(View()), layout)
    {
      if layout.device != this.layout.device { streams := streams.(forward := None, train := None); }
    }

    /** configure: the step in flight is forgotten. */
    method ForgetStep(on: bool)
      modifies this
      ensures View() == Spec.Forget(old(View()), on)
    {
      enabled, currentStepSlot, readyStepSlot, pendingTrainQueue := on, None, None, [];
    }

    /** ensure_resources */
    method EnsureResources(mode: Spec.Mode, wantedSlots: int, layout: Spec.Layout)
      modifies this
      ensures View() == Spec.EnsureResources(old(View()), mode, wantedSlots, layout)
    {
      hide Spec.EnsureStreams, Spec.StreamsFor, Max;
      DropStreams(layout);
      EnsurePipeline(wantedSlots, layout);
      streams := Spec.EnsureStreams(streams, mode);
      this.mode := mode;
    }

    method Reconfigure(on: bool, mode: Spec.Mode, wantedSlots: int, layout: Spec.Layout)
      modifies this
      ensures View() == Spec.Reconfigure(old(View()), on, mode, wantedSlots, layout)
    {
      hide Spec.EnsureResources, Spec.Forget;
      ForgetStep(on);
      EnsureResources(mode, wantedSlots, layout);
    }
  }

  // ---- the specification as field updates ------------------------------------------------

  lemma {:induction false} LaunchForwardCases(h: Spec.Host, src: seq<Row>)
    requires h.slots > 0
    ensures Spec.LaunchForward(h, src) ==
      if !h.enabled then (h, Spec.Fine)
      else if Spec.Busy(h) then (h, Spec.OrderViolation)
      else if h.streams.forward.None? && h.mode != Spec.Serial then (h, Spec.NoStream)
      else (h.(next := Spec.Wrap(Spec.Wrap(h.next, h.slots) + 1, h.slots),
               ops := h.ops + ForwardOps(h.ops, h.events, h.streams.forward, h.base + Spec.Wrap(h.next, h.slots),
                                           |h.srcs|, src),
               events := ForwardEvents(h.ops, h.events, h.streams.forward, h.base + Spec.Wrap(h.next, h.slots)),
               current := Some(Spec.Wrap(h.next, h.slots)), ready := None,
               forwarded := h.streams.forward.Some?, srcs := h.srcs + [src]), Spec.Fine)
  {
  }

  lemma {:induction false} TrainHeadCases(h: Spec.Host, stream: nat)
    requires h.pending != []
    ensures Spec.TrainHead(h, stream) == h.(pending := h.pending[1..],
      ops := h.ops + BackwardOps(h.events, stream, h.base + h.pending[0].slot,
                                 if |h.srcs| == 0 then 0 else |h.srcs| - 1,
                                 h.pending[0].activeRows, h.pending[0].prompts),
      events := h.events[(Spec.TrainDone, h.base + h.pending[0].slot) := |h.ops| + 3])
  {
  }
}
