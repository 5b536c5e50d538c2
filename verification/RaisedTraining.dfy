/** A training that raises drops a forward-launched step, and the next step trains on its rows. */
module RaisedTraining {
  import opened Common
  import opened DeviceQueue
  import opened TrainPipeline
  import opened TrainPipelineProofs
  import opened TrainRuns
  import opened AbandonedStep

  const RAISED_CALLS: seq<Call> :=
    [ForwardRows([OLD_ROW]), TargetRows([OLD_ROW]), RaisingTraining(1, [-1]), Step([NEW_ROW], [NEW_ROW]),
      Backward(1, [7])]

  const RAISED_LOG: seq<Op> :=
    [Op(MAIN, Record), Op(1, Wait(None)), Op(1, Wait(Some(0))), Op(1, Copy(Source, 0, 0, [OLD_ROW])), Op(1, Record),
     Op(MAIN, Record), Op(1, Wait(Some(5))), Op(1, Copy(Target, 0, 0, [OLD_ROW])), Op(1, Record),
     Op(2, Wait(Some(4))), Op(2, Wait(Some(8))),
     Op(MAIN, Wait(None)), Op(MAIN, Copy(Source, 0, 1, [NEW_ROW])), Op(MAIN, Copy(Target, 0, 1, [NEW_ROW])),
     Op(MAIN, Record), Op(MAIN, Record),
     Op(2, Wait(Some(14))), Op(2, Wait(Some(15))), Op(2, Train(0, 1, 1, [7])), Op(2, Record)]

  // ---- the log -----------------------------------------------------------------------------

  /** The two launches that are copied on the forward stream. */
  lemma {:induction false} RaisedLaunches(h: Host)
    requires h == Fresh(Dual, 1, TINY)
    ensures var h2 := LaunchTarget(LaunchForward(h, [OLD_ROW]).0, [OLD_ROW]).0;
      && h2.ops == RAISED_LOG[..9] && |h2.srcs| == 1
      && h2.events == map[(SrcReady, 0) := 0, (SrcStaged, 0) := 4, (TgtReady, 0) := 5, (TgtDone, 0) := 8]
      && h2 == h.(ops := h2.ops, events := h2.events, ready := Some(0), forwarded := true, srcs := h2.srcs,
                  tgts := h2.tgts)
  {
    hide LaunchForward;
    BadForward(h);
    assert BAD_LOG[..5] == RAISED_LOG[..5];
    var h1 := LaunchForward(h, [OLD_ROW]).0;
    var h2 := LaunchTarget(h1, [OLD_ROW]).0;
    assert h2.ops == RAISED_LOG[..9];
  }

  /** The training that raises, and the next step up to its training. */
  lemma {:induction false} RaisedStep(h: Host)
    requires h.enabled && h.mode == Dual && h.streams.train == Some(2) && h.ready == Some(0) && h.current.None?
    requires h.slots == 1 && h.base == 0 && h.next == 0 && |h.srcs| == 1 && h.pending == []
    requires h.ops == RAISED_LOG[..9]
    requires h.events == map[(SrcReady, 0) := 0, (SrcStaged, 0) := 4, (TgtReady, 0) := 5, (TgtDone, 0) := 8]
    ensures RaisingBackward(h, 1, [-1]).slots == 1
    ensures var h' := LaunchStep(RaisingBackward(h, 1, [-1]), [NEW_ROW], [NEW_ROW]).0;
      && h'.ops == RAISED_LOG[..16] && |h'.srcs| == 2
      && h'.events == h.events[(SrcStaged, 0) := 14][(TgtDone, 0) := 15]
      && h' == h.(ops := h'.ops, events := h'.events, ready := Some(0), forwarded := false, srcs := h'.srcs,
                  tgts := h'.tgts)
  {
    assert Wrap(h.next, h.slots) == 0 && Wrap(0 + 1, h.slots) == 0;
    var h1 := RaisingBackward(h, 1, [-1]);
    assert h1.ops == RAISED_LOG[..11];
  }

  lemma {:induction false} RaisedBackward(h: Host)
    requires h.enabled && h.mode == Dual && h.streams.train == Some(2) && h.ready == Some(0) && h.pending == []
    requires h.base == 0 && h.ops == RAISED_LOG[..16] && |h.srcs| == 2
    requires (SrcStaged, 0) in h.events && h.events[(SrcStaged, 0)] == 14
    requires (TgtDone, 0) in h.events && h.events[(TgtDone, 0)] == 15
    ensures LaunchDelayedBackward(h, 1, [7]).0.ops == RAISED_LOG
  {
    BackwardEffect(h, 1, [7]);
  }

  lemma {:induction false} RaisedLog()
    ensures RunCalls(Fresh(Dual, 1, TINY), RAISED_CALLS).ops == RAISED_LOG
  {
    hide LaunchForward, LaunchTarget, LaunchStep, LaunchDelayedBackward, RaisingBackward, RunCalls, RAISED_LOG;
    var h0 := Fresh(Dual, 1, TINY);
    RaisedLaunches(h0);
    var h1 := LaunchForward(h0, [OLD_ROW]).0;
    assert h1.slots == 1 by { BadForward(h0); }
    var h2 := LaunchTarget(h1, [OLD_ROW]).0;
    RaisedStep(h2);
    var h3 := RaisingBackward(h2, 1, [-1]);
    var h4 := LaunchStep(h3, [NEW_ROW], [NEW_ROW]).0;
    RaisedBackward(h4);
    var h5 := LaunchDelayedBackward(h4, 1, [7]).0;
    RunOne(h0, RAISED_CALLS);
    RunOne(h1, RAISED_CALLS[1..]);
    RunOne(h2, RAISED_CALLS[1..][1..]);
    RunOne(h3, RAISED_CALLS[1..][1..][1..]);
    RunOne(h4, RAISED_CALLS[1..][1..][1..][1..]);
    RunNone(h5, RAISED_CALLS[1..][1..][1..][1..][1..]);
  }

  // ---- a schedule ------------------------------------------------------------------------------

  /** The main stream runs ahead of the forward stream. */
  lemma {:induction false} NewRowsFirst(init: Memory)
    requires |init(Source, 0)| == 1 && |init(Target, 0)| == 1
    ensures var ids, d := [0, 5, 11, 12, 13, 14, 15], Device({}, map[], []);
      && Schedulable(RAISED_LOG, init, d, ids)
      && var e := Schedule(RAISED_LOG, init, d, ids);
         && e.done == {0, 5, 11, 12, 13, 14, 15} && e.observed == []
         && |Load(e, init, Source, 0)| == 1 && |Load(e, init, Target, 0)| == 1
  {
    hide Schedulable, Schedule;
    var d := Device({}, map[], []);
    ScheduleOne(RAISED_LOG, init, d, 0);
    Extend(RAISED_LOG, init, d, [0, 5], [0]);
    Extend(RAISED_LOG, init, d, [0, 5, 11], [0, 5]);
    Extend(RAISED_LOG, init, d, [0, 5, 11, 12], [0, 5, 11]);
    Extend(RAISED_LOG, init, d, [0, 5, 11, 12, 13], [0, 5, 11, 12]);
    Extend(RAISED_LOG, init, d, [0, 5, 11, 12, 13, 14], [0, 5, 11, 12, 13]);
    Extend(RAISED_LOG, init, d, [0, 5, 11, 12, 13, 14, 15], [0, 5, 11, 12, 13, 14]);
  }

  /** Then the forward stream puts the dropped step's source rows over them ... */
  lemma {:induction false} OldSourceLands(init: Memory, d: Device)
    requires |Load(d, init, Source, 0)| == 1 && |Load(d, init, Target, 0)| == 1
    requires d.done == {0, 5, 11, 12, 13, 14, 15} && d.observed == []
    ensures Schedulable(RAISED_LOG, init, d, [1, 2, 3, 4])
    ensures var e := Schedule(RAISED_LOG, init, d, [1, 2, 3, 4]);
      && e.done == {0, 1, 2, 3, 4, 5, 11, 12, 13, 14, 15} && e.observed == []
      && Load(e, init, Source, 0) == [OLD_ROW] && |Load(e, init, Target, 0)| == 1
  {
    hide Schedulable, Schedule;
    SourceWaits(init, d);
    Extend(RAISED_LOG, init, d, [1, 2, 3], [1, 2]);
    Extend(RAISED_LOG, init, d, [1, 2, 3, 4], [1, 2, 3]);
  }

  lemma {:induction false} SourceWaits(init: Memory, d: Device)
    requires d.done == {0, 5, 11, 12, 13, 14, 15}
    ensures Schedulable(RAISED_LOG, init, d, [1, 2])
    ensures Schedule(RAISED_LOG, init, d, [1, 2]) == d.(done := {0, 1, 2, 5, 11, 12, 13, 14, 15})
  {
    hide Schedulable, Schedule;
    ScheduleOne(RAISED_LOG, init, d, 1);
    Extend(RAISED_LOG, init, d, [1, 2], [1]);
  }

  /** ... and its target rows ... */
  lemma {:induction false} OldTargetLands(init: Memory, d: Device)
    requires Load(d, init, Source, 0) == [OLD_ROW] && |Load(d, init, Target, 0)| == 1
    requires d.done == {0, 1, 2, 3, 4, 5, 11, 12, 13, 14, 15} && d.observed == []
    ensures Schedulable(RAISED_LOG, init, d, [6, 7, 8])
    ensures var e := Schedule(RAISED_LOG, init, d, [6, 7, 8]);
      && e.done == {0, 1, 2, 3, 4, 5, 6, 7, 8, 11, 12, 13, 14, 15} && e.observed == []
      && Load(e, init, Source, 0) == [OLD_ROW] && Load(e, init, Target, 0) == [OLD_ROW]
  {
    hide Schedulable, Schedule;
    OldTargetCopied(init, d);
    Extend(RAISED_LOG, init, d, [6, 7, 8], [6, 7]);
  }

  lemma {:induction false} OldTargetCopied(init: Memory, d: Device)
    requires |Load(d, init, Target, 0)| == 1
    requires d.done == {0, 1, 2, 3, 4, 5, 11, 12, 13, 14, 15}
    ensures Schedulable(RAISED_LOG, init, d, [6, 7])
    ensures Schedule(RAISED_LOG, init, d, [6, 7]) ==
      d.(done := {0, 1, 2, 3, 4, 5, 6, 7, 11, 12, 13, 14, 15}, written := d.written[(Target, 0) := [OLD_ROW]])
  {
    hide Schedulable, Schedule;
    TargetWaits(init, d);
    Extend(RAISED_LOG, init, d, [6, 7], [6]);
    assert CopyRows(Load(d, init, Target, 0), [OLD_ROW]) == [OLD_ROW];
  }

  lemma {:induction false} TargetWaits(init: Memory, d: Device)
    requires d.done == {0, 1, 2, 3, 4, 5, 11, 12, 13, 14, 15}
    ensures Schedulable(RAISED_LOG, init, d, [6])
    ensures Schedule(RAISED_LOG, init, d, [6]) == d.(done := {0, 1, 2, 3, 4, 5, 6, 11, 12, 13, 14, 15})
  {
    hide Schedulable, Schedule;
    ScheduleOne(RAISED_LOG, init, d, 6);
  }

  /** ... and the training reads both. */
  lemma {:induction false} OldRowsAreRead(init: Memory, d: Device)
    requires Load(d, init, Source, 0) == [OLD_ROW] && Load(d, init, Target, 0) == [OLD_ROW] && d.observed == []
    requires d.done == {0, 1, 2, 3, 4, 5, 6, 7, 8, 11, 12, 13, 14, 15}
    ensures Schedulable(RAISED_LOG, init, d, [9, 10, 16, 17, 18])
    ensures var e := Schedule(RAISED_LOG, init, d, [9, 10, 16, 17, 18]);
      |e.observed| == 1 && e.observed[0].op == 18 && e.observed[0].src == [OLD_ROW] && e.observed[0].tgt == [OLD_ROW]
  {
    hide Schedulable, Schedule, Prefix;
    assert d.done == Prefix(16) - {9, 10};
    TrainStreamWaits(init, d);
    Extend(RAISED_LOG, init, d, [9, 10, 16], [9, 10]);
    Extend(RAISED_LOG, init, d, [9, 10, 16, 17], [9, 10, 16]);
    Extend(RAISED_LOG, init, d, [9, 10, 16, 17, 18], [9, 10, 16, 17]);
  }

  lemma {:induction false} TrainStreamWaits(init: Memory, d: Device)
    requires d.done == Prefix(16) - {9, 10}
    ensures Schedulable(RAISED_LOG, init, d, [9, 10])
    ensures Schedule(RAISED_LOG, init, d, [9, 10]) == d.(done := Prefix(16))
  {
    hide Schedulable, Schedule, Prefix;
    ScheduleOne(RAISED_LOG, init, d, 9);
    Extend(RAISED_LOG, init, d, [9, 10], [9]);
  }

  /** One slot, dual streams: launch_forward, launch_target, a backward that raises for a missing prompt,
      launch_step, backward.  Some schedule makes the new step's training read the dropped step's rows. */
  lemma {:induction false} DroppedRowsAreTrained(init: Memory)
    requires |init(Source, 0)| == 1 && |init(Target, 0)| == 1
    ensures var ops, d := RunCalls(Fresh(Dual, 1, TINY), RAISED_CALLS).ops, Device({}, map[], []);
      && |ops| == 20 && ops[18].action == Train(0, 1, 1, [7])
      && (exists ids :: Schedulable(ops, init, d, ids)
           && var e := Schedule(ops, init, d, ids);
              |e.observed| == 1 && e.observed[0].op == 18
              && e.observed[0].src == [OLD_ROW] && e.observed[0].tgt == [OLD_ROW])
  {
    hide Schedulable, Schedule, RunCalls;
    RaisedLog();
    NewRowsFirst(init);
    var d := Device({}, map[], []);
    var ids1, ids2, ids3, ids4 := [0, 5, 11, 12, 13, 14, 15], [1, 2, 3, 4], [6, 7, 8], [9, 10, 16, 17, 18];
    var d1 := Schedule(RAISED_LOG, init, d, ids1);
    OldSourceLands(init, d1);
    var d2 := Schedule(RAISED_LOG, init, d1, ids2);
    OldTargetLands(init, d2);
    OldRowsAreRead(init, Schedule(RAISED_LOG, init, d2, ids3));
    ScheduleConcat(RAISED_LOG, init, d, ids1, ids2);
    ScheduleConcat(RAISED_LOG, init, d, ids1 + ids2, ids3);
    ScheduleConcat(RAISED_LOG, init, d, ids1 + ids2 + ids3, ids4);
  }
}
