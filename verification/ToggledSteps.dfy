/** The consumer's calls in any order: training switched on and off, and reconfigured, between a step's
    launch and its end, ends without launches, and launches that raise. */
module ToggledSteps {
  import opened Common
  import opened DeviceQueue
  import opened TrainPipeline
  import opened ConsumerRuns
  import SlotTable
  import ExactlyOnce

  /** `fails`: a training in this step end raises, if there is one. */
  datatype Act =
    | Switch(on: bool)
    | Reset(on: bool, cfg: SlotTable.Config, scratch: nat)
    | Consume(b: Batch)
    | StepEnd(fails: bool)

  datatype Outcome = Done | Refused | WidthError | Unusable(reason: Reason) | TrainingError

  /** The engine's pipeline, and what the consumer keeps: its settings, the resources it ensured last, and
      the rows and prompts for the next step end. */
  datatype State = State(h: Host, cfg: SlotTable.Config, scratch: nat, key: Option<Key>, rows: nat, prompts: seq<int>)

  // ---- the calls ------------------------------------------------------------------------------

  /** _ensure_runtime_resources */
  function EnsureRuntime(s: State, b: Batch, rows: nat): State {
    var key := Key(b.model, LayoutFor(b, rows));
    if s.key == Some(key) then s
    else s.(h := EnsureResources(s.h, s.cfg.streamMode, s.cfg.pipelineSlots, key.layout), key := Some(key))
  }

  function LayoutFor(b: Batch, rows: nat): Layout { Layout(rows, Hidden(b), b.dtype, b.device) }

  /** consume_bundle: the rows for the step end are stored before the launch, which may raise. */
  function ConsumeBundle(s: State, b: Batch): (State, Outcome)
    requires Resting(s)
  {
    var w := Trainable(s.cfg, s.scratch, b);
    if !s.h.enabled then (s, Done)
    else if w.Err? then (s, Unusable(w.error))
    else
      var (x, rows) := w.value;
      var s1 := EnsureRuntime(s, b, rows).(rows := |x.src|, prompts := x.prompts);
      EnsureRests(s, b, rows);
      if Misfits(b) && s1.h.ready.None? then
        (s1.(h := FailedLaunch(s1.h, if b.width == Hidden(b) then Some(x.src) else None)), WidthError)
      else
        var (h, st) := LaunchStep(s1.h, x.src, x.tgt);
        (s1.(h := h), if st == Fine then Done else Refused)
  }

  /** on_step_end: the stored rows are cleared when it returns. */
  function EndStep(s: State, fails: bool): (State, Outcome) {
    if !s.h.enabled then (s.(rows := 0, prompts := []), Done)
    else if s.h.layout.rows == 0 then (s, Unusable(NoPipelineYet))
    else if s.h.streams.train.None? && s.cfg.streamMode != Serial then (s, Unusable(NoTrainStream))
    else if fails && s.h.ready.Some? then (s.(h := FailedBackward(s.h, s.rows, s.prompts)), TrainingError)
    else (s.(h := LaunchDelayedBackward(s.h, s.rows, s.prompts).0, rows := 0, prompts := []), Done)
  }

  /** update_config: the step in flight is forgotten, the pipeline stays. */
  function UpdateConfig(s: State, on: bool, cfg: SlotTable.Config, scratch: nat): State {
    s.(h := Forget(s.h, on).(mode := cfg.streamMode), cfg := Normal(cfg), scratch := scratch, key := None)
  }

  function Apply(s: State, a: Act): (State, Outcome)
    requires Resting(s)
  {
    match a
    case Switch(on) => (s.(h := SetEnabled(s.h, on)), Done)
    case Reset(on, cfg, scratch) => (UpdateConfig(s, on, cfg, scratch), Done)
    case Consume(b) => ConsumeBundle(s, b)
    case StepEnd(fails) => EndStep(s, fails)
  }

  /** A new consumer. */
  function New(on: bool, cfg: SlotTable.Config, scratch: nat): State {
    State(Fresh(cfg.streamMode, 1, Layout(0, 0, 0, 0)).(enabled := on), Normal(cfg), scratch, None, 0, [])
  }

  /** Between calls: at most one step in flight, launched on the pipeline that was ensured last. */
  predicate Resting(s: State) {
    && s.h.slots > 0 && s.cfg.pipelineSlots > 0 && s.h.current.None? && s.h.pending == []
    && s.h.mode == s.cfg.streamMode && (s.h.ready.Some? ==> s.key.Some? && |s.h.srcs| > 0)
    && (s.key.Some? ==>
          && s.h.layout == s.key.value.layout && s.h.layout.rows > 0 && s.h.slots == s.cfg.pipelineSlots
          && (s.h.mode == Serial <==> s.h.streams.train.None?))
  }

  lemma {:induction false} EnsureRests(s: State, b: Batch, rows: nat)
    requires Resting(s) && rows > 0
    ensures var s', layout := EnsureRuntime(s, b, rows), LayoutFor(b, rows);
      && Resting(s') && s'.key == Some(Key(b.model, layout)) && s' == s.(h := s'.h, key := s'.key)
      && s'.h.layout == layout && s'.h.enabled == s.h.enabled
      && (s'.h.ready.Some? <==> s.h.ready.Some? && s.h.layout == layout)
      && (s'.h.ready.Some? ==> s'.h == s.h.(streams := s'.h.streams))
  {
  }

  /** A delivery that gets as far as the launch: refused while a step of the same layout is in flight. */
  lemma {:induction false} LaunchMeaning(s: State, b: Batch)
    requires Resting(s) && s.h.enabled && Trainable(s.cfg, s.scratch, b).Ok?
    ensures var (s', o) := ConsumeBundle(s, b);
      var (x, rows) := Trainable(s.cfg, s.scratch, b).value;
      var layout := LayoutFor(b, rows);
      && Resting(s') && s'.key == Some(Key(b.model, layout))
      && s' == s.(h := s'.h, key := s'.key, rows := |x.src|, prompts := x.prompts)
      && s'.h.enabled && s'.h.layout == layout
      && if s.h.ready.Some? && s.h.layout == layout then
           o == Refused && s'.h == s.h.(streams := s'.h.streams)
         else if Misfits(b) then
           o == WidthError && s'.h.ready.None?
         else
           o == Done && s'.h.ready.Some? && InHand(s'.h, x)
  {
    hide Trainable, Misfits, LaunchStep, FailedLaunch, EnsureRuntime, InHand;
    var (x, rows) := Trainable(s.cfg, s.scratch, b).value;
    EnsureRests(s, b, rows);
    var s1 := EnsureRuntime(s, b, rows);
    LaunchCases(s1.h, x);
  }

  /** What a launch that raises for the width of its rows leaves on the main stream: its wait, and the copy of
      the source rows exactly when it is the target rows that do not fit. */
  lemma {:induction false} MisfitLeaves(s: State, b: Batch)
    requires Resting(s) && s.h.enabled && Trainable(s.cfg, s.scratch, b).Ok? && ConsumeBundle(s, b).1 == WidthError
    ensures var ops, n, rows := ConsumeBundle(s, b).0.h.ops, |s.h.ops|, Trainable(s.cfg, s.scratch, b).value.0.src;
      && |ops| == n + (if b.width >= b.modelHidden then 2 else 1) && ops[..n] == s.h.ops
      && ops[n].stream == MAIN && ops[n].action.Wait?
      && (b.width >= b.modelHidden ==>
            && ops[n + 1].stream == MAIN && ops[n + 1].action.Copy? && ops[n + 1].action.side == Source
            && ops[n + 1].action.buf < ConsumeBundle(s, b).0.h.base + ConsumeBundle(s, b).0.h.slots
            && ops[n + 1].action.rows == rows)
  {
    hide Trainable, LaunchStep, EnsureRuntime, EnsureStreams;
    var (x, rows) := Trainable(s.cfg, s.scratch, b).value;
    EnsureRests(s, b, rows);
    RuntimeOps(s, b, rows);
    LaunchCases(EnsureRuntime(s, b, rows).h, x);
  }

  lemma {:induction false} RuntimeOps(s: State, b: Batch, rows: nat)
    ensures EnsureRuntime(s, b, rows).h.ops == s.h.ops
  {
    hide EnsureStreams;
  }

  /** What launch_step does to a pipeline that is idle but for a step that is ready. */
  lemma {:induction false} LaunchCases(h: Host, x: Extract)
    requires h.slots > 0 && h.enabled && h.current.None? && h.pending == [] && |x.src| == |x.tgt|
    ensures var (h', st) := LaunchStep(h, x.src, x.tgt);
      && (if h.ready.Some? then h' == h && st == OrderViolation else st == Fine && h'.ready.Some? && InHand(h', x))
      && SameBut(h', h)
    ensures h.ready.None? ==> forall fitting ::
      FailedLaunch(h, fitting).ready.None? && SameBut(FailedLaunch(h, fitting), h)
  {
  }

  /** Everything that a launch leaves alone. */
  predicate SameBut(h': Host, h: Host) {
    && h'.slots == h.slots && h'.layout == h.layout && h'.mode == h.mode && h'.streams == h.streams
    && h'.enabled == h.enabled && h'.current == h.current && h'.pending == h.pending && |h.srcs| <= |h'.srcs|
  }

  /** The step in flight is the last one launched, of these rows. */
  predicate InHand(h: Host, x: Extract) {
    && |h.srcs| > 0 && h.srcs[|h.srcs| - 1] == x.src
    && |h.srcs| - 1 in h.tgts && h.tgts[|h.srcs| - 1] == x.tgt
  }

  lemma {:induction false} ApplyRests(s: State, a: Act)
    requires Resting(s)
    ensures Resting(Apply(s, a).0)
  {
    hide Trainable, LaunchStep, LaunchDelayedBackward, EnsureRuntime;
    match a
    case Consume(b) => if s.h.enabled && Trainable(s.cfg, s.scratch, b).Ok? { LaunchMeaning(s, b); }
    case StepEnd(fails) => EndDrains(s, fails);
    case _ =>
  }

  /** A step end that may train leaves nothing in flight. */
  lemma {:induction false} EndDrains(s: State, fails: bool)
    requires Resting(s)
    ensures var s', h := EndStep(s, fails).0, s.h;
      var h' := s'.h;
      && s' == s.(h := h', rows := s'.rows, prompts := s'.prompts)
      && h' == h.(ready := h'.ready, ops := h'.ops, events := h'.events)
      && (h'.ready.Some? <==> h.ready.Some? && !h.enabled) && (h.ready.None? ==> h' == h) && (!h.enabled ==> h' == h)
      && (h.ready.Some? && h.enabled ==>
            h'.ops == h.ops + EndOps(h, Queued(h.ready.value, s.rows, s.prompts), fails))
  {
    var h := s.h;
    if h.enabled && h.ready.Some? && !fails {
      var q := Queued(h.ready.value, s.rows, s.prompts);
      var h1 := h.(pending := [q], ready := None);
      assert h.pending + [q] == h1.pending;
      var stream := TrainStream(h);
      assert Drain(h1, stream) == Drain(TrainHead(h1, stream), stream) == TrainHead(h1, stream);
    }
  }

  function TrainStream(h: Host): nat {
    if h.mode == Serial || h.streams.train.None? then MAIN else h.streams.train.value
  }

  /** What the end of a launched step enqueues: two waits, and unless it raises the training and its
      record. */
  function EndOps(h: Host, q: Queued, fails: bool): seq<Op> {
    if fails then TrainOps(h, TrainStream(h), q)[..2] else TrainOps(h, TrainStream(h), q)
  }

  /** A step that ends right after its launch is the step of ExactlyOnce. */
  lemma {:induction false} UninterruptedStep(s: State, b: Batch)
    requires Resting(s) && s.h.enabled && s.h.ready.None? && !Misfits(b) && Trainable(s.cfg, s.scratch, b).Ok?
    ensures var (x, rows) := Trainable(s.cfg, s.scratch, b).value;
      && EnsureRuntime(s, b, rows).h.slots > 0 && Resting(ConsumeBundle(s, b).0)
      && EndStep(ConsumeBundle(s, b).0, false).0.h ==
           ExactlyOnce.StepAndEnd(EnsureRuntime(s, b, rows).h, x.src, x.tgt, x.prompts)
  {
    hide Trainable, Misfits, LaunchStep, LaunchDelayedBackward, EnsureRuntime;
    var (x, rows) := Trainable(s.cfg, s.scratch, b).value;
    EnsureRests(s, b, rows);
    LaunchCases(EnsureRuntime(s, b, rows).h, x);
    LaunchMeaning(s, b);
  }

  // ---- what a caller knows -----------------------------------------------------------------------

  datatype Setting = Setting(on: bool, cfg: SlotTable.Config, scratch: nat)

  /** The settings before act i. */
  function SettingAt(start: Setting, acts: seq<Act>, i: nat): Setting
    requires i <= |acts|
  {
    if i == 0 then start.(cfg := Normal(start.cfg))
    else
      match acts[i - 1]
      case Switch(on) => SettingAt(start, acts, i - 1).(on := on)
      case Reset(on, cfg, scratch) => Setting(on, Normal(cfg), scratch)
      case _ => SettingAt(start, acts, i - 1)
  }

  function StateAt(start: Setting, acts: seq<Act>, i: nat): (s: State)
    requires i <= |acts|
    ensures Resting(s)
  {
    if i == 0 then New(start.on, start.cfg, start.scratch)
    else
      var before := StateAt(start, acts, i - 1);
      ApplyRests(before, acts[i - 1]);
      Apply(before, acts[i - 1]).0
  }

  function OutcomeAt(start: Setting, acts: seq<Act>, i: nat): Outcome
    requires i < |acts|
  {
    Apply(StateAt(start, acts, i), acts[i]).1
  }

  predicate OnAt(start: Setting, acts: seq<Act>, i: nat)
    requires i <= |acts|
  {
    SettingAt(start, acts, i).on
  }

  function Wanted(start: Setting, acts: seq<Act>, i: nat): Result<(Extract, nat), Reason>
    requires i < |acts| && acts[i].Consume?
  {
    Trainable(SettingAt(start, acts, i).cfg, SettingAt(start, acts, i).scratch, acts[i].b)
  }

  /** Act i is a delivery that gets as far as the launch. */
  predicate Launches(start: Setting, acts: seq<Act>, i: nat)
    requires i < |acts|
  {
    acts[i].Consume? && OnAt(start, acts, i) && Wanted(start, acts, i).Ok?
  }

  function LayoutOf(start: Setting, acts: seq<Act>, i: nat): Layout
    requires i < |acts| && Launches(start, acts, i)
  {
    LayoutFor(acts[i].b, Wanted(start, acts, i).value.1)
  }

  function RowsOf(start: Setting, acts: seq<Act>, i: nat): Extract
    requires i < |acts| && Launches(start, acts, i)
  {
    Wanted(start, acts, i).value.0
  }

  /** A step end that finds training on, or a reconfiguration. */
  predicate Clears(start: Setting, acts: seq<Act>, i: nat)
    requires i < |acts|
  {
    acts[i].Reset? || (acts[i].StepEnd? && OnAt(start, acts, i))
  }

  /** Act k leaves launch j's step in flight. */
  predicate Keeps(start: Setting, acts: seq<Act>, j: nat, k: nat)
    requires j < k < |acts| && Launches(start, acts, j)
  {
    && !Clears(start, acts, k)
    && (Launches(start, acts, k) ==> LayoutOf(start, acts, k) == LayoutOf(start, acts, j))
  }

  /** Nothing since launch j has cleared its step, and no launch since brought another layout. */
  predicate LeftOver(start: Setting, acts: seq<Act>, j: nat, i: nat)
    requires j < i <= |acts|
  {
    && Launches(start, acts, j) && !Misfits(acts[j].b)
    && forall k :: j < k < i ==> Keeps(start, acts, j, k)
  }

  /** The first of the launches that are left over: its rows are in the slot. */
  predicate InSlot(start: Setting, acts: seq<Act>, f: nat, i: nat)
    requires f < i <= |acts|
  {
    LeftOver(start, acts, f, i) && forall j: nat :: j < f ==> !LeftOver(start, acts, j, i)
  }

  predicate LastLaunch(start: Setting, acts: seq<Act>, l: nat, i: nat)
    requires l < i <= |acts|
  {
    Launches(start, acts, l) && forall k :: l < k < i ==> !Launches(start, acts, k)
  }

  // ---- which step is in flight --------------------------------------------------------------------

  /** The launch whose step is in flight before act i. */
  function FlightAt(start: Setting, acts: seq<Act>, i: nat): (f: Option<nat>)
    requires i <= |acts|
    ensures f.Some? ==> f.value < i && Launches(start, acts, f.value)
  {
    if i == 0 then None
    else
      var k := i - 1;
      var f := FlightAt(start, acts, k);
      if Clears(start, acts, k) then None
      else if !Launches(start, acts, k) then f
      else if f.Some? && LayoutOf(start, acts, f.value) == LayoutOf(start, acts, k) then f
      else if Misfits(acts[k].b) then None else Some(k)
  }

  lemma {:induction false} FlightFirst(start: Setting, acts: seq<Act>, i: nat)
    requires i <= |acts|
    ensures var f := FlightAt(start, acts, i);
      && (f.Some? ==> LeftOver(start, acts, f.value, i))
      && forall j: nat :: j < i && LeftOver(start, acts, j, i) ==>
           f.Some? && f.value <= j && LayoutOf(start, acts, f.value) == LayoutOf(start, acts, j)
  {
    hide LayoutOf, Misfits, Trainable;
    if i > 0 {
      var k, f := i - 1, FlightAt(start, acts, i);
      FlightFirst(start, acts, k);
      forall j: nat | j < i && LeftOver(start, acts, j, i)
        ensures f.Some? && f.value <= j && LayoutOf(start, acts, f.value) == LayoutOf(start, acts, j)
      {
        if j < k { assert Keeps(start, acts, j, k) && LeftOver(start, acts, j, k); }
      }
    }
  }

  /** The engine and the consumer hold what the calls before act i say. */
  lemma {:induction false} Tracks(start: Setting, acts: seq<Act>, i: nat)
    requires i <= |acts|
    ensures var s, g, f := StateAt(start, acts, i), SettingAt(start, acts, i), FlightAt(start, acts, i);
      && s.h.enabled == g.on && s.cfg == g.cfg && s.scratch == g.scratch
      && (s.h.ready.Some? <==> f.Some?)
      && (f.Some? ==>
            s.h.layout == LayoutOf(start, acts, f.value) && InHand(s.h, RowsOf(start, acts, f.value)))
  {
    hide Trainable, Misfits, ConsumeBundle, EndStep, Resting;
    if i > 0 {
      var k := i - 1;
      var s, a := StateAt(start, acts, k), acts[k];
      Tracks(start, acts, k);
      match a
      case Consume(b) =>
        if Launches(start, acts, k) { LaunchMeaning(s, b); } else { NoLaunch(s, b); }
      case StepEnd(fails) => EndDrains(s, fails);
      case _ =>
    }
  }

  lemma {:induction false} NoLaunch(s: State, b: Batch)
    requires Resting(s) && (!s.h.enabled || Trainable(s.cfg, s.scratch, b).Err?)
    ensures ConsumeBundle(s, b).0 == s
    ensures ConsumeBundle(s, b).1 ==
      if s.h.enabled then Unusable(Trainable(s.cfg, s.scratch, b).error) else Done
  {
  }

  // ---- which launches are refused -----------------------------------------------------------------

  /** An earlier step of the same layout is left over. */
  ghost predicate Blocked(start: Setting, acts: seq<Act>, i: nat)
    requires i < |acts|
  {
    && Launches(start, acts, i)
    && exists j: nat :: j < i && LeftOver(start, acts, j, i) && LayoutOf(start, acts, j) == LayoutOf(start, acts, i)
  }

  /** For every list of calls: a launch is refused if and only if training is on, its batch can be
      trained on, and an earlier step whose pipeline it could use is left over; otherwise it raises for
      its rows' width if they do not fit, and launches if they do. */
  lemma {:induction false} RefusedExactly(start: Setting, acts: seq<Act>, i: nat)
    requires i < |acts| && acts[i].Consume?
    ensures OutcomeAt(start, acts, i) == Refused <==> Blocked(start, acts, i)
    ensures OutcomeAt(start, acts, i) == WidthError <==>
      Launches(start, acts, i) && Misfits(acts[i].b) && !Blocked(start, acts, i)
    ensures OutcomeAt(start, acts, i).Unusable? <==> OnAt(start, acts, i) && Wanted(start, acts, i).Err?
  {
    hide Misfits, ConsumeBundle, Trainable;
    Tracks(start, acts, i);
    FlightFirst(start, acts, i);
    var s := StateAt(start, acts, i);
    if Launches(start, acts, i) { LaunchMeaning(s, acts[i].b); } else { NoLaunch(s, acts[i].b); }
  }

  /** Two launches with one step end and switches between them: the second is refused if and only if it
      gets as far as the launch, training was off at the end, and the layout is the same. */
  lemma {:induction false} NextLaunchRefusedExactly(start: Setting, acts: seq<Act>, j: nat, m: nat, i: nat)
    requires j < m < i < |acts| && Launches(start, acts, j) && !Misfits(acts[j].b)
    requires acts[m].StepEnd? && forall k :: j < k < i && k != m ==> acts[k].Switch?
    requires acts[i].Consume?
    ensures OutcomeAt(start, acts, i) == Refused <==>
      Launches(start, acts, i) && !OnAt(start, acts, m) && LayoutOf(start, acts, i) == LayoutOf(start, acts, j)
  {
    hide OutcomeAt, OnAt, Wanted, LayoutOf, Misfits;
    RefusedExactly(start, acts, i);
    if Launches(start, acts, i) {
      if Blocked(start, acts, i) {
        var b: nat :| b < i && LeftOver(start, acts, b, i) && LayoutOf(start, acts, b) == LayoutOf(start, acts, i);
        assert b <= j && Keeps(start, acts, b, m);
        assert b < j ==> Keeps(start, acts, b, j);
      }
      if !OnAt(start, acts, m) { assert LeftOver(start, acts, j, i); }
    }
  }

  // ---- what step ends do --------------------------------------------------------------------------

  function LastAt(start: Setting, acts: seq<Act>, i: nat): (l: Option<nat>)
    requires i <= |acts|
    ensures l.Some? ==> l.value < i && LastLaunch(start, acts, l.value, i)
    ensures l.None? ==> forall j: nat :: j < i ==> !Launches(start, acts, j)
  {
    if i == 0 then None
    else if Launches(start, acts, i - 1) then Some(i - 1) else LastAt(start, acts, i - 1)
  }

  function ModeAt(start: Setting, acts: seq<Act>, i: nat): Mode
    requires i <= |acts|
  {
    SettingAt(start, acts, i).cfg.streamMode
  }

  /** There is a pipeline once something was launched, with the streams of the latest launch. */
  lemma {:induction false} PipelineAt(start: Setting, acts: seq<Act>, i: nat)
    requires i <= |acts|
    ensures var h, l := StateAt(start, acts, i).h, LastAt(start, acts, i);
      && (h.layout.rows > 0 <==> l.Some?)
      && (l.Some? ==> (h.streams.train.None? <==> ModeAt(start, acts, l.value) == Serial))
  {
    hide Trainable, Misfits, ConsumeBundle, EndStep;
    if i > 0 {
      var k := i - 1;
      var s := StateAt(start, acts, k);
      PipelineAt(start, acts, k);
      Tracks(start, acts, k);
      match acts[k]
      case Consume(b) =>
        if Launches(start, acts, k) { LaunchMeaning(s, b); } else { NoLaunch(s, b); }
      case StepEnd(fails) => EndDrains(s, fails);
      case _ =>
    }
  }

  /** For every list of calls: a step end raises if and only if training is on, and nothing was launched
      before it, or the latest launch was in serial mode and the mode is another one now, or the step in
      flight raises in training. */
  lemma {:induction false} EndRaisesExactly(start: Setting, acts: seq<Act>, i: nat)
    requires i < |acts| && acts[i].StepEnd?
    ensures OutcomeAt(start, acts, i) == Unusable(NoPipelineYet) <==>
      OnAt(start, acts, i) && forall j: nat :: j < i ==> !Launches(start, acts, j)
    ensures OutcomeAt(start, acts, i) == Unusable(NoTrainStream) <==>
      OnAt(start, acts, i) && ModeAt(start, acts, i) != Serial
      && exists l: nat :: l < i && LastLaunch(start, acts, l, i) && ModeAt(start, acts, l) == Serial
    ensures OutcomeAt(start, acts, i) == TrainingError <==>
      OnAt(start, acts, i) && acts[i].fails && exists f: nat :: f < i && LeftOver(start, acts, f, i)
    ensures OutcomeAt(start, acts, i) !in [Refused, WidthError]
  {
    hide StateAt, SettingAt, FlightAt, LastAt, Launches, LeftOver, LaunchDelayedBackward, FailedBackward;
    PipelineAt(start, acts, i);
    Tracks(start, acts, i);
    FlightFirst(start, acts, i);
  }

  predicate EndedSince(acts: seq<Act>, l: nat, i: nat)
    requires i <= |acts|
  {
    exists m :: l < m < i && acts[m].StepEnd?
  }

  /** What the end after act i passes on: the latest launch's rows and prompts, refused or not, unless a
      step end has returned since. */
  function Passed(start: Setting, acts: seq<Act>, l: nat, i: nat): (nat, seq<int>)
    requires l < i <= |acts| && Launches(start, acts, l)
  {
    if EndedSince(acts, l, i) then (0, [])
    else (|RowsOf(start, acts, l).src|, RowsOf(start, acts, l).prompts)
  }

  lemma {:induction false} PassedExactly(start: Setting, acts: seq<Act>, l: nat, i: nat)
    requires l < i <= |acts| && LastLaunch(start, acts, l, i)
    requires forall m :: l < m < i ==> !Clears(start, acts, m)
    ensures (StateAt(start, acts, i).rows, StateAt(start, acts, i).prompts) == Passed(start, acts, l, i)
  {
    hide Trainable, Misfits, ConsumeBundle;
    var k := i - 1;
    var s := StateAt(start, acts, k);
    Tracks(start, acts, k);
    if l == k {
      LaunchMeaning(s, acts[k].b);
    } else {
      PassedExactly(start, acts, l, k);
      assert !Launches(start, acts, k) && !Clears(start, acts, k);
      if acts[k].Consume? { NoLaunch(s, acts[k].b); }
      assert EndedSince(acts, l, i) <==> EndedSince(acts, l, k) || acts[k].StepEnd?;
    }
  }

  /** For every list of calls: a step end with training on trains the step in flight once, in its slot, on
      as many rows and with the prompts as the latest launch brought, even if that launch was refused, and
      on none if a step end has found training off since. */
  lemma {:induction false} EndTrainsExactly(start: Setting, acts: seq<Act>, i: nat, f: nat, l: nat)
    requires f < i < |acts| && l < i && acts[i].StepEnd? && OnAt(start, acts, i)
    requires InSlot(start, acts, f, i) && LastLaunch(start, acts, l, i)
    ensures var h, h' := StateAt(start, acts, i).h, StateAt(start, acts, i + 1).h;
      var (rows, prompts) := Passed(start, acts, l, i);
      && f <= l && InHand(h, RowsOf(start, acts, f)) && h.ready.Some? && h'.ready.None?
      && h'.ops == h.ops + EndOps(h, Queued(h.ready.value, rows, prompts), acts[i].fails)
  {
    hide Trainable, Misfits, ConsumeBundle, EndStep, InHand;
    assert f <= l;
    forall m | l < m < i ensures !Clears(start, acts, m) { assert Keeps(start, acts, f, m); }
    PassedExactly(start, acts, l, i);
    Tracks(start, acts, i);
    FlightFirst(start, acts, i);
    EndDrains(StateAt(start, acts, i), acts[i].fails);
  }

  // ---- concrete lists of calls --------------------------------------------------------------------

  const SHARED := SlotTable.Config(false, false, 0, 1, Dual, 1, 0)
  const EIGHT_ROWS := Setting(true, SHARED, 8)

  /** n rows of one prompt. */
  function Sample(n: nat, prompt: int): Batch {
    var rows := seq(n, _ => [0.0]);
    Batch(rows, rows, false, Some(Meta(n, seq(n, _ => prompt), false)), 1, 1, 0, 1, 0, 0)
  }

  lemma {:induction false} SampleWanted(n: nat, prompt: int)
    ensures !Misfits(Sample(n, prompt)) && forall rows :: LayoutFor(Sample(n, prompt), rows) == Layout(rows, 1, 0, 0)
    ensures var x := Extract(Sample(n, prompt).src, Sample(n, prompt).tgt, seq(n, _ => prompt));
      Trainable(SHARED, 8, Sample(n, prompt)) == Ok((x, Max(8, n)))
  {
    assert Padded(seq(n, _ => prompt), n) == seq(n, _ => prompt);
  }

  /** Launched with training on, ended with it off, training on again, and a launch. */
  function Interrupted(first: Batch, second: Batch): seq<Act> {
    [Consume(first), Switch(false), StepEnd(false), Switch(true), Consume(second)]
  }

  /** With eight scratch rows, nine rows and then eight: the second launch brings another layout, and the
      first step is dropped; eight and then eight are refused. */
  lemma {:induction false} ReshapedExample(n: nat)
    ensures OutcomeAt(EIGHT_ROWS, Interrupted(Sample(n, 7), Sample(8, 7)), 4) == Refused <==> n <= 8
  {
    hide Trainable, Misfits, OutcomeAt, Sample;
    var acts := Interrupted(Sample(n, 7), Sample(8, 7));
    SampleWanted(n, 7);
    SampleWanted(8, 7);
    assert SettingAt(EIGHT_ROWS, acts, 1) == SettingAt(EIGHT_ROWS, acts, 0) == EIGHT_ROWS;
    assert !OnAt(EIGHT_ROWS, acts, 2) && !OnAt(EIGHT_ROWS, acts, 3);
    assert SettingAt(EIGHT_ROWS, acts, 4) == EIGHT_ROWS;
    NextLaunchRefusedExactly(EIGHT_ROWS, acts, 0, 2, 4);
  }

  /** A step left over, a refused launch, and a step end that finds training on. */
  function ThenEnded(first: Batch, second: Batch, third: Batch): seq<Act> {
    Interrupted(first, second) + [Switch(false), Consume(third), Switch(true), StepEnd(false)]
  }

  /** The left-over step of one row and prompt 7 is trained as two rows of prompt 8, the refused batch's. */
  lemma {:induction false} RefusedRowsExample(n: nat)
    ensures var acts := ThenEnded(Sample(1, 7), Sample(2, 8), Sample(n, 9));
      var h, h' := StateAt(EIGHT_ROWS, acts, 8).h, StateAt(EIGHT_ROWS, acts, 9).h;
      && OutcomeAt(EIGHT_ROWS, acts, 4) == Refused
      && InHand(h, Extract(Sample(1, 7).src, Sample(1, 7).tgt, [7])) && h.ready.Some?
      && |h'.ops| == |h.ops| + 4
      && h'.ops[|h.ops| + 2].action == Train(h.base + h.ready.value, |h.srcs| - 1, 2, [8, 8])
  {
    hide Trainable, Misfits, OutcomeAt, StateAt, InHand, Sample;
    var acts := ThenEnded(Sample(1, 7), Sample(2, 8), Sample(n, 9));
    SampleWanted(1, 7);
    SampleWanted(2, 8);
    ThenEndedSettings(acts);
    assert Launches(EIGHT_ROWS, acts, 0) && Launches(EIGHT_ROWS, acts, 4);
    assert LayoutOf(EIGHT_ROWS, acts, 0) == LayoutOf(EIGHT_ROWS, acts, 4);
    assert LeftOver(EIGHT_ROWS, acts, 0, 4) && LeftOver(EIGHT_ROWS, acts, 0, 8);
    RefusedExactly(EIGHT_ROWS, acts, 4);
    assert !EndedSince(acts, 4, 8);
    EndTrainsExactly(EIGHT_ROWS, acts, 8, 0, 4);
    assert seq(2, _ => 8) == [8, 8] && seq(1, _ => 7) == [7];
  }

  lemma {:induction false} ThenEndedSettings(acts: seq<Act>)
    requires |acts| == 9 && acts[0].Consume? && acts[1] == Switch(false) && acts[2].StepEnd? && acts[3] == Switch(true)
    requires acts[4].Consume? && acts[5] == Switch(false) && acts[6].Consume? && acts[7] == Switch(true)
    ensures forall k :: 0 <= k <= 8 ==> SettingAt(EIGHT_ROWS, acts, k) == EIGHT_ROWS.(on := k !in {2, 3, 6, 7})
  {
    assert SettingAt(EIGHT_ROWS, acts, 0) == EIGHT_ROWS;
    assert !SettingAt(EIGHT_ROWS, acts, 2).on;
    assert SettingAt(EIGHT_ROWS, acts, 4) == EIGHT_ROWS;
    assert !SettingAt(EIGHT_ROWS, acts, 6).on;
  }
}
