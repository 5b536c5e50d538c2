/** Host side of the ESamp training pipeline: slot rotation, launch order checks, and the
    copies, event records and waits that each call enqueues on the device streams. */
module TrainPipeline {
  import opened Common
  import opened DeviceQueue

  datatype Mode = Dual | Single | Serial

  datatype Event = SrcReady | TgtReady | SrcStaged | TgtDone | TrainDone

  datatype Status = Fine | OrderViolation | RowMismatch | NoActiveSlot | NoStream

  datatype Queued = Queued(slot: nat, activeRows: int, prompts: seq<int>)

  type Events = map<(Event, nat), nat>

  const MAIN: nat := 0

  datatype Streams = Streams(forward: Option<nat>, train: Option<nat>, unused: nat)

  /** What the pipeline buffers are allocated for. */
  datatype Layout = Layout(rows: nat, hidden: nat, dtype: int, device: int)

  /** `base + slot` names the buffer pair behind a slot; reallocating the pipeline moves `base`.
      `forwarded` says that the step in flight was copied off the main stream by launch_forward;
      `srcs` and `tgts` are the batches launched so far.  The program keeps none of these three. */
  datatype Host = Host(
    enabled: bool, mode: Mode, slots: nat, layout: Layout, base: nat,
    streams: Streams,
    current: Option<nat>, ready: Option<nat>, next: nat, pending: seq<Queued>,
    events: Events, ops: seq<Op>,
    forwarded: bool, srcs: seq<seq<Row>>, tgts: map<nat, seq<Row>>)

  function Bound(events: Events, e: Event, buf: nat): Option<nat> {
    if (e, buf) in events then Some(events[(e, buf)]) else None
  }

  /** Slot numbers go around. */
  function Wrap(i: nat, n: nat): (r: nat)
    requires n > 0
    ensures r < n && (i < n ==> r == i) && (i == n ==> r == 0)
  {
    i % n
  }

  predicate Busy(h: Host) { h.current.Some? || h.ready.Some? || h.pending != [] }

  function ForwardStream(h: Host): nat { if h.streams.forward.Some? then h.streams.forward.value else MAIN }

  function LaunchStep(h: Host, src: seq<Row>, tgt: seq<Row>): (Host, Status)
    requires h.slots > 0
  {
    if !h.enabled then (h, Fine)
    else if Busy(h) then (h, OrderViolation)
    else
      var slot := Wrap(h.next, h.slots);
      var h1 := h.(next := Wrap(slot + 1, h.slots));
      if |src| != |tgt| then (h1, RowMismatch)
      else
        var buf, n, b := h.base + slot, |h.ops|, |h.srcs|;
        (h1.(ops := h.ops + [Op(MAIN, Wait(Bound(h.events, TrainDone, buf))),
                             Op(MAIN, Copy(Source, buf, b, src)), Op(MAIN, Copy(Target, buf, b, tgt)),
                             Op(MAIN, Record), Op(MAIN, Record)],
             events := h.events[(SrcStaged, buf) := n + 3][(TgtDone, buf) := n + 4],
             current := None, ready := Some(slot), forwarded := false,
             srcs := h.srcs + [src], tgts := h.tgts[b := tgt]), Fine)
  }

  function LaunchForward(h: Host, src: seq<Row>): (Host, Status)
    requires h.slots > 0
  {
    if !h.enabled then (h, Fine)
    else if Busy(h) then (h, OrderViolation)
    else if h.streams.forward.None? && h.mode != Serial then (h, NoStream)
    else
      var slot := Wrap(h.next, h.slots);
      var buf, n, b, f := h.base + slot, |h.ops|, |h.srcs|, ForwardStream(h);
      var done := Op(f, Wait(Bound(h.events, TrainDone, buf)));
      var copy := Op(f, Copy(Source, buf, b, src));
      var more := if h.streams.forward.None? then [Op(MAIN, Record), done, copy, Op(f, Record)]
                  else [Op(MAIN, Record), done, Op(f, Wait(Some(n))), copy, Op(f, Record)];
      (h.(ops := h.ops + more, next := Wrap(slot + 1, h.slots),
          events := h.events[(SrcReady, buf) := n][(SrcStaged, buf) := n + |more| - 1],
          current := Some(slot), ready := None, forwarded := h.streams.forward.Some?,
          srcs := h.srcs + [src]), Fine)
  }

  function LaunchTarget(h: Host, tgt: seq<Row>): (Host, Status)
  {
    if !h.enabled then (h, Fine)
    else if h.streams.forward.None? && h.mode != Serial then (h, NoStream)
    else if h.current.None? then (h, NoActiveSlot)
    else
      var slot := h.current.value;
      var buf, n, f := h.base + slot, |h.ops|, ForwardStream(h);
      var b := if |h.srcs| == 0 then 0 else |h.srcs| - 1;
      var copy := Op(f, Copy(Target, buf, b, tgt));
      var more := if h.streams.forward.None? then [Op(MAIN, Record), copy, Op(f, Record)]
                  else [Op(MAIN, Record), Op(f, Wait(Some(n))), copy, Op(f, Record)];
      (h.(ops := h.ops + more,
          events := h.events[(TgtReady, buf) := n][(TgtDone, buf) := n + |more| - 1],
          current := None, ready := Some(slot), tgts := h.tgts[b := tgt]), Fine)
  }

  /** The four operations that one queued training enqueues. */
  function TrainOps(h: Host, stream: nat, q: Queued): seq<Op> {
    var buf := h.base + q.slot;
    var b := if |h.srcs| == 0 then 0 else |h.srcs| - 1;
    [Op(stream, Wait(Bound(h.events, SrcStaged, buf))), Op(stream, Wait(Bound(h.events, TgtDone, buf))),
     Op(stream, Train(buf, b, q.activeRows, q.prompts)), Op(stream, Record)]
  }

  function TrainHead(h: Host, stream: nat): Host
    requires h.pending != []
  {
    var q := h.pending[0];
    h.(pending := h.pending[1..], ops := h.ops + TrainOps(h, stream, q),
       events := h.events[(TrainDone, h.base + q.slot) := |h.ops| + 3])
  }

  function Drain(h: Host, stream: nat): Host
    decreases |h.pending|
  {
    if h.pending == [] then h else Drain(TrainHead(h, stream), stream)
  }

  function LaunchDelayedBackward(h: Host, activeRows: int, prompts: seq<int>): (Host, Status)
  {
    if !h.enabled then (h, Fine)
    else if h.streams.train.None? && h.mode != Serial then (h, NoStream)
    else
      var h1 := if h.ready.Some? then
                  h.(pending := h.pending + [Queued(h.ready.value, activeRows, prompts)], ready := None)
                else h;
      (Drain(h1, if h.mode == Serial then MAIN else h.streams.train.value), Fine)
  }

  /** launch_delayed_backward when training the one queued step raises: the step was taken off the
      queue and waited for; it is neither trained nor recorded as done. */
  function FailedBackward(h: Host, activeRows: int, prompts: seq<int>): Host
    requires h.ready.Some?
  {
    var stream := if h.mode == Serial || h.streams.train.None? then MAIN else h.streams.train.value;
    h.(ready := None, ops := h.ops + TrainOps(h, stream, Queued(h.ready.value, activeRows, prompts))[..2])
  }

  /** launch_step when the rows are not as wide as the pipeline: the slot is used up and waited for, and
      the source rows are copied if it is the target rows that do not fit. */
  function FailedLaunch(h: Host, fitting: Option<seq<Row>>): Host
    requires h.slots > 0
  {
    var slot := Wrap(h.next, h.slots);
    var buf := h.base + slot;
    var copies := if fitting.Some? then [Op(MAIN, Copy(Source, buf, |h.srcs|, fitting.value))] else [];
    h.(next := Wrap(slot + 1, h.slots), ops := h.ops + [Op(MAIN, Wait(Bound(h.events, TrainDone, buf)))] + copies)
  }

  /** launch_step of rows that are not as wide as the pipeline */
  function MisfitStep(h: Host, fitting: Option<seq<Row>>): Host
    requires h.slots > 0
  {
    if !h.enabled || Busy(h) then h else FailedLaunch(h, fitting)
  }

  function SetEnabled(h: Host, enabled: bool): Host { h.(enabled := enabled) }

  /** launch_delayed_backward whose training raises, if it gets that far */
  function RaisingBackward(h: Host, activeRows: int, prompts: seq<int>): Host {
    if !h.enabled || h.ready.None? || (h.streams.train.None? && h.mode != Serial) then
      LaunchDelayedBackward(h, activeRows, prompts).0
    else FailedBackward(h, activeRows, prompts)
  }

  /** _ensure_adaptation_streams: `unused` is the next unused stream. */
  function EnsureStreams(s: Streams, mode: Mode): (r: Streams)
    ensures mode == Serial <==> r.forward.None?
    ensures mode == Serial <==> r.train.None?
    ensures mode == Single ==> r.forward == r.train
  {
    match mode
    case Serial => s.(forward := None, train := None)
    case Single =>
      if s.forward.Some? then s.(train := s.forward)
      else if s.train.Some? then s.(forward := s.train)
      else Streams(Some(s.unused), Some(s.unused), s.unused + 1)
    case Dual =>
      var s1 := if s.forward.None? || s.forward == s.train then s.(forward := Some(s.unused), unused := s.unused + 1)
        else s;
      if s1.train.None? || s1.train == s1.forward then s1.(train := Some(s1.unused), unused := s1.unused + 1) else s1
  }

  /** On another device the side streams are dropped. */
  function StreamsFor(h: Host, layout: Layout): (s: Streams)
    ensures s.unused == h.streams.unused
    ensures layout.device == h.layout.device ==> s == h.streams
  {
    if layout.device == h.layout.device then h.streams else h.streams.(forward := None, train := None)
  }

  /** Streams are numbered as they are made. */
  ghost predicate Numbered(s: Streams) {
    && (s.forward.Some? ==> s.forward.value < s.unused) && (s.train.Some? ==> s.train.value < s.unused)
  }

  /** Which streams a mode gets on the same device: single mode keeps the forward stream, else the train stream,
      for both; dual mode keeps two different ones, and otherwise makes new ones beside what it keeps. */
  lemma {:induction false} StreamsExactly(s: Streams, mode: Mode)
    requires Numbered(s)
    ensures var r := EnsureStreams(s, mode);
      && Numbered(r) && r.unused >= s.unused
      && (mode == Single && s.forward.Some? ==> r.forward == r.train == s.forward)
      && (mode == Single && s.forward.None? && s.train.Some? ==> r.forward == r.train == s.train)
      && (mode == Single && s.forward.None? && s.train.None? ==> r.forward == r.train && r.forward.value >= s.unused)
      && (mode == Dual ==> r.forward != r.train)
      && (mode == Dual && s.forward.Some? && s.train.Some? && s.forward != s.train ==> r == s)
      && (mode == Dual && s.forward.Some? && s.forward == s.train ==> r.train == s.train && r.forward.value >= s.unused)
      && (mode == Dual && s.forward.None? && s.train.Some? ==> r.train == s.train)
      && (mode == Dual && s.forward.Some? && s.train.None? ==> r.forward == s.forward)
  {
  }

  /** ensure_resources: another buffer shape, dtype or device gives new buffers and new events, and drops
      the step in flight. */
  function EnsureResources(h: Host, mode: Mode, slots: int, layout: Layout): Host {
    var wanted := Max(1, slots);
    var h1 := if wanted == h.slots && layout == h.layout then h
              else h.(base := h.base + h.slots, slots := wanted, layout := layout, next := 0,
                      current := None, ready := None, pending := []);
    h1.(mode := mode, streams := EnsureStreams(StreamsFor(h, layout), mode))
  }

  /** Exactly when the slot count, at least one, and the layout stay, the buffers and the step in flight do;
      otherwise the buffers are new ones behind all earlier ones and nothing is in flight.  On another device
      every side stream is new. */
  lemma {:induction false} ResourcesExactly(h: Host, mode: Mode, slots: int, layout: Layout)
    requires Numbered(h.streams)
    ensures var r := EnsureResources(h, mode, slots, layout);
      && r.mode == mode && r.layout == layout && r.slots == (if slots < 1 then 1 else slots)
      && (r.slots == h.slots && layout == h.layout ==>
            r.base == h.base && r.next == h.next && r.current == h.current && r.ready == h.ready
            && r.pending == h.pending)
      && (r.slots != h.slots || layout != h.layout ==>
            r.base == h.base + h.slots && r.next == 0 && r.current == None && r.ready == None && r.pending == [])
      && (layout.device != h.layout.device && mode != Serial ==>
            r.streams.forward.value >= h.streams.unused && r.streams.train.value >= h.streams.unused)
      && (layout.device == h.layout.device ==> r.streams == EnsureStreams(h.streams, mode))
      && r.ops == h.ops && r.events == h.events && r.srcs == h.srcs && r.tgts == h.tgts && r.enabled == h.enabled
  {
  }

  /** configure: the step in flight is forgotten. */
  function Forget(h: Host, on: bool): Host {
    h.(enabled := on, current := None, ready := None, pending := [])
  }

  /** configure followed by ensure_resources */
  function Reconfigure(h: Host, on: bool, mode: Mode, slots: int, layout: Layout): Host {
    EnsureResources(Forget(h, on), mode, slots, layout)
  }

  function Fresh(mode: Mode, slots: int, layout: Layout): Host {
    Host(true, mode, Max(1, slots), layout, 0, EnsureStreams(Streams(None, None, 1), mode),
         None, None, 0, [], map[], [], false, [], map[])
  }

  // ---- the host invariant ---------------------------------------------------------

  predicate Touches(a: Action, buf: nat) { (a.Copy? || a.Train?) && a.buf == buf }

  ghost predicate BeforeEvent(ops: seq<Op>, events: Events, i: nat, e: Event, buf: nat) {
    (e, buf) in events && Before(ops, i, events[(e, buf)])
  }

  /** A new copy on the main stream, or behind the slot's done event, cannot overtake anything. */
  ghost predicate Idle(ops: seq<Op>, events: Events, buf: nat) {
    forall i: nat :: i < |ops| && Touches(ops[i].action, buf)
      ==> (ops[i].action.Copy? && ops[i].stream == MAIN) || BeforeEvent(ops, events, i, TrainDone, buf)
  }

  ghost predicate EventsOk(ops: seq<Op>, events: Events) {
    forall k :: k in events ==> events[k] < |ops|
  }

  ghost predicate Ordered(ops: seq<Op>, events: Events) {
    WellBound(ops) && EventsOk(ops, events) && RaceFree(ops)
  }

  ghost predicate BufsBelow(ops: seq<Op>, limit: nat) {
    forall i: nat :: i < |ops| && (ops[i].action.Copy? || ops[i].action.Train?) ==> ops[i].action.buf < limit
  }

  ghost predicate TrainsDone(ops: seq<Op>, events: Events) {
    forall i: nat :: i < |ops| && ops[i].action.Train? ==> BeforeEvent(ops, events, i, TrainDone, ops[i].action.buf)
  }

  function InFlight(h: Host): Option<nat> {
    if h.current.Some? then Some(h.base + h.current.value)
    else if h.ready.Some? then Some(h.base + h.ready.value) else None
  }

  /** Every buffer is idle, except one that launch_forward is filling off the main stream. */
  ghost predicate SlotsIdle(h: Host) {
    forall buf: nat :: h.base <= buf < h.base + h.slots && !(h.forwarded && InFlight(h) == Some(buf))
      ==> Idle(h.ops, h.events, buf)
  }

  /** Everything on the buffer is covered by one of the two events. */
  ghost predicate Covered(ops: seq<Op>, events: Events, buf: nat, e1: Event, e2: Event) {
    forall i: nat :: i < |ops| && Touches(ops[i].action, buf)
      ==> BeforeEvent(ops, events, i, e1, buf) || BeforeEvent(ops, events, i, e2, buf)
  }

  /** While only the source is staged, everything on the slot precedes its staged event, which
      was recorded on the stream that will carry the target copy. */
  ghost predicate CurrentOk(h: Host) {
    h.current.Some? ==>
      var buf := h.base + h.current.value;
      && h.current.value < h.slots && h.ready.None? && |h.srcs| > 0 && |h.srcs| - 1 !in h.tgts
      && (SrcStaged, buf) in h.events && h.events[(SrcStaged, buf)] < |h.ops|
      && h.ops[h.events[(SrcStaged, buf)]].stream == ForwardStream(h)
      && (h.forwarded <==> h.streams.forward.Some?)
      && Covered(h.ops, h.events, buf, SrcStaged, SrcStaged)
      && Holds(h.ops, Source, buf, |h.ops|, |h.srcs| - 1, h.srcs[|h.srcs| - 1])
  }

  ghost predicate ReadyOk(h: Host) {
    h.ready.Some? ==>
      var buf, b := h.base + h.ready.value, |h.srcs| - 1;
      && h.ready.value < h.slots && h.current.None? && |h.srcs| > 0
      && Covered(h.ops, h.events, buf, SrcStaged, TgtDone)
      && Holds(h.ops, Source, buf, |h.ops|, b, h.srcs[b])
      && b in h.tgts && Holds(h.ops, Target, buf, |h.ops|, b, h.tgts[b])
  }

  /** The latest copy into a buffer, in enqueue order before j, is batch b's. */
  ghost predicate Holds(ops: seq<Op>, side: Side, buf: nat, j: nat, b: nat, rows: seq<Row>)
    requires j <= |ops|
  {
    exists c: nat :: c < j && ops[c].action == Copy(side, buf, b, rows)
      && forall k: nat :: c < k < j && ops[k].action.Copy? && ops[k].action.side == side ==> ops[k].action.buf != buf
  }

  /** Training number i is preceded, on its buffer, by the copies of the batch that queued it. */
  ghost predicate TrainHolds(ops: seq<Op>, srcs: seq<seq<Row>>, tgts: map<nat, seq<Row>>, i: nat)
    requires i < |ops| && ops[i].action.Train?
  {
    var a := ops[i].action;
    && a.batch < |srcs| && a.batch in tgts
    && Holds(ops, Source, a.buf, i, a.batch, srcs[a.batch])
    && Holds(ops, Target, a.buf, i, a.batch, tgts[a.batch])
  }

  ghost predicate TrainsHold(ops: seq<Op>, srcs: seq<seq<Row>>, tgts: map<nat, seq<Row>>) {
    forall i: nat :: i < |ops| && ops[i].action.Train? ==> TrainHolds(ops, srcs, tgts, i)
  }

  ghost predicate Inv(h: Host) {
    && h.slots > 0 && h.next < h.slots && h.pending == []
    && (forall b :: b in h.tgts ==> b < |h.srcs|)
    && (h.mode == Serial <==> h.streams.forward.None?) && (h.mode == Serial <==> h.streams.train.None?)
    && Ordered(h.ops, h.events) && BufsBelow(h.ops, h.base + h.slots)
    && TrainsDone(h.ops, h.events) && TrainsHold(h.ops, h.srcs, h.tgts)
    && SlotsIdle(h) && CurrentOk(h) && ReadyOk(h)
  }
}
