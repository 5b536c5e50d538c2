/** Flows without a bundle key: every active row becomes one bundle of its own. */
module RowBundles {
  import opened BundleAssembler
  import opened Common
  import opened StepBundles
  import opened StepRefinement

  // ---- which tap serves a read ----------------------------------------------------------

  function IndexOf(bs: seq<Binding>, locator: Locator): (b: nat)
    ensures b <= |bs| && (b < |bs| ==> bs[b].locator == locator)
    ensures forall i :: 0 <= i < b ==> bs[i].locator != locator
  {
    if bs == [] || bs[0].locator == locator then 0
    else
      assert forall i :: 0 < i < |bs| ==> bs[i] == bs[1..][i - 1];
      1 + IndexOf(bs[1..], locator)
  }

  /** The tap whose frames carry the read; past the last one when nothing does. */
  function Tap(rt: Runtime, read: Read): nat {
    match read.kind
    case RequestMeta => 0
    case Residual => IndexOf(rt.bindings, read.locator)
    case Unsupported(_) => |rt.bindings|
  }

  function PayloadOf(rt: Runtime, read: Read, r: int): Payload {
    if read.kind == Residual && Tap(rt, read) < |rt.bindings| then HiddenOf(rt, rt.bindings[Tap(rt, read)], r)
      else MetaOf(rt, r)
  }

  predicate IsRead(flow: Flow, i: nat) { i < |flow.portReads| }

  ghost function All(flow: Flow): set<nat> { set i: nat | i < |flow.portReads| && IsRead(flow, i) }

  /** The reads served by the first `stage` taps. */
  ghost function Have(rt: Runtime, flow: Flow, stage: nat): set<nat> {
    set i: nat | i < |flow.portReads| && Tap(rt, flow.portReads[i]) < stage
  }

  // ---- one row's group ----------------------------------------------------------------------

  /** The entries hold row r's payloads of the reads in `have`, and nothing else. */
  ghost predicate RowHolds(rt: Runtime, flow: Flow, r: int, have: set<nat>, entries: map<string, Entry>) {
    && have <= All(flow)
    && (forall i: nat :: i in have ==>
        NameAt(flow.portReads, i) in entries
        && entries[NameAt(flow.portReads, i)] == One(PayloadOf(rt, flow.portReads[i], r)))
    && forall n :: n in entries ==> exists i: nat :: i in have && NameAt(flow.portReads, i) == n
  }

  /** Nothing pends for a row that has no read yet or all of them. */
  ghost predicate RowState(rt: Runtime, flow: Flow, p: Pending, r: int, have: set<nat>) {
    var g := Whole(KeyOf(rt, r));
    if have == {} || have == All(flow) then g !in p.entries
    else g in p.entries && g in p.keys && p.keys[g] == KeyOf(rt, r) && RowHolds(rt, flow, r, have, p.entries[g])
  }

  /** The bundle of row r: its own key, and its own payload for every read. */
  ghost predicate IsRowBundle(rt: Runtime, flow: Flow, r: int, out: Bundle) {
    && out.key == KeyOf(rt, r) && out.entries.Keys == Names(flow.portReads)
    && forall i: nat :: i < |flow.portReads| ==>
        NameAt(flow.portReads, i) in out.entries
        && out.entries[NameAt(flow.portReads, i)] == Single(PayloadOf(rt, flow.portReads[i], r))
  }

  lemma {:induction false} RowComplete(rt: Runtime, flow: Flow, r: int, have: set<nat>, entries: map<string, Entry>)
    requires DistinctNames(flow.portReads) && RowHolds(rt, flow, r, have, entries)
    ensures |entries| < |flow.portReads| <==> have != All(flow)
    ensures have == All(flow) ==> entries.Keys == Names(flow.portReads)
  {
    hide PayloadOf, NameAt;
    var portReads := flow.portReads;
    NameCount(portReads);
    assert |entries| == |entries.Keys|;
    assert entries.Keys <= Names(portReads) by {
      forall n | n in entries.Keys
        ensures n in Names(portReads)
      {
        var i: nat :| i in have && NameAt(portReads, i) == n; assert i in All(flow);
      }
    }
    if have != All(flow) {
      var i: nat :| i in All(flow) && i !in have;
      assert NameAt(portReads, i) !in entries.Keys;
      assert NameAt(portReads, i) in Names(portReads);
      ProperSubset(entries.Keys, Names(portReads), NameAt(portReads, i));
    } else {
      forall n | n in Names(portReads) ensures n in entries.Keys {
        var i: nat :| i < |portReads| && NameAt(portReads, i) == n;
        assert i in All(flow);
      }
      assert entries.Keys == Names(portReads);
    }
  }

  lemma {:induction false} RowBuilt(rt: Runtime, flow: Flow, r: int, entries: map<string, Entry>)
    requires RowHolds(rt, flow, r, All(flow), entries) && entries.Keys == Names(flow.portReads)
    ensures IsRowBundle(rt, flow, r, Built(KeyOf(rt, r), entries))
  {
    hide PayloadOf, NameAt, KeyOf;
    forall i: nat | i < |flow.portReads|
      ensures NameAt(flow.portReads, i) in entries
        && entries[NameAt(flow.portReads, i)] == One(PayloadOf(rt, flow.portReads[i], r))
    {
      assert i in All(flow);
    }
  }

  lemma {:induction false} RowGains(rt: Runtime, flow: Flow, r: int, have: set<nat>, entries: map<string, Entry>,
        i: nat)
    requires !Aggregates(flow) && DistinctNames(flow.portReads) && i < |flow.portReads|
    requires RowHolds(rt, flow, r, have, entries)
    ensures RowHolds(rt, flow, r, have + {i},
      WithPayload(flow, entries, NameAt(flow.portReads, i), PayloadOf(rt, flow.portReads[i], r)))
  {
  }

  /** A group other than g is as it was. */
  ghost predicate Untouched(p: Pending, q: Pending, h: Group) {
    (h in q.entries <==> h in p.entries) && (h in q.keys <==> h in p.keys)
      && (h in p.entries ==> q.entries[h] == p.entries[h]) && (h in p.keys ==> q.keys[h] == p.keys[h])
  }

  ghost predicate OthersSame(p: Pending, q: Pending, g: Group) { forall h :: h != g ==> Untouched(p, q, h) }

  /** Storing into a group and then possibly releasing it leaves the other groups alone. */
  lemma {:induction false} PushedShape(flow: Flow, p: Pending, f: Frame, i: nat, entries: map<string, Entry>)
    requires !Aggregates(flow) && Valid(p) && Match(flow.portReads, f) == Some(i)
    requires entries == WithPayload(flow, EntriesOf(p, Whole(f.key)), NameAt(flow.portReads, i), f.payload)
    ensures var g, q := Whole(f.key), Pushed(flow, p, f).0; Valid(q) && OthersSame(p, q, g)
    ensures var g, r := Whole(f.key), Pushed(flow, p, f);
      if |entries| < |flow.portReads| then r.1 == [] && g in r.0.entries && r.0.entries[g] == entries && g in r.0.keys
        && r.0.keys[g] == (if g in p.keys then p.keys[g] else f.key)
      else g !in r.0.entries && r.1 == [Built(if g in p.keys then p.keys[g] else f.key, entries)]
  {
    hide WithPayload, Built, Removed, Match, Distinct;
    PushedValid(flow, p, f);
  }

  /** One more payload of row r: its group grows, or completes and leaves as the row's bundle. */
  lemma {:induction false} PushOne(rt: Runtime, flow: Flow, p: Pending, f: Frame, r: int, have: set<nat>, i: nat)
    requires !Aggregates(flow) && DistinctNames(flow.portReads) && Valid(p) && have <= All(flow)
    requires RowState(rt, flow, p, r, have)
    requires Match(flow.portReads, f) == Some(i) && i !in have && f.key == KeyOf(rt, r)
    requires f.payload == PayloadOf(rt, flow.portReads[i], r)
    ensures Valid(Pushed(flow, p, f).0) && RowState(rt, flow, Pushed(flow, p, f).0, r, have + {i})
    ensures OthersSame(p, Pushed(flow, p, f).0, Whole(KeyOf(rt, r)))
    ensures RowOut(rt, flow, r, have + {i}, Pushed(flow, p, f).1)
  {
    hide IsRowBundle, Built, Pushed, OthersSame, WithPayload, Match;
    var g := Whole(KeyOf(rt, r));
    assert i in All(flow) && have != All(flow);
    var entries := EntriesOf(p, g);
    assert RowHolds(rt, flow, r, have, entries) && (g in p.keys ==> p.keys[g] == KeyOf(rt, r));
    hide RowHolds;
    var next := WithPayload(flow, entries, NameAt(flow.portReads, i), f.payload);
    RowGains(rt, flow, r, have, entries, i);
    RowComplete(rt, flow, r, have + {i}, next);
    if have + {i} == All(flow) { RowBuilt(rt, flow, r, next); }
    PushedShape(flow, p, f, i, next);
  }

  /** A row's bundle is released when the last read arrives, and only then. */
  ghost predicate RowOut(rt: Runtime, flow: Flow, r: int, have: set<nat>, out: seq<Bundle>) {
    if have == All(flow) then |out| == 1 && IsRowBundle(rt, flow, r, out[0]) else out == []
  }

  // ---- one row of one tap -----------------------------------------------------------------

  /** Pushing frames onto a given state. */
  function RunFrom(flow: Flow, p: Pending, fs: seq<Frame>): (r: (Pending, seq<Bundle>))
    requires Valid(p)
    ensures Valid(r.0)
  {
    if fs == [] then (p, [])
    else
      var before := RunFrom(flow, p, fs[..|fs| - 1]);
      var last := Pushed(flow, before.0, fs[|fs| - 1]);
      PushedValid(flow, before.0, fs[|fs| - 1]);
      (last.0, before.1 + last.1)
  }

  lemma {:induction false} RunSplits(flow: Flow, a: seq<Frame>, fs: seq<Frame>)
    ensures Run(flow, a + fs) == (RunFrom(flow, Run(flow, a).0, fs).0,
      Run(flow, a).1 + RunFrom(flow, Run(flow, a).0, fs).1)
  {
    hide Pushed, Valid;
    if fs == [] {
      assert a + fs == a;
      assert RunFrom(flow, Run(flow, a).0, fs) == (Run(flow, a).0, []);
      assert Run(flow, a).1 + [] == Run(flow, a).1;
    } else {
      RunSplits(flow, a, fs[..|fs| - 1]);
      assert (a + fs)[..|a + fs| - 1] == a + fs[..|fs| - 1];
      var start := Run(flow, a);
      var before := RunFrom(flow, start.0, fs[..|fs| - 1]);
      var last := Pushed(flow, before.0, fs[|fs| - 1]);
      assert Run(flow, a + fs) == (last.0, (start.1 + before.1) + last.1);
      assert (start.1 + before.1) + last.1 == start.1 + (before.1 + last.1);
    }
  }

  lemma {:induction false} RunTwo(flow: Flow, p: Pending, f: Frame, g: Frame)
    requires Valid(p)
    ensures RunFrom(flow, p, [f]) == Pushed(flow, p, f) && Valid(Pushed(flow, p, f).0)
    ensures RunFrom(flow, p, [f, g]) == (Pushed(flow, Pushed(flow, p, f).0, g).0,
      Pushed(flow, p, f).1 + Pushed(flow, Pushed(flow, p, f).0, g).1)
  {
    hide Pushed, Valid;
    PushedValid(flow, p, f);
    assert [f][..0] == [] && [f, g][..1] == [f];
    assert RunFrom(flow, p, []) == (p, []);
    assert [] + Pushed(flow, p, f).1 == Pushed(flow, p, f).1;
  }

  /** A push that matches the read of `gain`, when there is one and it is still missing. */
  lemma {:induction false} PushMaybe(rt: Runtime, flow: Flow, p: Pending, f: Frame, r: int, have: set<nat>)
    requires FlowOk(flow) && !Aggregates(flow) && Valid(p) && have <= All(flow) && RowState(rt, flow, p, r, have)
    requires f.key == KeyOf(rt, r)
    requires forall i: nat :: i < |flow.portReads| && Matches(flow.portReads[i], f) ==>
      i !in have && f.payload == PayloadOf(rt, flow.portReads[i], r)
    ensures var m := Match(flow.portReads, f);
      var gain := if m.Some? then {m.value} else {};
      var q := Pushed(flow, p, f);
      Valid(q.0) && have + gain <= All(flow) && RowState(rt, flow, q.0, r, have + gain)
        && OthersSame(p, q.0, Whole(KeyOf(rt, r)))
      && (if m.Some? then RowOut(rt, flow, r, have + gain, q.1) else q.1 == [])
  {
    hide RowState, OthersSame, RowOut, PayloadOf, KeyOf;
    FlowNames(flow);
    var m := Match(flow.portReads, f);
    if m.Some? {
      hide Pushed;
      assert m.value in All(flow);
      PushOne(rt, flow, p, f, r, have, m.value);
    } else {
      assert have + {} == have;
      SameOthers(p, Whole(KeyOf(rt, r)));
    }
  }

  lemma {:induction false} SameOthers(p: Pending, g: Group)
    ensures OthersSame(p, p, g)
  {
  }

  lemma {:induction false} OthersTwice(p: Pending, q: Pending, s: Pending, g: Group)
    requires OthersSame(p, q, g) && OthersSame(q, s, g)
    ensures OthersSame(p, s, g)
  {
    forall h | h != g ensures Untouched(p, s, h) { assert Untouched(p, q, h) && Untouched(q, s, h); }
  }

  // ---- a row's frames of one tap -----------------------------------------------------------

  lemma {:induction false} TapOfRead(rt: Runtime, read: Read, b: nat)
    requires RuntimeOk(rt) && b < |rt.bindings| && (read.kind == RequestMeta <==> read.locator == MetaLocator)
    ensures Tap(rt, read) == b <==>
      (read.kind == Residual && read.locator == rt.bindings[b].locator) || (read.kind == RequestMeta && b == 0)
  {
    assert BindingOk(rt, rt.bindings[b]);
  }

  /** The reads of tap b. */
  ghost predicate Gains(rt: Runtime, flow: Flow, b: nat, gain: set<nat>) {
    forall i: nat :: i in gain <==> i < |flow.portReads| && Tap(rt, flow.portReads[i]) == b
  }

  lemma {:induction false} HaveNext(rt: Runtime, flow: Flow, b: nat, gain: set<nat>)
    requires Gains(rt, flow, b, gain)
    ensures Have(rt, flow, b + 1) == Have(rt, flow, b) + gain && Have(rt, flow, b) <= All(flow)
  {
    forall i: nat | i in Have(rt, flow, b) ensures i in All(flow) { assert IsRead(flow, i); }
  }

  function Wanted(flow: Flow, f: Frame): set<nat>
  {
    var m := Match(flow.portReads, f); if m.Some? then {m.value} else {}
  }

  /** The residual frame and, on the first tap, the metadata frame serve the tap's reads. */
  lemma {:induction false} FramesServe(rt: Runtime, flow: Flow, b: nat, r: int)
    requires FlowOk(flow) && RuntimeOk(rt) && b < |rt.bindings|
    ensures var f, g := ResidualFrame(rt, rt.bindings[b], r), MetaFrame(rt, r);
      Gains(rt, flow, b, Wanted(flow, f) + if b == 0 then Wanted(flow, g) else {})
    ensures var f, g := ResidualFrame(rt, rt.bindings[b], r), MetaFrame(rt, r);
      forall i: nat :: i < |flow.portReads| ==>
        (Matches(flow.portReads[i], f) ==>
          Tap(rt, flow.portReads[i]) == b && f.payload == PayloadOf(rt, flow.portReads[i], r))
        && (Matches(flow.portReads[i], g) ==>
            Tap(rt, flow.portReads[i]) == 0 && g.payload == PayloadOf(rt, flow.portReads[i], r)
            && !Matches(flow.portReads[i], f))
  {
    hide Match;
    var f, g := ResidualFrame(rt, rt.bindings[b], r), MetaFrame(rt, r);
    assert BindingOk(rt, rt.bindings[b]);
    forall i: nat | i < |flow.portReads|
      ensures i in Wanted(flow, f) <==> Matches(flow.portReads[i], f)
      ensures i in Wanted(flow, g) <==> Matches(flow.portReads[i], g)
      ensures Tap(rt, flow.portReads[i]) == b <==>
        Matches(flow.portReads[i], f) || (b == 0 && Matches(flow.portReads[i], g))
    {
      GoesTo(flow, f, i);
      GoesTo(flow, g, i);
      TapOfRead(rt, flow.portReads[i], b);
    }
  }

  /** A row's bundle leaves with the tap that serves its last read. */
  ghost predicate TapOut(rt: Runtime, flow: Flow, b: nat, r: int, out: seq<Bundle>) {
    if Have(rt, flow, b) != All(flow) && Have(rt, flow, b + 1) == All(flow)
    then |out| == 1 && IsRowBundle(rt, flow, r, out[0]) else out == []
  }

  lemma {:induction false} TapRow(rt: Runtime, flow: Flow, p: Pending, b: nat, r: int)
    requires FlowOk(flow) && !Aggregates(flow) && RuntimeOk(rt) && b < |rt.bindings| && Valid(p)
    requires RowState(rt, flow, p, r, Have(rt, flow, b))
    ensures var q := RunFrom(flow, p, RowFrames(rt, rt.bindings[b], r));
      RowState(rt, flow, q.0, r, Have(rt, flow, b + 1)) && OthersSame(p, q.0, Whole(KeyOf(rt, r)))
        && TapOut(rt, flow, b, r, q.1)
  {
    hide RowState, OthersSame, IsRowBundle, Match, PayloadOf, KeyOf, Pushed, Valid, FlowOk, Matches, RunFrom, Tap;
    var f, g, have := ResidualFrame(rt, rt.bindings[b], r), MetaFrame(rt, r), Have(rt, flow, b);
    FramesServe(rt, flow, b, r);
    var gain := Wanted(flow, f) + if b == 0 then Wanted(flow, g) else {};
    HaveNext(rt, flow, b, gain);
    RunTwo(flow, p, f, g);
    PushMaybe(rt, flow, p, f, r, have);
    GainedOnly(flow, f);
    if b == 0 {
      GainedOnly(flow, g);
      var p1 := Pushed(flow, p, f).0;
      PushMaybe(rt, flow, p1, g, r, have + Wanted(flow, f));
      OthersTwice(p, p1, Pushed(flow, p1, g).0, Whole(KeyOf(rt, r)));
      assert have + gain == have + Wanted(flow, f) + Wanted(flow, g);
      assert RowFrames(rt, rt.bindings[b], r) == [f, g];
    } else {
      assert have + gain == have + Wanted(flow, f);
      assert RowFrames(rt, rt.bindings[b], r) == [f];
    }
  }

  lemma {:induction false} GainedOnly(flow: Flow, f: Frame)
    ensures forall i: nat :: i in Wanted(flow, f) ==>
      i < |flow.portReads| && Matches(flow.portReads[i], f) && i in All(flow)
  {
    forall i: nat | i in Wanted(flow, f) ensures i in All(flow) { assert IsRead(flow, i); }
  }

  // ---- a whole step ------------------------------------------------------------------------

  ghost predicate DistinctKeys(rt: Runtime) {
    forall i: nat, j: nat :: i < j < |rt.requests| ==> KeyOf(rt, i) != KeyOf(rt, j)
  }

  /** Taps below `b` are through; of tap b, the rows below r. */
  function StageOf(b: nat, r: nat, j: nat): nat { if j < r then b + 1 else b }

  /** Rows whose bundle is out. */
  ghost function Released(rt: Runtime, flow: Flow, b: nat, r: nat): nat {
    if Have(rt, flow, b) == All(flow) then |rt.requests| else if Have(rt, flow, b + 1) == All(flow) then r else 0
  }

  ghost predicate IsRowGroup(rt: Runtime, g: Group) { exists j: nat :: j < |rt.requests| && g == Whole(KeyOf(rt, j)) }

  ghost predicate RowAt(rt: Runtime, flow: Flow, p: Pending, b: nat, r: nat, j: nat) {
    RowState(rt, flow, p, j, Have(rt, flow, StageOf(b, r, j)))
  }

  ghost predicate Pends(rt: Runtime, flow: Flow, p: Pending, b: nat, r: nat) {
    && Valid(p)
    && (forall j: nat :: j < |rt.requests| ==> RowAt(rt, flow, p, b, r, j))
    && (forall g :: g in p.entries ==> IsRowGroup(rt, g))
  }

  ghost predicate Emitted(rt: Runtime, flow: Flow, out: seq<Bundle>, b: nat, r: nat) {
    |out| == Released(rt, flow, b, r) && forall j :: 0 <= j < |out| ==> IsRowBundle(rt, flow, j, out[j])
  }

  lemma {:induction false} OtherRow(rt: Runtime, flow: Flow, p: Pending, q: Pending, g: Group, j: int, have: set<nat>)
    requires RowState(rt, flow, p, j, have) && OthersSame(p, q, g) && Whole(KeyOf(rt, j)) != g
    ensures RowState(rt, flow, q, j, have)
  {
    hide RowHolds;
    assert Untouched(p, q, Whole(KeyOf(rt, j)));
  }

  lemma {:induction false} PendsNext(rt: Runtime, flow: Flow, p: Pending, q: Pending, b: nat, r: nat)
    requires DistinctKeys(rt) && r < |rt.requests| && Pends(rt, flow, p, b, r) && Valid(q)
    requires RowState(rt, flow, q, r, Have(rt, flow, b + 1)) && OthersSame(p, q, Whole(KeyOf(rt, r)))
    ensures Pends(rt, flow, q, b, r + 1)
  {
    hide RowState, KeyOf, Have, Valid;
    var g := Whole(KeyOf(rt, r));
    var next := r + 1;
    forall j: nat | j < |rt.requests| ensures RowAt(rt, flow, q, b, next, j) {
      assert RowAt(rt, flow, p, b, r, j);
      if j != r {
        assert KeyOf(rt, j) != KeyOf(rt, r);
        OtherRow(rt, flow, p, q, g, j, Have(rt, flow, StageOf(b, r, j)));
      }
    }
    forall h | h in q.entries ensures IsRowGroup(rt, h) { if h != g { assert Untouched(p, q, h); } }
  }

  lemma {:induction false} EmittedNext(rt: Runtime, flow: Flow, out: seq<Bundle>, more: seq<Bundle>, b: nat, r: nat)
    requires r < |rt.requests| && Emitted(rt, flow, out, b, r) && TapOut(rt, flow, b, r, more)
    ensures Emitted(rt, flow, out + more, b, r + 1)
  {
    hide IsRowBundle, Have, All;
  }

  lemma {:induction false} TapProgress(rt: Runtime, flow: Flow, b: nat, n: nat)
    requires FlowOk(flow) && !Aggregates(flow) && RuntimeOk(rt) && DistinctKeys(rt) && b < |rt.bindings|
    requires n <= |rt.requests|
    requires var run := Run(flow, StepFrames(rt, b)); Pends(rt, flow, run.0, b, 0) && Emitted(rt, flow, run.1, b, 0)
    ensures var run := Run(flow, StepFrames(rt, b) + TapFrames(rt, rt.bindings[b], n));
      Pends(rt, flow, run.0, b, n) && Emitted(rt, flow, run.1, b, n)
  {
    hide Run, RunFrom, RowFrames, StepFrames, FlowOk, RowState, OthersSame, TapOut, Emitted, RuntimeOk, DistinctKeys,
         KeyOf, Have;
    var a := StepFrames(rt, b);
    if n == 0 {
      assert a + TapFrames(rt, rt.bindings[b], 0) == a;
    } else {
      TapProgress(rt, flow, b, n - 1);
      var before, row := a + TapFrames(rt, rt.bindings[b], n - 1), RowFrames(rt, rt.bindings[b], n - 1);
      assert a + TapFrames(rt, rt.bindings[b], n) == before + row;
      RunSplits(flow, before, row);
      var p := Run(flow, before).0;
      assert StageOf(b, n - 1, n - 1) == b && RowAt(rt, flow, p, b, n - 1, n - 1);
      TapRow(rt, flow, p, b, n - 1);
      PendsNext(rt, flow, p, RunFrom(flow, p, row).0, b, n - 1);
      EmittedNext(rt, flow, Run(flow, before).1, RunFrom(flow, p, row).1, b, n - 1);
    }
  }

  /** A finished tap is the start of the next. */
  lemma {:induction false} NextTap(rt: Runtime, flow: Flow, p: Pending, out: seq<Bundle>, b: nat)
    requires Pends(rt, flow, p, b, |rt.requests|) && Emitted(rt, flow, out, b, |rt.requests|)
    requires Have(rt, flow, b) <= Have(rt, flow, b + 1) <= All(flow)
    ensures Pends(rt, flow, p, b + 1, 0) && Emitted(rt, flow, out, b + 1, 0)
  {
    hide RowState, IsRowBundle, Have, All;
    var next := b + 1;
    forall j: nat | j < |rt.requests| ensures RowAt(rt, flow, p, next, 0, j) {
      assert RowAt(rt, flow, p, b, |rt.requests|, j);
      assert StageOf(b, |rt.requests|, j) == b + 1;
    }
  }

  lemma {:induction false} HaveGrows(rt: Runtime, flow: Flow, b: nat)
    ensures Have(rt, flow, b) <= Have(rt, flow, b + 1) <= All(flow)
  {
    forall i: nat | i in Have(rt, flow, b + 1) ensures i in All(flow) { assert IsRead(flow, i); }
  }

  lemma {:induction false} NothingYet(rt: Runtime, flow: Flow)
    requires FlowOk(flow)
    ensures StepFrames(rt, 0) == [] && Run(flow, []) == (EMPTY, []) && Pends(rt, flow, EMPTY, 0, 0)
    ensures Emitted(rt, flow, [], 0, 0)
  {
    assert Have(rt, flow, 0) == {};
    assert All(flow) != {} by { assert IsRead(flow, 0) && 0 in All(flow); }
  }

  lemma {:induction false} StepProgress(rt: Runtime, flow: Flow, m: nat)
    requires FlowOk(flow) && !Aggregates(flow) && RuntimeOk(rt) && DistinctKeys(rt) && m <= |rt.bindings|
    ensures var run := Run(flow, StepFrames(rt, m)); Pends(rt, flow, run.0, m, 0) && Emitted(rt, flow, run.1, m, 0)
  {
    hide FlowOk, RuntimeOk, DistinctKeys, RowState, Emitted, Pends, TapFrames, Have, Run;
    if m == 0 {
      NothingYet(rt, flow);
    } else {
      assert StepFrames(rt, m) == StepFrames(rt, m - 1) + TapFrames(rt, rt.bindings[m - 1], |rt.requests|);
      hide StepFrames;
      StepProgress(rt, flow, m - 1);
      TapProgress(rt, flow, m - 1, |rt.requests|);
      HaveGrows(rt, flow, m - 1);
      NextTap(rt, flow, Run(flow, StepFrames(rt, m)).0, Run(flow, StepFrames(rt, m)).1, m - 1);
    }
  }

  lemma {:induction false} AllServed(rt: Runtime, flow: Flow)
    requires RuntimeOk(rt) && forall i: nat :: i < |flow.portReads| ==> DirectEntry(rt, flow.portReads[i]).Some?
    ensures Have(rt, flow, |rt.bindings|) == All(flow)
  {
    forall i: nat | i < |flow.portReads| ensures Tap(rt, flow.portReads[i]) < |rt.bindings| && IsRead(flow, i) {
      assert DirectEntry(rt, flow.portReads[i]).Some?;
    }
  }

  lemma {:induction false} SomeGroup(order: seq<Group>)
    ensures order != [] ==> exists g :: g in order
  {
    if order != [] {
      var g := order[0];
      assert g in order;
    }
  }

  /** Without a bundle key, pushing the frames of a step whose reads are all bound and whose keys are
      distinct emits one bundle per active row, in row order, each with that row's payloads only, and
      leaves nothing pending. */
  lemma {:induction false} OneBundlePerRow(rt: Runtime, flow: Flow)
    requires FlowOk(flow) && flow.bundleKey == [] && RuntimeOk(rt) && DistinctKeys(rt)
    requires forall i: nat :: i < |flow.portReads| ==> DirectEntry(rt, flow.portReads[i]).Some?
    ensures var fs := StepFrames(rt, |rt.bindings|); Run(flow, fs).0 == EMPTY && |Assembled(flow, fs)| == |rt.requests|
    ensures forall j :: 0 <= j < |rt.requests| ==>
      IsRowBundle(rt, flow, j, Assembled(flow, StepFrames(rt, |rt.bindings|))[j])
  {
    hide IsRowBundle, DirectEntry, StepFrames, Run, FlowOk, RuntimeOk;
    var m, fs := |rt.bindings|, StepFrames(rt, |rt.bindings|);
    AllServed(rt, flow);
    StepProgress(rt, flow, m);
    RunFlushable(flow, fs);
    var p := Run(flow, fs).0;
    forall j: nat | j < |rt.requests| ensures Whole(KeyOf(rt, j)) !in p.entries { assert RowAt(rt, flow, p, m, 0, j); }
    forall g ensures g !in p.entries {}
    SomeGroup(p.order);
    assert p.entries == map[] && p.keys == map[];
    assert Flushed(flow, p, []) == (p, []);
  }

  /** Row r's value of one read: its own row of the layer it is bound to, or its own metadata. */
  ghost predicate HoldsRow(rt: Runtime, read: Read, r: int, v: Value) {
    && v.Single?
    && (read.kind == RequestMeta ==> IsMeta(rt, r, v.payload))
    && (read.kind == Residual ==>
          forall b :: 0 <= b < |rt.bindings| && rt.bindings[b].locator == read.locator ==>
            && rt.bindings[b].path in rt.buffers && 0 <= r < |rt.buffers[rt.bindings[b].path]|
            && v.payload == Hidden(rt.buffers[rt.bindings[b].path][r]))
  }

  /** The bundle of row r: its own key, and under every read's name its own value of the read. */
  ghost predicate HoldsRowOf(rt: Runtime, flow: Flow, r: int, out: Bundle)
    requires 0 <= r < |rt.requests| && r < |rt.samples|
  {
    && out.key == Key(rt.step, "decode", rt.requests[r], rt.samples[r])
    && forall i: nat :: i < |flow.portReads| ==>
         && Labels(flow.portReads[i], NameAt(flow.portReads, i)) && NameAt(flow.portReads, i) in out.entries
         && HoldsRow(rt, flow.portReads[i], r, out.entries[NameAt(flow.portReads, i)])
  }

  lemma {:induction false} RowBundleMeaning(rt: Runtime, flow: Flow, r: int, out: Bundle)
    requires FlowOk(flow) && RuntimeOk(rt) && 0 <= r < |rt.requests| && IsRowBundle(rt, flow, r, out)
    ensures HoldsRowOf(rt, flow, r, out)
  {
    forall i: nat | i < |flow.portReads|
      ensures HoldsRow(rt, flow.portReads[i], r, Single(PayloadOf(rt, flow.portReads[i], r)))
      ensures Labels(flow.portReads[i], NameAt(flow.portReads, i))
    {
      var read := flow.portReads[i];
      var t := Tap(rt, read);
      forall b | 0 <= b < |rt.bindings| && rt.bindings[b].locator == read.locator && read.kind == Residual
        ensures t == b && BindingOk(rt, rt.bindings[b])
      {
      }
    }
  }

  /** Without a bundle key and with every read served: as many bundles as active rows, in order, and row
      r's bundle carries row r's key, hidden rows and metadata. */
  lemma {:induction false} RowBundlesExactly(rt: Runtime, flow: Flow)
    requires FlowOk(flow) && flow.bundleKey == [] && RuntimeOk(rt) && DistinctKeys(rt)
    requires forall i: nat :: i < |flow.portReads| ==> DirectEntry(rt, flow.portReads[i]).Some?
    ensures var out := Assembled(flow, StepFrames(rt, |rt.bindings|));
      |out| == |rt.requests| && forall r :: 0 <= r < |out| ==> HoldsRowOf(rt, flow, r, out[r])
  {
    hide IsRowBundle, HoldsRowOf, DirectEntry, StepFrames, Run, FlowOk, Assembled;
    OneBundlePerRow(rt, flow);
    var out := Assembled(flow, StepFrames(rt, |rt.bindings|));
    forall r | 0 <= r < |out| ensures HoldsRowOf(rt, flow, r, out[r]) { RowBundleMeaning(rt, flow, r, out[r]); }
  }
}
