/** The direct step bundle is what the frames and the assembler produce. */
module StepRefinement {
  import opened BundleAssembler
  import opened Common
  import opened StepBundles

  /** Reads with distinct names and distinct locators, each locator of its own kind. */
  ghost predicate FlowOk(flow: Flow) {
    && flow.portReads != []
    && (forall i :: 0 <= i < |flow.portReads| ==>
      (flow.portReads[i].kind == RequestMeta <==> flow.portReads[i].locator == MetaLocator))
    && (forall i, j :: 0 <= i < j < |flow.portReads| ==> Name(flow.portReads[i]) != Name(flow.portReads[j]))
    && (forall i, j :: 0 <= i < j < |flow.portReads| ==> flow.portReads[i].locator != flow.portReads[j].locator)
  }

  ghost predicate StepScope(flow: Flow) { flow.bundleKey == [StepId, Phase] }

  // ---- one group -------------------------------------------------------------------------

  /** Payloads of the frames that go to read i, in order. */
  function Collect(portReads: seq<Read>, fs: seq<Frame>, i: nat): seq<Payload> {
    if fs == [] then []
    else
      var before, last := Collect(portReads, fs[..|fs| - 1], i), fs[|fs| - 1];
      if Match(portReads, last) == Some(i) then before + [last.payload] else before
  }

  /** Key of the first frame that goes to any read. */
  function FirstKey(portReads: seq<Read>, fs: seq<Frame>): Option<Key> {
    if fs == [] then None
    else
      var before, last := FirstKey(portReads, fs[..|fs| - 1]), fs[|fs| - 1];
      if before.None? && Match(portReads, last).Some? then Some(last.key) else before
  }

  function NameAt(portReads: seq<Read>, i: nat): string
    requires i < |portReads|
  {
    Name(portReads[i])
  }

  ghost predicate DistinctNames(portReads: seq<Read>) {
    forall i: nat, j: nat :: i < j < |portReads| ==> NameAt(portReads, i) != NameAt(portReads, j)
  }

  ghost predicate IsName(portReads: seq<Read>, n: string)
  {
    exists i: nat :: i < |portReads| && NameAt(portReads, i) == n
  }

  /** The pending entry of read i is what was collected for it. */
  ghost predicate HoldsAt(portReads: seq<Read>, payloads: seq<Payload>, entries: map<string, Entry>, i: nat)
    requires i < |portReads|
  {
    var n := NameAt(portReads, i);
    (n in entries <==> payloads != []) && (n in entries ==> entries[n] == Many(payloads))
  }

  ghost predicate Holds(portReads: seq<Read>, fs: seq<Frame>, entries: map<string, Entry>) {
    && (forall n :: n in entries ==> IsName(portReads, n))
    && forall i: nat :: i < |portReads| ==> HoldsAt(portReads, Collect(portReads, fs, i), entries, i)
  }

  lemma {:induction false} AddedHolds(flow: Flow, fs: seq<Frame>, entries: map<string, Entry>, m: nat)
    requires Aggregates(flow) && DistinctNames(flow.portReads) && fs != []
    requires Match(flow.portReads, fs[|fs| - 1]) == Some(m)
    requires Holds(flow.portReads, fs[..|fs| - 1], entries)
    ensures Holds(flow.portReads, fs, WithPayload(flow, entries, Name(flow.portReads[m]), fs[|fs| - 1].payload))
  {
    var portReads, name := flow.portReads, NameAt(flow.portReads, m);
    var next := WithPayload(flow, entries, name, fs[|fs| - 1].payload);
    assert IsName(portReads, name);
    assert HoldsAt(portReads, Collect(portReads, fs[..|fs| - 1], m), entries, m);
    forall i: nat | i < |portReads| ensures HoldsAt(portReads, Collect(portReads, fs, i), next, i) {
      assert HoldsAt(portReads, Collect(portReads, fs[..|fs| - 1], i), entries, i);
    }
  }

  lemma {:induction false} SameHolds(portReads: seq<Read>, a: seq<Frame>, b: seq<Frame>, entries: map<string, Entry>)
    requires Holds(portReads, a, entries)
    requires forall i: nat :: i < |portReads| ==> Collect(portReads, b, i) == Collect(portReads, a, i)
    ensures Holds(portReads, b, entries)
  {
    forall i: nat | i < |portReads| ensures HoldsAt(portReads, Collect(portReads, b, i), entries, i) {
      assert HoldsAt(portReads, Collect(portReads, a, i), entries, i);
    }
  }

  ghost predicate OneGroup(flow: Flow, fs: seq<Frame>, g: Group)
  {
    forall k :: 0 <= k < |fs| ==> GroupOf(flow, fs[k].key) == g
  }

  ghost predicate Aggregated(portReads: seq<Read>, fs: seq<Frame>, g: Group, p: Pending) {
    var key := FirstKey(portReads, fs);
    if key.None? then p == EMPTY && Holds(portReads, fs, map[])
    else p.order == [g] && p.keys == map[g := key.value] && p.entries.Keys == {g} && Holds(portReads, fs, p.entries[g])
  }

  /** Frames of one group pile up by read, whatever their order; nothing leaves before the flush. */
  lemma {:induction false} Aggregate(flow: Flow, fs: seq<Frame>, g: Group)
    requires Aggregates(flow) && DistinctNames(flow.portReads) && OneGroup(flow, fs, g)
    ensures Run(flow, fs).1 == [] && Aggregated(flow.portReads, fs, g, Run(flow, fs).0)
  {
    if fs != [] {
      var init, last := fs[..|fs| - 1], fs[|fs| - 1];
      Aggregate(flow, init, g);
      AggregateOne(flow, fs, g, Run(flow, init).0);
    }
  }

  lemma {:induction false} AggregateOne(flow: Flow, fs: seq<Frame>, g: Group, p: Pending)
    requires Aggregates(flow) && DistinctNames(flow.portReads) && fs != [] && GroupOf(flow, fs[|fs| - 1].key) == g
    requires Valid(p) && Aggregated(flow.portReads, fs[..|fs| - 1], g, p)
    ensures Pushed(flow, p, fs[|fs| - 1]).1 == [] && Aggregated(flow.portReads, fs, g, Pushed(flow, p, fs[|fs| - 1]).0)
  {
    hide GroupOf, WithPayload;
    var portReads, init, last := flow.portReads, fs[..|fs| - 1], fs[|fs| - 1];
    var m := Match(portReads, last);
    if m.Some? {
      assert Holds(portReads, init, EntriesOf(p, g));
      AddedHolds(flow, fs, EntriesOf(p, g), m.value);
      var q := Pushed(flow, p, last).0;
      assert q.entries == p.entries[g := WithPayload(flow, EntriesOf(p, g), Name(portReads[m.value]), last.payload)];
      assert q.order == [g] && q.keys == map[g := FirstKey(portReads, fs).value];
    } else {
      forall i: nat | i < |portReads| ensures Collect(portReads, fs, i) == Collect(portReads, init, i) {}
      SameHolds(portReads, init, fs, EntriesOf(p, g));
    }
  }

  // ---- complete or not ---------------------------------------------------------------------

  ghost function Names(portReads: seq<Read>): set<string> { set i: nat | i < |portReads| :: NameAt(portReads, i) }

  lemma {:induction false} NameCount(portReads: seq<Read>)
    requires DistinctNames(portReads)
    ensures |Names(portReads)| == |portReads|
  {
    if portReads != [] {
      var k := |portReads| - 1;
      var init := portReads[..k];
      assert forall i: nat :: i < k ==> NameAt(init, i) == NameAt(portReads, i);
      NameCount(init);
      assert Names(portReads) == Names(init) + {NameAt(portReads, k)};
      assert NameAt(portReads, k) !in Names(init);
    }
  }

  lemma {:induction false} ProperSubset(a: set<string>, b: set<string>, n: string)
    requires a <= b && n in b && n !in a
    ensures |a| < |b|
  {
    var rest := b - a;
    assert n in rest && b == a + rest;
  }

  /** Nothing arrived for read i. */
  ghost predicate Unread(portReads: seq<Read>, fs: seq<Frame>, i: nat)
  {
    i < |portReads| && Collect(portReads, fs, i) == []
  }

  /** A group is complete exactly when every read has a payload. */
  lemma {:induction false} CompleteWhenAllRead(portReads: seq<Read>, fs: seq<Frame>, entries: map<string, Entry>)
    requires DistinctNames(portReads) && Holds(portReads, fs, entries)
    ensures |entries| < |portReads| <==> exists i: nat :: Unread(portReads, fs, i)
  {
    NameCount(portReads);
    assert |entries| == |entries.Keys|;
    assert entries.Keys <= Names(portReads) by {
      forall n | n in entries.Keys ensures n in Names(portReads) {
        assert IsName(portReads, n);
        var i: nat :| i < |portReads| && NameAt(portReads, i) == n;
      }
    }
    if i: nat :| Unread(portReads, fs, i) {
      assert HoldsAt(portReads, Collect(portReads, fs, i), entries, i);
      assert NameAt(portReads, i) in Names(portReads) && NameAt(portReads, i) !in entries.Keys;
      ProperSubset(entries.Keys, Names(portReads), NameAt(portReads, i));
      assert |entries| < |portReads|;
    } else {
      forall n | n in Names(portReads) ensures n in entries.Keys {
        var i: nat :| i < |portReads| && NameAt(portReads, i) == n;
        assert HoldsAt(portReads, Collect(portReads, fs, i), entries, i);
        assert !Unread(portReads, fs, i);
      }
      assert entries.Keys == Names(portReads);
      assert |entries| == |portReads|;
    }
  }

  // ---- the frames of a step --------------------------------------------------------------------

  lemma {:induction false} CollectConcat(portReads: seq<Read>, a: seq<Frame>, b: seq<Frame>, i: nat)
    ensures Collect(portReads, a + b, i) == Collect(portReads, a, i) + Collect(portReads, b, i)
    ensures FirstKey(portReads, a + b) == if FirstKey(portReads, a).Some? then FirstKey(portReads, a)
      else FirstKey(portReads, b)
  {
    if b == [] {
      assert a + b == a;
    } else {
      CollectConcat(portReads, a, b[..|b| - 1], i);
      assert (a + b)[..|a + b| - 1] == a + b[..|b| - 1];
    }
  }

  /** What one tap contributes to a read: its rows to its own locator, and the step's metadata. */
  function FromTap(rt: Runtime, read: Read, b: Binding, n: nat): seq<Payload> {
    if read.kind == Residual && read.locator == b.locator then seq(n, r requires 0 <= r < n => HiddenOf(rt, b, r))
    else if read.kind == RequestMeta && b.includeMeta then seq(n, r requires 0 <= r < n => MetaOf(rt, r))
    else []
  }

  /** A frame of the step goes to the only read with its kind and locator. */
  lemma {:induction false} GoesTo(flow: Flow, f: Frame, i: nat)
    requires FlowOk(flow) && i < |flow.portReads|
    ensures Match(flow.portReads, f) == Some(i) <==> Matches(flow.portReads[i], f)
  {
    var m := Match(flow.portReads, f);
    if m.Some? && Matches(flow.portReads[i], f) {
      assert flow.portReads[m.value].locator == flow.portReads[i].locator;
    }
  }

  lemma {:induction false} NoFrames(portReads: seq<Read>, i: nat)
    ensures Collect(portReads, [], i) == [] && FirstKey(portReads, []) == None
  {
  }

  lemma {:induction false} OneFrame(portReads: seq<Read>, f: Frame, i: nat)
    ensures Collect(portReads, [f], i) == if Match(portReads, f) == Some(i) then [f.payload] else []
    ensures FirstKey(portReads, [f]) == if Match(portReads, f).Some? then Some(f.key) else None
  {
    assert [f][..0] == [];
  }

  /** What row r of a tap contributes to a read. */
  function FromRow(rt: Runtime, read: Read, b: Binding, r: int): seq<Payload> {
    if read.kind == Residual && read.locator == b.locator then [HiddenOf(rt, b, r)]
    else if read.kind == RequestMeta && b.includeMeta then [MetaOf(rt, r)]
    else []
  }

  lemma {:induction false} RowGoesTo(flow: Flow, rt: Runtime, b: Binding, r: nat, i: nat)
    requires FlowOk(flow) && i < |flow.portReads| && b.locator.Layer?
    ensures Collect(flow.portReads, RowFrames(rt, b, r), i) == FromRow(rt, flow.portReads[i], b, r)
    ensures FirstKey(flow.portReads, RowFrames(rt, b, r)).Some? ==>
      FirstKey(flow.portReads, RowFrames(rt, b, r)).value == KeyOf(rt, r)
    ensures Collect(flow.portReads, RowFrames(rt, b, r), i) != [] ==>
      FirstKey(flow.portReads, RowFrames(rt, b, r)).Some?
  {
    hide Match, Collect, FirstKey;
    var f, g := ResidualFrame(rt, b, r), MetaFrame(rt, r);
    GoesTo(flow, f, i);
    GoesTo(flow, g, i);
    OneFrame(flow.portReads, f, i);
    OneFrame(flow.portReads, g, i);
    CollectConcat(flow.portReads, [f], [g], i);
    assert RowFrames(rt, b, r) == if b.includeMeta then [f] + [g] else [f];
  }

  lemma {:induction false} TapGoesTo(flow: Flow, rt: Runtime, b: Binding, n: nat, i: nat)
    requires FlowOk(flow) && i < |flow.portReads| && b.locator.Layer?
    ensures Collect(flow.portReads, TapFrames(rt, b, n), i) == FromTap(rt, flow.portReads[i], b, n)
    ensures FirstKey(flow.portReads, TapFrames(rt, b, n)).Some? ==>
      FirstKey(flow.portReads, TapFrames(rt, b, n)).value == KeyOf(rt, 0)
    ensures Collect(flow.portReads, TapFrames(rt, b, n), i) != [] ==>
      FirstKey(flow.portReads, TapFrames(rt, b, n)).Some?
  {
    hide Match, Collect, FirstKey, RowFrames, FlowOk;
    if n > 0 {
      TapGoesTo(flow, rt, b, n - 1, i);
      RowGoesTo(flow, rt, b, n - 1, i);
      CollectConcat(flow.portReads, TapFrames(rt, b, n - 1), RowFrames(rt, b, n - 1), i);
      if n > 1 { FirstKeyEarly(flow, rt, b, n - 1); }
    } else {
      NoFrames(flow.portReads, i);
    }
  }

  /** If any row of a tap is read, row 0 is: which reads a row serves does not depend on the row. */
  lemma {:induction false} FirstKeyEarly(flow: Flow, rt: Runtime, b: Binding, n: nat)
    requires FlowOk(flow) && b.locator.Layer? && n > 0
    ensures FirstKey(flow.portReads, RowFrames(rt, b, n)).Some? ==> FirstKey(flow.portReads, TapFrames(rt, b, n)).Some?
  {
    var first, later := RowFrames(rt, b, n - 1), RowFrames(rt, b, n);
    CollectConcat(flow.portReads, TapFrames(rt, b, n - 1), first, 0);
    SameReads(flow.portReads, rt, b, n - 1, n);
  }

  lemma {:induction false} RowIsRead(portReads: seq<Read>, rt: Runtime, b: Binding, r: nat)
    ensures FirstKey(portReads, RowFrames(rt, b, r)).Some? <==>
      (Match(portReads, ResidualFrame(rt, b, r)).Some? || (b.includeMeta && Match(portReads, MetaFrame(rt, r)).Some?))
  {
    hide Match, FirstKey;
    var f, g := ResidualFrame(rt, b, r), MetaFrame(rt, r);
    OneFrame(portReads, f, 0);
    OneFrame(portReads, g, 0);
    CollectConcat(portReads, [f], [g], 0);
    assert RowFrames(rt, b, r) == if b.includeMeta then [f] + [g] else [f];
  }

  lemma {:induction false} SameReads(portReads: seq<Read>, rt: Runtime, b: Binding, r: nat, q: nat)
    ensures FirstKey(portReads, RowFrames(rt, b, r)).Some? <==> FirstKey(portReads, RowFrames(rt, b, q)).Some?
  {
    RowIsRead(portReads, rt, b, r);
    RowIsRead(portReads, rt, b, q);
    SameMatch(portReads, ResidualFrame(rt, b, r), ResidualFrame(rt, b, q));
    SameMatch(portReads, MetaFrame(rt, r), MetaFrame(rt, q));
  }

  lemma {:induction false} SameMatch(portReads: seq<Read>, f: Frame, g: Frame)
    requires f.kind == g.kind && f.locator == g.locator
    ensures Match(portReads, f) == Match(portReads, g)
  {
    if portReads != [] { SameMatch(portReads[..|portReads| - 1], f, g); }
  }

  /** What the first m taps contribute to a read. */
  function FromTaps(rt: Runtime, read: Read, m: nat): seq<Payload>
    requires m <= |rt.bindings|
  {
    if m == 0 then [] else FromTaps(rt, read, m - 1) + FromTap(rt, read, rt.bindings[m - 1], |rt.requests|)
  }

  lemma {:induction false} StepGoesTo(flow: Flow, rt: Runtime, m: nat, i: nat)
    requires FlowOk(flow) && RuntimeOk(rt) && i < |flow.portReads| && m <= |rt.bindings|
    ensures Collect(flow.portReads, StepFrames(rt, m), i) == FromTaps(rt, flow.portReads[i], m)
    ensures FirstKey(flow.portReads, StepFrames(rt, m)).Some? ==>
      FirstKey(flow.portReads, StepFrames(rt, m)).value == KeyOf(rt, 0)
    ensures Collect(flow.portReads, StepFrames(rt, m), i) != [] ==> FirstKey(flow.portReads, StepFrames(rt, m)).Some?
  {
    hide Match, Collect, FirstKey, TapFrames, FlowOk;
    if m > 0 {
      var b := rt.bindings[m - 1];
      assert BindingOk(rt, b);
      StepGoesTo(flow, rt, m - 1, i);
      TapGoesTo(flow, rt, b, |rt.requests|, i);
      CollectConcat(flow.portReads, StepFrames(rt, m - 1), TapFrames(rt, b, |rt.requests|), i);
    } else {
      NoFrames(flow.portReads, i);
    }
  }

  lemma {:induction false} OneStepGroup(flow: Flow, rt: Runtime, m: nat)
    requires StepScope(flow) && m <= |rt.bindings|
    ensures OneGroup(flow, StepFrames(rt, m), GroupOf(flow, KeyOf(rt, 0)))
  {
    if m > 0 {
      OneStepGroup(flow, rt, m - 1);
      OneTapGroup(flow, rt, rt.bindings[m - 1], |rt.requests|);
    }
  }

  lemma {:induction false} OneTapGroup(flow: Flow, rt: Runtime, b: Binding, n: nat)
    requires StepScope(flow)
    ensures OneGroup(flow, TapFrames(rt, b, n), GroupOf(flow, KeyOf(rt, 0)))
  {
    if n > 0 { OneTapGroup(flow, rt, b, n - 1); }
  }

  // ---- against the direct entries -----------------------------------------------------------

  /** Only the binding with the read's locator contributes to a residual read. */
  lemma {:induction false} ResidualFromTaps(rt: Runtime, read: Read, m: nat, b: nat)
    requires RuntimeOk(rt) && read.kind == Residual && m <= |rt.bindings|
    ensures b < m && rt.bindings[b].locator == read.locator ==>
      FromTaps(rt, read, m) == FromTap(rt, read, rt.bindings[b], |rt.requests|)
    ensures (forall c :: 0 <= c < m ==> rt.bindings[c].locator != read.locator) ==> FromTaps(rt, read, m) == []
  {
    if m > 0 { ResidualFromTaps(rt, read, m - 1, b); ResidualFromTaps(rt, read, m - 1, m - 1); }
  }

  /** Only the first binding carries metadata. */
  lemma {:induction false} MetaFromTaps(rt: Runtime, read: Read, m: nat)
    requires RuntimeOk(rt) && read.kind != Residual && m <= |rt.bindings|
    ensures FromTaps(rt, read, m) ==
      if m > 0 && read.kind == RequestMeta then FromTap(rt, read, rt.bindings[0], |rt.requests|) else []
  {
    if m > 0 { MetaFromTaps(rt, read, m - 1); }
  }

  lemma {:induction false} PathOfBound(bs: seq<Binding>, b: nat)
    requires b < |bs| && forall i, j :: 0 <= i < j < |bs| ==> bs[i].locator != bs[j].locator
    ensures PathOf(bs, bs[b].locator) == Some(bs[b].path)
  {
    if b > 0 { PathOfBound(bs[1..], b - 1); }
  }

  lemma {:induction false} BoundEntry(rt: Runtime, read: Read, b: nat)
    requires RuntimeOk(rt) && read.kind == Residual && b < |rt.bindings| && rt.bindings[b].locator == read.locator
    ensures var ps := FromTaps(rt, read, |rt.bindings|); ps != [] && DirectEntry(rt, read) == Some(Finished(Many(ps)))
  {
    hide Finished, FromTaps, PathOf;
    assert BindingOk(rt, rt.bindings[b]);
    ResidualFromTaps(rt, read, |rt.bindings|, b);
    PathOfBound(rt.bindings, b);
    BoundRows(rt, rt.bindings[b], FromTaps(rt, read, |rt.bindings|));
  }

  /** The direct entry of a read is the finished list of what the taps contribute; a read the direct
      path misses gets no frame. */
  lemma {:induction false} EntryFromTaps(rt: Runtime, read: Read)
    requires RuntimeOk(rt) && (read.kind == RequestMeta <==> read.locator == MetaLocator)
    ensures var ps := FromTaps(rt, read, |rt.bindings|);
      (DirectEntry(rt, read).None? <==> ps == []) && (ps != [] ==> DirectEntry(rt, read) == Some(Finished(Many(ps))))
  {
    var n, k, ps := |rt.bindings|, |rt.requests|, FromTaps(rt, read, |rt.bindings|);
    match read.kind
    case Residual =>
      if b :| 0 <= b < n && rt.bindings[b].locator == read.locator {
        BoundEntry(rt, read, b);
      } else {
        ResidualFromTaps(rt, read, n, 0);
      }
    case RequestMeta =>
      MetaFromTaps(rt, read, n);
      assert ps == seq(k, r => MetaOf(rt, r));
      assert ps[0].Meta?;
    case Unsupported(_) =>
      MetaFromTaps(rt, read, n);
  }

  lemma {:induction false} BoundRows(rt: Runtime, b: Binding, ps: seq<Payload>)
    requires BindingOk(rt, b) && |ps| == |rt.requests| > 0 && forall r :: 0 <= r < |ps| ==> ps[r] == HiddenOf(rt, b, r)
    ensures Finished(Many(ps)) == Stacked(rt.buffers[b.path][..|rt.requests|])
  {
    assert forall i :: 0 <= i < |ps| ==> ps[i].Hidden? && ps[i].row == rt.buffers[b.path][i];
    assert Finished(Many(ps)).rows == rt.buffers[b.path][..|rt.requests|];
  }

  lemma {:induction false} DirectEntriesAre(rt: Runtime, flow: Flow, n: nat)
    requires n <= |flow.portReads| && DistinctNames(flow.portReads)
    ensures DirectEntries(rt, flow, n).Some? <==> forall i :: 0 <= i < n ==> DirectEntry(rt, flow.portReads[i]).Some?
    ensures DirectEntries(rt, flow, n).Some? ==> forall i: nat :: i < n ==>
      NameAt(flow.portReads, i) in DirectEntries(rt, flow, n).value
        && DirectEntries(rt, flow, n).value[NameAt(flow.portReads, i)] == DirectEntry(rt, flow.portReads[i]).value
    ensures DirectEntries(rt, flow, n).Some? ==> forall m :: m in DirectEntries(rt, flow, n).value ==>
      IsName(flow.portReads, m)
  {
    hide DirectEntry;
    if n > 0 {
      DirectEntriesAre(rt, flow, n - 1);
      assert IsName(flow.portReads, NameAt(flow.portReads, n - 1));
    }
  }

  /** The finished pending entries of the step's group are the direct entries. */
  lemma {:induction false} FinishedIsDirect(rt: Runtime, flow: Flow, entries: map<string, Entry>)
    requires FlowOk(flow) && RuntimeOk(rt) && Holds(flow.portReads, StepFrames(rt, |rt.bindings|), entries)
    requires forall i: nat :: i < |flow.portReads| ==> DirectEntry(rt, flow.portReads[i]).Some?
    ensures DirectEntries(rt, flow, |flow.portReads|) == Some(map n | n in entries :: Finished(entries[n]))
  {
    hide DirectEntry, Finished, RuntimeOk, Collect, DirectEntries, StepFrames, FromTaps;
    var portReads, fs := flow.portReads, StepFrames(rt, |rt.bindings|);
    DirectEntriesAre(rt, flow, |portReads|);
    var direct, built := DirectEntries(rt, flow, |portReads|).value, map n | n in entries :: Finished(entries[n]);
    forall i: nat | i < |portReads|
      ensures NameAt(portReads, i) in entries && Finished(entries[NameAt(portReads, i)]) == direct[NameAt(portReads, i)]
    {
      StepGoesTo(flow, rt, |rt.bindings|, i);
      EntryFromTaps(rt, portReads[i]);
      assert HoldsAt(portReads, Collect(portReads, fs, i), entries, i);
    }
    forall n ensures n in direct <==> n in built {
      if n in direct || n in built { assert IsName(portReads, n); }
    }
    forall n | n in direct ensures direct[n] == built[n] {
      assert IsName(portReads, n);
      var i: nat :| i < |portReads| && NameAt(portReads, i) == n;
    }
    assert direct == built;
  }

  /** With distinct reads and bindings, building the step bundle directly gives exactly what pushing
      every frame of every tap and flushing gives; it fails exactly when that gives nothing. */
  lemma {:induction false} DirectRefinesFrames(flow: Flow, rt: Runtime)
    requires FlowOk(flow) && StepScope(flow) && RuntimeOk(rt)
    ensures Assembled(flow, StepFrames(rt, |rt.bindings|)) ==
      if Direct(rt, flow).Ok? then [Direct(rt, flow).value] else []
  {
    hide DirectEntry, Finished, Collect, FirstKey, StepFrames, Match, Run, GroupOf, DirectEntries;
    var portReads, fs, g := flow.portReads, StepFrames(rt, |rt.bindings|), GroupOf(flow, KeyOf(rt, 0));
    FlowNames(flow);
    OneStepGroup(flow, rt, |rt.bindings|);
    Aggregate(flow, fs, g);
    RunFlushable(flow, fs);
    var p := Run(flow, fs).0;
    if FirstKey(portReads, fs).None? {
      DirectEntriesAre(rt, flow, |portReads|);
      StepRead(flow, rt, 0);
      assert Unread(portReads, fs, 0);
      assert Flushed(flow, p, p.order) == (p, []);
    } else {
      FlushedIsDirect(flow, rt, p);
    }
  }

  /** Flushing the group of a step's frames builds the direct bundle, or nothing. */
  lemma {:induction false} FlushedIsDirect(flow: Flow, rt: Runtime, p: Pending)
    requires FlowOk(flow) && StepScope(flow) && RuntimeOk(rt) && Flushable(p, p.order)
    requires var fs := StepFrames(rt, |rt.bindings|);
      FirstKey(flow.portReads, fs).Some? && Aggregated(flow.portReads, fs, GroupOf(flow, KeyOf(rt, 0)), p)
    ensures Flushed(flow, p, p.order).1 == if Direct(rt, flow).Ok? then [Direct(rt, flow).value] else []
  {
    hide DirectEntry, Finished, Collect, FirstKey, StepFrames, GroupOf, DirectEntries;
    var portReads, fs, g := flow.portReads, StepFrames(rt, |rt.bindings|), GroupOf(flow, KeyOf(rt, 0));
    FlowNames(flow);
    DirectEntriesAre(rt, flow, |portReads|);
    forall i: nat | i < |portReads|
      ensures DirectEntry(rt, portReads[i]).None? <==> Unread(portReads, fs, i)
      ensures Collect(portReads, fs, i) != [] ==> FirstKey(portReads, fs) == Some(KeyOf(rt, 0))
    {
      StepRead(flow, rt, i);
    }
    CompleteWhenAllRead(portReads, fs, p.entries[g]);
    FlushOne(flow, p, g);
    if forall i: nat :: i < |portReads| ==> DirectEntry(rt, portReads[i]).Some? {
      FinishedIsDirect(rt, flow, p.entries[g]);
      assert !Unread(portReads, fs, 0);
    }
  }

  lemma {:induction false} StepRead(flow: Flow, rt: Runtime, i: nat)
    requires FlowOk(flow) && StepScope(flow) && RuntimeOk(rt) && i < |flow.portReads|
    ensures var portReads, fs := flow.portReads, StepFrames(rt, |rt.bindings|);
      && (DirectEntry(rt, portReads[i]).None? <==> Unread(portReads, fs, i))
      && (Collect(portReads, fs, i) != [] ==> FirstKey(portReads, fs) == Some(KeyOf(rt, 0)))
  {
    hide DirectEntry, Finished, FirstKey, StepFrames, StepScope, RuntimeOk;
    StepGoesTo(flow, rt, |rt.bindings|, i);
    EntryFromTaps(rt, flow.portReads[i]);
  }

  lemma {:induction false} FlowNames(flow: Flow)
    requires FlowOk(flow)
    ensures DistinctNames(flow.portReads)
  {
  }

  lemma {:induction false} FlushOne(flow: Flow, p: Pending, g: Group)
    requires Flushable(p, p.order) && p.order == [g]
    ensures g in p.entries && g in p.keys
    ensures Flushed(flow, p, p.order).1 == if |p.entries[g]| < |flow.portReads| then []
      else [Built(p.keys[g], p.entries[g])]
  {
    FlushableNext(p, [g]);
    assert [g][1..] == [];
    assert Flushed(flow, Without(p, g), []) == (Without(p, g), []);
    assert Flushed(flow, p, []) == (p, []);
  }

  // ---- what the direct bundle holds -------------------------------------------------------------

  ghost predicate Bound(rt: Runtime, locator: Locator) {
    exists b :: 0 <= b < |rt.bindings| && rt.bindings[b].locator == locator
  }

  /** A read is delivered under its role, or, without one, under its kind's name. */
  ghost predicate Labels(read: Read, name: string) {
    if read.role != "" then name == read.role
    else if read.kind == Residual then name == "residual_stream"
    else read.kind == RequestMeta ==> name == "request_meta"
  }

  /** The metadata row of one active request. */
  ghost predicate IsMeta(rt: Runtime, r: int, p: Payload) {
    && 0 <= r < |rt.requests| && r < |rt.prompts| && r < |rt.samples| && p.Meta?
    && p.meta.request == rt.requests[r] && p.meta.prompt == rt.prompts[r] && p.meta.sample == rt.samples[r]
    && p.meta.phase == "decode" && p.meta.step == rt.step
  }

  /** The value of one read: the first active rows of the layer it is bound to, or all requests' metadata. */
  ghost predicate HoldsStep(rt: Runtime, read: Read, v: Value) {
    && (read.kind == RequestMeta ==>
          v.Listed? && |v.payloads| == |rt.requests|
          && forall r :: 0 <= r < |rt.requests| ==> IsMeta(rt, r, v.payloads[r]))
    && (read.kind == Residual ==>
          forall b :: 0 <= b < |rt.bindings| && rt.bindings[b].locator == read.locator ==>
            && rt.bindings[b].path in rt.buffers && |rt.requests| <= |rt.buffers[rt.bindings[b].path]|
            && v == Stacked(rt.buffers[rt.bindings[b].path][..|rt.requests|]))
  }

  lemma {:induction false} EntryMeaning(rt: Runtime, read: Read)
    requires RuntimeOk(rt) && (read.kind == RequestMeta <==> read.locator == MetaLocator)
    ensures DirectEntry(rt, read).Some? <==>
      read.kind == RequestMeta || (read.kind == Residual && Bound(rt, read.locator))
    ensures DirectEntry(rt, read).Some? ==> HoldsStep(rt, read, DirectEntry(rt, read).value)
  {
    hide PathOf;
    if read.kind == Residual {
      if b :| 0 <= b < |rt.bindings| && rt.bindings[b].locator == read.locator {
        assert BindingOk(rt, rt.bindings[b]);
        PathOfBound(rt.bindings, b);
      } else {
        NotBound(rt.bindings, read.locator);
      }
    }
  }

  lemma {:induction false} NotBound(bs: seq<Binding>, locator: Locator)
    requires forall b :: 0 <= b < |bs| ==> bs[b].locator != locator
    ensures PathOf(bs, locator) == None
  {
    if bs != [] { NotBound(bs[1..], locator); }
  }

  /** The direct bundle exists exactly when every read is metadata or a bound layer; it is keyed by the
      first active row and holds every read's value under the read's name. */
  lemma {:induction false} DirectExactly(flow: Flow, rt: Runtime)
    requires FlowOk(flow) && RuntimeOk(rt)
    ensures Direct(rt, flow).Ok? <==> forall i :: 0 <= i < |flow.portReads| ==>
      flow.portReads[i].kind == RequestMeta
      || (flow.portReads[i].kind == Residual && Bound(rt, flow.portReads[i].locator))
    ensures Direct(rt, flow).Ok? ==>
      var out := Direct(rt, flow).value;
      && out.key == Key(rt.step, "decode", rt.requests[0], rt.samples[0])
      && (forall n :: n in out.entries <==> IsName(flow.portReads, n))
      && forall i: nat :: i < |flow.portReads| ==>
           var name := NameAt(flow.portReads, i);
           Labels(flow.portReads[i], name) && name in out.entries
           && HoldsStep(rt, flow.portReads[i], out.entries[name])
  {
    hide DirectEntry, DirectEntries, HoldsStep, Bound;
    assert DistinctNames(flow.portReads);
    DirectEntriesAre(rt, flow, |flow.portReads|);
    forall i | 0 <= i < |flow.portReads|
      ensures DirectEntry(rt, flow.portReads[i]).Some? <==>
        flow.portReads[i].kind == RequestMeta
        || (flow.portReads[i].kind == Residual && Bound(rt, flow.portReads[i].locator))
      ensures DirectEntry(rt, flow.portReads[i]).Some? ==>
        HoldsStep(rt, flow.portReads[i], DirectEntry(rt, flow.portReads[i]).value)
    {
      EntryMeaning(rt, flow.portReads[i]);
    }
  }
}
