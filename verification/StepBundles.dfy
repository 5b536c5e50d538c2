/** Step-scope bundles built directly from the capture buffers, and the frames and assembler they stand
    in for. */
module StepBundles {
  import opened BundleAssembler
  import opened Common

  // ---- bindings -----------------------------------------------------------------------

  datatype Binding = Binding(locator: Locator, path: string, includeMeta: bool)

  /** bindings[path] = binding: a dictionary keeps an overwritten entry's place. */
  function WithBinding(bs: seq<Binding>, b: Binding): (out: seq<Binding>) {
    if bs == [] then [b]
    else if bs[0].path == b.path then [b] + bs[1..]
    else [bs[0]] + WithBinding(bs[1..], b)
  }

  /** build_resolved_bindings for the first n locators and their resolved paths */
  function Resolved(locators: seq<Locator>, paths: seq<string>, n: nat): seq<Binding>
    requires n <= |locators| == |paths|
  {
    if n == 0 then [] else WithBinding(Resolved(locators, paths, n - 1), Binding(locators[n - 1], paths[n - 1], n == 1))
  }

  /** resolved_path_for_locator */
  function PathOf(bs: seq<Binding>, locator: Locator): (p: Option<string>)
    ensures p.Some? ==> exists i :: 0 <= i < |bs| && bs[i].locator == locator && bs[i].path == p.value
    ensures p.None? <==> forall i :: 0 <= i < |bs| ==> bs[i].locator != locator
  {
    if bs == [] then None else if bs[0].locator == locator then Some(bs[0].path) else PathOf(bs[1..], locator)
  }

  ghost predicate OnePerPath(bs: seq<Binding>) { forall i, j :: 0 <= i < j < |bs| ==> bs[i].path != bs[j].path }

  lemma {:induction false} WithBindingMembers(bs: seq<Binding>, b: Binding)
    requires OnePerPath(bs)
    ensures OnePerPath(WithBinding(bs, b))
    ensures forall c :: c in WithBinding(bs, b) <==> c == b || (c in bs && c.path != b.path)
  {
    if bs != [] {
      var rest := bs[1..];
      assert forall c :: c in bs <==> c == bs[0] || c in rest;
      if bs[0].path == b.path {
        forall c | c in rest
          ensures c.path != b.path
        {
          var k :| 0 <= k < |rest| && rest[k] == c; assert bs[k + 1] == c;
        }
        assert WithBinding(bs, b) == [b] + rest;
      } else {
        WithBindingMembers(rest, b);
        var out := WithBinding(rest, b);
        assert WithBinding(bs, b) == [bs[0]] + out;
        forall k | 0 <= k < |out| ensures out[k].path != bs[0].path {
          assert out[k] in out;
          if out[k] != b { var j :| 0 <= j < |rest| && rest[j] == out[k]; assert bs[j + 1] == out[k]; }
        }
      }
    }
  }

  /** c binds locator k, the last of the first n that resolves to its path. */
  ghost predicate LastFor(locators: seq<Locator>, paths: seq<string>, n: nat, c: Binding, k: nat)
    requires n <= |locators| == |paths|
  {
    k < n && c.locator == locators[k] && c.path == paths[k] && forall m :: k < m < n ==> paths[m] != paths[k]
  }

  lemma {:induction false} LastForNew(locators: seq<Locator>, paths: seq<string>, n: nat, c: Binding)
    requires n < |locators| == |paths| && c.locator == locators[n] && c.path == paths[n]
    ensures LastFor(locators, paths, n + 1, c, n)
  {
  }

  lemma {:induction false} LastForKept(locators: seq<Locator>, paths: seq<string>, n: nat, c: Binding, k: nat)
    requires n < |locators| == |paths| && LastFor(locators, paths, n, c, k) && c.path != paths[n]
    ensures LastFor(locators, paths, n + 1, c, k)
  {
  }

  /** A path's binding belongs to the last locator resolved to it. */
  lemma {:induction false} LastWins(locators: seq<Locator>, paths: seq<string>, n: nat)
    requires n <= |locators| == |paths|
    ensures OnePerPath(Resolved(locators, paths, n))
    ensures forall c :: c in Resolved(locators, paths, n) ==> exists k: nat :: LastFor(locators, paths, n, c, k)
  {
    hide WithBinding, OnePerPath, LastFor;
    if n == 0 {
      NothingBound();
    } else {
      LastWins(locators, paths, n - 1);
      var before, b := Resolved(locators, paths, n - 1), Binding(locators[n - 1], paths[n - 1], n == 1);
      WithBindingMembers(before, b);
      forall c | c in Resolved(locators, paths, n) ensures exists k: nat :: LastFor(locators, paths, n, c, k) {
        if c == b {
          LastForNew(locators, paths, n - 1, c);
        } else {
          var k: nat :| LastFor(locators, paths, n - 1, c, k);
          LastForKept(locators, paths, n - 1, c, k);
        }
      }
    }
  }

  lemma {:induction false} NothingBound()
    ensures OnePerPath([])
  {
  }

  /** Every locator ends up bound exactly when no two resolve to the same path. */
  lemma {:induction false} AllBoundExactly(locators: seq<Locator>, paths: seq<string>)
    requires |locators| == |paths| && Distinct(locators)
    ensures (forall i :: 0 <= i < |locators| ==> PathOf(Resolved(locators, paths, |paths|), locators[i]).Some?) <==>
      Distinct(paths)
  {
    var n, bs := |paths|, Resolved(locators, paths, |paths|);
    LastWins(locators, paths, n);
    if Distinct(paths) {
      DistinctPathsBindAll(locators, paths, n);
      forall i | 0 <= i < n ensures PathOf(bs, locators[i]).Some? { assert bs[i].locator == locators[i]; }
    } else {
      var i, j :| 0 <= i < j < n && paths[i] == paths[j];
      forall c | 0 <= c < |bs| ensures bs[c].locator != locators[i] {
        assert bs[c] in bs;
        var k: nat :| LastFor(locators, paths, n, bs[c], k);
        assert k != i;
        DistinctAt(locators, k, i);
      }
    }
  }

  lemma {:induction false} DistinctAt<T>(s: seq<T>, i: nat, j: nat)
    requires Distinct(s) && i < |s| && j < |s| && i != j
    ensures s[i] != s[j]
  {
  }

  lemma {:induction false} Appended(bs: seq<Binding>, b: Binding)
    requires forall i :: 0 <= i < |bs| ==> bs[i].path != b.path
    ensures WithBinding(bs, b) == bs + [b]
  {
    if bs != [] { Appended(bs[1..], b); }
  }

  /** With distinct paths every locator keeps its own binding, and only the first carries metadata. */
  lemma {:induction false} DistinctPathsBindAll(locators: seq<Locator>, paths: seq<string>, n: nat)
    requires n <= |locators| == |paths| && Distinct(paths)
    ensures Resolved(locators, paths, n) == seq(n, i requires 0 <= i < n => Binding(locators[i], paths[i], i == 0))
  {
    if n > 0 {
      DistinctPathsBindAll(locators, paths, n - 1);
      Appended(Resolved(locators, paths, n - 1), Binding(locators[n - 1], paths[n - 1], n == 1));
    }
  }

  // ---- runtime and frames ---------------------------------------------------------------------

  /** The step record the dispatcher reads: active rows, bindings in order, and capture buffers. */
  datatype Runtime = Runtime(step: int, requests: seq<string>, prompts: seq<int>, samples: seq<int>,
    bindings: seq<Binding>, buffers: map<string, seq<Row>>)

  ghost predicate RuntimeOk(rt: Runtime) {
    && 0 < |rt.requests| == |rt.prompts| == |rt.samples| && rt.bindings != []
    && (forall b :: 0 <= b < |rt.bindings| ==>
      BindingOk(rt, rt.bindings[b]) && (rt.bindings[b].includeMeta <==> b == 0))
    && (forall a, b :: 0 <= a < b < |rt.bindings| ==>
      rt.bindings[a].locator != rt.bindings[b].locator && rt.bindings[a].path != rt.bindings[b].path)
  }

  ghost predicate BindingOk(rt: Runtime, b: Binding) {
    b.locator.Layer? && b.path in rt.buffers && |rt.requests| <= |rt.buffers[b.path]|
  }

  function KeyOf(rt: Runtime, r: int): Key {
    if 0 <= r < |rt.requests| && r < |rt.samples| then Key(rt.step, "decode", rt.requests[r], rt.samples[r])
    else Key(rt.step, "decode", "", 0)
  }

  function MetaOf(rt: Runtime, r: int): Payload {
    if 0 <= r < |rt.requests| && r < |rt.samples| && r < |rt.prompts|
    then Meta(MetaRow(rt.requests[r], rt.prompts[r], rt.samples[r], "decode", rt.step))
    else Meta(MetaRow("", 0, 0, "decode", rt.step))
  }

  function HiddenOf(rt: Runtime, b: Binding, r: int): Payload {
    if b.path in rt.buffers && 0 <= r < |rt.buffers[b.path]| then Hidden(rt.buffers[b.path][r]) else Hidden([])
  }

  function ResidualFrame(rt: Runtime, b: Binding, r: int): Frame
  {
    Frame(KeyOf(rt, r), Residual, b.locator, HiddenOf(rt, b, r))
  }

  function MetaFrame(rt: Runtime, r: int): Frame { Frame(KeyOf(rt, r), RequestMeta, MetaLocator, MetaOf(rt, r)) }

  /** The frames of row r of one tap. */
  function RowFrames(rt: Runtime, b: Binding, r: int): seq<Frame> {
    [ResidualFrame(rt, b, r)] + if b.includeMeta then [MetaFrame(rt, r)] else []
  }

  /** build_decode_port_frames for the first n rows of one tap */
  function TapFrames(rt: Runtime, b: Binding, n: nat): seq<Frame> {
    if n == 0 then [] else TapFrames(rt, b, n - 1) + RowFrames(rt, b, n - 1)
  }

  /** The frames of the first m taps. */
  function StepFrames(rt: Runtime, m: nat): seq<Frame>
    requires m <= |rt.bindings|
  {
    if m == 0 then [] else StepFrames(rt, m - 1) + TapFrames(rt, rt.bindings[m - 1], |rt.requests|)
  }

  method BuildDecodePortFrames(rt: Runtime, b: Binding) returns (frames: seq<Frame>)
    requires RuntimeOk(rt) && BindingOk(rt, b)
    ensures frames == TapFrames(rt, b, |rt.requests|)
  {
    frames := [];
    for r := 0 to |rt.requests|
      invariant frames == TapFrames(rt, b, r)
    {
      frames := frames + [ResidualFrame(rt, b, r)];
      if b.includeMeta { frames := frames + [MetaFrame(rt, r)]; }
    }
  }

  /** What a consumer gets from a step's frames: bundles as they complete, then the flushed ones. */
  function Assembled(flow: Flow, frames: seq<Frame>): seq<Bundle> {
    var run := Run(flow, frames);
    RunFlushable(flow, frames);
    run.1 + Flushed(flow, run.0, run.0.order).1
  }

  lemma {:induction false} RunFlushable(flow: Flow, frames: seq<Frame>)
    ensures Flushable(Run(flow, frames).0, Run(flow, frames).0.order)
  {
  }

  lemma {:induction false} RunNext(flow: Flow, frames: seq<Frame>, k: nat)
    requires k < |frames|
    ensures var before := Run(flow, frames[..k]); var last := Pushed(flow, before.0, frames[k]);
      Run(flow, frames[..k + 1]) == (last.0, before.1 + last.1)
  {
    hide Pushed;
    assert frames[..k + 1][..k] == frames[..k];
  }

  method CollectFrames(rt: Runtime) returns (frames: seq<Frame>)
    requires RuntimeOk(rt)
    ensures frames == StepFrames(rt, |rt.bindings|)
  {
    frames := [];
    for m := 0 to |rt.bindings|
      invariant frames == StepFrames(rt, m)
    {
      var more := BuildDecodePortFrames(rt, rt.bindings[m]);
      frames := frames + more;
    }
  }

  method PushAll(assembler: Assembler, frames: seq<Frame>) returns (bundles: seq<Bundle>)
    requires assembler.State() == EMPTY
    modifies assembler
    ensures assembler.State() == Run(assembler.flow, frames).0 && bundles == Run(assembler.flow, frames).1
  {
    hide Pushed, Valid;
    bundles := [];
    assert frames[..0] == [];
    for k := 0 to |frames|
      invariant assembler.State() == Run(assembler.flow, frames[..k]).0 && bundles == Run(assembler.flow, frames[..k]).1
    {
      hide Run;
      RunNext(assembler.flow, frames, k);
      var out := assembler.Push(frames[k]);
      bundles := bundles + out;
    }
    assert frames[..|frames|] == frames;
  }

  /** The frame path of dispatch_decode_port_bundles for one flow. */
  method DispatchFrames(flow: Flow, rt: Runtime) returns (bundles: seq<Bundle>)
    requires RuntimeOk(rt)
    ensures bundles == Assembled(flow, StepFrames(rt, |rt.bindings|))
  {
    hide Run, StepFrames, Flushed;
    var frames := CollectFrames(rt);
    var assembler := new Assembler(flow);
    bundles := PushAll(assembler, frames);
    var out := assembler.FinalizePending();
    bundles := bundles + out;
  }

  // ---- the direct bundle ----------------------------------------------------------------------

  /** _entry_for_flow_read of an uncompacted flow */
  function DirectEntry(rt: Runtime, read: Read): Option<Value> {
    match read.kind
    case RequestMeta => Some(Listed(seq(|rt.requests|, r => MetaOf(rt, r))))
    case Residual =>
      if !read.locator.Layer? || PathOf(rt.bindings, read.locator).None?
        || PathOf(rt.bindings, read.locator).value !in rt.buffers
      then None
      else
        var rows := rt.buffers[PathOf(rt.bindings, read.locator).value];
        Some(Stacked(rows[..Min(|rt.requests|, |rows|)]))
    case Unsupported(_) => None
  }

  /** entries of the first n reads; None is the missing-entry error. */
  function DirectEntries(rt: Runtime, flow: Flow, n: nat): Option<map<string, Value>>
    requires n <= |flow.portReads|
  {
    if n == 0 then Some(map[])
    else
      var before, entry := DirectEntries(rt, flow, n - 1), DirectEntry(rt, flow.portReads[n - 1]);
      if before.None? || entry.None? then None else Some(before.value[Name(flow.portReads[n - 1]) := entry.value])
  }

  /** build_step_scope_port_bundle, bundle delivery without compaction or row cap */
  function Direct(rt: Runtime, flow: Flow): Result<Bundle, string> {
    var entries := DirectEntries(rt, flow, |flow.portReads|);
    if entries.None? then Err("active flow bundle missing required entry") else Ok(Bundle(KeyOf(rt, 0), entries.value))
  }

  method BuildStepScopePortBundle(rt: Runtime, flow: Flow) returns (r: Result<Bundle, string>)
    requires RuntimeOk(rt)
    ensures r == Direct(rt, flow)
  {
    var entries: map<string, Value> := map[];
    for i := 0 to |flow.portReads|
      invariant DirectEntries(rt, flow, i) == Some(entries)
    {
      var entry := DirectEntry(rt, flow.portReads[i]);
      if entry.None? {
        MissingStays(rt, flow, i + 1, |flow.portReads|);
        return Err("active flow bundle missing required entry");
      }
      entries := entries[Name(flow.portReads[i]) := entry.value];
    }
    r := Ok(Bundle(KeyOf(rt, 0), entries));
  }

  lemma {:induction false} MissingStays(rt: Runtime, flow: Flow, n: nat, m: nat)
    requires n <= m <= |flow.portReads| && DirectEntries(rt, flow, n).None?
    ensures DirectEntries(rt, flow, m).None?
    decreases m
  {
    if n < m { MissingStays(rt, flow, n, m - 1); }
  }
}
