/** The frame assembler: frames are grouped by key, merged by read, and released as bundles. */
module BundleAssembler {
  import opened Common

  datatype Kind = Residual | RequestMeta | Unsupported(name: string)

  datatype Locator = Layer(layer: int, site: string, phase: string) | MetaLocator | NoLocator

  datatype Read = Read(kind: Kind, locator: Locator, role: string)

  datatype Key = Key(step: int, phase: string, request: string, sample: int)

  datatype Field = StepId | Phase | RequestId | SampleIdx

  datatype Part = Num(n: int) | Text(s: string)

  /** What frames are grouped by: the whole key, or the flow's chosen fields of it. */
  datatype Group = Whole(key: Key) | Projected(parts: seq<Part>)

  datatype MetaRow = MetaRow(request: string, prompt: int, sample: int, phase: string, step: int)

  datatype Payload = Hidden(row: Row) | Meta(meta: MetaRow)

  datatype Frame = Frame(key: Key, kind: Kind, locator: Locator, payload: Payload)

  /** A pending entry: the payload itself, or the list an aggregating flow appends to. */
  datatype Entry = One(payload: Payload) | Many(payloads: seq<Payload>)

  datatype Value = Single(payload: Payload) | Stacked(rows: seq<Row>) | Listed(payloads: seq<Payload>)

  datatype Bundle = Bundle(key: Key, entries: map<string, Value>)

  datatype Flow = Flow(portReads: seq<Read>, bundleKey: seq<Field>)

  function Name(read: Read): string {
    if read.role != "" then read.role
    else match read.kind case Residual => "residual_stream" case RequestMeta => "request_meta" case Unsupported(n) => n
  }

  predicate Matches(read: Read, f: Frame) { read.kind == f.kind && read.locator == f.locator }

  /** The first read that matches the frame. */
  function Match(portReads: seq<Read>, f: Frame): (m: Option<nat>)
    ensures m.Some? ==> m.value < |portReads| && Matches(portReads[m.value], f) && forall i :: 0 <= i < m.value ==>
      !Matches(portReads[i], f)
    ensures m.None? ==> forall i :: 0 <= i < |portReads| ==> !Matches(portReads[i], f)
  {
    if portReads == [] then None
    else
      var before := Match(portReads[..|portReads| - 1], f);
      if before.Some? then before else if Matches(portReads[|portReads| - 1], f) then Some(|portReads| - 1) else None
  }

  function FieldOf(key: Key, field: Field): Part {
    match field
    case StepId => Num(key.step)
    case Phase => Text(key.phase)
    case RequestId => Text(key.request)
    case SampleIdx => Num(key.sample)
  }

  function GroupOf(flow: Flow, key: Key): Group {
    if flow.bundleKey == [] then Whole(key)
    else Projected(seq(|flow.bundleKey|, i requires 0 <= i < |flow.bundleKey| => FieldOf(key, flow.bundleKey[i])))
  }

  ghost predicate Agree(a: Key, b: Key, field: Field) {
    match field
    case StepId => a.step == b.step
    case Phase => a.phase == b.phase
    case RequestId => a.request == b.request
    case SampleIdx => a.sample == b.sample
  }

  /** Frames belong together exactly when their keys agree on the flow's fields, or, without any, are equal. */
  lemma {:induction false} GroupsExactly(flow: Flow, a: Key, b: Key)
    ensures GroupOf(flow, a) == GroupOf(flow, b) <==>
      if flow.bundleKey == [] then a == b
      else forall i :: 0 <= i < |flow.bundleKey| ==> Agree(a, b, flow.bundleKey[i])
  {
    if flow.bundleKey != [] {
      var p, q := GroupOf(flow, a).parts, GroupOf(flow, b).parts;
      forall i | 0 <= i < |p| ensures p[i] == q[i] <==> Agree(a, b, flow.bundleKey[i]) {}
      if forall i :: 0 <= i < |flow.bundleKey| ==> Agree(a, b, flow.bundleKey[i]) {
        assert p == q;
      } else {
        var i :| 0 <= i < |flow.bundleKey| && !Agree(a, b, flow.bundleKey[i]);
        assert p[i] != q[i];
      }
    }
  }

  predicate Aggregates(flow: Flow) { flow.bundleKey != [] }

  function Merged(flow: Flow, existing: Option<Entry>, payload: Payload): Entry {
    if !Aggregates(flow) then One(payload)
    else if existing.Some? && existing.value.Many? then Many(existing.value.payloads + [payload])
    else Many([payload])
  }

  function Finished(e: Entry): Value {
    match e
    case One(p) => Single(p)
    case Many(ps) =>
      if ps != [] && forall i :: 0 <= i < |ps| ==> ps[i].Hidden?
      then Stacked(seq(|ps|, i requires 0 <= i < |ps| => ps[i].row)) else Listed(ps)
  }

  /** _build_bundle; writing the projected fields back into the key changes nothing. */
  function Built(key: Key, entries: map<string, Entry>): Bundle {
    Bundle(key, map n | n in entries :: Finished(entries[n]))
  }

  // ---- the two dictionaries ------------------------------------------------------------

  /** Pending groups in insertion order, with their entries and the key of their first frame. */
  datatype Pending = Pending(order: seq<Group>, entries: map<Group, map<string, Entry>>, keys: map<Group, Key>)

  const EMPTY := Pending([], map[], map[])

  ghost predicate Distinct<T>(s: seq<T>) { forall a, b :: 0 <= a < b < |s| ==> s[a] != s[b] }

  ghost predicate Valid(p: Pending) {
    (forall g :: g in p.order <==> g in p.entries) && p.keys.Keys == p.entries.Keys && Distinct(p.order)
  }

  function Without(p: Pending, g: Group): Pending {
    Pending(Removed(p.order, g), p.entries - {g}, p.keys - {g})
  }

  function Removed(order: seq<Group>, g: Group): (out: seq<Group>)
    ensures forall h :: h in out <==> h in order && h != g
  {
    if order == [] then []
    else
      var init, last := order[..|order| - 1], order[|order| - 1];
      assert order == init + [last];
      if last == g then Removed(init, g) else Removed(init, g) + [last]
  }

  lemma {:induction false} RemovedDistinct(order: seq<Group>, g: Group)
    requires Distinct(order)
    ensures Distinct(Removed(order, g))
  {
    if order != [] {
      var init, last := order[..|order| - 1], order[|order| - 1];
      RemovedDistinct(init, g);
      forall a | 0 <= a < |Removed(init, g)| ensures Removed(init, g)[a] != last { assert Removed(init, g)[a] in init; }
    }
  }

  lemma {:induction false} WithoutValid(p: Pending, g: Group)
    requires Valid(p)
    ensures Valid(Without(p, g))
  {
    RemovedDistinct(p.order, g);
  }

  /** The dictionaries after the frame's entry is merged, before anything is released. */
  function Stored(p: Pending, g: Group, key: Key, entries: map<string, Entry>): Pending {
    Pending(if g in p.entries then p.order else p.order + [g],
      p.entries[g := entries],
      if g in p.keys then p.keys else p.keys[g := key])
  }

  lemma {:induction false} StoredValid(p: Pending, g: Group, key: Key, entries: map<string, Entry>)
    requires Valid(p)
    ensures Valid(Stored(p, g, key, entries))
  {
  }

  function EntriesOf(p: Pending, g: Group): map<string, Entry> { if g in p.entries then p.entries[g] else map[] }

  function WithPayload(flow: Flow, entries: map<string, Entry>, name: string, payload: Payload): map<string, Entry> {
    entries[name := Merged(flow, if name in entries then Some(entries[name]) else None, payload)]
  }

  function Pushed(flow: Flow, p: Pending, f: Frame): (Pending, seq<Bundle>)
    requires Valid(p)
  {
    var m := Match(flow.portReads, f);
    if m.None? then (p, [])
    else
      var g := GroupOf(flow, f.key);
      var entries := WithPayload(flow, EntriesOf(p, g), Name(flow.portReads[m.value]), f.payload);
      var q := Stored(p, g, f.key, entries);
      if |entries| < |flow.portReads| || Aggregates(flow) then (q, [])
      else (Without(q, g), [Built(q.keys[g], entries)])
  }

  lemma {:induction false} PushedValid(flow: Flow, p: Pending, f: Frame)
    requires Valid(p)
    ensures Valid(Pushed(flow, p, f).0)
  {
    hide Valid, Stored, Without, WithPayload, GroupOf;
    var m := Match(flow.portReads, f);
    if m.Some? {
      var g := GroupOf(flow, f.key);
      var entries := WithPayload(flow, EntriesOf(p, g), Name(flow.portReads[m.value]), f.payload);
      StoredValid(p, g, f.key, entries);
      WithoutValid(Stored(p, g, f.key, entries), g);
    }
  }

  ghost predicate Flushable(p: Pending, groups: seq<Group>)
  {
    Valid(p) && Distinct(groups) && forall g :: g in groups ==> g in p.entries
  }

  lemma {:induction false} FlushableNext(p: Pending, groups: seq<Group>)
    requires Flushable(p, groups) && groups != []
    ensures Flushable(p, groups[1..]) && Flushable(Without(p, groups[0]), groups[1..])
  {
    WithoutValid(p, groups[0]);
    forall g | g in groups[1..] ensures g in Without(p, groups[0]).entries {
      var k :| 0 <= k < |groups[1..]| && groups[1..][k] == g;
      assert groups[k + 1] == g && g in p.entries;
    }
  }

  /** finalize_pending: complete groups leave in insertion order, the others stay. */
  function Flushed(flow: Flow, p: Pending, groups: seq<Group>): (r: (Pending, seq<Bundle>))
    requires Flushable(p, groups)
    decreases |groups|
  {
    if groups == [] then (p, [])
    else
      FlushableNext(p, groups);
      var g := groups[0];
      if |p.entries[g]| < |flow.portReads| then Flushed(flow, p, groups[1..])
      else
        var rest := Flushed(flow, Without(p, g), groups[1..]);
        (rest.0, [Built(p.keys[g], p.entries[g])] + rest.1)
  }

  /** All frames of a step, one after the other. */
  function Run(flow: Flow, fs: seq<Frame>): (r: (Pending, seq<Bundle>))
    ensures Valid(r.0)
  {
    if fs == [] then (EMPTY, [])
    else
      var before := Run(flow, fs[..|fs| - 1]);
      var last := Pushed(flow, before.0, fs[|fs| - 1]);
      PushedValid(flow, before.0, fs[|fs| - 1]);
      (last.0, before.1 + last.1)
  }

  /** Without aggregation, no pending group is ever complete: completion releases it at once. */
  lemma {:induction false} NothingCompletePends(flow: Flow, fs: seq<Frame>)
    requires !Aggregates(flow) && flow.portReads != []
    ensures forall g :: g in Run(flow, fs).0.entries ==> |Run(flow, fs).0.entries[g]| < |flow.portReads|
  {
    if fs != [] { NothingCompletePends(flow, fs[..|fs| - 1]); }
  }

  // ---- the class -------------------------------------------------------------------------

  class Assembler {
    const flow: Flow
    var order: seq<Group>
    var entries: map<Group, map<string, Entry>>
    var keys: map<Group, Key>

    function State(): Pending
      reads this
    {
      Pending(order, entries, keys)
    }

    constructor (flow: Flow)
      ensures this.flow == flow && State() == EMPTY
    {
      this.flow, order, entries, keys := flow, [], map[], map[];
    }

    method FindRead(f: Frame) returns (m: Option<nat>)
      ensures m == Match(flow.portReads, f)
    {
      for i := 0 to |flow.portReads|
        invariant forall k :: 0 <= k < i ==> !Matches(flow.portReads[k], f)
      {
        if Matches(flow.portReads[i], f) { return Some(i); }
      }
      m := None;
    }

    method Push(f: Frame) returns (out: seq<Bundle>)
      requires Valid(State())
      modifies this
      ensures Valid(State()) && State() == Pushed(flow, old(State()), f).0 && out == Pushed(flow, old(State()), f).1
    {
      hide Merged, GroupOf, Name, Built, Match, Removed, Distinct;
      PushedValid(flow, State(), f);
      ghost var was := State();
      var m := FindRead(f);
      if m.None? { return []; }
      var g := GroupOf(flow, f.key);
      var mine := WithPayload(flow, EntriesOf(State(), g), Name(flow.portReads[m.value]), f.payload);
      if g !in entries { order := order + [g]; }
      if g !in keys { keys := keys[g := f.key]; }
      entries := entries[g := mine];
      assert State() == Stored(was, g, f.key, mine);
      if |mine| < |flow.portReads| || Aggregates(flow) { return []; }
      out := [Built(keys[g], mine)];
      Release(g);
    }

    /** _pending.pop and _pending_keys.pop */
    method Release(g: Group)
      modifies this
      ensures State() == Without(old(State()), g)
    {
      order, entries, keys := Removed(order, g), entries - {g}, keys - {g};
    }

    method FinalizePending() returns (out: seq<Bundle>)
      requires Valid(State())
      modifies this
      ensures State() == Flushed(flow, old(State()), old(order)).0 && out == Flushed(flow, old(State()), old(order)).1
    {
      var left := order;
      ghost var was, groups := State(), order;
      out := [];
      while left != []
        invariant Flushable(was, groups) && Flushable(State(), left)
        invariant Flushed(flow, was, groups).0 == Flushed(flow, State(), left).0
        invariant Flushed(flow, was, groups).1 == out + Flushed(flow, State(), left).1
        decreases |left|
      {
        hide Built, Removed, Distinct, Valid, Flushable, Flushed, Without;
        var g := left[0];
        FlushedHead(flow, State(), left, out);
        if |entries[g]| >= |flow.portReads| {
          out := out + [Built(keys[g], entries[g])];
          Release(g);
        }
        left := left[1..];
      }
    }
  }

  /** One turn of the flush, with what was released before it. */
  lemma {:induction false} FlushedHead(flow: Flow, p: Pending, groups: seq<Group>, out: seq<Bundle>)
    requires Flushable(p, groups) && groups != []
    ensures groups[0] in p.entries && groups[0] in p.keys && Flushable(p, groups[1..])
    ensures Flushable(Without(p, groups[0]), groups[1..])
    ensures Flushed(flow, p, groups).0 ==
      if |p.entries[groups[0]]| < |flow.portReads| then Flushed(flow, p, groups[1..]).0
      else Flushed(flow, Without(p, groups[0]), groups[1..]).0
    ensures out + Flushed(flow, p, groups).1 ==
      if |p.entries[groups[0]]| < |flow.portReads| then out + Flushed(flow, p, groups[1..]).1
      else
        (out + [Built(p.keys[groups[0]], p.entries[groups[0]])])
          + Flushed(flow, Without(p, groups[0]), groups[1..]).1
  {
    hide Built, Without;
    FlushableNext(p, groups);
    FlushableHead(p, groups);
  }

  lemma {:induction false} FlushableHead(p: Pending, groups: seq<Group>)
    requires Flushable(p, groups) && groups != []
    ensures groups[0] in p.entries && groups[0] in p.keys
  {
  }
}
