/** Chunked prefill: row localization in packed steps, and what a whole run captures. */
module Prefill {
  import opened Common

  /** One request of a step: who it is, whether the batch index knows it, how far it is computed, and
      how many tokens the scheduler gave it. */
  datatype Item = Item(id: nat, known: bool, computed: nat, scheduled: int)

  /** The fixed facts of a run: prompt length and prompt index of a request, and the layer's hidden row
      of each of its tokens. */
  datatype World = World(promptLen: nat -> int, promptOf: nat -> int, hidden: (nat, int) -> Row)

  // ---- one step ----------------------------------------------------------------------------

  function Span(x: Item): nat { if x.scheduled > 0 then x.scheduled else 0 }

  /** Prompt tokens among the scheduled ones. */
  function PrefillLen(w: World, x: Item): nat {
    if x.scheduled <= 0 || !x.known then 0 else Max(0, Min(x.scheduled, w.promptLen(x.id) - x.computed))
  }

  /** Hidden rows of n tokens of a request from token `from` on. */
  function Tokens(w: World, id: nat, from: nat, n: nat): (rows: seq<Row>)
    ensures |rows| == n
  {
    seq(n, t requires 0 <= t < n => w.hidden(id, from + t))
  }

  /** The packed layer output of the first n requests: contiguous per request, in order. */
  function Packed(w: World, items: seq<Item>, n: nat): seq<Row>
    requires n <= |items|
  {
    if n == 0 then [] else Packed(w, items, n - 1) + Tokens(w, items[n - 1].id, items[n - 1].computed,
      Span(items[n - 1]))
  }

  /** One localized prefill row. */
  datatype Slot = Slot(row: nat, prompt: int, token: nat)

  function ItemSlots(w: World, x: Item, base: nat, n: nat): seq<Slot> {
    seq(n, t requires 0 <= t < n => Slot(base + t, w.promptOf(x.id), x.computed + t))
  }

  function Plan(w: World, items: seq<Item>, n: nat): seq<Slot>
    requires n <= |items|
  {
    if n == 0 then []
    else Plan(w, items, n - 1) + ItemSlots(w, items[n - 1], |Packed(w, items, n - 1)|, PrefillLen(w, items[n - 1]))
  }

  /** Whatever a request contributes to the plan, its rows count in the packed output. */
  lemma {:induction false} PlanNext(w: World, items: seq<Item>, n: nat)
    requires n < |items|
    ensures var x, base := items[n], |Packed(w, items, n)|;
      && |Packed(w, items, n + 1)| == base + Span(x)
      && Plan(w, items, n + 1) == Plan(w, items, n) + ItemSlots(w, x, base, PrefillLen(w, x))
      && (x.scheduled <= 0 || !x.known ==> Plan(w, items, n + 1) == Plan(w, items, n))
  {
    var x := items[n];
    if x.scheduled <= 0 || !x.known {
      var none := ItemSlots(w, x, |Packed(w, items, n)|, 0);
      assert none == [] && Plan(w, items, n) + none == Plan(w, items, n);
    }
  }

  /** Captured rows per prompt. */
  type Captures = map<int, seq<Row>>

  function Appended(cap: Captures, prompt: int, rows: seq<Row>): Captures {
    if prompt < 0 || rows == [] then cap else cap[prompt := (if prompt in cap then cap[prompt] else []) + rows]
  }

  /** What a step adds: every request's prompt tokens, in order, to its own prompt. */
  function StepCapture(w: World, cap: Captures, items: seq<Item>, n: nat): Captures
    requires n <= |items|
  {
    if n == 0 then cap
    else Appended(StepCapture(w, cap, items, n - 1), w.promptOf(items[n - 1].id),
      Tokens(w, items[n - 1].id, items[n - 1].computed, PrefillLen(w, items[n - 1])))
  }

  /** A captured row on its way to its prompt's list. */
  datatype Tagged = Tagged(prompt: int, row: Row)

  /** Exporting rows one by one. */
  function Exported(cap: Captures, rows: seq<Tagged>): Captures {
    if rows == [] then cap
    else Appended(Exported(cap, rows[..|rows| - 1]), rows[|rows| - 1].prompt, [rows[|rows| - 1].row])
  }

  lemma {:induction false} ExportedConcat(cap: Captures, a: seq<Tagged>, b: seq<Tagged>)
    ensures Exported(cap, a + b) == Exported(Exported(cap, a), b)
  {
    if b == [] {
      assert a + b == a;
    } else {
      ExportedConcat(cap, a, b[..|b| - 1]);
      assert (a + b)[..|a + b| - 1] == a + b[..|b| - 1];
    }
  }

  function TaggedRows(prompt: int, rows: seq<Row>): (out: seq<Tagged>)
    ensures |out| == |rows|
  {
    seq(|rows|, k requires 0 <= k < |rows| => Tagged(prompt, rows[k]))
  }

  /** Rows of one prompt land in its list in their order. */
  lemma {:induction false} ExportedRun(cap: Captures, prompt: int, rows: seq<Row>)
    ensures Exported(cap, TaggedRows(prompt, rows)) == Appended(cap, prompt, rows)
  {
    if rows != [] {
      var n := |rows| - 1;
      ExportedRun(cap, prompt, rows[..n]);
      assert TaggedRows(prompt, rows)[..n] == TaggedRows(prompt, rows[..n]);
      var had := if prompt in cap then cap[prompt] else [];
      assert rows == rows[..n] + [rows[n]];
      assert (had + rows[..n]) + [rows[n]] == had + rows;
      if n == 0 { assert had + [] == had; }
    }
  }

  lemma {:induction false} PackedGrows(w: World, items: seq<Item>, n: nat, m: nat)
    requires n <= m <= |items|
    ensures |Packed(w, items, n)| <= |Packed(w, items, m)|
    ensures Packed(w, items, m)[..|Packed(w, items, n)|] == Packed(w, items, n)
    decreases m
  {
    if n < m { PackedGrows(w, items, n, m - 1); }
  }

  /** Row base + t of a request is its token computed + t. */
  lemma {:induction false} PackedAt(w: World, items: seq<Item>, n: nat, t: nat)
    requires n < |items| && t < Span(items[n])
    ensures |Packed(w, items, n)| + t < |Packed(w, items, |items|)|
    ensures Packed(w, items, |items|)[|Packed(w, items, n)| + t] == w.hidden(items[n].id, items[n].computed + t)
  {
    PackedGrows(w, items, n + 1, |items|);
    var all, next := Packed(w, items, |items|), Packed(w, items, n + 1);
    assert all[..|next|][|Packed(w, items, n)| + t] == next[|Packed(w, items, n)| + t];
  }

  ghost predicate Holds(w: World, items: seq<Item>, layer: seq<Row>) {
    Packed(w, items, |items|) <= layer
  }

  predicate InLayer(slots: seq<Slot>, layer: seq<Row>) { forall k :: 0 <= k < |slots| ==> slots[k].row < |layer| }

  function Selected(slots: seq<Slot>, layer: seq<Row>): (out: seq<Tagged>)
    requires InLayer(slots, layer)
    ensures |out| == |slots|
  {
    seq(|slots|, k requires 0 <= k < |slots| => Tagged(slots[k].prompt, layer[slots[k].row]))
  }

  function SelectedRows(slots: seq<Slot>, layer: seq<Row>): (out: seq<Row>)
    requires InLayer(slots, layer)
    ensures |out| == |slots|
  {
    seq(|slots|, k requires 0 <= k < |slots| => layer[slots[k].row])
  }

  lemma {:induction false} SlotsNeedRows(slots: seq<Slot>, layer: seq<Row>)
    requires InLayer(slots, layer)
    ensures slots != [] ==> layer != []
  {
    if slots != [] { assert slots[0].row < |layer|; }
  }

  /** The planned rows of one request are its prompt tokens. */
  lemma {:induction false} ItemSelected(w: World, items: seq<Item>, layer: seq<Row>, n: nat)
    requires n < |items| && Holds(w, items, layer)
    ensures var x := items[n]; var slots := ItemSlots(w, x, |Packed(w, items, n)|, PrefillLen(w, x));
      InLayer(slots, layer) && Selected(slots, layer) == TaggedRows(w.promptOf(x.id),
        Tokens(w, x.id, x.computed, PrefillLen(w, x)))
  {
    var x := items[n];
    var slots := ItemSlots(w, x, |Packed(w, items, n)|, PrefillLen(w, x));
    forall k | 0 <= k < |slots|
      ensures slots[k].row < |layer| && layer[slots[k].row] == w.hidden(x.id, x.computed + k)
    {
      PackedAt(w, items, n, k);
    }
  }

  /** Exporting the plan from the packed output is the step's capture. */
  lemma {:induction false} ExportIsCapture(w: World, cap: Captures, items: seq<Item>, layer: seq<Row>, n: nat)
    requires n <= |items| && Holds(w, items, layer)
    ensures InLayer(Plan(w, items, n), layer)
    ensures Exported(cap, Selected(Plan(w, items, n), layer)) == StepCapture(w, cap, items, n)
  {
    hide Packed, Appended, PrefillLen, Tokens, TaggedRows, ItemSlots;
    if n > 0 {
      ExportIsCapture(w, cap, items, layer, n - 1);
      ItemSelected(w, items, layer, n - 1);
      var x := items[n - 1];
      var a, b := Plan(w, items, n - 1), ItemSlots(w, x, |Packed(w, items, n - 1)|, PrefillLen(w, x));
      assert Selected(a + b, layer) == Selected(a, layer) + Selected(b, layer);
      ExportedConcat(cap, Selected(a, layer), Selected(b, layer));
      ExportedRun(StepCapture(w, cap, items, n - 1), w.promptOf(x.id), Tokens(w, x.id, x.computed, PrefillLen(w, x)));
    }
  }

  /** The row holds what the slot names: a prompt token, not yet computed, of a known request with that prompt. */
  ghost predicate Names(w: World, items: seq<Item>, slot: Slot) {
    var packed := Packed(w, items, |items|);
    && slot.row < |packed|
    && exists x :: x in items && x.known && w.promptOf(x.id) == slot.prompt
         && x.computed <= slot.token < w.promptLen(x.id) && packed[slot.row] == w.hidden(x.id, slot.token)
  }

  /** Every planned row is the token it is filed under. */
  lemma {:induction false} PlanNames(w: World, items: seq<Item>, n: nat)
    requires n <= |items|
    ensures forall k :: 0 <= k < |Plan(w, items, n)| ==> Names(w, items, Plan(w, items, n)[k])
  {
    hide Packed;
    if n > 0 {
      PlanNames(w, items, n - 1);
      var x, base, before := items[n - 1], |Packed(w, items, n - 1)|, |Plan(w, items, n - 1)|;
      forall k | before <= k < |Plan(w, items, n)| ensures Names(w, items, Plan(w, items, n)[k]) {
        PackedAt(w, items, n - 1, k - before);
        assert x in items;
      }
    }
  }

  // ---- the producer ----------------------------------------------------------------------------

  class Producer {
    var enabled: bool
    var active: bool
    var count: nat
    var rowIndices: seq<nat>
    var promptIdxs: seq<int>
    var tokenOffsets: seq<nat>
    var hiddenRows: Option<seq<Row>>
    var captured: Captures

    constructor (enabled: bool, active: bool)
      ensures this.enabled == enabled && this.active == active && captured == map[] && hiddenRows == None && count == 0
    {
      this.enabled, this.active := enabled, active;
      count, rowIndices, promptIdxs, tokenOffsets, hiddenRows, captured := 0, [], [], [], None, map[];
    }

    /** The three lists say what the plan says. */
    ghost predicate Lists(plan: seq<Slot>)
      reads this
    {
      && |rowIndices| == |promptIdxs| == |tokenOffsets| == |plan|
      && forall k :: 0 <= k < |plan| ==> plan[k] == Slot(rowIndices[k], promptIdxs[k], tokenOffsets[k])
    }

    /** prepare_prefill_localization: unknown requests are skipped, but their rows still count. */
    method Prepare(w: World, items: seq<Item>)
      modifies this
      ensures enabled == old(enabled) && active == old(active) && captured == old(captured) && hiddenRows == None
      ensures Lists(if enabled then Plan(w, items, |items|) else []) && count == |rowIndices|
    {
      hiddenRows, count, rowIndices, promptIdxs, tokenOffsets := None, 0, [], [], [];
      if !enabled { return; }
      assert Plan(w, items, 0) == [] && Packed(w, items, 0) == [];
      hide Plan, Packed, ItemSlots, Tokens;
      var rowBase := 0;
      for n := 0 to |items|
        invariant enabled == old(enabled) && active == old(active) && captured == old(captured) && hiddenRows == None
        invariant rowBase == |Packed(w, items, n)| && Lists(Plan(w, items, n))
      {
        PlanNext(w, items, n);
        hide Lists;
        var x := items[n];
        if x.scheduled > 0 {
          if x.known { AppendItem(w, x, rowBase, PrefillLen(w, x), Plan(w, items, n)); }
          rowBase := rowBase + x.scheduled;
        }
      }
      count := |rowIndices|;
    }

    method AppendItem(w: World, x: Item, rowBase: nat, n: nat, ghost before: seq<Slot>)
      requires Lists(before)
      modifies this`rowIndices, this`promptIdxs, this`tokenOffsets
      ensures Lists(before + ItemSlots(w, x, rowBase, n))
    {
      for i := 0 to n
        invariant Lists(before + ItemSlots(w, x, rowBase, i))
      {
        rowIndices, promptIdxs := rowIndices + [rowBase + i], promptIdxs + [w.promptOf(x.id)];
        tokenOffsets := tokenOffsets + [x.computed + i];
        assert ItemSlots(w, x, rowBase, i + 1)
          == ItemSlots(w, x, rowBase, i) + [Slot(rowBase + i, w.promptOf(x.id), x.computed + i)];
      }
    }

    /** stash_prefill_hidden_from_layer_output */
    method Stash(layer: seq<Row>, ghost plan: seq<Slot>)
      requires Lists(plan) && count == |plan| && InLayer(plan, layer)
      modifies this`hiddenRows
      ensures hiddenRows == if enabled && count > 0 then Some(SelectedRows(plan, layer)) else None
    {
      hiddenRows := None;
      SlotsNeedRows(plan, layer);
      if !enabled || count <= 0 || |layer| <= 0 { return; }
      var rows := rowIndices;
      var selected := seq(|rows|, k requires 0 <= k < |rows| => layer[rows[k]]);
      assert selected == SelectedRows(plan, layer);
      hiddenRows := Some(selected);
    }

    /** export_prefill_capture */
    method Export(ghost plan: seq<Slot>, ghost layer: seq<Row>)
      requires Lists(plan) && count == |plan| && InLayer(plan, layer)
      requires hiddenRows == if enabled && count > 0 then Some(SelectedRows(plan, layer)) else None
      modifies this`hiddenRows, this`captured
      ensures captured == if active && enabled then Exported(old(captured), Selected(plan, layer)) else old(captured)
    {
      if !active || !enabled || hiddenRows.None? { return; }
      var selected := hiddenRows.value;
      for i := 0 to count
        invariant captured == Exported(old(captured), Selected(plan, layer)[..i])
      {
        var prompt := promptIdxs[i];
        ghost var tagged := Selected(plan, layer);
        assert tagged[..i + 1][..i] == tagged[..i] && tagged[i] == Tagged(prompt, selected[i]);
        if prompt >= 0 {
          if prompt !in captured { captured := captured[prompt := []]; }
          captured := captured[prompt := captured[prompt] + [selected[i]]];
        }
      }
      assert Selected(plan, layer)[..count] == Selected(plan, layer);
      hiddenRows := None;
    }

    /** One step: plan, the layer's forward, export. */
    method CaptureStep(w: World, items: seq<Item>, layer: seq<Row>)
      requires enabled && active && Holds(w, items, layer)
      modifies this
      ensures enabled && active && captured == StepCapture(w, old(captured), items, |items|)
    {
      hide Packed, Plan, StepCapture, Exported, Selected, SelectedRows, InLayer, Holds;
      Prepare(w, items);
      ExportIsCapture(w, captured, items, layer, |items|);
      Stash(layer, Plan(w, items, |items|));
      Export(Plan(w, items, |items|), layer);
    }
  }

  // ---- a run -------------------------------------------------------------------------------

  /** Where each request started, how far it is, which of its prompt tokens were captured, and which
      requests the batch index did not know while prompt tokens of theirs were scheduled. */
  datatype Progress = Progress(begun: map<nat, nat>, now: map<nat, nat>, seen: map<nat, seq<int>>, missed: set<nat>)

  function Range(from: nat, n: nat): (r: seq<int>)
    ensures |r| == n
  {
    seq(n, t => from + t)
  }

  /** Prompt tokens that the step computes for the request, known or not. */
  function Due(w: World, x: Item): nat {
    if x.scheduled <= 0 then 0 else Max(0, Min(x.scheduled, w.promptLen(x.id) - x.computed))
  }

  function SeenOf(pr: Progress, id: nat): seq<int> { if id in pr.seen then pr.seen[id] else [] }

  function Advanced(w: World, pr: Progress, x: Item): Progress {
    Progress(if x.id in pr.begun then pr.begun else pr.begun[x.id := x.computed], pr.now[x.id := x.computed + Span(x)],
             pr.seen[x.id := SeenOf(pr, x.id) + Range(x.computed, PrefillLen(w, x))],
             if !x.known && Due(w, x) > 0 then pr.missed + {x.id} else pr.missed)
  }

  function AdvancedAll(w: World, pr: Progress, items: seq<Item>, n: nat): Progress
    requires n <= |items|
  {
    if n == 0 then pr else Advanced(w, AdvancedAll(w, pr, items, n - 1), items[n - 1])
  }

  /** Each request once per step, computed exactly as far as earlier steps scheduled it. */
  ghost predicate Legal(pr: Progress, items: seq<Item>) {
    && (forall a, b :: 0 <= a < b < |items| ==> items[a].id != items[b].id)
    && forall n :: 0 <= n < |items| ==> LegalItem(pr, items[n])
  }

  ghost predicate LegalItem(pr: Progress, x: Item) { x.id in pr.now ==> x.computed == pr.now[x.id] }

  ghost predicate DistinctPrompts(w: World) {
    forall a: nat, b: nat :: w.promptOf(a) == w.promptOf(b) && w.promptOf(a) >= 0 ==> a == b
  }

  /** Prompt tokens computed since the request started. */
  function Covered(w: World, pr: Progress, id: nat): nat
    requires id in pr.begun && id in pr.now
  {
    Max(0, Min(pr.now[id], w.promptLen(id)) - pr.begun[id])
  }

  function RowsAt(w: World, id: nat, tokens: seq<int>): (rows: seq<Row>)
    ensures |rows| == |tokens|
  {
    seq(|tokens|, k requires 0 <= k < |tokens| => w.hidden(id, tokens[k]))
  }

  /** Strictly increasing tokens among the n from `begun` on, which are all n of them if and only if none was
      missed. */
  ghost predicate Counted(seen: seq<int>, begun: nat, n: nat, missed: bool) {
    && StrictlyIncreasing(seen) && (forall k :: 0 <= k < |seen| ==> begun <= seen[k] < begun + n)
    && (seen == Range(begun, n) <==> !missed) && |seen| <= n && (|seen| == n <==> !missed)
  }

  /** The captured tokens are prompt tokens computed since the request started, in token order, each at most
      once; they are all of them if and only if the request was never missed. */
  ghost predicate InOrder(w: World, pr: Progress, id: nat)
    requires id in pr.begun && id in pr.now
  {
    Counted(SeenOf(pr, id), pr.begun[id], Covered(w, pr, id), id in pr.missed)
  }

  /** The next tokens are captured, or missed. */
  lemma {:induction false} CountedMore(seen: seq<int>, begun: nat, n: nat, missed: bool, due: nat)
    requires Counted(seen, begun, n, missed)
    ensures Counted(seen + Range(begun + n, due), begun, n + due, missed)
    ensures Counted(seen, begun, n + due, missed || due > 0)
  {
    if !missed { assert seen + Range(begun + n, due) == Range(begun, n + due); }
    if due > 0 { assert |Range(begun, n + due)| == n + due; }
  }

  /** A request's prompt holds the rows of its captured tokens. */
  ghost predicate RequestExplained(w: World, cap: Captures, pr: Progress, id: nat)
    requires id in pr.begun && id in pr.now
  {
    var p, seen := w.promptOf(id), SeenOf(pr, id);
    && InOrder(w, pr, id)
    && (p >= 0 ==> (p in cap <==> seen != []) && (p in cap ==> cap[p] == RowsAt(w, id, seen)))
  }

  ghost predicate Explained(w: World, cap: Captures, pr: Progress) {
    && pr.begun.Keys == pr.now.Keys == pr.seen.Keys && pr.missed <= pr.now.Keys
    && (forall id :: id in pr.now ==> pr.begun[id] <= pr.now[id] && RequestExplained(w, cap, pr, id))
    && forall p :: p in cap ==> p >= 0 && exists id :: id in pr.now && w.promptOf(id) == p
  }

  lemma {:induction false} RowsConcat(w: World, id: nat, seen: seq<int>, from: nat, n: nat)
    ensures RowsAt(w, id, seen) + Tokens(w, id, from, n) == RowsAt(w, id, seen + Range(from, n))
  {
  }

  /** One request's share of a step extends its own list by exactly the new captured tokens. */
  lemma {:induction false} ItemExplained(w: World, cap: Captures, pr: Progress, x: Item)
    requires DistinctPrompts(w) && Explained(w, cap, pr) && LegalItem(pr, x)
    ensures Explained(w, Appended(cap, w.promptOf(x.id), Tokens(w, x.id, x.computed, PrefillLen(w, x))),
      Advanced(w, pr, x))
  {
    hide RequestExplained, Tokens, Range, PrefillLen, Due, Covered;
    var p, k := w.promptOf(x.id), PrefillLen(w, x);
    var next, after := Appended(cap, p, Tokens(w, x.id, x.computed, k)), Advanced(w, pr, x);
    ItemOwn(w, cap, pr, x);
    forall id | id in after.now ensures after.begun[id] <= after.now[id] && RequestExplained(w, next, after, id) {
      if id != x.id { OtherExplained(w, cap, pr, x, id); }
    }
    forall q | q in next ensures q >= 0 && exists id :: id in after.now && w.promptOf(id) == q {
      if q == p {
        assert x.id in after.now;
      } else {
        var id :| id in pr.now && w.promptOf(id) == q;
        assert id in after.now;
      }
    }
  }

  lemma {:induction false} OtherExplained(w: World, cap: Captures, pr: Progress, x: Item, id: nat)
    requires DistinctPrompts(w) && id != x.id && id in pr.begun && id in pr.now && RequestExplained(w, cap, pr, id)
    ensures var next := Appended(cap, w.promptOf(x.id), Tokens(w, x.id, x.computed, PrefillLen(w, x)));
      RequestExplained(w, next, Advanced(w, pr, x), id)
  {
    hide InOrder, Tokens, Range, PrefillLen, Due, Covered;
    OtherInOrder(w, pr, x, id);
  }

  lemma {:induction false} OtherInOrder(w: World, pr: Progress, x: Item, id: nat)
    requires id != x.id && id in pr.begun && id in pr.now && InOrder(w, pr, id)
    ensures InOrder(w, Advanced(w, pr, x), id)
  {
  }

  lemma {:induction false} OwnInOrder(w: World, pr: Progress, x: Item)
    requires LegalItem(pr, x) && pr.begun.Keys == pr.now.Keys == pr.seen.Keys && pr.missed <= pr.now.Keys
    requires x.id in pr.now ==> pr.begun[x.id] <= pr.now[x.id] && InOrder(w, pr, x.id)
    ensures InOrder(w, Advanced(w, pr, x), x.id)
  {
    hide Counted;
    var after, id := Advanced(w, pr, x), x.id;
    var had, due := SeenOf(pr, id), Due(w, x);
    var n := if id in pr.now then Covered(w, pr, id) else 0;
    assert Covered(w, after, id) == n + due;
    if id !in pr.now { NothingCounted(x.computed); }
    CountedMore(had, after.begun[id], n, id in pr.missed, due);
    assert due > 0 ==> x.computed == after.begun[id] + n;
    if PrefillLen(w, x) == 0 {
      assert had + Range(x.computed, 0) == had;
    }
    if due == 0 { assert Range(x.computed, 0) == Range(after.begun[id] + n, 0); }
  }

  lemma {:induction false} NothingCounted(begun: nat)
    ensures Counted([], begun, 0, false)
  {
  }

  lemma {:induction false} ItemOwn(w: World, cap: Captures, pr: Progress, x: Item)
    requires DistinctPrompts(w) && Explained(w, cap, pr) && LegalItem(pr, x)
    ensures var next := Appended(cap, w.promptOf(x.id), Tokens(w, x.id, x.computed, PrefillLen(w, x)));
      RequestExplained(w, next, Advanced(w, pr, x), x.id)
  {
    hide Tokens, InOrder;
    var p, k := w.promptOf(x.id), PrefillLen(w, x);
    if x.id in pr.now { assert RequestExplained(w, cap, pr, x.id); }
    OwnInOrder(w, pr, x);
    if p >= 0 {
      RowsConcat(w, x.id, SeenOf(pr, x.id), x.computed, k);
      if x.id !in pr.now {
        forall id | id in pr.now ensures w.promptOf(id) != p { assert id != x.id; }
        assert p !in cap;
        assert [] + Tokens(w, x.id, x.computed, k) == Tokens(w, x.id, x.computed, k);
        assert RowsAt(w, x.id, []) == [];
      }
      if k == 0 { assert SeenOf(pr, x.id) + Range(x.computed, k) == SeenOf(pr, x.id); }
    }
  }

  lemma {:induction false} StepExplained(w: World, cap: Captures, pr: Progress, items: seq<Item>, n: nat)
    requires DistinctPrompts(w) && Explained(w, cap, pr) && Legal(pr, items) && n <= |items|
    ensures Explained(w, StepCapture(w, cap, items, n), AdvancedAll(w, pr, items, n))
    ensures forall m :: n <= m < |items| ==> LegalItem(AdvancedAll(w, pr, items, n), items[m])
  {
    hide Explained, Appended, Tokens, PrefillLen, Due;
    if n > 0 {
      StepExplained(w, cap, pr, items, n - 1);
      ItemExplained(w, StepCapture(w, cap, items, n - 1), AdvancedAll(w, pr, items, n - 1), items[n - 1]);
    }
  }

  /** Progress after the first n steps. */
  function RunProgress(w: World, steps: seq<seq<Item>>, n: nat): Progress
    requires n <= |steps|
  {
    if n == 0 then Progress(map[], map[], map[], {})
    else AdvancedAll(w, RunProgress(w, steps, n - 1), steps[n - 1], |steps[n - 1]|)
  }

  ghost predicate LegalRun(w: World, steps: seq<seq<Item>>) {
    forall n :: 0 <= n < |steps| ==> Legal(RunProgress(w, steps, n), steps[n])
  }

  /** Over any run, through steps that pack many requests and mix prefill with decode, every prompt's list
      is captured prompt tokens of its request in token order, each at most once; it is all of them, from the
      request's first step on, if and only if the batch index knew the request whenever it had prompt tokens. */
  method CaptureRun(w: World, steps: seq<seq<Item>>, layers: seq<seq<Row>>) returns (producer: Producer)
    requires DistinctPrompts(w) && LegalRun(w, steps)
    requires |layers| == |steps| && forall n :: 0 <= n < |steps| ==> Holds(w, steps[n], layers[n])
    ensures fresh(producer) && Explained(w, producer.captured, RunProgress(w, steps, |steps|))
  {
    hide Explained, Legal, Holds, RunProgress, StepCapture;
    producer := new Producer(true, true);
    NothingYet(w, steps);
    for n := 0 to |steps|
      invariant fresh(producer) && producer.enabled && producer.active
        && Explained(w, producer.captured, RunProgress(w, steps, n))
    {
      ghost var before := producer.captured;
      StepExplained(w, before, RunProgress(w, steps, n), steps[n], |steps[n]|);
      ProgressNext(w, steps, n);
      producer.CaptureStep(w, steps[n], layers[n]);
    }
  }

  lemma {:induction false} NothingYet(w: World, steps: seq<seq<Item>>)
    ensures Explained(w, map[], RunProgress(w, steps, 0))
  {
  }

  lemma {:induction false} ProgressNext(w: World, steps: seq<seq<Item>>, n: nat)
    requires n < |steps|
    ensures RunProgress(w, steps, n + 1) == AdvancedAll(w, RunProgress(w, steps, n), steps[n], |steps[n]|)
  {
  }
}
