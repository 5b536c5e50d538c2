/** Prompt-to-slot assignment of the model bank, with its dense and sorted lookups, through
    every call that assigns, trains, resets, reconfigures or reallocates. */
module SlotTable {
  import opened Common
  import opened Rows
  import Pipeline = TrainPipeline

  /** `other` stands for the settings that only take part in the resource signature. */
  datatype Config = Config(perRequest: bool, perBank: bool, bankSlots: nat, pipelineSlots: nat,
                           streamMode: Pipeline.Mode, flush: nat, other: int)

  datatype Shape = Shape(slots: nat, rows: nat, hidden: nat, dtype: int, device: int)

  /** sampling_lookup_{device,size,keys,values} */
  datatype Cache = Cache(device: Option<int>, size: int, sorted: Option<(seq<int>, seq<int>)>)

  datatype Dense = Dense(device: int, cells: seq<int>)

  datatype Slots = Slots(byPrompt: map<int, nat>, bySlot: map<nat, int>, next: nat)

  datatype Error = SlotsExhausted | NoHiddenLayout | NoPipeline | MissingPrompt

  datatype Table = Table(cfg: Config, device: int, hidden: nat, dtype: int, pipeline: Option<Shape>, bank: Option<nat>,
                         slots: Slots, entries: set<int>, cache: Cache, dense: Option<Dense>)

  const EMPTY := Slots(map[], map[], 0)

  function UsingBank(t: Table): bool { t.cfg.perRequest && t.cfg.perBank }

  function Wanted(cfg: Config): nat { if cfg.bankSlots > 0 then cfg.bankSlots else cfg.pipelineSlots }

  /** _model_bank_slot_capacity */
  function Capacity(t: Table): nat { if t.bank.Some? then t.bank.value else Wanted(t.cfg) }

  function Blank(n: nat): seq<int> { seq(n, _ => -1) }

  /** _reset_runtime_cache */
  function ResetCache(t: Table): Table {
    t.(slots := EMPTY,
       dense := if t.dense.Some? then Some(t.dense.value.(cells := Blank(|t.dense.value.cells|))) else None,
       cache := Cache(t.cache.device, 0, None))
  }

  /** _invalidate_training_resources */
  function Invalidate(t: Table): Table {
    ResetCache(t.(entries := {}, cache := Cache(None, -1, None), dense := None, bank := None))
  }

  function Configure(t: Table, cfg: Config): Table {
    var t1 := t.(cfg := cfg);
    if cfg.(flush := 0) != t.cfg.(flush := 0) then Invalidate(t1)
    else if cfg.flush != t.cfg.flush then ResetCache(t1)
    else t1
  }

  /** _sampling_lookup_capacity */
  function LookupCapacity(slots: nat, rows: nat): nat { Max(4096, Max(slots, rows * 8)) }

  /** _ensure_sampling_lookup_storage: allocated or refilled, always all -1 afterwards. */
  function EnsureStorage(t: Table): Result<Table, Error> {
    if t.hidden == 0 then Ok(t)
    else if t.pipeline.None? then Err(NoPipeline)
    else
      var wanted := LookupCapacity(Capacity(t), t.pipeline.value.rows);
      var keep := t.dense.Some? && t.dense.value.device == t.device && |t.dense.value.cells| >= wanted;
      Ok(t.(dense := Some(Dense(t.device, Blank(if keep then |t.dense.value.cells| else wanted)))))
  }

  function EnsurePipeline(t: Table, rows: nat): Table {
    var wanted := Shape(t.cfg.pipelineSlots, rows, t.hidden, t.dtype, t.device);
    if t.pipeline == Some(wanted) then t else ResetCache(t.(pipeline := Some(wanted)))
  }

  function EnsureBank(t: Table): Table {
    if t.bank == Some(Wanted(t.cfg)) then t
    else
      var t1 := t.(bank := Some(Wanted(t.cfg)));
      match EnsureStorage(t1)
      case Ok(t2) => ResetCache(t2)
      case Err(_) => t1
  }

  function EnsureResources(t: Table, device: int, rows: nat, hidden: nat, dtype: int): Table
    requires hidden > 0
  {
    var changed := device != t.device || hidden != t.hidden || dtype != t.dtype;
    var t1 := if device != t.device then t.(pipeline := None) else t;
    var t2 := t1.(device := device, hidden := hidden, dtype := dtype);
    var t3 := if changed then ResetCache(t2.(entries := {}, bank := None)) else t2;
    var t4 := EnsurePipeline(t3, rows);
    if UsingBank(t4) then EnsureBank(t4) else t4
  }

  /** _assign_model_bank_slot */
  function Assign(t: Table, prompt: int): (Table, Result<nat, Error>) {
    if prompt in t.slots.byPrompt then (t, Ok(t.slots.byPrompt[prompt]))
    else if t.slots.next >= Capacity(t) then (t, Err(SlotsExhausted))
    else
      var slot := t.slots.next;
      var t1 := t.(slots := Slots(t.slots.byPrompt[prompt := slot], t.slots.bySlot[slot := prompt], slot + 1),
                   cache := Cache(None, -1, None));
      if t.hidden == 0 && prompt !in t.entries then (t1, Err(NoHiddenLayout))
      else (t1.(entries := t.entries + {prompt}), Ok(slot))
  }

  type Pairs = seq<(int, nat)>

  /** index_copy_ of the (prompt, slot) pairs whose prompt the dense lookup can hold. */
  function WriteDense(cells: seq<int>, pairs: Pairs): (out: seq<int>)
    ensures |out| == |cells|
    decreases |pairs|
  {
    if pairs == [] then cells
    else
      var (prompt, slot) := pairs[|pairs| - 1];
      var before := WriteDense(cells, pairs[..|pairs| - 1]);
      if 0 <= prompt < |cells| then before[prompt := slot] else before
  }

  /** Assigns the non-negative prompts among the first n in order; stops at the first error. */
  function AssignAll(t: Table, prompts: seq<int>, n: nat): (Table, Result<Pairs, Error>)
    requires n <= |prompts|
  {
    if n == 0 then (t, Ok([]))
    else
      var (t1, r) := AssignAll(t, prompts, n - 1);
      if r.Err? || prompts[n - 1] < 0 then (t1, r)
      else
        var (t2, s) := Assign(t1, prompts[n - 1]);
        if s.Err? then (t2, Err(s.error)) else (t2, Ok(r.value + [(prompts[n - 1], s.value)]))
  }

  function Stored(t: Table, pairs: Pairs): Table {
    if t.dense.None? then t
    else t.(dense := Some(t.dense.value.(cells := WriteDense(t.dense.value.cells, pairs))))
  }

  /** assign_sampling_model_bank_slots: Ok(false) when some prompt does not fit the dense lookup. */
  function AssignForSampling(t: Table, prompts: seq<int>): (Table, Result<bool, Error>) {
    if !UsingBank(t) then (t, Ok(!t.cfg.perRequest))
    else
      var e := EnsureStorage(t);
      if e.Err? then (t, Err(e.error))
      else if e.value.dense.None? then (e.value, Ok(false))
      else
        var (t2, r) := AssignAll(e.value, prompts, |prompts|);
        if r.Err? then (t2, Err(r.error))
        else (Stored(t2, r.value), Ok(forall k :: 0 <= k < |prompts| ==> prompts[k] < |e.value.dense.value.cells|))
  }

  /** The pairs of prompts that had no slot in `known`, one per prompt. */
  function NewPairs(known: map<int, nat>, pairs: Pairs): Pairs
    decreases |pairs|
  {
    if pairs == [] then []
    else
      var last := pairs[|pairs| - 1];
      var before := NewPairs(known, pairs[..|pairs| - 1]);
      if last.0 in known || (exists k :: 0 <= k < |pairs| - 1 && pairs[k].0 == last.0) then before else before + [last]
  }

  /** The slot bookkeeping of _train_model_bank: one row per prompt, in row order. */
  function TrainSelect(t: Table, prompts: seq<int>, active: nat): (Table, Result<(seq<int>, seq<nat>), Error>) {
    if active > |prompts| || exists r :: 0 <= r < active && prompts[r] < 0 then (t, Err(MissingPrompt))
    else
      var (t1, r) := AssignAll(t, prompts, active);
      if r.Err? then (t1, Err(r.error))
      else
        var rows := FirstRows(prompts, active);
        (Stored(t1, NewPairs(t.slots.byPrompt, r.value)),
         Ok((rows, seq(|rows|, k requires 0 <= k < |rows| =>
                        if prompts[rows[k]] in t1.slots.byPrompt then t1.slots.byPrompt[prompts[rows[k]]] else 0))))
  }

  /** argsort of the dict's keys and gather of its values: slot order is insertion order. */
  function InsertSorted(pairs: seq<(int, int)>, p: (int, int)): seq<(int, int)>
  {
    if pairs == [] || p.0 < pairs[0].0 then [p] + pairs else [pairs[0]] + InsertSorted(pairs[1..], p)
  }

  function SortedPairs(bySlot: map<nat, int>, n: nat): seq<(int, int)> {
    if n == 0 then []
    else if n - 1 in bySlot then InsertSorted(SortedPairs(bySlot, n - 1), (bySlot[n - 1], n - 1))
    else SortedPairs(bySlot, n - 1)
  }

  function Firsts(pairs: seq<(int, int)>): seq<int> { seq(|pairs|, i requires 0 <= i < |pairs| => pairs[i].0) }

  function Seconds(pairs: seq<(int, int)>): seq<int> { seq(|pairs|, i requires 0 <= i < |pairs| => pairs[i].1) }

  /** _model_bank_slot_lookup_for_device: (usable dense cells, sorted keys, sorted values) */
  function Lookup(t: Table, device: int): (Table, Option<(Option<seq<int>>, seq<int>, seq<int>)>) {
    if t.slots.byPrompt == map[] then (t, None)
    else
      var dense := if t.dense.Some? && t.dense.value.device == device then Some(t.dense.value.cells) else None;
      if t.cache.device == Some(device) && t.cache.size == |t.slots.byPrompt| && t.cache.sorted.Some? then
        (t, Some((dense, t.cache.sorted.value.0, t.cache.sorted.value.1)))
      else
        var pairs := SortedPairs(t.slots.bySlot, t.slots.next);
        (t.(cache := Cache(Some(device), |t.slots.byPrompt|, Some((Firsts(pairs), Seconds(pairs))))),
         Some((dense, Firsts(pairs), Seconds(pairs))))
  }

  // ---- the invariant -------------------------------------------------------------------

  /** byPrompt and bySlot are inverse bijections onto [0, next). */
  ghost predicate Bijection(s: Slots) {
    && (forall p :: p in s.byPrompt ==>
      s.byPrompt[p] < s.next && s.byPrompt[p] in s.bySlot && s.bySlot[s.byPrompt[p]] == p)
    && (forall k: nat :: k in s.bySlot <==> k < s.next)
    && (forall k: nat :: k in s.bySlot ==> s.bySlot[k] in s.byPrompt && s.byPrompt[s.bySlot[k]] == k)
    && (forall p :: p in s.byPrompt ==> p >= 0)
  }

  /** Every dense cell is -1 or the slot of its index. */
  ghost predicate DenseSound(cells: seq<int>, m: map<int, nat>) {
    forall p :: 0 <= p < |cells| && cells[p] != -1 ==> p in m && cells[p] == m[p]
  }

  /** keys/values are the sorted image of m. */
  ghost predicate SortedImage(keys: seq<int>, values: seq<int>, m: map<int, nat>) {
    && |keys| == |values| && StrictlyIncreasing(keys)
    && (forall i :: 0 <= i < |keys| ==> keys[i] in m && values[i] == m[keys[i]])
    && (forall p :: p in m ==> p in keys)
  }

  ghost predicate CacheOk(c: Cache, m: map<int, nat>) {
    c.sorted.Some? ==> SortedImage(c.sorted.value.0, c.sorted.value.1, m)
  }

  ghost predicate Coherent(t: Table) {
    && Bijection(t.slots) && t.slots.next <= Capacity(t)
    && (forall p :: p in t.slots.byPrompt ==> p in t.entries)
    && (t.dense.Some? ==> DenseSound(t.dense.value.cells, t.slots.byPrompt))
    && CacheOk(t.cache, t.slots.byPrompt)
    && (t.bank.Some? ==> t.bank.value == Wanted(t.cfg))
    && (t.hidden > 0 ==> t.pipeline.Some?)
    && (t.dense.Some? || t.bank.Some? ==> t.hidden > 0)
  }

  // ---- every call keeps it -------------------------------------------------------------

  lemma {:induction false} ResetCoherent(t: Table)
    requires t.bank.Some? ==> t.bank.value == Wanted(t.cfg)
    requires t.hidden > 0 ==> t.pipeline.Some?
    requires t.dense.Some? || t.bank.Some? ==> t.hidden > 0
    ensures Coherent(ResetCache(t)) && ResetCache(t).slots == EMPTY
  {
  }

  lemma {:induction false} ConfigureCoherent(t: Table, cfg: Config)
    requires Coherent(t)
    ensures Coherent(Configure(t, cfg))
  {
    if cfg.(flush := 0) != t.cfg.(flush := 0) {
      ResetCoherent(t.(cfg := cfg, entries := {}, cache := Cache(None, -1, None), dense := None, bank := None));
    } else {
      assert cfg.bankSlots == t.cfg.bankSlots && cfg.pipelineSlots == t.cfg.pipelineSlots;
      if cfg.flush != t.cfg.flush { ResetCoherent(t.(cfg := cfg)); }
    }
  }

  lemma {:induction false} StorageCoherent(t: Table)
    requires Coherent(t)
    ensures EnsureStorage(t).Ok? && Coherent(EnsureStorage(t).value)
    ensures EnsureStorage(t).value == t.(dense := EnsureStorage(t).value.dense)
    ensures t.hidden > 0 ==> EnsureStorage(t).value.dense.Some? && EnsureStorage(t).value.dense.value.device == t.device
  {
  }

  lemma {:induction false} EnsureResourcesCoherent(t: Table, device: int, rows: nat, hidden: nat, dtype: int)
    requires Coherent(t) && hidden > 0
    ensures Coherent(EnsureResources(t, device, rows, hidden, dtype))
    ensures UsingBank(t) ==> EnsureResources(t, device, rows, hidden, dtype).bank == Some(Wanted(t.cfg))
  {
    hide Bijection, DenseSound, CacheOk, ResetCache, LookupCapacity;
    ResetFrame(t);
    var changed := device != t.device || hidden != t.hidden || dtype != t.dtype;
    var t1 := if device != t.device then t.(pipeline := None) else t;
    var t2 := t1.(device := device, hidden := hidden, dtype := dtype);
    ResetFrame(t2.(entries := {}, bank := None));
    var t3 := if changed then ResetCache(t2.(entries := {}, bank := None)) else t2;
    ResetFrame(t3.(pipeline := Some(Shape(t3.cfg.pipelineSlots, rows, t3.hidden, t3.dtype, t3.device))));
    var t4 := EnsurePipeline(t3, rows);
    assert Coherent(t4) by {
      if t3.pipeline != Some(Shape(t3.cfg.pipelineSlots, rows, t3.hidden, t3.dtype, t3.device)) {
        ResetCoherent(t3.(pipeline := Some(Shape(t3.cfg.pipelineSlots, rows, t3.hidden, t3.dtype, t3.device))));
      } else if changed {
        assert device == t.device;
        ResetCoherent(t2.(entries := {}, bank := None));
      }
    }
    if UsingBank(t4) && t4.bank != Some(Wanted(t4.cfg)) {
      var t5 := t4.(bank := Some(Wanted(t4.cfg)));
      ResetFrame(EnsureStorage(t5).value);
      ResetCoherent(EnsureStorage(t5).value);
    }
  }

  lemma {:induction false} ResetFrame(t: Table)
    ensures var r := ResetCache(t);
      && r == t.(slots := EMPTY, dense := r.dense, cache := r.cache)
      && (r.dense.Some? <==> t.dense.Some?)
  {
  }

  lemma {:induction false} AssignCoherent(t: Table, prompt: int)
    requires Coherent(t) && prompt >= 0 && t.hidden > 0
    ensures Coherent(Assign(t, prompt).0)
    ensures Assign(t, prompt).1.Ok? <==> prompt in t.slots.byPrompt || t.slots.next < Capacity(t)
    ensures var (t', r) := Assign(t, prompt);
      && (r.Ok? ==> prompt in t'.slots.byPrompt && t'.slots.byPrompt[prompt] == r.value)
      && (forall p :: p in t.slots.byPrompt ==> p in t'.slots.byPrompt && t'.slots.byPrompt[p] == t.slots.byPrompt[p])
      && (forall p :: p in t'.slots.byPrompt ==> p in t.slots.byPrompt || p == prompt)
      && t' == t.(slots := t'.slots, cache := t'.cache, entries := t'.entries)
  {
  }

  ghost predicate PairIn(m: map<int, nat>, x: (int, nat)) { x.0 in m && x.1 == m[x.0] }

  /** Assignments only grow, and every returned pair is the table's. */
  ghost predicate Assigned(t: Table, t': Table, pairs: Pairs) {
    && (forall p :: p in t.slots.byPrompt ==> p in t'.slots.byPrompt && t'.slots.byPrompt[p] == t.slots.byPrompt[p])
    && (forall k :: 0 <= k < |pairs| ==> PairIn(t'.slots.byPrompt, pairs[k]))
    && t' == t.(slots := t'.slots, cache := t'.cache, entries := t'.entries)
  }

  lemma {:induction false} AssignedMore(t: Table, t1: Table, t2: Table, pairs: Pairs, prompt: int,
        r: Result<nat, Error>)
    requires Assigned(t, t1, pairs)
    requires forall p :: p in t1.slots.byPrompt ==>
      p in t2.slots.byPrompt && t2.slots.byPrompt[p] == t1.slots.byPrompt[p]
    requires t2 == t1.(slots := t2.slots, cache := t2.cache, entries := t2.entries)
    requires r.Ok? ==> prompt in t2.slots.byPrompt && t2.slots.byPrompt[prompt] == r.value
    ensures Assigned(t, t2, []) && (r.Ok? ==> Assigned(t, t2, pairs + [(prompt, r.value)]))
  {
    hide Coherent;
    if r.Ok? {
      var more := pairs + [(prompt, r.value)];
      forall k | 0 <= k < |more| ensures PairIn(t2.slots.byPrompt, more[k]) {
        if k < |pairs| {
          var p: int := pairs[k].0;
          assert PairIn(t1.slots.byPrompt, pairs[k]) && p in t1.slots.byPrompt;
        } else {
          assert more[k] == (prompt, r.value);
        }
      }
    }
    assert t2 == t.(slots := t2.slots, cache := t2.cache, entries := t2.entries);
  }

  lemma {:induction false} AssignAllCoherent(t: Table, prompts: seq<int>, n: nat)
    requires Coherent(t) && n <= |prompts| && t.hidden > 0
    ensures var (t', r) := AssignAll(t, prompts, n);
      Coherent(t') && t'.hidden > 0 && Assigned(t, t', if r.Ok? then r.value else [])
  {
    hide Coherent, Assign;
    if n > 0 {
      AssignAllCoherent(t, prompts, n - 1);
      var (t1, r) := AssignAll(t, prompts, n - 1);
      if r.Ok? && prompts[n - 1] >= 0 {
        AssignCoherent(t1, prompts[n - 1]);
        AssignedMore(t, t1, Assign(t1, prompts[n - 1]).0, r.value, prompts[n - 1], Assign(t1, prompts[n - 1]).1);
      }
    }
  }

  // ---- exactly when slots run out ------------------------------------------------------

  ghost function PromptsBelow(s: Slots, n: nat): set<int>
    requires Bijection(s) && n <= s.next
  {
    set k: nat | k < n :: s.bySlot[k]
  }

  lemma {:induction false} CountBelow(s: Slots, n: nat)
    requires Bijection(s) && n <= s.next
    ensures |PromptsBelow(s, n)| == n
    decreases n
  {
    if n > 0 {
      CountBelow(s, n - 1);
      var p := s.bySlot[n - 1];
      assert PromptsBelow(s, n) == PromptsBelow(s, n - 1) + {p};
      assert s.byPrompt[p] == n - 1;
      assert p !in PromptsBelow(s, n - 1);
    }
  }

  /** As many prompts have slots as slots were given out. */
  lemma {:induction false} NextIsCount(s: Slots)
    requires Bijection(s)
    ensures |s.byPrompt.Keys| == s.next
  {
    CountBelow(s, s.next);
    forall p ensures p in s.byPrompt.Keys <==> p in PromptsBelow(s, s.next) {
      if p in s.byPrompt { assert s.bySlot[s.byPrompt[p]] == p; }
    }
    assert s.byPrompt.Keys == PromptsBelow(s, s.next);
  }

  lemma {:induction false} PromptSetNext(prompts: seq<int>, n: nat)
    requires n < |prompts|
    ensures PromptSet(prompts, n + 1) == PromptSet(prompts, n) + if prompts[n] >= 0 then {prompts[n]} else {}
  {
  }

  /** The batch's first n prompts fit the bank together with the known ones. */
  ghost predicate Fits(t: Table, prompts: seq<int>, n: nat)
    requires n <= |prompts|
  {
    |t.slots.byPrompt.Keys + PromptSet(prompts, n)| <= Capacity(t)
  }

  lemma {:induction false} FitsNext(t: Table, prompts: seq<int>, n: nat)
    requires n < |prompts|
    ensures Fits(t, prompts, n + 1) ==> Fits(t, prompts, n)
    ensures prompts[n] < 0 ==> Fits(t, prompts, n) == Fits(t, prompts, n + 1)
    ensures prompts[n] < 0 ==> PromptSet(prompts, n + 1) == PromptSet(prompts, n)
  {
    PromptSetNext(prompts, n);
    var keys := t.slots.byPrompt.Keys;
    SubsetSize(keys + PromptSet(prompts, n), keys + PromptSet(prompts, n + 1));
  }

  lemma {:induction false} FitsOne(t: Table, t1: Table, prompts: seq<int>, n: nat)
    requires n < |prompts| && prompts[n] >= 0 && Coherent(t1) && Capacity(t1) == Capacity(t)
    requires t1.slots.byPrompt.Keys == t.slots.byPrompt.Keys + PromptSet(prompts, n)
    ensures Fits(t, prompts, n + 1) <==> prompts[n] in t1.slots.byPrompt || t1.slots.next < Capacity(t1)
    ensures t.slots.byPrompt.Keys + PromptSet(prompts, n + 1) == t1.slots.byPrompt.Keys + {prompts[n]}
  {
    hide Bijection, PromptSet;
    var p, before := prompts[n], t1.slots.byPrompt.Keys;
    PromptSetNext(prompts, n);
    assert t.slots.byPrompt.Keys + PromptSet(prompts, n + 1) == before + {p};
    TableFits(t1);
    if p in before { assert before + {p} == before; }
  }

  /** Assigning a batch succeeds if and only if all prompts, known and new, fit the bank; it then
      adds exactly the batch's prompts. */
  lemma {:induction false} AssignAllExactly(t: Table, prompts: seq<int>, n: nat)
    requires Coherent(t) && n <= |prompts| && t.hidden > 0
    ensures var (t', r) := AssignAll(t, prompts, n);
      && (r.Ok? <==> Fits(t, prompts, n))
      && (r.Ok? ==> t'.slots.byPrompt.Keys == t.slots.byPrompt.Keys + PromptSet(prompts, n))
      && (r.Err? ==> r.error == SlotsExhausted)
  {
    hide Coherent, Assign, PromptSet, Fits;
    if n == 0 {
      FitsNone(t, prompts);
    } else {
      AssignAllExactly(t, prompts, n - 1);
      AssignAllCoherent(t, prompts, n - 1);
      FitsNext(t, prompts, n - 1);
      var (t1, r) := AssignAll(t, prompts, n - 1);
      if r.Ok? && prompts[n - 1] >= 0 {
        FitsOne(t, t1, prompts, n - 1);
        AssignCoherent(t1, prompts[n - 1]);
        AssignKeys(t1, prompts[n - 1]);
      }
    }
  }

  lemma {:induction false} FitsNone(t: Table, prompts: seq<int>)
    requires Coherent(t)
    ensures Fits(t, prompts, 0) && t.slots.byPrompt.Keys + PromptSet(prompts, 0) == t.slots.byPrompt.Keys
  {
    TableFits(t);
    assert t.slots.byPrompt.Keys + PromptSet(prompts, 0) == t.slots.byPrompt.Keys;
  }

  lemma {:induction false} SubsetSize(a: set<int>, b: set<int>)
    requires a <= b
    ensures |a| <= |b|
  {
    assert b == a + (b - a);
  }

  lemma {:induction false} TableFits(t: Table)
    requires Coherent(t)
    ensures |t.slots.byPrompt.Keys| == t.slots.next <= Capacity(t)
  {
    NextIsCount(t.slots);
  }

  lemma {:induction false} AssignKeys(t: Table, prompt: int)
    requires Coherent(t) && prompt >= 0 && t.hidden > 0
    ensures var (t', r) := Assign(t, prompt);
      && (r.Ok? ==> t'.slots.byPrompt.Keys == t.slots.byPrompt.Keys + {prompt})
      && (r.Err? ==> r.error == SlotsExhausted)
  {
  }

  ghost predicate Has(pairs: Pairs, p: int) { exists k :: 0 <= k < |pairs| && pairs[k].0 == p }

  lemma {:induction false} HasAppend(pairs: Pairs, x: (int, nat), p: int)
    ensures Has(pairs + [x], p) <==> Has(pairs, p) || x.0 == p
  {
    if Has(pairs, p) {
      var k :| 0 <= k < |pairs| && pairs[k].0 == p;
      assert (pairs + [x])[k].0 == p;
    }
    assert (pairs + [x])[|pairs|] == x;
  }

  /** The pairs are those of the non-negative prompts, one per row when no prompt is negative. */
  lemma {:induction false} AssignAllCovers(t: Table, prompts: seq<int>, n: nat)
    requires n <= |prompts| && AssignAll(t, prompts, n).1.Ok?
    ensures var pairs := AssignAll(t, prompts, n).1.value;
      && (forall i :: 0 <= i < n && prompts[i] >= 0 ==> Has(pairs, prompts[i]))
      && ((forall i :: 0 <= i < n ==> prompts[i] >= 0) ==> |pairs| == n && forall i :: 0 <= i < n ==>
        pairs[i].0 == prompts[i])
  {
    hide Assign, Has;
    if n > 0 {
      AssignAllCovers(t, prompts, n - 1);
      var (t1, r) := AssignAll(t, prompts, n - 1);
      if prompts[n - 1] >= 0 {
        var x := (prompts[n - 1], Assign(t1, prompts[n - 1]).1.value);
        assert AssignAll(t, prompts, n).1.value == r.value + [x];
        forall i | 0 <= i < n && prompts[i] >= 0 ensures Has(r.value + [x], prompts[i]) {
          HasAppend(r.value, x, prompts[i]);
        }
      }
    }
  }

  /** Writing pairs of the table keeps the dense lookup sound, and covers every prompt that fits. */
  lemma {:induction false} WriteDenseSound(cells: seq<int>, pairs: Pairs, m: map<int, nat>)
    requires DenseSound(cells, m)
    requires forall k :: 0 <= k < |pairs| ==> pairs[k].0 in m && pairs[k].1 == m[pairs[k].0]
    ensures DenseSound(WriteDense(cells, pairs), m)
    ensures forall k :: 0 <= k < |pairs| && 0 <= pairs[k].0 < |cells| ==>
      WriteDense(cells, pairs)[pairs[k].0] == pairs[k].1
    decreases |pairs|
  {
    if pairs != [] {
      WriteDenseSound(cells, pairs[..|pairs| - 1], m);
    }
  }

  lemma {:induction false} AssignForSamplingCoherent(t: Table, prompts: seq<int>)
    requires Coherent(t)
    ensures Coherent(AssignForSampling(t, prompts).0)
    ensures var (t', r) := AssignForSampling(t, prompts);
      UsingBank(t) && r == Ok(true) ==>
        && t'.dense.Some? && t'.dense.value.device == t.device
        && forall i :: 0 <= i < |prompts| && prompts[i] >= 0 ==>
             prompts[i] in t'.slots.byPrompt && prompts[i] < |t'.dense.value.cells|
               && t'.dense.value.cells[prompts[i]] == t'.slots.byPrompt[prompts[i]]
  {
    if UsingBank(t) {
      StorageCoherent(t);
      var t1 := EnsureStorage(t).value;
      if t1.dense.Some? {
        AssignAllCoherent(t1, prompts, |prompts|);
        var (t2, r) := AssignAll(t1, prompts, |prompts|);
        if r.Ok? {
          AssignAllCovers(t1, prompts, |prompts|);
          WriteDenseSound(t2.dense.value.cells, r.value, t2.slots.byPrompt);
          forall i | 0 <= i < |prompts| && prompts[i] >= 0 ensures prompts[i] in t2.slots.byPrompt &&
            (prompts[i] < |t1.dense.value.cells| ==>
              WriteDense(t2.dense.value.cells, r.value)[prompts[i]] == t2.slots.byPrompt[prompts[i]])
          {
            assert Has(r.value, prompts[i]);
          }
        }
      }
    }
  }

  ghost predicate AllBelow(prompts: seq<int>, limit: nat) {
    forall k :: 0 <= k < |prompts| ==> prompts[k] < limit
  }

  /** In bank mode the pre-assignment fails exactly when the prompts do not fit the bank, and says
      yes exactly when they do and each of them fits the dense lookup. */
  lemma {:induction false} AssignForSamplingExactly(t: Table, prompts: seq<int>)
    requires Coherent(t) && UsingBank(t)
    ensures var r, e := AssignForSampling(t, prompts).1, EnsureStorage(t);
      if t.hidden == 0 then r == Ok(false)
      else
        && e.Ok? && e.value.dense.Some?
        && (r.Err? <==> !Fits(t, prompts, |prompts|))
        && (r == Ok(true) <==> Fits(t, prompts, |prompts|) && AllBelow(prompts, |e.value.dense.value.cells|))
    ensures var (t', r) := AssignForSampling(t, prompts);
      && (r.Ok? && t.hidden > 0 ==> t'.slots.byPrompt.Keys == t.slots.byPrompt.Keys + PromptSet(prompts, |prompts|))
      && (t.hidden == 0 ==> t' == t)
      && t' == t.(slots := t'.slots, cache := t'.cache, entries := t'.entries, dense := t'.dense)
  {
    hide Bijection, DenseSound, CacheOk, Fits, PromptSet, AssignAll, WriteDense, LookupCapacity;
    StorageCoherent(t);
    if t.hidden > 0 {
      var e := EnsureStorage(t).value;
      AssignAllExactly(e, prompts, |prompts|);
      AssignAllCoherent(e, prompts, |prompts|);
      FitsFields(t, e, prompts, |prompts|);
      var (t2, r) := AssignAll(e, prompts, |prompts|);
      assert AssignForSampling(t, prompts).1.Err? == r.Err?;
    }
  }

  /** The bank's own slots, or the configured ones: pipeline_slots where no bank size is given. */
  ghost predicate HasSlots(t: Table, n: nat) {
    if t.bank.Some? then n == t.bank.value
    else if t.cfg.bankSlots > 0 then n == t.cfg.bankSlots
    else n == t.cfg.pipelineSlots
  }

  /** Prompts and known prompts fit the slots, and each prompt is below 4096, the number of slots, eight times
      the pipeline's rows, or the size of a lookup that this device already has. */
  ghost predicate LookupReady(t: Table, prompts: seq<int>, slots: nat) {
    && t.pipeline.Some? && |t.slots.byPrompt.Keys + PromptSet(prompts, |prompts|)| <= slots
    && forall k :: 0 <= k < |prompts| ==>
         || prompts[k] < 4096 || prompts[k] < slots || prompts[k] < 8 * t.pipeline.value.rows
         || (t.dense.Some? && t.dense.value.device == t.device && prompts[k] < |t.dense.value.cells|)
  }

  /** The pre-assignment says yes exactly when training is shared, or there is a bank with resources whose
      lookup is ready for the prompts; it raises exactly when the prompts do not fit such a bank's slots. */
  lemma {:induction false} SamplingReadyExactly(t: Table, prompts: seq<int>, slots: nat)
    requires Coherent(t) && HasSlots(t, slots)
    ensures AssignForSampling(t, prompts).1 == Ok(true) <==>
      !t.cfg.perRequest || (t.cfg.perBank && t.hidden > 0 && LookupReady(t, prompts, slots))
    ensures AssignForSampling(t, prompts).1.Err? <==>
      && t.cfg.perRequest && t.cfg.perBank && t.hidden > 0
      && |t.slots.byPrompt.Keys + PromptSet(prompts, |prompts|)| > slots
  {
    hide Bijection, DenseSound, CacheOk, PromptSet, AssignAll, WriteDense;
    if UsingBank(t) {
      hide AssignForSampling;
      StorageCoherent(t);
      AssignForSamplingExactly(t, prompts);
    }
  }

  lemma {:induction false} FitsFields(t: Table, t1: Table, prompts: seq<int>, n: nat)
    requires n <= |prompts| && t1 == t.(dense := t1.dense)
    ensures Fits(t1, prompts, n) == Fits(t, prompts, n)
  {
  }

  lemma {:induction false} NewPairsSubset(known: map<int, nat>, pairs: Pairs)
    ensures forall k :: 0 <= k < |NewPairs(known, pairs)| ==> NewPairs(known, pairs)[k] in pairs
    decreases |pairs|
  {
    if pairs != [] { NewPairsSubset(known, pairs[..|pairs| - 1]); }
  }

  /** Training selects the first row of every prompt, with that prompt's slot; the kernel's two
      lookups, slot to prompt and prompt to statistics entry, are then total. */
  lemma {:induction false} TrainSelectCoherent(t: Table, prompts: seq<int>, active: nat)
    requires Coherent(t) && t.hidden > 0
    ensures Coherent(TrainSelect(t, prompts, active).0)
    ensures var (t', r) := TrainSelect(t, prompts, active);
      r.Ok? ==>
        && active <= |prompts| && r.value.0 == FirstRows(prompts, active) && |r.value.1| == |r.value.0|
        && forall k :: 0 <= k < |r.value.0| ==>
             var prompt, slot := prompts[r.value.0[k]], r.value.1[k];
             && prompt in t'.slots.byPrompt && slot == t'.slots.byPrompt[prompt]
             && slot in t'.slots.bySlot && t'.slots.bySlot[slot] == prompt && prompt in t'.entries
  {
    if active <= |prompts| && forall r :: 0 <= r < active ==> prompts[r] >= 0 {
      AssignAllCoherent(t, prompts, active);
      var (t1, r) := AssignAll(t, prompts, active);
      if r.Ok? {
        AssignAllCovers(t, prompts, active);
        hide Has, AssignAll, CacheOk, WriteDense, NewPairs;
        NewPairsSubset(t.slots.byPrompt, r.value);
        if t1.dense.Some? { WriteDenseSound(t1.dense.value.cells, NewPairs(t.slots.byPrompt, r.value),
          t1.slots.byPrompt); }
        FirstRowsMeaning(prompts, active);
        var rows := FirstRows(prompts, active);
        forall k | 0 <= k < |rows| ensures prompts[rows[k]] in t1.slots.byPrompt {
          assert r.value[rows[k]].0 == prompts[rows[k]];
        }
      }
    }
  }

  /** _require_prompt_rows: some active row has no prompt. */
  ghost predicate Missing(prompts: seq<int>, active: nat) {
    active > |prompts| || exists k :: 0 <= k < active && prompts[k] < 0
  }

  /** Training fails exactly when a row has no prompt or the prompts do not fit the bank; otherwise
      it adds exactly the batch's prompts. */
  lemma {:induction false} TrainSelectExactly(t: Table, prompts: seq<int>, active: nat)
    requires Coherent(t) && t.hidden > 0
    ensures var (t', r) := TrainSelect(t, prompts, active);
      && (r.Err? <==> Missing(prompts, active) || !Fits(t, prompts, active))
      && (r.Err? ==> r.error == if Missing(prompts, active) then MissingPrompt else SlotsExhausted)
      && (r.Ok? ==> t'.slots.byPrompt.Keys == t.slots.byPrompt.Keys + PromptSet(prompts, active))
      && t' == t.(slots := t'.slots, cache := t'.cache, entries := t'.entries, dense := t'.dense)
  {
    hide Coherent, Fits, PromptSet, AssignAll, WriteDense, NewPairs;
    if !Missing(prompts, active) {
      AssignAllExactly(t, prompts, active);
      AssignAllCoherent(t, prompts, active);
      var (t1, r) := AssignAll(t, prompts, active);
      assert TrainSelect(t, prompts, active).1.Err? == r.Err?;
    }
  }

  // ---- the sorted lookup ---------------------------------------------------------------

  lemma {:induction false} InsertSortedMeaning(pairs: seq<(int, int)>, p: (int, int))
    requires StrictlyIncreasing(Firsts(pairs))
    requires forall i :: 0 <= i < |pairs| ==> pairs[i].0 != p.0
    ensures var out := InsertSorted(pairs, p);
      && StrictlyIncreasing(Firsts(out)) && |out| == |pairs| + 1
      && (forall x :: x in out <==> x in pairs || x == p)
      && out[0].0 == if pairs == [] || p.0 < pairs[0].0 then p.0 else pairs[0].0
    decreases |pairs|
  {
    if pairs != [] && p.0 >= pairs[0].0 {
      var rest, tail := pairs[1..], InsertSorted(pairs[1..], p);
      assert Firsts(rest) == Firsts(pairs)[1..];
      InsertSortedMeaning(rest, p);
      var out := [pairs[0]] + tail;
      assert forall x :: x in out <==> x == pairs[0] || x in tail;
      assert forall x :: x in pairs <==> x == pairs[0] || x in rest;
      assert rest != [] ==> Firsts(pairs)[0] < Firsts(pairs)[1] == rest[0].0;
      IncreasingCons(pairs[0].0, Firsts(tail));
      assert Firsts(out) == [pairs[0].0] + Firsts(tail);
    } else {
      var out := [p] + pairs;
      assert forall x :: x in out <==> x == p || x in pairs;
      IncreasingCons(p.0, Firsts(pairs));
      assert Firsts(out) == [p.0] + Firsts(pairs);
    }
  }

  lemma {:induction false} IncreasingCons(x: int, ids: seq<int>)
    requires StrictlyIncreasing(ids) && (ids != [] ==> x < ids[0])
    ensures StrictlyIncreasing([x] + ids)
  {
  }

  lemma {:induction false} SortedPairsMeaning(s: Slots, n: nat)
    requires Bijection(s) && n <= s.next
    ensures var pairs := SortedPairs(s.bySlot, n);
      && StrictlyIncreasing(Firsts(pairs))
      && (forall x :: x in pairs <==> x.0 in s.byPrompt && x.1 == s.byPrompt[x.0] && x.1 < n)
  {
    if n > 0 {
      SortedPairsMeaning(s, n - 1);
      var before, p := SortedPairs(s.bySlot, n - 1), (s.bySlot[n - 1], n - 1);
      forall i | 0 <= i < |before| ensures before[i].0 != p.0 { assert before[i] in before; }
      InsertSortedMeaning(before, p);
      assert p.0 in s.byPrompt && s.byPrompt[p.0] == n - 1;
      var out := SortedPairs(s.bySlot, n);
      forall x: (int, int) ensures x in out <==> x.0 in s.byPrompt && x.1 == s.byPrompt[x.0] && x.1 < n {
        assert x in out <==> x in before || x == p;
        if x.0 in s.byPrompt && x.1 == s.byPrompt[x.0] == n - 1 { assert s.bySlot[n - 1] == x.0; }
      }
    }
  }

  lemma {:induction false} SortedPairsImage(s: Slots)
    requires Bijection(s)
    ensures var pairs := SortedPairs(s.bySlot, s.next); SortedImage(Firsts(pairs), Seconds(pairs), s.byPrompt)
  {
    SortedPairsMeaning(s, s.next);
    var pairs := SortedPairs(s.bySlot, s.next);
    forall i | 0 <= i < |pairs| ensures pairs[i].0 in s.byPrompt && pairs[i].1 == s.byPrompt[pairs[i].0] {
      assert pairs[i] in pairs;
    }
    forall p | p in s.byPrompt ensures p in Firsts(pairs) {
      var i :| 0 <= i < |pairs| && pairs[i] == (p, s.byPrompt[p]);
      assert Firsts(pairs)[i] == p;
    }
  }

  /** Whether reused or rebuilt, the sorted lookup is exactly the sorted prompt_to_slot. */
  lemma {:induction false} LookupCoherent(t: Table, device: int)
    requires Coherent(t)
    ensures Coherent(Lookup(t, device).0) && Lookup(t, device).0.slots == t.slots
    ensures Lookup(t, device).1.Some? ==> Lookup(t, device).0.cache.device == Some(device)
    ensures var r := Lookup(t, device).1;
      && (r.None? <==> t.slots.byPrompt == map[])
      && (r.Some? ==> SortedImage(r.value.1, r.value.2, t.slots.byPrompt))
      && (r.Some? && r.value.0.Some? ==> DenseSound(r.value.0.value, t.slots.byPrompt))
  {
    hide SortedImage, DenseSound, Bijection;
    SortedPairsImage(t.slots);
  }
}
