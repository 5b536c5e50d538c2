/** The slot bookkeeping of the training engine as it runs: dictionaries updated in place and a
    dense lookup buffer that is refilled and written by index. */
module SlotEngine {
  import opened Common
  import opened Rows
  import Spec = SlotTable
  import opened SlotLookup

  class ModelBankSlots {
    var cfg: Spec.Config
    var device: int
    var hidden: nat
    var dtype: int
    var pipeline: Option<Spec.Shape>
    var bank: Option<nat>
    var promptToSlot: map<int, nat>
    var slotToPrompt: map<nat, int>
    var nextSlot: nat
    var perRequest: set<int>
    var cache: Spec.Cache
    var dense: array?<int>
    var denseDevice: int

    ghost function View(): Spec.Table
      reads this, dense
    {
      Spec.Table(cfg, device, hidden, dtype, pipeline, bank, Spec.Slots(promptToSlot, slotToPrompt, nextSlot),
        perRequest, cache,
                 if dense == null then None else Some(Spec.Dense(denseDevice, dense[..])))
    }

    constructor (cfg: Spec.Config, device: int)
      ensures View() == Fresh(cfg, device) && dense == null
    {
      this.cfg, this.device, hidden, dtype, pipeline, bank := cfg, device, 0, 0, None, None;
      promptToSlot, slotToPrompt, nextSlot, perRequest := map[], map[], 0, {};
      cache, dense, denseDevice := Spec.Cache(None, -1, None), null, 0;
    }

    /** _reset_runtime_cache, the part about slots and lookups */
    method ResetRuntimeCache()
      modifies this, dense
      ensures View() == Spec.ResetCache(old(View())) && dense == old(dense)
    {
      promptToSlot, slotToPrompt, nextSlot := map[], map[], 0;
      if dense != null {
        forall i | 0 <= i < dense.Length { dense[i] := -1; }
        assert dense[..] == Spec.Blank(dense.Length);
      }
      cache := Spec.Cache(cache.device, 0, None);
    }

    /** _ensure_sampling_lookup_storage: reuse and refill, or allocate. */
    method EnsureStorage() returns (ok: bool)
      modifies this`dense, this`denseDevice, dense
      ensures ok == Spec.EnsureStorage(old(View())).Ok?
      ensures View() == if ok then Spec.EnsureStorage(old(View())).value else old(View())
      ensures dense == old(dense) || fresh(dense)
    {
      if hidden == 0 { return true; }
      if pipeline.None? { return false; }
      var slots := if bank.Some? then bank.value else Spec.Wanted(cfg);
      var wanted := Spec.LookupCapacity(slots, pipeline.value.rows);
      if dense != null && denseDevice == device && dense.Length >= wanted {
        forall i | 0 <= i < dense.Length { dense[i] := -1; }
        assert dense[..] == Spec.Blank(dense.Length);
      } else {
        dense := new int[wanted](_ => -1);
        denseDevice := device;
        assert dense[..] == Spec.Blank(wanted);
      }
      return true;
    }

    /** configure: every setting but the flush interval is in the resource signature. */
    method Configure(wanted: Spec.Config)
      modifies this, dense
      ensures View() == Spec.Configure(old(View()), wanted) && (dense == null || dense == old(dense))
    {
      var resources, flush := wanted.(flush := 0) != cfg.(flush := 0), wanted.flush != cfg.flush;
      cfg := wanted;
      if resources {
        perRequest, cache, dense, bank := {}, Spec.Cache(None, -1, None), null, None;
        ResetRuntimeCache();
      } else if flush {
        ResetRuntimeCache();
      }
    }

    /** _ensure_pipeline, the part about slots and lookups */
    method EnsurePipeline(rows: nat)
      modifies this, dense
      ensures View() == Spec.EnsurePipeline(old(View()), rows) && dense == old(dense)
    {
      var wanted := Spec.Shape(cfg.pipelineSlots, rows, hidden, dtype, device);
      if pipeline == Some(wanted) { return; }
      pipeline := Some(wanted);
      ResetRuntimeCache();
    }

    /** _ensure_model_bank_resources */
    method EnsureBank()
      modifies this, dense
      ensures View() == Spec.EnsureBank(old(View())) && (dense == old(dense) || fresh(dense))
    {
      if bank == Some(Spec.Wanted(cfg)) { return; }
      bank := Some(Spec.Wanted(cfg));
      var ok := EnsureStorage();
      if ok { ResetRuntimeCache(); }
    }

    /** ensure_resources */
    method EnsureResources(device: int, rows: nat, hidden: nat, dtype: int)
      requires hidden > 0
      modifies this, dense
      ensures View() == Spec.EnsureResources(old(View()), device, rows, hidden, dtype)
      ensures dense == old(dense) || fresh(dense)
    {
      hide Spec.ResetCache, Spec.EnsurePipeline, Spec.EnsureBank;
      var changed := device != this.device || hidden != this.hidden || dtype != this.dtype;
      if device != this.device { pipeline := None; }
      this.device, this.hidden, this.dtype := device, hidden, dtype;
      if changed {
        perRequest, bank := {}, None;
        ResetRuntimeCache();
      }
      EnsurePipeline(rows);
      if cfg.perRequest && cfg.perBank { EnsureBank(); }
    }

    /** _assign_model_bank_slot */
    method AssignModelBankSlot(prompt: int) returns (r: Result<nat, Spec.Error>)
      modifies this`promptToSlot, this`slotToPrompt, this`nextSlot, this`perRequest, this`cache
      ensures (View(), r) == Spec.Assign(old(View()), prompt)
    {
      if prompt in promptToSlot { return Ok(promptToSlot[prompt]); }
      var capacity := if bank.Some? then bank.value else Spec.Wanted(cfg);
      if nextSlot >= capacity { return Err(Spec.SlotsExhausted); }
      var slot := nextSlot;
      promptToSlot, slotToPrompt, nextSlot := promptToSlot[prompt := slot], slotToPrompt[slot := prompt], nextSlot + 1;
      cache := Spec.Cache(None, -1, None);
      if hidden == 0 && prompt !in perRequest { return Err(Spec.NoHiddenLayout); }
      perRequest := perRequest + {prompt};
      return Ok(slot);
    }

    /** _write_sampling_lookup_dense_entries */
    method WriteDenseEntries(pairs: Spec.Pairs)
      modifies dense
      ensures View() == Spec.Stored(old(View()), pairs)
    {
      if dense == null { return; }
      ghost var before := dense[..];
      for i := 0 to |pairs|
        invariant dense[..] == Spec.WriteDense(before, pairs[..i])
      {
        assert pairs[..i + 1][..i] == pairs[..i];
        if 0 <= pairs[i].0 < dense.Length { dense[pairs[i].0] := pairs[i].1; }
      }
      assert pairs[..|pairs|] == pairs;
    }

    /** assign_sampling_model_bank_slots */
    method AssignForSampling(prompts: seq<int>) returns (r: Result<bool, Spec.Error>)
      modifies this, dense
      ensures (View(), r) == Spec.AssignForSampling(old(View()), prompts)
      ensures dense == old(dense) || fresh(dense)
    {
      if !(cfg.perRequest && cfg.perBank) { return Ok(!cfg.perRequest); }
      var ok := EnsureStorage();
      if !ok { return Err(Spec.NoPipeline); }
      if dense == null { return Ok(false); }
      ghost var t1 := View();
      hide Spec.AssignForSampling, Spec.Assign;
      var supported, pairs := true, [];
      for i := 0 to |prompts|
        invariant dense == old(dense) || fresh(dense)
        invariant dense != null && t1.dense.Some? && dense[..] == t1.dense.value.cells
        invariant Spec.AssignAll(t1, prompts, i) == (View(), Ok(pairs))
        invariant supported <==> forall k :: 0 <= k < i ==> prompts[k] < dense.Length
      {
        if prompts[i] >= 0 {
          var s := AssignModelBankSlot(prompts[i]);
          if s.Err? {
            StopsEarly(t1, prompts, i + 1, |prompts|);
            return Err(s.error);
          }
          pairs := pairs + [(prompts[i], s.value)];
          if prompts[i] >= dense.Length { supported := false; }
        }
      }
      WriteDenseEntries(pairs);
      return Ok(supported);
    }

    /** The selection loop of _train_model_bank: one row per slot, new prompts written to the
        dense lookup at the end. */
    method TrainSelect(prompts: seq<int>, active: nat) returns (r: Result<(seq<int>, seq<nat>), Spec.Error>)
      requires Spec.Coherent(View()) && hidden > 0
      modifies this`promptToSlot, this`slotToPrompt, this`nextSlot, this`perRequest, this`cache, dense
      ensures (View(), r) == Spec.TrainSelect(old(View()), prompts, active)
    {
      hide Spec.Coherent, Selecting, Spec.NewPairs, Spec.WriteDense, Spec.Assign;
      if active > |prompts| || exists r :: 0 <= r < active && prompts[r] < 0 { return Err(Spec.MissingPrompt); }
      ghost var t := View();
      var rows: seq<int>, slots: seq<nat>, seenSlots: set<nat>, fresh_: Spec.Pairs := [], [], {}, [];
      ghost var pairs: Spec.Pairs := [];
      SelectingStart(t, prompts);
      for i := 0 to active
        invariant Selecting(t, View(), prompts, i, pairs, rows, slots, seenSlots, fresh_)
      {
        ghost var before := View();
        var hadSlot := prompts[i] in promptToSlot;
        var s := AssignModelBankSlot(prompts[i]);
        SelectingStep(t, before, prompts, i, pairs, rows, slots, seenSlots, fresh_);
        if s.Err? {
          StopsEarly(t, prompts, i + 1, active);
          return Err(s.error);
        }
        if !hadSlot { fresh_ := fresh_ + [(prompts[i], s.value)]; }
        pairs := pairs + [(prompts[i], s.value)];
        if s.value !in seenSlots {
          seenSlots, rows, slots := seenSlots + {s.value}, rows + [i], slots + [s.value];
        }
      }
      SelectingEnd(t, View(), prompts, active, pairs, rows, slots, seenSlots, fresh_);
      WriteDenseEntries(fresh_);
      return Ok((rows, slots));
    }
  }

  ghost predicate Grows(m: map<int, nat>, m': map<int, nat>) { forall p :: p in m ==> p in m' && m'[p] == m[p] }

  lemma {:induction false} GrowsAt(m: map<int, nat>, m': map<int, nat>, p: int)
    requires Grows(m, m') && p in m
    ensures p in m' && m'[p] == m[p]
  {
  }

  /** The assigned pairs are the batch's prompts with their slots. */
  ghost predicate PairsMatch(m: map<int, nat>, prompts: seq<int>, i: nat, pairs: Spec.Pairs)
    requires i <= |prompts|
  {
    |pairs| == i && forall k :: 0 <= k < i ==>
      pairs[k].0 == prompts[k] && prompts[k] in m && pairs[k].1 == m[prompts[k]]
  }

  /** The selected rows are first rows, each with its prompt's slot. */
  ghost predicate RowsMatch(m: map<int, nat>, prompts: seq<int>, i: nat, rows: seq<int>, slots: seq<nat>)
    requires i <= |prompts|
  {
    rows == FirstRows(prompts, i) && |slots| == |rows| && forall k :: 0 <= k < |rows| ==>
      prompts[rows[k]] in m && slots[k] == m[prompts[rows[k]]]
  }

  ghost predicate SeenMatch(m: map<int, nat>, prompts: seq<int>, i: nat, seen: set<nat>)
    requires i <= |prompts|
  {
    && (forall k :: 0 <= k < i ==> prompts[k] in m)
    && forall s :: s in seen <==> exists k :: 0 <= k < i && m[prompts[k]] == s
  }

  /** Every known prompt was known before, or is one of the batch's first i. */
  ghost predicate KnownMatch(m0: map<int, nat>, m: map<int, nat>, prompts: seq<int>, i: nat)
    requires i <= |prompts|
  {
    (forall p :: p in m0 ==> p in m) && forall p :: p in m ==> p in m0 || p in prompts[..i]
  }

  /** Where the selection loop stands before row i: t is the table it started from, u the table now. */
  ghost predicate Selecting(t: Spec.Table, u: Spec.Table, prompts: seq<int>, i: nat, pairs: Spec.Pairs,
                            rows: seq<int>, slots: seq<nat>, seen: set<nat>, fresh_: Spec.Pairs)
    requires i <= |prompts|
  {
    var m := u.slots.byPrompt;
    && Spec.Coherent(u) && u.hidden > 0
    && Spec.AssignAll(t, prompts, i) == (u, Ok(pairs))
    && PairsMatch(m, prompts, i, pairs) && KnownMatch(t.slots.byPrompt, m, prompts, i)
    && RowsMatch(m, prompts, i, rows, slots) && SeenMatch(m, prompts, i, seen)
    && fresh_ == Spec.NewPairs(t.slots.byPrompt, pairs)
  }

  lemma {:induction false} SelectingStart(t: Spec.Table, prompts: seq<int>)
    requires Spec.Coherent(t) && t.hidden > 0
    ensures Selecting(t, t, prompts, 0, [], [], [], {}, [])
  {
  }

  lemma {:induction false} PairsNext(m: map<int, nat>, m': map<int, nat>, prompts: seq<int>, i: nat, pairs: Spec.Pairs)
    requires i < |prompts| && PairsMatch(m, prompts, i, pairs) && Grows(m, m') && prompts[i] in m'
    ensures PairsMatch(m', prompts, i + 1, pairs + [(prompts[i], m'[prompts[i]])])
  {
    forall k | 0 <= k < i ensures prompts[k] in m' && m'[prompts[k]] == m[prompts[k]] { GrowsAt(m, m', prompts[k]); }
  }

  lemma {:induction false} KnownNext(m0: map<int, nat>, m: map<int, nat>, m': map<int, nat>, prompts: seq<int>, i: nat)
    requires i < |prompts| && KnownMatch(m0, m, prompts, i) && Grows(m, m')
    requires forall p :: p in m' ==> p in m || p == prompts[i]
    ensures KnownMatch(m0, m', prompts, i + 1)
  {
    assert prompts[..i + 1] == prompts[..i] + [prompts[i]];
  }

  lemma {:induction false} RowsNext(m: map<int, nat>, m': map<int, nat>, prompts: seq<int>, i: nat, rows: seq<int>,
        slots: seq<nat>, first: bool)
    requires i < |prompts| && prompts[i] >= 0 && RowsMatch(m, prompts, i, rows, slots) && Grows(m, m')
    requires prompts[i] in m'
    requires first <==> prompts[i] !in prompts[..i]
    ensures RowsMatch(m', prompts, i + 1, if first then rows + [i] else rows, if first then slots + [m'[prompts[i]]]
      else slots)
  {
    forall k | 0 <= k < |rows|
      ensures prompts[rows[k]] in m' && m'[prompts[rows[k]]] == m[prompts[rows[k]]]
    {
      GrowsAt(m, m', prompts[rows[k]]);
    }
  }

  lemma {:induction false} SeenNext(m: map<int, nat>, m': map<int, nat>, prompts: seq<int>, i: nat, seen: set<nat>)
    requires i < |prompts| && SeenMatch(m, prompts, i, seen) && Grows(m, m') && prompts[i] in m'
    ensures SeenMatch(m', prompts, i, seen) && SeenMatch(m', prompts, i + 1, seen + {m'[prompts[i]]})
  {
    forall k | 0 <= k < i ensures prompts[k] in m' && m'[prompts[k]] == m[prompts[k]] { GrowsAt(m, m', prompts[k]); }
    forall s ensures s in seen <==> exists k :: 0 <= k < i && m'[prompts[k]] == s {
      if s in seen {
        var k :| 0 <= k < i && m[prompts[k]] == s;
        assert m'[prompts[k]] == s;
      }
      if k :| 0 <= k < i && m'[prompts[k]] == s { assert m[prompts[k]] == s; }
    }
    forall s ensures s in seen + {m'[prompts[i]]} <==> exists k :: 0 <= k < i + 1 && m'[prompts[k]] == s {
      if s in seen {
        var k :| 0 <= k < i && m'[prompts[k]] == s;
      }
    }
  }

  /** A slot was seen exactly when its prompt was: slots are one to one. */
  lemma {:induction false} SeenSlot(s: Spec.Slots, prompts: seq<int>, i: nat, p: int, seen: set<nat>)
    requires Spec.Bijection(s) && i <= |prompts| && p in s.byPrompt && SeenMatch(s.byPrompt, prompts, i, seen)
    ensures s.byPrompt[p] in seen <==> p in prompts[..i]
  {
    if s.byPrompt[p] in seen {
      var k :| 0 <= k < i && s.byPrompt[prompts[k]] == s.byPrompt[p];
      assert prompts[k] == p;
    }
    if p in prompts[..i] {
      var k :| 0 <= k < i && prompts[k] == p;
    }
  }

  lemma {:induction false} NewPairsStep(known: map<int, nat>, pairs: Spec.Pairs, x: (int, nat))
    ensures Spec.NewPairs(known, pairs + [x]) ==
      if x.0 in known || Spec.Has(pairs, x.0) then Spec.NewPairs(known, pairs) else Spec.NewPairs(known, pairs) + [x]
  {
    var longer := pairs + [x];
    assert longer[..|pairs|] == pairs;
    if Spec.Has(pairs, x.0) {
      var k :| 0 <= k < |pairs| && pairs[k].0 == x.0;
      assert longer[k].0 == x.0;
    }
  }

  lemma {:induction false} HasIsPrompt(m: map<int, nat>, pairs: Spec.Pairs, prompts: seq<int>, i: nat, p: int)
    requires i <= |prompts| && PairsMatch(m, prompts, i, pairs)
    ensures Spec.Has(pairs, p) <==> p in prompts[..i]
  {
    if p in prompts[..i] {
      var k :| 0 <= k < i && prompts[k] == p;
      assert pairs[k].0 == p;
    }
  }

  lemma {:induction false} CoherentBijection(t: Spec.Table)
    requires Spec.Coherent(t)
    ensures Spec.Bijection(t.slots)
  {
  }

  lemma {:induction false} SelectingStep(t: Spec.Table, u: Spec.Table, prompts: seq<int>, i: nat, pairs: Spec.Pairs,
                      rows: seq<int>, slots: seq<nat>, seen: set<nat>, fresh_: Spec.Pairs)
    requires i < |prompts| && prompts[i] >= 0 && Selecting(t, u, prompts, i, pairs, rows, slots, seen, fresh_)
    ensures var (u', r) := Spec.Assign(u, prompts[i]);
      if r.Err? then Spec.AssignAll(t, prompts, i + 1) == (u', Err(r.error))
      else
        var x := (prompts[i], r.value);
        var first := r.value !in seen;
        Selecting(t, u', prompts, i + 1, pairs + [x], if first then rows + [i] else rows,
                  if first then slots + [r.value] else slots, if first then seen + {r.value} else seen,
                  if prompts[i] in u.slots.byPrompt then fresh_ else fresh_ + [x])
  {
    hide Spec.Coherent, Spec.NewPairs, Spec.Assign, Spec.Has, Spec.Capacity, PairsMatch, RowsMatch, SeenMatch,
         KnownMatch;
    var p, m := prompts[i], u.slots.byPrompt;
    Spec.AssignCoherent(u, p);
    var (u', r) := Spec.Assign(u, p);
    if r.Ok? {
      var m', first := u'.slots.byPrompt, r.value !in seen;
      PairsNext(m, m', prompts, i, pairs);
      KnownNext(t.slots.byPrompt, m, m', prompts, i);
      SeenNext(m, m', prompts, i, seen);
      assert !first ==> seen + {r.value} == seen;
      CoherentBijection(u');
      SeenSlot(u'.slots, prompts, i, p, seen);
      RowsNext(m, m', prompts, i, rows, slots, first);
      NewPairsStep(t.slots.byPrompt, pairs, (p, r.value));
      HasIsPrompt(m, pairs, prompts, i, p);
      KnownBefore(t.slots.byPrompt, m, prompts, i, p, pairs);
    }
  }

  lemma {:induction false} KnownBefore(m0: map<int, nat>, m: map<int, nat>, prompts: seq<int>, i: nat, p: int,
        pairs: Spec.Pairs)
    requires i <= |prompts| && KnownMatch(m0, m, prompts, i) && PairsMatch(m, prompts, i, pairs)
    ensures p in m <==> p in m0 || p in prompts[..i]
  {
    if p in prompts[..i] { var k :| 0 <= k < i && prompts[k] == p; assert pairs[k].0 == p; }
  }

  lemma {:induction false} SelectingEnd(t: Spec.Table, u: Spec.Table, prompts: seq<int>, n: nat, pairs: Spec.Pairs,
                     rows: seq<int>, slots: seq<nat>, seen: set<nat>, fresh_: Spec.Pairs)
    requires n <= |prompts| && Selecting(t, u, prompts, n, pairs, rows, slots, seen, fresh_)
    requires forall k :: 0 <= k < n ==> prompts[k] >= 0
    ensures Spec.TrainSelect(t, prompts, n) == (Spec.Stored(u, fresh_), Ok((rows, slots)))
  {
    hide Spec.Coherent, Spec.NewPairs, Spec.AssignAll, Spec.WriteDense;
    var want := Spec.TrainSelect(t, prompts, n).1.value.1;
    forall k | 0 <= k < |rows| ensures want[k] == slots[k] { }
    assert want == slots;
  }

  /** An error stops the assignment loop for good. */
  lemma {:induction false} StopsEarly(t: Spec.Table, prompts: seq<int>, i: nat, n: nat)
    requires i <= n <= |prompts| && Spec.AssignAll(t, prompts, i).1.Err?
    ensures Spec.AssignAll(t, prompts, n) == Spec.AssignAll(t, prompts, i)
    decreases n
  {
    if i < n { StopsEarly(t, prompts, i, n - 1); }
  }
}
