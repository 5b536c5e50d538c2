/** Modified logits of sampling rows: what a row is modified by when rows are selected first and modified
    afterwards, with and without a row map. */
module SamplerRows {
  import opened Common
  import opened Logits
  import opened MinP
  import opened Rows
  import Candidates
  import Dedup

  // ---- inputs -------------------------------------------------------------------------

  /** Where a row's random numbers come from: its request's own generator, or the shared one. */
  datatype Rng = Own(gen: int) | Shared

  datatype Temperature = Absent | Scalar(t: real) | Host(ts: seq<real>) | Device(ts: seq<real>)

  datatype Metadata = Metadata(allGreedy: bool, allRandom: bool, temperature: Temperature, topK: Option<seq<int>>,
    topP: Option<seq<real>>, minP: Option<seq<real>>, generators: map<int, int>)

  datatype State = State(beta: real, affected: seq<int>, pred: seq<Row>, head: Dedup.Head,
    denseCache: bool, dense: Option<seq<seq<real>>>, rowMap: Option<seq<int>>)

  /** Row-local operations of the host sampler: top-k/top-p masking, and one draw. */
  datatype Ops = Ops(filter: (seq<Logit>, Option<int>, Option<real>) -> seq<Logit>,
    draw: (seq<Logit>, Option<int>, Option<real>, Rng) -> int, log: Log)

  ghost predicate KeepsVocab(ops: Ops) { forall row, k, p :: |ops.filter(row, k, p)| == |row| }

  function At<T>(xs: Option<seq<T>>, r: int): Option<T> {
    if xs.Some? && 0 <= r < |xs.value| then Some(xs.value[r]) else None
  }

  ghost predicate MetadataOk(meta: Metadata, rows: nat) {
    && (meta.topK.Some? ==> |meta.topK.value| == rows)
    && (meta.topP.Some? ==> |meta.topP.value| == rows)
    && (meta.minP.Some? ==> |meta.minP.value| == rows)
  }

  ghost predicate StateOk(s: State, vocab: nat) {
    && Dedup.HeadOk(s.head) && |s.head.weight| == vocab
    && (s.dense.Some? ==> |s.dense.value| == |s.pred| && forall u :: 0 <= u < |s.pred| ==> |s.dense.value[u]| == vocab)
  }

  // ---- one row -----------------------------------------------------------------------------

  function GenFor(gens: map<int, int>, r: int): Rng { if r in gens then Own(gens[r]) else Shared }

  /** The logits come from the dense cache, by tensor indexing, rather than from a projection. */
  predicate FromCache(s: State) { s.denseCache && s.dense.Some? }

  /** Which predicted row local row j reads; None is a lookup out of range. */
  function Served(s: State, j: int): (u: Option<nat>)
    ensures u.Some? ==> u.value < |s.pred|
  {
    if s.rowMap.None? then Dedup.Lookup(j, |s.pred|, false)
    else if 0 <= j < |s.rowMap.value| then Dedup.Lookup(s.rowMap.value[j], |s.pred|, FromCache(s))
    else None
  }

  function Distiller(s: State, vocab: nat, u: nat, t: nat): real
    requires StateOk(s, vocab) && u < |s.pred| && t < vocab
  {
    if FromCache(s) then s.dense.value[u][t] else Dedup.HeadLogit(s.pred[u], s.head, t)
  }

  function Filtered(row: seq<Logit>, meta: Metadata, r: int, ops: Ops): (out: seq<Logit>)
    requires KeepsVocab(ops) && |row| > 0
    ensures |out| == |row|
  {
    var f := ops.filter(row, At(meta.topK, r), At(meta.topP, r));
    if At(meta.minP, r).None? then f else Masked(f, TorchKeep(f, At(meta.minP, r).value, ops.log))
  }

  /** apply_candidate_intervention on one row's finite logits */
  function Intervened(row: seq<Logit>, s: State, u: nat): (out: seq<Logit>)
    requires StateOk(s, |row|) && u < |s.pred|
    ensures |out| == |row|
  {
    seq(|row|, t requires 0 <= t < |row| =>
      if row[t].NegInf? then NegInf else Fin(Candidates.Blend(s.beta, row[t].v, Distiller(s, |row|, u, t))))
  }

  function ModifiedRow(row: seq<Logit>, meta: Metadata, r: int, s: State, u: nat, ops: Ops): (out: seq<Logit>)
    requires KeepsVocab(ops) && |row| > 0 && StateOk(s, |row|) && u < |s.pred|
    ensures |out| == |row|
  {
    Intervened(Filtered(row, meta, r, ops), s, u)
  }

  /** The intervention keeps the mask, and each surviving logit becomes (1 + beta) llm - beta distiller. */
  lemma {:induction false} ModifiedMeaning(row: seq<Logit>, meta: Metadata, r: int, s: State, u: nat, ops: Ops, t: nat)
    requires KeepsVocab(ops) && |row| > 0 && StateOk(s, |row|) && u < |s.pred| && t < |row|
    ensures ModifiedRow(row, meta, r, s, u, ops)[t].NegInf? <==> Filtered(row, meta, r, ops)[t].NegInf?
    ensures var llm := Filtered(row, meta, r, ops)[t]; llm.Fin? ==>
      ModifiedRow(row, meta, r, s, u, ops)[t].v == llm.v + s.beta * (llm.v - Distiller(s, |row|, u, t))
  {
  }

  /** The candidate sampler's modified row is the intervention on the min-p filtered row. */
  lemma {:induction false} ModifiedFromCandidates(row: seq<Logit>, keep: seq<bool>, s: State, u: nat, dist: nat -> real)
    requires |keep| == |row| && StateOk(s, |row|) && u < |s.pred|
    requires forall t: nat :: t < |row| ==> dist(t) == Distiller(s, |row|, u, t)
    ensures Candidates.Modified(row, keep, s.beta, dist) == Intervened(Masked(row, keep), s, u)
  {
    hide Distiller, StateOk;
    var want, got := Intervened(Masked(row, keep), s, u), Candidates.Modified(row, keep, s.beta, dist);
    forall t: nat | t < |row| ensures got[t] == want[t] {
      assert Masked(row, keep)[t] == if keep[t] then row[t] else NegInf;
    }
  }

  /** Without noise, candidate sampling draws from the argmax set of the row that the exact path
      builds: filtered by min-p, then intervened. */
  lemma {:induction false} GreedyDrawIsExactArgMax(logits: seq<seq<Logit>>, minP: seq<real>, log: Log, s: State, u: nat,
                                                   dist: Candidates.PerCandidate, r: nat, token: nat)
    requires |minP| == |logits| && (forall k :: 0 <= k < |logits| ==> |logits[k]| > 0) && r < |logits|
    requires Top(logits[r]).Fin?
    requires StateOk(s, |logits[r]|) && u < |s.pred|
    requires forall t: nat :: t < |logits[r]| ==> dist(Candidates.Candidate(r, t)) == Distiller(s, |logits[r]|, u, t)
    requires Candidates.Winner(Candidates.Flat(Candidates.TorchMask(logits, minP, log)),
      c => Candidates.Score(logits, s.beta, dist, _ => 0.0, c), Candidates.Candidate(r, token))
    ensures token < |logits[r]|
    ensures var out := Intervened(Masked(logits[r], TorchKeep(logits[r], minP[r], log)), s, u);
      out[token] == Top(out) && out[token].Fin?
  {
    hide Distiller, StateOk, Candidates.Winner, Candidates.Flat, Candidates.Modified, Candidates.Score, Intervened;
    var mask := Candidates.TorchMask(logits, minP, log);
    Candidates.FiniteRowKeeps(logits[r], minP[r], log);
    Candidates.GreedyIsArgMax(logits, mask, s.beta, dist, r, token);
    ModifiedFromCandidates(logits[r], mask[r], s, u, (t: nat) => dist(Candidates.Candidate(r, t)));
  }

  // ---- selecting rows -----------------------------------------------------------------------

  /** _select_generators: the generators of the chosen rows under their new positions. */
  method SelectGenerators(generators: map<int, int>, ids: seq<int>) returns (selected: map<int, int>)
    ensures forall j :: 0 <= j < |ids| ==> GenFor(selected, j) == GenFor(generators, ids[j])
    ensures forall j :: j in selected ==> 0 <= j < |ids|
  {
    selected := map[];
    if generators == map[] { return; }
    for i := 0 to |ids|
      invariant forall j :: 0 <= j < i ==> GenFor(selected, j) == GenFor(generators, ids[j])
      invariant forall j :: j in selected ==> 0 <= j < i
    {
      if ids[i] in generators { selected := selected[i := generators[ids[i]]]; }
    }
  }

  function Positions(affected: seq<int>, ids: seq<int>): (pos: seq<int>)
    ensures |pos| == |ids|
  {
    seq(|ids|, j requires 0 <= j < |ids| => SearchSorted(affected, ids[j]))
  }

  predicate Below(pos: seq<int>, n: nat) { forall j :: 0 <= j < |pos| ==> 0 <= pos[j] < n }

  /** _subset_modifier_state; None is an index_select out of range. */
  function SubsetState(s: State, ids: seq<int>): Option<State> {
    var pos := Positions(s.affected, ids);
    if !Below(pos, |s.pred|) || (s.dense.Some? && !Below(pos, |s.dense.value|))
      || (s.rowMap.Some? && !Below(pos, |s.rowMap.value|))
    then None
    else Some(s.(affected := ids, pred := Gather(s.pred, pos),
      dense := if s.dense.None? then None else Some(Gather(s.dense.value, pos)),
      rowMap := if s.rowMap.None? then None else Some(Gather(s.rowMap.value, pos))))
  }

  ghost predicate Chosen(s: State, ids: seq<int>) {
    StrictlyIncreasing(s.affected) && |s.pred| == |s.affected| && forall j :: 0 <= j < |ids| ==> ids[j] in s.affected
  }

  /** The prediction that local row j of a subset reads, as an index into the whole state's; None is a
      lookup out of range. */
  function SubsetReads(s: State, ids: seq<int>, j: nat): (u: Option<nat>)
    ensures u.Some? ==> j < |ids| && u.value < |s.pred|
  {
    var sub := SubsetState(s, ids);
    if sub.None? || j >= |ids| || Served(sub.value, j).None? then None
    else Some(Positions(s.affected, ids)[Served(sub.value, j).value])
  }

  /** The prediction of row r itself. */
  function OwnReads(s: State, r: int): (u: Option<nat>)
    ensures u.Some? ==> u.value < |s.pred|
  {
    Served(s, SearchSorted(s.affected, r))
  }

  /** With and without dense logits, what a subset blends in is the whole state's logit of the prediction
      it reads. */
  lemma {:induction false} SubsetRowMeaning(s: State, ids: seq<int>, vocab: nat, j: nat)
    requires StateOk(s, vocab) && SubsetReads(s, ids, j).Some?
    ensures var sub, u := SubsetState(s, ids).value, SubsetReads(s, ids, j).value;
      && StateOk(sub, vocab) && Served(sub, j).Some?
      && forall t: nat :: t < vocab ==> Distiller(sub, vocab, Served(sub, j).value, t) == Distiller(s, vocab, u, t)
  {
    SubsetOk(s, ids, vocab);
  }

  lemma {:induction false} SubsetOk(s: State, ids: seq<int>, vocab: nat)
    requires StateOk(s, vocab) && SubsetState(s, ids).Some?
    ensures StateOk(SubsetState(s, ids).value, vocab)
  {
  }

  /** Without a row map, a subset's rows read their own predictions. */
  lemma {:induction false} SubsetReadsOwn(s: State, ids: seq<int>, j: nat)
    requires Chosen(s, ids) && s.rowMap.None? && j < |ids| && (s.dense.Some? ==> |s.dense.value| == |s.pred|)
    ensures SubsetReads(s, ids, j) == OwnReads(s, ids[j])
    ensures OwnReads(s, ids[j]).Some? && s.affected[OwnReads(s, ids[j]).value] == ids[j]
  {
    var pos := Positions(s.affected, ids);
    forall i | 0 <= i < |ids|
      ensures 0 <= pos[i] < |s.pred| && s.affected[pos[i]] == ids[i]
    {
      SearchSortedFinds(s.affected, ids[i]);
    }
    assert Below(pos, |s.pred|);
  }

  // ---- the row map ------------------------------------------------------------------------

  /** The state of a step whose predictions were made once per prompt; all decode rows are affected, with
      or without a prompt. */
  ghost predicate DedupState(s: State, prompts: seq<int>, rows: seq<int>, unique: seq<int>) {
    && s.rowMap.Some? && Dedup.IsDedup(prompts, rows, unique, s.rowMap.value) && rows != []
    && s.affected == Arange(|prompts|) && |s.pred| == |rows| && (s.dense.Some? ==> |s.dense.value| == |s.pred|)
  }

  /** Row r's own prediction is its prompt's; a row without a prompt has none. */
  function OwnPrediction(s: State, r: int): (u: Option<nat>)
    requires s.rowMap.Some? && 0 <= r < |s.rowMap.value|
  {
    if s.rowMap.value[r] >= 0 then Some(s.rowMap.value[r]) else None
  }

  /** The whole state serves a row with a prompt its own prediction.  For a row without one, the projection
      is out of range, and the dense cache serves the last prompt's prediction. */
  lemma {:induction false} OwnReadsMap(s: State, prompts: seq<int>, rows: seq<int>, unique: seq<int>, r: int)
    requires DedupState(s, prompts, rows, unique) && 0 <= r < |prompts|
    ensures SearchSorted(s.affected, r) == r && |s.rowMap.value| == |prompts|
    ensures -1 <= s.rowMap.value[r] < |s.pred| && (s.rowMap.value[r] >= 0 <==> prompts[r] >= 0)
    ensures OwnReads(s, r) ==
      if prompts[r] >= 0 then OwnPrediction(s, r) else if FromCache(s) then Some(|s.pred| - 1) else None
  {
    assert s.affected[r] == r;
    SearchSortedAt(s.affected, r);
  }

  lemma {:induction false} DedupPositions(s: State, prompts: seq<int>, rows: seq<int>, unique: seq<int>, ids: seq<int>)
    requires DedupState(s, prompts, rows, unique) && forall j :: 0 <= j < |ids| ==> 0 <= ids[j] < |prompts|
    ensures Positions(s.affected, ids) == ids
  {
    forall j | 0 <= j < |ids| ensures SearchSorted(s.affected, ids[j]) == ids[j] {
      OwnReadsMap(s, prompts, rows, unique, ids[j]);
    }
  }

  lemma {:induction false} MapLength(s: State, prompts: seq<int>, rows: seq<int>, unique: seq<int>)
    requires DedupState(s, prompts, rows, unique)
    ensures s.rowMap.Some? && |s.rowMap.value| == |prompts| && |s.pred| > 0
  {
  }

  /** A subset of a deduplicated state can be selected if and only if the chosen rows are below the number
      of predictions. */
  lemma {:induction false} DedupSubsetExists(s: State, prompts: seq<int>, rows: seq<int>, unique: seq<int>,
        ids: seq<int>)
    requires DedupState(s, prompts, rows, unique) && ids != [] && StrictlyIncreasing(ids)
    requires forall k :: 0 <= k < |ids| ==> 0 <= ids[k] < |prompts|
    ensures SubsetState(s, ids).Some? <==> ids[|ids| - 1] < |s.pred|
  {
    hide Dedup.IsDedup;
    DedupPositions(s, prompts, rows, unique, ids);
    MapLength(s, prompts, rows, unique);
    if ids[|ids| - 1] < |s.pred| {
      forall k | 0 <= k < |ids| ensures 0 <= ids[k] < |s.pred| { assert k == |ids| - 1 || ids[k] < ids[|ids| - 1]; }
      assert Below(ids, |s.pred|);
    } else {
      assert !Below(ids, |s.pred|);
    }
  }

  /** Row j of a subset of a deduplicated state reads through the chosen positions twice: its own entry
      counts among them, from the end for a row without a prompt. */
  lemma {:induction false} DedupSubsetReads(s: State, prompts: seq<int>, rows: seq<int>, unique: seq<int>,
        ids: seq<int>, j: nat)
    requires DedupState(s, prompts, rows, unique) && j < |ids| && StrictlyIncreasing(ids)
    requires forall k :: 0 <= k < |ids| ==> 0 <= ids[k] < |prompts|
    ensures |s.rowMap.value| == |prompts|
    ensures SubsetReads(s, ids, j) == ReadsTwice(s.rowMap.value, |s.pred|, FromCache(s), ids, j)
  {
    hide Dedup.IsDedup;
    DedupPositions(s, prompts, rows, unique, ids);
    OwnReadsMap(s, prompts, rows, unique, ids[j]);
    DedupSubsetExists(s, prompts, rows, unique, ids);
  }

  /** What row j of the chosen rows reads when the map is applied to positions among them. */
  ghost function ReadsTwice(m: seq<int>, n: nat, wraps: bool, ids: seq<int>, j: int): Option<nat>
    requires 0 <= j < |ids| && forall k :: 0 <= k < |ids| ==> 0 <= ids[k] < |m|
  {
    var u := Dedup.Lookup(m[ids[j]], |ids|, wraps);
    if ids[|ids| - 1] < n && u.Some? then Some(ids[u.value]) else None
  }

  /** The chosen rows lie among the first n, and start with every row up to the prediction that row
      number j of them maps to. */
  ghost predicate Prefixed(rowMap: seq<int>, n: nat, ids: seq<int>, j: int)
    requires 0 <= j < |ids| && forall k :: 0 <= k < |ids| ==> 0 <= ids[k] < |rowMap|
  {
    ids[|ids| - 1] < n && forall i :: 0 <= i <= rowMap[ids[j]] ==> i < |ids| && ids[i] == i
  }

  /** For a row with a prompt, reading through the chosen positions twice is reading once if and only if
      they are prefixed. */
  lemma {:induction false} TwiceIsOnce(m: seq<int>, n: nat, wraps: bool, ids: seq<int>, j: nat)
    requires j < |ids| && StrictlyIncreasing(ids) && forall k :: 0 <= k < |ids| ==> 0 <= ids[k] < |m|
    requires 0 <= m[ids[j]] < n
    ensures ReadsTwice(m, n, wraps, ids, j) == Some(m[ids[j]]) <==> Prefixed(m, n, ids, j)
  {
    var u := m[ids[j]];
    if ReadsTwice(m, n, wraps, ids, j) == Some(u) {
      assert ids[u] == u;
      forall i | 0 <= i <= u ensures i < |ids| && ids[i] == i {
        IncreasingAtLeast(ids, 0, i);
        IncreasingAtLeast(ids, i, u);
      }
    }
    if Prefixed(m, n, ids, j) { assert u < |ids| && ids[u] == u; }
  }

  /** What a caller can check before choosing rows: row number j of them is modified as in the whole
      batch. */
  ghost predicate Kept(s: State, ids: seq<int>, j: int)
    requires s.rowMap.Some? && 0 <= j < |ids| && forall k :: 0 <= k < |ids| ==> 0 <= ids[k] < |s.rowMap.value|
  {
    if s.rowMap.value[ids[j]] >= 0 then Prefixed(s.rowMap.value, |s.pred|, ids, j)
    else !FromCache(s) || ids[|ids| - 1] == |s.pred| - 1
  }

  /** Row number j of the chosen rows is modified by its own prediction, or by none if it has no prompt. */
  ghost predicate KeptOwn(s: State, ids: seq<int>, j: int)
    requires s.rowMap.Some? && 0 <= j < |ids| && forall k :: 0 <= k < |ids| ==> 0 <= ids[k] < |s.rowMap.value|
  {
    if s.rowMap.value[ids[j]] >= 0 then Prefixed(s.rowMap.value, |s.pred|, ids, j)
    else !FromCache(s) || ids[|ids| - 1] >= |s.pred|
  }

  /** Over real row maps, with and without prompts, by projection and from the dense cache: a row of a
      subset reads what the whole state reads for it if and only if it has a prompt and the chosen rows are
      prefixed for it, or it has none and nothing is read for it or the last chosen row is the last
      prediction.  It reads its own prediction, or none without a prompt, if and only if they are prefixed
      for it, or it has no prompt and nothing is read for it. */
  lemma {:induction false} SubsetExactly(s: State, prompts: seq<int>, rows: seq<int>, unique: seq<int>, ids: seq<int>,
                                         j: nat)
    requires DedupState(s, prompts, rows, unique) && j < |ids| && StrictlyIncreasing(ids)
    requires forall k :: 0 <= k < |ids| ==> 0 <= ids[k] < |prompts|
    ensures |s.rowMap.value| == |prompts|
    ensures SubsetReads(s, ids, j) == OwnReads(s, ids[j]) <==> Kept(s, ids, j)
    ensures SubsetReads(s, ids, j) == OwnPrediction(s, ids[j]) <==> KeptOwn(s, ids, j)
  {
    hide DedupState, SubsetReads, OwnReads, Prefixed, StrictlyIncreasing;
    MapLength(s, prompts, rows, unique);
    OwnReadsMap(s, prompts, rows, unique, ids[j]);
    DedupSubsetReads(s, prompts, rows, unique, ids, j);
    var m := s.rowMap.value;
    if m[ids[j]] >= 0 { TwiceIsOnce(m, |s.pred|, FromCache(s), ids, j); }
  }

  /** Three rows of prompts A, A, B have the map [0, 0, 1] over two predictions. Selecting row 1 alone
      reads B's prediction for a row of A; selecting row 2 is out of range. */
  lemma {:induction false} DedupBreaksSubsets(s: State)
    requires s.affected == [0, 1, 2] && s.rowMap == Some([0, 0, 1]) && |s.pred| == 2
    requires s.dense.Some? ==> |s.dense.value| == 2
    ensures OwnReads(s, 1) == Some(0) && SubsetReads(s, [1], 0) == Some(1)
    ensures SubsetState(s, [2]) == None
  {
    SearchSortedAt(s.affected, 1);
    SearchSortedAt(s.affected, 2);
    assert Positions(s.affected, [1]) == [1];
    assert Positions(s.affected, [2])[0] == 2;
  }
}
