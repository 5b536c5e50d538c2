/** sample_with_optional_modifier for the post-filter backends: rows are split by temperature and by
    intervention, sampled group by group and written into one result. */
module SamplerBridge {
  import opened Common
  import opened Logits
  import opened MinP
  import opened Rows
  import opened SamplerRows
  import Dedup

  // ---- classification ------------------------------------------------------------------

  const SAMPLING_EPS: real := 0.00001

  datatype Mode = AllGreedy | AllRandom | Mixed

  /** _classify_temperature_mode: a device tensor is never inspected. */
  function Classify(meta: Metadata): Mode {
    if meta.allGreedy then AllGreedy
    else if meta.allRandom then AllRandom
    else match meta.temperature
      case Absent => AllRandom
      case Scalar(t) => if t < SAMPLING_EPS then AllGreedy else AllRandom
      case Device(ts) => if ts == [] then AllRandom else Mixed
      case Host(ts) =>
        if ts == [] then AllRandom
        else if forall t :: t in ts ==> t < SAMPLING_EPS then AllGreedy
        else if forall t :: t in ts ==> t >= SAMPLING_EPS then AllRandom
        else Mixed
  }

  function Temperatures(meta: Metadata): seq<real> {
    match meta.temperature case Host(ts) => ts case Device(ts) => ts case _ => []
  }

  /** Row r is decoded greedily. A mixed batch without given greedy tokens is sampled throughout. */
  predicate Greedy(meta: Metadata, given: Option<seq<int>>, r: int) {
    match Classify(meta)
    case AllGreedy => true
    case AllRandom => false
    case Mixed => given.Some? && 0 <= r < |Temperatures(meta)| && Temperatures(meta)[r] < SAMPLING_EPS
  }

  /** A host batch that is classified as uniform treats each row by its own temperature. */
  lemma {:induction false} ClassifyRespectsRows(meta: Metadata, given: Option<seq<int>>, r: nat)
    requires !meta.allGreedy && !meta.allRandom && r < |Temperatures(meta)|
    requires (meta.temperature.Host? || meta.temperature.Device?)
    requires given.Some? || Classify(meta) != Mixed
    ensures Greedy(meta, given, r) <==> Temperatures(meta)[r] < SAMPLING_EPS
  {
    assert Temperatures(meta)[r] in Temperatures(meta);
  }

  /** Which rows are greedy, from the metadata alone: a flag decides first, then the temperatures.  A batch
      of several temperatures has greedy rows only if it was given greedy tokens. */
  lemma {:induction false} GreedyExactly(meta: Metadata, given: Option<seq<int>>, r: nat)
    ensures meta.allGreedy ==> Greedy(meta, given, r)
    ensures !meta.allGreedy && meta.allRandom ==> !Greedy(meta, given, r)
    ensures !meta.allGreedy && !meta.allRandom ==>
      match meta.temperature
      case Absent => !Greedy(meta, given, r)
      case Scalar(t) => Greedy(meta, given, r) <==> t < 0.00001
      case Host(ts) =>
        Greedy(meta, given, r) <==>
          ts != [] && ((forall t :: t in ts ==> t < 0.00001) || (given.Some? && r < |ts| && ts[r] < 0.00001))
      case Device(ts) => Greedy(meta, given, r) <==> given.Some? && r < |ts| && ts[r] < 0.00001
  {
    if meta.temperature.Host? {
      var ts := meta.temperature.ts;
      assert r < |ts| ==> ts[r] in ts;
      if ts != [] { assert ts[0] in ts; }
    }
  }

  // ---- the specification ---------------------------------------------------------------------

  datatype Step = Step(rows: seq<seq<Logit>>, vocab: nat, meta: Metadata, s: State, given: Option<seq<int>>, ops: Ops)

  ghost predicate StepOk(x: Step) {
    && KeepsVocab(x.ops) && MetadataOk(x.meta, |x.rows|)
    && x.vocab > 0 && StateOk(x.s, x.vocab) && (forall r :: 0 <= r < |x.rows| ==> |x.rows[r]| == x.vocab)
    && (Classify(x.meta) == Mixed ==> |Temperatures(x.meta)| == |x.rows|)
    && (x.given.Some? ==> |x.given.value| == |x.rows|)
    && 0 < |x.s.affected| && StrictlyIncreasing(x.s.affected)
      && (forall k :: 0 <= k < |x.s.affected| ==> 0 <= x.s.affected[k] < |x.rows|)
  }

  ghost predicate OneWay(x: Step) {
    forall a, b :: 0 <= a < |x.rows| && 0 <= b < |x.rows| ==> Greedy(x.meta, x.given, a) == Greedy(x.meta, x.given, b)
  }

  /** The whole batch is affected and decoded one way: it is modified without selecting rows. */
  ghost predicate Whole(x: Step) { |x.s.affected| == |x.rows| && OneWay(x) }

  predicate InGroup(x: Step, affected: bool, greedy: bool, r: int) {
    (r in x.s.affected) == affected && Greedy(x.meta, x.given, r) == greedy
  }

  /** The rows of one group, as a mask's nonzero. */
  function Group(x: Step, affected: bool, greedy: bool): (ids: seq<int>)
    ensures forall k :: 0 <= k < |ids| ==> 0 <= ids[k] < |x.rows| && InGroup(x, affected, greedy, ids[k])
  {
    Nonzero(seq(|x.rows|, r requires 0 <= r < |x.rows| => InGroup(x, affected, greedy, r)))
  }

  /** The prediction that local row k of a selection reads; None is a lookup out of range. */
  function Reads(x: Step, ids: seq<int>, allRows: bool, k: nat): (u: Option<nat>)
    ensures u.Some? ==> u.value < |x.s.pred|
  {
    if allRows then Served(x.s, k) else SubsetReads(x.s, ids, k)
  }

  /** The prediction that the bridge reads for affected row r: through the whole state, or through the
      state selected for the row's group. */
  ghost function UsedAt(x: Step, r: int): (u: Option<nat>)
    ensures u.Some? ==> u.value < |x.s.pred|
  {
    if Whole(x) then Reads(x, x.s.affected, true, SearchSorted(x.s.affected, r))
    else
      var ids := Group(x, true, Greedy(x.meta, x.given, r));
      Reads(x, ids, false, SearchSorted(ids, r))
  }

  /** No candidate: nothing to look up, nothing to change. */
  predicate Blank(row: seq<Logit>) { forall t :: 0 <= t < |row| ==> row[t].NegInf? }

  function IntervenedBy(row: seq<Logit>, s: State, u: Option<nat>): (out: seq<Logit>)
    requires StateOk(s, |row|) && (u.Some? ==> u.value < |s.pred|)
    ensures |out| == |row|
  {
    if u.Some? then Intervened(row, s, u.value) else row
  }

  /** The modified logits of row r when prediction u is read for it. */
  function ModifiedBy(x: Step, r: nat, u: Option<nat>): (out: seq<Logit>)
    requires StepOk(x) && r < |x.rows| && (u.Some? ==> u.value < |x.s.pred|)
    ensures |out| == x.vocab
  {
    IntervenedBy(Filtered(x.rows[r], x.meta, r, x.ops), x.s, u)
  }

  /** Cell t of row r, modified by prediction u: minus infinity if the host's top-k/top-p filter or the row's
      own min-p test on the filtered row drops it, and otherwise the blend with the distiller's logit. */
  ghost predicate CellIs(x: Step, r: nat, u: Option<nat>, t: nat, cell: Logit)
    requires StepOk(x) && r < |x.rows| && t < x.vocab && (u.Some? ==> u.value < |x.s.pred|)
  {
    var kept := x.ops.filter(x.rows[r], At(x.meta.topK, r), At(x.meta.topP, r));
    && |kept| == x.vocab
    && (cell.NegInf? <==>
          kept[t].NegInf? || (x.meta.minP.Some? && !TorchKeep(kept, x.meta.minP.value[r], x.ops.log)[t]))
    && (cell.Fin? ==>
          cell.v ==
            if u.None? then kept[t].v
            else
              var distiller := if x.s.denseCache && x.s.dense.Some? then x.s.dense.value[u.value][t]
                               else Dedup.HeadLogit(x.s.pred[u.value], x.s.head, t);
              (1.0 + x.s.beta) * kept[t].v - x.s.beta * distiller)
  }

  lemma {:induction false} ModifiedCell(x: Step, r: nat, u: Option<nat>, t: nat)
    requires StepOk(x) && r < |x.rows| && t < x.vocab && (u.Some? ==> u.value < |x.s.pred|)
    ensures CellIs(x, r, u, t, ModifiedBy(x, r, u)[t])
  {
    hide TorchKeep, Dedup.HeadLogit;
  }

  /** The row's lookup is in range, or there is nothing to look up. */
  ghost predicate Found(x: Step, r: nat, u: Option<nat>)
    requires StepOk(x) && r < |x.rows|
  {
    u.Some? || Blank(Filtered(x.rows[r], x.meta, r, x.ops))
  }

  /** The row can be modified: its selected state exists, and it has a prediction or no candidate. */
  ghost predicate RowServed(x: Step, r: nat)
    requires StepOk(x) && r < |x.rows|
  {
    r in x.s.affected ==>
      && (Whole(x) || SubsetState(x.s, Group(x, true, Greedy(x.meta, x.given, r))).Some?)
      && Found(x, r, UsedAt(x, r))
  }

  /** The token of row r when prediction u is read for it: its one source, with its own generator. */
  function TokenBy(x: Step, r: nat, u: Option<nat>): int
    requires StepOk(x) && r < |x.rows| && (u.Some? ==> u.value < |x.s.pred|)
  {
    var greedy := Greedy(x.meta, x.given, r);
    if r in x.s.affected then
      var modified := ModifiedBy(x, r, u);
      if greedy then ArgMax(modified) else x.ops.draw(modified, None, None, GenFor(x.meta.generators, r))
    else if greedy then
      if x.given.Some? then x.given.value[r] else ArgMax(x.rows[r])
    else x.ops.draw(x.rows[r], At(x.meta.topK, r), At(x.meta.topP, r), GenFor(x.meta.generators, r))
  }

  ghost function Token(x: Step, r: nat): int
    requires StepOk(x) && r < |x.rows|
  {
    TokenBy(x, r, UsedAt(x, r))
  }

  // ---- group samplers ------------------------------------------------------------------------

  function Selected<T>(xs: Option<seq<T>>, ids: seq<int>): (out: Option<seq<T>>)
    requires xs.Some? ==> forall k :: 0 <= k < |ids| ==> 0 <= ids[k] < |xs.value|
    ensures forall k :: 0 <= k < |ids| ==> At(out, k) == At(xs, ids[k])
  {
    if xs.None? then None else Some(Gather(xs.value, ids))
  }

  /** The host sampler over a batch, row by row. */
  function Draws(rows: seq<seq<Logit>>, gens: map<int, int>, topK: Option<seq<int>>, topP: Option<seq<real>>,
        ops: Ops): (out: seq<int>)
    ensures |out| == |rows|
  {
    seq(|rows|, j requires 0 <= j < |rows| => ops.draw(rows[j], At(topK, j), At(topP, j), GenFor(gens, j)))
  }

  ghost predicate InRows(x: Step, ids: seq<int>) { forall k :: 0 <= k < |ids| ==> 0 <= ids[k] < |x.rows| }

  /** _sample_rows_vanilla */
  method SampleRowsVanilla(x: Step, ids: seq<int>) returns (out: seq<int>)
    requires StepOk(x) && InRows(x, ids)
    ensures |out| == |ids|
    ensures forall k :: 0 <= k < |ids| && InGroup(x, false, false, ids[k]) ==> out[k] == Token(x, ids[k])
  {
    var gens := SelectGenerators(x.meta.generators, ids);
    out := Draws(Gather(x.rows, ids), gens, Selected(x.meta.topK, ids), Selected(x.meta.topP, ids), x.ops);
  }

  ghost predicate AllAffected(x: Step, ids: seq<int>) { forall k :: 0 <= k < |ids| ==> ids[k] in x.s.affected }

  lemma {:induction false} AffectedInRows(x: Step, ids: seq<int>)
    requires StepOk(x) && AllAffected(x, ids)
    ensures InRows(x, ids)
  {
    forall k | 0 <= k < |ids| ensures 0 <= ids[k] < |x.rows| { assert ids[k] in x.s.affected; }
  }

  // ---- building modified logits in a copy ----------------------------------------------------

  ghost predicate Holds(logits: array2<Logit>, x: Step)
    reads logits
  {
    logits.Length0 == |x.rows| && logits.Length1 == x.vocab && forall r :: 0 <= r < |x.rows| ==>
      RowOf(logits, r) == x.rows[r]
  }

  method SetRow(a: array2<Logit>, k: nat, row: seq<Logit>)
    requires k < a.Length0 && |row| == a.Length1
    modifies a
    ensures RowOf(a, k) == row
    ensures forall j :: 0 <= j < a.Length0 && j != k ==> RowOf(a, j) == old(RowOf(a, j))
  {
    for i := 0 to a.Length1
      invariant forall p, q :: 0 <= p < a.Length0 && 0 <= q < a.Length1 ==> a[p, q] == if p == k && q < i then row[q]
        else old(a[p, q])
    {
      a[k, i] := row[i];
    }
  }

  /** index_select(0, ids).clone() */
  method CopyRows(logits: array2<Logit>, ids: seq<int>) returns (out: array2<Logit>)
    requires forall k :: 0 <= k < |ids| ==> 0 <= ids[k] < logits.Length0
    ensures fresh(out) && out.Length0 == |ids| && out.Length1 == logits.Length1
    ensures forall k :: 0 <= k < |ids| ==> RowOf(out, k) == RowOf(logits, ids[k])
  {
    out := new Logit[|ids|, logits.Length1];
    for k := 0 to |ids|
      invariant forall j :: 0 <= j < k ==> RowOf(out, j) == RowOf(logits, ids[j])
    {
      SetRow(out, k, RowOf(logits, ids[k]));
    }
  }

  /** apply_top_k_top_p, in place on the copy */
  method FilterRows(a: array2<Logit>, topK: Option<seq<int>>, topP: Option<seq<real>>, ops: Ops)
    requires KeepsVocab(ops)
    modifies a
    ensures forall k :: 0 <= k < a.Length0 ==> RowOf(a, k) == ops.filter(old(RowOf(a, k)), At(topK, k), At(topP, k))
  {
    for k := 0 to a.Length0
      invariant forall j :: 0 <= j < k ==> RowOf(a, j) == ops.filter(old(RowOf(a, j)), At(topK, j), At(topP, j))
      invariant forall j :: k <= j < a.Length0 ==> RowOf(a, j) == old(RowOf(a, j))
    {
      SetRow(a, k, ops.filter(RowOf(a, k), At(topK, k), At(topP, k)));
    }
  }

  /** select_candidate_pairs, the lookup of every candidate's distiller logit, which may be out of range,
      and apply_candidate_intervention in place on the copy. */
  method InterveneRows(a: array2<Logit>, s: State) returns (ok: bool)
    requires StateOk(s, a.Length1)
    modifies a
    ensures ok <==> forall k :: 0 <= k < a.Length0 ==> Served(s, k).Some? || Blank(old(RowOf(a, k)))
    ensures ok ==> forall k :: 0 <= k < a.Length0 ==> RowOf(a, k) == IntervenedBy(old(RowOf(a, k)), s, Served(s, k))
  {
    for k := 0 to a.Length0
      invariant forall j :: 0 <= j < k ==> Served(s, j).Some? || Blank(RowOf(a, j))
      invariant forall j :: 0 <= j < a.Length0 ==> RowOf(a, j) == old(RowOf(a, j))
    {
      if Served(s, k).None? && !Blank(RowOf(a, k)) { return false; }
    }
    for k := 0 to a.Length0
      invariant forall j :: 0 <= j < k ==> RowOf(a, j) == IntervenedBy(old(RowOf(a, j)), s, Served(s, j))
      invariant forall j :: k <= j < a.Length0 ==> RowOf(a, j) == old(RowOf(a, j))
    {
      SetRow(a, k, IntervenedBy(RowOf(a, k), s, Served(s, k)));
    }
    ok := true;
  }

  /** The state _select_subset_inputs hands on. */
  function LocalState(x: Step, ids: seq<int>, allRows: bool): Option<State> {
    if allRows then Some(x.s) else SubsetState(x.s, ids)
  }

  /** Affected rows; all of them, in order, when nothing is selected. */
  ghost predicate SelectionOk(x: Step, ids: seq<int>, allRows: bool) {
    AllAffected(x, ids) && |ids| > 0 && (allRows ==> ids == Arange(|x.rows|))
  }

  /** Every lookup of the selection is in range. */
  ghost predicate SelectionServed(x: Step, ids: seq<int>, allRows: bool)
    requires StepOk(x) && InRows(x, ids)
  {
    && LocalState(x, ids, allRows).Some?
    && forall k: nat :: k < |ids| ==> Found(x, ids[k], Reads(x, ids, allRows, k))
  }

  /** Local row k is modified by the prediction that Reads names. */
  lemma {:induction false} SelectThenModify(x: Step, ids: seq<int>, allRows: bool, k: nat, row: seq<Logit>)
    requires StepOk(x) && LocalState(x, ids, allRows).Some? && k < |ids| && |row| == x.vocab
    ensures var s := LocalState(x, ids, allRows).value;
      && StateOk(s, x.vocab) && (Served(s, k).Some? <==> Reads(x, ids, allRows, k).Some?)
      && IntervenedBy(row, s, Served(s, k)) == IntervenedBy(row, x.s, Reads(x, ids, allRows, k))
  {
    if !allRows {
      SubsetOk(x.s, ids, x.vocab);
      if SubsetReads(x.s, ids, k).Some? { SubsetRowMeaning(x.s, ids, x.vocab, k); }
    }
  }

  /** As many strictly increasing affected rows as there are rows: all of them, in order. */
  lemma {:induction false} WholeBatch(x: Step)
    requires StepOk(x) && (|x.s.affected| == |x.rows| || forall r :: 0 <= r < |x.rows| ==> r in x.s.affected)
    ensures x.s.affected == Arange(|x.rows|)
  {
    if |x.s.affected| == |x.rows| {
      IncreasingCoverIsIdentity(x.s.affected, |x.rows|);
    } else {
      IncreasingUnique(x.s.affected, Arange(|x.rows|)) by {
        forall r ensures r in x.s.affected <==> r in Arange(|x.rows|) {
          if 0 <= r < |x.rows| { assert Arange(|x.rows|)[r] == r; }
        }
      }
    }
  }

  /** build_modified_logits_exact: a fresh tensor with the modified rows, and their generators; None when
      a lookup is out of range. The caller's logits are only read. */
  method BuildModified(logits: array2<Logit>, x: Step, ids: seq<int>, allRows: bool)
    returns (ok: bool, out: array2<Logit>, gens: map<int, int>)
    requires Holds(logits, x) && StepOk(x) && SelectionOk(x, ids, allRows)
    ensures InRows(x, ids) && (ok <==> SelectionServed(x, ids, allRows))
    ensures fresh(out) && out.Length0 == |ids| && out.Length1 == x.vocab
    ensures ok ==> forall k: nat :: k < |ids| ==> RowOf(out, k) == ModifiedBy(x, ids[k], Reads(x, ids, allRows, k))
    ensures ok ==> forall k: nat, t: nat :: k < |ids| && t < x.vocab ==>
      CellIs(x, ids[k], Reads(x, ids, allRows, k), t, RowOf(out, k)[t])
    ensures forall k :: 0 <= k < |ids| ==> GenFor(gens, k) == GenFor(x.meta.generators, ids[k])
  {
    hide StepOk, ModifiedBy, CellIs, SelectionServed, Reads, Holds;
    ok, out, gens := BuildRows(logits, x, ids, allRows);
    if ok {
      forall k: nat, t: nat | k < |ids| && t < x.vocab
        ensures CellIs(x, ids[k], Reads(x, ids, allRows, k), t, RowOf(out, k)[t])
      {
        ModifiedCell(x, ids[k], Reads(x, ids, allRows, k), t);
      }
    }
  }

  /** Selection, filters, lookup and intervention. */
  method BuildRows(logits: array2<Logit>, x: Step, ids: seq<int>, allRows: bool)
    returns (ok: bool, out: array2<Logit>, gens: map<int, int>)
    requires Holds(logits, x) && StepOk(x) && SelectionOk(x, ids, allRows)
    ensures InRows(x, ids) && (ok <==> SelectionServed(x, ids, allRows))
    ensures fresh(out) && out.Length0 == |ids| && out.Length1 == x.vocab
    ensures ok ==> forall k: nat :: k < |ids| ==> RowOf(out, k) == ModifiedBy(x, ids[k], Reads(x, ids, allRows, k))
    ensures forall k :: 0 <= k < |ids| ==> GenFor(gens, k) == GenFor(x.meta.generators, ids[k])
  {
    hide StateOk, Intervened, IntervenedBy, TorchKeep, Blank, Reads, LocalState, SubsetState;
    AffectedInRows(x, ids);
    if allRows { gens := x.meta.generators; } else { gens := SelectGenerators(x.meta.generators, ids); }
    out := CopyRows(logits, ids);
    var local := LocalState(x, ids, allRows);
    if local.None? { return false, out, gens; }
    FilterRows(out, Selected(x.meta.topK, ids), Selected(x.meta.topP, ids), x.ops);
    var r := ApplyMinP(out, Selected(x.meta.minP, ids), x.ops.log);
    ghost var filtered := seq(|ids|, k requires 0 <= k < |ids| reads out => RowOf(out, k));
    forall k | 0 <= k < |ids| ensures filtered[k] == Filtered(x.rows[ids[k]], x.meta, ids[k], x.ops) {}
    forall k: nat | k < |ids|
      ensures StateOk(local.value, x.vocab) && (Served(local.value, k).Some? <==> Reads(x, ids, allRows, k).Some?)
      ensures IntervenedBy(filtered[k], local.value, Served(local.value, k)) ==
        IntervenedBy(filtered[k], x.s, Reads(x, ids, allRows, k))
    {
      SelectThenModify(x, ids, allRows, k, filtered[k]);
    }
    SelectThenModify(x, ids, allRows, 0, filtered[0]);
    ok := InterveneRows(out, local.value);
  }

  /** argmax per row, or the host sampler without top-k/top-p: the rows are filtered already. */
  function Picked(rows: seq<seq<Logit>>, gens: map<int, int>, greedy: bool, ops: Ops): (out: seq<int>)
    requires forall k :: 0 <= k < |rows| ==> |rows[k]| > 0
    ensures |out| == |rows|
  {
    if greedy then seq(|rows|, k requires 0 <= k < |rows| => ArgMax(rows[k])) else Draws(rows, gens, None, None, ops)
  }

  lemma {:induction false} PickedIsToken(x: Step, r: int, k: nat, rows: seq<seq<Logit>>, gens: map<int, int>,
        greedy: bool,
                                         u: Option<nat>)
    requires StepOk(x) && r in x.s.affected && 0 <= r < |x.rows| && Greedy(x.meta, x.given, r) == greedy
    requires k < |rows| && (forall j :: 0 <= j < |rows| ==> |rows[j]| > 0) && (u.Some? ==> u.value < |x.s.pred|)
    requires rows[k] == ModifiedBy(x, r, u) && GenFor(gens, k) == GenFor(x.meta.generators, r)
    ensures Picked(rows, gens, greedy, x.ops)[k] == TokenBy(x, r, u)
  {
    if !greedy {
      var topK: Option<seq<int>>, topP: Option<seq<real>> := None, None;
      assert Draws(rows, gens, None, None, x.ops)[k] == x.ops.draw(rows[k], At(topK, k), At(topP, k), GenFor(gens, k));
    }
  }

  /** _sample_rows_exact_via_sampler */
  method SampleRowsExact(logits: array2<Logit>, x: Step, ids: seq<int>, greedy: bool, allRows: bool)
    returns (out: Option<seq<int>>)
    requires Holds(logits, x) && StepOk(x) && SelectionOk(x, ids, allRows)
    requires forall k :: 0 <= k < |ids| ==> Greedy(x.meta, x.given, ids[k]) == greedy
    ensures InRows(x, ids) && (out.Some? <==> SelectionServed(x, ids, allRows))
    ensures out.Some? ==> |out.value| == |ids|
    ensures out.Some? ==> forall k: nat :: k < |ids| ==> out.value[k] == TokenBy(x, ids[k], Reads(x, ids, allRows, k))
  {
    assert x.vocab > 0;
    hide StateOk, Greedy, ModifiedBy, TokenBy, Picked, Holds, StepOk, Reads, SelectionServed;
    var ok, modified, gens := BuildModified(logits, x, ids, allRows);
    if !ok { return None; }
    ghost var wanted := seq(|ids|, k requires 0 <= k < |ids| => ModifiedBy(x, ids[k], Reads(x, ids, allRows, k)));
    var rows := seq(|ids|, k requires 0 <= k < |ids| reads modified => RowOf(modified, k));
    assert rows == wanted;
    var picked := Picked(rows, gens, greedy, x.ops);
    forall k: nat | k < |ids| ensures picked[k] == TokenBy(x, ids[k], Reads(x, ids, allRows, k)) {
      PickedIsToken(x, ids[k], k, rows, gens, greedy, Reads(x, ids, allRows, k));
    }
    out := Some(picked);
  }

  // ---- the bridge -----------------------------------------------------------------------

  /** final[ids] = values */
  method Scatter(final: array<int>, ids: seq<int>, values: seq<int>)
    requires |values| == |ids| && StrictlyIncreasing(ids) && forall k :: 0 <= k < |ids| ==> 0 <= ids[k] < final.Length
    modifies final
    ensures forall k :: 0 <= k < |ids| ==> final[ids[k]] == values[k]
    ensures forall r :: 0 <= r < final.Length && r !in ids ==> final[r] == old(final[r])
  {
    for i := 0 to |ids|
      invariant forall k :: 0 <= k < i ==> final[ids[k]] == values[k]
      invariant forall r :: 0 <= r < final.Length && r !in ids[..i] ==> final[r] == old(final[r])
    {
      assert ids[..i + 1] == ids[..i] + [ids[i]];
      final[ids[i]] := values[i];
    }
  }

  lemma {:induction false} GroupMeaning(x: Step, affected: bool, greedy: bool)
    ensures StrictlyIncreasing(Group(x, affected, greedy))
    ensures forall r :: r in Group(x, affected, greedy) <==> 0 <= r < |x.rows| && InGroup(x, affected, greedy, r)
  {
    NonzeroMeaning(seq(|x.rows|, r requires 0 <= r < |x.rows| => InGroup(x, affected, greedy, r)));
  }

  /** Row r can be modified, if it is affected, and holds its token. */
  ghost predicate Settled(x: Step, final: seq<int>, r: int)
    requires StepOk(x)
  {
    0 <= r < |x.rows| && r < |final| && RowServed(x, r) && final[r] == Token(x, r)
  }

  /** All rows of a group hold their tokens. */
  ghost predicate GroupSettled(x: Step, final: seq<int>, affected: bool, greedy: bool)
    requires StepOk(x)
  {
    forall r :: 0 <= r < |x.rows| && InGroup(x, affected, greedy, r) ==> Settled(x, final, r)
  }

  ghost predicate TokenIs(x: Step, r: int, v: int)
    requires StepOk(x)
  {
    0 <= r < |x.rows| && RowServed(x, r) && v == Token(x, r)
  }

  /** Writing one group's tokens settles it and leaves the other groups alone. */
  method SettleGroup(final: array<int>, x: Step, affected: bool, greedy: bool, values: seq<int>)
    requires StepOk(x) && final.Length == |x.rows| && |values| == |Group(x, affected, greedy)|
    requires forall k :: 0 <= k < |values| ==> TokenIs(x, Group(x, affected, greedy)[k], values[k])
    modifies final
    ensures GroupSettled(x, final[..], affected, greedy)
    ensures forall a, g :: (a != affected || g != greedy) && old(GroupSettled(x, final[..], a, g)) ==>
      GroupSettled(x, final[..], a, g)
  {
    hide Token, StepOk, InGroup, Group, RowServed;
    var ids := Group(x, affected, greedy);
    GroupMeaning(x, affected, greedy);
    ghost var before := final[..];
    Scatter(final, ids, values);
    forall r | 0 <= r < |x.rows| && InGroup(x, affected, greedy, r) ensures Settled(x, final[..], r) {
      assert r in ids;
      var k :| 0 <= k < |ids| && ids[k] == r;
      assert TokenIs(x, ids[k], values[k]);
    }
    forall a, g, r | (a != affected || g != greedy) && GroupSettled(x, before, a, g) && 0 <= r < |x.rows|
      && InGroup(x, a, g, r)
      ensures Settled(x, final[..], r)
    {
      assert Settled(x, before, r);
      OneGroup(x, affected, greedy, a, g, r);
    }
  }

  lemma {:induction false} OneGroup(x: Step, affected: bool, greedy: bool, a: bool, g: bool, r: int)
    requires InGroup(x, a, g, r) && (a != affected || g != greedy)
    ensures !InGroup(x, affected, greedy, r)
  {
  }

  function GreedyMask(x: Step): (mask: seq<bool>)
    ensures |mask| == |x.rows|
    ensures forall r :: 0 <= r < |x.rows| ==> (mask[r] <==> Greedy(x.meta, x.given, r))
  {
    seq(|x.rows|, r requires 0 <= r < |x.rows| => Greedy(x.meta, x.given, r))
  }

  /** greedy_mask.nonzero(): computed only for a mixed batch with given greedy tokens. */
  function GreedyRows(x: Step): seq<int> {
    if x.given.Some? && Classify(x.meta) == Mixed then Nonzero(GreedyMask(x)) else []
  }

  /** Counting the greedy rows of a mixed batch tells whether all of them, or none, are greedy. */
  lemma {:induction false} GreedyCount(x: Step)
    requires StepOk(x)
    ensures Classify(x.meta) == AllGreedy || |GreedyRows(x)| == |x.rows| <==> forall r :: 0 <= r < |x.rows| ==>
      Greedy(x.meta, x.given, r)
    ensures Classify(x.meta) != AllGreedy ==>
      (Classify(x.meta) == AllRandom || |GreedyRows(x)| == 0 <==> forall r :: 0 <= r < |x.rows| ==>
        !Greedy(x.meta, x.given, r))
  {
    assert |x.rows| > 0 by { assert 0 <= x.s.affected[0] < |x.rows|; }
    assert Greedy(x.meta, x.given, 0) || !Greedy(x.meta, x.given, 0);
    NonzeroCount(GreedyMask(x));
  }

  lemma {:induction false} NobodySettled(x: Step, final: seq<int>, affected: bool, greedy: bool)
    requires StepOk(x) && Group(x, affected, greedy) == []
    ensures GroupSettled(x, final, affected, greedy)
  {
    GroupMeaning(x, affected, greedy);
    forall r | 0 <= r < |x.rows| ensures !InGroup(x, affected, greedy, r) { assert r !in Group(x, affected, greedy); }
  }

  /** One way of decoding: the affected rows are one group. */
  lemma {:induction false} AffectedIsGroup(x: Step, greedy: bool)
    requires StepOk(x) && forall r :: 0 <= r < |x.rows| ==> Greedy(x.meta, x.given, r) == greedy
    ensures Group(x, true, greedy) == x.s.affected && Group(x, true, !greedy) == [] && Group(x, false, !greedy) == []
  {
    GroupMeaning(x, true, greedy);
    GroupMeaning(x, true, !greedy);
    GroupMeaning(x, false, !greedy);
    SomeElement(Group(x, true, !greedy));
    SomeElement(Group(x, false, !greedy));
    forall r ensures r in Group(x, true, greedy) <==> r in x.s.affected {
      if r in x.s.affected { var k :| 0 <= k < |x.s.affected| && x.s.affected[k] == r; }
    }
    IncreasingUnique(Group(x, true, greedy), x.s.affected);
  }

  lemma {:induction false} EveryRowSettled(x: Step, final: seq<int>)
    requires StepOk(x) && forall a, g :: GroupSettled(x, final, a, g)
    ensures forall r :: 0 <= r < |x.rows| ==> Settled(x, final, r)
  {
    forall r | 0 <= r < |x.rows| ensures Settled(x, final, r) {
      assert GroupSettled(x, final, r in x.s.affected, Greedy(x.meta, x.given, r));
      assert InGroup(x, r in x.s.affected, Greedy(x.meta, x.given, r), r);
    }
  }

  /** The affected rows of one group can be modified. */
  ghost predicate GroupServed(x: Step, greedy: bool)
    requires StepOk(x)
  {
    forall r :: 0 <= r < |x.rows| && InGroup(x, true, greedy, r) ==> RowServed(x, r)
  }

  /** Local row k of a group is its row ids[k]: what the selection reads is what the bridge uses. */
  lemma {:induction false} GroupReads(x: Step, greedy: bool, k: nat)
    requires StepOk(x) && !Whole(x) && k < |Group(x, true, greedy)|
    ensures var ids := Group(x, true, greedy); UsedAt(x, ids[k]) == Reads(x, ids, false, k)
  {
    GroupMeaning(x, true, greedy);
    SearchSortedAt(Group(x, true, greedy), k);
  }

  lemma {:induction false} GroupServedExactly(x: Step, greedy: bool)
    requires StepOk(x) && !Whole(x) && Group(x, true, greedy) != []
    ensures AllAffected(x, Group(x, true, greedy)) && InRows(x, Group(x, true, greedy))
    ensures SelectionServed(x, Group(x, true, greedy), false) <==> GroupServed(x, greedy)
  {
    hide StepOk, Found, Reads, UsedAt, SubsetState, Whole, Greedy;
    var ids := Group(x, true, greedy);
    GroupMeaning(x, true, greedy);
    forall k: nat | k < |ids|
      ensures ids[k] in x.s.affected && InGroup(x, true, greedy, ids[k]) && UsedAt(x, ids[k]) == Reads(x, ids, false, k)
    {
      assert ids[k] in ids;
      GroupReads(x, greedy, k);
    }
    forall r | 0 <= r < |x.rows| && InGroup(x, true, greedy, r) ensures r in ids {}
    if SelectionServed(x, ids, false) {
      forall r | 0 <= r < |x.rows| && InGroup(x, true, greedy, r) ensures RowServed(x, r) {
        var k: nat :| k < |ids| && ids[k] == r;
        assert Found(x, ids[k], Reads(x, ids, false, k));
      }
    }
    if GroupServed(x, greedy) {
      assert RowServed(x, ids[0]);
      forall k: nat | k < |ids| ensures Found(x, ids[k], Reads(x, ids, false, k)) { assert RowServed(x, ids[k]); }
    }
  }

  /** One affected group, selected and modified without the rest of the batch. */
  method SettleAffected(logits: array2<Logit>, final: array<int>, x: Step, greedy: bool) returns (ok: bool)
    requires Holds(logits, x) && StepOk(x) && !Whole(x) && final.Length == |x.rows|
    modifies final
    ensures ok <==> GroupServed(x, greedy)
    ensures ok ==> GroupSettled(x, final[..], true, greedy)
    ensures forall a, g :: (!a || g != greedy) && old(GroupSettled(x, final[..], a, g)) ==>
      GroupSettled(x, final[..], a, g)
  {
    hide TokenBy, StepOk, Group, GroupSettled, Whole, UsedAt, Reads, RowServed, SelectionServed;
    var ids := Group(x, true, greedy);
    if ids == [] {
      NobodySettled(x, final[..], true, greedy);
      NobodyServed(x, greedy);
      return true;
    }
    GroupServedExactly(x, greedy);
    var values := SampleRowsExact(logits, x, ids, greedy, false);
    if values.None? { return false; }
    forall k: nat | k < |ids| ensures TokenIs(x, ids[k], values.value[k]) { GroupReads(x, greedy, k); }
    SettleGroup(final, x, true, greedy, values.value);
    ok := true;
  }

  lemma {:induction false} NobodyServed(x: Step, greedy: bool)
    requires StepOk(x) && Group(x, true, greedy) == []
    ensures GroupServed(x, greedy)
  {
    GroupMeaning(x, true, greedy);
    forall r | 0 <= r < |x.rows| ensures !InGroup(x, true, greedy, r) { assert r !in Group(x, true, greedy); }
  }

  /** An unaffected row needs no prediction. */
  lemma {:induction false} UnaffectedToken(x: Step, r: nat, u: Option<nat>)
    requires StepOk(x) && r < |x.rows| && r !in x.s.affected && (u.Some? ==> u.value < |x.s.pred|)
    ensures RowServed(x, r) && Token(x, r) == TokenBy(x, r, u)
  {
  }

  method SettleVanilla(final: array<int>, x: Step)
    requires StepOk(x) && final.Length == |x.rows|
    modifies final
    ensures GroupSettled(x, final[..], false, false)
    ensures forall a, g :: (a || g) && old(GroupSettled(x, final[..], a, g)) ==> GroupSettled(x, final[..], a, g)
  {
    hide Token, StepOk, Group, GroupSettled, RowServed;
    var ids := Group(x, false, false);
    if ids == [] {
      NobodySettled(x, final[..], false, false);
    } else {
      var values := SampleRowsVanilla(x, ids);
      forall k: nat | k < |ids| ensures TokenIs(x, ids[k], values[k]) { UnaffectedToken(x, ids[k], None); }
      SettleGroup(final, x, false, false, values);
    }
  }

  /** Unaffected greedy rows keep the given token, or the argmax of their own logits. */
  method SettleGiven(final: array<int>, x: Step)
    requires StepOk(x) && final.Length == |x.rows|
    modifies final
    ensures GroupSettled(x, final[..], false, true)
    ensures forall a, g :: (a || !g) && old(GroupSettled(x, final[..], a, g)) ==> GroupSettled(x, final[..], a, g)
  {
    hide StepOk, GroupSettled, RowServed, UsedAt, ModifiedBy;
    assert x.given.Some? ==> |x.given.value| == |x.rows| by { GivenSize(x); }
    assert forall r :: 0 <= r < |x.rows| ==> |x.rows[r]| > 0 by { GivenSize(x); }
    var ids := Group(x, false, true);
    var values := seq(|ids|, k requires 0 <= k < |ids| => if x.given.Some? then x.given.value[ids[k]]
      else ArgMax(x.rows[ids[k]]));
    forall k: nat | k < |ids| ensures TokenIs(x, ids[k], values[k]) { UnaffectedToken(x, ids[k], None); }
    SettleGroup(final, x, false, true, values);
  }

  lemma {:induction false} GivenSize(x: Step)
    requires StepOk(x)
    ensures x.given.Some? ==> |x.given.value| == |x.rows|
    ensures forall r :: 0 <= r < |x.rows| ==> |x.rows[r]| > 0
  {
  }

  /** Every affected row can be modified. */
  ghost predicate AllServed(x: Step)
    requires StepOk(x)
  {
    forall r :: 0 <= r < |x.rows| ==> RowServed(x, r)
  }

  lemma {:induction false} WholeServedExactly(x: Step)
    requires StepOk(x) && Whole(x)
    ensures x.s.affected == Arange(|x.rows|) && SelectionOk(x, x.s.affected, true) && InRows(x, x.s.affected)
    ensures SelectionServed(x, x.s.affected, true) <==> AllServed(x)
    ensures forall k: nat :: k < |x.rows| ==> UsedAt(x, k) == Reads(x, x.s.affected, true, k)
  {
    hide Found, Reads, StateOk;
    WholeBatch(x);
    var ids := x.s.affected;
    forall k: nat | k < |x.rows| ensures ids[k] == k && k in ids && UsedAt(x, k) == Reads(x, ids, true, k) {
      SearchSortedAt(ids, k);
    }
    if AllServed(x) {
      forall k: nat | k < |ids| ensures Found(x, ids[k], Reads(x, ids, true, k)) { assert RowServed(x, k); }
    }
  }

  /** The whole batch as one selection. */
  method WholeBatchSampled(logits: array2<Logit>, x: Step, greedy: bool) returns (final: Option<array<int>>)
    requires Holds(logits, x) && StepOk(x) && Whole(x)
    requires forall r :: 0 <= r < |x.rows| ==> Greedy(x.meta, x.given, r) == greedy
    ensures final.Some? <==> AllServed(x)
    ensures final.Some? ==> fresh(final.value) && final.value.Length == |x.rows|
    ensures final.Some? ==> forall r :: 0 <= r < |x.rows| ==> Settled(x, final.value[..], r)
  {
    WholeServedExactly(x);
    var ids := x.s.affected;
    hide TokenBy, StepOk, Greedy, Reads, UsedAt, SelectionServed, RowServed, Whole, AllServed, Settled;
    var out := SampleRowsExact(logits, x, ids, greedy, true);
    if out.None? { return None; }
    WholeSettled(x, out.value);
    var tokens := new int[|out.value|](k requires 0 <= k < |out.value| => out.value[k]);
    assert tokens[..] == out.value;
    final := Some(tokens);
  }

  lemma {:induction false} WholeSettled(x: Step, tokens: seq<int>)
    requires StepOk(x) && Whole(x) && AllServed(x) && |tokens| == |x.rows| == |x.s.affected|
    requires InRows(x, x.s.affected)
    requires forall k: nat :: k < |tokens| ==> tokens[k] == TokenBy(x, x.s.affected[k], Reads(x, x.s.affected, true, k))
    ensures forall r :: 0 <= r < |x.rows| ==> Settled(x, tokens, r)
  {
    WholeServedExactly(x);
    hide TokenBy, StepOk, Reads, UsedAt, RowServed, Whole;
    forall r: nat | r < |x.rows| ensures Settled(x, tokens, r) { assert x.s.affected[r] == r; }
  }

  lemma {:induction false} ServedByGroups(x: Step)
    requires StepOk(x)
    ensures AllServed(x) <==> GroupServed(x, true) && GroupServed(x, false)
  {
    hide StepOk;
    forall r: nat | r < |x.rows| && GroupServed(x, true) && GroupServed(x, false) ensures RowServed(x, r) {
      if r in x.s.affected { assert InGroup(x, true, Greedy(x.meta, x.given, r), r); }
    }
  }

  /** Every group in turn; None when a lookup of an affected group is out of range. */
  method SampleGroups(logits: array2<Logit>, x: Step) returns (final: Option<array<int>>)
    requires Holds(logits, x) && StepOk(x) && !Whole(x)
    ensures final.Some? <==> AllServed(x)
    ensures final.Some? ==> fresh(final.value) && final.value.Length == |x.rows|
    ensures final.Some? ==> forall r :: 0 <= r < |x.rows| ==> Settled(x, final.value[..], r)
  {
    var mode := Classify(x.meta);
    GreedyCount(x);
    ServedByGroups(x);
    hide StepOk, GroupSettled, GroupServed, Settled, Greedy, Holds, GreedyRows, Whole, AllServed;
    var tokens := new int[|x.rows|];
    var ok := true;
    if mode == AllGreedy {
      AffectedIsGroup(x, true);
      NobodyServed(x, false);
      SettleGiven(tokens, x);
      ok := SettleAffected(logits, tokens, x, true);
      if !ok { return None; }
      NobodySettled(x, tokens[..], true, false);
      NobodySettled(x, tokens[..], false, false);
    } else if mode == AllRandom {
      AffectedIsGroup(x, false);
      NobodyServed(x, true);
      SettleVanilla(tokens, x);
      ok := SettleAffected(logits, tokens, x, false);
      if !ok { return None; }
      NobodySettled(x, tokens[..], true, true);
      NobodySettled(x, tokens[..], false, true);
    } else {
      SettleGiven(tokens, x);
      ok := SettleAffected(logits, tokens, x, true);
      if !ok { return None; }
      SettleVanilla(tokens, x);
      ok := SettleAffected(logits, tokens, x, false);
      if !ok { return None; }
    }
    EveryRowSettled(x, tokens[..]);
    final := Some(tokens);
  }

  lemma {:induction false} OneWayFromCount(x: Step, greedy: bool)
    requires StepOk(x) && forall r :: 0 <= r < |x.rows| ==> Greedy(x.meta, x.given, r) == greedy
    ensures OneWay(x)
  {
  }

  lemma {:induction false} OneWayCounts(x: Step)
    requires StepOk(x) && OneWay(x)
    ensures (forall r :: 0 <= r < |x.rows| ==> Greedy(x.meta, x.given, r))
         || (forall r :: 0 <= r < |x.rows| ==> !Greedy(x.meta, x.given, r))
  {
    if Greedy(x.meta, x.given, 0) {
      forall r | 0 <= r < |x.rows|
        ensures Greedy(x.meta, x.given, r)
      {
        assert Greedy(x.meta, x.given, r) == Greedy(x.meta, x.given, 0);
      }
    }
  }

  /** The post-filter backends with at least one affected row: every row of the result is its token. */
  method SampleModified(logits: array2<Logit>, x: Step) returns (final: Option<array<int>>)
    requires Holds(logits, x) && StepOk(x)
    ensures final.Some? <==> AllServed(x)
    ensures final.Some? ==> fresh(final.value) && final.value.Length == |x.rows|
    ensures final.Some? ==> forall r :: 0 <= r < |x.rows| ==> Settled(x, final.value[..], r)
  {
    var rows, affected, mode, greedyRows := |x.rows|, |x.s.affected|, Classify(x.meta), |GreedyRows(x)|;
    GreedyCount(x);
    hide StepOk, AllServed, Settled, Greedy, GreedyRows;
    if affected == rows {
      if mode == AllGreedy || greedyRows == rows {
        OneWayFromCount(x, true);
        final := WholeBatchSampled(logits, x, true);
        return;
      }
      if mode == AllRandom || greedyRows == 0 {
        OneWayFromCount(x, false);
        final := WholeBatchSampled(logits, x, false);
        return;
      }
    }
    if OneWay(x) { OneWayCounts(x); }
    final := SampleGroups(logits, x);
  }

  /** sample_with_optional_modifier: the host keeps its own sampling when the provider is inactive or no
      row is affected; otherwise a lookup of an affected row is out of range, or every row of the result is
      its token. The caller's logits are only read. */
  method SampleWithOptionalModifier(logits: array2<Logit>, x: Step, active: bool)
    returns (r: Result<Option<array<int>>, string>)
    requires Holds(logits, x) && (active && x.s.affected != [] ==> StepOk(x))
    ensures r == Ok(None) <==> !active || x.s.affected == []
    ensures active && x.s.affected != [] ==> (r.Err? <==> !AllServed(x))
    ensures r.Ok? && r.value.Some? ==> StepOk(x) && fresh(r.value.value) && r.value.value.Length == |x.rows|
    ensures r.Ok? && r.value.Some? ==> forall k :: 0 <= k < |x.rows| ==> Settled(x, r.value.value[..], k)
  {
    if !active || x.s.affected == [] { return Ok(None); }
    hide StepOk, Settled, AllServed;
    var sampled := SampleModified(logits, x);
    if sampled.None? { return Err("index out of range in a selected modifier state"); }
    r := Ok(sampled);
  }

  /** The tokens of a batch that is all greedy, by its flag or its one temperature. */
  lemma {:induction false} AllGreedyToken(x: Step, final: seq<int>, r: nat)
    requires StepOk(x) && Settled(x, final, r)
    requires x.meta.allGreedy || (!x.meta.allRandom && x.meta.temperature.Scalar? && x.meta.temperature.t < 0.00001)
    ensures r < |final| && r < |x.rows|
    ensures r in x.s.affected ==> final[r] == ArgMax(ModifiedBy(x, r, UsedAt(x, r)))
    ensures r !in x.s.affected ==> final[r] == if x.given.Some? then x.given.value[r] else ArgMax(x.rows[r])
  {
    GreedyExactly(x.meta, x.given, r);
  }

  /** The tokens of a batch that is all random: the host's draw, with the row's own generator; modified rows
      are filtered already. */
  lemma {:induction false} AllRandomToken(x: Step, final: seq<int>, r: nat)
    requires StepOk(x) && Settled(x, final, r) && !x.meta.allGreedy
    requires x.meta.allRandom || x.meta.temperature.Absent?
          || (x.meta.temperature.Scalar? && x.meta.temperature.t >= 0.00001)
    ensures r < |final| && r < |x.rows|
    ensures var rng := if r in x.meta.generators then Own(x.meta.generators[r]) else Shared;
      final[r] == if r in x.s.affected then x.ops.draw(ModifiedBy(x, r, UsedAt(x, r)), None, None, rng)
                  else x.ops.draw(x.rows[r], At(x.meta.topK, r), At(x.meta.topP, r), rng)
  {
    GreedyExactly(x.meta, x.given, r);
  }

  // ---- whose predictions ---------------------------------------------------------------------

  /** Every affected row is modified by the prediction that it would read if nothing had been selected. */
  ghost predicate ReadsOwn(x: Step) {
    forall r :: r in x.s.affected ==> UsedAt(x, r) == OwnReads(x.s, r)
  }

  /** Then every row's token is the one of that prediction. */
  lemma {:induction false} OwnTokens(x: Step, r: nat)
    requires StepOk(x) && r < |x.rows| && ReadsOwn(x)
    ensures Token(x, r) == TokenBy(x, r, OwnReads(x.s, r))
  {
    if r !in x.s.affected { UnaffectedToken(x, r, OwnReads(x.s, r)); }
  }

  /** Without a row map every row reads its own prediction, so nothing is out of range. */
  lemma {:induction false} NoMapReadsOwn(x: Step)
    requires StepOk(x) && x.s.rowMap.None? && |x.s.pred| == |x.s.affected|
    ensures ReadsOwn(x) && AllServed(x)
  {
    forall r: nat | r in x.s.affected
      ensures UsedAt(x, r) == OwnReads(x.s, r) && UsedAt(x, r).Some? && r < |x.rows|
      ensures Whole(x) || SubsetState(x.s, Group(x, true, Greedy(x.meta, x.given, r))).Some?
    {
      SearchSortedFinds(x.s.affected, r);
      if !Whole(x) {
        var ids := Group(x, true, Greedy(x.meta, x.given, r));
        GroupMeaning(x, true, Greedy(x.meta, x.given, r));
        assert r in ids;
        var k: nat :| k < |ids| && ids[k] == r;
        GroupReads(x, Greedy(x.meta, x.given, r), k);
        forall j | 0 <= j < |ids| ensures ids[j] in x.s.affected { assert ids[j] in ids; }
        SubsetReadsOwn(x.s, ids, k);
      } else {
        WholeBatch(x);
      }
    }
  }

  /** The row map has an entry for the row, or for each of the rows. */
  predicate HasEntry(s: State, r: int) { s.rowMap.Some? && 0 <= r < |s.rowMap.value| }

  ghost predicate Mapped(x: Step, ids: seq<int>) {
    x.s.rowMap.Some? && forall k :: 0 <= k < |ids| ==> 0 <= ids[k] < |x.s.rowMap.value|
  }

  /** What a caller can check: each of the rows decoded one way is modified as in the whole batch. */
  ghost predicate GroupKept(x: Step, greedy: bool) {
    var ids := Group(x, true, greedy);
    Mapped(x, ids) && forall j :: 0 <= j < |ids| ==> Kept(x.s, ids, j)
  }

  /** Each of the rows decoded one way is modified by its own prediction, or by none without a prompt. */
  ghost predicate GroupKeptOwn(x: Step, greedy: bool) {
    var ids := Group(x, true, greedy);
    Mapped(x, ids) && forall j :: 0 <= j < |ids| ==> KeptOwn(x.s, ids, j)
  }

  /** Row r of a step whose predictions were made once per prompt, as a member of its group. */
  lemma {:induction false} DedupRow(x: Step, prompts: seq<int>, rows: seq<int>, unique: seq<int>, greedy: bool, k: nat)
    requires StepOk(x) && !Whole(x) && DedupState(x.s, prompts, rows, unique) && k < |Group(x, true, greedy)|
    ensures var ids := Group(x, true, greedy);
      && StrictlyIncreasing(ids) && Mapped(x, ids) && |x.s.rowMap.value| == |prompts| && ids[k] in x.s.affected
      && (forall i :: 0 <= i < |ids| ==> 0 <= ids[i] < |prompts|)
      && UsedAt(x, ids[k]) == SubsetReads(x.s, ids, k)
      && (UsedAt(x, ids[k]) == OwnReads(x.s, ids[k]) <==> Kept(x.s, ids, k))
      && (UsedAt(x, ids[k]) == OwnPrediction(x.s, ids[k]) <==> KeptOwn(x.s, ids, k))
  {
    hide StepOk, DedupState, UsedAt, OwnReads, SubsetReads, Greedy, Kept, KeptOwn, OwnPrediction;
    var ids := Group(x, true, greedy);
    GroupMeaning(x, true, greedy);
    AffectedPrompts(x, prompts, rows, unique);
    forall i | 0 <= i < |ids| ensures 0 <= ids[i] < |prompts| { assert ids[i] in ids; }
    assert ids[k] in ids;
    GroupReads(x, greedy, k);
    SubsetExactly(x.s, prompts, rows, unique, ids, k);
  }

  lemma {:induction false} GroupOwnExactly(x: Step, prompts: seq<int>, rows: seq<int>, unique: seq<int>, greedy: bool)
    requires StepOk(x) && !Whole(x) && DedupState(x.s, prompts, rows, unique)
    ensures forall r :: r in x.s.affected ==> 0 <= r < |prompts| && x.s.rowMap.Some? && r < |x.s.rowMap.value|
    ensures (forall r :: r in x.s.affected && Greedy(x.meta, x.given, r) == greedy ==> UsedAt(x, r) == OwnReads(x.s, r))
      <==> GroupKept(x, greedy)
    ensures (forall r :: r in x.s.affected && Greedy(x.meta, x.given, r) == greedy ==>
          UsedAt(x, r) == OwnPrediction(x.s, r))
      <==> GroupKeptOwn(x, greedy)
  {
    hide StepOk, DedupState, UsedAt, OwnReads, SubsetReads, Greedy, Kept, KeptOwn, OwnPrediction;
    var ids := Group(x, true, greedy);
    GroupMeaning(x, true, greedy);
    AffectedPrompts(x, prompts, rows, unique);
    MapLength(x.s, prompts, rows, unique);
    forall r ensures r in ids <==> r in x.s.affected && Greedy(x.meta, x.given, r) == greedy {}
    forall k: nat | k < |ids|
      ensures ids[k] in ids && 0 <= ids[k] < |prompts| && Mapped(x, ids)
      ensures UsedAt(x, ids[k]) == OwnReads(x.s, ids[k]) <==> Kept(x.s, ids, k)
      ensures UsedAt(x, ids[k]) == OwnPrediction(x.s, ids[k]) <==> KeptOwn(x.s, ids, k)
    {
      DedupRow(x, prompts, rows, unique, greedy, k);
    }
  }

  lemma {:induction false} AffectedPrompts(x: Step, prompts: seq<int>, rows: seq<int>, unique: seq<int>)
    requires StepOk(x) && DedupState(x.s, prompts, rows, unique)
    ensures x.s.rowMap.Some? && 0 < |prompts| <= |x.rows|
    ensures forall r :: r in x.s.affected ==> 0 <= r < |prompts| && r < |x.rows|
  {
    var n := |prompts|;
    assert x.s.affected[n - 1] == n - 1 < |x.rows|;
  }

  /** For a step whose predictions were made once per prompt: every affected row reads what it would read
      without a selection if and only if the batch is modified whole, or the rows of each way of decoding
      are kept. */
  lemma {:induction false} DedupReadsWholeExactly(x: Step, prompts: seq<int>, rows: seq<int>, unique: seq<int>)
    requires StepOk(x) && DedupState(x.s, prompts, rows, unique)
    ensures ReadsOwn(x) <==> Whole(x) || (GroupKept(x, true) && GroupKept(x, false))
  {
    hide StepOk, DedupState, OwnReads, Greedy, GroupKept;
    if Whole(x) {
      WholeOwn(x);
    } else {
      GroupOwnExactly(x, prompts, rows, unique, true);
      GroupOwnExactly(x, prompts, rows, unique, false);
    }
  }

  /** Every affected row is modified by its own prediction, and one without a prompt by none. */
  ghost predicate ReadsOwnPrediction(x: Step) {
    forall r :: r in x.s.affected ==> HasEntry(x.s, r) && UsedAt(x, r) == OwnPrediction(x.s, r)
  }

  /** That is so if and only if the batch is modified whole, and every row has a prompt or the logits are
      projected; or the rows of each way of decoding are kept for their own predictions. */
  lemma {:induction false} DedupReadsOwnExactly(x: Step, prompts: seq<int>, rows: seq<int>, unique: seq<int>)
    requires StepOk(x) && DedupState(x.s, prompts, rows, unique)
    ensures ReadsOwnPrediction(x) <==>
      if Whole(x) then !FromCache(x.s) || forall r :: 0 <= r < |prompts| ==> prompts[r] >= 0
      else GroupKeptOwn(x, true) && GroupKeptOwn(x, false)
  {
    hide StepOk, DedupState, OwnReads, Greedy, GroupKeptOwn, OwnPrediction, UsedAt;
    AffectedPrompts(x, prompts, rows, unique);
    MapLength(x.s, prompts, rows, unique);
    forall r | r in x.s.affected ensures HasEntry(x.s, r) {}
    if Whole(x) {
      WholeOwn(x);
      AffectedAll(x, prompts, rows, unique);
      forall r | 0 <= r < |prompts|
        ensures r in x.s.affected && UsedAt(x, r) == OwnReads(x.s, r)
        ensures UsedAt(x, r) == OwnPrediction(x.s, r) <==> prompts[r] >= 0 || !FromCache(x.s)
      {
        assert x.s.affected[r] == r;
        OwnReadsMap(x.s, prompts, rows, unique, r);
        WholeRow(x.s, prompts, rows, unique, r);
      }
    } else {
      GroupOwnExactly(x, prompts, rows, unique, true);
      GroupOwnExactly(x, prompts, rows, unique, false);
    }
  }

  lemma {:induction false} WholeRow(s: State, prompts: seq<int>, rows: seq<int>, unique: seq<int>, r: int)
    requires DedupState(s, prompts, rows, unique) && 0 <= r < |prompts|
    ensures |s.rowMap.value| == |prompts|
    ensures OwnReads(s, r) == OwnPrediction(s, r) <==> prompts[r] >= 0 || !FromCache(s)
  {
    OwnReadsMap(s, prompts, rows, unique, r);
  }

  /** Affected row r can be modified: in the whole batch, it has a prompt or the logits come from the dense
      cache; in a group, the group lies among the first predictions, and the row's prediction is among the
      first of the group.  A row without candidates needs only the group. */
  ghost predicate Modifiable(x: Step, r: nat)
    requires StepOk(x) && r < |x.rows| && HasEntry(x.s, r)
  {
    var m, blank := x.s.rowMap.value[r], Blank(Filtered(x.rows[r], x.meta, r, x.ops));
    if Whole(x) then blank || m >= 0 || FromCache(x.s)
    else
      var ids := Group(x, true, Greedy(x.meta, x.given, r));
      ids != [] && ids[|ids| - 1] < |x.s.pred| && (blank || if m >= 0 then m < |ids| else FromCache(x.s))
  }

  /** For a step whose predictions were made once per prompt: sampling does not raise if and only if every
      affected row can be modified. */
  lemma {:induction false} DedupServedExactly(x: Step, prompts: seq<int>, rows: seq<int>, unique: seq<int>)
    requires StepOk(x) && DedupState(x.s, prompts, rows, unique)
    ensures forall r :: r in x.s.affected ==> 0 <= r < |x.rows| && HasEntry(x.s, r)
    ensures AllServed(x) <==> forall r :: r in x.s.affected ==> Modifiable(x, r)
  {
    hide StepOk, DedupState, RowServed, Modifiable;
    AffectedPrompts(x, prompts, rows, unique);
    MapLength(x.s, prompts, rows, unique);
    forall r | r in x.s.affected ensures HasEntry(x.s, r) && (RowServed(x, r) <==> Modifiable(x, r)) {
      RowServedExactly(x, prompts, rows, unique, r);
    }
    forall r: nat | r < |x.rows| && r !in x.s.affected ensures RowServed(x, r) { UnaffectedToken(x, r, None); }
  }

  lemma {:induction false} RowServedExactly(x: Step, prompts: seq<int>, rows: seq<int>, unique: seq<int>, r: nat)
    requires StepOk(x) && DedupState(x.s, prompts, rows, unique) && r in x.s.affected
    ensures r < |x.rows| && r < |prompts| && HasEntry(x.s, r) && (RowServed(x, r) <==> Modifiable(x, r))
  {
    hide StepOk, DedupState, OwnReads, Greedy, Blank, Filtered, SubsetState, SubsetReads, UsedAt, Whole;
    AffectedPrompts(x, prompts, rows, unique);
    OwnReadsMap(x.s, prompts, rows, unique, r);
    if Whole(x) {
      assert UsedAt(x, r) == OwnReads(x.s, r) by { WholeOwn(x); }
    } else {
      var ids := Group(x, true, Greedy(x.meta, x.given, r));
      var k := InItsGroup(x, r);
      DedupRow(x, prompts, rows, unique, Greedy(x.meta, x.given, r), k);
      GroupRow(x.s, prompts, rows, unique, ids, k);
    }
  }

  lemma {:induction false} InItsGroup(x: Step, r: nat) returns (k: nat)
    requires StepOk(x) && r in x.s.affected
    ensures var ids := Group(x, true, Greedy(x.meta, x.given, r)); k < |ids| && ids[k] == r
  {
    var ids := Group(x, true, Greedy(x.meta, x.given, r));
    GroupMeaning(x, true, Greedy(x.meta, x.given, r));
    assert r in ids;
    k :| k < |ids| && ids[k] == r;
  }

  lemma {:induction false} GroupRow(s: State, prompts: seq<int>, rows: seq<int>, unique: seq<int>,
        ids: seq<int>, k: nat)
    requires DedupState(s, prompts, rows, unique) && k < |ids| && StrictlyIncreasing(ids)
    requires forall i :: 0 <= i < |ids| ==> 0 <= ids[i] < |prompts|
    ensures HasEntry(s, ids[k])
    ensures var m := s.rowMap.value[ids[k]];
      SubsetState(s, ids).Some? && SubsetReads(s, ids, k).Some? <==>
        ids[|ids| - 1] < |s.pred| && if m >= 0 then m < |ids| else FromCache(s)
    ensures SubsetState(s, ids).Some? <==> ids[|ids| - 1] < |s.pred|
  {
    hide DedupState, SubsetState, SubsetReads;
    MapLength(s, prompts, rows, unique);
    OwnReadsMap(s, prompts, rows, unique, ids[k]);
    DedupSubsetReads(s, prompts, rows, unique, ids, k);
    DedupSubsetExists(s, prompts, rows, unique, ids);
  }

  lemma {:induction false} WholeOwn(x: Step)
    requires StepOk(x) && Whole(x)
    ensures ReadsOwn(x)
  {
  }

  /** A batch with rows that are not decode rows, all decoded one way: if deduplication saved a
      prediction, sampling raises. */
  lemma {:induction false} PartialBatchRaises(x: Step, prompts: seq<int>, rows: seq<int>, unique: seq<int>)
    requires StepOk(x) && DedupState(x.s, prompts, rows, unique)
    requires OneWay(x) && |x.s.affected| < |x.rows| && |x.s.pred| < |prompts|
    ensures !AllServed(x)
  {
    hide StepOk, DedupState, Greedy;
    AffectedPrompts(x, prompts, rows, unique);
    var n := |prompts|;
    assert x.s.affected == Arange(n) by { AffectedAll(x, prompts, rows, unique); }
    var greedy := Greedy(x.meta, x.given, n - 1);
    forall r | 0 <= r < |x.rows| ensures Greedy(x.meta, x.given, r) == greedy {}
    AffectedIsGroup(x, greedy);
    DedupPositions(x.s, prompts, rows, unique, Arange(n)) by { AffectedAll(x, prompts, rows, unique); }
    assert Positions(x.s.affected, Arange(n))[n - 1] == n - 1;
    assert SubsetState(x.s, Group(x, true, greedy)).None?;
    assert Arange(n)[n - 1] == n - 1;
    assert !RowServed(x, n - 1);
  }

  lemma {:induction false} AffectedAll(x: Step, prompts: seq<int>, rows: seq<int>, unique: seq<int>)
    requires DedupState(x.s, prompts, rows, unique)
    ensures x.s.affected == Arange(|prompts|)
  {
  }

  /** Two rows decoded one way, of prompt 7 and of none, with one prediction: from the dense cache, the row
      without a prompt is modified by prompt 7's prediction; projected, it is out of range. */
  lemma {:induction false} BorrowedExample(x: Step)
    requires StepOk(x) && DedupState(x.s, [7, -1], [0], [7]) && |x.rows| == 2 && OneWay(x)
    ensures UsedAt(x, 1) == if FromCache(x.s) then Some(0) else None
    ensures UsedAt(x, 0) == Some(0) && (FromCache(x.s) ==> AllServed(x))
  {
    OwnReadsMap(x.s, [7, -1], [0], [7], 0);
    OwnReadsMap(x.s, [7, -1], [0], [7], 1);
    AffectedAll(x, [7, -1], [0], [7]);
    assert x.s.affected[0] == 0 && x.s.affected[1] == 1;
    WholeOwn(x);
    DedupServedExactly(x, [7, -1], [0], [7]);
  }
}
