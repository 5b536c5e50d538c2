/** One prediction per prompt: the row map of the sampler precompute, and the two ways a distiller
    logit is read through it. */
module Dedup {
  import opened Common
  import opened Rows
  import opened Sums

  // ---- projections -------------------------------------------------------------------------

  datatype Head = Head(weight: seq<Row>, bias: Option<seq<real>>)

  ghost predicate HeadOk(h: Head) { h.bias.Some? ==> |h.bias.value| == |h.weight| }

  function Cell(row: Row, j: int): real { if 0 <= j < |row| then row[j] else 0.0 }

  /** (pred_row * token_row).sum() + bias */
  function HeadLogit(pred: Row, h: Head, token: int): real
    requires HeadOk(h) && 0 <= token < |h.weight|
  {
    Sum(|pred|, j => Cell(pred, j) * Cell(h.weight[token], j)) + if h.bias.Some? then h.bias.value[token] else 0.0
  }

  /** Over a token row as wide as the prediction: their inner product, plus the token's bias. */
  lemma {:induction false} HeadLogitMeaning(pred: Row, h: Head, token: int)
    requires HeadOk(h) && 0 <= token < |h.weight| && |h.weight[token]| == |pred|
    ensures var product := Sum(|pred|, j => if 0 <= j < |pred| then pred[j] * h.weight[token][j] else 0.0);
      HeadLogit(pred, h, token) == if h.bias.Some? then product + h.bias.value[token] else product
  {
    SumEqual(|pred|, j => Cell(pred, j) * Cell(h.weight[token], j),
             j => if 0 <= j < |pred| then pred[j] * h.weight[token][j] else 0.0);
  }

  /** F.linear: every logit of every predicted row. */
  function DenseLogits(pred: seq<Row>, h: Head): (dense: seq<seq<real>>)
    requires HeadOk(h)
    ensures |dense| == |pred|
  {
    seq(|pred|, u requires 0 <= u < |pred| =>
      seq(|h.weight|, t requires 0 <= t < |h.weight| => HeadLogit(pred[u], h, t)))
  }

  /** index_select of a row map by row ids; without a map the ids themselves. */
  function Mapped(rowMap: Option<seq<int>>, ids: seq<int>): (r: Option<seq<int>>) {
    if rowMap.None? then Some(ids)
    else if forall k :: 0 <= k < |ids| ==> 0 <= ids[k] < |rowMap.value| then Some(Gather(rowMap.value, ids))
    else None
  }

  ghost predicate Pairs(ids: seq<int>, tokens: seq<int>, h: Head) {
    |ids| == |tokens| && HeadOk(h) && forall k :: 0 <= k < |tokens| ==> 0 <= tokens[k] < |h.weight|
  }

  predicate InRange(rows: Option<seq<int>>, n: nat, count: nat) {
    rows.Some? && |rows.value| == count && forall k :: 0 <= k < count ==> 0 <= rows.value[k] < n
  }

  /** project_candidate_logits; None is an index_select out of range. */
  function ProjectCandidates(pred: seq<Row>, ids: seq<int>, tokens: seq<int>, h: Head,
        rowMap: Option<seq<int>>): Option<seq<real>>
    requires Pairs(ids, tokens, h)
  {
    var hidden := Mapped(rowMap, ids);
    if !InRange(hidden, |pred|, |ids|) then None
    else Some(seq(|ids|, k requires 0 <= k < |ids| => HeadLogit(pred[hidden.value[k]], h, tokens[k])))
  }

  /** Indexing n rows by entry m.  index_select takes only rows; tensor indexing counts negative entries
      from the end. */
  function Lookup(m: int, n: nat, wraps: bool): (u: Option<nat>)
    ensures u.Some? ==> u.value < n
  {
    if 0 <= m < n then Some(m) else if wraps && m < 0 <= n + m then Some(n + m) else None
  }

  /** Every entry can be indexed. */
  predicate Indexed(rows: Option<seq<int>>, n: nat, count: nat) {
    rows.Some? && |rows.value| == count && forall k :: 0 <= k < count ==> Lookup(rows.value[k], n, true).Some?
  }

  /** gather_dense_candidate_logits: the map is read by index_select, the dense logits by indexing. */
  function GatherDense(dense: seq<seq<real>>, ids: seq<int>, tokens: seq<int>,
        rowMap: Option<seq<int>>): Option<seq<real>>
    requires |ids| == |tokens|
  {
    var rows, n := Mapped(rowMap, ids), |dense|;
    if !Indexed(rows, n, |ids|)
      || exists k :: 0 <= k < |ids| && !(0 <= tokens[k] < |dense[Lookup(rows.value[k], n, true).value]|)
    then None
    else Some(seq(|ids|, k requires 0 <= k < |ids| => dense[Lookup(rows.value[k], n, true).value][tokens[k]]))
  }

  /** Gathering dense logits is projecting the candidates, errors included, unless all entries can be
      indexed and one of them counts from the end: then the gather takes a logit where the projection
      raises. */
  lemma {:induction false} GatherIsProjection(pred: seq<Row>, ids: seq<int>, tokens: seq<int>, h: Head,
        rowMap: Option<seq<int>>)
    requires Pairs(ids, tokens, h)
    ensures GatherDense(DenseLogits(pred, h), ids, tokens, rowMap) == ProjectCandidates(pred, ids, tokens, h, rowMap)
      <==> (Indexed(Mapped(rowMap, ids), |pred|, |ids|) ==> InRange(Mapped(rowMap, ids), |pred|, |ids|))
  {
    hide HeadLogit;
    var dense, rows := DenseLogits(pred, h), Mapped(rowMap, ids);
    if Indexed(rows, |pred|, |ids|) {
      forall k | 0 <= k < |ids|
        ensures var u := Lookup(rows.value[k], |pred|, true).value;
          tokens[k] < |dense[u]| && dense[u][tokens[k]] == HeadLogit(pred[u], h, tokens[k])
      {
        assert |dense[Lookup(rows.value[k], |pred|, true).value]| == |h.weight|;
      }
      var gathered := GatherDense(dense, ids, tokens, rowMap);
      var projected := ProjectCandidates(pred, ids, tokens, h, rowMap);
      assert gathered.Some?;
      if InRange(rows, |pred|, |ids|) { assert projected.Some? && gathered.value == projected.value; }
    }
  }

  // ---- the row map ---------------------------------------------------------------------------

  /** Entry r of the map names the unique row with r's prompt, or is -1 for a row without one. */
  predicate MapsTo(prompts: seq<int>, unique: seq<int>, rowMap: seq<int>) {
    |rowMap| <= |prompts| && forall r :: 0 <= r < |rowMap| ==>
      if prompts[r] < 0 then rowMap[r] == -1 else 0 <= rowMap[r] < |unique| && unique[rowMap[r]] == prompts[r]
  }

  /** Every non-negative prompt maps to the first row that carries it, every negative one to -1. */
  ghost predicate IsDedup(prompts: seq<int>, rows: seq<int>, unique: seq<int>, rowMap: seq<int>) {
    && rows == FirstRows(prompts, |prompts|) && unique == Gather(prompts, rows)
    && |rowMap| == |prompts| && MapsTo(prompts, unique, rowMap)
  }

  /** The dictionary holds each prompt seen so far, with its position. */
  ghost predicate Knows(seen: map<int, nat>, prompts: seq<int>, i: nat, unique: seq<int>)
    requires i <= |prompts|
  {
    && (forall p :: p in seen <==> p >= 0 && p in prompts[..i])
    && (forall p :: p in seen ==> seen[p] < |unique| && unique[seen[p]] == p)
  }

  lemma {:induction false} KnowsNext(seen: map<int, nat>, prompts: seq<int>, i: nat, unique: seq<int>)
    requires i < |prompts| && Knows(seen, prompts, i, unique)
    ensures prompts[i] < 0 || prompts[i] in seen ==> Knows(seen, prompts, i + 1, unique)
    ensures prompts[i] >= 0 && prompts[i] !in seen ==>
      Knows(seen[prompts[i] := |unique|], prompts, i + 1, unique + [prompts[i]])
  {
    assert prompts[..i + 1] == prompts[..i] + [prompts[i]];
  }

  lemma {:induction false} KnowsAt(seen: map<int, nat>, prompts: seq<int>, i: nat, unique: seq<int>, p: int)
    requires i <= |prompts| && Knows(seen, prompts, i, unique)
    ensures p in seen <==> p >= 0 && p in prompts[..i]
    ensures p in seen ==> seen[p] < |unique| && unique[seen[p]] == p
  {
  }

  lemma {:induction false} MapsToNext(prompts: seq<int>, unique: seq<int>, rowMap: seq<int>, more: seq<int>, m: int)
    requires MapsTo(prompts, unique, rowMap) && |rowMap| < |prompts|
    requires var p := prompts[|rowMap|]; if p < 0 then m == -1 else 0 <= m < |unique + more| && (unique + more)[m] == p
    ensures MapsTo(prompts, unique + more, rowMap + [m])
  {
  }

  lemma {:induction false} GatherPush(prompts: seq<int>, rows: seq<int>, i: int)
    requires 0 <= i < |prompts| && forall k :: 0 <= k < |rows| ==> 0 <= rows[k] < |prompts|
    ensures Gather(prompts, rows + [i]) == Gather(prompts, rows) + [prompts[i]]
  {
  }

  /** The scan before row i. */
  ghost predicate Scanned(prompts: seq<int>, i: nat, seen: map<int, nat>, rows: seq<int>, unique: seq<int>,
        rowMap: seq<int>)
    requires i <= |prompts|
  {
    && rows == FirstRows(prompts, i) && unique == Gather(prompts, rows) && |rowMap| == i
    && Knows(seen, prompts, i, unique) && MapsTo(prompts, unique, rowMap)
  }

  lemma {:induction false} ScannedNext(prompts: seq<int>, i: nat, seen: map<int, nat>, rows: seq<int>,
        unique: seq<int>, rowMap: seq<int>)
    requires i < |prompts| && Scanned(prompts, i, seen, rows, unique, rowMap)
    ensures var p := prompts[i];
      if p in seen then Scanned(prompts, i + 1, seen, rows, unique, rowMap + [seen[p]])
      else if p >= 0 then Scanned(prompts, i + 1, seen[p := |rows|], rows + [i], unique + [p], rowMap + [|rows|])
      else Scanned(prompts, i + 1, seen, rows, unique, rowMap + [-1])
  {
    hide MapsTo, Knows, Gather;
    var p := prompts[i];
    KnowsNext(seen, prompts, i, unique);
    KnowsAt(seen, prompts, i, unique, p);
    if p in seen {
      assert unique + [] == unique;
      MapsToNext(prompts, unique, rowMap, [], seen[p]);
    } else if p >= 0 {
      GatherPush(prompts, rows, i);
      MapsToNext(prompts, unique, rowMap, [p], |rows|);
    } else {
      assert unique + [] == unique;
      MapsToNext(prompts, unique, rowMap, [], -1);
    }
  }

  /** _first_prompt_rows: one dictionary, three growing lists. */
  method FirstPromptRows(prompts: seq<int>) returns (rows: seq<int>, unique: seq<int>, rowMap: seq<int>)
    ensures IsDedup(prompts, rows, unique, rowMap)
  {
    var seen: map<int, nat> := map[];
    rows, unique, rowMap := [], [], [];
    for i := 0 to |prompts|
      invariant Scanned(prompts, i, seen, rows, unique, rowMap)
    {
      ScannedNext(prompts, i, seen, rows, unique, rowMap);
      hide Scanned;
      var p := prompts[i];
      var mapped := if p in seen then Some(seen[p]) else None;
      if mapped.None? && p >= 0 {
        mapped := Some(|rows|);
        seen := seen[p := |rows|];
        rows, unique := rows + [i], unique + [p];
      }
      rowMap := rowMap + [if mapped.None? then -1 else mapped.value];
    }
  }

  /** The map is onto the unique rows, which are distinct prompts' first rows, and sends each row to
      the only unique row of its prompt. */
  lemma {:induction false} DedupMeaning(prompts: seq<int>, rows: seq<int>, unique: seq<int>, rowMap: seq<int>)
    requires IsDedup(prompts, rows, unique, rowMap)
    ensures forall a, b :: 0 <= a < b < |unique| ==> unique[a] != unique[b]
    ensures forall u :: 0 <= u < |rows| ==> rowMap[rows[u]] == u && IsFirst(prompts, rows[u])
    ensures forall r, u :: 0 <= r < |prompts| && 0 <= u < |rows| && prompts[r] >= 0 ==>
      (unique[u] == prompts[r] <==> rowMap[r] == u)
  {
    FirstRowsMeaning(prompts, |prompts|);
    forall a, b | 0 <= a < b < |unique| ensures unique[a] != unique[b] {
      assert rows[a] in rows && rows[b] in rows && rows[a] < rows[b];
      assert IsFirst(prompts, rows[b]);
    }
    forall u | 0 <= u < |rows| ensures rowMap[rows[u]] == u && IsFirst(prompts, rows[u]) {
      assert rows[u] in rows;
      var v := rowMap[rows[u]];
      assert unique[v] == unique[u];
    }
  }

  // ---- scheduling -----------------------------------------------------------------------------

  /** What a step's cache holds: predictions, and how rows reach them. */
  datatype Cached = Cached(rowIds: seq<int>, pred: seq<Row>, rowMap: Option<seq<int>>)

  /** The engine's answer when every slot is assumed ready. */
  type Predictor = (int, Row) -> Row

  function PredictAll(hidden: seq<Row>, prompts: seq<int>, predict: Predictor): (pred: seq<Row>)
    requires |hidden| == |prompts|
    ensures |pred| == |hidden|
  {
    seq(|hidden|, r requires 0 <= r < |hidden| => predict(prompts[r], hidden[r]))
  }

  ghost predicate Deduped(c: Cached, hidden: seq<Row>, prompts: seq<int>, predict: Predictor, rows: seq<int>,
    unique: seq<int>) {
    && |hidden| == |prompts| && c.rowMap.Some? && IsDedup(prompts, rows, unique, c.rowMap.value)
    && |c.pred| == |rows| && forall u :: 0 <= u < |rows| ==> c.pred[u] == predict(unique[u], hidden[rows[u]])
  }

  /** maybe_schedule_precompute: predict once per prompt when that saves rows. */
  method Schedule(hidden: seq<Row>, prompts: seq<int>, dedup: bool, predict: Predictor) returns (c: Cached)
    requires |hidden| == |prompts|
    ensures c.rowIds == Arange(|prompts|)
    ensures c.rowMap.None? ==> c.pred == PredictAll(hidden, prompts, predict)
    ensures c.rowMap.Some? <==> dedup && 0 < |FirstRows(prompts, |prompts|)| < |prompts|
    ensures c.rowMap.Some? ==> exists rows, unique :: Deduped(c, hidden, prompts, predict, rows, unique)
  {
    if dedup {
      var rows, unique, rowMap := FirstPromptRows(prompts);
      if rows != [] && |rows| < |prompts| {
        c := Cached(Arange(|prompts|), PredictAll(Gather(hidden, rows), unique, predict), Some(rowMap));
        assert Deduped(c, hidden, prompts, predict, rows, unique);
        return;
      }
    }
    c := Cached(Arange(|prompts|), PredictAll(hidden, prompts, predict), None);
  }

  /** The predicted row that candidate row r reads, by projection or from the dense cache. */
  function Served(c: Cached, r: int, dense: bool): Option<Row> {
    var row := Mapped(c.rowMap, [r]);
    if row.None? || Lookup(row.value[0], |c.pred|, dense).None? then None
    else Some(c.pred[Lookup(row.value[0], |c.pred|, dense).value])
  }

  /** A row with a prompt is served the prediction of its prompt's first row. */
  lemma {:induction false} ServedIsFirstRows(c: Cached, hidden: seq<Row>, prompts: seq<int>, predict: Predictor,
        rows: seq<int>, unique: seq<int>, r: nat, f: int, dense: bool)
    requires Deduped(c, hidden, prompts, predict, rows, unique) && r < |prompts|
    requires IsFirst(prompts, f) && prompts[f] == prompts[r]
    ensures Served(c, r, dense) == Some(predict(prompts[r], hidden[f]))
  {
    DedupMeaning(prompts, rows, unique, c.rowMap.value);
    FirstRowsMeaning(prompts, |prompts|);
    assert f in rows;
    var u :| 0 <= u < |rows| && rows[u] == f;
    assert c.rowMap.value[r] == u;
  }

  /** A row without a prompt is an out-of-range read for the projection, and the last prompt's prediction
      in the dense cache. */
  lemma {:induction false} NoPromptServed(c: Cached, hidden: seq<Row>, prompts: seq<int>, predict: Predictor,
        rows: seq<int>, unique: seq<int>, r: nat, dense: bool)
    requires Deduped(c, hidden, prompts, predict, rows, unique) && r < |prompts| && prompts[r] < 0
    ensures |rows| == |unique| && forall u :: 0 <= u < |rows| ==> 0 <= rows[u] < |hidden|
    ensures Served(c, r, dense) ==
      if dense && rows != [] then Some(predict(unique[|rows| - 1], hidden[rows[|rows| - 1]])) else None
  {
    assert c.rowMap.value[r] == -1;
  }

  /** For rows of a deduplicated step, the gather is the projection, errors included, if and only if no
      candidate's row lacks a prompt. */
  lemma {:induction false} DedupGatherIsProjection(c: Cached, hidden: seq<Row>, prompts: seq<int>, predict: Predictor,
        rows: seq<int>, unique: seq<int>, ids: seq<int>, tokens: seq<int>, h: Head)
    requires Deduped(c, hidden, prompts, predict, rows, unique) && rows != [] && Pairs(ids, tokens, h)
    requires forall k :: 0 <= k < |ids| ==> 0 <= ids[k] < |prompts|
    ensures GatherDense(DenseLogits(c.pred, h), ids, tokens, c.rowMap) ==
              ProjectCandidates(c.pred, ids, tokens, h, c.rowMap)
      <==> forall k :: 0 <= k < |ids| ==> prompts[ids[k]] >= 0
  {
    hide HeadLogit, FirstRows;
    GatherIsProjection(c.pred, ids, tokens, h, c.rowMap);
    var mapped := Mapped(c.rowMap, ids);
    forall k | 0 <= k < |ids|
      ensures -1 <= mapped.value[k] < |c.pred| && (mapped.value[k] >= 0 <==> prompts[ids[k]] >= 0)
    {
      assert mapped.value[k] == c.rowMap.value[ids[k]];
    }
  }

  /** The predictions of the unique rows, reached through the map. */
  function Once(hidden: seq<Row>, prompts: seq<int>, rows: seq<int>, unique: seq<int>, rowMap: seq<int>,
        predict: Predictor): Cached
    requires |unique| == |rows| && forall u :: 0 <= u < |rows| ==> 0 <= rows[u] < |hidden|
  {
    Cached(Arange(|prompts|), PredictAll(Gather(hidden, rows), unique, predict), Some(rowMap))
  }

  ghost predicate ServesOwn(c: Cached, hidden: seq<Row>, prompts: seq<int>, predict: Predictor, dense: bool)
    requires |hidden| == |prompts|
  {
    forall r :: 0 <= r < |prompts| ==> Served(c, r, dense) == Some(predict(prompts[r], hidden[r]))
  }

  /** Every row has a prompt, and rows of one prompt have one hidden state. */
  ghost predicate SharedHidden(hidden: seq<Row>, prompts: seq<int>)
    requires |hidden| == |prompts|
  {
    && (forall r :: 0 <= r < |prompts| ==> prompts[r] >= 0)
    && (forall a, b :: 0 <= a < |prompts| && 0 <= b < |prompts| && prompts[a] == prompts[b] ==> hidden[a] == hidden[b])
  }

  /** Predicting once per prompt serves every row its own prediction, whatever the model, by projection or
      from the dense cache, exactly when every row has a prompt and the rows of one prompt share their
      hidden state. */
  lemma {:induction false} DedupExact(hidden: seq<Row>, prompts: seq<int>, rows: seq<int>, unique: seq<int>,
        rowMap: seq<int>, dense: bool)
    requires |hidden| == |prompts| && IsDedup(prompts, rows, unique, rowMap)
    ensures (forall predict: Predictor ::
        ServesOwn(Once(hidden, prompts, rows, unique, rowMap, predict), hidden, prompts, predict, dense))
      <==> SharedHidden(hidden, prompts)
  {
    hide Served, IsFirst, FirstRows, MapsTo;
    if SharedHidden(hidden, prompts) {
      forall predict: Predictor
        ensures ServesOwn(Once(hidden, prompts, rows, unique, rowMap, predict), hidden, prompts, predict, dense)
      {
        SharedServesOwn(hidden, prompts, rows, unique, rowMap, predict, dense);
      }
    } else if r :| 0 <= r < |prompts| && prompts[r] < 0 {
      var name: Predictor := (p, x) => [p as real];
      PromptlessMismatch(hidden, prompts, rows, unique, rowMap, name, r, dense);
    } else {
      var identity: Predictor := (p, x) => x;
      Mismatch(hidden, prompts, rows, unique, rowMap, identity, dense);
    }
  }

  lemma {:induction false} SharedServesOwn(hidden: seq<Row>, prompts: seq<int>, rows: seq<int>, unique: seq<int>,
        rowMap: seq<int>, predict: Predictor, dense: bool)
    requires |hidden| == |prompts| && IsDedup(prompts, rows, unique, rowMap) && SharedHidden(hidden, prompts)
    ensures ServesOwn(Once(hidden, prompts, rows, unique, rowMap, predict), hidden, prompts, predict, dense)
  {
    hide Served, FirstRows, MapsTo;
    var c := Once(hidden, prompts, rows, unique, rowMap, predict);
    forall r | 0 <= r < |prompts| ensures Served(c, r, dense) == Some(predict(prompts[r], hidden[r])) {
      var f := FirstRowExists(prompts, r);
      ServedIsFirstRows(c, hidden, prompts, predict, rows, unique, r, f, dense);
    }
  }

  /** The model that returns the prompt it is asked for shows that a row without one gets no prediction of
      its own. */
  lemma {:induction false} PromptlessMismatch(hidden: seq<Row>, prompts: seq<int>, rows: seq<int>, unique: seq<int>,
        rowMap: seq<int>, name: Predictor, r: nat, dense: bool)
    requires |hidden| == |prompts| && IsDedup(prompts, rows, unique, rowMap) && r < |prompts| && prompts[r] < 0
    requires forall p, x :: name(p, x) == [p as real]
    ensures !ServesOwn(Once(hidden, prompts, rows, unique, rowMap, name), hidden, prompts, name, dense)
  {
    hide Served, FirstRows;
    var c := Once(hidden, prompts, rows, unique, rowMap, name);
    NoPromptServed(c, hidden, prompts, name, rows, unique, r, dense);
    if dense && rows != [] {
      DedupMeaning(prompts, rows, unique, rowMap);
      var last := |rows| - 1;
      assert unique[last] >= 0 > prompts[r];
      assert name(unique[last], hidden[rows[last]])[0] != name(prompts[r], hidden[r])[0];
    }
  }

  /** When rows of one prompt differ in their hidden state, the model that returns its input shows it. */
  lemma {:induction false} Mismatch(hidden: seq<Row>, prompts: seq<int>, rows: seq<int>, unique: seq<int>,
        rowMap: seq<int>, identity: Predictor, dense: bool)
    requires |hidden| == |prompts| && IsDedup(prompts, rows, unique, rowMap) && !SharedHidden(hidden, prompts)
    requires forall r :: 0 <= r < |prompts| ==> prompts[r] >= 0
    requires forall p, x :: identity(p, x) == x
    ensures !ServesOwn(Once(hidden, prompts, rows, unique, rowMap, identity), hidden, prompts, identity, dense)
  {
    hide Served, FirstRows, MapsTo;
    var c := Once(hidden, prompts, rows, unique, rowMap, identity);
    var a, b :| 0 <= a < |prompts| && 0 <= b < |prompts| && prompts[a] == prompts[b] && hidden[a] != hidden[b];
    var f := FirstRowExists(prompts, a);
    var r := if hidden[a] != hidden[f] then a else b;
    ServedIsFirstRows(c, hidden, prompts, identity, rows, unique, r, f, dense);
  }

  /** Through the dense cache or by projection, a candidate's distiller logit is the projection of the
      first row of its prompt. */
  lemma {:induction false} DenseCacheIsProjection(c: Cached, hidden: seq<Row>, prompts: seq<int>, predict: Predictor,
        rows: seq<int>, unique: seq<int>,
                               ids: seq<int>, tokens: seq<int>, h: Head, firsts: seq<int>)
    requires Deduped(c, hidden, prompts, predict, rows, unique) && Pairs(ids, tokens, h) && |firsts| == |ids|
    requires forall k :: 0 <= k < |ids| ==> 0 <= ids[k] < |prompts| && 0 <= firsts[k] < |prompts|
    requires forall k :: 0 <= k < |ids| ==> IsFirst(prompts, firsts[k]) && prompts[firsts[k]] == prompts[ids[k]]
    ensures GatherDense(DenseLogits(c.pred, h), ids, tokens, c.rowMap) == ProjectCandidates(c.pred, ids, tokens, h,
      c.rowMap)
    ensures var got := ProjectCandidates(c.pred, ids, tokens, h, c.rowMap);
      got.Some? && |got.value| == |ids|
      && forall k :: 0 <= k < |ids| ==>
        got.value[k] == HeadLogit(predict(prompts[ids[k]], hidden[firsts[k]]), h, tokens[k])
  {
    hide HeadLogit, IsFirst, MapsTo, FirstRows;
    GatherIsProjection(c.pred, ids, tokens, h, c.rowMap);
    forall k | 0 <= k < |ids|
      ensures 0 <= c.rowMap.value[ids[k]] < |c.pred|
        && c.pred[c.rowMap.value[ids[k]]] == predict(prompts[ids[k]], hidden[firsts[k]])
    {
      ServedIsFirstRows(c, hidden, prompts, predict, rows, unique, ids[k], firsts[k], false);
      assert Mapped(c.rowMap, [ids[k]]).value == [c.rowMap.value[ids[k]]];
    }
  }
}
