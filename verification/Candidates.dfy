/** Sampling from the flat list of min-p candidates: segmented argmax, and the fixed top-k variant. */
module Candidates {
  import opened Logits
  import opened MinP
  import opened Rows

  datatype Candidate = Candidate(row: nat, token: nat)

  // ---- the flat list ----------------------------------------------------------------------

  function RowCandidates(keep: seq<bool>, row: nat): (out: seq<Candidate>) {
    var tokens := Nonzero(keep);
    seq(|tokens|, k requires 0 <= k < |tokens| => Candidate(row, tokens[k]))
  }

  /** mask.nonzero(as_tuple=True): row-major row and token ids. */
  function Flat(mask: seq<seq<bool>>): (out: seq<Candidate>) {
    if mask == [] then [] else Flat(mask[..|mask| - 1]) + RowCandidates(mask[|mask| - 1], |mask| - 1)
  }

  predicate Kept(mask: seq<seq<bool>>, c: Candidate)
  {
    c.row < |mask| && c.token < |mask[c.row]| && mask[c.row][c.token]
  }

  lemma {:induction false} RowCandidatesMeaning(keep: seq<bool>, row: nat)
    ensures forall c: Candidate :: c in RowCandidates(keep, row) <==> c.row == row && c.token < |keep| && keep[c.token]
  {
    NonzeroMeaning(keep);
    var tokens := Nonzero(keep);
    forall c: Candidate | c.row == row && c.token < |keep| && keep[c.token] ensures c in RowCandidates(keep, row) {
      assert c.token in tokens;
      var k :| 0 <= k < |tokens| && tokens[k] == c.token;
      assert RowCandidates(keep, row)[k] == c;
    }
  }

  /** The list holds exactly the kept cells. */
  lemma {:induction false} FlatMeaning(mask: seq<seq<bool>>)
    ensures forall c :: c in Flat(mask) <==> Kept(mask, c)
  {
    if mask != [] {
      var n := |mask| - 1;
      FlatMeaning(mask[..n]);
      RowCandidatesMeaning(mask[n], n);
      forall c ensures c in Flat(mask) <==> Kept(mask, c) {
        assert c in Flat(mask) <==> c in Flat(mask[..n]) || c in RowCandidates(mask[n], n);
      }
    }
  }

  // ---- candidates of a row --------------------------------------------------------------------

  /** A row with a finite maximum: its first maximum is kept, and whatever is kept is finite. */
  lemma {:induction false} FiniteRowKeeps(row: seq<Logit>, minP: real, log: Log)
    requires |row| > 0 && Top(row).Fin?
    ensures TorchKeep(row, minP, log)[ArgMax(row)] && KernelKeep(row, minP, log)[ArgMax(row)]
    ensures forall i :: 0 <= i < |row| && (TorchKeep(row, minP, log)[i] || KernelKeep(row, minP, log)[i]) ==>
      row[i].Fin?
  {
  }

  function FiniteMask(row: seq<Logit>): seq<bool> { seq(|row|, i requires 0 <= i < |row| => row[i].Fin?) }

  /** Filtering in place and then selecting the finite logits gives the mask's candidates exactly
      when the row has a finite logit. */
  lemma {:induction false} FilteredSameCandidates(row: seq<Logit>, minP: real, log: Log)
    requires |row| > 0
    ensures FiniteMask(Masked(row, TorchKeep(row, minP, log))) == TorchKeep(row, minP, log) <==> Top(row).Fin?
  {
    var keep := TorchKeep(row, minP, log);
    if Top(row).Fin? {
      FiniteRowKeeps(row, minP, log);
      assert FiniteMask(Masked(row, keep)) == keep;
    } else {
      assert keep[0] && !FiniteMask(Masked(row, keep))[0];
    }
  }

  // ---- the sampler ------------------------------------------------------------------------

  /** Distiller logit of a candidate, and the random number subtracted from its score. */
  type PerCandidate = Candidate -> real

  function Value(logits: seq<seq<Logit>>, c: Candidate): real {
    if c.row < |logits| && c.token < |logits[c.row]| && logits[c.row][c.token].Fin? then logits[c.row][c.token].v
      else 0.0
  }

  /** (1 + beta) * llm - beta * distiller */
  function Blend(beta: real, llm: real, distiller: real): real { (1.0 + beta) * llm - beta * distiller }

  function Score(logits: seq<seq<Logit>>, beta: real, dist: PerCandidate, noise: PerCandidate, c: Candidate): real {
    Blend(beta, Value(logits, c), dist(c)) - noise(c)
  }

  /** Candidate c has the best score of its row. */
  ghost predicate Winner(cands: seq<Candidate>, score: PerCandidate, c: Candidate) {
    c in cands && forall d :: d in cands && d.row == c.row ==> score(d) <= score(c)
  }

  /** v is the score of one of row r's candidates. */
  ghost predicate Attained(cands: seq<Candidate>, score: PerCandidate, r: int, v: Logit) {
    exists c :: c in cands && c.row == r && v == Fin(score(c))
  }

  /** row_scores: scatter_reduce amax from minus infinity. */
  method RowScores(cands: seq<Candidate>, score: PerCandidate, rows: nat) returns (best: array<Logit>)
    requires forall c :: c in cands ==> c.row < rows
    ensures fresh(best) && best.Length == rows
    ensures forall c :: c in cands ==> AtMost(Fin(score(c)), best[c.row])
    ensures forall r :: 0 <= r < rows ==> best[r] == NegInf || Attained(cands, score, r, best[r])
  {
    best := new Logit[rows](_ => NegInf);
    for k := 0 to |cands|
      invariant forall j :: 0 <= j < k ==> AtMost(Fin(score(cands[j])), best[cands[j].row])
      invariant forall r :: 0 <= r < rows ==> best[r] == NegInf || Attained(cands, score, r, best[r])
    {
      var c := cands[k];
      assert c in cands;
      if AtMost(best[c.row], Fin(score(c))) { best[c.row] := Fin(score(c)); }
    }
  }

  /** The winning candidates, scattered in any order: torch leaves it open which of several
      writes to one cell is last. */
  method ScatterWinners(cands: seq<Candidate>, score: PerCandidate, best: array<Logit>) returns (sampled: array<nat>)
    requires forall c :: c in cands ==> c.row < best.Length && AtMost(Fin(score(c)), best[c.row])
    requires forall r :: 0 <= r < best.Length ==> Attained(cands, score, r, best[r])
    ensures fresh(sampled) && sampled.Length == best.Length
    ensures forall r :: 0 <= r < sampled.Length ==> Winner(cands, score, Candidate(r, sampled[r]))
  {
    sampled := new nat[best.Length];
    var winners := set c | c in cands && Fin(score(c)) == best[c.row];
    var left := winners;
    ghost var tops := best[..];
    while left != {}
      invariant left <= winners && best[..] == tops
      invariant forall c :: c in winners - left ==> Candidate(c.row, sampled[c.row]) in winners
    {
      var c :| c in left;
      sampled[c.row] := c.token;
      assert Candidate(c.row, sampled[c.row]) == c;
      left := left - {c};
    }
    forall r | 0 <= r < sampled.Length ensures Winner(cands, score, Candidate(r, sampled[r])) {
      assert Attained(cands, score, r, tops[r]);
      var c :| c in cands && c.row == r && tops[r] == Fin(score(c));
      assert c in winners - left;
    }
  }

  ghost predicate HasKept(keep: seq<bool>) { exists t: nat :: t < |keep| && keep[t] }

  lemma {:induction false} SomeCandidate(mask: seq<seq<bool>>)
    requires forall r :: 0 <= r < |mask| ==> HasKept(mask[r])
    ensures mask != [] ==> Flat(mask) != []
  {
    FlatMeaning(mask);
    if mask != [] {
      assert HasKept(mask[0]);
      var t: nat :| t < |mask[0]| && mask[0][t];
      assert Kept(mask, Candidate(0, t));
    }
  }

  /** TorchMinPCandidateKernel.sample over a keep mask: every row gets one of its own candidates,
      with that row's best score; without candidates, the argmax. */
  method Sample(logits: seq<seq<Logit>>, mask: seq<seq<bool>>, score: PerCandidate) returns (sampled: seq<nat>)
    requires |mask| == |logits| && forall r :: 0 <= r < |logits| ==> |logits[r]| > 0
    requires forall r :: 0 <= r < |logits| ==> HasKept(mask[r])
    ensures |sampled| == |logits|
    ensures forall r :: 0 <= r < |logits| ==> Winner(Flat(mask), score, Candidate(r, sampled[r]))
  {
    var cands := Flat(mask);
    FlatMeaning(mask);
    var plain := seq(|logits|, r requires 0 <= r < |logits| => ArgMax(logits[r]));
    SomeCandidate(mask);
    if cands == [] { return plain; }
    var best := RowScores(cands, score, |logits|);
    forall r | 0 <= r < |logits| ensures Attained(cands, score, r, best[r]) {
      assert HasKept(mask[r]);
      var t: nat :| t < |mask[r]| && mask[r][t];
      assert Candidate(r, t) in cands;
    }
    var out := ScatterWinners(cands, score, best);
    sampled := out[..];
  }

  function TorchMask(logits: seq<seq<Logit>>, minP: seq<real>, log: Log): (mask: seq<seq<bool>>)
    requires |minP| == |logits| && forall r :: 0 <= r < |logits| ==> |logits[r]| > 0
    ensures |mask| == |logits| && forall r :: 0 <= r < |logits| ==> |mask[r]| == |logits[r]|
  {
    seq(|logits|, r requires 0 <= r < |logits| => TorchKeep(logits[r], minP[r], log))
  }

  /** With finite row maxima, min-p candidate sampling draws for every row a token its own min-p
      filter keeps, with the best score of all tokens the filter keeps in that row. */
  method SampleMinP(logits: seq<seq<Logit>>, minP: seq<real>, log: Log, beta: real, dist: PerCandidate,
        noise: PerCandidate)
    returns (sampled: seq<nat>)
    requires |minP| == |logits| && forall r :: 0 <= r < |logits| ==> |logits[r]| > 0 && Top(logits[r]).Fin?
    ensures |sampled| == |logits|
    ensures forall r :: 0 <= r < |logits| ==>
      sampled[r] < |logits[r]| && TorchKeep(logits[r], minP[r], log)[sampled[r]] && logits[r][sampled[r]].Fin?
    ensures forall r, t: nat :: 0 <= r < |logits| && t < |logits[r]| && TorchKeep(logits[r], minP[r], log)[t] ==>
      Score(logits, beta, dist, noise, Candidate(r, t)) <= Score(logits, beta, dist, noise, Candidate(r, sampled[r]))
    ensures forall r, t: nat :: 0 <= r < |logits| && t < |logits[r]| && TorchKeep(logits[r], minP[r], log)[t] ==>
      var s := sampled[r];
      && logits[r][t].Fin?
      && (1.0 + beta) * logits[r][t].v - beta * dist(Candidate(r, t)) - noise(Candidate(r, t))
           <= (1.0 + beta) * logits[r][s].v - beta * dist(Candidate(r, s)) - noise(Candidate(r, s))
  {
    hide Score, TorchKeep, Top, FiniteMask;
    var mask := TorchMask(logits, minP, log);
    var score := c => Score(logits, beta, dist, noise, c);
    forall r | 0 <= r < |logits| ensures HasKept(mask[r]) {
      FiniteRowKeeps(logits[r], minP[r], log);
      assert mask[r][ArgMax(logits[r])];
    }
    sampled := Sample(logits, mask, score);
    forall r | 0 <= r < |logits|
      ensures sampled[r] < |logits[r]| && mask[r][sampled[r]] && logits[r][sampled[r]].Fin?
      ensures forall t: nat :: t < |logits[r]| && mask[r][t] ==>
        score(Candidate(r, t)) <= score(Candidate(r, sampled[r]))
    {
      FiniteRowKeeps(logits[r], minP[r], log);
      WinnerInRow(mask, score, r, sampled[r]);
    }
    forall r, t: nat | 0 <= r < |logits| && t < |logits[r]| && TorchKeep(logits[r], minP[r], log)[t]
      ensures logits[r][t].Fin?
      ensures Drawn(logits[r][t].v, dist(Candidate(r, t)), noise(Candidate(r, t)), beta) <=
        Drawn(logits[r][sampled[r]].v, dist(Candidate(r, sampled[r])), noise(Candidate(r, sampled[r])), beta)
    {
      FiniteRowKeeps(logits[r], minP[r], log);
      assert mask[r][t];
      ScoreIs(logits, beta, dist, noise, Candidate(r, t));
      ScoreIs(logits, beta, dist, noise, Candidate(r, sampled[r]));
    }
  }

  /** The blended logit less the candidate's random number. */
  lemma {:induction false} ScoreIs(logits: seq<seq<Logit>>, beta: real, dist: PerCandidate, noise: PerCandidate,
                                   c: Candidate)
    requires c.row < |logits| && c.token < |logits[c.row]| && logits[c.row][c.token].Fin?
    ensures Score(logits, beta, dist, noise, c) == Drawn(logits[c.row][c.token].v, dist(c), noise(c), beta)
  {
  }

  function Drawn(llm: real, distiller: real, random: real, beta: real): real {
    (1.0 + beta) * llm - beta * distiller - random
  }

  /** In terms of the mask: the winner is kept, and nothing kept in its row scores higher. */
  lemma {:induction false} WinnerInRow(mask: seq<seq<bool>>, score: PerCandidate, r: nat, token: nat)
    requires r < |mask| && Winner(Flat(mask), score, Candidate(r, token))
    ensures token < |mask[r]| && mask[r][token]
    ensures forall t: nat :: t < |mask[r]| && mask[r][t] ==> score(Candidate(r, t)) <= score(Candidate(r, token))
  {
    FlatMeaning(mask);
    assert Kept(mask, Candidate(r, token));
    forall t: nat | t < |mask[r]| && mask[r][t] ensures score(Candidate(r, t)) <= score(Candidate(r, token)) {
      assert Candidate(r, t) in Flat(mask);
    }
  }

  // ---- greedy ---------------------------------------------------------------------------------

  /** The row build_modified_logits_exact produces: the intervention on kept logits, minus infinity
      elsewhere. */
  function Modified(row: seq<Logit>, keep: seq<bool>, beta: real, dist: nat -> real): (out: seq<Logit>)
    requires |keep| == |row|
    ensures |out| == |row|
  {
    seq(|row|, i requires 0 <= i < |row| => if keep[i] && row[i].Fin? then Fin(Blend(beta, row[i].v, dist(i)))
      else NegInf)
  }

  /** Without noise, the sampled token is in the argmax set of the row's modified logits. */
  lemma {:induction false} GreedyIsArgMax(logits: seq<seq<Logit>>, mask: seq<seq<bool>>, beta: real,
        dist: PerCandidate, r: nat, token: nat)
    requires |mask| == |logits| && r < |logits| && |mask[r]| == |logits[r]|
    requires forall i :: 0 <= i < |mask[r]| && mask[r][i] ==> logits[r][i].Fin?
    requires Winner(Flat(mask), c => Score(logits, beta, dist, _ => 0.0, c), Candidate(r, token))
    ensures token < |logits[r]|
    ensures var out := Modified(logits[r], mask[r], beta, (t: nat) => dist(Candidate(r, t)));
      out[token] == Top(out) && out[token].Fin?
  {
    FlatMeaning(mask);
    var score := c => Score(logits, beta, dist, _ => 0.0, c);
    var out := Modified(logits[r], mask[r], beta, (t: nat) => dist(Candidate(r, t)));
    assert Kept(mask, Candidate(r, token));
    assert out[token] == Fin(score(Candidate(r, token)));
    forall i | 0 <= i < |out| ensures AtMost(out[i], out[token]) {
      if out[i].Fin? {
        assert Candidate(r, i) in Flat(mask);
        assert out[i] == Fin(score(Candidate(r, i)));
      }
    }
    TopIs(out, out[token]);
  }

  // ---- fixed top-k --------------------------------------------------------------------------

  /** logits.topk(k): some k positions, best first, nothing outside above the last. */
  ghost predicate IsTopK(row: seq<Logit>, ids: seq<nat>) {
    && 0 < |ids| <= |row|
    && (forall j :: 0 <= j < |ids| ==> ids[j] < |row|)
    && (forall a, b :: 0 <= a < b < |ids| ==> ids[a] != ids[b] && AtMost(row[ids[b]], row[ids[a]]))
    && (forall i: nat :: i < |row| && i !in ids ==> AtMost(row[i], row[ids[|ids| - 1]]))
  }

  /** Position j survives: the first always does, the others by the threshold of the first value. */
  function FixedKeep(row: seq<Logit>, ids: seq<nat>, minP: real, log: Log): (keep: seq<bool>)
    requires |ids| > 0 && forall j :: 0 <= j < |ids| ==> ids[j] < |row|
    ensures |keep| == |ids|
  {
    seq(|ids|, j requires 0 <= j < |ids| => j == 0 || AtMost(Shift(row[ids[0]], log(MinP.Clamp(minP))), row[ids[j]]))
  }

  ghost function FixedSet(row: seq<Logit>, ids: seq<nat>, minP: real, log: Log): set<nat>
    requires |ids| > 0 && forall j :: 0 <= j < |ids| ==> ids[j] < |row|
  {
    set j | 0 <= j < |ids| && FixedKeep(row, ids, minP, log)[j] :: ids[j]
  }

  ghost function ExactSet(row: seq<Logit>, minP: real, log: Log): set<nat>
    requires |row| > 0
  {
    set i: nat | i < |row| && TorchKeep(row, minP, log)[i]
  }

  lemma {:induction false} TopKHead(row: seq<Logit>, ids: seq<nat>)
    requires IsTopK(row, ids)
    ensures row[ids[0]] == Top(row)
  {
    forall i: nat | i < |row| ensures AtMost(row[i], row[ids[0]]) {
      if i in ids {
        var j :| 0 <= j < |ids| && ids[j] == i;
      } else {
        assert AtMost(row[i], row[ids[|ids| - 1]]);
      }
    }
    TopIs(row, row[ids[0]]);
  }

  lemma {:induction false} Subset(a: set<nat>, b: set<nat>)
    requires a <= b
    ensures |a| <= |b|
  {
    if a != b { var rest := b - a; assert b == a + rest; }
  }

  /** For min_p at most one, membership is the threshold alone. */
  lemma {:induction false} Members(row: seq<Logit>, ids: seq<nat>, minP: real, log: Log)
    requires IsTopK(row, ids) && IsLog(log) && minP <= 1.0
    ensures forall i: nat :: i in ExactSet(row, minP, log) <==> i < |row| && AtMost(Threshold(row, minP, log), row[i])
    ensures forall i: nat :: i in FixedSet(row, ids, minP, log) <==>
      i in ids && AtMost(Threshold(row, minP, log), row[i])
  {
    TopKHead(row, ids);
    var p := MinP.Clamp(minP);
    assert log(p) <= 0.0;
    forall i: nat | i in ids && AtMost(Threshold(row, minP, log), row[i]) ensures i in FixedSet(row, ids, minP, log) {
      var j :| 0 <= j < |ids| && ids[j] == i;
      assert FixedKeep(row, ids, minP, log)[j];
    }
  }

  /** The fixed top-k candidates are the exact ones exactly when min-p keeps at most k tokens. */
  lemma {:induction false} FixedTopKExactly(row: seq<Logit>, ids: seq<nat>, minP: real, log: Log)
    requires IsTopK(row, ids) && IsLog(log) && minP <= 1.0
    ensures FixedSet(row, ids, minP, log) == ExactSet(row, minP, log) <==> |ExactSet(row, minP, log)| <= |ids|
  {
    hide FixedSet, ExactSet, Threshold, TorchKeep, Elements;
    var fixed, exact := FixedSet(row, ids, minP, log), ExactSet(row, minP, log);
    Members(row, ids, minP, log);
    DistinctCount(ids);
    if fixed == exact {
      Subset(fixed, Elements(ids)) by { assert fixed <= Elements(ids) by { InElements(ids); } }
    } else if |exact| <= |ids| {
      var i := Extra(fixed, exact);
      MissedMeansMore(row, ids, Threshold(row, minP, log), exact, i);
      assert false;
    }
  }

  lemma {:induction false} Extra(a: set<nat>, b: set<nat>) returns (i: nat)
    requires a <= b && a != b
    ensures i in b && i !in a
  {
    var rest := b - a;
    assert b == a + rest;
    i :| i in rest;
  }

  lemma {:induction false} InElements(ids: seq<nat>)
    ensures forall i: nat :: i in ids <==> i in Elements(ids)
  {
  }

  /** A token above the threshold that top-k left out: everything top-k took is above it too. */
  lemma {:induction false} MissedMeansMore(row: seq<Logit>, ids: seq<nat>, threshold: Logit, exact: set<nat>, i: nat)
    requires IsTopK(row, ids) && i < |row| && i !in ids && i in exact
    requires forall c: nat :: c < |row| && AtMost(threshold, row[c]) <==> c in exact
    ensures |exact| > |ids|
  {
    forall c: nat | c in Elements(ids) ensures c in exact {
      var j :| 0 <= j < |ids| && ids[j] == c;
      assert AtMost(row[i], row[ids[|ids| - 1]]) && AtMost(row[ids[|ids| - 1]], row[c]);
    }
    DistinctCount(ids);
    assert |Elements(ids) + {i}| == |ids| + 1;
    Subset(Elements(ids) + {i}, exact);
  }

  /** Above one, both keep a single token; they agree exactly when top-k leads with the first maximum. */
  lemma {:induction false} FixedTopKAboveOne(row: seq<Logit>, ids: seq<nat>, minP: real, log: Log)
    requires IsTopK(row, ids) && IsLog(log) && minP > 1.0 && Top(row).Fin?
    ensures FixedSet(row, ids, minP, log) == {ids[0]} && ExactSet(row, minP, log) == {ArgMax(row)}
  {
    TopKHead(row, ids);
    assert log(MinP.Clamp(minP)) > 0.0;
    assert FixedKeep(row, ids, minP, log)[0];
  }

  /** Scores by position, minus infinity where not kept. */
  function FixedScores(row: seq<Logit>, ids: seq<nat>, minP: real, log: Log, score: nat -> real): (out: seq<Logit>)
    requires |ids| > 0 && forall j :: 0 <= j < |ids| ==> ids[j] < |row|
    ensures |out| == |ids|
  {
    seq(|ids|, j requires 0 <= j < |ids| =>
      if FixedKeep(row, ids, minP, log)[j] && row[ids[j]].Fin? then Fin(score(ids[j])) else NegInf)
  }

  /** The token at the best position is an exact candidate with the best score of all of them. */
  lemma {:induction false} FixedPickIsBest(row: seq<Logit>, ids: seq<nat>, minP: real, log: Log, score: nat -> real)
    requires IsTopK(row, ids) && IsLog(log) && minP <= 1.0 && Top(row).Fin? && |ExactSet(row, minP, log)| <= |ids|
    ensures var token := ids[ArgMax(FixedScores(row, ids, minP, log, score))];
      token in ExactSet(row, minP, log) && forall i :: i in ExactSet(row, minP, log) ==> score(i) <= score(token)
  {
    hide FixedKeep, ExactSet, Threshold;
    var scores, exact := FixedScores(row, ids, minP, log, score), ExactSet(row, minP, log);
    FixedTopKExactly(row, ids, minP, log);
    TopKHead(row, ids);
    assert FixedKeep(row, ids, minP, log)[0] by { FirstKept(row, ids, minP, log); }
    var pos := ArgMax(scores);
    assert AtMost(scores[0], scores[pos]);
    forall i | i in exact ensures score(i) <= score(ids[pos]) {
      var j :| 0 <= j < |ids| && FixedKeep(row, ids, minP, log)[j] && ids[j] == i;
      assert row[i].Fin? by { ExactFinite(row, minP, log, i); }
      assert AtMost(scores[j], scores[pos]);
    }
  }

  lemma {:induction false} FirstKept(row: seq<Logit>, ids: seq<nat>, minP: real, log: Log)
    requires IsTopK(row, ids)
    ensures FixedKeep(row, ids, minP, log)[0]
  {
  }

  lemma {:induction false} ExactFinite(row: seq<Logit>, minP: real, log: Log, i: nat)
    requires |row| > 0 && Top(row).Fin? && i in ExactSet(row, minP, log)
    ensures i < |row| && row[i].Fin?
  {
    FiniteRowKeeps(row, minP, log);
  }
}
