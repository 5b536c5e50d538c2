/** When setup may skip capturing every decode row, and how wide the compact lane is. */
module CapturePlan {
  import opened Common

  /** One flow as the capture decision sees it. A first-per-prompt flow is step-scope: its declaration
      refuses any other bundle key. */
  datatype Flow = Flow(readsResidual: bool, firstPerPrompt: bool, maxRows: int)

  datatype Plan = Plan(flows: seq<Flow>, hasEventTargets: bool)

  predicate Compacted(f: Flow) { f.readsResidual && f.firstPerPrompt }

  /** Every residual flow, of which there is one, is compacted, and nobody else needs the rows. */
  ghost predicate OnlyCompacted(p: Plan) {
    && !p.hasEventTargets && (exists f :: f in p.flows && f.readsResidual)
    && forall f :: f in p.flows && f.readsResidual ==> f.firstPerPrompt
  }

  /** requires_full_residual_capture */
  method RequiresFullCapture(p: Plan) returns (full: bool)
    ensures !full <==> OnlyCompacted(p)
  {
    if p.hasEventTargets { return true; }
    var saw := false;
    for i := 0 to |p.flows|
      invariant saw <==> exists f :: f in p.flows[..i] && f.readsResidual
      invariant forall f :: f in p.flows[..i] && f.readsResidual ==> f.firstPerPrompt
    {
      assert p.flows[..i + 1] == p.flows[..i] + [p.flows[i]];
      if p.flows[i].readsResidual {
        assert p.flows[i] in p.flows[..i + 1];
        saw := true;
        if !p.flows[i].firstPerPrompt { return true; }
      }
    }
    assert p.flows[..|p.flows|] == p.flows;
    full := !saw;
  }

  /** has_residual_row_compaction("first_per_prompt") */
  method HasCompaction(p: Plan) returns (has: bool)
    ensures has <==> exists f :: f in p.flows && Compacted(f)
  {
    has := false;
    for i := 0 to |p.flows|
      invariant forall f :: f in p.flows[..i] ==> !Compacted(f)
    {
      assert p.flows[..i + 1] == p.flows[..i] + [p.flows[i]];
      if Compacted(p.flows[i]) { return true; }
    }
    assert p.flows[..|p.flows|] == p.flows;
  }

  /** max_residual_compact_rows: the widest cap, or 0 when some compacted flow has none. */
  method MaxCompactRows(p: Plan) returns (rows: nat)
    ensures var uncapped := exists f :: f in p.flows && Compacted(f) && f.maxRows <= 0;
      rows == 0 <==> uncapped || forall f :: f in p.flows ==> !Compacted(f)
    ensures rows > 0 ==> forall f :: f in p.flows && Compacted(f) ==> f.maxRows <= rows
    ensures rows > 0 ==> exists f :: f in p.flows && Compacted(f) && f.maxRows == rows
  {
    var any, uncapped, widest := false, false, 0;
    for i := 0 to |p.flows|
      invariant any <==> exists f :: f in p.flows[..i] && Compacted(f)
      invariant uncapped <==> exists f :: f in p.flows[..i] && Compacted(f) && f.maxRows <= 0
      invariant widest >= 0 && forall f :: f in p.flows[..i] && Compacted(f) ==> f.maxRows <= widest
      invariant widest > 0 ==> exists f :: f in p.flows[..i] && Compacted(f) && f.maxRows == widest
      invariant any && !uncapped ==> widest > 0
    {
      var f := p.flows[i];
      assert p.flows[..i + 1] == p.flows[..i] + [f];
      assert f in p.flows[..i + 1];
      if Compacted(f) {
        any := true;
        if f.maxRows <= 0 { uncapped := true; } else { widest := Max(widest, f.maxRows); }
      }
    }
    assert p.flows[..|p.flows|] == p.flows;
    rows := if !any || uncapped then 0 else Max(1, widest);
  }

  datatype Setup = Setup(rows: nat, compactRows: nat, captureFull: bool)

  /** The compact lane is as wide as the decode rows, or as the widest compacted flow. */
  ghost predicate FitsCaps(p: Plan, s: Setup) {
    s.compactRows == s.rows || forall f :: f in p.flows && Compacted(f) ==> f.maxRows <= s.compactRows
  }

  /** resolve_runtime_setup and apply_runtime_setup: capacities, and whether the taps gather all rows.
      They skip it exactly when the compact lane is on, no sampler intervention needs the rows, no
      event consumer exists, and every residual flow (of which there is one) is compacted. */
  method Resolve(plan: Option<Plan>, scratchRows: int, maxRequests: int, laneEnabled: bool, intervention: bool)
    returns (r: Result<Setup, string>)
    ensures r.Err? <==> scratchRows <= 0 && maxRequests <= 0
    ensures r.Ok? ==> r.value.rows > 0 && r.value.rows == if scratchRows > 0 then scratchRows else maxRequests
    ensures r.Ok? ==> (!r.value.captureFull <==>
      laneEnabled && !intervention && plan.Some? && OnlyCompacted(plan.value))
    ensures r.Ok? && !r.value.captureFull ==> r.value.compactRows > 0
    ensures r.Ok? && r.value.compactRows > 0 ==> laneEnabled && plan.Some? && FitsCaps(plan.value, r.value)
  {
    var rows := if scratchRows > 0 then scratchRows else maxRequests;
    if rows <= 0 { return Err("Please set graph_scratch_rows > 0 (or ensure runner.max_num_reqs > 0)"); }
    var compactRows, captureFullRows := 0, true;
    if laneEnabled && plan.Some? {
      var has := HasCompaction(plan.value);
      if has {
        compactRows := MaxCompactRows(plan.value);
        if compactRows <= 0 { compactRows := rows; }
      }
    }
    if plan.Some? { captureFullRows := RequiresFullCapture(plan.value); }
    if intervention { captureFullRows := true; }
    r := Ok(Setup(rows, compactRows, compactRows <= 0 || captureFullRows));
  }
}
