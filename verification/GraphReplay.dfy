/** Captured training graphs: staging writes a batch into fixed buffers, replay computes a masked
    loss over the whole of them.  Slot graphs read the pipeline slot's own buffers. */
module GraphReplay {
  import opened Common
  import opened Losses

  datatype CaptureState = Uncaptured | Captured | Disabled

  /** `bank` is the number of bank slots, 0 in shared mode. */
  class Graph {
    var rows: nat
    var bank: nat
    var activeRows: nat
    var external: bool
    var state: CaptureState
    var src: array?<Row>
    var tgt: array?<Row>
    var valid: array?<real>
    var slotIds: array?<nat>

    /** Whatever was staged before, the mask is 1 exactly on the active rows. */
    ghost predicate Valid()
      reads this, valid, slotIds
    {
      if valid == null then state != Captured && !external && src == null && tgt == null && slotIds == null
      else
        && valid.Length == rows && Prefix(valid[..], activeRows)
        && src != null && tgt != null && src != tgt && rows <= src.Length && rows <= tgt.Length
        && slotIds != null && slotIds.Length == rows && (bank > 0 ==> forall i :: 0 <= i < rows ==> slotIds[i] < bank)
    }

    /** The arrays that belong to this graph. */
    ghost function Own(): set<object?>
      reads this
    {
      var v: object?, i: object?, s: object?, t: object? := valid, slotIds, src, tgt;
      {v, i} + (if external then {} else {s, t})
    }

    ghost function Parts(): (parts: set<object>)
      reads this
      ensures this in parts
    {
      {this} + (if valid == null then {} else {valid}) + (if slotIds == null then {} else {slotIds})
      + (if external || src == null then {} else {src}) + (if external || tgt == null then {} else {tgt})
    }

    lemma {:induction false} PartsHold()
      ensures (valid != null ==> valid in Parts()) && (slotIds != null ==> slotIds in Parts())
    {
    }

    constructor ()
      ensures Valid() && valid == null && state == Uncaptured && !external && activeRows == 0
    {
      rows, bank, activeRows, external, state := 0, 0, 0, false, Uncaptured;
      src, tgt, valid, slotIds := null, null, null, null;
    }

    /** _reset_graph_state */
    method Reset()
      modifies this
      ensures Valid() && valid == null && state == Uncaptured && !external && Parts() == {this}
    {
      rows, bank, activeRows, external, state := 0, 0, 0, false, Uncaptured;
      src, tgt, valid, slotIds := null, null, null, null;
    }

    /** The buffers fit; what an external graph aliases is not compared. */
    predicate Fits(wantedRows: nat, wantedBank: nat, wantExternal: bool)
      reads this
    {
      valid != null && rows == wantedRows && bank == wantedBank && external == wantExternal
    }

    /** Fresh mask and slot ids over the given inputs. */
    method Rebind(wantedRows: nat, wantedBank: nat, s: array<Row>, t: array<Row>, isExternal: bool)
      requires s != t && wantedRows <= s.Length && wantedRows <= t.Length
      modifies this
      ensures Valid() && Fits(wantedRows, wantedBank, isExternal) && state == Uncaptured && activeRows == 0
      ensures src == s && tgt == t && valid != null && slotIds != null && fresh(valid) && fresh(slotIds)
    {
      var v, ids := new real[wantedRows](_ => 0.0), new nat[wantedRows](_ => 0);
      rows, bank, activeRows, external, state := wantedRows, wantedBank, 0, isExternal, Uncaptured;
      src, tgt, valid, slotIds := s, t, v, ids;
    }

    /** _ensure_graph_storage without external inputs */
    method EnsureOwnStorage(wantedRows: nat, wantedBank: nat)
      requires Valid()
      modifies this
      ensures Valid() && Fits(wantedRows, wantedBank, false)
      ensures if old(Fits(wantedRows, wantedBank, false)) then Own() == old(Own()) && activeRows == old(activeRows)
        && state == old(state)
              else fresh(Own()) && state == Uncaptured && activeRows == 0
      ensures fresh(Parts() - old(Parts()))
    {
      if Fits(wantedRows, wantedBank, false) { return; }
      var s, t := new Row[wantedRows](_ => []), new Row[wantedRows](_ => []);
      Rebind(wantedRows, wantedBank, s, t, false);
    }

    /** A capture attempt on buffers that fit succeeds, or turns the graph off for good. */
    method Settle(works: bool)
      requires Valid() && valid != null
      modifies this`state
      ensures Valid() && Own() == old(Own()) && Parts() == old(Parts())
      ensures state == if works then Captured else Disabled
    {
      state := if works then Captured else Disabled;
    }

    /** _ensure_graph_storage over a pipeline slot's own buffers */
    method EnsureAliasStorage(wantedRows: nat, wantedBank: nat, srcInput: array<Row>, tgtInput: array<Row>)
      requires Valid() && srcInput != tgtInput && wantedRows <= srcInput.Length && wantedRows <= tgtInput.Length
      modifies this
      ensures Valid() && Fits(wantedRows, wantedBank, true)
      ensures if old(Fits(wantedRows, wantedBank, true)) then src == old(src) && tgt == old(tgt) && Own() == old(Own())
        && state == old(state)
              else fresh(Own() - {null}) && src == srcInput && tgt == tgtInput && state == Uncaptured && activeRows == 0
      ensures fresh(Parts() - old(Parts()))
    {
      if Fits(wantedRows, wantedBank, true) { return; }
      Rebind(wantedRows, wantedBank, srcInput, tgtInput, true);
    }

    /** Clears the previously active prefix, then fills the new one. */
    method WriteMask(n: nat)
      requires Valid() && valid != null && 0 < n <= rows
      modifies valid
      ensures forall i :: 0 <= i < rows ==> valid[i] == if i < n then 1.0 else 0.0
    {
      forall i | 0 <= i < activeRows { valid[i] := 0.0; }
      forall i | 0 <= i < n { valid[i] := 1.0; }
    }

    /** _stage_graph_inputs */
    method Stage(srcRows: array<Row>, tgtRows: array<Row>, n: int, ids: Option<seq<nat>>) returns (ok: bool)
      requires Valid() && srcRows != tgtRows && n <= srcRows.Length && n <= tgtRows.Length
      requires ids.Some? ==> |ids.value| == n && (valid != null ==> forall k :: 0 <= k < n ==> ids.value[k] < bank)
      requires if external then srcRows == src && tgtRows == tgt else srcRows !in Own() && tgtRows !in Own()
      modifies this`activeRows, Own()
      ensures ok <==> valid != null && 0 < n <= rows && (bank == 0 || ids.Some?)
      ensures ok ==> Valid() && activeRows == n && (bank > 0 ==> slotIds[..n] == ids.value)
      ensures ok ==> src[..n] == old(srcRows[..n]) && tgt[..n] == old(tgtRows[..n])
      ensures !ok && !(valid != null && 0 < n <= rows) ==> Valid() && activeRows == old(activeRows)
      ensures !ok && valid != null && 0 < n <= rows ==>
        activeRows == old(activeRows) && forall i :: 0 <= i < rows ==> valid[i] == if i < n then 1.0 else 0.0
      ensures !ok && slotIds != null ==> slotIds[..] == old(slotIds[..])
    {
      if valid == null { return false; }
      if n <= 0 || n > rows { return false; }
      WriteMask(n);
      if !external {
        forall i | 0 <= i < n { src[i] := srcRows[i]; }
        forall i | 0 <= i < n { tgt[i] := tgtRows[i]; }
      }
      if bank > 0 {
        if ids.None? { return false; }
        forall i | 0 <= i < n { slotIds[i] := ids.value[i]; }
      }
      activeRows := n;
      return true;
    }

    /** What one replay of the captured bank graph adds to the loss. */
    function BankLoss(f: Forward, width: nat): real
      requires width > 0 && Valid() && valid != null
      reads this, valid, slotIds, src, tgt
    {
      BankGraph(f, slotIds[..], src[..], tgt[..], valid[..], bank, width)
    }

    function SharedLoss(f: Forward, width: nat): real
      requires width > 0 && Valid() && valid != null
      reads this, valid, slotIds, src, tgt
    {
      SharedGraph(f, src[..], tgt[..], valid[..], width)
    }
  }

  lemma {:induction false} RewrittenMask(mask: seq<real>, oldActive: nat, n: nat)
    requires 0 < n <= |mask| && oldActive <= |mask|
    requires forall i :: 0 <= i < |mask| ==> mask[i] == if i < n then 1.0 else 0.0
    ensures Prefix(mask, oldActive) <==> oldActive == n
  {
    if oldActive < n { assert mask[oldActive] == 1.0; }
    if n < oldActive { assert mask[n] == 0.0; }
  }

  /** Staging a bank graph without slot ids, which no caller does: it fails after the mask was rewritten,
      and the graph stays valid exactly when the row count is the one staged before. */
  method StageWithoutIds(g: Graph, s: array<Row>, t: array<Row>, n: nat) returns (ok: bool)
    requires g.Valid() && g.valid != null && g.bank > 0 && 0 < n <= g.rows
    requires s != t && n <= s.Length && n <= t.Length
    requires if g.external then s == g.src && t == g.tgt else s !in g.Own() && t !in g.Own()
    modifies g`activeRows, g.Own()
    ensures !ok && (g.Valid() <==> old(g.activeRows) == n)
  {
    ok := g.Stage(s, t, n, None);
    RewrittenMask(g.valid[..], g.activeRows, n);
  }
}
