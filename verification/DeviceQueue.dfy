/** A device that runs several FIFO streams of copies, event records, event waits and
    trainings.  Operations are numbered in host enqueue order; a wait is bound, when it
    is enqueued, to the number of the latest record of its event. */
module DeviceQueue {
  import opened Common

  datatype Side = Source | Target

  datatype Action =
    | Copy(side: Side, buf: nat, batch: nat, rows: seq<Row>)
    | Record
    | Wait(target: Option<nat>)
    | Train(buf: nat, batch: nat, activeRows: int, prompts: seq<int>)

  datatype Op = Op(stream: nat, action: Action)

  /** Two operations on the same pipeline buffer, at least one of which writes it. */
  predicate Conflict(a: Action, b: Action) {
    (a.Copy? || a.Train?) && (b.Copy? || b.Train?) && a.buf == b.buf && (a.Copy? || b.Copy?)
  }

  /** Waits only name earlier operations. */
  ghost predicate WellBound(ops: seq<Op>) {
    forall j :: 0 <= j < |ops| && ops[j].action.Wait? && ops[j].action.target.Some?
      ==> ops[j].action.target.value < j
  }

  /** A set of finished operations that some schedule can reach. */
  ghost predicate Closed(ops: seq<Op>, d: set<nat>) {
    forall j :: j in d ==>
      && j < |ops|
      && (forall i :: 0 <= i < j && ops[i].stream == ops[j].stream ==> i in d)
      && (ops[j].action.Wait? && ops[j].action.target.Some? ==> ops[j].action.target.value in d)
  }

  /** Operation i finishes before operation j in every schedule. */
  ghost predicate Before(ops: seq<Op>, i: nat, j: nat) {
    forall d: set<nat> :: Closed(ops, d) && j in d ==> i in d
  }

  /** Every conflicting pair is ordered, in enqueue order. */
  ghost predicate RaceFree(ops: seq<Op>) {
    forall i: nat, j: nat :: i < j < |ops| && Conflict(ops[i].action, ops[j].action) ==> Before(ops, i, j)
  }

  lemma {:induction false} BeforeSameStream(ops: seq<Op>, i: nat, j: nat)
    requires i <= j < |ops| && ops[i].stream == ops[j].stream
    ensures Before(ops, i, j)
  {
  }

  lemma {:induction false} BeforeWait(ops: seq<Op>, i: nat, r: nat, w: nat)
    requires w < |ops| && ops[w].action == Wait(Some(r)) && Before(ops, i, r)
    ensures Before(ops, i, w)
  {
  }

  lemma {:induction false} BeforeTransitive(ops: seq<Op>, i: nat, j: nat, k: nat)
    requires Before(ops, i, j) && Before(ops, j, k)
    ensures Before(ops, i, k)
  {
  }

  /** Enqueueing more work never removes an ordering. */
  lemma {:induction false} BeforeStable(ops: seq<Op>, more: seq<Op>, i: nat, j: nat)
    requires WellBound(ops) && Before(ops, i, j) && j < |ops|
    ensures Before(ops + more, i, j)
  {
    forall d: set<nat> | Closed(ops + more, d) && j in d ensures i in d {
      var e := set x | x in d && x < |ops|;
      assert Closed(ops, e) by {
        forall x | x in e
          ensures forall y :: 0 <= y < x && ops[y].stream == ops[x].stream ==> y in e
          ensures ops[x].action.Wait? && ops[x].action.target.Some? ==> ops[x].action.target.value in e
        {
          assert (ops + more)[x] == ops[x];
          forall y | 0 <= y < x && ops[y].stream == ops[x].stream ensures y in e {
            assert (ops + more)[y] == ops[y];
          }
        }
      }
      assert j in e;
    }
  }

  // ---- execution ----------------------------------------------------------------

  /** _copy_rows: overwrite the common prefix, leave stale rows behind it. */
  function CopyRows(dst: seq<Row>, src: seq<Row>): (out: seq<Row>)
    ensures |out| == |dst|
    ensures forall k :: 0 <= k < |out| ==> out[k] == if k < |src| then src[k] else dst[k]
  {
    var copied := Min(|dst|, |src|);
    src[..copied] + dst[copied..]
  }

  /** What one training read. */
  datatype Read = Read(op: nat, src: seq<Row>, tgt: seq<Row>)

  datatype Device = Device(done: set<nat>, written: map<(Side, nat), seq<Row>>, observed: seq<Read>)

  type Memory = (Side, nat) -> seq<Row>

  function Load(d: Device, init: Memory, side: Side, buf: nat): seq<Row> {
    if (side, buf) in d.written then d.written[(side, buf)] else init(side, buf)
  }

  ghost predicate Enabled(ops: seq<Op>, done: set<nat>, i: nat) {
    && i < |ops| && i !in done
    && (forall k :: 0 <= k < i && ops[k].stream == ops[i].stream ==> k in done)
    && (ops[i].action.Wait? && ops[i].action.target.Some? ==> ops[i].action.target.value in done)
  }

  function Execute(ops: seq<Op>, init: Memory, d: Device, i: nat): Device
    requires i < |ops|
  {
    match ops[i].action
    case Copy(side, buf, _, rows) =>
      Device(d.done + {i}, d.written[(side, buf) := CopyRows(Load(d, init, side, buf), rows)], d.observed)
    case Train(buf, _, _, _) =>
      Device(d.done + {i}, d.written, d.observed + [Read(i, Load(d, init, Source, buf), Load(d, init, Target, buf))])
    case _ =>
      Device(d.done + {i}, d.written, d.observed)
  }

  /** Buffer contents after the first j operations, skipping those outside `done`. */
  ghost function Contents(ops: seq<Op>, done: set<nat>, init: Memory, side: Side, buf: nat, j: nat): seq<Row>
    requires j <= |ops|
  {
    if j == 0 then init(side, buf)
    else
      var before := Contents(ops, done, init, side, buf, j - 1);
      var a := ops[j - 1].action;
      if j - 1 in done && a.Copy? && a.side == side && a.buf == buf then CopyRows(before, a.rows) else before
  }

  function Prefix(j: nat): (p: set<nat>)
    ensures forall n: nat :: n in p <==> n < j
  {
    if j == 0 then {} else Prefix(j - 1) + {j - 1}
  }

  /** Contents in plain enqueue order: what a single-stream program would see. */
  ghost function Sequential(ops: seq<Op>, init: Memory, side: Side, buf: nat, j: nat): seq<Row>
    requires j <= |ops|
  {
    Contents(ops, Prefix(j), init, side, buf, j)
  }

  lemma {:induction false} ContentsAgree(ops: seq<Op>, ops': seq<Op>, d: set<nat>, d': set<nat>, init: Memory,
        side: Side, buf: nat, j: nat)
    requires j <= |ops| && j <= |ops'|
    requires forall k: nat :: k < j ==> ops[k] == ops'[k]
    requires forall k: nat :: k < j && ops[k].action.Copy? && ops[k].action.side == side && ops[k].action.buf == buf
               ==> (k in d <==> k in d')
    ensures Contents(ops, d, init, side, buf, j) == Contents(ops', d', init, side, buf, j)
  {
    if j > 0 { ContentsAgree(ops, ops', d, d', init, side, buf, j - 1); }
  }

  /** Operations from j on leave the buffer alone. */
  lemma {:induction false} ContentsTail(ops: seq<Op>, d: set<nat>, init: Memory, side: Side, buf: nat, j: nat, k: nat)
    requires j <= k <= |ops|
    requires forall i: nat :: i in d && j <= i < k && ops[i].action.Copy? && ops[i].action.side == side ==>
      ops[i].action.buf != buf
    ensures Contents(ops, d, init, side, buf, k) == Contents(ops, d, init, side, buf, j)
  {
    if j < k { ContentsTail(ops, d, init, side, buf, j, k - 1); }
  }

  /** The device invariant: finished work is schedulable, memory is the enqueue-order effect
      of the finished copies, and every training read exactly the enqueue-order contents. */
  ghost predicate Coherent(ops: seq<Op>, init: Memory, d: Device) {
    && Closed(ops, d.done)
    && (forall side, buf :: Load(d, init, side, buf) == Contents(ops, d.done, init, side, buf, |ops|))
    && (forall r :: r in d.observed ==> ReadsSequentially(ops, init, r))
  }

  ghost predicate ReadsSequentially(ops: seq<Op>, init: Memory, r: Read) {
    && r.op < |ops| && ops[r.op].action.Train?
    && r.src == Sequential(ops, init, Source, ops[r.op].action.buf, r.op)
    && r.tgt == Sequential(ops, init, Target, ops[r.op].action.buf, r.op)
  }

  lemma {:induction false} EnabledCloses(ops: seq<Op>, done: set<nat>, i: nat)
    requires Closed(ops, done) && Enabled(ops, done, i)
    ensures Closed(ops, done + {i})
  {
  }

  /** In a race-free log a copy that runs now is later, in enqueue order, than every finished
      copy of its buffer. */
  lemma {:induction false} CopyIsLatest(ops: seq<Op>, done: set<nat>, i: nat, k: nat)
    requires RaceFree(ops) && Closed(ops, done) && i < |ops| && i !in done
    requires i < k < |ops| && ops[i].action.Copy? && ops[k].action.Copy? && ops[k].action.buf == ops[i].action.buf
    ensures k !in done
  {
    assert Conflict(ops[i].action, ops[k].action);
    assert Before(ops, i, k);
  }

  lemma {:induction false} ContentsCopy(ops: seq<Op>, done: set<nat>, init: Memory, i: nat)
    requires i < |ops| && i in done && ops[i].action.Copy?
    ensures var a := ops[i].action;
      Contents(ops, done, init, a.side, a.buf, i + 1) == CopyRows(Contents(ops, done, init, a.side, a.buf, i), a.rows)
  {
    hide CopyRows;
  }

  lemma {:induction false} CopyStep(ops: seq<Op>, init: Memory, done: set<nat>, i: nat)
    requires i < |ops| && i !in done && ops[i].action.Copy?
    requires forall k: nat :: i < k < |ops| && ops[k].action.Copy? && ops[k].action.buf == ops[i].action.buf ==>
      k !in done
    ensures var a := ops[i].action;
      Contents(ops, done + {i}, init, a.side, a.buf, |ops|)
      == CopyRows(Contents(ops, done, init, a.side, a.buf, |ops|), a.rows)
  {
    hide Contents, CopyRows;
    var a := ops[i].action;
    ContentsTail(ops, done, init, a.side, a.buf, i, |ops|);
    ContentsAgree(ops, ops, done, done + {i}, init, a.side, a.buf, i);
    ContentsCopy(ops, done + {i}, init, i);
    ContentsTail(ops, done + {i}, init, a.side, a.buf, i + 1, |ops|);
  }

  lemma {:induction false} TrainStep(ops: seq<Op>, init: Memory, d: Device, i: nat, side: Side)
    requires RaceFree(ops) && Coherent(ops, init, d) && Enabled(ops, d.done, i) && ops[i].action.Train?
    ensures Load(d, init, side, ops[i].action.buf) == Sequential(ops, init, side, ops[i].action.buf, i)
  {
    var buf := ops[i].action.buf;
    EnabledCloses(ops, d.done, i);
    forall k: nat | k < |ops| && ops[k].action.Copy? && ops[k].action.buf == buf
      ensures k < i ==> k in d.done
      ensures k > i ==> k !in d.done
    {
      if k < i { assert Conflict(ops[k].action, ops[i].action); assert Before(ops, k, i); }
      if k > i { assert Conflict(ops[i].action, ops[k].action); assert Before(ops, i, k); }
    }
    ContentsTail(ops, d.done, init, side, buf, i, |ops|);
    ContentsAgree(ops, ops, d.done, Prefix(i), init, side, buf, i);
  }

  /** Race freedom makes every schedule equivalent to enqueue order, one step at a time. */
  lemma {:induction false} ExecuteCoherent(ops: seq<Op>, init: Memory, d: Device, i: nat)
    requires RaceFree(ops) && Coherent(ops, init, d) && Enabled(ops, d.done, i)
    ensures Coherent(ops, init, Execute(ops, init, d, i))
  {
    EnabledCloses(ops, d.done, i);
    var d' := Execute(ops, init, d, i);
    match ops[i].action
    case Copy(side, buf, _, _) =>
      forall k: nat | i < k < |ops| && ops[k].action.Copy? && ops[k].action.buf == buf ensures k !in d.done {
        CopyIsLatest(ops, d.done, i, k);
      }
      CopyStep(ops, init, d.done, i);
      forall s, b: nat | (s, b) != (side, buf)
        ensures Load(d', init, s, b) == Contents(ops, d'.done, init, s, b, |ops|)
      {
        ContentsAgree(ops, ops, d.done, d'.done, init, s, b, |ops|);
      }
    case Train(buf, _, _, _) =>
      TrainStep(ops, init, d, i, Source);
      TrainStep(ops, init, d, i, Target);
      forall side, b ensures Load(d', init, side, b) == Contents(ops, d'.done, init, side, b, |ops|) {
        ContentsAgree(ops, ops, d.done, d'.done, init, side, b, |ops|);
      }
    case _ =>
      forall side, b ensures Load(d', init, side, b) == Contents(ops, d'.done, init, side, b, |ops|) {
        ContentsAgree(ops, ops, d.done, d'.done, init, side, b, |ops|);
      }
  }

  /** Enqueueing more work keeps the device invariant. */
  lemma {:induction false} EnqueueCoherent(ops: seq<Op>, more: seq<Op>, init: Memory, d: Device)
    requires Coherent(ops, init, d)
    ensures Coherent(ops + more, init, d)
  {
    var all := ops + more;
    assert forall k: nat :: k < |ops| ==> all[k] == ops[k];
    forall side, buf ensures Load(d, init, side, buf) == Contents(all, d.done, init, side, buf, |all|) {
      ContentsAgree(ops, all, d.done, d.done, init, side, buf, |ops|);
      ContentsTail(all, d.done, init, side, buf, |ops|, |all|);
    }
    forall r | r in d.observed ensures ReadsSequentially(all, init, r) {
      ContentsAgree(ops, all, Prefix(r.op), Prefix(r.op), init, Source, ops[r.op].action.buf, r.op);
      ContentsAgree(ops, all, Prefix(r.op), Prefix(r.op), init, Target, ops[r.op].action.buf, r.op);
    }
  }

  /** The device never deadlocks: the oldest unfinished operation can always run. */
  lemma {:induction false} SomeOpEnabled(ops: seq<Op>, done: set<nat>, upto: nat)
    requires WellBound(ops) && upto < |ops| && upto !in done
    ensures exists i: nat :: i <= upto && Enabled(ops, done, i)
    decreases upto
  {
    if k: nat :| k < upto && k !in done {
      SomeOpEnabled(ops, done, k);
    } else {
      assert Enabled(ops, done, upto);
    }
  }
}
