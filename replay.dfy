/** Repeated reads of one future.

    future/future.go receives from the future's channel in Await (line 66) and
    Try (line 78). The channel holds the one Result until the first receive
    takes it; from then on it is closed and empty, and every later receive
    yields the zero Result at once. The package's tests (future/future_test.go,
    lines 116-135 and 254-393) expect every read after settlement to see the
    same outcome again. This module states both: the code as written, where
    the first read drains the slot, and the retained-result design those tests
    describe, where the settled Result stays in place. */
module Replay {
  import opened Wrappers
  import opened Futures

  /** One read of a future: Await with select case `takeSlot` chosen, or Try. */
  datatype Read = AwaitRead(ctx: Context, takeSlot: bool) | TryRead

  /** What a read returns; `ready` is Try's third result and is true for an
      Await. */
  datatype Observed<T> = Observed(value: T, err: Option<Error>, ready: bool)

  /** The read receives from the slot rather than returning the context's
      error or Try's "not ready". */
  predicate Receives(op: Read) {
    op.TryRead? || op.takeSlot
  }

  /** Every Await that does not take the slot has a done context, so no read
      blocks once the future has settled. */
  predicate NeverBlocks(ops: seq<Read>) {
    forall i :: 0 <= i < |ops| ==> ops[i].AwaitRead? && !ops[i].takeSlot ==> ops[i].ctx.Done()
  }

  /** Dropping the first read keeps the rest non-blocking. */
  lemma NeverBlocksTail(ops: seq<Read>)
    requires NeverBlocks(ops) && ops != []
    ensures NeverBlocks(ops[1..])
  {
  }

  // ---------------------------------------------------------------------------
  // As written: a receive drains the slot

  /** One read on a settled or drained slot, by AwaitSpec and TrySpec. */
  function ReadSlot<T>(s: Slot<T>, op: Read, zero: T): (Observed<T>, Slot<T>)
    requires Ready(s)
    requires op.AwaitRead? && !op.takeSlot ==> op.ctx.Done()
  {
    match op
    case AwaitRead(ctx, takeSlot) =>
      var a := AwaitSpec(s, ctx, takeSlot, zero);
      (Observed(a.value, a.err, true), a.after)
    case TryRead =>
      var t := TrySpec(s, zero);
      (Observed(t.value, t.err, t.ok), t.after)
  }

  /** A sequence of reads on one future, each seeing the slot the previous
      one left. */
  function ReadsAsWritten<T>(s: Slot<T>, ops: seq<Read>, zero: T): (obs: seq<Observed<T>>)
    requires Ready(s) && NeverBlocks(ops)
    ensures |obs| == |ops|
    decreases |ops|
  {
    if ops == [] then []
    else
      var (o, s') := ReadSlot(s, ops[0], zero);
      NeverBlocksTail(ops);
      [o] + ReadsAsWritten(s', ops[1..], zero)
  }

  /** Once drained, every read that receives sees the zero Result, and Try
      reports ready. */
  lemma {:induction false} DrainedReadsSeeZero<T>(ops: seq<Read>, zero: T)
    requires NeverBlocks(ops)
    ensures var obs := ReadsAsWritten(Drained, ops, zero);
            forall j :: 0 <= j < |ops| && Receives(ops[j]) ==> obs[j] == Observed(zero, None, true)
  {
    if ops != [] {
      var obs := ReadsAsWritten(Drained, ops, zero);
      NeverBlocksTail(ops);
      DrainedReadsSeeZero(ops[1..], zero);
      forall j | 0 < j < |ops| && Receives(ops[j])
        ensures obs[j] == Observed(zero, None, true)
      {
        assert ops[1..][j - 1] == ops[j];
      }
    }
  }

  /** On a settled future, the first read that receives gets the Result and
      every later one gets the zero Result: the outcome is not replayed. */
  lemma {:induction false} FirstReceiveDrains<T>(r: Result<T>, ops: seq<Read>, zero: T, k: nat)
    requires NeverBlocks(ops) && k < |ops| && Receives(ops[k])
    requires forall j :: 0 <= j < k ==> !Receives(ops[j])
    ensures var obs := ReadsAsWritten(Settled(r), ops, zero);
            && obs[k] == Observed(r.value, r.err, true)
            && forall j :: k < j < |ops| && Receives(ops[j]) ==> obs[j] == Observed(zero, None, true)
  {
    var obs := ReadsAsWritten(Settled(r), ops, zero);
    NeverBlocksTail(ops);
    if k == 0 {
      DrainedReadsSeeZero(ops[1..], zero);
      forall j | 0 < j < |ops| && Receives(ops[j])
        ensures obs[j] == Observed(zero, None, true)
      {
        assert ops[1..][j - 1] == ops[j];
      }
    } else {
      // ops[0] is an Await that took the context case: the slot is untouched
      FirstReceiveDrains(r, ops[1..], zero, k - 1);
      forall j | k < j < |ops| && Receives(ops[j])
        ensures obs[j] == Observed(zero, None, true)
      {
        assert ops[1..][j - 1] == ops[j];
      }
    }
  }

  /** The reads of TestTry_MultipleCalls (future/future_test.go:314-358): after
      one Await, each Try reports ready but returns the empty string and a nil
      error instead of "result". */
  lemma TryAfterAwaitSeesZero()
    ensures ReadsAsWritten(Settled(Result("result", None)), [AwaitRead(Live, true), TryRead, TryRead, TryRead], "")
            == [Observed("result", None, true), Observed("", None, true), Observed("", None, true), Observed("", None, true)]
  {
  }

  // ---------------------------------------------------------------------------
  // Corrected: the settled Result is retained and replayed

  /** A retained-result cell: unset until the producer settles it, then
      holding its Result for good. */
  datatype Cell<T> = Unset | Set(result: Result<T>)

  /** One read on the cell; the cell is left as it was. */
  function ReadCell<T>(c: Cell<T>, op: Read, zero: T): (Observed<T>, Cell<T>)
    requires op.AwaitRead? ==> if op.takeSlot then c.Set? else op.ctx.Done()
  {
    match op
    case AwaitRead(ctx, takeSlot) =>
      if takeSlot then (Observed(c.result.value, c.result.err, true), c)
      else (Observed(zero, ctx.Err(), true), c)
    case TryRead =>
      if c.Set? then (Observed(c.result.value, c.result.err, true), c)
      else (Observed(zero, None, false), c)
  }

  /** A sequence of reads on a settled cell, each seeing the cell the previous
      one left. */
  function ReadsRetained<T>(c: Cell<T>, ops: seq<Read>, zero: T): (obs: seq<Observed<T>>)
    requires c.Set? && NeverBlocks(ops)
    ensures |obs| == |ops|
    decreases |ops|
  {
    if ops == [] then []
    else
      var (o, c') := ReadCell(c, ops[0], zero);
      NeverBlocksTail(ops);
      [o] + ReadsRetained(c', ops[1..], zero)
  }

  /** Every read that receives from a settled cell sees the settled Result,
      however many reads came before it. */
  lemma {:induction false} RetainedReadsReplay<T>(r: Result<T>, ops: seq<Read>, zero: T)
    requires NeverBlocks(ops)
    ensures var obs := ReadsRetained(Set(r), ops, zero);
            forall j :: 0 <= j < |ops| && Receives(ops[j]) ==> obs[j] == Observed(r.value, r.err, true)
  {
    if ops != [] {
      var obs := ReadsRetained(Set(r), ops, zero);
      NeverBlocksTail(ops);
      RetainedReadsReplay(r, ops[1..], zero);
      forall j | 0 < j < |ops| && Receives(ops[j])
        ensures obs[j] == Observed(r.value, r.err, true)
      {
        assert ops[1..][j - 1] == ops[j];
      }
    }
  }

  /** The same reads as TestTry_MultipleCalls on a retained cell return
      "result" every time. */
  lemma TryAfterAwaitReplays()
    ensures ReadsRetained(Set(Result("result", None)), [AwaitRead(Live, true), TryRead, TryRead, TryRead], "")
            == [Observed("result", None, true), Observed("result", None, true), Observed("result", None, true), Observed("result", None, true)]
  {
  }

  /** Both designs agree on every read up to and including the first one that
      receives; they part only after it. */
  lemma {:induction false} DesignsAgreeThroughFirstReceive<T>(r: Result<T>, ops: seq<Read>, zero: T, k: nat)
    requires NeverBlocks(ops) && k < |ops| && Receives(ops[k])
    requires forall j :: 0 <= j < k ==> !Receives(ops[j])
    ensures ReadsAsWritten(Settled(r), ops, zero)[..k + 1] == ReadsRetained(Set(r), ops, zero)[..k + 1]
  {
    var drained := ReadsAsWritten(Settled(r), ops, zero);
    var retained := ReadsRetained(Set(r), ops, zero);
    NeverBlocksTail(ops);
    if k > 0 {
      // ops[0] is an Await that took the context case: both report ctx.Err()
      assert drained[0] == retained[0];
      DesignsAgreeThroughFirstReceive(r, ops[1..], zero, k - 1);
      assert drained[..k + 1] == [drained[0]] + drained[1..][..k];
      assert retained[..k + 1] == [retained[0]] + retained[1..][..k];
    }
  }
}
