/** Package future (future/future.go): a write-once result slot filled by a
    producer goroutine, the receive operations Await and Try on it, and the
    combinators All and Any over many futures.

    Concurrency is abstracted away: the producer goroutine is one atomic step
    (`Future.Produce`), blocking is replaced by a precondition saying that some
    select case is ready, and the pseudo-random choice a `select` makes among
    ready cases is a parameter that the precondition ties to ready cases. Go's
    zero value of `T` is passed in as `zero`. */
module Futures {
  import opened Wrappers

  // ---------------------------------------------------------------------------
  // Errors, contexts, results

  /** The error values the package produces or passes along; Go's nil error is
      `None` in an `Option<Error>`. */
  datatype Error =
    | Canceled                // context.Canceled
    | DeadlineExceeded        // context.DeadlineExceeded
    | Errorf(text: string)    // an error the package formats itself
    | Other(text: string)     // any other error a work function returns

  /** A context as a given state rather than a clock: still live, cancelled by
      its cancel function, or past its deadline. */
  datatype Context = Live | CancelCalled | DeadlinePassed {

    /** Whether `ctx.Done()` is closed, i.e. a receive from it is ready. */
    predicate Done() {
      !Live?
    }

    /** `ctx.Err()`: nil while live, the sentinel naming the reason once done. */
    function Err(): (e: Option<Error>)
      ensures e.Some? <==> Done()
      ensures CancelCalled? ==> e == Some(Canceled)
      ensures DeadlinePassed? ==> e == Some(DeadlineExceeded)
    {
      match this
      case Live => None
      case CancelCalled => Some(Canceled)
      case DeadlinePassed => Some(DeadlineExceeded)
    }
  }

  /** The `Result[T]` struct: a value and an error, both always present. */
  datatype Result<T> = Result(value: T, err: Option<Error>)

  /** How a call of the work function ends: it returns `(v, err)`; it panics
      with a payload, kept as the text `%v` prints for it; or it exits its
      goroutine through `runtime.Goexit` (as `t.FailNow` does), which runs the
      deferred calls but is no panic, so `recover` reports nothing. */
  datatype Outcome<T> = Returned(value: T, err: Option<Error>) | Panicked(payload: string) | Exited

  const PanicPrefix := "panic: "

  /** The error a recovered panic becomes: "panic: <payload>\n<stack>". */
  function PanicError(payload: string, stack: string): Error {
    Errorf(PanicPrefix + payload + "\n" + stack)
  }

  /** The error Any reports when the chosen channel is closed and empty. */
  const ClosedUnexpectedly := Errorf("future channel closed unexpectedly")

  // ---------------------------------------------------------------------------
  // The launch outcome rule

  /** The one Result the producer goroutine delivers. `ctx` is the launch
      context as the goroutine finds it, `work` the function handed to
      StartFuture and `stack` the text debug.Stack() yields. */
  function Launch<T>(ctx: Context, work: Context -> Outcome<T>, zero: T, stack: string): (r: Result<T>)
    // a context already done skips the work and reports its own error
    ensures ctx.Done() ==> r.value == zero && r.err == ctx.Err() && r.err.Some?
    // a normal return is passed on verbatim
    ensures !ctx.Done() && work(ctx).Returned? ==> r.value == work(ctx).value && r.err == work(ctx).err
    // a panic becomes the zero value with a "panic: <payload>" error
    ensures !ctx.Done() && work(ctx).Panicked? ==>
              r.value == zero && r.err.Some? && r.err.value.Errorf? &&
              PanicPrefix + work(ctx).payload <= r.err.value.text
    // a Goexit leaves `out` at its zero value: a silent success
    ensures !ctx.Done() && work(ctx).Exited? ==> r.value == zero && r.err == None
  {
    if ctx.Done() then Result(zero, ctx.Err())
    else match work(ctx)
      case Returned(v, err) => Result(v, err)
      case Panicked(payload) => Result(zero, Some(PanicError(payload, stack)))
      case Exited => Result(zero, None)
  }

  /** Once the context is done the work function is not consulted at all: any
      two work functions give the same Result. */
  lemma LaunchIgnoresWorkWhenDone<T>(ctx: Context, w1: Context -> Outcome<T>, w2: Context -> Outcome<T>, zero: T, stack: string)
    requires ctx.Done()
    ensures Launch(ctx, w1, zero, stack) == Launch(ctx, w2, zero, stack)
    ensures ctx == CancelCalled ==> Launch(ctx, w1, zero, stack).err == Some(Canceled)
  {
  }

  // ---------------------------------------------------------------------------
  // The slot: a channel of capacity 1 that receives one send and is closed

  /** The states of a future's channel that the atomic producer leaves
      reachable: nothing sent yet and open; the one Result buffered and the
      channel closed; closed and empty after a receive took the Result. */
  datatype Slot<T> = Pending | Settled(result: Result<T>) | Drained

  /** A receive from the channel would not block. */
  predicate Ready<T>(s: Slot<T>) {
    !s.Pending?
  }

  /** What `r, ok := <-ch` yields, and the slot afterwards. */
  datatype Received<T> = Received(result: Result<T>, ok: bool, after: Slot<T>)

  /** Go's receive on a ready channel: a buffered value is taken and removed;
      a closed, empty channel yields the zero Result with ok == false. */
  function Receive<T>(s: Slot<T>, zero: T): (rcv: Received<T>)
    requires Ready(s)
    ensures rcv.after == Drained
    ensures rcv.ok <==> s.Settled?
    ensures rcv.ok ==> rcv.result == s.result
    ensures !rcv.ok ==> rcv.result == Result(zero, None)
  {
    match s
    case Settled(r) => Received(r, true, Drained)
    case Drained => Received(Result(zero, None), false, Drained)
  }

  /** The `select` in Await can take case `takeSlot` without blocking: the
      receive needs a ready slot, the other case a done context. */
  predicate CanAwait<T>(s: Slot<T>, ctx: Context, takeSlot: bool) {
    if takeSlot then Ready(s) else ctx.Done()
  }

  /** What Await returns, and the slot afterwards. */
  datatype Awaited<T> = Awaited(value: T, err: Option<Error>, after: Slot<T>)

  /** Await with the select case `takeSlot` chosen (either may be chosen when
      both are ready). */
  function AwaitSpec<T>(s: Slot<T>, ctx: Context, takeSlot: bool, zero: T): (a: Awaited<T>)
    requires CanAwait(s, ctx, takeSlot)
    // taking the slot returns what the receive yields and drains the slot
    ensures takeSlot ==> a.value == Receive(s, zero).result.value &&
                         a.err == Receive(s, zero).result.err && a.after == Drained
    // the context case reports ctx.Err(), never nil, and leaves the slot alone
    ensures !takeSlot ==> a.value == zero && a.err == ctx.Err() && a.err.Some? && a.after == s
    // Await never empties a slot that is still pending, and keeps a ready one ready
    ensures Ready(a.after) <==> Ready(s)
  {
    if takeSlot then
      var rcv := Receive(s, zero);
      Awaited(rcv.result.value, rcv.result.err, rcv.after)
    else
      Awaited(zero, ctx.Err(), s)
  }

  /** What Try returns, and the slot afterwards. */
  datatype Tried<T> = Tried(value: T, err: Option<Error>, ok: bool, after: Slot<T>)

  /** Try: a select with a default case, so a ready receive is always taken. */
  function TrySpec<T>(s: Slot<T>, zero: T): (t: Tried<T>)
    // ok reports that a receive happened, not that a value was buffered
    ensures t.ok <==> Ready(s)
    ensures !t.ok ==> t.value == zero && t.err == None && t.after == s
    ensures s.Settled? ==> t.value == s.result.value && t.err == s.result.err && t.after == Drained
    ensures s.Drained? ==> t.value == zero && t.err == None && t.after == Drained
  {
    if Ready(s) then
      var rcv := Receive(s, zero);
      Tried(rcv.result.value, rcv.result.err, true, rcv.after)
    else
      Tried(zero, None, false, s)
  }

  // ---------------------------------------------------------------------------
  // The future object

  /** A `*Future[T]`: the channel's single buffer place and its closed flag. */
  class Future<T> {
    /** The work function handed to StartFuture. */
    const work: Context -> Outcome<T>
    var buf: Option<Result<T>>
    var closed: bool

    /** Only the atomic producer writes, so a buffered value means closed. */
    ghost predicate Valid()
      reads this
    {
      buf.Some? ==> closed
    }

    /** The slot state these fields stand for. */
    function State(): Slot<T>
      reads this
      requires Valid()
    {
      if !closed then Pending
      else if buf.Some? then Settled(buf.value)
      else Drained
    }

    /** StartFuture: makes the empty channel of capacity 1; the goroutine it
        launches is the later `Produce` step. */
    constructor StartFuture(work: Context -> Outcome<T>)
      ensures Valid() && State() == Pending
      ensures this.work == work
    {
      this.work := work;
      buf := None;
      closed := false;
    }

    /** `ch <- out`: the buffer place is free and the channel open, so the send
        neither blocks nor panics. */
    method Send(out: Result<T>)
      requires buf.None? && !closed
      modifies this
      ensures buf == Some(out) && !closed
    {
      buf := Some(out);
    }

    /** `close(ch)`: the channel is not closed twice. */
    method Close()
      requires !closed
      modifies this
      ensures closed && buf == old(buf)
    {
      closed := true;
    }

    /** The body of the producer goroutine as one step: compute `out` by the
        launch outcome rule, send it once, close the channel. `ctx` is the
        launch context as the goroutine finds it. */
    method Produce(ctx: Context, zero: T, stack: string)
      requires Valid() && State() == Pending
      modifies this
      ensures Valid() && State() == Settled(Launch(ctx, work, zero, stack))
    {
      var out := Result(zero, None);
      if ctx.Done() {
        out := Result(zero, ctx.Err());
      } else {
        match work(ctx)
        case Returned(v, err) =>
          out := Result(v, err);
        case Panicked(payload) =>
          out := out.(err := Some(PanicError(payload, stack)));
        case Exited =>
      }
      Send(out);
      Close();
    }

    /** `r, ok := <-f.ch` on a ready channel. */
    method Recv(zero: T) returns (r: Result<T>, ok: bool)
      requires Valid() && Ready(State())
      modifies this
      ensures Valid() && Received(r, ok, State()) == Receive(old(State()), zero)
    {
      if buf.Some? {
        r, ok := buf.value, true;
        buf := None;
      } else {
        r, ok := Result(zero, None), false;
      }
    }

    /** Await with select case `takeSlot` chosen: the receive (case 0) or
        `ctx.Done()` (case 1). */
    method Await(ctx: Context, takeSlot: bool, zero: T) returns (value: T, err: Option<Error>)
      requires Valid() && CanAwait(State(), ctx, takeSlot)
      modifies this
      ensures Valid() && Awaited(value, err, State()) == AwaitSpec(old(State()), ctx, takeSlot, zero)
    {
      if takeSlot {
        var r, ok := Recv(zero);
        return r.value, r.err;
      }
      return zero, ctx.Err();
    }

    /** Try: the receive when it is ready, the default case otherwise. */
    method Try(zero: T) returns (value: T, err: Option<Error>, ok: bool)
      requires Valid()
      modifies this
      ensures Valid() && Tried(value, err, ok, State()) == TrySpec(old(State()), zero)
    {
      if closed || buf.Some? {
        var r, received := Recv(zero);
        return r.value, r.err, true;
      }
      return zero, None, false;
    }
  }

  /** `store` gives the slot state of every future in `fs`, each of which is
      in a consistent state. */
  ghost predicate Mirrors<T>(fs: seq<Future<T>>, store: map<Future<T>, Slot<T>>)
    reads fs
  {
    forall f | f in fs :: f in store && f.Valid() && f.State() == store[f]
  }

  // ---------------------------------------------------------------------------
  // All: await each future in order, stop at the first error

  /** Every Await that All actually reaches can take its chosen case:
      `takes[i]` is the case the i-th Await's select takes. An Await that
      reports an error ends All, so nothing is demanded of the futures after
      it. Handles may repeat (the same future twice in the slice), so slots
      are looked up in a store keyed by handle. */
  predicate AllRuns<H, T>(ctx: Context, hs: seq<H>, store: map<H, Slot<T>>, takes: seq<bool>, zero: T, i: nat)
    decreases |hs| - i
  {
    && |takes| == |hs| && i <= |hs|
    && (i < |hs| ==>
          && hs[i] in store && CanAwait(store[hs[i]], ctx, takes[i])
          && var a := AwaitSpec(store[hs[i]], ctx, takes[i], zero);
             a.err.Some? || AllRuns(ctx, hs, store[hs[i] := a.after], takes, zero, i + 1))
  }

  /** Every Await of the slice can take its chosen case, whether or not All
      reaches it. Success needs this: then every Await has run. */
  predicate AllEnabled<H, T>(ctx: Context, hs: seq<H>, store: map<H, Slot<T>>, takes: seq<bool>) {
    && |takes| == |hs|
    && forall i :: 0 <= i < |hs| ==> hs[i] in store && CanAwait(store[hs[i]], ctx, takes[i])
  }

  /** When every Await can take its case, All runs: an Await leaves a ready
      slot ready and a pending one pending, so later Awaits, of the same
      future or another, can still proceed. */
  lemma {:induction false} EnabledRuns<H, T>(ctx: Context, hs: seq<H>, store: map<H, Slot<T>>, takes: seq<bool>, zero: T, i: nat)
    requires AllEnabled(ctx, hs, store, takes) && i <= |hs|
    ensures AllRuns(ctx, hs, store, takes, zero, i)
    decreases |hs| - i
  {
    if i < |hs| {
      var store' := store[hs[i] := AwaitSpec(store[hs[i]], ctx, takes[i], zero).after];
      assert AllEnabled(ctx, hs, store', takes);
      EnabledRuns(ctx, hs, store', takes, zero, i + 1);
    }
  }

  /** What All returns, and the slots afterwards; `values == None` is the nil
      slice. */
  datatype Gathered<H, T> = Gathered(values: Option<seq<T>>, err: Option<Error>, store: map<H, Slot<T>>)

  /** The loop of All from index `i`, with the values `acc` collected so far:
      await `hs[i]`; on an error return nil and that error, otherwise collect
      its value and go on. */
  function AllFrom<H, T>(ctx: Context, hs: seq<H>, store: map<H, Slot<T>>, takes: seq<bool>, zero: T,
                         i: nat, acc: seq<T>): (g: Gathered<H, T>)
    requires AllRuns(ctx, hs, store, takes, zero, i)
    // nil values exactly when there is an error
    ensures g.values.Some? <==> g.err.None?
    // on success: what was collected, then one value per remaining future
    ensures g.values.Some? ==> |g.values.value| == |acc| + |hs| - i && acc <= g.values.value
    // no slot appears or disappears
    ensures g.store.Keys == store.Keys
    decreases |hs| - i
  {
    if i == |hs| then Gathered(Some(acc), None, store)
    else
      var a := AwaitSpec(store[hs[i]], ctx, takes[i], zero);
      var store' := store[hs[i] := a.after];
      if a.err.Some? then Gathered(None, a.err, store')
      else AllFrom(ctx, hs, store', takes, zero, i + 1, acc + [a.value])
  }

  /** All over the whole slice. */
  function AllSpec<H, T>(ctx: Context, hs: seq<H>, store: map<H, Slot<T>>, takes: seq<bool>, zero: T): (g: Gathered<H, T>)
    requires AllRuns(ctx, hs, store, takes, zero, 0)
    ensures g.values.Some? <==> g.err.None?
    ensures g.values.Some? ==> |g.values.value| == |hs|
    ensures g.store.Keys == store.Keys
  {
    AllFrom(ctx, hs, store, takes, zero, 0, [])
  }

  /** One step of the loop of All: the Await of `hs[i]` can take its case; an
      error ends All with that error, a value is collected and All goes on
      from `i + 1`. */
  lemma AllFromStep<H, T>(ctx: Context, hs: seq<H>, store: map<H, Slot<T>>, takes: seq<bool>, zero: T, i: nat, acc: seq<T>)
    requires AllRuns(ctx, hs, store, takes, zero, i) && i < |hs|
    ensures hs[i] in store && CanAwait(store[hs[i]], ctx, takes[i])
    ensures var a := AwaitSpec(store[hs[i]], ctx, takes[i], zero);
            var store' := store[hs[i] := a.after];
            if a.err.Some? then AllFrom(ctx, hs, store, takes, zero, i, acc) == Gathered(None, a.err, store')
            else && AllRuns(ctx, hs, store', takes, zero, i + 1)
                 && AllFrom(ctx, hs, store, takes, zero, i, acc) == AllFrom(ctx, hs, store', takes, zero, i + 1, acc + [a.value])
  {
  }

  /** The handles in `hs` are pairwise different futures. */
  ghost predicate Distinct<H>(hs: seq<H>) {
    forall i, j :: 0 <= i < j < |hs| ==> hs[i] != hs[j]
  }

  /** The i-th Await of All, as it sees the slot when no handle repeats. */
  function Step<H, T>(ctx: Context, hs: seq<H>, store: map<H, Slot<T>>, takes: seq<bool>, zero: T, i: nat): Awaited<T>
    requires i < |hs| == |takes| && hs[i] in store && CanAwait(store[hs[i]], ctx, takes[i])
  {
    AwaitSpec(store[hs[i]], ctx, takes[i], zero)
  }

  /** Awaiting `hs[i]` leaves the slots of the futures after it as they were,
      when no handle repeats. */
  lemma LaterStepsUnchanged<H, T>(ctx: Context, hs: seq<H>, store: map<H, Slot<T>>, takes: seq<bool>, zero: T, i: nat)
    requires AllEnabled(ctx, hs, store, takes) && Distinct(hs) && i < |hs|
    ensures var store' := store[hs[i] := Step(ctx, hs, store, takes, zero, i).after];
            && AllEnabled(ctx, hs, store', takes)
            && forall j :: i < j < |hs| ==> store'[hs[j]] == store[hs[j]]
  {
  }

  /** For distinct futures that can all be awaited (so that All runs, by
      `EnabledRuns`), All from `i` succeeds exactly when every Await from `i` on succeeds, and then appends
      their values in input order. */
  lemma {:induction false} AllFromSucceedsExactly<H, T>(ctx: Context, hs: seq<H>, store: map<H, Slot<T>>, takes: seq<bool>, zero: T,
                                                        i: nat, acc: seq<T>)
    requires AllEnabled(ctx, hs, store, takes) && Distinct(hs) && AllRuns(ctx, hs, store, takes, zero, i)
    ensures var g := AllFrom(ctx, hs, store, takes, zero, i, acc);
      && (g.err.None? <==> forall j :: i <= j < |hs| ==> Step(ctx, hs, store, takes, zero, j).err.None?)
      && (g.err.None? ==> forall j :: i <= j < |hs| ==> g.values.value[|acc| + j - i] == Step(ctx, hs, store, takes, zero, j).value)
    decreases |hs| - i
  {
    if i < |hs| {
      var a := Step(ctx, hs, store, takes, zero, i);
      if a.err.None? {
        var store' := store[hs[i] := a.after];
        LaterStepsUnchanged(ctx, hs, store, takes, zero, i);
        AllFromSucceedsExactly(ctx, hs, store', takes, zero, i + 1, acc + [a.value]);
        assert forall j :: i < j < |hs| ==> Step(ctx, hs, store', takes, zero, j) == Step(ctx, hs, store, takes, zero, j);
      }
    }
  }

  /** For distinct futures that can all be awaited (so that All runs, by
      `EnabledRuns`), All succeeds exactly when every Await succeeds; then it returns their values in input
      order. */
  lemma AllSucceedsExactly<H, T>(ctx: Context, hs: seq<H>, store: map<H, Slot<T>>, takes: seq<bool>, zero: T)
    requires AllEnabled(ctx, hs, store, takes) && Distinct(hs) && AllRuns(ctx, hs, store, takes, zero, 0)
    ensures var g := AllSpec(ctx, hs, store, takes, zero);
      && (g.err.None? <==> forall i :: 0 <= i < |hs| ==> Step(ctx, hs, store, takes, zero, i).err.None?)
      && (g.err.None? ==> forall i :: 0 <= i < |hs| ==> g.values.value[i] == Step(ctx, hs, store, takes, zero, i).value)
  {
    AllFromSucceedsExactly(ctx, hs, store, takes, zero, 0, []);
    var g := AllSpec(ctx, hs, store, takes, zero);
    if g.err.None? {
      forall i | 0 <= i < |hs|
        ensures g.values.value[i] == Step(ctx, hs, store, takes, zero, i).value
      {
      }
    }
  }

  /** For distinct futures, when index `k` is the first (from `i`) whose Await
      fails, All runs as soon as the Awaits up to `k` can take their cases,
      whatever state the later futures are in, and it returns nil and that
      error and never receives from the futures after `k`. */
  lemma {:induction false} AllFromFailsAtFirstError<H, T>(ctx: Context, hs: seq<H>, store: map<H, Slot<T>>, takes: seq<bool>, zero: T,
                                                          i: nat, acc: seq<T>, k: nat)
    requires |takes| == |hs| && Distinct(hs) && i <= k < |hs|
    requires forall j :: i <= j <= k ==> hs[j] in store && CanAwait(store[hs[j]], ctx, takes[j])
    requires Step(ctx, hs, store, takes, zero, k).err.Some?
    requires forall j :: i <= j < k ==> Step(ctx, hs, store, takes, zero, j).err.None?
    ensures AllRuns(ctx, hs, store, takes, zero, i)
    ensures var g := AllFrom(ctx, hs, store, takes, zero, i, acc);
      && g.values == None
      && g.err == Step(ctx, hs, store, takes, zero, k).err
      && forall j :: k < j < |hs| && hs[j] in store ==> g.store[hs[j]] == store[hs[j]]
    decreases |hs| - i
  {
    var a := Step(ctx, hs, store, takes, zero, i);
    var store' := store[hs[i] := a.after];
    if i < k {
      assert forall j :: i < j < |hs| ==> hs[j] != hs[i];
      assert forall j :: i < j <= k ==> store'[hs[j]] == store[hs[j]];
      assert forall j :: i < j <= k ==> Step(ctx, hs, store', takes, zero, j) == Step(ctx, hs, store, takes, zero, j);
      AllFromFailsAtFirstError(ctx, hs, store', takes, zero, i + 1, acc + [a.value], k);
    }
  }

  /** Index `k` is the first whose Await reports an error; the Awaits up to it
      can take their cases, and the futures after it may be in any state. */
  predicate FailsFirstAt<H, T>(ctx: Context, hs: seq<H>, store: map<H, Slot<T>>, takes: seq<bool>, zero: T, k: nat) {
    && k < |hs| == |takes|
    && (forall j :: 0 <= j <= k ==> hs[j] in store && CanAwait(store[hs[j]], ctx, takes[j]))
    && Step(ctx, hs, store, takes, zero, k).err.Some?
    && forall j :: 0 <= j < k ==> Step(ctx, hs, store, takes, zero, j).err.None?
  }

  /** For distinct futures, All runs whenever the Awaits up to the first
      failing one can proceed, even with later futures still pending; it
      returns nil and that error and leaves the slots of all later futures
      untouched. */
  lemma AllFailsAtFirstError<H, T>(ctx: Context, hs: seq<H>, store: map<H, Slot<T>>, takes: seq<bool>, zero: T, k: nat)
    requires Distinct(hs) && FailsFirstAt(ctx, hs, store, takes, zero, k)
    ensures AllRuns(ctx, hs, store, takes, zero, 0)
    ensures var g := AllSpec(ctx, hs, store, takes, zero);
      && g.values == None
      && g.err == Step(ctx, hs, store, takes, zero, k).err
      && forall j :: k < j < |hs| && hs[j] in store ==> g.store[hs[j]] == store[hs[j]]
  {
    AllFromFailsAtFirstError(ctx, hs, store, takes, zero, 0, [], k);
  }

  /** The futures of TestAll_Error (future/future_test.go:157-173), with the
      third one not yet settled: under a live context the second future's
      error ends All, which returns nil and that error without waiting for the
      pending third future, whose slot stays as it was. */
  lemma AllIgnoresPendingAfterError(f0: nat, f1: nat, f2: nat)
    requires f0 != f1 && f1 != f2 && f0 != f2
    ensures var store := map[f0 := Settled(Result("a", None)), f1 := Settled(Result("", Some(Other("test error")))), f2 := Pending];
            var takes := [true, true, false];
            && AllRuns(Live, [f0, f1, f2], store, takes, "", 0)
            && AllSpec(Live, [f0, f1, f2], store, takes, "") == Gathered(None, Some(Other("test error")), store[f0 := Drained][f1 := Drained])
  {
    var hs, takes := [f0, f1, f2], [true, true, false];
    var store := map[f0 := Settled(Result("a", None)), f1 := Settled(Result("", Some(Other("test error")))), f2 := Pending];
    var store1 := store[f0 := Drained];
    assert AwaitSpec(store[hs[0]], Live, takes[0], "") == Awaited("a", None, Drained);
    assert AwaitSpec(store1[hs[1]], Live, takes[1], "") == Awaited("", Some(Other("test error")), Drained);
    assert AllRuns(Live, hs, store1, takes, "", 1);
    assert AllFrom(Live, hs, store1, takes, "", 1, ["a"]) == Gathered(None, Some(Other("test error")), store1[f1 := Drained]);
    assert AllRuns(Live, hs, store, takes, "", 0);
    assert AllFrom(Live, hs, store, takes, "", 0, []) == AllFrom(Live, hs, store1, takes, "", 1, [] + ["a"]);
    assert [] + ["a"] == ["a"];
  }

  /** All receives from no future outside the ones it still has to await. */
  lemma {:induction false} AllFromTouchesOnlyItsFutures<H, T>(ctx: Context, hs: seq<H>, store: map<H, Slot<T>>, takes: seq<bool>, zero: T,
                                                              i: nat, acc: seq<T>, h: H)
    requires AllRuns(ctx, hs, store, takes, zero, i)
    requires h in store && h !in hs[i..]
    ensures AllFrom(ctx, hs, store, takes, zero, i, acc).store[h] == store[h]
    decreases |hs| - i
  {
    if i < |hs| {
      var a := AwaitSpec(store[hs[i]], ctx, takes[i], zero);
      assert hs[i] == hs[i..][0] && hs[i + 1..] == hs[i..][1..];
      if a.err.None? {
        AllFromTouchesOnlyItsFutures(ctx, hs, store[hs[i] := a.after], takes, zero, i + 1, acc + [a.value], h);
      }
    }
  }

  /** All receives from no future outside its input. */
  lemma AllTouchesOnlyItsFutures<H, T>(ctx: Context, hs: seq<H>, store: map<H, Slot<T>>, takes: seq<bool>, zero: T, h: H)
    requires AllRuns(ctx, hs, store, takes, zero, 0)
    requires h in store && h !in hs
    ensures AllSpec(ctx, hs, store, takes, zero).store[h] == store[h]
  {
    assert hs[0..] == hs;
    AllFromTouchesOnlyItsFutures(ctx, hs, store, takes, zero, 0, [], h);
  }

  /** The store after the future `f` is awaited with case `takeSlot`. */
  ghost function AwaitedStore<T>(ctx: Context, f: Future<T>, store: map<Future<T>, Slot<T>>, takeSlot: bool, zero: T): map<Future<T>, Slot<T>>
    requires f in store && CanAwait(store[f], ctx, takeSlot)
  {
    store[f := AwaitSpec(store[f], ctx, takeSlot, zero).after]
  }

  /** `futures[i].Await(ctx)`, seen from the whole slice: only that future's
      slot changes. */
  method AwaitIn<T>(ctx: Context, futures: seq<Future<T>>, i: nat, takeSlot: bool, zero: T, ghost store: map<Future<T>, Slot<T>>)
    returns (value: T, err: Option<Error>)
    requires i < |futures| && Mirrors(futures, store)
    requires CanAwait(store[futures[i]], ctx, takeSlot)
    modifies futures[i]
    ensures var a := AwaitSpec(store[futures[i]], ctx, takeSlot, zero);
            value == a.value && err == a.err && Mirrors(futures, AwaitedStore(ctx, futures[i], store, takeSlot, zero))
  {
    value, err := futures[i].Await(ctx, takeSlot, zero);
    ghost var next := AwaitedStore(ctx, futures[i], store, takeSlot, zero);
    forall f | f in futures
      ensures f in next && f.Valid() && f.State() == next[f]
    {
      if f != futures[i] {
        assert unchanged(f);
      }
    }
  }

  /** One iteration of All's loop: awaits `futures[i]` and says how All goes
      on, in terms of the loop from `i` on the store `cur`. `next` is the store
      afterwards. */
  method AllStepIn<T>(ctx: Context, futures: seq<Future<T>>, takes: seq<bool>, zero: T, i: nat, ghost acc: seq<T>,
                      ghost cur: map<Future<T>, Slot<T>>)
    returns (v: T, e: Option<Error>, ghost next: map<Future<T>, Slot<T>>)
    requires i < |futures| && Mirrors(futures, cur) && AllRuns(ctx, futures, cur, takes, zero, i)
    modifies futures[i]
    ensures Mirrors(futures, next)
    ensures e.Some? ==> AllFrom(ctx, futures, cur, takes, zero, i, acc) == Gathered(None, e, next)
    ensures e.None? ==> && AllRuns(ctx, futures, next, takes, zero, i + 1)
                        && AllFrom(ctx, futures, cur, takes, zero, i, acc) == AllFrom(ctx, futures, next, takes, zero, i + 1, acc + [v])
  {
    AllFromStep(ctx, futures, cur, takes, zero, i, acc);
    next := AwaitedStore(ctx, futures[i], cur, takes[i], zero);
    v, e := AwaitIn(ctx, futures, i, takes[i], zero, cur);
  }

  /** All: awaits the futures in input order, writing each value into `out`,
      and returns at the first error. `takes[i]` is the case the i-th Await's
      select takes; `store` is the slot state of every future on entry. */
  method All<T>(ctx: Context, futures: seq<Future<T>>, takes: seq<bool>, zero: T, ghost store: map<Future<T>, Slot<T>>)
    returns (values: Option<seq<T>>, err: Option<Error>)
    requires Mirrors(futures, store) && AllRuns(ctx, futures, store, takes, zero, 0)
    modifies futures
    ensures var g := AllSpec(ctx, futures, store, takes, zero);
            values == g.values && err == g.err && Mirrors(futures, g.store)
  {
    ghost var cur: map<Future<T>, Slot<T>> := store;
    ghost var whole := AllSpec(ctx, futures, store, takes, zero);
    var out := new T[|futures|](_ => zero);
    ghost var acc: seq<T> := [];
    var i := 0;
    while i < |futures|
      invariant 0 <= i <= |futures| && |acc| == i
      invariant forall j :: 0 <= j < i ==> out[j] == acc[j]
      invariant Mirrors(futures, cur) && AllRuns(ctx, futures, cur, takes, zero, i)
      invariant whole == AllFrom(ctx, futures, cur, takes, zero, i, acc)
    {
      ghost var next;
      var v, e;
      v, e, next := AllStepIn(ctx, futures, takes, zero, i, acc, cur);
      cur := next;
      if e.Some? {
        return None, e;
      }
      out[i] := v;
      acc := acc + [v];
      i := i + 1;
    }
    assert out[..] == acc;
    return Some(out[..]), None;
  }

  // ---------------------------------------------------------------------------
  // Any: one select over the context and every future

  /** A case of the reflect.Select call in Any: case 0 receives from
      `ctx.Done()`, case i + 1 from the channel of future i. */
  datatype SelectCase<T> = DoneCase | RecvCase(future: Future<T>)

  /** Builds the cases array of Any. */
  method SelectCases<T>(futures: seq<Future<T>>) returns (cases: seq<SelectCase<T>>)
    ensures |cases| == |futures| + 1
    ensures cases[0] == DoneCase
    ensures forall i :: 0 <= i < |futures| ==> cases[i + 1] == RecvCase(futures[i])
  {
    var a := new SelectCase<T>[|futures| + 1](_ => DoneCase);
    a[0] := DoneCase;
    for i := 0 to |futures|
      invariant a[0] == DoneCase
      invariant forall j :: 0 <= j < i ==> a[j + 1] == RecvCase(futures[j])
    {
      a[i + 1] := RecvCase(futures[i]);
    }
    cases := a[..];
  }

  /** reflect.Select with ready case `chosen` picked: only that case's
      channel is received from. Receiving from a closed `ctx.Done()` yields
      ok == false. */
  method Select<T>(cases: seq<SelectCase<T>>, ctx: Context, chosen: nat, zero: T) returns (r: Result<T>, ok: bool)
    requires chosen < |cases|
    requires cases[chosen].DoneCase? ==> ctx.Done()
    requires cases[chosen].RecvCase? ==> cases[chosen].future.Valid() && Ready(cases[chosen].future.State())
    modifies if cases[chosen].RecvCase? then {cases[chosen].future} else {}
    ensures cases[chosen].DoneCase? ==> r == Result(zero, None) && !ok
    ensures cases[chosen].RecvCase? ==>
              && cases[chosen].future.Valid()
              && Received(r, ok, cases[chosen].future.State()) == Receive(old(cases[chosen].future.State()), zero)
  {
    match cases[chosen]
    case DoneCase =>
      r, ok := Result(zero, None), false;
    case RecvCase(f) =>
      r, ok := f.Recv(zero);
  }

  /** The select in Any can take case `chosen` without blocking; with no
      futures Any returns before selecting. */
  predicate AnyEnabled<H, T>(ctx: Context, hs: seq<H>, store: map<H, Slot<T>>, chosen: nat) {
    && (forall i :: 0 <= i < |hs| ==> hs[i] in store)
    && (|hs| > 0 ==> chosen <= |hs|)
    && (|hs| > 0 && chosen == 0 ==> ctx.Done())
    && (|hs| > 0 && chosen > 0 ==> Ready(store[hs[chosen - 1]]))
  }

  /** What Any returns, and the slots afterwards. */
  datatype Picked<H, T> = Picked(value: T, err: Option<Error>, index: int, store: map<H, Slot<T>>)

  /** Any with select case `chosen` taken. */
  function AnySpec<H, T>(ctx: Context, hs: seq<H>, store: map<H, Slot<T>>, chosen: nat, zero: T): (p: Picked<H, T>)
    requires AnyEnabled(ctx, hs, store, chosen)
    ensures -1 <= p.index < |hs|
    // -1 exactly for no futures or the context case
    ensures p.index == -1 <==> |hs| == 0 || chosen == 0
    ensures p.index == -1 ==> p.value == zero && p.store == store
    ensures |hs| == 0 ==> p.err == None
    ensures |hs| > 0 && chosen == 0 ==> p.err == ctx.Err() && p.err.Some?
    // a future case reports that future's index and drains only its slot
    ensures p.index >= 0 ==> p.index == chosen - 1 && p.store == store[hs[p.index] := Drained]
    ensures p.index >= 0 && store[hs[p.index]].Settled? ==>
              p.value == store[hs[p.index]].result.value && p.err == store[hs[p.index]].result.err
    ensures p.index >= 0 && store[hs[p.index]].Drained? ==>
              p.value == zero && p.err == Some(ClosedUnexpectedly)
  {
    if |hs| == 0 then Picked(zero, None, -1, store)
    else if chosen == 0 then Picked(zero, ctx.Err(), -1, store)
    else
      var idx := chosen - 1;
      var rcv := Receive(store[hs[idx]], zero);
      if !rcv.ok then Picked(zero, Some(ClosedUnexpectedly), idx, store[hs[idx] := rcv.after])
      else Picked(rcv.result.value, rcv.result.err, idx, store[hs[idx] := rcv.after])
  }

  /** Any: returns the outcome of whichever select case `chosen` names;
      `store` is the slot state of every future on entry. */
  method Any<T>(ctx: Context, futures: seq<Future<T>>, chosen: nat, zero: T, ghost store: map<Future<T>, Slot<T>>)
    returns (value: T, err: Option<Error>, index: int)
    requires Mirrors(futures, store) && AnyEnabled(ctx, futures, store, chosen)
    modifies futures
    ensures var p := AnySpec(ctx, futures, store, chosen, zero);
            value == p.value && err == p.err && index == p.index && Mirrors(futures, p.store)
  {
    if |futures| == 0 {
      return zero, None, -1;
    }
    var cases := SelectCases(futures);
    var r, ok := Select(cases, ctx, chosen, zero);
    if chosen == 0 {
      return zero, ctx.Err(), -1;
    }
    var idx := chosen - 1;
    assert cases[chosen] == RecvCase(futures[idx]);
    if !ok {
      return zero, Some(ClosedUnexpectedly), idx;
    }
    return r.value, r.err, idx;
  }
}
