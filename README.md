# go-utils futures and strutil.IsEmpty in Dafny

This project models two parts of the Go module `go-utils`.

**Package `future`** gives one-shot futures.
- `StartFuture` runs a work function in a goroutine. The goroutine delivers exactly one `Result{Value, Err}` into a buffered channel of capacity 1 and then closes the channel. Three cases decide the Result:
  - a context that is already done skips the work and delivers `ctx.Err()`;
  - a panic is recovered into an error reading `panic: <payload>\n<stack>`;
  - otherwise the work's `(v, err)` is delivered unchanged.
- `Await` selects between receiving from the channel and `ctx.Done()`.
- `Try` is a non-blocking receive.
- `All` awaits a slice of futures in order and stops at the first error.
- `Any` does one `reflect.Select` over the context and every future, and reports the case it took as an index (`-1` for the context).

**Package `strutil`** gives `IsEmpty`. It is true for a nil string pointer or a pointer to `""`.

How the model is built:
- The channel is the class `Futures.Future`, with a one-place buffer `buf` and a `closed` flag. Its abstract state is `Slot`: `Pending`, `Settled(result)` or `Drained`.
- The producer goroutine is the single atomic step `Future.Produce`. It computes the Result by the pure rule `Launch`, then calls `Send` and `Close`.
- Blocking is replaced by preconditions saying that the chosen select case is ready. The case a `select` picks is a parameter: `takeSlot` for Await, `takes` for All, `chosen` for Any.
- Each method of the imperative layer is proved against a pure specification function: `AwaitSpec`, `TrySpec`, `AllSpec` and `AnySpec`. The lemmas about those functions state what the package promises.
- All and Any work on a slice of objects that may repeat a future. Their specifications therefore work over a map from handle to `Slot`, and the ghost predicate `Mirrors` ties that map to the objects.
- Go's zero value of `T` is passed in as `zero`. A nil error or nil pointer is `None`.

Module `Replay` states what happens when one future is read repeatedly. The code as written drains the channel on the first read. The retained-result design that the package's tests expect is given beside it.

## Model

| member | source | states |
|---|---|---|
| Futures.Context.Err | future/future.go:68-69 | `ctx.Err()` is nil exactly while the context is live; a cancelled context gives `Canceled` and an expired one `DeadlineExceeded` |
| Futures.Launch | future/future.go:30-57 | A context already done gives (zero, `ctx.Err()`) with a non-nil error. A normal return `(v, err)` is delivered verbatim. A panic gives the zero value and an error whose text begins with `panic: ` followed by the payload. A `runtime.Goexit` leaves `out` at its zero value, so the future settles with (zero, nil) |
| Futures.LaunchIgnoresWorkWhenDone | future/future.go:46-53 | When the context is done at launch, the work function is never consulted: any two work functions give the same Result, and a cancelled context gives `Canceled` |
| Futures.Receive | future/future.go:66-67 | A Go receive on a ready channel drains it. It reports ok exactly when a Result was buffered and returns that Result; a closed, empty channel yields the zero Result |
| Futures.AwaitSpec | future/future.go:63-71 | Taking the channel case returns the received value and error and drains the slot. The context case returns (zero, `ctx.Err()`), whose error is never nil, and leaves the slot as it was. Await keeps a pending slot pending and a ready slot ready |
| Futures.TrySpec | future/future.go:75-83 | ok is true exactly when a receive was ready. An open, empty slot gives (zero, nil, false) and is unchanged. A buffered Result is returned and drained. A drained slot gives (zero, nil, true) |
| Futures.Future.StartFuture | future/future.go:27-28 | A new future has an empty, open channel (state `Pending`) and keeps the work function it was given |
| Futures.Future.Send | future/future.go:35 | The one send goes into the free buffer place of an open channel; the precondition rules out a blocking send and a send on a closed channel |
| Futures.Future.Close | future/future.go:36 | The channel is closed once (the precondition rules out a second close) and the buffered Result stays |
| Futures.Future.Produce | future/future.go:30-57 | From `Pending`, the producer leaves the future `Settled` with exactly the Result `Launch` gives. Since it needs `Pending`, a second produce, send or reopen is impossible |
| Futures.Future.Recv | future/future.go:66 | The receive on the object changes its fields exactly as `Receive` changes the slot |
| Futures.Future.Await | future/future.go:63-71 | Await on the object returns what `AwaitSpec` gives for the old state and leaves the state `AwaitSpec` gives |
| Futures.Future.Try | future/future.go:75-83 | Try on the object returns what `TrySpec` gives for the old state and leaves the state `TrySpec` gives |
| Futures.AllFrom | future/future.go:88-95 | The loop from index i, defined whenever every Await it reaches can proceed (`AllRuns`; futures after the first error may be in any state). The values are nil exactly when there is an error. On success the collected prefix is kept and one value is added per remaining future. No slot appears or disappears |
| Futures.AllSpec | future/future.go:86-96 | All, defined whenever the Awaits it reaches can proceed. It returns nil values exactly when it returns an error, a slice of length `len(futures)` otherwise, and keeps the set of slots |
| Futures.EnabledRuns | future/future.go:88-93 | When every Await in the slice can take its chosen case, All runs from any index: an Await keeps a ready slot ready and a pending slot pending, so each later Await can still proceed |
| Futures.AllFromStep | future/future.go:89-93 | One iteration: the reached Await can take its case. An error ends All with that error and the slot drained or kept as Await leaves it. A value is collected and All goes on from the next index |
| Futures.LaterStepsUnchanged | future/future.go:88-89 | With distinct futures, awaiting future i leaves the slots of every later future unchanged and keeps every later Await able to proceed |
| Futures.AllFromSucceedsExactly | future/future.go:88-95 | With distinct futures that can all be awaited, All from index i runs, and it succeeds if and only if every Await from i on succeeds; it then appends their values in input order |
| Futures.AllSucceedsExactly | future/future.go:86-96 | With distinct futures that can all be awaited, All runs, and it succeeds if and only if every Await succeeds; element i of the result is then future i's Await value |
| Futures.AllFromFailsAtFirstError | future/future.go:88-92 | With distinct futures, when k is the first index from i whose Await fails and the Awaits up to k can proceed, All runs whatever state the later futures are in (pending ones included). It returns nil and exactly that error, and never receives from the futures after k |
| Futures.AllFailsAtFirstError | future/future.go:89-92 | With distinct futures, All runs as soon as the Awaits up to the first failing one can proceed, even with later futures still pending. It returns nil and that error and leaves the slots of all later futures untouched |
| Futures.AllIgnoresPendingAfterError | future/future.go:88-92 | The futures of TestAll_Error with the third still pending, under a live context: All returns (nil, the second future's error) and the pending future keeps its slot |
| Futures.AllFromTouchesOnlyItsFutures | future/future.go:88-92 | Whenever the loop from i runs, a future that does not occur among the ones still to await keeps its slot |
| Futures.AllTouchesOnlyItsFutures | future/future.go:86-96 | All never changes the slot of a future outside its input |
| Futures.AwaitIn | future/future.go:89 | Awaiting `futures[i]` returns `AwaitSpec`'s value and error and changes only that future's slot among all futures of the slice |
| Futures.AllStepIn | future/future.go:89-93 | One pass of the loop body on the objects: the future's Await changes the slots as `AllFromStep` says and reports the error or value that decides how All goes on |
| Futures.All | future/future.go:86-96 | The loop that writes `out[i]` in place returns exactly the values and error of `AllSpec`, and leaves every future in the state `AllSpec` gives. It requires only that the Awaits it reaches can proceed |
| Futures.SelectCases | future/future.go:107-120 | The cases array has `len(futures)+1` entries: case 0 is `ctx.Done()` and case i+1 receives from future i |
| Futures.Select | future/future.go:123 | The chosen case is the only channel received from. A future case behaves as `Receive`; the context case yields the zero Result with ok false |
| Futures.AnySpec | future/future.go:100-139 | The index is always in [-1, len-1]. It is -1 exactly for an empty slice, which gives (zero, nil), or for the context case, which gives (zero, `ctx.Err()`) with a non-nil error. Otherwise it is chosen-1 and only that future's slot is drained. A buffered Result is returned; a closed, empty channel gives "future channel closed unexpectedly" |
| Futures.Any | future/future.go:100-139 | Any on the objects returns exactly the value, error and index of `AnySpec` and leaves every future in the state `AnySpec` gives |
| Strutil.IsEmpty | strutil/is.go:4-6 | True exactly for a nil pointer or a pointer to `""`; false means a non-nil pointer to a non-empty string. Reading the length only under a non-nil pointer is not a clause of the contract: Dafny's well-formedness check on `s.value` enforces it |
| Strutil.IsEmptyDependsOnLengthOnly | strutil/is.go:5 | Two pointers with the same nil-ness and the same length get the same answer, whatever their characters |
| Replay.ReadsAsWritten | future/future.go:63-83 | A sequence of Await and Try calls on one future, each seeing the slot the previous one left, gives one observation per call |
| Replay.DrainedReadsSeeZero | future/future.go:78-79 | On a drained future every receiving read returns (zero, nil), and Try reports ready |
| Replay.FirstReceiveDrains | future/future.go:63-83 | On a settled future the first receiving read gets the Result and every later receiving read gets (zero, nil): the outcome is not replayed |
| Replay.TryAfterAwaitSeesZero | future/future.go:75-83 | On a future settled with ("result", nil), one Await and then three Try calls give "result" once and ("", nil, true) three times |
| Replay.ReadsRetained | future/future_test.go:254-393 | The same sequence of reads on a retained-result cell gives one observation per read |
| Replay.RetainedReadsReplay | future/future_test.go:254-393 | On a retained-result cell every receiving read, however many came before, returns the settled value and error |
| Replay.TryAfterAwaitReplays | future/future_test.go:314-358 | On the retained cell the same Await and three Try calls return "result" four times |
| Replay.DesignsAgreeThroughFirstReceive | future/future.go:63-83 | The as-written channel and the retained cell agree on every read up to and including the first receiving read |

## Left out

- Goroutines and scheduling: the producer is one atomic step, so no reader can run between its send and its close. Races between concurrent callers cannot be expressed in this sequential model, and neither can the concurrent-caller tests in future/future_test.go:395-482.
- Blocking, timing and deadlines: a context is a given state (live, cancelled, deadline passed), not a clock. A wait that is reached and would block is excluded by a precondition; for All only the Awaits up to the first error are constrained. The select's pseudo-random choice among ready cases is a parameter that the precondition constrains to ready cases.
- A context that changes state during one call of All or Any: one context state holds for the whole call.
- `recover`/`defer` mechanics, the contents of `debug.Stack()` (a `stack` parameter) and `fmt` formatting: a panic payload is kept as the text `%v` prints for it.
- Futures.Launch: `panic(nil)` is not modelled separately. Whether `recover` reports it depends on the Go version; the model recovers every panic.
- The reflect mechanics of `reflect.Select`, `reflect.ValueOf` and the type assertion on the received value: only the choice of a ready case and the index mapping are modelled.
- Go's zero value of `T` is not derived from the type; callers pass it as `zero`.
- Futures.AllSucceedsExactly: stated only for slices without repeated futures that can all be awaited. `All`, `AllSpec` and `AllTouchesOnlyItsFutures` handle repeats, where a second Await of the same future sees the drained slot.
- Futures.AllFromSucceedsExactly: stated only for slices without repeated futures that can all be awaited, for the same reason.
- Futures.AllFailsAtFirstError: stated only for slices without repeated futures, for the same reason.
- Futures.AllFromFailsAtFirstError: stated only for slices without repeated futures, for the same reason.
- `ToSnakeCase`: its implementation is not part of this model; only a test for it exists.
- Replay.RetainedReadsReplay: the retained-result cell is a separate, corrected definition. `All`, `Any`, `Await` and `Try` keep the draining channel, because they model the code as written.

## Findings

| source | as written | input that shows it | evidently intended | confidence | as-written member | corrected member |
|---|---|---|---|---|---|---|
| future/future.go:63-83 | Await and Try receive from the channel. The first receive takes the one Result, and every later receive on the closed, empty channel yields the zero Result, while Try still reports ok | A future settled with ("result", nil), read by Await and then by Try three times (TestTry_MultipleCalls): each Try returns ("", nil, true), as `Replay.TryAfterAwaitSeesZero` states | Every read after settlement returns the settled value and error, as future/future_test.go:254-393 assert | not executed | Replay.FirstReceiveDrains | Replay.RetainedReadsReplay |
