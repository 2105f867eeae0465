# Trier: a verified model of a fluent error-accumulation chain

The Go package `trier` offers one type, `Trier`, that lets a caller chain
fallible calls (`t.Try(f).Try(g).TryJoin(h)`) without checking an error after
each one. The type has a single field, `err *error`. The Try-family methods
(`Try`, `TryIfErr`, the four retry variants and `TryJoin`) run the caller's
unit of work `fn` and update the field. All but `TryJoin` first skip when an
error is already held. The backoff variants do not run `fn` at all for a
non-positive limit. `Nil` clears the field and `Err` reads it. The field has
three states, and the model keeps all three:

- `Unset`: the pointer is nil. A new trier and a trier after `Nil` are in this state.
- `Holds(None)`: the pointer points at a nil error. `TryJoin` produces this when
  `fn` succeeds on an unset trier.
- `Holds(Some(e))`: the pointer points at the error `e`.

The model has five modules:

- `GoErrors` (errors.dfy): the Go error values the chain handles. It models
  `errors.New`, `errors.Join` and the text their `Error()` method returns
  (`Message`, with `Lines` for a compound error). The tests compare that text. The
  standard library is not part of this model's source files; `errors.Join` is
  modelled from its documented behaviour. Nil arguments are dropped, an all-nil
  call gives nil, and the parts' messages are joined one per line, in order.
- `TrierSpec` (trier_spec.dfy): each method as a function from the state before
  a call to the state after it. It also defines chains of calls (`Op`, `Run`)
  and proves the properties of the chain.
- `Trier` (trier.dfy): the class `Trier`. Its methods are written the way the Go
  code is, loops included. Each is proved to move the trier to the state its
  `TrierSpec` function gives.
- `TrierTests` (trier_tests.dfy): the scenarios of trier_test.go and five
  more, stated as verified methods on the class.
- `TrierIntended` (trier_intended.dfy): corrected definitions for the four
  findings below, with the properties the comments and tests intend proved
  about them.

A unit of work is seen only through its results. `fn(k)` is what its k-th
invocation within one call returns. The trier also records what a caller can
observe besides the slot:

- how many times `fn` and `errFn` ran;
- whether a call panicked;
- the index `i` of every `time.Sleep(backoff(i))` reached.

A panicking statement changes nothing else: the pointer stays nil.

What the code does, as the model proves it:

- Every attempt-class method returns at once when the slot is set, even to a
  nil error. These are `Try`, `TryIfErr` and the four retry methods.
- So the retry methods always start with the slot unset. Their counted loop
  therefore reaches `*t.err = err` through a nil pointer on the first failure,
  and panics. `fn` runs exactly once. The join branches and `time.Sleep` are
  never reached. With a non-positive limit, `TryRetry` and `TryRetryIfErr`
  retry until `fn` succeeds and keep no error. The backoff variants panic
  instead, writing their sentinel error through the nil pointer.
- `TryJoin` never skips. On a held error it stores `errors.Join(held, new)`, so
  the held error's text comes first. On an unset slot it stores `fn`'s result
  as it is, nil included. After that, later attempts are skipped and `Err`
  returns nil.
- `Err` dereferences the pointer. It is only defined when the slot is set.
  `Err` on a new trier, or right after `Nil`, would panic.
- `TryIfErr` transforms only an error produced by its own `fn`. `errFn` runs
  exactly when `fn` fails, and its result is stored even when it is nil.

Descriptions of this chain, the doc comments of trier.go among them, promise
more than the code does. They promise an `Err` that is safe when nothing
failed, retries that join their failures, and a sentinel error stored for a
non-positive backoff limit. The class follows trier.go as written. The
corrected behaviour is in `TrierIntended`.

## Model

| member | source | states |
|---|---|---|
| GoErrors.New | trier.go:159 | `errors.New(text)` is an error whose message is exactly `text` |
| GoErrors.Join | trier.go:222 | `errors.Join` is nil exactly when every argument is nil |
| GoErrors.Present | trier.go:222 | `errors.Join` keeps at most one part per argument, and none exactly when all arguments are nil |
| GoErrors.PresentKeeps | trier.go:222 | the parts `errors.Join` keeps are exactly its non-nil arguments |
| GoErrors.PresentAppend | trier.go:222 | the kept parts stay in argument order: a prefix's parts come before the rest's |
| GoErrors.PresentSingle | trier.go:222 | a single argument contributes its own error if it is non-nil, and nothing otherwise |
| GoErrors.JoinPair | trier.go:222 | joining two errors: nil iff both are nil; both non-nil gives a compound of the two whose message is the first's, a newline, the second's; a nil side contributes no line |
| TrierSpec.LeastSuccess | trier.go:81-86 | a unit of work that succeeds at some invocation has a first successful invocation |
| TrierSpec.FirstSuccess | trier.go:81-86 | the index where the unbounded retry loop stops: that invocation succeeds and all earlier ones fail |
| TrierSpec.Store | trier.go:97 | a write through the pointer either lands (the pointer stays set and holds `v`) or panics on a nil pointer, storing nothing; no other field changes |
| TrierSpec.Try | trier.go:28-44 | `Try` returns the trier unchanged when the slot is set; it never calls `errFn`, panics or sleeps |
| TrierSpec.TryIfErr | trier.go:47-67 | `TryIfErr` returns the trier unchanged when the slot is set; it runs `fn` at most once and `errFn` at most as often as `fn`; it never panics or sleeps |
| TrierSpec.FailedIteration | trier.go:94-98 | one failing loop iteration keeps the pointer nil or set as it was, panics exactly when it is nil, keeps a held non-nil error non-nil, and invokes nothing |
| TrierSpec.RetryUpTo | trier.go:88-99 | the counted loop never re-points the field (the slot stays unset or set), never panics when entered with a held pointer, and keeps a held non-nil error non-nil |
| TrierSpec.RetryUntilSuccess | trier.go:81-86 | the unbounded loop invokes `fn` at least once and changes nothing but the invocation count |
| TrierSpec.TryRetry | trier.go:74-103 | `TryRetry` returns the trier unchanged when the slot is set, and never changes the slot, calls `errFn` or sleeps |
| TrierSpec.TryRetryIfErr | trier.go:111-140 | the same for `TryRetryIfErr` |
| TrierSpec.TryRetryBackoff | trier.go:152-178 | `TryRetryBackoff` returns the trier unchanged when the slot is set, never changes the slot, calls `errFn` or sleeps, and does not invoke `fn` for a non-positive limit |
| TrierSpec.TryRetryBackoffIfErr | trier.go:185-211 | the same for `TryRetryBackoffIfErr` |
| TrierSpec.TryJoin | trier.go:218-229 | `TryJoin` invokes `fn` exactly once and always leaves the slot set; it never calls `errFn`, panics or sleeps |
| TrierSpec.Nil | trier.go:234-239 | `Nil` leaves the pointer nil and changes no other field |
| TrierSpec.ShortCircuit | trier.go:28-31 | once the slot is set (also to a nil error), any sequence of `Try`, `TryIfErr` and retry calls changes nothing: no `fn`, no `errFn`, no sleep, same slot |
| TrierSpec.TryOnUnset | trier.go:33-41 | `Try` on an unset slot runs `fn` once and stores its error iff it fails; the slot stays unset on success |
| TrierSpec.TryIfErrOnUnset | trier.go:52-65 | `TryIfErr` on an unset slot stores `errFn(e)` (possibly nil) iff `fn` fails with `e`, calling `errFn` exactly then; success leaves the slot unset |
| TrierSpec.RetryUpToFromUnset | trier.go:88-99 | the counted retry loop entered with the slot unset runs `fn` once: success breaks out, failure panics; no error stored, no `errFn`, no sleep |
| TrierSpec.TryRetryOnUnset | trier.go:79-100 | `TryRetry` on an unset slot: positive limit as above; non-positive limit runs `fn` up to its first success, discards every error and does not panic |
| TrierSpec.TryRetryIfErrOnUnset | trier.go:116-137 | `TryRetryIfErr` on an unset slot behaves as `TryRetry` and never calls `errFn` |
| TrierSpec.TryRetryBackoffOnUnset | trier.go:157-175 | `TryRetryBackoff` on an unset slot: a non-positive limit panics without running `fn` or storing the sentinel; a positive one runs `fn` once and never sleeps |
| TrierSpec.TryRetryBackoffIfErrOnUnset | trier.go:190-208 | `TryRetryBackoffIfErr` on an unset slot behaves as `TryRetryBackoff` |
| TrierSpec.RetryKeepsSlot | trier.go:74-211 | no retry-family call ever changes the slot, calls `errFn`, or reaches `time.Sleep` |
| TrierSpec.TryJoinSets | trier.go:218-229 | `TryJoin` always runs `fn` once and leaves the slot set; the held value is nil iff there was no error before and `fn` succeeded |
| TrierSpec.TryJoinMessage | trier.go:221-226 | `TryJoin`'s message is the held error's text, a newline, then the new error's text; a nil side adds no line |
| TrierSpec.TryJoinSuccessBlocksAttempts | trier.go:224-226 | a succeeding `TryJoin` on an unset slot sets it to a nil error, after which every attempt-class call is skipped |
| TrierSpec.NilResets | trier.go:234-239 | `Nil` is idempotent, and it changes the trier exactly when a pointer was held (the guard at line 235) |
| TrierSpec.SucceedingTriesLeaveUnset | trier.go:243-245 | a chain of `Try` calls with no failing unit, from a nil pointer, runs each unit once and leaves the pointer nil, so `Err` dereferences nil |
| TrierSpec.NilThenTry | trier.go:234-239 | `Nil` followed by a succeeding `Try` leaves the slot unset and runs that `fn` once |
| Trier.Trier.constructor | trier.go:8-10 | `NewTrier` gives a trier with a nil pointer and nothing recorded |
| Trier.Trier.WriteThrough | trier.go:97 | `*t.err = v` stores `v` when the pointer is set and panics, storing nothing, when it is nil |
| Trier.Trier.RetryUpTo | trier.go:88-99 | the counted loop computes `TrierSpec.RetryUpTo` from iteration 0 |
| Trier.Trier.RetryIteration | trier.go:89-98 | one iteration: it stops exactly on a success or on a nil pointer, and otherwise moves the trier to `TrierSpec.FailedIteration` after one invocation |
| Trier.Trier.RetryUntilSuccess | trier.go:81-86 | the unbounded loop stops after the first success and only counts invocations |
| Trier.Trier.Try | trier.go:28-44 | moves the trier to `TrierSpec.Try` of its old state; the write at line 39 is proved unreachable |
| Trier.Trier.TryIfErr | trier.go:47-67 | moves the trier to `TrierSpec.TryIfErr` of its old state; the write at line 58 is proved unreachable |
| Trier.Trier.TryRetry | trier.go:74-103 | moves the trier to `TrierSpec.TryRetry` of its old state |
| Trier.Trier.TryRetryIfErr | trier.go:111-140 | moves the trier to `TrierSpec.TryRetryIfErr` of its old state |
| Trier.Trier.TryRetryBackoff | trier.go:152-178 | moves the trier to `TrierSpec.TryRetryBackoff` of its old state |
| Trier.Trier.TryRetryBackoffIfErr | trier.go:185-211 | moves the trier to `TrierSpec.TryRetryBackoffIfErr` of its old state |
| Trier.Trier.TryJoin | trier.go:218-229 | moves the trier to `TrierSpec.TryJoin` of its old state |
| Trier.Trier.Nil | trier.go:234-239 | moves the trier to `TrierSpec.Nil` of its old state and returns the same trier |
| Trier.Trier.Err | trier.go:243-245 | defined only when the slot is set (the pointer is dereferenced); returns the held error, nil or not, without changing anything |
| TrierTests.PassOrFail | trier_test.go:9-14 | fails, with message "failed passOrFail", exactly when given arguments |
| TrierTests.FailIfString | trier_test.go:16-24 | fails, with message "failedIfString", exactly when its first argument is a string |
| TrierTests.TrierTrySucceeds | trier_test.go:34-43 | a succeeding `Try` on a new trier leaves the pointer nil |
| TrierTests.TrierTryError | trier_test.go:45-55 | a failing `Try` on a new trier makes `Err` return "failed passOrFail" |
| TrierTests.TrierChainedTries | trier_test.go:57-70 | after the third `Try` fails the fourth is skipped: three invocations, message "failed passOrFail" |
| TrierTests.TrierJoinedAsWritten | trier_test.go:72-85 | the test's chain gives "failed passOrFail\nfailedIfString", not the message the test expects |
| TrierTests.TrierTryJoinNoPreviousError | trier_test.go:126-137 | `TryJoin` on an unset slot stores the new error as it is: "failedIfString" |
| TrierTests.TrierTryJoinNoErrors | trier_test.go:139-150 | a succeeding `TryJoin` on an unset slot makes `Err` nil and makes the next `Try` skip |
| TrierTests.TrierAnonymousFunc | trier_test.go:152-166 | `Try` on a new trier runs its `fn` exactly once |
| TrierTests.TrierNilThenTry | trier.go:234-239 | after a failure, `Nil` and a succeeding `Try` leave the pointer nil |
| TrierTests.TrierRetryFailurePanics | trier.go:88-98 | `TryRetry(3, fn)` with a failing `fn` on a new trier runs `fn` once and panics, storing nothing |
| TrierTests.TrierRetryTwoFailuresThenSuccess | trier.go:88-98 | `TryRetry(3, fn)` with `fn` failing twice then succeeding panics after one invocation |
| TrierTests.TrierBackoffZeroLimitPanics | trier.go:157-159 | `TryRetryBackoff(0, fn)` on a new trier panics without running `fn` and stores nothing |
| TrierTests.TrierRetryUnbounded | trier.go:79-86 | `TryRetry(0, fn)` with `fn` failing three times runs it four times and keeps no error |
| TrierIntended.RetryUpTo | trier.go:94-98 | the corrected loop never panics, and ends with the slot set exactly when it was set or iteration `i` ran and failed |
| TrierIntended.TryRetry | trier.go:74-103 | the corrected `TryRetry` returns the trier unchanged when the slot is set, never panics, and with a positive limit ends set exactly when it was set or the first invocation failed |
| TrierIntended.TryRetryIfErr | trier.go:111-140 | the same for the corrected `TryRetryIfErr` |
| TrierIntended.TryRetryBackoff | trier.go:152-178 | the corrected `TryRetryBackoff` never panics, and ends set exactly when it was set, the limit is non-positive, or the first invocation failed |
| TrierIntended.TryRetryBackoffIfErr | trier.go:185-211 | the same for the corrected `TryRetryBackoffIfErr` |
| TrierIntended.TryJoin | trier.go:218-229 | the corrected `TryJoin` invokes `fn` once and always leaves the slot set; it never calls `errFn`, panics or sleeps |
| TrierIntended.Err | trier.go:241-245 | the corrected `Err` is total: it returns a non-nil error exactly when a non-nil error is held, and then that error |
| TrierIntended.ErrReportsFirstFailure | trier.go:241-245 | after a chain of succeeding `Try` calls the corrected `Err` gives nil, and after one more `Try` whose unit fails it gives exactly that first error |
| TrierIntended.IfErrRetriesKeepFailure | trier.go:105-140 | the corrected IfErr retry variants keep a first failure, not nil, and do not panic |
| TrierIntended.JoinsUpTo | trier.go:88-99 | with an error held, each further failure adds one line to the held message, oldest first, and one sleep, until the first success or the limit |
| TrierIntended.RetryCollectsFailures | trier.go:88-99 | the corrected loop from an unset slot: `n` failures then a success (or `n` = limit) run `fn` `n`+1 (limit) times, sleep after each failure, and keep every failure's message in order |
| TrierIntended.TryRetryAllFail | trier.go:69-73 | the corrected `TryRetry` with every invocation failing runs `fn` `limit` times and keeps all `limit` messages |
| TrierIntended.TryRetryBackoffInvalidLimit | trier.go:142-151 | the corrected backoff variants store the sentinel error for a non-positive limit, without running `fn` or panicking; the IfErr variant does the same |
| TrierIntended.TryJoinNewestFirst | trier.go:218-229 | the corrected `TryJoin` gives the new error's text, a newline, then the held error's |
| TrierIntended.JoinedScenario | trier_test.go:72-85 | the test's chain, with any units of work returning what its helpers return, gives "failedIfString\nfailed passOrFail" with the corrected `TryJoin` |

## Findings

| source | as written | input that shows it | evidently intended | confidence | as-written member | corrected member |
|---|---|---|---|---|---|---|
| trier.go:97 | `*t.err = err` writes through the pointer, and the loop only runs with it nil (same at lines 134, 170, 203) | a new trier, `TryRetry(3, fn)` with `fn` failing | the first failure is stored and later ones are joined onto it, as lines 105-110 describe. The one-statement fix (`t.err = &err`) keeps the earlier failures even when a later invocation succeeds; whether a success should clear them, as "a fault-tolerant version of Try" (lines 69-73) could also mean, is open | high that the write panics; the intended result after a late success is open; not executed | TrierTests.TrierRetryFailurePanics | TrierIntended.TryRetryAllFail |
| trier.go:159 | the sentinel error is written through the nil pointer (same at line 192; the corrected IfErr variant is covered by the same lemma) | a new trier, `TryRetryBackoff(0, backoff, fn)` | the trier holds "retry backoff attempted with limit less than or equal to zero", as lines 142-151 say | high; not executed | TrierTests.TrierBackoffZeroLimitPanics | TrierIntended.TryRetryBackoffInvalidLimit |
| trier.go:244 | `Err` dereferences the pointer, which is still nil after a chain in which nothing failed | a new trier, `Try(fn)` with `fn` succeeding, then `Err()` | nil, as "call Err() ... to obtain any returned error(s)" (lines 22-24) and "returns the first error experienced" (line 241) say | high; not executed | TrierSpec.SucceedingTriesLeaveUnset | TrierIntended.ErrReportsFirstFailure |
| trier.go:222 | `errors.Join(*t.err, err)` puts the held error before the new one | the chain of trier_test.go:77-80 | the new error first, "failedIfString\nfailed passOrFail", as trier_test.go:84 and :123 expect | medium (the tests and the code disagree, and either could be the intended one); not executed | TrierTests.TrierJoinedAsWritten | TrierIntended.JoinedScenario |

The class follows the code as written. The corrected definitions in
`TrierIntended` reuse the rest of `TrierSpec`. The retry loop and `TryRetry`
change one statement. The backoff variants change two: the sentinel write and
the loop's. `TryJoin` is redefined with its arguments swapped. `Err` is new,
because the class models it as a precondition rather than a function of the
state. The IfErr retry variants get the same corrections as the others.

## Left out

- `time.Sleep` and the `backoff` durations: blocking on the wall clock is not modelled. The model records only the index `i` each sleep would pass to `backoff`, and it proves that in this code no sleep is ever reached.
- The variadic `args ...any`: the chain passes them to `fn` unchanged and never inspects them. A unit of work is modelled by its sequence of results; the test helpers take their arguments explicitly.
- Trier.Trier.TryRetry: with a non-positive limit the Go loop never ends if `fn` never succeeds. The method requires that `fn` eventually succeeds in that case, so non-termination is not modelled.
- Trier.Trier.TryRetryIfErr: the same requirement, for the same reason.
- Trier.Trier.Err: the nil-pointer panic on an unset slot is a precondition, rather than a recorded panic.
- Recovery after a panic: `panicked` records that a call panicked, and the state is the one Go leaves behind. In Go a panic abandons the rest of a fluent expression, even when a deferred `recover` catches it. `TrierSpec.Run` does not model that. It applies its calls as successive statements on one trier, each one reached only after the previous call returned or was recovered from.
- `errors.Is` and `errors.As`, and Go pointer identity beyond the three slot states: two errors with the same structure and text are equal in the model.
- `UnwrapErr` and `TryWrap`: the doc comment of `Try` (trier.go:20-27) names these two, but trier.go defines neither.
- TrierIntended.RetryCollectsFailures: proved for the variants without `errFn` only. The IfErr variants apply `errFn` to every failure except the first before joining, and `errFn` may drop a line by returning nil; for them only `TrierIntended.IfErrRetriesKeepFailure` is proved.
- TrierIntended.RetryUpTo: keeps the earlier failures when a later invocation succeeds. A reading in which a success clears them is not modelled.
- Concurrency: the type has no locking, and the model is sequential.
