/** Corrected definitions for the places where trier.go evidently does not do
    what its comments and tests say (see README, Findings):

    - the retry loops write the first failure through a nil pointer
      (`*t.err = err`, trier.go:97, 134, 170, 203) where re-pointing the field
      (`t.err = &err`, as `Try` does at line 37) keeps the error;
    - the backoff variants write their sentinel error the same way
      (trier.go:159, 192);
    - `TryJoin` puts the held error before the new one (trier.go:222), while
      its tests expect the new one first (trier_test.go:84, 123);
    - `Err` dereferences the pointer (trier.go:244), which is still nil after
      a chain in which nothing failed.

    The corrected retry loop and `TryRetry` differ from their TrierSpec
    counterparts in one statement, and the backoff variants in two (the
    sentinel write and the loop's). `TryJoin` swaps its join's arguments.
    `Err` is new: the class models the original as a precondition. */
module TrierIntended {
  import opened GoErrors
  import opened TrierSpec
  import TrierTests

  /** The counted retry loop with the first failure stored by re-pointing the
      field; from then on the slot is set and the loop is TrierSpec's. */
  function RetryUpTo(s: TrierState, limit: int, errFn: Option<ErrFn>, backoff: bool, fn: Work, i: nat): (r: TrierState)
    ensures r.panicked == s.panicked
    ensures r.slot.Holds? <==> s.slot.Holds? || (i < limit && fn(i).Some?)
    decreases limit - i
  {
    if i >= limit then s
    else if s.slot.Holds? then TrierSpec.RetryUpTo(s, limit, errFn, backoff, fn, i)
    else
      var s1 := Invoke(s);
      match fn(i)
      case None => s1
      case Some(err) =>
        var s2 := s1.(slot := Holds(Some(err)));
        var s3 := if backoff then s2.(backoffs := s2.backoffs + [i]) else s2;
        TrierSpec.RetryUpTo(s3, limit, errFn, backoff, fn, i + 1)
  }

  /** `TryRetry` with the corrected loop. */
  ghost function TryRetry(s: TrierState, limit: int, fn: Work): (r: TrierState)
    requires s.slot.Unset? && limit <= 0 ==> EventuallySucceeds(fn)
    ensures s.slot.Holds? ==> r == s
    ensures r.panicked == s.panicked
    ensures limit > 0 ==> (r.slot.Holds? <==> s.slot.Holds? || fn(0).Some?)
  {
    if s.slot.Holds? then s
    else if limit <= 0 then RetryUntilSuccess(s, fn)
    else RetryUpTo(s, limit, None, false, fn, 0)
  }

  /** `TryRetryIfErr` with the corrected loop (the write at trier.go:134). */
  ghost function TryRetryIfErr(s: TrierState, limit: int, errFn: ErrFn, fn: Work): (r: TrierState)
    requires s.slot.Unset? && limit <= 0 ==> EventuallySucceeds(fn)
    ensures s.slot.Holds? ==> r == s
    ensures r.panicked == s.panicked
    ensures limit > 0 ==> (r.slot.Holds? <==> s.slot.Holds? || fn(0).Some?)
  {
    if s.slot.Holds? then s
    else if limit <= 0 then RetryUntilSuccess(s, fn)
    else RetryUpTo(s, limit, Some(errFn), false, fn, 0)
  }

  /** `TryRetryBackoff` with the sentinel error stored by re-pointing the field
      and with the corrected loop. */
  function TryRetryBackoff(s: TrierState, limit: int, fn: Work): (r: TrierState)
    ensures s.slot.Holds? ==> r == s
    ensures r.panicked == s.panicked
    ensures r.slot.Holds? <==> s.slot.Holds? || limit <= 0 || fn(0).Some?
  {
    if s.slot.Holds? then s
    else if limit <= 0 then s.(slot := Holds(Some(New(LimitMessage))))
    else RetryUpTo(s, limit, None, true, fn, 0)
  }

  /** `TryRetryBackoffIfErr` with the same two corrections (the writes at
      trier.go:192 and 203). */
  function TryRetryBackoffIfErr(s: TrierState, limit: int, errFn: ErrFn, fn: Work): (r: TrierState)
    ensures s.slot.Holds? ==> r == s
    ensures r.panicked == s.panicked
    ensures r.slot.Holds? <==> s.slot.Holds? || limit <= 0 || fn(0).Some?
  {
    if s.slot.Holds? then s
    else if limit <= 0 then s.(slot := Holds(Some(New(LimitMessage))))
    else RetryUpTo(s, limit, Some(errFn), true, fn, 0)
  }

  /** `TryJoin` with the new error first. */
  function TryJoin(s: TrierState, fn: Work): (r: TrierState)
    ensures r.slot.Holds? && r.fnCalls == s.fnCalls + 1
    ensures r.errFnCalls == s.errFnCalls && r.panicked == s.panicked && r.backoffs == s.backoffs
  {
    var s1 := Invoke(s);
    if s.slot.Holds? then s1.(slot := Holds(Join([fn(0), s.slot.e])))
    else s1.(slot := Holds(fn(0)))
  }

  /** `Err` that is safe on a nil pointer: it reports nil when no error
      pointer is held, and the held error otherwise. */
  function Err(s: TrierState): (e: Option<Error>)
    ensures e.Some? <==> s.slot.Holds? && s.slot.e.Some?
    ensures s.slot.Holds? ==> e == s.slot.e
  {
    match s.slot
    case Unset => None
    case Holds(e) => e
  }

  /** The messages of the first `n` invocations of `fn`, all of which fail. */
  function FailureMessages(fn: Work, n: nat): (ms: seq<string>)
    requires forall k: nat :: k < n ==> fn(k).Some?
    ensures |ms| == n
  {
    seq(n, k requires 0 <= k < n => Message(fn(k).value))
  }

  /** The retry indices from `i` up to, not including, `n`. */
  function Indices(i: nat, n: nat): (r: seq<nat>)
    requires i <= n
    ensures |r| == n - i
    ensures forall k :: 0 <= k < |r| ==> r[k] == i + k
  {
    seq(n - i, k requires 0 <= k < n - i => i + k)
  }

  lemma IndicesFrom(i: nat, n: nat)
    requires i < n
    ensures Indices(i, n) == [i] + Indices(i + 1, n)
  {
  }

  /** The state after one failing iteration `i` of the loop with an error held
      and no `errFn`: the failure joined onto the held error, then a sleep. */
  function JoinedNext(s: TrierState, backoff: bool, err: Error, i: nat): TrierState
    requires s.slot.Holds?
  {
    s.(fnCalls := s.fnCalls + 1,
       slot := Holds(Join([s.slot.e, Some(err)])),
       backoffs := if backoff then s.backoffs + [i] else s.backoffs)
  }

  lemma JoinStep(s: TrierState, limit: int, backoff: bool, fn: Work, i: nat)
    requires i < limit && fn(i).Some? && s.slot.Holds?
    ensures TrierSpec.RetryUpTo(s, limit, None, backoff, fn, i)
         == TrierSpec.RetryUpTo(JoinedNext(s, backoff, fn(i).value, i), limit, None, backoff, fn, i + 1)
  {
  }

  /** Joining the `i`-th failure onto a message of the first `i` failures
      gives the message of the first `i + 1`. */
  lemma JoinedNextMessage(s: TrierState, backoff: bool, fn: Work, i: nat)
    requires forall k: nat :: k <= i ==> fn(k).Some?
    requires i > 0 && s.slot.Holds? && s.slot.e.Some?
    requires Message(s.slot.e.value) == Lines(FailureMessages(fn, i))
    ensures JoinedNext(s, backoff, fn(i).value, i).slot.e.Some?
    ensures Message(JoinedNext(s, backoff, fn(i).value, i).slot.e.value) == Lines(FailureMessages(fn, i + 1))
  {
    var err := fn(i).value;
    JoinPair(s.slot.e, Some(err));
    assert FailureMessages(fn, i + 1) == FailureMessages(fn, i) + [Message(err)];
    LinesAppend(FailureMessages(fn, i), [Message(err)]);
  }

  /** The joining part of the loop (the only part the corrected loop reaches
      once an error is held), without `errFn`: iterations `i` up to the first
      success `n`, or up to `limit` when `n == limit`, add one line each to the
      held message, oldest first, and sleep after each of them. */
  lemma {:induction false} JoinsUpTo(s: TrierState, limit: int, backoff: bool, fn: Work, i: nat, n: nat)
    requires 0 < i <= n <= limit
    requires forall k: nat :: k < n ==> fn(k).Some?
    requires n < limit ==> fn(n).None?
    requires s.slot.Holds? && s.slot.e.Some?
    requires Message(s.slot.e.value) == Lines(FailureMessages(fn, i))
    ensures var r := TrierSpec.RetryUpTo(s, limit, None, backoff, fn, i);
      && r.slot.Holds? && r.slot.e.Some?
      && Message(r.slot.e.value) == Lines(FailureMessages(fn, n))
      && r.fnCalls == s.fnCalls + (n - i) + (if n < limit then 1 else 0)
      && r.panicked == s.panicked && r.errFnCalls == s.errFnCalls
      && r.backoffs == s.backoffs + (if backoff then Indices(i, n) else [])
    decreases n - i
  {
    if i == n {
      assert Indices(i, n) == [];
      assert s.backoffs + [] == s.backoffs;
    } else {
      var next := JoinedNext(s, backoff, fn(i).value, i);
      JoinStep(s, limit, backoff, fn, i);
      JoinedNextMessage(s, backoff, fn, i);
      JoinsUpTo(next, limit, backoff, fn, i + 1, n);
      IndicesFrom(i, n);
    }
  }

  /** The corrected loop, entered with the slot unset and no `errFn`: if the
      first `n` invocations fail and the next succeeds (or `n == limit`), `fn`
      runs `n + 1` times (`limit` times), nothing panics, the slot is unset when
      `n == 0` and otherwise holds one error whose message lists the `n`
      failures' messages one per line, oldest first, and a sleep follows each
      failure. */
  lemma RetryCollectsFailures(s: TrierState, limit: int, backoff: bool, fn: Work, n: nat)
    requires s.slot.Unset? && n <= limit
    requires forall k: nat :: k < n ==> fn(k).Some?
    requires n < limit ==> fn(n).None?
    ensures var r := RetryUpTo(s, limit, None, backoff, fn, 0);
      && r.fnCalls == s.fnCalls + n + (if n < limit then 1 else 0)
      && r.panicked == s.panicked
      && (n == 0 <==> r.slot.Unset?)
      && (n > 0 ==> r.slot.Holds? && r.slot.e.Some? && Message(r.slot.e.value) == Lines(FailureMessages(fn, n)))
      && r.backoffs == s.backoffs + (if backoff then Indices(0, n) else [])
  {
    if n == 0 {
      if limit > 0 {
        assert fn(0).None?;
      }
      assert Indices(0, 0) == [];
      assert s.backoffs + [] == s.backoffs;
    } else {
      var err := fn(0).value;
      var s2 := Invoke(s).(slot := Holds(Some(err)));
      var s3 := if backoff then s2.(backoffs := s2.backoffs + [0]) else s2;
      assert FailureMessages(fn, 1) == [Message(err)];
      JoinsUpTo(s3, limit, backoff, fn, 1, n);
      IndicesFrom(0, n);
    }
  }

  /** The corrected `TryRetry` with a positive limit on an unset slot: every
      invocation fails, so it runs `fn` `limit` times and keeps all `limit`
      messages. */
  lemma TryRetryAllFail(s: TrierState, limit: nat, fn: Work)
    requires s.slot.Unset? && limit > 0
    requires forall k: nat :: k < limit ==> fn(k).Some?
    ensures var r := TryRetry(s, limit, fn);
      && r.fnCalls == s.fnCalls + limit && r.panicked == s.panicked
      && r.slot.Holds? && r.slot.e.Some?
      && Message(r.slot.e.value) == Lines(FailureMessages(fn, limit))
  {
    RetryCollectsFailures(s, limit, false, fn, limit);
  }

  /** The corrected backoff variant stores the sentinel error for a
      non-positive limit, without invoking `fn` or panicking. */
  lemma TryRetryBackoffInvalidLimit(s: TrierState, limit: int, errFn: ErrFn, fn: Work)
    requires s.slot.Unset? && limit <= 0
    ensures var r := TryRetryBackoff(s, limit, fn);
      && r.slot.Holds? && r.slot.e.Some? && Message(r.slot.e.value) == LimitMessage
      && r.fnCalls == s.fnCalls && r.panicked == s.panicked
    ensures TryRetryBackoffIfErr(s, limit, errFn, fn) == TryRetryBackoff(s, limit, fn)
  {
  }

  /** The corrected `Err` after a chain of `Try` calls from an unset slot:
      nil when every unit succeeded, and after one more `Try` whose unit
      fails, exactly that first error (trier.go:241-242). */
  lemma ErrReportsFirstFailure(s: TrierState, ops: seq<Op>, fn: Work)
    requires s.slot.Unset?
    requires forall i :: 0 <= i < |ops| ==> ops[i].TryOp? && ops[i].fn(0).None?
    requires fn(0).Some?
    ensures Runs(s, ops) && Err(Run(s, ops)) == None
    ensures Err(Try(Run(s, ops), fn)) == fn(0)
  {
    SucceedingTriesLeaveUnset(s, ops);
  }

  /** The corrected IfErr retry variants keep a first failure, untransformed
      by `errFn`, and do not panic. */
  lemma IfErrRetriesKeepFailure(s: TrierState, limit: int, errFn: ErrFn, fn: Work)
    requires s.slot.Unset? && limit > 0 && fn(0).Some?
    ensures var r := TryRetryIfErr(s, limit, errFn, fn);
      r.slot.Holds? && r.slot.e.Some? && r.panicked == s.panicked
    ensures var r := TryRetryBackoffIfErr(s, limit, errFn, fn);
      r.slot.Holds? && r.slot.e.Some? && r.panicked == s.panicked
  {
    var s3 := Invoke(s).(slot := Holds(fn(0)));
    assert TryRetryIfErr(s, limit, errFn, fn) == TrierSpec.RetryUpTo(s3, limit, Some(errFn), false, fn, 1);
  }

  /** The corrected `TryJoin`: the new error's text, a newline, then the held
      error's text. */
  lemma TryJoinNewestFirst(s: TrierState, fn: Work, a: Error, b: Error)
    requires s.slot == Holds(Some(a)) && fn(0) == Some(b)
    ensures TryJoin(s, fn).slot.e.Some?
    ensures Message(TryJoin(s, fn).slot.e.value) == Message(b) + "\n" + Message(a)
  {
    JoinPair(Some(b), Some(a));
  }

  /** The chain of TestTrierTryErrorWrapped and TestTrierErrJoined
      (trier_test.go:72-85, 112-124), for any units of work that return what
      the test's helpers return, gives the expected message with the
      corrected `TryJoin`. */
  lemma JoinedScenario(f1: Work, f2: Work, f3: Work, f4: Work)
    requires f1(0) == TrierTests.PassOrFail([])
    requires f2(0) == TrierTests.FailIfString([TrierTests.Int(0)])
    requires f3(0) == TrierTests.PassOrFail([TrierTests.Bool(true)])
    requires f4(0) == TrierTests.FailIfString([TrierTests.Str("hi")])
    ensures var r := TryJoin(Try(Try(Try(Fresh, f1), f2), f3), f4);
      r.slot.Holds? && r.slot.e.Some? &&
      Message(r.slot.e.value) == "failedIfString\nfailed passOrFail"
  {
    var a := New("failed passOrFail");
    var b := New("failedIfString");
    var s3 := Try(Try(Try(Fresh, f1), f2), f3);
    assert s3.slot == Holds(Some(a));
    assert Message(b) + "\n" + Message(a) == "failedIfString\nfailed passOrFail";
    TryJoinNewestFirst(s3, f4, a, b);
  }
}
