/** The scenarios of trier_test.go and five more, stated as verified methods
    on the class. The helpers `passOrFail` and `failIfString` become
    functions of the arguments that `Try(fn, args...)` passes on; a unit of
    work is such a helper applied to fixed arguments, so every invocation
    returns the same result. */
module TrierTests {
  import opened GoErrors
  import TrierSpec
  import opened Trier

  /** The dynamic types of the arguments the tests pass. */
  datatype Arg = Str(s: string) | Int(i: int) | Bool(b: bool)

  /** `passOrFail` (trier_test.go:9-14): fails exactly when given arguments. */
  function PassOrFail(args: seq<Arg>): (r: Option<Error>)
    ensures r.Some? <==> |args| != 0
    ensures r.Some? ==> Message(r.value) == "failed passOrFail"
  {
    if |args| != 0 then Some(New("failed passOrFail")) else None
  }

  /** `failIfString` (trier_test.go:16-24): fails exactly when its first
      argument is a string (with no argument at all, `args[0]` panics). */
  function FailIfString(args: seq<Arg>): (r: Option<Error>)
    requires |args| > 0
    ensures r.Some? <==> args[0].Str?
    ensures r.Some? ==> Message(r.value) == "failedIfString"
  {
    if args[0].Str? then Some(New("failedIfString")) else None
  }

  /** TestTrierTry (trier_test.go:34-43): a succeeding `Try` on a new trier
      leaves its pointer nil. */
  method TrierTrySucceeds() returns (unset: bool, calls: nat)
    ensures unset && calls == 1
  {
    var tr := new Trier();
    var _ := tr.Try(k => PassOrFail([]));
    unset := tr.slot.Unset?;
    calls := tr.fnCalls;
  }

  /** TestTrierTryError and TestTrierErr (trier_test.go:45-55, 87-96). */
  method TrierTryError() returns (msg: string)
    ensures msg == "failed passOrFail"
  {
    var tr := new Trier();
    var _ := tr.Try(k => PassOrFail([Bool(true)]));
    msg := Message(tr.Err().value);
  }

  /** TestTrierTryErrorChainedTries and TestTrierErrChainedTries
      (trier_test.go:57-70, 98-110): the third `Try` fails, so the fourth is
      skipped and its `fn` is never invoked. */
  method TrierChainedTries() returns (msg: string, calls: nat)
    ensures msg == "failed passOrFail"
    ensures calls == 3
  {
    var tr := new Trier();
    var t := tr.Try(k => PassOrFail([]));
    t := t.Try(k => FailIfString([Int(0)]));
    t := t.Try(k => PassOrFail([Bool(true)]));
    t := t.Try(k => FailIfString([Str("hi")]));
    msg := Message(tr.Err().value);
    calls := tr.fnCalls;
  }

  /** TestTrierTryErrorWrapped and TestTrierErrJoined (trier_test.go:72-85,
      112-124) as the code is written: `errors.Join(*t.err, err)` at
      trier.go:222 puts the held error first, so the message is NOT the
      "failedIfString\nfailed passOrFail" that the tests expect. */
  method TrierJoinedAsWritten() returns (msg: string)
    ensures msg == "failed passOrFail\nfailedIfString"
    ensures msg != "failedIfString\nfailed passOrFail"
  {
    var tr := new Trier();
    var t := tr.Try(k => PassOrFail([]));
    t := t.Try(k => FailIfString([Int(0)]));
    t := t.Try(k => PassOrFail([Bool(true)]));
    t := t.TryJoin(k => FailIfString([Str("hi")]));
    var held := New("failed passOrFail");
    var added := New("failedIfString");
    JoinPair(Some(held), Some(added));
    msg := Message(tr.Err().value);
    assert msg[0] == 'f' && msg[6] == ' ';
    assert "failedIfString\nfailed passOrFail"[6] == 'I';
  }

  /** TestTrierTryJoinNoPreviousError (trier_test.go:126-137). */
  method TrierTryJoinNoPreviousError() returns (msg: string)
    ensures msg == "failedIfString"
  {
    var tr := new Trier();
    var t := tr.Try(k => PassOrFail([]));
    t := t.Try(k => FailIfString([Int(0)]));
    t := t.TryJoin(k => FailIfString([Str("hi")]));
    msg := Message(tr.Err().value);
  }

  /** TestTrierTryJoinNoErrors (trier_test.go:139-150): the pointer now points
      at a nil error, so `Err` returns nil and a later `Try` is skipped. */
  method TrierTryJoinNoErrors() returns (e: Option<Error>, skipped: bool)
    ensures e.None?
    ensures skipped
  {
    var tr := new Trier();
    var t := tr.Try(k => PassOrFail([]));
    t := t.Try(k => FailIfString([Int(0)]));
    t := t.TryJoin(k => FailIfString([Bool(true)]));
    e := tr.Err();
    var before := tr.fnCalls;
    t := t.Try(k => PassOrFail([Bool(true)]));
    skipped := tr.fnCalls == before && tr.Err() == e;
  }

  /** TestTrierAnonymousFunc (trier_test.go:152-166): `fn` runs once, so its
      side effect happens once. */
  method TrierAnonymousFunc() returns (calls: nat)
    ensures calls == 1
  {
    var tr := new Trier();
    var _ := tr.Try(k => None);
    calls := tr.fnCalls;
  }

  /** `Nil` then a succeeding `Try` leaves the pointer nil, so `Err` cannot
      be called afterwards: it would dereference nil. */
  method TrierNilThenTry() returns (unset: bool)
    ensures unset
  {
    var tr := new Trier();
    var t := tr.Try(k => PassOrFail([Bool(true)]));
    t := t.Nil();
    t := t.Try(k => PassOrFail([]));
    unset := tr.slot.Unset?;
  }

  /** A `TryRetry` with a positive limit whose `fn` fails panics on a new
      trier (the write through the nil pointer at trier.go:97) and stores nothing. */
  method TrierRetryFailurePanics() returns (panics: bool, unset: bool, calls: nat)
    ensures panics && unset && calls == 1
  {
    var tr := new Trier();
    var _ := tr.TryRetry(3, k => PassOrFail([Bool(true)]));
    panics := tr.panicked;
    unset := tr.slot.Unset?;
    calls := tr.fnCalls;
  }

  /** `TryRetry(3, fn)` where `fn` fails twice and then succeeds: the first
      failure already panics, so `fn` runs once, not three times. */
  method TrierRetryTwoFailuresThenSuccess() returns (panics: bool, calls: nat)
    ensures panics && calls == 1
  {
    var tr := new Trier();
    var _ := tr.TryRetry(3, k => if k < 2 then Some(New("transient")) else None);
    panics := tr.panicked;
    calls := tr.fnCalls;
  }

  /** A `TryRetryBackoff` with limit 0 on a new trier panics at trier.go:159
      before storing the sentinel error and without invoking `fn`. */
  method TrierBackoffZeroLimitPanics() returns (panics: bool, unset: bool, calls: nat)
    ensures panics && unset && calls == 0
  {
    var tr := new Trier();
    var _ := tr.TryRetryBackoff(0, k => None);
    panics := tr.panicked;
    unset := tr.slot.Unset?;
    calls := tr.fnCalls;
  }

  /** A non-positive limit makes `TryRetry` invoke `fn` until it succeeds,
      discarding the errors: here four invocations, and no error kept. */
  method TrierRetryUnbounded() returns (unset: bool, calls: nat)
    ensures unset && calls == 4
  {
    var tr := new Trier();
    var fn: TrierSpec.Work := k => if k < 3 then Some(New("transient")) else None;
    assert fn(3).None?;
    var _ := tr.TryRetry(0, fn);
    assert TrierSpec.FirstSuccess(fn) == 3;
    unset := tr.slot.Unset?;
    calls := tr.fnCalls;
  }
}
