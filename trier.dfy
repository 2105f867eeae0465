/** The Go type `Trier` of trier.go as a class: its field `err *error` is the
    three-valued `slot`, and the other fields record what a caller can observe
    of a call besides the slot (invocations of `fn` and `errFn`, panics, and the
    index handed to `backoff` before each sleep). Every method is proved to
    move the trier from `old(State())` to the state its function in TrierSpec
    gives; the properties of those functions are proved in TrierSpec. */
module Trier {
  import opened GoErrors
  import TrierSpec

  class Trier {
    var slot: TrierSpec.Slot
    var fnCalls: nat
    var errFnCalls: nat
    var panicked: bool
    var backoffs: seq<nat>

    function State(): TrierSpec.TrierState
      reads this
    {
      TrierSpec.TrierState(slot, fnCalls, errFnCalls, panicked, backoffs)
    }

    /** `NewTrier()` (trier.go:8-10): a trier whose pointer is nil. */
    constructor ()
      ensures State() == TrierSpec.Fresh
    {
      slot := TrierSpec.Unset;
      fnCalls := 0;
      errFnCalls := 0;
      panicked := false;
      backoffs := [];
    }

    /** `*t.err = v`: stores `v` through the pointer, or panics (`ok` false)
        when the pointer is nil. */
    method WriteThrough(v: Option<Error>) returns (ok: bool)
      modifies this
      ensures ok == old(slot).Holds?
      ensures State() == TrierSpec.Store(old(State()), v)
    {
      if slot.Unset? {
        panicked := true;
        return false;
      }
      slot := TrierSpec.Holds(v);
      return true;
    }

    /** The counted loop of the four retry methods (trier.go:88-99, 125-136,
        161-174, 194-207). */
    method RetryUpTo(limit: int, errFn: Option<TrierSpec.ErrFn>, backoff: bool, fn: TrierSpec.Work)
      modifies this
      ensures State() == TrierSpec.RetryUpTo(old(State()), limit, errFn, backoff, fn, 0)
    {
      var i: nat := 0;
      while i < limit
        invariant TrierSpec.RetryUpTo(State(), limit, errFn, backoff, fn, i)
               == TrierSpec.RetryUpTo(old(State()), limit, errFn, backoff, fn, 0)
        decreases limit - i
      {
        var stop := RetryIteration(errFn, backoff, fn, i);
        if stop {
          return;
        }
        i := i + 1;
      }
    }

    /** Iteration `i` of the counted loop. `stop` is set where the Go loop
        breaks (a success) or panics (a write through the nil pointer). */
    method RetryIteration(errFn: Option<TrierSpec.ErrFn>, backoff: bool, fn: TrierSpec.Work, i: nat)
        returns (stop: bool)
      modifies this
      ensures stop <==> fn(i).None? || old(slot).Unset?
      ensures fn(i).None? ==> State() == TrierSpec.Invoke(old(State()))
      ensures fn(i).Some? ==>
        State() == TrierSpec.FailedIteration(TrierSpec.Invoke(old(State())), errFn, backoff, fn(i).value, i)
    {
      var err := fn(i);
      fnCalls := fnCalls + 1;
      if err.None? {
        return true;
      }
      var ok;
      if slot.Holds? {
        var next := err;
        if errFn.Some? {
          next := errFn.value(err.value);
          errFnCalls := errFnCalls + 1;
        }
        ok := WriteThrough(Join([slot.e, next]));
      } else {
        ok := WriteThrough(err);
      }
      if !ok {
        return true;
      }
      if backoff {
        backoffs := backoffs + [i];
      }
      return false;
    }

    /** The loop `for { ... }` of TryRetry and TryRetryIfErr for a
        non-positive limit (trier.go:81-86, 118-123): errors are discarded
        until `fn` succeeds. */
    method RetryUntilSuccess(fn: TrierSpec.Work)
      requires TrierSpec.EventuallySucceeds(fn)
      modifies this
      ensures State() == TrierSpec.RetryUntilSuccess(old(State()), fn)
    {
      var k: nat := 0;
      while true
        invariant k <= TrierSpec.FirstSuccess(fn)
        invariant State() == old(State()).(fnCalls := old(fnCalls) + k)
        decreases TrierSpec.FirstSuccess(fn) - k
      {
        var err := fn(k);
        fnCalls := fnCalls + 1;
        if err.None? {
          break;
        }
        k := k + 1;
      }
    }

    /** `Try` (trier.go:28-44). */
    method Try(fn: TrierSpec.Work) returns (t: Trier)
      modifies this
      ensures t == this
      ensures State() == TrierSpec.Try(old(State()), fn)
    {
      t := this;
      if slot.Holds? {
        return;
      }
      var err := fn(0);
      fnCalls := fnCalls + 1;
      if err.Some? {
        if slot.Unset? {
          slot := TrierSpec.Holds(err);
        } else {
          // `*t.err = err` (line 39): the pointer is nil here
          assert false;
        }
      }
    }

    /** `TryIfErr` (trier.go:47-67). */
    method TryIfErr(errFn: TrierSpec.ErrFn, fn: TrierSpec.Work) returns (t: Trier)
      modifies this
      ensures t == this
      ensures State() == TrierSpec.TryIfErr(old(State()), errFn, fn)
    {
      t := this;
      if slot.Holds? {
        return;
      }
      var err := fn(0);
      fnCalls := fnCalls + 1;
      if err.Some? {
        if slot.Unset? {
          slot := TrierSpec.Holds(err);
        } else {
          // `*t.err = err` (line 58): the pointer is nil here
          assert false;
        }
      }
      if slot.Holds? {
        var x := errFn(slot.e.value);
        errFnCalls := errFnCalls + 1;
        slot := TrierSpec.Holds(x);
      }
    }

    /** `TryRetry` (trier.go:74-103). For a non-positive limit the loop never
        ends unless `fn` eventually succeeds. */
    method TryRetry(limit: int, fn: TrierSpec.Work) returns (t: Trier)
      requires slot.Unset? && limit <= 0 ==> TrierSpec.EventuallySucceeds(fn)
      modifies this
      ensures t == this
      ensures State() == TrierSpec.TryRetry(old(State()), limit, fn)
    {
      t := this;
      if slot.Holds? {
        return;
      }
      if limit <= 0 {
        RetryUntilSuccess(fn);
      } else {
        RetryUpTo(limit, None, false, fn);
      }
    }

    /** `TryRetryIfErr` (trier.go:111-140). */
    method TryRetryIfErr(limit: int, errFn: TrierSpec.ErrFn, fn: TrierSpec.Work) returns (t: Trier)
      requires slot.Unset? && limit <= 0 ==> TrierSpec.EventuallySucceeds(fn)
      modifies this
      ensures t == this
      ensures State() == TrierSpec.TryRetryIfErr(old(State()), limit, errFn, fn)
    {
      t := this;
      if slot.Holds? {
        return;
      }
      if limit <= 0 {
        RetryUntilSuccess(fn);
      } else {
        RetryUpTo(limit, Some(errFn), false, fn);
      }
    }

    /** `TryRetryBackoff` (trier.go:152-178); the `backoff` durations are not
        modelled, only the index each sleep would pass to it. */
    method TryRetryBackoff(limit: int, fn: TrierSpec.Work) returns (t: Trier)
      modifies this
      ensures t == this
      ensures State() == TrierSpec.TryRetryBackoff(old(State()), limit, fn)
    {
      t := this;
      if slot.Holds? {
        return;
      }
      if limit <= 0 {
        var _ := WriteThrough(Some(New(TrierSpec.LimitMessage)));
      } else {
        RetryUpTo(limit, None, true, fn);
      }
    }

    /** `TryRetryBackoffIfErr` (trier.go:185-211). */
    method TryRetryBackoffIfErr(limit: int, errFn: TrierSpec.ErrFn, fn: TrierSpec.Work) returns (t: Trier)
      modifies this
      ensures t == this
      ensures State() == TrierSpec.TryRetryBackoffIfErr(old(State()), limit, errFn, fn)
    {
      t := this;
      if slot.Holds? {
        return;
      }
      if limit <= 0 {
        var _ := WriteThrough(Some(New(TrierSpec.LimitMessage)));
      } else {
        RetryUpTo(limit, Some(errFn), true, fn);
      }
    }

    /** `TryJoin` (trier.go:218-229). */
    method TryJoin(fn: TrierSpec.Work) returns (t: Trier)
      modifies this
      ensures t == this
      ensures State() == TrierSpec.TryJoin(old(State()), fn)
    {
      t := this;
      var err := fn(0);
      fnCalls := fnCalls + 1;
      if slot.Holds? {
        var x := Join([slot.e, err]);
        slot := TrierSpec.Holds(x);
      } else {
        slot := TrierSpec.Holds(err);
      }
    }

    /** `Nil` (trier.go:234-239). */
    method Nil() returns (t: Trier)
      modifies this
      ensures t == this
      ensures State() == TrierSpec.Nil(old(State()))
    {
      t := this;
      if slot.Holds? {
        slot := TrierSpec.Unset;
      }
    }

    /** `Err` (trier.go:243-245) dereferences the pointer: it is defined only
        when the slot is set, and then returns the held error, nil or not. */
    function Err(): (e: Option<Error>)
      reads this
      requires slot.Holds?
      ensures slot == TrierSpec.Holds(e)
    {
      slot.e
    }
  }
}
