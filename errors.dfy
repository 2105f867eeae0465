/** The part of Go's `error` values and of the standard `errors` package that the
    Trier chain relies on: `errors.New`, `errors.Join` and the text that the
    `Error()` method of their results returns.

    A Go `error` is an interface value that may be nil; it is modelled as
    `Option<Error>`, with `None` for nil. */
module GoErrors {

  datatype Option<T> = None | Some(value: T)

  /** A non-nil error: one made by `errors.New(text)`, or the compound error that
      `errors.Join` returns, which keeps its non-nil arguments in order. */
  datatype Error = Leaf(text: string) | Joined(parts: seq<Error>)

  /** `errors.New(text)`: an error whose message is exactly `text`. */
  function New(text: string): (e: Error)
    ensures Message(e) == text
    ensures e.Leaf?
  {
    Leaf(text)
  }

  /** The string that the error's `Error()` method returns. A compound error
      writes the messages of its parts one per line, in the order of the parts. */
  function Message(e: Error): string
  {
    match e
    case Leaf(text) => text
    case Joined(parts) => Lines(seq(|parts|, i requires 0 <= i < |parts| => Message(parts[i])))
  }

  /** The strings of `ms` separated by single newlines. */
  function Lines(ms: seq<string>): string
  {
    if |ms| == 0 then ""
    else if |ms| == 1 then ms[0]
    else ms[0] + "\n" + Lines(ms[1..])
  }

  /** The non-nil errors of `xs`, in order. */
  function Present(xs: seq<Option<Error>>): (r: seq<Error>)
    ensures |r| <= |xs|
    ensures |r| == 0 <==> forall i :: 0 <= i < |xs| ==> xs[i].None?
  {
    if xs == [] then []
    else (if xs[0].Some? then [xs[0].value] else []) + Present(xs[1..])
  }

  /** The kept errors are exactly the non-nil arguments. */
  lemma {:induction false} PresentKeeps(xs: seq<Option<Error>>)
    ensures forall e :: e in Present(xs) <==> Some(e) in xs
  {
    if xs != [] {
      PresentKeeps(xs[1..]);
      assert xs == [xs[0]] + xs[1..];
    }
  }

  /** The kept errors stay in argument order: those of a prefix come before
      those of the rest. */
  lemma {:induction false} PresentAppend(xs: seq<Option<Error>>, ys: seq<Option<Error>>)
    ensures Present(xs + ys) == Present(xs) + Present(ys)
  {
    if xs == [] {
      assert xs + ys == ys;
    } else {
      var zs := xs + ys;
      var head := if xs[0].Some? then [xs[0].value] else [];
      assert zs[0] == xs[0] && zs[1..] == xs[1..] + ys;
      calc {
        Present(zs);
        head + Present(zs[1..]);
        { PresentAppend(xs[1..], ys); }
        head + (Present(xs[1..]) + Present(ys));
        (head + Present(xs[1..])) + Present(ys);
        Present(xs) + Present(ys);
      }
    }
  }

  /** A single argument keeps its own error, if any. */
  lemma PresentSingle(x: Option<Error>)
    ensures Present([x]) == if x.Some? then [x.value] else []
  {
    assert [x][1..] == [];
  }

  /** `errors.Join(xs...)`: nil arguments are dropped; the result is nil when
      every argument is nil, and otherwise a compound error of the others. */
  function Join(xs: seq<Option<Error>>): (r: Option<Error>)
    ensures r.None? <==> forall i :: 0 <= i < |xs| ==> xs[i].None?
  {
    var ps := Present(xs);
    if ps == [] then None else Some(Joined(ps))
  }

  /** Joining two errors: nil exactly when both are nil; otherwise the message is
      the first argument's message, a newline, and the second's, where a nil
      argument contributes no line at all. */
  lemma JoinPair(a: Option<Error>, b: Option<Error>)
    ensures Join([a, b]).None? <==> a.None? && b.None?
    ensures a.Some? && b.Some? ==> Join([a, b]) == Some(Joined([a.value, b.value]))
    ensures a.Some? && b.Some? ==> Message(Join([a, b]).value) == Message(a.value) + "\n" + Message(b.value)
    ensures a.Some? && b.None? ==> Message(Join([a, b]).value) == Message(a.value)
    ensures a.None? && b.Some? ==> Message(Join([a, b]).value) == Message(b.value)
  {
    var xs := [a, b];
    assert xs[1..] == [b];
    assert [b][1..] == [];
    if a.Some? && b.Some? {
      assert Present(xs) == [a.value, b.value];
      var ms := [Message(a.value), Message(b.value)];
      assert seq(2, i requires 0 <= i < 2 => Message([a.value, b.value][i])) == ms;
      assert ms[1..] == [Message(b.value)];
      assert Lines(ms[1..]) == Message(b.value);
      assert Message(Joined([a.value, b.value])) == Lines(ms);
    } else if a.Some? {
      assert Present(xs) == [a.value];
    } else if b.Some? {
      assert Present(xs) == [b.value];
    }
  }

  /** Lines of two non-empty lists is the lines of the first, a newline, and the
      lines of the second. */
  lemma {:induction false} LinesAppend(ms: seq<string>, ns: seq<string>)
    requires |ms| > 0 && |ns| > 0
    ensures Lines(ms + ns) == Lines(ms) + "\n" + Lines(ns)
  {
    if |ms| == 1 {
      assert (ms + ns)[1..] == ns;
    } else {
      assert (ms + ns)[1..] == ms[1..] + ns;
      LinesAppend(ms[1..], ns);
    }
  }
}
