/** `Logger.formatLogArgs`: a variadic argument list becomes either a
    structured `{err}` carrier plus a message, or one message string. */
module Formatting {
  import opened Values
  import opened Text

  /** The first component handed to the sink: the `{err: ...}` object or a
      plain string. */
  datatype Payload = Carrier(err: Arg) | Msg(text: string)

  /** The tuple `[{err}, message]` or `[message]`. */
  datatype Formatted = Structured(err: Arg, message: string) | Plain(message: string)
  {
    /** The first element of the tuple. */
    function Head(): Payload
    {
      if Structured? then Carrier(err) else Msg(message)
    }

    /** The second element of the tuple, absent for a plain message. */
    function Tail(): Option<string>
    {
      if Structured? then Some(message) else None
    }
  }

  /** Every argument rendered by `StringifyArg`, in order. */
  function Renderings(rt: Runtime, args: seq<Arg>): seq<string>
  {
    seq(|args|, i requires 0 <= i < |args| => StringifyArg(rt, args[i]))
  }

  lemma RenderingsAppend(rt: Runtime, a: seq<Arg>, b: seq<Arg>)
    ensures Renderings(rt, a + b) == Renderings(rt, a) + Renderings(rt, b)
  {
  }

  /** The arguments whose renderings make up the message: all of them, or
      all but a leading Error. */
  function MessageArgs(args: seq<Arg>): seq<Arg>
  {
    if |args| > 0 && args[0].Err? then args[1..] else args
  }

  function FormatLogArgs(rt: Runtime, args: seq<Arg>): (r: Formatted)
    ensures r.Structured? <==> |args| > 0 && args[0].Err?
    ensures r.Structured? ==> r.err == args[0]
    ensures r.message == Join(Renderings(rt, MessageArgs(args)))
  {
    if |args| > 0 && args[0].Err? then
      Structured(args[0], Join(Renderings(rt, args[1..])))
    else
      Plain(Join(Renderings(rt, args)))
  }

  /** A leading Error becomes the carrier and the rest is joined into the
      message, which is empty when the Error is alone. */
  lemma LeadingErrorIsCarrier(rt: Runtime, args: seq<Arg>)
    requires |args| > 0 && args[0].Err?
    ensures FormatLogArgs(rt, args).Head() == Carrier(args[0])
    ensures FormatLogArgs(rt, args).Tail() == Some(Join(Renderings(rt, args[1..])))
    ensures |args| == 1 ==> FormatLogArgs(rt, args).Tail() == Some("")
  {
  }

  /** Without a leading Error the result is a single string; no arguments
      give the empty string. */
  lemma OtherwisePlain(rt: Runtime, args: seq<Arg>)
    requires !(|args| > 0 && args[0].Err?)
    ensures FormatLogArgs(rt, args) == Plain(Join(Renderings(rt, args)))
    ensures FormatLogArgs(rt, args).Tail() == None
    ensures args == [] ==> FormatLogArgs(rt, args).message == ""
  {
  }

  /** The message loses nothing: when no rendering contains a space, splitting
      the message on spaces gives back every rendering, in argument order. */
  lemma {:induction false} MessageSplitsIntoRenderings(rt: Runtime, args: seq<Arg>)
    requires MessageArgs(args) != []
    requires forall a :: a in MessageArgs(args) ==> NoSpace(StringifyArg(rt, a))
    ensures Split(FormatLogArgs(rt, args).message) == Renderings(rt, MessageArgs(args))
  {
    var parts := Renderings(rt, MessageArgs(args));
    forall i | 0 <= i < |parts|
      ensures NoSpace(parts[i])
    {
      assert MessageArgs(args)[i] in MessageArgs(args);
    }
    SplitJoin(parts);
  }

  /** Plain messages compose: an argument that is not an Error, followed by
      more arguments, contributes its rendering, one space, then the join of
      the rest. */
  lemma {:induction false} PlainMessageCons(rt: Runtime, x: Arg, rest: seq<Arg>)
    requires !x.Err? && rest != []
    ensures FormatLogArgs(rt, [x] + rest)
         == Plain(StringifyArg(rt, x) + " " + Join(Renderings(rt, rest)))
  {
    RenderingsAppend(rt, [x], rest);
    JoinAppend([StringifyArg(rt, x)], Renderings(rt, rest));
  }

  /** `info("Server started on port", 8080)` is the message
      "Server started on port 8080". */
  lemma ServerStartedMessage(rt: Runtime)
    requires rt.numberText(8080.0) == "8080"
    ensures FormatLogArgs(rt, [Str("Server started on port"), Num(Finite(8080.0))])
         == Plain("Server started on port 8080")
  {
    var args := [Str("Server started on port"), Num(Finite(8080.0))];
    var parts := ["Server started on port", "8080"];
    assert Renderings(rt, args) == parts;
    assert parts[1..] == ["8080"];
    assert Join(parts) == "Server started on port" + " " + "8080";
  }

  /** `error(new Error("boom"), "while processing job", 42)` carries the
      Error and the message "while processing job 42". */
  lemma BoomCarrierMessage(rt: Runtime, stack: Option<string>, ref: nat)
    requires rt.numberText(42.0) == "42"
    ensures FormatLogArgs(rt, [Err("boom", stack, ref), Str("while processing job"), Num(Finite(42.0))])
         == Structured(Err("boom", stack, ref), "while processing job 42")
  {
    var args := [Err("boom", stack, ref), Str("while processing job"), Num(Finite(42.0))];
    assert args[1..] == [Str("while processing job"), Num(Finite(42.0))];
    var parts := ["while processing job", "42"];
    assert Renderings(rt, args[1..]) == parts;
    assert parts[1..] == ["42"];
    assert Join(parts) == "while processing job" + " " + "42";
  }
}
