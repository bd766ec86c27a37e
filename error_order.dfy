/** The `error` override installed by `WrapLogger`: when the first argument
    is a string and there are more, every Error among the later arguments is
    cut out of the list and put at its front (`splice(i, 1)` then `unshift`),
    before the undecorated `Logger.error` runs. */
module ErrorOrder {
  import opened Values
  import opened Text
  import opened Formatting

  // ---------------------------------------------------------------------
  // Specification

  /** The list after the scan has visited every position from left to right:
      each Error visited goes to the front, every other value stays where it
      is relative to the values already visited. Visiting position 0 moves
      nothing, so this also describes a scan that starts at position 1. */
  function PulledForward(s: seq<Arg>): seq<Arg>
  {
    if s == [] then []
    else
      var done := PulledForward(s[..|s| - 1]);
      var x := s[|s| - 1];
      if x.Err? then [x] + done else done + [x]
  }

  /** The guard of the override: a primitive string first, and more than one
      argument. */
  predicate Reorders(args: seq<Arg>)
  {
    |args| > 1 && args[0].Str?
  }

  /** The argument list the override hands to `Logger.error`. */
  function ReorderedArgs(args: seq<Arg>): (r: seq<Arg>)
    ensures |r| == |args|
    ensures multiset(r) == multiset(args)
    ensures !Reorders(args) ==> r == args
  {
    if Reorders(args) then PulledForwardIsPermutation(args); PulledForward(args) else args
  }

  /** An independent description: the Errors, in order of position. */
  function ErrorsOf(s: seq<Arg>): seq<Arg>
  {
    if s == [] then [] else (if s[0].Err? then [s[0]] else []) + ErrorsOf(s[1..])
  }

  /** The values that are not Errors, in order of position. */
  function NonErrorsOf(s: seq<Arg>): seq<Arg>
  {
    if s == [] then [] else (if s[0].Err? then [] else [s[0]]) + NonErrorsOf(s[1..])
  }

  function Reverse(s: seq<Arg>): seq<Arg>
  {
    if s == [] then [] else Reverse(s[1..]) + [s[0]]
  }

  // ---------------------------------------------------------------------
  // Lemmas about the specification

  lemma {:induction false} PulledForwardIsPermutation(s: seq<Arg>)
    ensures |PulledForward(s)| == |s|
    ensures multiset(PulledForward(s)) == multiset(s)
  {
    if s != [] {
      var init := s[..|s| - 1];
      PulledForwardIsPermutation(init);
      assert s == init + [s[|s| - 1]];
    }
  }

  lemma ErrorsOfAppend(a: seq<Arg>, b: seq<Arg>)
    ensures ErrorsOf(a + b) == ErrorsOf(a) + ErrorsOf(b)
    ensures NonErrorsOf(a + b) == NonErrorsOf(a) + NonErrorsOf(b)
  {
    ErrorsOfAppendErrors(a, b);
    ErrorsOfAppendNonErrors(a, b);
  }

  lemma {:induction false} ErrorsOfAppendErrors(a: seq<Arg>, b: seq<Arg>)
    ensures ErrorsOf(a + b) == ErrorsOf(a) + ErrorsOf(b)
  {
    if a == [] {
      assert a + b == b;
    } else {
      var ab := a + b;
      assert ab[0] == a[0] && ab[1..] == a[1..] + b;
      ErrorsOfAppendErrors(a[1..], b);
      var h := if a[0].Err? then [a[0]] else [];
      assert ErrorsOf(ab) == h + ErrorsOf(a[1..] + b);
      assert ErrorsOf(a) == h + ErrorsOf(a[1..]);
    }
  }

  lemma {:induction false} ErrorsOfAppendNonErrors(a: seq<Arg>, b: seq<Arg>)
    ensures NonErrorsOf(a + b) == NonErrorsOf(a) + NonErrorsOf(b)
  {
    if a == [] {
      assert a + b == b;
    } else {
      var ab := a + b;
      assert ab[0] == a[0] && ab[1..] == a[1..] + b;
      ErrorsOfAppendNonErrors(a[1..], b);
      var h := if a[0].Err? then [] else [a[0]];
      assert NonErrorsOf(ab) == h + NonErrorsOf(a[1..] + b);
      assert NonErrorsOf(a) == h + NonErrorsOf(a[1..]);
    }
  }

  lemma {:induction false} ErrorsOfAreErrors(s: seq<Arg>, k: nat)
    requires k < |ErrorsOf(s)|
    ensures ErrorsOf(s)[k].Err?
  {
    if !s[0].Err? {
      ErrorsOfAreErrors(s[1..], k);
    } else if k > 0 {
      ErrorsOfAreErrors(s[1..], k - 1);
    }
  }

  lemma {:induction false} ReverseAppendOne(a: seq<Arg>, x: Arg)
    ensures Reverse(a + [x]) == [x] + Reverse(a)
  {
    if a != [] {
      assert (a + [x])[1..] == a[1..] + [x];
      ReverseAppendOne(a[1..], x);
    }
  }

  lemma {:induction false} ReverseAt(s: seq<Arg>, k: nat)
    requires k < |s|
    ensures |Reverse(s)| == |s| && Reverse(s)[k] == s[|s| - 1 - k]
  {
    if k < |s| - 1 {
      ReverseAt(s[1..], k);
    } else {
      ReverseLength(s[1..]);
    }
  }

  lemma {:induction false} ReverseLength(s: seq<Arg>)
    ensures |Reverse(s)| == |s|
  {
    if s != [] {
      ReverseLength(s[1..]);
    }
  }

  /** Exact order: the Errors in reverse order of position, then every other
      value in its original order. */
  lemma {:induction false} PulledForwardOrder(s: seq<Arg>)
    ensures PulledForward(s) == Reverse(ErrorsOf(s)) + NonErrorsOf(s)
  {
    if s != [] {
      var init, x := s[..|s| - 1], s[|s| - 1];
      PulledForwardOrder(init);
      PulledForwardOrderStep(init, x);
      assert s == init + [x];
    }
  }

  /** One step of the scan keeps the exact-order description. */
  lemma PulledForwardOrderStep(init: seq<Arg>, x: Arg)
    requires PulledForward(init) == Reverse(ErrorsOf(init)) + NonErrorsOf(init)
    ensures PulledForward(init + [x]) == Reverse(ErrorsOf(init + [x])) + NonErrorsOf(init + [x])
  {
    var e, n := ErrorsOf(init), NonErrorsOf(init);
    var e', n' := ErrorsOf(init + [x]), NonErrorsOf(init + [x]);
    assert e' == e + (if x.Err? then [x] else [])
        && n' == n + (if x.Err? then [] else [x]) by {
      ErrorsOfAppend(init, [x]);
      ErrorsOfSingleton(x);
    }
    assert x.Err? ==> Reverse(e') == [x] + Reverse(e) by {
      if x.Err? {
        ReverseAppendOne(e, x);
      }
    }
    assert !x.Err? ==> e' == e && n' == n + [x];
    assert x.Err? ==> n' == n;
    PulledForwardStep(init, x);
    StepAlgebra(x, PulledForward(init), Reverse(e), n, PulledForward(init + [x]), Reverse(e'), n');
  }

  /** The sequence algebra of one step, kept apart from the recursive
      definitions. */
  lemma StepAlgebra(x: Arg, p: seq<Arg>, re: seq<Arg>, n: seq<Arg>,
                    p': seq<Arg>, re': seq<Arg>, n': seq<Arg>)
    requires p == re + n
    requires x.Err? ==> p' == [x] + p && re' == [x] + re && n' == n
    requires !x.Err? ==> p' == p + [x] && re' == re && n' == n + [x]
    ensures p' == re' + n'
  {
  }

  lemma PulledForwardStep(init: seq<Arg>, x: Arg)
    ensures PulledForward(init + [x])
         == if x.Err? then [x] + PulledForward(init) else PulledForward(init) + [x]
  {
    var s := init + [x];
    assert s[..|s| - 1] == init && s[|s| - 1] == x;
  }

  lemma ErrorsOfSingleton(x: Arg)
    ensures ErrorsOf([x]) == if x.Err? then [x] else []
    ensures NonErrorsOf([x]) == if x.Err? then [] else [x]
  {
    assert [x][1..] == [];
  }

  /** With no Error in the list, the scan leaves it as it is. */
  lemma {:induction false} NonErrorsOfErrorFree(s: seq<Arg>)
    requires ErrorsOf(s) == []
    ensures NonErrorsOf(s) == s
  {
    if s != [] {
      NonErrorsOfErrorFree(s[1..]);
    }
  }

  /** Under the guard, the reordered list is the Errors after the leading
      string in reverse order of position, then the string, then the other
      values in their original order; without an Error after the string the
      list is unchanged. */
  lemma ReorderedShape(args: seq<Arg>)
    requires Reorders(args)
    ensures ReorderedArgs(args)
         == Reverse(ErrorsOf(args[1..])) + [args[0]] + NonErrorsOf(args[1..])
    ensures ErrorsOf(args[1..]) == [] ==> ReorderedArgs(args) == args
  {
    var head, rest := args[0], args[1..];
    var e, n := ErrorsOf(rest), NonErrorsOf(rest);
    assert ErrorsOf(args) == e && NonErrorsOf(args) == [head] + n by {
      assert args == [head] + rest;
      ErrorsOfAppend([head], rest);
      ErrorsOfSingleton(head);
    }
    assert ReorderedArgs(args) == Reverse(ErrorsOf(args)) + NonErrorsOf(args) by {
      PulledForwardOrder(args);
    }
    assert Reverse(e) + ([head] + n) == Reverse(e) + [head] + n;
    if e == [] {
      assert n == rest by {
        NonErrorsOfErrorFree(rest);
      }
      assert Reverse(e) == [];
      assert [head] + rest == args;
    }
  }

  // ---------------------------------------------------------------------
  // The formatted record after reordering

  /** The carrier `error` logs after reordering is the LAST Error among the
      arguments after the leading string; the message renders the other
      Errors (nearest the end first), then the string, then the remaining
      values in order. */
  lemma CarrierIsLastError(rt: Runtime, args: seq<Arg>)
    requires Reorders(args) && ErrorsOf(args[1..]) != []
    ensures var errs := ErrorsOf(args[1..]);
      FormatLogArgs(rt, ReorderedArgs(args))
      == Structured(errs[|errs| - 1],
                    Join(Renderings(rt, Reverse(errs)[1..] + [args[0]] + NonErrorsOf(args[1..]))))
  {
    var errs, n := ErrorsOf(args[1..]), NonErrorsOf(args[1..]);
    var rev, r := Reverse(errs), ReorderedArgs(args);
    assert r == rev + [args[0]] + n by {
      ReorderedShape(args);
    }
    assert |rev| == |errs| && rev[0] == errs[|errs| - 1] by {
      ReverseAt(errs, 0);
    }
    assert errs[|errs| - 1].Err? by {
      ErrorsOfAreErrors(args[1..], |errs| - 1);
    }
    HeadAndRest(r, rev, [args[0]], n);
    LeadingErrorIsCarrier(rt, r);
  }

  /** The sequence algebra of splitting a list whose front part is known. */
  lemma HeadAndRest(r: seq<Arg>, front: seq<Arg>, mid: seq<Arg>, back: seq<Arg>)
    requires front != []
    requires r == front + mid + back
    ensures r[0] == front[0] && r[1..] == front[1..] + mid + back
  {
  }

  /** A context string followed by arguments holding exactly one Error is
      logged with that Error as the carrier and, as the message, the string
      followed by the other arguments in order. */
  lemma ContextWithOneError(rt: Runtime, context: string, rest: seq<Arg>, e: Arg)
    requires ErrorsOf(rest) == [e]
    ensures FormatLogArgs(rt, ReorderedArgs([Str(context)] + rest))
         == Structured(e, Join([context] + Renderings(rt, NonErrorsOf(rest))))
  {
    var args := [Str(context)] + rest;
    var n := NonErrorsOf(rest);
    assert args[0] == Str(context) && args[1..] == rest;
    assert rest != [];
    ReorderedShape(args);
    ErrorsOfAreErrors(rest, 0);
    assert Reverse([e]) == [e] by {
      assert [e][1..] == [];
    }
    assert ReorderedArgs(args) == [e] + [Str(context)] + n;
    ErrorThenContext(rt, e, context, n);
  }

  lemma ErrorThenContext(rt: Runtime, e: Arg, context: string, n: seq<Arg>)
    requires e.Err?
    ensures FormatLogArgs(rt, [e] + [Str(context)] + n)
         == Structured(e, Join([context] + Renderings(rt, n)))
  {
    var r, tail := [e] + [Str(context)] + n, [Str(context)] + n;
    assert r[0] == e && r[1..] == tail;
    RenderingsAppend(rt, [Str(context)], n);
    assert Renderings(rt, tail) == [context] + Renderings(rt, n);
  }

  /** `error("ctx", e)` is logged as `{err: e}` with the message "ctx". */
  lemma ContextThenError(rt: Runtime, context: string, e: Arg)
    requires e.Err?
    ensures FormatLogArgs(rt, ReorderedArgs([Str(context), e])) == Structured(e, context)
  {
    assert ErrorsOf([e]) == [e];
    assert NonErrorsOf([e]) == [];
    ContextWithOneError(rt, context, [e], e);
    assert [context] + Renderings(rt, []) == [context];
  }

  /** Reordering happens only behind a leading string: `error(7, e)` keeps the
      Error in the message and logs no carrier. */
  lemma NoStringNoCarrier(rt: Runtime, x: Number, e: Arg)
    requires e.Err?
    ensures FormatLogArgs(rt, ReorderedArgs([Num(x), e])).Plain?
  {
  }

  // ---------------------------------------------------------------------
  // The override's loop, on the rest-parameter array

  /** `args.splice(i, 1)` followed by `args.unshift(err)`: the element at `i`
      goes to the front and the ones before it move up by one. */
  method MoveToFront(a: array<Arg>, i: nat)
    requires i < a.Length
    modifies a
    ensures a[..] == [old(a[i])] + old(a[..i]) + old(a[i + 1..])
  {
    var x := a[i];
    var j := i;
    while j > 0
      invariant 0 <= j <= i
      invariant forall k :: 0 <= k <= j ==> a[k] == old(a[k])
      invariant forall k :: j < k <= i ==> a[k] == old(a[k - 1])
      invariant forall k :: i < k < a.Length ==> a[k] == old(a[k])
    {
      a[j] := a[j - 1];
      j := j - 1;
    }
    a[0] := x;
    ghost var moved := [x] + old(a[..i]) + old(a[i + 1..]);
    forall k | 0 <= k < a.Length
      ensures a[k] == moved[k]
    {
      if 0 < k <= i {
        assert moved[k] == old(a[..i])[k - 1];
      } else if i < k {
        assert moved[k] == old(a[i + 1..])[k - i - 1];
      }
    }
    assert a[..] == moved;
  }

  /** The body of the override before it calls `Logger.error`. */
  method ReorderErrorArgs(a: array<Arg>)
    modifies a
    ensures a[..] == ReorderedArgs(old(a[..]))
  {
    if a.Length > 1 && a[0].Str? {
      var i := 1;
      while i < a.Length
        invariant 1 <= i <= a.Length
        invariant a[..i] == PulledForward(old(a[..])[..i])
        invariant a[i..] == old(a[..])[i..]
      {
        ghost var orig := old(a[..]);
        ghost var before := a[..];
        assert orig[..i + 1][..i] == orig[..i];
        assert a[i] == orig[i];
        if a[i].Err? {
          MoveToFront(a, i);
          assert a[..i + 1] == [before[i]] + before[..i];
        } else {
          assert a[..i + 1] == a[..i] + [a[i]];
        }
        assert a[i + 1..] == before[i + 1..];
        i := i + 1;
      }
      assert a[..] == a[..a.Length];
      assert old(a[..])[..a.Length] == old(a[..]);
    }
  }
}
