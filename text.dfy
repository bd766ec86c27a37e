/** Joining renderings with single spaces (`Array.prototype.join(' ')`) and
    its inverse, splitting on spaces (`String.prototype.split(' ')`). */
module Text {

  /** `parts.join(' ')`: the empty list gives the empty string. */
  function Join(parts: seq<string>): string
  {
    if |parts| == 0 then ""
    else if |parts| == 1 then parts[0]
    else parts[0] + " " + Join(parts[1..])
  }

  /** `s.split(' ')`: always at least one piece; the empty string gives `[""]`. */
  function Split(s: string): (r: seq<string>)
    ensures |r| >= 1
  {
    if s == [] then [""]
    else if s[0] == ' ' then [""] + Split(s[1..])
    else var t := Split(s[1..]); [[s[0]] + t[0]] + t[1..]
  }

  predicate NoSpace(p: string)
  {
    ' ' !in p
  }

  /** Joining two non-empty lists puts exactly one space between their joins. */
  lemma {:induction false} JoinAppend(a: seq<string>, b: seq<string>)
    requires a != [] && b != []
    ensures Join(a + b) == Join(a) + " " + Join(b)
  {
    if |a| == 1 {
      assert (a + b)[1..] == b;
    } else {
      assert (a + b)[1..] == a[1..] + b;
      JoinAppend(a[1..], b);
    }
  }

  /** A word without spaces followed by a space splits off as one piece. */
  lemma {:induction false} SplitWord(p: string, rest: string)
    requires NoSpace(p)
    ensures Split(p + " " + rest) == [p] + Split(rest)
  {
    if p == [] {
      assert (p + " " + rest)[1..] == rest;
    } else {
      assert (p + " " + rest)[1..] == p[1..] + " " + rest;
      SplitWord(p[1..], rest);
      assert [p[0]] + p[1..] == p;
    }
  }

  /** A word without spaces splits into itself. */
  lemma {:induction false} SplitSingle(p: string)
    requires NoSpace(p)
    ensures Split(p) == [p]
  {
    if p != [] {
      SplitSingle(p[1..]);
      assert [p[0]] + p[1..] == p;
    }
  }

  /** Splitting undoes joining whenever no part contains a space, so a
      joined message keeps every rendering and its order. */
  lemma {:induction false} SplitJoin(parts: seq<string>)
    requires parts != []
    requires forall i :: 0 <= i < |parts| ==> NoSpace(parts[i])
    ensures Split(Join(parts)) == parts
  {
    if |parts| == 1 {
      SplitSingle(parts[0]);
    } else {
      SplitJoin(parts[1..]);
      SplitWord(parts[0], Join(parts[1..]));
      assert [parts[0]] + parts[1..] == parts;
    }
  }
}
