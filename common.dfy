/** Small value helpers shared by the modules of the outreach workflow. */
module Common {

  /** An optional value; `None` stands for JavaScript's `undefined`/`null`. */
  datatype Option<T> = None | Some(value: T) {

    /** The value, or `default` when there is none (JavaScript's `x || default` on strings). */
    function GetOr(default: T): T {
      match this
      case Some(v) => v
      case None => default
    }
  }

  /** JavaScript's `xs.join(sep)`. */
  function Join(xs: seq<string>, sep: string): (r: string)
    ensures |xs| == 1 ==> r == xs[0]
    ensures |xs| == 0 ==> r == ""
  {
    if |xs| == 0 then ""
    else if |xs| == 1 then xs[0]
    else xs[0] + sep + Join(xs[1..], sep)
  }

  /** The concatenation of all strings of `xs`, in order. */
  function Flatten(xs: seq<string>): string {
    if xs == [] then "" else xs[0] + Flatten(xs[1..])
  }

  /** Joining with the empty separator is plain concatenation. */
  lemma {:induction false} JoinEmptySeparator(xs: seq<string>)
    ensures Join(xs, "") == Flatten(xs)
  {
    if |xs| > 1 {
      JoinEmptySeparator(xs[1..]);
      assert xs[0] + "" == xs[0];
    } else if |xs| == 1 {
      assert xs[1..] == [];
    }
  }

  /** Flattening distributes over concatenation of the lists. */
  lemma {:induction false} FlattenAppend(xs: seq<string>, ys: seq<string>)
    ensures Flatten(xs + ys) == Flatten(xs) + Flatten(ys)
  {
    if xs == [] {
      assert xs + ys == ys;
    } else {
      assert (xs + ys)[1..] == xs[1..] + ys;
      FlattenAppend(xs[1..], ys);
    }
  }

  /** `t` occurs in `s` as a contiguous piece (JavaScript's `s.includes(t)`). */
  predicate Contains(s: string, t: string) {
    exists k :: 0 <= k <= |s| && t <= s[k..]
  }

  /** Text after an occurrence keeps it. */
  lemma ContainsAppend(s: string, v: string, t: string)
    requires Contains(s, t)
    ensures Contains(s + v, t)
  {
    var k :| 0 <= k <= |s| && t <= s[k..];
    assert (s + v)[k..] == s[k..] + v;
  }

  /** Text before an occurrence keeps it. */
  lemma ContainsPrepend(u: string, s: string, t: string)
    requires Contains(s, t)
    ensures Contains(u + s, t)
  {
    var k :| 0 <= k <= |s| && t <= s[k..];
    assert (u + s)[|u| + k..] == s[k..];
  }

  /** A string contains every piece it is built from. */
  lemma ContainsMiddle(a: string, t: string, b: string)
    ensures Contains(a + t + b, t)
  {
    var s := a + t + b;
    assert s[|a|..] == t + b;
  }
}
