/** Option and Result, as used for the NULL columns of a row and for the usage errors. */
module Wrappers {
  datatype Option<T> = None | Some(value: T)

  datatype Result<T, E> = Ok(value: T) | Err(error: E)
}

/** Sequence helpers shared by the formatters and the query builder: prefix and
    suffix tests, and the first-occurrence search that both strlen and the
    name tables perform. */
module Text {

  predicate StartsWith(s: string, p: string) {
    |p| <= |s| && s[..|p|] == p
  }

  predicate EndsWith(s: string, p: string) {
    |p| <= |s| && s[|s| - |p|..] == p
  }

  /** The index of the first `x` in `xs`, or `|xs|` when there is none. */
  function IndexOf<T(==)>(xs: seq<T>, x: T): (i: nat)
    ensures i <= |xs|
    ensures i < |xs| ==> xs[i] == x
    ensures forall j :: 0 <= j < i ==> xs[j] != x
  {
    if xs == [] then 0
    else if xs[0] == x then 0
    else 1 + IndexOf(xs[1..], x)
  }

  /** The search runs off the end exactly when there is nothing to find. */
  lemma IndexOfAbsent<T>(xs: seq<T>, x: T)
    ensures IndexOf(xs, x) == |xs| <==> x !in xs
  {
    var i := IndexOf(xs, x);
    if i < |xs| {
      assert xs[i] == x;
    }
  }

  /** Text appended after a prefix keeps the prefix. */
  lemma Prefixed(p: string, b: string)
    ensures StartsWith(p + b, p)
  {
    assert (p + b)[..|p|] == p;
  }

  /** Text appended after a prefix ends the result. */
  lemma Suffixed(p: string, b: string)
    ensures EndsWith(p + b, b)
  {
    assert (p + b)[|p|..] == b;
  }

  /** Text put in front of `c` does not change whether it ends with `x`. */
  lemma SuffixKept(p: string, c: string, x: string)
    requires |x| <= |c|
    ensures EndsWith(p + c, x) <==> EndsWith(c, x)
  {
    var r := p + c;
    assert r[|r| - |x|..] == c[|c| - |x|..];
  }

  /** Appending text after a prefix keeps the prefix, and keeps the last `k`
      characters of the text at the end. */
  lemma Joined(p: string, c: string, k: nat)
    requires k <= |c|
    ensures StartsWith(p + c, p)
    ensures var r := p + c; r[|r| - k..] == c[|c| - k..] && r[..|r| - k] == p + c[..|c| - k]
  {
    var r := p + c;
    assert r[..|p|] == p;
    assert r[|r| - k..] == c[|c| - k..];
    assert r[..|r| - k] == p + c[..|c| - k];
  }

  /** A prefix of a prefix is a prefix. */
  lemma PrefixTrans(a: string, b: string, c: string)
    requires StartsWith(a, b) && StartsWith(b, c)
    ensures StartsWith(a, c)
  {
    assert a[..|c|] == a[..|b|][..|c|];
  }
}
