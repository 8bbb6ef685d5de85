/** The Python string operations the prompt builder and the decoders rely on. */
module Strings {

  lemma AppendAssociative(a: string, b: string, c: string)
    ensures (a + b) + c == a + (b + c)
  {
  }

  /**
   * Python's `s.split(sep)[-1]`: the part of `s` after its last `sep`, or the
   * whole of `s` when it holds none.
   */
  function LastSegment(s: string, sep: char): string
  {
    if s == [] then ""
    else if s[|s| - 1] == sep then ""
    else LastSegment(s[..|s| - 1], sep) + [s[|s| - 1]]
  }

  /** The last segment is the longest suffix of `s` that is free of `sep`. */
  lemma {:induction false} LastSegmentIsSuffix(s: string, sep: char)
    ensures var r := LastSegment(s, sep);
      && sep !in r
      && |r| <= |s| && r == s[|s| - |r|..]
      && (|r| < |s| ==> s[|s| - |r| - 1] == sep)
  {
    if s != [] && s[|s| - 1] != sep {
      var init := s[..|s| - 1];
      LastSegmentIsSuffix(init, sep);
      var r0 := LastSegment(init, sep);
      assert init[|init| - |r0|..] + [s[|s| - 1]] == s[|s| - |r0| - 1..];
      if |r0| < |init| {
        assert init[|init| - |r0| - 1] == s[|s| - |r0| - 2];
      }
    }
  }

  /** Whatever precedes a final separator, the last segment is the text after it. */
  lemma {:induction false} LastSegmentAfter(a: string, sep: char, b: string)
    requires sep !in b
    ensures LastSegment(a + [sep] + b, sep) == b
  {
    var s := a + [sep] + b;
    if b != [] {
      assert s[..|s| - 1] == a + [sep] + b[..|b| - 1];
      LastSegmentAfter(a, sep, b[..|b| - 1]);
      assert b == b[..|b| - 1] + [b[|b| - 1]];
    }
  }

  /** Text before a part that holds the separator never reaches the last segment. */
  lemma {:induction false} LastSegmentExtend(a: string, b: string, sep: char)
    requires sep in b
    ensures LastSegment(a + b, sep) == LastSegment(b, sep)
  {
    var s := a + b;
    if b[|b| - 1] != sep {
      var init := b[..|b| - 1];
      assert b == init + [b[|b| - 1]];
      assert sep in init;
      assert s[..|s| - 1] == a + init;
      LastSegmentExtend(a, init, sep);
    }
  }

  /** Text free of the separator is its own last segment. */
  lemma {:induction false} LastSegmentWhole(b: string, sep: char)
    requires sep !in b
    ensures LastSegment(b, sep) == b
  {
    if b != [] {
      LastSegmentWhole(b[..|b| - 1], sep);
    }
  }

  /** `str.upper()` on one character; every text it is applied to here is ASCII. */
  function UpperChar(c: char): char
  {
    if 'a' <= c <= 'z' then (c as int - 32) as char else c
  }

  /** No lower-case ASCII letter. */
  predicate Uppercased(s: string)
  {
    forall k | 0 <= k < |s| :: !('a' <= s[k] <= 'z')
  }

  /** `str.upper()`: the same length, no lower-case letter left. */
  function Upper(s: string): (r: string)
    ensures |r| == |s| && Uppercased(r)
  {
    if s == [] then "" else [UpperChar(s[0])] + Upper(s[1..])
  }

  /** Upper-casing a concatenation upper-cases each part. */
  lemma {:induction false} UpperAppend(a: string, b: string)
    ensures Upper(a + b) == Upper(a) + Upper(b)
  {
    if a == [] {
      assert a + b == b;
    } else {
      assert (a + b)[1..] == a[1..] + b;
      UpperAppend(a[1..], b);
    }
  }

  /** Text that is already upper case is left as it is, so upper-casing twice changes nothing more. */
  lemma {:induction false} UpperKeepsUppercased(s: string)
    requires Uppercased(s)
    ensures Upper(s) == s
  {
    if s != [] {
      UpperKeepsUppercased(s[1..]);
    }
  }
}
