/**
 * Reading a trajectory back from model output: the last line of the text is
 * evaluated as a Python literal and turned into a numpy array. The literal
 * evaluator is the parameter `parse` (None when it raises); the array's
 * shape is computed here.
 */
module Decode {
  import opened Wrappers
  import opened Strings
  import opened Scene
  import opened Format

  /**
   * A Python literal as the trajectory readers see it: an atom (a number,
   * or any other non-sequence value), or a list or tuple of literals.
   */
  datatype Literal = Scalar(value: real) | Items(elems: seq<Literal>)

  /**
   * The shape numpy gives the literal: an atom has no dimension, a non-empty
   * list whose items share one shape adds a leading dimension, and items
   * of differing shapes are ragged, which `np.array` rejects (None).
   */
  function Shape(v: Literal): (r: Option<seq<nat>>)
    ensures v.Scalar? ==> r == Some([])
    ensures r.Some? && v.Items? ==> |r.value| >= 1 && r.value[0] == |v.elems|
  {
    match v
    case Scalar(_) => Some([])
    case Items(es) =>
      if |es| == 0 then Some([0])
      else
        var first := Shape(es[0]);
        if first.Some? && forall k | 0 <= k < |es| :: Shape(es[k]) == first
        then Some([|es|] + first.value)
        else None
  }

  /** The line the readers take: the text after the last newline (`text.split("\n")[-1]`). */
  function LastLine(text: string): (r: string)
    ensures OneLine(r)
  {
    LastSegmentIsSuffix(text, '\n');
    LastSegment(text, '\n')
  }

  /**
   * The lenient reader of the driver script (incontext_learning.py, lines
   * 95-99): any literal that makes an array.
   */
  function LooseDecode(text: string, parse: string -> Option<Literal>): (r: Option<Literal>)
    ensures r.Some? <==> parse(LastLine(text)).Some? && Shape(parse(LastLine(text)).value).Some?
    ensures r.Some? ==> r == parse(LastLine(text))
  {
    match parse(LastLine(text))
    case None => None
    case Some(v) => if Shape(v).Some? then Some(v) else None
  }

  /** A shape the packer accepts: six rows of two in its first two dimensions. */
  predicate SixByTwo(shape: seq<nat>)
  {
    |shape| >= 2 && shape[0] == 6 && shape[1] == 2
  }

  /**
   * The strict reader of pack_incontext_dict.py, lines 13-20: an array as
   * the lenient reader makes it, which must have at least two dimensions,
   * the first two being 6 and 2.
   */
  function StrictDecode(text: string, parse: string -> Option<Literal>): (r: Option<Literal>)
    ensures r.Some? <==> LooseDecode(text, parse).Some? && SixByTwo(Shape(LooseDecode(text, parse).value).value)
    ensures r.Some? ==> r == LooseDecode(text, parse)
  {
    match LooseDecode(text, parse)
    case None => None
    case Some(v) =>
      var shape := Shape(v).value;
      if |shape| == 0 || shape[0] != 6 || |shape| < 2 || shape[1] != 2 then None else Some(v)
  }

  /** What the strict reader keeps, the lenient one keeps too, unchanged. */
  lemma StrictImpliesLoose(text: string, parse: string -> Option<Literal>)
    ensures StrictDecode(text, parse).Some? ==> LooseDecode(text, parse) == StrictDecode(text, parse)
  {
  }

  /** Only the last line matters: text before a final newline never changes either reader. */
  lemma DecodeReadsLastLineOnly(prefix: string, line: string, parse: string -> Option<Literal>)
    requires OneLine(line)
    ensures StrictDecode(prefix + "\n" + line, parse) == StrictDecode(line, parse)
    ensures LooseDecode(prefix + "\n" + line, parse) == LooseDecode(line, parse)
  {
    LastSegmentAfter(prefix, '\n', line);
    LastSegmentWhole(line, '\n');
  }

  /** A pair of atoms, as `(x, y)` evaluates. */
  predicate IsPair(v: Literal)
  {
    v.Items? && |v.elems| == 2 && v.elems[0].Scalar? && v.elems[1].Scalar?
  }

  /** A list of n pairs of atoms. */
  predicate IsPairList(v: Literal, n: nat)
  {
    v.Items? && |v.elems| == n && forall k | 0 <= k < n :: IsPair(v.elems[k])
  }

  /** A non-empty list of pairs is an n-by-2 array. */
  lemma PairListShape(v: Literal, n: nat)
    requires n > 0 && IsPairList(v, n)
    ensures Shape(v) == Some([n, 2])
  {
    forall k | 0 <= k < n ensures Shape(v.elems[k]) == Some([2]) {
      var pair := v.elems[k];
      assert Shape(pair.elems[0]) == Some([]) && Shape(pair.elems[1]) == Some([]);
      assert [2] + [] == [2];
    }
    assert [n] + [2] == [n, 2];
  }

  /**
   * The formatter and the literal evaluator agree on lists of pairs: the
   * evaluator reads a printed list of n points back as a list of n pairs.
   */
  ghost predicate ReadsPairLists(parse: string -> Option<Literal>, fmt: real -> string)
  {
    forall ps: seq<Point> ::
      parse(PairList(ps, fmt)).Some? && IsPairList(parse(PairList(ps, fmt)).value, |ps|)
  }

  /**
   * A text whose last line is a printed list of six points passes the strict
   * reader, when the evaluator reads printed lists of pairs back.
   */
  lemma StrictReadsSixPoints(text: string, ps: seq<Point>, parse: string -> Option<Literal>, fmt: real -> string)
    requires ReadsPairLists(parse, fmt) && |ps| == 6 && LastLine(text) == PairList(ps, fmt)
    ensures StrictDecode(text, parse).Some?
  {
    var v := parse(PairList(ps, fmt)).value;
    PairListShape(v, 6);
  }
}
