/**
 * The "Thoughts" block of the chain of thought (prompt_message.py, lines
 * 238-254): a fixed "None" pair when no object is marked, otherwise one
 * "Notable Objects" / "Potential Effects" line pair per marked object.
 */
module Thoughts {
  import opened Wrappers
  import opened Strings
  import opened Scene
  import opened Format

  const ThoughtsHeader := "Thoughts:\n"
  const NoneNotable := " - Notable Objects from Perception: None\n"
  const NoneEffects := "   Potential Effects from Prediction: None\n"
  const NotablePrefix := " - Notable Objects from Perception: "
  const EffectsPrefix := "   Potential Effects from Prediction: within the safe zone of the ego-vehicle at the "
  const EffectsSuffix := "-second timestep\n"

  /** Decimal digits of a natural number. */
  function NatText(n: nat): string
  {
    if n < 10 then ["0123456789"[n]] else NatText(n / 10) + ["0123456789"[n % 10]]
  }

  /** Python's text for the float `t * 0.5`, the time of step t in seconds. */
  function TimeText(t: nat): string
  {
    NatText(t / 2) + if t % 2 == 0 then ".0" else ".5"
  }

  /** The name as displayed: only its last dot-separated part when `short`. */
  function DisplayName(name: string, short: bool): string
  {
    if short then LastSegment(name, '.') else name
  }

  /** The two lines for an object first marked at step t. */
  function NotablePair(a: Agent, t: nat, fmt: real -> string, short: bool): string
  {
    NotablePrefix + DisplayName(a.name, short) + " at " + PairText(Position(a), fmt) + "\n"
      + EffectsPrefix + TimeText(t) + EffectsSuffix
  }

  predicate NoFlags(hits: seq<Option<nat>>)
  {
    forall i | 0 <= i < |hits| :: hits[i].None?
  }

  predicate InHorizon(hits: seq<Option<nat>>)
  {
    forall i | 0 <= i < |hits| :: hits[i].Some? ==> hits[i].value < Horizon
  }

  /** What object i contributes: its pair when it is marked, nothing otherwise. */
  function ObjectLines(agents: seq<Agent>, hits: seq<Option<nat>>, i: nat, fmt: real -> string, short: bool): string
    requires i < |agents| == |hits|
  {
    if hits[i].Some? then NotablePair(agents[i], hits[i].value, fmt, short) else ""
  }

  /** The line pairs of the marked objects among the first n, in object order. */
  function NotableLines(agents: seq<Agent>, hits: seq<Option<nat>>, n: nat, fmt: real -> string, short: bool): string
    requires n <= |agents| == |hits|
  {
    if n == 0 then ""
    else NotableLines(agents, hits, n - 1, fmt, short) + ObjectLines(agents, hits, n - 1, fmt, short)
  }

  /** The whole block, given each object's marked step. */
  function ThoughtsText(agents: seq<Agent>, hits: seq<Option<nat>>, fmt: real -> string, short: bool): string
    requires |agents| == |hits|
  {
    ThoughtsHeader
      + if NoFlags(hits) then NoneNotable + NoneEffects
        else NotableLines(agents, hits, |agents|, fmt, short)
  }

  /** The indices of the marked objects among the first n, in increasing order. */
  function Flagged(hits: seq<Option<nat>>, n: nat): (r: seq<nat>)
    requires n <= |hits|
    ensures forall j | 0 <= j < |r| :: r[j] < n && hits[r[j]].Some?
  {
    if n == 0 then [] else Flagged(hits, n - 1) + (if hits[n - 1].Some? then [n - 1] else [])
  }

  /** Every marked object among the first n is listed, and the list increases strictly. */
  lemma {:induction false} FlaggedCompleteSorted(hits: seq<Option<nat>>, n: nat)
    requires n <= |hits|
    ensures forall i: nat | i < n && hits[i].Some? :: i in Flagged(hits, n)
    ensures forall j, k | 0 <= j < k < |Flagged(hits, n)| :: Flagged(hits, n)[j] < Flagged(hits, n)[k]
  {
    if n > 0 {
      FlaggedCompleteSorted(hits, n - 1);
      var prev := Flagged(hits, n - 1);
      assert forall j | 0 <= j < |prev| :: prev[j] in prev;
    }
  }

  /** The pieces, one after the other. */
  function Concat(pieces: seq<string>): string
  {
    if |pieces| == 0 then "" else Concat(pieces[..|pieces| - 1]) + pieces[|pieces| - 1]
  }

  /** One more piece goes at the end. */
  lemma ConcatSnoc(pieces: seq<string>, piece: string)
    ensures Concat(pieces + [piece]) == Concat(pieces) + piece
  {
    assert (pieces + [piece])[..|pieces|] == pieces;
  }

  /** A non-empty prefix is the shorter prefix and its last element. */
  lemma TakeSnoc<T>(s: seq<T>, n: nat)
    requires 0 < n <= |s|
    ensures s[..n] == s[..n - 1] + [s[n - 1]]
  {
  }

  /** The pieces at the listed positions, in list order (a position past the end gives nothing). */
  function Picked(pieces: seq<string>, idx: seq<nat>): (r: seq<string>)
    ensures |r| == |idx|
    ensures forall k | 0 <= k < |idx| :: r[k] == if idx[k] < |pieces| then pieces[idx[k]] else ""
  {
    seq(|idx|, k requires 0 <= k < |idx| => if idx[k] < |pieces| then pieces[idx[k]] else "")
  }

  /**
   * Dropping the blank pieces of unmarked positions does not change the
   * concatenation: the first n pieces concatenate to the marked ones among them.
   */
  lemma {:induction false} ConcatSkipsBlanks(pieces: seq<string>, hits: seq<Option<nat>>, n: nat)
    requires n <= |pieces| == |hits|
    requires forall i | 0 <= i < |hits| && hits[i].None? :: pieces[i] == ""
    ensures Concat(pieces[..n]) == Concat(Picked(pieces, Flagged(hits, n)))
  {
    if n > 0 {
      ConcatSkipsBlanks(pieces, hits, n - 1);
      var prev := Flagged(hits, n - 1);
      TakeSnoc(pieces, n);
      ConcatSnoc(pieces[..n - 1], pieces[n - 1]);
      if hits[n - 1].Some? {
        assert Flagged(hits, n) == prev + [n - 1];
        assert Picked(pieces, prev + [n - 1]) == Picked(pieces, prev) + [pieces[n - 1]];
        ConcatSnoc(Picked(pieces, prev), pieces[n - 1]);
      } else {
        assert Flagged(hits, n) == prev;
        assert Concat(pieces[..n - 1]) + "" == Concat(pieces[..n - 1]);
      }
    }
  }

  /** Each object's lines, by object. */
  function ObjectPieces(agents: seq<Agent>, hits: seq<Option<nat>>, fmt: real -> string, short: bool): (r: seq<string>)
    requires |agents| == |hits|
    ensures |r| == |agents|
    ensures forall i | 0 <= i < |agents| :: r[i] == ObjectLines(agents, hits, i, fmt, short)
  {
    seq(|agents|, i requires 0 <= i < |agents| => ObjectLines(agents, hits, i, fmt, short))
  }

  /** The marked-object lines of the first n objects are their pieces, concatenated. */
  lemma {:induction false} NotableLinesConcat(
    agents: seq<Agent>, hits: seq<Option<nat>>, n: nat, fmt: real -> string, short: bool)
    requires n <= |agents| == |hits|
    ensures NotableLines(agents, hits, n, fmt, short) == Concat(ObjectPieces(agents, hits, fmt, short)[..n])
  {
    if n > 0 {
      NotableLinesConcat(agents, hits, n - 1, fmt, short);
      var pieces := ObjectPieces(agents, hits, fmt, short);
      var last := pieces[n - 1];
      TakeSnoc(pieces, n);
      ConcatSnoc(pieces[..n - 1], last);
      assert last == ObjectLines(agents, hits, n - 1, fmt, short);
    }
  }

  /**
   * The marked-object lines are exactly the line pairs of the marked objects,
   * each with its own marked step, taken in increasing object order.
   */
  lemma NotableLinesArePairsOfFlagged(
    agents: seq<Agent>, hits: seq<Option<nat>>, n: nat, fmt: real -> string, short: bool)
    requires n <= |agents| == |hits|
    ensures var marked := Flagged(hits, n);
      var pairs := Picked(ObjectPieces(agents, hits, fmt, short), marked);
      && NotableLines(agents, hits, n, fmt, short) == Concat(pairs)
      && forall k | 0 <= k < |marked| :: pairs[k] == NotablePair(agents[marked[k]], hits[marked[k]].value, fmt, short)
  {
    var pieces := ObjectPieces(agents, hits, fmt, short);
    NotableLinesConcat(agents, hits, n, fmt, short);
    ConcatSkipsBlanks(pieces, hits, n);
    assert pieces[..|agents|] == pieces;
  }

  /** With some marked object among the first n, the lines are longer than one pair's minimum. */
  lemma {:induction false} NotableLinesLong(
    agents: seq<Agent>, hits: seq<Option<nat>>, n: nat, fmt: real -> string, short: bool)
    requires n <= |agents| == |hits|
    requires exists i | 0 <= i < n :: hits[i].Some?
    ensures |NotableLines(agents, hits, n, fmt, short)| > |NoneNotable + NoneEffects|
  {
    if hits[n - 1].None? {
      NotableLinesLong(agents, hits, n - 1, fmt, short);
    }
  }

  /** The block is the fixed "None" pair exactly when no object is marked. */
  lemma ThoughtsNoneIffNoFlags(agents: seq<Agent>, hits: seq<Option<nat>>, fmt: real -> string, short: bool)
    requires |agents| == |hits|
    ensures ThoughtsText(agents, hits, fmt, short) == ThoughtsHeader + NoneNotable + NoneEffects
        <==> NoFlags(hits)
  {
    if !NoFlags(hits) {
      NotableLinesLong(agents, hits, |agents|, fmt, short);
    }
  }

  /** The pair of object i if it was marked before step t. */
  function LinesBefore(agents: seq<Agent>, hits: seq<Option<nat>>, i: nat, t: nat, fmt: real -> string, short: bool): string
    requires i < |agents| == |hits|
  {
    if hits[i].Some? && hits[i].value < t then NotablePair(agents[i], hits[i].value, fmt, short) else ""
  }

  /** The inner rendering loop of lines 245-254: the lines written for object i. */
  method RenderObject(
    agents: seq<Agent>, flags: array2<bool>, ghost hits: seq<Option<nat>>, i: nat,
    fmt: real -> string, short: bool) returns (lines: string)
    requires i < |agents| == |hits| && InHorizon(hits)
    requires flags.Length0 == |agents| && flags.Length1 == Horizon
    requires forall t | 0 <= t < Horizon :: flags[i, t] <==> hits[i] == Some(t)
    ensures lines == ObjectLines(agents, hits, i, fmt, short)
  {
    lines := "";
    for t := 0 to Horizon
      invariant lines == LinesBefore(agents, hits, i, t, fmt, short)
    {
      if flags[i, t] {
        assert lines == "";
        lines := lines + NotablePair(agents[i], t, fmt, short);
      }
    }
  }

  /** The matrix holds no mark exactly when no object is marked. */
  lemma EmptyMatrixIffNoFlags(flags: array2<bool>, hits: seq<Option<nat>>)
    requires flags.Length0 == |hits| && flags.Length1 == Horizon && InHorizon(hits)
    requires forall i, t | 0 <= i < |hits| && 0 <= t < Horizon :: flags[i, t] <==> hits[i] == Some(t)
    ensures NoFlags(hits) <==> forall i, t | 0 <= i < flags.Length0 && 0 <= t < flags.Length1 :: !flags[i, t]
  {
    if !NoFlags(hits) {
      var i :| 0 <= i < |hits| && hits[i].Some?;
      assert flags[i, hits[i].value];
    }
  }

  /** The object loop of lines 245-254: the pairs of all marked objects, in object order. */
  method RenderNotable(
    agents: seq<Agent>, flags: array2<bool>, ghost hits: seq<Option<nat>>,
    fmt: real -> string, short: bool) returns (lines: string)
    requires |agents| == |hits| && InHorizon(hits)
    requires flags.Length0 == |agents| && flags.Length1 == Horizon
    requires forall i, t | 0 <= i < |agents| && 0 <= t < Horizon :: flags[i, t] <==> hits[i] == Some(t)
    ensures lines == NotableLines(agents, hits, |agents|, fmt, short)
  {
    lines := "";
    for i := 0 to |agents|
      invariant lines == NotableLines(agents, hits, i, fmt, short)
    {
      var objectLines := RenderObject(agents, flags, hits, i, fmt, short);
      lines := lines + objectLines;
    }
  }

  /**
   * The rendering loop (lines 238-254) over the mark matrix: given marks that
   * record each object's marked step, it writes the block above.
   */
  method RenderThoughts(
    agents: seq<Agent>, flags: array2<bool>, ghost hits: seq<Option<nat>>,
    fmt: real -> string, short: bool) returns (text: string)
    requires |agents| == |hits| && InHorizon(hits)
    requires flags.Length0 == |agents| && flags.Length1 == Horizon
    requires forall i, t | 0 <= i < |agents| && 0 <= t < Horizon :: flags[i, t] <==> hits[i] == Some(t)
    ensures text == ThoughtsText(agents, hits, fmt, short)
  {
    EmptyMatrixIffNoFlags(flags, hits);
    text := ThoughtsHeader;
    if forall i, t | 0 <= i < flags.Length0 && 0 <= t < flags.Length1 :: !flags[i, t] {
      text := text + NoneNotable;
      text := text + NoneEffects;
    } else {
      var lines := RenderNotable(agents, flags, hits, fmt, short);
      text := text + lines;
    }
  }
}
