/**
 * The packing script pack_incontext_dict.py (lines 7-23): every logged
 * model answer whose last line reads as a 6 x 2 array is stored under its
 * sample token; every other line is skipped.
 */
module Pack {
  import opened Wrappers
  import opened Strings
  import opened Scene
  import opened Format
  import opened Decode
  import opened Assistant

  /**
   * One logged line, already read as JSON: the sample token and the `GPT`
   * field (None when it is missing or not text, which the script's `try`
   * turns into a skip).
   */
  datatype Transcript = Transcript(token: string, gpt: Option<string>)

  /** What the script keeps of one line: its strictly decoded array, if any. */
  function Accepted(line: Transcript, parse: string -> Option<Literal>): (r: Option<Literal>)
    ensures r.Some? <==> line.gpt.Some? && StrictDecode(line.gpt.value, parse).Some?
  {
    match line.gpt
    case None => None
    case Some(text) => StrictDecode(text, parse)
  }

  /** One line applied to the dictionary by a reader `accept`: stored under its token, or skipped. */
  function Store(d: map<string, Literal>, line: Transcript, accept: Transcript -> Option<Literal>)
    : (r: map<string, Literal>)
    ensures accept(line).None? ==> r == d
    ensures accept(line).Some? ==> r.Keys == d.Keys + {line.token}
    ensures accept(line).Some? ==> r[line.token] == accept(line).value
  {
    match accept(line)
    case None => d
    case Some(v) => d[line.token := v]
  }

  /** Storing a line changes no other token's entry. */
  lemma StoreKeepsOthers(d: map<string, Literal>, line: Transcript, accept: Transcript -> Option<Literal>, k: string)
    requires k in d && k != line.token
    ensures k in Store(d, line, accept) && Store(d, line, accept)[k] == d[k]
  {
  }

  /** The dictionary after the given lines, read in order from an empty one. */
  function Packed(lines: seq<Transcript>, accept: Transcript -> Option<Literal>): map<string, Literal>
  {
    if lines == [] then map[]
    else Store(Packed(lines[..|lines| - 1], accept), lines[|lines| - 1], accept)
  }

  /** An accepted line's token is stored, whatever follows it. */
  lemma {:induction false} PackedHasAccepted(lines: seq<Transcript>, accept: Transcript -> Option<Literal>, i: nat)
    requires i < |lines| && accept(lines[i]).Some?
    ensures lines[i].token in Packed(lines, accept)
  {
    var init := lines[..|lines| - 1];
    if i < |init| {
      assert init[i] == lines[i];
      PackedHasAccepted(init, accept, i);
      if lines[i].token != lines[|lines| - 1].token {
        StoreKeepsOthers(Packed(init, accept), lines[|lines| - 1], accept, lines[i].token);
      }
    }
  }

  /**
   * A stored token comes from an accepted line with that token, and its
   * value is the array of the last such line: a later accepted line
   * overwrites an earlier one, a skipped line does not.
   */
  lemma {:induction false} PackedLastWins(lines: seq<Transcript>, accept: Transcript -> Option<Literal>, token: string)
    requires token in Packed(lines, accept)
    ensures exists i | 0 <= i < |lines| ::
      && lines[i].token == token
      && accept(lines[i]) == Some(Packed(lines, accept)[token])
      && forall j | i < j < |lines| && lines[j].token == token :: accept(lines[j]).None?
  {
    var init := lines[..|lines| - 1];
    var last := lines[|lines| - 1];
    var d := Packed(init, accept);
    if last.token == token && accept(last).Some? {
      assert accept(lines[|lines| - 1]) == Some(Packed(lines, accept)[token]);
    } else {
      assert token in d;
      if last.token != token {
        StoreKeepsOthers(d, last, accept, token);
      }
      assert Packed(lines, accept)[token] == d[token];
      PackedLastWins(init, accept, token);
      var i :| 0 <= i < |init| && init[i].token == token
        && accept(init[i]) == Some(d[token])
        && forall j | i < j < |init| && init[j].token == token :: accept(init[j]).None?;
      assert lines[i] == init[i];
      forall j | i < j < |lines| && lines[j].token == token
        ensures accept(lines[j]).None?
      {
        if j < |init| {
          assert lines[j] == init[j];
        }
      }
    }
  }


  /** The packer's reader. */
  function StrictReader(parse: string -> Option<Literal>): Transcript -> Option<Literal>
  {
    line => Accepted(line, parse)
  }

  /** The script's loop: never aborts, skips on any failure, stores otherwise. */
  method PackTranscripts(lines: seq<Transcript>, parse: string -> Option<Literal>)
    returns (dataDict: map<string, Literal>)
    ensures dataDict == Packed(lines, StrictReader(parse))
  {
    dataDict := map[];
    for i := 0 to |lines|
      invariant dataDict == Packed(lines[..i], StrictReader(parse))
    {
      assert lines[..i + 1][..i] == lines[..i];
      var line := lines[i];
      var token := line.token;
      if line.gpt.None? {
        continue;
      }
      var traj := LastSegment(line.gpt.value, '\n');
      var literal := parse(traj);
      if literal.None? {
        continue;
      }
      var shape := Shape(literal.value);
      if shape.None? {
        continue;
      }
      if |shape.value| == 0 || shape.value[0] != 6 || |shape.value| < 2 || shape.value[1] != 2 {
        continue;
      }
      dataDict := dataDict[token := literal.value];
    }
    assert lines[..|lines|] == lines;
  }

  /** Every stored array has the accepted shape. */
  lemma PackedAreSixByTwo(lines: seq<Transcript>, parse: string -> Option<Literal>, token: string)
    requires token in Packed(lines, StrictReader(parse))
    ensures Shape(Packed(lines, StrictReader(parse))[token]).Some?
    ensures SixByTwo(Shape(Packed(lines, StrictReader(parse))[token]).value)
  {
    PackedLastWins(lines, StrictReader(parse), token);
  }

  /**
   * A ground-truth assistant message always passes the strict reader, when
   * the formatter writes no newline and the evaluator reads printed lists of
   * pairs back as lists of pairs.
   */
  lemma GroundTruthPassesStrict(
    s: Sample, fmt: real -> string, norm: Point -> real, trajOnly: bool, parse: string -> Option<Literal>)
    requires ValidSample(s) && FmtOneLine(fmt) && ReadsPairLists(parse, fmt)
    requires AssistantMessageOf(s, fmt, norm, trajOnly).Success?
    ensures StrictDecode(AssistantMessageOf(s, fmt, norm, trajOnly).value, parse).Some?
  {
    var msg := AssistantMessageOf(s, fmt, norm, trajOnly).value;
    var ps := s.ego.futTrajs[1..];
    AssistantEndsWithTrajectory(s, fmt, norm, trajOnly);
    TrajectoryTextIsList(s.ego, fmt);
    assert LastLine(msg) == PairList(ps, fmt);
    StrictReadsSixPoints(msg, ps, parse, fmt);
  }
}
