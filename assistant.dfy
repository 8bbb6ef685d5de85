/**
 * The supervision target of one sample (prompt_message.py, lines 161-262):
 * the chain of thought (thoughts block and meta action) followed by the
 * six future waypoints, and the in-context example that pairs it with the
 * input description (lines 403-411).
 */
module Assistant {
  import opened Wrappers
  import opened Strings
  import opened Scene
  import opened Format
  import opened Relevance
  import opened EgoEstimate
  import opened CollisionFlags
  import opened Thoughts
  import opened MetaAction
  import opened UserMessage

  const MetaHeader := "Meta Action: "
  const TrajectoryHeader := "Trajectory:\n"
  const ExampleHeader := "\nFor example:\n"
  const InputHeader := "Input:\n"
  const OutputHeader := "You should generate the following content:\n"

  /**
   * The waypoint line of line 183: future positions 1 to 6 as a list of
   * pairs, written out pair by pair.
   */
  function TrajectoryText(e: Ego, fmt: real -> string): string
    requires ValidEgo(e)
  {
    var p := e.futTrajs;
    "[" + PairText(p[1], fmt) + ", " + PairText(p[2], fmt) + ", " + PairText(p[3], fmt)
      + ", " + PairText(p[4], fmt) + ", " + PairText(p[5], fmt) + ", " + PairText(p[6], fmt) + "]"
  }

  /** One more item extends a join by the separator and the item. */
  lemma JoinStep(items: seq<string>, sep: string, k: nat)
    requires 1 <= k < |items|
    ensures Join(items[..k + 1], sep) == Join(items[..k], sep) + sep + items[k]
  {
    assert items[..k + 1][..k] == items[..k];
  }

  /** The waypoint line is the list of the six future positions after the current one. */
  lemma TrajectoryTextIsList(e: Ego, fmt: real -> string)
    requires ValidEgo(e)
    ensures TrajectoryText(e, fmt) == PairList(e.futTrajs[1..], fmt)
  {
    var p := e.futTrajs;
    var items := PairTexts(p[1..], fmt);
    var sep := ", ";
    JoinStep(items, sep, 1);
    JoinStep(items, sep, 2);
    JoinStep(items, sep, 3);
    JoinStep(items, sep, 4);
    JoinStep(items, sep, 5);
    assert items[..6] == items;
    var body := PairText(p[1], fmt) + sep + PairText(p[2], fmt) + sep + PairText(p[3], fmt)
      + sep + PairText(p[4], fmt) + sep + PairText(p[5], fmt) + sep + PairText(p[6], fmt);
    assert Join(items, sep) == body;
    assert TrajectoryText(e, fmt) == "[" + body + "]";
  }

  /** With a one-line formatter the waypoint line is one line. */
  lemma TrajectoryOneLine(e: Ego, fmt: real -> string)
    requires ValidEgo(e) && FmtOneLine(fmt)
    ensures OneLine(TrajectoryText(e, fmt))
  {
    TrajectoryTextIsList(e, fmt);
    PairListOneLine(e.futTrajs[1..], fmt);
  }

  /**
   * The meta action of a recorded ego state: the current and final speeds
   * are the lengths (under `norm`) of the last history and future steps.
   */
  function EgoMetaAction(e: Ego, norm: Point -> real): (r: Result<string, Fault>)
    requires ValidEgo(e)
    ensures r.Failure? <==>
      SpeedClass(norm(e.hisDiff[|e.hisDiff| - 1]), norm(e.futDiff[|e.futDiff| - 1])) != Stop
      && Lateral(e.futTrajs).Failure?
  {
    MetaActionText(norm(e.hisDiff[|e.hisDiff| - 1]), norm(e.futDiff[|e.futDiff| - 1]), e.futTrajs)
  }

  /** Each object's marked step lies within the horizon. */
  lemma FirstHitsInHorizon(agents: seq<Agent>, ego: seq<Point>, range: real)
    requires ValidAgents(agents) && |ego| == Horizon
    ensures InHorizon(FirstHits(agents, ego, range))
  {
  }

  /** The marks of the scan of a sample against its estimated path. */
  function SampleHits(s: Sample, range: real): (r: seq<Option<nat>>)
    requires ValidSample(s)
    ensures |r| == |s.agents| && InHorizon(r)
  {
    FirstHitsInHorizon(s.agents, EgoPath(s.ego), range);
    FirstHits(s.agents, EgoPath(s.ego), range)
  }

  /** `generate_chain_of_thoughts` (lines 187-262): the thoughts block, then the meta action. */
  function ChainOfThoughtsOf(s: Sample, range: real, fmt: real -> string, short: bool, norm: Point -> real)
    : (r: Result<string, Fault>)
    requires ValidSample(s)
    ensures r.Failure? <==> EgoMetaAction(s.ego, norm).Failure?
  {
    match EgoMetaAction(s.ego, norm)
    case Failure(e) => Failure(e)
    case Success(meta) =>
      Success(ThoughtsText(s.agents, SampleHits(s, range), fmt, short) + (MetaHeader + meta))
  }

  /**
   * The thoughts block reports no notable object exactly when every object
   * is filtered out or meets no examined hazard along its path.
   */
  lemma ThoughtsNoneIffSafe(s: Sample, range: real, fmt: real -> string, short: bool)
    requires ValidSample(s)
    ensures ThoughtsText(s.agents, SampleHits(s, range), fmt, short)
            == ThoughtsHeader + NoneNotable + NoneEffects
        <==> forall i | 0 <= i < |s.agents| ::
               || SkippedInReasoning(s.agents[i], range)
               || forall u | 0 <= u < Horizon :: !Hazard(s.agents[i], EgoPath(s.ego), u)
  {
    var hits := SampleHits(s, range);
    var ego := EgoPath(s.ego);
    ThoughtsNoneIffNoFlags(s.agents, hits, fmt, short);
    forall i | 0 <= i < |s.agents|
      ensures hits[i].None? <==>
        || SkippedInReasoning(s.agents[i], range)
        || forall u | 0 <= u < Horizon :: !Hazard(s.agents[i], ego, u)
    {
      FirstHitNone(s.agents[i], ego, range);
    }
  }

  /**
   * The chain-of-thought builder: the estimate, the scan into the mark
   * matrix, the rendering of the marks, and the meta action appended.
   */
  method GenerateChainOfThoughts(s: Sample, range: real, fmt: real -> string, short: bool, norm: Point -> real)
    returns (r: Result<string, Fault>)
    requires ValidSample(s)
    ensures r == ChainOfThoughtsOf(s, range, fmt, short, norm)
  {
    var ego := EgoPath(s.ego);
    var flags := FlagCollisions(s.agents, ego, range);
    var text := RenderThoughts(s.agents, flags, SampleHits(s, range), fmt, short);
    var meta := EgoMetaAction(s.ego, norm);
    if meta.Failure? {
      return Failure(meta.error);
    }
    text := text + (MetaHeader + meta.value);
    r := Success(text);
  }

  /**
   * `generate_assistant_message` (lines 161-185): the waypoint line alone
   * when `trajOnly`, otherwise the chain of thought, "Trajectory:\n" and
   * the waypoint line. The chain of thought runs with its default range
   * and short names.
   */
  function AssistantMessageOf(s: Sample, fmt: real -> string, norm: Point -> real, trajOnly: bool)
    : (r: Result<string, Fault>)
    requires ValidSample(s)
    ensures trajOnly ==> r == Success(TrajectoryText(s.ego, fmt))
    ensures r.Failure? <==> !trajOnly && EgoMetaAction(s.ego, norm).Failure?
  {
    if trajOnly then Success(TrajectoryText(s.ego, fmt))
    else
      match ChainOfThoughtsOf(s, PerceptionRange, fmt, true, norm)
      case Failure(e) => Failure(e)
      case Success(chain) => Success(chain + TrajectoryHeader + TrajectoryText(s.ego, fmt))
  }

  method GenerateAssistantMessage(s: Sample, fmt: real -> string, norm: Point -> real, trajOnly: bool)
    returns (r: Result<string, Fault>)
    requires ValidSample(s)
    ensures r == AssistantMessageOf(s, fmt, norm, trajOnly)
  {
    var text := "";
    if !trajOnly {
      var chain := GenerateChainOfThoughts(s, PerceptionRange, fmt, true, norm);
      if chain.Failure? {
        return Failure(chain.error);
      }
      text := chain.value;
    }
    if !trajOnly {
      text := text + TrajectoryHeader;
    }
    text := text + TrajectoryText(s.ego, fmt);
    assert trajOnly ==> text == TrajectoryText(s.ego, fmt);
    r := Success(text);
  }

  /** Text after the trajectory header, when it is one line, is the last line. */
  lemma LastLineAfterHeader(prefix: string, line: string)
    requires OneLine(line)
    ensures LastSegment(prefix + TrajectoryHeader + line, '\n') == line
  {
    assert TrajectoryHeader == "Trajectory:" + ['\n'];
    assert prefix + TrajectoryHeader + line == (prefix + "Trajectory:") + ['\n'] + line;
    LastSegmentAfter(prefix + "Trajectory:", '\n', line);
  }

  /** Text put before a header-and-line ending leaves the last line as it was. */
  lemma LastLineAfterPrefix(prefix: string, chain: string, line: string)
    requires OneLine(line)
    ensures LastSegment(prefix + (chain + TrajectoryHeader + line), '\n') == line
  {
    assert prefix + (chain + TrajectoryHeader + line) == (prefix + chain) + TrajectoryHeader + line;
    LastLineAfterHeader(prefix + chain, line);
  }

  /** Outside the waypoints-only mode, the message is the chain of thought, the header and the waypoints. */
  lemma AssistantParts(s: Sample, fmt: real -> string, norm: Point -> real)
    requires ValidSample(s) && AssistantMessageOf(s, fmt, norm, false).Success?
    ensures ChainOfThoughtsOf(s, PerceptionRange, fmt, true, norm).Success?
    ensures AssistantMessageOf(s, fmt, norm, false).value
         == ChainOfThoughtsOf(s, PerceptionRange, fmt, true, norm).value + TrajectoryHeader
            + TrajectoryText(s.ego, fmt)
  {
  }

  /**
   * Whatever the mode, the last line of an assistant message is the
   * waypoint line, which is what the decoders read back.
   */
  lemma AssistantEndsWithTrajectory(s: Sample, fmt: real -> string, norm: Point -> real, trajOnly: bool)
    requires ValidSample(s) && FmtOneLine(fmt)
    requires AssistantMessageOf(s, fmt, norm, trajOnly).Success?
    ensures LastSegment(AssistantMessageOf(s, fmt, norm, trajOnly).value, '\n') == TrajectoryText(s.ego, fmt)
  {
    var traj := TrajectoryText(s.ego, fmt);
    TrajectoryOneLine(s.ego, fmt);
    if trajOnly {
      LastSegmentWhole(traj, '\n');
    } else {
      AssistantParts(s, fmt, norm);
      LastLineAfterHeader(ChainOfThoughtsOf(s, PerceptionRange, fmt, true, norm).value, traj);
    }
  }

  /**
   * `generate_incontext_message` (lines 403-411): a worked example made of
   * the input description and the full assistant message.
   */
  function IncontextMessageOf(s: Sample, fmt: real -> string, norm: Point -> real): (r: Result<string, Fault>)
    requires ValidSample(s)
    ensures r.Failure? <==>
      UserMessageOf(s, PerceptionRange, fmt, true).Failure? || EgoMetaAction(s.ego, norm).Failure?
    ensures r.Success? ==>
      r.value == ExampleHeader + InputHeader + UserMessageOf(s, PerceptionRange, fmt, true).value
                 + OutputHeader + AssistantMessageOf(s, fmt, norm, false).value
  {
    match UserMessageOf(s, PerceptionRange, fmt, true)
    case Failure(e) => Failure(e)
    case Success(user) =>
      match AssistantMessageOf(s, fmt, norm, false)
      case Failure(e) => Failure(e)
      case Success(assistant) =>
        Success(ExampleHeader + InputHeader + user + OutputHeader + assistant)
  }

  /** An in-context example also ends with its sample's waypoint line. */
  lemma IncontextEndsWithTrajectory(s: Sample, fmt: real -> string, norm: Point -> real)
    requires ValidSample(s) && FmtOneLine(fmt)
    requires IncontextMessageOf(s, fmt, norm).Success?
    ensures LastSegment(IncontextMessageOf(s, fmt, norm).value, '\n') == TrajectoryText(s.ego, fmt)
  {
    var prefix := ExampleHeader + InputHeader + UserMessageOf(s, PerceptionRange, fmt, true).value + OutputHeader;
    TrajectoryOneLine(s.ego, fmt);
    AssistantParts(s, fmt, norm);
    LastLineAfterPrefix(prefix, ChainOfThoughtsOf(s, PerceptionRange, fmt, true, norm).value, TrajectoryText(s.ego, fmt));
  }
}
