/**
 * The plain input description of one sample (prompt_message.py, lines
 * 52-159): the listing of the relevant objects, the ego states, the
 * history and the mission goal.
 */
module UserMessage {
  import opened Wrappers
  import opened Strings
  import opened Scene
  import opened Format
  import opened Relevance
  import opened EgoEstimate

  const PerceptionHeader := "Perception and Prediction:\n"
  const UnknownPair := "(UN,UN)"
  const UnknownTarget := "moving to unknown location.\n"
  const HistoryHeader := "Historical Trajectory (last 2 seconds):"
  const GoalHeader := "Mission Goal: "

  /** One predicted step in the verbose listing: the position, or "(UN,UN)" when its mask is not positive. */
  function StepPoint(a: Agent, t: nat, fmt: real -> string): string
    requires ValidAgent(a) && t < PredictionSteps
  {
    if a.futureMask[t] > 0.0 then PairText(FuturePositions(a)[t], fmt) else UnknownPair
  }

  /** Step t followed by ", " unless it is the last of the six. */
  function StepText(a: Agent, t: nat, fmt: real -> string): string
    requires ValidAgent(a) && t < PredictionSteps
  {
    StepPoint(a, t, fmt) + if t != PredictionSteps - 1 then ", " else ""
  }

  /** The first n steps of the verbose future trajectory. */
  function StepsText(a: Agent, n: nat, fmt: real -> string): string
    requires ValidAgent(a) && n <= PredictionSteps
  {
    if n == 0 then "" else StepsText(a, n - 1, fmt) + StepText(a, n - 1, fmt)
  }

  function StepPoints(a: Agent, n: nat, fmt: real -> string): (r: seq<string>)
    requires ValidAgent(a) && n <= PredictionSteps
    ensures |r| == n
    ensures forall t | 0 <= t < n :: r[t] == StepPoint(a, t, fmt)
  {
    seq(n, t requires 0 <= t < n => StepPoint(a, t, fmt))
  }

  /**
   * The inner loop of lines 86-95: writes the six steps with ", " between
   * neighbours.
   */
  method FutureTrajectoryText(a: Agent, fmt: real -> string) returns (text: string)
    requires ValidAgent(a)
    ensures text == StepsText(a, PredictionSteps, fmt)
  {
    text := "";
    for t := 0 to PredictionSteps
      invariant text == StepsText(a, t, fmt)
    {
      ghost var prev := text;
      if a.futureMask[t] > 0.0 {
        text := text + PairText(FuturePositions(a)[t], fmt);
      } else {
        text := text + UnknownPair;
      }
      assert text == prev + StepPoint(a, t, fmt);
      if t != PredictionSteps - 1 {
        AppendAssociative(prev, StepPoint(a, t, fmt), ", ");
        text := text + ", ";
      } else {
        assert StepText(a, t, fmt) == StepPoint(a, t, fmt) + "";
      }
    }
  }

  lemma StepPointsSnoc(a: Agent, n: nat, fmt: real -> string)
    requires ValidAgent(a) && 0 < n <= PredictionSteps
    ensures StepPoints(a, n, fmt) == StepPoints(a, n - 1, fmt) + [StepPoint(a, n - 1, fmt)]
  {
  }

  /** Up to step n < 6, the steps written so far are the joined points followed by a separator. */
  lemma {:induction false} StepsTextPrefix(a: Agent, n: nat, fmt: real -> string)
    requires ValidAgent(a) && 0 < n < PredictionSteps
    ensures StepsText(a, n, fmt) == Join(StepPoints(a, n, fmt), ", ") + ", "
  {
    if n > 1 {
      StepsTextPrefix(a, n - 1, fmt);
      StepPointsSnoc(a, n, fmt);
      JoinSnoc(StepPoints(a, n - 1, fmt), StepPoint(a, n - 1, fmt), ", ");
    }
  }

  /**
   * The verbose future trajectory is the six step texts joined by ", ":
   * a separator between neighbours and none after the last.
   */
  lemma StepsTextIsJoin(a: Agent, fmt: real -> string)
    requires ValidAgent(a)
    ensures StepsText(a, PredictionSteps, fmt) == Join(StepPoints(a, PredictionSteps, fmt), ", ")
  {
    StepsTextPrefix(a, PredictionSteps - 1, fmt);
    assert StepPoints(a, PredictionSteps, fmt)[..PredictionSteps - 1]
        == StepPoints(a, PredictionSteps - 1, fmt);
  }

  /** The listing line of one object that passed the filter (lines 79-104). */
  function ObjectLine(a: Agent, fmt: real -> string, short: bool): string
    requires ValidAgent(a)
  {
    if !short then
      " - " + a.name + " at " + PairText(Position(a), fmt) + ". "
        + "Future trajectory: [" + StepsText(a, PredictionSteps, fmt) + "]\n"
    else
      " - " + LastSegment(a.name, '.') + " at " + PairText(Position(a), fmt) + ", "
        + if a.futureMask[PredictionSteps - 1] > 0.0
          then "moving to " + PairText(FuturePositions(a)[PredictionSteps - 1], fmt) + ".\n"
          else UnknownTarget
  }

  /** The listing as the loop of lines 74-104 writes it, object by object, with its own filter. */
  function ListingText(agents: seq<Agent>, range: real, fmt: real -> string, short: bool): string
    requires ValidAgents(agents)
  {
    if agents == [] then ""
    else
      var a := agents[|agents| - 1];
      ListingText(agents[..|agents| - 1], range, fmt, short)
        + if SkippedInListing(a, range) then "" else ObjectLine(a, fmt, short)
  }

  /** The items of `s` that `keep` accepts, in their order in `s`. */
  function Kept<T>(s: seq<T>, keep: T -> bool): (r: seq<T>)
    ensures forall k | 0 <= k < |r| :: r[k] in s && keep(r[k])
    ensures forall x | x in s && keep(x) :: x in r
  {
    if s == [] then []
    else
      var x := s[|s| - 1];
      var init := s[..|s| - 1];
      assert s == init + [x];
      Kept(init, keep) + if keep(x) then [x] else []
  }

  /** The positions in `s` of the items that `keep` accepts, in increasing order. */
  function KeptIndices<T>(s: seq<T>, keep: T -> bool): (idx: seq<nat>)
    ensures forall k | 0 <= k < |idx| :: idx[k] < |s|
    ensures forall j, k | 0 <= j < k < |idx| :: idx[j] < idx[k]
    ensures forall j | 0 <= j < |s| :: j in idx <==> keep(s[j])
  {
    if s == [] then []
    else
      var n := |s| - 1;
      var init := s[..n];
      assert forall j | 0 <= j < n :: init[j] == s[j];
      KeptIndices(init, keep) + if keep(s[n]) then [n] else []
  }

  /**
   * The kept items are the items at the kept positions, one each and in
   * order: nothing accepted is dropped, repeated or moved.
   */
  lemma {:induction false} KeptInOrder<T>(s: seq<T>, keep: T -> bool)
    ensures |Kept(s, keep)| == |KeptIndices(s, keep)|
    ensures forall k | 0 <= k < |Kept(s, keep)| :: Kept(s, keep)[k] == s[KeptIndices(s, keep)[k]]
  {
    if s != [] {
      var n := |s| - 1;
      var init := s[..n];
      KeptInOrder(init, keep);
      var r, idx := Kept(s, keep), KeptIndices(s, keep);
      var r0, idx0 := Kept(init, keep), KeptIndices(init, keep);
      forall k | 0 <= k < |r|
        ensures r[k] == s[idx[k]]
      {
        if k < |r0| {
          assert r[k] == r0[k] && idx[k] == idx0[k];
          assert init[idx0[k]] == s[idx0[k]];
        }
      }
    }
  }

  /** Whether the chain of thought reasons about an object. */
  function IsRelevant(range: real): Agent -> bool
  {
    a => !SkippedInReasoning(a, range)
  }

  /** The objects the chain of thought reasons about, in input order. */
  function Relevant(agents: seq<Agent>, range: real): (r: seq<Agent>)
    ensures forall k | 0 <= k < |r| :: r[k] in agents && !SkippedInReasoning(r[k], range)
    ensures forall a | a in agents && !SkippedInReasoning(a, range) :: a in r
  {
    Kept(agents, IsRelevant(range))
  }

  /**
   * The relevant objects are the input objects at exactly the positions
   * whose object passes the filter, one each and in input order.
   */
  lemma RelevantIsKeptInOrder(agents: seq<Agent>, range: real)
    ensures var idx := KeptIndices(agents, IsRelevant(range));
      && |Relevant(agents, range)| == |idx|
      && (forall j, k | 0 <= j < k < |idx| :: idx[j] < idx[k])
      && (forall j | 0 <= j < |agents| :: j in idx <==> !SkippedInReasoning(agents[j], range))
      && forall k | 0 <= k < |idx| :: idx[k] < |agents| && Relevant(agents, range)[k] == agents[idx[k]]
  {
    KeptInOrder(agents, IsRelevant(range));
  }

  /** One line per object, one after the other. */
  function Lines(agents: seq<Agent>, fmt: real -> string, short: bool): string
    requires ValidAgents(agents)
  {
    if agents == [] then ""
    else Lines(agents[..|agents| - 1], fmt, short) + ObjectLine(agents[|agents| - 1], fmt, short)
  }

  lemma LinesSnoc(agents: seq<Agent>, a: Agent, fmt: real -> string, short: bool)
    requires ValidAgents(agents) && ValidAgent(a)
    ensures Lines(agents + [a], fmt, short) == Lines(agents, fmt, short) + ObjectLine(a, fmt, short)
  {
    assert (agents + [a])[..|agents|] == agents;
  }

  /**
   * The listing describes exactly the objects the collision scan examines,
   * one line each, in input order.
   */
  lemma {:induction false} ListingIsRelevantObjects(
    agents: seq<Agent>, range: real, fmt: real -> string, short: bool)
    requires ValidAgents(agents)
    ensures ListingText(agents, range, fmt, short) == Lines(Relevant(agents, range), fmt, short)
  {
    if agents != [] {
      var a := agents[|agents| - 1];
      var init := agents[..|agents| - 1];
      ListingIsRelevantObjects(init, range, fmt, short);
      FiltersAgree(a, range);
      if !SkippedInReasoning(a, range) {
        LinesSnoc(Relevant(init, range), a, fmt, short);
      } else {
        assert Relevant(agents, range) == Relevant(init, range);
        var prev := ListingText(init, range, fmt, short);
        assert prev + "" == prev;
      }
    }
  }

  /** The body of lines 79-104 for one object that passed the filter. */
  method DescribeObject(a: Agent, fmt: real -> string, short: bool) returns (line: string)
    requires ValidAgent(a)
    ensures line == ObjectLine(a, fmt, short)
  {
    if !short {
      line := " - " + a.name + " at " + PairText(Position(a), fmt) + ". ";
      line := line + "Future trajectory: [";
      var steps := FutureTrajectoryText(a, fmt);
      line := line + steps;
      line := line + "]\n";
    } else {
      line := " - " + LastSegment(a.name, '.') + " at " + PairText(Position(a), fmt) + ", ";
      if a.futureMask[PredictionSteps - 1] > 0.0 {
        line := line + ("moving to " + PairText(FuturePositions(a)[PredictionSteps - 1], fmt) + ".\n");
      } else {
        line := line + UnknownTarget;
      }
    }
  }

  /** The loop of lines 74-104 over all objects. */
  method ListObjects(agents: seq<Agent>, range: real, fmt: real -> string, short: bool) returns (text: string)
    requires ValidAgents(agents)
    ensures text == ListingText(agents, range, fmt, short)
  {
    text := "";
    for i := 0 to |agents|
      invariant text == ListingText(agents[..i], range, fmt, short)
    {
      assert agents[..i + 1][..i] == agents[..i];
      var a := agents[i];
      var future := FuturePositions(a);
      if AlwaysBehind(future) && a.box.y <= 0.0 {
        continue;
      }
      if OutOfRange(future, range) || Abs(a.box.x) > range || Abs(a.box.y) > range {
        continue;
      }
      var line := DescribeObject(a, fmt, short);
      text := text + line;
    }
    assert agents[..|agents|] == agents;
  }

  /** The ego-state block of lines 110-125. */
  function EgoStatesText(e: Ego, fmt: real -> string): string
    requires ValidEgo(e)
  {
    "Ego-States:\n"
      + " - Velocity (vx,vy): " + PairText(Velocity(e), fmt) + "\n"
      + " - Heading Angular Velocity (v_yaw): (" + fmt(e.lcfFeat[4]) + ")\n"
      + " - Acceleration (ax,ay): " + PairText(Acceleration(e), fmt) + "\n"
      + " - Can Bus: " + PairText(Point(e.lcfFeat[2], e.lcfFeat[3]), fmt) + "\n"
      + " - Heading Speed: (" + fmt(e.lcfFeat[7] * 0.5) + ")\n"
      + " - Steering: (" + fmt(e.lcfFeat[8]) + ")\n"
  }

  /** The history line of lines 132-141: the first four history positions as a list. */
  function HistoryText(e: Ego, fmt: real -> string): string
    requires ValidEgo(e)
  {
    HistoryHeader + " " + PairList(e.hisTrajs[..4], fmt) + "\n"
  }

  /**
   * The mission goal of lines 147-157: the first positive entry of the
   * (right, left, forward) command; none positive fails the assertion.
   */
  function MissionGoal(c: Command): (r: Result<string, Fault>)
    ensures r.Failure? <==> c.right <= 0.0 && c.left <= 0.0 && c.forward <= 0.0
    ensures r.Failure? ==> r.error == MissionCommandInvalid
    ensures r == Success("RIGHT") <==> c.right > 0.0
    ensures r == Success("LEFT") <==> c.right <= 0.0 && c.left > 0.0
    ensures r == Success("FORWARD") <==> c.right <= 0.0 && c.left <= 0.0 && c.forward > 0.0
  {
    if c.right > 0.0 then Success("RIGHT")
    else if c.left > 0.0 then Success("LEFT")
    else if c.forward > 0.0 then Success("FORWARD")
    else Failure(MissionCommandInvalid)
  }

  /** A one-hot command: exactly one entry positive. */
  predicate OneHot(c: Command)
  {
    || (c.right > 0.0 && c.left <= 0.0 && c.forward <= 0.0)
    || (c.right <= 0.0 && c.left > 0.0 && c.forward <= 0.0)
    || (c.right <= 0.0 && c.left <= 0.0 && c.forward > 0.0)
  }

  /** For a one-hot command the goal names the positive entry, and never fails. */
  lemma OneHotGoal(c: Command)
    requires OneHot(c)
    ensures MissionGoal(c).Success?
    ensures MissionGoal(c).value == (if c.right > 0.0 then "RIGHT" else if c.left > 0.0 then "LEFT" else "FORWARD")
    ensures MissionGoal(c).value == "FORWARD" <==> c.forward > 0.0
  {
  }

  /** The whole user message of lines 52-159, or the mission-goal failure. */
  function UserMessageOf(s: Sample, range: real, fmt: real -> string, short: bool): (r: Result<string, Fault>)
    requires ValidSample(s)
    ensures r.Failure? <==> MissionGoal(s.ego.command).Failure?
    ensures r.Success? ==>
      r.value == "\n" + PerceptionHeader + Lines(Relevant(s.agents, range), fmt, short)
                 + EgoStatesText(s.ego, fmt) + HistoryText(s.ego, fmt)
                 + GoalHeader + MissionGoal(s.ego.command).value + "\n"
  {
    ListingIsRelevantObjects(s.agents, range, fmt, short);
    match MissionGoal(s.ego.command)
    case Failure(e) => Failure(e)
    case Success(goal) =>
      Success("\n" + PerceptionHeader + ListingText(s.agents, range, fmt, short)
              + EgoStatesText(s.ego, fmt) + HistoryText(s.ego, fmt)
              + GoalHeader + goal + "\n")
  }

  /** `generate_user_message`: the listing loop, then the fixed blocks. */
  method GenerateUserMessage(s: Sample, range: real, fmt: real -> string, short: bool)
    returns (r: Result<string, Fault>)
    requires ValidSample(s)
    ensures r == UserMessageOf(s, range, fmt, short)
  {
    var text := "\n";
    text := text + PerceptionHeader;
    var listing := ListObjects(s.agents, range, fmt, short);
    text := text + listing;
    text := text + EgoStatesText(s.ego, fmt);
    text := text + HistoryText(s.ego, fmt);
    var goal := MissionGoal(s.ego.command);
    if goal.Failure? {
      return Failure(goal.error);
    }
    text := text + GoalHeader;
    text := text + goal.value + "\n";
    r := Success(text);
  }
}
