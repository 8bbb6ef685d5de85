/**
 * The per-sample record the prompt builder reads: the perceived objects with
 * their predicted futures and the ego vehicle's kinematic state, all in one
 * ego-centred frame (x lateral, y forward).
 */
module Scene {

  datatype Point = Point(x: real, y: real)

  const Origin := Point(0.0, 0.0)

  function Add(p: Point, q: Point): Point
  {
    Point(p.x + q.x, p.y + q.y)
  }

  function Scale(c: real, p: Point): Point
  {
    Point(c * p.x, c * p.y)
  }

  /** numpy's `np.abs` on one coordinate. */
  function Abs(x: real): real
  {
    if x < 0.0 then -x else x
  }

  /**
   * The columns of an object's 7-column box that the reasoning reads: the
   * centre (columns 0 and 1) and the two extents in columns 3 and 4, which
   * the collision check halves into half-sizes along x and y.
   */
  datatype Box = Box(x: real, y: real, extentX: real, extentY: real)

  /**
   * One perceived object: its category name, its box, its six predicted
   * step displacements (`gt_agent_fut_trajs` reshaped to 6 x 2) and the six
   * validity values of those steps (`gt_agent_fut_masks`; a step is valid
   * when its value is positive).
   */
  datatype Agent = Agent(name: string, box: Box, relFuture: seq<Point>, futureMask: seq<real>)

  /** `gt_ego_fut_cmd`: the (right, left, forward) mission command. */
  datatype Command = Command(right: real, left: real, forward: real)

  /**
   * The ego vehicle: the 9-value local feature vector `gt_ego_lcf_feat`,
   * the history positions and step differences, the 7 future positions
   * (index 0 is the current one) and their step differences, and the
   * mission command.
   */
  datatype Ego = Ego(
    lcfFeat: seq<real>,
    hisTrajs: seq<Point>,
    hisDiff: seq<Point>,
    futTrajs: seq<Point>,
    futDiff: seq<Point>,
    command: Command)

  datatype Sample = Sample(agents: seq<Agent>, ego: Ego)

  /** The errors the prompt builder raises on a record it cannot describe. */
  datatype Fault =
    | UndefinedBehaviors      // the ValueError of the lateral classifier
    | MissionCommandInvalid   // the failed `assert forward > 0`

  /** `prediction_ts`: predicted steps per object, one every 0.5 s. */
  const PredictionSteps := 6

  /** `num_future_horizon`: the current step and the six predicted ones. */
  const Horizon := 7

  predicate ValidAgent(a: Agent)
  {
    |a.relFuture| == PredictionSteps && |a.futureMask| == PredictionSteps
  }

  /** The shapes the prompt builder indexes without checking. */
  predicate ValidEgo(e: Ego)
  {
    && |e.lcfFeat| == 9
    && |e.hisTrajs| >= 4
    && |e.hisDiff| >= 2
    && |e.futTrajs| == Horizon
    && |e.futDiff| >= 1
  }

  predicate ValidAgents(agents: seq<Agent>)
  {
    forall i | 0 <= i < |agents| :: ValidAgent(agents[i])
  }

  predicate ValidSample(s: Sample)
  {
    ValidAgents(s.agents) && ValidEgo(s.ego)
  }

  /** The sum of a sequence of points, added left to right. */
  function Sum(ps: seq<Point>): Point
  {
    if ps == [] then Origin else Add(Sum(ps[..|ps| - 1]), ps[|ps| - 1])
  }

  /**
   * numpy's `cumsum` along the time axis, computed as a running total:
   * entry k is the sum of the first k + 1 points.
   */
  function CumSum(ps: seq<Point>): (r: seq<Point>)
    ensures |r| == |ps|
    ensures forall k | 0 <= k < |ps| :: r[k] == Sum(ps[..k + 1])
  {
    if ps == [] then []
    else
      var prefix := CumSum(ps[..|ps| - 1]);
      var running := if prefix == [] then Origin else prefix[|prefix| - 1];
      assert ps[..|ps|] == ps;
      assert forall k | 0 <= k < |ps| - 1 :: prefix[k] == Sum(ps[..k + 1]) by {
        forall k | 0 <= k < |ps| - 1
          ensures prefix[k] == Sum(ps[..k + 1])
        {
          assert ps[..|ps| - 1][..k + 1] == ps[..k + 1];
        }
      }
      prefix + [Add(running, ps[|ps| - 1])]
  }

  function Translate(ps: seq<Point>, offset: Point): (r: seq<Point>)
    ensures |r| == |ps|
  {
    seq(|ps|, k requires 0 <= k < |ps| => Add(ps[k], offset))
  }

  /** The object's current position, box columns 0 and 1. */
  function Position(a: Agent): Point
  {
    Point(a.box.x, a.box.y)
  }

  /**
   * The object's absolute future positions (prompt_message.py, lines 70 and
   * 214): position k is the current position plus the first k + 1 step
   * displacements.
   */
  function FuturePositions(a: Agent): (r: seq<Point>)
    ensures |r| == |a.relFuture|
    ensures forall k | 0 <= k < |r| :: r[k] == Add(Sum(a.relFuture[..k + 1]), Position(a))
  {
    Translate(CumSum(a.relFuture), Position(a))
  }

  /** The 7-point path the reasoning checks: the current position, then the future. */
  function Path(a: Agent): (r: seq<Point>)
    ensures |r| == |a.relFuture| + 1 && r[0] == Position(a)
    ensures forall k | 1 <= k < |r| :: r[k] == FuturePositions(a)[k - 1]
  {
    [Position(a)] + FuturePositions(a)
  }

  /** Point k of the path is the current position plus the first k step displacements. */
  lemma PathClosedForm(a: Agent)
    ensures forall k | 0 <= k < |Path(a)| :: Path(a)[k] == Add(Sum(a.relFuture[..k]), Position(a))
  {
    assert a.relFuture[..0] == [];
  }
}
