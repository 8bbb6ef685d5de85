/**
 * The ego vehicle's own estimate of its next three seconds (prompt_message.py,
 * lines 195-208): constant acceleration from the current velocity, without
 * looking at the recorded future.
 */
module EgoEstimate {
  import opened Scene

  /** The current velocity in metres per 0.5 s: half the raw features 0 and 1. */
  function Velocity(e: Ego): Point
    requires |e.lcfFeat| >= 2
  {
    Point(e.lcfFeat[0] * 0.5, e.lcfFeat[1] * 0.5)
  }

  /** The last history step difference minus the one before it. */
  function Acceleration(e: Ego): Point
    requires |e.hisDiff| >= 2
  {
    var n := |e.hisDiff|;
    Point(e.hisDiff[n - 1].x - e.hisDiff[n - 2].x, e.hisDiff[n - 1].y - e.hisDiff[n - 2].y)
  }

  /** `ego_estimate_velos`: no motion at step 0, then v, v + a, ..., v + 5a. */
  function EstimatedVelocities(v: Point, a: Point): (r: seq<Point>)
    ensures |r| == Horizon && r[0] == Origin
    ensures forall k | 1 <= k < Horizon :: r[k] == Add(v, Scale((k - 1) as real, a))
  {
    [ Origin,
      Point(v.x, v.y),
      Point(v.x + a.x, v.y + a.y),
      Point(v.x + 2.0 * a.x, v.y + 2.0 * a.y),
      Point(v.x + 3.0 * a.x, v.y + 3.0 * a.y),
      Point(v.x + 4.0 * a.x, v.y + 4.0 * a.y),
      Point(v.x + 5.0 * a.x, v.y + 5.0 * a.y) ]
  }

  /** `ego_estimate_trajs`: the running sum of the estimated velocities. */
  function EstimatedPath(v: Point, a: Point): (r: seq<Point>)
    ensures |r| == Horizon
  {
    CumSum(EstimatedVelocities(v, a))
  }

  /** The estimated path of a recorded ego state. */
  function EgoPath(e: Ego): (r: seq<Point>)
    requires ValidEgo(e)
    ensures |r| == Horizon
  {
    EstimatedPath(Velocity(e), Acceleration(e))
  }

  /** Adding one more point to a prefix adds it to the prefix's sum. */
  lemma SumPrefixStep(ps: seq<Point>, k: nat)
    requires k < |ps|
    ensures Sum(ps[..k + 1]) == Add(Sum(ps[..k]), ps[k])
  {
    assert ps[..k + 1][..k] == ps[..k];
  }

  /** 0 + 1 + ... + (k - 1): how many acceleration increments k steps accumulate. */
  function Triangular(k: nat): real
  {
    if k == 0 then 0.0 else Triangular(k - 1) + (k - 1) as real
  }

  lemma {:induction false} TriangularClosedForm(k: nat)
    ensures Triangular(k) == (k as real) * (k as real - 1.0) / 2.0
  {
    if k > 0 {
      TriangularClosedForm(k - 1);
      var K := k as real;
      assert (k - 1) as real == K - 1.0;
      assert (K - 1.0) * (K - 2.0) / 2.0 + (K - 1.0) == K * (K - 1.0) / 2.0;
    }
  }

  /** One step of the running sum, on one coordinate. */
  lemma ClosedFormStep(c: real, t: real, vx: real, ax: real)
    ensures (c * vx + t * ax) + (vx + c * ax) == (c + 1.0) * vx + (t + c) * ax
  {
  }

  /** One step of the running sum, on points. */
  lemma ClosedFormPointStep(c: real, t: real, v: Point, a: Point)
    ensures Add(Add(Scale(c, v), Scale(t, a)), Add(v, Scale(c, a)))
         == Add(Scale(c + 1.0, v), Scale(t + c, a))
  {
    ClosedFormStep(c, t, v.x, a.x);
    ClosedFormStep(c, t, v.y, a.y);
  }

  /** The sum of the first k + 1 estimated velocities: k v + Triangular(k) a. */
  lemma {:induction false} VelocitySumClosedForm(velos: seq<Point>, v: Point, a: Point, k: nat)
    requires |velos| == Horizon && velos[0] == Origin && k < Horizon
    requires forall j | 1 <= j < Horizon :: velos[j] == Add(v, Scale((j - 1) as real, a))
    ensures Sum(velos[..k + 1]) == Add(Scale(k as real, v), Scale(Triangular(k), a))
  {
    SumPrefixStep(velos, k);
    if k == 0 {
      assert velos[..0] == [];
    } else {
      VelocitySumClosedForm(velos, v, a, k - 1);
      var c := (k - 1) as real;
      ClosedFormPointStep(c, Triangular(k - 1), v, a);
      assert velos[k] == Add(v, Scale(c, a));
      assert k as real == c + 1.0;
    }
  }

  /**
   * The estimated path in closed form: the ego starts at the origin and is at
   * k v + k (k - 1) / 2 a after k steps.
   */
  lemma EstimatedPathClosedForm(v: Point, a: Point, k: nat)
    requires k < Horizon
    ensures EstimatedPath(v, a)[k]
         == Add(Scale(k as real, v), Scale((k as real) * (k as real - 1.0) / 2.0, a))
  {
    VelocitySumClosedForm(EstimatedVelocities(v, a), v, a, k);
    TriangularClosedForm(k);
  }
}
