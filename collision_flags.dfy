/**
 * The per-object collision scan of the chain-of-thought builder
 * (prompt_message.py, lines 219-236): each relevant object is checked against
 * the estimated ego path step by step, and the first step that is a hazard
 * is marked in a 0/1 matrix with one row per object and one column per step.
 */
module CollisionFlags {
  import opened Wrappers
  import opened Scene
  import opened Collision
  import opened Relevance

  /** The ego footprint's half-size along x, as the source passes it. */
  const EgoHalfX := 0.925

  /** The ego footprint's half-size along y, as the source passes it. */
  const EgoHalfY := 2.04

  /** Step 0 is always examined; a later step only when its predicted position is valid. */
  predicate Examined(a: Agent, t: nat)
    requires ValidAgent(a) && t < Horizon
  {
    t == 0 || a.futureMask[t - 1] > 0.0
  }

  /** The hazard test between the estimated ego position and the object at step t. */
  predicate HitAt(a: Agent, ego: seq<Point>, t: nat)
    requires ValidAgent(a) && |ego| == Horizon && t < Horizon
  {
    var p := Path(a)[t];
    Detect(ego[t].x, ego[t].y, EgoHalfX, EgoHalfY,
           p.x, p.y, a.box.extentX * 0.5, a.box.extentY * 0.5,
           LateralSpace, ForwardSpace)
  }

  /** Step t would be marked if the scan reached it. */
  predicate Hazard(a: Agent, ego: seq<Point>, t: nat)
    requires ValidAgent(a) && |ego| == Horizon && t < Horizon
  {
    Examined(a, t) && HitAt(a, ego, t)
  }

  /** The first hazardous step from t on, if any. */
  function FirstHazardFrom(a: Agent, ego: seq<Point>, t: nat): (r: Option<nat>)
    requires ValidAgent(a) && |ego| == Horizon && t <= Horizon
    ensures r.Some? ==> t <= r.value < Horizon && Hazard(a, ego, r.value)
    decreases Horizon - t
  {
    if t == Horizon then None
    else if Hazard(a, ego, t) then Some(t)
    else FirstHazardFrom(a, ego, t + 1)
  }

  /** The step the scan marks for one object, if any. */
  function FirstHit(a: Agent, ego: seq<Point>, range: real): (r: Option<nat>)
    requires ValidAgent(a) && |ego| == Horizon
    ensures r.Some? ==> !SkippedInReasoning(a, range) && r.value < Horizon && Hazard(a, ego, r.value)
  {
    if SkippedInReasoning(a, range) then None else FirstHazardFrom(a, ego, 0)
  }

  /** The marked step of every object, in object order. */
  function FirstHits(agents: seq<Agent>, ego: seq<Point>, range: real): (r: seq<Option<nat>>)
    requires ValidAgents(agents) && |ego| == Horizon
    ensures |r| == |agents|
    ensures forall i | 0 <= i < |agents| :: r[i] == FirstHit(agents[i], ego, range)
  {
    seq(|agents|, i requires 0 <= i < |agents| => FirstHit(agents[i], ego, range))
  }

  /** A step the search returns is a hazard with no hazard between t0 and it. */
  lemma {:induction false} FirstHazardFromSound(a: Agent, ego: seq<Point>, t0: nat, t: nat)
    requires ValidAgent(a) && |ego| == Horizon && t0 <= Horizon
    requires FirstHazardFrom(a, ego, t0) == Some(t)
    ensures t0 <= t < Horizon && forall u | t0 <= u < t :: !Hazard(a, ego, u)
    decreases Horizon - t0
  {
    if t0 < t {
      FirstHazardFromSound(a, ego, t0 + 1, t);
    }
  }

  /** A hazard with no hazard between t0 and it is the step the search returns. */
  lemma {:induction false} FirstHazardFromComplete(a: Agent, ego: seq<Point>, t0: nat, t: nat)
    requires ValidAgent(a) && |ego| == Horizon && t0 <= t < Horizon && Hazard(a, ego, t)
    requires forall u | t0 <= u < t :: !Hazard(a, ego, u)
    ensures FirstHazardFrom(a, ego, t0) == Some(t)
    decreases t - t0
  {
    if t0 < t {
      assert !Hazard(a, ego, t0);
      FirstHazardFromComplete(a, ego, t0 + 1, t);
    }
  }

  lemma FirstHazardFromIsFirst(a: Agent, ego: seq<Point>, t0: nat, t: nat)
    requires ValidAgent(a) && |ego| == Horizon && t0 <= Horizon
    ensures FirstHazardFrom(a, ego, t0) == Some(t)
        <==> && t0 <= t < Horizon && Hazard(a, ego, t)
             && forall u | t0 <= u < t :: !Hazard(a, ego, u)
  {
    if FirstHazardFrom(a, ego, t0) == Some(t) {
      FirstHazardFromSound(a, ego, t0, t);
    }
    if t0 <= t < Horizon && Hazard(a, ego, t) && forall u | t0 <= u < t :: !Hazard(a, ego, u) {
      FirstHazardFromComplete(a, ego, t0, t);
    }
  }

  lemma {:induction false} FirstHazardFromNone(a: Agent, ego: seq<Point>, t0: nat)
    requires ValidAgent(a) && |ego| == Horizon && t0 <= Horizon
    ensures FirstHazardFrom(a, ego, t0) == None <==> forall u | t0 <= u < Horizon :: !Hazard(a, ego, u)
    decreases Horizon - t0
  {
    if t0 < Horizon && !Hazard(a, ego, t0) {
      FirstHazardFromNone(a, ego, t0 + 1);
    }
  }

  /**
   * What the scan marks for one object: a step t exactly when the object is
   * relevant, step t is examined and a hazard, and no earlier examined step
   * is; so at most one step, and none for a filtered object.
   */
  lemma FirstHitIsFirstHazard(a: Agent, ego: seq<Point>, range: real, t: nat)
    requires ValidAgent(a) && |ego| == Horizon
    ensures FirstHit(a, ego, range) == Some(t)
        <==> && !SkippedInReasoning(a, range)
             && t < Horizon && Examined(a, t) && HitAt(a, ego, t)
             && forall u | 0 <= u < t :: !(Examined(a, u) && HitAt(a, ego, u))
  {
    FirstHazardFromIsFirst(a, ego, 0, t);
  }

  /** No step is marked exactly when the object is filtered or no examined step is a hazard. */
  lemma FirstHitNone(a: Agent, ego: seq<Point>, range: real)
    requires ValidAgent(a) && |ego| == Horizon
    ensures FirstHit(a, ego, range) == None
        <==> SkippedInReasoning(a, range) || forall u | 0 <= u < Horizon :: !(Examined(a, u) && HitAt(a, ego, u))
  {
    FirstHazardFromNone(a, ego, 0);
  }

  /**
   * The marks of all objects: object i is marked exactly when it is kept and
   * some step is a hazard, and then at its first hazardous step.
   */
  lemma FirstHitsAreFirstHazards(agents: seq<Agent>, ego: seq<Point>, range: real)
    requires ValidAgents(agents) && |ego| == Horizon
    ensures forall i | 0 <= i < |agents| ::
      (FirstHits(agents, ego, range)[i].Some? <==>
        !SkippedInReasoning(agents[i], range) && exists t | 0 <= t < Horizon :: Hazard(agents[i], ego, t))
    ensures forall i | 0 <= i < |agents| && FirstHits(agents, ego, range)[i].Some? ::
      var t := FirstHits(agents, ego, range)[i].value;
      t < Horizon && Hazard(agents[i], ego, t) && forall u | 0 <= u < t :: !Hazard(agents[i], ego, u)
  {
    forall i | 0 <= i < |agents|
      ensures (FirstHit(agents[i], ego, range).Some? <==>
        !SkippedInReasoning(agents[i], range) && exists t | 0 <= t < Horizon :: Hazard(agents[i], ego, t))
      ensures FirstHit(agents[i], ego, range).Some? ==>
        var t := FirstHit(agents[i], ego, range).value;
        t < Horizon && Hazard(agents[i], ego, t) && forall u | 0 <= u < t :: !Hazard(agents[i], ego, u)
    {
      FirstHazardFromNone(agents[i], ego, 0);
      if FirstHit(agents[i], ego, range).Some? {
        FirstHazardFromSound(agents[i], ego, 0, FirstHit(agents[i], ego, range).value);
      }
    }
  }

  /**
   * The scan itself (lines 220-236): `object_collisons`, one row per object
   * and one column per step, holds a mark exactly at each object's first
   * hazardous step.
   */
  method FlagCollisions(agents: seq<Agent>, ego: seq<Point>, range: real) returns (flags: array2<bool>)
    requires ValidAgents(agents) && |ego| == Horizon
    ensures flags.Length0 == |agents| && flags.Length1 == Horizon
    ensures forall i, t | 0 <= i < |agents| && 0 <= t < Horizon ::
              flags[i, t] <==> FirstHit(agents[i], ego, range) == Some(t)
  {
    flags := new bool[|agents|, Horizon]((i, t) => false);
    for i := 0 to |agents|
      invariant flags.Length0 == |agents| && flags.Length1 == Horizon
      invariant forall i', t | 0 <= i' < i && 0 <= t < Horizon ::
                  flags[i', t] <==> FirstHit(agents[i'], ego, range) == Some(t)
      invariant forall i', t | i <= i' < |agents| && 0 <= t < Horizon :: !flags[i', t]
    {
      var a := agents[i];
      var path := Path(a);
      if AlwaysBehind(path) {
        continue;
      }
      if OutOfRange(path, range) {
        continue;
      }
      for t := 0 to Horizon
        invariant forall i', u | 0 <= i' < i && 0 <= u < Horizon ::
                    flags[i', u] <==> FirstHit(agents[i'], ego, range) == Some(u)
        invariant forall i', u | i <= i' < |agents| && 0 <= u < Horizon :: !flags[i', u]
        invariant FirstHazardFrom(a, ego, 0) == FirstHazardFrom(a, ego, t)
      {
        var mask := if t > 0 then a.futureMask[t - 1] > 0.0 else true;
        if !mask {
          continue;
        }
        var p := path[t];
        var collision := Detect(ego[t].x, ego[t].y, EgoHalfX, EgoHalfY,
                                p.x, p.y, a.box.extentX * 0.5, a.box.extentY * 0.5,
                                LateralSpace, ForwardSpace);
        if collision {
          flags[i, t] := true;
          break;
        }
      }
    }
  }
}
