/**
 * Which objects the prompt builder describes and reasons about: both the
 * listing (prompt_message.py, lines 75-78) and the collision scan (lines
 * 222-225) drop an object that stays behind the ego or strays beyond the
 * perception range.
 */
module Relevance {
  import opened Scene

  /** The default `perception_range`, in metres. */
  const PerceptionRange := 20.0

  /** Every point at or behind the ego (y <= 0). */
  predicate AlwaysBehind(ps: seq<Point>)
  {
    forall k | 0 <= k < |ps| :: ps[k].y <= 0.0
  }

  /** Some coordinate of some point beyond the range in absolute value. */
  predicate OutOfRange(ps: seq<Point>, range: real)
  {
    exists k | 0 <= k < |ps| :: Abs(ps[k].x) > range || Abs(ps[k].y) > range
  }

  /** The listing's test (lines 75-78), on the future positions and the box apart. */
  predicate SkippedInListing(a: Agent, range: real)
  {
    var future := FuturePositions(a);
    || (AlwaysBehind(future) && a.box.y <= 0.0)
    || OutOfRange(future, range)
    || Abs(a.box.x) > range || Abs(a.box.y) > range
  }

  /** The collision scan's test (lines 222-225), on the 7-point path. */
  predicate SkippedInReasoning(a: Agent, range: real)
  {
    AlwaysBehind(Path(a)) || OutOfRange(Path(a), range)
  }

  /** The two filters drop exactly the same objects. */
  lemma FiltersAgree(a: Agent, range: real)
    ensures SkippedInListing(a, range) <==> SkippedInReasoning(a, range)
  {
    var future := FuturePositions(a);
    var path := Path(a);
    assert AlwaysBehind(path) <==> AlwaysBehind(future) && a.box.y <= 0.0 by {
      if AlwaysBehind(future) && a.box.y <= 0.0 {
        forall k | 0 <= k < |path| ensures path[k].y <= 0.0 {
          if k > 0 { assert path[k] == future[k - 1]; }
        }
      }
      if AlwaysBehind(path) {
        assert path[0].y <= 0.0;
        forall k | 0 <= k < |future| ensures future[k].y <= 0.0 {
          assert path[k + 1] == future[k];
        }
      }
    }
    assert OutOfRange(path, range)
       <==> OutOfRange(future, range) || Abs(a.box.x) > range || Abs(a.box.y) > range by {
      if OutOfRange(path, range) {
        var k :| 0 <= k < |path| && (Abs(path[k].x) > range || Abs(path[k].y) > range);
        if k > 0 { assert path[k] == future[k - 1]; }
      }
      if OutOfRange(future, range) {
        var k :| 0 <= k < |future| && (Abs(future[k].x) > range || Abs(future[k].y) > range);
        assert path[k + 1] == future[k];
      }
    }
  }

  /**
   * What an object that survives is known to satisfy: some point of its path
   * is ahead of the ego, and every coordinate of it is within range.
   */
  lemma SurvivorIsAheadAndInRange(a: Agent, range: real)
    requires !SkippedInReasoning(a, range)
    ensures exists k | 0 <= k < |Path(a)| :: Path(a)[k].y > 0.0
    ensures forall k | 0 <= k < |Path(a)| :: Abs(Path(a)[k].x) <= range && Abs(Path(a)[k].y) <= range
  {
  }
}
