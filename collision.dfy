/**
 * The forward-proximity test (prompt_message.py, lines 264-268): an object
 * is a hazard when it is strictly ahead of the ego and both its lateral and
 * its forward gap are below the two footprints plus a safety margin.
 */
module Collision {
  import opened Scene

  /** `x_space`: the default lateral safety margin. */
  const LateralSpace := 1.0

  /** `y_space`: the default forward safety margin. */
  const ForwardSpace := 3.0

  /**
   * `collision_detection`: ego at (x1, y1) with half-sizes (sx1, sy1), the
   * object at (x2, y2) with half-sizes (sx2, sy2). The object's centre must lie
   * in the open box ahead of the ego, as wide as both half-widths plus the
   * lateral margin on each side and as deep as both half-lengths plus the
   * forward margin.
   */
  function Detect(
    x1: real, y1: real, sx1: real, sy1: real,
    x2: real, y2: real, sx2: real, sy2: real,
    xSpace: real, ySpace: real): (r: bool)
    ensures r <==> && x1 - (sx1 + sx2 + xSpace) < x2 < x1 + (sx1 + sx2 + xSpace)
                   && y1 < y2 < y1 + (sy1 + sy2 + ySpace)
  {
    Abs(x1 - x2) < sx1 + sx2 + xSpace && y2 > y1 && y2 - y1 < sy1 + sy2 + ySpace
  }

  /**
   * Only the offset of the object from the ego matters: moving both by the
   * same vector, or putting the ego at the origin, leaves the verdict alone.
   */
  lemma DetectTranslationInvariant(
    x1: real, y1: real, sx1: real, sy1: real,
    x2: real, y2: real, sx2: real, sy2: real,
    xSpace: real, ySpace: real, dx: real, dy: real)
    ensures Detect(x1 + dx, y1 + dy, sx1, sy1, x2 + dx, y2 + dy, sx2, sy2, xSpace, ySpace)
         == Detect(x1, y1, sx1, sy1, x2, y2, sx2, sy2, xSpace, ySpace)
    ensures Detect(x1, y1, sx1, sy1, x2, y2, sx2, sy2, xSpace, ySpace)
         == Detect(0.0, 0.0, sx1, sy1, x2 - x1, y2 - y1, sx2, sy2, xSpace, ySpace)
  {
  }

  /** An object level with or behind the ego is never a hazard, however close. */
  lemma DetectRequiresAhead(
    x1: real, y1: real, sx1: real, sy1: real,
    x2: real, y2: real, sx2: real, sy2: real,
    xSpace: real, ySpace: real)
    requires y2 <= y1
    ensures !Detect(x1, y1, sx1, sy1, x2, y2, sx2, sy2, xSpace, ySpace)
  {
  }
}
