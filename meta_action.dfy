/**
 * The rule-based meta action (prompt_message.py, lines 270-353): a speed
 * class from the current and final step lengths, a lateral behaviour from the
 * future lateral offsets, and their upper-cased description.
 */
module MetaAction {
  import opened Wrappers
  import opened Strings
  import opened Scene

  /** `constant_eps`: speeds below it count as standing, differences below it as constant. */
  const ConstantEps := 0.5

  /** `forward_th`: lateral offsets below it in absolute value count as going straight. */
  const ForwardThreshold := 2.0

  /** `lane_changing_th`: a final lateral offset beyond it is a turn, not a lane change. */
  const LaneChangeThreshold := 4.0

  datatype Speed =
    | Stop
    | DecelerationToZero
    | ConstantSpeed
    | QuickDeceleration
    | Deceleration
    | QuickAcceleration
    | Acceleration

  /**
   * The speed class of lines 279-299 from the current speed `cur` (the last
   * history step's length) and the final speed `end` (the last future step's
   * length). Each class is the region of (cur, end) it covers.
   */
  function SpeedClass(cur: real, end: real): (r: Speed)
    ensures r == Stop <==> cur < ConstantEps && end < ConstantEps
    ensures r == DecelerationToZero <==> cur >= ConstantEps && end < ConstantEps
    ensures r == ConstantSpeed <==> end >= ConstantEps && Abs(end - cur) < ConstantEps
    ensures r == QuickDeceleration
        <==> end >= ConstantEps && end + ConstantEps <= cur && cur > 2.0 * end
    ensures r == Deceleration
        <==> end >= ConstantEps && end + ConstantEps <= cur && cur <= 2.0 * end
    ensures r == QuickAcceleration
        <==> end >= ConstantEps && cur + ConstantEps <= end && end > 2.0 * cur
    ensures r == Acceleration
        <==> end >= ConstantEps && cur + ConstantEps <= end && end <= 2.0 * cur
  {
    if cur < ConstantEps && end < ConstantEps then Stop
    else if end < ConstantEps then DecelerationToZero
    else if Abs(end - cur) < ConstantEps then ConstantSpeed
    else if cur > end then
      (if cur > 2.0 * end then QuickDeceleration else Deceleration)
    else
      (if end > 2.0 * cur then QuickAcceleration else Acceleration)
  }

  /** The words of each speed class. */
  function SpeedText(s: Speed): string
  {
    match s
    case Stop => "stop"
    case DecelerationToZero => "a deceleration to zero"
    case ConstantSpeed => "a constant speed"
    case QuickDeceleration => "a quick deceleration"
    case Deceleration => "a deceleration"
    case QuickAcceleration => "a quick acceleration"
    case Acceleration => "an acceleration"
  }

  predicate Slowing(s: Speed)
  {
    s == DecelerationToZero || s == QuickDeceleration || s == Deceleration
  }

  predicate Speeding(s: Speed)
  {
    s == QuickAcceleration || s == Acceleration
  }

  /**
   * What the speed classes mean physically: a slowing class loses at least
   * the threshold, an accelerating one gains at least the threshold, a
   * constant one changes by less.
   */
  lemma SpeedClassMeaning(cur: real, end: real)
    ensures Slowing(SpeedClass(cur, end)) ==> end < cur
    ensures Slowing(SpeedClass(cur, end)) && end >= ConstantEps ==> end + ConstantEps <= cur
    ensures Speeding(SpeedClass(cur, end)) ==> cur + ConstantEps <= end
    ensures SpeedClass(cur, end) == ConstantSpeed ==> Abs(end - cur) < ConstantEps
  {
  }

  datatype Behavior = MoveForward | TurnLeft | ChangeLaneLeft | TurnRight | ChangeLaneRight

  /** The words of each lateral behaviour, spelled as the source spells them. */
  function BehaviorText(b: Behavior): string
  {
    match b
    case MoveForward => "move forward"
    case TurnLeft => "turn left"
    case ChangeLaneLeft => "chane lane to left"
    case TurnRight => "turn right"
    case ChangeLaneRight => "change lane to right"
  }

  /** Every future lateral offset below the straight-ahead threshold. */
  predicate Straight(fut: seq<Point>)
  {
    forall k | 0 <= k < |fut| :: Abs(fut[k].x) < ForwardThreshold
  }

  /**
   * The lateral behaviour of lines 305-323 from the future positions: straight
   * when every lateral offset is small, otherwise decided by the final
   * offset's side and size; a final offset of exactly zero is the source's
   * ValueError.
   */
  function Lateral(fut: seq<Point>): (r: Result<Behavior, Fault>)
    requires |fut| > 0
    ensures r == Success(MoveForward) <==> Straight(fut)
    ensures r == Success(TurnLeft) <==> fut[|fut| - 1].x < -LaneChangeThreshold
    ensures r == Success(ChangeLaneLeft)
        <==> !Straight(fut) && -LaneChangeThreshold <= fut[|fut| - 1].x < 0.0
    ensures r == Success(TurnRight) <==> fut[|fut| - 1].x > LaneChangeThreshold
    ensures r == Success(ChangeLaneRight)
        <==> !Straight(fut) && 0.0 < fut[|fut| - 1].x <= LaneChangeThreshold
    ensures r.Failure? <==> !Straight(fut) && fut[|fut| - 1].x == 0.0
    ensures r.Failure? ==> r.error == UndefinedBehaviors
  {
    var last := fut[|fut| - 1].x;
    if Straight(fut) then Success(MoveForward)
    else if last < 0.0 then
      Success(if Abs(last) > LaneChangeThreshold then TurnLeft else ChangeLaneLeft)
    else if last > 0.0 then
      Success(if Abs(last) > LaneChangeThreshold then TurnRight else ChangeLaneRight)
    else Failure(UndefinedBehaviors)
  }

  /** A position reflected across the heading axis. */
  function Mirror(p: Point): Point
  {
    Point(-p.x, p.y)
  }

  function MirrorAll(fut: seq<Point>): (r: seq<Point>)
    ensures |r| == |fut|
    ensures forall k | 0 <= k < |fut| :: r[k] == Mirror(fut[k])
  {
    seq(|fut|, k requires 0 <= k < |fut| => Mirror(fut[k]))
  }

  /** The behaviour of the reflected manoeuvre. */
  function MirrorBehavior(b: Behavior): Behavior
  {
    match b
    case MoveForward => MoveForward
    case TurnLeft => TurnRight
    case ChangeLaneLeft => ChangeLaneRight
    case TurnRight => TurnLeft
    case ChangeLaneRight => ChangeLaneLeft
  }

  /**
   * The lateral rules are symmetric: reflecting the future path left for
   * right reflects the behaviour, and keeps the undefined case undefined.
   */
  lemma LateralMirror(fut: seq<Point>)
    requires |fut| > 0
    ensures Lateral(MirrorAll(fut)).Failure? <==> Lateral(fut).Failure?
    ensures Lateral(fut).Success? ==>
      Lateral(MirrorAll(fut)) == Success(MirrorBehavior(Lateral(fut).value))
  {
    var m := MirrorAll(fut);
    assert Straight(m) <==> Straight(fut) by {
      assert forall k | 0 <= k < |fut| :: Abs(m[k].x) == Abs(fut[k].x);
    }
  }

  /**
   * The meta action of the whole of lines 270-353: "STOP\n" for a stop,
   * whatever the future path; otherwise the behaviour and the speed class,
   * upper-cased; the lateral rule's error otherwise propagates.
   */
  function MetaActionText(cur: real, end: real, fut: seq<Point>): (r: Result<string, Fault>)
    requires |fut| > 0
    ensures SpeedClass(cur, end) == Stop ==> r == Success("STOP\n")
    ensures r.Failure? <==> SpeedClass(cur, end) != Stop && Lateral(fut).Failure?
    ensures r.Success? ==> Uppercased(r.value) && |r.value| > 0 && r.value[|r.value| - 1] == '\n'
  {
    var speed := SpeedClass(cur, end);
    if speed == Stop then
      assert SpeedText(speed) + "\n" == "stop\n";
      UpperStop();
      Success(Upper(SpeedText(speed) + "\n"))
    else
      match Lateral(fut)
      case Failure(e) => Failure(e)
      case Success(b) =>
        var text := BehaviorText(b) + " with " + SpeedText(speed) + "\n";
        UpperLast(text);
        Success(Upper(text))
  }

  lemma UpperStop()
    ensures Upper("stop\n") == "STOP\n"
  {
    assert "stop\n"[1..] == "top\n";
    assert "top\n"[1..] == "op\n";
    assert "op\n"[1..] == "p\n";
    assert "p\n"[1..] == "\n";
  }

  /** Upper-casing keeps a final newline. */
  lemma UpperLast(s: string)
    requires |s| > 0 && s[|s| - 1] == '\n'
    ensures Upper(s)[|s| - 1] == '\n'
  {
    UpperAppend(s[..|s| - 1], s[|s| - 1..]);
    assert s == s[..|s| - 1] + s[|s| - 1..];
  }

  /** Upper-casing the joined text upper-cases each part and keeps the joiner's spaces. */
  lemma UpperWithJoin(b: string, s: string)
    ensures Upper(b + " with " + s + "\n") == Upper(b) + " WITH " + Upper(s) + "\n"
  {
    UpperAppend(b + " with " + s, "\n");
    UpperAppend(b + " with ", s);
    UpperAppend(b, " with ");
    assert Upper(" with ") == " WITH " by {
      assert " with "[1..] == "with ";
      assert "with "[1..] == "ith ";
      assert "ith "[1..] == "th ";
      assert "th "[1..] == "h ";
      assert "h "[1..] == " ";
    }
    assert Upper("\n") == "\n";
  }

  /**
   * The non-stop text is the behaviour, " WITH ", and the speed class, each
   * upper-cased, then a newline.
   */
  lemma MetaActionParts(cur: real, end: real, fut: seq<Point>)
    requires |fut| > 0 && SpeedClass(cur, end) != Stop && Lateral(fut).Success?
    ensures MetaActionText(cur, end, fut)
         == Success(Upper(BehaviorText(Lateral(fut).value)) + " WITH "
                    + Upper(SpeedText(SpeedClass(cur, end))) + "\n")
  {
    UpperWithJoin(BehaviorText(Lateral(fut).value), SpeedText(SpeedClass(cur, end)));
  }

  /** A path that stays within the straight-ahead band is never undefined. */
  lemma StraightIsDefined(cur: real, end: real, fut: seq<Point>)
    requires |fut| > 0 && Straight(fut)
    ensures MetaActionText(cur, end, fut).Success?
  {
  }
}
