/**
  Tracking strategy one: a quantized step law.  The target's offset from the
  frame centre is bucketed, per axis, into a 40-pixel dead zone and five tiers
  by fifths of the half frame; each tier has a fixed step (pan 1, 5, 7, 9, 15
  degrees, tilt the same scaled by 0.5625 and truncated, except the first).
  The signed steps go to one two-axis relative move.

  The target point is the centre of a detection box whose corners are
  floating-point detector outputs, so its coordinates are reals; the frame
  sizes are whole pixels.  The
  source compares against `w / 2 * k / 5` in floating point; here the
  comparison is the exact rational one, `10 * |offset| <= k * w`.
 */
module TrackingPlot1 {
  import opened ServoProtocol
  import opened ServoManagement

  /** Dead zone, in pixels, on both axes. */
  const Threshold: int := 40

  /** Pan step of each tier; the tilt steps are derived from it. */
  const Nums: seq<int> := [1, 5, 7, 9, 15]

  function Abs(x: real): real {
    if x < 0.0 then -x else x
  }

  function Sign(x: real): int {
    if x > 0.0 then 1 else if x < 0.0 then -1 else 0
  }

  /** `int(size / 2)`: half the size, truncated toward zero. */
  function HalfSize(size: int): (c: int)
    ensures 0 <= size ==> 0 <= 2 * c <= size <= 2 * c + 1
    ensures size < 0 ==> 2 * c - 1 <= size <= 2 * c <= 0
  {
    if size >= 0 then size / 2 else -((-size) / 2)
  }

  /** Offset of a target coordinate from the centre of a frame of the given size. */
  function Offset(p: real, size: int): real {
    p - HalfSize(size) as real
  }

  /**
    The tier of a distance `a` from the centre in a frame of the given size,
    as the source's if/elif chain selects it: 0 in the dead zone, then 1 to 5.
   */
  function Tier(a: real, size: int): (t: int)
    ensures 0 <= t <= 5
    ensures t == 0 <==> a <= Threshold as real
  {
    var s := size as real;
    if a <= Threshold as real then 0
    else if Threshold as real < a && 10.0 * a <= s then 1
    else if s < 10.0 * a && 10.0 * a <= 2.0 * s then 2
    else if 2.0 * s < 10.0 * a && 10.0 * a <= 3.0 * s then 3
    else if 3.0 * s < 10.0 * a && 10.0 * a <= 4.0 * s then 4
    else 5
  }

  /**
    Reference reading of the tiers: outside the dead zone, the first k in
    1..4 whose bound `k * size / 10` is not exceeded, or 5 when none is.
   */
  function FirstTierFrom(a: real, size: int, k: int): (t: int)
    requires 1 <= k <= 5
    ensures k <= t <= 5
    decreases 5 - k
  {
    if k == 5 || 10.0 * a <= (k * size) as real then k else FirstTierFrom(a, size, k + 1)
  }

  /** The if/elif chain selects the first tier bound the distance does not exceed. */
  lemma TierIsFirstBound(a: real, size: int)
    requires a > Threshold as real
    ensures Tier(a, size) == FirstTierFrom(a, size, 1)
  {
  }

  /** A larger distance never falls in a lower tier. */
  lemma TierMonotone(a: real, b: real, size: int)
    requires a <= b
    ensures Tier(a, size) <= Tier(b, size)
  {
  }

  /** `int(n * 0.5625)` for a non-negative step: 0.5625 is exactly 9/16. */
  function TiltScale(n: int): int
    requires n >= 0
  {
    (n * 9) / 16
  }

  /** Magnitude of the pan step for a horizontal offset in a frame of width w. */
  function PanStep(dif: real, w: int): (s: int)
    ensures s in {0, 1, 5, 7, 9, 15}
    ensures s == 0 <==> Abs(dif) <= Threshold as real
  {
    var t := Tier(Abs(dif), w);
    if t == 0 then 0 else Nums[t - 1]
  }

  /** Magnitude of the tilt step for a vertical offset in a frame of height h. */
  function TiltStep(dif: real, h: int): (s: int)
    ensures s in {0, 1, 2, 3, 5, 8}
    ensures s == 0 <==> Abs(dif) <= Threshold as real
  {
    var t := Tier(Abs(dif), h);
    if t == 0 then 0
    else if t == 1 then Nums[0]
    else TiltScale(Nums[t - 1])
  }

  /** The tier's pan step, and the tilt step of the same tier. */
  lemma StepsOfTier(dif: real, size: int)
    ensures var t := Tier(Abs(dif), size);
      && PanStep(dif, size) == [0, 1, 5, 7, 9, 15][t]
      && TiltStep(dif, size) == [0, 1, 2, 3, 5, 8][t]
  {
    var t := Tier(Abs(dif), size);
    if t >= 2 {
      assert TiltScale(Nums[t - 1]) == [2, 3, 5, 8][t - 2];
    }
  }

  /** For a fixed frame size both step magnitudes grow with the distance from the centre. */
  lemma StepsMonotone(d1: real, d2: real, size: int)
    requires Abs(d1) <= Abs(d2)
    ensures PanStep(d1, size) <= PanStep(d2, size)
    ensures TiltStep(d1, size) <= TiltStep(d2, size)
  {
    TierMonotone(Abs(d1), Abs(d2), size);
    StepsOfTier(d1, size);
    StepsOfTier(d2, size);
  }

  /**
    The relative move (pan step, tilt step) strategy one asks for, or None
    when no move is issued: the signed steps when both offsets are non-zero.
   */
  function Plot1Move(x: real, y: real, w: int, h: int): (move: Option<(int, int)>)
    ensures move.None? <==> Offset(x, w) == 0.0 || Offset(y, h) == 0.0
    ensures move.Some? ==> Abs(move.value.0 as real) == PanStep(Offset(x, w), w) as real
    ensures move.Some? ==> (move.value.0 as real) * Offset(x, w) >= 0.0
    ensures move.Some? ==> Abs(move.value.1 as real) == TiltStep(Offset(y, h), h) as real
    ensures move.Some? ==> (move.value.1 as real) * Offset(y, h) >= 0.0
    ensures move.Some? ==> -15 <= move.value.0 <= 15 && -8 <= move.value.1 <= 8
    ensures move.Some? ==> (move.value.0 == 0 <==> Abs(Offset(x, w)) <= Threshold as real)
    ensures move.Some? ==> (move.value.1 == 0 <==> Abs(Offset(y, h)) <= Threshold as real)
  {
    var dx, dy := Offset(x, w), Offset(y, h);
    if dx == 0.0 || dy == 0.0 then None
    else Some((Sign(dx) * PanStep(dx, w), Sign(dy) * TiltStep(dy, h)))
  }

  /** Precondition of the source: a move that the manager would write needs a link. */
  predicate Plot1Admissible(x: real, y: real, w: int, h: int, servo: ServoManager)
    reads servo
  {
    var move := Plot1Move(x, y, w, h);
    servo.connected || move.None? || !servo.CanMoveBy(move.value.0, move.value.1)
  }

  /**
    One invocation of strategy one for target (x, y) in a w-by-h frame: at
    most one two-axis relative move, whose refusal is not reported.
   */
  method TranckingPlot1(x: real, y: real, w: int, h: int, servo: ServoManager)
    requires Plot1Admissible(x, y, w, h, servo)
    modifies servo`vertical, servo`horizontal, servo`written
    ensures Plot1Move(x, y, w, h).None? ==> unchanged(servo)
    ensures Plot1Move(x, y, w, h).Some? ==>
      var move := Plot1Move(x, y, w, h).value;
      servo.MovedByA(old(servo.vertical), old(servo.horizontal), old(servo.written), move.0, move.1, DefaultSpeed)
  {
    var centerX := HalfSize(w);
    var centerY := HalfSize(h);
    var difX := x - centerX as real;
    var difY := y - centerY as real;
    var xStep := PanStep(difX, w);
    var yStep := TiltStep(difY, h);
    if difX > 0.0 && difY > 0.0 {
      var _, _ := servo.MoveA(xStep, yStep);
    } else if difX < 0.0 && difY > 0.0 {
      var _, _ := servo.MoveA(-xStep, yStep);
    } else if difX > 0.0 && difY < 0.0 {
      var _, _ := servo.MoveA(xStep, -yStep);
    } else if difX < 0.0 && difY < 0.0 {
      var _, _ := servo.MoveA(-xStep, -yStep);
    }
  }

  /**
    Worked examples in a 1280-by-720 frame: 300 px off centre is tier 3,
    600 px tier 5; any distance past the dead zone, such as 40.5 px, is
    already tier 1, and a fractional offset such as 0.5 px still issues a
    (zero) move.
   */
  lemma Plot1WorkedExamples()
    ensures PanStep(300.0, 1280) == 7 && PanStep(-300.0, 1280) == 7
    ensures PanStep(600.0, 1280) == 15
    ensures PanStep(30.0, 1280) == 0 && TiltStep(30.0, 720) == 0
    ensures TiltStep(200.0, 720) == 3 && TiltStep(300.0, 720) == 8
    ensures PanStep(40.5, 1280) == 1 && PanStep(40.0, 1280) == 0
    ensures Plot1Move(640.5, 400.0, 1280, 720) == Some((0, 0))
    ensures Plot1Move(640.0, 600.5, 1280, 720) == None
  {
  }
}
