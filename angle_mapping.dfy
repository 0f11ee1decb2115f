/**
  Translation of a servo angle (degrees) into the pulse value of the servo
  board's protocol: the angle is clamped to [0, 180] and mapped linearly onto
  [500, 2500].  The source computes the slope 2000/180 in floating point and
  truncates; for integer angles that value is exactly the floor computed here.
 */
module AngleMapping {

  const MinAngle: int := 0
  const MaxAngle: int := 180
  const MinPulse: int := 500
  const MaxPulse: int := 2500

  /** True when an angle lies within the mechanical travel of a servo. */
  predicate InTravel(angle: int) {
    MinAngle <= angle <= MaxAngle
  }

  /** `max(min(angle, 180), 0)`: the angle brought into the servo's travel. */
  function Clamp(angle: int): (c: int)
    ensures InTravel(c)
    ensures InTravel(angle) ==> c == angle
    ensures angle < MinAngle ==> c == MinAngle
    ensures angle > MaxAngle ==> c == MaxAngle
  {
    if angle > MaxAngle then MaxAngle
    else if angle < MinAngle then MinAngle
    else angle
  }

  /** The pulse value sent for `angle`: `int(slope * clamp(angle) + intercept)`. */
  function AngleToPulse(angle: int): (pulse: int)
    ensures MinPulse <= pulse <= MaxPulse
    ensures angle <= MinAngle ==> pulse == MinPulse
    ensures angle >= MaxAngle ==> pulse == MaxPulse
  {
    var c := Clamp(angle);
    ScaledBounds(c);
    MinPulse + ((MaxPulse - MinPulse) * c) / (MaxAngle - MinAngle)
  }

  /** The scaled offset of a clamped angle lies within the pulse span. */
  lemma ScaledBounds(c: int)
    requires InTravel(c)
    ensures 0 <= (2000 * c) / 180 <= 2000
    ensures c == 0 ==> (2000 * c) / 180 == 0
    ensures c == 180 ==> (2000 * c) / 180 == 2000
  {
    assert 0 <= 2000 * c <= 2000 * 180;
  }

  /**
    Decodes a pulse value back into degrees: the least angle whose pulse is at
    least `pulse`, that is `ceil(9 * (pulse - 500) / 100)`.
   */
  function PulseToAngle(pulse: int): (angle: int)
    requires MinPulse <= pulse <= MaxPulse
    ensures InTravel(angle)
  {
    (9 * (pulse - MinPulse) + 99) / 100
  }

  /** Characterises the floor division in AngleToPulse on a clamped angle. */
  lemma PulseOffsetBounds(c: int)
    requires InTravel(c)
    ensures var q := AngleToPulse(c) - MinPulse;
      9 * q <= 100 * c < 9 * q + 9
  {
    var q := (2000 * c) / 180;
    assert AngleToPulse(c) - MinPulse == q;
    assert 180 * q <= 2000 * c < 180 * q + 180;
  }

  /** Decoding the pulse of an angle gives back the angle after clamping. */
  lemma PulseRoundTrip(angle: int)
    ensures PulseToAngle(AngleToPulse(angle)) == Clamp(angle)
  {
    var c := Clamp(angle);
    assert AngleToPulse(angle) == AngleToPulse(c);
    PulseOffsetBounds(c);
    var q := AngleToPulse(c) - MinPulse;
    // 100 * c - 9 < 9 * q <= 100 * c, so 9 * q + 99 lies in (100 * c + 90, 100 * c + 99].
    assert 100 * c <= 9 * q + 99 < 100 * c + 100;
    assert (9 * q + 99) / 100 == c;
  }

  /** The mapping never decreases as the angle grows, clamped or not. */
  lemma AngleToPulseMonotone(a: int, b: int)
    requires a <= b
    ensures AngleToPulse(a) <= AngleToPulse(b)
  {
    var ca, cb := Clamp(a), Clamp(b);
    assert ca <= cb;
    assert 2000 * ca <= 2000 * cb;
  }

  /** Within the travel, distinct angles give distinct pulses, in the same order. */
  lemma AngleToPulseStrictlyIncreasing(a: int, b: int)
    requires InTravel(a) && InTravel(b) && a < b
    ensures AngleToPulse(a) < AngleToPulse(b)
  {
    PulseOffsetBounds(a);
    PulseOffsetBounds(b);
  }

  /** The three calibration points of the mapping: 0, 90 and 180 degrees. */
  lemma CalibrationPoints()
    ensures AngleToPulse(0) == 500
    ensures AngleToPulse(90) == 1500
    ensures AngleToPulse(180) == 2500
  {
    assert (2000 * 90) / 180 == 1000;
  }
}
