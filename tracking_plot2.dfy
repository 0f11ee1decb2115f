/**
  Tracking strategy two: the target's angular offset from the optical axis,
  one whole-degree angle per axis, is commanded directly as a relative move,
  with a 5-degree dead zone on each axis.  The geometric back-projection that
  produces the two angles is a parameter of the model.
 */
module TrackingPlot2 {
  import opened ServoManagement

  /** Dead zone, in degrees, on both axes. */
  const AngleThreshold: int := 5

  function Abs(x: int): int {
    if x < 0 then -x else x
  }

  /** The step commanded on one axis: zero inside the dead zone, the angle itself outside. */
  function DeadZone(angle: int): (step: int)
    ensures step == 0 || step == angle
    ensures step == angle <==> Abs(angle) >= AngleThreshold || angle == 0
  {
    if Abs(angle) < AngleThreshold then 0 else angle
  }

  /**
    The relative move the source's four-way branch asks for: each axis is
    decided on its own angle alone.
   */
  function Plot2Move(angleX: int, angleY: int): (move: (int, int))
    ensures move == (DeadZone(angleX), DeadZone(angleY))
  {
    if Abs(angleX) >= AngleThreshold && Abs(angleY) >= AngleThreshold then (angleX, angleY)
    else if Abs(angleX) >= AngleThreshold && Abs(angleY) < AngleThreshold then (angleX, 0)
    else if Abs(angleX) < AngleThreshold && Abs(angleY) >= AngleThreshold then (0, angleY)
    else (0, 0)
  }

  /** The pan step does not depend on the tilt angle, nor the tilt step on the pan angle. */
  lemma AxesIndependent(angleX: int, angleY: int, otherX: int, otherY: int)
    ensures Plot2Move(angleX, angleY).0 == Plot2Move(angleX, otherY).0
    ensures Plot2Move(angleX, angleY).1 == Plot2Move(otherX, angleY).1
  {
  }

  /** Precondition of the source: a move that the manager would write needs a link. */
  predicate Plot2Admissible(angles: (int, int), servo: ServoManager)
    reads servo
  {
    var move := Plot2Move(angles.0, angles.1);
    servo.connected || !servo.CanMoveBy(move.0, move.1)
  }

  /**
    One invocation of strategy two for target (x, y), the real-valued centre
    of a detection box: `calculateAngle` maps the point to the whole-degree
    angles (horizontal, vertical), and exactly one two-axis relative move is
    then requested, (0, 0) included.
   */
  method TranckingPlot2(x: real, y: real, w: int, h: int,
                        calculateAngle: (real, real) -> (int, int), servo: ServoManager)
    requires Plot2Admissible(calculateAngle(x, y), servo)
    modifies servo`vertical, servo`horizontal, servo`written
    ensures var move := Plot2Move(calculateAngle(x, y).0, calculateAngle(x, y).1);
      servo.MovedByA(old(servo.vertical), old(servo.horizontal), old(servo.written), move.0, move.1, DefaultSpeed)
  {
    var th := AngleThreshold;
    var angles := calculateAngle(x, y);
    var angleX, angleY := angles.0, angles.1;
    if Abs(angleX) >= th && Abs(angleY) >= th {
      var _, _ := servo.MoveA(angleX, angleY);
    } else if Abs(angleX) >= th && Abs(angleY) < th {
      var _, _ := servo.MoveA(angleX, 0);
    } else if Abs(angleX) < th && Abs(angleY) >= th {
      var _, _ := servo.MoveA(0, angleY);
    } else if Abs(angleX) < th && Abs(angleY) < th {
      var _, _ := servo.MoveA(0, 0);
    }
  }
}
