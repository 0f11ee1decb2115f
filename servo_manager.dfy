/**
  The pan/tilt servo driver.  It owns the serial link to the servo board,
  remembers the angle last commanded on each axis (vertical = upper servo on
  channel 1, horizontal = bottom servo on channel 2) and refuses relative moves
  that would leave the travel [0, 180] before anything is written.

  The serial handle is abstracted to `connected` (the handle is set) and a
  ghost log `written` of the text sent over the link.  Every write is followed
  by the blocking acknowledgement read; the acknowledgement is taken to arrive.
 */
module ServoManagement {
  import opened AngleMapping
  import opened ServoProtocol

  /** What opening the serial port yields: an open port, an exception, or a port that is not open. */
  datatype PortOpening = Opened | OpenRaised | OpenedNotReady

  /** Home position taken on reset and after connecting. */
  const HomeVertical: int := 110
  const HomeHorizontal: int := 90

  /** Default move time in milliseconds. */
  const DefaultSpeed: int := 100

  /** Rejection message of a two-axis relative move. */
  const OverTravelMessage: string := "存在舵机超行程."
  const UpperMinPrefix: string := "上部舵机超行程,最小有效旋转角:0°,当前:"
  const UpperMaxPrefix: string := "上部舵机超行程,最大有效旋转角:180°,当前:"
  const BottomMinPrefix: string := "底部舵机超行程,最小有效旋转角:0°,当前:"
  const BottomMaxPrefix: string := "底部舵机超行程,最大有效旋转角:180°,当前:"

  /** Rejection message of a single-axis relative move that would reach `angle`. */
  function LimitMessage(prefix: string, angle: int): string {
    prefix + IntToDecimal(angle) + "°."
  }

  /** The frame sent by a reset: both servos to the home position. */
  function HomeFrame(speed: int): Frame {
    Dual(AngleToPulse(HomeVertical), AngleToPulse(HomeHorizontal), speed)
  }

  class ServoManager {
    /** The serial handle is set (and open). */
    var connected: bool
    /** Angle last commanded on the upper servo, channel 1. */
    var vertical: int
    /** Angle last commanded on the bottom servo, channel 2. */
    var horizontal: int
    /** Every frame written to the link, oldest first. */
    ghost var written: seq<string>

    constructor ()
      ensures !connected && vertical == 0 && horizontal == 0 && written == []
    {
      connected := false;
      vertical := 0;
      horizontal := 0;
      written := [];
    }

    /** Both remembered angles lie within the servo travel. */
    predicate AnglesInTravel()
      reads this
    {
      InTravel(vertical) && InTravel(horizontal)
    }

    /** A relative move by (xStep, yStep) from the current angles stays within the travel. */
    predicate CanMoveBy(xStep: int, yStep: int)
      reads this
    {
      InTravel(horizontal + xStep) && InTravel(vertical + yStep)
    }

    /**
      The state is what `MoveA(xStep, yStep, speed)` leaves when started from
      angles (v0, h0) and log `log0`: both axes moved and one two-channel frame
      written, or, when either target is outside the travel, nothing at all.
     */
    ghost predicate MovedByA(v0: int, h0: int, log0: seq<string>, xStep: int, yStep: int, speed: int)
      reads this
    {
      if InTravel(h0 + xStep) && InTravel(v0 + yStep) then
        && vertical == v0 + yStep
        && horizontal == h0 + xStep
        && written == log0 + [Render(Dual(AngleToPulse(v0 + yStep), AngleToPulse(h0 + xStep), speed))]
      else
        vertical == v0 && horizontal == h0 && written == log0
    }

    function GetVerticalServoAngle(): int
      reads this
    {
      vertical
    }

    function GetHorizontalServoAngle(): int
      reads this
    {
      horizontal
    }

    /** True only while the serial handle is set. */
    method IsAlive() returns (alive: bool)
      ensures alive <==> connected
    {
      if !connected {
        return false;
      }
      alive := true;
    }

    /** One transaction: write the frame, flush, and read the acknowledgement line. */
    method Transact(frame: Frame)
      requires connected
      modifies this`written
      ensures written == old(written) + [Render(frame)]
    {
      written := written + [Render(frame)];
    }

    /**
      Opens the link unless one is already held.  Returns None when already
      connected, Some(false) when the port could not be opened, and Some(true)
      after a successful open followed by the reset to the home position.
     */
    method ConnectSerial(opening: PortOpening) returns (result: Option<bool>)
      modifies this
      ensures old(connected) ==> result == None && unchanged(this)
      ensures !old(connected) && opening != Opened ==> result == Some(false) && unchanged(this)
      ensures !old(connected) && opening == Opened ==>
        && result == Some(true)
        && connected
        && vertical == HomeVertical && horizontal == HomeHorizontal
        && written == old(written) + [Render(HomeFrame(DefaultSpeed))]
    {
      if connected {
        return None;
      }
      match opening
      case OpenRaised =>
        result := Some(false);
      case OpenedNotReady =>
        // the handle is dropped again because the port does not report open
        result := Some(false);
      case Opened =>
        connected := true;
        var _ := ResetAllServos();
        result := Some(true);
    }

    /** Closes the link if one is held; the remembered angles are kept. */
    method DisconnectSerial()
      modifies this`connected
      ensures !connected
    {
      if connected {
        connected := false;
      }
    }

    /** Sends both servos home; refused, with nothing changed, when not connected. */
    method ResetAllServos() returns (ok: bool)
      modifies this`vertical, this`horizontal, this`written
      ensures ok == connected
      ensures ok ==> vertical == HomeVertical && horizontal == HomeHorizontal && AnglesInTravel()
      ensures ok ==> written == old(written) + [Render(HomeFrame(DefaultSpeed))]
      ensures !ok ==> unchanged(this)
    {
      if connected {
        MultiRotation(HomeVertical, HomeHorizontal);
        vertical := HomeVertical;
        horizontal := HomeHorizontal;
        return true;
      }
      return false;
    }

    /**
      Moves one servo to an absolute angle.  The pulse is computed from the
      clamped angle, but the angle is remembered as given.
     */
    method SingleRotation(servo: ServoEnum, angle: int, speed: int := DefaultSpeed)
      requires connected
      modifies this`vertical, this`horizontal, this`written
      ensures written == old(written) + [Render(Single(servo, AngleToPulse(angle), speed))]
      ensures servo == Horizontal ==> horizontal == angle && vertical == old(vertical)
      ensures servo == Vertical ==> vertical == angle && horizontal == old(horizontal)
    {
      Transact(Single(servo, AngleToPulse(angle), speed));
      if servo == Horizontal {
        horizontal := angle;
      } else {
        vertical := angle;
      }
    }

    /** Moves both servos to absolute angles in one frame; the angles are remembered as given. */
    method MultiRotation(angleV: int, angleH: int, speed: int := DefaultSpeed)
      requires connected
      modifies this`vertical, this`horizontal, this`written
      ensures written == old(written) + [Render(Dual(AngleToPulse(angleV), AngleToPulse(angleH), speed))]
      ensures vertical == angleV && horizontal == angleH
    {
      Transact(Dual(AngleToPulse(angleV), AngleToPulse(angleH), speed));
      vertical := angleV;
      horizontal := angleH;
    }

    /**
      Relative move of both axes, all or nothing: xStep on the horizontal
      servo, yStep on the vertical one.  A target outside [0, 180] on either
      axis is refused before anything is written.
     */
    method MoveA(xStep: int, yStep: int, speed: int := DefaultSpeed) returns (ok: bool, msg: string)
      requires connected || !CanMoveBy(xStep, yStep)
      modifies this`vertical, this`horizontal, this`written
      ensures ok <==> old(CanMoveBy(xStep, yStep))
      ensures MovedByA(old(vertical), old(horizontal), old(written), xStep, yStep, speed)
      ensures msg == if ok then "" else OverTravelMessage
      ensures ok ==> AnglesInTravel()
      ensures old(AnglesInTravel()) ==> AnglesInTravel()
    {
      var xAng := GetHorizontalServoAngle() + xStep;
      var yAng := GetVerticalServoAngle() + yStep;
      if xAng > MaxAngle || xAng < MinAngle || yAng > MaxAngle || yAng < MinAngle {
        return false, OverTravelMessage;
      }
      Transact(Dual(AngleToPulse(yAng), AngleToPulse(xAng), speed));
      vertical := yAng;
      horizontal := xAng;
      return true, "";
    }

    /** Tilts up by `step`; only the lower limit 0 is checked. */
    method MoveUp(step: int, speed: int := DefaultSpeed) returns (ok: bool, msg: string)
      requires connected || vertical - step < MinAngle
      modifies this`vertical, this`written
      ensures ok <==> old(vertical) - step >= MinAngle
      ensures ok ==> vertical == old(vertical) - step && msg == IntToDecimal(vertical)
      ensures ok ==> written == old(written) + [Render(Single(Vertical, AngleToPulse(vertical), speed))]
      ensures !ok ==> unchanged(this) && msg == LimitMessage(UpperMinPrefix, old(vertical) - step)
      ensures old(AnglesInTravel()) && step >= 0 ==> AnglesInTravel()
    {
      var ang := GetVerticalServoAngle() - step;
      if ang < MinAngle {
        return false, LimitMessage(UpperMinPrefix, ang);
      }
      Transact(Single(Vertical, AngleToPulse(ang), speed));
      vertical := ang;
      return true, IntToDecimal(vertical);
    }

    /** Tilts down by `step`; only the upper limit 180 is checked. */
    method MoveDown(step: int, speed: int := DefaultSpeed) returns (ok: bool, msg: string)
      requires connected || vertical + step > MaxAngle
      modifies this`vertical, this`written
      ensures ok <==> old(vertical) + step <= MaxAngle
      ensures ok ==> vertical == old(vertical) + step && msg == IntToDecimal(vertical)
      ensures ok ==> written == old(written) + [Render(Single(Vertical, AngleToPulse(vertical), speed))]
      ensures !ok ==> unchanged(this) && msg == LimitMessage(UpperMaxPrefix, old(vertical) + step)
      ensures old(AnglesInTravel()) && step >= 0 ==> AnglesInTravel()
    {
      var ang := GetVerticalServoAngle() + step;
      if ang > MaxAngle {
        return false, LimitMessage(UpperMaxPrefix, ang);
      }
      Transact(Single(Vertical, AngleToPulse(ang), speed));
      vertical := ang;
      return true, IntToDecimal(vertical);
    }

    /** Pans left by `step`; only the lower limit 0 is checked. */
    method MoveLeft(step: int, speed: int := DefaultSpeed) returns (ok: bool, msg: string)
      requires connected || horizontal - step < MinAngle
      modifies this`horizontal, this`written
      ensures ok <==> old(horizontal) - step >= MinAngle
      ensures ok ==> horizontal == old(horizontal) - step && msg == IntToDecimal(horizontal)
      ensures ok ==> written == old(written) + [Render(Single(Horizontal, AngleToPulse(horizontal), speed))]
      ensures !ok ==> unchanged(this) && msg == LimitMessage(BottomMinPrefix, old(horizontal) - step)
      ensures old(AnglesInTravel()) && step >= 0 ==> AnglesInTravel()
    {
      var ang := GetHorizontalServoAngle() - step;
      if ang < MinAngle {
        return false, LimitMessage(BottomMinPrefix, ang);
      }
      Transact(Single(Horizontal, AngleToPulse(ang), speed));
      horizontal := ang;
      return true, IntToDecimal(horizontal);
    }

    /** Pans right by `step`; only the upper limit 180 is checked. */
    method MoveRight(step: int, speed: int := DefaultSpeed) returns (ok: bool, msg: string)
      requires connected || horizontal + step > MaxAngle
      modifies this`horizontal, this`written
      ensures ok <==> old(horizontal) + step <= MaxAngle
      ensures ok ==> horizontal == old(horizontal) + step && msg == IntToDecimal(horizontal)
      ensures ok ==> written == old(written) + [Render(Single(Horizontal, AngleToPulse(horizontal), speed))]
      ensures !ok ==> unchanged(this) && msg == LimitMessage(BottomMaxPrefix, old(horizontal) + step)
      ensures old(AnglesInTravel()) && step >= 0 ==> AnglesInTravel()
    {
      var ang := GetHorizontalServoAngle() + step;
      if ang > MaxAngle {
        return false, LimitMessage(BottomMaxPrefix, ang);
      }
      Transact(Single(Horizontal, AngleToPulse(ang), speed));
      horizontal := ang;
      return true, IntToDecimal(horizontal);
    }

    /** Emergency stop of every servo; the remembered angles are not touched. */
    method Stop()
      requires connected
      modifies this`written
      ensures written == old(written) + [StopText]
    {
      Transact(ServoProtocol.Stop);
    }
  }

  /**
    Caller's view of the travel limits: a single-axis step beyond 180 and a
    two-axis step where only one axis would overflow are both refused with no
    state change, and connecting twice keeps the existing link.  The
    single-axis moves check one side only: a negative step upward from home
    is accepted and leaves the tilt servo out of travel.
   */
  method TravelLimitScenario()
  {
    var m := new ServoManager();
    var connected := m.ConnectSerial(Opened);
    assert connected == Some(true) && m.vertical == 110 && m.horizontal == 90;
    var ok, msg := m.MoveRight(1000);
    assert !ok && m.horizontal == 90 && m.vertical == 110;
    ok, msg := m.MoveUp(-200);
    assert ok && m.vertical == 310 && !m.AnglesInTravel();
    m.MultiRotation(10, 170);
    ok, msg := m.MoveA(20, -5);
    assert !ok && m.horizontal == 170 && m.vertical == 10;
    var again := m.ConnectSerial(Opened);
    assert again == None && m.connected && m.horizontal == 170;
    m.DisconnectSerial();
    var alive := m.IsAlive();
    assert !alive && m.horizontal == 170 && m.vertical == 10;
  }
}
