# FaceTracker pan/tilt core in Dafny

This project models the control core of FaceTracker. FaceTracker keeps a detected face centred in a camera frame by driving two hobby servos: the upper servo tilts ("vertical", board channel S1) and the bottom servo pans ("horizontal", board channel S2). The model has five modules:

- `AngleMapping` (`angle_mapping.dfy`) models `ServoManager._angler2Value`. The angle is clamped to [0, 180] and mapped linearly onto the pulse range [500, 2500]. The source computes the slope 2000/180 in floating point and truncates the result. For every integer angle this equals the integer floor `500 + (2000 * clamp(a)) / 180`. The double nearest 2000/180 lies just below 100/9, by 1/(9 * 2^48). When c = clamp(a) is a multiple of 9, the product falls short of the integer 100c/9 by at most 20 * 2^-48. That is less than half a unit in the last place at that magnitude, so it rounds back to the integer exactly, and adding 500.0 is exact. Otherwise the exact fractional part of 100c/9 is at least 1/9, far larger than any rounding error, so truncation gives the same integer. A decoder `PulseToAngle` is the exact inverse on [0, 180].
- `ServoProtocol` (`servo_protocol.dfy`) models the servo board's ASCII frames: `#<ch>P<pulse>T<time>\r\n`, `#1P<v>#2P<h>T<time>\r\n` and `#STOP\r\n`. Numbers are written as Python's `str.format` writes an `int`. `Parse` is the board's reading of a line. The lemma `ParseRender` proves that every frame is read back as exactly the command it encodes, so distinct commands never share a text.
- `ServoManagement` (`servo_manager.dfy`) models the class `ServoManager`. It holds:
  - `connected`: the serial handle is set;
  - `vertical` and `horizontal`: the remembered angles;
  - a ghost log `written`: the text sent over the link.

  Each write plus its acknowledgement read (`_waitRead`) is one call of `Transact`. The acknowledgement is taken to arrive. Python's `assert isinstance(self.serial, serial.Serial)` becomes a precondition: a link is required on every path that writes. The relative moves check travel before that assert, so their precondition is "connected, or the move will be refused". The outcome of opening the port is a parameter (`PortOpening`).
- `TrackingPlot1` (`tracking_plot1.dfy`) models strategy one, the quantized step law. It has:
  - a 40-pixel dead zone;
  - five tiers by fifths of the half frame;
  - pan steps 1, 5, 7, 9, 15;
  - tilt steps 1, then `int(n * 0.5625)` of the others, which gives 1, 2, 3, 5, 8.

  The target point is the centre of the detection box, `(x0 + x2) / 2`, where the box corners are floating-point outputs of the detector; its coordinates are therefore arbitrary reals, while the frame width and height are whole pixels. An offset of 40.5 px is tier 1, and an offset of 0.5 px still issues a move with a zero step on that axis. The tier bound `w / 2 * k / 5` is compared exactly, as `10 * |offset| <= k * w`; how this differs from the source's floating-point test is stated under "Left out".
- `TrackingPlot2` (`tracking_plot2.dfy`) models strategy two. Whole-degree angles are commanded directly, with a 5-degree dead zone per axis. The camera back-projection `calculate_angle` is a function parameter from the (real) target point to two whole-degree angles.

Points of the code's behaviour that a reader might not expect:

- **Strategy one tiers.** With w = 1280 an offset of 300 px lies in (256, 384], the third fifth of the half frame, so it is tier 3 and the pan step is 7. See `Plot1WorkedExamples`.
- **Strategy one result.** `trancking_plot1` discards the result of `moveA`; nothing is reported upward.
- **Second connect.** `connectSerial` on a connected manager returns `None` (not `False`) and changes nothing.
- **Unchecked absolute moves.** `singleRotation` and `multiRotation` remember the angle exactly as given, even outside [0, 180]. The pulse sent is clamped.
- **One-sided limit checks.** `moveUp` and `moveLeft` check only the lower limit; `moveDown` and `moveRight` check only the upper one. So the travel invariant is kept only for non-negative steps, which is what their contracts state. By contrast, `moveA` always leaves both angles in [0, 180] when it succeeds.
- **Not connected.** A write while not connected is an assertion failure in the source. It is not an error value that is returned.

## Model

| member | source | states |
|---|---|---|
| `AngleMapping.Clamp` | src/servo_manager.py:94-96 | result is in [0, 180]; identity inside the travel; 0 below it and 180 above it |
| `AngleMapping.AngleToPulse` | src/servo_manager.py:89-102 | pulse always in [500, 2500]; any angle <= 0 gives 500 and any angle >= 180 gives 2500 |
| `AngleMapping.PulseToAngle` | src/servo_manager.py:15 | the pulse range [500, 2500] decodes to an angle within [0, 180] |
| `AngleMapping.PulseRoundTrip` | src/servo_manager.py:94-102 | decoding the pulse of any angle gives back exactly the clamped angle (no truncation loss) |
| `AngleMapping.AngleToPulseMonotone` | src/servo_manager.py:96-102 | the mapping is non-decreasing over all integers, clamping included |
| `AngleMapping.AngleToPulseStrictlyIncreasing` | src/servo_manager.py:98-102 | on [0, 180] a larger angle always gives a strictly larger pulse |
| `AngleMapping.CalibrationPoints` | src/servo_manager.py:11-17 | 0 -> 500, 90 -> 1500, 180 -> 2500 |
| `ServoProtocol.ServoOfChannel` | src/servo_manager.py:22-29 | channel 1 is the vertical servo and channel 2 the horizontal one; no other channel names a servo |
| `ServoProtocol.IntToDecimal` | src/servo_manager.py:135 | integers are written as a digit string, with a leading `-` exactly when negative |
| `ServoProtocol.DigitRun` | src/servo_manager.py:11-17 | the longest digit prefix of a line: all digits, and followed by a non-digit or the end |
| `ServoProtocol.Render` | src/servo_manager.py:126-158 | every frame starts with `#` and ends with the `\r\n` sentinel |
| `ServoProtocol.ParseRender` | src/servo_manager.py:11-17 | the board reads every rendered frame (single, dual or stop) back as exactly the command it encodes |
| `ServoProtocol.RenderInjective` | src/servo_manager.py:144-151 | two different commands are never written as the same text |
| `ServoProtocol.DecimalValueOfNat` | src/servo_manager.py:135 | the digits written for a number have that number as their value |
| `ServoManagement.ServoManager.constructor` | src/servo_manager.py:33-37 | a new manager is not connected, both angles are 0, nothing has been written |
| `ServoManagement.ServoManager.IsAlive` | src/servo_manager.py:39-48 | alive exactly when a serial handle is held |
| `ServoManagement.ServoManager.Transact` | src/servo_manager.py:104-106 | one write then acknowledgement: the log grows by exactly the frame's text |
| `ServoManagement.ServoManager.ConnectSerial` | src/servo_manager.py:50-66 | if already connected: None, with nothing changed. If the open fails: Some(false), with nothing changed. Otherwise connected, both servos at home (110, 90), one home frame written, Some(true) |
| `ServoManagement.ServoManager.DisconnectSerial` | src/servo_manager.py:68-75 | ends not connected from any state (idempotent); angles and log untouched |
| `ServoManagement.ServoManager.ResetAllServos` | src/servo_manager.py:77-87 | true iff connected; then angles (110, 90) with one dual home frame written; otherwise nothing changes |
| `ServoManagement.ServoManager.SingleRotation` | src/servo_manager.py:122-142 | writes `#<ch>P<pulse(angle)>T<speed>`; only the addressed axis changes, to the unclamped angle |
| `ServoManagement.ServoManager.MultiRotation` | src/servo_manager.py:144-163 | writes one dual frame for (v, h) and remembers both angles as given |
| `ServoManagement.ServoManager.MoveA` | src/servo_manager.py:165-183 | all or nothing. If either target leaves [0, 180]: false, the fixed message, no write, no angle change. Otherwise both axes move, exactly one dual frame is written, the result is (true, ""), and both angles are in travel |
| `ServoManagement.ServoManager.MoveUp` | src/servo_manager.py:185-194 | refused (nothing written, nothing changed, message with the attempted angle) only below 0. Otherwise one channel-1 frame, only the vertical angle changes, and the new angle is returned as text |
| `ServoManagement.ServoManager.MoveDown` | src/servo_manager.py:196-205 | refused only above 180, as for MoveUp. Otherwise one channel-1 frame and the vertical angle changes |
| `ServoManagement.ServoManager.MoveLeft` | src/servo_manager.py:207-216 | refused only below 0. Otherwise one channel-2 frame and only the horizontal angle changes |
| `ServoManagement.ServoManager.MoveRight` | src/servo_manager.py:218-227 | refused only above 180. Otherwise one channel-2 frame and only the horizontal angle changes |
| `ServoManagement.ServoManager.Stop` | src/servo_manager.py:241-249 | writes `#STOP\r\n` and changes no angle |
| `TrackingPlot1.HalfSize` | src/trancking_plot1.py:5-6 | `int(size / 2)`: half the size truncated toward zero, for either sign |
| `TrackingPlot1.Tier` | src/trancking_plot1.py:25-36 | tier in 0..5, and 0 exactly inside the 40 px dead zone |
| `TrackingPlot1.FirstTierFrom` | src/trancking_plot1.py:27-36 | reference tiering: the first bound k*size/10 not exceeded, at least the starting tier and at most 5 |
| `TrackingPlot1.TierIsFirstBound` | src/trancking_plot1.py:25-36 | outside the dead zone the if/elif chain picks the first tier bound the offset does not exceed |
| `TrackingPlot1.TierMonotone` | src/trancking_plot1.py:25-49 | a larger distance never gets a lower tier |
| `TrackingPlot1.PanStep` | src/trancking_plot1.py:22-36 | pan step is in {0, 1, 5, 7, 9, 15}, and 0 exactly when abs(dif) <= 40 |
| `TrackingPlot1.TiltStep` | src/trancking_plot1.py:38-49 | tilt step is in {0, 1, 2, 3, 5, 8}, and 0 exactly when abs(dif) <= 40 |
| `TrackingPlot1.StepsOfTier` | src/trancking_plot1.py:38-49 | per tier, pan 0/1/5/7/9/15 and tilt 0/1/2/3/5/8: the first tier is unscaled, the others are floor(n*9/16) |
| `TrackingPlot1.StepsMonotone` | src/trancking_plot1.py:25-49 | for a fixed frame size both steps are non-decreasing in abs(dif), so they depend only on abs(dif) |
| `TrackingPlot1.Plot1Move` | src/trancking_plot1.py:51-62 | no move exactly when an offset (an arbitrary real) is 0. Otherwise each component has the step's magnitude and the offset's sign (zero inside the dead zone), with pan at most 15 and tilt at most 8 |
| `TrackingPlot1.TranckingPlot1` | src/trancking_plot1.py:3-62 | when either offset is 0, nothing is written and nothing changes. Otherwise the state is exactly that of one MoveA with Plot1Move's signed steps at speed 100 |
| `TrackingPlot1.Plot1WorkedExamples` | src/trancking_plot1.py:25-62 | w=1280: offsets +/-300 give 7 and 600 gives 15; 30 and 40 give 0 but 40.5 gives 1; h=720: 200 gives 3 and 300 gives 8; target (640.5, 400) in 1280x720 still issues the move (0, 0), while target x = 640 issues none |
| `TrackingPlot2.DeadZone` | src/trancking_plot2.py:24-33 | an axis with abs(angle) < 5 is zeroed; from 5 up (inclusive) the angle passes through unscaled |
| `TrackingPlot2.Plot2Move` | src/trancking_plot2.py:26-33 | the four-way branch equals the per-axis dead zone applied to each angle independently |
| `TrackingPlot2.AxesIndependent` | src/trancking_plot2.py:26-33 | the pan step does not depend on the tilt angle, nor the tilt step on the pan angle |
| `TrackingPlot2.TranckingPlot2` | src/trancking_plot2.py:24-33 | exactly one MoveA per call, (0, 0) included. angle_x drives the horizontal (first) argument and angle_y the vertical one |

## Left out

- `startRandomTest` / `stopRandomTest` and the `_is_random` flag (src/servo_manager.py:229-253) are left out: they are a background thread, random targets and sleeps.
- Real serial I/O is left out: the port name, the 9600 baud setting, `flush`, `readline` and exceptions raised by `write`. The link is a flag plus a log of written text, and every acknowledgement arrives. A hang on a missing acknowledgement is not modelled.
- `ServoManagement.ServoManager.IsAlive`: does not model a port that closes by itself while its handle is held. `is_open` is taken to stay true until `disconnectSerial`.
- `ServoManagement.ServoManager.ConnectSerial`: the port identifier is not modelled. The result of opening it is the `PortOpening` parameter.
- `calculate_angle` (src/trancking_plot2.py:15-22) is not part of this model. It does a floating-point matrix inverse and `arctan2` with fixed camera intrinsics, and is passed in as a function from pixel to whole-degree angles.
- Floating point is left out. The pulse mapping is computed with exact integers and the tier bounds with exact rationals. The pulse mapping agrees with the source's doubles for every integer angle (see the argument for `AngleMapping` above). The tier test is exact in the model. In the source the bound `w / 2 * k / 5` is a double: it is exact whenever `k * w / 10` is a dyadic rational (for example every bound of a 640- or 1280-pixel frame), and otherwise off by at most half a unit in the last place. The offset `x - int(w / 2)` is itself computed in floating point from a float32 box centre. So a target whose offset lies within floating-point rounding of a tier bound (or of the 40-pixel dead zone) may be placed in the neighbouring tier by the source, where the model places it by the exact value. Angles of the servo state are whole degrees, as every caller in the core passes integers.
- The getters `getVerticalServoAngle` / `getHorizontalServoAngle` are plain functions returning the fields. They need no contract of their own.
- The `__main__` demo block of src/servo_manager.py, the camera capture thread, face detection and the Qt user interface are left out: they are I/O, concurrency and foreign libraries.
