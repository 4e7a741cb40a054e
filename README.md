# Gimbal D-pad control of the ARCH2025 Roo prototype

The gamepad test script drives a two-axis camera gimbal from the controller's
D-pad (the "hat"). Two integer accumulators, `gymbalYaw` and `gymbalPitch`,
hold pulse widths in microseconds. Both start at the neutral 1500. On every
tick of the polling loop, `processHat` reads the hat tuple `(h, v)`. When the
tuple is one of the eight pressed directions, it adds or subtracts 50 on one
or both accumulators. Every other tuple leaves them alone, and nothing is
clamped. A companion classifier, `get_dpad_status`, maps the same tuples to
nine text labels.

This project models both in Dafny:

- `dpad.dfy`, module `DPad`: the hat reading type `(int, int)`, the
  predicates "well-formed reading" (both components in {-1, 0, 1}) and
  "pressed direction" (well-formed and not `(0, 0)`), and the classifier
  `DpadStatus` written as the same if/elif chain. A reference naming scheme,
  `ComposedLabel`, states how the labels are built: the vertical word, then
  the horizontal word, joined by a hyphen on diagonals.
- `gimbal.dfy`, module `Gimbal`: the class `Gimbal`, whose fields `yaw` and
  `pitch` are the two accumulators, and `ProcessHat`, the if/elif chain
  updating them in place. Beside them is the pure specification those
  updates are proved against. `Step` is the closed form: yaw moves by
  `50 * h` and pitch by `50 * v`. `Iterate` holds one reading for n ticks.
  `Run` applies a sequence of readings. The lemmas prove the per-direction
  effects, commutation, order independence of whole runs, unbounded drift,
  and the agreement between the classifier and the update.

The hat tuple is modelled as any pair of integers, because the source
compares whole tuples against literals. A pair outside {-1, 0, 1}², which
the device never produces, falls through both chains: the label is
"DPad Not Pressed" and the accumulators do not change. The missing clamp to
the 500–2500 µs servo band is kept as written. `DriftUnbounded` and
`LeavesBand` show its consequence.

## Model

| member | source | states |
|---|---|---|
| `DPad.DpadStatus` | prototypeScript/xboxControllerTesting.py:47-65 | the label is "DPad Not Pressed" exactly when the tuple is not one of the eight directions; each direction's label is "DPad " + vertical word + hyphen (diagonals only) + horizontal word |
| `DPad.LabelsDistinct` | prototypeScript/xboxControllerTesting.py:47-63 | the eight direction labels are pairwise distinct: two directions with the same label are the same tuple |
| `Gimbal.Gimbal.constructor` | prototypeScript/xboxControllerTesting.py:42-43 | the accumulators start at yaw 1500 and pitch 1500 |
| `Gimbal.Gimbal.ProcessHat` | prototypeScript/xboxControllerTesting.py:67-88 | for h, v in {-1, 0, 1}, yaw grows by 50*h and pitch by 50*v; any other tuple changes nothing; the state is unchanged exactly when the classifier says "DPad Not Pressed"; the new state is `Step` of the old |
| `Gimbal.Step` | prototypeScript/xboxControllerTesting.py:67-88 | one update leaves the pose unchanged exactly when the reading is not a pressed direction, and moves each axis by at most 50 |
| `Gimbal.UpDown` | prototypeScript/xboxControllerTesting.py:69-72 | Up adds 50 to pitch and Down subtracts 50; yaw is unchanged |
| `Gimbal.LeftRight` | prototypeScript/xboxControllerTesting.py:73-76 | Left subtracts 50 from yaw and Right adds 50; pitch is unchanged |
| `Gimbal.Diagonals` | prototypeScript/xboxControllerTesting.py:77-88 | each diagonal moves both axes by 50 in the direction of its components; (-1, -1) from (1500, 1500) gives (1450, 1450) |
| `Gimbal.Commute` | prototypeScript/xboxControllerTesting.py:67-88 | two successive updates give the same pose in either order |
| `Gimbal.NotPressedIffNoOp` | prototypeScript/xboxControllerTesting.py:47-88 | the classifier returns "DPad Not Pressed" exactly when the update is a no-op |
| `Gimbal.Iterate` | prototypeScript/xboxControllerTesting.py:67-88 | holding a well-formed reading for n ticks moves yaw by n*50*h and pitch by n*50*v; holding any other tuple changes nothing |
| `Gimbal.Run` | prototypeScript/xboxControllerTesting.py:67-88 | a sequence of readings moves yaw by 50 times the sum of their horizontal components and pitch by 50 times the sum of their vertical components (ill-formed readings contribute nothing) |
| `Gimbal.RunOrderIndependent` | prototypeScript/xboxControllerTesting.py:67-88 | two sequences holding the same readings in any order lead to the same pose |
| `Gimbal.DriftRight` | prototypeScript/xboxControllerTesting.py:67-88 | holding Right for n ticks from start-up gives yaw 1500 + 50*n and pitch 1500 |
| `Gimbal.DriftUnbounded` | prototypeScript/xboxControllerTesting.py:67-88 | for every bound there is a number of Right ticks after which yaw exceeds it: there is no clamp |
| `Gimbal.LeavesBand` | prototypeScript/xboxControllerTesting.py:67-88 | after 21 ticks of Right yaw is above 2500, and after 21 ticks of Left below 500 |

## Left out

- `speed_to_pwm` (prototypeScript/xboxControllerTesting.py:23-31, prototypeScript/pi5RC-Test.py:6-13): floating-point exponentiation, an epsilon division and `int()` truncation of a float. None of it has a faithful integer model.
- `ang2ms` (prototypeScript/xboxControllerTesting.py:33-34, prototypeScript/pi5RC-Test.py:15-16): float true division, and never called.
- The drive values `rooLeftDrive` and `rooRightDrive` (lines 44-45, 109-110): they come from float joystick axes through `speed_to_pwm`.
- prototypeScript/pi5RC-Test.py as a whole. Beyond the float functions it is a sweep loop that prints, sets a PWM channel and sleeps.
- Device and loop glue: pygame start-up, joystick detection and the early exit (lines 7-20), the event pump and the axis and hat reads (98-106), the `pi5RC` channels and their `set` calls (37-40, 92-95, 116-119), `sleep`, and `KeyboardInterrupt` handling. These are I/O and calls into a hardware library. The hat reading becomes the argument of `ProcessHat`. The loop's effect on the gimbal is modelled as `Run` over a finite sequence of readings.
- Python tuple equality across numeric types (for example `(1.0, 0)` equals `(1, 0)`). The device returns integer tuples, so readings are pairs of integers.
