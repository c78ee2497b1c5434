# A verified model of the emotion robot's control core

The robot is a three-layer rotating figure: three AX-12A servos turn geared cylinders (base, body,
head), a camera finds a face and classifies its emotion, a NeoPixel strip and an OLED show the
emotion, and a coordinator decides between the IDLE, TRACKING and EMOTION states. The repository
keeps several drafts of each part side by side. This project models each draft's own behaviour,
file by file, without reconciling them, and proves what each one promises or actually does.

Modules, in the order of the program's layers:

- `Numeric` (numeric.dfy): Python's `max(lo, min(v, hi))`, `int()` on floats (truncation toward zero)
  and the bitwise `|` on unbounded two's-complement integers, with the bit facts the speed encodings
  need.
- `Dynamixel` (dynamixel.dfy): the serial bus as an object holding the servos' future answers to
  pings and reads and a ghost log of every transaction, plus the id scan all drivers share.
- `BodyShared` (body.dfy): the `BODY` class as body/body_v3.py and body/body_v2.py both write it
  (the two files agree line for line on these methods): the per-servo `tracked_positions` estimate,
  the mode gate on reads, the clamped move, the wheel-speed word, both mode switches, the torque
  limit and the face-tracking nudge.
- `BodyV3` (body_v3.dfy): body_v3.py's rate-based geared rotation.
- `BodyV2` (body_v2.dfy): body_v2.py's s-curve interpolation and smooth move, its normalising geared
  rotation, and the `is_looking_up` flag of `look_up`/`look_down`.
- `BodyV4` (body_v4.dfy): the unfinished rewrite, with its aliased `ServoID` enum, its inverted
  direction bit and the paths that raise `AttributeError`.
- `ServoTest` (servo_test.dfy): the bench helpers of servos/test_servos_movement.py.
- `Emotions`, `Detector`, `EmotionDetector` (emotions.dfy, detector.dfy, emotion_detector.dfy): the
  label argmax and score dict, the face selection and centring test, and `_pick_face`.
- `Led` (led.dfy): the `LED` class, with the strip as an array of pixel colours and a ghost log of
  every colour shown.
- `EmotionHistory` (history.dfy): the time-stamped history, `deque(maxlen=...)`, the two-second
  recency filter, and `queue.Queue` as a value.
- `RobotV2` (robot_v2.py) and `RobotV1` (robot.py): the two coordinators. Each has an emotion
  debouncer, state changes, one iteration of the decision loop, and (v2) the terminal-command
  dispatcher. Each is a class whose methods are proved against functions on a state record. The
  lemmas are stated about those functions.

Some of the drafts' behaviour is kept exactly as written, even where it is probably not what was
meant:

- `move_positions_smooth` never reaches its target; it stops at step `(steps-1)/steps`.
- body_v4.py sets the direction bit for forward speeds, so a stop sends 1024.
- Every `ServoID` member of body_v4.py is 0, so its scan probes only id 0.
- `set_torque_limit(dxl_id=0)` writes every servo.
- `show_emotion("suprise")` raises `TypeError`.
- In robot_v2.py a request issued while a sequence runs is never withdrawn.
- robot.py emits only once more than three recent accepted detections are kept, of which just the last
  three must agree, so from a fresh start it needs four detections although `min_consitent_frames` is 3.
- A stop command in robot_v2.py leaves `sequence_running` set.

Each of these is proved as a property of the model. Floating-point values are modelled as exact reals.
Every `time.time()` within one call is the same `now` parameter, except in the polling loop of
`_run_wheel_movements`, whose successive readings are a sequence parameter.

## Model

| member | source | states |
|---|---|---|
| Numeric.Clamp | body/body_v4.py:262-264 | `_clamp(v, lo, hi)` lies in [lo, hi] when lo <= hi, is `v` itself when already inside, `lo` below the range, and `max(lo, hi)` above it |
| Numeric.Trunc | body/body_v3.py:251 | `int()` of a float is the integer part: non-negative and at most x for x >= 0, non-positive and at least x for x < 0, less than one away |
| Numeric.DirectionBit | body/body_v3.py:213-215 | `m \| (d << 10)` for a 10-bit magnitude adds 1024 exactly when the direction bit is set |
| Numeric.NegativeDirectionMask | body/body_v4.py:189-191 | `v \| (-1 << 10)` is `v` itself for -1024 <= v < 0, so a negative speed loses no bits and gains no direction bit |
| Dynamixel.Scan | servos/test_servos_movement.py:39-46 | `scan_ids` returns the probed ids whose ping succeeded with error 0, in input order; it pings every id once and consumes one answer per id |
| Dynamixel.AnsweredPrefixExactly | servos/test_servos_movement.py:39-46 | an id is in the scan result exactly when some probe of it succeeded; the result is no longer than the probe list |
| Dynamixel.AnsweredPrefixDistinct | servos/test_servos_movement.py:39-46 | probing distinct ids finds each servo at most once |
| Dynamixel.AnsweredEmpty | body/body_v3.py:65-78 | the scan is empty exactly when no probe succeeded, which is when the drivers give up |
| Dynamixel.ReadValue | body/body_v4.py:99-104 | a read yields a value exactly when `comm == COMM_SUCCESS and err == 0`, and then the value read |
| BodyShared.WheelWordValue | body/body_v3.py:208-216 | the Moving Speed word is `min(1023, \|s\|)` plus 1024 exactly for a negative speed, so always in [0, 2048) |
| BodyShared.WheelWord | body/body_v3.py:208-215 | the Moving Speed word lies in [0, 2048): its low ten bits are the capped magnitude and bit 10 is set exactly for a negative speed |
| BodyShared.WheelWordRoundTrip | body/body_v3.py:213-215 | for \|s\| <= 1023, bits 0-9 of the word give back \|s\| and bit 10 gives back whether s < 0 |
| BodyShared.NegatedWordReverses | body/body_v3.py:259-266 | a command and its negation decode to the same magnitude and, unless zero, opposite direction bits |
| BodyShared.TorqueHeadIdWritesAll | body/body_v3.py:175-179 | `dxl_id=0` (the head) is falsy and writes every servo exactly as no id does; any other id writes only that servo |
| BodyShared.ResyncReadsBack | body/body_v3.py:161-167 | after joint mode is entered, each re-read servo's estimate is the position read when the read succeeded and its old estimate when it failed; servos not yet reached keep theirs |
| BodyShared.ResyncKeepsOthers | body/body_v3.py:161-167 | a servo that was not scanned keeps its estimate through the joint-mode resynchronisation |
| BodyShared.SpeedWritesAt | body/body_v3.py:257-266 | the k-th write of a leg goes to the k-th planned servo with its command, negated on the return leg |
| BodyShared.DriveLeg | body/body_v3.py:257-259 | one leg logs exactly one Moving Speed write per planned servo, in plan order, and consumes no answers |
| BodyShared.FirstFittingIsFirst | body/body_v3.py:286-295 | the nudged servo is the first in head, body, base order whose estimate plus the step lies in (0, 1024), and no servo is chosen exactly when none fits |
| BodyShared.Body.constructor | body/body_v3.py:85-99 | a new tracker has every estimate at home (512), no mode and the flag down, over the servos found |
| BodyShared.Body.GetPosition | body/body_v3.py:183-198 | in wheel mode: the estimate, with no bus traffic and nothing changed; otherwise one read of Present Position, whose value replaces the estimate and is returned on success, the estimate returned unchanged on failure |
| BodyShared.Body.MovePosition | body/body_v3.py:200-206 | speed then goal, each clamped to [0, 1023], are written, and the estimate becomes the clamped goal, so repeating the call leaves the same estimate |
| BodyShared.Body.WheelSpeed | body/body_v3.py:208-216 | one Moving Speed write of the wheel word; estimates and mode untouched |
| BodyShared.Body.SetJointMode | body/body_v3.py:161-167 | for every servo the limits 0 and 1023 and a position read; the mode is joint before each read, so every estimate is resynchronised from the hardware |
| BodyShared.Body.JoinServo | body/body_v3.py:162-167 | one servo's limits, the mode set to joint, and its estimate re-read |
| BodyShared.Body.SetWheelMode | body/body_v3.py:169-173 | both limits 0 for every servo, mode wheel, estimates untouched |
| BodyShared.Body.SetTorqueLimit | body/body_v3.py:175-179 | the limit clamped to [0, 1023] is written to the one given non-zero id, or else to every servo |
| BodyShared.Body.StopWheels | body/body_v3.py:274-276 | speed 0 is written to every servo |
| BodyShared.Body.TrackPosition | body/body_v3.py:280-295 | the step is +20 for a displacement <= 0 and -20 otherwise; the first fitting servo is moved at speed 100 and True returned; with none fitting, False and nothing changes |
| BodyShared.Open | body/body_v3.py:65-99 | the start-up scan probes head, body and base; with no answer it fails; otherwise the tracker is built over the distinct servos that answered, with no mode |
| BodyShared.AnsweredSubsetOfRoster | body/body_v3.py:65-78 | the servos the start-up scan finds are distinct members of `SERVOS` |
| BodyV3.SignedSpeedBounds | body/body_v3.py:242-253 | for a positive duration each command's magnitude is the truncated rate, capped at `max_speed`, and its sign follows target times ratio (zero for a zero target) |
| BodyV3.SignedSpeed | body/body_v3.py:244-253 | for a positive duration and a non-negative cap the command is within the cap, non-negative for a non-negative rotation and non-positive for a negative one |
| BodyV3.Plan | body/body_v3.py:235-253 | one command per cylinder, in the dictionary order base, body, head; PlanBounds gives their bounds and signs |
| BodyV3.PlanBounds | body/body_v3.py:229-253 | every command of the base, body, head plan is within `max_speed` and signed as its target times its ratio |
| BodyV3.WorkedExample | body/body_v3.py:242-253 | base 180 and body -180 over 2 s at 1023 give base +818, body -511 and head 0 |
| BodyV3.PlanLegsReverse | body/body_v3.py:257-266 | the return leg drives each servo at the magnitude of the outbound command in the opposite direction |
| BodyV3.RotateWheelGeared | body/body_v3.py:218-272 | a zero duration raises `ZeroDivisionError` before any bus traffic; a negative duration raises `ValueError` in the first sleep, after wheel mode and the outbound commands, and a negative hold raises after the first stop, either way leaving the servos in wheel mode with the estimates not re-read; otherwise wheel mode, the outbound commands, a stop, the negated commands and a stop when `return_to_start` is set, then joint mode with every estimate re-read |
| BodyV3.ReturnAndRejoin | body/body_v3.py:264-272 | after the hold: the negated commands and a stop when `return_to_start` is set, then joint mode with every estimate re-read |
| BodyV2.SmoothInUnit | body/body_v2.py:217 | the smoothstep 3s^2 - 2s^3 maps [0, 1] into [0, 1] |
| BodyV2.Interpolate | body/body_v2.py:215-218 | the s-curve starts at `start` for s = 0 and ends at `end` for s = 1; InterpolateBetween keeps it between them |
| BodyV2.InterpolateEnds | body/body_v2.py:215-218 | `_scurve_interpolate` gives `start` at s = 0 and `end` at s = 1 |
| BodyV2.InterpolateBetween | body/body_v2.py:215-218 | for s in [0, 1] the interpolated position never leaves the range between start and end |
| BodyV2.StepOverwrites | body/body_v2.py:223-227 | each step writes the estimates of the same servos, so a later step's estimates replace an earlier one's |
| BodyV2.StepTrackedLayer | body/body_v2.py:225-227 | with distinct servos, one step leaves each layer at its clamped interpolated goal |
| BodyV2.MoveLayers | body/body_v2.py:225-227 | one step: a `move_position` per layer, in order, at its interpolated position |
| BodyV2.SmoothStep | body/body_v2.py:223-227 | step i moves every layer to its position at i / steps |
| BodyV2.MovePositionsSmooth | body/body_v2.py:220-228 | steps 0 .. steps-1 are issued in order, and the estimates end at the positions of step steps-1; no steps, no change |
| BodyV2.SmoothFinalPositions | body/body_v2.py:223-227 | with distinct servos each layer's estimate ends at its interpolated position at (steps-1)/steps |
| BodyV2.SmoothStopsShort | body/body_v2.py:223-224 | the last parameter is below 1, so a 0-to-1000 move in 50 steps ends at 998, not 1000 |
| BodyV2.MaxRot | body/body_v2.py:703 | `max(abs(v)) or 1` is positive, bounds every rotation, and is the largest one or 1 when all are zero |
| BodyV2.NormalisedSpeed | body/body_v2.py:704-707 | a rotation no larger than the largest one gets a speed within `max_speed` either way |
| BodyV2.PlanV2 | body/body_v2.py:694-707 | one speed per cylinder, in the dictionary order base, body, head; PlanV2Bounds gives their bounds, signs and the full-speed joint |
| BodyV2.NormalisedSpeedBounds | body/body_v2.py:704-707 | a rotation no larger than the largest gets a speed within `max_speed`, with the rotation's sign, zero for no rotation |
| BodyV2.NormalisedSpeedFull | body/body_v2.py:703-707 | the largest rotation runs at exactly plus or minus `max_speed` |
| BodyV2.PlanV2Bounds | body/body_v2.py:694-707 | every planned speed is within `max_speed` and signed as target divided by ratio, and a joint with the largest rotation gets exactly the cap |
| BodyV2.PlanV2Zero | body/body_v2.py:703-707 | all-zero targets plan all-zero speeds, the `or 1` keeping the division defined |
| BodyV2.RotateWheelGeared | body/body_v2.py:661-732 | a negative `total_time` raises `ValueError` in the first sleep, after wheel mode and the planned speeds, leaving the servos in wheel mode with the estimates not re-read; otherwise wheel mode, the planned speeds, a stop, the negated speeds, a stop, then joint mode with every estimate re-read |
| BodyV2.LookDownUndoesLookUp | body/body_v2.py:540-559 | `look_down` drives the same servos as `look_up` at the negated speeds |
| BodyV2.PollPass | body/body_v2.py:425-430 | one pass at elapsed time t writes speed 0 to exactly the configured servos whose duration is at most t, in configuration order, and reports `all_servos_stopped` exactly when every duration is at most t |
| BodyV2.Poll | body/body_v2.py:421-434 | the polling loop, run on the successive readings of `time.time() - start`, makes exactly the writes of its passes up to the first pass at which every servo is due or 3 s have gone by |
| BodyV2.PollingUniform | body/body_v2.py:421-434 | when every configuration has the same duration of at most 3 s, the loop writes speed 0 to each configured servo exactly once, in order, whatever the clock readings |
| BodyV2.RunWheelMovements | body/body_v2.py:415-462 | wheel mode, each start speed, the polling loop's speed-0 writes, a stop of every servo, then joint mode with the estimates re-read |
| BodyV2.LookUp | body/body_v2.py:540-549 | a no-op when already looking up; otherwise wheel mode (twice), the look-up speeds, speed 0 to base then head once the two seconds are up, a stop of every servo, joint mode, and the flag set |
| BodyV2.LookDown | body/body_v2.py:551-559 | a no-op unless looking up; otherwise wheel mode (twice), the look-down speeds, speed 0 to base then head once the two seconds are up, a stop of every servo, joint mode, and the flag cleared |
| BodyV4.EnumMembers | body/body_v4.py:21-25 | iterating an `Enum` yields exactly the values of its members, each once, in the order of their first occurrences |
| BodyV4.ScanProbesHeadOnly | body/body_v4.py:21-25 | all `ServoID` members are 0, so `[s.value for s in ServoID]` is `[0]` and the scan probes only the head |
| BodyV4.SpeedValue | body/body_v4.py:184-193 | a non-negative speed sends its value capped at 1023 plus 1024; a negative one sends its value floored at -1023, which stays negative |
| BodyV4.SpeedValueCases | body/body_v4.py:184-193 | a non-negative speed sends its clamped value plus 1024, a negative one its clamped negative value unchanged |
| BodyV4.StopSends1024 | body/body_v4.py:189-191 | speed 0 sends 1024 |
| BodyV4.SpeedValueOppositeOfWheelWord | body/body_v4.py:189-191 | a forward speed sends the word the older drivers send for the same speed in reverse |
| BodyV4.ReadWord | body/body_v4.py:99-104 | `read_word` returns the value only on `COMM_SUCCESS` with error 0, otherwise `None`, after one read |
| BodyV4.ScanServos | body/body_v4.py:75-87 | the ids that answered, in order, or `RuntimeError` when none did, after one ping per id |
| BodyV4.Body.constructor | body/body_v4.py:112-127 | a new body is in joint mode with no estimates and no servos |
| BodyV4.Body.ReadPosition | body/body_v4.py:235-243 | in wheel mode the estimate or 512 with no bus traffic; in joint mode the value read, or the estimate or 512 when the read fails; the estimates are never written |
| BodyV4.Body.SetMode | body/body_v4.py:159-170 | wheel mode clears both limits of every servo and records the mode, estimates untouched; joint mode with servos writes one CW limit and raises `AttributeError` before the mode changes |
| BodyV4.Body.MoveToPosition | body/body_v4.py:172-182 | outside joint mode nothing happens; in joint mode it raises `AttributeError` before any write, so no call moves a servo or an estimate |
| BodyV4.Body.SetWheelSpeed | body/body_v4.py:184-193 | outside wheel mode nothing happens; otherwise one byte write of the encoded speed |
| BodyV4.Body.RotateGeared | body/body_v4.py:208-218 | ends in wheel mode, switching (and writing the limits) only when not already there; no speed is commanded |
| BodyV4.Body.EnableAllServos | body/body_v4.py:245-249 | torque enable written to every servo |
| BodyV4.Body.Start | body/body_v4.py:129-143 | start always raises: `RuntimeError` when nothing answers the scan, otherwise `AttributeError` from `set_mode(JOINT)` after torque is enabled |
| ServoTest.WheelSpeedValueCases | servos/test_servos_movement.py:68-79 | a forward speed sends `min(s, 1023)`, a reverse one `min(-s, 1023) + 1024`; always in [0, 2047] |
| ServoTest.WheelSpeedValue | servos/test_servos_movement.py:68-79 | the value lies in [0, 2047]: the magnitude capped at 1023, plus 1024 exactly for a reverse speed |
| ServoTest.SameAsDriverWord | servos/test_servos_movement.py:72-78 | the bench helper sends the same word as the drivers of body_v2.py and body_v3.py for every speed |
| ServoTest.WheelSpeedRoundTrip | servos/test_servos_movement.py:72-78 | for \|s\| <= 1023, `value & 1023` is \|s\|, `value >> 10` is the sign bit, and decoding gives back s |
| ServoTest.WheelSpeed | servos/test_servos_movement.py:68-79 | one Moving Speed write of the encoded speed |
| ServoTest.MovePosition | servos/test_servos_movement.py:64-66 | one Goal Position write of the goal clamped to [0, 1023] |
| ServoTest.SetTorqueLimit | servos/test_servos_movement.py:61-62 | one Torque Limit write of the limit clamped to [0, 1023] |
| ServoTest.ReadPos | servos/test_servos_movement.py:81-83 | the position when the read succeeded with error 0, otherwise `None` |
| Emotions.LabelsDistinct | detector/detector.py:24 | the seven emotion labels are distinct, so the score dict has one entry per label |
| Emotions.FirstMax | camera/emotion_detector.py:81 | `max` keeps the first of the largest scores: no score is larger, and every earlier one is strictly smaller |
| Emotions.ScoreMap | detector/detector.py:231 | the dict holds exactly the labels that have a score, each mapped to the score at its own position |
| Emotions.ScoreMapPairs | camera/emotion_detector.py:80 | the label-to-score dict has `min(len(labels), len(predictions))` entries, each label mapped to the score at its own position |
| Emotions.Dominant | camera/emotion_detector.py:81 | there is no choice exactly when there are no scores; otherwise the chosen label is a key of the dict, paired with the dict's score |
| Emotions.DominantIsFirstMax | detector/detector.py:232-236 | the chosen label is the first in label order of largest score, paired with that score; there is none exactly when the classifier returned no scores |
| Detector.DetectFaceSelects | detector/detector.py:135-158 | no face for a missing frame or no detections; otherwise the first detection's box, each coordinate truncated toward zero: the same sign, and within one of the detection without passing it |
| Detector.DetectFace | detector/detector.py:135-158 | a face exactly when there is a frame and a detection; its coordinates are the first detection's, truncated toward zero with the sign kept |
| Detector.CenteredWithin | detector/detector.py:172-186 | no face is not centred; a face is centred exactly when its centre is within `threshold` half-widths horizontally and `threshold` half-heights vertically of the frame centre |
| Detector.IsFaceCentered | detector/detector.py:172-186 | no face is never centred; CenteredWithin gives the condition on the face centre |
| Detector.CenteredMonotone | detector/detector.py:186 | a face centred at one threshold is centred at every larger one |
| Detector.DefaultCentered | detector/detector.py:161-186 | at 320x240 and threshold 0.2 a face is centred exactly when its centre is within 32 px of column 160 and 24 px of row 120 |
| EmotionDetector.Insert | camera/emotion_detector.py:182 | inserting a box yields the list with one more box and the same boxes otherwise |
| EmotionDetector.SortByArea | camera/emotion_detector.py:182 | the sort keeps every box, as many times as given |
| EmotionDetector.InsertSorted | camera/emotion_detector.py:182 | inserting into a list sorted by area keeps it sorted, and the head is the new box exactly when the list is empty or its head is no smaller |
| EmotionDetector.InsertPlace | camera/emotion_detector.py:182 | the new box goes right after the leading boxes of smaller area and ahead of the first box whose area is not smaller, so ahead of boxes of equal area |
| EmotionDetector.SortByAreaSorted | camera/emotion_detector.py:182 | `sorted(faces, key=w*h)` is a permutation of the boxes in non-decreasing area |
| EmotionDetector.FirstMinIndex | camera/emotion_detector.py:181-183 | the position of a box of least area with every earlier box strictly larger |
| EmotionDetector.SortHeadIsFirstMin | camera/emotion_detector.py:182 | the stable sort puts the first box of least area at the head |
| EmotionDetector.PickFaceSmallest | camera/emotion_detector.py:181-183 | `_pick_face` raises `IndexError` exactly on no boxes; otherwise it returns the earliest box of least area |
| EmotionDetector.PickFace | camera/emotion_detector.py:181-183 | `IndexError` exactly on no boxes; otherwise the first box of least area |
| EmotionHistory.LastN | robot_v2.py:272-275 | a deque with `maxlen` n keeps the last n elements, in order |
| EmotionHistory.RecentIsRecent | robot_v2.py:272-273 | every entry the rebuild keeps is younger than two seconds |
| EmotionHistory.RecentMembers | robot_v2.py:272-273 | the rebuild keeps exactly the entries younger than two seconds |
| Led.Lower | led/led.py:81 | `lower()` changes each character to its lower-case form and keeps the length |
| Led.ResolveColorCases | led/led.py:78-88 | names are looked up case-insensitively and an unknown one raises `ValueError`; a three-element tuple or list passes through; anything else raises `TypeError` |
| Led.ResolveColor | led/led.py:78-88 | every failure of a name is `ValueError` and every other failure `TypeError`; a resolved triple has the given components in order |
| Led.KnownName | led/led.py:24-44 | the names the display uses are keys of `color_codes`, each naming its own colour |
| Led.BlinkPass | led/led.py:118-123 | one pass makes one `change_color` call per element, in order, with any spelling of "off" passed as "off" |
| Led.BlinkPassSameColours | led/led.py:119-123 | the "off" rewrite changes no colour |
| Led.BlinkEndsOnLast | led/led.py:114-124 | when every element resolves, the blink raises nothing, shows one colour per call, and ends on the last element's colour |
| Led.EmotionDisplayEnds | led/led.py:182-242 | idle, happy, sad and fear show their own colour; angry ends on (255, 0, 0); any other name shows idle; nothing raises |
| Led.AngryDisplay | led/led.py:205-215 | the angry display is red, the six blinks between angry and off, then red again |
| Led.Strip.constructor | led/led.py:8-22 | a new LED has no strip |
| Led.Strip.ChangeColor | led/led.py:90-97 | without a strip it raises `RuntimeError`; an unresolvable colour raises its error with nothing shown; otherwise every pixel gets the colour and it is shown |
| Led.Strip.Start | led/led.py:46-57 | the strip exists afterwards (the same one if it already did), all pixels off, and off is shown |
| Led.Strip.Close | led/led.py:59-68 | a present strip is turned off and dropped; without a strip nothing happens, so a second close is a no-op |
| Led.Strip.BlinkingSequence | led/led.py:99-124 | without a strip `RuntimeError`; otherwise exactly the colours of the sequence repeated `loops` times are shown, in order, stopping at the first call that raises |
| Led.Strip.ShowPass | led/led.py:118-124 | one pass shows the pass's colours in order, stopping at the first call that raises |
| Led.Strip.ShowEmotion | led/led.py:177-242 | "suprise" raises `TypeError` before anything is shown; without a strip `RuntimeError`; otherwise the emotion's display is shown and the strip is left in its colour |
| Led.Strip.ShowDisplay | led/led.py:182-242 | on a started strip, the display of any name but "suprise" is shown and leaves the strip in the emotion's colour |
| Led.Strip.ShowSimple | led/led.py:184-202 | every name but angry shows one colour: its own when it has one, idle otherwise |
| Led.Strip.Default | led/led.py:70-73 | `default` shows idle, or raises `RuntimeError` without a strip |
| Led.Strip.ShowAngry | led/led.py:205-215 | the angry branch shows red, the blink sequence six times, then angry |
| RobotV2.UpdateQueueKeepsNewest | robot_v2.py:250-260 | the new item always ends up last and the queue keeps its length: a single-slot queue holds exactly the new item, and an unbounded queue loses its oldest pending item |
| RobotV2.UpdateQueue | robot_v2.py:250-260 | the bound is kept, and on a queue within it the new item is always put and comes last |
| RobotV2.KeptFacts | robot_v2.py:267-275 | after an observation the history holds at most four entries, all younger than two seconds, ending with the observation |
| RobotV2.EmitsIff | robot_v2.py:277-291 | an accepted observation emits exactly when the entry before it carries the same name and the queue is empty |
| RobotV2.ObserveFacts | robot_v2.py:262-291 | an unknown label or a confidence below the threshold changes nothing (equal is accepted); an emission leaves the queue holding just the name and clears the history; otherwise the queue is untouched and the history is kept |
| RobotV2.Observe | robot_v2.py:262-291 | a rejected observation changes nothing; after an accepted one the history holds at most four entries, all younger than two seconds |
| RobotV2.TwoInARowEmit | robot_v2.py:262-291 | two accepted observations of one name under two seconds apart make the second emit, when the first left the queue empty |
| RobotV2.Initial | robot_v2.py:31-75 | the initial record has no pending request, so it is coherent |
| RobotV2.RequestFacts | robot_v2.py:128-134 | a request is recorded only for another state, replaces an earlier one, and keeps "requested is None or differs from the current state" |
| RobotV2.Request | robot_v2.py:128-134 | a request never changes the current state and keeps a pending request different from it |
| RobotV2.CommitFacts | robot_v2.py:136-153 | a commit happens exactly when a request is pending, no sequence runs and 0.5 s have passed; it sets the requested state, clears the request and stamps the time, keeping coherence |
| RobotV2.Commit | robot_v2.py:355-356 | a commit keeps coherence and changes the state only when no sequence runs, stamping the change time |
| RobotV2.ExecuteFacts | robot_v2.py:144-153 | `_execute_state_change` always leaves the requested state current and keeps coherence; the same state changes nothing |
| RobotV2.Execute | robot_v2.py:144-153 | the requested state is current afterwards, and coherence is kept |
| RobotV2.TrimStart | robot_v2.py:514 | `lstrip` returns a suffix that does not start with white space |
| RobotV2.TrimEnd | robot_v2.py:514 | `rstrip` returns a prefix that does not end with white space |
| RobotV2.StripEnds | robot_v2.py:514 | the stripped command has no white space at either end |
| RobotV2.StripSplits | robot_v2.py:514 | the stripped command is a slice of the input with only white space before and after it |
| RobotV2.StripIdempotent | robot_v2.py:514 | stripping twice is stripping once |
| RobotV2.ParseCommand | robot_v2.py:514-544 | a command that selects an emotion names a key of `EMOTIONS` |
| RobotV2.Classify | robot_v2.py:517-544 | the `if`/`elif` chain only selects an emotion for a key of `EMOTIONS` |
| RobotV2.ClassifyWord | robot_v2.py:517-544 | every branch of the dispatcher is reached by its own word |
| RobotV2.ParseCommandWord | robot_v2.py:514-544 | every branch is reached by its word whatever white space surrounds it |
| RobotV2.CommandEffectFacts | robot_v2.py:511-546 | only a stop word fails, clearing `running` with `sequence_running` left set; every other command clears `sequence_running`; an emotion name selects the emotion, stamps its start and requests EMOTION; movement words make their one body call; "status" and unknown words change nothing else; no command changes the state |
| RobotV2.CommandEffect | robot_v2.py:511-546 | a command fails exactly when it is a stop word, and no command changes the state or the command queue |
| RobotV2.DrainFacts | robot_v2.py:502-509 | processing the commands keeps coherence and the state; an empty queue changes nothing; when at least one command ran and all ran, the queue is empty and no sequence is left running; when one fails, the loop is stopping |
| RobotV2.Drain | robot_v2.py:502-509 | draining never changes the state, and a drain that completes leaves no command queued |
| RobotV2.DecideFacts | robot_v2.py:323-351 | IDLE with a face requests TRACKING; TRACKING without a face for over 10 s requests IDLE; TRACKING with a face and a queued emotion takes it, stamps its start and requests EMOTION; EMOTION with no sequence and 4 s elapsed requests IDLE; in every other case nothing changes |
| RobotV2.Decide | robot_v2.py:323-351 | the decision only requests: the state and its change time stay as they were |
| RobotV2.TickFacts | robot_v2.py:314-358 | one iteration keeps coherence, changes state only with no sequence running after the cooldown, and with no commands or earlier request moves only idle to tracking, tracking to idle or emotion, emotion to idle |
| RobotV2.Tick | robot_v2.py:314-358 | an iteration that changes the state stamps the change with its own time |
| RobotV2.StaleRequestCommits | robot_v2.py:328-356 | a request to go idle is not withdrawn when the face returns: a tracking robot with a face still goes idle on a later iteration |
| RobotV2.Robot.constructor | robot_v2.py:31-75 | `__init__` leaves the initial record: IDLE, nothing requested, empty queues, running |
| RobotV2.Robot.RequestStateChange | robot_v2.py:128-134 | the request is recorded, and True returned, exactly for another state |
| RobotV2.Robot.CanChangeState | robot_v2.py:136-142 | True exactly when no sequence runs and at least 0.5 s have passed since the last change |
| RobotV2.Robot.ExecuteStateChange | robot_v2.py:144-153 | for another state: sets it, clears the request, stamps the time and returns True; otherwise nothing and False |
| RobotV2.Robot.ProcessEmotionDetection | robot_v2.py:262-291 | the debouncer fields move exactly as one observation of the debouncer function says; nothing else changes |
| RobotV2.Robot.ExecuteCommand | robot_v2.py:511-546 | the robot's fields move as the stripped command's effect says, and the command queue is untouched |
| RobotV2.Robot.Perform | robot_v2.py:512-546 | the branch of the dispatcher for a classified command |
| RobotV2.Robot.ProcessCommands | robot_v2.py:502-509 | runs the pending commands oldest first until the queue is empty or one raises |
| RobotV2.Robot.NextCommand | robot_v2.py:504-507 | takes the oldest command off the queue and runs it |
| RobotV2.Robot.StateTick | robot_v2.py:314-358 | one iteration: the commands; then, unless one raised, the decision and the commit |
| RobotV2.Robot.DecideState | robot_v2.py:323-351 | the decision of the iteration, as the decision function says |
| RobotV1.KeptFacts | robot.py:148-156 | after an observation the history holds at most six entries, at most one more than before, all younger than two seconds, ending with the observation |
| RobotV1.EmitsIff | robot.py:159-169 | an accepted observation emits exactly when the queue has room, more than three entries are kept and the two before it carry the same name |
| RobotV1.ObserveFacts | robot.py:144-174 | an unknown label or a confidence not above the threshold changes nothing; an accepted one keeps the rebuilt history even when it emits; an emission fills the empty queue with just the name; a full queue drops the label |
| RobotV1.Observe | robot.py:144-174 | a rejected observation changes nothing; after an accepted one the history holds at most six entries, at most one more than before, all younger than two seconds |
| RobotV1.FreshThreeDoNotEmit | robot.py:159-163 | three consistent detections from a fresh start never emit, because emission needs more than three entries |
| RobotV1.ThreeAfterOtherEmit | robot.py:159-163 | three consistent detections do emit when another accepted detection came shortly before them: a weak "angry" then three confident "happy"s within 0.3 s queue "happy" |
| RobotV1.AgreeingFourthEmits | robot.py:159-174 | with three recent entries kept, an accepted observation whose name matches the last two emits into an empty queue, whatever the oldest entry is |
| RobotV1.FourthEmits | robot.py:159-174 | a fourth consistent detection, the three before it recent, emits into an empty queue |
| RobotV1.AfterChangeFacts | robot.py:231-237 | the new state holds afterwards; a change to another state records the old one as previous and touches nothing else; the same state is a no-op, so changing twice is changing once |
| RobotV1.AfterChange | robot.py:231-237 | the new state holds afterwards, and a real change records the state left |
| RobotV1.DecideFacts | robot.py:198-227 | IDLE with a face goes to TRACKING; TRACKING that loses the face goes to IDLE at once; TRACKING with a face and a queued emotion takes it, stamps it and goes to EMOTION; EMOTION after 6 s goes to TRACKING or IDLE by the face; the previous state is the one left |
| RobotV1.Decide | robot.py:198-227 | TRANSITION is entered or left by no iteration, and a change records the state left |
| RobotV1.DecideNeverEntersTransition | robot.py:198-227 | the loop never enters TRANSITION and changes only along idle-tracking, tracking-emotion and emotion-tracking/idle |
| RobotV1.FaceDisplacementFacts | robot.py:267-275 | the displacement is (centre column - 160)/160: zero exactly at column 160, negative exactly left of it, within [-1, 1] for a face inside the frame |
| RobotV1.FaceDisplacement | robot.py:267-275 | zero exactly when the face's centre column (`x + w // 2`) is 160, negative exactly when it lies left of it |
| RobotV1.Robot.constructor | robot.py:24-56 | `__init__`: IDLE, no previous state, empty single-slot queue, empty history with `maxlen` 5 |
| RobotV1.Robot.ProcessEmotionDetection | robot.py:144-174 | the debouncer fields move exactly as one observation of the debouncer function says |
| RobotV1.Robot.ChangeState | robot.py:231-237 | the fields move as `_change_state` says |
| RobotV1.Robot.StateTick | robot.py:198-229 | one iteration moves the fields as the decision function says; the history is untouched |

## Left out

- Threads, locks, daemon loops, `start`/`close` of the robots and the vision, OLED, body, command and LED loops: their point is concurrency. One debouncer call, one command and one state-loop iteration are modelled sequentially, with the flags the other loops set (`face_detected`, `last_face_time`) as fields.
- The Dynamixel SDK transport (port opening, baud rate, packet framing, `DynamixelInterface.open`/`close`): it is foreign I/O, replaced by the `Bus` object's answer script and transaction log.
- The status a write returns (`write_byte`/`write_word` in body_v4.py): no caller reads it, so writes are logged without an answer.
- `time.sleep`, `time.time()` and the hold times of every gesture: time is the `now` parameter. A sleep of a fixed length only spaces the commands; where a caller chooses the length, the rows and lines below say what the model does with it.
- Floating point: floats are exact reals, so rounding differences of the Python arithmetic are not captured.
- Strings: `lower()` and `isspace()` are modelled on ASCII only.
- `start`, `close`, `calibrate`, `home_position`, `enable_motors`, `disable_motors` of body_v2.py and body_v3.py, and the gestures and random idle sequences built on the tracker: they sequence the modelled operations with sleeps and random choices.
- body_v4.py's `close`, `move_to_home`, `stop_all_wheels`, `_set_torque_limit`, `_calibrate_positions` and `_diable_all_servos`: they are only reached after `start`, which always raises, or through `set_mode(JOINT)` and `move_to_position`, which raise `AttributeError` as modelled.
- Perception internals (YuNet, TFLite, resizing, preprocessing, drawing): the detections and the classifier's scores are inputs.
- The OLED, `LED.breathing`, and robot.py's body loop with its `face_queue`: displays and floating-point brightness stepping.
- The average confidence both debouncers compute: it is only printed.
- BodyShared.Body.GetPosition: requires the id to have an estimate; the `HOME_POSITIONS` fallback after a failed read is unreachable for a scanned id, and the wheel-mode `KeyError` for an unknown id is not modelled.
- BodyV2.RunWheelMovements: models `go_back=False`, the only form `look_up` and `look_down` use. The readings of `time.time() - start` are a parameter that eventually reaches 3 s, and the 0.01 s sleeps between passes, which write nothing, are not modelled.
- BodyV3.RotateWheelGeared: the lengths of the sleeps are modelled only by their sign, which decides whether `time.sleep` raises; how long each leg runs is not modelled.
- BodyV2.RotateWheelGeared: `total_time` is modelled only by its sign, which decides whether the first sleep raises; how long each leg runs is not modelled.
- BodyV2.MovePositionsSmooth: the per-step delay (`duration`) is not a parameter; a negative one would make `time.sleep` raise `ValueError` after the first step's moves, which the model does not capture.
- Led.Strip.BlinkingSequence: `time_on` and `time_off` are not parameters; a negative one would make `time.sleep` raise `ValueError` after the first colour shown, which the model does not capture.
- Led.Strip.ShowEmotion: the random colour choice after the `TypeError` for "suprise" is never reached, so it is not modelled.
- RobotV2.CommandEffect: a stop word runs `close()`, which joins the state loop's own thread and raises before any hardware is released. The model returns that error with `running` cleared and `sequence_running` left set. The two-second joins of the other threads are not modelled.
- RobotV2.CommandEffect: the body calls `look_up`, `look_neutral` and `home_position` are recorded and assumed to return; a body call that raised would leave `sequence_running` set, as a stop does, and is not modelled.
- RobotV1.Robot.StateTick: `emotion_queue.get()` would block on an empty queue, but the loop calls it only after checking that the queue is not empty, and with one thread that check holds.
