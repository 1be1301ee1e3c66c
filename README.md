# Purple Eye robot controller: model of the browser script's core

`purple-eye.js` drives a small four-servo robot over Bluetooth Low Energy. This
project models the parts of it that have logic of their own:

- **Battery Monitor**: `indicateBatteryLevel` turns a battery level into a label
  (`value + '%'`) and one of five icon tiers chosen by a strict `>` threshold chain
  (85, 65, 40, 20). Modelled as pure functions returning the label text and the icon
  class name, instead of DOM writes (module `Battery`, with the decimal rendering in
  `Decimal`).
- **Servo Writer**: `writeServos` fills a 4-byte `Int8Array` by index, in the order
  rightLeg, rightFoot, leftFoot, leftLeg, and writes it to the servo characteristic.
  Each assignment applies ECMA-262 ToInt8 (section 7.1.10 of ECMA-262, 2022 edition):
  wrap modulo 256 into -128..127 (module `Int8`). The write's rejection is caught, so
  the call completes normally even when the device refuses the write. The postures
  `stand` (90,90,90,90), `spread` (110,94,86,70) and `rest` (0,0,0,0) are built on it
  (module `Servo`).
- **Motion Flags**: the module-level `dancing` and `shimming` booleans. `stopMoving`
  clears both. `shimmy` and `dance` clear both and then set their own flag. `rest`
  clears both before it writes. The pure transition function is in module `Motion`.
  It comes with lemmas over arbitrary call sequences: never both flags, and the last
  control call decides the flags.
- **Motion Sequencer**: the `step` and `danceStep` closures as state machines
  (module `Sequencer`). Shimmy alternates stand and spread on a captured `standing`
  bit. Dance moves `delta` by `5 * direction`, reverses once |delta| > 25, and sends
  90 + delta to all four servos. Both frame streams are specified completely. For the
  dance, an independent closed form of period 24 is proved equal to the step machine.
- **Controller**: the state the script mutates, as classes (module `Controller`).
  `Robot` holds the flags, whether the servo characteristic has been resolved, and the
  log `sent` of every payload handed to `writeValue`. `ShimmyLoop` and `DanceLoop` are
  the two closures with their captured variables. One step is one write followed by
  the flag check that decides whether the loop reschedules itself. `RunShimmy` and
  `RunDance` run a loop for a given number of timer ticks and are proved to emit
  exactly the stream the `Sequencer` functions describe.

Each write's success or failure is not an input of the model: the `.catch` at
purple-eye.js:77 swallows it, so nothing afterwards depends on it. `sent` records
attempted writes. Before `connect` has stored the characteristic, `servoCharasteristic`
is null and `writeServos` throws a TypeError before anything is written. The model
keeps this case: `linked` is false, `WriteServos` returns `ok == false` and the log is
unchanged. A loop whose write throws does not reschedule.

A level of 72 shows three-quarters, because 72 > 65 (purple-eye.js:12); see
`Battery.ReadThenNotify`.

## Model

| member | source | states |
|---|---|---|
| `Int8.ToInt8` | purple-eye.js:72-75 | the stored Int8Array element is an int8 congruent to the assigned value modulo 256 |
| `Int8.ToInt8Unique` | purple-eye.js:72-75 | that int8 is unique, so ToInt8 is exactly the modulo-256 wrap into -128..127 |
| `Int8.ToInt8InRange` | purple-eye.js:72-75 | a value already in -128..127 is stored unchanged |
| `Int8.ToInt8Periodic` | purple-eye.js:72-75 | values differing by a multiple of 256 store the same byte |
| `Decimal.NatToString` | purple-eye.js:8 | the rendering of a level is non-empty, all digits, with no leading zero except "0" itself |
| `Decimal.ParseRendered` | purple-eye.js:8 | reading the rendering back as decimal gives the level |
| `Decimal.RenderingInjective` | purple-eye.js:8 | distinct levels give distinct label digits |
| `Battery.Label` | purple-eye.js:8 | the label ends in '%', has no other '%', and the part before it is all digits, has no leading zero unless the level is 0, and parses back to the level |
| `Battery.TierOf` | purple-eye.js:10-20 | Full iff v > 85, ThreeQuarters iff 65 < v <= 85, Half iff 40 < v <= 65, Quarter iff 20 < v <= 40, Empty iff v <= 20 |
| `Battery.IconClass` | purple-eye.js:11-19 | every icon class is a "fa fa-battery-" class |
| `Battery.Indicate` | purple-eye.js:7-21 | the text is the level in decimal with no leading zero and one trailing '%'; the icon class is "fa fa-battery-full" iff v > 85, "-three-quarters" iff 65 < v <= 85, "-half" iff 40 < v <= 65, "-quarter" iff 20 < v <= 40, "-empty" iff v <= 20 |
| `Battery.TierBoundaries` | purple-eye.js:10-20 | 85, 65, 40 and 20 fall into the lower tier; 0 is Empty and 100 is Full |
| `Battery.TierCountsThresholds` | purple-eye.js:10-20 | the tier's rank equals the number of thresholds 20, 40, 65, 85 the level strictly exceeds |
| `Battery.TierMonotone` | purple-eye.js:10-20 | a higher level never shows a lower tier |
| `Battery.IconClassInjective` | purple-eye.js:11-19 | the five tiers set five different icon classes |
| `Battery.ReadThenNotify` | purple-eye.js:54-61 | a first read of 72 shows "72%" with three-quarters; a notification of 15 shows "15%" with empty |
| `Servo.Pack` | purple-eye.js:69-75 | four bytes; byte i is congruent to argument i modulo 256, in the order rightLeg, rightFoot, leftFoot, leftLeg |
| `Servo.PackInRange` | purple-eye.js:72-75 | arguments in -128..127 appear in the payload unchanged and in argument order |
| `Servo.PackUnique` | purple-eye.js:72-75 | any 4-byte payload congruent position by position to the arguments is the packed one |
| `Servo.Postures` | purple-eye.js:80-94 | stand is (90,90,90,90), spread is (110,94,86,70), rest is (0,0,0,0), no wrap-around, and the three differ |
| `Motion.Apply` | purple-eye.js:90-141 | a control call never leaves both flags true; a write keeps the flags; shimming is true afterwards only after shimmy or a write, dancing only after dance or a write |
| `Motion.ApplyEffects` | purple-eye.js:138-141 | after stopMoving or rest both flags are false; after shimmy only shimming; after dance only dancing; writes keep the flags |
| `Motion.RunSnoc` | purple-eye.js:96-141 | running one more call applies it to the flags the earlier calls left |
| `Motion.RunAppend` | purple-eye.js:96-141 | running two call sequences in turn equals running their concatenation |
| `Motion.RunKeepsAtMostOne` | purple-eye.js:96-141 | from flags not both true, no sequence of calls makes both true |
| `Motion.WritesKeepFlags` | purple-eye.js:69-88 | calls that only write servos leave both flags as they were |
| `Motion.LastControlCallDecides` | purple-eye.js:96-141 | the last shimmy, dance, stopMoving or rest fixes the flags, whatever came before and however many writes follow |
| `Sequencer.ShimmyPosture` | purple-eye.js:105 | a shimmy step sends stand exactly when `standing` is true and spread exactly when it is false |
| `Sequencer.StandingAfterParity` | purple-eye.js:100-106 | `standing` starts true and after k steps is true exactly when k is even |
| `Sequencer.ShimmyAlternates` | purple-eye.js:104-106 | shimmy step k sends stand when k is even and spread when k is odd |
| `Sequencer.ShimmyFramesLength` | purple-eye.js:104-106 | n shimmy steps send exactly n frames |
| `Sequencer.DanceNext` | purple-eye.js:123-126 | delta moves by exactly 5 times direction; direction keeps its size, and is reversed exactly when the new delta is beyond 25 either way |
| `Sequencer.WaveStep` | purple-eye.js:123-126 | one danceStep moves the closed-form wave from phase m to phase (m + 1) mod 24 |
| `Sequencer.DanceIsWave` | purple-eye.js:118-126 | after k steps delta and direction are the closed form at phase k mod 24: up 0..30, down to -30, up to 0 |
| `Sequencer.DanceBounds` | purple-eye.js:118-126 | delta stays a multiple of 5 in [-30, 30], direction stays +1 or -1, and ±30 occurs only just after a reversal |
| `Sequencer.DanceOpening` | purple-eye.js:118-126 | the deltas run 5,10,...,30, then 25,...,-30, then -25,...,0, and after 24 steps the state is the start again |
| `Sequencer.DanceInFirstPeriod` | purple-eye.js:118-126 | during the first 24 steps the dance state is the closed form at that step |
| `Sequencer.DanceFramesNoWrap` | purple-eye.js:122-127 | every dance frame is 90 + delta four times, within 60..120, so no value wraps |
| `Sequencer.DanceFramesLength` | purple-eye.js:122-127 | n dance steps send exactly n frames |
| `Controller.Robot.constructor` | purple-eye.js:3-5 | on load, both flags are false, no characteristic is stored and nothing has been sent |
| `Controller.Robot.ControlResolved` | purple-eye.js:41-44 | storing the servo characteristic changes neither the flags nor the log |
| `Controller.Robot.WriteServos` | purple-eye.js:69-78 | once linked, appends exactly the packed frame and completes normally, whatever the device answers; before that it throws and sends nothing; the flags never change |
| `Controller.Robot.Spread` | purple-eye.js:80-83 | appends the spread frame and nothing else |
| `Controller.Robot.Stand` | purple-eye.js:85-88 | appends the stand frame and nothing else |
| `Controller.Robot.StopMoving` | purple-eye.js:138-141 | both flags false, log unchanged |
| `Controller.Robot.Rest` | purple-eye.js:90-94 | both flags cleared before the rest frame is appended |
| `Controller.Robot.Shimmy` | purple-eye.js:99-115 | only shimming is true; the first step has sent stand and flipped standing; it reschedules iff the write did not throw |
| `Controller.Robot.Dance` | purple-eye.js:117-136 | only dancing is true; the first step has moved to delta 5 and sent its frame |
| `Controller.ShimmyLoop.constructor` | purple-eye.js:100 | a fresh shimmy closure starts with standing true |
| `Controller.ShimmyLoop.Step` | purple-eye.js:104-112 | sends the posture for standing, negates standing once, and continues iff shimming holds after the write |
| `Controller.ShimmyLoop.GuardedStep` | purple-eye.js:104-112 | the corrected step: sends nothing and stops when shimming is already false, otherwise behaves as Step |
| `Controller.DanceLoop.constructor` | purple-eye.js:118 | a fresh dance closure starts at delta 0, direction +1 |
| `Controller.DanceLoop.Step` | purple-eye.js:122-133 | moves the state by one DanceNext, sends 90 + delta to all four servos, and continues iff dancing holds after the write |
| `Controller.RunShimmy` | purple-eye.js:99-115 | shimmy() plus t ticks of the step as written sends exactly the first t + 1 frames of the alternating stream and leaves only shimming set |
| `Controller.RunDance` | purple-eye.js:117-136 | dance() plus t ticks sends exactly the first t + 1 dance frames and ends in state DanceAfter(t + 1) |
| `Controller.RestWhileShimmyTickQueued` | purple-eye.js:104-111 | as written, rest() before a queued shimmy tick gives frames stand, rest, spread: rest is not the last frame |
| `Controller.RestWhileGuardedShimmyTickQueued` | purple-eye.js:104-111 | with the guarded step the same calls give stand, rest: rest is the last frame |
| `Controller.DanceAfterShimmy` | purple-eye.js:99-120 | as written, dance() while a shimmy tick is queued leaves only dancing and stops the shimmy loop at that tick, but the tick still writes spread: frames stand, dance at 95, spread |
| `Controller.DanceAfterGuardedShimmy` | purple-eye.js:99-120 | with the guarded step the same calls give stand, dance at 95: the queued shimmy tick writes nothing |

## Findings

| source | as written | input that shows it | evidently intended | confidence | as-written member | corrected member |
|---|---|---|---|---|---|---|
| purple-eye.js:104-111 | `step` writes its posture before it looks at `shimming`; the flag is read only after the write completes | `shimmy()`; its write completes and `setTimeout(step, 0)` is queued; `rest()` runs before that tick; the tick then sends spread after rest's (0,0,0,0). Likewise `dance()` before that tick: spread follows the dance's first frame | once `stopMoving` has run no further shimmy frame is sent, so `rest()`'s frame is the last one and a started dance is not interrupted | medium, not executed | `Controller.RestWhileShimmyTickQueued` | `Controller.ShimmyLoop.GuardedStep` |

`Controller.RunShimmy` runs the step as written. `Controller.RestWhileGuardedShimmyTickQueued`
and `Controller.DanceAfterGuardedShimmy` prove that the guarded step fixes both cases. The dance loop has no such window: line 130 calls `danceStep()` inside the
write's completion callback, so the flag check and the next write happen together.

## Left out

- `connect` (purple-eye.js:23-67): device picker, GATT connection, service and characteristic lookup, battery read and notification subscription are foreign asynchronous I/O. Only its effect of storing the servo characteristic is kept (`Robot.ControlResolved`). The battery level it reads is taken as a `nat` parameter of `Battery.Indicate`.
- DOM updates and `console.log`: the label and the icon class are returned values; the log messages (including the swallowed write error) are not modelled.
- The device's answer to a write: the `.catch` makes it unobservable, so `sent` logs every attempted write. Web Bluetooth rejecting a write because another GATT operation is in progress is one such failure.
- Timing and the event loop: `setTimeout` and promise resolution become discrete steps, one write followed by one flag check. A write that has been issued but has not completed yet is not a separate state. So `rest()` landing while a write is in flight (the flag check then sees false) is not modelled. Only the queued-tick case in the findings is.
- Line 130 passes the result of `danceStep()` (undefined) to `setTimeout` instead of the function. This calls the next step inside the completion callback. Frames and flags are the same; only scheduling differs.
- Two live loops at once: calling `shimmy()` twice leaves the older closure running, because the flags are shared. `Controller.DanceAfterShimmy` covers only one queued tick of the older routine; general interleavings are concurrency and are not modelled.
- `Controller.RunShimmy`: models only uninterrupted runs; no other call happens between ticks.
- `Controller.RunDance`: models only uninterrupted runs; no other call happens between ticks.
- `Int8.ToInt8`: covers integral arguments only. NaN, infinities and fractions (which ToInt8 maps to 0 or truncates) never reach `writeServos` in this script, since every argument is an integer literal or 90 + delta.
