# Tron VR bike — a Dafny model of the game logic

This project models the gameplay logic of a Tron-style VR motorbike game built on
Unity. The player rides a bike along an endless track of tiles. A companion "bit"
flashes true or false: true for every tile reached, false for every crash. The bike
boots once the player grabs both ends of its handle bar. Engine sound, music and a
HUD follow the ride.

Each component becomes one Dafny module. Its state is an immutable datatype and each
callback is a pure function from state to state. Engine objects and calls are
replaced as follows:

- Transforms, rigidbodies, renderers and HUD switches become values in the result.
  For the bike these are `Bike.Effect`s.
- Animation curves become function parameters.
- Random draws become `roll` parameters (`Common.RandomRange`, the engine's integer
  `Random.Range`).
- The engine's frame time becomes `dt` (or a constant `step` inside a coroutine).
- The engine's `Lerp` clamps its parameter to [0, 1], and `Clamp` tests the lower
  bound first. `Common.Lerp` and `Common.Clamp` do the same.
- An index-out-of-range exception becomes a `thrown` flag. The result keeps the
  state changes made before the throw.
- `Distance(a, b) > 0.5` is compared as squared distance `> 0.25`.

Modules:

- `Common`: option, 3-vectors, clamp and lerp, the random range.
- `Bezier`: quadratic curve points.
- `Hover`: the three-target idle hovering used by the bit and the grab points.
- `Bit`: the state sequencer.
- `HandleBar` and `GrabPoint`: the grab protocol.
- `RoadTiles` and `NextTile`: the track window and the tile trigger.
- `SfxBit`: the voice and the tile counter.
- `Lightcycle`: phasing in and out.
- `AngleMultiplier`: the steering multiplier setting.
- `Hud`: dashboard, reset board and speed scale.
- `Music`: boot sound and random music.
- `EngineSound`: volume, pitch and stereo pan.
- `Bike`: the fixed-step ride control and its trigger callbacks.

## Model

| member | source | states |
|---|---|---|
| Common.Lerp | Assets/Tron_Scripts/Utility.cs:15 | the interpolation lies between its endpoints; a parameter at or below 0 gives the start, at or above 1 the end |
| Common.Clamp | Assets/Tron_Scripts/GUI/AngleMultiplyController.cs:42 | with ordered bounds the result lies within them; an in-range value is returned unchanged; the result is always the value or one of the bounds |
| Common.RandomRange | Assets/Tron_Scripts/LevelCreation/RoadTileController.cs:60-64 | with min < max the draw lies in [min, max); with equal bounds it is min |
| Common.RandomRangeReachesEveryValue | Assets/Tron_Scripts/LevelCreation/RoadTileController.cs:62 | every value of [min, max) is drawn for some roll |
| Bezier.NestedLerpIsQuadratic | Assets/Tron_Scripts/Utility.cs:5-15 | for t in [0, 1] the lerp of two lerps is the quadratic Bernstein form (1−t)²a0 + 2t(1−t)a1 + t²a2 |
| Bezier.GetPoint | Assets/Tron_Scripts/Utility.cs:13-16 | t ≤ 0 gives p0 and t ≥ 1 gives p2; three equal points give that point; for t in [0, 1] each coordinate is the quadratic Bézier of that coordinate |
| Bezier.GetPointIsComponentwise | Assets/Tron_Scripts/Utility.cs:15 | each coordinate of the point depends only on the same coordinate of the three control points |
| Hover.Start | Assets/Tron_Scripts/BitController.cs:100-105 | all three hover targets equal the start position |
| Hover.ShiftLoop | Assets/Tron_Scripts/BitController.cs:145-146 | the forward copy loop keeps the array length and slot 0 |
| Hover.ShiftLoopCopiesSlotZero | Assets/Tron_Scripts/BitController.cs:145-146 | once every slot before the loop index equals slot 0, the rest of the loop fills every slot with slot 0 |
| Hover.ForwardShiftDuplicatesSlotZero | Assets/Tron_Scripts/BitController.cs:145-146 | the forward loop meant to shift targets leaves every slot equal to the old slot 0 |
| Hover.ScaledOffsetIsShort | Assets/Tron_Scripts/BitController.cs:148 | a point of the unit ball scaled by d lies within distance d of the origin |
| Hover.Tick | Assets/Tron_Scripts/BitController.cs:141-152 | on refresh slots 1 and 2 both hold the old slot 0, the new slot 0 lies within hoverDistance of the start, and the time restarts at hoverTimeFrame − dt; otherwise the targets are kept and dt is subtracted |
| Bit.Start | Assets/Tron_Scripts/BitController.cs:100-105 | idle sequencer and every hover target on the local start position |
| Bit.TriggerState | Assets/Tron_Scripts/BitController.cs:160-169 | as written: while a routine runs the state is queued and the running one kept; when idle it starts at once, whatever waits in the queue |
| Bit.TriggerStateFifo | Assets/Tron_Scripts/BitController.cs:160-169 | corrected: the state is queued while a routine runs or requests wait, and starts at once only when neither is the case |
| Bit.Dispatch | Assets/Tron_Scripts/BitController.cs:116-117 | an idle bit with waiting requests starts the queue head and removes it; otherwise nothing changes |
| Bit.Finish | Assets/Tron_Scripts/BitController.cs:220 | the end of a routine clears the busy marker and leaves the queue alone |
| Bit.Update | Assets/Tron_Scripts/BitController.cs:112-118 | the hover state stays well-formed around the same start, and the queue is dispatched as above |
| Bit.Started | Assets/Tron_Scripts/BitController.cs:116-117 | an operation starts a routine only when none runs, and the routine then shows the started state |
| Bit.FifoStep | Assets/Tron_Scripts/BitController.cs:116-117 | under the corrected request, one operation's started state followed by the waiting queue equals the old queue followed by its request |
| Bit.FifoOrder | Assets/Tron_Scripts/BitController.cs:160-169 | under the corrected request, over any operations, the states shown followed by those still waiting are the earlier waiting ones followed by all requests in call order |
| Bit.DisplayOrderIsFifo | Assets/Tron_Scripts/BitController.cs:94-96 | from idle, the corrected bit shows a prefix of the requested states, in call order |
| Bit.AsWrittenStep | Assets/Tron_Scripts/BitController.cs:160-169 | as written, one operation keeps every request (as a multiset) |
| Bit.AsWrittenKeepsEveryRequest | Assets/Tron_Scripts/BitController.cs:160-169 | as written, over any operations no request is lost or duplicated, though the order can change |
| Bit.AsWrittenTriggerJumpsQueue | Assets/Tron_Scripts/BitController.cs:160-169 | as written, requests true, false, routine end, true show true, true: the last request overtakes the waiting false |
| HandleBar.AssignGrabbingController | Assets/Tron_Scripts/HandleBar/HandleBarController.cs:60-85 | `isRight` picks the slot; a filled slot refuses the call and nothing changes; otherwise only that slot is set; the event fires exactly when this call fills the second slot |
| HandleBar.SlotsAreAssignedOnce | Assets/Tron_Scripts/HandleBar/HandleBarController.cs:62-81 | over any calls a filled slot keeps its controller |
| HandleBar.FiresAtMostOnce | Assets/Tron_Scripts/HandleBar/HandleBarController.cs:83-84 | over any calls the event fires at most once, never for a bar already full, and exactly once when the calls fill it |
| GrabPoint.Start | Assets/Tron_Scripts/HandleBar/HandleGrabPointController.cs:66-72 | no controller, not grabbed, all hover targets on the start position |
| GrabPoint.OnTriggerEnter | Assets/Tron_Scripts/HandleBar/HandleGrabPointController.cs:93-104 | the controller becomes current exactly when the point is not grabbed, the side matches and it is not already current |
| GrabPoint.OnTriggerExit | Assets/Tron_Scripts/HandleBar/HandleGrabPointController.cs:107-118 | the current controller is cleared exactly when it is the leaving one and the point is not grabbed |
| GrabPoint.Update | Assets/Tron_Scripts/HandleBar/HandleGrabPointController.cs:74-90 | a grabbed point is untouched; otherwise it grabs and reports (current controller, isLeft) to the bar exactly when it has a current controller whose grip is pressed |
| GrabPoint.Step | Assets/Tron_Scripts/HandleBar/HandleGrabPointController.cs:74-118 | every callback keeps the point well-formed: grabbed implies a current controller, which is of the point's side |
| GrabPoint.Run | Assets/Tron_Scripts/HandleBar/HandleGrabPointController.cs:74-118 | the well-formedness holds across any sequence of callbacks |
| GrabPoint.GrabIsPermanent | Assets/Tron_Scripts/HandleBar/HandleGrabPointController.cs:99-116 | once grabbed, no sequence of callbacks changes the point |
| GrabPoint.CrossedSlotsStillFireOnce | Assets/Tron_Scripts/HandleBar/HandleGrabPointController.cs:159-162 | the left point's controller lands in the bar's right slot, and the bar event fires on the second grab only |
| RoadTiles.RandomIndex | Assets/Tron_Scripts/LevelCreation/RoadTileController.cs:60-64 | the prefab index lies in [0, prefab count) for a non-empty list |
| RoadTiles.LastTwo | Assets/Tron_Scripts/LevelCreation/RoadTileController.cs:52-53 | at most two tiles remain, and a window of at most two is kept whole |
| RoadTiles.CreateNewTile | Assets/Tron_Scripts/LevelCreation/RoadTileController.cs:49-54 | with no prefabs the call throws and nothing changes; otherwise the new tile is the last child at the link's pose, the oldest is removed past two tiles with the rest in order, and a window of at most two stays so |
| RoadTiles.Start | Assets/Tron_Scripts/LevelCreation/RoadTileController.cs:34-38 | the start area is active and exactly one tile stands at the start link |
| RoadTiles.CreateKeepsLastTwo | Assets/Tron_Scripts/LevelCreation/RoadTileController.cs:49-54 | one creation on a window of at most two leaves the last two of the old window plus the new tile |
| RoadTiles.LastTwoAbsorbs | Assets/Tron_Scripts/LevelCreation/RoadTileController.cs:52-53 | trimming to two before appending and trimming again equals trimming once at the end |
| RoadTiles.WindowHoldsLastTwo | Assets/Tron_Scripts/LevelCreation/RoadTileController.cs:49-54 | after any creations the children are the last two of the old children followed by the new tiles |
| NextTile.OnTriggerEnter | Assets/Tron_Scripts/LevelCreation/CreateNextTile.cs:41-48 | only a "Player" collider acts; it creates the tile at this tile's link and then asks the bit for true, in that order, through the request as written; a failed creation stops before the bit |
| NextTile.TrueTriggersAppend | Assets/Tron_Scripts/LevelCreation/CreateNextTile.cs:46 | the true requests of two call lists add up |
| NextTile.EveryPlayerEntryCounts | Assets/Tron_Scripts/LevelCreation/CreateNextTile.cs:41-48 | each player entry makes one true request, and the bit, under the request as written, holds each one as running or waiting, without merging any |
| SfxBit.Init | Assets/Tron_Scripts/musicSfx/SfxBitController.cs:33 | the counter starts at 0 and nothing plays |
| SfxBit.Delta | Assets/Tron_Scripts/musicSfx/SfxBitController.cs:59-62 | index 1 counts +1, index 0 counts −1, any other index 0 |
| SfxBit.BitTalk | Assets/Tron_Scripts/musicSfx/SfxBitController.cs:51-69 | the same clip playing makes the call a no-op; otherwise the counter moves by the index's delta, the clip plays and the text shows the counter; a bad index throws, after the count when nothing played |
| SfxBit.RepeatedTalkCountsOnce | Assets/Tron_Scripts/musicSfx/SfxBitController.cs:53-57 | repeating a call while its clip plays changes nothing |
| SfxBit.YesThenNoCancels | Assets/Tron_Scripts/musicSfx/SfxBitController.cs:59-62 | a yes followed by a no returns the counter to its start |
| Lightcycle.PhasingExpandSphere | Assets/Tron_Scripts/LightcycleController.cs:126-135 | a request for the phase held, or during a routine, is ignored; otherwise a routine for that direction starts |
| Lightcycle.Start | Assets/Tron_Scripts/LightcycleController.cs:97-109 | radius 0, not phased in, no completions; a routine toward phased-in starts only with the debug setting |
| Lightcycle.SwitchLightcycleGO | Assets/Tron_Scripts/LightcycleController.cs:176-181 | the sphere-phase object is hidden and the runtime object shown |
| Lightcycle.PhasingRoutine | Assets/Tron_Scripts/LightcycleController.cs:142-171 | the loop ends just past 1 (in) or 0 (out); the radius is the curve at exactly 1 or 0; the phase is recorded, the marker cleared and the objects swapped |
| Lightcycle.FadeGlassRoutine | Assets/Tron_Scripts/LightcycleController.cs:187-200 | the loop ends just below 0, the threshold is exactly 0 and the completion event fires once |
| Lightcycle.PhaseAndFade | Assets/Tron_Scripts/LightcycleController.cs:126-200 | an accepted request ends in the requested phase with the runtime object shown, clear glass and one more completion, in either direction |
| AngleMultiplier.Init | Assets/Tron_Scripts/GUI/AngleMultiplyController.cs:29 | the multiplier starts at 1 |
| AngleMultiplier.SetCurrent | Assets/Tron_Scripts/GUI/AngleMultiplyController.cs:34-45 | a value equal to the store changes nothing and raises nothing; otherwise the store is the value clamped to [0.01, max] and the event receives the raw value |
| AngleMultiplier.InRangeSetIsIdempotent | Assets/Tron_Scripts/GUI/AngleMultiplyController.cs:39-42 | setting an in-range value a second time changes nothing and raises nothing |
| AngleMultiplier.OutOfRangeSetFiresAgain | Assets/Tron_Scripts/GUI/AngleMultiplyController.cs:39-43 | setting an out-of-range value again raises the event again with the store unchanged |
| Hud.SwitchToResetboard | Assets/Tron_Scripts/GUI/HUDController.cs:87-91 | exactly one of reset board and dashboard is active, the reset board exactly when the flag is set |
| Hud.SetIncrementText | Assets/Tron_Scripts/GUI/HUDController.cs:96-103 | every slot gets a label; label i is (i+1)/(n+1) of the maximum speed; for a positive maximum the labels increase strictly and lie strictly between 0 and the maximum |
| Hud.IncrementIsShare | Assets/Tron_Scripts/GUI/HUDController.cs:100 | the label computed for slot i of n is exactly (i+1)/(n+1) of the maximum speed |
| Hud.IncrementBounds | Assets/Tron_Scripts/GUI/HUDController.cs:100 | for a positive maximum speed, every slot's label lies strictly between 0 and the maximum |
| Hud.IncrementIncreases | Assets/Tron_Scripts/GUI/HUDController.cs:100 | for a positive maximum speed, a later slot's label is strictly larger than an earlier one's |
| Hud.Start | Assets/Tron_Scripts/GUI/HUDController.cs:66-72 | dashboard shown, reset board hidden, every speed label assigned |
| Music.Start | Assets/Tron_Scripts/musicSfx/MusicController.cs:49-55 | random music is not allowed yet |
| Music.RandomIndex | Assets/Tron_Scripts/musicSfx/MusicController.cs:82-86 | with at least two clips the index lies in [1, clip count), so the boot sound is never drawn |
| Music.PlayNextClip | Assets/Tron_Scripts/musicSfx/MusicController.cs:92-97 | a valid index leaves clips[index] playing; a bad one throws with the source stopped |
| Music.Update | Assets/Tron_Scripts/musicSfx/MusicController.cs:62-72 | a new random clip starts only when nothing plays and the bike has booted; with fewer than two clips that frame throws |
| Music.PlayBootSound | Assets/Tron_Scripts/musicSfx/MusicController.cs:103-123 | the intro wait and the boot both play clip 0 |
| Music.PlayMusic | Assets/Tron_Scripts/musicSfx/MusicController.cs:112-115 | the booted flag is set |
| Music.OnlyBootSoundBeforePhaseIn | Assets/Tron_Scripts/musicSfx/MusicController.cs:66-71 | until the phase-in completes the source holds its old clip or clip 0 |
| Music.BootedStaysBooted | Assets/Tron_Scripts/musicSfx/MusicController.cs:112-115 | once set, the booted flag is never cleared |
| EngineSound.Start | Assets/Tron_Scripts/musicSfx/SFXController.cs:101-115 | volume and pitch start at their minimum; the pan direction is +1 with the switch setting and −1 otherwise |
| EngineSound.Desired | Assets/Tron_Scripts/musicSfx/SFXController.cs:134-136 | the target level is the minimum at speed fraction 0, the maximum at 1, and between them for fractions in [0, 1] |
| EngineSound.NormaliseTilt | Assets/Tron_Scripts/musicSfx/SFXController.cs:166-168 | a lean in [0, 360) maps into (−180, 180] and differs from it by 0 or 360 |
| EngineSound.Pan | Assets/Tron_Scripts/musicSfx/SFXController.cs:170 | the pan times the maximum tilt is the direction times the normalised lean |
| EngineSound.Update | Assets/Tron_Scripts/musicSfx/SFXController.cs:117-172 | moving forward starts a stopped sound untouched; standing with nothing playing returns early without panning; a fade that reaches the minimum volume stops at minimum pitch and resets the fade clock |
| EngineSound.UpdateKeepsRange | Assets/Tron_Scripts/musicSfx/SFXController.cs:124-158 | within the maximum speed a frame keeps volume and pitch within their configured ranges |
| EngineSound.LevelsStayInRange | Assets/Tron_Scripts/musicSfx/SFXController.cs:117-172 | the range holds over any frames within the maximum speed |
| EngineSound.FadeCompletes | Assets/Tron_Scripts/musicSfx/SFXController.cs:149-158 | once fade time times speed reaches 1, the sound stops at minimum volume and pitch with the clock reset |
| EngineSound.PanWithinUnitRange | Assets/Tron_Scripts/musicSfx/SFXController.cs:164-171 | a lean within the maximum tilt gives a pan in [−1, 1], and no lean gives no pan |
| Bike.Initial | Assets/Tron_Scripts/moving_v1.cs:331-337 | a new bike is not booted, on the ground, at rest, with the placement's heading and multiplier 1 |
| Bike.Start | Assets/Tron_Scripts/moving_v1.cs:331-337 | the heading comes from the placement, the fall ends and the multiplier is 1 |
| Bike.GetBreak | Assets/Tron_Scripts/moving_v1.cs:252-256 | the percentage round trip cancels, so the brake amount is the maximum brake times the brake curve at velocity / maximum velocity; with a non-negative maximum it is non-negative for a non-negative curve value and at most the maximum for a curve value at most 1 |
| Bike.GetAcceleration | Assets/Tron_Scripts/moving_v1.cs:261-265 | the percentage round trip cancels, so the acceleration is the maximum acceleration times the curve at velocity / maximum velocity; with a non-negative maximum and a curve value in [0, 1] it lies in [0, maximum acceleration] |
| Bike.SteerAndBrake | Assets/Tron_Scripts/moving_v1.cs:154-189 | falling only moves down; the heading changes only when grounded, faster than 0.1 either way and steering beyond 0.1, by axis × sensitivity × multiplier; braking only slows a grounded bike faster than 0.1 forward |
| Bike.Accelerate | Assets/Tron_Scripts/moving_v1.cs:192-216 | the velocity grows by acceleration × input + friction exactly when the input exceeds 0.01 and the velocity is at most the maximum; the rigidbody stops when pressed below speed 3 |
| Bike.BrakeInput | Assets/Tron_Scripts/moving_v1.cs:221-235 | pressed while moving forward sets the brake flag; pressed otherwise reverses and keeps the flag; released clears it |
| Bike.TiltMotorbike | Assets/Tron_Scripts/moving_v1.cs:296-305 | the steering sensitivity stays in [1, max] and is 1 at maximum velocity or above |
| Bike.TiltBounds | Assets/Tron_Scripts/moving_v1.cs:296-305 | the tilt is at most the axis times the maximum tilt in magnitude, and 0 at standstill |
| Bike.MoveForward | Assets/Tron_Scripts/moving_v1.cs:310-314 | the lean is recomputed from the steering axis, and the bike advances at its velocity, rotated by heading and minus the tilt |
| Bike.Drag | Assets/Tron_Scripts/moving_v1.cs:280-290 | a forward-moving bike loses exactly the friction; any other stops at exactly 0 |
| Bike.ResetResetBoard | Assets/Tron_Scripts/moving_v1.cs:383-391 | beyond 0.5 from the hit position the latch clears, the obstacle reappears and the dashboard returns; otherwise nothing happens |
| Bike.FixedUpdate | Assets/Tron_Scripts/moving_v1.cs:150-247 | an unbooted bike does nothing; the inputs, ground flags and hit position are kept; the latch only clears, exactly beyond 0.5 from the hit; the velocity ends at 0 or above −friction |
| Bike.OnTriggerEnter | Assets/Tron_Scripts/moving_v1.cs:356-379 | ground freezes the height, marks the constraint and ends the fall; an obstacle sets the latch, stops the bike, clears the forward input, hides the obstacle, shows the reset board, stores the hit position and asks the bit for false |
| Bike.OnTriggerExit | Assets/Tron_Scripts/moving_v1.cs:344-350 | leaving the ground above height 1 starts the fall; nothing else changes |
| Bike.OnTriggerStay | Assets/Tron_Scripts/moving_v1.cs:401-409 | staying on the ground while constrained releases the constraint; otherwise nothing happens |
| Bike.Step | Assets/Tron_Scripts/moving_v1.cs:393-449 | the setters store boot state, steering axis, brake input and hand positions; the forward input is passed through the response curve |
| Bike.AccelerationAtMost | Assets/Tron_Scripts/moving_v1.cs:209 | with curves in [0, 1] and input in (0, 1] one step's acceleration lies in [0, maximum acceleration] |
| Bike.SteerAndBrakeNeverSpeedsUp | Assets/Tron_Scripts/moving_v1.cs:177-187 | with a non-negative brake curve and maximum brake, steering and braking never raise the velocity |
| Bike.AccelerateWithinEnvelope | Assets/Tron_Scripts/moving_v1.cs:192-216 | accelerating from a velocity at most the maximum plus one full acceleration, with the input at most 1, leaves it at most that bound plus the friction the drag takes off again |
| Bike.FixedUpdateKeepsEnvelope | Assets/Tron_Scripts/moving_v1.cs:150-247 | a fixed step keeps the velocity in [−friction, maximum velocity + maximum acceleration] |
| Bike.StepKeepsEnvelope | Assets/Tron_Scripts/moving_v1.cs:150-449 | every operation keeps that envelope |
| Bike.SpeedStaysInEnvelope | Assets/Tron_Scripts/moving_v1.cs:150-449 | the envelope holds over any sequence of steps, triggers and inputs |
| Bike.FrictionIsCompensated | Assets/Tron_Scripts/moving_v1.cs:200-210 | with the input pressed and a zero curve value a forward-moving grounded bike keeps its speed exactly |
| Bike.FallingStillAccelerates | Assets/Tron_Scripts/moving_v1.cs:152-216 | a falling bike still accelerates, keeps its heading and moves down first |
| Bike.LatchHoldsNearHit | Assets/Tron_Scripts/moving_v1.cs:240-243 | over any fixed steps within 0.5 of the hit the latch stays set |
| Bike.HitThenClear | Assets/Tron_Scripts/moving_v1.cs:365-391 | an obstacle hit stops the bike and sets the latch, and the first booted step beyond 0.5 clears it |

## Left out

- Vector math of the hand steering value (moving_v1.cs `calSteeringValue`): the value is an input of the step (`Bike.Sensors.handSteer`).
- Transform motion and rotation, rigidbody velocity and constraints: recorded as `Bike.Effect`s and not simulated.
- Vignette intensity, HUD speed and tilt display, gluing and following of grab points, and `SmoothDamp` smoothing. These are presentation only.
- Scale lerps of the bit's states, shader and material parameters, and the lightcycle's vicinity shaders. A coroutine is kept as its begin and end events. Only the last shader values written are kept.
- Coroutine timing: the frame-time step of a routine is a constant positive `step`. `WaitForSeconds` delays are not modelled.
- `Random.Range` with min > max is not modelled; the model returns min there.
- Unity defers `Destroy` to the end of the frame. Removal is immediate in the model.
- Unity's own exception handling is not modelled: an exception ends the callback, and the model keeps the changes made before it.
- `ReadController`, `ResetButtonDetector`, `FacePlayerCam` and the bit's editor script are not part of this model.
- Floating point: all quantities are unbounded reals. Rounding of HUD labels (`RoundToInt`, `ToString`) is not modelled.
- Bike.Accelerate: the branch for a forward input of at most 0 is dead inside the check for input above 0.01, so it is not modelled.
- Bike.FixedUpdate: divisions by a zero maximum velocity or maximum steering increase give infinities in the engine. `Bike.WellFormed` requires both to be positive.
- EngineSound.Update: the engine clamps the stereo pan to [−1, 1]. The model records the value as assigned. `EngineSound.PanWithinUnitRange` shows it is in range while the lean stays within the maximum tilt.
- EngineSound.Update: `EngineSound.WellFormed` requires a positive maximum speed and a positive maximum tilt, because the engine would divide by zero otherwise.
- Hud.SetIncrementText: labels hold the increment as a real. The text conversion is not modelled.
- The settings UI's slider and text input, and the event that copies the angle multiplier into the bike, are left out. The bike's multiplier is a field set by `Bike.Start`.

## Findings

| source | as written | input that shows it | evidently intended | confidence | as-written member | corrected member |
|---|---|---|---|---|---|---|
| Assets/Tron_Scripts/BitController.cs:160-169 | a request while no routine runs starts at once, even when older requests still wait in the queue (a routine ended and no frame has dispatched yet) | TriggerState(true), TriggerState(false), routine ends, TriggerState(true) before the next frame: shows true, true, then false | requests are shown in call order, as the queue's comment (lines 93-96) describes | medium, not executed | Bit.AsWrittenTriggerJumpsQueue | Bit.FifoOrder |
