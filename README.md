# Fishing game: the discrete game flow

This project models the game flow of a small browser fishing game. A fish
wanders (IDLE), swims to the bobber (APPROACHING), sometimes nibbles
(NIBBLING), and finally bites (BITING), which pulls the bobber under. The
player must press Space during the bite. The round is then *caught*, or, if the
press came too early or never came, *missed*, and the fish swims off
(FLEEING). A message stays on screen for 120 frames after each outcome. A
caught round resumes when the message runs out. A missed round resumes when
the fleeing fish has finished.

The model has three modules:

- `FishingState` (fishing_state.dfy) holds the values. `World` is the fish's
  `state` and `stateTimer`, `bobber.state`, and the globals `gameState`,
  `message` and `messageTimer`. `Rolls` holds the outcome of every
  `Math.random()` gate that decides a change of the discrete state, and of the
  distance test `dist > 60`, in one call of `Fish.update`. There is one pure
  function per operation that changes the state: `FishUpdate`, `Flee`, `Reset`, `KeyDown`, `DrawUI`, and
  `Frame` for one call of `loop`. `Inv` is the invariant that holds between
  any two events.
- `FishingGame` (fishing_game.dfy) holds the class `Game`. Its fields are those
  variables, and its methods update them in place as the JavaScript does:
  `Update`, `Flee`, `Reset`, `OnKeyDown`, `DrawUI` and `Loop`. Each method is
  proved to take `Snapshot()` to the matching function of the old snapshot.
  `OnKeyDown` and `Loop` also keep `Valid()`.
- `FishingProperties` (fishing_properties.dfy) holds the lemmas: the conditions
  for each transition, the timer discipline, the effect of each key press, the
  message countdown, the invariants, and how many frames the bite, catch and
  miss phases last.

The invariant `Inv` is stronger than "submerged ⇒ BITING, missed ⇒ FLEEING,
caught ⇒ BITING and floating". Between events the code also keeps these facts:

- `missed` holds exactly when the fish is FLEEING.
- The bobber is submerged exactly when the fish is BITING during play.
- The message timer stays in 0..120.
- While playing, the message timer is 0.
- While missed, `stateTimer + messageTimer <= 120`. So the miss message has run
  out by the time play resumes.
- While caught, the message timer is positive.
- A BITING fish during play has `stateTimer <= 30`.

The model follows the code, including these details:

- Not every transition resets `stateTimer`. Moving from APPROACHING to NIBBLING
  (script.js:81) keeps the incremented timer. A fish that starts to nibble
  after about 30 updates is therefore NIBBLING for only one update
  (`LateNibble`).
- The bite window closes on the 31st update after entry, not the 30th, because
  the test is `stateTimer > 30`. Likewise, a fleeing fish resets on its 121st
  update.
- `messageTimer` is 120 right after the timeout update. It is 119 once that
  frame's `drawUI` has run. `BiteTimeout` states both values.
- While caught or missed, a key press does nothing. It does not end the round
  early.
- `gameState` takes only the values playing, caught and missed. The thresholds
  100, 200, 30 and 120 and the message length 120 are constants in the code.

## Model

| member | source | states |
|---|---|---|
| FishingState.Initial | script.js:7-20 | the game starts with an IDLE fish whose timer is 0, a floating bobber, `playing`, and message timer 0 |
| FishingState.Reset | script.js:28-41 | reset makes the fish IDLE with timer 0 and leaves the bobber, game state and message unchanged |
| FishingState.Flee | script.js:180-184 | flee makes the fish FLEEING with timer 0 and floats the bobber; the game state and message are unchanged |
| FishingState.FishUpdate | script.js:50-148 | after an update the timer is either the old timer plus one or 0 |
| FishingState.KeyDown | script.js:237-259 | a key press either leaves the fish timer alone or sets it to 0 |
| FishingState.DrawUI | script.js:370-383 | the message countdown never makes a non-negative message timer negative |
| FishingGame.Game.constructor | script.js:222-234 | the first resize creates a fresh fish; the object starts in the initial world and satisfies the invariant |
| FishingGame.Game.Reset | script.js:28-41 | the fields move as `Reset` says: IDLE with timer 0, nothing else changes |
| FishingGame.Game.Flee | script.js:180-184 | the fields move as `Flee` says: FLEEING, timer 0, bobber floating |
| FishingGame.Game.Update | script.js:50-148 | the in-place state machine of `Fish.update` computes exactly `FishUpdate` of the old fields and the rolls |
| FishingGame.Game.OnKeyDown | script.js:237-259 | the keydown listener computes `KeyDown` of the old fields and keeps the invariant |
| FishingGame.Game.DrawUI | script.js:370-383 | the countdown computes `DrawUI` of the old fields |
| FishingGame.Game.Loop | script.js:385-402 | one frame calls `Update` only while playing or missed, then runs `DrawUI`; the result is `Frame` of the old fields, and the invariant is kept |
| FishingProperties.UpdateTimer | script.js:50-148 | each update increments the timer, then ends at 0 exactly when the state changed, except on the move into NIBBLING, which keeps the incremented timer |
| FishingProperties.IdleApproach | script.js:55-68 | IDLE becomes APPROACHING if and only if the incremented timer exceeds 200 and the draw succeeds; otherwise it stays IDLE; bobber, game and message are untouched |
| FishingProperties.BiteEntry | script.js:70-93 | a fish that is not BITING becomes BITING if and only if it was APPROACHING, within 60 units, with incremented timer above 100 and a successful bite draw; it then has timer 0 and the bobber is submerged |
| FishingProperties.NibbleOrBite | script.js:79-91 | within range, a nibble decision gives NIBBLING with the timer not reset, unless the bite check fires in the same tick, in which case the fish is BITING with timer 0 |
| FishingProperties.ApproachStays | script.js:70-93 | an APPROACHING fish that does not bite stays APPROACHING or NIBBLING, and is NIBBLING if and only if it is close and both nibble draws succeed; its timer goes up by one |
| FishingProperties.LateNibble | script.js:79-111 | a nibble that starts once the timer is 29 or more lasts one update: the timer is already past 10, and the next update returns the fish to APPROACHING with timer 0 |
| FishingProperties.NibbleEnds | script.js:95-111 | NIBBLING becomes APPROACHING with timer 0 if and only if the incremented timer exceeds 30; otherwise it stays NIBBLING and the timer goes up by one |
| FishingProperties.FleeingExit | script.js:134-147 | FLEEING is left if and only if the incremented timer exceeds 120 while missed, and then the fish is IDLE with timer 0 and play resumes; otherwise the fish stays FLEEING and the game state is unchanged |
| FishingProperties.SpaceWhilePlaying | script.js:237-254 | Space while playing: a BITING fish is caught, stays BITING with its timer, the bobber floats and "Caught!" is shown; any other fish flees with timer 0, the round is missed with "Too early!"; both set the message timer to 120 |
| FishingProperties.KeyIgnored | script.js:237-259 | Space while caught or missed, and any other key, leave the whole state unchanged |
| FishingProperties.Countdown | script.js:370-383 | drawUI lowers a positive message timer by one and leaves 0 alone, so it never goes negative; reaching 0 while caught resumes play with a reset fish; otherwise game state and fish are untouched |
| FishingProperties.CaughtFreezesFish | script.js:392-395 | while caught, a frame leaves the fish's state and timer unchanged, unless the message runs out on that frame, in which case play resumes with an IDLE fish |
| FishingProperties.MessageTicks | script.js:385-402 | a reachable state with a message showing goes down by exactly one message-timer unit per frame |
| FishingProperties.InitialInv | script.js:7-20 | the initial state satisfies the invariant |
| FishingProperties.FrameKeepsInv | script.js:385-402 | every frame keeps the invariant |
| FishingProperties.KeyKeepsInv | script.js:237-259 | every key press keeps the invariant |
| FishingProperties.RunKeepsInv | script.js:385-402 | any sequence of frames and key presses keeps the invariant |
| FishingProperties.Reachable | script.js:50-184 | in every reachable state: submerged bobber ⇒ BITING; missed ⇒ FLEEING; caught ⇒ BITING with the bobber floating; the message timer is never negative |
| FishingProperties.BitingFrames | script.js:113-132 | during play, a BITING fish with timer t stays BITING through 30 - t frames, and only its timer moves |
| FishingProperties.BiteTimeout | script.js:113-132 | with no key press, a BITING fish leaves on the 31st update after entry: it becomes FLEEING with timer 0, missed, "Too slow!", bobber floating, message timer 120 right after the update and 119 after that frame; before that it is BITING with only the timer changed |
| FishingProperties.CaughtFrames | script.js:370-383 | while the message is still showing, a caught round only counts the message timer down |
| FishingProperties.CatchPhase | script.js:370-383 | a caught round stays caught, with the fish frozen, for as many frames as the message lasts; on the last of those frames play resumes with an IDLE fish at timer 0 |
| FishingProperties.MissedFrames | script.js:134-147 | while missed, each frame raises the fleeing timer by one and counts the message down to 0 |
| FishingProperties.MissPhase | script.js:134-147 | a missed round stays missed and FLEEING for 121 - stateTimer frames; on the last of those frames play resumes with an IDLE fish, timer 0 and the message timer at 0 |

## Left out

- Positions, velocities, friction, heading smoothing, the tail oscillator, the
  bite shake, the spawn ring in `reset`, and the `setTarget` steering force
  are left out. They are floating-point kinematics with no effect on the
  discrete state.
- The IDLE wander draw (script.js:57-62) is left out. It only calls
  `setTarget`, which changes velocity, so the model has no input for it.
- The distance test at script.js:73 is an independent boolean input. The model
  does not tie it to positions, so any sequence of near and far is allowed.
- Each `Math.random()` gate is an independent boolean input. Probabilities are
  not modelled. The results hold for every outcome of the draws.
- Rendering is left out: `Fish.draw`, `drawWater`, `drawBobber`,
  `getWaterHeight`, the drawing half of `drawUI`, and the `waves` ripple list.
  These are presentation only.
- `time` and `bobber.submergeTime` are left out. They are floats used only for
  visuals.
- `resize`, `addEventListener` and `requestAnimationFrame` are left out. They
  are I/O plumbing. `Game.Loop` is one iteration, and `Run` is any order of
  frames and key presses.
