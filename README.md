# 3D rain effect: a Dafny model of the `Rain` frame simulation

`Rain` (src/js/rain.js) draws a storm over a page element: falling rain
drops, slowly turning cloud planes, two coloured point lights that flicker
and swap, a lightning flash on click or touch, and a looping ambient track
that fades out near its end. Without the Three.js scene, the DOM and the
HTML audio element, what remains is a small simulation stepped once per
frame. This project models that simulation and proves what it keeps.

- `Viewport`: the size capped at 1000 x 1000 and the drop and cloud counts.
- `UserAgent`: `checkMobile`, a keyword search in the user-agent string.
- `Draws`: every `Math.random()` call is a parameter in [0, 1).
- `Drops`: one drop's spawn and its fall in one frame, and over many frames.
- `Clouds`: one cloud's placement and its rotation.
- `LightningTimer`: the re-armable 1000 ms lightning timer, as a deadline on a millisecond clock.
- `Lights`: the `PointLight` objects, the switch rule of `changePointLight` and the flicker rule.
- `AudioLoop`: the fade rule of `checkAudioLoop` and the `mute` flag.
- `RainScene`: the `Rain` class. It has two lights and a `current` pointer, the arrays of drops and clouds, the deadline and the track. Its methods are proved against the functions above.

Numbers are `real`, so every property holds under exact arithmetic.
The class invariant `Rain.Valid()` says:
- the pointer is on one of two distinct lights;
- no power is negative;
- there is one drop per counted drop;
- no drop is above the ceiling of 200 or moving upwards;
- the track's volume is in [0, 1].

Every method keeps it.

Three details of the lights decide much of the behaviour:
- A lightning trigger always ends on light 2 with light 1 out. `lightning()` calls `changePointLight(true)`. That first points at light 1 and then uses the draw 1, so it always moves on to light 2 (`Lights.SwitchFor`, `Rain.Lightning`).
- While lightning, the flicker's power base is 100; otherwise it is 50.
- The flicker acts on the light captured when the frame starts (src/js/rain.js:304). After a switch, that may no longer be the current light.

## Model

| member | source | states |
|---|---|---|
| Viewport.Cap | src/js/rain.js:4-7 | the used size is the minimum of the element's size and 1000 |
| Viewport.RainCount | src/js/rain.js:94-98 | the drop count is the floor of width·height/50, so at most 20000 for a capped viewport |
| Viewport.CloudCount | src/js/rain.js:188 | the cloud count is the floor of width·height/10000, so at most 100 for a capped viewport |
| Viewport.AreaBound | src/js/rain.js:4-7 | two capped sizes multiply to at most 1000·1000 |
| Viewport.CountsBounded | src/js/rain.js:4-7 | whatever the element's size, at most 20000 drops and 100 clouds |
| Viewport.FullViewport | src/js/rain.js:94-98 | an element of at least 1000 x 1000 gets exactly 20000 drops and 100 clouds |
| UserAgent.Occurs | src/js/rain.js:70 | `match` with a keyword as a substring search, trying each start position of the user agent in turn |
| UserAgent.OccursCorrect | src/js/rain.js:70 | the substring search finds a keyword exactly when it occurs at some position of the user agent |
| UserAgent.CheckMobile | src/js/rain.js:55-75 | the keyword loop with its early return answers true exactly when some keyword occurs in the user agent |
| Draws.Centred | src/js/rain.js:198-202 | a draw scaled across a length and centred on 0 lies within half that length either side of 0, strictly below the upper end when the length is positive |
| UserAgent.IPhoneIsMobile | src/js/rain.js:56-73 | an iPhone user agent contains the keyword 'iPhone', so the mobile check answers true |
| Drops.RecycleFloor | src/js/rain.js:321 | the per-drop recycle floor lies in [-340, -140) |
| Drops.Spawn | src/js/rain.js:150-158 | a new drop has x in [-50, 50), y in [-200, 200), z in [-300, 100) and velocity 0 |
| Drops.SpawnAll | src/js/rain.js:147-164 | the geometry has one spawned drop per triple of draws, in order, all at or below the ceiling and at rest |
| Drops.Fallen | src/js/rain.js:326-330 | the height moves by the decremented velocity, by half of it strictly inside the band; a velocity that is not positive never lifts the drop |
| Drops.Step | src/js/rain.js:320-336 | a frame keeps the spawn x and z, leaves the drop on or above this frame's floor, and keeps it at or below the ceiling and not rising |
| Drops.StepCases | src/js/rain.js:324-335 | either the drop falls by its decremented velocity (half of it strictly inside -50 < z < 10) and stays on or above the floor, or it fell below the floor and restarts at 200 with velocity 0 |
| Drops.FirstFrameFromRest | src/js/rain.js:322-330 | from rest, outside the floor zone, a drop falls 0.2 inside the band and 0.4 outside it |
| Drops.FallBounded | src/js/rain.js:320-336 | over any number of frames a drop keeps its spawn x and z, never rises above 200 and never gets a positive velocity; once at least one frame has run, it is never below -340 |
| Clouds.Spawn | src/js/rain.js:195-207 | a new cloud lies across the viewport width, at height 400, across the height shifted by -100, with z rotation in [0, 360) and opacity 0.8 |
| Clouds.SpawnAll | src/js/rain.js:188-211 | one cloud per triple of draws, in order |
| Clouds.Rotate | src/js/rain.js:316 | one frame lowers the z rotation by exactly 0.001 and keeps the position and opacity |
| Clouds.RotatedTimes | src/js/rain.js:315-317 | n frames turn a cloud by exactly n·0.001 and change nothing else |
| LightningTimer.Flashing | src/js/rain.js:309 | the effect is flashing at a time exactly when a timer is held and its deadline still lies ahead |
| LightningTimer.Arm | src/js/rain.js:250 | a fresh timer flashes exactly until 1000 ms after the trigger |
| LightningTimer.Expire | src/js/rain.js:250 | once the callback has run when due, a timer handle is held exactly while flashing |
| LightningTimer.LastTriggerWins | src/js/rain.js:245-250 | after several triggers the deadline is set by the last one alone |
| LightningTimer.FlashingMeansRecent | src/js/rain.js:309 | after triggers, the effect flashes at t exactly when t is less than 1000 ms after the last trigger |
| LightningTimer.DebounceTimeline | src/js/rain.js:245-250 | a trigger at 0 flashes at 0 and not at 1000; another at 500 keeps it at 1200 and ends it by 1500 |
| Lights.PointLight.constructor | src/js/rain.js:130-133 | a light starts at the origin with its given power |
| Lights.SwitchFor | src/js/rain.js:279-297 | forced mode always switches to light 2; otherwise a draw of at most 0.95 leaves everything, a draw above 0.98 with light 1 current switches to light 2, and any other draw above 0.95 switches to light 1 |
| Lights.FirstAfter | src/js/rain.js:288-296 | after a switch the pointer is on the light switched to, otherwise where it was |
| Lights.PowerAfter | src/js/rain.js:288-296 | a switch to light 2 puts out light 1; a switch to light 1 puts out light 2, even when light 1 was already current; every other power is kept |
| Lights.Flickers | src/js/rain.js:338 | the flicker block runs always while lightning, otherwise on a draw above 0.7 |
| Lights.Moves | src/js/rain.js:339 | a flickering light is moved always while lightning, otherwise only while its power is below 100 |
| Lights.NewPower | src/js/rain.js:346 | the new power is in [100, 600) with lightning and in [50, 550) without |
| Lights.NewX | src/js/rain.js:340-344 | a moved light's x lies across the viewport width, centred on 0 |
| Lights.NewY | src/js/rain.js:340-344 | a moved light's y lies between 0 and the viewport height |
| AudioLoop.Percent | src/js/rain.js:258-260 | the played fraction is finite exactly when the duration is known and positive; a positive time over a zero duration is +Infinity; otherwise it is NaN |
| AudioLoop.Above | src/js/rain.js:262-266 | `percent > t` as floating point decides it: +Infinity is above every threshold, NaN is above none |
| AudioLoop.FadingOut | src/js/rain.js:262 | a frame is in the fade-out part when the played fraction is above 0.85 |
| AudioLoop.LoopStep | src/js/rain.js:254-277 | muted leaves the track alone; the volume drops by 0.005 exactly when unmuted, past 85% and above 0.3, rises by 0.005 exactly when unmuted, before 85% and below 0.99, and otherwise stays; it stays in [0, 1]; the time is reset only past 85% |
| AudioLoop.VolumeBounds | src/js/rain.js:262-275 | the volume never rises above 0.995 once at or below it, and is never lowered while at or below 0.3 |
| AudioLoop.RestartRule | src/js/rain.js:266-270 | past 85%, playback restarts exactly when past 98% or the already lowered volume is at or below 0.3 |
| AudioLoop.FadeExamples | src/js/rain.js:262-270 | at 90%, volume 0.5 becomes 0.495 with no restart, and volume 0.3 restarts playback at the same volume |
| AudioLoop.UnknownDurationFadesIn | src/js/rain.js:258-275 | before the duration is known the fraction is NaN, so the track only fades in and is never restarted |
| AudioLoop.Mute | src/js/rain.js:242 | muting sets the flag to the requested value and changes nothing else |
| RainScene.Rain.constructor | src/js/rain.js:2-51 | the capped size, the mobile flag, the counts, light 1 current, the spawned drops and clouds, no timer, and a muted track at time 0 and volume 1 |
| RainScene.Rain.ChangePointLight | src/js/rain.js:279-297 | pointer and powers move exactly as the chosen switch says and the invariant holds |
| RainScene.Rain.Lightning | src/js/rain.js:245-252 | the deadline is re-armed 1000 ms ahead, and the pointer ends on light 2 with light 1 out |
| RainScene.Rain.ExpireTimer | src/js/rain.js:250 | the due timer callback clears the deadline |
| RainScene.Rain.RotateClouds | src/js/rain.js:315-317 | every cloud turns by one step in place |
| RainScene.Rain.UpdateDrops | src/js/rain.js:319-336 | every drop takes one step with its own floor draw, and the drop invariant holds |
| RainScene.Rain.Flicker | src/js/rain.js:338-347 | when the block runs, the light is repowered and moved only if lightning or dimmer than 100; when it does not, the light is untouched |
| RainScene.Rain.Animate | src/js/rain.js:299-347 | the lightning flag is read first; there is no switch while flashing; then the clouds turn and the drops fall; the flicker acts on the frame-start light while the other light only keeps its switched power |
| RainScene.Rain.CheckAudioLoop | src/js/rain.js:254-277 | the track takes one fade step |
| RainScene.Rain.Mute | src/js/rain.js:229-243 | only the muted flag changes |
| RainScene.Rain.Frame | src/js/rain.js:351-354 | the frame callback runs the fade step and then the next frame: the track, timer, clouds, drops, pointer and both lights end exactly as `Animate` states |

## Left out

- Three.js construction: scene, fog, camera, ambient and directional lights, textures, materials, meshes and renderer. These are foreign library objects. Only the numbers the simulation reads and writes are kept.
- Colour constants, the clouds' x and y rotation, and the lights' distance and decay: these are configuration with no behaviour.
- Drop x and z positions are not stored: the vertex's x and z equal `originalX` and `originalZ` and are never written. `rainGeometry.verticesNeedUpdate` is a renderer hint.
- Initial light powers: Three.js derives `power` as intensity·4π. The intensities 30 and 20 give powers with no exact real literal, as there is no literal or constant for π, so the constructor takes the two initial powers as parameters.
- DOM and scheduling: `appendDom`, the listener in `initEvents`, `requestAnimationFrame` and `renderer.render` are out. `isMobile` only chooses between 'touchend' and 'click' there; callers call `Lightning` directly.
- RainScene.Rain.constructor: does not run the first `animate()` that `init()` ends with; the caller runs `Animate` right after construction.
- Timers: `setTimeout` and `clearTimeout` become a deadline on an integer millisecond clock. `ExpireTimer` stands for the callback having run once due, and `Animate` runs it before reading the flag. `setTimeout` only promises that the callback runs no earlier than 1000 ms after arming; the model fixes it at exactly the deadline, and the "only if" half of `LightningTimer.FlashingMeansRecent` rests on that.
- Randomness: each `Math.random()` call is a parameter in [0, 1). Some parameters go unused in some calls:
  - The draw `r` of `ChangePointLight` in forced mode, and so the `r` of `Lightning`: the source makes this draw and then overwrites it with 1 (src/js/rain.js:281-286).
  - `rSwitch` of `Animate` while lightning: the source never makes this draw, because `changePointLight` is not called (src/js/rain.js:311-313).
  - `rGate` while lightning: the source never makes this draw, because `isLightning ||` short-circuits (src/js/rain.js:338).
  - `rX` and `rY` when the light is not moved: the source never makes these draws (src/js/rain.js:339-345).
  - `rX`, `rY` and `rPower` when the flicker block does not run: the source never makes these draws (src/js/rain.js:338-347).
- RainScene.Rain.CheckAudioLoop: does not model the `pause()` and `play()` around the restart; only the reset of `currentTime` to 0 is kept.
- RainScene.Rain.Mute: does not model the `play()` call made when `currentTime` is 0. Its `if (!promise)` branch would call `.then` on a falsy value, and it has no state of its own to verify.
- Track playback: `currentTime` advancing by itself, `load()` and the `loop` flag belong to the audio element and are not modelled. An infinite `duration` (a stream) is not modelled either.
- Floating point: all arithmetic is exact `real`, so rounding over repeated 0.4, 0.001 or 0.005 steps is not modelled. The one IEEE behaviour kept is NaN and +Infinity in `currentTime / duration`, because it picks a branch.
