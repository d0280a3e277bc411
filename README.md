# A 3D room: the controller state of script.js

The repository is one browser script that builds a furnished room with Three.js: walls and floor with switchable textures, a TV showing one of three videos, a ceiling fan, a tube light with six extra point lights, and an animated man who can walk to the sofa and sit down. Nearly all of it is scene construction and rendering calls. This project models the part that carries state from one event to the next:

- the man's sequencing through the "walk" control, the unregistered "sit" control, the loader callbacks and the per-frame `animate` loop (`character.dfy`, module `Sequencing`);
- the TV's "Change Video" index arithmetic (`tv.dfy`, module `Tv`);
- the wall and floor texture tables the dropdowns choose from (`textures.dfy`, module `Textures`);
- the light intensities the "Toggle Lights" switch sets (`lights.dfy`, module `Lights`);
- the script's module-level state as one object, `Script.Room`, whose methods are the GUI handlers, the loader outcomes and one frame of `animate` (`room.dfy`).

The man's state is a value, `Sequencing.Character`: the loaded model (`None` until `Standing Idle.fbx` arrives), whether `walkAction` and `sitAction` exist yet, the `walking` and `sitting` flags, whether each clip is running, and `targetPosition`. `Walk`, `Sit`, `Frame` and the three load outcomes are functions on it. `Script.Room` keeps the same state as fields, and each of its methods is proved to change them exactly as the matching function says. Its `modifies` clause names the fields its handler assigns, and its `Valid()` invariant holds throughout. Arbitrary interleavings of controls, frames and loads are runs of `Sequencing.Event`s, and the invariants are proved over every run.

Main results:

- `walking` and `sitting` are never both true, in any order of events (`NeverWalkingAndSitting`).
- Once the man sits, nothing clears it. He never walks again and, once his model has loaded, never moves again (`SeatedIsFinal`). Sitting starts at most once in any run (`SitStartsAtMostOnce`), and so does the sit animation, counted as the calls of `sitAction.play()` (`SitClipPlaysAtMostOnce`).
- Through the GUI, which registers only "walk", sitting always means seated at (0, -11.2, 9.5), facing the TV, with the sit clip running (`GuiSittingIsOnSofa`). The unregistered `sit` would seat him anywhere, even before his model has loaded (`SitOutsideGuiSeatsAnywhere`).
- If the sit clip has not loaded when the man arrives, he stops at (0, -8.5, 9) and is idle again, and "walk" can start him once more (`ArrivalWithoutSitClipIsIdle`). Once the sit clip has loaded, that second walk arrives on its first frame and seats him on the sofa (`SecondWalkSits`).
- "Change Video" always changes the source. Three presses return to the start, and every source is reached within three presses (`Tv`).

The arrival test `man.position.distanceTo(targetPosition) < 10` is modelled exactly on reals, as squared distance < 100. The frame's floating-point step is not modelled: `normalize`, `multiplyScalar`, `atan2` and `lerp` produce the position and heading after the step. `Frame` and `Room.FrameStep` take those two results as parameters (`stepped`, `turned`).

## Model

| member | source | states |
|---|---|---|
| Sequencing.SquaredDistance | script.js:437 | the squared distance used for the arrival test is never negative |
| Sequencing.Arrived | script.js:437 | the arrival test distanceTo(target) < 10, compared on squares; a man standing exactly on the target counts as arrived |
| Sequencing.Walk | script.js:358-365 | walk does nothing unless idle; from idle it sets walking, leaves sitting false, aims at exactly (0, -8.5, 9), starts the walk clip iff it has loaded, and touches nothing else |
| Sequencing.Sit | script.js:366-371 | sit does nothing unless idle; from idle it sets sitting, leaves walking false, starts the sit clip iff it has loaded, and does not move the man |
| Sequencing.Frame | script.js:426-453 | a frame changes nothing unless the model is loaded and walking holds; short of the target it only moves and turns the man; on arrival walking and the walk clip stop, and the man either sits (sit clip loaded, not sitting) at (0, -11.2, 9.5) facing the TV, or stands on the target facing the TV |
| Sequencing.LoadMan | script.js:284-289 | loading the model places it at (-26.9, -12.5, 0) facing into the room and changes nothing else |
| Sequencing.LoadWalkClip | script.js:293-295 | loading Walking.fbx makes walkAction exist and changes nothing else |
| Sequencing.LoadSitClip | script.js:297-301 | loading Stand To Sit.fbx makes sitAction exist and changes nothing else |
| Sequencing.InitInv | script.js:273-280 | the start-up state is idle and satisfies the invariant |
| Sequencing.StepPreservesInv | script.js:357-372 | every control, frame and load keeps the invariant: not both walking and sitting, clips only after the model, a running clip only in its own state, walking always towards the sofa target |
| Sequencing.RunPreservesInv | script.js:426-453 | the invariant holds after any run of events |
| Sequencing.NeverWalkingAndSitting | script.js:279-280 | from start-up, walking and sitting are never both true, whatever the order of controls, frames and loads |
| Sequencing.SeatedIsFinal | script.js:446-451 | once sitting, the man stays sitting, never walks, keeps his target and, once loaded, never moves |
| Sequencing.SitStartsAtMostOnce | script.js:446-448 | in any run, sitting starts at most once, and never once seated |
| Sequencing.SitClipPlaysAtMostOnce | script.js:446-448 | in any run, the sit animation is started (sitAction.play() at line 369 or reset().play() at line 448) at most once, and never once seated |
| Sequencing.GuiStepKeepsSeat | script.js:374 | a GUI-reachable event keeps "sitting means on the sofa, facing the TV, clip running" |
| Sequencing.GuiRunKeepsSeat | script.js:374 | that seating property holds after any run without sit |
| Sequencing.GuiSittingIsOnSofa | script.js:446-451 | through the GUI, a sitting man is always at (0, -11.2, 9.5), facing the TV, with the sit clip running |
| Sequencing.SitOutsideGuiSeatsAnywhere | script.js:366-371 | sit, unregistered, would seat the man before his model loads, with no animation |
| Sequencing.ArrivalSitGuardRedundant | script.js:446 | the `!sitting` half of the arrival test always holds, since a walking man is never sitting |
| Sequencing.ArrivalWithoutSitClipIsIdle | script.js:437-446 | arriving before sitAction has loaded leaves the man idle on (0, -8.5, 9), and walk can fire again |
| Sequencing.WalkingStopsOnlyOnArrival | script.js:437-438 | walking only ever becomes false on a frame that reaches the target |
| Sequencing.GuiSittingStartsOnlyOnArrival | script.js:446-447 | through the GUI, sitting only starts on the arriving frame with sitAction loaded |
| Sequencing.SecondWalkSits | script.js:446-451 | after an arrival without the sit clip, once the clip loads, a second walk arrives on its first frame and seats the man at (0, -11.2, 9.5) facing the TV with the sit clip running |
| Sequencing.WalkBeforeLoad | script.js:426 | walk pressed before the model loads sets walking with no clip, and frames leave the man alone until the model arrives |
| Tv.NextVideo | script.js:337 | the next index stays in range, always differs from the current one, is the following index and wraps to 0 after the last |
| Tv.Presses | script.js:337 | any number of presses keeps the index inside the three-entry source list |
| Tv.PressesAdvanceModulo | script.js:337 | n presses move the index to (i + n) mod 3 |
| Tv.ThreePressesReturn | script.js:143-144 | three presses return to the video that was showing |
| Tv.EverySourceReached | script.js:143 | every source is reachable from every other within three presses |
| Textures.ChoicesDistinct | script.js:40-52 | every dropdown value 0..3 indexes both tables; different values name different textures; no wall texture is a floor texture |
| Lights.TubeLevel | script.js:319 | the tube's intensity after a toggle is never negative and is positive exactly when the switch is on |
| Lights.ExtraLevel | script.js:320 | each extra light's intensity after a toggle is never negative, positive exactly when the switch is on, and never above the tube's |
| Script.Room.constructor | script.js:89-315 | start-up state: first wall and floor textures (lines 89, 97), first video (143-146), tube at 6 (191), extra lights at 0 (212), nothing loaded and idle (273-280), light switch on and fan off (313-314) |
| Script.Room.Walk | script.js:358-365 | the walk handler changes the man's fields exactly as Sequencing.Walk and keeps the room invariant |
| Script.Room.Sit | script.js:366-371 | the sit handler changes the man's fields exactly as Sequencing.Sit |
| Script.Room.FrameStep | script.js:413-454 | the fan turns iff it is switched on and loaded; the man's fields change exactly as Sequencing.Frame |
| Script.Room.ChangeVideo | script.js:336-344 | the index becomes NextVideo of the old one, and the video source follows it and changes |
| Script.Room.ToggleLights | script.js:318-321 | the switch records the value; the tube is at 6 or 0 and each of the six extra lights at 3 or 0, so every light is lit exactly when the switch is on; nothing else changes |
| Script.Room.ToggleFan | script.js:324-326 | the fan switch and the rotation flag both take the value |
| Script.Room.SelectWall | script.js:381-384 | the wall material shows wall texture i and is marked for update; the floor material is untouched |
| Script.Room.SelectFloor | script.js:386-389 | the floor material shows floor texture i and is marked for update; the wall material is untouched |
| Script.Room.OnManLoaded | script.js:284-289 | the model loads as Sequencing.LoadMan says |
| Script.Room.OnWalkClipLoaded | script.js:293-295 | walkAction becomes available as Sequencing.LoadWalkClip says |
| Script.Room.OnSitClipLoaded | script.js:297-301 | sitAction becomes available as Sequencing.LoadSitClip says |
| Script.Room.OnFanLoaded | script.js:261-269 | the fan model becomes available |

## Left out

- Scene, camera, renderer, mesh, material and light construction (script.js:12-216, 220-255): one-shot library calls with no decisions in them. Only the values that callbacks later read or change are kept: the texture tables, the initial materials, the light intensities and the video list.
- Asset loading itself: the loader calls and their asynchronous I/O (script.js:227-302). Only their outcome is kept, as the load events and the `On...Loaded` methods. A failed load is a load event that never happens. The sofa load has no state that anything reads, so it is not modelled.
- Sequencing.Frame: the floating-point step toward the target (script.js:428-434) is not modelled. Its results, the new position and heading, are parameters. Only the exact arrival comparison on those results is modelled.
- Script.Room.FrameStep: the fan's rotation angle, which grows by 0.1 per frame (script.js:418), is not kept. The method only reports whether the fan turns this frame. The AnimationMixer update and the clock (script.js:411, 423-424) are left out too.
- The man's scale (script.js:286): it never changes and nothing reads it. Of his rotation only `rotation.y` is kept, as the pose's heading.
- Video playback: play, pause, mute and unmute (script.js:332-335), `video.load`, `video.play`/`pause` inside changeVideo, and `videoTexture.needsUpdate` (script.js:338-343). They only drive the browser's media element and the GPU. Only the index and the `src` it selects are modelled.
- The window-resize handler (script.js:396-402): floating-point aspect ratios passed to library calls.
- OrbitControls, rendering, `requestAnimationFrame` scheduling and lil-gui itself. The GUI's effect of writing the chosen value into `controlsObj`/`textureControls` before calling `onChange` is modelled. Single-threaded callback order is modelled as an arbitrary sequence of events.
- Script.Room.constructor: the start-up lights do not match the switch. The switch is on, but the extra lights start at 0 (script.js:212, 313). So `LightsFollowSwitch` is only promised after a toggle, not at start-up.
