# Penthouse portfolio: verified model of its interaction rules

This project is a Dafny model of the small rule-bearing pieces of a 3D
portfolio website built with Next.js, React Three Fiber and three.js. Most of
the site is rendering and tweening. The model covers the parts with
behaviour that can be stated:

- **Scenery** (`scenery.dfy`). The day/night scenery maps the local clock to:
  - a night flag and the body theme;
  - a sun/moon position, clamped to 0–100 % of the viewport width;
  - a greeting.
- **HoldReveal** (`hold_reveal.dfy`). The "hold to reveal" loader has:
  - the hologram's per-frame state machine: accumulated hold time, a pulse phase below 10 s, one-shot sounds in the final phase, and the smoothed `uHold` uniform;
  - the page's mouse-down/up handling;
  - the hold counter and its countdown;
  - the mouse normalisation.
- **SoundPreference** (`sound_preference.dfy`). The sound preference is:
  - a boolean that starts enabled;
  - restored from and persisted to storage as "true"/"false";
  - mirrored into a global mute.

  It also covers the `useSound` guard.
- **AudioManager** (`audio_manager.dfy`). The background-music singleton is one nullable handle with an idempotent start and stop.
- **FirstPerson** (`first_person.dfy`). The first-person walker's per-frame step is shared by the experience page (walk 10, sprint 15, jump 10, gravity 25, floor 4) and the standalone scene (1.5, 4.0, 5.0, 9.81, eye level 1.6). The module also models the page's pointer-lock cooldown and its Escape key.
- **ScrollTween** (`scroll_tween.dfy`). The HUD's eight-second linear scroll to the bottom of the page, and the intro's percentage counter.
- **Visualiser** (`visualiser.dfy`). The sound button's visualiser has:
  - a playback timer that resets when muted;
  - a radius growth capped at 6 px;
  - the clamped sampling of the analyser buffer.
- **PlanarUv** (`planar_uv.dfy`). The TV screen's planar texture projection onto the two largest bounding-box axes, with the box centre as the audio anchor.
- **Base** (`base.dfy`). `Option`, `Result`, an occurrence count over sequences and two arithmetic helpers.

Two shapes recur:

- **Per-frame code.** Code that updates refs and uniforms frame by frame is a class. Its methods are proved equal to a pure step function of the old state: `State() == Step(old(State()), …)`. The properties are lemmas about the step function and about runs of steps.
- **Side effects.** Audio commands, storage writes and calls into functions outside the model are recorded in logs (`effects`, `muteCalls`). The model does not execute them.

Times in the hologram are integer milliseconds, so the JavaScript remainder on the shader clock (`JsRem`) is exact. Everything else is an exact `real`.

One behaviour of the code as written shows up in `IdleFramesRewindIntroEveryFrame`. The hologram's release branch is not a transition: it runs on every frame without a hold. So every idle frame rewinds the landing intro to 0 and plays it again.

## Model

| member | source | states |
|---|---|---|
| Scenery.TotalHours | src/components/TimeBasedScenery.tsx:24 | for a real clock reading the fractional hour lies in [hours, hours + 1) |
| Scenery.AdjustedHours | src/components/TimeBasedScenery.tsx:36 | at night (within one day) the hours since moonrise lie in [0, 12) |
| Scenery.RawPercent | src/components/TimeBasedScenery.tsx:33-37 | for any time of day the unclamped position lies in (0, 100] |
| Scenery.Clamp | src/components/TimeBasedScenery.tsx:40 | the result lies in [lo, hi]; it is `x` inside the range and the nearer bound outside it |
| Scenery.Percent | src/components/TimeBasedScenery.tsx:32-40 | the final position always lies in [0, 100] |
| Scenery.Greeting | src/components/TimeBasedScenery.tsx:44-49 | "Good Morning!" exactly for hours 5–11, "Good Afternoon!" exactly for 12–14, "Good Evening!" exactly otherwise |
| Scenery.UpdateScenery | src/components/TimeBasedScenery.tsx:20-51 | night iff total hours < 6 or ≥ 18; theme is Night iff night and Day iff not; the position is the clamped percent for the clock reading, in [0, 100]; greeting and visibility set only when showGreeting, otherwise kept |
| Scenery.Start | src/components/TimeBasedScenery.tsx:56-57 | the start event makes the greeting visible with the greeting for the hour |
| Scenery.Tick | src/components/TimeBasedScenery.tsx:59 | the minute update keeps the greeting and the visibility |
| Scenery.NightByHour | src/components/TimeBasedScenery.tsx:22-27 | for a real clock reading, night depends on the whole hour alone: hours < 6 or ≥ 18 |
| Scenery.DayPosition | src/components/TimeBasedScenery.tsx:33-34 | by day the position is 100 − (total − 6)/12·100 and lies in (0, 100] |
| Scenery.SunriseAtRightEdge | src/components/TimeBasedScenery.tsx:34 | at 06:00 the sun is at 100 |
| Scenery.DayPositionDecreasing | src/components/TimeBasedScenery.tsx:33-34 | between 06:00 and 18:00 the position strictly decreases as time advances |
| Scenery.NightPosition | src/components/TimeBasedScenery.tsx:35-38 | at night the hours since 18:00 lie in [0, 12) and the position in (0, 100] |
| Scenery.ClampInactiveOnClock | src/components/TimeBasedScenery.tsx:40 | for any real clock reading the clamp changes nothing |
| Scenery.GreetingPartition | src/components/TimeBasedScenery.tsx:44-47 | every hour gets one of the three greetings |
| Scenery.TicksPreserveGreeting | src/components/TimeBasedScenery.tsx:59 | any number of interval updates keep greeting and visibility |
| Scenery.TicksKeepGreeting | src/components/TimeBasedScenery.tsx:56-59 | after the start, later minute updates keep the start's greeting visible |
| HoldReveal.JsRem | src/components/PreLoaderExperience.tsx:86 | the remainder has the dividend's sign, is below the divisor in magnitude and agrees with `%` on non-negative operands |
| HoldReveal.JsRemOdd | src/components/PreLoaderExperience.tsx:87 | the remainder of −a is minus the remainder of a (unlike Euclidean `%`) |
| HoldReveal.CyclePosition | src/components/PreLoaderExperience.tsx:86-87 | the cycle position lies in [0, 1) for a non-negative clock and in (−1, 0] for a negative one |
| HoldReveal.WaveReset | src/components/PreLoaderExperience.tsx:86-90 | a frame of zero duration never counts as a wave reset |
| HoldReveal.WaveResetIsCycleBoundary | src/components/PreLoaderExperience.tsx:86-90 | for a frame shorter than 2.5 s the wave-reset test fires exactly when the frame crosses a multiple of 2.5 s |
| HoldReveal.Smooth | src/components/PreLoaderExperience.tsx:139-140 | a zero-length frame, or a value already at the target, leaves `uHold` unchanged; a 200 ms frame lands exactly on the target |
| HoldReveal.PulseFrame | src/components/PreLoaderExperience.tsx:83-96 | the refs are unchanged; the only possible command is one sonar restart, issued exactly when the wave wrapped and the sonar exists |
| HoldReveal.FinalFrame | src/components/PreLoaderExperience.tsx:77-117 | each one-shot flag ends set exactly when it was set or its sound exists; no other field changes; no sonar restart and no intro restart is issued |
| HoldReveal.HoldingFrame | src/components/PreLoaderExperience.tsx:70-118 | the hold time grows by delta and only it and the one-shot flags can change; below 10 s the flags are kept too; from 10 s on no sonar restart is issued |
| HoldReveal.ReleaseFrame | src/components/PreLoaderExperience.tsx:119-137 | hold time 0 and both one-shot flags cleared, everything else kept; the intro restarts exactly when it exists; no sonar restart and no one-shot play is issued |
| HoldReveal.Step | src/components/PreLoaderExperience.tsx:66-142 | the clock advances by delta, the mouse uniform is the frame's mouse, `uHoldTime` mirrors the hold time and `uHold` is smoothed toward 1 while holding and 0 otherwise |
| HoldReveal.HoldTimeStep | src/components/PreLoaderExperience.tsx:70-71 | holding adds exactly delta to the hold time; release sets it to 0 and clears both one-shot flags |
| HoldReveal.HoldTimeAccumulates | src/components/PreLoaderExperience.tsx:71 | over a continuous hold the hold time grows by the sum of the frame durations |
| HoldReveal.SonarOnlyInPulsePhase | src/components/PreLoaderExperience.tsx:83-96 | a sonar restart is issued only while holding with hold time < 10 s and only when the cycle position wrapped |
| HoldReveal.SonarReplayedOnWrap | src/components/PreLoaderExperience.tsx:83-96 | conversely, every wrap while holding with hold time < 10 s replays the sonar when it exists |
| HoldReveal.CountWhen | src/components/PreLoaderExperience.tsx:93 | a conditional command is counted once exactly when it is issued and is the command counted |
| HoldReveal.FinalFrameCountsMode | src/components/PreLoaderExperience.tsx:105-110 | in a final-phase frame the mode-initiation flag rises exactly when that sound is started |
| HoldReveal.FinalFrameCountsSynth | src/components/PreLoaderExperience.tsx:113-117 | in a final-phase frame the synthetic-music flag rises exactly when that loop is started |
| HoldReveal.StepCountsPlays | src/components/PreLoaderExperience.tsx:70-118 | in any holding frame each one-shot flag rises exactly when its sound is started |
| HoldReveal.OneShotFlagsCountPlays | src/components/PreLoaderExperience.tsx:104-117 | over a continuous hold, plays issued + old flag = new flag, for both one-shot sounds |
| HoldReveal.OneShotAtMostOncePerHold | src/components/PreLoaderExperience.tsx:105-117 | each one-shot sound starts at most once per continuous hold, and not at all if its flag was already set, even when its element only appears partway through the hold |
| HoldReveal.FinalPhaseSetsFlag | src/components/PreLoaderExperience.tsx:105-110 | a hold that ends with hold time ≥ 10 s leaves the mode-initiation flag set, provided that sound exists on the hold's last frame (it may be missing on earlier ones) |
| HoldReveal.ReplayAfterRelease | src/components/PreLoaderExperience.tsx:119-123 | after a release, a new hold of at least 10 s, whose last frame has the mode-initiation sound, plays it exactly once |
| HoldReveal.ReleaseFrameRestartsIntro | src/components/PreLoaderExperience.tsx:133-136 | a frame without a hold rewinds and replays the landing intro exactly once |
| HoldReveal.IdleFramesRewindIntroEveryFrame | src/components/PreLoaderExperience.tsx:119-136 | n idle frames that each see the landing intro issue n landing-intro restarts |
| HoldReveal.SmoothApproachesTarget | src/components/PreLoaderExperience.tsx:139-140 | with delta ≤ 200 ms and `uHold` in [0, 1], one update moves toward the target without overshooting and stays in [0, 1] |
| HoldReveal.UHoldBounded | src/components/PreLoaderExperience.tsx:139-140 | along any run of frames of at most 200 ms, `uHold` stays in [0, 1] |
| HoldReveal.PenthouseHologram.constructor | src/components/PreLoaderExperience.tsx:47-50 | refs and uniforms start at zero and false |
| HoldReveal.PenthouseHologram.Rerender | src/components/PreLoaderExperience.tsx:373-374 | a render hands the refs' current audio elements to the hologram as props; refs, uniforms and commands are unchanged |
| HoldReveal.PenthouseHologram.OnFrame | src/components/PreLoaderExperience.tsx:66-142 | the new refs and uniforms are `Step` of the old ones under the current props, and the commands issued are `Step`'s, appended in order |
| HoldReveal.PenthouseHologram.Hold | src/components/PreLoaderExperience.tsx:70-118 | the holding branch equals `HoldingFrame` |
| HoldReveal.PenthouseHologram.Pulse | src/components/PreLoaderExperience.tsx:83-96 | the pulse branch equals `PulseFrame` |
| HoldReveal.PenthouseHologram.FinalPhase | src/components/PreLoaderExperience.tsx:77-117 | the final-phase branch equals `FinalFrame` |
| HoldReveal.PenthouseHologram.Release | src/components/PreLoaderExperience.tsx:119-137 | the release branch equals `ReleaseFrame` |
| HoldReveal.HoldIndicator.constructor | src/components/PreLoaderExperience.tsx:189-190 | not holding, counter at 0 |
| HoldReveal.HoldIndicator.MouseDown | src/components/PreLoaderExperience.tsx:276-282 | a press on or inside a button changes nothing; any other press starts a hold |
| HoldReveal.HoldIndicator.MouseUp | src/components/PreLoaderExperience.tsx:284-288 | a release ends the hold and clears the counter |
| HoldReveal.HoldIndicator.AnimationFrame | src/components/PreLoaderExperience.tsx:313-315 | while holding, the counter grows by 0.016 capped at 10; it stays in [0, 10] |
| HoldReveal.Clamp10 | src/components/PreLoaderExperience.tsx:314 | `min(x, 10)` is at most 10 and at most x, and is one of them |
| HoldReveal.Ceil | src/components/PreLoaderExperience.tsx:414 | `ceil(x)` is the least integer ≥ x |
| HoldReveal.CountdownSeconds | src/components/PreLoaderExperience.tsx:414 | the seconds shown are ≥ 0, at most 10 for a non-negative counter, and 0 exactly when the counter reached 10 |
| HoldReveal.CountdownShown | src/components/PreLoaderExperience.tsx:414 | the shown number is in [0, 10]; without a hold it is 10 |
| HoldReveal.CountdownNonIncreasing | src/components/PreLoaderExperience.tsx:414 | the countdown never goes up as the counter grows |
| HoldReveal.NormaliseMouse | src/components/PreLoaderExperience.tsx:264-265 | the mapping is invertible back to client coordinates and maps the viewport into [−1, 1]² with y pointing up |
| SoundPreference.Serialise | src/context/SoundContext.tsx:30 | `String(b)` is "true" or "false" and parses back to b |
| SoundPreference.SerialiseInjective | src/context/SoundContext.tsx:21 | distinct preferences are stored as distinct strings |
| SoundPreference.Fresh | src/context/SoundContext.tsx:14-15 | a new provider is enabled, not mounted, and has issued no mute call |
| SoundPreference.Load | src/context/SoundContext.tsx:17-26 | after mounting: a stored value sets enabled iff it is "true" and mirrors into the mute; a missing key keeps the default and calls nothing; storage unchanged |
| SoundPreference.Persist | src/context/SoundContext.tsx:28-32 | before mounting nothing changes; once mounted the storage is the old storage with the key set to `String(flag)` ("true"/"false") and nothing else, and exactly one mute call, the negated flag, is appended to the earlier ones |
| SoundPreference.Toggle | src/context/SoundContext.tsx:34-36 | the flag flips and nothing else changes |
| SoundPreference.ToggleTwice | src/context/SoundContext.tsx:35 | toggling twice is the identity |
| SoundPreference.MuteMirrorsFlag | src/context/SoundContext.tsx:20-31 | after a load that read a value, and after a persist once mounted, the last mute call is the negated flag |
| SoundPreference.PreferenceSurvivesReload | src/context/SoundContext.tsx:19-30 | a preference persisted by a mounted provider is what the next page load restores |
| SoundPreference.DefaultIsEnabled | src/context/SoundContext.tsx:14-30 | with nothing stored the provider stays enabled and persists "true" |
| SoundPreference.ClicksKeepStorageInSync | src/context/SoundContext.tsx:28-36 | after n clicks, each followed by its persist, the flag flipped n times, storage holds it and the mute mirrors it |
| SoundPreference.UseSound | src/context/SoundContext.tsx:45-51 | fails with "useSound must be used within a SoundProvider" exactly when there is no provider; otherwise returns the context |
| SoundPreference.SoundProvider.constructor | src/context/SoundContext.tsx:14-15 | the provider starts as `Fresh` |
| SoundPreference.SoundProvider.LoadEffect | src/context/SoundContext.tsx:17-26 | the mount effect equals `Load` |
| SoundPreference.SoundProvider.PersistEffect | src/context/SoundContext.tsx:28-32 | the persist effect equals `Persist` |
| SoundPreference.SoundProvider.ToggleSound | src/context/SoundContext.tsx:34-36 | the toggle equals `Toggle` |
| AudioManager.AudioElement.constructor | src/utils/audioManager.ts:8 | `new Audio(src)` is paused at 0, not looping, at full volume |
| AudioManager.AudioElement.Play | src/utils/audioManager.ts:11 | playback starts; loop, volume and position are kept |
| AudioManager.AudioElement.Pause | src/utils/audioManager.ts:17 | playback stops; loop, volume and position are kept |
| AudioManager.BackgroundMusic.constructor | src/utils/audioManager.ts:4 | there is no handle at first |
| AudioManager.BackgroundMusic.Start | src/utils/audioManager.ts:6-13 | with no handle, in a browser: a fresh handle for the background track, looping, volume 0.2, playing; otherwise the handle is unchanged |
| AudioManager.BackgroundMusic.Stop | src/utils/audioManager.ts:15-21 | the handle becomes null; a previous handle is paused and rewound to 0 |
| AudioManager.BackgroundMusic.Get | src/utils/audioManager.ts:23 | returns exactly the current handle or null |
| AudioManager.StartIsIdempotent | src/utils/audioManager.ts:7 | a start while a handle exists leaves that handle and its playback untouched |
| AudioManager.StopIsIdempotent | src/utils/audioManager.ts:15-21 | after two stops there is no handle, and the previous track is paused and rewound to 0 with its loop and volume kept: the second stop changes nothing |
| AudioManager.RestartCreatesFreshTrack | src/utils/audioManager.ts:6-20 | start after stop creates a new playing handle; the old one stays paused at 0 |
| FirstPerson.BothCopiesSensible | src/components/ExperienceScene.tsx:26-30 | in both copies walk < sprint and jump and gravity are positive; the scene starts at eye level, the page below its floor |
| FirstPerson.Speed | src/app/experience/page.tsx:43 | the speed is the walk or the sprint speed, above the walk speed exactly when sprinting |
| FirstPerson.Direction | src/app/experience/page.tsx:45-46 | each component is in {−1, 0, 1}; it is 0 exactly when the opposing keys agree, 1 exactly when only the positive key is held |
| FirstPerson.Walk | src/app/experience/page.tsx:49-61 | no movement key: nothing changes and no command; otherwise the moved flag is set, the height follows the camera-local move, and the last command is the move by the key direction at the chosen speed |
| FirstPerson.Jump | src/app/experience/page.tsx:64-67 | a jump from unlatched sets the impulse and the latch; otherwise nothing changes; the height and moved flag are never touched |
| FirstPerson.Fall | src/app/experience/page.tsx:70-78 | the height ends at or above the floor: either on the floor, or after gravity lowered the speed by g·delta and the height moved by the new speed; landing below the floor zeroes the speed and clears the latch |
| FirstPerson.Step | src/app/experience/page.tsx:40-79 | after every frame y ≥ floor; y is the floor or the free-flight height; below the floor the velocity is 0 and the latch clear; the moved flag rises with the first movement key; the wind stop is issued exactly on that frame; no keys, no commands |
| FirstPerson.JumpIgnoredWhileLatched | src/app/experience/page.tsx:64-67 | while latched, the jump key has no effect at all |
| FirstPerson.JumpFromUnlatched | src/app/experience/page.tsx:64-71 | a jump from unlatched sets the impulse, then gravity is applied in the same frame, and the latch is set |
| FirstPerson.GravityThenIntegrate | src/components/ExperienceScene.tsx:69-70 | without a jump start and above the floor, walking or not, gravity lowers the vertical speed by g·delta before the height reached by the walk moves by the new speed |
| FirstPerson.NoKeysNoWalk | src/components/ExperienceScene.tsx:49-61 | with no movement key the frame issues no move and no sound command |
| FirstPerson.RestingStaysOnFloor | src/components/ExperienceScene.tsx:69-77 | a body at rest on the floor with no input stays exactly there |
| FirstPerson.PageFirstFrameSnapsToFloor | src/app/experience/page.tsx:64-78 | from the page's start height 2 the first frame without movement, jumping or not, ends at the floor 4 with zero velocity |
| FirstPerson.RunStaysAboveFloor | src/app/experience/page.tsx:74-78 | along any run of frames the camera stays at or above the floor |
| FirstPerson.StepCountsWindStop | src/app/experience/page.tsx:50-55 | a frame issues the wind stop exactly when it raises the moved flag |
| FirstPerson.WindStopAtMostOnce | src/components/ExperienceScene.tsx:49-54 | over a whole mount the wind stop is issued at most once, exactly when the moved flag first rises |
| FirstPerson.Player.constructor | src/components/ExperienceScene.tsx:89 | the camera starts at the given height, at rest, unlatched, not moved |
| FirstPerson.Player.OnFrame | src/components/ExperienceScene.tsx:48-78 | the new state and commands are those of `Step` |
| FirstPerson.Player.MoveBlock | src/app/experience/page.tsx:49-61 | the movement block equals `Walk` |
| FirstPerson.Player.JumpBlock | src/app/experience/page.tsx:64-67 | the jump block equals `Jump` |
| FirstPerson.Player.FallBlock | src/app/experience/page.tsx:70-78 | gravity, integration and the floor check equal `Fall` |
| FirstPerson.Lock | src/app/experience/page.tsx:138-144 | a no-op during the cooldown; otherwise locks, closes the gate and schedules one timer; keeps the cooldown invariant |
| FirstPerson.Unlock | src/app/experience/page.tsx:146-148 | unlocks and leaves the gate and timers alone; keeps the invariant |
| FirstPerson.TimerFires | src/app/experience/page.tsx:143 | the timer reopens the gate; keeps the invariant |
| FirstPerson.DoubleLockIgnored | src/app/experience/page.tsx:138-148 | a second lock inside the cooldown, even after an unlock, changes nothing |
| FirstPerson.LockControl.constructor | src/app/experience/page.tsx:117-119 | unlocked, lockable, no timer pending |
| FirstPerson.LockControl.HandleLock | src/app/experience/page.tsx:138-144 | `handleLock` equals `Lock` |
| FirstPerson.LockControl.HandleUnlock | src/app/experience/page.tsx:146-148 | `handleUnlock` equals `Unlock` |
| FirstPerson.LockControl.CooldownElapsed | src/app/experience/page.tsx:143 | the timer callback equals `TimerFires` |
| FirstPerson.KeyDownRoute | src/app/experience/page.tsx:128-131 | navigates to "/" exactly on Escape |
| ScrollTween.Progress | src/components/HudOverlay.tsx:172-173 | progress ≤ 1; = 1 exactly from 8000 ms on; ≥ 0 for non-negative elapsed time and < 0 for negative |
| ScrollTween.ProgressMonotone | src/components/HudOverlay.tsx:173 | progress never decreases as time grows |
| ScrollTween.Position | src/components/HudOverlay.tsx:177-179 | the position is the start at progress 0 and exactly the target at progress 1 |
| ScrollTween.PositionBetween | src/components/HudOverlay.tsx:179 | for progress in [0, 1] the position lies between start and target |
| ScrollTween.PositionMonotone | src/components/HudOverlay.tsx:177-179 | with growing progress the position moves monotonically toward the target |
| ScrollTween.EarlyFrameOvershootsBackwards | src/components/HudOverlay.tsx:169-179 | a frame stamped before the click scrolls to the far side of the start |
| ScrollTween.ScrollToBottom | src/components/HudOverlay.tsx:171-186 | one scroll per frame to the interpolated position; the loop stops exactly at the first frame with progress 1, whose scroll is the target; otherwise it runs through all frames |
| ScrollTween.Round | src/components/HudOverlay.tsx:55 | `Math.round(x)` is within a half of x, halves rounding up |
| ScrollTween.PercentLabel | src/components/HudOverlay.tsx:53-55 | the label number lies in 0..98 for progress in [0, 1]: 0 at the start, 98 at the end |
| ScrollTween.PercentLabelMonotone | src/components/HudOverlay.tsx:55 | the label never decreases as progress grows |
| Visualiser.RadiusGrowth | src/components/SoundButton.tsx:57-65 | growth in [0, 6]; 0 up to 30 s; exactly 6 from 90 s; strictly between in between |
| Visualiser.RadiusGrowthMonotone | src/components/SoundButton.tsx:61-65 | growth never shrinks as playback time grows |
| Visualiser.BaseRadius | src/components/SoundButton.tsx:67 | the base radius lies in [20, 26] |
| Visualiser.MaxRadius | src/components/SoundButton.tsx:68 | the max radius is always 8 above the base radius |
| Visualiser.Tick | src/components/SoundButton.tsx:45-53 | the timestamp is remembered; muted or without an analyser the timer is 0, otherwise it grows by the elapsed seconds |
| Visualiser.PlaybackTimeTelescopes | src/components/SoundButton.tsx:45-50 | while playing, the timer equals the wall time since its reference timestamp |
| Visualiser.MutedFrameResetsGrowth | src/components/SoundButton.tsx:51-53 | one muted frame brings the base radius back to 20 |
| Visualiser.VisualiserClock.constructor | src/components/SoundButton.tsx:35-36 | the timer starts at 0 with the current time as reference |
| Visualiser.VisualiserClock.Draw | src/components/SoundButton.tsx:45-68 | the timer update equals `Tick`; the radii returned are `BaseRadius` and `MaxRadius` of the new timer |
| Visualiser.SampleIndex | src/components/SoundButton.tsx:101 | a valid index below the buffer length and at most 4i; equal to 4i exactly when 4i is inside the buffer, and the last index when 4i is past it |
| Visualiser.ClampOnlyAtClosingPoint | src/components/SoundButton.tsx:98-101 | the clamp changes the index only at the closing point, and only when the length is a multiple of 4 |
| Visualiser.SampleWave | src/components/SoundButton.tsx:97-102 | floor(n/4) + 1 values; each is the clamped-index sample / 128, in [0, 2) |
| Visualiser.WaveRadius | src/components/SoundButton.tsx:103-106 | a centre sample (v = 1) sits on the offset base circle; with non-negative amplification a higher sample lies outside it |
| Visualiser.WaveRadiusEnvelope | src/components/SoundButton.tsx:103-106 | a point's radius lies within 8·amplification of base + offset |
| Visualiser.PrimaryWaveCanGoNegative | src/components/SoundButton.tsx:131 | with amplification 4, a zero sample gives a negative radius |
| PlanarUv.Divide | src/components/SceneModel.tsx:79-80 | finite exactly for a non-zero divisor, then the quotient; NaN exactly for 0/0 |
| PlanarUv.DivideIntoUnit | src/components/SceneModel.tsx:79-80 | 0 ≤ a ≤ b with b > 0 gives a finite quotient in [0, 1] |
| PlanarUv.Expand | src/components/SceneModel.tsx:50 | the expanded box contains the new point and everything the old one contained; each face is the new point's or the old box's |
| PlanarUv.BoundingBox | src/components/SceneModel.tsx:50-51 | the box is empty exactly without vertices, and contains every vertex |
| PlanarUv.BoundingBoxTight | src/components/SceneModel.tsx:50-51 | for a non-empty mesh every one of the six faces touches a vertex, so the box is the tightest one |
| PlanarUv.Size | src/components/SceneModel.tsx:53-54 | an empty box has size zero; otherwise each extent is max minus min on that axis |
| PlanarUv.Center | src/components/SceneModel.tsx:87-89 | the centre of a proper box lies inside it; an empty box gives the origin |
| PlanarUv.DominantAxes | src/components/SceneModel.tsx:57-64 | two distinct axes; the first has the largest extent, the second the largest of the others; ties go to the lower axis (stable sort) |
| PlanarUv.ChooseProjection | src/components/SceneModel.tsx:66-70 | the axes are the dominant ones; minimum and range are the box minimum and extent along each; rangeU ≥ rangeV |
| PlanarUv.ComponentInside | src/components/SceneModel.tsx:76-77 | a vertex's component lies between the box's minimum and maximum on that axis |
| PlanarUv.UvAt | src/components/SceneModel.tsx:76-80 | a coordinate is a finite number exactly when its range is non-zero |
| PlanarUv.UvInUnitSquare | src/components/SceneModel.tsx:76-80 | a vertex inside a box with a positive second range maps to finite coordinates in [0, 1]² under that box's projection |
| PlanarUv.UvsInUnitSquare | src/components/SceneModel.tsx:75-81 | when the second range is positive, every vertex maps to finite coordinates in [0, 1]² |
| PlanarUv.TwoPositiveExtentsGivePositiveRanges | src/components/SceneModel.tsx:57-70 | a box with two positive extents gets two positive ranges |
| PlanarUv.FlatSecondAxisGivesNaN | src/components/SceneModel.tsx:80 | with a zero second range every v coordinate is NaN |
| PlanarUv.FillPlanarUvs | src/components/SceneModel.tsx:73-81 | a buffer of exactly 2·count entries; entry 2i is vertex i's u and entry 2i+1 its v |
| PlanarUv.ScreenGeometry.constructor | src/components/SceneModel.tsx:49 | the geometry holds its vertices, no box and no uv attribute yet |
| PlanarUv.ScreenGeometry.ComputeBoundingBox | src/components/SceneModel.tsx:50 | the geometry's box becomes the box around its vertices |
| PlanarUv.SceneModel.constructor | src/components/SceneModel.tsx:45 | the audio starts at the origin |
| PlanarUv.SceneModel.LayoutEffect | src/components/SceneModel.tsx:47-92 | without the screen nothing changes; otherwise the box is computed, the uv attribute holds the projection of every vertex, and the audio sits at the box centre |

## Left out

- Shader materials, scene graphs, GSAP timelines and canvas drawing. The `cos`/`sin` placement of waveform points and the direction `normalize()` involve floating-point library numerics with no statable contract. The model keeps the direction as its un-normalised integer pair.
- Audio playback itself, including `play()` promise rejection (the source ignores it), the analyser nodes and the per-element `muted` syncing. Commands are recorded in effect logs.
- `setGlobalMute`, `stopWindGrassSound` and `getAudioAnalyser` (imported from `src/utils/audioManager.ts`) are not modelled; their calls are only recorded or passed in as flags.
- Browser storage, the clock (`new Date()`, `performance.now()`), `window.innerWidth`/`innerHeight`, `typeof window` and the mouse-event target. All of these are parameters.
- HoldReveal.NormaliseMouse: requires a window of positive width and height. A zero-size window makes the source divide by zero (Infinity or NaN mouse uniforms), which is not modelled.
- Scheduling: `requestAnimationFrame`, `setInterval` and `setTimeout` become calls of the modelled methods in whatever order the caller chooses. React's render and effect ordering is left to the caller too. In particular, the provider's first persist effect is skipped in the source because it sees the not-yet-mounted render.
- `stopAllAudio` (imported from `src/utils/audioManager.ts`), called when the experience page mounts, is not modelled.
- The landing-intro autoplay retry on mouse move, and the `cursor:toggle` event on lock changes, are not modelled.
- HoldReveal: shader time, hold time and frame durations are whole milliseconds rather than float seconds.
- Float32 rounding of the uv buffer and float rounding in general are not modelled: all arithmetic is exact.
- PlanarUv: morph targets in `computeBoundingBox` are not modelled. An empty box's minimum is taken as 0 rather than +Infinity; it is never read, because an empty box has no vertices.
- Scenery: the position is kept as a number of viewport-width percent, not the `"<n>vw"` string.
- Visualiser.SampleWave: requires a non-empty buffer. The analyser's bin count is half its FFT size, which is at least 32, so the buffer always holds at least 16 bytes; the NaN an empty buffer would give is not modelled.
- HoldReveal.SmoothApproachesTarget: proved only for frames of at most 200 ms. A longer frame makes `delta * 5 > 1` and overshoots, which the source allows.
