/**
 * The "hold to reveal" loader: the hologram's per-frame state machine
 * (accumulated hold time, sonar pulse phase, one-shot sounds, smoothed
 * `uHold` uniform) and the page's hold indicator with its countdown.
 *
 * Frame times are integer milliseconds so that the JavaScript remainder on
 * the shader clock is exact; `uHold` is a real.
 */
module HoldReveal {
  import opened Base

  /** The shader's scan wave restarts every 2.5 s. */
  const SonarCycle: int := 2500
  /** The pulse phase lasts while the hold is shorter than 10 s. */
  const PulsePhaseEnd: int := 10000

  /** JavaScript `%`: the remainder truncated toward zero, carrying the dividend's sign. */
  function JsRem(a: int, m: int): (r: int)
    requires m > 0
    ensures a >= 0 ==> 0 <= r < m
    ensures a < 0 ==> -m < r <= 0
    ensures a >= 0 ==> r == a % m
  {
    if a >= 0 then a % m else -((-a) % m)
  }

  /** Unlike Dafny's Euclidean `%`, the JavaScript remainder is odd in its dividend. */
  lemma JsRemOdd(a: int, m: int)
    requires m > 0
    ensures JsRem(-a, m) == -JsRem(a, m)
  {
  }

  /** `(uTime % SONAR_CYCLE) / SONAR_CYCLE`, a fraction of the wave cycle. */
  function CyclePosition(t: int): (p: real)
    ensures t >= 0 ==> 0.0 <= p < 1.0
    ensures t < 0 ==> -1.0 < p <= 0.0
  {
    JsRem(t, SonarCycle) as real / SonarCycle as real
  }

  /** The wave restarted during the last frame: the cycle position went down. */
  predicate WaveReset(uTime: int, delta: int)
    ensures delta == 0 ==> !WaveReset(uTime, delta)
  {
    CyclePosition(uTime - delta) > CyclePosition(uTime)
  }

  /** For a frame shorter than a cycle, the wave resets exactly when the frame crosses a cycle boundary. */
  lemma WaveResetIsCycleBoundary(uTime: int, delta: int)
    requires 0 <= delta < SonarCycle && uTime - delta >= 0
    ensures WaveReset(uTime, delta) <==> uTime / SonarCycle > (uTime - delta) / SonarCycle
  {
    var p := uTime - delta;
    var q, r := p / SonarCycle, p % SonarCycle;
    assert p == q * SonarCycle + r;
    if r + delta < SonarCycle {
      assert uTime == q * SonarCycle + (r + delta);
      assert uTime / SonarCycle == q && uTime % SonarCycle == r + delta;
    } else {
      assert uTime == (q + 1) * SonarCycle + (r + delta - SonarCycle);
      assert uTime / SonarCycle == q + 1 && uTime % SonarCycle == r + delta - SonarCycle;
    }
  }

  /** Which of the audio elements exist (each is `null` outside a browser). */
  datatype Sounds = Sounds(hasSonar: bool, hasModeInitiation: bool, hasSyntheticMusic: bool, hasLandingIntro: bool)

  /** What a frame reads: its duration, the shared hold flag, the mouse, whether the landing intro plays. */
  datatype FrameInput = FrameInput(delta: nat, isHolding: bool, mouseX: real, mouseY: real, landingIntroPlaying: bool)

  /** The audio commands a frame issues, in order. */
  datatype Effect =
    | SonarRestart                      // rewind the sonar burst and play it
    | SonarStop                         // pause and rewind the sonar burst
    | ModeInitiationPlay(volume: real)  // rewind, set the volume and play
    | SyntheticMusicPlay                // rewind and play the synthetic loop
    | SyntheticMusicStop                // pause and rewind the synthetic loop
    | LandingIntroStop                  // pause and rewind the landing intro
    | LandingIntroRestart               // rewind and play the landing intro

  /** The hologram's refs and shader uniforms. */
  datatype HoldState = HoldState(
    uTime: int, uMouseX: real, uMouseY: real,
    holdTime: int, modeInitiationPlayed: bool, syntheticMusicPlayed: bool,
    uHold: real, uHoldTime: int)

  const Initial := HoldState(0, 0.0, 0.0, 0, false, false, 0.0, 0)

  datatype FrameResult = FrameResult(state: HoldState, effects: seq<Effect>)

  /** `uHold += (target - uHold) * delta * 5`, with `delta` in milliseconds. */
  function Smooth(uHold: real, target: real, delta: nat): (u: real)
    ensures delta == 0 || uHold == target ==> u == uHold
    ensures delta == 200 ==> u == target
  {
    uHold + (target - uHold) * (delta as real / 1000.0) * 5.0
  }

  /** A command issued only when `c` holds. */
  function When(c: bool, e: Effect): seq<Effect> {
    if c then [e] else []
  }

  /** A pulse-phase frame (`s` carries the advanced clock and hold time): replay the sonar burst when the wave wraps. */
  function PulseFrame(s: HoldState, snd: Sounds, f: FrameInput): (r: FrameResult)
    ensures r.state == s
    ensures r.effects == [] || r.effects == [SonarRestart]
    ensures SonarRestart in r.effects <==> WaveReset(s.uTime, f.delta) && snd.hasSonar
  {
    FrameResult(s, When(WaveReset(s.uTime, f.delta) && snd.hasSonar, SonarRestart))
  }

  /** A final-phase frame: silence the intro and the sonar, start each one-shot sound once. */
  function FinalFrame(s: HoldState, snd: Sounds, f: FrameInput): (r: FrameResult)
    ensures r.state.modeInitiationPlayed <==> s.modeInitiationPlayed || snd.hasModeInitiation
    ensures r.state.syntheticMusicPlayed <==> s.syntheticMusicPlayed || snd.hasSyntheticMusic
    ensures r.state.(modeInitiationPlayed := s.modeInitiationPlayed, syntheticMusicPlayed := s.syntheticMusicPlayed) == s
    ensures SonarRestart !in r.effects && LandingIntroRestart !in r.effects
  {
    var playMode := !s.modeInitiationPlayed && snd.hasModeInitiation;
    var playSynth := !s.syntheticMusicPlayed && snd.hasSyntheticMusic;
    FrameResult(
      s.(modeInitiationPlayed := s.modeInitiationPlayed || playMode,
         syntheticMusicPlayed := s.syntheticMusicPlayed || playSynth),
      When(snd.hasLandingIntro && f.landingIntroPlaying, LandingIntroStop)
      + When(snd.hasSonar, SonarStop)
      + When(playMode, ModeInitiationPlay(0.5))
      + When(playSynth, SyntheticMusicPlay))
  }

  /** The holding branch of a frame; `s` already carries the advanced shader clock. */
  function HoldingFrame(s: HoldState, snd: Sounds, f: FrameInput): (r: FrameResult)
    ensures r.state.holdTime == s.holdTime + f.delta
    ensures r.state.(modeInitiationPlayed := s.modeInitiationPlayed, syntheticMusicPlayed := s.syntheticMusicPlayed)
      == s.(holdTime := s.holdTime + f.delta)
    ensures s.holdTime + f.delta < PulsePhaseEnd ==> r.state == s.(holdTime := s.holdTime + f.delta)
    ensures s.holdTime + f.delta >= PulsePhaseEnd ==> SonarRestart !in r.effects
  {
    var s1 := s.(holdTime := s.holdTime + f.delta);
    if s1.holdTime < PulsePhaseEnd then PulseFrame(s1, snd, f) else FinalFrame(s1, snd, f)
  }

  /** The release branch of a frame: everything is reset and the landing intro restarts. */
  function ReleaseFrame(s: HoldState, snd: Sounds): (r: FrameResult)
    ensures r.state == s.(holdTime := 0, modeInitiationPlayed := false, syntheticMusicPlayed := false)
    ensures LandingIntroRestart in r.effects <==> snd.hasLandingIntro
    ensures SonarRestart !in r.effects && ModeInitiationPlay(0.5) !in r.effects && SyntheticMusicPlay !in r.effects
  {
    FrameResult(
      s.(holdTime := 0, modeInitiationPlayed := false, syntheticMusicPlayed := false),
      When(snd.hasSonar, SonarStop)
      + When(snd.hasSyntheticMusic, SyntheticMusicStop)
      + When(snd.hasLandingIntro, LandingIntroRestart))
  }

  /** One call of the hologram's frame callback. */
  function Step(s: HoldState, snd: Sounds, f: FrameInput): (r: FrameResult)
    ensures r.state.uTime == s.uTime + f.delta
    ensures r.state.uMouseX == f.mouseX && r.state.uMouseY == f.mouseY
    ensures r.state.uHoldTime == r.state.holdTime
    ensures r.state.uHold == Smooth(s.uHold, if f.isHolding then 1.0 else 0.0, f.delta)
  {
    var s1 := s.(uTime := s.uTime + f.delta, uMouseX := f.mouseX, uMouseY := f.mouseY);
    var r := if f.isHolding then HoldingFrame(s1, snd, f) else ReleaseFrame(s1, snd);
    var targetHold := if f.isHolding then 1.0 else 0.0;
    FrameResult(r.state.(uHold := Smooth(s.uHold, targetHold, f.delta), uHoldTime := r.state.holdTime), r.effects)
  }

  /**
   * A series of frames, effects concatenated in order. Frame `i` sees the
   * audio elements `snds[i]`: the page hands its refs' current values to the
   * hologram at each render, so an element can appear in the middle of a hold.
   */
  function Run(s: HoldState, snds: seq<Sounds>, frames: seq<FrameInput>): FrameResult
    requires |snds| == |frames|
    decreases |frames|
  {
    if frames == [] then FrameResult(s, [])
    else
      var first := Step(s, snds[0], frames[0]);
      var rest := Run(first.state, snds[1..], frames[1..]);
      FrameResult(rest.state, first.effects + rest.effects)
  }

  predicate AllHolding(frames: seq<FrameInput>) {
    forall i :: 0 <= i < |frames| ==> frames[i].isHolding
  }

  function TotalDelta(frames: seq<FrameInput>): int
    decreases |frames|
  {
    if frames == [] then 0 else frames[0].delta + TotalDelta(frames[1..])
  }

  /** While holding, each frame adds exactly its delta; a release frame resets the hold and re-arms both one-shots. */
  lemma HoldTimeStep(s: HoldState, snd: Sounds, f: FrameInput)
    ensures f.isHolding ==> Step(s, snd, f).state.holdTime == s.holdTime + f.delta
    ensures !f.isHolding ==>
      Step(s, snd, f).state.holdTime == 0 && !Step(s, snd, f).state.modeInitiationPlayed && !Step(s, snd, f).state.syntheticMusicPlayed
  {
  }

  /** Over a continuous hold the hold time is the sum of the frame durations. */
  lemma {:induction false} HoldTimeAccumulates(s: HoldState, snds: seq<Sounds>, frames: seq<FrameInput>)
    requires |snds| == |frames| && AllHolding(frames)
    ensures Run(s, snds, frames).state.holdTime == s.holdTime + TotalDelta(frames)
    decreases |frames|
  {
    if frames != [] {
      HoldTimeAccumulates(Step(s, snds[0], frames[0]).state, snds[1..], frames[1..]);
    }
  }

  /** The sonar burst is only played in the pulse phase, and only when the wave wrapped. */
  lemma SonarOnlyInPulsePhase(s: HoldState, snd: Sounds, f: FrameInput)
    requires SonarRestart in Step(s, snd, f).effects
    ensures f.isHolding && s.holdTime + f.delta < PulsePhaseEnd
    ensures WaveReset(s.uTime + f.delta, f.delta)
  {
  }

  /** Conversely, every wrap of the scan wave during the pulse phase replays the sonar burst. */
  lemma SonarReplayedOnWrap(s: HoldState, snd: Sounds, f: FrameInput)
    requires f.isHolding && s.holdTime + f.delta < PulsePhaseEnd && snd.hasSonar
    requires WaveReset(s.uTime + f.delta, f.delta)
    ensures SonarRestart in Step(s, snd, f).effects
  {
  }

  /** A conditional command counts once exactly when it is issued and is the command counted. */
  lemma CountWhen(c: bool, e: Effect, x: Effect)
    ensures Count(When(c, e), x) == B2I(c && e == x)
  {
    if c {
      assert When(c, e)[1..] == [];
    }
  }

  lemma CountConcat4(a: seq<Effect>, b: seq<Effect>, c: seq<Effect>, d: seq<Effect>, x: Effect)
    ensures Count(a + b + c + d, x) == Count(a, x) + Count(b, x) + Count(c, x) + Count(d, x)
  {
    CountAppend(a + b + c, d, x);
    CountAppend(a + b, c, x);
    CountAppend(a, b, x);
  }

  /** In a final-phase frame the mode-initiation flag rises exactly when that sound is started. */
  lemma FinalFrameCountsMode(s: HoldState, snd: Sounds, f: FrameInput)
    ensures Count(FinalFrame(s, snd, f).effects, ModeInitiationPlay(0.5)) + B2I(s.modeInitiationPlayed)
      == B2I(FinalFrame(s, snd, f).state.modeInitiationPlayed)
  {
    var x := ModeInitiationPlay(0.5);
    var a := When(snd.hasLandingIntro && f.landingIntroPlaying, LandingIntroStop);
    var b := When(snd.hasSonar, SonarStop);
    var c := When(!s.modeInitiationPlayed && snd.hasModeInitiation, x);
    var d := When(!s.syntheticMusicPlayed && snd.hasSyntheticMusic, SyntheticMusicPlay);
    assert FinalFrame(s, snd, f).effects == a + b + c + d;
    CountConcat4(a, b, c, d, x);
    CountWhen(snd.hasLandingIntro && f.landingIntroPlaying, LandingIntroStop, x);
    CountWhen(snd.hasSonar, SonarStop, x);
    CountWhen(!s.modeInitiationPlayed && snd.hasModeInitiation, x, x);
    CountWhen(!s.syntheticMusicPlayed && snd.hasSyntheticMusic, SyntheticMusicPlay, x);
  }

  /** In a final-phase frame the synthetic-music flag rises exactly when that loop is started. */
  lemma FinalFrameCountsSynth(s: HoldState, snd: Sounds, f: FrameInput)
    ensures Count(FinalFrame(s, snd, f).effects, SyntheticMusicPlay) + B2I(s.syntheticMusicPlayed)
      == B2I(FinalFrame(s, snd, f).state.syntheticMusicPlayed)
  {
    var x := SyntheticMusicPlay;
    var a := When(snd.hasLandingIntro && f.landingIntroPlaying, LandingIntroStop);
    var b := When(snd.hasSonar, SonarStop);
    var c := When(!s.modeInitiationPlayed && snd.hasModeInitiation, ModeInitiationPlay(0.5));
    var d := When(!s.syntheticMusicPlayed && snd.hasSyntheticMusic, x);
    assert FinalFrame(s, snd, f).effects == a + b + c + d;
    CountConcat4(a, b, c, d, x);
    CountWhen(snd.hasLandingIntro && f.landingIntroPlaying, LandingIntroStop, x);
    CountWhen(snd.hasSonar, SonarStop, x);
    CountWhen(!s.modeInitiationPlayed && snd.hasModeInitiation, ModeInitiationPlay(0.5), x);
    CountWhen(!s.syntheticMusicPlayed && snd.hasSyntheticMusic, x, x);
  }

  /** In one holding frame each one-shot flag rises exactly when its sound is started. */
  lemma StepCountsPlays(s: HoldState, snd: Sounds, f: FrameInput)
    requires f.isHolding
    ensures Count(Step(s, snd, f).effects, ModeInitiationPlay(0.5)) + B2I(s.modeInitiationPlayed)
      == B2I(Step(s, snd, f).state.modeInitiationPlayed)
    ensures Count(Step(s, snd, f).effects, SyntheticMusicPlay) + B2I(s.syntheticMusicPlayed)
      == B2I(Step(s, snd, f).state.syntheticMusicPlayed)
  {
    var s1 := s.(uTime := s.uTime + f.delta, uMouseX := f.mouseX, uMouseY := f.mouseY, holdTime := s.holdTime + f.delta);
    if s1.holdTime >= PulsePhaseEnd {
      FinalFrameCountsMode(s1, snd, f);
      FinalFrameCountsSynth(s1, snd, f);
    } else {
      CountWhen(WaveReset(s1.uTime, f.delta) && snd.hasSonar, SonarRestart, ModeInitiationPlay(0.5));
      CountWhen(WaveReset(s1.uTime, f.delta) && snd.hasSonar, SonarRestart, SyntheticMusicPlay);
    }
  }

  /**
   * Over a continuous hold each one-shot flag records exactly whether its
   * sound has been started: the plays issued equal the flag's rise.
   */
  lemma {:induction false} OneShotFlagsCountPlays(s: HoldState, snds: seq<Sounds>, frames: seq<FrameInput>)
    requires |snds| == |frames| && AllHolding(frames)
    ensures Count(Run(s, snds, frames).effects, ModeInitiationPlay(0.5)) + B2I(s.modeInitiationPlayed)
      == B2I(Run(s, snds, frames).state.modeInitiationPlayed)
    ensures Count(Run(s, snds, frames).effects, SyntheticMusicPlay) + B2I(s.syntheticMusicPlayed)
      == B2I(Run(s, snds, frames).state.syntheticMusicPlayed)
    decreases |frames|
  {
    if frames != [] {
      var first := Step(s, snds[0], frames[0]);
      var rest := Run(first.state, snds[1..], frames[1..]);
      StepCountsPlays(s, snds[0], frames[0]);
      OneShotFlagsCountPlays(first.state, snds[1..], frames[1..]);
      CountAppend(first.effects, rest.effects, ModeInitiationPlay(0.5));
      CountAppend(first.effects, rest.effects, SyntheticMusicPlay);
    }
  }

  /**
   * Each one-shot sound starts at most once per continuous hold, none if it
   * already played, even when its element appears only partway through.
   */
  lemma OneShotAtMostOncePerHold(s: HoldState, snds: seq<Sounds>, frames: seq<FrameInput>)
    requires |snds| == |frames| && AllHolding(frames)
    ensures Count(Run(s, snds, frames).effects, ModeInitiationPlay(0.5)) <= 1
    ensures Count(Run(s, snds, frames).effects, SyntheticMusicPlay) <= 1
    ensures s.modeInitiationPlayed ==> ModeInitiationPlay(0.5) !in Run(s, snds, frames).effects
    ensures s.syntheticMusicPlayed ==> SyntheticMusicPlay !in Run(s, snds, frames).effects
  {
    OneShotFlagsCountPlays(s, snds, frames);
  }

  /**
   * A hold that reaches the final phase leaves the mode-initiation flag set
   * when that sound exists on the hold's last frame.
   */
  lemma {:induction false} FinalPhaseSetsFlag(s: HoldState, snds: seq<Sounds>, frames: seq<FrameInput>)
    requires |snds| == |frames| && AllHolding(frames) && frames != [] && snds[|snds| - 1].hasModeInitiation
    requires Run(s, snds, frames).state.holdTime >= PulsePhaseEnd
    ensures Run(s, snds, frames).state.modeInitiationPlayed
    decreases |frames|
  {
    var first := Step(s, snds[0], frames[0]);
    if frames[1..] != [] {
      FinalPhaseSetsFlag(first.state, snds[1..], frames[1..]);
    } else {
      assert Run(first.state, snds[1..], frames[1..]).state == first.state;
    }
  }

  /** After a release, a new hold lasting 10 s plays the mode-initiation sound exactly once. */
  lemma ReplayAfterRelease(s: HoldState, snd: Sounds, release: FrameInput, snds: seq<Sounds>, hold: seq<FrameInput>)
    requires !release.isHolding && |snds| == |hold| && AllHolding(hold) && hold != []
    requires snds[|snds| - 1].hasModeInitiation && TotalDelta(hold) >= PulsePhaseEnd
    ensures Count(Run(Step(s, snd, release).state, snds, hold).effects, ModeInitiationPlay(0.5)) == 1
  {
    var r := Step(s, snd, release).state;
    HoldTimeAccumulates(r, snds, hold);
    FinalPhaseSetsFlag(r, snds, hold);
    OneShotFlagsCountPlays(r, snds, hold);
  }

  /** A frame without a hold rewinds and replays the landing intro exactly once. */
  lemma ReleaseFrameRestartsIntro(s: HoldState, snd: Sounds, f: FrameInput)
    requires !f.isHolding && snd.hasLandingIntro
    ensures Count(Step(s, snd, f).effects, LandingIntroRestart) == 1
  {
    var a := When(snd.hasSonar, SonarStop);
    var b := When(snd.hasSyntheticMusic, SyntheticMusicStop);
    var c := When(true, LandingIntroRestart);
    assert Step(s, snd, f).effects == a + b + c;
    CountAppend(a + b, c, LandingIntroRestart);
    CountAppend(a, b, LandingIntroRestart);
    CountWhen(snd.hasSonar, SonarStop, LandingIntroRestart);
    CountWhen(snd.hasSyntheticMusic, SyntheticMusicStop, LandingIntroRestart);
    CountWhen(true, LandingIntroRestart, LandingIntroRestart);
  }

  /**
   * The release branch is not an edge: it runs on every frame without a hold,
   * so an idle stretch of n frames rewinds the landing intro to its start n
   * times, not once.
   */
  lemma {:induction false} IdleFramesRewindIntroEveryFrame(s: HoldState, snds: seq<Sounds>, frames: seq<FrameInput>)
    requires |snds| == |frames|
    requires forall i :: 0 <= i < |snds| ==> snds[i].hasLandingIntro
    requires forall i :: 0 <= i < |frames| ==> !frames[i].isHolding
    ensures Count(Run(s, snds, frames).effects, LandingIntroRestart) == |frames|
    decreases |frames|
  {
    if frames != [] {
      var first := Step(s, snds[0], frames[0]);
      ReleaseFrameRestartsIntro(s, snds[0], frames[0]);
      IdleFramesRewindIntroEveryFrame(first.state, snds[1..], frames[1..]);
      CountAppend(first.effects, Run(first.state, snds[1..], frames[1..]).effects, LandingIntroRestart);
    }
  }

  /** With a frame of at most 200 ms, `uHold` moves toward its target without overshooting. */
  lemma SmoothApproachesTarget(u: real, target: real, delta: nat)
    requires 0.0 <= u <= 1.0 && (target == 0.0 || target == 1.0) && delta <= 200
    ensures 0.0 <= Smooth(u, target, delta) <= 1.0
    ensures u <= target ==> u <= Smooth(u, target, delta) <= target
    ensures target <= u ==> target <= Smooth(u, target, delta) <= u
  {
    var a := delta as real / 1000.0;
    if target == 1.0 {
      var x := 1.0 - u;
      ScaleDown(x, a);
      var step := x * a * 5.0;
      assert 0.0 <= step <= x;
      assert Smooth(u, target, delta) == u + step;
    } else {
      ScaleDown(u, a);
      var step := u * a * 5.0;
      assert 0.0 <= step <= u;
      assert (0.0 - u) * a * 5.0 == -step;
      assert Smooth(u, target, delta) == u - step;
    }
  }

  /** Arithmetic helper for `SmoothApproachesTarget`: `0 <= x * a * 5 <= x` when `a <= 0.2`. */
  lemma ScaleDown(x: real, a: real)
    requires 0.0 <= x && 0.0 <= a <= 0.2
    ensures 0.0 <= x * a * 5.0 <= x
  {
  }

  /** `uHold` stays in [0, 1] along any run of frames of at most 200 ms. */
  lemma {:induction false} UHoldBounded(s: HoldState, snds: seq<Sounds>, frames: seq<FrameInput>)
    requires |snds| == |frames| && 0.0 <= s.uHold <= 1.0
    requires forall i :: 0 <= i < |frames| ==> frames[i].delta <= 200
    ensures 0.0 <= Run(s, snds, frames).state.uHold <= 1.0
    decreases |frames|
  {
    if frames != [] {
      SmoothApproachesTarget(s.uHold, if frames[0].isHolding then 1.0 else 0.0, frames[0].delta);
      UHoldBounded(Step(s, snds[0], frames[0]).state, snds[1..], frames[1..]);
    }
  }

  /** The hologram component: its refs and shader uniforms, updated in place every frame. */
  class PenthouseHologram {
    /** The audio elements the latest render handed in (`null` ones are absent). */
    var sounds: Sounds
    var uTime: int
    var uMouseX: real
    var uMouseY: real
    var holdTime: int
    var modeInitiationPlayed: bool
    var syntheticMusicPlayed: bool
    var uHold: real
    var uHoldTime: int
    /** Audio commands issued so far. */
    var effects: seq<Effect>

    function State(): HoldState
      reads this
    {
      HoldState(uTime, uMouseX, uMouseY, holdTime, modeInitiationPlayed, syntheticMusicPlayed, uHold, uHoldTime)
    }

    constructor (sounds: Sounds)
      ensures this.sounds == sounds && State() == Initial && effects == []
    {
      this.sounds := sounds;
      uTime, uMouseX, uMouseY := 0, 0.0, 0.0;
      holdTime, modeInitiationPlayed, syntheticMusicPlayed := 0, false, false;
      uHold, uHoldTime := 0.0, 0;
      effects := [];
    }

    /** A re-render of the parent: the refs' current elements become the new props; nothing else changes. */
    method Rerender(snd: Sounds)
      modifies this
      ensures sounds == snd && State() == old(State()) && effects == old(effects)
    {
      sounds := snd;
    }

    /** The `useFrame` callback. */
    method OnFrame(f: FrameInput)
      modifies this
      ensures sounds == old(sounds)
      ensures State() == Step(old(State()), sounds, f).state
      ensures effects == old(effects) + Step(old(State()), sounds, f).effects
    {
      ghost var s0 := State();
      ghost var snd := sounds;
      uTime := uTime + f.delta;
      uMouseX, uMouseY := f.mouseX, f.mouseY;
      ghost var s1 := State();
      assert s1 == s0.(uTime := s0.uTime + f.delta, uMouseX := f.mouseX, uMouseY := f.mouseY);
      ghost var r := if f.isHolding then HoldingFrame(s1, snd, f) else ReleaseFrame(s1, snd);
      if f.isHolding {
        Hold(f);
      } else {
        Release();
      }
      assert State() == r.state && effects == old(effects) + r.effects;
      assert uHold == s0.uHold;
      var targetHold := if f.isHolding then 1.0 else 0.0;
      uHold := Smooth(uHold, targetHold, f.delta);
      uHoldTime := holdTime;
      assert State() == r.state.(uHold := Smooth(s0.uHold, targetHold, f.delta), uHoldTime := r.state.holdTime);
    }

    /** The holding branch: accumulate, then pulse or enter the final phase. */
    method Hold(f: FrameInput)
      modifies this
      ensures sounds == old(sounds)
      ensures State() == HoldingFrame(old(State()), sounds, f).state
      ensures effects == old(effects) + HoldingFrame(old(State()), sounds, f).effects
    {
      holdTime := holdTime + f.delta;
      var inPulsePhase := holdTime < PulsePhaseEnd;
      if inPulsePhase {
        Pulse(f);
      } else {
        FinalPhase(f);
      }
    }

    /** Pulse phase: restart the sonar burst each time the scan wave wraps. */
    method Pulse(f: FrameInput)
      modifies this
      ensures sounds == old(sounds)
      ensures State() == PulseFrame(old(State()), sounds, f).state
      ensures effects == old(effects) + PulseFrame(old(State()), sounds, f).effects
    {
      var cyclePosition := CyclePosition(uTime);
      var prevCyclePosition := CyclePosition(uTime - f.delta);
      if prevCyclePosition > cyclePosition && sounds.hasSonar {
        effects := effects + [SonarRestart];
      }
    }

    /** Final phase: stop the intro and the sonar, start the one-shot sounds not yet played. */
    method FinalPhase(f: FrameInput)
      modifies this
      ensures sounds == old(sounds)
      ensures State() == FinalFrame(old(State()), sounds, f).state
      ensures effects == old(effects) + FinalFrame(old(State()), sounds, f).effects
    {
      ghost var s := State();
      var snd := sounds;
      var stops: seq<Effect> := [];
      if snd.hasLandingIntro && f.landingIntroPlaying {
        stops := stops + [LandingIntroStop];
      }
      if snd.hasSonar {
        stops := stops + [SonarStop];
      }
      assert stops == When(snd.hasLandingIntro && f.landingIntroPlaying, LandingIntroStop) + When(snd.hasSonar, SonarStop);
      var plays: seq<Effect> := [];
      if !modeInitiationPlayed && snd.hasModeInitiation {
        plays := plays + [ModeInitiationPlay(0.5)];
        modeInitiationPlayed := true;
      }
      if !syntheticMusicPlayed && snd.hasSyntheticMusic {
        plays := plays + [SyntheticMusicPlay];
        syntheticMusicPlayed := true;
      }
      assert plays == When(!s.modeInitiationPlayed && snd.hasModeInitiation, ModeInitiationPlay(0.5))
        + When(!s.syntheticMusicPlayed && snd.hasSyntheticMusic, SyntheticMusicPlay);
      assert FinalFrame(s, snd, f).effects == stops + plays;
      effects := effects + (stops + plays);
    }

    /** The release branch: reset the hold and both one-shots, stop the loops, restart the intro. */
    method Release()
      modifies this
      ensures sounds == old(sounds)
      ensures State() == ReleaseFrame(old(State()), sounds).state
      ensures effects == old(effects) + ReleaseFrame(old(State()), sounds).effects
    {
      holdTime := 0;
      modeInitiationPlayed := false;
      syntheticMusicPlayed := false;
      var issued: seq<Effect> := [];
      if sounds.hasSonar {
        issued := issued + [SonarStop];
      }
      if sounds.hasSyntheticMusic {
        issued := issued + [SyntheticMusicStop];
      }
      if sounds.hasLandingIntro {
        issued := issued + [LandingIntroRestart];
      }
      effects := effects + issued;
    }
  }

  /** A mouse-down target: its own tag, and whether `closest('button')` finds a button. */
  datatype Target = Target(tagName: string, closestButton: bool)

  predicate OnButton(t: Target) {
    t.tagName == "BUTTON" || t.closestButton
  }

  /** The page-level hold flag and the countdown counter (in seconds). */
  class HoldIndicator {
    var isHolding: bool
    var holdTime: real

    ghost predicate Valid()
      reads this
    {
      0.0 <= holdTime <= 10.0
    }

    constructor ()
      ensures Valid() && !isHolding && holdTime == 0.0
    {
      isHolding, holdTime := false, 0.0;
    }

    /** A press outside any button starts a hold; a press on a button changes nothing. */
    method MouseDown(target: Target)
      requires Valid()
      modifies this
      ensures Valid()
      ensures isHolding == (old(isHolding) || !OnButton(target))
      ensures holdTime == old(holdTime)
    {
      if target.tagName == "BUTTON" || target.closestButton {
        return;
      }
      isHolding := true;
    }

    /** Any release ends the hold and clears the counter. */
    method MouseUp()
      modifies this
      ensures Valid() && !isHolding && holdTime == 0.0
    {
      isHolding := false;
      holdTime := 0.0;
    }

    /** The animation-frame counter: about 16 ms per frame while holding, capped at 10 s. */
    method AnimationFrame()
      requires Valid()
      modifies this
      ensures Valid() && isHolding == old(isHolding)
      ensures holdTime == if isHolding then Clamp10(old(holdTime) + 0.016) else old(holdTime)
    {
      if isHolding {
        holdTime := if holdTime + 0.016 < 10.0 then holdTime + 0.016 else 10.0;
      }
    }
  }

  /** `Math.min(x, 10)`. */
  function Clamp10(x: real): (r: real)
    ensures r <= 10.0 && r <= x && (r == x || r == 10.0)
  {
    if x < 10.0 then x else 10.0
  }

  /** `Math.ceil`. */
  function Ceil(x: real): (n: int)
    ensures (n - 1) as real < x <= n as real
  {
    -((-x).Floor)
  }

  /** The seconds left on the countdown: `max(0, ceil(10 - holdTime))`. */
  function CountdownSeconds(holdTime: real): (n: int)
    ensures 0 <= n
    ensures holdTime >= 0.0 ==> n <= 10
    ensures n == 0 <==> holdTime >= 10.0
  {
    var c := Ceil(10.0 - holdTime);
    if c < 0 then 0 else c
  }

  /** The number shown under the indicator: the countdown while holding, 10 otherwise. */
  function CountdownShown(isHolding: bool, holdTime: real): (n: int)
    ensures 0 <= n && (holdTime >= 0.0 ==> n <= 10)
    ensures !isHolding ==> n == 10
  {
    if isHolding then CountdownSeconds(holdTime) else 10
  }

  /** The countdown never goes up while the hold time grows. */
  lemma CountdownNonIncreasing(h1: real, h2: real)
    requires h1 <= h2
    ensures CountdownSeconds(h1) >= CountdownSeconds(h2)
  {
    var c1, c2 := Ceil(10.0 - h1), Ceil(10.0 - h2);
    assert (c2 - 1) as real < 10.0 - h2 <= 10.0 - h1 <= c1 as real;
  }

  /** Mouse position mapped to [-1, 1] with y pointing up. */
  function NormaliseMouse(clientX: real, clientY: real, width: real, height: real): (m: (real, real))
    requires width > 0.0 && height > 0.0
    ensures (m.0 + 1.0) / 2.0 * width == clientX
    ensures (1.0 - m.1) / 2.0 * height == clientY
    ensures 0.0 <= clientX <= width ==> -1.0 <= m.0 <= 1.0
    ensures 0.0 <= clientY <= height ==> -1.0 <= m.1 <= 1.0
  {
    ((clientX / width) * 2.0 - 1.0, -(clientY / height) * 2.0 + 1.0)
  }
}
