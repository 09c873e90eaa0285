/**
 * The sound button's radial visualiser: a playback timer kept across
 * animation frames, a base radius that grows slowly after 30 s of playback,
 * and the sampling of the analyser's waveform buffer every fourth byte.
 */
module Visualiser {
  import opened Base

  /** Growth starts after 30 s of playback, reaches 6 px, over 60 s. */
  const GrowthThreshold: real := 30.0
  const MaxGrowth: real := 6.0
  const GrowthDuration: real := 60.0
  /** Every fourth sample of the buffer is drawn. */
  const SampleRate: nat := 4

  /** The extra radius after `playbackTime` seconds of playback. */
  function RadiusGrowth(playbackTime: real): (g: real)
    ensures 0.0 <= g <= MaxGrowth
    ensures playbackTime <= GrowthThreshold ==> g == 0.0
    ensures playbackTime >= GrowthThreshold + GrowthDuration ==> g == MaxGrowth
    ensures GrowthThreshold < playbackTime < GrowthThreshold + GrowthDuration ==> 0.0 < g < MaxGrowth
  {
    if playbackTime > GrowthThreshold then
      var t := (playbackTime - GrowthThreshold) / GrowthDuration;
      var growthProgress := if t < 1.0 then t else 1.0;
      growthProgress * MaxGrowth
    else
      0.0
  }

  /** The growth never shrinks while playback continues. */
  lemma RadiusGrowthMonotone(t1: real, t2: real)
    requires t1 <= t2
    ensures RadiusGrowth(t1) <= RadiusGrowth(t2)
  {
    if t1 > GrowthThreshold {
      assert (t1 - GrowthThreshold) / GrowthDuration <= (t2 - GrowthThreshold) / GrowthDuration;
    }
  }

  /** `20 + radiusGrowth`. */
  function BaseRadius(playbackTime: real): (r: real)
    ensures 20.0 <= r <= 26.0
  {
    20.0 + RadiusGrowth(playbackTime)
  }

  /** `28 + radiusGrowth`. */
  function MaxRadius(playbackTime: real): (r: real)
    ensures r - BaseRadius(playbackTime) == 8.0
  {
    28.0 + RadiusGrowth(playbackTime)
  }

  /** The visualiser's timer: seconds of playback and the last frame's timestamp (ms). */
  datatype Clock = Clock(playbackTime: real, lastTimestamp: real)

  /** One frame of the draw loop; the timer runs only while sound is on and an analyser exists. */
  function Tick(c: Clock, timestamp: real, active: bool): (r: Clock)
    ensures r.lastTimestamp == timestamp
    ensures !active ==> r.playbackTime == 0.0
    ensures active ==> r.playbackTime - c.playbackTime == (timestamp - c.lastTimestamp) / 1000.0
  {
    var deltaTime := (timestamp - c.lastTimestamp) / 1000.0;
    Clock(if active then c.playbackTime + deltaTime else 0.0, timestamp)
  }

  function Ticks(c: Clock, stamps: seq<real>, active: bool): Clock
    decreases |stamps|
  {
    if stamps == [] then c else Ticks(Tick(c, stamps[0], active), stamps[1..], active)
  }

  /** While playing, the timer measures exactly the wall time since the timer's reference timestamp. */
  lemma {:induction false} PlaybackTimeTelescopes(c: Clock, stamps: seq<real>)
    requires stamps != []
    ensures Ticks(c, stamps, true).playbackTime == c.playbackTime + (stamps[|stamps| - 1] - c.lastTimestamp) / 1000.0
    ensures Ticks(c, stamps, true).lastTimestamp == stamps[|stamps| - 1]
    decreases |stamps|
  {
    var c1 := Tick(c, stamps[0], true);
    if |stamps| > 1 {
      PlaybackTimeTelescopes(c1, stamps[1..]);
      assert stamps[1..][|stamps| - 2] == stamps[|stamps| - 1];
    }
  }

  /** A single muted frame (or one without an analyser) resets the growth. */
  lemma MutedFrameResetsGrowth(c: Clock, timestamp: real)
    ensures BaseRadius(Tick(c, timestamp, false).playbackTime) == 20.0
  {
  }

  /** The draw loop's closure state: the timer lives as long as the effect. */
  class VisualiserClock {
    var playbackTime: real
    var lastTimestamp: real

    function State(): Clock
      reads this
    {
      Clock(playbackTime, lastTimestamp)
    }

    /** The effect starts: timer at 0, reference time `performance.now()`. */
    constructor (now: real)
      ensures State() == Clock(0.0, now)
    {
      playbackTime, lastTimestamp := 0.0, now;
    }

    /** The timer part of `draw`; returns the frame's base and max radii. */
    method Draw(timestamp: real, soundEnabled: bool, hasAnalyser: bool) returns (baseRadius: real, maxRadius: real)
      modifies this
      ensures State() == Tick(old(State()), timestamp, soundEnabled && hasAnalyser)
      ensures baseRadius == BaseRadius(playbackTime) && maxRadius == MaxRadius(playbackTime)
    {
      var deltaTime := (timestamp - lastTimestamp) / 1000.0;
      lastTimestamp := timestamp;
      if soundEnabled && hasAnalyser {
        playbackTime := playbackTime + deltaTime;
      } else {
        playbackTime := 0.0;
      }
      var radiusGrowth := 0.0;
      if playbackTime > GrowthThreshold {
        var t := (playbackTime - GrowthThreshold) / GrowthDuration;
        var growthProgress := if t < 1.0 then t else 1.0;
        radiusGrowth := growthProgress * MaxGrowth;
      }
      baseRadius := 20.0 + radiusGrowth;
      maxRadius := 28.0 + radiusGrowth;
    }
  }

  /** An unsigned byte of the time-domain buffer. */
  type Byte = x: int | 0 <= x < 256

  /** `Math.min(i * sampleRate, bufferLength - 1)`. */
  function SampleIndex(i: nat, bufferLength: nat): (d: int)
    requires bufferLength >= 1
    ensures 0 <= d < bufferLength && d <= i * SampleRate
    ensures i <= bufferLength / SampleRate ==> (d == i * SampleRate <==> i * SampleRate < bufferLength)
    ensures i * SampleRate >= bufferLength ==> d == bufferLength - 1
  {
    var k := i * SampleRate;
    if k < bufferLength - 1 then k else bufferLength - 1
  }

  /** The clamp only bites on the closing point, and only when the length is a multiple of four. */
  lemma ClampOnlyAtClosingPoint(i: nat, bufferLength: nat)
    requires bufferLength >= 1 && i <= bufferLength / SampleRate
    ensures SampleIndex(i, bufferLength) != i * SampleRate <==>
      i == bufferLength / SampleRate && bufferLength % SampleRate == 0
  {
    var q, r := bufferLength / SampleRate, bufferLength % SampleRate;
    assert bufferLength == q * SampleRate + r;
    if i < q {
      assert i * SampleRate <= (q - 1) * SampleRate;
    }
  }

  /**
   * The sample loop of `drawRadialWave`: one value `byte / 128` per point,
   * for points 0 .. floor(length / 4) inclusive (the last one closes the circle).
   */
  method SampleWave(data: array<Byte>) returns (vs: seq<real>)
    requires data.Length >= 1
    ensures |vs| == data.Length / SampleRate + 1
    ensures forall i :: 0 <= i < |vs| ==> vs[i] == data[SampleIndex(i, data.Length)] as real / 128.0
    ensures forall i :: 0 <= i < |vs| ==> 0.0 <= vs[i] < 2.0
  {
    var bufferLength := data.Length;
    var points := bufferLength / SampleRate;
    vs := [];
    var i := 0;
    while i <= points
      invariant 0 <= i <= points + 1 && |vs| == i
      invariant forall j :: 0 <= j < i ==> vs[j] == data[SampleIndex(j, bufferLength)] as real / 128.0
      invariant forall j :: 0 <= j < i ==> 0.0 <= vs[j] < 2.0
    {
      var dataIndex := if i * SampleRate < bufferLength - 1 then i * SampleRate else bufferLength - 1;
      var v := data[dataIndex] as real / 128.0;
      vs := vs + [v];
      i := i + 1;
    }
  }

  /** A point's radius: `base + offset + (v - 1) * amplification * (max - base)`. */
  function WaveRadius(playbackTime: real, radiusOffset: real, amplification: real, v: real): (r: real)
    ensures v == 1.0 ==> r == BaseRadius(playbackTime) + radiusOffset
    ensures amplification >= 0.0 && v >= 1.0 ==> r >= BaseRadius(playbackTime) + radiusOffset
  {
    BaseRadius(playbackTime) + radiusOffset + (v - 1.0) * amplification * (MaxRadius(playbackTime) - BaseRadius(playbackTime))
  }

  /** A sample in [0, 2) puts the point within `8 * amplification` of the offset base circle. */
  lemma WaveRadiusEnvelope(playbackTime: real, radiusOffset: real, amplification: real, v: real)
    requires 0.0 <= v < 2.0 && amplification >= 0.0
    ensures var centre := BaseRadius(playbackTime) + radiusOffset;
      centre - 8.0 * amplification <= WaveRadius(playbackTime, radiusOffset, amplification, v) <= centre + 8.0 * amplification
  {
    var w := v - 1.0;
    assert WaveRadius(playbackTime, radiusOffset, amplification, v)
      == BaseRadius(playbackTime) + radiusOffset + 8.0 * (w * amplification);
    if w >= 0.0 {
      MulNonNegative(1.0 - w, amplification);
      MulNonNegative(w, amplification);
    } else {
      MulNonNegative(1.0 + w, amplification);
      MulNonNegative(-w, amplification);
      assert w * amplification == -((-w) * amplification);
    }
  }

  /** The two waves drawn each frame: (line width, amplification, radius offset). */
  const GhostWave := (1.5, 2.5, 2.0)
  const PrimaryWave := (2.0, 4.0, 0.0)

  /**
   * With amplification 4 the primary wave's radius swings by up to 32 px
   * around a base of at most 26, so a silent-low sample gives a negative
   * radius (the point is drawn mirrored through the centre).
   */
  lemma PrimaryWaveCanGoNegative(playbackTime: real)
    ensures WaveRadius(playbackTime, PrimaryWave.2, PrimaryWave.1, 0.0) < 0.0
  {
    assert WaveRadius(playbackTime, PrimaryWave.2, PrimaryWave.1, 0.0) == BaseRadius(playbackTime) - 32.0;
  }
}
