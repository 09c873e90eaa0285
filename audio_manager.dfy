/**
 * The experience's background music: one module-level audio handle, created
 * on start and released on stop, so that the music outlives the components
 * that start it.
 */
module AudioManager {
  /** The looped background track. */
  const MusicSource: string := "/sounds/SFX/experience-background.mp3"
  const MusicVolume: real := 0.2

  /** The fields of an HTML audio element the manager touches. */
  class AudioElement {
    const src: string
    var loop: bool
    var volume: real
    var currentTime: real
    var paused: bool

    /** `new Audio(src)`: paused at the start, not looping, full volume. */
    constructor (src: string)
      ensures this.src == src && !loop && volume == 1.0 && currentTime == 0.0 && paused
    {
      this.src := src;
      loop, volume, currentTime, paused := false, 1.0, 0.0, true;
    }

    /** `play()`: starts playback from the current position (a rejected promise is ignored). */
    method Play()
      modifies this
      ensures !paused && loop == old(loop) && volume == old(volume) && currentTime == old(currentTime)
    {
      paused := false;
    }

    /** `pause()`: stops playback and keeps the position. */
    method Pause()
      modifies this
      ensures paused && loop == old(loop) && volume == old(volume) && currentTime == old(currentTime)
    {
      paused := true;
    }
  }

  /** The module-level variable holding the one handle, or null. */
  class BackgroundMusic {
    var handle: AudioElement?

    constructor ()
      ensures handle == null
    {
      handle := null;
    }

    /**
     * `startExperienceBackgroundMusic`: in a browser and with no handle yet,
     * create a looping track at volume 0.2 and play it; otherwise do nothing.
     */
    method Start(inBrowser: bool)
      modifies this
      ensures !inBrowser || old(handle) != null ==> handle == old(handle)
      ensures inBrowser && old(handle) == null ==>
        handle != null && fresh(handle) && handle.src == MusicSource && handle.loop &&
        handle.volume == MusicVolume && !handle.paused && handle.currentTime == 0.0
    {
      if inBrowser && handle == null {
        var music := new AudioElement(MusicSource);
        music.loop := true;
        music.volume := MusicVolume;
        music.Play();
        handle := music;
      }
    }

    /** `stopExperienceBackgroundMusic`: pause and rewind the track, then drop the handle. */
    method Stop()
      modifies this, handle
      ensures handle == null
      ensures old(handle) != null ==>
        old(handle).paused && old(handle).currentTime == 0.0 &&
        old(handle).loop == old(handle.loop) && old(handle).volume == old(handle.volume)
    {
      if handle != null {
        handle.Pause();
        handle.currentTime := 0.0;
        handle := null;
      }
    }

    /** `getExperienceBackgroundMusic`. */
    method Get() returns (h: AudioElement?)
      ensures h == handle
    {
      h := handle;
    }
  }

  /** A second start, with or without a browser, leaves the running track as it is. */
  method StartIsIdempotent(m: BackgroundMusic, inBrowser: bool)
    requires m.handle != null
    modifies m
    ensures m.handle == old(m.handle)
    ensures m.handle.loop == old(m.handle.loop) && m.handle.paused == old(m.handle.paused)
    ensures m.handle.currentTime == old(m.handle.currentTime)
  {
    m.Start(inBrowser);
  }

  /** Stopping twice is the same as stopping once: the second stop touches nothing. */
  method StopIsIdempotent(m: BackgroundMusic)
    modifies m, m.handle
    ensures m.handle == null
    ensures old(m.handle) != null ==> old(m.handle).paused && old(m.handle).currentTime == 0.0
    ensures old(m.handle) != null ==>
      old(m.handle).loop == old(m.handle.loop) && old(m.handle).volume == old(m.handle.volume)
  {
    m.Stop();
    m.Stop();
  }

  /** Start after stop in a browser plays a new track; the old one stays paused at 0. */
  method RestartCreatesFreshTrack(m: BackgroundMusic)
    requires m.handle != null
    modifies m, m.handle
    ensures m.handle != null && fresh(m.handle) && !m.handle.paused
    ensures old(m.handle).paused && old(m.handle).currentTime == 0.0
  {
    var previous := m.handle;
    m.Stop();
    m.Start(true);
    assert previous.paused && previous.currentTime == 0.0;
  }
}
