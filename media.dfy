/**
 * Background media: the looping background music with its mute toggle and volume, and
 * the muted autoplaying background video that falls back to a still image when it
 * cannot play. Whether a `play()` call succeeds is decided by the browser; here it is
 * an input. A failed `play()` is caught and logged and changes nothing.
 */
module Media {
  import opened Optional
  import opened Tweens

  /** What the code reads and writes of an audio or video element. */
  class MediaElement {
    var volume: real
    var muted: bool
    var loop: bool
    var playing: bool

    constructor (volume: real)
      ensures this.volume == volume && !muted && !loop && !playing
    {
      this.volume := volume;
      muted, loop, playing := false, false, false;
    }

    /** play(): the element plays when the browser allows it; a refusal leaves it as it was. */
    method Play(succeeds: bool)
      modifies this
      ensures playing == (old(playing) || succeeds)
      ensures volume == old(volume) && muted == old(muted) && loop == old(loop)
    {
      playing := playing || succeeds;
    }

    method Pause()
      modifies this
      ensures !playing
      ensures volume == old(volume) && muted == old(muted) && loop == old(loop)
    {
      playing := false;
    }
  }

  /** The state of one media element. */
  datatype Playback = Playback(volume: real, muted: bool, loop: bool, playing: bool)

  /** The page's media state; an absent element (`null` in the page) is None. */
  datatype MediaState = MediaState(
    muted: bool,
    currentVolume: real,
    savedVolume: real,
    videoWorking: bool,
    audio: Option<Playback>,
    video: Option<Playback>)

  predicate InUnitRange(v: real) {
    0.0 <= v <= 1.0
  }

  /** Every volume the state holds is one a media element accepts. */
  predicate VolumesInRange(s: MediaState) {
    && InUnitRange(s.currentVolume)
    && InUnitRange(s.savedVolume)
    && (s.audio.Some? ==> InUnitRange(s.audio.value.volume))
  }

  /** While muted, the volume shown is zero and the music does not play. */
  predicate MuteSilences(s: MediaState) {
    s.muted ==> s.currentVolume == 0.0 && (s.audio.Some? ==> !s.audio.value.playing)
  }

  predicate Consistent(s: MediaState) {
    VolumesInRange(s) && MuteSilences(s)
  }

  function Played(p: Playback, succeeds: bool): (q: Playback)
    ensures q.playing == (p.playing || succeeds)
    ensures q.(playing := p.playing) == p
  {
    p.(playing := p.playing || succeeds)
  }

  /**
   * tryPlayVideo: without a video nothing happens; otherwise the video is made muted and
   * looping and started, and videoWorking records whether it started.
   */
  function VideoTried(s: MediaState, succeeds: bool): (r: MediaState)
    ensures s.video.None? ==> r == s
    ensures s.video.Some? ==>
      && r.videoWorking == succeeds
      && r.video.Some? && r.video.value.muted && r.video.value.loop
      && r.video.value.playing == (s.video.value.playing || succeeds)
      && r.video.value.volume == s.video.value.volume
    ensures r == s.(videoWorking := r.videoWorking, video := r.video)
    ensures r.videoWorking ==> succeeds || (s.video.None? && s.videoWorking)
  {
    match s.video
    case None => s
    case Some(v) => s.(videoWorking := succeeds, video := Some(Played(v.(muted := true, loop := true), succeeds)))
  }

  /**
   * Unmuting with the music there and a kept volume outside [0, 1]: the element's
   * `volume` setter throws, after the mute flag and the shown volume are already set,
   * so the music is not touched and toggleMute stops there.
   */
  predicate UnmuteRejected(s: MediaState) {
    s.muted && s.audio.Some? && !InUnitRange(s.savedVolume)
  }

  /**
   * toggleMute. Muting keeps the current volume aside, shows zero and pauses the music;
   * unmuting brings the kept volume back, onto the music too, and starts it again,
   * unless the volume setter throws (UnmuteRejected), which leaves the music as it was.
   */
  function MuteToggled(s: MediaState, audioPlays: bool): (r: MediaState)
    ensures r.muted == !s.muted
    ensures r.audio.Some? == s.audio.Some?
    ensures r.muted ==>
      && r.savedVolume == s.currentVolume && r.currentVolume == 0.0
      && (r.audio.Some? ==> !r.audio.value.playing && r.audio.value.volume == s.audio.value.volume)
    ensures !r.muted ==> r.currentVolume == r.savedVolume == s.savedVolume
    ensures !r.muted && !UnmuteRejected(s) && r.audio.Some? ==>
      r.audio.value.volume == s.savedVolume && r.audio.value.playing == (s.audio.value.playing || audioPlays)
    ensures UnmuteRejected(s) ==> r.audio == s.audio
    ensures r.audio.Some? ==> r.audio.value.muted == s.audio.value.muted && r.audio.value.loop == s.audio.value.loop
    ensures r.videoWorking == s.videoWorking && r.video == s.video
  {
    if !s.muted then
      var audio := match s.audio case None => None case Some(a) => Some(a.(playing := false));
      s.(muted := true, savedVolume := s.currentVolume, currentVolume := 0.0, audio := audio)
    else if UnmuteRejected(s) then
      s.(muted := false, currentVolume := s.savedVolume)
    else
      var audio := match s.audio case None => None case Some(a) => Some(Played(a.(volume := s.savedVolume), audioPlays));
      s.(muted := false, currentVolume := s.savedVolume, audio := audio)
  }

  /**
   * The music is there, not muted, and `v` is outside [0, 1]: the element's `volume`
   * setter throws, so handleVolumeChange stops there and the exception reaches its caller.
   */
  predicate VolumeRejected(s: MediaState, v: real) {
    s.audio.Some? && !s.muted && !InUnitRange(v)
  }

  /**
   * handleVolumeChange, when it completes: the music takes the new volume only when it is
   * there and not muted; in every other case the state is left exactly as it was.
   */
  function VolumeChanged(s: MediaState, v: real): (r: MediaState)
    ensures r.audio.Some? == s.audio.Some?
    ensures r.audio.Some? ==> r.audio.value.volume == (if s.muted then s.audio.value.volume else v)
    ensures r.audio.Some? ==> r.audio.value.(volume := s.audio.value.volume) == s.audio.value
    ensures r == s.(audio := r.audio)
  {
    if s.audio.Some? && !s.muted then s.(audio := Some(s.audio.value.(volume := v))) else s
  }

  /**
   * The second half of handleSplashClick, after `await tryPlay()` has finished: the music
   * is started when it is there and `wasMuted`, the mute flag read when the click
   * happened, is false.
   */
  function SplashResumed(s: MediaState, wasMuted: bool, audioPlays: bool): (r: MediaState)
    ensures r.audio.Some? == s.audio.Some?
    ensures s.audio.Some? && !wasMuted ==> r.audio == Some(Played(s.audio.value, audioPlays))
    ensures !(s.audio.Some? && !wasMuted) ==> r.audio == s.audio
    ensures r == s.(audio := r.audio)
  {
    if s.audio.Some? && !wasMuted then s.(audio := Some(Played(s.audio.value, audioPlays))) else s
  }

  /**
   * handleSplashClick with nothing else run during its `await`: the click first retries
   * the video, then starts the music, but only when there is music and it is not muted.
   */
  function SplashClicked(s: MediaState, videoPlays: bool, audioPlays: bool): (r: MediaState)
    ensures r.audio.Some? == s.audio.Some?
    ensures s.audio.Some? && !s.muted ==> r.audio == Some(Played(s.audio.value, audioPlays))
    ensures !(s.audio.Some? && !s.muted) ==> r.audio == s.audio
    ensures r == VideoTried(s, videoPlays).(audio := r.audio)
  {
    SplashResumed(VideoTried(s, videoPlays), s.muted, audioPlays)
  }

  /**
   * Muting and unmuting again, from an unmuted state, gives back the volume the user had
   * (the music, when there is some, can take that volume back only when it is in [0, 1]).
   */
  lemma {:induction false} ToggleTwiceRestoresVolume(s: MediaState, first: bool, second: bool)
    requires !s.muted && (s.audio.Some? ==> InUnitRange(s.currentVolume))
    ensures var r := MuteToggled(MuteToggled(s, first), second);
            && !r.muted && r.currentVolume == s.currentVolume && r.savedVolume == s.currentVolume
            && (r.audio.Some? ==> r.audio.value.volume == s.currentVolume && r.audio.value.playing == second)
  {
    var m := MuteToggled(s, first);
    assert m.muted && m.savedVolume == s.currentVolume;
    assert m.audio.Some? ==> !m.audio.value.playing;
  }

  /** The round trip from volume 0.8. */
  lemma ToggleTwiceFromPointEight(audio: Option<Playback>, video: Option<Playback>, working: bool, first: bool, second: bool)
    ensures MuteToggled(MuteToggled(MediaState(false, 0.8, 0.3, working, audio, video), first), second).currentVolume == 0.8
  {
    ToggleTwiceRestoresVolume(MediaState(false, 0.8, 0.3, working, audio, video), first, second);
  }

  /**
   * From an unmuted state whose shown volume the music refuses, the unmute throws: the page
   * is unmuted and shows that volume, and the music stays paused.
   */
  lemma {:induction false} ToggleTwiceRejectsBadVolume(s: MediaState, first: bool, second: bool)
    requires !s.muted && s.audio.Some? && !InUnitRange(s.currentVolume)
    ensures var r := MuteToggled(MuteToggled(s, first), second);
            && !r.muted && r.currentVolume == s.currentVolume
            && r.audio.Some? && !r.audio.value.playing && r.audio.value.volume == s.audio.value.volume
  {
    var m := MuteToggled(s, first);
    assert m.muted && m.savedVolume == s.currentVolume && m.audio.Some?;
    assert UnmuteRejected(m);
  }

  /** toggleMute restores the invariant from any state whose volumes are in range, even one a stale splash click left muted but playing. */
  lemma ToggleMuteKeepsConsistent(s: MediaState, audioPlays: bool)
    requires VolumesInRange(s)
    ensures Consistent(MuteToggled(s, audioPlays))
  {
  }

  lemma VolumeChangeKeepsConsistent(s: MediaState, v: real)
    requires VolumesInRange(s) && !VolumeRejected(s, v)
    ensures VolumesInRange(VolumeChanged(s, v))
    ensures MuteSilences(s) ==> MuteSilences(VolumeChanged(s, v))
  {
  }

  lemma SplashClickKeepsConsistent(s: MediaState, videoPlays: bool, audioPlays: bool)
    requires VolumesInRange(s)
    ensures VolumesInRange(SplashClicked(s, videoPlays, audioPlays))
    ensures MuteSilences(s) ==> MuteSilences(SplashClicked(s, videoPlays, audioPlays))
  {
  }

  /** The second half keeps the invariant when the flag it was given is not stale: no unmuted click resumes into a muted state. */
  lemma SplashResumeKeepsConsistent(s: MediaState, wasMuted: bool, audioPlays: bool)
    requires VolumesInRange(s)
    ensures VolumesInRange(SplashResumed(s, wasMuted, audioPlays))
    ensures MuteSilences(s) && (wasMuted || !s.muted) ==> MuteSilences(SplashResumed(s, wasMuted, audioPlays))
  {
  }

  /**
   * A mute toggled while the click waits for the video: the click read "not muted", so
   * once the video is settled the music starts although the state now says muted.
   */
  lemma {:induction false} MuteDuringSplashClick(s: MediaState, videoPlays: bool, toggled: bool)
    requires Consistent(s) && !s.muted && s.audio.Some?
    ensures var r := SplashResumed(MuteToggled(VideoTried(s, videoPlays), toggled), s.muted, true);
            r.muted && r.audio.Some? && r.audio.value.playing && !Consistent(r)
  {
    var m := MuteToggled(VideoTried(s, videoPlays), toggled);
    assert m.muted && m.audio.Some?;
    assert SplashResumed(m, false, true).audio.value.playing;
  }

  /**
   * Pressing the mute button once more after that race unmutes the page: the state is
   * consistent again, and shows the volume the user had before the first press.
   */
  lemma {:induction false} ToggleAfterSplashRaceRepairs(s: MediaState, videoPlays: bool, first: bool, second: bool)
    requires VolumesInRange(s) && !s.muted && s.audio.Some?
    ensures var r := MuteToggled(SplashResumed(MuteToggled(VideoTried(s, videoPlays), first), s.muted, true), second);
            Consistent(r) && !r.muted && r.currentVolume == s.currentVolume
  {
    var v := VideoTried(s, videoPlays);
    var m := MuteToggled(v, first);
    assert m.muted && m.savedVolume == s.currentVolume && VolumesInRange(m);
    var raced := SplashResumed(m, false, true);
    SplashResumeKeepsConsistent(m, false, true);
    ToggleMuteKeepsConsistent(raced, second);
  }

  /** The page's media controller: the component state and the two media elements. */
  class MediaControls {
    var muted: bool
    var currentVolume: real
    var savedVolume: real
    var videoWorking: bool
    const audio: MediaElement?
    const video: MediaElement?

    function PlaybackOf(e: MediaElement?): (p: Option<Playback>)
      reads e
      ensures p.Some? <==> e != null
    {
      if e == null then None else Some(Playback(e.volume, e.muted, e.loop, e.playing))
    }

    function State(): MediaState
      reads this, audio, video
    {
      MediaState(muted, currentVolume, savedVolume, videoWorking, PlaybackOf(audio), PlaybackOf(video))
    }

    /** The music and the video are two different elements. */
    ghost predicate Distinct()
      reads this
    {
      audio != null && video != null ==> audio != video
    }

    /** Every volume held is in [0, 1]; every handler keeps this, even across the splash-click race. */
    ghost predicate Sound()
      reads this, audio, video
    {
      Distinct() && VolumesInRange(State())
    }

    /** Sound, and a muted page shows zero and plays no music. */
    ghost predicate Valid()
      reads this, audio, video
    {
      Sound() && MuteSilences(State())
    }

    constructor (audio: MediaElement?, video: MediaElement?, volume: real)
      requires audio != null && video != null ==> audio != video
      requires InUnitRange(volume) && (audio != null ==> InUnitRange(audio.volume) && !audio.playing)
      ensures Valid() && this.audio == audio && this.video == video
      ensures !muted && currentVolume == volume && savedVolume == volume && !videoWorking
    {
      this.audio := audio;
      this.video := video;
      muted := false;
      currentVolume, savedVolume := volume, volume;
      videoWorking := false;
    }

    /**
     * toggleMute. `completed` is false when the volume setter throws on unmuting; then the
     * flag and the shown volume are already set, the music is untouched and the icon does
     * not pulse. From a Sound state the setter never throws and the result is Valid.
     */
    method ToggleMute(t: TweenSet, audioPlays: bool) returns (completed: bool)
      requires Distinct() && t.Valid()
      modifies this, audio, t
      ensures Distinct() && t.Valid()
      ensures State() == MuteToggled(old(State()), audioPlays)
      ensures completed == !UnmuteRejected(old(State()))
      ensures completed ==> t.targets == old(t.targets)[IconScale := PulseScale]
      ensures !completed ==> t.targets == old(t.targets)
      ensures old(Sound()) ==> Valid()
    {
      ghost var before := State();
      var next := !muted;
      muted := next;
      if next {
        savedVolume := currentVolume;
        currentVolume := 0.0;
        if audio != null {
          audio.Pause();
        }
      } else {
        currentVolume := savedVolume;
        if audio != null {
          if !InUnitRange(savedVolume) {
            return false;
          }
          audio.volume := savedVolume;
          audio.Play(audioPlays);
        }
      }
      PulseIcon(t);
      if VolumesInRange(before) {
        ToggleMuteKeepsConsistent(before, audioPlays);
      }
      return true;
    }

    /**
     * handleVolumeChange. `completed` is false when the volume setter throws; then
     * nothing has changed and the icon does not pulse.
     */
    method HandleVolumeChange(v: real, t: TweenSet) returns (completed: bool)
      requires Distinct() && t.Valid()
      modifies audio, t
      ensures Distinct() && t.Valid()
      ensures old(Sound()) ==> Sound()
      ensures old(Valid()) ==> Valid()
      ensures completed == !VolumeRejected(old(State()), v)
      ensures completed ==> State() == VolumeChanged(old(State()), v) && t.targets == old(t.targets)[IconScale := PulseScale]
      ensures !completed ==> State() == old(State()) && t.targets == old(t.targets)
    {
      if audio != null && !muted {
        if !InUnitRange(v) {
          return false;
        }
        audio.volume := v;
      }
      PulseIcon(t);
      return true;
    }

    method TryPlayVideo(succeeds: bool)
      requires Distinct()
      modifies this`videoWorking, video
      ensures Distinct()
      ensures old(Sound()) ==> Sound()
      ensures old(Valid()) ==> Valid()
      ensures State() == VideoTried(old(State()), succeeds)
    {
      if video == null {
        return;
      }
      video.muted := true;
      video.loop := true;
      video.Play(succeeds);
      videoWorking := succeeds;
    }

    /**
     * handleSplashClick with nothing else run during its `await`: the mute flag is read
     * at the click, the video is retried, then the click resumes with the flag it read.
     */
    method HandleSplashClick(videoPlays: bool, audioPlays: bool)
      requires Distinct()
      modifies this`videoWorking, video, audio
      ensures Distinct()
      ensures old(Sound()) ==> Sound()
      ensures old(Valid()) ==> Valid()
      ensures State() == SplashClicked(old(State()), videoPlays, audioPlays)
    {
      var wasMuted := muted;
      TryPlayVideo(videoPlays);
      ResumeSplashClick(wasMuted, audioPlays);
    }

    /**
     * The mute button pressed while a splash click waits for the video: the click goes
     * on with the flag it read before, and the music plays although the page is muted.
     */
    method MuteDuringSplashClickScenario(t: TweenSet, videoPlays: bool, toggled: bool)
      requires Valid() && t.Valid() && !muted && audio != null
      modifies this, audio, video, t
      ensures muted && audio.playing && !Valid()
    {
      var wasMuted := muted;
      TryPlayVideo(videoPlays);
      var _ := ToggleMute(t, toggled);
      ResumeSplashClick(wasMuted, true);
    }

    /** The same race followed by one more press of the mute button, which repairs it. */
    method ToggleAfterSplashRaceScenario(t: TweenSet, videoPlays: bool, first: bool, second: bool)
      requires Valid() && t.Valid() && !muted && audio != null
      modifies this, audio, video, t
      ensures Valid() && !muted && currentVolume == old(currentVolume)
    {
      var wasMuted := muted;
      TryPlayVideo(videoPlays);
      var _ := ToggleMute(t, first);
      ResumeSplashClick(wasMuted, true);
      var _ := ToggleMute(t, second);
    }

    /** The part of handleSplashClick after `await tryPlay()`, with the mute flag read at the click. */
    method ResumeSplashClick(wasMuted: bool, audioPlays: bool)
      requires Distinct()
      modifies audio
      ensures Distinct()
      ensures State() == SplashResumed(old(State()), wasMuted, audioPlays)
      ensures old(Sound()) ==> Sound()
      ensures old(Valid()) && (wasMuted || !muted) ==> Valid()
    {
      if audio != null && !wasMuted {
        audio.Play(audioPlays);
      }
      if VolumesInRange(old(State())) {
        SplashResumeKeepsConsistent(old(State()), wasMuted, audioPlays);
      }
    }
  }
}
