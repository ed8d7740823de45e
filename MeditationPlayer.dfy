/**
 * The meditation track player. Its local `isPlaying` flag, slider (0-100)
 * and mute button drive two effects: the playback effect, which reruns
 * whenever `isPlaying` or the track's instrument changes (first running the
 * previous run's cleanup `stop`), and the volume effect, which reruns after
 * every slider or mute change. Each handler below is the state update
 * followed by the effects the resulting render triggers.
 */
module MeditationPlayer {
  import opened JsCore
  import opened DivineAudio
  import opened MeditationMoods

  class TrackPlayer {
    const audio: AudioController
    var track: MeditationTrack
    var isPlaying: bool
    /** The slider position, 0 to 100. */
    var volume: int
    var isMuted: bool

    /** `isMuted ? 0 : volume[0] / 100`. */
    function Level(): real
      reads this
    {
      if isMuted then 0.0 else volume as real / 100.0
    }

    ghost predicate Valid()
      reads this, audio, audio.ctx
    {
      && audio.Valid()
      // the controller plays exactly while the local flag says so
      && audio.isPlaying == isPlaying
      // and then it plays the current track's instrument, with no mood
      && (isPlaying ==> audio.recipe == Some(InstrumentRecipe(track.instrument)) && audio.currentMood.None?)
      && (audio.gain.Some? ==> audio.ctx.gainValue[audio.gain.value] == Level())
    }

    /** Mounting: the playback effect stops (nothing plays) and the volume effect finds no gain. */
    constructor (track: MeditationTrack, autoplayBlocked: bool)
      ensures Valid() && fresh(audio)
      ensures this.track == track && !isPlaying && volume == 70 && !isMuted
    {
      audio := new AudioController(autoplayBlocked);
      this.track := track;
      isPlaying := false;
      volume := 70;
      isMuted := false;
    }

    /** The playback effect: the cleanup of the previous run, then play the instrument or stop. */
    method RunPlaybackEffect()
      requires audio.Valid()
      requires audio.gain.Some? ==> audio.ctx.gainValue[audio.gain.value] == Level()
      modifies audio, audio.ctx
      ensures Valid() && (audio.ctx == old(audio.ctx) || fresh(audio.ctx))
      ensures isPlaying ==> audio.ctx.gainValue[audio.gain.value] == Level()
    {
      audio.Stop();
      if isPlaying {
        audio.Play(PlayOptions(None, Some(track.instrument), Some(Level())));
      } else {
        audio.Stop();
      }
    }

    /** The volume effect: send the level to the controller. */
    method RunVolumeEffect()
      requires audio.Valid()
      requires audio.isPlaying == isPlaying
      requires isPlaying ==> audio.recipe == Some(InstrumentRecipe(track.instrument)) && audio.currentMood.None?
      modifies audio.ctx
      ensures Valid()
    {
      audio.SetVolume(Level());
    }

    /** `togglePlay`: flip the flag; the playback effect then starts or stops the sound. */
    method TogglePlay()
      requires Valid()
      modifies this`isPlaying, audio, audio.ctx
      ensures Valid() && (audio.ctx == old(audio.ctx) || fresh(audio.ctx))
      ensures isPlaying == !old(isPlaying)
      ensures isPlaying ==> audio.recipe == Some(InstrumentRecipe(track.instrument))
      ensures isPlaying ==> audio.ctx.gainValue[audio.gain.value] == Level()
      ensures !isPlaying && audio.ctx != null ==> forall n: NodeHandle :: !audio.ctx.Audible(n)
    {
      isPlaying := !isPlaying;
      RunPlaybackEffect();
    }

    /** `toggleMute`: flip the flag; the volume effect sends the new level. */
    method ToggleMute()
      requires Valid()
      modifies this`isMuted, audio.ctx
      ensures Valid()
      ensures isMuted == !old(isMuted) && volume == old(volume)
      ensures audio.gain.Some? ==> audio.ctx.gainValue[audio.gain.value] == (if isMuted then 0.0 else volume as real / 100.0)
    {
      isMuted := !isMuted;
      RunVolumeEffect();
    }

    /** The slider's `onValueChange`: store the position; the volume effect sends the new level. */
    method ChangeVolume(position: int)
      requires Valid() && 0 <= position <= 100
      modifies this`volume, audio.ctx
      ensures Valid()
      ensures volume == position && isMuted == old(isMuted)
      ensures audio.gain.Some? ==> audio.ctx.gainValue[audio.gain.value] == Level()
      ensures audio.gain.Some? && !isMuted ==> audio.ctx.gainValue[audio.gain.value] == position as real / 100.0
    {
      volume := position;
      RunVolumeEffect();
    }

    /**
     * A new `track` from the parent. When its instrument differs the playback
     * effect reruns, so a playing player restarts with the new instrument.
     */
    method ChangeTrack(t: MeditationTrack)
      requires Valid()
      modifies this`track, audio, audio.ctx
      ensures Valid() && (audio.ctx == old(audio.ctx) || fresh(audio.ctx))
      ensures track == t && isPlaying == old(isPlaying)
      ensures isPlaying ==> audio.recipe == Some(InstrumentRecipe(t.instrument))
    {
      var restart := t.instrument != track.instrument;
      track := t;
      if restart {
        RunPlaybackEffect();
      } else {
        // the instrument is unchanged, and so is the recipe being played
        assert InstrumentRecipe(t.instrument) == InstrumentRecipe(old(track).instrument);
      }
    }

    /**
     * `handleNext` and `handlePrevious`: stop, clear the flag, and let the
     * parent pick the next track (`next`, or none when it has no callback).
     */
    method Skip(next: Option<MeditationTrack>)
      requires Valid()
      modifies this`track, this`isPlaying, audio, audio.ctx
      ensures Valid() && (audio.ctx == old(audio.ctx) || fresh(audio.ctx))
      ensures !isPlaying && !audio.isPlaying
      ensures track == next.GetOr(old(track))
      ensures audio.ctx != null ==> forall n: NodeHandle :: !audio.ctx.Audible(n)
    {
      audio.Stop();
      var wasPlaying := isPlaying;
      isPlaying := false;
      var t := next.GetOr(track);
      var restart := wasPlaying || t.instrument != track.instrument;
      track := t;
      if restart {
        RunPlaybackEffect();
      }
    }

    method HandleNext(next: Option<MeditationTrack>)
      requires Valid()
      modifies this`track, this`isPlaying, audio, audio.ctx
      ensures Valid() && !isPlaying && !audio.isPlaying
      ensures track == next.GetOr(old(track))
      ensures audio.ctx != null ==> forall n: NodeHandle :: !audio.ctx.Audible(n)
    {
      Skip(next);
    }

    method HandlePrevious(previous: Option<MeditationTrack>)
      requires Valid()
      modifies this`track, this`isPlaying, audio, audio.ctx
      ensures Valid() && !isPlaying && !audio.isPlaying
      ensures track == previous.GetOr(old(track))
      ensures audio.ctx != null ==> forall n: NodeHandle :: !audio.ctx.Audible(n)
    {
      Skip(previous);
    }
  }
}
