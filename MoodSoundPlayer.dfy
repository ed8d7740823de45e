/**
 * The mood picker: one button per mood, a volume slider, a mute button and
 * a stop button, all driving the player's own ambient-sound controller.
 * Pressing the mood that is playing stops it; any other press plays.
 */
module MoodSoundPlayer {
  import opened JsCore
  import opened DivineAudio

  /** The moods offered, in display order (the compact layout shows the first four). */
  const MoodOptions: seq<MoodType> := [Peaceful, Stressed, Sad, Angry, Anxious, Happy, Devotional]

  /** The options are distinct, and powerful, emotional and divine are not offered. */
  lemma MoodOptionsShape()
    ensures forall i, j :: 0 <= i < j < |MoodOptions| ==> MoodOptions[i] != MoodOptions[j]
    ensures forall m: MoodType :: m in MoodOptions <==> m !in {Powerful, Emotional, Divine}
  {
    forall m: MoodType
      ensures m in MoodOptions <==> m !in {Powerful, Emotional, Divine}
    {
      match m
      case Peaceful => assert MoodOptions[0] == m;
      case Stressed => assert MoodOptions[1] == m;
      case Sad => assert MoodOptions[2] == m;
      case Angry => assert MoodOptions[3] == m;
      case Anxious => assert MoodOptions[4] == m;
      case Happy => assert MoodOptions[5] == m;
      case Devotional => assert MoodOptions[6] == m;
      case Powerful =>
      case Emotional =>
      case Divine =>
    }
  }

  class MoodPlayer {
    const audio: AudioController
    var volume: real
    var isMuted: bool

    function Level(): real
      reads this
    {
      if isMuted then 0.0 else volume
    }

    ghost predicate Valid()
      reads this, audio, audio.ctx
    {
      && audio.Valid()
      // every session is started from a mood button
      && (audio.isPlaying ==> audio.currentMood.Some? && audio.recipe == Some(MoodRecipe(audio.currentMood.value)))
      // the master gain follows the slider and the mute button
      && (audio.gain.Some? ==> audio.ctx.gainValue[audio.gain.value] == Level())
    }

    constructor (autoplayBlocked: bool)
      ensures Valid() && fresh(audio)
      ensures volume == 0.5 && !isMuted && !audio.isPlaying
    {
      audio := new AudioController(autoplayBlocked);
      volume := 0.5;
      isMuted := false;
    }

    /** `handleMoodSelect`: stop when `m` is the mood playing, otherwise play `m` at the current level. */
    method HandleMoodSelect(m: MoodType)
      requires Valid()
      modifies audio, audio.ctx
      ensures Valid() && (audio.ctx == old(audio.ctx) || fresh(audio.ctx))
      ensures old(audio.isPlaying) && old(audio.currentMood) == Some(m) ==> !audio.isPlaying
      ensures !(old(audio.isPlaying) && old(audio.currentMood) == Some(m)) ==>
                && audio.isPlaying && audio.currentMood == Some(m)
                && audio.recipe == Some(MoodRecipe(m))
                && audio.ctx.gainValue[audio.gain.value] == Level()
    {
      if audio.isPlaying && audio.currentMood == Some(m) {
        audio.Stop();
      } else {
        audio.Play(PlayOptions(Some(m), None, Some(Level())));
      }
    }

    /** `handleVolumeChange`: store the slider value and send it, or 0 while muted. */
    method HandleVolumeChange(newVolume: real)
      requires Valid()
      modifies this`volume, audio.ctx
      ensures Valid()
      ensures volume == newVolume && isMuted == old(isMuted)
      ensures audio.gain.Some? ==> audio.ctx.gainValue[audio.gain.value] == (if isMuted then 0.0 else newVolume)
    {
      volume := newVolume;
      audio.SetVolume(if isMuted then 0.0 else newVolume);
    }

    /** `toggleMute`: flip the flag; send the stored volume when unmuting and 0 when muting. */
    method ToggleMute()
      requires Valid()
      modifies this`isMuted, audio.ctx
      ensures Valid()
      ensures isMuted == !old(isMuted) && volume == old(volume)
      ensures audio.gain.Some? ==> audio.ctx.gainValue[audio.gain.value] == (if old(isMuted) then volume else 0.0)
    {
      var wasMuted := isMuted;
      isMuted := !isMuted;
      audio.SetVolume(if wasMuted then volume else 0.0);
    }

    /** The stop button, shown while playing. */
    method StopButton()
      requires Valid()
      modifies audio, audio.ctx
      ensures Valid() && !audio.isPlaying && audio.currentMood.None?
      ensures audio.ctx != null ==> forall n: NodeHandle :: !audio.ctx.Audible(n)
    {
      audio.Stop();
    }
  }

  /**
   * Pressing the same mood button twice: the mood that was playing stops and
   * starts again; from any other state it starts and then stops.
   */
  method PressTwice(p: MoodPlayer, m: MoodType)
    requires p.Valid()
    modifies p.audio, p.audio.ctx
    ensures p.Valid()
    ensures !old(p.audio.isPlaying) || old(p.audio.currentMood) != Some(m) ==> !p.audio.isPlaying
    ensures old(p.audio.isPlaying) && old(p.audio.currentMood) == Some(m) ==> p.audio.isPlaying && p.audio.currentMood == Some(m)
  {
    p.HandleMoodSelect(m);
    p.HandleMoodSelect(m);
  }
}
