/**
 * The chapter reader: a list of chapters, at most one expanded and at most
 * one marked as playing, with a volume slider and a mute button that drive
 * its own ambient-sound controller.
 */
module ChapterAudioReader {
  import opened JsCore
  import opened DivineAudio

  /** A readable chapter: structural fields plus the prose it shows. */
  datatype Chapter = Chapter(
    id: string,
    title: string,
    subtitle: Option<string>,
    content: string,
    mood: MoodType,
    instrument: InstrumentType)

  /** `chapters[0]?.id || null`: the first chapter's id, unless the list is empty or that id is "". */
  function InitialExpanded(chapters: seq<Chapter>): (e: Option<string>)
    ensures |chapters| == 0 ==> e.None?
    ensures |chapters| > 0 && chapters[0].id != "" ==> e == Some(chapters[0].id)
    ensures e.Some? ==> |chapters| > 0 && e.value == chapters[0].id && e.value != ""
  {
    if |chapters| > 0 && chapters[0].id != "" then Some(chapters[0].id) else None
  }

  /** The label shown when nothing in the table applies. */
  const AmbientLabel := "🎵 Ambient"

  /** `getMoodLabel`: the table entry for the mood, or the ambient label when the entry is empty. */
  function MoodLabel(m: MoodType): (shown: string)
    ensures shown != AmbientLabel && shown != ""
  {
    var entry := match m
      case Peaceful => "☮️ Peaceful"
      case Stressed => "🌊 Calming"
      case Sad => "💙 Emotional"
      case Angry => "🔥 Powerful"
      case Anxious => "🧘 Grounding"
      case Happy => "✨ Uplifting"
      case Devotional => "🙏 Divine"
      case Powerful => "⚡ Powerful"
      case Emotional => "💙 Emotional"
      case Divine => "✨ Divine";
    if entry != "" then entry else AmbientLabel
  }

  /**
   * Two chapters show the same mood label exactly when the controller plays
   * the same mood recipe for them: sad and emotional are the only pair.
   */
  lemma MoodLabelMatchesRecipe(a: MoodType, b: MoodType)
    ensures MoodLabel(a) == MoodLabel(b) <==> MoodRecipe(a) == MoodRecipe(b)
    ensures MoodLabel(a) == MoodLabel(b) <==> a == b || (a in {Sad, Emotional} && b in {Sad, Emotional})
  {
    MoodRecipeShared(a, b);
    if a != b && MoodLabel(a) == MoodLabel(b) {
      // labels that differ somewhere in their first two characters
      assert MoodLabel(a)[..2] == MoodLabel(b)[..2];
      assert a in {Sad, Emotional} && b in {Sad, Emotional};
    }
  }

  class ChapterReader {
    const chapters: seq<Chapter>
    const audio: AudioController
    var expandedChapter: Option<string>
    var playingChapter: Option<string>
    var volume: real
    var isMuted: bool

    /** The level the controller should be at: 0 while muted, else the slider value. */
    function Level(): real
      reads this
    {
      if isMuted then 0.0 else volume
    }

    ghost predicate Valid()
      reads this, audio, audio.ctx
    {
      && audio.Valid()
      // a chapter is marked playing exactly while the controller plays
      && (playingChapter.Some? <==> audio.isPlaying)
      // what plays is always a chapter's mood recipe
      && (audio.isPlaying ==> audio.currentMood.Some? && audio.recipe == Some(MoodRecipe(audio.currentMood.value)))
      // the master gain follows the slider and the mute button
      && (audio.gain.Some? ==> audio.ctx.gainValue[audio.gain.value] == Level())
    }

    constructor (chapters: seq<Chapter>, autoplayBlocked: bool)
      ensures Valid() && fresh(audio)
      ensures this.chapters == chapters
      ensures expandedChapter == InitialExpanded(chapters) && playingChapter.None?
      ensures volume == 0.35 && !isMuted
    {
      this.chapters := chapters;
      audio := new AudioController(autoplayBlocked);
      expandedChapter := InitialExpanded(chapters);
      playingChapter := None;
      volume := 0.35;
      isMuted := false;
    }

    /** `toggleExpand`: collapse the chapter if it is the expanded one, otherwise expand only it. */
    method ToggleExpand(chapterId: string)
      modifies this`expandedChapter
      ensures old(expandedChapter) == Some(chapterId) ==> expandedChapter.None?
      ensures old(expandedChapter) != Some(chapterId) ==> expandedChapter == Some(chapterId)
    {
      expandedChapter := if expandedChapter == Some(chapterId) then None else Some(chapterId);
    }

    /**
     * `togglePlay`: stop when the chapter is the playing one; otherwise play
     * its mood (never its instrument) at the current level and mark it.
     */
    method TogglePlay(chapter: Chapter)
      requires Valid()
      modifies this`playingChapter, audio, audio.ctx
      ensures Valid() && (audio.ctx == old(audio.ctx) || fresh(audio.ctx))
      ensures old(playingChapter) == Some(chapter.id) ==> playingChapter.None? && !audio.isPlaying
      ensures old(playingChapter) != Some(chapter.id) ==>
                && playingChapter == Some(chapter.id) && audio.isPlaying
                && audio.currentMood == Some(chapter.mood)
                && audio.recipe == Some(MoodRecipe(chapter.mood))
                && audio.ctx.gainValue[audio.gain.value] == Level()
      ensures audio.ctx != null ==> forall n: NodeHandle :: audio.ctx.Audible(n) ==> audio.isPlaying
    {
      if playingChapter == Some(chapter.id) {
        audio.Stop();
        playingChapter := None;
      } else {
        audio.Play(PlayOptions(Some(chapter.mood), None, Some(Level())));
        playingChapter := Some(chapter.id);
      }
    }

    /** `handleVolumeChange`: store the slider value and send it, or 0 while muted. */
    method HandleVolumeChange(newVolume: real)
      requires Valid()
      modifies this`volume, audio.ctx
      ensures Valid()
      ensures volume == newVolume && isMuted == old(isMuted)
      ensures audio.gain.Some? ==> audio.ctx.gainValue[audio.gain.value] == (if isMuted then 0.0 else newVolume)
    {
      volume := newVolume;
      audio.SetVolume(if isMuted then 0.0 else newVolume);
    }

    /** `toggleMute`: flip the flag; send the stored volume when unmuting and 0 when muting. */
    method ToggleMute()
      requires Valid()
      modifies this`isMuted, audio.ctx
      ensures Valid()
      ensures isMuted == !old(isMuted) && volume == old(volume)
      ensures audio.gain.Some? ==> audio.ctx.gainValue[audio.gain.value] == (if old(isMuted) then volume else 0.0)
    {
      var wasMuted := isMuted;
      isMuted := !isMuted;
      audio.SetVolume(if wasMuted then volume else 0.0);
    }

    /**
     * Unmounting: React runs the cleanups in the order the effects were
     * declared, so the controller's cleanup (stop, then close the context)
     * runs first and the reader's own `stop()` after it.
     */
    method Unmount()
      requires Valid()
      modifies audio, audio.ctx
      ensures audio.Valid() && !audio.isPlaying && audio.activeIntervals == {}
      ensures audio.ctx != null ==> audio.ctx.state == Closed && forall n: NodeHandle :: !audio.ctx.Audible(n)
    {
      audio.Dispose();
      audio.Stop();
    }
  }
}
