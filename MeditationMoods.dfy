/**
 * The meditation catalogue: seven moods, each with four ambient tracks, and
 * the lookup of a mood by its id. Descriptions, icons, colours and the
 * tracks' duration and description texts are not modelled.
 */
module MeditationMoods {
  import opened JsCore
  import opened JsArray
  import opened DivineAudio

  datatype MeditationTrack = MeditationTrack(id: string, name: string, instrument: InstrumentType)

  datatype MeditationMood = MeditationMood(id: string, name: string, moodType: MoodType, tracks: seq<MeditationTrack>)

  const PeacefulTracks: seq<MeditationTrack> := [
    MeditationTrack("p1", "Sacred Silence", Om),
    MeditationTrack("p2", "Temple Serenity", Bells),
    MeditationTrack("p3", "Bansuri Dreams", Flute),
    MeditationTrack("p4", "Nature's Calm", Nature)
  ]

  const StressedTracks: seq<MeditationTrack> := [
    MeditationTrack("s1", "Flowing Waters", Water),
    MeditationTrack("s2", "Wind Through Trees", Wind),
    MeditationTrack("s3", "Temple Bells", Bells),
    MeditationTrack("s4", "Tanpura Healing", Tanpura)
  ]

  const SadTracks: seq<MeditationTrack> := [
    MeditationTrack("sd1", "Comforting Embrace", Tanpura),
    MeditationTrack("sd2", "Gentle Flute", Flute),
    MeditationTrack("sd3", "Om Healing", Om),
    MeditationTrack("sd4", "Wind Chimes", Chimes)
  ]

  const AngryTracks: seq<MeditationTrack> := [
    MeditationTrack("a1", "Grounding Earth", Om),
    MeditationTrack("a2", "Calm Wind", Wind),
    MeditationTrack("a3", "Water Release", Water),
    MeditationTrack("a4", "Temple Peace", Bells)
  ]

  const AnxiousTracks: seq<MeditationTrack> := [
    MeditationTrack("ax1", "Alpha Waves", Om),
    MeditationTrack("ax2", "Still Mind", Tanpura),
    MeditationTrack("ax3", "Soft Chimes", Chimes),
    MeditationTrack("ax4", "Nature Calm", Nature)
  ]

  const HappyTracks: seq<MeditationTrack> := [
    MeditationTrack("h1", "Joyful Morning", Flute),
    MeditationTrack("h2", "Celebration Bells", Bells),
    MeditationTrack("h3", "Divine Joy", Om),
    MeditationTrack("h4", "Wind Chimes Dance", Chimes)
  ]

  const DevotionalTracks: seq<MeditationTrack> := [
    MeditationTrack("d1", "Om Meditation", Om),
    MeditationTrack("d2", "Temple Atmosphere", Bells),
    MeditationTrack("d3", "Tanpura Prayer", Tanpura),
    MeditationTrack("d4", "Divine Flute", Flute)
  ]

  const Moods: seq<MeditationMood> := [
    MeditationMood("peaceful", "Peaceful", Peaceful, PeacefulTracks),
    MeditationMood("stressed", "Stressed", Stressed, StressedTracks),
    MeditationMood("sad", "Sad", Sad, SadTracks),
    MeditationMood("angry", "Angry", Angry, AngryTracks),
    MeditationMood("anxious", "Anxious", Anxious, AnxiousTracks),
    MeditationMood("happy", "Happy", Happy, HappyTracks),
    MeditationMood("devotional", "Devotional", Devotional, DevotionalTracks)
  ]

  /** `getMoodById`: the first mood whose id is `id`, or undefined. */
  function GetMoodById(id: string): (r: Option<MeditationMood>)
    ensures r.Some? ==> r.value.id == id && r.value in Moods
    ensures r.None? <==> forall i :: 0 <= i < |Moods| ==> Moods[i].id != id
    ensures r.Some? ==> exists i :: 0 <= i < |Moods| && Moods[i] == r.value && forall j :: 0 <= j < i ==> Moods[j].id != id
  {
    Find(Moods, (m: MeditationMood) => m.id == id)
  }

  /** Every mood is keyed by the spelling of its mood type, and has four tracks. */
  lemma MoodTable()
    ensures |Moods| == 7
    ensures forall i :: 0 <= i < |Moods| ==> Moods[i].id == MoodKey(Moods[i].moodType)
    ensures forall i :: 0 <= i < |Moods| ==> |Moods[i].tracks| == 4
  {
    forall i | 0 <= i < |Moods|
      ensures Moods[i].id == MoodKey(Moods[i].moodType) && |Moods[i].tracks| == 4
    {
      assert i in {0, 1, 2, 3, 4, 5, 6};
    }
  }

  /** The catalogue index of a mood type, for the seven it has. */
  function CatalogueIndex(m: MoodType): (i: int)
    ensures m !in {Powerful, Emotional, Divine} ==> 0 <= i < |Moods| && Moods[i].moodType == m
  {
    match m
    case Peaceful => 0
    case Stressed => 1
    case Sad => 2
    case Angry => 3
    case Anxious => 4
    case Happy => 5
    case Devotional => 6
    case _ => -1
  }

  /** Each catalogue entry is keyed by its mood type, which is never powerful, emotional or divine. */
  lemma MoodAt(i: int)
    requires 0 <= i < |Moods|
    ensures Moods[i].id == MoodKey(Moods[i].moodType)
    ensures Moods[i].moodType !in {Powerful, Emotional, Divine}
    ensures CatalogueIndex(Moods[i].moodType) == i
  {
    assert i in {0, 1, 2, 3, 4, 5, 6};
  }

  /** Mood ids and mood types are distinct, so every mood is the one its id finds. */
  lemma MoodIdsDistinct()
    ensures forall i, j :: 0 <= i < j < |Moods| ==> Moods[i].moodType != Moods[j].moodType
    ensures forall i, j :: 0 <= i < j < |Moods| ==> Moods[i].id != Moods[j].id
    ensures forall i :: 0 <= i < |Moods| ==> GetMoodById(Moods[i].id) == Some(Moods[i])
  {
    forall i, j | 0 <= i < j < |Moods|
      ensures Moods[i].moodType != Moods[j].moodType && Moods[i].id != Moods[j].id
    {
      MoodAt(i);
      MoodAt(j);
      if Moods[i].id == Moods[j].id {
        MoodKeyInjective(Moods[i].moodType, Moods[j].moodType);
      }
    }
    forall i | 0 <= i < |Moods|
      ensures GetMoodById(Moods[i].id) == Some(Moods[i])
    {
      var r := GetMoodById(Moods[i].id);
      var k :| 0 <= k < |Moods| && Moods[k] == r.value && forall j :: 0 <= j < k ==> Moods[j].id != Moods[i].id;
      // the mood found has the id, and ids are distinct, so it is mood i
      assert Moods[k].id == Moods[i].id;
    }
  }

  /** The catalogue covers every mood type except powerful, emotional and divine. */
  lemma CatalogueCoverage(m: MoodType)
    ensures GetMoodById(MoodKey(m)).Some? <==> m !in {Powerful, Emotional, Divine}
    ensures GetMoodById(MoodKey(m)).Some? ==> GetMoodById(MoodKey(m)).value.moodType == m
  {
    var r := GetMoodById(MoodKey(m));
    if r.Some? {
      var k :| 0 <= k < |Moods| && Moods[k] == r.value;
      MoodAt(k);
      MoodKeyInjective(r.value.moodType, m);
    } else if m !in {Powerful, Emotional, Divine} {
      MoodAt(CatalogueIndex(m));
    }
  }
}
