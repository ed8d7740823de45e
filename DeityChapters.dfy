/**
 * The chapter stories grouped by deity, and the lookup the deity page uses
 * to find a deity's chapters. The prose of each chapter is not modelled:
 * every `content` is "".
 */
module DeityChapters {
  import opened JsCore
  import opened JsArray
  import opened DivineAudio
  import opened ChapterAudioReader

  datatype DeityChapters = DeityChapters(deityId: string, chapters: seq<Chapter>)

  const GaneshaChapters: seq<Chapter> := [
    Chapter("g1", "The Divine Birth", Some("How Lord Ganesha came into existence"), "", Divine, Om),
    Chapter("g2", "The Test of Devotion", Some("Ganesha's encounter with Lord Shiva"), "", Powerful, Tanpura),
    Chapter("g3", "The Elephant Head", Some("Transformation and blessing"), "", Emotional, Flute),
    Chapter("g4", "The First Among Worshipped", Some("Ganesha's eternal blessing"), "", Devotional, Bells)
  ]

  const ShivaChapters: seq<Chapter> := [
    Chapter("s1", "शिव पुराण माहात्म्य", Some("The Glory of Shiv Puran"), "", Divine, Om),
    Chapter("s2", "शिव तत्व", Some("The Essence of Shiva"), "", Devotional, Tanpura),
    Chapter("s3", "देवराज ब्राह्मण की कथा", Some("The Story of Devraj Brahmin"), "", Emotional, Flute),
    Chapter("s4", "चंचुला का वैराग्य", Some("Chanchula's Renunciation"), "", Peaceful, Bells),
    Chapter("s5", "शिव कथा का माहात्म्य", Some("The Glory of Shiva's Story"), "", Divine, Om),
    Chapter("s6", "ब्रह्मा-विष्णु युद्ध", Some("The Conflict of Brahma and Vishnu"), "", Powerful, Tanpura),
    Chapter("s7", "सती का त्याग", Some("Sati's Supreme Sacrifice"), "", Emotional, Flute),
    Chapter("s8", "कार्तिकेय का जन्म", Some("The Birth of Kartikeya"), "", Divine, Bells)
  ]

  const VishnuChapters: seq<Chapter> := [
    Chapter("v1", "The Preserver of the Universe", Some("Lord Vishnu's eternal role"), "", Divine, Om),
    Chapter("v2", "The Avatars of Vishnu", Some("Divine incarnations through the ages"), "", Powerful, Tanpura),
    Chapter("v3", "The Cosmic Sleep", Some("Vishnu in Yoga Nidra"), "", Peaceful, Flute)
  ]

  const KrishnaChapters: seq<Chapter> := [
    Chapter("k1", "The Divine Child of Vrindavan", Some("Krishna's miraculous birth"), "", Divine, Flute),
    Chapter("k2", "The Flute Player", Some("Krishna's divine music"), "", Peaceful, Flute),
    Chapter("k3", "The Bhagavad Gita", Some("The Song of God"), "", Powerful, Tanpura),
    Chapter("k4", "The Eternal Friend", Some("Krishna's unconditional love"), "", Devotional, Bells)
  ]

  const HanumanChapters: seq<Chapter> := [
    Chapter("h1", "The Son of the Wind", Some("Hanuman's divine birth and childhood"), "", Divine, Om),
    Chapter("h2", "Finding Lord Rama", Some("The meeting that changed everything"), "", Emotional, Flute),
    Chapter("h3", "The Leap Across the Ocean", Some("Hanuman's journey to Lanka"), "", Powerful, Tanpura),
    Chapter("h4", "The Burning of Lanka", Some("Devotion turns into divine fire"), "", Powerful, Bells)
  ]

  const DurgaChapters: seq<Chapter> := [
    Chapter("d1", "The Birth of the Goddess", Some("When the Divine Feminine arose"), "", Powerful, Tanpura),
    Chapter("d2", "The Battle with Mahishasura", Some("The great cosmic war"), "", Powerful, Bells),
    Chapter("d3", "The Nine Forms", Some("Navadurga - the nine nights of the Goddess"), "", Devotional, Om)
  ]

  const LakshmiChapters: seq<Chapter> := [
    Chapter("l1", "The Emergence from the Ocean", Some("Lakshmi's divine origin"), "", Divine, Flute),
    Chapter("l2", "The Eight Forms of Wealth", Some("Ashtalakshmi - blessings for all aspects of life"), "", Peaceful, Bells)
  ]

  const SaraswatiChapters: seq<Chapter> := [
    Chapter("sa1", "The Goddess of Knowledge", Some("Saraswati's eternal radiance"), "", Peaceful, Flute),
    Chapter("sa2", "The Sacred River", Some("Saraswati as the invisible stream"), "", Divine, Tanpura)
  ]

  const DeityChaptersData: seq<DeityChapters> := [
    DeityChapters("ganesha", GaneshaChapters),
    DeityChapters("shiva", ShivaChapters),
    DeityChapters("vishnu", VishnuChapters),
    DeityChapters("krishna", KrishnaChapters),
    DeityChapters("hanuman", HanumanChapters),
    DeityChapters("durga", DurgaChapters),
    DeityChapters("lakshmi", LakshmiChapters),
    DeityChapters("saraswati", SaraswatiChapters)
  ]

  /** The chapters of the first entry keyed `key`, or none when no entry is. */
  function ChaptersFor(table: seq<DeityChapters>, key: string): (r: seq<Chapter>)
    ensures (forall i :: 0 <= i < |table| ==> table[i].deityId != key) ==> r == []
    ensures forall i :: 0 <= i < |table| && table[i].deityId == key && (forall j :: 0 <= j < i ==> table[j].deityId != key)
              ==> r == table[i].chapters
  {
    match FindIndex(table, (d: DeityChapters) => d.deityId == key)
    case None => []
    case Some(i) => table[i].chapters
  }

  /**
   * `getChaptersByDeityId`: lower-case the argument, take the first entry
   * with that key, and return its chapters; an unknown deity has none.
   */
  function GetChaptersByDeityId(deityId: string): (r: seq<Chapter>)
    ensures (forall i :: 0 <= i < |DeityChaptersData| ==> DeityChaptersData[i].deityId != ToLower(deityId)) ==> r == []
    ensures forall i :: 0 <= i < |DeityChaptersData| && DeityChaptersData[i].deityId == ToLower(deityId)
              && (forall j :: 0 <= j < i ==> DeityChaptersData[j].deityId != ToLower(deityId))
              ==> r == DeityChaptersData[i].chapters
  {
    ChaptersFor(DeityChaptersData, ToLower(deityId))
  }

  /** Ids that differ only in the case of their letters find the same chapters. */
  lemma LookupIgnoresCase(a: string, b: string)
    requires ToLower(a) == ToLower(b)
    ensures GetChaptersByDeityId(a) == GetChaptersByDeityId(b)
    ensures GetChaptersByDeityId(ToLower(a)) == GetChaptersByDeityId(a)
  {
    ToLowerIdempotent(a);
  }

  /** The position of a deity key in the table, read back. */
  function KeyIndex(key: string): int {
    if key == "ganesha" then 0 else if key == "shiva" then 1 else if key == "vishnu" then 2
    else if key == "krishna" then 3 else if key == "hanuman" then 4 else if key == "durga" then 5
    else if key == "lakshmi" then 6 else if key == "saraswati" then 7 else -1
  }

  /** Each key reads back as its own position. */
  lemma KeyAt(i: int)
    requires 0 <= i < |DeityChaptersData|
    ensures KeyIndex(DeityChaptersData[i].deityId) == i
  {
    assert i in {0, 1, 2, 3, 4, 5, 6, 7};
  }

  /** Each key is lower case. */
  lemma KeyLower(i: int)
    requires 0 <= i < |DeityChaptersData|
    ensures IsLower(DeityChaptersData[i].deityId)
  {
    assert i in {0, 1, 2, 3, 4, 5, 6, 7};
  }

  /** The keys are lower case and distinct. */
  lemma KeysLowerAndDistinct()
    ensures |DeityChaptersData| == 8
    ensures forall i :: 0 <= i < |DeityChaptersData| ==> IsLower(DeityChaptersData[i].deityId)
    ensures forall i, j :: 0 <= i < j < |DeityChaptersData| ==> DeityChaptersData[i].deityId != DeityChaptersData[j].deityId
  {
    forall i | 0 <= i < |DeityChaptersData|
      ensures IsLower(DeityChaptersData[i].deityId)
    {
      KeyLower(i);
    }
    forall i, j | 0 <= i < j < |DeityChaptersData|
      ensures DeityChaptersData[i].deityId != DeityChaptersData[j].deityId
    {
      KeyAt(i);
      KeyAt(j);
    }
  }

  /** Every entry is reached by its key written in any letter case. */
  lemma EveryEntryReachable(i: nat, deityId: string)
    requires i < |DeityChaptersData| && ToLower(deityId) == DeityChaptersData[i].deityId
    ensures GetChaptersByDeityId(deityId) == DeityChaptersData[i].chapters
  {
    KeysLowerAndDistinct();
  }

  /**
   * The Kelvin sign lower-cases to "k", so it spells the k of a key: an id
   * written with it finds Krishna's or Lakshmi's chapters.
   */
  lemma KelvinSignLookup()
    ensures GetChaptersByDeityId([KelvinSign] + "rishna") == DeityChaptersData[3].chapters
    ensures GetChaptersByDeityId("la" + [KelvinSign] + "shmi") == DeityChaptersData[6].chapters
  {
    assert ToLower([KelvinSign] + "rishna") == "krishna";
    assert ToLower("la" + [KelvinSign] + "shmi") == "lakshmi";
    EveryEntryReachable(3, [KelvinSign] + "rishna");
    EveryEntryReachable(6, "la" + [KelvinSign] + "shmi");
  }

  /** Chapter ids are a prefix followed by the chapter's position, counted from 1. */
  ghost predicate NumberedIds(cs: seq<Chapter>, prefix: string) {
    forall i :: 0 <= i < |cs| ==> cs[i].id == prefix + NatToString(i + 1)
  }

  /** Ids numbered after one prefix are distinct. */
  lemma NumberedIdsDistinct(cs: seq<Chapter>, prefix: string)
    requires NumberedIds(cs, prefix)
    ensures forall i, j :: 0 <= i < j < |cs| ==> cs[i].id != cs[j].id
  {
    forall i, j | 0 <= i < j < |cs|
      ensures cs[i].id != cs[j].id
    {
      if cs[i].id == cs[j].id {
        assert cs[i].id[|prefix|..] == NatToString(i + 1);
        assert cs[j].id[|prefix|..] == NatToString(j + 1);
        NatToStringInjective(i + 1, j + 1);
      }
    }
  }

  /** Shiva's eight chapters are numbered after "s". */
  lemma ShivaNumbered()
    ensures NumberedIds(ShivaChapters, "s")
  {
    forall i | 0 <= i < |ShivaChapters|
      ensures ShivaChapters[i].id == "s" + NatToString(i + 1)
    {
      assert i in {0, 1, 2, 3, 4, 5, 6, 7};
    }
  }

  /** Up to four chapters are numbered once each of them carries its number. */
  lemma NumberedUpToFour(cs: seq<Chapter>, prefix: string)
    requires |cs| <= 4
    requires |cs| > 0 ==> cs[0].id == prefix + "1"
    requires |cs| > 1 ==> cs[1].id == prefix + "2"
    requires |cs| > 2 ==> cs[2].id == prefix + "3"
    requires |cs| > 3 ==> cs[3].id == prefix + "4"
    ensures NumberedIds(cs, prefix)
  {
    forall i | 0 <= i < |cs|
      ensures cs[i].id == prefix + NatToString(i + 1)
    {
      assert i in {0, 1, 2, 3};
    }
  }

  /** Every other deity numbers its chapters after its own prefix. */
  lemma ChaptersNumbered()
    ensures NumberedIds(GaneshaChapters, "g") && NumberedIds(VishnuChapters, "v")
    ensures NumberedIds(KrishnaChapters, "k") && NumberedIds(HanumanChapters, "h")
    ensures NumberedIds(DurgaChapters, "d") && NumberedIds(LakshmiChapters, "l")
    ensures NumberedIds(SaraswatiChapters, "sa")
  {
    NumberedUpToFour(GaneshaChapters, "g");
    NumberedUpToFour(VishnuChapters, "v");
    NumberedUpToFour(KrishnaChapters, "k");
    NumberedUpToFour(HanumanChapters, "h");
    NumberedUpToFour(DurgaChapters, "d");
    NumberedUpToFour(LakshmiChapters, "l");
    NumberedUpToFour(SaraswatiChapters, "sa");
  }

  /** The chapter ids of each deity are distinct, so at most one chapter shows as playing. */
  lemma ChapterIdsDistinct()
    ensures forall d, i, j :: 0 <= d < |DeityChaptersData| && 0 <= i < j < |DeityChaptersData[d].chapters|
              ==> DeityChaptersData[d].chapters[i].id != DeityChaptersData[d].chapters[j].id
  {
    ChaptersNumbered();
    ShivaNumbered();
    NumberedIdsDistinct(GaneshaChapters, "g");
    NumberedIdsDistinct(ShivaChapters, "s");
    NumberedIdsDistinct(VishnuChapters, "v");
    NumberedIdsDistinct(KrishnaChapters, "k");
    NumberedIdsDistinct(HanumanChapters, "h");
    NumberedIdsDistinct(DurgaChapters, "d");
    NumberedIdsDistinct(LakshmiChapters, "l");
    NumberedIdsDistinct(SaraswatiChapters, "sa");
    forall d | 0 <= d < |DeityChaptersData|
      ensures forall i, j :: 0 <= i < j < |DeityChaptersData[d].chapters|
                ==> DeityChaptersData[d].chapters[i].id != DeityChaptersData[d].chapters[j].id
    {
      assert d in {0, 1, 2, 3, 4, 5, 6, 7};
    }
  }
}
