/**
 * The twelve chapters of the Lakshmi Puran and their conversion for the
 * chapter reader. The prose of each chapter is not modelled: every
 * `content` is "".
 */
module LakshmiPuranChapters {
  import opened JsCore
  import opened DivineAudio
  import opened ChapterAudioReader
  import opened NumberedChapters

  const LakshmiPuran: seq<NumberedChapter> := [
    NumberedChapter("lp1", 1, "प्रस्तावना एवं लक्ष्मी वंदना", "Introduction & Invocation to Lakshmi", Divine, Om, ""),
    NumberedChapter("lp2", 2, "नारद और पराशर मुनि का आगमन", "Arrival of Narada and Parashara Muni", Peaceful, Tanpura, ""),
    NumberedChapter("lp3", 3, "लक्ष्मी व्रत की विधि", "The Method of Lakshmi Vrat", Peaceful, Flute, ""),
    NumberedChapter("lp4", 4, "लक्ष्मी का जगन्नाथ से आज्ञा लेना", "Lakshmi Seeks Permission from Jagannath", Divine, Tanpura, ""),
    NumberedChapter("lp5", 5, "चंडालिनी श्रिया की भक्ति", "Devotion of Shriya the Chandala Woman", Devotional, Om, ""),
    NumberedChapter("lp6", 6, "बलराम द्वारा लक्ष्मी का बहिष्कार", "Balaram's Rejection of Lakshmi", Powerful, Tanpura, ""),
    NumberedChapter("lp7", 7, "लक्ष्मी का मंदिर से निष्कासन", "Lakshmi's Expulsion from the Temple", Sad, Bells, ""),
    NumberedChapter("lp8", 8, "लक्ष्मी का शाप", "Lakshmi's Curse", Powerful, Om, ""),
    NumberedChapter("lp9", 9, "भाइयों की दुर्दशा", "The Suffering of the Brothers", Sad, Flute, ""),
    NumberedChapter("lp10", 10, "जगन्नाथ समुद्र तट पर", "Jagannath at the Ocean Shore", Peaceful, Tanpura, ""),
    NumberedChapter("lp11", 11, "लक्ष्मी का प्रश्न", "Lakshmi's Question", Divine, Om, ""),
    NumberedChapter("lp12", 12, "फलश्रुति - पुराण का फल", "Phala Shruti - The Fruits of the Purana", Divine, Om, "")
  ]

  /** `convertLakshmiPuranChapters`: every record converted, in table order. */
  function ConvertLakshmiPuranChapters(): (r: seq<Chapter>)
    ensures |r| == |LakshmiPuran| == 12
    ensures forall i :: 0 <= i < |r| ==> r[i].id == LakshmiPuran[i].id && r[i].title == LakshmiPuran[i].titleEnglish
    ensures forall i :: 0 <= i < |r| ==> r[i].mood == LakshmiPuran[i].mood && r[i].instrument == LakshmiPuran[i].instrument
    ensures forall i :: 0 <= i < |r| ==> r[i].subtitle == Some(ChapterSubtitle(LakshmiPuran[i].titleHindi, i + 1))
  {
    ChapterNumbersConsecutive();
    ConvertAll(LakshmiPuran)
  }

  /** `getLakshmiPuranChapters`: the converted table. */
  function GetLakshmiPuranChapters(): (r: seq<Chapter>)
    ensures r == ConvertLakshmiPuranChapters()
    ensures forall i :: 0 <= i < |r| ==> r[i] == ToChapter(LakshmiPuran[i])
  {
    ConvertLakshmiPuranChapters()
  }

  /** Chapter i carries the number i + 1 and the id "lp" followed by i + 1. */
  lemma ChapterNumbersConsecutive()
    ensures |LakshmiPuran| == 12
    ensures forall i :: 0 <= i < |LakshmiPuran| ==> LakshmiPuran[i].chapterNumber == i + 1
    ensures forall i :: 0 <= i < |LakshmiPuran| ==> LakshmiPuran[i].id == "lp" + NatToString(i + 1)
  {
    forall i | 0 <= i < |LakshmiPuran|
      ensures LakshmiPuran[i].chapterNumber == i + 1 && LakshmiPuran[i].id == "lp" + NatToString(i + 1)
    {
      assert i in {0, 1, 2, 3, 4, 5, 6, 7, 8, 9, 10, 11};
    }
  }

  /** Converted chapters have distinct subtitles, so no two chapters read alike. */
  lemma SubtitlesDistinct()
    ensures forall i, j :: 0 <= i < j < |LakshmiPuran| ==>
              ConvertLakshmiPuranChapters()[i].subtitle != ConvertLakshmiPuranChapters()[j].subtitle
  {
    var r := ConvertLakshmiPuranChapters();
    forall i, j | 0 <= i < j < |LakshmiPuran|
      ensures r[i].subtitle != r[j].subtitle
    {
      if r[i].subtitle == r[j].subtitle {
        SubtitleDistinguishesNumbers(LakshmiPuran[i].titleHindi, i + 1, LakshmiPuran[j].titleHindi, j + 1);
      }
    }
  }
}
