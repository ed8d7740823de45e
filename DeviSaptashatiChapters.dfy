/**
 * The nineteen readings of the Devi Saptashati (Durga Saptashati), grouped
 * under its thirteen chapters, and their conversion for the chapter reader.
 * The prose of each reading is not modelled: every `content` is "".
 */
module DeviSaptashatiChapters {
  import opened JsCore
  import opened DivineAudio
  import opened ChapterAudioReader
  import opened NumberedChapters

  const DeviSaptashati: seq<NumberedChapter> := [
    NumberedChapter("ds1", 1, "मधु-कैटभ वध", "The Slaying of Madhu and Kaitabha", Divine, Om, ""),
    NumberedChapter("ds2", 1, "राजा और वैश्य की कथा", "The Story of the King and the Merchant", Peaceful, Tanpura, ""),
    NumberedChapter("ds3", 1, "महामाया का वर्णन", "Description of Mahamaya", Divine, Om, ""),
    NumberedChapter("ds4", 1, "ब्रह्मा की स्तुति", "Brahma's Hymn to the Devi", Devotional, Om, ""),
    NumberedChapter("ds5", 1, "मधु-कैटभ का वध", "The Slaying of Madhu and Kaitabha", Powerful, Tanpura, ""),
    NumberedChapter("ds6", 2, "महिषासुर की सेना का संहार", "The Slaughter of Mahishasura's Armies", Powerful, Tanpura, ""),
    NumberedChapter("ds7", 2, "देवी की उत्पत्ति और शस्त्र प्रदान", "The Birth of the Devi and Gifting of Weapons", Divine, Om, ""),
    NumberedChapter("ds8", 3, "महिषासुर वध", "The Slaying of Mahishasura", Powerful, Tanpura, ""),
    NumberedChapter("ds9", 3, "महिषासुर का अंत", "The Final Battle with Mahishasura", Powerful, Om, ""),
    NumberedChapter("ds10", 4, "इन्द्रादि देवताओं द्वारा स्तुति", "Praise by Indra and the Other Gods", Devotional, Om, ""),
    NumberedChapter("ds11", 5, "देवी का दूत से संवाद", "The Devi's Conversation with the Messenger", Powerful, Tanpura, ""),
    NumberedChapter("ds12", 6, "धूम्रलोचन वध", "The Slaying of Dhumralochana", Powerful, Tanpura, ""),
    NumberedChapter("ds13", 7, "चण्ड-मुण्ड वध", "The Slaying of Chanda and Munda", Powerful, Tanpura, ""),
    NumberedChapter("ds14", 8, "रक्तबीज वध", "The Slaying of Raktabija", Powerful, Om, ""),
    NumberedChapter("ds15", 9, "निशुम्भ वध", "The Slaying of Nishumbha", Powerful, Tanpura, ""),
    NumberedChapter("ds16", 10, "शुम्भ वध", "The Slaying of Shumbha", Powerful, Om, ""),
    NumberedChapter("ds17", 11, "नारायणी स्तुति", "Hymn to Narayani", Devotional, Om, ""),
    NumberedChapter("ds18", 12, "आशीर्वाद का वचन", "The Promise of Blessings", Divine, Om, ""),
    NumberedChapter("ds19", 13, "सुरथ और वैश्य को वरदान", "The Granting of Boons to Suratha and the Merchant", Peaceful, Tanpura, "")
  ]

  /** `convertDeviSaptashatiChapters`: every record converted, in table order. */
  function ConvertDeviSaptashatiChapters(): (r: seq<Chapter>)
    ensures |r| == |DeviSaptashati| == 19
    ensures forall i :: 0 <= i < |r| ==> r[i].id == DeviSaptashati[i].id && r[i].title == DeviSaptashati[i].titleEnglish
    ensures forall i :: 0 <= i < |r| ==> r[i].mood == DeviSaptashati[i].mood && r[i].instrument == DeviSaptashati[i].instrument
    ensures forall i :: 0 <= i < |r| ==> r[i].subtitle == Some(ChapterSubtitle(DeviSaptashati[i].titleHindi, DeviSaptashati[i].chapterNumber))
  {
    ConvertAll(DeviSaptashati)
  }

  /** `getDeviSaptashatiChapters`: the converted table. */
  function GetDeviSaptashatiChapters(): (r: seq<Chapter>)
    ensures r == ConvertDeviSaptashatiChapters()
    ensures forall i :: 0 <= i < |r| ==> r[i] == ToChapter(DeviSaptashati[i])
  {
    ConvertDeviSaptashatiChapters()
  }

  /** Consecutive readings stay in a chapter or move on to the next one, among the first ten. */
  lemma StepLow(i: int)
    requires 0 < i < 10
    ensures DeviSaptashati[i - 1].chapterNumber <= DeviSaptashati[i].chapterNumber <= DeviSaptashati[i - 1].chapterNumber + 1
  {
    assert i in {1, 2, 3, 4, 5, 6, 7, 8, 9};
  }

  /** The same among the later readings. */
  lemma StepHigh(i: int)
    requires 10 <= i < |DeviSaptashati|
    ensures DeviSaptashati[i - 1].chapterNumber <= DeviSaptashati[i].chapterNumber <= DeviSaptashati[i - 1].chapterNumber + 1
  {
    assert i in {10, 11, 12, 13, 14, 15, 16, 17, 18};
  }

  /** Readings run through the chapters in order: numbers never decrease, from 1 up to 13, with none skipped. */
  lemma ChapterNumbersInOrder()
    ensures DeviSaptashati[0].chapterNumber == 1 && DeviSaptashati[|DeviSaptashati| - 1].chapterNumber == 13
    ensures forall i :: 0 < i < |DeviSaptashati| ==>
              DeviSaptashati[i - 1].chapterNumber <= DeviSaptashati[i].chapterNumber <= DeviSaptashati[i - 1].chapterNumber + 1
    ensures forall i :: 0 <= i < |DeviSaptashati| ==> 1 <= DeviSaptashati[i].chapterNumber <= 13
  {
    forall i | 0 < i < |DeviSaptashati|
      ensures DeviSaptashati[i - 1].chapterNumber <= DeviSaptashati[i].chapterNumber <= DeviSaptashati[i - 1].chapterNumber + 1
    {
      if i < 10 {
        StepLow(i);
      } else {
        StepHigh(i);
      }
    }
    forall k | 0 <= k < |DeviSaptashati|
      ensures 1 <= DeviSaptashati[k].chapterNumber <= 13
    {
      AtLeastFirst(DeviSaptashati, k);
      AtMostLast(DeviSaptashati, k);
    }
  }

  /** In a list whose chapter numbers never decrease, each number is at least the first one. */
  lemma {:induction false} AtLeastFirst(cs: seq<NumberedChapter>, k: int)
    requires forall j :: 0 < j < |cs| ==> cs[j - 1].chapterNumber <= cs[j].chapterNumber
    requires 0 <= k < |cs|
    ensures cs[0].chapterNumber <= cs[k].chapterNumber
    decreases k
  {
    if k > 0 {
      AtLeastFirst(cs, k - 1);
    }
  }

  /** And at most the last one. */
  lemma {:induction false} AtMostLast(cs: seq<NumberedChapter>, k: int)
    requires forall j :: 0 < j < |cs| ==> cs[j - 1].chapterNumber <= cs[j].chapterNumber
    requires 0 <= k < |cs|
    ensures cs[k].chapterNumber <= cs[|cs| - 1].chapterNumber
    decreases |cs| - k
  {
    if k < |cs| - 1 {
      AtMostLast(cs, k + 1);
    }
  }

  /** Reading i (counting from 0) among the first nine has the id "ds" followed by i + 1. */
  lemma IdAtLow(i: int)
    requires 0 <= i < 9
    ensures DeviSaptashati[i].id == "ds" + NatToString(i + 1)
  {
    assert i in {0, 1, 2, 3, 4, 5, 6, 7, 8};
  }

  /** The same for the later readings, whose numbers have two digits. */
  lemma IdAtHigh(i: int)
    requires 9 <= i < |DeviSaptashati|
    ensures DeviSaptashati[i].id == "ds" + NatToString(i + 1)
  {
    var n := i + 1;
    assert NatToString(n) == NatToString(n / 10) + NatToString(n % 10);
    assert i in {9, 10, 11, 12, 13, 14, 15, 16, 17, 18};
  }

  /** Reading i has the id "ds" followed by its position counted from 1. */
  lemma IdAt(i: int)
    requires 0 <= i < |DeviSaptashati|
    ensures DeviSaptashati[i].id == "ds" + NatToString(i + 1)
  {
    if i < 9 {
      IdAtLow(i);
    } else {
      IdAtHigh(i);
    }
  }

  /** So reading ids are distinct. */
  lemma IdsNumbered()
    ensures forall i, j :: 0 <= i < j < |DeviSaptashati| ==> DeviSaptashati[i].id != DeviSaptashati[j].id
  {
    forall i, j | 0 <= i < j < |DeviSaptashati|
      ensures DeviSaptashati[i].id != DeviSaptashati[j].id
    {
      IdAt(i);
      IdAt(j);
      if DeviSaptashati[i].id == DeviSaptashati[j].id {
        assert DeviSaptashati[i].id[2..] == NatToString(i + 1);
        assert DeviSaptashati[j].id[2..] == NatToString(j + 1);
        NatToStringInjective(i + 1, j + 1);
      }
    }
  }
}
