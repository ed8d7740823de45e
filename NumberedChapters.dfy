/**
 * The record shape shared by the Devi Saptashati and Lakshmi Puran tables
 * (a chapter number and a Hindi and an English title), and its conversion
 * to the chapter shape the reader displays.
 */
module NumberedChapters {
  import opened JsCore
  import opened DivineAudio
  import opened ChapterAudioReader

  datatype NumberedChapter = NumberedChapter(
    id: string,
    chapterNumber: nat,
    titleHindi: string,
    titleEnglish: string,
    mood: MoodType,
    instrument: InstrumentType,
    content: string)

  /** The text between the Hindi title and the chapter number in a subtitle ("chapter" in Hindi). */
  const Marker := " - अध्याय "

  /** `${titleHindi} - अध्याय ${chapterNumber}`. */
  function ChapterSubtitle(titleHindi: string, n: nat): (s: string)
    ensures |s| > |titleHindi| + |Marker|
  {
    titleHindi + Marker + NatToString(n)
  }

  /** A subtitle starts with the Hindi title, then the marker, and ends with digits that read back as the number. */
  lemma SubtitleReadsBack(titleHindi: string, n: nat)
    ensures var s := ChapterSubtitle(titleHindi, n); var k := |titleHindi| + |Marker|;
      && s[..|titleHindi|] == titleHindi
      && s[|titleHindi|..k] == Marker
      && AllDigits(s[k..])
      && DecimalValue(s[k..]) == n
  {
    var s := ChapterSubtitle(titleHindi, n);
    var k := |titleHindi| + |Marker|;
    assert s[k..] == NatToString(n);
    DecimalRoundTrip(n);
  }

  /** The run of digits at the end of a string. */
  function TrailingDigits(s: string): (d: string)
    ensures AllDigits(d) && |d| <= |s| && d == s[|s| - |d|..]
    decreases |s|
  {
    if |s| == 0 || !IsDigit(s[|s| - 1]) then [] else TrailingDigits(s[..|s| - 1]) + [s[|s| - 1]]
  }

  /** Digits written after a non-digit are exactly the trailing digits. */
  lemma {:induction false} TrailingDigitsAfter(x: string, d: string)
    requires |x| > 0 && !IsDigit(x[|x| - 1]) && AllDigits(d)
    ensures TrailingDigits(x + d) == d
    decreases |d|
  {
    if |d| == 0 {
      assert x + d == x;
    } else {
      assert (x + d)[..|x + d| - 1] == x + d[..|d| - 1];
      TrailingDigitsAfter(x, d[..|d| - 1]);
    }
  }

  /** The number can be read off the end of any subtitle, whatever its title. */
  lemma SubtitleNumber(titleHindi: string, n: nat)
    ensures DecimalValue(TrailingDigits(ChapterSubtitle(titleHindi, n))) == n
  {
    TrailingDigitsAfter(titleHindi + Marker, NatToString(n));
    DecimalRoundTrip(n);
  }

  /** So chapters with different numbers always get different subtitles, even under different titles. */
  lemma SubtitleDistinguishesNumbers(t1: string, m: nat, t2: string, n: nat)
    requires ChapterSubtitle(t1, m) == ChapterSubtitle(t2, n)
    ensures m == n
  {
    SubtitleNumber(t1, m);
    SubtitleNumber(t2, n);
  }

  /** One record of the `map` in the conversion. */
  function ToChapter(c: NumberedChapter): (r: Chapter)
    ensures r.id == c.id && r.mood == c.mood && r.instrument == c.instrument && r.content == c.content
    ensures r.title == c.titleEnglish
    ensures r.subtitle == Some(ChapterSubtitle(c.titleHindi, c.chapterNumber))
  {
    Chapter(c.id, c.titleEnglish, Some(ChapterSubtitle(c.titleHindi, c.chapterNumber)), c.content, c.mood, c.instrument)
  }

  /** The conversion keeps the length and the order: record i becomes chapter i. */
  function ConvertAll(cs: seq<NumberedChapter>): (r: seq<Chapter>)
    ensures |r| == |cs|
    ensures forall i :: 0 <= i < |cs| ==> r[i] == ToChapter(cs[i])
  {
    seq(|cs|, i requires 0 <= i < |cs| => ToChapter(cs[i]))
  }

  /** Converting a concatenation converts each part: the conversion works record by record. */
  lemma ConvertAllAppend(a: seq<NumberedChapter>, b: seq<NumberedChapter>)
    ensures ConvertAll(a + b) == ConvertAll(a) + ConvertAll(b)
  {
  }

  /** The chapter number of record i reads back from chapter i's subtitle. */
  lemma ConvertedNumberReadsBack(cs: seq<NumberedChapter>, i: nat)
    requires i < |cs|
    ensures var s := ConvertAll(cs)[i].subtitle.value; var k := |cs[i].titleHindi| + |Marker|;
      k <= |s| && AllDigits(s[k..]) && DecimalValue(s[k..]) == cs[i].chapterNumber
  {
    SubtitleReadsBack(cs[i].titleHindi, cs[i].chapterNumber);
  }
}
