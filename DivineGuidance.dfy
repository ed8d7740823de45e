/**
 * The divine-guidance edge function, without its HTTP plumbing: the rashi
 * and problem-category lookups with their fallback, the language flag, the
 * month ranges written into the prompt, and the way the API key check and
 * the gateway's reply become the function's response. The clock enters as
 * the current year and month index; the gateway enters as its reply.
 */
module DivineGuidance {
  import opened JsCore

  // ---------------------------------------------------------------------------
  // Lookups
  // ---------------------------------------------------------------------------

  /** A name in both languages. */
  datatype Names = Names(hindi: string, english: string)

  const RashiNames: map<string, Names> := map[
    "Aries" := Names("मेष", "Aries"),
    "Taurus" := Names("वृषभ", "Taurus"),
    "Gemini" := Names("मिथुन", "Gemini"),
    "Cancer" := Names("कर्क", "Cancer"),
    "Leo" := Names("सिंह", "Leo"),
    "Virgo" := Names("कन्या", "Virgo"),
    "Libra" := Names("तुला", "Libra"),
    "Scorpio" := Names("वृश्चिक", "Scorpio"),
    "Sagittarius" := Names("धनु", "Sagittarius"),
    "Capricorn" := Names("मकर", "Capricorn"),
    "Aquarius" := Names("कुंभ", "Aquarius"),
    "Pisces" := Names("मीन", "Pisces")
  ]

  const ProblemCategories: map<string, Names> := map[
    "career" := Names("करियर/नौकरी", "Career/Job"),
    "love" := Names("प्रेम/रिश्ते", "Love/Relationships"),
    "marriage" := Names("विवाह", "Marriage"),
    "finance" := Names("आर्थिक/धन", "Finance/Money"),
    "health" := Names("स्वास्थ्य", "Health"),
    "education" := Names("शिक्षा", "Education"),
    "family" := Names("परिवार", "Family")
  ]

  /** `table[key] || { hindi: key, english: key }`. */
  function Lookup(table: map<string, Names>, key: string): (n: Names)
    ensures key in table ==> n == table[key]
    ensures key !in table ==> n == Names(key, key)
  {
    if key in table then table[key] else Names(key, key)
  }

  function RashiInfo(rashi: string): (n: Names)
    ensures n.english == rashi
  {
    RashiEnglishNamesAreKeys();
    Lookup(RashiNames, rashi)
  }

  function CategoryInfo(category: string): (n: Names)
    ensures category !in ProblemCategories ==> n == Names(category, category)
  {
    Lookup(ProblemCategories, category)
  }

  /** Every rashi's English name is its key. */
  lemma RashiEnglishNamesAreKeys()
    ensures forall k :: k in RashiNames ==> RashiNames[k].english == k
  {
  }

  /**
   * The fallback shows: a rashi's Hindi name is its key exactly when the key
   * is unknown, and the same holds for both names of a problem category.
   */
  lemma FallbackDetectable(rashi: string, category: string)
    ensures RashiInfo(rashi).hindi == rashi <==> rashi !in RashiNames
    ensures CategoryInfo(category).hindi == category <==> category !in ProblemCategories
    ensures CategoryInfo(category).english == category <==> category !in ProblemCategories
  {
    if rashi in RashiNames {
      assert RashiNames[rashi].hindi[0] != rashi[0];
    }
    if category in ProblemCategories {
      assert ProblemCategories[category].hindi[0] != category[0];
      assert ProblemCategories[category].english[0] != category[0];
    }
  }

  /** `language = "hindi"` then `language === "hindi"`: Hindi unless another language is sent. */
  function IsHindi(language: Option<string>): (b: bool)
    ensures language.None? ==> b
    ensures language.Some? ==> (b <==> language.value == "hindi")
  {
    language.GetOr("hindi") == "hindi"
  }

  // ---------------------------------------------------------------------------
  // Month ranges
  // ---------------------------------------------------------------------------

  const Months: seq<string> := ["Jan", "Feb", "Mar", "Apr", "May", "Jun", "Jul", "Aug", "Sep", "Oct", "Nov", "Dec"]

  /** A month: the full year and the month index 0..11. */
  datatype YearMonth = YearMonth(year: int, month: int)

  /** Months counted from January of year 0. */
  function MonthIndex(d: YearMonth): int {
    d.year * 12 + d.month
  }

  /** The `Date` constructor reads a year from 0 to 99 as 1900 to 1999. */
  function DateYear(year: int): (y: int)
    ensures 0 <= year <= 99 ==> y == 1900 + year
    ensures !(0 <= year <= 99) ==> y == year
  {
    if 0 <= year <= 99 then 1900 + year else year
  }

  /**
   * `new Date(year, month + offset, 1)`: the month index is normalised into
   * 0..11 and the whole years it spans are carried into the year.
   */
  function MonthStart(year: int, month: int, offset: int): (d: YearMonth)
    requires 0 <= month < 12
    ensures 0 <= d.month < 12
    ensures MonthIndex(d) == DateYear(year) * 12 + month + offset
    ensures 0 <= month + offset < 12 ==> d == YearMonth(DateYear(year), month + offset)
    ensures 12 <= month + offset < 24 ==> d == YearMonth(DateYear(year) + 1, month + offset - 12)
  {
    var m := month + offset;
    YearMonth(DateYear(year) + m / 12, m % 12)
  }

  /** `"<Mon> <YYYY> - <Mon> <YYYY>"` with the English abbreviations. */
  function RangeText(start: YearMonth, end: YearMonth): (shown: string)
    requires 0 <= start.month < 12 && 0 <= end.month < 12
  {
    Months[start.month] + " " + IntToString(start.year) + " - " + Months[end.month] + " " + IntToString(end.year)
  }

  /**
   * `getMonthRange`: the months `startOffset` and `endOffset` after the
   * current one, in English whatever the language of the request.
   */
  function GetMonthRange(year: int, month: int, startOffset: int, endOffset: int): (shown: string)
    requires 0 <= month < 12
  {
    RangeText(MonthStart(year, month, startOffset), MonthStart(year, month, endOffset))
  }

  /** The range spans exactly `endOffset - startOffset` months, starting `startOffset` months from now. */
  lemma MonthRangeSpan(year: int, month: int, startOffset: int, endOffset: int)
    requires 0 <= month < 12
    ensures var s := MonthStart(year, month, startOffset);
            var e := MonthStart(year, month, endOffset);
            && GetMonthRange(year, month, startOffset, endOffset) == RangeText(s, e)
            && MonthIndex(s) == DateYear(year) * 12 + month + startOffset
            && MonthIndex(e) - MonthIndex(s) == endOffset - startOffset
  {
  }

  /**
   * The prompt's two ranges: from this month to 3 (or 6) months later, the
   * year carrying over exactly when the end passes December.
   */
  lemma PromptRanges(year: int, month: int, k: int)
    requires 0 <= month < 12 && k in {3, 6}
    ensures var e := MonthStart(year, month, k);
            && GetMonthRange(year, month, 0, k) == RangeText(YearMonth(DateYear(year), month), e)
            && MonthIndex(e) == MonthIndex(YearMonth(DateYear(year), month)) + k
            && e.year == DateYear(year) + (if month + k >= 12 then 1 else 0)
  {
  }

  /** The index of a month abbreviation, read back. */
  function MonthNumber(name: string): int {
    if name == "Jan" then 0 else if name == "Feb" then 1 else if name == "Mar" then 2
    else if name == "Apr" then 3 else if name == "May" then 4 else if name == "Jun" then 5
    else if name == "Jul" then 6 else if name == "Aug" then 7 else if name == "Sep" then 8
    else if name == "Oct" then 9 else if name == "Nov" then 10 else if name == "Dec" then 11
    else -1
  }

  /** Every abbreviation is three letters long and reads back as its own index. */
  lemma MonthsReadBack(i: int)
    requires 0 <= i < 12
    ensures |Months[i]| == 3 && MonthNumber(Months[i]) == i
  {
    assert i in {0, 1, 2, 3, 4, 5, 6, 7, 8, 9, 10, 11};
  }

  /** Digits followed by a non-digit split the same way wherever they appear. */
  lemma DigitsPrefix(d1: string, t1: string, d2: string, t2: string)
    requires AllDigits(d1) && AllDigits(d2)
    requires |t1| > 0 && |t2| > 0 && !IsDigit(t1[0]) && !IsDigit(t2[0])
    requires d1 + t1 == d2 + t2
    ensures d1 == d2 && t1 == t2
  {
    assert d1 == (d1 + t1)[..|d1|];
    assert d2 == (d2 + t2)[..|d2|];
  }

  /** A range text splits into the start month, a space, and the start year followed by the rest. */
  lemma RangeTextParts(s: YearMonth, e: YearMonth)
    requires 0 <= s.month < 12 && 0 <= e.month < 12 && s.year >= 0 && e.year >= 0
    ensures var c := RangeText(s, e);
            var tail := " - " + Months[e.month] + " " + NatToString(e.year);
            && |c| >= 4 && MonthNumber(c[..3]) == s.month && c[4..] == NatToString(s.year) + tail
            && |tail| >= 7 && MonthNumber(tail[3..6]) == e.month && tail[7..] == NatToString(e.year)
  {
    MonthsReadBack(s.month);
    MonthsReadBack(e.month);
    var tail := " - " + Months[e.month] + " " + NatToString(e.year);
    var c := RangeText(s, e);
    assert c == Months[s.month] + " " + (NatToString(s.year) + tail);
    assert c[..3] == Months[s.month];
    assert tail[3..6] == Months[e.month];
  }

  /** A range with years from 0 on reads back unambiguously: the text determines both months. */
  lemma RangeTextInjective(s1: YearMonth, e1: YearMonth, s2: YearMonth, e2: YearMonth)
    requires 0 <= s1.month < 12 && 0 <= e1.month < 12 && 0 <= s2.month < 12 && 0 <= e2.month < 12
    requires s1.year >= 0 && e1.year >= 0 && s2.year >= 0 && e2.year >= 0
    requires RangeText(s1, e1) == RangeText(s2, e2)
    ensures s1 == s2 && e1 == e2
  {
    RangeTextParts(s1, e1);
    RangeTextParts(s2, e2);
    var tail1 := " - " + Months[e1.month] + " " + NatToString(e1.year);
    var tail2 := " - " + Months[e2.month] + " " + NatToString(e2.year);
    DigitsPrefix(NatToString(s1.year), tail1, NatToString(s2.year), tail2);
    NatToStringInjective(s1.year, s2.year);
    NatToStringInjective(e1.year, e2.year);
  }

  // ---------------------------------------------------------------------------
  // Responses
  // ---------------------------------------------------------------------------

  /** What came back from the AI gateway: a status, or an exception from `fetch` itself. */
  datatype Upstream = Reply(status: int) | Unreachable(message: string)

  /** The function's response: the gateway's event stream, or a JSON error with a status. */
  datatype GuidanceResponse = Stream | Failure(status: int, error: string)

  const KeyMissing := "LOVABLE_API_KEY is not configured"

  /** `response.ok`: a 2xx status. */
  predicate Ok(status: int) {
    200 <= status <= 299
  }

  const TooManyRequestsHindi := "अभी बहुत अनुरोध आ रहे हैं। कृपया कुछ क्षण प्रतीक्षा करें।"
  const TooManyRequestsEnglish := "Too many requests. Please wait a moment and try again."
  const UnavailableHindi := "सेवा अस्थायी रूप से अनुपलब्ध है।"
  const UnavailableEnglish := "Service temporarily unavailable."
  const GuidanceErrorHindi := "मार्गदर्शन प्राप्त करने में त्रुटि हुई।"
  const GuidanceErrorEnglish := "Error getting guidance."

  /** The error message for a non-ok gateway status, in the request's language. */
  function GatewayMessage(status: int, isHindi: bool): (message: string)
    ensures message != KeyMissing
  {
    if status == 429 then
      if isHindi then TooManyRequestsHindi else TooManyRequestsEnglish
    else if status == 402 then
      if isHindi then UnavailableHindi else UnavailableEnglish
    else
      if isHindi then GuidanceErrorHindi else GuidanceErrorEnglish
  }

  /** Which of the three gateway failures a status is: 429, 402, or any other. */
  function FailureKind(status: int): int {
    if status == 429 then 0 else if status == 402 then 1 else 2
  }

  /** The failure kind and language a gateway message was written for. */
  function ReadGatewayMessage(message: string): (int, bool) {
    if message == TooManyRequestsHindi then (0, true)
    else if message == TooManyRequestsEnglish then (0, false)
    else if message == UnavailableHindi then (1, true)
    else if message == UnavailableEnglish then (1, false)
    else if message == GuidanceErrorHindi then (2, true)
    else (2, false)
  }

  /** Each gateway message reads back as the failure kind and the language it was chosen for. */
  lemma GatewayMessageReadsBack(status: int, isHindi: bool)
    ensures ReadGatewayMessage(GatewayMessage(status, isHindi)) == (FailureKind(status), isHindi)
  {
  }

  /** So the two languages never share a message, and the three kinds of failure never share one. */
  lemma GatewayMessagesDistinct(a: int, b: int, hindiA: bool, hindiB: bool)
    requires GatewayMessage(a, hindiA) == GatewayMessage(b, hindiB)
    ensures hindiA == hindiB && FailureKind(a) == FailureKind(b)
  {
    GatewayMessageReadsBack(a, hindiA);
    GatewayMessageReadsBack(b, hindiB);
  }

  /**
   * The handler for a POST: a body that fails to parse, a missing or empty
   * API key, and an exception from `fetch` all end in the catch block as a
   * 500 carrying the error's message; a non-ok gateway status keeps 429 and
   * 402 and becomes 500 otherwise; an ok status streams the reply through.
   */
  function Respond(parseError: Option<string>, apiKey: Option<string>, language: Option<string>, upstream: Upstream): (r: GuidanceResponse)
    ensures r.Stream? <==> parseError.None? && apiKey.Some? && apiKey.value != "" && upstream.Reply? && Ok(upstream.status)
    ensures r.Failure? ==> r.status in {402, 429, 500}
    ensures r.Failure? && r.status != 500 ==> upstream == Reply(r.status)
  {
    if parseError.Some? then Failure(500, parseError.value)
    else if apiKey.None? || apiKey.value == "" then Failure(500, KeyMissing)
    else
      var isHindi := IsHindi(language);
      match upstream
      case Unreachable(message) => Failure(500, message)
      case Reply(status) =>
        if Ok(status) then Stream
        else if status == 429 || status == 402 then Failure(status, GatewayMessage(status, isHindi))
        else Failure(500, GatewayMessage(status, isHindi))
  }

  /**
   * With a parsed body and a key, a non-ok gateway status keeps 429 and 402,
   * turns every other status into 500, and explains it in Hindi exactly when
   * the request asked for Hindi or named no language.
   */
  lemma GatewayStatusMapping(key: string, language: Option<string>, status: int)
    requires key != "" && !Ok(status)
    ensures var r := Respond(None, Some(key), language, Reply(status));
            && r.Failure?
            && r.status == (if status == 429 || status == 402 then status else 500)
            && r.error == GatewayMessage(status, language.None? || language == Some("hindi"))
  {
  }

  /**
   * Only an absent language or exactly "hindi" selects the Hindi messages:
   * any other language, "Hindi" and "" included, gets the English ones.
   */
  lemma HindiOnlyByDefault(key: string, language: Option<string>, status: int)
    requires key != "" && !Ok(status)
    ensures var r := Respond(None, Some(key), language, Reply(status));
            ReadGatewayMessage(r.error).1 <==> language.None? || language == Some("hindi")
  {
    GatewayMessageReadsBack(status, IsHindi(language));
  }

  /**
   * The catch block: a body that fails to parse, and with a key an exception
   * from `fetch`, answer 500 with the exception's own message.
   */
  lemma CaughtErrorsAre500(parseError: Option<string>, apiKey: Option<string>, language: Option<string>, upstream: Upstream)
    ensures parseError.Some? ==> Respond(parseError, apiKey, language, upstream) == Failure(500, parseError.value)
    ensures parseError.None? && apiKey.Some? && apiKey.value != "" && upstream.Unreachable?
            ==> Respond(parseError, apiKey, language, upstream) == Failure(500, upstream.message)
  {
  }

  /**
   * The key is checked before anything else the gateway could say: without
   * it the answer is the same 500 in every language and for every gateway.
   */
  lemma KeyCheckedBeforeGateway(apiKey: Option<string>, language: Option<string>, upstream: Upstream)
    requires apiKey.None? || apiKey == Some("")
    ensures Respond(None, apiKey, language, upstream) == Failure(500, KeyMissing)
  {
  }
}
