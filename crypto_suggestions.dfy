/** The crypto suggestion service. It reads back the numbers carried by the sentences of the
    latest crypto analysis report (close price and moving averages, RSI, volume, VWAP),
    interprets them, and assembles per-asset suggestions in three ways: one per analysed
    trend, one per analysed momentum entry, and one per symbol of the portfolio allocation
    combining both. Every indicator it emits has the action MONITOR. */
module CryptoSuggestions {
  import opened Wrappers
  import opened Text
  import opened Patterns
  import opened OrderedDict
  import Momentum

  // ---------------------------------------------------------------------------------
  // The report
  // ---------------------------------------------------------------------------------

  /** An entry of `crypto_trends`; a missing text reads as "". */
  datatype TrendEntry = TrendEntry(asset: Option<string>, diagnosis: string, fluctuationAnswer: string)

  /** One indicator of a `crypto_momentum_indicators` entry. */
  datatype IndicatorEntry = IndicatorEntry(indicatorName: Option<string>, fluctuationAnswer: string, diagnosis: string)

  datatype MomentumEntry = MomentumEntry(asset: Option<string>, indicators: seq<IndicatorEntry>)

  /** An entry of the report's `portfolio_allocation` (absent: no entries). */
  datatype AllocationDoc = AllocationDoc(asset: string, description: Option<string>, assetType: Option<string>)

  datatype Holding = Holding(description: Option<string>, assetType: Option<string>)

  /** The latest crypto analysis report. */
  datatype CryptoReport = CryptoReport(trends: seq<TrendEntry>, momentum: seq<MomentumEntry>, allocation: seq<AllocationDoc>)

  function AllocationPairs(docs: seq<AllocationDoc>): seq<(string, Holding)>
  {
    seq(|docs|, i requires 0 <= i < |docs| => (docs[i].asset, Holding(docs[i].description, docs[i].assetType)))
  }

  /** The `portfolio_allocation` dict, keyed by asset; a later entry replaces an earlier one. */
  function Portfolio(docs: seq<AllocationDoc>): seq<Entry<string, Holding>>
  {
    FromPairs(AllocationPairs(docs))
  }

  /** Python truthiness of a value that may be missing: present and not zero. */
  predicate Truthy(v: Option<real>)
  {
    v.Some? && v.value != 0.0
  }

  // ---------------------------------------------------------------------------------
  // Reading numbers back from the sentences
  // ---------------------------------------------------------------------------------

  /** `KEYWORD [.*?] \$?([\d,]+\.?\d*)`. */
  function PricePattern(keywords: seq<string>, lazy: bool, ignoreCase: bool): Pattern
  {
    Keyed(keywords, lazy, "", true, CommaNumber, "", ignoreCase)
  }

  /** `close price is \$?([\d,]+\.?\d*)`, case-sensitive. */
  const ClosePatterns: seq<Pattern> := [PricePattern(["close price is "], false, false)]

  datatype MaType = Ma9 | Ma21 | Ma50

  function MaTypeName(t: MaType): string
  {
    match t
    case Ma9 => "MA9"
    case Ma21 => "MA21"
    case Ma50 => "MA50"
  }

  /** The fallbacks of each average, ignoring case: the exact name, a neighbouring period,
      then a `short`/`mid`/`long` `[_ ]?ma` keyword followed lazily by the number. */
  function MaPatterns(t: MaType): seq<Pattern>
  {
    match t
    case Ma9 => [PricePattern(["MA9 is "], false, true), PricePattern(["MA10 is "], false, true),
                 PricePattern(["short_ma", "short ma", "shortma"], true, true)]
    case Ma21 => [PricePattern(["MA21 is "], false, true), PricePattern(["MA20 is "], false, true),
                  PricePattern(["mid_ma", "mid ma", "midma"], true, true)]
    case Ma50 => [PricePattern(["MA50 is "], false, true), PricePattern(["long_ma", "long ma", "longma"], true, true)]
  }

  /** The `ma_values` dict: a key without a matching pattern is absent. */
  datatype MaValues = MaValues(close: Option<real>, ma9: Option<real>, ma21: Option<real>, ma50: Option<real>)
  {
    function Of(t: MaType): Option<real>
    {
      match t
      case Ma9 => ma9
      case Ma21 => ma21
      case Ma50 => ma50
    }
  }

  /** `_extract_ma_values`: each value is the first matching pattern's number, read with its
      commas removed; a capture `float` rejects raises `ValueError`. */
  function MaValuesOf(s: string): Outcome<MaValues>
  {
    MaValuesFrom(ReadFirst(s, ClosePatterns), ReadFirst(s, MaPatterns(Ma9)), ReadFirst(s, MaPatterns(Ma21)),
                 ReadFirst(s, MaPatterns(Ma50)))
  }

  /** The dict of four readings, or the first reading's exception, in reading order. */
  function MaValuesFrom(close: Outcome<Option<real>>, ma9: Outcome<Option<real>>, ma21: Outcome<Option<real>>,
                        ma50: Outcome<Option<real>>): (r: Outcome<MaValues>)
    ensures r.Ok? <==> close.Ok? && ma9.Ok? && ma21.Ok? && ma50.Ok?
    ensures r.Ok? ==> r.value == MaValues(close.value, ma9.value, ma21.value, ma50.value)
    ensures close.Raised? ==> r == Raised(close.error)
  {
    if close.Raised? then Raised(close.error)
    else if ma9.Raised? then Raised(ma9.error)
    else if ma21.Raised? then Raised(ma21.error)
    else if ma50.Raised? then Raised(ma50.error)
    else Ok(MaValues(close.value, ma9.value, ma21.value, ma50.value))
  }

  /** A report sentence with all four readings, each a dollar amount with a thousands
      separator. */
  const EthSentence: string :=
    "ETH close price is $3,371.35, MA9 is $3,368.93, MA21 is $3,367.09, and MA50 is $3,361.92."

  /** The sentence as the pieces the readings are read from: each reading's keyword, dollar
      sign, number and following character are one piece. */
  lemma EthSentenceOpening()
    ensures "ETH " + "close price is $3,371.35," + " " + "MA9 is $3,368.93," ==
      "ETH close price is $3,371.35, MA9 is $3,368.93,"
  {
    assert "ETH " + "close price is $3,371.35," == "ETH close price is $3,371.35,";
    assert "ETH close price is $3,371.35," + " " == "ETH close price is $3,371.35, ";
  }

  lemma EthSentenceMiddle()
    ensures "ETH " + "close price is $3,371.35," + " " + "MA9 is $3,368.93," + " " + "MA21 is $3,367.09," ==
      "ETH close price is $3,371.35, MA9 is $3,368.93, MA21 is $3,367.09,"
  {
    EthSentenceOpening();
    assert "ETH close price is $3,371.35, MA9 is $3,368.93," + " " ==
      "ETH close price is $3,371.35, MA9 is $3,368.93, ";
    assert "ETH close price is $3,371.35, MA9 is $3,368.93, " + "MA21 is $3,367.09," ==
      "ETH close price is $3,371.35, MA9 is $3,368.93, MA21 is $3,367.09,";
  }

  lemma EthSentenceSegments()
    ensures "ETH " + "close price is $3,371.35," + " " + "MA9 is $3,368.93," + " " + "MA21 is $3,367.09," + " and " + "MA50 is $3,361.92." == EthSentence
  {
    EthSentenceMiddle();
    assert "ETH close price is $3,371.35, MA9 is $3,368.93, MA21 is $3,367.09," + " and " ==
      "ETH close price is $3,371.35, MA9 is $3,368.93, MA21 is $3,367.09, and ";
  }

  /** "3,ddd.dd" reads, once its comma is removed, as the price it spells. */
  lemma ReadsCommaPrice(lead: char, rest: string, cents: string)
    requires IsDigit(lead) && |rest| == 3 && forall i :: 0 <= i < 3 ==> IsDigit(rest[i])
    requires |cents| == 2 && IsDigit(cents[0]) && IsDigit(cents[1])
    ensures ReadNumber([lead] + "," + rest + "." + cents) ==
      Ok((DigitsValue([lead] + rest) * 100 + DigitsValue(cents)) as real / 100.0)
  {
    var t := [lead] + "," + rest + "." + cents;
    assert RemoveCommas(t) == [lead] + rest + "." + cents by {
      RemoveThousandsComma([lead], rest + "." + cents);
      assert t == [lead] + "," + (rest + "." + cents);
      assert [lead] + (rest + "." + cents) == [lead] + rest + "." + cents;
    }
    ParseCents([lead] + rest, cents);
  }

  /** No match of the close price pattern starts in the words before its keyword. */
  lemma CloseNoEarlierMatch(s: string)
    requires "ETH " <= s
    ensures forall j :: 0 <= j < 4 ==> MatchAt(s, j, ClosePatterns[0]).None?
  {
    var pat := ClosePatterns[0];
    NoMatchInPiece(s, "", "ETH ", 0, 4, pat);
  }

  /** In a text that begins like the sentence up to the close price reading, the close price pattern
      captures that reading's number. */
  lemma CloseCapture(s: string)
    requires "ETH " + "close price is $3,371.35," <= s
    ensures Capture(s, ClosePatterns[0]) == Some("3,371.35")
  {
    PrefixShorten("ETH ", "close price is $3,371.35,", s);
    CloseNoEarlierMatch(s);
    assert "close price is $3,371.35," == "close price is " + "$" + "3,371" + "." + "35" + ",";
    CaptureAfterKeyword(s, "ETH ", 4, "3,371", "35", ",", ClosePatterns[0]);
    assert "3,371" + "." + "35" == "3,371.35";
  }

  /** No match of the MA9 pattern starts in the words before its keyword. */
  lemma Ma9NoEarlierMatch(s: string)
    requires "ETH " + "close price is $3,371.35," + " " <= s
    ensures forall j :: 0 <= j < 30 ==> MatchAt(s, j, MaPatterns(Ma9)[0]).None?
  {
    var pat := MaPatterns(Ma9)[0];
    var a, b, c := "ETH ", "close price is $3,371.35,", " ";
    PrefixShorten(a + b, c, s);
    PrefixShorten(a, b, s);
    NoMatchInPiece(s, "", a, 0, 4, pat);
    NoMatchInPiece(s, a, b, 4, 29, pat);
    NoMatchJoin(s, pat, 4, 29);
    NoMatchInPiece(s, a + b, c, 29, 30, pat);
    NoMatchJoin(s, pat, 29, 30);
  }

  /** In a text that begins like the sentence up to the MA9 reading, the MA9 pattern
      captures that reading's number. */
  lemma Ma9Capture(s: string)
    requires "ETH " + "close price is $3,371.35," + " " + "MA9 is $3,368.93," <= s
    ensures Capture(s, MaPatterns(Ma9)[0]) == Some("3,368.93")
  {
    PrefixShorten("ETH " + "close price is $3,371.35," + " ", "MA9 is $3,368.93,", s);
    Ma9NoEarlierMatch(s);
    assert "MA9 is $3,368.93," == "MA9 is " + "$" + "3,368" + "." + "93" + ",";
    CaptureAfterKeyword(s, "ETH " + "close price is $3,371.35," + " ", 30, "3,368", "93", ",", MaPatterns(Ma9)[0]);
    assert "3,368" + "." + "93" == "3,368.93";
  }

  /** No match of the MA21 pattern starts in the words before its keyword. */
  lemma Ma21NoEarlierMatch(s: string)
    requires "ETH " + "close price is $3,371.35," + " " + "MA9 is $3,368.93," + " " <= s
    ensures forall j :: 0 <= j < 48 ==> MatchAt(s, j, MaPatterns(Ma21)[0]).None?
  {
    var pat := MaPatterns(Ma21)[0];
    var a, b, c, d, e := "ETH ", "close price is $3,371.35,", " ", "MA9 is $3,368.93,", " ";
    PrefixShorten(a + b + c + d, e, s);
    PrefixShorten(a + b + c, d, s);
    PrefixShorten(a + b, c, s);
    PrefixShorten(a, b, s);
    NoMatchInPiece(s, "", a, 0, 4, pat);
    NoMatchInPiece(s, a, b, 4, 29, pat);
    NoMatchJoin(s, pat, 4, 29);
    NoMatchInPiece(s, a + b, c, 29, 30, pat);
    NoMatchJoin(s, pat, 29, 30);
    NoMatchAtMismatch(s, a + b + c, d, 30, 2, pat);
    NoMatchJoinOne(s, pat, 30, 31);
    NoMatchInPiece(s, a + b + c, d, 31, 47, pat);
    NoMatchJoin(s, pat, 31, 47);
    NoMatchInPiece(s, a + b + c + d, e, 47, 48, pat);
    NoMatchJoin(s, pat, 47, 48);
  }

  /** In a text that begins like the sentence up to the MA21 reading, the MA21 pattern
      captures that reading's number. */
  lemma Ma21Capture(s: string)
    requires "ETH " + "close price is $3,371.35," + " " + "MA9 is $3,368.93," + " " + "MA21 is $3,367.09," <= s
    ensures Capture(s, MaPatterns(Ma21)[0]) == Some("3,367.09")
  {
    PrefixShorten("ETH " + "close price is $3,371.35," + " " + "MA9 is $3,368.93," + " ", "MA21 is $3,367.09,", s);
    Ma21NoEarlierMatch(s);
    assert "MA21 is $3,367.09," == "MA21 is " + "$" + "3,367" + "." + "09" + ",";
    CaptureAfterKeyword(s, "ETH " + "close price is $3,371.35," + " " + "MA9 is $3,368.93," + " ", 48, "3,367", "09", ",", MaPatterns(Ma21)[0]);
    assert "3,367" + "." + "09" == "3,367.09";
  }

  /** No match of the MA50 pattern starts in the close price and MA9 readings. */
  lemma Ma50NoMatchBeforeMa21(s: string)
    requires "ETH " + "close price is $3,371.35," + " " + "MA9 is $3,368.93," + " " <= s
    ensures forall j :: 0 <= j < 48 ==> MatchAt(s, j, MaPatterns(Ma50)[0]).None?
  {
    var pat := MaPatterns(Ma50)[0];
    var a, b, c, d, e := "ETH ", "close price is $3,371.35,", " ", "MA9 is $3,368.93,", " ";
    PrefixShorten(a + b + c + d, e, s);
    PrefixShorten(a + b + c, d, s);
    PrefixShorten(a + b, c, s);
    PrefixShorten(a, b, s);
    NoMatchInPiece(s, "", a, 0, 4, pat);
    NoMatchInPiece(s, a, b, 4, 29, pat);
    NoMatchJoin(s, pat, 4, 29);
    NoMatchInPiece(s, a + b, c, 29, 30, pat);
    NoMatchJoin(s, pat, 29, 30);
    NoMatchAtMismatch(s, a + b + c, d, 30, 2, pat);
    NoMatchJoinOne(s, pat, 30, 31);
    NoMatchInPiece(s, a + b + c, d, 31, 47, pat);
    NoMatchJoin(s, pat, 31, 47);
    NoMatchInPiece(s, a + b + c + d, e, 47, 48, pat);
    NoMatchJoin(s, pat, 47, 48);
  }

  /** No match of the MA50 pattern starts in the words before its keyword. */
  lemma Ma50NoEarlierMatch(s: string)
    requires "ETH " + "close price is $3,371.35," + " " + "MA9 is $3,368.93," + " " + "MA21 is $3,367.09," + " and " <= s
    ensures forall j :: 0 <= j < 71 ==> MatchAt(s, j, MaPatterns(Ma50)[0]).None?
  {
    var pat := MaPatterns(Ma50)[0];
    var a, b, c, d, e, f, g := "ETH ", "close price is $3,371.35,", " ", "MA9 is $3,368.93,", " ", "MA21 is $3,367.09,", " and ";
    PrefixShorten(a + b + c + d + e + f, g, s);
    PrefixShorten(a + b + c + d + e, f, s);
    Ma50NoMatchBeforeMa21(s);
    NoMatchAtMismatch(s, a + b + c + d + e, f, 48, 2, pat);
    NoMatchJoinOne(s, pat, 48, 49);
    NoMatchInPiece(s, a + b + c + d + e, f, 49, 66, pat);
    NoMatchJoin(s, pat, 49, 66);
    NoMatchInPiece(s, a + b + c + d + e + f, g, 66, 71, pat);
    NoMatchJoin(s, pat, 66, 71);
  }

  /** In a text that begins like the sentence up to the MA50 reading, the MA50 pattern
      captures that reading's number. */
  lemma Ma50Capture(s: string)
    requires "ETH " + "close price is $3,371.35," + " " + "MA9 is $3,368.93," + " " + "MA21 is $3,367.09," + " and " + "MA50 is $3,361.92." <= s
    ensures Capture(s, MaPatterns(Ma50)[0]) == Some("3,361.92")
  {
    PrefixShorten("ETH " + "close price is $3,371.35," + " " + "MA9 is $3,368.93," + " " + "MA21 is $3,367.09," + " and ", "MA50 is $3,361.92.", s);
    Ma50NoEarlierMatch(s);
    assert "MA50 is $3,361.92." == "MA50 is " + "$" + "3,361" + "." + "92" + ".";
    CaptureAfterKeyword(s, "ETH " + "close price is $3,371.35," + " " + "MA9 is $3,368.93," + " " + "MA21 is $3,367.09," + " and ", 71, "3,361", "92", ".", MaPatterns(Ma50)[0]);
    assert "3,361" + "." + "92" == "3,361.92";
  }

  /** In a text that begins with the sentence, each pattern captures its reading. */
  lemma SentenceCaptures(s: string)
    requires "ETH " + "close price is $3,371.35," + " " + "MA9 is $3,368.93," + " " + "MA21 is $3,367.09," + " and " + "MA50 is $3,361.92." <= s
    ensures Capture(s, ClosePatterns[0]) == Some("3,371.35")
    ensures Capture(s, MaPatterns(Ma9)[0]) == Some("3,368.93")
    ensures Capture(s, MaPatterns(Ma21)[0]) == Some("3,367.09")
    ensures Capture(s, MaPatterns(Ma50)[0]) == Some("3,361.92")
  {
    PrefixShorten("ETH " + "close price is $3,371.35," + " " + "MA9 is $3,368.93," + " " + "MA21 is $3,367.09," + " and ", "MA50 is $3,361.92.", s);
    PrefixShorten("ETH " + "close price is $3,371.35," + " " + "MA9 is $3,368.93," + " " + "MA21 is $3,367.09,", " and ", s);
    PrefixShorten("ETH " + "close price is $3,371.35," + " " + "MA9 is $3,368.93," + " ", "MA21 is $3,367.09,", s);
    PrefixShorten("ETH " + "close price is $3,371.35," + " " + "MA9 is $3,368.93,", " ", s);
    PrefixShorten("ETH " + "close price is $3,371.35," + " ", "MA9 is $3,368.93,", s);
    PrefixShorten("ETH " + "close price is $3,371.35,", " ", s);
    CloseCapture(s);
    Ma9Capture(s);
    Ma21Capture(s);
    Ma50Capture(s);
  }

  /** The close price reading converts to 3371.35. */
  lemma ClosePrice()
    ensures ReadNumber("3,371.35") == Ok(3371.35)
  {
    assert "3,371.35" == ['3'] + "," + "371" + "." + "35";
    ReadsCommaPrice('3', "371", "35");
    assert ['3'] + "371" == "3371";
    FourDigitsValue("3371");
    TwoDigitsValue("35");
  }

  /** Once the close price pattern captures its reading, the reading is 3371.35. */
  lemma CloseReading(s: string)
    requires Capture(s, ClosePatterns[0]) == Some("3,371.35")
    ensures ReadFirst(s, ClosePatterns) == Ok(Some(3371.35))
  {
    ClosePrice();
    ReadFirstOfCapture(s, ClosePatterns, "3,371.35");
  }

  /** The MA9 reading converts to 3368.93. */
  lemma Ma9Price()
    ensures ReadNumber("3,368.93") == Ok(3368.93)
  {
    assert "3,368.93" == ['3'] + "," + "368" + "." + "93";
    ReadsCommaPrice('3', "368", "93");
    assert ['3'] + "368" == "3368";
    FourDigitsValue("3368");
    TwoDigitsValue("93");
  }

  /** Once the MA9 pattern captures its reading, the reading is 3368.93. */
  lemma Ma9Reading(s: string)
    requires Capture(s, MaPatterns(Ma9)[0]) == Some("3,368.93")
    ensures ReadFirst(s, MaPatterns(Ma9)) == Ok(Some(3368.93))
  {
    Ma9Price();
    ReadFirstOfCapture(s, MaPatterns(Ma9), "3,368.93");
  }

  /** The MA21 reading converts to 3367.09. */
  lemma Ma21Price()
    ensures ReadNumber("3,367.09") == Ok(3367.09)
  {
    assert "3,367.09" == ['3'] + "," + "367" + "." + "09";
    ReadsCommaPrice('3', "367", "09");
    assert ['3'] + "367" == "3367";
    FourDigitsValue("3367");
    TwoDigitsValue("09");
  }

  /** Once the MA21 pattern captures its reading, the reading is 3367.09. */
  lemma Ma21Reading(s: string)
    requires Capture(s, MaPatterns(Ma21)[0]) == Some("3,367.09")
    ensures ReadFirst(s, MaPatterns(Ma21)) == Ok(Some(3367.09))
  {
    Ma21Price();
    ReadFirstOfCapture(s, MaPatterns(Ma21), "3,367.09");
  }

  /** The MA50 reading converts to 3361.92. */
  lemma Ma50Price()
    ensures ReadNumber("3,361.92") == Ok(3361.92)
  {
    assert "3,361.92" == ['3'] + "," + "361" + "." + "92";
    ReadsCommaPrice('3', "361", "92");
    assert ['3'] + "361" == "3361";
    FourDigitsValue("3361");
    TwoDigitsValue("92");
  }

  /** Once the MA50 pattern captures its reading, the reading is 3361.92. */
  lemma Ma50Reading(s: string)
    requires Capture(s, MaPatterns(Ma50)[0]) == Some("3,361.92")
    ensures ReadFirst(s, MaPatterns(Ma50)) == Ok(Some(3361.92))
  {
    Ma50Price();
    ReadFirstOfCapture(s, MaPatterns(Ma50), "3,361.92");
  }

  /** The four captures read as the close price and the three averages. */
  lemma ReadingsOfCaptures(s: string)
    requires Capture(s, ClosePatterns[0]) == Some("3,371.35")
    requires Capture(s, MaPatterns(Ma9)[0]) == Some("3,368.93")
    requires Capture(s, MaPatterns(Ma21)[0]) == Some("3,367.09")
    requires Capture(s, MaPatterns(Ma50)[0]) == Some("3,361.92")
    ensures MaValuesOf(s) == Ok(MaValues(Some(3371.35), Some(3368.93), Some(3367.09), Some(3361.92)))
  {
    CloseReading(s);
    Ma9Reading(s);
    Ma21Reading(s);
    Ma50Reading(s);
  }

  /** The four readings of a full report sentence: the close price and the three averages,
      each with its thousands separator removed. */
  lemma MaValuesOfEthSentence()
    ensures MaValuesOf("ETH close price is $3,371.35, MA9 is $3,368.93, MA21 is $3,367.09, and MA50 is $3,361.92.") ==
      Ok(MaValues(Some(3371.35), Some(3368.93), Some(3367.09), Some(3361.92)))
  {
    EthSentenceSegments();
    SentenceCaptures(EthSentence);
    ReadingsOfCaptures(EthSentence);
  }

  /** One `for pattern in patterns: ... break` loop: the number of the first pattern that
      matches, with its commas removed. */
  method ReadFirstValue(s: string, pats: seq<Pattern>) returns (r: Outcome<Option<real>>)
    ensures r == ReadFirst(s, pats)
  {
    r := Ok(None);
    var n := 0;
    while n < |pats|
      invariant 0 <= n <= |pats|
      invariant forall m :: 0 <= m < n ==> Capture(s, pats[m]).None?
      invariant r == Ok(None)
    {
      var c := Capture(s, pats[n]);
      if c.Some? {
        var v := ReadNumber(c.value);
        r := if v.Ok? then Ok(Some(v.value)) else Raised(v.error);
        break;
      }
      n := n + 1;
    }
  }

  method ExtractMaValues(s: string) returns (r: Outcome<MaValues>)
    ensures r == MaValuesOf(s)
  {
    var close := ReadFirstValue(s, ClosePatterns);
    if close.Raised? {
      return Raised(close.error);
    }
    var ma9 := ReadFirstValue(s, MaPatterns(Ma9));
    if ma9.Raised? {
      return Raised(ma9.error);
    }
    var ma21 := ReadFirstValue(s, MaPatterns(Ma21));
    if ma21.Raised? {
      return Raised(ma21.error);
    }
    var ma50 := ReadFirstValue(s, MaPatterns(Ma50));
    if ma50.Raised? {
      return Raised(ma50.error);
    }
    r := Ok(MaValues(close.value, ma9.value, ma21.value, ma50.value));
  }

  /** `RSI.*?is ([\d.]+)`, `RSI.*?([\d.]+)`, `(\d+\.?\d*)\s*RSI`, ignoring case. */
  const RsiPatterns: seq<Pattern> := [
    Keyed(["RSI"], true, "is ", false, DigitsAndDots, "", true),
    Keyed(["RSI"], true, "", false, DigitsAndDots, "", true),
    Suffixed(PlainNumber, "RSI", true)]

  /** The RSI value: `float` of the first capture, with no comma removal. */
  function RsiValueOf(s: string): (r: Outcome<Option<real>>)
    ensures FirstCapture(s, RsiPatterns).None? ==> r == Ok(None)
    ensures r.Raised? ==> r.error == ValueError
    ensures r.Ok? && r.value.Some? ==> r.value.value >= 0.0
    ensures r.Ok? && r.value.Some? ==>
      FirstCapture(s, RsiPatterns).Some? && ParseFloat(FirstCapture(s, RsiPatterns).value) == Some(r.value.value)
    ensures r.Raised? <==> FirstCapture(s, RsiPatterns).Some? && ParseFloat(FirstCapture(s, RsiPatterns).value).None?
  {
    var c := FirstCapture(s, RsiPatterns);
    if c.None? then Ok(None)
    else
      var v := ParseFloat(c.value);
      if v.Some? then Ok(Some(v.value)) else Raised(ValueError)
  }

  /** A number followed by a no-break space and "RSI" is read by the third pattern. */
  lemma RsiAfterNoBreakSpace()
    ensures RsiValueOf("12\U{A0}RSI") == Ok(Some(12.0))
  {
    var s := "12\U{A0}RSI";
    assert OccursAt(s, 3, "RSI", true);
    forall n | 0 <= n < 2
      ensures Capture(s, RsiPatterns[n]).None?
    {
      var pat := RsiPatterns[n];
      forall k | 0 <= k <= |s|
        ensures MatchAt(s, k, pat).None?
      {
        if k == 3 {
          assert Scan(s, 6, pat).None?;
          AlternativeNeedsKeyword(s, k, pat, 1);
        } else {
          if k < 3 {
            assert s[k] == '1' || s[k] == '2' || s[k] == 160 as char;
            assert !SameLetter(s[k + 0], "RSI"[0]);
          }
          assert !OccursAt(s, k, "RSI", true);
          AlternativeNeedsKeyword(s, k, pat, 0);
        }
      }
      SearchLeftmost(s, pat);
    }
    var third := RsiPatterns[2];
    assert RunEnd(s, 2, IsDigit) == 2;
    assert RunEnd(s, 3, IsSpace) == 3;
    assert RunEnd(s, 2, IsSpace) == 3;
    assert TokenEnd(s, 0, PlainNumber) == Some(2);
    assert MatchAt(s, 0, third) == Some((0, 2));
    assert Search(s, third) == Some((0, 2));
    assert s[0..2] == "12";
    assert Capture(s, third) == Some("12");
    assert DigitsValue("12") == 12 by {
      assert "12"[..1] == "1" && "1"[..0] == "";
    }
    assert DigitRunEnd("12", 0) == 2;
    assert FirstCapture(s, RsiPatterns) == Some("12");
  }

  /** The RSI pattern loop. */
  method ReadRsi(s: string) returns (r: Outcome<Option<real>>)
    ensures r == RsiValueOf(s)
  {
    r := Ok(None);
    var n := 0;
    while n < |RsiPatterns|
      invariant 0 <= n <= |RsiPatterns|
      invariant forall m :: 0 <= m < n ==> Capture(s, RsiPatterns[m]).None?
      invariant r == Ok(None)
    {
      var c := Capture(s, RsiPatterns[n]);
      if c.Some? {
        var v := ParseFloat(c.value);
        r := if v.Some? then Ok(Some(v.value)) else Raised(ValueError);
        break;
      }
      n := n + 1;
    }
  }

  /** `[\d,]+(?:\.\d+)?` after a keyword, optionally lazily and with a trailer, ignoring case. */
  function VolumePattern(keyword: string, lazy: bool, trailer: string): Pattern
  {
    Keyed([keyword], lazy, "", false, GroupedNumber, trailer, true)
  }

  /** `volume is (...)`, `volume.*?(...)`. */
  const VolumePatterns: seq<Pattern> := [VolumePattern("volume is ", false, ""), VolumePattern("volume", true, "")]

  /** `avg of (...)`, `average.*?(...)`, `vs.*?(...).*?avg`. */
  const AvgPatterns: seq<Pattern> := [VolumePattern("avg of ", false, ""), VolumePattern("average", true, ""),
                                      VolumePattern("vs", true, "avg")]

  /** `VWAP.*?is \$?(...)`, `VWAP.*?\$?(...)`. */
  const VwapPatterns: seq<Pattern> := [Keyed(["VWAP"], true, "is ", true, CommaNumber, "", true),
                                       Keyed(["VWAP"], true, "", true, CommaNumber, "", true)]

  /** `current price \$?(...)`, `vs.*?\$?(...)`, `price \$?(...)`. */
  const PricePatterns: seq<Pattern> := [PricePattern(["current price "], false, true), PricePattern(["vs"], true, true),
                                        PricePattern(["price "], false, true)]

  // ---------------------------------------------------------------------------------
  // Interpretations
  // ---------------------------------------------------------------------------------

  /** Where the close stands against a moving average. */
  datatype Position = Above | Below | AtAverage

  function PositionName(p: Position): string
  {
    match p
    case Above => "above"
    case Below => "below"
    case AtAverage => "at"
  }

  function PositionSuggestion(p: Position): string
  {
    match p
    case Above => "Price above moving average suggests upward momentum"
    case Below => "Price below moving average suggests downward momentum"
    case AtAverage => "Price at moving average suggests consolidation"
  }

  /** `((close - ma) / ma) * 100`. */
  function PercentFrom(value: real, base: real): real
    requires base != 0.0
  {
    (value - base) / base * 100.0
  }

  function PositionOf(pct: real): Position
  {
    if pct > 0.0 then Above else if pct < 0.0 then Below else AtAverage
  }

  /** Against a positive average the sign of the difference is the side the close is on. */
  lemma PositionAgainstPositiveAverage(close: real, ma: real)
    requires ma > 0.0
    ensures PositionOf(PercentFrom(close, ma)) == Above <==> close > ma
    ensures PositionOf(PercentFrom(close, ma)) == Below <==> close < ma
    ensures PositionOf(PercentFrom(close, ma)) == AtAverage <==> close == ma
  {
    PercentSign(close, ma);
  }

  lemma PercentSignAny(value: real, base: real)
    requires base != 0.0
    ensures base > 0.0 ==> (PercentFrom(value, base) > 0.0 <==> value > base) && (PercentFrom(value, base) < 0.0 <==> value < base)
  {
    if base > 0.0 {
      PercentSign(value, base);
    }
  }

  lemma PercentSign(value: real, base: real)
    requires base > 0.0
    ensures PercentFrom(value, base) > 0.0 <==> value > base
    ensures PercentFrom(value, base) < 0.0 <==> value < base
  {
    var d := value - base;
    assert d / base * 100.0 > 0.0 <==> d > 0.0 by {
      if d > 0.0 {
        assert d / base > 0.0;
      } else {
        assert d / base <= 0.0;
      }
    }
    assert d / base * 100.0 < 0.0 <==> d < 0.0 by {
      if d < 0.0 {
        assert d / base < 0.0;
      } else {
        assert d / base >= 0.0;
      }
    }
  }

  /** The price formatting branch: two decimals from 1 up, six below. */
  datatype PriceFormat = TwoDecimals | SixDecimals

  function FormatFor(close: real): PriceFormat
  {
    if close >= 1.0 then TwoDecimals else SixDecimals
  }

  datatype RsiInterpretation = Overbought | Oversold | BullishMomentum | BearishMomentum | RsiNotAvailable

  function RsiText(i: RsiInterpretation): string
  {
    match i
    case Overbought => "Overbought condition - potential sell signal"
    case Oversold => "Oversold condition - potential buy signal"
    case BullishMomentum => "Bullish momentum - above neutral"
    case BearishMomentum => "Bearish momentum - below neutral"
    case RsiNotAvailable => "RSI value not available"
  }

  /** The RSI bands: strict bounds at 70, 30 and 50; a missing or zero value has none. */
  function InterpretRsi(v: Option<real>): (i: RsiInterpretation)
    ensures i == RsiNotAvailable <==> !Truthy(v)
    ensures i == Overbought <==> Truthy(v) && v.value > 70.0
    ensures i == Oversold <==> Truthy(v) && v.value < 30.0
    ensures i == BullishMomentum <==> Truthy(v) && 50.0 < v.value <= 70.0
    ensures i == BearishMomentum <==> Truthy(v) && 30.0 <= v.value <= 50.0
  {
    if Truthy(v) then
      if v.value > 70.0 then Overbought
      else if v.value < 30.0 then Oversold
      else if v.value > 50.0 then BullishMomentum
      else BearishMomentum
    else RsiNotAvailable
  }

  /** The band of the momentum tool's diagnosis that an interpretation names. */
  predicate SameBand(i: RsiInterpretation, d: Momentum.Diagnosis)
  {
    (i == Overbought && d == Momentum.RsiOverbought) || (i == Oversold && d == Momentum.RsiOversold) ||
    (i == BullishMomentum && d == Momentum.RsiBullish) || (i == BearishMomentum && d == Momentum.RsiBearish)
  }

  /** The momentum tool diagnoses the same RSI with inclusive bounds; the two readings name
      the same band for every non-zero value except exactly 30, 50 and 70. */
  lemma RsiBoundsDifferFromMomentumTool(v: real, assetType: string)
    requires v != 0.0 && assetType != Momentum.Stablecoin
    ensures SameBand(InterpretRsi(Some(v)), Momentum.RsiDiagnosis(v, assetType)) <==> v != 30.0 && v != 50.0 && v != 70.0
  {
  }

  datatype VolumeInterpretation = HighActivity | LowActivity | NormalActivity | VolumeNotAvailable

  function VolumeText(i: VolumeInterpretation): string
  {
    match i
    case HighActivity => "High trading activity - increased market interest"
    case LowActivity => "Low trading activity - reduced market interest"
    case NormalActivity => "Normal trading activity"
    case VolumeNotAvailable => "Volume data not available"
  }

  /** `current / avg`, computed only when both are truthy and the average is positive. */
  function VolumeRatio(current: Option<real>, avg: Option<real>): (r: Option<real>)
    ensures r.Some? <==> Truthy(current) && Truthy(avg) && avg.value > 0.0
  {
    if Truthy(current) && Truthy(avg) && avg.value > 0.0 then Some(current.value / avg.value) else None
  }

  function InterpretVolume(ratio: Option<real>): VolumeInterpretation
  {
    if ratio.Some? then
      if ratio.value > 1.5 then HighActivity
      else if ratio.value < 0.7 then LowActivity
      else NormalActivity
    else VolumeNotAvailable
  }

  /** With both volumes available, activity is high exactly above 1.5 times the average and
      low exactly below 0.7 times it. */
  lemma VolumeBands(current: real, avg: real)
    requires current != 0.0 && avg > 0.0
    ensures InterpretVolume(VolumeRatio(Some(current), Some(avg))) == HighActivity <==> current > 1.5 * avg
    ensures InterpretVolume(VolumeRatio(Some(current), Some(avg))) == LowActivity <==> current < 0.7 * avg
    ensures InterpretVolume(VolumeRatio(Some(current), Some(avg))) == NormalActivity <==> 0.7 * avg <= current <= 1.5 * avg
  {
    RatioAbove(current, avg, 1.5);
    RatioBelow(current, avg, 0.7);
  }

  lemma RatioAbove(x: real, y: real, k: real)
    requires y > 0.0
    ensures x / y > k <==> x > k * y
  {
    assert x / y * y == x;
    if x / y > k {
      assert x / y * y > k * y;
    }
  }

  lemma RatioBelow(x: real, y: real, k: real)
    requires y > 0.0
    ensures x / y < k <==> x < k * y
  {
    assert x / y * y == x;
    if x / y < k {
      assert x / y * y < k * y;
    }
  }

  datatype VwapInterpretation = StrongBuying | StrongSelling | BalancedSentiment | VwapNotAvailable

  function VwapText(i: VwapInterpretation): string
  {
    match i
    case StrongBuying => "Price significantly above VWAP - strong buying pressure"
    case StrongSelling => "Price significantly below VWAP - strong selling pressure"
    case BalancedSentiment => "Price near VWAP - balanced market sentiment"
    case VwapNotAvailable => "VWAP data not available"
  }

  /** The price's distance from the VWAP in percent, when both are truthy. */
  function PriceVsVwap(vwap: Option<real>, price: Option<real>): (r: Option<real>)
    ensures r.Some? <==> Truthy(vwap) && Truthy(price)
  {
    if Truthy(vwap) && Truthy(price) then Some(PercentFrom(price.value, vwap.value)) else None
  }

  function InterpretVwap(pct: Option<real>): VwapInterpretation
  {
    if pct.Some? then
      if pct.value > 1.0 then StrongBuying
      else if pct.value < -1.0 then StrongSelling
      else BalancedSentiment
    else VwapNotAvailable
  }

  /** Against a positive VWAP, buying pressure means a price above 101% of it and selling
      pressure a price below 99% of it. */
  lemma VwapBands(vwap: real, price: real)
    requires vwap > 0.0 && price != 0.0
    ensures InterpretVwap(PriceVsVwap(Some(vwap), Some(price))) == StrongBuying <==> price > 1.01 * vwap
    ensures InterpretVwap(PriceVsVwap(Some(vwap), Some(price))) == StrongSelling <==> price < 0.99 * vwap
  {
    var d := price - vwap;
    RatioAbove(d, vwap, 0.01);
    RatioBelow(d, vwap, -0.01);
  }

  // ---------------------------------------------------------------------------------
  // Indicators
  // ---------------------------------------------------------------------------------

  /** An entry of `crypto_indicators` (its `action` is always MONITOR). Numbers are kept
      exact; the formatted fields record which format they are printed in. */
  datatype CryptoIndicator =
    | MovingAverage(maType: MaType, symbol: Option<string>, close: real, ma: real, direction: Position,
                    percentageDifference: real, format: PriceFormat)
    | OverallTrend(diagnosis: string, priceData: MaValues)
    | RsiAnalysis(explanation: string, rsiValue: Option<real>, diagnosis: string, rsiInterpretation: RsiInterpretation)
    | VolumeAnalysis(explanation: string, currentVolume: Option<real>, avgVolume: Option<real>,
                     volumeRatio: Option<real>, diagnosis: string, volumeInterpretation: VolumeInterpretation)
    | VwapAnalysis(explanation: string, vwapValue: Option<real>, currentPrice: Option<real>,
                   priceVsVwap: Option<real>, diagnosis: string, vwapInterpretation: VwapInterpretation)
  {
    /** The `indicator` field. */
    function Name(): string
    {
      match this
      case MovingAverage(t, _, _, _, _, _, _) => MaTypeName(t) + " Moving Average Analysis"
      case OverallTrend(_, _) => "Overall Trend Analysis"
      case RsiAnalysis(_, _, _, _) => "RSI Analysis"
      case VolumeAnalysis(_, _, _, _, _, _) => "Volume Analysis"
      case VwapAnalysis(_, _, _, _, _, _) => "VWAP Analysis"
    }

    /** The `note` field. */
    function Note(): string
    {
      match this
      case MovingAverage(t, _, _, _, d, _, _) => "Price vs. " + MaTypeName(t) + ": " + PositionSuggestion(d)
      case OverallTrend(diagnosis, _) => "Based on moving average positioning: " + diagnosis
      case RsiAnalysis(explanation, _, _, _) => "RSI Trend: " + explanation
      case VolumeAnalysis(explanation, _, _, _, _, _) => "Volume Trend: " + explanation
      case VwapAnalysis(explanation, _, _, _, _, _) => "VWAP Trend: " + explanation
    }
  }

  /** `_create_ma_indicator`; its callers pass only a non-zero average. */
  function MaIndicator(t: MaType, close: real, ma: real, symbol: Option<string>): (m: CryptoIndicator)
    requires ma != 0.0
    ensures m.MovingAverage? && m.maType == t
    ensures ma > 0.0 ==> (m.direction == Above <==> close > ma) && (m.direction == Below <==> close < ma)
  {
    var pct := PercentFrom(close, ma);
    PercentSignAny(close, ma);
    MovingAverage(t, symbol, close, ma, PositionOf(pct), pct, FormatFor(close))
  }

  /** The MA indicator of one average, present when the close and that average are truthy. */
  function MaIndicatorIf(t: MaType, symbol: Option<string>, v: MaValues): (r: seq<CryptoIndicator>)
    ensures |r| <= 1
    ensures |r| == 1 <==> Truthy(v.close) && Truthy(v.Of(t))
  {
    if Truthy(v.close) && Truthy(v.Of(t)) then [MaIndicator(t, v.close.value, v.Of(t).value, symbol)] else []
  }

  /** The MA indicators of an asset, MA9, MA21, MA50 in that order. */
  function MaIndicators(symbol: Option<string>, v: MaValues): seq<CryptoIndicator>
  {
    MaIndicatorIf(Ma9, symbol, v) + MaIndicatorIf(Ma21, symbol, v) + MaIndicatorIf(Ma50, symbol, v)
  }

  /** The three conditional appends. */
  method AppendMaIndicators(symbol: Option<string>, v: MaValues) returns (indicators: seq<CryptoIndicator>)
    ensures indicators == MaIndicators(symbol, v)
  {
    indicators := [];
    if Truthy(v.close) && Truthy(v.ma9) {
      indicators := indicators + [MaIndicator(Ma9, v.close.value, v.ma9.value, symbol)];
    }
    if Truthy(v.close) && Truthy(v.ma21) {
      indicators := indicators + [MaIndicator(Ma21, v.close.value, v.ma21.value, symbol)];
    }
    if Truthy(v.close) && Truthy(v.ma50) {
      indicators := indicators + [MaIndicator(Ma50, v.close.value, v.ma50.value, symbol)];
    }
  }

  function MaRank(t: MaType): nat
  {
    match t
    case Ma9 => 0
    case Ma21 => 1
    case Ma50 => 2
  }

  /** Each average has an indicator exactly when it and the close are truthy; the indicators
      are all MA analyses, in the order MA9, MA21, MA50. */
  lemma MaIndicatorsShape(symbol: Option<string>, v: MaValues)
    ensures forall k :: 0 <= k < |MaIndicators(symbol, v)| ==> MaIndicators(symbol, v)[k].MovingAverage?
    ensures forall t :: (exists k :: 0 <= k < |MaIndicators(symbol, v)| && MaIndicators(symbol, v)[k].maType == t) <==>
      Truthy(v.close) && Truthy(v.Of(t))
    ensures forall k, l :: 0 <= k < l < |MaIndicators(symbol, v)| ==>
      MaRank(MaIndicators(symbol, v)[k].maType) < MaRank(MaIndicators(symbol, v)[l].maType)
  {
    var a, b, c := MaIndicatorIf(Ma9, symbol, v), MaIndicatorIf(Ma21, symbol, v), MaIndicatorIf(Ma50, symbol, v);
    assert MaIndicators(symbol, v) == a + b + c;
    MaIndicatorIfKind(Ma9, symbol, v);
    MaIndicatorIfKind(Ma21, symbol, v);
    MaIndicatorIfKind(Ma50, symbol, v);
    ThreeParts(a, b, c);
    forall t
      ensures (exists k :: 0 <= k < |a + b + c| && (a + b + c)[k].maType == t) <==> Truthy(v.close) && Truthy(v.Of(t))
    {
      match t
      case Ma9 =>
      case Ma21 =>
      case Ma50 =>
    }
  }

  /** The conditional MA indicator of an average is an MA analysis of that average. */
  lemma MaIndicatorIfKind(t: MaType, symbol: Option<string>, v: MaValues)
    ensures forall k :: 0 <= k < |MaIndicatorIf(t, symbol, v)| ==>
      MaIndicatorIf(t, symbol, v)[k].MovingAverage? && MaIndicatorIf(t, symbol, v)[k].maType == t
  {
  }

  /** MA9, MA21 and MA50 parts, each an MA analysis of its average, concatenated in that
      order. */
  lemma ThreeParts(a: seq<CryptoIndicator>, b: seq<CryptoIndicator>, c: seq<CryptoIndicator>)
    requires forall k :: 0 <= k < |a| ==> a[k].MovingAverage? && a[k].maType == Ma9
    requires forall k :: 0 <= k < |b| ==> b[k].MovingAverage? && b[k].maType == Ma21
    requires forall k :: 0 <= k < |c| ==> c[k].MovingAverage? && c[k].maType == Ma50
    requires |a| <= 1 && |b| <= 1 && |c| <= 1
    ensures forall k :: 0 <= k < |a + b + c| ==> (a + b + c)[k].MovingAverage?
    ensures (exists k :: 0 <= k < |a + b + c| && (a + b + c)[k].maType == Ma9) <==> |a| == 1
    ensures (exists k :: 0 <= k < |a + b + c| && (a + b + c)[k].maType == Ma21) <==> |b| == 1
    ensures (exists k :: 0 <= k < |a + b + c| && (a + b + c)[k].maType == Ma50) <==> |c| == 1
    ensures forall k, l :: 0 <= k < l < |a + b + c| ==> MaRank((a + b + c)[k].maType) < MaRank((a + b + c)[l].maType)
  {
    var r := a + b + c;
    assert forall k :: 0 <= k < |a| ==> r[k] == a[k];
    assert forall k :: |a| <= k < |a| + |b| ==> r[k] == b[k - |a|];
    assert forall k :: |a| + |b| <= k < |r| ==> r[k] == c[k - |a| - |b|];
    if |a| == 1 {
      assert r[0].maType == Ma9;
    }
    if |b| == 1 {
      assert r[|a|].maType == Ma21;
    }
    if |c| == 1 {
      assert r[|a| + |b|].maType == Ma50;
    }
  }

  /** `_create_rsi_indicator`. */
  function RsiIndicator(fluctuation: string, diagnosis: string): (r: Outcome<CryptoIndicator>)
    ensures r.Ok? ==> r.value.RsiAnalysis? && r.value.rsiInterpretation == InterpretRsi(r.value.rsiValue)
    ensures FirstCapture(fluctuation, RsiPatterns).None? ==> r.Ok? && r.value.rsiInterpretation == RsiNotAvailable
  {
    var v := RsiValueOf(fluctuation);
    if v.Raised? then Raised(v.error)
    else Ok(RsiAnalysis(fluctuation, v.value, diagnosis, InterpretRsi(v.value)))
  }

  method CreateRsiIndicator(fluctuation: string, diagnosis: string) returns (r: Outcome<CryptoIndicator>)
    ensures r == RsiIndicator(fluctuation, diagnosis)
  {
    var v := ReadRsi(fluctuation);
    if v.Raised? {
      return Raised(v.error);
    }
    r := Ok(RsiAnalysis(fluctuation, v.value, diagnosis, InterpretRsi(v.value)));
  }

  /** `_create_volume_indicator`. */
  function VolumeIndicator(fluctuation: string, diagnosis: string): (r: Outcome<CryptoIndicator>)
    ensures r.Ok? ==> r.value.VolumeAnalysis?
    ensures r.Ok? ==> r.value.volumeRatio == VolumeRatio(r.value.currentVolume, r.value.avgVolume)
    ensures r.Ok? ==> r.value.volumeInterpretation == InterpretVolume(r.value.volumeRatio)
    ensures r.Ok? ==> (r.value.volumeInterpretation == VolumeNotAvailable <==> !Truthy(r.value.currentVolume) || !Truthy(r.value.avgVolume))
  {
    var current := ReadFirst(fluctuation, VolumePatterns);
    var avg := ReadFirst(fluctuation, AvgPatterns);
    if current.Raised? then Raised(current.error)
    else if avg.Raised? then Raised(avg.error)
    else
      var ratio := VolumeRatio(current.value, avg.value);
      Ok(VolumeAnalysis(fluctuation, current.value, avg.value, ratio, diagnosis, InterpretVolume(ratio)))
  }

  method CreateVolumeIndicator(fluctuation: string, diagnosis: string) returns (r: Outcome<CryptoIndicator>)
    ensures r == VolumeIndicator(fluctuation, diagnosis)
  {
    var current := ReadFirstValue(fluctuation, VolumePatterns);
    if current.Raised? {
      return Raised(current.error);
    }
    var avg := ReadFirstValue(fluctuation, AvgPatterns);
    if avg.Raised? {
      return Raised(avg.error);
    }
    var ratio := VolumeRatio(current.value, avg.value);
    r := Ok(VolumeAnalysis(fluctuation, current.value, avg.value, ratio, diagnosis, InterpretVolume(ratio)));
  }

  /** `_create_vwap_indicator`. */
  function VwapIndicator(fluctuation: string, diagnosis: string): (r: Outcome<CryptoIndicator>)
    ensures r.Ok? ==> r.value.VwapAnalysis?
    ensures r.Ok? ==> r.value.priceVsVwap == PriceVsVwap(r.value.vwapValue, r.value.currentPrice)
    ensures r.Ok? ==> r.value.vwapInterpretation == InterpretVwap(r.value.priceVsVwap)
    ensures r.Ok? ==> (r.value.vwapInterpretation == VwapNotAvailable <==> !Truthy(r.value.vwapValue) || !Truthy(r.value.currentPrice))
  {
    var vwap := ReadFirst(fluctuation, VwapPatterns);
    var price := ReadFirst(fluctuation, PricePatterns);
    if vwap.Raised? then Raised(vwap.error)
    else if price.Raised? then Raised(price.error)
    else
      var pct := PriceVsVwap(vwap.value, price.value);
      Ok(VwapAnalysis(fluctuation, vwap.value, price.value, pct, diagnosis, InterpretVwap(pct)))
  }

  method CreateVwapIndicator(fluctuation: string, diagnosis: string) returns (r: Outcome<CryptoIndicator>)
    ensures r == VwapIndicator(fluctuation, diagnosis)
  {
    var vwap := ReadFirstValue(fluctuation, VwapPatterns);
    if vwap.Raised? {
      return Raised(vwap.error);
    }
    var price := ReadFirstValue(fluctuation, PricePatterns);
    if price.Raised? {
      return Raised(price.error);
    }
    var pct := PriceVsVwap(vwap.value, price.value);
    r := Ok(VwapAnalysis(fluctuation, vwap.value, price.value, pct, diagnosis, InterpretVwap(pct)));
  }

  // ---------------------------------------------------------------------------------
  // Loops that stop at the first exception
  // ---------------------------------------------------------------------------------

  /** The items a loop collects when each step contributes some items or raises: the
      concatenation, or the first step's exception. */
  function Gather<T>(rs: seq<Outcome<seq<T>>>): Outcome<seq<T>>
  {
    if |rs| == 0 then Ok([])
    else
      var init := Gather(rs[..|rs| - 1]);
      var last := rs[|rs| - 1];
      if init.Raised? then init else if last.Raised? then last else Ok(init.value + last.value)
  }

  /** The loop completes exactly when no step raises. */
  lemma {:induction false} GatherOk<T>(rs: seq<Outcome<seq<T>>>)
    ensures Gather(rs).Ok? <==> forall i :: 0 <= i < |rs| ==> rs[i].Ok?
  {
    if |rs| > 0 {
      var init := rs[..|rs| - 1];
      GatherOk(init);
      assert forall i :: 0 <= i < |init| ==> init[i] == rs[i];
    }
  }

  /** Once a prefix of the steps has raised, the loop has raised. */
  lemma {:induction false} GatherPrefixRaised<T>(rs: seq<Outcome<seq<T>>>, n: nat)
    requires n <= |rs| && Gather(rs[..n]).Raised?
    ensures Gather(rs) == Gather(rs[..n])
    decreases |rs| - n
  {
    if n < |rs| {
      assert rs[..n + 1][..n] == rs[..n];
      GatherPrefixRaised(rs, n + 1);
    } else {
      assert rs[..n] == rs;
    }
  }

  /** One more step of the loop: a raise so far stays, a raising step raises, and otherwise
      the step's items are appended. */
  lemma GatherStep<T>(rs: seq<Outcome<seq<T>>>, n: nat)
    requires n < |rs|
    ensures Gather(rs[..n + 1]) ==
      if Gather(rs[..n]).Raised? then Gather(rs[..n])
      else if rs[n].Raised? then rs[n]
      else Ok(Gather(rs[..n]).value + rs[n].value)
  {
    assert rs[..n + 1][..n] == rs[..n];
  }

  /** When every step contributes exactly one item, the loop yields them in order. */
  lemma {:induction false} GatherSingles<T>(rs: seq<Outcome<seq<T>>>)
    requires forall i :: 0 <= i < |rs| ==> rs[i].Ok? && |rs[i].value| == 1
    ensures Gather(rs).Ok? && |Gather(rs).value| == |rs|
    ensures forall i :: 0 <= i < |rs| ==> Gather(rs).value[i] == rs[i].value[0]
  {
    if |rs| > 0 {
      var init := rs[..|rs| - 1];
      assert forall i :: 0 <= i < |init| ==> init[i] == rs[i];
      GatherSingles(init);
    }
  }

  /** `except Exception: return []`. */
  function Caught<T>(r: Outcome<seq<T>>): seq<T>
  {
    if r.Ok? then r.value else []
  }

  /** One item, or the exception raised while making it. */
  function Single<T>(r: Outcome<T>): (o: Outcome<seq<T>>)
    ensures o.Ok? <==> r.Ok?
    ensures o.Ok? ==> o.value == [r.value]
  {
    if r.Ok? then Ok([r.value]) else Raised(r.error)
  }

  // ---------------------------------------------------------------------------------
  // Suggestions
  // ---------------------------------------------------------------------------------

  /** A suggestion: the asset, its type and description, and its indicators. */
  datatype Suggestion = Suggestion(asset: Option<string>, assetType: Option<string>, description: Option<string>,
                                   indicators: seq<CryptoIndicator>)

  /** `asset_type` and `description` of an analysed asset: the allocation's values when the
      asset is allocated (even when missing there), else "Cryptocurrency" and the symbol. */
  function Details(portfolio: seq<Entry<string, Holding>>, asset: Option<string>): (d: (Option<string>, Option<string>))
    ensures asset.Some? && Get(portfolio, asset.value).Some? ==>
      d == (Get(portfolio, asset.value).value.assetType, Get(portfolio, asset.value).value.description)
    ensures asset.None? || Get(portfolio, asset.value).None? ==> d == (Some("Cryptocurrency"), asset)
  {
    var h := if asset.Some? then Get(portfolio, asset.value) else None;
    if h.Some? then (h.value.assetType, h.value.description) else (Some("Cryptocurrency"), asset)
  }

  /** An allocated asset takes the type and description of its last allocation entry; one
      that is not allocated is labelled "Cryptocurrency" and described by its symbol. */
  lemma DetailsFromAllocation(docs: seq<AllocationDoc>, asset: Option<string>, n: nat)
    requires n < |docs| && asset == Some(docs[n].asset)
    requires forall m :: n < m < |docs| ==> docs[m].asset != docs[n].asset
    ensures Details(Portfolio(docs), asset) == (docs[n].assetType, docs[n].description)
  {
    FromPairsGet(AllocationPairs(docs), n);
  }

  lemma DetailsUnallocated(docs: seq<AllocationDoc>, asset: Option<string>)
    requires forall m :: 0 <= m < |docs| ==> asset != Some(docs[m].asset)
    ensures Details(Portfolio(docs), asset) == (Some("Cryptocurrency"), asset)
  {
    if asset.Some? {
      FromPairsMissing(AllocationPairs(docs), asset.value);
    }
  }

  /** The suggestion of one `crypto_trends` entry: its MA indicators, then the overall trend. */
  function TrendSuggestion(portfolio: seq<Entry<string, Holding>>, e: TrendEntry): Outcome<seq<Suggestion>>
  {
    var v := MaValuesOf(e.fluctuationAnswer);
    if v.Raised? then Raised(v.error)
    else
      var d := Details(portfolio, e.asset);
      Ok([Suggestion(e.asset, d.0, d.1, MaIndicators(e.asset, v.value) + [OverallTrend(e.diagnosis, v.value)])])
  }

  function TrendResults(portfolio: seq<Entry<string, Holding>>, trends: seq<TrendEntry>): (rs: seq<Outcome<seq<Suggestion>>>)
    ensures |rs| == |trends|
    ensures forall i :: 0 <= i < |trends| ==> rs[i] == TrendSuggestion(portfolio, trends[i])
  {
    seq(|trends|, i requires 0 <= i < |trends| => TrendSuggestion(portfolio, trends[i]))
  }

  /** `fetch_crypto_suggestions_trend_based`: nothing without a report or trends, else one
      suggestion per trend entry; an exception anywhere gives nothing. */
  function TrendSuggestions(report: Option<CryptoReport>): seq<Suggestion>
  {
    if report.None? || |report.value.trends| == 0 then []
    else Caught(Gather(TrendResults(Portfolio(report.value.allocation), report.value.trends)))
  }

  /** The body of the trend loop for one entry. */
  method SuggestForTrend(portfolio: seq<Entry<string, Holding>>, e: TrendEntry) returns (r: Outcome<seq<Suggestion>>)
    ensures r == TrendSuggestion(portfolio, e)
  {
    var values := ExtractMaValues(e.fluctuationAnswer);
    if values.Raised? {
      return Raised(values.error);
    }
    var details := Details(portfolio, e.asset);
    var indicators := AppendMaIndicators(e.asset, values.value);
    indicators := indicators + [OverallTrend(e.diagnosis, values.value)];
    r := Ok([Suggestion(e.asset, details.0, details.1, indicators)]);
  }

  method FetchTrendSuggestions(report: Option<CryptoReport>) returns (suggestions: seq<Suggestion>)
    ensures suggestions == TrendSuggestions(report)
  {
    if report.None? || |report.value.trends| == 0 {
      return [];
    }
    var trends := report.value.trends;
    var portfolio := Collect(AllocationPairs(report.value.allocation));
    ghost var rs := TrendResults(portfolio, trends);
    suggestions := [];
    for n := 0 to |trends|
      invariant Gather(rs[..n]) == Ok(suggestions)
    {
      var step := SuggestForTrend(portfolio, trends[n]);
      GatherStep(rs, n);
      if step.Raised? {
        GatherPrefixRaised(rs, n + 1);
        return [];
      }
      suggestions := suggestions + step.value;
    }
    assert rs[..|trends|] == rs;
  }

  /** When every trend sentence reads, there is one suggestion per trend entry, in order,
      for that entry's asset, ending with the overall trend entry that quotes its diagnosis. */
  lemma TrendSuggestionsShape(report: CryptoReport)
    requires |report.trends| > 0
    requires forall k :: 0 <= k < |report.trends| ==> MaValuesOf(report.trends[k].fluctuationAnswer).Ok?
    ensures |TrendSuggestions(Some(report))| == |report.trends|
    ensures forall k :: 0 <= k < |report.trends| ==>
      TrendSuggestions(Some(report))[k].asset == report.trends[k].asset &&
      |TrendSuggestions(Some(report))[k].indicators| > 0 &&
      Last(TrendSuggestions(Some(report))[k].indicators).OverallTrend? &&
      Last(TrendSuggestions(Some(report))[k].indicators).diagnosis == report.trends[k].diagnosis
  {
    var portfolio := Portfolio(report.allocation);
    var rs := TrendResults(portfolio, report.trends);
    TrendResultsShape(portfolio, report.trends);
    GatherSingles(rs);
    assert TrendSuggestions(Some(report)) == Gather(rs).value;
  }

  /** Each trend step yields one suggestion for its asset, ending with the overall trend. */
  lemma TrendResultsShape(portfolio: seq<Entry<string, Holding>>, trends: seq<TrendEntry>)
    requires forall k :: 0 <= k < |trends| ==> MaValuesOf(trends[k].fluctuationAnswer).Ok?
    ensures forall k :: 0 <= k < |trends| ==>
      var r := TrendResults(portfolio, trends)[k];
      r.Ok? && |r.value| == 1 && r.value[0].asset == trends[k].asset &&
      |r.value[0].indicators| > 0 && Last(r.value[0].indicators).OverallTrend? &&
      Last(r.value[0].indicators).diagnosis == trends[k].diagnosis
  {
    forall k | 0 <= k < |trends|
      ensures var r := TrendResults(portfolio, trends)[k];
        r.Ok? && |r.value| == 1 && r.value[0].asset == trends[k].asset &&
        |r.value[0].indicators| > 0 && Last(r.value[0].indicators).OverallTrend? &&
        Last(r.value[0].indicators).diagnosis == trends[k].diagnosis
    {
      TrendSuggestionOk(portfolio, trends[k]);
    }
  }

  lemma TrendSuggestionOk(portfolio: seq<Entry<string, Holding>>, e: TrendEntry)
    requires MaValuesOf(e.fluctuationAnswer).Ok?
    ensures TrendSuggestion(portfolio, e).Ok? && |TrendSuggestion(portfolio, e).value| == 1
    ensures TrendSuggestion(portfolio, e).value[0].asset == e.asset
    ensures |TrendSuggestion(portfolio, e).value[0].indicators| > 0
    ensures Last(TrendSuggestion(portfolio, e).value[0].indicators) ==
      OverallTrend(e.diagnosis, MaValuesOf(e.fluctuationAnswer).value)
  {
  }

  /** A trend sentence whose number `float` rejects leaves no suggestions at all. */
  lemma TrendSuggestionsRaise(report: CryptoReport, k: nat)
    requires k < |report.trends| && MaValuesOf(report.trends[k].fluctuationAnswer).Raised?
    ensures TrendSuggestions(Some(report)) == []
  {
    var rs := TrendResults(Portfolio(report.allocation), report.trends);
    GatherOk(rs);
    assert !rs[k].Ok?;
  }

  function Last<T>(s: seq<T>): T
    requires |s| > 0
  {
    s[|s| - 1]
  }

  /** The indicator of one momentum entry: RSI, Volume and VWAP are analysed, any other name
      is skipped. */
  function IndicatorOf(e: IndicatorEntry): Outcome<seq<CryptoIndicator>>
  {
    if e.indicatorName == Some("RSI") then Single(RsiIndicator(e.fluctuationAnswer, e.diagnosis))
    else if e.indicatorName == Some("Volume") then Single(VolumeIndicator(e.fluctuationAnswer, e.diagnosis))
    else if e.indicatorName == Some("VWAP") then Single(VwapIndicator(e.fluctuationAnswer, e.diagnosis))
    else Ok([])
  }

  function IndicatorResults(entries: seq<IndicatorEntry>): (rs: seq<Outcome<seq<CryptoIndicator>>>)
    ensures |rs| == |entries|
    ensures forall i :: 0 <= i < |entries| ==> rs[i] == IndicatorOf(entries[i])
  {
    seq(|entries|, i requires 0 <= i < |entries| => IndicatorOf(entries[i]))
  }

  /** The analysed indicators of a momentum entry, in order. */
  function IndicatorsOf(entries: seq<IndicatorEntry>): Outcome<seq<CryptoIndicator>>
  {
    Gather(IndicatorResults(entries))
  }

  /** One step of the `for indicator_data in momentum_indicators_data` loop: the indicator
      to append, if any. */
  method AnalyseIndicator(e: IndicatorEntry) returns (r: Outcome<seq<CryptoIndicator>>)
    ensures r == IndicatorOf(e)
  {
    var made: Outcome<CryptoIndicator>;
    if e.indicatorName == Some("RSI") {
      made := CreateRsiIndicator(e.fluctuationAnswer, e.diagnosis);
    } else if e.indicatorName == Some("Volume") {
      made := CreateVolumeIndicator(e.fluctuationAnswer, e.diagnosis);
    } else if e.indicatorName == Some("VWAP") {
      made := CreateVwapIndicator(e.fluctuationAnswer, e.diagnosis);
    } else {
      return Ok([]);
    }
    r := if made.Ok? then Ok([made.value]) else Raised(made.error);
  }

  /** The `for indicator_data in momentum_indicators_data` loop. */
  method AnalyseIndicators(entries: seq<IndicatorEntry>) returns (r: Outcome<seq<CryptoIndicator>>)
    ensures r == IndicatorsOf(entries)
  {
    ghost var rs := IndicatorResults(entries);
    var indicators := [];
    for n := 0 to |entries|
      invariant Gather(rs[..n]) == Ok(indicators)
    {
      assert rs[..n + 1][..n] == rs[..n];
      var step := AnalyseIndicator(entries[n]);
      if step.Raised? {
        GatherPrefixRaised(rs, n + 1);
        return Raised(step.error);
      }
      indicators := indicators + step.value;
    }
    assert rs[..|entries|] == rs;
    r := Ok(indicators);
  }

  /** An indicator name the service analyses. */
  predicate Known(e: IndicatorEntry)
  {
    e.indicatorName in {Some("RSI"), Some("Volume"), Some("VWAP")}
  }

  function KnownCount(entries: seq<IndicatorEntry>): nat
  {
    if |entries| == 0 then 0
    else KnownCount(entries[..|entries| - 1]) + (if Known(entries[|entries| - 1]) then 1 else 0)
  }

  /** Analysed indicators are RSI, Volume and VWAP analyses only, one per entry with one of
      those names. */
  lemma {:induction false} IndicatorsOfShape(entries: seq<IndicatorEntry>)
    requires IndicatorsOf(entries).Ok?
    ensures |IndicatorsOf(entries).value| == KnownCount(entries)
    ensures AllAnalyses(IndicatorsOf(entries).value)
  {
    if |entries| > 0 {
      var n := |entries| - 1;
      IndicatorsOfSnoc(entries);
      IndicatorsOfShape(entries[..n]);
      IndicatorOfShape(entries[n]);
      AnalysesConcat(IndicatorsOf(entries[..n]).value, IndicatorOf(entries[n]).value);
    }
  }

  /** The analysed indicators of all entries are those of all but the last, then the last's. */
  lemma IndicatorsOfSnoc(entries: seq<IndicatorEntry>)
    requires |entries| > 0
    ensures var n := |entries| - 1;
      IndicatorsOf(entries).Ok? ==>
        IndicatorsOf(entries[..n]).Ok? && IndicatorOf(entries[n]).Ok? &&
        IndicatorsOf(entries).value == IndicatorsOf(entries[..n]).value + IndicatorOf(entries[n]).value
  {
    var n := |entries| - 1;
    var rs := IndicatorResults(entries);
    assert IndicatorResults(entries[..n]) == rs[..n];
    assert rs[..n + 1] == rs;
    GatherStep(rs, n);
  }

  predicate AllAnalyses(xs: seq<CryptoIndicator>)
  {
    forall k :: 0 <= k < |xs| ==> Analysis(xs[k])
  }

  lemma AnalysesConcat(a: seq<CryptoIndicator>, b: seq<CryptoIndicator>)
    requires AllAnalyses(a) && AllAnalyses(b)
    ensures AllAnalyses(a + b)
  {
    forall k | 0 <= k < |a + b|
      ensures Analysis((a + b)[k])
    {
      if k < |a| {
        assert (a + b)[k] == a[k];
      } else {
        assert (a + b)[k] == b[k - |a|];
      }
    }
  }

  /** An RSI, Volume or VWAP analysis. */
  predicate Analysis(i: CryptoIndicator)
  {
    i.RsiAnalysis? || i.VolumeAnalysis? || i.VwapAnalysis?
  }

  /** One entry gives one analysis when its name is known and nothing otherwise. */
  lemma IndicatorOfShape(e: IndicatorEntry)
    requires IndicatorOf(e).Ok?
    ensures |IndicatorOf(e).value| == if Known(e) then 1 else 0
    ensures AllAnalyses(IndicatorOf(e).value)
  {
  }

  /** The suggestion of one `crypto_momentum_indicators` entry. */
  function MomentumSuggestion(portfolio: seq<Entry<string, Holding>>, m: MomentumEntry): Outcome<seq<Suggestion>>
  {
    var indicators := IndicatorsOf(m.indicators);
    if indicators.Raised? then Raised(indicators.error)
    else
      var d := Details(portfolio, m.asset);
      Ok([Suggestion(m.asset, d.0, d.1, indicators.value)])
  }

  function MomentumResults(portfolio: seq<Entry<string, Holding>>, momentum: seq<MomentumEntry>): (rs: seq<Outcome<seq<Suggestion>>>)
    ensures |rs| == |momentum|
    ensures forall i :: 0 <= i < |momentum| ==> rs[i] == MomentumSuggestion(portfolio, momentum[i])
  {
    seq(|momentum|, i requires 0 <= i < |momentum| => MomentumSuggestion(portfolio, momentum[i]))
  }

  /** `fetch_crypto_suggestions_momentum_based`: nothing without a report or momentum entries,
      else one suggestion per momentum entry; an exception anywhere gives nothing. */
  function MomentumSuggestions(report: Option<CryptoReport>): seq<Suggestion>
  {
    if report.None? || |report.value.momentum| == 0 then []
    else Caught(Gather(MomentumResults(Portfolio(report.value.allocation), report.value.momentum)))
  }

  /** The body of the momentum loop for one entry. */
  method SuggestForMomentum(portfolio: seq<Entry<string, Holding>>, m: MomentumEntry) returns (r: Outcome<seq<Suggestion>>)
    ensures r == MomentumSuggestion(portfolio, m)
  {
    var indicators := AnalyseIndicators(m.indicators);
    if indicators.Raised? {
      return Raised(indicators.error);
    }
    var details := Details(portfolio, m.asset);
    r := Ok([Suggestion(m.asset, details.0, details.1, indicators.value)]);
  }

  method FetchMomentumSuggestions(report: Option<CryptoReport>) returns (suggestions: seq<Suggestion>)
    ensures suggestions == MomentumSuggestions(report)
  {
    if report.None? || |report.value.momentum| == 0 {
      return [];
    }
    var momentum := report.value.momentum;
    var portfolio := Collect(AllocationPairs(report.value.allocation));
    ghost var rs := MomentumResults(portfolio, momentum);
    suggestions := [];
    for n := 0 to |momentum|
      invariant Gather(rs[..n]) == Ok(suggestions)
    {
      var step := SuggestForMomentum(portfolio, momentum[n]);
      GatherStep(rs, n);
      if step.Raised? {
        GatherPrefixRaised(rs, n + 1);
        return [];
      }
      suggestions := suggestions + step.value;
    }
    assert rs[..|momentum|] == rs;
  }

  /** The `trend_analysis` lookup: the last trend entry of each asset. */
  function TrendLookup(trends: seq<TrendEntry>): seq<Entry<Option<string>, TrendEntry>>
  {
    FromPairs(AssetTrendPairs(trends))
  }

  function AssetTrendPairs(trends: seq<TrendEntry>): seq<(Option<string>, TrendEntry)>
  {
    seq(|trends|, i requires 0 <= i < |trends| => (trends[i].asset, trends[i]))
  }

  /** The `momentum_analysis` lookup: the last momentum entry of each asset. */
  function MomentumLookup(momentum: seq<MomentumEntry>): seq<Entry<Option<string>, MomentumEntry>>
  {
    FromPairs(AssetMomentumPairs(momentum))
  }

  function AssetMomentumPairs(momentum: seq<MomentumEntry>): seq<(Option<string>, MomentumEntry)>
  {
    seq(|momentum|, i requires 0 <= i < |momentum| => (momentum[i].asset, momentum[i]))
  }

  /** The MA indicators of an allocated asset with a trend entry. */
  function TrendPart(symbol: string, t: Option<TrendEntry>): Outcome<seq<CryptoIndicator>>
  {
    if t.None? then Ok([])
    else
      var v := MaValuesOf(t.value.fluctuationAnswer);
      if v.Raised? then Raised(v.error) else Ok(MaIndicators(Some(symbol), v.value))
  }

  /** The momentum indicators of an allocated asset with a momentum entry. */
  function MomentumPart(m: Option<MomentumEntry>): Outcome<seq<CryptoIndicator>>
  {
    if m.None? then Ok([]) else IndicatorsOf(m.value.indicators)
  }

  /** The comprehensive suggestion of one allocated asset: its MA indicators, then its
      momentum indicators; no overall trend entry. */
  function ComprehensiveSuggestion(trends: seq<Entry<Option<string>, TrendEntry>>, momentum: seq<Entry<Option<string>, MomentumEntry>>,
                                   e: Entry<string, Holding>): Outcome<seq<Suggestion>>
  {
    var maPart := TrendPart(e.key, Get(trends, Some(e.key)));
    var momentumPart := MomentumPart(Get(momentum, Some(e.key)));
    if maPart.Raised? then Raised(maPart.error)
    else if momentumPart.Raised? then Raised(momentumPart.error)
    else Ok([Suggestion(Some(e.key), e.value.assetType, e.value.description, maPart.value + momentumPart.value)])
  }

  function ComprehensiveResults(trends: seq<Entry<Option<string>, TrendEntry>>, momentum: seq<Entry<Option<string>, MomentumEntry>>,
                                portfolio: seq<Entry<string, Holding>>): (rs: seq<Outcome<seq<Suggestion>>>)
    ensures |rs| == |portfolio|
    ensures forall i :: 0 <= i < |portfolio| ==> rs[i] == ComprehensiveSuggestion(trends, momentum, portfolio[i])
  {
    seq(|portfolio|, i requires 0 <= i < |portfolio| => ComprehensiveSuggestion(trends, momentum, portfolio[i]))
  }

  /** `fetch_crypto_suggestions_comprehensive`: nothing without a report, else one suggestion
      per allocated symbol in allocation order; an exception anywhere gives nothing. */
  function ComprehensiveSuggestions(report: Option<CryptoReport>): seq<Suggestion>
  {
    if report.None? then []
    else
      var r := report.value;
      Caught(Gather(ComprehensiveResults(TrendLookup(r.trends), MomentumLookup(r.momentum), Portfolio(r.allocation))))
  }

  /** The body of the comprehensive loop for one allocated symbol. */
  method SuggestForAllocation(trends: seq<Entry<Option<string>, TrendEntry>>, momentum: seq<Entry<Option<string>, MomentumEntry>>,
                              e: Entry<string, Holding>) returns (r: Outcome<seq<Suggestion>>)
    ensures r == ComprehensiveSuggestion(trends, momentum, e)
  {
    var symbol := e.key;
    var trend := Get(trends, Some(symbol));
    var analysis := Get(momentum, Some(symbol));
    var indicators := [];
    if trend.Some? {
      var values := ExtractMaValues(trend.value.fluctuationAnswer);
      if values.Raised? {
        return Raised(values.error);
      }
      indicators := AppendMaIndicators(Some(symbol), values.value);
    }
    assert TrendPart(symbol, trend) == Ok(indicators);
    var more: seq<CryptoIndicator> := [];
    if analysis.Some? {
      var analysed := AnalyseIndicators(analysis.value.indicators);
      if analysed.Raised? {
        return Raised(analysed.error);
      }
      more := analysed.value;
    }
    assert MomentumPart(analysis) == Ok(more);
    indicators := indicators + more;
    r := Ok([Suggestion(Some(symbol), e.value.assetType, e.value.description, indicators)]);
  }

  method FetchComprehensiveSuggestions(report: Option<CryptoReport>) returns (suggestions: seq<Suggestion>)
    ensures suggestions == ComprehensiveSuggestions(report)
  {
    if report.None? {
      return [];
    }
    var r := report.value;
    var portfolio := Collect(AllocationPairs(r.allocation));
    var trends := Collect(AssetTrendPairs(r.trends));
    var momentum := Collect(AssetMomentumPairs(r.momentum));
    ghost var rs := ComprehensiveResults(trends, momentum, portfolio);
    suggestions := [];
    for n := 0 to |portfolio|
      invariant Gather(rs[..n]) == Ok(suggestions)
    {
      var step := SuggestForAllocation(trends, momentum, portfolio[n]);
      GatherStep(rs, n);
      if step.Raised? {
        GatherPrefixRaised(rs, n + 1);
        return [];
      }
      suggestions := suggestions + step.value;
    }
    assert rs[..|portfolio|] == rs;
  }

  /** A comprehensive suggestion holds MA and momentum analyses only, never an overall trend
      entry. */
  lemma ComprehensiveHasNoOverallTrend(trends: seq<Entry<Option<string>, TrendEntry>>,
                                       momentum: seq<Entry<Option<string>, MomentumEntry>>, e: Entry<string, Holding>)
    requires ComprehensiveSuggestion(trends, momentum, e).Ok?
    ensures |ComprehensiveSuggestion(trends, momentum, e).value| == 1
    ensures forall j :: 0 <= j < |ComprehensiveSuggestion(trends, momentum, e).value[0].indicators| ==>
      !ComprehensiveSuggestion(trends, momentum, e).value[0].indicators[j].OverallTrend?
  {
    var t := Get(trends, Some(e.key));
    var m := Get(momentum, Some(e.key));
    var maPart := TrendPart(e.key, t);
    var momentumPart := MomentumPart(m);
    if t.Some? {
      MaIndicatorsShape(Some(e.key), MaValuesOf(t.value.fluctuationAnswer).value);
    }
    if m.Some? {
      IndicatorsOfShape(m.value.indicators);
    }
    assert NoOverallTrend(maPart.value);
    assert NoOverallTrend(momentumPart.value);
    NoOverallTrendConcat(maPart.value, momentumPart.value);
  }

  predicate NoOverallTrend(xs: seq<CryptoIndicator>)
  {
    forall j :: 0 <= j < |xs| ==> !xs[j].OverallTrend?
  }

  lemma NoOverallTrendConcat(a: seq<CryptoIndicator>, b: seq<CryptoIndicator>)
    requires NoOverallTrend(a) && NoOverallTrend(b)
    ensures NoOverallTrend(a + b)
  {
    forall j | 0 <= j < |a + b|
      ensures !(a + b)[j].OverallTrend?
    {
      if j < |a| {
        assert (a + b)[j] == a[j];
      } else {
        assert (a + b)[j] == b[j - |a|];
      }
    }
  }

  /** When nothing raises, there is one comprehensive suggestion per allocated symbol, in the
      order of each symbol's first allocation entry, so analysed assets that are not
      allocated get none. */
  lemma ComprehensiveCoversAllocation(report: CryptoReport)
    requires Gather(ComprehensiveResults(TrendLookup(report.trends), MomentumLookup(report.momentum), Portfolio(report.allocation))).Ok?
    ensures |ComprehensiveSuggestions(Some(report))| == |KeyOrder(AllocationPairs(report.allocation))|
    ensures forall k :: 0 <= k < |ComprehensiveSuggestions(Some(report))| ==>
      ComprehensiveSuggestions(Some(report))[k].asset == Some(KeyOrder(AllocationPairs(report.allocation))[k]) &&
      forall j :: 0 <= j < |ComprehensiveSuggestions(Some(report))[k].indicators| ==>
        !ComprehensiveSuggestions(Some(report))[k].indicators[j].OverallTrend?
  {
    var portfolio := Portfolio(report.allocation);
    var trends, momentum := TrendLookup(report.trends), MomentumLookup(report.momentum);
    var rs := ComprehensiveResults(trends, momentum, portfolio);
    GatherOk(rs);
    forall k | 0 <= k < |rs|
      ensures rs[k].Ok? && |rs[k].value| == 1
      ensures forall j :: 0 <= j < |rs[k].value[0].indicators| ==> !rs[k].value[0].indicators[j].OverallTrend?
    {
      ComprehensiveHasNoOverallTrend(trends, momentum, portfolio[k]);
    }
    GatherSingles(rs);
    FromPairsKeyOrder(AllocationPairs(report.allocation));
  }
}
