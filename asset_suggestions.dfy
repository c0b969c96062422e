/** Rule-based allocation suggestions for the traditional portfolio, read from the latest
    market-analysis report: one set driven by the three macroeconomic indicators (GDP, the
    effective interest rate and the unemployment rate) through a fixed rule table, and one
    driven by the VIX level, each asset's VIX sensitivity and its trend. */
module AssetSuggestions {
  import opened Wrappers
  import opened Text
  import opened Patterns
  import opened OrderedDict

  datatype Action = Keep | Reduce

  // ---------------------------------------------------------------------------------
  // Report and portfolio records
  // ---------------------------------------------------------------------------------

  /** One entry of the report's `macro_indicators`; a missing fluctuation answer reads "". */
  datatype MacroIndicatorEntry = MacroIndicatorEntry(macroIndicator: Option<string>, fluctuationAnswer: string)

  /** One entry of the report's `asset_trends`; a missing diagnosis reads "". */
  datatype AssetTrendEntry = AssetTrendEntry(asset: Option<string>, diagnosis: string)

  /** The report's `market_volatility_index`, present only when it is a non-empty dict. */
  datatype VolatilityIndex = VolatilityIndex(fluctuationAnswer: string)

  /** The `report` of the latest market-analysis document; absent parts are empty. */
  datatype MarketAnalysis = MarketAnalysis(
    macroIndicators: seq<MacroIndicatorEntry>,
    volatility: Option<VolatilityIndex>,
    assetTrends: seq<AssetTrendEntry>)

  /** One portfolio-allocation document, with the fields the suggestions copy. */
  datatype PortfolioDoc = PortfolioDoc(symbol: string, description: Option<string>, assetType: Option<string>)

  datatype Holding = Holding(description: Option<string>, assetType: Option<string>)

  /** The `portfolio_allocation` dict: symbol to holding, a later document for the same
      symbol replacing the earlier one in its place. */
  function Portfolio(docs: seq<PortfolioDoc>): seq<Entry<string, Holding>>
  {
    FromPairs(PortfolioPairs(docs))
  }

  /** A suggestion for one portfolio asset, with its per-indicator recommendations. */
  datatype AssetSuggestion<R> = AssetSuggestion(asset: string, assetType: Option<string>, description: Option<string>, macroIndicators: seq<R>)

  // ---------------------------------------------------------------------------------
  // Indicator directions
  // ---------------------------------------------------------------------------------

  datatype Indicator = Gdp | InterestRate | Unemployment

  /** The order of the `indicators_directions` dict. */
  const Indicators: seq<Indicator> := [Gdp, InterestRate, Unemployment]

  function IndicatorName(i: Indicator): string
  {
    match i
    case Gdp => "GDP"
    case InterestRate => "Effective Interest Rate"
    case Unemployment => "Unemployment Rate"
  }

  /** The indicator an entry's `macro_indicator` names, if any. */
  function IndicatorNamed(name: Option<string>): (i: Option<Indicator>)
    ensures i.Some? ==> name == Some(IndicatorName(i.value))
    ensures i.None? ==> forall j :: name != Some(IndicatorName(j))
  {
    if name == Some("GDP") then Some(Gdp)
    else if name == Some("Effective Interest Rate") then Some(InterestRate)
    else if name == Some("Unemployment Rate") then Some(Unemployment)
    else None
  }

  datatype Direction = Up | Down | Neutral

  function DirectionName(d: Direction): string
  {
    match d
    case Up => "up"
    case Down => "down"
    case Neutral => "neutral"
  }

  /** The direction a fluctuation sentence announces, if any: "up by" is checked first,
      then "down by", on the lower-cased sentence. */
  function ReadDirection(fluctuation: string): (d: Option<Direction>)
    ensures d != Some(Neutral)
    ensures d == Some(Up) <==> Contains(Lower(fluctuation), "up by")
    ensures d == Some(Down) <==> !Contains(Lower(fluctuation), "up by") && Contains(Lower(fluctuation), "down by")
    ensures d.None? <==> !Contains(Lower(fluctuation), "up by") && !Contains(Lower(fluctuation), "down by")
  {
    var f := Lower(fluctuation);
    if Contains(f, "up by") then Some(Up)
    else if Contains(f, "down by") then Some(Down)
    else None
  }

  /** The three direction variables. */
  datatype Directions = Directions(gdp: Direction, interestRate: Direction, unemployment: Direction)
  {
    function Of(i: Indicator): Direction
    {
      match i
      case Gdp => gdp
      case InterestRate => interestRate
      case Unemployment => unemployment
    }

    function With(i: Indicator, d: Direction): Directions
    {
      match i
      case Gdp => this.(gdp := d)
      case InterestRate => this.(interestRate := d)
      case Unemployment => this.(unemployment := d)
    }
  }

  /** An entry that names indicator `i` and announces a direction. */
  predicate Signals(e: MacroIndicatorEntry, i: Indicator)
  {
    IndicatorNamed(e.macroIndicator) == Some(i) && ReadDirection(e.fluctuationAnswer).Some?
  }

  /** The directions after reading the entries in order: each entry that announces a
      direction overwrites its indicator's, and an entry announcing none changes nothing. */
  function DirectionsAfter(entries: seq<MacroIndicatorEntry>): Directions
  {
    if |entries| == 0 then Directions(Neutral, Neutral, Neutral)
    else
      var d := DirectionsAfter(entries[..|entries| - 1]);
      var e := entries[|entries| - 1];
      var i := IndicatorNamed(e.macroIndicator);
      var dir := ReadDirection(e.fluctuationAnswer);
      if i.Some? && dir.Some? then d.With(i.value, dir.value) else d
  }

  /** The direction loop over the report's macro indicators. */
  method ReadDirections(entries: seq<MacroIndicatorEntry>) returns (d: Directions)
    ensures d == DirectionsAfter(entries)
  {
    var gdp, rate, unemployment := Neutral, Neutral, Neutral;
    for n := 0 to |entries|
      invariant Directions(gdp, rate, unemployment) == DirectionsAfter(entries[..n])
    {
      assert entries[..n + 1][..n] == entries[..n];
      var name := entries[n].macroIndicator;
      var fluctuation := Lower(entries[n].fluctuationAnswer);
      if name == Some("GDP") {
        if Contains(fluctuation, "up by") {
          gdp := Up;
        } else if Contains(fluctuation, "down by") {
          gdp := Down;
        }
      } else if name == Some("Effective Interest Rate") {
        if Contains(fluctuation, "up by") {
          rate := Up;
        } else if Contains(fluctuation, "down by") {
          rate := Down;
        }
      } else if name == Some("Unemployment Rate") {
        if Contains(fluctuation, "up by") {
          unemployment := Up;
        } else if Contains(fluctuation, "down by") {
          unemployment := Down;
        }
      }
    }
    assert entries[..|entries|] == entries;
    d := Directions(gdp, rate, unemployment);
  }

  /** The last entry that announces a direction for an indicator decides it. */
  lemma {:induction false} LastSignalWins(entries: seq<MacroIndicatorEntry>, n: nat, i: Indicator)
    requires n < |entries| && Signals(entries[n], i)
    requires forall m :: n < m < |entries| ==> !Signals(entries[m], i)
    ensures DirectionsAfter(entries).Of(i) == ReadDirection(entries[n].fluctuationAnswer).value
  {
    var init := entries[..|entries| - 1];
    if n < |entries| - 1 {
      LastSignalWins(init, n, i);
    }
  }

  /** An indicator stays neutral exactly when no entry announces a direction for it. */
  lemma {:induction false} NeutralWithoutSignal(entries: seq<MacroIndicatorEntry>, i: Indicator)
    ensures DirectionsAfter(entries).Of(i) == Neutral <==> forall m :: 0 <= m < |entries| ==> !Signals(entries[m], i)
  {
    if |entries| > 0 {
      var init, last := entries[..|entries| - 1], entries[|entries| - 1];
      NeutralWithoutSignal(init, i);
      LastEntryStep(entries, i);
      if !Signals(last, i) {
        assert forall m :: 0 <= m < |init| ==> init[m] == entries[m];
      }
    }
  }

  /** What the last entry does to indicator `i`: sets it when it signals `i`, and leaves the
      earlier entries' direction otherwise. */
  lemma LastEntryStep(entries: seq<MacroIndicatorEntry>, i: Indicator)
    requires |entries| > 0
    ensures Signals(entries[|entries| - 1], i) ==>
      DirectionsAfter(entries).Of(i) == ReadDirection(entries[|entries| - 1].fluctuationAnswer).value
    ensures !Signals(entries[|entries| - 1], i) ==>
      DirectionsAfter(entries).Of(i) == DirectionsAfter(entries[..|entries| - 1]).Of(i)
  {
  }

  // ---------------------------------------------------------------------------------
  // The rule table and conflicts
  // ---------------------------------------------------------------------------------

  /** The four asset types the rule table knows. */
  datatype AssetClass = Equity | Bonds | RealEstate | Commodity

  /** The table key an `asset_type` matches, if any. */
  function ClassOf(assetType: Option<string>): (c: Option<AssetClass>)
    ensures c == Some(Equity) <==> assetType == Some("Equity")
    ensures c == Some(Bonds) <==> assetType == Some("Bonds")
    ensures c == Some(RealEstate) <==> assetType == Some("Real Estate")
    ensures c == Some(Commodity) <==> assetType == Some("Commodity")
  {
    if assetType == Some("Equity") then Some(Equity)
    else if assetType == Some("Bonds") then Some(Bonds)
    else if assetType == Some("Real Estate") then Some(RealEstate)
    else if assetType == Some("Commodity") then Some(Commodity)
    else None
  }

  /** The entry of a table row for one asset class. */
  function ByClass<T>(c: AssetClass, equity: T, bonds: T, realEstate: T, commodity: T): T
  {
    match c
    case Equity => equity
    case Bonds => bonds
    case RealEstate => realEstate
    case Commodity => commodity
  }

  /** The action of `rules[indicator][direction][asset_type]` for a known asset type. */
  function RuleAction(i: Indicator, d: Direction, c: AssetClass): Action
  {
    match (i, d)
    case (Gdp, Up) => ByClass(c, Keep, Reduce, Keep, Keep)
    case (Gdp, Down) => ByClass(c, Reduce, Keep, Reduce, Reduce)
    case (InterestRate, Up) => ByClass(c, Reduce, Keep, Reduce, Reduce)
    case (InterestRate, Down) => ByClass(c, Keep, Reduce, Keep, Keep)
    case (Unemployment, Up) => ByClass(c, Reduce, Keep, Reduce, Reduce)
    case (Unemployment, Down) => ByClass(c, Keep, Reduce, Keep, Keep)
    case (_, Neutral) => Keep
  }

  /** The explanation of `rules[indicator][direction][asset_type]` for a known asset type. */
  function RuleText(i: Indicator, d: Direction, c: AssetClass): string
  {
    match (i, d)
    case (Gdp, Up) => ByClass(c,
      "Increase Equity assets due to rising GDP indicating economic growth.",
      "Reduce Bond assets as rising GDP typically favors equity over fixed income.",
      "Keep Real Estate as rising GDP supports property values and rental income.",
      "Keep Commodities as economic growth increases demand for raw materials.")
    case (Gdp, Down) => ByClass(c,
      "Reduce Equity assets as declining GDP indicates economic contraction.",
      "Increase Bond assets as declining GDP favors safer fixed income investments.",
      "Reduce Real Estate as economic contraction may impact property values.",
      "Reduce Commodities as economic slowdown decreases industrial demand.")
    case (Gdp, Neutral) => "No change needed as GDP remains stable."
    case (InterestRate, Up) => ByClass(c,
      "Reduce Equity assets as higher rates increase cost of capital and discount future earnings.",
      "Increase Bond assets as rising rates provide better yields on new issuances.",
      "Reduce Real Estate as rising rates increase financing costs.",
      "Reduce Commodities as rising rates strengthen currency and reduce inflation hedge appeal.")
    case (InterestRate, Down) => ByClass(c,
      "Keep Equity assets as lower rates support corporate financing and valuations.",
      "Reduce Bond assets as falling rates decrease yield on new issuances.",
      "Increase Real Estate as declining rates lower financing costs and improve yields.",
      "Keep Commodities as falling rates may weaken currency and increase inflation risk.")
    case (InterestRate, Neutral) => "No change needed as interest rates remain stable."
    case (Unemployment, Up) => ByClass(c,
      "Reduce Equity assets as rising unemployment signals weaker consumer spending and earnings.",
      "Keep Bond assets as rising unemployment may lead to accommodative monetary policy.",
      "Reduce Real Estate as rising unemployment may impact demand and rental income.",
      "Reduce Commodities as rising unemployment indicates weakening economic activity.")
    case (Unemployment, Down) => ByClass(c,
      "Increase Equity assets as declining unemployment supports consumer spending and earnings.",
      "Reduce Bond assets as improving labor market may lead to tighter monetary policy.",
      "Keep Real Estate as improving employment supports housing demand.",
      "Keep Commodities as lower unemployment supports economic growth and consumption.")
    case (Unemployment, Neutral) => "No change needed as unemployment remains stable."
  }

  /** How the asset type is printed in the default explanation (`None` for a missing one). */
  function TypeText(assetType: Option<string>): string
  {
    if assetType.Some? then assetType.value else "None"
  }

  /** The explanation an entry carries: the table's sentence for a known asset class, or
      the default sentence naming the asset type, the indicator and its direction. */
  datatype Explanation =
    | RuleExplanation(i: Indicator, d: Direction, c: AssetClass)
    | DefaultExplanation(assetType: Option<string>, i: Indicator, d: Direction)
  {
    /** The sentence as the suggestion document stores it. */
    function Text(): string
    {
      match this
      case RuleExplanation(i, d, c) => RuleText(i, d, c)
      case DefaultExplanation(assetType, i, d) =>
        "Default recommendation for " + TypeText(assetType) + " under " + IndicatorName(i) + " " + DirectionName(d) + " condition."
    }
  }

  /** The recommendation of one indicator for one asset: the table's, or KEEP with the
      default explanation for an asset type the table does not know. */
  function Recommend(i: Indicator, d: Direction, assetType: Option<string>): (a: (Action, Explanation))
    ensures ClassOf(assetType).None? ==> a == (Keep, DefaultExplanation(assetType, i, d))
    ensures ClassOf(assetType).Some? ==> a == (RuleAction(i, d, ClassOf(assetType).value), RuleExplanation(i, d, ClassOf(assetType).value))
  {
    var c := ClassOf(assetType);
    if c.Some? then (RuleAction(i, d, c.value), RuleExplanation(i, d, c.value))
    else (Keep, DefaultExplanation(assetType, i, d))
  }

  /** The action alone, as the conflict check reads it (its default is KEEP as well). */
  function ActionOf(i: Indicator, d: Direction, assetType: Option<string>): Action
  {
    var c := ClassOf(assetType);
    if c.Some? then RuleAction(i, d, c.value) else Keep
  }

  /** The conflict check reads the same action the recommendation gives. */
  lemma ActionOfRecommend(i: Indicator, d: Direction, assetType: Option<string>)
    ensures ActionOf(i, d, assetType) == Recommend(i, d, assetType).0
  {
  }

  /** A neutral indicator keeps every asset, known or not. */
  lemma NeutralKeeps(i: Indicator, assetType: Option<string>)
    ensures ActionOf(i, Neutral, assetType) == Keep
  {
  }

  /** An asset type the table does not know is kept under every indicator and never
      conflicts. */
  lemma UnknownTypeKept(dirs: Directions, assetType: Option<string>, i: Indicator)
    requires ClassOf(assetType).None?
    ensures ActionOf(i, dirs.Of(i), assetType) == Keep
    ensures Conflicts(ActionsFor(dirs, assetType), i) == []
  {
    ConflictsAgree(ActionsFor(dirs, assetType), i);
  }

  /** The table's shape: bonds move against equities on every announced direction, and real
      estate and commodities always move with equities. */
  lemma TableShape(i: Indicator, d: Direction)
    ensures d != Neutral ==> RuleAction(i, d, Bonds) != RuleAction(i, d, Equity)
    ensures RuleAction(i, d, RealEstate) == RuleAction(i, d, Equity)
    ensures RuleAction(i, d, Commodity) == RuleAction(i, d, Equity)
  {
    match (i, d)
    case (Gdp, Up) =>
    case (Gdp, Down) =>
    case (Gdp, Neutral) =>
    case (InterestRate, Up) =>
    case (InterestRate, Down) =>
    case (InterestRate, Neutral) =>
    case (Unemployment, Up) =>
    case (Unemployment, Down) =>
    case (Unemployment, Neutral) =>
  }

  /** The three indicators' actions for one asset. */
  datatype IndicatorActions = IndicatorActions(gdp: Action, interestRate: Action, unemployment: Action)
  {
    function Of(i: Indicator): Action
    {
      match i
      case Gdp => gdp
      case InterestRate => interestRate
      case Unemployment => unemployment
    }
  }

  function ActionsFor(dirs: Directions, assetType: Option<string>): (acts: IndicatorActions)
    ensures forall i :: acts.Of(i) == ActionOf(i, dirs.Of(i), assetType)
  {
    IndicatorActions(ActionOf(Gdp, dirs.gdp, assetType), ActionOf(InterestRate, dirs.interestRate, assetType),
                     ActionOf(Unemployment, dirs.unemployment, assetType))
  }

  /** The indicators of `among` other than `i` whose action differs from `i`'s, in order. */
  function ConflictsAmong(acts: IndicatorActions, i: Indicator, among: seq<Indicator>): (c: seq<Indicator>)
    ensures forall x :: x in c <==> x in among && x != i && acts.Of(x) != acts.Of(i)
  {
    if |among| == 0 then []
    else
      var earlier := ConflictsAmong(acts, i, among[..|among| - 1]);
      var x := among[|among| - 1];
      assert forall y :: y in among <==> y in among[..|among| - 1] || y == x;
      if x != i && acts.Of(x) != acts.Of(i) then earlier + [x] else earlier
  }

  /** `conflicts` of indicator `i`. */
  function Conflicts(acts: IndicatorActions, i: Indicator): seq<Indicator>
  {
    ConflictsAmong(acts, i, Indicators)
  }

  /** The conflict loop of one indicator. */
  method FindConflicts(dirs: Directions, assetType: Option<string>, i: Indicator) returns (conflicts: seq<Indicator>)
    ensures conflicts == Conflicts(ActionsFor(dirs, assetType), i)
  {
    var acts := ActionsFor(dirs, assetType);
    var action := ActionOf(i, dirs.Of(i), assetType);
    conflicts := [];
    for n := 0 to |Indicators|
      invariant conflicts == ConflictsAmong(acts, i, Indicators[..n])
    {
      assert Indicators[..n + 1][..n] == Indicators[..n];
      var other := Indicators[n];
      if other != i {
        var otherAction := ActionOf(other, dirs.Of(other), assetType);
        if otherAction != action {
          conflicts := conflicts + [other];
        }
      }
    }
    assert Indicators[..|Indicators|] == Indicators;
  }

  /** Conflicts list the disagreeing indicators once each, in table order. */
  lemma ConflictsInTableOrder(acts: IndicatorActions, i: Indicator)
    ensures Conflicts(acts, i) ==
      (if Gdp != i && acts.Of(Gdp) != acts.Of(i) then [Gdp] else []) +
      (if InterestRate != i && acts.Of(InterestRate) != acts.Of(i) then [InterestRate] else []) +
      (if Unemployment != i && acts.Of(Unemployment) != acts.Of(i) then [Unemployment] else [])
  {
    assert Indicators[..3] == Indicators;
    assert Indicators[..3][..2] == [Gdp, InterestRate];
    assert [Gdp, InterestRate][..1] == [Gdp];
    assert [Gdp][..0] == [];
  }

  /** When all three indicators agree there is no conflict anywhere. */
  lemma ConflictsAgree(acts: IndicatorActions, i: Indicator)
    requires acts.gdp == acts.interestRate == acts.unemployment
    ensures Conflicts(acts, i) == []
  {
    ConflictsInTableOrder(acts, i);
  }

  /** Disagreement goes both ways. */
  lemma ConflictsSymmetric(acts: IndicatorActions, x: Indicator, y: Indicator)
    ensures x in Conflicts(acts, y) <==> y in Conflicts(acts, x)
  {
  }

  /** With two actions and three indicators, either all agree or exactly one is the odd one
      out: it conflicts with both others, and each of them conflicts only with it. */
  lemma OddOneOut(acts: IndicatorActions)
    ensures (forall i :: Conflicts(acts, i) == []) ||
            exists odd :: |Conflicts(acts, odd)| == 2 &&
              forall j :: j != odd ==> Conflicts(acts, j) == [odd]
  {
    if acts.gdp == acts.interestRate == acts.unemployment {
      forall i {
        ConflictsAgree(acts, i);
      }
    } else {
      var odd := if acts.gdp == acts.interestRate then Unemployment
                 else if acts.gdp == acts.unemployment then InterestRate
                 else Gdp;
      var other := if odd == Gdp then InterestRate else Gdp;
      assert other != odd && acts.Of(other) != acts.Of(odd);
      OddIs(acts, odd);
    }
  }

  /** When the two indicators other than `odd` agree and `odd` differs, `odd` conflicts with
      both and each of the others with `odd` alone. */
  lemma OddIs(acts: IndicatorActions, odd: Indicator)
    requires forall x, y :: x != odd && y != odd ==> acts.Of(x) == acts.Of(y)
    requires exists x :: x != odd && acts.Of(x) != acts.Of(odd)
    ensures |Conflicts(acts, odd)| == 2
    ensures forall j :: j != odd ==> Conflicts(acts, j) == [odd]
  {
    ConflictsInTableOrder(acts, odd);
    forall j | j != odd
      ensures Conflicts(acts, j) == [odd]
    {
      ConflictsInTableOrder(acts, j);
    }
  }

  /** One indicator's entry of a suggestion. */
  datatype MacroRecommendation = MacroRecommendation(indicator: Indicator, action: Action, explanation: Explanation, note: Option<string>)

  function IndicatorNames(c: seq<Indicator>): (names: seq<string>)
    ensures |names| == |c|
  {
    seq(|c|, n requires 0 <= n < |c| => IndicatorName(c[n]))
  }

  /** The note of an entry: the conflicting indicators' names, when there are any. */
  function ConflictNote(conflicts: seq<Indicator>): (note: Option<string>)
    ensures note.Some? <==> |conflicts| > 0
    ensures note.Some? ==> note.value == "Conflicting signal with " + Join(", ", IndicatorNames(conflicts))
  {
    if |conflicts| > 0 then Some("Conflicting signal with " + Join(", ", IndicatorNames(conflicts))) else None
  }

  /** The entry of indicator `i`: its recommendation, and a note naming the conflicting
      indicators exactly when there are any. */
  function RecommendationFor(dirs: Directions, assetType: Option<string>, i: Indicator): MacroRecommendation
  {
    var a := Recommend(i, dirs.Of(i), assetType);
    MacroRecommendation(i, a.0, a.1, ConflictNote(Conflicts(ActionsFor(dirs, assetType), i)))
  }

  function Recommendations(dirs: Directions, assetType: Option<string>): (entries: seq<MacroRecommendation>)
    ensures |entries| == 3
    ensures entries[0].indicator == Gdp && entries[1].indicator == InterestRate && entries[2].indicator == Unemployment
  {
    RecommendationsOf(dirs, assetType, Indicators)
  }

  /** The entries of the given indicators, in their order. */
  function RecommendationsOf(dirs: Directions, assetType: Option<string>, ids: seq<Indicator>): (entries: seq<MacroRecommendation>)
    ensures |entries| == |ids|
    ensures forall k :: 0 <= k < |ids| ==> entries[k].indicator == ids[k]
  {
    if |ids| == 0 then []
    else RecommendationsOf(dirs, assetType, ids[..|ids| - 1]) + [RecommendationFor(dirs, assetType, ids[|ids| - 1])]
  }

  /** The body of the per-indicator loop: the indicator's recommendation and its conflict
      note. */
  method RecommendOne(dirs: Directions, assetType: Option<string>, i: Indicator) returns (r: MacroRecommendation)
    ensures r == RecommendationFor(dirs, assetType, i)
  {
    var a := Recommend(i, dirs.Of(i), assetType);
    var conflicts := FindConflicts(dirs, assetType, i);
    var note := if |conflicts| > 0 then Some("Conflicting signal with " + Join(", ", IndicatorNames(conflicts))) else None;
    r := MacroRecommendation(i, a.0, a.1, note);
  }

  /** The per-indicator loop for one asset. */
  method RecommendAll(dirs: Directions, assetType: Option<string>) returns (entries: seq<MacroRecommendation>)
    ensures entries == Recommendations(dirs, assetType)
  {
    entries := [];
    for n := 0 to |Indicators|
      invariant entries == RecommendationsOf(dirs, assetType, Indicators[..n])
    {
      assert Indicators[..n + 1][..n] == Indicators[..n];
      var entry := RecommendOne(dirs, assetType, Indicators[n]);
      entries := entries + [entry];
    }
    assert Indicators[..|Indicators|] == Indicators;
  }

  /** The pairs the portfolio dict is built from. */
  function PortfolioPairs(docs: seq<PortfolioDoc>): seq<(string, Holding)>
  {
    seq(|docs|, i requires 0 <= i < |docs| => (docs[i].symbol, Holding(docs[i].description, docs[i].assetType)))
  }

  function MacroSuggestionFor(dirs: Directions, e: Entry<string, Holding>): AssetSuggestion<MacroRecommendation>
  {
    AssetSuggestion(e.key, e.value.assetType, e.value.description, Recommendations(dirs, e.value.assetType))
  }

  /** The suggestions `fetch_asset_suggestions_macro_indicators_based` returns: none without
      a report or without macro indicators, else one per portfolio symbol in dict order. */
  function MacroSuggestions(latest: Option<MarketAnalysis>, docs: seq<PortfolioDoc>): seq<AssetSuggestion<MacroRecommendation>>
  {
    if latest.None? || |latest.value.macroIndicators| == 0 then []
    else
      var dirs := DirectionsAfter(latest.value.macroIndicators);
      MacroSuggestionsFor(dirs, Portfolio(docs))
  }

  /** One suggestion per portfolio entry, in dict order. */
  function MacroSuggestionsFor(dirs: Directions, portfolio: seq<Entry<string, Holding>>): (r: seq<AssetSuggestion<MacroRecommendation>>)
    ensures |r| == |portfolio|
    ensures forall n :: 0 <= n < |portfolio| ==> r[n] == MacroSuggestionFor(dirs, portfolio[n])
  {
    seq(|portfolio|, n requires 0 <= n < |portfolio| => MacroSuggestionFor(dirs, portfolio[n]))
  }

  method FetchMacroSuggestions(latest: Option<MarketAnalysis>, docs: seq<PortfolioDoc>)
    returns (suggestions: seq<AssetSuggestion<MacroRecommendation>>)
    ensures suggestions == MacroSuggestions(latest, docs)
  {
    if latest.None? || |latest.value.macroIndicators| == 0 {
      return [];
    }
    var portfolio := Collect(PortfolioPairs(docs));
    var dirs := ReadDirections(latest.value.macroIndicators);
    suggestions := SuggestMacro(dirs, portfolio);
  }

  /** The loop over the portfolio's symbols. */
  method SuggestMacro(dirs: Directions, portfolio: seq<Entry<string, Holding>>)
    returns (suggestions: seq<AssetSuggestion<MacroRecommendation>>)
    ensures suggestions == MacroSuggestionsFor(dirs, portfolio)
  {
    suggestions := [];
    for n := 0 to |portfolio|
      invariant suggestions == MacroSuggestionsFor(dirs, portfolio)[..n]
    {
      var holding := portfolio[n].value;
      var entries := RecommendAll(dirs, holding.assetType);
      var suggestion := AssetSuggestion(portfolio[n].key, holding.assetType, holding.description, entries);
      assert suggestion == MacroSuggestionFor(dirs, portfolio[n]);
      assert MacroSuggestionsFor(dirs, portfolio)[..n + 1] == MacroSuggestionsFor(dirs, portfolio)[..n] + [suggestion];
      suggestions := suggestions + [suggestion];
    }
  }

  /** One suggestion per distinct symbol, in the order of each symbol's first document, each
      with its three entries ordered GDP, Effective Interest Rate, Unemployment Rate. */
  lemma MacroSuggestionsOrder(latest: Option<MarketAnalysis>, docs: seq<PortfolioDoc>)
    requires latest.Some? && |latest.value.macroIndicators| > 0
    ensures |MacroSuggestions(latest, docs)| == |KeyOrder(PortfolioPairs(docs))|
    ensures forall k :: 0 <= k < |MacroSuggestions(latest, docs)| ==>
      MacroSuggestions(latest, docs)[k].asset == KeyOrder(PortfolioPairs(docs))[k] &&
      |MacroSuggestions(latest, docs)[k].macroIndicators| == 3 &&
      MacroSuggestions(latest, docs)[k].macroIndicators[0].indicator == Gdp &&
      MacroSuggestions(latest, docs)[k].macroIndicators[1].indicator == InterestRate &&
      MacroSuggestions(latest, docs)[k].macroIndicators[2].indicator == Unemployment
  {
    FromPairsKeyOrder(PortfolioPairs(docs));
  }

  /** A symbol's suggestion carries the asset type and description of its last document. */
  lemma LastDocumentDecides(latest: Option<MarketAnalysis>, docs: seq<PortfolioDoc>, n: nat) returns (k: nat)
    requires latest.Some? && |latest.value.macroIndicators| > 0
    requires n < |docs|
    requires forall m :: n < m < |docs| ==> docs[m].symbol != docs[n].symbol
    ensures k < |MacroSuggestions(latest, docs)|
    ensures MacroSuggestions(latest, docs)[k].asset == docs[n].symbol
    ensures MacroSuggestions(latest, docs)[k].assetType == docs[n].assetType
    ensures MacroSuggestions(latest, docs)[k].description == docs[n].description
  {
    FromPairsGet(PortfolioPairs(docs), n);
    k := FindKey(Portfolio(docs), docs[n].symbol);
  }

  /** The position of a present key. */
  lemma {:induction false} FindKey<K, V>(d: seq<Entry<K, V>>, key: K) returns (k: nat)
    requires Get(d, key).Some?
    ensures k < |d| && d[k].key == key && d[k].value == Get(d, key).value
  {
    if d[0].key == key {
      k := 0;
    } else {
      var j := FindKey(d[1..], key);
      k := j + 1;
    }
  }

  // ---------------------------------------------------------------------------------
  // Volatility (VIX) suggestions
  // ---------------------------------------------------------------------------------

  /** `VIX close price is (\d+\.\d+)`, case-sensitive. */
  const VixPattern: Pattern := Keyed(["VIX close price is "], false, "", false, PointNumber, "", false)

  /** The VIX value of the volatility sentence, or `None` when the pattern does not match. */
  function VixReading(fluctuation: string): (v: Option<real>)
    ensures v.Some? <==> Capture(fluctuation, VixPattern).Some?
    ensures v.Some? ==> v == ParseFloat(Capture(fluctuation, VixPattern).value)
  {
    var c := Capture(fluctuation, VixPattern);
    if c.None? then None
    else
      PointNumberParses(fluctuation, VixPattern);
      ParseFloat(c.value)
  }

  datatype VixState = HighVix | LowVix | NormalVix

  /** Above 20 is HIGH, below 12 is LOW, anything between (both ends included) NORMAL. */
  function StateOf(vix: real): (st: VixState)
    ensures st == HighVix <==> vix > 20.0
    ensures st == LowVix <==> vix < 12.0
    ensures st == NormalVix <==> 12.0 <= vix <= 20.0
  {
    if vix > 20.0 then HighVix
    else if vix < 12.0 then LowVix
    else NormalVix
  }

  datatype Sensitivity = HighSensitivity | LowSensitivity | NeutralSensitivity

  function SensitivityName(s: Sensitivity): string
  {
    match s
    case HighSensitivity => "HIGH"
    case LowSensitivity => "LOW"
    case NeutralSensitivity => "NEUTRAL"
  }

  /** The fixed `vix_sensitivity` table; a symbol not listed is NEUTRAL. */
  function SensitivityOf(symbol: string): (s: Sensitivity)
    ensures s == HighSensitivity <==> symbol == "QQQ" || symbol == "EEM" || symbol == "HYG"
    ensures s == LowSensitivity <==> symbol == "TLT" || symbol == "LQD" || symbol == "GLD"
  {
    if symbol in {"QQQ", "EEM", "HYG"} then HighSensitivity
    else if symbol in {"TLT", "LQD", "GLD"} then LowSensitivity
    else NeutralSensitivity
  }

  datatype Trend = Uptrend | Downtrend | NoTrend

  function TrendName(t: Trend): string
  {
    match t
    case Uptrend => "UPTREND"
    case Downtrend => "DOWNTREND"
    case NoTrend => "NEUTRAL"
  }

  /** The trend a diagnosis names: "uptrend" is looked for first, then "downtrend", in the
      lower-cased diagnosis. */
  function TrendOf(diagnosis: string): (t: Trend)
    ensures t == Uptrend <==> Contains(Lower(diagnosis), "uptrend")
    ensures t == Downtrend <==> !Contains(Lower(diagnosis), "uptrend") && Contains(Lower(diagnosis), "downtrend")
  {
    var d := Lower(diagnosis);
    if Contains(d, "uptrend") then Uptrend
    else if Contains(d, "downtrend") then Downtrend
    else NoTrend
  }

  /** The `asset_trends` dict: asset to trend, the last entry of an asset winning. */
  function AssetTrends(entries: seq<AssetTrendEntry>): seq<Entry<Option<string>, Trend>>
  {
    FromPairs(TrendPairs(entries))
  }

  /** `asset_trends.get(symbol, "NEUTRAL")`. */
  function TrendFor(trends: seq<Entry<Option<string>, Trend>>, symbol: string): Trend
  {
    var t := Get(trends, Some(symbol));
    if t.Some? then t.value else NoTrend
  }

  /** `_get_vix_action_with_trend`: a downtrend is reduced unless a VIX-sensitive asset
      meets a low VIX; any other trend is reduced only for a VIX-sensitive asset while
      volatility is high. */
  function VixAction(st: VixState, s: Sensitivity, t: Trend): (a: Action)
    ensures t == Downtrend ==> (a == Reduce <==> !(s == HighSensitivity && st == LowVix))
    ensures t != Downtrend ==> (a == Reduce <==> s == HighSensitivity && st == HighVix)
  {
    match s
    case HighSensitivity =>
      if st == HighVix then Reduce
      else if st == LowVix then Keep
      else if t == Downtrend then Reduce else Keep
    case NeutralSensitivity =>
      if st == HighVix && t == Downtrend then Reduce
      else if st == LowVix && t == Uptrend then Keep
      else if t == Downtrend then Reduce
      else Keep
    case LowSensitivity =>
      if t == Downtrend then Reduce else Keep
  }

  /** For LOW and NEUTRAL sensitivity only the trend decides; for HIGH sensitivity the VIX
      decides at its extremes and the trend in between. */
  lemma VixActionTable(st: VixState, s: Sensitivity, t: Trend)
    ensures s != HighSensitivity ==> (VixAction(st, s, t) == Reduce <==> t == Downtrend)
    ensures s == HighSensitivity && st == HighVix ==> VixAction(st, s, t) == Reduce
    ensures s == HighSensitivity && st == LowVix ==> VixAction(st, s, t) == Keep
    ensures s == HighSensitivity && st == NormalVix ==> (VixAction(st, s, t) == Reduce <==> t == Downtrend)
  {
  }

  /** The sentences of `_get_vix_explanation_with_trend`, plus `ShowsDowntrendLowVolatility`,
      the sentence the corrected explanation uses for a neutral-sensitivity asset in a
      downtrend while the VIX is low. */
  datatype VixRationale =
    | ElevatedVolatilityReduce | LowVolatilityIncrease | DowntrendDespiteNormalReduce | NormalLevelsMaintain
    | ElevatedAndDowntrend | ElevatedMonitor | LowVolatilityPositiveTrend | LowVolatilityMaintain
    | DowntrendConsiderReducing | PositiveMomentum | StableMaintain
    | LowSensitivityDowntrend | LowSensitivityUptrend | DiversifiesHighVolatility | NoChangeWarranted
    | ShowsDowntrendLowVolatility

  /** The sentence for a symbol, with `shown` the printed VIX value. */
  function RationaleText(r: VixRationale, symbol: string, shown: string): string
  {
    match r
    case ElevatedVolatilityReduce => symbol + " has high VIX sensitivity and volatility is elevated (" + shown + "). Reducing position advised."
    case LowVolatilityIncrease => symbol + " has high VIX sensitivity and volatility is low (" + shown + "). Favorable time to increase exposure."
    case DowntrendDespiteNormalReduce => symbol + " shows downtrend movement despite normal volatility (" + shown + "). Reducing position advised."
    case NormalLevelsMaintain => symbol + " has high sensitivity but VIX is at normal levels (" + shown + "). Current trend supports maintaining position."
    case ElevatedAndDowntrend => symbol + " faces both elevated volatility (" + shown + ") and downward trend. Risk reduction advised."
    case ElevatedMonitor => symbol + " faces elevated volatility (" + shown + ") but trend is not negative. Monitor closely."
    case LowVolatilityPositiveTrend => symbol + " benefits from low volatility (" + shown + ") and positive trend. Good conditions for exposure."
    case LowVolatilityMaintain => symbol + " has low volatility (" + shown + ") but lacks upward momentum. Maintain current allocation."
    case DowntrendConsiderReducing => symbol + " shows downtrend despite normal volatility (" + shown + "). Consider reducing position."
    case PositiveMomentum => symbol + " shows positive momentum with stable volatility (" + shown + "). Favorable conditions."
    case StableMaintain => symbol + " has neutral sensitivity and stable conditions. Maintain current allocation."
    case LowSensitivityDowntrend => symbol + " has low VIX sensitivity but shows downward trend. Consider tactical reduction despite lower volatility risk."
    case LowSensitivityUptrend => symbol + " has low VIX sensitivity and positive trend. Good candidate for stable returns in current conditions."
    case DiversifiesHighVolatility => symbol + " provides good diversification during high volatility (" + shown + ") due to low sensitivity. Maintain position."
    case NoChangeWarranted => symbol + " has low volatility sensitivity. Current market conditions don't warrant position changes."
    case ShowsDowntrendLowVolatility => symbol + " has low volatility (" + shown + ") and shows downward trend. Consider reducing position."
  }

  /** What a sentence advises: the ones that advise reducing ("Reducing position advised",
      "Risk reduction advised", "Consider reducing position", "Consider tactical
      reduction") read REDUCE; the others advise keeping, increasing or monitoring. */
  function Advice(r: VixRationale): Action
  {
    match r
    case ElevatedVolatilityReduce => Reduce
    case DowntrendDespiteNormalReduce => Reduce
    case ElevatedAndDowntrend => Reduce
    case DowntrendConsiderReducing => Reduce
    case LowSensitivityDowntrend => Reduce
    case ShowsDowntrendLowVolatility => Reduce
    case _ => Keep
  }

  /** `_get_vix_explanation_with_trend` as written: its sentence advises the action taken
      except for a neutral-sensitivity asset in a downtrend under a low VIX. */
  function RationaleAsWritten(st: VixState, s: Sensitivity, t: Trend): (r: VixRationale)
    ensures Advice(r) == VixAction(st, s, t) <==> !(st == LowVix && s == NeutralSensitivity && t == Downtrend)
  {
    match s
    case HighSensitivity =>
      if st == HighVix then ElevatedVolatilityReduce
      else if st == LowVix then LowVolatilityIncrease
      else if t == Downtrend then DowntrendDespiteNormalReduce
      else NormalLevelsMaintain
    case NeutralSensitivity =>
      if st == HighVix then
        if t == Downtrend then ElevatedAndDowntrend else ElevatedMonitor
      else if st == LowVix then
        if t == Uptrend then LowVolatilityPositiveTrend else LowVolatilityMaintain
      else if t == Downtrend then DowntrendConsiderReducing
      else if t == Uptrend then PositiveMomentum
      else StableMaintain
    case LowSensitivity =>
      if t == Downtrend then LowSensitivityDowntrend
      else if t == Uptrend then LowSensitivityUptrend
      else if st == HighVix then DiversifiesHighVolatility
      else NoChangeWarranted
  }

  /** As written, a neutral-sensitivity asset in a downtrend under a low VIX is told to
      "Maintain current allocation" while its action is REDUCE. */
  lemma RationaleContradictsAction()
    ensures RationaleAsWritten(LowVix, NeutralSensitivity, Downtrend) == LowVolatilityMaintain
    ensures Advice(RationaleAsWritten(LowVix, NeutralSensitivity, Downtrend)) == Keep
    ensures VixAction(LowVix, NeutralSensitivity, Downtrend) == Reduce
  {
  }

  /** The explanation with the low-VIX downtrend case of neutral-sensitivity assets given a
      sentence that advises the reduction the action makes. */
  function Rationale(st: VixState, s: Sensitivity, t: Trend): (r: VixRationale)
    ensures Advice(r) == VixAction(st, s, t)
    ensures !(st == LowVix && s == NeutralSensitivity && t == Downtrend) ==> r == RationaleAsWritten(st, s, t)
  {
    if st == LowVix && s == NeutralSensitivity && t == Downtrend then ShowsDowntrendLowVolatility
    else RationaleAsWritten(st, s, t)
  }

  function SensitivityPart(symbol: string, s: Sensitivity): string
  {
    symbol + " has " + SensitivityName(s) + " sensitivity to market volatility"
  }

  function TrendPart(t: Trend): string
  {
    "Currently in " + TrendName(t)
  }

  /** The note: the sensitivity part unless NEUTRAL, the trend part unless NEUTRAL, joined
      by ". ", absent when both are NEUTRAL. */
  function VixNote(symbol: string, s: Sensitivity, t: Trend): (note: Option<string>)
    ensures note.None? <==> s == NeutralSensitivity && t == NoTrend
    ensures s != NeutralSensitivity && t != NoTrend ==> note == Some(SensitivityPart(symbol, s) + ". " + TrendPart(t))
    ensures s != NeutralSensitivity && t == NoTrend ==> note == Some(SensitivityPart(symbol, s))
    ensures s == NeutralSensitivity && t != NoTrend ==> note == Some(TrendPart(t))
  {
    var parts := (if s != NeutralSensitivity then [SensitivityPart(symbol, s)] else []) + (if t != NoTrend then [TrendPart(t)] else []);
    assert s != NeutralSensitivity && t != NoTrend ==> parts == [SensitivityPart(symbol, s), TrendPart(t)];
    if |parts| > 0 then Some(Join(". ", parts)) else None
  }

  /** The single VIX entry of a suggestion. */
  datatype VixRecommendation = VixRecommendation(action: Action, sensitivity: Sensitivity, explanation: VixRationale, note: Option<string>)

  /** The VIX entry the service writes for a symbol: the action of the table, the sentence of
      `_get_vix_explanation_with_trend` as written, which advises that action except for a
      neutral-sensitivity symbol in a downtrend under a low VIX, and the note. */
  function VixRecommendationFor(st: VixState, symbol: string, t: Trend): (r: VixRecommendation)
    ensures r.sensitivity == SensitivityOf(symbol)
    ensures r.action == VixAction(st, SensitivityOf(symbol), t)
    ensures r.explanation == RationaleAsWritten(st, SensitivityOf(symbol), t)
    ensures Advice(r.explanation) == r.action <==>
      !(st == LowVix && SensitivityOf(symbol) == NeutralSensitivity && t == Downtrend)
    ensures r.note == VixNote(symbol, SensitivityOf(symbol), t)
  {
    var s := SensitivityOf(symbol);
    VixRecommendation(VixAction(st, s, t), s, RationaleAsWritten(st, s, t), VixNote(symbol, s, t))
  }

  /** The entry with the corrected explanation: the same action, sensitivity and note as the
      service's entry, a sentence that always advises the action, and the service's own
      entry wherever its sentence already did. */
  function VixRecommendationCorrected(st: VixState, symbol: string, t: Trend): (r: VixRecommendation)
    ensures r.action == VixRecommendationFor(st, symbol, t).action
    ensures r.sensitivity == VixRecommendationFor(st, symbol, t).sensitivity
    ensures r.note == VixRecommendationFor(st, symbol, t).note
    ensures Advice(r.explanation) == r.action
    ensures Advice(VixRecommendationFor(st, symbol, t).explanation) == r.action ==> r == VixRecommendationFor(st, symbol, t)
  {
    var s := SensitivityOf(symbol);
    VixRecommendation(VixAction(st, s, t), s, Rationale(st, s, t), VixNote(symbol, s, t))
  }

  /** The suggestions `fetch_asset_suggestions_market_volatility_based` returns: none without
      a report, without volatility data or without a VIX value in its sentence; else one per
      portfolio symbol in dict order, each with one VIX entry. */
  function VixSuggestions(latest: Option<MarketAnalysis>, docs: seq<PortfolioDoc>): seq<AssetSuggestion<VixRecommendation>>
  {
    if latest.None? || latest.value.volatility.None? then []
    else
      var vix := VixReading(latest.value.volatility.value.fluctuationAnswer);
      if vix.None? then []
      else
        var st := StateOf(vix.value);
        var trends := AssetTrends(latest.value.assetTrends);
        var portfolio := Portfolio(docs);
        VixSuggestionsFor(st, trends, portfolio)
  }

  /** One suggestion per portfolio entry, in dict order. */
  function VixSuggestionsFor(st: VixState, trends: seq<Entry<Option<string>, Trend>>, portfolio: seq<Entry<string, Holding>>): (r: seq<AssetSuggestion<VixRecommendation>>)
    ensures |r| == |portfolio|
    ensures forall n :: 0 <= n < |portfolio| ==> r[n] == VixSuggestionFor(st, trends, portfolio[n])
  {
    seq(|portfolio|, n requires 0 <= n < |portfolio| => VixSuggestionFor(st, trends, portfolio[n]))
  }

  function VixSuggestionFor(st: VixState, trends: seq<Entry<Option<string>, Trend>>, e: Entry<string, Holding>): AssetSuggestion<VixRecommendation>
  {
    AssetSuggestion(e.key, e.value.assetType, e.value.description, [VixRecommendationFor(st, e.key, TrendFor(trends, e.key))])
  }

  /** The pairs the `asset_trends` dict is built from. */
  function TrendPairs(entries: seq<AssetTrendEntry>): seq<(Option<string>, Trend)>
  {
    seq(|entries|, i requires 0 <= i < |entries| => (entries[i].asset, TrendOf(entries[i].diagnosis)))
  }

  method FetchVixSuggestions(latest: Option<MarketAnalysis>, docs: seq<PortfolioDoc>)
    returns (suggestions: seq<AssetSuggestion<VixRecommendation>>)
    ensures suggestions == VixSuggestions(latest, docs)
  {
    if latest.None? || latest.value.volatility.None? {
      return [];
    }
    var vix := VixReading(latest.value.volatility.value.fluctuationAnswer);
    if vix.None? {
      return [];
    }
    var trends := Collect(TrendPairs(latest.value.assetTrends));
    var portfolio := Collect(PortfolioPairs(docs));
    suggestions := SuggestVix(StateOf(vix.value), trends, portfolio);
  }

  /** The loop over the portfolio's symbols. */
  method SuggestVix(st: VixState, trends: seq<Entry<Option<string>, Trend>>, portfolio: seq<Entry<string, Holding>>)
    returns (suggestions: seq<AssetSuggestion<VixRecommendation>>)
    ensures suggestions == VixSuggestionsFor(st, trends, portfolio)
  {
    suggestions := [];
    for n := 0 to |portfolio|
      invariant suggestions == VixSuggestionsFor(st, trends, portfolio)[..n]
    {
      VixSuggestionsPrefix(st, trends, portfolio, n);
      suggestions := suggestions + [VixSuggestionFor(st, trends, portfolio[n])];
    }
  }

  /** One more symbol's suggestion extends the list built so far. */
  lemma VixSuggestionsPrefix(st: VixState, trends: seq<Entry<Option<string>, Trend>>, portfolio: seq<Entry<string, Holding>>, n: nat)
    requires n < |portfolio|
    ensures VixSuggestionsFor(st, trends, portfolio)[..n + 1] ==
      VixSuggestionsFor(st, trends, portfolio)[..n] + [VixSuggestionFor(st, trends, portfolio[n])]
  {
    var all := VixSuggestionsFor(st, trends, portfolio);
    assert all[..n + 1] == all[..n] + [all[n]];
  }

  /** An asset whose last trend entry names a downtrend is told to reduce unless it is
      VIX-sensitive and the VIX is low; its sentence advises that action except for a
      neutral-sensitivity asset under a low VIX. */
  lemma DowntrendAssetsReduced(latest: Option<MarketAnalysis>, docs: seq<PortfolioDoc>, k: nat, n: nat)
    requires k < |VixSuggestions(latest, docs)|
    requires n < |latest.value.assetTrends| && latest.value.assetTrends[n].asset == Some(VixSuggestions(latest, docs)[k].asset)
    requires forall m :: n < m < |latest.value.assetTrends| ==> latest.value.assetTrends[m].asset != latest.value.assetTrends[n].asset
    requires TrendOf(latest.value.assetTrends[n].diagnosis) == Downtrend
    ensures VixSuggestions(latest, docs)[k].macroIndicators[0].action == Reduce <==>
      !(SensitivityOf(VixSuggestions(latest, docs)[k].asset) == HighSensitivity &&
        StateOf(VixReading(latest.value.volatility.value.fluctuationAnswer).value) == LowVix)
    ensures Advice(VixSuggestions(latest, docs)[k].macroIndicators[0].explanation) == VixSuggestions(latest, docs)[k].macroIndicators[0].action <==>
      !(SensitivityOf(VixSuggestions(latest, docs)[k].asset) == NeutralSensitivity &&
        StateOf(VixReading(latest.value.volatility.value.fluctuationAnswer).value) == LowVix)
  {
    var entries := latest.value.assetTrends;
    FromPairsGet(TrendPairs(entries), n);
    var st := StateOf(VixReading(latest.value.volatility.value.fluctuationAnswer).value);
    var symbol := VixSuggestions(latest, docs)[k].asset;
    assert TrendFor(AssetTrends(entries), symbol) == Downtrend;
  }
}
