/** The crypto analysis agent's state object and the two tool calls that update it in place:
    the trends tool fills `report.crypto_trends`, the momentum tool fills
    `report.crypto_momentum_indicators`; each appends its message to `updates` and moves
    `next_step` on. */
module CryptoAnalysisAgent {
  import opened Wrappers
  import opened Momentum
  import opened Trends

  /** The workflow steps `next_step` may hold; `Unset` is the field's `None` default. */
  datatype Step =
    | Unset | Start | PortfolioAllocationNode | CryptoTrendsNode | CryptoMomentumIndicatorsNode
    | CryptoPortfolioOverallDiagnosisNode | End

  const TrendsMessage: string := "[Tool] Calculate crypto asset trends."
  const MomentumMessage: string := "[Tool] Calculate crypto momentum indicators."

  /** `CryptoAnalysisAgentState` with its nested `report` flattened into three fields. */
  class CryptoAnalysisAgentState {
    var portfolioAllocation: seq<Allocation>
    var cryptoTrends: seq<CryptoAssetTrend>
    var cryptoMomentumIndicators: seq<CryptoMomentumIndicator>
    var overallDiagnosis: Option<string>
    var nextStep: Step
    var updates: seq<string>

    /** A fresh state for a portfolio: an empty report, no updates, no next step. */
    constructor (portfolio: seq<Allocation>)
      ensures portfolioAllocation == portfolio
      ensures cryptoTrends == [] && cryptoMomentumIndicators == [] && overallDiagnosis == None
      ensures nextStep == Unset && updates == []
    {
      portfolioAllocation := portfolio;
      cryptoTrends := [];
      cryptoMomentumIndicators := [];
      overallDiagnosis := None;
      nextStep := Unset;
      updates := [];
    }
  }

  /** `calculate_crypto_trends`: on success the report's trends are replaced by the trends
      of the state's own portfolio, the message is appended and the momentum node comes
      next; nothing else changes. An exception leaves the state as it was. */
  method CalculateCryptoTrends(state: CryptoAnalysisAgentState, market: map<string, seq<Bar>>)
    returns (r: Outcome<seq<CryptoAssetTrend>>)
    modifies state
    ensures r == TrendReport(old(state.portfolioAllocation), market)
    ensures r.Ok? ==> state.cryptoTrends == r.value
    ensures r.Ok? ==> state.updates == old(state.updates) + [TrendsMessage]
    ensures r.Ok? ==> state.nextStep == CryptoMomentumIndicatorsNode
    ensures state.portfolioAllocation == old(state.portfolioAllocation)
    ensures state.cryptoMomentumIndicators == old(state.cryptoMomentumIndicators)
    ensures state.overallDiagnosis == old(state.overallDiagnosis)
    ensures r.Raised? ==> unchanged(state)
  {
    r := BuildCryptoTrends(state.portfolioAllocation, market);
    if r.Ok? {
      state.cryptoTrends := r.value;
      state.updates := state.updates + [TrendsMessage];
      state.nextStep := CryptoMomentumIndicatorsNode;
    }
  }

  /** `calculate_crypto_momentum_indicators`: on success the report's momentum indicators
      are replaced, the message is appended and the overall-diagnosis node comes next;
      nothing else changes. An exception leaves the state as it was. */
  method CalculateCryptoMomentumIndicators(state: CryptoAnalysisAgentState, market: map<string, seq<Bar>>)
    returns (r: Outcome<seq<CryptoMomentumIndicator>>)
    modifies state
    ensures r == MomentumReport(old(state.portfolioAllocation), market)
    ensures r.Ok? ==> state.cryptoMomentumIndicators == r.value
    ensures r.Ok? ==> state.updates == old(state.updates) + [MomentumMessage]
    ensures r.Ok? ==> state.nextStep == CryptoPortfolioOverallDiagnosisNode
    ensures state.portfolioAllocation == old(state.portfolioAllocation)
    ensures state.cryptoTrends == old(state.cryptoTrends)
    ensures state.overallDiagnosis == old(state.overallDiagnosis)
    ensures r.Raised? ==> unchanged(state)
  {
    r := BuildMomentumIndicators(state.portfolioAllocation, market);
    if r.Ok? {
      state.cryptoMomentumIndicators := r.value;
      state.updates := state.updates + [MomentumMessage];
      state.nextStep := CryptoPortfolioOverallDiagnosisNode;
    }
  }

  /** The trends step followed by the momentum step, as the workflow runs them: when both
      succeed the report holds both results, the two messages are in order, and the
      momentum step did not disturb the trends; when the trends step raises nothing changes,
      and when only the momentum step raises the state is the one the trends step left. */
  method RunTrendsThenMomentum(state: CryptoAnalysisAgentState, market: map<string, seq<Bar>>)
    returns (ok: bool)
    modifies state
    ensures ok <==> TrendReport(old(state.portfolioAllocation), market).Ok? &&
                    MomentumReport(old(state.portfolioAllocation), market).Ok?
    ensures ok ==> state.cryptoTrends == TrendReport(old(state.portfolioAllocation), market).value
    ensures ok ==> state.cryptoMomentumIndicators == MomentumReport(old(state.portfolioAllocation), market).value
    ensures ok ==> state.updates == old(state.updates) + [TrendsMessage, MomentumMessage]
    ensures ok ==> state.nextStep == CryptoPortfolioOverallDiagnosisNode
    ensures state.portfolioAllocation == old(state.portfolioAllocation)
    ensures state.overallDiagnosis == old(state.overallDiagnosis)
    ensures TrendReport(old(state.portfolioAllocation), market).Raised? ==> unchanged(state)
    ensures TrendReport(old(state.portfolioAllocation), market).Ok? &&
            MomentumReport(old(state.portfolioAllocation), market).Raised? ==>
      state.cryptoTrends == TrendReport(old(state.portfolioAllocation), market).value &&
      state.cryptoMomentumIndicators == old(state.cryptoMomentumIndicators) &&
      state.updates == old(state.updates) + [TrendsMessage] &&
      state.nextStep == CryptoMomentumIndicatorsNode
  {
    var trends := CalculateCryptoTrends(state, market);
    if trends.Raised? {
      return false;
    }
    var momentum := CalculateCryptoMomentumIndicators(state, market);
    ok := momentum.Ok?;
  }
}
