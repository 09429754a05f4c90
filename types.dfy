/**
 * The records exchanged with the remote analysis service. Each is produced
 * wholesale by a successful call and only ever replaced as a whole. Numbers
 * of the browser's `number` type are modelled as `real`.
 */
module Types {

  /** One year of a scenario projection, under three growth assumptions. */
  datatype DataPoint = DataPoint(year: real, conservative: real, moderate: real, aggressive: real)

  /** The reply to a what-if question in the chat. */
  datatype ScenarioResult = ScenarioResult(
    title: string,
    summary: string,
    recommendation: string,
    projections: seq<DataPoint>)

  /** One row of the risk report's comparison with model portfolios. */
  datatype Comparison = Comparison(model: string, description: string, suitability: string)

  /**
   * The risk report card. `riskLevel` is declared as one of "Low",
   * "Moderate", "High" and "Very High", but the reply is cast without a
   * check, so any string may arrive; it is kept as a string.
   */
  datatype RiskAnalysisResult = RiskAnalysisResult(
    score: real,
    riskLevel: string,
    analysis: string,
    diversificationScore: real,
    concentrationRisks: seq<string>,
    comparisons: seq<Comparison>,
    topAdvice: string)

  /** A jargon phrase found in an article, with its plain-language explanation. */
  datatype TermExplanation = TermExplanation(term: string, definition: string, analogy: string)

  /** The reply to an article analysis: the text as sent, and the detected terms in the service's order. */
  datatype ArticleAnalysisResult = ArticleAnalysisResult(
    annotatedText: string,
    explanations: seq<TermExplanation>)

  /** A debt entered by the user. */
  datatype DebtItem = DebtItem(
    id: string,
    name: string,
    balance: real,
    interestRate: real,
    minPayment: real)

  /** One month of a payoff schedule. */
  datatype MonthData = MonthData(month: real, totalBalance: real, interestPaid: real)

  /** A payoff schedule under one strategy. */
  datatype DebtPlan = DebtPlan(
    totalInterest: real,
    monthsToPayoff: real,
    payoffOrder: seq<string>,
    monthlyData: seq<MonthData>)

  /** Both payoff schedules, as computed by the service, with its advice. */
  datatype DebtAnalysisResult = DebtAnalysisResult(
    summary: string,
    snowball: DebtPlan,
    avalanche: DebtPlan,
    behavioralRecommendation: string,
    interestSavedByAvalanche: real)

  /** The four views of the application. */
  datatype AppMode = Simulator | RiskAnalyzer | KnowledgeHub | DebtOptimizer
}
