/**
 * The Portfolio Risk Analyzer view: the user describes their holdings in
 * free text and asks the remote service for a risk report card (a 0-100
 * score, a risk level, a diversification score, concentration risks, model
 * portfolio comparisons and advice). The view colours the score by band and
 * the risk level by name.
 *
 * The view's state is the value `Analyzer`; each handler is a function on
 * it, and `RiskAnalyzerView` is the component, whose methods update its
 * fields exactly as those functions say.
 */
module RiskAnalyzer {
  import opened Wrappers
  import opened Strings
  import opened Types

  // ---------------------------------------------------------------------
  // Colours
  // ---------------------------------------------------------------------

  /** `getScoreColor`: green from 80 up, amber from 50 up, red below. */
  function ScoreColor(score: real): string {
    if score >= 80.0 then "text-emerald-600"
    else if score >= 50.0 then "text-amber-500"
    else "text-rose-600"
  }

  /** The band of a score colour, from worst (0) to best (2). */
  function ColorRank(color: string): nat {
    if color == "text-emerald-600" then 2
    else if color == "text-amber-500" then 1
    else 0
  }

  /** Each colour covers exactly its band of scores. */
  lemma ScoreColorBands(score: real)
    ensures ScoreColor(score) == "text-emerald-600" <==> score >= 80.0
    ensures ScoreColor(score) == "text-amber-500" <==> 50.0 <= score < 80.0
    ensures ScoreColor(score) == "text-rose-600" <==> score < 50.0
  {
  }

  /** A higher score never gets a worse colour. */
  lemma ScoreColorMonotone(a: real, b: real)
    requires a <= b
    ensures ColorRank(ScoreColor(a)) <= ColorRank(ScoreColor(b))
  {
  }

  /** `getRiskBg`: the badge classes for a risk level. */
  function RiskBadge(level: string): string {
    match level
    case "Low" => "bg-emerald-100 text-emerald-700"
    case "Moderate" => "bg-amber-100 text-amber-700"
    case "High" => "bg-orange-100 text-orange-700"
    case "Very High" => "bg-rose-100 text-rose-700"
    case _ => "bg-slate-100 text-slate-700"
  }

  /** The four levels the service is asked for. */
  const RiskLevels: seq<string> := ["Low", "Moderate", "High", "Very High"]

  /**
   * Each of the four known levels gets its own badge, different from every
   * other level's and from the neutral one; any other text (the comparison
   * is exact, so "low" or "Very high" too) gets the neutral badge.
   */
  lemma RiskBadgeDistinguishesLevels(level: string)
    ensures level !in RiskLevels ==> RiskBadge(level) == "bg-slate-100 text-slate-700"
    ensures forall i, j :: 0 <= i < j < |RiskLevels| ==> RiskBadge(RiskLevels[i]) != RiskBadge(RiskLevels[j])
    ensures forall i :: 0 <= i < |RiskLevels| ==> RiskBadge(RiskLevels[i]) != "bg-slate-100 text-slate-700"
  {
  }

  // ---------------------------------------------------------------------
  // The analysis request
  // ---------------------------------------------------------------------

  /** Everything the view keeps in state. */
  datatype Analyzer = Analyzer(portfolio: string, result: Option<RiskAnalysisResult>, isLoading: bool)

  /** A freshly mounted view. */
  const Initial: Analyzer := Analyzer("", None, false)

  /** The form may be submitted: a non-blank description and no pending request (handler guard and button). */
  predicate AnalyzeEnabled(a: Analyzer) {
    !IsBlank(a.portfolio) && !a.isLoading
  }

  /** The description sent to the service, if any. */
  function AnalyzeRequest(a: Analyzer): Option<string> {
    if AnalyzeEnabled(a) then Some(a.portfolio) else None
  }

  function AnalyzeStarted(a: Analyzer): Analyzer {
    if AnalyzeEnabled(a) then a.(isLoading := true) else a
  }

  /** A report replaces the shown one; an error (an alert) keeps it; loading ends either way. */
  function AnalyzeCompleted(a: Analyzer, outcome: Outcome<RiskAnalysisResult>): Analyzer {
    match outcome
    case Success(r) => a.(result := Some(r), isLoading := false)
    case Failure => a.(isLoading := false)
  }

  /** The text area is disabled while a request is pending: typing then has no effect. */
  function PortfolioTyped(a: Analyzer, text: string): Analyzer {
    if a.isLoading then a else a.(portfolio := text)
  }

  /** What can happen to the view: typing, submitting, the pending request settling. */
  datatype Event = Type(text: string) | Submit | Settle(outcome: Outcome<RiskAnalysisResult>)

  function Step(a: Analyzer, e: Event): Analyzer {
    match e
    case Type(text) => PortfolioTyped(a, text)
    case Submit => AnalyzeStarted(a)
    case Settle(outcome) => if a.isLoading then AnalyzeCompleted(a, outcome) else a
  }

  function Run(a: Analyzer, events: seq<Event>): Analyzer
    decreases |events|
  {
    if events == [] then a else Step(Run(a, events[..|events| - 1]), events[|events| - 1])
  }

  /** A request goes out only for a non-blank description, and never while another is pending. */
  lemma RequestIsCurrentPortfolio(a: Analyzer)
    ensures AnalyzeRequest(a).Some? <==> !IsBlank(a.portfolio) && !a.isLoading
    ensures AnalyzeRequest(a).Some? ==> AnalyzeRequest(a).value == a.portfolio
    ensures a.isLoading ==> AnalyzeStarted(a) == a
  {
  }

  /** A failed request leaves the view as it was before the click. */
  lemma FailedAnalyzeRestores(a: Analyzer)
    requires AnalyzeEnabled(a)
    ensures AnalyzeCompleted(AnalyzeStarted(a), Failure) == a
  {
  }

  /** A successful request shows the new report card in place of any earlier one and keeps the description. */
  lemma SuccessfulAnalyzeShowsReport(a: Analyzer, r: RiskAnalysisResult)
    requires AnalyzeEnabled(a)
    ensures AnalyzeCompleted(AnalyzeStarted(a), Success(r)) == a.(result := Some(r))
  {
  }

  /**
   * While a request is pending nothing the user does changes the view, so
   * the description on screen when the report arrives is the one analysed,
   * and the previous report stays up until then.
   */
  lemma {:induction false} PendingFreezesPortfolio(a: Analyzer, events: seq<Event>)
    requires a.isLoading
    requires forall k :: 0 <= k < |events| ==> !events[k].Settle?
    ensures Run(a, events) == a
    decreases |events|
  {
    if events != [] {
      PendingFreezesPortfolio(a, events[..|events| - 1]);
    }
  }

  // ---------------------------------------------------------------------
  // The component
  // ---------------------------------------------------------------------

  class RiskAnalyzerView {
    var portfolio: string
    var result: Option<RiskAnalysisResult>
    var isLoading: bool

    /** The component's state as a value. */
    function Model(): Analyzer
      reads this
    {
      Analyzer(portfolio, result, isLoading)
    }

    constructor ()
      ensures Model() == Initial
    {
      portfolio := "";
      result := None;
      isLoading := false;
    }

    /** Typing in the description text area. */
    method SetPortfolio(text: string)
      modifies this
      ensures Model() == PortfolioTyped(old(Model()), text)
    {
      if !isLoading {
        portfolio := text;
      }
    }

    /** `handleAnalyze` up to the awaited call: returns the description sent, if any. */
    method BeginAnalyze() returns (request: Option<string>)
      modifies this
      ensures request == AnalyzeRequest(old(Model()))
      ensures Model() == AnalyzeStarted(old(Model()))
    {
      if IsBlank(portfolio) || isLoading {
        return None;
      }
      isLoading := true;
      request := Some(portfolio);
    }

    /** `handleAnalyze` after the awaited call settles with `outcome`. */
    method CompleteAnalyze(outcome: Outcome<RiskAnalysisResult>)
      requires isLoading
      modifies this
      ensures Model() == AnalyzeCompleted(old(Model()), outcome)
    {
      if outcome.Success? {
        result := Some(outcome.value);
      }
      isLoading := false;
    }
  }
}
