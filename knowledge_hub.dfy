/**
 * The Knowledge Hub view: a text area for a financial news snippet, an
 * "Analyze & ELI5" button that asks the remote service for the jargon in it,
 * the article redrawn with every detected term highlighted, and a side panel
 * explaining the term the user picked.
 *
 * The view's state is the value `Hub`; each event handler is a function from
 * one `Hub` to the next, and `KnowledgeHubView` is the component itself,
 * whose methods update its fields exactly as those functions say.
 */
module KnowledgeHub {
  import opened Wrappers
  import opened Strings
  import opened Types
  import opened Annotator

  /** A sample snippet offered above the text area; its button reads "Sample: " and the caption. */
  datatype Sample = Sample(caption: string, text: string)

  /** The two samples, in the order their buttons appear. */
  const Samples: seq<Sample> := [
    Sample("Market Volatility",
      "The Federal Reserve's quantitative easing program has significantly impacted market liquidity, potentially leading to asset price inflation and reduced yields on fixed-income securities."),
    Sample("Short Selling",
      "Retail investors recently targeted heavily shorted stocks, causing a massive short squeeze that forced institutional hedge funds to cover their positions at record high prices.")
  ]

  /** Everything the view keeps in state. */
  datatype Hub = Hub(
    text: string,
    analysis: Option<ArticleAnalysisResult>,
    isLoading: bool,
    selectedTerm: Option<TermExplanation>)

  /** The state of a freshly mounted view: empty text, nothing analysed, nothing selected. */
  const Initial: Hub := Hub("", None, false, None)

  /**
   * Analysis may start: the text is not blank once trimmed and no request is
   * pending. The early return of the handler and the `disabled` flag of its
   * button test the same condition.
   */
  predicate AnalyzeEnabled(h: Hub) {
    !IsBlank(h.text) && !h.isLoading
  }

  /** The text sent to the service when the button is pressed, if any. */
  function AnalyzeRequest(h: Hub): Option<string> {
    if AnalyzeEnabled(h) then Some(h.text) else None
  }

  /** The state right after the button is pressed: loading, if a request went out. */
  function AnalyzeStarted(h: Hub): Hub {
    if AnalyzeEnabled(h) then h.(isLoading := true) else h
  }

  /**
   * The state once the pending request settles: a result replaces the
   * analysis and clears the selection; an error (reported by an alert) keeps
   * both; either way loading ends.
   */
  function AnalyzeCompleted(h: Hub, outcome: Outcome<ArticleAnalysisResult>): Hub {
    match outcome
    case Success(result) => h.(analysis := Some(result), selectedTerm := None, isLoading := false)
    case Failure => h.(isLoading := false)
  }

  /** The detected terms are listed as buttons only while an analysis is shown and no term is open. */
  predicate TermListShown(h: Hub) {
    h.analysis.Some? && h.selectedTerm.None?
  }

  /** What `renderAnnotatedText` returns: the bare text, or the text cut into plain runs and highlights. */
  datatype Rendered = Raw(text: string) | Highlighted(segments: seq<Segment>)

  /** The terms of the current analysis are plain literals, the case the highlighting model covers. */
  predicate LiteralAnalysis(h: Hub) {
    h.analysis.Some? ==> LiteralTerms(TermsOf(h.analysis.value.explanations))
  }

  /**
   * What `renderAnnotatedText` returns for state `h`: the bare text when
   * there is no analysis (its early return; the component itself shows a
   * placeholder then and never calls it), the highlighted segments otherwise.
   */
  function RenderedText(h: Hub): (r: Rendered)
    requires LiteralAnalysis(h)
    ensures r.Raw? <==> h.analysis.None?
    ensures r.Raw? ==> r.text == h.text
    ensures r.Highlighted? ==> TextOf(r.segments) == h.text
  {
    if h.analysis.None? then Raw(h.text)
    else
      var terms := TermsOf(h.analysis.value.explanations);
      AnnotatedFacts(h.text, terms, Annotated(h.text, terms));
      Highlighted(Annotated(h.text, terms))
  }

  // ---------------------------------------------------------------------
  // Properties of the handlers
  // ---------------------------------------------------------------------

  /** A request is only ever made for the current, non-blank text, and only when none is pending. */
  lemma RequestIsCurrentText(h: Hub)
    ensures AnalyzeRequest(h).Some? <==> AnalyzeEnabled(h)
    ensures AnalyzeRequest(h).Some? ==> AnalyzeRequest(h).value == h.text && !IsBlank(AnalyzeRequest(h).value)
    ensures AnalyzeStarted(h).isLoading <==> h.isLoading || AnalyzeRequest(h).Some?
  {
  }

  /** While a request is pending, pressing the button again sends nothing and changes nothing. */
  lemma NoSecondRequest(h: Hub)
    requires h.isLoading
    ensures AnalyzeRequest(h) == None && AnalyzeStarted(h) == h
  {
  }

  /** A request that fails leaves the view exactly as it was before the button was pressed. */
  lemma FailedAnalyzeRestores(h: Hub)
    requires AnalyzeEnabled(h)
    ensures AnalyzeCompleted(AnalyzeStarted(h), Failure) == h
  {
  }

  /**
   * A request that succeeds shows the new analysis over the same text, with
   * no term selected, so the list of detected terms appears.
   */
  lemma SuccessfulAnalyzeShowsTerms(h: Hub, result: ArticleAnalysisResult)
    requires AnalyzeEnabled(h)
    ensures var after := AnalyzeCompleted(AnalyzeStarted(h), Success(result));
      && after.text == h.text && after.analysis == Some(result)
      && !after.isLoading && TermListShown(after)
  {
  }

  /**
   * Every highlight of the rendered article belongs to a detected term whose
   * text it matches (ignoring case), so the explanation its click opens is
   * the one for the word under the cursor; the plain runs between highlights
   * contain none of the detected terms, and nothing of the article is lost.
   */
  lemma HighlightsExplainTheirText(h: Hub)
    requires h.analysis.Some? && LiteralAnalysis(h)
    ensures var r := RenderedText(h);
      var exps := h.analysis.value.explanations;
      && TextOf(r.segments) == h.text
      && (forall k :: 0 <= k < |r.segments| && r.segments[k].Mark? ==>
            r.segments[k].term < |exps| && EqualsIgnoreCase(r.segments[k].text, exps[r.segments[k].term].term))
      && (forall j :: 0 <= j < |exps| ==> PlainsLack(r.segments, exps[j].term))
  {
    var terms := TermsOf(h.analysis.value.explanations);
    AnnotatedFacts(h.text, terms, Annotated(h.text, terms));
  }

  /**
   * Clicking highlight or listed term `i` opens the explanation behind it,
   * one of the current analysis's explanations.
   */
  function TermSelected(h: Hub, i: nat): Hub
    requires h.analysis.Some? && i < |h.analysis.value.explanations|
  {
    h.(selectedTerm := Some(h.analysis.value.explanations[i]))
  }

  /**
   * Clicking a highlight opens an explanation of the very word clicked: its
   * term equals the highlighted text ignoring case; the article and the
   * analysis stay as they are, and the detected-terms list gives way to
   * the explanation panel.
   */
  lemma ClickedHighlightExplainsIt(h: Hub, k: nat)
    requires h.analysis.Some? && LiteralAnalysis(h)
    requires var r := RenderedText(h); k < |r.segments| && r.segments[k].Mark?
    ensures var seg := RenderedText(h).segments[k];
      && seg.term < |h.analysis.value.explanations|
      && var after := TermSelected(h, seg.term);
      && after.selectedTerm.Some? && EqualsIgnoreCase(seg.text, after.selectedTerm.value.term)
      && after.text == h.text && after.analysis == h.analysis && !TermListShown(after)
  {
    HighlightsExplainTheirText(h);
  }

  // ---------------------------------------------------------------------
  // The component
  // ---------------------------------------------------------------------

  /** The mounted component with its four pieces of state. */
  class KnowledgeHubView {
    var text: string
    var analysis: Option<ArticleAnalysisResult>
    var isLoading: bool
    var selectedTerm: Option<TermExplanation>

    /** The component's state as a value. */
    function Model(): Hub
      reads this
    {
      Hub(text, analysis, isLoading, selectedTerm)
    }

    constructor ()
      ensures Model() == Initial
    {
      text := "";
      analysis := None;
      isLoading := false;
      selectedTerm := None;
    }

    /** Typing in the text area, which stays editable while a request is pending. */
    method SetText(newText: string)
      modifies this
      ensures Model() == old(Model()).(text := newText)
    {
      text := newText;
    }

    /** A sample button: the sample's text replaces the text area's content. */
    method LoadSample(i: nat)
      requires i < |Samples|
      modifies this
      ensures Model() == old(Model()).(text := Samples[i].text)
    {
      text := Samples[i].text;
    }

    /** `handleAnalyze` up to the awaited call: returns the text to send, if any. */
    method BeginAnalyze() returns (request: Option<string>)
      modifies this
      ensures request == AnalyzeRequest(old(Model()))
      ensures Model() == AnalyzeStarted(old(Model()))
    {
      if IsBlank(text) || isLoading {
        return None;
      }
      isLoading := true;
      request := Some(text);
    }

    /** `handleAnalyze` after the awaited call settles with `outcome`. */
    method CompleteAnalyze(outcome: Outcome<ArticleAnalysisResult>)
      requires isLoading
      modifies this
      ensures Model() == AnalyzeCompleted(old(Model()), outcome)
    {
      match outcome {
        case Success(result) =>
          analysis := Some(result);
          selectedTerm := None;
        case Failure =>
      }
      isLoading := false;
    }

    /** Clicking highlight or listed term `i` opens its explanation. */
    method SelectTerm(i: nat)
      requires analysis.Some? && i < |analysis.value.explanations|
      modifies this
      ensures Model() == TermSelected(old(Model()), i)
    {
      selectedTerm := Some(analysis.value.explanations[i]);
    }

    /** The close button of the explanation panel. */
    method CloseExplanation()
      modifies this
      ensures Model() == old(Model()).(selectedTerm := None)
    {
      selectedTerm := None;
    }

    /** `renderAnnotatedText`: the bare text without an analysis, the highlighted segments with one. */
    method RenderAnnotatedText() returns (r: Rendered)
      requires LiteralAnalysis(Model())
      ensures r == RenderedText(Model())
    {
      if analysis.None? {
        return Raw(text);
      }
      var segments := RenderSegments(text, analysis.value.explanations);
      r := Highlighted(segments);
    }
  }
}
