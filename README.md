# FinanceWise, modelled in Dafny

FinanceWise is a single-page personal-finance assistant. It has four views:

- **Simulator**: a chat. Each prompt asks a remote language model to project a financial scenario. The last successful projection is charted next to the conversation.
- **Debt Optimizer**: the user lists debts, sets an extra monthly payment and a preference (quick wins or saving money), and receives two payoff schedules, snowball and avalanche. The view shows the schedule that matches the preference.
- **Risk Analyzer**: a free-text portfolio description is sent for a risk report card. The view colours the score by band and the risk level by name.
- **Knowledge Hub**: a news snippet is sent for the jargon terms in it. The view redraws the snippet with every detected term highlighted, and clicking a highlight opens that term's explanation.

The one real algorithm is the Knowledge Hub's term annotator. It sorts the terms longest first. Then, for each term in turn, it splits every still-plain piece of text on case-insensitive occurrences of the term and turns each occurrence into a highlight.

The model follows the source's form:

- **Value types.** The records of `types.ts` become datatypes (`types.dfy`).
- **Annotator.** The annotator is specified by pure functions: `Split`, `Classify`, `Pass`, `Annotate` and a stable insertion sort. It is implemented as nested loops that rebuild a sequence of segments (`annotator.dfy`).
- **Views.** Each view's state is a value (`Hub`, `Optimizer`, `Chat`, `Analyzer`), and each event handler is a function from one state to the next. Each component is a class whose methods update its fields exactly as those functions say.
- **Asynchronous handlers.** Each is split into a begin step and a completion step. The begin step runs the guard, sets the loading flag and returns the request. The completion step receives the remote call's `Outcome`, either `Success(v)` or `Failure`.

Shared pieces:

- `wrappers.dfy`: `Option` and `Outcome`.
- `strings.dfy`: the ECMAScript whitespace set used by `trim`, ASCII lower-casing, case-insensitive matching, and the decimal rendering of a clock reading used as an id.

## Model

| member | source | states |
|---|---|---|
| Strings.TrimStart | App.tsx:30 | the result is a suffix of the input; the part dropped is all whitespace; the result starts with a non-whitespace character or is empty |
| Strings.TrimEnd | App.tsx:30 | the result is a prefix of the input; the part dropped is all whitespace; the result ends with a non-whitespace character or is empty |
| Strings.TrimEmptyIffBlank | components/KnowledgeHub.tsx:13 | `!s.trim()` holds exactly when every character of `s` is whitespace |
| Strings.Trim | App.tsx:30 | `trim`: its meaning is stated by `TrimStart`, `TrimEnd` and `TrimEmptyIffBlank` |
| Strings.Lower | components/KnowledgeHub.tsx:52 | an ASCII capital maps to its own lower-case letter (code point plus 32); every other character is unchanged |
| Strings.EqualsIgnoreCaseSymmetricTransitive | components/KnowledgeHub.tsx:52 | comparison after `toLowerCase` is symmetric and transitive |
| Strings.DecimalString | components/DebtOptimizer.tsx:23 | `toString` of a clock reading is non-empty, has one digit exactly below 10, and has no leading zero |
| Strings.DecimalStringInjective | App.tsx:33 | distinct clock readings give distinct id strings |
| Strings.JsLength | components/KnowledgeHub.tsx:39 | `.length` counts UTF-16 code units: at least the number of characters and at most twice it |
| Strings.JsLengthCountsSurrogates | components/KnowledgeHub.tsx:39 | `.length` equals the number of characters exactly when no character lies above U+FFFF |
| Annotator.TextOfAppend | components/KnowledgeHub.tsx:36-68 | the text of a concatenation of segment lists is the concatenation of their texts |
| Annotator.SegmentIsSlice | components/KnowledgeHub.tsx:59 | each segment's text is the slice of the whole text at that segment's offset |
| Annotator.FirstMatch | components/KnowledgeHub.tsx:50 | a match found lies inside the text at or after the start; `FirstMatchIsLeftmost` says it is the leftmost occurrence |
| Annotator.FirstMatchIsLeftmost | components/KnowledgeHub.tsx:50 | the match found is a case-insensitive occurrence, and no occurrence starts earlier |
| Annotator.Split | components/KnowledgeHub.tsx:50 | splitting with one capture group yields an odd number of parts |
| Annotator.SplitJoins | components/KnowledgeHub.tsx:50 | the parts of the split concatenate back to the input |
| Annotator.SplitAlternates | components/KnowledgeHub.tsx:50 | the captured parts (odd positions) equal the term ignoring case; the parts between them contain no occurrence |
| Annotator.SplitWhole | components/KnowledgeHub.tsx:50 | the text is split into more than one part exactly when it contains the term; otherwise the result is the text itself |
| Annotator.SplitTakesLeftmost | components/KnowledgeHub.tsx:50 | the first two parts are the text before the leftmost occurrence and that occurrence, and the rest is the split of what follows; with `SplitWhole` this fixes the split uniquely |
| Annotator.ClassifyPart | components/KnowledgeHub.tsx:51-64 | a part becomes a highlight, a plain piece, or nothing (if empty), and its text is kept |
| Annotator.Classify | components/KnowledgeHub.tsx:51-65 | the segments pushed for all split parts; stated by `ClassifyLossless` and `ClassifyFacts` |
| Annotator.Rescan | components/KnowledgeHub.tsx:44-65 | one element in one pass; stated by `RescanFacts` |
| Annotator.Pass | components/KnowledgeHub.tsx:41-68 | one term's pass over all elements; stated by `PassLossless`, `PassFacts`, `PassKeepsLack`, `PassMarksMatch`, `PassIdentity` and `PassKeepsMarks` |
| Annotator.ClassifyLossless | components/KnowledgeHub.tsx:51-65 | classifying the parts loses no text |
| Annotator.ClassifyFacts | components/KnowledgeHub.tsx:52-63 | highlights carry the pass's term index and match the term; plain pieces are non-empty, do not match the term and are parts of the split |
| Annotator.PassLossless | components/KnowledgeHub.tsx:44-67 | one pass over all elements keeps the concatenated text |
| Annotator.RescanFacts | components/KnowledgeHub.tsx:45-48 | an element already highlighted is copied through as is; a plain one yields highlights of this term and non-empty plain pieces free of it |
| Annotator.PassFacts | components/KnowledgeHub.tsx:50-65 | after a term's pass every plain piece is non-empty and contains no occurrence of that term |
| Annotator.PassKeepsLack | components/KnowledgeHub.tsx:44-65 | a later pass never brings back an occurrence of a term processed earlier |
| Annotator.PassMarksMatch | components/KnowledgeHub.tsx:52-61 | every highlight, old or new, matches the term it refers to, ignoring case |
| Annotator.PassIdentity | components/KnowledgeHub.tsx:44-65 | a pass over non-empty plain pieces that lack the term changes nothing |
| Annotator.PassKeepsMarks | components/KnowledgeHub.tsx:45-48 | every character inside a highlight stays inside that same highlight after a pass |
| Annotator.Insert | components/KnowledgeHub.tsx:39 | inserting an index adds exactly that index |
| Annotator.InsertSorted | components/KnowledgeHub.tsx:39 | insertion keeps the order longest first (length in UTF-16 code units), with ties by original position |
| Annotator.SortIndices | components/KnowledgeHub.tsx:39 | the sorted order is a permutation of the indices, longest first by JavaScript length, ties in list order |
| Annotator.ProcessingOrderSpec | components/KnowledgeHub.tsx:39 | terms are processed each exactly once, in non-increasing JavaScript length (UTF-16 code units), with equal lengths in their original order; the order is over a copy, so `explanations` keeps its own order |
| Annotator.ProcessingOrder | components/KnowledgeHub.tsx:39 | `[...explanations].sort(...)` as an index order; stated by `ProcessingOrderSpec` |
| Annotator.SurrogatePairLengthTies | components/KnowledgeHub.tsx:39 | a two-character term with a character above U+FFFF ties with a three-letter term, so their list order is kept |
| Annotator.TermsOf | components/KnowledgeHub.tsx:39 | the term list has the explanations' terms, position by position |
| Annotator.Annotate | components/KnowledgeHub.tsx:36-68 | the segments after the passes for the listed terms, starting from the whole text; stated by `AnnotateLossless`, `AnnotateMarksMatch`, `AnnotatePlains` and `MarksPersist` |
| Annotator.Annotated | components/KnowledgeHub.tsx:32-71 | the passes in processing order; stated by `AnnotatedFacts` and `AnnotatedKeepsCasing` |
| Annotator.AnnotateLossless | components/KnowledgeHub.tsx:36-68 | after all passes the segments concatenate to the input text exactly |
| Annotator.AnnotateMarksMatch | components/KnowledgeHub.tsx:52-61 | every highlight matches its explanation's term, ignoring case |
| Annotator.AnnotatePlains | components/KnowledgeHub.tsx:50-65 | after at least one pass the plain pieces are non-empty, and none contains any processed term |
| Annotator.MarksPersist | components/KnowledgeHub.tsx:45-48 | once a character is highlighted, every later pass keeps that exact highlight; a shorter term inside a longer highlighted term is never highlighted separately |
| Annotator.RepeatedTermMarksNothing | components/KnowledgeHub.tsx:41-68 | a duplicate of an already processed term changes nothing |
| Annotator.AbsentTermMarksNothing | components/KnowledgeHub.tsx:44-65 | a term absent from the text leaves a list of non-empty segments unchanged |
| Annotator.AnnotatedFacts | components/KnowledgeHub.tsx:32-71 | the annotator's result is lossless; its highlights match their terms; its plain pieces are non-empty and contain no detected term |
| Annotator.AnnotatedKeepsCasing | components/KnowledgeHub.tsx:59 | each highlight's text is the source's own slice at its position, so it keeps the source's casing |
| Annotator.PushParts | components/KnowledgeHub.tsx:51-65 | the inner loop pushes exactly the classified parts after what was already built |
| Annotator.RescanAll | components/KnowledgeHub.tsx:43-67 | the loop over the elements builds exactly one pass and keeps the text |
| Annotator.ApplyPasses | components/KnowledgeHub.tsx:41-68 | the outer loop applies the passes in the given order |
| Annotator.RenderSegments | components/KnowledgeHub.tsx:32-71 | `renderAnnotatedText` with an analysis: lossless; highlights match their terms; plain pieces are non-empty and free of every term |
| KnowledgeHub.RenderedText | components/KnowledgeHub.tsx:32-71 | `renderAnnotatedText` returns the bare text when there is no analysis (its early return at line 33), and otherwise segments whose text is that text |
| KnowledgeHub.RequestIsCurrentText | components/KnowledgeHub.tsx:13-16 | a request goes out exactly when the text is not blank and none is pending, and it carries the current text |
| KnowledgeHub.AnalyzeRequest | components/KnowledgeHub.tsx:13-16 | the text sent, if any; stated by `RequestIsCurrentText` and `NoSecondRequest` |
| KnowledgeHub.AnalyzeStarted | components/KnowledgeHub.tsx:13-14 | the state after the click; stated by `RequestIsCurrentText` and `NoSecondRequest` |
| KnowledgeHub.AnalyzeCompleted | components/KnowledgeHub.tsx:15-23 | the state once the call settles; stated by `FailedAnalyzeRestores` and `SuccessfulAnalyzeShowsTerms` |
| KnowledgeHub.NoSecondRequest | components/KnowledgeHub.tsx:99 | while a request is pending the button sends nothing and changes nothing |
| KnowledgeHub.FailedAnalyzeRestores | components/KnowledgeHub.tsx:19-23 | a failed analysis leaves the view exactly as before the click |
| KnowledgeHub.SuccessfulAnalyzeShowsTerms | components/KnowledgeHub.tsx:17-18 | success installs the new analysis, clears the selection and shows the detected-terms list |
| KnowledgeHub.HighlightsExplainTheirText | components/KnowledgeHub.tsx:52-56 | every highlight opens an explanation whose term it matches; no plain piece contains any detected term; no text is lost |
| KnowledgeHub.TermSelected | components/KnowledgeHub.tsx:56 | a click selects one of the current analysis's explanations; stated by `ClickedHighlightExplainsIt` |
| KnowledgeHub.ClickedHighlightExplainsIt | components/KnowledgeHub.tsx:52-56 | clicking a highlight opens an explanation whose term equals the clicked text ignoring case, keeps the article and analysis, and replaces the terms list with the panel |
| KnowledgeHub.KnowledgeHubView.SetText | components/KnowledgeHub.tsx:93 | typing replaces only the text |
| KnowledgeHub.KnowledgeHubView.LoadSample | components/KnowledgeHub.tsx:84 | a sample button puts that sample's text in the text area |
| KnowledgeHub.KnowledgeHubView.BeginAnalyze | components/KnowledgeHub.tsx:12-16 | the guard and the loading flag, as `AnalyzeRequest` and `AnalyzeStarted` |
| KnowledgeHub.KnowledgeHubView.CompleteAnalyze | components/KnowledgeHub.tsx:17-23 | success replaces the analysis and clears the selection; failure keeps both; loading ends |
| KnowledgeHub.KnowledgeHubView.SelectTerm | components/KnowledgeHub.tsx:165 | clicking highlight or listed term `i` opens the `i`-th explanation of the current analysis, as `TermSelected` |
| KnowledgeHub.KnowledgeHubView.CloseExplanation | components/KnowledgeHub.tsx:124 | the close button clears only the selection |
| KnowledgeHub.KnowledgeHubView.RenderAnnotatedText | components/KnowledgeHub.tsx:32-71 | `renderAnnotatedText` on the component's current state returns what `RenderedText` describes |
| DebtOptimizer.WithoutMembers | components/DebtOptimizer.tsx:37 | a debt survives removal exactly when it was listed and has a different id |
| DebtOptimizer.WithoutUnused | components/DebtOptimizer.tsx:37 | removing an id that no debt carries changes nothing |
| DebtOptimizer.WithoutAppend | components/DebtOptimizer.tsx:37 | the filter works piece by piece, so the debts that stay keep their order |
| DebtOptimizer.WithoutIdempotent | components/DebtOptimizer.tsx:37 | after removal no debt carries the id, and removing it again changes nothing |
| DebtOptimizer.Without | components/DebtOptimizer.tsx:37 | `filter(d => d.id !== id)`; stated by `WithoutMembers`, `WithoutUnused`, `WithoutAppend` and `WithoutIdempotent` |
| DebtOptimizer.DebtRemoved | components/DebtOptimizer.tsx:36-38 | `removeDebt`; stated by `AddThenRemove` and `RemoveKeepsOtherDebt` |
| DebtOptimizer.NewDebt | components/DebtOptimizer.tsx:22-28 | the debt built from the form; stated by `AddDebtEffect` |
| DebtOptimizer.DebtAdded | components/DebtOptimizer.tsx:20-34 | `addDebt`; stated by `AddDebtEffect` and `AddThenRemove` |
| DebtOptimizer.AddDebtEffect | components/DebtOptimizer.tsx:20-34 | an incomplete form changes nothing; a complete one appends exactly one debt at the end (id the clock reading in decimal, the form's name, balance, rate and minimum payment parsed), keeps the earlier debts, clears all four inputs and leaves extra payment, preference, result and loading flag unchanged |
| DebtOptimizer.AddThenRemove | components/DebtOptimizer.tsx:20-38 | adding a debt under a fresh id and then removing that id gives back the original list |
| DebtOptimizer.RemoveKeepsOtherDebt | components/DebtOptimizer.tsx:23 | debts stamped at different clock readings have different ids, so removing one keeps the other |
| DebtOptimizer.RequestNeedsDebts | components/DebtOptimizer.tsx:41 | a request goes out exactly when some debt is listed and none is pending; it carries the current debts |
| DebtOptimizer.FailedCalculateRestores | components/DebtOptimizer.tsx:46-50 | a failed calculation leaves the view exactly as before the click |
| DebtOptimizer.SuccessfulCalculateShowsRoadmap | components/DebtOptimizer.tsx:44-50 | a successful round replaces the shown roadmap with the answer, ends loading and leaves everything else as at the click |
| DebtOptimizer.CalculateRequest | components/DebtOptimizer.tsx:40-44 | what is sent, if anything; stated by `RequestNeedsDebts` |
| DebtOptimizer.CalculateStarted | components/DebtOptimizer.tsx:41-42 | the state after the click; stated by `RequestNeedsDebts` and `FailedCalculateRestores` |
| DebtOptimizer.CalculateCompleted | components/DebtOptimizer.tsx:45-50 | the state once the call settles; stated by `SuccessfulCalculateShowsRoadmap` and `FailedCalculateRestores` |
| DebtOptimizer.ActivePlan | components/DebtOptimizer.tsx:164 | the schedule a preference names; stated by `ShownRoadmapIsOnePlan` |
| DebtOptimizer.ShownRoadmap | components/DebtOptimizer.tsx:164-212 | the four figures, each chosen by its own conditional; stated by `ShownRoadmapIsOnePlan` |
| DebtOptimizer.PreferenceChosen | components/DebtOptimizer.tsx:127-133 | a strategy button; stated by `PreferenceSwitchesShownPlan` |
| DebtOptimizer.ShownRoadmapIsOnePlan | components/DebtOptimizer.tsx:164-212 | the chart, payoff order, months and interest all come from one schedule: avalanche for save-money, snowball for quick-win |
| DebtOptimizer.PreferenceSwitchesShownPlan | components/DebtOptimizer.tsx:127-133 | choosing a preference keeps the result, shows that preference's whole schedule without a new request, and choosing the old preference back restores the view |
| DebtOptimizer.SavingsMethodNamesAvalanche | components/DebtOptimizer.tsx:192 | the label reads "Avalanche" exactly when the saving is positive, and "Current" otherwise |
| DebtOptimizer.SavingsMethod | components/DebtOptimizer.tsx:192 | the method named in the savings panel; stated by `SavingsMethodNamesAvalanche` |
| DebtOptimizer.DebtOptimizerView.EditForm | components/DebtOptimizer.tsx:89-102 | typing changes only the form inputs |
| DebtOptimizer.DebtOptimizerView.AddDebt | components/DebtOptimizer.tsx:20-34 | `addDebt`, as `DebtAdded` |
| DebtOptimizer.DebtOptimizerView.RemoveDebt | components/DebtOptimizer.tsx:36-38 | the filtering loop leaves exactly `Without(debts, id)` and touches nothing else |
| DebtOptimizer.DebtOptimizerView.SetExtraPayment | components/DebtOptimizer.tsx:117 | only the extra payment changes |
| DebtOptimizer.DebtOptimizerView.SetPreference | components/DebtOptimizer.tsx:127-133 | the new state is `PreferenceChosen` of the old: only the preference changes and the result is not recomputed |
| DebtOptimizer.DebtOptimizerView.BeginCalculate | components/DebtOptimizer.tsx:40-44 | the guard and the loading flag, as `CalculateRequest` and `CalculateStarted` |
| DebtOptimizer.DebtOptimizerView.CompleteCalculate | components/DebtOptimizer.tsx:45-50 | success replaces the result; failure keeps it; loading ends |
| DebtOptimizer.DebtOptimizerView.ShownPlan | components/DebtOptimizer.tsx:156-212 | the roadmap panel is present exactly when a result exists, and it shows the schedule the preference names |
| App.SendButtonMatchesHandler | App.tsx:174 | the send button is enabled exactly when submitting the form would send the typed input |
| App.Prompt | App.tsx:29 | `customPrompt \|\| input`; stated by `TemplateOverridesInput` |
| App.SubmitRequest | App.tsx:29-44 | the prompt sent, if any; stated by `SendButtonMatchesHandler`, `TemplateOverridesInput` and `PendingBlocksEverything` |
| App.Submitted | App.tsx:30-41 | the state after an accepted or refused submission; stated by `SuccessfulRound`, `FailedRound`, `PendingBlocksEverything` and `SubmittedKeepsWellFormed` |
| App.Answered | App.tsx:43-65 | the state once the call settles; stated by `SuccessfulRound`, `FailedRound` and `AnsweredKeepsWellFormed` |
| App.InputTyped | App.tsx:167-170 | typing, ignored while a reply is pending; stated by `PendingBlocksEverything` |
| App.TemplateOverridesInput | App.tsx:29 | a non-empty template text is sent whatever is typed, and the input is cleared; an empty custom prompt falls back to the input |
| App.PendingBlocksEverything | App.tsx:30 | while a reply is pending, submitting and typing change nothing |
| App.SuccessfulRound | App.tsx:32-55 | a successful round appends exactly the prompt and one reply carrying the result, charts the result, clears the input and ends loading |
| App.FailedRound | App.tsx:56-65 | a failed round appends exactly the prompt and one apology without data, keeps the chart and ends loading |
| App.ReplyIdDiffers | App.tsx:33-47 | with a clock that does not run backwards, the reply's id differs from its prompt's |
| App.SubmittedKeepsWellFormed | App.tsx:30-41 | a submission keeps the history alternating, with non-blank prompts |
| App.AnsweredKeepsWellFormed | App.tsx:54-64 | a reply keeps the history alternating and ends the wait |
| App.StepKeepsWellFormed | App.tsx:27-66 | every event keeps the history well formed |
| App.RunKeepsWellFormed | App.tsx:27-66 | after any sequence of events the history alternates prompt and reply, prompts are non-blank, and loading holds exactly when a reply is outstanding |
| App.InitialWellFormed | App.tsx:12-16 | the initial shell is well formed |
| App.RunExtendsHistory | App.tsx:39-57 | the history is append-only: earlier messages are never altered, removed or reordered |
| App.ChatView.SetMode | App.tsx:88 | a navigation button changes only the mode |
| App.ChatView.SetInput | App.tsx:167-170 | typing changes the input, unless a reply is pending |
| App.ChatView.BeginSubmit | App.tsx:27-41 | `handleSubmit` up to the call, as `SubmitRequest` and `Submitted` |
| App.ChatView.SubmitTemplate | App.tsx:192 | a template card submits its own text as the custom prompt |
| App.ChatView.CompleteSubmit | App.tsx:43-65 | `handleSubmit` after the call, as `Answered` |
| RiskAnalyzer.ScoreColorBands | components/RiskAnalyzer.tsx:26-30 | emerald exactly from 80 up, amber exactly on [50, 80), rose exactly below 50 |
| RiskAnalyzer.ScoreColorMonotone | components/RiskAnalyzer.tsx:26-30 | a higher score never gets a worse colour |
| RiskAnalyzer.RiskBadgeDistinguishesLevels | components/RiskAnalyzer.tsx:32-40 | the four levels get four distinct badges, none of them the slate default; any other string gets the default |
| RiskAnalyzer.ScoreColor | components/RiskAnalyzer.tsx:26-30 | `getScoreColor`; stated by `ScoreColorBands` and `ScoreColorMonotone` |
| RiskAnalyzer.RiskBadge | components/RiskAnalyzer.tsx:32-40 | `getRiskBg`; stated by `RiskBadgeDistinguishesLevels` |
| RiskAnalyzer.RequestIsCurrentPortfolio | components/RiskAnalyzer.tsx:13-17 | a request goes out exactly for a non-blank description with none pending, and it carries the current description |
| RiskAnalyzer.FailedAnalyzeRestores | components/RiskAnalyzer.tsx:19-23 | a failed analysis leaves the view exactly as before the click |
| RiskAnalyzer.SuccessfulAnalyzeShowsReport | components/RiskAnalyzer.tsx:16-23 | a successful round replaces the shown report with the answer, ends loading and keeps the description |
| RiskAnalyzer.AnalyzeRequest | components/RiskAnalyzer.tsx:13-17 | the description sent, if any; stated by `RequestIsCurrentPortfolio` |
| RiskAnalyzer.AnalyzeStarted | components/RiskAnalyzer.tsx:13-15 | the state after the click; stated by `RequestIsCurrentPortfolio` and `FailedAnalyzeRestores` |
| RiskAnalyzer.AnalyzeCompleted | components/RiskAnalyzer.tsx:16-23 | the state once the call settles; stated by `SuccessfulAnalyzeShowsReport` and `FailedAnalyzeRestores` |
| RiskAnalyzer.PortfolioTyped | components/RiskAnalyzer.tsx:53-56 | typing, ignored while a request is pending; stated by `PendingFreezesPortfolio` |
| RiskAnalyzer.PendingFreezesPortfolio | components/RiskAnalyzer.tsx:56 | while a request is pending, no user event changes the view |
| RiskAnalyzer.RiskAnalyzerView.SetPortfolio | components/RiskAnalyzer.tsx:53-56 | typing changes the description, unless a request is pending |
| RiskAnalyzer.RiskAnalyzerView.BeginAnalyze | components/RiskAnalyzer.tsx:11-15 | the guard and the loading flag, as `AnalyzeRequest` and `AnalyzeStarted` |
| RiskAnalyzer.RiskAnalyzerView.CompleteAnalyze | components/RiskAnalyzer.tsx:16-23 | success replaces the report; failure keeps it; loading ends |

## Left out

- Annotator.RenderSegments: the term is placed unescaped into a regular expression. The model covers only literal terms: non-empty, and containing none of `\^$.*+?()[]{}|` (the `LiteralTerms` precondition). An empty term, or one with regular-expression syntax, is not modelled.
- KnowledgeHub.RenderedText: requires the same literal-terms condition on the current analysis, for the same reason.
- KnowledgeHub.KnowledgeHubView.RenderAnnotatedText: requires the same literal-terms condition (`LiteralAnalysis`) on the component's current analysis, for the same reason.
- KnowledgeHub.RenderedText: the placeholder the component shows when there is no analysis (components/KnowledgeHub.tsx:111-115) is not modelled; only what `renderAnnotatedText` returns is.
- Strings.Lower: case-insensitive matching (`Strings.EqualsIgnoreCase`, and so every highlight) uses ASCII lower-casing. Unicode case folding by `toLowerCase` and the regular-expression `i` flag are not modelled.
- Annotator.RenderSegments: the fact that each highlight keeps the source's casing is stated by the lemma `AnnotatedKeepsCasing`, not in the method's postcondition.
- The selected-term styling of highlights (components/KnowledgeHub.tsx:57) is presentation only and is not modelled.
- The two sample texts are held as constants. No lemma states that they are non-blank.
- App.ChatView.SubmitTemplate: the four template texts are held as constants and are not proved non-blank, so `TemplateOverridesInput` (which assumes a non-blank text) is not established for them; the method's contract covers either case through `SubmitRequest`.
- The remote service (services/gemini.ts) is not part of this model. Each call is an `Outcome` parameter: `Success` with a result, or `Failure`. The payoff schedules, risk scores and term lists are computed remotely, so nothing about them is proved here.
- `Date.now()` is a `now` parameter, a natural number of milliseconds. Message timestamps are not modelled.
- `parseFloat` is a `parse` parameter, and numbers are reals. NaN and floating-point rounding are not modelled.
- The `alert` calls, JSX, CSS classes other than the two colour rules, charts (components/ChartPanel.tsx), scenario cards (components/ScenarioCard.tsx), scrolling, and currency formatting are not modelled.
- A mode switch unmounts the other views and discards their state. The model keeps each view as a separate component and does not model that reset.
- async/await interleaving is not modelled. Each handler is a begin step followed by one completion step, which requires the loading flag still set.
