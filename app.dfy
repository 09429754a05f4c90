/**
 * The application shell and its financial simulator chat: a mode switch
 * between the four views, a message history, a prompt input, and four
 * template cards. Submitting a prompt appends it to the history, asks the
 * remote service to simulate the scenario, and appends the assistant's reply;
 * a successful reply also becomes the scenario charted beside the chat.
 *
 * The shell's state is the value `Chat`; each handler is a function on it,
 * and `ChatView` is the component, whose methods update its fields exactly
 * as those functions say.
 */
module App {
  import opened Wrappers
  import opened Strings
  import opened Types

  datatype Role = User | Assistant

  /** A chat message; its id is a clock reading in decimal. */
  datatype Message = Message(id: string, role: Role, content: string, data: Option<ScenarioResult>)

  /** Everything the shell keeps in state. */
  datatype Chat = Chat(
    mode: AppMode,
    messages: seq<Message>,
    input: string,
    isLoading: bool,
    currentScenario: Option<ScenarioResult>)

  /** The shell as first shown: the simulator, an empty history and input, nothing charted. */
  const Initial: Chat := Chat(Simulator, [], "", false, None)

  /** The assistant's text when a simulation comes back. */
  const SuccessReply: string :=
    "I've simulated that scenario for you. Based on the data, here is the projected trajectory over the next few years."

  /** The assistant's text when the simulation fails. */
  const FailureReply: string :=
    "I'm sorry, I couldn't process that scenario. Please try rephrasing or using one of the templates."

  /** A template card: clicking it submits its text as the prompt. */
  datatype Template = Template(title: string, icon: string, text: string, description: string)

  const Templates: seq<Template> := [
    Template("Coffee Habit", "\U{2615}",
      "What if I stop buying a $5 coffee daily and invest it in the S&P 500 for 15 years?",
      "Daily savings to long-term wealth."),
    Template("Car Purchase", "\U{1F697}",
      "If I buy a $35,000 car at 7.5% interest over 5 years, what's my total cost including depreciation?",
      "Total cost of ownership."),
    Template("House Downpayment", "\U{1F3E0}",
      "How much faster will I reach a $100k downpayment if I increase my monthly savings from $500 to $1,200?",
      "Savings rate impact."),
    Template("Retirement Goal", "\U{1F305}",
      "What happens if I delay retirement by 5 years but increase my savings rate by 10% starting now?",
      "Work-life retirement balance.")
  ]

  // ---------------------------------------------------------------------
  // Submitting a prompt
  // ---------------------------------------------------------------------

  /** `customPrompt || input`: a template's text when one is given and non-empty, else the typed input. */
  function Prompt(customPrompt: Option<string>, input: string): string {
    if customPrompt.Some? && customPrompt.value != "" then customPrompt.value else input
  }

  /** `handleSubmit` goes ahead: its prompt is not blank once trimmed and no reply is pending. */
  predicate SubmitAllowed(c: Chat, customPrompt: Option<string>) {
    !IsBlank(Prompt(customPrompt, c.input)) && !c.isLoading
  }

  /** The prompt sent to the service, if any. */
  function SubmitRequest(c: Chat, customPrompt: Option<string>): Option<string> {
    if SubmitAllowed(c, customPrompt) then Some(Prompt(customPrompt, c.input)) else None
  }

  /**
   * The state right after a submission at clock reading `now`: the prompt
   * joins the history as a user message, the input is cleared (even when a
   * template supplied the prompt) and a reply is pending.
   */
  function Submitted(c: Chat, customPrompt: Option<string>, now: nat): Chat {
    if SubmitAllowed(c, customPrompt) then
      c.(messages := c.messages + [Message(DecimalString(now), User, Prompt(customPrompt, c.input), None)],
         input := "", isLoading := true)
    else c
  }

  /**
   * The state once the pending simulation settles, the clock reading
   * `now` then: the assistant's reply (id one millisecond later) joins the
   * history; a successful result rides on it and becomes the charted
   * scenario; a failure leaves the chart alone.
   */
  function Answered(c: Chat, outcome: Outcome<ScenarioResult>, now: nat): Chat {
    match outcome
    case Success(r) =>
      c.(messages := c.messages + [Message(DecimalString(now + 1), Assistant, SuccessReply, Some(r))],
         currentScenario := Some(r), isLoading := false)
    case Failure =>
      c.(messages := c.messages + [Message(DecimalString(now + 1), Assistant, FailureReply, None)],
         isLoading := false)
  }

  /** The send button is enabled: no reply pending and a non-blank input. */
  predicate SendEnabled(c: Chat) {
    !c.isLoading && !IsBlank(c.input)
  }

  /** The prompt input accepts typing only while no reply is pending; otherwise it is disabled. */
  function InputTyped(c: Chat, text: string): Chat {
    if c.isLoading then c else c.(input := text)
  }

  // ---------------------------------------------------------------------
  // Properties of submission
  // ---------------------------------------------------------------------

  /** The send button is enabled exactly when submitting the form would send the typed input. */
  lemma SendButtonMatchesHandler(c: Chat)
    ensures SendEnabled(c) <==> SubmitRequest(c, None).Some?
    ensures SendEnabled(c) ==> SubmitRequest(c, None) == Some(c.input)
  {
  }

  /**
   * A template's text is sent whatever is typed, and the typed draft is
   * discarded; an empty custom prompt falls back to the input.
   */
  lemma TemplateOverridesInput(c: Chat, text: string, now: nat)
    requires !c.isLoading && !IsBlank(text)
    ensures SubmitRequest(c, Some(text)) == Some(text)
    ensures Submitted(c, Some(text), now).input == ""
    ensures Prompt(Some(""), c.input) == c.input
  {
    assert text != "";
  }

  /** While a reply is pending, neither the form, a template, nor typing changes anything. */
  lemma PendingBlocksEverything(c: Chat, customPrompt: Option<string>, now: nat, text: string)
    requires c.isLoading
    ensures SubmitRequest(c, customPrompt) == None
    ensures Submitted(c, customPrompt, now) == c
    ensures InputTyped(c, text) == c
  {
  }

  /**
   * A successful round adds exactly the user's prompt and the assistant's
   * reply carrying the result, and charts that result.
   */
  lemma SuccessfulRound(c: Chat, customPrompt: Option<string>, now: nat, later: nat, r: ScenarioResult)
    requires SubmitAllowed(c, customPrompt)
    ensures var after := Answered(Submitted(c, customPrompt, now), Success(r), later);
      && after.messages == c.messages + [
           Message(DecimalString(now), User, Prompt(customPrompt, c.input), None),
           Message(DecimalString(later + 1), Assistant, SuccessReply, Some(r))]
      && after.currentScenario == Some(r) && !after.isLoading && after.input == ""
  {
  }

  /**
   * A failed round keeps the prompt in the history, answers with the
   * apology, keeps the previous chart, and does not give back the input.
   */
  lemma FailedRound(c: Chat, customPrompt: Option<string>, now: nat, later: nat)
    requires SubmitAllowed(c, customPrompt)
    ensures var after := Answered(Submitted(c, customPrompt, now), Failure, later);
      && after.messages == c.messages + [
           Message(DecimalString(now), User, Prompt(customPrompt, c.input), None),
           Message(DecimalString(later + 1), Assistant, FailureReply, None)]
      && after.currentScenario == c.currentScenario && !after.isLoading && after.input == ""
  {
  }

  /** With a clock that does not run backwards, a reply's id differs from its prompt's. */
  lemma ReplyIdDiffers(now: nat, later: nat)
    requires now <= later
    ensures DecimalString(now) != DecimalString(later + 1)
  {
    if DecimalString(now) == DecimalString(later + 1) {
      DecimalStringInjective(now, later + 1);
    }
  }

  // ---------------------------------------------------------------------
  // The conversation over any sequence of events
  // ---------------------------------------------------------------------

  /** What can happen to the shell: typing, submitting (form or template), a reply settling, a mode switch. */
  datatype Event =
    | Type(text: string)
    | Submit(customPrompt: Option<string>, now: nat)
    | Settle(outcome: Outcome<ScenarioResult>, now: nat)
    | SwitchMode(mode: AppMode)

  /** One event; a reply only settles while one is pending. */
  function Step(c: Chat, e: Event): Chat {
    match e
    case Type(text) => InputTyped(c, text)
    case Submit(customPrompt, now) => Submitted(c, customPrompt, now)
    case Settle(outcome, now) => if c.isLoading then Answered(c, outcome, now) else c
    case SwitchMode(m) => c.(mode := m)
  }

  /** The events in order. */
  function Run(c: Chat, events: seq<Event>): Chat
    decreases |events|
  {
    if events == [] then c else Step(Run(c, events[..|events| - 1]), events[|events| - 1])
  }

  /**
   * The history alternates user prompt, assistant reply, starting with a
   * prompt; a reply is pending exactly when the last message is a prompt;
   * and every prompt is non-blank.
   */
  predicate WellFormed(c: Chat) {
    && (c.isLoading <==> |c.messages| % 2 == 1)
    && (forall k :: 0 <= k < |c.messages| ==> (c.messages[k].role == User <==> k % 2 == 0))
    && (forall k :: 0 <= k < |c.messages| && c.messages[k].role == User ==> !IsBlank(c.messages[k].content))
  }

  /** A submission appends a non-blank prompt at an even position and starts the wait. */
  lemma SubmittedKeepsWellFormed(c: Chat, customPrompt: Option<string>, now: nat)
    requires WellFormed(c)
    ensures WellFormed(Submitted(c, customPrompt, now))
  {
    if SubmitAllowed(c, customPrompt) {
      var m := Message(DecimalString(now), User, Prompt(customPrompt, c.input), None);
      assert Submitted(c, customPrompt, now).messages == c.messages + [m];
    }
  }

  /** A settling reply lands at an odd position and ends the wait. */
  lemma AnsweredKeepsWellFormed(c: Chat, outcome: Outcome<ScenarioResult>, now: nat)
    requires WellFormed(c) && c.isLoading
    ensures WellFormed(Answered(c, outcome, now))
  {
    var after := Answered(c, outcome, now);
    assert |after.messages| == |c.messages| + 1;
    assert after.messages[..|c.messages|] == c.messages;
  }

  /** Every event keeps the history well formed. */
  lemma StepKeepsWellFormed(c: Chat, e: Event)
    requires WellFormed(c)
    ensures WellFormed(Step(c, e))
  {
    match e
    case Submit(customPrompt, now) => SubmittedKeepsWellFormed(c, customPrompt, now);
    case Settle(outcome, now) => if c.isLoading { AnsweredKeepsWellFormed(c, outcome, now); }
    case _ =>
  }

  /**
   * From the initial state, whatever happens: the history alternates
   * prompts and replies, only non-blank prompts are recorded, and at most
   * one reply is ever pending.
   */
  lemma {:induction false} RunKeepsWellFormed(c: Chat, events: seq<Event>)
    requires WellFormed(c)
    ensures WellFormed(Run(c, events))
    decreases |events|
  {
    if events != [] {
      RunKeepsWellFormed(c, events[..|events| - 1]);
      StepKeepsWellFormed(Run(c, events[..|events| - 1]), events[|events| - 1]);
    }
  }

  /** The initial shell is well formed. */
  lemma InitialWellFormed()
    ensures WellFormed(Initial)
  {
  }

  /** The history only grows: messages are never edited or removed. */
  lemma {:induction false} RunExtendsHistory(c: Chat, events: seq<Event>)
    ensures |c.messages| <= |Run(c, events).messages|
    ensures Run(c, events).messages[..|c.messages|] == c.messages
    decreases |events|
  {
    if events != [] {
      var before := Run(c, events[..|events| - 1]);
      RunExtendsHistory(c, events[..|events| - 1]);
      var after := Step(before, events[|events| - 1]);
      assert after.messages[..|before.messages|] == before.messages;
      assert after.messages[..|c.messages|] == before.messages[..|c.messages|];
    }
  }

  // ---------------------------------------------------------------------
  // The component
  // ---------------------------------------------------------------------

  class ChatView {
    var mode: AppMode
    var messages: seq<Message>
    var input: string
    var isLoading: bool
    var currentScenario: Option<ScenarioResult>

    /** The component's state as a value. */
    function Model(): Chat
      reads this
    {
      Chat(mode, messages, input, isLoading, currentScenario)
    }

    constructor ()
      ensures Model() == Initial
    {
      mode := Simulator;
      messages := [];
      input := "";
      isLoading := false;
      currentScenario := None;
    }

    /** A navigation button. */
    method SetMode(m: AppMode)
      modifies this
      ensures Model() == old(Model()).(mode := m)
    {
      mode := m;
    }

    /** Typing in the prompt input. */
    method SetInput(text: string)
      modifies this
      ensures Model() == InputTyped(old(Model()), text)
    {
      if !isLoading {
        input := text;
      }
    }

    /** `handleSubmit` up to the awaited call, at clock reading `now`: returns the prompt sent, if any. */
    method BeginSubmit(customPrompt: Option<string>, now: nat) returns (sent: Option<string>)
      modifies this
      ensures sent == SubmitRequest(old(Model()), customPrompt)
      ensures Model() == Submitted(old(Model()), customPrompt, now)
    {
      var prompt := if customPrompt.Some? && customPrompt.value != "" then customPrompt.value else input;
      if IsBlank(prompt) || isLoading {
        return None;
      }
      var userMessage := Message(DecimalString(now), User, prompt, None);
      messages := messages + [userMessage];
      input := "";
      isLoading := true;
      sent := Some(prompt);
    }

    /** A template card: `handleSubmit` with the template's text as the custom prompt. */
    method SubmitTemplate(i: nat, now: nat) returns (sent: Option<string>)
      requires i < |Templates|
      modifies this
      ensures sent == SubmitRequest(old(Model()), Some(Templates[i].text))
      ensures Model() == Submitted(old(Model()), Some(Templates[i].text), now)
    {
      sent := BeginSubmit(Some(Templates[i].text), now);
    }

    /** `handleSubmit` after the awaited call settles with `outcome`, at clock reading `now`. */
    method CompleteSubmit(outcome: Outcome<ScenarioResult>, now: nat)
      requires isLoading
      modifies this
      ensures Model() == Answered(old(Model()), outcome, now)
    {
      match outcome {
        case Success(result) =>
          var reply := Message(DecimalString(now + 1), Assistant, SuccessReply, Some(result));
          messages := messages + [reply];
          currentScenario := Some(result);
        case Failure =>
          messages := messages + [Message(DecimalString(now + 1), Assistant, FailureReply, None)];
      }
      isLoading := false;
    }
  }
}
