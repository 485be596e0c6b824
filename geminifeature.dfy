/** The "Ask Gemini" panel: an input line, a transcript and a loading flag.
    Submitting a question is split at its `await` into two steps: `Submit`
    records the question and the request that goes out, `Resolve` records
    how that request settled. */
module GeminiFeature {
  import opened Types
  import opened JsString
  import opened Data
  import opened GeminiService

  /** The fixed pieces of the prompt template, around the context summary and
      the question. */
  const PROMPT_INTRO: string := "\nContext:\n"
  const PROMPT_INSTRUCTION: string :=
    "\n---\nBased on the context above, please answer the following question. "
    + "If the answer is not in the context, say so.\nQuestion: "
  const PROMPT_TAIL: string := "\n    "

  /** The message texts used when a rejection carries no usable message. */
  const DEFAULT_ERROR: string := "Failed to get response from Gemini."
  const DEFAULT_FAILURE_TEXT: string := "Failed to connect"
  const ERROR_TEXT_PREFIX: string := "Error: "

  /** The prompt sent for a question: the summary and the question set into
      the template, the summary right after the intro and the question right
      before the tail. */
  function Prompt(summary: string, question: string): (p: string)
    ensures |p| >= |PROMPT_INTRO| + |summary| && |p| >= |question| + |PROMPT_TAIL|
    ensures p[..|PROMPT_INTRO|] == PROMPT_INTRO
    ensures p[|PROMPT_INTRO|..|PROMPT_INTRO| + |summary|] == summary
    ensures p[|p| - |PROMPT_TAIL| - |question|..|p| - |PROMPT_TAIL|] == question
    ensures p[|p| - |PROMPT_TAIL|..] == PROMPT_TAIL
    ensures |p| >= |PROMPT_TAIL| + |question| + 10
      && p[|p| - |PROMPT_TAIL| - |question| - 10..|p| - |PROMPT_TAIL| - |question|] == "Question: "
  {
    InstructionEndsInLabel();
    var p := PROMPT_INTRO + summary + PROMPT_INSTRUCTION + question + PROMPT_TAIL;
    assert p == (PROMPT_INTRO + summary + PROMPT_INSTRUCTION) + question + PROMPT_TAIL;
    p
  }

  /** The instruction closes with the `Question: ` label. */
  lemma InstructionEndsInLabel()
    ensures |PROMPT_INSTRUCTION| >= 10
    ensures PROMPT_INSTRUCTION[|PROMPT_INSTRUCTION| - 10..] == "Question: "
  {
  }

  /** Everything of a prompt before the question. */
  function PromptHead(summary: string): string
  {
    PROMPT_INTRO + summary + PROMPT_INSTRUCTION
  }

  /** The question a prompt asks, if `p` is a prompt for this summary. */
  function QuestionOf(summary: string, p: string): (q: Option<string>)
    ensures q.Some? ==> Prompt(summary, q.value) == p
  {
    var head := PromptHead(summary);
    if |head| + |PROMPT_TAIL| <= |p| && p[..|head|] == head && p[|p| - |PROMPT_TAIL|..] == PROMPT_TAIL then
      var question := p[|head|..|p| - |PROMPT_TAIL|];
      assert p == head + question + PROMPT_TAIL;
      Some(question)
    else
      None
  }

  /** The question can be read back from the prompt, so different questions
      give different prompts. */
  lemma QuestionOfPrompt(summary: string, question: string)
    ensures QuestionOf(summary, Prompt(summary, question)) == Some(question)
  {
    var head := PromptHead(summary);
    var p := Prompt(summary, question);
    assert p == head + question + PROMPT_TAIL;
    assert p[..|head|] == head;
    assert p[|p| - |PROMPT_TAIL|..] == PROMPT_TAIL;
    assert p[|head|..|p| - |PROMPT_TAIL|] == question;
  }

  lemma PromptInjective(summary: string, q1: string, q2: string)
    requires Prompt(summary, q1) == Prompt(summary, q2)
    ensures q1 == q2
  {
    QuestionOfPrompt(summary, q1);
    QuestionOfPrompt(summary, q2);
  }

  /** How the awaited `generateText` settled: with a string, or by rejecting
      with a value whose `message` may be missing. */
  datatype Settled = Fulfilled(text: string) | Rejected(message: Option<string>)

  /** `e.message || fallback`. */
  function MessageOr(message: Option<string>, fallback: string): (r: string)
    ensures message.Some? && message.value != [] ==> r == message.value
    ensures message.None? || message.value == [] ==> r == fallback
  {
    if message.Some? && message.value != [] then message.value else fallback
  }

  /** The panel's four pieces of state, and the prompt of the request that is
      awaited, if any. */
  datatype PanelState = PanelState(
    userInput: string,
    chatHistory: seq<ChatMessage>,
    isLoading: bool,
    error: Option<string>,
    inFlight: Option<string>)

  const INITIAL: PanelState := PanelState("", [], false, None, None)

  /** The text field accepts typing unless a request is awaited. */
  predicate InputEnabled(st: PanelState)
  {
    !st.isLoading
  }

  /** The submit button is enabled unless a request is awaited or the input
      is blank: `!userInput.trim()` holds exactly for a blank input (see
      `Trim`). */
  predicate SubmitEnabled(st: PanelState)
  {
    !st.isLoading && !IsBlank(st.userInput)
  }

  /** The button's condition, as the component writes it with `trim`. */
  lemma SubmitEnabledTrim(st: PanelState)
    ensures SubmitEnabled(st) <==> !st.isLoading && Trim(st.userInput) != []
  {
  }

  /** Roles alternate user, model, user, ... along the transcript. */
  predicate Alternating(h: seq<ChatMessage>)
  {
    forall i :: 0 <= i < |h| ==> h[i].role == (if i % 2 == 0 then User else Model)
  }

  /** What holds of the panel between events: a request is awaited exactly
      while loading; the transcript alternates user and model turns and ends
      on an unanswered question exactly while loading; that question is the
      (locked) input and the prompt awaited is made from it; and no error is
      shown while waiting. */
  ghost predicate PanelValid(st: PanelState, summary: string)
  {
    && (st.isLoading <==> st.inFlight.Some?)
    && Alternating(st.chatHistory)
    && (|st.chatHistory| % 2 == 1 <==> st.isLoading)
    && (st.isLoading ==>
          && st.error == None
          && st.chatHistory[|st.chatHistory| - 1] == ChatMessage(User, st.userInput)
          && st.inFlight == Some(Prompt(summary, st.userInput)))
  }

  lemma InitialValid(summary: string)
    ensures PanelValid(INITIAL, summary)
  {
  }

  /** Typing replaces the input, and only while the field is enabled. */
  function EditStep(st: PanelState, text: string): (r: PanelState)
    ensures InputEnabled(st) ==> r.userInput == text
    ensures r.chatHistory == st.chatHistory && r.isLoading == st.isLoading
    ensures r.error == st.error && r.inFlight == st.inFlight
    ensures !InputEnabled(st) ==> r == st
  {
    if st.isLoading then st else st.(userInput := text)
  }

  /** `handleSubmit` up to its `await`. A blank input, or a form whose
      controls are disabled, changes nothing; otherwise the untrimmed input is
      appended as a user message, the error is cleared, loading starts and
      the prompt for the question goes out. */
  function SubmitStep(st: PanelState, summary: string): (r: PanelState)
    ensures r != st <==> SubmitEnabled(st)
    ensures !SubmitEnabled(st) ==> r == st
    ensures SubmitEnabled(st) ==>
      && r.chatHistory == st.chatHistory + [ChatMessage(User, st.userInput)]
      && r.isLoading && r.error == None && r.userInput == st.userInput
      && r.inFlight == Some(Prompt(summary, st.userInput))
  {
    if !SubmitEnabled(st) then st
    else st.(isLoading := true, error := None,
             chatHistory := st.chatHistory + [ChatMessage(User, st.userInput)],
             inFlight := Some(Prompt(summary, st.userInput)))
  }

  /** The text of the model message a settled request appends: the
      response text, or a rejection's message (never empty) behind the
      error prefix. */
  function ModelText(outcome: Settled): (text: string)
    ensures outcome.Fulfilled? ==> text == outcome.text
    ensures outcome.Rejected? ==> |text| > |ERROR_TEXT_PREFIX| && text[..|ERROR_TEXT_PREFIX|] == ERROR_TEXT_PREFIX
    ensures outcome.Rejected? && outcome.message.Some? && outcome.message.value != []
      ==> text == ERROR_TEXT_PREFIX + outcome.message.value
    ensures outcome.Rejected? && (outcome.message.None? || outcome.message.value == [])
      ==> text == ERROR_TEXT_PREFIX + DEFAULT_FAILURE_TEXT
  {
    match outcome
    case Fulfilled(t) => t
    case Rejected(m) => ERROR_TEXT_PREFIX + MessageOr(m, DEFAULT_FAILURE_TEXT)
  }

  /** `handleSubmit` after its `await`: exactly one model message is
      appended, the response text or the error text; a rejection also sets
      the error, to its message or the default; either way loading stops and
      the input is cleared. */
  function ResolveStep(st: PanelState, outcome: Settled): (r: PanelState)
    requires st.inFlight.Some?
    ensures r.chatHistory == st.chatHistory + [ChatMessage(Model, ModelText(outcome))]
    ensures !r.isLoading && r.userInput == [] && r.inFlight == None
    ensures outcome.Fulfilled? ==> r.error == st.error
    ensures outcome.Rejected? ==> r.error == Some(MessageOr(outcome.message, DEFAULT_ERROR))
  {
    match outcome
    case Fulfilled(text) =>
      st.(chatHistory := st.chatHistory + [ChatMessage(Model, text)],
          isLoading := false, userInput := "", inFlight := None)
    case Rejected(message) =>
      st.(error := Some(MessageOr(message, DEFAULT_ERROR)),
          chatHistory := st.chatHistory + [ChatMessage(Model, ERROR_TEXT_PREFIX + MessageOr(message, DEFAULT_FAILURE_TEXT))],
          isLoading := false, userInput := "", inFlight := None)
  }

  /** Appending a message of the role the parity calls for keeps the
      transcript alternating. */
  lemma AlternatingSnoc(h: seq<ChatMessage>, m: ChatMessage)
    requires Alternating(h)
    requires m.role == (if |h| % 2 == 0 then User else Model)
    ensures Alternating(h + [m])
  {
    var h' := h + [m];
    forall i | 0 <= i < |h'| ensures h'[i].role == (if i % 2 == 0 then User else Model) {
      if i < |h| { assert h'[i] == h[i]; }
    }
  }

  lemma EditValid(st: PanelState, summary: string, text: string)
    requires PanelValid(st, summary)
    ensures PanelValid(EditStep(st, text), summary)
  {
  }

  lemma SubmitValid(st: PanelState, summary: string)
    requires PanelValid(st, summary)
    ensures PanelValid(SubmitStep(st, summary), summary)
  {
    var r := SubmitStep(st, summary);
    if SubmitEnabled(st) {
      var m := ChatMessage(User, st.userInput);
      AlternatingSnoc(st.chatHistory, m);
      AcceptedValid(st.chatHistory, m, r, summary);
    }
  }

  /** An accepted submit's state: an odd, alternating transcript ending on
      the question, with the question's prompt awaited and no error. */
  lemma AcceptedValid(h: seq<ChatMessage>, m: ChatMessage, r: PanelState, summary: string)
    requires Alternating(h + [m]) && |h| % 2 == 0 && m.role == User
    requires r.chatHistory == h + [m] && r.isLoading && r.error == None
    requires m.text == r.userInput && r.inFlight == Some(Prompt(summary, r.userInput))
    ensures PanelValid(r, summary)
  {
    var h' := h + [m];
    assert h'[|h'| - 1] == m;
  }

  lemma ResolveValid(st: PanelState, summary: string, outcome: Settled)
    requires PanelValid(st, summary) && st.isLoading
    ensures PanelValid(ResolveStep(st, outcome), summary)
  {
    AlternatingSnoc(st.chatHistory, ChatMessage(Model, ModelText(outcome)));
  }

  /** A whole round from an idle panel: the transcript grows by exactly the
      question and one answer, earlier entries untouched, and the panel is
      idle again with an empty input. */
  lemma Round(st: PanelState, summary: string, outcome: Settled)
    requires PanelValid(st, summary) && SubmitEnabled(st)
    ensures var r := ResolveStep(SubmitStep(st, summary), outcome);
      && r.chatHistory == st.chatHistory + [ChatMessage(User, st.userInput), ChatMessage(Model, ModelText(outcome))]
      && |r.chatHistory| == |st.chatHistory| + 2
      && !r.isLoading && r.userInput == [] && r.inFlight == None
      && PanelValid(r, summary)
  {
    var s := SubmitStep(st, summary);
    SubmitValid(st, summary);
    ResolveValid(s, summary, outcome);
    assert s.chatHistory + [ChatMessage(Model, ModelText(outcome))]
      == st.chatHistory + [ChatMessage(User, st.userInput), ChatMessage(Model, ModelText(outcome))];
  }

  /** How the panel's call settles with this application's `generateText`,
      which is called with the prompt alone and never rejects. */
  function ServiceSettles(apiKey: Option<string>, prompt: string, remote: RemoteOutcome): Settled
  {
    Fulfilled(GenerateText(apiKey, prompt, [], remote).text)
  }

  /** With the real service a round never shows an error, and its answer is
      never empty; without a key the answer is the configuration message. */
  lemma RoundWithService(st: PanelState, summary: string, apiKey: Option<string>, remote: RemoteOutcome)
    requires PanelValid(st, summary) && SubmitEnabled(st)
    ensures var s := SubmitStep(st, summary);
      var reply := GenerateText(apiKey, s.inFlight.value, [], remote);
      var r := ResolveStep(s, ServiceSettles(apiKey, s.inFlight.value, remote));
      && r.error == None
      && r.chatHistory == st.chatHistory + [ChatMessage(User, st.userInput), ChatMessage(Model, reply.text)]
      && reply.text != []
      && (!KeyConfigured(apiKey) ==> reply.text == API_KEY_MISSING)
  {
    var s := SubmitStep(st, summary);
    Round(st, summary, ServiceSettles(apiKey, s.inFlight.value, remote));
    ReplyNeverEmpty(apiKey, s.inFlight.value, [], remote);
  }

  /** The panel as the component holds it: four state fields, the prompt of
      the awaited request, and the context summary computed from the data. */
  class ChatPanel {
    var userInput: string
    var chatHistory: seq<ChatMessage>
    var isLoading: bool
    var error: Option<string>
    var inFlight: Option<string>
    const summary: string

    function State(): PanelState
      reads this
    {
      PanelState(userInput, chatHistory, isLoading, error, inFlight)
    }

    ghost predicate Valid()
      reads this
    {
      PanelValid(State(), summary)
    }

    /** A fresh panel: empty input and transcript, idle, no error. */
    constructor()
      ensures State() == INITIAL && summary == ContextSummary()
      ensures Valid()
    {
      userInput := "";
      chatHistory := [];
      isLoading := false;
      error := None;
      inFlight := None;
      summary := ContextSummary();
    }

    /** The input's `onChange`. */
    method Edit(text: string)
      requires Valid()
      modifies this
      ensures State() == EditStep(old(State()), text)
      ensures Valid()
    {
      if !isLoading {
        userInput := text;
      }
    }

    /** `handleSubmit` up to the `await`; returns the prompt sent, if any. */
    method Submit() returns (sent: Option<string>)
      requires Valid()
      modifies this
      ensures State() == SubmitStep(old(State()), summary)
      ensures sent == if SubmitEnabled(old(State())) then Some(Prompt(summary, old(userInput))) else None
      ensures Valid()
    {
      ghost var before := State();
      ghost var after := SubmitStep(before, summary);
      SubmitValid(before, summary);
      if isLoading || IsBlank(userInput) {
        assert after == before;
        return None;
      }
      var message := ChatMessage(User, userInput);
      var prompt := Prompt(summary, userInput);
      assert after.chatHistory == chatHistory + [message] && after.inFlight == Some(prompt);
      isLoading := true;
      error := None;
      chatHistory := chatHistory + [message];
      inFlight := Some(prompt);
      sent := Some(prompt);
    }

    /** `handleSubmit` after the `await`, once the request has settled. */
    method Resolve(outcome: Settled)
      requires Valid() && isLoading
      modifies this
      ensures State() == ResolveStep(old(State()), outcome)
      ensures Valid()
    {
      ResolveValid(State(), summary, outcome);
      match outcome {
        case Fulfilled(text) =>
          chatHistory := chatHistory + [ChatMessage(Model, text)];
        case Rejected(message) =>
          error := Some(MessageOr(message, DEFAULT_ERROR));
          chatHistory := chatHistory + [ChatMessage(Model, ERROR_TEXT_PREFIX + MessageOr(message, DEFAULT_FAILURE_TEXT))];
      }
      isLoading := false;
      userInput := "";
      inFlight := None;
    }
  }
}
