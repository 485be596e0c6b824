/** The text-generation client: `generateText` turns a prompt into the string
    the chat panel shows. The remote call is an input (`RemoteOutcome`), and
    the request the client would send is part of the result, so what reaches
    the network is visible to the proofs. */
module GeminiService {
  import opened Types
  import opened JsString

  const API_KEY_MISSING: string := "API Key not configured. Please set the API_KEY environment variable."
  const NO_RESPONSE: string := "No response text from Gemini."
  const ERROR_PREFIX: string := "Error from Gemini: "
  const UNKNOWN_ERROR: string := "An unknown error occurred while contacting Gemini."
  const MODEL_ID: string := "gemini-2.5-flash-preview-04-17"

  /** The request body: a model name and a list of role-tagged contents,
      each a list of text parts. */
  datatype Part = Part(text: string)
  datatype Content = Content(role: string, parts: seq<Part>)
  datatype Request = Request(model: string, contents: seq<Content>)

  /** How the awaited call settled: a response whose `text` may be undefined,
      a thrown `Error` with its message, or any other thrown value. */
  datatype RemoteOutcome = Responded(text: Option<string>) | ThrewError(message: string) | ThrewOther

  /** The string `generateText` resolves to, and the request it sent (`None`
      when it returned before calling the service). */
  datatype Reply = Reply(text: string, sent: Option<Request>)

  /** `!API_KEY` is false for a key that is set and not empty. */
  predicate KeyConfigured(apiKey: Option<string>)
  {
    apiKey.Some? && apiKey.value != []
  }

  /** One transcript line, `${msg.role}: ${msg.text}`. */
  function HistoryLine(m: ChatMessage): string
  {
    RoleName(m.role) + ": " + m.text
  }

  /** A transcript line names its message: different messages print as
      different lines. */
  lemma HistoryLineInjective(m1: ChatMessage, m2: ChatMessage)
    requires HistoryLine(m1) == HistoryLine(m2)
    ensures m1 == m2
  {
    var l1, l2 := HistoryLine(m1), HistoryLine(m2);
    // the lines start "u" and "m" for the two roles, so the roles agree
    assert l1[0] == RoleName(m1.role)[0] && l2[0] == RoleName(m2.role)[0];
    var n := |RoleName(m1.role) + ": "|;
    assert l1[n..] == m1.text && l2[n..] == m2.text;
  }

  function HistoryLines(history: seq<ChatMessage>): seq<string>
  {
    seq(|history|, i requires 0 <= i < |history| => HistoryLine(history[i]))
  }

  /** The transcript `generateText` formats: each history message on a line
      of its own, then the new user turn and an open model turn. */
  function FullPrompt(history: seq<ChatMessage>, prompt: string): (full: string)
    ensures var turn := "\nuser: " + prompt + "\nmodel:";
      |turn| <= |full| && full[|full| - |turn|..] == turn
  {
    Join(HistoryLines(history), "\n") + "\nuser: " + prompt + "\nmodel:"
  }

  /** With the default empty history the transcript starts with a blank line:
      the join of no lines is empty and the separator before `user:` stays. */
  lemma FullPromptNoHistory(prompt: string)
    ensures FullPrompt([], prompt) == "\nuser: " + prompt + "\nmodel:"
  {
    assert Join(HistoryLines([]), "\n") == [];
  }

  /** With a non-empty history the transcript is the history with the new
      question appended as a user message, joined line by line, followed by
      the open model turn. */
  lemma FullPromptIsTranscript(history: seq<ChatMessage>, prompt: string)
    requires history != []
    ensures FullPrompt(history, prompt)
      == Join(HistoryLines(history + [ChatMessage(User, prompt)]), "\n") + "\nmodel:"
  {
    var lines := HistoryLines(history);
    var j := Join(lines, "\n");
    UserLine(prompt);
    HistoryLinesSnoc(history, ChatMessage(User, prompt));
    JoinSnoc(lines, "user: " + prompt, "\n");
    UserTurn(j, prompt);
  }

  /** The new question prints as a user line. */
  lemma UserLine(prompt: string)
    ensures HistoryLine(ChatMessage(User, prompt)) == "user: " + prompt
  {
    assert "user" + ": " == "user: ";
  }

  lemma UserTurn(j: string, prompt: string)
    ensures j + "\n" + ("user: " + prompt) == j + "\nuser: " + prompt
  {
    assert "\n" + "user: " == "\nuser: ";
    assert j + "\n" + ("user: " + prompt) == j + ("\n" + "user: ") + prompt;
  }

  /** Appending a message appends its line. */
  lemma HistoryLinesSnoc(history: seq<ChatMessage>, m: ChatMessage)
    ensures HistoryLines(history + [m]) == HistoryLines(history) + [HistoryLine(m)]
  {
  }

  /** The single content the client sends: the prompt alone, as a user turn. */
  function RequestFor(prompt: string): (req: Request)
    ensures req.model == MODEL_ID
    ensures |req.contents| == 1 && req.contents[0].role == "user"
    ensures req.contents[0].parts == [Part(prompt)]
  {
    Request(MODEL_ID, [Content("user", [Part(prompt)])])
  }

  /** `generateText(prompt, history)`. Without a key it returns the
      configuration message and calls nothing. Otherwise it sends the prompt:
      response text that is present and not empty comes back verbatim, a
      missing or empty one gives the no-response sentinel, a thrown `Error`
      gives its message behind the error prefix and anything else thrown the
      unknown-error message. Nothing escapes: every outcome gives a string. */
  function GenerateText(apiKey: Option<string>, prompt: string, history: seq<ChatMessage>,
                        outcome: RemoteOutcome): (reply: Reply)
    ensures reply.sent == None <==> !KeyConfigured(apiKey)
    ensures reply.sent.Some? ==> reply.sent.value == RequestFor(prompt)
    ensures !KeyConfigured(apiKey) ==> reply.text == API_KEY_MISSING
    ensures KeyConfigured(apiKey) && outcome.Responded? && outcome.text.Some? && outcome.text.value != []
      ==> reply.text == outcome.text.value
    ensures KeyConfigured(apiKey) && outcome.Responded? && (outcome.text == None || outcome.text.value == [])
      ==> reply.text == NO_RESPONSE
    ensures KeyConfigured(apiKey) && outcome.ThrewError? ==> reply.text == ERROR_PREFIX + outcome.message
    ensures KeyConfigured(apiKey) && outcome.ThrewOther? ==> reply.text == UNKNOWN_ERROR
  {
    if !KeyConfigured(apiKey) then
      Reply(API_KEY_MISSING, None)
    else
      var fullPrompt := FullPrompt(history, prompt);
      var request := RequestFor(prompt);
      match outcome
      case Responded(text) =>
        if text.Some? && text.value != [] then Reply(text.value, Some(request))
        else Reply(NO_RESPONSE, Some(request))
      case ThrewError(message) => Reply(ERROR_PREFIX + message, Some(request))
      case ThrewOther => Reply(UNKNOWN_ERROR, Some(request))
  }

  /** The history only feeds the discarded transcript: neither the reply nor
      the request depends on it. */
  lemma HistoryIrrelevant(apiKey: Option<string>, prompt: string, h1: seq<ChatMessage>,
                          h2: seq<ChatMessage>, outcome: RemoteOutcome)
    ensures GenerateText(apiKey, prompt, h1, outcome) == GenerateText(apiKey, prompt, h2, outcome)
  {
  }

  /** Every path yields a non-empty string, so the panel always has something
      to show. */
  lemma ReplyNeverEmpty(apiKey: Option<string>, prompt: string, history: seq<ChatMessage>,
                        outcome: RemoteOutcome)
    ensures GenerateText(apiKey, prompt, history, outcome).text != []
  {
    assert |API_KEY_MISSING| > 0 && |NO_RESPONSE| > 0 && |UNKNOWN_ERROR| > 0;
    assert |ERROR_PREFIX| > 0;
  }

  /** The reply is one of the five kinds and nothing else. */
  lemma ReplyKinds(apiKey: Option<string>, prompt: string, history: seq<ChatMessage>,
                   outcome: RemoteOutcome)
    ensures var t := GenerateText(apiKey, prompt, history, outcome).text;
      || t == API_KEY_MISSING
      || t == NO_RESPONSE
      || t == UNKNOWN_ERROR
      || (outcome.ThrewError? && t == ERROR_PREFIX + outcome.message)
      || (outcome.Responded? && outcome.text == Some(t))
  {
  }
}
