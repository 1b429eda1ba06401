/**
 * The chat-completion client: build the outbound request (one fixed system
 * turn, then the caller's turns), call the provider, and turn every failure
 * into an HTTP 500.
 *
 * The provider SDK is abstract: `create(client, request)` is what
 * `client.chat.completions.create(...)` gives back for that request.
 */
module Groq {
  import opened Wrappers
  import opened Http
  import opened Messages

  /** One `{"role": ..., "content": ...}` entry of the outbound message list. */
  datatype Turn = Turn(role: Role, content: string)

  /**
   * The sampling temperature, kept as the literal written in the call; its
   * floating-point value plays no part in the model.
   */
  datatype Temperature = Temperature(literal: string)

  /** The arguments of one completion call. */
  datatype CompletionRequest = CompletionRequest(messages: seq<Turn>, model: string, temperature: Temperature, maxTokens: int)

  /** `response.choices[i]`; `content` is `choices[i].message.content`. */
  datatype Choice = Choice(content: string)

  /** What the provider call does: return choices, or raise an exception with `str(e) == message`. */
  datatype CompletionOutcome = Completed(choices: seq<Choice>) | Raised(message: string)

  /** A constructed client, holding the API key it was built with. */
  datatype GroqClient = GroqClient(apiKey: string)

  const ModelId: string := "llama-3.3-70b-versatile"
  const ChatTemperature: Temperature := Temperature("0.7")
  const MaxTokens: int := 500

  /** The indentation that the triple-quoted prompt carries on each of its lines. */
  const PromptIndent: string := "                    "

  /** The persona prompt, character for character, leading newline and indentation included. */
  const SystemPrompt: string :=
    "\n"
    + PromptIndent + "You are an English-speaking companion dedicated to helping improve English language skills for beginners. Your role is to enhance fluency, grammar, pronunciation, and confidence by:\n"
    + "\n"
    + PromptIndent + "1. **Feedback**: Analyze the user's input for grammatical errors, pronunciation challenges (assume written input reflects spoken English), fluency issues, vocabulary limitations, or confidence/pacing. Provide concise, constructive feedback.\n"
    + PromptIndent + "2. **Conversation**: Engage in a friendly, beginner-friendly conversation on topics like hobbies or daily routines. Ask one open-ended question per response. Use simple language, offer gentle corrections, and maintain a supportive tone.\n"
    + "\n"
    + PromptIndent + "Be patient, positive, and avoid complex vocabulary. If the user struggles, suggest simpler responses or questions. Optionally, summarize key improvement areas at the end.\n"
    + PromptIndent

  const SystemTurn: Turn := Turn(System, SystemPrompt)

  const ClientInitFailure: HttpError := HttpError(500, "Failed to initialize Groq client")
  const GroqErrorPrefix: string := "Groq API error: "

  /** `str(e)` of the `IndexError` raised by `choices[0]` on an empty choice list. */
  const IndexErrorMessage: string := "list index out of range"

  /**
   * `initialize_groq_client`: `constructionError` is `str(e)` of the
   * exception the SDK constructor raises, if any; it is logged, not returned.
   */
  function InitializeClient(apiKey: string, constructionError: Option<string>): (r: Result<GroqClient, HttpError>)
    ensures r.Ok? <==> constructionError.None?
    ensures r.Ok? ==> r.value.apiKey == apiKey
    ensures r.Err? ==> r.error == ClientInitFailure
  {
    match constructionError
    case None => Ok(GroqClient(apiKey))
    case Some(_) => Err(ClientInitFailure)
  }

  /** The outbound call: the system turn, then every caller turn as given, with the fixed parameters. */
  function BuildRequest(messages: seq<Turn>): (req: CompletionRequest)
    ensures |req.messages| == |messages| + 1
    ensures req.messages[0] == SystemTurn
    ensures forall i :: 0 <= i < |messages| ==> req.messages[i + 1] == messages[i]
    ensures req.model == ModelId && req.temperature == ChatTemperature && req.maxTokens == MaxTokens
  {
    CompletionRequest([SystemTurn] + messages, ModelId, ChatTemperature, MaxTokens)
  }

  /** The caller's turns, recovered from an outbound request. */
  function CallerTurns(req: CompletionRequest): seq<Turn>
    requires |req.messages| >= 1
  {
    req.messages[1..]
  }

  /** Building a request loses nothing: the caller's turns come back out, and only those follow the system turn. */
  lemma CallerTurnsRoundTrip(messages: seq<Turn>)
    ensures CallerTurns(BuildRequest(messages)) == messages
  {
  }

  /**
   * `get_chat_response`: the content of the first choice, or a 500 whose
   * detail carries the message of whatever went wrong, in the call or in
   * reading `choices[0]`.
   */
  function GetChatResponse(messages: seq<Turn>, client: GroqClient, create: (GroqClient, CompletionRequest) -> CompletionOutcome)
    : (r: Result<string, HttpError>)
    ensures var outcome := create(client, BuildRequest(messages));
            && (r.Ok? <==> outcome.Completed? && |outcome.choices| > 0)
            && (r.Ok? ==> r.value == outcome.choices[0].content)
            && (outcome.Raised? ==> r == Err(HttpError(500, GroqErrorPrefix + outcome.message)))
            && (outcome == Completed([]) ==> r == Err(HttpError(500, GroqErrorPrefix + IndexErrorMessage)))
  {
    match create(client, BuildRequest(messages))
    case Raised(message) => Err(HttpError(500, GroqErrorPrefix + message))
    case Completed(choices) =>
      if |choices| == 0 then Err(HttpError(500, GroqErrorPrefix + IndexErrorMessage))
      else Ok(choices[0].content)
  }

  /** Every failure of a completion is a 500 whose detail starts with the fixed prefix. */
  lemma CompletionFailuresAre500(messages: seq<Turn>, client: GroqClient, create: (GroqClient, CompletionRequest) -> CompletionOutcome)
    ensures var r := GetChatResponse(messages, client, create);
            r.Err? ==> r.error.status == 500 && GroqErrorPrefix <= r.error.detail
  {
  }
}
