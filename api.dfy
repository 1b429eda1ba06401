/**
 * The four HTTP routes: `/chat`, `/voice_chat`, `/end` and `/health`.
 *
 * Each route runs a body that may raise, then its `except` clauses: an
 * `HTTPException` is re-raised unchanged, any other exception becomes a 500.
 * The clock is the `timestamp` parameter; `request.app.state.groq_client`
 * is `appClient`, `None` when the attribute was never set; the speech
 * synthesiser is `speak`, which either finishes or raises.
 */
module Api {
  import opened Wrappers
  import opened Http
  import opened Messages
  import opened Stt
  import opened Groq

  /** The response envelope of `/chat`, `/voice_chat` and `/end`. */
  datatype Reply = Reply(role: Role, content: string, timestamp: string)

  /** The response envelope of `/health`. */
  datatype HealthReport = HealthReport(status: string, timestamp: string, service: string, version: string)

  /** How `text_to_speech` ends: it finishes, or raises with `str(e) == message`. */
  datatype SpeechOutcome = Spoken | SpeechFailed(message: string)

  /** `str(e)` of the `AttributeError` that reading an unset `app.state.groq_client` raises. */
  const MissingClientMessage: string := "'State' object has no attribute 'groq_client'"

  const ChatErrorPrefix: string := "Error processing chat request: "
  const VoiceFailure: HttpError := HttpError(500, "Failed to process voice request")
  const FarewellText: string := "Thank you for practicing! Start a new session anytime."

  /** `[{"role": msg.role, "content": msg.content} for msg in input.messages]`. */
  function ProjectMessages(msgs: seq<Message>): (turns: seq<Turn>)
    ensures |turns| == |msgs|
  {
    if |msgs| == 0 then [] else [Turn(msgs[0].role, msgs[0].content)] + ProjectMessages(msgs[1..])
  }

  /** The projection keeps every turn in place, with its role and content, and drops the timestamp. */
  lemma {:induction false} ProjectMessagesAt(msgs: seq<Message>, i: nat)
    requires i < |msgs|
    ensures ProjectMessages(msgs)[i] == Turn(msgs[i].role, msgs[i].content)
  {
    if i > 0 {
      ProjectMessagesAt(msgs[1..], i - 1);
    }
  }

  /** Timestamps do not reach the completion call: lists that differ only in them project alike. */
  lemma {:induction false} ProjectionIgnoresTimestamps(a: seq<Message>, b: seq<Message>)
    requires |a| == |b|
    requires forall i :: 0 <= i < |a| ==> a[i].role == b[i].role && a[i].content == b[i].content
    ensures ProjectMessages(a) == ProjectMessages(b)
  {
    forall i | 0 <= i < |a| ensures ProjectMessages(a)[i] == ProjectMessages(b)[i] {
      ProjectMessagesAt(a, i);
      ProjectMessagesAt(b, i);
    }
  }

  /** The `except` clauses of `/chat`. */
  function ChatExcept(e: Raised): (he: HttpError)
    ensures e.HttpRaised? ==> he == e.error
    ensures e.OtherRaised? ==> he == HttpError(500, ChatErrorPrefix + e.message)
  {
    match e
    case HttpRaised(error) => error
    case OtherRaised(message) => HttpError(500, ChatErrorPrefix + message)
  }

  /** The `try` block of `/chat`. */
  function ChatBody(input: ChatInput, appClient: Option<GroqClient>,
                    create: (GroqClient, CompletionRequest) -> CompletionOutcome, timestamp: string)
    : Result<Reply, Raised>
  {
    var messages := ProjectMessages(input.messages);
    match appClient
    case None => Err(OtherRaised(MissingClientMessage))
    case Some(client) =>
      match GetChatResponse(messages, client, create)
      case Err(he) => Err(HttpRaised(he))
      case Ok(content) => Ok(Reply(Assistant, content, timestamp))
  }

  /**
   * `POST /chat`: the projected turns go to the completion client; its
   * reply comes back as an assistant turn stamped with `timestamp`; its
   * HTTP error comes back unchanged.
   */
  function Chat(input: ChatInput, appClient: Option<GroqClient>,
                create: (GroqClient, CompletionRequest) -> CompletionOutcome, timestamp: string)
    : (r: Result<Reply, HttpError>)
    ensures appClient.None? ==> r == Err(HttpError(500, ChatErrorPrefix + MissingClientMessage))
    ensures appClient.Some? ==>
              var completion := GetChatResponse(ProjectMessages(input.messages), appClient.value, create);
              && (completion.Ok? <==> r.Ok?)
              && (r.Ok? ==> r.value == Reply(Assistant, completion.value, timestamp))
              && (completion.Err? ==> r == Err(completion.error))
  {
    match ChatBody(input, appClient, create, timestamp)
    case Ok(reply) => Ok(reply)
    case Err(e) => Err(ChatExcept(e))
  }

  /**
   * What the completion provider sees for a text chat: the system turn,
   * then one turn per validated message with its role and content, in
   * order; and among them at least one user turn.
   */
  lemma ChatRequestShape(input: ChatInput)
    requires input.Valid()
    ensures var req := BuildRequest(ProjectMessages(input.messages));
            && |req.messages| == |input.messages| + 1
            && req.messages[0] == SystemTurn
            && (forall i :: 0 <= i < |input.messages| ==>
                  req.messages[i + 1] == Turn(input.messages[i].role, input.messages[i].content))
            && exists i :: 1 <= i < |req.messages| && req.messages[i].role == User
  {
    var req := BuildRequest(ProjectMessages(input.messages));
    forall i | 0 <= i < |input.messages|
      ensures req.messages[i + 1] == Turn(input.messages[i].role, input.messages[i].content)
    {
      ProjectMessagesAt(input.messages, i);
    }
    var k :| 0 <= k < |input.messages| && input.messages[k].role == User;
    assert req.messages[k + 1].role == User;
  }

  /**
   * The text pipeline end to end: a body that validates reaches the
   * provider as the system turn followed by each sent turn's role and
   * content, and the provider's first choice is the reply.
   */
  lemma TextChatPipeline(raws: seq<RawMessage>, client: GroqClient,
                         create: (GroqClient, CompletionRequest) -> CompletionOutcome, timestamp: string, reply: string)
    requires ParseChatInput(raws).Ok?
    requires var input := ParseChatInput(raws).value;
             create(client, BuildRequest(ProjectMessages(input.messages))).Completed?
             && |create(client, BuildRequest(ProjectMessages(input.messages))).choices| > 0
             && create(client, BuildRequest(ProjectMessages(input.messages))).choices[0].content == reply
    ensures var req := BuildRequest(ProjectMessages(ParseChatInput(raws).value.messages));
            && |req.messages| == |raws| + 1
            && req.messages[0] == SystemTurn
            && (forall i :: 0 <= i < |raws| ==>
                  RoleName(req.messages[i + 1].role) == raws[i].role && req.messages[i + 1].content == raws[i].content)
    ensures Chat(ParseChatInput(raws).value, Some(client), create, timestamp) == Ok(Reply(Assistant, reply, timestamp))
  {
    ChatRequestShape(ParseChatInput(raws).value);
  }

  /** The `except` clauses of `/voice_chat`: the message of a non-HTTP exception is logged only. */
  function VoiceChatExcept(e: Raised): (he: HttpError)
    ensures e.HttpRaised? ==> he == e.error
    ensures e.OtherRaised? ==> he == VoiceFailure
  {
    match e
    case HttpRaised(error) => error
    case OtherRaised(_) => VoiceFailure
  }

  /** The `try` block of `/voice_chat`: transcribe with the default arguments, complete, then speak. */
  function VoiceChatBody(mic: nat -> Attempt, appClient: Option<GroqClient>,
                         create: (GroqClient, CompletionRequest) -> CompletionOutcome,
                         speak: string -> SpeechOutcome, timestamp: string)
    : Result<Reply, Raised>
  {
    match Listen(mic, DefaultMaxRetries, 0)
    case Err(he) => Err(HttpRaised(he))
    case Ok(userText) =>
      var messages := [Turn(User, userText)];
      match appClient
      case None => Err(OtherRaised(MissingClientMessage))
      case Some(client) =>
        match GetChatResponse(messages, client, create)
        case Err(he) => Err(HttpRaised(he))
        case Ok(content) =>
          match speak(content)
          case SpeechFailed(message) => Err(OtherRaised(message))
          case Spoken => Ok(Reply(Assistant, content, timestamp))
  }

  /**
   * `POST /voice_chat`. A success means: the transcript was sent as the
   * only turn, a user turn; the reply was spoken; the envelope carries it.
   * Conversely, a recognised transcript, a present client, a completed
   * reply and a finished synthesis always give that envelope. A
   * transcription error comes back unchanged; a synthesis failure after
   * the reply was obtained is a 500.
   */
  function VoiceChat(mic: nat -> Attempt, appClient: Option<GroqClient>,
                     create: (GroqClient, CompletionRequest) -> CompletionOutcome,
                     speak: string -> SpeechOutcome, timestamp: string)
    : (r: Result<Reply, HttpError>)
    ensures r.Ok? ==>
              && Listen(mic, DefaultMaxRetries, 0).Ok?
              && appClient.Some?
              && GetChatResponse([Turn(User, Listen(mic, DefaultMaxRetries, 0).value)], appClient.value, create)
                 == Ok(r.value.content)
              && speak(r.value.content) == Spoken
              && r.value.role == Assistant && r.value.timestamp == timestamp
    ensures Listen(mic, DefaultMaxRetries, 0).Err? ==> r == Err(Listen(mic, DefaultMaxRetries, 0).error)
    ensures Listen(mic, DefaultMaxRetries, 0).Ok? && appClient.None? ==> r == Err(VoiceFailure)
    ensures Listen(mic, DefaultMaxRetries, 0).Ok? && appClient.Some? ==>
              var completion := GetChatResponse([Turn(User, Listen(mic, DefaultMaxRetries, 0).value)], appClient.value, create);
              && (completion.Err? ==> r == Err(completion.error))
              && (completion.Ok? && speak(completion.value).SpeechFailed? ==> r == Err(VoiceFailure))
              && (completion.Ok? && speak(completion.value) == Spoken ==>
                    r == Ok(Reply(Assistant, completion.value, timestamp)))
  {
    match VoiceChatBody(mic, appClient, create, speak, timestamp)
    case Ok(reply) => Ok(reply)
    case Err(e) => Err(VoiceChatExcept(e))
  }

  /**
   * What the completion provider sees for a voice chat: the system turn
   * and the transcript as a single user turn, no earlier history.
   */
  lemma VoiceRequestShape(transcript: string)
    ensures BuildRequest([Turn(User, transcript)]).messages == [SystemTurn, Turn(User, transcript)]
  {
  }

  /** `/voice_chat` fails only with 408 or 503 from transcription, or with 500. */
  lemma VoiceChatStatuses(mic: nat -> Attempt, appClient: Option<GroqClient>,
                          create: (GroqClient, CompletionRequest) -> CompletionOutcome,
                          speak: string -> SpeechOutcome, timestamp: string)
    ensures var r := VoiceChat(mic, appClient, create, speak, timestamp);
            r.Err? ==> r.error.status in {408, 500, 503}
    ensures var r := VoiceChat(mic, appClient, create, speak, timestamp);
            r.Err? && r.error.status != 500 ==> r == Err(Listen(mic, DefaultMaxRetries, 0).error)
  {
  }

  /** `/chat` fails only with the completion client's 500, or with its own 500. */
  lemma ChatStatuses(input: ChatInput, appClient: Option<GroqClient>,
                     create: (GroqClient, CompletionRequest) -> CompletionOutcome, timestamp: string)
    ensures var r := Chat(input, appClient, create, timestamp);
            r.Err? ==> r.error.status == 500
  {
  }

  /** `POST /end`: no external call, a fixed system farewell. */
  function EndConversation(timestamp: string): (r: Reply)
    ensures r.role == System && r.content == FarewellText && r.timestamp == timestamp
  {
    Reply(System, FarewellText, timestamp)
  }

  /** `GET /health`: a fixed status report. */
  function HealthCheck(timestamp: string): (r: HealthReport)
    ensures r.status == "ok" && r.service == "English Companion API" && r.version == "1.0.0"
    ensures r.timestamp == timestamp
  {
    HealthReport("ok", timestamp, "English Companion API", "1.0.0")
  }
}
