# English Companion gateway — a Dafny model of its request pipeline

The English Companion server is a small FastAPI gateway in front of a
chat-completion provider (Groq). It validates a chat request body, turns a
spoken utterance into text with a retrying speech-recognition loop, wraps
the conversation in a fixed tutoring prompt, calls the provider, and
shapes the JSON envelopes of its four routes. This project models that
pipeline and proves what each piece promises.

Modules, one per source file:

- `Wrappers` (`wrappers.dfy`): `Option` and `Result`.
- `Http` (`http.dfy`): `HttpError`, the status/detail pair of FastAPI's
  `HTTPException`. It also holds `Raised`, which is either an `HTTPException`
  or some other Python exception with its `str(e)`.
- `Messages` (`messages.dfy`): the `Message` and `ChatInput` schema. Roles
  are parsed from the caller's strings. There are three checks: the role
  literal, `min_items=1` and the "at least one user message" validator. The
  validator runs only on a list that passed the other two. Those two can
  never fail together, because an empty list has no role to reject, so the
  order in which they are checked does not change any result.
- `Stt` (`stt.dfy`): `voice_to_text`. The microphone and the Google
  recogniser are one oracle, `mic: nat -> Attempt`. `mic(n)` is how the
  attempt made with `retry_count == n` ends: recognised text, not
  understood, wait timeout, request error, or any other exception. The
  `while` loop is the method `VoiceToText`. It is proved equal to the
  recursive function `Listen`, and the lemmas characterise `Listen`.
- `Groq` (`groq.dfy`): `initialize_groq_client` and `get_chat_response`.
  The provider SDK is the function `create(client, request)`, which returns
  either a list of choices or a raised message. The system prompt is kept
  character for character. The temperature `0.7` is an opaque literal.
- `Api` (`api.dfy`): the routes `/chat`, `/voice_chat`, `/end` and
  `/health`. Each route is split into a `try` body returning
  `Result<_, Raised>` and its `except` clauses. The clock is a `timestamp`
  parameter. `request.app.state.groq_client` is `appClient: Option<GroqClient>`,
  with `None` standing for the `AttributeError` raised when it was never
  set. Speech synthesis is `speak`, which either finishes or raises.

## Model

| member | source | states |
|---|---|---|
| `Messages.ParseRole` | server/app/models/message.py:6 | a role is accepted exactly when it is one of `system`, `user`, `assistant`, and the parsed role spells back to the string sent; any other string is rejected |
| `Messages.AnyUserIff` | server/app/models/message.py:20 | the left-to-right `any(...)` scan is true iff some position holds a `user` turn |
| `Messages.ValidateMessages` | server/app/models/message.py:18-22 | the validator accepts iff some turn (at any position) has role `user`, returns the list unchanged, and otherwise fails with "At least one user message is required" |
| `Messages.InvalidPositions` | server/app/models/message.py:6 | lists, in increasing order, exactly the positions whose role is not one of the three literals |
| `Messages.ToMessage` | server/app/models/message.py:5-8 | a validated turn keeps the sent role spelling, the content (any string, empty included) and the optional timestamp (absent is `None`) |
| `Messages.ParseChatInput` | server/app/models/message.py:5-22 | a body is accepted iff every role is valid, the list is non-empty and some role is `user`; an accepted body has the same length and, position by position, the sent turns; any invalid role gives the role error, naming exactly the bad positions; an empty list fails `min_items`; a non-empty list of valid roles with no `user` turn gets the validator's "At least one user message is required" |
| `Messages.ContentIsNotInspected` | server/app/models/message.py:7-20 | two bodies with the same roles are accepted alike and fail with the same error: content and timestamps are never inspected |
| `Stt.Settle` | server/app/services/stt_service.py:22-38 | a non-retryable attempt ends the call: recognised text is returned; a request error gives 503 "Speech recognition service unavailable"; any other exception gives 500 "Failed to process audio input" |
| `Stt.VoiceToText` | server/app/services/stt_service.py:7-41 | the loop opens at most `max(max_retries, 0)` sessions; every session but the last was "not understood" or "wait timeout"; the last one decides the result, or, when the budget ran out, the result is 408 "Timeout: No valid speech detected after retries"; the result equals `Listen` |
| `Stt.FirstDecisiveAttemptWins` | server/app/services/stt_service.py:15-38 | when the first non-retryable attempt falls within the budget, it alone decides the result, whatever retries remain |
| `Stt.AllRetryableTimesOut` | server/app/services/stt_service.py:15-41 | when every attempt within the budget is retryable, the result is the 408 timeout |
| `Stt.ListenExplained` | server/app/services/stt_service.py:15-41 | every result comes either from the first non-retryable attempt within the budget, or is the 408 with all budgeted attempts retryable |
| `Stt.ListenErrors` | server/app/services/stt_service.py:29-41 | the only errors the call raises are the fixed 503, 500 and 408 |
| `Stt.LaterAttemptsIgnored` | server/app/services/stt_service.py:22-24 | attempts after a decisive one are never consulted: oracles that agree up to it give the same result |
| `Stt.NoBudgetTimesOut` | server/app/services/stt_service.py:15-41 | with `max_retries <= 0` no attempt is made and the result is 408 |
| `Stt.DefaultTwoFailuresThenText` | server/app/services/stt_service.py:7-24 | with the default three retries, two retryable failures and then text return that text |
| `Stt.DefaultThreeFailuresTimeOut` | server/app/services/stt_service.py:7-41 | with the default three retries, three retryable failures give 408 |
| `Groq.InitializeClient` | server/app/services/groq_service.py:8-14 | a client is built with the given key iff its constructor does not raise; a failure becomes 500 "Failed to initialize Groq client" |
| `Groq.BuildRequest` | server/app/services/groq_service.py:19-37 | the outbound list is the fixed system turn followed by the caller's turns unmodified and in order (length one more); model `llama-3.3-70b-versatile`, temperature `0.7` and `max_tokens` 500 do not depend on the input |
| `Groq.CallerTurnsRoundTrip` | server/app/services/groq_service.py:32 | dropping the system turn from a built request gives back exactly the caller's turns, including any caller `system` or `assistant` turns |
| `Groq.GetChatResponse` | server/app/services/groq_service.py:16-41 | success iff the provider returned at least one choice, and then the result is the first choice's content; a raised error becomes 500 "Groq API error: " + its message; an empty choice list becomes 500 "Groq API error: list index out of range" |
| `Groq.CompletionFailuresAre500` | server/app/services/groq_service.py:39-41 | every completion failure is a 500 whose detail starts with "Groq API error: " |
| `Api.ProjectMessages` | server/app/routes/api.py:21 | the projection has as many turns as the request |
| `Api.ProjectMessagesAt` | server/app/routes/api.py:21 | each projected turn is the role and content of the message at the same position |
| `Api.ProjectionIgnoresTimestamps` | server/app/routes/api.py:21 | message lists that differ only in timestamps project to the same turns |
| `Api.ChatExcept` | server/app/routes/api.py:28-32 | an `HTTPException` is re-raised unchanged; any other exception becomes 500 "Error processing chat request: " + its message |
| `Api.Chat` | server/app/routes/api.py:17-32 | `/chat` succeeds iff the completion does, returning role `assistant`, the completion's reply and the given timestamp; a completion error passes through unchanged; a missing client is a 500 with the chat prefix |
| `Api.ChatRequestShape` | server/app/routes/api.py:21-22 | for a validated body the provider sees the system turn and then each message's role and content in order, at least one of them a user turn |
| `Api.TextChatPipeline` | server/app/routes/api.py:17-27 | end to end: a body that validates reaches the provider as the system turn plus the sent roles and contents, and the provider's first choice comes back as the assistant reply |
| `Api.ChatStatuses` | server/app/routes/api.py:20-32 | `/chat` fails only with status 500 |
| `Api.VoiceChatExcept` | server/app/routes/api.py:48-52 | an `HTTPException` is re-raised unchanged; any other exception becomes 500 "Failed to process voice request" |
| `Api.VoiceChat` | server/app/routes/api.py:34-52 | a success means the transcript (default three retries) was sent as the single user turn, its reply was spoken, and the envelope carries that reply, role `assistant` and the timestamp; a transcription or completion error passes through unchanged; a synthesis failure after the reply, or a missing client, is 500 "Failed to process voice request"; conversely a recognised transcript, a present client, a completed reply and a finished synthesis always give that envelope |
| `Api.VoiceRequestShape` | server/app/routes/api.py:39-41 | the voice request is exactly the system turn and one user turn holding the transcript, with no history |
| `Api.VoiceChatStatuses` | server/app/routes/api.py:37-52 | `/voice_chat` fails only with 408, 500 or 503, and any non-500 failure is the transcription's own error |
| `Api.EndConversation` | server/app/routes/api.py:54-62 | `/end` takes no input besides the clock and returns role `system` with the fixed farewell text |
| `Api.HealthCheck` | server/app/routes/api.py:67-76 | `/health` returns status `ok`, service "English Companion API" and version "1.0.0", with the given timestamp |

## Left out

- Application wiring, the rate limiter, CORS, the logging middleware, mDNS
  advertisement and server start-up (`server/main.py`, `server/app/middleware/`):
  process and network configuration with no pipeline logic.
- Environment loading (`server/app/core/config.py`): reading `.env` and the
  process environment is I/O. The API key is a parameter of `InitializeClient`.
- `app.core.limiter` is not part of this model.
- `text_to_speech` (`server/app/services/tts_service.py`): it drives an
  audio engine. The routes see it only as the `speak` outcome: it finishes
  or raises.
- The speech-recognition library, the microphone and the Google recogniser
  are the `mic` oracle. `Stt.VoiceToText` takes neither `timeout` nor
  `phrase_time_limit`, because they only shape what the oracle returns.
  The two-second ambient-noise calibration is not modelled either.
- The provider SDK is the `create` function. Its retries, HTTP transport
  and response parsing are not modelled. `choices[0].message.content` is
  taken to be a string, although the SDK types it as optional.
- The validation library's parsing and type coercion (for example a number
  sent as `content`, or a missing field) and the exact wording of its
  422 error payload are not modelled. Only the role literal, `min_items`
  and the user-message validator are.
- `Api.EndConversation`, `Api.HealthCheck`: their `except` branches ("Failed
  to end conversation", "Health check failed") can only be reached through a
  failing clock. Since the timestamp is a parameter, these branches are not
  modelled.
- `Stt.VoiceToText`: the attempt count is a ghost out-parameter. The source
  does not return it; it is kept only to state the bound on attempts.
- Logging calls, `async` scheduling and concurrency between requests.
- The floating-point value of the temperature.
- The code has no back-off between speech-recognition attempts, no fallback
  transcript, no audio normalisation to 16 kHz PCM and no caller-supplied
  history for the voice route; retries are immediate, exhausted retries
  raise 408, and the voice route sends no history.
