# OllamaClient session store, in Dafny

This project models the core of `OllamaClient`, the Python client that the service uses to reach a
locally hosted Ollama inference daemon. The core has two parts:

- **The session table** (`chat_sessions`): an in-memory map from chat id to the model bound to the
  conversation and its transcript of role-tagged messages. `init_chat` creates or replaces an entry,
  with a leading system message when a non-empty system prompt is given. `chat_message` appends the user
  message, sends the whole transcript to the daemon, and appends the assistant reply only when the
  request succeeds. `cleanup_chat` deletes an entry, and an unknown id is not an error.
- **The translation layer**: the `/api/chat` and `/api/generate` request bodies, built as a
  right-biased merge of `{model, messages | prompt, stream: false}` with the caller's `parameters`, and
  the extraction of the reply (`message.content` or `response`, with `""` when the key is missing).

The HTTP call is a parameter. A `Daemon` is a function from a URL and a payload to either the decoded
answer body or the detail of a failure. Failures include a connection error, a timeout, a non-success
status and a body that is not JSON.

Modules:
- `Wrappers`: `Option`, `Result`.
- `Json`: decoded JSON values and Python's `dict.get` on them.
- `Gateway`: roles, transcript entries and their wire encoding, the payloads, reply extraction,
  and one chat request (`CompleteChat`) or generate request (`CompleteSingle`).
- `Sessions`: the table as a value, the transcript invariant, one turn (`Turn`), a run of turns
  (`RunTurns`) and the lemmas about them.
- `Client`: the class `OllamaClient`, whose methods update the `chatSessions` field in place and are
  proved against `Sessions`.
- `Scenarios`: concrete conversations proved from the class's contracts. These are one answered turn, an
  unknown id, a failed turn and its retry, a stateless query, closing a session, isolation of
  sessions, and parameters that override reserved keys.

The transcript invariant (`Sessions.WellFormed`) has two parts. A system entry can only be the first
entry. Every assistant entry directly follows a user entry. The constructor establishes it, and every
operation keeps it.

Behaviour worth knowing, each proved of the model:
- Turns do not strictly alternate user/assistant. A failed request leaves its user entry unanswered,
  so a retry produces two user entries in a row (`Sessions.RetryResendsUnanswered`,
  `Scenarios.FailedThenRetried`). The invariant that holds is the weaker one above.
- Caller `parameters` can shadow every reserved key of a request body: `model`, `messages`/`prompt`
  and `stream`. The merge lets every caller key win (`Gateway.Spread`).
- The reply is whatever JSON value sits under `content`. The transcript entry's content is therefore a
  JSON value rather than a string. When the answer body, or its `message` field, is not an object,
  `.get` raises inside the `try`. That surfaces as a chat API error and appends no assistant entry.

## Model

| member | source | states |
|---|---|---|
| `Gateway.RoleOf` | python_subsystem/ollama_client.py:13 | the role names "system", "user", "assistant" read back to exactly their roles, and no other name reads as a role |
| `Json.Get` | python_subsystem/ollama_client.py:40 | `dict.get(key, default)`: the stored value when the key is present, even when it is null, and the default otherwise |
| `Json.NoGetError` | python_subsystem/ollama_client.py:40 | the AttributeError text of `.get` on a non-dict: the Python type name of the value, quoted, then `object has no attribute 'get'` |
| `Gateway.Error.Message` | python_subsystem/ollama_client.py:23-65 | each exception text is its kind's fixed prefix followed by the chat id (with " not found") or by the whole detail |
| `Gateway.MessageInjective` | python_subsystem/ollama_client.py:23-65 | two exceptions with the same text are the same exception, so the text tells the kind and carries the id or detail |
| `Gateway.ChatUrl` | python_subsystem/ollama_client.py:36 | the chat URL is the base URL followed by `/api/chat` |
| `Gateway.GenerateUrl` | python_subsystem/ollama_client.py:51 | the generate URL is the base URL followed by `/api/generate` |
| `Gateway.EndpointsDiffer` | python_subsystem/ollama_client.py:36-51 | a chat request never goes to a generate endpoint, whatever the base URLs |
| `Gateway.EncodeMsg` | python_subsystem/ollama_client.py:26 | a transcript entry is the dict with exactly the keys `role` (the role's wire name) and `content` (the entry's content) |
| `Gateway.EncodeMessages` | python_subsystem/ollama_client.py:30 | the transcript is sent as a list of the same length, entry i encoded as `{"role", "content"}` of message i |
| `Gateway.DecodeEncodeMsg` | python_subsystem/ollama_client.py:26 | one transcript entry read back from its wire form is that entry |
| `Gateway.DecodeEncodeMessages` | python_subsystem/ollama_client.py:28-33 | the wire form of a transcript decodes back to the same transcript, in order |
| `Gateway.Spread` | python_subsystem/ollama_client.py:28-33 | the `**parameters` merge has the union of the keys, every caller key takes the caller's value, and every other key keeps the base value |
| `Gateway.ChatPayload` | python_subsystem/ollama_client.py:28-33 | the chat body has keys `model`, `messages`, `stream` plus the parameters; each reserved key holds the session model, the encoded transcript or `false` unless a parameter overrides it |
| `Gateway.GeneratePayload` | python_subsystem/ollama_client.py:52-57 | the generate body has keys `model`, `prompt`, `stream` plus the parameters; each reserved key holds the model, the instruction or `false` unless a parameter overrides it |
| `Gateway.ChatPayloadCarriesTranscript` | python_subsystem/ollama_client.py:28-33 | when no parameter is named `messages`, the daemon reads back exactly the transcript that was sent |
| `Gateway.ChatReply` | python_subsystem/ollama_client.py:40 | the reply is `message.content`; a missing `message` or `content` gives `""`; a body that is not an object, or a `message` that is not an object, is an error carrying the AttributeError text for that value |
| `Gateway.ChatReplyOfMessage` | python_subsystem/ollama_client.py:40 | an answer whose `message` is an encoded transcript entry yields that entry's content |
| `Gateway.GenerateReply` | python_subsystem/ollama_client.py:63 | the reply is `response`, or `""` when it is missing, and it is an error exactly when the body is not an object |
| `Gateway.CompleteChat` | python_subsystem/ollama_client.py:35-47 | a chat request's result is the reply extracted from the daemon's answer to exactly the chat payload; it succeeds exactly when the daemon answers with an extractable body; a failed call is a chat API error with the call's detail, and a failed extraction a chat API error with the extraction's detail |
| `Gateway.CompleteSingle` | python_subsystem/ollama_client.py:49-65 | a generate request's result is the `response` field of the daemon's answer to exactly the generate payload; it succeeds exactly when the answer is an object; a failed call is a generate API error with the call's detail, and a non-object answer a generate API error with the AttributeError text |
| `Sessions.Truthy` | python_subsystem/ollama_client.py:12 | `if system_prompt:` is false exactly for None and for the empty string |
| `Sessions.InitialTranscript` | python_subsystem/ollama_client.py:11-13 | the new transcript is `[system: p]` when the prompt is present and non-empty, and `[]` when it is missing or `""`; this transcript is well formed |
| `Sessions.Turn` | python_subsystem/ollama_client.py:20-47 | an unknown id gives SessionNotFound and leaves the table unchanged; otherwise the reply is the chat request on the old transcript plus the user entry; on success the transcript gains `[user, assistant: reply]`; on failure it gains only `[user]` and the error is a chat API error; the model, the keys and every other entry are unchanged |
| `Sessions.AppendTurnKeepsWellFormed` | python_subsystem/ollama_client.py:26-43 | appending a user entry, with or without its assistant answer, keeps a transcript well formed |
| `Sessions.TurnKeepsWellFormed` | python_subsystem/ollama_client.py:20-47 | a turn, successful or failed, keeps every transcript of the table well formed |
| `Sessions.RetryResendsUnanswered` | python_subsystem/ollama_client.py:26-47 | after a failed turn (with any parameters), the next turn, whose own parameters do not name `messages`, sends the old transcript followed by both user entries |
| `Sessions.RunTurns` | python_subsystem/ollama_client.py:20-47 | a run of `chat_message` calls on one id returns one reply per call, in order |
| `Sessions.AnsweredTurn` | python_subsystem/ollama_client.py:25-45 | when the last turn of a run returns normally, its reply is appended to the run's replies and the transcript gains exactly its user entry and that reply as an assistant entry |
| `Sessions.RunTurnsKeepsWellFormed` | python_subsystem/ollama_client.py:20-47 | any run of turns on one id, each turn with its own message, parameters and daemon, keeps every transcript well formed |
| `Sessions.RunTurnsIsolation` | python_subsystem/ollama_client.py:20-47 | any run of turns on one id, each turn with its own message, parameters and daemon, keeps the set of ids, the session's model and every other session unchanged |
| `Sessions.SuccessfulTurns` | python_subsystem/ollama_client.py:25-45 | when each of N turns (each with its own message, parameters and daemon) returns normally, the old transcript is kept as a prefix and followed by 2N entries: user message k at offset 2k, and right after it the reply turn k returned |
| `Sessions.TranscriptLengthAfterInit` | python_subsystem/ollama_client.py:9-45 | after `init_chat` and N turns that each return normally, the transcript has (prompt non-empty ? 1 : 0) + 2N entries, and it starts with the system entry when there is one |
| `Client.OllamaClient.constructor` | python_subsystem/ollama_client.py:5-7 | a new client keeps the given base URL (`Client.DefaultBaseUrl`, `http://localhost:11434`, when the caller gives none) and starts with an empty session table |
| `Client.OllamaClient.InitChat` | python_subsystem/ollama_client.py:9-18 | the entry for the id becomes the model with the initial transcript, replacing any old entry; every other entry is unchanged |
| `Client.OllamaClient.ChatMessage` | python_subsystem/ollama_client.py:20-47 | the new table and the result are those of `Sessions.Turn` on the old table, and the transcript invariant is kept |
| `Client.OllamaClient.SingleQuery` | python_subsystem/ollama_client.py:49-65 | the result is the generate request on the client's base URL, and the session table is neither changed nor consulted |
| `Client.OllamaClient.CleanupChat` | python_subsystem/ollama_client.py:67-70 | the table loses the id's entry if it had one and is otherwise unchanged, so a second call changes nothing |

## Left out

- The HTTP call (`httpx.post`, `raise_for_status`, `response.json()`) and its 60-second timeout are not modelled. They are foreign network I/O, so the daemon is a function parameter that returns the decoded body or a failure detail. The detail text of a transport or status error is opaque.
- URLs are plain concatenation of the base URL and `/api/chat` or `/api/generate`. Nothing here parses or validates a URL.
- `run_ollama` is not modelled. It is a legacy wrapper that builds a default client and calls `single_query`.
- python_subsystem/main.py is not part of this model. It holds the HTTP routes, uuid generation and the in-band error responses. `Gateway.Error.Message` gives the exception texts those routes render.
- Concurrency is not modelled, because the code has no locking. Lines 25-43 also alias the session dict, which matters only if another request replaces or deletes the entry during the call.
- JSON floats are not representable: `Json.Value` has integer numbers only, so a float parameter such as `temperature`, or a float answer body (on which `.get` would raise `'float' object has no attribute 'get'`), is stood in for by some other `Value`.
- `parameters` is always a JSON object here. A non-mapping value would make `**parameters` raise a TypeError after the user entry was appended; the model has no such input.
- JSON key order in the request body is not modelled. A payload is a map.
