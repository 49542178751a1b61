# chat-starter backend: the websocket chat protocol and connection registry

This project models the core of the chat-starter backend and proves
properties of the model:

- The two model handlers, `get_openai_response` and `get_ollama_response`.
  Each network call is replaced by an abstract outcome supplied as input.
- The receive loop of `websocket_endpoint`. Each inbound text is sorted
  into a `/use ` control command or a chat prompt. A prompt goes to the
  handler named by the process-wide provider `MODEL_PROVIDER`, and a failed
  OpenAI call fails over to Ollama until a `/use openai` command. The
  fixed-format frames sent
  back are modelled too.
- The connection registry `ConnectionManager`, a dictionary from client id
  to websocket.

Files:

- `text.dfy` (module `Text`): the Python `str` operations the endpoint
  uses: `startswith`, `replace(p, "")`, `strip()`, `lower()` and `upper()`.
- `handlers.dfy` (module `Handlers`): both handlers as functions over the
  outcome of their network call.
- `protocol.dfy` (module `Protocol`): `Step`, one turn of the receive loop,
  as a pure function. `Session` folds `Step` over the texts a connection
  receives. The lemmas about command parsing, routing, failover and replies
  live here.
- `registry.dfy` (module `Registry`): the `ConnectionManager` class, with
  `Table` as the value its state is specified by.
- `server.dfy` (module `Server`): the module-level state of `main.py`
  (`MODEL_PROVIDER`, the API key and `manager`) as the class `ChatServer`.
  `HandleText` is one pass of the loop body. `WebsocketEndpoint` runs a
  whole connection imperatively, and each method is proved equal to the
  `Step`/`Session` specification.

Modelling decisions:

- `MODEL_PROVIDER` is one field of `ChatServer`, shared by every
  connection. A connection starts from whatever provider the previous one
  left behind. `WebsocketEndpoint` says so: its final `modelProvider` is the
  `Session`'s provider, starting from the value it found.
- The provider starts as any lower-cased configuration string. Every value
  other than exactly `openai` routes prompts to Ollama.
- When OpenAI returns a completion whose content is `None`, the endpoint
  sends `assistant: None`. It does not fail over, because the handler
  returns normally.
- An exception from the OpenAI client that is not an `APIError` propagates
  out of the handler unchanged and is caught by the endpoint's
  `except Exception`.
  The failover notice then carries its text as is.
- `data.replace("/use ", "")` deletes every occurrence of `/use `, not only
  the leading one. `RemoveAll` is Python's left-to-right scan, so
  `/use ol/use lama` selects Ollama.
- Python's dict keeps insertion order, which decides the order in which
  `broadcast` reaches sockets. `Table` therefore pairs a key order with the
  map. Re-assigning an existing key keeps its place; `pop` removes it.
- Every frame the registry sends is appended to the `sent` log. The
  frames the endpoint sends on its own socket are returned as `frames`.

## Model

| member | source | states |
|---|---|---|
| Text.StartsWith | backend/app/main.py:88 | `s.startswith(p)`: `p` is no longer than `s` and equals the prefix of `s` of the same length |
| Text.RemoveAll | backend/app/main.py:89 | `replace(p, "")` never lengthens the text |
| Text.RemoveAllAbsent | backend/app/main.py:89 | a text in which `p` does not occur comes out unchanged |
| Text.RemoveAllSkip | backend/app/main.py:89 | where `p` does not occur at the front, the first character is kept and the scan goes on with the rest |
| Text.RemoveAllLeading | backend/app/main.py:89 | a leading occurrence is consumed and the scan continues behind it |
| Text.RemoveAllFirstOccurrence | backend/app/main.py:89 | everything before the first occurrence is kept unchanged, the occurrence is dropped, and the scan resumes right after it |
| Text.IsSpace | backend/app/main.py:89 | the code points CPython's `str.isspace` accepts, which `strip()` without arguments removes: U+0009–U+000D, U+001C–U+0020, U+0085, U+00A0, U+1680, U+2000–U+200A, U+2028, U+2029, U+202F, U+205F and U+3000 |
| Text.StripLeft | backend/app/main.py:89 | `lstrip()`, defined by recursion on the leading character; Text.StripLeftSpec states which suffix it keeps |
| Text.StripRight | backend/app/main.py:89 | `rstrip()`, defined by recursion on the trailing character; Text.StripRightSpec states which prefix it keeps |
| Text.Strip | backend/app/main.py:89 | `strip()`, `rstrip` applied to `lstrip`; Text.StripSpec states which slice of the text it keeps |
| Text.StripLeftSpec | backend/app/main.py:89 | `lstrip` removes exactly the longest all-whitespace prefix |
| Text.StripRightSpec | backend/app/main.py:89 | `rstrip` removes exactly the longest all-whitespace suffix |
| Text.StripSpec | backend/app/main.py:89 | `strip` keeps a contiguous slice of the text; what is cut off on either side is whitespace, and the result neither starts nor ends with whitespace |
| Text.StripPadded | backend/app/main.py:89 | stripping undoes any whitespace padding of a text that has no whitespace at its ends |
| Text.Lower | backend/app/main.py:89 | `lower` keeps the length, maps each character by itself, and leaves no upper-case ASCII letter |
| Text.LowerFixed | backend/app/main.py:89 | lower-casing leaves a text without upper-case ASCII letters unchanged, so lower-casing twice is lower-casing once |
| Text.Upper | backend/app/main.py:92 | `upper` keeps the length, maps each character by itself, and leaves no lower-case ASCII letter |
| Handlers.Str | backend/app/main.py:110 | how the f-string renders the handler's value: a `str` as itself, `None` as `None`, any other JSON value as Python's `str()` text for it |
| Handlers.KeyConfigured | backend/app/main.py:43 | the guard `not client or not OPENAI_API_KEY` lets the call through exactly when the key is set and non-empty, since line 22 creates the client exactly then |
| Handlers.OpenAIHandler | backend/app/main.py:42-54 | fails with `Missing OpenAI API key` iff the key is absent or empty, whatever the provider would do; succeeds iff the key is set and the provider returns a completion, and then returns its content (or `None`); rate-limit and authentication errors become "unavailable", other API errors become "API error", and other exceptions pass through unchanged |
| Handlers.Message | backend/app/main.py:44-54 | `str(e)` for each exception the OpenAI handler raises: the fixed key message, or `OpenAI unavailable: ` / `OpenAI API error: ` before the SDK's detail, or an uncaught exception's own text; Handlers.FailureMessagesDistinct proves the text tells apart the three failures the handler composes itself (main.py:44, 52, 54); an uncaught exception's text can coincide with any of them |
| Handlers.MissingKeyIgnoresProvider | backend/app/main.py:43-44 | without a key, the result does not depend on the provider's outcome |
| Handlers.FailureMessagesDistinct | backend/app/main.py:43-54 | the three failure texts the handler composes never coincide for different failures |
| Handlers.NoGetMessage | backend/app/main.py:69 | the `AttributeError` text `'T' object has no attribute 'get'` that `.get` raises on a body or `message` that is not a dict; line 72 puts it behind the error marker |
| Handlers.OllamaHandler | backend/app/main.py:57-72 | never fails; returns `message.content` when present and `No response from Ollama.` when `message` or `content` is absent; a network or status failure, or a non-dict body or `message`, gives `❌ Ollama error: ` followed by the exception text |
| Protocol.Greeting | backend/app/main.py:80 | the frame `✅ Connected. Current provider: ` with the provider upper-cased; Server.ChatServer.WebsocketEndpoint sends it first |
| Protocol.SwitchedNotice | backend/app/main.py:92 | the frame `🔄 Switched to NAME mode.` with the name upper-cased; Protocol.NoticesAreNotAnswers proves it is never taken for an answer |
| Protocol.FailoverNotice | backend/app/main.py:107 | the frame `⚠️ OpenAI failed, switched to OLLAMA. (e)` carrying the exception text; Protocol.NoticesAreNotAnswers proves it is never taken for an answer |
| Protocol.AssistantReply | backend/app/main.py:110 | the frame `assistant: ` followed by the handler's value as an f-string renders it; Protocol.StepAnswers counts exactly one per prompt |
| Protocol.IsCommand | backend/app/main.py:88 | a text is a control command exactly when it starts with `/use ` |
| Protocol.KnownProvider | backend/app/main.py:90 | the membership test `new_provider in ["openai", "ollama"]`: exactly the two names |
| Protocol.ParseCommand | backend/app/main.py:89 | the parsed name is never longer than the text, has no whitespace at either end and no upper-case ASCII letter; Protocol.ParseCommandArgument and Protocol.ParseLowerName state which name a text gives |
| Protocol.Step | backend/app/main.py:84-110 | one pass of the loop body as a value: the provider after it, the frames sent and the handlers called; Protocol.StepShape bounds it, Protocol.CommandStep, Protocol.PromptStep, Protocol.OpenAIStep, Protocol.ProviderChanges and Protocol.StepAnswers state each branch, and Server.ChatServer.HandleText is proved equal to it |
| Protocol.StepShape | backend/app/main.py:84-110 | one turn sends one or two frames, calls no more handlers than it sends frames, and leaves the provider where it was or on `openai` or `ollama` |
| Protocol.CommandStep | backend/app/main.py:88-95 | a `/use ` text gets exactly one frame and calls no handler; an `openai` or `ollama` argument becomes the provider with `🔄 Switched to NAME mode.`; any other argument leaves the provider and sends the invalid-provider notice |
| Protocol.PromptStep | backend/app/main.py:98-110 | a prompt goes to OpenAI iff the provider is exactly `openai`, to Ollama for every other value; every handler gets the prompt unchanged; there are one or two frames, the last one being the `assistant: ` answer |
| Protocol.OpenAIStep | backend/app/main.py:98-108 | on `openai`, a success keeps the provider and answers; a failure switches to `ollama`, sends the failover notice with the failure text, then retries the same prompt on Ollama and answers with its result; the request is only sent when the key is set |
| Protocol.ProviderChanges | backend/app/main.py:88-108 | the provider changes only through a `/use` command selecting the new name, or a failed OpenAI call switching from `openai` to `ollama` |
| Protocol.Session | backend/app/main.py:83-110 | over a sequence of texts the provider stays the initial one or becomes `openai`/`ollama`; n texts yield between n and 2n frames; there are never more handler calls than frames |
| Protocol.OllamaStep | backend/app/main.py:88-102 | on `ollama`, a text that does not select `openai` keeps the provider and calls only the Ollama handler |
| Protocol.StaysOnOllama | backend/app/main.py:99-102 | starting on `ollama`, and with no text selecting `openai`, the provider stays `ollama` and only the Ollama handler is called |
| Protocol.SessionAppend | backend/app/main.py:83-110 | the loop over two stretches of texts is the loop over the first followed by the loop over the second, started from the provider the first left |
| Protocol.FailoverFromStart | backend/app/main.py:99-108 | when the first text is a prompt that fails on OpenAI, the failover notice and the Ollama answer are the first two frames, and every later call goes to Ollama until a `/use openai` |
| Protocol.FailoverIsSticky | backend/app/main.py:99-108 | after any earlier texts, once the provider is `openai` and a prompt fails there, the earlier frames and calls are kept, the failover notice is sent, the same prompt is answered from Ollama, and every later call goes to Ollama until a `/use openai` |
| Protocol.NoticesAreNotAnswers | backend/app/main.py:92-107 | switch, invalid-provider and failover frames never start with `assistant: ` |
| Protocol.StepAnswers | backend/app/main.py:88-110 | one turn sends one `assistant: ` frame for a prompt and none for a command |
| Protocol.OneAnswerPerPrompt | backend/app/main.py:83-110 | over any sequence of texts, the number of `assistant: ` frames equals the number of prompts |
| Protocol.ParseCommandArgument | backend/app/main.py:89 | `/use ` followed by an argument without another `/use ` parses to that argument, stripped and lower-cased |
| Protocol.ParseLowerName | backend/app/main.py:89-90 | a lower-case name with whitespace padding parses to itself after one or two `/use ` prefixes |
| Protocol.ParseRepeatedPrefix | backend/app/main.py:89 | `/use /use ollama` parses to `ollama` |
| Protocol.NormalName | backend/app/main.py:89 | a name of lower-case letters is unchanged by `strip()` and by `lower()` |
| Protocol.ParseInnerPrefix | backend/app/main.py:89 | `/use ol/use lama` parses to `ollama`, since every occurrence of `/use ` is removed |
| Protocol.RemoveSlashFree | backend/app/main.py:89 | a `/use ` between two texts without `/` is removed and the two texts are joined |
| Protocol.UseOllamaSelects | backend/app/main.py:88-90 | `/use ollama` is a command whose parsed name is `ollama` |
| Protocol.SessionOfTwo | backend/app/main.py:83-110 | two texts are handled as two turns, the second starting from the provider the first left |
| Protocol.SwitchByOtherConnection | backend/app/main.py:88-102 | a command selecting `ollama` (Protocol.UseOllamaSelects: `/use ollama` is one), handled for another connection, sets the shared provider to `ollama`, so this connection's next prompt is answered from Ollama alone, whatever the provider was |
| Protocol.SwitchThenPrompt | backend/app/main.py:88-110 | a command selecting `ollama` (such as `/use ollama`) followed by a prompt: `🔄 Switched to OLLAMA mode.` and then the Ollama answer, with Ollama the only handler called, whatever the earlier provider and whatever OpenAI would do |
| Registry.Connected | backend/app/ws_manager.py:11 | after `connect`, the id maps to the new socket, the other ids keep their sockets, and the keys are the old keys plus the id |
| Registry.Remove | backend/app/ws_manager.py:14 | removing an id from the key order keeps exactly the other ids, keeps them distinct, and changes nothing when the id is absent |
| Registry.RemoveAt | backend/app/ws_manager.py:14 | removing an id held once at index k closes the gap and keeps the other ids in their insertion order |
| Registry.Disconnected | backend/app/ws_manager.py:14 | `pop` removes the id, keeps every other entry, and changes nothing when the id is absent; Registry.DisconnectedValues states that the remaining ids keep their order |
| Registry.DisconnectedValues | backend/app/ws_manager.py:14-23 | after `disconnect(id)` the broadcast snapshot is the old one with the id's socket cut out, the rest in the same order |
| Registry.Values | backend/app/ws_manager.py:22 | the snapshot lists the sockets in key order, one per key |
| Registry.PersonalDeliveries | backend/app/ws_manager.py:16-19 | a personal message sends one frame when the id is registered and none otherwise, always with the message and always to that id's socket |
| Registry.BroadcastDeliveries | backend/app/ws_manager.py:21-23 | a broadcast sends the message once to each socket of the snapshot, in the snapshot's order |
| Registry.ConnectedValues | backend/app/ws_manager.py:9-23 | a new id's socket is reached last by a broadcast; reconnecting under a known id replaces its socket in place |
| Registry.DisconnectIdempotent | backend/app/ws_manager.py:13-14 | disconnecting twice is disconnecting once |
| Registry.BroadcastReachesRegistered | backend/app/ws_manager.py:21-23 | a broadcast reaches every registered socket and nothing else |
| Registry.ReplacedSocketUnreachable | backend/app/ws_manager.py:9-11 | after a reconnect under the same id, the replaced socket is no longer reached by a broadcast or a personal message, unless another id holds it |
| Registry.DisconnectedUnreachable | backend/app/ws_manager.py:13-19 | after `disconnect`, the id's socket is not reached by a broadcast (unless another id holds it), and a message to the id sends nothing |
| Registry.PersonalIsolation | backend/app/ws_manager.py:16-19 | a message to one id never goes to a socket registered only under another id |
| Registry.StaleDisconnectDropsNewerSocket | backend/app/ws_manager.py:11-14 | when a client reconnects under the same id and the older connection then ends, its `disconnect` deregisters the newer socket |
| Registry.ConnectionManager.constructor | backend/app/ws_manager.py:6-7 | the registry starts empty with nothing sent |
| Registry.ConnectionManager.Connect | backend/app/ws_manager.py:9-11 | the new state is `Connected` of the old state; the map is updated at the id only, and nothing is sent |
| Registry.ConnectionManager.Disconnect | backend/app/ws_manager.py:13-14 | the new state is `Disconnected` of the old state; the map loses the id only, and nothing is sent |
| Registry.ConnectionManager.SendPersonalMessage | backend/app/ws_manager.py:16-19 | appends exactly the personal deliveries to the log and leaves the registry unchanged |
| Registry.ConnectionManager.Broadcast | backend/app/ws_manager.py:21-23 | the loop over the snapshot appends exactly the broadcast deliveries to the log, in order, and leaves the registry unchanged |
| Server.InitialProvider | backend/app/main.py:17 | the provider defaults to `openai`; a configured value is lower-cased character by character, keeping its length and leaving no upper-case ASCII letter |
| Server.ConfiguredNameCaseless | backend/app/main.py:17 | a configured `OpenAI` starts the server on `openai` |
| Server.ChatServer.constructor | backend/app/main.py:17-22 | the server starts with the configured provider, the key and an empty registry |
| Server.ChatServer.HandleText | backend/app/main.py:84-110 | one imperative pass of the loop body sends the frames, makes the calls and leaves the shared provider exactly as `Step` specifies |
| Server.ChatServer.ReceiveLoop | backend/app/main.py:83-110 | the imperative receive loop sends the frames, makes the calls and leaves the shared provider exactly as `Session` specifies |
| Server.ChatServer.WebsocketEndpoint | backend/app/main.py:76-114 | a connection is registered, greeted with the current provider in upper case, served by the loop as `Session` specifies (the shared provider ends where the session leaves it), and deregistered by client id on disconnect |

## Left out

- The OpenAI SDK call and the HTTP POST to the Ollama daemon, with its 120 s timeout, are not modelled. Their results are inputs (`OpenAIOutcome`, `OllamaOutcome`), and the model and URL they are sent to are not represented.
- Logging, `/metrics`, the CORS middleware and `load_dotenv` are configuration and library plumbing. The environment variables become constructor parameters.
- The websocket handshake (`accept`), `receive_text` and `send_text` are transport I/O. Inbound texts are a finite sequence; sent frames are the returned `frames` and the registry's `sent` log.
- Exceptions other than `WebSocketDisconnect` are not modelled: a failed send or receive, or an exception escaping the loop. Such an exception leaves the connection registered in the source. The model always ends a connection with the disconnect.
- Failures of individual sends in `broadcast` are not modelled. The source has no per-socket error handling, so it does not isolate them.
- Server.ChatServer.WebsocketEndpoint: runs one whole connection at a time, so a modelled connection only sees provider changes made before it connected. In the source, another connection's `/use` or failover between two of this connection's texts redirects its next prompt. That interleaving is captured only by calling HandleText for different connections in any order on the shared server; Protocol.SwitchByOtherConnection states its effect. Interleaving inside one turn, at its `await` points, is not modelled.
- Text.Lower: folds ASCII letters only, while Python's `str.lower` also folds other Unicode letters.
- Text.Upper: maps ASCII letters only, while Python's `str.upper` also maps other Unicode letters (for example `ß` to `SS`).
- Registry.ConnectionManager.SendPersonalMessage: treats every registered socket as truthy, as a websocket object is in Python.
- `backend/app/api.py` (the health endpoint) and `frontend/src/App.jsx` (the React client) are not part of this model.
