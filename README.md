# Concierge chat backend: session turns, tool payload hand-off and the city validator

This project models the sequential core of a conversational concierge backend.
The backend has two processes:

- The **tool server** (`mcp_server.py`) offers the language-model agent its tools.
  It checks a city against the partner's list of cities. It searches places on
  Google Places and establishments on the partner service (Clapzy), using the
  guest or the bearer shape of request. It returns the name lists to the agent
  and leaves the full records in Redis.
- The **chat endpoint** (`main.py`) keeps one message history per session id.
  It seeds a new session with a system message and appends the user message.
  It sends the agent a trimmed window: the system message plus the last six
  Human/AI messages. It appends the agent's final reply. It then guesses from
  fixed positions which tool message belongs to which tool, and reads and
  deletes the two cached payloads. It also resets a session.

The Dafny modules follow these components:

- `Common`: the `Option` datatype.
- `KeyValue`: Redis as a class `Cache` over a `map<string, string>`.
- `McpServer`: the tool server.
- `ChatApi`: the chat endpoint. The class `ChatServer` holds the session map
  and the shared cache.

Outside collaborators become parameters:

- The agent is a function from the window it receives to an `AgentRun`. An
  `AgentRun` holds the cache writes its tool calls made, and then either the
  message list it returned or the exception it raised.
- Each upstream HTTP service is a function from the request the tool builds to
  the reply it gets.
- `str.strip` and `str.lower` are function parameters of the validator. Every
  property proved about it holds for any definition of them.

Notes on what this source does, which the model keeps:

- The chat endpoint reads and deletes `{session_id}` and `{session_id}_clapzy`
  on every turn whose agent returned at least three messages. It does not check
  whether the tool ran in this turn. So a payload left by a turn that failed
  after the tool ran is handed to the next turn
  (`ChatApi.StalePayloadReachesNextTurn`). The same holds for entries the Redis
  server already held when the endpoint connected, such as a payload left
  before a restart: the first turn that reads their key returns them
  (`ChatApi.ChatServer.Chat` starts from the store's current entries).
- Tool messages are chosen by position alone: the Google slot is `[-2]` when
  that is the Google tool's message, else `[-3]`; the partner slot is `[-3]`
  when that is the partner tool's message, else `[-2]`. When only the Google
  tool ran, both slots report its message (`ChatApi.OneToolFillsBothSlots`).
  A city-check message at `[-2]` is reported as the partner tool's message
  (`ChatApi.CityCheckReportedAsPartnerTool`). When the tools run one after
  another, each followed by an AI message, the Google slot reports nothing
  (`ChatApi.SequentialCallsLoseGoogleTool`).
- The Redis writes set no expiry.
- A new session always goes through the agent; the endpoint returns no canned
  greeting.
- The Google tool accepts `place_type` and does not use it.
- The docstrings of both search tools (mcp_server.py:67, mcp_server.py:240)
  promise an error message when no place matches. The code returns an empty
  name list instead and caches "[]" (`McpServer.NoMatchIsEmptyList`).
- A 200 reply whose body lacks `places` / `establishments`, or holds a record
  without `displayName.text` / `name`, raises `KeyError` in the tool before
  anything is cached (`McpServer.ToolResult.MissingField`).
- Each record's name is read before the cache write, so one nameless record
  anywhere in the list makes the whole call fail with nothing cached.
  `McpServer.FirstKeyError` gives the key of the first such record.
- A message list shorter than three is not excluded by a precondition. The
  source handles it: the negative index raises `IndexError`, and the handler
  returns `{"error": ...}`. Whatever happened before the failing index stays
  done. With two messages whose first is the Google tool's, the Google payload
  is consumed and the turn still answers with an error (`ChatApi.ErrorTurns`).

## Model

| member | source | states |
|---|---|---|
| `McpServer.VerifyCity` | mcp_server.py:128-196 | Blank input (empty, or empty once stripped) gives not found, no exact city, the original input and the error text. Every path reports the candidate list's length. Otherwise the verified city is the stripped input. Case-sensitive: found iff the stripped city is in the list, and then the exact city is that city. Case-insensitive: found iff some entry lowercases to the lowercased stripped city, and the exact city is the first such entry. The exact city is None iff not found. The candidate list defaults to Quito, Bogota, Cali, Medellin and the comparison to case-insensitive, as the tool's arguments do. |
| `McpServer.PartnerAuth` | mcp_server.py:257-268 | If the token equals the session id: the headers are exactly Content-Type, Accept and the guest header carrying the token, with no Authorization, and the guest URL. Otherwise: exactly Authorization = "Bearer " + token, Content-Type and Accept, and the authenticated URL. Content-Type and Accept are application/json in both cases. |
| `McpServer.PlacesSearchRequest` | mcp_server.py:75-109 | The POST goes to the text-search URL with the query and a page size of 20 in its body. Its headers are exactly Content-Type (application/json), the API key and the field mask. |
| `McpServer.PartnerSearchRequest` | mcp_server.py:249-275 | The GET carries the headers and URL that `PartnerAuth` selects, the latitude, longitude and establishment type as given, and a radius of 50. |
| `McpServer.FirstKeyError` | mcp_server.py:120 | None iff every record's name can be read. Otherwise it is the missing key of the first record whose name cannot be read, as the comprehension raises it (here and at mcp_server.py:286). |
| `McpServer.Collect` | mcp_server.py:120 | The extracted list has the record list's length, and entry i is the field of record i, so order is kept. |
| `McpServer.JsonArray` | mcp_server.py:122 | The serialized record list is never empty: it starts with '[' and ends with ']'. |
| `McpServer.NoMatchIsEmptyList` | mcp_server.py:120-123 | An empty record list gives an empty name list and caches "[]"; it is not turned into an error message. |
| `McpServer.DecimalText` | mcp_server.py:114 | A status code's text is non-empty, all decimal digits, has no leading zero when longer than one digit, and denotes the status code. |
| `McpServer.RequestErrorText` | mcp_server.py:112-114 | The error text starts with "Error en la solicitud: " and ends with " - " and the reply text. Between them stand the decimal digits of the status code, with no leading zero. |
| `McpServer.RecommendGooglePlaces` | mcp_server.py:30-125 | A non-200 reply returns the error text and leaves the cache unchanged. A 200 reply without `places`, or whose list has a record lacking `displayName` or its `text`, ends in `KeyError` on the first missing key and leaves the cache unchanged. Otherwise it returns the display names in record order, each the `displayName.text` of its record. It sets `{session_id}` to the serialized records and `{session_id}_query` to the query, and writes nothing else. |
| `McpServer.RecommendPartnerPlaces` | mcp_server.py:199-290 | The request goes out with the shape `PartnerAuth` selects. A non-200 reply returns the error text and leaves the cache unchanged. A 200 reply without `establishments`, or whose list has a record lacking `name`, ends in `KeyError` on the first missing key and leaves the cache unchanged. Otherwise it returns the establishment names in record order, each the `name` of its record. It sets `{session_id}_clapzy` to the serialized records, and writes nothing else. |
| `KeyValue.Cache.constructor` | main.py:29 | A client of a running server sees exactly the entries the server already holds. |
| `KeyValue.Cache.Set` | mcp_server.py:122-123 | `set` maps the key to the value and changes no other key. |
| `KeyValue.Cache.Get` | main.py:158 | `get` returns the key's value when present and None otherwise. |
| `KeyValue.Cache.Delete` | main.py:161 | `delete` removes only that key. Deleting an absent key changes nothing. |
| `ChatApi.SystemPrompt` | main.py:43-71 | The prompt starts with the persona. The session id and the token follow verbatim, each right after its label. |
| `ChatApi.Conversational` | main.py:139 | The filter keeps exactly the Human/AI messages. It is no longer than its input, and every element it keeps is a Human/AI message. |
| `ChatApi.Trimmed` | main.py:139 | The window has between 1 and 7 messages. It starts with history[0]. Every later message is a Human/AI message taken from history[1:], so no tool message appears after index 0. |
| `ChatApi.ConversationalAppend` | main.py:139 | Filtering distributes over concatenation, so it preserves the original order. |
| `ChatApi.WindowHoldsNewestTurns` | main.py:139 | After the system message, the window is the last min(6, count) Human/AI messages of history[1:], in history order. |
| `ChatApi.ConversationalSnoc` | main.py:136-139 | Appending a Human/AI message to a history appends it to the filtered sequence. |
| `ChatApi.WindowEndsWithNewMessage` | main.py:135-139 | The user message just appended is the last message of the window the agent receives. |
| `ChatApi.SeededHistory` | main.py:131-132 | A known session keeps its stored history. An unseen session starts with exactly one system message built from its id and token. |
| `ChatApi.AppendedReply` | main.py:148-149 | At most one message is kept: the agent's last message, exactly when the agent returned a non-empty list. |
| `ChatApi.GoogleToolSlot` | main.py:152-156 | The Google slot is `messages[-2]` exactly when that is the Google tool's message, and `messages[-3]` otherwise. |
| `ChatApi.PartnerToolSlot` | main.py:164-167 | The partner slot is `messages[-3]` exactly when that is the partner tool's message, and `messages[-2]` otherwise. |
| `ChatApi.ReportIfTool` | main.py:178-179 | A slot is reported iff its message is a tool message, and then it is that message. |
| `ChatApi.SlotsFindBothTools` | main.py:152-167 | When both tool messages, in either order, come just before the reply, each slot reports its own tool's message. |
| `ChatApi.OneToolFillsBothSlots` | main.py:164-167 | When only the Google tool's message comes before the reply, the partner slot also reports that Google message. |
| `ChatApi.GoogleSlotFindsGoogleTool` | main.py:152-156 | The Google slot reports a Google tool message iff one sits at `[-2]` or `[-3]`; the one at `[-2]` is reported when both do. |
| `ChatApi.PartnerSlotFindsPartnerTool` | main.py:164-167 | The partner slot reports a partner tool message iff one sits at `[-3]` or `[-2]`; the one at `[-3]` is reported when both do. |
| `ChatApi.PartnerSlotTakesAnyToolAtSecondLast` | main.py:164-179 | Unless `[-3]` is the partner tool's message, the partner slot reports `[-2]` whenever it is a tool message of any tool, and nothing otherwise. |
| `ChatApi.CityCheckReportedAsPartnerTool` | main.py:152-179 | With the Google tool's message at `[-3]` and the city check's at `[-2]`, the partner slot reports the city check's message and the Google slot the Google message. |
| `ChatApi.SequentialCallsLoseGoogleTool` | main.py:152-179 | For `[…, Tool(google), Ai, Tool(partner), Ai]` the Google slot reports nothing and the partner slot reports the partner message. |
| `ChatApi.ReportedToolsAreLastTwo` | main.py:152-179 | A reported tool message is a tool message, and is one of the two messages before the reply. |
| `ChatApi.TakeEntry` | main.py:158-161 | A value is returned iff the key holds a non-empty string. The key is then absent. Otherwise the entries are unchanged. No other key changes. |
| `ChatApi.TakeIsSingleRead` | main.py:158-172 | A second take of the same key returns None and changes nothing. |
| `ChatApi.SessionKeysDistinct` | mcp_server.py:122-123 | `{session_id}`, `{session_id}_query` and `{session_id}_clapzy` are pairwise distinct. |
| `ChatApi.ToolPayloadIsTaken` | main.py:158-161 | A payload a search tool wrote is always returned by the turn's take, and its key is removed. |
| `ChatApi.FinishTurn` | main.py:147-185 | The turn after the agent ran, step by step. The cache only loses entries, and only `{session_id}` and `{session_id}_clapzy`; every kept entry keeps its value. A reply carries the agent's message list. |
| `ChatApi.ReplyIsAppendedMessage` | main.py:148-181 | A turn replies iff the agent returned at least three messages. The reply is then the agent's last message, which is the one message appended to the history. |
| `ChatApi.ReplyTakesBothPayloads` | main.py:158-172 | On a reply, each payload is its key's value (None when absent or empty), and a returned key is then absent. Every other key keeps its value, `{session_id}_query` included. |
| `ChatApi.ErrorTurns` | main.py:141-185 | An agent exception, or fewer than three messages, gives an error response (the exception's text when the agent raised). The cache is unchanged, except when a two-message list starts with the Google tool's message: then the Google payload is always consumed before the error, and that is the only case in which the cache changes. |
| `ChatApi.StalePayloadReachesNextTurn` | main.py:158-161 | A payload written in a turn whose agent then raised is returned by the next turn, even when that turn ran no tool and reports no tool message. |
| `ChatApi.ChatServer.constructor` | main.py:74 | The session map starts empty. |
| `ChatApi.ChatServer.TakePayload` | main.py:158-161 | The get-then-delete leaves the value and the cache that `TakeEntry` gives. |
| `ChatApi.ChatServer.Chat` | main.py:122-185 | Every history still starts with a system message, and no other session's entry changes. The session's history becomes its seeded history, then the user message, then the agent's last message if it returned one; it is never shortened. The agent receives the trimmed window of that seeded history plus the user message, and that window starts with a system message. The response and the final cache are `FinishTurn` applied to the agent's writes. If the agent raised, the response is its error and the user message stays in the history. |
| `ChatApi.ChatServer.AppendUserMessage` | main.py:131-136 | The session's history becomes its seeded history plus the user message. Only that entry changes, and every history still starts with a system message. |
| `ChatApi.ChatServer.CompleteTurn` | main.py:147-181 | After the agent returns, the history gets `AppendedReply` and the response and cache follow `FinishTurn` step by step. |
| `ChatApi.ChatServer.ResetSession` | main.py:192-209 | Removes only the given id, whether or not it existed, and always reports success with the session's message. |
| `ChatApi.ResetIsIdempotentAndReseeds` | main.py:200-209 | Resetting twice equals resetting once. Other sessions keep their histories. The next turn for the reset id seeds a fresh system message. |

## Left out

- HTTP transport: status codes and reply bodies are inputs. Timeouts, connection failures and JSON parse errors, which the tool framework would report, are not modelled.
- The persona text of the system prompt is configuration. It is replaced by a placeholder; only the embedded session id and token are kept.
- `ChatApi.TakeEntry`: returns the raw cached JSON text where the source returns `json.loads` of it, and always deletes a non-empty key. In the source `json.loads` runs before `redis.delete`, so a value it rejects makes the turn answer `{"error": ...}` and the key stays. Such a value can exist: session `s_query`'s Google key is session `s`'s raw query text. JSON decoding is not modelled; records are opaque text.
- `McpServer.JsonArray`: models `json.dumps` of a record list as "[" + the records' own serialized texts joined by ", " + "]". Each record's serialization is opaque.
- The exact Unicode behaviour of `str.strip` and `str.lower` is not modelled; both are parameters.
- The LLM agent, MCP stdio transport, the FastAPI app (`lifespan`, routing, CORS) and request parsing are left out. The agent's effect is the `AgentRun` input.
- Redis connection setup, connection failures, and the `except` branch of `reset_session` are left out. The last cannot fire on the in-memory map.
- Concurrent turns on the same session id are left out. The model runs one turn at a time.
- `print` logging and environment/proxy configuration are left out.
- `helpers.py` `get_greeting_message` is left out. It is a random choice among constant strings and is not called by this `main.py`.
