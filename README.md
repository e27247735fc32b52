# AI-Chat-Bot relay and clients, modelled in Dafny

The system is a small chat relay with two browser clients.

- **Relay** (`server.js`). It keeps one in-memory conversation per session id. Each conversation is a list of
  `user`/`assistant` turns capped at 20; when the cap is exceeded the oldest turn goes first.
  `POST /api/chat` trims the message and answers an empty one with a greeting. Otherwise it stores the user
  turn and sends the system preamble plus the history to the upstream chat-completion service. Only a
  successful reply is stored as an assistant turn; every failure answers 502 with an apology and the error.
  `POST /api/clear` deletes a session and `GET /health` reports the configuration and the number of sessions.
- **React client.** `react/src/api.js` normalises every outcome of a `/api/chat` call into a reply, a session id
  and a mode (`live` or `mock`); it never fails. `react/src/App.jsx` keeps the session id, the message list, the
  composer text, a typing flag and a status line in step with `localStorage`.
- **Plain client** (`plain/main.js`). It keeps the same state in module variables and has its own mock replies
  built from `%s` templates.

The model has one module per concern:

| module | file | what it holds |
|---|---|---|
| `Js` | `js.dfy` | `??`, `\|\|` on strings, truthiness, `Math.floor(Math.random() * n)`, `Response.ok`, decimal rendering |
| `Strings` | `strings.dfy` | `trim` with the ECMA-262 whitespace set, `indexOf`, `slice(0, n)`, `replace` with a string pattern, including the `$`-patterns of GetSubstitution (ECMA-262, section 22.1.3.19.1) |
| `History` | `history.dfy` | turns, the 20-turn FIFO, and lemmas showing it keeps the most recent 20 turns in order |
| `Upstream` | `upstream.dfy` | configuration, the payload, and the decision layer of `fetchCompletion` over an abstract upstream outcome |
| `Server` | `server.dfy` | the `ChatServer` class: the `conversations` map and the three handlers, run one request at a time |
| `Client` | `client.dfy` | what both clients share: messages, stored values, the read-or-mint session id, session adoption, the relay outcome as a client sees it, and one-slot templates |
| `ReactApi`, `ReactApp` | `react_api.dfy`, `react_app.dfy` | the React transport, and the `ChatApp` class with its storage |
| `Plain` | `plain.dfy` | the `PlainChat` class with its storage, and the mock-reply templates |

Several things that are not visible to the model are passed in as parameters:

- the upstream service, as a function from payload to outcome;
- the relay as seen from a client, as a `RelayOutcome`;
- `Math.random()`, as a real `r` in [0, 1);
- new UUIDs and timestamps, as strings and `Stamp` values.

An asynchronous handler is split into its part before the request (`BeginSend`) and its part after the
request settles (`FinishSend`, `CompleteSend`). A composite method (`HandleSend`, `SendCurrentMessage`) runs
both parts one after the other.

React's effects are modelled by the state they leave once they have run:

- the session id is stored;
- the displayed list is stored under `chatbot_history_<id>`;
- when the session id changes, the list is reloaded from storage.

One consequence follows from the code as written. When a reply carries a new session id, the reload replaces
the list with that session's stored history, which is the welcome message when there is none. The reply just
received then appears only in the screen-reader announcement, not in the list. `ReactApp.ChatApp.FinishSend`
states this.

## Model

| member | source | states |
|---|---|---|
| `Js.Option.OrElse` | server.js:102 | `x ?? y`: only a missing or null value falls back; any present value, `""` included, is kept |
| `Js.Or` | server.js:16 | `v \|\| y` on a string: both a missing value and `""` give the fallback |
| `Js.PickIndex` | react/src/api.js:10-11 | `Math.floor(r * n)` for `r` in [0, 1) is a valid index, below `n` |
| `Js.Decimal` | server.js:89 | the decimal rendering of a status is a non-empty string of digits without a leading zero |
| `Js.DecimalRoundTrip` | server.js:89 | reading the rendered digits back gives the status code |
| `Strings.TrimMeaning` | server.js:101 | `trim` gives the piece of the input left once whitespace is removed from both ends: only whitespace precedes and follows it, it has none at either end, and it is empty exactly when the input is all whitespace |
| `Strings.TrimOfTrimmed` | server.js:17 | a string without whitespace at its ends is unchanged by `trim` |
| `Strings.TrimIdempotent` | react/src/App.jsx:66 | trimming twice is trimming once |
| `Strings.Prefix` | server.js:89 | `slice(0, n)` is the first `min(n, length)` characters |
| `Strings.IndexOfMeaning` | plain/main.js:168 | `indexOf` finds an occurrence exactly when there is one, and then the first |
| `Strings.IndexOfAfter` | plain/main.js:168 | when `pat[0]` is absent from `pre`, the first occurrence of `pat` in `pre + pat + post` is at `\|pre\|` |
| `Strings.SubstituteLiteral` | plain/main.js:168 | a replacement without `$` is inserted as it is |
| `Strings.Replace` | plain/main.js:168 | `replace` leaves a string without the pattern unchanged |
| `Strings.NotContainedWithout` | plain/main.js:168 | a string free of a character contains no piece holding that character |
| `History.Push` | server.js:51-55 | below the cap the turn is appended; at the cap the front turn is dropped and the turn appended; the new turn is always last |
| `History.PushKeepsWellFormed` | server.js:53-54 | a push keeps a history within 20 turns and free of `system` turns |
| `History.PushIsRecent` | server.js:53-54 | one push onto a capped history keeps the most recent 20 turns of history plus turn |
| `History.PushTwice` | server.js:113-120 | the user turn then the assistant turn: the most recent 20 of history plus both, in order |
| `History.PushAllIsRecent` | server.js:51-55 | any run of pushes is a bounded FIFO: exactly the last 20 turns pushed, in order |
| `History.FromEmpty` | server.js:51-55 | from empty, the length is the number of pushes up to 20 and never exceeds 20 |
| `History.TwentyOneTurns` | server.js:54 | after 21 pushes the first turn is gone and the history starts with the second |
| `Upstream.LoadKey` | server.js:16 | the credential is trimmed; it is empty exactly when the variable is unset or blank; otherwise it is the trimmed variable |
| `Upstream.LoadModel` | server.js:17 | the model is the default when the variable is unset or empty, and the trimmed variable otherwise |
| `Upstream.DefaultModelIsTrimmed` | server.js:17 | trimming the default model changes nothing |
| `Upstream.BuildPayload` | server.js:63-73 | the payload is the configured model with the system preamble first and then the history, in order |
| `Upstream.HttpErrorMessage` | server.js:87-90 | the error names the status and quotes at most the first 300 characters of the body |
| `Upstream.InterpretMeaning` | server.js:87-95 | a reply exactly when a 2xx answer has non-blank content; it is that content trimmed and never empty; blank or missing content is the empty-reply error; error statuses and thrown errors give their own messages |
| `Upstream.FetchCompletion` | server.js:58-96 | without a key it fails with the missing-key error; with one, the upstream answer to the built payload decides |
| `Upstream.ReplyIsTrimmed` | server.js:93-95 | every reply is non-empty and has no whitespace at its ends |
| `Upstream.NoRequestWithoutKey` | server.js:59-61 | without a key the upstream service is never consulted: any two services give the same result |
| `Server.ChatServer.constructor` | server.js:21 | the store starts empty and the configuration is fixed |
| `Server.Start` | server.js:16-21 | at process start the configuration is `LoadConfig` of the two environment variables and the store is empty |
| `Server.ChatServer.GetConversationHistory` | server.js:44-49 | an unknown id gets an empty history stored and returned; a known id's history is returned and nothing changes |
| `Server.ChatServer.AddToHistory` | server.js:51-55 | only the session's entry changes, to the bounded push of the new turn; every history stays well formed |
| `Server.ChatServer.Chat` | server.js:99-131 | the session id echoed is the supplied one, `""` included, or the minted one only when none is supplied; an empty trimmed message gets the greeting and changes no history; any other message is relayed |
| `Server.ChatServer.Converse` | server.js:112-130 | user turn stored, upstream asked with the capped history; a reply is stored as an assistant turn and answered 200; any failure answers 502 with apology and error, keeping the user turn and adding no assistant turn |
| `Server.RelayedKeepsRecent` | server.js:113-121 | after a relayed message the session holds the last 20 of its old turns plus the user turn and, on 200 only, the reply; other sessions are untouched |
| `Server.ChatServer.Clear` | server.js:134-138 | always answers success; the store becomes `Cleared` of the old store |
| `Server.Cleared` | server.js:136 | a truthy id's session is removed; a missing, null or empty id leaves the store as it was |
| `Server.ClearIsIdempotent` | server.js:136 | clearing twice is clearing once, and other sessions are untouched |
| `Server.EmptyIdNeverCleared` | server.js:136 | a session keyed `""` survives every clear |
| `Server.ChatServer.Health` | server.js:141-148 | reports ok, the model, whether a key is configured, and the number of sessions |
| `Client.CreateMessage` | react/src/App.jsx:184-191 | a new message carries the given text and sender, and the id and timestamp of its stamp (the same function is plain/main.js:80-87) |
| `Client.LoadOrMint` | react/src/App.jsx:30-36 | a truthy stored id is returned and nothing is written; otherwise the minted id is returned and stored |
| `Client.LoadOrMintStable` | plain/main.js:103-110 | a second read returns the same id and writes nothing, whatever would have been minted |
| `Client.Adopt` | plain/main.js:193-196 | the client switches only to a truthy id that differs from the current one |
| `Client.AdoptKeepsTruthy` | react/src/App.jsx:82-84 | adoption never makes the id empty, and a repeated offer changes nothing |
| `Client.Template.Fill` | react/src/api.js:3-7 | the filled template holds the text verbatim right after the fixed opening, followed by the fixed closing |
| `Client.Template.Text` | plain/main.js:161-166 | the template string is the template filled with `%s` |
| `Client.PlaceholderUnique` | plain/main.js:161-168 | with no `%` in the fixed parts, `%s` occurs exactly once, in the slot |
| `ReactApi.GenerateMockReply` | react/src/api.js:9-13 | the template picked by `floor(r * 3)`: its opening, then the message verbatim, then its closing, and nothing else |
| `ReactApi.SendChatMessage` | react/src/api.js:15-51 | live exactly for an OK status with a JSON body, with `reply ?? "I'm here to help!"` and `sessionId ?? caller's`; every other outcome is a mock reply under the caller's id |
| `ReactApi.ErrorStatusIsLikeNoResponse` | react/src/api.js:28-30 | an error status gives exactly what a network failure gives |
| `ReactApi.MockQuotesMessage` | react/src/api.js:41-47 | a mock result quotes the message and keeps the caller's session id |
| `ReactApi.Delivered` | server.js:121 | a chat response reaches the client with its status, reply and session id |
| `ReactApi.RelayAnswerReachesClient` | react/src/api.js:32-47 | a relay 200 becomes a live result with the relay's reply and echoed id; a 502 becomes a mock reply under the caller's id |
| `ReactApp.HistoryKey` | react/src/App.jsx:17-19 | the key is `chatbot_history_` followed by the id |
| `ReactApp.HistoryKeyInjective` | react/src/App.jsx:17-19 | equal keys come from equal ids |
| `ReactApp.HistoryKeyChanges` | react/src/App.jsx:17-19 | distinct ids get distinct keys |
| `ReactApp.HistoryKeyIsNotSessionKey` | react/src/App.jsx:6-7 | no history key is the session-id key |
| `ReactApp.Welcome` | react/src/App.jsx:10-15 | the welcome message is a bot message with id `welcome` and the greeting text |
| `ReactApp.LoadHistory` | react/src/App.jsx:21-28 | a stored non-empty list is returned; anything else gives the welcome message alone; never empty |
| `ReactApp.Status.Label` | react/src/App.jsx:44-96 | the status line shows `Ready` (line 44), `Connecting...` (73), `Online` or `Mock mode` (87) and `Error` (96), one text per status and no text for two |
| `ReactApp.LoadSaved` | react/src/App.jsx:61-63 | a non-empty list that was stored loads back unchanged |
| `ReactApp.ChatApp.Mount` | react/src/App.jsx:39-51 | the id is read or minted; its history is loaded and stored; the composer is empty, nothing pending, status Ready |
| `ReactApp.ChatApp.Edit` | react/src/App.jsx:156 | only the composer text changes |
| `ReactApp.ChatApp.Append` | react/src/App.jsx:61-63 | the message goes at the end of the list and the list is stored under the session's key; nothing else changes |
| `ReactApp.ChatApp.BeginSend` | react/src/App.jsx:65-73 | with empty trimmed input or a pending reply, nothing changes; otherwise the trimmed message is appended and stored, the composer emptied, typing set, status Connecting |
| `ReactApp.ChatApp.FinishSend` | react/src/App.jsx:76-103 | an adopted id is stored and the list becomes its loaded history; else the reply is appended; status Online or Mock mode; a thrown send appends the fallback with status Error; typing cleared; the list stays stored |
| `ReactApp.ChatApp.HandleSend` | react/src/App.jsx:65-108 | nothing at all changes when the trimmed input is empty or a reply is pending; a send that goes ahead appends the user message and then one reply, unless a new id is adopted (then the old session keeps the user message and the list is the new session's history); the id is stored, the status follows the transport's mode, the reply is announced, other sessions' entries are untouched, and nothing is pending afterwards |
| `ReactApp.ChatApp.Clear` | react/src/App.jsx:110-113 | the list is the welcome message alone, and that is what is stored for the session |
| `Plain.FixedPartsPlain` | plain/main.js:161-166 | no template has `%` or `$` outside its slot |
| `Plain.TemplatesWellFormed` | plain/main.js:161-166 | each template holds `%s` exactly once and no `$` |
| `Plain.ReplaceSlot` | plain/main.js:168 | `replace` on a template leaves its opening and closing unchanged and puts the GetSubstitution of the text in the slot |
| `Plain.MockReplyAsWritten` | plain/main.js:160-169 | `generateMockReply` as written: the picked template's opening, the GetSubstitution of the text, and its closing |
| `Plain.DollarPatternInTemplate` | plain/main.js:168 | replacing the slot with `$&` gives back the template, which does not contain `$&` |
| `Plain.DollarPatternLosesMessage` | plain/main.js:160-169 | the as-written mock reply to the message `$&` is the bare template and does not quote the message |
| `Plain.MockReply` | plain/main.js:160-169 | the corrected mock reply: the picked template's opening, the message verbatim, and its closing, and nothing else |
| `Plain.ReplaceFillsSlot` | plain/main.js:168 | for text without `$`, `replace` on the template fills its slot |
| `Plain.AsWrittenAgreesWithoutDollar` | plain/main.js:160-169 | for text without `$` the as-written and corrected mock replies agree |
| `Plain.BotReply` | plain/main.js:189-203 | an OK JSON answer gives `reply ?? "I received your message!"`; anything else gives the corrected mock reply, which quotes the message |
| `Plain.BotReplyAsWritten` | plain/main.js:189-203 | `BotReply` equals what `fetchBotReply` resolves to as written, with the mock reply of lines 160-169, whenever the answer is usable or the text holds no `$` |
| `Plain.LoadMessages` | plain/main.js:95-101 | the stored list, or `[]` when nothing is stored or the value does not parse |
| `Plain.Status.Label` | plain/main.js:28-201 | the status element shows `READY` (line 28), `CONNECTING...` (178), `ONLINE` (197) and `MOCK MODE` (201), one text per status and no text for two |
| `Plain.SenderLabel` | plain/main.js:136 | `YOU` exactly for the user and `BOT` exactly for the bot |
| `Plain.PlainChat.Start` | plain/main.js:12-28 | history and session id loaded, the id minted and stored when missing; an empty history gets exactly one welcome message, which is stored; status READY |
| `Plain.PlainChat.Edit` | plain/main.js:50 | only the input text changes |
| `Plain.PlainChat.AppendMessage` | plain/main.js:89-93 | the message goes at the end and the stored copy equals the list |
| `Plain.PlainChat.ClearHistory` | plain/main.js:42-47 | the list becomes empty, not a welcome message, and is stored |
| `Plain.PlainChat.BeginSend` | plain/main.js:49-60 | with empty trimmed input or a pending send, nothing changes; otherwise the trimmed message is appended, the input emptied, the send pending, status CONNECTING... |
| `Plain.PlainChat.FetchBotReply` | plain/main.js:177-204 | never fails; an OK JSON answer adopts a truthy new id, stores it and sets ONLINE; anything else sets MOCK MODE and keeps the id; the reply is `BotReply` |
| `Plain.PlainChat.CompleteSend` | plain/main.js:61-77 | exactly one bot message with the reply is appended and nothing is pending |
| `Plain.PlainChat.SendCurrentMessage` | plain/main.js:49-78 | nothing changes when the trimmed input is empty or a send is pending; a send that goes ahead appends exactly two messages, the trimmed user text and then its reply, adopts the id and sets ONLINE on a usable answer (keeps it and sets MOCK MODE otherwise), and leaves nothing pending |

## Left out

- Network I/O: the upstream `fetch` and its headers, the clients' `fetch` calls, their `AbortController` and their 8-second timeouts. Each exchange is an abstract outcome parameter.
- A timeout on the relay's upstream call: `server.js:75-85` passes no `signal` and starts no timer, unlike the clients' 8-second abort, so that call is unbounded. The model follows the code; `Upstream.Transport` stands for network failures and bodies that are not JSON.
- Express, CORS and dotenv wiring, static file serving, `PORT` and `app.listen`. Console logging.
- `Math.random`, `crypto.randomUUID`, `randomUUID` and `new Date()`. They are parameters.
- Timing: the 350 ms minimum typing time, the 900 ms and 1200 ms mock delays, `sleep` and `queueMicrotask`.
- Rendering and focus: `renderMessages`, the typing indicator, scrolling, the components, and the time part of `formatMeta`.
- Concurrency: requests to the relay are handled one at a time, so interleaved appends to one session are not modelled. A client send is its two halves, with nothing in between.
- React's scheduling of effects: only the state once all effects have run is modelled. That includes the intermediate write of the old list under a newly adopted session's key, which the reload then overwrites.
- Type coercion: `String(message)` of a non-string message, and non-string JSON values for `reply`, `sessionId` or the upstream `content`. A non-string `content` makes `trim` throw; that case is covered only as a thrown error with its own message.
- A stored plain history that parses to something other than a list. It is modelled only as a list or as unparsable.
- The plain client's fallback message in `sendCurrentMessage`. It is unreachable because `fetchBotReply` never rejects.
- Character units: strings are sequences of code points, while JavaScript's `slice(0, 300)` counts UTF-16 code units. The two differ only for characters outside the Basic Multilingual Plane.
- `Plain.BotReply`: its mock branch is the corrected `Plain.MockReply`, not the mock reply as written. For a message holding a `$` pattern such as `$&`, `fetchBotReply` as written returns the bare template instead; `Plain.BotReplyAsWritten` states where the two agree and `Plain.DollarPatternLosesMessage` where they do not. The same holds for `Plain.PlainChat.FetchBotReply`, `CompleteSend` and `SendCurrentMessage`, which use `BotReply`.
- `Strings.Replace`: its contract states only that a string without the pattern is unchanged. The matching case is stated for the templates that use it, by `Plain.ReplaceFillsSlot` and `Plain.DollarPatternInTemplate`.
- `Upstream.LoadConfig`: the whole configuration record, used by `Server.Start`; its contract is carried by `Upstream.LoadKey` and `Upstream.LoadModel`.

## Findings

| source | as written | input that shows it | evidently intended | confidence | as-written member | corrected member |
|---|---|---|---|---|---|---|
| plain/main.js:160-169 | the mock reply fills the template's `%s` with `String.prototype.replace` and a string replacement, so `$&`, `$$`, `` $` `` and `$'` in the user's text act as substitution patterns | the message `$&`: the reply is the bare template with `%s` still in it, and the message is not quoted | the message quoted verbatim in the slot, as the React client's templates do | high; not executed | `Plain.DollarPatternLosesMessage` | `Plain.MockReply` |

The plain client's model uses the corrected `Plain.MockReply`. `Plain.AsWrittenAgreesWithoutDollar` shows that the
two agree on every message without `$`.
