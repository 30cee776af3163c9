# Chat store model

A Dafny model of the Pinia chat store of `chat-vue` (`src/stores/chat.js`).
The store holds a conversation history that starts with one assistant
greeting, an `isLoading` flag that guards against overlapping sends, the
selected model id (`qwen-plus` at start), and a fixed catalog of three model
ids. Its two actions are `setModel` and `sendMessage`. `sendMessage` drops
blank input and calls made while a send is in flight. Otherwise it appends
the user turn, sets the flag and posts the whole history, projected to
`{role, content}`, to the DashScope chat-completions endpoint. Every outcome
then becomes exactly one assistant turn: the first choice's content, or
`出错了: ` followed by the error's message. The flag is always released.

Files:

- `wrappers.dfy`: `Option`.
- `js_text.dfy` (module `JsText`): the JavaScript string behaviour the
  store relies on. This is `String.prototype.trim` over the ECMAScript
  whitespace and line-terminator set, and the decimal text of a non-negative
  integer in a template literal.
- `chat.dfy` (module `Chat`): the class `ChatStore` and the values around
  it. `Outcome` stands for what the network exchange produced. `Request` is
  the POST that the store builds. `Reply` is the assistant turn made from an
  outcome.

How `sendMessage` is modelled. The async function is split at its `await`.
`BeginSend` runs the guard, pushes the user turn, sets the flag and checks
the key. If the key is present it returns the request it would post, and the
flag stays set. `FinishSend(outcome)` is the continuation: it pushes one
assistant turn and clears the flag. When the key is missing, the throw
happens before anything is awaited. So `BeginSend` settles the whole send
itself: it pushes the error turn and clears the flag. `SendMessage` runs
both halves with nothing in between. The split makes the in-flight state
observable, and `ChatStore.Valid()` states what holds there. The history is
the greeting followed by alternating user and assistant turns, and
`isLoading` holds exactly when the last turn is a user turn.

Behaviour taken from the code:

- A failed send adds two messages, like a successful one. The user turn is
  pushed before the `try` (line 33) and the catch pushes the error turn
  (line 77).
- The key counts as missing when it is unset and also when it is the empty
  string (`!API_KEY`, line 44).
- A non-ok response whose body is not JSON reads as `{}` and gives
  `Unknown error` (line 64). An ok response whose body is not JSON goes to
  the catch with the parser's own message (line 69).
- The user turn keeps the content as typed. It is not trimmed.

## Model

| member | source | states |
|---|---|---|
| `Chat.ChatStore.constructor` | src/stores/chat.js:6-20 | history is exactly the greeting, `isLoading` false, `currentModel` is `qwen-plus`, catalog is qwen-turbo, qwen-plus, qwen-max in that order; the invariant holds |
| `Chat.ChatStore.SetModel` | src/stores/chat.js:23-25 | `currentModel` becomes the given id without a catalog check; history and flag unchanged; the invariant is preserved |
| `Chat.ChatStore.BeginSend` | src/stores/chat.js:28-61 | dropped exactly when the input is blank or a send is in flight, and then nothing changes; otherwise the user turn is appended as typed and the flag set; a request is issued exactly when the key is present (non-empty), carrying the bearer key, `currentModel`, `stream: false` and the projection of the whole history including the new turn; with the key missing the missing-key error turn follows and the flag is released |
| `Chat.ChatStore.FinishSend` | src/stores/chat.js:63-80 | exactly one assistant turn (`Reply` of the outcome) is appended after the earlier entries, and the flag is released whatever the outcome |
| `Chat.ChatStore.SendMessage` | src/stores/chat.js:28-81 | an uninterrupted send: a dropped call changes nothing and issues nothing; an accepted one ends with exactly two more turns (the user turn, then the reply or the missing-key error), earlier turns unchanged and in order, flag false; the request's model is the model selected before the call and its messages are the old history's projection plus `{user, content}` |
| `Chat.AlternatesPush` | src/stores/chat.js:33-77 | appending a turn whose role differs from the last keeps the history "greeting, then alternating user/assistant turns", which each push of the store does |
| `Chat.Project` | src/stores/chat.js:57 | the request messages have the history's length and, position by position, the same role (as its JSON string) and content |
| `Chat.ProjectAppend` | src/stores/chat.js:57 | projecting a history with turns appended is the old projection followed by the projection of the new turns |
| `Chat.ErrorTurn` | src/stores/chat.js:77 | the catch block's turn has role assistant and content `出错了: ` followed by exactly the error's message |
| `Chat.ErrorDetail` | src/stores/chat.js:64-66 | the detail of an HTTP error is never empty: it is the body's `message` when that is a non-empty string, and `Unknown error` otherwise (absent, empty or unparsable) |
| `Chat.ApiFailureNamesStatus` | src/stores/chat.js:66 | the HTTP error text `API Request Failed: <status> - <detail>` gives back exactly the status when the number after the prefix is read, and it ends with the detail |
| `Chat.Reply` | src/stores/chat.js:63-77 | the assistant turn for an outcome: a 2xx JSON answer with at least one choice gives the first choice's content; every other outcome (network failure, non-ok status, unparsable body, missing or empty `choices`) gives an error turn starting with `出错了: `; a non-ok status gives the HTTP error text |
| `Chat.OverloadedText` | src/stores/chat.js:66 | a 500 whose body carries `message: "overloaded"` gives exactly `API Request Failed: 500 - overloaded` |
| `JsText.TrimsToEmpty` | src/stores/chat.js:29 | `!content.trim()` holds exactly when every character of the input is whitespace |
| `JsText.TrimEmptyIffBlank` | src/stores/chat.js:29 | trimming leaves nothing if and only if the string is blank |
| `JsText.TrimStartCuts` | src/stores/chat.js:29 | removing leading whitespace leaves a suffix after a blank prefix, starting on a non-whitespace character or empty |
| `JsText.TrimEndCuts` | src/stores/chat.js:29 | removing trailing whitespace leaves a prefix before a blank suffix, ending on a non-whitespace character or empty |
| `JsText.TrimSlice` | src/stores/chat.js:29 | `trim` returns the contiguous slice between a blank prefix and a blank suffix, and that slice starts and ends on non-whitespace |
| `JsText.Decimal` | src/stores/chat.js:66 | the interpolated status is a non-empty string of decimal digits without a leading zero |
| `JsText.DecimalRoundTrip` | src/stores/chat.js:66 | reading the decimal text back gives the number |
| `JsText.DecimalInjective` | src/stores/chat.js:66 | different statuses have different texts |
| `JsText.LeadingDigits` | src/stores/chat.js:66 | the longest all-digit prefix of a string, followed by a non-digit or the end |
| `JsText.LeadingDigitsOf` | src/stores/chat.js:66 | digits followed by a non-digit are read back as exactly those digits |

## Left out

- `fetch`, the `Content-Type` header, JSON serialisation and parsing (src/stores/chat.js:49-69): network I/O and foreign code. The exchange is an `Outcome` parameter. A response body is modelled by the parser's error message or by the `message` field and each choice's `message.content` string.
- `temperature: 0.7` in the request body: floating point, not carried in `Request`.
- `import.meta.env.VITE_DASHSCOPE_API_KEY` (src/stores/chat.js:40): environment access. The key is an `Option<string>` argument.
- `console.error` (src/stores/chat.js:65, 76): logging only.
- Pinia `defineStore` and Vue `ref` reactivity: the refs are plain fields. The model covers changes made through the two actions only, not direct writes by the UI to the exposed refs.
- Async scheduling: the model covers it only through the `BeginSend`/`FinishSend` split. Between the two halves, other actions can be called on the store (`SetModel`, a dropped `BeginSend`). Nothing runs concurrently.
- `Chat.Reply`: for a missing `choices` field or an empty `choices` list, the turn carries V8's TypeError wording. Other engines word this differently. A first choice without `message.content`, or one that is not a string, is not modelled.
- `Chat.ErrorDetail`: a `message` field that is a truthy non-string (a number, an object) is not modelled. JavaScript would interpolate it as text.
- A non-string argument to `sendMessage` (where `trim` would throw before the guard) is not modelled: content is a string.
- The HTTP status is a natural number. The Fetch standard also restricts it to a range, which is not modelled.
- vite.config.js: build configuration with no logic.
