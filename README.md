# IKMS chat client: conversation and session logic

This project models the logic of a browser chat client for a question-answering
backend. The client sends questions, shows the answers, keeps the active session
id in local storage, and lets the user browse and delete earlier sessions.
Three parts are modelled:

- `Api` (`api.js`): the four transport operations. Each is a function of its
  arguments and an abstract `Response` (an ok body, a non-ok body's `detail`, or
  a rejected `fetch`). It returns an `Exchange`: the request it issues (`None`
  when `getHistory` short-circuits on a falsy id) and how its promise settles.
- `History` and `Chat` (`App.jsx`):
  - `History.Flatten` is the `flatMap` that rebuilds chat messages from
    backend turns.
  - `Chat` is the view's state machine. Each handler and each network
    completion is one atomic event. The events are first written as pure
    transitions on an `AppState` snapshot, where the lemmas are proved.
  - Then comes the class `Chat.App`. Its fields are the React state, the
    abort-controller ref and the stored session id. Each method is proved to
    perform exactly its transition.
  - `handleSend` is async, so it is split in two. `HandleSend` is the part up
    to the await. It returns the closure's captured question and session id.
    `CompleteSend` is the part after the await, fed with the settled result
    of `sendMessage`.
- `Sessions` (`components/Sidebar.jsx`): the cached session list and its
  refresh effect, the delete flow, the title fallback and the active-item
  test. The class `Sessions.Sidebar` holds the cache. `handleDelete` is async
  and split like `handleSend`. `HandleDelete` is the part up to the await: it
  returns the effects so far and a `PendingDelete` that keeps the deleted id
  and the `currentSessionId` the closure saw. `CompleteDelete` is the part
  after the await. It decides on new chat from that captured id and calls
  `App.HandleNewSession` on the app it is given.

React effects run after a render, and only when their dependency changed. The
model says so with explicit "commit" methods that remember the dependency they
last ran for: `App.CommitSessionEffect` and `Sidebar.Commit`.

`js.dfy` holds the JavaScript semantics the logic depends on:
- truthiness of a nullable string;
- `a || b` (`OrElse`) and `a || null` (`OrNull`);
- `String.prototype.trim`, using ECMAScript's WhiteSpace and LineTerminator
  characters.

Inputs from outside the model:
- The browser clock (`new Date().toISOString()`) is a `Timestamp` parameter.
- `window.confirm` is a boolean parameter.
- `localStorage` is the field `stored`.
- Every network response is a parameter.

In several places the code does not behave as the client is meant to. The
model follows the code:

- Cancellation: Stop is meant to cancel the request in flight. But `sendMessage`
  takes two parameters, so the abort signal is dropped. `Request` has no
  signal, and a reply that arrives after Stop is still shown
  (`Chat.StaleReplyAfterStop`).
- One request at a time: at most one question is meant to be in flight. But the send guard checks only `isLoading`, and Stop clears that flag. So
  after Stop a second send is accepted. The first send's `finally` then clears
  the loading flag and the controller of the second.
- Delete order: deleting the active session is meant to start a new chat
  first. The code deletes first and starts the new chat only after the delete
  succeeds.
- Empty turns: a turn missing either field is meant to expand to one message.
  The code expands a turn with neither a truthy question nor a truthy
  answer to no message at all.
- Adopting the reply's session id: the test before the adoption reads the
  `sessionId` the closure captured at submit time, not the current one. So when
  the first question of a new chat is pending and the user selects another
  session, the reply's id still replaces the selected one and is persisted
  (`Chat.SelectedDuringSendIsReplaced`).
- Deleting the active session: the test before new chat reads the
  `currentSessionId` of the click's render. So when the user selects another
  session while the delete is pending, the success still starts a new chat and
  clears that selection (`Sessions.DeleteClearsLaterSelection`).
- Late history: the messages shown are meant to be the active session's.
  But `loadHistory` does not check that its id is still the active one when
  `getHistory` settles. So a late history of session A replaces the messages
  while session B is shown (`Chat.LateHistoryOverwrites`).

## Model

| member | source | states |
|---|---|---|
| `Js.OrNull` | src/api.js:11 | the body's `session_id` is null exactly when the id is falsy, otherwise the id itself |
| `Js.Trim` | src/App.jsx:50 | `input.trim()`: never longer than the input, and neither starts nor ends with a JavaScript white-space character; see `Js.TrimEmptyIffBlank` for when it is empty |
| `Js.TrimEmptyIffBlank` | src/App.jsx:50 | `input.trim()` is empty exactly when every character of the input is JavaScript white space |
| `Api.ConversationRequest` | src/api.js:6-12 | POST to `/qa/conversation`; body carries the question unchanged; `session_id` is null iff the id is falsy, else the id |
| `Api.Settle` | src/api.js:30-31 | resolves iff the response is ok, to the parsed body unchanged; a non-ok status throws the operation's fixed message; a fetch rejection passes through |
| `Api.SendMessage` | src/api.js:4-24 | issues the question request; ok resolves to the body unchanged; non-ok throws `detail` when truthy, else "Request failed"; fetch errors propagate |
| `Api.GetHistory` | src/api.js:26-36 | a falsy id issues no request and resolves to `[]`; otherwise GET `/qa/session/{id}/history`, ok gives the body, non-ok throws "Failed to fetch history" |
| `Api.GetSessions` | src/api.js:38-44 | GET `/qa/sessions`; ok gives the body unchanged, non-ok throws "Failed to load sessions" |
| `Api.DeleteSession` | src/api.js:46-53 | DELETE `/qa/session/{id}` with no guard on the id; resolves to nothing when ok, non-ok throws "Failed to delete session" |
| `Api.PathsIdentifySession` | src/api.js:26-53 | the history path and the session path are each injective in the id; neither is ever the conversation path or the session-list path; the session path of an id ending in "/history" is the history path of its prefix |
| `History.TurnMessages` | src/App.jsx:29-41 | one message per truthy field, user first; user message: question, no context; assistant message: answer and the turn's context; both carry the turn's timestamp |
| `History.Flatten` | src/App.jsx:28-42 | `history.flatMap(...)`; no contract of its own: characterised by `History.FlattenCounts`, `History.FlattenPlacesTurn`, `History.FlattenOrigin`, `History.FlattenAppend` and `History.FlattenSkipsEmptyTurn` |
| `History.FlattenAppend` | src/App.jsx:28-42 | flattening the concatenation of two histories concatenates their flattenings |
| `History.FlattenPlacesTurn` | src/App.jsx:28-42 | turn order is kept: turn i's messages sit, in order, after every earlier turn's and before every later turn's |
| `History.FlattenCounts` | src/App.jsx:30-39 | user messages = turns with a truthy question, assistant messages = turns with a truthy answer, length = their sum |
| `History.FlattenOrigin` | src/App.jsx:28-42 | a message is in the flattened history iff it is a message of one of the turns |
| `History.FlattenSkipsEmptyTurn` | src/App.jsx:29-41 | a turn with neither a truthy question nor a truthy answer contributes nothing |
| `Chat.Restored` | src/App.jsx:10 | `localStorage.getItem("session_id") or ""`; no contract of its own: `Chat.Init` states the id it restores, and `Chat.StepKeepsInv` that every event keeps it equal to the active id |
| `Chat.Init` | src/App.jsx:8-13 | empty messages and input, not loading, no controller; `sessionId` is the stored id when truthy, else ""; invariant holds |
| `Chat.Typed` | src/App.jsx:197 | `setInput(e.target.value)`; no contract of its own: `Chat.App.HandleInput` is proved to perform it, and `Chat.StepKeepsInv` that it keeps the invariant |
| `Chat.Accepts` | src/App.jsx:50 | the send guard; no contract of its own: characterised by `Chat.AcceptsIff` |
| `Chat.AcceptsIff` | src/App.jsx:50 | a send is accepted iff the input is not all white space and no send is loading |
| `Chat.SubmittedId` | src/App.jsx:59 | the id handed to `sendMessage` is undefined iff no session was active at submit time, else that id |
| `Chat.SendRequest` | src/App.jsx:59-60 | the send posts the untrimmed input and the submit-time session id; no abort signal is sent |
| `Chat.UserMessage` | src/App.jsx:52 | the user message; no contract of its own: `Chat.Submit` states where it is appended and `Chat.UserMessageSurvives` that it stays |
| `Chat.PendingOf` | src/App.jsx:49-60 | what the send closure captures: the input and the `sessionId` at submit time; no contract of its own: `Chat.App.HandleSend` returns it and `Chat.SendRequest` states the request built from it |
| `Chat.Submit` | src/App.jsx:50-56 | a refused send changes nothing; an accepted one appends exactly one user message with the untrimmed input, clears the input, sets loading and a controller, keeps the session |
| `Chat.Outcome` | src/App.jsx:74-81 | success gives the reply; an error is silent iff it is named "AbortError", else it is shown with its message |
| `Chat.AssistantMessage` | src/App.jsx:67-72 | the reply's message; no contract of its own: `Chat.Complete` states when it is appended |
| `Chat.ErrorMessage` | src/App.jsx:80 | the "Error: " + message bubble; no contract of its own: `Chat.Complete` and `Chat.FailureScenarios` state when it is appended and what it reads |
| `Chat.Adopts` | src/App.jsx:62 | the adoption test, read on the captured id; no contract of its own: `Chat.Complete`, `Chat.ActiveSessionKept` and `Chat.SelectedDuringSendIsReplaced` state its consequences |
| `Chat.Complete` | src/App.jsx:62-85 | keeps the old messages as a prefix; appends one assistant message with `answer`/`context` on success, one "Error: " + message on a shown error, none on abort; adopts and persists the reply's id iff no session was active at submit and the id is truthy; always ends with not loading and no controller |
| `Chat.Stop` | src/App.jsx:99-105 | ends loading and drops the controller; nothing else changes |
| `Chat.StopIdempotent` | src/App.jsx:99-105 | stopping twice is the same as stopping once |
| `Chat.Select` | src/App.jsx:88-91 | sets the active id and persists it; nothing else changes |
| `Chat.NewChat` | src/App.jsx:93-97 | clears the stored id, the active id and the messages; nothing else changes |
| `Chat.CommitEffect` | src/App.jsx:15-21 | the effect runs only when `sessionId` changed; an empty id clears messages; a non-empty one starts loading its history and leaves messages alone |
| `Chat.CommitIssuesHistoryRequest` | src/App.jsx:15-25 | a load started by the effect issues GET `/qa/session/{id}/history` |
| `Chat.HistoryLoaded` | src/App.jsx:23-47 | only messages can change; success replaces them with the flattened history; failure leaves the state unchanged |
| `Chat.LateHistoryOverwrites` | src/App.jsx:23-43 | a history of session A that settles after B was selected and loaded replaces the messages while B stays active |
| `Chat.UserMessageSurvives` | src/App.jsx:52-81 | after an accepted send settles in any way, the user's message is still in place after the earlier messages |
| `Chat.ActiveSessionKept` | src/App.jsx:62-65 | a session active at submit time is never replaced or re-persisted by the reply |
| `Chat.SelectedDuringSendIsReplaced` | src/App.jsx:62-65 | a first question sent with no session, then the user selects "s2", then the reply carries "abc": the active and stored id become "abc" |
| `Chat.SendFailuresAreShown` | src/App.jsx:74-80 | every non-ok response to a question is shown: the error `sendMessage` throws is never taken for an abort, and its message is `detail` when truthy, else "Request failed" |
| `Chat.StepKeepsInv` | src/App.jsx:49-105 | every event keeps "loading iff a controller is held" and "the stored id restores the active id" |
| `Chat.RunKeepsInv` | src/App.jsx:49-105 | every sequence of events, stale replies included, keeps that invariant |
| `Chat.StaleReplyAfterStop` | src/App.jsx:50-105 | after Stop a second send is accepted; the first reply is still appended, and its `finally` ends loading while the second send waits |
| `Chat.FirstQuestionScenario` | src/App.jsx:49-86 | first question with no session: two messages, and the reply's "abc" becomes the active, persisted id |
| `Chat.FailureScenarios` | src/App.jsx:74-81 | a 500 with detail "overloaded" appends "Error: overloaded"; no detail gives "Error: Request failed"; an abort appends nothing |
| `Chat.HistoryScenario` | src/App.jsx:15-43 | selecting "s1" with one stored turn shows the user and assistant messages, both stamped "t1" |
| `Chat.AbortController.constructor` | src/App.jsx:56 | a new controller is not aborted |
| `Chat.AbortController.Abort` | src/App.jsx:101 | aborting sets the aborted flag |
| `Chat.App.constructor` | src/App.jsx:8-13 | the initial state is `Init` of the stored id |
| `Chat.App.HandleInput` | src/App.jsx:197 | the input becomes the typed text |
| `Chat.App.HandleSend` | src/App.jsx:49-60 | performs `Submit`; returns the captured closure iff the guard accepts; allocates a fresh, unaborted controller |
| `Chat.App.CompleteSend` | src/App.jsx:62-85 | performs `Complete` for the settled result; the controller ref ends null |
| `Chat.App.HandleStop` | src/App.jsx:99-105 | performs `Stop`; a held controller is aborted before the ref is nulled |
| `Chat.App.HandleSelectSession` | src/App.jsx:88-91 | performs `Select` |
| `Chat.App.HandleNewSession` | src/App.jsx:93-97 | performs `NewChat` |
| `Chat.App.CommitSessionEffect` | src/App.jsx:15-21 | performs `CommitEffect` and returns the id whose history load it started |
| `Chat.App.CompleteLoadHistory` | src/App.jsx:23-47 | performs `HistoryLoaded` |
| `Sessions.DisplayTitle` | src/components/Sidebar.jsx:65 | the title when truthy, else "Untitled Chat"; never empty |
| `Sessions.IsActive` | src/components/Sidebar.jsx:59 | `currentSessionId === session.id`; no contract of its own: characterised by `Sessions.ActiveIsUnique` |
| `Sessions.ActiveIsUnique` | src/components/Sidebar.jsx:59 | with distinct ids, exactly one item is active when the current id is listed, none otherwise |
| `Sessions.Refreshed` | src/components/Sidebar.jsx:11-18 | a successful fetch replaces the cache wholesale; a failed one leaves it unchanged |
| `Sessions.ClickEffects` | src/components/Sidebar.jsx:22-24 | the effects up to the await; no contract of its own: `Sessions.Sidebar.HandleDelete` performs them and `Sessions.DeleteEffects` states them per case |
| `Sessions.CompletionEffects` | src/components/Sidebar.jsx:24-29 | the effects after the await; no contract of its own: `Sessions.Sidebar.CompleteDelete` performs them and `Sessions.DeleteEffectsIff` states each as an if-and-only-if |
| `Sessions.AfterDelete` | src/components/Sidebar.jsx:26-28 | the app after the continuation; no contract of its own: `Sessions.Sidebar.CompleteDelete` is proved to produce it and `Sessions.DeleteClearsLaterSelection` shows its use of the captured id |
| `Sessions.DeleteEffects` | src/components/Sidebar.jsx:20-34 | declined: confirm only; failed: confirm, delete; the current session deleted: confirm, delete, new chat, refresh; another session deleted: confirm, delete, refresh |
| `Sessions.DeleteEffectsIff` | src/components/Sidebar.jsx:22-29 | a delete is sent iff confirmed; new chat happens iff the current session was deleted, and then once, after the delete and before the refresh; a refresh happens iff the delete succeeded |
| `Sessions.Sidebar.constructor` | src/components/Sidebar.jsx:5 | the cache starts empty and the refresh effect has not run |
| `Sessions.Sidebar.Commit` | src/components/Sidebar.jsx:7-9 | a refresh (GET `/qa/sessions`) starts on mount and on every change of `currentSessionId`, and only then |
| `Sessions.Sidebar.CompleteFetch` | src/components/Sidebar.jsx:11-18 | the cache becomes `Refreshed` of the old cache and the response |
| `Sessions.DeleteClearsLaterSelection` | src/components/Sidebar.jsx:24-27 | the active session is deleted, the user selects another one while the delete is pending, and the delete succeeds: the app ends with no active id, no stored id and no messages |
| `Sessions.Sidebar.HandleDelete` | src/components/Sidebar.jsx:20-24 | asks for confirmation; sends the DELETE iff confirmed; when confirmed, captures the id and the `currentSessionId` of the click for the continuation |
| `Sessions.Sidebar.CompleteDelete` | src/components/Sidebar.jsx:24-29 | a failed delete does nothing; a successful one starts a new chat iff the id equals the captured current id, then refreshes; the app gets `NewChat` exactly then and is otherwise unchanged |

## Left out

- Rendering is left out: JSX, inline styles, the empty-list placeholders, the
  scroll effect (`App.jsx:107-111`) and `ThinkingAnimation.jsx`. They are
  presentation only.
- The date display (`toLocaleDateString` of `created_at`) is left out: it is
  presentation. `created_at` is an opaque string.
- Real `fetch`, JSON parsing and the base-URL choice from the environment are
  left out; they are I/O. A response is an abstract datatype, and a non-ok
  response always has a parsed body with an optional `detail`. A body that is
  not JSON, which would make `response.json()` throw, is not modelled.
- Console logging and the try/catch that rethrows the same error in
  `sendMessage` and `getHistory` are left out: neither changes the result.
- React's scheduling is left out. Each handler and each network completion is
  one atomic event. Nothing is claimed about the order of a late
  `sendMessage` reply and the history reload that adopting its session id
  triggers.
- The real AbortController mechanism is left out. The controller is modelled
  only by its aborted flag. Because the signal never reaches `fetch`, nothing
  claims that Stop suppresses a reply or that at most one request is in flight
  after Stop.
- `e.stopPropagation()` is left out: it is DOM event handling.
- The click that calls `onSelectSession(session.id)` is left out: it is
  wiring, and it is `App.HandleSelectSession`.
- A backend value of the wrong JSON type is left out. A reply's `answer` is
  always a string, and its `context` and `session_id` are strings, `null` or
  absent. A history turn's `question`, `answer` and `context` and a session's
  `title` are strings, `null` or absent. `detail` is a string or absent: a non-string
  `detail` would be thrown as `String(detail)`, and an empty list, being
  truthy, would show "Error: ". A history turn's `timestamp` is always present,
  so `History.TurnMessages` always stamps its messages; a turn without one
  would give messages with no timestamp.
