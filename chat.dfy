/** The conversation view's state machine. Every handler and every network
    completion is one atomic event. It is stated first as a transition
    function on a snapshot of the state (`AppState`), with the lemmas, and
    then as the class `App`, whose methods are proved to perform exactly
    those transitions. */
module Chat {
  import opened Js
  import opened Api
  import opened History

  /** The state App keeps: the React state (`messages`, `input`, `sessionId`,
      `isLoading`), whether `abortControllerRef.current` holds a controller,
      the "session_id" entry of localStorage, and the `sessionId` that the
      history effect last ran for (`None` before the first commit). */
  datatype AppState = AppState(
    messages: seq<Message>,
    input: string,
    sessionId: string,
    isLoading: bool,
    hasController: bool,
    stored: Option<string>,
    effectDeps: Option<string>)

  /** The session id as App reads it back from storage: `getItem(...) || ""`. */
  function Restored(stored: Option<string>): string {
    OrElse(stored, "")
  }

  /** What every event keeps: the loading flag is up exactly while a
      controller is held, and a reload would restore the active session. */
  predicate Inv(s: AppState) {
    s.isLoading == s.hasController && Restored(s.stored) == s.sessionId
  }

  /** The first render, with `stored` read from localStorage. */
  function Init(stored: Option<string>): (s: AppState)
    ensures Inv(s)
    ensures s.messages == [] && s.input == "" && !s.isLoading && s.effectDeps == None
    ensures s.stored == stored
    ensures s.sessionId != "" <==> Truthy(stored)
    ensures Truthy(stored) ==> s.sessionId == stored.value
  {
    AppState([], "", Restored(stored), false, false, stored, None)
  }

  /** The input field's `onChange`. */
  function Typed(s: AppState, text: string): AppState {
    s.(input := text)
  }

  /** The guard of `handleSend`: `input.trim()` is non-empty and no send is loading. */
  predicate Accepts(s: AppState) {
    Trim(s.input) != "" && !s.isLoading
  }

  /** A send is refused exactly for an all-white-space input or while loading. */
  lemma AcceptsIff(s: AppState)
    ensures Accepts(s) <==> !Blank(s.input) && !s.isLoading
  {
    TrimEmptyIffBlank(s.input);
  }

  /** What the `handleSend` closure keeps across its await: the question and
      the `sessionId` of the render it was called from. */
  datatype PendingSend = PendingSend(question: string, sessionAtSubmit: string)

  /** `sessionId || undefined`, the id handed to `sendMessage`. */
  function SubmittedId(p: PendingSend): (id: Option<string>)
    ensures id.None? <==> p.sessionAtSubmit == ""
    ensures id.Some? ==> id.value == p.sessionAtSubmit
  {
    if p.sessionAtSubmit == "" then None else Some(p.sessionAtSubmit)
  }

  /** The request issued for a pending send. */
  function SendRequest(p: PendingSend): (r: Request)
    ensures r.verb == Post && r.path == ConversationPath
    ensures r.body == Question(p.question, SubmittedId(p))
  {
    ConversationRequest(p.question, SubmittedId(p))
  }

  function UserMessage(content: string, now: Timestamp): Message {
    Message(User, content, None, Some(now))
  }

  function AssistantMessage(reply: ConversationReply, now: Timestamp): Message {
    Message(Assistant, reply.answer, reply.context, Some(now))
  }

  function ErrorMessage(message: string): Message {
    Message(Assistant, "Error: " + message, None, None)
  }

  /** The synchronous part of `handleSend`, up to the await. */
  function Submit(s: AppState, now: Timestamp): (r: AppState)
    ensures !Accepts(s) ==> r == s
    ensures Accepts(s) ==>
      && r.messages == s.messages + [UserMessage(s.input, now)]
      && r.input == "" && r.isLoading && r.hasController
      && r.sessionId == s.sessionId && r.stored == s.stored && r.effectDeps == s.effectDeps
    ensures Inv(s) ==> Inv(r)
  {
    if !Accepts(s) then s
    else s.(messages := s.messages + [UserMessage(s.input, now)], input := "",
             isLoading := true, hasController := true)
  }

  /** The closure a fresh send captures. */
  function PendingOf(s: AppState): PendingSend {
    PendingSend(s.input, s.sessionId)
  }

  /** The three ways the await of `sendMessage` ends. */
  datatype SendOutcome = Answered(reply: ConversationReply) | Failed(message: string) | Aborted

  /** The `catch` of `handleSend`: an error named "AbortError" is silent,
      any other error is shown. */
  function Outcome(result: Result<ConversationReply, ApiError>): (o: SendOutcome)
    ensures o.Answered? <==> result.Ok?
    ensures o.Answered? ==> o.reply == result.value
    ensures o.Aborted? <==> result.Err? && result.error.name == "AbortError"
    ensures o.Failed? ==> o.message == result.error.message
  {
    match result
    case Ok(reply) => Answered(reply)
    case Err(e) => if e.name == "AbortError" then Aborted else Failed(e.message)
  }

  /** A successful reply starts a session only when none was active when the
      question was sent and the reply carries a truthy id. */
  predicate Adopts(p: PendingSend, o: SendOutcome) {
    o.Answered? && p.sessionAtSubmit == "" && Truthy(o.reply.sessionId)
  }

  /** The part of `handleSend` after the await, including its `finally`. */
  function Complete(s: AppState, p: PendingSend, result: Result<ConversationReply, ApiError>, now: Timestamp)
    : (r: AppState)
    ensures !r.isLoading && !r.hasController
    ensures r.input == s.input && r.effectDeps == s.effectDeps
    ensures |r.messages| == |s.messages| + (if Outcome(result).Aborted? then 0 else 1)
    ensures r.messages[..|s.messages|] == s.messages
    ensures result.Ok? ==> r.messages[|s.messages|] == AssistantMessage(result.value, now)
    ensures Outcome(result).Failed? ==>
      r.messages[|s.messages|] == ErrorMessage(result.error.message)
    ensures Adopts(p, Outcome(result)) ==>
      r.sessionId == result.value.sessionId.value && r.stored == result.value.sessionId
    ensures !Adopts(p, Outcome(result)) ==> r.sessionId == s.sessionId && r.stored == s.stored
    ensures Inv(s) ==> Inv(r)
  {
    var o := Outcome(result);
    var adopted := if Adopts(p, o) then s.(sessionId := o.reply.sessionId.value, stored := o.reply.sessionId)
                   else s;
    var shown := match o
      case Answered(reply) => adopted.messages + [AssistantMessage(reply, now)]
      case Failed(message) => adopted.messages + [ErrorMessage(message)]
      case Aborted => adopted.messages;
    adopted.(messages := shown, isLoading := false, hasController := false)
  }

  /** `handleStop`: drop the controller (after aborting it) and end loading. */
  function Stop(s: AppState): (r: AppState)
    ensures !r.isLoading && !r.hasController
    ensures r.messages == s.messages && r.input == s.input && r.sessionId == s.sessionId
    ensures r.stored == s.stored && r.effectDeps == s.effectDeps
    ensures Inv(s) ==> Inv(r)
  {
    s.(isLoading := false, hasController := false)
  }

  /** `handleSelectSession(id)`. */
  function Select(s: AppState, id: string): (r: AppState)
    ensures r.sessionId == id && r.stored == Some(id)
    ensures r.messages == s.messages && r.input == s.input && r.isLoading == s.isLoading
    ensures r.hasController == s.hasController && r.effectDeps == s.effectDeps
    ensures Inv(s) ==> Inv(r)
  {
    s.(sessionId := id, stored := Some(id))
  }

  /** `handleNewSession`. */
  function NewChat(s: AppState): (r: AppState)
    ensures r.stored == None && r.sessionId == "" && r.messages == []
    ensures r.input == s.input && r.isLoading == s.isLoading
    ensures r.hasController == s.hasController && r.effectDeps == s.effectDeps
    ensures Inv(s) ==> Inv(r)
  {
    s.(stored := None, sessionId := "", messages := [])
  }

  /** The state after a commit, and the id whose history it starts to load. */
  datatype Commit = Commit(state: AppState, load: Option<string>)

  /** The `[sessionId]` effect, run after a render: only when `sessionId`
      differs from the one it last ran for. */
  function CommitEffect(s: AppState): (c: Commit)
    ensures c.state.effectDeps == Some(s.sessionId)
    ensures s.effectDeps == Some(s.sessionId) ==> c.state == s && c.load == None
    ensures s.effectDeps != Some(s.sessionId) && s.sessionId == "" ==>
      c.state.messages == [] && c.load == None
    ensures s.effectDeps != Some(s.sessionId) && s.sessionId != "" ==>
      c.state.messages == s.messages && c.load == Some(s.sessionId)
    ensures c.state.(messages := s.messages, effectDeps := s.effectDeps) == s
    ensures Inv(s) ==> Inv(c.state)
  {
    if s.effectDeps == Some(s.sessionId) then Commit(s, None)
    else if s.sessionId != "" then Commit(s.(effectDeps := Some(s.sessionId)), Some(s.sessionId))
    else Commit(s.(effectDeps := Some(s.sessionId), messages := []), None)
  }

  /** A history load the effect starts always issues its GET. */
  lemma CommitIssuesHistoryRequest(s: AppState, response: Response<seq<HistoryTurn>>)
    requires CommitEffect(s).load.Some?
    ensures GetHistory(CommitEffect(s).load, response).request
            == Some(Request(Get, HistoryPath(s.sessionId), NoBody))
  {
  }

  /** `loadHistory(id)` once `getHistory` settles: success replaces the
      messages by the flattened history, failure leaves everything as it was. */
  function HistoryLoaded(s: AppState, id: string, response: Response<seq<HistoryTurn>>): (r: AppState)
    ensures r.(messages := s.messages) == s
    ensures id != "" && response.OkResponse? ==> r.messages == Flatten(response.body)
    ensures id != "" && !response.OkResponse? ==> r == s
    ensures id == "" ==> r.messages == []
    ensures Inv(s) ==> Inv(r)
  {
    var x := GetHistory(Some(id), response);
    match x.result
    case Ok(turns) => s.(messages := Flatten(turns))
    case Err(_) => s
  }

  /** `loadHistory` does not check that its id is still the active one: a
      late history of session `a` replaces the messages while `b` is shown. */
  lemma LateHistoryOverwrites(s: AppState, a: string, b: string,
                              ta: seq<HistoryTurn>, tb: seq<HistoryTurn>)
    requires a != ""
    ensures
      var r := HistoryLoaded(HistoryLoaded(Select(s, b), b, OkResponse(tb)), a, OkResponse(ta));
      r.sessionId == b && r.messages == Flatten(ta)
  {
  }

  /** `handleStop` does its work once: a second stop changes nothing. */
  lemma StopIdempotent(s: AppState)
    ensures Stop(Stop(s)) == Stop(s)
  {
  }

  /** The user's message stays in place whatever the outcome of its send. */
  lemma {:induction false} UserMessageSurvives(s: AppState, now: Timestamp,
    result: Result<ConversationReply, ApiError>, later: Timestamp)
    requires Accepts(s)
    ensures Complete(Submit(s, now), PendingOf(s), result, later).messages[|s.messages|]
            == UserMessage(s.input, now)
    ensures Complete(Submit(s, now), PendingOf(s), result, later).messages[..|s.messages|] == s.messages
  {
    var s1 := Submit(s, now);
    var r := Complete(s1, PendingOf(s), result, later);
    assert r.messages[..|s1.messages|] == s1.messages;
    assert r.messages[|s.messages|] == r.messages[..|s1.messages|][|s.messages|];
    assert r.messages[..|s.messages|] == r.messages[..|s1.messages|][..|s.messages|];
  }

  /** A session that was active when the question was sent is never replaced by the reply. */
  lemma ActiveSessionKept(s: AppState, now: Timestamp, result: Result<ConversationReply, ApiError>, later: Timestamp)
    requires s.sessionId != ""
    ensures Complete(Submit(s, now), PendingOf(s), result, later).sessionId == s.sessionId
    ensures Complete(Submit(s, now), PendingOf(s), result, later).stored == s.stored
  {
  }

  /** The question is asked against the session captured at submit time, not
      the one active when the reply arrives: a session the user selects while
      a first question is pending is replaced, and the reply's id persisted. */
  lemma SelectedDuringSendIsReplaced(s: AppState, t1: Timestamp, t2: Timestamp)
    requires s.sessionId == "" && Accepts(s)
    ensures
      var r := Complete(Select(Submit(s, t1), "s2"), PendingOf(s),
                        Ok(ConversationReply("a", None, Some("abc"))), t2);
      r.sessionId == "abc" && r.stored == Some("abc")
  {
  }

  /** Every error the transport throws on a non-ok status is shown in the
      chat, never taken for an abort: with the body's `detail` when truthy,
      else with "Request failed". */
  lemma SendFailuresAreShown(question: string, sessionId: Option<string>, detail: Option<string>)
    ensures Outcome(SendMessage(question, sessionId, ErrorResponse(detail)).result)
            == Failed(OrElse(detail, "Request failed"))
  {
    assert "Error" != "AbortError";
  }

  /** The discrete events of the view. */
  datatype Event =
    | InputChanged(text: string)
    | SendClicked(now: Timestamp)
    | Replied(pending: PendingSend, result: Result<ConversationReply, ApiError>, now: Timestamp)
    | StopClicked
    | SessionClicked(id: string)
    | NewChatClicked
    | Committed
    | HistoryArrived(id: string, response: Response<seq<HistoryTurn>>)

  function Step(s: AppState, e: Event): AppState {
    match e
    case InputChanged(text) => Typed(s, text)
    case SendClicked(now) => Submit(s, now)
    case Replied(p, result, now) => Complete(s, p, result, now)
    case StopClicked => Stop(s)
    case SessionClicked(id) => Select(s, id)
    case NewChatClicked => NewChat(s)
    case Committed => CommitEffect(s).state
    case HistoryArrived(id, response) => HistoryLoaded(s, id, response)
  }

  function Run(s: AppState, events: seq<Event>): AppState
    decreases |events|
  {
    if events == [] then s else Run(Step(s, events[0]), events[1..])
  }

  /** Every single event keeps the invariant. */
  lemma StepKeepsInv(s: AppState, e: Event)
    requires Inv(s)
    ensures Inv(Step(s, e))
  {
    match e {
      case InputChanged(text) =>
      case SendClicked(now) =>
      case Replied(p, result, now) =>
      case StopClicked =>
      case SessionClicked(id) =>
      case NewChatClicked =>
      case Committed =>
      case HistoryArrived(id, response) =>
    }
  }

  /** Every sequence of events, stale replies included, keeps the invariant. */
  lemma {:induction false} RunKeepsInv(s: AppState, events: seq<Event>)
    requires Inv(s)
    ensures Inv(Run(s, events))
    decreases |events|
  {
    if events != [] {
      StepKeepsInv(s, events[0]);
      RunKeepsInv(Step(s, events[0]), events[1..]);
    }
  }

  /** Stop does not cancel anything: a reply that arrives after Stop is still
      shown, and because the send guard looks only at `isLoading`, the
      `finally` of that stale reply also clears the flag and the controller of
      a newer send that is still waiting. */
  lemma StaleReplyAfterStop(s: AppState, q2: string, t1: Timestamp, t2: Timestamp,
    reply: ConversationReply, t3: Timestamp)
    requires Inv(s) && Accepts(s) && Trim(q2) != ""
    ensures
      var s1 := Submit(s, t1);
      var s2 := Submit(Typed(Stop(s1), q2), t2);
      var s3 := Complete(s2, PendingOf(s), Ok(reply), t3);
      && s2.isLoading
      && s3.messages == s.messages + [UserMessage(s.input, t1), UserMessage(q2, t2), AssistantMessage(reply, t3)]
      && !s3.isLoading && !s3.hasController
  {
  }

  /** The first question of a new conversation: the reply's id becomes the
      active, persisted session. */
  lemma FirstQuestionScenario()
    ensures
      var s0 := CommitEffect(Init(None)).state;
      var s1 := Typed(s0, "What is X?");
      var s2 := Submit(s1, "t0");
      var reply := ConversationReply("X is Y", None, Some("abc"));
      var x := SendMessage("What is X?", SubmittedId(PendingOf(s1)), OkResponse(reply));
      var s3 := Complete(s2, PendingOf(s1), x.result, "t1");
      && x.request == Some(Request(Post, "/qa/conversation", Question("What is X?", None)))
      && s3.messages == [Message(User, "What is X?", None, Some("t0")),
                         Message(Assistant, "X is Y", None, Some("t1"))]
      && s3.sessionId == "abc" && s3.stored == Some("abc") && !s3.isLoading
  {
    var q := "What is X?";
    assert !IsWhiteSpace(q[0]);
    TrimEmptyIffBlank(q);
    var s1 := Typed(CommitEffect(Init(None)).state, q);
    assert Accepts(s1);
  }

  /** A failed send with a `detail` shows that detail; an aborted one shows nothing. */
  lemma FailureScenarios(s: AppState, p: PendingSend, now: Timestamp)
    ensures Complete(s, p, SendMessage(p.question, SubmittedId(p), ErrorResponse(Some("overloaded"))).result, now).messages
            == s.messages + [Message(Assistant, "Error: overloaded", None, None)]
    ensures Complete(s, p, SendMessage(p.question, SubmittedId(p), ErrorResponse(None)).result, now).messages
            == s.messages + [Message(Assistant, "Error: Request failed", None, None)]
    ensures Complete(s, p, Err(ApiError("AbortError", "The user aborted a request.")), now).messages == s.messages
  {
    assert "Error" != "AbortError";
    assert "Error: " + "overloaded" == "Error: overloaded";
    assert "Error: " + "Request failed" == "Error: Request failed";
  }

  /** Selecting a session with one stored turn shows its two messages. */
  lemma HistoryScenario(s: AppState)
    requires s.effectDeps != Some("s1")
    ensures
      var c := CommitEffect(Select(s, "s1"));
      var turns := [HistoryTurn(Some("Hi"), Some("Hello"), None, "t1")];
      && c.load == Some("s1")
      && HistoryLoaded(c.state, "s1", OkResponse(turns)).messages
         == [Message(User, "Hi", None, Some("t1")), Message(Assistant, "Hello", None, Some("t1"))]
  {
    var turns := [HistoryTurn(Some("Hi"), Some("Hello"), None, "t1")];
    assert turns[1..] == [];
  }

  /** `AbortController`, of which the app uses only `abort()`. */
  class AbortController {
    var aborted: bool

    constructor()
      ensures !aborted
    {
      aborted := false;
    }

    method Abort()
      modifies this
      ensures aborted
    {
      aborted := true;
    }
  }

  /** The `App` component's state and handlers. */
  class App {
    var messages: seq<Message>
    var input: string
    var sessionId: string
    var isLoading: bool
    var controller: AbortController?
    var stored: Option<string>
    var effectDeps: Option<string>

    function State(): AppState
      reads this
    {
      AppState(messages, input, sessionId, isLoading, controller != null, stored, effectDeps)
    }

    predicate Valid()
      reads this
    {
      Inv(State())
    }

    /** The first render, reading the "session_id" entry of `storage`. */
    constructor(storage: Option<string>)
      ensures Valid() && State() == Init(storage) && controller == null
    {
      messages := [];
      input := "";
      sessionId := OrElse(storage, "");
      isLoading := false;
      controller := null;
      stored := storage;
      effectDeps := None;
    }

    method HandleInput(text: string)
      requires Valid()
      modifies this
      ensures Valid() && State() == Typed(old(State()), text) && controller == old(controller)
    {
      input := text;
    }

    /** Returns the closure of the accepted send (whose request is
        `SendRequest(sent.value)`), or `None` when the guard refuses it. */
    method HandleSend(now: Timestamp) returns (sent: Option<PendingSend>)
      requires Valid()
      modifies this
      ensures Valid() && State() == Submit(old(State()), now)
      ensures sent == if Accepts(old(State())) then Some(PendingOf(old(State()))) else None
      ensures sent.Some? ==> fresh(controller) && !controller.aborted
      ensures sent.None? ==> controller == old(controller)
    {
      if Trim(input) == "" || isLoading {
        return None;
      }
      var userMsg := UserMessage(input, now);
      messages := messages + [userMsg];
      sent := Some(PendingSend(userMsg.content, sessionId));
      input := "";
      isLoading := true;
      controller := new AbortController();
    }

    /** The continuation of the send `p` once `sendMessage` settles with `result`. */
    method CompleteSend(p: PendingSend, result: Result<ConversationReply, ApiError>, now: Timestamp)
      requires Valid()
      modifies this
      ensures Valid() && State() == Complete(old(State()), p, result, now) && controller == null
    {
      var o := Outcome(result);
      if o.Answered? && p.sessionAtSubmit == "" && Truthy(o.reply.sessionId) {
        sessionId := o.reply.sessionId.value;
        stored := o.reply.sessionId;
      }
      match o {
        case Answered(reply) =>
          messages := messages + [AssistantMessage(reply, now)];
        case Failed(message) =>
          messages := messages + [ErrorMessage(message)];
        case Aborted =>
      }
      isLoading := false;
      controller := null;
    }

    method HandleStop()
      requires Valid()
      modifies this, controller
      ensures Valid() && State() == Stop(old(State())) && controller == null
      ensures old(controller) != null ==> old(controller).aborted
    {
      if controller != null {
        controller.Abort();
        controller := null;
      }
      isLoading := false;
    }

    method HandleSelectSession(id: string)
      requires Valid()
      modifies this
      ensures Valid() && State() == Select(old(State()), id) && controller == old(controller)
    {
      sessionId := id;
      stored := Some(id);
    }

    method HandleNewSession()
      requires Valid()
      modifies this
      ensures Valid() && State() == NewChat(old(State())) && controller == old(controller)
    {
      stored := None;
      sessionId := "";
      messages := [];
    }

    /** Runs the `[sessionId]` effect after a render; returns the id whose history it starts loading. */
    method CommitSessionEffect() returns (load: Option<string>)
      requires Valid()
      modifies this
      ensures Valid() && controller == old(controller)
      ensures State() == CommitEffect(old(State())).state && load == CommitEffect(old(State())).load
    {
      load := None;
      if effectDeps != Some(sessionId) {
        effectDeps := Some(sessionId);
        if sessionId != "" {
          load := Some(sessionId);
        } else {
          messages := [];
        }
      }
    }

    /** The continuation of `loadHistory(id)` once `getHistory` settles. */
    method CompleteLoadHistory(id: string, response: Response<seq<HistoryTurn>>)
      requires Valid()
      modifies this
      ensures Valid() && State() == HistoryLoaded(old(State()), id, response) && controller == old(controller)
    {
      var x := GetHistory(Some(id), response);
      if x.result.Ok? {
        messages := Flatten(x.result.value);
      }
    }
  }
}
