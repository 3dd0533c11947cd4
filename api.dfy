/** The transport client: the four backend operations. Each takes the
    backend's response as an abstract input and gives back the request it
    issues (if any) together with the value it resolves to or the error it
    rejects with. */
module Api {
  import opened Js

  /** An opaque timestamp string chosen by the backend or by the browser clock. */
  type Timestamp = string

  /** One stored question/answer pair of a session's history. */
  datatype HistoryTurn = HistoryTurn(
    question: Option<string>,
    answer: Option<string>,
    context: Option<string>,
    timestamp: Timestamp)

  /** A session as listed by the backend. */
  datatype Session = Session(id: string, title: Option<string>, createdAt: Timestamp)

  /** The success body of an asked question. */
  datatype ConversationReply = ConversationReply(
    answer: string,
    context: Option<string>,
    sessionId: Option<string>)

  /** A thrown JavaScript error: its `name` and its `message`. */
  datatype ApiError = ApiError(name: string, message: string)

  /** What `fetch` gives back: an ok response with its parsed body, a non-ok
      response with the `detail` field of its parsed body, or a rejection. */
  datatype Response<T> =
    | OkResponse(body: T)
    | ErrorResponse(detail: Option<string>)
    | NetworkError(error: ApiError)

  datatype HttpMethod = Get | Post | Delete

  /** The JSON request body; `sessionId == None` is serialised as `null`. */
  datatype Body = NoBody | Question(question: string, sessionId: Option<string>)

  /** A request as issued by `fetch`: method, path below the base URL, body.
      It carries no abort signal: `sendMessage` takes only two parameters. */
  datatype Request = Request(verb: HttpMethod, path: string, body: Body)

  /** One call of an operation: the request it issued, if any, and how its promise settled. */
  datatype Exchange<T> = Exchange(request: Option<Request>, result: Result<T, ApiError>)

  const ConversationPath: string := "/qa/conversation"
  const SessionsPath: string := "/qa/sessions"
  const SessionPrefix: string := "/qa/session/"
  const HistorySuffix: string := "/history"

  /** The error every `throw new Error(message)` produces. */
  function Thrown(message: string): ApiError {
    ApiError("Error", message)
  }

  function HistoryPath(id: string): string {
    SessionPrefix + id + HistorySuffix
  }

  function SessionPath(id: string): string {
    SessionPrefix + id
  }

  /** The question request: the question unchanged, and `session_id: session_id || null`. */
  function ConversationRequest(question: string, sessionId: Option<string>): (r: Request)
    ensures r.verb == Post && r.path == ConversationPath && r.body.Question?
    ensures r.body.question == question
    ensures r.body.sessionId.None? <==> !Truthy(sessionId)
    ensures Truthy(sessionId) ==> r.body.sessionId == sessionId
  {
    Request(Post, ConversationPath, Question(question, OrNull(sessionId)))
  }

  /** Settles the promise of an operation that throws `message` on a non-ok status. */
  function Settle<T>(response: Response<T>, message: string): (r: Result<T, ApiError>)
    ensures r.Ok? <==> response.OkResponse?
    ensures response.OkResponse? ==> r.value == response.body
    ensures response.ErrorResponse? ==> r.error == Thrown(message)
    ensures response.NetworkError? ==> r.error == response.error
  {
    match response
    case OkResponse(body) => Ok(body)
    case ErrorResponse(_) => Err(Thrown(message))
    case NetworkError(e) => Err(e)
  }

  /** `sendMessage(question, session_id)`: a non-ok status throws the body's
      `detail`, or "Request failed" when that is falsy; an ok status resolves
      to the parsed body unchanged. */
  function SendMessage(question: string, sessionId: Option<string>, response: Response<ConversationReply>)
    : (x: Exchange<ConversationReply>)
    ensures x.request == Some(ConversationRequest(question, sessionId))
    ensures response.OkResponse? ==> x.result == Ok(response.body)
    ensures response.ErrorResponse? && Truthy(response.detail) ==>
      x.result == Err(Thrown(response.detail.value))
    ensures response.ErrorResponse? && !Truthy(response.detail) ==>
      x.result == Err(Thrown("Request failed"))
    ensures response.NetworkError? ==> x.result == Err(response.error)
  {
    var result := match response
      case OkResponse(body) => Ok(body)
      case ErrorResponse(detail) => Err(Thrown(OrElse(detail, "Request failed")))
      case NetworkError(e) => Err(e);
    Exchange(Some(ConversationRequest(question, sessionId)), result)
  }

  /** `getHistory(session_id)`: a falsy id resolves to `[]` and issues nothing;
      otherwise GET the history, throwing "Failed to fetch history" on a non-ok status. */
  function GetHistory(sessionId: Option<string>, response: Response<seq<HistoryTurn>>)
    : (x: Exchange<seq<HistoryTurn>>)
    ensures !Truthy(sessionId) ==> x == Exchange(None, Ok([]))
    ensures Truthy(sessionId) ==>
      && x.request == Some(Request(Get, HistoryPath(sessionId.value), NoBody))
      && x.result.Ok? == response.OkResponse?
      && (response.OkResponse? ==> x.result.value == response.body)
      && (response.ErrorResponse? ==> x.result.error == Thrown("Failed to fetch history"))
  {
    if !Truthy(sessionId) then Exchange(None, Ok([]))
    else Exchange(Some(Request(Get, HistoryPath(sessionId.value), NoBody)),
                  Settle(response, "Failed to fetch history"))
  }

  function SessionsRequest(): Request {
    Request(Get, SessionsPath, NoBody)
  }

  /** `getSessions()`: GET the list, throwing "Failed to load sessions" on a non-ok status. */
  function GetSessions(response: Response<seq<Session>>): (x: Exchange<seq<Session>>)
    ensures x.request == Some(Request(Get, "/qa/sessions", NoBody))
    ensures x.result.Ok? == response.OkResponse?
    ensures response.OkResponse? ==> x.result.value == response.body
    ensures response.ErrorResponse? ==> x.result.error == Thrown("Failed to load sessions")
  {
    Exchange(Some(SessionsRequest()), Settle(response, "Failed to load sessions"))
  }

  function DeleteRequest(id: string): Request {
    Request(Delete, SessionPath(id), NoBody)
  }

  /** `deleteSession(sessionId)`: DELETE the session (no guard on the id),
      resolving to nothing, throwing "Failed to delete session" on a non-ok status. */
  function DeleteSession(id: string, response: Response<()>): (x: Exchange<()>)
    ensures x.request == Some(Request(Delete, "/qa/session/" + id, NoBody))
    ensures x.result.Ok? == response.OkResponse?
    ensures response.ErrorResponse? ==> x.result.error == Thrown("Failed to delete session")
  {
    Exchange(Some(DeleteRequest(id)), Settle(response, "Failed to delete session"))
  }

  /** Distinct session ids address distinct history resources and distinct
      session resources, and neither kind of path is the conversation path or
      the session-list path. The two kinds can coincide with each other: the
      id is put into the path unencoded, so an id ending in "/history" names
      another session's history. */
  lemma {:induction false} PathsIdentifySession(a: string, b: string)
    ensures HistoryPath(a) == HistoryPath(b) ==> a == b
    ensures SessionPath(a) == SessionPath(b) ==> a == b
    ensures HistoryPath(a) != ConversationPath && SessionPath(a) != ConversationPath
    ensures HistoryPath(a) != SessionsPath && SessionPath(a) != SessionsPath
    ensures SessionPath(a + HistorySuffix) == HistoryPath(a)
  {
    var n := |SessionPrefix|;
    if HistoryPath(a) == HistoryPath(b) {
      assert |a| == |b|;
      assert HistoryPath(a)[n..n + |a|] == a;
      assert HistoryPath(b)[n..n + |b|] == b;
    }
    if SessionPath(a) == SessionPath(b) {
      assert SessionPath(a)[n..] == a;
      assert SessionPath(b)[n..] == b;
    }
    assert HistoryPath(a)[4] == 's' && ConversationPath[4] == 'c';
    assert SessionPath(a)[4] == 's';
    assert SessionPath(a)[11] == '/' && SessionsPath[11] == 's';
    assert |HistoryPath(a)| > |SessionsPath|;
    assert SessionPrefix + (a + HistorySuffix) == SessionPrefix + a + HistorySuffix;
  }
}
