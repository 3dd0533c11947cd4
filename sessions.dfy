/** The sidebar: the cached session list, its refresh effect, the delete
    flow and the two display rules. */
module Sessions {
  import opened Js
  import opened Api
  import Chat

  const ConfirmPrompt: string := "Are you sure you want to delete this chat?"
  const UntitledTitle: string := "Untitled Chat"

  /** `session.title || "Untitled Chat"`. */
  function DisplayTitle(s: Session): (r: string)
    ensures r != ""
    ensures Truthy(s.title) ==> r == s.title.value
    ensures !Truthy(s.title) ==> r == UntitledTitle
  {
    OrElse(s.title, UntitledTitle)
  }

  /** The `active` class of a list item: `currentSessionId === session.id`. */
  predicate IsActive(s: Session, current: string) {
    current == s.id
  }

  /** How many listed sessions are marked active. */
  function ActiveCount(sessions: seq<Session>, current: string): nat {
    if sessions == [] then 0
    else (if IsActive(sessions[0], current) then 1 else 0) + ActiveCount(sessions[1..], current)
  }

  predicate DistinctIds(sessions: seq<Session>) {
    forall i, j :: 0 <= i < j < |sessions| ==> sessions[i].id != sessions[j].id
  }

  /** With distinct ids, exactly one item is marked active when the current
      session is listed, and none otherwise. */
  lemma {:induction false} ActiveIsUnique(sessions: seq<Session>, current: string)
    requires DistinctIds(sessions)
    ensures ActiveCount(sessions, current) == if exists i :: 0 <= i < |sessions| && sessions[i].id == current then 1 else 0
  {
    if sessions != [] {
      var rest := sessions[1..];
      assert DistinctIds(rest) by {
        forall i, j | 0 <= i < j < |rest| ensures rest[i].id != rest[j].id {
          assert rest[i] == sessions[i + 1] && rest[j] == sessions[j + 1];
        }
      }
      ActiveIsUnique(rest, current);
      if sessions[0].id == current {
        forall i | 0 <= i < |rest| ensures rest[i].id != current {
          assert rest[i] == sessions[i + 1];
        }
      } else {
        if exists i :: 0 <= i < |sessions| && sessions[i].id == current {
          var i :| 0 <= i < |sessions| && sessions[i].id == current;
          assert rest[i - 1] == sessions[i];
        }
        if exists i :: 0 <= i < |rest| && rest[i].id == current {
          var i :| 0 <= i < |rest| && rest[i].id == current;
          assert sessions[i + 1] == rest[i];
        }
      }
    }
  }

  /** `fetchSessions` once `getSessions` settles: success replaces the cache
      wholesale, failure leaves it as it was. */
  function Refreshed(cached: seq<Session>, response: Response<seq<Session>>): (r: seq<Session>)
    ensures response.OkResponse? ==> r == response.body
    ensures !response.OkResponse? ==> r == cached
  {
    match GetSessions(response).result
    case Ok(list) => list
    case Err(_) => cached
  }

  /** The outward effects of `handleDelete`, in the order they happen. */
  datatype Effect =
    | AskConfirm(prompt: string)
    | SendDelete(request: Request)
    | StartNewChat
    | Refresh(request: Request)

  /** What the `handleDelete` closure keeps across its await: the id being
      deleted and the `currentSessionId` of the render it was called from. */
  datatype PendingDelete = PendingDelete(id: string, currentAtClick: string)

  /** The effects of the click, up to the await: the confirmation, then the
      DELETE if the user confirmed. */
  function ClickEffects(id: string, confirmed: bool): seq<Effect> {
    [AskConfirm(ConfirmPrompt)] + (if confirmed then [SendDelete(DeleteRequest(id))] else [])
  }

  /** The effects after the await: nothing when the delete failed; otherwise
      new chat if the id equals the one captured at the click, then a refresh. */
  function CompletionEffects(p: PendingDelete, deleted: bool): seq<Effect> {
    if !deleted then []
    else (if p.id == p.currentAtClick then [StartNewChat] else []) + [Refresh(SessionsRequest())]
  }

  /** The whole flow of deleting `id` while `current` is shown, given the
      answer to the confirmation and whether the delete succeeded. */
  function DeleteEffects(id: string, current: string, confirmed: bool, deleted: bool): (r: seq<Effect>)
    ensures !confirmed ==> r == [AskConfirm(ConfirmPrompt)]
    ensures confirmed && !deleted ==> r == [AskConfirm(ConfirmPrompt), SendDelete(DeleteRequest(id))]
    ensures confirmed && deleted && id == current ==>
      r == [AskConfirm(ConfirmPrompt), SendDelete(DeleteRequest(id)), StartNewChat, Refresh(SessionsRequest())]
    ensures confirmed && deleted && id != current ==>
      r == [AskConfirm(ConfirmPrompt), SendDelete(DeleteRequest(id)), Refresh(SessionsRequest())]
  {
    ClickEffects(id, confirmed)
    + (if confirmed then CompletionEffects(PendingDelete(id, current), deleted) else [])
  }

  /** The app's state after the delete's continuation: `onNewChat` acts on the
      app as it is when the DELETE settles, whatever it showed at the click. */
  function AfterDelete(s: Chat.AppState, p: PendingDelete, deleted: bool): Chat.AppState {
    if StartNewChat in CompletionEffects(p, deleted) then Chat.NewChat(s) else s
  }

  /** Deleting the session shown at the click clears the session the user
      selected in the meantime: the comparison uses the captured id. */
  lemma DeleteClearsLaterSelection(s: Chat.AppState, a: string, b: string)
    ensures
      var r := AfterDelete(Chat.Select(s, b), PendingDelete(a, a), true);
      r.sessionId == "" && r.stored == None && r.messages == []
  {
    assert StartNewChat in CompletionEffects(PendingDelete(a, a), true);
  }

  /** The delete flow, as an if-and-only-if per effect: a delete request is
      sent iff confirmed; new chat starts iff the current session was the one
      deleted; the list is refreshed iff the delete succeeded; and new chat,
      when it happens, comes after the delete and before the refresh. */
  lemma DeleteEffectsIff(id: string, current: string, confirmed: bool, deleted: bool)
    ensures SendDelete(DeleteRequest(id)) in DeleteEffects(id, current, confirmed, deleted) <==> confirmed
    ensures StartNewChat in DeleteEffects(id, current, confirmed, deleted) <==> confirmed && deleted && id == current
    ensures Refresh(SessionsRequest()) in DeleteEffects(id, current, confirmed, deleted) <==> confirmed && deleted
    ensures StartNewChat in DeleteEffects(id, current, confirmed, deleted) ==>
      DeleteEffects(id, current, confirmed, deleted)[1..] == [SendDelete(DeleteRequest(id)), StartNewChat, Refresh(SessionsRequest())]
  {
  }

  /** The `Sidebar` component's state: the cached list and the
      `currentSessionId` its refresh effect last ran for (`None` before mount). */
  class Sidebar {
    var sessions: seq<Session>
    var effectDeps: Option<string>

    constructor()
      ensures sessions == [] && effectDeps == None
    {
      sessions := [];
      effectDeps := None;
    }

    /** Runs the `[currentSessionId]` effect after a render: on mount and on
        every change of the prop it starts `fetchSessions`. */
    method Commit(current: string) returns (refresh: Option<Request>)
      modifies this
      ensures effectDeps == Some(current) && sessions == old(sessions)
      ensures refresh.Some? <==> old(effectDeps) != Some(current)
      ensures refresh.Some? ==> refresh.value == Request(Get, "/qa/sessions", NoBody)
    {
      refresh := None;
      if effectDeps != Some(current) {
        effectDeps := Some(current);
        refresh := Some(SessionsRequest());
      }
    }

    /** The continuation of `fetchSessions` once `getSessions` settles. */
    method CompleteFetch(response: Response<seq<Session>>)
      modifies this
      ensures sessions == Refreshed(old(sessions), response) && effectDeps == old(effectDeps)
    {
      var x := GetSessions(response);
      if x.result.Ok? {
        sessions := x.result.value;
      }
    }

    /** `handleDelete(e, id)` up to its await, with the user's answer to
        `window.confirm` and the `currentSessionId` prop: returns what it does
        and, when confirmed, the closure the DELETE's continuation resumes. */
    method HandleDelete(id: string, confirmed: bool, current: string)
      returns (pending: Option<PendingDelete>, effects: seq<Effect>)
      ensures effects == ClickEffects(id, confirmed)
      ensures SendDelete(DeleteRequest(id)) in effects <==> confirmed
      ensures pending.Some? <==> confirmed
      ensures pending.Some? ==> pending.value == PendingDelete(id, current)
    {
      effects := [AskConfirm(ConfirmPrompt)];
      pending := None;
      if confirmed {
        effects := effects + [SendDelete(DeleteRequest(id))];
        pending := Some(PendingDelete(id, current));
      }
    }

    /** The continuation of `handleDelete` once `deleteSession` settles with
        `response`; `app` receives `onNewChat`. */
    method CompleteDelete(app: Chat.App, p: PendingDelete, response: Response<()>)
      returns (effects: seq<Effect>)
      requires app.Valid()
      modifies app
      ensures app.Valid() && app.controller == old(app.controller)
      ensures effects == CompletionEffects(p, DeleteSession(p.id, response).result.Ok?)
      ensures app.State() == AfterDelete(old(app.State()), p, DeleteSession(p.id, response).result.Ok?)
    {
      effects := [];
      var x := DeleteSession(p.id, response);
      if x.result.Ok? {
        if p.id == p.currentAtClick {
          app.HandleNewSession();
          effects := [StartNewChat];
        }
        effects := effects + [Refresh(SessionsRequest())];
      }
    }
  }
}
