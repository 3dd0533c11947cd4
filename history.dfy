/** Chat messages and the flattening of a session's history into them. */
module History {
  import opened Js
  import opened Api

  datatype Role = User | Assistant

  /** A chat bubble. `context` and `timestamp` are `None` where the message
      object has no such property (or holds `null`). */
  datatype Message = Message(
    role: Role,
    content: string,
    context: Option<string>,
    timestamp: Option<Timestamp>)

  /** 1 when `v` is truthy, else 0. */
  function Indicator(v: Option<string>): nat {
    if Truthy(v) then 1 else 0
  }

  /** The messages of one turn: a user message for a truthy question, then an
      assistant message for a truthy answer, both stamped with the turn's time. */
  function TurnMessages(t: HistoryTurn): (r: seq<Message>)
    ensures |r| == Indicator(t.question) + Indicator(t.answer)
    ensures forall i :: 0 <= i < |r| ==> r[i].timestamp == Some(t.timestamp)
    ensures forall i :: 0 <= i < |r| ==> (r[i].role == User <==> Truthy(t.question) && i == 0)
    ensures Truthy(t.question) ==> r[0].content == t.question.value && r[0].context == None
    ensures Truthy(t.answer) ==>
      r[|r| - 1].content == t.answer.value && r[|r| - 1].context == t.context
  {
    (if Truthy(t.question) then [Message(User, t.question.value, None, Some(t.timestamp))] else [])
    + (if Truthy(t.answer) then [Message(Assistant, t.answer.value, t.context, Some(t.timestamp))] else [])
  }

  /** `history.flatMap(turn => ...)`. */
  function Flatten(turns: seq<HistoryTurn>): (r: seq<Message>)
  {
    if turns == [] then [] else TurnMessages(turns[0]) + Flatten(turns[1..])
  }

  /** The number of turns with a truthy question. */
  function Questions(turns: seq<HistoryTurn>): nat {
    if turns == [] then 0 else Indicator(turns[0].question) + Questions(turns[1..])
  }

  /** The number of turns with a truthy answer. */
  function Answers(turns: seq<HistoryTurn>): nat {
    if turns == [] then 0 else Indicator(turns[0].answer) + Answers(turns[1..])
  }

  /** The number of messages with the given role. */
  function CountRole(ms: seq<Message>, role: Role): nat {
    if ms == [] then 0 else (if ms[0].role == role then 1 else 0) + CountRole(ms[1..], role)
  }

  lemma {:induction false} CountRoleAppend(a: seq<Message>, b: seq<Message>, role: Role)
    ensures CountRole(a + b, role) == CountRole(a, role) + CountRole(b, role)
  {
    if a != [] {
      assert (a + b)[1..] == a[1..] + b;
      CountRoleAppend(a[1..], b, role);
    } else {
      assert a + b == b;
    }
  }

  /** Flattening distributes over concatenation of histories. */
  lemma {:induction false} FlattenAppend(a: seq<HistoryTurn>, b: seq<HistoryTurn>)
    ensures Flatten(a + b) == Flatten(a) + Flatten(b)
  {
    if a != [] {
      assert (a + b)[1..] == a[1..] + b;
      FlattenAppend(a[1..], b);
    } else {
      assert a + b == b;
    }
  }

  /** Turn order is kept: the messages of turn `i`, in their own order, come
      after those of every earlier turn and before those of every later one. */
  lemma {:induction false} FlattenPlacesTurn(turns: seq<HistoryTurn>, i: nat)
    requires i < |turns|
    ensures Flatten(turns) == Flatten(turns[..i]) + TurnMessages(turns[i]) + Flatten(turns[i + 1..])
  {
    var before, t, after := turns[..i], turns[i], turns[i + 1..];
    assert turns == before + ([t] + after);
    FlattenAppend(before, [t] + after);
    assert ([t] + after)[1..] == after;
    assert Flatten([t] + after) == TurnMessages(t) + Flatten(after);
  }

  /** There are as many user messages as truthy questions and as many assistant
      messages as truthy answers, so the flattened length is their sum. */
  lemma {:induction false} FlattenCounts(turns: seq<HistoryTurn>)
    ensures CountRole(Flatten(turns), User) == Questions(turns)
    ensures CountRole(Flatten(turns), Assistant) == Answers(turns)
    ensures |Flatten(turns)| == Questions(turns) + Answers(turns)
  {
    if turns != [] {
      var t := turns[0];
      FlattenCounts(turns[1..]);
      CountRoleAppend(TurnMessages(t), Flatten(turns[1..]), User);
      CountRoleAppend(TurnMessages(t), Flatten(turns[1..]), Assistant);
      var m := TurnMessages(t);
      if |m| == 2 {
        assert m[1..][1..] == [];
        assert CountRole(m, User) == 1 && CountRole(m, Assistant) == 1;
      } else if |m| == 1 {
        assert m[1..] == [];
      }
    }
  }

  /** Every flattened message comes from one of the turns, and every message
      of every turn is in the flattened history. */
  lemma {:induction false} FlattenOrigin(turns: seq<HistoryTurn>, m: Message)
    ensures m in Flatten(turns) <==> exists i :: 0 <= i < |turns| && m in TurnMessages(turns[i])
  {
    if turns != [] {
      FlattenOrigin(turns[1..], m);
      if m in Flatten(turns[1..]) {
        var i :| 0 <= i < |turns[1..]| && m in TurnMessages(turns[1..][i]);
        assert m in TurnMessages(turns[i + 1]);
      }
      if exists i :: 0 <= i < |turns| && m in TurnMessages(turns[i]) {
        var i :| 0 <= i < |turns| && m in TurnMessages(turns[i]);
        if i > 0 {
          assert turns[1..][i - 1] == turns[i];
        }
      }
    }
  }

  /** A turn with neither a truthy question nor a truthy answer adds nothing:
      dropping such turns does not change the conversation. */
  lemma {:induction false} FlattenSkipsEmptyTurn(a: seq<HistoryTurn>, t: HistoryTurn, b: seq<HistoryTurn>)
    requires !Truthy(t.question) && !Truthy(t.answer)
    ensures Flatten(a + [t] + b) == Flatten(a + b)
  {
    FlattenAppend(a + [t], b);
    FlattenAppend(a, [t]);
    FlattenAppend(a, b);
    assert [t][1..] == [];
  }
}
