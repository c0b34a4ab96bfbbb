/** The chat endpoints: one turn, a session's history for display, and the
    list of a user's sessions. */
module ChatRoutes {
  import opened Common
  import opened Sequences
  import opened ChatDatabase
  import opened ChatIndex

  /** The role shown to clients: stored "human" stays, anything else is the
      assistant. */
  function RoleName(role: string): (name: string)
    ensures name == "human" <==> role == "human"
    ensures name in {"human", "assistant"}
  {
    if role == "human" then "human" else "assistant"
  }

  datatype ChatMessage = ChatMessage(role: string, content: string)

  /** `GET /farmer_query/session/{user_id}/{session_id}/history`: one entry
      per stored message, in history order, the text unchanged. */
  method GetSessionHistory(db: ChatStore, userId: string, sessionId: string)
    returns (formatted: seq<ChatMessage>)
    ensures var rows := db.LoadChatHistory(userId, sessionId);
      && |formatted| == |rows|
      && forall i :: 0 <= i < |rows| ==>
           formatted[i] == ChatMessage(RoleName(rows[i].0), rows[i].1)
  {
    formatted := Format(db.LoadChatHistory(userId, sessionId));
  }

  /** The formatting loop of the history endpoint. */
  method Format(rows: seq<(string, string)>) returns (formatted: seq<ChatMessage>)
    ensures |formatted| == |rows|
    ensures forall i :: 0 <= i < |rows| ==> formatted[i] == ChatMessage(RoleName(rows[i].0), rows[i].1)
  {
    formatted := [];
    var i := 0;
    while i < |rows|
      invariant 0 <= i <= |rows|
      invariant |formatted| == i
      invariant forall k :: 0 <= k < i ==> formatted[k] == ChatMessage(RoleName(rows[k].0), rows[k].1)
    {
      var (role, msg) := rows[i];
      var roleName := if role == "human" then "human" else "assistant";
      formatted := formatted + [ChatMessage(roleName, msg)];
      i := i + 1;
    }
  }

  /** Some row of this user belongs to session `s`. */
  predicate HasSession(rows: seq<ChatRow>, userId: string, s: string)
  {
    exists j :: 0 <= j < |rows| && rows[j].userId == userId && rows[j].sessionId == s
  }

  /** The session ids of one user's rows, in storage order, repeats kept. */
  function SessionIds(rows: seq<ChatRow>, userId: string): (ids: seq<string>)
    ensures forall k :: 0 <= k < |ids| ==> HasSession(rows, userId, ids[k])
    ensures forall j :: 0 <= j < |rows| && rows[j].userId == userId ==> rows[j].sessionId in ids
  {
    if rows == [] then []
    else
      var rest := SessionIds(rows[1..], userId);
      var ids := if rows[0].userId == userId then [rows[0].sessionId] + rest else rest;
      var shift := if rows[0].userId == userId then 1 else 0;
      assert forall k :: shift <= k < |ids| ==> ids[k] == rest[k - shift];
      forall k | 0 <= k < |ids|
        ensures HasSession(rows, userId, ids[k])
      {
        if k < shift {
          assert rows[0].sessionId == ids[k];
        } else {
          assert HasSession(rows[1..], userId, rest[k - shift]);
          var j :| 0 <= j < |rows[1..]| && rows[1..][j].userId == userId && rows[1..][j].sessionId == rest[k - shift];
          assert rows[j + 1] == rows[1..][j];
        }
      }
      forall j | 0 <= j < |rows| && rows[j].userId == userId
        ensures rows[j].sessionId in ids
      {
        if j > 0 {
          assert rows[1..][j - 1] == rows[j];
        }
      }
      ids
  }

  /** `GET /farmer_query/allSession_user/{user_id}`: SELECT DISTINCT over the
      user's rows. */
  function GetAllSessionsUser(rows: seq<ChatRow>, userId: string): (sessions: seq<string>)
    ensures NoDuplicates(sessions)
    ensures forall s :: s in sessions <==> HasSession(rows, userId, s)
  {
    var ids := SessionIds(rows, userId);
    var sessions := Distinct(ids);
    assert forall s :: s in sessions ==> s in ids;
    assert forall s :: s in ids ==> s in sessions;
    sessions
  }

  /** A message saved for a user adds its session to that user's list and
      leaves every other user's list as it was. */
  lemma {:induction false} SaveMessageSessions(rows: seq<ChatRow>, r: ChatRow, userId: string)
    ensures r.userId == userId ==> r.sessionId in GetAllSessionsUser(rows + [r], userId)
    ensures r.userId != userId ==> GetAllSessionsUser(rows + [r], userId) == GetAllSessionsUser(rows, userId)
  {
    var after := rows + [r];
    assert after[|rows|] == r;
    if r.userId != userId {
      SessionIdsSnocOther(rows, r, userId);
    }
  }

  lemma {:induction false} SessionIdsSnocOther(rows: seq<ChatRow>, r: ChatRow, userId: string)
    requires r.userId != userId
    ensures SessionIds(rows + [r], userId) == SessionIds(rows, userId)
  {
    if rows == [] {
      assert rows + [r] == [r];
    } else {
      assert (rows + [r])[1..] == rows[1..] + [r];
      SessionIdsSnocOther(rows[1..], r, userId);
    }
  }

  datatype ChatRequest = ChatRequest(userId: string, sessionId: string, message: string)
  datatype ChatResponse = ChatResponse(response: string)

  /** The endpoint's answer for a turn: the reply, or the 500 an exception
      escaping the handler becomes. */
  function Respond(outcome: TurnOutcome): (r: Result<ChatResponse, HttpError>)
    ensures r.Ok? <==> outcome.Reply?
    ensures outcome.Reply? ==> r.value.response == outcome.text
    ensures r.Err? ==> r.error.status == 500
  {
    if outcome.Reply? then Ok(ChatResponse(outcome.text)) else Err(Error(500, "Internal Server Error"))
  }

  /** `POST /farmer_query/chat`: the request's user, session and message go
      to the turn unchanged, and its outcome becomes the response. */
  method ChatEndpoint(g: Gateway, req: ChatRequest, chat: seq<Message> -> Option<string>,
                      summarize: seq<Message> -> Option<string>, now: int)
    returns (outcome: TurnOutcome, response: Result<ChatResponse, HttpError>)
    requires g.Valid()
    modifies g, g.db
    ensures g.Valid()
    ensures (g.State(), outcome) == Turn(old(g.State()), req.userId, req.sessionId, req.message, chat, summarize, now)
    ensures response == Respond(outcome)
  {
    outcome := g.RunConversation(req.userId, req.sessionId, req.message, chat, summarize, now);
    response := Respond(outcome);
  }
}
