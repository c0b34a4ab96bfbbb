/** The durable conversation memory: an append-only message log keyed by
    user and session, and one summary per user. The SQLite file is an object
    holding the two tables; a timestamp is the integer the clock gave when the
    row was inserted. */
module ChatDatabase {
  import opened Sequences

  /** A row of `farmer_chat_history`. */
  datatype ChatRow = ChatRow(userId: string, sessionId: string, role: string, message: string, timestamp: int)

  function Timestamp(r: ChatRow): int
  {
    r.timestamp
  }

  /** WHERE user_id=? AND session_id=? */
  function InSession(userId: string, sessionId: string): ChatRow -> bool
  {
    (r: ChatRow) => r.userId == userId && r.sessionId == sessionId
  }

  /** The rows of one user's session, in storage order. */
  function Matching(rows: seq<ChatRow>, userId: string, sessionId: string): (m: seq<ChatRow>)
    ensures forall i :: 0 <= i < |m| ==> m[i] in rows && m[i].userId == userId && m[i].sessionId == sessionId
  {
    var m := Filter(rows, InSession(userId, sessionId));
    assert forall i :: 0 <= i < |m| ==> m[i] in m;
    m
  }

  /** Matching counts: each row of that user and session is selected as
      often as it is stored, and no other row is selected. */
  lemma MatchingCounts(rows: seq<ChatRow>, userId: string, sessionId: string)
    ensures forall r :: multiset(Matching(rows, userId, sessionId))[r] ==
                       if r.userId == userId && r.sessionId == sessionId then multiset(rows)[r] else 0
  {
    FilterMultiset(rows, InSession(userId, sessionId));
  }

  /** Matching keeps storage order: the selection from two stretches of the
      log is the selection from the first followed by that from the second,
      and a single row is selected exactly when it belongs to the session. */
  lemma MatchingAppend(a: seq<ChatRow>, b: seq<ChatRow>, r: ChatRow, userId: string, sessionId: string)
    ensures Matching(a + b, userId, sessionId) == Matching(a, userId, sessionId) + Matching(b, userId, sessionId)
    ensures Matching([r], userId, sessionId) == if r.userId == userId && r.sessionId == sessionId then [r] else []
  {
    FilterAppend(a, b, InSession(userId, sessionId));
    assert [r][1..] == [];
  }

  /** SELECT role, message. */
  function Project(rows: seq<ChatRow>): (h: seq<(string, string)>)
    ensures |h| == |rows|
    ensures forall i :: 0 <= i < |rows| ==> h[i] == (rows[i].role, rows[i].message)
  {
    if rows == [] then [] else [(rows[0].role, rows[0].message)] + Project(rows[1..])
  }

  lemma {:induction false} ProjectAppend(s: seq<ChatRow>, t: seq<ChatRow>)
    ensures Project(s + t) == Project(s) + Project(t)
  {
  }

  /** `load_chat_history`: the (role, message) pairs of the matching rows
      ordered by timestamp. Rows with equal timestamps are taken to come back
      in the order they were stored. */
  function History(rows: seq<ChatRow>, userId: string, sessionId: string): (h: seq<(string, string)>)
    ensures |h| == |Matching(rows, userId, sessionId)|
  {
    Project(SortBy(Matching(rows, userId, sessionId), Timestamp))
  }

  /** The history is the (role, message) projection of a rearrangement of
      the session's rows into timestamp order: each row of that user and
      session contributes one entry, as often as it is stored. */
  lemma HistoryPermutesSession(rows: seq<ChatRow>, userId: string, sessionId: string)
    ensures exists sorted :: (multiset(sorted) == multiset(Matching(rows, userId, sessionId)) &&
                              SortedBy(sorted, Timestamp) && History(rows, userId, sessionId) == Project(sorted))
  {
    var sorted := SortBy(Matching(rows, userId, sessionId), Timestamp);
    SortBySorted(Matching(rows, userId, sessionId), Timestamp);
    assert History(rows, userId, sessionId) == Project(sorted);
  }

  /** Every history entry is the role and message of a row of that user and
      that session. */
  lemma HistoryFromSession(rows: seq<ChatRow>, userId: string, sessionId: string)
    ensures var h := History(rows, userId, sessionId);
      forall i :: 0 <= i < |h| ==>
        exists j :: 0 <= j < |rows| && rows[j].userId == userId && rows[j].sessionId == sessionId &&
          h[i] == (rows[j].role, rows[j].message)
  {
    var m := Matching(rows, userId, sessionId);
    var sorted := SortBy(m, Timestamp);
    forall i | 0 <= i < |sorted|
      ensures sorted[i] in m
    {
      assert sorted[i] in multiset(sorted);
    }
  }

  /** The history comes back ordered by timestamp. */
  lemma HistoryOrdered(rows: seq<ChatRow>, userId: string, sessionId: string)
    ensures SortedBy(SortBy(Matching(rows, userId, sessionId), Timestamp), Timestamp)
  {
    SortBySorted(Matching(rows, userId, sessionId), Timestamp);
  }

  /** Appending a row of another conversation leaves a history unchanged. */
  lemma AppendOtherKeepsHistory(rows: seq<ChatRow>, r: ChatRow, userId: string, sessionId: string)
    requires r.userId != userId || r.sessionId != sessionId
    ensures History(rows + [r], userId, sessionId) == History(rows, userId, sessionId)
  {
    FilterSnoc(rows, r, InSession(userId, sessionId));
  }

  /** Appending a row of the conversation that is no older than any stored row
      adds exactly its (role, message) at the end of that history. */
  lemma AppendLatestExtendsHistory(rows: seq<ChatRow>, r: ChatRow)
    requires forall i :: 0 <= i < |rows| ==> rows[i].timestamp <= r.timestamp
    ensures History(rows + [r], r.userId, r.sessionId) == History(rows, r.userId, r.sessionId) + [(r.role, r.message)]
  {
    var m := Matching(rows, r.userId, r.sessionId);
    FilterSnoc(rows, r, InSession(r.userId, r.sessionId));
    assert Matching(rows + [r], r.userId, r.sessionId) == m + [r];
    forall i | 0 <= i < |m|
      ensures Timestamp(m[i]) <= Timestamp(r)
    {
      assert m[i] in rows;
    }
    SortBySnoc(m, r, Timestamp);
    ProjectAppend(SortBy(m, Timestamp), [r]);
    assert History(rows + [r], r.userId, r.sessionId) == Project(SortBy(m + [r], Timestamp));
    assert History(rows, r.userId, r.sessionId) == Project(SortBy(m, Timestamp));
  }

  /** When the clock never ran backwards, the history is the conversation's
      rows in the order they were stored; in particular N messages saved to
      one conversation come back as those N messages in call order. */
  lemma HistoryInStorageOrder(rows: seq<ChatRow>, userId: string, sessionId: string)
    requires SortedBy(rows, Timestamp)
    ensures History(rows, userId, sessionId) == Project(Matching(rows, userId, sessionId))
  {
    FilterSorted(rows, InSession(userId, sessionId), Timestamp);
    SortByOfSorted(Matching(rows, userId, sessionId), Timestamp);
  }

  /** The summary a summary table holds for a user, or the empty string. */
  function SummaryOf(summaries: map<string, string>, userId: string): string
  {
    if userId in summaries then summaries[userId] else ""
  }

  class ChatStore {
    /** Whether `init_db` has created each table. */
    var historyTableExists: bool
    var summaryTableExists: bool
    var rows: seq<ChatRow>
    var summaries: map<string, string>

    constructor ()
      ensures !historyTableExists && !summaryTableExists && rows == [] && summaries == map[]
    {
      historyTableExists := false;
      summaryTableExists := false;
      rows := [];
      summaries := map[];
    }

    /** `init_db`: both tables are created if missing; existing data is kept,
        so running it again changes nothing. */
    method InitDb()
      modifies this
      ensures historyTableExists && summaryTableExists
      ensures rows == old(rows) && summaries == old(summaries)
    {
      historyTableExists := true;
      summaryTableExists := true;
    }

    /** `save_message`: one row at the end of the log, stamped `now`. */
    method SaveMessage(userId: string, sessionId: string, role: string, message: string, now: int)
      modifies this
      ensures rows == old(rows) + [ChatRow(userId, sessionId, role, message, now)]
      ensures summaries == old(summaries)
      ensures historyTableExists == old(historyTableExists) && summaryTableExists == old(summaryTableExists)
    {
      rows := rows + [ChatRow(userId, sessionId, role, message, now)];
    }

    /** `load_chat_history` over the stored rows: the projection of the
        session's rows rearranged into timestamp order. */
    function LoadChatHistory(userId: string, sessionId: string): (h: seq<(string, string)>)
      reads this
      ensures exists sorted :: (multiset(sorted) == multiset(Matching(rows, userId, sessionId)) &&
                                SortedBy(sorted, Timestamp) && h == Project(sorted))
    {
      HistoryPermutesSession(rows, userId, sessionId);
      History(rows, userId, sessionId)
    }

    /** `save_user_summary`: an upsert keyed by user id. */
    method SaveUserSummary(userId: string, summary: string)
      modifies this
      ensures summaries == old(summaries)[userId := summary]
      ensures rows == old(rows)
      ensures historyTableExists == old(historyTableExists) && summaryTableExists == old(summaryTableExists)
    {
      summaries := summaries[userId := summary];
    }

    /** `get_user_summary`: the stored summary, or the empty string. */
    function GetUserSummary(userId: string): (s: string)
      reads this
      ensures userId in summaries ==> s == summaries[userId]
      ensures userId !in summaries ==> s == ""
    {
      SummaryOf(summaries, userId)
    }
  }

  /** A later summary replaces an earlier one for the same user; other users'
      summaries are untouched. */
  method SummaryScenario(store: ChatStore, u: string, v: string, a: string, b: string)
    requires u != v
    modifies store
  {
    var before := store.GetUserSummary(v);
    store.SaveUserSummary(u, a);
    store.SaveUserSummary(u, b);
    assert store.GetUserSummary(u) == b;
    assert store.GetUserSummary(v) == before;
  }
}
