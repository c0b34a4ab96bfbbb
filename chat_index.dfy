/** One conversational turn: the prompt built around the farmer's long-term
    summary, the per-session history cache replayed from the durable log the
    first time a session is seen, the persistence of the turn and the
    refresh of the summary. The chat model and the summariser are function
    parameters; `None` stands for a call that raised. */
module ChatIndex {
  import opened Common
  import opened Sequences
  import opened ChatDatabase

  datatype Message = Message(role: string, content: string)

  /** Put in place of an empty summary. */
  const NoSummary := "No summary yet."

  const SummarizerInstruction :=
    "You are a summarizer. Read the conversation snippet and update the running summary " +
    "about the farmer. Always output the full updated summary, not just the new info."

  const AssistantIntro := "You are a farmer assistant. Here is the long-term summary about the farmer:\n\n"
  const AssistantRules := "\n\nUse this summary to answer queries. Do not invent details."

  /** Python's `summary or 'No summary yet.'`. */
  function OrSentinel(summary: string): (s: string)
    ensures s != []
    ensures summary != [] ==> s == summary
  {
    if summary == [] then NoSummary else summary
  }

  /** The summariser's input: its instruction, then the current summary and
      the new snippet. */
  function SummaryPrompt(current: string, snippet: string): seq<Message>
  {
    [Message("system", SummarizerInstruction),
     Message("human", "Current summary:\n" + current + "\n\nNew snippet:\n" + snippet)]
  }

  lemma SummaryPromptCarries(current: string, snippet: string)
    ensures var p := SummaryPrompt(current, snippet);
      |p| == 2 && p[0].role == "system" && p[1].role == "human" &&
      Contains(p[1].content, current) && Contains(p[1].content, snippet)
  {
    var text := "Current summary:\n" + current + "\n\nNew snippet:\n" + snippet;
    ContainsMiddle("Current summary:\n", current, "\n\nNew snippet:\n" + snippet);
    assert text == "Current summary:\n" + current + ("\n\nNew snippet:\n" + snippet);
    ContainsMiddle("Current summary:\n" + current + "\n\nNew snippet:\n", snippet, "");
    assert text == "Current summary:\n" + current + "\n\nNew snippet:\n" + snippet + "";
  }

  /** The prompt `build_prompt_with_summary` returns: a fixed system text and
      the two slots for the history and the human input. */
  datatype PromptTemplate = PromptTemplate(system: string)

  function BuildPromptWithSummary(summary: string): (p: PromptTemplate)
    ensures Contains(p.system, OrSentinel(summary))
    ensures |AssistantIntro| <= |p.system| && p.system[..|AssistantIntro|] == AssistantIntro
  {
    var p := PromptTemplate(AssistantIntro + OrSentinel(summary) + AssistantRules);
    ContainsMiddle(AssistantIntro, OrSentinel(summary), AssistantRules);
    assert p.system == AssistantIntro + (OrSentinel(summary) + AssistantRules);
    p
  }

  /** Filling the template: system message, the history, the human input. */
  function Render(p: PromptTemplate, history: seq<Message>, input: string): (msgs: seq<Message>)
    ensures |msgs| == |history| + 2
    ensures msgs[0] == Message("system", p.system)
    ensures msgs[1..|msgs| - 1] == history
    ensures msgs[|msgs| - 1] == Message("human", input)
  {
    [Message("system", p.system)] + history + [Message("human", input)]
  }

  function TurnPrompt(summary: string, history: seq<Message>, input: string): seq<Message>
  {
    Render(BuildPromptWithSummary(summary), history, input)
  }

  /** The turn prompt shows the summary when there is one and the sentinel
      otherwise, and the history sits between the system text and the input. */
  lemma TurnPromptShape(summary: string, history: seq<Message>, input: string)
    ensures var msgs := TurnPrompt(summary, history, input);
      && msgs[0].role == "system"
      && (summary != [] ==> Contains(msgs[0].content, summary))
      && (summary == [] ==> Contains(msgs[0].content, NoSummary))
      && msgs[1..|msgs| - 1] == history
      && msgs[|msgs| - 1] == Message("human", input)
  {
  }

  /** The snippet handed to the summariser after a turn. */
  function Snippet(input: string, reply: string): string
  {
    "Farmer: " + input + "\nAssistant: " + reply
  }

  lemma SnippetCarries(input: string, reply: string)
    ensures Contains(Snippet(input, reply), input) && Contains(Snippet(input, reply), reply)
    ensures Snippet(input, reply)[..8] == "Farmer: "
  {
    var text := Snippet(input, reply);
    ContainsMiddle("Farmer: ", input, "\nAssistant: " + reply);
    assert text == "Farmer: " + input + ("\nAssistant: " + reply);
    ContainsMiddle("Farmer: " + input + "\nAssistant: ", reply, "");
    assert text == "Farmer: " + input + "\nAssistant: " + reply + "";
  }

  /** The stored (role, message) pairs as chat messages. */
  function AsMessages(rows: seq<(string, string)>): (h: seq<Message>)
    ensures |h| == |rows|
    ensures forall i :: 0 <= i < |rows| ==> h[i] == Message(rows[i].0, rows[i].1)
  {
    if rows == [] then [] else [Message(rows[0].0, rows[0].1)] + AsMessages(rows[1..])
  }

  lemma AsMessagesAppend(a: seq<(string, string)>, b: seq<(string, string)>)
    ensures AsMessages(a + b) == AsMessages(a) + AsMessages(b)
  {
    var l, r := AsMessages(a + b), AsMessages(a) + AsMessages(b);
    forall i | 0 <= i < |a + b|
      ensures l[i] == r[i]
    {
      if i >= |a| {
        assert (a + b)[i] == b[i - |a|];
      }
    }
  }

  /** The replay loop: one message per stored row, in load order. */
  method Replay(rows: seq<(string, string)>) returns (history: seq<Message>)
    ensures history == AsMessages(rows)
  {
    history := [];
    var i := 0;
    while i < |rows|
      invariant 0 <= i <= |rows|
      invariant history == AsMessages(rows[..i])
    {
      history := history + [Message(rows[i].0, rows[i].1)];
      i := i + 1;
      assert history == AsMessages(rows[..i]);
    }
    assert rows[..|rows|] == rows;
  }

  predicate NonEmpty(chunk: string)
  {
    chunk != []
  }

  /** Leaving out empty chunks does not change their concatenation. */
  lemma {:induction false} ConcatNonEmpty(chunks: seq<string>)
    ensures Concat(Filter(chunks, NonEmpty)) == Concat(chunks)
  {
    if chunks != [] {
      ConcatNonEmpty(chunks[1..]);
      if chunks[0] == [] {
        assert Concat(chunks) == Concat(chunks[1..]);
      } else {
        assert Filter(chunks, NonEmpty) == [chunks[0]] + Filter(chunks[1..], NonEmpty);
        ConcatAppend([chunks[0]], Filter(chunks[1..], NonEmpty));
        assert Concat([chunks[0]]) == chunks[0] + Concat([]);
      }
    }
  }

  lemma ConcatSnoc(s: seq<string>, c: string)
    ensures Concat(s + [c]) == Concat(s) + c
  {
    ConcatAppend(s, [c]);
    assert Concat([c]) == c + Concat([]);
  }

  /** The stream loop: each non-empty chunk is sent, in order, and the
      full response is the concatenation of exactly what was sent. */
  method Accumulate(chunks: seq<string>) returns (sent: seq<string>, full: string)
    ensures sent == Filter(chunks, NonEmpty)
    ensures full == Concat(sent)
    ensures full == Concat(chunks)
  {
    sent := [];
    full := "";
    var i := 0;
    while i < |chunks|
      invariant 0 <= i <= |chunks|
      invariant sent == Filter(chunks[..i], NonEmpty)
      invariant full == Concat(sent)
    {
      var content := chunks[i];
      assert chunks[..i + 1] == chunks[..i] + [content];
      FilterSnoc(chunks[..i], content, NonEmpty);
      if NonEmpty(content) {
        ConcatSnoc(sent, content);
        full := full + content;
        sent := sent + [content];
      }
      i := i + 1;
    }
    assert chunks[..|chunks|] == chunks;
    ConcatNonEmpty(chunks);
  }

  /** A streamed reply: the chunks produced, and whether the stream ended
      normally rather than by raising. */
  datatype StreamReply = StreamReply(chunks: seq<string>, completed: bool)

  /** How a turn ends: with a reply, with the chat model raising, or with the
      summariser raising after the turn was already stored. */
  datatype TurnOutcome = Reply(text: string) | ModelFailed | SummaryFailed

  /** The history a turn starts from: the cached one, or the durable log
      replayed when the session is not cached yet. */
  function HistoryOf(store: map<string, seq<Message>>, rows: seq<ChatRow>, userId: string, sessionId: string)
    : seq<Message>
  {
    if sessionId in store then store[sessionId] else AsMessages(History(rows, userId, sessionId))
  }

  /** A cached session's history is the cached one; an uncached session
      replays one message per stored row of that user and session, each
      carrying that row's role and message. */
  lemma HistoryOfCachedOrReplayed(store: map<string, seq<Message>>, rows: seq<ChatRow>, userId: string, sessionId: string)
    ensures sessionId in store ==> HistoryOf(store, rows, userId, sessionId) == store[sessionId]
    ensures sessionId !in store ==> var h := HistoryOf(store, rows, userId, sessionId);
      && |h| == |Matching(rows, userId, sessionId)|
      && forall i :: 0 <= i < |h| ==>
           exists j :: 0 <= j < |rows| && rows[j].userId == userId && rows[j].sessionId == sessionId &&
             h[i] == Message(rows[j].role, rows[j].message)
  {
    if sessionId !in store {
      var loaded := History(rows, userId, sessionId);
      HistoryFromSession(rows, userId, sessionId);
      var h := AsMessages(loaded);
      forall i | 0 <= i < |h|
        ensures exists j :: (0 <= j < |rows| && rows[j].userId == userId && rows[j].sessionId == sessionId &&
                             h[i] == Message(rows[j].role, rows[j].message))
      {
        var j :| 0 <= j < |rows| && rows[j].userId == userId && rows[j].sessionId == sessionId &&
          loaded[i] == (rows[j].role, rows[j].message);
        assert h[i] == Message(loaded[i].0, loaded[i].1);
      }
    }
  }

  /** The two messages a completed turn adds to its session. */
  function TurnMessages(input: string, reply: string): seq<Message>
  {
    [Message("human", input), Message("ai", reply)]
  }

  /** The two log rows a completed turn stores, the human one first. */
  function TurnRows(userId: string, sessionId: string, input: string, reply: string, now: int): seq<ChatRow>
  {
    [ChatRow(userId, sessionId, "human", input, now), ChatRow(userId, sessionId, "ai", reply, now)]
  }

  /** The effect of a summary refresh whose summariser answered `out`: a
      failure changes neither summary store; an answer, stripped, becomes the
      user's summary in both. */
  predicate SummaryRefreshed(out: Option<string>, userId: string,
                             cache0: map<string, string>, summaries0: map<string, string>,
                             cache1: map<string, string>, summaries1: map<string, string>)
  {
    && (out.None? ==> cache1 == cache0 && summaries1 == summaries0)
    && (out.Some? ==> (cache1 == cache0[userId := Strip(out.value)] &&
                       summaries1 == summaries0[userId := Strip(out.value)]))
  }

  /** Every cached summary is the durable one. */
  predicate CacheAgrees(cache: map<string, string>, summaries: map<string, string>)
  {
    forall u :: u in cache ==> u in summaries && summaries[u] == cache[u]
  }

  /** What a turn reads and changes: the session-keyed history cache, the
      durable log, the durable summaries and the user-keyed summary cache. */
  datatype TurnState = TurnState(store: map<string, seq<Message>>, rows: seq<ChatRow>,
                                 summaries: map<string, string>, cache: map<string, string>)

  /** The state once the session is present in the history cache. */
  function Started(s: TurnState, userId: string, sessionId: string): (r: TurnState)
    ensures sessionId in r.store
    ensures r.rows == s.rows && r.summaries == s.summaries && r.cache == s.cache
    ensures sessionId in s.store ==> r == s
  {
    s.(store := s.store[sessionId := HistoryOf(s.store, s.rows, userId, sessionId)])
  }

  /** What the chat model is given: the durable summary, the session's
      history and the input. */
  function Prompt(s: TurnState, userId: string, sessionId: string, input: string): (p: seq<Message>)
    ensures |p| >= 2 && p[0].role == "system" && p[|p| - 1] == Message("human", input)
    ensures Contains(p[0].content, OrSentinel(SummaryOf(s.summaries, userId)))
  {
    TurnPrompt(SummaryOf(s.summaries, userId), HistoryOf(s.store, s.rows, userId, sessionId), input)
  }

  /** The end of a turn, from a state in which the session is cached, once
      the model answered `reply` (`None`: it raised). An answer is cached and
      logged before the summary is refreshed. */
  function Concluded(s: TurnState, userId: string, sessionId: string, input: string, reply: Option<string>,
                     summarize: seq<Message> -> Option<string>, now: int): (r: (TurnState, TurnOutcome))
    requires sessionId in s.store
    ensures r.1 == ModelFailed <==> reply.None?
    ensures r.1.Reply? ==> r.1.text == reply.value
    ensures reply.None? ==> r.0 == s
    ensures reply.Some? ==> sessionId in r.0.store && r.0.rows == s.rows + TurnRows(userId, sessionId, input, reply.value, now)
  {
    if reply.None? then (s, ModelFailed)
    else
      var text := reply.value;
      var logged := s.(store := s.store[sessionId := s.store[sessionId] + TurnMessages(input, text)],
                       rows := s.rows + TurnRows(userId, sessionId, input, text, now));
      var out := summarize(SummaryPrompt(OrSentinel(SummaryOf(s.summaries, userId)), Snippet(input, text)));
      if out.None? then (logged, SummaryFailed)
      else
        var summary := Strip(out.value);
        (logged.(summaries := s.summaries[userId := summary], cache := s.cache[userId := summary]), Reply(text))
  }

  /** A whole turn from state `s`: the new state and how the turn ended. */
  function Turn(s: TurnState, userId: string, sessionId: string, input: string,
                chat: seq<Message> -> Option<string>, summarize: seq<Message> -> Option<string>, now: int)
    : (r: (TurnState, TurnOutcome))
    ensures sessionId in r.0.store && r.0.summaries.Keys <= s.summaries.Keys + {userId}
    ensures forall u :: u in s.summaries && u != userId ==> u in r.0.summaries && r.0.summaries[u] == s.summaries[u]
    ensures r.1 == ModelFailed <==> chat(Prompt(s, userId, sessionId, input)).None?
    ensures r.1 == ModelFailed ==> r.0.rows == s.rows && r.0.summaries == s.summaries
    ensures r.1 != ModelFailed ==>
      r.0.rows == s.rows + TurnRows(userId, sessionId, input, chat(Prompt(s, userId, sessionId, input)).value, now)
  {
    Concluded(Started(s, userId, sessionId), userId, sessionId, input, chat(Prompt(s, userId, sessionId, input)),
              summarize, now)
  }

  /** A streaming model seen as a plain one: a completed stream answers the
      concatenation of its chunks, one that raised answers nothing. */
  function AsChat(stream: seq<Message> -> StreamReply): (chat: seq<Message> -> Option<string>)
    ensures forall p :: chat(p).Some? <==> stream(p).completed
    ensures forall p :: stream(p).completed ==> chat(p).value == Concat(Filter(stream(p).chunks, NonEmpty))
  {
    assert forall p :: Concat(Filter(stream(p).chunks, NonEmpty)) == Concat(stream(p).chunks) by {
      forall p { ConcatNonEmpty(stream(p).chunks); }
    }
    (p: seq<Message>) => if stream(p).completed then Some(Concat(stream(p).chunks)) else None
  }

  /** When the model raises, the turn has only cached the replayed session:
      nothing is logged and neither summary changes. */
  lemma TurnModelRaises(s: TurnState, userId: string, sessionId: string, input: string,
                        chat: seq<Message> -> Option<string>, summarize: seq<Message> -> Option<string>, now: int)
    requires chat(Prompt(s, userId, sessionId, input)).None?
    ensures var (t, outcome) := Turn(s, userId, sessionId, input, chat, summarize, now);
      && outcome == ModelFailed
      && t.store == s.store[sessionId := HistoryOf(s.store, s.rows, userId, sessionId)]
      && t.rows == s.rows && t.summaries == s.summaries && t.cache == s.cache
  {
  }

  /** Concluding with an answer, from any cached history `h` of the
      session, adds exactly the two messages to it and the two rows to the
      log. */
  lemma ConcludedRecords(s: TurnState, userId: string, sessionId: string, input: string, h: seq<Message>,
                         text: string, summarize: seq<Message> -> Option<string>, now: int)
    ensures var t := Concluded(s.(store := s.store[sessionId := h]), userId, sessionId, input, Some(text), summarize, now).0;
      && t.store == s.store[sessionId := h + TurnMessages(input, text)]
      && t.rows == s.rows + TurnRows(userId, sessionId, input, text, now)
  {
    var started := s.(store := s.store[sessionId := h]);
    assert started.store[sessionId := h + TurnMessages(input, text)] == s.store[sessionId := h + TurnMessages(input, text)];
  }

  /** When the model answers, exactly the human message and the answer are
      added to the cached session and to the log. */
  lemma TurnRecordsExchange(s: TurnState, userId: string, sessionId: string, input: string,
                            chat: seq<Message> -> Option<string>, summarize: seq<Message> -> Option<string>, now: int)
    requires chat(Prompt(s, userId, sessionId, input)).Some?
    ensures var text := chat(Prompt(s, userId, sessionId, input)).value;
      var t := Turn(s, userId, sessionId, input, chat, summarize, now).0;
      && t.store == s.store[sessionId := HistoryOf(s.store, s.rows, userId, sessionId) + TurnMessages(input, text)]
      && t.rows == s.rows + TurnRows(userId, sessionId, input, text, now)
  {
    ConcludedRecords(s, userId, sessionId, input, HistoryOf(s.store, s.rows, userId, sessionId),
                     chat(Prompt(s, userId, sessionId, input)).value, summarize, now);
  }

  /** When the model answers, the summariser alone decides the outcome and
      the new summary, which it is given the durable summary and the turn's
      snippet to write. */
  lemma TurnRefreshesSummary(s: TurnState, userId: string, sessionId: string, input: string,
                             chat: seq<Message> -> Option<string>, summarize: seq<Message> -> Option<string>, now: int)
    requires chat(Prompt(s, userId, sessionId, input)).Some?
    ensures var text := chat(Prompt(s, userId, sessionId, input)).value;
      var out := summarize(SummaryPrompt(OrSentinel(SummaryOf(s.summaries, userId)), Snippet(input, text)));
      var (t, outcome) := Turn(s, userId, sessionId, input, chat, summarize, now);
      && outcome == (if out.None? then SummaryFailed else Reply(text))
      && SummaryRefreshed(out, userId, s.cache, s.summaries, t.cache, t.summaries)
  {
  }

  /** A turn never leaves a cached summary that differs from the durable one. */
  lemma TurnKeepsCacheAgreement(s: TurnState, userId: string, sessionId: string, input: string,
                                chat: seq<Message> -> Option<string>, summarize: seq<Message> -> Option<string>,
                                now: int)
    requires CacheAgrees(s.cache, s.summaries)
    ensures var t := Turn(s, userId, sessionId, input, chat, summarize, now).0;
      CacheAgrees(t.cache, t.summaries)
  {
  }

  /** With a clock that has not run backwards, the two rows of a turn
      replay as its two messages, after the session's earlier ones. */
  lemma LogReplaysTurn(rows: seq<ChatRow>, userId: string, sessionId: string, input: string, text: string, now: int)
    requires forall i :: 0 <= i < |rows| ==> rows[i].timestamp <= now
    ensures AsMessages(History(rows + TurnRows(userId, sessionId, input, text, now), userId, sessionId)) ==
            AsMessages(History(rows, userId, sessionId)) + TurnMessages(input, text)
  {
    var human := ChatRow(userId, sessionId, "human", input, now);
    var ai := ChatRow(userId, sessionId, "ai", text, now);
    AppendLatestExtendsHistory(rows, human);
    forall i | 0 <= i < |rows + [human]|
      ensures (rows + [human])[i].timestamp <= now
    {
      if i < |rows| {
        assert (rows + [human])[i] == rows[i];
      }
    }
    AppendLatestExtendsHistory(rows + [human], ai);
    var before := History(rows, userId, sessionId);
    var added := [("human", input), ("ai", text)];
    assert rows + TurnRows(userId, sessionId, input, text, now) == rows + [human] + [ai];
    assert History(rows + TurnRows(userId, sessionId, input, text, now), userId, sessionId) == before + added;
    AsMessagesAppend(before, added);
    assert AsMessages(added) == TurnMessages(input, text);
  }

  /** The log and the cache agree about a turn: the session's replayed
      history gains the same two messages, and a session first seen in this
      turn is cached exactly as the log now replays it. */
  lemma TurnLogMatchesCache(s: TurnState, userId: string, sessionId: string, input: string,
                            chat: seq<Message> -> Option<string>, summarize: seq<Message> -> Option<string>, now: int)
    requires chat(Prompt(s, userId, sessionId, input)).Some?
    requires forall i :: 0 <= i < |s.rows| ==> s.rows[i].timestamp <= now
    ensures var text := chat(Prompt(s, userId, sessionId, input)).value;
      var t := Turn(s, userId, sessionId, input, chat, summarize, now).0;
      && AsMessages(History(t.rows, userId, sessionId)) ==
           AsMessages(History(s.rows, userId, sessionId)) + TurnMessages(input, text)
      && (sessionId !in s.store ==> t.store[sessionId] == AsMessages(History(t.rows, userId, sessionId)))
  {
    var text := chat(Prompt(s, userId, sessionId, input)).value;
    TurnRecordsExchange(s, userId, sessionId, input, chat, summarize, now);
    LogReplaysTurn(s.rows, userId, sessionId, input, text, now);
  }

  /** The module-level state: the session-keyed history cache, the user-keyed
      summary cache, and the durable store they sit in front of. */
  class Gateway {
    var store: map<string, seq<Message>>
    var summaryCache: map<string, string>
    const db: ChatStore

    ghost predicate Valid()
      reads this, db
    {
      CacheAgrees(summaryCache, db.summaries)
    }

    constructor (db: ChatStore)
      ensures this.db == db && store == map[] && summaryCache == map[] && Valid()
    {
      this.db := db;
      store := map[];
      summaryCache := map[];
    }

    /** The part of the state a turn reads and changes. */
    function State(): TurnState
      reads this, db
    {
      TurnState(store, db.rows, db.summaries, summaryCache)
    }
    /** `session_summary_cache.get(user_id) or get_user_summary(user_id)`. */
    function TurnSummary(userId: string): (s: string)
      reads this, db
      ensures userId in summaryCache && summaryCache[userId] != [] ==> s == summaryCache[userId]
      ensures (userId !in summaryCache || summaryCache[userId] == []) ==> s == db.GetUserSummary(userId)
    {
      if userId in summaryCache && summaryCache[userId] != [] then summaryCache[userId]
      else db.GetUserSummary(userId)
    }

    /** Because the cache is only ever written together with the durable
        store, the summary a turn uses is always the durable one. */
    lemma CacheAgreesWithStore(userId: string)
      requires Valid()
      ensures TurnSummary(userId) == SummaryOf(db.summaries, userId)
    {
    }

    /** `update_summary`: the durable summary (or the sentinel) and the snippet
        go to the summariser; its stripped answer is saved, cached and returned. */
    method UpdateSummary(userId: string, snippet: string, summarize: seq<Message> -> Option<string>)
      returns (r: Option<string>)
      requires Valid()
      modifies this, db
      ensures Valid()
      ensures store == old(store) && db.rows == old(db.rows)
      ensures db.historyTableExists == old(db.historyTableExists) && db.summaryTableExists == old(db.summaryTableExists)
      ensures var out := summarize(SummaryPrompt(OrSentinel(SummaryOf(old(db.summaries), userId)), snippet));
        && (out.None? ==> r.None?)
        && (out.Some? ==> r == Some(Strip(out.value)))
        && SummaryRefreshed(out, userId, old(summaryCache), old(db.summaries), summaryCache, db.summaries)
    {
      var oldSummary := db.GetUserSummary(userId);
      var out := summarize(SummaryPrompt(OrSentinel(oldSummary), snippet));
      if out.None? {
        return None;
      }
      var newSummary := Strip(out.value);
      db.SaveUserSummary(userId, newSummary);
      summaryCache := summaryCache[userId := newSummary];
      r := Some(newSummary);
    }

    /** Loads the session into the cache unless it is there already. */
    method EnsureSession(userId: string, sessionId: string)
      modifies this
      ensures store == old(store)[sessionId := HistoryOf(old(store), db.rows, userId, sessionId)]
      ensures sessionId in old(store) ==> store == old(store)
      ensures summaryCache == old(summaryCache)
    {
      if sessionId !in store {
        var history := Replay(db.LoadChatHistory(userId, sessionId));
        store := store[sessionId := history];
      }
    }

    /** The start of a turn: the summary to use, the session made present in
        the cache, and the prompt built from both. */
    method PrepareTurn(userId: string, sessionId: string, input: string) returns (prompt: seq<Message>)
      requires Valid()
      modifies this
      ensures Valid()
      ensures State() == Started(old(State()), userId, sessionId)
      ensures prompt == Prompt(old(State()), userId, sessionId, input)
    {
      var summary := TurnSummary(userId);
      CacheAgreesWithStore(userId);
      EnsureSession(userId, sessionId);
      prompt := TurnPrompt(summary, store[sessionId], input);
    }

    /** What follows the model call: nothing when it raised; otherwise the
        pair of messages goes into the session cache, the two rows into the
        log (human first), then the summary is refreshed. */
    method Conclude(userId: string, sessionId: string, input: string, reply: Option<string>,
                    summarize: seq<Message> -> Option<string>, now: int)
      returns (outcome: TurnOutcome)
      requires Valid() && sessionId in store
      modifies this, db
      ensures Valid()
      ensures db.historyTableExists == old(db.historyTableExists) && db.summaryTableExists == old(db.summaryTableExists)
      ensures (State(), outcome) == Concluded(old(State()), userId, sessionId, input, reply, summarize, now)
    {
      if reply.None? {
        return ModelFailed;
      }
      var text := reply.value;
      ghost var s0 := State();
      store := store[sessionId := store[sessionId] + TurnMessages(input, text)];
      db.SaveMessage(userId, sessionId, "human", input, now);
      db.SaveMessage(userId, sessionId, "ai", text, now);
      ghost var logged := State();
      assert logged == s0.(store := s0.store[sessionId := s0.store[sessionId] + TurnMessages(input, text)],
                           rows := s0.rows + TurnRows(userId, sessionId, input, text, now));
      var updated := UpdateSummary(userId, Snippet(input, text), summarize);
      outcome := if updated.None? then SummaryFailed else Reply(text);
      assert State() == logged.(summaries := db.summaries, cache := summaryCache);
    }

    /** `run_conversation`: the new state and the outcome are those of `Turn`
        from the old state. */
    method RunConversation(userId: string, sessionId: string, input: string,
                           chat: seq<Message> -> Option<string>,
                           summarize: seq<Message> -> Option<string>, now: int)
      returns (outcome: TurnOutcome)
      requires Valid()
      modifies this, db
      ensures Valid()
      ensures db.historyTableExists == old(db.historyTableExists) && db.summaryTableExists == old(db.summaryTableExists)
      ensures (State(), outcome) == Turn(old(State()), userId, sessionId, input, chat, summarize, now)
    {
      var prompt := PrepareTurn(userId, sessionId, input);
      var reply := chat(prompt);
      outcome := Conclude(userId, sessionId, input, reply, summarize, now);
    }

    /** `run_conversation_stream`. The non-empty chunks are sent in order as
        they arrive; the turn is the plain one of a model answering their
        concatenation, so a stream that raises has sent what it produced and
        stores nothing. */
    method RunConversationStream(userId: string, sessionId: string, input: string,
                                 stream: seq<Message> -> StreamReply,
                                 summarize: seq<Message> -> Option<string>, now: int)
      returns (sent: seq<string>, outcome: TurnOutcome)
      requires Valid()
      modifies this, db
      ensures Valid()
      ensures db.historyTableExists == old(db.historyTableExists) && db.summaryTableExists == old(db.summaryTableExists)
      ensures sent == Filter(stream(Prompt(old(State()), userId, sessionId, input)).chunks, NonEmpty)
      ensures (State(), outcome) == Turn(old(State()), userId, sessionId, input, AsChat(stream), summarize, now)
    {
      var prompt := PrepareTurn(userId, sessionId, input);
      var reply := stream(prompt);
      var full;
      sent, full := Accumulate(reply.chunks);
      outcome := Conclude(userId, sessionId, input, if reply.completed then Some(full) else None, summarize, now);
    }
  }

  /** The history cache is keyed by session alone: after one user's turn in a
      session, another user's turn in the same session starts from the first
      user's messages, not from its own stored rows. */
  method SharedSessionScenario(db: ChatStore, alice: string, bob: string, session: string,
                               chat: seq<Message> -> Option<string>,
                               summarize: seq<Message> -> Option<string>)
    requires alice != bob
    modifies db
  {
    var g := new Gateway(db);
    var s0 := g.State();
    var first := g.RunConversation(alice, session, "hello", chat, summarize, 0);
    if chat(Prompt(s0, alice, session, "hello")).None? {
      TurnModelRaises(s0, alice, session, "hello", chat, summarize, 0);
      assert session in g.store;
    } else {
      TurnRecordsExchange(s0, alice, session, "hello", chat, summarize, 0);
      assert Message("human", "hello") in g.store[session];
    }
    var before := g.store[session];
    assert HistoryOf(g.store, g.db.rows, bob, session) == before;
  }
}
