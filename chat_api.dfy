/**
 * The chat endpoint: the process-wide map from session id to message
 * history, the trimmed window sent to the agent, the positional guess at
 * which tool message belongs to which tool, the read-then-delete of the
 * cached tool payloads, and the session reset.
 *
 * The agent is a parameter: a function from the window it is given to what
 * it did, namely the cache entries its tool calls wrote and either the
 * message list it returned or the exception it raised.
 */
module ChatApi {
  import opened Common
  import KeyValue
  import McpServer

  // ---------------------------------------------------------------------
  // Messages and the agent
  // ---------------------------------------------------------------------

  /** LangChain messages; a tool message carries the name of its tool. */
  datatype Message =
    | SystemMessage(content: string)
    | HumanMessage(content: string)
    | AiMessage(content: string)
    | ToolMessage(name: string, content: string)

  datatype AgentOutcome = Returned(messages: seq<Message>) | Raised(error: string)

  /** What one agent invocation did: the cache writes of its tool calls, then its outcome. */
  datatype AgentRun = AgentRun(writes: map<string, string>, outcome: AgentOutcome)

  /**
   * The endpoint's answer: the agent's last message, the two cached payloads
   * (raw JSON text, or None), the two positionally chosen tool messages (or
   * None) and the agent's whole message list; or `{"error": ...}`.
   */
  datatype ChatResponse =
    | Reply(
        response: Message,
        googlePlaces: Option<string>,
        partnerPlaces: Option<string>,
        googleTool: Option<Message>,
        partnerTool: Option<Message>,
        messages: seq<Message>)
    | ErrorReply(error: string)

  datatype ResetReply = ResetReply(status: string, message: string)

  /** `str(e)` of the `IndexError` that a too-short message list raises. */
  const INDEX_ERROR := "list index out of range"

  /** The number of Human/AI messages the window keeps besides the system message. */
  const WINDOW_TURNS: nat := 6

  // ---------------------------------------------------------------------
  // The system prompt
  // ---------------------------------------------------------------------

  /** The persona text; its wording is configuration, not logic. */
  const PERSONA := "<persona instructions>\n"
  const SESSION_LABEL := "- `session_id`: "
  const TOKEN_LABEL := "\n- token de acceso de Clapzy: "

  /**
   * `system_prompt(session_id, token)`: the persona, then the session id and
   * the token verbatim after their labels, so the agent can pass both to the
   * tools.
   */
  function SystemPrompt(sessionId: string, token: string): (p: string)
    ensures var s := |PERSONA + SESSION_LABEL|;
      var t := s + |sessionId + TOKEN_LABEL|;
      && t + |token| <= |p|
      && p[..|PERSONA|] == PERSONA
      && p[s - |SESSION_LABEL|..s] == SESSION_LABEL
      && p[s..s + |sessionId|] == sessionId
      && p[t - |TOKEN_LABEL|..t] == TOKEN_LABEL
      && p[t..t + |token|] == token
  {
    PERSONA + SESSION_LABEL + sessionId + TOKEN_LABEL + token + "\n"
  }

  // ---------------------------------------------------------------------
  // The trimmed window
  // ---------------------------------------------------------------------

  predicate IsConversational(m: Message)
  {
    m.HumanMessage? || m.AiMessage?
  }

  /** `[msg for msg in s if isinstance(msg, (HumanMessage, AIMessage))]`. */
  function Conversational(s: seq<Message>): (r: seq<Message>)
    ensures |r| <= |s|
    ensures forall i :: 0 <= i < |r| ==> IsConversational(r[i])
    ensures forall m :: m in r <==> m in s && IsConversational(m)
  {
    if s == [] then []
    else (if IsConversational(s[0]) then [s[0]] else []) + Conversational(s[1..])
  }

  /** Python's `s[-n:]`. */
  function LastN<T>(s: seq<T>, n: nat): seq<T>
  {
    if |s| <= n then s else s[|s| - n..]
  }

  /** `[history[0]] + [Human/AI messages of history[1:]][-6:]`. */
  function Trimmed(history: seq<Message>): (window: seq<Message>)
    requires |history| >= 1
    ensures 1 <= |window| <= WINDOW_TURNS + 1
    ensures window[0] == history[0]
    ensures forall i :: 1 <= i < |window| ==> IsConversational(window[i]) && window[i] in history[1..]
  {
    [history[0]] + LastN(Conversational(history[1..]), WINDOW_TURNS)
  }

  /** Filtering distributes over concatenation, so it keeps the original order. */
  lemma {:induction false} ConversationalAppend(a: seq<Message>, b: seq<Message>)
    ensures Conversational(a + b) == Conversational(a) + Conversational(b)
  {
    if a == [] {
      assert a + b == b;
    } else {
      assert (a + b)[1..] == a[1..] + b;
      ConversationalAppend(a[1..], b);
    }
  }

  /**
   * After the window's system message come the newest Human/AI messages of
   * the history, in history order: all of them when there are at most six,
   * otherwise exactly the last six.
   */
  lemma WindowHoldsNewestTurns(history: seq<Message>)
    requires |history| >= 1
    ensures var turns := Conversational(history[1..]);
      var window := Trimmed(history);
      && |window| - 1 == (if |turns| <= WINDOW_TURNS then |turns| else WINDOW_TURNS)
      && window[1..] == turns[|turns| - (|window| - 1)..]
  {
  }

  /** Appending a Human/AI message appends it to the filtered sequence. */
  lemma ConversationalSnoc(s: seq<Message>, m: Message)
    requires IsConversational(m)
    ensures Conversational(s + [m]) == Conversational(s) + [m]
  {
    ConversationalAppend(s, [m]);
    assert [m][1..] == [];
  }

  /** The message just appended is the last message the agent is given. */
  lemma WindowEndsWithNewMessage(before: seq<Message>, m: Message)
    requires |before| >= 1
    requires IsConversational(m)
    ensures var window := Trimmed(before + [m]);
      |window| >= 2 && window[|window| - 1] == m
  {
    var h := before + [m];
    assert h[1..] == before[1..] + [m];
    ConversationalSnoc(before[1..], m);
    var kept := LastN(Conversational(before[1..]) + [m], WINDOW_TURNS);
    assert kept[|kept| - 1] == m;
    assert Trimmed(h) == [h[0]] + kept;
  }

  // ---------------------------------------------------------------------
  // Seeding and appending
  // ---------------------------------------------------------------------

  /** The history of `sessionId` before the user message: the stored one, or a fresh system message. */
  function SeededHistory(histories: map<string, seq<Message>>, sessionId: string, token: string): (h: seq<Message>)
    ensures sessionId in histories ==> h == histories[sessionId]
    ensures sessionId !in histories ==> h == [SystemMessage(SystemPrompt(sessionId, token))]
  {
    if sessionId in histories then histories[sessionId] else [SystemMessage(SystemPrompt(sessionId, token))]
  }

  /** The agent message kept in the history: `messages[-1]`, read before anything else can fail. */
  function AppendedReply(outcome: AgentOutcome): (kept: seq<Message>)
    ensures |kept| <= 1
    ensures |kept| == 1 <==> outcome.Returned? && |outcome.messages| >= 1
    ensures |kept| == 1 ==> kept[0] == outcome.messages[|outcome.messages| - 1]
  {
    match outcome
    case Returned(messages) =>
      if |messages| >= 1 then [messages[|messages| - 1]] else []
    case Raised(_) => []
  }

  // ---------------------------------------------------------------------
  // Positional tool selection
  // ---------------------------------------------------------------------

  predicate IsToolNamed(m: Message, name: string)
  {
    m.ToolMessage? && m.name == name
  }

  /** `messages[-2]` if it is the Google tool's message, else `messages[-3]`. */
  function GoogleToolSlot(messages: seq<Message>): (m: Message)
    requires |messages| >= 3
    ensures IsToolNamed(messages[|messages| - 2], McpServer.GOOGLE_PLACES_TOOL) ==> m == messages[|messages| - 2]
    ensures !IsToolNamed(messages[|messages| - 2], McpServer.GOOGLE_PLACES_TOOL) ==> m == messages[|messages| - 3]
  {
    var n := |messages|;
    if IsToolNamed(messages[n - 2], McpServer.GOOGLE_PLACES_TOOL) then messages[n - 2] else messages[n - 3]
  }

  /** `messages[-3]` if it is the partner tool's message, else `messages[-2]`. */
  function PartnerToolSlot(messages: seq<Message>): (m: Message)
    requires |messages| >= 3
    ensures IsToolNamed(messages[|messages| - 3], McpServer.PARTNER_TOOL) ==> m == messages[|messages| - 3]
    ensures !IsToolNamed(messages[|messages| - 3], McpServer.PARTNER_TOOL) ==> m == messages[|messages| - 2]
  {
    var n := |messages|;
    if IsToolNamed(messages[n - 3], McpServer.PARTNER_TOOL) then messages[n - 3] else messages[n - 2]
  }

  /** `msg if msg.type == "tool" else None`. */
  function ReportIfTool(m: Message): (r: Option<Message>)
    ensures r.Some? <==> m.ToolMessage?
    ensures r.Some? ==> r.value == m
  {
    if m.ToolMessage? then Some(m) else None
  }

  /**
   * When the agent ends with both tool messages, in either order, followed by
   * its reply, each slot reports the message of its own tool.
   */
  lemma SlotsFindBothTools(messages: seq<Message>, google: string, partner: string)
    requires |messages| >= 3
    requires var n := |messages|;
      || (messages[n - 3] == ToolMessage(McpServer.PARTNER_TOOL, partner)
          && messages[n - 2] == ToolMessage(McpServer.GOOGLE_PLACES_TOOL, google))
      || (messages[n - 3] == ToolMessage(McpServer.GOOGLE_PLACES_TOOL, google)
          && messages[n - 2] == ToolMessage(McpServer.PARTNER_TOOL, partner))
    ensures ReportIfTool(GoogleToolSlot(messages)) == Some(ToolMessage(McpServer.GOOGLE_PLACES_TOOL, google))
    ensures ReportIfTool(PartnerToolSlot(messages)) == Some(ToolMessage(McpServer.PARTNER_TOOL, partner))
  {
  }

  /**
   * When only the Google tool ran (its message just before the reply, and no
   * partner tool message before it), the partner slot reports the Google
   * tool's message too: the positions alone cannot tell the tools apart.
   */
  lemma OneToolFillsBothSlots(messages: seq<Message>, google: string)
    requires |messages| >= 3
    requires messages[|messages| - 2] == ToolMessage(McpServer.GOOGLE_PLACES_TOOL, google)
    requires !IsToolNamed(messages[|messages| - 3], McpServer.PARTNER_TOOL)
    ensures ReportIfTool(GoogleToolSlot(messages)) == Some(ToolMessage(McpServer.GOOGLE_PLACES_TOOL, google))
    ensures ReportIfTool(PartnerToolSlot(messages)) == Some(ToolMessage(McpServer.GOOGLE_PLACES_TOOL, google))
  {
  }

  /**
   * The Google slot reports a Google tool message exactly when one sits at
   * `[-2]` or `[-3]`; the one at `[-2]` wins when both do.
   */
  lemma GoogleSlotFindsGoogleTool(messages: seq<Message>)
    requires |messages| >= 3
    ensures var n := |messages|;
      var r := ReportIfTool(GoogleToolSlot(messages));
      && (r.Some? && IsToolNamed(r.value, McpServer.GOOGLE_PLACES_TOOL) <==>
            IsToolNamed(messages[n - 2], McpServer.GOOGLE_PLACES_TOOL) || IsToolNamed(messages[n - 3], McpServer.GOOGLE_PLACES_TOOL))
      && (IsToolNamed(messages[n - 2], McpServer.GOOGLE_PLACES_TOOL) ==> r == Some(messages[n - 2]))
  {
  }

  /**
   * The partner slot reports a partner tool message exactly when one sits at
   * `[-3]` or `[-2]`; the one at `[-3]` wins when both do.
   */
  lemma PartnerSlotFindsPartnerTool(messages: seq<Message>)
    requires |messages| >= 3
    ensures var n := |messages|;
      var r := ReportIfTool(PartnerToolSlot(messages));
      && (r.Some? && IsToolNamed(r.value, McpServer.PARTNER_TOOL) <==>
            IsToolNamed(messages[n - 3], McpServer.PARTNER_TOOL) || IsToolNamed(messages[n - 2], McpServer.PARTNER_TOOL))
      && (IsToolNamed(messages[n - 3], McpServer.PARTNER_TOOL) ==> r == Some(messages[n - 3]))
  {
  }

  /**
   * Unless `[-3]` is the partner tool's message, the partner slot reports
   * whatever tool message sits at `[-2]`, of any tool.
   */
  lemma PartnerSlotTakesAnyToolAtSecondLast(messages: seq<Message>)
    requires |messages| >= 3
    requires !IsToolNamed(messages[|messages| - 3], McpServer.PARTNER_TOOL)
    ensures ReportIfTool(PartnerToolSlot(messages)) ==
      (if messages[|messages| - 2].ToolMessage? then Some(messages[|messages| - 2]) else None)
  {
  }

  /** The city validator's message just before the reply is reported as the partner tool's message. */
  lemma CityCheckReportedAsPartnerTool(messages: seq<Message>, google: string, check: string)
    requires |messages| >= 3
    requires messages[|messages| - 3] == ToolMessage(McpServer.GOOGLE_PLACES_TOOL, google)
    requires messages[|messages| - 2] == ToolMessage(McpServer.CITY_CHECK_TOOL, check)
    ensures ReportIfTool(PartnerToolSlot(messages)) == Some(ToolMessage(McpServer.CITY_CHECK_TOOL, check))
    ensures ReportIfTool(GoogleToolSlot(messages)) == Some(ToolMessage(McpServer.GOOGLE_PLACES_TOOL, google))
  {
  }

  /**
   * When the agent calls the tools one after another, each followed by its
   * own AI message, the Google tool's message is out of reach and the
   * Google slot reports nothing.
   */
  lemma SequentialCallsLoseGoogleTool(
    earlier: seq<Message>, google: string, partner: string, between: string, reply: string)
    ensures var messages := earlier + [ToolMessage(McpServer.GOOGLE_PLACES_TOOL, google), AiMessage(between),
                                       ToolMessage(McpServer.PARTNER_TOOL, partner), AiMessage(reply)];
      && ReportIfTool(GoogleToolSlot(messages)) == None
      && ReportIfTool(PartnerToolSlot(messages)) == Some(ToolMessage(McpServer.PARTNER_TOOL, partner))
  {
  }

  /** A reported tool message is a tool message and one of the two messages before the reply. */
  lemma ReportedToolsAreLastTwo(messages: seq<Message>)
    requires |messages| >= 3
    ensures var n := |messages|;
      forall r :: r in [ReportIfTool(GoogleToolSlot(messages)), ReportIfTool(PartnerToolSlot(messages))] && r.Some? ==>
        r.value.ToolMessage? && (r.value == messages[n - 2] || r.value == messages[n - 3])
  {
  }

  // ---------------------------------------------------------------------
  // Read-then-delete of the cached payloads
  // ---------------------------------------------------------------------

  /**
   * `raw = redis.get(key); if raw: result = raw; redis.delete(key)`: the
   * value and the entries afterwards. An empty string is falsy, so it is
   * neither returned nor deleted.
   */
  function TakeEntry(entries: map<string, string>, key: string): (res: (Option<string>, map<string, string>))
    ensures res.0.Some? <==> key in entries && entries[key] != ""
    ensures res.0.Some? ==> res.0.value == entries[key] && key !in res.1
    ensures res.0.None? ==> res.1 == entries
    ensures forall k :: k != key ==> (k in res.1 <==> k in entries)
    ensures forall k :: k != key && k in res.1 ==> res.1[k] == entries[k]
  {
    if key in entries && entries[key] != "" then (Some(entries[key]), entries - {key}) else (None, entries)
  }

  /** A payload is read at most once: a second take of the same key finds nothing. */
  lemma TakeIsSingleRead(entries: map<string, string>, key: string)
    ensures TakeEntry(TakeEntry(entries, key).1, key) == (None, TakeEntry(entries, key).1)
  {
  }

  /** The three cache keys of a session are pairwise distinct. */
  lemma SessionKeysDistinct(sessionId: string)
    ensures sessionId != sessionId + McpServer.QUERY_KEY_SUFFIX
    ensures sessionId != sessionId + McpServer.PARTNER_KEY_SUFFIX
    ensures sessionId + McpServer.QUERY_KEY_SUFFIX != sessionId + McpServer.PARTNER_KEY_SUFFIX
  {
  }

  /** What a search tool caches is always found by the turn's take, and removed. */
  lemma ToolPayloadIsTaken(entries: map<string, string>, key: string, records: seq<string>)
    ensures var payload := McpServer.JsonArray(records);
      TakeEntry(entries[key := payload], key) == (Some(payload), entries - {key})
  {
    var payload := McpServer.JsonArray(records);
    assert entries[key := payload] - {key} == entries - {key};
  }

  // ---------------------------------------------------------------------
  // The turn after the agent returns
  // ---------------------------------------------------------------------

  /**
   * The response and the cache entries after the agent ran, step by step as
   * `chat` does them: `messages[-1]`, the Google slot (`[-2]`, then `[-3]`),
   * the take of `{session_id}`, the partner slot (`[-3]`, then `[-2]`) and the
   * take of `{session_id}_clapzy`. A negative index past the front raises
   * `IndexError`, which the handler turns into `{"error": ...}` without
   * undoing what was already done.
   */
  function FinishTurn(entries: map<string, string>, sessionId: string, outcome: AgentOutcome)
    : (turn: (ChatResponse, map<string, string>))
    ensures turn.1.Keys <= entries.Keys
    ensures forall k :: k in turn.1 ==> turn.1[k] == entries[k]
    ensures forall k :: k in entries && k !in turn.1 ==>
      k == sessionId || k == sessionId + McpServer.PARTNER_KEY_SUFFIX
    ensures turn.0.Reply? ==> outcome.Returned? && turn.0.messages == outcome.messages
  {
    match outcome
    case Raised(e) => (ErrorReply(e), entries)
    case Returned(messages) =>
      var n := |messages|;
      if n < 2 then (ErrorReply(INDEX_ERROR), entries)
      else if n < 3 && !IsToolNamed(messages[n - 2], McpServer.GOOGLE_PLACES_TOOL) then (ErrorReply(INDEX_ERROR), entries)
      else
        var (google, afterGoogle) := TakeEntry(entries, sessionId);
        if n < 3 then (ErrorReply(INDEX_ERROR), afterGoogle)
        else
          var (partner, afterPartner) := TakeEntry(afterGoogle, sessionId + McpServer.PARTNER_KEY_SUFFIX);
          var response := Reply(
            messages[n - 1], google, partner,
            ReportIfTool(GoogleToolSlot(messages)), ReportIfTool(PartnerToolSlot(messages)),
            messages);
          (response, afterPartner)
  }

  /**
   * A turn replies exactly when the agent returned at least three messages;
   * the reply is then the agent's last message, which is also the one message
   * appended to the history.
   */
  lemma ReplyIsAppendedMessage(entries: map<string, string>, sessionId: string, outcome: AgentOutcome)
    ensures var response := FinishTurn(entries, sessionId, outcome).0;
      && (response.Reply? <==> outcome.Returned? && |outcome.messages| >= 3)
      && (response.Reply? ==> AppendedReply(outcome) == [response.response] && response.messages == outcome.messages)
  {
  }

  /**
   * On a reply, each payload is the value its key held (or None when absent
   * or empty), the key is then absent whenever a value was returned, and every
   * other key, `{session_id}_query` included, keeps its value.
   */
  lemma ReplyTakesBothPayloads(entries: map<string, string>, sessionId: string, outcome: AgentOutcome)
    requires outcome.Returned? && |outcome.messages| >= 3
    ensures var (response, after) := FinishTurn(entries, sessionId, outcome);
      var partnerKey := sessionId + McpServer.PARTNER_KEY_SUFFIX;
      var queryKey := sessionId + McpServer.QUERY_KEY_SUFFIX;
      && response.googlePlaces == (if sessionId in entries && entries[sessionId] != "" then Some(entries[sessionId]) else None)
      && response.partnerPlaces == (if partnerKey in entries && entries[partnerKey] != "" then Some(entries[partnerKey]) else None)
      && (response.googlePlaces.Some? ==> sessionId !in after)
      && (response.partnerPlaces.Some? ==> partnerKey !in after)
      && (forall k :: k != sessionId && k != partnerKey ==> (k in after <==> k in entries))
      && (forall k :: k != sessionId && k != partnerKey && k in after ==> after[k] == entries[k])
      && (queryKey in after <==> queryKey in entries)
      && (queryKey in after ==> after[queryKey] == entries[queryKey])
  {
  }

  /**
   * An agent exception, or a message list too short for the slots, answers
   * with an error; the cache is left as it was, except that a two-message
   * list whose first message is the Google tool's has its Google payload
   * consumed before the error.
   */
  lemma ErrorTurns(entries: map<string, string>, sessionId: string, outcome: AgentOutcome)
    requires outcome.Raised? || |outcome.messages| < 3
    ensures var (response, after) := FinishTurn(entries, sessionId, outcome);
      && response.ErrorReply?
      && (outcome.Raised? ==> response.error == outcome.error)
      && (after == entries || after == TakeEntry(entries, sessionId).1)
      && (after != entries ==>
            outcome.Returned? && |outcome.messages| == 2
            && IsToolNamed(outcome.messages[0], McpServer.GOOGLE_PLACES_TOOL))
      && (outcome.Returned? && |outcome.messages| == 2
            && IsToolNamed(outcome.messages[0], McpServer.GOOGLE_PLACES_TOOL) ==>
            after == TakeEntry(entries, sessionId).1)
  {
  }

  /**
   * The take is not gated on the tool having run in this turn: a payload
   * written by a turn whose agent then raised is handed to the next turn,
   * even when that turn's agent called no tool at all.
   */
  lemma StalePayloadReachesNextTurn(entries: map<string, string>, sessionId: string, payload: string, error: string, messages: seq<Message>)
    requires payload != ""
    requires |messages| >= 3
    requires forall i :: 0 <= i < |messages| ==> !messages[i].ToolMessage?
    ensures var (_, afterFailed) := FinishTurn(entries[sessionId := payload], sessionId, Raised(error));
      var (next, _) := FinishTurn(afterFailed, sessionId, Returned(messages));
      && next.Reply?
      && next.googlePlaces == Some(payload)
      && next.googleTool == None
      && next.partnerTool == None
  {
  }

  // ---------------------------------------------------------------------
  // The endpoint
  // ---------------------------------------------------------------------

  class ChatServer {
    /** `session_histories`: one message list per session id. */
    var histories: map<string, seq<Message>>
    /** The Redis store the tools write and the turn reads. */
    const cache: KeyValue.Cache

    /** Every stored history starts with its system message. */
    ghost predicate Valid()
      reads this
    {
      forall s :: s in histories ==> |histories[s]| >= 1 && histories[s][0].SystemMessage?
    }

    constructor (cache: KeyValue.Cache)
      ensures Valid()
      ensures histories == map[] && this.cache == cache
    {
      histories := map[];
      this.cache := cache;
    }

    /** The get-then-delete of one payload key, as `chat` does it for each of the two keys. */
    method TakePayload(key: string) returns (payload: Option<string>)
      modifies cache
      ensures (payload, cache.entries) == TakeEntry(old(cache.entries), key)
    {
      var raw := cache.Get(key);
      payload := None;
      if raw.Some? && raw.value != "" {
        payload := raw;
        cache.Delete(key);
      }
    }

    /**
     * `POST /chat`: seed an unseen session with its system message, append
     * the user message, run the agent on the trimmed window, append its last
     * message and answer; any exception becomes `{"error": ...}` without
     * rolling back the history.
     */
    method Chat(sessionId: string, userInput: string, token: string, agent: seq<Message> -> AgentRun)
      returns (response: ChatResponse)
      requires Valid()
      modifies this, cache
      ensures Valid()
      ensures sessionId in histories
      ensures histories - {sessionId} == old(histories) - {sessionId}
      ensures var before := SeededHistory(old(histories), sessionId, token) + [HumanMessage(userInput)];
        var run := agent(Trimmed(before));
        && Trimmed(before)[0].SystemMessage?
        && histories[sessionId] == before + AppendedReply(run.outcome)
        && (response, cache.entries) == FinishTurn(old(cache.entries) + run.writes, sessionId, run.outcome)
        && (run.outcome.Raised? ==>
              && response == ErrorReply(run.outcome.error)
              && histories[sessionId][|histories[sessionId]| - 1] == HumanMessage(userInput))
    {
      var history := AppendUserMessage(sessionId, userInput, token);

      var window := Trimmed(history);
      var run := agent(window);
      // The cache entries written by the tool calls the agent made.
      cache.entries := cache.entries + run.writes;

      match run.outcome {
        case Raised(e) =>
          response := ErrorReply(e);
          assert history + [] == history;
        case Returned(messages) =>
          response := CompleteTurn(sessionId, messages);
      }
    }

    /** Seed an unseen session with its system message, then append the user message. */
    method AppendUserMessage(sessionId: string, userInput: string, token: string) returns (history: seq<Message>)
      requires Valid()
      modifies this
      ensures Valid()
      ensures history == SeededHistory(old(histories), sessionId, token) + [HumanMessage(userInput)]
      ensures histories == old(histories)[sessionId := history]
    {
      if sessionId !in histories {
        histories := histories[sessionId := [SystemMessage(SystemPrompt(sessionId, token))]];
      }
      history := histories[sessionId] + [HumanMessage(userInput)];
      histories := histories[sessionId := history];
    }

    /** The part of `chat` after the agent returned `messages`. */
    method CompleteTurn(sessionId: string, messages: seq<Message>) returns (response: ChatResponse)
      requires sessionId in histories
      modifies this, cache
      ensures histories == old(histories)[sessionId := old(histories)[sessionId] + AppendedReply(Returned(messages))]
      ensures (response, cache.entries) == FinishTurn(old(cache.entries), sessionId, Returned(messages))
    {
      var n := |messages|;
      if n < 1 {
        assert histories[sessionId] + [] == histories[sessionId];
        return ErrorReply(INDEX_ERROR);
      }
      var aiMessage := messages[n - 1];
      histories := histories[sessionId := histories[sessionId] + [aiMessage]];
      if n < 2 {
        return ErrorReply(INDEX_ERROR);
      }
      var googleMessage;
      if IsToolNamed(messages[n - 2], McpServer.GOOGLE_PLACES_TOOL) {
        googleMessage := messages[n - 2];
      } else if n < 3 {
        return ErrorReply(INDEX_ERROR);
      } else {
        googleMessage := messages[n - 3];
      }
      var googlePlaces := TakePayload(sessionId);
      if n < 3 {
        return ErrorReply(INDEX_ERROR);
      }
      var partnerMessage := if IsToolNamed(messages[n - 3], McpServer.PARTNER_TOOL) then messages[n - 3] else messages[n - 2];
      var partnerPlaces := TakePayload(sessionId + McpServer.PARTNER_KEY_SUFFIX);
      response := Reply(aiMessage, googlePlaces, partnerPlaces,
                        ReportIfTool(googleMessage), ReportIfTool(partnerMessage), messages);
    }

    /**
     * `POST /reset_session`: forget the session's history, whether or not it
     * existed, and report success.
     */
    method ResetSession(sessionId: string) returns (reply: ResetReply)
      requires Valid()
      modifies this
      ensures Valid()
      ensures histories == old(histories) - {sessionId}
      ensures reply == ResetReply("success", ResetMessage(sessionId))
    {
      if sessionId in histories {
        histories := histories - {sessionId};
      }
      reply := ResetReply("success", ResetMessage(sessionId));
    }
  }

  function ResetMessage(sessionId: string): string
  {
    "Memoria completa de sesión " + sessionId + " reseteada correctamente"
  }

  /** Resetting twice is resetting once, other sessions keep their histories, and the next turn seeds afresh. */
  lemma ResetIsIdempotentAndReseeds(histories: map<string, seq<Message>>, sessionId: string, token: string)
    ensures (histories - {sessionId}) - {sessionId} == histories - {sessionId}
    ensures SeededHistory(histories - {sessionId}, sessionId, token) == [SystemMessage(SystemPrompt(sessionId, token))]
    ensures forall s :: s != sessionId && s in histories ==> s in histories - {sessionId} && (histories - {sessionId})[s] == histories[s]
  {
  }
}
