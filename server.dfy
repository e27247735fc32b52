/** The relay: the process-wide session store and the `/api/chat`,
    `/api/clear` and `/health` handlers, run one request at a time. */
module Server {
  import opened Js
  import opened Strings
  import opened History
  import opened Upstream

  const Greeting := "Hello! I'm ready to chat. What would you like to know?"
  const Apology := "I'm having trouble connecting to the AI service right now. Please check your API key and try again."

  /** The body of a `/api/chat` request: an absent `message` reads as `""`,
      an absent or null `sessionId` as `None`. */
  datatype ChatRequest = ChatRequest(message: string, sessionId: Option<string>)

  /** The status and JSON body of a `/api/chat` response; `error` is only present on a 502. */
  datatype ChatResponse = ChatResponse(status: nat, reply: string, sessionId: string, error: Option<string>)

  datatype HealthReport = HealthReport(ok: bool, model: string, apiKeyConfigured: bool, activeSessions: nat)

  class ChatServer {
    const config: Config
    /** The `conversations` map: session id to its history. */
    var conversations: map<string, seq<Turn>>

    /** Every stored history respects the cap and holds only user and assistant turns. */
    ghost predicate Valid()
      reads this
    {
      forall id :: id in conversations ==> WellFormed(conversations[id])
    }

    /** The history of a session, empty when the session is unknown. */
    function HistoryOf(id: string): seq<Turn>
      reads this
    {
      if id in conversations then conversations[id] else []
    }

    /** A server with the given configuration and an empty store. */
    constructor (config: Config)
      ensures Valid()
      ensures this.config == config
      ensures conversations == map[]
    {
      this.config := config;
      conversations := map[];
    }

    /** `getConversationHistory`: an unknown id gets an empty history stored
        for it; a known id's history is returned unchanged. */
    method GetConversationHistory(id: string) returns (h: seq<Turn>)
      requires Valid()
      modifies this
      ensures Valid()
      ensures id in old(conversations) ==> conversations == old(conversations) && h == old(conversations[id])
      ensures id !in old(conversations) ==> conversations == old(conversations)[id := []] && h == []
      ensures id in conversations && h == conversations[id]
    {
      if id !in conversations {
        conversations := conversations[id := []];
      }
      h := conversations[id];
    }

    /** `addToHistory`: the turn goes at the end and the oldest turn is dropped
        once the history holds more than `MaxTurns`. No other session changes. */
    method AddToHistory(id: string, role: Role, content: string)
      requires Valid() && role != System
      modifies this
      ensures Valid()
      ensures conversations == old(conversations)[id := Push(old(HistoryOf(id)), Turn(role, content))]
    {
      var history := GetConversationHistory(id);
      history := history + [Turn(role, content)];
      if |history| > MaxTurns {
        history := history[1..];
      }
      conversations := conversations[id := history];
      PushKeepsWellFormed(old(HistoryOf(id)), Turn(role, content));
    }

    /** `POST /api/chat`. The session id is the one supplied, whatever it is
        (`""` included), or `minted` when none is. A message that trims to
        nothing gets the greeting and touches no history. */
    method Chat(req: ChatRequest, minted: string, upstream: Payload -> UpstreamOutcome) returns (resp: ChatResponse)
      requires Valid()
      modifies this
      ensures Valid()
      ensures resp.sessionId == req.sessionId.OrElse(minted)
      ensures Trim(req.message) == "" ==>
                resp == ChatResponse(200, Greeting, resp.sessionId, None) && conversations == old(conversations)
      ensures Trim(req.message) != "" ==>
                Relayed(config, resp.sessionId, Trim(req.message), upstream, old(conversations), conversations, resp)
    {
      var message := Trim(req.message);
      var id := req.sessionId.OrElse(minted);
      if message == "" {
        resp := ChatResponse(200, Greeting, id, None);
        return;
      }
      resp := Converse(id, message, upstream);
    }

    /** The part of the chat handler after the empty-message check. */
    method Converse(id: string, message: string, upstream: Payload -> UpstreamOutcome) returns (resp: ChatResponse)
      requires Valid()
      modifies this
      ensures Valid()
      ensures Relayed(config, id, message, upstream, old(conversations), conversations, resp)
    {
      ghost var store := conversations;
      ghost var asked := Push(HistoryOf(id), Turn(User, message));
      AddToHistory(id, User, message);
      assert conversations == store[id := asked];
      var history := GetConversationHistory(id);
      assert history == asked;
      var completion := FetchCompletion(config, history, upstream);
      match completion {
        case Reply(text) =>
          AddToHistory(id, Assistant, text);
          UpdateTwice(store, id, asked, Push(asked, Turn(Assistant, text)));
          resp := ChatResponse(200, text, id, None);
        case Failed(error) =>
          resp := ChatResponse(502, Apology, id, Some(error));
      }
    }

    /** `POST /api/clear`: always succeeds; deletes the session only when the
        id is truthy and stored, so repeating it changes nothing. */
    method Clear(sessionId: Option<string>) returns (success: bool)
      requires Valid()
      modifies this
      ensures Valid()
      ensures success
      ensures conversations == Cleared(old(conversations), sessionId)
    {
      if sessionId.Some? && Truthy(sessionId.value) && sessionId.value in conversations {
        conversations := conversations - {sessionId.value};
      }
      success := true;
    }

    /** `GET /health`. */
    method Health() returns (report: HealthReport)
      ensures report.ok && report.model == config.model
      ensures report.apiKeyConfigured <==> config.apiKey != ""
      ensures report.activeSessions == |conversations|
    {
      report := HealthReport(true, config.model, config.apiKey != "", |conversations|);
    }
  }

  /** Process start: the configuration is read once from the environment
      variables, and the store is empty. */
  method Start(keyVar: Option<string>, modelVar: Option<string>) returns (server: ChatServer)
    ensures server.Valid() && server.conversations == map[]
    ensures server.config == LoadConfig(keyVar, modelVar)
  {
    server := new ChatServer(LoadConfig(keyVar, modelVar));
  }

  /** Storing a session's list twice leaves only the second write: the
      user turn's intermediate entry is overwritten by the reply's. */
  lemma UpdateTwice(m: map<string, seq<Turn>>, k: string, a: seq<Turn>, b: seq<Turn>)
    ensures m[k := a][k := b] == m[k := b]
  {
  }

  /** What a non-empty message does to the store and what it answers: the
      user turn is stored, the upstream service is asked with the capped
      history, and only a reply from it is stored as an assistant turn; any
      failure answers 502 with the apology and the error. */
  ghost predicate Relayed(config: Config, id: string, message: string, upstream: Payload -> UpstreamOutcome,
                          before: map<string, seq<Turn>>, after: map<string, seq<Turn>>, resp: ChatResponse)
  {
    var past := if id in before then before[id] else [];
    var asked := Push(past, Turn(User, message));
    match FetchCompletion(config, asked, upstream)
    case Reply(text) =>
      && resp == ChatResponse(200, text, id, None)
      && after == before[id := Push(asked, Turn(Assistant, text))]
    case Failed(error) =>
      && resp == ChatResponse(502, Apology, id, Some(error))
      && after == before[id := asked]
  }

  /** After a relayed message the session holds the most recent turns of its
      earlier history followed by the user turn and, on success only, the
      reply; every other session is as it was. */
  lemma RelayedKeepsRecent(config: Config, id: string, message: string, upstream: Payload -> UpstreamOutcome,
                           before: map<string, seq<Turn>>, after: map<string, seq<Turn>>, resp: ChatResponse)
    requires Relayed(config, id, message, upstream, before, after, resp)
    requires id in before ==> |before[id]| <= MaxTurns
    ensures var past := if id in before then before[id] else [];
      && id in after
      && (resp.status == 200 ==> after[id] == Recent(past + [Turn(User, message), Turn(Assistant, resp.reply)]))
      && (resp.status != 200 ==> resp.status == 502 && after[id] == Recent(past + [Turn(User, message)]))
    ensures forall other :: other != id ==> (other in after <==> other in before)
    ensures forall other :: other != id && other in before ==> after[other] == before[other]
  {
    var past := if id in before then before[id] else [];
    PushIsRecent(past, Turn(User, message));
    PushTwice(past, Turn(User, message), Turn(Assistant, resp.reply));
  }

  /** The store after `/api/clear`: the session is gone when the id is
      truthy; a missing, null or empty id leaves the store as it was. */
  function Cleared(store: map<string, seq<Turn>>, sessionId: Option<string>): (r: map<string, seq<Turn>>)
    ensures sessionId.Some? && Truthy(sessionId.value) ==> sessionId.value !in r && r == store - {sessionId.value}
    ensures sessionId.None? || !Truthy(sessionId.value) ==> r == store
  {
    if sessionId.Some? && Truthy(sessionId.value) && sessionId.value in store then store - {sessionId.value} else store
  }

  /** Clearing a session twice is clearing it once, and no other session is touched. */
  lemma ClearIsIdempotent(store: map<string, seq<Turn>>, sessionId: Option<string>)
    ensures Cleared(Cleared(store, sessionId), sessionId) == Cleared(store, sessionId)
    ensures forall id :: id in store && sessionId != Some(id) ==> id in Cleared(store, sessionId) && Cleared(store, sessionId)[id] == store[id]
  {
  }

  /** A session keyed by the empty string can never be cleared. */
  lemma EmptyIdNeverCleared(store: map<string, seq<Turn>>, sessionId: Option<string>)
    requires "" in store
    ensures "" in Cleared(store, sessionId) && Cleared(store, sessionId)[""] == store[""]
  {
  }
}
