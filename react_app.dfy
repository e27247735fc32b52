/** The React client's controller: the session id, the displayed messages,
    the composer's text, the typing flag and the status line, together with
    the `localStorage` entries its effects keep in step with them. The
    effects are modelled by what they leave behind once they have run. */
module ReactApp {
  import opened Js
  import opened Strings
  import opened Client
  import opened ReactApi

  const SessionStorageKey := "chatbot_session_id"
  const HistoryPrefix := "chatbot_history"
  const WelcomeText := "Hello! I'm your AI assistant. How can I help you today?"
  const FallbackText := "Sorry, I'm having trouble connecting right now. Please try again."
  const ErrorAnnouncement := "Connection error occurred."

  /** `getHistoryKey(id)`: the storage key of a session's history. */
  function HistoryKey(id: string): (k: string)
    ensures |k| == |HistoryPrefix| + 1 + |id|
    ensures k[..|HistoryPrefix| + 1] == HistoryPrefix + "_" && k[|HistoryPrefix| + 1..] == id
  {
    HistoryPrefix + "_" + id
  }

  /** Distinct sessions never share a history entry. */
  lemma HistoryKeyInjective(a: string, b: string)
    requires HistoryKey(a) == HistoryKey(b)
    ensures a == b
  {
    assert a == HistoryKey(a)[|HistoryPrefix| + 1..];
  }

  /** Another session's history entry is another key. */
  lemma HistoryKeyChanges(a: string, b: string)
    requires a != b
    ensures HistoryKey(a) != HistoryKey(b)
  {
    if HistoryKey(a) == HistoryKey(b) {
      HistoryKeyInjective(a, b);
    }
  }

  /** No history entry overwrites the stored session id. */
  lemma HistoryKeyIsNotSessionKey(id: string)
    ensures HistoryKey(id) != SessionStorageKey
  {
    assert HistoryKey(id)[8] == 'h' != SessionStorageKey[8];
  }

  /** `welcomeMessage()`. */
  function Welcome(now: string): (m: Message)
    ensures m.sender == Bot && m.text == WelcomeText && m.id == "welcome"
  {
    Message("welcome", Bot, WelcomeText, now)
  }

  /** The stored history of `id` is a list with at least one message. */
  predicate HasSavedHistory(histories: map<string, Stored>, id: string) {
    HistoryKey(id) in histories && histories[HistoryKey(id)].Saved? && histories[HistoryKey(id)].messages != []
  }

  /** `loadHistory(id)`: the stored list when it is a non-empty list;
      otherwise (nothing stored, an empty list, a value that does not parse)
      just the welcome message. Never empty. */
  function LoadHistory(histories: map<string, Stored>, id: string, now: string): (r: seq<Message>)
    ensures r != []
    ensures HasSavedHistory(histories, id) ==> r == histories[HistoryKey(id)].messages
    ensures !HasSavedHistory(histories, id) ==> r == [Welcome(now)]
  {
    if HasSavedHistory(histories, id) then histories[HistoryKey(id)].messages else [Welcome(now)]
  }

  /** Loading a history that was just saved gives it back. */
  lemma LoadSaved(histories: map<string, Stored>, id: string, messages: seq<Message>, now: string)
    requires messages != []
    ensures LoadHistory(histories[HistoryKey(id) := Saved(messages)], id, now) == messages
  {
  }

  /** The text of the status line. */
  datatype Status = Ready | Connecting | Online | MockMode | Error {
    /** Each status shows its own text, and no two statuses show the same one. */
    function Label(): (s: string)
      ensures s == "Ready" <==> this.Ready?
      ensures s == "Connecting..." <==> this.Connecting?
      ensures s == "Online" <==> this.Online?
      ensures s == "Mock mode" <==> this.MockMode?
      ensures s == "Error" <==> this.Error?
    {
      match this
      case Ready => "Ready"
      case Connecting => "Connecting..."
      case Online => "Online"
      case MockMode => "Mock mode"
      case Error => "Error"
    }
  }

  /** How a send ended: `sendChatMessage` resolved with a result, or the
      send threw (which `sendChatMessage` itself never does). */
  datatype Settled = Resolved(result: ChatResult) | Rejected

  class ChatApp {
    var sessionId: string
    var messages: seq<Message>
    var input: string
    var isTyping: bool
    var status: Status
    /** The text of the screen-reader announcement region. */
    var announcement: string
    /** `localStorage["chatbot_session_id"]`. */
    var sessionSlot: Option<string>
    /** The history entries of `localStorage`, by key. */
    var histories: map<string, Stored>

    /** The effects have run: the session id and the displayed list are the
        ones stored, and the list is never empty. */
    ghost predicate Valid()
      reads this
    {
      && sessionSlot == Some(sessionId)
      && messages != []
      && HistoryKey(sessionId) in histories
      && histories[HistoryKey(sessionId)] == Saved(messages)
    }

    /** The first render: the session id is read or minted, its history is
        loaded (the welcome message when there is none) and stored back. */
    constructor Mount(slot: Option<string>, stored: map<string, Stored>, minted: string, now: string)
      ensures Valid()
      ensures (sessionId, sessionSlot) == LoadOrMint(slot, minted)
      ensures messages == LoadHistory(stored, sessionId, now)
      ensures histories == stored[HistoryKey(sessionId) := Saved(messages)]
      ensures input == "" && !isTyping && status == Ready && announcement == ""
    {
      var (id, slotAfter) := LoadOrMint(slot, minted);
      sessionId := id;
      sessionSlot := slotAfter;
      messages := LoadHistory(stored, id, now);
      histories := stored[HistoryKey(id) := Saved(LoadHistory(stored, id, now))];
      input := "";
      isTyping := false;
      status := Ready;
      announcement := "";
    }

    /** The composer's `onChange`. */
    method Edit(text: string)
      modifies this
      ensures input == text
      ensures sessionId == old(sessionId) && messages == old(messages) && isTyping == old(isTyping)
      ensures status == old(status) && announcement == old(announcement)
      ensures sessionSlot == old(sessionSlot) && histories == old(histories)
    {
      input := text;
    }

    /** `setMessages((prev) => [...prev, message])` followed by the effect
        that stores the list under the session's key. */
    method Append(message: Message)
      requires Valid()
      modifies this
      ensures Valid()
      ensures messages == old(messages) + [message]
      ensures histories == old(histories)[HistoryKey(sessionId) := Saved(messages)]
      ensures sessionId == old(sessionId) && sessionSlot == old(sessionSlot) && input == old(input)
      ensures isTyping == old(isTyping) && status == old(status) && announcement == old(announcement)
    {
      messages := messages + [message];
      histories := histories[HistoryKey(sessionId) := Saved(messages)];
    }

    /** The part of `handleSend` before the request: nothing happens when the
        trimmed input is empty or a reply is pending; otherwise the user's
        trimmed message is shown and stored, the composer is emptied and
        disabled, and the status reads "Connecting...". `sent` is the message
        handed to `sendChatMessage`. */
    method BeginSend(stamp: Stamp) returns (sent: Option<string>)
      requires Valid()
      modifies this
      ensures Valid()
      ensures sent.None? <==> Trim(old(input)) == "" || old(isTyping)
      ensures sent.None? ==>
                && input == old(input) && messages == old(messages) && isTyping == old(isTyping)
                && status == old(status) && histories == old(histories)
      ensures sent.Some? ==>
                && sent.value == Trim(old(input))
                && messages == old(messages) + [CreateMessage(sent.value, User, stamp)]
                && input == "" && isTyping && status == Connecting
                && histories == old(histories)[HistoryKey(sessionId) := Saved(messages)]
      ensures sessionId == old(sessionId) && sessionSlot == old(sessionSlot) && announcement == old(announcement)
    {
      var trimmed := Trim(input);
      if trimmed == "" || isTyping {
        return None;
      }
      Append(CreateMessage(trimmed, User, stamp));
      input := "";
      isTyping := true;
      status := Connecting;
      sent := Some(trimmed);
    }

    /** The part of `handleSend` after the request settles. A result whose
        session id is truthy and new is adopted: the id is stored and the
        reload effect replaces the list by the new session's stored history,
        so the reply just received is only announced, not listed. Otherwise
        the reply is appended. The status follows the mode; a thrown send
        appends the fallback message and reads "Error". The typing flag is
        cleared in every case. */
    method FinishSend(settled: Settled, stamp: Stamp, now: string)
      requires Valid()
      modifies this
      ensures Valid()
      ensures !isTyping && input == old(input)
      ensures settled.Rejected? ==>
                && messages == old(messages) + [CreateMessage(FallbackText, Bot, stamp)]
                && status == Error && announcement == ErrorAnnouncement
                && sessionId == old(sessionId) && sessionSlot == old(sessionSlot)
                && histories == old(histories)[HistoryKey(sessionId) := Saved(messages)]
      ensures settled.Resolved? ==>
                && sessionId == Adopt(old(sessionId), settled.result.sessionId)
                && sessionSlot == Some(sessionId)
                && status == (if settled.result.mode == Live then Online else MockMode)
                && announcement == settled.result.reply
      ensures settled.Resolved? && sessionId == old(sessionId) ==>
                && messages == old(messages) + [CreateMessage(settled.result.reply, Bot, stamp)]
                && histories == old(histories)[HistoryKey(sessionId) := Saved(messages)]
      ensures settled.Resolved? && sessionId != old(sessionId) ==>
                && messages == LoadHistory(old(histories), sessionId, now)
                && histories == old(histories)[HistoryKey(sessionId) := Saved(messages)]
    {
      match settled {
        case Resolved(result) =>
          var next := Adopt(sessionId, result.sessionId);
          if next != sessionId {
            sessionId := next;
            sessionSlot := Some(next);
            messages := LoadHistory(histories, next, now);
          } else {
            messages := messages + [CreateMessage(result.reply, Bot, stamp)];
          }
          status := if result.mode == Live then Online else MockMode;
          announcement := result.reply;
        case Rejected =>
          messages := messages + [CreateMessage(FallbackText, Bot, stamp)];
          status := Error;
          announcement := ErrorAnnouncement;
      }
      histories := histories[HistoryKey(sessionId) := Saved(messages)];
      isTyping := false;
    }

    /** `handleSend()` from start to end, with the transport's result: a send
        that goes ahead shows the user's trimmed message and then the reply,
        unless the relay hands out a new session id, in which case the list is
        that session's stored history. Nothing is pending afterwards. */
    method HandleSend(userStamp: Stamp, outcome: RelayOutcome, r: real, botStamp: Stamp, now: string)
      returns (sent: Option<string>)
      requires Valid() && 0.0 <= r < 1.0
      modifies this
      ensures Valid()
      ensures sent.None? <==> Trim(old(input)) == "" || old(isTyping)
      ensures sent.None? ==>
                && messages == old(messages) && input == old(input) && isTyping == old(isTyping)
                && status == old(status) && announcement == old(announcement)
                && sessionId == old(sessionId) && sessionSlot == old(sessionSlot) && histories == old(histories)
      ensures sent.Some? ==>
                var res := SendChatMessage(sent.value, old(sessionId), outcome, r);
                && sent.value == Trim(old(input))
                && !isTyping && input == ""
                && sessionId == Adopt(old(sessionId), res.sessionId)
                && sessionSlot == Some(sessionId)
                && status == (if res.mode == Live then Online else MockMode)
                && announcement == res.reply
                && histories[HistoryKey(sessionId)] == Saved(messages)
                && (sessionId != old(sessionId) ==>
                      && HistoryKey(old(sessionId)) in histories
                      && histories[HistoryKey(old(sessionId))] == Saved(old(messages) + [CreateMessage(sent.value, User, userStamp)]))
                && (forall k :: k in old(histories) && k != HistoryKey(old(sessionId)) && k != HistoryKey(sessionId) ==>
                      k in histories && histories[k] == old(histories)[k])
                && (sessionId == old(sessionId) ==>
                      messages == old(messages) + [CreateMessage(sent.value, User, userStamp), CreateMessage(res.reply, Bot, botStamp)])
                && (sessionId != old(sessionId) ==> messages == LoadHistory(old(histories), sessionId, now))
    {
      ghost var before := histories;
      ghost var id := sessionId;
      sent := BeginSend(userStamp);
      if sent.Some? {
        var result := SendChatMessage(sent.value, sessionId, outcome, r);
        FinishSend(Resolved(result), botStamp, now);
        if sessionId != id {
          HistoryKeyChanges(id, sessionId);
          assert LoadHistory(old(histories)[HistoryKey(id) := Saved(old(messages) + [CreateMessage(sent.value, User, userStamp)])], sessionId, now)
              == LoadHistory(before, sessionId, now);
        }
      }
    }

    /** `handleClear`: the session's stored history is removed and the list
        reset to the welcome message alone, which the persistence effect then
        stores again. */
    method Clear(now: string)
      requires Valid()
      modifies this
      ensures Valid()
      ensures messages == [Welcome(now)]
      ensures histories == old(histories)[HistoryKey(sessionId) := Saved([Welcome(now)])]
      ensures sessionId == old(sessionId) && sessionSlot == old(sessionSlot)
      ensures input == old(input) && isTyping == old(isTyping)
      ensures status == old(status) && announcement == old(announcement)
    {
      histories := histories - {HistoryKey(sessionId)};
      messages := [Welcome(now)];
      histories := histories[HistoryKey(sessionId) := Saved(messages)];
    }
  }
}
