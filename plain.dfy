/** The plain-script client: module state `messages`, `sessionId` and
    `isSending`, one stored history and one stored session id, and a mock
    reply built from `%s` templates when the relay cannot be used. The
    network exchange is the `outcome` parameter, `Math.random()` the `r`
    parameter, and new ids and timestamps are `Stamp` parameters. */
module Plain {
  import opened Js
  import opened Strings
  import opened Client

  const WelcomeText := "\U{1F47E} WELCOME TO PIXEL CHAT! \U{1F47E}\n\nTYPE YOUR MESSAGE AND PRESS ENTER TO START CHATTING WITH THE AI!"
  /** The reply used when the relay's body carries no `reply`. */
  const MissingReply := "I received your message!"

  /** The four reply templates; `Text()` of each is the template string with its `%s`. */
  const Templates: seq<Template> := [
    Template("Interesting! Tell me more about \"", "\"."),
    Template("I hear \"", "\"\U{2014}here's a quick tip: stay curious."),
    Template("Let's explore \"", "\" together."),
    Template("\"", "\" sounds exciting! What's the next step?")
  ]

  /** No character of `s` is `c` or `d`. */
  predicate FreeOf(s: string, c: char, d: char) {
    forall i :: 0 <= i < |s| ==> s[i] != c && s[i] != d
  }

  /** Neither fixed part of a template holds a `%` or a `$`. */
  predicate PlainParts(t: Template) {
    FreeOf(t.before, '%', '$') && FreeOf(t.after, '%', '$')
  }

  lemma FixedPartsPlain(i: nat)
    requires i < |Templates|
    ensures '%' !in Templates[i].before && '%' !in Templates[i].after
    ensures '$' !in Templates[i].before && '$' !in Templates[i].after
  {
    if i == 0 {
      PlainParts0();
    } else if i == 1 {
      PlainParts1();
    } else if i == 2 {
      PlainParts2();
    } else {
      PlainParts3();
    }
  }

  lemma PlainParts0() ensures PlainParts(Templates[0]) {}
  lemma PlainParts1() ensures PlainParts(Templates[1]) {}
  lemma PlainParts2() ensures PlainParts(Templates[2]) {}
  lemma PlainParts3() ensures PlainParts(Templates[3]) {}

  /** Every template holds `%s` exactly once, and no `$` anywhere. */
  lemma TemplatesWellFormed(i: nat)
    requires i < |Templates|
    ensures forall k :: OccursAt(Templates[i].Text(), "%s", k) <==> k == |Templates[i].before|
    ensures '$' !in Templates[i].Text()
  {
    var t := Templates[i];
    FixedPartsPlain(i);
    PlaceholderUnique(t);
    assert t.Text() == t.before + "%s" + t.after;
  }

  /** In a template with no `%` before its slot, `replace` finds the slot's
      `%s` and changes nothing but the slot, which receives the substitution
      (GetSubstitution) of the text. */
  lemma ReplaceSlot(t: Template, text: string)
    requires '%' !in t.before
    ensures Replace(t.Text(), "%s", text) == t.before + Substitute(text, "%s", t.before, t.after) + t.after
  {
    IndexOfAfter(t.before, "%s", t.after);
    assert t.Text() == t.before + "%s" + t.after;
    assert t.Text()[..|t.before|] == t.before;
    assert t.Text()[|t.before| + 2..] == t.after;
  }

  /** `generateMockReply(text)` as written: the picked template's `%s` is
      replaced with `String.prototype.replace`, which reads `$$`, `$&`,
      `` $` `` and `$'` in the text as substitution patterns. The template's
      fixed parts come through unchanged; only the slot depends on the text. */
  function MockReplyAsWritten(text: string, r: real): (reply: string)
    requires 0.0 <= r < 1.0
    ensures var t := Templates[PickIndex(r, |Templates|)];
      reply == t.before + Substitute(text, "%s", t.before, t.after) + t.after
  {
    var i := PickIndex(r, |Templates|);
    FixedPartsPlain(i);
    ReplaceSlot(Templates[i], text);
    Replace(Templates[i].Text(), "%s", text)
  }

  /** In a template free of `%` and `$` outside its slot, `$&` in place of
      the message puts the matched `%s` back: the result is the template
      itself, which does not contain `$&`. */
  lemma DollarPatternInTemplate(t: Template)
    requires '%' !in t.before && '$' !in t.before && '$' !in t.after
    ensures Replace(t.Text(), "%s", "$&") == t.Text()
    ensures !Contains(t.Text(), "$&")
  {
    IndexOfAfter(t.before, "%s", t.after);
    assert t.Text() == t.before + "%s" + t.after;
    assert Substitute("$&", "%s", t.before, t.after) == "%s";
    assert t.Text()[|t.before| + 2..] == t.after;
    assert '$' !in t.Text();
    NotContainedWithout(t.Text(), "$&", '$');
  }

  /** A message `$&` is not quoted back: the reply is the bare template,
      which does not contain `$&`. */
  lemma DollarPatternLosesMessage(r: real)
    requires 0.0 <= r < 1.0
    ensures MockReplyAsWritten("$&", r) == Templates[PickIndex(r, |Templates|)].Text()
    ensures !Contains(MockReplyAsWritten("$&", r), "$&")
  {
    FixedPartsPlain(PickIndex(r, |Templates|));
    DollarPatternInTemplate(Templates[PickIndex(r, |Templates|)]);
  }

  /** The intended mock reply: the picked template with the text quoted verbatim in its slot. */
  function MockReply(text: string, r: real): (reply: string)
    requires 0.0 <= r < 1.0
    ensures var t := Templates[PickIndex(r, |Templates|)];
      && |reply| == |t.before| + |text| + |t.after|
      && reply[..|t.before|] == t.before
      && OccursAt(reply, text, |t.before|)
      && reply[|t.before| + |text|..] == t.after
    ensures Contains(reply, text)
  {
    Templates[PickIndex(r, |Templates|)].Fill(text)
  }

  /** For text without `$`, replacing the slot's `%s` with `replace` fills the slot. */
  lemma ReplaceFillsSlot(t: Template, text: string)
    requires '%' !in t.before && '$' !in text
    ensures Replace(t.Text(), "%s", text) == t.Fill(text)
  {
    ReplaceSlot(t, text);
    SubstituteLiteral(text, "%s", t.before, t.after);
  }

  /** For text without `$` the code as written gives the intended reply. */
  lemma AsWrittenAgreesWithoutDollar(text: string, r: real)
    requires 0.0 <= r < 1.0 && '$' !in text
    ensures MockReplyAsWritten(text, r) == MockReply(text, r)
  {
    FixedPartsPlain(PickIndex(r, |Templates|));
    ReplaceFillsSlot(Templates[PickIndex(r, |Templates|)], text);
  }

  /** The text `fetchBotReply` resolves to: the relay's reply (or the
      default when it has none) from an OK response with a JSON body, and a
      mock reply quoting the message in every other case. */
  function BotReply(text: string, outcome: RelayOutcome, r: real): (reply: string)
    requires 0.0 <= r < 1.0
    ensures Usable(outcome) ==> reply == outcome.body.reply.OrElse(MissingReply)
    ensures !Usable(outcome) ==> reply == MockReply(text, r) && Contains(reply, text)
  {
    if Usable(outcome) then outcome.body.reply.OrElse(MissingReply) else MockReply(text, r)
  }

  /** The reply of `fetchBotReply` as written differs from `BotReply` only in
      its mock branch, and there only for text holding a `$`. */
  lemma BotReplyAsWritten(text: string, outcome: RelayOutcome, r: real)
    requires 0.0 <= r < 1.0
    ensures Usable(outcome) || '$' !in text ==>
      BotReply(text, outcome, r) == (if Usable(outcome) then outcome.body.reply.OrElse(MissingReply) else MockReplyAsWritten(text, r))
  {
    if !Usable(outcome) && '$' !in text {
      AsWrittenAgreesWithoutDollar(text, r);
    }
  }

  /** `loadMessages()`: the stored list, or `[]` when nothing is stored or
      the stored value does not parse. */
  function LoadMessages(stored: Option<Stored>): (r: seq<Message>)
    ensures stored.Some? && stored.value.Saved? ==> r == stored.value.messages
    ensures stored.None? || stored.value.Unreadable? ==> r == []
  {
    if stored.Some? && stored.value.Saved? then stored.value.messages else []
  }

  /** The sender part of `formatMeta`. */
  function SenderLabel(sender: Sender): (shown: string)
    ensures shown == "YOU" <==> sender.User?
    ensures shown == "BOT" <==> sender.Bot?
  {
    if sender == User then "YOU" else
      assert "BOT"[0] == 'B' && "YOU"[0] == 'Y';
      "BOT"
  }

  /** The text of the connection status element. */
  datatype Status = Ready | Connecting | Online | MockMode {
    /** Each status shows its own text, and no two statuses show the same one. */
    function Label(): (s: string)
      ensures s == "READY" <==> this.Ready?
      ensures s == "CONNECTING..." <==> this.Connecting?
      ensures s == "ONLINE" <==> this.Online?
      ensures s == "MOCK MODE" <==> this.MockMode?
    {
      match this
      case Ready => "READY"
      case Connecting => "CONNECTING..."
      case Online => "ONLINE"
      case MockMode => "MOCK MODE"
    }
  }

  class PlainChat {
    var messages: seq<Message>
    var sessionId: string
    var isSending: bool
    var status: Status
    /** The text in the message input. */
    var input: string
    /** `localStorage["chatbot_plain_history"]`. */
    var savedHistory: Option<Stored>
    /** `localStorage["chatbot_plain_session"]`. */
    var savedSession: Option<string>

    /** The stored history is the in-memory list and the stored session id is the current one. */
    ghost predicate Valid()
      reads this
    {
      savedHistory == Some(Saved(messages)) && savedSession == Some(sessionId)
    }

    /** Script start: the history and the session id are loaded (the id
        minted and stored when there is none), and an empty history gets the
        welcome message, which is stored. */
    constructor Start(storedHistory: Option<Stored>, storedSession: Option<string>, minted: string, welcome: Stamp)
      ensures Valid()
      ensures (sessionId, savedSession) == LoadOrMint(storedSession, minted)
      ensures LoadMessages(storedHistory) == [] ==> messages == [CreateMessage(WelcomeText, Bot, welcome)]
      ensures LoadMessages(storedHistory) != [] ==> messages == LoadMessages(storedHistory) && savedHistory == storedHistory
      ensures !isSending && status == Ready && input == ""
    {
      var loaded := LoadMessages(storedHistory);
      var (id, slotAfter) := LoadOrMint(storedSession, minted);
      sessionId := id;
      savedSession := slotAfter;
      if loaded == [] {
        messages := [CreateMessage(WelcomeText, Bot, welcome)];
      } else {
        messages := loaded;
      }
      savedHistory := Some(Saved(messages));
      isSending := false;
      status := Ready;
      input := "";
    }

    /** Typing in the message input. */
    method Edit(text: string)
      modifies this
      ensures input == text
      ensures messages == old(messages) && sessionId == old(sessionId) && isSending == old(isSending)
      ensures status == old(status) && savedHistory == old(savedHistory) && savedSession == old(savedSession)
    {
      input := text;
    }

    /** `appendMessage(message)`: the message goes at the end and the list is saved. */
    method AppendMessage(message: Message)
      requires Valid()
      modifies this
      ensures Valid()
      ensures messages == old(messages) + [message]
      ensures sessionId == old(sessionId) && isSending == old(isSending) && status == old(status)
      ensures input == old(input) && savedSession == old(savedSession)
    {
      messages := messages + [message];
      savedHistory := Some(Saved(messages));
    }

    /** The clear button: the list becomes empty (no welcome message) and is saved. */
    method ClearHistory()
      requires Valid()
      modifies this
      ensures Valid()
      ensures messages == [] && savedHistory == Some(Saved([]))
      ensures sessionId == old(sessionId) && isSending == old(isSending) && status == old(status)
      ensures input == old(input) && savedSession == old(savedSession)
    {
      messages := [];
      savedHistory := Some(Saved(messages));
    }

    /** The part of `sendCurrentMessage` before the request: nothing happens
        when the trimmed input is empty or a send is pending; otherwise the
        user's trimmed message is appended, the input emptied, the send
        marked pending and the status set to "CONNECTING...". */
    method BeginSend(stamp: Stamp) returns (sent: Option<string>)
      requires Valid()
      modifies this
      ensures Valid()
      ensures sent.None? <==> Trim(old(input)) == "" || old(isSending)
      ensures sent.None? ==>
                messages == old(messages) && input == old(input) && isSending == old(isSending) && status == old(status)
      ensures sent.Some? ==>
                && sent.value == Trim(old(input))
                && messages == old(messages) + [CreateMessage(sent.value, User, stamp)]
                && input == "" && isSending && status == Connecting
      ensures sessionId == old(sessionId) && savedSession == old(savedSession)
    {
      var raw := Trim(input);
      if raw == "" || isSending {
        return None;
      }
      AppendMessage(CreateMessage(raw, User, stamp));
      input := "";
      isSending := true;
      status := Connecting;
      sent := Some(raw);
    }

    /** `fetchBotReply(text)` once the request has settled: a truthy session
        id from an OK JSON response that differs from the current one is
        adopted and stored; the status reads "ONLINE" or "MOCK MODE". It
        never fails. */
    method FetchBotReply(text: string, outcome: RelayOutcome, r: real) returns (reply: string)
      requires Valid() && 0.0 <= r < 1.0
      modifies this
      ensures Valid()
      ensures reply == BotReply(text, outcome, r)
      ensures Usable(outcome) ==> sessionId == Adopt(old(sessionId), outcome.body.sessionId.OrElse("")) && status == Online
      ensures !Usable(outcome) ==> sessionId == old(sessionId) && status == MockMode
      ensures messages == old(messages) && isSending == old(isSending) && input == old(input)
    {
      if Usable(outcome) {
        sessionId := Adopt(sessionId, outcome.body.sessionId.OrElse(""));
        savedSession := Some(sessionId);
        status := Online;
      } else {
        status := MockMode;
      }
      reply := BotReply(text, outcome, r);
    }

    /** The part of `sendCurrentMessage` after the request: the bot's reply is
        appended and the send is no longer pending. */
    method CompleteSend(text: string, outcome: RelayOutcome, r: real, stamp: Stamp)
      requires Valid() && 0.0 <= r < 1.0
      modifies this
      ensures Valid()
      ensures messages == old(messages) + [CreateMessage(BotReply(text, outcome, r), Bot, stamp)]
      ensures !isSending && input == old(input)
      ensures Usable(outcome) ==> sessionId == Adopt(old(sessionId), outcome.body.sessionId.OrElse("")) && status == Online
      ensures !Usable(outcome) ==> sessionId == old(sessionId) && status == MockMode
    {
      var botText := FetchBotReply(text, outcome, r);
      AppendMessage(CreateMessage(botText, Bot, stamp));
      isSending := false;
    }

    /** `sendCurrentMessage()` from start to end: a send that goes ahead
        appends exactly two messages, the user's trimmed text and then the
        reply to it, and leaves nothing pending. */
    method SendCurrentMessage(userStamp: Stamp, outcome: RelayOutcome, r: real, botStamp: Stamp) returns (sent: Option<string>)
      requires Valid() && 0.0 <= r < 1.0
      modifies this
      ensures Valid()
      ensures sent.None? <==> Trim(old(input)) == "" || old(isSending)
      ensures sent.None? ==>
                && messages == old(messages) && input == old(input) && isSending == old(isSending)
                && status == old(status) && sessionId == old(sessionId) && savedSession == old(savedSession)
      ensures sent.Some? ==>
                && sent.value == Trim(old(input))
                && messages == old(messages) + [CreateMessage(sent.value, User, userStamp),
                                                CreateMessage(BotReply(sent.value, outcome, r), Bot, botStamp)]
                && !isSending && input == ""
                && (Usable(outcome) ==>
                      sessionId == Adopt(old(sessionId), outcome.body.sessionId.OrElse("")) && status == Online)
                && (!Usable(outcome) ==> sessionId == old(sessionId) && status == MockMode)
    {
      sent := BeginSend(userStamp);
      if sent.Some? {
        CompleteSend(sent.value, outcome, r, botStamp);
      }
    }
  }
}
