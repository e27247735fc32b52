/** What the two browser clients share: chat messages, the values kept in
    `localStorage`, the session id that is read or minted once, the answer
    of the relay as a client sees it, and reply templates with one slot. */
module Client {
  import opened Js
  import opened Strings

  datatype Sender = User | Bot

  /** What `crypto.randomUUID()` and `new Date().toISOString()` give a new message. */
  datatype Stamp = Stamp(id: string, timestamp: string)

  datatype Message = Message(id: string, sender: Sender, text: string, timestamp: string)

  /** `createMessage(text, sender)`. */
  function CreateMessage(text: string, sender: Sender, stamp: Stamp): (m: Message)
    ensures m.text == text && m.sender == sender
    ensures m.id == stamp.id && m.timestamp == stamp.timestamp
  {
    Message(stamp.id, sender, text, stamp.timestamp)
  }

  /** A stored message list as `JSON.parse` reads it back: the list, or a
      value that does not parse. */
  datatype Stored = Saved(messages: seq<Message>) | Unreadable

  /** Both clients read the session id from a storage slot and mint one when
      the slot is empty or unset (an empty string is falsy); the minted id is
      written back. The result is the id and the slot afterwards. */
  function LoadOrMint(slot: Option<string>, minted: string): (r: (string, Option<string>))
    ensures r.1 == Some(r.0)
    ensures slot.Some? && Truthy(slot.value) ==> r.0 == slot.value && r.1 == slot
    ensures slot.None? || !Truthy(slot.value) ==> r.0 == minted
  {
    if slot.Some? && Truthy(slot.value) then (slot.value, slot) else (minted, Some(minted))
  }

  /** Reading the session id again, after the first read stored it, gives the
      same id and writes nothing new, whatever id would have been minted. */
  lemma {:induction false} LoadOrMintStable(slot: Option<string>, minted: string, later: string)
    requires Truthy(minted)
    ensures var (id, stored) := LoadOrMint(slot, minted);
      LoadOrMint(stored, later) == (id, stored)
  {
    var (id, stored) := LoadOrMint(slot, minted);
    assert Truthy(id);
  }

  /** The id a client keeps after the relay offered `offered`: it switches
      only to a truthy id that differs from the current one. */
  function Adopt(current: string, offered: string): (r: string)
    ensures Truthy(offered) && offered != current ==> r == offered
    ensures !Truthy(offered) || offered == current ==> r == current
  {
    if Truthy(offered) && offered != current then offered else current
  }

  /** An adopted id is never empty when the current one was not, and the same
      offer a second time changes nothing. */
  lemma AdoptKeepsTruthy(current: string, offered: string)
    ensures Truthy(current) ==> Truthy(Adopt(current, offered))
    ensures Adopt(Adopt(current, offered), offered) == Adopt(current, offered)
  {
  }

  /** The JSON body of a relay response, as far as the clients read it:
      `reply` and `sessionId` (each `None` when missing or null), or a body
      that `response.json()` rejects. */
  datatype RelayBody = Json(reply: Option<string>, sessionId: Option<string>) | NotJson

  /** What one `fetch` of `/api/chat` ends in: a response with its status
      and body, or no response at all (network failure or the 8-second abort). */
  datatype RelayOutcome = Responded(status: nat, body: RelayBody) | NoResponse

  /** A response the client reads as data: an OK status and a body that parses. */
  predicate Usable(outcome: RelayOutcome) {
    outcome.Responded? && IsOkStatus(outcome.status) && outcome.body.Json?
  }

  /** A reply template with one slot, `before` + slot + `after`. */
  datatype Template = Template(before: string, after: string) {

    /** The template with `text` in its slot: the text appears verbatim right
        after the fixed opening, followed by the fixed closing. */
    function Fill(text: string): (r: string)
      ensures |r| == |before| + |text| + |after|
      ensures r[..|before|] == before && r[|before| + |text|..] == after
      ensures OccursAt(r, text, |before|)
    {
      var r := before + text + after;
      assert r[|before|..|before| + |text|] == text;
      r
    }

    /** The template written as one string with the placeholder `%s` in its slot. */
    function Text(): (r: string)
      ensures r == Fill("%s")
    {
      before + "%s" + after
    }
  }

  /** When neither fixed part of a template holds a `%`, the placeholder
      `%s` occurs in its text exactly once, in the slot. */
  lemma PlaceholderUnique(t: Template)
    requires '%' !in t.before && '%' !in t.after
    ensures forall k :: OccursAt(t.Text(), "%s", k) <==> k == |t.before|
  {
    var s := t.Text();
    forall k | OccursAt(s, "%s", k)
      ensures k == |t.before|
    {
      assert s[k] == s[k..k + 2][0] == '%';
    }
  }
}
