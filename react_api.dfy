/** The React client's transport: one call of `/api/chat`, normalised into a
    reply, a session id and a mode, with a canned reply when the relay cannot
    be used. The network exchange is the `outcome` parameter and
    `Math.random()` the `r` parameter. */
module ReactApi {
  import opened Js
  import opened Strings
  import opened Client
  import Server

  /** `mockTemplates`: each quotes the message. */
  const MockTemplates: seq<Template> := [
    Template("I heard \"", "\". Let's dig into that together."),
    Template("Thanks for sharing \"", "\". Here's a quick thought..."),
    Template("\U{201C}", "\U{201D} sounds exciting! What's the next step?")
  ]

  /** The reply used when the relay's body carries no `reply`. */
  const MissingReply := "I'm here to help!"

  /** `generateMockReply(message)`: one of the templates, chosen by
      `Math.floor(r * 3)`, with the message quoted verbatim in its slot. */
  function GenerateMockReply(message: string, r: real): (reply: string)
    requires 0.0 <= r < 1.0
    ensures var t := MockTemplates[PickIndex(r, |MockTemplates|)];
      && |reply| == |t.before| + |message| + |t.after|
      && reply[..|t.before|] == t.before
      && OccursAt(reply, message, |t.before|)
      && reply[|t.before| + |message|..] == t.after
    ensures Contains(reply, message)
  {
    MockTemplates[PickIndex(r, |MockTemplates|)].Fill(message)
  }

  datatype Mode = Live | Mock

  /** The record `sendChatMessage` resolves to. */
  datatype ChatResult = ChatResult(reply: string, sessionId: string, mode: Mode)

  /** `sendChatMessage({message, sessionId})`. It never rejects: an OK
      response with a JSON body is live, and everything else (no response,
      an error status, a body that is not JSON) falls back to a mock reply
      for the same message under the caller's session id. */
  function SendChatMessage(message: string, sessionId: string, outcome: RelayOutcome, r: real): (res: ChatResult)
    requires 0.0 <= r < 1.0
    ensures res.mode == Live <==> Usable(outcome)
    ensures res.mode == Live ==>
              && res.reply == outcome.body.reply.OrElse(MissingReply)
              && res.sessionId == outcome.body.sessionId.OrElse(sessionId)
    ensures res.mode == Mock ==> res.sessionId == sessionId && res.reply == GenerateMockReply(message, r)
  {
    match outcome
    case Responded(status, Json(reply, id)) =>
      if IsOkStatus(status) then ChatResult(reply.OrElse(MissingReply), id.OrElse(sessionId), Live)
      else ChatResult(GenerateMockReply(message, r), sessionId, Mock)
    case _ => ChatResult(GenerateMockReply(message, r), sessionId, Mock)
  }

  /** An error status is handled exactly like no response at all. */
  lemma ErrorStatusIsLikeNoResponse(message: string, sessionId: string, status: nat, body: RelayBody, r: real)
    requires 0.0 <= r < 1.0 && !IsOkStatus(status)
    ensures SendChatMessage(message, sessionId, Responded(status, body), r)
         == SendChatMessage(message, sessionId, NoResponse, r)
  {
  }

  /** A mock reply always quotes the message the user sent, and keeps the session. */
  lemma MockQuotesMessage(message: string, sessionId: string, outcome: RelayOutcome, r: real)
    requires 0.0 <= r < 1.0
    ensures var res := SendChatMessage(message, sessionId, outcome, r);
      res.mode == Mock ==> Contains(res.reply, message) && res.sessionId == sessionId
  {
  }

  /** The body the relay sends for a chat response: `reply` and `sessionId`
      always, and `error` on a 502, which the client does not read. */
  function Delivered(resp: Server.ChatResponse): (outcome: RelayOutcome)
    ensures outcome.Responded? && outcome.status == resp.status
    ensures outcome.body == Json(Some(resp.reply), Some(resp.sessionId))
  {
    Responded(resp.status, Json(Some(resp.reply), Some(resp.sessionId)))
  }

  /** End to end: a 200 from the relay reaches the client as a live result
      carrying the relay's reply and the session id it echoed; a 502 reaches
      it as a mock reply under the caller's own session id. */
  lemma RelayAnswerReachesClient(message: string, sessionId: string, resp: Server.ChatResponse, r: real)
    requires 0.0 <= r < 1.0
    requires resp.status == 200 || resp.status == 502
    ensures var res := SendChatMessage(message, sessionId, Delivered(resp), r);
      && (resp.status == 200 ==> res == ChatResult(resp.reply, resp.sessionId, Live))
      && (resp.status == 502 ==> res == ChatResult(GenerateMockReply(message, r), sessionId, Mock))
  {
  }
}
