/** The decision layer of the relay's call to the upstream chat-completion
    service: configuration, the payload sent, and how the service's answer
    becomes a reply or an error. The HTTP exchange itself is a parameter. */
module Upstream {
  import opened Js
  import opened Strings
  import opened History

  const DefaultModel := "z-ai/glm-4.5-air:free"
  const SystemPreamble := "You are a helpful, friendly, and concise AI assistant. Provide clear and useful responses."
  const MissingKeyError := "OPENROUTER_API_KEY is missing. Configure it in your environment."
  const EmptyReplyError := "OpenRouter returned an empty reply."
  /** How much of an error response's body is quoted in the error message. */
  const BodyExcerptLength: nat := 300

  /** The credential and the model identifier, read once from the environment. */
  datatype Config = Config(apiKey: string, model: string)

  /** `(env.OPENROUTER_API_KEY || "").trim()`: the credential, empty when
      the variable is unset or blank. */
  function LoadKey(keyVar: Option<string>): (k: string)
    ensures IsTrimmed(k)
    ensures k == "" <==> keyVar.None? || AllWhitespace(keyVar.value)
    ensures keyVar.Some? ==> Contains(keyVar.value, k) && k == Trim(keyVar.value)
  {
    TrimMeaning(Or(keyVar, ""));
    Trim(Or(keyVar, ""))
  }

  /** `(env.OPENROUTER_MODEL || default).trim()`: the default model when the
      variable is unset or empty, the trimmed variable otherwise. */
  function LoadModel(modelVar: Option<string>): (m: string)
    ensures IsTrimmed(m)
    ensures modelVar.None? || modelVar.value == "" ==> m == DefaultModel
    ensures modelVar.Some? && modelVar.value != "" ==> m == Trim(modelVar.value)
  {
    if modelVar.None? || modelVar.value == "" then
      // The default needs no trimming (DefaultModelIsTrimmed), so it is used as written.
      assert DefaultModel[0] == 'z' && DefaultModel[|DefaultModel| - 1] == 'e';
      DefaultModel
    else
      TrimMeaning(modelVar.value);
      Trim(modelVar.value)
  }

  /** The configuration read once from the environment at start-up, from
      `OPENROUTER_API_KEY` and `OPENROUTER_MODEL`. */
  function LoadConfig(keyVar: Option<string>, modelVar: Option<string>): Config {
    Config(LoadKey(keyVar), LoadModel(modelVar))
  }

  /** The default model identifier needs no trimming, so it is used as written. */
  lemma DefaultModelIsTrimmed()
    ensures Trim(DefaultModel) == DefaultModel
  {
    assert IsTrimmed(DefaultModel) by {
      assert DefaultModel[0] == 'z' && DefaultModel[|DefaultModel| - 1] == 'e';
    }
    TrimOfTrimmed(DefaultModel);
  }

  /** The request body sent upstream. */
  datatype Payload = Payload(model: string, messages: seq<Turn>)

  /** The system preamble followed by the history, in order. */
  function BuildPayload(model: string, history: seq<Turn>): (p: Payload)
    ensures p.model == model && |p.messages| == |history| + 1
    ensures p.messages[0] == Turn(System, SystemPreamble)
    ensures p.messages[1..] == history
  {
    Payload(model, [Turn(System, SystemPreamble)] + history)
  }

  /** What the upstream service does with one request. */
  datatype UpstreamOutcome =
    /** A 2xx response; `content` is `data.choices[0].message.content`, `None`
        when any link of that chain is missing or null. */
    | Completed(content: Option<string>)
    /** A response whose status is outside 200-299, with its body text. */
    | HttpError(status: nat, body: string)
    /** The request or the reading of its body threw: a network failure or
        a body that is not JSON. The relay sets no timeout on this request. */
    | Transport(message: string)

  /** The result of `fetchCompletion`: the reply it resolves to, or the message of the error it throws. */
  datatype Completion = Reply(text: string) | Failed(error: string)

  /** The message of the error thrown on a non-2xx status: the status and at
      most the first 300 characters of the body. */
  function HttpErrorMessage(status: nat, body: string): (m: string)
    ensures var head := "OpenRouter error " + Decimal(status) + ": ";
      && |m| == |head| + (if |body| < BodyExcerptLength then |body| else BodyExcerptLength)
      && m[..|head|] == head
      && m[|head|..] == body[..|m| - |head|]
  {
    "OpenRouter error " + Decimal(status) + ": " + Prefix(body, BodyExcerptLength)
  }

  /** How `fetchCompletion` turns the service's answer into a reply or an
      error: the trimmed content of a 2xx answer, an error when that content
      is missing or blank, and the error message otherwise. What this means
      is stated by `InterpretMeaning`. */
  function Interpret(outcome: UpstreamOutcome): Completion {
    match outcome
    case Completed(content) =>
      var reply := Trim(content.OrElse(""));
      if reply == "" then Failed(EmptyReplyError) else Reply(reply)
    case HttpError(status, body) => Failed(HttpErrorMessage(status, body))
    case Transport(message) => Failed(message)
  }

  /** A reply is produced exactly when a 2xx answer carries content that is
      not blank; it is that content without surrounding whitespace, so it is
      never empty. Every other answer is an error with its own message. */
  lemma InterpretMeaning(outcome: UpstreamOutcome)
    ensures var r := Interpret(outcome);
      && (r.Reply? <==> outcome.Completed? && outcome.content.Some? && !AllWhitespace(outcome.content.value))
      && (r.Reply? ==> r.text != "" && IsTrimmed(r.text) && Contains(outcome.content.value, r.text))
      && (r.Reply? ==> r.text == Trim(outcome.content.value))
      && (outcome.Completed? && r.Failed? ==> r.error == EmptyReplyError)
      && (outcome.HttpError? ==> r == Failed(HttpErrorMessage(outcome.status, outcome.body)))
      && (outcome.Transport? ==> r == Failed(outcome.message))
  {
    if outcome.Completed? {
      TrimMeaning(outcome.content.OrElse(""));
    }
  }

  /** `fetchCompletion(history)`: fails before any request when no credential
      is configured; otherwise the answer of `upstream` to the preamble
      followed by the history decides the result. */
  function FetchCompletion(config: Config, history: seq<Turn>, upstream: Payload -> UpstreamOutcome): (r: Completion)
    ensures config.apiKey == "" ==> r == Failed(MissingKeyError)
    ensures config.apiKey != "" ==> r == Interpret(upstream(BuildPayload(config.model, history)))
  {
    if config.apiKey == "" then Failed(MissingKeyError)
    else Interpret(upstream(BuildPayload(config.model, history)))
  }

  /** A reply that `fetchCompletion` resolves to is never empty and never
      starts or ends with whitespace. */
  lemma ReplyIsTrimmed(config: Config, history: seq<Turn>, upstream: Payload -> UpstreamOutcome)
    ensures var r := FetchCompletion(config, history, upstream);
      r.Reply? ==> r.text != "" && IsTrimmed(r.text)
  {
    if config.apiKey != "" {
      InterpretMeaning(upstream(BuildPayload(config.model, history)));
    }
  }

  /** Without a credential the upstream service is never consulted: every
      service gives the same result. */
  lemma NoRequestWithoutKey(config: Config, history: seq<Turn>, u1: Payload -> UpstreamOutcome, u2: Payload -> UpstreamOutcome)
    requires config.apiKey == ""
    ensures FetchCompletion(config, history, u1) == FetchCompletion(config, history, u2)
  {
  }
}
