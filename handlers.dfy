/** The two model handlers of the chat backend, `get_openai_response` and
    `get_ollama_response`. The network calls they make are replaced by an
    abstract outcome that the caller supplies: what the hosted API answered
    (or which exception it raised), and what the local daemon's HTTP reply
    looked like (or why it failed). */
module Handlers {

  datatype Option<T> = None | Some(value: T)

  datatype Result<T, E> = Success(value: T) | Failure(error: E)

  /** A Python value a handler returns; the endpoint interpolates it with an
      f-string. `PyOther` is any other JSON value (number, boolean, list,
      object) together with the text Python's `str()` gives for it. */
  datatype PyValue = PyStr(s: string) | PyNone | PyOther(text: string)

  /** `f"{v}"` */
  function Str(v: PyValue): string {
    match v
    case PyStr(s) => s
    case PyNone => "None"
    case PyOther(text) => text
  }

  // ---------------------------------------------------------------- OpenAI

  /** What `client.chat.completions.create(...)` did. */
  datatype OpenAIOutcome =
    | Completion(content: Option<string>)  // `choices[0].message.content`, a str or None
    | RateLimited(detail: string)          // RateLimitError
    | AuthRejected(detail: string)         // AuthenticationError
    | ApiFailure(detail: string)           // any other APIError
    | OtherException(message: string)      // an exception outside APIError, propagated as is

  /** The exceptions `get_openai_response` lets out. */
  datatype HostedFailure =
    | Unconfigured               // ValueError raised before any call
    | Unavailable(detail: string) // rate limit or authentication rejection
    | ApiError(detail: string)    // every other APIError
    | Uncaught(message: string)   // not an APIError: not caught by the handler

  /** `str(e)` for the exception the handler raises. */
  function Message(f: HostedFailure): string {
    match f
    case Unconfigured => "Missing OpenAI API key"
    case Unavailable(d) => "OpenAI unavailable: " + d
    case ApiError(d) => "OpenAI API error: " + d
    case Uncaught(m) => m
  }

  /** The handler's guard `not client or not OPENAI_API_KEY`: the client
      exists exactly when the key is set and non-empty. */
  predicate KeyConfigured(apiKey: Option<string>) {
    apiKey.Some? && apiKey.value != ""
  }

  /** `get_openai_response(prompt)`: the outcome is only consulted when the
      key is configured, since the request is never sent otherwise. */
  function OpenAIHandler(apiKey: Option<string>, outcome: OpenAIOutcome): (r: Result<PyValue, HostedFailure>)
    ensures r == Failure(Unconfigured) <==> !KeyConfigured(apiKey)
    ensures r.Success? <==> KeyConfigured(apiKey) && outcome.Completion?
    ensures r.Success? ==> r.value == (if outcome.content.Some? then PyStr(outcome.content.value) else PyNone)
    ensures KeyConfigured(apiKey) && (outcome.RateLimited? || outcome.AuthRejected?)
      ==> r == Failure(Unavailable(outcome.detail))
    ensures KeyConfigured(apiKey) && outcome.ApiFailure? ==> r == Failure(ApiError(outcome.detail))
    ensures KeyConfigured(apiKey) && outcome.OtherException? ==> r == Failure(Uncaught(outcome.message))
  {
    if !KeyConfigured(apiKey) then Failure(Unconfigured)
    else
      match outcome
      case Completion(Some(text)) => Success(PyStr(text))
      case Completion(None) => Success(PyNone)
      case RateLimited(d) => Failure(Unavailable(d))
      case AuthRejected(d) => Failure(Unavailable(d))
      case ApiFailure(d) => Failure(ApiError(d))
      case OtherException(m) => Failure(Uncaught(m))
  }

  /** With no key, the provider's behaviour cannot influence the result. */
  lemma MissingKeyIgnoresProvider(apiKey: Option<string>, o1: OpenAIOutcome, o2: OpenAIOutcome)
    requires !KeyConfigured(apiKey)
    ensures OpenAIHandler(apiKey, o1) == OpenAIHandler(apiKey, o2) == Failure(Unconfigured)
  {
  }

  /** The three failure kinds the handler names itself are told apart by the
      text they carry: a message never reads as another kind's message. */
  lemma {:induction false} FailureMessagesDistinct(f: HostedFailure, g: HostedFailure)
    requires !f.Uncaught? && !g.Uncaught?
    requires Message(f) == Message(g)
    ensures f == g
  {
    var mf, mg := Message(f), Message(g);
    assert mf[0] == (if f.Unconfigured? then 'M' else 'O');
    assert mg[0] == (if g.Unconfigured? then 'M' else 'O');
    assert !f.Unconfigured? ==> mf[7] == (if f.Unavailable? then 'u' else 'A');
    assert !g.Unconfigured? ==> mg[7] == (if g.Unavailable? then 'u' else 'A');
    if f.Unavailable? && g.Unavailable? {
      assert f.detail == mf[|"OpenAI unavailable: "|..] == mg[|"OpenAI unavailable: "|..] == g.detail;
    } else if f.ApiError? && g.ApiError? {
      assert f.detail == mf[|"OpenAI API error: "|..] == mg[|"OpenAI API error: "|..] == g.detail;
    }
  }

  // ---------------------------------------------------------------- Ollama

  /** The shape of the JSON the daemon answered with, as far as
      `data.get("message", {}).get("content", ...)` looks into it. A type
      name is Python's name for a non-dict value (`list`, `str`, `NoneType`,
      ...). */
  datatype OllamaBody =
    | BodyNotObject(typeName: string)    // `data.get` raises AttributeError
    | NoMessage                          // no "message": the `{}` default is used
    | MessageNotObject(typeName: string) // "message" holds a non-dict: `.get` raises
    | NoContent                          // a "message" dict without "content"
    | Content(value: PyValue)            // the "content" value

  /** What the POST to the local daemon did. */
  datatype OllamaOutcome =
    | Unreachable(detail: string)  // connection error, timeout, error status or unparsable JSON
    | Replied(body: OllamaBody)

  /** The cross mark that starts an error text sent to the client. */
  const ErrorMark: string := "❌"
  /** What the Ollama handler puts in front of a failure. */
  const OllamaErrorPrefix: string := ErrorMark + " Ollama error: "
  const OllamaPlaceholder: string := "No response from Ollama."

  /** `str(e)` for the AttributeError of calling `.get` on a non-dict. */
  function NoGetMessage(typeName: string): string {
    "'" + typeName + "' object has no attribute 'get'"
  }

  /** `get_ollama_response(prompt)`: the result type has no failure case,
      because the handler turns every exception into an error-marker text. */
  function OllamaHandler(outcome: OllamaOutcome): (v: PyValue)
    ensures outcome.Replied? && outcome.body.Content? ==> v == outcome.body.value
    ensures outcome.Replied? && (outcome.body.NoMessage? || outcome.body.NoContent?)
      ==> v == PyStr(OllamaPlaceholder)
    ensures outcome.Unreachable? ==> v == PyStr(OllamaErrorPrefix + outcome.detail)
    ensures outcome.Replied? && (outcome.body.BodyNotObject? || outcome.body.MessageNotObject?)
      ==> v == PyStr(OllamaErrorPrefix + NoGetMessage(outcome.body.typeName))
  {
    match outcome
    case Unreachable(d) => PyStr(OllamaErrorPrefix + d)
    case Replied(body) =>
      match body
      case BodyNotObject(t) => PyStr(OllamaErrorPrefix + NoGetMessage(t))
      case NoMessage => PyStr(OllamaPlaceholder)
      case MessageNotObject(t) => PyStr(OllamaErrorPrefix + NoGetMessage(t))
      case NoContent => PyStr(OllamaPlaceholder)
      case Content(v) => v
  }
}
