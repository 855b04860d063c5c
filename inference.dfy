/**
  The result handling of the one round trip to the local inference service:
  how the outcome of the request becomes the analysis record the agent reads,
  without ever raising.
 */
module Inference {
  import opened Options

  /**
    How the request ended. `ConnectionFailure` is a connection error raised by
    the HTTP client, a connect timeout included; `RequestFailure` is any other
    exception caught by the outer handler, with its message: a non-success
    status, a read timeout, a body that is not a JSON object, or a `response`
    field that is not a string (which `json.loads` refuses with a type error).
    `Replied` carries the reply's `response` field when it is a string, or ""
    when the field is missing.
   */
  datatype Outcome = ConnectionFailure | RequestFailure(message: string) | Replied(text: string)

  /**
    The analysis record. A JSON object decoded from the reply gives a
    `Record` whose fields are `None` where the key is missing; any other JSON
    value (a list, a string, a number, null) is a `NonRecord`.
   */
  datatype Analysis =
    | Record(diagnosis: Option<string>, suggestedFix: Option<string>, commands: Option<seq<string>>)
    | NonRecord

  /**
    What `json.loads` makes of the reply text: a decode error, which the inner
    handler catches; any other exception it raises (a recursion error on
    deeply nested text, a value error for an over-long integer literal), with
    its message, which only the outer handler catches; or a document.
   */
  datatype JsonLoad = Malformed | DecodeRaises(message: string) | Document(value: Analysis)

  const ParseFailureFix := "Could not parse specific fix from model output."
  const ConnectionDiagnosis := "Connection Error"
  const ConnectionFix := "Start Ollama"
  const ErrorPrefix := "Error: "
  const ErrorFix := "N/A"

  /** `analysis.get('pdb_commands', [])`. */
  function CommandsOf(a: Analysis): seq<string>
    requires a.Record?
  {
    match a.commands
    case None => []
    case Some(cs) => cs
  }

  /** Whether `json.loads` raised something other than a decode error on the reply. */
  predicate DecodeFailed(outcome: Outcome, decode: string -> JsonLoad)
  {
    outcome.Replied? && decode(outcome.text).DecodeRaises?
  }

  /** Whether the reply decoded to a document. */
  predicate Decoded(outcome: Outcome, decode: string -> JsonLoad)
  {
    outcome.Replied? && decode(outcome.text).Document?
  }

  /**
    The result of `query_ollama` for a given outcome, with `decode` standing
    for `json.loads`. Every outcome gives a result; every path other than a
    decoded document gives a record with an empty command list: the raw text
    and the parse marker for undecodable text, the connection marker for a
    connection error, and the error text for any other failure. A decoded
    document is returned as it is. An exception from `json.loads` other than a
    decode error escapes the inner handler and gives the error text as well.
   */
  function Classify(outcome: Outcome, decode: string -> JsonLoad): (r: Analysis)
    ensures !Decoded(outcome, decode) ==> r.Record? && r.commands == Some([])
    ensures Decoded(outcome, decode) ==> r == decode(outcome.text).value
    ensures outcome.ConnectionFailure? ==>
      r.diagnosis == Some(ConnectionDiagnosis) && r.suggestedFix == Some(ConnectionFix)
    ensures outcome.RequestFailure? ==>
      r.diagnosis == Some(ErrorPrefix + outcome.message) && r.suggestedFix == Some(ErrorFix)
    ensures DecodeFailed(outcome, decode) ==>
      r.diagnosis == Some(ErrorPrefix + decode(outcome.text).message) && r.suggestedFix == Some(ErrorFix)
    ensures outcome.Replied? && decode(outcome.text).Malformed? ==>
      r.diagnosis == Some(outcome.text) && r.suggestedFix == Some(ParseFailureFix)
  {
    match outcome
    case ConnectionFailure =>
      Record(Some(ConnectionDiagnosis), Some(ConnectionFix), Some([]))
    case RequestFailure(message) =>
      Record(Some(ErrorPrefix + message), Some(ErrorFix), Some([]))
    case Replied(text) =>
      match decode(text)
      case Document(value) => value
      case DecodeRaises(message) => Record(Some(ErrorPrefix + message), Some(ErrorFix), Some([]))
      case Malformed => Record(Some(text), Some(ParseFailureFix), Some([]))
  }
}
