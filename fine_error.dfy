/**
 * `FineError`, the error record shared by the API layers (src/adk/error.ts), and the values a
 * handler can throw.
 */
module FineErrors {
  import opened Wrappers
  import opened Json

  /** The nine error kinds. */
  datatype FineErrorKind =
    | Common
    | NotFound
    | Auth
    | Unreachable
    | MethodNotAllowed
    | Internal
    | BadGateway
    | ServiceNotAvailable
    | GatewayTimeout

  /** The string literal of a kind. */
  function KindName(k: FineErrorKind): string {
    match k
    case Common => "common"
    case NotFound => "not-found"
    case Auth => "auth"
    case Unreachable => "unreachable"
    case MethodNotAllowed => "method-not-allowed"
    case Internal => "internal"
    case BadGateway => "bad-gateway"
    case ServiceNotAvailable => "service-not-available"
    case GatewayTimeout => "gateway-timeout"
  }

  /** The kind a string literal names, if it names one. */
  function KindFromName(s: string): (k: Option<FineErrorKind>)
    ensures k.Some? ==> KindName(k.value) == s
  {
    if s == "common" then Some(Common)
    else if s == "not-found" then Some(NotFound)
    else if s == "auth" then Some(Auth)
    else if s == "unreachable" then Some(Unreachable)
    else if s == "method-not-allowed" then Some(MethodNotAllowed)
    else if s == "internal" then Some(Internal)
    else if s == "bad-gateway" then Some(BadGateway)
    else if s == "service-not-available" then Some(ServiceNotAvailable)
    else if s == "gateway-timeout" then Some(GatewayTimeout)
    else None
  }

  /** Every kind's literal reads back as that kind, so the nine literals are distinct. */
  lemma KindNameRoundTrip(k: FineErrorKind)
    ensures KindFromName(KindName(k)) == Some(k)
  {
  }

  /** The fields of a `FineError`, all of them own properties. */
  datatype FineErrorRecord = FineErrorRecord(name: string, kind: FineErrorKind, message: Option<string>)

  /** A `FineError` as its constructor builds it: the `name` is always "FineError". */
  type FineError = e: FineErrorRecord | e.name == "FineError"
    witness FineErrorRecord("FineError", Common, None)

  /** `new FineError(kind, message)` */
  function NewFineError(kind: FineErrorKind, message: Option<string>): (e: FineError)
    ensures e.kind == kind && e.message == message
  {
    FineErrorRecord("FineError", kind, message)
  }

  /**
   * What `JSON.stringify` keeps of a `FineError`: `name`, `kind` and, when given, `message`
   * (an `undefined` property is dropped).
   */
  function ToJson(e: FineError): map<string, Json> {
    map["name" := JStr(e.name), "kind" := JStr(KindName(e.kind))]
      + (if e.message.Some? then map["message" := JStr(e.message.value)] else map[])
  }

  /** Reading an error record back from its JSON object. */
  function FromJson(m: map<string, Json>): Option<FineError> {
    if Get(m, "name") != Some(JStr("FineError")) then None
    else if !("kind" in m && m["kind"].JStr?) then None
    else
      match KindFromName(m["kind"].s)
      case None => None
      case Some(kind) =>
        if "message" !in m then Some(NewFineError(kind, None))
        else if m["message"].JStr? then Some(NewFineError(kind, Some(m["message"].s)))
        else None
  }

  /** The record survives serialisation: every field is an own property. */
  lemma JsonRoundTrip(e: FineError)
    ensures FromJson(ToJson(e)) == Some(e)
  {
    KindNameRoundTrip(e.kind);
    var m := ToJson(e);
    assert m["name"] == JStr("FineError");
    assert m["kind"] == JStr(KindName(e.kind));
    if e.message.Some? {
      assert m["message"] == JStr(e.message.value);
    } else {
      assert "message" !in m;
    }
  }

  /** A thrown value: a `FineError`, or any other error with its `message` property. */
  datatype Thrown = ThrownFine(error: FineError) | ThrownOther(message: Option<string>)
}
