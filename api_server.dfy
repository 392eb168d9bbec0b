/**
 * The server side of the web interface (src/adk/api-server.ts): parameter validators, the
 * shaping of the reply to one request, and the list of open socket connections.
 */
module ApiServer {
  import opened Wrappers
  import opened JsText
  import opened Json
  import opened FineErrors
  import opened JsArray

  /** The error every parameter validator throws. */
  function InvalidParameter(name: string, raw: string): FineError {
    NewFineError(Common, Some("invalid parameter " + name + " value " + raw))
  }

  /** `validateNumber`: any string `parseInt` reads a number from. */
  function ValidateNumber(name: string, raw: string): (r: Result<int, FineError>)
    ensures r.Err? <==> ParseInt(raw).None?
    ensures r.Ok? ==> ParseInt(raw) == Some(r.value)
    ensures r.Err? ==> r.error == InvalidParameter(name, raw)
  {
    match ParseInt(raw)
    case None => Err(InvalidParameter(name, raw))
    case Some(n) => Ok(n)
  }

  /** `validateId`: as `validateNumber`, and the number must be positive. */
  function ValidateId(name: string, raw: string): (r: Result<int, FineError>)
    ensures r.Ok? <==> ParseInt(raw).Some? && ParseInt(raw).value > 0
    ensures r.Ok? ==> r.value > 0 && ParseInt(raw) == Some(r.value)
    ensures r.Err? ==> r.error == InvalidParameter(name, raw)
  {
    match ParseInt(raw)
    case Some(n) => if n <= 0 then Err(InvalidParameter(name, raw)) else Ok(n)
    case None => Err(InvalidParameter(name, raw))
  }

  /** Every number written in decimal passes `validateNumber` and reads back as itself. */
  lemma ValidateNumberAcceptsNumerals(name: string, n: int)
    ensures ValidateNumber(name, IntToString(n)) == Ok(n)
  {
    ParseIntOfIntToString(n);
  }

  /** A number written in decimal passes `validateId` exactly when it is positive. */
  lemma ValidateIdOfNumerals(name: string, n: int)
    ensures ValidateId(name, IntToString(n)).Ok? <==> n > 0
    ensures n > 0 ==> ValidateId(name, IntToString(n)) == Ok(n)
  {
    ParseIntOfIntToString(n);
  }

  /** `validateId` accepts only what `validateNumber` accepts, with the same value. */
  lemma ValidateIdRefinesNumber(name: string, raw: string)
    ensures ValidateId(name, raw).Ok? ==> ValidateNumber(name, raw) == ValidateId(name, raw)
    ensures ValidateNumber(name, raw).Err? ==> ValidateId(name, raw) == ValidateNumber(name, raw)
  {
  }

  /** `validateBody`: the body is refused when it is falsy or has no own keys. */
  function ValidateBody(body: Option<Json>): (r: Result<Json, FineError>)
    ensures r.Ok? <==> body.Some? && Truthy(body) && KeyCount(body.value) > 0
    ensures r.Ok? ==> r.value == body.value
    ensures r.Err? ==> r.error == NewFineError(Common, Some("invalid empty body"))
  {
    if !Truthy(body) || KeyCount(body.value) == 0 then Err(NewFineError(Common, Some("invalid empty body")))
    else Ok(body.value)
  }

  /** A falsy body has no keys either, so the refusal is decided by the key count alone. */
  lemma ValidateBodyByKeys(body: Json)
    ensures ValidateBody(Some(body)).Ok? <==> KeyCount(body) > 0
  {
  }

  /** How the dispatcher left the request context: returned, or threw. */
  datatype DispatchOutcome =
    | Completed(ctx: map<string, Json>)
    | Threw(ctx: map<string, Json>, thrown: Thrown)

  /** The error stored in the context for a thrown value. */
  function ErrorOf(t: Thrown): (e: FineError)
    ensures t.ThrownFine? ==> e == t.error
    ensures t.ThrownOther? ==> e.kind == Internal && e.message == t.message
  {
    match t
    case ThrownFine(e) => e
    case ThrownOther(message) => NewFineError(Internal, message)
  }

  /** The fields removed from every reply. */
  const RequestOnlyFields: set<string> := {"path", "state", "method"}

  /**
   * The reply object for a request context that is an object: the dispatcher's context, with
   * the error it threw added and the three request-only fields deleted.
   */
  function Reply(ctx: map<string, Json>, dispatch: map<string, Json> -> DispatchOutcome): (reply: map<string, Json>)
    ensures var out := dispatch(ctx);
      && (forall k | k in RequestOnlyFields :: k !in reply)
      && (out.Threw? ==> "error" in reply && reply["error"] == JObj(ToJson(ErrorOf(out.thrown))))
      && (forall k | k in out.ctx && k !in RequestOnlyFields && !(out.Threw? && k == "error")
            :: k in reply && reply[k] == out.ctx[k])
      && (forall k | k in reply :: k in out.ctx || (out.Threw? && k == "error"))
  {
    var after := match dispatch(ctx)
      case Completed(c) => c
      case Threw(c, t) => c["error" := JObj(ToJson(ErrorOf(t)))];
    after - RequestOnlyFields
  }

  /**
   * What one data event leads to: the value written back (`None` when nothing is written) and
   * whether the asynchronous handler rejects.
   */
  datatype DataOutcome = DataOutcome(written: Option<Json>, rejected: bool)

  /** A JSON primitive other than `null`. */
  predicate IsPrimitive(v: Json) {
    v.JBool? || v.JNum? || v.JStr?
  }

  /**
   * The `data` handler (src/adk/api-server.ts:89-113) on the parsed payload, `None` when
   * `JSON.parse` throws (the context then stays `{}`). The dispatcher reads `ctx.path` first
   * (src/api/server/index.ts:15), so on a context that is not an object it throws; then
   * - for `null`, setting `ctx.error` throws in the `catch` and deleting `ctx.path` throws in
   *   the `finally`, so nothing is written and the handler rejects;
   * - for a boolean, number or string, setting `ctx.error` throws in strict-mode code, the
   *   deletions succeed and the value itself is written, and the handler rejects;
   * - for an array, `error` is set but is not serialised, so the array itself is written.
   */
  function HandleData(payload: Option<Json>, dispatch: map<string, Json> -> DispatchOutcome): (out: DataOutcome)
    ensures out.written.None? <==> payload == Some(JNull)
    ensures out.rejected <==> payload.Some? && (payload.value == JNull || IsPrimitive(payload.value))
    ensures payload.None? ==> out.written == Some(JObj(Reply(map[], dispatch)))
    ensures payload.Some? && payload.value.JObj? ==> out.written == Some(JObj(Reply(payload.value.fields, dispatch)))
    ensures payload.Some? && payload.value != JNull && !payload.value.JObj? ==> out.written == payload
  {
    match payload
    case None => DataOutcome(Some(JObj(Reply(map[], dispatch))), false)
    case Some(JObj(fields)) => DataOutcome(Some(JObj(Reply(fields, dispatch))), false)
    case Some(JNull) => DataOutcome(None, true)
    case Some(JArr(items)) => DataOutcome(Some(JArr(items)), false)
    case Some(v) => DataOutcome(Some(v), true)
  }

  /** An object payload, or one that does not parse, is answered with an object that has no request-only field. */
  lemma ObjectRepliesDropRequestFields(payload: Option<Json>, dispatch: map<string, Json> -> DispatchOutcome)
    requires payload.None? || payload.value.JObj?
    ensures var out := HandleData(payload, dispatch);
      && !out.rejected && out.written.Some? && out.written.value.JObj?
      && forall k | k in RequestOnlyFields :: k !in out.written.value.fields
  {
  }

  /** A payload of `[]` is answered with `[]`: the error the dispatcher threw is not in the reply. */
  lemma ArrayReplyHasNoError(dispatch: map<string, Json> -> DispatchOutcome)
    ensures HandleData(Some(JArr([])), dispatch) == DataOutcome(Some(JArr([])), false)
  {
  }

  /** A socket connection of the server, by identity. */
  type SocketId = nat

  /**
   * The Unix-socket server: the connections it tracks and the replies it has written, as
   * pairs of connection and reply object.
   */
  class ApiServer {
    var connections: seq<SocketId>
    var nextSocket: SocketId
    var replies: seq<(SocketId, Json)>
    /** The number of data handlers whose promise rejected, unhandled. */
    var rejections: nat

    /** Tracked connections are distinct live sockets. */
    ghost predicate Valid()
      reads this
    {
      Distinct(connections) && forall c | c in connections :: c < nextSocket
    }

    constructor ()
      ensures Valid() && connections == [] && replies == [] && rejections == 0
    {
      connections := [];
      nextSocket := 0;
      replies := [];
      rejections := 0;
    }

    /** A client connects: the new socket is appended to the list. */
    method OnConnection() returns (c: SocketId)
      requires Valid()
      modifies this`connections, this`nextSocket
      ensures Valid()
      ensures c !in old(connections) && connections == old(connections) + [c]
    {
      c := nextSocket;
      nextSocket := nextSocket + 1;
      assert c !in connections;
      connections := connections + [c];
    }

    /** A socket closes: `connections.splice(connections.indexOf(c), 1)`. */
    method OnClose(c: SocketId)
      requires Valid()
      modifies this`connections
      ensures connections == SpliceOne(old(connections), PositionOf(old(connections), c))
      ensures c in old(connections) ==> Valid() && c !in connections
      ensures c !in old(connections) && old(connections) != [] ==> connections == old(connections)[..|old(connections)| - 1]
    {
      connections := SpliceOne(connections, PositionOf(connections, c));
      if c in old(connections) {
        RemovePresent(old(connections), c);
      } else if old(connections) != [] {
        RemoveAbsent(old(connections), c);
      }
    }

    /**
     * A data event on socket `c`: at most one reply is written back on the same socket, and a
     * rejected handler is counted.
     */
    method OnData(c: SocketId, payload: Option<Json>, dispatch: map<string, Json> -> DispatchOutcome)
      modifies this`replies, this`rejections
      ensures var out := HandleData(payload, dispatch);
        && replies == old(replies) + (if out.written.Some? then [(c, out.written.value)] else [])
        && rejections == old(rejections) + (if out.rejected then 1 else 0)
    {
      var out := HandleData(payload, dispatch);
      if out.written.Some? {
        replies := replies + [(c, out.written.value)];
      }
      if out.rejected {
        rejections := rejections + 1;
      }
    }

    /** `shutdownAPIServer`: every tracked socket is destroyed, in list order. */
    method Shutdown() returns (destroyed: seq<SocketId>)
      ensures destroyed == connections
    {
      destroyed := [];
      for i := 0 to |connections|
        invariant destroyed == connections[..i]
      {
        destroyed := destroyed + [connections[i]];
      }
    }
  }
}
