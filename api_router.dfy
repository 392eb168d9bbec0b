/**
 * The generated top-level request router (src/api/server/index.ts): a version prefix, then a
 * namespace prefix that selects the `default` handler group.
 */
module ApiRouter {
  import opened Wrappers
  import opened JsText
  import opened Json
  import opened FineErrors
  import opened ApiServer

  /** Where a request context is sent. */
  datatype Route =
    | ToDefault
    | Rejected(error: FineError)
    /** `ctx.path` is not a string, so `startsWith` throws a `TypeError`. */
    | PathNotString

  /** The `path` field of a forwarded context, when it is a string. */
  function PathOf(ctx: map<string, Json>): Option<string> {
    if "path" in ctx && ctx["path"].JStr? then Some(ctx["path"].s) else None
  }

  /** The routing decision of `dispatch`. */
  function RouteOf(ctx: map<string, Json>): (r: Route)
    ensures PathOf(ctx).None? <==> r == PathNotString
    ensures r == ToDefault <==> PathOf(ctx).Some? && "/v1/default/" <= PathOf(ctx).value
    ensures PathOf(ctx).Some? && !("/v1" <= PathOf(ctx).value) ==>
              r == Rejected(NewFineError(NotFound, Some("invalid invocation version")))
    ensures PathOf(ctx).Some? && "/v1" <= PathOf(ctx).value && !("/v1/default/" <= PathOf(ctx).value) ==>
              r == Rejected(NewFineError(NotFound, Some("invalid invocation")))
  {
    match PathOf(ctx)
    case None => PathNotString
    case Some(path) =>
      if !StartsWith(path, "/v1") then Rejected(NewFineError(NotFound, Some("invalid invocation version")))
      else
        var rest := path[3..];
        assert path == "/v1" + rest;
        assert StartsWith(rest, "/default/") <==> "/v1/default/" <= path;
        if StartsWith(rest, "/default/") then ToDefault
        else Rejected(NewFineError(NotFound, Some("invalid invocation")))
  }

  /** Paths that share the version's characters but not its segment are refused. */
  lemma NearMissPaths(ctx: map<string, Json>)
    requires PathOf(ctx) == Some("/v1x/default/a") || PathOf(ctx) == Some("/v12/default/a")
    ensures RouteOf(ctx) == Rejected(NewFineError(NotFound, Some("invalid invocation")))
  {
    assert !("/v1/default/" <= "/v1x/default/a") by { assert "/v1x/default/a"[3] == 'x'; }
    assert !("/v1/default/" <= "/v12/default/a") by { assert "/v12/default/a"[3] == '2'; }
  }

  /**
   * The message of the `TypeError` that `ctx.path.startsWith` raises when the path is not a
   * string, in the wording of the V8 engine Node.js runs on.
   */
  function PathTypeError(path: Option<Json>): (message: string)
    ensures message == [] <==> path.Some? && path.value.JStr?
  {
    match path
    case None => "Cannot read properties of undefined (reading 'startsWith')"
    case Some(JNull) => "Cannot read properties of null (reading 'startsWith')"
    case Some(JStr(_)) => ""
    case Some(_) => "ctx.path.startsWith is not a function"
  }

  /**
   * `dispatch(ctx, impl)`: the default handler, given the context unchanged (full path
   * included), is called for its routes, and nothing is called otherwise.
   */
  function Dispatch(ctx: map<string, Json>, handleDefault: map<string, Json> -> DispatchOutcome): (out: DispatchOutcome)
    ensures RouteOf(ctx) == ToDefault ==> out == handleDefault(ctx)
    ensures RouteOf(ctx).Rejected? ==> out == Threw(ctx, ThrownFine(RouteOf(ctx).error))
    ensures RouteOf(ctx) == PathNotString ==> out.Threw? && out.ctx == ctx && out.thrown.ThrownOther?
    ensures RouteOf(ctx) == PathNotString ==> out.thrown.message == Some(PathTypeError(Get(ctx, "path")))
  {
    match RouteOf(ctx)
    case ToDefault => handleDefault(ctx)
    case Rejected(e) => Threw(ctx, ThrownFine(e))
    case PathNotString => Threw(ctx, ThrownOther(Some(PathTypeError(Get(ctx, "path")))))
  }

  /** A request without a path is answered with an internal error carrying the engine's message. */
  lemma MissingPathReply(payload: map<string, Json>, handleDefault: map<string, Json> -> DispatchOutcome)
    requires "path" !in payload
    ensures var reply := Reply(payload, ctx => Dispatch(ctx, handleDefault));
      reply["error"] == JObj(map["name" := JStr("FineError"), "kind" := JStr("internal"),
                                 "message" := JStr("Cannot read properties of undefined (reading 'startsWith')")])
  {
    var e := NewFineError(Internal, Some("Cannot read properties of undefined (reading 'startsWith')"));
    assert Dispatch(payload, handleDefault) == Threw(payload, ThrownOther(Some(e.message.value)));
    assert ToJson(e) == map["name" := JStr("FineError"), "kind" := JStr("internal"),
                            "message" := JStr("Cannot read properties of undefined (reading 'startsWith')")];
  }

  /**
   * A request with the wrong version is answered with its own fields, without `path`,
   * `state` and `method`, and the serialised not-found error.
   */
  lemma WrongVersionReply(payload: map<string, Json>, handleDefault: map<string, Json> -> DispatchOutcome)
    requires PathOf(payload).Some? && !("/v1" <= PathOf(payload).value)
    ensures var reply := Reply(payload, ctx => Dispatch(ctx, handleDefault));
      && reply["error"] == JObj(map["name" := JStr("FineError"), "kind" := JStr("not-found"),
                                    "message" := JStr("invalid invocation version")])
      && forall k | k in payload && k !in RequestOnlyFields && k != "error" :: k in reply && reply[k] == payload[k]
  {
    var e := NewFineError(NotFound, Some("invalid invocation version"));
    assert Dispatch(payload, handleDefault) == Threw(payload, ThrownFine(e));
    assert ToJson(e) == map["name" := JStr("FineError"), "kind" := JStr("not-found"),
                            "message" := JStr("invalid invocation version")];
  }
}
