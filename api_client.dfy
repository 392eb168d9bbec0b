/**
 * The browser-side API client (src/adk/api-client.ts): how a request is built and how the
 * response settles the returned promise. The `fetch` itself is a parameter.
 */
module ApiClient {
  import opened Wrappers
  import opened JsText
  import opened Json

  datatype Verb = GET | POST | PUT | PATCH | DELETE

  function VerbName(v: Verb): string {
    match v
    case GET => "GET"
    case POST => "POST"
    case PUT => "PUT"
    case PATCH => "PATCH"
    case DELETE => "DELETE"
  }

  /** Different verbs send different method names. */
  lemma VerbNameInjective(a: Verb, b: Verb)
    requires VerbName(a) == VerbName(b)
    ensures a == b
  {
  }

  const Origin: string := "https://api.domain.com"

  /**
   * The request handed to `fetch`. `body` is the value that is serialised with
   * `JSON.stringify`; `token` is the stored access token, `None` when there is none.
   */
  datatype Request = Request(url: string, methodName: string, body: Option<Json>, token: Option<string>, contentType: string)

  /** The fields of the request `impl` sends. */
  function MakeRequest(verb: Verb, path: string, body: Option<Json>, token: Option<string>): (r: Request)
    ensures r.url == Origin + path && r.methodName == VerbName(verb) && r.token == token
    ensures r.body.Some? <==> Truthy(body)
    ensures r.body.Some? ==> r.body == body
    ensures r.contentType == "application/json" <==> Truthy(body)
    ensures !Truthy(body) ==> r.contentType == "application/octec-stream"
  {
    Request(Origin + path, VerbName(verb),
      if Truthy(body) then body else None,
      token,
      if Truthy(body) then "application/json" else "application/octec-stream")
  }

  /** The path can be read back from the URL: the request goes where the caller asked. */
  lemma UrlNamesPath(verb: Verb, path: string, body: Option<Json>, token: Option<string>)
    ensures var url := MakeRequest(verb, path, body, token).url;
      StartsWith(url, Origin) && url[|Origin|..] == path
  {
  }

  /** What `fetch` returned: the status, the Content-Type header if any, and the parsed body. */
  datatype Response = Response(status: int, contentType: Option<string>, json: Option<Json>)

  /** How the promise returned by `impl` settles. */
  datatype Settlement =
    | Resolved(data: Json)
    | Rejected(reason: Json)
    /** The body was announced as JSON and `response.json()` rejected. */
    | BodyUnreadable

  predicate IsJson(contentType: Option<string>) {
    contentType.Some? && Includes(contentType.value, "application/json")
  }

  function MessageObject(text: string): Json {
    JObj(map["message" := JStr(text)])
  }

  /** `Math.floor(status / 100)` */
  function StatusClass(status: int): int {
    status / 100
  }

  /** Classification of a response, by the ok range and then by the status class. */
  function Settle(resp: Response): Settlement {
    if IsJson(resp.contentType) && resp.json.None? then BodyUnreadable
    else
      var data := if IsJson(resp.contentType) then resp.json.value else JObj(map[]);
      if 200 <= resp.status <= 299 then Resolved(data)
      else if StatusClass(resp.status) == 4 then Rejected(data)
      else if StatusClass(resp.status) == 5 then Rejected(MessageObject("internal error"))
      else Rejected(MessageObject("unknown error"))
  }

  /**
   * An unreadable JSON body fails; otherwise a status in 200-299 resolves with the body, a
   * 4xx rejects with the body, a 5xx with "internal error" and any other status (1xx, 3xx,
   * out of range) with "unknown error". A body not announced as JSON reads as `{}`.
   */
  lemma SettleByStatus(resp: Response)
    ensures var s := Settle(resp);
      && (s == BodyUnreadable <==> IsJson(resp.contentType) && resp.json.None?)
      && (s.Resolved? <==> !s.BodyUnreadable? && 200 <= resp.status <= 299)
      && (s.Resolved? ==> s.data == (if IsJson(resp.contentType) then resp.json.value else JObj(map[])))
      && (s.Rejected? && 400 <= resp.status < 500 ==>
            s.reason == (if IsJson(resp.contentType) then resp.json.value else JObj(map[])))
      && (s.Rejected? && 500 <= resp.status < 600 ==> s.reason == MessageObject("internal error"))
      && (s.Rejected? && !(200 <= resp.status < 600) ==> s.reason == MessageObject("unknown error"))
      && (s.Rejected? && 300 <= resp.status < 400 ==> s.reason == MessageObject("unknown error"))
  {
  }

  /** A response without a JSON body resolves with an empty object on success. */
  lemma NoContentResolvesEmpty(status: int)
    requires 200 <= status <= 299
    ensures Settle(Response(status, None, None)) == Resolved(JObj(map[]))
  {
  }

  /** The response bodies of client errors are handed to the caller; server errors' are not. */
  lemma ErrorBodies(status: int, body: Json)
    requires 400 <= status < 600
    ensures var s := Settle(Response(status, Some("application/json; charset=utf-8"), Some(body)));
      s.Rejected? && (s.reason == body <==> status < 500 || body == MessageObject("internal error"))
  {
    assert Includes("application/json; charset=utf-8", "application/json") by {
      assert "application/json" <= "application/json; charset=utf-8"[0..];
    }
    SettleByStatus(Response(status, Some("application/json; charset=utf-8"), Some(body)));
  }

  /** `impl(method, path, body)` with the network as the function `fetch`. */
  function Call(verb: Verb, path: string, body: Option<Json>, token: Option<string>, fetch: Request -> Response): Settlement {
    Settle(fetch(MakeRequest(verb, path, body, token)))
  }

  /** `get(path, body)` */
  function Get(path: string, body: Option<Json>, token: Option<string>, fetch: Request -> Response): Settlement {
    Call(GET, path, body, token, fetch)
  }

  /** `post(path, body)` */
  function Post(path: string, body: Option<Json>, token: Option<string>, fetch: Request -> Response): Settlement {
    Call(POST, path, body, token, fetch)
  }

  /** `put(path, body)` */
  function Put(path: string, body: Option<Json>, token: Option<string>, fetch: Request -> Response): Settlement {
    Call(PUT, path, body, token, fetch)
  }

  /** `patch(path, body)` */
  function Patch(path: string, body: Option<Json>, token: Option<string>, fetch: Request -> Response): Settlement {
    Call(PATCH, path, body, token, fetch)
  }

  /** `del(path, body)` */
  function Delete(path: string, body: Option<Json>, token: Option<string>, fetch: Request -> Response): Settlement {
    Call(DELETE, path, body, token, fetch)
  }
}
