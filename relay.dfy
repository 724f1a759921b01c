/** What the three cloud relays (difyChat, difyProxy, difyJudge) share: the
    axios client built from the environment, the post to the LLM service as
    an oracle, the reply records `{ ok, data }` / `{ ok: false, ... }`, and
    the normalisation of a caught error. */
module Relay {
  import opened Wrappers
  import opened JsString
  import opened JsValue
  import BaseUrl

  /** A caught error: its `message` and its `response` (`undefined` for an
      error that did not come from an HTTP reply). */
  datatype Thrown = Thrown(message: Json, response: Json)

  /** The configured axios client. */
  datatype Client = Client(baseUrl: string, apiKey: string, timeoutMs: nat)

  /** One `client.post(path, body)`. */
  datatype Post = Post(client: Client, path: string, body: Json)

  /** What the service did with a post: replied with `data`, or the post threw. */
  datatype PostOutcome = Posted(data: Json) | PostFailed(err: Thrown)

  /** The record `main` resolves with. */
  datatype RelayReply =
    | Success(data: Json)                                /* { ok: true, data } */
    | Unknown(message: string)                           /* { ok: false, error } */
    | Failure(status: Json, error: Json, detail: Json)   /* { ok: false, status, error, detail } */

  /** A reply together with the posts made to produce it, in order. */
  datatype Handled = Handled(reply: RelayReply, posts: seq<Post>)

  /** `process.env[name] || ''` */
  function EnvOr(env: map<string, string>, name: string): string {
    if name in env then env[name] else ""
  }

  /** `buildClient()`: the normalised base URL and the key, or the thrown
      configuration error when either is empty. */
  function BuildClient(env: map<string, string>, baseVar: string, keyVar: string, timeoutMs: nat, missing: string): (r: Result<Client, Thrown>)
    ensures r.Ok? <==> BaseUrl.Normalize(EnvOr(env, baseVar)) != "" && EnvOr(env, keyVar) != ""
    ensures r.Ok? ==> r.value == Client(BaseUrl.Normalize(EnvOr(env, baseVar)), EnvOr(env, keyVar), timeoutMs)
    ensures r.Err? ==> r.error == Thrown(Str(missing), Undefined)
  {
    var baseUrl := BaseUrl.Normalize(EnvOr(env, baseVar));
    var apiKey := EnvOr(env, keyVar);
    if baseUrl == "" || apiKey == "" then Err(Thrown(Str(missing), Undefined))
    else Ok(Client(baseUrl, apiKey, timeoutMs))
  }

  /** `a && b` */
  function And(a: Json, b: Json): Json {
    if Truthy(a) then b else a
  }

  /** `(respData && (respData.error || respData.message)) || err?.message || 'Proxy error'` */
  function ErrorMessage(err: Thrown): (m: Json)
    ensures Truthy(m)
  {
    var respData := Get(err.response, "data");
    Or(And(respData, Or(Get(respData, "error"), Get(respData, "message"))), Or(err.message, Str("Proxy error")))
  }

  /** The service's own error text wins over the error's message, which wins
      over the fixed fallback. */
  lemma ErrorMessagePrecedence(err: Thrown)
    ensures var d := Get(err.response, "data");
      ErrorMessage(err) ==
        if Truthy(d) && Truthy(Get(d, "error")) then Get(d, "error")
        else if Truthy(d) && Truthy(Get(d, "message")) then Get(d, "message")
        else if Truthy(err.message) then err.message
        else Str("Proxy error")
  {
  }

  /** The `catch` block: status and body of the HTTP reply passed through. */
  function ErrorReply(err: Thrown): (r: RelayReply)
    ensures r.Failure? && Truthy(r.error)
    ensures r.status == Get(err.response, "status") && r.detail == Get(err.response, "data")
  {
    Failure(Get(err.response, "status"), ErrorMessage(err), Get(err.response, "data"))
  }

  /** The reply for the configuration error: no status, the message, no body. */
  lemma ConfigErrorReply(missing: string)
    requires missing != ""
    ensures ErrorReply(Thrown(Str(missing), Undefined)) == Failure(Undefined, Str(missing), Undefined)
  {
    assert Get(Undefined, "data") == Undefined && Get(Undefined, "status") == Undefined;
  }

  /** `{ ok: true, data: result }` for a post that resolved, the caught error otherwise. */
  function Deliver(outcome: PostOutcome): (r: RelayReply)
    ensures outcome.Posted? ==> r == Success(outcome.data)
    ensures outcome.PostFailed? ==> r == ErrorReply(outcome.err)
  {
    match outcome
    case Posted(data) => Success(data)
    case PostFailed(err) => ErrorReply(err)
  }

  /** `event?.payload || {}` */
  function PayloadOf(event: Json): (p: Json)
    ensures Truthy(p)
  {
    Or(Get(event, "payload"), Obj([]))
  }

  /** `{ pong: true }` */
  function Pong(): Json {
    Obj([("pong", Bool(true))])
  }

  /** `` `Unknown action: ${action}` `` */
  function UnknownAction(action: Json): (r: RelayReply)
    ensures r.Unknown? && |r.message| >= 16 && r.message[..16] == "Unknown action: "
  {
    Unknown("Unknown action: " + ToStr(action))
  }

  /** One post through a client built from the environment: a configuration
      error is caught before any post is made. */
  function Forward(env: map<string, string>, baseVar: string, keyVar: string, timeoutMs: nat, missing: string,
                   path: string, body: Json, server: Post -> PostOutcome): (r: Handled)
    ensures |r.posts| <= 1 && (r.reply.Failure? ==> Truthy(r.reply.error))
    ensures r.posts != [] ==>
      (r.posts[0].path == path && r.posts[0].body == body && r.posts[0].client.baseUrl == BaseUrl.Normalize(EnvOr(env, baseVar)))
    ensures BuildClient(env, baseVar, keyVar, timeoutMs, missing).Err? ==>
      r == Handled(ErrorReply(Thrown(Str(missing), Undefined)), [])
    ensures BuildClient(env, baseVar, keyVar, timeoutMs, missing).Ok? ==>
      var p := Post(BuildClient(env, baseVar, keyVar, timeoutMs, missing).value, path, body);
      r == Handled(Deliver(server(p)), [p])
  {
    match BuildClient(env, baseVar, keyVar, timeoutMs, missing)
    case Err(e) => Handled(ErrorReply(e), [])
    case Ok(client) =>
      var p := Post(client, path, body);
      Handled(Deliver(server(p)), [p])
  }
}
