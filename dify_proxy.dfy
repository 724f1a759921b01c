/** The general relay cloud function (cloudfunctions/difyProxy/index.js): the
    chat and judge endpoints of the LLM service behind one switch. */
module DifyProxy {
  import opened Wrappers
  import opened JsString
  import opened JsValue
  import opened Relay
  import BaseUrl

  const BASE_VAR: string := "DIFY_BASE_URL"
  const KEY_VAR: string := "DIFY_API_KEY"
  const TIMEOUT_MS: nat := 15000
  const MISSING: string := "Cloud env missing DIFY_BASE_URL or DIFY_API_KEY"
  const CHAT_PATH: string := "/v1/chat-messages"
  const JUDGE_PATH: string := "/v1/judge"

  /** `exports.main`: `chatMessages` and `judge` each post once to their own
      path; `ping` posts nothing; every failure has a truthy error. */
  function Main(event: Json, env: map<string, string>, server: Post -> PostOutcome): (r: Handled)
    ensures |r.posts| <= 1
    ensures r.posts != [] ==>
      ((Get(event, "action") == Str("chatMessages") && r.posts[0].path == CHAT_PATH)
       || (Get(event, "action") == Str("judge") && r.posts[0].path == JUDGE_PATH))
      && r.posts[0].body == PayloadOf(event)
      && r.posts[0].client.baseUrl == BaseUrl.Normalize(EnvOr(env, BASE_VAR))
    ensures r.reply.Failure? ==> Truthy(r.reply.error)
  {
    var action := Get(event, "action");
    if action == Str("chatMessages") then
      Forward(env, BASE_VAR, KEY_VAR, TIMEOUT_MS, MISSING, CHAT_PATH, PayloadOf(event), server)
    else if action == Str("judge") then
      Forward(env, BASE_VAR, KEY_VAR, TIMEOUT_MS, MISSING, JUDGE_PATH, PayloadOf(event), server)
    else if action == Str("ping") then Handled(Success(Pong()), [])
    else Handled(UnknownAction(action), [])
  }

  /** With a base URL and a key, both forwarding actions post the payload (or
      `{}`) once and pass the reply or the error, with its status, through. */
  lemma Forwards(event: Json, env: map<string, string>, server: Post -> PostOutcome)
    requires Get(event, "action") in {Str("chatMessages"), Str("judge")}
    requires BaseUrl.Normalize(EnvOr(env, BASE_VAR)) != "" && EnvOr(env, KEY_VAR) != ""
    ensures var path := if Get(event, "action") == Str("judge") then JUDGE_PATH else CHAT_PATH;
      var p := Post(Client(BaseUrl.Normalize(EnvOr(env, BASE_VAR)), EnvOr(env, KEY_VAR), TIMEOUT_MS), path, PayloadOf(event));
      Main(event, env, server) == Handled(Deliver(server(p)), [p])
  {
  }

  /** A missing base URL or key is caught: `{ ok: false }`, no post. */
  lemma MissingConfig(event: Json, env: map<string, string>, server: Post -> PostOutcome)
    requires Get(event, "action") in {Str("chatMessages"), Str("judge")}
    requires BaseUrl.Normalize(EnvOr(env, BASE_VAR)) == "" || EnvOr(env, KEY_VAR) == ""
    ensures Main(event, env, server) == Handled(Failure(Undefined, Str(MISSING), Undefined), [])
  {
  }

  /** `ping` needs no configuration; any other action is refused by name. */
  lemma PingAndUnknown(event: Json, env: map<string, string>, server: Post -> PostOutcome)
    ensures Get(event, "action") == Str("ping") ==> Main(event, env, server) == Handled(Success(Pong()), [])
    ensures Get(event, "action") !in {Str("chatMessages"), Str("judge"), Str("ping")} ==>
      Main(event, env, server) == Handled(Unknown("Unknown action: " + ToStr(Get(event, "action"))), [])
  {
  }
}
