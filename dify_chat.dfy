/** The chat relay cloud function (cloudfunctions/difyChat/index.js): forwards
    a chat message to the LLM service, reports its configuration, answers
    pings, and turns every failure into an `{ ok: false }` reply. */
module DifyChat {
  import opened Wrappers
  import opened JsString
  import opened JsValue
  import opened Relay
  import BaseUrl

  const BASE_VAR: string := "DIFY_CHAT_BASE_URL"
  const KEY_VAR: string := "DIFY_CHAT_API_KEY"
  const TIMEOUT_MS: nat := 15000
  const MISSING: string := "Cloud env missing DIFY_CHAT_BASE_URL or DIFY_CHAT_API_KEY"
  const CHAT_PATH: string := "/v1/chat-messages"

  /** `diagnoseConfig()`: which settings are present, and the normalised base. */
  function DiagnoseConfig(env: map<string, string>): (r: Json)
    ensures Get(r, "base_present") == Bool(BaseUrl.Normalize(EnvOr(env, BASE_VAR)) != "")
    ensures Get(r, "api_present") == Bool(EnvOr(env, KEY_VAR) != "")
    ensures Get(r, "base") == Str(BaseUrl.Normalize(EnvOr(env, BASE_VAR)))
  {
    var base := BaseUrl.Normalize(EnvOr(env, BASE_VAR));
    var fields := [("base_present", Bool(base != "")), ("api_present", Bool(EnvOr(env, KEY_VAR) != "")), ("base", Str(base))];
    assert Lookup(fields[1..], "api_present") == Bool(EnvOr(env, KEY_VAR) != "");
    assert Lookup(fields[1..][1..], "base") == Str(base);
    assert Lookup(fields[1..], "base") == Str(base);
    Obj(fields)
  }

  /** `exports.main`: the action switch. Only `chatMessages` posts, at most once;
      every failure is an `{ ok: false }` reply with a truthy error. */
  function Main(event: Json, env: map<string, string>, server: Post -> PostOutcome): (r: Handled)
    ensures |r.posts| <= 1
    ensures r.posts != [] ==>
      (Get(event, "action") == Str("chatMessages") && r.posts[0].path == CHAT_PATH && r.posts[0].body == PayloadOf(event)
       && r.posts[0].client.baseUrl == BaseUrl.Normalize(EnvOr(env, BASE_VAR)))
    ensures r.reply.Failure? ==> Truthy(r.reply.error)
  {
    var action := Get(event, "action");
    if action == Str("chatMessages") then
      Forward(env, BASE_VAR, KEY_VAR, TIMEOUT_MS, MISSING, CHAT_PATH, PayloadOf(event), server)
    else if action == Str("diagnoseChat") then Handled(Success(DiagnoseConfig(env)), [])
    else if action == Str("ping") then Handled(Success(Pong()), [])
    else Handled(UnknownAction(action), [])
  }

  /** `ping` and `diagnoseChat` need no configuration and make no post. */
  lemma PingAndDiagnose(event: Json, env: map<string, string>, server: Post -> PostOutcome)
    ensures Get(event, "action") == Str("ping") ==> Main(event, env, server) == Handled(Success(Pong()), [])
    ensures Get(event, "action") == Str("diagnoseChat") ==>
      Main(event, env, server) == Handled(Success(DiagnoseConfig(env)), [])
  {
  }

  /** With a base URL and a key, `chatMessages` posts the payload (or `{}`)
      once and passes the service's reply or error through. */
  lemma ChatForwards(event: Json, env: map<string, string>, server: Post -> PostOutcome)
    requires Get(event, "action") == Str("chatMessages")
    requires BaseUrl.Normalize(EnvOr(env, BASE_VAR)) != "" && EnvOr(env, KEY_VAR) != ""
    ensures var p := Post(Client(BaseUrl.Normalize(EnvOr(env, BASE_VAR)), EnvOr(env, KEY_VAR), TIMEOUT_MS), CHAT_PATH, PayloadOf(event));
      Main(event, env, server) == Handled(Deliver(server(p)), [p])
  {
  }

  /** A missing base URL or key becomes `{ ok: false }` with the configuration
      message, no status, and no post. */
  lemma MissingConfig(event: Json, env: map<string, string>, server: Post -> PostOutcome)
    requires Get(event, "action") == Str("chatMessages")
    requires BaseUrl.Normalize(EnvOr(env, BASE_VAR)) == "" || EnvOr(env, KEY_VAR) == ""
    ensures Main(event, env, server) == Handled(Failure(Undefined, Str(MISSING), Undefined), [])
  {
  }

  /** Any other action is refused by name, without a post. */
  lemma UnknownRefused(event: Json, env: map<string, string>, server: Post -> PostOutcome)
    requires Get(event, "action") !in {Str("chatMessages"), Str("diagnoseChat"), Str("ping")}
    ensures Main(event, env, server) == Handled(Unknown("Unknown action: " + ToStr(Get(event, "action"))), [])
  {
  }
}
