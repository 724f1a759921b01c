/** The judge relay cloud function (cloudfunctions/difyJudge/index.js): runs
    the judge workflow of the LLM service. It chooses the workflow id, copies
    the case summary under every input name the workflow might expect, posts
    to `/v1/workflows/run` and, if that fails, to `/v1/workflows/{id}/run`. */
module DifyJudge {
  import opened Wrappers
  import opened JsString
  import opened JsValue
  import opened Relay
  import BaseUrl

  const BASE_VAR: string := "DIFY_WORKFLOW_BASE_URL"
  const KEY_VAR: string := "DIFY_WORKFLOW_API_KEY"
  const JUDGE_ID_VAR: string := "DIFY_JUDGE_WORKFLOW_ID"
  const WORKFLOW_ID_VAR: string := "DIFY_WORKFLOW_ID"
  const TIMEOUT_MS: nat := 20000
  const MISSING: string := "Cloud env missing DIFY_WORKFLOW_BASE_URL or DIFY_WORKFLOW_API_KEY"
  const RUN_PATH: string := "/v1/workflows/run"

  /** The input names the summary is copied under, in the order they are tried. */
  const ALIASES: seq<string> := ["summary", "Summary", "case_summary", "caseSummary", "input", "text", "content"]

  // ---------------------------------------------------------------------
  // The request body

  /** `(DIFY_JUDGE_WORKFLOW_ID || DIFY_WORKFLOW_ID || '').trim()` */
  function EnvWorkflowId(env: map<string, string>): string {
    Trim(if EnvOr(env, JUDGE_ID_VAR) != "" then EnvOr(env, JUDGE_ID_VAR) else EnvOr(env, WORKFLOW_ID_VAR))
  }

  /** `(payload?.workflow_id || payload?.workflowId || '').toString().trim()` */
  function PayloadWorkflowId(payload: Json): string {
    Trim(ToStr(Or(Or(Get(payload, "workflow_id"), Get(payload, "workflowId")), Str(""))))
  }

  /** `envWorkflowId || payloadWorkflowId`: the environment wins. */
  function WorkflowId(env: map<string, string>, payload: Json): (id: string)
    ensures EnvWorkflowId(env) != "" ==> id == EnvWorkflowId(env)
    ensures EnvWorkflowId(env) == "" ==> id == PayloadWorkflowId(payload)
  {
    if EnvWorkflowId(env) != "" then EnvWorkflowId(env) else PayloadWorkflowId(payload)
  }

  /** `fields[keys[0]] ?? fields[keys[1]] ?? ...`: the first value that is
      neither `null` nor `undefined`. */
  function FirstPresent(fields: seq<(string, Json)>, keys: seq<string>): (r: Json)
    ensures forall i :: 0 <= i < |keys| && FirstPresentAt(fields, keys, i) ==> r == Lookup(fields, keys[i])
    ensures NoneBefore(fields, keys, |keys|) ==> Nullish(r)
  {
    if keys == [] then Undefined
    else
      var rest := FirstPresent(fields, keys[1..]);
      forall i | 1 <= i <= |keys| && NoneBefore(fields, keys, i) ensures NoneBefore(fields, keys[1..], i - 1) {
        forall j | 0 <= j < i - 1 ensures Nullish(Lookup(fields, keys[1..][j])) {
          assert keys[1..][j] == keys[j + 1];
        }
      }
      Coalesce(Lookup(fields, keys[0]), rest)
  }

  /** None of the first `i` keys holds a value other than `null`/`undefined`. */
  predicate NoneBefore(fields: seq<(string, Json)>, keys: seq<string>, i: nat)
    requires i <= |keys|
  {
    forall j :: 0 <= j < i ==> Nullish(Lookup(fields, keys[j]))
  }

  /** Key `i` is the first that holds a value other than `null`/`undefined`. */
  predicate FirstPresentAt(fields: seq<(string, Json)>, keys: seq<string>, i: nat)
    requires i < |keys|
  {
    !Nullish(Lookup(fields, keys[i])) && NoneBefore(fields, keys, i)
  }

  /** The alias loop: every alias still `undefined` receives `v`, in order. */
  function FillAliases(fields: seq<(string, Json)>, keys: seq<string>, v: Json): (r: seq<(string, Json)>)
    requires v != Undefined
    ensures forall k :: k in keys ==> Lookup(r, k) == if Lookup(fields, k) == Undefined then v else Lookup(fields, k)
    ensures forall k :: k !in keys ==> Lookup(r, k) == Lookup(fields, k)
    ensures |Keys(fields)| <= |Keys(r)| && Keys(r)[..|fields|] == Keys(fields)
  {
    if keys == [] then fields
    else
      var init := FillAliases(fields, keys[..|keys| - 1], v);
      var k := keys[|keys| - 1];
      FillStep(fields, keys[..|keys| - 1], k, init, v);
      assert keys == keys[..|keys| - 1] + [k];
      if Lookup(init, k) == Undefined then Assign(init, k, v) else init
  }

  /** One turn of the alias loop keeps the loop's promises. */
  lemma FillStep(fields: seq<(string, Json)>, keys: seq<string>, k: string, init: seq<(string, Json)>, v: Json)
    requires v != Undefined
    requires forall x :: x in keys ==> Lookup(init, x) == if Lookup(fields, x) == Undefined then v else Lookup(fields, x)
    requires forall x :: x !in keys ==> Lookup(init, x) == Lookup(fields, x)
    requires |Keys(fields)| <= |Keys(init)| && Keys(init)[..|fields|] == Keys(fields)
    ensures var r := if Lookup(init, k) == Undefined then Assign(init, k, v) else init;
      && (forall x :: x in keys + [k] ==> Lookup(r, x) == if Lookup(fields, x) == Undefined then v else Lookup(fields, x))
      && (forall x :: x !in keys + [k] ==> Lookup(r, x) == Lookup(fields, x))
      && |Keys(fields)| <= |Keys(r)| && Keys(r)[..|fields|] == Keys(fields)
  {
    var r := if Lookup(init, k) == Undefined then Assign(init, k, v) else init;
    forall x | x in keys + [k] ensures Lookup(r, x) == if Lookup(fields, x) == Undefined then v else Lookup(fields, x) {
      if x != k {
        assert x in keys;
      } else if k !in keys {
        assert Lookup(init, k) == Lookup(fields, k);
      }
    }
    forall x | x !in keys + [k] ensures Lookup(r, x) == Lookup(fields, x) {
      assert x !in keys && x != k;
    }
    if Lookup(init, k) == Undefined {
      assert Keys(r)[..|fields|] == Keys(init)[..|fields|];
    }
  }

  /** `const { user, ...rest } = payload`: every property but `user`. */
  function Rest(payload: Json): seq<(string, Json)> {
    Without(OwnEntries(payload), "user")
  }

  /** `summaryValue`: the first alias present, or `''`. */
  function SummaryValue(payload: Json): Json {
    Or(FirstPresent(Rest(payload), ALIASES), Str(""))
  }

  /** The `inputs` object after the alias loop. */
  function Inputs(payload: Json): seq<(string, Json)> {
    var sv := SummaryValue(payload);
    if Truthy(sv) then FillAliases(Rest(payload), ALIASES, sv) else Rest(payload)
  }

  /** `{ inputs, response_mode: 'blocking' }`, plus `user` when truthy. */
  function Body(inputs: seq<(string, Json)>, user: Json): seq<(string, Json)> {
    [("inputs", Obj(inputs)), ("response_mode", Str("blocking"))] + (if Truthy(user) then [("user", user)] else [])
  }

  /** The body carries the inputs, blocking mode, the user only when truthy,
      and no workflow id. */
  lemma BodyIs(inputs: seq<(string, Json)>, user: Json)
    ensures Lookup(Body(inputs, user), "inputs") == Obj(inputs)
    ensures Lookup(Body(inputs, user), "response_mode") == Str("blocking")
    ensures Lookup(Body(inputs, user), "user") == if Truthy(user) then user else Undefined
    ensures "workflow_id" !in Keys(Body(inputs, user))
  {
    var b := Body(inputs, user);
    var t := b[1..];
    assert t[0].0 == "response_mode";
    assert "inputs" != "user" && "response_mode" != "user" by {
      assert |"inputs"| != |"user"| && |"response_mode"| != |"user"|;
    }
    assert Lookup(t[1..], "user") == if Truthy(user) then user else Undefined;
    assert Lookup(b, "user") == Lookup(t, "user");
    var ks := Keys(b);
    forall i | 0 <= i < |ks| ensures ks[i] != "workflow_id" {
      assert |ks[i]| != |"workflow_id"|;
    }
  }

  /** The user is never one of the workflow's inputs; the summary sits under
      every alias that the caller left undefined, and nothing else changes. */
  lemma InputsAre(payload: Json)
    ensures Lookup(Inputs(payload), "user") == Undefined
    ensures Truthy(SummaryValue(payload)) ==> forall k :: k in ALIASES ==>
      Lookup(Inputs(payload), k) == if Lookup(Rest(payload), k) == Undefined then SummaryValue(payload) else Lookup(Rest(payload), k)
    ensures forall k :: k !in ALIASES && k != "user" ==> Lookup(Inputs(payload), k) == Get(payload, k)
    ensures !Truthy(SummaryValue(payload)) ==> Inputs(payload) == Rest(payload)
  {
    assert "user" !in ALIASES;
  }

  /** An alias given as `''` (or any falsy non-null value) ends the search and
      leaves every alias as it was. */
  lemma FalsyAliasStopsFilling(payload: Json, i: nat)
    requires i < |ALIASES| && FirstPresentAt(Rest(payload), ALIASES, i) && !Truthy(Lookup(Rest(payload), ALIASES[i]))
    ensures Inputs(payload) == Rest(payload)
  {
    var fp := FirstPresent(Rest(payload), ALIASES);
    assert fp == Lookup(Rest(payload), ALIASES[i]);
    assert SummaryValue(payload) == Str("");
  }

  // ---------------------------------------------------------------------
  // The two posts

  /** The outcome of `proxyWorkflowJudge`, with the posts it made. */
  datatype Run = Run(result: Result<Json, Thrown>, posts: seq<Post>)

  function RunOf(outcome: PostOutcome): Result<Json, Thrown> {
    match outcome
    case Posted(data) => Ok(data)
    case PostFailed(err) => Err(err)
  }

  /** `/v1/workflows/run` with the workflow id added to the body first; the
      RESTful path only when that failed and there is an id. */
  function PostsFor(client: Client, id: string, body: seq<(string, Json)>, server: Post -> PostOutcome): Run {
    var first := Post(client, RUN_PATH, Obj(Assign(body, "workflow_id", Str(id))));
    match server(first)
    case Posted(data) => Run(Ok(data), [first])
    case PostFailed(err) =>
      if id != "" then
        var second := Post(client, "/v1/workflows/" + id + "/run", Obj(body));
        Run(RunOf(server(second)), [first, second])
      else Run(Err(err), [first])
  }

  /** The first post carries the workflow id in its body; a second post, to
      the RESTful path, is made exactly when the first failed and there is an
      id; the run ends with the outcome of the last post made. */
  lemma RunPosts(client: Client, id: string, body: seq<(string, Json)>, server: Post -> PostOutcome)
    ensures var r := PostsFor(client, id, body, server);
      1 <= |r.posts| <= 2
      && r.posts[0] == Post(client, RUN_PATH, Obj(Assign(body, "workflow_id", Str(id))))
      && (|r.posts| == 2 <==> server(r.posts[0]).PostFailed? && id != "")
      && (|r.posts| == 2 ==> r.posts[1] == Post(client, "/v1/workflows/" + id + "/run", Obj(body)))
      && r.result == RunOf(server(r.posts[|r.posts| - 1]))
  {
  }

  /** What `proxyWorkflowJudge(payload)` does once the client is built. */
  function WorkflowRun(client: Client, env: map<string, string>, payload: Json, server: Post -> PostOutcome): Run {
    PostsFor(client, WorkflowId(env, payload), Body(Inputs(payload), Get(payload, "user")), server)
  }

  /** The alias loop over a copy of the payload's properties. */
  method FillInputs(rest: seq<(string, Json)>, summaryValue: Json) returns (inputs: seq<(string, Json)>)
    requires Truthy(summaryValue)
    ensures inputs == FillAliases(rest, ALIASES, summaryValue)
  {
    inputs := rest;
    for i := 0 to |ALIASES|
      invariant inputs == FillAliases(rest, ALIASES[..i], summaryValue)
    {
      assert ALIASES[..i + 1][..i] == ALIASES[..i];
      if Lookup(inputs, ALIASES[i]) == Undefined {
        inputs := Assign(inputs, ALIASES[i], summaryValue);
      }
    }
    assert ALIASES[..|ALIASES|] == ALIASES;
  }

  /** The properties copied out of the payload, `user` left out, with every
      missing alias filled when there is a summary value. */
  method CopyInputs(payload: Json) returns (inputs: seq<(string, Json)>)
    ensures inputs == Inputs(payload)
  {
    var rest := Without(OwnEntries(payload), "user");
    var summaryValue := Or(FirstPresent(rest, ALIASES), Str(""));
    inputs := rest;
    if Truthy(summaryValue) {
      inputs := FillInputs(rest, summaryValue);
    }
  }

  /** The `try` on `/v1/workflows/run`, then the `catch` that tries the
      RESTful path when there is an id, else rethrows. */
  method TryPaths(client: Client, id: string, body: seq<(string, Json)>, server: Post -> PostOutcome) returns (r: Run)
    ensures r == PostsFor(client, id, body, server)
  {
    var first := Post(client, RUN_PATH, Obj(Assign(body, "workflow_id", Str(id))));
    var outcome := server(first);
    if outcome.Posted? {
      r := Run(Ok(outcome.data), [first]);
    } else if id != "" {
      var second := Post(client, "/v1/workflows/" + id + "/run", Obj(body));
      r := Run(RunOf(server(second)), [first, second]);
    } else {
      r := Run(Err(outcome.err), [first]);
    }
  }

  /** `proxyWorkflowJudge(payload)` after `buildClient()` succeeded: the alias
      loop fills `inputs` in place, then the posts are tried in sequence. */
  method ProxyWorkflowJudge(client: Client, env: map<string, string>, payload: Json, server: Post -> PostOutcome) returns (r: Run)
    ensures r == WorkflowRun(client, env, payload, server)
  {
    var workflowId := WorkflowId(env, payload);
    var user := Get(payload, "user");
    var inputs := CopyInputs(payload);
    var body := [("inputs", Obj(inputs)), ("response_mode", Str("blocking"))];
    if Truthy(user) {
      body := body + [("user", user)];
    }
    assert body == Body(Inputs(payload), user);
    r := TryPaths(client, workflowId, body, server);
  }

  // ---------------------------------------------------------------------
  // Diagnosis and dispatch

  /** `workflow_id_hint`: the first six characters and an ellipsis, or `''`. */
  function Hint(id: string): (h: string)
    ensures id == "" ==> h == ""
    ensures 0 < |id| <= 6 ==> h == id + "…"
    ensures |id| > 6 ==> h == id[..6] + "…"
  {
    if id != "" then Slice(id, 0, 6) + "…" else ""
  }

  /** `diagnoseConfig()`: presence flags, the normalised base and the hint,
      computed without any post. */
  function DiagnoseConfig(env: map<string, string>): (r: Json)
    ensures Get(r, "base_present") == Bool(BaseUrl.Normalize(EnvOr(env, BASE_VAR)) != "")
    ensures Get(r, "api_present") == Bool(EnvOr(env, KEY_VAR) != "")
    ensures Get(r, "workflow_present") == Bool(EnvWorkflowId(env) != "")
    ensures Get(r, "base") == Str(BaseUrl.Normalize(EnvOr(env, BASE_VAR)))
    ensures Get(r, "workflow_id_hint") == Str(Hint(EnvWorkflowId(env)))
  {
    var base := BaseUrl.Normalize(EnvOr(env, BASE_VAR));
    var id := EnvWorkflowId(env);
    var fields := [("base_present", Bool(base != "")), ("api_present", Bool(EnvOr(env, KEY_VAR) != "")),
                   ("workflow_present", Bool(id != "")), ("base", Str(base)), ("workflow_id_hint", Str(Hint(id)))];
    assert Lookup(fields[4..], "workflow_id_hint") == Str(Hint(id));
    assert Lookup(fields[3..], "workflow_id_hint") == Str(Hint(id));
    assert Lookup(fields[3..], "base") == Str(base);
    assert Lookup(fields[2..], "workflow_id_hint") == Str(Hint(id));
    assert Lookup(fields[2..], "base") == Str(base);
    assert Lookup(fields[2..], "workflow_present") == Bool(id != "");
    assert Lookup(fields[1..], "workflow_id_hint") == Str(Hint(id));
    assert Lookup(fields[1..], "base") == Str(base);
    assert Lookup(fields[1..], "workflow_present") == Bool(id != "");
    assert Lookup(fields[1..], "api_present") == Bool(EnvOr(env, KEY_VAR) != "");
    Obj(fields)
  }

  predicate IsJudgeAction(action: Json) {
    action == Str("workflowJudge") || action == Str("judge")
  }

  /** The reply for the outcome of a run. */
  function RunReply(result: Result<Json, Thrown>): RelayReply {
    if result.Ok? then Success(result.value) else ErrorReply(result.error)
  }

  /** The `workflowJudge` / `judge` branch of `exports.main`: a configuration
      error is answered without any post; otherwise the reply is the outcome of
      the workflow run, together with the posts that run made. */
  function JudgeAction(env: map<string, string>, payload: Json, server: Post -> PostOutcome): (r: Handled)
    ensures |r.posts| <= 2 && (r.reply.Failure? ==> Truthy(r.reply.error))
    ensures var built := BuildClient(env, BASE_VAR, KEY_VAR, TIMEOUT_MS, MISSING);
      built.Err? ==> r == Handled(ErrorReply(built.error), [])
    ensures var built := BuildClient(env, BASE_VAR, KEY_VAR, TIMEOUT_MS, MISSING);
      built.Ok? ==> r == Handled(RunReply(WorkflowRun(built.value, env, payload, server).result), WorkflowRun(built.value, env, payload, server).posts)
  {
    match BuildClient(env, BASE_VAR, KEY_VAR, TIMEOUT_MS, MISSING)
    case Err(e) => Handled(ErrorReply(e), [])
    case Ok(client) =>
      var run := WorkflowRun(client, env, payload, server);
      RunPosts(client, WorkflowId(env, payload), Body(Inputs(payload), Get(payload, "user")), server);
      Handled(RunReply(run.result), run.posts)
  }

  /** `exports.main`: both judge actions run the workflow; a configuration
      error is caught before any post; every failure has a truthy error. */
  function Main(event: Json, env: map<string, string>, server: Post -> PostOutcome): (r: Handled)
    ensures |r.posts| <= 2
    ensures r.posts != [] ==> IsJudgeAction(Get(event, "action"))
    ensures r.reply.Failure? ==> Truthy(r.reply.error)
    ensures IsJudgeAction(Get(event, "action")) ==> r == JudgeAction(env, PayloadOf(event), server)
  {
    var action := Get(event, "action");
    if IsJudgeAction(action) then JudgeAction(env, PayloadOf(event), server)
    else if action == Str("diagnoseJudge") then Handled(Success(DiagnoseConfig(env)), [])
    else if action == Str("ping") then Handled(Success(Pong()), [])
    else Handled(UnknownAction(action), [])
  }

  /** A judge run succeeds with the data of the last post made, and fails with
      that post's error, status and body passed through. */
  lemma JudgeReply(event: Json, env: map<string, string>, server: Post -> PostOutcome)
    requires IsJudgeAction(Get(event, "action"))
    requires BaseUrl.Normalize(EnvOr(env, BASE_VAR)) != "" && EnvOr(env, KEY_VAR) != ""
    ensures var r := Main(event, env, server);
      r.posts != [] && r.reply == Deliver(server(r.posts[|r.posts| - 1]))
  {
    assert Main(event, env, server) == JudgeAction(env, PayloadOf(event), server);
    JudgeActionReply(env, PayloadOf(event), server);
  }

  lemma JudgeActionReply(env: map<string, string>, payload: Json, server: Post -> PostOutcome)
    requires BaseUrl.Normalize(EnvOr(env, BASE_VAR)) != "" && EnvOr(env, KEY_VAR) != ""
    ensures var r := JudgeAction(env, payload, server);
      r.posts != [] && r.reply == Deliver(server(r.posts[|r.posts| - 1]))
  {
    var client := BuildClient(env, BASE_VAR, KEY_VAR, TIMEOUT_MS, MISSING).value;
    RunDelivers(client, WorkflowId(env, payload), Body(Inputs(payload), Get(payload, "user")), server);
  }

  lemma RunDelivers(client: Client, id: string, body: seq<(string, Json)>, server: Post -> PostOutcome)
    ensures var run := PostsFor(client, id, body, server);
      run.posts != [] && RunReply(run.result) == Deliver(server(run.posts[|run.posts| - 1]))
  {
    RunPosts(client, id, body, server);
  }

  /** A judge action without a base URL or key fails before any post. */
  lemma MissingConfigNoPost(event: Json, env: map<string, string>, server: Post -> PostOutcome)
    requires IsJudgeAction(Get(event, "action"))
    requires BaseUrl.Normalize(EnvOr(env, BASE_VAR)) == "" || EnvOr(env, KEY_VAR) == ""
    ensures Main(event, env, server) == Handled(Failure(Undefined, Str(MISSING), Undefined), [])
  {
    assert Main(event, env, server) == JudgeAction(env, PayloadOf(event), server);
    assert BuildClient(env, BASE_VAR, KEY_VAR, TIMEOUT_MS, MISSING).Err?;
    ConfigErrorReply(MISSING);
  }

  /** An action outside the switch is refused without a post. */
  lemma UnknownNoPost(event: Json, env: map<string, string>, server: Post -> PostOutcome)
    requires !IsJudgeAction(Get(event, "action"))
    requires Get(event, "action") != Str("diagnoseJudge") && Get(event, "action") != Str("ping")
    ensures Main(event, env, server) == Handled(Unknown("Unknown action: " + ToStr(Get(event, "action"))), [])
  {
    assert Main(event, env, server) == Handled(UnknownAction(Get(event, "action")), []);
  }

  /** Missing configuration, `ping` and unknown actions make no post. */
  lemma NoPostCases(event: Json, env: map<string, string>, server: Post -> PostOutcome)
    ensures IsJudgeAction(Get(event, "action")) && (BaseUrl.Normalize(EnvOr(env, BASE_VAR)) == "" || EnvOr(env, KEY_VAR) == "") ==>
      Main(event, env, server) == Handled(Failure(Undefined, Str(MISSING), Undefined), [])
    ensures Get(event, "action") == Str("ping") ==> Main(event, env, server) == Handled(Success(Pong()), [])
    ensures !IsJudgeAction(Get(event, "action")) && Get(event, "action") != Str("diagnoseJudge") && Get(event, "action") != Str("ping") ==>
      Main(event, env, server) == Handled(Unknown("Unknown action: " + ToStr(Get(event, "action"))), [])
  {
    var action := Get(event, "action");
    if IsJudgeAction(action) {
      if BaseUrl.Normalize(EnvOr(env, BASE_VAR)) == "" || EnvOr(env, KEY_VAR) == "" {
        MissingConfigNoPost(event, env, server);
      }
    } else if action == Str("ping") {
      assert action != Str("diagnoseJudge");
    } else if action != Str("diagnoseJudge") {
      UnknownNoPost(event, env, server);
    }
  }
}
