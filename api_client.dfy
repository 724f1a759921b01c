/** The request layer of src/utils/apiClient.ts: the settings read from the
    environment, the direct HTTP request with its status classification and
    its retry with linear back-off, the call into a cloud function, and the
    routing of `chat` and `judge` between the mock fixtures, the cloud
    functions and the direct request. The transport (`uni.request`) and the
    cloud runtime (`wx.cloud.callFunction`) are oracles; the back-off timers
    are returned as the list of delays instead of being waited for. */
module ApiClient {
  import opened Wrappers
  import opened JsString
  import opened JsValue
  import opened Types
  import BaseUrl
  import Relay
  import WorkflowMapping

  const DEFAULT_TIMEOUT_MS: int := 15000
  const DEFAULT_RETRIES: nat := 2
  const CHAT_PATH: string := "/v1/chat-messages"

  const AUTH_FAILED: string := "鉴权失败，请检查配置"
  const RATE_LIMITED: string := "请求过于频繁，请稍后再试"
  const BUSY: string := "服务繁忙，请稍后再试"
  const UNAVAILABLE: string := "服务暂时不可用"
  const CLOUD_FAILED: string := "云函数请求失败"
  const CLOUD_UNAVAILABLE: string := "Cloud unavailable"
  const UNPARSABLE: string := "工作流返回不可解析"
  const BASE_URL_MISSING: string := "BASE_URL_MISSING"

  // ---------------------------------------------------------------------
  // Settings

  /** The module-level constants read once from the environment. */
  datatype Settings = Settings(baseUrl: string, apiKey: string, useMock: bool, forceCloudOnly: bool)

  /** `String(raw || '').toLowerCase() === 'true'`. Only the ASCII letters
      matter: no other character lower-cases to one of `t`, `r`, `u`, `e`. */
  predicate FlagOn(raw: string) {
    |raw| == 4 && AsciiLower(raw[0]) == 't' && AsciiLower(raw[1]) == 'r'
    && AsciiLower(raw[2]) == 'u' && AsciiLower(raw[3]) == 'e'
  }

  function SettingsOf(env: map<string, string>): (s: Settings)
    ensures s.baseUrl == BaseUrl.Normalize(Relay.EnvOr(env, "DIFY_BASE_URL"))
    ensures s.apiKey == Relay.EnvOr(env, "DIFY_API_KEY")
    ensures s.useMock <==> FlagOn(Relay.EnvOr(env, "USE_MOCK"))
    ensures s.forceCloudOnly <==> FlagOn(Relay.EnvOr(env, "FORCE_CLOUD_ONLY"))
  {
    Settings(BaseUrl.Normalize(Relay.EnvOr(env, "DIFY_BASE_URL")), Relay.EnvOr(env, "DIFY_API_KEY"),
             FlagOn(Relay.EnvOr(env, "USE_MOCK")), FlagOn(Relay.EnvOr(env, "FORCE_CLOUD_ONLY")))
  }

  /** `String(raw).toLowerCase()` on the letters that can matter here. */
  function LowerAscii(s: string): (r: string)
    ensures |r| == |s|
    ensures forall i :: 0 <= i < |s| ==> r[i] == AsciiLower(s[i])
  {
    seq(|s|, i requires 0 <= i < |s| => AsciiLower(s[i]))
  }

  /** A flag is on exactly when its lower-cased text is `true`. */
  lemma FlagOnIff(raw: string)
    ensures FlagOn(raw) <==> LowerAscii(raw) == "true"
  {
    var low := LowerAscii(raw);
    if FlagOn(raw) {
      assert low == ['t', 'r', 'u', 'e'];
    }
    if low == "true" {
      assert |raw| == 4;
      assert low[0] == 't' && low[1] == 'r' && low[2] == 'u' && low[3] == 'e';
    }
  }

  /** The flags ignore letter case but not surrounding white space. */
  lemma FlagSpellings()
    ensures FlagOn("true") && FlagOn("TRUE") && FlagOn("True")
    ensures !FlagOn(" true") && !FlagOn("1") && !FlagOn("yes") && !FlagOn("")
  {
  }

  /** `ensureBaseUrl()` */
  predicate BaseUrlOk(s: Settings) {
    s.baseUrl != "" || s.useMock
  }

  // ---------------------------------------------------------------------
  // The direct request

  /** One `uni.request` as issued. */
  datatype HttpCall = HttpCall(url: string, verb: string, data: Json, timeoutMs: int, authorization: string)

  /** What `uni.request` did: `success` with the status code (`0` when the
      reply carries none) and the body, or `fail`. */
  datatype HttpOutcome = Reply(status: int, data: Json) | TransportFailed(err: Json)

  /** Why a call rejected: an `Error` with this message, or an error value
      passed through as it was thrown. */
  datatype Rejection = Message(text: string) | Passed(err: Json)

  /** A request's result, the calls it issued in order, and the back-off
      delay waited before each call after the first. */
  datatype HttpRun = HttpRun(result: Result<Json, Rejection>, sent: seq<HttpCall>, delays: seq<nat>)

  predicate Success2xx(status: int) {
    200 <= status < 300
  }

  /** The statuses worth retrying: too many requests, and server errors. */
  predicate RetryableStatus(status: int) {
    status == 429 || status >= 500
  }

  /** The toast and rejection text for a non-2xx status. */
  function StatusMessage(status: int, serverMessage: Json): (m: string)
    ensures status == 401 || status == 403 ==> m == AUTH_FAILED
    ensures status == 429 ==> m == RATE_LIMITED
    ensures status >= 500 ==> m == BUSY
    ensures status !in {401, 403, 429} && status < 500 ==>
      m == if Truthy(serverMessage) then ToStr(serverMessage) else UNAVAILABLE
  {
    if status == 401 || status == 403 then AUTH_FAILED
    else if status == 429 then RATE_LIMITED
    else if status >= 500 then BUSY
    else if Truthy(serverMessage) then ToStr(serverMessage)
    else UNAVAILABLE
  }

  /** `` `HTTP_${status}: ${message}` `` */
  function HttpError(status: int, data: Json): (m: string)
    ensures |m| > 5 && m[..5] == "HTTP_"
  {
    "HTTP_" + IntToString(status) + ": " + StatusMessage(status, Get(data, "message"))
  }

  /** An outcome that `doRequest` retries while attempts remain. */
  predicate Retryable(o: HttpOutcome) {
    o.TransportFailed? || RetryableStatus(o.status)
  }

  /** How a request settles on an outcome it does not retry. */
  function Settle(o: HttpOutcome): Result<Json, Rejection> {
    match o
    case Reply(status, data) => if Success2xx(status) then Ok(data) else Err(Message(HttpError(status, data)))
    case TransportFailed(err) => Err(Passed(err))
  }

  /** `doRequest(attempt)`: `transport(i)` is what the `i`-th call (from 0)
      gets back. */
  function DoRequest(call: HttpCall, transport: nat -> HttpOutcome, maxRetries: nat, attempt: nat): HttpRun
    decreases maxRetries - attempt
  {
    var o := transport(attempt);
    if Retryable(o) && attempt < maxRetries then
      var later := DoRequest(call, transport, maxRetries, attempt + 1);
      HttpRun(later.result, [call] + later.sent, [300 * (attempt + 1)] + later.delays)
    else
      HttpRun(Settle(o), [call], [])
  }

  /** From attempt `a`, at most `maxRetries - a + 1` calls are made, all the
      same call, the `i`-th wait is `300 * (a + i + 1)` ms, every call but the
      last got a retryable outcome, and the request settles on the last one;
      it stops early only on an outcome it does not retry. */
  lemma {:induction false} DoRequestIs(call: HttpCall, transport: nat -> HttpOutcome, maxRetries: nat, a: nat)
    requires a <= maxRetries
    ensures var r := DoRequest(call, transport, maxRetries, a);
      && 1 <= |r.sent| <= maxRetries - a + 1
      && |r.delays| == |r.sent| - 1
      && (forall i :: 0 <= i < |r.sent| ==> r.sent[i] == call)
      && (forall i :: 0 <= i < |r.delays| ==> r.delays[i] == 300 * (a + i + 1))
      && (forall i :: a <= i < a + |r.sent| - 1 ==> Retryable(transport(i)))
      && r.result == Settle(transport(a + |r.sent| - 1))
      && (a + |r.sent| - 1 < maxRetries ==> !Retryable(transport(a + |r.sent| - 1)))
    decreases maxRetries - a
  {
    var o := transport(a);
    if Retryable(o) && a < maxRetries {
      DoRequestIs(call, transport, maxRetries, a + 1);
      var later := DoRequest(call, transport, maxRetries, a + 1);
      var r := DoRequest(call, transport, maxRetries, a);
      assert r.sent == [call] + later.sent && r.delays == [300 * (a + 1)] + later.delays;
      forall i | 1 <= i < |r.delays| ensures r.delays[i] == 300 * (a + i + 1) {
        assert r.delays[i] == later.delays[i - 1];
      }
      forall i | 1 <= i < |r.sent| ensures r.sent[i] == call {
        assert r.sent[i] == later.sent[i - 1];
      }
    } else if o.Reply? && Success2xx(o.status) {
      assert !RetryableStatus(o.status);
    }
  }

  /** `request(path, method, data, options)`: no call at all without a base
      URL outside mock mode; otherwise `doRequest(0)` with the defaults of
      15000 ms and 2 retries. */
  function Request(s: Settings, path: string, verb: string, data: Json, timeoutMs: Option<int>, retries: Option<nat>,
                   transport: nat -> HttpOutcome): (r: HttpRun)
    ensures !BaseUrlOk(s) ==> r == HttpRun(Err(Message(BASE_URL_MISSING)), [], [])
    ensures BaseUrlOk(s) ==> 1 <= |r.sent| <= retries.GetOr(DEFAULT_RETRIES) + 1
    ensures BaseUrlOk(s) ==>
      r.sent[0] == HttpCall(s.baseUrl + path, verb, data, timeoutMs.GetOr(DEFAULT_TIMEOUT_MS), "Bearer " + s.apiKey)
  {
    if !BaseUrlOk(s) then HttpRun(Err(Message(BASE_URL_MISSING)), [], [])
    else
      var call := HttpCall(s.baseUrl + path, verb, data, timeoutMs.GetOr(DEFAULT_TIMEOUT_MS), "Bearer " + s.apiKey);
      DoRequestIs(call, transport, retries.GetOr(DEFAULT_RETRIES), 0);
      DoRequest(call, transport, retries.GetOr(DEFAULT_RETRIES), 0)
  }

  /** Two server errors and then a success: three calls, waits of 300 and
      600 ms, and the reply's body. */
  lemma RecoversOnThirdAttempt(s: Settings, data: Json, body: Json)
    requires s.baseUrl != ""
    ensures var t := (i: nat) => if i < 2 then Reply(500, Null) else Reply(200, body);
      var r := Request(s, CHAT_PATH, "POST", data, None, None, t);
      r.result == Ok(body) && |r.sent| == 3 && r.delays == [300, 600]
  {
    var t := (i: nat) => if i < 2 then Reply(500, Null) else Reply(200, body);
    var call := HttpCall(s.baseUrl + CHAT_PATH, "POST", data, DEFAULT_TIMEOUT_MS, "Bearer " + s.apiKey);
    assert DoRequest(call, t, 2, 2) == HttpRun(Ok(body), [call], []);
    assert DoRequest(call, t, 2, 1) == HttpRun(Ok(body), [call, call], [600]);
  }

  /** A status that is not retried settles at once, whatever the budget. */
  lemma ClientErrorNotRetried(call: HttpCall, transport: nat -> HttpOutcome, maxRetries: nat, status: int, data: Json)
    requires transport(0) == Reply(status, data) && !Success2xx(status) && !RetryableStatus(status)
    ensures DoRequest(call, transport, maxRetries, 0) == HttpRun(Err(Message(HttpError(status, data))), [call], [])
  {
  }

  // ---------------------------------------------------------------------
  // Cloud functions

  /** One `wx.cloud.callFunction({ name, data: { action, payload } })`. */
  datatype CloudCall = CloudCall(name: string, action: string, payload: Json)

  /** What the call did: resolved with a response, or threw. */
  datatype CloudOutcome = CloudResolved(res: Json) | CloudThrew(err: Json)

  /** The `route` of `callCloud`: the chat relay for chat messages, the judge
      relay (and its `workflowJudge` action) for both judge actions, and the
      judge relay with the action unchanged otherwise. */
  function Route(action: string, payload: Json): (c: CloudCall)
    ensures action == "chatMessages" ==> c == CloudCall("difyChat", "chatMessages", payload)
    ensures action == "workflowJudge" || action == "judge" ==> c == CloudCall("difyJudge", "workflowJudge", payload)
    ensures action !in {"chatMessages", "workflowJudge", "judge"} ==> c == CloudCall("difyJudge", action, payload)
  {
    if action == "chatMessages" then CloudCall("difyChat", action, payload)
    else if action == "workflowJudge" || action == "judge" then CloudCall("difyJudge", "workflowJudge", payload)
    else CloudCall("difyJudge", action, payload)
  }

  /** `res?.result || {}` */
  function CloudResult(res: Json): Json {
    Or(Get(res, "result"), Obj([]))
  }

  /** The message of the error `callCloud` throws for a reply without `ok`. */
  function CloudError(result: Json): string {
    var status := Get(result, "status");
    var prefix := if Truthy(status) then "(" + ToStr(status) + ") " else "";
    Trim(prefix + ToStr(Or(Get(result, "error"), Str(CLOUD_FAILED))))
  }

  /** `callCloud(action, payload)`: the relay's `data` when it answered `ok`,
      its error (prefixed with the status) otherwise, and a thrown call
      passed through. */
  function CallCloud(action: string, payload: Json, cloud: CloudCall -> CloudOutcome): (r: Result<Json, Rejection>)
    ensures var o := cloud(Route(action, payload));
      && (r.Ok? <==> o.CloudResolved? && Truthy(Get(CloudResult(o.res), "ok")))
      && (r.Ok? ==> r.value == Get(CloudResult(o.res), "data"))
      && (o.CloudThrew? ==> r == Err(Passed(o.err)))
      && (o.CloudResolved? && r.Err? ==> r == Err(Message(CloudError(CloudResult(o.res)))))
  {
    match cloud(Route(action, payload))
    case CloudThrew(err) => Err(Passed(err))
    case CloudResolved(res) =>
      var result := CloudResult(res);
      if Truthy(Get(result, "ok")) then Ok(Get(result, "data")) else Err(Message(CloudError(result)))
  }

  /** A relay reply with neither status nor error text gives the fixed message. */
  lemma CloudErrorFallback(result: Json)
    requires !Truthy(Get(result, "status")) && !Truthy(Get(result, "error"))
    ensures CloudError(result) == CLOUD_FAILED
  {
    TrimUnchanged(CLOUD_FAILED);
  }

  // ---------------------------------------------------------------------
  // chat and judge

  /** The mock fixtures, which the model treats as given values. */
  datatype Fixtures = Fixtures(chat: Json, chatSummary: Json, verdict: JudgeResponse)

  /** `{ ...chatMock, metadata: { ...(chatMock.metadata || {}), round } }` */
  function WithRound(fixture: Json, round: int): (r: Json)
    ensures Get(Get(r, "metadata"), "round") == Num(round)
    ensures forall k :: k != "metadata" ==> Get(r, k) == Get(fixture, k)
  {
    var metadata := Obj(Assign(OwnEntries(Or(Get(fixture, "metadata"), Obj([]))), "round", Num(round)));
    Obj(Assign(OwnEntries(fixture), "metadata", metadata))
  }

  function OptStr(o: Option<string>): Json {
    if o.Some? then Str(o.value) else Undefined
  }

  /** `{ inputs: {}, query, response_mode: 'blocking', user, conversation_id }` */
  function ChatPayload(query: string, userId: Option<string>, conversationId: Option<string>): Json {
    Obj([("inputs", Obj([])), ("query", Str(query)), ("response_mode", Str("blocking")),
         ("user", OptStr(userId)), ("conversation_id", OptStr(conversationId))])
  }

  /** Everything one `chat` or `judge` call did: its result, the cloud calls
      and the direct calls it made, and the back-off delays. */
  datatype Exchange<T> = Exchange(result: Result<T, Rejection>, cloudCalls: seq<CloudCall>, sent: seq<HttpCall>, delays: seq<nat>)

  /** The direct request `chat` falls back to. */
  function DirectChat(s: Settings, payload: Json, cloudCalls: seq<CloudCall>, transport: nat -> HttpOutcome): Exchange<Json> {
    var run := Request(s, CHAT_PATH, "POST", payload, None, None, transport);
    Exchange(run.result, cloudCalls, run.sent, run.delays)
  }

  /** `chat(query, userId, conversationId)`, where `round` is `mockRound`
      after its increment. */
  function ChatExchange(s: Settings, cloudAvailable: bool, fixtures: Fixtures, round: int,
                        query: string, userId: Option<string>, conversationId: Option<string>,
                        cloud: CloudCall -> CloudOutcome, transport: nat -> HttpOutcome): Exchange<Json>
  {
    if s.useMock then
      Exchange(Ok(if round >= 3 then fixtures.chatSummary else WithRound(fixtures.chat, round)), [], [], [])
    else
      var payload := ChatPayload(query, userId, conversationId);
      if cloudAvailable then
        var call := Route("chatMessages", payload);
        match CallCloud("chatMessages", payload, cloud)
        case Ok(data) => Exchange(Ok(data), [call], [], [])
        case Err(e) =>
          if s.forceCloudOnly then Exchange(Err(e), [call], [], [])
          else DirectChat(s, payload, [call], transport)
      else if s.forceCloudOnly then Exchange(Err(Message(CLOUD_UNAVAILABLE)), [], [], [])
      else DirectChat(s, payload, [], transport)
  }

  /** In mock mode nothing is called; the third call after a reset and every
      later one give the summary fixture, earlier ones the chat fixture
      stamped with the round. */
  lemma MockRotation(s: Settings, cloudAvailable: bool, fixtures: Fixtures, round: int,
                     query: string, userId: Option<string>, conversationId: Option<string>,
                     cloud: CloudCall -> CloudOutcome, transport: nat -> HttpOutcome)
    requires s.useMock
    ensures var e := ChatExchange(s, cloudAvailable, fixtures, round, query, userId, conversationId, cloud, transport);
      && e.cloudCalls == [] && e.sent == [] && e.result.Ok?
      && (round >= 3 ==> e.result.value == fixtures.chatSummary)
      && (round < 3 ==> Get(Get(e.result.value, "metadata"), "round") == Num(round)
                        && forall k :: k != "metadata" ==> Get(e.result.value, k) == Get(fixtures.chat, k))
  {
  }

  /** Outside mock mode: the cloud is tried first, once; a cloud failure
      falls back to the direct request unless cloud-only is forced, in which
      case the failure is the result; without a cloud runtime the request
      goes direct, or fails at once when cloud-only is forced. */
  lemma ChatRouting(s: Settings, cloudAvailable: bool, fixtures: Fixtures, round: int,
                    query: string, userId: Option<string>, conversationId: Option<string>,
                    cloud: CloudCall -> CloudOutcome, transport: nat -> HttpOutcome)
    requires !s.useMock
    ensures var e := ChatExchange(s, cloudAvailable, fixtures, round, query, userId, conversationId, cloud, transport);
      var payload := ChatPayload(query, userId, conversationId);
      var c := CallCloud("chatMessages", payload, cloud);
      var direct := Request(s, CHAT_PATH, "POST", payload, None, None, transport);
      && (cloudAvailable ==> e.cloudCalls == [CloudCall("difyChat", "chatMessages", payload)])
      && (!cloudAvailable ==> e.cloudCalls == [])
      && (cloudAvailable && c.Ok? ==> e.result == c && e.sent == [])
      && (cloudAvailable && c.Err? && s.forceCloudOnly ==> e.result == c && e.sent == [])
      && (!cloudAvailable && s.forceCloudOnly ==> e.result == Err(Message(CLOUD_UNAVAILABLE)) && e.sent == [])
      && ((cloudAvailable ==> c.Err?) && !s.forceCloudOnly ==>
            e.result == direct.result && e.sent == direct.sent && e.delays == direct.delays)
  {
  }

  /** `judge(summary, userId)`: the verdict fixture in mock mode; otherwise the
      judge workflow through the cloud only, its result mapped, and a result
      the mapping rejects turned into an error. */
  function JudgeExchange(s: Settings, cloudAvailable: bool, fixtures: Fixtures, summary: string, userId: Option<string>,
                         cloud: CloudCall -> CloudOutcome): Exchange<JudgeResponse>
  {
    if s.useMock then Exchange(Ok(fixtures.verdict), [], [], [])
    else if !cloudAvailable then Exchange(Err(Message(CLOUD_UNAVAILABLE)), [], [], [])
    else
      var payload := Obj([("summary", Str(summary)), ("user", OptStr(userId))]);
      var call := Route("workflowJudge", payload);
      match CallCloud("workflowJudge", payload, cloud)
      case Err(e) => Exchange(Err(e), [call], [], [])
      case Ok(wf) =>
        var mapped := WorkflowMapping.MapSpec(wf);
        if mapped.Some? then Exchange(Ok(mapped.value), [call], [], [])
        else Exchange(Err(Message(UNPARSABLE)), [call], [], [])
  }

  /** A judge call never makes a direct request, makes at most one cloud call,
      and succeeds outside mock mode exactly when the relay answered and its
      workflow output was an object or a non-blank string. */
  lemma JudgeOutcome(s: Settings, cloudAvailable: bool, fixtures: Fixtures, summary: string, userId: Option<string>,
                     cloud: CloudCall -> CloudOutcome)
    requires !s.useMock
    ensures var e := JudgeExchange(s, cloudAvailable, fixtures, summary, userId, cloud);
      var payload := Obj([("summary", Str(summary)), ("user", OptStr(userId))]);
      var c := CallCloud("workflowJudge", payload, cloud);
      && e.sent == [] && |e.cloudCalls| <= 1
      && (cloudAvailable ==> e.cloudCalls == [CloudCall("difyJudge", "workflowJudge", payload)])
      && (e.result.Ok? <==>
            (cloudAvailable && c.Ok? &&
             (WorkflowMapping.IsObjectLike(WorkflowMapping.TextOf(c.value))
              || (WorkflowMapping.TextOf(c.value).Str? && !IsBlank(WorkflowMapping.TextOf(c.value).s)))))
      && (cloudAvailable && c.Ok? && e.result.Err? ==> e.result.error == Message(UNPARSABLE))
  {
    var payload := Obj([("summary", Str(summary)), ("user", OptStr(userId))]);
    var c := CallCloud("workflowJudge", payload, cloud);
    if cloudAvailable && c.Ok? {
      WorkflowMapping.MapNullIff(c.value);
    }
  }

  // ---------------------------------------------------------------------
  // The module state

  /** The API client module: its settings and the mock round counter. */
  class Client {
    const settings: Settings
    /** `typeof wx !== 'undefined' && wx?.cloud` */
    const cloudAvailable: bool
    const fixtures: Fixtures
    var mockRound: int

    constructor (settings0: Settings, cloudAvailable0: bool, fixtures0: Fixtures)
      ensures settings == settings0 && cloudAvailable == cloudAvailable0 && fixtures == fixtures0
      ensures mockRound == 0
    {
      settings := settings0;
      cloudAvailable := cloudAvailable0;
      fixtures := fixtures0;
      mockRound := 0;
    }

    /** `resetMock()` */
    method ResetMock()
      modifies this
      ensures mockRound == 0
    {
      mockRound := 0;
    }

    /** `chat(...)`: only the mock mode counts rounds. */
    method Chat(query: string, userId: Option<string>, conversationId: Option<string>,
                cloud: CloudCall -> CloudOutcome, transport: nat -> HttpOutcome) returns (e: Exchange<Json>)
      modifies this
      ensures mockRound == if settings.useMock then old(mockRound) + 1 else old(mockRound)
      ensures e == ChatExchange(settings, cloudAvailable, fixtures, mockRound, query, userId, conversationId, cloud, transport)
    {
      if settings.useMock {
        mockRound := mockRound + 1;
      }
      e := ChatExchange(settings, cloudAvailable, fixtures, mockRound, query, userId, conversationId, cloud, transport);
    }

    /** `judge(summary, userId)`, mapping the workflow result with the mapping's
        own loops. */
    method Judge(summary: string, userId: Option<string>, cloud: CloudCall -> CloudOutcome) returns (e: Exchange<JudgeResponse>)
      ensures e == JudgeExchange(settings, cloudAvailable, fixtures, summary, userId, cloud)
    {
      if settings.useMock {
        return Exchange(Ok(fixtures.verdict), [], [], []);
      }
      if !cloudAvailable {
        return Exchange(Err(Message(CLOUD_UNAVAILABLE)), [], [], []);
      }
      var payload := Obj([("summary", Str(summary)), ("user", OptStr(userId))]);
      var call := Route("workflowJudge", payload);
      var wf := CallCloud("workflowJudge", payload, cloud);
      if wf.Err? {
        return Exchange(Err(wf.error), [call], [], []);
      }
      var mapped := WorkflowMapping.MapWorkflowResultToJudge(wf.value);
      if mapped.Some? {
        e := Exchange(Ok(mapped.value), [call], [], []);
      } else {
        e := Exchange(Err(Message(UNPARSABLE)), [call], [], []);
      }
    }
  }
}
