# lovecourt client core, in Dafny

lovecourt is a WeChat mini-program: a user describes a relationship
grievance to a chat assistant, which runs on the Dify LLM service. When the
assistant has gathered the story, it produces a case summary. The "love
court" then judges that summary through a Dify workflow and shows a verdict.
This project models the client's own logic and the three cloud relays that
stand between the client and Dify, and proves properties of that model:

- **Response normalisers.**
  - `extractSummary` (module `ChatSummary`) turns a chat answer into a case summary. It searches for anchors, splits lines and extracts keywords.
  - `mapWorkflowResultToJudge` (module `WorkflowMapping`) turns a workflow result into a verdict. It builds the ordered sections, the `《…》` title and the share summary.
  - Each is a method with loops, proved equal to a specification function. The properties are proved about that function.
- **Request policy** (module `ApiClient`):
  - Reading the settings from the environment, and the `ensureBaseUrl` guard.
  - Classifying a status as a message, and the retry and back-off rule of `request`. The transport is an oracle from attempt number to outcome, and the model returns the calls made and the delays waited.
  - Routing a cloud call. In `chat` and `judge`: the mock rotation, trying the cloud first, and the direct fallback unless `FORCE_CLOUD_ONLY` is set.
- **Page state machines.**
  - `useChat` (module `UseChat`) is a class. Its `sendMessage` keeps the history, state, conversation id, summary and cloud session id in step with the device store and with the cloud session mirror.
  - `useVerdict` (module `UseVerdict`) is a class around one judge call.
- **Best-effort stores.**
  - The device key/value store (module `Storage`).
  - The cached user id (module `User`).
  - The cloud session database (module `CloudDb`): a map of session documents and an append-only list of message details.
  - A store where every call throws is one whose `available` flag is false.
- **Cloud relays** (modules `DifyChat`, `DifyProxy`, `DifyJudge`, sharing `Relay` and `BaseUrl`):
  - Normalising the base URL and checking the configuration.
  - The action switch and the mapping of a caught error to a reply.
  - In the judge relay: the workflow id choice, filling the input aliases, and falling back between the two workflow paths.
  - The HTTP post to Dify is an oracle.

The modules `JsString` and `JsValue` model the JavaScript builtins the code
relies on. `JsString` covers `trim`, `indexOf`, `split`, `join`, `slice`
and number formatting. `JsValue` covers truthiness, property lookup,
`String(...)` and object spread over JSON-like values.

Some facts the proofs bring out about the code as written:
- The two summary-trigger anchors are never the anchor chosen, because `摘要` comes before them in the anchor list and occurs inside both (`ChatSummary.TriggerAnchorsUnused`).
- The `summary_ready` fallback `{ text: answer.trim() }` is reached only for a blank answer, so its text is always empty (`ChatSummary.SummaryReadyNeverNull`).
- For the same reason, the `else if (response.metadata?.summary_ready)` branch of `sendMessage` never decides the state (`UseChat.ReadyExactlyWhenExtracted`).
- The `userId` argument of `useChat` is never sent, because the page's own id is always set first (`UseChat.ChatSession.SendMessage`).
- A page in the error state stays there after a successful reply that yields no summary (`UseChat.ErrorPersists`).

## Model

| member | source | states |
|---|---|---|
| BaseUrl.StripTrailingSlashes | src/utils/apiClient.ts:23 | the result ends in no `/`, and the input is the result followed only by `/` characters |
| BaseUrl.NormalizeDropsTrailingSlashes | cloudfunctions/difyChat/index.js:8-9 | a clean base followed by any number of `/` normalises back to the base |
| BaseUrl.NormalizeDropsOneV1 | cloudfunctions/difyProxy/index.js:9-10 | a base followed by `/v1` and any number of `/` normalises to the base: exactly one `/v1` is removed |
| BaseUrl.NormalizeClean | cloudfunctions/difyJudge/index.js:8-9 | normalisation leaves a base with no surrounding blanks, trailing `/` or `/v1` unchanged |
| Relay.BuildClient | cloudfunctions/difyChat/index.js:7-19 | a client exists exactly when the normalised base URL and the key are both non-empty, and it carries them; otherwise the configuration error is thrown |
| Relay.ErrorMessage | cloudfunctions/difyChat/index.js:59 | the error text of a caught error is always truthy |
| Relay.ErrorMessagePrecedence | cloudfunctions/difyProxy/index.js:62 | the error text is the response's `error`, else its `message`, else the error's message, else `Proxy error` |
| Relay.ErrorReply | cloudfunctions/difyJudge/index.js:83-87 | the catch reply is a failure with a truthy error and passes the response status and body through |
| Relay.Deliver | cloudfunctions/difyChat/index.js:44-45 | a resolved post gives `{ ok: true, data }`, a failed one the catch reply |
| Relay.PayloadOf | cloudfunctions/difyChat/index.js:43 | the payload forwarded is always truthy (`{}` when absent) |
| Relay.UnknownAction | cloudfunctions/difyChat/index.js:54 | an unknown action's error starts `Unknown action: ` |
| Relay.Forward | cloudfunctions/difyProxy/index.js:26-31 | at most one post; none, and the configuration error, when the client cannot be built; otherwise one post of the body to the path, and its outcome delivered |
| DifyChat.DiagnoseConfig | cloudfunctions/difyChat/index.js:27-36 | the presence flags and base reported agree with the configuration |
| DifyChat.Main | cloudfunctions/difyChat/index.js:38-63 | at most one post, made only for `chatMessages`, to the chat path with the payload; every failure has a truthy error |
| DifyChat.PingAndDiagnose | cloudfunctions/difyChat/index.js:47-52 | `ping` and `diagnoseChat` answer without posting |
| DifyChat.ChatForwards | cloudfunctions/difyChat/index.js:42-46 | with a configuration, `chatMessages` posts the payload once and returns what the post gave |
| DifyChat.MissingConfig | cloudfunctions/difyChat/index.js:11-13 | without a base URL or key, `chatMessages` fails with the configuration message and posts nothing |
| DifyChat.UnknownRefused | cloudfunctions/difyChat/index.js:53-54 | any other action is refused without posting |
| DifyProxy.Main | cloudfunctions/difyProxy/index.js:39-66 | at most one post, to the chat path for `chatMessages` or the judge path for `judge`, with the payload; every failure has a truthy error |
| DifyProxy.Forwards | cloudfunctions/difyProxy/index.js:43-52 | with a configuration, each forwarding action posts once and returns what the post gave |
| DifyProxy.MissingConfig | cloudfunctions/difyProxy/index.js:12-14 | without a base URL or key, the forwarding actions fail with the configuration message and post nothing |
| DifyProxy.PingAndUnknown | cloudfunctions/difyProxy/index.js:53-57 | `ping` answers pong without posting; any other action is refused |
| DifyJudge.WorkflowId | cloudfunctions/difyJudge/index.js:23-25 | the environment's workflow id wins over the payload's |
| DifyJudge.FirstPresent | cloudfunctions/difyJudge/index.js:28 | the `??` chain gives the first alias that is not null or undefined |
| DifyJudge.FillAliases | cloudfunctions/difyJudge/index.js:30-33 | exactly the undefined aliases take the summary value; every other key keeps its value; no key is reordered |
| DifyJudge.InputsAre | cloudfunctions/difyJudge/index.js:26-33 | the inputs never hold `user`; with a truthy summary value the undefined aliases are filled; other keys are the payload's; with a falsy summary value the inputs are the payload without `user`, unchanged |
| DifyJudge.FalsyAliasStopsFilling | cloudfunctions/difyJudge/index.js:28-30 | a falsy first present alias (such as `''`) disables filling altogether |
| DifyJudge.BodyIs | cloudfunctions/difyJudge/index.js:34-35 | the body holds the inputs, blocking mode, `user` only when truthy, and no workflow id |
| DifyJudge.RunPosts | cloudfunctions/difyJudge/index.js:36-48 | the first post goes to `/v1/workflows/run` with the id; a second, RESTful post is made exactly when the first failed and the id is non-empty; the run ends with the last post's outcome |
| DifyJudge.FillInputs | cloudfunctions/difyJudge/index.js:29-33 | the alias loop computes the filled inputs |
| DifyJudge.CopyInputs | cloudfunctions/difyJudge/index.js:26-33 | the spread and the alias loop compute the relay's inputs |
| DifyJudge.TryPaths | cloudfunctions/difyJudge/index.js:36-48 | the two posts in sequence compute the specified run |
| DifyJudge.ProxyWorkflowJudge | cloudfunctions/difyJudge/index.js:21-49 | the relay's judge call computes the specified workflow run |
| DifyJudge.DiagnoseConfig | cloudfunctions/difyJudge/index.js:51-63 | the presence flags for base URL, key and workflow id, the normalised base and the id hint reported all agree with the configuration |
| DifyJudge.Hint | cloudfunctions/difyJudge/index.js:61 | the hint is empty without an id, else the first six characters and an ellipsis |
| DifyJudge.JudgeAction | cloudfunctions/difyJudge/index.js:69-74 | a configuration error is answered with that error and no post; otherwise the reply and the posts are those of the workflow run on the payload's inputs; at most two posts, and every failure has a truthy error |
| DifyJudge.Main | cloudfunctions/difyJudge/index.js:65-89 | `workflowJudge` and `judge` are answered by the judge branch on the event's payload; at most two posts, made only for those actions; every failure has a truthy error |
| DifyJudge.JudgeReply | cloudfunctions/difyJudge/index.js:69-74 | with a configuration, a judge action posts and replies with the outcome of its last post |
| DifyJudge.JudgeActionReply | cloudfunctions/difyJudge/index.js:71-73 | the judge branch replies with the outcome of its last post |
| DifyJudge.RunDelivers | cloudfunctions/difyJudge/index.js:36-48 | the reply for a run is the delivery of the last post's outcome |
| DifyJudge.NoPostCases | cloudfunctions/difyJudge/index.js:75-80 | a missing configuration, `ping` and unknown actions all answer without posting |
| WorkflowMapping.NextClose | src/utils/apiClient.ts:248 | the first `》` at or after a position, or the end |
| WorkflowMapping.FirstTitle | src/utils/apiClient.ts:248 | the leftmost `《…》` match with no `》` inside, and no match starts earlier |
| WorkflowMapping.TitleEntry | src/utils/apiClient.ts:244-250 | the first property whose value is a string holding a title, and none before it |
| WorkflowMapping.GroupTitleIsMatch | src/utils/apiClient.ts:258-259 | `《` + group + `》` is the whole match, so both branches build the same title |
| WorkflowMapping.CollectSections | src/utils/apiClient.ts:231-236 | the first loop computes the fixed-section orders |
| WorkflowMapping.CollectExtras | src/utils/apiClient.ts:237-242 | the second loop computes the extra orders |
| WorkflowMapping.FindTitleEntry | src/utils/apiClient.ts:244-250 | the title scan with its `break` finds the first titled property |
| WorkflowMapping.MapWorkflowResultToJudge | src/utils/apiClient.ts:221-264 | the mapping method computes the specified verdict or `null` |
| WorkflowMapping.SectionOrdersSound | src/utils/apiClient.ts:233-236 | every section order is a listed key with a truthy value and that value as text |
| WorkflowMapping.SectionOrdersComplete | src/utils/apiClient.ts:233-236 | every listed key with a truthy value has an order |
| WorkflowMapping.SectionOrdersDistinct | src/utils/apiClient.ts:233-236 | distinct listed keys give orders with no repeated key |
| WorkflowMapping.ExtraOrdersSound | src/utils/apiClient.ts:238-242 | every extra order is an own key outside the four sections |
| WorkflowMapping.ExtraOrdersComplete | src/utils/apiClient.ts:238-242 | every own key outside the sections has an order, whatever its value |
| WorkflowMapping.ExtraOrdersDistinct | src/utils/apiClient.ts:238-242 | extra orders never repeat a key |
| WorkflowMapping.ObjectOrdersDistinct | src/utils/apiClient.ts:231-242 | an object with distinct keys gives orders with no repeated key |
| WorkflowMapping.ObjectKinds | src/utils/apiClient.ts:231-242 | a key has an order exactly when it is a truthy fixed section or another own property |
| WorkflowMapping.ObjectSectionsFirst | src/utils/apiClient.ts:231-242 | every fixed section comes before every other property |
| WorkflowMapping.ObjectOrdersAre | src/utils/apiClient.ts:231-242 | the orders hold each key at most once, exactly the truthy sections and the other own keys, with all sections first |
| WorkflowMapping.SectionOrder | src/utils/apiClient.ts:231 | the sections appear in the order 案件回顾, 情感剖析, 温柔裁定, 最终判决 |
| WorkflowMapping.MapNullIff | src/utils/apiClient.ts:225-263 | the mapping is `null` exactly when the output text is neither an object nor a string with a non-blank character |
| WorkflowMapping.MapStringOutput | src/utils/apiClient.ts:257-260 | a string output gives one untrimmed 判决全文 order, no share summary, and the matched or default title |
| WorkflowMapping.ShareIsVerdictOrRuling | src/utils/apiClient.ts:252-253 | the share summary is 最终判决, else 温柔裁定, else absent |
| ApiClient.SettingsOf | src/utils/apiClient.ts:22-26 | the settings are the normalised base URL, the key and the two flags read from the environment |
| ApiClient.FlagOnIff | src/utils/apiClient.ts:25-26 | for every setting text, a flag is on exactly when the text lower-cased is `true` |
| ApiClient.FlagSpellings | src/utils/apiClient.ts:25-26 | these spellings: `true`, `TRUE` and `True` turn a flag on; ` true`, `1`, `yes` and the empty text do not |
| ApiClient.StatusMessage | src/utils/apiClient.ts:112-117 | 401/403 give the auth message, 429 the rate message, ≥500 the busy message, others the server message or the fallback |
| ApiClient.HttpError | src/utils/apiClient.ts:129 | the rejection text starts `HTTP_` |
| ApiClient.DoRequestIs | src/utils/apiClient.ts:96-145 | at most `maxRetries+1` calls, all identical; the delays are `300*(attempt+1)`; every outcome but the last was retryable; the result settles the last outcome; an early stop only on a non-retryable outcome |
| ApiClient.Request | src/utils/apiClient.ts:83-148 | without a base URL (and no mock) the request rejects with `BASE_URL_MISSING` and makes no call; otherwise between 1 and `retries+1` calls of the given shape, defaults 15000 ms and 2 retries |
| ApiClient.RecoversOnThirdAttempt | src/utils/apiClient.ts:119-126 | two server errors and then a success resolve after three calls and delays of 300 and 600 ms |
| ApiClient.ClientErrorNotRetried | src/utils/apiClient.ts:109-129 | a non-retryable error status rejects after the first call |
| ApiClient.Route | src/utils/apiClient.ts:68-72 | chat goes to `difyChat`, judge and workflowJudge to `difyJudge` as `workflowJudge`, others to `difyJudge` unchanged |
| ApiClient.CallCloud | src/utils/apiClient.ts:67-81 | an `ok` result resolves with its data; otherwise the status-prefixed error rejects; a thrown call passes its error through |
| ApiClient.CloudErrorFallback | src/utils/apiClient.ts:77-78 | a result with neither status nor error rejects with `云函数请求失败` |
| ApiClient.WithRound | src/utils/apiClient.ts:160-166 | the chat fixture with `metadata.round` set, every other key kept |
| ApiClient.MockRotation | src/utils/apiClient.ts:155-166 | in mock mode nothing is called; from the third call the summary fixture is returned, before that the chat fixture with the round |
| ApiClient.ChatRouting | src/utils/apiClient.ts:169-194 | the cloud is tried once first; its failure falls back to the direct request unless cloud-only is forced; with no cloud the request goes direct or fails at once |
| ApiClient.JudgeOutcome | src/utils/apiClient.ts:197-218 | judging never calls directly, calls the cloud at most once, and succeeds outside mock mode exactly when the relay answered with a mappable output; an unmappable output rejects with `工作流返回不可解析` |
| ApiClient.Client.ResetMock | src/utils/apiClient.ts:55-57 | the mock round is back to 0 |
| ApiClient.Client.Chat | src/utils/apiClient.ts:150-195 | only mock mode advances the round; the exchange is the specified chat exchange for the new round |
| ApiClient.Client.Judge | src/utils/apiClient.ts:197-218 | the exchange is the specified judge exchange, mapped by the mapping method |
| ChatSummary.AnchorIdx | src/composables/useChat.ts:45-49 | the anchor position is -1 or within the text |
| ChatSummary.AnchorIdxIs | src/composables/useChat.ts:45-50 | -1 exactly when no anchor occurs; otherwise the first occurrence of the first anchor in list order that occurs |
| ChatSummary.AnchorIdxStable | src/composables/useChat.ts:46-48 | the `break` is sound: once an anchor is found the later anchors do not matter |
| ChatSummary.PickAnchor | src/composables/useChat.ts:45-49 | the anchor loop computes the anchor position |
| ChatSummary.CollectKeywords | src/composables/useChat.ts:58-68 | the `forEach` computes the keywords in order |
| ChatSummary.KeywordsAreWords | src/composables/useChat.ts:58-67 | each keyword is non-empty, holds no separator and comes from a line mentioning keywords |
| ChatSummary.KeywordsConcat | src/composables/useChat.ts:58-68 | the keywords collected from two runs of lines are those of the first run followed by those of the second, so each line contributes its own keywords in order |
| ChatSummary.LineKeywordsRejoin | src/composables/useChat.ts:60-66 | a line's keywords written one after another give back the segment after the colon with only its separators removed |
| ChatSummary.JoinEnds | src/composables/useChat.ts:70 | joining trimmed non-empty lines leaves no blank at either end |
| ChatSummary.LinesTrimmed | src/composables/useChat.ts:52-55 | every line kept is non-empty and trimmed |
| ChatSummary.NoLinesMeansBlank | src/composables/useChat.ts:52-55 | no lines are kept only from a blank text |
| ChatSummary.LinesNotBlank | src/composables/useChat.ts:52-55 | a kept line means the text was not blank |
| ChatSummary.BlankHasNoLines | src/composables/useChat.ts:52-55 | a blank text keeps no lines |
| ChatSummary.TryParseBody | src/composables/useChat.ts:70-72 | the body is the joined lines, untouched by the final trim; no summary exactly when no lines |
| ChatSummary.TryParseNoneIffBlank | src/composables/useChat.ts:36-73 | parsing gives `null` exactly for a blank text |
| ChatSummary.AnchoredNotBlank | src/composables/useChat.ts:50 | text cut at a found anchor is never blank |
| ChatSummary.BareTrigger | src/composables/useChat.ts:41 | removing `【` and `】` from the trigger gives the bare trigger |
| ChatSummary.ExtractSummary | src/composables/useChat.ts:31-86 | the method computes the specified summary |
| ChatSummary.MetadataSummaryWins | src/composables/useChat.ts:33 | a structured summary in the metadata is returned as it is |
| ChatSummary.SummaryReadyNeverNull | src/composables/useChat.ts:76-78 | with `summary_ready` there is always a summary, and the fallback's text is always empty |
| ChatSummary.NoSummaryWithoutMention | src/composables/useChat.ts:81-85 | without the flags, an answer containing neither 摘要 nor 总结 gives no summary |
| ChatSummary.ContainsSummaryWord | src/composables/useChat.ts:81 | an answer holding a word that contains 摘要 holds 摘要 |
| ChatSummary.TriggerAnchorsUnused | src/composables/useChat.ts:37-44 | the anchor chosen never depends on the two trigger anchors |
| Storage.Put | src/utils/storage.ts:9 | a write sets its key and touches no other |
| Storage.Remove | src/utils/storage.ts:29 | a removal drops its key and touches no other |
| Storage.RoundTrips | src/utils/storage.ts:3-64 | the history, summary and id saved are the ones loaded; a `null` or empty id loads as `null` |
| Storage.ClearedIs | src/utils/storage.ts:66-70 | clearing leaves the history key holding `[]`, removes the summary and conversation keys, and touches nothing else |
| Storage.LocalStore.SaveChatHistory | src/utils/storage.ts:7-13 | the history key is written; a failing store is left as it is |
| Storage.LocalStore.LoadChatHistory | src/utils/storage.ts:15-22 | the stored list, or `[]` |
| Storage.LocalStore.SaveSummary | src/utils/storage.ts:24-34 | a summary is written, `null` removes the key |
| Storage.LocalStore.LoadSummary | src/utils/storage.ts:36-43 | the stored summary, or `null` |
| Storage.LocalStore.SaveConversationId | src/utils/storage.ts:45-55 | a non-empty id is written, `null` or `''` removes the key |
| Storage.LocalStore.LoadConversationId | src/utils/storage.ts:57-64 | the stored non-empty id, or `null` |
| Storage.LocalStore.SaveCloudSessionId | src/composables/useChat.ts:12 | the cloud session id is written like the conversation id, under its own key |
| Storage.LocalStore.LoadCloudSessionId | src/composables/useChat.ts:13 | the stored cloud session id, or `null` |
| Storage.LocalStore.ClearAll | src/utils/storage.ts:66-70 | the store becomes the cleared store |
| User.FetchOpenId | src/utils/user.ts:20-31 | a non-empty openid or `null`; `null` without a cloud or on error |
| User.GenAnonId | src/utils/user.ts:15-18 | a generated id starts `anon_` |
| User.EnsuredIdIs | src/utils/user.ts:33-41 | the id is never empty: the cached id, else the openid, else a generated `anon_` id |
| User.SetUserId | src/utils/user.ts:11-13 | the user key is written; a failing store is left as it is |
| User.EnsureUserId | src/utils/user.ts:33-41 | returns the ensured id; a cached id causes no write, otherwise the id is written back |
| User.EnsuredEntriesHoldId | src/utils/user.ts:33-41 | after the id is ensured, an available store holds that very id, so the next call finds it cached and returns the same id; no other key changes |
| CloudDb.TrimPreview | src/utils/cloudDb.ts:28-31 | a text up to `n` characters unchanged, else its first `n` characters and `…` |
| CloudDb.TrimPreviewIdempotent | src/utils/cloudDb.ts:28-31 | trimming a preview again changes nothing |
| CloudDb.NewSession | src/utils/cloudDb.ts:47-55 | a new document titled 情感检举, with the trimmed preview, count 0 and status processing |
| CloudDb.AfterMessage | src/utils/cloudDb.ts:77-90 | the count grows by `max(inc, 1)`, the preview is the trimmed text, and the conversation id changes only when one is given |
| CloudDb.WithSummary | src/utils/cloudDb.ts:92-100 | the summary text is stored and the status becomes ready; nothing else changes |
| CloudDb.Complete | src/utils/cloudDb.ts:102-110 | the status becomes completed; nothing else changes |
| CloudDb.Patch | src/utils/cloudDb.ts:88 | an update touches only an existing document |
| CloudDb.EnsuredSession | src/utils/cloudDb.ts:33-60 | a returned id is non-empty, and new only when it is the created one; an available database that creates always returns an id |
| CloudDb.CloudStore.EnsureSession | src/utils/cloudDb.ts:33-60 | an existing id is kept; otherwise exactly one document is created and its id returned, or `null`; nothing without a database |
| CloudDb.CloudStore.AppendDetail | src/utils/cloudDb.ts:62-75 | one detail record is appended when there is a database and a session id |
| CloudDb.CloudStore.UpdateSessionAfterMessage | src/utils/cloudDb.ts:77-90 | the session document is patched after a message |
| CloudDb.CloudStore.UpdateSessionSummary | src/utils/cloudDb.ts:92-100 | the session document gets the summary and status ready |
| CloudDb.CloudStore.MarkSessionCompleted | src/utils/cloudDb.ts:102-110 | the session document's status becomes completed |
| UseChat.InitialState | src/composables/useChat.ts:105 | ready to judge exactly with a saved summary, idle exactly with neither summary nor history, chatting otherwise |
| UseChat.BuildMessage | src/composables/useChat.ts:22-29 | the message carries the role, text and time, and its id starts with the role's name |
| UseChat.Started | src/composables/useChat.ts:113-117 | only idle moves, to chatting |
| UseChat.ReadyExactlyWhenExtracted | src/composables/useChat.ts:164-173 | `summary_ready` always yields a summary, so the state becomes ready to judge exactly when one was extracted |
| UseChat.StateAfterSendRange | src/composables/useChat.ts:164-179 | a send ends chatting, ready to judge or in error, and in error whenever the reply failed |
| UseChat.ErrorPersists | src/composables/useChat.ts:164-173 | a successful reply without a summary leaves the error state in place |
| UseChat.Appended | src/composables/useChat.ts:130-131 | a send appends the user's message, then the answer when there was one |
| UseChat.ConversationAfter | src/composables/useChat.ts:148-151 | the conversation id changes only to a non-empty id from the reply |
| UseChat.DetailsAppended | src/composables/useChat.ts:141 | the cloud details mirror the appended messages one for one |
| UseChat.ChatSession.constructor | src/composables/useChat.ts:100-107 | the session is loaded from the store, starts in its initial state, and mirrors the store |
| UseChat.ChatSession.Start | src/composables/useChat.ts:113-117 | only the state changes, as `start` says |
| UseChat.ChatSession.EnsureUid | src/composables/useChat.ts:125 | the page's id is set, and fetched only when it was empty; the store is untouched when the page had an id, else left exactly as `ensureUserId` leaves it |
| UseChat.ChatSession.RecordMessage | src/composables/useChat.ts:130-132 | the message is appended and the history saved |
| UseChat.ChatSession.AdoptSession | src/composables/useChat.ts:135-139 | the ensured session id is adopted and saved; at most one document is created |
| UseChat.ChatSession.MirrorMessage | src/composables/useChat.ts:140-143 | one detail appended and the session's count raised by one, when there is a session |
| UseChat.ChatSession.ApplyReply | src/composables/useChat.ts:147-173 | the conversation id, the answer, an extracted summary (saved and stored in the cloud) and the state, as a reply leaves them |
| UseChat.ChatSession.AdoptConversation | src/composables/useChat.ts:148-151 | a non-empty replied id is kept and saved |
| UseChat.ChatSession.SettleSummary | src/composables/useChat.ts:164-173 | an extracted summary is kept, saved and stored in the cloud session, and the state follows |
| UseChat.ChatSession.SendMessage | src/composables/useChat.ts:119-180 | a blank text or a disabled input changes nothing; otherwise the history, ids, summary, state, chat request, details and session counts are as an accepted send leaves them, the user key holds what the user id step wrote, and the store still mirrors the page |
| UseChat.ChatSession.Post | src/composables/useChat.ts:124-147 | the first half of a send: user id, start, message recorded and mirrored, request made; the user key holds what the user id step wrote |
| UseChat.ChatSession.Receive | src/composables/useChat.ts:146-179 | the second half: the reply applied or the error state, and nothing in flight |
| UseChat.ChatSession.SetSummary | src/composables/useChat.ts:182-185 | the summary is replaced and saved |
| UseChat.ChatSession.Reset | src/composables/useChat.ts:187-197 | an empty idle session, the store cleared, the mock round reset and the cloud session forgotten |
| UseVerdict.Settled | src/composables/useVerdict.ts:23-32 | success shows the verdict and case id; failure shows the fixed message and keeps the previous verdict and case id |
| UseVerdict.VerdictSession.constructor | src/composables/useVerdict.ts:7-11 | idle, no verdict, empty case id and message |
| UseVerdict.VerdictSession.Fetch | src/composables/useVerdict.ts:13-33 | an empty summary fails with `缺少案情摘要` and no call; otherwise the judge exchange decides the page; a message is shown exactly in the error state |
| UseVerdict.NoCloudNoVerdict | src/utils/apiClient.ts:197-204 | outside mock mode and without a cloud runtime, a fetch always ends in the error state |

## Left out

- Toasts, console output and `setTimeout`. Toasts and logs do not change any result. The back-off delays are returned as a list rather than waited.
- `Date.now()` and `Math.random()`: they are parameters. `buildMessage` reads the clock twice (for the id and the timestamp); the model uses one reading for both.
- The order of asynchronous steps: each `await` completes before the next step, so `sendMessage` is one sequential step and no two calls interleave.
- The mock fixtures `chat.json`, `chat-summary.json` and `verdict.json`: they are not part of this model, so they are opaque parameters (`ApiClient.Fixtures`).
- `extractJson`, `mapChatAnswerToJudge`, `connectivityTest` and the exported `runtimeConfig`. The first two are never called and depend on `JSON.parse`, `connectivityTest` is a network probe, and `runtimeConfig` only re-exports the settings.
- `isCloudDBAvailable`, and the `updateTime: db.serverDate()` stamps on session documents.
- Per-call storage and database failures. A store either works for every call or fails on every call (its `available` flag). A session document either exists under its id or it does not.
- The HTTP headers and the axios client object. A client is its base URL, key and timeout.
- src/types.d.ts fields no core function reads.
- Strings are sequences of characters. JavaScript lengths count UTF-16 code units, so `trimPreview` and the hint cut differently on characters outside the Basic Multilingual Plane. Numbers are integers.
- User.FetchOpenId: the login response's `openid` is taken to be the declared `string | null`. A truthy non-string value, which the code would return as it is, becomes its `String(...)` text in the model.
- `saveCloudSessionId` and `loadCloudSessionId` are imported from src/utils/storage.ts, but that file defines neither. They are modelled like the conversation id, under a key of the model's own (`lovecourt_cloud_session_id`).
- UseChat.ChatSession.SendMessage: the chat reply arrives as a typed parameter instead of being the result of `ApiClient.Client.Chat`. So a send does not advance the mock round counter, and a reply is taken to have the declared `ChatResponse` shape.
- UseChat.ChatSession.SendMessage: the cloud session documents are stated only through their ids, the documents left untouched, and the message count of the session in use. The preview, conversation id and summary patches are stated by `MirrorMessage` and `SettleSummary`.
- The `isBase64PngText` helper, the database initialisation, `src/main.ts` and the navigation guard are not part of this model: they are build, bootstrapping or UI code.
