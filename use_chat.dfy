/** The chat page's composable, src/composables/useChat.ts: the report state
    machine, the message history mirrored into the device store, the cloud
    session mirror, and the summary that ends the conversation. Every await
    of the source runs to completion here, one call after another; what the
    outside world did during one `sendMessage` arrives as a `Turn`. */
module UseChat {
  import opened Wrappers
  import opened JsString
  import opened Types
  import opened Storage
  import opened CloudDb
  import Users = User
  import ChatSummary
  import ApiClient

  datatype ReportState = Idle | Chatting | ReadyToJudge | Judging | Done | Error

  /** The state a session starts in: a saved summary means it is ready to be
      judged, a saved history that a chat is under way. */
  function InitialState(summary: Option<CaseSummary>, history: seq<ChatMessage>): (r: ReportState)
    ensures r == ReadyToJudge <==> summary.Some?
    ensures r == Idle <==> summary.None? && history == []
    ensures r == ReadyToJudge || r == Chatting || r == Idle
  {
    if summary.Some? then ReadyToJudge else if |history| > 0 then Chatting else Idle
  }

  /** `isInputDisabled` */
  predicate InputDisabled(state: ReportState, loading: bool) {
    state == ReadyToJudge || state == Judging || state == Done || loading
  }

  /** `buildMessage(text, role)` at clock `now`. */
  function BuildMessage(text: string, role: Role, now: nat): (m: ChatMessage)
    ensures m.role == role && m.text == text && m.ts == now
    ensures |m.id| > |RoleName(role)| && m.id[..|RoleName(role)|] == RoleName(role)
  {
    ChatMessage(RoleName(role) + "_" + IntToString(now), role, text, now)
  }

  /** The arguments of the `chat` call a message makes. */
  datatype ChatRequest = ChatRequest(query: string, userId: Option<string>, conversationId: Option<string>)

  /** What happened outside the page during one `sendMessage`: the login
      call and the random draw (used only when a user id must be made), the
      cloud database's answer to creating a session, the chat reply or the
      error it was rejected with, and the clock when the message was sent and
      when the reply arrived. */
  datatype Turn = Turn(
    login: Users.LoginOutcome,
    randomText: string,
    add: AddOutcome,
    reply: Result<ChatResponse, ApiClient.Rejection>,
    sentAt: nat,
    repliedAt: nat)

  /** `start()` */
  function Started(s: ReportState): (r: ReportState)
    ensures r != Idle
    ensures s != Idle ==> r == s
  {
    if s == Idle then Chatting else s
  }

  /** The state change after a reply: an extracted summary, or a reply
      flagged `summary_ready`, makes the case ready to judge. */
  function AfterReply(s: ReportState, extracted: Option<CaseSummary>, metadata: Option<Metadata>): ReportState {
    if extracted.Some? then ReadyToJudge
    else if metadata.Some? && metadata.value.summaryReady then ReadyToJudge
    else s
  }

  /** The summary a reply yields, if it yields one. */
  function ExtractedFrom(reply: Result<ChatResponse, ApiClient.Rejection>, now: int): Option<CaseSummary> {
    if reply.Ok? then ChatSummary.ExtractSummarySpec(reply.value.answer, reply.value.metadata, now) else None
  }

  /** The state after an accepted `sendMessage`. */
  function StateAfterSend(s: ReportState, reply: Result<ChatResponse, ApiClient.Rejection>, now: int): ReportState {
    if reply.Err? then Error
    else AfterReply(Started(s), ExtractedFrom(reply, now), reply.value.metadata)
  }

  /** The `summary_ready` branch is never what makes the case ready: that flag
      always yields an extracted summary, so the state is ready to judge
      exactly when a summary was extracted. */
  lemma ReadyExactlyWhenExtracted(s: ReportState, reply: Result<ChatResponse, ApiClient.Rejection>, now: int)
    requires reply.Ok?
    ensures reply.value.metadata.Some? && reply.value.metadata.value.summaryReady ==> ExtractedFrom(reply, now).Some?
    ensures StateAfterSend(s, reply, now) ==
      if ExtractedFrom(reply, now).Some? then ReadyToJudge else Started(s)
  {
    var m := reply.value.metadata;
    if m.Some? && m.value.summaryReady && m.value.summary.None? {
      ChatSummary.SummaryReadyNeverNull(reply.value.answer, m, now);
    }
  }

  /** A send never leaves the session idle and never moves it to judging or
      done; a failed reply always ends in the error state. */
  lemma StateAfterSendRange(s: ReportState, reply: Result<ChatResponse, ApiClient.Rejection>, now: int)
    requires s != Judging && s != Done
    ensures var r := StateAfterSend(s, reply, now);
      r == Chatting || r == ReadyToJudge || r == Error
    ensures reply.Err? ==> StateAfterSend(s, reply, now) == Error
  {
  }

  /** The error state is left only by a reply that yields a summary: a
      successful reply without one keeps the page in the error state. */
  lemma ErrorPersists(reply: Result<ChatResponse, ApiClient.Rejection>, now: int)
    requires reply.Ok? && ExtractedFrom(reply, now).None?
    ensures StateAfterSend(Error, reply, now) == Error
  {
    ReadyExactlyWhenExtracted(Error, reply, now);
  }

  /** The messages an accepted send appends: the trimmed text, then the answer
      when there was one. */
  function Appended(query: string, turn: Turn): (r: seq<ChatMessage>)
    ensures |r| == if turn.reply.Ok? then 2 else 1
    ensures r[0].role == Role.User && r[0].text == query && r[0].ts == turn.sentAt
    ensures turn.reply.Ok? ==> r[1].role == Ai && r[1].text == turn.reply.value.answer && r[1].ts == turn.repliedAt
  {
    [BuildMessage(query, Role.User, turn.sentAt)] +
      (if turn.reply.Ok? then [BuildMessage(turn.reply.value.answer, Ai, turn.repliedAt)] else [])
  }

  /** The conversation id a reply leaves: a non-empty returned id replaces the current one. */
  function ConversationAfter(current: Option<string>, reply: Result<ChatResponse, ApiClient.Rejection>): (r: Option<string>)
    ensures current != Some("") ==> r != Some("")
    ensures r != current ==> reply.Ok? && r == reply.value.conversationId
  {
    if reply.Ok? && reply.value.conversationId.Some? && reply.value.conversationId.value != "" then reply.value.conversationId
    else current
  }

  /** The cloud session id after `ensureSession`: the one it resolved with,
      else the one the page already had. */
  function SessionAfter(current: Option<string>, ensured: Option<string>): Option<string> {
    if ensured.Some? then ensured else current
  }

  /** The detail records an accepted send appends for session `sid`. */
  function DetailsAppended(sid: string, query: string, turn: Turn): (r: seq<Detail>)
    ensures |r| == |Appended(query, turn)|
    ensures forall i :: 0 <= i < |r| ==> r[i] == Detail(sid, Appended(query, turn)[i].role, Appended(query, turn)[i].text, Appended(query, turn)[i].ts)
  {
    [Detail(sid, Role.User, query, turn.sentAt)] +
      (if turn.reply.Ok? then [Detail(sid, Ai, turn.reply.value.answer, turn.repliedAt)] else [])
  }

  /** The message count of a session, `0` for one not yet stored. */
  function CountOf(sessions: map<string, SessionDoc>, id: string): int {
    if id in sessions then sessions[id].messageCount else 0
  }

  /** The state of one `useChat()` instance. */
  /** The local store after the user id step: untouched while the page
      already has an id, else as `ensureUserId` leaves it. */
  function UidEntries(uid0: string, m: map<string, Stored>, available: bool, turn: Turn): map<string, Stored> {
    if uid0 != "" then m else Users.EnsuredEntries(m, available, turn.login, turn.sentAt, turn.randomText)
  }

  class ChatSession {
    const store: LocalStore
    const db: CloudStore
    const api: ApiClient.Client
    var history: seq<ChatMessage>
    var conversationId: Option<string>
    var cloudSessionId: Option<string>
    var summary: Option<CaseSummary>
    var state: ReportState
    var loading: bool
    var uid: string

    /** Whatever the page holds is what the device store holds, when the
        store works. */
    predicate Mirrored()
      reads this, store
    {
      store.available ==>
        && HistoryIn(store.entries) == history
        && SummaryIn(store.entries) == summary
        && TextIn(store.entries, CONVERSATION_KEY) == conversationId
        && TextIn(store.entries, CLOUD_SESSION_KEY) == cloudSessionId
    }

    /** The invariant between calls: the store mirror, no empty ids, nothing
        in flight, and a state this composable can reach. */
    predicate Valid()
      reads this, store
    {
      && Mirrored()
      && conversationId != Some("") && cloudSessionId != Some("")
      && !loading
      && state != Judging && state != Done
    }

    /** `isInputDisabled` */
    function IsInputDisabled(): bool
      reads this
    {
      InputDisabled(state, loading)
    }

    /** `useChat()`: the session loaded from the store. */
    constructor (store0: LocalStore, db0: CloudStore, api0: ApiClient.Client)
      ensures store == store0 && db == db0 && api == api0
      ensures history == (if store.available then HistoryIn(store.entries) else [])
      ensures summary == (if store.available then SummaryIn(store.entries) else None)
      ensures conversationId == (if store.available then TextIn(store.entries, CONVERSATION_KEY) else None)
      ensures cloudSessionId == (if store.available then TextIn(store.entries, CLOUD_SESSION_KEY) else None)
      ensures state == InitialState(summary, history) && !loading && uid == ""
      ensures Valid()
    {
      store := store0;
      db := db0;
      api := api0;
      var h := store0.LoadChatHistory();
      var c := store0.LoadConversationId();
      var sid := store0.LoadCloudSessionId();
      var s := store0.LoadSummary();
      history := h;
      conversationId := c;
      cloudSessionId := sid;
      summary := s;
      state := InitialState(s, h);
      loading := false;
      uid := "";
    }

    /** `start()` */
    method Start()
      modifies this
      ensures state == Started(old(state))
      ensures history == old(history) && conversationId == old(conversationId) && cloudSessionId == old(cloudSessionId)
      ensures summary == old(summary) && loading == old(loading) && uid == old(uid)
    {
      if state == Idle {
        state := Chatting;
      }
    }

    /** The user id step: an id is fetched or made, and cached, only while the
        page has none. */
    method EnsureUid(turn: Turn)
      requires Mirrored()
      modifies this, store
      ensures Mirrored() && uid != ""
      ensures uid == if old(uid) == "" then Users.EnsuredId(old(store.entries), old(store.available), turn.login, turn.sentAt, turn.randomText) else old(uid)
      ensures store.available == old(store.available)
      ensures store.entries == UidEntries(old(uid), old(store.entries), old(store.available), turn)
      ensures forall k :: k != USER_KEY ==> (k in store.entries <==> k in old(store.entries)) && (k in old(store.entries) ==> store.entries[k] == old(store.entries)[k])
      ensures history == old(history) && conversationId == old(conversationId) && cloudSessionId == old(cloudSessionId)
      ensures summary == old(summary) && state == old(state) && loading == old(loading)
    {
      if uid == "" {
        Users.EnsuredIdIs(store.entries, store.available, turn.login, turn.sentAt, turn.randomText);
        Users.EnsuredEntriesHoldId(store.entries, store.available, turn.login, turn.sentAt, turn.randomText);
        uid := Users.EnsureUserId(store, turn.login, turn.sentAt, turn.randomText);
      }
    }

    /** The user's message recorded: appended to the history and saved. */
    method RecordMessage(m: ChatMessage)
      requires Mirrored()
      modifies this, store
      ensures Mirrored()
      ensures history == old(history) + [m]
      ensures store.available == old(store.available)
      ensures forall k :: k != CHAT_KEY ==> (k in store.entries <==> k in old(store.entries)) && (k in old(store.entries) ==> store.entries[k] == old(store.entries)[k])
      ensures conversationId == old(conversationId) && cloudSessionId == old(cloudSessionId)
      ensures summary == old(summary) && state == old(state) && loading == old(loading) && uid == old(uid)
    {
      history := history + [m];
      store.SaveChatHistory(history);
    }

    /** `ensureSession` for the first text of a message, and a new session id
        adopted and saved. */
    method AdoptSession(firstText: string, add: AddOutcome)
      requires Mirrored() && cloudSessionId != Some("")
      requires add.Added? ==> add.id != "" && add.id !in db.sessions
      modifies this, store, db
      ensures Mirrored() && cloudSessionId != Some("")
      ensures cloudSessionId == SessionAfter(old(cloudSessionId), EnsuredSession(old(db.available), old(db.sessions), old(cloudSessionId), add))
      ensures store.available == old(store.available)
      ensures forall k :: k != CLOUD_SESSION_KEY ==> (k in store.entries <==> k in old(store.entries)) && (k in old(store.entries) ==> store.entries[k] == old(store.entries)[k])
      ensures db.available == old(db.available) && db.details == old(db.details)
      ensures db.sessions == if db.available && add.Added? && cloudSessionId == Some(add.id) then old(db.sessions)[add.id := NewSession(firstText)] else old(db.sessions)
      ensures db.available && cloudSessionId.Some? && cloudSessionId == EnsuredSession(old(db.available), old(db.sessions), old(cloudSessionId), add) ==>
        cloudSessionId.value in db.sessions
      ensures history == old(history) && conversationId == old(conversationId)
      ensures summary == old(summary) && state == old(state) && loading == old(loading) && uid == old(uid)
    {
      var sid := db.EnsureSession(cloudSessionId, firstText, add);
      if sid.Some? && sid != cloudSessionId {
        cloudSessionId := sid;
        store.SaveCloudSessionId(sid);
      }
    }

    /** One message mirrored to the cloud session: appended to the details,
        and the session's preview, count and conversation id updated. */
    method MirrorMessage(m: ChatMessage, replyConversation: Option<string>)
      requires cloudSessionId != Some("")
      modifies db
      ensures db.available == old(db.available)
      ensures db.details == if db.available && cloudSessionId.Some? then old(db.details) + [Detail(cloudSessionId.value, m.role, m.text, m.ts)] else old(db.details)
      ensures db.sessions == if db.available && cloudSessionId.Some? then
        Patch(old(db.sessions), cloudSessionId.value, d => AfterMessage(d, m.text, 1, replyConversation)) else old(db.sessions)
      ensures db.sessions.Keys == old(db.sessions).Keys
      ensures forall k :: k in old(db.sessions) && Some(k) != cloudSessionId ==> db.sessions[k] == old(db.sessions)[k]
      ensures db.available && cloudSessionId.Some? && cloudSessionId.value in old(db.sessions) ==>
        db.sessions[cloudSessionId.value].messageCount == old(db.sessions)[cloudSessionId.value].messageCount + 1
        && db.sessions[cloudSessionId.value].summaryText == old(db.sessions)[cloudSessionId.value].summaryText
    {
      if cloudSessionId.Some? {
        db.AppendDetail(cloudSessionId.value, m.role, m.text, m.ts);
        db.UpdateSessionAfterMessage(cloudSessionId.value, m.text, 1, replyConversation);
      }
    }

    /** The successful reply applied: the conversation id kept, the answer
        recorded and mirrored, and an extracted summary saved, stored in the
        cloud session and made the state. */
    method ApplyReply(response: ChatResponse, now: nat)
      requires Mirrored() && conversationId != Some("") && cloudSessionId != Some("")
      modifies this, store, db
      ensures Mirrored() && conversationId != Some("")
      ensures db.sessions.Keys == old(db.sessions).Keys
      ensures var extracted := ChatSummary.ExtractSummarySpec(response.answer, response.metadata, now);
        && conversationId == ConversationAfter(old(conversationId), Ok(response))
        && history == old(history) + [BuildMessage(response.answer, Ai, now)]
        && summary == (if extracted.Some? then extracted else old(summary))
        && state == AfterReply(old(state), extracted, response.metadata)
        && (db.available && cloudSessionId.Some? && cloudSessionId.value in db.sessions ==>
              db.sessions[cloudSessionId.value].messageCount == old(db.sessions)[cloudSessionId.value].messageCount + 1
              && db.sessions[cloudSessionId.value].summaryText ==
                   (if extracted.Some? then Some(extracted.value.text) else old(db.sessions)[cloudSessionId.value].summaryText))
      ensures store.available == old(store.available)
      ensures forall k :: k != CHAT_KEY && k != SUMMARY_KEY && k != CONVERSATION_KEY ==>
        (k in store.entries <==> k in old(store.entries)) && (k in old(store.entries) ==> store.entries[k] == old(store.entries)[k])
      ensures db.available == old(db.available)
      ensures db.details == if db.available && cloudSessionId.Some? then old(db.details) + [Detail(cloudSessionId.value, Ai, response.answer, now)] else old(db.details)
      ensures forall k :: k in old(db.sessions) && Some(k) != cloudSessionId ==> db.sessions[k] == old(db.sessions)[k]
      ensures cloudSessionId == old(cloudSessionId) && loading == old(loading) && uid == old(uid)
    {
      AdoptConversation(response.conversationId);
      var answer := BuildMessage(response.answer, Ai, now);
      RecordMessage(answer);
      MirrorMessage(answer, response.conversationId);
      var extracted := ChatSummary.ExtractSummary(response.answer, response.metadata, now);
      SettleSummary(extracted, response.metadata);
    }

    /** A non-empty conversation id from a reply kept and saved. */
    method AdoptConversation(replied: Option<string>)
      requires Mirrored() && conversationId != Some("")
      modifies this, store
      ensures Mirrored() && conversationId != Some("")
      ensures conversationId == if replied.Some? && replied.value != "" then replied else old(conversationId)
      ensures store.available == old(store.available)
      ensures forall k :: k != CONVERSATION_KEY ==> (k in store.entries <==> k in old(store.entries)) && (k in old(store.entries) ==> store.entries[k] == old(store.entries)[k])
      ensures history == old(history) && cloudSessionId == old(cloudSessionId)
      ensures summary == old(summary) && state == old(state) && loading == old(loading) && uid == old(uid)
    {
      if replied.Some? && replied.value != "" {
        conversationId := replied;
        store.SaveConversationId(replied);
      }
    }

    /** An extracted summary kept, saved and stored in the cloud session, and
        the state it leads to. */
    method SettleSummary(extracted: Option<CaseSummary>, metadata: Option<Metadata>)
      requires Mirrored() && cloudSessionId != Some("")
      modifies this, store, db
      ensures Mirrored()
      ensures summary == (if extracted.Some? then extracted else old(summary))
      ensures state == AfterReply(old(state), extracted, metadata)
      ensures store.available == old(store.available)
      ensures forall k :: k != SUMMARY_KEY ==> (k in store.entries <==> k in old(store.entries)) && (k in old(store.entries) ==> store.entries[k] == old(store.entries)[k])
      ensures db.available == old(db.available) && db.details == old(db.details)
      ensures db.sessions.Keys == old(db.sessions).Keys
      ensures forall k :: k in old(db.sessions) && Some(k) != cloudSessionId ==> db.sessions[k] == old(db.sessions)[k]
      ensures db.available && cloudSessionId.Some? && cloudSessionId.value in old(db.sessions) ==>
        db.sessions[cloudSessionId.value].messageCount == old(db.sessions)[cloudSessionId.value].messageCount
        && db.sessions[cloudSessionId.value].summaryText ==
             (if extracted.Some? then Some(extracted.value.text) else old(db.sessions)[cloudSessionId.value].summaryText)
      ensures history == old(history) && conversationId == old(conversationId) && cloudSessionId == old(cloudSessionId)
      ensures loading == old(loading) && uid == old(uid)
    {
      if extracted.Some? {
        summary := extracted;
        store.SaveSummary(extracted);
        state := ReadyToJudge;
        if cloudSessionId.Some? {
          db.UpdateSessionSummary(cloudSessionId.value, extracted.value.text);
        }
      } else if metadata.Some? && metadata.value.summaryReady {
        state := ReadyToJudge;
      }
    }

    /** `sendMessage(text)`: a blank text, a send in flight or a disabled
        input changes nothing; otherwise the trimmed text is recorded and
        mirrored, the chat is called with the page's user id and conversation,
        and the reply is applied, or the state becomes the error state. The
        user id argument of `useChat` is never what is sent: the page's own id
        is always set by then. */
    method SendMessage(text: string, userId: Option<string>, turn: Turn) returns (asked: Option<ChatRequest>)
      requires Valid()
      requires turn.add.Added? ==> turn.add.id != "" && turn.add.id !in db.sessions
      modifies this, store, db
      ensures Valid()
      ensures store.available == old(store.available) && db.available == old(db.available)
      ensures forall k :: k != CHAT_KEY && k != SUMMARY_KEY && k != CONVERSATION_KEY && k != CLOUD_SESSION_KEY && k != USER_KEY ==>
        (k in store.entries <==> k in old(store.entries)) && (k in old(store.entries) ==> store.entries[k] == old(store.entries)[k])
      ensures Trim(text) == "" || InputDisabled(old(state), old(loading)) ==>
        && asked.None?
        && history == old(history) && conversationId == old(conversationId) && cloudSessionId == old(cloudSessionId)
        && summary == old(summary) && state == old(state) && uid == old(uid)
        && store.entries == old(store.entries) && db.sessions == old(db.sessions) && db.details == old(db.details)
      ensures !(Trim(text) == "" || InputDisabled(old(state), old(loading))) ==>
        var query := Trim(text);
        var ensured := EnsuredSession(old(db.available), old(db.sessions), old(cloudSessionId), turn.add);
        && uid != ""
        && uid == (if old(uid) == "" then Users.EnsuredId(old(store.entries), old(store.available), turn.login, turn.sentAt, turn.randomText) else old(uid))
        && asked == Some(ChatRequest(query, Some(uid), old(conversationId)))
        && (var u := UidEntries(old(uid), old(store.entries), old(store.available), turn);
            (USER_KEY in store.entries <==> USER_KEY in u) && (USER_KEY in u ==> store.entries[USER_KEY] == u[USER_KEY]))
        && history == old(history) + Appended(query, turn)
        && conversationId == ConversationAfter(old(conversationId), turn.reply)
        && cloudSessionId == SessionAfter(old(cloudSessionId), ensured)
        && summary == (if ExtractedFrom(turn.reply, turn.repliedAt).Some? then ExtractedFrom(turn.reply, turn.repliedAt) else old(summary))
        && state == StateAfterSend(old(state), turn.reply, turn.repliedAt)
        && db.details == old(db.details) + (if db.available && cloudSessionId.Some? then DetailsAppended(cloudSessionId.value, query, turn) else [])
        && db.sessions.Keys == old(db.sessions).Keys + (if turn.add.Added? && ensured == Some(turn.add.id) then {turn.add.id} else {})
        && (forall k :: k in old(db.sessions) && Some(k) != cloudSessionId ==> db.sessions[k] == old(db.sessions)[k])
        && (db.available && ensured.Some? ==>
              db.sessions[ensured.value].messageCount == CountOf(old(db.sessions), ensured.value) + |Appended(query, turn)|)
    {
      if Trim(text) == "" || loading || IsInputDisabled() {
        return None;
      }
      asked := Post(Trim(text), userId, turn);
      Receive(turn);
    }

    /** The first half of an accepted send: the user id ensured, the chat
        started, the trimmed message recorded, saved and mirrored to the
        cloud session, and the chat request made. */
    method Post(query: string, userId: Option<string>, turn: Turn) returns (asked: Option<ChatRequest>)
      requires Valid()
      requires turn.add.Added? ==> turn.add.id != "" && turn.add.id !in db.sessions
      modifies this, store, db
      ensures Mirrored() && conversationId != Some("") && cloudSessionId != Some("") && loading
      ensures var ensured := EnsuredSession(old(db.available), old(db.sessions), old(cloudSessionId), turn.add);
        && uid != ""
        && uid == (if old(uid) == "" then Users.EnsuredId(old(store.entries), old(store.available), turn.login, turn.sentAt, turn.randomText) else old(uid))
        && asked == Some(ChatRequest(query, Some(uid), old(conversationId)))
        && history == old(history) + [BuildMessage(query, Role.User, turn.sentAt)]
        && conversationId == old(conversationId) && summary == old(summary)
        && cloudSessionId == SessionAfter(old(cloudSessionId), ensured)
        && state == Started(old(state))
        && db.details == old(db.details) + (if db.available && cloudSessionId.Some? then [Detail(cloudSessionId.value, Role.User, query, turn.sentAt)] else [])
        && db.sessions.Keys == old(db.sessions).Keys + (if db.available && turn.add.Added? && cloudSessionId == Some(turn.add.id) then {turn.add.id} else {})
        && (forall k :: k in old(db.sessions) && Some(k) != cloudSessionId ==> db.sessions[k] == old(db.sessions)[k])
        && (db.available && ensured.Some? ==>
              cloudSessionId == ensured && ensured.value in db.sessions
              && db.sessions[ensured.value].messageCount == CountOf(old(db.sessions), ensured.value) + 1)
      ensures store.available == old(store.available) && db.available == old(db.available)
      ensures forall k :: k != CHAT_KEY && k != CLOUD_SESSION_KEY && k != USER_KEY ==>
        (k in store.entries <==> k in old(store.entries)) && (k in old(store.entries) ==> store.entries[k] == old(store.entries)[k])
      ensures var u := UidEntries(old(uid), old(store.entries), old(store.available), turn);
        (USER_KEY in store.entries <==> USER_KEY in u) && (USER_KEY in u ==> store.entries[USER_KEY] == u[USER_KEY])
    {
      EnsureUid(turn);
      Start();
      loading := true;
      var userMessage := BuildMessage(query, Role.User, turn.sentAt);
      RecordMessage(userMessage);
      AdoptSession(query, turn.add);
      MirrorMessage(userMessage, None);
      asked := Some(ChatRequest(query, if uid != "" then Some(uid) else userId, conversationId));
    }

    /** The second half: the reply applied, or the error state, and the send
        no longer in flight. */
    method Receive(turn: Turn)
      requires Mirrored() && conversationId != Some("") && cloudSessionId != Some("")
      requires state != Judging && state != Done
      modifies this, store, db
      ensures Valid()
      ensures var extracted := ExtractedFrom(turn.reply, turn.repliedAt);
        && history == old(history) + (if turn.reply.Ok? then [BuildMessage(turn.reply.value.answer, Ai, turn.repliedAt)] else [])
        && conversationId == ConversationAfter(old(conversationId), turn.reply)
        && summary == (if extracted.Some? then extracted else old(summary))
        && state == (if turn.reply.Err? then Error else AfterReply(old(state), extracted, turn.reply.value.metadata))
        && cloudSessionId == old(cloudSessionId) && uid == old(uid)
        && db.details == old(db.details) + (if db.available && cloudSessionId.Some? && turn.reply.Ok? then [Detail(cloudSessionId.value, Ai, turn.reply.value.answer, turn.repliedAt)] else [])
        && db.sessions.Keys == old(db.sessions).Keys
        && (forall k :: k in old(db.sessions) && Some(k) != cloudSessionId ==> db.sessions[k] == old(db.sessions)[k])
        && (db.available && cloudSessionId.Some? && cloudSessionId.value in old(db.sessions) ==>
              db.sessions[cloudSessionId.value].messageCount == old(db.sessions)[cloudSessionId.value].messageCount + (if turn.reply.Ok? then 1 else 0))
      ensures store.available == old(store.available) && db.available == old(db.available)
      ensures forall k :: k != CHAT_KEY && k != SUMMARY_KEY && k != CONVERSATION_KEY ==>
        (k in store.entries <==> k in old(store.entries)) && (k in old(store.entries) ==> store.entries[k] == old(store.entries)[k])
    {
      match turn.reply {
        case Ok(response) =>
          ApplyReply(response, turn.repliedAt);
        case Err(_) =>
          state := Error;
      }
      loading := false;
    }

    /** `setSummary(newSummary)` */
    method SetSummary(newSummary: Option<CaseSummary>)
      requires Valid()
      modifies this, store
      ensures Valid()
      ensures summary == newSummary
      ensures store.available == old(store.available)
      ensures store.entries == if store.available then PutSummary(old(store.entries), newSummary) else old(store.entries)
      ensures history == old(history) && conversationId == old(conversationId) && cloudSessionId == old(cloudSessionId)
      ensures state == old(state) && loading == old(loading) && uid == old(uid)
    {
      summary := newSummary;
      store.SaveSummary(newSummary);
    }

    /** `reset()`: an empty idle session, the store cleared, the mock rounds
        restarted and the cloud session forgotten; the user id stays. */
    method Reset()
      requires Valid()
      modifies this, store, api
      ensures Valid()
      ensures history == [] && summary.None? && conversationId.None? && cloudSessionId.None?
      ensures state == Idle && !loading && uid == old(uid)
      ensures api.mockRound == 0
      ensures store.available == old(store.available)
      ensures store.entries == if store.available then PutText(Cleared(old(store.entries)), CLOUD_SESSION_KEY, None) else old(store.entries)
    {
      history := [];
      summary := None;
      conversationId := None;
      state := Idle;
      loading := false;
      store.ClearAll();
      api.ResetMock();
      cloudSessionId := None;
      store.SaveCloudSessionId(None);
    }
  }
}
