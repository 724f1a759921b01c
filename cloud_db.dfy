/** The cloud session mirror of src/utils/cloudDb.ts: a `chat_list` collection
    of session documents keyed by id and an append-only `chat_details`
    collection of messages. Every operation degrades silently: without a
    cloud database `ensureSession` gives `null` and the others do nothing. */
module CloudDb {
  import opened Wrappers
  import opened Types

  const PREVIEW_LENGTH: nat := 40
  const SESSION_TITLE: string := "情感检举"

  datatype Status = Processing | Ready | Completed

  datatype SessionDoc = SessionDoc(
    title: string,
    preview: string,
    messageCount: int,
    status: Status,
    conversationId: Option<string>,
    summaryText: Option<string>)

  datatype Detail = Detail(chatId: string, role: Role, text: string, ts: int)

  /** What `chat_list.add` did: it threw, or it created a document under the
      id the database assigned. `ensureSession` answers `res?._id || null`, so
      an add that resolves without an id gives `null` exactly as a throw does;
      the database always assigns a non-empty id, and such an add is modelled
      as `AddFailed` (the document it may have left behind is not modelled). */
  datatype AddOutcome = AddFailed | Added(id: string)

  /** `trimPreview(text, n)`: the text itself when it fits, else its first `n`
      characters and an ellipsis. */
  function TrimPreview(s: string, n: nat): (r: string)
    ensures |s| <= n ==> r == s
    ensures |s| > n ==> |r| == n + 1 && r[..n] == s[..n] && r[n] == '…'
    ensures |r| <= n + 1
  {
    if |s| > n then s[..n] + "…" else s
  }

  /** A preview is already as short as it will get. */
  lemma TrimPreviewIdempotent(s: string, n: nat)
    ensures TrimPreview(TrimPreview(s, n), n) == TrimPreview(s, n)
  {
    var r := TrimPreview(s, n);
    if |r| > n {
      assert r[..n] + "…" == r;
    }
  }

  /** The document `ensureSession` creates. */
  function NewSession(firstText: string): (d: SessionDoc)
    ensures d.title == SESSION_TITLE && d.messageCount == 0 && d.status == Processing
    ensures d.preview == TrimPreview(firstText, PREVIEW_LENGTH) && d.conversationId.None? && d.summaryText.None?
  {
    SessionDoc(SESSION_TITLE, TrimPreview(firstText, PREVIEW_LENGTH), 0, Processing, None, None)
  }

  /** The patch of `updateSessionAfterMessage` applied to a document. */
  function AfterMessage(d: SessionDoc, latestText: string, inc: int, conversationId: Option<string>): (r: SessionDoc)
    ensures r.messageCount == d.messageCount + (if inc > 1 then inc else 1) && r.messageCount > d.messageCount
    ensures r.preview == TrimPreview(latestText, PREVIEW_LENGTH)
    ensures r.conversationId == if conversationId.Some? && conversationId.value != "" then conversationId else d.conversationId
    ensures r.title == d.title && r.status == d.status && r.summaryText == d.summaryText
  {
    var count := d.messageCount + (if inc > 1 then inc else 1);
    var cid := if conversationId.Some? && conversationId.value != "" then conversationId else d.conversationId;
    d.(preview := TrimPreview(latestText, PREVIEW_LENGTH), messageCount := count, conversationId := cid)
  }

  /** The patch of `updateSessionSummary`. */
  function WithSummary(d: SessionDoc, summaryText: string): (r: SessionDoc)
    ensures r.summaryText == Some(summaryText) && r.status == Ready
    ensures r.title == d.title && r.preview == d.preview && r.messageCount == d.messageCount && r.conversationId == d.conversationId
  {
    d.(summaryText := Some(summaryText), status := Ready)
  }

  /** The patch of `markSessionCompleted`. */
  function Complete(d: SessionDoc): (r: SessionDoc)
    ensures r.status == Completed
    ensures r.title == d.title && r.preview == d.preview && r.messageCount == d.messageCount
    ensures r.conversationId == d.conversationId && r.summaryText == d.summaryText
  {
    d.(status := Completed)
  }

  /** An update applies only to an existing document; the others stay as they are. */
  function Patch(sessions: map<string, SessionDoc>, id: string, f: SessionDoc -> SessionDoc): (r: map<string, SessionDoc>)
    ensures r.Keys == sessions.Keys
    ensures forall k :: k in sessions && k != id ==> r[k] == sessions[k]
    ensures id in sessions ==> r[id] == f(sessions[id])
  {
    if id in sessions then sessions[id := f(sessions[id])] else sessions
  }

  /** The id `ensureSession` resolves with: a known session id is kept, else
      the id of the document just created, else `null`. */
  function EnsuredSession(available: bool, sessions: map<string, SessionDoc>, sessionId: Option<string>, add: AddOutcome): (r: Option<string>)
    requires add.Added? ==> add.id != ""
    ensures r.Some? ==> r.value != "" && available
    ensures r.Some? && r.value !in sessions ==> add == Added(r.value)
    ensures available && add.Added? ==> r.Some?
  {
    if !available then None
    else if sessionId.Some? && sessionId.value != "" && sessionId.value in sessions then sessionId
    else if add.Added? then Some(add.id)
    else None
  }

  class CloudStore {
    /** `canUseCloudDB()` */
    var available: bool
    var sessions: map<string, SessionDoc>
    var details: seq<Detail>

    constructor (available0: bool)
      ensures available == available0 && sessions == map[] && details == []
    {
      available := available0;
      sessions := map[];
      details := [];
    }

    /** `ensureSession`: an existing session id is kept; otherwise exactly one
        document is created and its id returned, or `null` on failure. The
        database hands out fresh, non-empty ids. */
    method EnsureSession(sessionId: Option<string>, firstText: string, add: AddOutcome) returns (r: Option<string>)
      requires add.Added? ==> add.id != "" && add.id !in sessions
      modifies this
      ensures r == EnsuredSession(old(available), old(sessions), sessionId, add)
      ensures available == old(available) && details == old(details)
      ensures !available ==> r.None? && sessions == old(sessions)
      ensures available && sessionId.Some? && sessionId.value != "" && sessionId.value in old(sessions) ==>
        r == sessionId && sessions == old(sessions)
      ensures available && !(sessionId.Some? && sessionId.value != "" && sessionId.value in old(sessions)) ==>
        if add.Added? then r == Some(add.id) && sessions == old(sessions)[add.id := NewSession(firstText)]
        else r.None? && sessions == old(sessions)
    {
      if !available {
        return None;
      }
      if sessionId.Some? && sessionId.value != "" && sessionId.value in sessions {
        return sessionId;
      }
      match add
      case Added(id) =>
        sessions := sessions[id := NewSession(firstText)];
        r := Some(id);
      case AddFailed =>
        r := None;
    }

    /** `appendDetail`: one message record appended, when there is a session. */
    method AppendDetail(sessionId: string, role: Role, text: string, ts: int)
      modifies this
      ensures available == old(available) && sessions == old(sessions)
      ensures details == if available && sessionId != "" then old(details) + [Detail(sessionId, role, text, ts)] else old(details)
    {
      if !available || sessionId == "" {
        return;
      }
      details := details + [Detail(sessionId, role, text, ts)];
    }

    /** `updateSessionAfterMessage`: preview, count and conversation id of one document. */
    method UpdateSessionAfterMessage(sessionId: string, latestText: string, inc: int, conversationId: Option<string>)
      modifies this
      ensures available == old(available) && details == old(details)
      ensures sessions == if available && sessionId != "" then
        Patch(old(sessions), sessionId, d => AfterMessage(d, latestText, inc, conversationId)) else old(sessions)
    {
      if !available || sessionId == "" {
        return;
      }
      sessions := Patch(sessions, sessionId, d => AfterMessage(d, latestText, inc, conversationId));
    }

    /** `updateSessionSummary`: the summary text stored and the status set to ready. */
    method UpdateSessionSummary(sessionId: string, summaryText: string)
      modifies this
      ensures available == old(available) && details == old(details)
      ensures sessions == if available && sessionId != "" then
        Patch(old(sessions), sessionId, d => WithSummary(d, summaryText)) else old(sessions)
    {
      if !available || sessionId == "" {
        return;
      }
      sessions := Patch(sessions, sessionId, d => WithSummary(d, summaryText));
    }

    /** `markSessionCompleted`: the status set to completed. */
    method MarkSessionCompleted(sessionId: string)
      modifies this
      ensures available == old(available) && details == old(details)
      ensures sessions == if available && sessionId != "" then
        Patch(old(sessions), sessionId, d => Complete(d)) else old(sessions)
    {
      if !available || sessionId == "" {
        return;
      }
      sessions := Patch(sessions, sessionId, d => Complete(d));
    }
  }
}
