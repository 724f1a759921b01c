/** The device key/value store (`uni.getStorageSync` and friends) and the
    session persistence of src/utils/storage.ts over it. The store is a map
    from key to stored value; `available` is false on a device where every
    storage call throws, in which case saves are swallowed and loads return
    their defaults. */
module Storage {
  import opened Wrappers
  import opened Types

  const CHAT_KEY: string := "lovecourt_chat_history"
  const SUMMARY_KEY: string := "lovecourt_case_summary"
  const CONVERSATION_KEY: string := "lovecourt_conversation_id"
  /** The chat session also keeps its cloud session id; storage.ts declares
      no key for it, so this one is the model's own. */
  const CLOUD_SESSION_KEY: string := "lovecourt_cloud_session_id"
  const USER_KEY: string := "lovecourt_user_id"

  datatype Stored = History(messages: seq<ChatMessage>) | Summary(summary: CaseSummary) | Text(text: string)

  /** The store after `setStorageSync(key, v)`: only `key` changes. */
  function Put(m: map<string, Stored>, key: string, v: Stored): (r: map<string, Stored>)
    ensures key in r && r[key] == v
    ensures forall k :: k != key ==> (k in r <==> k in m) && (k in m ==> r[k] == m[k])
  {
    m[key := v]
  }

  /** The store after `removeStorageSync(key)`: only `key` changes. */
  function Remove(m: map<string, Stored>, key: string): (r: map<string, Stored>)
    ensures key !in r
    ensures forall k :: k != key ==> (k in r <==> k in m) && (k in m ==> r[k] == m[k])
  {
    m - {key}
  }

  /** A text key: a non-empty id is stored, `null` or `''` removes the key. */
  function PutText(m: map<string, Stored>, key: string, id: Option<string>): map<string, Stored> {
    if id.Some? && id.value != "" then Put(m, key, Text(id.value)) else Remove(m, key)
  }

  /** A text key read back with `|| null`: absent or empty is `null`. */
  function TextIn(m: map<string, Stored>, key: string): Option<string> {
    if key in m && m[key].Text? && m[key].text != "" then Some(m[key].text) else None
  }

  /** `loadChatHistory` on the store: the stored list, or `[]`. */
  function HistoryIn(m: map<string, Stored>): seq<ChatMessage> {
    if CHAT_KEY in m && m[CHAT_KEY].History? then m[CHAT_KEY].messages else []
  }

  /** `saveSummary`: a summary is stored, `null` removes the key. */
  function PutSummary(m: map<string, Stored>, s: Option<CaseSummary>): map<string, Stored> {
    if s.Some? then Put(m, SUMMARY_KEY, Summary(s.value)) else Remove(m, SUMMARY_KEY)
  }

  /** `loadSummary` on the store: the stored summary, or `null`. */
  function SummaryIn(m: map<string, Stored>): Option<CaseSummary> {
    if SUMMARY_KEY in m && m[SUMMARY_KEY].Summary? then Some(m[SUMMARY_KEY].summary) else None
  }

  /** `clearAll`: an empty history, and no summary and no conversation id. */
  function Cleared(m: map<string, Stored>): map<string, Stored> {
    PutText(PutSummary(Put(m, CHAT_KEY, History([])), None), CONVERSATION_KEY, None)
  }

  /** What was saved under each key is what is loaded back. */
  lemma RoundTrips(m: map<string, Stored>, msgs: seq<ChatMessage>, s: Option<CaseSummary>, key: string, id: Option<string>)
    ensures HistoryIn(Put(m, CHAT_KEY, History(msgs))) == msgs
    ensures SummaryIn(PutSummary(m, s)) == s
    ensures TextIn(PutText(m, key, id), key) == if id == Some("") then None else id
  {
  }

  /** `clearAll` leaves the history key present and holding `[]`, removes the
      summary and conversation keys, and touches no other key. */
  lemma ClearedIs(m: map<string, Stored>)
    ensures CHAT_KEY in Cleared(m) && Cleared(m)[CHAT_KEY] == History([])
    ensures SUMMARY_KEY !in Cleared(m) && CONVERSATION_KEY !in Cleared(m)
    ensures forall k :: k != CHAT_KEY && k != SUMMARY_KEY && k != CONVERSATION_KEY ==>
      (k in Cleared(m) <==> k in m) && (k in m ==> Cleared(m)[k] == m[k])
    ensures HistoryIn(Cleared(m)) == [] && SummaryIn(Cleared(m)).None? && TextIn(Cleared(m), CONVERSATION_KEY).None?
  {
  }

  class LocalStore {
    var entries: map<string, Stored>
    /** False where every storage call throws. */
    var available: bool

    constructor (entries0: map<string, Stored>, available0: bool)
      ensures entries == entries0 && available == available0
    {
      entries := entries0;
      available := available0;
    }

    method SaveChatHistory(messages: seq<ChatMessage>)
      modifies this
      ensures available == old(available)
      ensures entries == if available then Put(old(entries), CHAT_KEY, History(messages)) else old(entries)
    {
      if available {
        entries := Put(entries, CHAT_KEY, History(messages));
      }
    }

    method LoadChatHistory() returns (r: seq<ChatMessage>)
      ensures r == if available then HistoryIn(entries) else []
    {
      r := if available then HistoryIn(entries) else [];
    }

    method SaveSummary(summary: Option<CaseSummary>)
      modifies this
      ensures available == old(available)
      ensures entries == if available then PutSummary(old(entries), summary) else old(entries)
    {
      if available {
        entries := PutSummary(entries, summary);
      }
    }

    method LoadSummary() returns (r: Option<CaseSummary>)
      ensures r == if available then SummaryIn(entries) else None
    {
      r := if available then SummaryIn(entries) else None;
    }

    method SaveConversationId(id: Option<string>)
      modifies this
      ensures available == old(available)
      ensures entries == if available then PutText(old(entries), CONVERSATION_KEY, id) else old(entries)
    {
      if available {
        entries := PutText(entries, CONVERSATION_KEY, id);
      }
    }

    method LoadConversationId() returns (r: Option<string>)
      ensures r == if available then TextIn(entries, CONVERSATION_KEY) else None
    {
      r := if available then TextIn(entries, CONVERSATION_KEY) else None;
    }

    method SaveCloudSessionId(id: Option<string>)
      modifies this
      ensures available == old(available)
      ensures entries == if available then PutText(old(entries), CLOUD_SESSION_KEY, id) else old(entries)
    {
      if available {
        entries := PutText(entries, CLOUD_SESSION_KEY, id);
      }
    }

    method LoadCloudSessionId() returns (r: Option<string>)
      ensures r == if available then TextIn(entries, CLOUD_SESSION_KEY) else None
    {
      r := if available then TextIn(entries, CLOUD_SESSION_KEY) else None;
    }

    /** `clearAll`: the three saves in sequence. */
    method ClearAll()
      modifies this
      ensures available == old(available)
      ensures entries == if available then Cleared(old(entries)) else old(entries)
    {
      SaveChatHistory([]);
      SaveSummary(None);
      SaveConversationId(None);
    }
  }
}
