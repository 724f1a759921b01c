/** The user id of src/utils/user.ts: a cached id in the device store, else the
    WeChat openid from the `login` cloud function, else a generated anonymous
    id; whichever is chosen is written back under `lovecourt_user_id`. */
module User {
  import opened Wrappers
  import opened JsString
  import opened JsValue
  import opened Storage

  /** What `wx.cloud.callFunction({ name: 'login' })` did: there is no cloud
      runtime, the call threw, or it resolved with a response. */
  datatype LoginOutcome = NoCloud | LoginThrew | LoggedIn(response: Json)

  /** `loadLocal` on a store: the cached id, `null` when absent or empty. */
  function CachedId(m: map<string, Stored>, available: bool): Option<string> {
    if available then TextIn(m, USER_KEY) else None
  }

  /** `fetchOpenId`: `res?.result?.openid || null`; it never throws. */
  function FetchOpenId(login: LoginOutcome): (r: Option<string>)
    ensures r.Some? ==> r.value != ""
    ensures login.NoCloud? || login.LoginThrew? ==> r.None?
  {
    match login
    case LoggedIn(res) =>
      var oid := Get(Get(res, "result"), "openid");
      if Truthy(oid) && ToStr(oid) != "" then Some(ToStr(oid)) else None
    case _ => None
  }

  /** `genAnonId`: `anon_`, the clock in base 36, `_`, then characters 2 to 9
      of the random number's base-36 text (`randomText`, which starts `0.`). */
  function GenAnonId(now: nat, randomText: string): (r: string)
    ensures |r| > 5 && r[..5] == "anon_"
  {
    "anon_" + NatToRadix(now, 36) + "_" + Slice(randomText, 2, 10)
  }

  /** The id `ensureUserId` returns. */
  function EnsuredId(m: map<string, Stored>, available: bool, login: LoginOutcome, now: nat, randomText: string): string {
    var cached := CachedId(m, available);
    if cached.Some? then cached.value
    else FetchOpenId(login).GetOr(GenAnonId(now, randomText))
  }

  /** The returned id is never empty; a cached id wins, then the openid, then
      a generated id starting `anon_`. */
  lemma EnsuredIdIs(m: map<string, Stored>, available: bool, login: LoginOutcome, now: nat, randomText: string)
    ensures EnsuredId(m, available, login, now, randomText) != ""
    ensures CachedId(m, available).Some? ==> EnsuredId(m, available, login, now, randomText) == CachedId(m, available).value
    ensures CachedId(m, available).None? && FetchOpenId(login).Some? ==>
      EnsuredId(m, available, login, now, randomText) == FetchOpenId(login).value
    ensures CachedId(m, available).None? && FetchOpenId(login).None? ==>
      EnsuredId(m, available, login, now, randomText)[..5] == "anon_"
  {
  }

  /** `setUserId`: a failed write is swallowed. */
  method SetUserId(store: LocalStore, id: string)
    modifies store
    ensures store.available == old(store.available)
    ensures store.entries == if store.available then Put(old(store.entries), USER_KEY, Text(id)) else old(store.entries)
  {
    if store.available {
      store.entries := Put(store.entries, USER_KEY, Text(id));
    }
  }

  /** The store after `ensureUserId`: untouched when an id was cached or the
      store is unavailable, else holding the chosen id under the user key. */
  function EnsuredEntries(m: map<string, Stored>, available: bool, login: LoginOutcome, now: nat, randomText: string): map<string, Stored> {
    if CachedId(m, available).Some? || !available then m
    else Put(m, USER_KEY, Text(EnsuredId(m, available, login, now, randomText)))
  }

  /** Once the id is ensured, an available store holds that very id, so the
      next `ensureUserId` finds it cached; no other key is touched. */
  lemma EnsuredEntriesHoldId(m: map<string, Stored>, available: bool, login: LoginOutcome, now: nat, randomText: string)
    ensures var e := EnsuredEntries(m, available, login, now, randomText);
      available ==> TextIn(e, USER_KEY) == Some(EnsuredId(m, available, login, now, randomText))
    ensures var e := EnsuredEntries(m, available, login, now, randomText);
      available ==> EnsuredId(e, available, login, now, randomText) == EnsuredId(m, available, login, now, randomText)
    ensures var e := EnsuredEntries(m, available, login, now, randomText);
      forall k :: k != USER_KEY ==> (k in e <==> k in m) && (k in m ==> e[k] == m[k])
  {
    EnsuredIdIs(m, available, login, now, randomText);
  }

  /** `ensureUserId`: a cached id is returned with no fetch and no write;
      otherwise the chosen id is written back. */
  method EnsureUserId(store: LocalStore, login: LoginOutcome, now: nat, randomText: string) returns (id: string)
    modifies store
    ensures id == EnsuredId(old(store.entries), old(store.available), login, now, randomText)
    ensures store.available == old(store.available)
    ensures store.entries == EnsuredEntries(old(store.entries), old(store.available), login, now, randomText)
  {
    var cached := if store.available then TextIn(store.entries, USER_KEY) else None;
    if cached.Some? {
      return cached.value;
    }
    var oid := FetchOpenId(login);
    id := if oid.Some? then oid.value else GenAnonId(now, randomText);
    SetUserId(store, id);
  }
}
