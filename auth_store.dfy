/**
 * The browser-side authentication store: the current token, the user
 * returned by `/api/auth/me`, whether the token has been confirmed by the
 * backend, whether a confirmation is in flight, and the two browser storages
 * ("remember me" in localStorage, otherwise sessionStorage).
 *
 * The asynchronous `verifyTokenOnce` is split into its two halves: starting
 * (decide at once, join the confirmation in flight, or start one) and
 * completing with the `/me` result, which is an input.
 */
module Stores {
  import opened Wrappers

  const LsKey: string := "auth_token_ls"
  const SsKey: string := "auth_token_ss"

  /** The user document `/api/auth/me` returns. */
  datatype User = User(id: int, username: string, email: string)

  /** A Web Storage area: string keys to string values. */
  class BrowserStorage {
    var items: map<string, string>

    constructor (initial: map<string, string>)
      ensures items == initial
    {
      items := initial;
    }

    /** `getItem`: null (`None`) for a missing key. */
    function GetItem(key: string): (r: Option<string>)
      reads this
      ensures r.Some? <==> key in items
      ensures r.Some? ==> r.value == items[key]
    {
      if key in items then Some(items[key]) else None
    }

    method SetItem(key: string, value: string)
      modifies this
      ensures items == old(items)[key := value]
    {
      items := items[key := value];
    }

    method RemoveItem(key: string)
      modifies this
      ensures items == old(items) - {key}
    {
      items := items - {key};
    }
  }

  /** JavaScript truthiness of a stored value: present and non-empty. */
  predicate Truthy(v: Option<string>) {
    v.Some? && v.value != ""
  }

  /**
   * `loadToken`: `localStorage[LS_KEY] || sessionStorage[SS_KEY] || ""`.
   * The result is the first of the two that is present and non-empty.
   */
  function LoadToken(local: map<string, string>, session: map<string, string>): (t: string)
    ensures LsKey in local && local[LsKey] != "" ==> t == local[LsKey]
    ensures !(LsKey in local && local[LsKey] != "") && SsKey in session && session[SsKey] != "" ==> t == session[SsKey]
    ensures !(LsKey in local && local[LsKey] != "") && !(SsKey in session && session[SsKey] != "") ==> t == ""
  {
    if LsKey in local && local[LsKey] != "" then local[LsKey]
    else if SsKey in session && session[SsKey] != "" then session[SsKey]
    else ""
  }

  // What `setToken` and `logout` leave in the two storages

  /** localStorage after `setToken(t, remember)`: the old entry removed, the new one written when remembered. */
  function StoredLocal(local: map<string, string>, t: string, remember: bool): map<string, string> {
    if remember then (local - {LsKey})[LsKey := t] else local - {LsKey}
  }

  /**
   * sessionStorage after `setToken(t, remember)` as written: `SS_KEY` removed,
   * and, when not remembered, the token written under `LS_KEY`.
   */
  function StoredSession(session: map<string, string>, t: string, remember: bool): map<string, string> {
    if remember then session - {SsKey} else (session - {SsKey})[LsKey := t]
  }

  /** sessionStorage after `setToken(t, remember)` as evidently intended: the token written under `SS_KEY`. */
  function StoredSessionIntended(session: map<string, string>, t: string, remember: bool): map<string, string> {
    if remember then session - {SsKey} else (session - {SsKey})[SsKey := t]
  }

  /** A remembered token is what the next page load reads back. */
  lemma RememberedTokenReloaded(local: map<string, string>, session: map<string, string>, t: string)
    requires t != ""
    ensures LoadToken(StoredLocal(local, t, true), StoredSession(session, t, true)) == t
  {
  }

  /**
   * A token stored without "remember me" is never read back: the next page
   * load finds nothing under either key it consults, whatever was stored before.
   */
  lemma NonRememberedTokenNotReloaded(local: map<string, string>, session: map<string, string>, t: string)
    ensures LoadToken(StoredLocal(local, t, false), StoredSession(session, t, false)) == ""
    ensures LsKey in StoredSession(session, t, false)
  {
  }

  /** With the token written under `SS_KEY`, a non-empty token is read back on the next load. */
  lemma NonRememberedTokenReloadedIntended(local: map<string, string>, session: map<string, string>, t: string)
    requires t != ""
    ensures LoadToken(StoredLocal(local, t, false), StoredSessionIntended(session, t, false)) == t
  {
  }

  /** localStorage and sessionStorage after `logout`. */
  function ClearedLocal(local: map<string, string>): map<string, string> {
    local - {LsKey}
  }

  function ClearedSession(session: map<string, string>): map<string, string> {
    session - {SsKey}
  }

  /**
   * After `logout` nothing is reloaded, and clearing twice changes nothing
   * more. The copy a non-remembered `setToken` left under `LS_KEY` in
   * sessionStorage survives `logout`.
   */
  lemma LogoutClearsStorage(local: map<string, string>, session: map<string, string>, t: string)
    ensures LoadToken(ClearedLocal(local), ClearedSession(session)) == ""
    ensures ClearedLocal(ClearedLocal(local)) == ClearedLocal(local)
    ensures ClearedSession(ClearedSession(session)) == ClearedSession(session)
    ensures var s := ClearedSession(StoredSession(session, t, false)); LsKey in s && s[LsKey] == t
  {
  }

  /** How a call to `verifyTokenOnce` begins. */
  datatype VerifyStart =
    | Immediate(result: bool)  // decided without a request
    | Joined                   // waits for the confirmation already in flight
    | Started                  // sends `/me`; the result arrives through `CompleteVerify`

  /** The decision `verifyTokenOnce` makes before any request. */
  function StartDecision(token: string, verified: bool, inFlight: bool): (s: VerifyStart)
    ensures s == Immediate(false) <==> token == ""
    ensures s == Immediate(true) <==> token != "" && verified
    ensures s == Started <==> token != "" && !verified && !inFlight
  {
    if token == "" then Immediate(false)
    else if verified then Immediate(true)
    else if inFlight then Joined
    else Started
  }

  class AuthStore {
    var token: string
    var user: Option<User>
    var isTokenVerified: bool
    /** `verifyingPromise !== null`: a `/me` confirmation is in flight. */
    var verifying: bool
    const local: BrowserStorage
    const session: BrowserStorage

    /** A confirmed token always comes with the user `/me` returned. */
    predicate Valid()
      reads this
    {
      local != session && (isTokenVerified ==> user.Some?)
    }

    /** The store's initial state, as on a page load: the token read from storage, nothing confirmed. */
    constructor (local: BrowserStorage, session: BrowserStorage)
      requires local != session
      ensures Valid()
      ensures this.local == local && this.session == session
      ensures token == LoadToken(local.items, session.items)
      ensures user.None? && !isTokenVerified && !verifying
    {
      this.local := local;
      this.session := session;
      var remembered := local.GetItem(LsKey);
      var forSession := session.GetItem(SsKey);
      token := if Truthy(remembered) then remembered.value else if Truthy(forSession) then forSession.value else "";
      user := None;
      isTokenVerified := false;
      verifying := false;
    }

    /** `isLoggedIn`: a token is present, confirmed or not. */
    function IsLoggedIn(): (r: bool)
      reads this
      ensures r <==> token != ""
    {
      token != ""
    }

    /**
     * `setToken`: adopts a new, unconfirmed token, clears both storage keys
     * and writes it to localStorage when remembered, otherwise to
     * sessionStorage under `LS_KEY`.
     */
    method SetToken(t: string, remember: bool)
      requires Valid()
      modifies this, local, session
      ensures Valid()
      ensures token == t && user.None? && !isTokenVerified && verifying == old(verifying)
      ensures local.items == StoredLocal(old(local.items), t, remember)
      ensures session.items == StoredSession(old(session.items), t, remember)
    {
      token := t;
      isTokenVerified := false;
      user := None;
      local.RemoveItem(LsKey);
      session.RemoveItem(SsKey);
      if remember {
        local.SetItem(LsKey, t);
      } else {
        session.SetItem(LsKey, t);
      }
    }

    /** `logout`: forgets the token, the user, the confirmation and the request in flight, and clears both storage keys. */
    method Logout()
      requires Valid()
      modifies this, local, session
      ensures Valid()
      ensures token == "" && user.None? && !isTokenVerified && !verifying
      ensures local.items == ClearedLocal(old(local.items))
      ensures session.items == ClearedSession(old(session.items))
    {
      token := "";
      user := None;
      isTokenVerified := false;
      verifying := false;
      local.RemoveItem(LsKey);
      session.RemoveItem(SsKey);
    }

    /** The first half of `verifyTokenOnce`: only `Started` changes state, by marking a request in flight. */
    method StartVerify() returns (s: VerifyStart)
      requires Valid()
      modifies this
      ensures Valid()
      ensures s == StartDecision(old(token), old(isTokenVerified), old(verifying))
      ensures verifying == (old(verifying) || s == Started)
      ensures token == old(token) && user == old(user) && isTokenVerified == old(isTokenVerified)
    {
      if token == "" {
        return Immediate(false);
      }
      if isTokenVerified {
        return Immediate(true);
      }
      if verifying {
        return Joined;
      }
      verifying := true;
      s := Started;
    }

    /**
     * The second half: `/me` answered with a user (`Some`) or failed (`None`).
     * Success records the user and the confirmation; failure logs out. Either
     * way nothing is in flight afterwards, and the result is what every
     * waiting caller receives.
     */
    method CompleteVerify(me: Option<User>) returns (ok: bool)
      requires Valid()
      modifies this, local, session
      ensures Valid()
      ensures ok <==> me.Some?
      ensures !verifying
      ensures ok ==> user == me && isTokenVerified && token == old(token)
      ensures ok ==> local.items == old(local.items) && session.items == old(session.items)
      ensures !ok ==> token == "" && user.None? && !isTokenVerified
      ensures !ok ==> local.items == ClearedLocal(old(local.items)) && session.items == ClearedSession(old(session.items))
    {
      if me.Some? {
        user := me;
        isTokenVerified := true;
        ok := true;
      } else {
        Logout();
        ok := false;
      }
      verifying := false;
    }
  }

  // Page reloads

  /**
   * What a reload shows after a login: a remembered token keeps the user
   * logged in, while one stored without "remember me" is lost and the
   * reloaded store is logged out.
   */
  method ReloadAfterLogin(store: AuthStore, t: string, remember: bool) returns (reloaded: AuthStore)
    requires store.Valid()
    modifies store, store.local, store.session
    ensures store.IsLoggedIn() <==> t != ""
    ensures reloaded.Valid() && reloaded.local == store.local && reloaded.session == store.session
    ensures remember ==> reloaded.token == t && (reloaded.IsLoggedIn() <==> t != "")
    ensures !remember ==> !reloaded.IsLoggedIn()
  {
    store.SetToken(t, remember);
    if remember {
      if t != "" {
        RememberedTokenReloaded(old(store.local.items), old(store.session.items), t);
      }
    } else {
      NonRememberedTokenNotReloaded(old(store.local.items), old(store.session.items), t);
    }
    reloaded := new AuthStore(store.local, store.session);
  }

  /** After `logout` the store is logged out, and so is the store a reload builds. */
  method ReloadAfterLogout(store: AuthStore) returns (reloaded: AuthStore)
    requires store.Valid()
    modifies store, store.local, store.session
    ensures !store.IsLoggedIn()
    ensures reloaded.Valid() && !reloaded.IsLoggedIn()
  {
    store.Logout();
    LogoutClearsStorage(old(store.local.items), old(store.session.items), "");
    reloaded := new AuthStore(store.local, store.session);
  }

  /** A session that starts a confirmation and has it succeed is confirmed; asking again decides at once, with no request. */
  method VerifyThenAskAgain(store: AuthStore, me: User) returns (second: VerifyStart)
    requires store.Valid() && store.token != "" && !store.isTokenVerified && !store.verifying
    modifies store, store.local, store.session
    ensures second == Immediate(true)
  {
    var first := store.StartVerify();
    assert first == Started;
    var ok := store.CompleteVerify(Some(me));
    second := store.StartVerify();
  }
}
