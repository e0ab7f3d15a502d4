/**
 * The global navigation guard: pages on the whitelist are for visitors
 * without a token, every other page needs a token the backend has confirmed.
 * The guard itself keeps no state; the confirmation is the result of the
 * store's `verifyTokenOnce`, passed in.
 */
module Router {
  import Wrappers
  import Stores

  /** The pages reachable without logging in. */
  const WhiteList: seq<string> := ["/login", "/register", "/forget"]

  const LoginPath: string := "/login"
  const DashboardPath: string := "/dashboard"

  datatype Navigation = Allow | Redirect(to: string)

  /** What the guard does before consulting the backend: decide, or ask for a confirmation of the token. */
  datatype GuardStep = Decided(nav: Navigation) | NeedsConfirmation

  function Guard(path: string, token: string): (g: GuardStep)
    ensures g.NeedsConfirmation? <==> path !in WhiteList && token != ""
  {
    if path in WhiteList then
      if token != "" then Decided(Redirect(DashboardPath)) else Decided(Allow)
    else if token == "" then Decided(Redirect(LoginPath))
    else NeedsConfirmation
  }

  /** `beforeEach`: the guard's decision once `verifyTokenOnce` has answered `confirmed` (read only when asked). */
  function BeforeEach(path: string, token: string, confirmed: bool): (nav: Navigation)
    ensures nav.Redirect? ==> nav.to == LoginPath || nav.to == DashboardPath
  {
    match Guard(path, token)
    case Decided(n) => n
    case NeedsConfirmation => if confirmed then Allow else Redirect(LoginPath)
  }

  /** The whitelist is exactly the login, register and forgotten-password pages. */
  lemma WhiteListPages(path: string)
    ensures path in WhiteList <==> path == "/login" || path == "/register" || path == "/forget"
  {
  }

  /** The guard's four outcomes, each with the exact condition that leads to it. */
  lemma BeforeEachCases(path: string, token: string, confirmed: bool)
    ensures path in WhiteList ==> BeforeEach(path, token, confirmed) == (if token != "" then Redirect(DashboardPath) else Allow)
    ensures path !in WhiteList && token == "" ==> BeforeEach(path, token, confirmed) == Redirect(LoginPath)
    ensures path !in WhiteList && token != "" ==>
              (BeforeEach(path, token, confirmed) == Allow <==> confirmed)
    ensures path !in WhiteList && token != "" && !confirmed ==> BeforeEach(path, token, confirmed) == Redirect(LoginPath)
  {
  }

  /** The confirmation is read only for a protected page and a present token; elsewhere its value cannot matter. */
  lemma ConfirmationOnlyWhenNeeded(path: string, token: string)
    ensures !(path !in WhiteList && token != "") ==> BeforeEach(path, token, true) == BeforeEach(path, token, false)
    ensures path !in WhiteList && token != "" ==> BeforeEach(path, token, true) != BeforeEach(path, token, false)
  {
  }

  /** A protected page is shown only to a confirmed token. */
  lemma ProtectedNeedsConfirmedToken(path: string, token: string, confirmed: bool)
    requires path !in WhiteList
    requires BeforeEach(path, token, confirmed) == Allow
    ensures token != "" && confirmed
  {
  }

  /**
   * Redirects settle: without a token every redirect lands on a page that is
   * allowed, and with a token the redirect to the dashboard is then allowed
   * exactly when the token is confirmed. A refused token has already been
   * logged out by the store, so the redirect to the login page is then
   * judged without a token, and allowed.
   */
  lemma RedirectSettles(path: string, token: string, confirmed: bool, confirmedNext: bool)
    requires BeforeEach(path, token, confirmed).Redirect?
    ensures token == "" ==> BeforeEach(BeforeEach(path, token, confirmed).to, token, confirmedNext) == Allow
    ensures token != "" && path in WhiteList ==>
              (BeforeEach(BeforeEach(path, token, confirmed).to, token, confirmedNext) == Allow <==> confirmedNext)
    ensures token != "" && path !in WhiteList ==>
              BeforeEach(BeforeEach(path, token, confirmed).to, "", confirmedNext) == Allow
  {
  }

  /**
   * A protected page with a token the backend refuses: `verifyTokenOnce`
   * logs the store out before the guard redirects, so the next navigation
   * reads the emptied token and the login page is shown.
   */
  method RefusedThenLogin(store: Stores.AuthStore, path: string) returns (first: Navigation, second: Navigation)
    requires store.Valid() && store.token != "" && path !in WhiteList
    modifies store, store.local, store.session
    ensures store.Valid() && store.token == ""
    ensures first == Redirect(LoginPath)
    ensures second == Allow
  {
    var token := store.token;
    var ok := store.CompleteVerify(Wrappers.None);
    first := BeforeEach(path, token, ok);
    second := BeforeEach(first.to, store.token, false);
  }
}
