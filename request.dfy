/**
 * The HTTP client's interceptors: every outgoing request carries the
 * store's token as a bearer credential, and every failed response is
 * classified into the notice shown to the user, with a 401 logging out.
 * Showing the notice is a side effect outside the model; which kind of
 * notice and which text are modelled.
 */
module Api {
  import opened Wrappers
  import opened Text
  import opened Stores
  import AuthHandlers

  const AuthorizationKey: string := "Authorization"
  const BearerPrefix: string := "Bearer "

  /** The `Authorization` value attached for `token`: none when the token is empty. */
  function BearerHeader(token: string): (h: Option<string>)
    ensures h.Some? <==> token != ""
    ensures h.Some? ==> |h.value| == |BearerPrefix| + |token|
    ensures h.Some? ==> h.value[..|BearerPrefix|] == BearerPrefix && h.value[|BearerPrefix|..] == token
  {
    if token == "" then None else Some(BearerPrefix + token)
  }

  /** The outgoing request's configuration; `headers` may be absent. */
  class RequestConfig {
    var headers: Option<map<string, string>>

    constructor (headers: Option<map<string, string>>)
      ensures this.headers == headers
    {
      this.headers := headers;
    }
  }

  /**
   * The request interceptor: with a token, the headers (created empty when
   * absent) get `Authorization: Bearer <token>`; without one the configuration
   * is left as it is.
   */
  method AttachAuthorization(config: RequestConfig, store: AuthStore)
    modifies config
    ensures BearerHeader(store.token).None? ==> config.headers == old(config.headers)
    ensures BearerHeader(store.token).Some? ==>
              config.headers == Some(old(config.headers).GetOr(map[])[AuthorizationKey := BearerHeader(store.token).value])
  {
    if store.token != "" {
      var headers := config.headers.GetOr(map[]);
      config.headers := Some(headers[AuthorizationKey := BearerPrefix + store.token]);
    }
  }

  /**
   * The header the client sends is the one the backend reads back: any
   * non-empty token without surrounding whitespace, made of visible ASCII
   * (as a JWT is), survives the round trip.
   */
  lemma BearerRoundTrip(token: string)
    requires token != "" && IsTrimmed(token) && AuthHandlers.AllVisibleAscii(token)
    ensures AuthHandlers.ParseBearerToken(BearerHeader(token)) == Some(token)
  {
    assert BearerPrefix == "Bearer" + " ";
    AuthHandlers.ParseBearerAnyCase("Bearer", " ", token);
  }

  /** A failed request: no response at all, or a status with the backend's `message`, if any. */
  datatype HttpError = NoResponse | HttpStatus(status: nat, message: Option<string>)

  datatype Severity = Warning | Error

  datatype Notice = Notice(severity: Severity, text: string)

  const MsgNetwork: string := "网络错误，无法连接服务器"
  const MsgSessionExpired: string := "登录已失效，请重新登录"
  const MsgBadRequest: string := "请求参数错误"
  const MsgConflict: string := "数据冲突（可能用户名/邮箱已存在）"
  const MsgServerError: string := "服务器错误"
  const FallbackPrefix: string := "请求失败("

  /** The catch-all text, naming the status in decimal. */
  function FallbackText(status: nat): (t: string)
    ensures |t| > |FallbackPrefix| && t[..|FallbackPrefix|] == FallbackPrefix && t[|t| - 1] == ')'
    ensures var d := t[|FallbackPrefix|..|t| - 1]; AllDigits(d) && DigitsValue(d) == status
  {
    var t := FallbackPrefix + Decimal(status) + ")";
    assert t[|FallbackPrefix|..|t| - 1] == Decimal(status);
    t
  }

  /** `backendMsg || fallback`: the backend's message unless it is absent or empty. */
  function Prefer(backend: Option<string>, fallback: string): (t: string)
    ensures backend.Some? && backend.value != "" ==> t == backend.value
    ensures !(backend.Some? && backend.value != "") ==> t == fallback
  {
    if backend.Some? && backend.value != "" then backend.value else fallback
  }

  /** Only an expired or invalid session, status 401, logs out. */
  predicate LogsOut(e: HttpError) {
    e.HttpStatus? && e.status == 401
  }

  /** The notice the error interceptor shows. */
  function Classify(e: HttpError): (n: Notice)
    ensures e.NoResponse? ==> n == Notice(Error, MsgNetwork)
    ensures e.HttpStatus? ==> (n.severity == Error <==> e.status >= 500)
  {
    match e
    case NoResponse => Notice(Error, MsgNetwork)
    case HttpStatus(status, msg) =>
      if status == 401 then Notice(Warning, Prefer(msg, MsgSessionExpired))
      else if status == 400 then Notice(Warning, Prefer(msg, MsgBadRequest))
      else if status == 409 then Notice(Warning, Prefer(msg, MsgConflict))
      else if status >= 500 then Notice(Error, Prefer(msg, MsgServerError))
      else Notice(Warning, Prefer(msg, FallbackText(status)))
  }

  /**
   * For every status the backend's non-empty message is what is shown; with
   * none, each status has its own default text, and any status without one
   * gets the catch-all naming the status.
   */
  lemma ClassifyText(status: nat, msg: Option<string>)
    ensures msg.Some? && msg.value != "" ==> Classify(HttpStatus(status, msg)).text == msg.value
    ensures msg == None || msg == Some("") ==>
              Classify(HttpStatus(status, msg)).text ==
                (if status == 401 then MsgSessionExpired
                 else if status == 400 then MsgBadRequest
                 else if status == 409 then MsgConflict
                 else if status >= 500 then MsgServerError
                 else FallbackText(status))
  {
  }

  /**
   * The error interceptor: logs out on 401 and on nothing else, chooses the
   * notice, and always rejects with the same error.
   */
  method OnResponseError(store: AuthStore, e: HttpError) returns (notice: Notice, rejected: HttpError)
    requires store.Valid()
    modifies store, store.local, store.session
    ensures store.Valid()
    ensures notice == Classify(e) && rejected == e
    ensures LogsOut(e) ==> store.token == "" && store.user.None? && !store.isTokenVerified && !store.verifying
    ensures LogsOut(e) ==> store.local.items == ClearedLocal(old(store.local.items))
    ensures LogsOut(e) ==> store.session.items == ClearedSession(old(store.session.items))
    ensures !LogsOut(e) ==> unchanged(store) && unchanged(store.local) && unchanged(store.session)
  {
    rejected := e;
    if e.NoResponse? {
      notice := Notice(Error, MsgNetwork);
      return;
    }
    var status := e.status;
    var backendMsg := e.message;
    if status == 401 {
      store.Logout();
      notice := Notice(Warning, Prefer(backendMsg, MsgSessionExpired));
    } else if status == 400 {
      notice := Notice(Warning, Prefer(backendMsg, MsgBadRequest));
    } else if status == 409 {
      notice := Notice(Warning, Prefer(backendMsg, MsgConflict));
    } else if status >= 500 {
      notice := Notice(Error, Prefer(backendMsg, MsgServerError));
    } else {
      notice := Notice(Warning, Prefer(backendMsg, FallbackText(status)));
    }
  }
}
