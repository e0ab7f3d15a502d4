/**
 * The authentication handlers: `register`, `login` and `me`, and the
 * Authorization-header parser. Each handler writes its outcome into the
 * framework `Response` (status plus rendered JSON documents) and reports the
 * external calls it made (password hashing and verification, token issuance
 * and verification, user-table access) in `calls`. The results of the
 * hashing and token oracles are parameters: `hashed` and `issued` are what
 * `hash_password` and `issue_jwt` return for this request, `verifyPassword`
 * and `verifyJwt` are functions of their arguments.
 */
module AuthHandlers {
  import opened Wrappers
  import opened Text
  import opened Web
  import opened UserService
  import opened State

  const MsgBadJson: string := "请求体不是合法JSON"
  const MsgBadCaptcha: string := "验证码错误或已经过期"
  const MsgUsernameLength: string := "用户名长度需要在3-32之间"
  const MsgBadEmail: string := "邮箱格式错误"
  const MsgShortPassword: string := "密码长度至少6位"
  const MsgHashFailed: string := "密码处理失败"
  const MsgDuplicate: string := "用户名或邮箱已存在"
  const MsgWriteFailed: string := "数据写入错误"
  const MsgTokenFailed: string := "token生成失败"
  const MsgEmptyCredentials: string := "账号或密码不能为空"
  const MsgQueryFailed: string := "数据库查询失败"
  const MsgBadCredentials: string := "账号或密码错误"
  const MsgVerifyFailed: string := "密码校验失败"
  const MsgMissingToken: string := "缺少token"
  const MsgInvalidToken: string := "token无效或已经过期"
  const MsgNoSuchUser: string := "用户不存在"

  datatype RegisterReq = RegisterReq(username: string, email: string, password: string, captchaId: string, captcha: string)
  datatype LoginReq = LoginReq(account: string, password: string, captchaId: string, captcha: string)

  /** What `verify_password` reports: a match, a mismatch, or a stored hash that does not parse. */
  datatype PasswordCheck = Match | Mismatch | MalformedHash

  /** An external call a handler makes. */
  datatype Call =
    | HashPassword
    | CreateUser(username: string, email: string)
    | FindUserByAccount(account: string)
    | VerifyPassword(userId: int)
    | IssueJwt(userId: int)
    | VerifyJwt(token: string)
    | FindUserById(userId: int)

  // Validation policy of `register`

  predicate UsernameLengthOk(username: string) {
    3 <= |Trim(username)| <= 32
  }

  predicate EmailShapeOk(email: string) {
    '@' in Trim(email)
  }

  predicate PasswordLengthOk(password: string) {
    |password| >= 6
  }

  /** The error document left behind by the username-length check, which does not stop the flow. */
  function LengthWarning(username: string): seq<Body> {
    if UsernameLengthOk(username) then [] else [ErrorBody(MsgUsernameLength)]
  }

  /** `render_error`: sets the status and renders `{"message": msg}`. */
  method RenderError(res: Response, code: int, msg: string)
    modifies res
    ensures res.status == code && res.bodies == old(res.bodies) + [ErrorBody(msg)]
  {
    res.SetStatus(code);
    res.Render(ErrorBody(msg));
  }

  // Authorization header

  /** `HeaderValue::to_str` succeeds only on visible ASCII and tab. */
  predicate IsVisibleAscii(c: char) {
    c == '\t' || (' ' <= c <= '~')
  }

  predicate AllVisibleAscii(s: string) {
    forall i :: 0 <= i < |s| ==> IsVisibleAscii(s[i])
  }

  /**
   * `parse_bearer_token`: the header, trimmed, must be at least 7 characters
   * and start with "bearer" in any case; the token is the rest, trimmed, and
   * must be non-empty. No separator between scheme and token is required.
   */
  function ParseBearerToken(header: Option<string>): (r: Option<string>)
    ensures r.Some? ==> header.Some? && AllVisibleAscii(header.value)
    ensures r.Some? ==> r.value != []
  {
    if header.None? || !AllVisibleAscii(header.value) then None
    else
      var raw := Trim(header.value);
      if |raw| < 7 then None
      else if !EqIgnoreAsciiCase(raw[..6], "bearer") then None
      else
        var token := Trim(raw[6..]);
        if token == [] then None else Some(token)
  }

  /** The parser's acceptance condition, stated on the header rather than step by step. */
  lemma ParseBearerTokenCases(header: string)
    requires AllVisibleAscii(header)
    ensures |Trim(header)| < 7 ==> ParseBearerToken(Some(header)) == None
    ensures |Trim(header)| >= 7 && !EqIgnoreAsciiCase(Trim(header)[..6], "bearer") ==> ParseBearerToken(Some(header)) == None
    ensures |Trim(header)| >= 7 && EqIgnoreAsciiCase(Trim(header)[..6], "bearer") ==>
              ParseBearerToken(Some(header)) == (if Trim(Trim(header)[6..]) == [] then None else Some(Trim(Trim(header)[6..])))
  {
  }

  /**
   * The scheme may be written in any case and followed by any run of spaces
   * and tabs, including none: `scheme + sep + token` yields `token`.
   */
  lemma {:induction false} ParseBearerAnyCase(scheme: string, sep: string, token: string)
    requires |scheme| == 6 && EqIgnoreAsciiCase(scheme, "bearer")
    requires AllWhitespace(sep) && AllVisibleAscii(sep)
    requires token != [] && IsTrimmed(token) && AllVisibleAscii(token)
    ensures ParseBearerToken(Some(scheme + sep + token)) == Some(token)
  {
    var h := scheme + sep + token;
    assert AllVisibleAscii(scheme) by {
      forall i | 0 <= i < 6 ensures IsVisibleAscii(scheme[i]) {
        assert ToLowerAscii(scheme[i]) == ToLowerAscii("bearer"[i]);
      }
    }
    assert AllVisibleAscii(h) by {
      forall i | 0 <= i < |h| ensures IsVisibleAscii(h[i]) {
        if i < 6 { assert h[i] == scheme[i]; }
        else if i < 6 + |sep| { assert h[i] == sep[i - 6]; }
        else { assert h[i] == token[i - 6 - |sep|]; }
      }
    }
    assert !IsWhitespace(scheme[0]) by {
      assert ToLowerAscii(scheme[0]) == 'b';
    }
    assert h[0] == scheme[0];
    assert h[|h| - 1] == token[|token| - 1];
    TrimOfTrimmed(h);
    assert h[..6] == scheme;
    assert h[6..] == [] + sep + token;
    PaddedTrim(sep, token, []);
    assert sep + token + [] == sep + token;
    assert Trim(h) == h;
    assert Trim(h)[6..] == sep + token;
    assert Trim(Trim(h)[6..]) == token;
  }

  /**
   * The converse: every header the parser accepts is, once trimmed, a scheme
   * equal to "bearer" up to case, then a run of whitespace, then exactly the
   * token returned, which has no whitespace at either end.
   */
  lemma ParsedHeaderShape(h: string)
    requires ParseBearerToken(Some(h)).Some?
    ensures var raw := Trim(h);
            var t := ParseBearerToken(Some(h)).value;
            var k := 6 + TrimOffset(raw[6..]);
            && |raw| >= 7 && EqIgnoreAsciiCase(raw[..6], "bearer")
            && t != [] && IsTrimmed(t)
            && k <= |raw| && raw[k..] == t && AllWhitespace(raw[6..k])
  {
    var raw := Trim(h);
    var t := ParseBearerToken(Some(h)).value;
    TrimSlice(h);
    var rest := raw[6..];
    assert t == Trim(rest);
    TrimSlice(rest);
    var off := TrimOffset(rest);
    assert rest[off..] == t;
    assert raw[6 + off..] == rest[off..];
    assert raw[6..6 + off] == rest[..off];
  }

  // Handlers

  /** What a handler leaves behind: the final status, the rendered documents, the external calls made. */
  datatype Outcome = Outcome(status: int, bodies: seq<Body>, calls: seq<Call>)

  /**
   * The outcome of `register`, given whether the captcha passed, what the
   * hasher returns, the users table before the insert, the injected storage
   * fault and what the token issuer returns.
   */
  function RegisterOutcome(body: Option<RegisterReq>, captchaOk: bool, hashed: Option<string>,
                           rows: map<int, UserRow>, nextId: int, fault: Option<DbError>, issued: Option<string>): Outcome
  {
    if body.None? then Outcome(BadRequest, [ErrorBody(MsgBadJson)], [])
    else if !captchaOk then Outcome(BadRequest, [ErrorBody(MsgBadCaptcha)], [])
    else AdmittedOutcome(body.value, hashed, rows, nextId, fault, issued)
  }

  /** The outcome of `register` once the captcha has passed. */
  function AdmittedOutcome(b: RegisterReq, hashed: Option<string>,
                           rows: map<int, UserRow>, nextId: int, fault: Option<DbError>, issued: Option<string>): Outcome
  {
    var u, e := Trim(b.username), Trim(b.email);
    var warn := LengthWarning(b.username);
    if !EmailShapeOk(b.email) then Outcome(BadRequest, warn + [ErrorBody(MsgBadEmail)], [])
    else if !PasswordLengthOk(b.password) then Outcome(BadRequest, warn + [ErrorBody(MsgShortPassword)], [])
    else if hashed.None? then Outcome(BadRequest, warn + [ErrorBody(MsgHashFailed)], [HashPassword])
    else match CreateOutcome(rows, nextId, u, e, fault)
      case Failure(err) =>
        if IsDuplicateKey(err) then Outcome(Conflict, warn + [ErrorBody(MsgDuplicate)], [HashPassword, CreateUser(u, e)])
        else Outcome(InternalServerError, warn + [ErrorBody(MsgWriteFailed)], [HashPassword, CreateUser(u, e)])
      case Success(id) =>
        if issued.None? then
          Outcome(InternalServerError, warn + [ErrorBody(MsgTokenFailed)], [HashPassword, CreateUser(u, e), IssueJwt(id)])
        else
          Outcome(if warn == [] then Ok else BadRequest, warn + [TokenBody(issued.value)], [HashPassword, CreateUser(u, e), IssueJwt(id)])
  }

  /** The row `register` inserts once the captcha has passed, if it gets that far and the insert succeeds. */
  function AdmittedInsert(b: RegisterReq, hashed: Option<string>, rows: map<int, UserRow>, nextId: int, fault: Option<DbError>): Option<UserRow>
  {
    if !EmailShapeOk(b.email) || !PasswordLengthOk(b.password) || hashed.None? then None
    else
      var u, e := Trim(b.username), Trim(b.email);
      if CreateOutcome(rows, nextId, u, e, fault).Success? then Some(UserRow(nextId, u, e, hashed.value)) else None
  }

  /**
   * `register`: parse, consume the captcha, then validate, hash, insert and
   * issue a token (`RegisterAdmitted`).
   */
  method Register(app: AppState, res: Response, body: Option<RegisterReq>, now: int,
                  hashed: Option<string>, fault: Option<DbError>, issued: Option<string>)
    returns (calls: seq<Call>)
    requires app.db.Valid()
    requires res.status == Ok && res.bodies == []
    modifies res, app.captchaStore, app.db
    ensures app.db.Valid()
    ensures app.captchaStore.entries ==
              if body.None? then old(app.captchaStore.entries)
              else Consume(old(app.captchaStore.entries), body.value.captchaId, body.value.captcha, now).1
    ensures var o := RegisterOutcome(body, body.Some? && Consume(old(app.captchaStore.entries), body.value.captchaId, body.value.captcha, now).0,
                                     hashed, old(app.db.rows), old(app.db.nextId), fault, issued);
            res.status == o.status && res.bodies == o.bodies && calls == o.calls
    ensures var ins := if body.None? || !Consume(old(app.captchaStore.entries), body.value.captchaId, body.value.captcha, now).0 then None
                       else AdmittedInsert(body.value, hashed, old(app.db.rows), old(app.db.nextId), fault);
            && app.db.rows == (if ins.Some? then old(app.db.rows)[ins.value.id := ins.value] else old(app.db.rows))
            && app.db.nextId == (if ins.Some? then old(app.db.nextId) + 1 else old(app.db.nextId))
  {
    if body.None? {
      RenderError(res, BadRequest, MsgBadJson);
      return [];
    }
    var b := body.value;

    var captchaOk := app.captchaStore.VerifyAndConsume(b.captchaId, b.captcha, now);
    if !captchaOk {
      RenderError(res, BadRequest, MsgBadCaptcha);
      return [];
    }
    calls := RegisterAdmitted(app.db, res, b, hashed, fault, issued);
  }

  /**
   * The rest of `register` after the captcha: the username-length check
   * renders a 400 but does not return; a hashing failure is a 400; a
   * duplicate key is a 409 and any other storage error a 500; a token failure
   * after the insert is a 500 and the new row stays.
   */
  method RegisterAdmitted(db: UserTable, res: Response, b: RegisterReq,
                          hashed: Option<string>, fault: Option<DbError>, issued: Option<string>)
    returns (calls: seq<Call>)
    requires db.Valid()
    requires res.status == Ok && res.bodies == []
    modifies res, db
    ensures db.Valid()
    ensures var o := AdmittedOutcome(b, hashed, old(db.rows), old(db.nextId), fault, issued);
            res.status == o.status && res.bodies == o.bodies && calls == o.calls
    ensures var ins := AdmittedInsert(b, hashed, old(db.rows), old(db.nextId), fault);
            && db.rows == (if ins.Some? then old(db.rows)[ins.value.id := ins.value] else old(db.rows))
            && db.nextId == (if ins.Some? then old(db.nextId) + 1 else old(db.nextId))
  {
    var username := Trim(b.username);
    var email := Trim(b.email);
    if |username| < 3 || |username| > 32 {
      RenderError(res, BadRequest, MsgUsernameLength);
    }
    assert res.bodies == LengthWarning(b.username);
    assert res.status == if res.bodies == [] then Ok else BadRequest;
    if '@' !in email {
      RenderError(res, BadRequest, MsgBadEmail);
      return [];
    }
    if |b.password| < 6 {
      RenderError(res, BadRequest, MsgShortPassword);
      return [];
    }

    calls := [HashPassword];
    if hashed.None? {
      RenderError(res, BadRequest, MsgHashFailed);
      return;
    }

    var stored := InsertAndIssue(db, res, username, email, hashed.value, fault, issued);
    calls := calls + stored;
  }

  /**
   * The tail of `register`: insert the row, then issue the token. A failure
   * renders its error; success renders the token under whatever status the
   * response already has.
   */
  method InsertAndIssue(db: UserTable, res: Response, username: string, email: string, hash: string,
                        fault: Option<DbError>, issued: Option<string>)
    returns (calls: seq<Call>)
    requires db.Valid()
    modifies res, db
    ensures db.Valid()
    ensures var created := CreateOutcome(old(db.rows), old(db.nextId), username, email, fault);
            && calls == [CreateUser(username, email)] + (if created.Success? then [IssueJwt(created.value)] else [])
            && res.status == (if created.Failure? then (if IsDuplicateKey(created.error) then Conflict else InternalServerError)
                              else if issued.None? then InternalServerError else old(res.status))
            && res.bodies == old(res.bodies) + [if created.Failure? then ErrorBody(if IsDuplicateKey(created.error) then MsgDuplicate else MsgWriteFailed)
                                                else if issued.None? then ErrorBody(MsgTokenFailed) else TokenBody(issued.value)]
    ensures var created := CreateOutcome(old(db.rows), old(db.nextId), username, email, fault);
            && db.rows == (if created.Success? then old(db.rows)[old(db.nextId) := UserRow(old(db.nextId), username, email, hash)] else old(db.rows))
            && db.nextId == (if created.Success? then old(db.nextId) + 1 else old(db.nextId))
  {
    calls := [CreateUser(username, email)];
    var created := db.CreateUser(username, email, hash, fault);
    if created.Failure? {
      if IsDuplicateKey(created.error) {
        RenderError(res, Conflict, MsgDuplicate);
        return;
      }
      RenderError(res, InternalServerError, MsgWriteFailed);
      return;
    }
    var userId := created.value;

    calls := calls + [IssueJwt(userId)];
    if issued.None? {
      RenderError(res, InternalServerError, MsgTokenFailed);
      return;
    }
    res.Render(TokenBody(issued.value));
  }

  /**
   * The outcome of `login`, given whether the captcha passed, what the
   * account lookup returned, the password verifier and what the token issuer
   * returns.
   */
  function LoginOutcome(body: Option<LoginReq>, captchaOk: bool, lookup: Result<Option<UserRow>, DbError>,
                        verifyPassword: (string, string) -> PasswordCheck, issued: Option<string>): Outcome
  {
    if body.None? then Outcome(BadRequest, [ErrorBody(MsgBadJson)], [])
    else if !captchaOk then Outcome(BadRequest, [ErrorBody(MsgBadCaptcha)], [])
    else
      var b := body.value;
      var account := Trim(b.account);
      if account == [] || b.password == [] then Outcome(BadRequest, [ErrorBody(MsgEmptyCredentials)], [])
      else match lookup
        case Failure(_) => Outcome(InternalServerError, [ErrorBody(MsgQueryFailed)], [FindUserByAccount(account)])
        case Success(None) => Outcome(BadRequest, [ErrorBody(MsgBadCredentials)], [FindUserByAccount(account)])
        case Success(Some(u)) =>
          var check := verifyPassword(b.password, u.passwordHash);
          var soFar := [FindUserByAccount(account), VerifyPassword(u.id)];
          if check == MalformedHash then Outcome(InternalServerError, [ErrorBody(MsgVerifyFailed)], soFar)
          else if check == Mismatch then Outcome(BadRequest, [ErrorBody(MsgBadCredentials)], soFar)
          else if issued.None? then Outcome(InternalServerError, [ErrorBody(MsgTokenFailed)], soFar + [IssueJwt(u.id)])
          else Outcome(Ok, [TokenBody(issued.value)], soFar + [IssueJwt(u.id)])
  }

  /**
   * `login`: parse, consume the captcha, check the fields are non-empty, look
   * the account up, verify the password, issue a token. `lookup` is what the
   * account lookup returned when it was made.
   */
  method Login(app: AppState, res: Response, body: Option<LoginReq>, now: int,
               verifyPassword: (string, string) -> PasswordCheck, fault: Option<DbError>, issued: Option<string>)
    returns (calls: seq<Call>, lookup: Result<Option<UserRow>, DbError>)
    requires app.db.Valid()
    requires res.status == Ok && res.bodies == []
    modifies res, app.captchaStore
    ensures app.captchaStore.entries ==
              if body.None? then old(app.captchaStore.entries)
              else Consume(old(app.captchaStore.entries), body.value.captchaId, body.value.captcha, now).1
    ensures calls != [] ==> body.Some? && LookupAgrees(app.db.rows, Trim(body.value.account), fault, lookup)
    ensures var o := LoginOutcome(body, body.Some? && Consume(old(app.captchaStore.entries), body.value.captchaId, body.value.captcha, now).0,
                                  lookup, verifyPassword, issued);
            res.status == o.status && res.bodies == o.bodies && calls == o.calls
  {
    lookup := Success(None);
    if body.None? {
      RenderError(res, BadRequest, MsgBadJson);
      return [], lookup;
    }
    var b := body.value;

    var captchaOk := app.captchaStore.VerifyAndConsume(b.captchaId, b.captcha, now);
    if !captchaOk {
      RenderError(res, BadRequest, MsgBadCaptcha);
      return [], lookup;
    }

    var account := Trim(b.account);
    if account == [] || b.password == [] {
      RenderError(res, BadRequest, MsgEmptyCredentials);
      return [], lookup;
    }

    calls := [FindUserByAccount(account)];
    lookup := app.db.FindUserByAccount(account, fault);
    if lookup.Failure? {
      RenderError(res, InternalServerError, MsgQueryFailed);
      return;
    }
    if lookup.value.None? {
      RenderError(res, BadRequest, MsgBadCredentials);
      return;
    }
    var u := lookup.value.value;

    calls := calls + [VerifyPassword(u.id)];
    var check := verifyPassword(b.password, u.passwordHash);
    if check == MalformedHash {
      RenderError(res, InternalServerError, MsgVerifyFailed);
      return;
    }
    if check == Mismatch {
      RenderError(res, BadRequest, MsgBadCredentials);
      return;
    }

    calls := calls + [IssueJwt(u.id)];
    if issued.None? {
      RenderError(res, InternalServerError, MsgTokenFailed);
      return;
    }
    res.Render(TokenBody(issued.value));
  }

  /** The outcome of `me`, given the header, the token verifier, the users table and the injected storage fault. */
  function MeOutcome(authorization: Option<string>, secret: string, verifyJwt: (string, string) -> Option<int>,
                     rows: map<int, UserRow>, fault: Option<DbError>): Outcome
  {
    match ParseBearerToken(authorization)
    case None => Outcome(Unauthorized, [ErrorBody(MsgMissingToken)], [])
    case Some(token) =>
      match verifyJwt(secret, token)
      case None => Outcome(Unauthorized, [ErrorBody(MsgInvalidToken)], [VerifyJwt(token)])
      case Some(sub) =>
        var calls := [VerifyJwt(token), FindUserById(sub)];
        if fault.Some? then Outcome(InternalServerError, [ErrorBody(MsgQueryFailed)], calls)
        else if sub !in rows then Outcome(Unauthorized, [ErrorBody(MsgNoSuchUser)], calls)
        else Outcome(Ok, [MeBody(rows[sub].id, rows[sub].username, rows[sub].email)], calls)
  }

  /** `me`: parse the bearer token, verify it, look the subject up, render its public fields. */
  method Me(app: AppState, res: Response, authorization: Option<string>,
            verifyJwt: (string, string) -> Option<int>, fault: Option<DbError>)
    returns (calls: seq<Call>)
    requires res.status == Ok && res.bodies == []
    modifies res
    ensures var o := MeOutcome(authorization, app.jwtSecret, verifyJwt, app.db.rows, fault);
            res.status == o.status && res.bodies == o.bodies && calls == o.calls
  {
    var parsed := ParseBearerToken(authorization);
    if parsed.None? {
      RenderError(res, Unauthorized, MsgMissingToken);
      return [];
    }
    var token := parsed.value;

    calls := [VerifyJwt(token)];
    var claims := verifyJwt(app.jwtSecret, token);
    if claims.None? {
      RenderError(res, Unauthorized, MsgInvalidToken);
      return;
    }
    var sub := claims.value;

    calls := calls + [FindUserById(sub)];
    var found := app.db.FindUserById(sub, fault);
    if found.Failure? {
      RenderError(res, InternalServerError, MsgQueryFailed);
      return;
    }
    if found.value.None? {
      RenderError(res, Unauthorized, MsgNoSuchUser);
      return;
    }
    var u := found.value.value;
    res.Render(MeBody(u.id, u.username, u.email));
  }
}
