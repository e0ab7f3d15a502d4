/**
 * What the authentication handlers promise, stated over their outcome
 * functions: which failures come before any external call, which quirks of
 * the registration flow survive (the username-length check does not stop
 * it), how storage and token failures are reported, that login does not
 * reveal whether an account exists, and what `me` returns.
 */
module AuthProperties {
  import opened Wrappers
  import opened Text
  import opened Web
  import opened UserService
  import opened AuthHandlers

  // register

  /** A malformed body or a failed captcha is a 400 with a single message, before any external call. */
  lemma RegisterEarlyRejections(body: Option<RegisterReq>, captchaOk: bool, hashed: Option<string>,
                                rows: map<int, UserRow>, nextId: int, fault: Option<DbError>, issued: Option<string>)
    requires body.None? || !captchaOk
    ensures var o := RegisterOutcome(body, captchaOk, hashed, rows, nextId, fault, issued);
            && o.status == BadRequest && o.calls == []
            && o.bodies == [ErrorBody(if body.None? then MsgBadJson else MsgBadCaptcha)]
  {
  }

  /** An email without `@` or a password under six characters is a 400 with no hashing and no insert. */
  lemma InvalidFieldsDoNoWork(b: RegisterReq, hashed: Option<string>, rows: map<int, UserRow>, nextId: int,
                              fault: Option<DbError>, issued: Option<string>)
    requires !EmailShapeOk(b.email) || !PasswordLengthOk(b.password)
    ensures var o := AdmittedOutcome(b, hashed, rows, nextId, fault, issued);
            && o.status == BadRequest && o.calls == []
            && o.bodies[|o.bodies| - 1] == ErrorBody(if !EmailShapeOk(b.email) then MsgBadEmail else MsgShortPassword)
    ensures AdmittedInsert(b, hashed, rows, nextId, fault).None?
  {
  }

  /** A hashing failure is reported as a 400, after the hasher and before the table. */
  lemma HashFailureIsBadRequest(b: RegisterReq, rows: map<int, UserRow>, nextId: int,
                                fault: Option<DbError>, issued: Option<string>)
    requires EmailShapeOk(b.email) && PasswordLengthOk(b.password)
    ensures var o := AdmittedOutcome(b, None, rows, nextId, fault, issued);
            && o.status == BadRequest && o.calls == [HashPassword]
            && o.bodies == LengthWarning(b.username) + [ErrorBody(MsgHashFailed)]
    ensures AdmittedInsert(b, None, rows, nextId, fault).None?
  {
  }

  /**
   * The username-length check renders its 400 but does not return: with
   * valid email and password the user is still inserted and the token is
   * rendered after the error document, under status 400.
   */
  lemma ShortUsernameStillRegisters(b: RegisterReq, hash: string, rows: map<int, UserRow>, nextId: int, token: string)
    requires !UsernameLengthOk(b.username)
    requires EmailShapeOk(b.email) && PasswordLengthOk(b.password)
    requires !TakenIn(rows, Trim(b.username), Trim(b.email))
    ensures var o := AdmittedOutcome(b, Some(hash), rows, nextId, None, Some(token));
            && o.status == BadRequest
            && o.bodies == [ErrorBody(MsgUsernameLength), TokenBody(token)]
            && o.calls == [HashPassword, CreateUser(Trim(b.username), Trim(b.email)), IssueJwt(nextId)]
    ensures AdmittedInsert(b, Some(hash), rows, nextId, None) == Some(UserRow(nextId, Trim(b.username), Trim(b.email), hash))
  {
  }

  /**
   * Registration succeeds (status 200, a single token document) exactly when
   * every check passes, the insert succeeds and a token is issued; the row
   * inserted holds the trimmed username and email and the hash.
   */
  lemma RegisterSucceedsIff(b: RegisterReq, hashed: Option<string>, rows: map<int, UserRow>, nextId: int,
                            fault: Option<DbError>, issued: Option<string>)
    ensures var o := AdmittedOutcome(b, hashed, rows, nextId, fault, issued);
            o.status == Ok <==>
              && UsernameLengthOk(b.username) && EmailShapeOk(b.email) && PasswordLengthOk(b.password)
              && hashed.Some? && fault.None? && !TakenIn(rows, Trim(b.username), Trim(b.email)) && issued.Some?
    ensures var o := AdmittedOutcome(b, hashed, rows, nextId, fault, issued);
            o.status == Ok ==>
              && o.bodies == [TokenBody(issued.value)]
              && AdmittedInsert(b, hashed, rows, nextId, fault) == Some(UserRow(nextId, Trim(b.username), Trim(b.email), hashed.value))
  {
  }

  /**
   * A failed insert writes nothing: a unique-key violation is a 409 and any
   * other storage error a 500. With no injected fault, a taken username or
   * email is the violation.
   */
  lemma StorageFailureStatus(b: RegisterReq, hash: string, rows: map<int, UserRow>, nextId: int,
                             fault: Option<DbError>, issued: Option<string>)
    requires EmailShapeOk(b.email) && PasswordLengthOk(b.password)
    requires CreateOutcome(rows, nextId, Trim(b.username), Trim(b.email), fault).Failure?
    ensures var o := AdmittedOutcome(b, Some(hash), rows, nextId, fault, issued);
            o.status == (if IsDuplicateKey(CreateOutcome(rows, nextId, Trim(b.username), Trim(b.email), fault).error)
                         then Conflict else InternalServerError)
    ensures fault.None? ==> AdmittedOutcome(b, Some(hash), rows, nextId, fault, issued).status == Conflict
    ensures AdmittedInsert(b, Some(hash), rows, nextId, fault).None?
  {
  }

  /** A token failure after a successful insert is a 500, and the new row stays. */
  lemma TokenFailureKeepsRow(b: RegisterReq, hash: string, rows: map<int, UserRow>, nextId: int, fault: Option<DbError>)
    requires EmailShapeOk(b.email) && PasswordLengthOk(b.password)
    requires CreateOutcome(rows, nextId, Trim(b.username), Trim(b.email), fault).Success?
    ensures AdmittedOutcome(b, Some(hash), rows, nextId, fault, None).status == InternalServerError
    ensures AdmittedOutcome(b, Some(hash), rows, nextId, fault, None).calls[2] == IssueJwt(nextId)
    ensures AdmittedInsert(b, Some(hash), rows, nextId, fault).Some?
  {
  }

  /**
   * Registering a second account with the email of one just registered
   * (after trimming) is a 409 and inserts nothing.
   */
  lemma {:induction false} SameEmailTwice(b1: RegisterReq, b2: RegisterReq, h1: string, h2: string,
                                         rows: map<int, UserRow>, nextId: int, issued: Option<string>)
    requires AdmittedInsert(b1, Some(h1), rows, nextId, None).Some?
    requires EmailShapeOk(b2.email) && PasswordLengthOk(b2.password)
    requires Trim(b2.email) == Trim(b1.email)
    ensures var row := AdmittedInsert(b1, Some(h1), rows, nextId, None).value;
            var rows1 := rows[row.id := row];
            && AdmittedOutcome(b2, Some(h2), rows1, nextId + 1, None, issued).status == Conflict
            && AdmittedInsert(b2, Some(h2), rows1, nextId + 1, None).None?
  {
    var row := AdmittedInsert(b1, Some(h1), rows, nextId, None).value;
    var rows1 := rows[row.id := row];
    assert row.id == nextId && row.email == Trim(b2.email);
    assert rows1[nextId].email == Trim(b2.email);
    assert TakenIn(rows1, Trim(b2.username), Trim(b2.email));
  }

  // login

  /**
   * A malformed body or a failed captcha is a 400 with a single message,
   * whatever the fields hold: no validation, lookup or verification happens.
   */
  lemma LoginEarlyRejections(body: Option<LoginReq>, captchaOk: bool, lookup: Result<Option<UserRow>, DbError>,
                             verifyPassword: (string, string) -> PasswordCheck, issued: Option<string>)
    requires body.None? || !captchaOk
    ensures LoginOutcome(body, captchaOk, lookup, verifyPassword, issued)
         == Outcome(BadRequest, [ErrorBody(if body.None? then MsgBadJson else MsgBadCaptcha)], [])
  {
  }

  /**
   * An unknown account and a wrong password produce the same status and the
   * same message: the response does not reveal whether the account exists.
   */
  lemma UnknownAccountLikeWrongPassword(body: Option<LoginReq>, verifyPassword: (string, string) -> PasswordCheck,
                                        issued: Option<string>, u: UserRow)
    requires body.Some? && Trim(body.value.account) != [] && body.value.password != []
    requires verifyPassword(body.value.password, u.passwordHash) == Mismatch
    ensures var unknown := LoginOutcome(body, true, Success(None), verifyPassword, issued);
            var wrong := LoginOutcome(body, true, Success(Some(u)), verifyPassword, issued);
            unknown.status == wrong.status == BadRequest && unknown.bodies == wrong.bodies == [ErrorBody(MsgBadCredentials)]
  {
  }

  /**
   * Login succeeds (status 200, a single token document) exactly when the
   * captcha passes, both fields are non-empty, the account is found, the
   * password matches and a token is issued for that user.
   */
  lemma LoginSucceedsIff(body: Option<LoginReq>, captchaOk: bool, lookup: Result<Option<UserRow>, DbError>,
                         verifyPassword: (string, string) -> PasswordCheck, issued: Option<string>)
    ensures var o := LoginOutcome(body, captchaOk, lookup, verifyPassword, issued);
            o.status == Ok <==>
              && body.Some? && captchaOk && Trim(body.value.account) != [] && body.value.password != []
              && lookup.Success? && lookup.value.Some?
              && verifyPassword(body.value.password, lookup.value.value.passwordHash) == Match
              && issued.Some?
    ensures var o := LoginOutcome(body, captchaOk, lookup, verifyPassword, issued);
            o.status == Ok ==> o.bodies == [TokenBody(issued.value)] && o.calls[|o.calls| - 1] == IssueJwt(lookup.value.value.id)
  {
  }

  /**
   * The other login failures: empty fields are a 400 before any call; a failed
   * lookup and a stored hash that does not parse are 500s.
   */
  lemma LoginFailureStatus(b: LoginReq, lookup: Result<Option<UserRow>, DbError>,
                           verifyPassword: (string, string) -> PasswordCheck, issued: Option<string>)
    ensures Trim(b.account) == [] || b.password == [] ==>
              LoginOutcome(Some(b), true, lookup, verifyPassword, issued) == Outcome(BadRequest, [ErrorBody(MsgEmptyCredentials)], [])
    ensures Trim(b.account) != [] && b.password != [] && lookup.Failure? ==>
              LoginOutcome(Some(b), true, lookup, verifyPassword, issued).status == InternalServerError
    ensures Trim(b.account) != [] && b.password != [] && lookup.Success? && lookup.value.Some?
            && verifyPassword(b.password, lookup.value.value.passwordHash) == MalformedHash ==>
              LoginOutcome(Some(b), true, lookup, verifyPassword, issued) ==
                Outcome(InternalServerError, [ErrorBody(MsgVerifyFailed)],
                        [FindUserByAccount(Trim(b.account)), VerifyPassword(lookup.value.value.id)])
  {
  }

  // me

  /**
   * `me` is a 401 exactly when the header carries no bearer token, the token
   * does not verify, or (with the table reachable) its subject has no row;
   * it is a 500 exactly when the lookup fails.
   */
  lemma MeStatuses(authorization: Option<string>, secret: string, verifyJwt: (string, string) -> Option<int>,
                   rows: map<int, UserRow>, fault: Option<DbError>)
    ensures var o := MeOutcome(authorization, secret, verifyJwt, rows, fault);
            var p := ParseBearerToken(authorization);
            && (o.status == Unauthorized <==>
                  p.None? || verifyJwt(secret, p.value).None? || (fault.None? && verifyJwt(secret, p.value).value !in rows))
            && (o.status == InternalServerError <==> p.Some? && verifyJwt(secret, p.value).Some? && fault.Some?)
  {
  }

  /** A successful `me` renders exactly the subject's id, username and email, never the password hash. */
  lemma MeSuccessBody(authorization: Option<string>, secret: string, verifyJwt: (string, string) -> Option<int>,
                      rows: map<int, UserRow>, fault: Option<DbError>)
    ensures var o := MeOutcome(authorization, secret, verifyJwt, rows, fault);
            o.status == Ok ==>
              var sub := verifyJwt(secret, ParseBearerToken(authorization).value).value;
              sub in rows && o.bodies == [MeBody(rows[sub].id, rows[sub].username, rows[sub].email)]
    ensures var o := MeOutcome(authorization, secret, verifyJwt, rows, fault);
            o.status != Ok ==> |o.bodies| == 1 && o.bodies[0].ErrorBody?
  {
  }
}
