# Login and captcha core of Personal-page, in Dafny

This project models the authentication core of a small personal site. The site has a Rust (salvo) backend and a Vue front end. The model covers the following.

- **The captcha store.** It maps a captcha id to an answer and an expiry instant. Its operations are insert, verify-and-consume and the sweep of expired entries (`State`).
- **The captcha endpoints.** One issues a 24-character id whose answer lives for 120 seconds. The other verifies and consumes a submission (`CaptchaHandlers`).
- **The authentication handlers.**
  - `register`: captcha, validation, password hashing, insert, token.
  - `login`: captcha, account lookup by username or email, password check, token.
  - `me`: bearer token, token verification, lookup by id.
  - The parser of the `Authorization` header.

  These live in `AuthHandlers`. The properties of the handlers' outcomes are in `AuthProperties`.
- **The users table the handlers use** (`UserService`). It holds auto-increment ids and unique usernames and emails.
- **The response the handlers write** (`Web`). It has a status, 200 until one is set, and the rendered JSON documents. Rendering twice appends a second document.
- **The configuration loader** `Settings::from_env` (`Config`). The environment is a map.
- **The front end:**
  - the Pinia authentication store with its two browser storages (`Stores`);
  - the global route guard (`Router`);
  - the HTTP client's interceptors (`Api`). One attaches the bearer token. The other classifies failed responses, and a 401 logs out.

Shared pieces are in `Text` and `Wrappers`:
- `str::trim` over ASCII whitespace;
- ASCII case folding and `eq_ignore_ascii_case`;
- decimal numerals;
- `Option` and `Result`.

### How each piece is modelled

The captcha store, the users table, the response, the browser storages, the front-end store and the request configuration are classes. Their methods update fields in place. Each method is proved against a pure function of the old state. For example, `CaptchaStore.VerifyAndConsume` is proved against `Consume`, and `AuthStore.SetToken` against `StoredLocal` and `StoredSession`. The properties the source promises are then proved about those functions.

Each handler is a method over the shared state and a fresh response. It is proved equal to a pure outcome function (`RegisterOutcome`, `LoginOutcome`, `MeOutcome`), which gives the final status, the documents rendered and the external calls made in order.

The following are inputs to the model rather than computed by it:
- the current time, in whole seconds;
- the random draws of the captcha id;
- the captcha's answer and its PNG encoding;
- the results of password hashing and token issuance;
- the password and token verifiers, passed as functions;
- database faults other than a unique-key violation.

### Behaviour of the code that departs from its stated validation policy

- **Username length.** The error message at backend/src/handlers/auth.rs:93 states the policy: a username of 3 to 32 characters. The check at lines 92-94 accepts 3 to 32 inclusive, but it does not return after rendering the error. Registration therefore carries on with a short or long username. When the email and password checks at lines 95-102 pass, the password is hashed, the user is inserted and a token is issued. The response then has status 400 and holds two documents. The model follows the code.
- **Hash failure status.** A hashing failure is reported as 400 (backend/src/handlers/auth.rs:108), not as a server error.
- **State fields.** `AppState` in backend/src/state.rs:65-69 has no token secret or lifetime. The handlers and the bootstrap code use them, so the modelled `AppState` carries them.

## Model

| member | source | states |
|---|---|---|
| Text.TrimSlice | backend/src/handlers/auth.rs:274 | `trim` yields a slice of the input that neither starts nor ends with whitespace, with only whitespace cut off on either side |
| Text.TrimStartSuffix | backend/src/handlers/auth.rs:274 | trimming the start keeps a suffix of the input and removes only whitespace |
| Text.TrimEndPrefix | backend/src/handlers/auth.rs:274 | trimming the end keeps a prefix of the input and removes only whitespace |
| Text.TrimOfTrimmed | backend/src/handlers/auth.rs:285 | a string with no surrounding whitespace is its own trim |
| Text.TrimIdempotent | backend/src/handlers/auth.rs:285 | trimming twice equals trimming once |
| Text.PaddedTrim | backend/src/state.rs:45 | any whitespace padded around an already trimmed string is removed exactly |
| Text.TrimSkipsLeading | backend/src/state.rs:45 | leading whitespace does not change the trim |
| Text.TrimEndPadding | backend/src/state.rs:45 | appended whitespace never changes the trim of the end, and after a non-whitespace character it is exactly what that trim drops |
| Text.TrimLowerCommute | backend/src/config/settings.rs:33-34 | lower-casing then trimming equals trimming then lower-casing |
| Text.EqIgnoreCaseLowerTarget | backend/src/handlers/auth.rs:280 | against a lower-case target, case-insensitive equality is equality after lower-casing |
| Text.Decimal | frontend/src/api/request.ts:53 | the numeral printed for a natural is non-empty, all digits, and reads back as that natural |
| State.Consume | backend/src/state.rs:28-55 | verify-and-consume answers true only for a present id, which it removes; otherwise the map is unchanged or loses exactly that id |
| State.Retained | backend/src/state.rs:57-60 | the sweep keeps exactly the entries not yet expired, with their values unchanged |
| State.CaptchaStore.constructor | backend/src/state.rs:15-18 | `CaptchaStore::default()` starts with no entries |
| State.CaptchaStore.Insert | backend/src/state.rs:21-23 | insert stores the entry under the id, replacing an earlier one, and changes no other id |
| State.CaptchaStore.VerifyAndConsume | backend/src/state.rs:28-55 | the answer and the new map are those `Consume` gives for the old map |
| State.CaptchaStore.CleanupExpired | backend/src/state.rs:57-60 | the new map is `Retained` of the old map at `now` |
| State.ConsumeAbsent | backend/src/state.rs:32-34 | an unknown id gives false and changes nothing |
| State.ConsumeExpired | backend/src/state.rs:37-42 | an expired entry gives false even for the right answer, and that entry is removed |
| State.ConsumeLive | backend/src/state.rs:45-54 | a live entry is removed with true on a match, and kept with false on a mismatch |
| State.ConsumeResult | backend/src/state.rs:28-55 | the answer is true exactly when the id is present, not expired, and the trimmed input equals the answer up to ASCII case |
| State.ConsumeAtExpiryInstant | backend/src/state.rs:37-45 | an entry is still accepted at its own expiry instant, by any submission equal to its answer up to ASCII case and padded with whitespace |
| State.RetainedIdempotent | backend/src/state.rs:59 | sweeping twice at the same instant equals sweeping once |
| State.RetainedMonotone | backend/src/state.rs:59 | an earlier sweep followed by a later one equals the later sweep alone |
| State.SweptEntriesAreLive | backend/src/state.rs:37-59 | an entry the sweep keeps is judged only on its answer by verify-and-consume at that instant |
| State.AbsentStaysAbsent | backend/src/state.rs:21-60 | once an id is absent, no sequence of operations that does not re-insert it accepts it |
| State.AtMostOnce | backend/src/state.rs:49-52 | without a re-insert, at most one verification of an id returns true, over any sequence of inserts, verifications and sweeps |
| State.ConsumedThenRejected | backend/src/state.rs:49-52 | after a successful verification, every later verification of that id fails until it is re-inserted |
| State.AppState.constructor | backend/src/state.rs:63-69 | the shared state holds the users table, the captcha store, the debug flag and the token secret and lifetime |
| UserService.CreateOutcome | backend/src/services/user_service.rs:19-38 | an insert returns the next id only when neither the username nor the email is taken; without an injected fault, a failure is the unique-key violation |
| UserService.UserTable.constructor | backend/src/services/user_service.rs:8-14 | a fresh table of `UserRow`s has no rows, its first auto-increment id is 1, and it satisfies the uniqueness invariant |
| UserService.UserTable.CreateUser | backend/src/services/user_service.rs:19-38 | a successful insert adds the row under the old next id and advances it; a failure writes nothing; ids, usernames and emails stay unique |
| UserService.UserTable.FindUserByAccount | backend/src/services/user_service.rs:41-59 | the result is the fault, or some row whose username or email equals the account, or none exactly when no row matches |
| UserService.UserTable.FindUserById | backend/src/services/user_service.rs:63-75 | the result is the fault, or the row with that id, or none when there is no such row |
| Web.Response.SetStatus | backend/src/handlers/auth.rs:25 | `status_code` overwrites the status and keeps the documents rendered so far |
| Web.Response.Render | backend/src/handlers/auth.rs:143 | rendering appends a document and keeps the status |
| AuthHandlers.RenderError | backend/src/handlers/auth.rs:24-27 | sets the status and appends the `message` document |
| AuthHandlers.ParseBearerToken | backend/src/handlers/auth.rs:272-291 | a token is found only in a header of visible ASCII, and it is never empty |
| AuthHandlers.ParseBearerTokenCases | backend/src/handlers/auth.rs:272-291 | the trimmed header under 7 characters, or not starting with "bearer" in any case, gives none; otherwise the result is the trimmed rest, if non-empty |
| AuthHandlers.ParseBearerAnyCase | backend/src/handlers/auth.rs:276-290 | the scheme in any case, then any run of spaces or tabs (including none), then a trimmed non-empty token, yields exactly that token |
| AuthHandlers.ParsedHeaderShape | backend/src/handlers/auth.rs:271-290 | every header the parser accepts is, once trimmed, "bearer" in some case, then a run of whitespace, then exactly the token returned, which is non-empty and has no whitespace at either end |
| AuthHandlers.Register | backend/src/handlers/auth.rs:68-144 | the status, the documents and the calls are `RegisterOutcome` of the inputs; the captcha is consumed as `Consume` says; a row is inserted only after the captcha passes, as `AdmittedInsert` says |
| AuthHandlers.RegisterAdmitted | backend/src/handlers/auth.rs:89-143 | the rest of `register` after the captcha matches `AdmittedOutcome` and inserts as `AdmittedInsert` says |
| AuthHandlers.InsertAndIssue | backend/src/handlers/auth.rs:113-143 | a duplicate key is a 409 and another storage error a 500, with nothing written; a token failure after the insert is a 500; success appends the token under the status already set |
| AuthHandlers.Login | backend/src/handlers/auth.rs:153-219 | the status, the documents and the calls are `LoginOutcome` of the inputs, with a lookup result the table allows; the captcha is consumed as `Consume` says |
| AuthHandlers.Me | backend/src/handlers/auth.rs:226-269 | the status, the documents and the calls are `MeOutcome` of the header, the verifier and the table |
| AuthProperties.RegisterEarlyRejections | backend/src/handlers/auth.rs:72-87 | a malformed body or a failed captcha is a 400 with one message and no external call |
| AuthProperties.InvalidFieldsDoNoWork | backend/src/handlers/auth.rs:95-102 | an email without `@` or a password under 6 characters is a 400 with no hashing and no insert |
| AuthProperties.HashFailureIsBadRequest | backend/src/handlers/auth.rs:104-111 | a hashing failure is a 400 after the hasher alone, with no insert |
| AuthProperties.ShortUsernameStillRegisters | backend/src/handlers/auth.rs:92-143 | a username outside 3..32 still gets inserted and a token rendered, after the length error, under status 400 |
| AuthProperties.RegisterSucceedsIff | backend/src/handlers/auth.rs:89-143 | status 200 exactly when every check passes, the username and email are free, there is no fault and a token is issued; the body is then the token alone and the inserted row holds the trimmed fields and the hash |
| AuthProperties.StorageFailureStatus | backend/src/handlers/auth.rs:114-131 | a failed insert is a 409 for the unique-key code and a 500 otherwise, writing nothing; without a fault, a taken name or email is a 409 |
| AuthProperties.TokenFailureKeepsRow | backend/src/handlers/auth.rs:133-140 | a token failure after a successful insert is a 500 and the row stays |
| AuthProperties.SameEmailTwice | backend/src/handlers/auth.rs:114-131 | registering again with an email just registered is a 409 and inserts nothing |
| AuthProperties.LoginEarlyRejections | backend/src/handlers/auth.rs:158-173 | a malformed body or a failed captcha is a 400 with one message and no call, whatever the fields hold |
| AuthProperties.UnknownAccountLikeWrongPassword | backend/src/handlers/auth.rs:190-207 | an unknown account and a wrong password give the same status and the same message |
| AuthProperties.LoginSucceedsIff | backend/src/handlers/auth.rs:153-219 | status 200 exactly when the captcha passes, the fields are non-empty, the account is found, the password matches and a token is issued; the body is the token alone |
| AuthProperties.LoginFailureStatus | backend/src/handlers/auth.rs:175-203 | empty fields are a 400 before any call; a failed lookup and an unparsable stored hash are 500s |
| AuthProperties.MeStatuses | backend/src/handlers/auth.rs:232-261 | 401 exactly when there is no bearer token, the token does not verify, or the subject has no row; 500 exactly when the lookup fails |
| AuthProperties.MeSuccessBody | backend/src/handlers/auth.rs:263-268 | success renders only the subject's id, username and email, never the hash; every failure renders one error document |
| CaptchaHandlers.AlphabetChar | backend/src/handlers/captcha.rs:26-30 | every character drawn is an ASCII letter or digit |
| CaptchaHandlers.CaptchaId | backend/src/handlers/captcha.rs:26-30 | the id has 24 characters, all ASCII letters or digits |
| CaptchaHandlers.GetCaptcha | backend/src/handlers/captcha.rs:21-60 | the answer is stored under the new id with expiry `now + 120`; the response holds the id, the image as a PNG data URL and a lifetime of 120, and no answer |
| CaptchaHandlers.VerifyCaptcha | backend/src/handlers/captcha.rs:75-90 | a malformed body gives false and leaves the store alone; otherwise the answer and the store are those `Consume` gives |
| CaptchaHandlers.IssuedThenVerified | backend/src/handlers/captcha.rs:39-44 | a freshly issued captcha is accepted and removed on a match until its expiry, and removed but refused after it |
| CaptchaHandlers.AcceptedOnceScenario | backend/src/handlers/captcha.rs:85-87 | "AB3D9" submitted as " ab3d9 " is accepted once and refused the second time |
| CaptchaHandlers.ExpiredScenario | backend/src/handlers/captcha.rs:39-42 | the same submission 200 seconds after issue is refused |
| Config.ParseU16 | backend/src/config/settings.rs:24-26 | a parsed port is within 0..65535, and the empty string does not parse |
| Config.ParseI64 | backend/src/config/settings.rs:40-42 | a parsed lifetime is within the 64-bit signed range, and the empty string does not parse |
| Config.FromEnv | backend/src/config/settings.rs:19-52 | success needs `DATABASE_URL` and `JWT_SECRET` and yields an in-range port and lifetime |
| Config.ParseU16Decimal | backend/src/config/settings.rs:24-26 | every port printed in decimal, with or without `+`, parses back to itself |
| Config.ParseU16Rejects | backend/src/config/settings.rs:24-26 | every numeral above 65535, a lone `+` or `-`, and every `-` followed by a numeral (`-0` included) is refused |
| Config.ParseI64Decimal | backend/src/config/settings.rs:40-42 | every 64-bit value printed in decimal parses back to itself |
| Config.ParseI64Rejects | backend/src/config/settings.rs:40-42 | one past either end of the 64-bit range, and a lone `-`, are refused |
| Config.DefaultPortParses | backend/src/config/settings.rs:25 | the default port text reads as 3000 |
| Config.DefaultExpireParses | backend/src/config/settings.rs:41 | the default lifetime text reads as 604800 |
| Config.DefaultDebugOff | backend/src/config/settings.rs:32 | the default debug text does not switch the debug captcha on |
| Config.FromEnvDefaults | backend/src/config/settings.rs:23-51 | with only the URL and the secret set, the host, port, debug flag and lifetime take their defaults |
| Config.FromEnvErrors | backend/src/config/settings.rs:24-42 | each failure happens exactly when its variable is bad and every earlier one is fine, in the order port, URL, secret, lifetime |
| Config.FromEnvFields | backend/src/config/settings.rs:23-51 | on success each field is the variable's value or its default after parsing, and the debug flag is set exactly when the trimmed value is "true" in any case |
| Config.DebugFlagIgnoresCase | backend/src/config/settings.rs:31-35 | lower-casing, trimming and comparing with "true" is a case-insensitive comparison of the trimmed value |
| Stores.StartDecision | frontend/src/stores/auth.ts:84-91 | an empty token is decided false and a verified token true, without a request; a request starts only when none is in flight |
| Stores.RememberedTokenReloaded | frontend/src/stores/auth.ts:62-63 | a remembered token is what the next page load reads back |
| Stores.NonRememberedTokenNotReloaded | frontend/src/stores/auth.ts:64-65 | a token stored without "remember me" is never read back; it sits in sessionStorage under `LS_KEY` |
| Stores.NonRememberedTokenReloadedIntended | frontend/src/stores/auth.ts:64-65 | written under `SS_KEY`, a non-remembered token would be read back |
| Stores.LogoutClearsStorage | frontend/src/stores/auth.ts:77-78 | after logout nothing is reloaded and a second logout changes nothing; the copy under `LS_KEY` in sessionStorage survives |
| Stores.AuthStore.constructor | frontend/src/stores/auth.ts:15-36 | the token read through `getItem` is `LoadToken` of the two storages (the non-empty localStorage `LS_KEY` value, else the non-empty sessionStorage `SS_KEY` value, else ""); no user, nothing verified, nothing in flight |
| Stores.AuthStore.SetToken | frontend/src/stores/auth.ts:50-67 | the new token is unverified with no user; both keys are cleared and the token is written as `StoredLocal` and `StoredSession` say |
| Stores.AuthStore.Logout | frontend/src/stores/auth.ts:71-79 | token, user, verification and request in flight are all reset and both keys are cleared |
| Stores.AuthStore.StartVerify | frontend/src/stores/auth.ts:84-93 | the decision is `StartDecision` of the old state, and only a started request marks one in flight |
| Stores.AuthStore.CompleteVerify | frontend/src/stores/auth.ts:93-107 | a user from `/me` is recorded as verified and true is returned; a failure logs out and returns false; nothing is in flight afterwards |
| Stores.VerifyThenAskAgain | frontend/src/stores/auth.ts:86-98 | after a successful verification, asking again is answered true without a request |
| Stores.ReloadAfterLogin | frontend/src/stores/auth.ts:50-67 | after `setToken`, the store is logged in exactly when the token is non-empty; a reload keeps a remembered token, but a non-remembered one is lost and the reloaded store is logged out |
| Stores.ReloadAfterLogout | frontend/src/stores/auth.ts:71-79 | after `logout` the store is logged out, and so is the store a reload builds |
| Router.Guard | frontend/src/router/index.ts:41-57 | the token is sent for confirmation exactly for a protected page with a token present |
| Router.BeforeEach | frontend/src/router/index.ts:41-64 | every redirect goes to `/login` or `/dashboard` |
| Router.WhiteListPages | frontend/src/router/index.ts:15 | the whitelist is exactly `/login`, `/register` and `/forget` |
| Router.BeforeEachCases | frontend/src/router/index.ts:45-63 | a whitelisted page goes to `/dashboard` with a token and is allowed without one; a protected page goes to `/login` without a token; with a token it is allowed exactly when confirmed |
| Router.ConfirmationOnlyWhenNeeded | frontend/src/router/index.ts:45-57 | the confirmation decides the outcome for a protected page with a token, and cannot matter anywhere else |
| Router.ProtectedNeedsConfirmedToken | frontend/src/router/index.ts:51-63 | a protected page is allowed only with a confirmed token |
| Router.RedirectSettles | frontend/src/router/index.ts:45-63 | without a token a redirect lands on an allowed page; with one, the dashboard is then allowed exactly when confirmed, and the login page after a refusal is allowed once the store has dropped the token |
| Router.RefusedThenLogin | frontend/src/router/index.ts:56-59 | a refused token on a protected page logs the store out and redirects to the login page, which the next navigation, reading the emptied token, allows |
| Api.BearerHeader | frontend/src/api/request.ts:20-22 | a header is attached exactly when the token is non-empty, and it is `Bearer ` followed by the token |
| Api.AttachAuthorization | frontend/src/api/request.ts:18-25 | with a token, the headers (created when absent) gain `Authorization: Bearer <token>`; without one the configuration is unchanged |
| Api.BearerRoundTrip | frontend/src/api/request.ts:22 | the backend's parser reads back exactly the token the client attached |
| Api.FallbackText | frontend/src/api/request.ts:53 | the catch-all text is the fixed prefix, the status in decimal, and `)` |
| Api.Classify | frontend/src/api/request.ts:32-54 | no response is an error notice with the network text; a status is an error exactly when it is 500 or above |
| Api.ClassifyText | frontend/src/api/request.ts:39-54 | the text is the backend message when non-empty, and otherwise the default for 401, 400, 409 and 5xx, or the catch-all with the status |
| Api.OnResponseError | frontend/src/api/request.ts:31-57 | a 401, and nothing else, logs out; the notice is `Classify` of the error; the error is always rejected unchanged |

## Left out

- Concurrency. The captcha store is a concurrent map, and `verify_and_consume` reads and then removes without holding the entry. Two simultaneous verifications of one id can both succeed. The model runs operations one at a time, so `AtMostOnce` holds only for sequential use. The same goes for the front-end store. A `/me` answer arriving after `logout` or `setToken` is applied as if nothing had changed in between.
- Time. It is whole seconds passed in as `now`. The chrono clock and sub-second instants are not modelled.
- Unicode. Strings are sequences of ASCII characters:
  - `trim` uses ASCII whitespace;
  - `to_lowercase` folds ASCII letters only;
  - byte lengths equal character counts;
  - `raw[..6]` in the header parser cannot panic: `to_str` admits only visible ASCII and tab, which `AllVisibleAscii` models, so byte 6 is always a character boundary.
- Hashing and tokens. Password hashing, password verification, JWT issuance and JWT verification are not modelled. Their results are inputs, and `utils/auth.rs` is not part of this model. Token expiry arithmetic is therefore not modelled.
- The SQL itself. The table is a map with unique usernames and emails, as the schema's unique indexes demand.
  - Case-insensitive collation is not modelled: two emails differing only in case are distinct here.
  - `last_insert_id` is the table's next id.
  - Any database error besides the unique-key violation is an injected fault.
- The captcha image. Its rendering, the random answer, the PNG encoding and base64 are inputs. The `expect` on image encoding (a panic) is not modelled.
- CreateOutcome, StorageFailureStatus, SameEmailTwice: these assume that a unique-index violation reaches backend/src/handlers/auth.rs:122 with `code()` equal to "1062", MySQL's error number. If the driver reports the SQLSTATE ("23000") through `code()` instead, the 409 branch is never taken and a duplicate registration is a 500. The driver is not part of this model, so the model cannot settle which.
- UnknownAccountLikeWrongPassword: it covers the status and the body only. The calls differ, because the password verifier runs only for an existing account, so response timing can still reveal whether an account exists. Timing is not modelled.
- Bootstrap and framework glue: JSON parsing (only its success or failure is modelled), `.env` loading, the connection pool, routing, the health check and the one-line API calls of the front end.
- Configuration: a variable set to a value that is not valid Unicode counts as missing in the source; here every value is a string.
- The front end's success interceptor returns each response unchanged; nothing is modelled for it.
- The toasts that `message.warning` and `message.error` show are not modelled. Only which kind of notice and which text are chosen is modelled.
- `verifyingPromise` is reduced to whether a confirmation is in flight. A caller that joins it receives the result of the `CompleteVerify` that ends it.
- `user` in the front-end store is the `/me` document's three fields, not an arbitrary record.

## Findings

| source | as written | input that shows it | evidently intended | confidence | as-written member | corrected member |
|---|---|---|---|---|---|---|
| frontend/src/stores/auth.ts:65 | without "remember me" the token is written to sessionStorage under `LS_KEY`, but `loadToken` (line 16) reads sessionStorage under `SS_KEY`, and `logout` (line 78) clears only `SS_KEY` | `setToken("abc", false)`, then a page reload: `loadToken()` returns "" and the user is logged out; after `logout`, "abc" is still in sessionStorage | write the non-remembered token under `SS_KEY`, so that it is reloaded for the rest of the browser session and cleared on logout | high (not executed) | Stores.NonRememberedTokenNotReloaded | Stores.NonRememberedTokenReloadedIntended |
