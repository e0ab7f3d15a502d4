/**
 * The captcha endpoints: issuing a captcha (a fresh 24-character id, an
 * entry expiring 120 seconds from now, a base64 PNG) and the standalone
 * verification endpoint. The random draws, the rendered answer and the
 * encoded image are inputs.
 */
module CaptchaHandlers {
  import opened Wrappers
  import opened Text
  import opened State

  /** Seconds a captcha stays valid, reported to the client as `expires_in`. */
  const CaptchaTtl: int := 120

  const IdLength: nat := 24

  /** Size of the alphabet `rand`'s `Alphanumeric` distribution samples from: A-Z, a-z, 0-9. */
  const AlphabetSize: int := 62

  /** The `k`-th character of that alphabet. */
  function AlphabetChar(k: int): (c: char)
    requires 0 <= k < AlphabetSize
    ensures IsAlphanumeric(c)
  {
    if k < 26 then (65 + k) as char
    else if k < 52 then (97 + k - 26) as char
    else (48 + k - 52) as char
  }

  const ImagePrefix: string := "data:image/png;base64,"

  predicate IsAlphanumeric(c: char) {
    ('A' <= c <= 'Z') || ('a' <= c <= 'z') || ('0' <= c <= '9')
  }

  /** The captcha id: the first 24 draws, each an index into the alphabet. */
  function CaptchaId(draws: seq<int>): (id: string)
    requires |draws| >= IdLength
    requires forall i :: 0 <= i < |draws| ==> 0 <= draws[i] < AlphabetSize
    ensures |id| == IdLength
    ensures forall i :: 0 <= i < |id| ==> IsAlphanumeric(id[i])
  {
    seq(IdLength, i requires 0 <= i < IdLength => AlphabetChar(draws[i]))
  }

  /** The issue response: id, image and lifetime. There is no answer field. */
  datatype CaptchaResp = CaptchaResp(captchaId: string, image: string, expiresIn: int)

  datatype VerifyReq = VerifyReq(captchaId: string, code: string)

  /**
   * `get_captcha`: stores the answer under a fresh id with expiry `now + 120`
   * and returns the id, the image as a data URL and the lifetime.
   */
  method GetCaptcha(app: AppState, draws: seq<int>, answer: string, pngBase64: string, now: int)
    returns (resp: CaptchaResp)
    requires |draws| >= IdLength
    requires forall i :: 0 <= i < |draws| ==> 0 <= draws[i] < AlphabetSize
    modifies app.captchaStore
    ensures resp.captchaId == CaptchaId(draws)
    ensures app.captchaStore.entries == old(app.captchaStore.entries)[resp.captchaId := CaptchaEntry(answer, now + CaptchaTtl)]
    ensures resp.expiresIn == CaptchaTtl
    ensures resp.image == ImagePrefix + pngBase64
  {
    var captchaId := CaptchaId(draws);
    var expiresIn := CaptchaTtl;
    var entry := CaptchaEntry(answer, now + expiresIn);
    app.captchaStore.Insert(captchaId, entry);
    var image := ImagePrefix + pngBase64;
    resp := CaptchaResp(captchaId, image, expiresIn);
  }

  /** `verify_captcha`: false without touching the store on a malformed body; otherwise verify-and-consume. */
  method VerifyCaptcha(app: AppState, body: Option<VerifyReq>, now: int) returns (ok: bool)
    modifies app.captchaStore
    ensures body.None? ==> !ok && app.captchaStore.entries == old(app.captchaStore.entries)
    ensures body.Some? ==> (ok, app.captchaStore.entries) == Consume(old(app.captchaStore.entries), body.value.captchaId, body.value.code, now)
  {
    if body.None? {
      return false;
    }
    ok := app.captchaStore.VerifyAndConsume(body.value.captchaId, body.value.code, now);
  }

  // Issue followed by verification

  /**
   * A freshly issued entry is accepted, and consumed, by any submission
   * matching its answer up to the expiry instant, and removed but refused
   * after it.
   */
  lemma IssuedThenVerified(m: map<string, CaptchaEntry>, id: string, answer: string, issuedAt: int, now: int, input: string)
    ensures var m1 := m[id := CaptchaEntry(answer, issuedAt + CaptchaTtl)];
            && (now <= issuedAt + CaptchaTtl ==>
                  Consume(m1, id, input, now) == (Matches(answer, input), if Matches(answer, input) then m - {id} else m1))
            && (now > issuedAt + CaptchaTtl ==> Consume(m1, id, input, now) == (false, m - {id}))
  {
    var m1 := m[id := CaptchaEntry(answer, issuedAt + CaptchaTtl)];
    assert m1 - {id} == m - {id};
  }

  /** "AB3D9" submitted right away as " ab3d9 " is accepted; the same submission again is refused. */
  lemma AcceptedOnceScenario(m: map<string, CaptchaEntry>, id: string, now: int)
    ensures var m1 := m[id := CaptchaEntry("AB3D9", now + CaptchaTtl)];
            var (ok1, m2) := Consume(m1, id, " ab3d9 ", now);
            ok1 && !Consume(m2, id, " ab3d9 ", now).0
  {
    var s := " ab3d9 ";
    assert s == [' '] + "ab3d9" + [' '];
    PaddedTrim([' '], "ab3d9", [' ']);
    assert EqIgnoreAsciiCase("AB3D9", "ab3d9");
  }

  /** "AB3D9" submitted as "ab3d9" 200 seconds after issue is refused: it has expired. */
  lemma ExpiredScenario(m: map<string, CaptchaEntry>, id: string, issuedAt: int)
    ensures Consume(m[id := CaptchaEntry("AB3D9", issuedAt + CaptchaTtl)], id, "ab3d9", issuedAt + 200).0 == false
  {
  }
}
