/**
 * `Settings::from_env`: the server configuration read from the process
 * environment, given here as a map from variable names to values.
 */
module Config {
  import opened Wrappers
  import opened Text

  datatype Settings = Settings(
    serverHost: string,
    serverPort: int,
    databaseUrl: string,
    debugCaptcha: bool,
    jwtSecret: string,
    jwtExpireSeconds: int)

  /** Why configuration failed, in the order the variables are read. */
  datatype ConfigError = InvalidPort | MissingDatabaseUrl | MissingJwtSecret | InvalidJwtExpire

  const DefaultHost: string := "127.0.0.1"
  const DefaultPort: string := "3000"
  const DefaultDebugCaptcha: string := "false"
  const DefaultJwtExpire: string := "604800"

  const U16Max: int := 0xFFFF
  const I64Min: int := -0x8000_0000_0000_0000
  const I64Max: int := 0x7FFF_FFFF_FFFF_FFFF

  // Rust's integer parsing: an optional sign, then at least one ASCII digit, nothing else

  /** The digits after an optional leading sign character. */
  function AfterSign(s: string, signs: set<char>): (d: string)
    ensures |d| <= |s|
  {
    if |s| > 0 && s[0] in signs then s[1..] else s
  }

  /** `str::parse::<u16>`: optional `+`, digits, value at most 65535. */
  function ParseU16(s: string): (r: Option<int>)
    ensures r.Some? ==> 0 <= r.value <= U16Max
    ensures s == [] ==> r.None?
  {
    var d := AfterSign(s, {'+'});
    if d != [] && AllDigits(d) && DigitsValue(d) <= U16Max then Some(DigitsValue(d)) else None
  }

  /** `str::parse::<i64>`: optional `+` or `-`, digits, value within the 64-bit two's complement range. */
  function ParseI64(s: string): (r: Option<int>)
    ensures r.Some? ==> I64Min <= r.value <= I64Max
    ensures s == [] ==> r.None?
  {
    var d := AfterSign(s, {'+', '-'});
    if d == [] || !AllDigits(d) then None
    else
      var n: int := DigitsValue(d);
      var v := if s[0] == '-' then -n else n;
      if I64Min <= v <= I64Max then Some(v) else None
  }

  /** `env::var(key).unwrap_or_else(|_| default)`. */
  function VarOr(env: map<string, string>, key: string, default: string): string {
    if key in env then env[key] else default
  }

  /** The `DEBUG_CAPTCHA` value after lower-casing and trimming equals "true". */
  predicate DebugFlag(v: string) {
    Trim(LowerAscii(v)) == "true"
  }

  function FromEnv(env: map<string, string>): (r: Result<Settings, ConfigError>)
    ensures r.Success? ==> "DATABASE_URL" in env && "JWT_SECRET" in env
    ensures r.Success? ==> 0 <= r.value.serverPort <= U16Max
    ensures r.Success? ==> I64Min <= r.value.jwtExpireSeconds <= I64Max
  {
    var serverHost := VarOr(env, "SERVER_HOST", DefaultHost);
    var serverPort := ParseU16(VarOr(env, "SERVER_PORT", DefaultPort));
    if serverPort.None? then Failure(InvalidPort)
    else if "DATABASE_URL" !in env then Failure(MissingDatabaseUrl)
    else
      var debugCaptcha := DebugFlag(VarOr(env, "DEBUG_CAPTCHA", DefaultDebugCaptcha));
      if "JWT_SECRET" !in env then Failure(MissingJwtSecret)
      else
        var expire := ParseI64(VarOr(env, "JWT_EXPIRE_SECONDS", DefaultJwtExpire));
        if expire.None? then Failure(InvalidJwtExpire)
        else Success(Settings(serverHost, serverPort.value, env["DATABASE_URL"], debugCaptcha,
                              env["JWT_SECRET"], expire.value))
  }

  // Parsing against printing

  /** Every port number printed in decimal, with or without `+`, parses back to itself. */
  lemma ParseU16Decimal(n: nat)
    requires n <= U16Max
    ensures ParseU16(Decimal(n)) == Some(n)
    ensures ParseU16("+" + Decimal(n)) == Some(n)
  {
    assert ("+" + Decimal(n))[1..] == Decimal(n);
  }

  /**
   * A decimal numeral above 65535 is refused, as are a lone sign and every
   * `-`-prefixed numeral, `-0` included.
   */
  lemma ParseU16Rejects(n: nat, m: nat)
    requires n > U16Max
    ensures ParseU16(Decimal(n)).None?
    ensures ParseU16("+").None? && ParseU16("-").None?
    ensures ParseU16("-" + Decimal(m)).None?
  {
  }

  /** Every 64-bit integer printed in decimal, with `-` when negative, parses back to itself. */
  lemma ParseI64Decimal(n: int)
    requires I64Min <= n <= I64Max
    ensures n >= 0 ==> ParseI64(Decimal(n)) == Some(n)
    ensures n < 0 ==> ParseI64("-" + Decimal(-n)) == Some(n)
  {
    if n < 0 {
      assert ("-" + Decimal(-n))[1..] == Decimal(-n);
    }
  }

  /** Just past either end of the 64-bit range is refused. */
  lemma ParseI64Rejects()
    ensures ParseI64(Decimal(I64Max + 1)).None?
    ensures ParseI64("-" + Decimal(-(I64Min - 1))).None?
    ensures ParseI64("-").None?
  {
    assert ("-" + Decimal(-(I64Min - 1)))[1..] == Decimal(-(I64Min - 1));
  }

  // The configuration read from the environment

  lemma DefaultPortParses()
    ensures ParseU16(DefaultPort) == Some(3000)
  {
    assert DigitsValue("3") == 3;
    assert DigitsValue("30") == 30 by { assert "30"[..1] == "3"; }
    assert DigitsValue("300") == 300 by { assert "300"[..2] == "30"; }
    assert DigitsValue("3000") == 3000 by { assert "3000"[..3] == "300"; }
  }

  lemma DefaultExpireParses()
    ensures ParseI64(DefaultJwtExpire) == Some(604800)
  {
    assert DigitsValue("6") == 6;
    assert DigitsValue("60") == 60 by { assert "60"[..1] == "6"; }
    assert DigitsValue("604") == 604 by { assert "604"[..2] == "60"; }
    assert DigitsValue("6048") == 6048 by { assert "6048"[..3] == "604"; }
    assert DigitsValue("60480") == 60480 by { assert "60480"[..4] == "6048"; }
    assert DigitsValue("604800") == 604800 by { assert "604800"[..5] == "60480"; }
  }

  lemma DefaultDebugOff()
    ensures !DebugFlag(DefaultDebugCaptcha)
  {
    assert LowerAscii(DefaultDebugCaptcha)[0] == 'f';
    TrimOfTrimmed(LowerAscii(DefaultDebugCaptcha));
  }

  /** With only the two required variables set, every other field takes its default. */
  lemma FromEnvDefaults(url: string, secret: string)
    ensures FromEnv(map["DATABASE_URL" := url, "JWT_SECRET" := secret])
         == Success(Settings("127.0.0.1", 3000, url, false, secret, 604800))
  {
    DefaultPortParses();
    DefaultExpireParses();
    DefaultDebugOff();
  }

  /** The failures come in reading order: the port, then `DATABASE_URL`, then `JWT_SECRET`, then the expiry. */
  lemma FromEnvErrors(env: map<string, string>)
    ensures ParseU16(VarOr(env, "SERVER_PORT", DefaultPort)).None? <==> FromEnv(env) == Failure(InvalidPort)
    ensures FromEnv(env) == Failure(MissingDatabaseUrl)
        <==> ParseU16(VarOr(env, "SERVER_PORT", DefaultPort)).Some? && "DATABASE_URL" !in env
    ensures FromEnv(env) == Failure(MissingJwtSecret)
        <==> ParseU16(VarOr(env, "SERVER_PORT", DefaultPort)).Some? && "DATABASE_URL" in env && "JWT_SECRET" !in env
    ensures FromEnv(env).Success?
        <==> ParseU16(VarOr(env, "SERVER_PORT", DefaultPort)).Some? && "DATABASE_URL" in env && "JWT_SECRET" in env
             && ParseI64(VarOr(env, "JWT_EXPIRE_SECONDS", DefaultJwtExpire)).Some?
  {
  }

  /** On success every field is the variable's value, or its default, after parsing. */
  lemma FromEnvFields(env: map<string, string>)
    requires FromEnv(env).Success?
    ensures var s := FromEnv(env).value;
            && s.serverHost == VarOr(env, "SERVER_HOST", DefaultHost)
            && Some(s.serverPort) == ParseU16(VarOr(env, "SERVER_PORT", DefaultPort))
            && s.databaseUrl == env["DATABASE_URL"]
            && s.jwtSecret == env["JWT_SECRET"]
            && Some(s.jwtExpireSeconds) == ParseI64(VarOr(env, "JWT_EXPIRE_SECONDS", DefaultJwtExpire))
            && (s.debugCaptcha <==> "DEBUG_CAPTCHA" in env && EqIgnoreAsciiCase(Trim(env["DEBUG_CAPTCHA"]), "true"))
  {
    var v := VarOr(env, "DEBUG_CAPTCHA", DefaultDebugCaptcha);
    DebugFlagIgnoresCase(v);
    assert !EqIgnoreAsciiCase(Trim(DefaultDebugCaptcha), "true") by {
      TrimOfTrimmed(DefaultDebugCaptcha);
      assert ToLowerAscii(DefaultDebugCaptcha[0]) != ToLowerAscii("true"[0]);
    }
  }

  /** The flag is set exactly when the trimmed value is "true" in any letter case. */
  lemma DebugFlagIgnoresCase(v: string)
    ensures DebugFlag(v) <==> EqIgnoreAsciiCase(Trim(v), "true")
  {
    TrimLowerCommute(v);
    EqIgnoreCaseLowerTarget(Trim(v), "true");
  }
}
