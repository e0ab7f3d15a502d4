/**
 * String helpers shared by the backend and the front end: ASCII whitespace
 * trimming (Rust `str::trim`, JavaScript `String.prototype.trim` restricted to
 * ASCII), ASCII case folding (`eq_ignore_ascii_case`, `to_lowercase` on ASCII)
 * and decimal rendering of naturals.
 */
module Text {

  /** ASCII whitespace: tab, line feed, vertical tab, form feed, carriage return and space. */
  predicate IsWhitespace(c: char) {
    c == ' ' || c == '\t' || c == '\n' || c == '\r' || c == '\U{000B}' || c == '\U{000C}'
  }

  predicate AllWhitespace(s: string) {
    forall i :: 0 <= i < |s| ==> IsWhitespace(s[i])
  }

  /** Neither end of `s` is whitespace (vacuously true of the empty string). */
  predicate IsTrimmed(s: string) {
    s == [] || (!IsWhitespace(s[0]) && !IsWhitespace(s[|s| - 1]))
  }

  /** Drops leading whitespace. */
  function TrimStart(s: string): (r: string)
    ensures |r| <= |s|
  {
    if |s| > 0 && IsWhitespace(s[0]) then TrimStart(s[1..]) else s
  }

  /** Drops trailing whitespace. */
  function TrimEnd(s: string): (r: string)
    ensures |r| <= |s|
  {
    if |s| > 0 && IsWhitespace(s[|s| - 1]) then TrimEnd(s[..|s| - 1]) else s
  }

  /** `trim`: both ends. */
  function Trim(s: string): (r: string)
    ensures |r| <= |s|
  {
    TrimEnd(TrimStart(s))
  }

  /** `TrimStart` keeps a suffix and drops only whitespace before it. */
  lemma {:induction false} TrimStartSuffix(s: string)
    ensures TrimStart(s) == s[|s| - |TrimStart(s)|..]
    ensures AllWhitespace(s[..|s| - |TrimStart(s)|])
    ensures TrimStart(s) == [] || !IsWhitespace(TrimStart(s)[0])
  {
    if |s| > 0 && IsWhitespace(s[0]) {
      TrimStartSuffix(s[1..]);
      var k := |s| - |TrimStart(s)|;
      assert s[1..][..k - 1] == s[1..k];
      assert s[1..][k - 1..] == s[k..];
    }
  }

  /** `TrimEnd` keeps a prefix and drops only whitespace after it. */
  lemma {:induction false} TrimEndPrefix(s: string)
    ensures TrimEnd(s) == s[..|TrimEnd(s)|]
    ensures AllWhitespace(s[|TrimEnd(s)|..])
    ensures TrimEnd(s) == [] || !IsWhitespace(TrimEnd(s)[|TrimEnd(s)| - 1])
  {
    if |s| > 0 && IsWhitespace(s[|s| - 1]) {
      TrimEndPrefix(s[..|s| - 1]);
      var k := |TrimEnd(s)|;
      assert s[..|s| - 1][..k] == s[..k];
      assert s[k..] == s[..|s| - 1][k..] + [s[|s| - 1]];
    }
  }

  /** How many leading whitespace characters `Trim` drops. */
  function TrimOffset(s: string): (i: nat)
    ensures i <= |s|
  {
    |s| - |TrimStart(s)|
  }

  /** What `Trim` returns: a slice of `s`, cut only at whitespace, with no whitespace at either end. */
  lemma TrimSlice(s: string)
    ensures IsTrimmed(Trim(s))
    ensures TrimOffset(s) + |Trim(s)| <= |s|
    ensures s[TrimOffset(s)..TrimOffset(s) + |Trim(s)|] == Trim(s)
    ensures AllWhitespace(s[..TrimOffset(s)]) && AllWhitespace(s[TrimOffset(s) + |Trim(s)|..])
  {
    var a := TrimStart(s);
    var r := TrimEnd(a);
    var i := |s| - |a|;
    TrimStartSuffix(s);
    TrimEndPrefix(a);
    assert a == s[i..];
    assert r == a[..|r|];
    assert s[i..i + |r|] == s[i..][..|r|];
    assert s[i + |r|..] == a[|r|..];
    if r != [] {
      assert r[0] == a[0];
    }
  }

  /** A string with no whitespace at either end is its own trim. */
  lemma TrimOfTrimmed(s: string)
    requires IsTrimmed(s)
    ensures Trim(s) == s
  {
  }

  /** Trimming is idempotent. */
  lemma TrimIdempotent(s: string)
    ensures Trim(Trim(s)) == Trim(s)
  {
    TrimSlice(s);
    TrimOfTrimmed(Trim(s));
  }

  /** Leading whitespace does not change the trim. */
  lemma {:induction false} TrimSkipsLeading(w: string, s: string)
    requires AllWhitespace(w)
    ensures Trim(w + s) == Trim(s)
  {
    if w != [] {
      assert (w + s)[1..] == w[1..] + s;
      TrimSkipsLeading(w[1..], s);
    } else {
      assert w + s == s;
    }
  }

  /** Trimming removes whitespace padding around a string whose own ends are not whitespace. */
  lemma PaddedTrim(w1: string, s: string, w2: string)
    requires AllWhitespace(w1) && AllWhitespace(w2)
    requires IsTrimmed(s)
    ensures Trim(w1 + s + w2) == s
  {
    assert w1 + s + w2 == w1 + (s + w2);
    TrimSkipsLeading(w1, s + w2);
    TrimEndPadding(s, w2);
    if s != [] {
      assert TrimStart(s + w2) == s + w2;
    } else {
      assert s + w2 == w2;
      TrimSkipsLeading(w2, []);
      assert w2 + [] == w2;
    }
  }

  /**
   * Appended whitespace never changes `TrimEnd`; after a non-whitespace
   * character it is exactly what `TrimEnd` drops.
   */
  lemma {:induction false} TrimEndPadding(s: string, w: string)
    requires AllWhitespace(w)
    ensures TrimEnd(s + w) == TrimEnd(s)
    ensures s != [] && !IsWhitespace(s[|s| - 1]) ==> TrimEnd(s + w) == s
  {
    if w != [] {
      assert (s + w)[..|s + w| - 1] == s + w[..|w| - 1];
      TrimEndPadding(s, w[..|w| - 1]);
    } else {
      assert s + w == s;
    }
  }

  // ASCII case folding

  function ToLowerAscii(c: char): (r: char)
    ensures 'A' <= c <= 'Z' ==> 'a' <= r <= 'z' && r as int == c as int + 32
    ensures !('A' <= c <= 'Z') ==> r == c
  {
    if 'A' <= c <= 'Z' then (c as int + 32) as char else c
  }

  /** `str::eq_ignore_ascii_case`: same length and equal after folding ASCII letters, position by position. */
  predicate EqIgnoreAsciiCase(a: string, b: string) {
    |a| == |b| && forall i :: 0 <= i < |a| ==> ToLowerAscii(a[i]) == ToLowerAscii(b[i])
  }

  /** `to_lowercase` on an ASCII string. */
  function LowerAscii(s: string): (r: string)
    ensures |r| == |s|
    ensures forall i :: 0 <= i < |s| ==> r[i] == ToLowerAscii(s[i])
  {
    seq(|s|, i requires 0 <= i < |s| => ToLowerAscii(s[i]))
  }

  /** Folding case never turns whitespace into non-whitespace or back. */
  lemma LowerKeepsWhitespace(c: char)
    ensures IsWhitespace(ToLowerAscii(c)) <==> IsWhitespace(c)
  {
  }

  /** Lower-casing commutes with trimming: Rust's `to_lowercase().trim()` equals `trim().to_lowercase()` on ASCII. */
  lemma {:induction false} TrimLowerCommute(s: string)
    ensures Trim(LowerAscii(s)) == LowerAscii(Trim(s))
  {
    TrimStartLower(s);
    TrimEndLower(TrimStart(s));
  }

  lemma {:induction false} TrimStartLower(s: string)
    ensures TrimStart(LowerAscii(s)) == LowerAscii(TrimStart(s))
  {
    if |s| > 0 {
      LowerKeepsWhitespace(s[0]);
      if IsWhitespace(s[0]) {
        assert LowerAscii(s)[1..] == LowerAscii(s[1..]);
        TrimStartLower(s[1..]);
      }
    }
  }

  lemma {:induction false} TrimEndLower(s: string)
    ensures TrimEnd(LowerAscii(s)) == LowerAscii(TrimEnd(s))
  {
    var l := LowerAscii(s);
    if |s| > 0 {
      var last := |s| - 1;
      LowerKeepsWhitespace(s[last]);
      assert l[last] == ToLowerAscii(s[last]);
      if IsWhitespace(s[last]) {
        assert l[..last] == LowerAscii(s[..last]);
        assert TrimEnd(l) == TrimEnd(l[..last]);
        TrimEndLower(s[..last]);
      } else {
        assert TrimEnd(l) == l;
      }
    }
  }

  /** Against a lower-case target, case-insensitive equality is equality after lower-casing. */
  lemma EqIgnoreCaseLowerTarget(a: string, lower: string)
    requires LowerAscii(lower) == lower
    ensures EqIgnoreAsciiCase(a, lower) <==> LowerAscii(a) == lower
  {
    if EqIgnoreAsciiCase(a, lower) {
      forall i | 0 <= i < |a| ensures LowerAscii(a)[i] == lower[i] {
        assert LowerAscii(lower)[i] == ToLowerAscii(lower[i]);
      }
    }
    if LowerAscii(a) == lower {
      forall i | 0 <= i < |a| ensures ToLowerAscii(a[i]) == ToLowerAscii(lower[i]) {
        assert LowerAscii(lower)[i] == ToLowerAscii(lower[i]);
      }
    }
  }

  // Decimal numerals

  predicate IsDigit(c: char) {
    '0' <= c <= '9'
  }

  predicate AllDigits(s: string) {
    forall i :: 0 <= i < |s| ==> IsDigit(s[i])
  }

  /** The value of a string of decimal digits, most significant first. */
  function DigitsValue(s: string): (n: nat)
    requires AllDigits(s)
  {
    if s == [] then 0 else 10 * DigitsValue(s[..|s| - 1]) + (s[|s| - 1] as int - '0' as int)
  }

  function DigitChar(d: nat): (c: char)
    requires d < 10
    ensures IsDigit(c) && c as int - '0' as int == d
  {
    ('0' as int + d) as char
  }

  /** The shortest decimal numeral of `n` (JavaScript number-to-string on a natural). */
  function Decimal(n: nat): (s: string)
    ensures s != [] && AllDigits(s)
    ensures DigitsValue(s) == n
  {
    if n < 10 then [DigitChar(n)] else
      var s := Decimal(n / 10) + [DigitChar(n % 10)];
      assert s[..|s| - 1] == Decimal(n / 10);
      s
  }
}
