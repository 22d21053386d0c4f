/**
 The integer prefix rule of ECMAScript `parseInt` (called with no radix), and
 the client's `isNumeric`, which holds exactly when `parseInt` does not yield NaN.
 */
module JsNumber {
  import opened Optional
  import opened Text

  predicate IsSign(c: char) {
    c == '+' || c == '-'
  }

  /** `u` starts with `0x` or `0X`, which switches `parseInt` to radix 16. */
  predicate HasHexPrefix(u: string) {
    |u| >= 2 && u[0] == '0' && (u[1] == 'x' || u[1] == 'X')
  }

  predicate IsDigitIn(c: char, hex: bool) {
    if hex then IsHexDigit(c) else IsDecimalDigit(c)
  }

  predicate AllDigitsIn(s: string, hex: bool) {
    forall i :: 0 <= i < |s| ==> IsDigitIn(s[i], hex)
  }

  /** Length of the longest prefix of `s` made of digits of the radix. */
  function DigitRun(s: string, hex: bool): (n: nat)
    ensures n <= |s|
    ensures AllDigitsIn(s[..n], hex)
    ensures n < |s| ==> !IsDigitIn(s[n], hex)
  {
    if s != [] && IsDigitIn(s[0], hex) then
      var n := 1 + DigitRun(s[1..], hex);
      assert s[..n] == [s[0]] + s[1..][..n - 1];
      n
    else 0
  }

  /** The value of a digit string read most significant digit first. */
  function DigitsValue(s: string, hex: bool): nat
    requires AllDigitsIn(s, hex)
  {
    if s == [] then 0
    else DigitsValue(s[..|s| - 1], hex) * (if hex then 16 else 10) + DigitValue(s[|s| - 1])
  }

  /** Digits after the sign: a `0x`/`0X` prefix selects radix 16; no digit at all is NaN, here `None`. */
  function ParseMagnitude(u: string): Option<nat> {
    var hex := HasHexPrefix(u);
    var digits := if hex then u[2..] else u;
    var n := DigitRun(digits, hex);
    if n == 0 then None else Some(DigitsValue(digits[..n], hex))
  }

  /** An optional sign, then the magnitude. */
  function ParseSigned(t: string): Option<int> {
    if t != [] && IsSign(t[0]) then
      match ParseMagnitude(t[1..])
      case None => None
      case Some(m) =>
        var v: int := if t[0] == '-' then -(m as int) else m;
        Some(v)
    else
      match ParseMagnitude(t)
      case None => None
      case Some(m) => Some(m)
  }

  /**
   `parseInt(s)` with no radix: leading white space is skipped, then an
   optional sign and the digits. The value is the exact integer; the float
   rounding of very long digit runs is not modelled. A number comes out
   exactly when the text has a prefix `parseInt` accepts; trailing text is
   ignored.
   */
  function ParseInt(s: string): (r: Option<int>)
    ensures r.Some? <==> HasNumericPrefix(s)
  {
    var t := TrimStart(s);
    SkipWhitespaceThenDigit(s);
    ParseSigned(t)
  }

  /** `isNumeric(s)`, that is `!isNaN(parseInt(s))`: the text has a `parseInt`-valid prefix. */
  function IsNumeric(s: string): (b: bool)
    ensures b <==> HasNumericPrefix(s)
  {
    ParseInt(s).Some?
  }

  /** After the sign: a hexadecimal prefix and one hex digit, or else a decimal digit. */
  predicate StartsWithDigit(u: string) {
    if HasHexPrefix(u) then |u| > 2 && IsHexDigit(u[2]) else |u| > 0 && IsDecimalDigit(u[0])
  }

  predicate StartsWithSignedDigit(t: string) {
    StartsWithDigit(t) || (t != [] && IsSign(t[0]) && StartsWithDigit(t[1..]))
  }

  /** `s` has a prefix `parseInt` accepts: white space, an optional sign, then a digit of the radix. */
  ghost predicate HasNumericPrefix(s: string) {
    exists k :: 0 <= k <= |s| && AllWhitespace(s[..k]) && StartsWithSignedDigit(s[k..])
  }

  // Reading after the leading white space finds a number exactly when the text has a valid prefix.
  lemma {:induction false} SkipWhitespaceThenDigit(s: string)
    ensures ParseSigned(TrimStart(s)).Some? <==> HasNumericPrefix(s)
  {
    var t := TrimStart(s);
    var m := |s| - |t|;
    assert t == s[m..];
    SignedIffDigit(t);
    if ParseSigned(t).Some? {
      assert 0 <= m <= |s| && AllWhitespace(s[..m]) && StartsWithSignedDigit(s[m..]);
    }
    if HasNumericPrefix(s) {
      var k :| 0 <= k <= |s| && AllWhitespace(s[..k]) && StartsWithSignedDigit(s[k..]);
      SignedDigitLead(s[k..]);
      assert s[k..][0] == s[k];
      WhitespacePrefixUnique(s, k, m);
    }
  }

  // A signed digit run starts with a sign or a digit, neither of which is white space.
  lemma {:induction false} SignedDigitLead(t: string)
    requires StartsWithSignedDigit(t)
    ensures t != [] && !IsWhitespace(t[0])
  {
  }

  /** Two white space prefixes each followed by a non-white-space character have the same length. */
  lemma {:induction false} WhitespacePrefixUnique(s: string, k: nat, m: nat)
    requires k < |s| && AllWhitespace(s[..k]) && !IsWhitespace(s[k])
    requires m <= |s| && AllWhitespace(s[..m]) && (m == |s| || !IsWhitespace(s[m]))
    ensures k == m
  {
  }

  lemma {:induction false} SignedIffDigit(t: string)
    ensures ParseSigned(t).Some? <==> StartsWithSignedDigit(t)
  {
    MagnitudeIffDigit(t);
    if t != [] {
      MagnitudeIffDigit(t[1..]);
    }
  }

  lemma {:induction false} MagnitudeIffDigit(u: string)
    ensures ParseMagnitude(u).Some? <==> StartsWithDigit(u)
  {
    if HasHexPrefix(u) && |u| > 2 {
      assert u[2..][0] == u[2];
    }
  }

  /** The decimal rendering of a natural number, as `String(n)` gives it. */
  function DecimalString(n: nat): (r: string)
    ensures r != [] && AllDigitsIn(r, false)
    ensures DigitsValue(r, false) == n
  {
    if n < 10 then [DecimalDigit(n)]
    else
      var r := DecimalString(n / 10) + [DecimalDigit(n % 10)];
      assert r[..|r| - 1] == DecimalString(n / 10);
      r
  }

  /** A numeric identifier passed as a number or as its decimal text parses back to itself. */
  lemma {:induction false} ParseIntDecimal(n: nat)
    ensures ParseInt(DecimalString(n)) == Some(n)
    ensures IsNumeric(DecimalString(n))
  {
    var d := DecimalString(n);
    DecimalFrame(d);
    ParseIntReadsDigits("", "", false, d, "");
  }

  // Decimal text is its own frame: no white space, sign, radix prefix or trailing text around it.
  lemma {:induction false} DecimalFrame(d: string)
    requires d != [] && AllDigitsIn(d, false)
    ensures "" + "" + RadixPrefix(false) + d + "" == d
    ensures !HasHexPrefix(d + "")
    ensures Signed("", DigitsValue(d, false)) == DigitsValue(d, false)
  {
    assert d + "" == d;
    if |d| >= 2 {
      assert IsDecimalDigit(d[1]);
    }
  }

  lemma {:induction false} DigitRunAll(s: string, hex: bool)
    requires AllDigitsIn(s, hex)
    ensures DigitRun(s, hex) == |s|
  {
    if s != [] {
      DigitRunAll(s[1..], hex);
    }
  }

  /** A run of digits followed by a non-digit is read up to the non-digit. */
  lemma {:induction false} DigitRunStopsAtNonDigit(d: string, rest: string, hex: bool)
    requires AllDigitsIn(d, hex)
    requires rest == [] || !IsDigitIn(rest[0], hex)
    ensures DigitRun(d + rest, hex) == |d|
  {
    if d != [] {
      assert (d + rest)[1..] == d[1..] + rest;
      DigitRunStopsAtNonDigit(d[1..], rest, hex);
    }
  }

  /** With no white space or sign in front, `parseInt` reads the magnitude directly. */
  lemma {:induction false} ParseIntUnsigned(s: string)
    requires s == [] || (!IsWhitespace(s[0]) && !IsSign(s[0]))
    ensures ParseInt(s) == ParseMagnitude(s)
  {
    assert TrimStart(s) == s;
  }

  /** The radix prefix a digit string is written with. */
  function RadixPrefix(hex: bool): string {
    if hex then "0x" else ""
  }

  /** The value `parseInt` gives a magnitude read after an optional sign. */
  function Signed(sign: string, magnitude: nat): int {
    if sign == "-" then -(magnitude as int) else magnitude
  }

  /**
   White space, an optional sign, the radix prefix and a run of digits ended
   by a non-digit: `parseInt` yields the signed value of the digits, whatever
   text follows.
   */
  lemma {:induction false} ParseIntReadsDigits(w: string, sign: string, hex: bool, d: string, rest: string)
    requires AllWhitespace(w)
    requires sign == [] || sign == "+" || sign == "-"
    requires d != [] && AllDigitsIn(d, hex)
    requires rest == [] || !IsDigitIn(rest[0], hex)
    requires !hex ==> !HasHexPrefix(d + rest)
    ensures ParseInt(w + sign + RadixPrefix(hex) + d + rest) == Some(Signed(sign, DigitsValue(d, hex)))
  {
    var u := RadixPrefix(hex) + d + rest;
    ReadsRegroup(w, sign, hex, d, rest);
    TrimStartWhitespace(w, sign + u);
    MagnitudeReadsDigits(hex, d, rest);
    ParseSignedReads(sign, u, DigitsValue(d, hex));
  }

  lemma {:induction false} ReadsRegroup(w: string, sign: string, hex: bool, d: string, rest: string)
    requires sign == [] || sign == "+" || sign == "-"
    requires d != [] && AllDigitsIn(d, hex)
    ensures w + sign + RadixPrefix(hex) + d + rest == w + (sign + (RadixPrefix(hex) + d + rest))
    ensures var u := RadixPrefix(hex) + d + rest; u != [] && !IsWhitespace(u[0]) && !IsSign(u[0])
    ensures var t := sign + (RadixPrefix(hex) + d + rest); t != [] && !IsWhitespace(t[0])
  {
    var u := RadixPrefix(hex) + d + rest;
    assert IsDigitIn(d[0], hex);
    assert u[0] == (if hex then '0' else d[0]);
  }

  /** An optional sign in front of a magnitude. */
  lemma {:induction false} ParseSignedReads(sign: string, u: string, m: nat)
    requires sign == [] || sign == "+" || sign == "-"
    requires u != [] && !IsSign(u[0])
    requires ParseMagnitude(u) == Some(m)
    ensures ParseSigned(sign + u) == Some(Signed(sign, m))
  {
    if sign == [] {
      assert sign + u == u;
    } else {
      assert (sign + u)[0] == sign[0] && (sign + u)[1..] == u;
    }
  }

  /** Leading white space is dropped up to the first other character. */
  lemma {:induction false} TrimStartWhitespace(w: string, t: string)
    requires AllWhitespace(w)
    requires t == [] || !IsWhitespace(t[0])
    ensures TrimStart(w + t) == t
  {
    if w != [] {
      assert (w + t)[0] == w[0];
      assert (w + t)[1..] == w[1..] + t;
      TrimStartWhitespace(w[1..], t);
    } else {
      assert w + t == t;
    }
  }

  lemma {:induction false} MagnitudeReadsDigits(hex: bool, d: string, rest: string)
    requires d != [] && AllDigitsIn(d, hex)
    requires rest == [] || !IsDigitIn(rest[0], hex)
    requires !hex ==> !HasHexPrefix(d + rest)
    ensures ParseMagnitude(RadixPrefix(hex) + d + rest) == Some(DigitsValue(d, hex))
  {
    PrefixRegroup(hex, d, rest);
    DigitRunStopsAtNonDigit(d, rest, hex);
  }

  lemma {:induction false} PrefixRegroup(hex: bool, d: string, rest: string)
    requires !hex ==> !HasHexPrefix(d + rest)
    ensures HasHexPrefix(RadixPrefix(hex) + d + rest) == hex
    ensures hex ==> (RadixPrefix(hex) + d + rest)[2..] == d + rest
    ensures !hex ==> RadixPrefix(hex) + d + rest == d + rest
    ensures (d + rest)[..|d|] == d
  {
  }

  /** Leading digits are read and trailing text is ignored: `"42abc"` is numeric. */
  lemma {:induction false} TrailingTextIgnored()
    ensures ParseInt("42abc") == Some(42)
  {
    SampleDigits();
    ParseIntReadsDigits("", "", false, "42", "abc");
  }

  /** A host name that starts with a digit is numeric too. */
  lemma {:induction false} DigitLedNameIsNumeric()
    ensures ParseInt("4chan.org") == Some(4)
  {
    SampleDigits();
    ParseIntReadsDigits("", "", false, "4", "chan.org");
  }

  /** Leading white space and a sign are accepted. */
  lemma {:induction false} SignAndWhitespaceAccepted()
    ensures ParseInt(" -7") == Some(-7)
  {
    SampleDigits();
    ParseIntReadsDigits(" ", "-", false, "7", "");
  }

  /** A `0x` prefix selects radix 16. */
  lemma {:induction false} HexPrefixAccepted()
    ensures ParseInt("0x1F") == Some(31)
  {
    SampleDigits();
    ParseIntReadsDigits("", "", true, "1F", "");
  }

  // The spelling and digit values of the samples above.
  lemma {:induction false} SampleDigits()
    ensures "" + "" + RadixPrefix(false) + "42" + "abc" == "42abc" && DigitsValue("42", false) == 42
    ensures "" + "" + RadixPrefix(false) + "4" + "chan.org" == "4chan.org" && DigitsValue("4", false) == 4
    ensures " " + "-" + RadixPrefix(false) + "7" + "" == " -7" && DigitsValue("7", false) == 7
    ensures "" + "" + RadixPrefix(true) + "1F" + "" == "0x1F" && DigitsValue("1F", true) == 31
    ensures AllDigitsIn("42", false) && AllDigitsIn("4", false) && AllDigitsIn("7", false) && AllDigitsIn("1F", true)
    ensures !HasHexPrefix("42abc") && !HasHexPrefix("4chan.org") && !HasHexPrefix("7")
    ensures AllWhitespace(" ") && AllWhitespace("")
  {
    assert "42"[..1] == "4";
    assert "1F"[..1] == "1";
    assert "7"[..0] == [];
  }

  /**
   A string that is empty or starts with anything but white space, a sign or
   a digit is not numeric: `""`, `"abc"`, `"example.com"`, and `"undefined"`,
   which is what a missing argument turns into.
   */
  lemma {:induction false} NoLeadingDigitNotNumeric(s: string)
    requires s == [] || (!IsWhitespace(s[0]) && !IsSign(s[0]) && !IsDecimalDigit(s[0]))
    ensures !IsNumeric(s)
  {
    assert TrimStart(s) == s;
    MagnitudeIffDigit(s);
  }

  /** A lone sign, or a hexadecimal prefix with no hex digit after it, is NaN: `"-"`, `"0x"`, `"0xZ"`. */
  lemma {:induction false} NoDigitAfterPrefixNotNumeric(s: string)
    requires (|s| == 1 && IsSign(s[0])) || (HasHexPrefix(s) && (|s| == 2 || !IsHexDigit(s[2])))
    ensures !IsNumeric(s)
  {
    assert TrimStart(s) == s;
    SignedIffDigit(s);
    NoSignedDigit(s);
    assert ParseSigned(s).None?;
  }

  // Neither shape in the lemma above begins with a digit of its radix.
  lemma {:induction false} NoSignedDigit(s: string)
    requires (|s| == 1 && IsSign(s[0])) || (HasHexPrefix(s) && (|s| == 2 || !IsHexDigit(s[2])))
    ensures !StartsWithSignedDigit(s)
  {
    if |s| == 1 {
      assert s[1..] == [];
    }
  }
}
