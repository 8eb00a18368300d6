/**
 * The few JavaScript string operations the application relies on, written out:
 * rendering of `undefined` in concatenation, `String.prototype.trim`,
 * `String.prototype.split` with one separator, `startsWith`, and the decimal
 * rendering of integers by `Number.prototype.toString`.
 */
module Text {
  import opened Wrappers

  /** What JavaScript produces when `undefined` is concatenated into a string. */
  const UndefinedText := "undefined"

  /** A possibly absent string as a template literal or `+` renders it. */
  function Show(s: Option<string>): string
  {
    match s
    case None => UndefinedText
    case Some(t) => t
  }

  // ---------------------------------------------------------------------------
  // trim
  // ---------------------------------------------------------------------------

  /**
   * The characters `String.prototype.trim` removes: the WhiteSpace and
   * LineTerminator code points of ECMA-262 (sections 12.2 and 12.3).
   */
  predicate IsWhitespace(c: char)
  {
    || c == '\t' || c == '\n' || c == '\U{000B}' || c == '\U{000C}' || c == '\r'
    || c == ' ' || c == '\U{00A0}' || c == '\U{1680}'
    || ('\U{2000}' <= c <= '\U{200A}')
    || c == '\U{2028}' || c == '\U{2029}' || c == '\U{202F}' || c == '\U{205F}'
    || c == '\U{3000}' || c == '\U{FEFF}'
  }

  predicate AllWhitespace(s: string)
  {
    forall i :: 0 <= i < |s| ==> IsWhitespace(s[i])
  }

  function TrimStart(s: string): string
  {
    if s != [] && IsWhitespace(s[0]) then TrimStart(s[1..]) else s
  }

  function TrimEnd(s: string): string
  {
    if s != [] && IsWhitespace(s[|s| - 1]) then TrimEnd(s[..|s| - 1]) else s
  }

  /**
   * `s.trim()`: the slice of `s` left between a whitespace prefix and a
   * whitespace suffix, neither starting nor ending with whitespace.
   */
  function Trim(s: string): (r: string)
    ensures exists i, j :: 0 <= i <= j <= |s| && r == s[i..j] && AllWhitespace(s[..i]) && AllWhitespace(s[j..])
    ensures r != [] ==> !IsWhitespace(r[0]) && !IsWhitespace(r[|r| - 1])
  {
    var t := TrimStart(s);
    TrimStartSuffix(s);
    TrimStartHead(s);
    TrimEndPrefix(t);
    var r := TrimEnd(t);
    var i := |s| - |t|;
    assert r == s[i..i + |r|] && s[i + |r|..] == t[|r|..];
    r
  }

  /** `TrimStart` drops a whitespace prefix and keeps the rest as it is. */
  lemma {:induction false} TrimStartSuffix(s: string)
    ensures |TrimStart(s)| <= |s|
    ensures TrimStart(s) == s[|s| - |TrimStart(s)|..]
    ensures AllWhitespace(s[..|s| - |TrimStart(s)|])
  {
    if s != [] && IsWhitespace(s[0]) {
      TrimStartSuffix(s[1..]);
      var k := |s| - |TrimStart(s)|;
      assert s[..k] == [s[0]] + s[1..][..k - 1];
    }
  }

  /** `TrimEnd` drops a whitespace suffix and keeps the rest as it is. */
  lemma {:induction false} TrimEndPrefix(s: string)
    ensures |TrimEnd(s)| <= |s|
    ensures TrimEnd(s) == s[..|TrimEnd(s)|]
    ensures AllWhitespace(s[|TrimEnd(s)|..])
    ensures TrimEnd(s) != [] ==> !IsWhitespace(TrimEnd(s)[|TrimEnd(s)| - 1])
  {
    if s != [] && IsWhitespace(s[|s| - 1]) {
      var p := s[..|s| - 1];
      TrimEndPrefix(p);
      var k := |TrimEnd(s)|;
      assert s[k..] == p[k..] + [s[|s| - 1]];
      assert p[..k] == s[..k];
    }
  }

  lemma {:induction false} TrimStartEmpty(s: string)
    ensures TrimStart(s) == [] <==> AllWhitespace(s)
  {
    if s != [] && IsWhitespace(s[0]) {
      TrimStartEmpty(s[1..]);
      assert AllWhitespace(s) <==> AllWhitespace(s[1..]) by {
        forall i | 0 <= i < |s[1..]| ensures s[1..][i] == s[i + 1] {}
      }
    }
  }

  lemma {:induction false} TrimStartHead(s: string)
    ensures TrimStart(s) != [] ==> !IsWhitespace(TrimStart(s)[0])
  {
    if s != [] && IsWhitespace(s[0]) {
      TrimStartHead(s[1..]);
    }
  }

  lemma {:induction false} TrimEndKeepsHead(t: string)
    requires t != [] && !IsWhitespace(t[0])
    ensures TrimEnd(t) != []
  {
    if IsWhitespace(t[|t| - 1]) {
      TrimEndKeepsHead(t[..|t| - 1]);
    }
  }

  /** A string trims to "" (is falsy after `trim()`) exactly when every character is whitespace. */
  lemma {:induction false} TrimBlank(s: string)
    ensures Trim(s) == "" <==> AllWhitespace(s)
  {
    TrimStartEmpty(s);
    TrimStartHead(s);
    if TrimStart(s) != [] {
      TrimEndKeepsHead(TrimStart(s));
    }
  }

  // ---------------------------------------------------------------------------
  // split and startsWith
  // ---------------------------------------------------------------------------

  /** The index of the first `c` in `s`, if any (`s.indexOf(c)`, with -1 as None). */
  function IndexOf(s: string, c: char): (r: Option<nat>)
    ensures r.None? <==> c !in s
    ensures r.Some? ==> r.value < |s| && s[r.value] == c && c !in s[..r.value]
  {
    if s == [] then None
    else if s[0] == c then Some(0)
    else match IndexOf(s[1..], c)
      case None => None
      case Some(i) =>
        assert s[1..][..i] == s[1..i + 1];
        Some(i + 1)
  }

  /**
   * `s.split(sep)[1]`: the piece between the first and the second `sep`
   * (the rest of `s` when there is no second one), undefined when `s` has no `sep`.
   */
  function SplitSecond(s: string, sep: char): (r: Option<string>)
    ensures r.None? <==> sep !in s
    ensures r.Some? ==> sep !in r.value
    ensures r.Some? ==>
              exists i :: 0 <= i < |s| && s[i] == sep && sep !in s[..i] && r.value <= s[i + 1..] &&
                          (i + 1 + |r.value| == |s| || s[i + 1 + |r.value|] == sep)
  {
    match IndexOf(s, sep)
    case None => None
    case Some(i) =>
      var rest := s[i + 1..];
      match IndexOf(rest, sep)
      case None =>
        assert s[i] == sep;
        Some(rest)
      case Some(j) =>
        assert rest[..j] <= rest && s[i + 1 + j] == rest[j];
        Some(rest[..j])
  }

  /** A data URL `header,payload` whose header and payload hold no comma splits to its payload. */
  lemma DataUrlPayload(header: string, payload: string)
    requires ',' !in header && ',' !in payload
    ensures SplitSecond(header + "," + payload, ',') == Some(payload)
  {
  }

  /** `s.startsWith(prefix)`. */
  predicate StartsWith(s: string, prefix: string)
  {
    prefix <= s
  }

  // ---------------------------------------------------------------------------
  // decimal rendering
  // ---------------------------------------------------------------------------

  predicate IsDigit(c: char)
  {
    '0' <= c <= '9'
  }

  predicate AllDigits(s: string)
  {
    forall i :: 0 <= i < |s| ==> IsDigit(s[i])
  }

  function DigitChar(d: nat): (c: char)
    requires d < 10
    ensures IsDigit(c)
  {
    "0123456789"[d]
  }

  function DigitValue(c: char): (d: nat)
    requires IsDigit(c)
    ensures d < 10
  {
    (c as int) - ('0' as int)
  }

  /** The decimal digits of `n` (`n.toString()` for a non-negative integer). */
  function NatToString(n: nat): string
  {
    if n < 10 then [DigitChar(n)] else NatToString(n / 10) + [DigitChar(n % 10)]
  }

  /**
   * `i.toString()` for an integer: a minus sign exactly for a negative
   * number, then a non-empty run of decimal digits.
   */
  function IntToString(i: int): (r: string)
    ensures r != [] && (r[0] == '-' <==> i < 0)
    ensures AllDigits(if i < 0 then r[1..] else r) && (i < 0 ==> |r| > 1)
  {
    var n: nat := if i < 0 then -i else i;
    NatToStringCanonical(n);
    if i < 0 then
      var r := "-" + NatToString(n);
      assert r[1..] == NatToString(n);
      r
    else
      assert IsDigit(NatToString(n)[0]);
      NatToString(n)
  }

  /** The value of a string of decimal digits. */
  function ParseNat(s: string): nat
    requires AllDigits(s)
  {
    if s == [] then 0 else 10 * ParseNat(s[..|s| - 1]) + DigitValue(s[|s| - 1])
  }

  /** The value of an optional minus sign followed by decimal digits, or None. */
  function ParseInt(s: string): Option<int>
  {
    if s != [] && s[0] == '-' && AllDigits(s[1..]) then Some(0 - ParseNat(s[1..]) as int)
    else if AllDigits(s) then Some(ParseNat(s) as int)
    else None
  }

  /**
   * The decimal rendering of a natural number is a non-empty string of digits,
   * with no leading zero, that reads back as the number.
   */
  lemma {:induction false} NatToStringCanonical(n: nat)
    ensures NatToString(n) != [] && AllDigits(NatToString(n))
    ensures ParseNat(NatToString(n)) == n
    ensures NatToString(n)[0] == '0' ==> n == 0
  {
    if n >= 10 {
      NatToStringCanonical(n / 10);
      var s := NatToString(n);
      assert s[..|s| - 1] == NatToString(n / 10);
      assert DigitValue(DigitChar(n % 10)) == n % 10;
    } else {
      assert DigitValue(DigitChar(n)) == n;
    }
  }

  /** `toString` of an integer reads back as the same integer. */
  lemma IntToStringRoundTrip(i: int)
    ensures ParseInt(IntToString(i)) == Some(i)
  {
    if i < 0 {
      NatToStringCanonical(-i);
      var s := IntToString(i);
      assert s[1..] == NatToString(-i);
    } else {
      NatToStringCanonical(i);
      assert IntToString(i)[0] != '-';
    }
  }
}
