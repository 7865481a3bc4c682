/** Values of the JavaScript runtime that the dashboard's rules depend on:
    optional (undefined) values and their truthiness, the whitespace that
    `trim` and `parseInt` skip, `parseInt` itself, and the decimal text of an
    integer that a template literal produces. */
module JsValues {

  /** A value that may be `undefined` (or `null`). */
  datatype Option<+T> = None | Some(value: T)

  /** A string-valued property is truthy iff it is defined and not empty. */
  predicate Truthy(s: Option<string>)
  {
    s.Some? && s.value != ""
  }

  /** What `parseInt` returns: `NaN`, or an integer. Negative zero is identified
      with zero; no caller here can tell them apart. */
  datatype ParsedInt = NaN | Int(value: int)

  /** `parseInt(s, 10)` or `parseInt(s)` with the radix omitted. */
  datatype Radix = Ten | Omitted

  /** StrWhiteSpaceChar of ECMA-262: the WhiteSpace and LineTerminator code points. */
  predicate IsWhitespace(c: char)
  {
    || c == '\t' || c == '\U{0B}' || c == '\U{0C}' || c == ' ' || c == '\U{A0}' || c == '\U{FEFF}'
    || c == '\n' || c == '\r' || c == '\U{2028}' || c == '\U{2029}'
    || c == '\U{1680}' || ('\U{2000}' <= c <= '\U{200A}')
    || c == '\U{202F}' || c == '\U{205F}' || c == '\U{3000}'
  }

  /** Every character of `s` is whitespace. */
  predicate IsBlank(s: string)
  {
    forall i :: 0 <= i < |s| ==> IsWhitespace(s[i])
  }

  /** `s` without its leading whitespace. */
  function TrimStart(s: string): (r: string)
    ensures |r| <= |s| && r == s[|s| - |r|..]
    ensures r == [] || !IsWhitespace(r[0])
  {
    if |s| > 0 && IsWhitespace(s[0]) then TrimStart(s[1..]) else s
  }

  /** `s` without its trailing whitespace. */
  function TrimEnd(s: string): (r: string)
    ensures r <= s
    ensures r == [] || !IsWhitespace(r[|r| - 1])
  {
    if |s| > 0 && IsWhitespace(s[|s| - 1]) then TrimEnd(s[..|s| - 1]) else s
  }

  /** `String.prototype.trim`. */
  function Trim(s: string): string
  {
    TrimEnd(TrimStart(s))
  }

  /** Trimming the start leaves nothing exactly when `s` is all whitespace. */
  lemma {:induction false} TrimStartEmptyIff(s: string)
    ensures TrimStart(s) == [] <==> IsBlank(s)
  {
    if |s| > 0 && IsWhitespace(s[0]) {
      assert s == [s[0]] + s[1..];
      BlankCons(s[0], s[1..]);
      TrimStartEmptyIff(s[1..]);
    }
  }

  /** Trimming the end leaves nothing exactly when `s` is all whitespace. */
  lemma {:induction false} TrimEndEmptyIff(s: string)
    ensures TrimEnd(s) == [] <==> IsBlank(s)
  {
    if |s| > 0 && IsWhitespace(s[|s| - 1]) {
      assert s == s[..|s| - 1] + [s[|s| - 1]];
      BlankSnoc(s[..|s| - 1], s[|s| - 1]);
      TrimEndEmptyIff(s[..|s| - 1]);
    }
  }

  lemma BlankCons(c: char, t: string)
    ensures IsBlank([c] + t) <==> IsWhitespace(c) && IsBlank(t)
  {
    assert ([c] + t)[0] == c;
    assert forall i :: 0 <= i < |t| ==> t[i] == ([c] + t)[i + 1];
    forall i | 1 <= i < |t| + 1
      ensures ([c] + t)[i] == t[i - 1]
    {
    }
  }

  lemma BlankSnoc(t: string, c: char)
    ensures IsBlank(t + [c]) <==> IsBlank(t) && IsWhitespace(c)
  {
    assert (t + [c])[|t|] == c;
    assert forall i :: 0 <= i < |t| ==> (t + [c])[i] == t[i];
  }

  /** `s.trim()` is the empty string exactly when `s` is all whitespace. */
  lemma TrimEmptyIffBlank(s: string)
    ensures Trim(s) == "" <==> IsBlank(s)
  {
    var t := TrimStart(s);
    TrimStartEmptyIff(s);
    TrimEndEmptyIff(t);
    assert IsBlank(t) ==> t == [];
  }

  /** The value of a digit in the digit alphabet of `parseInt` (0-9, then
      letters a-z in either case); 36 for a character that is no digit at all. */
  function DigitValue(c: char): nat
  {
    if '0' <= c <= '9' then c as int - '0' as int
    else if 'a' <= c <= 'z' then c as int - 'a' as int + 10
    else if 'A' <= c <= 'Z' then c as int - 'A' as int + 10
    else 36
  }

  predicate IsDigit(c: char, base: nat)
  {
    DigitValue(c) < base
  }

  predicate AllDigits(ds: string, base: nat)
  {
    forall i :: 0 <= i < |ds| ==> IsDigit(ds[i], base)
  }

  /** The longest prefix of `s` made of digits of `base`. */
  function DigitPrefix(s: string, base: nat): (r: string)
    ensures r <= s && AllDigits(r, base)
    ensures |r| == |s| || !IsDigit(s[|r|], base)
  {
    if |s| > 0 && IsDigit(s[0], base) then [s[0]] + DigitPrefix(s[1..], base) else []
  }

  /** The value of a digit string in `base`, most significant digit first. */
  function DigitsValue(ds: string, base: nat): nat
    requires AllDigits(ds, base)
  {
    if ds == [] then 0 else DigitsValue(ds[..|ds| - 1], base) * base + DigitValue(ds[|ds| - 1])
  }

  /** `parseInt(s, 10)` (radix `Ten`) or `parseInt(s)` (radix `Omitted`), as
      ECMA-262 defines it: skip leading whitespace, take one sign, with the radix
      omitted let a `0x`/`0X` prefix select base 16, then read the longest run of
      digits; no digit at all gives `NaN`. */
  function ParseInt(s: string, radix: Radix): ParsedInt
  {
    ParseSigned(TrimStart(s), radix)
  }

  /** `parseInt` after the leading whitespace: at most one sign. */
  function ParseSigned(t: string, radix: Radix): ParsedInt
  {
    if |t| > 0 && t[0] == '-' then Negate(ParseMagnitude(t[1..], radix))
    else if |t| > 0 && t[0] == '+' then ParseMagnitude(t[1..], radix)
    else ParseMagnitude(t, radix)
  }

  function Negate(p: ParsedInt): ParsedInt
  {
    match p
    case NaN => NaN
    case Int(v) => Int(-v)
  }

  predicate HasHexPrefix(u: string)
  {
    |u| >= 2 && u[0] == '0' && (u[1] == 'x' || u[1] == 'X')
  }

  /** `parseInt` after the sign: the base, then the digit run. */
  function ParseMagnitude(u: string, radix: Radix): ParsedInt
  {
    if radix == Omitted && HasHexPrefix(u) then ParseRun(u[2..], 16) else ParseRun(u, 10)
  }

  /** The value of the longest run of `base` digits at the head of `body`. */
  function ParseRun(body: string, base: nat): ParsedInt
  {
    var ds := DigitPrefix(body, base);
    if ds == [] then NaN else Int(DigitsValue(ds, base))
  }

  /** The decimal digit for `d`. */
  function DigitChar(d: nat): (c: char)
    requires d < 10
    ensures '0' <= c <= '9' && DigitValue(c) == d
  {
    ('0' as int + d) as char
  }

  /** The decimal text of a natural number, without leading zeros. */
  function NatToString(n: nat): (r: string)
    ensures |r| > 0 && AllDigits(r, 10)
    ensures (r[0] == '0') == (n == 0)
  {
    if n < 10 then [DigitChar(n)] else NatToString(n / 10) + [DigitChar(n % 10)]
  }

  /** The text `${n}` gives for an integer-valued number. */
  function IntToString(n: int): (r: string)
    ensures |r| > 0
    ensures r[0] == '-' <==> n < 0
  {
    if n < 0 then "-" + NatToString(-n) else NatToString(n)
  }

  /** Reading back the decimal text of a number gives the number. */
  lemma {:induction false} NatToStringValue(n: nat)
    ensures DigitsValue(NatToString(n), 10) == n
  {
    if n >= 10 {
      var p := NatToString(n / 10);
      var r := NatToString(n);
      assert r[..|r| - 1] == p;
      NatToStringValue(n / 10);
    }
  }

  /** The digit run of a digit string followed by a non-digit is that string. */
  lemma {:induction false} DigitPrefixOfDigits(ds: string, rest: string, base: nat)
    requires AllDigits(ds, base)
    requires rest == [] || !IsDigit(rest[0], base)
    ensures DigitPrefix(ds + rest, base) == ds
  {
    if ds != [] {
      assert (ds + rest)[1..] == ds[1..] + rest;
      DigitPrefixOfDigits(ds[1..], rest, base);
    }
  }

  /** Leading whitespace never changes what `parseInt` reads. */
  lemma {:induction false} ParseIntSkipsWhitespace(w: string, s: string, radix: Radix)
    requires IsBlank(w)
    ensures ParseInt(w + s, radix) == ParseInt(s, radix)
  {
    TrimStartSkipsBlank(w, s);
  }

  lemma {:induction false} TrimStartSkipsBlank(w: string, s: string)
    requires IsBlank(w)
    ensures TrimStart(w + s) == TrimStart(s)
  {
    if w == [] {
      assert w + s == s;
    } else {
      assert IsWhitespace((w + s)[0]);
      assert (w + s)[1..] == w[1..] + s;
      assert IsBlank(w[1..]) by {
        forall i | 0 <= i < |w| - 1 ensures IsWhitespace(w[1..][i]) {
          assert w[1..][i] == w[i + 1];
        }
      }
      TrimStartSkipsBlank(w[1..], s);
    }
  }

  /** A string holding no decimal digit parses to `NaN`, whatever the radix. */
  lemma NoDigitParsesToNaN(s: string, radix: Radix)
    requires forall i :: 0 <= i < |s| ==> !IsDigit(s[i], 10)
    ensures ParseInt(s, radix) == NaN
  {
    var t := TrimStart(s);
    var u := if |t| > 0 && (t[0] == '-' || t[0] == '+') then t[1..] else t;
    assert u == s[|s| - |u|..];
    assert u == [] || !IsDigit(u[0], 10) by {
      if u != [] {
        assert u[0] == s[|s| - |u|];
      }
    }
    NoLeadingDigitIsNaN(u, radix);
    assert ParseSigned(t, radix) == NaN;
  }

  /** A magnitude that does not start with a decimal digit has no digit run,
      and cannot start with the `0x` prefix either. */
  lemma NoLeadingDigitIsNaN(u: string, radix: Radix)
    requires u == [] || !IsDigit(u[0], 10)
    ensures ParseMagnitude(u, radix) == NaN
  {
    assert IsDigit('0', 10);
    assert DigitPrefix(u, 10) == [];
  }

  /** `parseInt` reads back the decimal text of any integer, whatever follows
      it, as long as what follows cannot continue the number (with the radix
      omitted, a lone `0` followed by `x` would start a hexadecimal number;
      after any other number an `x` simply ends it). */
  lemma ParseIntOfIntToString(n: int, rest: string, radix: Radix)
    requires rest == [] || !IsDigit(rest[0], 10)
    requires radix == Omitted && n == 0 ==> rest == [] || (rest[0] != 'x' && rest[0] != 'X')
    ensures ParseInt(IntToString(n) + rest, radix) == Int(n)
  {
    var m: nat := if n < 0 then -n else n;
    MagnitudeOfNatToString(m, rest, radix);
    ParseSignedOfIntToString(n, rest, radix);
  }

  /** The magnitude part: the decimal text of `m`, followed by text that
      cannot continue it, reads as `m`. */
  lemma MagnitudeOfNatToString(m: nat, rest: string, radix: Radix)
    requires rest == [] || !IsDigit(rest[0], 10)
    requires radix == Omitted && m == 0 ==> rest == [] || (rest[0] != 'x' && rest[0] != 'X')
    ensures ParseMagnitude(NatToString(m) + rest, radix) == Int(m)
  {
    var digits := NatToString(m);
    var u := digits + rest;
    assert !(radix == Omitted && HasHexPrefix(u)) by {
      if radix == Omitted && |u| >= 2 && u[0] == '0' {
        assert digits[0] == '0' && m == 0;
        assert u[1] == rest[0];
      }
    }
    DigitPrefixOfDigits(digits, rest, 10);
    NatToStringValue(m);
  }

  lemma ParseSignedOfIntToString(n: int, rest: string, radix: Radix)
    ensures var m: nat := if n < 0 then -n else n;
      ParseInt(IntToString(n) + rest, radix)
      == (if n < 0 then Negate(ParseMagnitude(NatToString(m) + rest, radix))
          else ParseMagnitude(NatToString(m) + rest, radix))
  {
    if n < 0 {
      var d := NatToString(-n);
      var s := "-" + d + rest;
      assert IntToString(n) + rest == s;
      assert s[0] == '-';
      NotWhitespace(s[0]);
      assert s[1..] == d + rest;
    } else {
      var s := NatToString(n) + rest;
      assert IntToString(n) + rest == s;
      assert IsDigit(s[0], 10);
      NotWhitespace(s[0]);
    }
  }

  /** A sign or a decimal digit is not whitespace, so `parseInt` starts at it. */
  lemma NotWhitespace(c: char)
    requires c == '-' || IsDigit(c, 10)
    ensures !IsWhitespace(c) && (IsDigit(c, 10) ==> c != '-' && c != '+')
  {
  }
}
