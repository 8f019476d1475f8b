/**
 * The JavaScript string built-ins the storefront relies on: `replace(/\D/g, "")`,
 * `trim()`, `split(",")[0]`, `Number.parseInt` and number-to-string conversion.
 * Characters are Unicode scalar values; JavaScript's UTF-16 code units are not modelled.
 */
module Text {
  import opened Wrappers
  import opened Sequences

  /** `\d` in a JavaScript regular expression: an ASCII digit. */
  predicate IsDigit(c: char) { '0' <= c <= '9' }

  predicate AllDigits(s: string) { forall i :: 0 <= i < |s| ==> IsDigit(s[i]) }

  /** `s.replace(/\D/g, "")`: every character that is not a digit removed. */
  function Digits(s: string): (r: string)
    ensures AllDigits(r) && |r| <= |s|
  {
    Filter(s, IsDigit)
  }

  lemma DigitsConcat(a: string, b: string)
    ensures Digits(a + b) == Digits(a) + Digits(b)
  {
    FilterConcat(a, b, IsDigit);
  }

  /** A string of digits is left as it is. */
  lemma DigitsOfDigits(s: string)
    requires AllDigits(s)
    ensures Digits(s) == s
  {
    FilterKeepsAll(s, IsDigit);
  }

  /** A string without digits is removed entirely. */
  lemma DigitsOfSeparators(s: string)
    requires forall i :: 0 <= i < |s| ==> !IsDigit(s[i])
    ensures Digits(s) == []
  {
    FilterDropsAll(s, IsDigit);
  }

  /** The digits kept are the input's digits, in their original order. */
  lemma DigitsInOrder(s: string)
    ensures IsSubsequence(Digits(s), s)
  {
    FilterIsSubsequence(s, IsDigit);
  }

  lemma DigitsIdempotent(s: string)
    ensures Digits(Digits(s)) == Digits(s)
  {
    DigitsOfDigits(Digits(s));
  }

  /**
   * The characters `trim()` and `parseInt` skip: ECMAScript's WhiteSpace
   * (tab, vertical tab, form feed, no-break space, byte order mark and the
   * space separators) and LineTerminator.
   */
  predicate IsWhitespace(c: char)
  {
    || '\t' <= c <= '\r'  // tab, line feed, vertical tab, form feed, carriage return
    || c == ' ' || c == '\U{00A0}' || c == '\U{1680}'
    || '\U{2000}' <= c <= '\U{200A}'
    || c == '\U{2028}' || c == '\U{2029}' || c == '\U{202F}' || c == '\U{205F}'
    || c == '\U{3000}' || c == '\U{FEFF}'
  }

  /** `s` with its leading whitespace removed: a suffix of `s` that starts with no whitespace. */
  function TrimStart(s: string): (r: string)
    ensures |r| <= |s| && r == s[|s| - |r|..]
    ensures r == [] || !IsWhitespace(r[0])
  {
    if s != [] && IsWhitespace(s[0]) then TrimStart(s[1..]) else s
  }

  /** `s` with its trailing whitespace removed: a prefix of `s` that ends with no whitespace. */
  function TrimEnd(s: string): (r: string)
    ensures |r| <= |s| && r == s[..|r|]
    ensures r == [] || !IsWhitespace(r[|r| - 1])
  {
    if s != [] && IsWhitespace(s[|s| - 1]) then TrimEnd(s[..|s| - 1]) else s
  }

  /** Only whitespace is removed from the front. */
  lemma {:induction false} TrimStartRemovesWhitespace(s: string)
    ensures forall i :: 0 <= i < |s| - |TrimStart(s)| ==> IsWhitespace(s[i])
    decreases |s|
  {
    if s != [] && IsWhitespace(s[0]) {
      TrimStartRemovesWhitespace(s[1..]);
      forall i | 1 <= i < |s| - |TrimStart(s)| ensures IsWhitespace(s[i]) {
        assert s[1..][i - 1] == s[i];
      }
    }
  }

  /** Only whitespace is removed from the back. */
  lemma {:induction false} TrimEndRemovesWhitespace(s: string)
    ensures forall i :: |TrimEnd(s)| <= i < |s| ==> IsWhitespace(s[i])
    decreases |s|
  {
    if s != [] && IsWhitespace(s[|s| - 1]) {
      TrimEndRemovesWhitespace(s[..|s| - 1]);
    }
  }

  /** `s.trim()`. */
  function Trim(s: string): string
  {
    TrimEnd(TrimStart(s))
  }

  /** `!s.trim()`: nothing is left once the whitespace is trimmed. */
  predicate Blank(s: string) { Trim(s) == [] }

  /** A string is blank exactly when every one of its characters is whitespace. */
  lemma BlankIff(s: string)
    ensures Blank(s) <==> forall i :: 0 <= i < |s| ==> IsWhitespace(s[i])
  {
    var t := TrimStart(s);
    TrimStartRemovesWhitespace(s);
    if Blank(s) {
      // All of `t` would be trimmed from the back, yet `t` cannot start with whitespace.
      TrimEndRemovesWhitespace(t);
      assert t == [];
    }
  }

  /** Trimming removes whitespace only: what is left is a contiguous slice of `s`. */
  lemma TrimIsSlice(s: string)
    ensures exists i, j :: 0 <= i <= j <= |s| && Trim(s) == s[i..j]
  {
    var t := TrimStart(s);
    var r := TrimEnd(t);
    var i := |s| - |t|;
    assert t == s[i..];
    assert r == t[..|r|];
    SliceOfSuffix(s, i, |r|);
  }

  lemma SliceOfSuffix(s: string, i: nat, n: nat)
    requires i + n <= |s|
    ensures s[i..][..n] == s[i..i + n]
  {
  }

  /** What is left after trimming neither starts nor ends with whitespace. */
  lemma TrimmedEnds(s: string)
    ensures var r := Trim(s); r == [] || (!IsWhitespace(r[0]) && !IsWhitespace(r[|r| - 1]))
  {
    var t := TrimStart(s);
    var r := TrimEnd(t);
    if r != [] {
      assert r[0] == t[0];
    }
  }

  /** `s.split(",")[0]`: everything before the first comma, or all of `s` when it has none. */
  function BeforeComma(s: string): (r: string)
    ensures |r| <= |s| && r == s[..|r|]
    ensures ',' !in r
    ensures |r| < |s| ==> s[|r|] == ','
  {
    if s == [] || s[0] == ',' then [] else [s[0]] + BeforeComma(s[1..])
  }

  /** The first comma-separated entry is read back whole. */
  lemma {:induction false} BeforeCommaOf(x: string, rest: string)
    requires ',' !in x
    ensures BeforeComma(x + "," + rest) == x
  {
    if x != [] {
      assert (x + "," + rest)[1..] == x[1..] + "," + rest;
      BeforeCommaOf(x[1..], rest);
    }
  }

  /** The value of a digit in radixes up to 36; 36 for a character that is no digit at all. */
  function DigitValue(c: char): nat
  {
    if '0' <= c <= '9' then c as nat - '0' as nat
    else if 'a' <= c <= 'z' then c as nat - 'a' as nat + 10
    else if 'A' <= c <= 'Z' then c as nat - 'A' as nat + 10
    else 36
  }

  /** The longest prefix of `s` made of digits of the given radix. */
  function RadixPrefix(s: string, radix: nat): (r: string)
    ensures |r| <= |s| && r == s[..|r|]
    ensures forall i :: 0 <= i < |r| ==> DigitValue(r[i]) < radix
    ensures |r| < |s| ==> DigitValue(s[|r|]) >= radix
  {
    if s == [] || DigitValue(s[0]) >= radix then [] else [s[0]] + RadixPrefix(s[1..], radix)
  }

  /** The number a string of digits denotes in the given radix, most significant digit first. */
  function Value(z: string, radix: nat): nat
  {
    if z == [] then 0 else Value(z[..|z| - 1], radix) * radix + DigitValue(z[|z| - 1])
  }

  /**
   * `Number.parseInt(s)` with no radix argument; `None` is `NaN`. Leading
   * whitespace is skipped, one sign is read, a `0x`/`0X` prefix switches to
   * radix 16, and the longest run of digits that follows is converted.
   */
  function ParseInt(s: string): Option<int>
  {
    ParseSigned(TrimStart(s))
  }

  /** `Number.parseInt` after the leading whitespace: an optional sign, then the unsigned part. */
  function ParseSigned(t: string): Option<int>
  {
    var negative := t != [] && t[0] == '-';
    match ParseUnsigned(if t != [] && (t[0] == '-' || t[0] == '+') then t[1..] else t)
    case None => None
    case Some(v) => var x: int := v; Some(if negative then -x else x)
  }

  /** The unsigned part of `Number.parseInt`: an optional hexadecimal prefix, then digits. */
  function ParseUnsigned(u: string): Option<nat>
  {
    var hex := |u| >= 2 && u[0] == '0' && (u[1] == 'x' || u[1] == 'X');
    var radix := if hex then 16 else 10;
    var z := RadixPrefix(if hex then u[2..] else u, radix);
    if z == [] then None else Some(Value(z, radix))
  }

  /** The decimal numeral of `n`, without leading zeros. */
  function NatToString(n: nat): (r: string)
  {
    if n < 10 then ['0' + n as char]
    else NatToString(n / 10) + ['0' + (n % 10) as char]
  }

  /** JavaScript's `String(n)` (and template interpolation) for an integer. */
  function IntToString(n: int): string
  {
    if n < 0 then "-" + NatToString(-n) else NatToString(n)
  }

  lemma {:induction false} NatToStringShape(n: nat)
    ensures var r := NatToString(n);
      r != [] && AllDigits(r) && (n > 0 ==> r[0] != '0') && Value(r, 10) == n
  {
    var r := NatToString(n);
    if n >= 10 {
      NatToStringShape(n / 10);
      assert r[..|r| - 1] == NatToString(n / 10);
    }
  }

  /** Whatever the digits of a decimal string, `RadixPrefix` keeps all of them. */
  lemma DecimalPrefixIsAll(z: string)
    requires AllDigits(z)
    ensures RadixPrefix(z, 10) == z
  {
  }

  /** With a digit after the optional `-`, the sign is read and the rest is the unsigned part. */
  lemma ParseSignedDigits(u: string, negative: bool)
    requires u != [] && IsDigit(u[0])
    ensures ParseSigned(if negative then "-" + u else u)
      == match ParseUnsigned(u) case None => None case Some(v) => Some(if negative then -(v as int) else v as int)
  {
    if negative {
      var t := "-" + u;
      assert t[0] == '-' && t[1..] == u;
    }
  }

  lemma ParseUnsignedNumeral(d: string, m: nat)
    requires AllDigits(d) && d != [] && Value(d, 10) == m
    ensures ParseUnsigned(d) == Some(m)
  {
    DecimalPrefixIsAll(d);
  }

  /** `Number.parseInt` reads back every integer written in decimal. */
  lemma ParseIntToString(n: int)
    ensures ParseInt(IntToString(n)) == Some(n)
  {
    var m: nat := if n < 0 then -n else n;
    var d := NatToString(m);
    NatToStringShape(m);
    ParseUnsignedNumeral(d, m);
    ParseSignedDigits(d, n < 0);
    var s := if n < 0 then "-" + d else d;
    assert s == IntToString(n);
    NoLeadingWhitespace(s);
  }

  lemma NoLeadingWhitespace(s: string)
    requires s != [] && (s[0] == '-' || IsDigit(s[0]))
    ensures TrimStart(s) == s
  {
  }
}
