/**
 * The two input masks of the checkout form, `formatCPF` and `formatPhone`.
 * Each strips the non-digits and then runs a chain of single (non-global)
 * regular-expression replacements. A pattern made of `\d` groups first
 * matches at the leftmost run of enough consecutive digits, which is what
 * `FirstDigitRun` finds; the anchored `(-\d{m})\d+?$` first matches at the
 * leftmost dash followed by more than `m` digits up to the end of the string.
 */
module InputMasks {
  import opened Wrappers
  import opened Text

  function Min(a: int, b: int): int { if a < b then a else b }

  /** `n` consecutive digits start at position `i` of `s`. */
  predicate DigitRunAt(s: string, i: nat, n: nat)
  {
    i + n <= |s| && forall k :: i <= k < i + n ==> IsDigit(s[k])
  }

  /** Where a pattern of `n` digits first matches in `s`, trying the start positions from `from` on. */
  function FirstDigitRun(s: string, n: nat, from: nat := 0): (r: Option<nat>)
    decreases |s| + 1 - from
    ensures r.Some? ==> from <= r.value && DigitRunAt(s, r.value, n)
    ensures r.Some? ==> forall j :: from <= j < r.value ==> !DigitRunAt(s, j, n)
    ensures r.None? ==> forall j: nat :: from <= j ==> !DigitRunAt(s, j, n)
  {
    if from > |s| then None
    else if DigitRunAt(s, from, n) then Some(from)
    else FirstDigitRun(s, n, from + 1)
  }

  /**
   * `s.replace(/(\d{k})(\d…)/, pre + "$1" + mid + "$2")`: at the first run of
   * `n` digits, `pre` is put before it and `mid` after its first `k` digits.
   * For `(\d{3})(\d{1,2})` the greedy second group is written back unchanged,
   * so it behaves as a run of four digits split after three.
   */
  function ReplaceFirstRun(s: string, n: nat, k: nat, pre: string, mid: string): string
    requires k <= n
  {
    match FirstDigitRun(s, n)
    case None => s
    case Some(i) => s[..i] + pre + s[i..i + k] + mid + s[i + k..]
  }

  /** `(-\d{m})\d+?$` matches at `i`: a dash, `m` digits, then at least one more digit up to the end. */
  predicate DashTailAt(s: string, i: nat, m: nat)
  {
    i + 1 + m < |s| && s[i] == '-' && forall k :: i < k < |s| ==> IsDigit(s[k])
  }

  /** Where `(-\d{m})\d+?$` first matches in `s`, trying the start positions from `from` on. */
  function FirstDashTail(s: string, m: nat, from: nat := 0): (r: Option<nat>)
    decreases |s| - from
    ensures r.Some? ==> from <= r.value && DashTailAt(s, r.value, m)
    ensures r.Some? ==> forall j :: from <= j < r.value ==> !DashTailAt(s, j, m)
    ensures r.None? ==> forall j: nat :: from <= j ==> !DashTailAt(s, j, m)
  {
    if from >= |s| then None
    else if DashTailAt(s, from, m) then Some(from)
    else FirstDashTail(s, m, from + 1)
  }

  /** `s.replace(/(-\d{m})\d+?$/, "$1")`: the digits after the dash are cut to `m`. */
  function CutDashTail(s: string, m: nat): string
  {
    match FirstDashTail(s, m)
    case None => s
    case Some(i) => s[..i + 1 + m]
  }

  /** `formatCPF`. */
  function FormatCPF(value: string): string
  {
    MaskCpf(Digits(value))
  }

  /** The replacements `formatCPF` applies once the non-digits are gone. */
  function MaskCpf(s0: string): string
  {
    var s1 := ReplaceFirstRun(s0, 4, 3, "", ".");   // (\d{3})(\d) -> $1.$2
    var s2 := ReplaceFirstRun(s1, 4, 3, "", ".");   // (\d{3})(\d) -> $1.$2
    var s3 := ReplaceFirstRun(s2, 4, 3, "", "-");   // (\d{3})(\d{1,2}) -> $1-$2
    CutDashTail(s3, 2)                               // (-\d{2})\d+?$ -> $1
  }

  /** `formatPhone`. */
  function FormatPhone(value: string): string
  {
    MaskPhone(Digits(value))
  }

  /** The replacements `formatPhone` applies once the non-digits are gone. */
  function MaskPhone(s0: string): string
  {
    var s1 := ReplaceFirstRun(s0, 3, 2, "(", ") ");  // (\d{2})(\d) -> ($1) $2
    var s2 := ReplaceFirstRun(s1, 6, 5, "", "-");    // (\d{5})(\d) -> $1-$2
    CutDashTail(s2, 4)                                // (-\d{4})\d+?$ -> $1
  }

  /** The CPF a string of digits is shown as: `ddd.ddd.ddd-dd`, as far as the digits go. */
  function CpfShape(d: string): string
  {
    if |d| <= 3 then d
    else if |d| <= 6 then d[..3] + "." + d[3..]
    else if |d| <= 9 then d[..3] + "." + d[3..6] + "." + d[6..]
    else d[..3] + "." + d[3..6] + "." + d[6..9] + "-" + d[9..Min(|d|, 11)]
  }

  /** The phone number a string of digits is shown as: `(dd) ddddd-dddd`, as far as the digits go. */
  function PhoneShape(d: string): string
  {
    if |d| < 3 then d
    else if |d| < 8 then "(" + d[..2] + ") " + d[2..]
    else "(" + d[..2] + ") " + d[2..7] + "-" + d[7..Min(|d|, 11)]
  }

  // Where the patterns match.

  lemma RunAtFront(s: string, n: nat)
    requires AllDigits(s) && |s| >= n
    ensures FirstDigitRun(s, n) == Some(0)
  {
    assert DigitRunAt(s, 0, n);
  }

  lemma NoRunInShort(s: string, n: nat)
    requires |s| < n
    ensures FirstDigitRun(s, n) == None
  {
  }

  /** After a run-free prefix and a separator, the first run starts right after the separator, if the digits there are enough. */
  lemma {:induction false} RunAfterSeparator(a: string, c: char, b: string, n: nat)
    requires n > 0 && !IsDigit(c) && AllDigits(b)
    requires FirstDigitRun(a, n) == None
    ensures FirstDigitRun(a + [c] + b, n) == if |b| >= n then Some(|a| + 1) else None
  {
    var s := a + [c] + b;
    assert s == a + ([c] + b);
    forall j: nat | j <= |a| ensures !DigitRunAt(s, j, n) {
      if j + n <= |a| {
        RunInPrefix(a, [c] + b, j, n);
      } else {
        assert !IsDigit(s[|a|]);
      }
    }
    if |b| >= n {
      assert DigitRunAt(s, |a| + 1, n) by {
        forall k | |a| + 1 <= k < |a| + 1 + n ensures IsDigit(s[k]) { assert s[k] == b[k - |a| - 1]; }
      }
    } else {
      forall j: nat ensures !DigitRunAt(s, j, n) {
        if j > |a| { assert j + n > |s|; }
      }
    }
  }

  lemma RunInPrefix(a: string, t: string, j: nat, n: nat)
    requires j + n <= |a|
    ensures DigitRunAt(a + t, j, n) == DigitRunAt(a, j, n)
  {
    assert forall k :: j <= k < j + n ==> (a + t)[k] == a[k];
  }

  lemma NoDashTail(s: string, m: nat)
    requires forall k :: 0 <= k < |s| ==> s[k] != '-'
    ensures FirstDashTail(s, m) == None
  {
  }

  /** A dash after dash-free text, followed by digits only, matches when more than `m` digits follow. */
  lemma DashTailAfter(a: string, b: string, m: nat)
    requires forall k :: 0 <= k < |a| ==> a[k] != '-'
    requires AllDigits(b)
    ensures FirstDashTail(a + "-" + b, m) == if |b| > m then Some(|a|) else None
  {
    var s := a + "-" + b;
    forall j: nat | j != |a| ensures !DashTailAt(s, j, m) {
      if j < |a| {
        assert s[j] == a[j];
      } else if j < |s| {
        assert s[j] == b[j - |a| - 1];
      }
    }
    if |b| > m {
      assert DashTailAt(s, |a|, m) by {
        forall k | |a| < k < |s| ensures IsDigit(s[k]) { assert s[k] == b[k - |a| - 1]; }
      }
    }
  }

  // What each replacement produces.

  lemma ReplaceOnDigits(d: string, n: nat, k: nat, pre: string, mid: string)
    requires k <= n && AllDigits(d)
    ensures ReplaceFirstRun(d, n, k, pre, mid) == if |d| >= n then pre + d[..k] + mid + d[k..] else d
  {
    if |d| >= n {
      RunAtFront(d, n);
    } else {
      NoRunInShort(d, n);
    }
  }

  lemma ReplaceAfterSeparator(a: string, c: char, b: string, n: nat, k: nat, pre: string, mid: string)
    requires 0 < n && k <= n && !IsDigit(c) && AllDigits(b)
    requires FirstDigitRun(a, n) == None
    ensures ReplaceFirstRun(a + [c] + b, n, k, pre, mid)
         == if |b| >= n then a + [c] + pre + b[..k] + mid + b[k..] else a + [c] + b
  {
    RunAfterSeparator(a, c, b, n);
    var s := a + [c] + b;
    if |b| >= n {
      var i := |a| + 1;
      assert s[..i] == a + [c];
      assert s[i..i + k] == b[..k];
      assert s[i + k..] == b[k..];
    }
  }

  /** Text without digits followed by at most `n - 1` digits holds no run of `n`. */
  lemma NoRunAfterSeparator(a: string, c: char, b: string, n: nat)
    requires 0 < n && !IsDigit(c) && AllDigits(b) && |b| < n
    requires FirstDigitRun(a, n) == None
    ensures FirstDigitRun(a + [c] + b, n) == None
  {
    RunAfterSeparator(a, c, b, n);
  }

  lemma CutAfterDash(a: string, b: string, m: nat)
    requires forall k :: 0 <= k < |a| ==> a[k] != '-'
    requires AllDigits(b)
    ensures CutDashTail(a + "-" + b, m) == if |b| > m then a + "-" + b[..m] else a + "-" + b
  {
    DashTailAfter(a, b, m);
    if |b| > m {
      assert (a + "-" + b)[..|a| + 1 + m] == a + "-" + b[..m];
    }
  }

  lemma CpfFirstDot(d: string)
    requires AllDigits(d) && |d| >= 4
    ensures ReplaceFirstRun(d, 4, 3, "", ".") == d[..3] + ['.'] + d[3..]
  {
    ReplaceOnDigits(d, 4, 3, "", ".");
  }

  lemma CpfSecondDot(d: string)
    requires AllDigits(d) && |d| >= 4
    ensures var s1 := d[..3] + ['.'] + d[3..];
      ReplaceFirstRun(s1, 4, 3, "", ".")
      == if |d| >= 7 then (d[..3] + ['.'] + d[3..6]) + ['.'] + d[6..] else s1
  {
    NoRunInShort(d[..3], 4);
    ReplaceAfterSeparator(d[..3], '.', d[3..], 4, 3, "", ".");
    if |d| >= 7 {
      assert d[3..][..3] == d[3..6] && d[3..][3..] == d[6..];
    }
  }

  lemma CpfNoDashBeforeSeven(d: string)
    requires AllDigits(d) && 4 <= |d| < 7
    ensures var s1 := d[..3] + ['.'] + d[3..];
      ReplaceFirstRun(s1, 4, 3, "", "-") == s1 && CutDashTail(s1, 2) == s1
  {
    NoRunInShort(d[..3], 4);
    NoRunAfterSeparator(d[..3], '.', d[3..], 4);
    NoDashTail(d[..3] + ['.'] + d[3..], 2);
  }

  lemma CpfDash(d: string)
    requires AllDigits(d) && |d| >= 7
    ensures var a2 := d[..3] + ['.'] + d[3..6];
      ReplaceFirstRun(a2 + ['.'] + d[6..], 4, 3, "", "-")
      == if |d| >= 10 then (a2 + ['.'] + d[6..9]) + "-" + d[9..] else a2 + ['.'] + d[6..]
  {
    var a2 := d[..3] + ['.'] + d[3..6];
    NoRunInShort(d[..3], 4);
    NoRunAfterSeparator(d[..3], '.', d[3..6], 4);
    ReplaceAfterSeparator(a2, '.', d[6..], 4, 3, "", "-");
    if |d| >= 10 {
      assert d[6..][..3] == d[6..9] && d[6..][3..] == d[9..];
    }
  }

  lemma CpfCut(d: string)
    requires AllDigits(d) && |d| >= 7
    ensures var s2 := d[..3] + ['.'] + d[3..6] + ['.'] + d[6..];
      |d| < 10 ==> CutDashTail(s2, 2) == s2
    ensures |d| >= 10 ==> var a3 := d[..3] + ['.'] + d[3..6] + ['.'] + d[6..9];
      CutDashTail(a3 + "-" + d[9..], 2) == a3 + "-" + d[9..Min(|d|, 11)]
  {
    if |d| < 10 {
      NoDashTail(d[..3] + ['.'] + d[3..6] + ['.'] + d[6..], 2);
    } else {
      var a3 := d[..3] + ['.'] + d[3..6] + ['.'] + d[6..9];
      CutAfterDash(a3, d[9..], 2);
      if |d| > 11 {
        assert d[9..][..2] == d[9..11];
      } else {
        assert d[9..] == d[9..|d|];
      }
    }
  }

  /** The replacement chain of `formatCPF` lays a string of digits out as `ddd.ddd.ddd-dd`. */
  lemma MaskCpfIsShape(d: string)
    requires AllDigits(d)
    ensures MaskCpf(d) == CpfShape(d)
  {
    if |d| < 4 {
      ReplaceOnDigits(d, 4, 3, "", ".");
      NoDashTail(d, 2);
    } else {
      CpfFirstDot(d);
      CpfSecondDot(d);
      if |d| < 7 {
        CpfNoDashBeforeSeven(d);
      } else {
        CpfDash(d);
        CpfCut(d);
      }
    }
  }

  /** `formatCPF` gives the digits of its input laid out as `ddd.ddd.ddd-dd`. */
  lemma FormatCPFIsShape(value: string)
    ensures FormatCPF(value) == CpfShape(Digits(value))
  {
    MaskCpfIsShape(Digits(value));
  }

  lemma PhoneParens(d: string)
    requires AllDigits(d)
    ensures ReplaceFirstRun(d, 3, 2, "(", ") ") == if |d| >= 3 then "(" + d[..2] + ")" + [' '] + d[2..] else d
  {
    ReplaceOnDigits(d, 3, 2, "(", ") ");
  }

  lemma PhoneDash(d: string)
    requires AllDigits(d) && |d| >= 3
    ensures var a1 := "(" + d[..2] + ")";
      ReplaceFirstRun(a1 + [' '] + d[2..], 6, 5, "", "-")
      == if |d| >= 8 then (a1 + [' '] + d[2..7]) + "-" + d[7..] else a1 + [' '] + d[2..]
  {
    var a1 := "(" + d[..2] + ")";
    NoRunInShort(a1, 6);
    ReplaceAfterSeparator(a1, ' ', d[2..], 6, 5, "", "-");
    if |d| >= 8 {
      assert d[2..][..5] == d[2..7] && d[2..][5..] == d[7..];
    }
  }

  lemma PhoneCut(d: string)
    requires AllDigits(d) && |d| >= 3
    ensures var s1 := "(" + d[..2] + ")" + [' '] + d[2..];
      |d| < 8 ==> CutDashTail(s1, 4) == s1
    ensures |d| >= 8 ==> var a2 := "(" + d[..2] + ")" + [' '] + d[2..7];
      CutDashTail(a2 + "-" + d[7..], 4) == a2 + "-" + d[7..Min(|d|, 11)]
  {
    if |d| < 8 {
      NoDashTail("(" + d[..2] + ")" + [' '] + d[2..], 4);
    } else {
      var a2 := "(" + d[..2] + ")" + [' '] + d[2..7];
      CutAfterDash(a2, d[7..], 4);
      if |d| > 11 {
        assert d[7..][..4] == d[7..11];
      } else {
        assert d[7..] == d[7..|d|];
      }
    }
  }

  /** The replacement chain of `formatPhone` lays a string of digits out as `(dd) ddddd-dddd`. */
  lemma MaskPhoneIsShape(d: string)
    requires AllDigits(d)
    ensures MaskPhone(d) == PhoneShape(d)
  {
    PhoneParens(d);
    if |d| < 3 {
      NoRunInShort(d, 6);
      NoDashTail(d, 4);
    } else {
      PhoneDash(d);
      PhoneCut(d);
    }
  }

  /** `formatPhone` gives the digits of its input laid out as `(dd) ddddd-dddd`. */
  lemma FormatPhoneIsShape(value: string)
    ensures FormatPhone(value) == PhoneShape(Digits(value))
  {
    MaskPhoneIsShape(Digits(value));
  }

  // What the shapes promise.

  /** The CPF mask as the form's placeholder shows it: each `0` stands for one digit. */
  const CpfMask: string := "000.000.000-00"
  /** The phone mask: each `0` stands for one digit. */
  const PhoneMask: string := "(00) 00000-0000"

  /** `s` agrees with the start of `mask`: digits where it has `0`, its other characters elsewhere. */
  predicate FitsMask(s: string, mask: string)
  {
    |s| <= |mask| && forall i :: 0 <= i < |s| ==> if mask[i] == '0' then IsDigit(s[i]) else s[i] == mask[i]
  }

  /** Separators between digit groups disappear when the digits are extracted again. */
  lemma DigitsAround(a: string, sep: string, b: string)
    requires AllDigits(a) && forall i :: 0 <= i < |sep| ==> !IsDigit(sep[i])
    ensures Digits(a + sep + b) == a + Digits(b)
  {
    DigitsConcat(a + sep, b);
    DigitsConcat(a, sep);
    DigitsOfDigits(a);
    DigitsOfSeparators(sep);
  }

  lemma DigitsOfCpfShape(d: string)
    requires AllDigits(d)
    ensures Digits(CpfShape(d)) == d[..Min(|d|, 11)]
  {
    if |d| <= 3 {
      DigitsOfDigits(d);
    } else if |d| <= 6 {
      DigitsAround(d[..3], ".", d[3..]);
      DigitsOfDigits(d[3..]);
      assert d[..3] + d[3..] == d;
    } else if |d| <= 9 {
      DigitsOfCpfThreeGroups(d);
    } else {
      DigitsOfCpfFourGroups(d);
    }
  }

  lemma DigitsOfCpfThreeGroups(d: string)
    requires AllDigits(d) && 6 < |d| <= 9
    ensures Digits(CpfShape(d)) == d
  {
    assert CpfShape(d) == d[..3] + "." + (d[3..6] + "." + d[6..]);
    DigitsAround(d[..3], ".", d[3..6] + "." + d[6..]);
    DigitsAround(d[3..6], ".", d[6..]);
    DigitsOfDigits(d[6..]);
    assert d[..3] + (d[3..6] + d[6..]) == d;
  }

  lemma DigitsOfCpfFourGroups(d: string)
    requires AllDigits(d) && 9 < |d|
    ensures Digits(CpfShape(d)) == d[..Min(|d|, 11)]
  {
    var t := Min(|d|, 11);
    assert CpfShape(d) == d[..3] + "." + (d[3..6] + "." + (d[6..9] + "-" + d[9..t]));
    DigitsAround(d[..3], ".", d[3..6] + "." + (d[6..9] + "-" + d[9..t]));
    DigitsAround(d[3..6], ".", d[6..9] + "-" + d[9..t]);
    DigitsAround(d[6..9], "-", d[9..t]);
    DigitsOfDigits(d[9..t]);
    assert d[..3] + (d[3..6] + (d[6..9] + d[9..t])) == d[..t];
  }

  lemma DigitsOfPhoneShape(d: string)
    requires AllDigits(d)
    ensures Digits(PhoneShape(d)) == d[..Min(|d|, 11)]
  {
    if |d| < 3 {
      DigitsOfDigits(d);
    } else if |d| < 8 {
      DigitsOfShortPhone(d);
    } else {
      DigitsOfLongPhone(d);
    }
  }

  lemma DigitsOfShortPhone(d: string)
    requires AllDigits(d) && 3 <= |d| < 8
    ensures Digits("(" + d[..2] + ") " + d[2..]) == d
  {
    assert "(" + d[..2] + ") " + d[2..] == [] + "(" + (d[..2] + ") " + d[2..]);
    DigitsAround([], "(", d[..2] + ") " + d[2..]);
    DigitsAround(d[..2], ") ", d[2..]);
    DigitsOfDigits(d[2..]);
    assert d[..2] + d[2..] == d;
  }

  lemma DigitsOfLongPhone(d: string)
    requires AllDigits(d) && 8 <= |d|
    ensures var t := Min(|d|, 11); Digits("(" + d[..2] + ") " + d[2..7] + "-" + d[7..t]) == d[..t]
  {
    var t := Min(|d|, 11);
    var rest := d[2..7] + "-" + d[7..t];
    assert "(" + d[..2] + ") " + d[2..7] + "-" + d[7..t] == [] + "(" + (d[..2] + ") " + rest);
    DigitsAround([], "(", d[..2] + ") " + rest);
    DigitsAround(d[..2], ") ", rest);
    DigitsAround(d[2..7], "-", d[7..t]);
    DigitsOfDigits(d[7..t]);
    assert d[..2] + (d[2..7] + d[7..t]) == d[..t];
  }

  lemma CpfShapeFitsMask(d: string)
    requires AllDigits(d)
    ensures FitsMask(CpfShape(d), CpfMask)
  {
    var r := CpfShape(d);
    forall i | 0 <= i < |r| ensures if CpfMask[i] == '0' then IsDigit(r[i]) else r[i] == CpfMask[i] {
      if i < 3 { assert r[i] == d[i]; }
      else if i == 3 { }
      else if i < 7 { assert r[i] == d[i - 1]; }
      else if i == 7 { }
      else if i < 11 { assert r[i] == d[i - 2]; }
      else if i == 11 { }
      else { assert r[i] == d[i - 3]; }
    }
  }

  lemma PhoneShapeFitsMask(d: string)
    requires AllDigits(d) && |d| >= 3
    ensures FitsMask(PhoneShape(d), PhoneMask)
  {
    var r := PhoneShape(d);
    forall i | 0 <= i < |r| ensures if PhoneMask[i] == '0' then IsDigit(r[i]) else r[i] == PhoneMask[i] {
      if i == 0 { }
      else if i < 3 { assert r[i] == d[i - 1]; }
      else if i < 5 { }
      else if i < 10 { assert r[i] == d[i - 3]; }
      else if i == 10 { }
      else { assert r[i] == d[i - 4]; }
    }
  }

  /** `formatCPF` keeps the digits of its input, in order, up to eleven of them. */
  lemma FormatCPFKeepsDigits(value: string)
    ensures var d := Digits(value); Digits(FormatCPF(value)) == d[..Min(|d|, 11)]
  {
    FormatCPFIsShape(value);
    DigitsOfCpfShape(Digits(value));
  }

  /** What `formatCPF` shows is always a beginning of `000.000.000-00`. */
  lemma FormatCPFFitsMask(value: string)
    ensures FitsMask(FormatCPF(value), CpfMask)
  {
    FormatCPFIsShape(value);
    CpfShapeFitsMask(Digits(value));
  }

  /** Digits past the eleventh never show in the CPF. */
  lemma CpfShapeTruncates(d: string)
    requires AllDigits(d)
    ensures CpfShape(d[..Min(|d|, 11)]) == CpfShape(d)
  {
    var e := d[..Min(|d|, 11)];
    if |d| > 11 {
      assert e[..3] == d[..3] && e[3..6] == d[3..6] && e[6..9] == d[6..9] && e[9..11] == d[9..11];
    } else {
      assert e == d;
    }
  }

  /** Formatting what `formatCPF` already formatted changes nothing. */
  lemma FormatCPFIdempotent(value: string)
    ensures FormatCPF(FormatCPF(value)) == FormatCPF(value)
  {
    var d := Digits(value);
    FormatCPFIsShape(value);
    FormatCPFIsShape(FormatCPF(value));
    DigitsOfCpfShape(d);
    CpfShapeTruncates(d);
  }

  /** `formatPhone` keeps the digits of its input, in order, up to eleven of them. */
  lemma FormatPhoneKeepsDigits(value: string)
    ensures var d := Digits(value); Digits(FormatPhone(value)) == d[..Min(|d|, 11)]
  {
    FormatPhoneIsShape(value);
    DigitsOfPhoneShape(Digits(value));
  }

  /** From the third digit on, what `formatPhone` shows is a beginning of `(00) 00000-0000`; before that it is the bare digits. */
  lemma FormatPhoneFitsMask(value: string)
    ensures |Digits(value)| >= 3 ==> FitsMask(FormatPhone(value), PhoneMask)
    ensures |Digits(value)| < 3 ==> FormatPhone(value) == Digits(value)
  {
    FormatPhoneIsShape(value);
    if |Digits(value)| >= 3 {
      PhoneShapeFitsMask(Digits(value));
    }
  }

  /** Digits past the eleventh never show in the phone number. */
  lemma PhoneShapeTruncates(d: string)
    requires AllDigits(d)
    ensures PhoneShape(d[..Min(|d|, 11)]) == PhoneShape(d)
  {
    var e := d[..Min(|d|, 11)];
    if |d| > 11 {
      assert e[..2] == d[..2] && e[2..7] == d[2..7] && e[7..11] == d[7..11];
    } else {
      assert e == d;
    }
  }

  /** Formatting what `formatPhone` already formatted changes nothing. */
  lemma FormatPhoneIdempotent(value: string)
    ensures FormatPhone(FormatPhone(value)) == FormatPhone(value)
  {
    var d := Digits(value);
    FormatPhoneIsShape(value);
    FormatPhoneIsShape(FormatPhone(value));
    DigitsOfPhoneShape(d);
    PhoneShapeTruncates(d);
  }
}
