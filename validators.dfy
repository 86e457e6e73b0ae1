/**
 * The shape and checksum validators of the utility object: CPF (the Brazilian
 * taxpayer number, two mod-11 check digits), telephone digit count and the
 * e-mail pattern `^[^\s@]+@[^\s@]+\.[^\s@]+$`.
 */
module Validators {

  /** `\d` in a JavaScript regular expression: the ASCII digits only. */
  predicate IsDigit(c: char) { '0' <= c <= '9' }

  /** `parseInt` of a one-digit string. */
  function DigitValue(c: char): (v: nat)
    requires IsDigit(c)
    ensures v <= 9
  {
    c as int - '0' as int
  }

  /** `s.replace(/[^\d]+/g, '')` (equally `/\D/g`): the digits of `s`, in order. */
  function Strip(s: string): (r: string)
    ensures |r| <= |s|
    ensures forall i :: 0 <= i < |r| ==> IsDigit(r[i])
  {
    if s == [] then []
    else if IsDigit(s[0]) then [s[0]] + Strip(s[1..]) else Strip(s[1..])
  }

  /** Stripping keeps every digit, as often as it occurs, and nothing else. */
  lemma {:induction false} StripKeepsDigits(s: string, c: char)
    ensures multiset(Strip(s))[c] == if IsDigit(c) then multiset(s)[c] else 0
  {
    if s != [] {
      assert s == [s[0]] + s[1..];
      StripKeepsDigits(s[1..], c);
    }
  }

  /** Stripping distributes over concatenation. */
  lemma {:induction false} StripConcat(a: string, b: string)
    ensures Strip(a + b) == Strip(a) + Strip(b)
  {
    if a != [] {
      assert (a + b)[0] == a[0] && (a + b)[1..] == a[1..] + b;
      StripConcat(a[1..], b);
      var h := if IsDigit(a[0]) then [a[0]] else [];
      assert Strip(a + b) == h + Strip(a[1..] + b);
      assert Strip(a) == h + Strip(a[1..]);
      assert h + (Strip(a[1..]) + Strip(b)) == (h + Strip(a[1..])) + Strip(b);
    } else {
      assert a + b == b;
    }
  }

  /** A string of digits is left as it is. */
  lemma {:induction false} StripDigits(s: string)
    requires forall i :: 0 <= i < |s| ==> IsDigit(s[i])
    ensures Strip(s) == s
  {
    if s != [] { StripDigits(s[1..]); }
  }

  /** A string without digits vanishes. */
  lemma {:induction false} StripNoDigits(s: string)
    requires forall i :: 0 <= i < |s| ==> !IsDigit(s[i])
    ensures Strip(s) == []
  {
    if s != [] { StripNoDigits(s[1..]); }
  }

  /** Stripping twice is stripping once. */
  lemma StripIdempotent(s: string)
    ensures Strip(Strip(s)) == Strip(s)
  {
    StripDigits(Strip(s));
  }

  /** Inserting separators anywhere leaves the digits unchanged. */
  lemma StripSeparator(a: string, sep: string, b: string)
    requires forall i :: 0 <= i < |sep| ==> !IsDigit(sep[i])
    ensures Strip(a + sep + b) == Strip(a + b)
  {
    StripConcat(a + sep, b);
    StripConcat(a, sep);
    StripNoDigits(sep);
    StripConcat(a, b);
  }

  /** `/^(\d)\1+$/.test(s)`: at least two characters, all the same digit. */
  predicate RepeatedDigit(s: string) {
    |s| >= 2 && IsDigit(s[0]) && forall k :: 0 <= k < |s| ==> s[k] == s[0]
  }

  /** `sum` after `for (i = 1; i <= n; i++) sum += d[i-1] * (top - i)`, from 0. */
  function WeightedSum(d: string, n: nat, top: int): int
    requires n <= |d|
    requires forall i :: 0 <= i < |d| ==> IsDigit(d[i])
  {
    if n == 0 then 0 else WeightedSum(d, n - 1, top) + DigitValue(d[n - 1]) * (top - n)
  }

  /** `(sum * 10) % 11`, with a remainder of 10 or 11 replaced by 0. */
  function CheckDigit(sum: int): int {
    var r := (sum * 10) % 11;
    if r == 10 || r == 11 then 0 else r
  }

  /** The remainder is always below 11, so the test for 11 never succeeds, and the digit is 0..9. */
  lemma CheckDigitRange(sum: int)
    ensures (sum * 10) % 11 != 11
    ensures 0 <= CheckDigit(sum) <= 9
  {
  }

  /**
   * The check digit as the CPF rule is usually published: with r the sum
   * modulo 11, the digit is 0 when r < 2 and 11 - r otherwise.
   */
  function PublishedCheckDigit(sum: int): int {
    var r := sum % 11;
    if r < 2 then 0 else 11 - r
  }

  /** The source's `(10·sum) % 11` form agrees with the published rule. */
  lemma CheckDigitIsPublished(sum: int)
    ensures CheckDigit(sum) == PublishedCheckDigit(sum)
  {
    var q := sum / 11;
    var r := sum % 11;
    assert sum * 10 == 11 * (10 * q) + 10 * r;
    ModMultiple(10 * q, 10 * r);
    assert (sum * 10) % 11 == (10 * r) % 11;
    if r >= 2 {
      assert 10 * r == 11 * (r - 1) + (11 - r);
      ModMultiple(r - 1, 11 - r);
    } else if r == 1 {
      assert (10 * r) % 11 == 10;
    }
  }

  lemma ModMultiple(q: int, b: int)
    ensures (11 * q + b) % 11 == b % 11
  {
  }

  /** Both check digits of an 11-digit string agree with the digits before them. */
  predicate CheckDigitsHold(d: string)
    requires |d| == 11 && forall i :: 0 <= i < |d| ==> IsDigit(d[i])
  {
    CheckDigit(WeightedSum(d, 9, 11)) == DigitValue(d[9]) &&
    CheckDigit(WeightedSum(d, 10, 12)) == DigitValue(d[10])
  }

  /** The value `isValidCPF(cpf)` returns. */
  predicate CpfRule(cpf: string) {
    var d := Strip(cpf);
    |d| == 11 && !RepeatedDigit(d) && CheckDigitsHold(d)
  }

  /** `isValidCPF(cpf)`. */
  method IsValidCpf(cpf: string) returns (valid: bool)
    ensures valid == CpfRule(cpf)
  {
    var d := Strip(cpf);
    if |d| != 11 || RepeatedDigit(d) {
      return false;
    }
    var sum := 0;
    for i := 1 to 10
      invariant sum == WeightedSum(d, i - 1, 11)
    {
      sum := sum + DigitValue(d[i - 1]) * (11 - i);
    }
    var remainder := (sum * 10) % 11;
    if remainder == 10 || remainder == 11 {
      remainder := 0;
    }
    if remainder != DigitValue(d[9]) {
      return false;
    }
    sum := 0;
    for i := 1 to 11
      invariant sum == WeightedSum(d, i - 1, 12)
    {
      sum := sum + DigitValue(d[i - 1]) * (12 - i);
    }
    remainder := (sum * 10) % 11;
    if remainder == 10 || remainder == 11 {
      remainder := 0;
    }
    if remainder != DigitValue(d[10]) {
      return false;
    }
    return true;
  }

  /** An input whose digit count is not 11, or whose digits are all one digit, is rejected. */
  lemma CpfRejectsShape(cpf: string)
    requires |Strip(cpf)| != 11 || RepeatedDigit(Strip(cpf))
    ensures !CpfRule(cpf)
  {
  }

  /** A CPF written with its mask `ddd.ddd.ddd-dd`. */
  function Masked(d: string): string
    requires |d| == 11
  {
    d[..3] + (['.'] + (d[3..6] + (['.'] + (d[6..9] + (['-'] + d[9..])))))
  }

  /** Splitting off a prefix and stripping the separator that follows it. */
  lemma StripAfter(x: string, sep: char, y: string)
    requires !IsDigit(sep)
    ensures Strip(x + ([sep] + y)) == Strip(x) + Strip(y)
  {
    StripConcat(x, [sep] + y);
    assert ([sep] + y)[1..] == y;
  }

  /** The separators of the mask drop out. */
  lemma StripGroups(a: string, b: string, c: string, e: string)
    ensures Strip(a + (['.'] + (b + (['.'] + (c + (['-'] + e)))))) == Strip(a) + (Strip(b) + (Strip(c) + Strip(e)))
  {
    StripAfter(c, '-', e);
    StripAfter(b, '.', c + (['-'] + e));
    StripAfter(a, '.', b + (['.'] + (c + (['-'] + e))));
  }

  lemma StripJoin(a: string, b: string, c: string, e: string)
    ensures Strip(a + (b + (c + e))) == Strip(a) + (Strip(b) + (Strip(c) + Strip(e)))
  {
    StripConcat(c, e);
    StripConcat(b, c + e);
    StripConcat(a, b + (c + e));
  }

  /** The masked and the bare forms of a CPF get the same verdict. */
  lemma CpfMaskIrrelevant(d: string)
    requires |d| == 11
    ensures Strip(Masked(d)) == Strip(d)
    ensures CpfRule(Masked(d)) == CpfRule(d)
  {
    var a, b, c, e := d[..3], d[3..6], d[6..9], d[9..];
    StripGroups(a, b, c, e);
    StripJoin(a, b, c, e);
    assert d == a + (b + (c + e));
  }

  /** On a bare string of 11 digits the rule is the repeated-digit test and the two check digits. */
  lemma CpfRuleOnDigits(d: string)
    requires |d| == 11 && forall i :: 0 <= i < |d| ==> IsDigit(d[i])
    ensures CpfRule(d) == (!RepeatedDigit(d) && CheckDigitsHold(d))
  {
    StripDigits(d);
  }

  /** `m` is `d` with the dots and the dash of the mask put in. */
  lemma MaskedForm(d: string, m: string)
    requires |d| == 11 && |m| == 14
    requires m[..3] == d[..3] && m[4..7] == d[3..6] && m[8..11] == d[6..9] && m[12..] == d[9..]
    requires m[3] == '.' && m[7] == '.' && m[11] == '-'
    ensures Masked(d) == m
  {
    assert m == m[..3] + ([m[3]] + (m[4..7] + ([m[7]] + (m[8..11] + ([m[11]] + m[12..])))));
  }

  /** A masked CPF gets the verdict its digits get. */
  lemma CpfRuleOfMasked(d: string, m: string)
    requires |d| == 11 && forall i :: 0 <= i < |d| ==> IsDigit(d[i])
    requires Masked(d) == m
    ensures CpfRule(m) == (!RepeatedDigit(d) && CheckDigitsHold(d))
  {
    CpfMaskIrrelevant(d);
    CpfRuleOnDigits(d);
  }

  lemma CpfAllOnesInvalid()
    ensures !CpfRule("111.111.111-11")
  {
    var d := "11111111111";
    forall i | 0 <= i < 11 ensures d[i] == '1' { }
    MaskedForm("11111111111", "111.111.111-11");
    CpfRuleOfMasked(d, "111.111.111-11");
    assert RepeatedDigit(d);
  }

  lemma ValidExampleDigits()
    ensures forall i :: 0 <= i < 11 ==> IsDigit("52998224725"[i])
    ensures CheckDigitsHold("52998224725")
  {
    assert forall i :: 0 <= i < 11 ==> IsDigit("52998224725"[i]);
  }

  lemma CpfValidExample()
    ensures CpfRule("529.982.247-25")
  {
    var d := "52998224725";
    ValidExampleDigits();
    MaskedForm("52998224725", "529.982.247-25");
    CpfRuleOfMasked(d, "529.982.247-25");
    assert d[1] != d[0];
  }

  lemma SampleDigits()
    ensures forall i :: 0 <= i < 11 ==> IsDigit("12345678900"[i])
    ensures !CheckDigitsHold("12345678900")
  {
    assert forall i :: 0 <= i < 11 ==> IsDigit("12345678900"[i]);
  }

  lemma CorrectedDigits()
    ensures forall i :: 0 <= i < 11 ==> IsDigit("12345678909"[i])
    ensures CheckDigitsHold("12345678909")
  {
    assert forall i :: 0 <= i < 11 ==> IsDigit("12345678909"[i]);
  }

  /** The CPF of the sample client fails its second check digit. */
  lemma SampleCpfInvalid()
    ensures !CpfRule("123.456.789-00")
  {
    SampleDigits();
    MaskedForm("12345678900", "123.456.789-00");
    CpfRuleOfMasked("12345678900", "123.456.789-00");
  }

  /** With 9 as its last digit the sample CPF would pass. */
  lemma SampleCpfCorrected()
    ensures CpfRule("123.456.789-09")
  {
    var g := "12345678909";
    CorrectedDigits();
    MaskedForm("12345678909", "123.456.789-09");
    CpfRuleOfMasked(g, "123.456.789-09");
    assert g[1] != g[0];
  }

  /** `isValidPhone(phone)`: ten or eleven digits, whatever else surrounds them. */
  function IsValidPhone(phone: string): (r: bool)
    ensures r <==> 10 <= |Strip(phone)| <= 11
  {
    var cleaned := Strip(phone);
    10 <= |cleaned| <= 11
  }

  /** Separators do not change the phone verdict. */
  lemma PhoneSeparatorIrrelevant(a: string, sep: string, b: string)
    requires forall i :: 0 <= i < |sep| ==> !IsDigit(sep[i])
    ensures IsValidPhone(a + sep + b) == IsValidPhone(a + b)
  {
    StripSeparator(a, sep, b);
  }

  lemma PhoneEleven()
    ensures IsValidPhone("11987654321")
  {
  }

  lemma PhoneNine()
    ensures !IsValidPhone("98765-4321")
  {
  }

  /** `\s`: the white-space and line-terminator characters of ECMAScript. */
  predicate IsJsSpace(c: char) {
    c == '\t' || c == '\n' || c == '\U{000B}' || c == '\U{000C}' || c == '\r' || c == ' ' ||
    c == '\U{00A0}' || c == '\U{1680}' || '\U{2000}' <= c <= '\U{200A}' ||
    c == '\U{2028}' || c == '\U{2029}' || c == '\U{202F}' || c == '\U{205F}' ||
    c == '\U{3000}' || c == '\U{FEFF}'
  }

  /** `[^\s@]`. */
  predicate EmailChar(c: char) { !IsJsSpace(c) && c != '@' }

  /**
   * The strings `^[^\s@]+@[^\s@]+\.[^\s@]+$` matches: an `@` at `at` and a
   * `.` at `dot` splitting the string into three non-empty runs of
   * `[^\s@]`. The `.` itself is such a character, so every position but the
   * `@` holds one.
   */
  predicate EmailPattern(e: string) {
    exists at, dot :: 0 < at && at + 1 < dot < |e| - 1 && e[at] == '@' && e[dot] == '.' &&
      forall k :: 0 <= k < |e| && k != at ==> EmailChar(e[k])
  }

  /** The index of the first `c` in `s`, or -1. */
  function IndexOf(s: string, c: char): (k: int)
    ensures k >= -1
    ensures k == -1 <==> c !in s
    ensures k >= 0 ==> k < |s| && s[k] == c && c !in s[..k]
  {
    if s == [] then -1
    else if s[0] == c then 0
    else
      var k := IndexOf(s[1..], c);
      assert s == [s[0]] + s[1..];
      if k == -1 then -1
      else
        assert s[..k + 1] == [s[0]] + s[1..][..k];
        k + 1
  }

  /** `isValidEmail(email)`, checked condition by condition. */
  function IsValidEmail(email: string): (r: bool)
    ensures r <==> EmailPattern(email)
  {
    EmailEquivalence(email);
    EmailConditions(email)
  }

  /** The three conditions `isValidEmail` amounts to, in terms of the first `@`. */
  predicate EmailConditions(e: string) {
    var at := IndexOf(e, '@');
    (forall k :: 0 <= k < |e| ==> !IsJsSpace(e[k])) &&
    multiset(e)['@'] == 1 &&
    at > 0 &&
    exists dot :: at + 1 < dot < |e| - 1 && e[dot] == '.'
  }

  /**
   * The pattern matches exactly when there is no white space and exactly one
   * `@`, with text before it and a `.` with text on both sides after it.
   */
  lemma EmailEquivalence(e: string)
    ensures EmailPattern(e) <==> EmailConditions(e)
  {
    if EmailPattern(e) { PatternGivesConditions(e); }
    if EmailConditions(e) { ConditionsGivePattern(e); }
  }

  lemma PatternGivesConditions(e: string)
    requires EmailPattern(e)
    ensures EmailConditions(e)
  {
    var at, dot :| 0 < at && at + 1 < dot < |e| - 1 && e[at] == '@' && e[dot] == '.' &&
      forall k :: 0 <= k < |e| && k != at ==> EmailChar(e[k]);
    OnlyAt(e, at);
    var i := IndexOf(e, '@');
    assert e[at] in e;
    assert i == at;
  }

  lemma ConditionsGivePattern(e: string)
    requires EmailConditions(e)
    ensures EmailPattern(e)
  {
    var at := IndexOf(e, '@');
    var dot :| at + 1 < dot < |e| - 1 && e[dot] == '.';
    OnlyAt(e, at);
  }

  /** With an `@` at `at`, there is exactly one `@` iff no other position holds one. */
  lemma OnlyAt(e: string, at: int)
    requires 0 <= at < |e| && e[at] == '@'
    ensures multiset(e)['@'] == 1 <==> forall k :: 0 <= k < |e| && k != at ==> e[k] != '@'
  {
    var a, b := e[..at], e[at + 1..];
    assert e == a + [e[at]] + b;
    assert multiset(e)['@'] == multiset(a)['@'] + 1 + multiset(b)['@'];
    if forall k :: 0 <= k < |e| && k != at ==> e[k] != '@' {
      assert forall k :: 0 <= k < |a| ==> a[k] == e[k];
      assert forall k :: 0 <= k < |b| ==> b[k] == e[at + 1 + k];
    } else {
      var k :| 0 <= k < |e| && k != at && e[k] == '@';
      if k < at { assert a[k] == '@'; } else { assert b[k - at - 1] == '@'; }
    }
  }

  lemma EmailPatternExample()
    ensures EmailPattern("ana@x.br")
  {
    var e := "ana@x.br";
    assert e[3] == '@' && e[5] == '.';
    assert forall k :: 0 <= k < |e| && k != 3 ==> EmailChar(e[k]);
  }

  lemma EmailAccepted()
    ensures IsValidEmail("ana@x.br")
  {
    EmailPatternExample();
  }

  lemma EmailRejected()
    ensures !IsValidEmail("an a@x.br")
    ensures !IsValidEmail("ana@xbr")
    ensures !IsValidEmail("@x.br")
  {
    var f := "an a@x.br";
    assert IsJsSpace(f[2]);
  }
}
