/**
 * Decimal text conversions the launcher relies on: printf's "%u" and "%d"
 * for non-negative values (the PID written to cgroup.procs, the CPU quota
 * derived from a percentage) and the C library's atoi.
 */
module Format {

  predicate IsDigit(c: char)
  {
    '0' <= c <= '9'
  }

  predicate AllDigits(s: string)
  {
    forall i :: 0 <= i < |s| ==> IsDigit(s[i])
  }

  function DigitChar(d: nat): char
    requires d < 10
  {
    (('0' as int) + d) as char
  }

  function DigitOf(c: char): nat
    requires IsDigit(c)
  {
    (c as int) - ('0' as int)
  }

  function Pow10(k: nat): nat
  {
    if k == 0 then 1 else 10 * Pow10(k - 1)
  }

  /** The text printf("%u", n) produces: decimal digits, no sign, no padding. */
  function Decimal(n: nat): (s: string)
    ensures |s| >= 1 && AllDigits(s)
    ensures s[0] == '0' ==> n == 0
    ensures '\0' !in s
    decreases n
  {
    if n < 10 then [DigitChar(n)] else Decimal(n / 10) + [DigitChar(n % 10)]
  }

  /** The value of a string of decimal digits, most significant first. */
  function DigitsValue(s: string): nat
    requires AllDigits(s)
  {
    if s == [] then 0 else DigitsValue(s[..|s| - 1]) * 10 + DigitOf(s[|s| - 1])
  }

  /** Reading a formatted number back gives the number. */
  lemma {:induction false} DecimalRoundTrip(n: nat)
    ensures DigitsValue(Decimal(n)) == n
    decreases n
  {
    if n >= 10 {
      var s := Decimal(n);
      assert s[..|s| - 1] == Decimal(n / 10);
      DecimalRoundTrip(n / 10);
    }
  }

  /** The formatted number has exactly as many digits as the number needs. */
  lemma {:induction false} DecimalLength(n: nat)
    ensures n < Pow10(|Decimal(n)|)
    ensures n > 0 ==> Pow10(|Decimal(n)| - 1) <= n
    decreases n
  {
    if n >= 10 {
      DecimalLength(n / 10);
    }
  }

  /** Two different numbers never print alike. */
  lemma DecimalInjective(m: nat, n: nat)
    requires Decimal(m) == Decimal(n)
    ensures m == n
  {
    DecimalRoundTrip(m);
    DecimalRoundTrip(n);
  }

  /** isspace in the "C" locale. */
  predicate IsSpace(c: char)
  {
    c == ' ' || c == '\t' || c == '\n' || c == '\r' || c as int == 11 || c as int == 12
  }

  function SkipSpace(s: string): (t: string)
    ensures |t| <= |s| && t == s[|s| - |t|..]
    ensures t != [] ==> !IsSpace(t[0])
  {
    if s != [] && IsSpace(s[0]) then SkipSpace(s[1..]) else s
  }

  /** The longest prefix of s made of digits. */
  function LeadingDigits(s: string): (d: string)
    ensures d <= s && AllDigits(d)
    ensures |d| < |s| ==> !IsDigit(s[|d|])
  {
    if s != [] && IsDigit(s[0]) then [s[0]] + LeadingDigits(s[1..]) else []
  }

  /**
   * atoi: optional white space, an optional sign, then the longest run of
   * digits; anything after it is ignored, and no digits give 0. The value is
   * an unbounded integer: C leaves atoi undefined when it overflows int.
   */
  function Atoi(s: string): int
  {
    var t := SkipSpace(s);
    if t != [] && t[0] == '-' then -(DigitsValue(LeadingDigits(t[1..])) as int)
    else if t != [] && t[0] == '+' then DigitsValue(LeadingDigits(t[1..]))
    else DigitsValue(LeadingDigits(t))
  }

  lemma {:induction false} LeadingDigitsOfDigits(s: string, rest: string)
    requires AllDigits(s)
    requires rest == [] || !IsDigit(rest[0])
    ensures LeadingDigits(s + rest) == s
    decreases |s|
  {
    if s != [] {
      assert (s + rest)[1..] == s[1..] + rest;
      LeadingDigitsOfDigits(s[1..], rest);
    }
  }

  /** atoi reads back what printf wrote. */
  lemma AtoiDecimal(n: nat)
    ensures Atoi(Decimal(n)) == n
  {
    var d := Decimal(n);
    assert d + [] == d;
    LeadingDigitsOfDigits(d, []);
    assert !IsSpace(d[0]) && d[0] != '-' && d[0] != '+';
    assert SkipSpace(d) == d;
    DecimalRoundTrip(n);
  }

  /** atoi of a minus sign followed by printf's digits is the negated number. */
  lemma AtoiNegatedDecimal(n: nat)
    ensures Atoi("-" + Decimal(n)) == -(n as int)
  {
    var d := Decimal(n);
    var m := "-" + d;
    assert m[0] == '-' && !IsSpace(m[0]);
    assert SkipSpace(m) == m;
    assert m[1..] == d;
    assert d + [] == d;
    LeadingDigitsOfDigits(d, []);
    DecimalRoundTrip(n);
  }

  /** The text of a pid_t printed with "%u": a negative value reads as its 32-bit unsigned twin. */
  function PidText(pid: int): string
    requires -0x8000_0000 <= pid < 0x8000_0000
  {
    Decimal(if pid >= 0 then pid else pid + 0x1_0000_0000)
  }

  /**
   * The bytes setup_cgroups hands to each cgroup.procs write: snprintf sizes
   * the buffer as the digit count plus one, and that whole buffer, digits and
   * the terminating NUL, is what fwrite emits.
   */
  function PidRecord(pid: int): (r: string)
    requires -0x8000_0000 <= pid < 0x8000_0000
    ensures |r| == |PidText(pid)| + 1
    ensures r[..|r| - 1] == PidText(pid) && r[|r| - 1] == '\0'
  {
    PidText(pid) + ['\0']
  }

  /** For a live process (a positive PID) the record is its decimal digits and a NUL, no sign, no padding. */
  lemma PidRecordOfPositive(pid: int)
    requires 0 < pid < 0x8000_0000
    ensures var r := PidRecord(pid);
      AllDigits(r[..|r| - 1]) && DigitsValue(r[..|r| - 1]) == pid && r[0] != '0' && r[|r| - 1] == '\0'
  {
    DecimalRoundTrip(pid);
  }
}
