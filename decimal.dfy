/** Decimal rendering of whole numbers in template strings, and the question progress label. */
module Decimal {
  import opened Wrappers

  predicate IsDigit(c: char) { '0' <= c <= '9' }

  predicate AllDigits(s: string) { forall k :: 0 <= k < |s| ==> IsDigit(s[k]) }

  function DigitChar(d: nat): (c: char)
    requires d < 10
    ensures IsDigit(c) && c as int - '0' as int == d
  {
    ('0' as int + d) as char
  }

  /** `${n}` for a whole number `n`: its decimal digits, most significant first, no leading zero. */
  function NatToString(n: nat): (s: string)
    ensures |s| > 0 && AllDigits(s)
    ensures |s| > 1 ==> s[0] != '0'
  {
    if n < 10 then [DigitChar(n)] else NatToString(n / 10) + [DigitChar(n % 10)]
  }

  /** The value of a string of decimal digits. */
  function DigitsValue(s: string): nat
    requires AllDigits(s)
  {
    if s == [] then 0 else DigitsValue(s[..|s| - 1]) * 10 + (s[|s| - 1] as int - '0' as int)
  }

  /** Reading back the digits of `n` gives `n`. */
  lemma {:induction false} NatToStringRoundTrip(n: nat)
    ensures DigitsValue(NatToString(n)) == n
  {
    if n >= 10 {
      var s := NatToString(n);
      assert s[..|s| - 1] == NatToString(n / 10);
      NatToStringRoundTrip(n / 10);
    }
  }

  /** Distinct numbers have distinct decimal renderings. */
  lemma NatToStringInjective(a: nat, b: nat)
    requires NatToString(a) == NatToString(b)
    ensures a == b
  {
    NatToStringRoundTrip(a);
    NatToStringRoundTrip(b);
  }

  /** The progress label `${n} de ${total}` of a question. */
  function ProgressLabel(n: nat, total: nat): string {
    NatToString(n) + " de " + NatToString(total)
  }

  /** How many decimal digits `s` starts with. */
  function LeadingDigits(s: string): (k: nat)
    ensures k <= |s| && AllDigits(s[..k])
    ensures k < |s| ==> !IsDigit(s[k])
  {
    if s == [] || !IsDigit(s[0]) then 0
    else
      var k := 1 + LeadingDigits(s[1..]);
      assert s[..k] == [s[0]] + s[1..][..k - 1];
      k
  }

  /** Reads a label of the form `<digits> de <digits>` back into its two numbers. */
  function ParseProgress(s: string): Option<(nat, nat)> {
    var k := LeadingDigits(s);
    if 0 < k && k + 4 < |s| && s[k..k + 4] == " de " && AllDigits(s[k + 4..]) then
      Some((DigitsValue(s[..k]), DigitsValue(s[k + 4..])))
    else
      None
  }

  lemma {:induction false} LeadingDigitsOfPrefix(a: string, b: string)
    requires AllDigits(a)
    requires b != [] && !IsDigit(b[0])
    ensures LeadingDigits(a + b) == |a|
  {
    if a != [] {
      assert (a + b)[1..] == a[1..] + b;
      LeadingDigitsOfPrefix(a[1..], b);
    }
  }

  /** The progress label determines the position and the total it was made from. */
  lemma ProgressLabelRoundTrip(n: nat, total: nat)
    ensures ParseProgress(ProgressLabel(n, total)) == Some((n, total))
  {
    var a, b := NatToString(n), NatToString(total);
    var s := ProgressLabel(n, total);
    assert s == a + (" de " + b);
    LeadingDigitsOfPrefix(a, " de " + b);
    assert s[..|a|] == a;
    assert s[|a|..|a| + 4] == " de ";
    assert s[|a| + 4..] == b;
    NatToStringRoundTrip(n);
    NatToStringRoundTrip(total);
  }
}
