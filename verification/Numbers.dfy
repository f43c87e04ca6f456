/** Decimal numbers as text: writing, reading and recognising them. */
module Numbers {

  function Digit(n: nat): char
    requires n < 10
  {
    ((n + '0' as int) as char)
  }

  function Decimal(n: nat): string {
    if n < 10 then [Digit(n)] else Decimal(n / 10) + [Digit(n % 10)]
  }

  predicate IsDigit(c: char) { '0' <= c <= '9' }

  function ParseDecimal(s: string): int {
    if s == "" then 0 else ParseDecimal(s[..|s| - 1]) * 10 + (s[|s| - 1] as int - '0' as int)
  }

  lemma {:induction false} ParseOfDecimal(n: nat)
    ensures ParseDecimal(Decimal(n)) == n
    ensures Decimal(n) != "" && forall k :: 0 <= k < |Decimal(n)| ==> IsDigit(Decimal(n)[k])
  {
    if n < 10 {
      assert [Digit(n)][..0] == "";
    } else {
      ParseOfDecimal(n / 10);
      assert Decimal(n)[..|Decimal(n)| - 1] == Decimal(n / 10);
    }
  }

  /** The number of leading digits. */
  function Digits(s: string): (n: nat)
    ensures n <= |s|
  {
    if s == "" || !IsDigit(s[0]) then 0 else 1 + Digits(s[1..])
  }

  lemma {:induction false} DigitsOf(a: string, b: string)
    requires forall k :: 0 <= k < |a| ==> IsDigit(a[k])
    requires b == "" || !IsDigit(b[0])
    ensures Digits(a + b) == |a|
  {
    if a == "" {
      assert a + b == b;
    } else {
      assert (a + b)[1..] == a[1..] + b;
      DigitsOf(a[1..], b);
    }
  }

  lemma {:induction false} LeadingDigits(s: string)
    ensures forall k :: 0 <= k < Digits(s) ==> IsDigit(s[k])
  {
    if s != "" && IsDigit(s[0]) {
      LeadingDigits(s[1..]);
      assert forall k :: 0 < k < Digits(s) ==> s[k] == s[1..][k - 1];
    }
  }

  lemma {:induction false} NoLeadingZero(n: nat)
    requires n > 0
    ensures Decimal(n) != "" && Decimal(n)[0] != '0'
  {
    if n >= 10 {
      NoLeadingZero(n / 10);
      assert Decimal(n)[0] == Decimal(n / 10)[0];
    }
  }

  /** Reading and writing a number is the identity on digits without a leading zero. */
  lemma {:induction false} DecimalOfParse(s: string)
    requires s != "" && s[0] != '0' && forall k :: 0 <= k < |s| ==> IsDigit(s[k])
    ensures ParseDecimal(s) > 0 && Decimal(ParseDecimal(s)) == s
    decreases |s|
  {
    var init, last := s[..|s| - 1], s[|s| - 1];
    assert s == init + [last] && IsDigit(last);
    var digit := last as int - '0' as int;
    assert Digit(digit) == last;
    if init == "" {
      assert ParseDecimal(init) == 0 && s[0] == last;
    } else {
      assert init[0] == s[0] && forall k :: 0 <= k < |init| ==> init[k] == s[k];
      DecimalOfParse(init);
      assert ParseDecimal(s) / 10 == ParseDecimal(init) && ParseDecimal(s) % 10 == digit;
    }
  }
}
