/** A text of digits as a number of at most 64 bits. */
module Numbers {

  const MAX_UINT64: nat := 0xffff_ffff_ffff_ffff
  const MAX_DIGITS: nat := 20

  predicate IsDigit(c: char) { '0' <= c <= '9' }

  function DigitOf(c: char): (d: nat)
    ensures d < 10
  {
    if IsDigit(c) then c as int - '0' as int else 0
  }

  predicate AllDigits(s: string) { |s| > 0 && forall i | 0 <= i < |s| :: IsDigit(s[i]) }

  /** The number the first `n` digits write, however many there are. */
  function Value(s: string, n: nat): nat
    requires n <= |s|
  {
    if n == 0 then 0 else 10 * Value(s, n - 1) + DigitOf(s[n - 1])
  }

  function Pow10(n: nat): nat { if n == 0 then 1 else 10 * Pow10(n - 1) }

  /** How many zeros lead the text, leaving at least one digit. */
  function LeadingZeros(s: string, i: nat): (z: nat)
    requires i < |s|
    ensures i <= z < |s|
    decreases |s| - i
  {
    if i + 1 < |s| && s[i] == '0' then LeadingZeros(s, i + 1) else i
  }

  /** The number a text is read as. More than 20 digits, leading zeros aside, are not looked at. */
  function ParseUint64(s: string): nat {
    if !AllDigits(s) then 0
    else
      var digits := s[LeadingZeros(s, 0)..];
      if |digits| > MAX_DIGITS then 0
      else
        var value := Value(digits, |digits|);
        if value > MAX_UINT64 then 0 else value
  }

  lemma {:induction false} ZerosLead(s: string, i: nat)
    requires AllDigits(s) && i < |s| && Value(s, i) == 0
    ensures var z := LeadingZeros(s, i);
      Value(s, z) == 0 && (z + 1 < |s| ==> s[z] != '0')
    decreases |s| - i
  {
    if i + 1 < |s| && s[i] == '0' {
      ZerosLead(s, i + 1);
    }
  }

  lemma {:induction false} ValueFrom(s: string, z: nat, n: nat)
    requires z + n <= |s| && Value(s, z) == 0
    ensures Value(s, z + n) == Value(s[z..], n)
  {
    if n > 0 {
      ValueFrom(s, z, n - 1);
      assert s[z..][n - 1] == s[z + n - 1];
    }
  }

  /** A number with a first digit other than 0 is as large as its length says. */
  lemma {:induction false} ValueLarge(s: string, n: nat)
    requires AllDigits(s) && 0 < n <= |s| && s[0] != '0'
    ensures Value(s, n) >= Pow10(n - 1)
  {
    if n == 1 {
      assert Value(s, 1) == 10 * Value(s, 0) + DigitOf(s[0]);
    } else {
      ValueLarge(s, n - 1);
    }
  }

  lemma {:induction false} Pow10Grows(a: nat, b: nat)
    requires a <= b
    ensures Pow10(a) <= Pow10(b)
    decreases b
  {
    if a < b {
      Pow10Grows(a, b - 1);
    }
  }

  lemma {:induction false} TooLongTooLarge(s: string)
    requires AllDigits(s) && |s| > MAX_DIGITS && s[0] != '0'
    ensures Value(s, |s|) > MAX_UINT64
  {
    ValueLarge(s, |s|);
    Pow10Grows(20, |s| - 1);
    assert Pow10(5) == 100000;
    assert Pow10(10) == 10000000000;
    assert Pow10(15) == 1000000000000000;
    assert Pow10(20) == 100000000000000000000;
  }

  /** The text reads as the number its digits write when that fits in 64 bits, whatever zeros lead it,
      and as 0 otherwise: the cut by length loses no number that fits. */
  lemma {:induction false} ReadsWhatFits(s: string)
    ensures ParseUint64(s) == if AllDigits(s) && Value(s, |s|) <= MAX_UINT64 then Value(s, |s|) else 0
  {
    if AllDigits(s) {
      var z := LeadingZeros(s, 0);
      var digits := s[z..];
      ZerosLead(s, 0);
      ValueFrom(s, z, |digits|);
      if |digits| > MAX_DIGITS {
        TooLongTooLarge(digits);
      }
    }
  }
}
