/** Go's decimal text for 64-bit integers: `fmt.Sprintf("%d", n)` on one side and
    `strconv.ParseInt(s, 10, 64)` on the other. */
module Decimal {
  import opened Wrappers
  import opened Collections

  const MIN_INT64: int := -0x8000_0000_0000_0000
  const MAX_INT64: int := 0x7FFF_FFFF_FFFF_FFFF

  /** Go's int64. */
  type Int64 = n: int | MIN_INT64 <= n <= MAX_INT64

  predicate IsDigit(c: char) {
    '0' <= c <= '9'
  }

  function DigitChar(d: nat): (c: char)
    requires d < 10
    ensures IsDigit(c) && DigitValue(c) == d
  {
    '0' + d as char
  }

  function DigitValue(c: char): nat
    requires IsDigit(c)
  {
    (c as int) - ('0' as int)
  }

  function FormatNat(n: nat): (s: string)
    ensures |s| > 0 && forall c :: c in s ==> IsDigit(c)
  {
    if n < 10 then [DigitChar(n)] else FormatNat(n / 10) + [DigitChar(n % 10)]
  }

  function FormatInt(n: int): string {
    if n < 0 then ['-'] + FormatNat(-n) else FormatNat(n)
  }

  /** The text of a number is its decimal text: one digit, or the text of the tens followed by the
      last digit. */
  lemma FormatIntDigits(n: nat)
    ensures n < 10 ==> FormatInt(n) == ["0123456789"[n]]
    ensures n >= 10 ==> FormatInt(n) == FormatInt(n / 10) + FormatInt(n % 10)
    ensures n > 0 ==> FormatInt(-(n as int)) == "-" + FormatInt(n)
  {
  }

  lemma Int64Range()
    ensures MAX_INT64 == 9223372036854775807 && MIN_INT64 == -9223372036854775808
  {
  }

  /** The value of a nonempty string of digits; None for any other string. */
  function ParseDigits(s: string): Option<nat> {
    if s == "" || !IsDigit(Last(s)) then None
    else if |s| == 1 then Some(DigitValue(s[0]))
    else match ParseDigits(s[..|s| - 1])
      case None => None
      case Some(high) => Some(10 * high + DigitValue(Last(s)))
  }

  /** An optional sign, then digits, then the range check of a 64-bit result. */
  function ParseInt(s: string): Option<Int64> {
    var negative := s != "" && s[0] == '-';
    var digits := if s != "" && s[0] in {'+', '-'} then s[1..] else s;
    match ParseDigits(digits)
    case None => None
    case Some(magnitude) =>
      var n: int := if negative then -(magnitude as int) else magnitude;
      if MIN_INT64 <= n <= MAX_INT64 then Some(n) else None
  }

  function Zeros(k: nat): string {
    seq(k, _ => '0')
  }

  lemma {:induction false} ParseFormatNat(n: nat)
    ensures ParseDigits(FormatNat(n)) == Some(n)
  {
    if n >= 10 {
      ParseFormatNat(n / 10);
      var s := FormatNat(n);
      assert s[..|s| - 1] == FormatNat(n / 10);
    }
  }

  /** Every int64 is read back from its own decimal text. */
  lemma ParseFormatInt(n: Int64)
    ensures ParseInt(FormatInt(n)) == Some(n)
  {
    if n < 0 {
      var magnitude: nat := -(n as int);
      ParseFormatNat(magnitude);
      assert FormatInt(n)[1..] == FormatNat(magnitude);
    } else {
      ParseFormatNat(n);
      assert IsDigit(FormatInt(n)[0]);
    }
  }

  lemma DigitsOnly(n: int, c: char)
    requires !IsDigit(c) && c != '-'
    ensures c !in FormatInt(n)
  {
  }

  lemma {:induction false} ParseZeros(k: nat, s: string)
    requires ParseDigits(s).Some?
    ensures ParseDigits(Zeros(k) + s) == ParseDigits(s)
  {
    var t := Zeros(k) + s;
    if |s| == 1 {
      if k > 0 {
        ParseAllZeros(k);
        assert t[..|t| - 1] == Zeros(k);
      } else {
        assert t == s;
      }
    } else {
      ParseZeros(k, s[..|s| - 1]);
      assert t[..|t| - 1] == Zeros(k) + s[..|s| - 1];
    }
  }

  lemma {:induction false} ParseAllZeros(k: nat)
    requires k > 0
    ensures ParseDigits(Zeros(k)) == Some(0)
  {
    if k > 1 {
      ParseAllZeros(k - 1);
      assert Zeros(k)[..k - 1] == Zeros(k - 1);
    }
  }

  /** Digits that denote n are n's own text behind leading zeros. */
  lemma {:induction false} DigitsCanonical(s: string, n: nat)
    requires ParseDigits(s) == Some(n)
    ensures |FormatNat(n)| <= |s| && s == Zeros(|s| - |FormatNat(n)|) + FormatNat(n)
  {
    if |s| > 1 {
      var front := s[..|s| - 1];
      var high := ParseDigits(front).value;
      DigitsCanonical(front, high);
      var zeros := |front| - |FormatNat(high)|;
      if high == 0 {
        assert front == Zeros(|front|);
        assert FormatNat(n) == [Last(s)];
      } else {
        assert n / 10 == high && FormatNat(n) == FormatNat(high) + [Last(s)];
        assert s == front + [Last(s)];
        AppendAssociative(Zeros(zeros), FormatNat(high), [Last(s)]);
      }
    }
  }

  /** The spellings of a positive id: an optional plus sign, leading zeros, then the id's
      canonical text. `"7"`, `"07"` and `"+7"` are all spellings of 7. */
  ghost predicate Spells(s: string, n: nat) {
    exists plus: bool, k: nat {:trigger Spelling(plus, k, n)} :: s == Spelling(plus, k, n)
  }

  function Spelling(plus: bool, k: nat, n: nat): string {
    (if plus then ['+'] else []) + (Zeros(k) + FormatNat(n))
  }

  lemma SpellingParses(plus: bool, k: nat, n: Int64)
    requires n >= 1
    ensures ParseInt(Spelling(plus, k, n)) == Some(n)
  {
    var s, digits := Spelling(plus, k, n), Zeros(k) + FormatNat(n);
    assert ParseDigits(digits) == Some(n) by {
      ParseFormatNat(n);
      ParseZeros(k, FormatNat(n));
    }
    if plus {
      assert s == ['+'] + digits;
      assert s[1..] == digits;
    } else {
      assert s == [] + digits == digits;
      assert IsDigit(digits[0]) by {
        assert digits[0] == if k > 0 then '0' else FormatNat(n)[0];
      }
    }
  }

  lemma ParsedIsSpelling(s: string, n: Int64)
    requires n >= 1 && ParseInt(s) == Some(n)
    ensures Spells(s, n)
  {
    var plus := s[0] == '+';
    var digits := if plus then s[1..] else s;
    assert ParseDigits(digits) == Some(n);
    DigitsCanonical(digits, n);
    assert s == Spelling(plus, |digits| - |FormatNat(n)|, n);
  }

  /** Exactly the spellings of a positive id parse to it. */
  lemma ParseIntSpellings(s: string, n: Int64)
    requires n >= 1
    ensures ParseInt(s) == Some(n) <==> Spells(s, n)
  {
    if ParseInt(s) == Some(n) {
      ParsedIsSpelling(s, n);
    }
    if Spells(s, n) {
      var plus: bool, k: nat :| s == Spelling(plus, k, n);
      SpellingParses(plus, k, n);
    }
  }
}
