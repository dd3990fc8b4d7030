/** The few string operations the extractor relies on: `str()` of an
    integer, the `'{:02d}'` format, `str.startswith('.')` and
    `str.capitalize()` (ASCII letters only). */
module Text {

  function DigitChar(d: nat): (c: char)
    requires d < 10
    ensures '0' <= c <= '9'
  {
    ('0' as int + d) as char
  }

  function DigitValue(c: char): nat
  {
    if '0' <= c <= '9' then (c as int - '0' as int) else 0
  }

  /** Decimal digits of a natural number, most significant first. */
  function Digits(n: nat): (s: string)
    ensures |s| > 0
    ensures forall i :: 0 <= i < |s| ==> '0' <= s[i] <= '9'
    ensures n >= 10 ==> s[0] != '0' && |s| >= 2
  {
    if n < 10 then [DigitChar(n)] else Digits(n / 10) + [DigitChar(n % 10)]
  }

  /** Reads a string of decimal digits back as a number. */
  function ParseDigits(s: string): nat
  {
    if s == [] then 0 else ParseDigits(s[..|s| - 1]) * 10 + DigitValue(s[|s| - 1])
  }

  lemma {:induction false} DigitsRoundTrip(n: nat)
    ensures ParseDigits(Digits(n)) == n
  {
    if n >= 10 {
      var s := Digits(n);
      assert s[..|s| - 1] == Digits(n / 10);
      DigitsRoundTrip(n / 10);
    }
  }

  /** Python's `str(n)`. */
  function IntToString(n: int): (s: string)
    ensures |s| > 0
    ensures s[0] == '-' <==> n < 0
  {
    if n < 0 then "-" + Digits(-n) else Digits(n)
  }

  /** Python's `'{:02d}'.format(n)`: zero-padded to width two after the sign. */
  function Format02(n: int): (s: string)
    ensures |s| >= 2
    ensures s[0] == '-' <==> n < 0
  {
    if 0 <= n < 10 then "0" + Digits(n) else IntToString(n)
  }

  /** Reads a `'{:02d}'` rendering back; the inverse of Format02. */
  function ParseFormatted(s: string): int
  {
    if |s| > 0 && s[0] == '-' then -(ParseDigits(s[1..]) as int) else ParseDigits(s)
  }

  lemma {:induction false} Format02RoundTrip(n: int)
    ensures ParseFormatted(Format02(n)) == n
  {
    var s := Format02(n);
    if n < 0 {
      assert s[1..] == Digits(-n);
      DigitsRoundTrip(-n);
    } else if n < 10 {
      assert s == ['0', DigitChar(n)];
      assert s[..1] == ['0'] && s[..1][..0] == [];
      assert ParseDigits(s) == ParseDigits(['0']) * 10 + DigitValue(DigitChar(n));
    } else {
      DigitsRoundTrip(n);
    }
  }

  /** Two different numbers never format to the same string. */
  lemma Format02Injective(m: int, n: int)
    requires Format02(m) == Format02(n)
    ensures m == n
  {
    Format02RoundTrip(m);
    Format02RoundTrip(n);
  }

  /** `s.startswith('.')`. */
  predicate StartsWithDot(s: string)
  {
    |s| > 0 && s[0] == '.'
  }

  function Upper(c: char): (u: char)
    ensures 'a' <= c <= 'z' ==> 'A' <= u <= 'Z'
  {
    if 'a' <= c <= 'z' then (c as int - 32) as char else c
  }

  function Lower(c: char): (l: char)
    ensures 'A' <= c <= 'Z' ==> 'a' <= l <= 'z'
  {
    if 'A' <= c <= 'Z' then (c as int + 32) as char else c
  }

  /** Python's `str.capitalize()`: the first character upper-cased and every
      other one lower-cased. */
  function Capitalize(s: string): (r: string)
    ensures |r| == |s|
    ensures |s| > 0 ==> r[0] == Upper(s[0])
    ensures forall i :: 0 < i < |s| ==> r[i] == Lower(s[i])
  {
    if s == [] then [] else [Upper(s[0])] + seq(|s| - 1, i requires 0 <= i < |s| - 1 => Lower(s[i + 1]))
  }
}
