/** The parts of Go's `fmt` and `strconv` the provider's messages and settings depend on:
    `%d` of an integer, `fmt.Sprint` of a string slice, and `strconv.Atoi`. */
module Format {

  const MaxInt64: int := 0x7fff_ffff_ffff_ffff
  const MinInt64: int := -0x8000_0000_0000_0000

  predicate IsDigit(c: char) {
    '0' <= c <= '9'
  }

  predicate AllDigits(s: string) {
    forall i :: 0 <= i < |s| ==> IsDigit(s[i])
  }

  function DigitChar(d: nat): (c: char)
    requires d < 10
    ensures IsDigit(c) && c as int - '0' as int == d
  {
    ('0' as int + d) as char
  }

  /** Decimal digits of `n`, most significant first, without leading zeros. */
  function NatDigits(n: nat): (s: string)
    ensures |s| >= 1 && AllDigits(s)
    ensures s[0] != '0' || n == 0
    decreases n
  {
    if n < 10 then [DigitChar(n)] else NatDigits(n / 10) + [DigitChar(n % 10)]
  }

  /** `fmt.Sprintf("%d", n)`. */
  function Itoa(n: int): string {
    if n < 0 then "-" + NatDigits(-n) else NatDigits(n)
  }

  /** The number a string of decimal digits denotes. */
  function DigitsValue(s: string): nat
    requires AllDigits(s)
    decreases |s|
  {
    if s == [] then 0 else DigitsValue(s[..|s| - 1]) * 10 + (s[|s| - 1] as int - '0' as int)
  }

  lemma {:induction false} DigitsValueOfNatDigits(n: nat)
    ensures DigitsValue(NatDigits(n)) == n
    decreases n
  {
    if n >= 10 {
      DigitsValueOfNatDigits(n / 10);
      var s := NatDigits(n / 10) + [DigitChar(n % 10)];
      assert s[..|s| - 1] == NatDigits(n / 10);
    }
  }

  /** `strconv.Atoi`'s two results: the value and whether the error is nil. */
  datatype ParsedInt = ParsedInt(value: int, ok: bool)

  /** `strconv.Atoi` on a 64-bit platform: an optional sign and one or more decimal
      digits; anything else is a syntax error with value 0; a number outside the
      int64 range is a range error with the value clamped to the nearest bound. */
  function Atoi(s: string): (r: ParsedInt)
    ensures r.ok ==> MinInt64 <= r.value <= MaxInt64
    ensures !r.ok ==> r.value in {0, MinInt64, MaxInt64}
  {
    var signed := |s| > 0 && (s[0] == '-' || s[0] == '+');
    var digits := if signed then s[1..] else s;
    if |digits| == 0 || !AllDigits(digits) then ParsedInt(0, false)
    else
      var magnitude: int := DigitsValue(digits);
      var v := if s[0] == '-' then -magnitude else magnitude;
      if v > MaxInt64 then ParsedInt(MaxInt64, false)
      else if v < MinInt64 then ParsedInt(MinInt64, false)
      else ParsedInt(v, true)
  }

  /** `Atoi` reads back every int64 that `%d` prints. */
  lemma AtoiOfItoa(n: int)
    requires MinInt64 <= n <= MaxInt64
    ensures Atoi(Itoa(n)) == ParsedInt(n, true)
  {
    if n < 0 {
      var d := NatDigits(-n);
      var s := "-" + d;
      assert s[0] == '-' && s[1..] == d;
      DigitsValueOfNatDigits(-n);
      assert DigitsValue(s[1..]) == -n;
    } else {
      var d := NatDigits(n);
      assert IsDigit(d[0]);
      DigitsValueOfNatDigits(n);
    }
  }

  /** `strings.Join(xs, sep)`. */
  function Join(xs: seq<string>, sep: string): string
    decreases |xs|
  {
    if xs == [] then "" else if |xs| == 1 then xs[0] else xs[0] + sep + Join(xs[1..], sep)
  }

  /** `fmt.Sprint(xs)` (and `%v`) of a `[]string`: the elements separated by single
      spaces, in brackets. */
  function SprintStrings(xs: seq<string>): (r: string)
    ensures |r| >= 2 && r[0] == '[' && r[|r| - 1] == ']'
  {
    "[" + Join(xs, " ") + "]"
  }
}
