/** Base-10 integer text: Go's `fmt.Sprintf("%d", n)` and `strconv.ParseInt(s, 10, bits)`.
    All of `ParseInt`'s errors (syntax and range) are collapsed to `None`, because every
    caller in the model treats them alike. */
module Decimal {
  import opened Wrappers

  const MinInt32: int := -0x8000_0000
  const MaxInt32: int := 0x7fff_ffff
  const MinInt64: int := -0x8000_0000_0000_0000
  const MaxInt64: int := 0x7fff_ffff_ffff_ffff

  type Int32 = x: int | MinInt32 <= x <= MaxInt32
  type Int64 = x: int | MinInt64 <= x <= MaxInt64

  /** The `bitSize` argument of `strconv.ParseInt` as used by the program. */
  datatype BitSize = Bits32 | Bits64

  predicate InRange(n: int, bits: BitSize) {
    match bits
    case Bits32 => MinInt32 <= n <= MaxInt32
    case Bits64 => MinInt64 <= n <= MaxInt64
  }

  predicate IsDigit(c: char) {
    '0' <= c <= '9'
  }

  predicate AllDigits(s: string) {
    forall i :: 0 <= i < |s| ==> IsDigit(s[i])
  }

  function DigitValue(c: char): (d: nat)
    requires IsDigit(c)
    ensures d < 10
  {
    c as int - '0' as int
  }

  function DigitChar(d: nat): (c: char)
    requires d < 10
    ensures IsDigit(c) && DigitValue(c) == d
  {
    ('0' as int + d) as char
  }

  /** The shortest decimal numeral of `n`: digits only, no leading zero. */
  function Digits(n: nat): (s: string)
    ensures |s| >= 1 && AllDigits(s)
    ensures s[0] == '0' ==> n == 0
    decreases n
  {
    if n < 10 then [DigitChar(n)] else Digits(n / 10) + [DigitChar(n % 10)]
  }

  /** The number a digit string denotes; leading zeros are allowed. */
  function DigitsValue(s: string): nat
    requires AllDigits(s)
    decreases |s|
  {
    if |s| == 0 then 0 else 10 * DigitsValue(s[..|s| - 1]) + DigitValue(s[|s| - 1])
  }

  lemma {:induction false} DigitsRoundTrip(n: nat)
    ensures DigitsValue(Digits(n)) == n
    decreases n
  {
    if n >= 10 {
      DigitsRoundTrip(n / 10);
      var s := Digits(n);
      assert s[..|s| - 1] == Digits(n / 10);
    }
  }

  /** `%d`: a minus sign for negatives, then the shortest digit string of the magnitude. */
  function FormatInt(n: int): (s: string)
    ensures |s| >= 1
    ensures forall i :: 0 <= i < |s| ==> IsDigit(s[i]) || (i == 0 && s[i] == '-')
    ensures (s[0] == '-') <==> n < 0
    ensures n < 0 ==> |s| >= 2
    ensures s == "0" || s[if n < 0 then 1 else 0] != '0'
  {
    if n < 0 then assert -n != 0; "-" + Digits(-n) else Digits(n)
  }

  /** An optional `+` or `-` followed by at least one decimal digit. */
  predicate WellFormed(s: string) {
    if |s| >= 1 && s[0] in "+-" then |s| >= 2 && AllDigits(s[1..]) else |s| >= 1 && AllDigits(s)
  }

  /** The value a well-formed numeral denotes, before any range check. */
  function SignedValue(s: string): int
    requires WellFormed(s)
  {
    var magnitude: int := DigitsValue(if s[0] in "+-" then s[1..] else s);
    if s[0] == '-' then -magnitude else magnitude
  }

  /** `strconv.ParseInt(s, 10, bits)`: an optional `+` or `-`, then one or more decimal
      digits (no underscores in base 10), and the value must fit the bit size. */
  function ParseInt(s: string, bits: BitSize): (r: Option<int>)
    ensures r.Some? ==> InRange(r.value, bits)
    ensures r.Some? ==> |s| >= 1 && (IsDigit(s[0]) || s[0] in "+-")
    ensures r.Some? ==> AllDigits(if IsDigit(s[0]) then s else s[1..])
    ensures r.Some? ==> (r.value < 0 ==> s[0] == '-')
    ensures r.Some? ==> WellFormed(s) && r.value == SignedValue(s)
    ensures WellFormed(s) && InRange(SignedValue(s), bits) ==> r == Some(SignedValue(s))
  {
    if |s| == 0 then None
    else
      var signed := s[0] == '+' || s[0] == '-';
      var body := if signed then s[1..] else s;
      if |body| == 0 || !AllDigits(body) then None
      else
        var magnitude: int := DigitsValue(body);
        var v: int := if s[0] == '-' then -magnitude else magnitude;
        if InRange(v, bits) then Some(v) else None
  }

  /** Formatting then parsing gives back every value that fits the bit size. */
  lemma FormatParseRoundTrip(n: int, bits: BitSize)
    requires InRange(n, bits)
    ensures ParseInt(FormatInt(n), bits) == Some(n)
  {
    var s := FormatInt(n);
    if n < 0 {
      DigitsRoundTrip(-n);
      assert s[1..] == Digits(-n);
    } else {
      DigitsRoundTrip(n);
    }
  }
}
