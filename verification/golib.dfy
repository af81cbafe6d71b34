/** The parts of Go's runtime and standard library whose exact behaviour the
    shipping code depends on: truncating integer division, `time.Unix` and
    `strconv.ParseInt(s, 10, 64)` with its error ignored. */
module GoLib {
  import opened Shipping

  const MinInt64: int := -0x8000_0000_0000_0000
  const MaxInt64: int := 0x7FFF_FFFF_FFFF_FFFF

  /** Go's `int64`. */
  type Int64 = n: int | MinInt64 <= n <= MaxInt64

  /** Go's `a / b` on integers: the quotient truncated toward zero, so the
      remainder takes the sign of the dividend (Dafny's `/` is Euclidean). */
  function Quot(a: int, b: int): (q: int)
    requires b > 0
    ensures a >= 0 ==> 0 <= a - q * b < b
    ensures a < 0 ==> -b < a - q * b <= 0
    ensures a >= 0 ==> 0 <= q <= a
    ensures a < 0 ==> a <= q <= 0
  {
    if a >= 0 then
      NaturalDivision(a, b);
      a / b
    else
      NaturalDivision(-a, b);
      -((-a) / b)
  }

  lemma NaturalDivision(x: nat, b: int)
    requires b > 0
    ensures 0 <= x - (x / b) * b < b
    ensures 0 <= x / b <= x
  {
    var q, r := x / b, x % b;
    assert x == q * b + r && 0 <= r < b;
    assert 0 <= q;
    assert q * b >= q * 1 by {
      MultiplyMonotone(q, 1, b);
    }
  }

  lemma MultiplyMonotone(q: nat, c: int, d: int)
    requires c <= d
    ensures q * c <= q * d
  {
  }

  /** `time.Unix(sec, 0)`. */
  function Unix(sec: int): (t: Time)
    ensures IsZero(t) <==> sec == ZeroTime
  {
    sec
  }

  predicate IsDigit(c: char) {
    '0' <= c <= '9'
  }

  predicate AllDigits(s: string) {
    forall i :: 0 <= i < |s| ==> IsDigit(s[i])
  }

  /** What remains of `s` after one optional leading sign. */
  function Unsigned(s: string): string {
    if |s| > 0 && (s[0] == '+' || s[0] == '-') then s[1..] else s
  }

  /** The strings `strconv.ParseInt(s, 10, 64)` accepts syntactically: an
      optional sign followed by at least one decimal digit. */
  predicate IsDecimal(s: string) {
    |Unsigned(s)| > 0 && AllDigits(Unsigned(s))
  }

  /** The value of a string of decimal digits, read left to right. */
  function DecimalValue(ds: string): nat
    requires AllDigits(ds)
    decreases |ds|
  {
    if |ds| == 0 then 0
    else DecimalValue(ds[..|ds| - 1]) * 10 + ((ds[|ds| - 1] as int) - ('0' as int))
  }

  function SignedValue(s: string): int
    requires IsDecimal(s)
  {
    var v: int := DecimalValue(Unsigned(s));
    if s[0] == '-' then -v else v
  }

  /** `strconv.ParseInt(s, 10, 64)` with the error discarded, as the handlers
      call it: a syntax error yields 0 and an out-of-range value yields the
      nearest int64 bound. */
  function ParseInt64(s: string): (n: int)
    ensures MinInt64 <= n <= MaxInt64
    ensures !IsDecimal(s) ==> n == 0
  {
    if !IsDecimal(s) then 0
    else
      var v := SignedValue(s);
      if v < MinInt64 then MinInt64 else if v > MaxInt64 then MaxInt64 else v
  }

  function DigitChar(d: int): char
    requires 0 <= d < 10
  {
    (('0' as int) + d) as char
  }

  /** The decimal digits of `n`, most significant first, with no leading zero. */
  function Digits(n: nat): string
    decreases n
  {
    if n < 10 then [DigitChar(n)] else Digits(n / 10) + [DigitChar(n % 10)]
  }

  /** `strconv.FormatInt(n, 10)`. */
  function FormatInt(n: int): string {
    if n < 0 then "-" + Digits(-n) else Digits(n)
  }

  lemma {:induction false} DigitsValue(n: nat)
    ensures |Digits(n)| > 0 && AllDigits(Digits(n))
    ensures DecimalValue(Digits(n)) == n
    decreases n
  {
    var ds := Digits(n);
    if n < 10 {
      assert ds[..|ds| - 1] == [];
    } else {
      DigitsValue(n / 10);
      assert ds[..|ds| - 1] == Digits(n / 10);
    }
  }

  /** `ParseInt64` inverts `FormatInt` on every int64 value. */
  lemma ParseFormatRoundTrip(n: int)
    requires MinInt64 <= n <= MaxInt64
    ensures ParseInt64(FormatInt(n)) == n
  {
    if n < 0 {
      DigitsValue(-n);
      var s := FormatInt(n);
      assert Unsigned(s) == Digits(-n);
    } else {
      DigitsValue(n);
      var s := FormatInt(n);
      assert IsDigit(s[0]);
      assert Unsigned(s) == s;
    }
  }

  /** `strings.Contains(s, sub)`: `sub` occurs in `s` at some offset. */
  predicate Contains(s: string, sub: string)
    decreases |s|
  {
    |sub| <= |s| && (s[..|sub|] == sub || Contains(s[1..], sub))
  }

  /** A copy of `sub` starts at offset `k` of `s`. */
  predicate OccursAt(s: string, sub: string, k: int) {
    0 <= k <= |s| - |sub| && s[k..k + |sub|] == sub
  }

  /** `Contains` holds exactly when a copy of `sub` starts at some offset of
      `s`. */
  lemma {:induction false} ContainsAtOffset(s: string, sub: string)
    ensures Contains(s, sub) <==> exists k :: OccursAt(s, sub, k)
    decreases |s|
  {
    if |sub| <= |s| && s[..|sub|] != sub {
      ContainsAtOffset(s[1..], sub);
      if exists k :: OccursAt(s, sub, k) {
        var k :| OccursAt(s, sub, k);
        assert k != 0;
        assert OccursAt(s[1..], sub, k - 1);
      }
      if Contains(s[1..], sub) {
        var k :| OccursAt(s[1..], sub, k);
        assert OccursAt(s, sub, k + 1);
      }
    } else if |sub| <= |s| {
      assert OccursAt(s, sub, 0);
    }
  }
}
