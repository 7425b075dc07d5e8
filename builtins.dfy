/** The few pieces of the Python runtime that the register-mapping layer relies
    on: optional values, raised exceptions, `str(int)`, `str.startswith`,
    the shift/mask byte split and `round` of a quotient. */
module Builtins {

  /** Python's `None` or a value. */
  datatype Option<+T> = None | Some(value: T)

  /** The exceptions the modelled code can raise. */
  datatype Error =
    | IndexError          // a string index past the end
    | ValueError          // `raise ValueError(...)`, or a `datetime` field out of range
    | TypeError           // an operator applied to operands of the wrong type
    | AttributeError      // a missing attribute on an object
    | UnboundLocalError   // a local variable read before any assignment

  /** A value, or the exception that the Python code raises instead. */
  datatype Result<+T> = Ok(value: T) | Err(error: Error)

  /** `s.startswith(prefix)`. */
  predicate StartsWith(s: string, prefix: string) {
    prefix <= s
  }

  // ---------------------------------------------------------------------------
  // Decimal text of integers: `str(n)` and its inverse `int(s)`
  // ---------------------------------------------------------------------------

  predicate IsDigit(c: char) {
    '0' <= c <= '9'
  }

  predicate IsDigits(s: string) {
    forall i | 0 <= i < |s| :: IsDigit(s[i])
  }

  /** The text Python's `str` gives an integer: an optional '-' and digits. */
  predicate IsDecimal(s: string) {
    if |s| > 0 && s[0] == '-' then |s| > 1 && IsDigits(s[1..]) else |s| > 0 && IsDigits(s)
  }

  function DigitChar(d: int): (c: char)
    requires 0 <= d < 10
    ensures IsDigit(c) && c as int - '0' as int == d
  {
    ('0' as int + d) as char
  }

  /** `str(n)` for a non-negative `n`: digits, no leading zero except for 0 itself. */
  function NatToString(n: nat): (r: string)
    ensures |r| > 0 && IsDigits(r)
    ensures r[0] == '0' <==> n == 0
    decreases n
  {
    if n < 10 then [DigitChar(n)] else NatToString(n / 10) + [DigitChar(n % 10)]
  }

  /** `str(i)`. */
  function IntToString(i: int): (r: string)
    ensures IsDecimal(r)
    ensures r[0] == '-' <==> i < 0
  {
    if i < 0 then "-" + NatToString(-i) else NatToString(i)
  }

  function ParseDigits(s: string): nat
    requires IsDigits(s)
  {
    if s == [] then 0
    else ParseDigits(s[..|s| - 1]) * 10 + (s[|s| - 1] as int - '0' as int)
  }

  /** `int(s)` for the text `str` produces. */
  function ParseInt(s: string): int
    requires IsDecimal(s)
  {
    if s[0] == '-' then -(ParseDigits(s[1..]) as int) else ParseDigits(s)
  }

  lemma {:induction false} NatToStringRoundTrip(n: nat)
    ensures ParseDigits(NatToString(n)) == n
    decreases n
  {
    if n >= 10 {
      var s := NatToString(n / 10);
      NatToStringRoundTrip(n / 10);
      assert NatToString(n) == s + [DigitChar(n % 10)];
      assert (s + [DigitChar(n % 10)])[..|s|] == s;
    }
  }

  /** The text written for an integer reads back as the same integer. */
  lemma IntToStringRoundTrip(i: int)
    ensures ParseInt(IntToString(i)) == i
  {
    if i < 0 {
      NatToStringRoundTrip(-i);
      assert IntToString(i)[1..] == NatToString(-i);
    } else {
      NatToStringRoundTrip(i);
    }
  }

  /** Two decimal digits with a leading zero, as `%02d` prints 0 <= n < 100. */
  function TwoDigits(n: int): (r: string)
    requires 0 <= n < 100
    ensures |r| == 2 && IsDigits(r)
    ensures ParseDigits(r) == n
  {
    var r := [DigitChar(n / 10), DigitChar(n % 10)];
    assert r[..1] == [DigitChar(n / 10)];
    assert r[..1][..0] == [];
    assert ParseDigits(r[..1]) == n / 10;
    r
  }

  // ---------------------------------------------------------------------------
  // Bytes and words
  // ---------------------------------------------------------------------------

  /** `v >> 8`: Python shifts are arithmetic, i.e. floor division by 256,
      which is what Dafny's `/` does for a positive divisor. */
  function HighByte(v: int): int {
    v / 256
  }

  /** `v & 0xFF`: the low eight bits of the two's-complement form, always in 0..255. */
  function LowByte(v: int): (r: int)
    ensures 0 <= r < 256
  {
    v % 256
  }

  /** Shift-and-add packing is undone by the shift/mask split. */
  lemma ByteSplit(hi: int, lo: int)
    requires 0 <= lo < 256
    ensures HighByte(hi * 256 + lo) == hi && LowByte(hi * 256 + lo) == lo
  {
  }

  /** Every integer is its high byte shifted left plus its low byte. */
  lemma ByteJoin(v: int)
    ensures HighByte(v) * 256 + LowByte(v) == v
  {
  }

  // ---------------------------------------------------------------------------
  // round(p / q)
  // ---------------------------------------------------------------------------

  function Abs(x: int): nat {
    if x < 0 then -x else x
  }

  /** Python's `round(p / q)`: the nearest integer to the quotient, ties to even
      (computed on the exact rational, see README for floating point). */
  function RoundQuotient(p: int, q: int): (r: int)
    requires q != 0
    ensures 2 * Abs(p - r * q) <= Abs(q)
    ensures 2 * Abs(p - r * q) == Abs(q) ==> r % 2 == 0
  {
    if q < 0 then
      var r := RoundPositive(-p, -q);
      NegatedProduct(r, q);
      r
    else RoundPositive(p, q)
  }

  /** `round(p / q)` for a positive divisor. */
  function RoundPositive(p: int, q: int): (r: int)
    requires q > 0
    ensures 2 * Abs(p - r * q) <= q
    ensures 2 * Abs(p - r * q) == q ==> r % 2 == 0
  {
    var f, rem := p / q, p % q;
    FloorNeighbours(p, q);
    if 2 * rem < q then f
    else if 2 * rem > q then f + 1
    else if f % 2 == 0 then f
    else f + 1
  }

  /** The distances from `p` to the two multiples of `q` around it. */
  lemma FloorNeighbours(p: int, q: int)
    requires q > 0
    ensures p - (p / q) * q == p % q
    ensures p - (p / q + 1) * q == p % q - q
  {
  }

  lemma NegatedProduct(r: int, q: int)
    ensures r * -q == -(r * q)
  {
  }

  /** Rounding an exact quotient gives the quotient back. */
  lemma RoundQuotientExact(i: int, k: int)
    requires k != 0
    ensures RoundQuotient(i * k, k) == i
  {
    var r := RoundQuotient(i * k, k);
    NearestMultipleIsExact(i, k, r);
  }

  lemma NearestMultipleIsExact(i: int, k: int, r: int)
    requires k != 0
    requires 2 * Abs(i * k - r * k) <= Abs(k)
    ensures r == i
  {
    var d := i - r;
    assert i * k - r * k == d * k by {
      assert (i - r) * k == i * k - r * k;
    }
    if d != 0 {
      NonZeroMultipleAtLeast(d, k);
    }
  }

  lemma NonZeroMultipleAtLeast(d: int, k: int)
    requires d != 0
    ensures Abs(d * k) >= Abs(k)
  {
    var a, b := Abs(d), Abs(k);
    assert Abs(d * k) == a * b by {
      if d < 0 && k < 0 {
        assert d * k == (-d) * (-k);
      } else if d < 0 {
        assert d * k == -((-d) * k);
      } else if k < 0 {
        assert d * k == -(d * (-k));
      }
    }
    assert a * b >= b by {
      assert a * b == (a - 1) * b + b;
      assert (a - 1) * b >= 0;
    }
  }

  /** 10^e. */
  function Pow10(e: nat): (r: nat)
    ensures r >= 1
    ensures e > 0 ==> r % 10 == 0
  {
    if e == 0 then 1 else 10 * Pow10(e - 1)
  }

  /** A multiple of a positive `p` divides back exactly. */
  lemma ExactMultiple(i: int, p: int)
    requires p >= 1
    ensures (i * p) % p == 0 && (i * p) / p == i
  {
    var q, r := (i * p) / p, (i * p) % p;
    assert (i - q) * p == r by {
      assert i * p == q * p + r;
      assert (i - q) * p == i * p - q * p;
    }
    if i != q {
      NonZeroMultipleAtLeast(i - q, p);
    }
  }

  /** Powers of ten add their exponents when multiplied. */
  lemma {:induction false} Pow10Add(a: nat, b: nat)
    ensures Pow10(a + b) == Pow10(a) * Pow10(b)
  {
    if a > 0 {
      Pow10Add(a - 1, b);
      assert Pow10(a + b) == 10 * Pow10(a - 1 + b);
    }
  }
}
