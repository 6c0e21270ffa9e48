/** Shared vocabulary: optional values, fixed-width integers and Windows status codes. */
module Common {

  datatype Option<T> = None | Some(value: T)

  const TWO_POW_32: int := 0x1_0000_0000
  const TWO_POW_64: int := 0x1_0000_0000_0000_0000

  /** A C `INT`/`LONG`: 32-bit two's complement. */
  newtype int32 = x: int | -0x8000_0000 <= x < 0x8000_0000

  /** A C `LONGLONG` (the `QuadPart` of a `LARGE_INTEGER`): 64-bit two's complement. */
  newtype int64 = x: int | -0x8000_0000_0000_0000 <= x < 0x8000_0000_0000_0000

  /** Reduces an integer to 32 bits, as a truncating cast to `INT` does. */
  function Wrap32(x: int): (r: int32)
    ensures (x - r as int) % TWO_POW_32 == 0
    ensures -0x8000_0000 <= x < 0x8000_0000 ==> r as int == x
  {
    var m := (x + 0x8000_0000) % TWO_POW_32;
    assert x - (m - 0x8000_0000) == TWO_POW_32 * ((x + 0x8000_0000) / TWO_POW_32);
    (m - 0x8000_0000) as int32
  }

  /** Reduces an integer to 64 bits, as two's-complement 64-bit arithmetic does. */
  function Wrap64(x: int): (r: int64)
    ensures (x - r as int) % TWO_POW_64 == 0
    ensures -0x8000_0000_0000_0000 <= x < 0x8000_0000_0000_0000 ==> r as int == x
  {
    var m := (x + 0x8000_0000_0000_0000) % TWO_POW_64;
    assert x - (m - 0x8000_0000_0000_0000) == TWO_POW_64 * ((x + 0x8000_0000_0000_0000) / TWO_POW_64);
    (m - 0x8000_0000_0000_0000) as int64
  }

  /** Euclidean division of a non-negative number brackets it between two multiples. */
  lemma DivBounds(a: int, b: int)
    requires b > 0 && a >= 0
    ensures 0 <= (a / b) * b <= a < (a / b) * b + b
  {
    assert a == (a / b) * b + a % b && 0 <= a % b < b;
  }

  /** The product of two non-negative numbers is non-negative. */
  lemma ProductNonNegative(x: int, y: int)
    requires x >= 0 && y >= 0
    ensures x * y >= 0
  {
  }

  /** A non-negative product with a positive factor has a non-negative other factor. */
  lemma FactorNonNegative(x: int, y: int)
    requires y > 0 && x * y >= 0
    ensures x >= 0
  {
    if x < 0 {
      ProductNonNegative(-x, y - 1);
    }
  }

  /** A non-negative quotient by a positive divisor is no larger than the dividend. */
  lemma QuotientNoLarger(a: int, b: int)
    requires b > 0 && a >= 0
    ensures 0 <= a / b <= a
  {
    DivBounds(a, b);
    var q := a / b;
    FactorNonNegative(q, b);
    ProductNonNegative(q, b - 1);
    assert q * b == q * (b - 1) + q;
  }

  /** C++ integer division by a positive divisor: the quotient is truncated toward zero. */
  function TruncDiv(a: int, b: int): (q: int)
    requires b > 0
    ensures 0 <= a ==> 0 <= q * b <= a < q * b + b
    ensures a < 0 ==> a <= q * b <= 0 && q * b < a + b
    ensures 0 <= a ==> 0 <= q <= a
    ensures a < 0 ==> a <= q <= 0
  {
    if a >= 0 then
      DivBounds(a, b);
      QuotientNoLarger(a, b);
      a / b
    else
      DivBounds(-a, b);
      QuotientNoLarger(-a, b);
      var p := (-a) / b;
      assert (-p) * b == -(p * b);
      -p
  }

  /** HRESULT: a 32-bit status code whose sign bit means failure. */
  type HResult = int32

  /** Reads a 32-bit pattern such as 0x80004005 as the signed HRESULT it denotes. */
  function FromBits32(bits: nat): (hr: HResult)
    requires bits < TWO_POW_32
    ensures (hr as int - bits) % TWO_POW_32 == 0
    ensures hr < 0 <==> bits >= 0x8000_0000
  {
    if bits < 0x8000_0000 then bits as int32 else (bits - TWO_POW_32) as int32
  }

  const S_OK: HResult := 0
  const E_FAIL: HResult := FromBits32(0x8000_4005)
  const E_INVALIDARG: HResult := FromBits32(0x8007_0057)

  predicate Succeeded(hr: HResult) { hr >= 0 }
  predicate Failed(hr: HResult) { hr < 0 }
}
