/** The integer transforms pixtendtool applies to values read from the board:
    C's bitwise `&` and right shift, the conversions to `uint8_t` and `uint16_t`,
    the digital-input bit test of `-di BIT`, the version split of `-ucv` and the
    DHT11 high byte of `-tr`/`-hr`. */
module Bits {

  function Pow2(n: nat): (p: nat)
    ensures p >= 1
  {
    if n == 0 then 1 else 2 * Pow2(n - 1)
  }

  /** Conversion of a C `int` to `uint16_t`: reduction modulo 2^16. */
  function Uint16(x: int): (r: int)
    ensures 0 <= r < 65536
    ensures (x - r) % 65536 == 0
    ensures 0 <= x < 65536 ==> r == x
  {
    x % 65536
  }

  /** Conversion to `uint8_t`: reduction modulo 2^8. */
  function Uint8(x: int): (r: int)
    ensures 0 <= r < 256
    ensures (x - r) % 256 == 0
    ensures 0 <= x < 256 ==> r == x
  {
    x % 256
  }

  /** The conversion is the one value in 0..65535 that differs from `x` by a
      multiple of 2^16: a library result of -1 reads as 65535. */
  lemma Uint16Unique(x: int, r: int)
    requires 0 <= r < 65536 && (x - r) % 65536 == 0
    ensures Uint16(x) == r
  {
    var k := (x - r) / 65536;
    assert x - r == 65536 * k + (x - r) % 65536;
    DivModUnique(x, 65536, k, r);
  }

  /** Bit `k` of `a` in two's complement: the `k`-th binary digit, counting from
      the least significant one. Floor division keeps the sign bits for a
      negative `a`. This is the reference the bitwise operations are checked
      against. */
  function Bit(a: int, k: nat): (r: int)
    ensures r == 0 || r == 1
    decreases k
  {
    if k == 0 then a % 2 else Bit(a / 2, k - 1)
  }

  /** C's `a & b` for a two's-complement `a` and a non-negative `b`, computed
      digit by digit from the low end. */
  function BitAnd(a: int, b: nat): (r: int)
    ensures 0 <= r <= b
    decreases b
  {
    if b == 0 then 0
    else 2 * BitAnd(a / 2, b / 2) + (if a % 2 == 1 && b % 2 == 1 then 1 else 0)
  }

  /** An even mask looks at the halved value only. */
  lemma BitAndEven(a: int, p: nat)
    ensures BitAnd(a, 2 * p) == 2 * BitAnd(a / 2, p)
  {
    if p > 0 {
      assert (2 * p) / 2 == p && (2 * p) % 2 == 0;
    }
  }

  /** Masking with a single power of two keeps exactly that bit of `a`. */
  lemma {:induction false} BitAndPow2(a: int, k: nat)
    ensures BitAnd(a, Pow2(k)) == Pow2(k) * Bit(a, k)
    decreases k
  {
    if k > 0 {
      var p := Pow2(k - 1);
      BitAndEven(a, p);
      BitAndPow2(a / 2, k - 1);
      if Bit(a, k) == 0 {
        assert BitAnd(a / 2, p) == p * 0 == 0;
      } else {
        assert BitAnd(a / 2, p) == p * 1 == p;
      }
    }
  }

  /** Euclidean division is determined by any quotient/remainder pair. */
  lemma DivModUnique(a: int, d: int, q: int, r: int)
    requires d > 0 && 0 <= r < d && a == d * q + r
    ensures a / d == q && a % d == r
  {
    var q0, r0 := a / d, a % d;
    assert a == d * q0 + r0;
    assert d * (q - q0) == r0 - r by {
      assert d * (q - q0) == d * q - d * q0;
    }
    if q0 < q {
      MulAtLeast(d, q - q0);
    } else if q0 > q {
      assert d * (q0 - q) == -(d * (q - q0));
      MulAtLeast(d, q0 - q);
    }
  }

  lemma MulAtLeast(d: nat, k: int)
    requires k >= 1
    ensures d * k >= d
  {
    assert d * k == d * (k - 1) + d;
  }

  /** The remainder by `2 * p` splits into the low digit and the remainder of
      the halved value by `p`. */
  lemma ModDouble(a: int, p: nat)
    requires p > 0
    ensures a % (2 * p) == 2 * ((a / 2) % p) + a % 2
    ensures a / (2 * p) == (a / 2) / p
  {
    var h := a / 2;
    assert a == 2 * h + a % 2;
    assert h == p * (h / p) + h % p;
    assert a == (2 * p) * (h / p) + (2 * (h % p) + a % 2);
    DivModUnique(a, 2 * p, h / p, 2 * (h % p) + a % 2);
  }

  /** Masking with `2^k - 1` keeps the low `k` bits: C's `a & 0xFF` is `a mod 256`. */
  lemma {:induction false} BitAndLowMask(a: int, k: nat)
    ensures BitAnd(a, Pow2(k) - 1) == a % Pow2(k)
    decreases k
  {
    if k > 0 {
      var p := Pow2(k - 1);
      var m := Pow2(k) - 1;
      assert m == 2 * (p - 1) + 1;
      assert m / 2 == p - 1 && m % 2 == 1;
      assert BitAnd(a, m) == 2 * BitAnd(a / 2, p - 1) + a % 2;
      BitAndLowMask(a / 2, k - 1);
      ModDouble(a, p);
    }
  }

  /** The quotient of a non-negative value is the number of whole `p`s in it. */
  lemma DivBounds(a: nat, p: nat)
    requires p > 0
    ensures 0 <= a / p
    ensures (a / p) * p <= a < (a / p + 1) * p
  {
    var q, m := a / p, a % p;
    assert a == p * q + m && 0 <= m < p;
    assert q * p == p * q;
    assert (q + 1) * p == q * p + p;
  }

  /** C's `a >> n` on a non-negative value: drops the low `n` bits. */
  function ShiftRight(a: nat, n: nat): (r: int)
    ensures 0 <= r
    ensures r * Pow2(n) <= a < (r + 1) * Pow2(n)
  {
    DivBounds(a, Pow2(n));
    a / Pow2(n)
  }

  /** `-di BIT`: the reported value `(din & (1 << bit)) ? 1 : 0`, for a shift
      count C defines on `int`. It is bit `bit` of what the board returned. */
  function DinBit(din: int, bit: int): (r: int)
    requires 0 <= bit < 31
    ensures r == Bit(din, bit)
  {
    BitAndPow2(din, bit);
    if BitAnd(din, Pow2(bit)) != 0 then 1 else 0
  }

  /** The version word printed as "major.minor". */
  datatype Version = Version(major: int, minor: int)

  /** `-ucv`: `(uint8_t)(version >> 8)` and `(uint8_t)(version & 0xFF)` of the
      `uint16_t` version word; both are bytes and they rebuild the word. */
  function SplitVersion(version: int): (v: Version)
    requires 0 <= version < 65536
    ensures 0 <= v.major < 256 && 0 <= v.minor < 256
    ensures v.major * 256 + v.minor == version
  {
    assert Pow2(8) == 256;
    BitAndLowMask(version, 8);
    var hi := ShiftRight(version, 8);
    var lo := BitAnd(version, 0xFF);
    assert hi == version / 256 && lo == version % 256;
    Version(Uint8(hi), Uint8(lo))
  }

  /** Splitting the word built from two bytes gives those bytes back. */
  lemma SplitVersionJoin(major: int, minor: int)
    requires 0 <= major < 256 && 0 <= minor < 256
    ensures SplitVersion(major * 256 + minor) == Version(major, minor)
  {
    var v := SplitVersion(major * 256 + minor);
    DivModUnique(major * 256 + minor, 256, v.major, v.minor);
    DivModUnique(major * 256 + minor, 256, major, minor);
  }

  /** DHT11 readings: the `uint16_t` sensor word shifted right by 8, its high
      byte, which the sensor fills with whole degrees or percent. */
  function Dht11Value(raw: int): (r: int)
    requires 0 <= raw < 65536
    ensures 0 <= r < 256
    ensures r == raw / 256
  {
    assert Pow2(8) == 256;
    var r := ShiftRight(raw, 8);
    DivModUnique(raw, 256, r, raw - r * 256);
    r
  }

  /** A DHT11 word carries the integer part in its high byte, whatever the low byte. */
  lemma Dht11HighByte(whole: int, fraction: int)
    requires 0 <= whole < 256 && 0 <= fraction < 256
    ensures 0 <= whole * 256 + fraction < 65536
    ensures Dht11Value(whole * 256 + fraction) == whole
  {
    DivModUnique(whole * 256 + fraction, 256, whole, fraction);
  }
}
