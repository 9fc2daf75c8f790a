/** The 64-bit FNV-1a hash, as in section 2 of draft-eastlake-fnv. */
module Fnv {
  import opened Utf8

  const MODULUS: nat := 0x1_0000_0000_0000_0000
  const OFFSET_BASIS: nat := 0xcbf2_9ce4_8422_2325
  const PRIME: nat := 0x100_0000_01b3

  type Word = n: nat | n < MODULUS witness 0

  function Power(base: nat, exponent: nat): nat {
    if exponent == 0 then 1 else base * Power(base, exponent - 1)
  }

  /** Bitwise exclusive or of two numbers of the given width. */
  function Xor(x: nat, y: nat, bits: nat): (r: nat)
    ensures r < Power(2, bits)
  {
    if bits == 0 then 0
    else (if x % 2 == y % 2 then 0 else 1) + 2 * Xor(x / 2, y / 2, bits - 1)
  }

  lemma WordBits()
    ensures Power(2, 64) == MODULUS
  {
    assert Power(2, 8) == 0x100;
    assert Power(2, 16) == 0x1_0000;
    assert Power(2, 24) == 0x100_0000;
    assert Power(2, 32) == 0x1_0000_0000;
    assert Power(2, 40) == 0x100_0000_0000;
    assert Power(2, 48) == 0x1_0000_0000_0000;
    assert Power(2, 56) == 0x100_0000_0000_0000;
  }

  /** `hash ^= u64::from(byte)` */
  function XorByte(hash: Word, byte: Byte): Word {
    WordBits();
    Xor(hash, byte, 64)
  }

  /** One round; the multiplication wraps. */
  function Round(hash: Word, byte: Byte): Word {
    XorByte(hash, byte) * PRIME % MODULUS
  }

  function HashFrom(hash: Word, bytes: seq<Byte>): Word
    decreases |bytes|
  {
    if bytes == [] then hash else HashFrom(Round(hash, bytes[0]), bytes[1..])
  }

  function Hash(bytes: seq<Byte>): Word { HashFrom(OFFSET_BASIS, bytes) }

  function HexDigit(n: nat): char
    requires n < 16
  {
    "0123456789abcdef"[n]
  }

  function Hex(n: nat, digits: nat): (r: string)
    ensures |r| == digits
  {
    if digits == 0 then "" else Hex(n / 16, digits - 1) + [HexDigit(n % 16)]
  }

  /** `format!("{hash:016x}")` */
  function Hex16(hash: Word): string { Hex(hash, 16) }

  // ---- No collision between inputs that differ in one byte ----

  /** `PRIME * PRIME_INVERSE` is one more than a multiple of the modulus. */
  const PRIME_INVERSE: nat := 0xce965057aff6957b

  lemma MultiplyInjective(a: Word, b: Word)
    requires a * PRIME % MODULUS == b * PRIME % MODULUS
    ensures a == b
  {
    assert PRIME * PRIME_INVERSE == 1 + 0xce9650590f * MODULUS;
    CancelFactor(a, b, PRIME, PRIME_INVERSE, MODULUS, 0xce9650590f);
  }

  /** A factor with an inverse can be cancelled. */
  lemma CancelFactor(a: int, b: int, p: int, q: int, m: int, c: int)
    requires 0 <= a < m && 0 <= b < m && a * p % m == b * p % m && p * q == 1 + c * m
    ensures a == b
  {
    var d, k := a - b, a * p / m - b * p / m;
    DivideDifference(a * p, b * p, m);
    Distribute(a, -b, p);
    Multiple(d, k, p, q, m, c);
    Small(d, k * q - d * c, m);
  }

  lemma Associate(x: int, y: int, z: int)
    ensures x * (y * z) == (x * y) * z == (x * z) * y
  {
  }

  lemma Distribute(x: int, y: int, z: int)
    ensures (x + y) * z == x * z + y * z
  {
  }

  lemma Multiple(d: int, k: int, p: int, q: int, m: int, c: int)
    requires d * p == k * m && p * q == 1 + c * m
    ensures d == (k * q - d * c) * m
  {
    Associate(d, p, q);
    Associate(k, m, q);
    assert d * (p * q) == (k * q) * m;
    Distribute(1, c * m, d);
    Associate(d, c, m);
    assert d * (1 + c * m) == d + (d * c) * m;
    Distribute(k * q, -(d * c), m);
  }

  lemma DivideDifference(x: int, y: int, m: int)
    requires m > 0 && x % m == y % m
    ensures x - y == (x / m - y / m) * m
  {
  }

  lemma Small(d: int, z: int, m: int)
    requires -m < d < m && d == z * m
    ensures d == 0
  {
    assert z >= 1 ==> z * m >= m;
    assert z <= -1 ==> z * m <= -m;
  }

  lemma {:induction false} XorInjective(x: nat, u: nat, y: nat, v: nat, bits: nat)
    requires x < Power(2, bits) && u < Power(2, bits) && y < Power(2, bits) && v < Power(2, bits)
    requires Xor(x, y, bits) == Xor(u, v, bits) && (x == u || y == v)
    ensures x == u && y == v
  {
    if bits > 0 {
      XorInjective(x / 2, u / 2, y / 2, v / 2, bits - 1);
    }
  }

  /** A round maps different states, and different bytes, to different states. */
  lemma RoundInjective(h: Word, g: Word, a: Byte, b: Byte)
    requires Round(h, a) == Round(g, b) && (h == g || a == b)
    ensures h == g && a == b
  {
    WordBits();
    hide Xor;
    MultiplyInjective(XorByte(h, a), XorByte(g, b));
    XorInjective(h, g, a, b, 64);
  }

  // ---- The low byte of a round ----

  lemma Remainder(x: nat, q: nat, d: nat, r: nat)
    requires r < d && x == q * d + r
    ensures x % d == r && x / d == q
  {
    Distribute(q, -(x / d), d);
    Small(x % d - r, q - x / d, d);
  }

  lemma Halves(x: nat, p: nat, d: nat)
    requires p > 0 && d == 2 * p
    ensures x % d == x % 2 + 2 * (x / 2 % p)
    ensures x % d % 2 == x % 2 && x % d / 2 == x / 2 % p
  {
    var q, r := x / 2 / p, x / 2 % p;
    assert x == 2 * (q * p + r) + x % 2;
    Associate(q, 2, p);
    Remainder(x, q, d, 2 * r + x % 2);
    FromHalves(x % d, x % 2, r);
  }

  lemma XorHalves(x: nat, y: nat, bits: nat)
    requires bits > 0
    ensures Xor(x, y, bits) % 2 == (if x % 2 == y % 2 then 0 else 1)
    ensures Xor(x, y, bits) / 2 == Xor(x / 2, y / 2, bits - 1)
  {
  }

  lemma {:induction false} PowerPositive(n: nat)
    ensures Power(2, n) > 0 && Power(2, n + 1) == 2 * Power(2, n)
  {
    if n > 0 { PowerPositive(n - 1); }
  }

  lemma FromHalves(u: nat, bit: nat, half: nat)
    requires u == bit + 2 * half && bit < 2
    ensures u % 2 == bit && u / 2 == half
  {
  }

  /** The low bits of an exclusive or are the exclusive or of the low bits. */
  lemma {:induction false} XorLow(x: nat, y: nat, bits: nat, low: nat)
    requires low <= bits
    ensures Power(2, low) > 0
    ensures Xor(x, y, bits) % Power(2, low) == Xor(x % Power(2, low), y % Power(2, low), low)
    decreases low
  {
    if low > 0 {
      var p, d, z := Power(2, low - 1), Power(2, low), Xor(x, y, bits);
      PowerPositive(low - 1);
      XorLow(x / 2, y / 2, bits - 1, low - 1);
      XorHalves(x, y, bits);
      hide Xor, Power;
      Halves(x, p, d);
      Halves(y, p, d);
      Halves(z, p, d);
      var w := Xor(x % d, y % d, low);
      XorHalves(x % d, y % d, low);
      assert z % d % 2 == w % 2 && z % d / 2 == w / 2;
    }
  }

  lemma EightBits()
    ensures Power(2, 8) == 256
  {
  }

  lemma XorByteLow(h: Word, b: Byte)
    ensures XorByte(h, b) % 256 == Xor(h % 256, b, 8)
  {
    hide Xor, Power;
    EightBits();
    XorLow(h, b, 64, 8);
    SmallByte(b);
  }

  lemma SmallByte(b: Byte)
    ensures b % 256 == b
  {
  }

  /** A round takes the byte in first and multiplies then: its low byte is the product of the prime's
      low byte with the exclusive or of state and byte. */
  lemma RoundLowByte(h: Word, b: Byte)
    ensures Round(h, b) % 256 == Xor(h % 256, b, 8) * 0xb3 % 256
  {
    hide Xor, Power, XorByte;
    XorByteLow(h, b);
    LowByteOfProduct(XorByte(h, b));
  }

  // ---- A test vector ----

  lemma {:induction false} XorZero(x: nat, bits: nat)
    requires x < Power(2, bits)
    ensures Xor(x, 0, bits) == x
  {
    if bits > 0 { XorZero(x / 2, bits - 1); }
  }

  lemma HalfFirst(x: nat, p: nat, d: nat)
    requires p > 0 && d == 2 * p
    ensures x / d == x / 2 / p
  {
    var q, r := x / 2 / p, x / 2 % p;
    assert x == 2 * (q * p + r) + x % 2;
    Associate(q, 2, p);
    Remainder(x, q, d, 2 * r + x % 2);
  }

  /** The high bits of an exclusive or with a small number do not change. */
  lemma {:induction false} XorHigh(x: nat, y: nat, bits: nat, low: nat)
    requires low <= bits && x < Power(2, bits) && y < Power(2, low)
    ensures Power(2, low) > 0
    ensures Xor(x, y, bits) / Power(2, low) == x / Power(2, low)
    decreases low
  {
    if low == 0 {
      XorZero(x, bits);
    } else {
      var p, d, z := Power(2, low - 1), Power(2, low), Xor(x, y, bits);
      PowerPositive(low - 1);
      PowerPositive(bits - 1);
      XorHigh(x / 2, y / 2, bits - 1, low - 1);
      XorHalves(x, y, bits);
      hide Xor, Power;
      HalfFirst(x, p, d);
      HalfFirst(z, p, d);
    }
  }

  lemma XorByteHigh(h: Word, b: Byte)
    ensures XorByte(h, b) / 256 == h / 256
  {
    hide Xor, Power;
    EightBits();
    WordBits();
    XorHigh(h, b, 64, 8);
  }

  lemma LetterBits()
    ensures Xor(0x25, 0x61, 8) == 0x44
  {
    assert Xor(0x25 / 16, 0x61 / 16, 4) == 4;
  }

  /** The published FNV-1a value of the one-letter input "a"; it depends on the offset
      basis and on the prime. */
  lemma HashOfLetter()
    ensures Hash([0x61]) == 0xaf63_dc4c_8601_ec8c
  {
    hide Xor, Power, XorByte;
    XorByteHigh(OFFSET_BASIS, 0x61);
    XorByteLow(OFFSET_BASIS, 0x61);
    LetterBits();
    var x := XorByte(OFFSET_BASIS, 0x61);
    assert x == x / 256 * 256 + x % 256 == 0xcbf2_9ce4_8422_2344;
    Remainder(x * PRIME, 0xcbf29ce5de, MODULUS, 0xaf63_dc4c_8601_ec8c);
    assert [0x61 as Byte][1..] == [];
  }

  lemma LowByteOfProduct(x: nat)
    ensures x * PRIME % MODULUS % 256 == x % 256 * 0xb3 % 256
  {
    var high, low := x / 256, x % 256;
    var y, z := x * PRIME, low * 0xb3;
    var q, r := y / MODULUS, y % MODULUS;
    LowByteOf(y, q * 0x100_0000_0000_0000, r);
    LowByteOf(y, high * PRIME + low * 0x1_0000_0001, z);
  }

  lemma LowByteOf(y: nat, q: nat, r: nat)
    requires y == q * 256 + r
    ensures y % 256 == r % 256
  {
    Remainder(y, q + r / 256, 256, r % 256);
  }

  lemma {:induction false} HashFromInjective(h: Word, g: Word, bytes: seq<Byte>)
    requires HashFrom(h, bytes) == HashFrom(g, bytes)
    ensures h == g
    decreases |bytes|
  {
    hide Round;
    if bytes != [] {
      HashFromInjective(Round(h, bytes[0]), Round(g, bytes[0]), bytes[1..]);
      RoundInjective(h, g, bytes[0], bytes[0]);
    }
  }

  lemma {:induction false} HashFromConcat(h: Word, a: seq<Byte>, b: seq<Byte>)
    ensures HashFrom(h, a + b) == HashFrom(HashFrom(h, a), b)
    decreases |a|
  {
    if a == [] {
      assert a + b == b;
    } else {
      assert (a + b)[1..] == a[1..] + b;
      HashFromConcat(Round(h, a[0]), a[1..], b);
    }
  }

  /** Inputs of equal length that differ in exactly one byte never collide. */
  lemma OneByteNeverCollides(before: seq<Byte>, a: Byte, b: Byte, after: seq<Byte>)
    requires Hash(before + [a] + after) == Hash(before + [b] + after)
    ensures a == b
  {
    hide Round;
    var h := Hash(before);
    HashFromConcat(OFFSET_BASIS, before + [a], after);
    HashFromConcat(OFFSET_BASIS, before, [a]);
    HashFromConcat(OFFSET_BASIS, before + [b], after);
    HashFromConcat(OFFSET_BASIS, before, [b]);
    assert HashFrom(h, [a]) == Round(h, a) && HashFrom(h, [b]) == Round(h, b);
    HashFromInjective(Round(h, a), Round(h, b), after);
    RoundInjective(h, h, a, b);
  }

  /** `fnv1a64`, the loop the runtime runs. */
  method Fnv1a64(bytes: seq<Byte>) returns (hash: Word)
    ensures hash == Hash(bytes)
  {
    hash := OFFSET_BASIS;
    for i := 0 to |bytes|
      invariant hash == Hash(bytes[..i])
    {
      HashFromConcat(OFFSET_BASIS, bytes[..i], [bytes[i]]);
      assert bytes[..i] + [bytes[i]] == bytes[..i + 1];
      assert HashFrom(hash, [bytes[i]]) == Round(hash, bytes[i]);
      hash := XorByte(hash, bytes[i]);
      hash := hash * PRIME % MODULUS;
    }
    assert bytes[..|bytes|] == bytes;
  }

  // ---- Sixteen hexadecimal digits ----

  lemma {:induction false} HexInjective(m: nat, n: nat, digits: nat)
    requires m < Power(16, digits) && n < Power(16, digits) && Hex(m, digits) == Hex(n, digits)
    ensures m == n
  {
    if digits > 0 {
      var a, b := Hex(m / 16, digits - 1), Hex(n / 16, digits - 1);
      assert Hex(m, digits)[..digits - 1] == a && Hex(n, digits)[..digits - 1] == b;
      assert Hex(m, digits)[digits - 1] == HexDigit(m % 16) && Hex(n, digits)[digits - 1] == HexDigit(n % 16);
      HexInjective(m / 16, n / 16, digits - 1);
    }
  }

  lemma Hex16Injective(m: Word, n: Word)
    requires Hex16(m) == Hex16(n)
    ensures m == n
  {
    assert Power(16, 4) == 0x1_0000;
    assert Power(16, 8) == 0x1_0000_0000;
    assert Power(16, 12) == 0x1_0000_0000_0000;
    assert Power(16, 16) == MODULUS;
    HexInjective(m, n, 16);
  }
}
