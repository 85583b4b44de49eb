/**
 Privacy amplification (qchat/protocols.py, `_amplify_privacy`): two reconciled bytes X and a random
 seed Y give a key byte, the high half of Y * X[0], and a tag, the low half plus X[1].
 */
module Extraction {
  import opened Bits

  /** `int(''.join(...), 2)`: the number with the given binary digits, most significant first. */
  function Number(b: Bits): nat {
    if |b| == 0 then 0 else 2 * Number(b[..|b| - 1]) + Val(b[|b| - 1])
  }

  function KeyByte(seed: nat, x0: nat): nat {
    seed * x0 / 256
  }

  function Tag(seed: nat, x0: nat, x1: nat): nat {
    seed * x0 % 256 + x1
  }

  lemma {:induction false} NumberIsBounded(b: Bits, bound: nat)
    requires bound == Power(|b|)
    ensures Number(b) < bound
  {
    if |b| > 0 { NumberIsBounded(b[..|b| - 1], Power(|b| - 1)); }
  }

  ghost function Power(n: nat): (p: nat)
    ensures p > 0
  {
    if n == 0 then 1 else 2 * Power(n - 1)
  }

  /** `int(..., 2)` of a block fits the two bytes that `to_bytes(2, 'big')` asks for. */
  lemma TwoBytes(b: Bits)
    requires |b| == 16
    ensures Number(b) < 65536
    ensures Spells(Number(b) / 256, Number(b) % 256, b)
  {
    BlockIsSpelled(b);
    assert Power(8) == 256;
    assert Power(12) == 4096;
    assert Power(16) == 65536;
    NumberIsBounded(b, Power(16));
  }

  /** Digit i of a number of |b| binary digits, counted from the most significant one. */
  lemma {:induction false} DigitOfNumber(b: Bits, i: nat)
    requires i < |b|
    ensures b[i] <==> Number(b) / Power(|b| - 1 - i) % 2 == 1
  {
    var init := b[..|b| - 1];
    if i < |b| - 1 {
      DigitOfNumber(init, i);
      DoubleQuotient(Number(init), Val(b[|b| - 1]), Power(|b| - 2 - i));
    }
  }

  lemma DoubleQuotient(n: nat, v: nat, p: nat)
    requires p > 0 && v < 2
    ensures (2 * n + v) / (2 * p) == n / p
  {
    var q, r := n / p, n % p;
    assert n == p * q + r;
    assert 2 * n + v == (2 * p) * q + (2 * r + v);
    QuotientIs(2 * n + v, 2 * p, q, 2 * r + v);
  }

  lemma QuotientIs(n: nat, d: nat, q: nat, r: nat)
    requires d > 0 && n == d * q + r && r < d
    ensures n / d == q && n % d == r
  {
    var q', r' := n / d, n % d;
    assert d * (q - q') == r' - r;
    if q != q' {
      NoSmallMultiple(d, q - q');
    }
  }

  /** Different blocks of digits are different numbers. */
  lemma NumberIsInjective(a: Bits, b: Bits)
    requires |a| == |b| && Number(a) == Number(b)
    ensures a == b
  {
    forall i | 0 <= i < |a| ensures a[i] == b[i] {
      DigitOfNumber(a, i);
      DigitOfNumber(b, i);
    }
  }

  lemma {:induction false} NumberOfConcat(a: Bits, b: Bits)
    ensures Number(a + b) == Number(a) * Power(|b|) + Number(b)
  {
    if b == [] {
      assert a + b == a;
    } else {
      var init := b[..|b| - 1];
      NumberOfConcat(a, init);
      assert (a + b)[..|a + b| - 1] == a + init;
      assert 2 * (Number(a) * Power(|init|)) == Number(a) * (2 * Power(|init|));
    }
  }

  /** The bit of value 2^j in a byte. */
  predicate BitOf(v: nat, j: nat)
    requires j < 8
  {
    v / (if j == 0 then 1 else if j == 1 then 2 else if j == 2 then 4 else if j == 3 then 8
         else if j == 4 then 16 else if j == 5 then 32 else if j == 6 then 64 else 128) % 2 == 1
  }

  /** Two bytes spell a block of sixteen bits, the most significant bit of the first byte first. */
  ghost predicate Spells(x0: nat, x1: nat, b: Bits) {
    && |b| == 16 && x0 < 256 && x1 < 256
    && (forall i :: 0 <= i < 8 ==> (b[i] <==> BitOf(x0, 7 - i)))
    && (forall i :: 8 <= i < 16 ==> (b[i] <==> BitOf(x1, 15 - i)))
  }

  lemma ByteDigits(b: Bits, i: nat)
    requires |b| == 8 && i < 8
    ensures b[i] <==> BitOf(Number(b), 7 - i)
  {
    DigitOfNumber(b, i);
    var p := Power(7 - i);
    assert Power(0) == 1 && Power(1) == 2 && Power(2) == 4 && Power(3) == 8;
    assert Power(4) == 16 && Power(5) == 32 && Power(6) == 64 && Power(7) == 128;
  }

  lemma ByteIsBounded(b: Bits)
    requires |b| == 8
    ensures Number(b) < 256
  {
    NumberIsBounded(b, Power(8));
    assert Power(4) == 16 && Power(8) == 256;
  }

  /** `to_bytes(2, 'big')` of a block: its first and its last eight bits, which the two bytes spell. */
  lemma BlockIsSpelled(b: Bits)
    requires |b| == 16
    ensures Number(b) / 256 == Number(b[..8]) && Number(b) % 256 == Number(b[8..])
    ensures Spells(Number(b) / 256, Number(b) % 256, b)
  {
    assert b == b[..8] + b[8..];
    NumberOfConcat(b[..8], b[8..]);
    assert Power(4) == 16 && Power(8) == 256;
    ByteIsBounded(b[..8]);
    ByteIsBounded(b[8..]);
    forall i | 0 <= i < 8 ensures b[i] <==> BitOf(Number(b[..8]), 7 - i) { ByteDigits(b[..8], i); }
    forall i | 8 <= i < 16 ensures b[i] <==> BitOf(Number(b[8..]), 15 - i) { ByteDigits(b[8..], i - 8); }
  }

  /** `to_bytes(2, 'big')` of the product: the key byte is its high byte, the tag its low byte plus X[1]. */
  lemma HalvesOfProduct(seed: nat, x0: nat, x1: nat)
    requires seed < 256 && x0 < 256
    ensures KeyByte(seed, x0) < 256 && x1 <= Tag(seed, x0, x1) < x1 + 256
    ensures seed * x0 == 256 * KeyByte(seed, x0) + (Tag(seed, x0, x1) - x1)
  {
    ProductFits(seed, x0);
  }

  /** The product fits the two bytes that `to_bytes(2, 'big')` asks for, and the halves are bytes. */
  lemma ProductFits(seed: nat, x0: nat)
    requires seed < 256 && x0 < 256
    ensures seed * x0 < 65536 && KeyByte(seed, x0) < 256
  {
    ProductOfBytes(seed, x0);
  }

  lemma ProductOfBytes(a: nat, b: nat)
    requires a < 256 && b < 256
    ensures a * b <= 255 * b <= 255 * 255
  {
    assert (255 - a) * b >= 0;
  }

  lemma Doubling(y: int, h: int)
    ensures y * (2 * h) == 2 * (y * h) && 2 * h % 2 == 0
  {
  }

  lemma HalfCancels(y: int, d: int, n: int)
    requires y % 2 == 1 && y * d == 2 * n
    ensures d % 2 == 0 && y * (d / 2) == n
  {
    assert d % 2 == 0 by {
      Doubling(1, n);
      OddTimesOdd(y, d);
    }
    HalfOfEven(y, d, d / 2, n);
  }

  lemma HalfOfEven(y: int, d: int, h: int, n: int)
    requires d == 2 * h && y * d == 2 * n
    ensures y * h == n
  {
    Doubling(y, h);
  }

  lemma DoubledMultiple(p: int, d: int)
    requires p > 0 && d % 2 == 0 && d / 2 % p == 0
    ensures d % (2 * p) == 0
  {
    var r := d / 2 / p;
    assert d == (2 * p) * r;
    MultipleOf(2 * p, r);
  }

  lemma {:induction false} OddCancels(y: int, d: int, k: nat)
    requires y % 2 == 1 && y * d % Power(k) == 0
    ensures d % Power(k) == 0
    decreases k
  {
    if k > 0 {
      var p := Power(k - 1);
      var q := y * d / (2 * p);
      assert y * d == 2 * (p * q);
      HalfCancels(y, d, p * q);
      MultipleOf(p, q);
      OddCancels(y, d / 2, k - 1);
      DoubledMultiple(p, d);
    }
  }

  lemma OddTimesOddIsOdd(y: int, d: int)
    requires y % 2 == 1 && d % 2 == 1
    ensures y * d % 2 == 1
  {
    var a, b := y / 2, d / 2;
    assert y * d == 2 * (a * d + b) + 1 by {
      assert y * d == (2 * a + 1) * d == 2 * (a * d) + d;
    }
  }

  lemma OddTimesOdd(y: int, d: int)
    requires y % 2 == 1 && y * d % 2 == 0
    ensures d % 2 == 0
  {
    if d % 2 == 1 {
      OddTimesOddIsOdd(y, d);
    }
  }

  lemma NoSmallMultiple(p: int, k: int)
    requires p > 0 && k != 0
    ensures p * k >= p || p * k <= -p
  {
    if k >= 1 {
      assert p * k >= p * 1;
    } else {
      assert p * k <= p * -1;
    }
  }

  lemma MultipleOf(p: int, q: int)
    requires p > 0
    ensures p * q % p == 0
  {
    var n := p * q;
    assert n == p * (n / p) + n % p;
    assert p * (q - n / p) == n % p;
    if q != n / p {
      NoSmallMultiple(p, q - n / p);
    }
  }

  /** Multiplication by an odd seed is injective on bytes modulo 256. */
  lemma OddSeedIsInjective(seed: nat, a: nat, b: nat)
    requires seed % 2 == 1 && a < 256 && b < 256
    requires seed * a % 256 == seed * b % 256
    ensures a == b
  {
    var m, n := seed * a / 256, seed * b / 256;
    assert seed * (a - b) == 256 * (m - n) by {
      assert seed * a - seed * b == seed * (a - b);
    }
    MultipleOf(256, m - n);
    assert Power(8) == 256;
    OddCancels(seed, a - b, 8);
  }

  /**
   When is a matching tag a proof of equal key bytes, for peers that share the second input byte?
   Exactly for odd seeds and for zero: every other even seed lets some unequal pair through.
   */
  lemma TagProvesKeyByte(seed: nat)
    requires seed < 256
    ensures (forall a: nat, b: nat, x1: nat :: a < 256 && b < 256 && Tag(seed, a, x1) == Tag(seed, b, x1)
                                      ==> KeyByte(seed, a) == KeyByte(seed, b))
            <==> seed % 2 == 1 || seed == 0
  {
    if seed % 2 == 1 {
      forall a: nat, b: nat, x1: nat | a < 256 && b < 256 && Tag(seed, a, x1) == Tag(seed, b, x1)
        ensures KeyByte(seed, a) == KeyByte(seed, b)
      {
        OddSeedIsInjective(seed, a, b);
      }
    } else if seed > 0 {
      EvenSeedCollides(seed);
      assert Tag(seed, 0, 0) == Tag(seed, 128, 0) && KeyByte(seed, 0) != KeyByte(seed, 128);
    } else {
      forall a: nat ensures KeyByte(0, a) == 0 { assert 0 * a == 0; }
    }
  }

  /** After an accepted tag the key bytes agree iff the follower's check would also pass without `% 256`. */
  lemma AcceptedBytesAgreeIff(seed: nat, a: nat, b: nat, x1: nat, y1: nat)
    requires Tag(seed, a, x1) == Tag(seed, b, y1)
    ensures KeyByte(seed, a) == KeyByte(seed, b) <==> seed * a + x1 == seed * b + y1
  {
    assert seed * a == 256 * KeyByte(seed, a) + seed * a % 256;
    assert seed * b == 256 * KeyByte(seed, b) + seed * b % 256;
  }

  /** A seed and an input whose product is a multiple of 256 share the tag 0 with the input 0. */
  lemma MultiplesShareTag(seed: nat, f0: nat, q: nat)
    requires seed * f0 == 256 * q
    ensures Tag(seed, 0, 0) == Tag(seed, f0, 0)
    ensures KeyByte(seed, 0) == 0 && KeyByte(seed, f0) == q
  {
    assert seed * 0 == 0;
  }

  /** With the inputs 255, 0 and 0, 256 - seed, the tags agree and the key bytes are seed - 1 and 0. */
  lemma NoisyTagCollides(seed: nat)
    requires 2 <= seed < 256
    ensures Tag(seed, 255, 0) == Tag(seed, 0, 256 - seed)
    ensures KeyByte(seed, 255) == seed - 1 != KeyByte(seed, 0) == 0
  {
    assert seed * 255 == 256 * (seed - 1) + (256 - seed);
    assert seed * 0 == 0;
  }

  /**
   When is an accepted tag a proof of equal key bytes, whatever noise has done to either input byte?
   Only for the seeds 0 and 1, whose key bytes are always 0: every other seed lets some unequal pair through.
   */
  lemma AcceptanceProvesKeyByte(seed: nat)
    requires seed < 256
    ensures (forall a: nat, b: nat, x1: nat, y1: nat ::
               a < 256 && b < 256 && x1 < 256 && y1 < 256 && Tag(seed, a, x1) == Tag(seed, b, y1)
               ==> KeyByte(seed, a) == KeyByte(seed, b))
            <==> seed < 2
  {
    if seed < 2 {
      forall a: nat | a < 256 ensures KeyByte(seed, a) == 0 {
        assert seed * a == if seed == 0 then 0 else a;
      }
    } else {
      NoisyTagCollides(seed);
    }
  }

  /** The inputs 0 and 128 pass each other's tag under any even seed, with key bytes 0 and seed / 2. */
  lemma EvenSeedCollides(seed: nat)
    requires seed % 2 == 0
    ensures seed * 0 % 256 == seed * 128 % 256
    ensures KeyByte(seed, 0) == 0 && KeyByte(seed, 128) == seed / 2
  {
    var h := seed / 2;
    assert seed * 128 == 256 * h;
    MultipleOf(256, h);
  }
}
