/** 64-bit words as bits, least significant first, with the operations the placement hash uses. */
module Words {

  const WIDTH: nat := 64
  const MODULUS: nat := 0x1_0000_0000_0000_0000

  type Word = w: seq<bool> | |w| == WIDTH witness seq(WIDTH, _ => false)

  function Xor(a: Word, b: Word): Word {
    seq(WIDTH, i requires 0 <= i < WIDTH => a[i] != b[i])
  }

  /** x ^ (x >> n). */
  function ShiftXor(x: Word, n: nat): Word {
    seq(WIDTH, i requires 0 <= i < WIDTH => x[i] != (i + n < WIDTH && x[i + n]))
  }

  /** x ^ (x >> n) ^ (x >> 2n). */
  function Unshift(x: Word, n: nat): Word {
    seq(WIDTH, i requires 0 <= i < WIDTH =>
      (x[i] != (i + n < WIDTH && x[i + n])) != (i + 2 * n < WIDTH && x[i + 2 * n]))
  }

  /** Shifting by more than a third of the width is undone by shifting twice. */
  lemma ShiftUndone(x: Word, n: nat)
    requires 3 * n >= WIDTH
    ensures Unshift(ShiftXor(x, n), n) == x && ShiftXor(Unshift(x, n), n) == x
  {
  }

  lemma XorCancels(a: Word, b: Word, c: Word)
    ensures Xor(a, b) == Xor(a, c) <==> b == c
  {
    if Xor(a, b) == Xor(a, c) {
      forall i | 0 <= i < WIDTH ensures b[i] == c[i] {
        assert Xor(a, b)[i] == Xor(a, c)[i];
      }
    }
  }

  // ---------------------------------------------------------------- numbers

  function Power(n: nat): (p: nat)
    ensures p >= 1
  {
    if n == 0 then 1 else 2 * Power(n - 1)
  }

  function Value(bits: seq<bool>): (v: nat)
    ensures v < Power(|bits|)
  {
    if bits == [] then 0 else (if bits[0] then 1 else 0) + 2 * Value(bits[1..])
  }

  function Bits(v: nat, n: nat): (bits: seq<bool>)
    ensures |bits| == n
    decreases n
  {
    if n == 0 then [] else [v % 2 == 1] + Bits(v / 2, n - 1)
  }

  lemma {:induction false} BitsOfValue(bits: seq<bool>)
    ensures Bits(Value(bits), |bits|) == bits
    decreases |bits|
  {
    if bits != [] {
      BitsOfValue(bits[1..]);
    }
  }

  lemma {:induction false} ValueOfBits(v: nat, n: nat)
    requires v < Power(n)
    ensures Value(Bits(v, n)) == v
    decreases n
  {
    if n > 0 {
      ValueOfBits(v / 2, n - 1);
      assert Bits(v, n)[1..] == Bits(v / 2, n - 1);
    }
  }

  lemma {:induction false} PowerSum(a: nat, b: nat)
    ensures Power(a + b) == Power(a) * Power(b)
    decreases a
  {
    if a > 0 { PowerSum(a - 1, b); }
  }

  lemma Square(n: nat, p: nat)
    requires Power(n) == p
    ensures Power(n + n) == p * p
  {
    PowerSum(n, n);
  }

  lemma PowerWidth()
    ensures Power(WIDTH) == MODULUS
  {
    var four: nat := 4;
    Square(four, 16);
    Square(four + four, 0x100);
    Square(four + four + four + four, 0x1_0000);
    Square(4 * (four + four), 0x1_0000_0000);
  }

  lemma ValueBound(w: Word)
    ensures Value(w) < MODULUS
  {
    PowerWidth();
  }

  /** Words are equal exactly when their numbers are. */
  lemma SameValue(a: Word, b: Word)
    ensures Value(a) == Value(b) <==> a == b
  {
    BitsOfValue(a);
    BitsOfValue(b);
  }

  // ---------------------------------------------------------------- multiplication

  function Multiply(x: Word, c: nat): Word {
    Bits((Value(x) * c) % MODULUS, WIDTH)
  }

  lemma ValueOfProduct(x: Word, c: nat)
    ensures Value(Multiply(x, c)) == (Value(x) * c) % MODULUS
  {
    PowerWidth();
    ValueOfBits((Value(x) * c) % MODULUS, WIDTH);
  }

  const FACTOR1: nat := 0xbf58476d1ce4e5b9
  const INVERSE1: nat := 0x96de1b173f119089
  const FACTOR2: nat := 0x94d049bb133111eb
  const INVERSE2: nat := 0x319642b2d24d8ec3

  /** Multiplying by a factor and then by its inverse modulo 2^64. */
  lemma Residue1(v: nat)
    requires v < MODULUS
    ensures ((v * FACTOR1) % MODULUS * INVERSE1) % MODULUS == v
    ensures ((v * INVERSE1) % MODULUS * FACTOR1) % MODULUS == v
  {
    assert FACTOR1 * INVERSE1 == 0x70c3bca78f27f46c * MODULUS + 1;
    var q, r := v * FACTOR1 / MODULUS, v * FACTOR1 % MODULUS;
    assert r * INVERSE1 == v + MODULUS * (v * 0x70c3bca78f27f46c - q * INVERSE1);
    Remainder(r * INVERSE1, v, v * 0x70c3bca78f27f46c - q * INVERSE1);
    var q', r' := v * INVERSE1 / MODULUS, v * INVERSE1 % MODULUS;
    assert r' * FACTOR1 == v + MODULUS * (v * 0x70c3bca78f27f46c - q' * FACTOR1);
    Remainder(r' * FACTOR1, v, v * 0x70c3bca78f27f46c - q' * FACTOR1);
  }

  lemma Residue2(v: nat)
    requires v < MODULUS
    ensures ((v * FACTOR2) % MODULUS * INVERSE2) % MODULUS == v
    ensures ((v * INVERSE2) % MODULUS * FACTOR2) % MODULUS == v
  {
    assert FACTOR2 * INVERSE2 == 0x1cd336eda85f1453 * MODULUS + 1;
    var q, r := v * FACTOR2 / MODULUS, v * FACTOR2 % MODULUS;
    assert r * INVERSE2 == v + MODULUS * (v * 0x1cd336eda85f1453 - q * INVERSE2);
    Remainder(r * INVERSE2, v, v * 0x1cd336eda85f1453 - q * INVERSE2);
    var q', r' := v * INVERSE2 / MODULUS, v * INVERSE2 % MODULUS;
    assert r' * FACTOR2 == v + MODULUS * (v * 0x1cd336eda85f1453 - q' * FACTOR2);
    Remainder(r' * FACTOR2, v, v * 0x1cd336eda85f1453 - q' * FACTOR2);
  }

  lemma Remainder(a: nat, v: nat, t: int)
    requires v < MODULUS && a == v + MODULUS * t
    ensures a % MODULUS == v
  {
  }
}
