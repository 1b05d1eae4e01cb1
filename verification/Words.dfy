/**
 The 32-bit operations crypto/camellia.c is written with, and the laws they obey.
 Proofs above this module hide the definitions and use only the laws.
 */
module Words {

  function Xor(a: bv32, b: bv32): bv32 { a ^ b }

  function And(a: bv32, b: bv32): bv32 { a & b }

  function Or(a: bv32, b: bv32): bv32 { a | b }

  function AndNot(a: bv32, b: bv32): bv32 { a & !b }

  function Rol1(a: bv32): bv32 { a.RotateLeft(1) }

  function Rol8(a: bv32): bv32 { a.RotateLeft(8) }

  function Ror8(a: bv32): bv32 { a.RotateRight(8) }

  lemma XorComm(a: bv32, b: bv32)
    ensures Xor(a, b) == Xor(b, a)
  {
  }

  lemma XorAssoc(a: bv32, b: bv32, c: bv32)
    ensures Xor(a, Xor(b, c)) == Xor(Xor(a, b), c)
  {
    calc {
      Xor(a, Xor(b, c));
      Xor(a, b ^ c);
      a ^ (b ^ c);
      (a ^ b) ^ c;
      Xor(a ^ b, c);
      Xor(Xor(a, b), c);
    }
  }

  lemma XorSelf(a: bv32, b: bv32)
    ensures Xor(Xor(a, b), b) == a
  {
    assert Xor(a ^ b, b) == (a ^ b) ^ b;
  }

  lemma AndDistributes(a: bv32, b: bv32, k: bv32)
    ensures (a ^ b) & k == (a & k) ^ (b & k)
  {
  }

  lemma OrDistributes(a: bv32, b: bv32, k: bv32)
    ensures (a ^ b) | k == (a | k) ^ (b & !k)
  {
  }

  lemma AndLinear(a: bv32, b: bv32, k: bv32)
    ensures And(Xor(a, b), k) == Xor(And(a, k), And(b, k))
  {
    calc {
      And(Xor(a, b), k);
      And(a ^ b, k);
      (a ^ b) & k;
      { AndDistributes(a, b, k); }
      (a & k) ^ (b & k);
      Xor(a & k, b & k);
      Xor(And(a, k), And(b, k));
    }
  }

  lemma AndNotLinear(a: bv32, b: bv32, k: bv32)
    ensures AndNot(Xor(a, b), k) == Xor(AndNot(a, k), AndNot(b, k))
  {
    calc {
      AndNot(Xor(a, b), k);
      AndNot(a ^ b, k);
      (a ^ b) & !k;
      { AndDistributes(a, b, !k); }
      (a & !k) ^ (b & !k);
      Xor(a & !k, b & !k);
      Xor(AndNot(a, k), AndNot(b, k));
    }
  }

  /** Or is not linear, but a difference in its input leaves as AndNot. */
  lemma OrAffine(a: bv32, b: bv32, k: bv32)
    ensures Or(Xor(a, b), k) == Xor(Or(a, k), AndNot(b, k))
  {
    calc {
      Or(Xor(a, b), k);
      Or(a ^ b, k);
      (a ^ b) | k;
      { OrDistributes(a, b, k); }
      (a | k) ^ (b & !k);
      Xor(a | k, b & !k);
      Xor(Or(a, k), AndNot(b, k));
    }
  }

  lemma Rol1Linear(a: bv32, b: bv32)
    ensures Rol1(Xor(a, b)) == Xor(Rol1(a), Rol1(b))
  {
    assert Rol1(a ^ b) == (a ^ b).RotateLeft(1);
    assert Xor(a.RotateLeft(1), b.RotateLeft(1)) == a.RotateLeft(1) ^ b.RotateLeft(1);
  }

  lemma Ror8Linear(a: bv32, b: bv32)
    ensures Ror8(Xor(a, b)) == Xor(Ror8(a), Ror8(b))
  {
    assert Ror8(a ^ b) == (a ^ b).RotateRight(8);
    assert Xor(a.RotateRight(8), b.RotateRight(8)) == a.RotateRight(8) ^ b.RotateRight(8);
  }

  lemma Ror8Rol8(a: bv32)
    ensures Ror8(Rol8(a)) == a
  {
    assert Ror8(a.RotateLeft(8)) == a.RotateLeft(8).RotateRight(8);
  }

  // ------------------------------------------------------------------ words of bytes

  function Xor8(a: bv8, b: bv8): bv8 { a ^ b }

  /** The word with these bytes, the most significant first. */
  function Word(a: bv8, b: bv8, c: bv8, d: bv8): bv32 {
    (a as bv32 << 24) | (b as bv32 << 16) | (c as bv32 << 8) | (d as bv32)
  }

  lemma XorWord(a: bv8, b: bv8, c: bv8, d: bv8, e: bv8, f: bv8, g: bv8, h: bv8)
    ensures Xor(Word(a, b, c, d), Word(e, f, g, h)) == Word(Xor8(a, e), Xor8(b, f), Xor8(c, g), Xor8(d, h))
  {
  }

  lemma Ror8Word(a: bv8, b: bv8, c: bv8, d: bv8)
    ensures Ror8(Word(a, b, c, d)) == Word(d, a, b, c)
  {
  }

  lemma XorFour(a: bv8, b: bv8, c: bv8, d: bv8)
    ensures Xor8(Xor8(Xor8(a, b), c), d) == a ^ b ^ c ^ d
  {
    calc {
      Xor8(Xor8(Xor8(a, b), c), d);
      Xor8(Xor8(a ^ b, c), d);
      Xor8((a ^ b) ^ c, d);
      a ^ b ^ c ^ d;
    }
  }

  lemma FirstIsZero(a: bv8, b: bv8, c: bv8)
    ensures Xor8(Xor8(Xor8(0, a), b), c) == a ^ b ^ c
  {
    calc {
      Xor8(Xor8(Xor8(0, a), b), c);
      { XorFour(0, a, b, c); }
      0 ^ a ^ b ^ c;
      a ^ b ^ c;
    }
  }

  lemma SecondIsZero(a: bv8, b: bv8, c: bv8)
    ensures Xor8(Xor8(Xor8(a, 0), b), c) == a ^ b ^ c
  {
    calc {
      Xor8(Xor8(Xor8(a, 0), b), c);
      { XorFour(a, 0, b, c); }
      a ^ 0 ^ b ^ c;
      a ^ b ^ c;
    }
  }

  lemma ThirdIsZero(a: bv8, b: bv8, c: bv8)
    ensures Xor8(Xor8(Xor8(a, b), 0), c) == a ^ b ^ c
  {
    calc {
      Xor8(Xor8(Xor8(a, b), 0), c);
      { XorFour(a, b, 0, c); }
      a ^ b ^ 0 ^ c;
      a ^ b ^ c;
    }
  }

  lemma FourthIsZero(a: bv8, b: bv8, c: bv8)
    ensures Xor8(Xor8(Xor8(a, b), c), 0) == a ^ b ^ c
  {
    calc {
      Xor8(Xor8(Xor8(a, b), c), 0);
      { XorFour(a, b, c, 0); }
      a ^ b ^ c ^ 0;
      a ^ b ^ c;
    }
  }

  lemma XorThrees(a: bv8, b: bv8, c: bv8, d: bv8, e: bv8, f: bv8)
    ensures Xor8(a ^ b ^ c, d ^ e ^ f) == d ^ e ^ f ^ b ^ c ^ a
  {
    assert Xor8(a ^ b ^ c, d ^ e ^ f) == (a ^ b ^ c) ^ (d ^ e ^ f);
  }

  lemma XorThreesInOrder(a: bv8, b: bv8, c: bv8, d: bv8, e: bv8, f: bv8)
    ensures Xor8(a ^ b ^ c, d ^ e ^ f) == d ^ e ^ f ^ a ^ b ^ c
  {
    assert Xor8(a ^ b ^ c, d ^ e ^ f) == (a ^ b ^ c) ^ (d ^ e ^ f);
  }

  // How two summands cancel in the last four bytes of the P-function.

  lemma CancelLastTwo(x: bv8, p: bv8, q: bv8, y: bv8, u: bv8, v: bv8, w: bv8)
    ensures Xor8(x ^ p ^ q, y ^ p ^ q ^ u ^ v ^ w) == y ^ x ^ u ^ v ^ w
  {
    assert Xor8(x ^ p ^ q, y ^ p ^ q ^ u ^ v ^ w) == (x ^ p ^ q) ^ (y ^ p ^ q ^ u ^ v ^ w);
  }

  lemma CancelOuter(p: bv8, x: bv8, q: bv8, y: bv8, u: bv8, v: bv8, w: bv8)
    ensures Xor8(p ^ x ^ q, p ^ y ^ q ^ u ^ v ^ w) == y ^ x ^ u ^ v ^ w
  {
    assert Xor8(p ^ x ^ q, p ^ y ^ q ^ u ^ v ^ w) == (p ^ x ^ q) ^ (p ^ y ^ q ^ u ^ v ^ w);
  }

  lemma CancelFirstTwo(p: bv8, q: bv8, x: bv8, y: bv8, u: bv8, v: bv8, w: bv8)
    ensures Xor8(p ^ q ^ x, p ^ q ^ y ^ u ^ v ^ w) == y ^ x ^ u ^ v ^ w
  {
    assert Xor8(p ^ q ^ x, p ^ q ^ y ^ u ^ v ^ w) == (p ^ q ^ x) ^ (p ^ q ^ y ^ u ^ v ^ w);
  }

  lemma CancelShifted(x: bv8, p: bv8, q: bv8, y: bv8, u: bv8, v: bv8, w: bv8)
    ensures Xor8(x ^ p ^ q, p ^ q ^ y ^ u ^ v ^ w) == x ^ y ^ u ^ v ^ w
  {
    assert Xor8(x ^ p ^ q, p ^ q ^ y ^ u ^ v ^ w) == (x ^ p ^ q) ^ (p ^ q ^ y ^ u ^ v ^ w);
  }

  lemma Rol1Shifts(x: bv32)
    ensures Rol1(x) == (x << 1) | (x >> 31)
  {
  }

  lemma XorOr(a: bv32, b: bv32, c: bv32)
    ensures Xor(a, Or(b, c)) == a ^ (b | c)
  {
    calc {
      Xor(a, Or(b, c));
      Xor(a, b | c);
      a ^ (b | c);
    }
  }

  lemma XorRolAnd(a: bv32, b: bv32, c: bv32)
    ensures Xor(a, Rol1(And(b, c))) == a ^ (((b & c) << 1) | ((b & c) >> 31))
  {
    calc {
      Xor(a, Rol1(And(b, c)));
      Xor(a, Rol1(b & c));
      { Rol1Shifts(b & c); }
      Xor(a, ((b & c) << 1) | ((b & c) >> 31));
      a ^ (((b & c) << 1) | ((b & c) >> 31));
    }
  }
}
