/**
 * Eight-bit arithmetic of the SimpSIM machine, shared by the two
 * translators: registers and memory cells hold 0..255, `addi` adds modulo
 * 256 and `xor` is bitwise.
 */
module Byte {
  predicate EhByte(v: int) {
    0 <= v < 256
  }

  /** What a register or a memory cell holds. */
  type Octeto = v: int | 0 <= v < 256

  /** A constant as the machine stores it (two's complement for negatives). */
  function DeInteiro(v: int): (b: int)
    ensures EhByte(b)
  {
    v % 256
  }

  function Soma(a: int, b: int): (s: int)
    ensures EhByte(s)
  {
    (a + b) % 256
  }

  /** Bitwise exclusive or of two naturals, lowest bit first. */
  function Xor(a: nat, b: nat): nat
    decreases a + b
  {
    if a == 0 && b == 0 then 0 else 2 * Xor(a / 2, b / 2) + (a % 2 + b % 2) % 2
  }

  function Pot2(k: nat): (p: nat)
    ensures p >= 1
  {
    if k == 0 then 1 else 2 * Pot2(k - 1)
  }

  lemma {:induction false} XorLimiteK(a: nat, b: nat, k: nat)
    requires a < Pot2(k) && b < Pot2(k)
    ensures Xor(a, b) < Pot2(k)
  {
    if k > 0 && !(a == 0 && b == 0) {
      XorLimiteK(a / 2, b / 2, k - 1);
    }
  }

  /** `xor` of two bytes is a byte. */
  lemma XorByte(a: nat, b: nat)
    requires EhByte(a) && EhByte(b)
    ensures EhByte(Xor(a, b))
  {
    assert Pot2(8) == 256;
    XorLimiteK(a, b, 8);
  }

  /** The machine's `xor` of two bytes. */
  function XorOcteto(a: Octeto, b: Octeto): Octeto {
    XorByte(a, b);
    Xor(a, b)
  }

  lemma {:induction false} MascaraK(b: nat, k: nat)
    requires b < Pot2(k)
    ensures Xor(b, Pot2(k) - 1) == Pot2(k) - 1 - b
  {
    if k > 0 {
      var p, q := Pot2(k), Pot2(k - 1);
      assert p - 1 == 2 * (q - 1) + 1;
      assert (p - 1) / 2 == q - 1 && (p - 1) % 2 == 1;
      assert b / 2 < q;
      MascaraK(b / 2, k - 1);
      assert Xor(b, p - 1) == 2 * Xor(b / 2, q - 1) + (b % 2 + 1) % 2;
      assert b == 2 * (b / 2) + b % 2;
    }
  }

  /** `xor` with 0xFF is the one's complement of a byte. */
  lemma Mascara(b: nat)
    requires EhByte(b)
    ensures Xor(b, 255) == 255 - b
  {
    assert Pot2(8) == 256;
    MascaraK(b, 8);
  }

  /** One's complement plus one is the two's complement negation. */
  lemma Negacao(b: nat)
    requires EhByte(b)
    ensures Soma(Xor(b, 255), 1) == DeInteiro(-(b as int))
  {
    Mascara(b);
    var x := Xor(b, 255);
    assert x == 255 - b;
    assert Soma(x, 1) == (256 - b) % 256;
  }

  lemma SomaNegativo(a: int, b: int, n: int)
    requires EhByte(a) && EhByte(b) && n == DeInteiro(-b)
    ensures Soma(a, n) == DeInteiro(a - b)
  {
  }

  /** Adding the negation of `b` subtracts `b`. */
  lemma SubtraiPorNegacao(a: int, b: nat)
    requires EhByte(a) && EhByte(b)
    ensures Soma(a, Soma(Xor(b, 255), 1)) == DeInteiro(a - b)
  {
    Negacao(b);
    SomaNegativo(a, b, Soma(Xor(b, 255), 1));
  }

  lemma SomaDeInteiros(x: int, y: int)
    ensures Soma(DeInteiro(x), DeInteiro(y)) == DeInteiro(x + y)
  {
  }

  /** Bitwise and of two naturals, lowest bit first. */
  function And(a: nat, b: nat): nat
    decreases a
  {
    if a == 0 || b == 0 then 0 else 2 * And(a / 2, b / 2) + (a % 2) * (b % 2)
  }

  lemma {:induction false} AndLimite(a: nat, b: nat)
    ensures And(a, b) <= a
    decreases a
  {
    if a != 0 && b != 0 {
      AndLimite(a / 2, b / 2);
    }
  }

  /** The machine's `and` of two bytes. */
  function AndOcteto(a: Octeto, b: Octeto): Octeto {
    AndLimite(a, b);
    And(a, b)
  }

  lemma {:induction false} AndPot2K(d: nat, k: nat)
    requires d < Pot2(k + 1)
    ensures And(d, Pot2(k)) == if d >= Pot2(k) then Pot2(k) else 0
  {
    if k == 0 {
      if d != 0 {
        assert And(d, 1) == 2 * And(d / 2, 0) + d % 2;
      }
    } else if d != 0 {
      var p := Pot2(k);
      assert p == 2 * Pot2(k - 1) && p % 2 == 0 && p / 2 == Pot2(k - 1);
      assert And(d, p) == 2 * And(d / 2, Pot2(k - 1));
      AndPot2K(d / 2, k - 1);
    }
  }

  /** `and` with `0x80` keeps exactly the sign bit of a byte. */
  lemma BitDeSinal(d: Octeto)
    ensures AndOcteto(d, 0x80) == 0x80 <==> d >= 0x80
  {
    assert Pot2(7) == 0x80 && Pot2(8) == 256;
    AndPot2K(d, 7);
  }

  /** A byte read in two's complement. */
  function ComSinal(d: Octeto): (v: int)
    ensures -128 <= v < 128 && DeInteiro(v) == d
  {
    if d >= 0x80 then d - 256 else d
  }

  /** A difference that fits in a signed byte reads back as itself. */
  lemma ComSinalDeInteiro(v: int)
    requires -128 <= v < 128
    ensures ComSinal(DeInteiro(v)) == v
  {
  }
}
