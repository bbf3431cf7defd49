/** Bitwise operations on numbers, for code that decides without branching. */
module Bits {
  import opened Arithmetic

  function Xor(a: nat, b: nat): nat {
    if a == 0 && b == 0 then 0 else 2 * Xor(a / 2, b / 2) + (a + b) % 2
  }

  function Or(a: nat, b: nat): nat {
    if a == 0 && b == 0 then 0 else 2 * Or(a / 2, b / 2) + if a % 2 == 1 || b % 2 == 1 then 1 else 0
  }

  function And(a: nat, b: nat): nat {
    if a == 0 && b == 0 then 0 else 2 * And(a / 2, b / 2) + if a % 2 == 1 && b % 2 == 1 then 1 else 0
  }

  /** `0 - c` as an octet: all ones or nothing. */
  function Mask(c: bool): nat { if c then 255 else 0 }

  lemma {:induction false} XorZero(a: nat, b: nat)
    ensures Xor(a, b) == 0 <==> a == b
  {
    if a != 0 || b != 0 { XorZero(a / 2, b / 2); }
  }

  lemma {:induction false} OrZero(a: nat, b: nat)
    ensures Or(a, b) == 0 <==> a == 0 && b == 0
  {
    if a != 0 || b != 0 { OrZero(a / 2, b / 2); }
  }

  lemma {:induction false} OrNothing(a: nat)
    ensures Or(a, 0) == a && Or(0, a) == a
  {
    if a != 0 { OrNothing(a / 2); }
  }

  lemma {:induction false} AndNothing(a: nat)
    ensures And(a, 0) == 0
  {
    if a != 0 { AndNothing(a / 2); }
  }

  /** The numbers 1, 3, 7, ... keep what is not larger. */
  lemma {:induction false} AndOnes(a: nat, m: nat, k: nat)
    requires a <= m && m + 1 == Two(k)
    ensures And(a, m) == a
  {
    if m != 0 { AndOnes(a / 2, m / 2, k - 1); }
  }

  /** An octet under a mask stays or goes. */
  lemma Masked(a: nat, c: bool)
    requires a < 256
    ensures And(a, Mask(c)) == if c then a else 0
  {
    if c {
      assert Two(8) == 256;
      AndOnes(a, 255, 8);
    } else {
      AndNothing(a);
    }
  }

  /** Choosing between two octets with a mask and its complement. */
  lemma Chosen(a: nat, b: nat, c: bool)
    requires a < 256 && b < 256
    ensures Or(And(a, Mask(c)), And(b, Mask(!c))) == if c then a else b
  {
    hide And, Or;
    Masked(a, c);
    Masked(b, !c);
    OrNothing(if c then a else b);
  }

  /** A test against a single bit. */
  lemma {:induction false} AndBit(r: nat, k: nat)
    ensures And(r, Two(k)) != 0 <==> r / Two(k) % 2 == 1
  {
    if k == 0 {
      assert Two(k) == 1;
      AndNothing(r / 2);
    } else {
      AndBit(r / 2, k - 1);
      DivideTwice(r, 2, Two(k - 1));
      assert Two(k) / 2 == Two(k - 1) && Two(k) % 2 == 0;
    }
  }

  lemma XorOctet(a: nat, b: nat)
    requires a < 256 && b < 256
    ensures Xor(a, b) < 256
  {
    assert Two(8) == 256;
    XorBelow(a, b, 8);
  }

  lemma {:induction false} XorBelow(a: nat, b: nat, k: nat)
    requires a < Two(k) && b < Two(k)
    ensures Xor(a, b) < Two(k)
    decreases k
  {
    if a != 0 || b != 0 { XorBelow(a / 2, b / 2, k - 1); }
  }
}
