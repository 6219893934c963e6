// Bitwise operators of C on unsigned numbers of any width.
module Bits {
  predicate Bit(x: nat, i: nat) {
    if i == 0 then x % 2 == 1 else Bit(x / 2, i - 1)
  }

  function Or(a: nat, b: nat): nat {
    if a == 0 then b else if b == 0 then a
    else 2 * Or(a / 2, b / 2) + if a % 2 == 1 || b % 2 == 1 then 1 else 0
  }

  function And(a: nat, b: nat): nat {
    if a == 0 || b == 0 then 0
    else 2 * And(a / 2, b / 2) + if a % 2 == 1 && b % 2 == 1 then 1 else 0
  }

  lemma {:induction false} ZeroHasNoBits(i: nat)
    ensures !Bit(0, i)
  {
    if i > 0 {
      ZeroHasNoBits(i - 1);
    }
  }

  lemma {:induction false} OrHalves(a: nat, b: nat)
    requires a != 0 && b != 0
    ensures Or(a, b) / 2 == Or(a / 2, b / 2)
    ensures Or(a, b) % 2 == 1 <==> a % 2 == 1 || b % 2 == 1
  {
  }

  lemma {:induction false} OrBits(a: nat, b: nat, i: nat)
    ensures Bit(Or(a, b), i) <==> Bit(a, i) || Bit(b, i)
  {
    if a == 0 || b == 0 {
      ZeroHasNoBits(i);
    } else {
      hide Or;
      OrHalves(a, b);
      if i > 0 {
        OrBits(a / 2, b / 2, i - 1);
      }
    }
  }

  lemma {:induction false} AndHalves(a: nat, b: nat)
    ensures And(a, b) / 2 == And(a / 2, b / 2)
    ensures And(a, b) % 2 == 1 <==> a % 2 == 1 && b % 2 == 1
  {
  }

  lemma {:induction false} AndBits(a: nat, b: nat, i: nat)
    ensures Bit(And(a, b), i) <==> Bit(a, i) && Bit(b, i)
  {
    if a == 0 || b == 0 {
      ZeroHasNoBits(i);
    } else {
      hide And;
      AndHalves(a, b);
      if i > 0 {
        AndBits(a / 2, b / 2, i - 1);
      }
    }
  }

  // A number is determined by its bits.
  lemma {:induction false} SameBits(a: nat, b: nat)
    requires forall i: nat :: Bit(a, i) <==> Bit(b, i)
    ensures a == b
    decreases a + b
  {
    assert Bit(a, 0) <==> Bit(b, 0);
    if a != 0 || b != 0 {
      forall i: nat ensures Bit(a / 2, i) <==> Bit(b / 2, i) {
        assert Bit(a, i + 1) <==> Bit(b, i + 1);
      }
      SameBits(a / 2, b / 2);
    }
  }

  ghost predicate HasBitsOf(b: nat, a: nat) {
    forall i: nat :: Bit(a, i) ==> Bit(b, i)
  }

  // Or-ing a in changes nothing exactly when b has every bit of a.
  lemma {:induction false} OrAbsorbs(a: nat, b: nat)
    ensures Or(a, b) == b <==> HasBitsOf(b, a)
  {
    forall i: nat ensures Bit(Or(a, b), i) <==> Bit(a, i) || Bit(b, i) {
      OrBits(a, b, i);
    }
    if HasBitsOf(b, a) {
      SameBits(Or(a, b), b);
    } else {
      var i: nat :| Bit(a, i) && !Bit(b, i);
      assert Bit(Or(a, b), i) != Bit(b, i);
    }
  }

  lemma {:induction false} OrBelow(a: nat, b: nat, n: nat)
    requires a < Power2(n) && b < Power2(n)
    ensures Or(a, b) < Power2(n)
  {
    if a != 0 && b != 0 {
      OrBelow(a / 2, b / 2, n - 1);
    }
  }

  function Power2(n: nat): (p: nat)
    ensures p > 0
  {
    if n == 0 then 1 else 2 * Power2(n - 1)
  }

  // The n low-order bits, and what is left when they are shifted out.
  function Low(x: nat, n: nat): nat {
    if n == 0 then 0 else 2 * Low(x / 2, n - 1) + x % 2
  }

  function High(x: nat, n: nat): nat {
    if n == 0 then x else High(x / 2, n - 1)
  }

  lemma {:induction false} LowAndHigh(x: nat, n: nat)
    ensures x == Low(x, n) + Power2(n) * High(x, n)
    ensures Low(x, n) < Power2(n)
  {
    if n > 0 {
      LowAndHigh(x / 2, n - 1);
      Regroup(Power2(n - 1), High(x / 2, n - 1));
    }
  }

  lemma Regroup(p: nat, h: nat)
    ensures 2 * (p * h) == (2 * p) * h
  {
  }

  // Or of numbers that share no bit is their sum.
  lemma {:induction false} OrIsSum(a: nat, b: nat, n: nat)
    requires a < Power2(n) && Low(b, n) == 0
    ensures Or(a, b) == a + b
  {
    if n > 0 && a != 0 && b != 0 {
      OrIsSum(a / 2, b / 2, n - 1);
    }
  }

  // Bits set above the n low-order ones leave those alone.
  lemma {:induction false} OrKeepsLowBits(a: nat, b: nat, n: nat)
    requires Low(b, n) == 0
    ensures Low(Or(a, b), n) == Low(a, n)
  {
    if n > 0 {
      if a == 0 {
        LowOfZero(n);
      } else if b != 0 {
        OrKeepsLowBits(a / 2, b / 2, n - 1);
        assert Or(a, b) / 2 == Or(a / 2, b / 2);
      }
    }
  }

  lemma {:induction false} LowOfZero(n: nat)
    ensures Low(0, n) == 0
  {
    if n > 0 {
      LowOfZero(n - 1);
    }
  }
}
