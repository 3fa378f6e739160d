// Python's bit operators on unbounded non-negative integers, and what each does to single bits.
module Bits {

  function Pow2(k: nat): (p: nat)
    ensures p > 0
  {
    if k == 0 then 1 else 2 * Pow2(k - 1)
  }

  // bit d of n
  predicate Bit(n: nat, d: nat) {
    if d == 0 then n % 2 == 1 else Bit(n / 2, d - 1)
  }

  // n << k
  function Shl(n: nat, k: nat): nat {
    if k == 0 then n else 2 * Shl(n, k - 1)
  }

  // a | b
  function Or(a: nat, b: nat): nat {
    if a == 0 then b else 2 * Or(a / 2, b / 2) + (if a % 2 == 1 || b % 2 == 1 then 1 else 0)
  }

  // a & b
  function And(a: nat, b: nat): nat {
    if a == 0 then 0 else 2 * And(a / 2, b / 2) + (if a % 2 == 1 && b % 2 == 1 then 1 else 0)
  }

  lemma {:induction false} BitOfShl(n: nat, k: nat, d: nat)
    ensures Bit(Shl(n, k), d) <==> d >= k && Bit(n, d - k)
  {
    if k > 0 && d > 0 {
      BitOfShl(n, k - 1, d - 1);
    }
  }

  lemma {:induction false} BitOfZero(d: nat)
    ensures !Bit(0, d)
  {
    if d > 0 {
      BitOfZero(d - 1);
    }
  }

  lemma {:induction false} BitOfOr(a: nat, b: nat, d: nat)
    ensures Bit(Or(a, b), d) <==> Bit(a, d) || Bit(b, d)
  {
    if a == 0 {
      BitOfZero(d);
    } else if d > 0 {
      BitOfOr(a / 2, b / 2, d - 1);
    }
  }

  lemma {:induction false} BitOfAnd(a: nat, b: nat, d: nat)
    ensures Bit(And(a, b), d) <==> Bit(a, d) && Bit(b, d)
  {
    if a == 0 {
      BitOfZero(d);
    } else if d > 0 {
      BitOfAnd(a / 2, b / 2, d - 1);
    }
  }

  lemma {:induction false} BitOfOne(k: nat, d: nat)
    ensures Bit(Shl(1, k), d) <==> d == k
  {
    BitOfShl(1, k, d);
    if d > k {
      BitOfZero(d - k - 1);
    }
  }

  lemma {:induction false} ShlIsPow2(k: nat)
    ensures Shl(1, k) == Pow2(k)
  {
    if k > 0 {
      ShlIsPow2(k - 1);
    }
  }

  // (1 << k) - 1 has exactly the bits below k.
  lemma {:induction false} BitOfMask(k: nat, d: nat)
    ensures Bit(Pow2(k) - 1, d) <==> d < k
  {
    if k == 0 {
      BitOfZero(d);
    } else {
      assert (Pow2(k) - 1) / 2 == Pow2(k - 1) - 1;
      if d > 0 {
        BitOfMask(k - 1, d - 1);
      }
    }
  }

  lemma {:induction false} AndBelow(a: nat, b: nat)
    ensures And(a, b) <= b
  {
    if a != 0 {
      AndBelow(a / 2, b / 2);
    }
  }

  lemma {:induction false} OrBelow(a: nat, b: nat, k: nat)
    requires a < Pow2(k) && b < Pow2(k)
    ensures Or(a, b) < Pow2(k)
  {
    if a != 0 {
      OrBelow(a / 2, b / 2, k - 1);
    }
  }

  // n & (1 << d) is the test "bit d of n".
  lemma {:induction false} AndOfOneBit(n: nat, d: nat)
    ensures And(n, Shl(1, d)) != 0 <==> Bit(n, d)
  {
    BitOfAnd(n, Shl(1, d), d);
    BitOfOne(d, d);
    BitOfZero(d);
    if And(n, Shl(1, d)) != 0 {
      var e := SomeBit(And(n, Shl(1, d)));
      BitOfAnd(n, Shl(1, d), e);
      BitOfOne(d, e);
    }
  }

  lemma {:induction false} Pow2Grows(j: nat, k: nat)
    requires j < k
    ensures Pow2(j) < Pow2(k)
  {
    if j + 1 < k {
      Pow2Grows(j, k - 1);
    }
  }

  lemma {:induction false} Pow2Adds(j: nat, k: nat)
    ensures Pow2(j + k) == Pow2(j) * Pow2(k)
  {
    if j > 0 {
      Pow2Adds(j - 1, k);
    }
  }

  // A set bit of a positive number.
  function SomeBit(n: nat): (d: nat)
    requires n > 0
    ensures Bit(n, d)
  {
    if n % 2 == 1 then 0 else SomeBit(n / 2) + 1
  }
}
