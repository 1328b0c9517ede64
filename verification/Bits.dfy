/** Bit fields of one byte. */
module Bits {

  const BITS: nat := 8

  function Bit(i: nat): bv8
    requires i < BITS
  {
    match i
    case 0 => 0x01 case 1 => 0x02 case 2 => 0x04 case 3 => 0x08
    case 4 => 0x10 case 5 => 0x20 case 6 => 0x40 case _ => 0x80
  }

  function PowerOfTwo(i: nat): nat {
    if i == 0 then 1 else 2 * PowerOfTwo(i - 1)
  }

  /** Bit i is 1 << i. */
  lemma BitIsPower(i: nat)
    requires i < BITS
    ensures Bit(i) as int == PowerOfTwo(i)
  {
    assert PowerOfTwo(3) == 8 && PowerOfTwo(5) == 32;
    match i {
      case 0 =>
      case 1 =>
      case 2 =>
      case 3 =>
      case 4 =>
      case 5 =>
      case 6 => assert PowerOfTwo(6) == 64;
      case 7 => assert PowerOfTwo(6) == 64 && PowerOfTwo(7) == 128;
    }
  }

  predicate Meets(x: bv8, m: bv8) {
    x & m != 0
  }

  predicate On(mask: bv8, i: nat)
    requires i < BITS
  {
    Meets(mask, Bit(i))
  }

  function Flipped(x: bv8, m: bv8): bv8 {
    x ^ m
  }

  function Common(x: bv8, m: bv8): bv8 {
    x & m
  }

  function Without(x: bv8, m: bv8): bv8 {
    x & !m
  }

  lemma OneHot(i: nat)
    requires i < BITS
    ensures Bit(i) != 0 && Bit(i) & (Bit(i) - 1) == 0
  {
  }

  lemma MaskOps(x: bv8, y: bv8, m: bv8)
    requires m != 0 && m & (m - 1) == 0
    ensures Meets(x ^ y, m) <==> (Meets(x, m) != Meets(y, m))
    ensures Meets(x | y, m) <==> Meets(x, m) || Meets(y, m)
    ensures Meets(x & y, m) <==> Meets(x, m) && Meets(y, m)
    ensures Meets(x & !y, m) <==> Meets(x, m) && !Meets(y, m)
    ensures !Meets(0, m)
  {
  }

  lemma XorBit(x: bv8, y: bv8, i: nat)
    requires i < BITS
    ensures On(Flipped(x, y), i) <==> (On(x, i) != On(y, i))
  {
    OneHot(i);
    hide Bit, Meets;
    MaskOps(x, y, Bit(i));
  }

  lemma OrBit(x: bv8, y: bv8, i: nat)
    requires i < BITS
    ensures On(x | y, i) <==> On(x, i) || On(y, i)
  {
    OneHot(i);
    hide Bit, Meets;
    MaskOps(x, y, Bit(i));
  }

  lemma AndBit(x: bv8, y: bv8, i: nat)
    requires i < BITS
    ensures On(Common(x, y), i) <==> On(x, i) && On(y, i)
  {
    OneHot(i);
    hide Bit, Meets;
    MaskOps(x, y, Bit(i));
  }

  lemma ClearBit(x: bv8, y: bv8, i: nat)
    requires i < BITS
    ensures On(Without(x, y), i) <==> On(x, i) && !On(y, i)
  {
    OneHot(i);
    hide Bit, Meets;
    MaskOps(x, y, Bit(i));
  }

  lemma BitAlone(j: nat, i: nat)
    requires i < BITS && j < BITS
    ensures On(Bit(j), i) <==> i == j
  {
  }

  lemma SameBits(x: bv8, y: bv8)
    requires forall i: nat :: i < BITS ==> (On(x, i) <==> On(y, i))
    ensures x == y
  {
    assert On(x, 0) == On(y, 0) && On(x, 1) == On(y, 1) && On(x, 2) == On(y, 2) && On(x, 3) == On(y, 3);
    assert On(x, 4) == On(y, 4) && On(x, 5) == On(y, 5) && On(x, 6) == On(y, 6) && On(x, 7) == On(y, 7);
  }

  function Raised(x: bv8, i: nat): bv8
    requires i < BITS
  {
    x | Bit(i)
  }

  lemma SetBit(x: bv8, j: nat, i: nat)
    requires i < BITS && j < BITS
    ensures On(Raised(x, j), i) <==> On(x, i) || i == j
    ensures On(Without(x, Bit(j)), i) <==> On(x, i) && i != j
  {
    hide On, Bit;
    OrBit(x, Bit(j), i);
    ClearBit(x, Bit(j), i);
    BitAlone(j, i);
  }

  function Popcount(b: bv8): (n: nat)
    ensures n <= 8
  {
    (if b & 0x01 != 0 then 1 else 0) + (if b & 0x02 != 0 then 1 else 0)
    + (if b & 0x04 != 0 then 1 else 0) + (if b & 0x08 != 0 then 1 else 0)
    + (if b & 0x10 != 0 then 1 else 0) + (if b & 0x20 != 0 then 1 else 0)
    + (if b & 0x40 != 0 then 1 else 0) + (if b & 0x80 != 0 then 1 else 0)
  }

  /** Setting a bit that is clear adds one to the number of bits set. */
  lemma PopcountRaised(x: bv8, i: nat)
    requires i < BITS && !On(x, i)
    ensures Popcount(Raised(x, i)) == Popcount(x) + 1
  {
    match i {
      case 0 =>
      case 1 =>
      case 2 =>
      case 3 =>
      case 4 =>
      case 5 =>
      case 6 =>
      case 7 =>
    }
  }

  lemma PopcountZero(x: bv8)
    ensures Popcount(x) == 0 <==> x == 0
  {
  }

  predicate Within(x: bv8, y: bv8) {
    x & !y == 0
  }

  predicate Apart(x: bv8, y: bv8) {
    x & y == 0
  }

  lemma NoBits(x: bv8)
    ensures x == 0 <==> forall i: nat :: i < BITS ==> !On(x, i)
  {
    if forall i: nat :: i < BITS ==> !On(x, i) {
      assert !On(x, 0) && !On(x, 1) && !On(x, 2) && !On(x, 3);
      assert !On(x, 4) && !On(x, 5) && !On(x, 6) && !On(x, 7);
    }
  }

  lemma WithinBits(x: bv8, y: bv8)
    ensures Within(x, y) <==> forall i: nat :: i < BITS && On(x, i) ==> On(y, i)
  {
    NoBits(Without(x, y));
    hide On;
    forall i: nat | i < BITS ensures On(Without(x, y), i) <==> On(x, i) && !On(y, i) {
      ClearBit(x, y, i);
    }
  }

  lemma ApartBits(x: bv8, y: bv8)
    ensures Apart(x, y) <==> forall i: nat :: i < BITS ==> !(On(x, i) && On(y, i))
  {
    NoBits(Common(x, y));
    hide On;
    forall i: nat | i < BITS ensures On(Common(x, y), i) <==> On(x, i) && On(y, i) {
      AndBit(x, y, i);
    }
  }
}
