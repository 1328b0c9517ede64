/** The permutation KECCAK-p[1600, 24] of FIPS 202, on 25 lanes of 64 bits. */
module KeccakFips {

  // A lane: a word of 64 bits.
  datatype Word = Word(bits: bv64)

  // The five lanes with the same y coordinate, and the five planes of a state (section 3.1.4).
  datatype Plane = Plane(l0: Word, l1: Word, l2: Word, l3: Word, l4: Word)
  {
    function Lane(x: nat): Word
      requires x < 5
    {
      match x case 0 => l0 case 1 => l1 case 2 => l2 case 3 => l3 case _ => l4
    }
  }

  datatype State = State(p0: Plane, p1: Plane, p2: Plane, p3: Plane, p4: Plane)
  {
    function Lane(x: nat, y: nat): Word
      requires x < 5 && y < 5
    {
      match y case 0 => p0.Lane(x) case 1 => p1.Lane(x) case 2 => p2.Lane(x) case 3 => p3.Lane(x) case _ => p4.Lane(x)
    }
  }

  const ROUNDS: nat := 24

  function Rotl(w: Word, n: bv64): Word
    requires n < 64
  {
    Word((w.bits << n) | (w.bits >> (64 - n)))
  }

  function Xor(v: Word, w: Word): Word {
    Word(v.bits ^ w.bits)
  }

  function AndNot(v: Word, w: Word): Word {
    Word(!v.bits & w.bits)
  }

  function XorPlanes(a: Plane, b: Plane): Plane {
    Plane(Xor(a.l0, b.l0), Xor(a.l1, b.l1), Xor(a.l2, b.l2), Xor(a.l3, b.l3), Xor(a.l4, b.l4))
  }

  // Theta, section 3.2.1.

  function Parity(a: State): Plane {
    XorPlanes(XorPlanes(XorPlanes(XorPlanes(a.p0, a.p1), a.p2), a.p3), a.p4)
  }

  function ThetaEffect(c: Plane): Plane {
    Plane(
      Xor(c.l4, Rotl(c.l1, 1)), Xor(c.l0, Rotl(c.l2, 1)), Xor(c.l1, Rotl(c.l3, 1)),
      Xor(c.l2, Rotl(c.l4, 1)), Xor(c.l3, Rotl(c.l0, 1)))
  }

  function Theta(a: State): State {
    var d := ThetaEffect(Parity(a));
    State(XorPlanes(a.p0, d), XorPlanes(a.p1, d), XorPlanes(a.p2, d), XorPlanes(a.p3, d), XorPlanes(a.p4, d))
  }

  // Rho, section 3.2.2.

  function Rho(a: State): State {
    State(
      Plane(a.p0.l0, Rotl(a.p0.l1, 1), Rotl(a.p0.l2, 62), Rotl(a.p0.l3, 28), Rotl(a.p0.l4, 27)),
      Plane(Rotl(a.p1.l0, 36), Rotl(a.p1.l1, 44), Rotl(a.p1.l2, 6), Rotl(a.p1.l3, 55), Rotl(a.p1.l4, 20)),
      Plane(Rotl(a.p2.l0, 3), Rotl(a.p2.l1, 10), Rotl(a.p2.l2, 43), Rotl(a.p2.l3, 25), Rotl(a.p2.l4, 39)),
      Plane(Rotl(a.p3.l0, 41), Rotl(a.p3.l1, 45), Rotl(a.p3.l2, 15), Rotl(a.p3.l3, 21), Rotl(a.p3.l4, 8)),
      Plane(Rotl(a.p4.l0, 18), Rotl(a.p4.l1, 2), Rotl(a.p4.l2, 61), Rotl(a.p4.l3, 56), Rotl(a.p4.l4, 14)))
  }

  // Pi, section 3.2.3.

  function Pi(a: State): State {
    State(
      Plane(a.p0.l0, a.p1.l1, a.p2.l2, a.p3.l3, a.p4.l4),
      Plane(a.p0.l3, a.p1.l4, a.p2.l0, a.p3.l1, a.p4.l2),
      Plane(a.p0.l1, a.p1.l2, a.p2.l3, a.p3.l4, a.p4.l0),
      Plane(a.p0.l4, a.p1.l0, a.p2.l1, a.p3.l2, a.p4.l3),
      Plane(a.p0.l2, a.p1.l3, a.p2.l4, a.p3.l0, a.p4.l1))
  }

  // Chi, section 3.2.4.

  function ChiPlane(p: Plane): Plane {
    Plane(
      Xor(p.l0, AndNot(p.l1, p.l2)), Xor(p.l1, AndNot(p.l2, p.l3)), Xor(p.l2, AndNot(p.l3, p.l4)),
      Xor(p.l3, AndNot(p.l4, p.l0)), Xor(p.l4, AndNot(p.l0, p.l1)))
  }

  function Chi(a: State): State {
    State(ChiPlane(a.p0), ChiPlane(a.p1), ChiPlane(a.p2), ChiPlane(a.p3), ChiPlane(a.p4))
  }

  // Iota, section 3.2.5.

  function RoundConstant(round: nat): bv64
    requires round < ROUNDS
  {
    match round
    case 0 => 0x0000000000000001
    case 1 => 0x0000000000008082
    case 2 => 0x800000000000808a
    case 3 => 0x8000000080008000
    case 4 => 0x000000000000808b
    case 5 => 0x0000000080000001
    case 6 => 0x8000000080008081
    case 7 => 0x8000000000008009
    case 8 => 0x000000000000008a
    case 9 => 0x0000000000000088
    case 10 => 0x0000000080008009
    case 11 => 0x000000008000000a
    case 12 => 0x000000008000808b
    case 13 => 0x800000000000008b
    case 14 => 0x8000000000008089
    case 15 => 0x8000000000008003
    case 16 => 0x8000000000008002
    case 17 => 0x8000000000000080
    case 18 => 0x000000000000800a
    case 19 => 0x800000008000000a
    case 20 => 0x8000000080008081
    case 21 => 0x8000000000008080
    case 22 => 0x0000000080000001
    case _ => 0x8000000080008008
  }

  function Iota(a: State, round: nat): State
    requires round < ROUNDS
  {
    a.(p0 := a.p0.(l0 := Xor(a.p0.l0, Word(RoundConstant(round)))))
  }

  // Rounds, sections 3.3 and 3.4.

  function Round(a: State, round: nat): State
    requires round < ROUNDS
  {
    Iota(Chi(Pi(Rho(Theta(a)))), round)
  }

  function Rounds(a: State, n: nat): State
    requires n <= ROUNDS
  {
    if n == 0 then a else Round(Rounds(a, n - 1), n - 1)
  }

  function KeccakP(a: State): State {
    Rounds(a, ROUNDS)
  }

  // ----- the step mappings in the coordinates of the standard

  function Column(a: State, x: nat): Word
    requires x < 5
  {
    Xor(Xor(Xor(Xor(a.Lane(x, 0), a.Lane(x, 1)), a.Lane(x, 2)), a.Lane(x, 3)), a.Lane(x, 4))
  }

  lemma ThetaLane(a: State, x: nat, y: nat)
    requires x < 5 && y < 5
    ensures Theta(a).Lane(x, y)
         == Xor(a.Lane(x, y), Xor(Column(a, (x + 4) % 5), Rotl(Column(a, (x + 1) % 5), 1)))
  {
    hide Xor, Rotl, AndNot;
  }

  function RhoOffset(x: nat, y: nat): (n: bv64)
    requires x < 5 && y < 5
    ensures n < 64
  {
    match y
    case 0 => (match x case 0 => 0 case 1 => 1 case 2 => 62 case 3 => 28 case _ => 27)
    case 1 => (match x case 0 => 36 case 1 => 44 case 2 => 6 case 3 => 55 case _ => 20)
    case 2 => (match x case 0 => 3 case 1 => 10 case 2 => 43 case 3 => 25 case _ => 39)
    case 3 => (match x case 0 => 41 case 1 => 45 case 2 => 15 case 3 => 21 case _ => 8)
    case _ => (match x case 0 => 18 case 1 => 2 case 2 => 61 case 3 => 56 case _ => 14)
  }

  lemma RhoLane(a: State, x: nat, y: nat)
    requires x < 5 && y < 5
    ensures (x, y) != (0, 0) ==> Rho(a).Lane(x, y) == Rotl(a.Lane(x, y), RhoOffset(x, y))
    ensures Rho(a).Lane(0, 0) == a.Lane(0, 0)
  {
    hide Rotl;
  }

  lemma PiLane(a: State, x: nat, y: nat)
    requires x < 5 && y < 5
    ensures Pi(a).Lane(x, y) == a.Lane((x + 3 * y) % 5, x)
  {
  }

  lemma ChiLane(a: State, x: nat, y: nat)
    requires x < 5 && y < 5
    ensures Chi(a).Lane(x, y)
         == Xor(a.Lane(x, y), AndNot(a.Lane((x + 1) % 5, y), a.Lane((x + 2) % 5, y)))
  {
    hide Xor, Rotl, AndNot;
  }

  // ----- operations on lanes, bit by bit

  predicate OneBit(m: bv64) {
    m != 0 && m & (m - 1) == 0
  }

  lemma XorBit(v: Word, w: Word, m: bv64)
    requires OneBit(m)
    ensures Xor(v, w).bits & m != 0 <==> (v.bits & m != 0) != (w.bits & m != 0)
  {
  }

  lemma AndNotBit(v: Word, w: Word, m: bv64)
    requires OneBit(m)
    ensures AndNot(v, w).bits & m != 0 <==> v.bits & m == 0 && w.bits & m != 0
  {
  }

  /** Rotating by one shifts a lane up and brings its top bit round to the bottom. */
  lemma RotlOnce(w: Word)
    ensures Rotl(w, 1).bits == (w.bits << 1) | (w.bits >> 63)
  {
  }

  /** Rotating by n moves the bottom bit to bit n. */
  lemma RotlOfOne(n: bv64)
    requires n < 64
    ensures Rotl(Word(1), n) == Word(1 << n)
  {
  }

  // ----- a round as a whole

  // The lane that comes to (x, y) before chi: that of ((x + 3y) mod 5, x), mixed and rotated.
  function Moved(a: State, x: nat, y: nat): Word
    requires x < 5 && y < 5
  {
    var u, v := (x + 3 * y) % 5, x;
    var mixed := Xor(a.Lane(u, v), Xor(Column(a, (u + 4) % 5), Rotl(Column(a, (u + 1) % 5), 1)));
    if (u, v) == (0, 0) then mixed else Rotl(mixed, RhoOffset(u, v))
  }

  lemma MovedLane(a: State, x: nat, y: nat)
    requires x < 5 && y < 5
    ensures Pi(Rho(Theta(a))).Lane(x, y) == Moved(a, x, y)
  {
    hide Theta, Rho, Pi, Xor, Rotl, Column, RhoOffset;
    var u := (x + 3 * y) % 5;
    PiLane(Rho(Theta(a)), x, y);
    RhoLane(Theta(a), u, x);
    ThetaLane(a, u, x);
  }

  /** A round lane by lane: the round constant is added to the lane at the origin only. */
  lemma RoundLane(a: State, round: nat, x: nat, y: nat)
    requires x < 5 && y < 5 && round < ROUNDS
    ensures var lane := Xor(Moved(a, x, y), AndNot(Moved(a, (x + 1) % 5, y), Moved(a, (x + 2) % 5, y)));
      Round(a, round).Lane(x, y) == if (x, y) == (0, 0) then Xor(lane, Word(RoundConstant(round))) else lane
  {
    hide Theta, Rho, Pi, Chi, Xor, Rotl, AndNot, Moved, RoundConstant;
    var b := Pi(Rho(Theta(a)));
    MovedLane(a, x, y);
    MovedLane(a, (x + 1) % 5, y);
    MovedLane(a, (x + 2) % 5, y);
    ChiLane(b, x, y);
    IotaLane(Chi(b), round, x, y);
  }

  lemma IotaLane(a: State, round: nat, x: nat, y: nat)
    requires x < 5 && y < 5 && round < ROUNDS
    ensures Iota(a, round).Lane(x, y)
         == if (x, y) == (0, 0) then Xor(a.Lane(0, 0), Word(RoundConstant(round))) else a.Lane(x, y)
  {
    hide Xor, RoundConstant;
  }

  lemma {:induction false} RoundsOf(trace: seq<State>, n: nat)
    requires n < |trace| <= ROUNDS + 1 && forall i: nat :: i < |trace| - 1 ==> trace[i + 1] == Round(trace[i], i)
    ensures Rounds(trace[0], n) == trace[n]
  {
    hide Round;
    if n > 0 {
      RoundsOf(trace, n - 1);
      assert trace[n - 1 + 1] == Round(trace[n - 1], n - 1);
    }
  }

  /** The permutation is rounds 0 to 23, in this order. */
  lemma PermutationOf(trace: seq<State>)
    requires |trace| == 25 && forall i: nat :: i < 24 ==> trace[i + 1] == Round(trace[i], i)
    ensures KeccakP(trace[0]) == trace[24]
  {
    hide Round, Rounds;
    RoundsOf(trace, 24);
  }

  // ----- rho's table: step t of the walk (x, y) -> (y, 2x + 3y) from (1, 0) rotates the lane it
  // visits by the triangular number (t + 1)(t + 2) / 2

  function Walk(t: nat): (p: (nat, nat))
    ensures p.0 < 5 && p.1 < 5
  {
    if t == 0 then (1, 0) else var (x, y) := Walk(t - 1); (y, (2 * x + 3 * y) % 5)
  }

  lemma WalkTable()
    ensures Walk(0) == (1, 0) && Walk(1) == (0, 2) && Walk(2) == (2, 1) && Walk(3) == (1, 2)
    ensures Walk(4) == (2, 3) && Walk(5) == (3, 3) && Walk(6) == (3, 0) && Walk(7) == (0, 1)
    ensures Walk(8) == (1, 3) && Walk(9) == (3, 1) && Walk(10) == (1, 4) && Walk(11) == (4, 4)
    ensures Walk(12) == (4, 0) && Walk(13) == (0, 3) && Walk(14) == (3, 4) && Walk(15) == (4, 3)
    ensures Walk(16) == (3, 2) && Walk(17) == (2, 2) && Walk(18) == (2, 0) && Walk(19) == (0, 4)
    ensures Walk(20) == (4, 2) && Walk(21) == (2, 4) && Walk(22) == (4, 1) && Walk(23) == (1, 1)
  {
    assert Walk(0) == (1, 0); assert Walk(1) == (0, 2); assert Walk(2) == (2, 1); assert Walk(3) == (1, 2);
    assert Walk(4) == (2, 3); assert Walk(5) == (3, 3); assert Walk(6) == (3, 0); assert Walk(7) == (0, 1);
    assert Walk(8) == (1, 3); assert Walk(9) == (3, 1); assert Walk(10) == (1, 4); assert Walk(11) == (4, 4);
    assert Walk(12) == (4, 0); assert Walk(13) == (0, 3); assert Walk(14) == (3, 4); assert Walk(15) == (4, 3);
    assert Walk(16) == (3, 2); assert Walk(17) == (2, 2); assert Walk(18) == (2, 0); assert Walk(19) == (0, 4);
    assert Walk(20) == (4, 2); assert Walk(21) == (2, 4); assert Walk(22) == (4, 1); assert Walk(23) == (1, 1);
  }

  lemma RhoWalk(t: nat)
    requires t < 24
    ensures RhoOffset(Walk(t).0, Walk(t).1) as int == ((t + 1) * (t + 2) / 2) % 64
    ensures Walk(t) != (0, 0)
  {
    hide Walk, RhoOffset;
    if t < 12 {
      RhoWalkFirst(t);
    } else {
      RhoWalkSecond(t);
    }
  }

  lemma RhoWalkFirst(t: nat)
    requires t < 12
    ensures RhoOffset(Walk(t).0, Walk(t).1) as int == ((t + 1) * (t + 2) / 2) % 64
    ensures Walk(t) != (0, 0)
  {
    WalkTable();
    hide Walk;
    match t {
      case 0 =>
      case 1 =>
      case 2 =>
      case 3 =>
      case 4 =>
      case 5 =>
      case 6 =>
      case 7 =>
      case 8 =>
      case 9 =>
      case 10 =>
      case 11 =>
    }
  }

  lemma RhoWalkSecond(t: nat)
    requires 12 <= t < 24
    ensures RhoOffset(Walk(t).0, Walk(t).1) as int == ((t + 1) * (t + 2) / 2) % 64
    ensures Walk(t) != (0, 0)
  {
    WalkTable();
    hide Walk;
    match t {
      case 12 =>
      case 13 =>
      case 14 =>
      case 15 =>
      case 16 =>
      case 17 =>
      case 18 =>
      case 19 =>
      case 20 =>
      case 21 =>
      case 22 =>
      case 23 =>
    }
  }

  /** The walk visits every lane but the one at the origin. */
  lemma WalkReaches(x: nat, y: nat) returns (t: nat)
    requires x < 5 && y < 5 && (x, y) != (0, 0)
    ensures t < 24 && Walk(t) == (x, y)
  {
    WalkTable();
    hide Walk;
    t := match y
      case 0 => (match x case 1 => 0 case 2 => 18 case 3 => 6 case _ => 12)
      case 1 => (match x case 0 => 7 case 1 => 23 case 2 => 2 case 3 => 9 case _ => 22)
      case 2 => (match x case 0 => 1 case 1 => 3 case 2 => 17 case 3 => 16 case _ => 20)
      case 3 => (match x case 0 => 13 case 1 => 8 case 2 => 4 case 3 => 5 case _ => 15)
      case _ => (match x case 0 => 19 case 1 => 10 case 2 => 21 case 3 => 14 case _ => 11);
  }

  // ----- iota's constants: bit 2^j - 1 of the constant of a round is rc(j + 7 * round), where rc
  // reads the first bit of an 8-bit shift register; the other bits are zero

  function Shift(r: bv8): bv8 {
    (r << 1) ^ (if r & 0x80 != 0 then 0x71 else 0)
  }

  function Register(t: nat): bv8 {
    if t == 0 then 1 else Shift(Register(t - 1))
  }

  predicate First(r: bv8) {
    r & 1 != 0
  }

  predicate Rc(t: nat) {
    First(Register(t))
  }

  predicate IsRoundConstant(c: bv64, round: nat) {
    && c & 0x7fffffff7fff7f74 == 0
    && (c & 0x1 != 0 <==> Rc(0 + 7 * round))
    && (c & 0x2 != 0 <==> Rc(1 + 7 * round))
    && (c & 0x8 != 0 <==> Rc(2 + 7 * round))
    && (c & 0x80 != 0 <==> Rc(3 + 7 * round))
    && (c & 0x8000 != 0 <==> Rc(4 + 7 * round))
    && (c & 0x80000000 != 0 <==> Rc(5 + 7 * round))
    && (c & 0x8000000000000000 != 0 <==> Rc(6 + 7 * round))
  }

  function Shift7(r: bv8): bv8 {
    Shift(Shift(Shift(Shift(Shift(Shift(Shift(r)))))))
  }

  // The constant that a register produces in seven steps.
  predicate Produces(r: bv8, c: bv64) {
    && c & 0x7fffffff7fff7f74 == 0
    && (c & 0x1 != 0 <==> First(r))
    && (c & 0x2 != 0 <==> First(Shift(r)))
    && (c & 0x8 != 0 <==> First(Shift(Shift(r))))
    && (c & 0x80 != 0 <==> First(Shift(Shift(Shift(r)))))
    && (c & 0x8000 != 0 <==> First(Shift(Shift(Shift(Shift(r))))))
    && (c & 0x80000000 != 0 <==> First(Shift(Shift(Shift(Shift(Shift(r)))))))
    && (c & 0x8000000000000000 != 0 <==> First(Shift(Shift(Shift(Shift(Shift(Shift(r))))))))
  }

  lemma RegisterAdvance(t: nat)
    ensures Register(t + 7) == Shift7(Register(t))
  {
    RegisterWeek(t);
    assert Register(t + 7) == Shift(Register(t + 6));
  }

  lemma RegisterWeek(t: nat)
    ensures Register(t + 6) == Shift(Shift(Shift(Shift(Shift(Shift(Register(t)))))))
    ensures Rc(t + 1) == First(Shift(Register(t)))
    ensures Rc(t + 2) == First(Shift(Shift(Register(t))))
    ensures Rc(t + 3) == First(Shift(Shift(Shift(Register(t)))))
    ensures Rc(t + 4) == First(Shift(Shift(Shift(Shift(Register(t))))))
    ensures Rc(t + 5) == First(Shift(Shift(Shift(Shift(Shift(Register(t)))))))
    ensures Rc(t + 6) == First(Shift(Shift(Shift(Shift(Shift(Shift(Register(t))))))))
  {
    assert Register(t + 1) == Shift(Register(t));
    assert Register(t + 2) == Shift(Register(t + 1));
    assert Register(t + 3) == Shift(Register(t + 2));
    assert Register(t + 4) == Shift(Register(t + 3));
    assert Register(t + 5) == Shift(Register(t + 4));
    assert Register(t + 6) == Shift(Register(t + 5));
  }

  function RegisterAt(round: nat): bv8 {
    match round
    case 0 => 0x01
    case 1 => 0x80
    case 2 => 0xd8
    case 3 => 0x1a
    case 4 => 0xdf
    case 5 => 0x09
    case 6 => 0x35
    case 7 => 0x4f
    case 8 => 0xca
    case 9 => 0x70
    case 10 => 0x41
    case 11 => 0xec
    case 12 => 0xd5
    case 13 => 0xcd
    case 14 => 0x63
    case 15 => 0xab
    case 16 => 0xaa
    case 17 => 0x2a
    case 18 => 0xf2
    case 19 => 0xe8
    case 20 => 0x37
    case 21 => 0x3e
    case 22 => 0x0b
    case 23 => 0x44
    case _ => 0x8e
  }

  lemma {:induction false} RegisterTable(round: nat)
    requires round <= ROUNDS
    ensures Register(7 * round) == RegisterAt(round)
  {
    RegisterStart();
    hide *;
    if round > 0 {
      RegisterTable(round - 1);
      RegisterAdvance(7 * (round - 1));
      ShiftTable(round - 1);
    }
  }

  lemma RegisterStart()
    ensures Register(0) == RegisterAt(0)
  {
  }

  lemma ShiftTable(round: nat)
    requires round < ROUNDS
    ensures Shift7(RegisterAt(round)) == RegisterAt(round + 1)
  {
    match round {
      case 0 =>
      case 1 =>
      case 2 =>
      case 3 =>
      case 4 =>
      case 5 =>
      case 6 =>
      case 7 =>
      case 8 =>
      case 9 =>
      case 10 =>
      case 11 =>
      case 12 =>
      case 13 =>
      case 14 =>
      case 15 =>
      case 16 =>
      case 17 =>
      case 18 =>
      case 19 =>
      case 20 =>
      case 21 =>
      case 22 =>
      case 23 =>
    }
  }

  lemma ConstantTable(round: nat)
    requires round < ROUNDS
    ensures Produces(RegisterAt(round), RoundConstant(round))
  {
    match round {
      case 0 =>
      case 1 =>
      case 2 =>
      case 3 =>
      case 4 =>
      case 5 =>
      case 6 =>
      case 7 =>
      case 8 =>
      case 9 =>
      case 10 =>
      case 11 =>
      case 12 =>
      case 13 =>
      case 14 =>
      case 15 =>
      case 16 =>
      case 17 =>
      case 18 =>
      case 19 =>
      case 20 =>
      case 21 =>
      case 22 =>
      case 23 =>
    }
  }

  lemma RoundConstantTable(round: nat)
    requires round < ROUNDS
    ensures IsRoundConstant(RoundConstant(round), round)
  {
    RegisterTable(round);
    ConstantTable(round);
    RegisterWeek(7 * round);
  }
}
