/** The unrolled Keccak permutation of the DPU benchmark. */
module Keccakf {
  import opened KeccakFips

  const KECCAK_ROUNDS: nat := 24

  function Lanes(st: seq<Word>): State
    requires |st| == 25
  {
    State(
      Plane(st[0], st[1], st[2], st[3], st[4]),
      Plane(st[5], st[6], st[7], st[8], st[9]),
      Plane(st[10], st[11], st[12], st[13], st[14]),
      Plane(st[15], st[16], st[17], st[18], st[19]),
      Plane(st[20], st[21], st[22], st[23], st[24]))
  }

  function At(a: State, i: nat): Word
    requires i < 25
  {
    match i
    case 0 => a.p0.l0 case 1 => a.p0.l1 case 2 => a.p0.l2 case 3 => a.p0.l3 case 4 => a.p0.l4
    case 5 => a.p1.l0 case 6 => a.p1.l1 case 7 => a.p1.l2 case 8 => a.p1.l3 case 9 => a.p1.l4
    case 10 => a.p2.l0 case 11 => a.p2.l1 case 12 => a.p2.l2 case 13 => a.p2.l3 case 14 => a.p2.l4
    case 15 => a.p3.l0 case 16 => a.p3.l1 case 17 => a.p3.l2 case 18 => a.p3.l3 case 19 => a.p3.l4
    case 20 => a.p4.l0 case 21 => a.p4.l1 case 22 => a.p4.l2 case 23 => a.p4.l3 case _ => a.p4.l4
  }

  function Unlanes(a: State): (st: seq<Word>)
    ensures |st| == 25
  {
    seq(25, i requires 0 <= i < 25 => At(a, i))
  }

  /** Lane (x, y) is element x + 5y of the array. */
  lemma LaneIndex(st: seq<Word>, a: State, x: nat, y: nat)
    requires |st| == 25 && x < 5 && y < 5
    ensures Lanes(st).Lane(x, y) == st[x + 5 * y]
    ensures Unlanes(a)[x + 5 * y] == a.Lane(x, y)
  {
  }

  // The 24 rounds on local copies of the lanes.
  method Permute(a: State) returns (b: State)
    ensures b == KeccakP(a)
  {
    var st0 := a.p0.l0; var st1 := a.p0.l1; var st2 := a.p0.l2; var st3 := a.p0.l3; var st4 := a.p0.l4;
    var st5 := a.p1.l0; var st6 := a.p1.l1; var st7 := a.p1.l2; var st8 := a.p1.l3; var st9 := a.p1.l4;
    var st10 := a.p2.l0; var st11 := a.p2.l1; var st12 := a.p2.l2; var st13 := a.p2.l3; var st14 := a.p2.l4;
    var st15 := a.p3.l0; var st16 := a.p3.l1; var st17 := a.p3.l2; var st18 := a.p3.l3; var st19 := a.p3.l4;
    var st20 := a.p4.l0; var st21 := a.p4.l1; var st22 := a.p4.l2; var st23 := a.p4.l3; var st24 := a.p4.l4;
    var t, t1, t2, bc0, bc1, bc2, bc3, bc4: Word;
    hide Xor, AndNot, Rotl;
    for round := 0 to KECCAK_ROUNDS
      invariant State(
          Plane(st0, st1, st2, st3, st4),
          Plane(st5, st6, st7, st8, st9),
          Plane(st10, st11, st12, st13, st14),
          Plane(st15, st16, st17, st18, st19),
          Plane(st20, st21, st22, st23, st24)) == Rounds(a, round)
    {
      bc0 := Xor(Xor(Xor(Xor(st0, st5), st10), st15), st20);
      bc1 := Xor(Xor(Xor(Xor(st1, st6), st11), st16), st21);
      bc2 := Xor(Xor(Xor(Xor(st2, st7), st12), st17), st22);
      bc3 := Xor(Xor(Xor(Xor(st3, st8), st13), st18), st23);
      bc4 := Xor(Xor(Xor(Xor(st4, st9), st14), st19), st24);
      t := Xor(bc4, Rotl(bc1, 1));
      st0 := Xor(st0, t);
      st5 := Xor(st5, t);
      st10 := Xor(st10, t);
      st15 := Xor(st15, t);
      st20 := Xor(st20, t);
      t := Xor(bc0, Rotl(bc2, 1));
      st1 := Xor(st1, t);
      st6 := Xor(st6, t);
      st11 := Xor(st11, t);
      st16 := Xor(st16, t);
      st21 := Xor(st21, t);
      t := Xor(bc1, Rotl(bc3, 1));
      st2 := Xor(st2, t);
      st7 := Xor(st7, t);
      st12 := Xor(st12, t);
      st17 := Xor(st17, t);
      st22 := Xor(st22, t);
      t := Xor(bc2, Rotl(bc4, 1));
      st3 := Xor(st3, t);
      st8 := Xor(st8, t);
      st13 := Xor(st13, t);
      st18 := Xor(st18, t);
      st23 := Xor(st23, t);
      t := Xor(bc3, Rotl(bc0, 1));
      st4 := Xor(st4, t);
      st9 := Xor(st9, t);
      st14 := Xor(st14, t);
      st19 := Xor(st19, t);
      st24 := Xor(st24, t);
      ghost var theta := Theta(Rounds(a, round));
      assert theta == State(
          Plane(st0, st1, st2, st3, st4),
          Plane(st5, st6, st7, st8, st9),
          Plane(st10, st11, st12, st13, st14),
          Plane(st15, st16, st17, st18, st19),
          Plane(st20, st21, st22, st23, st24));
      t1 := st1;
      t2 := st10;
      st10 := Rotl(t1, 1);
      t1 := st7;
      st7 := Rotl(t2, 3);
      t2 := st11;
      st11 := Rotl(t1, 6);
      t1 := st17;
      st17 := Rotl(t2, 10);
      t2 := st18;
      st18 := Rotl(t1, 15);
      t1 := st3;
      st3 := Rotl(t2, 21);
      t2 := st5;
      st5 := Rotl(t1, 28);
      t1 := st16;
      st16 := Rotl(t2, 36);
      t2 := st8;
      st8 := Rotl(t1, 45);
      t1 := st21;
      st21 := Rotl(t2, 55);
      t2 := st24;
      st24 := Rotl(t1, 2);
      t1 := st4;
      st4 := Rotl(t2, 14);
      t2 := st15;
      st15 := Rotl(t1, 27);
      t1 := st23;
      st23 := Rotl(t2, 41);
      t2 := st19;
      st19 := Rotl(t1, 56);
      t1 := st13;
      st13 := Rotl(t2, 8);
      t2 := st12;
      st12 := Rotl(t1, 25);
      t1 := st2;
      st2 := Rotl(t2, 43);
      t2 := st20;
      st20 := Rotl(t1, 62);
      t1 := st14;
      st14 := Rotl(t2, 18);
      t2 := st22;
      st22 := Rotl(t1, 39);
      t1 := st9;
      st9 := Rotl(t2, 61);
      t2 := st6;
      st6 := Rotl(t1, 20);
      t1 := st1;
      st1 := Rotl(t2, 44);
      ghost var lanes := Pi(Rho(theta));
      assert lanes == State(
          Plane(st0, st1, st2, st3, st4),
          Plane(st5, st6, st7, st8, st9),
          Plane(st10, st11, st12, st13, st14),
          Plane(st15, st16, st17, st18, st19),
          Plane(st20, st21, st22, st23, st24));
      bc0 := st0;
      bc1 := st1;
      bc2 := st2;
      bc3 := st3;
      bc4 := st4;
      st0 := Xor(st0, AndNot(bc1, bc2));
      st1 := Xor(st1, AndNot(bc2, bc3));
      st2 := Xor(st2, AndNot(bc3, bc4));
      st3 := Xor(st3, AndNot(bc4, bc0));
      st4 := Xor(st4, AndNot(bc0, bc1));
      bc0 := st5;
      bc1 := st6;
      bc2 := st7;
      bc3 := st8;
      bc4 := st9;
      st5 := Xor(st5, AndNot(bc1, bc2));
      st6 := Xor(st6, AndNot(bc2, bc3));
      st7 := Xor(st7, AndNot(bc3, bc4));
      st8 := Xor(st8, AndNot(bc4, bc0));
      st9 := Xor(st9, AndNot(bc0, bc1));
      bc0 := st10;
      bc1 := st11;
      bc2 := st12;
      bc3 := st13;
      bc4 := st14;
      st10 := Xor(st10, AndNot(bc1, bc2));
      st11 := Xor(st11, AndNot(bc2, bc3));
      st12 := Xor(st12, AndNot(bc3, bc4));
      st13 := Xor(st13, AndNot(bc4, bc0));
      st14 := Xor(st14, AndNot(bc0, bc1));
      bc0 := st15;
      bc1 := st16;
      bc2 := st17;
      bc3 := st18;
      bc4 := st19;
      st15 := Xor(st15, AndNot(bc1, bc2));
      st16 := Xor(st16, AndNot(bc2, bc3));
      st17 := Xor(st17, AndNot(bc3, bc4));
      st18 := Xor(st18, AndNot(bc4, bc0));
      st19 := Xor(st19, AndNot(bc0, bc1));
      bc0 := st20;
      bc1 := st21;
      bc2 := st22;
      bc3 := st23;
      bc4 := st24;
      st20 := Xor(st20, AndNot(bc1, bc2));
      st21 := Xor(st21, AndNot(bc2, bc3));
      st22 := Xor(st22, AndNot(bc3, bc4));
      st23 := Xor(st23, AndNot(bc4, bc0));
      st24 := Xor(st24, AndNot(bc0, bc1));
      ghost var chi := Chi(lanes);
      assert chi == State(
          Plane(st0, st1, st2, st3, st4),
          Plane(st5, st6, st7, st8, st9),
          Plane(st10, st11, st12, st13, st14),
          Plane(st15, st16, st17, st18, st19),
          Plane(st20, st21, st22, st23, st24));
      st0 := Xor(st0, Word(RoundConstant(round)));
    }
    b := State(
      Plane(st0, st1, st2, st3, st4),
      Plane(st5, st6, st7, st8, st9),
      Plane(st10, st11, st12, st13, st14),
      Plane(st15, st16, st17, st18, st19),
      Plane(st20, st21, st22, st23, st24));
  }

  method KeccakF(st: array<Word>)
    requires st.Length == 25
    modifies st
    ensures st[..] == Unlanes(KeccakP(Lanes(old(st[..]))))
  {
    hide KeccakP, Lanes;
    var b := Permute(Lanes(st[..]));
    forall i | 0 <= i < 25 {
      st[i] := At(b, i);
    }
    assert st[..] == Unlanes(b);
  }
}
