/** The preemptible scramble benchmark: a DPU tasklet that checkpoints every iteration, and the host
    that continues from a checkpoint. */
module Scramble {
  import opened KeccakFips
  import opened Keccakf

  const ZERO: Word := Word(0)

  // What -1 is in the unsigned field for the current iteration.
  const MINUS_ONE: nat := 0xFFFF_FFFF

  type Words = s: seq<Word> | |s| == 25 witness seq(25, _ => ZERO)

  // ----- what an uninterrupted run computes

  function Seed(i: nat): Word
    requires i < 25
  {
    match i
    case 0 => Word(0x6170727463692e6b)
    case 1 => Word(0x68406570632e6d6f)
    case 2 => Word(0x3335203539383937)
    case 3 => Word(0x3436333333383732)
    case 4 => Word(0x3931313736203339)
    case 5 => Word(0x350a323839303437)
    case 6 => Word(0x3730313834363020)
    case 7 => Word(0x2039363838323330)
    case 8 => Word(0x3131303737362039)
    case 9 => Word(0x3638313533203832)
    case 10 => Word(0x3930383334343036)
    case 11 => Word(0x3332373120323335)
    case 12 => Word(0x2020340a31383131)
    case 13 => Word(0x7463692e6b656469)
    case 14 => Word(0x70632e6d6f310a31)
    case 15 => Word(0x3539383937323338)
    case 16 => Word(0x3333383732203930)
    case 17 => Word(0x3736203339393937)
    case 18 => Word(0x3839303437343920)
    case 19 => Word(0x3834363020323636)
    case 20 => Word(0x3838323330383435)
    case 21 => Word(0x37373620390a2032)
    case 22 => Word(0x3533203832333236)
    case 23 => Word(0x3334343036353935)
    case _ => Word(0x3120323335393530)
  }

  function KeyWord(key: nat): Word {
    Word((key % 0x1_0000_0000) as bv64)
  }

  function Start(key: nat): Words {
    seq(25, i requires 0 <= i < 25 => Xor(Seed(i), KeyWord(key)))
  }

  function Rotated(st: Words): Words {
    st[1..] + [st[0]]
  }

  function Advance(st: Words): Words {
    Rotated(Unlanes(KeccakP(Lanes(st))))
  }

  function Iterate(st: Words, n: nat): Words {
    if n == 0 then st else Advance(Iterate(st, n - 1))
  }

  function Fold(st: seq<Word>): Word {
    if st == [] then ZERO else Xor(Fold(st[..|st| - 1]), st[|st| - 1])
  }

  function ScrambleOf(key: nat, loops: nat): Word {
    Fold(Iterate(Start(key), loops))
  }

  /** The XOR of the scrambles of the keys from fkey to lkey, lkey excluded. */
  function XorOfRange(fkey: nat, lkey: nat, loops: nat): Word
    decreases lkey
  {
    if lkey <= fkey then ZERO else Xor(XorOfRange(fkey, lkey - 1, loops), ScrambleOf(lkey - 1, loops))
  }

  // ----- the DPU tasklet

  class Result {
    var sum: Word
    var curKey: nat
    var loops: nat
    var lkey: nat
    var curLoop: nat
    const tst: array<Word>

    constructor ()
      ensures sum == ZERO && fresh(tst) && tst.Length == 25
    {
      sum, curKey, loops, lkey, curLoop := ZERO, 0, 0, 0, 0;
      tst := new Word[25](_ => ZERO);
    }

    // The record of a tasklet stopped in iteration loop of key, after its checkpoint stores.
    ghost predicate Checkpoint(fkey: nat, key: nat, loop: nat, end: nat, total: nat)
      reads this, tst
    {
      && tst.Length == 25
      && fkey <= key < end && loop < total
      && sum == XorOfRange(fkey, key, total)
      && curKey == key && lkey == end && loops == total
      && curLoop == loop
      && tst[..] == Iterate(Start(key), loop)
    }
  }

  method InitialState(key: nat) returns (st: array<Word>)
    ensures fresh(st) && st[..] == Start(key)
  {
    hide Xor, KeyWord, Seed;
    st := new Word[25](i requires 0 <= i < 25 => Seed(i));
    for i := 0 to 25
      invariant forall j :: 0 <= j < i ==> st[j] == Start(key)[j]
      invariant forall j :: i <= j < 25 ==> st[j] == Seed(j)
    {
      st[i] := Xor(st[i], KeyWord(key));
    }
  }

  // One iteration of the scramble loop: permute, then rotate the lanes by one place.
  method Step(st: array<Word>)
    requires st.Length == 25
    modifies st
    ensures st[..] == Advance(old(st[..]))
  {
    hide KeccakP, Lanes, Unlanes;
    KeccakF(st);
    ghost var permuted := st[..];
    var tmp := st[0];
    for i := 0 to 24
      invariant forall j :: 0 <= j < i ==> st[j] == permuted[j + 1]
      invariant forall j :: i <= j < 25 ==> st[j] == permuted[j]
    {
      st[i] := st[i + 1];
    }
    st[24] := tmp;
    assert st[..] == Rotated(permuted);
  }

  method XorLanes(st: array<Word>, from: Word) returns (sum: Word)
    requires st.Length == 25
    ensures sum == Xor(from, Fold(st[..]))
  {
    sum := from;
    XorZero(from);
    for i := 0 to 25
      invariant sum == Xor(from, Fold(st[..i]))
    {
      assert st[..i + 1][..i] == st[..i];
      XorAssociates(from, Fold(st[..i]), st[i]);
      sum := Xor(sum, st[i]);
    }
    assert st[..25] == st[..];
  }

  // The tasklet is stopped in iteration stopAt, between the checkpoint stores of that iteration and
  // the next store; stopAt >= loops means that it is not stopped.
  method ScrambleKey(key: nat, loops: nat, result: Result, stopAt: nat) returns (sum: Word, stopped: bool)
    requires result.tst.Length == 25
    modifies result`curLoop, result.tst
    ensures stopped <==> stopAt < loops
    ensures stopped ==> result.curLoop == stopAt && result.tst[..] == Iterate(Start(key), stopAt)
    ensures !stopped ==> sum == ScrambleOf(key, loops)
  {
    hide Advance, Start, Xor, Fold;
    sum := ZERO;
    var st := InitialState(key);
    for l := 0 to loops
      invariant fresh(st) && st.Length == 25
      invariant st[..] == Iterate(Start(key), l)
      invariant l <= stopAt
    {
      result.curLoop := l;
      for i := 0 to 25
        invariant st[..] == Iterate(Start(key), l)
        invariant result.curLoop == l
        invariant result.tst[..i] == st[..i]
      {
        result.tst[i] := st[i];
      }
      assert result.tst[..] == st[..];
      if l == stopAt {
        return ZERO, true;
      }
      Step(st);
    }
    sum := XorLanes(st, ZERO);
    XorZero(Fold(st[..]));
    return sum, false;
  }

  /** The key loop of a tasklet, stopped in iteration stopLoop of key stopKey when it gets there. */
  method TaskletMain(fkey: nat, lkey: nat, loops: nat, result: Result, stopKey: nat, stopLoop: nat)
    returns (stopped: bool)
    requires result.tst.Length == 25 && result.sum == ZERO
    modifies result, result.tst
    ensures stopped <==> fkey <= stopKey < lkey && stopLoop < loops
    ensures stopped ==> result.Checkpoint(fkey, stopKey, stopLoop, lkey, loops)
    ensures !stopped ==> result.sum == XorOfRange(fkey, lkey, loops)
    ensures !stopped && fkey <= lkey ==> result.curKey == result.lkey == lkey
  {
    hide Advance, Start, Xor, Fold;
    var sum := ZERO;
    result.curKey := fkey;
    result.loops := loops;
    result.lkey := lkey;
    result.curLoop := MINUS_ONE;
    var key := fkey;
    while key < lkey
      invariant fkey <= key && (fkey <= lkey ==> key <= lkey) && (lkey < fkey ==> key == fkey)
      invariant result.curKey == key && result.lkey == lkey && result.loops == loops
      invariant sum == result.sum == XorOfRange(fkey, key, loops)
      invariant fkey <= stopKey && stopLoop < loops ==> key <= stopKey
    {
      var s, aborted := ScrambleKey(key, loops, result, if key == stopKey then stopLoop else loops);
      if aborted {
        return true;
      }
      sum := Xor(sum, s);
      result.sum := sum;
      result.curKey := result.curKey + 1;
      result.curLoop := result.loops;
      key := key + 1;
    }
    result.sum := sum;
    return false;
  }

  // ----- the host

  /** What the host adds to its total for one tasklet record: it runs the saved state to the end once
      for every key from the saved one on. */
  function HostAdds(tst: Words, curKey: nat, lkey: nat, curLoop: nat, loops: nat): Word
    decreases lkey - curKey
  {
    if lkey <= curKey then ZERO
    else Xor(Fold(Iterate(tst, if curLoop < loops then loops - curLoop else 0)),
             HostAdds(tst, curKey + 1, lkey, curLoop, loops))
  }

  method HostResume(result: Result, total: Word) returns (newTotal: Word)
    requires result.tst.Length == 25
    ensures newTotal
         == Xor(total, HostAdds(result.tst[..], result.curKey, result.lkey, result.curLoop, result.loops))
  {
    hide Advance, Start, Xor, Fold;
    newTotal := total;
    XorZero(total);
    var key := result.curKey;
    while key < result.lkey
      invariant result.curKey <= key
      invariant Xor(newTotal, HostAdds(result.tst[..], key, result.lkey, result.curLoop, result.loops))
             == Xor(total, HostAdds(result.tst[..], result.curKey, result.lkey, result.curLoop, result.loops))
    {
      var st := new Word[25](i requires 0 <= i < 25 reads result.tst => result.tst[i]);
      assert st[..] == result.tst[..];
      var l := result.curLoop;
      while l < result.loops
        invariant fresh(st) && st.Length == 25
        invariant result.curLoop <= l && (result.curLoop < result.loops ==> l <= result.loops)
        invariant st[..] == Iterate(result.tst[..], l - result.curLoop)
        invariant result.loops <= result.curLoop ==> l == result.curLoop
      {
        Step(st);
        l := l + 1;
      }
      XorAssociates(newTotal, Fold(st[..]),
        HostAdds(result.tst[..], key + 1, result.lkey, result.curLoop, result.loops));
      newTotal := XorLanes(st, newTotal);
      key := key + 1;
    }
    XorZero(newTotal);
  }

  // ----- what the parts of a scramble are

  /** Every lane starts with the key in it. */
  lemma StartHasKey(key: nat, i: nat)
    requires key < 0x1_0000_0000 && i < 25
    ensures Xor(Start(key)[i], Start(0)[i]) == Word(key as bv64) && Start(0)[i] == Seed(i)
  {
    KeyBits(Seed(i), KeyWord(key));
  }

  lemma KeyBits(seed: Word, key: Word)
    ensures Xor(Xor(seed, key), Xor(seed, Word(0))) == key && Xor(seed, Word(0)) == seed
  {
  }

  /** Distinct keys start from distinct states. */
  lemma StartsDiffer(k: nat, l: nat)
    requires k < 0x1_0000_0000 && l < 0x1_0000_0000 && k as bv64 != l as bv64
    ensures Start(k) != Start(l)
  {
    StartHasKey(k, 0);
    StartHasKey(l, 0);
  }

  /** An iteration permutes the lanes and rotates them by one place. */
  lemma AdvanceLane(st: Words, i: nat)
    requires i < 25
    ensures Advance(st)[i] == At(KeccakP(Lanes(st)), (i + 1) % 25)
    ensures Iterate(st, 1) == Advance(st) && Iterate(st, 0) == st
  {
    hide KeccakP, Lanes;
    assert Iterate(st, 1) == Advance(Iterate(st, 0));
  }

  function OddCount(st: seq<Word>, mask: bv64): bool {
    if st == [] then false else OddCount(st[..|st| - 1], mask) != (st[|st| - 1].bits & mask != 0)
  }

  /** The sum of a state has the bits that an odd number of its lanes have. */
  lemma {:induction false} FoldBits(st: seq<Word>, mask: bv64)
    requires OneBit(mask)
    ensures Fold(st).bits & mask != 0 <==> OddCount(st, mask)
  {
    if st != [] {
      var rest, last := st[..|st| - 1], st[|st| - 1];
      hide OneBit, Xor;
      FoldBits(rest, mask);
      XorBit(Fold(rest), last, mask);
    }
  }

  /** The sum of a range of one key is the scramble of that key: its starting state, iterated and summed. */
  lemma OneKey(key: nat, loops: nat)
    ensures XorOfRange(key, key + 1, loops) == Fold(Iterate(Start(key), loops))
  {
    hide Fold, Iterate, Start, Xor;
    XorZero(ScrambleOf(key, loops));
  }

  // ----- XOR

  lemma XorZero(v: Word)
    ensures Xor(v, ZERO) == v && Xor(ZERO, v) == v && Xor(v, v) == ZERO
  {
  }

  lemma XorAssociates(u: Word, v: Word, w: Word)
    ensures Xor(Xor(u, v), w) == Xor(u, Xor(v, w))
  {
  }

  // ----- resuming

  lemma {:induction false} IterateAdds(st: Words, m: nat, n: nat)
    ensures Iterate(Iterate(st, m), n) == Iterate(st, m + n)
  {
    hide Advance, Start, Xor, Fold;
    if n > 0 {
      IterateAdds(st, m, n - 1);
    }
  }

  /** Running a checkpoint to the end gives the uninterrupted scramble of its key. */
  lemma ResumedScramble(key: nat, loop: nat, loops: nat)
    requires loop <= loops
    ensures Fold(Iterate(Iterate(Start(key), loop), loops - loop)) == ScrambleOf(key, loops)
  {
    hide Advance, Start, Xor, Fold;
    IterateAdds(Start(key), loop, loops - loop);
  }

  /** The host adds the in-flight key once per remaining key: they cancel in pairs. */
  lemma {:induction false} HostAddsParity(tst: Words, curKey: nat, lkey: nat, curLoop: nat, loops: nat)
    ensures curKey >= lkey ==> HostAdds(tst, curKey, lkey, curLoop, loops) == ZERO
    ensures curKey < lkey ==>
      var iterations := if curLoop < loops then loops - curLoop else 0;
      HostAdds(tst, curKey, lkey, curLoop, loops)
      == if (lkey - curKey) % 2 == 1 then Fold(Iterate(tst, iterations)) else ZERO
    decreases lkey - curKey
  {
    hide Advance, Start, Xor, Fold;
    if curKey < lkey {
      HostAddsParity(tst, curKey + 1, lkey, curLoop, loops);
      XorZero(Fold(Iterate(tst, if curLoop < loops then loops - curLoop else 0)));
    }
  }

  /** The total after resuming the checkpoint (key, loop): the keys before it, and the key itself
      when an odd number of keys remained. */
  lemma ResumedTotal(fkey: nat, key: nat, loop: nat, lkey: nat, loops: nat)
    requires fkey <= key < lkey && loop < loops
    ensures Xor(XorOfRange(fkey, key, loops), HostAdds(Iterate(Start(key), loop), key, lkey, loop, loops))
         == XorOfRange(fkey, if (lkey - key) % 2 == 1 then key + 1 else key, loops)
  {
    hide Advance, Start, Xor, Fold;
    HostAddsParity(Iterate(Start(key), loop), key, lkey, loop, loops);
    ResumedScramble(key, loop, loops);
    XorZero(XorOfRange(fkey, key, loops));
  }

  /** Adjacent key ranges compose. */
  lemma {:induction false} RangeSplits(a: nat, b: nat, c: nat, loops: nat)
    requires a <= b <= c
    ensures XorOfRange(a, c, loops) == Xor(XorOfRange(a, b, loops), XorOfRange(b, c, loops))
    decreases c
  {
    hide Advance, Start, Xor, Fold;
    XorZero(XorOfRange(a, b, loops));
    if b < c {
      RangeSplits(a, b, c - 1, loops);
      XorAssociates(XorOfRange(a, b, loops), XorOfRange(b, c - 1, loops), ScrambleOf(c - 1, loops));
    }
  }

  /** Resuming restores the uninterrupted sum exactly when the keys the host did not run cancel out;
      it does so whenever the stopped key is the last of its range. */
  lemma ResumeRestoresSum(fkey: nat, key: nat, loop: nat, lkey: nat, loops: nat)
    requires fkey <= key < lkey && loop < loops
    ensures var total := Xor(XorOfRange(fkey, key, loops),
                             HostAdds(Iterate(Start(key), loop), key, lkey, loop, loops));
            var reached := if (lkey - key) % 2 == 1 then key + 1 else key;
      && (total == XorOfRange(fkey, lkey, loops) <==> XorOfRange(reached, lkey, loops) == ZERO)
      && (lkey == key + 1 ==> total == XorOfRange(fkey, lkey, loops))
  {
    hide Advance, Start, Xor, Fold;
    ResumedTotal(fkey, key, loop, lkey, loops);
    var reached := if (lkey - key) % 2 == 1 then key + 1 else key;
    RangeSplits(fkey, reached, lkey, loops);
    XorCancels(XorOfRange(fkey, reached, loops), XorOfRange(reached, lkey, loops));
  }

  lemma XorCancels(v: Word, w: Word)
    ensures v == Xor(v, w) <==> w == ZERO
  {
    if v == Xor(v, w) {
      assert v.bits ^ (v.bits ^ w.bits) == w.bits;
    }
    XorZero(v);
  }
}
