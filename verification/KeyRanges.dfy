/** How the host of the scramble benchmark divides the keys among the tasklets. */
module KeyRanges {
  import opened KeccakFips
  import Scramble

  const U32: nat := 0x1_0000_0000
  const U64: nat := 0x1_0000_0000_0000_0000

  // The arithmetic of the host: 64-bit unsigned, stored in 32-bit fields.

  function CeilShare(nkey: nat, idx: nat, n: nat): int
    requires n > 0
  {
    ((nkey * idx) % U64 + n - 1) % U64 / n
  }

  function FirstKey(fkey: nat, lkey: nat, idx: nat, n: nat): nat
    requires n > 0 && fkey <= lkey
  {
    (fkey + CeilShare(lkey - fkey, idx, n)) % U64 % U32
  }

  function LastKey(fkey: nat, lkey: nat, idx: nat, n: nat): nat
    requires n > 0 && fkey <= lkey
  {
    var last := (fkey + CeilShare(lkey - fkey, idx + 1, n)) % U64 % U32;
    if last > lkey then lkey else last
  }

  // The sizes that the parameters and the tasklet numbering have on the host.
  predicate Sizes(fkey: nat, lkey: nat, n: nat) {
    fkey <= lkey < U32 && 0 < n < U32
  }

  /** The nested loops over the DPUs and their tasklets, numbering the tasklets with idx. */
  method AssignRanges(fkey: nat, lkey: nat, nrDpus: nat, nrTasklets: nat) returns (ranges: seq<(nat, nat)>)
    requires Sizes(fkey, lkey, nrDpus * nrTasklets)
    ensures |ranges| == nrDpus * nrTasklets
    ensures forall i :: 0 <= i < |ranges| ==>
      ranges[i] == (Boundary(fkey, lkey, i, |ranges|), Boundary(fkey, lkey, i + 1, |ranges|))
  {
    hide Boundary, FirstKey, LastKey;
    var n := nrDpus * nrTasklets;
    ranges := [];
    var idx := 0;
    TimesSum(nrTasklets, nrDpus, 0);
    assert n == Times(nrTasklets, nrDpus) > 0;
    hide Times;
    for dpu := 0 to nrDpus
      invariant idx == |ranges| == Times(nrTasklets, dpu)
      invariant Assigned(ranges, fkey, lkey, n)
    {
      TimesUpTo(dpu, nrDpus, nrTasklets);
      TimesUpTo(dpu + 1, nrDpus, nrTasklets);
      TimesSum(nrTasklets, dpu, 1);
      TimesSum(nrTasklets, 1, 0);
      for t := 0 to nrTasklets
        invariant idx == |ranges| == Times(nrTasklets, dpu) + t
        invariant Assigned(ranges, fkey, lkey, n)
      {
        KeysAreBoundaries(fkey, lkey, idx, n);
        ranges := ranges + [(FirstKey(fkey, lkey, idx, n), LastKey(fkey, lkey, idx, n))];
        idx := idx + 1;
      }
    }
  }

  // The first ranges are between the first boundaries.
  ghost predicate Assigned(ranges: seq<(nat, nat)>, fkey: nat, lkey: nat, n: nat)
    requires n > 0 && fkey <= lkey
  {
    forall i: nat :: i < |ranges| ==>
      ranges[i] == (Boundary(fkey, lkey, i, n), Boundary(fkey, lkey, i + 1, n))
  }

  // ----- the same bounds in exact arithmetic

  function Times(a: nat, b: nat): nat {
    a * b
  }

  // The quotient rounded up.
  function CeilDiv(a: nat, n: nat): nat
    requires n > 0
  {
    (a + n - 1) / n
  }

  /** Where range idx starts and range idx - 1 ends. */
  function Boundary(fkey: nat, lkey: nat, idx: nat, n: nat): nat
    requires n > 0 && fkey <= lkey
  {
    fkey + CeilDiv(Times(lkey - fkey, idx), n)
  }

  lemma TimesMonotonic(a: nat, b: nat, c: nat)
    requires a <= b
    ensures a * c <= b * c
  {
  }

  lemma TimesUpTo(a: nat, b: nat, n: nat)
    requires a <= b
    ensures Times(n, a) <= Times(n, b)
    ensures a < b ==> Times(n, a) + n <= Times(n, b)
  {
    if a < b {
      assert n * (a + 1) <= n * b by { TimesMonotonic(a + 1, b, n); }
      assert n * (a + 1) == n * a + n;
    }
  }

  lemma TimesSum(n: nat, a: nat, b: nat)
    ensures Times(n, a + b) == Times(n, a) + Times(n, b)
    ensures Times(n, 0) == 0 && Times(n, 1) == n && Times(n, a) == Times(a, n)
  {
  }

  // A rounded-up quotient by its two defining inequalities.
  lemma CeilBounds(a: nat, n: nat)
    requires n > 0
    ensures a <= Times(n, CeilDiv(a, n)) < a + n
  {
    var q, r := (a + n - 1) / n, (a + n - 1) % n;
    assert a + n - 1 == n * q + r;
  }

  lemma CeilUnique(a: nat, n: nat, q: nat)
    requires n > 0 && a <= Times(n, q) < a + n
    ensures CeilDiv(a, n) == q
  {
    hide Times, CeilDiv;
    var p := CeilDiv(a, n);
    CeilBounds(a, n);
    if p < q {
      TimesUpTo(p, q, n);
    } else if q < p {
      TimesUpTo(q, p, n);
    }
  }

  // Up to a multiple of n the quotient does not exceed the factor.
  lemma CeilUpTo(a: nat, n: nat, m: nat)
    requires n > 0 && a <= Times(n, m)
    ensures CeilDiv(a, n) <= m
  {
    hide Times, CeilDiv;
    CeilBounds(a, n);
    if CeilDiv(a, n) > m {
      TimesUpTo(m, CeilDiv(a, n), n);
    }
  }

  /** Nothing wraps: what the host stores are the exact boundaries. */
  lemma KeysAreBoundaries(fkey: nat, lkey: nat, idx: nat, n: nat)
    requires Sizes(fkey, lkey, n) && idx < n
    ensures FirstKey(fkey, lkey, idx, n) == Boundary(fkey, lkey, idx, n)
    ensures LastKey(fkey, lkey, idx, n) == Boundary(fkey, lkey, idx + 1, n)
  {
    hide CeilShare, Boundary;
    NoWrap(fkey, lkey, idx, n);
    NoWrap(fkey, lkey, idx + 1, n);
  }

  lemma NoWrap(fkey: nat, lkey: nat, idx: nat, n: nat)
    requires Sizes(fkey, lkey, n) && idx <= n
    ensures fkey + CeilShare(lkey - fkey, idx, n) == Boundary(fkey, lkey, idx, n)
    ensures fkey <= Boundary(fkey, lkey, idx, n) <= lkey
  {
    hide Times, CeilDiv, CeilShare;
    var nkey := lkey - fkey;
    TimesSum(nkey, n, 0);
    TimesUpTo(idx, n, nkey);
    SmallTimes(nkey, n);
    ShareIsCeil(nkey, idx, n);
    CeilUpTo(Times(nkey, idx), n, nkey);
  }

  lemma SmallTimes(nkey: nat, n: nat)
    requires nkey < U32 && n < U32
    ensures Times(nkey, n) + U32 <= U64
  {
    TimesMonotonic(nkey, U32 - 1, n);
    assert (U32 - 1) * n <= (U32 - 1) * (U32 - 1);
  }

  lemma ShareIsCeil(nkey: nat, idx: nat, n: nat)
    requires 0 < n < U32 && Times(nkey, idx) + U32 <= U64
    ensures CeilShare(nkey, idx, n) == CeilDiv(Times(nkey, idx), n)
  {
    var a := Times(nkey, idx);
    assert a == nkey * idx;
    ShareOf(a, n);
  }

  lemma ShareOf(a: nat, n: nat)
    requires 0 < n < U32 && a + U32 <= U64
    ensures (a % U64 + n - 1) % U64 == a + n - 1
  {
  }

  // Rounded-up quotients of arguments a distance b apart.
  lemma CeilStep(a: nat, b: nat, n: nat)
    requires n > 0
    ensures b / n <= CeilDiv(a + b, n) - CeilDiv(a, n) <= b / n + 1
  {
    hide Times, CeilDiv;
    CeilBounds(a, n);
    CeilBounds(a + b, n);
    FloorBounds(b, n);
    QuotientsApart(CeilDiv(a, n), CeilDiv(a + b, n), b / n, n, a, b);
  }

  lemma FloorBounds(b: nat, n: nat)
    requires n > 0
    ensures Times(n, b / n) <= b < Times(n, b / n) + n
  {
    assert b == n * (b / n) + b % n;
  }

  lemma QuotientsApart(p: nat, q: nat, d: nat, n: nat, a: nat, b: nat)
    requires n > 0
    requires a <= Times(n, p) < a + n && a + b <= Times(n, q) < a + b + n && Times(n, d) <= b < Times(n, d) + n
    ensures p + d <= q <= p + d + 1
  {
    hide Times;
    TimesSum(n, p, d);
    if q < p + d {
      TimesUpTo(q, p + d, n);
    } else if p + d + 2 <= q {
      TimesUpTo(p + d, p + d + 1, n);
      TimesUpTo(p + d + 1, q, n);
    }
  }

  /** A boundary is its share of the keys, rounded up. */
  lemma BoundaryRoundsUp(fkey: nat, lkey: nat, idx: nat, n: nat)
    requires n > 0 && fkey <= lkey
    ensures fkey <= Boundary(fkey, lkey, idx, n)
    ensures (lkey - fkey) * idx <= n * (Boundary(fkey, lkey, idx, n) - fkey) < (lkey - fkey) * idx + n
  {
    hide CeilDiv;
    CeilBounds(Times(lkey - fkey, idx), n);
  }

  /** The boundaries run from fkey to lkey in steps that differ by at most one. */
  lemma BoundarySteps(fkey: nat, lkey: nat, idx: nat, n: nat)
    requires n > 0 && fkey <= lkey
    ensures Boundary(fkey, lkey, 0, n) == fkey && Boundary(fkey, lkey, n, n) == lkey
    ensures (lkey - fkey) / n
         <= Boundary(fkey, lkey, idx + 1, n) - Boundary(fkey, lkey, idx, n)
         <= (lkey - fkey) / n + 1
  {
    hide Times, CeilDiv;
    var nkey := lkey - fkey;
    TimesSum(n, 0, 0);
    TimesSum(nkey, n, 0);
    CeilUnique(0, n, 0);
    CeilUnique(Times(nkey, n), n, nkey);
    TimesSum(nkey, idx, 1);
    TimesSum(nkey, 1, 0);
    CeilStep(Times(nkey, idx), nkey, n);
  }

  lemma {:induction false} BoundariesOrdered(fkey: nat, lkey: nat, i: nat, j: nat, n: nat)
    requires n > 0 && fkey <= lkey && i <= j
    ensures Boundary(fkey, lkey, i, n) <= Boundary(fkey, lkey, j, n)
    decreases j
  {
    hide Boundary;
    if i < j {
      BoundariesOrdered(fkey, lkey, i, j - 1, n);
      NextBoundary(fkey, lkey, j - 1, n);
    }
  }

  lemma NextBoundary(fkey: nat, lkey: nat, idx: nat, n: nat)
    requires n > 0 && fkey <= lkey
    ensures Boundary(fkey, lkey, idx, n) <= Boundary(fkey, lkey, idx + 1, n)
  {
    hide Boundary;
    BoundarySteps(fkey, lkey, idx, n);
    FloorBounds(lkey - fkey, n);
  }

  predicate InRange(key: nat, fkey: nat, lkey: nat, idx: nat, n: nat)
    requires n > 0 && fkey <= lkey
  {
    Boundary(fkey, lkey, idx, n) <= key < Boundary(fkey, lkey, idx + 1, n)
  }

  lemma {:induction false} FindTasklet(key: nat, fkey: nat, lkey: nat, upTo: nat, n: nat) returns (idx: nat)
    requires n > 0 && fkey <= key && fkey <= lkey
    requires key < Boundary(fkey, lkey, upTo, n)
    ensures idx < upTo && InRange(key, fkey, lkey, idx, n)
  {
    BoundarySteps(fkey, lkey, 0, n);
    if Boundary(fkey, lkey, upTo - 1, n) <= key {
      idx := upTo - 1;
    } else {
      idx := FindTasklet(key, fkey, lkey, upTo - 1, n);
    }
  }

  /** Every key of the range goes to exactly one tasklet, and no other key goes to any. */
  lemma OneTaskletPerKey(key: nat, fkey: nat, lkey: nat, n: nat)
    requires n > 0 && fkey <= lkey
    ensures fkey <= key < lkey <==> exists idx: nat :: idx < n && InRange(key, fkey, lkey, idx, n)
    ensures forall i: nat, j: nat ::
      InRange(key, fkey, lkey, i, n) && InRange(key, fkey, lkey, j, n) ==> i == j
  {
    BoundarySteps(fkey, lkey, 0, n);
    if fkey <= key < lkey {
      var idx := FindTasklet(key, fkey, lkey, n, n);
    }
    forall idx: nat | idx < n && InRange(key, fkey, lkey, idx, n)
      ensures fkey <= key < lkey
    {
      BoundariesOrdered(fkey, lkey, 0, idx, n);
      BoundariesOrdered(fkey, lkey, idx + 1, n, n);
    }
    forall i: nat, j: nat | InRange(key, fkey, lkey, i, n) && InRange(key, fkey, lkey, j, n)
      ensures i == j
    {
      if i < j {
        BoundariesOrdered(fkey, lkey, i + 1, j, n);
      } else if j < i {
        BoundariesOrdered(fkey, lkey, j + 1, i, n);
      }
    }
  }

  // ----- no key is lost or counted twice in the final sum

  function XorAll(sums: seq<Word>): Word {
    if sums == [] then Scramble.ZERO else Xor(XorAll(sums[..|sums| - 1]), sums[|sums| - 1])
  }

  lemma {:induction false} TaskletSumsUpTo(sums: seq<Word>, fkey: nat, lkey: nat, loops: nat, n: nat)
    requires n > 0 && fkey <= lkey
    requires forall i: nat :: i < |sums| ==>
      sums[i] == Scramble.XorOfRange(Boundary(fkey, lkey, i, n), Boundary(fkey, lkey, i + 1, n), loops)
    ensures XorAll(sums) == Scramble.XorOfRange(fkey, Boundary(fkey, lkey, |sums|, n), loops)
  {
    hide Xor;
    BoundarySteps(fkey, lkey, 0, n);
    if sums != [] {
      var k := |sums| - 1;
      TaskletSumsUpTo(sums[..k], fkey, lkey, loops, n);
      BoundariesOrdered(fkey, lkey, 0, k, n);
      BoundariesOrdered(fkey, lkey, k, k + 1, n);
      Scramble.RangeSplits(fkey, Boundary(fkey, lkey, k, n), Boundary(fkey, lkey, k + 1, n), loops);
    }
  }

  /** When every tasklet delivers the sum of its own range, their XOR is the sum of all the keys. */
  lemma TaskletSumsCombine(sums: seq<Word>, fkey: nat, lkey: nat, loops: nat)
    requires |sums| > 0 && fkey <= lkey
    requires forall i: nat :: i < |sums| ==>
      sums[i]
      == Scramble.XorOfRange(Boundary(fkey, lkey, i, |sums|), Boundary(fkey, lkey, i + 1, |sums|), loops)
    ensures XorAll(sums) == Scramble.XorOfRange(fkey, lkey, loops)
  {
    TaskletSumsUpTo(sums, fkey, lkey, loops, |sums|);
    BoundarySteps(fkey, lkey, 0, |sums|);
  }

  // ----- the final sum after a preemption

  // How a tasklet ended: with its range done, or stopped in an iteration of a key.
  datatype Stop = Finished | InFlight(key: nat, loop: nat)

  predicate ValidStop(stop: Stop, first: nat, end: nat, loops: nat) {
    stop.InFlight? ==> first <= stop.key < end && stop.loop < loops
  }

  // The sum in a tasklet's record, and what the host adds for the record.
  function Stored(stop: Stop, first: nat, end: nat, loops: nat): Word {
    Scramble.XorOfRange(first, if stop.InFlight? then stop.key else end, loops)
  }

  function Added(stop: Stop, end: nat, loops: nat): Word {
    if stop.Finished? then Scramble.ZERO
    else
      Scramble.HostAdds(Scramble.Iterate(Scramble.Start(stop.key), stop.loop), stop.key, end, stop.loop, loops)
  }

  /** They are those of the records: a checkpoint's, */
  lemma CheckpointIsInFlight(r: Scramble.Result, fkey: nat, key: nat, loop: nat, end: nat, loops: nat)
    requires r.Checkpoint(fkey, key, loop, end, loops)
    ensures ValidStop(InFlight(key, loop), fkey, end, loops)
    ensures r.sum == Stored(InFlight(key, loop), fkey, end, loops)
    ensures Scramble.HostAdds(r.tst[..], r.curKey, r.lkey, r.curLoop, r.loops) == Added(InFlight(key, loop), end, loops)
  {
  }

  /** and that of a tasklet that has gone through its range, to which the host adds nothing. */
  lemma EndIsFinished(r: Scramble.Result, fkey: nat, end: nat, loops: nat)
    requires r.tst.Length == 25 && r.curKey == r.lkey == end && r.sum == Scramble.XorOfRange(fkey, end, loops)
    ensures r.sum == Stored(Finished, fkey, end, loops)
    ensures Scramble.HostAdds(r.tst[..], r.curKey, r.lkey, r.curLoop, r.loops) == Added(Finished, end, loops)
  {
  }

  // The keys that stored sum and additions make up: all, or those up to the key in flight, without it
  // when an even number of keys remained.
  function Reached(stop: Stop, end: nat): nat {
    if stop.Finished? then end
    else if (end - stop.key) % 2 == 1 then stop.key + 1
    else stop.key
  }

  lemma StoredAndAdded(stop: Stop, first: nat, end: nat, loops: nat)
    requires ValidStop(stop, first, end, loops)
    ensures Xor(Stored(stop, first, end, loops), Added(stop, end, loops))
         == Scramble.XorOfRange(first, Reached(stop, end), loops)
  {
    hide Xor, Scramble.Iterate, Scramble.Start, Scramble.HostAdds;
    if stop.Finished? {
      Scramble.XorZero(Stored(stop, first, end, loops));
    } else {
      Scramble.ResumedTotal(first, stop.key, stop.loop, end, loops);
    }
  }

  lemma {:induction false} XorAllPairs(stored: seq<Word>, added: seq<Word>, both: seq<Word>)
    requires |stored| == |added| == |both|
    requires forall i :: 0 <= i < |both| ==> both[i] == Xor(stored[i], added[i])
    ensures Xor(XorAll(stored), XorAll(added)) == XorAll(both)
  {
    if both == [] {
      Scramble.XorZero(Scramble.ZERO);
    } else {
      hide Xor;
      var k := |both| - 1;
      XorAllPairs(stored[..k], added[..k], both[..k]);
      XorExchange(XorAll(stored[..k]), stored[k], XorAll(added[..k]), added[k]);
    }
  }

  lemma XorExchange(s: Word, t: Word, u: Word, v: Word)
    ensures Xor(Xor(s, t), Xor(u, v)) == Xor(Xor(s, u), Xor(t, v))
  {
    hide Xor;
    Scramble.XorAssociates(s, t, Xor(u, v));
    Scramble.XorAssociates(t, u, v);
    Scramble.XorAssociates(u, t, v);
    Scramble.XorAssociates(s, u, Xor(t, v));
    XorCommutes(t, u);
  }

  lemma XorCommutes(v: Word, w: Word)
    ensures Xor(v, w) == Xor(w, v)
  {
  }

  /** However the tasklets of a preempted run ended: the stored sums and what the host adds make up the
      sums of the keys that each tasklet reached. */
  lemma PreemptedTotal(stops: seq<Stop>, stored: seq<Word>, added: seq<Word>, reached: seq<Word>,
                       fkey: nat, lkey: nat, loops: nat)
    requires |stops| == |stored| == |added| == |reached| > 0 && fkey <= lkey
    requires forall i: nat :: i < |stops| ==>
      var first, end := Boundary(fkey, lkey, i, |stops|), Boundary(fkey, lkey, i + 1, |stops|);
      && ValidStop(stops[i], first, end, loops)
      && stored[i] == Stored(stops[i], first, end, loops)
      && added[i] == Added(stops[i], end, loops)
      && reached[i] == Scramble.XorOfRange(first, Reached(stops[i], end), loops)
    ensures Xor(XorAll(stored), XorAll(added)) == XorAll(reached)
  {
    hide Xor, Stored, Added, Boundary, Reached, Scramble.XorOfRange;
    forall i: nat | i < |stops| ensures reached[i] == Xor(stored[i], added[i]) {
      StoredAndAdded(stops[i], Boundary(fkey, lkey, i, |stops|), Boundary(fkey, lkey, i + 1, |stops|), loops);
    }
    XorAllPairs(stored, added, reached);
  }

  lemma ReachedEnd(stop: Stop, end: nat)
    requires stop.InFlight? ==> stop.key + 1 == end
    ensures Reached(stop, end) == end
  {
  }

  /** The final sum is the uninterrupted one when each tasklet had finished or was in its last key. */
  lemma ResumedFinalSum(stops: seq<Stop>, stored: seq<Word>, added: seq<Word>, fkey: nat, lkey: nat, loops: nat)
    requires |stops| == |stored| == |added| > 0 && fkey <= lkey
    requires forall i: nat :: i < |stops| ==>
      var first, end := Boundary(fkey, lkey, i, |stops|), Boundary(fkey, lkey, i + 1, |stops|);
      && ValidStop(stops[i], first, end, loops)
      && (stops[i].InFlight? ==> stops[i].key + 1 == end)
      && stored[i] == Stored(stops[i], first, end, loops)
      && added[i] == Added(stops[i], end, loops)
    ensures Xor(XorAll(stored), XorAll(added)) == Scramble.XorOfRange(fkey, lkey, loops)
  {
    hide Xor, Stored, Added, Boundary, Reached, ValidStop, RangeSum, Scramble.XorOfRange;
    var n := |stops|;
    var sums := seq(n, i requires 0 <= i < n => RangeSum(fkey, lkey, i, n, loops));
    forall i: nat | i < n
      ensures sums[i]
           == Scramble.XorOfRange(Boundary(fkey, lkey, i, n), Reached(stops[i], Boundary(fkey, lkey, i + 1, n)), loops)
    {
      ReachedEnd(stops[i], Boundary(fkey, lkey, i + 1, n));
      RangeSumIs(fkey, lkey, i, n, loops);
    }
    PreemptedTotal(stops, stored, added, sums, fkey, lkey, loops);
    SumOfRangeSums(sums, fkey, lkey, loops);
  }

  function RangeSum(fkey: nat, lkey: nat, idx: nat, n: nat, loops: nat): Word
    requires n > 0 && fkey <= lkey
  {
    Scramble.XorOfRange(Boundary(fkey, lkey, idx, n), Boundary(fkey, lkey, idx + 1, n), loops)
  }

  lemma RangeSumIs(fkey: nat, lkey: nat, idx: nat, n: nat, loops: nat)
    requires n > 0 && fkey <= lkey
    ensures RangeSum(fkey, lkey, idx, n, loops)
         == Scramble.XorOfRange(Boundary(fkey, lkey, idx, n), Boundary(fkey, lkey, idx + 1, n), loops)
  {
  }

  lemma SumOfRangeSums(sums: seq<Word>, fkey: nat, lkey: nat, loops: nat)
    requires |sums| > 0 && fkey <= lkey
    requires forall i: nat :: i < |sums| ==> sums[i] == RangeSum(fkey, lkey, i, |sums|, loops)
    ensures XorAll(sums) == Scramble.XorOfRange(fkey, lkey, loops)
  {
    hide XorAll, Scramble.XorOfRange, Boundary;
    TaskletSumsCombine(sums, fkey, lkey, loops);
  }
}
