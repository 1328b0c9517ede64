/** A checksum computed by the tasklets of a DPU, each over every n-th block of a buffer, that the host
    completes from the record each tasklet keeps when the DPU is preempted. */
module Checksum {
  import opened Bytes

  const BLOCK_SIZE: nat := 256
  const BUFFER_SIZE: nat := 0x80_0000
  const REPEAT_TIMES: nat := 10

  datatype Record = Record(checksum: nat, idx: nat)

  predicate Aligned(n: nat) {
    n % BLOCK_SIZE == 0
  }

  // The buffer is whole blocks, and no index wraps.
  predicate Fits(buffer: seq<byte>, tasklets: nat) {
    Aligned(|buffer|) && tasklets > 0 && |buffer| + 2 * Stride(tasklets) < U32
  }

  function Stride(tasklets: nat): (n: nat)
    ensures Aligned(n) && (tasklets > 0 ==> n > 0)
  {
    tasklets * BLOCK_SIZE
  }

  /** The program's own sizes fit, for any number of tasklets that a DPU can have and many more. */
  lemma ProgramFits(buffer: seq<byte>, tasklets: nat)
    requires |buffer| == BUFFER_SIZE
    ensures Fits(buffer, tasklets) <==> 0 < tasklets < 0x7F_C000
  {
  }

  // 32-bit arithmetic.
  function Low(n: nat): (r: nat)
    ensures r < U32 && (n < U32 ==> r == n)
    ensures Aligned(n) ==> Aligned(r)
  {
    n % U32
  }

  // ----- sums, not reduced

  function ByteSum(s: seq<byte>): nat {
    if s == [] then 0 else ByteSum(s[..|s| - 1]) + s[|s| - 1] as int
  }

  function BlockAt(buffer: seq<byte>, idx: nat): (block: seq<byte>)
    requires Aligned(|buffer|) && Aligned(idx) && idx < |buffer|
    ensures |block| == BLOCK_SIZE
  {
    buffer[idx..idx + BLOCK_SIZE]
  }

  function BlockSum(buffer: seq<byte>, idx: nat): nat
    requires Aligned(|buffer|) && Aligned(idx) && idx < |buffer|
  {
    ByteSum(BlockAt(buffer, idx))
  }

  // The blocks from idx to the end, one every stride bytes.
  function Strided(buffer: seq<byte>, idx: nat, stride: nat): nat
    requires Aligned(|buffer|) && Aligned(idx) && Aligned(stride) && stride > 0
    decreases |buffer| - idx
  {
    if idx >= |buffer| then 0 else BlockSum(buffer, idx) + Strided(buffer, idx + stride, stride)
  }

  // Where the k-th of those blocks starts.
  function Nth(idx: nat, stride: nat, k: nat): (n: nat)
    requires Aligned(idx) && Aligned(stride)
    ensures Aligned(n) && n >= idx
  {
    if k == 0 then idx else Nth(idx, stride, k - 1) + stride
  }

  // The first k of them.
  function SumOfFirst(buffer: seq<byte>, idx: nat, stride: nat, k: nat): nat
    requires Aligned(|buffer|) && Aligned(idx) && Aligned(stride)
    requires k == 0 || Nth(idx, stride, k - 1) < |buffer|
  {
    if k == 0 then 0
    else SumOfFirst(buffer, idx, stride, k - 1) + BlockSum(buffer, Nth(idx, stride, k - 1))
  }

  function Start(t: nat): (n: nat)
    ensures Aligned(n)
  {
    t * BLOCK_SIZE
  }

  // ----- the records

  // What tasklet t leaves after block k of its rake, in any repetition.
  function RecordAfter(buffer: seq<byte>, t: nat, tasklets: nat, k: nat): Record
    requires Fits(buffer, tasklets) && Nth(Start(t), Stride(tasklets), k) < |buffer|
  {
    Record(Low(SumOfFirst(buffer, Start(t), Stride(tasklets), k + 1)), Nth(Start(t), Stride(tasklets), k))
  }

  ghost predicate InFlight(buffer: seq<byte>, t: nat, tasklets: nat, r: Record)
    requires Fits(buffer, tasklets)
  {
    exists k: nat :: Nth(Start(t), Stride(tasklets), k) < |buffer| && r == RecordAfter(buffer, t, tasklets, k)
  }

  predicate Complete(buffer: seq<byte>, t: nat, tasklets: nat, r: Record)
    requires Fits(buffer, tasklets)
  {
    r.checksum == Low(Strided(buffer, Start(t), Stride(tasklets)))
  }

  predicate Finished(buffer: seq<byte>, t: nat, tasklets: nat, r: Record)
    requires Fits(buffer, tasklets)
  {
    && Complete(buffer, t, tasklets, r)
    && Aligned(r.idx)
    && |buffer| <= r.idx < |buffer| + Stride(tasklets)
  }

  ghost predicate Checkpoint(buffer: seq<byte>, t: nat, tasklets: nat, r: Record)
    requires Fits(buffer, tasklets)
  {
    InFlight(buffer, t, tasklets, r) || Finished(buffer, t, tasklets, r)
  }

  // ----- the DPU

  /** Despite its name, whether some element differs from the first. */
  method IsSame(a: array<nat>, n: int) returns (r: bool)
    requires n <= a.Length
    ensures n > 0 ==> (r <==> exists k: nat :: k < n && a[k] != a[0])
  {
    var i := n - 1;
    while i > 0 && a[i] == a[0]
      invariant i < n && (n > 0 ==> 0 <= i)
      invariant n > 0 ==> forall k :: i < k < n ==> a[k] == a[0]
    {
      i := i - 1;
    }
    return i != 0;
  }

  method AddBlock(block: seq<byte>, from: nat) returns (checksum: nat)
    requires from < U32
    ensures checksum == Low(from + ByteSum(block))
  {
    checksum := from;
    for i := 0 to |block|
      invariant checksum == Low(from + ByteSum(block[..i]))
    {
      assert block[..i + 1][..i] == block[..i];
      AddMod(from + ByteSum(block[..i]), block[i] as int);
      checksum := Low(checksum + block[i] as int);
    }
    assert block[..|block|] == block;
  }

  /** The sum of the first repetition, as they all give the same. */
  method Agreed(sums: array<nat>) returns (checksum: nat)
    requires sums.Length == REPEAT_TIMES
    ensures checksum == sums[0]
  {
    var differ := IsSame(sums, REPEAT_TIMES);
    checksum := if differ then sums[0] else sums[REPEAT_TIMES - 1];
  }

  // One repetition, stopped after block stopBlock when stopping and it gets there.
  method Repetition(buffer: seq<byte>, t: nat, tasklets: nat, results: array<Record>, stopping: bool, stopBlock: nat)
    returns (checksum: nat, idx: nat, stopped: bool)
    requires Fits(buffer, tasklets) && t < tasklets == results.Length
    modifies results
    ensures forall i :: 0 <= i < tasklets && i != t ==> results[i] == old(results[i])
    ensures stopped <==> stopping && Nth(Start(t), Stride(tasklets), stopBlock) < |buffer|
    ensures stopped ==> results[t] == RecordAfter(buffer, t, tasklets, stopBlock)
    ensures !stopped ==> Finished(buffer, t, tasklets, Record(checksum, idx))
  {
    hide ByteSum, Nth, SumOfFirst, Strided, Low;
    ghost var start := Start(t);
    var stride := Stride(tasklets);
    checksum := 0;
    idx := Start(t);
    var k := 0;
    NthFirst(buffer, start, stride);
    while idx < |buffer|
      invariant idx == Nth(start, stride, k) < |buffer| + stride
      invariant k == 0 || Nth(start, stride, k - 1) < |buffer|
      invariant checksum == Low(SumOfFirst(buffer, start, stride, k))
      invariant forall j :: 0 <= j < tasklets && j != t ==> results[j] == old(results[j])
      invariant stopping ==> k <= stopBlock
      decreases |buffer| + stride - idx
    {
      NthNext(buffer, start, stride, k);
      AddMod(SumOfFirst(buffer, start, stride, k), BlockSum(buffer, idx));
      checksum := AddBlock(BlockAt(buffer, idx), checksum);
      results[t] := Record(checksum, idx);
      if stopping && k == stopBlock {
        return checksum, idx, true;
      }
      idx := Low(idx + stride);
      k := k + 1;
    }
    SplitAt(buffer, start, stride, k);
    NthGrows(start, stride, k, stopBlock);
    stopped := false;
  }

  /** One tasklet, stopped after block stopBlock of repetition stopRepeat when it gets there. */
  method TaskletMain(buffer: seq<byte>, t: nat, tasklets: nat, results: array<Record>, stopRepeat: nat, stopBlock: nat)
    returns (stopped: bool)
    requires Fits(buffer, tasklets) && t < tasklets == results.Length
    modifies results
    ensures forall i :: 0 <= i < tasklets && i != t ==> results[i] == old(results[i])
    ensures stopped <==> stopRepeat < REPEAT_TIMES && Nth(Start(t), Stride(tasklets), stopBlock) < |buffer|
    ensures stopped ==> results[t] == RecordAfter(buffer, t, tasklets, stopBlock)
    ensures !stopped ==> Finished(buffer, t, tasklets, results[t])
  {
    hide Nth, Strided, Low;
    results[t] := results[t].(checksum := 0);
    var idx := 0;
    var sums := new nat[REPEAT_TIMES](i => 0);
    for i := 0 to REPEAT_TIMES
      invariant fresh(sums)
      invariant forall j :: 0 <= j < i ==> Finished(buffer, t, tasklets, Record(sums[j], idx))
      invariant forall j :: 0 <= j < tasklets && j != t ==> results[j] == old(results[j])
      invariant stopRepeat < i ==> Nth(Start(t), Stride(tasklets), stopBlock) >= |buffer|
    {
      var checksum, end, aborted := Repetition(buffer, t, tasklets, results, i == stopRepeat, stopBlock);
      if aborted {
        return true;
      }
      sums[i] := checksum;
      idx := end;
    }
    var sum := Agreed(sums);
    results[t] := Record(sum, idx);
    return false;
  }

  // ----- the host

  function Resumed(buffer: seq<byte>, tasklets: nat, r: Record): Record
    requires Fits(buffer, tasklets) && Aligned(r.idx)
  {
    r.(checksum := Low(r.checksum + Strided(buffer, Low(r.idx + Stride(tasklets)), Stride(tasklets))))
  }

  // The records of every DPU, one row each.
  method HostResume(buffer: seq<byte>, tasklets: nat, results: array2<Record>, aborted: array<bool>)
    requires Fits(buffer, tasklets) && results.Length0 == aborted.Length && results.Length1 == tasklets
    requires forall d, t :: 0 <= d < results.Length0 && 0 <= t < tasklets ==>
      Aligned(results[d, t].idx) && results[d, t].checksum < U32
    modifies results
    ensures forall d, t :: 0 <= d < results.Length0 && 0 <= t < tasklets ==>
      results[d, t] == if aborted[d] then Resumed(buffer, tasklets, old(results[d, t])) else old(results[d, t])
  {
    for d := 0 to aborted.Length
      invariant forall e, t :: d <= e < results.Length0 && 0 <= t < tasklets ==> results[e, t] == old(results[e, t])
      invariant forall e, t :: 0 <= e < d && 0 <= t < tasklets ==>
        results[e, t] == if aborted[e] then Resumed(buffer, tasklets, old(results[e, t])) else old(results[e, t])
    {
      if aborted[d] {
        for t := 0 to tasklets
          invariant forall e, u :: 0 <= e < results.Length0 && 0 <= u < tasklets && e != d ==>
            results[e, u]
            == if e < d && aborted[e] then Resumed(buffer, tasklets, old(results[e, u])) else old(results[e, u])
          invariant forall u :: 0 <= u < t ==> results[d, u] == Resumed(buffer, tasklets, old(results[d, u]))
          invariant forall u :: t <= u < tasklets ==> results[d, u] == old(results[d, u])
        {
          var checksum := ResumeOne(buffer, tasklets, results[d, t]);
          results[d, t] := results[d, t].(checksum := checksum);
        }
      }
    }
  }

  // The two inner loops of the host, for one record.
  method ResumeOne(buffer: seq<byte>, tasklets: nat, r: Record) returns (checksum: nat)
    requires Fits(buffer, tasklets) && Aligned(r.idx) && r.checksum < U32
    ensures checksum == Resumed(buffer, tasklets, r).checksum
  {
    hide ByteSum, BlockAt, Strided, Low, Aligned, Stride;
    var stride := Stride(tasklets);
    checksum := r.checksum;
    AlignedSum(r.idx, stride);
    var first := Low(r.idx + stride);
    var idx := first;
    while idx < |buffer|
      invariant Aligned(idx) && checksum < U32 && idx < U32
      invariant Low(checksum + Strided(buffer, idx, stride)) == Low(r.checksum + Strided(buffer, first, stride))
      decreases |buffer| + stride - idx
    {
      AlignedSum(idx, stride);
      StridedStep(buffer, idx, stride);
      StridedBeyond(buffer, idx + stride, stride);
      AddMod(checksum + BlockSum(buffer, idx), Strided(buffer, idx + stride, stride));
      checksum := AddBlock(BlockAt(buffer, idx), checksum);
      idx := Low(idx + stride);
    }
    StridedBeyond(buffer, idx, stride);
  }

  function RecordSum(records: seq<Record>): nat {
    if records == [] then 0 else Low(RecordSum(records[..|records| - 1]) + records[|records| - 1].checksum)
  }

  /** The checksum of DPU d. */
  method Reduce(results: array2<Record>, d: nat) returns (checksum: nat)
    requires d < results.Length0
    ensures checksum
         == RecordSum(seq(results.Length1, t requires 0 <= t < results.Length1 reads results => results[d, t]))
  {
    ghost var records := seq(results.Length1, t requires 0 <= t < results.Length1 reads results => results[d, t]);
    checksum := 0;
    for t := 0 to results.Length1
      invariant checksum == RecordSum(records[..t])
    {
      assert records[..t + 1][..t] == records[..t];
      checksum := Low(checksum + results[d, t].checksum);
    }
    assert records[..results.Length1] == records;
  }

  // ----- arithmetic

  lemma AlignedSum(a: nat, b: nat)
    requires Aligned(a) && Aligned(b)
    ensures Aligned(a + b)
  {
  }

  lemma AddMod(a: nat, b: nat)
    ensures Low(Low(a) + b) == Low(a + b)
  {
  }

  lemma AddNothing(a: nat, b: nat)
    requires b < U32
    ensures Low(a + b) == Low(a) <==> b == 0
  {
  }

  lemma {:induction false} ByteSumSplits(a: seq<byte>, b: seq<byte>)
    ensures ByteSum(a + b) == ByteSum(a) + ByteSum(b)
  {
    if b == [] {
      assert a + b == a;
    } else {
      assert (a + b)[..|a + b| - 1] == a + b[..|b| - 1];
      ByteSumSplits(a, b[..|b| - 1]);
    }
  }

  lemma {:induction false} ByteSumSmall(s: seq<byte>)
    ensures ByteSum(s) <= 255 * |s|
  {
    if s != [] {
      ByteSumSmall(s[..|s| - 1]);
    }
  }

  lemma BlockSumSmall(buffer: seq<byte>, idx: nat)
    requires Aligned(|buffer|) && Aligned(idx) && idx < |buffer|
    ensures BlockSum(buffer, idx) <= 255 * BLOCK_SIZE
  {
    ByteSumSmall(BlockAt(buffer, idx));
  }

  lemma NthFirst(buffer: seq<byte>, idx: nat, stride: nat)
    requires Aligned(|buffer|) && Aligned(idx) && Aligned(stride)
    ensures Nth(idx, stride, 0) == idx && SumOfFirst(buffer, idx, stride, 0) == 0
  {
  }

  lemma NthNext(buffer: seq<byte>, idx: nat, stride: nat, k: nat)
    requires Aligned(|buffer|) && Aligned(idx) && Aligned(stride)
    requires Nth(idx, stride, k) < |buffer| && (k == 0 || Nth(idx, stride, k - 1) < |buffer|)
    ensures Nth(idx, stride, k + 1) == Nth(idx, stride, k) + stride
    ensures SumOfFirst(buffer, idx, stride, k + 1)
         == SumOfFirst(buffer, idx, stride, k) + BlockSum(buffer, Nth(idx, stride, k))
  {
  }

  lemma NthStep(idx: nat, stride: nat, k: nat)
    requires Aligned(idx) && Aligned(stride)
    ensures Nth(idx, stride, k + 1) == Nth(idx, stride, k) + stride
  {
  }

  lemma {:induction false} NthGrows(idx: nat, stride: nat, j: nat, k: nat)
    requires Aligned(idx) && Aligned(stride)
    ensures j <= k ==> Nth(idx, stride, j) <= Nth(idx, stride, k)
  {
    if j < k {
      NthGrows(idx, stride, j, k - 1);
    }
  }

  // ----- resuming

  /** The first k blocks and those that follow are all the blocks. */
  lemma {:induction false} SplitAt(buffer: seq<byte>, idx: nat, stride: nat, k: nat)
    requires Aligned(|buffer|) && Aligned(idx) && Aligned(stride) && stride > 0
    requires k == 0 || Nth(idx, stride, k - 1) < |buffer|
    ensures SumOfFirst(buffer, idx, stride, k) + Strided(buffer, Nth(idx, stride, k), stride)
         == Strided(buffer, idx, stride)
    ensures Nth(idx, stride, k) >= |buffer| ==> SumOfFirst(buffer, idx, stride, k) == Strided(buffer, idx, stride)
  {
    hide BlockSum;
    if k > 0 {
      SplitAt(buffer, idx, stride, k - 1);
    }
  }

  lemma StridedStep(buffer: seq<byte>, idx: nat, stride: nat)
    requires Aligned(|buffer|) && Aligned(idx) && Aligned(stride) && stride > 0
    requires idx < |buffer|
    ensures Strided(buffer, idx, stride) == BlockSum(buffer, idx) + Strided(buffer, idx + stride, stride)
  {
  }

  lemma StridedBeyond(buffer: seq<byte>, idx: nat, stride: nat)
    requires Aligned(|buffer|) && Aligned(idx) && Aligned(stride) && stride > 0
    ensures idx >= |buffer| ==> Strided(buffer, idx, stride) == 0
  {
  }

  // What the host makes of a record in the middle of a rake.
  lemma ResumedInside(buffer: seq<byte>, tasklets: nat, sum: nat, idx: nat)
    requires Fits(buffer, tasklets) && Aligned(idx) && idx < |buffer|
    ensures Resumed(buffer, tasklets, Record(Low(sum), idx)).checksum
         == Low(sum + Strided(buffer, idx + Stride(tasklets), Stride(tasklets)))
  {
    hide Strided, Low;
    AddMod(sum, Strided(buffer, idx + Stride(tasklets), Stride(tasklets)));
  }

  lemma InFlightCompletes(buffer: seq<byte>, t: nat, tasklets: nat, k: nat)
    requires Fits(buffer, tasklets) && Nth(Start(t), Stride(tasklets), k) < |buffer|
    ensures Complete(buffer, t, tasklets, Resumed(buffer, tasklets, RecordAfter(buffer, t, tasklets, k)))
  {
    hide Aligned, Nth, Strided, SumOfFirst, Low, Resumed, Start, Stride;
    var start, stride := Start(t), Stride(tasklets);
    NthStep(start, stride, k);
    SplitAt(buffer, start, stride, k + 1);
    ResumedInside(buffer, tasklets, SumOfFirst(buffer, start, stride, k + 1), Nth(start, stride, k));
  }

  /** From any checkpoint the host completes the tasklet's sum. */
  lemma ResumeCompletes(buffer: seq<byte>, t: nat, tasklets: nat, r: Record)
    requires Fits(buffer, tasklets) && Checkpoint(buffer, t, tasklets, r)
    ensures Aligned(r.idx) && Complete(buffer, t, tasklets, Resumed(buffer, tasklets, r))
  {
    hide Strided, SumOfFirst, Low, Nth;
    if InFlight(buffer, t, tasklets, r) {
      var k: nat :| Nth(Start(t), Stride(tasklets), k) < |buffer| && r == RecordAfter(buffer, t, tasklets, k);
      InFlightCompletes(buffer, t, tasklets, k);
    } else {
      StridedBeyond(buffer, r.idx + Stride(tasklets), Stride(tasklets));
    }
  }

  // Stopped between the two stores of block k + 1, a record holds the new sum and the old index.
  function TornRecord(buffer: seq<byte>, t: nat, tasklets: nat, k: nat): Record
    requires Fits(buffer, tasklets) && Nth(Start(t), Stride(tasklets), k + 1) < |buffer|
  {
    RecordAfter(buffer, t, tasklets, k + 1).(idx := Nth(Start(t), Stride(tasklets), k))
  }

  /** A torn record adds a block twice, so that it is completed only when that block adds nothing. */
  lemma TornIsWrong(buffer: seq<byte>, t: nat, tasklets: nat, k: nat)
    requires Fits(buffer, tasklets) && Nth(Start(t), Stride(tasklets), k + 1) < |buffer|
    ensures Complete(buffer, t, tasklets, Resumed(buffer, tasklets, TornRecord(buffer, t, tasklets, k))) <==>
      BlockSum(buffer, Nth(Start(t), Stride(tasklets), k + 1)) == 0
  {
    hide Aligned, Nth, Strided, SumOfFirst, BlockSum, Low, Resumed, Start, Stride;
    var start, stride := Start(t), Stride(tasklets);
    var idx := Nth(start, stride, k + 1);
    BlockSumSmall(buffer, idx);
    NthStep(start, stride, k);
    SplitAt(buffer, start, stride, k + 1);
    NthNext(buffer, start, stride, k + 1);
    AddNothing(Strided(buffer, start, stride), BlockSum(buffer, idx));
    ResumedInside(buffer, tasklets, SumOfFirst(buffer, start, stride, k + 2), Nth(start, stride, k));
  }

  /** For instance with one tasklet and two blocks of ones. */
  lemma TornExample()
    ensures var buffer: seq<byte> := seq(512, _ => 1);
      && Fits(buffer, 1) && Nth(Start(0), Stride(1), 1) < |buffer|
      && !Complete(buffer, 0, 1, Resumed(buffer, 1, TornRecord(buffer, 0, 1, 0)))
  {
    var buffer: seq<byte> := seq(512, _ => 1);
    NthStep(Start(0), Stride(1), 0);
    TornIsWrong(buffer, 0, 1, 0);
    LastCounts(BlockAt(buffer, 256));
  }

  lemma LastCounts(s: seq<byte>)
    requires s != [] && s[|s| - 1] > 0
    ensures ByteSum(s) > 0
  {
  }

  // ----- the rakes together

  ghost predicate InRake(j: nat, t: nat, tasklets: nat) {
    exists k: nat :: Nth(Start(t), Stride(tasklets), k) <= j < Nth(Start(t), Stride(tasklets), k) + BLOCK_SIZE
  }

  lemma {:induction false} NthBlock(t: nat, tasklets: nat, k: nat)
    ensures Nth(Start(t), Stride(tasklets), k) == BLOCK_SIZE * (t + k * tasklets)
  {
    if k > 0 {
      NthBlock(t, tasklets, k - 1);
      assert k * tasklets == (k - 1) * tasklets + tasklets;
    }
  }

  lemma Grows(a: nat, b: nat, n: nat)
    requires a < b
    ensures n * a + n <= n * b
  {
    assert n * (a + 1) <= n * b;
  }

  lemma Remainder(k: nat, n: nat, t: nat)
    requires t < n
    ensures (t + k * n) % n == t
  {
    var a := t + k * n;
    var q := a / n;
    assert a == n * q + a % n;
    if q < k {
      Grows(q, k, n);
    } else if k < q {
      Grows(k, q, n);
    }
  }

  /** Every index is in the rake of one tasklet, the one its block number gives. */
  lemma OneRake(j: nat, t: nat, tasklets: nat)
    requires t < tasklets
    ensures InRake(j, t, tasklets) <==> t == j / BLOCK_SIZE % tasklets
  {
    var block := j / BLOCK_SIZE;
    if InRake(j, t, tasklets) {
      var k: nat :| Nth(Start(t), Stride(tasklets), k) <= j < Nth(Start(t), Stride(tasklets), k) + BLOCK_SIZE;
      NthBlock(t, tasklets, k);
      Remainder(k, tasklets, t);
    }
    if t == block % tasklets {
      var k := block / tasklets;
      assert block == t + k * tasklets;
      NthBlock(t, tasklets, k);
      assert Nth(Start(t), Stride(tasklets), k) <= j < Nth(Start(t), Stride(tasklets), k) + BLOCK_SIZE;
    }
  }

  function RakesFrom(buffer: seq<byte>, from: nat, tasklets: nat, count: nat): nat
    requires Aligned(|buffer|) && Aligned(from) && tasklets > 0
  {
    if count == 0 then 0
    else RakesFrom(buffer, from, tasklets, count - 1) + Strided(buffer, from + Start(count - 1), Stride(tasklets))
  }

  lemma {:induction false} RakesShift(buffer: seq<byte>, from: nat, tasklets: nat, count: nat)
    requires Aligned(|buffer|) && Aligned(from) && tasklets > 0
    ensures RakesFrom(buffer, from, tasklets, count) + Strided(buffer, from + Start(count), Stride(tasklets))
         == Strided(buffer, from, Stride(tasklets)) + RakesFrom(buffer, from + BLOCK_SIZE, tasklets, count)
  {
    hide Strided;
    if count > 0 {
      RakesShift(buffer, from, tasklets, count - 1);
      assert from + BLOCK_SIZE + Start(count - 1) == from + Start(count);
    }
  }

  lemma StartIsStride(tasklets: nat)
    ensures Start(tasklets) == Stride(tasklets)
  {
  }

  lemma FirstBlock(buffer: seq<byte>, from: nat)
    requires Aligned(|buffer|) && Aligned(from) && from < |buffer|
    ensures from + BLOCK_SIZE <= |buffer| && Aligned(from + BLOCK_SIZE)
    ensures ByteSum(buffer[from..]) == BlockSum(buffer, from) + ByteSum(buffer[from + BLOCK_SIZE..])
  {
    hide ByteSum;
    ByteSumSplits(BlockAt(buffer, from), buffer[from + BLOCK_SIZE..]);
    assert buffer[from..] == BlockAt(buffer, from) + buffer[from + BLOCK_SIZE..];
  }

  /** The rakes of all tasklets cover every byte once. */
  lemma {:induction false} RakesCover(buffer: seq<byte>, from: nat, tasklets: nat)
    requires Aligned(|buffer|) && Aligned(from) && from <= |buffer| && tasklets > 0
    ensures RakesFrom(buffer, from, tasklets, tasklets) == ByteSum(buffer[from..])
    decreases |buffer| - from
  {
    hide Aligned, Stride, Start, Strided, RakesFrom;
    if from == |buffer| {
      RakesBeyond(buffer, from, tasklets, tasklets);
    } else {
      hide ByteSum, BlockSum;
      FirstBlock(buffer, from);
      RakesShift(buffer, from, tasklets, tasklets);
      StartIsStride(tasklets);
      StridedStep(buffer, from, Stride(tasklets));
      RakesCover(buffer, from + BLOCK_SIZE, tasklets);
    }
  }

  lemma {:induction false} RakesBeyond(buffer: seq<byte>, from: nat, tasklets: nat, count: nat)
    requires Aligned(|buffer|) && Aligned(from) && from >= |buffer| && tasklets > 0
    ensures RakesFrom(buffer, from, tasklets, count) == 0
  {
    if count > 0 {
      RakesBeyond(buffer, from, tasklets, count - 1);
    }
  }

  lemma {:induction false} RecordSumOfRakes(buffer: seq<byte>, tasklets: nat, records: seq<Record>)
    requires Fits(buffer, tasklets)
    requires forall t: nat :: t < |records| ==> Complete(buffer, t, tasklets, records[t])
    ensures RecordSum(records) == Low(RakesFrom(buffer, 0, tasklets, |records|))
  {
    hide Strided;
    if records != [] {
      var t := |records| - 1;
      RecordSumOfRakes(buffer, tasklets, records[..t]);
      AddMod(RakesFrom(buffer, 0, tasklets, t), Low(Strided(buffer, Start(t), Stride(tasklets))));
      AddMod(Strided(buffer, Start(t), Stride(tasklets)), RakesFrom(buffer, 0, tasklets, t));
    }
  }

  /** Whatever checkpoint each tasklet of a preempted DPU left, the reduction after resuming is the sum
      of all bytes modulo 2^32, as it is when the DPU was not preempted. */
  lemma ResumedReduction(buffer: seq<byte>, tasklets: nat, before: seq<Record>, after: seq<Record>, aborted: bool)
    requires Fits(buffer, tasklets) && |before| == |after| == tasklets
    requires forall t: nat :: t < tasklets ==>
      if aborted then Checkpoint(buffer, t, tasklets, before[t]) else Finished(buffer, t, tasklets, before[t])
    requires forall t: nat :: t < tasklets ==> Aligned(before[t].idx)
    requires forall t: nat :: t < tasklets ==>
      after[t] == if aborted then Resumed(buffer, tasklets, before[t]) else before[t]
    ensures RecordSum(after) == Low(ByteSum(buffer))
  {
    forall t: nat | t < tasklets ensures Complete(buffer, t, tasklets, after[t]) {
      if aborted {
        ResumeCompletes(buffer, t, tasklets, before[t]);
      }
    }
    RecordSumOfRakes(buffer, tasklets, after);
    RakesCover(buffer, 0, tasklets);
    assert buffer[0..] == buffer;
  }
}
