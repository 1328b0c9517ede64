/** Access to the MRAM of a DPU through a program run on that DPU: the host saves the DPU's IRAM and
    WRAM, loads the access program, and moves the data through WRAM chunk by chunk. */
module MramAccess {
  import opened Bytes

  datatype Status = Ok | Disabled | DriverError | InternalError

  // Instructions matter here only as far as the two patched DMA instructions go.
  datatype Instruction = Sdma(length: nat) | Ldma(length: nat) | Other(code: nat)

  const DMA_ACCESS_IDX_1: nat := 11
  const DMA_ACCESS_IDX_2: nat := 19
  const DMA_ACCESS_LENGTH_1: nat := 255
  const DMA_ACCESS_LENGTH_2: nat := 0

  // The words of the program context in WRAM, and where the data starts.
  const CONTEXT_OFFSET: nat := 5
  const CONTEXT_SIZE: nat := 6
  const CONTEXT_LAST: nat := 7
  const PROGRAM_CONTEXT_WRAM_SIZE: nat := 8

  function Patched(program: seq<Instruction>, toMram: bool): seq<Instruction>
    requires |program| > DMA_ACCESS_IDX_2
  {
    var dma := (n: nat) => if toMram then Sdma(n) else Ldma(n);
    program[DMA_ACCESS_IDX_1 := dma(DMA_ACCESS_LENGTH_1)][DMA_ACCESS_IDX_2 := dma(DMA_ACCESS_LENGTH_2)]
  }

  /** Instructions 11 and 19 are the two DMA instructions, in the direction of the transfer, with lengths
      255 and 0; the others are as fetched. */
  lemma PatchedAt(program: seq<Instruction>, toMram: bool, i: nat)
    requires |program| > DMA_ACCESS_IDX_2 && i < |program|
    ensures |Patched(program, toMram)| == |program|
    ensures Patched(program, toMram)[i]
         == if i == 11 then (if toMram then Sdma(255) else Ldma(255))
            else if i == 19 then (if toMram then Sdma(0) else Ldma(0))
            else program[i]
  {
  }

  function ContextWord(wram: seq<byte>, i: nat): nat
    requires 4 * i + 4 <= |wram|
  {
    FromWord(wram[4 * i..4 * i + 4])
  }

  // An access of the host that failed, or a fault of the program.
  datatype Trouble = Nothing | Failed | Faulted

  // What has gone wrong last after a call that answers status.
  function Noted(trouble: Trouble, status: Status): Trouble {
    match status
    case DriverError => Failed
    case InternalError => Faulted
    case _ => trouble
  }

  /** So when nothing was wrong before a transfer with an enabled DPU, its status is Ok exactly when
      nothing went wrong, a driver error exactly when an access failed, and an internal error exactly
      when the program faulted. */
  lemma StatusTells(before: Trouble, after: Trouble, status: Status)
    requires before == Nothing && after == Noted(before, status) && status != Disabled
    ensures status == Ok <==> after == Nothing
    ensures status == DriverError <==> after == Failed
    ensures status == InternalError <==> after == Faulted
  {
  }

  // A move of n bytes at MRAM address at; after the last one the program ends.
  datatype Move = Move(resume: bool, at: nat, n: nat, last: bool)

  // MRAM is accessed in blocks of eight bytes.
  predicate InBlocks(n: nat) {
    n % 8 == 0
  }

  lemma InBlocksWords(words: nat)
    requires words % 2 == 0
    ensures InBlocks(4 * words)
  {
  }

  lemma WordsOf(n: nat)
    requires InBlocks(n)
    ensures 4 * (n / 4) == n
  {
  }

  lemma InBlocksSum(a: nat, b: nat)
    requires InBlocks(a)
    ensures InBlocks(a + b) <==> InBlocks(b)
  {
  }

  /** A DPU as its host sees it. The access program is not part of the sources: each time it is
      started or resumed it is taken to move as many bytes as the second context word says between the
      WRAM from word 8 on and the MRAM at its cursor (at first, the first context word), to advance the
      cursor, and then to end or to wait for being resumed as the third context word says. */
  class Dpu {
    var enabled: bool
    var mram: seq<byte>
    var wram: seq<byte>
    var iram: seq<Instruction>
    var cursor: nat
    var waiting: bool
    // What the program has moved so far.
    ghost var moves: seq<Move>
    // What has gone wrong last.
    ghost var trouble: Trouble
    // The program in IRAM that the DPU manufacturer's library provides.
    const accessProgram: seq<Instruction>

    ghost predicate Holds(toMram: bool)
      reads this
    {
      && |accessProgram| > DMA_ACCESS_IDX_2
      && Patched(accessProgram, toMram) <= iram
    }

    lemma HeldDirection(toMram: bool)
      requires Holds(toMram)
      ensures |iram| > DMA_ACCESS_IDX_1 && iram[DMA_ACCESS_IDX_1].Sdma? == toMram
    {
      assert Patched(accessProgram, toMram)[DMA_ACCESS_IDX_1] == iram[DMA_ACCESS_IDX_1];
    }

    // The next start or resume moves n bytes at MRAM address at.
    ghost predicate Moves(resume: bool, toMram: bool, at: nat, n: nat)
      reads this
    {
      && Holds(toMram)
      && 4 * PROGRAM_CONTEXT_WRAM_SIZE + n <= |wram|
      && at == (if resume then cursor else ContextWord(wram, CONTEXT_OFFSET))
      && n == ContextWord(wram, CONTEXT_SIZE)
      && (resume ==> waiting)
      && InBlocks(at) && InBlocks(n) && at + n <= |mram|
    }

    // dpu_thread_boot_safe_for_dpu, then polling until the thread stops or faults
    method Run(resume: bool, ghost toMram: bool, ghost at: nat, ghost n: nat) returns (ok: bool, fault: bool)
      requires Moves(resume, toMram, at, n)
      modifies this`mram, this`wram, this`cursor, this`waiting, this`moves, this`trouble
      ensures |mram| == |old(mram)| && |wram| == |old(wram)|
      ensures trouble == if !ok then Failed else if fault then Faulted else old(trouble)
      ensures !toMram ==> mram == old(mram)
      ensures forall i :: 0 <= i < |mram| && !(at <= i < at + n) ==> mram[i] == old(mram[i])
      ensures ok && !fault ==>
        && mram == (if toMram then Splice(old(mram), at, old(wram)[32..32 + n]) else old(mram))
        && wram == (if toMram then old(wram) else Splice(old(wram), 32, old(mram)[at..at + n]))
        && cursor == at + n
        && waiting == (ContextWord(old(wram), CONTEXT_LAST) == 0)
        && moves == old(moves) + [Move(resume, at, n, !waiting)]
    {
      hide Patched, FromWord;
      HeldDirection(toMram);
      ok, fault := *, *;
      if ok && !fault {
        var start := if resume then cursor else ContextWord(wram, CONTEXT_OFFSET);
        var count := ContextWord(wram, CONTEXT_SIZE);
        waiting := ContextWord(wram, CONTEXT_LAST) == 0;
        if iram[DMA_ACCESS_IDX_1].Sdma? {
          mram := Splice(mram, start, wram[32..32 + count]);
        } else {
          wram := Splice(wram, 32, mram[start..start + count]);
        }
        cursor := start + count;
        moves := moves + [Move(resume, at, n, !waiting)];
      }
      trouble := if !ok then Failed else if fault then Faulted else trouble;
    }

    method CopyToWram(word: nat, data: seq<byte>) returns (ok: bool)
      requires 4 * word + |data| <= |wram|
      modifies this`wram, this`trouble
      ensures |wram| == |old(wram)| && trouble == (if ok then old(trouble) else Failed)
      ensures ok ==> wram == Splice(old(wram), 4 * word, data)
    {
      ok := *;
      trouble := if ok then trouble else Failed;
      if ok {
        wram := Splice(wram, 4 * word, data);
      }
    }

    method CopyFromWram(word: nat, count: nat) returns (ok: bool, data: seq<byte>)
      requires 4 * word + 4 * count <= |wram|
      modifies this`trouble
      ensures trouble == if ok then old(trouble) else Failed
      ensures ok ==> data == wram[4 * word..4 * word + 4 * count]
    {
      ok := *;
      trouble := if ok then trouble else Failed;
      data := if ok then wram[4 * word..4 * word + 4 * count] else [];
    }

    method CopyToIram(program: seq<Instruction>) returns (ok: bool)
      requires |program| <= |iram|
      modifies this`iram, this`trouble
      ensures |iram| == |old(iram)| && trouble == (if ok then old(trouble) else Failed)
      ensures ok ==> iram == Splice(old(iram), 0, program)
    {
      ok := *;
      trouble := if ok then trouble else Failed;
      if ok {
        iram := Splice(iram, 0, program);
      }
    }

    method CopyFromIram(count: nat) returns (ok: bool, program: seq<Instruction>)
      requires count <= |iram|
      modifies this`trouble
      ensures trouble == if ok then old(trouble) else Failed
      ensures ok ==> program == iram[..count]
    {
      ok := *;
      trouble := if ok then trouble else Failed;
      program := if ok then iram[..count] else [];
    }

    // Saving and restoring the threads' registers and scheduling is not part of this model.
    method ExchangeContext() returns (ok: bool)
      modifies this`trouble
      ensures trouble == if ok then old(trouble) else Failed
    {
      ok := *;
      trouble := if ok then trouble else Failed;
    }
  }

  // ----- one transfer

  // The part of a buffer that has gone, or come, after a number of bytes.
  ghost predicate Transferred(toMram: bool, mram: seq<byte>, oldMram: seq<byte>, buffer: seq<byte>,
                              oldBuffer: seq<byte>, base: nat, offset: nat, done: nat)
  {
    && base + done <= |oldBuffer| && offset + done <= |oldMram|
    && if toMram then
         buffer == oldBuffer && mram == Splice(oldMram, offset, oldBuffer[base..base + done])
       else
         mram == oldMram && buffer == Splice(oldBuffer, base, oldMram[offset..offset + done])
  }

  lemma TransferredMore(toMram: bool, mram: seq<byte>, oldMram: seq<byte>, buffer: seq<byte>, oldBuffer: seq<byte>,
                        base: nat, offset: nat, done: nat, n: nat)
    requires Transferred(toMram, mram, oldMram, buffer, oldBuffer, base, offset, done)
    requires base + done + n <= |oldBuffer| && offset + done + n <= |oldMram|
    ensures |mram| == |oldMram| && |buffer| == |oldBuffer|
    ensures toMram ==>
      Transferred(toMram, Splice(mram, offset + done, buffer[base + done..base + done + n]), oldMram,
                  buffer, oldBuffer, base, offset, done + n)
    ensures !toMram ==>
      Transferred(toMram, mram, oldMram, Splice(buffer, base + done, mram[offset + done..offset + done + n]),
                  oldBuffer, base, offset, done + n)
  {
    if toMram {
      SpliceAppends(oldMram, offset, oldBuffer[base..base + done], oldBuffer[base + done..base + done + n]);
      assert oldBuffer[base..base + done] + oldBuffer[base + done..base + done + n] == oldBuffer[base..base + done + n];
    } else {
      SpliceAppends(oldBuffer, base, oldMram[offset..offset + done], oldMram[offset + done..offset + done + n]);
      assert oldMram[offset..offset + done] + oldMram[offset + done..offset + done + n]
          == oldMram[offset..offset + done + n];
    }
  }

  method CopyInto(buffer: array<byte>, at: nat, data: seq<byte>)
    requires at + |data| <= buffer.Length
    modifies buffer
    ensures buffer[..] == Splice(old(buffer[..]), at, data)
  {
    forall i | 0 <= i < |data| {
      buffer[at + i] := data[i];
    }
    assert buffer[..] == Splice(old(buffer[..]), at, data);
  }

  // WRAM with the data of a chunk in it, and the marker of the last transfer set when asked for.
  function WithChunk(wram: seq<byte>, data: seq<byte>, markLast: bool): (w: seq<byte>)
    requires 32 + |data| <= |wram|
    ensures |w| == |wram|
  {
    Marked(Splice(wram, 32, data), markLast)
  }

  function Marked(wram: seq<byte>, markLast: bool): (w: seq<byte>)
    requires 32 <= |wram|
    ensures |w| == |wram|
  {
    if markLast then Splice(wram, 28, Word(1)) else wram
  }

  lemma MarkedThenSpliced(wram: seq<byte>, data: seq<byte>, markLast: bool)
    requires 32 + |data| <= |wram|
    ensures Splice(Marked(wram, markLast), 32, data) == WithChunk(wram, data, markLast)
  {
    hide Word;
    assert Splice(Marked(wram, markLast), 32, data) == WithChunk(wram, data, markLast);
  }

  lemma MarkedContext(wram: seq<byte>, markLast: bool)
    requires 32 <= |wram|
    ensures var w := Marked(wram, markLast);
      && w[..28] == wram[..28] && w[32..] == wram[32..]
      && ContextWord(w, CONTEXT_OFFSET) == ContextWord(wram, CONTEXT_OFFSET)
      && ContextWord(w, CONTEXT_SIZE) == ContextWord(wram, CONTEXT_SIZE)
      && ContextWord(w, CONTEXT_LAST) == (if markLast then 1 else ContextWord(wram, CONTEXT_LAST))
  {
    hide Splice, FromWord, Word;
    if markLast {
      WordRoundTrip(1);
      SpliceInside(wram, 28, Word(1));
      SpliceOutside(wram, 28, Word(1), 0, 28);
      SpliceOutside(wram, 28, Word(1), 20, 24);
      SpliceOutside(wram, 28, Word(1), 24, 28);
      SpliceOutside(wram, 28, Word(1), 32, |wram|);
    }
  }

  lemma DataKeepsContext(wram: seq<byte>, data: seq<byte>)
    requires 32 + |data| <= |wram|
    ensures var w := Splice(wram, 32, data);
      && w[32..32 + |data|] == data && w[32 + |data|..] == wram[32 + |data|..]
      && ContextWord(w, CONTEXT_OFFSET) == ContextWord(wram, CONTEXT_OFFSET)
      && ContextWord(w, CONTEXT_SIZE) == ContextWord(wram, CONTEXT_SIZE)
      && ContextWord(w, CONTEXT_LAST) == ContextWord(wram, CONTEXT_LAST)
  {
    hide Splice, FromWord;
    SpliceInside(wram, 32, data);
    SpliceOutside(wram, 32, data, 20, 24);
    SpliceOutside(wram, 32, data, 24, 28);
    SpliceOutside(wram, 32, data, 28, 32);
    SpliceOutside(wram, 32, data, 32 + |data|, |wram|);
  }

  /** One chunk: the data are loaded before the program runs, or fetched after it. The marker of the
      last transfer is written in between when asked for. */
  method MoveChunk(dpu: Dpu, toMram: bool, buffer: array<byte>, at: nat, words: nat, resume: bool, markLast: bool,
                   ghost mramAt: nat)
    returns (status: Status)
    requires at + 4 * words <= buffer.Length
    requires dpu.Moves(resume, toMram, mramAt, 4 * words)
    modifies dpu`mram, dpu`wram, dpu`cursor, dpu`waiting, dpu`moves, dpu`trouble, buffer
    ensures dpu.trouble == Noted(old(dpu.trouble), status) && (dpu.enabled ==> status != Disabled)
    ensures |dpu.mram| == |old(dpu.mram)| && |dpu.wram| == |old(dpu.wram)|
    ensures !toMram ==> dpu.mram == old(dpu.mram)
    ensures toMram ==> buffer[..] == old(buffer[..])
    ensures forall i :: 0 <= i < |dpu.mram| && !(mramAt <= i < mramAt + 4 * words) ==> dpu.mram[i] == old(dpu.mram[i])
    ensures status == Ok ==>
      && (toMram ==>
            && dpu.mram == Splice(old(dpu.mram), mramAt, buffer[at..at + 4 * words])
            && dpu.wram == WithChunk(old(dpu.wram), buffer[at..at + 4 * words], markLast))
      && (!toMram ==>
            && buffer[..] == Splice(old(buffer[..]), at, dpu.mram[mramAt..mramAt + 4 * words])
            && dpu.wram == WithChunk(old(dpu.wram), dpu.mram[mramAt..mramAt + 4 * words], markLast))
      && dpu.cursor == mramAt + 4 * words
      && dpu.waiting == (!markLast && ContextWord(old(dpu.wram), CONTEXT_LAST) == 0)
      && dpu.moves == old(dpu.moves) + [Move(resume, mramAt, 4 * words, !dpu.waiting)]
  {
    hide Splice, Word, FromWord, Patched, Marked;
    var ok, fault;
    ghost var start := dpu.wram;
    if toMram {
      ok := dpu.CopyToWram(PROGRAM_CONTEXT_WRAM_SIZE, buffer[at..at + 4 * words]);
      if !ok {
        return DriverError;
      }
      DataKeepsContext(start, buffer[at..at + 4 * words]);
    }
    ghost var withData := dpu.wram;
    ok := WriteMarker(dpu, markLast);
    if !ok {
      return DriverError;
    }
    MarkedContext(withData, markLast);
    assert dpu.Moves(resume, toMram, mramAt, 4 * words);
    ghost var loaded := dpu.wram;
    assert toMram ==> loaded[32..32 + 4 * words] == buffer[at..at + 4 * words] by {
      if toMram {
        MarkedThenSpliced(start, buffer[at..at + 4 * words], markLast);
        SpliceInside(Marked(start, markLast), 32, buffer[at..at + 4 * words]);
      }
    }
    ok, fault := dpu.Run(resume, toMram, mramAt, 4 * words);
    if !ok {
      return DriverError;
    }
    if fault {
      return InternalError;
    }
    if !toMram {
      ghost var moved := dpu.mram[mramAt..mramAt + 4 * words];
      MarkedThenSpliced(start, moved, markLast);
      SpliceInside(loaded, 32, moved);
      var data;
      ok, data := dpu.CopyFromWram(PROGRAM_CONTEXT_WRAM_SIZE, words);
      if !ok {
        return DriverError;
      }
      CopyInto(buffer, at, data);
    }
    status := Ok;
  }

  method WriteMarker(dpu: Dpu, markLast: bool) returns (ok: bool)
    requires |dpu.wram| >= 32
    modifies dpu`wram, dpu`trouble
    ensures |dpu.wram| == |old(dpu.wram)| && dpu.trouble == (if ok then old(dpu.trouble) else Failed)
    ensures ok ==> dpu.wram == Marked(old(dpu.wram), markLast)
  {
    hide Splice, Word;
    ok := true;
    if markLast {
      ok := dpu.CopyToWram(CONTEXT_LAST, Word(1));
    }
  }

  lemma WithChunkKeeps(wram: seq<byte>, data: seq<byte>, markLast: bool)
    requires 32 + |data| <= |wram|
    ensures var w := WithChunk(wram, data, markLast);
      && w[32 + |data|..] == wram[32 + |data|..]
      && ContextWord(w, CONTEXT_SIZE) == ContextWord(wram, CONTEXT_SIZE)
      && ContextWord(w, CONTEXT_LAST) == (if markLast then 1 else ContextWord(wram, CONTEXT_LAST))
  {
    hide Splice, Marked, FromWord;
    var spliced := Splice(wram, 32, data);
    DataKeepsContext(wram, data);
    MarkedContext(spliced, markLast);
    assert Marked(spliced, markLast)[32 + |data|..] == Marked(spliced, markLast)[32..][|data|..];
    assert spliced[32..][|data|..] == spliced[32 + |data|..];
  }

  // Some of the context words, written from word first on.
  function WithContext(wram: seq<byte>, first: nat, size: nat, last: nat): seq<byte>
    requires 32 <= |wram| && first < U32 && size < U32 && last < U32
  {
    Splice(wram, 20, Word(first) + Word(size) + Word(last))
  }

  lemma ThreeWords(w: seq<byte>, a: seq<byte>, b: seq<byte>, c: seq<byte>)
    requires |w| >= 32 && |a| == |b| == |c| == 4 && w[20..32] == a + b + c
    ensures w[20..24] == a && w[24..28] == b && w[28..32] == c
  {
    assert w[20..24] == (a + b + c)[..4];
    assert w[24..28] == (a + b + c)[4..8];
    assert w[28..32] == (a + b + c)[8..12];
  }

  lemma ContextWritten(wram: seq<byte>, first: nat, size: nat, last: nat)
    requires 32 <= |wram| && first < U32 && size < U32 && last < U32
    ensures var w := WithContext(wram, first, size, last);
      && |w| == |wram| && w[32..] == wram[32..]
      && ContextWord(w, CONTEXT_OFFSET) == first
      && ContextWord(w, CONTEXT_SIZE) == size
      && ContextWord(w, CONTEXT_LAST) == last
  {
    hide Splice, Word, FromWord;
    var words := Word(first) + Word(size) + Word(last);
    SpliceInside(wram, 20, words);
    SpliceOutside(wram, 20, words, 32, |wram|);
    var w := Splice(wram, 20, words);
    assert w[20..32] == words;
    ThreeWords(w, Word(first), Word(size), Word(last));
    WordRoundTrip(first);
    WordRoundTrip(size);
    WordRoundTrip(last);
  }

  lemma SizeRewritten(wram: seq<byte>, size: nat, last: nat)
    requires 32 <= |wram| && size < U32 && last < U32
    ensures var w := Splice(wram, 24, Word(size) + Word(last));
      && w[32..] == wram[32..]
      && ContextWord(w, CONTEXT_SIZE) == size
      && ContextWord(w, CONTEXT_LAST) == last
  {
    hide Splice, Word, FromWord;
    var words := Word(size) + Word(last);
    SpliceInside(wram, 24, words);
    SpliceOutside(wram, 24, words, 32, |wram|);
    var w := Splice(wram, 24, words);
    assert w[24..28] == w[24..32][..4] == Word(size);
    assert w[28..32] == w[24..32][4..8] == Word(last);
    WordRoundTrip(size);
    WordRoundTrip(last);
  }

  predicate SameOutside(mram: seq<byte>, oldMram: seq<byte>, offset: nat, size: nat) {
    |mram| == |oldMram| && forall i :: 0 <= i < |mram| && !(offset <= i < offset + size) ==> mram[i] == oldMram[i]
  }

  lemma TransferredOutside(toMram: bool, mram: seq<byte>, oldMram: seq<byte>, buffer: seq<byte>,
                           oldBuffer: seq<byte>, base: nat, offset: nat, done: nat, size: nat)
    requires Transferred(toMram, mram, oldMram, buffer, oldBuffer, base, offset, done) && done <= size
    ensures SameOutside(mram, oldMram, offset, size)
  {
  }

  // What the memories held before a transfer, and the transfer itself.
  datatype Snapshot = Snapshot(mram: seq<byte>, wram: seq<byte>, iram: seq<Instruction>, buffer: seq<byte>)
  datatype Plan = Plan(toMram: bool, program: seq<Instruction>, base: nat, offset: nat, size: nat, saved: nat)

  // Everything between two chunks that the next chunk and the final restoration rely on.
  ghost predicate Between(dpu: Dpu, buffer: array<byte>, was: Snapshot, plan: Plan, done: nat)
    reads dpu, buffer
  {
    && Transferred(plan.toMram, dpu.mram, was.mram, buffer[..], was.buffer, plan.base, plan.offset, done)
    && |dpu.mram| == |was.mram| && |was.buffer| == buffer.Length
    && done <= plan.size && plan.base + plan.size <= buffer.Length && plan.offset + plan.size <= |was.mram|
    && |plan.program| <= |was.iram| && dpu.iram == Splice(was.iram, 0, plan.program)
    && dpu.Holds(plan.toMram)
    && 32 <= plan.saved <= |was.wram| == |dpu.wram| && dpu.wram[plan.saved..] == was.wram[plan.saved..]
  }

  lemma TailKept(w: seq<byte>, v: seq<byte>, from: nat, saved: nat)
    requires |w| == |v| && from <= saved <= |w| && w[from..] == v[from..]
    ensures w[saved..] == v[saved..]
  {
    assert w[saved..] == w[from..][saved - from..];
  }

  lemma TransferredSides(toMram: bool, mram: seq<byte>, oldMram: seq<byte>, buffer: seq<byte>, oldBuffer: seq<byte>,
                         base: nat, offset: nat, done: nat)
    requires Transferred(toMram, mram, oldMram, buffer, oldBuffer, base, offset, done)
    ensures |mram| == |oldMram| && |buffer| == |oldBuffer|
    ensures if toMram then buffer == oldBuffer else mram == oldMram
  {
  }

  /** One more chunk, at the current position. */
  method NextChunk(dpu: Dpu, buffer: array<byte>, words: nat, resume: bool, markLast: bool,
                   ghost was: Snapshot, plan: Plan, done: nat)
    returns (status: Status)
    requires Between(dpu, buffer, was, plan, done)
    requires dpu.Moves(resume, plan.toMram, plan.offset + done, 4 * words)
    requires 32 + 4 * words <= plan.saved && done + 4 * words <= plan.size
    modifies dpu`mram, dpu`wram, dpu`cursor, dpu`waiting, dpu`moves, dpu`trouble, buffer
    ensures dpu.trouble == Noted(old(dpu.trouble), status) && (dpu.enabled ==> status != Disabled)
    ensures SameOutside(dpu.mram, was.mram, plan.offset, plan.size) && |dpu.wram| == |old(dpu.wram)|
    ensures if plan.toMram then buffer[..] == was.buffer else dpu.mram == was.mram
    ensures status == Ok ==>
      && Between(dpu, buffer, was, plan, done + 4 * words)
      && dpu.cursor == plan.offset + done + 4 * words
      && ContextWord(dpu.wram, CONTEXT_SIZE) == ContextWord(old(dpu.wram), CONTEXT_SIZE)
      && dpu.waiting == (!markLast && ContextWord(old(dpu.wram), CONTEXT_LAST) == 0)
      && ContextWord(dpu.wram, CONTEXT_LAST)
         == (if markLast then 1 else ContextWord(old(dpu.wram), CONTEXT_LAST))
      && dpu.moves == old(dpu.moves) + [Move(resume, plan.offset + done, 4 * words, !dpu.waiting)]
  {
    hide Splice, WithChunk, Transferred, Patched, ContextWord;
    ghost var wram, mram, start := dpu.wram, dpu.mram, buffer[..];
    var at := plan.base + done;
    TransferredMore(plan.toMram, mram, was.mram, start, was.buffer, plan.base, plan.offset, done, 4 * words);
    TransferredOutside(plan.toMram, mram, was.mram, start, was.buffer, plan.base, plan.offset, done, plan.size);
    TransferredSides(plan.toMram, mram, was.mram, start, was.buffer, plan.base, plan.offset, done);
    status := MoveChunk(dpu, plan.toMram, buffer, at, words, resume, markLast, plan.offset + done);
    if status == Ok {
      ghost var data := if plan.toMram then buffer[at..at + 4 * words]
                        else dpu.mram[plan.offset + done..plan.offset + done + 4 * words];
      WithChunkKeeps(wram, data, markLast);
      TailKept(dpu.wram, wram, 32 + 4 * words, plan.saved);
    }
  }

  function Times(n: nat, chunk: nat): nat {
    n * chunk
  }

  // The whole chunks of a transfer, and what remains.
  method Divide(size: nat, chunk: nat) returns (nrCompleteIterations: nat, remaining: nat)
    requires chunk > 0
    ensures size == Times(nrCompleteIterations, chunk) + remaining && remaining < chunk
    ensures chunk <= size ==> nrCompleteIterations >= 1
    ensures size == chunk ==> nrCompleteIterations == 1 && remaining == 0
  {
    nrCompleteIterations := size / chunk;
    remaining := size % chunk;
    assert size == chunk * nrCompleteIterations + remaining;
    WholeChunks(size, chunk, nrCompleteIterations, remaining);
  }

  lemma WholeChunks(size: nat, chunk: nat, q: nat, r: nat)
    requires size == chunk * q + r && r < chunk
    ensures chunk <= size ==> q >= 1
    ensures size == chunk ==> q == 1 && r == 0
  {
    if q >= 2 {
      assert chunk * q == chunk * 2 + chunk * (q - 2);
    }
  }

  lemma OneChunkOf(n: nat, chunk: nat)
    requires n >= 1
    ensures Times(n, chunk) == chunk + Times(n - 1, chunk)
    ensures Times(0, chunk) == 0
  {
  }

  // The words of WRAM that a transfer uses and has to put back.
  function SavedWords(size: nat, wramSize: nat): nat {
    if size / 4 + PROGRAM_CONTEXT_WRAM_SIZE >= wramSize then wramSize else size / 4 + PROGRAM_CONTEXT_WRAM_SIZE
  }

  lemma SavedWordsFit(size: nat, wramSize: nat)
    requires InBlocks(size) && size > 0 && wramSize % 2 == 0 && wramSize > PROGRAM_CONTEXT_WRAM_SIZE
    ensures PROGRAM_CONTEXT_WRAM_SIZE < SavedWords(size, wramSize) <= wramSize
    ensures var words := SavedWords(size, wramSize) - PROGRAM_CONTEXT_WRAM_SIZE; words % 2 == 0 && 4 * words <= size
  {
  }

  // What the host may rely on after a transfer, whatever its status.
  ghost predicate Harmless(dpu: Dpu, buffer: array<byte>, was: Snapshot, plan: Plan)
    reads dpu, buffer
  {
    && SameOutside(dpu.mram, was.mram, plan.offset, plan.size)
    && if plan.toMram then buffer[..] == was.buffer else dpu.mram == was.mram
  }

  // What it may rely on after a successful one.
  ghost predicate Complete(dpu: Dpu, buffer: array<byte>, was: Snapshot, toMram: bool, base: nat, offset: nat,
                           size: nat)
    requires base + size <= |was.buffer| && offset + size <= |was.mram|
    reads dpu, buffer
  {
    && dpu.iram == was.iram
    && dpu.wram == was.wram
    && dpu.mram == (if toMram then Splice(was.mram, offset, was.buffer[base..base + size]) else was.mram)
    && buffer[..] == (if toMram then was.buffer else Splice(was.buffer, base, was.mram[offset..offset + size]))
  }

  // The program as fetched, with its DMA instructions patched in either direction or not at all.
  ghost predicate IsAccessProgram(program: seq<Instruction>, dpu: Dpu) {
    && |program| == |dpu.accessProgram| > DMA_ACCESS_IDX_2
    && forall i :: 0 <= i < |program| && i != DMA_ACCESS_IDX_1 && i != DMA_ACCESS_IDX_2 ==>
         program[i] == dpu.accessProgram[i]
  }

  lemma PatchedProgram(program: seq<Instruction>, fetched: seq<Instruction>, dpu: Dpu, toMram: bool)
    requires IsAccessProgram(fetched, dpu)
    requires program
          == fetched[DMA_ACCESS_IDX_1 := if toMram then Sdma(DMA_ACCESS_LENGTH_1) else Ldma(DMA_ACCESS_LENGTH_1)]
                    [DMA_ACCESS_IDX_2 := if toMram then Sdma(DMA_ACCESS_LENGTH_2) else Ldma(DMA_ACCESS_LENGTH_2)]
    ensures program == Patched(dpu.accessProgram, toMram) && IsAccessProgram(program, dpu)
  {
    assert program == Patched(dpu.accessProgram, toMram);
  }

  // Setting the DMA instructions of the program to the direction of the transfer.
  method PatchProgram(dpu: Dpu, program: array<Instruction>, toMram: bool)
    requires IsAccessProgram(program[..], dpu)
    modifies program
    ensures program[..] == Patched(dpu.accessProgram, toMram) && IsAccessProgram(program[..], dpu)
  {
    hide Patched;
    program[DMA_ACCESS_IDX_1] := if toMram then Sdma(DMA_ACCESS_LENGTH_1) else Ldma(DMA_ACCESS_LENGTH_1);
    program[DMA_ACCESS_IDX_2] := if toMram then Sdma(DMA_ACCESS_LENGTH_2) else Ldma(DMA_ACCESS_LENGTH_2);
    PatchedProgram(program[..], old(program[..]), dpu, toMram);
  }

  // Saving IRAM and WRAM, loading the program and its context.
  method SetUp(dpu: Dpu, program: seq<Instruction>, savedWords: nat, offset: nat, chunk: nat, marker: nat)
    returns (ok: bool, iramSave: seq<Instruction>, wramSave: seq<byte>)
    requires |program| <= |dpu.iram| && 32 <= 4 * savedWords <= |dpu.wram|
    requires offset < U32 && chunk < U32 && marker < U32
    modifies dpu`iram, dpu`wram, dpu`trouble
    ensures |dpu.iram| == |old(dpu.iram)| && |dpu.wram| == |old(dpu.wram)|
    ensures dpu.trouble == if ok then old(dpu.trouble) else Failed
    ensures ok ==>
      && iramSave == old(dpu.iram)[..|program|]
      && wramSave == old(dpu.wram)[..4 * savedWords]
      && dpu.iram == Splice(old(dpu.iram), 0, program)
      && dpu.wram == WithContext(old(dpu.wram), offset, chunk, marker)
  {
    hide Splice, Word;
    wramSave := [];
    ok, iramSave := dpu.CopyFromIram(|program|);
    if ok {
      ok, wramSave := dpu.CopyFromWram(0, savedWords);
    }
    if ok {
      ok := dpu.CopyToIram(program);
    }
    if ok {
      ok := dpu.CopyToWram(CONTEXT_OFFSET, Word(offset) + Word(chunk) + Word(marker));
    }
  }

  // Restoring IRAM, WRAM and the context.
  method PutBack(dpu: Dpu, iramSave: seq<Instruction>, wramSave: seq<byte>, ghost was: Snapshot,
                 ghost program: seq<Instruction>)
    returns (ok: bool)
    requires |program| <= |was.iram| && iramSave == was.iram[..|program|]
    requires dpu.iram == Splice(was.iram, 0, program)
    requires |wramSave| <= |dpu.wram| == |was.wram| && wramSave == was.wram[..|wramSave|]
    requires dpu.wram[|wramSave|..] == was.wram[|wramSave|..]
    modifies dpu`iram, dpu`wram, dpu`trouble
    ensures |dpu.iram| == |old(dpu.iram)| && |dpu.wram| == |old(dpu.wram)|
    ensures dpu.trouble == if ok then old(dpu.trouble) else Failed
    ensures ok ==> dpu.iram == was.iram && dpu.wram == was.wram
  {
    ok := dpu.CopyToIram(iramSave);
    if ok {
      assert dpu.iram == was.iram;
      ok := dpu.CopyToWram(0, wramSave);
      assert ok ==> dpu.wram == was.wram[..|wramSave|] + was.wram[|wramSave|..] == was.wram;
    }
    if ok {
      ok := dpu.ExchangeContext();
    }
  }

  lemma NothingMoved(toMram: bool, mram: seq<byte>, buffer: seq<byte>, base: nat, offset: nat)
    requires base <= |buffer| && offset <= |mram|
    ensures Transferred(toMram, mram, mram, buffer, buffer, base, offset, 0)
  {
    assert Splice(mram, offset, []) == mram && Splice(buffer, base, []) == buffer;
    assert buffer[base..base] == [] && mram[offset..offset] == [];
  }

  // The DPU is set for the next chunk.
  lemma SetForNext(dpu: Dpu, buffer: array<byte>, was: Snapshot, plan: Plan, done: nat, words: nat, resume: bool)
    requires Between(dpu, buffer, was, plan, done)
    requires words % 2 == 0 && InBlocks(plan.offset + done)
    requires 32 + 4 * words <= plan.saved && done + 4 * words <= plan.size
    requires ContextWord(dpu.wram, CONTEXT_SIZE) == 4 * words
    requires if resume then dpu.waiting && dpu.cursor == plan.offset + done
             else done == 0 && ContextWord(dpu.wram, CONTEXT_OFFSET) == plan.offset
    ensures dpu.Moves(resume, plan.toMram, plan.offset + done, 4 * words)
  {
    hide Splice, Transferred, ContextWord, Patched, Dpu.Holds;
    InBlocksWords(words);
  }

  /** Moves of the bytes between two addresses in order, each starting where the one before it stopped;
      the first starts the program, the others resume it, and none but the final one can be the last. */
  predicate Streamed(moves: seq<Move>, from: nat, to: nat, ended: bool)
    decreases |moves|
  {
    moves != [] &&
    var (before, move) := (moves[..|moves| - 1], moves[|moves| - 1]);
    && move.n > 0 && move.at + move.n == to && move.last == ended
    && if before == [] then move.at == from && !move.resume else move.resume && Streamed(before, from, move.at, false)
  }

  // Of what the program has moved, what it moved after some earlier moves.
  predicate StreamedSince(moves: seq<Move>, earlier: seq<Move>, from: nat, to: nat, ended: bool) {
    earlier <= moves && Streamed(moves[|earlier|..], from, to, ended)
  }

  lemma StreamedOne(earlier: seq<Move>, move: Move)
    requires move.n > 0 && !move.resume
    ensures StreamedSince(earlier + [move], earlier, move.at, move.at + move.n, move.last)
  {
    assert (earlier + [move])[|earlier|..] == [move];
  }

  lemma StreamedMore(moves: seq<Move>, earlier: seq<Move>, from: nat, to: nat, move: Move)
    requires StreamedSince(moves, earlier, from, to, false)
    requires move.at == to && move.n > 0 && move.resume
    ensures StreamedSince(moves + [move], earlier, from, to + move.n, move.last)
  {
    var recent := moves[|earlier|..];
    assert (moves + [move])[|earlier|..] == recent + [move];
    assert (recent + [move])[..|recent|] == recent;
  }

  // Some chunks have been moved, and the program waits for the next or has ended.
  ghost predicate Underway(dpu: Dpu, buffer: array<byte>, was: Snapshot, plan: Plan, done: nat, chunk: nat)
    reads dpu, buffer
  {
    && Between(dpu, buffer, was, plan, done)
    && dpu.cursor == plan.offset + done && InBlocks(dpu.cursor)
    && |dpu.wram| >= 32 && ContextWord(dpu.wram, CONTEXT_SIZE) == chunk
    && (dpu.waiting ==> ContextWord(dpu.wram, CONTEXT_LAST) == 0)
  }

  // The chunk that starts the program.
  method FirstChunk(dpu: Dpu, buffer: array<byte>, words: nat, ghost was: Snapshot, plan: Plan)
    returns (status: Status)
    requires Between(dpu, buffer, was, plan, 0) && InBlocks(plan.offset)
    requires words > 0 && words % 2 == 0 && 32 + 4 * words <= plan.saved && 4 * words <= plan.size
    requires ContextWord(dpu.wram, CONTEXT_OFFSET) == plan.offset && ContextWord(dpu.wram, CONTEXT_SIZE) == 4 * words
    modifies dpu`mram, dpu`wram, dpu`cursor, dpu`waiting, dpu`moves, dpu`trouble, buffer
    ensures dpu.trouble == Noted(old(dpu.trouble), status) && (dpu.enabled ==> status != Disabled)
    ensures Harmless(dpu, buffer, was, plan) && |dpu.wram| == |old(dpu.wram)|
    ensures status == Ok ==>
      && Underway(dpu, buffer, was, plan, 4 * words, 4 * words)
      && dpu.waiting == (ContextWord(old(dpu.wram), CONTEXT_LAST) == 0)
      && dpu.moves == old(dpu.moves) + [Move(false, plan.offset, 4 * words, !dpu.waiting)]
  {
    hide Splice, Transferred, ContextWord, Patched, Between, Dpu.Moves, SameOutside, InBlocks;
    InBlocksWords(words);
    InBlocksSum(plan.offset, 4 * words);
    SetForNext(dpu, buffer, was, plan, 0, words, false);
    BetweenLengths(dpu, buffer, was, plan, 0);
    status := NextChunk(dpu, buffer, words, false, false, was, plan, 0);
  }

  // A chunk like those before it, which resumes the program.
  method FollowingChunk(dpu: Dpu, buffer: array<byte>, words: nat, last: bool, ghost was: Snapshot, plan: Plan,
                        done: nat)
    returns (status: Status)
    requires Underway(dpu, buffer, was, plan, done, 4 * words) && dpu.waiting
    requires words > 0 && words % 2 == 0 && 32 + 4 * words <= plan.saved && done + 4 * words <= plan.size
    modifies dpu`mram, dpu`wram, dpu`cursor, dpu`waiting, dpu`moves, dpu`trouble, buffer
    ensures dpu.trouble == Noted(old(dpu.trouble), status) && (dpu.enabled ==> status != Disabled)
    ensures Harmless(dpu, buffer, was, plan) && |dpu.wram| == |old(dpu.wram)|
    ensures status == Ok ==>
      && Underway(dpu, buffer, was, plan, done + 4 * words, 4 * words)
      && dpu.waiting == !last
      && dpu.moves == old(dpu.moves) + [Move(true, plan.offset + done, 4 * words, last)]
  {
    hide Splice, Transferred, ContextWord, Patched, Between, Dpu.Moves, SameOutside, InBlocks;
    InBlocksWords(words);
    InBlocksSum(plan.offset + done, 4 * words);
    SetForNext(dpu, buffer, was, plan, done, words, true);
    status := NextChunk(dpu, buffer, words, true, last, was, plan, done);
  }

  // The chunk that ends a transfer whose size is not a multiple of the chunk size.
  method ShortChunk(dpu: Dpu, buffer: array<byte>, chunk: nat, remaining: nat, ghost was: Snapshot, plan: Plan,
                    done: nat)
    returns (status: Status)
    requires Underway(dpu, buffer, was, plan, done, chunk) && dpu.waiting
    requires InBlocks(remaining) && 0 < remaining < U32
    requires 32 + remaining <= plan.saved && done + remaining == plan.size
    modifies dpu`mram, dpu`wram, dpu`cursor, dpu`waiting, dpu`moves, dpu`trouble, buffer
    ensures dpu.trouble == Noted(old(dpu.trouble), status) && (dpu.enabled ==> status != Disabled)
    ensures Harmless(dpu, buffer, was, plan) && |dpu.wram| == |old(dpu.wram)|
    ensures status == Ok ==>
      && Underway(dpu, buffer, was, plan, plan.size, remaining)
      && !dpu.waiting
      && dpu.moves == old(dpu.moves) + [Move(true, plan.offset + done, remaining, true)]
  {
    hide Splice, Transferred, ContextWord, Word, Patched, InBlocks;
    ghost var wram := dpu.wram;
    WordsOf(remaining);
    BetweenSides(dpu, buffer, was, plan, done);
    var ok := dpu.CopyToWram(CONTEXT_SIZE, Word(remaining) + Word(1));
    if !ok {
      return DriverError;
    }
    SizeRewritten(wram, remaining, 1);
    TailKept(dpu.wram, wram, 32, plan.saved);
    InBlocksSum(plan.offset + done, remaining);
    status := NextChunk(dpu, buffer, remaining / 4, true, false, was, plan, done);
  }

  lemma BetweenLengths(dpu: Dpu, buffer: array<byte>, was: Snapshot, plan: Plan, done: nat)
    requires Between(dpu, buffer, was, plan, done)
    ensures |dpu.wram| == |was.wram| >= 32
  {
  }

  lemma BetweenHarmless(dpu: Dpu, buffer: array<byte>, was: Snapshot, plan: Plan, done: nat)
    requires Between(dpu, buffer, was, plan, done)
    ensures Harmless(dpu, buffer, was, plan)
  {
    BetweenSides(dpu, buffer, was, plan, done);
  }

  /** All the chunks: the first with the program's start, the others with its being resumed, the last
      one shorter when the size is not a multiple of the chunk. */
  method MoveChunks(dpu: Dpu, buffer: array<byte>, transferSize: nat, nrCompleteIterations: nat, remaining: nat,
                    ghost was: Snapshot, plan: Plan)
    returns (status: Status)
    requires Between(dpu, buffer, was, plan, 0) && |dpu.wram| >= 32
    requires transferSize % 2 == 0 && 32 + 4 * transferSize == plan.saved
    requires nrCompleteIterations >= 1 && remaining < 4 * transferSize < U32
    requires plan.size == Times(nrCompleteIterations, 4 * transferSize) + remaining
    requires InBlocks(plan.size) && InBlocks(plan.offset)
    requires ContextWord(dpu.wram, CONTEXT_OFFSET) == plan.offset
    requires ContextWord(dpu.wram, CONTEXT_SIZE) == 4 * transferSize
    requires ContextWord(dpu.wram, CONTEXT_LAST) == if nrCompleteIterations == 1 && remaining == 0 then 1 else 0
    modifies dpu`mram, dpu`wram, dpu`cursor, dpu`waiting, dpu`moves, dpu`trouble, buffer
    ensures dpu.trouble == Noted(old(dpu.trouble), status) && (dpu.enabled ==> status != Disabled)
    ensures Harmless(dpu, buffer, was, plan) && |dpu.wram| == |old(dpu.wram)|
    ensures status == Ok ==>
      && Between(dpu, buffer, was, plan, plan.size)
      && !dpu.waiting && dpu.cursor == plan.offset + plan.size
      && StreamedSince(dpu.moves, old(dpu.moves), plan.offset, plan.offset + plan.size, true)
  {
    hide StreamedSince, Splice, Transferred, ContextWord, Times, Between, InBlocks;
    ghost var earlier := dpu.moves;
    var chunk := 4 * transferSize;
    InBlocksSum(plan.offset, plan.size);
    OneChunkOf(nrCompleteIterations, chunk);
    status := FirstChunk(dpu, buffer, transferSize, was, plan);
    if status != Ok {
      return;
    }
    StreamedOne(earlier, Move(false, plan.offset, chunk, !dpu.waiting));
    var ptrOffset: nat := chunk;
    var eachIteration := 1;
    while eachIteration < nrCompleteIterations
      invariant 1 <= eachIteration <= nrCompleteIterations
      invariant Underway(dpu, buffer, was, plan, ptrOffset, chunk) && |dpu.wram| == |old(dpu.wram)|
      invariant dpu.trouble == old(dpu.trouble)
      invariant StreamedSince(dpu.moves, earlier, plan.offset, plan.offset + ptrOffset, !dpu.waiting)
      invariant ptrOffset + Times(nrCompleteIterations - eachIteration, chunk) + remaining == plan.size
      invariant dpu.waiting == (eachIteration < nrCompleteIterations || remaining > 0)
    {
      OneChunkOf(nrCompleteIterations - eachIteration, chunk);
      var last := eachIteration == nrCompleteIterations - 1 && remaining == 0;
      ghost var sofar := dpu.moves;
      status := FollowingChunk(dpu, buffer, transferSize, last, was, plan, ptrOffset);
      if status != Ok {
        return;
      }
      StreamedMore(sofar, earlier, plan.offset, plan.offset + ptrOffset,
                   Move(true, plan.offset + ptrOffset, chunk, last));
      ptrOffset := ptrOffset + chunk;
      eachIteration := eachIteration + 1;
    }
    InBlocksSum(plan.offset + ptrOffset, remaining);
    if remaining > 0 {
      if nrCompleteIterations > 0 {
        ghost var sofar := dpu.moves;
        status := ShortChunk(dpu, buffer, chunk, remaining, was, plan, ptrOffset);
        if status != Ok {
          return;
        }
        StreamedMore(sofar, earlier, plan.offset, plan.offset + ptrOffset,
                     Move(true, plan.offset + ptrOffset, remaining, true));
        ptrOffset := ptrOffset + remaining;
      }
    }
    BetweenHarmless(dpu, buffer, was, plan, ptrOffset);
    status := Ok;
  }

  /** access_mram_using_dpu_program_individual. Its preconditions are those listed in its comment, and
      what it takes for granted about the DPU's memories. */
  method Access(dpu: Dpu, toMram: bool, program: array<Instruction>, wramSize: nat,
                buffer: array<byte>, base: nat, offset: nat, size: nat)
    returns (status: Status)
    requires InBlocks(size) && InBlocks(offset)
    requires offset + size <= |dpu.mram| < U32 && base + size <= buffer.Length
    requires |dpu.wram| == 4 * wramSize < U32 && wramSize % 2 == 0 && wramSize > PROGRAM_CONTEXT_WRAM_SIZE
    requires IsAccessProgram(program[..], dpu) && program.Length <= |dpu.iram|
    modifies dpu`mram, dpu`wram, dpu`iram, dpu`cursor, dpu`waiting, dpu`moves, dpu`trouble, buffer, program
    ensures dpu.trouble == Noted(old(dpu.trouble), status) && (dpu.enabled ==> status != Disabled)
    ensures IsAccessProgram(program[..], dpu) && |dpu.wram| == |old(dpu.wram)| && |dpu.iram| == |old(dpu.iram)|
    ensures Harmless(dpu, buffer, Snapshot(old(dpu.mram), old(dpu.wram), old(dpu.iram), old(buffer[..])),
                     Plan(toMram, [], base, offset, size, 0))
    ensures !dpu.enabled ==> status == Disabled
    ensures status == Ok ==>
      Complete(dpu, buffer, Snapshot(old(dpu.mram), old(dpu.wram), old(dpu.iram), old(buffer[..])),
               toMram, base, offset, size)
    ensures status == Ok && size > 0 ==>
      && !dpu.waiting && dpu.cursor == offset + size
      && StreamedSince(dpu.moves, old(dpu.moves), offset, offset + size, true)
  {
    hide Splice, Transferred, ContextWord, WithContext, Word, Times, InBlocks, SavedWords, StreamedSince;
    ghost var was := Snapshot(dpu.mram, dpu.wram, dpu.iram, buffer[..]);
    NothingMoved(toMram, was.mram, was.buffer, base, offset);
    if !dpu.enabled {
      return Disabled;
    }
    if size == 0 {
      CompleteWhenTransferred(toMram, was.mram, was.mram, was.buffer, was.buffer, base, offset, 0);
      return Ok;
    }

    PatchProgram(dpu, program, toMram);

    SavedWordsFit(size, wramSize);
    var wramSaveSize := SavedWords(size, wramSize);
    var ok := dpu.ExchangeContext();
    if !ok {
      return DriverError;
    }
    var transferSize := wramSaveSize - PROGRAM_CONTEXT_WRAM_SIZE;
    var chunk := 4 * transferSize;
    var nrCompleteIterations, remaining := Divide(size, chunk);
    var marker := if nrCompleteIterations == 0 || (nrCompleteIterations == 1 && remaining == 0) then 1 else 0;
    var iramSave, wramSave;
    ok, iramSave, wramSave := SetUp(dpu, program[..], wramSaveSize, offset, chunk, marker);
    if !ok {
      return DriverError;
    }
    ContextWritten(was.wram, offset, chunk, marker);
    TailKept(dpu.wram, was.wram, 32, 4 * wramSaveSize);
    LoadedProgram(dpu, was.iram, program[..], toMram);
    var plan := Plan(toMram, program[..], base, offset, size, 4 * wramSaveSize);

    status := MoveChunks(dpu, buffer, transferSize, nrCompleteIterations, remaining, was, plan);
    if status != Ok {
      return;
    }
    CompleteWhenTransferred(toMram, dpu.mram, was.mram, buffer[..], was.buffer, base, offset, size);
    ok := PutBack(dpu, iramSave, wramSave, was, plan.program);
    status := if ok then Ok else DriverError;
  }

  lemma LoadedProgram(dpu: Dpu, iram: seq<Instruction>, program: seq<Instruction>, toMram: bool)
    requires |program| <= |iram| && dpu.iram == Splice(iram, 0, program)
    requires |dpu.accessProgram| > DMA_ACCESS_IDX_2 && program == Patched(dpu.accessProgram, toMram)
    ensures dpu.Holds(toMram)
  {
    assert dpu.iram[..|program|] == program;
  }

  lemma CompleteWhenTransferred(toMram: bool, mram: seq<byte>, oldMram: seq<byte>, buffer: seq<byte>,
                                oldBuffer: seq<byte>, base: nat, offset: nat, size: nat)
    requires Transferred(toMram, mram, oldMram, buffer, oldBuffer, base, offset, size)
    ensures mram == (if toMram then Splice(oldMram, offset, oldBuffer[base..base + size]) else oldMram)
    ensures buffer == (if toMram then oldBuffer else Splice(oldBuffer, base, oldMram[offset..offset + size]))
  {
  }

  lemma BetweenSides(dpu: Dpu, buffer: array<byte>, was: Snapshot, plan: Plan, done: nat)
    requires Transferred(plan.toMram, dpu.mram, was.mram, buffer[..], was.buffer, plan.base, plan.offset, done)
    requires done <= plan.size
    ensures Harmless(dpu, buffer, was, plan)
  {
  }

  // ----- transfers of any alignment, for one DPU of the matrix

  // How far into its block a range starts, and how far into the next the last block would go on.
  function Skip(offset: nat): (n: nat)
    ensures n < 8 && n <= offset
  {
    offset % 8
  }

  function TailSkip(offset: nat, size: nat): nat {
    (size + Skip(offset)) % 8
  }

  function AlignedSize(offset: nat, size: nat): nat {
    (size + Skip(offset) + 7) / 8 * 8
  }

  lemma AlignedBlocks(offset: nat, size: nat, limit: nat)
    requires offset + size <= limit && InBlocks(limit)
    ensures var start, aligned := offset - Skip(offset), AlignedSize(offset, size);
      && InBlocks(start) && InBlocks(aligned)
      && Skip(offset) + size <= aligned < Skip(offset) + size + 8
      && start + aligned <= limit
      && (TailSkip(offset, size) == 0 ==> aligned == Skip(offset) + size)
      && (Skip(offset) + size > 0 ==> aligned >= 8)
    ensures Skip(offset) == 0 <==> InBlocks(offset)
  {
    BlocksOf(Skip(offset) + size);
    var start, aligned := offset - Skip(offset), AlignedSize(offset, size);
    assert InBlocks(start);
    hide AlignedSize, Skip, TailSkip, InBlocks;
    UpTo(start, aligned, Skip(offset) + size, limit);
  }

  // A size rounded up to blocks.
  lemma BlocksOf(n: nat)
    ensures InBlocks((n + 7) / 8 * 8) && n <= (n + 7) / 8 * 8 < n + 8
    ensures n % 8 == 0 ==> (n + 7) / 8 * 8 == n
    ensures n > 0 ==> (n + 7) / 8 * 8 >= 8
  {
  }

  // Whole blocks that begin below a block boundary end at most there.
  lemma UpTo(start: nat, aligned: nat, n: nat, limit: nat)
    requires InBlocks(start) && InBlocks(aligned) && InBlocks(limit)
    requires start + n <= limit && aligned < n + 8
    ensures start + aligned <= limit
  {
    InBlocksSum(start, aligned);
    var p, q := (start + aligned) / 8, limit / 8;
    assert start + aligned == 8 * p && limit == 8 * q;
  }

  // What any transfer takes for granted: the memories' sizes, and a fetched program.
  ghost predicate Accessible(dpu: Dpu, program: array<Instruction>, wramSize: nat)
    reads dpu, program
  {
    && InBlocks(|dpu.mram|) && |dpu.mram| < U32
    && |dpu.wram| == 4 * wramSize < U32 && wramSize % 2 == 0 && wramSize > PROGRAM_CONTEXT_WRAM_SIZE
    && IsAccessProgram(program[..], dpu) && program.Length <= |dpu.iram|
  }

  /** copy_from_mrams_using_dpu_program: a read of any offset, size and buffer alignment delivers
      exactly the bytes asked for. */
  method CopyFromMram(dpu: Dpu, program: array<Instruction>, wramSize: nat,
                      ptr: array<byte>, ptrIsAligned: bool, offset: nat, size: nat)
    returns (status: Status)
    requires Accessible(dpu, program, wramSize)
    requires offset + size <= |dpu.mram| && size <= ptr.Length
    modifies dpu`mram, dpu`wram, dpu`iram, dpu`cursor, dpu`waiting, dpu`moves, dpu`trouble, ptr, program
    ensures dpu.trouble == Noted(old(dpu.trouble), status) && (dpu.enabled ==> status != Disabled)
    ensures dpu.mram == old(dpu.mram)
    ensures status == Ok && dpu.enabled ==>
      && ptr[..] == Splice(old(ptr[..]), 0, dpu.mram[offset..offset + size])
      && dpu.wram == old(dpu.wram) && dpu.iram == old(dpu.iram)
    ensures !dpu.enabled ==> status == Ok && ptr[..] == old(ptr[..])
  {
    hide Patched, Word, FromWord, Splice, AlignedSize, Skip, TailSkip, InBlocks;
    if !dpu.enabled {
      return Ok;
    }
    if !ptrIsAligned || !InBlocks(offset) || !InBlocks(size) {
      status := ReadBlocks(dpu, program, wramSize, ptr, offset, size);
    } else {
      status := Access(dpu, false, program, wramSize, ptr, 0, offset, size);
    }
  }

  // Reading the blocks around a range, and copying the range out of them.
  method ReadBlocks(dpu: Dpu, program: array<Instruction>, wramSize: nat, ptr: array<byte>, offset: nat, size: nat)
    returns (status: Status)
    requires Accessible(dpu, program, wramSize) && dpu.enabled
    requires offset + size <= |dpu.mram| && size <= ptr.Length
    modifies dpu`mram, dpu`wram, dpu`iram, dpu`cursor, dpu`waiting, dpu`moves, dpu`trouble, ptr, program
    ensures dpu.trouble == Noted(old(dpu.trouble), status) && (dpu.enabled ==> status != Disabled)
    ensures dpu.mram == old(dpu.mram)
    ensures status == Ok ==>
      && ptr[..] == Splice(old(ptr[..]), 0, dpu.mram[offset..offset + size])
      && dpu.wram == old(dpu.wram) && dpu.iram == old(dpu.iram)
  {
    hide Patched, Word, FromWord, Splice, AlignedSize, Skip, TailSkip, InBlocks;
    var alignedSize := AlignedSize(offset, size);
    AlignedBlocks(offset, size, |dpu.mram|);
    var start := offset - Skip(offset);
    var mramBuffer := new byte[alignedSize];
    ghost var uninitialised := mramBuffer[..];
    status := Access(dpu, false, program, wramSize, mramBuffer, 0, start, alignedSize);
    if status == Ok {
      SpliceInside(uninitialised, 0, dpu.mram[start..start + alignedSize]);
      RequestedPart(dpu.mram, mramBuffer[..], start, Skip(offset), size);
      CopyInto(ptr, 0, mramBuffer[Skip(offset)..Skip(offset) + size]);
    }
  }

  lemma RequestedPart(mram: seq<byte>, buffer: seq<byte>, start: nat, skip: nat, size: nat)
    requires start + |buffer| <= |mram| && skip + size <= |buffer|
    requires buffer[0..|buffer|] == mram[start..start + |buffer|]
    ensures buffer[skip..skip + size] == mram[start + skip..start + skip + size]
  {
    assert buffer[skip..skip + size] == buffer[0..|buffer|][skip..skip + size];
    var part, whole := mram[start..start + |buffer|], mram[start + skip..start + skip + size];
    assert |part[skip..skip + size]| == |whole|;
    assert forall i :: 0 <= i < size ==>
      part[skip..skip + size][i] == part[skip + i] == mram[start + skip + i] == whole[i];
  }

  /** copy_to_mrams_using_dpu_program: the data arrive and nothing changes outside the blocks of the
      range. Of these, the fetched ones are written back with the data merged in, so that the write
      changes exactly the range when the bytes around it were fetched; they are when the start or the
      end of the range is aligned. */
  method CopyToMram(dpu: Dpu, program: array<Instruction>, wramSize: nat,
                    ptr: array<byte>, ptrIsAligned: bool, offset: nat, size: nat)
    returns (status: Status, ghost fetched: seq<byte>)
    requires Accessible(dpu, program, wramSize)
    requires offset + size <= |dpu.mram| && size <= ptr.Length
    modifies dpu`mram, dpu`wram, dpu`iram, dpu`cursor, dpu`waiting, dpu`moves, dpu`trouble, ptr, program
    ensures dpu.trouble == Noted(old(dpu.trouble), status) && (dpu.enabled ==> status != Disabled)
    ensures ptr[..] == old(ptr[..])
    ensures SameOutside(dpu.mram, old(dpu.mram), offset - Skip(offset), AlignedSize(offset, size))
    ensures status == Ok && dpu.enabled ==>
      && EndsFetched(old(dpu.mram), fetched, offset, size)
      && Merged(dpu.mram, old(dpu.mram), fetched, ptr[..size], offset)
      && (InBlocks(offset) || InBlocks(offset + size) ==> dpu.mram == Splice(old(dpu.mram), offset, ptr[..size]))
      && dpu.wram == old(dpu.wram) && dpu.iram == old(dpu.iram)
    ensures !dpu.enabled ==> status == Ok && dpu.mram == old(dpu.mram)
  {
    hide Patched, Word, FromWord, Splice, AlignedSize, EndsFetched, Merged, Skip, TailSkip, InBlocks;
    fetched := [];
    if !dpu.enabled {
      return Ok, fetched;
    }
    ghost var mram := dpu.mram;
    if !ptrIsAligned || !InBlocks(offset) || !InBlocks(size) {
      status, fetched := WriteBlocks(dpu, program, wramSize, ptr, offset, size);
    } else {
      AlignedAlready(offset, size);
      fetched := mram[offset..offset + size];
      status := Access(dpu, true, program, wramSize, ptr, 0, offset, size);
      assert ptr[..][0..size] == ptr[..size];
      MergedWhole(mram, ptr[..size], offset);
    }
    if status == Ok && (InBlocks(offset) || InBlocks(offset + size)) {
      MergedBlocks(mram, fetched, ptr[..size], offset, dpu.mram);
    }
  }

  // The MRAM after the blocks around the range, as fetched, were written back with the data in them.
  ghost predicate Merged(mram: seq<byte>, oldMram: seq<byte>, fetched: seq<byte>, data: seq<byte>, offset: nat) {
    && |fetched| == AlignedSize(offset, |data|) && Skip(offset) + |data| <= |fetched|
    && offset - Skip(offset) + |fetched| <= |oldMram|
    && mram == Splice(oldMram, offset - Skip(offset), Splice(fetched, Skip(offset), data))
  }

  // Fetching the blocks at the ends of a range, merging the data in and writing the blocks back.
  method WriteBlocks(dpu: Dpu, program: array<Instruction>, wramSize: nat, ptr: array<byte>, offset: nat, size: nat)
    returns (status: Status, ghost fetched: seq<byte>)
    requires Accessible(dpu, program, wramSize) && dpu.enabled
    requires offset + size <= |dpu.mram| && size <= ptr.Length
    modifies dpu`mram, dpu`wram, dpu`iram, dpu`cursor, dpu`waiting, dpu`moves, dpu`trouble, program
    ensures dpu.trouble == Noted(old(dpu.trouble), status) && (dpu.enabled ==> status != Disabled)
    ensures SameOutside(dpu.mram, old(dpu.mram), offset - Skip(offset), AlignedSize(offset, size))
    ensures status == Ok ==>
      && EndsFetched(old(dpu.mram), fetched, offset, size)
      && Merged(dpu.mram, old(dpu.mram), fetched, ptr[..size], offset)
      && dpu.wram == old(dpu.wram) && dpu.iram == old(dpu.iram)
  {
    hide Patched, Word, FromWord, Splice, AlignedSize, EndsFetched, Skip, TailSkip, InBlocks;
    fetched := [];
    var alignedSize := AlignedSize(offset, size);
    var start := offset - Skip(offset);
    var mramBuffer := new byte[alignedSize];
    AlignedBlocks(offset, size, |dpu.mram|);
    status := FetchEnds(dpu, program, wramSize, mramBuffer, offset, size);
    if status != Ok {
      return;
    }
    fetched := mramBuffer[..];
    CopyInto(mramBuffer, Skip(offset), ptr[..size]);
    ghost var merged := mramBuffer[..];
    status := Access(dpu, true, program, wramSize, mramBuffer, 0, start, alignedSize);
    assert merged[0..alignedSize] == merged;
  }

  lemma MergedWhole(mram: seq<byte>, data: seq<byte>, offset: nat)
    requires offset + |data| <= |mram| && InBlocks(offset) && InBlocks(|data|)
    ensures var fetched := mram[offset..offset + |data|];
      && EndsFetched(mram, fetched, offset, |data|)
      && Merged(Splice(mram, offset, data), mram, fetched, data, offset)
  {
    AlignedAlready(offset, |data|);
    assert TailSkip(offset, |data|) == 0;
    hide InBlocks, AlignedSize, Skip, TailSkip;
    assert Splice(mram[offset..offset + |data|], 0, data) == data;
  }

  lemma AlignedAlready(offset: nat, size: nat)
    requires InBlocks(offset) && InBlocks(size)
    ensures Skip(offset) == 0 && AlignedSize(offset, size) == size
  {
  }

  // What the worker delivers for an address that is not aligned, as it asks for, is not in the sources:
  // it is taken to be eight bytes of which nothing is known.
  method ReadMisaligned(dpu: Dpu, mramBuffer: array<byte>, at: nat) returns (status: Status)
    requires at + 8 <= mramBuffer.Length
    modifies dpu`wram, dpu`iram, dpu`cursor, dpu`waiting, dpu`moves, dpu`trouble, mramBuffer
    ensures dpu.trouble == Noted(old(dpu.trouble), status) && status != Disabled
    ensures |dpu.wram| == |old(dpu.wram)| && |dpu.iram| == |old(dpu.iram)|
    ensures SameOutside(mramBuffer[..], old(mramBuffer[..]), at, 8)
    ensures status == Ok ==> dpu.wram == old(dpu.wram) && dpu.iram == old(dpu.iram)
  {
    var ok := *;
    assert |[0, 0, 0, 0, 0, 0, 0, 0]| == 8;
    var bytes: seq<byte> :| |bytes| == 8;
    CopyInto(mramBuffer, at, bytes);
    status := if ok then Ok else DriverError;
    dpu.trouble := Noted(dpu.trouble, status);
    if !ok {
      var wram: seq<byte> :| |wram| == |dpu.wram|;
      var iram: seq<Instruction> :| |iram| == |dpu.iram|;
      dpu.wram, dpu.iram := wram, iram;
    }
    dpu.cursor, dpu.waiting := *, *;
  }

  method FetchBlock(dpu: Dpu, program: array<Instruction>, wramSize: nat, mramBuffer: array<byte>, at: nat, offset: nat)
    returns (status: Status)
    requires Accessible(dpu, program, wramSize) && dpu.enabled
    requires at + 8 <= mramBuffer.Length && (InBlocks(offset) ==> offset + 8 <= |dpu.mram|)
    modifies dpu`mram, dpu`wram, dpu`iram, dpu`cursor, dpu`waiting, dpu`moves, dpu`trouble, mramBuffer, program
    ensures dpu.trouble == Noted(old(dpu.trouble), status) && (dpu.enabled ==> status != Disabled)
    ensures dpu.mram == old(dpu.mram)
    ensures Accessible(dpu, program, wramSize)
    ensures status == Ok ==>
      && dpu.wram == old(dpu.wram) && dpu.iram == old(dpu.iram)
      && SameOutside(mramBuffer[..], old(mramBuffer[..]), at, 8)
      && (InBlocks(offset) ==> mramBuffer[..][at..at + 8] == dpu.mram[offset..offset + 8])
  {
    hide Patched, Word, FromWord, InBlocks;
    ghost var before := mramBuffer[..];
    if InBlocks(offset) {
      assert InBlocks(8) by { InBlocksWords(2); }
      status := Access(dpu, false, program, wramSize, mramBuffer, at, offset, 8);
      SpliceInside(before, at, dpu.mram[offset..offset + 8]);
    } else {
      status := ReadMisaligned(dpu, mramBuffer, at);
    }
  }

  // Reading the blocks that an unaligned range shares with its neighbours.
  method FetchEnds(dpu: Dpu, program: array<Instruction>, wramSize: nat, mramBuffer: array<byte>,
                   offset: nat, size: nat)
    returns (status: Status)
    requires Accessible(dpu, program, wramSize) && dpu.enabled
    requires offset + size <= |dpu.mram| && mramBuffer.Length == AlignedSize(offset, size)
    modifies dpu`mram, dpu`wram, dpu`iram, dpu`cursor, dpu`waiting, dpu`moves, dpu`trouble, mramBuffer, program
    ensures dpu.trouble == Noted(old(dpu.trouble), status) && (dpu.enabled ==> status != Disabled)
    ensures dpu.mram == old(dpu.mram)
    ensures Accessible(dpu, program, wramSize)
    ensures status == Ok ==>
      && dpu.wram == old(dpu.wram) && dpu.iram == old(dpu.iram)
      && EndsFetched(dpu.mram, mramBuffer[..], offset, size)
  {
    hide Patched, Word, FromWord, Splice, AlignedSize, Accessible, Skip, TailSkip, InBlocks;
    assert InBlocks(|dpu.mram|) by { AccessibleSizes(dpu, program, wramSize); }
    AlignedBlocks(offset, size, |dpu.mram|);
    TailFetchAligned(offset, size);
    status := Ok;
    if Skip(offset) != 0 {
      status := FetchBlock(dpu, program, wramSize, mramBuffer, 0, offset - Skip(offset));
      if status != Ok {
        return;
      }
    }
    ghost var withHead := mramBuffer[..];
    if TailSkip(offset, size) != 0 {
      var at := mramBuffer.Length - 8;
      status := FetchBlock(dpu, program, wramSize, mramBuffer, at, offset + at);
      if status != Ok {
        return;
      }
      HeadKept(withHead, mramBuffer[..], at);
      if mramBuffer.Length > 8 {
        TwoBlocks(mramBuffer.Length);
      }
    }
  }

  lemma TwoBlocks(n: nat)
    requires InBlocks(n) && n > 8
    ensures n >= 16
  {
  }

  lemma HeadKept(before: seq<byte>, after: seq<byte>, at: nat)
    requires SameOutside(after, before, at, 8) && |after| >= 8
    ensures at >= 8 ==> after[0..8] == before[0..8]
  {
  }

  lemma AccessibleSizes(dpu: Dpu, program: array<Instruction>, wramSize: nat)
    requires Accessible(dpu, program, wramSize)
    ensures InBlocks(|dpu.mram|)
  {
  }

  // The fetched blocks hold the head of the first, unless the tail went over it, and the tail of the
  // last, if its address was aligned.
  ghost predicate EndsFetched(mram: seq<byte>, fetched: seq<byte>, offset: nat, size: nat) {
    && (Skip(offset) != 0 && (TailSkip(offset, size) == 0 || |fetched| > 8) ==>
          && 8 <= |fetched| && offset - Skip(offset) + 8 <= |mram|
          && fetched[0..8] == mram[offset - Skip(offset)..offset - Skip(offset) + 8])
    && (Skip(offset) == 0 && TailSkip(offset, size) != 0 ==>
          && 8 <= |fetched| && offset + |fetched| <= |mram|
          && fetched[|fetched| - 8..|fetched|] == mram[offset + |fetched| - 8..offset + |fetched|])
  }

  // The bytes around the data in the fetched blocks are those in MRAM.
  ghost predicate NeighboursFetched(mram: seq<byte>, fetched: seq<byte>, start: nat, skip: nat, size: nat) {
    forall i :: 0 <= i < |fetched| && !(skip <= i < skip + size) && start + i < |mram| ==> fetched[i] == mram[start + i]
  }

  /** Whatever was fetched, the data arrive and nothing changes outside their blocks; a write changes
      exactly the range if and only if the bytes around it were fetched. */
  lemma MergedIsExact(mram: seq<byte>, oldMram: seq<byte>, fetched: seq<byte>, data: seq<byte>, offset: nat)
    requires Merged(mram, oldMram, fetched, data, offset)
    ensures |mram| == |oldMram| && mram[offset..offset + |data|] == data
    ensures SameOutside(mram, oldMram, offset - Skip(offset), |fetched|)
    ensures mram == Splice(oldMram, offset, data) <==>
      NeighboursFetched(oldMram, fetched, offset - Skip(offset), Skip(offset), |data|)
  {
    hide Skip, AlignedSize, NeighboursFetched, Splice, SameOutside;
    MergeInPlace(oldMram, fetched, data, offset - Skip(offset), Skip(offset));
    MergeIsExact(oldMram, fetched, data, offset - Skip(offset), Skip(offset));
  }

  lemma MergeInPlace(mram: seq<byte>, fetched: seq<byte>, data: seq<byte>, start: nat, skip: nat)
    requires skip + |data| <= |fetched| && start + |fetched| <= |mram|
    ensures var after := Splice(mram, start, Splice(fetched, skip, data));
      |after| == |mram| && after[start + skip..start + skip + |data|] == data
      && SameOutside(after, mram, start, |fetched|)
  {
    var block := Splice(fetched, skip, data);
    SpliceInside(fetched, skip, data);
    SpliceInside(mram, start, block);
    var after := Splice(mram, start, block);
    assert after[start + skip..start + skip + |data|] == after[start..start + |block|][skip..skip + |data|];
  }

  lemma MergeIsExact(mram: seq<byte>, fetched: seq<byte>, data: seq<byte>, start: nat, skip: nat)
    requires skip + |data| <= |fetched| && start + |fetched| <= |mram|
    ensures Splice(mram, start, Splice(fetched, skip, data)) == Splice(mram, start + skip, data)
       <==> NeighboursFetched(mram, fetched, start, skip, |data|)
  {
    if Splice(mram, start, Splice(fetched, skip, data)) == Splice(mram, start + skip, data) {
      forall i | 0 <= i < |fetched| && !(skip <= i < skip + |data|)
        ensures fetched[i] == mram[start + i]
      {
        MergedByte(mram, fetched, data, start, skip, i);
      }
    }
    if NeighboursFetched(mram, fetched, start, skip, |data|) {
      MergedRange(mram, fetched, data, start, skip);
    }
  }

  lemma MergedByte(mram: seq<byte>, fetched: seq<byte>, data: seq<byte>, start: nat, skip: nat, i: nat)
    requires skip + |data| <= |fetched| && start + |fetched| <= |mram|
    requires i < |fetched| && !(skip <= i < skip + |data|)
    ensures Splice(mram, start, Splice(fetched, skip, data))[start + i] == fetched[i]
    ensures Splice(mram, start + skip, data)[start + i] == mram[start + i]
  {
  }

  /** When the start or the end of the range is aligned, they were. */
  lemma MergedBlocks(oldMram: seq<byte>, fetched: seq<byte>, data: seq<byte>, offset: nat, mram: seq<byte>)
    requires offset + |data| <= |oldMram| && InBlocks(|oldMram|)
    requires Merged(mram, oldMram, fetched, data, offset)
    requires InBlocks(offset) || InBlocks(offset + |data|)
    requires EndsFetched(oldMram, fetched, offset, |data|)
    ensures mram == Splice(oldMram, offset, data)
  {
    hide AlignedSize, Skip, TailSkip, InBlocks, EndsFetched, HeadOrTail, Splice;
    FetchedRanges(oldMram, fetched, offset, |data|);
    FetchedAround(oldMram, fetched, data, offset - Skip(offset), Skip(offset));
  }

  lemma FetchedAround(mram: seq<byte>, fetched: seq<byte>, data: seq<byte>, start: nat, skip: nat)
    requires skip + |data| <= |fetched| && start + |fetched| <= |mram|
    requires HeadOrTail(mram, fetched, start, skip, |data|)
    ensures Splice(mram, start, Splice(fetched, skip, data)) == Splice(mram, start + skip, data)
  {
    hide HeadOrTail, Splice;
    forall i | 0 <= i < |fetched| && !(skip <= i < skip + |data|)
      ensures fetched[i] == mram[start + i]
    {
      FetchedByte(mram, fetched, start, skip, |data|, i);
    }
    MergedRange(mram, fetched, data, start, skip);
  }

  // The head of the fetched blocks when the range starts inside one, the tail when it ends inside one.
  ghost predicate HeadOrTail(mram: seq<byte>, fetched: seq<byte>, start: nat, skip: nat, size: nat) {
    && start + |fetched| <= |mram| && skip < 8 && |fetched| < skip + size + 8
    && (skip != 0 ==> 8 <= |fetched| && fetched[0..8] == mram[start..start + 8])
    && (skip + size < |fetched| ==>
          8 <= |fetched| && fetched[|fetched| - 8..|fetched|] == mram[start + |fetched| - 8..start + |fetched|])
  }

  lemma FetchedRanges(mram: seq<byte>, fetched: seq<byte>, offset: nat, size: nat)
    requires offset + size <= |mram| && InBlocks(|mram|) && |fetched| == AlignedSize(offset, size)
    requires InBlocks(offset) || InBlocks(offset + size)
    requires EndsFetched(mram, fetched, offset, size)
    ensures HeadOrTail(mram, fetched, offset - Skip(offset), Skip(offset), size)
  {
    hide AlignedSize, Skip, TailSkip, InBlocks;
    AlignedBlocks(offset, size, |mram|);
    TailFetchAligned(offset, size);
  }

  lemma FetchedByte(mram: seq<byte>, fetched: seq<byte>, start: nat, skip: nat, size: nat, i: nat)
    requires HeadOrTail(mram, fetched, start, skip, size)
    requires i < |fetched| && (i < skip || skip + size <= i)
    ensures fetched[i] == mram[start + i]
  {
    if i < skip {
      assert fetched[i] == fetched[0..8][i];
    } else {
      assert fetched[i] == fetched[|fetched| - 8..|fetched|][i - (|fetched| - 8)];
    }
  }

  lemma MergedRange(mram: seq<byte>, fetched: seq<byte>, data: seq<byte>, start: nat, skip: nat)
    requires skip + |data| <= |fetched| && start + |fetched| <= |mram|
    requires forall i :: 0 <= i < |fetched| && !(skip <= i < skip + |data|) ==> fetched[i] == mram[start + i]
    ensures Splice(mram, start, Splice(fetched, skip, data)) == Splice(mram, start + skip, data)
  {
    assert Splice(mram, start, Splice(fetched, skip, data)) == Splice(mram, start + skip, data);
  }

  /** The fetch of the tail block meets the alignment that the worker asks for exactly when the range
      itself starts aligned, and it is made exactly when the range ends unaligned. */
  lemma TailFetchAligned(offset: nat, size: nat)
    ensures TailSkip(offset, size) != 0 <==> !InBlocks(offset + size)
    ensures TailSkip(offset, size) != 0 ==> AlignedSize(offset, size) >= 8
    ensures AlignedSize(offset, size) >= 8 ==>
      (InBlocks(offset + AlignedSize(offset, size) - 8) <==> InBlocks(offset))
  {
    assert InBlocks(offset - Skip(offset));
    InBlocksSum(offset - Skip(offset), Skip(offset) + size);
    var aligned := AlignedSize(offset, size);
    assert InBlocks(aligned);
    if aligned >= 8 {
      assert InBlocks(aligned - 8);
      InBlocksSum(aligned - 8, offset);
    }
  }
}
