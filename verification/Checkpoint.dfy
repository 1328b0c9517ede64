/** Serialising the saved state of a DPU, and reading it back. */
module Checkpoint {
  import opened Wrappers
  import opened Bytes

  datatype Result<T> = Success(value: T) | InvalidFile | InvalidBufferSize

  const U16: nat := 0x1_0000
  const MAGIC: nat := 0xfabddbaf
  const CHIP_VERSION: nat := 18
  const VERSION: nat := 3

  // The hardware characteristics; iramSize is a 16-bit field, the others have 32 bits.
  datatype Info = Info(nrThreads: nat, nrRegisters: nat, nrAtomicBits: nat,
                       iramSize: nat, mramSize: nat, wramSize: nat)

  /** The saved state. Arrays are held as the bytes that are copied to and from the file. */
  datatype Context = Context(
    info: Info,
    iram: Option<seq<byte>>, mram: Option<seq<byte>>, wram: Option<seq<byte>>,
    registers: seq<byte>, pcs: seq<byte>, atomicRegister: seq<byte>, zeroFlags: seq<byte>, carryFlags: seq<byte>,
    nrOfRunningThreads: byte, scheduling: seq<byte>,
    bkpFault: byte, dmaFault: byte, memFault: byte,
    bkpFaultThreadIndex: byte, dmaFaultThreadIndex: byte, memFaultThreadIndex: byte,
    bkpFaultId: nat)

  // ----- lists of fields

  function Flatten(fields: seq<seq<byte>>): seq<byte> {
    if fields == [] then [] else fields[0] + Flatten(fields[1..])
  }

  function Lengths(fields: seq<seq<byte>>): (l: seq<nat>)
    ensures |l| == |fields|
  {
    seq(|fields|, i requires 0 <= i < |fields| => |fields[i]|)
  }

  function Sum(lengths: seq<nat>): nat {
    if lengths == [] then 0 else lengths[0] + Sum(lengths[1..])
  }

  function Split(b: seq<byte>, lengths: seq<nat>): (fields: seq<seq<byte>>)
    requires Sum(lengths) <= |b|
    ensures |fields| == |lengths|
    decreases |lengths|
  {
    if lengths == [] then [] else [b[..lengths[0]]] + Split(b[lengths[0]..], lengths[1..])
  }

  lemma {:induction false} FlattenLength(fields: seq<seq<byte>>)
    ensures |Flatten(fields)| == Sum(Lengths(fields))
  {
    if fields != [] {
      assert Lengths(fields)[1..] == Lengths(fields[1..]);
      FlattenLength(fields[1..]);
    }
  }

  lemma {:induction false} SplitFlatten(fields: seq<seq<byte>>, rest: seq<byte>)
    ensures Sum(Lengths(fields)) <= |Flatten(fields) + rest|
    ensures Split(Flatten(fields) + rest, Lengths(fields)) == fields
  {
    FlattenLength(fields);
    if fields != [] {
      var b := Flatten(fields) + rest;
      assert Lengths(fields)[1..] == Lengths(fields[1..]);
      assert b[..|fields[0]|] == fields[0];
      assert b[|fields[0]|..] == Flatten(fields[1..]) + rest;
      SplitFlatten(fields[1..], rest);
    }
  }

  lemma {:induction false} FlattenOfSplit(b: seq<byte>, lengths: seq<nat>)
    requires Sum(lengths) <= |b|
    ensures Flatten(Split(b, lengths)) == b[..Sum(lengths)]
    ensures Lengths(Split(b, lengths)) == lengths
    decreases |lengths|
  {
    if lengths != [] {
      var n := lengths[0];
      FlattenOfSplit(b[n..], lengths[1..]);
      var rest := Split(b[n..], lengths[1..]);
      assert Split(b, lengths) == [b[..n]] + rest;
      FlattenCons(b[..n], rest);
      assert b[..n] + b[n..][..Sum(lengths[1..])] == b[..Sum(lengths)];
    }
  }

  lemma FlattenCons(field: seq<byte>, rest: seq<seq<byte>>)
    ensures Flatten([field] + rest) == field + Flatten(rest)
    ensures Lengths([field] + rest) == [|field|] + Lengths(rest)
  {
    assert ([field] + rest)[1..] == rest;
  }

  lemma {:induction false} SplitLonger(b: seq<byte>, lengths: seq<nat>, n: nat)
    requires Sum(lengths) <= n <= |b|
    ensures Split(b, lengths) == Split(b[..n], lengths)
    decreases |lengths|
  {
    if lengths != [] {
      var m := lengths[0];
      assert b[..n][..m] == b[..m];
      assert b[..n][m..] == b[m..][..n - m];
      SplitLonger(b[m..], lengths[1..], n - m);
    }
  }

  lemma {:induction false} FlattenSnoc(fields: seq<seq<byte>>, field: seq<byte>)
    ensures Flatten(fields + [field]) == Flatten(fields) + field
  {
    if fields == [] {
      assert [] + [field] == [field];
      assert Flatten([field]) == field + Flatten([]);
    } else {
      assert (fields + [field])[1..] == fields[1..] + [field];
      FlattenSnoc(fields[1..], field);
    }
  }

  lemma {:induction false} SumAppend(l: seq<nat>, r: seq<nat>)
    ensures Sum(l + r) == Sum(l) + Sum(r)
  {
    if l == [] {
      assert l + r == r;
    } else {
      assert (l + r)[1..] == l[1..] + r;
      SumAppend(l[1..], r);
    }
  }

  lemma {:induction false} SplitAppend(b: seq<byte>, l: seq<nat>, r: seq<nat>)
    requires Sum(l + r) <= |b|
    ensures Sum(l) <= |b| && Split(b, l + r)[..|l|] == Split(b, l)
    decreases |l|
  {
    SumAppend(l, r);
    if l == [] {
      assert l + r == r;
    } else {
      assert (l + r)[1..] == l[1..] + r;
      SplitAppend(b[l[0]..], l[1..], r);
    }
  }

  // ----- the format

  // What the ten words at the start say after their four constants.
  datatype Header = Header(nrThreads: nat, nrRegisters: nat, nrAtomicBits: nat, iram: nat, mram: nat, wram: nat)
  {
    predicate Valid() {
      nrThreads < U32 && nrRegisters < U32 && nrAtomicBits < U32 && iram < U32 && mram < U32 && wram < U32
    }
  }

  // The sizes in bytes are computed in 32 bits.
  function Bytes32(n: nat): nat {
    n % U32
  }

  function RegisterBytes(nrThreads: nat, nrRegisters: nat): nat {
    4 * nrThreads * nrRegisters
  }

  const HEADER_LENGTHS: seq<nat> := [4, 4, 4, 4, 4, 4, 4, 4, 4, 4]

  function BodyLengths(h: Header): seq<nat> {
    [Bytes32(8 * h.iram), Bytes32(h.mram), Bytes32(4 * h.wram),
     Bytes32(RegisterBytes(h.nrThreads, h.nrRegisters)), Bytes32(2 * h.nrThreads), Bytes32(h.nrAtomicBits),
     Bytes32(h.nrThreads), Bytes32(h.nrThreads), 1, Bytes32(h.nrThreads), 1, 1, 1, 1, 1, 1, 4]
  }

  function HeaderFields(h: Header): seq<seq<byte>>
    requires h.Valid()
  {
    [Word(MAGIC), Word(CHIP_VERSION), Word(VERSION), Word(MAGIC),
     Word(h.nrThreads), Word(h.nrRegisters), Word(h.nrAtomicBits), Word(h.iram), Word(h.mram), Word(h.wram)]
  }

  function BytesOf(memory: Option<seq<byte>>): seq<byte> {
    match memory case Some(b) => b case None => []
  }

  function HeaderOf(c: Context): Header {
    Header(c.info.nrThreads, c.info.nrRegisters, c.info.nrAtomicBits,
           if c.iram.None? then 0 else c.info.iramSize,
           if c.mram.None? then 0 else c.info.mramSize,
           if c.wram.None? then 0 else c.info.wramSize)
  }

  function BodyFields(c: Context): seq<seq<byte>>
    requires c.bkpFaultId < U32
  {
    [BytesOf(c.iram), BytesOf(c.mram), BytesOf(c.wram),
     c.registers, c.pcs, c.atomicRegister, c.zeroFlags, c.carryFlags, [c.nrOfRunningThreads], c.scheduling,
     [c.bkpFault], [c.dmaFault], [c.memFault],
     [c.bkpFaultThreadIndex], [c.dmaFaultThreadIndex], [c.memFaultThreadIndex], Word(c.bkpFaultId)]
  }

  /** A context as the library builds it: every array has its size, in all less than 2^32 bytes. The
      sizes are computed in 32 bits, and of a larger array only the part that is serialised matters. */
  predicate WellFormed(c: Context) {
    var i := c.info;
    && i.nrThreads < U32 && i.nrRegisters < U32 && i.nrAtomicBits < U32
    && i.iramSize < U16 && i.mramSize < U32 && i.wramSize < U32 && c.bkpFaultId < U32
    && (c.iram.Some? ==> |c.iram.value| == Bytes32(8 * i.iramSize))
    && (c.mram.Some? ==> |c.mram.value| == Bytes32(i.mramSize))
    && (c.wram.Some? ==> |c.wram.value| == Bytes32(4 * i.wramSize))
    && |c.registers| == Bytes32(RegisterBytes(i.nrThreads, i.nrRegisters)) && |c.pcs| == Bytes32(2 * i.nrThreads)
    && |c.atomicRegister| == i.nrAtomicBits
    && |c.zeroFlags| == |c.carryFlags| == |c.scheduling| == i.nrThreads
    && 51 + |BytesOf(c.iram)| + |BytesOf(c.mram)| + |BytesOf(c.wram)| + |c.registers| + |c.pcs|
         + |c.atomicRegister| + |c.zeroFlags| + |c.carryFlags| + |c.scheduling| < U32
  }

  function Fields(c: Context): seq<seq<byte>>
    requires WellFormed(c)
  {
    HeaderFields(HeaderOf(c)) + BodyFields(c)
  }

  function Encoded(c: Context): seq<byte>
    requires WellFormed(c)
  {
    Flatten(Fields(c))
  }

  /** dpu_checkpoint_get_serialized_context_size */
  function SerializedSize(c: Context): nat {
    var i := c.info;
    var iram := if c.iram.None? then 0 else Bytes32(8 * i.iramSize);
    var mram := if c.mram.None? then 0 else Bytes32(i.mramSize);
    var wram := if c.wram.None? then 0 else Bytes32(4 * i.wramSize);
    Bytes32(4 + 4 + 4 + 4 + 4 + 4 + 4 + 4 + 4 + 4 + iram + mram + wram
      + Bytes32(RegisterBytes(i.nrThreads, i.nrRegisters)) + Bytes32(2 * i.nrThreads) + Bytes32(i.nrAtomicBits)
      + Bytes32(i.nrThreads) + Bytes32(i.nrThreads) + 1 + Bytes32(i.nrThreads) + 1 + 1 + 1 + 1 + 1 + 1 + 4)
  }

  function HeaderFrom(fields: seq<seq<byte>>): Header
    requires |fields| >= 10 && forall k :: 0 <= k < 10 ==> |fields[k]| == 4
  {
    Header(FromWord(fields[4]), FromWord(fields[5]), FromWord(fields[6]),
           FromWord(fields[7]), FromWord(fields[8]), FromWord(fields[9]))
  }

  predicate GoodConstants(fields: seq<seq<byte>>)
    requires |fields| >= 10 && forall k :: 0 <= k < 10 ==> |fields[k]| == 4
  {
    && FromWord(fields[0]) == MAGIC && FromWord(fields[1]) == CHIP_VERSION
    && FromWord(fields[2]) == VERSION && FromWord(fields[3]) == MAGIC
  }

  function MemoryFrom(size: nat, b: seq<byte>): Option<seq<byte>> {
    if size != 0 then Some(b) else None
  }

  // The context that the fields of a file make.
  function ContextFrom(h: Header, body: seq<seq<byte>>): Context
    requires Lengths(body) == BodyLengths(h)
  {
    assert |body| == 17;
    assert |body[8]| == Lengths(body)[8] && |body[16]| == Lengths(body)[16];
    assert |body[10]| == Lengths(body)[10] && |body[11]| == Lengths(body)[11] && |body[12]| == Lengths(body)[12];
    assert |body[13]| == Lengths(body)[13] && |body[14]| == Lengths(body)[14] && |body[15]| == Lengths(body)[15];
    Context(
      Info(h.nrThreads, h.nrRegisters, h.nrAtomicBits, h.iram % U16, h.mram, h.wram),
      MemoryFrom(h.iram, body[0]), MemoryFrom(h.mram, body[1]), MemoryFrom(h.wram, body[2]),
      body[3], body[4], body[5], body[6], body[7], body[8][0], body[9],
      body[10][0], body[11][0], body[12][0], body[13][0], body[14][0], body[15][0], FromWord(body[16]))
  }

  // A context and the number of bytes it took.
  datatype Parsed = Parsed(context: Context, consumed: nat)

  function FileLengths(h: Header): seq<nat> {
    HEADER_LENGTHS + BodyLengths(h)
  }

  lemma HeaderSplit(b: seq<byte>)
    requires |b| >= 40
    ensures Sum(HEADER_LENGTHS) == 40
    ensures var f := Split(b, HEADER_LENGTHS);
      && |f| == 10 && (forall k :: 0 <= k < 10 ==> |f[k]| == 4)
      && Flatten(f) == b[..40]
  {
    hide Sum, Split, Flatten;
    HeaderSum();
    FlattenOfSplit(b, HEADER_LENGTHS);
    var f := Split(b, HEADER_LENGTHS);
    forall k | 0 <= k < 10
      ensures |f[k]| == 4
    {
      assert |f[k]| == Lengths(f)[k] == HEADER_LENGTHS[k];
    }
  }

  lemma HeaderSum()
    ensures Sum(HEADER_LENGTHS) == 40
  {
    assert Sum([4, 4, 4, 4, 4]) == 20;
    SumAppend([4, 4, 4, 4, 4], [4, 4, 4, 4, 4]);
    assert [4, 4, 4, 4, 4] + [4, 4, 4, 4, 4] == HEADER_LENGTHS;
  }

  /** What dpu_checkpoint_deserialize accepts, and makes of it. */
  function Parse(b: seq<byte>): Result<Parsed> {
    if |b| < 40 then InvalidFile
    else
      HeaderSplit(b);
      var f := Split(b, HEADER_LENGTHS);
      if !GoodConstants(f) then InvalidFile
      else
        var h := HeaderFrom(f);
        var lengths := FileLengths(h);
        if |b| < Sum(lengths) then InvalidFile
        else
          FileBody(b, h);
          Success(Parsed(ContextFrom(h, Split(b, lengths)[10..]), Sum(lengths)))
  }

  lemma FileBody(b: seq<byte>, h: Header)
    requires Sum(FileLengths(h)) <= |b|
    ensures Sum(FileLengths(h)) >= 40
    ensures Lengths(Split(b, FileLengths(h))[10..]) == BodyLengths(h)
    ensures Split(b, FileLengths(h))[..10] == Split(b, HEADER_LENGTHS)
  {
    hide BodyLengths, Split, Sum, Lengths;
    HeaderSum();
    SumAppend(HEADER_LENGTHS, BodyLengths(h));
    FlattenOfSplit(b, FileLengths(h));
    SplitAppend(b, HEADER_LENGTHS, BodyLengths(h));
    LengthsAfter(Split(b, FileLengths(h)), 10);
    assert FileLengths(h)[10..] == BodyLengths(h);
  }

  lemma LengthsAfter(f: seq<seq<byte>>, n: nat)
    requires n <= |f|
    ensures |Lengths(f)| == |f| && Lengths(f[n..]) == Lengths(f)[n..]
  {
  }

  // ----- what goes out comes back

  lemma FieldLengths(c: Context)
    requires WellFormed(c)
    ensures HeaderOf(c).Valid()
    ensures Lengths(Fields(c)) == FileLengths(HeaderOf(c))
  {
    var h := HeaderOf(c);
    assert Lengths(HeaderFields(h)) == HEADER_LENGTHS;
    assert Lengths(BodyFields(c)) == BodyLengths(h) by {
      BodySizes(c);
    }
    assert Lengths(Fields(c)) == Lengths(HeaderFields(h)) + Lengths(BodyFields(c));
  }

  lemma Small(n: nat)
    requires n < U32
    ensures Bytes32(n) == n
  {
  }

  // The arrays have the sizes that the header states, and the sum of the sizes does not wrap.
  lemma StatedSizes(c: Context)
    requires WellFormed(c)
    ensures var h := HeaderOf(c);
      && Bytes32(8 * h.iram) == |BytesOf(c.iram)|
      && Bytes32(h.mram) == |BytesOf(c.mram)|
      && Bytes32(4 * h.wram) == |BytesOf(c.wram)|
      && Bytes32(RegisterBytes(h.nrThreads, h.nrRegisters)) == |c.registers|
      && Bytes32(2 * h.nrThreads) == |c.pcs|
      && Bytes32(h.nrAtomicBits) == |c.atomicRegister|
      && Bytes32(h.nrThreads) == |c.zeroFlags|
    ensures SerializedSize(c)
         == 51 + |BytesOf(c.iram)| + |BytesOf(c.mram)| + |BytesOf(c.wram)| + |c.registers| + |c.pcs|
          + |c.atomicRegister| + |c.zeroFlags| + |c.carryFlags| + |c.scheduling|
  {
    hide Bytes32;
    var h := HeaderOf(c);
    Small(0);
    Small(h.nrAtomicBits);
    Small(h.nrThreads);
    Small(51 + |BytesOf(c.iram)| + |BytesOf(c.mram)| + |BytesOf(c.wram)| + |c.registers| + |c.pcs|
      + |c.atomicRegister| + |c.zeroFlags| + |c.carryFlags| + |c.scheduling|);
  }

  lemma BodySizes(c: Context)
    requires WellFormed(c)
    ensures Lengths(BodyFields(c)) == BodyLengths(HeaderOf(c))
  {
    hide Word, Bytes32;
    StatedSizes(c);
    var l, r := Lengths(BodyFields(c)), BodyLengths(HeaderOf(c));
    assert l[0] == r[0] && l[1] == r[1] && l[2] == r[2] && l[3] == r[3] && l[4] == r[4] && l[5] == r[5];
    assert l[6] == r[6] && l[7] == r[7] && l[8] == r[8] && l[9] == r[9] && l[10] == r[10] && l[11] == r[11];
    assert l[12] == r[12] && l[13] == r[13] && l[14] == r[14] && l[15] == r[15] && l[16] == r[16];
  }

  // Memories that are absent, or empty, have size 0 after a round trip.
  function Normalised(c: Context): Context {
    var h := HeaderOf(c);
    c.(info := c.info.(iramSize := h.iram, mramSize := h.mram, wramSize := h.wram),
       iram := MemoryFrom(h.iram, BytesOf(c.iram)),
       mram := MemoryFrom(h.mram, BytesOf(c.mram)),
       wram := MemoryFrom(h.wram, BytesOf(c.wram)))
  }

  /** It is the context itself when its memories are absent with size zero, or have a size. */
  lemma NothingToNormalise(c: Context)
    requires (c.iram.None? <==> c.info.iramSize == 0)
    requires (c.mram.None? <==> c.info.mramSize == 0)
    requires (c.wram.None? <==> c.info.wramSize == 0)
    ensures Normalised(c) == c
  {
  }

  lemma HeaderRead(h: Header)
    requires h.Valid()
    ensures var f := HeaderFields(h); GoodConstants(f) && HeaderFrom(f) == h
  {
    hide Word, FromWord;
    WordRoundTrip(MAGIC);
    WordRoundTrip(CHIP_VERSION);
    WordRoundTrip(VERSION);
    WordRoundTrip(h.nrThreads);
    WordRoundTrip(h.nrRegisters);
    WordRoundTrip(h.nrAtomicBits);
    WordRoundTrip(h.iram);
    WordRoundTrip(h.mram);
    WordRoundTrip(h.wram);
  }

  lemma BodyRead(c: Context)
    requires WellFormed(c)
    requires Lengths(BodyFields(c)) == BodyLengths(HeaderOf(c))
    ensures ContextFrom(HeaderOf(c), BodyFields(c)) == Normalised(c)
  {
    hide Word, FromWord, Bytes32;
    WordRoundTrip(c.bkpFaultId);
  }

  /** Reading back a serialised context, whatever follows it, gives the same context up to the sizes
      of its absent memories, and takes exactly its bytes. */
  lemma RoundTrip(c: Context, rest: seq<byte>)
    requires WellFormed(c)
    ensures Parse(Encoded(c) + rest) == Success(Parsed(Normalised(c), |Encoded(c)|))
  {
    hide Word, FromWord, Split, GoodConstants, HeaderFrom, HeaderFields, BodyFields, ContextFrom;
    var b, h := Encoded(c) + rest, HeaderOf(c);
    FieldLengths(c);
    SplitFlatten(Fields(c), rest);
    FlattenLength(Fields(c));
    FileBody(b, h);
    HeaderFieldsFirst(c);
    BodySizes(c);
    HeaderRead(h);
    BodyRead(c);
  }

  lemma HeaderFieldsFirst(c: Context)
    requires WellFormed(c)
    ensures Fields(c)[..10] == HeaderFields(HeaderOf(c)) && Fields(c)[10..] == BodyFields(c)
  {
  }

  /** What a parse accepts depends on the bytes it takes only. */
  lemma ParseTakesPrefix(b: seq<byte>, n: nat)
    requires Parse(b).Success? && Parse(b).value.consumed <= n <= |b|
    ensures Parse(b[..n]) == Parse(b)
  {
    hide Word, FromWord, Split, GoodConstants, HeaderFrom, ContextFrom;
    HeaderSplit(b);
    var h := HeaderFrom(Split(b, HEADER_LENGTHS));
    FileBody(b, h);
    SplitLonger(b, HEADER_LENGTHS, n);
    SplitLonger(b, FileLengths(h), n);
  }

  /** Every proper prefix of a serialised context is rejected. */
  lemma PrefixRejected(c: Context, n: nat)
    requires WellFormed(c) && n < |Encoded(c)|
    ensures Parse(Encoded(c)[..n]) == InvalidFile
  {
    hide Word, FromWord, GoodConstants, HeaderFrom, ContextFrom, HeaderFields, BodyFields;
    var b := Encoded(c);
    RoundTrip(c, []);
    assert b + [] == b;
    if n >= 40 {
      var h := HeaderFrom(Split(b, HEADER_LENGTHS));
      HeaderSplit(b);
      SplitLonger(b, HEADER_LENGTHS, n);
    }
  }

  // ----- the bytes of a file

  lemma {:induction false} FlattenAppend(f: seq<seq<byte>>, g: seq<seq<byte>>)
    ensures Flatten(f + g) == Flatten(f) + Flatten(g)
  {
    if f == [] {
      assert f + g == g;
    } else {
      assert (f + g)[1..] == f[1..] + g;
      FlattenAppend(f[1..], g);
    }
  }

  // The magic number, chip version 18, version 3 and the magic number again, lowest bytes first.
  const SIGNATURE: seq<byte> := [0xaf, 0xdb, 0xbd, 0xfa, 18, 0, 0, 0, 3, 0, 0, 0, 0xaf, 0xdb, 0xbd, 0xfa]

  lemma SignatureWords()
    ensures Word(MAGIC) == SIGNATURE[0..4] && Word(CHIP_VERSION) == SIGNATURE[4..8]
    ensures Word(VERSION) == SIGNATURE[8..12] && Word(MAGIC) == SIGNATURE[12..16]
  {
  }

  // Where the words of the header are.
  lemma HeaderAt(b: seq<byte>)
    requires |b| >= 40
    ensures HeaderIn(b) == Header(FromWord(b[16..20]), FromWord(b[20..24]), FromWord(b[24..28]),
                                  FromWord(b[28..32]), FromWord(b[32..36]), FromWord(b[36..40]))
  {
    hide FromWord, Split, Sum;
    HeaderSplit(b);
    HeaderSlice(b, 4);
    HeaderSlice(b, 5);
    HeaderSlice(b, 6);
    HeaderSlice(b, 7);
    HeaderSlice(b, 8);
    HeaderSlice(b, 9);
  }

  lemma SignatureAt(b: seq<byte>)
    requires |b| >= 40
    ensures var f := Split(b, HEADER_LENGTHS);
      && |f| == 10 && (forall k :: 0 <= k < 10 ==> |f[k]| == 4)
      && (GoodConstants(f) <==> b[..16] == SIGNATURE)
  {
    hide FromWord, Word, Split, Sum;
    HeaderSplit(b);
    HeaderSlice(b, 0);
    HeaderSlice(b, 1);
    HeaderSlice(b, 2);
    HeaderSlice(b, 3);
    SignatureWords();
    WordIs(b[0..4], MAGIC);
    WordIs(b[4..8], CHIP_VERSION);
    WordIs(b[8..12], VERSION);
    WordIs(b[12..16], MAGIC);
    assert b[..16] == b[0..4] + b[4..8] + b[8..12] + b[12..16];
    assert SIGNATURE == SIGNATURE[0..4] + SIGNATURE[4..8] + SIGNATURE[8..12] + SIGNATURE[12..16];
  }

  lemma WordIs(b: seq<byte>, n: nat)
    requires |b| == 4 && n < U32
    ensures FromWord(b) == n <==> b == Word(n)
  {
    hide FromWord, Word;
    WordOfFromWord(b);
    WordRoundTrip(n);
  }

  /** A file is accepted only with the signature, and with at least the bytes that its header states. */
  lemma Accepted(b: seq<byte>)
    ensures Parse(b).Success? <==> |b| >= 40 && b[..16] == SIGNATURE && FileSize(HeaderIn(b)) <= |b|
    ensures Parse(b).Success? ==> Parse(b).value.consumed == FileSize(HeaderIn(b))
  {
    if |b| >= 40 {
      SignatureAt(b);
      HeaderSplit(b);
      FileSum(HeaderIn(b));
      hide GoodConstants, Split, Sum, ContextFrom, HeaderFrom, FileSize;
    }
  }

  /** A serialised context byte for byte: the signature, the six numbers, and the arrays in their order. */
  lemma Layout(c: Context)
    requires WellFormed(c)
    ensures |Encoded(c)| >= 40
    ensures var h := HeaderOf(c);
      Encoded(c)[..40] == SIGNATURE + Word(h.nrThreads) + Word(h.nrRegisters) + Word(h.nrAtomicBits)
                        + Word(h.iram) + Word(h.mram) + Word(h.wram)
    ensures Encoded(c)[40..]
         == BytesOf(c.iram) + BytesOf(c.mram) + BytesOf(c.wram)
          + c.registers + c.pcs + c.atomicRegister + c.zeroFlags + c.carryFlags
          + [c.nrOfRunningThreads] + c.scheduling
          + [c.bkpFault, c.dmaFault, c.memFault]
          + [c.bkpFaultThreadIndex, c.dmaFaultThreadIndex, c.memFaultThreadIndex]
          + Word(c.bkpFaultId)
  {
    var h := HeaderOf(c);
    HeaderBytes(h);
    BodyBytes(c);
    FlattenAppend(HeaderFields(h), BodyFields(c));
    hide Flatten, Word, HeaderFields, BodyFields, BytesOf;
    assert Encoded(c) == Flatten(HeaderFields(h)) + Flatten(BodyFields(c));
  }

  lemma HeaderBytes(h: Header)
    requires h.Valid()
    ensures |Flatten(HeaderFields(h))| == 40
    ensures Flatten(HeaderFields(h))
         == SIGNATURE + Word(h.nrThreads) + Word(h.nrRegisters) + Word(h.nrAtomicBits)
          + Word(h.iram) + Word(h.mram) + Word(h.wram)
  {
    SignatureWords();
    hide Word, Flatten;
    var a, b := [Word(MAGIC), Word(CHIP_VERSION), Word(VERSION), Word(MAGIC)],
      [Word(h.nrThreads), Word(h.nrRegisters), Word(h.nrAtomicBits), Word(h.iram), Word(h.mram), Word(h.wram)];
    assert HeaderFields(h) == a + b;
    FlattenAppend(a, b);
    FlattenFour(a[0], a[1], a[2], a[3]);
    FlattenAppend(b[..4], b[4..]);
    FlattenFour(b[0], b[1], b[2], b[3]);
    FlattenTwo(b[4], b[5]);
    assert b == b[..4] + b[4..] && b[..4] == [b[0], b[1], b[2], b[3]] && b[4..] == [b[4], b[5]];
  }

  lemma FlattenTwo(a: seq<byte>, b: seq<byte>)
    ensures Flatten([a, b]) == a + b
  {
    assert [a, b][1..] == [b] && [b][1..] == [];
    assert Flatten([b]) == b + Flatten([]);
  }

  lemma FlattenFour(a: seq<byte>, b: seq<byte>, c: seq<byte>, d: seq<byte>)
    ensures Flatten([a, b, c, d]) == a + b + c + d
  {
    assert [a, b, c, d] == [a, b] + [c, d];
    FlattenAppend([a, b], [c, d]);
    FlattenTwo(a, b);
    FlattenTwo(c, d);
  }

  lemma BodyBytes(c: Context)
    requires c.bkpFaultId < U32
    ensures Flatten(BodyFields(c))
         == BytesOf(c.iram) + BytesOf(c.mram) + BytesOf(c.wram)
          + c.registers + c.pcs + c.atomicRegister + c.zeroFlags + c.carryFlags
          + [c.nrOfRunningThreads] + c.scheduling
          + [c.bkpFault, c.dmaFault, c.memFault]
          + [c.bkpFaultThreadIndex, c.dmaFaultThreadIndex, c.memFaultThreadIndex]
          + Word(c.bkpFaultId)
  {
    hide Word, Flatten, BytesOf;
    var f := BodyFields(c);
    assert f == f[..8] + f[8..] && f[..8] == f[..4] + f[4..8] && f[8..] == f[8..16] + f[16..];
    assert f[8..16] == f[8..12] + f[12..16];
    FlattenAppend(f[..8], f[8..]);
    FlattenAppend(f[..4], f[4..8]);
    FlattenAppend(f[8..16], f[16..]);
    FlattenAppend(f[8..12], f[12..16]);
    assert f[..4] == [f[0], f[1], f[2], f[3]] && f[4..8] == [f[4], f[5], f[6], f[7]];
    assert f[8..12] == [f[8], f[9], f[10], f[11]] && f[12..16] == [f[12], f[13], f[14], f[15]] && f[16..] == [f[16]];
    FlattenFour(f[0], f[1], f[2], f[3]);
    FlattenFour(f[4], f[5], f[6], f[7]);
    FlattenFour(f[8], f[9], f[10], f[11]);
    FlattenFour(f[12], f[13], f[14], f[15]);
    FlattenCons(f[16], []);
    assert [f[16]] + [] == [f[16]];
    FlattenNone();
  }

  lemma FlattenNone()
    ensures Flatten([]) == []
  {
  }

  /** The sizes in the file, when none of them wraps: 8 bytes an instruction, 4 a word of WRAM or a
      register, 2 a program counter, and one for everything else. */
  lemma SizesInBytes(c: Context)
    requires WellFormed(c)
    requires 4 * c.info.wramSize < U32 && 4 * c.info.nrThreads * c.info.nrRegisters < U32 && 2 * c.info.nrThreads < U32
    ensures c.iram.Some? ==> |c.iram.value| == 8 * c.info.iramSize
    ensures c.mram.Some? ==> |c.mram.value| == c.info.mramSize
    ensures c.wram.Some? ==> |c.wram.value| == 4 * c.info.wramSize
    ensures |c.registers| == 4 * c.info.nrThreads * c.info.nrRegisters && |c.pcs| == 2 * c.info.nrThreads
    ensures |c.atomicRegister| == c.info.nrAtomicBits
    ensures |c.zeroFlags| == |c.carryFlags| == |c.scheduling| == c.info.nrThreads
  {
    hide Bytes32;
    Small(8 * c.info.iramSize);
    Small(c.info.mramSize);
    Small(4 * c.info.wramSize);
    Small(RegisterBytes(c.info.nrThreads, c.info.nrRegisters));
    Small(2 * c.info.nrThreads);
  }

  // ----- sizes

  lemma SumStep(l: seq<nat>, k: nat)
    requires k < |l|
    ensures Sum(l[k..]) == l[k] + Sum(l[k + 1..])
  {
    assert l[k..][1..] == l[k + 1..];
  }

  lemma BodySum(h: Header)
    ensures Sum(BodyLengths(h))
         == Bytes32(8 * h.iram) + Bytes32(h.mram) + Bytes32(4 * h.wram)
          + Bytes32(RegisterBytes(h.nrThreads, h.nrRegisters)) + Bytes32(2 * h.nrThreads) + Bytes32(h.nrAtomicBits)
          + Bytes32(h.nrThreads) + Bytes32(h.nrThreads) + 1 + Bytes32(h.nrThreads) + 6 + 4
  {
    var l := BodyLengths(h);
    assert l[0..] == l && Sum(l[17..]) == 0;
    hide Bytes32, Sum;
    SumStep(l, 0); SumStep(l, 1); SumStep(l, 2); SumStep(l, 3); SumStep(l, 4); SumStep(l, 5);
    SumStep(l, 6); SumStep(l, 7); SumStep(l, 8); SumStep(l, 9); SumStep(l, 10); SumStep(l, 11);
    SumStep(l, 12); SumStep(l, 13); SumStep(l, 14); SumStep(l, 15); SumStep(l, 16);
  }

  /** The size function is the number of bytes written. */
  lemma SizeIsLength(c: Context)
    requires WellFormed(c)
    ensures SerializedSize(c) == |Encoded(c)|
  {
    hide Word, Bytes32, Sum, BodyLengths, Fields, Lengths;
    FieldLengths(c);
    FlattenLength(Fields(c));
    SumAppend(HEADER_LENGTHS, BodyLengths(HeaderOf(c)));
    HeaderSum();
    BodySum(HeaderOf(c));
    StatedSizes(c);
  }

  // ----- files that no serialiser need have written

  // The size of a file, by its header.
  function FileSize(h: Header): (n: nat)
    ensures n >= 51
  {
    51 + Bytes32(8 * h.iram) + Bytes32(h.mram) + Bytes32(4 * h.wram)
    + Bytes32(RegisterBytes(h.nrThreads, h.nrRegisters)) + Bytes32(2 * h.nrThreads) + Bytes32(h.nrAtomicBits)
    + Bytes32(h.nrThreads) + Bytes32(h.nrThreads) + Bytes32(h.nrThreads)
  }

  function HeaderIn(b: seq<byte>): Header
    requires |b| >= 40
  {
    HeaderSplit(b);
    HeaderFrom(Split(b, HEADER_LENGTHS))
  }

  lemma FileSum(h: Header)
    ensures Sum(FileLengths(h)) == FileSize(h)
  {
    hide Bytes32, Sum, BodyLengths;
    SumAppend(HEADER_LENGTHS, BodyLengths(h));
    HeaderSum();
    BodySum(h);
  }

  lemma FieldSizes(h: Header, body: seq<seq<byte>>)
    requires Lengths(body) == BodyLengths(h)
    ensures |body| == 17
    ensures |body[0]| == Bytes32(8 * h.iram) && |body[1]| == Bytes32(h.mram) && |body[2]| == Bytes32(4 * h.wram)
    ensures |body[3]| == Bytes32(RegisterBytes(h.nrThreads, h.nrRegisters)) && |body[4]| == Bytes32(2 * h.nrThreads)
    ensures |body[5]| == Bytes32(h.nrAtomicBits)
    ensures |body[6]| == |body[7]| == |body[9]| == Bytes32(h.nrThreads)
    ensures |body[8]| == |body[10]| == |body[11]| == |body[12]| == |body[13]| == |body[14]| == |body[15]| == 1
    ensures |body[16]| == 4
  {
    hide Bytes32, Sum;
    var l := Lengths(body);
    assert |body[0]| == l[0] && |body[1]| == l[1] && |body[2]| == l[2] && |body[3]| == l[3] && |body[4]| == l[4];
    assert |body[5]| == l[5] && |body[6]| == l[6] && |body[7]| == l[7] && |body[8]| == l[8] && |body[9]| == l[9];
    assert |body[10]| == l[10] && |body[11]| == l[11] && |body[12]| == l[12] && |body[13]| == l[13];
    assert |body[14]| == l[14] && |body[15]| == l[15] && |body[16]| == l[16];
  }

  // A context as a file with header h makes it: its arrays have the sizes stated, and its memories are
  // absent when these are zero.
  ghost predicate Made(c: Context, h: Header) {
    && c.info == Info(h.nrThreads, h.nrRegisters, h.nrAtomicBits, h.iram % U16, h.mram, h.wram)
    && |BytesOf(c.iram)| == Bytes32(8 * h.iram) && (c.iram.None? <==> h.iram == 0)
    && |BytesOf(c.mram)| == Bytes32(h.mram) && (c.mram.None? <==> h.mram == 0)
    && |BytesOf(c.wram)| == Bytes32(4 * h.wram) && (c.wram.None? <==> h.wram == 0)
    && |c.registers| == Bytes32(RegisterBytes(h.nrThreads, h.nrRegisters)) && |c.pcs| == Bytes32(2 * h.nrThreads)
    && |c.atomicRegister| == Bytes32(h.nrAtomicBits)
    && |c.zeroFlags| == |c.carryFlags| == |c.scheduling| == Bytes32(h.nrThreads)
    && c.bkpFaultId < U32
  }

  lemma ParsedParts(h: Header, body: seq<seq<byte>>)
    requires Lengths(body) == BodyLengths(h)
    ensures Made(ContextFrom(h, body), h)
  {
    hide Lengths, BodyLengths, FromWord, Bytes32;
    FieldSizes(h, body);
    Small(0);
  }

  lemma BodyWritten(h: Header, body: seq<seq<byte>>)
    requires Lengths(body) == BodyLengths(h)
    ensures var c := ContextFrom(h, body); c.bkpFaultId < U32 && BodyFields(c) == body
  {
    hide Lengths, BodyLengths, FromWord, Word, Bytes32;
    FieldSizes(h, body);
    Small(0);
    WordOfFromWord(body[16]);
    var c := ContextFrom(h, body);
    var r := BodyFields(c);
    assert r[0] == body[0] && r[1] == body[1] && r[2] == body[2] && r[8] == body[8];
    assert r[10] == body[10] && r[11] == body[11] && r[12] == body[12];
    assert r[13] == body[13] && r[14] == body[14] && r[15] == body[15];
  }

  lemma HeaderWritten(f: seq<seq<byte>>)
    requires |f| == 10 && (forall k :: 0 <= k < 10 ==> |f[k]| == 4) && GoodConstants(f)
    ensures HeaderFrom(f).Valid() && HeaderFields(HeaderFrom(f)) == f
  {
    hide Word, FromWord;
    WordOfFromWord(f[0]);
    WordOfFromWord(f[1]);
    WordOfFromWord(f[2]);
    WordOfFromWord(f[3]);
    WordOfFromWord(f[4]);
    WordOfFromWord(f[5]);
    WordOfFromWord(f[6]);
    WordOfFromWord(f[7]);
    WordOfFromWord(f[8]);
    WordOfFromWord(f[9]);
  }

  // The number of instructions is cut to 16 bits, their size in bytes to 32.
  const U29: nat := 0x2000_0000

  lemma InstructionBytes(iram: nat)
    ensures Bytes32(8 * iram) == 8 * (iram % U29) && Bytes32(8 * (iram % U16)) == 8 * (iram % U16)
    ensures iram % U16 <= iram % U29
    ensures iram % U16 == iram % U29 <==> iram % U29 < U16
  {
    var q, r := iram / U29, iram % U29;
    assert iram == U29 * q + r;
    WholeWraps(q, 8 * r);
    CutTwice(q, r);
    WholeWraps(0, 8 * (iram % U16));
  }

  lemma WholeWraps(q: nat, r: nat)
    requires r < U32
    ensures Bytes32(U32 * q + r) == r
  {
  }

  lemma CutTwice(q: nat, r: nat)
    ensures (U29 * q + r) % U16 == r % U16 <= r
    ensures r % U16 == r <==> r < U16
  {
    assert U29 * q + r == U16 * (8192 * q) + r;
  }

  lemma MadeSize(c: Context, h: Header)
    requires Made(c, h) && FileSize(h) < U32
    ensures SerializedSize(c) == FileSize(h) <==> h.iram % U29 < U16
  {
    InstructionBytes(h.iram);
    Small(0);
    var size := FileSize(h) - Bytes32(8 * h.iram) + Bytes32(8 * (h.iram % U16));
    Small(size);
    hide Bytes32;
    assert SerializedSize(c) == Bytes32(size);
  }

  lemma MadeWellFormed(c: Context, h: Header)
    requires Made(c, h) && h.Valid() && FileSize(h) < U32 && h.iram < U16
    ensures WellFormed(c) && HeaderOf(c) == h
  {
    hide Bytes32;
    Small(h.nrThreads);
    Small(h.nrAtomicBits);
    CutTwice(0, h.iram);
  }

  lemma HeaderOfEncoded(c: Context, rest: seq<byte>)
    requires WellFormed(c)
    ensures |Encoded(c) + rest| >= 40 && HeaderIn(Encoded(c) + rest) == HeaderOf(c)
  {
    hide Word, FromWord, Split, HeaderFrom, HeaderFields, BodyFields, GoodConstants;
    var b, h := Encoded(c) + rest, HeaderOf(c);
    FieldLengths(c);
    SplitFlatten(Fields(c), rest);
    FlattenLength(Fields(c));
    FileBody(b, h);
    HeaderFieldsFirst(c);
    HeaderRead(h);
  }

  /** For any accepted file, whatever sizes it states: the size function of its context is the number of
      bytes read exactly when the number of instructions, in the 29 bits that its size in bytes keeps of
      it, fits the 16-bit field of the context; and serialising the context gives back the bytes that
      were read exactly when that number fits as it is. */
  lemma Reserialised(b: seq<byte>)
    requires |b| < U32 && Parse(b).Success?
    ensures var p, iram := Parse(b).value, HeaderIn(b).iram;
      && p.consumed <= |b|
      && (SerializedSize(p.context) == p.consumed <==> iram % U29 < U16)
      && (WellFormed(p.context) && Encoded(p.context) == b[..p.consumed] <==> iram < U16)
  {
    hide Word, FromWord, Split, GoodConstants, HeaderFrom, ContextFrom, Sum, BodyLengths, BodyFields, HeaderFields;
    hide Made, FileSize, WellFormed, SerializedSize;
    HeaderSplit(b);
    var f, h := Split(b, HEADER_LENGTHS), HeaderIn(b);
    HeaderWritten(f);
    FileBody(b, h);
    FileSum(h);
    var fields := Split(b, FileLengths(h));
    var c := ContextFrom(h, fields[10..]);
    ParsedParts(h, fields[10..]);
    MadeSize(c, h);
    if h.iram < U16 {
      BodyWritten(h, fields[10..]);
      MadeWellFormed(c, h);
      assert Fields(c) == fields;
      FlattenOfSplit(b, FileLengths(h));
    } else if WellFormed(c) && Encoded(c) == b[..FileSize(h)] {
      HeaderOfEncoded(c, b[FileSize(h)..]);
      assert Encoded(c) + b[FileSize(h)..] == b;
      SmallField(c);
    }
  }

  lemma SmallField(c: Context)
    requires WellFormed(c)
    ensures HeaderOf(c).iram < U16
  {
  }

  // The same for a file that is taken as a whole.
  lemma ReserialisedWhole(b: seq<byte>)
    requires |b| < U32 && Parse(b).Success? && Parse(b).value.consumed == |b| >= 40
    ensures SerializedSize(Parse(b).value.context) == |b| <==> HeaderIn(b).iram % U29 < U16
    ensures WellFormed(Parse(b).value.context) && Encoded(Parse(b).value.context) == b <==> HeaderIn(b).iram < U16
  {
    hide Parse, Encoded, SerializedSize, WellFormed, HeaderIn;
    Reserialised(b);
    assert b[..|b|] == b;
  }

  // A file of a header and zero bytes.
  function ZeroFile(h: Header): seq<byte>
    requires h.Valid()
  {
    Flatten(HeaderFields(h)) + seq(FileSize(h) - 40, _ => 0)
  }

  lemma ZeroFileAccepted(h: Header)
    requires h.Valid()
    ensures var b := ZeroFile(h);
      |b| == FileSize(h) && Parse(b).Success? && Parse(b).value.consumed == |b| && HeaderIn(b) == h
  {
    hide Word, FromWord, Sum, Split, Flatten, BodyLengths, GoodConstants, HeaderFrom, ContextFrom, FileSize;
    var f, b := HeaderFields(h), ZeroFile(h);
    assert Lengths(f) == HEADER_LENGTHS;
    HeaderSum();
    FlattenLength(f);
    SplitFlatten(f, seq(FileSize(h) - 40, _ => 0));
    HeaderRead(h);
    FileSum(h);
    assert HeaderIn(b) == h;
    FileBody(b, h);
  }

  /** For instance: a file that states 65536 instructions is accepted, and the size function of its
      context is not the number of its bytes. */
  lemma ManyInstructions()
    ensures var b := ZeroFile(Header(0, 0, 0, U16, 0, 0));
      |b| == 524339 && Parse(b).Success? && SerializedSize(Parse(b).value.context) != |b|
  {
    var h := Header(0, 0, 0, U16, 0, 0);
    assert FileSize(h) == 524339;
    hide Parse, SerializedSize, ZeroFile, FileSize, WellFormed;
    ZeroFileAccepted(h);
    hide HeaderIn;
    ReserialisedWhole(ZeroFile(h));
  }

  /** It is for a file that states 2^29, whose size in bytes wraps to zero, but serialising its context
      does not give back the file. */
  lemma WrappedInstructions()
    ensures var b := ZeroFile(Header(0, 0, 0, U29, 0, 0));
      |b| == 51 && Parse(b).Success? && SerializedSize(Parse(b).value.context) == |b|
    ensures var b := ZeroFile(Header(0, 0, 0, U29, 0, 0));
      Parse(b).Success? && !(WellFormed(Parse(b).value.context) && Encoded(Parse(b).value.context) == b)
  {
    var h := Header(0, 0, 0, U29, 0, 0);
    assert FileSize(h) == 51;
    hide Parse, Encoded, SerializedSize, ZeroFile, FileSize, WellFormed;
    ZeroFileAccepted(h);
    hide HeaderIn;
    ReserialisedWhole(ZeroFile(h));
  }

  // ----- the program

  // A cursor that writes one field after the other.
  class Writer {
    const buffer: array<byte>
    var curr: nat
    ghost var fields: seq<seq<byte>>

    ghost predicate Valid()
      reads this, buffer
    {
      curr <= buffer.Length && buffer[..curr] == Flatten(fields)
    }

    constructor (buffer: array<byte>)
      ensures this.buffer == buffer && Valid() && curr == 0 && fields == []
    {
      this.buffer := buffer;
      curr, fields := 0, [];
    }

    // SERIALIZED_ELEM
    method Put(elem: seq<byte>)
      requires Valid() && curr + |elem| <= buffer.Length
      modifies this, buffer
      ensures Valid() && curr == old(curr) + |elem| && fields == old(fields) + [elem]
    {
      FlattenSnoc(fields, elem);
      forall i | 0 <= i < |elem| {
        buffer[curr + i] := elem[i];
      }
      curr := curr + |elem|;
      fields := fields + [elem];
      assert buffer[..curr] == old(buffer[..curr]) + elem;
    }
  }

  method PutPreamble(w: Writer)
    requires w.Valid() && w.curr == 0 && w.fields == [] && w.buffer.Length >= 40
    modifies w, w.buffer
    ensures w.Valid() && w.curr == 16 && w.fields == [Word(MAGIC), Word(CHIP_VERSION), Word(VERSION), Word(MAGIC)]
  {
    hide Word, Flatten, Writer.Valid;
    w.Put(Word(MAGIC));
    w.Put(Word(CHIP_VERSION));
    w.Put(Word(VERSION));
    w.Put(Word(MAGIC));
  }

  method PutHeader(w: Writer, h: Header)
    requires w.Valid() && w.curr == 0 && w.fields == [] && w.buffer.Length >= 40 && h.Valid()
    modifies w, w.buffer
    ensures w.Valid() && w.curr == 40 && w.fields == HeaderFields(h)
  {
    hide Word, Flatten, Writer.Valid;
    PutPreamble(w);
    w.Put(Word(h.nrThreads));
    w.Put(Word(h.nrRegisters));
    w.Put(Word(h.nrAtomicBits));
    w.Put(Word(h.iram));
    w.Put(Word(h.mram));
    w.Put(Word(h.wram));
  }

  // The length of the arrays.
  function ArraysSize(c: Context): nat {
    |BytesOf(c.iram)| + |BytesOf(c.mram)| + |BytesOf(c.wram)| + |c.registers| + |c.pcs| + |c.atomicRegister|
    + |c.zeroFlags| + |c.carryFlags|
  }

  method PutMemories(w: Writer, c: Context)
    requires w.Valid() && w.curr + |BytesOf(c.iram)| + |BytesOf(c.mram)| + |BytesOf(c.wram)| <= w.buffer.Length
    modifies w, w.buffer
    ensures w.Valid()
    ensures w.curr == old(w.curr) + |BytesOf(c.iram)| + |BytesOf(c.mram)| + |BytesOf(c.wram)|
    ensures w.fields == old(w.fields) + [BytesOf(c.iram), BytesOf(c.mram), BytesOf(c.wram)]
  {
    hide Flatten, Writer.Valid, BytesOf;
    w.Put(BytesOf(c.iram));
    w.Put(BytesOf(c.mram));
    w.Put(BytesOf(c.wram));
  }

  method PutArrays(w: Writer, c: Context)
    requires w.Valid() && w.curr + ArraysSize(c) <= w.buffer.Length
    modifies w, w.buffer
    ensures w.Valid() && w.curr == old(w.curr) + ArraysSize(c)
    ensures w.fields == old(w.fields)
      + [BytesOf(c.iram), BytesOf(c.mram), BytesOf(c.wram), c.registers, c.pcs, c.atomicRegister, c.zeroFlags,
         c.carryFlags]
  {
    hide Flatten, Writer.Valid, BytesOf;
    PutMemories(w, c);
    w.Put(c.registers);
    w.Put(c.pcs);
    w.Put(c.atomicRegister);
    w.Put(c.zeroFlags);
    w.Put(c.carryFlags);
  }

  method PutScheduling(w: Writer, c: Context)
    requires w.Valid() && w.curr + |c.scheduling| + 1 <= w.buffer.Length
    modifies w, w.buffer
    ensures w.Valid() && w.curr == old(w.curr) + |c.scheduling| + 1
    ensures w.fields == old(w.fields) + [[c.nrOfRunningThreads], c.scheduling]
  {
    hide Flatten, Writer.Valid;
    w.Put([c.nrOfRunningThreads]);
    w.Put(c.scheduling);
  }

  method PutFaults(w: Writer, c: Context)
    requires w.Valid() && c.bkpFaultId < U32 && w.curr + 10 <= w.buffer.Length
    modifies w, w.buffer
    ensures w.Valid()
    ensures w.fields == old(w.fields)
      + [[c.bkpFault], [c.dmaFault], [c.memFault],
         [c.bkpFaultThreadIndex], [c.dmaFaultThreadIndex], [c.memFaultThreadIndex], Word(c.bkpFaultId)]
  {
    hide Flatten, Writer.Valid, Word;
    w.Put([c.bkpFault]);
    w.Put([c.dmaFault]);
    w.Put([c.memFault]);
    w.Put([c.bkpFaultThreadIndex]);
    w.Put([c.dmaFaultThreadIndex]);
    w.Put([c.memFaultThreadIndex]);
    w.Put(Word(c.bkpFaultId));
  }

  method PutBody(w: Writer, c: Context)
    requires w.Valid() && WellFormed(c) && w.curr == 40
    requires w.fields == HeaderFields(HeaderOf(c)) && w.buffer.Length == SerializedSize(c)
    modifies w, w.buffer
    ensures w.Valid() && w.fields == Fields(c)
  {
    StatedSizes(c);
    hide Word, Flatten, HeaderFields, BytesOf, Bytes32, SerializedSize, Writer.Valid;
    ghost var header := w.fields;
    PutArrays(w, c);
    PutScheduling(w, c);
    PutFaults(w, c);
    assert w.fields == header + BodyFields(c);
  }

  /** dpu_checkpoint_serialize: given stands for the caller's buffer, null for none. */
  method Serialize(c: Context, given: array?<byte>) returns (r: Result<array<byte>>)
    requires WellFormed(c)
    modifies if given == null then {} else {given}
    ensures given != null && given.Length != SerializedSize(c) ==> r == InvalidBufferSize && unchanged(given)
    ensures given == null || given.Length == SerializedSize(c) ==>
      && r.Success?
      && (given != null ==> r.value == given)
      && r.value[..] == Encoded(c)
  {
    hide SerializedSize, Flatten, Fields, HeaderFields;
    var size := SerializedSize(c);
    var serialized: array<byte>;
    if given == null {
      serialized := new byte[size];
    } else if given.Length != size {
      return InvalidBufferSize;
    } else {
      serialized := given;
    }
    StatedSizes(c);
    SizeIsLength(c);
    HeaderFits(c);
    var w := new Writer(serialized);
    PutHeader(w, HeaderOf(c));
    PutBody(w, c);
    FlattenLength(w.fields);
    EncodedAll(serialized[..], w.curr, c);
    r := Success(serialized);
  }

  lemma HeaderFits(c: Context)
    requires WellFormed(c)
    ensures HeaderOf(c).Valid()
  {
  }

  lemma EncodedAll(b: seq<byte>, curr: nat, c: Context)
    requires WellFormed(c) && curr <= |b| == |Encoded(c)| && b[..curr] == Encoded(c)
    ensures b == Encoded(c)
  {
    assert curr == |b[..curr]| == |b|;
    assert b[..curr] == b;
  }

  // A cursor that reads one field after the other.
  class Reader {
    const data: seq<byte>
    var pos: nat
    ghost var fields: seq<seq<byte>>

    ghost predicate Valid()
      reads this
    {
      pos <= |data| && data[..pos] == Flatten(fields)
    }

    constructor (data: seq<byte>)
      ensures this.data == data && Valid() && pos == 0 && fields == []
    {
      this.data, pos, fields := data, 0, [];
    }

    // The word at the cursor, whatever is in memory there when the data end before it.
    method Peek() returns (word: nat)
      requires Valid()
      ensures pos + 4 <= |data| ==> word == FromWord(data[pos..pos + 4])
    {
      if pos + 4 <= |data| {
        word := FromWord(data[pos..pos + 4]);
      } else {
        word := *;
      }
    }

    // DESERIALIZED_ELEM: the element is copied, then the cursor is checked against the end.
    method Elem(n: nat) returns (ok: bool, elem: seq<byte>)
      requires Valid()
      modifies this
      ensures ok <==> old(pos) + n <= |data|
      ensures ok ==> Valid() && pos == old(pos) + n
      ensures ok ==> elem == data[old(pos)..pos] && fields == old(fields) + [elem]
    {
      elem := if pos + n <= |data| then data[pos..pos + n] else [];
      ghost var start := pos;
      pos := pos + n;
      ok := !(|data| < pos);
      if ok {
        FlattenSnoc(fields, elem);
        fields := fields + [elem];
        assert data[..pos] == data[..start] + elem;
      }
    }

    // A memory of size 0 is not read at all.
    method Memory(size: nat, n: nat) returns (ok: bool, memory: Option<seq<byte>>, ghost elem: seq<byte>)
      requires Valid() && (size == 0 ==> n == 0)
      modifies this
      ensures ok <==> old(pos) + n <= |data|
      ensures ok ==> Valid() && pos == old(pos) + n
      ensures ok ==> |elem| == n && fields == old(fields) + [elem] && memory == MemoryFrom(size, elem)
    {
      ok, memory, elem := true, None, [];
      if size != 0 {
        var read;
        ok, read := Elem(n);
        memory, elem := Some(read), read;
      } else {
        FlattenSnoc(fields, []);
        fields := fields + [[]];
      }
    }
  }

  lemma HeaderSlice(b: seq<byte>, k: nat)
    requires |b| >= 40 && k < 10
    ensures Sum(HEADER_LENGTHS) == 40 && Split(b, HEADER_LENGTHS)[k] == b[4 * k..4 * k + 4]
  {
    hide Sum, Split;
    HeaderSum();
    SplitFours(b, HEADER_LENGTHS, k);
  }

  lemma {:induction false} SplitFours(b: seq<byte>, l: seq<nat>, k: nat)
    requires Sum(l) <= |b| && k < |l| && forall i :: 0 <= i < |l| ==> l[i] == 4
    ensures 4 * k + 4 <= |b| && Split(b, l)[k] == b[4 * k..4 * k + 4]
  {
    if k > 0 {
      SplitFours(b[4..], l[1..], k - 1);
    } else {
      assert Split(b, l)[0] == b[..4];
    }
  }

  // One of the four constants at the start of a file.
  method CheckConstant(r: Reader, k: nat, constant: nat) returns (ok: bool)
    requires r.Valid() && r.pos == 4 * k && k < 4
    modifies r
    ensures ok ==>
      && r.Valid() && r.pos == 4 * k + 4 <= |r.data| && r.fields == old(r.fields) + [r.data[4 * k..4 * k + 4]]
      && FromWord(r.data[4 * k..4 * k + 4]) == constant
    ensures !ok ==> |r.data| < 4 * k + 4 || FromWord(r.data[4 * k..4 * k + 4]) != constant
  {
    hide FromWord, Flatten;
    var word := r.Peek();
    if word != constant {
      return false;
    }
    var elem;
    ok, elem := r.Elem(4);
  }

  // A word of the header.
  method ReadWord(r: Reader, k: nat) returns (ok: bool, n: nat)
    requires r.Valid() && r.pos == 4 * k
    modifies r
    ensures ok <==> 4 * k + 4 <= |r.data|
    ensures ok ==>
      && r.Valid() && r.pos == 4 * k + 4 && r.fields == old(r.fields) + [r.data[4 * k..4 * k + 4]]
      && n == FromWord(r.data[4 * k..4 * k + 4]) && n < U32
  {
    hide Flatten;
    var elem;
    ok, elem := r.Elem(4);
    n := if ok then FromWord(elem) else 0;
  }

  // The file starts with a good header that says h.
  ghost predicate HeaderIs(b: seq<byte>, h: Header) {
    && |b| >= 40 && Sum(HEADER_LENGTHS) == 40
    && (forall k :: 0 <= k < 10 ==> |Split(b, HEADER_LENGTHS)[k]| == 4)
    && GoodConstants(Split(b, HEADER_LENGTHS))
    && h == HeaderFrom(Split(b, HEADER_LENGTHS))
  }

  ghost predicate HasHeader(r: Reader, h: Header)
    reads r
  {
    HeaderIs(r.data, h) && r.Valid() && r.pos == 40 && Lengths(r.fields) == HEADER_LENGTHS
  }

  // The words of a file that is long enough to have a header.
  ghost predicate WordsAt(b: seq<byte>)
    requires |b| >= 40
  {
    && Sum(HEADER_LENGTHS) == 40 && |Split(b, HEADER_LENGTHS)| == 10
    && forall k: nat :: k < 10 ==> Split(b, HEADER_LENGTHS)[k] == b[4 * k..4 * k + 4]
  }

  lemma HeaderWords(b: seq<byte>)
    requires |b| >= 40
    ensures WordsAt(b)
  {
    HeaderSplit(b);
    forall k: nat | k < 10
      ensures Split(b, HEADER_LENGTHS)[k] == b[4 * k..4 * k + 4]
    {
      HeaderSlice(b, k);
    }
  }

  lemma ShortHeader(b: seq<byte>, k: nat)
    requires k < 10 && |b| < 4 * k + 4
    ensures Parse(b) == InvalidFile
  {
  }

  lemma BadConstant(b: seq<byte>, k: nat)
    requires k < 4 && |b| >= 4 * k + 4
    requires FromWord(b[4 * k..4 * k + 4]) != [MAGIC, CHIP_VERSION, VERSION, MAGIC][k]
    ensures Parse(b) == InvalidFile
  {
    hide Split, FromWord;
    if |b| >= 40 {
      HeaderWords(b);
    }
  }

  predicate ConstantsAt(b: seq<byte>)
    requires |b| >= 16
  {
    && FromWord(b[0..4]) == MAGIC && FromWord(b[4..8]) == CHIP_VERSION
    && FromWord(b[8..12]) == VERSION && FromWord(b[12..16]) == MAGIC
  }

  method ReadConstants(r: Reader) returns (ok: bool)
    requires r.Valid() && r.pos == 0 && r.fields == []
    modifies r
    ensures !ok ==> Parse(r.data) == InvalidFile
    ensures ok ==>
      r.Valid() && r.pos == 16 <= |r.data| && Lengths(r.fields) == [4, 4, 4, 4] && ConstantsAt(r.data)
  {
    hide FromWord, Flatten, Split, Reader.Valid, Parse;
    ok := CheckConstant(r, 0, MAGIC);
    if !ok { ConstantFails(r.data, 0); return; }
    ok := CheckConstant(r, 1, CHIP_VERSION);
    if !ok { ConstantFails(r.data, 1); return; }
    ok := CheckConstant(r, 2, VERSION);
    if !ok { ConstantFails(r.data, 2); return; }
    ok := CheckConstant(r, 3, MAGIC);
    if !ok { ConstantFails(r.data, 3); return; }
  }

  lemma ConstantFails(b: seq<byte>, k: nat)
    requires k < 4
    requires |b| < 4 * k + 4 || FromWord(b[4 * k..4 * k + 4]) != [MAGIC, CHIP_VERSION, VERSION, MAGIC][k]
    ensures Parse(b) == InvalidFile
  {
    hide Parse, FromWord;
    if |b| < 4 * k + 4 {
      ShortHeader(b, k);
    } else {
      BadConstant(b, k);
    }
  }

  method ReadWords(r: Reader) returns (ok: bool, h: Header)
    requires r.Valid() && r.pos == 16 && Lengths(r.fields) == [4, 4, 4, 4]
    modifies r
    ensures !ok ==> |r.data| < 40
    ensures ok ==>
      && r.Valid() && r.pos == 40 <= |r.data| && Lengths(r.fields) == HEADER_LENGTHS && h.Valid()
      && h == Header(FromWord(r.data[16..20]), FromWord(r.data[20..24]), FromWord(r.data[24..28]),
                     FromWord(r.data[28..32]), FromWord(r.data[32..36]), FromWord(r.data[36..40]))
  {
    hide FromWord, Flatten, Reader.Valid;
    h := Header(0, 0, 0, 0, 0, 0);
    var nrThreads, nrRegisters, nrAtomicBits, iram, mram, wram;
    ok, nrThreads := ReadWord(r, 4);
    if !ok { return; }
    ok, nrRegisters := ReadWord(r, 5);
    if !ok { return; }
    ok, nrAtomicBits := ReadWord(r, 6);
    if !ok { return; }
    ok, iram := ReadWord(r, 7);
    if !ok { return; }
    ok, mram := ReadWord(r, 8);
    if !ok { return; }
    ok, wram := ReadWord(r, 9);
    if !ok { return; }
    h := Header(nrThreads, nrRegisters, nrAtomicBits, iram, mram, wram);
  }

  lemma HeaderAgrees(b: seq<byte>)
    requires |b| >= 40 && ConstantsAt(b)
    ensures HeaderIs(b, Header(FromWord(b[16..20]), FromWord(b[20..24]), FromWord(b[24..28]),
                               FromWord(b[28..32]), FromWord(b[32..36]), FromWord(b[36..40])))
  {
    hide FromWord, Split, Sum;
    HeaderWords(b);
    HeaderSplit(b);
    var f := Split(b, HEADER_LENGTHS);
    assert f[0] == b[0..4] && f[1] == b[4..8] && f[2] == b[8..12] && f[3] == b[12..16] && f[4] == b[16..20];
    assert f[5] == b[20..24] && f[6] == b[24..28] && f[7] == b[28..32] && f[8] == b[32..36] && f[9] == b[36..40];
  }

  method ReadHeader(r: Reader) returns (ok: bool, h: Header)
    requires r.Valid() && r.pos == 0 && r.fields == []
    modifies r
    ensures !ok ==> Parse(r.data) == InvalidFile
    ensures ok ==> HasHeader(r, h) && h.Valid()
  {
    hide FromWord, Flatten, Split, Reader.Valid, GoodConstants, HeaderFrom, Parse;
    h := Header(0, 0, 0, 0, 0, 0);
    ok := ReadConstants(r);
    if !ok { return; }
    ok, h := ReadWords(r);
    if ok {
      HeaderAgrees(r.data);
    } else {
      ShortHeader(r.data, 9);
    }
  }

  // The header and the first k fields of the body have been read.
  ghost predicate ReadUpTo(r: Reader, h: Header, k: nat)
    reads r
  {
    && k <= 17 && r.Valid()
    && Lengths(r.fields) == FileLengths(h)[..10 + k]
    && r.pos == Sum(FileLengths(h)[..10 + k])
    && |r.data| >= 40 && HeaderIn(r.data) == h && GoodHeader(r.data)
  }

  ghost predicate GoodHeader(b: seq<byte>)
    requires |b| >= 40
  {
    HeaderSplit(b);
    GoodConstants(Split(b, HEADER_LENGTHS))
  }

  lemma HeaderRead10(r: Reader, h: Header)
    requires HasHeader(r, h)
    ensures ReadUpTo(r, h, 0) && |r.fields| == 10
  {
    hide BodyLengths;
    FlattenLength(r.fields);
    HeaderSplit(r.data);
    assert FileLengths(h)[..10] == HEADER_LENGTHS;
    var f := Split(r.data, HEADER_LENGTHS);
    SplitFlatten(r.fields, r.data[r.pos..]);
    assert r.data == r.data[..r.pos] + r.data[r.pos..];
  }

  lemma {:induction false} SumPrefix(l: seq<nat>, k: nat)
    requires k <= |l|
    ensures Sum(l[..k]) <= Sum(l)
    ensures k < |l| ==> Sum(l[..k + 1]) == Sum(l[..k]) + l[k]
  {
    SumAppend(l[..k], l[k..]);
    assert l == l[..k] + l[k..];
    if k < |l| {
      SumAppend(l[..k], [l[k]]);
      assert l[..k + 1] == l[..k] + [l[k]];
      assert Sum([l[k]]) == l[k] + Sum([]);
    }
  }

  lemma ShortFile(b: seq<byte>)
    requires |b| >= 40 && GoodHeader(b) && |b| < Sum(FileLengths(HeaderIn(b)))
    ensures Parse(b) == InvalidFile
  {
    hide BodyLengths, Split, Sum;
  }

  lemma OneMoreField(l: seq<nat>, fields: seq<seq<byte>>, elem: seq<byte>, k: nat)
    requires k < |l| && Lengths(fields) == l[..k] && |elem| == l[k]
    ensures Lengths(fields + [elem]) == l[..k + 1]
  {
    assert Lengths(fields + [elem]) == Lengths(fields) + [|elem|];
  }

  // Field k of the body.
  method ReadField(r: Reader, h: Header, k: nat) returns (ok: bool, elem: seq<byte>)
    requires k < 17 && ReadUpTo(r, h, k)
    modifies r
    ensures ok ==> ReadUpTo(r, h, k + 1) && r.fields == old(r.fields) + [elem] && |elem| == BodyLengths(h)[k]
    ensures !ok ==> Parse(r.data) == InvalidFile
  {
    hide Flatten, FromWord, Split, Sum, Parse, BodyLengths;
    ghost var l, fields := FileLengths(h), r.fields;
    FileLength17(h, k);
    SumPrefix(l, 10 + k);
    SumPrefix(l, 11 + k);
    ok, elem := r.Elem(BodyLengths(h)[k]);
    if ok {
      OneMoreField(l, fields, elem, 10 + k);
    } else {
      ShortFile(r.data);
    }
  }

  lemma FileLength17(h: Header, k: nat)
    requires k < 17
    ensures |BodyLengths(h)| == 17 && |FileLengths(h)| == 27 && FileLengths(h)[10 + k] == BodyLengths(h)[k]
  {
  }

  // Field k of the body, a memory that is not read at all when its size is 0.
  method ReadMemory(r: Reader, h: Header, k: nat, size: nat)
    returns (ok: bool, memory: Option<seq<byte>>, ghost elem: seq<byte>)
    requires k < 3 && ReadUpTo(r, h, k)
    requires size == 0 ==> BodyLengths(h)[k] == 0
    modifies r
    ensures ok ==> ReadUpTo(r, h, k + 1) && r.fields == old(r.fields) + [elem] && memory == MemoryFrom(size, elem)
    ensures ok ==> |elem| == BodyLengths(h)[k]
    ensures !ok ==> Parse(r.data) == InvalidFile
  {
    hide Flatten, FromWord, Split, Sum, Parse, BodyLengths;
    ghost var l, fields := FileLengths(h), r.fields;
    FileLength17(h, k);
    SumPrefix(l, 10 + k);
    SumPrefix(l, 11 + k);
    ok, memory, elem := r.Memory(size, BodyLengths(h)[k]);
    if ok {
      OneMoreField(l, fields, elem, 10 + k);
    } else {
      ShortFile(r.data);
    }
  }

  lemma ParsedFields(r: Reader, h: Header, body: seq<seq<byte>>)
    requires ReadUpTo(r, h, 17) && r.fields[10..] == body
    ensures Lengths(body) == BodyLengths(h)
    ensures Parse(r.data) == Success(Parsed(ContextFrom(h, body), r.pos))
  {
    hide BodyLengths, FromWord, ContextFrom;
    FileLength17(h, 0);
    var l := FileLengths(h);
    assert l[..27] == l;
    SplitFlatten(r.fields, r.data[r.pos..]);
    assert r.data == r.data[..r.pos] + r.data[r.pos..];
    FileBody(r.data, h);
  }

  lemma ZeroSizes(h: Header)
    ensures h.iram == 0 ==> BodyLengths(h)[0] == 0
    ensures h.mram == 0 ==> BodyLengths(h)[1] == 0
    ensures h.wram == 0 ==> BodyLengths(h)[2] == 0
    ensures forall k :: 10 <= k < 16 || k == 8 ==> BodyLengths(h)[k] == 1
    ensures BodyLengths(h)[16] == 4
  {
  }

  // The three memories.
  method ReadMemories(r: Reader, h: Header)
    returns (ok: bool, iram: Option<seq<byte>>, mram: Option<seq<byte>>, wram: Option<seq<byte>>,
             ghost f: seq<seq<byte>>)
    requires ReadUpTo(r, h, 0)
    modifies r
    ensures ok ==> ReadUpTo(r, h, 3) && |f| == 3 && r.fields == old(r.fields) + f
    ensures ok ==>
      && iram == MemoryFrom(h.iram, f[0])
      && mram == MemoryFrom(h.mram, f[1])
      && wram == MemoryFrom(h.wram, f[2])
    ensures !ok ==> Parse(r.data) == InvalidFile
  {
    hide Parse, ReadUpTo, BodyLengths, MemoryFrom;
    ZeroSizes(h);
    iram, mram, wram, f := None, None, None, [];
    ghost var f0, f1, f2;
    ok, iram, f0 := ReadMemory(r, h, 0, h.iram);
    if !ok { return; }
    ok, mram, f1 := ReadMemory(r, h, 1, h.mram);
    if !ok { return; }
    ok, wram, f2 := ReadMemory(r, h, 2, h.wram);
    f := [f0, f1, f2];
  }

  // The arrays of registers, program counters, atomic bits and flags.
  method ReadArrays(r: Reader, h: Header)
    returns (ok: bool, registers: seq<byte>, pcs: seq<byte>, atomicRegister: seq<byte>, zeroFlags: seq<byte>,
             carryFlags: seq<byte>)
    requires ReadUpTo(r, h, 3)
    modifies r
    ensures ok ==>
      && ReadUpTo(r, h, 8)
      && r.fields == old(r.fields) + [registers, pcs, atomicRegister, zeroFlags, carryFlags]
      && |registers| == BodyLengths(h)[3] && |pcs| == BodyLengths(h)[4]
      && |atomicRegister| == BodyLengths(h)[5]
      && |zeroFlags| == BodyLengths(h)[6] && |carryFlags| == BodyLengths(h)[7]
    ensures !ok ==> Parse(r.data) == InvalidFile
  {
    hide Parse, ReadUpTo, BodyLengths;
    registers, pcs, atomicRegister, zeroFlags, carryFlags := [], [], [], [], [];
    ok, registers := ReadField(r, h, 3);
    if !ok { return; }
    ok, pcs := ReadField(r, h, 4);
    if !ok { return; }
    ok, atomicRegister := ReadField(r, h, 5);
    if !ok { return; }
    ok, zeroFlags := ReadField(r, h, 6);
    if !ok { return; }
    ok, carryFlags := ReadField(r, h, 7);
  }

  // The scheduling.
  method ReadScheduling(r: Reader, h: Header) returns (ok: bool, running: seq<byte>, scheduling: seq<byte>)
    requires ReadUpTo(r, h, 8)
    modifies r
    ensures ok ==> ReadUpTo(r, h, 10) && r.fields == old(r.fields) + [running, scheduling]
    ensures ok ==> |running| == BodyLengths(h)[8] && |scheduling| == BodyLengths(h)[9]
    ensures !ok ==> Parse(r.data) == InvalidFile
  {
    hide Parse, ReadUpTo, BodyLengths;
    running, scheduling := [], [];
    ok, running := ReadField(r, h, 8);
    if !ok { return; }
    ok, scheduling := ReadField(r, h, 9);
  }

  // The faults.
  method ReadFaults(r: Reader, h: Header)
    returns (ok: bool, bkpFault: seq<byte>, dmaFault: seq<byte>, memFault: seq<byte>,
             bkpIndex: seq<byte>, dmaIndex: seq<byte>, memIndex: seq<byte>, bkpFaultId: seq<byte>)
    requires ReadUpTo(r, h, 10)
    modifies r
    ensures ok ==>
      && ReadUpTo(r, h, 17)
      && r.fields == old(r.fields) + [bkpFault, dmaFault, memFault, bkpIndex, dmaIndex, memIndex, bkpFaultId]
      && |bkpFault| == BodyLengths(h)[10] && |dmaFault| == BodyLengths(h)[11] && |memFault| == BodyLengths(h)[12]
      && |bkpIndex| == BodyLengths(h)[13] && |dmaIndex| == BodyLengths(h)[14] && |memIndex| == BodyLengths(h)[15]
      && |bkpFaultId| == BodyLengths(h)[16]
    ensures !ok ==> Parse(r.data) == InvalidFile
  {
    hide Parse, ReadUpTo, BodyLengths;
    bkpFault, dmaFault, memFault, bkpIndex, dmaIndex, memIndex, bkpFaultId := [], [], [], [], [], [], [];
    ok, bkpFault := ReadField(r, h, 10);
    if !ok { return; }
    ok, dmaFault := ReadField(r, h, 11);
    if !ok { return; }
    ok, memFault := ReadField(r, h, 12);
    if !ok { return; }
    ok, bkpIndex := ReadField(r, h, 13);
    if !ok { return; }
    ok, dmaIndex := ReadField(r, h, 14);
    if !ok { return; }
    ok, memIndex := ReadField(r, h, 15);
    if !ok { return; }
    ok, bkpFaultId := ReadField(r, h, 16);
  }

  /** dpu_checkpoint_deserialize */
  method Deserialize(data: seq<byte>) returns (result: Result<Context>)
    ensures result == match Parse(data)
      case Success(p) => Success(p.context)
      case InvalidFile => InvalidFile
      case InvalidBufferSize => InvalidBufferSize
  {
    hide Parse, Split, Flatten, FromWord, Reader.Valid, ReadUpTo, HasHeader, BodyLengths, MemoryFrom;
    var r := new Reader(data);
    var ok, h := ReadHeader(r);
    if !ok { return InvalidFile; }
    HeaderRead10(r, h);
    ghost var header := r.fields;
    var iram, mram, wram;
    ghost var f;
    ok, iram, mram, wram, f := ReadMemories(r, h);
    if !ok { return InvalidFile; }
    var registers, pcs, atomicRegister, zeroFlags, carryFlags;
    ok, registers, pcs, atomicRegister, zeroFlags, carryFlags := ReadArrays(r, h);
    if !ok { return InvalidFile; }
    var running, scheduling;
    ok, running, scheduling := ReadScheduling(r, h);
    if !ok { return InvalidFile; }
    var bkpFault, dmaFault, memFault, bkpIndex, dmaIndex, memIndex, bkpFaultId;
    ok, bkpFault, dmaFault, memFault, bkpIndex, dmaIndex, memIndex, bkpFaultId := ReadFaults(r, h);
    if !ok { return InvalidFile; }
    ghost var body := f + [registers, pcs, atomicRegister, zeroFlags, carryFlags] + [running, scheduling]
      + [bkpFault, dmaFault, memFault, bkpIndex, dmaIndex, memIndex, bkpFaultId];
    assert r.fields == header + body;
    assert r.fields[10..] == body;
    ZeroSizes(h);
    ParsedFields(r, h, body);
    result := Success(Context(
      Info(h.nrThreads, h.nrRegisters, h.nrAtomicBits, h.iram % U16, h.mram, h.wram),
      iram, mram, wram, registers, pcs, atomicRegister, zeroFlags, carryFlags, running[0], scheduling,
      bkpFault[0], dmaFault[0], memFault[0], bkpIndex[0], dmaIndex[0], memIndex[0], FromWord(bkpFaultId)));
  }
}
