/** Calibration of the wire between the host and the DPUs: finding, from one received word, how the
    wire permutes the bits of each nibble, and undoing it. */
module BitConfig {

  // ----- permutation codes: two bits per source bit, holding the position the bit goes to

  predicate IsPermutation(code: bv8) {
    && code & 3 != (code >> 2) & 3 && code & 3 != (code >> 4) & 3 && code & 3 != (code >> 6) & 3
    && (code >> 2) & 3 != (code >> 4) & 3 && (code >> 2) & 3 != (code >> 6) & 3
    && (code >> 4) & 3 != (code >> 6) & 3
  }

  // The state of the loop of get_reciprocal, with steps iterations to go.
  function ReciprocalFrom(code: bv8, reciproc: bv8, i: bv8, steps: nat): bv8
    decreases steps
  {
    if steps == 0 then reciproc
    else ReciprocalFrom(code >> 2, reciproc | (i << ((code & 3) << 1)), i + 1, steps - 1)
  }

  function Reciprocal(code: bv8): bv8 {
    ReciprocalFrom(code, 0, 0, 4)
  }

  method GetReciprocal(code: bv8) returns (reciproc: bv8)
    ensures reciproc == Reciprocal(code)
  {
    reciproc := 0;
    var rest, i: bv8 := code, 0;
    for step := 0 to 4
      invariant ReciprocalFrom(rest, reciproc, i, 4 - step) == Reciprocal(code)
    {
      var index := rest & 3;
      rest := rest >> 2;
      reciproc := reciproc | (i << (index << 1));
      i := i + 1;
    }
  }

  lemma ReciprocalUnrolled(code: bv8)
    ensures Reciprocal(code)
         == (1 << (((code >> 2) & 3) << 1)) | (2 << (((code >> 4) & 3) << 1)) | (3 << (((code >> 6) & 3) << 1))
  {
    assert Reciprocal(code) == ReciprocalFrom(code >> 2, 0 | (0 << ((code & 3) << 1)), 1, 3);
  }

  function Position(code: bv8, t: bv8): (p: bv8)
    requires t < 4
    ensures p < 4
  {
    (code >> (t << 1)) & 3
  }

  /** get_reciprocal inverts every permutation code. */
  lemma ReciprocalInverts(code: bv8)
    requires IsPermutation(code)
    ensures IsPermutation(Reciprocal(code))
    ensures Reciprocal(Reciprocal(code)) == code
    ensures forall t: bv8 :: t < 4 ==> Position(Reciprocal(code), Position(code, t)) == t
  {
    ReciprocalUnrolled(code);
    ReciprocalUnrolled(Reciprocal(code));
  }

  // ----- shuffling a word: the bits within each nibble, and the nibbles within each byte

  function ShuffledBit(code: bv8, nibble: bv8, t: nat): bv8
    requires t < 4
  {
    match t
    case 0 => (nibble & 1) << (code & 3)
    case 1 => ((nibble >> 1) & 1) << ((code >> 2) & 3)
    case 2 => ((nibble >> 2) & 1) << ((code >> 4) & 3)
    case _ => ((nibble >> 3) & 1) << ((code >> 6) & 3)
  }

  function ShuffledBits(code: bv8, nibble: bv8, count: nat): bv8
    requires count <= 4
  {
    if count == 0 then 0 else ShuffledBits(code, nibble, count - 1) | ShuffledBit(code, nibble, count - 1)
  }

  function ShuffledNibble(code: bv8, nibble: bv8): bv8 {
    ShuffledBits(code, nibble, 4)
  }

  function NibbleOf(value: bv8, n: nat): bv8
    requires n < 2
  {
    if n == 0 then value & 0xF else (value >> 4) & 0xF
  }

  // The transformation of nibble n: one byte of the 16-bit configuration.
  function CodeOf(codes: bv16, n: nat): bv8
    requires n < 2
  {
    if n == 0 then (codes & 0xFF) as bv8 else ((codes >> 8) & 0xFF) as bv8
  }

  function AtNibble(nibble: bv8, swap: bool, n: nat): bv8
    requires n < 2
  {
    if (if swap then (n + 1) % 2 else n) == 0 then nibble else nibble << 4
  }

  function ShuffledNibbles(codes: bv16, swap: bool, value: bv8, count: nat): bv8
    requires count <= 2
  {
    if count == 0 then 0 else
      ShuffledNibbles(codes, swap, value, count - 1)
      | AtNibble(ShuffledNibble(CodeOf(codes, count - 1), NibbleOf(value, count - 1)), swap, count - 1)
  }

  function ShuffledByte(codes: bv16, swap: bool, value: bv8): bv8 {
    ShuffledNibbles(codes, swap, value, 2)
  }

  function ByteOf(value: bv32, n: nat): bv8
    requires n < 4
  {
    match n
    case 0 => (value & 0xFF) as bv8
    case 1 => ((value >> 8) & 0xFF) as bv8
    case 2 => ((value >> 16) & 0xFF) as bv8
    case _ => ((value >> 24) & 0xFF) as bv8
  }

  function AtByte(value: bv8, n: nat): bv32
    requires n < 4
  {
    match n
    case 0 => value as bv32
    case 1 => (value as bv32) << 8
    case 2 => (value as bv32) << 16
    case _ => (value as bv32) << 24
  }

  function ShuffledBytes(codes: bv16, swap: bool, value: bv32, count: nat): bv32
    requires count <= 4
  {
    if count == 0 then 0 else
      ShuffledBytes(codes, swap, value, count - 1)
      | AtByte(ShuffledByte(codes, swap, ByteOf(value, count - 1)), count - 1)
  }

  function Shuffled(codes: bv16, swap: bool, value: bv32): bv32 {
    ShuffledBytes(codes, swap, value, 4)
  }

  method Shuffle(codes: bv16, swap: bool, value: bv32) returns (result: bv32)
    ensures result == Shuffled(codes, swap, value)
  {
    hide ShuffledBit, NibbleOf, AtNibble, CodeOf, ByteOf, AtByte;
    result := 0;
    for byteId := 0 to 4
      invariant result == ShuffledBytes(codes, swap, value, byteId)
    {
      var byteValue := ByteOf(value, byteId);
      var byteTransformed: bv8 := 0;
      for nibbleId := 0 to 2
        invariant byteTransformed == ShuffledNibbles(codes, swap, byteValue, nibbleId)
      {
        var nibbleValue := NibbleOf(byteValue, nibbleId);
        var nibbleTransformed: bv8 := 0;
        var nibbleTransformation := CodeOf(codes, nibbleId);
        for transformationId := 0 to 4
          invariant nibbleTransformed == ShuffledBits(nibbleTransformation, nibbleValue, transformationId)
        {
          nibbleTransformed := nibbleTransformed | ShuffledBit(nibbleTransformation, nibbleValue, transformationId);
        }
        byteTransformed := byteTransformed | AtNibble(nibbleTransformed, swap, nibbleId);
      }
      result := result | AtByte(byteTransformed, byteId);
    }
  }

  // ----- the configuration

  class BitConfig {
    var cpu2dpu: bv16
    var dpu2cpu: bv16
    var nibbleSwap: bv8

    method Compute(bitOrderResult: bv32)
      modifies this
      ensures nibbleSwap == Swapped(bitOrderResult)
      ensures dpu2cpu == Dpu2CpuCodes(bitOrderResult) && cpu2dpu == Cpu2DpuCodes(bitOrderResult)
    {
      hide Reciprocal, MSyndrome, LSyndrome, Codes, NibbleOf, ByteOf;
      TopNibble(bitOrderResult);
      nibbleSwap := if (bitOrderResult >> 28) & 0xF != 0 then 0xFF else 0x00;
      var m, l := MSyndrome(bitOrderResult), LSyndrome(bitOrderResult);
      var swap := nibbleSwap != 0;
      var mReciprocal := GetReciprocal(m);
      var lReciprocal := GetReciprocal(l);
      var mm := if swap then lReciprocal else mReciprocal;
      var ll := if swap then mReciprocal else lReciprocal;
      var mmReciprocal := GetReciprocal(mm);
      var llReciprocal := GetReciprocal(ll);
      var config3124 := if swap then llReciprocal else mmReciprocal;
      var config2316 := if swap then mmReciprocal else llReciprocal;
      var config4740 := if swap then lReciprocal else mReciprocal;
      var config3932 := if swap then mReciprocal else lReciprocal;
      cpu2dpu := Codes(config2316, config3124);
      dpu2cpu := Codes(config3932, config4740);
    }

    method Dpu2Cpu(value: bv32) returns (cpuValue: bv32)
      ensures cpuValue == Shuffled(dpu2cpu, nibbleSwap != 0, value)
    {
      cpuValue := Shuffle(dpu2cpu, nibbleSwap != 0, value);
    }

    method Cpu2Dpu(value: bv32) returns (dpuValue: bv32)
      ensures dpuValue == Shuffled(cpu2dpu, nibbleSwap != 0, value)
    {
      dpuValue := Shuffle(cpu2dpu, nibbleSwap != 0, value);
    }
  }

  // Where the single set bit of a nibble is; 0 for the nibbles that do not occur.
  function IndexInNibble(nibble: bv8): bv8 {
    if nibble == 2 then 1 else if nibble == 4 then 2 else if nibble == 8 then 3 else 0
  }

  function IndexAt(word: bv32, n: nat): (i: bv8)
    requires n < 8
    ensures i < 4
  {
    IndexInNibble(NibbleOf(ByteOf(word, n / 2), n % 2))
  }

  function Syndrome(index1: bv8, index2: bv8, index3: bv8): bv8
    requires index1 < 4 && index2 < 4 && index3 < 4
  {
    (1 << (index1 << 1)) | (2 << (index2 << 1)) | (3 << (index3 << 1))
  }

  function MSyndrome(word: bv32): bv8 {
    Syndrome(IndexAt(word, 1), IndexAt(word, 3), IndexAt(word, 5))
  }

  function LSyndrome(word: bv32): bv8 {
    Syndrome(IndexAt(word, 0), IndexAt(word, 2), IndexAt(word, 4))
  }

  function Swapped(word: bv32): bv8 {
    if NibbleOf(ByteOf(word, 3), 1) != 0 then 0xFF else 0x00
  }

  function Codes(low: bv8, high: bv8): bv16 {
    (low as bv16) | ((high as bv16) << 8)
  }

  function Dpu2CpuCodes(word: bv32): bv16 {
    if Swapped(word) != 0 then Codes(Reciprocal(MSyndrome(word)), Reciprocal(LSyndrome(word)))
    else Codes(Reciprocal(LSyndrome(word)), Reciprocal(MSyndrome(word)))
  }

  // The two-fold reciprocals are written as the program computes them.
  function Cpu2DpuCodes(word: bv32): bv16 {
    Codes(Reciprocal(Reciprocal(LSyndrome(word))), Reciprocal(Reciprocal(MSyndrome(word))))
  }

  // ----- the wire

  const CALIBRATION: bv32 := 0x0F884422

  /** A wire permutes the bits of the low and of the high nibble of each byte, and may exchange them. */
  datatype Wire = Wire(low: bv8, high: bv8, swap: bool)
  {
    predicate Valid() {
      IsPermutation(low) && IsPermutation(high)
    }

    function Code(n: nat): bv8
      requires n < 2
    {
      if n == 0 then low else high
    }

    function Nibble(n: nat): (m: nat)
      requires n < 2
      ensures m < 2
    {
      if swap then 1 - n else n
    }

    // The wire turns the word sent into the word received.
    ghost predicate Carries(sent: bv32, received: bv32) {
      forall b: nat, n: nat, t: bv8 :: b < 4 && n < 2 && t < 4 ==>
        Bit(received, b, Nibble(n), Position(Code(n), t)) == Bit(sent, b, n, t)
    }
  }

  /** Bit t of nibble n of byte b. */
  function Bit(word: bv32, b: nat, n: nat, t: bv8): bv8
    requires b < 4 && n < 2 && t < 4
  {
    (NibbleOf(ByteOf(word, b), n) >> t) & 1
  }

  lemma ShuffledNibbleUnrolled(code: bv8, nibble: bv8)
    ensures ShuffledNibble(code, nibble)
         == ((nibble & 1) << (code & 3)) | (((nibble >> 1) & 1) << ((code >> 2) & 3))
          | (((nibble >> 2) & 1) << ((code >> 4) & 3)) | (((nibble >> 3) & 1) << ((code >> 6) & 3))
  {
    assert ShuffledBits(code, nibble, 1) == ShuffledBit(code, nibble, 0);
    assert ShuffledBits(code, nibble, 2) == ShuffledBits(code, nibble, 1) | ShuffledBit(code, nibble, 1);
    assert ShuffledBits(code, nibble, 3) == ShuffledBits(code, nibble, 2) | ShuffledBit(code, nibble, 2);
  }

  lemma ShuffledNibbleBits(code: bv8, nibble: bv8, t: bv8)
    requires IsPermutation(code) && nibble < 16 && t < 4
    ensures ShuffledNibble(code, nibble) < 16
    ensures (ShuffledNibble(code, nibble) >> Position(code, t)) & 1 == (nibble >> t) & 1
  {
    ShuffledNibbleUnrolled(code, nibble);
  }

  lemma NibbleByBits(code: bv8, x: bv8, y: bv8)
    requires IsPermutation(code) && x < 16 && y < 16
    requires forall t: bv8 :: t < 4 ==> (x >> Position(code, t)) & 1 == (y >> Position(code, t)) & 1
    ensures x == y
  {
    assert (x >> Position(code, 0)) & 1 == (y >> Position(code, 0)) & 1;
    assert (x >> Position(code, 1)) & 1 == (y >> Position(code, 1)) & 1;
    assert (x >> Position(code, 2)) & 1 == (y >> Position(code, 2)) & 1;
    assert (x >> Position(code, 3)) & 1 == (y >> Position(code, 3)) & 1;
  }

  lemma ShuffledNibbleInverse(code: bv8, nibble: bv8)
    requires IsPermutation(code) && nibble < 16
    ensures ShuffledNibble(Reciprocal(code), ShuffledNibble(code, nibble)) == nibble
  {
    ReciprocalUnrolled(code);
    ShuffledNibbleUnrolled(code, nibble);
    ShuffledNibbleUnrolled(Reciprocal(code), ShuffledNibble(code, nibble));
  }

  // ----- bytes and words from their parts

  lemma NibbleFits(value: bv8, n: nat)
    requires n < 2
    ensures NibbleOf(value, n) < 16
  {
  }

  lemma NibbleOfOr(x: bv8, nibble: bv8, swap: bool, m: nat, n: nat)
    requires m < 2 && n < 2 && nibble < 16
    ensures NibbleOf(x | AtNibble(nibble, swap, m), n)
         == if n == (if swap then 1 - m else m) then NibbleOf(x, n) | nibble else NibbleOf(x, n)
  {
  }

  lemma ByteOfOr(x: bv32, value: bv8, m: nat, b: nat)
    requires m < 4 && b < 4
    ensures ByteOf(x | AtByte(value, m), b) == if b == m then ByteOf(x, b) | value else ByteOf(x, b)
  {
    hide ByteOf, AtByte;
    ByteOfAt(value, m, b);
    OrByByte(x, AtByte(value, m), b);
  }

  lemma ByteOfAt(value: bv8, m: nat, b: nat)
    requires m < 4 && b < 4
    ensures ByteOf(AtByte(value, m), b) == if b == m then value else 0
  {
  }

  lemma OrByByte(x: bv32, y: bv32, b: nat)
    requires b < 4
    ensures ByteOf(x | y, b) == ByteOf(x, b) | ByteOf(y, b)
  {
    OrByEachByte(x, y);
    match b {
      case 0 =>
      case 1 =>
      case 2 =>
      case 3 =>
    }
  }

  lemma OrByEachByte(x: bv32, y: bv32)
    ensures ByteOf(x | y, 0) == ByteOf(x, 0) | ByteOf(y, 0)
    ensures ByteOf(x | y, 1) == ByteOf(x, 1) | ByteOf(y, 1)
    ensures ByteOf(x | y, 2) == ByteOf(x, 2) | ByteOf(y, 2)
    ensures ByteOf(x | y, 3) == ByteOf(x, 3) | ByteOf(y, 3)
  {
  }

  lemma WordByBytes(x: bv32, y: bv32)
    requires forall b: nat :: b < 4 ==> ByteOf(x, b) == ByteOf(y, b)
    ensures x == y
  {
    assert ByteOf(x, 0) == ByteOf(y, 0) && ByteOf(x, 1) == ByteOf(y, 1);
    assert ByteOf(x, 2) == ByteOf(y, 2) && ByteOf(x, 3) == ByteOf(y, 3);
  }

  lemma ByteByNibbles(x: bv8, y: bv8)
    requires NibbleOf(x, 0) == NibbleOf(y, 0) && NibbleOf(x, 1) == NibbleOf(y, 1)
    ensures x == y
  {
  }

  lemma CodesApart(low: bv8, high: bv8)
    ensures CodeOf(Codes(low, high), 0) == low && CodeOf(Codes(low, high), 1) == high
  {
  }

  lemma {:induction false} ShuffledByByte(codes: bv16, swap: bool, value: bv32, b: nat, count: nat)
    requires b < 4 && count <= 4
    ensures ByteOf(ShuffledBytes(codes, swap, value, count), b)
         == if b < count then ShuffledByte(codes, swap, ByteOf(value, b)) else 0
  {
    if count == 0 {
      assert ByteOf(0, b) == 0;
    } else {
      hide AtByte, ByteOf, ShuffledByte;
      ShuffledByByte(codes, swap, value, b, count - 1);
      ByteOfOr(ShuffledBytes(codes, swap, value, count - 1),
        ShuffledByte(codes, swap, ByteOf(value, count - 1)), count - 1, b);
    }
  }

  lemma ShuffledByNibble(codes: bv16, swap: bool, value: bv8, n: nat)
    requires n < 2 && IsPermutation(CodeOf(codes, 0)) && IsPermutation(CodeOf(codes, 1))
    ensures NibbleOf(ShuffledByte(codes, swap, value), if swap then 1 - n else n)
         == ShuffledNibble(CodeOf(codes, n), NibbleOf(value, n))
  {
    var m := if swap then 1 - n else n;
    assert NibbleOf(0, m) == 0;
    hide ShuffledNibble, IsPermutation, CodeOf, NibbleOf, AtNibble;
    var x := ShuffledNibble(CodeOf(codes, 0), NibbleOf(value, 0));
    var y := ShuffledNibble(CodeOf(codes, 1), NibbleOf(value, 1));
    NibbleFits(value, 0);
    NibbleFits(value, 1);
    ShuffledNibbleBits(CodeOf(codes, 0), NibbleOf(value, 0), 0);
    ShuffledNibbleBits(CodeOf(codes, 1), NibbleOf(value, 1), 0);
    assert ShuffledNibbles(codes, swap, value, 0) == 0;
    assert ShuffledNibbles(codes, swap, value, 1) == 0 | AtNibble(x, swap, 0);
    assert ShuffledNibbles(codes, swap, value, 2) == ShuffledNibbles(codes, swap, value, 1) | AtNibble(y, swap, 1);
    NibbleOfOr(0, x, swap, 0, m);
    NibbleOfOr(ShuffledNibbles(codes, swap, value, 1), y, swap, 1, m);
  }

  // ----- what calibration achieves

  /** Shuffling with a wire's own codes is what the wire does, and nothing else is. */
  lemma ShuffledIsTheWire(w: Wire, sent: bv32, received: bv32)
    requires w.Valid()
    ensures w.Carries(sent, received) <==> received == Shuffled(Codes(w.low, w.high), w.swap, sent)
  {
    hide Shuffled, Bit, Position, Codes;
    var shuffled := Shuffled(Codes(w.low, w.high), w.swap, sent);
    forall b: nat, n: nat, t: bv8 | b < 4 && n < 2 && t < 4
      ensures Bit(shuffled, b, w.Nibble(n), Position(w.Code(n), t)) == Bit(sent, b, n, t)
    {
      ShuffledBitLands(w, sent, b, n, t);
    }
    if w.Carries(sent, received) {
      OneReceived(w, sent, received, shuffled);
    }
  }

  lemma OneReceived(w: Wire, sent: bv32, x: bv32, y: bv32)
    requires w.Valid() && w.Carries(sent, x) && w.Carries(sent, y)
    ensures x == y
  {
    hide IsPermutation, NibbleOf, ByteOf, Position;
    forall b: nat | b < 4
      ensures ByteOf(x, b) == ByteOf(y, b)
    {
      SameNibble(w, sent, x, y, b, 0);
      SameNibble(w, sent, x, y, b, 1);
      ByteByNibbles(ByteOf(x, b), ByteOf(y, b));
    }
    WordByBytes(x, y);
  }

  lemma SameNibble(w: Wire, sent: bv32, x: bv32, y: bv32, b: nat, n: nat)
    requires w.Valid() && w.Carries(sent, x) && w.Carries(sent, y) && b < 4 && n < 2
    ensures NibbleOf(ByteOf(x, b), w.Nibble(n)) == NibbleOf(ByteOf(y, b), w.Nibble(n))
  {
    hide IsPermutation, NibbleOf, ByteOf, Position;
    NibbleFits(ByteOf(x, b), w.Nibble(n));
    NibbleFits(ByteOf(y, b), w.Nibble(n));
    forall t: bv8 | t < 4
      ensures Bit(x, b, w.Nibble(n), Position(w.Code(n), t)) == Bit(y, b, w.Nibble(n), Position(w.Code(n), t))
    {
      assert Bit(x, b, w.Nibble(n), Position(w.Code(n), t)) == Bit(sent, b, n, t);
    }
    NibbleByBits(w.Code(n), NibbleOf(ByteOf(x, b), w.Nibble(n)), NibbleOf(ByteOf(y, b), w.Nibble(n)));
  }

  lemma ShuffledBitLands(w: Wire, sent: bv32, b: nat, n: nat, t: bv8)
    requires w.Valid() && b < 4 && n < 2 && t < 4
    ensures Bit(Shuffled(Codes(w.low, w.high), w.swap, sent), b, w.Nibble(n), Position(w.Code(n), t))
         == Bit(sent, b, n, t)
  {
    hide IsPermutation, NibbleOf, ByteOf, ShuffledBytes, ShuffledByte, ShuffledNibble, Position, Codes, CodeOf;
    var codes := Codes(w.low, w.high);
    CodesApart(w.low, w.high);
    ShuffledByByte(codes, w.swap, sent, b, 4);
    ShuffledByNibble(codes, w.swap, ByteOf(sent, b), n);
    NibbleFits(ByteOf(sent, b), 0);
    NibbleFits(ByteOf(sent, b), 1);
    ShuffledNibbleBits(w.Code(n), NibbleOf(ByteOf(sent, b), n), t);
  }

  /** Shuffling back with the reciprocal codes, exchanged when the nibbles are, undoes a shuffle. */
  lemma ShuffledInverse(low: bv8, high: bv8, swap: bool, value: bv32)
    requires IsPermutation(low) && IsPermutation(high)
    ensures
      var back := if swap then Codes(Reciprocal(high), Reciprocal(low)) else Codes(Reciprocal(low), Reciprocal(high));
      Shuffled(back, swap, Shuffled(Codes(low, high), swap, value)) == value
  {
    hide IsPermutation, NibbleOf, ByteOf, ShuffledBytes, ShuffledByte, ShuffledNibble, Reciprocal, Codes, CodeOf;
    var codes := Codes(low, high);
    var back := if swap then Codes(Reciprocal(high), Reciprocal(low)) else Codes(Reciprocal(low), Reciprocal(high));
    var shuffled := Shuffled(codes, swap, value);
    CodesApart(low, high);
    ReciprocalInverts(low);
    ReciprocalInverts(high);
    CodesApart(Reciprocal(low), Reciprocal(high));
    CodesApart(Reciprocal(high), Reciprocal(low));
    forall b: nat | b < 4
      ensures ByteOf(Shuffled(back, swap, shuffled), b) == ByteOf(value, b)
    {
      var sent, seen := ByteOf(value, b), ByteOf(shuffled, b);
      ShuffledByByte(codes, swap, value, b, 4);
      ShuffledByByte(back, swap, shuffled, b, 4);
      NibbleFits(sent, 0);
      NibbleFits(sent, 1);
      ShuffledByNibble(codes, swap, sent, 0);
      ShuffledByNibble(codes, swap, sent, 1);
      ShuffledByNibble(back, swap, seen, 0);
      ShuffledByNibble(back, swap, seen, 1);
      ShuffledNibbleInverse(low, NibbleOf(sent, 0));
      ShuffledNibbleInverse(high, NibbleOf(sent, 1));
      ByteByNibbles(ShuffledByte(back, swap, seen), sent);
    }
    WordByBytes(Shuffled(back, swap, shuffled), value);
  }

  // The calibration word has one bit of each nibble at a time, and 0F on top.
  lemma CalibrationIndices(code: bv8)
    requires IsPermutation(code)
    ensures Syndrome(IndexInNibble(ShuffledNibble(code, 2)), IndexInNibble(ShuffledNibble(code, 4)),
                     IndexInNibble(ShuffledNibble(code, 8))) == Reciprocal(code)
    ensures ShuffledNibble(code, 0) == 0 && ShuffledNibble(code, 15) == 15
  {
    ReciprocalUnrolled(code);
    ShuffledNibbleUnrolled(code, 0);
    ShuffledNibbleUnrolled(code, 2);
    ShuffledNibbleUnrolled(code, 4);
    ShuffledNibbleUnrolled(code, 8);
    ShuffledNibbleUnrolled(code, 15);
  }

  lemma CalibrationNibble(w: Wire, received: bv32, b: nat, n: nat)
    requires w.Valid() && w.Carries(CALIBRATION, received) && b < 4 && n < 2
    ensures NibbleOf(ByteOf(received, b), w.Nibble(n))
         == ShuffledNibble(w.Code(n), NibbleOf(ByteOf(CALIBRATION, b), n))
  {
    hide IsPermutation, NibbleOf, ByteOf, ShuffledBytes, ShuffledByte, ShuffledNibble, Codes, CodeOf, Position;
    ShuffledIsTheWire(w, CALIBRATION, received);
    CodesApart(w.low, w.high);
    ShuffledByByte(Codes(w.low, w.high), w.swap, CALIBRATION, b, 4);
    ShuffledByNibble(Codes(w.low, w.high), w.swap, ByteOf(CALIBRATION, b), n);
  }

  lemma TopNibble(word: bv32)
    ensures NibbleOf(ByteOf(word, 3), 1) == 0 <==> (word >> 28) & 0xF == 0
  {
  }

  /** From the calibration word as any wire delivers it, the configuration is that of the wire. */
  lemma CalibrationFindsTheWire(w: Wire, received: bv32)
    requires w.Valid() && w.Carries(CALIBRATION, received)
    ensures Swapped(received) != 0 <==> w.swap
    ensures Dpu2CpuCodes(received) == Codes(w.low, w.high)
    ensures Cpu2DpuCodes(received)
         == if w.swap then Codes(Reciprocal(w.high), Reciprocal(w.low))
            else Codes(Reciprocal(w.low), Reciprocal(w.high))
  {
    CalibrationBytes();
    hide IsPermutation, NibbleOf, ByteOf, ShuffledNibble, Reciprocal, Codes, Syndrome, IndexInNibble;
    forall b: nat, n: nat | b < 4 && n < 2
      ensures NibbleOf(ByteOf(received, b), w.Nibble(n))
           == ShuffledNibble(w.Code(n), NibbleOf(ByteOf(CALIBRATION, b), n))
    {
      CalibrationNibble(w, received, b, n);
    }
    CalibrationIndices(w.low);
    CalibrationIndices(w.high);
    TopNibble(received);
    ReciprocalInverts(w.low);
    ReciprocalInverts(w.high);
    CalibrationSyndrome(w, received, 0);
    CalibrationSyndrome(w, received, 1);
  }

  lemma CalibrationBytes()
    ensures NibbleOf(ByteOf(CALIBRATION, 0), 0) == NibbleOf(ByteOf(CALIBRATION, 0), 1) == 2
    ensures NibbleOf(ByteOf(CALIBRATION, 1), 0) == NibbleOf(ByteOf(CALIBRATION, 1), 1) == 4
    ensures NibbleOf(ByteOf(CALIBRATION, 2), 0) == NibbleOf(ByteOf(CALIBRATION, 2), 1) == 8
    ensures NibbleOf(ByteOf(CALIBRATION, 3), 0) == 15 && NibbleOf(ByteOf(CALIBRATION, 3), 1) == 0
  {
  }

  lemma CalibrationSyndrome(w: Wire, received: bv32, n: nat)
    requires w.Valid() && w.Carries(CALIBRATION, received) && n < 2
    ensures Syndrome(IndexInNibble(NibbleOf(ByteOf(received, 0), w.Nibble(n))),
                     IndexInNibble(NibbleOf(ByteOf(received, 1), w.Nibble(n))),
                     IndexInNibble(NibbleOf(ByteOf(received, 2), w.Nibble(n)))) == Reciprocal(w.Code(n))
  {
    CalibrationBytes();
    hide IsPermutation, NibbleOf, ByteOf, ShuffledNibble, Reciprocal, Syndrome;
    CalibrationNibble(w, received, 0, n);
    CalibrationNibble(w, received, 1, n);
    CalibrationNibble(w, received, 2, n);
    CalibrationIndices(w.Code(n));
  }

  /** A calibrated configuration reads any word as the wire delivers it, and undoes the wire: cpu2dpu
      is a two-sided inverse of dpu2cpu on all 32-bit values. */
  lemma CalibratedConfiguration(w: Wire, received: bv32, value: bv32)
    requires w.Valid() && w.Carries(CALIBRATION, received)
    ensures
      var swap := Swapped(received) != 0;
      var dpu2cpu, cpu2dpu := Dpu2CpuCodes(received), Cpu2DpuCodes(received);
      && w.Carries(value, Shuffled(dpu2cpu, swap, value))
      && Shuffled(cpu2dpu, swap, Shuffled(dpu2cpu, swap, value)) == value
      && Shuffled(dpu2cpu, swap, Shuffled(cpu2dpu, swap, value)) == value
  {
    hide IsPermutation, Shuffled, Codes, Reciprocal, Swapped, Dpu2CpuCodes, Cpu2DpuCodes, Bit, Position;
    CalibrationFindsTheWire(w, received);
    ShuffledIsTheWire(w, value, Shuffled(Dpu2CpuCodes(received), w.swap, value));
    ReciprocalInverts(w.low);
    ReciprocalInverts(w.high);
    ShuffledInverse(w.low, w.high, w.swap, value);
    if w.swap {
      ShuffledInverse(Reciprocal(w.high), Reciprocal(w.low), true, value);
    } else {
      ShuffledInverse(Reciprocal(w.low), Reciprocal(w.high), false, value);
    }
  }
}
