/** Bytes in memory: 32-bit words in little-endian order, and overwriting part of a sequence. */
module Bytes {

  type byte = n: int | 0 <= n < 256

  const U32: nat := 0x1_0000_0000

  function Word(n: nat): (b: seq<byte>)
    requires n < U32
    ensures |b| == 4
  {
    [n % 256, n / 256 % 256, n / 256 / 256 % 256, n / 256 / 256 / 256]
  }

  function FromWord(b: seq<byte>): (n: nat)
    requires |b| == 4
    ensures n < U32
  {
    DigitBound(b[2], b[3]);
    DigitBound(b[1], Digit(b[2], b[3]));
    DigitBound(b[0], Digit(b[1], Digit(b[2], b[3])));
    Digit(b[0], Digit(b[1], Digit(b[2], b[3])))
  }

  function Digit(low: byte, rest: nat): nat {
    low as int + 256 * rest
  }

  /** The lowest byte comes first. */
  lemma LittleEndian(b: seq<byte>)
    requires |b| == 4
    ensures FromWord(b) == b[0] as int + 0x100 * b[1] as int + 0x1_0000 * b[2] as int + 0x100_0000 * b[3] as int
  {
  }

  lemma DigitBound(low: byte, rest: nat)
    ensures Digit(low, rest) < 256 * rest + 256
  {
  }

  lemma DigitParts(low: byte, rest: nat)
    ensures Digit(low, rest) % 256 == low && Digit(low, rest) / 256 == rest
  {
  }

  lemma DigitOf(n: nat)
    ensures Digit(n % 256, n / 256) == n
  {
  }

  lemma WordRoundTrip(n: nat)
    requires n < U32
    ensures FromWord(Word(n)) == n
  {
    DigitOf(n);
    DigitOf(n / 256);
    DigitOf(n / 256 / 256);
  }

  lemma WordOfFromWord(b: seq<byte>)
    requires |b| == 4
    ensures Word(FromWord(b)) == b
  {
    hide Digit;
    var n := FromWord(b);
    DigitParts(b[2], b[3]);
    DigitParts(b[1], Digit(b[2], b[3]));
    DigitParts(b[0], Digit(b[1], Digit(b[2], b[3])));
    assert n / 256 == Digit(b[1], Digit(b[2], b[3]));
    assert n / 256 / 256 == Digit(b[2], b[3]);
    assert b[3] as int % 256 == b[3];
  }

  /** s with the elements from index at on replaced by those of t. */
  function Splice<T>(s: seq<T>, at: nat, t: seq<T>): (r: seq<T>)
    requires at + |t| <= |s|
    ensures |r| == |s|
  {
    s[..at] + t + s[at + |t|..]
  }

  lemma SpliceAppends<T>(s: seq<T>, at: nat, t: seq<T>, u: seq<T>)
    requires at + |t| + |u| <= |s|
    ensures Splice(Splice(s, at, t), at + |t|, u) == Splice(s, at, t + u)
  {
  }

  lemma SpliceInside<T>(s: seq<T>, at: nat, t: seq<T>)
    requires at + |t| <= |s|
    ensures Splice(s, at, t)[at..at + |t|] == t
  {
  }

  lemma SpliceOutside<T>(s: seq<T>, at: nat, t: seq<T>, lo: nat, hi: nat)
    requires at + |t| <= |s| && lo <= hi <= |s|
    requires hi <= at || at + |t| <= lo
    ensures Splice(s, at, t)[lo..hi] == s[lo..hi]
  {
  }
}
