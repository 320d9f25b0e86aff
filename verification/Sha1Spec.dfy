/** SHA-1 as FIPS 180-4 defines it (sections 3.2, 4.1.1, 4.2.1, 5.1.1, 5.3.1 and 6.1.2). */
module Sha1Spec {
  type Byte = bv8
  type Word = bv32

  /** Section 4.1.1: Ch, Parity and Maj. */
  function Ch(x: Word, y: Word, z: Word): Word { (x & y) ^ (!x & z) }

  function Parity(x: Word, y: Word, z: Word): Word { x ^ y ^ z }

  function Maj(x: Word, y: Word, z: Word): Word { (x & y) ^ (x & z) ^ (y & z) }

  function F(t: nat, x: Word, y: Word, z: Word): Word {
    if t < 20 then Ch(x, y, z)
    else if t < 40 then Parity(x, y, z)
    else if t < 60 then Maj(x, y, z)
    else Parity(x, y, z)
  }

  /** Section 4.2.1. */
  function K(t: nat): Word {
    if t < 20 then 0x5a827999 else if t < 40 then 0x6ed9eba1 else if t < 60 then 0x8f1bbcdc else 0xca62c1d6
  }

  /** The working variables, or a hash value. */
  datatype Regs = Regs(a: Word, b: Word, c: Word, d: Word, e: Word)

  /** Section 5.3.1. */
  const H0 := Regs(0x67452301, 0xefcdab89, 0x98badcfe, 0x10325476, 0xc3d2e1f0)

  /** Section 3.2: rotation to the left. */
  function Rotl1(x: Word): Word { x.RotateLeft(1) }

  function Rotl5(x: Word): Word { x.RotateLeft(5) }

  function Rotl30(x: Word): Word { x.RotateLeft(30) }

  function Xor(v: Word, w: Word, x: Word, y: Word): Word { v ^ w ^ x ^ y }

  /** Addition modulo 2^32. */
  function Sum(v: Word, w: Word, x: Word, y: Word, z: Word): Word { v + w + x + y + z }

  /** Section 6.1.2, step 1: the message schedule. */
  function W(block: seq<Word>, t: nat): Word
    requires |block| == 16
  {
    if t < 16 then block[t]
    else Rotl1(Xor(W(block, t - 3), W(block, t - 8), W(block, t - 14), W(block, t - 16)))
  }

  /** Section 6.1.2, step 3: the working variables after the first t rounds. */
  function Rounds(h: Regs, block: seq<Word>, t: nat): Regs
    requires |block| == 16
  {
    if t == 0 then h
    else
      var r := Rounds(h, block, t - 1);
      var T := Sum(Rotl5(r.a), F(t - 1, r.b, r.c, r.d), r.e, K(t - 1), W(block, t - 1));
      Regs(T, r.a, Rotl30(r.b), r.c, r.d)
  }

  function Plus(x: Word, y: Word): Word { x + y }

  function Add(x: Regs, y: Regs): Regs {
    Regs(Plus(x.a, y.a), Plus(x.b, y.b), Plus(x.c, y.c), Plus(x.d, y.d), Plus(x.e, y.e))
  }

  /** Section 6.1.2 for one message block. */
  function Compress(h: Regs, block: seq<Word>): Regs
    requires |block| == 16
  {
    Add(Rounds(h, block, 80), h)
  }

  function HashBlocks(h: Regs, words: seq<Word>): Regs
    requires |words| % 16 == 0
    decreases |words|
  {
    if words == [] then h else HashBlocks(Compress(h, words[..16]), words[16..])
  }

  /** Four bytes as a big-endian word. */
  function Join(b0: Byte, b1: Byte, b2: Byte, b3: Byte): Word {
    Or(Or(Or(Place(b0, 0), Place(b1, 1)), Place(b2, 2)), Place(b3, 3))
  }

  function Or(v: Word, w: Word): Word { v | w }

  /** A byte in the k-th place from the left. */
  function Place(b: Byte, k: nat): Word
    requires k < 4
  {
    if k == 0 then b as Word << 24 else if k == 1 then b as Word << 16 else if k == 2 then b as Word << 8 else b as Word
  }

  function WordAt(bytes: seq<Byte>, i: nat): Word
    requires 4 * i + 4 <= |bytes|
  {
    Join(bytes[4 * i], bytes[4 * i + 1], bytes[4 * i + 2], bytes[4 * i + 3])
  }

  function Words(bytes: seq<Byte>): (words: seq<Word>)
    requires |bytes| % 4 == 0
    ensures |words| == |bytes| / 4
  {
    seq(|bytes| / 4, i requires 0 <= i < |bytes| / 4 => WordAt(bytes, i))
  }

  function Zeros(n: nat): seq<Byte> { seq(n, _ => 0) }

  /** Section 5.1.1: the least number of zero bytes after the byte 0x80. */
  function ZeroCount(len: nat): (z: nat)
    ensures (len + 1 + z) % 64 == 56 && z < 64
  {
    (119 - len % 64) % 64
  }

  const WORD_SIZE := 0x1_0000_0000

  /** The two halves of the message length in bits, a 64-bit number. */
  function HighBits(len: nat): Word
    requires len < 0x2000_0000_0000_0000
  {
    (8 * len / WORD_SIZE) as Word
  }

  function LowBits(len: nat): Word { (8 * len % WORD_SIZE) as Word }

  lemma WholeBlocks(n: nat)
    requires n % 64 == 56
    ensures (n / 4 + 2) % 16 == 0 && n % 4 == 0
  {
    var q := n / 64;
    assert n == 64 * q + 56 && n / 4 == 16 * q + 14;
  }

  /** Section 5.1.1: the message, one bit and the zeros. */
  function Stretched(message: seq<Byte>): (bytes: seq<Byte>)
    ensures |bytes| % 64 == 56 && |bytes| % 4 == 0
  {
    WholeBlocks(|message| + 1 + ZeroCount(|message|));
    message + [0x80] + Zeros(ZeroCount(|message|))
  }

  /** Section 5.1.1: with the length in bits as a 64-bit number, high word first. */
  function Padded(message: seq<Byte>): (words: seq<Word>)
    requires |message| < 0x2000_0000_0000_0000
    ensures |words| % 16 == 0
  {
    var bytes := Stretched(message);
    WholeBlocks(|bytes|);
    Words(bytes) + [HighBits(|message|), LowBits(|message|)]
  }

  /** The k-th byte of a word from the left. */
  function ByteOf(w: Word, k: nat): Byte
    requires k < 4
  {
    if k == 0 then ((w >> 24) & 0xFF) as Byte
    else if k == 1 then ((w >> 16) & 0xFF) as Byte
    else if k == 2 then ((w >> 8) & 0xFF) as Byte
    else (w & 0xFF) as Byte
  }

  /** Big-endian bytes of a word. */
  function Split(w: Word): (bytes: seq<Byte>)
    ensures |bytes| == 4
  {
    [ByteOf(w, 0), ByteOf(w, 1), ByteOf(w, 2), ByteOf(w, 3)]
  }

  function Digest(h: Regs): seq<Byte> { Split(h.a) + Split(h.b) + Split(h.c) + Split(h.d) + Split(h.e) }

  function Sha1(message: seq<Byte>): seq<Byte>
    requires |message| < 0x2000_0000_0000_0000
  {
    Digest(HashBlocks(H0, Padded(message)))
  }
}
