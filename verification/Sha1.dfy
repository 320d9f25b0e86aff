/** The packer's SHA-1 (packer.cpp:62-138), proved to compute the one of FIPS 180-4. */
module Sha1 {
  import opened Sha1Spec

  /** sha1Shift, for the three distances it is used with. */
  function Shift1(v: Word): Word { (v << 1) | (v >> 31) }

  function Shift5(v: Word): Word { (v << 5) | (v >> 27) }

  function Shift30(v: Word): Word { (v << 30) | (v >> 2) }

  lemma ShiftsRotate(v: Word)
    ensures Shift1(v) == Rotl1(v) && Shift5(v) == Rotl5(v) && Shift30(v) == Rotl30(v)
  {
  }

  /** The source's Ch and Maj use "or" where the standard uses "exclusive or". */
  function SourceCh(b: Word, c: Word, d: Word): Word { (b & c) | (!b & d) }

  function SourceMaj(b: Word, c: Word, d: Word): Word { (b & c) | (b & d) | (c & d) }

  lemma ChBits(b: Word, c: Word, d: Word)
    ensures (b & c) | (!b & d) == (b & c) ^ (!b & d)
  {
  }

  lemma MajBits(b: Word, c: Word, d: Word)
    ensures (b & c) | (b & d) | (c & d) == (b & c) ^ (b & d) ^ (c & d)
  {
  }

  lemma SourceChIs(b: Word, c: Word, d: Word)
    ensures SourceCh(b, c, d) == Ch(b, c, d)
  {
    ChBits(b, c, d);
  }

  lemma SourceMajIs(b: Word, c: Word, d: Word)
    ensures SourceMaj(b, c, d) == Maj(b, c, d)
  {
    MajBits(b, c, d);
  }

  /** The macro _shiftswap: one round from the value f of the mixing function and the constant v. */
  function ShiftSwap(r: Regs, f: Word, v: Word, w: Word): Regs {
    Regs(Sum(Shift5(r.a), f, r.e, v, w), r.a, Shift30(r.b), r.c, r.d)
  }

  lemma ShiftSwapIsRound(h: Regs, block: seq<Word>, t: nat, f: Word)
    requires |block| == 16
    requires var r := Rounds(h, block, t); f == F(t, r.b, r.c, r.d)
    ensures ShiftSwap(Rounds(h, block, t), f, K(t), W(block, t)) == Rounds(h, block, t + 1)
  {
    hide F, K, W, Sum, Shift1, Shift5, Shift30, Rotl1, Rotl5, Rotl30;
    ShiftsRotate(Rounds(h, block, t).a);
    ShiftsRotate(Rounds(h, block, t).b);
  }

  /** The five words of a hash value. */
  function Value(sha: seq<Word>): Regs
    requires |sha| == 5
  {
    Regs(sha[0], sha[1], sha[2], sha[3], sha[4])
  }

  /** The words filled so far hold the schedule. */
  ghost predicate Scheduled(temp: seq<Word>, block: seq<Word>, n: nat)
    requires |block| == 16 && n <= |temp|
  {
    forall i :: 0 <= i < n ==> temp[i] == W(block, i)
  }

  /** The schedule part of the macro _shiftshiftswap, in the buffer that holds the earlier words. */
  method Extend(temp: array<Word>, round: nat, ghost block: seq<Word>)
    requires temp.Length == 80 && 16 <= round < 80 && |block| == 16
    requires Scheduled(temp[..], block, round)
    modifies temp
    ensures Scheduled(temp[..], block, round + 1)
    ensures temp[..16] == old(temp[..16])
  {
    hide Shift1, Rotl1, Xor;
    var x := Xor(temp[round - 3], temp[round - 8], temp[round - 14], temp[round - 16]);
    ShiftsRotate(x);
    temp[round] := Shift1(x);
  }

  method AddTo(sha: array<Word>, r: Regs)
    requires sha.Length == 5
    modifies sha
    ensures Value(sha[..]) == Add(old(Value(sha[..])), r)
  {
    hide Plus;
    sha[0] := Plus(sha[0], r.a);
    sha[1] := Plus(sha[1], r.b);
    sha[2] := Plus(sha[2], r.c);
    sha[3] := Plus(sha[3], r.d);
    sha[4] := Plus(sha[4], r.e);
  }

  /** A round is reached: the working variables, the schedule so far, and the block itself. */
  ghost predicate Reached(h: Regs, r: Regs, temp: seq<Word>, block: seq<Word>, round: nat) {
    && |temp| == 80 && |block| == 16 && 16 <= round <= 80 && temp[..16] == block
    && r == Rounds(h, block, round) && Scheduled(temp, block, round)
  }

  /** The first loop: rounds 0 to 15, on the words of the block. */
  method FirstRounds(h: Regs, temp: array<Word>) returns (r: Regs)
    requires temp.Length == 80
    ensures Reached(h, r, temp[..], temp[..16], 16)
  {
    hide Shift1, Shift5, Shift30, SourceCh, SourceMaj, Ch, Parity, Maj, ShiftSwap, W, Rounds, Rotl1, Rotl5, Rotl30;
    ghost var block := temp[..16];
    r := h;
    var round := 0;
    RoundsStart(h, block);
    ScheduleStart(temp[..], block);
    while round < 16
      invariant 0 <= round <= 16 && r == Rounds(h, block, round)
    {
      assert temp[round] == temp[..][round];
      SourceChIs(r.b, r.c, r.d);
      ShiftSwapIsRound(h, block, round, SourceCh(r.b, r.c, r.d));
      r := ShiftSwap(r, SourceCh(r.b, r.c, r.d), 0x5a827999, temp[round]);
      round := round + 1;
    }
    assert temp[..][..16] == block;
  }

  /** The second loop. */
  method ChRounds(h: Regs, r0: Regs, temp: array<Word>, ghost block: seq<Word>) returns (r: Regs)
    requires temp.Length == 80 && Reached(h, r0, temp[..], block, 16)
    modifies temp
    ensures Reached(h, r, temp[..], block, 20)
  {
    hide Shift1, Shift5, Shift30, SourceCh, SourceMaj, Ch, Parity, Maj, ShiftSwap, W, Rounds, Rotl1, Rotl5, Rotl30;
    r := r0;
    var round := 16;
    while round < 20
      invariant 16 <= round <= 20 && Reached(h, r, temp[..], block, round)
    {
      Extend(temp, round, block);
      assert temp[round] == temp[..][round];
      SourceChIs(r.b, r.c, r.d);
      ShiftSwapIsRound(h, block, round, SourceCh(r.b, r.c, r.d));
      r := ShiftSwap(r, SourceCh(r.b, r.c, r.d), 0x5a827999, temp[round]);
      round := round + 1;
    }
  }

  /** The third loop. */
  method ParityRounds(h: Regs, r0: Regs, temp: array<Word>, ghost block: seq<Word>) returns (r: Regs)
    requires temp.Length == 80 && Reached(h, r0, temp[..], block, 20)
    modifies temp
    ensures Reached(h, r, temp[..], block, 40)
  {
    hide Shift1, Shift5, Shift30, SourceCh, SourceMaj, Ch, Parity, Maj, ShiftSwap, W, Rounds, Rotl1, Rotl5, Rotl30;
    r := r0;
    var round := 20;
    while round < 40
      invariant 20 <= round <= 40 && Reached(h, r, temp[..], block, round)
    {
      Extend(temp, round, block);
      assert temp[round] == temp[..][round];
      ShiftSwapIsRound(h, block, round, Parity(r.b, r.c, r.d));
      r := ShiftSwap(r, Parity(r.b, r.c, r.d), 0x6ed9eba1, temp[round]);
      round := round + 1;
    }
  }

  /** The fourth loop. */
  method MajRounds(h: Regs, r0: Regs, temp: array<Word>, ghost block: seq<Word>) returns (r: Regs)
    requires temp.Length == 80 && Reached(h, r0, temp[..], block, 40)
    modifies temp
    ensures Reached(h, r, temp[..], block, 60)
  {
    hide Shift1, Shift5, Shift30, SourceCh, SourceMaj, Ch, Parity, Maj, ShiftSwap, W, Rounds, Rotl1, Rotl5, Rotl30;
    r := r0;
    var round := 40;
    while round < 60
      invariant 40 <= round <= 60 && Reached(h, r, temp[..], block, round)
    {
      Extend(temp, round, block);
      assert temp[round] == temp[..][round];
      SourceMajIs(r.b, r.c, r.d);
      ShiftSwapIsRound(h, block, round, SourceMaj(r.b, r.c, r.d));
      r := ShiftSwap(r, SourceMaj(r.b, r.c, r.d), 0x8f1bbcdc, temp[round]);
      round := round + 1;
    }
  }

  /** The fifth loop. */
  method LastRounds(h: Regs, r0: Regs, temp: array<Word>, ghost block: seq<Word>) returns (r: Regs)
    requires temp.Length == 80 && Reached(h, r0, temp[..], block, 60)
    modifies temp
    ensures Reached(h, r, temp[..], block, 80)
  {
    hide Shift1, Shift5, Shift30, SourceCh, SourceMaj, Ch, Parity, Maj, ShiftSwap, W, Rounds, Rotl1, Rotl5, Rotl30;
    r := r0;
    var round := 60;
    while round < 80
      invariant 60 <= round <= 80 && Reached(h, r, temp[..], block, round)
    {
      Extend(temp, round, block);
      assert temp[round] == temp[..][round];
      ShiftSwapIsRound(h, block, round, Parity(r.b, r.c, r.d));
      r := ShiftSwap(r, Parity(r.b, r.c, r.d), 0xca62c1d6, temp[round]);
      round := round + 1;
    }
  }

  /** The five loops of sha1PartHash, with the schedule expanded in place between the rounds. */
  method AllRounds(h: Regs, temp: array<Word>) returns (r: Regs)
    requires temp.Length == 80
    modifies temp
    ensures r == Rounds(h, old(temp[..16]), 80)
    ensures temp[..16] == old(temp[..16])
  {
    hide Rounds, W, Scheduled;
    ghost var block := temp[..16];
    r := FirstRounds(h, temp);
    r := ChRounds(h, r, temp, block);
    r := ParityRounds(h, r, temp, block);
    r := MajRounds(h, r, temp, block);
    r := LastRounds(h, r, temp, block);
    assert temp[..][..16] == temp[..16];
  }

  /** sha1PartHash: one block. */
  method PartHash(sha: array<Word>, temp: array<Word>)
    requires sha.Length == 5 && temp.Length == 80 && sha != temp
    modifies sha, temp
    ensures Value(sha[..]) == Compress(old(Value(sha[..])), old(temp[..16]))
    ensures temp[..16] == old(temp[..16])
  {
    hide Rounds, Add;
    ghost var block := temp[..16];
    var h := Regs(sha[0], sha[1], sha[2], sha[3], sha[4]);
    var r := AllRounds(h, temp);
    AddTo(sha, r);
    AddCommutes(h, r);
  }

  lemma RoundsStart(h: Regs, block: seq<Word>)
    requires |block| == 16
    ensures Rounds(h, block, 0) == h
  {
  }

  lemma ScheduleStart(temp: seq<Word>, block: seq<Word>)
    requires |temp| == 80 && |block| == 16 && temp[..16] == block
    ensures Scheduled(temp, block, 16)
  {
    assert forall i :: 0 <= i < 16 ==> temp[i] == temp[..16][i];
  }

  lemma AddCommutes(x: Regs, y: Regs)
    ensures Add(x, y) == Add(y, x)
  {
  }

  // ---- Words and blocks ----

  lemma WordsConcat(a: seq<Byte>, b: seq<Byte>)
    requires |a| % 4 == 0 && |b| % 4 == 0
    ensures |a + b| % 4 == 0 && Words(a + b) == Words(a) + Words(b)
  {
    hide Join;
    var n := |a| / 4;
    assert |Words(a + b)| == n + |b| / 4;
    forall i | 0 <= i < |Words(a + b)|
      ensures Words(a + b)[i] == (Words(a) + Words(b))[i]
    {
      if i >= n {
        assert WordAt(a + b, i) == WordAt(b, i - n);
      } else {
        assert WordAt(a + b, i) == WordAt(a, i);
      }
    }
  }

  lemma {:induction false} HashConcat(h: Regs, a: seq<Word>, b: seq<Word>)
    requires |a| % 16 == 0 && |b| % 16 == 0
    ensures |a + b| % 16 == 0 && HashBlocks(h, a + b) == HashBlocks(HashBlocks(h, a), b)
    decreases |a|
  {
    hide Compress;
    if a == [] {
      assert a + b == b;
    } else {
      assert (a + b)[..16] == a[..16] && (a + b)[16..] == a[16..] + b;
      HashConcat(Compress(h, a[..16]), a[16..], b);
    }
  }

  lemma HashOne(h: Regs, block: seq<Word>)
    requires |block| == 16
    ensures HashBlocks(h, block) == Compress(h, block)
  {
    hide Compress;
    assert block[..16] == block && block[16..] == [];
    assert HashBlocks(Compress(h, block), []) == Compress(h, block);
  }

  /** The source assembles a word from its last byte to its first. */
  function JoinBackwards(b0: Byte, b1: Byte, b2: Byte, b3: Byte): Word {
    Or(Or(Or(b3 as Word, b2 as Word << 8), b1 as Word << 16), b0 as Word << 24)
  }

  lemma OrReversed(w0: Word, w1: Word, w2: Word, w3: Word)
    ensures w3 | w2 | w1 | w0 == w0 | w1 | w2 | w3
  {
  }

  lemma JoinReversed(b0: Byte, b1: Byte, b2: Byte, b3: Byte)
    ensures JoinBackwards(b0, b1, b2, b3) == Join(b0, b1, b2, b3)
  {
    OrReversed(b0 as Word << 24, b1 as Word << 16, b2 as Word << 8, b3 as Word);
  }

  /** Putting a byte into the k-th place of a word, as the tail loop does. */
  function Put(w: Word, k: nat, b: Byte): Word
    requires k < 4
  {
    Or(w, Place(b, k))
  }

  lemma OrZero(w: Word)
    ensures Or(w, 0) == w && Or(0, w) == w
  {
  }

  lemma ZeroPlace(k: nat)
    requires k < 4
    ensures Place(0, k) == 0
  {
  }

  lemma PutJoin(b0: Byte, b1: Byte, b2: Byte, b: Byte)
    ensures Put(Join(0, 0, 0, 0), 0, b) == Join(b, 0, 0, 0)
    ensures Put(Join(b0, 0, 0, 0), 1, b) == Join(b0, b, 0, 0)
    ensures Put(Join(b0, b1, 0, 0), 2, b) == Join(b0, b1, b, 0)
    ensures Put(Join(b0, b1, b2, 0), 3, b) == Join(b0, b1, b2, b)
  {
    hide Or, Place;
    ZeroPlace(0);
    ZeroPlace(1);
    ZeroPlace(2);
    ZeroPlace(3);
    var p0, p1, p2 := Place(b0, 0), Place(b1, 1), Place(b2, 2);
    OrZero(0);
    OrZero(p0);
    OrZero(Place(b, 0));
    OrZero(Or(p0, p1));
    OrZero(Or(p0, Place(b, 1)));
    OrZero(Or(Or(p0, p1), p2));
    OrZero(Or(Or(p0, p1), Place(b, 2)));
  }

  // ---- Padding ----

  lemma PutStep(bytes: seq<Byte>, last: nat, b: Byte)
    requires |bytes| == 64 && last < 64 && forall j :: last <= j < 64 ==> bytes[j] == 0
    ensures Words(bytes[last := b]) == Words(bytes)[last / 4 := Put(Words(bytes)[last / 4], last % 4, b)]
  {
    hide Put, Join, WordAt;
    var i := last / 4;
    var after := bytes[last := b];
    PutHere(bytes, last, b);
    forall j | 0 <= j < 16 && j != i
      ensures Words(after)[j] == Words(bytes)[j]
    {
      PutElsewhere(bytes, last, b, j);
    }
  }

  lemma PutHere(bytes: seq<Byte>, last: nat, b: Byte)
    requires |bytes| == 64 && last < 64 && forall j :: last <= j < 64 ==> bytes[j] == 0
    ensures WordAt(bytes[last := b], last / 4) == Put(WordAt(bytes, last / 4), last % 4, b)
  {
    hide Put, Join;
    var i := last / 4;
    PutJoin(bytes[4 * i], bytes[4 * i + 1], bytes[4 * i + 2], b);
  }

  lemma PutElsewhere(bytes: seq<Byte>, last: nat, b: Byte, j: nat)
    requires |bytes| == 64 && last < 64 && j < 16 && j != last / 4
    ensures WordAt(bytes[last := b], j) == WordAt(bytes, j)
  {
    hide Join;
  }

  lemma ZeroWords()
    ensures Words(Zeros(64)) == Blank(16)
  {
    hide Place;
    ZeroPlace(0);
    ZeroPlace(1);
    ZeroPlace(2);
    ZeroPlace(3);
    OrZero(0);
    assert Join(0, 0, 0, 0) == 0;
    assert forall i :: 0 <= i < 16 ==> WordAt(Zeros(64), i) == 0;
  }

  function Blank(n: nat): seq<Word> { seq(n, _ => 0) }

  /** The last, partial block: its bytes, one bit, zeros. */
  function LastBlock(tail: seq<Byte>): (words: seq<Word>)
    requires |tail| < 64
    ensures |words| == 16
  {
    Words(tail + [0x80] + Zeros(63 - |tail|))
  }

  /** memset and the tail loop: the rest of the message into the zeroed buffer, byte by byte, and the bit. */
  method FillTail(temp: array<Word>, tail: seq<Byte>)
    requires temp.Length == 80 && |tail| < 64
    modifies temp
    ensures temp[..16] == LastBlock(tail)
  {
    hide Words, Put;
    Clear(temp);
    ZeroWords();
    assert tail[..0] + Zeros(64) == Zeros(64);
    var last := 0;
    while last < |tail|
      invariant 0 <= last <= |tail|
      invariant temp[..16] == Words(tail[..last] + Zeros(64 - last))
    {
      ghost var bytes := tail[..last] + Zeros(64 - last);
      PutStep(bytes, last, tail[last]);
      assert bytes[last := tail[last]] == tail[..last + 1] + Zeros(63 - last);
      assert temp[last / 4] == temp[..16][last / 4];
      PutInto(temp, last, tail[last]);
      last := last + 1;
    }
    ghost var bytes := tail + Zeros(64 - last);
    assert tail[..last] == tail;
    PutStep(bytes, last, 0x80);
    assert bytes[last := 0x80] == tail + [0x80] + Zeros(63 - last);
    PutInto(temp, last, 0x80);
  }

  method PutInto(temp: array<Word>, last: nat, b: Byte)
    requires temp.Length == 80 && last < 64
    modifies temp
    ensures temp[..16] == old(temp[..16])[last / 4 := Put(old(temp[..16])[last / 4], last % 4, b)]
  {
    hide Put;
    temp[last / 4] := Put(temp[last / 4], last % 4, b);
  }

  /** memset(temp, 0, sizeof(uint32) * 16) */
  method Clear(temp: array<Word>)
    requires temp.Length == 80
    modifies temp
    ensures temp[..16] == Blank(16)
  {
    forall i | 0 <= i < 16 {
      temp[i] := 0;
    }
  }

  /** Where the last, partial block begins. */
  function Full(len: nat): (block: nat)
    ensures block % 64 == 0 && block <= len < block + 64
  {
    len - len % 64
  }

  /** The block or two after the full ones. */
  function Ending(tail: seq<Byte>, len: nat): (words: seq<Word>)
    requires |tail| < 64
    ensures |words| == if |tail| >= 56 then 32 else 16
  {
    if |tail| >= 56 then LastBlock(tail) + (Blank(15) + [LowBits(len)]) else LastBlock(tail)[15 := LowBits(len)]
  }

  lemma BlockWords(bytes: seq<Byte>)
    requires |bytes| % 64 == 0
    ensures |bytes| % 4 == 0 && |Words(bytes)| == |bytes| / 4 && |Words(bytes)| % 16 == 0
  {
    var q := |bytes| / 64;
    assert |bytes| == 64 * q && |bytes| / 4 == 16 * q;
  }

  /** The words the source hashes: as the standard pads, but with 32 bits of length. */
  function SourcePadding(data: seq<Byte>): (words: seq<Word>)
    ensures |words| % 16 == 0
  {
    BlockWords(data[..Full(|data|)]);
    Blocks(Words(data[..Full(|data|)]), Ending(data[Full(|data|)..], |data|))
  }

  function Blocks(a: seq<Word>, b: seq<Word>): (words: seq<Word>)
    requires |a| % 16 == 0 && |b| % 16 == 0
    ensures |words| % 16 == 0
  {
    a + b
  }

  /** One more full block. */
  lemma FullStep(h: Regs, data: seq<Byte>, block: nat)
    requires block % 64 == 0 && block + 64 <= |data|
    ensures block % 4 == 0 && |Words(data[..block])| % 16 == 0 && |Words(data[block..block + 64])| == 16
    ensures (block + 64) % 4 == 0 && |Words(data[..block + 64])| % 16 == 0
    ensures HashBlocks(h, Words(data[..block + 64]))
         == Compress(HashBlocks(h, Words(data[..block])), Words(data[block..block + 64]))
  {
    hide Compress, HashBlocks, Words;
    var a, b := data[..block], data[block..block + 64];
    assert data[..block + 64] == a + b;
    BlockWords(a);
    BlockWords(b);
    BlockWords(a + b);
    WordsConcat(a, b);
    HashConcat(h, Words(a), Words(b));
    HashOne(HashBlocks(h, Words(a)), Words(b));
  }

  /** The hash after the full blocks of a prefix. */
  ghost function After(h: Regs, prefix: seq<Byte>): Regs
    requires |prefix| % 64 == 0
  {
    BlockWords(prefix);
    HashBlocks(h, Words(prefix))
  }

  /** The first loop of hashSha1: all full blocks. */
  method HashFull(sha: array<Word>, temp: array<Word>, data: seq<Byte>) returns (block: nat)
    requires sha.Length == 5 && temp.Length == 80 && sha != temp
    modifies sha, temp
    ensures block == Full(|data|)
    ensures Value(sha[..]) == After(old(Value(sha[..])), data[..block])
  {
    hide Compress, HashBlocks, Words;
    block := 0;
    ghost var h := Value(sha[..]);
    assert Words(data[..0]) == [] by { NoWords(data); }
    assert HashBlocks(h, []) == h by { HashNone(h); }
    while block + 64 <= |data|
      invariant block % 64 == 0 && block <= |data|
      invariant Value(sha[..]) == After(h, data[..block])
    {
      FullStep(h, data, block);
      ReadBlock(temp, data[block..block + 64]);
      PartHash(sha, temp);
      block := block + 64;
    }
  }

  lemma NoWords(data: seq<Byte>)
    ensures Words(data[..0]) == []
  {
  }

  lemma HashNone(h: Regs)
    ensures HashBlocks(h, []) == h
  {
  }

  /** The inner loop of hashSha1: 64 bytes into 16 words. */
  method ReadBlock(temp: array<Word>, bytes: seq<Byte>)
    requires temp.Length == 80 && |bytes| == 64
    modifies temp
    ensures temp[..16] == Words(bytes)
  {
    hide Join, JoinBackwards;
    var i := 0;
    while i < 16
      invariant 0 <= i <= 16
      invariant forall j :: 0 <= j < i ==> temp[j] == WordAt(bytes, j)
    {
      JoinReversed(bytes[4 * i], bytes[4 * i + 1], bytes[4 * i + 2], bytes[4 * i + 3]);
      temp[i] := JoinBackwards(bytes[4 * i], bytes[4 * i + 1], bytes[4 * i + 2], bytes[4 * i + 3]);
      i := i + 1;
    }
  }

  // ---- The whole function ----

  /** The last loop of hashSha1: the hash value as bytes, from the last to the first. */
  method WriteDigest(sha: array<Word>, dest: array<Byte>)
    requires sha.Length == 5 && dest.Length >= 20
    modifies dest
    ensures dest[..20] == Digest(Value(sha[..])) && dest[20..] == old(dest[20..])
  {
    hide ByteOf;
    var i := 20;
    while i > 0
      invariant 0 <= i <= 20
      invariant forall j :: i <= j < 20 ==> dest[j] == ByteOf(sha[j / 4], j % 4)
      invariant dest[20..] == old(dest[20..])
    {
      i := i - 1;
      dest[i] := ByteOf(sha[i / 4], i % 4);
    }
    DigestBytes(sha[..]);
    assert forall j :: 0 <= j < 20 ==> dest[..20][j] == Digest(Value(sha[..]))[j];
  }

  lemma FiveParts<T>(p: seq<seq<T>>, j: nat)
    requires |p| == 5 && (forall i :: 0 <= i < 5 ==> |p[i]| == 4) && j < 20
    ensures (p[0] + p[1] + p[2] + p[3] + p[4])[j] == p[j / 4][j % 4]
  {
  }

  lemma SplitAt(w: Word, k: nat)
    requires k < 4
    ensures Split(w)[k] == ByteOf(w, k)
  {
    hide ByteOf;
  }

  lemma DigestBytes(sha: seq<Word>)
    requires |sha| == 5
    ensures |Digest(Value(sha))| == 20
    ensures forall j :: 0 <= j < 20 ==> Digest(Value(sha))[j] == ByteOf(sha[j / 4], j % 4)
  {
    hide ByteOf, Split;
    var p := [Split(sha[0]), Split(sha[1]), Split(sha[2]), Split(sha[3]), Split(sha[4])];
    forall j | 0 <= j < 20
      ensures Digest(Value(sha))[j] == ByteOf(sha[j / 4], j % 4)
    {
      FiveParts(p, j);
      SplitAt(sha[j / 4], j % 4);
    }
  }

  /** The bytes of the digest determine the hash value. */
  lemma SplitJoin(w: Word)
    ensures var b := Split(w); Join(b[0], b[1], b[2], b[3]) == w
  {
  }

  /**
   * hashSha1: for every message below 2^29 bytes, the SHA-1 of the standard; and up to where the
   * 32-bit block counter wraps, the hash of the words it pads the message to.
   */
  method HashSha1(data: seq<Byte>, dest: array<Byte>)
    requires |data| + 64 < WORD_SIZE && dest.Length >= 20
    modifies dest
    ensures |data| < 0x2000_0000 ==> dest[..20] == Sha1Spec.Sha1(data)
    ensures dest[..20] == Digest(HashBlocks(H0, SourcePadding(data)))
    ensures dest[20..] == old(dest[20..])
  {
    hide Compress, HashBlocks, Words, Digest, SourcePadding;
    var temp := new Word[80];
    var sha := new Word[5][0x67452301, 0xefcdab89, 0x98badcfe, 0x10325476, 0xc3d2e1f0];
    assert Value(sha[..]) == H0;
    var block := HashFull(sha, temp, data);
    var end := |data| - block;
    FillTail(temp, data[block..]);
    if end >= 56 {
      PartHash(sha, temp);
      Clear(temp);
    }
    temp[15] := LowBits(|data|);
    PartHash(sha, temp);
    WriteDigest(sha, dest);
    SourceHash(data);
    if |data| < 0x2000_0000 {
      PaddingAgrees(data);
    }
  }

  /** What the source computes, block by block. */
  lemma SourceHash(data: seq<Byte>)
    ensures var full, tail := data[..Full(|data|)], data[Full(|data|)..];
            var h := After(H0, full);
            HashBlocks(H0, SourcePadding(data))
              == if |tail| >= 56 then Compress(Compress(h, LastBlock(tail)), Blank(16)[15 := LowBits(|data|)])
                 else Compress(h, LastBlock(tail)[15 := LowBits(|data|)])
  {
    hide Compress, HashBlocks, Words;
    var full, tail := data[..Full(|data|)], data[Full(|data|)..];
    BlockWords(full);
    var ending := Ending(tail, |data|);
    HashConcat(H0, Words(full), ending);
    var h := After(H0, full);
    if |tail| >= 56 {
      var last := Blank(15) + [LowBits(|data|)];
      assert last == Blank(16)[15 := LowBits(|data|)];
      HashConcat(h, LastBlock(tail), last);
      HashOne(h, LastBlock(tail));
      HashOne(Compress(h, LastBlock(tail)), last);
    } else {
      HashOne(h, ending);
    }
  }

  // ---- The padding against the standard ----

  /** The common part of both paddings of the last bytes, without the two length words. */
  function Core(tail: seq<Byte>): seq<Word>
    requires |tail| < 64
  {
    Words(tail + [0x80] + Zeros(if |tail| < 56 then 55 - |tail| else 119 - |tail|))
  }

  lemma BlankWords(n: nat)
    requires n % 4 == 0
    ensures Words(Zeros(n)) == Blank(n / 4)
  {
    hide Place;
    ZeroPlace(0);
    ZeroPlace(1);
    ZeroPlace(2);
    ZeroPlace(3);
    OrZero(0);
    assert Join(0, 0, 0, 0) == 0;
    assert forall i :: 0 <= i < n / 4 ==> WordAt(Zeros(n), i) == 0;
  }

  lemma EndingForm(tail: seq<Byte>, len: nat)
    requires |tail| < 64
    ensures Ending(tail, len) == Core(tail) + [0, LowBits(len)]
  {
    hide Words, LowBits;
    if |tail| < 56 {
      var a := tail + [0x80] + Zeros(55 - |tail|);
      assert tail + [0x80] + Zeros(63 - |tail|) == a + Zeros(8);
      WordsConcat(a, Zeros(8));
      BlankWords(8);
      assert Blank(2) == [0, 0];
      assert LastBlock(tail) == Words(a) + [0, 0];
    } else {
      var a := tail + [0x80] + Zeros(63 - |tail|);
      assert tail + [0x80] + Zeros(119 - |tail|) == a + Zeros(56);
      WordsConcat(a, Zeros(56));
      BlankWords(56);
      assert Blank(14) + [0, LowBits(len)] == Blank(15) + [LowBits(len)];
    }
  }

  lemma ZeroCountIs(len: nat)
    ensures var e := len - Full(len);
            e < 64 && ZeroCount(len) == if e < 56 then 55 - e else 119 - e
  {
  }

  /** The high word of the length vanishes exactly below 2^29 bytes. */
  lemma HighBitsZero(len: nat)
    requires len < WORD_SIZE
    ensures HighBits(len) == 0 <==> len < 0x2000_0000
  {
    WordZero(8 * len / WORD_SIZE);
  }

  lemma WordZero(n: nat)
    requires n < WORD_SIZE
    ensures n as Word == 0 <==> n == 0
  {
  }

  lemma PaddedForm(data: seq<Byte>)
    requires |data| + 64 < WORD_SIZE
    ensures Padded(data)
         == Words(data[..Full(|data|)]) + (Core(data[Full(|data|)..]) + [HighBits(|data|), LowBits(|data|)])
  {
    hide Words, HighBits, LowBits, Core, Full, Stretched, Zeros, ZeroCount;
    CoreForm(data);
    var full, tail := data[..Full(|data|)], data[Full(|data|)..];
    var rest := tail + [0x80] + Zeros(ZeroCount(|data|));
    assert data == full + tail;
    StretchedForm(full, tail, rest);
    assert Padded(data) == Words(Stretched(data)) + [HighBits(|data|), LowBits(|data|)];
    Regroup(Words(full), Words(rest), [HighBits(|data|), LowBits(|data|)]);
  }

  lemma Regroup<T>(a: seq<T>, b: seq<T>, c: seq<T>)
    ensures (a + b) + c == a + (b + c)
  {
  }

  lemma CoreForm(data: seq<Byte>)
    ensures var tail := data[Full(|data|)..];
            |tail| < 64 && Core(tail) == Words(tail + [0x80] + Zeros(ZeroCount(|data|))) && Full(|data|) % 64 == 0
  {
    hide Words, ZeroCount, Zeros;
    ZeroCountIs(|data|);
  }

  lemma RestLength(f: nat, t: nat)
    requires f % 64 == 0
    ensures (t + 1 + ZeroCount(f + t)) % 4 == 0 && f % 4 == 0
  {
    hide ZeroCount;
    FourDivides(f, t + 1 + ZeroCount(f + t));
  }

  lemma FourDivides(f: nat, r: nat)
    requires f % 64 == 0 && (f + r) % 64 == 56
    ensures f % 4 == 0 && r % 4 == 0
  {
    var q, p := (f + r) / 64, f / 64;
    Quarter(f, 16 * p);
    Quarter(r, 16 * q - 16 * p + 14);
  }

  lemma Quarter(n: int, m: int)
    requires n == 4 * m
    ensures n % 4 == 0
  {
  }

  lemma StretchedForm(full: seq<Byte>, tail: seq<Byte>, rest: seq<Byte>)
    requires |full| % 64 == 0 && rest == tail + [0x80] + Zeros(ZeroCount(|full| + |tail|))
    ensures |rest| % 4 == 0 && |full| % 4 == 0 && Words(Stretched(full + tail)) == Words(full) + Words(rest)
  {
    RestLength(|full|, |tail|);
    hide Words, ZeroCount;
    assert Stretched(full + tail) == full + rest;
    WordsConcat(full, rest);
  }

  /** The source pads as the standard does exactly for messages below 2^29 bytes. */
  lemma PaddingAgrees(data: seq<Byte>)
    requires |data| + 64 < WORD_SIZE
    ensures SourcePadding(data) == Padded(data) <==> |data| < 0x2000_0000
  {
    hide Words, Core, Ending, Padded, LowBits, HighBits, SourcePadding;
    EndingForm(data[Full(|data|)..], |data|);
    PaddedForm(data);
    HighBitsZero(|data|);
    SourceForm(data);
    DifferInOne(Words(data[..Full(|data|)]), Core(data[Full(|data|)..]), 0, HighBits(|data|), LowBits(|data|));
  }

  lemma DifferInOne<T>(a: seq<T>, b: seq<T>, x: T, y: T, z: T)
    ensures a + (b + [x, z]) == a + (b + [y, z]) <==> x == y
  {
    assert (a + (b + [x, z]))[|a| + |b|] == x && (a + (b + [y, z]))[|a| + |b|] == y;
  }

  lemma SourceForm(data: seq<Byte>)
    ensures SourcePadding(data) == Words(data[..Full(|data|)]) + Ending(data[Full(|data|)..], |data|)
  {
    hide Words, Ending;
  }
}
