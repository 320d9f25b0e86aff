/**
 * The 64-bit hash of a list (api_hash.h:30-64). A word is a number below 2^64; the bitwise
 * operators are written out on the binary digits, so that every law of theirs is proved here.
 */
module ListHash {
  const SIZE: nat := 0x1_0000_0000_0000_0000

  type Word = x: nat | x < SIZE witness 0

  /** Arithmetic on words is modulo 2^64. */
  function Wrap(n: int): Word { n % SIZE }

  function Pow2(k: nat): (r: nat)
    ensures r > 0
  {
    if k == 0 then 1 else 2 * Pow2(k - 1)
  }

  // ------------------------------------------------------------------------------------------
  // Exclusive or, digit by digit

  function Xor(x: nat, y: nat): nat
    decreases x + y
  {
    if x == 0 && y == 0 then 0 else (x + y) % 2 + 2 * Xor(x / 2, y / 2)
  }

  lemma Digit(b: nat, h: nat)
    requires b < 2
    ensures (b + 2 * h) % 2 == b && (b + 2 * h) / 2 == h
  {
  }

  lemma XorDigits(x: nat, y: nat)
    ensures Xor(x, y) % 2 == (x + y) % 2
    ensures Xor(x, y) / 2 == Xor(x / 2, y / 2)
  {
    var b, h := (x + y) % 2, Xor(x / 2, y / 2);
    assert Xor(x, y) == b + 2 * h;
    hide Xor;
    Digit(b, h);
  }

  lemma {:induction false} XorZero(x: nat)
    ensures Xor(x, 0) == x
  {
    if x > 0 {
      XorZero(x / 2);
    }
  }

  lemma {:induction false} XorCancels(x: nat, s: nat, t: nat)
    ensures Xor(Xor(x, s), Xor(s, t)) == Xor(x, t)
    decreases x + s + t
  {
    if x + s + t > 0 {
      hide Xor;
      var u, v, w := Xor(x, s), Xor(s, t), Xor(x, t);
      XorDigits(x, s);
      XorDigits(s, t);
      XorDigits(x, t);
      XorDigits(u, v);
      XorCancels(x / 2, s / 2, t / 2);
      assert Xor(u, v) / 2 == w / 2;
      Parity(x, s, t, u, v);
      assert Xor(u, v) % 2 == w % 2;
    }
  }

  lemma Parity(x: nat, s: nat, t: nat, u: nat, v: nat)
    requires u % 2 == (x + s) % 2 && v % 2 == (s + t) % 2
    ensures (u + v) % 2 == (x + t) % 2
  {
    SumParity(u, x + s, v, s + t);
    EvenPlus(s, x + t);
    assert x + s + (s + t) == 2 * s + (x + t);
  }

  lemma {:induction false} XorBelow(x: nat, y: nat, n: nat)
    requires x < Pow2(n) && y < Pow2(n)
    ensures Xor(x, y) < Pow2(n)
    decreases n
  {
    if n > 0 {
      XorBelow(x / 2, y / 2, n - 1);
      XorDigits(x, y);
    }
  }

  lemma XorDoubled(x: nat, y: nat)
    ensures Xor(2 * x, 2 * y) == 2 * Xor(x, y)
  {
    XorDigits(2 * x, 2 * y);
    hide Xor;
    EvenHalf(x);
    EvenHalf(y);
    EvenHalf(x + y);
    assert 2 * x + 2 * y == 2 * (x + y);
    Rejoined(Xor(2 * x, 2 * y), Xor(x, y));
  }

  lemma EvenHalf(x: nat)
    ensures 2 * x / 2 == x && 2 * x % 2 == 0
  {
  }

  lemma Rejoined(x: nat, h: nat)
    requires x / 2 == h && x % 2 == 0
    ensures x == 2 * h
  {
  }

  function Top(t: bool, n: nat): nat { if t then Pow2(n) else 0 }

  lemma TopHalf(t: bool, x: nat, n: nat)
    requires n > 0
    ensures (Top(t, n) + x) / 2 == Top(t, n - 1) + x / 2
    ensures (Top(t, n) + x) % 2 == x % 2
  {
    var h := Top(t, n - 1);
    assert Top(t, n) == 2 * h;
    hide Top, Pow2;
  }

  lemma SameNumber(a: nat, b: nat, c: nat, d: nat)
    requires a / 2 == b / 2 && a % 2 == c % 2 && b % 2 == d % 2 && c % 2 == d % 2
    ensures a == b
  {
  }

  lemma TopParity(t: bool, u: bool, x: nat, y: nat, n: nat)
    requires n > 0
    ensures (Top(t, n) + x + Top(u, n) + y) % 2 == (x + y) % 2
  {
    TopHalf(t, x, n);
    TopHalf(u, y, n);
    hide Top;
    SumParity(Top(t, n) + x, x, Top(u, n) + y, y);
  }

  lemma SumParity(p: nat, x: nat, q: nat, y: nat)
    requires p % 2 == x % 2 && q % 2 == y % 2
    ensures (p + q) % 2 == (x + y) % 2
  {
    EvenPlus(p / 2 + q / 2, p % 2 + q % 2);
    EvenPlus(x / 2 + y / 2, x % 2 + y % 2);
    assert p + q == 2 * (p / 2 + q / 2) + (p % 2 + q % 2);
    assert x + y == 2 * (x / 2 + y / 2) + (x % 2 + y % 2);
  }

  lemma EvenPlus(k: nat, r: nat)
    ensures (2 * k + r) % 2 == r % 2
  {
  }

  /** The digits above do not touch those below. */
  lemma {:induction false} XorTop(t: bool, u: bool, x: nat, y: nat, n: nat)
    requires x < Pow2(n) && y < Pow2(n)
    ensures Xor(Top(t, n) + x, Top(u, n) + y) == Top(t != u, n) + Xor(x, y)
    decreases n
  {
    if n == 0 {
      XorOnes(t, u);
    } else {
      assert x / 2 < Pow2(n - 1) && y / 2 < Pow2(n - 1);
      hide Xor, Top, Pow2;
      XorTop(t, u, x / 2, y / 2, n - 1);
      XorTopStep(t, u, x, y, n);
    }
  }

  lemma XorOnes(t: bool, u: bool)
    ensures Xor(Top(t, 0), Top(u, 0)) == Top(t != u, 0) && Xor(0, 0) == 0
  {
    assert Xor(1, 1) == 0 && Xor(1, 0) == 1 && Xor(0, 1) == 1;
  }

  lemma XorTopStep(t: bool, u: bool, x: nat, y: nat, n: nat)
    requires n > 0
    requires Xor(Top(t, n - 1) + x / 2, Top(u, n - 1) + y / 2)
             == Top(t != u, n - 1) + Xor(x / 2, y / 2)
    ensures Xor(Top(t, n) + x, Top(u, n) + y) == Top(t != u, n) + Xor(x, y)
  {
    hide Xor, Top, Pow2;
    var x1, y1 := Top(t, n) + x, Top(u, n) + y;
    TopHalf(t, x, n);
    TopHalf(u, y, n);
    TopHalf(t != u, Xor(x, y), n);
    XorDigits(x1, y1);
    XorDigits(x, y);
    TopParity(t, u, x, y, n);
    SameNumber(Xor(x1, y1), Top(t != u, n) + Xor(x, y), x1 + y1, x + y);
  }

  // ------------------------------------------------------------------------------------------
  // Shifts, one digit at a time

  function Shr(x: nat, k: nat): (r: nat)
    ensures r <= x
  {
    if k == 0 then x else Shr(x / 2, k - 1)
  }

  function Double(x: Word): Word { Wrap(2 * x) }

  function Shl(x: Word, k: nat): Word
    decreases k
  {
    if k == 0 then x else Shl(Double(x), k - 1)
  }

  lemma {:induction false} ShrLinear(x: nat, y: nat, k: nat)
    ensures Shr(Xor(x, y), k) == Xor(Shr(x, k), Shr(y, k))
    decreases k
  {
    if k > 0 {
      XorDigits(x, y);
      ShrLinear(x / 2, y / 2, k - 1);
    }
  }

  lemma {:induction false} ShrTwice(x: nat, j: nat, k: nat)
    ensures Shr(Shr(x, j), k) == Shr(x, j + k)
    decreases j
  {
    if j > 0 {
      ShrTwice(x / 2, j - 1, k);
    }
  }

  lemma {:induction false} ShrOut(x: nat, n: nat, k: nat)
    requires x < Pow2(n) && n <= k
    ensures Shr(x, k) == 0
    decreases k
  {
    if n > 0 {
      ShrOut(x / 2, n - 1, k - 1);
    } else if k > 0 {
      ShrOut(0, 0, k - 1);
    }
  }

  lemma {:induction false} Pow2Sum(j: nat, k: nat)
    ensures Pow2(j + k) == Pow2(j) * Pow2(k)
    decreases j
  {
    if j > 0 {
      Pow2Sum(j - 1, k);
    }
  }

  lemma WordSize()
    ensures Pow2(63) == SIZE / 2 && Pow2(64) == SIZE
  {
    assert Pow2(16) == 0x1_0000;
    Pow2Sum(16, 16);
    Pow2Sum(32, 16);
    Pow2Sum(48, 15);
    assert Pow2(15) == 0x8000;
    assert Pow2(48) == Pow2(32) * 0x1_0000;
    assert Pow2(63) == Pow2(48) * 0x8000;
  }

  lemma DoubleLinear(x: Word, y: Word)
    ensures Xor(x, y) < SIZE && Double(Xor(x, y)) == Xor(Double(x), Double(y))
  {
    hide Pow2, Xor, Double;
    WordSize();
    var t, u := x >= Pow2(63), y >= Pow2(63);
    var x1, y1 := x - Top(t, 63), y - Top(u, 63);
    XorTop(t, u, x1, y1, 63);
    XorBelow(x1, y1, 63);
    XorDoubled(x1, y1);
    Doubled(t, x1);
    Doubled(u, y1);
    Doubled(t != u, Xor(x1, y1));
  }

  lemma Doubled(t: bool, x: nat)
    requires x < Pow2(63)
    ensures Top(t, 63) + x < SIZE && Double(Top(t, 63) + x) == 2 * x
  {
    WordSize();
    hide Pow2;
  }

  lemma {:induction false} ShlLinear(x: Word, y: Word, k: nat)
    ensures Xor(x, y) < SIZE && Shl(Xor(x, y), k) == Xor(Shl(x, k), Shl(y, k))
    decreases k
  {
    DoubleLinear(x, y);
    if k > 0 {
      hide Double, Xor;
      ShlLinear(Double(x), Double(y), k - 1);
    }
  }

  lemma {:induction false} ShlTwice(x: Word, j: nat, k: nat)
    ensures Shl(Shl(x, j), k) == Shl(x, j + k)
    decreases j
  {
    hide Double;
    if j > 0 {
      ShlTwice(Double(x), j - 1, k);
    }
  }

  /** k zero digits come in from below. */
  lemma {:induction false} ShlMultiple(x: Word, m: int, j: nat, k: nat) returns (q: int)
    requires x == m * Pow2(j) && j + k <= 64
    ensures Shl(x, k) == q * Pow2(j + k)
    decreases k
  {
    q := m;
    if k > 0 {
      hide Double, Pow2;
      var m1 := DoubleMultiple(x, m, j);
      q := ShlMultiple(Double(x), m1, j + 1, k - 1);
    }
  }

  lemma DoubleMultiple(x: Word, m: int, j: nat) returns (q: int)
    requires x == m * Pow2(j) && j < 64
    ensures Double(x) == q * Pow2(j + 1)
  {
    var p, up := Pow2(j), Pow2(63 - j);
    WordSize();
    Pow2Sum(63 - j, j + 1);
    DoubledOrLess(x);
    q := if Double(x) == 2 * x then m else m - up;
    Factor(m, up, p);
  }

  lemma Factor(m: int, u: int, p: int)
    ensures 2 * (m * p) == m * (2 * p)
    ensures (m - u) * (2 * p) == m * (2 * p) - u * (2 * p)
  {
  }

  lemma DoubledOrLess(x: Word)
    ensures Double(x) == 2 * x || Double(x) == 2 * x - SIZE
  {
  }

  lemma ShlAll(x: Word)
    ensures Shl(x, 64) == 0
  {
    assert Pow2(0) == 1;
    hide Shl, Pow2;
    WordSize();
    var q := ShlMultiple(x, x, 0, 64);
    hide *;
    NoMultiple(Shl(x, 64), q);
  }

  lemma NoMultiple(x: Word, q: int)
    requires x == q * SIZE
    ensures x == 0
  {
  }

  lemma ShlOut(x: Word)
    ensures Shl(Shl(x, 35), 35) == 0
  {
    hide *;
    ShlAll(x);
    ShlTwice(x, 35, 35);
    ShlTwice(x, 64, 6);
    ShlZero(6);
  }

  lemma {:induction false} ShlZero(k: nat)
    ensures Shl(0, k) == 0
  {
    if k > 0 {
      ShlZero(k - 1);
    }
  }

  // ------------------------------------------------------------------------------------------
  // The steps of the hash

  lemma XorWord(x: Word, y: Word)
    ensures Xor(x, y) < SIZE
  {
    WordSize();
    XorBelow(x, y, 64);
  }

  /** already ^= (already >> k) */
  function Down(x: Word, k: nat): Word {
    XorWord(x, Shr(x, k));
    Xor(x, Shr(x, k))
  }

  /** already ^= (already << 35) */
  function Up(x: Word): Word {
    XorWord(x, Shl(x, 35));
    Xor(x, Shl(x, 35))
  }

  /** Twice with one shift is once with the doubled shift, and in the end nothing at all. */
  lemma DownTwice(x: Word, k: nat)
    ensures Down(Down(x, k), k) == Down(x, 2 * k)
    ensures k >= 32 ==> Down(x, 2 * k) == x
  {
    hide Shr, Xor;
    ShrLinear(x, Shr(x, k), k);
    ShrTwice(x, k, k);
    XorCancels(x, Shr(x, k), Shr(x, 2 * k));
    if k >= 32 {
      WordSize();
      ShrOut(x, 64, 2 * k);
      XorZero(x);
    }
  }

  lemma UpTwice(x: Word)
    ensures Up(Up(x)) == x
  {
    hide Shl, Xor;
    ShlLinear(x, Shl(x, 35), 35);
    ShlOut(x);
    XorCancels(x, Shl(x, 35), 0);
    XorZero(x);
    XorZero(Shl(x, 35));
  }

  /** What HashUpdate does to the hash before adding the value. */
  function Mix(x: Word): Word { Down(Up(Down(x, 21)), 4) }

  /** The same steps undone in turn, from the left and from the right. */
  function LeftUnmix(y: Word): Word {
    Down(Down(Up(Down(Down(Down(Down(y, 4), 8), 16), 32)), 21), 42)
  }

  function RightUnmix(y: Word): Word {
    Down(Down(Up(Down(Down(Down(Down(y, 32), 16), 8), 4)), 42), 21)
  }

  /** Mixing loses nothing: it has an inverse on both sides. */
  lemma MixIsBijective(x: Word)
    ensures LeftUnmix(Mix(x)) == x
    ensures Mix(RightUnmix(x)) == x
  {
    hide Down, Up;
    var a, b := Down(x, 21), Up(Down(x, 21));
    DownTwice(b, 4);
    DownTwice(b, 8);
    DownTwice(b, 16);
    DownTwice(b, 32);
    UpTwice(a);
    DownTwice(x, 21);
    DownTwice(x, 42);
    var c := Down(Down(Down(Down(x, 32), 16), 8), 4);
    DownTwice(x, 32);
    DownTwice(Down(x, 32), 16);
    DownTwice(Down(Down(x, 32), 16), 8);
    DownTwice(Down(Down(Down(x, 32), 16), 8), 4);
    UpTwice(c);
    DownTwice(Up(c), 42);
    DownTwice(Down(Up(c), 42), 21);
  }

  /**
   * HashUpdate. A value of any of the four integer types is first converted to a word, so its
   * residue is all that matters.
   */
  function Updated(h: Word, v: int): Word { Wrap(Mix(h) + v) }

  method HashUpdate(already: Word, value: int) returns (result: Word)
    ensures result == Updated(already, value)
  {
    hide Down, Up;
    result := already;
    result := Down(result, 21);
    result := Up(result);
    result := Down(result, 4);
    result := Wrap(result + value);
  }

  function UndoUpdate(h: Word, v: int): Word { LeftUnmix(Wrap(h - v)) }

  /** With a fixed value the update is a bijection of words. */
  lemma UpdateIsBijective(h: Word, v: int)
    ensures UndoUpdate(Updated(h, v), v) == h
    ensures Updated(RightUnmix(Wrap(h - v)), v) == h
  {
    hide Mix, LeftUnmix, RightUnmix, Wrap;
    MixIsBijective(h);
    MixIsBijective(Wrap(h - v));
    WrapUndone(Mix(h), v);
    WrapUndone(h, -v);
  }

  lemma WrapUndone(m: Word, v: int)
    ensures Wrap(Wrap(m + v) - v) == m
  {
  }

  /** With a fixed hash it tells any two values apart that differ as words. */
  lemma UpdateIsInjective(g: Word, h: Word, v: int, w: int)
    ensures Updated(g, v) == Updated(h, v) <==> g == h
    ensures Updated(g, v) == Updated(g, w) <==> SameWord(v, w)
  {
    HashIsSeen(g, h, v);
    ValueIsSeen(Mix(g), v, w);
    hide Mix, Wrap;
  }

  lemma HashIsSeen(g: Word, h: Word, v: int)
    ensures Updated(g, v) == Updated(h, v) <==> g == h
  {
    hide UndoUpdate, Updated;
    UpdateIsBijective(g, v);
    UpdateIsBijective(h, v);
  }

  predicate SameWord(v: int, w: int) { Wrap(v) == Wrap(w) }

  lemma ValueIsSeen(m: int, v: int, w: int)
    ensures Wrap(m + v) == Wrap(m + w) <==> Wrap(v) == Wrap(w)
  {
  }

  // ------------------------------------------------------------------------------------------
  // The hash of a list

  /** The hash of a list that continues one already hashed. */
  function HashFrom(h: Word, values: seq<int>): Word
    decreases |values|
  {
    if values == [] then h else HashFrom(Updated(h, values[0]), values[1..])
  }

  function HashOf(values: seq<int>): Word { HashFrom(0, values) }

  lemma {:induction false} HashAppend(h: Word, front: seq<int>, back: seq<int>)
    ensures HashFrom(h, front + back) == HashFrom(HashFrom(h, front), back)
    decreases |front|
  {
    hide Updated;
    if front == [] {
      assert front + back == back;
    } else {
      assert (front + back)[1..] == front[1..] + back;
      HashAppend(Updated(h, front[0]), front[1..], back);
    }
  }

  /** CountHash */
  method CountHash(range: seq<int>) returns (result: Word)
    ensures result == HashOf(range)
  {
    hide Updated;
    result := 0;
    for i := 0 to |range|
      invariant HashOf(range) == HashFrom(result, range[i..])
    {
      assert range[i..][1..] == range[i + 1..];
      result := HashUpdate(result, range[i]);
    }
  }

  /** Elsewhere the same words, from here on: equal exactly when the two were equal so far. */
  lemma {:induction false} Continued(g: Word, h: Word, a: seq<int>, b: seq<int>)
    requires |a| == |b| && forall k :: 0 <= k < |a| ==> SameWord(a[k], b[k])
    ensures HashFrom(g, a) == HashFrom(h, b) <==> g == h
    decreases |a|
  {
    if a != [] {
      assert SameWord(a[0], b[0]);
      UpdateIsInjective(g, h, a[0], b[0]);
      UpdateIsInjective(h, h, a[0], b[0]);
      hide Updated;
      Continued(Updated(g, a[0]), Updated(h, b[0]), a[1..], b[1..]);
    }
  }

  /** Lists of one length that agree as words everywhere but perhaps at one place. */
  predicate AgreeExceptAt(a: seq<int>, b: seq<int>, i: nat) {
    |a| == |b| && i < |a| && forall k :: 0 <= k < |a| && k != i ==> SameWord(a[k], b[k])
  }

  /** A change of one element, whichever and wherever, is always seen in the hash. */
  lemma HashSensitivity(a: seq<int>, b: seq<int>, i: nat)
    requires AgreeExceptAt(a, b, i)
    ensures HashOf(a) == HashOf(b) <==> SameWord(a[i], b[i])
  {
    hide Updated, SameWord, HashFrom;
    var h := HashOf(a[..i]);
    Continued(0, 0, a[..i], b[..i]);
    SplitAt(a, i);
    SplitAt(b, i);
    UpdateIsInjective(h, h, a[i], b[i]);
    Continued(Updated(h, a[i]), Updated(h, b[i]), a[i + 1..], b[i + 1..]);
  }

  /** The hash up to an element, then the element, then the rest. */
  lemma SplitAt(a: seq<int>, i: nat)
    requires i < |a|
    ensures HashOf(a) == HashFrom(Updated(HashOf(a[..i]), a[i]), a[i + 1..])
  {
    hide Updated;
    assert a == a[..i] + a[i..];
    HashAppend(0, a[..i], a[i..]);
    assert a[i..][1..] == a[i + 1..];
  }

  /**
   * One difference is the most that can be promised: whatever two lists were hashed, a value
   * at the end of the second makes the hashes equal, and only that value as a word.
   */
  lemma TwoChangesCanCollide(a: seq<int>, b: seq<int>, v: int, w: int)
    ensures HashOf(a + [v]) == HashOf(b + [w])
            <==> SameWord(w, v + Mix(HashOf(a)) - Mix(HashOf(b)))
  {
    hide Mix, HashFrom, Updated, SameWord;
    HashAppend(0, a, [v]);
    HashAppend(0, b, [w]);
    OneMore(HashOf(a), v);
    OneMore(HashOf(b), w);
    Balanced(HashOf(a), HashOf(b), v, w);
  }

  lemma Balanced(g: Word, h: Word, v: int, w: int)
    ensures Updated(g, v) == Updated(h, w) <==> SameWord(w, v + Mix(g) - Mix(h))
  {
    hide Mix, Wrap;
    var d := v + Mix(g) - Mix(h);
    assert Mix(h) + d == Mix(g) + v;
    ValueIsSeen(Mix(h), w, d);
  }

  lemma OneMore(h: Word, v: int)
    ensures HashFrom(h, [v]) == Updated(h, v)
  {
    hide Updated;
    assert [v][1..] == [];
  }

  // ------------------------------------------------------------------------------------------
  // The update, binary digit by binary digit

  function Bit(x: nat, i: nat): nat { if i == 0 then x % 2 else Bit(x / 2, i - 1) }

  lemma {:induction false} BitOfXor(x: nat, y: nat, i: nat)
    ensures Bit(Xor(x, y), i) == (Bit(x, i) + Bit(y, i)) % 2
    decreases i
  {
    hide Xor;
    XorDigits(x, y);
    if i == 0 {
      SumParity(x, x % 2, y, y % 2);
    } else {
      BitOfXor(x / 2, y / 2, i - 1);
    }
  }

  lemma {:induction false} BitOfShr(x: nat, k: nat, i: nat)
    ensures Bit(Shr(x, k), i) == Bit(x, i + k)
    decreases k
  {
    if k > 0 {
      BitOfShr(x / 2, k - 1, i);
    }
  }

  lemma {:induction false} BitAbove(x: nat, n: nat, i: nat)
    requires x < Pow2(n) && n <= i
    ensures Bit(x, i) == 0
    decreases i
  {
    if i > 0 {
      assert n > 0 ==> x / 2 < Pow2(n - 1);
      BitAbove(x / 2, if n > 0 then n - 1 else 0, i - 1);
    }
  }

  lemma {:induction false} BitBelow(t: bool, x: nat, n: nat, i: nat)
    requires i < n
    ensures Bit(Top(t, n) + x, i) == Bit(x, i)
    decreases i
  {
    hide Top;
    TopHalf(t, x, n);
    if i > 0 {
      BitBelow(t, x / 2, n - 1, i - 1);
    }
  }

  lemma BitOfDouble(x: Word, i: nat)
    requires i < 64
    ensures Bit(Double(x), i) == if i == 0 then 0 else Bit(x, i - 1)
  {
    hide Pow2, Double;
    WordSize();
    var t := x >= Pow2(63);
    var x1 := x - Top(t, 63);
    Doubled(t, x1);
    EvenHalf(x1);
    if i > 0 {
      BitBelow(t, x1, 63, i - 1);
    }
  }

  lemma {:induction false} BitOfShl(x: Word, k: nat, i: nat)
    requires i < 64
    ensures Bit(Shl(x, k), i) == if i < k then 0 else Bit(x, i - k)
    decreases k
  {
    hide Double, Bit;
    if k > 0 {
      BitOfShl(Double(x), k - 1, i);
      if i >= k - 1 {
        BitOfDouble(x, i - (k - 1));
      }
    }
  }

  /** A word is its 64 digits. */
  lemma {:induction false} SameBits(x: nat, y: nat, n: nat)
    requires x < Pow2(n) && y < Pow2(n) && forall i :: 0 <= i < n ==> Bit(x, i) == Bit(y, i)
    ensures x == y
    decreases n
  {
    if n > 0 {
      assert Bit(x, 0) == Bit(y, 0);
      forall i | 0 <= i < n - 1 ensures Bit(x / 2, i) == Bit(y / 2, i) {
        assert Bit(x, i + 1) == Bit(y, i + 1);
      }
      SameBits(x / 2, y / 2, n - 1);
    }
  }

  /** The sum modulo two of two digits of x: its own, and the one k places to the left. */
  function DownBit(x: nat, k: nat, i: nat): nat { (Bit(x, i) + if i + k < 64 then Bit(x, i + k) else 0) % 2 }

  /** The same with the one k places to the right. */
  function UpBit(x: nat, k: nat, i: nat): nat { (Bit(x, i) + if i >= k then Bit(x, i - k) else 0) % 2 }

  ghost predicate FoldedDown(x: Word, k: nat, y: Word) {
    forall i {:trigger Bit(y, i)} :: 0 <= i < 64 ==> Bit(y, i) == DownBit(x, k, i)
  }

  ghost predicate FoldedUp(x: Word, k: nat, y: Word) {
    forall i {:trigger Bit(y, i)} :: 0 <= i < 64 ==> Bit(y, i) == UpBit(x, k, i)
  }

  lemma DownDigit(x: Word, k: nat, i: nat)
    requires i < 64
    ensures Bit(Down(x, k), i) == DownBit(x, k, i)
  {
    hide Bit, Shr, Xor;
    BitOfXor(x, Shr(x, k), i);
    BitOfShr(x, k, i);
    if i + k >= 64 {
      WordSize();
      BitAbove(x, 64, i + k);
    }
  }

  lemma UpDigit(x: Word, i: nat)
    requires i < 64
    ensures Bit(Up(x), i) == UpBit(x, 35, i)
  {
    hide Bit, Shl, Xor;
    BitOfXor(x, Shl(x, 35), i);
    BitOfShl(x, 35, i);
  }

  /**
   * The hash is folded 21 places down, 35 places up and 4 places down, digit by digit, and then the value is
   * added modulo 2^64. As a word is its digits, this leaves no other result.
   */
  lemma UpdateDigits(h: Word, v: int) returns (a: Word, b: Word, c: Word)
    ensures FoldedDown(h, 21, a) && FoldedUp(a, 35, b) && FoldedDown(b, 4, c)
    ensures Updated(h, v) == (c + v) % 0x1_0000_0000_0000_0000
    ensures forall x, y, z :: FoldedDown(h, 21, x) && FoldedUp(x, 35, y) && FoldedDown(y, 4, z) ==> z == c
  {
    hide Down, Up, FoldedDown, FoldedUp;
    a, b, c := Down(h, 21), Up(Down(h, 21)), Down(Up(Down(h, 21)), 4);
    DownFolds(h, 21);
    UpFolds(a);
    DownFolds(b, 4);
    forall x, y, z | FoldedDown(h, 21, x) && FoldedUp(x, 35, y) && FoldedDown(y, 4, z) ensures z == c {
      OneFoldedDown(h, 21, x, a);
      OneFoldedUp(a, 35, y, b);
      OneFoldedDown(b, 4, z, c);
    }
  }

  lemma DownFolds(x: Word, k: nat)
    ensures FoldedDown(x, k, Down(x, k))
  {
    hide Bit, Down, DownBit;
    forall i | 0 <= i < 64 ensures Bit(Down(x, k), i) == DownBit(x, k, i) {
      DownDigit(x, k, i);
    }
  }

  lemma UpFolds(x: Word)
    ensures FoldedUp(x, 35, Up(x))
  {
    hide Bit, Up, UpBit;
    forall i | 0 <= i < 64 ensures Bit(Up(x), i) == UpBit(x, 35, i) {
      UpDigit(x, i);
    }
  }

  lemma OneFoldedDown(x: Word, k: nat, y: Word, z: Word)
    requires FoldedDown(x, k, y) && FoldedDown(x, k, z)
    ensures y == z
  {
    hide Bit, DownBit;
    WordSize();
    forall i | 0 <= i < 64 ensures Bit(y, i) == Bit(z, i) {
      assert Bit(y, i) == DownBit(x, k, i);
    }
    SameBits(y, z, 64);
  }

  lemma OneFoldedUp(x: Word, k: nat, y: Word, z: Word)
    requires FoldedUp(x, k, y) && FoldedUp(x, k, z)
    ensures y == z
  {
    hide Bit, UpBit;
    WordSize();
    forall i | 0 <= i < 64 ensures Bit(y, i) == Bit(z, i) {
      assert Bit(y, i) == UpBit(x, k, i);
    }
    SameBits(y, z, 64);
  }
}
