/** Allocation traces: their entries, their bytes, and what replaying them means. */
module Trace {
  newtype Byte = b: int | 0 <= b < 256

  const TWO_32 := 0x1_0000_0000
  const TWO_64 := 0x1_0000_0000_0000_0000

  /** Little-endian numbers. */
  function Number(bytes: seq<Byte>): nat {
    if bytes == [] then 0 else bytes[0] as nat + 256 * Number(bytes[1..])
  }

  function Bytes(n: nat, count: nat): (bytes: seq<Byte>)
    ensures |bytes| == count
  {
    if count == 0 then [] else [(n % 256) as Byte] + Bytes(n / 256, count - 1)
  }

  function Power(count: nat): (p: nat)
    ensures p > 0
  {
    if count == 0 then 1 else 256 * Power(count - 1)
  }

  lemma {:induction false} NumberOfBytes(n: nat, count: nat)
    requires n < Power(count)
    ensures Number(Bytes(n, count)) == n
  {
    if count != 0 {
      NumberOfBytes(n / 256, count - 1);
      assert Bytes(n, count)[1..] == Bytes(n / 256, count - 1);
    }
  }

  lemma Powers()
    ensures Power(4) == TWO_32 && Power(8) == TWO_64
  {
    assert Power(2) == 0x1_0000;
    assert Power(4) == TWO_32;
    assert Power(6) == 0x1_0000_0000_0000;
  }

  datatype Entry =
    | Malloc(time: nat, size: nat, address: nat)
    | Realloc(time: nat, from: nat, size: nat, address: nat)
    | Free(time: nat, address: nat)

  predicate Valid(e: Entry) {
    match e
    case Malloc(t, s, a) => t < TWO_32 && s < TWO_64 && a < TWO_64
    case Realloc(t, f, s, a) => t < TWO_32 && f < TWO_64 && s < TWO_64 && a < TWO_64
    case Free(t, a) => t < TWO_32 && a < TWO_64
  }

  /** Entry length by its command byte; zero for garbage. */
  function Length(command: Byte): nat {
    if command == 1 then 21 else if command == 2 then 29 else if command == 3 then 13 else 0
  }

  function Encode(e: Entry): seq<Byte> {
    match e
    case Malloc(t, s, a) => [1] + Bytes(t, 4) + Bytes(s, 8) + Bytes(a, 8)
    case Realloc(t, f, s, a) => [2] + Bytes(t, 4) + Bytes(f, 8) + Bytes(s, 8) + Bytes(a, 8)
    case Free(t, a) => [3] + Bytes(t, 4) + Bytes(a, 8)
  }

  /** The entry at the front of some bytes. */
  function Decode(bytes: seq<Byte>): Entry
    requires bytes != [] && 0 < Length(bytes[0]) <= |bytes|
  {
    var time := Number(bytes[1..5]);
    if bytes[0] == 1 then Malloc(time, Number(bytes[5..13]), Number(bytes[13..21]))
    else if bytes[0] == 2 then Realloc(time, Number(bytes[5..13]), Number(bytes[13..21]), Number(bytes[21..29]))
    else Free(time, Number(bytes[5..13]))
  }

  /** Where the parts of an entry lie. */
  lemma Slices(c: Byte, t: seq<Byte>, x: seq<Byte>, y: seq<Byte>, z: seq<Byte>, rest: seq<Byte>)
    requires |t| == 4 && |x| == 8 && |y| == 8 && |z| == 8
    ensures var b := [c] + t + x + y + z + rest; b[1..5] == t && b[5..13] == x && b[13..21] == y && b[21..29] == z
  {
    var b := [c] + t + x + y + z + rest;
    assert b[1..] == t + (x + y + z + rest);
    assert b[5..] == x + (y + z + rest);
    assert b[13..] == y + (z + rest);
    assert b[21..] == z + rest;
  }

  lemma DecodeEncode(e: Entry, rest: seq<Byte>)
    requires Valid(e)
    ensures |Encode(e)| == Length(Encode(e)[0]) > 0
    ensures Decode(Encode(e) + rest) == e
  {
    Powers();
    hide Bytes, Number, Power;
    var bytes := Encode(e) + rest;
    NumberOfBytes(e.time, 4);
    NumberOfBytes(e.address, 8);
    assert bytes[1..5] == Bytes(e.time, 4);
    match e
    case Malloc(_, size, address) =>
      NumberOfBytes(size, 8);
      assert bytes[5..13] == Bytes(size, 8) && bytes[13..21] == Bytes(address, 8);
    case Realloc(_, from, size, address) =>
      NumberOfBytes(size, 8);
      NumberOfBytes(from, 8);
      Slices(2, Bytes(e.time, 4), Bytes(from, 8), Bytes(size, 8), Bytes(address, 8), rest);
    case Free(_, address) =>
      assert bytes[5..13] == Bytes(address, 8);
  }

  // ---- Replaying ----

  datatype Fields = Fields(time: nat, mallocs: nat, reallocs: nat, frees: nat, unknownReallocs: nat, unknownFrees: nat)

  /** What the reader prints, in order. A snapshot stands for the printed sum of the live amounts. */
  datatype Output =
    | Snapshot(time: nat, live: map<nat, nat>, unknownFrees: nat)
    | RepeatedEntry(address: nat, size: nat)
    | TimeWentBack(time: nat, after: nat)
    | Garbage(command: Byte)
    | CorruptEnd(count: nat)

  datatype State = State(fields: Fields, live: map<nat, nat>, out: seq<Output>)

  const START := State(Fields(0, 0, 0, 0, 0, 0), map[], [])

  function Print(s: State): State {
    if s.fields.time == 0 then s
    else s.(out := s.out + [Snapshot(s.fields.time, s.live, s.fields.unknownFrees)])
  }

  function Add(s: State, address: nat, size: nat): State {
    if address in s.live then s.(out := s.out + [RepeatedEntry(address, size)])
    else s.(live := s.live[address := size])
  }

  function AtTime(s: State, time: nat): State {
    if time > s.fields.time then
      var s1 := Print(s);
      s1.(fields := s1.fields.(time := time))
    else if time < s.fields.time then s.(out := s.out + [TimeWentBack(time, s.fields.time)])
    else s
  }

  function DoMalloc(s: State, size: nat, address: nat): State {
    var t := Add(s, address, size);
    t.(fields := t.fields.(mallocs := t.fields.mallocs + 1))
  }

  function DoRealloc(s: State, from: nat, size: nat, address: nat): State {
    if from !in s.live then
      Add(s.(fields := s.fields.(unknownReallocs := s.fields.unknownReallocs + 1)), address, size)
    else
      var t := if from != address then Add(s.(live := s.live - {from}), address, size)
               else s.(live := s.live[address := size]);
      t.(fields := t.fields.(reallocs := t.fields.reallocs + 1))
  }

  function DoFree(s: State, address: nat): State {
    if address !in s.live then s.(fields := s.fields.(unknownFrees := s.fields.unknownFrees + 1))
    else s.(live := s.live - {address}, fields := s.fields.(frees := s.fields.frees + 1))
  }

  /** What one entry means. */
  function Replay(s: State, e: Entry): State {
    var t := AtTime(s, e.time);
    match e
    case Malloc(_, size, address) => DoMalloc(t, size, address)
    case Realloc(_, from, size, address) => DoRealloc(t, from, size, address)
    case Free(_, address) => DoFree(t, address)
  }

  function ReplayAll(s: State, es: seq<Entry>): State
    decreases |es|
  {
    if es == [] then s else ReplayAll(Replay(s, es[0]), es[1..])
  }

  // ---- Accounting ----

  function Repeats(out: seq<Output>): nat {
    if out == [] then 0
    else Repeats(out[..|out| - 1]) + if out[|out| - 1].RepeatedEntry? then 1 else 0
  }

  lemma RepeatsAppend(out: seq<Output>, o: Output)
    ensures Repeats(out + [o]) == Repeats(out) + if o.RepeatedEntry? then 1 else 0
  {
    assert (out + [o])[..|out|] == out;
  }

  /** Live allocations are exactly those made and not freed, minus the repeated entries reported. */
  ghost predicate Balanced(s: State) {
    |s.live| + s.fields.frees + Repeats(s.out) == s.fields.mallocs + s.fields.unknownReallocs
  }

  lemma AddBalance(s: State, address: nat, size: nat)
    ensures var t := Add(s, address, size);
            t.fields == s.fields && |t.live| + Repeats(t.out) == |s.live| + Repeats(s.out) + 1
  {
    RepeatsAppend(s.out, RepeatedEntry(address, size));
    if address !in s.live {
      assert s.live[address := size].Keys == s.live.Keys + {address};
    }
  }

  lemma AtTimeBalance(s: State, time: nat)
    ensures var t := AtTime(s, time);
            t.live == s.live && Repeats(t.out) == Repeats(s.out) && t.fields.(time := s.fields.time) == s.fields
  {
    RepeatsAppend(s.out, Snapshot(s.fields.time, s.live, s.fields.unknownFrees));
    RepeatsAppend(s.out, TimeWentBack(time, s.fields.time));
  }

  lemma ReplayBalanced(s: State, e: Entry)
    requires Balanced(s)
    ensures Balanced(Replay(s, e))
  {
    hide Repeats;
    AtTimeBalance(s, e.time);
    var t := AtTime(s, e.time);
    match e
    case Malloc(_, size, address) => AddBalance(t, address, size);
    case Realloc(_, from, size, address) =>
      if from !in t.live {
        AddBalance(t.(fields := t.fields.(unknownReallocs := t.fields.unknownReallocs + 1)), address, size);
      } else if from != address {
        assert (t.live - {from}).Keys == t.live.Keys - {from};
        AddBalance(t.(live := t.live - {from}), address, size);
      } else {
        assert t.live[address := size].Keys == t.live.Keys;
      }
    case Free(_, address) =>
      if address in t.live {
        assert (t.live - {address}).Keys == t.live.Keys - {address};
      }
  }

  // ---- Parsing ----

  /** The state after parsing, how many bytes were used, and whether garbage stopped it. */
  datatype Parsed = Parsed(state: State, used: nat, garbage: bool)

  function Parse(s: State, bytes: seq<Byte>): (r: Parsed)
    ensures r.used <= |bytes|
    decreases |bytes|
  {
    if bytes == [] then Parsed(s, 0, false)
    else
      var n := Length(bytes[0]);
      if n == 0 then Parsed(s.(out := s.out + [Garbage(bytes[0])]), 0, true)
      else if |bytes| < n then Parsed(s, 0, false)
      else
        var r := Parse(Replay(s, Decode(bytes)), bytes[n..]);
        r.(used := n + r.used)
  }

  /** What is carried over to the next read is shorter than the longest entry. */
  lemma {:induction false} CarriedIsShort(s: State, bytes: seq<Byte>)
    ensures var r := Parse(s, bytes); !r.garbage ==> |bytes| - r.used < 29
    decreases |bytes|
  {
    if bytes != [] && 0 < Length(bytes[0]) <= |bytes| {
      CarriedIsShort(Replay(s, Decode(bytes)), bytes[Length(bytes[0])..]);
    }
  }

  /** Decoding looks at one entry only. */
  lemma DecodePrefix(a: seq<Byte>, b: seq<Byte>)
    requires a != [] && 0 < Length(a[0]) <= |a|
    ensures Decode(a + b) == Decode(a)
  {
    var c := a + b;
    assert c[1..5] == a[1..5];
    assert c[5..13] == a[5..13];
    assert c[0] != 3 ==> c[13..21] == a[13..21];
    assert c[0] == 2 ==> c[21..29] == a[21..29];
  }

  /** Parsing can stop anywhere and go on with the unused bytes before the new ones. */
  lemma {:induction false} ParseAppend(s: State, a: seq<Byte>, b: seq<Byte>)
    ensures var r := Parse(s, a);
            if r.garbage then Parse(s, a + b) == r
            else
              var q := Parse(r.state, a[r.used..] + b);
              Parse(s, a + b) == q.(used := r.used + q.used)
    decreases |a|
  {
    hide Replay;
    if a == [] {
      assert a + b == b;
      assert a[0..] + b == b;
    } else {
      var n := Length(a[0]);
      if 0 < n <= |a| {
        DecodePrefix(a, b);
        assert (a + b)[n..] == a[n..] + b;
        var s1 := Replay(s, Decode(a));
        ParseAppend(s1, a[n..], b);
        var r := Parse(s1, a[n..]);
        assert a[n..][r.used..] == a[n + r.used..];
      } else {
        assert a[0..] == a;
      }
    }
  }

  lemma {:induction false} ParseBalanced(s: State, bytes: seq<Byte>)
    requires Balanced(s)
    ensures Balanced(Parse(s, bytes).state)
    decreases |bytes|
  {
    if bytes != [] {
      RepeatsAppend(s.out, Garbage(bytes[0]));
      if 0 < Length(bytes[0]) <= |bytes| {
        ReplayBalanced(s, Decode(bytes));
        ParseBalanced(Replay(s, Decode(bytes)), bytes[Length(bytes[0])..]);
      }
    }
  }

  /** Parse a whole stream once and report a corrupt end. */
  function BeforeLastPrint(stream: seq<Byte>): State {
    var r := Parse(START, stream);
    if !r.garbage && r.used < |stream|
    then r.state.(out := r.state.out + [CorruptEnd(|stream| - r.used)]) else r.state
  }

  /** The reader's whole answer for a stream. */
  function Report(stream: seq<Byte>): State { Print(BeforeLastPrint(stream)) }

  lemma ReportBalanced(stream: seq<Byte>)
    ensures Balanced(Report(stream))
  {
    hide Parse;
    assert Repeats([]) == 0;
    ParseBalanced(START, stream);
    var r := Parse(START, stream);
    var o := CorruptEnd(|stream| - r.used);
    RepeatsAppend(r.state.out, o);
    var s := if !r.garbage && r.used < |stream| then r.state.(out := r.state.out + [o]) else r.state;
    RepeatsAppend(s.out, Snapshot(s.fields.time, s.live, s.fields.unknownFrees));
  }

  // ---- Round trip ----

  function EncodeAll(es: seq<Entry>): seq<Byte> {
    if es == [] then [] else Encode(es[0]) + EncodeAll(es[1..])
  }

  /** Parsing what was encoded replays exactly the entries, and uses every byte. */
  lemma {:induction false} ParseEncoded(s: State, es: seq<Entry>)
    requires forall e :: e in es ==> Valid(e)
    ensures Parse(s, EncodeAll(es)) == Parsed(ReplayAll(s, es), |EncodeAll(es)|, false)
    decreases |es|
  {
    hide Replay, Decode;
    if es != [] {
      var e, rest := es[0], EncodeAll(es[1..]);
      DecodeEncode(e, rest);
      var bytes := Encode(e) + rest;
      assert bytes[|Encode(e)|..] == rest;
      ParseEncoded(Replay(s, e), es[1..]);
    }
  }

  /** A trace that was written is read back as exactly its entries, without a complaint about its form. */
  lemma WrittenTraceReplays(es: seq<Entry>)
    requires forall e :: e in es ==> Valid(e)
    ensures Report(EncodeAll(es)) == Print(ReplayAll(START, es))
  {
    ParseEncoded(START, es);
  }

  lemma {:induction false} EncodeAppend(es: seq<Entry>, e: Entry)
    ensures EncodeAll(es + [e]) == EncodeAll(es) + Encode(e)
  {
    if es == [] {
      assert EncodeAll([]) == [];
      assert (es + [e])[1..] == [];
    } else {
      assert (es + [e])[1..] == es[1..] + [e];
      EncodeAppend(es[1..], e);
    }
  }

  lemma LengthAtMost29(e: Entry)
    ensures |Encode(e)| <= 29
  {
  }
}
