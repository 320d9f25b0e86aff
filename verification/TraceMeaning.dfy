/** What a replayed trace means, said of its entries alone, and which entries a stream of bytes holds. */
module TraceMeaning {
  import opened Trace

  // ---- Amounts ----

  /** The entry frees the block at the address, or moves it elsewhere. */
  predicate Ends(e: Entry, a: nat) {
    (e.Free? && e.address == a) || (e.Realloc? && e.from == a && e.address != a)
  }

  predicate InPlace(e: Entry, a: nat) { e.Realloc? && e.from == a && e.address == a }

  /** The entry brings a block to the address, new or moved from elsewhere. */
  predicate Brings(e: Entry, a: nat) {
    (e.Malloc? && e.address == a) || (e.Realloc? && e.from != a && e.address == a)
  }

  predicate Gives(e: Entry, a: nat) { InPlace(e, a) || Brings(e, a) }

  predicate EndsAt(es: seq<Entry>, k: int, a: nat) { 0 <= k < |es| && Ends(es[k], a) }

  predicate GivesAt(es: seq<Entry>, j: int, a: nat) { 0 <= j < |es| && Gives(es[j], a) }

  predicate InPlaceAt(es: seq<Entry>, k: int, a: nat) { 0 <= k < |es| && InPlace(es[k], a) }

  /** There is a block at the address after the first n entries: one came and has not gone since. */
  ghost predicate LiveAfter(es: seq<Entry>, n: int, a: nat) {
    exists j :: GivesAt(es, j, a) && j < n && forall k :: j < k < n ==> !EndsAt(es, k, a)
  }

  /** The entry sets the amount: in place always, otherwise only if nothing is there yet. */
  ghost predicate SetsAt(es: seq<Entry>, i: int, a: nat) {
    GivesAt(es, i, a) && (InPlaceAt(es, i, a) || !LiveAfter(es, i, a))
  }

  /** And it is the last one to do so before the first n entries are over. */
  ghost predicate LastSetAt(es: seq<Entry>, n: int, i: int, a: nat) {
    SetsAt(es, i, a) && i < n && forall k :: i < k < n ==> !EndsAt(es, k, a) && !InPlaceAt(es, k, a)
  }

  /** What one entry does to one address: nothing else matters to it. */
  lemma OneAddress(s: State, e: Entry, a: nat)
    ensures var t := Replay(s, e);
            && (a in t.live <==> Gives(e, a) || (a in s.live && !Ends(e, a)))
            && (a in t.live ==>
                  t.live[a] == if InPlace(e, a) || (Brings(e, a) && a !in s.live) then e.size else s.live[a])
  {
  }

  lemma {:induction false} ReplayOne(s: State, es: seq<Entry>, e: Entry)
    ensures ReplayAll(s, es + [e]) == Replay(ReplayAll(s, es), e)
    decreases |es|
  {
    hide Replay;
    if es == [] {
      assert es + [e] == [e] && [e][1..] == [];
    } else {
      assert (es + [e])[1..] == es[1..] + [e];
      ReplayOne(Replay(s, es[0]), es[1..], e);
    }
  }

  /** The state after the first n entries. */
  function After(es: seq<Entry>, n: nat): State
    requires n <= |es|
  {
    ReplayAll(START, es[..n])
  }

  lemma AfterOneMore(es: seq<Entry>, n: nat)
    requires n < |es|
    ensures After(es, n + 1) == Replay(After(es, n), es[n])
  {
    assert es[..n + 1] == es[..n] + [es[n]];
    ReplayOne(START, es[..n], es[n]);
  }

  lemma LiveStep(es: seq<Entry>, n: nat, a: nat)
    requires n < |es|
    ensures LiveAfter(es, n + 1, a) <==> Gives(es[n], a) || (LiveAfter(es, n, a) && !Ends(es[n], a))
  {
    assert GivesAt(es, n, a) <==> Gives(es[n], a);
    assert EndsAt(es, n, a) <==> Ends(es[n], a);
    if j :| GivesAt(es, j, a) && j < n && forall k :: j < k < n ==> !EndsAt(es, k, a) {
      if !Ends(es[n], a) {
        assert forall k :: j < k < n + 1 ==> !EndsAt(es, k, a);
      }
    }
  }

  /** A block is in the map exactly when one came to that address and has not gone since. */
  lemma {:induction false} LiveIs(es: seq<Entry>, n: nat, a: nat)
    requires n <= |es|
    ensures a in After(es, n).live <==> LiveAfter(es, n, a)
  {
    if n > 0 {
      hide Replay, LiveAfter;
      LiveIs(es, n - 1, a);
      AfterOneMore(es, n - 1);
      OneAddress(After(es, n - 1), es[n - 1], a);
      LiveStep(es, n - 1, a);
    }
  }

  /** The amount at an address, if any, is the size of the last entry that set it. */
  ghost predicate AmountFits(es: seq<Entry>, n: nat, a: nat, live: map<nat, nat>) {
    && (forall i :: LastSetAt(es, n, i, a) ==> a in live && live[a] == es[i].size)
    && (a in live ==> exists i :: LastSetAt(es, n, i, a))
  }

  /** Which entries are the last to set it, one entry later. */
  lemma LastSetMore(es: seq<Entry>, n: nat, more: nat, a: nat, i: nat)
    requires n < |es| && more == n + 1
    ensures i < n ==>
              (LastSetAt(es, more, i, a) <==> LastSetAt(es, n, i, a) && !Ends(es[n], a) && !InPlace(es[n], a))
    ensures i == n ==> (LastSetAt(es, more, i, a) <==> InPlace(es[n], a) || (Brings(es[n], a) && !LiveAfter(es, n, a)))
    ensures i > n ==> !LastSetAt(es, more, i, a)
  {
    hide LiveAfter, Ends, InPlace, Brings;
    assert EndsAt(es, n, a) <==> Ends(es[n], a);
    assert InPlaceAt(es, n, a) <==> InPlace(es[n], a);
    assert GivesAt(es, n, a) <==> Gives(es[n], a);
  }

  lemma AmountStep(es: seq<Entry>, n: nat, a: nat, live: map<nat, nat>, more: map<nat, nat>)
    requires n < |es| && AmountFits(es, n, a, live) && (a in live <==> LiveAfter(es, n, a))
    requires a in more <==> Gives(es[n], a) || (a in live && !Ends(es[n], a))
    requires a in more ==> more[a] == if InPlace(es[n], a) || (Brings(es[n], a) && a !in live) then es[n].size
                                      else live[a]
    ensures AmountFits(es, n + 1, a, more)
  {
    LastSetMore(es, n, n + 1, a, n);
    NotBoth(es[n], a);
    forall i | LastSetAt(es, n + 1, i, a) ensures a in more && more[a] == es[i].size {
      LastSetMore(es, n, n + 1, a, i);
    }
    if a in more && !LastSetAt(es, n + 1, n, a) {
      var i :| LastSetAt(es, n, i, a);
      LastSetMore(es, n, n + 1, a, i);
      assert LastSetAt(es, n + 1, i, a);
    }
  }

  lemma NotBoth(e: Entry, a: nat)
    ensures !(InPlace(e, a) && Brings(e, a)) && !(Gives(e, a) && Ends(e, a))
  {
  }

  lemma {:induction false} AmountIs(es: seq<Entry>, n: nat, a: nat)
    requires n <= |es|
    ensures AmountFits(es, n, a, After(es, n).live)
  {
    if n > 0 {
      hide Replay, LiveAfter, AmountFits, After, LastSetAt;
      AmountIs(es, n - 1, a);
      AfterOneMore(es, n - 1);
      OneAddress(After(es, n - 1), es[n - 1], a);
      LiveIs(es, n - 1, a);
      AmountStep(es, n - 1, a, After(es, n - 1).live, After(es, n).live);
    }
  }

  /**
   * An address is live with an amount exactly when an entry brought a block of that size to it while nothing
   * was there, or reallocated it in place to that size, and since then no entry freed it, moved it away or
   * reallocated it in place. Repeated entries change nothing.
   */
  lemma LiveExactlyWhen(es: seq<Entry>, a: nat, amount: nat)
    ensures var live := ReplayAll(START, es).live;
            (a in live && live[a] == amount) <==> exists i :: LastSetAt(es, |es|, i, a) && es[i].size == amount
  {
    hide LastSetAt, ReplayAll;
    assert es[..|es|] == es;
    AmountIs(es, |es|, a);
  }

  // ---- Counters and the clock ----

  ghost predicate FreesAt(es: seq<Entry>, i: int, known: bool) {
    0 <= i < |es| && es[i].Free? && (LiveAfter(es, i, es[i].address) <==> known)
  }

  ghost predicate ReallocsAt(es: seq<Entry>, i: int, known: bool) {
    0 <= i < |es| && es[i].Realloc? && (LiveAfter(es, i, es[i].from) <==> known)
  }

  predicate MallocsAt(es: seq<Entry>, i: int) { 0 <= i < |es| && es[i].Malloc? }

  /** How many marks are set. */
  function Count(marks: seq<bool>): nat {
    if marks == [] then 0 else Count(marks[..|marks| - 1]) + if marks[|marks| - 1] then 1 else 0
  }

  ghost function Frees(es: seq<Entry>, n: nat, known: bool): nat { Count(seq(n, i => FreesAt(es, i, known))) }

  ghost function Reallocs(es: seq<Entry>, n: nat, known: bool): nat { Count(seq(n, i => ReallocsAt(es, i, known))) }

  ghost function Mallocs(es: seq<Entry>, n: nat): nat { Count(seq(n, i => MallocsAt(es, i))) }

  lemma CountMore(marks: seq<bool>, more: seq<bool>, mark: bool)
    requires more == marks + [mark]
    ensures Count(more) == Count(marks) + if mark then 1 else 0
  {
    assert more[..|marks|] == marks;
  }

  lemma FreesStep(es: seq<Entry>, n: nat, known: bool)
    ensures Frees(es, n + 1, known) == Frees(es, n, known) + if FreesAt(es, n, known) then 1 else 0
  {
    hide FreesAt;
    CountMore(seq(n, i => FreesAt(es, i, known)), seq(n + 1, i => FreesAt(es, i, known)), FreesAt(es, n, known));
  }

  lemma ReallocsStep(es: seq<Entry>, n: nat, known: bool)
    ensures Reallocs(es, n + 1, known) == Reallocs(es, n, known) + if ReallocsAt(es, n, known) then 1 else 0
  {
    hide ReallocsAt;
    CountMore(seq(n, i => ReallocsAt(es, i, known)), seq(n + 1, i => ReallocsAt(es, i, known)),
              ReallocsAt(es, n, known));
  }

  lemma MallocsStep(es: seq<Entry>, n: nat)
    ensures Mallocs(es, n + 1) == Mallocs(es, n) + if MallocsAt(es, n) then 1 else 0
  {
    hide MallocsAt;
    CountMore(seq(n, i => MallocsAt(es, i)), seq(n + 1, i => MallocsAt(es, i)), MallocsAt(es, n));
  }

  /** The latest time of the first n entries, zero if there are none. */
  ghost predicate Clock(es: seq<Entry>, n: nat, time: nat) {
    && (forall i :: 0 <= i < n && i < |es| ==> es[i].time <= time)
    && (time == 0 || exists i :: 0 <= i < n && i < |es| && es[i].time == time)
  }

  lemma ReplayCounts(s: State, e: Entry)
    ensures var f, g := s.fields, Replay(s, e).fields;
            && g.mallocs == f.mallocs + (if e.Malloc? then 1 else 0)
            && g.frees == f.frees + (if e.Free? && e.address in s.live then 1 else 0)
            && g.unknownFrees == f.unknownFrees + (if e.Free? && e.address !in s.live then 1 else 0)
            && g.reallocs == f.reallocs + (if e.Realloc? && e.from in s.live then 1 else 0)
            && g.unknownReallocs == f.unknownReallocs + (if e.Realloc? && e.from !in s.live then 1 else 0)
            && g.time == if e.time > f.time then e.time else f.time
  {
  }

  /** The counters count the entries of each kind by whether their block was there; the clock never goes back. */
  lemma {:induction false} CountersAre(es: seq<Entry>, n: nat)
    requires n <= |es|
    ensures var f := After(es, n).fields;
            && f.mallocs == Mallocs(es, n)
            && f.frees == Frees(es, n, true) && f.unknownFrees == Frees(es, n, false)
            && f.reallocs == Reallocs(es, n, true) && f.unknownReallocs == Reallocs(es, n, false)
            && Clock(es, n, f.time)
  {
    if n == 0 {
      NoneCounted(es);
    } else {
      hide Replay, LiveAfter, Frees, Reallocs, Mallocs;
      var m := n - 1;
      CountersAre(es, m);
      AfterOneMore(es, m);
      ReplayCounts(After(es, m), es[m]);
      if !es[m].Malloc? {
        LiveIs(es, m, if es[m].Free? then es[m].address else es[m].from);
      }
      FreesStep(es, m, true);
      FreesStep(es, m, false);
      ReallocsStep(es, m, true);
      ReallocsStep(es, m, false);
      MallocsStep(es, m);
      ClockStep(es, m, After(es, m).fields.time);
    }
  }

  lemma ClockStep(es: seq<Entry>, n: nat, time: nat)
    requires n < |es| && Clock(es, n, time)
    ensures Clock(es, n + 1, if es[n].time > time then es[n].time else time)
  {
    if i :| 0 <= i < n && i < |es| && es[i].time == time {
      assert 0 <= i < n + 1 && es[i].time == time;
    }
  }

  lemma NoneCounted(es: seq<Entry>)
    ensures Mallocs(es, 0) == 0 && Frees(es, 0, true) == 0 && Frees(es, 0, false) == 0
    ensures Reallocs(es, 0, true) == 0 && Reallocs(es, 0, false) == 0
  {
  }

  // ---- What is printed ----

  /** What an entry has printed: the state before the clock moves on, a time that goes back, a repeated block. */
  ghost function Printed(es: seq<Entry>, n: nat): seq<Output>
    requires n < |es|
  {
    var e, s := es[n], After(es, n);
    (if e.time > s.fields.time
     then (if s.fields.time == 0 then [] else [Snapshot(s.fields.time, s.live, s.fields.unknownFrees)])
     else if e.time < s.fields.time then [TimeWentBack(e.time, s.fields.time)] else [])
    + (if !e.Free? && Brings(e, e.address) && LiveAfter(es, n, e.address) then [RepeatedEntry(e.address, e.size)]
       else [])
  }

  ghost function AllPrinted(es: seq<Entry>, n: nat): seq<Output>
    requires n <= |es|
  {
    if n == 0 then [] else AllPrinted(es, n - 1) + Printed(es, n - 1)
  }

  lemma {:induction false} PrintedInOrder(es: seq<Entry>, n: nat)
    requires n <= |es|
    ensures After(es, n).out == AllPrinted(es, n)
  {
    if n > 0 {
      var m := n - 1;
      PrintedInOrder(es, m);
      AfterOneMore(es, m);
      LiveIs(es, m, es[m].address);
      hide LiveAfter, After;
      ReplayPrints(After(es, m), es[m]);
    }
  }

  lemma ReplayPrints(s: State, e: Entry)
    ensures Replay(s, e).out == s.out
      + (if e.time > s.fields.time
         then (if s.fields.time == 0 then [] else [Snapshot(s.fields.time, s.live, s.fields.unknownFrees)])
         else if e.time < s.fields.time then [TimeWentBack(e.time, s.fields.time)] else [])
      + (if !e.Free? && Brings(e, e.address) && e.address in s.live then [RepeatedEntry(e.address, e.size)] else [])
  {
  }

  // ---- Every stream ----

  lemma NumberOfOne(bytes: seq<Byte>)
    requires bytes != []
    ensures Number(bytes) == bytes[0] as nat + 256 * Number(bytes[1..]) && Power(|bytes|) == 256 * Power(|bytes| - 1)
  {
  }

  lemma LowByte(b: nat, n: nat, p: nat)
    requires b < 256 && n < p
    ensures (b + 256 * n) % 256 == b && (b + 256 * n) / 256 == n && b + 256 * n < 256 * p
  {
  }

  lemma BytesOfOne(n: nat, count: nat)
    requires count > 0
    ensures Bytes(n, count) == [(n % 256) as Byte] + Bytes(n / 256, count - 1)
  {
  }

  lemma {:induction false} BytesOfNumber(bytes: seq<Byte>)
    ensures Bytes(Number(bytes), |bytes|) == bytes && Number(bytes) < Power(|bytes|)
  {
    if bytes != [] {
      hide Bytes, Number, Power;
      var rest := bytes[1..];
      BytesOfNumber(rest);
      NumberOfOne(bytes);
      LowByte(bytes[0] as nat, Number(rest), Power(|rest|));
      BytesOfOne(Number(bytes), |bytes|);
      assert bytes == [bytes[0]] + rest;
    }
  }

  lemma ThreeParts(b: seq<Byte>)
    requires |b| >= 13
    ensures b[..13] == [b[0]] + b[1..5] + b[5..13]
    ensures |b| >= 21 ==> b[..21] == [b[0]] + b[1..5] + b[5..13] + b[13..21]
    ensures |b| >= 29 ==> b[..29] == [b[0]] + b[1..5] + b[5..13] + b[13..21] + b[21..29]
  {
  }

  /** A whole entry of bytes is the encoding of what it decodes to. */
  lemma EncodeDecode(bytes: seq<Byte>)
    requires bytes != [] && 0 < Length(bytes[0]) <= |bytes|
    ensures Encode(Decode(bytes)) == bytes[..Length(bytes[0])] && Valid(Decode(bytes))
  {
    hide Bytes, Number, Power;
    Powers();
    ThreeParts(bytes);
    BytesOfNumber(bytes[1..5]);
    BytesOfNumber(bytes[5..13]);
    if bytes[0] != 3 {
      BytesOfNumber(bytes[13..21]);
    }
    if bytes[0] == 2 {
      BytesOfNumber(bytes[21..29]);
    }
  }

  /** What cannot be read of a stream: nothing, a byte that is no command, or the beginning of an entry. */
  predicate Unreadable(tail: seq<Byte>) { tail == [] || Length(tail[0]) == 0 || |tail| < Length(tail[0]) }

  function Complaint(tail: seq<Byte>): seq<Output> {
    if tail == [] then []
    else if Length(tail[0]) == 0 then [Garbage(tail[0])]
    else [CorruptEnd(|tail|)]
  }

  function Complained(s: State, tail: seq<Byte>): State { s.(out := s.out + Complaint(tail)) }

  lemma OneEntry(s: State, e: Entry, more: seq<Entry>, tail: seq<Byte>)
    ensures EncodeAll([e] + more) + tail == Encode(e) + (EncodeAll(more) + tail)
    ensures |EncodeAll([e] + more)| == |Encode(e)| + |EncodeAll(more)|
    ensures ReplayAll(s, [e] + more) == ReplayAll(Replay(s, e), more)
  {
    hide Replay, Encode;
    assert ([e] + more)[1..] == more;
  }

  lemma ParseEntry(s: State, stream: seq<Byte>)
    requires !Unreadable(stream)
    ensures var n := Length(stream[0]);
            var r := Parse(Replay(s, Decode(stream)), stream[n..]);
            Parse(s, stream) == r.(used := n + r.used)
  {
    hide Replay, Decode;
  }

  lemma {:induction false} Split(s: State, stream: seq<Byte>) returns (es: seq<Entry>, tail: seq<Byte>)
    ensures stream == EncodeAll(es) + tail && Unreadable(tail) && forall e :: e in es ==> Valid(e)
    ensures var r := Parse(s, stream);
            && r.garbage == (tail != [] && Length(tail[0]) == 0) && r.used == |EncodeAll(es)|
            && r.state == if r.garbage then Complained(ReplayAll(s, es), tail) else ReplayAll(s, es)
    decreases |stream|
  {
    if Unreadable(stream) {
      es, tail := [], stream;
      assert EncodeAll([]) + stream == stream;
    } else {
      hide Replay, Decode, Encode, EncodeAll, ReplayAll, Parse, Complained;
      var n := Length(stream[0]);
      var e := Decode(stream);
      EncodeDecode(stream);
      var more;
      more, tail := Split(Replay(s, e), stream[n..]);
      es := [e] + more;
      OneEntry(s, e, more, tail);
      ParseEntry(s, stream);
      assert stream == stream[..n] + stream[n..];
    }
  }

  /**
   * Every stream is a list of entries, written one after the other, and an unreadable rest; the reader's
   * answer is the replay of exactly these entries, and a complaint about the rest if there is any.
   */
  lemma ReportIsReplay(stream: seq<Byte>) returns (es: seq<Entry>, tail: seq<Byte>)
    ensures stream == EncodeAll(es) + tail && Unreadable(tail) && forall e :: e in es ==> Valid(e)
    ensures Report(stream) == Print(Complained(ReplayAll(START, es), tail))
  {
    hide ReplayAll, EncodeAll, Parse;
    es, tail := Split(START, stream);
    assert |stream| - |EncodeAll(es)| == |tail|;
    if tail == [] {
      var s := ReplayAll(START, es);
      assert s.out + [] == s.out;
    }
  }
}
