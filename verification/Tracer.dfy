/** The allocation tracer that writes the trace file (base_linux_allocation_tracer.cpp:29-137). */
module Tracer {
  import opened Trace

  const BUFFER_SIZE := 1024 * 1024

  /** A traced allocation call with its result. */
  datatype Call =
    | CallMalloc(size: nat, result: nat)
    | CallCalloc(num: nat, size: nat, result: nat)
    | CallRealloc(from: nat, size: nat, result: nat)
    | CallFree(address: nat)

  /** Machine words. */
  predicate InRange(c: Call) {
    match c
    case CallMalloc(s, r) => s < TWO_64 && r < TWO_64
    case CallCalloc(n, s, r) => n < TWO_64 && s < TWO_64 && r < TWO_64
    case CallRealloc(f, s, r) => f < TWO_64 && s < TWO_64 && r < TWO_64
    case CallFree(a) => a < TWO_64
  }

  /** The entries a call leaves in the trace: null is never freed or reallocated. */
  function Logged(c: Call, time: nat): (es: seq<Entry>)
    ensures InRange(c) ==> forall e :: e in es ==> Valid(e)
  {
    var t := time % TWO_32;
    match c
    case CallMalloc(size, result) => [Malloc(t, size, result)]
    case CallCalloc(num, size, result) => [Malloc(t, num * size % TWO_64, result)]
    case CallRealloc(from, size, result) =>
      if from == 0 then [Malloc(t, size, result)] else [Realloc(t, from, size, result)]
    case CallFree(address) => if address == 0 then [] else [Free(t, address)]
  }

  class AllocationTracer {
    const buffer: array<Byte>
    var used: nat
    var file: seq<Byte>
    var open: bool
    ghost var entries: seq<Entry>

    /** The file and the filled part of the buffer together are the trace so far. */
    ghost predicate Ready()
      reads this, buffer
    {
      && buffer.Length == BUFFER_SIZE && used <= BUFFER_SIZE
      && file + buffer[..used] == EncodeAll(entries)
      && forall e :: e in entries ==> Valid(e)
    }

    constructor ()
      ensures Ready() && fresh(buffer) && open && entries == []
    {
      buffer := new Byte[BUFFER_SIZE](_ => 0);
      used, file, open, entries := 0, [], true, [];
    }

    method WriteBlock()
      requires Ready()
      modifies this`used, this`file
      ensures Ready() && used == 0
    {
      if used > 0 {
        file := file + buffer[..used];
        used := 0;
      }
    }

    method AppendEntry(e: Entry)
      requires Ready() && Valid(e)
      modifies this, buffer
      ensures Ready() && open == old(open)
      ensures entries == if open then old(entries) + [e] else old(entries)
    {
      hide EncodeAll;
      if !open {
        return;
      }
      var bytes := Encode(e);
      LengthAtMost29(e);
      if used + |bytes| > BUFFER_SIZE {
        WriteBlock();
      }
      ghost var before := buffer[..used];
      CopyIn(bytes);
      EncodeAppend(entries, e);
      assert file + (before + bytes) == (file + before) + bytes;
      entries := entries + [e];
    }

    method CopyIn(bytes: seq<Byte>)
      requires used + |bytes| <= buffer.Length
      modifies this`used, buffer
      ensures used == old(used) + |bytes|
      ensures buffer[..used] == old(buffer[..used]) + bytes
    {
      forall k | 0 <= k < |bytes| {
        buffer[used + k] := bytes[k];
      }
      used := used + |bytes|;
    }

    /** The loggers: what each traced call appends. */
    method Log(c: Call, time: nat)
      requires Ready() && InRange(c)
      modifies this, buffer
      ensures Ready() && open == old(open)
      ensures entries == if open then old(entries) + Logged(c, time) else old(entries)
    {
      var t := time % TWO_32;
      match c
      case CallMalloc(size, result) => AppendEntry(Malloc(t, size, result));
      case CallCalloc(num, size, result) => AppendEntry(Malloc(t, num * size % TWO_64, result));
      case CallRealloc(from, size, result) =>
        if from == 0 {
          AppendEntry(Malloc(t, size, result));
        } else {
          AppendEntry(Realloc(t, from, size, result));
        }
      case CallFree(address) =>
        if address != 0 {
          AppendEntry(Free(t, address));
        }
    }

    /** FinishAllocationTracer: then the file alone is the trace, and reading it replays the calls logged. */
    method Finish()
      requires Ready()
      modifies this
      ensures Ready() && !open && entries == old(entries)
      ensures old(open) ==> file == EncodeAll(entries) && Report(file) == Print(ReplayAll(START, entries))
    {
      if open {
        WriteBlock();
        open := false;
        WrittenTraceReplays(entries);
        assert file + buffer[..0] == file;
      }
    }
  }

  // ---- The trace of a program that keeps to the rules of the heap ----

  datatype Traced = Traced(call: Call, time: nat)

  /** The call came back with null instead of a block. */
  predicate Refused(c: Call) { !c.CallFree? && c.result == 0 }

  /** The blocks of the program after a call: a refused one changes nothing, but a realloc to no size frees. */
  function Heap(heap: map<nat, nat>, c: Call): map<nat, nat> {
    match c
    case CallMalloc(size, result) => if result == 0 then heap else heap[result := size]
    case CallCalloc(num, size, result) => if result == 0 then heap else heap[result := num * size]
    case CallRealloc(from, size, result) =>
      if result != 0 then (heap - {from})[result := size] else if size == 0 then heap - {from} else heap
    case CallFree(address) => heap - {address}
  }

  /** A block handed out was not handed out before; only blocks handed out, or null, come back. */
  predicate Proper(heap: map<nat, nat>, c: Call) {
    match c
    case CallMalloc(_, result) => result !in heap
    case CallCalloc(num, size, result) => result !in heap && (result != 0 ==> num * size < TWO_64)
    case CallRealloc(from, _, result) => (from == 0 || from in heap) && (result !in heap || result == from)
    case CallFree(address) => address == 0 || address in heap
  }

  function HeapAfter(calls: seq<Traced>): map<nat, nat> {
    if calls == [] then map[] else Heap(HeapAfter(calls[..|calls| - 1]), calls[|calls| - 1].call)
  }

  function EntriesOf(calls: seq<Traced>): seq<Entry> {
    if calls == [] then []
    else EntriesOf(calls[..|calls| - 1]) + Logged(calls[|calls| - 1].call, calls[|calls| - 1].time)
  }

  ghost predicate AllProper(calls: seq<Traced>) {
    forall i :: 0 <= i < |calls| ==> Proper(HeapAfter(calls[..i]), calls[i].call)
  }

  /** The map of the reader is the heap, and nothing was found repeated or unknown. */
  ghost predicate Same(s: State, heap: map<nat, nat>) {
    && s.live == heap && 0 !in heap && Repeats(s.out) == 0
    && s.fields.unknownFrees == 0 && s.fields.unknownReallocs == 0
  }

  lemma EntrySame(s: State, heap: map<nat, nat>, e: Entry)
    requires Same(s, heap)
    requires match e
             case Malloc(_, _, address) => address != 0 && address !in heap
             case Realloc(_, from, _, address) => address != 0 && from in heap && (address !in heap || address == from)
             case Free(_, address) => address in heap
    ensures var next := match e
                        case Malloc(_, size, address) => heap[address := size]
                        case Realloc(_, from, size, address) => (heap - {from})[address := size]
                        case Free(_, address) => heap - {address};
            Same(Replay(s, e), next)
  {
    hide Repeats;
    AtTimeBalance(s, e.time);
    match e
    case Malloc(_, _, _) =>
    case Realloc(_, from, size, address) =>
      if from == address {
        assert heap[address := size] == (heap - {from})[address := size];
      }
    case Free(_, _) =>
  }

  lemma CallSame(s: State, heap: map<nat, nat>, c: Call, time: nat)
    requires Same(s, heap) && Proper(heap, c) && !Refused(c)
    ensures Same(ReplayAll(s, Logged(c, time)), Heap(heap, c))
  {
    hide Same, Replay;
    var es := Logged(c, time);
    if es == [] {
      NullIsNoBlock(s, heap);
      assert heap - {0} == heap;
    } else {
      assert es[1..] == [];
      assert ReplayAll(s, es) == ReplayAll(Replay(s, es[0]), []) == Replay(s, es[0]);
      if c.CallRealloc? && c.from == 0 {
        NullIsNoBlock(s, heap);
        assert heap - {0} == heap;
      }
      EntrySame(s, heap, es[0]);
    }
  }

  lemma NullIsNoBlock(s: State, heap: map<nat, nat>)
    requires Same(s, heap)
    ensures 0 !in heap
  {
  }

  lemma {:induction false} ReplayMore(s: State, a: seq<Entry>, b: seq<Entry>)
    ensures ReplayAll(s, a + b) == ReplayAll(ReplayAll(s, a), b)
    decreases |a|
  {
    hide Replay;
    if a == [] {
      assert a + b == b;
    } else {
      assert (a + b)[1..] == a[1..] + b;
      ReplayMore(Replay(s, a[0]), a[1..], b);
    }
  }

  /**
   * End to end: the trace of a program that keeps to the rules of the heap and was refused nothing is read back
   * as exactly the blocks the program still holds, each with its size, and nothing is repeated or unknown.
   */
  lemma {:induction false} TraceIsHeap(calls: seq<Traced>)
    requires AllProper(calls) && forall i :: 0 <= i < |calls| ==> !Refused(calls[i].call)
    ensures Same(ReplayAll(START, EntriesOf(calls)), HeapAfter(calls))
  {
    hide Same, Proper;
    if calls == [] {
      assert Same(START, map[]) by { StartSame(); }
    } else {
      var before, c := calls[..|calls| - 1], calls[|calls| - 1];
      ProperBefore(calls);
      TraceIsHeap(before);
      CallSame(ReplayAll(START, EntriesOf(before)), HeapAfter(before), c.call, c.time);
      ReplayMore(START, EntriesOf(before), Logged(c.call, c.time));
    }
  }

  lemma ProperBefore(calls: seq<Traced>)
    requires AllProper(calls) && calls != []
    ensures AllProper(calls[..|calls| - 1]) && Proper(HeapAfter(calls[..|calls| - 1]), calls[|calls| - 1].call)
  {
    hide Proper, HeapAfter;
    var before := calls[..|calls| - 1];
    forall i | 0 <= i < |before| ensures Proper(HeapAfter(before[..i]), before[i].call) {
      assert before[..i] == calls[..i];
      assert Proper(HeapAfter(calls[..i]), calls[i].call);
    }
  }

  lemma StartSame()
    ensures Same(START, map[])
  {
  }

  /** Null is never a block of the program, but once it is one of the trace it stays. */
  lemma NullStays(s: State, c: Call, time: nat)
    ensures 0 in s.live || Refused(c) ==> 0 in ReplayAll(s, Logged(c, time)).live
  {
    var es := Logged(c, time);
    if es != [] {
      assert es[1..] == [];
      assert ReplayAll(s, es) == ReplayAll(Replay(s, es[0]), []) == Replay(s, es[0]);
    }
  }

  lemma {:induction false} RefusedIsTraced(calls: seq<Traced>)
    requires AllProper(calls)
    ensures 0 !in HeapAfter(calls)
    ensures (exists i :: 0 <= i < |calls| && Refused(calls[i].call)) ==>
              0 in ReplayAll(START, EntriesOf(calls)).live
  {
    if calls != [] {
      hide Refused, Logged, Replay;
      var before, c := calls[..|calls| - 1], calls[|calls| - 1];
      ProperBefore(calls);
      RefusedIsTraced(before);
      NullStays(ReplayAll(START, EntriesOf(before)), c.call, c.time);
      ReplayMore(START, EntriesOf(before), Logged(c.call, c.time));
      if i :| 0 <= i < |calls| && Refused(calls[i].call) {
        if i < |before| {
          assert before[i] == calls[i];
        }
      }
    }
  }

  /** The trace is read back as the blocks of the program exactly when no call was refused: null is read as a block. */
  lemma TraceIsHeapExactlyWhen(calls: seq<Traced>)
    requires AllProper(calls)
    ensures ReplayAll(START, EntriesOf(calls)).live == HeapAfter(calls)
       <==> forall i :: 0 <= i < |calls| ==> !Refused(calls[i].call)
  {
    hide ReplayAll, HeapAfter, EntriesOf, Refused, AllProper;
    RefusedIsTraced(calls);
    if forall i :: 0 <= i < |calls| ==> !Refused(calls[i].call) {
      TraceIsHeap(calls);
    }
  }
}
