/** The trace reader (linux_allocation_trace_reader.cpp) with its fixed buffer. */
module TraceReader {
  import opened Trace

  const BUFFER_SIZE := 1024 * 1024

  class Reader {
    var s: State
    const buffer: array<Byte>

    ghost predicate Ready()
      reads this
    {
      buffer.Length == BUFFER_SIZE
    }

    constructor ()
      ensures Ready() && fresh(buffer) && s == START
    {
      s := START;
      buffer := new Byte[BUFFER_SIZE](_ => 0);
    }

    method PrintState()
      modifies this`s
      ensures s == Print(old(s))
    {
      if s.fields.time == 0 {
        return;
      }
      s := s.(out := s.out + [Snapshot(s.fields.time, s.live, s.fields.unknownFrees)]);
    }

    method AddEntry(address: nat, size: nat)
      modifies this`s
      ensures s == Add(old(s), address, size)
    {
      if address in s.live {
        s := s.(out := s.out + [RepeatedEntry(address, size)]);
        return;
      }
      s := s.(live := s.live[address := size]);
    }

    method SetTime(time: nat)
      modifies this`s
      ensures s == AtTime(old(s), time)
    {
      if time > s.fields.time {
        PrintState();
        s := s.(fields := s.fields.(time := time));
      } else if time < s.fields.time {
        s := s.(out := s.out + [TimeWentBack(time, s.fields.time)]);
      }
    }

    method ParseMalloc(size: nat, address: nat)
      modifies this`s
      ensures s == DoMalloc(old(s), size, address)
    {
      AddEntry(address, size);
      s := s.(fields := s.fields.(mallocs := s.fields.mallocs + 1));
    }

    method ParseRealloc(from: nat, size: nat, address: nat)
      modifies this`s
      ensures s == DoRealloc(old(s), from, size, address)
    {
      if from !in s.live {
        s := s.(fields := s.fields.(unknownReallocs := s.fields.unknownReallocs + 1));
        AddEntry(address, size);
      } else if from != address {
        s := s.(live := s.live - {from});
        AddEntry(address, size);
        s := s.(fields := s.fields.(reallocs := s.fields.reallocs + 1));
      } else {
        s := s.(live := s.live[address := size]);
        s := s.(fields := s.fields.(reallocs := s.fields.reallocs + 1));
      }
    }

    method ParseFree(address: nat)
      modifies this`s
      ensures s == DoFree(old(s), address)
    {
      if address !in s.live {
        s := s.(fields := s.fields.(unknownFrees := s.fields.unknownFrees + 1));
      } else {
        s := s.(live := s.live - {address});
        s := s.(fields := s.fields.(frees := s.fields.frees + 1));
      }
    }

    /** One entry, found at the given place of the buffer. */
    method ParseEntry(at: nat, command: Byte)
      requires at + Length(command) <= buffer.Length && Length(command) > 0
      requires buffer[at] == command
      modifies this`s
      ensures s == Replay(old(s), Decode(buffer[at..at + Length(command)]))
    {
      hide AtTime, DoMalloc, DoRealloc, DoFree, Number;
      ghost var bytes := buffer[at..at + Length(command)];
      assert bytes[1..5] == buffer[at + 1..at + 5] && bytes[5..13] == buffer[at + 5..at + 13];
      SetTime(Number(buffer[at + 1..at + 5]));
      var first := Number(buffer[at + 5..at + 13]);
      if command == 1 {
        assert bytes[13..21] == buffer[at + 13..at + 21];
        ParseMalloc(first, Number(buffer[at + 13..at + 21]));
      } else if command == 2 {
        assert bytes[13..21] == buffer[at + 13..at + 21] && bytes[21..29] == buffer[at + 21..at + 29];
        ParseRealloc(first, Number(buffer[at + 13..at + 21]), Number(buffer[at + 21..at + 29]));
      } else {
        ParseFree(first);
      }
    }

    /** Parse: entries from the start of the buffer; the bytes used, or -1 on garbage. */
    method ParseBuffer(end: nat) returns (result: int)
      requires end <= buffer.Length
      modifies this`s
      ensures var r := Parse(old(s), buffer[..end]);
              s == r.state && result == if r.garbage then -1 else r.used
    {
      hide Replay, Decode, Parse;
      ghost var bytes := buffer[..end];
      ghost var whole := Parse(s, bytes);
      var at := 0;
      WholeSlice(bytes);
      while end > at
        invariant at <= end && buffer[..end] == bytes
        invariant var r := Parse(s, bytes[at..]); whole == r.(used := at + r.used)
        decreases end - at
      {
        var command := buffer[at];
        var entry := Length(command);
        ParseAt(s, bytes, at);
        if entry == 0 {
          s := s.(out := s.out + [Garbage(command)]);
          return -1;
        }
        if end - at < entry {
          break;
        }
        BufferSlice(buffer, end, at, entry);
        ParseEntry(at, command);
        at := at + entry;
      }
      if at == end {
        NothingToParse(s);
      }
      result := at;
    }

    /** fread: some bytes of the file, at least one unless there is no room or nothing is left. */
    method Fread(data: nat, stream: seq<Byte>, pos: nat) returns (read: nat)
      requires data <= buffer.Length && pos <= |stream|
      modifies buffer
      ensures data + read <= buffer.Length && pos + read <= |stream|
      ensures read == 0 <==> data == buffer.Length || pos == |stream|
      ensures buffer[..data + read] == old(buffer[..data]) + stream[pos..pos + read]
    {
      read := 0;
      if data == buffer.Length || pos == |stream| {
        return;
      }
      read :| 1 <= read <= buffer.Length - data && read <= |stream| - pos;
      forall k | 0 <= k < read {
        buffer[data + k] := stream[pos + k];
      }
    }

    /** memmove of the unused bytes to the front. */
    method Carry(parsed: nat, left: nat)
      requires parsed + left <= buffer.Length
      modifies buffer
      ensures buffer[..left] == old(buffer[parsed..parsed + left])
    {
      forall k | 0 <= k < left {
        buffer[k] := buffer[parsed + k];
      }
    }

    /** One turn of the loop of main: read, parse, carry the rest. */
    method Turn(stream: seq<Byte>, pos: nat, data: nat) returns (pos1: nat, data1: nat, stop: bool)
      requires Ready() && data <= 28 && Carried(stream, pos, s, buffer[..data])
      requires pos <= |stream|
      modifies this`s, buffer
      ensures stop ==> s == BeforeLastPrint(stream)
      ensures !stop ==> pos < pos1 <= |stream| && data1 <= 28 && Carried(stream, pos1, s, buffer[..data1])
    {
      hide Parse, Carried, BeforeLastPrint;
      ghost var before, kept := s, buffer[..data];
      var read := Fread(data, stream, pos);
      pos1, data1, stop := pos + read, data + read, true;
      if read == 0 {
        CarriedToTheEnd(stream, pos, s, kept);
        if data != 0 {
          s := s.(out := s.out + [CorruptEnd(data)]);
        }
        return;
      }
      CarriedOn(stream, pos, read, before, kept);
      var parsed := ParseBuffer(data1);
      if parsed < 0 {
        return;
      }
      BufferDrop(buffer, data1, parsed);
      ghost var rest := buffer[parsed..data1];
      data1, stop := data1 - parsed, false;
      if data1 > 0 {
        Carry(parsed, data1);
      }
      assert buffer[..data1] == rest;
    }

    /**
     * main: however the file is cut into reads, the result is that of parsing it whole; and the
     * carried tail never exceeds 28 bytes, so there is always room to read.
     */
    method Run(stream: seq<Byte>)
      requires Ready() && s == START
      modifies this`s, buffer
      ensures s == Report(stream)
    {
      hide Parse, Report, Carried, BeforeLastPrint;
      var data: nat, pos: nat := 0, 0;
      CarriedNothing(stream, buffer[..0]);
      while true
        invariant Ready() && pos <= |stream| && data <= 28 <= buffer.Length
        invariant Carried(stream, pos, s, buffer[..data])
        decreases |stream| - pos
      {
        var pos1, data1, stop := Turn(stream, pos, data);
        if stop {
          break;
        }
        pos, data := pos1, data1;
      }
      PrintState();
      ReportIs(stream);
    }
  }

  /** The state and the carried bytes are what the parse of the bytes read so far leaves. */
  ghost predicate Carried(stream: seq<Byte>, pos: nat, s: State, kept: seq<Byte>) {
    && pos <= |stream|
    && var r := Parse(START, stream[..pos]);
       !r.garbage && s == r.state && r.used + |kept| == pos && kept == stream[r.used..pos]
  }

  lemma CarriedNothing(stream: seq<Byte>, kept: seq<Byte>)
    requires kept == []
    ensures Carried(stream, 0, START, kept)
  {
    NothingToParse(START);
    assert stream[..0] == [] && stream[0..0] == [];
  }

  lemma CarriedToTheEnd(stream: seq<Byte>, pos: nat, s: State, kept: seq<Byte>)
    requires pos == |stream| && Carried(stream, pos, s, kept)
    ensures BeforeLastPrint(stream) == (if kept != [] then s.(out := s.out + [CorruptEnd(|kept|)]) else s)
  {
    hide Parse;
    assert stream[..pos] == stream;
  }

  /** One more read: parsing the carried bytes with the new ones goes on with the parse of the stream. */
  lemma CarriedOn(stream: seq<Byte>, pos: nat, read: nat, s: State, kept: seq<Byte>)
    requires pos + read <= |stream| && Carried(stream, pos, s, kept)
    ensures var bytes := kept + stream[pos..pos + read];
            var q := Parse(s, bytes);
            && (q.garbage ==> BeforeLastPrint(stream) == q.state)
            && (!q.garbage ==> |bytes| - q.used <= 28 && Carried(stream, pos + read, q.state, bytes[q.used..]))
  {
    hide Parse;
    var r := Parse(START, stream[..pos]);
    ReadStep(stream, pos, read);
    SlicesJoin(stream, r.used, pos, pos + read);
    var q := Parse(s, stream[r.used..pos + read]);
    if !q.garbage {
      SliceDrop(stream, r.used, pos + read, q.used);
    }
  }

  /** The first entry, when it is whole, then the rest. */
  lemma ParseOne(s: State, bytes: seq<Byte>)
    requires bytes != []
    ensures var n := Length(bytes[0]);
            Parse(s, bytes) ==
            (if n == 0 then Parsed(s.(out := s.out + [Garbage(bytes[0])]), 0, true)
             else if |bytes| < n then Parsed(s, 0, false)
             else var r := Parse(Replay(s, Decode(bytes[..n])), bytes[n..]); r.(used := n + r.used))
  {
    var n := Length(bytes[0]);
    if 0 < n <= |bytes| {
      assert bytes[..n] + bytes[n..] == bytes;
      DecodePrefix(bytes[..n], bytes[n..]);
    }
    hide Replay, Decode;
  }

  lemma SlicesJoin(s: seq<Byte>, a: nat, b: nat, c: nat)
    requires a <= b <= c <= |s|
    ensures s[a..b] + s[b..c] == s[a..c]
  {
  }

  lemma SliceDrop(s: seq<Byte>, a: nat, b: nat, k: nat)
    requires a + k <= b <= |s|
    ensures s[a..b][k..] == s[a + k..b]
  {
  }

  lemma BufferDrop(buffer: array<Byte>, end: nat, k: nat)
    requires k <= end <= buffer.Length
    ensures buffer[..end][k..] == buffer[k..end]
  {
  }

  lemma WholeSlice(bytes: seq<Byte>)
    ensures bytes[0..] == bytes
  {
  }

  lemma BufferSlice(buffer: array<Byte>, end: nat, at: nat, n: nat)
    requires end <= buffer.Length && at + n <= end
    ensures buffer[..end][at..at + n] == buffer[at..at + n]
  {
  }

  /** The entry at a place of the bytes, when it is whole, then the rest. */
  lemma ParseAt(s: State, bytes: seq<Byte>, at: nat)
    requires at < |bytes|
    ensures var n := Length(bytes[at]);
            Parse(s, bytes[at..]) ==
            (if n == 0 then Parsed(s.(out := s.out + [Garbage(bytes[at])]), 0, true)
             else if |bytes| - at < n then Parsed(s, 0, false)
             else var r := Parse(Replay(s, Decode(bytes[at..at + n])), bytes[at + n..]); r.(used := n + r.used))
  {
    hide Replay, Decode, Parse;
    var n := Length(bytes[at]);
    ParseOne(s, bytes[at..]);
    if 0 < n <= |bytes| - at {
      assert bytes[at..][..n] == bytes[at..at + n];
      assert bytes[at..][n..] == bytes[at + n..];
    }
  }

  lemma ReportIs(stream: seq<Byte>)
    ensures Report(stream) == Print(BeforeLastPrint(stream))
  {
  }

  /** Parsing the carried bytes with the new ones goes on where the parse of the prefix stopped. */
  lemma ReadStep(stream: seq<Byte>, pos: nat, read: nat)
    requires pos + read <= |stream| && !Parse(START, stream[..pos]).garbage
    ensures var r := Parse(START, stream[..pos]);
            var q := Parse(r.state, stream[r.used..pos + read]);
            && (q.garbage ==> BeforeLastPrint(stream) == q.state)
            && (!q.garbage ==> Parse(START, stream[..pos + read]) == q.(used := r.used + q.used)
                               && pos + read - r.used - q.used <= 28)
  {
    hide Parse;
    var a, b, c := stream[..pos], stream[pos..pos + read], stream[pos + read..];
    var r := Parse(START, a);
    ParseAppend(START, a, b);
    assert a + b == stream[..pos + read] && a[r.used..] + b == stream[r.used..pos + read];
    ParseAppend(START, a + b, c);
    assert a + b + c == stream;
    CarriedIsShort(r.state, stream[r.used..pos + read]);
  }

  lemma NothingToParse(s: State)
    ensures Parse(s, []) == Parsed(s, 0, false)
  {
  }
}
