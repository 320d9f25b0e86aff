/** Containers in any order: the gap buffer restores the order of the server. */
module UpdatesOrder {
  import opened Common
  import opened FeedOrder
  import opened UpdatesModel
  import opened UpdatesRuns

  /** Last sequence number of a container. */
  function End(u: Updates): nat {
    if u.Plain? || u.Combined? then u.end else 0
  }

  /** Where a batch of arrivals starts from: the current number and what is numbered in the log so far. */
  datatype Origin = Origin(seqNo: nat, numbered: seq<Applied>)

  /** Sequence number reached after the first m containers. */
  function Reached(cs: seq<Updates>, cur: Origin, m: nat): nat
    requires m <= |cs|
  {
    if m == 0 then cur.seqNo else End(cs[m - 1])
  }

  /** Container i is a container, begins right after the one before it, and is not empty. */
  ghost predicate Fits(cs: seq<Updates>, cur: Origin, i: nat)
    requires i < |cs|
  {
    && (cs[i].Plain? || cs[i].Combined?)
    && cs[i].Start() == Reached(cs, cur, i) + 1 <= End(cs[i])
  }

  /** The containers' ranges cut cur+1..n into consecutive pieces. */
  ghost predicate Partition(cs: seq<Updates>, cur: Origin) {
    forall i :: 0 <= i < |cs| ==> Fits(cs, cur, i)
  }

  /** Updates that carry no sequence number of their own. */
  predicate Unnumbered(u: Updates) {
    match u
    case Plain(end, _, _) => end == 0
    case Combined(start, end, _, _) => start == 0 && end == 0
    case _ => true
  }

  /** The numbered part of the log. */
  function Numbered(log: seq<Applied>): seq<Applied> {
    if log == [] then []
    else Numbered(log[..|log| - 1]) + (if log[|log| - 1].updates.Start() != 0 then [log[|log| - 1]] else [])
  }

  /** Each container applied once, in order, exactly when its number was the next one. */
  function InOrder(cs: seq<Updates>): seq<Applied> {
    seq(|cs|, i requires 0 <= i < |cs| => Applied(cs[i], if cs[i].Start() > 0 then cs[i].Start() - 1 else 0))
  }

  datatype Arrival = Arrival(u: Updates, now: Time)

  ghost function ApplyAll(s: State, arrivals: seq<Arrival>): State {
    if arrivals == [] then s
    else Apply(ApplyAll(s, arrivals[..|arrivals| - 1]), arrivals[|arrivals| - 1].u, arrivals[|arrivals| - 1].now)
  }

  lemma {:induction false} StartsGrow(cs: seq<Updates>, cur: Origin, i: nat, j: nat)
    requires Partition(cs, cur) && i <= j < |cs|
    ensures Reached(cs, cur, i) <= Reached(cs, cur, j)
    ensures cs[i].Start() == Reached(cs, cur, i) + 1 && cs[j].Start() == Reached(cs, cur, j) + 1
    ensures i < j ==> End(cs[i]) < cs[j].Start() && cs[i].Start() < cs[j].Start()
    decreases j - i
  {
    assert Fits(cs, cur, i) && Fits(cs, cur, j);
    if i < j {
      assert Fits(cs, cur, i + 1);
      StartsGrow(cs, cur, i + 1, j);
    }
  }

  /** Is u the container at some position from m on? */
  ghost predicate Later(cs: seq<Updates>, m: nat, u: Updates) {
    exists i :: m <= i < |cs| && cs[i] == u
  }

  ghost predicate FromTail(buffer: map<nat, Updates>, cs: seq<Updates>, m: nat) {
    forall k :: k in buffer ==> buffer[k].Start() == k && Later(cs, m, buffer[k])
  }

  /** The first m containers have been applied; the buffer holds only later ones. */
  ghost predicate Midway(s: State, cs: seq<Updates>, cur: Origin, m: nat) {
    && m <= |cs|
    && s.core.seqNo == Reached(cs, cur, m)
    && Numbered(s.core.log) == cur.numbered + InOrder(cs[..m])
    && FromTail(s.gap.buffer, cs, m)
  }

  /** As Midway, and the next container is not waiting in the buffer. */
  ghost predicate Waiting(s: State, cs: seq<Updates>, cur: Origin, m: nat) {
    Midway(s, cs, cur, m) && (m < |cs| ==> cs[m].Start() !in s.gap.buffer)
  }

  /** Nothing that arrived is lost: it has been applied or is still buffered. */
  ghost predicate Held(s: State, cs: seq<Updates>, m: nat, i: nat) {
    i < |cs| && (i < m || cs[i].Start() in s.gap.buffer)
  }

  ghost predicate AllHeld(s: State, cs: seq<Updates>, m: nat, t: State, n: nat) {
    forall i :: Held(s, cs, m, i) ==> Held(t, cs, n, i)
  }

  /** What is in front of the buffer, seen from the next container. */
  lemma FrontPlace(s: State, cs: seq<Updates>, cur: Origin, m: nat) returns (i: nat)
    requires Partition(cs, cur) && Midway(s, cs, cur, m) && s.gap.buffer != map[]
    ensures var k := FrontKey(s.gap.buffer);
            && m <= i < |cs| && s.gap.buffer[k] == cs[i] && cs[i].Start() == k
            && (i == m <==> k == s.core.seqNo + 1) && (i > m <==> k > s.core.seqNo + 1)
            && (i > m ==> cs[m].Start() !in s.gap.buffer)
  {
    var k := FrontKey(s.gap.buffer);
    i :| m <= i < |cs| && cs[i] == s.gap.buffer[k];
    StartsGrow(cs, cur, m, i);
  }

  lemma {:induction false} DrainOrder(s: State, cs: seq<Updates>, cur: Origin, m: nat, now: Time) returns (n: nat)
    requires Partition(cs, cur) && Midway(s, cs, cur, m)
    requires Drain(s, now).net.diffInFlight == s.net.diffInFlight
    ensures Waiting(Drain(s, now), cs, cur, n) && m <= n
    ensures AllHeld(s, cs, m, Drain(s, now), n)
    decreases |s.gap.buffer|, 0
  {
    hide Apply, Numbered, InOrder, Partition;
    n := m;
    if s.gap.buffer != map[] {
      var k := FrontKey(s.gap.buffer);
      var i := FrontPlace(s, cs, cur, m);
      if i == m {
        var s1 := s.(gap := s.gap.(buffer := s.gap.buffer - {k}));
        assert s1.gap.buffer.Keys == s.gap.buffer.Keys - {k};
        assert Drain(s, now) == Apply(s1, cs[m], now);
        n := ContainerOrder(s1, cs, cur, m, now);
        assert forall j :: Held(s, cs, m, j) ==> j == m || Held(s1, cs, m, j) by {
          SameStart(cs, cur, m);
        }
      }
    }
  }

  lemma SameStart(cs: seq<Updates>, cur: Origin, m: nat)
    requires Partition(cs, cur) && m < |cs|
    ensures forall j :: 0 <= j < |cs| && cs[j].Start() == cs[m].Start() ==> j == m
  {
    forall j | 0 <= j < |cs| && cs[j].Start() == cs[m].Start()
      ensures j == m
    {
      if j < m {
        StartsGrow(cs, cur, j, m);
      } else {
        StartsGrow(cs, cur, m, j);
      }
    }
  }

  /** Logging the next container extends the numbered log by it. */
  lemma LoggedOrder(s: State, cs: seq<Updates>, cur: Origin, m: nat)
    requires Partition(cs, cur) && Waiting(s, cs, cur, m) && m < |cs|
    ensures var t := Logged(s, cs[m]);
            Numbered(t.core.log) == cur.numbered + InOrder(cs[..m + 1]) && FromTail(t.gap.buffer, cs, m + 1)
  {
    assert Fits(cs, cur, m);
    var log := s.core.log + [Applied(cs[m], s.core.seqNo)];
    assert log[..|log| - 1] == s.core.log;
    forall k | k in s.gap.buffer
      ensures Later(cs, m + 1, s.gap.buffer[k])
    {
      var i :| m <= i < |cs| && cs[i] == s.gap.buffer[k];
      assert i != m;
    }
  }

  /** Applying the container that is next. */
  lemma {:induction false} ContainerOrder(s: State, cs: seq<Updates>, cur: Origin, m: nat, now: Time) returns (n: nat)
    requires Partition(cs, cur) && Waiting(s, cs, cur, m) && m < |cs|
    requires Apply(s, cs[m], now).net.diffInFlight == s.net.diffInFlight
    ensures Waiting(Apply(s, cs[m], now), cs, cur, n) && m < n
    ensures AllHeld(s, cs, m, Apply(s, cs[m], now), n)
    decreases |s.gap.buffer|, 1
  {
    hide Drain, FeedAll, Numbered, InOrder, Partition, FromTail, VectorOrder;
    var u := cs[m];
    assert Fits(cs, cur, m) by { StartsGrow(cs, cur, m, m); FitsAt(cs, cur, m); }
    var s0 := Logged(s, u);
    LoggedOrder(s, cs, cur, m);
    FeedAllFrame(s0, VectorOrder(u.list, SkipNone), now);
    var s1 := FeedAll(s0, VectorOrder(u.list, SkipNone), now);
    var s2 := s1.(core := Marks(s1.core, 0, u.date, s1.core.qts, s1.minTimer).(seqNo := End(u)),
                  gap := s1.gap.(timer := false),
                  past := s1.past + [Given(0, u.date, s1.core.qts, End(u), s1.minTimer)]);
    assert Apply(s, u, now) == ApplyContainer(s, u, End(u), u.date, u.list, now);
    assert ApplyContainer(s, u, End(u), u.date, u.list, now)
        == SetState(s1, 0, u.date, s1.core.qts, End(u), now)
        == Drain(s2, now);
    assert Midway(s2, cs, cur, m + 1);
    n := DrainOrder(s2, cs, cur, m + 1, now);
    assert AllHeld(s, cs, m, s2, m + 1);
  }

  lemma FitsAt(cs: seq<Updates>, cur: Origin, m: nat)
    requires Partition(cs, cur) && m < |cs|
    ensures Fits(cs, cur, m)
  {
  }

  /**
   * A container that comes too early waits under its start with the timer running, the first one to come
   * for that start; one that comes too late changes nothing.
   */
  lemma EarlyOrLate(s: State, u: Updates, now: Time)
    requires (u.Plain? || u.Combined?) && u.Start() != 0 && u.Start() != s.core.seqNo + 1
    ensures var t := Apply(s, u, now);
            && t.core == s.core && t.net == s.net && t.minTimer == s.minTimer
            && (u.Start() <= s.core.seqNo ==> t == s)
            && (u.Start() > s.core.seqNo ==>
                  && t.gap.timer && t.gap.buffer.Keys == s.gap.buffer.Keys + {u.Start()}
                  && (forall k :: k in s.gap.buffer ==> t.gap.buffer[k] == s.gap.buffer[k])
                  && (u.Start() !in s.gap.buffer ==> t.gap.buffer[u.Start()] == u))
  {
    hide Drain, FeedAll, SetState, VectorOrder;
  }

  /** An arrival of one of the containers, in any order and possibly again. */
  lemma NumberedArrival(s: State, cs: seq<Updates>, cur: Origin, m: nat, i: nat, now: Time) returns (n: nat)
    requires Partition(cs, cur) && Waiting(s, cs, cur, m) && i < |cs|
    requires Apply(s, cs[i], now).net.diffInFlight == s.net.diffInFlight
    ensures Waiting(Apply(s, cs[i], now), cs, cur, n)
    ensures AllHeld(s, cs, m, Apply(s, cs[i], now), n) && Held(Apply(s, cs[i], now), cs, n, i)
  {
    hide Drain, FeedAll, SetState, Numbered, InOrder, VectorOrder;
    FitsAt(cs, cur, i);
    assert Apply(s, cs[i], now) == ApplyContainer(s, cs[i], End(cs[i]), cs[i].date, cs[i].list, now);
    n := m;
    if i < m {
      StartsGrow(cs, cur, i, m - 1);
      FitsAt(cs, cur, m - 1);
    } else if i == m {
      n := ContainerOrder(s, cs, cur, m, now);
    } else {
      StartsGrow(cs, cur, m, i);
    }
  }

  /** An unnumbered arrival leaves numbers, buffer and numbered log as they are. */
  lemma UnnumberedArrival(s: State, u: Updates, now: Time)
    requires Unnumbered(u) && Apply(s, u, now).net.diffInFlight == s.net.diffInFlight
    ensures var t := Apply(s, u, now);
            && t.core.seqNo == s.core.seqNo && t.gap.buffer == s.gap.buffer
            && Numbered(t.core.log) == Numbered(s.core.log)
  {
    hide Drain, FeedAll, VectorOrder, RunEffects, FeedOne;
    match u
    case Plain(end, date, list) => UnnumberedContainer(s, u, end, date, list, now);
    case Combined(_, end, date, list) => UnnumberedContainer(s, u, end, date, list, now);
    case Short(date, update) => FeedOneFrame(Begun(s, Applying(u)), update, now);
    case ShortMessage(date, loaded, ready, effects) => RunEffectsFrame(Begun(s, Applying(u)), effects, now);
    case TooLong =>
  }

  lemma UnnumberedContainer(s: State, u: Updates, end: nat, date: int, list: seq<Update>, now: Time)
    requires u.Start() == 0 && end == 0
    requires ApplyContainer(s, u, end, date, list, now).net.diffInFlight == s.net.diffInFlight
    ensures var t := ApplyContainer(s, u, end, date, list, now);
            && t.core.seqNo == s.core.seqNo && t.gap.buffer == s.gap.buffer
            && Numbered(t.core.log) == Numbered(s.core.log)
  {
    hide Drain, FeedAll, VectorOrder;
    FeedAllFrame(Logged(s, u), VectorOrder(list, SkipNone), now);
    var log := s.core.log + [Applied(u, s.core.seqNo)];
    assert log[..|log| - 1] == s.core.log;
  }

  /** Every arrival is one of the containers or unnumbered. */
  ghost predicate Legal(arrivals: seq<Arrival>, cs: seq<Updates>) {
    forall a :: a in arrivals ==> a.u in cs || Unnumbered(a.u)
  }

  /** Has container i arrived? */
  ghost predicate Came(arrivals: seq<Arrival>, u: Updates) {
    exists a :: a in arrivals && a.u == u
  }

  lemma {:induction false} ApplyAllGrows(s: State, arrivals: seq<Arrival>)
    ensures ApplyAll(s, arrivals).net.diffInFlight >= s.net.diffInFlight
  {
    if arrivals != [] {
      ApplyAllGrows(s, arrivals[..|arrivals| - 1]);
    }
  }

  lemma {:induction false} ArrivalsOrder(s: State, cs: seq<Updates>, cur: Origin, arrivals: seq<Arrival>)
    returns (n: nat)
    requires Partition(cs, cur) && Waiting(s, cs, cur, 0) && Legal(arrivals, cs)
    requires ApplyAll(s, arrivals).net.diffInFlight == s.net.diffInFlight
    ensures Waiting(ApplyAll(s, arrivals), cs, cur, n)
    ensures forall i :: 0 <= i < |cs| && Came(arrivals, cs[i]) ==> Held(ApplyAll(s, arrivals), cs, n, i)
  {
    hide Apply, Numbered, InOrder, Partition;
    n := 0;
    if arrivals != [] {
      var before, a := arrivals[..|arrivals| - 1], arrivals[|arrivals| - 1];
      assert arrivals == before + [a];
      ApplyAllGrows(s, before);
      var m := ArrivalsOrder(s, cs, cur, before);
      var t := ApplyAll(s, before);
      if a.u in cs {
        var i :| 0 <= i < |cs| && cs[i] == a.u;
        n := NumberedArrival(t, cs, cur, m, i, a.now);
        SameStart(cs, cur, i);
        forall j | 0 <= j < |cs| && Came(arrivals, cs[j])
          ensures Held(ApplyAll(s, arrivals), cs, n, j)
        {
          if cs[j] != a.u {
            assert Came(before, cs[j]);
            assert Held(t, cs, m, j);
          }
        }
      } else {
        n := m;
        UnnumberedArrival(t, a.u, a.now);
        forall j | 0 <= j < |cs| && Came(arrivals, cs[j])
          ensures Held(ApplyAll(s, arrivals), cs, n, j)
        {
          assert Came(before, cs[j]);
          assert Held(t, cs, m, j);
        }
      }
    }
  }

  /**
   * Order independence. Containers whose ranges cut cur+1..n arrive in any order, any number of
   * times, mixed with unnumbered updates. If no difference request was sent meanwhile, each was
   * applied exactly once, in the order of the server, and nothing is left in the buffer.
   */
  lemma OrderIndependence(s: State, cs: seq<Updates>, arrivals: seq<Arrival>)
    requires Partition(cs, Origin(s.core.seqNo, Numbered(s.core.log))) && s.gap.buffer == map[]
    requires Legal(arrivals, cs) && forall i :: 0 <= i < |cs| ==> Came(arrivals, cs[i])
    requires ApplyAll(s, arrivals).net.diffInFlight == s.net.diffInFlight
    ensures var t := ApplyAll(s, arrivals);
            && Numbered(t.core.log) == Numbered(s.core.log) + InOrder(cs)
            && t.core.seqNo == (if cs == [] then s.core.seqNo else End(cs[|cs| - 1]))
            && t.gap.buffer == map[]
  {
    hide ApplyAll, Numbered, InOrder;
    var cur := Origin(s.core.seqNo, Numbered(s.core.log));
    assert cur.numbered + InOrder(cs[..0]) == cur.numbered by { EmptyOrder(cs); }
    var n := ArrivalsOrder(s, cs, cur, arrivals);
    var t := ApplyAll(s, arrivals);
    assert n == |cs|;
    assert cs[..n] == cs;
    assert forall k :: k !in t.gap.buffer;
  }

  lemma EmptyOrder(cs: seq<Updates>)
    ensures InOrder(cs[..0]) == []
  {
  }
}
