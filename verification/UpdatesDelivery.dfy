/** Order independence over whole runs: anything may happen between the arrivals but a difference. */
module UpdatesDelivery {
  import opened Common
  import opened FeedOrder
  import opened UpdatesModel
  import opened UpdatesRuns
  import opened UpdatesSafety
  import opened UpdatesOrder

  /** Numbers and log stay, and so does the buffer unless a difference is now being requested. */
  ghost predicate Calm(s: State, t: State) {
    && t.core.seqNo == s.core.seqNo && t.core.log == s.core.log
    && (s.net.requesting ==> t.net.requesting)
    && (!t.net.requesting ==> t.gap.buffer == s.gap.buffer)
  }

  lemma ByPtsPassCalm(s: State, now: Time)
    ensures Calm(s, ByPtsPass(s, now))
  {
    hide Rearm;
  }

  lemma StartPtsCalm(s: State, channel: Option<Channel>, ms: int, now: Time)
    ensures Calm(s, StartPts(s, channel, ms, now))
  {
    hide ByPtsPass;
    var (d, changed) := WhenChanged(s.net.byPts, channel, ms, now);
    if changed {
      ByPtsPassCalm(s.(net := s.net.(byPts := d)), now);
    }
  }

  /** With no global retry planned a retry pass is about channels only. */
  lemma AfterFailPassCalm(s: State, now: Time)
    requires s.net.afterFail.global == 0
    ensures Calm(s, AfterFailPass(s, now))
  {
    hide Rearm;
  }

  lemma {:induction false} EffectsCalm(s: State, es: seq<Effect>, now: Time)
    ensures Calm(s, RunEffects(s, es, now))
    decreases |es|
  {
    if es != [] {
      EffectCalm(Doing(s, es[0]), es[0], now);
      EffectsCalm(RunEffect(Doing(s, es[0]), es[0], now), es[1..], now);
    }
  }

  lemma EffectCalm(s: State, e: Effect, now: Time)
    ensures Calm(s, RunEffect(s, e, now))
  {
    hide StartPts;
    match e
    case StartPtsTimer(channel, ms) => StartPtsCalm(s, channel, ms, now);
    case _ =>
  }

  lemma {:induction false} FeedCalm(s: State, list: seq<Update>, now: Time)
    ensures Calm(s, FeedAll(s, list, now))
    decreases |list|
  {
    if list != [] {
      EffectsCalm(Handling(s, list[0]), list[0].effects, now);
      FeedCalm(FeedOne(s, list[0], now), list[1..], now);
    }
  }

  lemma ChannelReplyCalm(s: State, e: Event, now: Time)
    requires e.ChannelDone?
    ensures Calm(s, Next(s, e, now))
  {
    hide FeedAll, StartPts;
    var s0 := ForgetTimeout(s, e.ch);
    var list := Pick(e.other, IDS) + VectorOrder(e.other, SkipMessageIds);
    var s2 := Begun(s0, ChannelDifference(e.ch, e.other));
    FeedCalm(s2, list, now);
    var s1 := ReleaseChannel(FeedAll(s2, list, now), e.ch, e.newPts);
    assert Calm(s, s1);
    if e.final && e.poll.Some? {
      StartPtsCalm(s1, Some(e.ch), e.poll.value, now);
    }
  }

  lemma ChannelFailCalm(s: State, ch: Channel, now: Time)
    requires s.net.afterFail.global == 0
    ensures Calm(s, Next(s, ChannelFail(ch), now))
  {
    hide AfterFailPass;
    var s1 := s.(net := s.net.(chanInFlight := s.net.chanInFlight - multiset{ch}));
    var (d, changed) := WhenChanged(s1.net.afterFail, Some(ch), TimeoutOf(s.core, Some(ch)) * 1000, now);
    if changed {
      AfterFailPassCalm(s1.(net := s1.net.(afterFail := d)), now);
    }
  }

  /** Whatever else happens while no difference is requested is calm. */
  lemma OtherEventCalm(s: State, e: Event, now: Time)
    requires Inv(s) && Enabled(s, e, now) && !s.net.requesting
    requires !e.Push? && !e.ApiResult? && !e.NewSession?
    ensures Calm(s, Next(s, e, now))
  {
    NothingOut(s);
    hide Inv, ByPtsPass, AfterFailPass, StartPts;
    match e
    case ByPtsFire => ByPtsPassCalm(s.(net := s.net.(byPts := s.net.byPts.(timer := None))), now);
    case FailFire => AfterFailPassCalm(s.(net := s.net.(afterFail := s.net.afterFail.(timer := None))), now);
    case PtsTimer(channel, ms) => StartPtsCalm(s, channel, ms, now);
    case ChannelDone(_, _, _, _, _) => ChannelReplyCalm(s, e, now);
    case ChannelFail(ch) => ChannelFailCalm(s, ch, now);
    case _ =>
  }

  lemma NothingOut(s: State)
    requires Inv(s) && !s.net.requesting
    ensures s.net.diffInFlight == 0 && s.core.stateInFlight == 0 && s.net.afterFail.global == 0
  {
  }

  /** At no moment of the run is a difference being requested. */
  ghost predicate Quiet(s: State, run: seq<Timed>) {
    forall k :: 0 <= k <= |run| ==> !Run(s, run[..k]).net.requesting
  }

  function Arrived(e: Event): Option<Updates> {
    match e
    case Push(u, _) => Some(u)
    case ApiResult(u) => Some(u)
    case _ => None
  }

  /** Only the given containers and unnumbered updates arrive. */
  predicate Expected(e: Event, cs: seq<Updates>) {
    Arrived(e).Some? ==> Arrived(e).value in cs || Unnumbered(Arrived(e).value)
  }

  predicate AllExpected(run: seq<Timed>, cs: seq<Updates>) {
    forall i :: 0 <= i < |run| ==> Expected(run[i].event, cs)
  }

  predicate Brought(run: seq<Timed>, u: Updates) {
    exists i :: 0 <= i < |run| && Arrived(run[i].event) == Some(u)
  }

  lemma QuietPrefix(s: State, run: seq<Timed>)
    requires Quiet(s, run) && run != []
    ensures Quiet(s, run[..|run| - 1]) && !Run(s, run).net.requesting && !Run(s, run[..|run| - 1]).net.requesting
  {
    var before := run[..|run| - 1];
    forall k | 0 <= k <= |before| ensures !Run(s, before[..k]).net.requesting {
      assert before[..k] == run[..k];
    }
    assert run[..|run|] == run;
    assert before == run[..|before|];
  }

  /** One event: the state of the batch goes on, and what arrives is held. */
  lemma StepDelivers(s: State, cs: seq<Updates>, cur: Origin, m: nat, e: Event, now: Time) returns (n: nat)
    requires Inv(s) && Enabled(s, e, now) && !s.net.requesting && !Next(s, e, now).net.requesting
    requires Partition(cs, cur) && Waiting(s, cs, cur, m) && Expected(e, cs)
    ensures Waiting(Next(s, e, now), cs, cur, n) && AllHeld(s, cs, m, Next(s, e, now), n)
    ensures forall i :: 0 <= i < |cs| && Arrived(e) == Some(cs[i]) ==> Held(Next(s, e, now), cs, n, i)
  {
    assert e != NewSession;
    NothingOut(s);
    NextInv(s, e, now);
    NothingOut(Next(s, e, now));
    hide Inv, Apply, Numbered, InOrder, Partition, Unnumbered;
    n := m;
    if Arrived(e).None? {
      OtherEventCalm(s, e, now);
      hide Next;
    } else {
      var u := Arrived(e).value;
      assert Next(s, e, now) == Apply(s, u, now);
      if u in cs {
        var i :| 0 <= i < |cs| && cs[i] == u;
        n := NumberedArrival(s, cs, cur, m, i, now);
        SameStart(cs, cur, i);
      } else {
        UnnumberedArrival(s, u, now);
      }
    }
  }

  lemma {:induction false} RunDelivers(s: State, cs: seq<Updates>, cur: Origin, run: seq<Timed>) returns (n: nat)
    requires Inv(s) && Quiet(s, run) && AllExpected(run, cs)
    requires Partition(cs, cur) && Waiting(s, cs, cur, 0)
    ensures Waiting(Run(s, run), cs, cur, n)
    ensures forall i :: 0 <= i < |cs| && Brought(run, cs[i]) ==> Held(Run(s, run), cs, n, i)
    decreases |run|
  {
    hide Inv, Next, Enabled, Partition, Waiting, Expected, Arrived;
    n := 0;
    if run != [] {
      var before, u := run[..|run| - 1], run[|run| - 1];
      QuietPrefix(s, run);
      hide Quiet;
      var m := RunDelivers(s, cs, cur, before);
      var t := Run(s, before);
      RunForward(s, before);
      n := m;
      if Enabled(t, u.event, u.now) {
        n := StepDelivers(t, cs, cur, m, u.event, u.now);
      } else {
        NoArrival(t, u);
      }
      forall i | 0 <= i < |cs| && Brought(run, cs[i]) ensures Held(Run(s, run), cs, n, i) {
        if Arrived(u.event) != Some(cs[i]) {
          var j :| 0 <= j < |run| && Arrived(run[j].event) == Some(cs[i]);
          assert before[j] == run[j];
          assert Brought(before, cs[i]);
          assert Held(t, cs, m, i);
        }
      }
    }
  }

  lemma NoArrival(t: State, u: Timed)
    requires !Enabled(t, u.event, u.now)
    ensures Arrived(u.event).None?
  {
  }

  /**
   * From any reachable state with an empty buffer: containers whose ranges cut cur+1..n arrive in any
   * order and any number of times, and between them come unnumbered updates, channel differences and
   * their failures, timers and requests of any kind. If at no moment a difference is being requested,
   * each container was applied exactly once, in the order of the server, and the buffer is empty again.
   */
  lemma OrderInEveryRun(before: seq<Timed>, cs: seq<Updates>, run: seq<Timed>)
    requires var s := Run(INITIAL, before);
             && Partition(cs, Origin(s.core.seqNo, Numbered(s.core.log))) && s.gap.buffer == map[]
             && Quiet(s, run)
    requires AllExpected(run, cs) && forall i :: 0 <= i < |cs| ==> Brought(run, cs[i])
    ensures var s, t := Run(INITIAL, before), Run(INITIAL, before + run);
            && Numbered(t.core.log) == Numbered(s.core.log) + InOrder(cs)
            && t.core.seqNo == (if cs == [] then s.core.seqNo else End(cs[|cs| - 1]))
            && t.gap.buffer == map[]
  {
    hide Run, Numbered, InOrder, Inv, Quiet;
    var s, t := Run(INITIAL, before), Run(INITIAL, before + run);
    RunInv(before);
    RunConcat(INITIAL, before, run);
    var cur := Origin(s.core.seqNo, Numbered(s.core.log));
    assert cur.numbered + InOrder(cs[..0]) == cur.numbered by { EmptyOrder(cs); }
    var n := RunDelivers(s, cs, cur, run);
    assert n == |cs|;
    assert cs[..n] == cs;
    assert forall k :: k !in t.gap.buffer;
  }
}
