/** When the timer that waits for missing sequence numbers can be relied on, and when it cannot. */
module UpdatesGapTimer {
  import opened Common
  import opened FeedOrder
  import opened UpdatesModel
  import opened UpdatesRuns
  import opened UpdatesSafety

  /** A container that moves the number on when it is applied from the buffer; where to does not matter. */
  predicate Moves(u: Updates) { u.Combined? && u.start > 1 ==> u.end != 0 && u.end != u.start - 1 }

  ghost predicate GoodBuffer(s: State) {
    Filed(s.gap.buffer) && forall k :: k in s.gap.buffer ==> k > 1 && Moves(s.gap.buffer[k])
  }

  /** Whatever is buffered, the timer is running. */
  ghost predicate Armed(s: State) { s.gap.buffer != map[] ==> s.gap.timer }

  lemma {:induction false} DrainArmed(s: State, now: Time)
    requires GoodBuffer(s)
    ensures GoodBuffer(Drain(s, now)) && Armed(Drain(s, now))
    decreases |s.gap.buffer|, 0
  {
    if s.gap.buffer != map[] {
      var k := FrontKey(s.gap.buffer);
      if k <= s.core.seqNo + 1 {
        var s1 := s.(gap := s.gap.(buffer := s.gap.buffer - {k}));
        assert s1.gap.buffer.Keys == s.gap.buffer.Keys - {k};
        if k == s.core.seqNo + 1 {
          ApplyArmed(s1, s.gap.buffer[k], now);
        } else {
          DrainArmed(s1, now);
        }
      }
    }
  }

  lemma {:induction false} SetStateArmed(s: State, pts: int, date: int, qts: int, end: nat, now: Time)
    requires GoodBuffer(s) && (Armed(s) || (end != 0 && end != s.core.seqNo))
    ensures var t := SetState(s, pts, date, qts, end, now);
            GoodBuffer(t) && Armed(t)
    decreases |s.gap.buffer|, 1
  {
    if end != 0 && end != s.core.seqNo {
      var c := Marks(s.core, pts, date, qts, s.minTimer);
      DrainArmed(s.(core := c.(seqNo := end), gap := s.gap.(timer := false),
                    past := s.past + [Given(pts, date, qts, end, s.minTimer)]), now);
    }
  }

  lemma {:induction false} ApplyArmed(s: State, u: Updates, now: Time)
    requires GoodBuffer(s) && Moves(u) && (Armed(s) || 1 < u.Start() == s.core.seqNo + 1)
    ensures GoodBuffer(Apply(s, u, now)) && Armed(Apply(s, u, now))
    decreases |s.gap.buffer|, 3
  {
    hide SetState, FeedAll, VectorOrder;
    match u
    case Plain(end, date, list) => ContainerArmed(s, u, end, date, list, now);
    case Combined(_, end, date, list) => ContainerArmed(s, u, end, date, list, now);
    case Short(date, update) =>
      FeedOneFrame(Begun(s, Applying(u)), update, now);
      var s1 := FeedOne(Begun(s, Applying(u)), update, now);
      SetStateArmed(s1, 0, date, s1.core.qts, s1.core.seqNo, now);
    case ShortMessage(date, loaded, ready, effects) =>
      RunEffectsFrame(Begun(s, Applying(u)), effects, now);
      var s1 := RunEffects(Begun(s, Applying(u)), effects, now);
      SetStateArmed(s1, 0, date, s1.core.qts, s1.core.seqNo, now);
    case TooLong =>
  }

  lemma {:induction false} ContainerArmed(s: State, u: Updates, end: nat, date: int, list: seq<Update>, now: Time)
    requires GoodBuffer(s) && (Armed(s) || 1 < u.Start() == s.core.seqNo + 1)
    requires Moves(u) && (u.Plain? || u.Combined?) && u.end == end
    ensures var t := ApplyContainer(s, u, end, date, list, now);
            GoodBuffer(t) && Armed(t)
    decreases |s.gap.buffer|, 2
  {
    hide SetState, FeedAll, VectorOrder;
    if u.Start() == 0 || u.Start() == s.core.seqNo + 1 {
      FeedAllFrame(Logged(s, u), VectorOrder(list, SkipNone), now);
      var s1 := FeedAll(Logged(s, u), VectorOrder(list, SkipNone), now);
      SetStateArmed(s1, 0, date, s1.core.qts, end, now);
    }
  }

  /** Does the event bring anything but containers that move, or the given one? */
  predicate Brings(e: Event, u: Updates) {
    (e.Push? ==> Moves(e.u) || e.u == u) && (e.ApiResult? ==> Moves(e.u) || e.u == u)
  }

  predicate MovingEvent(e: Event) { (e.Push? ==> Moves(e.u)) && (e.ApiResult? ==> Moves(e.u)) }

  /** The gap timer, when it fires, strands the buffer exactly if a difference is being requested. */
  lemma SeqFireStrands(s: State, now: Time)
    requires Enabled(s, SeqFire, now)
    ensures Armed(Next(s, SeqFire, now)) <==> !(s.net.requesting && s.gap.buffer != map[])
  {
  }

  lemma GroupCallsFrame(s: State, u: Updates, now: Time)
    ensures FeedFrame(s, ApplyGroupCalls(s, u, now))
  {
    var s1 := Begun(s, GroupCalls(u));
    match u
    case Plain(_, _, list) => FeedAllFrame(s1, VectorOrder(list, SkipExceptGroupCallParticipants), now);
    case Combined(_, _, _, list) => FeedAllFrame(s1, VectorOrder(list, SkipExceptGroupCallParticipants), now);
    case Short(_, update) => FeedOneFrame(s1, update, now);
    case ShortMessage(_, _, _, _) =>
    case TooLong =>
  }

  /** Events that never touch the buffer except by clearing it. */
  lemma PassEventGap(s: State, e: Event, now: Time)
    requires Enabled(s, e, now)
    requires e.StateFail? || e.DiffTooLong? || e.DiffFail? || e.ByPtsFire? || e.FailFire?
             || e.PtsTimer? || e.ChannelPts? || e.ChannelFail?
    ensures var t := Next(s, e, now); t.gap == s.gap || t.gap == EMPTY_GAP
  {
    hide AfterFailChannels, ByPtsChannels, WhenChanged;
  }

  lemma ChannelDoneGap(s: State, e: Event, now: Time)
    requires Enabled(s, e, now) && e.ChannelDone?
    ensures var t := Next(s, e, now); t.gap == s.gap || t.gap == EMPTY_GAP
  {
    hide FeedAll, ByPtsChannels, WhenChanged;
    FeedAllFrame(Begun(ForgetTimeout(s, e.ch), ChannelDifference(e.ch, e.other)),
                 Pick(e.other, IDS) + VectorOrder(e.other, SkipMessageIds), now);
  }

  lemma ReplyEventArmed(s: State, e: Event, now: Time)
    requires GoodBuffer(s) && Armed(s) && Enabled(s, e, now)
    requires e.StateReply? || e.DiffEmpty? || e.DiffSlice? || e.DiffFull?
    ensures GoodBuffer(Next(s, e, now)) && Armed(Next(s, e, now))
  {
    hide SetState, FeedAll;
    match e
    case StateReply(pts, date, qts, end) => SetStateArmed(s, pts, date, qts, end, now);
    case DiffEmpty(date, end) =>
      var s1 := Succeeded(s);
      SetStateArmed(s1, s1.core.pts, date, s1.core.qts, end, now);
    case DiffSlice(other, pts, date, qts, end) => DiffArmed(Succeeded(s), other, pts, date, qts, end, now);
    case DiffFull(other, pts, date, qts, end) => DiffArmed(Succeeded(s), other, pts, date, qts, end, now);
  }

  lemma DiffArmed(s: State, other: seq<Update>, pts: int, date: int, qts: int, end: nat, now: Time)
    requires GoodBuffer(s) && Armed(s)
    ensures var t := SetState(FeedBoth(s, Difference(other), other, now), pts, date, qts, end, now);
            GoodBuffer(t) && Armed(t)
  {
    FeedAllFrame(Begun(s, Difference(other)), Pick(other, IDS) + VectorOrder(other, SkipMessageIds), now);
    SetStateArmed(FeedBoth(s, Difference(other), other, now), pts, date, qts, end, now);
  }

  lemma NextArmed(s: State, e: Event, now: Time)
    requires GoodBuffer(s) && Armed(s) && Enabled(s, e, now) && MovingEvent(e)
    requires e.SeqFire? ==> !(s.net.requesting && s.gap.buffer != map[])
    ensures GoodBuffer(Next(s, e, now)) && Armed(Next(s, e, now))
  {
    hide Apply, ApplyGroupCalls, SetState, FeedBoth, ByPtsPass, AfterFailPass, StartPts, StartFailTimer, ChannelReply;
    match e
    case Push(u, _) =>
      ApplyArmed(s, u, now);
      GroupCallsFrame(s, u, now);
    case ApiResult(u) => ApplyArmed(s, u, now);
    case StateReply(_, _, _, _) => ReplyEventArmed(s, e, now);
    case DiffEmpty(_, _) => ReplyEventArmed(s, e, now);
    case DiffSlice(_, _, _, _, _) => ReplyEventArmed(s, e, now);
    case DiffFull(_, _, _, _, _) => ReplyEventArmed(s, e, now);
    case ChannelDone(_, _, _, _, _) => ChannelDoneGap(s, e, now);
    case NewSession =>
    case Ask =>
    case SeqFire =>
    case MinFire =>
    case _ => PassEventGap(s, e, now);
  }

  /** As the i-th event the gap timer fires with containers buffered and a difference being requested. */
  ghost predicate StrandsAt(run: seq<Timed>, i: int) {
    && 0 <= i < |run| && run[i].event == SeqFire
    && var s := Run(INITIAL, run[..i]);
       Enabled(s, SeqFire, run[i].now) && s.net.requesting && s.gap.buffer != map[]
  }

  lemma {:induction false} TimedUnlessStranded(run: seq<Timed>)
    requires forall i :: 0 <= i < |run| ==> MovingEvent(run[i].event)
    requires forall i :: !StrandsAt(run, i)
    ensures GoodBuffer(Run(INITIAL, run)) && Armed(Run(INITIAL, run))
  {
    if run != [] {
      var before, u := run[..|run| - 1], run[|run| - 1];
      forall i ensures !StrandsAt(before, i) {
        if 0 <= i < |before| {
          assert before[..i] == run[..i];
          assert !StrandsAt(run, i);
        }
      }
      TimedUnlessStranded(before);
      var s := Run(INITIAL, before);
      assert !StrandsAt(run, |run| - 1);
      hide Next;
      if Enabled(s, u.event, u.now) {
        NextArmed(s, u.event, u.now);
      }
    }
  }

  /** A buffered container has the timer at every moment of a run exactly when the timer never fires at a bad moment. */
  lemma GapIsTimed(run: seq<Timed>)
    requires forall i :: 0 <= i < |run| ==> MovingEvent(run[i].event)
    ensures (forall k :: 0 <= k <= |run| ==> Armed(Run(INITIAL, run[..k]))) <==> (forall i :: !StrandsAt(run, i))
  {
    if forall i :: !StrandsAt(run, i) {
      forall k | 0 <= k <= |run| ensures Armed(Run(INITIAL, run[..k])) {
        forall i ensures !StrandsAt(run[..k], i) {
          if 0 <= i < k {
            assert run[..k][..i] == run[..i];
            assert !StrandsAt(run, i);
          }
        }
        TimedUnlessStranded(run[..k]);
      }
    }
    if i :| StrandsAt(run, i) {
      var s := Run(INITIAL, run[..i]);
      SeqFireStrands(s, run[i].now);
      assert run[..i + 1][..i] == run[..i];
      assert Run(INITIAL, run[..i + 1]) == Next(s, SeqFire, run[i].now);
    }
  }

  /** A run that brings only containers that move and the given one, and no bad moment. */
  ghost predicate Fair(run: seq<Timed>, u: Updates) {
    && (forall i :: 0 <= i < |run| ==> Brings(run[i].event, u))
    && (forall i :: !StrandsAt(run, i))
  }

  /** The container that does not move, one behind a further gap, and the one that lets both be looked at. */
  function StrandingRun(u: Updates): seq<Timed>
    requires u.Combined? && u.start > 1
  {
    [Timed(ApiResult(u), 0), Timed(ApiResult(Plain(u.start + 2, 0, [])), 0),
     Timed(ApiResult(Combined(1, u.start - 1, 0, [])), 0)]
  }

  /** Feeding while a request is out leaves the buffer as it is. */
  lemma FeedKeepsGap(s: State, list: seq<Update>, now: Time)
    requires NetInv(s) && s.net.requesting
    ensures FeedAll(s, list, now).gap == s.gap && FeedAll(s, list, now).core == s.core
  {
    FeedAllSafe(s, list, now);
  }

  /** Applied from the buffer, a container that does not move leaves what is behind it without a timer. */
  lemma StandsStill(s: State, u: Updates, now: Time)
    requires NetInv(s) && s.net.requesting && u.Combined? && u.start == s.core.seqNo + 1
    requires u.end == 0 || u.end == s.core.seqNo
    ensures Apply(s, u, now).gap == s.gap
  {
    hide FeedAll, VectorOrder, NetInv;
    var s0 := Logged(s, u);
    NetInvSame(s, s0);
    FeedKeepsGap(s0, VectorOrder(u.list, SkipNone), now);
    var s1 := FeedAll(s0, VectorOrder(u.list, SkipNone), now);
    assert Apply(s, u, now) == ApplyContainer(s, u, u.end, u.date, u.list, now)
        == SetState(s1, 0, u.date, s1.core.qts, u.end, now);
  }

  lemma StrandingRunStrands(u: Updates)
    requires u.Combined? && !Moves(u)
    ensures !Armed(Run(INITIAL, StrandingRun(u)))
  {
    hide Drain, SetState, FeedAll, NetInv;
    var v, w := Plain(u.start + 2, 0, []), Combined(1, u.start - 1, 0, []);
    var run := StrandingRun(u);
    assert run[..2][..1] == run[..1] && run[..3] == run && run[..1][..0] == [];
    var s1, s2 := Run(INITIAL, run[..1]), Run(INITIAL, run[..2]);
    assert Run(INITIAL, []) == INITIAL;
    assert s1 == Apply(INITIAL, u, 0) == ApplyContainer(INITIAL, u, u.end, u.date, u.list, 0);
    assert s1 == INITIAL.(gap := Gap(map[u.start := u], true));
    assert s2 == Apply(s1, v, 0) == ApplyContainer(s1, v, v.end, 0, [], 0);
    assert s2 == INITIAL.(gap := Gap(map[u.start := u, v.end := v], true));
    assert Run(INITIAL, run) == Apply(s2, w, 0);
    LastArrival(s2, u, v, w);
  }

  lemma LastArrival(s: State, u: Updates, v: Updates, w: Updates)
    requires u.Combined? && !Moves(u) && v == Plain(u.start + 2, 0, []) && w == Combined(1, u.start - 1, 0, [])
    requires s == INITIAL.(gap := Gap(map[u.start := u, v.end := v], true))
    ensures Apply(s, w, 0).gap == Gap(map[v.end := v], false)
  {
    var s0 := Logged(s, w);
    assert VectorOrder([], SkipNone) == [];
    assert FeedAll(s0, [], 0) == s0;
    hide Drain, FeedAll, VectorOrder;
    assert Apply(s, w, 0) == ApplyContainer(s, w, w.end, 0, [], 0) == SetState(s0, 0, 0, s0.core.qts, w.end, 0);
    var s1 := s0.(core := Marks(s0.core, 0, 0, s0.core.qts, s0.minTimer).(seqNo := w.end),
                  gap := s0.gap.(timer := false),
                  past := s0.past + [Given(0, 0, s0.core.qts, w.end, s0.minTimer)]);
    assert Apply(s, w, 0) == Drain(s1, 0);
    InitialInv();
    NetInvSame(INITIAL, s1);
    LastDrain(s1, u, v);
  }

  lemma LastDrain(s: State, u: Updates, v: Updates)
    requires u.Combined? && !Moves(u) && v.Plain? && v.end == u.start + 2
    requires NetInv(s) && s.net.requesting && s.core.seqNo == u.start - 1
    requires s.gap == Gap(map[u.start := u, v.end := v], false)
    ensures Drain(s, 0).gap == Gap(map[v.end := v], false)
  {
    hide NetInv, Apply;
    assert u.start in s.gap.buffer && FrontKey(s.gap.buffer) in {u.start, v.end};
    var s1 := s.(gap := s.gap.(buffer := s.gap.buffer - {u.start}));
    assert s1.gap.buffer == map[v.end := v];
    NetInvSame(s, s1);
    StandsStill(s1, u, 0);
    assert Drain(s, 0) == Apply(s1, u, 0);
  }

  /** Containers that move are exactly those that can never leave others without the timer. */
  lemma MovesExactlyWhen(u: Updates)
    ensures Moves(u) <==> forall run :: Fair(run, u) ==> Armed(Run(INITIAL, run))
  {
    if Moves(u) {
      forall run | Fair(run, u) ensures Armed(Run(INITIAL, run)) {
        TimedUnlessStranded(run);
      }
    } else {
      var run := StrandingRun(u);
      hide Run;
      assert Fair(run, u);
      StrandingRunStrands(u);
    }
  }

  /** Such a moment can come: three events after which a container waits with no timer and no request. */
  lemma GapCanBeStranded(u: Updates)
    requires u.Plain? && u.end > 1
    ensures var s := Run(INITIAL, [Timed(ApiResult(u), 0), Timed(SeqFire, 1000), Timed(StateReply(1, 1, 1, 0), 2000)]);
            s.gap.buffer == map[u.end := u] && !s.gap.timer && !s.net.requesting
  {
    var a, b, c := Timed(ApiResult(u), 0), Timed(SeqFire, 1000), Timed(StateReply(1, 1, 1, 0), 2000);
    assert [a, b, c][..2] == [a, b] && [a, b][..1] == [a] && [a][..0] == [];
    var s1 := Run(INITIAL, [a]);
    assert s1 == Step(Run(INITIAL, []), a) == Next(INITIAL, ApiResult(u), 0);
    assert s1 == Apply(INITIAL, u, 0) == ApplyContainer(INITIAL, u, u.end, u.date, u.list, 0);
    assert s1.gap == Gap(map[u.end := u], true) && s1.net == INITIAL.net && s1.core == INITIAL.core;
    var s2 := Run(INITIAL, [a, b]);
    assert s2 == Step(s1, b);
    assert s2.gap == Gap(map[u.end := u], false) && s2.net.requesting && s2.core == INITIAL.core;
    assert Run(INITIAL, [a, b, c]) == Step(s2, c);
  }
}
