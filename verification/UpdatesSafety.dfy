/** What every reachable state of the updates manager satisfies, whatever the interleaving. */
module UpdatesSafety {
  import opened Common
  import opened FeedOrder
  import opened UpdatesModel
  import opened UpdatesRuns

  // ---- Invariants ----

  /** Requests: at most one global difference in flight, and who may be waiting for what. */
  ghost predicate Flights(c: Core, n: Net) {
    && n.diffInFlight + c.stateInFlight <= 1
    && (n.diffInFlight + c.stateInFlight == 1 ==> n.requesting)
    && (n.afterFail.global != 0 ==> n.requesting && n.diffInFlight + c.stateInFlight == 0)
    && (Dead(c, n) <==> Ended(c))
  }

  /** The server answered "difference too long", or the first state request failed. */
  predicate Ended(c: Core) { c.tooLong || c.stateFailed }

  /** The flag says a difference is being requested, but nothing is out and no retry is planned. */
  ghost predicate Dead(c: Core, n: Net) {
    n.requesting && n.diffInFlight + c.stateInFlight == 0 && n.afterFail.global == 0
  }

  /** The same per channel; a channel waiting for a retry has its flag set and nothing in flight. */
  ghost predicate ChannelFlights(c: Core, n: Net) {
    && (forall ch :: ch in n.chanInFlight ==> n.chanInFlight[ch] == 1 && ch in n.chanRequesting)
    && (forall ch :: ch in n.afterFail.channels ==> ch in n.chanRequesting && ch !in n.chanInFlight)
    && (forall ch :: ch in c.channelTimeout ==>
          c.channelTimeout[ch] == 2 && ch in n.chanRequesting && ch !in n.chanInFlight)
    && (forall ch :: ch in n.chanRequesting && ch !in n.chanInFlight ==> ch in c.channelTimeout)
  }

  ghost predicate NetInv(s: State) {
    && Flights(s.core, s.net)
    && ChannelFlights(s.core, s.net)
    && Covered(s.net.byPts) && Covered(s.net.afterFail)
  }

  /** Every buffered container is filed under its own start, and starts beyond the next number. */
  ghost predicate Filed(buffer: map<nat, Updates>) {
    forall k :: k in buffer ==> buffer[k].Start() == k
  }

  ghost predicate Beyond(s: State) {
    forall k :: k in s.gap.buffer ==> k > s.core.seqNo + 1
  }

  /** Every sequenced container was applied exactly when its start was the next number. */
  ghost predicate InSequence(log: seq<Applied>) {
    forall i :: 0 <= i < |log| && log[i].updates.Start() != 0 ==> log[i].updates.Start() == log[i].atSeq + 1
  }

  function Power(n: nat): (p: nat)
    ensures p >= 1
  {
    if n == 0 then 1 else 2 * Power(n - 1)
  }

  /** Seconds to wait after a number of failures in a row. */
  function Backoff(fails: nat): nat { if Power(fails) < 64 then Power(fails) else 64 }

  lemma {:induction false} PowerGrows(n: nat)
    requires n >= 6
    ensures Power(n) >= 64
  {
    if n == 6 {
      assert Power(2) == 4 && Power(4) == 16;
    } else {
      PowerGrows(n - 1);
    }
  }

  /** The doubling of the source is min(2^k, 64). */
  lemma BackoffDoubles(fails: nat)
    ensures Doubled(Backoff(fails)) == Backoff(fails + 1)
  {
    if fails >= 6 {
      PowerGrows(fails);
      PowerGrows(fails + 1);
    } else {
      assert Power(2) == 4 && Power(4) == 16 && Power(6) == 64;
    }
  }

  ghost predicate Inv(s: State) {
    && NetInv(s) && Filed(s.gap.buffer) && Beyond(s) && InSequence(s.core.log)
    && s.core.failTimeout == Backoff(s.core.fails)
  }

  /** Nothing goes back: date, qts, the log of what was applied, and a "too long" answer. */
  ghost predicate Forward(s: State, t: State) {
    && t.core.date >= s.core.date && t.core.qts >= s.core.qts && s.core.log <= t.core.log
    && (Ended(s.core) ==> Ended(t.core))
  }

  /** Neither of the two lasting failures has come or gone. */
  ghost predicate Steady(s: State, t: State) {
    && Forward(s, t) && (Ended(t.core) <==> Ended(s.core)) && t.core.channelTimeout == s.core.channelTimeout
  }

  // ---- Each step keeps the invariant ----

  /** t has lost deadlines but kept its timer. */
  ghost predicate Fewer(d: Deadlines, t: Deadlines) {
    t.timer == d.timer && Pending(t) <= Pending(d)
  }

  /** Handling never disturbs requests already out: global or of a channel that is requesting. */
  ghost predicate NetFrame(n: Net, t: Net) {
    && (n.requesting ==>
          t.requesting && t.diffInFlight == n.diffInFlight && t.afterFail.global == n.afterFail.global)
    && ChanFrame(n, t)
  }

  ghost predicate ChanFrame(n: Net, t: Net) {
    && n.chanRequesting <= t.chanRequesting
    && (forall ch :: ch in n.chanRequesting ==> t.chanInFlight[ch] == n.chanInFlight[ch])
  }

  lemma FewerCovered(d: Deadlines, t: Deadlines)
    requires Covered(d) && Fewer(d, t)
    ensures Covered(t)
  {
  }

  lemma GetDifferenceSafe(s: State)
    requires Flights(s.core, s.net) && ChannelFlights(s.core, s.net)
    ensures var t := GetDifference(s);
            && Flights(t.core, t.net) && ChannelFlights(t.core, t.net)
            && Fewer(s.net.byPts, t.net.byPts) && Fewer(s.net.afterFail, t.net.afterFail)
            && t.net.requesting && NetFrame(s.net, t.net)
  {
  }

  lemma AskAllSafe(c: Core, n: Net, inited: set<Channel>, chs: set<Channel>, from: From)
    requires ChannelFlights(c, n)
    ensures var t := AskAll(n, inited, chs, from);
            && ChannelFlights(c, t)
            && Fewer(n.byPts, t.byPts) && Fewer(n.afterFail, t.afterFail)
            && NetFrame(n, t)
  {
    AskAllFlights(c, n, inited, chs, from);
    AskAllFewer(n, inited, chs, from);
    hide ChannelFlights, Fewer;
  }

  lemma AskAllFlights(c: Core, n: Net, inited: set<Channel>, chs: set<Channel>, from: From)
    requires ChannelFlights(c, n)
    ensures ChannelFlights(c, AskAll(n, inited, chs, from))
  {
  }

  lemma AskAllFewer(n: Net, inited: set<Channel>, chs: set<Channel>, from: From)
    ensures Fewer(n.byPts, AskAll(n, inited, chs, from).byPts)
    ensures Fewer(n.afterFail, AskAll(n, inited, chs, from).afterFail)
  {
  }

  /** After a pass: nothing due is left and the timer sits exactly on the earliest deadline. */
  ghost predicate Settled(d: Deadlines, now: Time) {
    && (forall t :: t in Pending(d) ==> t > now)
    && d.timer == Earliest(Pending(d))
  }

  lemma SettledIsCovered(d: Deadlines, now: Time)
    requires Settled(d, now)
    ensures Covered(d)
  {
  }

  lemma ByPtsChannelsSafe(c: Core, n: Net, inited: set<Channel>, now: Time)
    requires Flights(c, n) && ChannelFlights(c, n) && Covered(n.afterFail)
    requires n.byPts.global != 0 ==> n.byPts.global > now
    ensures var t := ByPtsChannels(n, inited, now);
            && Flights(c, t) && ChannelFlights(c, t)
            && Settled(t.byPts, now) && Covered(t.afterFail) && NetFrame(n, t)
  {
    hide AskAll, Due, Rearm, Settled, Covered, Fewer, ChannelFlights, ChanFrame;
    var due := Due(n.byPts, now);
    var n1 := AskAll(n, inited, due, PtsGapOrShortPoll);
    AskAllSafe(c, n, inited, due, PtsGapOrShortPoll);
    AskAllKeepsPts(n, inited, due);
    FewerCovered(n.afterFail, n1.afterFail);
    DroppedDue(n1.byPts, now);
    OtherPts(c, n, n1, Rearm(n1.byPts.(channels := n1.byPts.channels - due)));
  }

  lemma AskAllKeepsPts(n: Net, inited: set<Channel>, chs: set<Channel>)
    ensures var t := AskAll(n, inited, chs, PtsGapOrShortPoll);
            && t.byPts == n.byPts && t.requesting == n.requesting && t.diffInFlight == n.diffInFlight
            && t.afterFail.global == n.afterFail.global
  {
  }

  lemma OtherPts(c: Core, n: Net, t: Net, d: Deadlines)
    requires ChannelFlights(c, t) && ChanFrame(n, t)
    ensures ChannelFlights(c, t.(byPts := d)) && ChanFrame(n, t.(byPts := d))
  {
  }

  lemma DroppedDue(d: Deadlines, now: Time)
    requires d.global != 0 ==> d.global > now
    ensures Settled(Rearm(d.(channels := d.channels - Due(d, now))), now)
  {
  }

  /** A scheduler pass over the pts deadlines settles them and keeps the request invariants. */
  lemma ByPtsPassSafe(s: State, now: Time)
    requires Flights(s.core, s.net) && ChannelFlights(s.core, s.net) && Covered(s.net.afterFail)
    ensures var t := ByPtsPass(s, now);
            NetInv(t) && Settled(t.net.byPts, now) && NetFrame(s.net, t.net)
  {
    var due := s.net.byPts.global != 0 && s.net.byPts.global <= now;
    var s1 := if due then GetDifference(s) else s;
    GetDifferenceSafe(s);
    FewerCovered(s.net.afterFail, s1.net.afterFail);
    ByPtsChannelsSafe(s1.core, s1.net, s1.core.inited, now);
    SettledIsCovered(ByPtsPass(s, now).net.byPts, now);
  }

  lemma AfterFailChannelsSafe(c: Core, n: Net, inited: set<Channel>, now: Time)
    requires Flights(c, n) && ChannelFlights(c, n) && Covered(n.byPts)
    requires n.afterFail.global != 0 ==> n.afterFail.global > now
    ensures var t := AfterFailChannels(n, inited, now);
            && Flights(c, t) && ChannelFlights(c, t)
            && Settled(t.afterFail, now) && Covered(t.byPts) && ChanFrame(n, t)
  {
    hide AskAll, Due, Rearm, Settled, Covered, Fewer, ChannelFlights, ChanFrame;
    var due := Due(n.afterFail, now);
    var n1 := AskAll(n, inited, due, AfterFail);
    AskAllSafe(c, n, inited, due, AfterFail);
    AskAllKeepsRetries(n, inited, due);
    FewerCovered(n.byPts, n1.byPts);
    DroppedDue(n1.afterFail, now);
    var d := n1.afterFail.(channels := n1.afterFail.channels - due);
    RearmView(d);
    FewerRetries(c, n1, Rearm(d));
    OtherRetries(n, n1, Rearm(d));
  }

  lemma AskAllKeepsRetries(n: Net, inited: set<Channel>, chs: set<Channel>)
    ensures var t := AskAll(n, inited, chs, AfterFail);
            t.afterFail == n.afterFail && t.requesting == n.requesting && t.diffInFlight == n.diffInFlight
  {
  }

  lemma RearmView(d: Deadlines)
    ensures Rearm(d).global == d.global && Rearm(d).channels == d.channels
  {
  }

  lemma FewerRetries(c: Core, n: Net, d: Deadlines)
    requires ChannelFlights(c, n) && d.channels.Keys <= n.afterFail.channels.Keys
    ensures ChannelFlights(c, n.(afterFail := d))
  {
  }

  lemma OtherRetries(n: Net, t: Net, d: Deadlines)
    requires ChanFrame(n, t)
    ensures ChanFrame(n, t.(afterFail := d))
  {
  }

  /** A pass over the retry deadlines: the forced reset never meets a request in flight. */
  lemma AfterFailPassSafe(s: State, now: Time)
    requires Flights(s.core, s.net) && ChannelFlights(s.core, s.net) && Covered(s.net.byPts)
    ensures var t := AfterFailPass(s, now);
            && NetInv(t) && Settled(t.net.afterFail, now)
            && ChanFrame(s.net, t.net) && t.core == s.core && (t.gap == s.gap || t.gap == EMPTY_GAP)
  {
    var due := s.net.afterFail.global != 0 && s.net.afterFail.global <= now;
    var s0 := s.(net := s.net.(requesting := false));
    var s1 := if due then GetDifference(s0) else s;
    hide AfterFailChannels;
    assert Fewer(s.net.byPts, s1.net.byPts);
    FewerCovered(s.net.byPts, s1.net.byPts);
    assert Flights(s1.core, s1.net) && ChannelFlights(s1.core, s1.net);
    AfterFailChannelsSafe(s1.core, s1.net, s1.core.inited, now);
    SettledIsCovered(AfterFailPass(s, now).net.afterFail, now);
  }

  lemma StartPtsSafe(s: State, channel: Option<Channel>, ms: int, now: Time)
    requires NetInv(s)
    ensures NetInv(StartPts(s, channel, ms, now))
    ensures NetFrame(s.net, StartPts(s, channel, ms, now).net)
  {
    var (d, changed) := WhenChanged(s.net.byPts, channel, ms, now);
    if changed {
      ByPtsPassSafe(s.(net := s.net.(byPts := d)), now);
    }
  }

  lemma AskChannelSafe(c: Core, n: Net, inited: set<Channel>, ch: Channel, from: From)
    requires ChannelFlights(c, n)
    ensures var t := AskChannel(n, inited, ch, from);
            && ChannelFlights(c, t) && (Flights(c, n) ==> Flights(c, t))
            && Fewer(n.byPts, t.byPts) && Fewer(n.afterFail, t.afterFail)
            && NetFrame(n, t)
  {
    hide AskChannel, ChannelFlights, Fewer, ChanFrame;
    AskChannelFlights(c, n, inited, ch, from);
    AskChannelFewer(n, inited, ch, from);
    AskChannelFrame(n, inited, ch, from);
  }

  lemma AskChannelFlights(c: Core, n: Net, inited: set<Channel>, ch: Channel, from: From)
    requires ChannelFlights(c, n)
    ensures ChannelFlights(c, AskChannel(n, inited, ch, from))
  {
  }

  lemma AskChannelFewer(n: Net, inited: set<Channel>, ch: Channel, from: From)
    ensures Fewer(n.byPts, AskChannel(n, inited, ch, from).byPts)
    ensures Fewer(n.afterFail, AskChannel(n, inited, ch, from).afterFail)
  {
  }

  lemma AskChannelFrame(n: Net, inited: set<Channel>, ch: Channel, from: From)
    ensures var t := AskChannel(n, inited, ch, from);
            && ChanFrame(n, t) && t.requesting == n.requesting && t.diffInFlight == n.diffInFlight
            && t.afterFail.global == n.afterFail.global
  {
  }

  lemma AskSafe(s: State, ch: Channel, from: From)
    requires NetInv(s)
    ensures NetInv(GetChannelDifference(s, ch, from))
    ensures NetFrame(s.net, GetChannelDifference(s, ch, from).net)
  {
    AskChannelSafe(s.core, s.net, s.core.inited, ch, from);
    var t := GetChannelDifference(s, ch, from);
    FewerCovered(s.net.byPts, t.net.byPts);
    FewerCovered(s.net.afterFail, t.net.afterFail);
  }

  lemma RunEffectSafe(s: State, e: Effect, now: Time)
    requires NetInv(s)
    ensures NetInv(RunEffect(s, e, now))
    ensures NetFrame(s.net, RunEffect(s, e, now).net)
  {
    match e
    case NeedDifference => GetDifferenceSafe(s);
    case MissingChannelData =>
    case UnknownChannel =>
    case StartPtsTimer(channel, ms) => StartPtsSafe(s, channel, ms, now);
    case ChannelTooLong(ch) => AskSafe(s, ch, Unknown);
  }

  lemma {:induction false} RunEffectsSafe(s: State, es: seq<Effect>, now: Time)
    requires NetInv(s)
    ensures NetInv(RunEffects(s, es, now))
    ensures NetFrame(s.net, RunEffects(s, es, now).net)
    decreases |es|
  {
    if es != [] {
      NetInvSame(s, Doing(s, es[0]));
      RunEffectSafe(Doing(s, es[0]), es[0], now);
      RunEffectsSafe(RunEffect(Doing(s, es[0]), es[0], now), es[1..], now);
    }
  }

  lemma {:induction false} FeedAllSafe(s: State, list: seq<Update>, now: Time)
    requires NetInv(s)
    ensures NetInv(FeedAll(s, list, now)) && FeedFrame(s, FeedAll(s, list, now))
    ensures NetFrame(s.net, FeedAll(s, list, now).net)
    decreases |list|
  {
    FeedAllFrame(s, list, now);
    if list != [] {
      NetInvSame(s, Handling(s, list[0]));
      RunEffectsSafe(Handling(s, list[0]), list[0].effects, now);
      FeedAllSafe(FeedOne(s, list[0], now), list[1..], now);
    }
  }

  // ---- Sequencing keeps the invariant ----

  /** What holds throughout the recursion between applyUpdates and setState. */
  ghost predicate Sound(s: State) {
    NetInv(s) && Filed(s.gap.buffer) && InSequence(s.core.log)
  }

  /** What sequencing leaves alone. */
  ghost predicate SeqFrame(s: State, t: State) {
    && Forward(s, t) && NetFrame(s.net, t.net)
    && t.core.failTimeout == s.core.failTimeout && t.core.fails == s.core.fails
    && t.core.tooLong == s.core.tooLong && t.core.stateFailed == s.core.stateFailed
    && t.core.stateInFlight == s.core.stateInFlight
    && t.core.channelTimeout == s.core.channelTimeout && t.core.inited == s.core.inited
  }

  ghost predicate SameNet(s: State, t: State) {
    && t.net == s.net && t.core.stateInFlight == s.core.stateInFlight && t.core.tooLong == s.core.tooLong
    && t.core.stateFailed == s.core.stateFailed && t.core.channelTimeout == s.core.channelTimeout
  }

  lemma NetInvSame(s: State, t: State)
    requires NetInv(s) && SameNet(s, t)
    ensures NetInv(t)
  {
  }

  lemma {:induction false} SetStateSound(s: State, pts: int, date: int, qts: int, end: nat, now: Time)
    requires Sound(s) && Beyond(s)
    ensures var t := SetState(s, pts, date, qts, end, now);
            Sound(t) && Beyond(t) && SeqFrame(s, t)
    decreases |s.gap.buffer|, 1
  {
    var c := Marks(s.core, pts, date, qts, s.minTimer);
    if end == 0 || end == c.seqNo {
      NetInvSame(s, s.(core := c));
      NetInvSame(s, SetState(s, pts, date, qts, end, now));
    } else {
      var s1 := s.(core := c.(seqNo := end), gap := s.gap.(timer := false),
                   past := s.past + [Given(pts, date, qts, end, s.minTimer)]);
      NetInvSame(s, s1);
      DrainSound(s1, now);
    }
  }

  /** The state after the front container was taken out of the buffer. */
  ghost function Popped(s: State): State
    requires s.gap.buffer != map[]
  {
    s.(gap := s.gap.(buffer := s.gap.buffer - {FrontKey(s.gap.buffer)}))
  }

  lemma DrainIs(s: State, now: Time)
    ensures s.gap.buffer == map[] ==> Drain(s, now) == s
    ensures s.gap.buffer != map[] ==>
              var k := FrontKey(s.gap.buffer);
              && |Popped(s).gap.buffer| < |s.gap.buffer|
              && Drain(s, now) == (if k > s.core.seqNo + 1 then s.(gap := s.gap.(timer := true))
                                   else if k == s.core.seqNo + 1 then Apply(Popped(s), s.gap.buffer[k], now)
                                   else Drain(Popped(s), now))
  {
    if s.gap.buffer != map[] {
      assert Popped(s).gap.buffer.Keys == s.gap.buffer.Keys - {FrontKey(s.gap.buffer)};
    }
  }

  lemma PoppedSound(s: State)
    requires Sound(s) && s.gap.buffer != map[]
    ensures Sound(Popped(s)) && SeqFrame(s, Popped(s))
    ensures FrontKey(s.gap.buffer) == s.core.seqNo + 1 ==> Beyond(Popped(s))
  {
    NetInvSame(s, Popped(s));
  }

  lemma StoppedSound(s: State)
    requires Sound(s) && (s.gap.buffer != map[] ==> FrontKey(s.gap.buffer) > s.core.seqNo + 1)
    ensures var t := s.(gap := s.gap.(timer := true));
            && Sound(t) && Beyond(t) && SeqFrame(s, t) && Beyond(s) && SeqFrame(s, s)
  {
    NetInvSame(s, s.(gap := s.gap.(timer := true)));
  }

  lemma SeqFrameOn(s: State, t: State, u: State)
    requires SeqFrame(s, t) && SeqFrame(t, u)
    ensures SeqFrame(s, u)
  {
  }

  lemma {:induction false} DrainSound(s: State, now: Time)
    requires Sound(s)
    ensures var t := Drain(s, now);
            Sound(t) && Beyond(t) && SeqFrame(s, t)
    decreases |s.gap.buffer|, 0
  {
    hide Drain, Apply, Sound, Beyond, SeqFrame, Popped;
    DrainIs(s, now);
    if s.gap.buffer == map[] || FrontKey(s.gap.buffer) > s.core.seqNo + 1 {
      StoppedSound(s);
    } else {
      var k := FrontKey(s.gap.buffer);
      PoppedSound(s);
      if k == s.core.seqNo + 1 {
        ApplySound(Popped(s), s.gap.buffer[k], now);
      } else {
        DrainSound(Popped(s), now);
      }
      SeqFrameOn(s, Popped(s), Drain(s, now));
    }
  }

  lemma {:induction false} ApplySound(s: State, u: Updates, now: Time)
    requires Sound(s) && Beyond(s)
    ensures var t := Apply(s, u, now);
            Sound(t) && Beyond(t) && SeqFrame(s, t)
    decreases |s.gap.buffer|, 3
  {
    hide Sound, Beyond, SetState, RunEffects, FeedOne, FeedAll, SeqFrame;
    match u
    case Plain(end, date, list) => ContainerSound(s, u, end, date, list, now);
    case Combined(_, end, date, list) => ContainerSound(s, u, end, date, list, now);
    case Short(date, update) =>
      BegunSound(s, Applying(u));
      UpdateSound(Begun(s, Applying(u)), update, now);
      var s1 := FeedOne(Begun(s, Applying(u)), update, now);
      SetStateSound(s1, 0, date, s1.core.qts, s1.core.seqNo, now);
      SeqFrameOn(s, Begun(s, Applying(u)), s1);
      SeqFrameOn(s, s1, Apply(s, u, now));
    case ShortMessage(date, loaded, ready, effects) =>
      if !loaded {
        AskGlobalSound(s);
      } else {
        BegunSound(s, Applying(u));
        EffectsSound(Begun(s, Applying(u)), effects, now);
        var s1 := RunEffects(Begun(s, Applying(u)), effects, now);
        SeqFrameOn(s, Begun(s, Applying(u)), s1);
        SetStateSound(s1, 0, date, s1.core.qts, s1.core.seqNo, now);
        if ready {
          SeqFrameOn(s, s1, Apply(s, u, now));
        }
      }
    case TooLong => AskGlobalSound(s);
  }

  lemma AskGlobalSound(s: State)
    requires Sound(s) && Beyond(s)
    ensures Sound(GetDifference(s)) && Beyond(GetDifference(s)) && SeqFrame(s, GetDifference(s))
  {
    GetDifferenceSafe(s);
    var t := GetDifference(s);
    FewerCovered(s.net.byPts, t.net.byPts);
    FewerCovered(s.net.afterFail, t.net.afterFail);
  }

  lemma EffectsSound(s: State, es: seq<Effect>, now: Time)
    requires Sound(s) && Beyond(s)
    ensures var t := RunEffects(s, es, now);
            Sound(t) && Beyond(t) && SeqFrame(s, t) && |t.gap.buffer| <= |s.gap.buffer|
  {
    RunEffectsSafe(s, es, now);
    RunEffectsFrame(s, es, now);
  }

  lemma UpdateSound(s: State, u: Update, now: Time)
    requires Sound(s) && Beyond(s)
    ensures var t := FeedOne(s, u, now);
            Sound(t) && Beyond(t) && SeqFrame(s, t) && |t.gap.buffer| <= |s.gap.buffer|
  {
    NetInvSame(s, Handling(s, u));
    EffectsSound(Handling(s, u), u.effects, now);
  }

  /** A feeding begins: only the history is longer. */
  lemma BegunSound(s: State, source: Source)
    requires Sound(s) && Beyond(s)
    ensures Sound(Begun(s, source)) && Beyond(Begun(s, source)) && SeqFrame(s, Begun(s, source))
  {
    NetInvSame(s, Begun(s, source));
  }

  lemma FeedSound(s: State, list: seq<Update>, now: Time)
    requires Sound(s) && Beyond(s)
    ensures var t := FeedAll(s, list, now);
            && Sound(t) && Beyond(t) && SeqFrame(s, t) && |t.gap.buffer| <= |s.gap.buffer|
            && t.core == s.core
  {
    FeedAllSafe(s, list, now);
  }

  lemma LoggedSound(s: State, u: Updates)
    requires Sound(s) && Beyond(s)
    requires u.Start() == 0 || u.Start() == s.core.seqNo + 1
    ensures Sound(Logged(s, u)) && Beyond(Logged(s, u)) && SeqFrame(s, Logged(s, u))
  {
    NetInvSame(s, Logged(s, u));
  }

  lemma EmplaceSound(s: State, u: Updates)
    requires Sound(s) && Beyond(s)
    requires u.Start() > s.core.seqNo + 1
    ensures var t := s.(gap := Gap(Emplace(s.gap.buffer, u), true));
            Sound(t) && Beyond(t) && SeqFrame(s, t)
  {
    NetInvSame(s, s.(gap := Gap(Emplace(s.gap.buffer, u), true)));
  }

  lemma {:induction false} ContainerSound(s: State, u: Updates, end: nat, date: int, list: seq<Update>, now: Time)
    requires Sound(s) && Beyond(s)
    ensures var t := ApplyContainer(s, u, end, date, list, now);
            Sound(t) && Beyond(t) && SeqFrame(s, t)
    decreases |s.gap.buffer|, 2
  {
    if u.Start() != 0 && u.Start() <= s.core.seqNo {
    } else if u.Start() != 0 && u.Start() > s.core.seqNo + 1 {
      EmplaceSound(s, u);
    } else {
      var s0 := Logged(s, u);
      LoggedSound(s, u);
      FeedSound(s0, VectorOrder(list, SkipNone), now);
      var s1 := FeedAll(s0, VectorOrder(list, SkipNone), now);
      SetStateSound(s1, 0, date, s1.core.qts, end, now);
    }
  }

  // ---- Every event, and every run ----

  /** A channel that counts as requesting although no request of its is out. */
  ghost predicate Stuck(n: Net, ch: Channel) { ch in n.chanRequesting && ch !in n.chanInFlight }

  ghost predicate StuckKept(n: Net, t: Net) { forall ch :: Stuck(n, ch) ==> Stuck(t, ch) }

  /** The marks after a reply to the first request or to a difference request. */
  lemma ReplySound(s: State, other: seq<Update>, pts: int, date: int, qts: int, end: nat, now: Time)
    requires Sound(s) && Beyond(s)
    ensures var t := SetState(FeedBoth(s, Difference(other), other, now), pts, date, qts, end, now);
            Sound(t) && Beyond(t) && SeqFrame(s, t)
  {
    BegunSound(s, Difference(other));
    FeedSound(Begun(s, Difference(other)), Pick(other, IDS) + VectorOrder(other, SkipMessageIds), now);
    SetStateSound(FeedBoth(s, Difference(other), other, now), pts, date, qts, end, now);
  }

  lemma ReleasedInv(s: State)
    requires Inv(s) && s.net.diffInFlight == 1 && s.net.requesting
    ensures Inv(Released(s))
  {
  }

  lemma SucceededInv(s: State)
    requires Inv(s)
    ensures Inv(Succeeded(s))
  {
    NetInvSame(s, Succeeded(s));
  }

  lemma StateReplyInv(s: State, pts: int, date: int, qts: int, end: nat, now: Time)
    requires Inv(s) && s.core.stateInFlight > 0
    ensures Inv(Next(s, StateReply(pts, date, qts, end), now))
    ensures Steady(s, Next(s, StateReply(pts, date, qts, end), now))
    ensures StuckKept(s.net, Next(s, StateReply(pts, date, qts, end), now).net)
  {
    SetStateSound(s, pts, date, qts, end, now);
  }

  /** Sequencing on a state that keeps the invariant. */
  lemma SequencedInv(s: State, t: State)
    requires Inv(s) && Sound(t) && Beyond(t) && SeqFrame(s, t)
    ensures Inv(t) && Steady(s, t) && StuckKept(s.net, t.net)
    ensures s.net.requesting ==> t.net.requesting && t.net.diffInFlight == s.net.diffInFlight
  {
    hide NetInv, Filed, Beyond, InSequence, Backoff;
  }

  lemma SoundOf(s: State)
    requires Inv(s)
    ensures Sound(s) && Beyond(s) && (s.net.diffInFlight > 0 ==> s.net.requesting && s.net.diffInFlight == 1)
  {
  }

  lemma OverInv(s: State)
    requires Inv(s) && s.net.diffInFlight == 1 && s.net.requesting
    ensures Inv(Released(s)) && Steady(s, Released(s)) && StuckKept(s.net, Released(s).net)
  {
    ReleasedInv(s);
    hide Inv;
  }

  lemma DiffEmptyInv(s: State, date: int, end: nat, now: Time)
    requires Inv(s) && s.net.diffInFlight > 0
    ensures var t := Next(s, DiffEmpty(date, end), now);
            Inv(t) && Steady(s, t) && StuckKept(s.net, t.net)
  {
    hide Inv, Sound, Beyond, SeqFrame, SetState, Released;
    var s1 := Succeeded(s);
    SucceededInv(s);
    SoundOf(s);
    SoundOf(s1);
    var s2 := SetState(s1, s1.core.pts, date, s1.core.qts, end, now);
    SetStateSound(s1, s1.core.pts, date, s1.core.qts, end, now);
    SequencedInv(s1, s2);
    OverInv(s2);
  }

  /** The part that the other two replies share. */
  lemma DiffFedInv(s: State, other: seq<Update>, pts: int, date: int, qts: int, end: nat, now: Time)
    requires Inv(s) && s.net.diffInFlight > 0
    ensures var fed := FeedBoth(Succeeded(s), Difference(other), other, now);
            var t := Released(SetState(fed, pts, date, qts, end, now));
            Inv(t) && Steady(s, t) && StuckKept(s.net, t.net)
  {
    hide Inv, Sound, Beyond, SeqFrame, SetState, Released, FeedBoth;
    var s1 := Succeeded(s);
    SucceededInv(s);
    SoundOf(s);
    SoundOf(s1);
    var s2 := SetState(FeedBoth(s1, Difference(other), other, now), pts, date, qts, end, now);
    ReplySound(s1, other, pts, date, qts, end, now);
    SequencedInv(s1, s2);
    OverInv(s2);
  }

  lemma DiffReplyInv(s: State, e: Event, now: Time)
    requires Inv(s) && s.net.diffInFlight > 0
    requires e.DiffEmpty? || e.DiffSlice? || e.DiffFull?
    ensures Inv(Next(s, e, now)) && Steady(s, Next(s, e, now)) && StuckKept(s.net, Next(s, e, now).net)
  {
    hide Inv, SetState, FeedBoth, Succeeded, Released, GetDifference, Forward, Ended;
    match e
    case DiffEmpty(date, end) => DiffEmptyInv(s, date, end, now);
    case DiffSlice(other, pts, date, qts, end) =>
      DiffFedInv(s, other, pts, date, qts, end, now);
      var t := Released(SetState(FeedBoth(Succeeded(s), Difference(other), other, now), pts, date, qts, end, now));
      AskGlobalInv(t);
      SteadyOn(s, t, GetDifference(t));
    case DiffFull(other, pts, date, qts, end) => DiffFedInv(s, other, pts, date, qts, end, now);
  }

  lemma SteadyOn(s: State, t: State, u: State)
    requires Steady(s, t) && Steady(t, u)
    ensures Steady(s, u)
  {
  }

  /** A retry pass changes the requests only. */
  lemma RetryInv(s: State, now: Time)
    requires Flights(s.core, s.net) && ChannelFlights(s.core, s.net) && Covered(s.net.byPts)
    requires Filed(s.gap.buffer) && Beyond(s)
    ensures var t := AfterFailPass(s, now);
            NetInv(t) && Filed(t.gap.buffer) && Beyond(t) && t.core == s.core && ChanFrame(s.net, t.net)
  {
    AfterFailPassSafe(s, now);
  }

  /** The state in which a failed global request starts waiting. */
  function GlobalWaits(s: State, now: Time): State {
    s.(net := s.net.(diffInFlight := Less(s.net.diffInFlight),
                     afterFail := s.net.afterFail.(global := now + s.core.failTimeout * 1000)),
       core := s.core.(fails := s.core.fails + 1))
  }

  lemma DiffFailIs(s: State, now: Time)
    requires Inv(s) && s.net.diffInFlight > 0
    ensures var t := AfterFailPass(GlobalWaits(s, now), now);
            Next(s, DiffFail, now) == t.(core := WithTimeout(t.core, None, Doubled(s.core.failTimeout)))
  {
    hide AfterFailPass;
    var (d, changed) := WhenChanged(s.net.afterFail, None, s.core.failTimeout * 1000, now);
    assert changed && d.global == now + s.core.failTimeout * 1000;
  }

  lemma GlobalWaitsSafe(s: State, now: Time)
    requires Inv(s) && s.net.diffInFlight > 0
    ensures var t := GlobalWaits(s, now);
            Flights(t.core, t.net) && ChannelFlights(t.core, t.net) && Covered(t.net.byPts)
  {
  }

  lemma DiffFailInv(s: State, now: Time)
    requires Inv(s) && s.net.diffInFlight > 0
    ensures Inv(Next(s, DiffFail, now)) && Steady(s, Next(s, DiffFail, now))
    ensures StuckKept(s.net, Next(s, DiffFail, now).net)
  {
    hide AfterFailPass, Next;
    BackoffDoubles(s.core.fails);
    GlobalWaitsSafe(s, now);
    RetryInv(GlobalWaits(s, now), now);
    DiffFailIs(s, now);
    NetInvSame(AfterFailPass(GlobalWaits(s, now), now), Next(s, DiffFail, now));
  }

  /** The state in which a failed channel starts waiting. */
  function ChannelWaits(s: State, ch: Channel, now: Time): State {
    s.(net := s.net.(chanInFlight := s.net.chanInFlight - multiset{ch},
                     afterFail := s.net.afterFail.(channels := s.net.afterFail.channels[ch := now + 1000])),
       core := WithTimeout(s.core, Some(ch), 2))
  }

  lemma ChannelFailIs(s: State, ch: Channel, now: Time)
    requires Inv(s) && ch in s.net.chanInFlight
    ensures var t := AfterFailPass(ChannelWaits(s, ch, now), now);
            Next(s, ChannelFail(ch), now) == t
  {
    hide AfterFailPass;
    var s1 := s.(net := s.net.(chanInFlight := s.net.chanInFlight - multiset{ch}));
    var (d, changed) := WhenChanged(s1.net.afterFail, Some(ch), 1000, now);
    assert changed && d == s1.net.afterFail.(channels := s1.net.afterFail.channels[ch := now + 1000]);
    PassLeavesCore(s1.(net := s1.net.(afterFail := d)), WithTimeout(s.core, Some(ch), 2), now);
  }

  /** A retry pass reads of the core only which channels are known, and changes nothing of it. */
  lemma PassLeavesCore(s: State, c: Core, now: Time)
    requires c.inited == s.core.inited
    ensures AfterFailPass(s.(core := c), now) == AfterFailPass(s, now).(core := c)
    ensures AfterFailPass(s, now).core == s.core
  {
    hide AfterFailChannels;
  }

  lemma ChannelWaitsSafe(s: State, ch: Channel, now: Time)
    requires Inv(s) && ch in s.net.chanInFlight
    ensures var t := ChannelWaits(s, ch, now);
            && Flights(t.core, t.net) && ChannelFlights(t.core, t.net) && Covered(t.net.byPts)
            && Stuck(t.net, ch) && StuckKept(s.net, t.net)
  {
  }

  lemma ChannelFailInv(s: State, ch: Channel, now: Time)
    requires Inv(s) && ch in s.net.chanInFlight
    ensures var t := Next(s, ChannelFail(ch), now);
            && Inv(t) && Forward(s, t) && Stuck(t.net, ch) && StuckKept(s.net, t.net)
            && (Ended(t.core) <==> Ended(s.core))
            && t.core.channelTimeout.Keys == s.core.channelTimeout.Keys + {ch}
  {
    hide AfterFailPass, Next;
    ChannelWaitsSafe(s, ch, now);
    RetryInv(ChannelWaits(s, ch, now), now);
    ChannelFailIs(s, ch, now);
  }

  /** Requests of every channel but one are not disturbed. */
  ghost predicate OthersKept(n: Net, t: Net, but: Channel) {
    forall ch :: ch in n.chanRequesting && ch != but ==>
      ch in t.chanRequesting && t.chanInFlight[ch] == n.chanInFlight[ch]
  }

  lemma ReleaseChannelInv(s: State, ch: Channel, newPts: Option<nat>)
    requires Inv(s) && ch in s.net.chanInFlight
    ensures var t := ReleaseChannel(s, ch, newPts);
            Inv(t) && Steady(s, t) && OthersKept(s.net, t.net, ch)
  {
    var t := ReleaseChannel(s, ch, newPts);
    assert ch !in s.core.channelTimeout;
    assert Flights(t.core, t.net) && ChannelFlights(t.core, t.net);
  }

  lemma FeedInv(s: State, list: seq<Update>, now: Time)
    requires Inv(s)
    ensures var t := FeedAll(s, list, now);
            Inv(t) && Steady(s, t) && NetFrame(s.net, t.net)
    ensures forall ch :: ch in s.net.chanInFlight ==> ch in FeedAll(s, list, now).net.chanInFlight
  {
    FeedSound(s, list, now);
  }

  lemma BegunInv(s: State, source: Source)
    requires Inv(s)
    ensures var t := Begun(s, source);
            Inv(t) && Steady(s, t) && t.net == s.net
  {
    NetInvSame(s, Begun(s, source));
  }

  lemma ForgetTimeoutInv(s: State, ch: Channel)
    requires Inv(s) && ch in s.net.chanInFlight
    ensures Inv(ForgetTimeout(s, ch)) && Steady(s, ForgetTimeout(s, ch))
  {
    assert ch !in s.core.channelTimeout;
    assert ForgetTimeout(s, ch).core == s.core;
  }

  lemma ChannelDoneInv(s: State, e: Event, now: Time)
    requires Inv(s) && e.ChannelDone? && e.ch in s.net.chanInFlight
    ensures var t := Next(s, e, now);
            Inv(t) && Steady(s, t) && OthersKept(s.net, t.net, e.ch) && StuckKept(s.net, t.net)
  {
    hide FeedAll, StartPts, GetChannelDifference, ReleaseChannel, Inv;
    var s0 := ForgetTimeout(s, e.ch);
    ForgetTimeoutInv(s, e.ch);
    var list := Pick(e.other, IDS) + VectorOrder(e.other, SkipMessageIds);
    var source := ChannelDifference(e.ch, e.other);
    BegunInv(s0, source);
    FeedInv(Begun(s0, source), list, now);
    var s1 := FeedAll(Begun(s0, source), list, now);
    ReleaseChannelInv(s1, e.ch, e.newPts);
    var s2 := ReleaseChannel(s1, e.ch, e.newPts);
    AskInv(s2, e.ch, Unknown);
    if e.poll.Some? {
      PtsTimerInv(s2, Some(e.ch), e.poll.value, now);
    }
  }

  lemma AskInv(s: State, ch: Channel, from: From)
    requires Inv(s)
    ensures var t := GetChannelDifference(s, ch, from);
            Inv(t) && Steady(s, t) && NetFrame(s.net, t.net)
  {
    AskSafe(s, ch, from);
  }

  lemma PtsTimerInv(s: State, channel: Option<Channel>, ms: int, now: Time)
    requires Inv(s)
    ensures var t := StartPts(s, channel, ms, now);
            Inv(t) && Steady(s, t) && NetFrame(s.net, t.net)
  {
    StartPtsSafe(s, channel, ms, now);
    RunEffectsFrame(s, [StartPtsTimer(channel, ms)], now);
  }

  lemma ApplyInv(s: State, u: Updates, now: Time)
    requires Inv(s)
    ensures var t := Apply(s, u, now);
            Inv(t) && Steady(s, t) && NetFrame(s.net, t.net)
  {
    ApplySound(s, u, now);
  }

  lemma GroupCallsInv(s: State, u: Updates, now: Time)
    requires Inv(s)
    ensures var t := ApplyGroupCalls(s, u, now);
            Inv(t) && Steady(s, t) && NetFrame(s.net, t.net)
  {
    var s1 := Begun(s, GroupCalls(u));
    BegunInv(s, GroupCalls(u));
    match u
    case Plain(_, _, list) => FeedInv(s1, VectorOrder(list, SkipExceptGroupCallParticipants), now);
    case Combined(_, _, _, list) => FeedInv(s1, VectorOrder(list, SkipExceptGroupCallParticipants), now);
    case Short(_, update) => UpdateSound(s1, update, now);
    case ShortMessage(_, _, _, _) =>
    case TooLong =>
  }

  lemma AskGlobalInv(s: State)
    requires Inv(s)
    ensures var t := GetDifference(s);
            Inv(t) && Steady(s, t) && NetFrame(s.net, t.net)
  {
    AskGlobalSound(s);
  }

  /** A request from outside, a new session, or the seq or min-channel timer. */
  lemma AskEventInv(s: State, e: Event, now: Time)
    requires Inv(s) && Enabled(s, e, now)
    requires e.NewSession? || e.Ask? || e.SeqFire? || e.MinFire?
    ensures var t := Next(s, e, now);
            Inv(t) && Steady(s, t) && NetFrame(s.net, t.net)
  {
    var s1 := match e
      case NewSession => NewSessionOf(s)
      case SeqFire => s.(gap := s.gap.(timer := false))
      case MinFire => s.(minTimer := false)
      case _ => s;
    NetInvSame(s, s1);
    AskGlobalInv(s1);
  }

  lemma ByPtsFireInv(s: State, now: Time)
    requires Inv(s)
    ensures var t := Next(s, ByPtsFire, now);
            Inv(t) && Steady(s, t) && ChanFrame(s.net, t.net)
  {
    hide ByPtsPass, NetInv, Flights, ChannelFlights, Covered, ChanFrame;
    var s1 := s.(net := s.net.(byPts := s.net.byPts.(timer := None)));
    assert NetInv(s);
    PtsTimerOff(s);
    ByPtsPassSafe(s1, now);
    PassFrame(s1, now);
  }

  lemma PtsTimerOff(s: State)
    requires NetInv(s)
    ensures var s1 := s.(net := s.net.(byPts := s.net.byPts.(timer := None)));
            && Flights(s1.core, s1.net) && ChannelFlights(s1.core, s1.net) && Covered(s1.net.afterFail)
            && forall n :: ChanFrame(s1.net, n) ==> ChanFrame(s.net, n)
  {
  }

  lemma FailFireInv(s: State, now: Time)
    requires Inv(s)
    ensures var t := Next(s, FailFire, now);
            Inv(t) && Steady(s, t) && ChanFrame(s.net, t.net)
  {
    hide AfterFailPass, NetInv, Flights, ChannelFlights, Covered, ChanFrame;
    assert NetInv(s);
    RetryTimerOff(s);
    RetryInv(s.(net := s.net.(afterFail := s.net.afterFail.(timer := None))), now);
  }

  lemma RetryTimerOff(s: State)
    requires NetInv(s)
    ensures var s1 := s.(net := s.net.(afterFail := s.net.afterFail.(timer := None)));
            && Flights(s1.core, s1.net) && ChannelFlights(s1.core, s1.net) && Covered(s1.net.byPts)
            && forall n :: ChanFrame(s1.net, n) ==> ChanFrame(s.net, n)
  {
  }

  lemma PassFrame(s: State, now: Time)
    ensures FeedFrame(s, ByPtsPass(s, now))
  {
  }

  lemma ChannelPtsInv(s: State, ch: Channel, inited: bool)
    requires Inv(s)
    ensures var t := WithInited(s, ch, inited);
            Inv(t) && Steady(s, t) && t.net == s.net
  {
  }

  lemma DiffTooLongInv(s: State, now: Time)
    requires Inv(s) && s.net.diffInFlight > 0
    ensures var t := Next(s, DiffTooLong, now);
            && Inv(t) && Forward(s, t) && StuckKept(s.net, t.net)
            && Ended(t.core) && t.core.channelTimeout == s.core.channelTimeout
  {
  }

  lemma StateFailInv(s: State, now: Time)
    requires Inv(s) && s.core.stateInFlight > 0
    ensures var t := Next(s, StateFail, now);
            && Inv(t) && Forward(s, t) && t.net == s.net
            && Ended(t.core) && t.core.channelTimeout == s.core.channelTimeout
  {
  }

  /** The two events after which nothing will ever drop the flag. */
  predicate Ending(e: Event) { e.DiffTooLong? || e.StateFail? }

  /** What an event does to the two lasting failures: it ends the protocol, or gets a channel stuck, or neither. */
  ghost predicate Marked(c: Core, e: Event, d: Core) {
    && (Ended(d) <==> Ended(c) || Ending(e))
    && d.channelTimeout.Keys == c.channelTimeout.Keys + (if e.ChannelFail? then {e.ch} else {})
  }

  /** What every event does: keeps the invariant, moves nothing back, frees no stuck channel. */
  ghost predicate Kept(s: State, e: Event, t: State) {
    Inv(t) && Forward(s, t) && StuckKept(s.net, t.net) && Marked(s.core, e, t.core)
  }

  predicate IsReply(e: Event) {
    e.StateReply? || e.StateFail? || e.DiffEmpty? || e.DiffSlice? || e.DiffFull? || e.DiffTooLong? || e.DiffFail?
  }

  lemma ReplyKept(s: State, e: Event, now: Time)
    requires Inv(s) && Enabled(s, e, now) && IsReply(e)
    ensures Kept(s, e, Next(s, e, now))
  {
    hide Inv, Forward, Ended, Next;
    match e
    case StateReply(pts, date, qts, end) => StateReplyInv(s, pts, date, qts, end, now);
    case StateFail => StateFailInv(s, now);
    case DiffEmpty(_, _) => DiffReplyInv(s, e, now);
    case DiffSlice(_, _, _, _, _) => DiffReplyInv(s, e, now);
    case DiffFull(_, _, _, _, _) => DiffReplyInv(s, e, now);
    case DiffTooLong => DiffTooLongInv(s, now);
    case DiffFail => DiffFailInv(s, now);
  }

  lemma OtherKept(s: State, e: Event, now: Time)
    requires Inv(s) && Enabled(s, e, now) && !IsReply(e)
    ensures Kept(s, e, Next(s, e, now))
  {
    hide Inv, Apply, ApplyGroupCalls, FeedBoth, ByPtsPass, AfterFailPass, StartPts, StartFailTimer,
         ChannelReply, GetDifference, WithInited, Forward, Ended;
    match e
    case Push(u, forceLogout) =>
      ApplyInv(s, u, now);
      GroupCallsInv(s, u, now);
    case ApiResult(u) => ApplyInv(s, u, now);
    case NewSession => AskEventInv(s, e, now);
    case Ask => AskEventInv(s, e, now);
    case SeqFire => AskEventInv(s, e, now);
    case MinFire => AskEventInv(s, e, now);
    case ByPtsFire => ByPtsFireInv(s, now);
    case FailFire => FailFireInv(s, now);
    case PtsTimer(channel, ms) => PtsTimerInv(s, channel, ms, now);
    case ChannelPts(ch, inited) => ChannelPtsInv(s, ch, inited);
    case ChannelDone(_, _, _, _, _) => ChannelDoneInv(s, e, now);
    case ChannelFail(ch) => ChannelFailInv(s, ch, now);
  }

  /** One event of any kind keeps the invariant, moves nothing back and frees no stuck channel. */
  lemma NextInv(s: State, e: Event, now: Time)
    requires Inv(s) && Enabled(s, e, now)
    ensures var t := Next(s, e, now);
            Inv(t) && Forward(s, t) && StuckKept(s.net, t.net) && Marked(s.core, e, t.core)
  {
    hide Inv, Next, Enabled;
    if IsReply(e) {
      ReplyKept(s, e, now);
    } else {
      OtherKept(s, e, now);
    }
  }

  // ---- Theorems over all runs ----

  lemma InitialInv()
    ensures Inv(INITIAL)
  {
    hide Flights, ChannelFlights, Covered, Backoff;
    InitialFlights();
    InitialCovered();
    assert Backoff(0) == 1 by { OneSecond(); }
  }

  lemma OneSecond()
    ensures Backoff(0) == 1
  {
  }

  lemma InitialFlights()
    ensures Flights(INITIAL.core, INITIAL.net) && ChannelFlights(INITIAL.core, INITIAL.net)
  {
  }

  lemma InitialCovered()
    ensures Covered(INITIAL.net.byPts) && Covered(INITIAL.net.afterFail)
  {
  }

  lemma {:induction false} RunInv(run: seq<Timed>)
    ensures Inv(Run(INITIAL, run))
  {
    if run == [] {
      InitialInv();
    } else {
      hide Inv, Next, Enabled;
      RunInv(run[..|run| - 1]);
      var s, t := Run(INITIAL, run[..|run| - 1]), run[|run| - 1];
      if Enabled(s, t.event, t.now) {
        NextInv(s, t.event, t.now);
      }
    }
  }

  lemma {:induction false} RunConcat(s: State, a: seq<Timed>, b: seq<Timed>)
    ensures Run(s, a + b) == Run(Run(s, a), b)
    decreases |b|
  {
    if b == [] {
      assert a + b == a;
    } else {
      var c := b[..|b| - 1];
      RunConcat(s, a, c);
      assert (a + b)[..|a + b| - 1] == a + c;
    }
  }

  /** At most one global difference request is out, and a pending retry means that none is. */
  lemma SingleFlight(run: seq<Timed>)
    ensures var s := Run(INITIAL, run);
            && s.net.diffInFlight + s.core.stateInFlight <= 1
            && (s.net.diffInFlight > 0 || s.core.stateInFlight > 0 ==> s.net.requesting)
            && (s.net.afterFail.global != 0 ==>
                  s.net.requesting && s.net.diffInFlight == 0 && s.core.stateInFlight == 0)
  {
    hide Run;
    RunInv(run);
  }

  /** Per channel: one request at most; a planned retry or a kept timeout means the channel is stuck. */
  lemma ChannelSingleFlight(run: seq<Timed>, ch: Channel)
    ensures var s := Run(INITIAL, run);
            && s.net.chanInFlight[ch] <= 1
            && (ch in s.net.chanInFlight ==> ch in s.net.chanRequesting)
            && (ch in s.net.afterFail.channels || ch in s.core.channelTimeout ==> Stuck(s.net, ch))
  {
    hide Run;
    RunInv(run);
  }

  /** The i-th event of a run was handled, and after it nothing will ever drop the flag. */
  ghost predicate EndsAt(run: seq<Timed>, i: int) {
    0 <= i < |run| && Ending(run[i].event) && Enabled(Run(INITIAL, run[..i]), run[i].event, run[i].now)
  }

  /**
   * The flag is set with nothing out and no retry planned exactly when the server has once answered
   * "difference too long" or the first state request has failed.
   */
  lemma {:induction false} DeadExactlyWhen(run: seq<Timed>)
    ensures var s := Run(INITIAL, run);
            && (Dead(s.core, s.net) <==> exists i :: EndsAt(run, i))
            && (Dead(s.core, s.net) <==> Ended(s.core))
  {
    RunInv(run);
    hide Inv, Next, Enabled, Dead;
    DeadIsEnded(Run(INITIAL, run));
    if run != [] {
      var before, u := run[..|run| - 1], run[|run| - 1];
      DeadExactlyWhen(before);
      RunInv(before);
      var s := Run(INITIAL, before);
      if Enabled(s, u.event, u.now) {
        NextInv(s, u.event, u.now);
      }
      if i :| EndsAt(before, i) {
        assert before[..i] == run[..i];
        assert EndsAt(run, i);
      }
      if i :| EndsAt(run, i) {
        if i < |before| {
          assert before[..i] == run[..i];
          assert EndsAt(before, i);
        }
      }
      assert Enabled(s, u.event, u.now) && Ending(u.event) ==> EndsAt(run, |run| - 1);
    }
  }

  lemma DeadIsEnded(s: State)
    requires Inv(s)
    ensures Dead(s.core, s.net) <==> Ended(s.core)
  {
  }

  /** A difference of the channel failed as the i-th event of a run. */
  ghost predicate FailsAt(run: seq<Timed>, i: int, ch: Channel) {
    0 <= i < |run| && run[i].event == ChannelFail(ch) && Enabled(Run(INITIAL, run[..i]), run[i].event, run[i].now)
  }

  /** A channel counts as requesting with no request out exactly when one of its requests has failed. */
  lemma {:induction false} StuckExactlyWhen(run: seq<Timed>, ch: Channel)
    ensures var s := Run(INITIAL, run);
            && (Stuck(s.net, ch) <==> exists i :: FailsAt(run, i, ch))
            && (Stuck(s.net, ch) <==> ch in s.core.channelTimeout)
            && (ch in s.core.channelTimeout ==> s.core.channelTimeout[ch] == 2)
  {
    RunInv(run);
    hide Inv, Next, Enabled, Stuck;
    StuckHasTimeout(Run(INITIAL, run), ch);
    if run != [] {
      var before, u := run[..|run| - 1], run[|run| - 1];
      StuckExactlyWhen(before, ch);
      RunInv(before);
      var s := Run(INITIAL, before);
      if Enabled(s, u.event, u.now) {
        NextInv(s, u.event, u.now);
      }
      if i :| FailsAt(before, i, ch) {
        assert before[..i] == run[..i];
        assert FailsAt(run, i, ch);
      }
      if i :| FailsAt(run, i, ch) {
        if i < |before| {
          assert before[..i] == run[..i];
          assert FailsAt(before, i, ch);
        }
      }
      assert Enabled(s, u.event, u.now) && u.event == ChannelFail(ch) ==> FailsAt(run, |run| - 1, ch);
    }
  }

  lemma StuckHasTimeout(s: State, ch: Channel)
    requires Inv(s)
    ensures Stuck(s.net, ch) <==> ch in s.core.channelTimeout
    ensures ch in s.core.channelTimeout ==> s.core.channelTimeout[ch] == 2
  {
  }

  /** From any reachable state on: what every continuation of the run keeps. */
  lemma {:induction false} RunForward(s: State, run: seq<Timed>)
    requires Inv(s)
    ensures var t := Run(s, run);
            Inv(t) && Forward(s, t) && StuckKept(s.net, t.net)
    decreases |run|
  {
    if run != [] {
      var t, u := Run(s, run[..|run| - 1]), run[|run| - 1];
      RunForward(s, run[..|run| - 1]);
      if Enabled(t, u.event, u.now) {
        NextInv(t, u.event, u.now);
      }
    }
  }

  /** Date, qts and the log of applied containers never go back between two moments of a run. */
  lemma NeverBack(run: seq<Timed>, more: seq<Timed>)
    ensures var s, t := Run(INITIAL, run), Run(INITIAL, run + more);
            s.core.date <= t.core.date && s.core.qts <= t.core.qts && s.core.log <= t.core.log
  {
    RunInv(run);
    RunForward(Run(INITIAL, run), more);
    RunConcat(INITIAL, run, more);
  }

  /** After either of the two events the flag is never dropped and no difference is ever asked for again. */
  lemma EndedIsForever(run: seq<Timed>, end: Timed, more: seq<Timed>)
    requires Ending(end.event) && Enabled(Run(INITIAL, run), end.event, end.now)
    ensures var s := Run(INITIAL, run + [end] + more);
            s.net.requesting && s.net.diffInFlight == 0 && s.core.stateInFlight == 0 && s.net.afterFail.global == 0
  {
    var to := run + [end];
    assert to[..|to| - 1] == run;
    RunInv(run);
    NextInv(Run(INITIAL, run), end.event, end.now);
    hide Next, Enabled;
    RunForward(Run(INITIAL, to), more);
    RunConcat(INITIAL, to, more);
    DeadIsEnded(Run(INITIAL, to + more));
  }

  /** Both can happen: a refused first request, and a difference asked for and answered "too long". */
  lemma EndsCanHappen(pts: int, date: int, qts: int, end: nat)
    ensures var failed := [Timed(StateFail, 0)];
            Dead(Run(INITIAL, failed).core, Run(INITIAL, failed).net)
    ensures var run := [Timed(StateReply(pts, date, qts, end), 0), Timed(Ask, 0), Timed(DiffTooLong, 0)];
            Dead(Run(INITIAL, run).core, Run(INITIAL, run).net)
  {
    hide Run, Dead, Next;
    var a, b := Timed(StateReply(pts, date, qts, end), 0), Timed(Ask, 0);
    NoSteps();
    EndsThere([], Timed(StateFail, 0));
    assert [] + [Timed(StateFail, 0)] == [Timed(StateFail, 0)];
    FreedThere(pts, date, qts, end);
    SendsThere([a]);
    assert [a] + [b] == [a, b];
    EndsThere([a, b], Timed(DiffTooLong, 0));
    assert [a, b] + [Timed(DiffTooLong, 0)] == [a, b, Timed(DiffTooLong, 0)];
  }

  lemma NoSteps()
    ensures Run(INITIAL, []) == INITIAL
  {
  }

  lemma EndsThere(run: seq<Timed>, u: Timed)
    requires Ending(u.event) && Enabled(Run(INITIAL, run), u.event, u.now)
    ensures Dead(Run(INITIAL, run + [u]).core, Run(INITIAL, run + [u]).net)
  {
    hide Run, Dead;
    assert (run + [u])[..|run|] == run;
    assert EndsAt(run + [u], |run|);
    DeadExactlyWhen(run + [u]);
  }

  lemma FreedThere(pts: int, date: int, qts: int, end: nat)
    ensures !Run(INITIAL, [Timed(StateReply(pts, date, qts, end), 0)]).net.requesting
  {
    hide SetState, Run;
    var a := Timed(StateReply(pts, date, qts, end), 0);
    LastStep([], a);
    NoSteps();
    assert [] + [a] == [a];
  }

  lemma SendsThere(run: seq<Timed>)
    requires !Run(INITIAL, run).net.requesting
    ensures Run(INITIAL, run + [Timed(Ask, 0)]).net.diffInFlight > 0
  {
    hide Run;
    LastStep(run, Timed(Ask, 0));
  }

  lemma LastStep(run: seq<Timed>, u: Timed)
    ensures Run(INITIAL, run + [u]) == Step(Run(INITIAL, run), u)
  {
    assert (run + [u])[..|run|] == run;
  }

  lemma AskedByUpdate(s: State, ch: Channel, date: int, id: nat)
    requires ch in s.core.inited && ch !in s.net.chanRequesting
    ensures ch in Apply(s, Short(date, Update(id, Other, [ChannelTooLong(ch)])), 0).net.chanInFlight
  {
    hide FeedOne, SetState;
    var u := Update(id, Other, [ChannelTooLong(ch)]);
    var s0 := Begun(s, Applying(Short(date, u)));
    TooLongFed(s0, ch, id);
    FeedOneFrame(s0, u, 0);
    var s1 := FeedOne(s0, u, 0);
    SameEnd(s1, 0, date, s1.core.qts);
  }

  /** Setting the number to what it is leaves the requests alone. */
  lemma SameEnd(s: State, pts: int, date: int, qts: int)
    ensures SetState(s, pts, date, qts, s.core.seqNo, 0).net == s.net
  {
  }

  lemma TooLongFed(s: State, ch: Channel, id: nat)
    requires ch in s.core.inited && ch !in s.net.chanRequesting
    ensures ch in FeedOne(s, Update(id, Other, [ChannelTooLong(ch)]), 0).net.chanInFlight
  {
    var es := [ChannelTooLong(ch)];
    var s1 := Handling(s, Update(id, Other, es));
    assert es[1..] == [];
    assert RunEffects(s1, es, 0) == RunEffects(RunEffect(Doing(s1, es[0]), es[0], 0), [], 0)
        == GetChannelDifference(Doing(s1, es[0]), ch, Unknown);
  }

  /** And so can a stuck channel: known, asked for because of an update, and refused. */
  lemma StuckCanHappen(ch: Channel, date: int, id: nat)
    ensures var u := Short(date, Update(id, Other, [ChannelTooLong(ch)]));
            var run := [Timed(ChannelPts(ch, true), 0), Timed(ApiResult(u), 0), Timed(ChannelFail(ch), 0)];
            Stuck(Run(INITIAL, run).net, ch)
  {
    hide Run, Apply, Stuck, Next;
    var u := Short(date, Update(id, Other, [ChannelTooLong(ch)]));
    var a, b, c := Timed(ChannelPts(ch, true), 0), Timed(ApiResult(u), 0), Timed(ChannelFail(ch), 0);
    KnownThere(ch);
    AskedThere([a], ch, date, id);
    assert [a] + [b] == [a, b] && [a, b, c][..2] == [a, b];
    assert FailsAt([a, b, c], 2, ch);
    StuckExactlyWhen([a, b, c], ch);
  }

  lemma KnownThere(ch: Channel)
    ensures var s := Run(INITIAL, [Timed(ChannelPts(ch, true), 0)]);
            ch in s.core.inited && ch !in s.net.chanRequesting
  {
    hide Run;
    var a := Timed(ChannelPts(ch, true), 0);
    LastStep([], a);
    NoSteps();
    assert [] + [a] == [a];
  }

  lemma AskedThere(run: seq<Timed>, ch: Channel, date: int, id: nat)
    requires var s := Run(INITIAL, run); ch in s.core.inited && ch !in s.net.chanRequesting
    ensures var u := Short(date, Update(id, Other, [ChannelTooLong(ch)]));
            ch in Run(INITIAL, run + [Timed(ApiResult(u), 0)]).net.chanInFlight
  {
    hide Run, Apply;
    LastStep(run, Timed(ApiResult(Short(date, Update(id, Other, [ChannelTooLong(ch)]))), 0));
    AskedByUpdate(Run(INITIAL, run), ch, date, id);
  }

  /** After a failed channel difference the channel stays stuck: no request of its is ever out again. */
  lemma FailedChannelIsStuck(run: seq<Timed>, ch: Channel, now: Time, more: seq<Timed>)
    requires ch in Run(INITIAL, run).net.chanInFlight
    ensures Stuck(Run(INITIAL, run + [Timed(ChannelFail(ch), now)] + more).net, ch)
  {
    hide Run, Stuck;
    var all := run + [Timed(ChannelFail(ch), now)] + more;
    assert all[..|run|] == run && all[|run|] == Timed(ChannelFail(ch), now);
    assert FailsAt(all, |run|, ch);
    StuckExactlyWhen(all, ch);
  }

  /** No lost wakeup: every pending deadline of either kind has its timer armed in time. */
  lemma NoLostWakeup(run: seq<Timed>)
    ensures var n := Run(INITIAL, run).net;
            && (forall ch :: ch in n.byPts.channels ==>
                  n.byPts.timer.Some? && n.byPts.timer.value <= n.byPts.channels[ch])
            && (n.byPts.global != 0 ==> n.byPts.timer.Some? && n.byPts.timer.value <= n.byPts.global)
            && (forall ch :: ch in n.afterFail.channels ==>
                  n.afterFail.timer.Some? && n.afterFail.timer.value <= n.afterFail.channels[ch])
            && (n.afterFail.global != 0 ==> n.afterFail.timer.Some? && n.afterFail.timer.value <= n.afterFail.global)
  {
    hide Run;
    RunInv(run);
    var n := Run(INITIAL, run).net;
    assert n.byPts.global != 0 ==> n.byPts.global in Pending(n.byPts);
    assert n.afterFail.global != 0 ==> n.afterFail.global in Pending(n.afterFail);
    assert forall ch :: ch in n.byPts.channels ==> n.byPts.channels[ch] in Pending(n.byPts);
    assert forall ch :: ch in n.afterFail.channels ==> n.afterFail.channels[ch] in Pending(n.afterFail);
  }

  /** When a scheduler timer fires, its pass leaves only future deadlines and the exact timer. */
  lemma TimerPassSettles(run: seq<Timed>, now: Time)
    ensures var s := Run(INITIAL, run);
            && (Enabled(s, ByPtsFire, now) ==> Settled(Next(s, ByPtsFire, now).net.byPts, now))
            && (Enabled(s, FailFire, now) ==> Settled(Next(s, FailFire, now).net.afterFail, now))
  {
    hide Run, ByPtsPass, AfterFailPass, Settled;
    RunInv(run);
    var s := Run(INITIAL, run);
    hide Inv;
    if Enabled(s, ByPtsFire, now) {
      PtsPassSettles(s, now);
    }
    if Enabled(s, FailFire, now) {
      RetryPassSettles(s, now);
    }
  }

  lemma PtsPassSettles(s: State, now: Time)
    requires Inv(s) && Enabled(s, ByPtsFire, now)
    ensures Settled(Next(s, ByPtsFire, now).net.byPts, now)
  {
    hide ByPtsPass, Settled;
    ByPtsPassSafe(s.(net := s.net.(byPts := s.net.byPts.(timer := None))), now);
  }

  lemma RetryPassSettles(s: State, now: Time)
    requires Inv(s) && Enabled(s, FailFire, now)
    ensures Settled(Next(s, FailFire, now).net.afterFail, now)
  {
    hide AfterFailPass, Settled;
    AfterFailPassSafe(s.(net := s.net.(afterFail := s.net.afterFail.(timer := None))), now);
  }

  /** The wait doubles with each failure in a row, from one second up to 64. */
  lemma BackoffOfRun(run: seq<Timed>)
    ensures var c := Run(INITIAL, run).core;
            c.failTimeout == if Power(c.fails) < 64 then Power(c.fails) else 64
  {
    hide Run;
    RunInv(run);
  }

  /** Buffered containers lie beyond the next number; what was applied had exactly the next number. */
  lemma SequenceSafety(run: seq<Timed>)
    ensures var s := Run(INITIAL, run);
            && (forall k :: k in s.gap.buffer ==> s.gap.buffer[k].Start() == k > s.core.seqNo + 1)
            && (forall i :: 0 <= i < |s.core.log| && s.core.log[i].updates.Start() != 0 ==>
                  s.core.log[i].updates.Start() == s.core.log[i].atSeq + 1)
  {
    hide Run;
    RunInv(run);
  }

  /** A failure plans the retry exactly min(2^k, 64) seconds later, k failures having come before it. */
  lemma RetryDelay(run: seq<Timed>, now: Time)
    requires Run(INITIAL, run).net.diffInFlight > 0
    ensures var s := Run(INITIAL, run);
            Next(s, DiffFail, now).net.afterFail.global
              == now + 1000 * (if Power(s.core.fails) < 64 then Power(s.core.fails) else 64)
  {
    hide Run;
    RunInv(run);
    DiffFailIs(Run(INITIAL, run), now);
  }

  /** When that retry comes due it sends one request, the only one in flight. */
  lemma RetryIsSent(run: seq<Timed>, now: Time)
    requires var s := Run(INITIAL, run);
             Enabled(s, FailFire, now) && 0 < s.net.afterFail.global <= now
    ensures var s := Run(INITIAL, run);
            && s.net.diffInFlight == 0 && s.core.stateInFlight == 0
            && Next(s, FailFire, now).net.diffInFlight == 1
            && Next(s, FailFire, now).net.afterFail.global == 0
  {
    hide Run;
    RunInv(run);
  }
}
