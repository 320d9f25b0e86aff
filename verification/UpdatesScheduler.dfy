/** What the deadline scheduler does at each step: who waits, who is asked for, and what stays as it was. */
module UpdatesScheduler {
  import opened Common
  import opened FeedOrder
  import opened UpdatesModel
  import opened UpdatesRuns
  import opened UpdatesSafety

  // ---- One deadline changes ----

  /** The deadline of a channel, or the global one. */
  function DeadlineOf(d: Deadlines, channel: Option<Channel>): Option<Time> {
    match channel
    case None => if d.global == 0 then None else Some(d.global)
    case Some(ch) => if ch in d.channels then Some(d.channels[ch]) else None
  }

  /**
   * A wait that is not positive forgets the deadline; of two waits the shorter one wins, whichever came
   * first; nothing else is touched; and "changed" is reported exactly when the deadline is another one.
   */
  lemma DeadlineMoves(d: Deadlines, channel: Option<Channel>, ms: int, now: Time)
    ensures var (r, changed) := WhenChanged(d, channel, ms, now);
            && (ms <= 0 ==> DeadlineOf(r, channel).None?)
            && (ms > 0 ==> DeadlineOf(r, channel).Some? && DeadlineOf(r, channel).value <= now + ms)
            && (ms > 0 && DeadlineOf(d, channel).Some? ==> DeadlineOf(r, channel).value <= DeadlineOf(d, channel).value)
            && (ms > 0 ==> DeadlineOf(r, channel) in {Some(now + ms), DeadlineOf(d, channel)})
            && (forall c :: c != channel ==> DeadlineOf(r, c) == DeadlineOf(d, c))
            && r.timer == d.timer
            && (changed <==> DeadlineOf(r, channel) != DeadlineOf(d, channel))
  {
  }

  // ---- The two passes, channel by channel ----

  /** A channel that a pass at this moment asks for. */
  predicate AskedBy(d: Deadlines, n: Net, inited: set<Channel>, now: Time, ch: Channel) {
    ch in d.channels && d.channels[ch] <= now && ch in inited && ch !in n.chanRequesting
  }

  predicate GlobalDue(d: Deadlines, now: Time) { 0 < d.global <= now }

  /** Deadlines that are due are gone, and the others stay as they are. */
  ghost predicate OnlyDueGone(d: Deadlines, r: Deadlines, now: Time) {
    && (forall ch :: ch in r.channels <==> ch in d.channels && d.channels[ch] > now)
    && (forall ch :: ch in r.channels ==> r.channels[ch] == d.channels[ch])
    && r.global == if GlobalDue(d, now) then 0 else d.global
  }

  /** Exactly the channels that are to be asked for have one more request out. */
  ghost predicate AskedExactly(d: Deadlines, n: Net, inited: set<Channel>, now: Time, m: Net) {
    && (forall ch :: m.chanInFlight[ch] == n.chanInFlight[ch] + if AskedBy(d, n, inited, now, ch) then 1 else 0)
    && (forall ch :: ch in m.chanRequesting <==> ch in n.chanRequesting || AskedBy(d, n, inited, now, ch))
  }

  lemma ByPtsChannelsAsk(n: Net, inited: set<Channel>, now: Time)
    ensures var m := ByPtsChannels(n, inited, now);
            && AskedExactly(n.byPts, n, inited, now, m)
            && (forall ch :: ch in m.afterFail.channels <==>
                  ch in n.afterFail.channels && !AskedBy(n.byPts, n, inited, now, ch))
            && (forall ch :: ch in m.afterFail.channels ==> m.afterFail.channels[ch] == n.afterFail.channels[ch])
            && m.afterFail.global == n.afterFail.global && m.afterFail.timer == n.afterFail.timer
            && m.requesting == n.requesting && m.diffInFlight == n.diffInFlight
  {
  }

  lemma ByPtsChannelsKeep(n: Net, inited: set<Channel>, now: Time)
    ensures var m := ByPtsChannels(n, inited, now);
            && (forall ch :: ch in m.byPts.channels <==> ch in n.byPts.channels && n.byPts.channels[ch] > now)
            && (forall ch :: ch in m.byPts.channels ==> m.byPts.channels[ch] == n.byPts.channels[ch])
            && m.byPts.global == n.byPts.global
  {
  }

  /**
   * getDifferenceByPts, deadline by deadline: what is due is gone and the rest stays, each due channel that
   * is known and not requesting is asked for once, and a due global deadline asks unless a request is out.
   */
  lemma ByPtsPassAsks(s: State, now: Time)
    ensures var t := ByPtsPass(s, now);
            var sends := GlobalDue(s.net.byPts, now) && !s.net.requesting;
            && OnlyDueGone(s.net.byPts, t.net.byPts, now)
            && AskedExactly(s.net.byPts, s.net, s.core.inited, now, t.net)
            && (t.net.requesting <==> s.net.requesting || sends)
            && t.net.diffInFlight == s.net.diffInFlight + (if sends then 1 else 0)
            && t.gap == (if sends then EMPTY_GAP else s.gap)
            && t.net.afterFail.global == (if sends then 0 else s.net.afterFail.global)
            && (forall ch :: ch in t.net.afterFail.channels ==>
                  ch in s.net.afterFail.channels && t.net.afterFail.channels[ch] == s.net.afterFail.channels[ch])
            && (forall ch :: ch in s.net.afterFail.channels && ch !in t.net.afterFail.channels ==>
                  AskedBy(s.net.byPts, s.net, s.core.inited, now, ch))
            && t.core == s.core && t.minTimer == s.minTimer
  {
    hide ByPtsChannels;
    var s1 := if GlobalDue(s.net.byPts, now) then GetDifference(s) else s;
    ByPtsChannelsAsk(s1.net, s.core.inited, now);
    ByPtsChannelsKeep(s1.net, s.core.inited, now);
  }

  lemma AfterFailChannelsAsk(n: Net, inited: set<Channel>, now: Time)
    ensures var m := AfterFailChannels(n, inited, now);
            && AskedExactly(n.afterFail, n, inited, now, m)
            && (forall ch :: ch in m.byPts.channels <==>
                  ch in n.byPts.channels && !(ch in n.afterFail.channels && n.afterFail.channels[ch] <= now))
            && (forall ch :: ch in m.byPts.channels ==> m.byPts.channels[ch] == n.byPts.channels[ch])
            && m.byPts.global == n.byPts.global && m.byPts.timer == n.byPts.timer
            && m.requesting == n.requesting && m.diffInFlight == n.diffInFlight
  {
  }

  lemma AfterFailChannelsKeep(n: Net, inited: set<Channel>, now: Time)
    ensures var m := AfterFailChannels(n, inited, now);
            && (forall ch :: ch in m.afterFail.channels <==>
                  ch in n.afterFail.channels && n.afterFail.channels[ch] > now)
            && (forall ch :: ch in m.afterFail.channels ==> m.afterFail.channels[ch] == n.afterFail.channels[ch])
            && m.afterFail.global == n.afterFail.global
  {
  }

  /**
   * getDifferenceAfterFail, deadline by deadline: a due global retry always asks, whatever the flag says,
   * and a due channel also loses its pts deadline, whether or not it is asked for.
   */
  lemma AfterFailPassAsks(s: State, now: Time)
    ensures var t := AfterFailPass(s, now);
            var sends := GlobalDue(s.net.afterFail, now);
            && OnlyDueGone(s.net.afterFail, t.net.afterFail, now)
            && AskedExactly(s.net.afterFail, s.net, s.core.inited, now, t.net)
            && (t.net.requesting <==> s.net.requesting || sends)
            && t.net.diffInFlight == s.net.diffInFlight + (if sends then 1 else 0)
            && t.gap == (if sends then EMPTY_GAP else s.gap)
            && t.net.byPts.global == (if sends then 0 else s.net.byPts.global)
            && (forall ch :: ch in t.net.byPts.channels <==>
                  ch in s.net.byPts.channels
                  && !(ch in s.net.afterFail.channels && s.net.afterFail.channels[ch] <= now))
            && (forall ch :: ch in t.net.byPts.channels ==> t.net.byPts.channels[ch] == s.net.byPts.channels[ch])
            && t.core == s.core && t.minTimer == s.minTimer
  {
    hide AfterFailChannels;
    var s1 := if GlobalDue(s.net.afterFail, now) then GetDifference(s.(net := s.net.(requesting := false))) else s;
    AfterFailChannelsAsk(s1.net, s.core.inited, now);
    AfterFailChannelsKeep(s1.net, s.core.inited, now);
  }

  /** When a timer fires, its pass asks for exactly what is due then, and forgets exactly that. */
  lemma FiredAsks(s: State, now: Time)
    ensures var t := Next(s, ByPtsFire, now);
            && OnlyDueGone(s.net.byPts, t.net.byPts, now)
            && AskedExactly(s.net.byPts, s.net, s.core.inited, now, t.net)
            && t.net.diffInFlight
               == s.net.diffInFlight + if GlobalDue(s.net.byPts, now) && !s.net.requesting then 1 else 0
    ensures var t := Next(s, FailFire, now);
            && OnlyDueGone(s.net.afterFail, t.net.afterFail, now)
            && AskedExactly(s.net.afterFail, s.net, s.core.inited, now, t.net)
            && t.net.diffInFlight == s.net.diffInFlight + if GlobalDue(s.net.afterFail, now) then 1 else 0
  {
    PtsFiredAsks(s, now);
    RetryFiredAsks(s, now);
    hide Next, OnlyDueGone, AskedExactly;
  }

  lemma PtsFiredAsks(s: State, now: Time)
    ensures var t := Next(s, ByPtsFire, now);
            && OnlyDueGone(s.net.byPts, t.net.byPts, now)
            && AskedExactly(s.net.byPts, s.net, s.core.inited, now, t.net)
            && t.net.diffInFlight
               == s.net.diffInFlight + if GlobalDue(s.net.byPts, now) && !s.net.requesting then 1 else 0
  {
    hide ByPtsPass;
    var s1 := s.(net := s.net.(byPts := s.net.byPts.(timer := None)));
    ByPtsPassAsks(s1, now);
    assert forall ch :: AskedBy(s1.net.byPts, s1.net, s.core.inited, now, ch)
                        == AskedBy(s.net.byPts, s.net, s.core.inited, now, ch);
  }

  lemma RetryFiredAsks(s: State, now: Time)
    ensures var t := Next(s, FailFire, now);
            && OnlyDueGone(s.net.afterFail, t.net.afterFail, now)
            && AskedExactly(s.net.afterFail, s.net, s.core.inited, now, t.net)
            && t.net.diffInFlight == s.net.diffInFlight + if GlobalDue(s.net.afterFail, now) then 1 else 0
  {
    hide AfterFailPass;
    var s1 := s.(net := s.net.(afterFail := s.net.afterFail.(timer := None)));
    AfterFailPassAsks(s1, now);
    assert forall ch :: AskedBy(s1.net.afterFail, s1.net, s.core.inited, now, ch)
                        == AskedBy(s.net.afterFail, s.net, s.core.inited, now, ch);
  }

  predicate NotDue(d: Deadlines, channel: Option<Channel>, now: Time) {
    DeadlineOf(d, channel).Some? ==> DeadlineOf(d, channel).value > now
  }

  /** A waiter sets its deadline, or takes it back; other deadlines that are not due stay as they are. */
  lemma PtsTimerSets(s: State, channel: Option<Channel>, ms: int, now: Time)
    ensures var t := Next(s, PtsTimer(channel, ms), now);
            && (ms <= 0 ==> DeadlineOf(t.net.byPts, channel).None?)
            && (ms > 0 && NotDue(s.net.byPts, channel, now) ==> Stands(t.net.byPts, channel, now + ms))
            && (forall c :: c != channel && NotDue(s.net.byPts, c, now) ==>
                  DeadlineOf(t.net.byPts, c) == DeadlineOf(s.net.byPts, c))
  {
    hide ByPtsPass, WhenChanged;
    DeadlineMoves(s.net.byPts, channel, ms, now);
    var (d, changed) := WhenChanged(s.net.byPts, channel, ms, now);
    if changed {
      var t := ByPtsPass(s.(net := s.net.(byPts := d)), now);
      ByPtsPassAsks(s.(net := s.net.(byPts := d)), now);
      forall c ensures NotDue(d, c, now) ==> DeadlineOf(t.net.byPts, c) == DeadlineOf(d, c) {
        if c.Some? && c.value in d.channels {
          assert DeadlineOf(d, c) == Some(d.channels[c.value]);
        }
      }
    }
  }

  // ---- A deadline that a waiter starts stands until something forgets it ----

  ghost predicate Fresh(d: Deadlines, now: Time) { forall t :: t in Pending(d) ==> t > now }

  /** What takes the deadline of a channel, or the global one, away before its time. */
  predicate Forgets(e: Effect, channel: Option<Channel>) {
    match e
    case NeedDifference => channel.None?
    case StartPtsTimer(c, ms) => c == channel && ms <= 0
    case ChannelTooLong(ch) => channel == Some(ch)
    case _ => false
  }

  predicate Stands(d: Deadlines, channel: Option<Channel>, until: Time) {
    DeadlineOf(d, channel).Some? && DeadlineOf(d, channel).value <= until
  }

  lemma FreshAt(d: Deadlines, now: Time)
    ensures Fresh(d, now) <==> forall c :: DeadlineOf(d, c).Some? ==> DeadlineOf(d, c).value > now
  {
    if forall c :: DeadlineOf(d, c).Some? ==> DeadlineOf(d, c).value > now {
      assert DeadlineOf(d, None).Some? ==> d.global > now;
      forall t | t in Pending(d) ensures t > now {
        if t in d.channels.Values {
          var ch :| ch in d.channels && d.channels[ch] == t;
          assert DeadlineOf(d, Some(ch)) == Some(t);
        }
      }
    }
    if Fresh(d, now) {
      forall c | DeadlineOf(d, c).Some? ensures DeadlineOf(d, c).value > now {
        assert DeadlineOf(d, c).value in Pending(d);
      }
    }
  }

  /** Starting a deadline when none is due: the pass that follows takes nothing away. */
  lemma StartPtsIs(s: State, channel: Option<Channel>, ms: int, now: Time)
    requires Fresh(s.net.byPts, now)
    ensures var t := StartPts(s, channel, ms, now);
            var (d, _) := WhenChanged(s.net.byPts, channel, ms, now);
            && Fresh(t.net.byPts, now)
            && forall c :: DeadlineOf(t.net.byPts, c) == DeadlineOf(d, c)
  {
    hide ByPtsPass, WhenChanged;
    var (d, changed) := WhenChanged(s.net.byPts, channel, ms, now);
    DeadlineMoves(s.net.byPts, channel, ms, now);
    FreshAt(s.net.byPts, now);
    FreshAt(d, now);
    var s1 := s.(net := s.net.(byPts := d));
    if changed {
      ByPtsPassAsks(s1, now);
      NothingDue(d, ByPtsPass(s1, now).net.byPts, now);
      FreshAt(ByPtsPass(s1, now).net.byPts, now);
    } else {
      forall c ensures DeadlineOf(s.net.byPts, c) == DeadlineOf(d, c) {
        if c != channel {
        }
      }
    }
  }

  lemma NothingDue(d: Deadlines, r: Deadlines, now: Time)
    requires Fresh(d, now) && OnlyDueGone(d, r, now)
    ensures forall c :: DeadlineOf(r, c) == DeadlineOf(d, c)
  {
    FreshAt(d, now);
    assert DeadlineOf(d, None).Some? ==> d.global > now;
    forall c ensures DeadlineOf(r, c) == DeadlineOf(d, c) {
      if c.Some? && c.value in d.channels {
        assert DeadlineOf(d, c).value > now;
      }
    }
  }

  lemma NoGlobalFresh(d: Deadlines, now: Time)
    requires Fresh(d, now)
    ensures Fresh(d.(global := 0), now)
  {
    assert Pending(d.(global := 0)) <= Pending(d);
  }

  lemma EffectStands(s: State, e: Effect, now: Time)
    requires Fresh(s.net.byPts, now)
    ensures Fresh(RunEffect(s, e, now).net.byPts, now)
    ensures forall c, until :: Stands(s.net.byPts, c, until) && !Forgets(e, c) ==>
              Stands(RunEffect(s, e, now).net.byPts, c, until)
    ensures e.StartPtsTimer? && e.ms > 0 ==> Stands(RunEffect(s, e, now).net.byPts, e.channel, now + e.ms)
  {
    hide StartPts, WhenChanged, AskChannel;
    match e
    case StartPtsTimer(channel, ms) =>
      DeadlineMoves(s.net.byPts, channel, ms, now);
      StartPtsIs(s, channel, ms, now);
      forall c, until | Stands(s.net.byPts, c, until) && !Forgets(e, c)
        ensures Stands(RunEffect(s, e, now).net.byPts, c, until)
      {
        if c != channel {
        }
      }
    case ChannelTooLong(ch) =>
      ChannelAsked(s, ch, Unknown);
      FreshAt(s.net.byPts, now);
      FreshAt(RunEffect(s, e, now).net.byPts, now);
    case NeedDifference =>
      NoGlobalFresh(s.net.byPts, now);
      assert RunEffect(s, e, now).net.byPts in {s.net.byPts, s.net.byPts.(global := 0)};
    case _ =>
  }

  lemma {:induction false} EffectsStand(s: State, es: seq<Effect>, now: Time, channel: Option<Channel>, until: Time)
    requires Fresh(s.net.byPts, now) && Stands(s.net.byPts, channel, until)
    requires forall e :: e in es ==> !Forgets(e, channel)
    ensures Stands(RunEffects(s, es, now).net.byPts, channel, until)
    decreases |es|
  {
    if es != [] {
      hide Fresh, Stands, RunEffect;
      EffectStands(Doing(s, es[0]), es[0], now);
      EffectsStand(RunEffect(Doing(s, es[0]), es[0], now), es[1..], now, channel, until);
    }
  }

  /** A deadline started by an update stands at the end of it, no later than asked, unless forgotten since. */
  lemma {:induction false} StartedStands(s: State, es: seq<Effect>, now: Time, i: nat)
    requires Fresh(s.net.byPts, now) && i < |es| && es[i].StartPtsTimer? && es[i].ms > 0
    requires forall j :: i < j < |es| ==> !Forgets(es[j], es[i].channel)
    ensures Stands(RunEffects(s, es, now).net.byPts, es[i].channel, now + es[i].ms)
    decreases |es|
  {
    hide Fresh, Stands, RunEffect, Forgets;
    var s1 := RunEffect(Doing(s, es[0]), es[0], now);
    EffectStands(Doing(s, es[0]), es[0], now);
    if i == 0 {
      EffectsStand(s1, es[1..], now, es[0].channel, now + es[0].ms);
    } else {
      StartedStands(s1, es[1..], now, i - 1);
    }
  }

  // ---- What is asked for comes ----

  /** Events that want a difference now. */
  predicate Wants(e: Event) {
    || e.NewSession? || e.Ask? || e.SeqFire? || e.MinFire?
    || (e.ApiResult? && (e.u.TooLong? || (e.u.ShortMessage? && !e.u.loaded)))
  }

  /**
   * A difference wanted is asked for: if none was being requested one request is out, the buffer is empty and
   * its timer off; otherwise one is out already, or a retry is planned, or the protocol has come to its end.
   */
  lemma WantedIsComing(run: seq<Timed>, e: Event, now: Time)
    requires var s := Run(INITIAL, run); Wants(e) && Enabled(s, e, now)
    ensures var s := Run(INITIAL, run);
            var t := Next(s, e, now);
            && t.net.requesting && t.net.byPts.global == 0
            && (t.net.diffInFlight + t.core.stateInFlight == 1 || t.net.afterFail.global != 0 || Ended(t.core))
            && (!s.net.requesting ==>
                  t.net.diffInFlight == 1 && t.gap == Gap(map[], false) && t.net.afterFail.global == 0)
            && (e.NewSession? ==> t.core.seqNo == 0)
            && (e.MinFire? ==> !t.minTimer)
            && (e.SeqFire? ==> !t.gap.timer)
  {
    hide Run, Next, Enabled, Inv;
    var s := Run(INITIAL, run);
    RunInv(run);
    NextInv(s, e, now);
    WantedIs(s, e, now);
    NothingWaits(s);
    SoundFlights(Next(s, e, now));
  }

  lemma WantedIs(s: State, e: Event, now: Time)
    requires Wants(e)
    ensures var t := Next(s, e, now);
            && t.net.requesting && t.net.byPts.global == 0
            && (!s.net.requesting ==> t.net.diffInFlight == s.net.diffInFlight + 1 && t.gap == Gap(map[], false)
                                      && t.net.afterFail.global == 0)
            && (e.NewSession? ==> t.core.seqNo == 0)
            && (e.MinFire? ==> !t.minTimer)
            && (e.SeqFire? ==> !t.gap.timer)
  {
  }

  lemma NothingWaits(s: State)
    requires Inv(s)
    ensures !s.net.requesting ==> s.net.diffInFlight == 0
  {
  }

  lemma SoundFlights(s: State)
    requires Inv(s)
    ensures s.net.requesting ==>
              s.net.diffInFlight + s.core.stateInFlight == 1 || s.net.afterFail.global != 0 || Ended(s.core)
  {
  }

  /** A reply ends its request: a slice asks for the next part at once, the others leave none out. */
  lemma RepliesRelease(run: seq<Timed>, e: Event, now: Time)
    requires var s := Run(INITIAL, run); Enabled(s, e, now)
    requires e.StateReply? || e.DiffEmpty? || e.DiffSlice? || e.DiffFull?
    ensures var t := Next(Run(INITIAL, run), e, now);
            && t.net.diffInFlight == (if e.DiffSlice? then 1 else 0) && t.core.stateInFlight == 0
            && (t.net.requesting <==> e.DiffSlice?)
            && (!e.StateReply? ==> t.core.failTimeout == 1)
  {
    hide Run, Inv;
    var s := Run(INITIAL, run);
    RunInv(run);
    ReplyReleases(s, e, now);
  }

  lemma ReplyReleases(s: State, e: Event, now: Time)
    requires Inv(s) && Enabled(s, e, now) && (e.StateReply? || e.DiffEmpty? || e.DiffSlice? || e.DiffFull?)
    ensures var t := Next(s, e, now);
            && t.net.diffInFlight == (if e.DiffSlice? then 1 else 0) && t.core.stateInFlight == 0
            && (t.net.requesting <==> e.DiffSlice?)
            && (!e.StateReply? ==> t.core.failTimeout == 1)
  {
    hide SetState, FeedBoth, Inv, Sound, Beyond;
    SoundOf(s);
    OneOut(s);
    SucceededInv(s);
    SoundOf(Succeeded(s));
    match e
    case StateReply(pts, date, qts, end) => SetStateSound(s, pts, date, qts, end, now);
    case DiffEmpty(date, end) => SetStateSound(Succeeded(s), s.core.pts, date, s.core.qts, end, now);
    case DiffSlice(other, pts, date, qts, end) => ReplySound(Succeeded(s), other, pts, date, qts, end, now);
    case DiffFull(other, pts, date, qts, end) => ReplySound(Succeeded(s), other, pts, date, qts, end, now);
  }

  lemma OneOut(s: State)
    requires Inv(s)
    ensures s.net.diffInFlight + s.core.stateInFlight <= 1
    ensures s.net.diffInFlight + s.core.stateInFlight == 1 ==> s.net.requesting
  {
  }

  // ---- The failures in a row ----

  predicate Succeeds(e: Event) { e.DiffEmpty? || e.DiffSlice? || e.DiffFull? || e.DiffTooLong? }

  /** Failures of the global difference since the last answer to one. */
  ghost function InARow(run: seq<Timed>): nat {
    if run == [] then 0
    else
      var before, u := run[..|run| - 1], run[|run| - 1];
      if !Enabled(Run(INITIAL, before), u.event, u.now) then InARow(before)
      else if u.event.DiffFail? then InARow(before) + 1
      else if Succeeds(u.event) then 0
      else InARow(before)
  }

  /** The wait kept is that of the failures in a row: one second, doubled by each up to 64. */
  lemma {:induction false} WaitOfRun(run: seq<Timed>)
    ensures var c := Run(INITIAL, run).core;
            && c.fails == InARow(run)
            && c.failTimeout == if Power(InARow(run)) < 64 then Power(InARow(run)) else 64
  {
    BackoffOfRun(run);
    if run != [] {
      hide Inv, Next, Enabled, Power;
      var before, u := run[..|run| - 1], run[|run| - 1];
      WaitOfRun(before);
      RunInv(before);
      if Enabled(Run(INITIAL, before), u.event, u.now) {
        FailsCount(Run(INITIAL, before), u.event, u.now);
      }
    }
  }

  lemma FailsCount(s: State, e: Event, now: Time)
    requires Inv(s) && Enabled(s, e, now)
    ensures Next(s, e, now).core.fails
         == if e.DiffFail? then s.core.fails + 1 else if Succeeds(e) then 0 else s.core.fails
  {
    hide Apply, ApplyGroupCalls, FeedBoth, ByPtsPass, AfterFailPass, StartPts, StartFailTimer, ChannelReply,
         SetState, Inv, Sound, Beyond;
    SoundOf(s);
    SucceededInv(s);
    SoundOf(Succeeded(s));
    match e
    case Push(u, _) =>
      ApplySound(s, u, now);
      GroupCallsFails(s, u, now);
    case ApiResult(u) => ApplySound(s, u, now);
    case StateReply(pts, date, qts, end) => SetStateSound(s, pts, date, qts, end, now);
    case DiffEmpty(date, end) => SetStateSound(Succeeded(s), s.core.pts, date, s.core.qts, end, now);
    case DiffSlice(other, pts, date, qts, end) => ReplySound(Succeeded(s), other, pts, date, qts, end, now);
    case DiffFull(other, pts, date, qts, end) => ReplySound(Succeeded(s), other, pts, date, qts, end, now);
    case ChannelDone(_, _, _, _, _) => ChannelDoneFails(s, e, now);
    case _ => PassFails(s, e, now);
  }

  lemma GroupCallsFails(s: State, u: Updates, now: Time)
    ensures ApplyGroupCalls(s, u, now).core == s.core
  {
    hide FeedAll, FeedOne, VectorOrder;
    var s1 := Begun(s, GroupCalls(u));
    match u
    case Plain(_, _, list) => FeedAllFrame(s1, VectorOrder(list, SkipExceptGroupCallParticipants), now);
    case Combined(_, _, _, list) => FeedAllFrame(s1, VectorOrder(list, SkipExceptGroupCallParticipants), now);
    case Short(_, update) => FeedOneFrame(s1, update, now);
    case _ =>
  }

  lemma ChannelDoneFails(s: State, e: Event, now: Time)
    requires e.ChannelDone?
    ensures Next(s, e, now).core.fails == s.core.fails
  {
    hide FeedAll, StartPts, VectorOrder, Pick;
    if e.poll.Some? {
      var s0 := FeedBoth(ForgetTimeout(s, e.ch), ChannelDifference(e.ch, e.other), e.other, now);
      PollKeepsCore(ReleaseChannel(s0, e.ch, e.newPts), e.ch, e.poll.value, now);
    }
    FeedAllFrame(Begun(ForgetTimeout(s, e.ch), ChannelDifference(e.ch, e.other)),
                 Pick(e.other, IDS) + VectorOrder(e.other, SkipMessageIds), now);
  }

  lemma PassFails(s: State, e: Event, now: Time)
    requires !e.Push? && !e.ApiResult? && !e.StateReply? && !e.DiffEmpty? && !e.DiffSlice? && !e.DiffFull?
             && !e.ChannelDone?
    ensures Next(s, e, now).core.fails
         == if e.DiffFail? then s.core.fails + 1 else if e.DiffTooLong? then 0 else s.core.fails
  {
    hide ByPtsChannels, AfterFailChannels, WhenChanged;
  }

  // ---- Channels ----

  /** Asking for one channel, by who asks: only a known channel that is not requesting has a request sent. */
  lemma ChannelAsked(s: State, ch: Channel, from: From)
    ensures var t := GetChannelDifference(s, ch, from);
            var sends := ch in s.core.inited && ch !in s.net.chanRequesting;
            && (forall c :: t.net.chanInFlight[c] == s.net.chanInFlight[c] + if c == ch && sends then 1 else 0)
            && (forall c :: c in t.net.chanRequesting <==> c in s.net.chanRequesting || (c == ch && sends))
            && (forall c :: DeadlineOf(t.net.byPts, c)
                  == if c == Some(ch) && from != PtsGapOrShortPoll then None else DeadlineOf(s.net.byPts, c))
            && (forall c :: DeadlineOf(t.net.afterFail, c)
                  == if c == Some(ch) && from != AfterFail && sends then None else DeadlineOf(s.net.afterFail, c))
  {
  }

  /**
   * The answer of a channel ends its request. A part that is not the last has the next one asked for at once,
   * as long as the channel is known; after the last one an active channel is polled again in time.
   */
  lemma ChannelAnswered(run: seq<Timed>, ch: Channel, other: seq<Update>, newPts: Option<nat>, final: bool,
                        poll: Option<int>, now: Time)
    requires ch in Run(INITIAL, run).net.chanInFlight
    ensures var s := Run(INITIAL, run);
            var t := Next(s, ChannelDone(ch, other, newPts, final, poll), now);
            && (newPts.Some? ==> (ch in t.core.inited <==> newPts.value > 0))
            && (newPts.None? ==> (ch in t.core.inited <==> ch in s.core.inited))
            && (!final ==> t.net.chanInFlight[ch] == (if ch in t.core.inited then 1 else 0)
                           && (ch in t.net.chanRequesting <==> ch in t.core.inited))
            && (final && poll.None? ==> t.net.chanInFlight[ch] == 0 && ch !in t.net.chanRequesting)
            && (final && poll.Some? && poll.value > 0 ==>
                  t.net.chanInFlight[ch] == 1 || Stands(t.net.byPts, Some(ch), now + poll.value)
                  || ch !in t.core.inited)
            && ch !in t.core.channelTimeout
  {
    hide Run, FeedAll, StartPts, AskChannel, Inv, Stands;
    var s := Run(INITIAL, run);
    RunInv(run);
    var s0, source := ForgetTimeout(s, ch), ChannelDifference(ch, other);
    ForgetTimeoutInv(s, ch);
    BegunInv(s0, source);
    var list := Pick(other, IDS) + VectorOrder(other, SkipMessageIds);
    FeedAllFrame(Begun(s0, source), list, now);
    FeedInv(Begun(s0, source), list, now);
    var s1 := FeedAll(Begun(s0, source), list, now);
    var s2 := ReleaseChannel(s1, ch, newPts);
    Lonely(s1, ch, newPts);
    ChannelAsked(s2, ch, Unknown);
    if poll.Some? {
      PollKeepsCore(s2, ch, poll.value, now);
      if poll.value > 0 {
        PollStands(s2, ch, poll.value, now);
      }
    }
  }

  /** A failed channel is to be asked again after one second. */
  lemma ChannelRetryDelay(run: seq<Timed>, ch: Channel, now: Time)
    requires ch in Run(INITIAL, run).net.chanInFlight
    ensures var d := Next(Run(INITIAL, run), ChannelFail(ch), now).net.afterFail;
            ch in d.channels && d.channels[ch] == now + 1000 && d.timer.Some? && d.timer.value <= now + 1000
  {
    hide Run, AfterFailPass;
    var s := Run(INITIAL, run);
    RunInv(run);
    NextInv(s, ChannelFail(ch), now);
    hide Next;
    ChannelFailIs(s, ch, now);
    AfterFailPassAsks(ChannelWaits(s, ch, now), now);
    var d := Next(s, ChannelFail(ch), now).net.afterFail;
    assert d.channels[ch] in Pending(d);
  }

  lemma Lonely(s: State, ch: Channel, newPts: Option<nat>)
    requires Inv(s) && ch in s.net.chanInFlight
    ensures var t := ReleaseChannel(s, ch, newPts);
            t.net.chanInFlight[ch] == 0 && ch !in t.net.chanRequesting
  {
  }

  lemma PollKeepsCore(s: State, ch: Channel, ms: int, now: Time)
    ensures StartPts(s, Some(ch), ms, now).core == s.core
  {
    hide ByPtsChannels, WhenChanged;
  }

  lemma PollStands(s: State, ch: Channel, ms: int, now: Time)
    requires ms > 0 && ch !in s.net.chanRequesting && s.net.chanInFlight[ch] == 0
    ensures var t := StartPts(s, Some(ch), ms, now);
            && (t.net.chanInFlight[ch] == 1 || Stands(t.net.byPts, Some(ch), now + ms) || ch !in s.core.inited)
  {
    hide ByPtsPass, WhenChanged;
    DeadlineMoves(s.net.byPts, Some(ch), ms, now);
    var (d, changed) := WhenChanged(s.net.byPts, Some(ch), ms, now);
    if changed {
      ByPtsPassAsks(s.(net := s.net.(byPts := d)), now);
    }
  }
}
