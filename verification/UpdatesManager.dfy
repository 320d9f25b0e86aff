/**
 * The updates manager itself: state updated in place, method by method as in
 * api_updates.cpp, each method proved to take the step of the model.
 */
module UpdatesManager {
  import opened Common
  import opened FeedOrder
  import opened UpdatesModel
  import Runs = UpdatesRuns
  import Safety = UpdatesSafety

  function Sent(n: Net, inited: set<Channel>, chs: set<Channel>): set<Channel> {
    chs * inited - n.chanRequesting
  }

  lemma SentStep(n: Net, inited: set<Channel>, chs: set<Channel>, ch: Channel)
    requires ch !in chs
    ensures var more := Sent(n, inited, chs + {ch});
            var sent := Sent(n, inited, chs);
            && (ch in inited && ch !in n.chanRequesting ==>
                  more == sent + {ch} && multiset(more) == multiset(sent) + multiset{ch})
            && (!(ch in inited && ch !in n.chanRequesting) ==> more == sent)
            && ch !in sent
  {
  }

  lemma DropStep(m: map<Channel, Time>, chs: set<Channel>, ch: Channel)
    ensures m - chs - {ch} == m - (chs + {ch})
  {
  }

  /** Asking one more channel extends what asking a set amounts to. */
  lemma AskAllStep(n: Net, inited: set<Channel>, chs: set<Channel>, ch: Channel, from: From)
    requires ch !in chs
    ensures AskChannel(AskAll(n, inited, chs, from), inited, ch, from) == AskAll(n, inited, chs + {ch}, from)
  {
    hide Sent;
    SentStep(n, inited, chs, ch);
    DropStep(n.byPts.channels, chs, ch);
    DropStep(n.afterFail.channels, Sent(n, inited, chs), ch);
    AskedStep(n, inited, chs, ch);
    AskAllIs(n, inited, chs, from);
    AskAllIs(n, inited, chs + {ch}, from);
    hide AskAll;
  }

  /** The requests after asking one more channel. */
  lemma AskedStep(n: Net, inited: set<Channel>, chs: set<Channel>, ch: Channel)
    requires ch !in chs
    ensures var sent, more := Sent(n, inited, chs), Sent(n, inited, chs + {ch});
            && (ch in n.chanRequesting + sent <==> ch in n.chanRequesting)
            && (ch in inited && ch !in n.chanRequesting ==>
                  && n.chanRequesting + sent + {ch} == n.chanRequesting + more
                  && n.chanInFlight + multiset(sent) + multiset{ch} == n.chanInFlight + multiset(more))
  {
    SentStep(n, inited, chs, ch);
    var sent, more := Sent(n, inited, chs), Sent(n, inited, chs + {ch});
    hide Sent;
    if ch in inited && ch !in n.chanRequesting {
      assert n.chanRequesting + sent + {ch} == n.chanRequesting + more;
      assert n.chanInFlight + multiset(sent) + multiset{ch} == n.chanInFlight + multiset(more);
    }
  }

  lemma AskAllIs(n: Net, inited: set<Channel>, chs: set<Channel>, from: From)
    ensures var t, sent := AskAll(n, inited, chs, from), Sent(n, inited, chs);
            t == Net(n.requesting,
                     if from != PtsGapOrShortPoll then n.byPts.(channels := n.byPts.channels - chs) else n.byPts,
                     if from != AfterFail then n.afterFail.(channels := n.afterFail.channels - sent) else n.afterFail,
                     n.chanRequesting + sent, n.diffInFlight, n.chanInFlight + multiset(sent))
  {
  }

  lemma AskNone(n: Net, inited: set<Channel>, from: From)
    ensures AskAll(n, inited, {}, from) == n
  {
    assert {} * inited - n.chanRequesting == {};
    assert n.byPts.channels - {} == n.byPts.channels;
    assert n.afterFail.channels - {} == n.afterFail.channels;
  }

  /** The wait a pass has found so far: zero for none, else up to the earliest moment seen. */
  ghost predicate WaitsFor(wait: int, now: Time, times: set<Time>) {
    && wait >= 0
    && (forall t :: t in times ==> t > now)
    && (wait == 0 <==> times == {})
    && (wait != 0 ==> now + wait in times && forall t :: t in times ==> now + wait <= t)
  }

  function Shorter(wait: int, left: int): int { if wait != 0 && wait <= left then wait else left }

  lemma WaitStep(wait: int, now: Time, times: set<Time>, t: Time)
    requires WaitsFor(wait, now, times) && t > now
    ensures WaitsFor(Shorter(wait, t - now), now, times + {t})
  {
  }

  /** The front of the sorted map. */
  method FirstKey(buffer: map<nat, Updates>) returns (first: nat)
    requires buffer != map[]
    ensures first == FrontKey(buffer)
  {
    ghost var k := FrontKey(buffer);
    assert k in buffer && forall j :: j in buffer ==> k <= j;
    first :| first in buffer && forall j :: j in buffer ==> first <= j;
  }

  class Manager {
    var core: Core
    var gap: Gap
    var net: Net
    var minTimer: bool
    ghost var past: seq<Deed>

    ghost function Model(): State
      reads this
    {
      State(core, gap, net, minTimer, past)
    }

    constructor ()
      ensures Model() == INITIAL && Safety.Inv(Model())
    {
      core := INITIAL.core;
      gap := EMPTY_GAP;
      net := INITIAL.net;
      minTimer := false;
      past := [];
      new;
      hide Safety.Inv;
      Safety.InitialInv();
    }

    method GetDifference()
      modifies this
      ensures Model() == UpdatesModel.GetDifference(old(Model()))
    {
      net := net.(byPts := net.byPts.(global := 0));
      if net.requesting {
        return;
      }
      gap := EMPTY_GAP;
      net := net.(afterFail := net.afterFail.(global := 0));
      net := net.(requesting := true, diffInFlight := net.diffInFlight + 1);
    }

    /** While a map is walked this is called for its channels, and does not touch that map. */
    method GetChannelDifference(ch: Channel, from: From)
      modifies this`net
      ensures Model() == UpdatesModel.GetChannelDifference(old(Model()), ch, from)
      ensures from == PtsGapOrShortPoll ==> net.byPts == old(net.byPts)
      ensures from == AfterFail ==> net.afterFail == old(net.afterFail)
    {
      if from != PtsGapOrShortPoll {
        net := net.(byPts := net.byPts.(channels := net.byPts.channels - {ch}));
      }
      if ch !in core.inited || ch in net.chanRequesting {
        return;
      }
      if from != AfterFail {
        net := net.(afterFail := net.afterFail.(channels := net.afterFail.channels - {ch}));
      }
      net := net.(chanRequesting := net.chanRequesting + {ch}, chanInFlight := net.chanInFlight + multiset{ch});
    }

    method GetDifferenceByPts(now: Time)
      modifies this
      ensures Model() == ByPtsPass(old(Model()), now)
    {
      hide ByPtsChannels;
      var wait := 0;
      if net.byPts.global != 0 {
        if net.byPts.global > now {
          wait := net.byPts.global - now;
        } else {
          GetDifference();
        }
      }
      WalkByPts(now, wait);
    }

    /** The loop of getDifferenceByPts over the channels, and the timer after it. */
    method WalkByPts(now: Time, first: int)
      requires WaitsFor(first, now, Seen(net.byPts, net.byPts.channels.Keys, now))
      requires net.byPts.global != 0 ==> net.byPts.global > now
      modifies this`net
      ensures net == ByPtsChannels(old(net), core.inited, now)
    {
      hide AskChannel, Walking, Drop, Shorter;
      var wait := first;
      ghost var n := net;
      var rest := net.byPts.channels.Keys;
      WalkStarts(n, core.inited, wait, now, PtsGapOrShortPoll);
      while rest != {}
        invariant Walking(n, core.inited, rest, now, net, wait, PtsGapOrShortPoll)
        decreases |rest|
      {
        var ch :| ch in rest;
        WalkOn(n, core.inited, rest, ch, now, net, wait, PtsGapOrShortPoll);
        if net.byPts.channels[ch] > now {
          wait := Shorter(wait, net.byPts.channels[ch] - now);
        } else {
          GetChannelDifference(ch, PtsGapOrShortPoll);
          net := Drop(net, {ch}, PtsGapOrShortPoll);
        }
        rest := rest - {ch};
      }
      WalkEnds(n, core.inited, now, net, wait, PtsGapOrShortPoll);
      net := net.(byPts := net.byPts.(timer := TimerAfter(wait, now)));
    }

    method GetDifferenceAfterFail(now: Time)
      modifies this
      ensures Model() == AfterFailPass(old(Model()), now)
    {
      hide AfterFailChannels;
      var wait := 0;
      if net.afterFail.global != 0 {
        if net.afterFail.global > now {
          wait := net.afterFail.global - now;
        } else {
          net := net.(requesting := false);
          GetDifference();
        }
      }
      WalkAfterFail(now, wait);
    }

    /** The loop of getDifferenceAfterFail over the channels, and the timer after it. */
    method WalkAfterFail(now: Time, first: int)
      requires WaitsFor(first, now, Seen(net.afterFail, net.afterFail.channels.Keys, now))
      requires net.afterFail.global != 0 ==> net.afterFail.global > now
      modifies this`net
      ensures net == AfterFailChannels(old(net), core.inited, now)
    {
      hide AskChannel, Walking, Drop, Shorter;
      var wait := first;
      ghost var n := net;
      var rest := net.afterFail.channels.Keys;
      WalkStarts(n, core.inited, wait, now, AfterFail);
      while rest != {}
        invariant Walking(n, core.inited, rest, now, net, wait, AfterFail)
        decreases |rest|
      {
        var ch :| ch in rest;
        WalkOn(n, core.inited, rest, ch, now, net, wait, AfterFail);
        if net.afterFail.channels[ch] > now {
          wait := Shorter(wait, net.afterFail.channels[ch] - now);
        } else {
          GetChannelDifference(ch, AfterFail);
          net := Drop(net, {ch}, AfterFail);
        }
        rest := rest - {ch};
      }
      WalkEnds(n, core.inited, now, net, wait, AfterFail);
      net := net.(afterFail := net.afterFail.(timer := TimerAfter(wait, now)));
    }

    method PtsWaiterStartTimerFor(channel: Option<Channel>, ms: int, now: Time)
      modifies this
      ensures Model() == StartPts(old(Model()), channel, ms, now)
    {
      hide ByPtsPass;
      var (d, changed) := WhenChanged(net.byPts, channel, ms, now);
      net := net.(byPts := d);
      if changed {
        GetDifferenceByPts(now);
      }
    }

    method FailDifferenceStartTimerFor(channel: Option<Channel>, now: Time)
      modifies this
      ensures Model() == StartFailTimer(old(Model()), channel, now)
    {
      hide AfterFailChannels;
      if channel.Some? && channel.value !in core.channelTimeout {
        core := WithTimeout(core, channel, 1);
      }
      var timeout := TimeoutOf(core, channel);
      var (d, changed) := WhenChanged(net.afterFail, channel, timeout * 1000, now);
      net := net.(afterFail := d);
      if changed {
        GetDifferenceAfterFail(now);
      }
      ghost var c := core;
      if timeout < 64 {
        core := WithTimeout(core, channel, timeout * 2);
      }
      SameTimeout(old(core), c, channel, timeout);
    }

    /** feedUpdate, reduced to what it does to this state. */
    method FeedUpdate(u: Update, now: Time)
      modifies this
      ensures Model() == FeedOne(old(Model()), u, now)
    {
      past := WithUpdate(past, u);
      FeedEffects(u.effects, now);
    }

    method FeedEffects(effects: seq<Effect>, now: Time)
      modifies this
      ensures Model() == RunEffects(old(Model()), effects, now)
    {
      ghost var s := Model();
      assert effects[0..] == effects;
      for i := 0 to |effects|
        invariant RunEffects(Model(), effects[i..], now) == RunEffects(s, effects, now)
      {
        assert effects[i..][1..] == effects[i + 1..];
        past := WithEffect(past, effects[i]);
        FeedEffect(effects[i], now);
      }
    }

    method FeedEffect(e: Effect, now: Time)
      modifies this
      ensures Model() == RunEffect(old(Model()), e, now)
    {
      hide StartPts;
      match e
      case NeedDifference =>
        if !net.requesting {
          GetDifference();
        }
      case MissingChannelData =>
        if !net.requesting {
          if !minTimer {
            minTimer := true;
          }
        }
      case UnknownChannel =>
        if !minTimer {
          minTimer := true;
        }
      case StartPtsTimer(channel, ms) => PtsWaiterStartTimerFor(channel, ms, now);
      case ChannelTooLong(ch) => GetChannelDifference(ch, Unknown);
    }

    /** The updates of a vector, already in feeding order. */
    method FeedList(list: seq<Update>, now: Time)
      modifies this
      ensures Model() == FeedAll(old(Model()), list, now)
    {
      ghost var s := Model();
      assert list[0..] == list;
      for i := 0 to |list|
        invariant FeedAll(Model(), list[i..], now) == FeedAll(s, list, now)
      {
        assert list[i..][1..] == list[i + 1..];
        FeedUpdate(list[i], now);
      }
    }

    method FeedVector(list: seq<Update>, policy: Policy, now: Time)
      modifies this
      ensures Model() == FeedAll(old(Model()), VectorOrder(list, policy), now)
    {
      var fed := FeedUpdateVector(list, policy);
      FeedList(fed, now);
    }

    method SetState(newPts: int, date: int, qts: int, end: nat, now: Time)
      modifies this
      ensures Model() == UpdatesModel.SetState(old(Model()), newPts, date, qts, end, now)
      decreases |gap.buffer|, 1
    {
      hide Apply, Drain;
      past := past + [Given(newPts, date, qts, end, minTimer)];
      MoveMarks(newPts, date, qts);
      if end != 0 && end != core.seqNo {
        core := core.(seqNo := end);
        if gap.timer {
          gap := gap.(timer := false);
        }
        DrainBySeq(now);
      }
    }

    /** The marks at the start of setState. */
    method MoveMarks(newPts: int, date: int, qts: int)
      modifies this`core
      ensures core == Marks(old(core), newPts, date, qts, minTimer)
    {
      if newPts != 0 {
        core := core.(pts := newPts);
      }
      if core.date < date && !minTimer {
        core := core.(date := date);
      }
      if qts != 0 && core.qts < qts {
        core := core.(qts := qts);
      }
    }

    /** The loop of setState over the buffered containers, least start first. */
    method DrainBySeq(now: Time)
      requires !gap.timer
      modifies this
      ensures Model() == Drain(old(Model()), now)
      decreases |gap.buffer|, 0
    {
      hide Apply;
      ghost var s := Model();
      while gap.buffer != map[]
        invariant Drain(Model(), now) == Drain(s, now) && |gap.buffer| <= |s.gap.buffer|
        invariant Model() == s.(gap := Gap(gap.buffer, false))
        decreases |gap.buffer|
      {
        var first := FirstKey(gap.buffer);
        if first > core.seqNo + 1 {
          gap := gap.(timer := true);
          return;
        }
        var v := gap.buffer[first];
        assert (gap.buffer - {first}).Keys == gap.buffer.Keys - {first};
        gap := gap.(buffer := gap.buffer - {first});
        if first == core.seqNo + 1 {
          ApplyUpdates(v, now);
          return;
        }
      }
    }

    method ApplyUpdates(u: Updates, now: Time)
      modifies this
      ensures Model() == Apply(old(Model()), u, now)
      decreases |gap.buffer|, 3
    {
      hide Drain, FeedAll, RunEffects;
      match u
      case Plain(end, date, list) =>
        ApplyContainer(u, end, date, list, now);
      case Combined(_, end, date, list) =>
        ApplyContainer(u, end, date, list, now);
      case Short(date, update) =>
        past := Begun(Model(), Applying(u)).past;
        FeedOneFrame(Model(), update, now);
        FeedUpdate(update, now);
        SetState(0, date, core.qts, core.seqNo, now);
      case ShortMessage(date, loaded, ready, effects) =>
        if !loaded {
          GetDifference();
          return;
        }
        past := Begun(Model(), Applying(u)).past;
        RunEffectsFrame(Model(), effects, now);
        FeedEffects(effects, now);
        if ready {
          SetState(0, date, core.qts, core.seqNo, now);
        }
      case TooLong =>
        GetDifference();
    }

    method ApplyContainer(u: Updates, end: nat, date: int, list: seq<Update>, now: Time)
      modifies this
      ensures Model() == UpdatesModel.ApplyContainer(old(Model()), u, end, date, list, now)
      decreases |gap.buffer|, 2
    {
      hide Drain, FeedAll, VectorOrder;
      if u.Start() != 0 {
        if u.Start() <= core.seqNo {
          return;
        }
        if u.Start() > core.seqNo + 1 {
          gap := Gap(Emplace(gap.buffer, u), true);
          return;
        }
      }
      core := core.(log := core.log + [Applied(u, core.seqNo)]);
      past := Begun(Model(), Applying(u)).past;
      FeedAllFrame(Model(), VectorOrder(list, SkipNone), now);
      FeedVector(list, SkipNone, now);
      SetState(0, date, core.qts, end, now);
    }

    method FeedDifference(source: Source, other: seq<Update>, now: Time)
      modifies this
      ensures Model() == Runs.FeedBoth(old(Model()), source, other, now)
    {
      past := Begun(Model(), source).past;
      var before, after := FeedOrder.FeedDifference(other);
      DifferenceOrder(other);
      FeedList(before + after, now);
    }

    method ApplyGroupCallParticipantUpdates(u: Updates, now: Time)
      modifies this
      ensures Model() == Runs.ApplyGroupCalls(old(Model()), u, now)
    {
      past := Begun(Model(), GroupCalls(u)).past;
      match u
      case Plain(_, _, list) => FeedVector(list, SkipExceptGroupCallParticipants, now);
      case Combined(_, _, _, list) => FeedVector(list, SkipExceptGroupCallParticipants, now);
      case Short(_, update) =>
        if update.kind == GroupCallParticipants {
          FeedUpdate(update, now);
        }
      case ShortMessage(_, _, _, _) =>
      case TooLong =>
    }

    method MtpUpdateReceived(u: Updates, forceLogout: bool, now: Time)
      modifies this
      ensures Model() == Runs.Next(old(Model()), Runs.Push(u, forceLogout), now)
    {
      if !net.requesting || forceLogout {
        ApplyUpdates(u, now);
      } else {
        ApplyGroupCallParticipantUpdates(u, now);
      }
    }

    method NewSessionCreated(now: Time)
      modifies this
      ensures Model() == Runs.Next(old(Model()), Runs.NewSession, now)
    {
      core := core.(seqNo := 0);
      past := past + [NewNumbers];
      GetDifference();
    }

    /** stateDone, the common end of the first reply and of a full difference. */
    method StateDone(newPts: int, date: int, qts: int, end: nat, now: Time)
      modifies this
      ensures var s := UpdatesModel.SetState(old(Model()), newPts, date, qts, end, now);
              Model() == s.(net := s.net.(requesting := false))
    {
      SetState(newPts, date, qts, end, now);
      net := net.(requesting := false);
    }

    method FirstStateDone(newPts: int, date: int, qts: int, end: nat, now: Time)
      requires core.stateInFlight > 0
      modifies this
      ensures Model() == Runs.Next(old(Model()), Runs.StateReply(newPts, date, qts, end), now)
    {
      hide UpdatesModel.SetState;
      StateDone(newPts, date, qts, end, now);
      core := core.(stateInFlight := Runs.Less(core.stateInFlight));
    }

    /** No handler was given for a failure of the first request: the request is gone and that is all. */
    method FirstStateFailed(now: Time)
      requires core.stateInFlight > 0
      modifies this`core
      ensures Model() == Runs.Next(old(Model()), Runs.StateFail, now)
    {
      core := core.(stateInFlight := Runs.Less(core.stateInFlight), stateFailed := true);
    }

    method DifferenceDone(e: Runs.Event, now: Time)
      requires e.DiffEmpty? || e.DiffSlice? || e.DiffFull? || e.DiffTooLong?
      requires net.diffInFlight > 0
      modifies this
      ensures Model() == Runs.Next(old(Model()), e, now)
    {
      hide UpdatesModel.SetState, Runs.FeedBoth;
      core := core.(failTimeout := 1, fails := 0);
      match e
      case DiffEmpty(date, end) =>
        SetState(core.pts, date, core.qts, end, now);
        net := net.(requesting := false, diffInFlight := Runs.Less(net.diffInFlight));
      case DiffSlice(other, newPts, date, qts, end) =>
        FeedDifference(Difference(other), other, now);
        SetState(newPts, date, qts, end, now);
        net := net.(requesting := false, diffInFlight := Runs.Less(net.diffInFlight));
        GetDifference();
      case DiffFull(other, newPts, date, qts, end) =>
        FeedDifference(Difference(other), other, now);
        StateDone(newPts, date, qts, end, now);
        net := net.(diffInFlight := Runs.Less(net.diffInFlight));
      case DiffTooLong =>
        net := net.(diffInFlight := Runs.Less(net.diffInFlight));
        core := core.(tooLong := true);
    }

    method DifferenceFail(now: Time)
      requires net.diffInFlight > 0
      modifies this
      ensures Model() == Runs.Next(old(Model()), Runs.DiffFail, now)
    {
      hide StartFailTimer;
      net := net.(diffInFlight := Runs.Less(net.diffInFlight));
      core := core.(fails := core.fails + 1);
      FailDifferenceStartTimerFor(None, now);
    }

    method ChannelDifferenceDone(ch: Channel, other: seq<Update>, newPts: Option<nat>,
                                 final: bool, poll: Option<int>, now: Time)
      requires ch in net.chanInFlight
      modifies this
      ensures Model() == Runs.Next(old(Model()), Runs.ChannelDone(ch, other, newPts, final, poll), now)
    {
      hide Runs.FeedBoth, Runs.ReleaseChannel, StartPts, UpdatesModel.GetChannelDifference;
      core := core.(channelTimeout := core.channelTimeout - {ch});
      FeedDifference(ChannelDifference(ch, other), other, now);
      ReleaseChannel(ch, newPts);
      if !final {
        GetChannelDifference(ch, Unknown);
      } else if poll.Some? {
        PtsWaiterStartTimerFor(Some(ch), poll.value, now);
      }
    }

    /** ptsInit and ptsSetRequesting(false) of the channel. */
    method ReleaseChannel(ch: Channel, newPts: Option<nat>)
      modifies this
      ensures Model() == Runs.ReleaseChannel(old(Model()), ch, newPts)
    {
      if newPts.Some? {
        core := core.(inited := if newPts.value > 0 then core.inited + {ch} else core.inited - {ch});
      }
      net := net.(chanRequesting := net.chanRequesting - {ch}, chanInFlight := net.chanInFlight - multiset{ch});
    }

    method ChannelDifferenceFail(ch: Channel, now: Time)
      requires ch in net.chanInFlight
      modifies this
      ensures Model() == Runs.Next(old(Model()), Runs.ChannelFail(ch), now)
    {
      hide StartFailTimer;
      net := net.(chanInFlight := net.chanInFlight - multiset{ch});
      FailDifferenceStartTimerFor(Some(ch), now);
    }

    /** A single-shot timer is inactive when its callback runs. */
    method TimerFired(e: Runs.Event, now: Time)
      requires e.SeqFire? || e.MinFire? || e.ByPtsFire? || e.FailFire?
      requires Runs.Enabled(Model(), e, now)
      modifies this
      ensures Model() == Runs.Next(old(Model()), e, now)
    {
      hide ByPtsPass, AfterFailPass;
      match e
      case SeqFire =>
        gap := gap.(timer := false);
        GetDifference();
      case MinFire =>
        minTimer := false;
        GetDifference();
      case ByPtsFire =>
        net := net.(byPts := net.byPts.(timer := None));
        GetDifferenceByPts(now);
      case FailFire =>
        net := net.(afterFail := net.afterFail.(timer := None));
        GetDifferenceAfterFail(now);
    }

    /** Whatever happens, the object takes the step of the model: its life is a run, and the invariant holds. */
    method Handle(e: Runs.Event, now: Time)
      requires Runs.Enabled(Model(), e, now) && Safety.Inv(Model())
      modifies this
      ensures Model() == Runs.Next(old(Model()), e, now) && Safety.Inv(Model())
    {
      hide Runs.Next, Safety.Inv;
      Safety.NextInv(Model(), e, now);
      match e
      case Push(u, forceLogout) => MtpUpdateReceived(u, forceLogout, now);
      case ApiResult(u) => ApplyApiResult(u, now);
      case StateReply(newPts, date, qts, end) => FirstStateDone(newPts, date, qts, end, now);
      case StateFail => FirstStateFailed(now);
      case DiffEmpty(_, _) => DifferenceDone(e, now);
      case DiffSlice(_, _, _, _, _) => DifferenceDone(e, now);
      case DiffFull(_, _, _, _, _) => DifferenceDone(e, now);
      case DiffTooLong => DifferenceDone(e, now);
      case DiffFail => DifferenceFail(now);
      case NewSession => NewSessionCreated(now);
      case SeqFire => TimerFired(e, now);
      case MinFire => TimerFired(e, now);
      case ByPtsFire => TimerFired(e, now);
      case FailFire => TimerFired(e, now);
      case ChannelDone(ch, other, newPts, final, poll) => ChannelDifferenceDone(ch, other, newPts, final, poll, now);
      case ChannelFail(ch) => ChannelDifferenceFail(ch, now);
      case Ask => OutsideRequest(e, now);
      case PtsTimer(_, _) => OutsideRequest(e, now);
      case ChannelPts(_, _) => OutsideRequest(e, now);
    }

    method ApplyApiResult(u: Updates, now: Time)
      modifies this
      ensures Model() == Runs.Next(old(Model()), Runs.ApiResult(u), now)
    {
      ApplyUpdates(u, now);
    }

    /** Calls from elsewhere: a difference wanted, a waiter's timer, a channel's pts known or forgotten. */
    method OutsideRequest(e: Runs.Event, now: Time)
      requires e.Ask? || e.PtsTimer? || e.ChannelPts?
      modifies this
      ensures Model() == Runs.Next(old(Model()), e, now)
    {
      hide StartPts;
      match e
      case Ask => GetDifference();
      case PtsTimer(channel, ms) => PtsWaiterStartTimerFor(channel, ms, now);
      case ChannelPts(ch, inited) =>
        core := core.(inited := if inited then core.inited + {ch} else core.inited - {ch});
    }
  }

  /** Creating a missing timeout first and doubling it in place is setting the doubled one. */
  lemma SameTimeout(c: Core, d: Core, channel: Option<Channel>, timeout: nat)
    requires timeout == TimeoutOf(c, channel)
    requires d == if channel.Some? && channel.value !in c.channelTimeout then WithTimeout(c, channel, 1) else c
    ensures (if timeout < 64 then WithTimeout(d, channel, timeout * 2) else d)
         == WithTimeout(c, channel, Doubled(timeout))
  {
    if channel.Some? {
      var a := if timeout < 64 then WithTimeout(d, channel, timeout * 2) else d;
      assert a.channelTimeout == WithTimeout(c, channel, Doubled(timeout)).channelTimeout;
    }
  }

  function TimerAfter(wait: int, now: Time): Option<Time> { if wait > 0 then Some(now + wait) else None }

  /** The moments looked at when the channels of rest are still to come: only those not yet due. */
  ghost function Seen(d: Deadlines, rest: set<Channel>, now: Time): set<Time> {
    (set ch | ch in d.channels.Keys - rest && d.channels[ch] > now :: d.channels[ch])
    + (if d.global > now then {d.global} else {})
  }

  lemma SeenStep(d: Deadlines, rest: set<Channel>, ch: Channel, now: Time)
    requires ch in rest && rest <= d.channels.Keys
    ensures rest - {ch} + {ch} == rest
    ensures Seen(d, rest - {ch}, now)
         == Seen(d, rest, now) + (if d.channels[ch] > now then {d.channels[ch]} else {})
  {
    var a, b := Seen(d, rest - {ch}, now), Seen(d, rest, now) + (if d.channels[ch] > now then {d.channels[ch]} else {});
    assert rest - {ch} + {ch} == rest;
    assert forall c :: c in d.channels.Keys - (rest - {ch}) <==> c in d.channels.Keys - rest || c == ch;
    assert a <= b;
    assert b <= a;
  }

  /** Erasing channels from the map that a pass walks. */
  function Drop(n: Net, chs: set<Channel>, from: From): Net {
    if from == AfterFail then n.(afterFail := n.afterFail.(channels := n.afterFail.channels - chs))
    else n.(byPts := n.byPts.(channels := n.byPts.channels - chs))
  }

  /** A pass after some of the due channels: asked, and erased from the walked map. */
  ghost function Walked(n: Net, inited: set<Channel>, done: set<Channel>, from: From): Net {
    Drop(AskAll(n, inited, done, from), done, from)
  }

  lemma WalkNone(n: Net, inited: set<Channel>, from: From)
    ensures Walked(n, inited, {}, from) == n
  {
    AskNone(n, inited, from);
    assert n.byPts.channels - {} == n.byPts.channels;
    assert n.afterFail.channels - {} == n.afterFail.channels;
  }

  /** Of the walked map the walk has erased what it has done, and nothing else has changed. */
  lemma WalkedMap(n: Net, inited: set<Channel>, done: set<Channel>, from: From)
    requires from != Unknown
    ensures WalkedOf(Walked(n, inited, done, from), from).channels == WalkedOf(n, from).channels - done
  {
  }

  /** Asking for a channel and erasing channels from the walked map do not interfere. */
  lemma WalkStep(n: Net, inited: set<Channel>, done: set<Channel>, ch: Channel, from: From)
    requires ch !in done && from != Unknown
    ensures Drop(AskChannel(Walked(n, inited, done, from), inited, ch, from), {ch}, from)
         == Walked(n, inited, done + {ch}, from)
  {
    AskAllStep(n, inited, done, ch, from);
    var a := AskAll(n, inited, done, from);
    hide AskAll;
    DropStep(a.byPts.channels, done, ch);
    DropStep(a.afterFail.channels, done, ch);
    if from == AfterFail {
      DropStep(AskChannel(a, inited, ch, from).afterFail.channels, done, ch);
    } else {
      SwapDrop(a.byPts.channels, done, ch);
      DropStep(AskChannel(a, inited, ch, from).byPts.channels, done, ch);
    }
  }

  lemma SwapDrop(m: map<Channel, Time>, chs: set<Channel>, ch: Channel)
    ensures m - chs - {ch} == m - {ch} - chs
  {
  }

  /** A walk to the end has found the earliest deadline that is left. */
  lemma WalkDone(d: Deadlines, wait: int, now: Time)
    requires WaitsFor(wait, now, Seen(d, {}, now)) && (d.global != 0 ==> d.global > now)
    ensures var left := d.(channels := d.channels - Due(d, now));
            Rearm(left) == left.(timer := TimerAfter(wait, now))
  {
    var left := d.(channels := d.channels - Due(d, now));
    forall t | t in Pending(left)
      ensures t in Seen(d, {}, now)
    {
      if t != d.global {
        var ch :| ch in left.channels && left.channels[ch] == t;
      }
    }
    forall t | t in Seen(d, {}, now)
      ensures t in Pending(left)
    {
      if t != d.global {
        var ch :| ch in d.channels && d.channels[ch] > now && d.channels[ch] == t;
        assert ch in left.channels;
      }
    }
    assert Seen(d, {}, now) == Pending(left);
  }

  /** The deadlines a pass walks. */
  function WalkedOf(n: Net, from: From): Deadlines { if from == AfterFail then n.afterFail else n.byPts }

  /**
   * The middle of a pass with some channels to come: what was due before them is asked for, the live map
   * is the one of the start without these and nothing else has changed it, and the wait is right so far.
   */
  ghost predicate Walking(n: Net, inited: set<Channel>, rest: set<Channel>, now: Time, net: Net, wait: int,
                          from: From)
  {
    var d := WalkedOf(n, from);
    var done := Due(d, now) - rest;
    && rest <= d.channels.Keys
    && net == Walked(n, inited, done, from)
    && WalkedOf(net, from).channels == d.channels - done
    && WaitsFor(wait, now, Seen(d, rest, now))
  }

  lemma WalkStarts(n: Net, inited: set<Channel>, wait: int, now: Time, from: From)
    requires from != Unknown
    requires var d := WalkedOf(n, from); WaitsFor(wait, now, Seen(d, d.channels.Keys, now))
    ensures Walking(n, inited, WalkedOf(n, from).channels.Keys, now, n, wait, from)
  {
    hide Seen, WaitsFor;
    var d := WalkedOf(n, from);
    assert Due(d, now) - d.channels.Keys == {};
    assert d.channels - {} == d.channels;
    WalkNone(n, inited, from);
  }

  lemma WalkOn(n: Net, inited: set<Channel>, rest: set<Channel>, ch: Channel, now: Time, net: Net, wait: int,
               from: From)
    requires Walking(n, inited, rest, now, net, wait, from) && ch in rest && from != Unknown
    ensures var live := WalkedOf(net, from).channels;
            && ch in live && live[ch] == WalkedOf(n, from).channels[ch]
            && (live[ch] > now ==> Walking(n, inited, rest - {ch}, now, net, Shorter(wait, live[ch] - now), from))
            && (live[ch] <= now ==>
                  Walking(n, inited, rest - {ch}, now, Drop(AskChannel(net, inited, ch, from), {ch}, from), wait, from))
  {
    hide AskChannel, AskAll, Drop, Walked, Seen, WaitsFor, Shorter;
    var d := WalkedOf(n, from);
    var done := Due(d, now) - rest;
    SeenStep(d, rest, ch, now);
    if d.channels[ch] > now {
      assert Due(d, now) - (rest - {ch}) == done;
      WaitStep(wait, now, Seen(d, rest, now), d.channels[ch]);
    } else {
      assert Due(d, now) - (rest - {ch}) == done + {ch};
      WalkStep(n, inited, done, ch, from);
      WalkedMap(n, inited, done + {ch}, from);
      assert Seen(d, rest, now) + {} == Seen(d, rest, now);
    }
  }

  /** At the end of a walk the live map holds the deadlines not due, and the timer belongs at the earliest. */
  lemma WalkEnds(n: Net, inited: set<Channel>, now: Time, net: Net, wait: int, from: From)
    requires from != Unknown && Walking(n, inited, {}, now, net, wait, from)
    requires var d := WalkedOf(n, from); d.global != 0 ==> d.global > now
    ensures from == AfterFail ==>
              net.(afterFail := net.afterFail.(timer := TimerAfter(wait, now))) == AfterFailChannels(n, inited, now)
    ensures from != AfterFail ==>
              net.(byPts := net.byPts.(timer := TimerAfter(wait, now))) == ByPtsChannels(n, inited, now)
  {
    hide Seen, WaitsFor, Rearm, Due;
    var d := WalkedOf(n, from);
    assert Due(d, now) - {} == Due(d, now);
    WalkDone(d, wait, now);
  }
}
