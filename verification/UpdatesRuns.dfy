/** Runs of the updates manager: every interleaving of pushes, replies, failures and timers. */
module UpdatesRuns {
  import opened Common
  import opened FeedOrder
  import opened UpdatesModel

  datatype Event =
    | Push(u: Updates, forceLogout: bool)            // mtpUpdateReceived
    | ApiResult(u: Updates)                          // updates in the reply to some other request
    | StateReply(pts: int, date: int, qts: int, end: nat)
    | StateFail                                      // the first request failed; nothing handles that
    | DiffEmpty(date: int, end: nat)
    | DiffSlice(other: seq<Update>, pts: int, date: int, qts: int, end: nat)
    | DiffFull(other: seq<Update>, pts: int, date: int, qts: int, end: nat)
    | DiffTooLong
    | DiffFail
    | NewSession                                     // mtpNewSessionCreated
    | Ask                                            // getDifference from outside
    | SeqFire | MinFire | ByPtsFire | FailFire       // timers
    | PtsTimer(channel: Option<Channel>, ms: int)    // ptsWaiterStartTimerFor from a waiter
    | ChannelPts(ch: Channel, inited: bool)          // a channel's pts becomes known or unknown
    | ChannelDone(ch: Channel, other: seq<Update>, newPts: Option<nat>, final: bool, poll: Option<int>)
    | ChannelFail(ch: Channel)

  /** An event with the clock value for its whole handling. */
  datatype Timed = Timed(event: Event, now: Time)

  predicate Fires(timer: Option<Time>, now: Time) { timer.Some? && timer.value <= now }

  predicate Enabled(s: State, e: Event, now: Time) {
    match e
    case StateReply(_, _, _, _) => s.core.stateInFlight > 0
    case StateFail => s.core.stateInFlight > 0
    case DiffEmpty(_, _) => s.net.diffInFlight > 0
    case DiffSlice(_, _, _, _, _) => s.net.diffInFlight > 0
    case DiffFull(_, _, _, _, _) => s.net.diffInFlight > 0
    case DiffTooLong => s.net.diffInFlight > 0
    case DiffFail => s.net.diffInFlight > 0
    case SeqFire => s.gap.timer
    case MinFire => s.minTimer
    case ByPtsFire => Fires(s.net.byPts.timer, now)
    case FailFire => Fires(s.net.afterFail.timer, now)
    case ChannelDone(ch, _, _, _, _) => ch in s.net.chanInFlight
    case ChannelFail(ch) => ch in s.net.chanInFlight
    case _ => true
  }

  /** feedDifference and feedChannelDifference: message ids first, then the rest. */
  ghost function FeedBoth(s: State, source: Source, other: seq<Update>, now: Time): State {
    FeedAll(Begun(s, source), Pick(other, IDS) + VectorOrder(other, SkipMessageIds), now)
  }

  /** applyGroupCallParticipantUpdates */
  ghost function ApplyGroupCalls(s: State, u: Updates, now: Time): State {
    var s1 := Begun(s, GroupCalls(u));
    match u
    case Plain(_, _, list) => FeedAll(s1, VectorOrder(list, SkipExceptGroupCallParticipants), now)
    case Combined(_, _, _, list) => FeedAll(s1, VectorOrder(list, SkipExceptGroupCallParticipants), now)
    case Short(_, update) => if update.kind == GroupCallParticipants then FeedOne(s1, update, now) else s1
    case _ => s1
  }

  function NewSessionOf(s: State): State { s.(core := s.core.(seqNo := 0), past := s.past + [NewNumbers]) }

  function Less(n: nat): nat { if n > 0 then n - 1 else 0 }

  /** A reply is handled to the end: that one request is over and the flag is dropped. */
  function Released(s: State): State {
    s.(net := s.net.(requesting := false, diffInFlight := Less(s.net.diffInFlight)))
  }

  function Succeeded(s: State): State { s.(core := s.core.(failTimeout := 1, fails := 0)) }

  function WithInited(s: State, ch: Channel, inited: bool): State {
    s.(core := s.core.(inited := if inited then s.core.inited + {ch} else s.core.inited - {ch}))
  }

  function ReleaseChannel(s: State, ch: Channel, newPts: Option<nat>): State {
    var s1 := if newPts.Some? then WithInited(s, ch, newPts.value > 0) else s;
    s1.(net := s1.net.(chanRequesting := s1.net.chanRequesting - {ch},
                       chanInFlight := s1.net.chanInFlight - multiset{ch}))
  }

  function ForgetTimeout(s: State, ch: Channel): State {
    s.(core := s.core.(channelTimeout := s.core.channelTimeout - {ch}))
  }

  /** channelDifferenceDone */
  ghost function ChannelReply(s: State, ch: Channel, other: seq<Update>, newPts: Option<nat>,
                              final: bool, poll: Option<int>, now: Time): State {
    var s1 := ReleaseChannel(FeedBoth(ForgetTimeout(s, ch), ChannelDifference(ch, other), other, now), ch, newPts);
    if !final then GetChannelDifference(s1, ch, Unknown)
    else if poll.Some? then StartPts(s1, Some(ch), poll.value, now)
    else s1
  }

  ghost function Next(s: State, e: Event, now: Time): State {
    match e
    case Push(u, forceLogout) =>
      if !s.net.requesting || forceLogout then Apply(s, u, now) else ApplyGroupCalls(s, u, now)
    case ApiResult(u) => Apply(s, u, now)
    case StateReply(pts, date, qts, end) =>
      var s1 := SetState(s, pts, date, qts, end, now);
      s1.(net := s1.net.(requesting := false), core := s1.core.(stateInFlight := Less(s1.core.stateInFlight)))
    case StateFail =>
      s.(core := s.core.(stateInFlight := Less(s.core.stateInFlight), stateFailed := true))
    case DiffEmpty(date, end) =>
      var s1 := Succeeded(s);
      Released(SetState(s1, s1.core.pts, date, s1.core.qts, end, now))
    case DiffSlice(other, pts, date, qts, end) =>
      GetDifference(Released(SetState(FeedBoth(Succeeded(s), Difference(other), other, now), pts, date, qts, end, now)))
    case DiffFull(other, pts, date, qts, end) =>
      Released(SetState(FeedBoth(Succeeded(s), Difference(other), other, now), pts, date, qts, end, now))
    case DiffTooLong =>
      var s1 := Succeeded(s);
      s1.(net := s1.net.(diffInFlight := Less(s1.net.diffInFlight)), core := s1.core.(tooLong := true))
    case DiffFail =>
      StartFailTimer(s.(net := s.net.(diffInFlight := Less(s.net.diffInFlight)),
                        core := s.core.(fails := s.core.fails + 1)), None, now)
    case NewSession => GetDifference(NewSessionOf(s))
    case Ask => GetDifference(s)
    case SeqFire => GetDifference(s.(gap := s.gap.(timer := false)))
    case MinFire => GetDifference(s.(minTimer := false))
    case ByPtsFire => ByPtsPass(s.(net := s.net.(byPts := s.net.byPts.(timer := None))), now)
    case FailFire => AfterFailPass(s.(net := s.net.(afterFail := s.net.afterFail.(timer := None))), now)
    case PtsTimer(channel, ms) => StartPts(s, channel, ms, now)
    case ChannelPts(ch, inited) => WithInited(s, ch, inited)
    case ChannelDone(ch, other, newPts, final, poll) => ChannelReply(s, ch, other, newPts, final, poll, now)
    case ChannelFail(ch) =>
      StartFailTimer(s.(net := s.net.(chanInFlight := s.net.chanInFlight - multiset{ch})), Some(ch), now)
  }

  ghost function Step(s: State, t: Timed): State {
    if Enabled(s, t.event, t.now) then Next(s, t.event, t.now) else s
  }

  ghost function Run(s: State, run: seq<Timed>): State {
    if run == [] then s else Step(Run(s, run[..|run| - 1]), run[|run| - 1])
  }
}
