/**
 * The sequencing and difference-scheduling state of the updates manager
 * (api_updates.cpp) as a value, and every one of its steps as a function.
 */
module UpdatesModel {
  import opened Common
  import opened FeedOrder

  type Time = nat      // milliseconds; zero means "no deadline", as in the source

  /** A container of updates as the server sends it. */
  datatype Updates =
    | Plain(end: nat, date: int, list: seq<Update>)
    | Combined(start: nat, end: nat, date: int, list: seq<Update>)
    | Short(date: int, update: Update)
    // A short message: is all its data loaded, and is it applied at once or queued by its pts?
    | ShortMessage(date: int, loaded: bool, ready: bool, effects: seq<Effect>)
    | TooLong
  {
    /** First sequence number of the container; zero when it is not sequenced. */
    function Start(): nat {
      match this
      case Plain(s, _, _) => s
      case Combined(s, _, _, _) => s
      case _ => 0
    }
  }

  /** One map of per-channel deadlines with the global one and the timer that serves them. */
  datatype Deadlines = Deadlines(channels: map<Channel, Time>, global: Time, timer: Option<Time>)

  datatype Applied = Applied(updates: Updates, atSeq: nat)

  /** What only the sequencing and the replies change. */
  datatype Core = Core(
    seqNo: nat, date: int, qts: int, pts: int,
    failTimeout: nat, channelTimeout: map<Channel, nat>, inited: set<Channel>,
    // History: is the first state request out, containers applied, global failures in a row, whether
    // the server ever answered "difference too long", and whether the first state request failed.
    stateInFlight: nat, log: seq<Applied>, fails: nat, tooLong: bool, stateFailed: bool)

  /** Containers that arrived too early, and the timer that waits for what is missing. */
  datatype Gap = Gap(buffer: map<nat, Updates>, timer: bool)

  /** Requests and deadlines. */
  datatype Net = Net(
    requesting: bool, byPts: Deadlines, afterFail: Deadlines, chanRequesting: set<Channel>,
    // History: difference requests in flight.
    diffInFlight: nat, chanInFlight: multiset<Channel>)

  /** Where fed updates come from. */
  datatype Source =
    | Applying(u: Updates)                               // applyUpdates
    | GroupCalls(u: Updates)                             // applyGroupCallParticipantUpdates
    | Difference(other: seq<Update>)                     // feedDifference
    | ChannelDifference(ch: Channel, other: seq<Update>) // feedChannelDifference

  /** One entry of the history: a feeding with what it handled and did, marks given, or numbers started anew. */
  datatype Deed =
    | Fed(source: Source, fed: seq<Update>, done: seq<Effect>)
    // The arguments of a call of setState, and whether the min-channel timer held the date back then.
    | Given(pts: int, date: int, qts: int, end: nat, held: bool)
    | NewNumbers

  datatype State = State(core: Core, gap: Gap, net: Net, minTimer: bool, past: seq<Deed>)

  datatype From = Unknown | PtsGapOrShortPoll | AfterFail

  const NO_DEADLINES := Deadlines(map[], 0, None)
  const EMPTY_GAP := Gap(map[], false)

  /** Right after construction: the state request is out and counts as requesting. */
  const INITIAL := State(
    Core(0, 0, -1, 0, 1, map[], {}, 1, [], 0, false, false),
    EMPTY_GAP,
    Net(true, NO_DEADLINES, NO_DEADLINES, {}, 0, multiset{}),
    false, [])

  // ---- Deadlines ----

  /** Every moment some pending deadline falls on. */
  ghost function Pending(d: Deadlines): set<Time> {
    d.channels.Values + (if d.global != 0 then {d.global} else {})
  }

  /** No lost wakeup: a pending deadline has a timer armed no later than it. */
  ghost predicate Covered(d: Deadlines) {
    forall t :: t in Pending(d) ==> d.timer.Some? && d.timer.value <= t
  }

  function Due(d: Deadlines, now: Time): set<Channel> {
    set ch | ch in d.channels && d.channels[ch] <= now
  }

  ghost function Rearm(d: Deadlines): Deadlines { d.(timer := Earliest(Pending(d))) }

  /** whenGetDiffChanged: the new deadlines and whether anything changed. */
  function WhenChanged(d: Deadlines, channel: Option<Channel>, ms: int, now: Time): (r: (Deadlines, bool)) {
    match channel
    case Some(ch) =>
      if ms <= 0 then
        if ch in d.channels then (d.(channels := d.channels - {ch}), true) else (d, false)
      else if ch in d.channels && d.channels[ch] <= now + ms then (d, false)
      else (d.(channels := d.channels[ch := now + ms]), true)
    case None =>
      if ms <= 0 then
        if d.global != 0 then (d.(global := 0), true) else (d, false)
      else if d.global == 0 || d.global > now + ms then (d.(global := now + ms), true)
      else (d, false)
  }

  // ---- Requests ----

  function GetDifference(s: State): State {
    var n := s.net.(byPts := s.net.byPts.(global := 0));
    if n.requesting then s.(net := n)
    else s.(gap := EMPTY_GAP,
            net := n.(afterFail := n.afterFail.(global := 0), requesting := true,
                      diffInFlight := n.diffInFlight + 1))
  }

  function GetChannelDifference(s: State, ch: Channel, from: From): State {
    s.(net := AskChannel(s.net, s.core.inited, ch, from))
  }

  function AskChannel(n: Net, inited: set<Channel>, ch: Channel, from: From): Net {
    var n1 := if from != PtsGapOrShortPoll
              then n.(byPts := n.byPts.(channels := n.byPts.channels - {ch})) else n;
    if ch !in inited || ch in n.chanRequesting then n1
    else
      var n2 := if from != AfterFail
                then n1.(afterFail := n1.afterFail.(channels := n1.afterFail.channels - {ch})) else n1;
      n2.(chanRequesting := n.chanRequesting + {ch}, chanInFlight := n.chanInFlight + multiset{ch})
  }

  /** What asking for the difference of every channel of a set amounts to, in any order. */
  function AskAll(n: Net, inited: set<Channel>, chs: set<Channel>, from: From): Net {
    var sent := chs * inited - n.chanRequesting;
    var n1 := if from != PtsGapOrShortPoll
              then n.(byPts := n.byPts.(channels := n.byPts.channels - chs)) else n;
    var n2 := if from != AfterFail
              then n1.(afterFail := n1.afterFail.(channels := n1.afterFail.channels - sent)) else n1;
    n2.(chanRequesting := n.chanRequesting + sent, chanInFlight := n.chanInFlight + multiset(sent))
  }

  ghost function ByPtsChannels(n: Net, inited: set<Channel>, now: Time): Net {
    var due := Due(n.byPts, now);
    var n1 := AskAll(n, inited, due, PtsGapOrShortPoll);
    n1.(byPts := Rearm(n1.byPts.(channels := n1.byPts.channels - due)))
  }

  /** getDifferenceByPts: requests what is due, forgets it and re-arms the timer. */
  ghost function ByPtsPass(s: State, now: Time): State {
    var due := s.net.byPts.global != 0 && s.net.byPts.global <= now;
    var s1 := if due then GetDifference(s) else s;
    s1.(net := ByPtsChannels(s1.net, s1.core.inited, now))
  }

  ghost function AfterFailChannels(n: Net, inited: set<Channel>, now: Time): Net {
    var due := Due(n.afterFail, now);
    var n1 := AskAll(n, inited, due, AfterFail);
    n1.(afterFail := Rearm(n1.afterFail.(channels := n1.afterFail.channels - due)))
  }

  /** getDifferenceAfterFail: the same for retries, dropping the requesting flag by force. */
  ghost function AfterFailPass(s: State, now: Time): State {
    var due := s.net.afterFail.global != 0 && s.net.afterFail.global <= now;
    var s1 := if due then GetDifference(s.(net := s.net.(requesting := false))) else s;
    s1.(net := AfterFailChannels(s1.net, s1.core.inited, now))
  }

  /** ptsWaiterStartTimerFor */
  ghost function StartPts(s: State, channel: Option<Channel>, ms: int, now: Time): State {
    var (d, changed) := WhenChanged(s.net.byPts, channel, ms, now);
    if changed then ByPtsPass(s.(net := s.net.(byPts := d)), now) else s
  }

  function Doubled(timeout: nat): nat { if timeout < 64 then timeout * 2 else timeout }

  function TimeoutOf(c: Core, channel: Option<Channel>): nat {
    match channel
    case None => c.failTimeout
    case Some(ch) => if ch in c.channelTimeout then c.channelTimeout[ch] else 1
  }

  function WithTimeout(c: Core, channel: Option<Channel>, timeout: nat): Core {
    match channel
    case None => c.(failTimeout := timeout)
    case Some(ch) => c.(channelTimeout := c.channelTimeout[ch := timeout])
  }

  /** failDifferenceStartTimerFor */
  ghost function StartFailTimer(s: State, channel: Option<Channel>, now: Time): State {
    var timeout := TimeoutOf(s.core, channel);
    var (d, changed) := WhenChanged(s.net.afterFail, channel, timeout * 1000, now);
    var s1 := if changed then AfterFailPass(s.(net := s.net.(afterFail := d)), now) else s;
    s1.(core := WithTimeout(s1.core, channel, Doubled(timeout)))
  }

  // ---- Feeding ----

  ghost function RunEffect(s: State, e: Effect, now: Time): State {
    match e
    case NeedDifference => if s.net.requesting then s else GetDifference(s)
    case MissingChannelData => if s.net.requesting then s else s.(minTimer := true)
    case UnknownChannel => s.(minTimer := true)
    case StartPtsTimer(channel, ms) => StartPts(s, channel, ms, now)
    case ChannelTooLong(ch) => GetChannelDifference(s, ch, Unknown)
  }

  // History: a feeding begins, an update is handled in it, an effect of it takes place.

  function Begun(s: State, source: Source): State { s.(past := s.past + [Fed(source, [], [])]) }

  function Handling(s: State, u: Update): State { s.(past := WithUpdate(s.past, u)) }

  function Doing(s: State, e: Effect): State { s.(past := WithEffect(s.past, e)) }

  function WithUpdate(past: seq<Deed>, u: Update): seq<Deed> {
    if past != [] && past[|past| - 1].Fed?
    then var d := past[|past| - 1]; past[..|past| - 1] + [d.(fed := d.fed + [u])]
    else past
  }

  function WithEffect(past: seq<Deed>, e: Effect): seq<Deed> {
    if past != [] && past[|past| - 1].Fed?
    then var d := past[|past| - 1]; past[..|past| - 1] + [d.(done := d.done + [e])]
    else past
  }

  ghost function RunEffects(s: State, es: seq<Effect>, now: Time): State
    decreases |es|
  {
    if es == [] then s else RunEffects(RunEffect(Doing(s, es[0]), es[0], now), es[1..], now)
  }

  /** feedUpdate */
  ghost function FeedOne(s: State, u: Update, now: Time): State { RunEffects(Handling(s, u), u.effects, now) }

  ghost function FeedAll(s: State, list: seq<Update>, now: Time): State
    decreases |list|
  {
    if list == [] then s else FeedAll(FeedOne(s, list[0], now), list[1..], now)
  }

  /** Feeding touches requests and deadlines; the gap buffer it can only clear, by a new request. */
  ghost predicate FeedFrame(s: State, t: State) {
    && t.core == s.core && (t.gap == s.gap || t.gap == EMPTY_GAP)
    && t.net.diffInFlight >= s.net.diffInFlight
    && (t.net.diffInFlight == s.net.diffInFlight ==> t.gap == s.gap)
  }

  lemma {:induction false} RunEffectsFrame(s: State, es: seq<Effect>, now: Time)
    ensures FeedFrame(s, RunEffects(s, es, now))
    decreases |es|
  {
    if es != [] {
      RunEffectsFrame(RunEffect(Doing(s, es[0]), es[0], now), es[1..], now);
    }
  }

  lemma FeedOneFrame(s: State, u: Update, now: Time)
    ensures FeedFrame(s, FeedOne(s, u, now))
  {
    RunEffectsFrame(Handling(s, u), u.effects, now);
  }

  lemma {:induction false} FeedAllFrame(s: State, list: seq<Update>, now: Time)
    ensures FeedFrame(s, FeedAll(s, list, now))
    decreases |list|
  {
    if list != [] {
      FeedOneFrame(s, list[0], now);
      FeedAllFrame(FeedOne(s, list[0], now), list[1..], now);
    }
  }

  // ---- Sequencing ----

  /** The least key of the gap buffer, the front of the source's sorted map. */
  ghost function FrontKey(buffer: map<nat, Updates>): (k: nat)
    requires buffer != map[]
    ensures k in buffer && forall j :: j in buffer ==> k <= j
  {
    assert buffer.Keys == {} ==> buffer == map[];
    Earliest(buffer.Keys).value
  }

  /** The marks setState moves: pts when given, date and qts only forward. */
  function Marks(c: Core, pts: int, date: int, qts: int, minTimer: bool): Core {
    c.(pts := if pts != 0 then pts else c.pts,
       date := if c.date < date && !minTimer then date else c.date,
       qts := if qts != 0 && c.qts < qts then qts else c.qts)
  }

  /** setState */
  ghost function SetState(s: State, pts: int, date: int, qts: int, end: nat, now: Time): (r: State)
    ensures |r.gap.buffer| <= |s.gap.buffer| && r.net.diffInFlight >= s.net.diffInFlight
    decreases |s.gap.buffer|, 1
  {
    var c := Marks(s.core, pts, date, qts, s.minTimer);
    var s1 := s.(core := c, past := s.past + [Given(pts, date, qts, end, s.minTimer)]);
    if end == 0 || end == c.seqNo then s1
    else Drain(s1.(core := c.(seqNo := end), gap := s.gap.(timer := false)), now)
  }

  /** The loop of setState: drop what is old, apply what is next, wait for what is further. */
  ghost function Drain(s: State, now: Time): (r: State)
    ensures |r.gap.buffer| <= |s.gap.buffer| && r.net.diffInFlight >= s.net.diffInFlight
    decreases |s.gap.buffer|, 0
  {
    if s.gap.buffer == map[] then s
    else
      var k := FrontKey(s.gap.buffer);
      if k > s.core.seqNo + 1 then s.(gap := s.gap.(timer := true))
      else
        var s1 := s.(gap := s.gap.(buffer := s.gap.buffer - {k}));
        assert s1.gap.buffer.Keys == s.gap.buffer.Keys - {k};
        if k == s.core.seqNo + 1 then Apply(s1, s.gap.buffer[k], now) else Drain(s1, now)
  }

  /** applyUpdates */
  ghost function Apply(s: State, u: Updates, now: Time): (r: State)
    ensures |r.gap.buffer| <= |s.gap.buffer| + 1 && r.net.diffInFlight >= s.net.diffInFlight
    ensures u.Start() <= s.core.seqNo + 1 ==> |r.gap.buffer| <= |s.gap.buffer|
    decreases |s.gap.buffer|, 3
  {
    match u
    case Plain(end, date, list) => ApplyContainer(s, u, end, date, list, now)
    case Combined(_, end, date, list) => ApplyContainer(s, u, end, date, list, now)
    case Short(date, update) =>
      FeedOneFrame(Begun(s, Applying(u)), update, now);
      var s1 := FeedOne(Begun(s, Applying(u)), update, now);
      SetState(s1, 0, date, s1.core.qts, s1.core.seqNo, now)
    case ShortMessage(date, loaded, ready, effects) =>
      if !loaded then GetDifference(s)
      else
        RunEffectsFrame(Begun(s, Applying(u)), effects, now);
        var s1 := RunEffects(Begun(s, Applying(u)), effects, now);
        if ready then SetState(s1, 0, date, s1.core.qts, s1.core.seqNo, now) else s1
    case TooLong => GetDifference(s)
  }

  /** The two container cases of applyUpdates, which differ only in where they start. */
  ghost function ApplyContainer(s: State, u: Updates, end: nat, date: int, list: seq<Update>, now: Time): (r: State)
    ensures |r.gap.buffer| <= |s.gap.buffer| + 1 && r.net.diffInFlight >= s.net.diffInFlight
    ensures u.Start() <= s.core.seqNo + 1 ==> |r.gap.buffer| <= |s.gap.buffer|
    decreases |s.gap.buffer|, 2
  {
    if u.Start() != 0 && u.Start() <= s.core.seqNo then s
    else if u.Start() != 0 && u.Start() > s.core.seqNo + 1 then
      s.(gap := Gap(Emplace(s.gap.buffer, u), true))
    else
      FeedAllFrame(Logged(s, u), VectorOrder(list, SkipNone), now);
      var s1 := FeedAll(Logged(s, u), VectorOrder(list, SkipNone), now);
      SetState(s1, 0, date, s1.core.qts, end, now)
  }

  function Emplace(buffer: map<nat, Updates>, u: Updates): (r: map<nat, Updates>)
    ensures |r| <= |buffer| + 1
  {
    if u.Start() in buffer then buffer else buffer[u.Start() := u]
  }

  function Logged(s: State, u: Updates): State {
    Begun(s.(core := s.core.(log := s.core.log + [Applied(u, s.core.seqNo)])), Applying(u))
  }
}
