/** What is fed and which marks are taken, over whole runs: the history of the updates manager. */
module UpdatesFeeds {
  import opened Common
  import opened FeedOrder
  import opened UpdatesModel
  import opened UpdatesRuns
  import Safety = UpdatesSafety

  // ---- What a history promises ----

  function AllEffects(list: seq<Update>): seq<Effect> {
    if list == [] then [] else list[0].effects + AllEffects(list[1..])
  }

  /** A feeding hands on what it should, in the right order, and every effect of that takes place. */
  ghost predicate RightFeed(d: Deed)
    requires d.Fed?
  {
    match d.source
    case Applying(Plain(_, _, list)) => FedAs(list, d.fed, InContainer, EVERYTHING) && d.done == AllEffects(d.fed)
    case Applying(Combined(_, _, _, list)) => FedAs(list, d.fed, InContainer, EVERYTHING) && d.done == AllEffects(d.fed)
    case Applying(Short(_, update)) => d.fed == [update] && d.done == update.effects
    case Applying(ShortMessage(_, loaded, _, effects)) => loaded && d.fed == [] && d.done == effects
    case Applying(TooLong) => false
    case GroupCalls(Plain(_, _, list)) => FedAs(list, d.fed, InContainer, CALLS) && d.done == AllEffects(d.fed)
    case GroupCalls(Combined(_, _, _, list)) => FedAs(list, d.fed, InContainer, CALLS) && d.done == AllEffects(d.fed)
    case GroupCalls(Short(_, update)) =>
      && d.fed == (if update.kind == GroupCallParticipants then [update] else [])
      && d.done == AllEffects(d.fed)
    case GroupCalls(_) => d.fed == [] && d.done == []
    case Difference(other) => FedAs(other, d.fed, InDifference, EVERYTHING) && d.done == AllEffects(d.fed)
    case ChannelDifference(_, other) => FedAs(other, d.fed, InDifference, EVERYTHING) && d.done == AllEffects(d.fed)
  }

  predicate OfContainer(d: Deed) {
    d.Fed? && d.source.Applying? && (d.source.u.Plain? || d.source.u.Combined?)
  }

  /** The containers that were fed, in order. */
  function Containers(past: seq<Deed>): seq<Updates> {
    if past == [] then []
    else
      Containers(past[..|past| - 1]) + (if OfContainer(past[|past| - 1]) then [past[|past| - 1].source.u] else [])
  }

  /** The containers that were applied, in order. */
  function Logs(log: seq<Applied>): seq<Updates> {
    seq(|log|, i requires 0 <= i < |log| => log[i].updates)
  }

  /** What is applied ends with marks, except for a message whose turn by its pts has not come. */
  predicate Open(d: Deed) {
    d.Fed? && d.source.Applying? && !(d.source.u.ShortMessage? && !d.source.u.ready)
  }

  /** The marks that end what was applied. */
  predicate Follows(d: Deed, g: Deed) {
    && g.Given? && g.pts == 0
    && d.Fed? && d.source.Applying?
    && match d.source.u
       case Plain(end, date, _) => g.end == end && g.date == date
       case Combined(_, end, date, _) => g.end == end && g.date == date
       case Short(date, _) => g.date == date
       case ShortMessage(date, _, _, _) => g.date == date
       case TooLong => false
  }

  ghost predicate Followed(past: seq<Deed>) {
    forall i :: 0 <= i < |past| - 1 && Open(past[i]) ==> Follows(past[i], past[i + 1])
  }

  ghost predicate Closed(past: seq<Deed>) { past == [] || !Open(past[|past| - 1]) }

  predicate Dates(past: seq<Deed>, i: int) { 0 <= i < |past| && past[i].Given? && !past[i].held }

  predicate Secrets(past: seq<Deed>, i: int) { 0 <= i < |past| && past[i].Given? && past[i].qts != 0 }

  predicate Points(past: seq<Deed>, i: int) { 0 <= i < |past| && past[i].Given? && past[i].pts != 0 }

  predicate Numbers(past: seq<Deed>, i: int) {
    0 <= i < |past| && (past[i].NewNumbers? || (past[i].Given? && past[i].end != 0))
  }

  /** The date is the greatest given while nothing held it back. */
  ghost predicate DateIs(date: int, past: seq<Deed>) {
    && date >= 0 && (forall i :: Dates(past, i) ==> past[i].date <= date)
    && (date == 0 || exists i :: Dates(past, i) && past[i].date == date)
  }

  /** The qts is the greatest given. */
  ghost predicate QtsIs(qts: int, past: seq<Deed>) {
    && qts >= -1 && (forall i :: Secrets(past, i) ==> past[i].qts <= qts)
    && (qts == -1 || exists i :: Secrets(past, i) && past[i].qts == qts)
  }

  ghost predicate LastPoints(past: seq<Deed>, i: int) {
    Points(past, i) && forall j :: Points(past, j) ==> j <= i
  }

  /** The pts of a state is the one given last. */
  ghost predicate PtsIs(pts: int, past: seq<Deed>) {
    && (forall i :: LastPoints(past, i) ==> pts == past[i].pts)
    && ((forall i :: !Points(past, i)) ==> pts == 0)
  }

  ghost predicate LastNumber(past: seq<Deed>, i: int) {
    Numbers(past, i) && forall j :: Numbers(past, j) ==> j <= i
  }

  /** The number is the one given last, unless numbers started anew since. */
  ghost predicate NumberIs(seqNo: nat, past: seq<Deed>) {
    && (forall i :: LastNumber(past, i) ==> seqNo == if past[i].Given? then past[i].end else 0)
    && ((forall i :: !Numbers(past, i)) ==> seqNo == 0)
  }

  ghost predicate Marked(c: Core, past: seq<Deed>) {
    DateIs(c.date, past) && QtsIs(c.qts, past) && PtsIs(c.pts, past) && NumberIs(c.seqNo, past)
  }

  ghost predicate AllRight(past: seq<Deed>) {
    forall i :: 0 <= i < |past| && past[i].Fed? ==> RightFeed(past[i])
  }

  ghost predicate Told(c: Core, past: seq<Deed>) {
    AllRight(past) && Containers(past) == Logs(c.log) && Marked(c, past) && Followed(past)
  }

  // ---- One more entry ----

  lemma ToldSame(c: Core, d: Core, past: seq<Deed>)
    requires Told(c, past)
    requires d.log == c.log && d.date == c.date && d.qts == c.qts && d.pts == c.pts && d.seqNo == c.seqNo
    ensures Told(d, past)
  {
  }

  lemma ContainersGrow(past: seq<Deed>, d: Deed)
    ensures Containers(past + [d]) == Containers(past) + (if OfContainer(d) then [d.source.u] else [])
  {
    assert (past + [d])[..|past|] == past;
  }

  lemma FollowedGrows(past: seq<Deed>, d: Deed)
    requires Followed(past) && (past != [] && Open(past[|past| - 1]) ==> Follows(past[|past| - 1], d))
    ensures Followed(past + [d])
  {
  }

  lemma FedMarks(c: Core, past: seq<Deed>, d: Deed)
    requires Marked(c, past) && d.Fed?
    ensures Marked(c, past + [d])
  {
    hide DateIs, QtsIs, PtsIs, NumberIs;
    SameDates(c.date, past, d);
    SameQts(c.qts, past, d);
    GivenPts(c.pts, past, d);
    GivenNumber(c.seqNo, past, d);
  }

  lemma SameDates(date: int, past: seq<Deed>, d: Deed)
    requires DateIs(date, past) && (d.Given? ==> d.held)
    ensures DateIs(date, past + [d])
  {
    var more := past + [d];
    assert forall i :: Dates(more, i) <==> Dates(past, i);
    if i :| Dates(past, i) && past[i].date == date {
      assert Dates(more, i) && more[i].date == date;
    }
  }

  lemma SameQts(qts: int, past: seq<Deed>, d: Deed)
    requires QtsIs(qts, past) && (d.Given? ==> d.qts == 0)
    ensures QtsIs(qts, past + [d])
  {
    var more := past + [d];
    assert forall i :: Secrets(more, i) <==> Secrets(past, i);
    if i :| Secrets(past, i) && past[i].qts == qts {
      assert Secrets(more, i) && more[i].qts == qts;
    }
  }

  lemma GivenDate(date: int, past: seq<Deed>, d: Deed)
    requires DateIs(date, past) && d.Given?
    ensures DateIs(if date < d.date && !d.held then d.date else date, past + [d])
  {
    var more := past + [d];
    if d.held {
      SameDates(date, past, d);
    } else {
      assert forall i :: Dates(more, i) <==> Dates(past, i) || i == |past|;
      if date < d.date {
        assert Dates(more, |past|);
      } else if i :| Dates(past, i) && past[i].date == date {
        assert Dates(more, i) && more[i].date == date;
      }
    }
  }

  lemma GivenQts(qts: int, past: seq<Deed>, d: Deed)
    requires QtsIs(qts, past) && d.Given?
    ensures QtsIs(if d.qts != 0 && qts < d.qts then d.qts else qts, past + [d])
  {
    var more := past + [d];
    if d.qts == 0 {
      SameQts(qts, past, d);
    } else {
      assert forall i :: Secrets(more, i) <==> Secrets(past, i) || i == |past|;
      if qts < d.qts {
        assert Secrets(more, |past|);
      } else if i :| Secrets(past, i) && past[i].qts == qts {
        assert Secrets(more, i) && more[i].qts == qts;
      }
    }
  }

  lemma GivenPts(pts: int, past: seq<Deed>, d: Deed)
    requires PtsIs(pts, past)
    ensures PtsIs(if d.Given? && d.pts != 0 then d.pts else pts, past + [d])
  {
    var more := past + [d];
    if d.Given? && d.pts != 0 {
      assert Points(more, |past|);
    } else {
      assert forall i :: Points(more, i) <==> Points(past, i);
      assert forall i :: LastPoints(more, i) ==> LastPoints(past, i);
    }
  }

  lemma GivenNumber(seqNo: nat, past: seq<Deed>, d: Deed)
    requires NumberIs(seqNo, past)
    ensures NumberIs(if d.NewNumbers? then 0 else if d.Given? && d.end != 0 then d.end else seqNo, past + [d])
  {
    var more := past + [d];
    if d.NewNumbers? || (d.Given? && d.end != 0) {
      assert Numbers(more, |past|);
    } else {
      assert forall i :: Numbers(more, i) <==> Numbers(past, i);
      assert forall i :: LastNumber(more, i) ==> LastNumber(past, i);
    }
  }

  /** A feeding is one entry more; that of a container goes with the log. */
  lemma ToldFed(c: Core, past: seq<Deed>, d: Deed, log: seq<Applied>)
    requires Told(c, past) && Closed(past) && d.Fed? && RightFeed(d)
    requires if OfContainer(d)
             then |log| == |c.log| + 1 && log[..|c.log|] == c.log && log[|c.log|].updates == d.source.u
             else log == c.log
    ensures Told(c.(log := log), past + [d])
  {
    hide RightFeed, Followed, Marked;
    ContainersGrow(past, d);
    FollowedGrows(past, d);
    FedMarks(c, past, d);
    LogsGrow(c.log, log, d);
    MarkedSame(c, c.(log := log), past + [d]);
    hide Containers, Logs, OfContainer;
  }

  lemma LogsGrow(log: seq<Applied>, more: seq<Applied>, d: Deed)
    requires if OfContainer(d) then |more| == |log| + 1 && more[..|log|] == log && more[|log|].updates == d.source.u
             else more == log
    ensures Logs(more) == Logs(log) + (if OfContainer(d) then [d.source.u] else [])
  {
    if OfContainer(d) {
      assert forall i :: 0 <= i < |log| ==> more[..|log|][i] == log[i];
    }
  }

  lemma MarkedSame(c: Core, d: Core, past: seq<Deed>)
    requires Marked(c, past)
    requires d.date == c.date && d.qts == c.qts && d.pts == c.pts && d.seqNo == c.seqNo
    ensures Marked(d, past)
  {
  }

  /** Marks are one entry more. */
  lemma ToldGiven(c: Core, past: seq<Deed>, d: Deed)
    requires Told(c, past) && d.Given?
    requires past != [] && Open(past[|past| - 1]) ==> Follows(past[|past| - 1], d)
    ensures var c1 := Marks(c, d.pts, d.date, d.qts, d.held);
            Told(if d.end != 0 then c1.(seqNo := d.end) else c1, past + [d]) && Closed(past + [d])
  {
    hide RightFeed, Containers, Followed, Marked;
    ContainersGrow(past, d);
    FollowedGrows(past, d);
    GivenMarks(c, past, d);
  }

  lemma GivenMarks(c: Core, past: seq<Deed>, d: Deed)
    requires Marked(c, past) && d.Given?
    ensures var c1 := Marks(c, d.pts, d.date, d.qts, d.held);
            Marked(if d.end != 0 then c1.(seqNo := d.end) else c1, past + [d])
  {
    hide DateIs, QtsIs, PtsIs, NumberIs;
    GivenDate(c.date, past, d);
    GivenQts(c.qts, past, d);
    GivenPts(c.pts, past, d);
    GivenNumber(c.seqNo, past, d);
  }

  lemma ToldNewNumbers(c: Core, past: seq<Deed>)
    requires Told(c, past) && Closed(past)
    ensures Told(c.(seqNo := 0), past + [NewNumbers])
  {
    hide RightFeed, Containers, Followed, Marked;
    ContainersGrow(past, NewNumbers);
    FollowedGrows(past, NewNumbers);
    NewMarks(c, past);
  }

  lemma NewMarks(c: Core, past: seq<Deed>)
    requires Marked(c, past)
    ensures Marked(c.(seqNo := 0), past + [NewNumbers])
  {
    hide DateIs, QtsIs, PtsIs, NumberIs;
    SameDates(c.date, past, NewNumbers);
    SameQts(c.qts, past, NewNumbers);
    GivenPts(c.pts, past, NewNumbers);
    GivenNumber(c.seqNo, past, NewNumbers);
  }

  // ---- Feeding writes one entry ----

  lemma EffectPast(s: State, e: Effect, now: Time)
    ensures RunEffect(s, e, now).past == s.past
  {
    hide ByPtsChannels, WhenChanged, AskChannel;
  }

  lemma {:induction false} EffectsPast(s: State, es: seq<Effect>, now: Time, before: seq<Deed>, d: Deed)
    requires s.past == before + [d] && d.Fed?
    ensures RunEffects(s, es, now).past == before + [d.(done := d.done + es)]
    decreases |es|
  {
    hide RunEffect;
    if es == [] {
      assert d.done + es == d.done;
    } else {
      var s1, d1 := Doing(s, es[0]), d.(done := d.done + [es[0]]);
      assert s.past[..|s.past| - 1] == before;
      EffectPast(s1, es[0], now);
      EffectsPast(RunEffect(s1, es[0], now), es[1..], now, before, d1);
      assert d1.done + es[1..] == d.done + es;
    }
  }

  /** An entry that has handled some more updates. */
  function Extended(d: Deed, list: seq<Update>): Deed
    requires d.Fed?
  {
    d.(fed := d.fed + list, done := d.done + AllEffects(list))
  }

  lemma ExtendedOne(d: Deed, list: seq<Update>)
    requires d.Fed? && list != []
    ensures Extended(Fed(d.source, d.fed + [list[0]], d.done + list[0].effects), list[1..]) == Extended(d, list)
  {
    assert d.fed + [list[0]] + list[1..] == d.fed + list;
  }

  lemma ExtendedNone(d: Deed)
    requires d.Fed?
    ensures Extended(d, []) == d
  {
    assert d.fed + [] == d.fed && d.done + [] == d.done;
  }

  lemma FeedOnePast(s: State, u: Update, now: Time, before: seq<Deed>, d: Deed)
    requires s.past == before + [d] && d.Fed?
    ensures FeedOne(s, u, now).past == before + [Fed(d.source, d.fed + [u], d.done + u.effects)]
  {
    hide RunEffects;
    assert s.past[..|s.past| - 1] == before;
    EffectsPast(Handling(s, u), u.effects, now, before, d.(fed := d.fed + [u]));
  }

  lemma {:induction false} FeedPast(s: State, list: seq<Update>, now: Time, before: seq<Deed>, d: Deed)
    requires s.past == before + [d] && d.Fed?
    ensures FeedAll(s, list, now).past == before + [Extended(d, list)]
    decreases |list|
  {
    hide FeedOne, Extended;
    if list == [] {
      ExtendedNone(d);
    } else {
      FeedOnePast(s, list[0], now, before, d);
      ExtendedOne(d, list);
      FeedPast(FeedOne(s, list[0], now), list[1..], now, before,
               Fed(d.source, d.fed + [list[0]], d.done + list[0].effects));
    }
  }

  lemma BegunPast(s: State, source: Source, list: seq<Update>, now: Time)
    ensures FeedAll(Begun(s, source), list, now).past == s.past + [Fed(source, list, AllEffects(list))]
  {
    FeedPast(Begun(s, source), list, now, s.past, Fed(source, [], []));
    assert [] + list == list && [] + AllEffects(list) == AllEffects(list);
  }

  lemma OnePast(s: State, source: Source, u: Update, now: Time)
    ensures FeedOne(Begun(s, source), u, now).past == s.past + [Fed(source, [u], u.effects)]
  {
    FeedOnePast(Begun(s, source), u, now, s.past, Fed(source, [], []));
    assert [] + [u] == [u] && [] + u.effects == u.effects;
  }

  lemma MessagePast(s: State, source: Source, es: seq<Effect>, now: Time)
    ensures RunEffects(Begun(s, source), es, now).past == s.past + [Fed(source, [], es)]
  {
    EffectsPast(Begun(s, source), es, now, s.past, Fed(source, [], []));
    assert [] + es == es;
  }

  // ---- Sequencing ----

  ghost predicate Story(s: State) { Told(s.core, s.past) && Closed(s.past) }

  /** The min-channel timer is not stopped and no request is forgotten. */
  ghost predicate Standing(s: State, t: State) {
    && (s.minTimer ==> t.minTimer) && (s.net.requesting ==> t.net.requesting)
    && s.net.chanRequesting <= t.net.chanRequesting
  }

  /** And the history goes on. */
  ghost predicate Later(s: State, t: State) { s.past <= t.past && Standing(s, t) }

  lemma {:induction false} SetStateTold(s: State, pts: int, date: int, qts: int, end: nat, now: Time)
    requires Told(s.core, s.past)
    requires var g := Given(pts, date, qts, end, s.minTimer);
             s.past != [] && Open(s.past[|s.past| - 1]) ==> Follows(s.past[|s.past| - 1], g)
    ensures var t := SetState(s, pts, date, qts, end, now);
            && Story(t) && Standing(s, t)
            && s.past + [Given(pts, date, qts, end, s.minTimer)] <= t.past
    decreases |s.gap.buffer|, 1
  {
    hide Told, Closed, Open, Follows;
    var g := Given(pts, date, qts, end, s.minTimer);
    ToldGiven(s.core, s.past, g);
    var c := Marks(s.core, pts, date, qts, s.minTimer);
    if end == 0 || end == c.seqNo {
      assert c.(seqNo := c.seqNo) == c;
    } else {
      DrainTold(s.(core := c.(seqNo := end), gap := s.gap.(timer := false), past := s.past + [g]), now);
    }
  }

  lemma {:induction false} DrainTold(s: State, now: Time)
    requires Story(s)
    ensures Story(Drain(s, now)) && Later(s, Drain(s, now))
    decreases |s.gap.buffer|, 0
  {
    hide Told, Closed, Apply;
    if s.gap.buffer != map[] {
      var k := FrontKey(s.gap.buffer);
      if k <= s.core.seqNo + 1 {
        var s1 := s.(gap := s.gap.(buffer := s.gap.buffer - {k}));
        assert s1.gap.buffer.Keys == s.gap.buffer.Keys - {k};
        if k == s.core.seqNo + 1 {
          ApplyTold(s1, s.gap.buffer[k], now);
        } else {
          DrainTold(s1, now);
        }
      }
    }
  }

  /** What an arrival begins to feed: the updates themselves, unless they come again or too early. */
  function Begins(s: State, u: Updates): Option<Source> {
    match u
    case TooLong => None
    case Short(_, _) => Some(Applying(u))
    case ShortMessage(_, loaded, _, _) => if loaded then Some(Applying(u)) else None
    case _ => if u.Start() == 0 || u.Start() == s.core.seqNo + 1 then Some(Applying(u)) else None
  }

  /** The first new entry is the feeding from that source; without one there is no new entry. */
  ghost predicate StartsWith(s: State, t: State, source: Option<Source>) {
    && s.past <= t.past
    && (source.None? ==> t.past == s.past)
    && (source.Some? ==> |s.past| < |t.past| && t.past[|s.past|].Fed? && t.past[|s.past|].source == source.value)
  }

  lemma {:induction false} ApplyTold(s: State, u: Updates, now: Time)
    requires Story(s)
    ensures var t := Apply(s, u, now);
            Story(t) && Later(s, t) && StartsWith(s, t, Begins(s, u))
    decreases |s.gap.buffer|, 3
  {
    hide Story, SetState, FeedOne, RunEffects, ApplyContainer;
    match u
    case Plain(end, date, list) => ContainerTold(s, u, end, date, list, now);
    case Combined(_, end, date, list) => ContainerTold(s, u, end, date, list, now);
    case Short(date, update) => ShortTold(s, u, now);
    case ShortMessage(date, loaded, ready, effects) =>
      if loaded {
        MessageTold(s, u, now);
      } else {
        AskTold(s);
      }
    case TooLong => AskTold(s);
  }

  lemma AskTold(s: State)
    requires Story(s)
    ensures Story(GetDifference(s)) && Later(s, GetDifference(s)) && GetDifference(s).past == s.past
  {
  }

  lemma {:induction false} ShortTold(s: State, u: Updates, now: Time)
    requires Story(s) && u.Short?
    ensures var t := Apply(s, u, now);
            Story(t) && Later(s, t) && StartsWith(s, t, Begins(s, u))
    decreases |s.gap.buffer|, 2
  {
    hide Told, SetState, FeedOne;
    var s0 := Begun(s, Applying(u));
    var d := Fed(Applying(u), [u.update], u.update.effects);
    OnePast(s, Applying(u), u.update, now);
    FeedOneFrame(s0, u.update, now);
    FeedTimer(s0, [u.update], now);
    var s1 := FeedOne(s0, u.update, now);
    assert FeedAll(s0, [u.update], now) == s1;
    ToldFed(s.core, s.past, d, s.core.log);
    SetStateTold(s1, 0, u.date, s1.core.qts, s1.core.seqNo, now);
  }

  lemma {:induction false} MessageTold(s: State, u: Updates, now: Time)
    requires Story(s) && u.ShortMessage? && u.loaded
    ensures var t := Apply(s, u, now);
            Story(t) && Later(s, t) && StartsWith(s, t, Begins(s, u))
    decreases |s.gap.buffer|, 2
  {
    hide Told, SetState, RunEffects;
    var s0 := Begun(s, Applying(u));
    var d := Fed(Applying(u), [], u.effects);
    MessagePast(s, Applying(u), u.effects, now);
    RunEffectsFrame(s0, u.effects, now);
    EffectsTimer(s0, u.effects, now);
    var s1 := RunEffects(s0, u.effects, now);
    ToldFed(s.core, s.past, d, s.core.log);
    if u.ready {
      SetStateTold(s1, 0, u.date, s1.core.qts, s1.core.seqNo, now);
    }
  }

  lemma {:induction false} ContainerTold(s: State, u: Updates, end: nat, date: int, list: seq<Update>, now: Time)
    requires Story(s) && (u == Plain(end, date, list) || (u.Combined? && u == Combined(u.start, end, date, list)))
    ensures var t := ApplyContainer(s, u, end, date, list, now);
            Story(t) && Later(s, t) && StartsWith(s, t, Begins(s, u))
    decreases |s.gap.buffer|, 2
  {
    hide Told, SetState, FeedAll, VectorOrder;
    if u.Start() == 0 || u.Start() == s.core.seqNo + 1 {
      var s0 := Logged(s, u);
      var fed := VectorOrder(list, SkipNone);
      var d := Fed(Applying(u), fed, AllEffects(fed));
      BegunPast(s.(core := s0.core), Applying(u), fed, now);
      FeedAllFrame(s0, fed, now);
      FeedTimer(s0, fed, now);
      var s1 := FeedAll(s0, fed, now);
      ContainerFed(list);
      ToldFed(s.core, s.past, d, s0.core.log);
      SetStateTold(s1, 0, date, s1.core.qts, end, now);
    }
  }

  // ---- Every effect takes place ----

  /** What effects leave behind; with a request out, only contents read in an unknown channel start the min timer. */
  ghost predicate Took(s: State, es: seq<Effect>, t: State) {
    && (s.minTimer || UnknownChannel in es ==> t.minTimer)
    && (s.net.requesting ==> t.net.requesting)
    && (s.net.requesting || MissingChannelData !in es ==> (t.minTimer <==> s.minTimer || UnknownChannel in es))
    && (MissingChannelData in es ==> t.minTimer || t.net.requesting)
    && (NeedDifference in es ==> t.net.requesting)
    && s.net.chanRequesting <= t.net.chanRequesting && t.core.inited == s.core.inited
    && (forall ch :: ChannelTooLong(ch) in es && ch in s.core.inited ==> ch in t.net.chanRequesting)
  }

  lemma EffectTimer(s: State, e: Effect, now: Time)
    ensures Took(s, [e], RunEffect(s, e, now))
  {
    hide StartPts;
    match e
    case StartPtsTimer(channel, ms) => StartPtsTimerKept(s, channel, ms, now);
    case _ =>
  }

  lemma StartPtsTimerKept(s: State, channel: Option<Channel>, ms: int, now: Time)
    ensures var t := StartPts(s, channel, ms, now);
            && t.minTimer == s.minTimer && (s.net.requesting ==> t.net.requesting)
            && s.net.chanRequesting <= t.net.chanRequesting && t.core.inited == s.core.inited
  {
    hide Rearm, WhenChanged;
  }

  lemma TimerOn(s: State, a: seq<Effect>, t: State, b: seq<Effect>, u: State)
    requires Took(s, a, t) && Took(t, b, u)
    ensures Took(s, a + b, u)
  {
  }

  lemma {:induction false} EffectsTimer(s: State, es: seq<Effect>, now: Time)
    ensures Took(s, es, RunEffects(s, es, now))
    decreases |es|
  {
    if es != [] {
      hide Took, RunEffect;
      var s1 := Doing(s, es[0]);
      var s2 := RunEffect(s1, es[0], now);
      EffectTimer(s1, es[0], now);
      EffectsTimer(s2, es[1..], now);
      TimerOn(s1, [es[0]], s2, es[1..], RunEffects(s2, es[1..], now));
      assert [es[0]] + es[1..] == es;
      SameTimer(s, s1, es, RunEffects(s, es, now));
    }
  }

  lemma SameTimer(s: State, s1: State, es: seq<Effect>, t: State)
    requires s1.minTimer == s.minTimer && s1.net == s.net && s1.core == s.core && Took(s1, es, t)
    ensures Took(s, es, t)
  {
  }

  lemma {:induction false} FeedTimer(s: State, list: seq<Update>, now: Time)
    ensures Took(s, AllEffects(list), FeedAll(s, list, now))
    decreases |list|
  {
    if list != [] {
      hide Took, RunEffects;
      var u := list[0];
      EffectsTimer(Handling(s, u), u.effects, now);
      var s1 := FeedOne(s, u, now);
      FeedTimer(s1, list[1..], now);
      TimerOn(Handling(s, u), u.effects, s1, AllEffects(list[1..]), FeedAll(s, list, now));
      SameTimer(s, Handling(s, u), AllEffects(list), FeedAll(s, list, now));
    }
  }

  // ---- Events and runs ----

  /** What an event writes first; what is not mentioned writes nothing. */
  ghost predicate Writes(s: State, e: Event, t: State) {
    && s.past <= t.past
    && match e
       case Push(u, forceLogout) =>
         StartsWith(s, t, if !s.net.requesting || forceLogout then Begins(s, u) else Some(GroupCalls(u)))
       case ApiResult(u) => StartsWith(s, t, Begins(s, u))
       case StateReply(pts, date, qts, end) => s.past + [Given(pts, date, qts, end, s.minTimer)] <= t.past
       case DiffEmpty(date, end) =>
         s.past + [Given(s.core.pts, date, s.core.qts, end, s.minTimer)] <= t.past
       case DiffSlice(other, pts, date, qts, end) => FedThenGiven(s, t, other, pts, date, qts, end)
       case DiffFull(other, pts, date, qts, end) => FedThenGiven(s, t, other, pts, date, qts, end)
       case ChannelDone(ch, other, _, _, _) =>
         StartsWith(s, t, Some(ChannelDifference(ch, other))) && |t.past| == |s.past| + 1
       case NewSession => t.past == s.past + [NewNumbers]
       case _ => t.past == s.past
  }

  /** A difference is fed, and then its marks are given: the date is held back if the feeding has the timer running. */
  ghost predicate FedThenGiven(s: State, t: State, other: seq<Update>, pts: int, date: int, qts: int, end: nat) {
    && StartsWith(s, t, Some(Difference(other)))
    && |s.past| + 1 < |t.past|
    && t.past[|s.past| + 1]
       == Given(pts, date, qts, end, s.minTimer || UnknownChannel in t.past[|s.past|].done)
  }

  lemma DifferenceTold(s: State, other: seq<Update>, pts: int, date: int, qts: int, end: nat, now: Time)
    requires Story(s) && s.net.requesting
    ensures var t := SetState(FeedBoth(s, Difference(other), other, now), pts, date, qts, end, now);
            Story(t) && FedThenGiven(s, t, other, pts, date, qts, end)
  {
    hide Told, SetState, FeedAll, VectorOrder, Pick;
    var list := Pick(other, IDS) + VectorOrder(other, SkipMessageIds);
    var d := Fed(Difference(other), list, AllEffects(list));
    BegunPast(s, Difference(other), list, now);
    DifferenceFed(other);
    ToldFed(s.core, s.past, d, s.core.log);
    FeedAllFrame(Begun(s, Difference(other)), list, now);
    FeedTimer(Begun(s, Difference(other)), list, now);
    SetStateTold(FeedBoth(s, Difference(other), other, now), pts, date, qts, end, now);
  }

  lemma ReplyTold(s: State, e: Event, now: Time)
    requires Story(s) && Enabled(s, e, now) && (s.net.diffInFlight > 0 ==> s.net.requesting)
    requires e.StateReply? || e.DiffEmpty? || e.DiffSlice? || e.DiffFull?
    ensures Story(Next(s, e, now)) && Writes(s, e, Next(s, e, now))
  {
    hide Told, SetState, FeedBoth;
    ToldSame(s.core, Succeeded(s).core, s.past);
    match e
    case StateReply(pts, date, qts, end) =>
      SetStateTold(s, pts, date, qts, end, now);
      ToldSame(SetState(s, pts, date, qts, end, now).core, Next(s, e, now).core, Next(s, e, now).past);
    case DiffEmpty(date, end) => SetStateTold(Succeeded(s), s.core.pts, date, s.core.qts, end, now);
    case DiffSlice(other, pts, date, qts, end) => DifferenceTold(Succeeded(s), other, pts, date, qts, end, now);
    case DiffFull(other, pts, date, qts, end) => DifferenceTold(Succeeded(s), other, pts, date, qts, end, now);
  }

  lemma GroupCallsTold(s: State, u: Updates, now: Time)
    requires Story(s)
    ensures var t := ApplyGroupCalls(s, u, now);
            Story(t) && StartsWith(s, t, Some(GroupCalls(u)))
  {
    hide Told, FeedAll, FeedOne, VectorOrder;
    var s0 := Begun(s, GroupCalls(u));
    match u
    case Plain(_, _, list) => CallsTold(s, u, list, now);
    case Combined(_, _, _, list) => CallsTold(s, u, list, now);
    case Short(_, update) =>
      if update.kind == GroupCallParticipants {
        OnePast(s, GroupCalls(u), update, now);
        FeedOneFrame(s0, update, now);
        assert AllEffects([update]) == update.effects by { OneIsAll(update); }
        ToldFed(s.core, s.past, Fed(GroupCalls(u), [update], update.effects), s.core.log);
      } else {
        ToldFed(s.core, s.past, Fed(GroupCalls(u), [], []), s.core.log);
      }
    case _ => ToldFed(s.core, s.past, Fed(GroupCalls(u), [], []), s.core.log);
  }

  lemma OneIsAll(u: Update)
    ensures AllEffects([u]) == u.effects
  {
    assert [u][1..] == [] && u.effects + [] == u.effects;
  }

  lemma CallsTold(s: State, u: Updates, list: seq<Update>, now: Time)
    requires Story(s) && (u.Plain? || u.Combined?) && u.list == list
    ensures var t := FeedAll(Begun(s, GroupCalls(u)), VectorOrder(list, SkipExceptGroupCallParticipants), now);
            Story(t) && StartsWith(s, t, Some(GroupCalls(u)))
  {
    hide Told, FeedAll, VectorOrder;
    var fed := VectorOrder(list, SkipExceptGroupCallParticipants);
    BegunPast(s, GroupCalls(u), fed, now);
    FeedAllFrame(Begun(s, GroupCalls(u)), fed, now);
    CallsFed(list);
    ToldFed(s.core, s.past, Fed(GroupCalls(u), fed, AllEffects(fed)), s.core.log);
  }

  lemma ChannelDoneTold(s: State, e: Event, now: Time)
    requires Story(s) && e.ChannelDone?
    ensures Story(Next(s, e, now)) && Writes(s, e, Next(s, e, now))
  {
    hide Told, FeedBoth, StartPts, AskChannel, ReleaseChannel;
    var s0 := ForgetTimeout(s, e.ch);
    ToldSame(s.core, s0.core, s.past);
    ChannelFed(s0, e.ch, e.other, now);
    var s1 := FeedBoth(s0, ChannelDifference(e.ch, e.other), e.other, now);
    ReleaseTells(s1, e.ch, e.newPts);
    var s2 := ReleaseChannel(s1, e.ch, e.newPts);
    if e.poll.Some? {
      StartPtsTells(s2, Some(e.ch), e.poll.value, now);
    }
    ToldSame(s1.core, Next(s, e, now).core, Next(s, e, now).past);
  }

  lemma ChannelFed(s: State, ch: Channel, other: seq<Update>, now: Time)
    requires Story(s)
    ensures var t := FeedBoth(s, ChannelDifference(ch, other), other, now);
            && Story(t) && StartsWith(s, t, Some(ChannelDifference(ch, other))) && |t.past| == |s.past| + 1
            && t.core == s.core
  {
    hide Told, FeedAll, VectorOrder, Pick;
    var source := ChannelDifference(ch, other);
    var list := Pick(other, IDS) + VectorOrder(other, SkipMessageIds);
    BegunPast(s, source, list, now);
    FeedAllFrame(Begun(s, source), list, now);
    DifferenceFed(other);
    ToldFed(s.core, s.past, Fed(source, list, AllEffects(list)), s.core.log);
  }

  /** Nothing the history speaks of has changed. */
  predicate Untold(s: State, t: State) {
    && t.past == s.past && t.core.log == s.core.log && t.core.date == s.core.date
    && t.core.qts == s.core.qts && t.core.pts == s.core.pts && t.core.seqNo == s.core.seqNo
  }

  lemma ReleaseTells(s: State, ch: Channel, newPts: Option<nat>)
    ensures Untold(s, ReleaseChannel(s, ch, newPts))
  {
  }

  lemma StartPtsTells(s: State, channel: Option<Channel>, ms: int, now: Time)
    ensures Untold(s, StartPts(s, channel, ms, now))
  {
    hide ByPtsChannels, WhenChanged;
  }

  lemma StartFailTells(s: State, channel: Option<Channel>, now: Time)
    ensures Untold(s, StartFailTimer(s, channel, now))
  {
    hide AfterFailChannels, WhenChanged;
  }

  /** Timers, failures and requests from outside write nothing, and a new session its mark. */
  lemma QuietTold(s: State, e: Event, now: Time)
    requires Story(s)
    requires !e.Push? && !e.ApiResult? && !e.StateReply? && !e.DiffEmpty? && !e.DiffSlice? && !e.DiffFull?
             && !e.ChannelDone?
    ensures Story(Next(s, e, now)) && Writes(s, e, Next(s, e, now))
  {
    hide Told, ByPtsChannels, AfterFailChannels, StartPts, StartFailTimer;
    match e
    case NewSession => ToldNewNumbers(s.core, s.past);
    case PtsTimer(channel, ms) =>
      StartPtsTells(s, channel, ms, now);
      ToldSame(s.core, Next(s, e, now).core, s.past);
    case DiffFail => FailTold(s, e, now);
    case ChannelFail(_) => FailTold(s, e, now);
    case _ => ToldSame(s.core, Next(s, e, now).core, s.past);
  }

  lemma FailTold(s: State, e: Event, now: Time)
    requires Story(s) && (e.DiffFail? || e.ChannelFail?)
    ensures Story(Next(s, e, now)) && Next(s, e, now).past == s.past
  {
    hide Told, StartFailTimer;
    match e
    case DiffFail =>
      var s1 := s.(net := s.net.(diffInFlight := Less(s.net.diffInFlight)),
                   core := s.core.(fails := s.core.fails + 1));
      StartFailTells(s1, None, now);
      ToldSame(s.core, Next(s, e, now).core, s.past);
    case ChannelFail(ch) =>
      StartFailTells(s.(net := s.net.(chanInFlight := s.net.chanInFlight - multiset{ch})), Some(ch), now);
      ToldSame(s.core, Next(s, e, now).core, s.past);
  }

  lemma NextTold(s: State, e: Event, now: Time)
    requires Story(s) && Enabled(s, e, now) && (s.net.diffInFlight > 0 ==> s.net.requesting)
    ensures Story(Next(s, e, now)) && Writes(s, e, Next(s, e, now))
  {
    hide Story, Apply, ApplyGroupCalls;
    match e
    case Push(u, forceLogout) =>
      ApplyTold(s, u, now);
      GroupCallsTold(s, u, now);
    case ApiResult(u) => ApplyTold(s, u, now);
    case StateReply(_, _, _, _) => ReplyTold(s, e, now);
    case DiffEmpty(_, _) => ReplyTold(s, e, now);
    case DiffSlice(_, _, _, _, _) => ReplyTold(s, e, now);
    case DiffFull(_, _, _, _, _) => ReplyTold(s, e, now);
    case ChannelDone(_, _, _, _, _) => ChannelDoneTold(s, e, now);
    case _ => QuietTold(s, e, now);
  }

  lemma InitialTold()
    ensures Story(INITIAL)
  {
  }

  lemma {:induction false} RunTold(run: seq<Timed>)
    ensures Story(Run(INITIAL, run))
  {
    if run == [] {
      InitialTold();
    } else {
      hide Story, Next, Enabled;
      var before, u := run[..|run| - 1], run[|run| - 1];
      RunTold(before);
      RequestingOut(before);
      if Enabled(Run(INITIAL, before), u.event, u.now) {
        NextTold(Run(INITIAL, before), u.event, u.now);
      }
    }
  }

  lemma RequestingOut(run: seq<Timed>)
    ensures var s := Run(INITIAL, run); s.net.diffInFlight > 0 ==> s.net.requesting
  {
    hide Run;
    Safety.SingleFlight(run);
  }

  /**
   * Whatever is fed in a run: all that should be is handed on, each update once, group by group in its
   * own order, every effect of it takes place, the containers fed are those of the log, one after the
   * other, and each is followed by its own marks.
   */
  lemma FedInEveryRun(run: seq<Timed>)
    ensures var s := Run(INITIAL, run);
            && (forall i :: 0 <= i < |s.past| && s.past[i].Fed? ==> RightFeed(s.past[i]))
            && Containers(s.past) == Logs(s.core.log)
            && (forall i :: 0 <= i < |s.past| && Open(s.past[i]) ==>
                  i + 1 < |s.past| && Follows(s.past[i], s.past[i + 1]))
  {
    hide Run, RightFeed, Marked;
    RunTold(run);
  }

  /** In every run the marks are what was given: the greatest date not held back, the greatest qts, the last pts. */
  lemma MarksInEveryRun(run: seq<Timed>)
    ensures var s := Run(INITIAL, run);
            && DateIs(s.core.date, s.past) && QtsIs(s.core.qts, s.past)
            && PtsIs(s.core.pts, s.past) && NumberIs(s.core.seqNo, s.past)
  {
    hide Run, RightFeed, DateIs, QtsIs, PtsIs, NumberIs;
    RunTold(run);
  }

  /** In every run an event writes what it brings. */
  lemma WritesInEveryRun(run: seq<Timed>, e: Event, now: Time)
    requires Enabled(Run(INITIAL, run), e, now)
    ensures Writes(Run(INITIAL, run), e, Next(Run(INITIAL, run), e, now))
  {
    hide Run, Next, Story, Writes;
    RunTold(run);
    RequestingOut(run);
    NextTold(Run(INITIAL, run), e, now);
  }

  // ---- What was fed takes effect ----

  /** The entry an applied arrival writes, and the state right before its marks. */
  lemma AppliedEntry(s: State, u: Updates, now: Time) returns (d: Deed, s1: State)
    requires Story(s) && Begins(s, u).Some?
    ensures d.Fed? && s1.past == s.past + [d] && Took(s, d.done, s1) && Told(s1.core, s1.past) && !u.TooLong?
    ensures s1.core == s.core.(log := s1.core.log) && (s1.gap == s.gap || s1.gap == EMPTY_GAP)
    ensures u.ShortMessage? && !u.ready ==> Apply(s, u, now) == s1
    ensures !(u.ShortMessage? && !u.ready) ==>
              && var end := if u.Plain? || u.Combined? then u.end else s1.core.seqNo;
              && Apply(s, u, now) == SetState(s1, 0, u.date, s1.core.qts, end, now)
              && Follows(d, Given(0, u.date, s1.core.qts, end, s1.minTimer))
  {
    hide SetState, FeedAll, RunEffects, VectorOrder, Took, Told;
    match u
    case Short(date, update) =>
      var s0 := Begun(s, Applying(u));
      d, s1 := Fed(Applying(u), [update], update.effects), FeedOne(s0, update, now);
      OnePast(s, Applying(u), update, now);
      FeedOneFrame(s0, update, now);
      EffectsTimer(Handling(s0, update), update.effects, now);
      SameTimer(s, Handling(s0, update), update.effects, s1);
      ToldFed(s.core, s.past, d, s.core.log);
    case ShortMessage(date, loaded, ready, effects) =>
      var s0 := Begun(s, Applying(u));
      d, s1 := Fed(Applying(u), [], effects), RunEffects(s0, effects, now);
      MessagePast(s, Applying(u), effects, now);
      RunEffectsFrame(s0, effects, now);
      EffectsTimer(s0, effects, now);
      SameTimer(s, s0, effects, s1);
      ToldFed(s.core, s.past, d, s.core.log);
    case Plain(_, _, list) => d, s1 := ContainerEntry(s, u, list, now);
    case Combined(_, _, _, list) => d, s1 := ContainerEntry(s, u, list, now);
  }

  lemma ContainerEntry(s: State, u: Updates, list: seq<Update>, now: Time) returns (d: Deed, s1: State)
    requires Story(s) && Begins(s, u).Some? && (u.Plain? || u.Combined?) && u.list == list
    ensures d.Fed? && d.source == Applying(u) && s1.past == s.past + [d]
    ensures Took(s, d.done, s1) && Told(s1.core, s1.past)
    ensures s1.core == s.core.(log := s1.core.log) && (s1.gap == s.gap || s1.gap == EMPTY_GAP)
    ensures Apply(s, u, now) == SetState(s1, 0, u.date, s1.core.qts, u.end, now)
  {
    hide SetState, FeedAll, VectorOrder, Took, Told;
    var fed := VectorOrder(list, SkipNone);
    var s0 := Logged(s, u);
    d, s1 := Fed(Applying(u), fed, AllEffects(fed)), FeedAll(s0, fed, now);
    BegunPast(s.(core := s0.core), Applying(u), fed, now);
    FeedAllFrame(s0, fed, now);
    FeedTimer(s0, fed, now);
    ContainerFed(list);
    ToldFed(s.core, s.past, d, s0.core.log);
    assert Took(s, AllEffects(fed), s1) by { LoggedTook(s, u, AllEffects(fed), s1); }
  }

  lemma LoggedTook(s: State, u: Updates, es: seq<Effect>, t: State)
    requires Took(Logged(s, u), es, t)
    ensures Took(s, es, t)
  {
  }

  /**
   * What an applied container, short update or message brings takes effect: missing data has a difference
   * requested, unknown channels hold the date back, channels too far behind are asked for.
   */
  lemma AppliedTakes(run: seq<Timed>, u: Updates, now: Time)
    requires Begins(Run(INITIAL, run), u).Some?
    ensures var s := Run(INITIAL, run);
            var t := Apply(s, u, now);
            && |s.past| < |t.past| && t.past[|s.past|].Fed?
            && var done := t.past[|s.past|].done;
            && (NeedDifference in done ==> t.net.requesting)
            && (UnknownChannel in done ==> t.minTimer)
            && (MissingChannelData in done ==> t.minTimer || t.net.requesting)
            && (forall ch :: ChannelTooLong(ch) in done && ch in s.core.inited ==> ch in t.net.chanRequesting)
  {
    hide Run, SetState, Apply, Begins, Told, Follows;
    var s := Run(INITIAL, run);
    RunTold(run);
    var d, s1 := AppliedEntry(s, u, now);
    assert s1.past[|s.past|] == d;
    if !(u.ShortMessage? && !u.ready) {
      var end := if u.Plain? || u.Combined? then u.end else s1.core.seqNo;
      SetStateTold(s1, 0, u.date, s1.core.qts, end, now);
    }
  }

  /** A message whose turn by its pts has not come is fed, and that is all: no marks, no number. */
  lemma UnreadyOnlyFeeds(s: State, u: Updates, now: Time)
    requires Story(s) && u.ShortMessage? && u.loaded && !u.ready
    ensures var t := Apply(s, u, now);
            t.core == s.core && t.past == s.past + [Fed(Applying(u), [], u.effects)]
  {
    hide RunEffects;
    MessagePast(s, Applying(u), u.effects, now);
    RunEffectsFrame(Begun(s, Applying(u)), u.effects, now);
  }
}
