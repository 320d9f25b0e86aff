/** The web-page part of the API wrapper, updated in place, proved to take the steps of the model. */
module WebPagesManager {
  import opened Common
  import opened WebPages

  /** A channel's place among the requests of a pass, and its messages. */
  datatype Group = Group(index: nat, ids: seq<MsgId>)

  type Groups = map<Channel, Group>

  /** The messages collected for one channel, or for none. */
  function Collected(ids: seq<MsgId>, groups: Groups, channel: Option<Channel>): seq<MsgId> {
    match channel
    case None => ids
    case Some(c) => if c in groups then groups[c].ids else []
  }

  /** The groups are those of the first n pages. */
  ghost predicate GroupsOf(pending: seq<Entry>, till: map<Page, int>, v: View, n: nat, ids: seq<MsgId>, groups: Groups)
    requires n <= |pending|
  {
    && (forall c {:trigger Collected(ids, groups, c)} :: Collected(ids, groups, c) == Wanted(pending, till, v, c, n))
    && GroupsOk(groups)
  }

  /** Every channel has a place of its own. */
  predicate GroupsOk(groups: Groups) {
    && (forall c :: c in groups ==> groups[c].ids != [] && groups[c].index < |groups|)
    && (forall c, d :: c in groups && d in groups && groups[c].index == groups[d].index ==> c == d)
  }

  predicate Below(flying: map<int, Sent>, next: int) { forall r :: r in flying ==> r < next }

  /** The requests sent so far, each at its channel's place. */
  predicate ByIndex(groups: Groups, todo: set<Channel>, who: map<Option<Channel>, int>, byIndex: seq<int>) {
    forall c :: c in groups && c !in todo ==>
      Some(c) in who && groups[c].index < |byIndex| && byIndex[groups[c].index] == who[Some(c)]
  }

  lemma ByIndexStep(groups: Groups, todo: set<Channel>, who: map<Option<Channel>, int>, byIndex: seq<int>,
                    c: Channel, r: int)
    requires GroupsOk(groups) && ByIndex(groups, todo, who, byIndex) && c in groups && |byIndex| == |groups|
    ensures ByIndex(groups, todo - {c}, who[Some(c) := r], byIndex[groups[c].index := r])
  {
  }

  /** The placeholder of a channel's request. */
  function Mark(index: nat): int { -2 - index }

  function MarkOf(item: Item, groups: Groups): int {
    match item.channel
    case None => -1
    case Some(c) => if c in groups then Mark(groups[c].index) else 0
  }

  /** What a page's entry is marked with once its message is collected. */
  predicate Marked(e: Entry, till: map<Page, int>, v: View, groups: Groups, f: Entry) {
    if !Asks(e, till, v) then f == e
    else match v.items[e.page].channel
      case None => f == Entry(e.page, -1)
      case Some(c) => c in groups && f == Entry(e.page, Mark(groups[c].index))
  }

  /** One message more, in its channel's group; a new channel takes the next index. */
  predicate Added(ids: seq<MsgId>, groups: Groups, item: Item, ids1: seq<MsgId>, groups1: Groups) {
    match item.channel
    case None => ids1 == ids + [item.id] && groups1 == groups
    case Some(c) =>
      && ids1 == ids
      && groups1 == groups[c := if c in groups then Group(groups[c].index, groups[c].ids + [item.id])
                                else Group(|groups|, [item.id])]
  }

  lemma GroupsStep(pending: seq<Entry>, till: map<Page, int>, v: View, n: nat,
                   ids: seq<MsgId>, groups: Groups, ids1: seq<MsgId>, groups1: Groups)
    requires n < |pending| && GroupsOf(pending, till, v, n, ids, groups)
    requires if Asks(pending[n], till, v) then Added(ids, groups, v.items[pending[n].page], ids1, groups1)
             else ids1 == ids && groups1 == groups
    ensures GroupsOf(pending, till, v, n + 1, ids1, groups1)
  {
    if Asks(pending[n], till, v) {
      AddedOk(ids, groups, v.items[pending[n].page], ids1, groups1);
    }
    hide GroupsOk;
    forall c ensures Collected(ids1, groups1, c) == Wanted(pending, till, v, c, n + 1) {
      assert Collected(ids, groups, c) == Wanted(pending, till, v, c, n);
    }
  }

  lemma AddedOk(ids: seq<MsgId>, groups: Groups, item: Item, ids1: seq<MsgId>, groups1: Groups)
    requires GroupsOk(groups) && Added(ids, groups, item, ids1, groups1)
    ensures GroupsOk(groups1)
  {
    if item.channel.Some? {
      var c := item.channel.value;
      if c in groups {
        SamePlaces(groups, c, Group(groups[c].index, groups[c].ids + [item.id]));
      } else {
        NewPlace(groups, c, Group(|groups|, [item.id]));
      }
    }
  }

  /** Different places below a bound. */
  predicate Places(groups: Groups, n: nat) {
    && (forall c :: c in groups ==> groups[c].ids != [] && groups[c].index < n)
    && (forall c, d :: c in groups && d in groups && groups[c].index == groups[d].index ==> c == d)
  }

  lemma SamePlaces(groups: Groups, c: Channel, g: Group)
    requires GroupsOk(groups) && c in groups && g.index == groups[c].index && g.ids != []
    ensures GroupsOk(groups[c := g])
  {
    SameCount(groups, c, g);
    assert Places(groups[c := g], |groups|);
  }

  lemma NewPlace(groups: Groups, c: Channel, g: Group)
    requires GroupsOk(groups) && c !in groups && g.index == |groups| && g.ids != []
    ensures GroupsOk(groups[c := g])
  {
    OneMoreCount(groups, c, g);
    OneMorePlace(groups, c, g, |groups|);
  }

  lemma OneMorePlace(groups: Groups, c: Channel, g: Group, n: nat)
    requires Places(groups, n) && c !in groups && g.index == n && g.ids != []
    ensures Places(groups[c := g], n + 1)
  {
  }

  lemma SameCount(groups: Groups, c: Channel, g: Group)
    requires c in groups
    ensures |groups[c := g]| == |groups|
  {
    assert groups[c := g].Keys == groups.Keys;
    assert |groups[c := g]| == |groups[c := g].Keys|;
  }

  lemma OneMoreCount(groups: Groups, c: Channel, g: Group)
    requires c !in groups
    ensures |groups[c := g]| == |groups| + 1
  {
    assert groups[c := g].Keys == groups.Keys + {c};
    assert |groups[c := g]| == |groups[c := g].Keys|;
  }

  /** The first n entries are marked, the others are as they were. */
  predicate AllMarked(was: seq<Entry>, till: map<Page, int>, v: View, groups: Groups, pending: seq<Entry>, n: nat) {
    && |pending| == |was|
    && (forall i :: 0 <= i < n <= |was| ==> Marked(was[i], till, v, groups, pending[i]))
    && (forall i :: n <= i < |was| ==> pending[i] == was[i])
  }

  lemma AllMarkedStep(was: seq<Entry>, till: map<Page, int>, v: View, groups: Groups, pending: seq<Entry>, n: nat,
                      groups1: Groups, f: Entry)
    requires n < |was| && AllMarked(was, till, v, groups, pending, n)
    requires forall c :: c in groups ==> c in groups1 && groups1[c].index == groups[c].index
    requires Marked(was[n], till, v, groups1, f)
    ensures AllMarked(was, till, v, groups1, pending[n := f], n + 1)
  {
  }

  /** Each channel's request so far: its id is fresh and it carries the collected messages. */
  ghost predicate SentSo(flying0: map<int, Sent>, next0: int, flying: map<int, Sent>, next: int,
                         ids: seq<MsgId>, groups: Groups, who: map<Option<Channel>, int>)
  {
    && next0 <= next
    && (forall r :: r in flying0 ==> r in flying && flying[r] == flying0[r])
    && (forall c :: c in who ==>
          next0 <= who[c] < next && who[c] in flying && flying[who[c]] == Sent(c, Collected(ids, groups, c)))
    && (forall r :: r in flying && r !in flying0 ==> flying[r].channel in who && who[flying[r].channel] == r)
  }

  lemma SentNothing(flying: map<int, Sent>, next: int, ids: seq<MsgId>, groups: Groups)
    ensures SentSo(flying, next, flying, next, ids, groups, map[])
  {
  }

  lemma SentStep(flying0: map<int, Sent>, next0: int, flying: map<int, Sent>, next: int,
                 ids: seq<MsgId>, groups: Groups, who: map<Option<Channel>, int>, c: Option<Channel>)
    requires SentSo(flying0, next0, flying, next, ids, groups, who) && c !in who
    requires Below(flying, next)
    ensures SentSo(flying0, next0, flying[next := Sent(c, Collected(ids, groups, c))], next + 1, ids, groups,
                   who[c := next])
  {
    hide Collected;
  }

  /** A placeholder becomes the id of the request to the page's channel. */
  predicate Placed(e: Entry, till: map<Page, int>, v: View, who: map<Option<Channel>, int>, mid: Entry, f: Entry) {
    if Asks(e, till, v)
    then v.items[e.page].channel in who && f == Entry(e.page, who[v.items[e.page].channel])
    else f == mid
  }

  /** All of a pass together is the step of the model. */
  lemma PassIsResolved(s: State, v: View, mid: seq<Entry>, ids: seq<MsgId>, groups: Groups, m: int,
                       who: map<Option<Channel>, int>, t: State)
    requires RequestsOk(s.pending, s.net) && NetOk(s.net)
    requires |mid| == |s.pending| == |t.pending|
    requires GroupsOf(s.pending, s.till, v, |s.pending|, ids, groups)
    requires AllMarked(s.pending, s.till, v, groups, mid, |mid|)
    requires LeastWait(s.pending, s.till, v, |s.pending|, m)
    requires SentSo(s.net.flying, s.net.next, t.net.flying, t.net.next, ids, groups, who)
    requires forall c :: c in who <==> Collected(ids, groups, c) != []
    requires forall i :: 0 <= i < |mid| ==> Placed(s.pending[i], s.till, v, who, mid[i], t.pending[i])
    requires t.timer == (if m < INT_MAX then Some(v.ms + m * 1000) else None)
    requires t.till == s.till && t.net.failed == s.net.failed
    requires t.net.skipped == set i | 0 <= i < |s.pending| && LeftOut(s.pending[i], s.till, v) :: s.pending[i].page
    ensures Resolved(s, v, t)
  {
    forall i | 0 <= i < |s.pending| ensures EntryResolved(s, v, t, i) {
      var e := s.pending[i];
      assert e in s.pending && Marked(e, s.till, v, groups, mid[i]);
      if Asks(e, s.till, v) {
        WantedHas(s.pending, s.till, v, i, |s.pending|);
        assert Collected(ids, groups, v.items[e.page].channel) != [];
      }
    }
    hide Marked, Asks, LeftOut, Wanted;
    forall c | AllWanted(s, v, c) != []
      ensures exists r :: New(s, t, r) && t.net.flying[r].channel == c
    {
      assert Collected(ids, groups, c) != [];
      assert New(s, t, who[c]);
    }
    forall r | New(s, t, r)
      ensures t.net.flying[r].ids == AllWanted(s, v, t.net.flying[r].channel) != []
      ensures t.net.flying[r].channel in who && who[t.net.flying[r].channel] == r
    {
      assert r !in s.net.flying;
      var c := t.net.flying[r].channel;
      assert Collected(ids, groups, c) == AllWanted(s, v, c);
    }
    assert SentResolved(s, v, t);
    assert TimerResolved(s, v, t);
  }

  /** The message goes to its channel's list, or to the one without a channel. */
  method AddMessage(ids: seq<MsgId>, groups: Groups, item: Item) returns (ids1: seq<MsgId>, groups1: Groups, mark: int)
    ensures Added(ids, groups, item, ids1, groups1)
    ensures item.channel.Some? ==> item.channel.value in groups1
    ensures mark == MarkOf(item, groups1)
    ensures forall c :: c in groups ==> c in groups1 && groups1[c].index == groups[c].index
  {
    ids1, groups1 := ids, groups;
    if item.channel.Some? {
      var c := item.channel.value;
      if c !in groups {
        groups1 := groups[c := Group(|groups|, [item.id])];
      } else {
        groups1 := groups[c := Group(groups[c].index, groups[c].ids + [item.id])];
      }
      mark := Mark(groups1[c].index);
    } else {
      ids1 := ids + [item.id];
      mark := -1;
    }
  }

  /** The request id that a placeholder stands for; others stay. */
  function Assigned(r: int, requestId: int, byIndex: seq<int>): int {
    if r >= 0 then r
    else if r == -1 then requestId
    else if -r - 2 < |byIndex| then byIndex[-r - 2]
    else r
  }

  class Manager {
    var pending: seq<Entry>
    var till: map<Page, int>
    var timer: Option<int>
    var next: int
    ghost var flying: map<int, Sent>
    ghost var failed: set<int>
    ghost var skipped: set<Page>

    ghost function Model(): State
      reads this
    {
      State(pending, till, timer, Net(next, flying, failed, skipped))
    }

    constructor ()
      ensures Model() == INITIAL
    {
      pending, till, timer, next := [], map[], None, 1;
      flying, failed, skipped := map[], {}, {};
    }

    method RequestWebPageDelayed(page: Page, now: int, ms: int)
      modifies this
      ensures Step(old(Model()), Request(page, now, ms), Model())
    {
      var t := if page in till then till[page] else 0;
      if t <= 0 {
        return;
      }
      Insert(page);
      var left := (t - now) * 1000;
      if timer.None? || left <= timer.value - ms {
        timer := Some(ms + (if left < 0 then 0 else left) + 1);
      }
    }

    /** Insertion into the map: the value of a key that is there is replaced. */
    method Insert(page: Page)
      modifies this`pending
      ensures Inserted(old(pending), page, pending)
    {
      var i := 0;
      while i < |pending|
        invariant i <= |pending|
        invariant forall j :: 0 <= j < i ==> pending[j].page != page
      {
        if pending[i].page == page {
          pending := pending[i := Entry(page, 0)];
          return;
        }
        i := i + 1;
      }
      var k :| 0 <= k <= |pending|;
      pending := pending[..k] + [Entry(page, 0)] + pending[k..];
    }

    method ClearWebPageRequest(page: Page)
      modifies this
      ensures Step(old(Model()), Clear(page), Model())
    {
      RemovePage(page);
      if pending == [] && timer.Some? {
        timer := None;
      }
    }

    /** Removal from the map. */
    method RemovePage(page: Page)
      modifies this`pending
      ensures pending == Without(old(pending), page)
    {
      hide Without;
      ghost var was, n := pending, 0;
      var i := 0;
      WithoutStep(was, page, 0);
      while i < |pending|
        modifies this`pending
        invariant i <= |pending| && n <= |was| && was[n..] == pending[i..]
        invariant Without(was, page) == pending[..i] + Without(was[n..], page)
        decreases |was| - n
      {
        NextOf(was, n, pending, i);
        WithoutStep(was, page, n);
        if pending[i].page == page {
          Erase(i);
        } else {
          i := i + 1;
        }
        n := n + 1;
      }
    }

    method ClearWebPageRequests()
      modifies this
      ensures Step(old(Model()), ClearAll, Model())
    {
      pending := [];
      timer := None;
    }

    /** The first loop of a pass. */
    method Collect(v: View) returns (ids: seq<MsgId>, groups: Groups, m: int)
      modifies this`pending
      ensures |pending| == |old(pending)|
      ensures CollectedTo(old(pending), till, v, |pending|, pending, ids, groups, m)
    {
      hide CollectedTo, Added, Till;
      ghost var was := pending;
      ids, groups, m := [], map[], INT_MAX;
      CollectedNone(was, till, v);
      var i := 0;
      while i < |pending|
        modifies this`pending
        invariant i <= |pending| == |was|
        invariant CollectedTo(was, till, v, i, pending, ids, groups, m)
      {
        var e := pending[i];
        ghost var ids0, groups0, m0, pending0 := ids, groups, m, pending;
        EntryThere(was, till, v, i, pending, ids, groups, m);
        if e.request <= 0 {
          if Till(till, e.page) <= v.now {
            if e.page in v.items {
              var mark;
              ids, groups, mark := AddMessage(ids, groups, v.items[e.page]);
              pending := pending[i := Entry(e.page, mark)];
            }
          } else {
            var wait := Till(till, e.page) - v.now;
            m := if wait < m then wait else m;
          }
        }
        CollectedMore(was, till, v, i, pending0, ids0, groups0, m0, pending, ids, groups, m);
        i := i + 1;
      }
    }

    /** The requests of a pass: one without a channel, then one a channel in any order. */
    method Send(ids: seq<MsgId>, groups: Groups)
      returns (requestId: int, byIndex: seq<int>, ghost who: map<Option<Channel>, int>)
      requires next > 0 && Below(flying, next)
      requires GroupsOk(groups)
      modifies this`next, this`flying
      ensures SentSo(old(flying), old(next), flying, next, ids, groups, who)
      ensures forall c :: c in who <==> Collected(ids, groups, c) != []
      ensures |byIndex| == |groups|
      ensures requestId == if None in who then who[None] else 0
      ensures ByIndex(groups, {}, who, byIndex)
    {
      hide SentSo;
      SentNothing(flying, next, ids, groups);
      requestId, who := 0, map[];
      if ids != [] {
        SentStep(old(flying), old(next), flying, next, ids, groups, who, None);
        requestId := SendOne(None, ids);
        who := who[None := requestId];
      }
      byIndex, who := SendChannels(ids, groups, who, old(flying), old(next));
      forall c ensures c in who <==> Collected(ids, groups, c) != [] {
        if c.Some? {
          assert Some(c.value) in who <==> c.value in groups;
        }
      }
    }

    method SendChannels(ids: seq<MsgId>, groups: Groups, ghost who0: map<Option<Channel>, int>,
                        ghost flying0: map<int, Sent>, ghost next0: int)
      returns (byIndex: seq<int>, ghost who: map<Option<Channel>, int>)
      requires GroupsOk(groups) && Below(flying, next)
      requires SentSo(flying0, next0, flying, next, ids, groups, who0)
      requires forall c :: Some(c) !in who0
      modifies this`next, this`flying
      ensures SentSo(flying0, next0, flying, next, ids, groups, who)
      ensures if None in who0 then None in who && who[None] == who0[None] else None !in who
      ensures |byIndex| == |groups| && ByIndex(groups, {}, who, byIndex)
      ensures forall c :: Some(c) in who <==> c in groups
    {
      hide SentSo;
      who := who0;
      byIndex := seq(|groups|, _ => 0);
      var todo := groups.Keys;
      while todo != {}
        modifies this`next, this`flying
        invariant todo <= groups.Keys && |byIndex| == |groups|
        invariant Below(flying, next)
        invariant SentSo(flying0, next0, flying, next, ids, groups, who)
        invariant if None in who0 then None in who && who[None] == who0[None] else None !in who
        invariant forall c :: Some(c) in who <==> c in groups && c !in todo
        invariant ByIndex(groups, todo, who, byIndex)
      {
        var c :| c in todo;
        SentStep(flying0, next0, flying, next, ids, groups, who, Some(c));
        var r := SendOne(Some(c), groups[c].ids);
        ByIndexStep(groups, todo, who, byIndex, c, r);
        byIndex := byIndex[groups[c].index := r];
        who := who[Some(c) := r];
        todo := todo - {c};
      }
    }

    method SendOne(channel: Option<Channel>, ids: seq<MsgId>) returns (r: int)
      modifies this`next, this`flying
      ensures r == old(next) && next == r + 1
      ensures Below(old(flying), r) ==> Below(flying, next)
      ensures flying == old(flying)[r := Sent(channel, ids)]
    {
      r := next;
      next := next + 1;
      flying := flying[r := Sent(channel, ids)];
    }

    /** The last loop of a pass: the placeholders become request ids. */
    method Assign(requestId: int, byIndex: seq<int>)
      modifies this`pending
      ensures |pending| == |old(pending)|
      ensures forall i :: 0 <= i < |pending| ==> pending[i].page == old(pending)[i].page
      ensures forall i :: 0 <= i < |pending| ==>
        pending[i].request == Assigned(old(pending)[i].request, requestId, byIndex)
    {
      ghost var was := pending;
      var i := 0;
      while i < |pending|
        modifies this`pending
        invariant i <= |pending| == |was|
        invariant forall j :: i <= j < |was| ==> pending[j] == was[j]
        invariant forall j :: 0 <= j < i ==> pending[j].page == was[j].page
        invariant forall j :: 0 <= j < i ==>
          pending[j].request == Assigned(was[j].request, requestId, byIndex)
      {
        var e := pending[i];
        if e.request < 0 {
          pending := pending[i := Entry(e.page, Assigned(e.request, requestId, byIndex))];
        }
        i := i + 1;
      }
    }

    /** resolveWebPages, run by the timer, which is idle from then on. */
    method ResolveWebPages(v: View)
      requires Sound(Model()) && timer == None
      modifies this
      ensures Resolved(old(Model()), v, Model())
    {
      hide Resolved, SentSo, GroupsOf, AllMarked, LeastWait, ByIndex, Collected, LeftOut, RequestsOk;
      ghost var s := Model();
      SoundBelow(s);
      var ids, groups, m := Collect(v);
      GroupsOfOk(pending, s, v, ids, groups);
      ghost var mid := pending;
      var requestId, byIndex;
      ghost var who;
      requestId, byIndex, who := Send(ids, groups);
      if requestId != 0 || byIndex != [] {
        Assign(requestId, byIndex);
      }
      if m < INT_MAX {
        timer := Some(v.ms + m * 1000);
      }
      skipped := set i | 0 <= i < |s.pending| && LeftOut(s.pending[i], s.till, v) :: s.pending[i].page;
      SentPositive(s.net, flying, next, ids, groups, who);
      AllPlaced(s, v, mid, ids, groups, who, requestId, byIndex, pending);
      PassIsResolved(s, v, mid, ids, groups, m, who, Model());
    }

    /** The page's own data says until when to wait. */
    method SetPendingTill(page: Page, time: int)
      modifies this`till
      ensures Step(old(Model()), SetTill(page, time), Model())
    {
      till := till[page := time];
    }

    /** A request failed, and no handler was given for that. */
    method RequestFailed(request: int)
      modifies this`flying, this`failed
      ensures Step(old(Model()), Fail(request), Model())
    {
      flying, failed := flying - {request}, failed + {request};
    }

    /** The timer fired, and is idle from then on. */
    method TimerFired(v: View)
      requires Sound(Model())
      modifies this
      ensures Step(old(Model()), Fire(v), Model())
    {
      hide Resolved, Sound;
      SoundUntimed(Model());
      timer := None;
      ResolveWebPages(v);
    }

    /** Whatever happens, the object takes the step of the model: its life is a run. */
    method Handle(e: Event)
      requires Inv(Model()) && Enabled(Model(), e)
      modifies this
      ensures Inv(Model()) && Step(old(Model()), e, Model())
    {
      hide Sound, Woken, Step, Enabled;
      ghost var s := Model();
      match e {
        case SetTill(page, time) => SetPendingTill(page, time);
        case Request(page, now, ms) => RequestWebPageDelayed(page, now, ms);
        case Clear(page) => ClearWebPageRequest(page);
        case ClearAll => ClearWebPageRequests();
        case Fire(v) => TimerFired(v);
        case Reply(request) => GotWebPages(request);
        case Fail(request) => RequestFailed(request);
      }
      StepInv(s, e, Model());
    }

    method Erase(i: nat)
      requires i < |pending|
      modifies this`pending
      ensures i <= |pending| && pending[..i] == old(pending)[..i] && pending[i..] == old(pending)[i + 1..]
    {
      pending := pending[..i] + pending[i + 1..];
    }

    /** gotWebPages */
    method GotWebPages(request: int)
      modifies this
      ensures Step(old(Model()), Reply(request), Model())
    {
      hide Answered, Unanswered;
      ghost var was, till0, n := pending, till, 0;
      AnsweredNothing(till, request);
      var i := 0;
      while i < |pending|
        modifies this`pending, this`till
        invariant i <= |pending| && n <= |was| && was[n..] == pending[i..]
        invariant Unanswered(was, request) == pending[..i] + Unanswered(was[n..], request)
        invariant till == Answered(was[..n], till0, request)
        decreases |was| - n
      {
        var e := pending[i];
        NextOf(was, n, pending, i);
        AnsweredStep(was, till0, request, n);
        UnansweredStep(was, request, n);
        if e.request == request {
          if Till(till, e.page) > 0 {
            till := till[e.page := -1];
          }
          Erase(i);
        } else {
          i := i + 1;
        }
        n := n + 1;
      }
      assert was[..n] == was;
      flying := flying - {request};
    }
  }

  lemma SentPositive(net: Net, flying: map<int, Sent>, next: int, ids: seq<MsgId>, groups: Groups,
                     who: map<Option<Channel>, int>)
    requires net.next > 0 && SentSo(net.flying, net.next, flying, next, ids, groups, who)
    ensures forall c :: c in who ==> who[c] > 0
  {
  }

  lemma SoundUntimed(s: State)
    requires Sound(s)
    ensures Sound(s.(timer := None))
  {
  }

  lemma SoundBelow(s: State)
    requires Sound(s)
    ensures s.net.next > 0 && Below(s.net.flying, s.net.next)
  {
  }

  lemma GroupsOfOk(pending: seq<Entry>, s: State, v: View, ids: seq<MsgId>, groups: Groups)
    requires |pending| == |s.pending| && GroupsOf(s.pending, s.till, v, |pending|, ids, groups)
    ensures GroupsOk(groups)
  {
  }

  /** Two lists with one rest have the same next element and again one rest. */
  lemma NextOf(a: seq<Entry>, n: nat, b: seq<Entry>, i: nat)
    requires n <= |a| && i < |b| && a[n..] == b[i..]
    ensures n < |a| && a[n] == b[i] && a[n + 1..] == b[i + 1..]
    ensures b[..i + 1] == b[..i] + [b[i]]
  {
    assert |a| - n == |b| - i;
    assert a[n] == a[n..][0] && b[i] == b[i..][0];
    assert a[n + 1..] == a[n..][1..] && b[i + 1..] == b[i..][1..];
  }

  lemma AnsweredNothing(till: map<Page, int>, r: int)
    ensures Answered([], till, r) == till
    ensures Unanswered([], r) == []
  {
  }

  lemma UnansweredStep(was: seq<Entry>, r: int, n: nat)
    requires n < |was|
    ensures Unanswered(was[n..], r) == (if was[n].request == r then [] else [was[n]]) + Unanswered(was[n + 1..], r)
  {
    assert was[n..][1..] == was[n + 1..];
  }

  lemma WithoutStep(was: seq<Entry>, p: Page, n: nat)
    ensures Without([], p) == []
    ensures n < |was| ==>
              Without(was[n..], p) == (if was[n].page == p then [] else [was[n]]) + Without(was[n + 1..], p)
  {
    if n < |was| {
      assert was[n..][1..] == was[n + 1..];
    }
  }

  lemma AnsweredStep(was: seq<Entry>, till: map<Page, int>, r: int, n: nat)
    requires n < |was|
    ensures var before := Answered(was[..n], till, r);
            Answered(was[..n + 1], till, r)
            == (if was[n].request == r && Till(before, was[n].page) > 0 then before[was[n].page := -1] else before)
  {
    assert was[..n + 1] == was[..n] + [was[n]];
  }

  /** The last loop gives every asking page the request of its own channel. */
  lemma AllPlaced(s: State, v: View, mid: seq<Entry>, ids: seq<MsgId>, groups: Groups, who: map<Option<Channel>, int>,
                  requestId: int, byIndex: seq<int>, pending: seq<Entry>)
    requires RequestsOk(s.pending, s.net)
    requires |mid| == |s.pending| == |pending|
    requires AllMarked(s.pending, s.till, v, groups, mid, |mid|)
    requires GroupsOf(s.pending, s.till, v, |s.pending|, ids, groups)
    requires forall c :: c in who <==> Collected(ids, groups, c) != []
    requires requestId == if None in who then who[None] else 0
    requires forall c :: c in who ==> who[c] > 0
    requires |byIndex| == |groups| && ByIndex(groups, {}, who, byIndex)
    requires if requestId != 0 || byIndex != []
             then forall i :: 0 <= i < |pending| ==>
               pending[i] == Entry(mid[i].page, Assigned(mid[i].request, requestId, byIndex))
             else pending == mid
    ensures forall i :: 0 <= i < |mid| ==> Placed(s.pending[i], s.till, v, who, mid[i], pending[i])
  {
    forall i | 0 <= i < |mid| ensures Placed(s.pending[i], s.till, v, who, mid[i], pending[i]) {
      var e := s.pending[i];
      assert e in s.pending && Marked(e, s.till, v, groups, mid[i]);
      hide AllMarked, RequestsOk, Marked;
      if Asks(e, s.till, v) {
        var c := v.items[e.page].channel;
        WantedHas(s.pending, s.till, v, i, |s.pending|);
        assert Collected(ids, groups, c) != [];
        hide GroupsOf;
        PlacedOne(e, s.till, v, groups, who, requestId, byIndex, mid[i]);
      } else {
        NotPlaced(e, s.till, v, groups, requestId, byIndex, mid[i]);
      }
    }
  }

  lemma PlacedOne(e: Entry, till: map<Page, int>, v: View, groups: Groups, who: map<Option<Channel>, int>,
                  requestId: int, byIndex: seq<int>, mid: Entry)
    requires Asks(e, till, v) && Marked(e, till, v, groups, mid)
    requires v.items[e.page].channel in who && who[v.items[e.page].channel] > 0
    requires requestId == if None in who then who[None] else 0
    requires |byIndex| == |groups| && ByIndex(groups, {}, who, byIndex)
    ensures requestId != 0 || byIndex != []
    ensures mid.page == e.page && Assigned(mid.request, requestId, byIndex) == who[v.items[e.page].channel]
  {
  }

  lemma NotPlaced(e: Entry, till: map<Page, int>, v: View, groups: Groups, requestId: int, byIndex: seq<int>,
                  mid: Entry)
    requires !Asks(e, till, v) && Marked(e, till, v, groups, mid) && e.request >= 0
    ensures Assigned(mid.request, requestId, byIndex) == mid.request
  {
  }

  /** The first n pages are collected. */
  ghost predicate CollectedTo(was: seq<Entry>, till: map<Page, int>, v: View, n: nat,
                              pending: seq<Entry>, ids: seq<MsgId>, groups: Groups, m: int)
  {
    && n <= |was|
    && GroupsOf(was, till, v, n, ids, groups)
    && AllMarked(was, till, v, groups, pending, n)
    && LeastWait(was, till, v, n, m)
  }

  lemma CollectedNone(was: seq<Entry>, till: map<Page, int>, v: View)
    ensures CollectedTo(was, till, v, 0, was, [], map[], INT_MAX)
  {
  }

  lemma CollectedMore(was: seq<Entry>, till: map<Page, int>, v: View, n: nat,
                      pending: seq<Entry>, ids: seq<MsgId>, groups: Groups, m: int,
                      pending1: seq<Entry>, ids1: seq<MsgId>, groups1: Groups, m1: int)
    requires n < |was| && CollectedTo(was, till, v, n, pending, ids, groups, m)
    requires |pending| == |was| && pending[n] == was[n]
    requires
      var e := was[n];
      if Asks(e, till, v)
      then
        && Added(ids, groups, v.items[e.page], ids1, groups1)
        && pending1 == pending[n := Entry(e.page, MarkOf(v.items[e.page], groups1))]
        && (v.items[e.page].channel.Some? ==> v.items[e.page].channel.value in groups1)
        && (forall c :: c in groups ==> c in groups1 && groups1[c].index == groups[c].index)
      else ids1 == ids && groups1 == groups && pending1 == pending
    requires var wait := Till(till, was[n].page) - v.now;
             m1 == (if Waits(was[n], till, v) && wait < m then wait else m)
    ensures CollectedTo(was, till, v, n + 1, pending1, ids1, groups1, m1)
  {
    hide GroupsOf, AllMarked, LeastWait, Added;
    GroupsStep(was, till, v, n, ids, groups, ids1, groups1);
    LeastStep(was, till, v, n, m, m1);
    AllMarkedStep(was, till, v, groups, pending, n, groups1, pending1[n]);
    assert pending1 == pending[n := pending1[n]];
  }

  lemma EntryThere(was: seq<Entry>, till: map<Page, int>, v: View, n: nat,
                   pending: seq<Entry>, ids: seq<MsgId>, groups: Groups, m: int)
    requires CollectedTo(was, till, v, n, pending, ids, groups, m) && n < |was|
    ensures |pending| == |was| && pending[n] == was[n]
  {
  }

  lemma LeastStep(pending: seq<Entry>, till: map<Page, int>, v: View, n: nat, m: int, m1: int)
    requires n < |pending| && LeastWait(pending, till, v, n, m)
    requires var wait := Till(till, pending[n].page) - v.now;
             m1 == (if Waits(pending[n], till, v) && wait < m then wait else m)
    ensures LeastWait(pending, till, v, n + 1, m1)
  {
    if m1 < INT_MAX {
      if m1 != m {
        assert Waits(pending[n], till, v);
      }
    }
  }
}
