/** Batched requests for delayed web pages (apiwrap.cpp:2200-2296, 2482-2497). */
module WebPages {
  import opened Common

  type Page = nat
  type Channel = nat
  type MsgId = int

  const INT_MAX: int := 0x7fff_ffff

  /** request zero: waits to be sent; below zero only while a pass is at work. */
  datatype Entry = Entry(page: Page, request: int)

  /** The message that shows a page, of a channel or not. */
  datatype Item = Item(channel: Option<Channel>, id: MsgId)

  datatype Sent = Sent(channel: Option<Channel>, ids: seq<MsgId>)

  /** The requests in flight and, as history, the failed ones and the pages the last pass left out. */
  datatype Net = Net(next: int, flying: map<int, Sent>, failed: set<int>, skipped: set<Page>)

  datatype State = State(pending: seq<Entry>, till: map<Page, int>, timer: Option<int>, net: Net)

  /** What a pass reads: the time in seconds and in milliseconds, and the items of the pages. */
  datatype View = View(now: int, ms: int, items: map<Page, Item>)

  const INITIAL := State([], map[], None, Net(1, map[], {}, {}))

  function Till(till: map<Page, int>, p: Page): int { if p in till then till[p] else 0 }

  predicate Waits(e: Entry, till: map<Page, int>, v: View) { e.request <= 0 && Till(till, e.page) > v.now }

  predicate Asks(e: Entry, till: map<Page, int>, v: View) {
    e.request <= 0 && Till(till, e.page) <= v.now && e.page in v.items
  }

  predicate LeftOut(e: Entry, till: map<Page, int>, v: View) {
    e.request <= 0 && Till(till, e.page) <= v.now && e.page !in v.items
  }

  predicate AsksIn(e: Entry, till: map<Page, int>, v: View, channel: Option<Channel>) {
    Asks(e, till, v) && v.items[e.page].channel == channel
  }

  /** The messages of one channel, or of none, that the first n pages ask for. */
  function Wanted(pending: seq<Entry>, till: map<Page, int>, v: View, channel: Option<Channel>, n: nat): seq<MsgId>
    requires n <= |pending|
  {
    if n == 0 then []
    else
      Wanted(pending, till, v, channel, n - 1)
      + if AsksIn(pending[n - 1], till, v, channel) then [v.items[pending[n - 1].page].id] else []
  }

  function AllWanted(s: State, v: View, channel: Option<Channel>): seq<MsgId> {
    Wanted(s.pending, s.till, v, channel, |s.pending|)
  }

  lemma {:induction false} WantedHas(pending: seq<Entry>, till: map<Page, int>, v: View, i: nat, n: nat)
    requires i < n <= |pending| && Asks(pending[i], till, v)
    ensures v.items[pending[i].page].id
            in Wanted(pending, till, v, v.items[pending[i].page].channel, n)
  {
    if i < n - 1 {
      WantedHas(pending, till, v, i, n - 1);
    }
  }

  // ---- Steps ----

  predicate New(s: State, t: State, r: int) { r in t.net.flying && s.net.next <= r < t.net.next }

  /** A page that asks gets the new request of its own channel; every other keeps what it had. */
  predicate EntryResolved(s: State, v: View, t: State, i: nat)
    requires i < |s.pending| == |t.pending|
  {
    var e, f := s.pending[i], t.pending[i];
    if Asks(e, s.till, v)
    then f.page == e.page && New(s, t, f.request) && t.net.flying[f.request].channel == v.items[e.page].channel
    else f == e
  }

  /** One new request for each channel that is asked for, with exactly its messages. */
  ghost predicate SentResolved(s: State, v: View, t: State) {
    && s.net.next <= t.net.next
    && (forall r :: r in s.net.flying ==> r in t.net.flying && t.net.flying[r] == s.net.flying[r])
    && (forall r :: r in t.net.flying && r !in s.net.flying ==> New(s, t, r))
    && (forall r :: New(s, t, r) ==>
          t.net.flying[r].ids == AllWanted(s, v, t.net.flying[r].channel) != [])
    && (forall q, r :: New(s, t, q) && New(s, t, r) && t.net.flying[q].channel == t.net.flying[r].channel ==> q == r)
    && (forall c :: AllWanted(s, v, c) != [] ==> exists r :: New(s, t, r) && t.net.flying[r].channel == c)
  }

  /** m is the least wait of the first n pages, or INT_MAX. */
  ghost predicate LeastWait(pending: seq<Entry>, till: map<Page, int>, v: View, n: nat, m: int)
    requires n <= |pending|
  {
    && m <= INT_MAX
    && (forall i :: 0 <= i < n && Waits(pending[i], till, v) ==> m <= Till(till, pending[i].page) - v.now)
    && (m < INT_MAX ==>
          exists i :: 0 <= i < n && Waits(pending[i], till, v) && m == Till(till, pending[i].page) - v.now)
  }

  /** The timer is set for the least wait there is, and not set when nothing waits. */
  ghost predicate TimerResolved(s: State, v: View, t: State) {
    exists m :: LeastWait(s.pending, s.till, v, |s.pending|, m)
                && t.timer == (if m < INT_MAX then Some(v.ms + m * 1000) else None)
  }

  /** resolveWebPages */
  ghost predicate Resolved(s: State, v: View, t: State) {
    && t.till == s.till && t.net.failed == s.net.failed
    && |t.pending| == |s.pending|
    && (forall i :: 0 <= i < |s.pending| ==> EntryResolved(s, v, t, i))
    && SentResolved(s, v, t)
    && TimerResolved(s, v, t)
    && t.net.skipped == set i | 0 <= i < |s.pending| && LeftOut(s.pending[i], s.till, v) :: s.pending[i].page
  }

  /** Removes the entries of one page. */
  function Without(pending: seq<Entry>, p: Page): seq<Entry> {
    if pending == [] then []
    else (if pending[0].page == p then [] else [pending[0]]) + Without(pending[1..], p)
  }

  /** The entries that do not hold a request. */
  function Unanswered(pending: seq<Entry>, r: int): seq<Entry> {
    if pending == [] then []
    else (if pending[0].request == r then [] else [pending[0]]) + Unanswered(pending[1..], r)
  }

  predicate Holds(pending: seq<Entry>, p: Page, r: int) { Entry(p, r) in pending }

  predicate Pending(pending: seq<Entry>, p: Page) { exists e :: e in pending && e.page == p }

  /** The pages of a request are answered: their wait is over. */
  ghost function Answered(pending: seq<Entry>, till: map<Page, int>, r: int): map<Page, int> {
    map p | p in till :: if till[p] > 0 && Holds(pending, p, r) then -1 else till[p]
  }

  /** The page is in the map with request zero, in its place by the order of the keys; the others stay. */
  ghost predicate Inserted(s: seq<Entry>, p: Page, t: seq<Entry>) {
    (exists i :: 0 <= i < |s| && s[i].page == p && t == s[i := Entry(p, 0)])
    || (!Pending(s, p) && exists i :: 0 <= i <= |s| && t == s[..i] + [Entry(p, 0)] + s[i..])
  }

  /** The deadline after requestWebPageDelayed; left is in milliseconds. */
  function Delayed(timer: Option<int>, left: int, ms: int): Option<int> {
    if timer.None? || left <= timer.value - ms then Some(ms + (if left < 0 then 0 else left) + 1) else timer
  }

  datatype Event =
    | SetTill(page: Page, till: int)
    | Request(page: Page, now: int, ms: int)
    | Clear(page: Page)
    | ClearAll
    | Fire(view: View)
    | Reply(req: int)
    | Fail(req: int)

  ghost predicate Enabled(s: State, e: Event) {
    match e
    case SetTill(p, till) => till <= INT_MAX
    case Fire(v) => s.timer.Some? && s.timer.value <= v.ms && v.now > 0
    case Reply(r) => r in s.net.flying
    case Fail(r) => r in s.net.flying
    case _ => true
  }

  ghost predicate Step(s: State, e: Event, t: State) {
    match e
    case SetTill(p, till) => t == s.(till := s.till[p := till])
    case Request(p, now, ms) =>
      if Till(s.till, p) <= 0 then t == s
      else
        && Inserted(s.pending, p, t.pending)
        && t == s.(pending := t.pending,
                   timer := Delayed(s.timer, (Till(s.till, p) - now) * 1000, ms))
    case Clear(p) =>
      var rest := Without(s.pending, p);
      t == s.(pending := rest, timer := if rest == [] then None else s.timer)
    case ClearAll => t == s.(pending := [], timer := None)
    case Fire(v) => Resolved(s.(timer := None), v, t)
    case Reply(r) =>
      t == s.(pending := Unanswered(s.pending, r), till := Answered(s.pending, s.till, r),
              net := s.net.(flying := s.net.flying - {r}))
    case Fail(r) => t == s.(net := s.net.(flying := s.net.flying - {r}, failed := s.net.failed + {r}))
  }

  // ---- What every run keeps ----

  predicate Distinct(pending: seq<Entry>) {
    forall i, j :: 0 <= i < j < |pending| ==> pending[i].page != pending[j].page
  }

  /** No placeholder is left; a page that holds a request holds one that was sent. */
  predicate RequestsOk(pending: seq<Entry>, net: Net) {
    forall e :: e in pending ==>
      e.request == 0 || (e.request > 0 && (e.request in net.flying || e.request in net.failed))
  }

  predicate NetOk(net: Net) {
    && net.next > 0
    && (forall r :: r in net.flying ==> 0 < r < net.next && r !in net.failed && net.flying[r].ids != [])
    && (forall r :: r in net.failed ==> 0 < r < net.next)
  }

  /** With the timer idle only pages wait that were due and had no item when the last pass ran. */
  predicate Woken(s: State) {
    s.timer.None? ==> forall e :: e in s.pending && e.request == 0 ==> e.page in s.net.skipped
  }

  predicate Sound(s: State) {
    && Distinct(s.pending)
    && RequestsOk(s.pending, s.net)
    && NetOk(s.net)
    && (forall p :: p in s.till ==> s.till[p] <= INT_MAX)
  }

  predicate Inv(s: State) { Sound(s) && Woken(s) }

  lemma {:induction false} WithoutIs(pending: seq<Entry>, p: Page)
    ensures forall e :: e in Without(pending, p) <==> e in pending && e.page != p
    ensures Distinct(pending) ==> Distinct(Without(pending, p))
  {
    if pending != [] {
      WithoutIs(pending[1..], p);
      assert pending == [pending[0]] + pending[1..];
      forall i, j | Distinct(pending) && 0 <= i < j < |Without(pending, p)|
        ensures Without(pending, p)[i].page != Without(pending, p)[j].page
      {
        var rest := Without(pending[1..], p);
        if pending[0].page != p {
          assert rest[j - 1] in rest;
          assert rest[j - 1] in pending[1..];
          if i > 0 {
            assert rest[i - 1].page != rest[j - 1].page;
          }
        }
      }
    }
  }

  lemma {:induction false} UnansweredIs(pending: seq<Entry>, r: int)
    ensures forall e :: e in Unanswered(pending, r) <==> e in pending && e.request != r
    ensures Distinct(pending) ==> Distinct(Unanswered(pending, r))
  {
    if pending != [] {
      UnansweredIs(pending[1..], r);
      assert pending == [pending[0]] + pending[1..];
      forall i, j | Distinct(pending) && 0 <= i < j < |Unanswered(pending, r)|
        ensures Unanswered(pending, r)[i].page != Unanswered(pending, r)[j].page
      {
        var rest := Unanswered(pending[1..], r);
        if pending[0].request != r {
          assert rest[j - 1] in rest;
          assert rest[j - 1] in pending[1..];
          if i > 0 {
            assert rest[i - 1].page != rest[j - 1].page;
          }
        }
      }
    }
  }

  /** The page waits now, and the others are as they were. */
  predicate OnlyWaits(s: seq<Entry>, p: Page, t: seq<Entry>) {
    && (forall e :: e in t ==> e == Entry(p, 0) || (e in s && e.page != p))
    && (forall e :: e in s && e.page != p ==> e in t)
  }

  lemma ReplacedIs(s: seq<Entry>, i: nat)
    requires i < |s| && Distinct(s)
    ensures Distinct(s[i := Entry(s[i].page, 0)])
    ensures OnlyWaits(s, s[i].page, s[i := Entry(s[i].page, 0)])
  {
    var p := s[i].page;
    var t := s[i := Entry(p, 0)];
    forall e | e in s && e.page != p ensures e in t {
      var j :| 0 <= j < |s| && s[j] == e;
      assert t[j] == e;
    }
    forall e | e in t ensures e == Entry(p, 0) || (e in s && e.page != p) {
      var j :| 0 <= j < |t| && t[j] == e;
    }
  }

  /** t is s with one more entry at a place. */
  predicate PutAt(s: seq<Entry>, x: Entry, i: nat, t: seq<Entry>) {
    && i <= |s| && |t| == |s| + 1 && t[i] == x
    && (forall j :: 0 <= j < i ==> t[j] == s[j])
    && (forall j :: i < j < |t| ==> t[j] == s[j - 1])
  }

  lemma PutDistinct(s: seq<Entry>, p: Page, i: nat, t: seq<Entry>)
    requires PutAt(s, Entry(p, 0), i, t) && Distinct(s) && !Pending(s, p)
    ensures Distinct(t)
  {
    forall j, k | 0 <= j < k < |t| ensures t[j].page != t[k].page {
      var sj, sk := if j < i then j else j - 1, if k < i then k else k - 1;
      if j == i {
        assert s[sk] in s;
      } else if k == i {
        assert s[sj] in s;
      } else {
        assert s[sj].page != s[sk].page;
      }
    }
  }

  lemma PutOnly(s: seq<Entry>, p: Page, i: nat, t: seq<Entry>)
    requires PutAt(s, Entry(p, 0), i, t) && !Pending(s, p)
    ensures OnlyWaits(s, p, t)
  {
    forall e | e in s ensures e in t && e.page != p {
      var j :| 0 <= j < |s| && s[j] == e;
      assert t[if j < i then j else j + 1] == e;
    }
    forall e | e in t ensures e == Entry(p, 0) || (e in s && e.page != p) {
      var j :| 0 <= j < |t| && t[j] == e;
      if j != i {
        assert s[if j < i then j else j - 1] == e;
      }
    }
  }

  lemma InsertedIs(s: seq<Entry>, p: Page, t: seq<Entry>)
    requires Distinct(s) && Inserted(s, p, t)
    ensures Distinct(t) && OnlyWaits(s, p, t)
  {
    hide Distinct, OnlyWaits;
    if i :| 0 <= i < |s| && s[i].page == p && t == s[i := Entry(p, 0)] {
      ReplacedIs(s, i);
    } else {
      var i :| 0 <= i <= |s| && t == s[..i] + [Entry(p, 0)] + s[i..];
      assert PutAt(s, Entry(p, 0), i, t);
      PutDistinct(s, p, i, t);
      PutOnly(s, p, i, t);
    }
  }

  lemma ResolvedSound(s: State, v: View, t: State)
    requires Sound(s) && Resolved(s, v, t)
    ensures Sound(t)
  {
    hide AllWanted, TimerResolved;
    forall i | 0 <= i < |s.pending|
      ensures t.pending[i].page == s.pending[i].page
    {
      assert EntryResolved(s, v, t, i);
    }
    forall e | e in t.pending
      ensures e.request == 0 || (e.request > 0 && (e.request in t.net.flying || e.request in t.net.failed))
    {
      var i :| 0 <= i < |t.pending| && t.pending[i] == e;
      assert EntryResolved(s, v, t, i);
      assert s.pending[i] in s.pending;
    }
  }

  /** After a pass an idle timer means that nothing has still to become due. */
  lemma ResolvedWoken(s: State, v: View, t: State)
    requires Sound(s) && Resolved(s, v, t) && v.now > 0
    ensures Woken(t)
  {
    hide SentResolved;
    var m :| LeastWait(s.pending, s.till, v, |s.pending|, m)
             && t.timer == (if m < INT_MAX then Some(v.ms + m * 1000) else None);
    forall e | t.timer.None? && e in t.pending && e.request == 0
      ensures e.page in t.net.skipped
    {
      var i :| 0 <= i < |t.pending| && t.pending[i] == e;
      assert EntryResolved(s, v, t, i);
      assert s.pending[i] in s.pending;
      assert Till(s.till, s.pending[i].page) - v.now < INT_MAX;
      assert LeftOut(s.pending[i], s.till, v);
    }
  }

  lemma StepInv(s: State, e: Event, t: State)
    requires Inv(s) && Enabled(s, e) && Step(s, e, t)
    ensures Inv(t)
  {
    match e
    case Request(p, now, ms) =>
      if Till(s.till, p) > 0 {
        InsertedIs(s.pending, p, t.pending);
      }
    case Clear(p) => WithoutIs(s.pending, p);
    case Reply(r) => UnansweredIs(s.pending, r);
    case Fire(v) =>
      ResolvedSound(s.(timer := None), v, t);
      ResolvedWoken(s.(timer := None), v, t);
    case _ =>
  }

  // ---- Runs ----

  ghost predicate Run(states: seq<State>, events: seq<Event>) {
    && |states| == |events| + 1
    && states[0] == INITIAL
    && (forall k :: 0 <= k < |events| ==> Enabled(states[k], events[k]) && Step(states[k], events[k], states[k + 1]))
  }

  /**
   * In every state of every run no placeholder is left, each page is pending once, each assigned
   * one holds a request that was really sent, and an idle timer leaves no wait unattended.
   */
  lemma {:induction false} RunInv(states: seq<State>, events: seq<Event>, k: nat)
    requires Run(states, events) && k < |states|
    ensures Inv(states[k])
  {
    if k > 0 {
      hide Inv, Step, Enabled;
      RunInv(states, events, k - 1);
      StepInv(states[k - 1], events[k - 1], states[k]);
    } else {
      assert states[0] == INITIAL;
    }
  }

  /** A newly assigned page holds the one request sent to its own channel, and its message is in it. */
  lemma PassAssignsOwnRequest(states: seq<State>, events: seq<Event>, k: nat, i: nat, r: int)
    requires Run(states, events) && k < |events| && events[k].Fire? && i < |states[k].pending|
    requires Asks(states[k].pending[i], states[k].till, events[k].view)
    ensures var s, t, v := states[k], states[k + 1], events[k].view;
            var item := v.items[s.pending[i].page];
            && |t.pending| == |s.pending|
            && (t.pending[i] == Entry(s.pending[i].page, r)
                <==> r in t.net.flying && r !in s.net.flying && t.net.flying[r].channel == item.channel)
            && t.pending[i].request in t.net.flying
            && item.id in t.net.flying[t.pending[i].request].ids
  {
    var s, t, v := states[k], states[k + 1], events[k].view;
    RunInv(states, events, k);
    assert Step(s, events[k], t);
    var s0 := s.(timer := None);
    assert EntryResolved(s0, v, t, i);
    WantedHas(s.pending, s.till, v, i, |s.pending|);
    hide Wanted, TimerResolved;
  }

  /**
   * A pass asks for every page that is due, waits and has an item: it gets a new request of the item's
   * channel with the item's message in it.
   */
  lemma DuePageIsAsked(s: State, v: View, t: State, i: nat)
    requires Resolved(s, v, t) && i < |s.pending| && s.pending[i].request == 0
    requires Till(s.till, s.pending[i].page) <= v.now && s.pending[i].page in v.items
    requires forall r :: r in s.net.flying ==> r < s.net.next
    ensures var item := v.items[s.pending[i].page];
            && |t.pending| == |s.pending| && t.pending[i].page == s.pending[i].page
            && t.pending[i].request in t.net.flying && t.pending[i].request !in s.net.flying
            && t.net.flying[t.pending[i].request].channel == item.channel
            && item.id in t.net.flying[t.pending[i].request].ids
  {
    assert EntryResolved(s, v, t, i);
    WantedHas(s.pending, s.till, v, i, |s.pending|);
    hide Wanted, TimerResolved;
  }

  /** Does the i-th page ask in that channel? */
  predicate AsksAt(s: State, v: View, channel: Option<Channel>, i: nat)
    requires i < |s.pending|
  {
    var e := s.pending[i];
    && e.request <= 0 && Till(s.till, e.page) <= v.now
    && e.page in v.items && v.items[e.page].channel == channel
  }

  function Marks(s: State, v: View, channel: Option<Channel>, n: nat): seq<bool>
    requires n <= |s.pending|
  {
    seq(n, i requires 0 <= i < n => AsksAt(s, v, channel, i))
  }

  /** The messages of the items of the first n pages; zero for a page without. */
  function Messages(s: State, v: View, n: nat): seq<MsgId>
    requires n <= |s.pending|
  {
    seq(n, i requires 0 <= i < n => if s.pending[i].page in v.items then v.items[s.pending[i].page].id else 0)
  }

  lemma OnePageMore(s: State, v: View, channel: Option<Channel>, n: nat)
    requires n < |s.pending|
    ensures var id := if s.pending[n].page in v.items then v.items[s.pending[n].page].id else 0;
            var asks := AsksAt(s, v, channel, n);
            var before := Wanted(s.pending, s.till, v, channel, n);
            && Messages(s, v, n + 1) == Messages(s, v, n) + [id]
            && Marks(s, v, channel, n + 1) == Marks(s, v, channel, n) + [asks]
            && Wanted(s.pending, s.till, v, channel, n + 1) == if asks then before + [id] else before
  {
  }

  /** The messages asked for in a channel are those of exactly the pages that ask there, in their order. */
  lemma {:induction false} WantedAre(s: State, v: View, channel: Option<Channel>, n: nat)
    requires n <= |s.pending|
    ensures Selected(Messages(s, v, n), Marks(s, v, channel, n), Wanted(s.pending, s.till, v, channel, n))
  {
    if n == 0 {
      SelectedNone(Messages(s, v, 0), Marks(s, v, channel, 0), Wanted(s.pending, s.till, v, channel, 0));
    } else {
      hide Selected, Messages, Marks, AsksAt, Wanted;
      var m := n - 1;
      WantedAre(s, v, channel, m);
      var before := Wanted(s.pending, s.till, v, channel, m);
      var id := if s.pending[m].page in v.items then v.items[s.pending[m].page].id else 0;
      SelectedMore(Messages(s, v, m), Marks(s, v, channel, m), before, id, AsksAt(s, v, channel, m));
      OnePageMore(s, v, channel, m);
    }
  }

  /** A new request carries exactly the messages of the pages that ask in its channel, in their order. */
  lemma SentAre(s: State, v: View, t: State, r: int)
    requires Resolved(s, v, t) && r in t.net.flying && r !in s.net.flying
    ensures var n := |s.pending|;
            var sent := t.net.flying[r];
            sent.ids != [] && Selected(Messages(s, v, n), Marks(s, v, sent.channel, n), sent.ids)
  {
    hide Selected, TimerResolved;
    assert New(s, t, r);
    WantedAre(s, v, t.net.flying[r].channel, |s.pending|);
  }

  /** The i-th page is not due: it waits that many seconds. */
  predicate WaitsAt(s: State, v: View, i: int, seconds: int) {
    && 0 <= i < |s.pending| && s.pending[i].request <= 0
    && seconds == Till(s.till, s.pending[i].page) - v.now > 0
  }

  /** After a pass the timer is set for the page that has the least to wait, and off when none waits. */
  lemma PassTimer(s: State, v: View, t: State)
    requires Sound(s) && Resolved(s, v, t) && v.now > 0
    ensures t.timer.None? <==> forall i, seconds :: !WaitsAt(s, v, i, seconds)
    ensures t.timer.Some? ==>
              && (exists i, seconds :: WaitsAt(s, v, i, seconds) && t.timer.value == v.ms + 1000 * seconds)
              && (forall i, seconds :: WaitsAt(s, v, i, seconds) ==> t.timer.value <= v.ms + 1000 * seconds)
  {
    hide SentResolved;
    var m :| LeastWait(s.pending, s.till, v, |s.pending|, m)
             && t.timer == (if m < INT_MAX then Some(v.ms + m * 1000) else None);
    forall i, seconds | WaitsAt(s, v, i, seconds) ensures m <= seconds < INT_MAX {
      assert Waits(s.pending[i], s.till, v);
    }
    if m < INT_MAX {
      var i :| 0 <= i < |s.pending| && Waits(s.pending[i], s.till, v)
               && m == Till(s.till, s.pending[i].page) - v.now;
      assert WaitsAt(s, v, i, m);
    }
  }

  /** A page with a time asked for waits, without a request, and the timer fires no later than it becomes due. */
  lemma RequestedWaits(s: State, p: Page, now: int, ms: int, t: State)
    requires Inv(s) && Step(s, Request(p, now, ms), t) && Till(s.till, p) > 0
    ensures var left := (Till(s.till, p) - now) * 1000;
            var due := ms + (if left < 0 then 0 else left) + 1;
            && Holds(t.pending, p, 0) && Distinct(t.pending)
            && t.timer.Some? && t.timer.value <= due
            && (s.timer.Some? ==> t.timer.value == due || t.timer == s.timer)
            && (s.timer.None? ==> t.timer.value == due)
            && (forall e: Entry :: e.page != p ==> (e in t.pending <==> e in s.pending))
  {
    InsertedIs(s.pending, p, t.pending);
    if i :| 0 <= i < |s.pending| && s.pending[i].page == p && t.pending == s.pending[i := Entry(p, 0)] {
      assert t.pending[i] == Entry(p, 0);
    } else {
      var i :| 0 <= i <= |s.pending| && t.pending == s.pending[..i] + [Entry(p, 0)] + s.pending[i..];
      assert t.pending[i] == Entry(p, 0);
    }
  }

  /** An answer ends the wait of exactly the pages that held its request. */
  lemma RepliedIsOver(s: State, r: int, t: State)
    requires Inv(s) && r in s.net.flying && Step(s, Reply(r), t)
    ensures forall e :: e in t.pending <==> e in s.pending && e.request != r
    ensures forall p :: Holds(s.pending, p, r) && Till(s.till, p) > 0 ==> Till(t.till, p) == -1
    ensures forall p :: !Holds(s.pending, p, r) ==> Till(t.till, p) == Till(s.till, p)
    ensures t.timer == s.timer
  {
    UnansweredIs(s.pending, r);
  }

  /** A page that is cleared is pending no more, the others are, and the timer stops with the last one. */
  lemma ClearedIsGone(s: State, p: Page, t: State)
    requires Step(s, Clear(p), t)
    ensures forall e :: e in t.pending <==> e in s.pending && e.page != p
    ensures t.timer == (if t.pending == [] then None else s.timer) && t.till == s.till && t.net == s.net
  {
    WithoutIs(s.pending, p);
  }

  lemma AllClearedAreGone(s: State, t: State)
    requires Step(s, ClearAll, t)
    ensures t.pending == [] && t.timer.None? && t.till == s.till && t.net == s.net
  {
  }

  /** The pages that were assigned, are not due or have no item are not touched by a pass. */
  lemma PassKeepsOthers(s: State, v: View, t: State, i: nat)
    requires Resolved(s, v, t) && i < |s.pending| && !Asks(s.pending[i], s.till, v)
    ensures t.pending[i] == s.pending[i]
  {
    assert EntryResolved(s, v, t, i);
  }

  /** An event that takes the page out of the map or asks for it again. */
  predicate Touches(e: Event, p: Page) {
    e == Clear(p) || e == ClearAll || (e.Request? && e.page == p)
  }

  lemma FailedStep(s: State, e: Event, t: State, p: Page, r: int)
    requires Inv(s) && Enabled(s, e) && Step(s, e, t)
    requires r in s.net.failed && Holds(s.pending, p, r) && !Touches(e, p)
    ensures r in t.net.failed && Holds(t.pending, p, r)
  {
    match e
    case Request(q, now, ms) =>
      if Till(s.till, q) > 0 {
        InsertedIs(s.pending, q, t.pending);
      }
    case Clear(q) => WithoutIs(s.pending, q);
    case Reply(q) => UnansweredIs(s.pending, q);
    case Fire(v) =>
      var i :| 0 <= i < |s.pending| && s.pending[i] == Entry(p, r);
      PassKeepsOthers(s.(timer := None), v, t, i);
      assert t.pending[i] in t.pending;
    case _ =>
  }

  /** There is no failure handler: a page whose request failed keeps it until it is asked for again. */
  lemma {:induction false} FailedStaysAssigned(states: seq<State>, events: seq<Event>, j: nat, k: nat, p: Page, r: int)
    requires Run(states, events) && j <= k < |states|
    requires r in states[j].net.failed && Holds(states[j].pending, p, r)
    requires forall i :: j <= i < k ==> !Touches(events[i], p)
    ensures Holds(states[k].pending, p, r) && r in states[k].net.failed
  {
    if j < k {
      hide Inv, Step, Enabled, Touches, Holds;
      FailedStaysAssigned(states, events, j, k - 1, p, r);
      RunInv(states, events, k - 1);
      assert !Touches(events[k - 1], p);
      FailedStep(states[k - 1], events[k - 1], states[k], p, r);
    }
  }

  // ---- Pages without a timer ----

  /** A page waits and no timer will look at it. */
  predicate Unattended(s: State, p: Page) { s.timer.None? && Holds(s.pending, p, 0) }

  predicate Leaves(s: State, v: View, i: int) {
    && 0 <= i < |s.pending| && LeftOut(s.pending[i], s.till, v)
    && forall j :: 0 <= j < |s.pending| ==> !Waits(s.pending[j], s.till, v)
  }

  /** A pass leaves a page unattended exactly when it is due without an item and no page has still to become due. */
  lemma PassLeavesExactlyWhen(s: State, v: View, t: State, i: int)
    requires Sound(s) && Resolved(s, v, t) && v.now > 0 && 0 <= i < |s.pending|
    ensures |t.pending| == |s.pending|
    ensures t.timer.None? && t.pending[i].request == 0 <==> Leaves(s, v, i)
  {
    hide SentResolved;
    var m :| LeastWait(s.pending, s.till, v, |s.pending|, m)
             && t.timer == (if m < INT_MAX then Some(v.ms + m * 1000) else None);
    assert EntryResolved(s, v, t, i);
    assert s.pending[i] in s.pending;
    forall j | 0 <= j < |s.pending| && Waits(s.pending[j], s.till, v) ensures m < INT_MAX {
      assert Till(s.till, s.pending[j].page) - v.now < INT_MAX;
    }
  }

  ghost predicate PassLeft(s: State, v: View, p: Page) { exists i :: Leaves(s, v, i) && s.pending[i].page == p }

  /** A request that starts the timer or moves it. */
  predicate Arms(s: State, e: Event) { e.Request? && Till(s.till, e.page) > 0 }

  predicate Clears(e: Event, p: Page) { e == Clear(p) || e == ClearAll }

  lemma UnattendedStep(s: State, e: Event, t: State, p: Page)
    requires Inv(s) && Enabled(s, e) && Step(s, e, t) && !e.Fire?
    ensures Unattended(t, p) <==> Unattended(s, p) && !Arms(s, e) && !Clears(e, p)
  {
    match e
    case Request(q, now, ms) =>
    case Clear(q) =>
      WithoutIs(s.pending, q);
      if Unattended(s, p) && q != p {
        assert Entry(p, 0) in Without(s.pending, q);
      }
    case Reply(r) => UnansweredIs(s.pending, r);
    case _ =>
  }

  /** The j-th event was a pass that left the page, and nothing has armed the timer or cleared the page since. */
  ghost predicate LeftSince(states: seq<State>, events: seq<Event>, j: int, k: nat, p: Page)
    requires Run(states, events) && k < |states|
  {
    && 0 <= j < k && events[j].Fire?
    && PassLeft(states[j], events[j].view, p)
    && (forall i :: j < i < k ==> !Arms(states[i], events[i]) && !Clears(events[i], p))
  }

  lemma PassUnattended(states: seq<State>, events: seq<Event>, k: nat, p: Page)
    requires Run(states, events) && k < |events| && events[k].Fire?
    ensures Unattended(states[k + 1], p) <==> PassLeft(states[k], events[k].view, p)
  {
    RunInv(states, events, k);
    var s, t, v := states[k], states[k + 1], events[k].view;
    assert Enabled(s, events[k]) && Step(s, events[k], t);
    var s0 := s.(timer := None);
    assert Resolved(s0, v, t) && Sound(s0);
    forall i | 0 <= i < |s.pending|
      ensures |t.pending| == |s.pending| && t.pending[i].page == s.pending[i].page
      ensures t.timer.None? && t.pending[i].request == 0 <==> Leaves(s, v, i)
    {
      assert EntryResolved(s0, v, t, i);
      PassLeavesExactlyWhen(s0, v, t, i);
      assert Leaves(s0, v, i) <==> Leaves(s, v, i);
    }
    hide Resolved, Step, Enabled, Leaves;
    if Unattended(t, p) {
      var i :| 0 <= i < |t.pending| && t.pending[i] == Entry(p, 0);
      assert Leaves(s, v, i);
    }
    if i :| Leaves(s, v, i) && s.pending[i].page == p {
      LeavesInside(s, v, i);
      assert t.pending[i] == Entry(p, 0);
    }
  }

  lemma LeavesInside(s: State, v: View, i: int)
    requires Leaves(s, v, i)
    ensures 0 <= i < |s.pending|
  {
  }

  /**
   * In every run a page waits with no timer exactly when some pass left it so and since then nothing
   * asked for a page and nobody cleared it.
   */
  lemma {:induction false} UnattendedExactlyWhen(states: seq<State>, events: seq<Event>, k: nat, p: Page)
    requires Run(states, events) && k < |states|
    ensures Unattended(states[k], p) <==> exists j :: LeftSince(states, events, j, k, p)
  {
    if k == 0 {
      assert states[0] == INITIAL;
    } else {
      var s, e, t := states[k - 1], events[k - 1], states[k];
      assert Enabled(s, e) && Step(s, e, t);
      RunInv(states, events, k - 1);
      if e.Fire? {
        PassUnattended(states, events, k - 1, p);
      } else {
        UnattendedStep(s, e, t, p);
      }
      UnattendedExactlyWhen(states, events, k - 1, p);
      hide Step, Enabled, Inv, Unattended, PassLeft;
      SinceBack(states, events, k - 1, k, p);
    }
  }

  lemma SinceBack(states: seq<State>, events: seq<Event>, m: nat, k: nat, p: Page)
    requires Run(states, events) && m < |events| && k == m + 1
    ensures (exists j :: LeftSince(states, events, j, k, p))
            <==> (events[m].Fire? && PassLeft(states[m], events[m].view, p))
                 || ((exists j :: LeftSince(states, events, j, m, p))
                     && !Arms(states[m], events[m]) && !Clears(events[m], p))
  {
    hide Enabled, Step, PassLeft, Arms, Clears;
    if j :| LeftSince(states, events, j, m, p) {
      if !Arms(states[m], events[m]) && !Clears(events[m], p) {
        assert LeftSince(states, events, j, k, p);
      }
    }
    if j :| LeftSince(states, events, j, k, p) {
      if j < m {
        assert LeftSince(states, events, j, m, p);
      }
    }
    if events[m].Fire? && PassLeft(states[m], events[m].view, p) {
      assert LeftSince(states, events, m, k, p);
    }
  }

  /** The state in which one page waits and the timer is about to fire. */
  function OneWaits(p: Page, till: int): State {
    State([Entry(p, 0)], map[p := till], Some(1), Net(1, map[], {}, {}))
  }

  /** Two events lead there: the page gets its time, which has passed, and is asked for. */
  lemma OneAsked(p: Page, till: int, now: int) returns (s: State)
    requires 0 < till <= now
    ensures Step(INITIAL, SetTill(p, till), s) && Step(s, Request(p, now, 0), OneWaits(p, till))
  {
    s := INITIAL.(till := map[p := till]);
    assert INITIAL.till[p := till] == map[p := till];
    assert s.pending[..0] + [Entry(p, 0)] + s.pending[0..] == [Entry(p, 0)];
  }

  /** It happens: a page asked for after its time whose message is not there. */
  lemma UnattendedCanHappen(p: Page, till: int, now: int)
    requires 0 < till <= now && till <= INT_MAX
    ensures exists states, events :: Run(states, events) && |events| == 3 && Unattended(states[3], p)
  {
    hide Step, Resolved;
    var v := View(now, 1, map[]);
    var e := [SetTill(p, till), Request(p, now, 0), Fire(v)];
    var s1 := OneAsked(p, till, now);
    var s2 := OneWaits(p, till);
    var s3 := s2.(timer := None, net := s2.net.(skipped := {p}));
    AloneIsLeft(s2.(timer := None), v, s3, p);
    PassIsStep(s2, v, s3);
    var states := [INITIAL, s1, s2, s3];
    assert Entry(p, 0) in s3.pending;
    assert Run(states, e);
  }

  lemma PassIsStep(s: State, v: View, t: State)
    requires Resolved(s.(timer := None), v, t)
    ensures Step(s, Fire(v), t)
  {
    hide Resolved;
  }

  lemma AloneIsLeft(s: State, v: View, t: State, p: Page)
    requires s.pending == [Entry(p, 0)] && Till(s.till, p) <= v.now && v.items == map[] && s.timer.None?
    requires s.net.flying == map[] && t == s.(net := s.net.(skipped := {p}))
    ensures Resolved(s, v, t)
  {
    assert LeastWait(s.pending, s.till, v, 1, INT_MAX);
    assert forall c :: AllWanted(s, v, c) == Wanted(s.pending, s.till, v, c, 0) + [];
    assert LeftOut(s.pending[0], s.till, v);
  }

  // ---- Requests that failed ----

  /** The event as which a request failed. */
  predicate FailedAt(events: seq<Event>, j: int, k: nat, r: int) { 0 <= j < k <= |events| && events[j] == Fail(r) }

  lemma {:induction false} FailedAreEvents(states: seq<State>, events: seq<Event>, k: nat, r: int)
    requires Run(states, events) && k < |states|
    ensures r in states[k].net.failed <==> exists j :: FailedAt(events, j, k, r)
  {
    if k == 0 {
      assert states[0] == INITIAL;
    } else {
      var m := k - 1;
      assert Enabled(states[m], events[m]) && Step(states[m], events[m], states[k]);
      FailedAreEvents(states, events, m, r);
      if j :| FailedAt(events, j, m, r) {
        assert FailedAt(events, j, k, r);
      }
      if j :| FailedAt(events, j, k, r) {
        if j < m {
          assert FailedAt(events, j, m, r);
        }
      }
      assert events[m] == Fail(r) ==> FailedAt(events, m, k, r);
    }
  }

  /** A page holds a request that is no longer out exactly when that request has failed. */
  lemma DeadRequestExactlyWhen(states: seq<State>, events: seq<Event>, k: nat, p: Page, r: int)
    requires Run(states, events) && k < |states| && r > 0 && Holds(states[k].pending, p, r)
    ensures r !in states[k].net.flying <==> exists j :: FailedAt(events, j, k, r)
  {
    RunInv(states, events, k);
    FailedAreEvents(states, events, k, r);
  }

  /** It happens: a page is asked for after its time, its request is sent, and fails. */
  lemma DeadRequestCanHappen(p: Page, till: int, now: int, item: Item)
    requires 0 < till <= now && till <= INT_MAX
    ensures exists states: seq<State>, events: seq<Event> ::
              Run(states, events) && |events| == 4 && Holds(states[4].pending, p, 1) && 1 !in states[4].net.flying
  {
    hide Step, Resolved;
    var v := View(now, 1, map[p := item]);
    var e := [SetTill(p, till), Request(p, now, 0), Fire(v), Fail(1)];
    var s1 := OneAsked(p, till, now);
    var s2 := OneWaits(p, till);
    var s3 := s2.(pending := [Entry(p, 1)], timer := None,
                  net := Net(2, map[1 := Sent(item.channel, [item.id])], {}, {}));
    var s4 := s3.(net := Net(2, map[], {1}, {}));
    AloneIsSent(s2.(timer := None), v, s3, p, item);
    PassIsStep(s2, v, s3);
    FailIsStep(s3, s4);
    var states := [INITIAL, s1, s2, s3, s4];
    assert Entry(p, 1) in s4.pending;
    assert Run(states, e);
  }

  lemma FailIsStep(s: State, t: State)
    requires s.net.failed == {} && s.net.flying.Keys == {1}
    requires t == s.(net := Net(s.net.next, map[], {1}, s.net.skipped))
    ensures Step(s, Fail(1), t)
  {
    assert s.net.flying - {1} == map[];
  }

  lemma AloneIsSent(s: State, v: View, t: State, p: Page, item: Item)
    requires s.pending == [Entry(p, 0)] && Till(s.till, p) <= v.now && v.items == map[p := item] && s.timer.None?
    requires s.net == Net(1, map[], {}, {})
    requires t == s.(pending := [Entry(p, 1)], net := Net(2, map[1 := Sent(item.channel, [item.id])], {}, {}))
    ensures Resolved(s, v, t)
  {
    assert LeastWait(s.pending, s.till, v, 1, INT_MAX);
    forall c ensures AllWanted(s, v, c) == if c == item.channel then [item.id] else [] {
      assert Wanted(s.pending, s.till, v, c, 0) == [];
    }
    assert New(s, t, 1);
    assert EntryResolved(s, v, t, 0);
  }
}
