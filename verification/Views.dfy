/** Batched counting of message views (api_views.cpp:32-135). */
module Views {
  type Peer = nat
  type MsgId = nat

  datatype Key = Key(peer: Peer, id: MsgId)

  datatype Sent = Sent(peer: Peer, ids: set<MsgId>)

  type Ids = map<Peer, set<MsgId>>

  /** The requests in flight and, as history, how often each message was queued and sent. */
  datatype Net = Net(next: nat, flying: map<nat, Sent>, queued: multiset<Key>, sent: multiset<Key>)

  datatype State = State(incremented: Ids, waiting: Ids, requests: map<Peer, nat>, timer: bool, net: Net)

  const INITIAL := State(map[], map[], map[], false, Net(1, map[], multiset{}, multiset{}))

  function At(ids: Ids, p: Peer): set<MsgId> { if p in ids then ids[p] else {} }

  function With(ids: Ids, p: Peer, id: MsgId): Ids { ids[p := At(ids, p) + {id}] }

  predicate Has(ids: Ids, k: Key) { k.id in At(ids, k.peer) }

  // ---- Steps ----

  /** scheduleIncrement */
  function Scheduled(s: State, k: Key): State {
    if Has(s.incremented, k) then s
    else s.(incremented := With(s.incremented, k.peer, k.id),
            waiting := With(s.waiting, k.peer, k.id),
            timer := s.timer || k.peer !in s.waiting,
            net := s.net.(queued := s.net.queued + multiset{k}))
  }

  predicate Goes(s: State, p: Peer) { p in s.waiting && p !in s.requests }

  /** Each waiting peer without an entry gets a request of its own with all its ids. */
  ghost predicate RequestsFired(s: State, t: State) {
    && s.net.next <= t.net.next
    && (forall p :: p in s.requests ==> p in t.requests && t.requests[p] == s.requests[p])
    && (forall p :: Goes(s, p) ==>
          p in t.requests && s.net.next <= t.requests[p] < t.net.next
          && t.requests[p] in t.net.flying && t.net.flying[t.requests[p]] == Sent(p, s.waiting[p]))
    && (forall p :: p in t.requests ==> p in s.requests || Goes(s, p))
    && (forall r :: r in s.net.flying ==> r in t.net.flying && t.net.flying[r] == s.net.flying[r])
    && (forall r :: r in t.net.flying && r !in s.net.flying ==>
          s.net.next <= r && Goes(s, t.net.flying[r].peer) && t.requests[t.net.flying[r].peer] == r)
  }

  /** viewsIncrement, run by the timer, which is idle from then on. */
  ghost predicate Fired(s: State, t: State) {
    && t.incremented == s.incremented && !t.timer
    && t.waiting == (map p | p in s.waiting && p in s.requests :: s.waiting[p])
    && RequestsFired(s, t)
    && t.net.queued == s.net.queued
    && (forall k {:trigger t.net.sent[k]} ::
          t.net.sent[k] == s.net.sent[k] + if Goes(s, k.peer) && Has(s.waiting, k) then 1 else 0)
  }

  /** The entries that do not hold a request. */
  function Freed(requests: map<Peer, nat>, r: nat): map<Peer, nat> {
    map p | p in requests && requests[p] != r :: requests[p]
  }

  /** done and fail: only a failure or a reply of the right length frees the peer. */
  function Answered(s: State, r: nat, frees: bool): State {
    s.(requests := if frees then Freed(s.requests, r) else s.requests,
       timer := s.timer || s.waiting != map[],
       net := s.net.(flying := s.net.flying - {r}))
  }

  /** A reply carries one count for each id it was asked for, or some other number of them. */
  datatype Event =
    | Schedule(key: Key)
    | Remove(peer: Peer)
    | Fire
    | Done(req: nat, count: nat)
    | Fail(req: nat)

  predicate Enabled(s: State, e: Event) {
    match e
    case Fire => s.timer
    case Done(r, n) => r in s.net.flying
    case Fail(r) => r in s.net.flying
    case _ => true
  }

  ghost predicate Step(s: State, e: Event, t: State)
    requires Enabled(s, e)
  {
    match e
    case Schedule(k) => t == Scheduled(s, k)
    case Remove(p) => t == s.(incremented := s.incremented - {p})
    case Fire => Fired(s, t)
    case Done(r, n) => t == Answered(s, r, n == |s.net.flying[r].ids|)
    case Fail(r) => t == Answered(s, r, true)
  }

  ghost predicate Took(s: State, e: Event, t: State) { Enabled(s, e) && Step(s, e, t) }

  // ---- What every run keeps ----

  /** Every request in flight is the one its peer has an entry for. */
  predicate HasEntry(s: State) {
    forall r :: r in s.net.flying ==>
      r < s.net.next && s.net.flying[r].peer in s.requests && s.requests[s.net.flying[r].peer] == r
  }

  /** No two entries hold the same request. */
  predicate EntriesApart(s: State) {
    && (forall p :: p in s.requests ==> s.requests[p] < s.net.next)
    && (forall p, q :: p in s.requests && q in s.requests && s.requests[p] == s.requests[q] ==> p == q)
  }

  /** Never two requests for one peer. */
  predicate OneEach(s: State) { HasEntry(s) && EntriesApart(s) }

  /** With the timer idle every waiting peer has an entry already. */
  predicate Woken(s: State) { !s.timer ==> forall p :: p in s.waiting ==> p in s.requests }

  /**
   * A message is sent no more often than it was queued, and while it waits once less; what was
   * queued was sent or waits; what is marked was queued.
   */
  ghost predicate Counted(s: State) {
    && (forall k {:trigger s.net.sent[k]} :: s.net.sent[k] + (if Has(s.waiting, k) then 1 else 0) <= s.net.queued[k])
    && (forall k {:trigger s.net.sent[k]} :: s.net.queued[k] > 0 ==> s.net.sent[k] > 0 || Has(s.waiting, k))
    && (forall k {:trigger Has(s.incremented, k)} :: Has(s.incremented, k) ==> s.net.queued[k] > 0)
  }

  predicate NoEmpty(s: State) { forall p :: p in s.waiting ==> s.waiting[p] != {} }

  ghost predicate Inv(s: State) { OneEach(s) && Woken(s) && Counted(s) && NoEmpty(s) }

  lemma WithHas(ids: Ids, k: Key, l: Key)
    ensures Has(With(ids, k.peer, k.id), l) <==> l == k || Has(ids, l)
  {
  }

  lemma ScheduledInv(s: State, k: Key)
    requires Inv(s)
    ensures Inv(Scheduled(s, k))
  {
    var t := Scheduled(s, k);
    hide OneEach;
    OneEachStays(s, t);
    if !Has(s.incremented, k) {
      forall l
        ensures Has(t.waiting, l) <==> l == k || Has(s.waiting, l)
        ensures Has(t.incremented, l) <==> l == k || Has(s.incremented, l)
      {
        WithHas(s.waiting, k, l);
        WithHas(s.incremented, k, l);
      }
      hide Has, At;
      assert forall l :: t.net.sent[l] == s.net.sent[l];
    }
  }

  lemma OneEachStays(s: State, t: State)
    requires OneEach(s) && t.requests == s.requests && t.net.flying == s.net.flying && t.net.next == s.net.next
    ensures OneEach(t)
  {
  }

  lemma RemoveInv(s: State, p: Peer)
    requires Inv(s)
    ensures Inv(s.(incremented := s.incremented - {p}))
  {
    var t := s.(incremented := s.incremented - {p});
    hide OneEach;
    OneEachStays(s, t);
    forall l ensures Has(t.incremented, l) ==> Has(s.incremented, l) {
    }
    assert forall l :: t.net.sent[l] == s.net.sent[l];
  }

  lemma FiredHasEntry(s: State, t: State)
    requires HasEntry(s) && RequestsFired(s, t)
    ensures HasEntry(t)
  {
    forall r | r in t.net.flying
      ensures r < t.net.next && t.net.flying[r].peer in t.requests && t.requests[t.net.flying[r].peer] == r
    {
      if r in s.net.flying {
        assert t.net.flying[r] == s.net.flying[r];
      }
    }
  }

  lemma FiredApart(s: State, t: State)
    requires EntriesApart(s) && RequestsFired(s, t)
    ensures EntriesApart(t)
  {
    forall p, q | p in t.requests && q in t.requests && t.requests[p] == t.requests[q]
      ensures p == q
    {
      if Goes(s, p) && Goes(s, q) {
        assert t.net.flying[t.requests[p]].peer == p;
      }
    }
  }

  lemma FiredOneEach(s: State, t: State)
    requires OneEach(s) && RequestsFired(s, t)
    ensures OneEach(t)
  {
    hide HasEntry, EntriesApart, RequestsFired;
    FiredHasEntry(s, t);
    FiredApart(s, t);
  }

  lemma FiredCounted(s: State, t: State)
    requires Counted(s) && Fired(s, t)
    ensures Counted(t)
  {
    hide RequestsFired;
    forall k
      ensures Has(t.waiting, k) <==> Has(s.waiting, k) && k.peer in s.requests
    {
    }
    forall k
      ensures t.net.sent[k] + (if Has(t.waiting, k) then 1 else 0)
           == s.net.sent[k] + (if Has(s.waiting, k) then 1 else 0)
    {
      assert t.net.sent[k] == s.net.sent[k] + if Goes(s, k.peer) && Has(s.waiting, k) then 1 else 0;
    }
  }

  lemma FiredInv(s: State, t: State)
    requires Inv(s) && Fired(s, t)
    ensures Inv(t)
  {
    FiredOneEach(s, t);
    FiredCounted(s, t);
    hide OneEach, Counted;
  }

  lemma AnsweredInv(s: State, r: nat, frees: bool)
    requires Inv(s)
    ensures Inv(Answered(s, r, frees))
  {
    var t := Answered(s, r, frees);
    AnsweredOneEach(s, r, frees);
    hide OneEach;
    assert forall k :: t.net.sent[k] == s.net.sent[k];
  }

  lemma AnsweredOneEach(s: State, r: nat, frees: bool)
    requires OneEach(s)
    ensures OneEach(Answered(s, r, frees))
  {
  }

  lemma StepInv(s: State, e: Event, t: State)
    requires Inv(s) && Took(s, e, t)
    ensures Inv(t)
  {
    hide Inv, Fired, Scheduled, Answered;
    match e
    case Schedule(k) => ScheduledInv(s, k);
    case Remove(p) => RemoveInv(s, p);
    case Fire => FiredInv(s, t);
    case Done(r, n) => AnsweredInv(s, r, n == |s.net.flying[r].ids|);
    case Fail(r) => AnsweredInv(s, r, true);
  }

  // ---- Runs ----

  ghost predicate Run(states: seq<State>, events: seq<Event>) {
    && |states| == |events| + 1
    && states[0] == INITIAL
    && (forall k :: 0 <= k < |events| ==> Took(states[k], events[k], states[k + 1]))
  }

  /**
   * In every state of every run: an idle timer means every waiting peer has its entry, no peer has
   * two requests in flight, and nothing is sent more often than it was queued.
   */
  lemma {:induction false} RunInv(states: seq<State>, events: seq<Event>, n: nat)
    requires Run(states, events) && n < |states|
    ensures Inv(states[n])
  {
    if n > 0 {
      hide Inv, Took;
      RunInv(states, events, n - 1);
      StepInv(states[n - 1], events[n - 1], states[n]);
    } else {
      assert states[0] == INITIAL;
    }
  }

  /** No two requests in flight are for one peer. */
  lemma OneRequestPerPeer(states: seq<State>, events: seq<Event>, n: nat, q: nat, r: nat)
    requires Run(states, events) && n < |states|
    requires q in states[n].net.flying && r in states[n].net.flying
    ensures states[n].net.flying[q].peer == states[n].net.flying[r].peer <==> q == r
  {
    RunInv(states, events, n);
  }

  predicate Queues(s: State, e: Event, k: Key) { e == Schedule(k) && !Has(s.incremented, k) }

  lemma {:induction false} MarkStays(states: seq<State>, events: seq<Event>, i: nat, j: nat, k: Key)
    requires Run(states, events) && i <= j < |states|
    requires Has(states[i].incremented, k)
    requires forall m :: i <= m < j ==> events[m] != Remove(k.peer)
    ensures Has(states[j].incremented, k)
  {
    if i < j {
      MarkStays(states, events, i, j - 1, k);
      assert Took(states[j - 1], events[j - 1], states[j]);
    }
  }

  /** Between two queueings of one message its peer's marks were removed. */
  lemma QueuedOnceBetweenRemovals(states: seq<State>, events: seq<Event>, i: nat, j: nat, k: Key)
    requires Run(states, events) && i < j < |events|
    requires Queues(states[i], events[i], k) && Queues(states[j], events[j], k)
    ensures exists m :: i < m < j && events[m] == Remove(k.peer)
  {
    if forall m :: i < m < j ==> events[m] != Remove(k.peer) {
      assert Took(states[i], events[i], states[i + 1]);
      WithHas(states[i].incremented, k, k);
      hide Took;
      MarkStays(states, events, i + 1, j, k);
    }
  }

  // ---- What each event does to a message ----

  /** A message not marked yet is marked and waits, and the timer is running or its peer waited already. */
  lemma ScheduledWaits(s: State, k: Key, t: State)
    requires Took(s, Schedule(k), t)
    ensures Has(t.incremented, k)
    ensures !Has(s.incremented, k) ==>
              && Has(t.waiting, k) && (t.timer <==> s.timer || k.peer !in s.waiting)
              && t.net.queued == s.net.queued + multiset{k}
    ensures Has(s.incremented, k) ==> t == s
    ensures forall l :: l != k ==>
              (Has(t.waiting, l) <==> Has(s.waiting, l)) && (Has(t.incremented, l) <==> Has(s.incremented, l))
    ensures t.requests == s.requests && t.net.flying == s.net.flying
  {
    forall l
      ensures Has(With(s.waiting, k.peer, k.id), l) <==> l == k || Has(s.waiting, l)
      ensures Has(With(s.incremented, k.peer, k.id), l) <==> l == k || Has(s.incremented, l)
    {
      WithHas(s.waiting, k, l);
      WithHas(s.incremented, k, l);
    }
  }

  /** So no message of a run is forgotten: it was sent, or it waits with its peer being asked or the timer running. */
  lemma ViewedIsSentOrWaits(states: seq<State>, events: seq<Event>, i: nat, n: nat, k: Key)
    requires Run(states, events) && i < n < |states| && events[i] == Schedule(k)
    ensures states[n].net.sent[k] > 0
            || (Has(states[n].waiting, k) && (states[n].timer || k.peer in states[n].requests))
  {
    assert Took(states[i], events[i], states[i + 1]);
    ScheduledWaits(states[i], k, states[i + 1]);
    RunInv(states, events, i + 1);
    assert states[i + 1].net.queued[k] > 0;
    hide Took, Inv;
    QueuedStays(states, events, i + 1, n, k);
    RunInv(states, events, n);
    WaitsOrSent(states[n], k);
  }

  lemma WaitsOrSent(s: State, k: Key)
    requires Inv(s) && s.net.queued[k] > 0
    ensures s.net.sent[k] > 0 || (Has(s.waiting, k) && (s.timer || k.peer in s.requests))
  {
    assert s.net.sent[k] > 0 || Has(s.waiting, k);
  }

  lemma {:induction false} QueuedStays(states: seq<State>, events: seq<Event>, i: nat, n: nat, k: Key)
    requires Run(states, events) && i <= n < |states| && states[i].net.queued[k] > 0
    ensures states[n].net.queued[k] > 0
  {
    if i < n {
      QueuedStays(states, events, i, n - 1, k);
      assert Took(states[n - 1], events[n - 1], states[n]);
    }
  }

  /** When the timer fires, what waits for a peer with no request out goes out, all of it in one request. */
  lemma FiredSends(s: State, t: State, p: Peer)
    requires Took(s, Fire, t) && p in s.waiting
    ensures p in s.requests ==> p in t.waiting && t.waiting[p] == s.waiting[p] && t.requests[p] == s.requests[p]
    ensures p !in s.requests ==>
              && p !in t.waiting && p in t.requests && t.requests[p] in t.net.flying
              && t.net.flying[t.requests[p]] == Sent(p, s.waiting[p])
    ensures forall k: Key :: k.peer == p ==>
              t.net.sent[k] == s.net.sent[k] + if p !in s.requests && k.id in s.waiting[p] then 1 else 0
    ensures t.incremented == s.incremented && !t.timer
  {
    assert p !in s.requests ==> Goes(s, p);
    forall k: Key | k.peer == p
      ensures t.net.sent[k] == s.net.sent[k] + if p !in s.requests && k.id in s.waiting[p] then 1 else 0
    {
      assert t.net.sent[k] == s.net.sent[k] + if Goes(s, k.peer) && Has(s.waiting, k) then 1 else 0;
    }
  }

  /** After its marks were removed a peer's messages can be queued again; those that wait still do. */
  lemma RemovedIsUnmarked(s: State, p: Peer, t: State)
    requires Took(s, Remove(p), t)
    ensures forall k :: Has(t.incremented, k) <==> Has(s.incremented, k) && k.peer != p
    ensures t.waiting == s.waiting && t.requests == s.requests && t.net == s.net && t.timer == s.timer
  {
  }

  /** An answer with a count for each message, or a failure, lets its peer be asked again, and only that one. */
  lemma AnswerFrees(s: State, e: Event, t: State, r: nat)
    requires Inv(s) && Took(s, e, t) && r in s.net.flying
    requires e == Fail(r) || e == Done(r, |s.net.flying[r].ids|)
    ensures s.net.flying[r].peer !in t.requests && r !in t.net.flying
    ensures forall p :: p != s.net.flying[r].peer ==>
              (p in t.requests <==> p in s.requests) && (p in s.requests ==> t.requests[p] == s.requests[p])
    ensures forall q :: q in s.net.flying && q != r ==> q in t.net.flying && t.net.flying[q] == s.net.flying[q]
    ensures t.waiting == s.waiting && (s.waiting != map[] ==> t.timer)
  {
  }

  /** A reply with the wrong number of counts. */
  predicate Wrong(s: State, e: Event, r: nat) {
    e.Done? && e.req == r && r in s.net.flying && e.count != |s.net.flying[r].ids|
  }

  lemma GoneStep(s: State, e: Event, t: State, r: nat)
    requires Inv(s) && Took(s, e, t)
    requires r < s.net.next && r !in s.net.flying
    ensures r < t.net.next && r !in t.net.flying
  {
  }

  /** A request that is no longer in flight never is again. */
  lemma {:induction false} GoneStaysGone(states: seq<State>, events: seq<Event>, i: nat, j: nat, r: nat)
    requires Run(states, events) && i <= j < |states|
    requires r < states[i].net.next && r !in states[i].net.flying
    ensures r < states[j].net.next && r !in states[j].net.flying
  {
    if i < j {
      assert Took(states[j - 1], events[j - 1], states[j]);
      hide Inv, Took, Run;
      GoneStaysGone(states, events, i, j - 1, r);
      RunInv(states, events, j - 1);
      GoneStep(states[j - 1], events[j - 1], states[j], r);
    }
  }

  lemma EntryStep(s: State, e: Event, t: State, p: Peer)
    requires Inv(s) && Took(s, e, t) && p in t.requests
    ensures t.requests[p] in t.net.flying
            || (p in s.requests && s.requests[p] == t.requests[p]
                && (t.requests[p] !in s.net.flying || Wrong(s, e, t.requests[p])))
  {
  }

  lemma {:induction false} DeadWasWrong(states: seq<State>, events: seq<Event>, n: nat, p: Peer) returns (j: nat)
    requires Run(states, events) && n < |states| && p in states[n].requests
    requires states[n].requests[p] !in states[n].net.flying
    ensures j < n && Wrong(states[j], events[j], states[n].requests[p])
  {
    hide Took, Inv, Run, Wrong;
    NotAtFirst(states, events, n, p);
    RunInv(states, events, n - 1);
    EntryStep(states[n - 1], events[n - 1], states[n], p);
    j := n - 1;
    if states[n].requests[p] !in states[n - 1].net.flying {
      j := DeadWasWrong(states, events, n - 1, p);
    }
  }

  lemma NotAtFirst(states: seq<State>, events: seq<Event>, n: nat, p: Peer)
    requires Run(states, events) && n < |states| && p in states[n].requests
    ensures 0 < n <= |events| && |states| == |events| + 1 && Took(states[n - 1], events[n - 1], states[n])
  {
    assert states[0] == INITIAL;
  }

  lemma WrongEnds(states: seq<State>, events: seq<Event>, j: nat, n: nat, r: nat)
    requires Run(states, events) && j < n < |states| && Wrong(states[j], events[j], r)
    ensures r !in states[n].net.flying
  {
    RunInv(states, events, j);
    assert Took(states[j], events[j], states[j + 1]);
    assert r < states[j + 1].net.next;
    hide Took;
    GoneStaysGone(states, events, j + 1, n, r);
  }

  /** A peer's entry is dead exactly when its request was answered with the wrong number of counts. */
  lemma DeadExactlyWhen(states: seq<State>, events: seq<Event>, n: nat, p: Peer)
    requires Run(states, events) && n < |states| && p in states[n].requests
    ensures states[n].requests[p] !in states[n].net.flying
            <==> exists j :: 0 <= j < n && Wrong(states[j], events[j], states[n].requests[p])
  {
    hide Took;
    if states[n].requests[p] !in states[n].net.flying {
      var j := DeadWasWrong(states, events, n, p);
    }
    if j :| 0 <= j < n && Wrong(states[j], events[j], states[n].requests[p]) {
      WrongEnds(states, events, j, n, states[n].requests[p]);
    }
  }

  /** The peer's entry is dead and its messages wait. */
  predicate Stuck(s: State, p: Peer) { p in s.requests && s.requests[p] !in s.net.flying }

  /** It happens: a message is queued and sent, and the reply has the wrong number of counts. */
  lemma StuckCanHappen(k: Key, count: nat)
    requires count != 1
    ensures exists states, events :: Run(states, events) && |events| == 3 && Stuck(states[3], k.peer)
  {
    var events := [Schedule(k), Fire, Done(1, count)];
    var s1 := Scheduled(INITIAL, k);
    var s2 := State(s1.incremented, map[], map[k.peer := 1], false,
                    Net(2, map[1 := Sent(k.peer, {k.id})], multiset{k}, multiset{k}));
    SentAlone(s1, s2, k);
    var s3 := Answered(s2, 1, false);
    assert |{k.id}| == 1;
    var states := [INITIAL, s1, s2, s3];
    assert Took(INITIAL, events[0], s1) && Took(s1, events[1], s2) && Took(s2, events[2], s3);
    assert Run(states, events);
  }

  lemma SentAlone(s: State, t: State, k: Key)
    requires s == Scheduled(INITIAL, k)
    requires t == State(s.incremented, map[], map[k.peer := 1], false,
                        Net(2, map[1 := Sent(k.peer, {k.id})], multiset{k}, multiset{k}))
    ensures s.timer && Fired(s, t)
  {
    assert At(INITIAL.waiting, k.peer) + {k.id} == {k.id};
    assert !Has(INITIAL.incremented, k);
    assert s.waiting == map[k.peer := {k.id}];
    forall l
      ensures t.net.sent[l] == s.net.sent[l] + if Goes(s, l.peer) && Has(s.waiting, l) then 1 else 0
    {
    }
  }

  lemma StuckStep(s: State, e: Event, t: State, k: Key)
    requires Inv(s) && Took(s, e, t) && Stuck(s, k.peer)
    ensures Stuck(t, k.peer)
    ensures t.net.sent[k] == s.net.sent[k]
    ensures Has(s.waiting, k) ==> Has(t.waiting, k)
  {
    match e
    case Schedule(l) =>
      if !Has(s.incremented, l) {
        WithHas(s.waiting, l, k);
      }
    case Fire =>
      assert t.net.sent[k] == s.net.sent[k] + if Goes(s, k.peer) && Has(s.waiting, k) then 1 else 0;
    case _ =>
  }

  /** Such a peer stays so: its messages wait for ever and none of them is counted again. */
  lemma {:induction false} StuckForever(states: seq<State>, events: seq<Event>, i: nat, j: nat, k: Key)
    requires Run(states, events) && i <= j < |states| && Stuck(states[i], k.peer)
    ensures Stuck(states[j], k.peer)
    ensures states[j].net.sent[k] == states[i].net.sent[k]
    ensures Has(states[i].waiting, k) ==> Has(states[j].waiting, k)
  {
    if i < j {
      assert Took(states[j - 1], events[j - 1], states[j]);
      hide Inv, Took, Stuck, Has, Run;
      StuckForever(states, events, i, j - 1, k);
      RunInv(states, events, j - 1);
      StuckStep(states[j - 1], events[j - 1], states[j], k);
    }
  }
}
