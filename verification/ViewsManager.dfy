/** The views manager, updated in place, proved to take the steps of the model. */
module ViewsManager {
  import opened Views

  function Pairs(p: Peer, ids: set<MsgId>): set<Key> { set id | id in ids :: Key(p, id) }

  /** The state of the loop of viewsIncrement with the peers in todo still to visit. */
  ghost predicate Firing(s: State, todo: set<Peer>, t: State) {
    && t.incremented == s.incremented && t.timer == s.timer
    && todo <= s.waiting.Keys
    && (forall p :: p in t.waiting <==> p in s.waiting && (p in todo || p in s.requests))
    && (forall p :: p in t.waiting ==> t.waiting[p] == s.waiting[p])
    && (forall p :: p in todo ==> (p in t.requests <==> p in s.requests))
    && (forall p :: p in s.requests ==> p in t.requests)
    && t.net.queued == s.net.queued
    && (forall k {:trigger t.net.sent[k]} ::
          t.net.sent[k] == s.net.sent[k] + if Goes(s, k.peer) && k.peer !in todo && Has(s.waiting, k) then 1 else 0)
  }

  ghost predicate FiringEntries(s: State, todo: set<Peer>, t: State) {
    && s.net.next <= t.net.next
    && (forall p :: p in s.requests ==> p in t.requests && t.requests[p] == s.requests[p])
    && (forall p :: Goes(s, p) && p !in todo ==>
          p in t.requests && s.net.next <= t.requests[p] < t.net.next
          && t.requests[p] in t.net.flying && t.net.flying[t.requests[p]] == Sent(p, s.waiting[p]))
    && (forall p :: p in t.requests ==> p in s.requests || (Goes(s, p) && p !in todo))
  }

  ghost predicate FiringFlights(s: State, t: State) {
    && s.net.next <= t.net.next
    && (forall r :: r in t.net.flying ==> r < t.net.next)
    && (forall r :: r in s.net.flying ==> r in t.net.flying && t.net.flying[r] == s.net.flying[r])
    && (forall r :: r in t.net.flying && r !in s.net.flying ==>
          s.net.next <= r && Goes(s, t.net.flying[r].peer) && t.net.flying[r].peer in t.requests
          && t.requests[t.net.flying[r].peer] == r)
  }

  ghost predicate FiringRequests(s: State, todo: set<Peer>, t: State) {
    FiringEntries(s, todo, t) && FiringFlights(s, t)
  }

  /** A peer that has an entry is passed over. */
  lemma FiringSkip(s: State, todo: set<Peer>, t: State, p: Peer)
    requires Firing(s, todo, t) && FiringRequests(s, todo, t) && p in todo && p in t.requests
    ensures Firing(s, todo - {p}, t) && FiringRequests(s, todo - {p}, t)
  {
    assert !Goes(s, p);
    forall k
      ensures t.net.sent[k]
           == s.net.sent[k] + if Goes(s, k.peer) && k.peer !in todo - {p} && Has(s.waiting, k) then 1 else 0
    {
    }
  }

  function SentTo(t: State, p: Peer): State
    requires p in t.waiting
  {
    var r := t.net.next;
    t.(waiting := t.waiting - {p}, requests := t.requests[p := r],
       net := t.net.(next := r + 1, flying := t.net.flying[r := Sent(p, t.waiting[p])],
                     sent := t.net.sent + multiset(Pairs(p, t.waiting[p]))))
  }

  lemma FiringSend(s: State, todo: set<Peer>, t: State, p: Peer)
    requires Firing(s, todo, t) && p in todo && p !in t.requests && p in t.waiting
    ensures Firing(s, todo - {p}, SentTo(t, p))
  {
    var u := SentTo(t, p);
    assert Goes(s, p);
    forall k
      ensures u.net.sent[k]
           == s.net.sent[k] + if Goes(s, k.peer) && k.peer !in todo - {p} && Has(s.waiting, k) then 1 else 0
    {
      assert t.net.sent[k] == s.net.sent[k] + if Goes(s, k.peer) && k.peer !in todo && Has(s.waiting, k) then 1 else 0;
      assert k in Pairs(p, t.waiting[p]) <==> k.peer == p && k.id in t.waiting[p];
    }
  }

  lemma SendEntries(s: State, todo: set<Peer>, t: State, p: Peer)
    requires FiringEntries(s, todo, t) && Goes(s, p) && p in todo && p !in t.requests && p in t.waiting
    requires t.waiting[p] == s.waiting[p] && forall r :: r in t.net.flying ==> r < t.net.next
    ensures FiringEntries(s, todo - {p}, SentTo(t, p))
  {
    assert forall q :: Goes(s, q) && q !in todo - {p} ==> q == p || q !in todo;
  }

  lemma SendFlights(s: State, t: State, p: Peer)
    requires FiringFlights(s, t) && Goes(s, p) && p !in t.requests && p in t.waiting
    ensures FiringFlights(s, SentTo(t, p))
  {
  }

  lemma FiringSendRequests(s: State, todo: set<Peer>, t: State, p: Peer)
    requires FiringRequests(s, todo, t) && p in todo && p !in t.requests && p in t.waiting && p in s.waiting
    requires t.waiting[p] == s.waiting[p]
    ensures FiringRequests(s, todo - {p}, SentTo(t, p))
  {
    assert Goes(s, p);
    SendEntries(s, todo, t, p);
    SendFlights(s, t, p);
    hide FiringEntries, FiringFlights;
  }

  lemma FiringDone(s: State, t: State)
    requires Firing(s, {}, t) && FiringRequests(s, {}, t) && !s.timer
    ensures Fired(s, t)
  {
    assert t.waiting == map p | p in s.waiting && p in s.requests :: s.waiting[p];
  }

  lemma FiringStarts(s: State)
    requires OneEach(s)
    ensures Firing(s, s.waiting.Keys, s) && FiringRequests(s, s.waiting.Keys, s)
  {
    forall k ensures Has(s.waiting, k) ==> k.peer in s.waiting {
    }
  }

  lemma FiringView(s: State, todo: set<Peer>, t: State, p: Peer)
    requires Firing(s, todo, t) && p in todo
    ensures p in t.waiting && p in s.waiting && t.waiting[p] == s.waiting[p] && t.timer == s.timer
  {
  }

  class Manager {
    var incremented: Ids
    var waiting: Ids
    var requests: map<Peer, nat>
    var timer: bool
    var next: nat
    ghost var past: Net                  // the requests in flight and the history

    ghost function Model(): State
      reads this
    {
      State(incremented, waiting, requests, timer, past.(next := next))
    }

    constructor ()
      ensures Model() == INITIAL
    {
      incremented, waiting, requests, timer := map[], map[], map[], false;
      next, past := 1, INITIAL.net;
    }

    method ScheduleIncrement(peer: Peer, id: MsgId)
      modifies this
      ensures Model() == Scheduled(old(Model()), Key(peer, id))
    {
      assert Has(incremented, Key(peer, id)) == (peer in incremented && id in incremented[peer]);
      hide Has;
      if peer in incremented {
        if id in incremented[peer] {
          return;
        }
      } else {
        incremented := incremented[peer := {}];
      }
      incremented := incremented[peer := incremented[peer] + {id}];
      assert incremented == With(old(incremented), peer, id);
      if peer !in waiting {
        waiting := waiting[peer := {}];
        timer := true;
      }
      waiting := waiting[peer := waiting[peer] + {id}];
      assert waiting == With(old(waiting), peer, id);
      past := past.(queued := past.queued + multiset{Key(peer, id)});
    }

    method RemoveIncremented(peer: Peer)
      modifies this
      ensures Model() == old(Model()).(incremented := old(incremented) - {peer})
    {
      incremented := incremented - {peer};
    }

    /** One request with all the ids of the peer; its id is fresh. */
    method SendTo(peer: Peer)
      requires peer in waiting
      modifies this
      ensures Model() == SentTo(old(Model()), peer)
    {
      var requestId := next;
      next := next + 1;
      past := past.(flying := past.flying[requestId := Sent(peer, waiting[peer])],
                    sent := past.sent + multiset(Pairs(peer, waiting[peer])));
      requests := requests[peer := requestId];
      waiting := waiting - {peer};
    }

    method ViewsIncrement()
      requires OneEach(Model()) && !timer
      modifies this
      ensures Fired(old(Model()), Model())
    {
      hide Firing, FiringRequests;
      ghost var s := Model();
      FiringStarts(s);
      var todo := waiting.Keys;
      while todo != {}
        invariant Firing(s, todo, Model()) && FiringRequests(s, todo, Model())
      {
        var p :| p in todo;
        FiringView(s, todo, Model(), p);
        if p in requests {
          FiringSkip(s, todo, Model(), p);
        } else {
          FiringSend(s, todo, Model(), p);
          FiringSendRequests(s, todo, Model(), p);
          SendTo(p);
        }
        todo := todo - {p};
      }
      FiringDone(s, Model());
    }

    /** The entry that holds the request is erased; there is at most one. */
    method Free(requestId: nat)
      requires OneEach(Model())
      modifies this`requests
      ensures requests == Freed(old(requests), requestId)
    {
      var todo := requests.Keys;
      while todo != {}
        modifies this`requests
        invariant requests == old(requests) && todo <= requests.Keys
        invariant forall p :: p in requests && p !in todo ==> requests[p] != requestId
      {
        var p :| p in todo;
        if requests[p] == requestId {
          requests := requests - {p};
          assert requests == Freed(old(requests), requestId);
          return;
        }
        todo := todo - {p};
      }
      assert requests == Freed(old(requests), requestId);
    }

    method WakeUp()
      modifies this`timer
      ensures timer == (old(timer) || waiting != map[])
    {
      if waiting != map[] && !timer {
        timer := true;
      }
    }

    /** done; the ids are those of the request, the counts those of the reply. */
    method Done(requestId: nat, ids: set<MsgId>, count: nat)
      requires OneEach(Model())
      requires requestId in past.flying && past.flying[requestId].ids == ids
      modifies this
      ensures Model() == Answered(old(Model()), requestId, count == |ids|)
    {
      if |ids| == count {
        Free(requestId);
      }
      WakeUp();
      past := past.(flying := past.flying - {requestId});
    }

    method Fail(requestId: nat)
      requires OneEach(Model())
      modifies this
      ensures Model() == Answered(old(Model()), requestId, true)
    {
      Free(requestId);
      WakeUp();
      past := past.(flying := past.flying - {requestId});
    }

    /** Whatever happens, the object takes the step of the model: its life is a run. */
    method Handle(e: Event, ids: set<MsgId>)
      requires Inv(Model()) && Enabled(Model(), e)
      requires e.Done? ==> ids == past.flying[e.req].ids      // what the request's closure carries
      modifies this
      ensures Inv(Model()) && Took(old(Model()), e, Model())
    {
      ghost var s := Model();
      hide OneEach, Woken, Counted, NoEmpty, Fired, Scheduled, Answered;
      match e {
        case Schedule(k) => ScheduleIncrement(k.peer, k.id);
        case Remove(peer) => RemoveIncremented(peer);
        case Fire => TimerFired();
        case Done(r, count) => Done(r, ids, count);
        case Fail(r) => Fail(r);
      }
      hide Inv;
      StepInv(s, e, Model());
    }

    /** The timer fired, and is idle from then on. */
    method TimerFired()
      requires OneEach(Model())
      modifies this
      ensures Fired(old(Model()), Model())
    {
      hide Fired, OneEach;
      ghost var s := Model();
      OneEachUntimed(s);
      timer := false;
      ViewsIncrement();
      FiredUntimed(s, Model());
    }
  }

  lemma OneEachUntimed(s: State)
    requires OneEach(s)
    ensures OneEach(s.(timer := false))
  {
  }

  /** A pass does not look at the timer that started it. */
  lemma FiredUntimed(s: State, t: State)
    requires Fired(s.(timer := false), t)
    ensures Fired(s, t)
  {
    var s0 := s.(timer := false);
    assert forall p :: Goes(s0, p) <==> Goes(s, p);
    assert RequestsFired(s0, t) ==> RequestsFired(s, t);
  }
}
