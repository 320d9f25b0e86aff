/** The message-data part of the API wrapper, updated in place, proved to take the steps of the model. */
module MessageDataManager {
  import opened Common
  import opened MessageData

  /** What the callbacks do when called: more requests, at most, which may re-enter the manager. */
  type Reaction = nat -> seq<Event>

  ghost function AskAll(s: State, asks: seq<Event>): State
    decreases |asks|
  {
    if asks == [] then s
    else AskAll(if asks[0].Ask? then Register(s, asks[0].key, asks[0].done) else s, asks[1..])
  }

  lemma {:induction false} AskAllRunning(s: State, asks: seq<Event>)
    ensures AskAll(s, asks).running == s.running
    decreases |asks|
  {
    if asks != [] {
      AskAllRunning(if asks[0].Ask? then Register(s, asks[0].key, asks[0].done) else s, asks[1..]);
    }
  }

  lemma {:induction false} AskAllInv(s: State, asks: seq<Event>)
    requires Inv(s)
    ensures Inv(AskAll(s, asks))
    decreases |asks|
  {
    hide Inv;
    if asks != [] {
      if asks[0].Ask? {
        RegisterInv(s, asks[0].key, asks[0].done);
      }
      AskAllInv(if asks[0].Ask? then Register(s, asks[0].key, asks[0].done) else s, asks[1..]);
    }
  }

  /** The rest of finalizeMessageDataRequest: each collected callback runs, and may ask for more. */
  ghost function CallAll(s: State, react: Reaction): State
    decreases |s.running|
  {
    if s.running == [] then s
    else
      AskAllRunning(CallNext(s), react(s.running[0]));
      CallAll(AskAll(CallNext(s), react(s.running[0])), react)
  }

  lemma {:induction false} CallAllInv(s: State, react: Reaction)
    requires Inv(s)
    ensures Inv(CallAll(s, react)) && CallAll(s, react).running == []
    decreases |s.running|
  {
    hide Inv, CallNext;
    if s.running != [] {
      CallNextInv(s);
      AskAllInv(CallNext(s), react(s.running[0]));
      CallNextView(s);
      AskAllRunning(CallNext(s), react(s.running[0]));
      CallAllInv(AskAll(CallNext(s), react(s.running[0])), react);
    }
  }

  lemma CallAllStep(s: State, react: Reaction)
    requires s.running != []
    ensures CallAll(s, react) == CallAll(AskAll(CallNext(s), react(s.running[0])), react)
    ensures var t := CallNext(s);
            t.requests == s.requests && t.queued == s.queued && t.keys == s.keys && t.sent == s.sent
            && t.finished == s.finished && t.running == s.running[1..]
  {
    hide AskAll;
  }

  lemma CallAllDone(s: State, react: Reaction)
    requires s.running == []
    ensures CallAll(s, react) == s
  {
  }

  /** Walking the entries by increasing id collects what Collect says. */
  lemma CollectStep(inner: map<MsgId, Entry>, rest: set<MsgId>, id: MsgId, r: nat)
    requires id in rest && rest <= inner.Keys && forall j :: j in rest ==> id <= j
    ensures var mine := Mine(inner, r) * rest;
            Collect(inner, mine)
              == (if inner[id].requestId == r then inner[id].callbacks else [])
                 + Collect(inner, Mine(inner, r) * (rest - {id}))
  {
    var mine := Mine(inner, r) * rest;
    if inner[id].requestId == r {
      assert id in mine;
      EarliestUnique(mine, id);
      assert mine - {id} == Mine(inner, r) * (rest - {id});
    } else {
      assert mine == Mine(inner, r) * (rest - {id});
    }
  }

  /** The loop over one map that erases the entries of a finished request and gathers their callbacks. */
  method EraseMine(inner: map<MsgId, Entry>, r: nat) returns (callbacks: seq<nat>, left: map<MsgId, Entry>)
    ensures callbacks == Collect(inner, Mine(inner, r)) && left == inner - Mine(inner, r)
  {
    hide Erasing;
    callbacks, left := [], inner;
    var rest := inner.Keys;
    ErasingStarts(inner, r);
    while rest != {}
      invariant rest <= inner.Keys && Erasing(inner, r, rest, callbacks, left)
      decreases |rest|
    {
      ghost var least := Least(rest);
      var id :| id in rest && forall j :: j in rest ==> id <= j;
      ErasingStep(inner, r, rest, callbacks, left, id);
      if inner[id].requestId == r {
        callbacks := callbacks + inner[id].callbacks;
        left := left - {id};
      }
      rest := rest - {id};
    }
    ErasingEnds(inner, r, callbacks, left);
  }

  /** The middle of that loop, with some entries still to come. */
  ghost predicate Erasing(inner: map<MsgId, Entry>, r: nat, rest: set<MsgId>, callbacks: seq<nat>,
                          left: map<MsgId, Entry>)
  {
    && Mine(inner, r) <= inner.Keys
    && callbacks + Collect(inner, Mine(inner, r) * rest) == Collect(inner, Mine(inner, r))
    && left == inner - (Mine(inner, r) - rest)
  }

  lemma ErasingStarts(inner: map<MsgId, Entry>, r: nat)
    ensures Erasing(inner, r, inner.Keys, [], inner)
  {
    hide Collect, Mine;
    TakenAtFirst(inner, r);
  }

  lemma ErasingStep(inner: map<MsgId, Entry>, r: nat, rest: set<MsgId>, callbacks: seq<nat>,
                    left: map<MsgId, Entry>, id: MsgId)
    requires Erasing(inner, r, rest, callbacks, left)
    requires id in rest && rest <= inner.Keys && forall j :: j in rest ==> id <= j
    ensures if inner[id].requestId == r
            then Erasing(inner, r, rest - {id}, callbacks + inner[id].callbacks, left - {id})
            else Erasing(inner, r, rest - {id}, callbacks, left)
  {
    hide Collect, Mine;
    CollectStep(inner, rest, id, r);
    TakenStep(inner, rest, id, r);
    var mine, more := inner[id].callbacks, Collect(inner, Mine(inner, r) * (rest - {id}));
    assert callbacks + (mine + more) == (callbacks + mine) + more;
    assert callbacks + ([] + more) == callbacks + more;
  }

  lemma ErasingEnds(inner: map<MsgId, Entry>, r: nat, callbacks: seq<nat>, left: map<MsgId, Entry>)
    requires Erasing(inner, r, {}, callbacks, left)
    ensures callbacks == Collect(inner, Mine(inner, r)) && left == inner - Mine(inner, r)
  {
    hide Collect, Mine;
    TakenAtLast(inner, r);
  }

  /** What a pass over the scopes has done when some are still to come. */
  ghost predicate Planned(s: State, plan: seq<Slot>, first: nat, rest: set<Scope>) {
    && (forall i :: 0 <= i < |plan| ==> plan[i].id == first + i)
    && (forall scope :: scope in s.requests && scope !in rest ==> Covers(plan, scope))
  }

  lemma NothingPlanned(s: State, first: nat)
    ensures Planned(s, [], first, s.requests.Keys)
  {
  }

  lemma PlannedMore(s: State, plan: seq<Slot>, first: nat, rest: set<Scope>, scope: Scope)
    requires Planned(s, plan, first, rest)
    ensures Planned(s, plan + [Slot(scope, first + |plan|)], first, rest - {scope})
  {
    CoversMore(plan, Slot(scope, first + |plan|));
    hide Covers;
  }

  lemma PlannedAll(s: State, plan: seq<Slot>, first: nat)
    requires Planned(s, plan, first, {}) && first > 0 && forall r :: r in s.sent || r in s.finished ==> r < first
    ensures Plan(s, plan)
  {
    hide Covers;
  }

  class Manager {
    var requests: map<Scope, map<MsgId, Entry>>
    var queued: bool
    var nextRequestId: nat
    var registered: nat                  // callbacks so far; a callback is known by its number
    ghost var past: State                // the rest of the model: the callbacks at hand and the history

    ghost function Model(): State
      reads this
    {
      past.(requests := requests, queued := queued)
    }

    ghost predicate Valid()
      reads this
    {
      && Inv(Model())
      && nextRequestId > 0 && registered == |past.keys| && None in requests
      && (forall r :: r in past.sent || r in past.finished ==> r < nextRequestId)
    }

    constructor ()
      ensures Valid() && Model() == INITIAL
    {
      requests, queued, nextRequestId, registered := map[None := map[]], false, 1, 0;
      past := INITIAL;
      new;
      RunInv([]);
    }

    /** requestMessageData */
    method RequestMessageData(k: Key, done: bool)
      requires Valid()
      modifies this
      ensures Valid() && Model() == Register(old(Model()), k, done)
    {
      hide Inv;
      RegisterInv(Model(), k, done);
      var inner := if k.scope in requests then requests[k.scope] else map[];
      var entry := if k.id in inner then inner[k.id] else Entry(0, []);
      var unsent := entry.requestId == 0;
      if done {
        entry := entry.(callbacks := entry.callbacks + [registered]);
        registered := registered + 1;
        past := past.(keys := past.keys + [k], status := past.status + [Waiting]);
      }
      requests := requests[k.scope := inner[k.id := entry]];
      if unsent {
        queued := true;
      }
    }

    /** One scope of resolveMessageDatas. */
    method ResolveOne(scope: Scope)
      requires Valid()
      modifies this
      ensures Valid() && Model() == ResolveScope(old(Model()), scope, old(nextRequestId))
      ensures nextRequestId == old(nextRequestId) + 1
    {
      hide Inv;
      ResolveScopeInv(Model(), scope, nextRequestId);
      var r := nextRequestId;
      nextRequestId := nextRequestId + 1;
      if scope in requests {
        if requests[scope] == map[] && scope != None {
          requests := requests - {scope};
          return;
        }
        var ids := Unsent(requests[scope]);
        NoneUnsent(Model(), scope);
        if ids != {} {
          past := past.(sent := past.sent[r := UnsentKeys(Model(), scope)]);
          requests := requests[scope := Assigned(requests[scope], r)];
        }
      }
    }

    /** resolveMessageDatas: every scope in turn; the plan records which ids were at hand. */
    method ResolveMessageDatas() returns (ghost plan: seq<Slot>)
      requires Valid() && queued && past.running == []
      modifies this
      ensures Enabled(old(Model()), Resolve(plan))
      ensures Valid() && Model() == Next(old(Model()), Resolve(plan))
    {
      hide Inv, ResolveScope, Planned, Plan;
      ghost var s := Model();
      ghost var first := nextRequestId;
      var rest := requests.Keys;
      plan := [];
      assert Planned(s, plan, first, rest) by { NothingPlanned(s, first); }
      while rest != {}
        invariant Valid() && first <= nextRequestId == first + |plan|
        invariant Model() == ResolveAll(s, plan)
        invariant Planned(s, plan, first, rest)
        decreases |rest|
      {
        var scope :| scope in rest;
        ResolveAllAppend(s, plan, Slot(scope, nextRequestId));
        PlannedMore(s, plan, first, rest, scope);
        plan := plan + [Slot(scope, nextRequestId)];
        ResolveOne(scope);
        rest := rest - {scope};
      }
      queued := false;
      PlannedAll(s, plan, first);
      ResolveInv(s, plan);
    }

    /** finalizeMessageDataRequest */
    method FinalizeMessageDataRequest(scope: Scope, r: nat, react: Reaction)
      requires Valid() && Enabled(Model(), Reply(scope, r))
      modifies this
      ensures Valid() && Model() == CallAll(Finish(old(Model()), scope, r), react)
    {
      hide Inv, Collect, CallAll;
      ghost var s := Model();
      FinishInv(s, scope, r);
      past := past.(finished := past.finished + {r});
      var callbacks: seq<nat> := [];
      if scope in requests {
        callbacks := TakeMine(scope, r);
        if scope != None && requests[scope] == map[] {
          requests := requests - {scope};
        }
        past := past.(running := callbacks, status := Take(past.status, callbacks, r));
      }
      assert Model() == Finish(s, scope, r);
      CallThem(callbacks, react);
    }

    /** The loop that erases the entries of a finished request and gathers their callbacks. */
    method TakeMine(scope: Scope, r: nat) returns (callbacks: seq<nat>)
      requires scope in requests
      modifies this`requests
      ensures var inner := old(requests)[scope];
              && callbacks == Collect(inner, Mine(inner, r))
              && requests == old(requests)[scope := inner - Mine(inner, r)]
    {
      var left;
      callbacks, left := EraseMine(requests[scope], r);
      requests := requests[scope := left];
    }

    /** The loop that calls them; each may ask for more while the others still wait. */
    method CallThem(callbacks: seq<nat>, react: Reaction)
      requires Valid() && past.running == callbacks
      modifies this
      ensures Valid() && Model() == CallAll(old(Model()), react)
    {
      hide Inv, CallAll, AskAll, CallNext;
      ghost var s := Model();
      var i := 0;
      while i < |callbacks|
        invariant 0 <= i <= |callbacks| && past.running == callbacks[i..] && Valid()
        invariant CallAll(Model(), react) == CallAll(s, react)
      {
        ghost var t := Model();
        CallNextInv(t);
        CallNextView(t);
        CallAllStep(t, react);
        past := CallNext(t);
        assert Model() == CallNext(t);
        i := i + 1;
        AskMore(react(callbacks[i - 1]));
      }
      CallAllDone(Model(), react);
    }

    /** A callback's own requests. */
    method AskMore(asks: seq<Event>)
      requires Valid()
      modifies this
      ensures Valid() && Model() == AskAll(old(Model()), asks) && past.running == old(past.running)
    {
      hide Inv, Register;
      ghost var s := Model();
      AskAllRunning(s, asks);
      assert asks[0..] == asks;
      for i := 0 to |asks|
        invariant Valid() && AskAll(Model(), asks[i..]) == AskAll(s, asks)
      {
        assert asks[i..][1..] == asks[i + 1..];
        if asks[i].Ask? {
          RequestMessageData(asks[i].key, asks[i].done);
        }
      }
    }
  }

  lemma {:induction false} ResolveAllAppend(s: State, plan: seq<Slot>, slot: Slot)
    ensures ResolveAll(s, plan + [slot]) == ResolveScope(ResolveAll(s, plan), slot.scope, slot.id)
    decreases |plan|
  {
    hide ResolveScope;
    if plan == [] {
      assert plan + [slot] == [slot];
      assert [slot][1..] == [];
      assert ResolveAll(ResolveScope(s, slot.scope, slot.id), []) == ResolveScope(s, slot.scope, slot.id);
    } else {
      assert (plan + [slot])[1..] == plan[1..] + [slot];
      ResolveAllAppend(ResolveScope(s, plan[0].scope, plan[0].id), plan[1..], slot);
    }
  }

  lemma CoversMore(plan: seq<Slot>, slot: Slot)
    ensures Covers(plan + [slot], slot.scope)
    ensures forall scope :: Covers(plan, scope) ==> Covers(plan + [slot], scope)
  {
    var p := plan + [slot];
    assert p[|plan|] == slot;
    forall scope | Covers(plan, scope)
      ensures Covers(p, scope)
    {
      var i :| 0 <= i < |plan| && plan[i].scope == scope;
      assert p[i].scope == scope;
    }
  }

  lemma TakenAtFirst(inner: map<MsgId, Entry>, r: nat)
    ensures Mine(inner, r) * inner.Keys == Mine(inner, r) && Mine(inner, r) <= inner.Keys
    ensures inner - (Mine(inner, r) - inner.Keys) == inner
  {
  }

  lemma TakenStep(inner: map<MsgId, Entry>, rest: set<MsgId>, id: MsgId, r: nat)
    requires id in rest && rest <= inner.Keys
    ensures inner - (Mine(inner, r) - (rest - {id}))
            == (if inner[id].requestId == r then (inner - (Mine(inner, r) - rest)) - {id}
                else inner - (Mine(inner, r) - rest))
  {
    if inner[id].requestId != r {
      assert Mine(inner, r) - (rest - {id}) == Mine(inner, r) - rest;
    }
  }

  lemma TakenAtLast(inner: map<MsgId, Entry>, r: nat)
    ensures Mine(inner, r) * {} == {} && Mine(inner, r) - {} == Mine(inner, r)
    ensures Collect(inner, {}) == []
  {
  }

  lemma NoneUnsent(s: State, scope: Scope)
    requires scope in s.requests
    ensures Unsent(s.requests[scope]) == {} <==> UnsentKeys(s, scope) == {}
  {
    if Unsent(s.requests[scope]) != {} {
      var id :| id in Unsent(s.requests[scope]);
      assert Key(scope, id) in UnsentKeys(s, scope);
    }
  }
}
