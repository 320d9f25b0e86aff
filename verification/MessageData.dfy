/** Batched requests for message data with joined callbacks (apiwrap.cpp:502-633). */
module MessageData {
  import opened Common

  type MsgId = nat

  /** The requests without a channel, or those of one channel. */
  type Scope = Option<nat>

  datatype Key = Key(scope: Scope, id: MsgId)

  /** requestId zero: not sent yet. A callback is known by the number of its registration. */
  datatype Entry = Entry(requestId: nat, callbacks: seq<nat>)

  /** What became of a registered callback. */
  datatype Status = Waiting | Taken(req: nat) | Called(req: nat)

  datatype State = State(
    requests: map<Scope, map<MsgId, Entry>>,
    queued: bool,                    // a resolve is queued
    running: seq<nat>,               // callbacks collected by a finished request and not called yet
    // History: every registration, every request sent with its ids, the finished ones, the calls.
    keys: seq<Key>, status: seq<Status>,
    sent: map<nat, set<Key>>, finished: set<nat>, called: seq<nat>)

  const INITIAL := State(map[None := map[]], false, [], [], [], map[], {}, [])

  predicate Has(s: State, k: Key) { k.scope in s.requests && k.id in s.requests[k.scope] }

  /** The callbacks waiting under an id. */
  function Callbacks(s: State, k: Key): seq<nat> {
    if Has(s, k) then s.requests[k.scope][k.id].callbacks else []
  }

  /** The request id kept under an id: zero when not sent yet, -1 when there is no entry. */
  function Request(s: State, k: Key): int {
    if Has(s, k) then s.requests[k.scope][k.id].requestId else -1
  }

  predicate Outstanding(s: State, r: nat) { r in s.sent && r !in s.finished }

  // ---- Steps ----

  /** requestMessageData */
  function Register(s: State, k: Key, done: bool): State {
    var e := if Has(s, k) then s.requests[k.scope][k.id] else Entry(0, []);
    var e1 := if done then e.(callbacks := e.callbacks + [|s.keys|]) else e;
    var inner := if k.scope in s.requests then s.requests[k.scope] else map[];
    s.(requests := s.requests[k.scope := inner[k.id := e1]],
       queued := s.queued || e.requestId == 0,
       keys := if done then s.keys + [k] else s.keys,
       status := if done then s.status + [Waiting] else s.status)
  }

  /** collectMessageIds */
  function Unsent(inner: map<MsgId, Entry>): set<MsgId> { set id | id in inner && inner[id].requestId == 0 }

  function Assigned(inner: map<MsgId, Entry>, r: nat): map<MsgId, Entry> {
    map id | id in inner :: if inner[id].requestId == 0 then inner[id].(requestId := r) else inner[id]
  }

  /** The ids of a scope that were not sent yet. */
  function UnsentKeys(s: State, scope: Scope): set<Key> {
    if scope in s.requests then set id | id in Unsent(s.requests[scope]) :: Key(scope, id) else {}
  }

  /** One scope of resolveMessageDatas: the unsent ids go out in one request with a fresh id. */
  function ResolveScope(s: State, scope: Scope, r: nat): State {
    if scope !in s.requests then s
    else if s.requests[scope] == map[] && scope != None then s.(requests := s.requests - {scope})
    else if UnsentKeys(s, scope) == {} then s
    else s.(requests := s.requests[scope := Assigned(s.requests[scope], r)],
            sent := s.sent[r := UnsentKeys(s, scope)])
  }

  function Mine(inner: map<MsgId, Entry>, r: nat): set<MsgId> { set id | id in inner && inner[id].requestId == r }

  /** The callbacks of some entries, by increasing id. */
  ghost function Collect(inner: map<MsgId, Entry>, ids: set<MsgId>): seq<nat>
    requires ids <= inner.Keys
  {
    if ids == {} then []
    else
      var first := Earliest(ids).value;
      inner[first].callbacks + Collect(inner, ids - {first})
  }

  function Take(status: seq<Status>, tokens: seq<nat>, r: nat): (t: seq<Status>)
    ensures |t| == |status|
  {
    seq(|status|, i requires 0 <= i < |status| => if i in tokens then Taken(r) else status[i])
  }

  /** finalizeMessageDataRequest up to the calls. */
  ghost function Finish(s: State, scope: Scope, r: nat): State {
    var t := s.(finished := s.finished + {r});
    if scope !in s.requests then t
    else
      var inner := s.requests[scope];
      var tokens := Collect(inner, Mine(inner, r));
      var rest := inner - Mine(inner, r);
      t.(requests := if scope != None && rest == map[] then s.requests - {scope} else s.requests[scope := rest],
         running := tokens, status := Take(s.status, tokens, r))
  }

  /** The next of the collected callbacks is called. */
  function CallNext(s: State): State
    requires s.running != []
  {
    var c := s.running[0];
    s.(running := s.running[1..], called := s.called + [c],
       status := if c < |s.status| && s.status[c].Taken? then s.status[c := Called(s.status[c].req)] else s.status)
  }

  // ---- Invariant ----

  ghost predicate NoDuplicates(xs: seq<nat>) { forall i, j :: 0 <= i < j < |xs| ==> xs[i] != xs[j] }

  /** A callback waits in the entry of its own id and nowhere else. */
  ghost predicate Kept(s: State) {
    && |s.keys| == |s.status|
    && (forall k :: NoDuplicates(Callbacks(s, k)))
    && (forall k, c {:trigger c in Callbacks(s, k)} :: c in Callbacks(s, k) ==>
          c < |s.keys| && s.keys[c] == k && s.status[c].Waiting?)
    && (forall c :: 0 <= c < |s.keys| && s.status[c].Waiting? ==> c in Callbacks(s, s.keys[c]))
  }

  /** Collected and called ones are in their lists exactly once; their request has finished and carried their id. */
  ghost predicate Delivered(s: State) {
    && |s.keys| == |s.status|
    && NoDuplicates(s.running) && NoDuplicates(s.called)
    && (forall c: nat :: c in s.running <==> c < |s.status| && s.status[c].Taken?)
    && (forall c: nat :: c in s.called <==> c < |s.status| && s.status[c].Called?)
    && (forall c :: 0 <= c < |s.status| && !s.status[c].Waiting? ==>
          s.status[c].req in s.finished && s.status[c].req in s.sent && s.keys[c] in s.sent[s.status[c].req])
  }

  /** An entry carries a request id exactly while that request is out with its id. */
  ghost predicate Carried(s: State) {
    && 0 !in s.sent
    && (forall k :: Request(s, k) > 0 ==> Outstanding(s, Request(s, k)) && k in s.sent[Request(s, k)])
    && (forall r, k :: r in s.sent && r !in s.finished && k in s.sent[r] ==> Request(s, k) == r)
    && (forall k :: Request(s, k) == 0 ==> s.queued)
  }

  ghost predicate Inv(s: State) { Kept(s) && Delivered(s) && Carried(s) }

  lemma RegisterView(s: State, k: Key, done: bool)
    ensures var t := Register(s, k, done);
            && (forall j :: Callbacks(t, j) == if j == k && done then Callbacks(s, j) + [|s.keys|] else Callbacks(s, j))
            && (forall j :: Request(t, j) == if j == k && !Has(s, j) then 0 else Request(s, j))
            && t.sent == s.sent && t.finished == s.finished && t.called == s.called && t.running == s.running
            && t.queued == (s.queued || Request(s, k) <= 0)
            && t.keys == (if done then s.keys + [k] else s.keys)
            && t.status == (if done then s.status + [Waiting] else s.status)
  {
  }

  lemma RegisterInv(s: State, k: Key, done: bool)
    requires Inv(s)
    ensures Inv(Register(s, k, done))
  {
    RegisterKept(s, k, done);
    RegisterView(s, k, done);
    HasRequest(s, k);
    hide Callbacks, Request, Register, NoDuplicates, Has;
    var t := Register(s, k, done);
    assert Delivered(t);
    assert Carried(t);
  }

  lemma RegisterKept(s: State, k: Key, done: bool)
    requires Kept(s)
    ensures Kept(Register(s, k, done))
  {
    hide Callbacks, Request, Register, NoDuplicates, Has;
    RegisterView(s, k, done);
    var t := Register(s, k, done);
    if done {
      JoinedKept(s, k, t);
    } else {
      assert forall j :: Callbacks(t, j) == Callbacks(s, j);
    }
  }

  /** A new callback joins the list of its id. */
  lemma JoinedKept(s: State, k: Key, t: State)
    requires Kept(s) && t.keys == s.keys + [k] && t.status == s.status + [Waiting]
    requires forall j :: Callbacks(t, j) == if j == k then Callbacks(s, j) + [|s.keys|] else Callbacks(s, j)
    ensures Kept(t)
  {
    hide Callbacks, NoDuplicates;
    var n := |s.keys|;
    assert n !in Callbacks(s, k);
    AppendNoDuplicates(Callbacks(s, k), n);
    forall j ensures NoDuplicates(Callbacks(t, j)) {
      assert NoDuplicates(Callbacks(s, j));
    }
    forall j, c | c in Callbacks(t, j)
      ensures c < |t.keys| && t.keys[c] == j && t.status[c].Waiting?
    {
      if c in Callbacks(s, j) {
        assert c < n && s.keys[c] == j;
      } else {
        assert c == n && j == k;
      }
    }
    forall c | 0 <= c < |t.keys| && t.status[c].Waiting?
      ensures c in Callbacks(t, t.keys[c])
    {
      if c < n {
        assert c in Callbacks(s, s.keys[c]);
      } else {
        assert n in Callbacks(s, k) + [n];
      }
    }
  }

  lemma HasRequest(s: State, k: Key)
    ensures Has(s, k) <==> Request(s, k) >= 0
  {
  }

  lemma AppendNoDuplicates(xs: seq<nat>, x: nat)
    ensures NoDuplicates(xs) && x !in xs ==> NoDuplicates(xs + [x])
  {
  }

  lemma UnsentKeysAre(s: State, scope: Scope)
    ensures forall k :: k in UnsentKeys(s, scope) <==> k.scope == scope && Request(s, k) == 0
  {
    forall k: Key | k.scope == scope && Request(s, k) == 0
      ensures k in UnsentKeys(s, scope)
    {
      assert k.id in Unsent(s.requests[scope]);
    }
  }

  lemma ResolveView(s: State, scope: Scope, r: nat)
    ensures var t := ResolveScope(s, scope, r);
            && (forall j :: Callbacks(t, j) == Callbacks(s, j))
            && (forall j :: Request(t, j) == if j.scope == scope && Request(s, j) == 0 then r else Request(s, j))
            && t.sent == (if UnsentKeys(s, scope) == {} then s.sent else s.sent[r := UnsentKeys(s, scope)])
            && t.finished == s.finished && t.called == s.called && t.running == s.running
            && t.queued == s.queued && t.keys == s.keys && t.status == s.status
  {
    hide UnsentKeys;
    UnsentKeysAre(s, scope);
  }

  lemma ResolveScopeInv(s: State, scope: Scope, r: nat)
    requires Inv(s) && r != 0 && r !in s.sent && r !in s.finished
    ensures Inv(ResolveScope(s, scope, r))
  {
    var t := ResolveScope(s, scope, r);
    ResolveView(s, scope, r);
    UnsentKeysAre(s, scope);
    hide Callbacks, Request, ResolveScope, NoDuplicates, UnsentKeys;
    assert Kept(t);
    assert Delivered(t);
    assert Carried(t);
  }

  /** What Collect gathers: the callbacks of those entries, each once. */
  lemma {:induction false} CollectIs(inner: map<MsgId, Entry>, ids: set<MsgId>)
    requires ids <= inner.Keys
    ensures forall c :: c in Collect(inner, ids) <==> exists id :: id in ids && c in inner[id].callbacks
    decreases |ids|
  {
    if ids != {} {
      var first := Earliest(ids).value;
      CollectIs(inner, ids - {first});
      forall c
        ensures c in Collect(inner, ids) <==> exists id :: id in ids && c in inner[id].callbacks
      {
        if id :| id in ids && c in inner[id].callbacks {
          assert id == first || id in ids - {first};
        }
      }
    }
  }

  lemma {:induction false} CollectOnce(inner: map<MsgId, Entry>, ids: set<MsgId>)
    requires ids <= inner.Keys
    requires forall id :: id in ids ==> NoDuplicates(inner[id].callbacks)
    requires forall i, j, c :: i in ids && j in ids && c in inner[i].callbacks && c in inner[j].callbacks ==> i == j
    ensures NoDuplicates(Collect(inner, ids))
    decreases |ids|
  {
    if ids != {} {
      var first := Earliest(ids).value;
      CollectOnce(inner, ids - {first});
      CollectIs(inner, ids - {first});
      var a, b := inner[first].callbacks, Collect(inner, ids - {first});
      forall i, j | 0 <= i < j < |a + b|
        ensures (a + b)[i] != (a + b)[j]
      {
        assert i < |a| ==> a[i] in a;
        assert j >= |a| ==> b[j - |a|] in b;
      }
    }
  }

  ghost function MineTokens(s: State, scope: Scope, r: nat): seq<nat> {
    if scope in s.requests then Collect(s.requests[scope], Mine(s.requests[scope], r)) else []
  }

  lemma FinishView(s: State, scope: Scope, r: nat)
    requires r != 0
    ensures var t := Finish(s, scope, r);
            && (forall j :: Callbacks(t, j) == if j.scope == scope && Request(s, j) == r then [] else Callbacks(s, j))
            && (forall j :: Request(t, j) == if j.scope == scope && Request(s, j) == r then -1 else Request(s, j))
            && t.finished == s.finished + {r} && t.called == s.called && t.sent == s.sent
            && t.queued == s.queued && t.keys == s.keys
            && t.running == (if scope in s.requests then MineTokens(s, scope, r) else s.running)
            && t.status == Take(s.status, MineTokens(s, scope, r), r)
  {
    hide Collect;
    assert Take(s.status, [], r) == s.status;
    if scope in s.requests {
      var inner := s.requests[scope];
      var rest := inner - Mine(inner, r);
      assert forall id :: id in inner ==> (id in rest <==> inner[id].requestId != r);
    }
  }

  /** What a finishing request collects: the callbacks of exactly its ids, each once. */
  lemma MineTokensAre(s: State, scope: Scope, r: nat)
    requires Kept(s) && r != 0
    ensures NoDuplicates(MineTokens(s, scope, r))
    ensures forall c :: c in MineTokens(s, scope, r) <==>
              exists k: Key :: k.scope == scope && Request(s, k) == r && c in Callbacks(s, k)
  {
    if scope in s.requests {
      var inner := s.requests[scope];
      var mine := Mine(inner, r);
      CollectIs(inner, mine);
      assert forall id :: id in inner ==> Callbacks(s, Key(scope, id)) == inner[id].callbacks;
      forall i, j, c | i in mine && j in mine && c in inner[i].callbacks && c in inner[j].callbacks
        ensures i == j
      {
        assert c in Callbacks(s, Key(scope, i)) && c in Callbacks(s, Key(scope, j));
      }
      CollectOnce(inner, mine);
      forall c
        ensures c in MineTokens(s, scope, r) <==>
                exists k: Key :: k.scope == scope && Request(s, k) == r && c in Callbacks(s, k)
      {
        if id :| id in mine && c in inner[id].callbacks {
          assert Request(s, Key(scope, id)) == r;
        }
        if k: Key :| k.scope == scope && Request(s, k) == r && c in Callbacks(s, k) {
          assert k.id in mine;
        }
      }
    }
  }

  lemma FinishInv(s: State, scope: Scope, r: nat)
    requires Inv(s) && Outstanding(s, r) && s.running == []
    requires forall k :: k in s.sent[r] ==> k.scope == scope
    ensures Inv(Finish(s, scope, r))
  {
    var t := Finish(s, scope, r);
    FinishView(s, scope, r);
    MineTokensAre(s, scope, r);
    assert scope !in s.requests ==> MineTokens(s, scope, r) == [];
    hide Callbacks, Request, Finish, NoDuplicates, MineTokens;
    assert Kept(t);
    assert Delivered(t);
    assert Carried(t);
  }

  lemma CallNextView(s: State)
    requires s.running != []
    ensures var t := CallNext(s);
            && (forall k :: Callbacks(t, k) == Callbacks(s, k) && Request(t, k) == Request(s, k))
            && t.sent == s.sent && t.finished == s.finished && t.queued == s.queued && t.keys == s.keys
            && t.called == s.called + [s.running[0]] && s.running == [s.running[0]] + t.running
  {
  }

  lemma HeadNotInTail(xs: seq<nat>)
    requires xs != [] && NoDuplicates(xs)
    ensures NoDuplicates(xs[1..]) && xs[0] !in xs[1..]
  {
  }

  lemma CallNextStatus(s: State)
    requires Inv(s) && s.running != []
    ensures var c := s.running[0];
            && c < |s.status| && s.status[c].Taken? && c !in s.called
            && CallNext(s).status == s.status[c := Called(s.status[c].req)]
            && NoDuplicates(CallNext(s).running) && c !in CallNext(s).running
            && NoDuplicates(s.called + [c])
  {
    var c := s.running[0];
    assert c in s.running;
    HeadNotInTail(s.running);
    AppendNoDuplicates(s.called, c);
    hide Kept, Carried;
  }

  lemma CallNextKept(s: State)
    requires Inv(s) && s.running != []
    ensures Kept(CallNext(s))
  {
    var t := CallNext(s);
    CallNextStatus(s);
    CallNextView(s);
    hide Callbacks, Request, CallNext, NoDuplicates, Delivered, Carried;
  }

  lemma CallNextDelivered(s: State)
    requires Inv(s) && s.running != []
    ensures Delivered(CallNext(s))
  {
    var t := CallNext(s);
    CallNextStatus(s);
    CallNextView(s);
    hide Callbacks, Request, CallNext, NoDuplicates, Kept, Carried;
    var c := s.running[0];
    assert forall d :: d in s.running <==> d == c || d in t.running;
    assert forall d :: d in t.called <==> d == c || d in s.called;
    forall d: nat
      ensures d in t.running <==> d < |t.status| && t.status[d].Taken?
      ensures d in t.called <==> d < |t.status| && t.status[d].Called?
    {
      if d == c {
        assert t.status[d].Called?;
      }
    }
  }

  lemma CallNextInv(s: State)
    requires Inv(s) && s.running != []
    ensures Inv(CallNext(s))
  {
    CallNextKept(s);
    CallNextDelivered(s);
    CallNextView(s);
    hide Callbacks, Request, CallNext, Kept, Delivered;
    assert Carried(CallNext(s));
  }

  // ---- Runs ----

  /** A scope to resolve and the request id it gets if it has anything to send. */
  datatype Slot = Slot(scope: Scope, id: nat)

  function ResolveAll(s: State, plan: seq<Slot>): State
    decreases |plan|
  {
    if plan == [] then s else ResolveAll(ResolveScope(s, plan[0].scope, plan[0].id), plan[1..])
  }

  /** Fresh, distinct request ids. */
  ghost predicate Fresh(s: State, plan: seq<Slot>) {
    && (forall i :: 0 <= i < |plan| ==> plan[i].id != 0 && plan[i].id !in s.sent && plan[i].id !in s.finished)
    && (forall i, j :: 0 <= i < j < |plan| ==> plan[i].id != plan[j].id)
  }

  ghost predicate Covers(plan: seq<Slot>, scope: Scope) { exists i :: 0 <= i < |plan| && plan[i].scope == scope }

  /** A plan for resolveMessageDatas: every scope, each with a fresh id at hand. */
  ghost predicate Plan(s: State, plan: seq<Slot>) {
    Fresh(s, plan) && forall scope :: scope in s.requests ==> Covers(plan, scope)
  }

  datatype Event =
    | Ask(key: Key, done: bool)             // at any time, also from a callback
    | Resolve(plan: seq<Slot>)              // the queued call
    | Reply(scope: Scope, request: nat)     // a request of that scope finishes, well or badly
    | Callback                              // the next collected callback runs

  ghost predicate Enabled(s: State, e: Event) {
    match e
    case Ask(_, _) => true
    case Resolve(plan) => s.queued && s.running == [] && Plan(s, plan)
    case Reply(scope, r) => s.running == [] && Outstanding(s, r) && forall k :: k in s.sent[r] ==> k.scope == scope
    case Callback => s.running != []
  }

  ghost function Next(s: State, e: Event): State
    requires Enabled(s, e)
  {
    match e
    case Ask(key, done) => Register(s, key, done)
    case Resolve(plan) => ResolveAll(s, plan).(queued := false)
    case Reply(scope, r) => Finish(s, scope, r)
    case Callback => CallNext(s)
  }

  ghost function Run(run: seq<Event>): State {
    if run == [] then INITIAL
    else
      var s := Run(run[..|run| - 1]);
      if Enabled(s, run[|run| - 1]) then Next(s, run[|run| - 1]) else s
  }

  /** Resolving every scope leaves no id unsent. */
  lemma {:induction false} ResolveAllInv(s: State, plan: seq<Slot>)
    requires Inv(s) && Fresh(s, plan)
    ensures var t := ResolveAll(s, plan);
            && Inv(t) && t.running == s.running
            && (forall k :: Request(t, k) == 0 ==> Request(s, k) == 0 && !Covers(plan, k.scope))
    decreases |plan|
  {
    hide Request, ResolveScope;
    if plan != [] {
      var s1 := ResolveScope(s, plan[0].scope, plan[0].id);
      ResolveScopeInv(s, plan[0].scope, plan[0].id);
      ResolveView(s, plan[0].scope, plan[0].id);
      assert forall i :: 0 <= i < |plan[1..]| ==> plan[1..][i] == plan[i + 1];
      ResolveAllInv(s1, plan[1..]);
      var t := ResolveAll(s, plan);
      forall k | Request(t, k) == 0
        ensures !Covers(plan, k.scope)
      {
        assert !Covers(plan[1..], k.scope);
        assert forall i :: 0 < i < |plan| ==> plan[i] == plan[1..][i - 1];
      }
    }
  }

  lemma NextInv(s: State, e: Event)
    requires Inv(s) && Enabled(s, e)
    ensures Inv(Next(s, e))
  {
    match e
    case Ask(key, done) => RegisterInv(s, key, done);
    case Resolve(plan) => ResolveInv(s, plan);
    case Reply(scope, r) => FinishInv(s, scope, r);
    case Callback => CallNextInv(s);
  }

  lemma ResolveInv(s: State, plan: seq<Slot>)
    requires Inv(s) && Plan(s, plan)
    ensures Inv(ResolveAll(s, plan).(queued := false))
  {
    ResolveAllInv(s, plan);
    var t := ResolveAll(s, plan);
    assert forall k :: Request(s, k) == 0 ==> k.scope in s.requests;
    assert forall k :: Request(s, k) == 0 ==> Covers(plan, k.scope);
    assert forall k :: Request(t, k) != 0;
    var u := t.(queued := false);
    assert forall k :: Callbacks(u, k) == Callbacks(t, k) && Request(u, k) == Request(t, k);
    hide Callbacks, Request, ResolveAll;
    assert Kept(u) && Delivered(u) && Carried(u);
  }

  lemma {:induction false} RunInv(run: seq<Event>)
    ensures Inv(Run(run))
  {
    if run == [] {
      assert Inv(INITIAL);
    } else {
      RunInv(run[..|run| - 1]);
      var s := Run(run[..|run| - 1]);
      if Enabled(s, run[|run| - 1]) {
        NextInv(s, run[|run| - 1]);
      }
    }
  }

  /** Whoever asks is kept under the id, and an id not out yet waits for the queued resolve. */
  lemma AskedIsKept(run: seq<Event>, k: Key, done: bool)
    ensures var s, t := Run(run), Next(Run(run), Ask(k, done));
            && Has(t, k) && (Request(t, k) == 0 ==> t.queued)
            && Request(t, k) == (if Has(s, k) then Request(s, k) else 0)
            && (done ==> t.keys == s.keys + [k] && Callbacks(t, k) == Callbacks(s, k) + [|s.keys|])
            && (!done ==> t.keys == s.keys && Callbacks(t, k) == Callbacks(s, k))
            && (forall j :: j != k ==> Callbacks(t, j) == Callbacks(s, j) && Request(t, j) == Request(s, j))
  {
    hide Run, Callbacks, Request, Register;
    var s := Run(run);
    RegisterView(s, k, done);
    HasRequest(s, k);
    HasRequest(Register(s, k, done), k);
  }

  lemma {:induction false} ResolveAllSends(s: State, plan: seq<Slot>, k: Key)
    requires forall i :: 0 <= i < |plan| ==> plan[i].id != 0
    ensures var t := ResolveAll(s, plan);
            && Callbacks(t, k) == Callbacks(s, k)
            && (Request(s, k) != 0 ==> Request(t, k) == Request(s, k))
            && (Request(s, k) == 0 && Covers(plan, k.scope) ==>
                  exists i :: 0 <= i < |plan| && plan[i].scope == k.scope && Request(t, k) == plan[i].id)
    decreases |plan|
  {
    hide Request, Callbacks, ResolveScope;
    if plan != [] {
      var s1 := ResolveScope(s, plan[0].scope, plan[0].id);
      ResolveView(s, plan[0].scope, plan[0].id);
      ResolveAllSends(s1, plan[1..], k);
      if Request(s, k) == 0 && Covers(plan, k.scope) && plan[0].scope != k.scope {
        var i :| 0 <= i < |plan| && plan[i].scope == k.scope;
        assert plan[1..][i - 1] == plan[i];
        var j :| 0 <= j < |plan[1..]| && plan[1..][j].scope == k.scope
                 && Request(ResolveAll(s, plan), k) == plan[1..][j].id;
        assert plan[j + 1] == plan[1..][j];
      }
    }
  }

  /** The queued resolve sends every id that is not out yet, those of a scope in one request of its own. */
  lemma ResolveSendsAll(run: seq<Event>, plan: seq<Slot>, k: Key)
    requires Enabled(Run(run), Resolve(plan))
    ensures var s, t := Run(run), Next(Run(run), Resolve(plan));
            && Callbacks(t, k) == Callbacks(s, k)
            && (Request(s, k) == 0 ==>
                  && Request(t, k) > 0 && Outstanding(t, Request(t, k)) && k in t.sent[Request(t, k)]
                  && exists i :: 0 <= i < |plan| && plan[i].scope == k.scope && Request(t, k) == plan[i].id)
            && (Request(s, k) != 0 ==> Request(t, k) == Request(s, k))
  {
    RunInv(run);
    var s := Run(run);
    NextInv(s, Resolve(plan));
    ResolveAllSends(s, plan, k);
    var t := ResolveAll(s, plan);
    assert Request(s, k) == 0 ==> k.scope in s.requests;
    assert Callbacks(t.(queued := false), k) == Callbacks(t, k) && Request(t.(queued := false), k) == Request(t, k);
    hide Run, Callbacks, Request, ResolveAll, Kept, Delivered;
  }

  // ---- Scopes come and go with their ids ----

  /** The scope without a channel is always there, and any other only while it has ids. */
  ghost predicate Tidy(s: State) {
    None in s.requests && forall scope :: scope in s.requests && scope != None ==> s.requests[scope] != map[]
  }

  lemma AssignedSame(inner: map<MsgId, Entry>, r: nat)
    ensures Assigned(inner, r).Keys == inner.Keys
  {
  }

  lemma {:induction false} ResolveAllTidy(s: State, plan: seq<Slot>)
    requires Tidy(s)
    ensures Tidy(ResolveAll(s, plan))
    decreases |plan|
  {
    if plan != [] {
      var scope := plan[0].scope;
      if scope in s.requests {
        AssignedSame(s.requests[scope], plan[0].id);
      }
      hide Assigned;
      ResolveAllTidy(ResolveScope(s, scope, plan[0].id), plan[1..]);
    }
  }

  lemma NextTidy(s: State, e: Event)
    requires Tidy(s) && Enabled(s, e)
    ensures Tidy(Next(s, e))
  {
    hide Collect, Take, ResolveAll;
    match e
    case Ask(k, done) =>
      assert k.id in Next(s, e).requests[k.scope];
    case Resolve(plan) => ResolveAllTidy(s, plan);
    case Reply(scope, r) =>
    case Callback =>
  }

  /** In every run a scope other than that without a channel is kept exactly as long as it has ids. */
  lemma {:induction false} ScopesAreTidy(run: seq<Event>)
    ensures Tidy(Run(run))
  {
    if run != [] {
      hide Next, Enabled, Tidy;
      ScopesAreTidy(run[..|run| - 1]);
      if Enabled(Run(run[..|run| - 1]), run[|run| - 1]) {
        NextTidy(Run(run[..|run| - 1]), run[|run| - 1]);
      }
    }
  }

  // ---- The order of the calls ----

  predicate Rising(xs: seq<nat>) { forall i, j :: 0 <= i < j < |xs| ==> xs[i] < xs[j] }

  ghost predicate AllRising(s: State) { forall k :: Rising(Callbacks(s, k)) }

  lemma RegisterRising(s: State, k: Key, done: bool)
    requires Kept(s) && AllRising(s)
    ensures AllRising(Register(s, k, done))
  {
    RegisterView(s, k, done);
    hide Callbacks, Register;
    var t := Register(s, k, done);
    forall j ensures Rising(Callbacks(t, j)) {
      assert Rising(Callbacks(s, j));
      assert forall i :: 0 <= i < |Callbacks(s, j)| ==> Callbacks(s, j)[i] in Callbacks(s, j);
    }
  }

  lemma NextRising(s: State, e: Event)
    requires Inv(s) && Enabled(s, e) && AllRising(s)
    ensures AllRising(Next(s, e))
  {
    hide Callbacks, Rising, Register, Finish, CallNext, ResolveAll;
    match e
    case Ask(k, done) => RegisterRising(s, k, done);
    case Resolve(plan) =>
      forall k ensures Callbacks(Next(s, e), k) == Callbacks(s, k) {
        ResolveAllSends(s, plan, k);
        SameQueue(ResolveAll(s, plan), k);
      }
    case Reply(scope, r) =>
      assert r != 0;
      FinishView(s, scope, r);
      assert Rising([]) by { NothingRises(); }
    case Callback => CallNextView(s);
  }

  lemma SameQueue(s: State, k: Key)
    ensures Callbacks(s.(queued := false), k) == Callbacks(s, k)
  {
  }

  lemma NothingRises()
    ensures Rising([])
  {
  }

  lemma {:induction false} RunRising(run: seq<Event>)
    ensures AllRising(Run(run))
  {
    if run != [] {
      RunRising(run[..|run| - 1]);
      var s := Run(run[..|run| - 1]);
      RunInv(run[..|run| - 1]);
      hide Inv, Next, Enabled, AllRising;
      if Enabled(s, run[|run| - 1]) {
        NextRising(s, run[|run| - 1]);
      }
    }
  }

  /** By message id, and for one id by when they asked. */
  predicate Sooner(keys: seq<Key>, a: nat, b: nat) {
    a < |keys| && b < |keys| && (keys[a].id < keys[b].id || (keys[a].id == keys[b].id && a < b))
  }

  predicate AllOf(keys: seq<Key>, xs: seq<nat>, id: MsgId) {
    forall i :: 0 <= i < |xs| ==> xs[i] < |keys| && keys[xs[i]].id == id
  }

  predicate AllSooner(keys: seq<Key>, xs: seq<nat>) {
    forall i, j :: 0 <= i < j < |xs| ==> Sooner(keys, xs[i], xs[j])
  }

  lemma SoonerGroups(keys: seq<Key>, a: seq<nat>, id: MsgId, b: seq<nat>)
    requires Rising(a) && AllOf(keys, a, id) && AllSooner(keys, b)
    requires forall j :: 0 <= j < |b| ==> b[j] < |keys| && id < keys[b[j]].id
    ensures AllSooner(keys, a + b)
  {
  }

  lemma {:induction false} CollectSorted(inner: map<MsgId, Entry>, ids: set<MsgId>, keys: seq<Key>)
    requires ids <= inner.Keys
    requires forall id :: id in ids ==> Rising(inner[id].callbacks) && AllOf(keys, inner[id].callbacks, id)
    ensures AllSooner(keys, Collect(inner, ids))
    decreases |ids|
  {
    if ids != {} {
      hide Rising, AllSooner;
      var first := Earliest(ids).value;
      var rest := ids - {first};
      CollectSorted(inner, rest, keys);
      CollectIs(inner, rest);
      var b := Collect(inner, rest);
      forall j | 0 <= j < |b| ensures b[j] < |keys| && first < keys[b[j]].id {
        assert b[j] in b;
        var id :| id in rest && b[j] in inner[id].callbacks;
        assert AllOf(keys, inner[id].callbacks, id);
      }
      SoonerGroups(keys, inner[first].callbacks, first, b);
    } else {
      assert Collect(inner, ids) == [];
    }
  }

  /** The callbacks of a finished request are called by increasing id, and for one id in the order they asked. */
  lemma CalledInOrder(run: seq<Event>, scope: Scope, r: nat)
    requires Enabled(Run(run), Reply(scope, r))
    ensures AllSooner(Run(run).keys, Next(Run(run), Reply(scope, r)).running)
  {
    hide Run, AllSooner, Rising;
    RunInv(run);
    RunRising(run);
    var s := Run(run);
    if scope in s.requests {
      var inner := s.requests[scope];
      forall id | id in inner
        ensures Rising(inner[id].callbacks) && AllOf(s.keys, inner[id].callbacks, id)
      {
        CallbacksOf(s, Key(scope, id));
        assert Callbacks(s, Key(scope, id)) == inner[id].callbacks;
      }
      CollectSorted(inner, Mine(inner, r), s.keys);
    } else {
      assert AllSooner(s.keys, []) by { NoneSooner(s.keys); }
    }
  }

  lemma CallbacksOf(s: State, k: Key)
    requires Kept(s)
    ensures AllOf(s.keys, Callbacks(s, k), k.id)
  {
    var xs := Callbacks(s, k);
    hide Callbacks;
    forall i | 0 <= i < |xs| ensures xs[i] < |s.keys| && s.keys[xs[i]].id == k.id {
      assert xs[i] in xs;
    }
  }

  lemma NoneSooner(keys: seq<Key>)
    ensures AllSooner(keys, [])
  {
  }

  /** Every registered callback is in exactly one place, once: waiting under its own id, collected, or called. */
  lemma Conservation(run: seq<Event>)
    ensures var s := Run(run);
            && NoDuplicates(s.called) && NoDuplicates(s.running) && (forall k :: NoDuplicates(Callbacks(s, k)))
            && (forall k, c {:trigger c in Callbacks(s, k)} :: c in Callbacks(s, k) ==> c < |s.keys| && s.keys[c] == k)
            && (forall c :: c in s.called || c in s.running ==> c < |s.keys|)
            && (forall c :: 0 <= c < |s.keys| ==>
                  && (c in Callbacks(s, s.keys[c]) || c in s.running || c in s.called)
                  && !(c in Callbacks(s, s.keys[c]) && c in s.running)
                  && !(c in Callbacks(s, s.keys[c]) && c in s.called)
                  && !(c in s.running && c in s.called))
  {
    hide Run, NoDuplicates, Callbacks, Request;
    RunInv(run);
  }

  /** A callback is called only because a finished request carried its id. */
  lemma CalledByItsRequest(run: seq<Event>, c: nat)
    requires c in Run(run).called
    ensures var s := Run(run);
            c < |s.keys| && exists r :: r in s.finished && r in s.sent && s.keys[c] in s.sent[r]
  {
    hide Run, NoDuplicates, Callbacks, Request;
    RunInv(run);
    var s := Run(run);
    assert s.status[c].req in s.finished;
  }

  /** And a finishing request collects every callback waiting for an id it carried, also those that joined later. */
  lemma ReplyCollects(run: seq<Event>, scope: Scope, r: nat)
    requires Enabled(Run(run), Reply(scope, r))
    ensures var s := Run(run);
            forall c: nat :: c in Finish(s, scope, r).running
                        <==> c < |s.keys| && c in Callbacks(s, s.keys[c]) && s.keys[c] in s.sent[r]
  {
    RunInv(run);
    var s := Run(run);
    FinishView(s, scope, r);
    MineTokensAre(s, scope, r);
    assert scope !in s.requests ==> MineTokens(s, scope, r) == [];
    hide Run, Finish, NoDuplicates, Callbacks, Request, MineTokens;
    forall c: nat
      ensures c in Finish(s, scope, r).running
         <==> c < |s.keys| && c in Callbacks(s, s.keys[c]) && s.keys[c] in s.sent[r]
    {
      if c in MineTokens(s, scope, r) {
        var k: Key :| k.scope == scope && Request(s, k) == r && c in Callbacks(s, k);
      }
    }
  }

  /** No id is in two outstanding requests, and an id not sent yet has a resolve queued. */
  lemma IdsOutOnce(run: seq<Event>)
    ensures var s := Run(run);
            && (forall r, q :: Outstanding(s, r) && Outstanding(s, q) && r != q ==> s.sent[r] !! s.sent[q])
            && (forall k :: Request(s, k) == 0 ==> s.queued)
  {
    hide Run, NoDuplicates, Callbacks, Request;
    RunInv(run);
    var s := Run(run);
    forall r, q | Outstanding(s, r) && Outstanding(s, q) && r != q
      ensures s.sent[r] !! s.sent[q]
    {
      assert forall k :: k in s.sent[r] ==> Request(s, k) == r;
      assert forall k :: k in s.sent[q] ==> Request(s, k) == q;
    }
  }
}
