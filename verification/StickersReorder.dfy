/** The barrier before the reorder request of a saved sticker list (apiwrap.cpp:1432-1486, 1660-1664). */
module StickersReorder {
  /** An install or uninstall request, or a reorder request, of some call of saveStickerSets. */
  datatype Request = Change(call: nat) | Reorder(call: nat)

  datatype State = State(
    pending: set<nat>, reorder: nat,         // the two fields of the source; zero means no reorder request
    // History: requests in flight, and for each call its list length and its requests sent and
    // answered; the calls whose reorder request went out, in order.
    flight: map<nat, Request>, nextId: nat,
    sizes: seq<nat>, asked: seq<nat>, answered: seq<nat>, log: seq<nat>)

  const INITIAL := State({}, 0, map[], 1, [], [], [], [])

  datatype Event = Save(requests: nat, size: nat) | ChangeDone(id: nat) | ReorderDone(id: nat)

  function Ids(from: nat, count: nat): (ids: set<nat>)
    ensures |ids| == count && forall i :: i in ids <==> from <= i < from + count
  {
    if count == 0 then {} else Ids(from, count - 1) + {from + count - 1}
  }

  /** stickersSaveOrder of a call */
  function SaveOrder(s: State, call: nat): State
    requires call < |s.sizes|
  {
    if s.sizes[call] < 2 then s
    else s.(reorder := s.nextId, flight := s.flight[s.nextId := Reorder(call)], nextId := s.nextId + 1,
            log := s.log + [call])
  }

  /** saveStickerSets: cancels what is out, sends its own requests, and reorders at once if there are none. */
  function SaveCall(s: State, requests: nat, size: nat): State {
    var t := Requested(s, requests, size);
    if requests == 0 then SaveOrder(t, |s.sizes|) else t
  }

  function Requested(s: State, requests: nat, size: nat): State {
    var ids := Ids(s.nextId, requests);
    var kept := s.flight - (s.pending + {s.reorder});
    s.(pending := ids, reorder := 0, flight := kept + (map id | id in ids :: Change(|s.sizes|)),
       nextId := s.nextId + requests,
       sizes := s.sizes + [size], asked := s.asked + [requests], answered := s.answered + [0])
  }

  predicate Enabled(s: State, e: Event) {
    match e
    case Save(_, _) => true
    case ChangeDone(id) =>
      id in s.flight && s.flight[id].Change? && s.flight[id].call < |s.sizes| && s.flight[id].call < |s.answered|
    case ReorderDone(id) => id in s.flight && s.flight[id].Reorder?
  }

  function Next(s: State, e: Event): State
    requires Enabled(s, e)
  {
    match e
    case Save(requests, size) => SaveCall(s, requests, size)
    case ChangeDone(id) =>
      var call := s.flight[id].call;
      var t := s.(flight := s.flight - {id}, pending := s.pending - {id},
                  answered := s.answered[call := s.answered[call] + 1]);
      if t.pending == {} then SaveOrder(t, call) else t
    case ReorderDone(id) => s.(flight := s.flight - {id}, reorder := 0)
  }

  ghost function Run(run: seq<Event>): State {
    if run == [] then INITIAL
    else
      var s := Run(run[..|run| - 1]);
      if Enabled(s, run[|run| - 1]) then Next(s, run[|run| - 1]) else s
  }

  ghost predicate Flights(s: State) {
    var calls := |s.sizes|;
    && s.nextId > 0
    && (forall id :: id in s.flight ==> 0 < id < s.nextId && s.flight[id].call + 1 == calls)
    && (forall id :: id in s.pending <==> id in s.flight && s.flight[id].Change?)
    && (forall id :: id in s.flight && s.flight[id].Reorder? ==> id == s.reorder)
    && (s.reorder != 0 ==> s.reorder in s.flight && s.flight[s.reorder].Reorder?)
  }

  ghost predicate Increasing(xs: seq<nat>) { forall i, j :: 0 <= i < j < |xs| ==> xs[i] < xs[j] }

  /** The latest call waits for its own requests; whoever reordered had all of its answered. */
  ghost predicate Barrier(s: State) {
    var calls := |s.sizes|;
    && |s.asked| == calls && |s.answered| == calls
    && Increasing(s.log) && (forall c :: c in s.log ==> c < calls && s.answered[c] == s.asked[c])
    && (calls > 0 ==>
          && s.answered[calls - 1] + |s.pending| == s.asked[calls - 1]
          && (calls - 1 in s.log <==> s.pending == {} && s.sizes[calls - 1] >= 2))
  }

  ghost predicate Inv(s: State) { Flights(s) && Barrier(s) && (s.reorder != 0 ==> s.pending == {}) }

  lemma AppendIncreasing(xs: seq<nat>, x: nat)
    requires Increasing(xs) && forall y :: y in xs ==> y < x
    ensures Increasing(xs + [x])
  {
    assert forall i :: 0 <= i < |xs| ==> xs[i] in xs;
  }

  /** The barrier is open: the latest call sends its reorder request. */
  lemma SaveOrderInv(s: State)
    requires Flights(s) && s.pending == {} && s.reorder == 0 && |s.sizes| > 0
    requires |s.asked| == |s.sizes| && |s.answered| == |s.sizes| && s.answered[|s.sizes| - 1] == s.asked[|s.sizes| - 1]
    requires Increasing(s.log) && forall c :: c in s.log ==> c < |s.sizes| - 1 && s.answered[c] == s.asked[c]
    ensures Inv(SaveOrder(s, |s.sizes| - 1))
  {
    AppendIncreasing(s.log, |s.sizes| - 1);
    var t := SaveOrder(s, |s.sizes| - 1);
    assert |t.pending| == 0;
  }

  lemma RequestedFlights(s: State, requests: nat, size: nat)
    requires Inv(s)
    ensures Flights(Requested(s, requests, size))
  {
    hide Ids, Barrier;
    assert s.flight - (s.pending + {s.reorder}) == map[];
  }

  lemma SaveInv(s: State, requests: nat, size: nat)
    requires Inv(s)
    ensures Inv(SaveCall(s, requests, size))
  {
    hide Flights, SaveOrder, Ids;
    var t := Requested(s, requests, size);
    RequestedFlights(s, requests, size);
    assert |t.sizes| - 1 == |s.sizes| && |s.sizes| !in t.log;
    if requests == 0 {
      assert t.pending == {};
      SaveOrderInv(t);
    } else {
      assert Barrier(t);
    }
  }

  lemma ChangeDoneInv(s: State, id: nat)
    requires Inv(s) && Enabled(s, ChangeDone(id))
    ensures Inv(Next(s, ChangeDone(id)))
  {
    var call := s.flight[id].call;
    var t := s.(flight := s.flight - {id}, pending := s.pending - {id},
                answered := s.answered[call := s.answered[call] + 1]);
    AnsweredFlights(s, id);
    hide Flights;
    assert |t.pending| == |s.pending| - 1;
    assert call !in s.log;
    hide Increasing;
    if t.pending == {} {
      hide SaveOrder;
      SaveOrderInv(t);
    }
  }

  lemma AnsweredFlights(s: State, id: nat)
    requires Inv(s) && Enabled(s, ChangeDone(id))
    ensures id in s.pending && s.flight[id].call == |s.sizes| - 1 && s.reorder == 0
    ensures var call := s.flight[id].call;
            Flights(s.(flight := s.flight - {id}, pending := s.pending - {id},
                       answered := s.answered[call := s.answered[call] + 1]))
  {
    hide Barrier;
  }

  lemma {:induction false} RunInv(run: seq<Event>)
    ensures Inv(Run(run))
  {
    if run != [] {
      RunInv(run[..|run| - 1]);
      var s, e := Run(run[..|run| - 1]), run[|run| - 1];
      if Enabled(s, e) {
        match e
        case Save(requests, size) => SaveInv(s, requests, size);
        case ChangeDone(id) => ChangeDoneInv(s, id);
        case ReorderDone(id) => assert Flights(Next(s, e)) && Barrier(Next(s, e));
      }
    }
  }

  /** The reorder request goes out at most once per call, for later and later calls. */
  lemma ReorderedOnce(run: seq<Event>)
    ensures forall i, j :: 0 <= i < j < |Run(run).log| ==> Run(run).log[i] < Run(run).log[j]
  {
    hide Run;
    RunInv(run);
  }

  /** It goes out only when every install and uninstall request of its call was answered. */
  lemma ReorderedAfterReplies(run: seq<Event>, call: nat)
    requires call in Run(run).log
    ensures var s := Run(run);
            call < |s.asked| == |s.answered| && s.answered[call] == s.asked[call]
  {
    hide Run;
    RunInv(run);
  }

  /** The latest call has sent it exactly when nothing of its is outstanding and there is an order to send. */
  lemma LatestIsReordered(run: seq<Event>)
    requires |Run(run).sizes| > 0
    ensures var s := Run(run);
            |s.sizes| - 1 in s.log <==> s.pending == {} && s.sizes[|s.sizes| - 1] >= 2
  {
    hide Run;
    RunInv(run);
  }

  lemma OvertakenStep(s: State, e: Event, call: nat)
    requires Inv(s) && Enabled(s, e) && call + 1 < |s.sizes| && call !in s.log
    ensures call + 1 < |Next(s, e).sizes| && call !in Next(s, e).log
  {
    if e.ChangeDone? {
      AnsweredFlights(s, e.id);
    }
    hide Ids, Inv;
  }

  /** A call overtaken before it reordered never does, whatever happens later. */
  lemma {:induction false} OvertakenNeverReorders(run: seq<Event>, call: nat, more: seq<Event>)
    requires call + 1 < |Run(run).sizes| && call !in Run(run).log
    ensures call + 1 < |Run(run + more).sizes| && call !in Run(run + more).log
    decreases |more|
  {
    if more == [] {
      assert run + more == run;
    } else {
      var most := more[..|more| - 1];
      assert (run + more)[..|run + more| - 1] == run + most;
      OvertakenNeverReorders(run, call, most);
      RunInv(run + most);
      hide Inv, Enabled, Next;
      if Enabled(Run(run + most), more[|more| - 1]) {
        OvertakenStep(Run(run + most), more[|more| - 1], call);
      }
    }
  }

  // ---- The fields and the methods ----

  class Saver {
    var disenableRequests: set<nat>
    var reorderRequestId: nat
    ghost var flight: map<nat, Request>
    var nextId: nat
    var sizes: seq<nat>                      // the list length each call's closures carry
    ghost var asked: seq<nat>
    ghost var answered: seq<nat>
    ghost var log: seq<nat>

    ghost function Model(): State
      reads this
    {
      State(disenableRequests, reorderRequestId, flight, nextId, sizes, asked, answered, log)
    }

    constructor ()
      ensures Model() == INITIAL && Inv(Model())
    {
      disenableRequests, reorderRequestId, flight, nextId := {}, 0, map[], 1;
      sizes, asked, answered, log := [], [], [], [];
    }

    method StickersSaveOrder(call: nat)
      requires call < |sizes|
      modifies this
      ensures Model() == SaveOrder(old(Model()), call)
    {
      if sizes[call] < 2 {
        return;
      }
      reorderRequestId := nextId;
      flight, log := flight[nextId := Reorder(call)], log + [call];
      nextId := nextId + 1;
    }

    /** The request part of saveStickerSets, with the number of its install and uninstall requests. */
    method Save(requests: nat, size: nat)
      requires Inv(Model())
      modifies this
      ensures Inv(Model()) && Model() == SaveCall(old(Model()), requests, size)
    {
      hide Inv, Ids, SaveOrder;
      SaveInv(Model(), requests, size);
      var call := |sizes|;
      flight := flight - (disenableRequests + {reorderRequestId});
      disenableRequests, reorderRequestId := {}, 0;
      sizes, asked, answered := sizes + [size], asked + [requests], answered + [0];
      disenableRequests := Ids(nextId, requests);
      flight := flight + (map id | id in Ids(nextId, requests) :: Change(call));
      nextId := nextId + requests;
      if disenableRequests == {} {
        StickersSaveOrder(call);
      }
    }

    /** The reorder request was answered, or failed. */
    method ReorderAnswered(id: nat)
      requires Inv(Model()) && Enabled(Model(), ReorderDone(id))
      modifies this
      ensures Inv(Model()) && Model() == Next(old(Model()), ReorderDone(id))
    {
      flight := flight - {id};
      reorderRequestId := 0;
    }

    /** Whatever happens, the object takes the step of the model: its life is a run. */
    method Handle(e: Event, call: nat)
      requires Inv(Model()) && Enabled(Model(), e)
      requires e.ChangeDone? ==> call == flight[e.id].call      // what the request's closure carries
      modifies this
      ensures Inv(Model()) && Model() == Next(old(Model()), e)
    {
      hide Inv;
      match e
      case Save(requests, size) => Save(requests, size);
      case ChangeDone(id) => StickerSetDisenabled(id, call);
      case ReorderDone(id) => ReorderAnswered(id);
    }

    /** stickerSetDisenabled */
    method StickerSetDisenabled(id: nat, call: nat)
      requires Inv(Model()) && Enabled(Model(), ChangeDone(id)) && call == flight[id].call
      modifies this
      ensures Inv(Model()) && Model() == Next(old(Model()), ChangeDone(id))
    {
      hide Inv, SaveOrder;
      ChangeDoneInv(Model(), id);
      flight := flight - {id};
      answered := answered[call := answered[call] + 1];
      disenableRequests := disenableRequests - {id};
      if disenableRequests == {} {
        StickersSaveOrder(call);
      }
    }
  }
}
