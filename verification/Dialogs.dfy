/** Loading the dialog lists: two kinds of requests per list, in every interleaving (apiwrap.cpp:745-975). */
module Dialogs {
  import opened Common

  /** The main list, or the list of a folder. */
  type List = Option<nat>

  /** A load state; a request id is reduced to whether it is set. */
  datatype Load = Load(offsetDate: int, requestId: bool, listReceived: bool,
                       pinnedRequestId: bool, pinnedReceived: bool)

  const NEW_LOAD := Load(0, false, false, false, false)

  /**
   * History of one list: its requests in flight, how often it was started, received and announced
   * as done, and whether the server answered "not modified" in the running load.
   */
  datatype Track = Track(listOut: nat, pinnedOut: nat, started: nat, listDone: nat, pinnedDone: nat,
                         announced: nat, notModified: bool)

  datatype Cell = Cell(load: Option<Load>, track: Track)

  const NO_CELL := Cell(None, Track(0, 0, 0, 0, 0, 0, false))

  datatype State = State(cells: map<List, Cell>, till: int, blocked: bool)

  function Get(s: State, l: List): Cell { if l in s.cells then s.cells[l] else NO_CELL }

  function Put(s: State, l: List, c: Cell): State { s.(cells := s.cells[l := c]) }

  /** The main load state exists from the start. */
  const INITIAL := State(map[None := Cell(Some(NEW_LOAD), Track(0, 0, 1, 0, 0, 0, false))], 0, false)

  datatype Answer = NotModified | Whole | Slice(lastDate: int)

  /** What the rest of the session decides in requestMoreDialogsIfNeeded. */
  datatype Needs = Needs(exceptionsFirst: bool, archive: Option<nat>)

  datatype Event =
    | Request(list: List)                                      // requestDialogs
    | ListDone(list: List, answer: Answer, needs: Needs)
    | ListFail(list: List)
    | PinnedDone(list: List)                                   // done or failed, the same here
    | AskPinned(list: List)                                    // requestPinnedDialogs from outside
    | AskIfNeeded(needs: Needs)                                // requestMoreDialogsIfNeeded from outside
    | LoadMoreBlocked(till: int)                               // requestMoreBlockedByDateDialogs
    | TillChanged(till: int)                                   // the support-mode time slice changed

  // ---- One list ----

  /** dialogsLoadFinish */
  function Finish(c: Cell): Cell {
    if c.load.Some? && c.load.value.listReceived && c.load.value.pinnedReceived
    then Cell(None, c.track.(announced := c.track.announced + 1))
    else c
  }

  /** requestPinnedDialogs */
  function RequestPinned(c: Cell): Cell {
    if c.load.None? || c.load.value.pinnedReceived || c.load.value.pinnedRequestId then c
    else Cell(Some(c.load.value.(pinnedRequestId := true)), c.track.(pinnedOut := c.track.pinnedOut + 1))
  }

  /** What requestMoreDialogs sends for a list that may be asked for. */
  function Send(c: Cell): Cell
    requires c.load.Some?
  {
    RequestPinned(Cell(Some(c.load.value.(requestId := true)), c.track.(listOut := c.track.listOut + 1)))
  }

  function Start(c: Cell): Cell {
    if c.load.None? then Cell(Some(NEW_LOAD), c.track.(started := c.track.started + 1)) else c
  }

  /** The list is complete. */
  function Complete(c: Cell): Cell {
    if c.load.None? then c
    else Finish(Cell(Some(c.load.value.(listReceived := true)), c.track.(listDone := c.track.listDone + 1)))
  }

  function Less(n: nat): nat { if n > 0 then n - 1 else 0 }

  /** The part of a list reply that concerns its load state. */
  function Answered(cell: Cell, answer: Answer): Cell {
    var c := cell.(track := cell.track.(listOut := Less(cell.track.listOut)));
    match answer
    case NotModified => c.(track := c.track.(notModified := true))
    case Whole => Complete(c)
    case Slice(lastDate) =>
      if c.load.None? then c
      else if lastDate != 0 then c.(load := Some(c.load.value.(offsetDate := lastDate, requestId := false)))
      else Complete(c)
  }

  /** The failure handler writes to the load state without looking whether it is there. */
  function Failed(c: Cell): Cell
    requires c.load.Some?
  {
    Cell(Some(c.load.value.(requestId := false)), c.track.(listOut := Less(c.track.listOut)))
  }

  function PinnedReceived(cell: Cell): Cell {
    var c := cell.(track := cell.track.(pinnedOut := Less(cell.track.pinnedOut)));
    if c.load.None? then c
    else Finish(Cell(Some(c.load.value.(pinnedRequestId := false, pinnedReceived := true)),
                     c.track.(pinnedDone := c.track.pinnedDone + 1)))
  }

  // ---- All lists ----

  /** refreshDialogsLoadBlocked */
  function Refresh(s: State): State {
    var m := Get(s, None).load;
    s.(blocked := m.Some? && !m.value.listReceived && !m.value.requestId && s.till > 0
                  && 0 < m.value.offsetDate <= s.till)
  }

  /** requestMoreDialogs */
  function RequestMore(s: State, l: List): State {
    var c := Get(s, l);
    if c.load.None? || c.load.value.requestId || s.blocked then s
    else
      var t := Put(s, l, Send(c));
      if l == None then Refresh(t) else t
  }

  /** requestDialogs */
  function RequestDialogs(s: State, l: List): State {
    RequestMore(if l.Some? then Put(s, l, Start(Get(s, l))) else s, l)
  }

  /** requestMoreDialogsIfNeeded */
  function RequestIfNeeded(s: State, needs: Needs): State {
    var m := Get(s, None).load;
    if needs.exceptionsFirst then s
    else if m.Some? && !m.value.listReceived then
      if m.value.requestId then s else RequestDialogs(s, None)
    else if needs.archive.Some? then RequestMore(s, needs.archive)
    else s
  }

  function ListReply(s: State, l: List, answer: Answer, needs: Needs): State {
    var t := Put(s, l, Answered(Get(s, l), answer));
    var m := Get(t, None).load;
    RequestIfNeeded(if l == None && (m.None? || !m.value.listReceived) then Refresh(t) else t, needs)
  }

  predicate Enabled(s: State, e: Event) {
    match e
    case ListDone(l, _, _) => Get(s, l).track.listOut > 0
    case ListFail(l) => Get(s, l).track.listOut > 0
    case PinnedDone(l) => Get(s, l).track.pinnedOut > 0
    case _ => true
  }

  /** Every event but the failure of a list request, which needs the load state to be there. */
  function Next(s: State, e: Event): State
    requires e.ListFail? ==> Get(s, e.list).load.Some?
  {
    match e
    case Request(l) => RequestDialogs(s, l)
    case ListDone(l, answer, needs) => ListReply(s, l, answer, needs)
    case ListFail(l) => Put(s, l, Failed(Get(s, l)))
    case PinnedDone(l) => Put(s, l, PinnedReceived(Get(s, l)))
    case AskPinned(l) => Put(s, l, RequestPinned(Get(s, l)))
    case AskIfNeeded(needs) => RequestIfNeeded(s, needs)
    case LoadMoreBlocked(till) =>
      if Get(s, None).load.None? then s else RequestDialogs(Refresh(s.(till := till)), None)
    case TillChanged(till) => Refresh(s.(till := till))
  }

  // ---- Invariant ----

  /** A list that still loads and holds a request id while no request is in flight. */
  predicate Stalled(c: Cell) {
    c.load.Some? && c.load.value.requestId && !c.load.value.listReceived && c.track.listOut == 0
  }

  /** What holds of each list. */
  predicate Good(c: Cell) {
    var k := c.track;
    // one request of each kind at most, and its load state still waits for it
    && k.listOut <= 1 && k.pinnedOut <= 1
    && (k.listOut == 1 ==> c.load.Some? && c.load.value.requestId && !c.load.value.listReceived)
    && (k.pinnedOut == 1 <==> c.load.Some? && c.load.value.pinnedRequestId)
    && (c.load.Some? && c.load.value.pinnedRequestId ==> !c.load.value.pinnedReceived)
    && (c.load.Some? && c.load.value.listReceived ==> c.load.value.requestId)
    && (c.load.Some? ==> !(c.load.value.listReceived && c.load.value.pinnedReceived))
    // whoever asked for the list asked for the pinned dialogs too
    && (c.load.Some? && (c.load.value.requestId || c.load.value.listReceived) ==>
          c.load.value.pinnedReceived || c.load.value.pinnedRequestId)
    // a load runs until it is announced, and each of its lists is received once
    && k.started == k.announced + (if c.load.Some? then 1 else 0)
    && k.listDone == k.announced + (if c.load.Some? && c.load.value.listReceived then 1 else 0)
    && k.pinnedDone == k.announced + (if c.load.Some? && c.load.value.pinnedReceived then 1 else 0)
    // it stalls exactly when the server said "not modified"
    && (Stalled(c) <==> k.notModified)
  }

  ghost predicate Inv(s: State) {
    && (forall l :: Good(Get(s, l)))
    && Get(s, None).track.started == 1
    && (s.blocked ==> Get(s, None).load.Some? && !Get(s, None).load.value.requestId)
  }

  lemma PutGood(s: State, l: List, c: Cell)
    requires (forall m :: m != l ==> Good(Get(s, m))) && Good(c)
    ensures forall m :: Good(Get(Put(s, l, c), m))
    ensures forall m :: Get(Put(s, l, c), m) == if m == l then c else Get(s, m)
  {
    hide Good;
    forall m ensures Get(Put(s, l, c), m) == if m == l then c else Get(s, m) {
    }
    forall m ensures Good(Get(Put(s, l, c), m)) {
      hide Get, Put;
      assert Get(Put(s, l, c), m) == if m == l then c else Get(s, m);
    }
  }

  /** Replacing the cell of one list. */
  lemma PutInv(s: State, l: List, c: Cell)
    requires Inv(s) && Good(c) && c.track.started >= Get(s, l).track.started
    requires l == None ==> c.track.started == 1 && (s.blocked ==> c.load.Some? && !c.load.value.requestId)
    ensures Inv(Put(s, l, c)) && Get(Put(s, l, c), l) == c && Put(s, l, c).blocked == s.blocked
  {
    hide Good;
    PutGood(s, l, c);
  }

  /** Refreshing makes the flag right, whatever it was. */
  lemma RefreshInv(s: State)
    requires (forall l :: Good(Get(s, l))) && Get(s, None).track.started == 1
    ensures Inv(Refresh(s))
  {
    hide Good;
    assert forall l :: Get(Refresh(s), l) == Get(s, l);
  }

  lemma SendGood(c: Cell)
    requires Good(c) && c.load.Some? && !c.load.value.requestId
    ensures Good(Send(c)) && Send(c).track.started == c.track.started
  {
  }

  lemma RequestMoreInv(s: State, l: List)
    requires Inv(s)
    ensures Inv(RequestMore(s, l))
  {
    hide Good, Send;
    var c := Get(s, l);
    if c.load.Some? && !c.load.value.requestId && !s.blocked {
      SendGood(c);
      PutInv(s, l, Send(c));
      if l == None {
        RefreshInv(Put(s, l, Send(c)));
      }
    }
  }

  lemma StartGood(c: Cell)
    requires Good(c)
    ensures Good(Start(c)) && Start(c).track.started >= c.track.started
  {
  }

  lemma RequestDialogsInv(s: State, l: List)
    requires Inv(s)
    ensures Inv(RequestDialogs(s, l))
  {
    hide Good, Start, RequestMore, Put;
    if l.Some? {
      StartGood(Get(s, l));
      PutInv(s, l, Start(Get(s, l)));
      RequestMoreInv(Put(s, l, Start(Get(s, l))), l);
    } else {
      RequestMoreInv(s, l);
    }
  }

  lemma NeededInv(s: State, needs: Needs)
    requires Inv(s)
    ensures Inv(RequestIfNeeded(s, needs))
  {
    hide Inv, RequestMore, RequestDialogs;
    RequestDialogsInv(s, None);
    RequestMoreInv(s, needs.archive);
  }

  lemma AnsweredGood(c: Cell, answer: Answer)
    requires Good(c) && c.track.listOut > 0
    ensures Good(Answered(c, answer)) && Answered(c, answer).track.started == c.track.started
  {
  }

  lemma ListReplyInv(s: State, l: List, answer: Answer, needs: Needs)
    requires Inv(s) && Get(s, l).track.listOut > 0
    ensures Inv(ListReply(s, l, answer, needs))
  {
    hide RequestIfNeeded, Answered, Refresh, Put;
    var c := Answered(Get(s, l), answer);
    AnsweredGood(Get(s, l), answer);
    if l == None {
      NotBlocked(s, l);
    }
    PutInv(s, l, c);
    var t := Put(s, l, c);
    RefreshInv(t);
    NeededInv(t, needs);
    NeededInv(Refresh(t), needs);
  }

  lemma NotBlocked(s: State, l: List)
    requires Inv(s) && Get(s, l).track.listOut > 0 && l == None
    ensures !s.blocked
  {
  }

  lemma FailedGood(c: Cell)
    requires Good(c) && c.track.listOut > 0
    ensures c.load.Some? && Good(Failed(c)) && Failed(c).track.started == c.track.started
  {
  }

  lemma PinnedGood(c: Cell)
    requires Good(c) && c.track.pinnedOut > 0
    ensures Good(PinnedReceived(c)) && PinnedReceived(c).track.started == c.track.started
    ensures c.load.Some? && !c.load.value.requestId ==>
              PinnedReceived(c).load.Some? && !PinnedReceived(c).load.value.requestId
  {
  }

  lemma AskPinnedGood(c: Cell)
    requires Good(c)
    ensures Good(RequestPinned(c)) && RequestPinned(c).track.started == c.track.started
    ensures RequestPinned(c).load.Some? == c.load.Some?
    ensures c.load.Some? ==> RequestPinned(c).load.value.requestId == c.load.value.requestId
    ensures Stalled(c) ==> Stalled(RequestPinned(c))
  {
  }

  lemma MainStarted(s: State)
    requires Inv(s)
    ensures Get(s, None).track.started == 1
    ensures s.blocked ==> Get(s, None).load.Some? && !Get(s, None).load.value.requestId
  {
  }

  lemma NextInv(s: State, e: Event)
    requires Inv(s) && Enabled(s, e)
    ensures e.ListFail? ==> Get(s, e.list).load.Some?
    ensures Inv(Next(s, e))
  {
    hide Good, Put, RequestDialogs, RequestIfNeeded, ListReply, Refresh, Failed, PinnedReceived, RequestPinned;
    match e
    case Request(l) => RequestDialogsInv(s, l);
    case ListDone(l, answer, needs) => ListReplyInv(s, l, answer, needs);
    case ListFail(l) =>
      FailedGood(Get(s, l));
      if l == None {
        NotBlocked(s, l);
      }
      PutInv(s, l, Failed(Get(s, l)));
    case PinnedDone(l) =>
      PinnedGood(Get(s, l));
      PutInv(s, l, PinnedReceived(Get(s, l)));
    case AskPinned(l) =>
      AskPinnedGood(Get(s, l));
      if l == None {
        MainStarted(s);
      }
      PutInv(s, l, RequestPinned(Get(s, l)));
    case AskIfNeeded(needs) => NeededInv(s, needs);
    case LoadMoreBlocked(till) =>
      assert forall k :: Get(s.(till := till), k) == Get(s, k);
      RefreshInv(s.(till := till));
      RequestDialogsInv(Refresh(s.(till := till)), None);
    case TillChanged(till) =>
      assert forall k :: Get(s.(till := till), k) == Get(s, k);
      RefreshInv(s.(till := till));
  }

  // ---- Runs ----

  /** A run is possible as long as no list request fails with its load state gone. */
  ghost function Run(run: seq<Event>): State {
    if run == [] then INITIAL
    else
      var s := Run(run[..|run| - 1]);
      var e := run[|run| - 1];
      if Enabled(s, e) && (e.ListFail? ==> Get(s, e.list).load.Some?) then Next(s, e) else s
  }

  lemma NewGood(c: Cell)
    requires c == NO_CELL || c == Cell(Some(NEW_LOAD), Track(0, 0, 1, 0, 0, 0, false))
    ensures Good(c)
  {
  }

  lemma InitialInv()
    ensures Inv(INITIAL)
  {
    hide Good;
    forall l ensures Good(Get(INITIAL, l)) {
      NewGood(Get(INITIAL, l));
    }
  }

  lemma {:induction false} RunInv(run: seq<Event>)
    ensures Inv(Run(run))
  {
    if run == [] {
      InitialInv();
    } else {
      hide Inv, Next, Enabled;
      RunInv(run[..|run| - 1]);
      var s, e := Run(run[..|run| - 1]), run[|run| - 1];
      if Enabled(s, e) {
        NextInv(s, e);
      }
    }
  }

  /** The unguarded access in the failure handler is safe: a list request in flight has its load state. */
  lemma FailureIsSafe(run: seq<Event>, l: List)
    requires Enabled(Run(run), ListFail(l))
    ensures Get(Run(run), l).load.Some?
  {
    hide Run;
    RunInv(run);
  }

  /** No list has two list requests or two pinned requests out, and a finished load has none. */
  lemma OneRequestEach(run: seq<Event>, l: List)
    ensures var c := Get(Run(run), l);
            && c.track.listOut <= 1 && c.track.pinnedOut <= 1
            && (c.load.None? ==> c.track.listOut == 0 && c.track.pinnedOut == 0)
  {
    hide Run;
    RunInv(run);
  }

  /** The main list is announced at most once, exactly when its load state is gone. */
  lemma MainAnnouncedOnce(run: seq<Event>)
    ensures var c := Get(Run(run), None);
            c.track.announced <= 1 && (c.track.announced == 1 <==> c.load.None?)
  {
    hide Run;
    RunInv(run);
  }

  /** A list is announced once per load, and only after both its lists arrived in that load. */
  lemma AnnouncedOncePerLoad(run: seq<Event>, l: List)
    ensures var c := Get(Run(run), l);
            && c.track.announced == c.track.started - (if c.load.Some? then 1 else 0)
            && c.track.announced <= c.track.listDone && c.track.announced <= c.track.pinnedDone
            && c.track.listDone <= c.track.started && c.track.pinnedDone <= c.track.started
  {
    hide Run;
    RunInv(run);
  }

  /** "Blocked by date" means the main list is still loading with no request of its out. */
  lemma BlockedMeansIdle(run: seq<Event>)
    requires Run(run).blocked
    ensures var c := Get(Run(run), None);
            c.load.Some? && !c.load.value.listReceived && c.track.listOut == 0
  {
    hide Run;
    RunInv(run);
  }

  // ---- Loads go on ----

  /** A load with a list request out, or with its list received, has its pinned dialogs or asks for them once. */
  lemma PinnedIsAsked(run: seq<Event>, l: List)
    ensures var c := Get(Run(run), l);
            && (c.track.listOut > 0 ==> c.load.Some?)
            && (c.load.Some? && (c.track.listOut > 0 || c.load.value.listReceived) ==>
                  c.load.value.pinnedReceived || c.track.pinnedOut == 1)
            && (c.load.Some? && c.load.value.listReceived ==> c.track.pinnedOut == 1)
  {
    hide Run;
    RunInv(run);
    GoodOf(Run(run), l);
  }

  /** So a load whose list was received is announced when that pinned request is answered. */
  lemma LoadFinishes(run: seq<Event>, l: List)
    requires var c := Get(Run(run), l); c.load.Some? && c.load.value.listReceived
    ensures Enabled(Run(run), PinnedDone(l))
    ensures var c, d := Get(Run(run), l), Get(Next(Run(run), PinnedDone(l)), l);
            d.load.None? && d.track.announced == c.track.announced + 1
  {
    hide Run;
    PinnedIsAsked(run, l);
  }

  /** The list is not being loaded, is received, is being asked for, or has stalled. */
  predicate GoesOn(c: Cell) {
    c.load.None? || c.load.value.listReceived || c.track.listOut == 1 || Stalled(c)
  }

  lemma SendGoesOn(c: Cell)
    requires Good(c) && c.load.Some? && !c.load.value.requestId
    ensures GoesOn(Send(c)) && Send(c).load.Some?
  {
  }

  lemma RequestGoesOn(s: State, l: List)
    requires Inv(s)
    ensures s.blocked || GoesOn(Get(RequestMore(s, l), l))
    ensures Get(RequestMore(s, l), l).load.Some? <==> Get(s, l).load.Some?
  {
    GoodOf(s, l);
    var c := Get(s, l);
    if c.load.Some? && !c.load.value.requestId && !s.blocked {
      SendGoesOn(c);
      hide Send, Good, GoesOn;
      assert Get(RequestMore(s, l), l) == Send(c);
    }
  }

  /** A list asked for is loading from then on, and a request of its is out unless all waits for its date. */
  lemma RequestIsSent(run: seq<Event>, l: List)
    ensures var s, t := Run(run), Next(Run(run), Request(l));
            && (s.blocked || GoesOn(Get(t, l)))
            && (l.Some? ==> Get(t, l).load.Some?)
  {
    hide Run, GoesOn, RequestMore, Good;
    RunInv(run);
    var s := Run(run);
    if l.Some? {
      GoodOf(s, l);
      StartGood(Get(s, l));
      PutInv(s, l, Start(Get(s, l)));
      RequestGoesOn(Put(s, l, Start(Get(s, l))), l);
    } else {
      RequestGoesOn(s, l);
    }
  }

  /** What asking for more can change of a list: one request of each kind may go out. */
  predicate Asked(c: Cell, d: Cell) {
    && d.load.Some? == c.load.Some? && d.track.announced == c.track.announced
    && (c.load.Some? ==> d.load.value.listReceived == c.load.value.listReceived
                         && d.load.value.offsetDate == c.load.value.offsetDate
                         && d.load.value.pinnedReceived == c.load.value.pinnedReceived)
  }

  lemma MoreAsked(s: State, m: List, l: List)
    ensures Asked(Get(s, l), Get(RequestMore(s, m), l))
  {
  }

  lemma NeededAsked(s: State, needs: Needs, l: List)
    ensures Asked(Get(s, l), Get(RequestIfNeeded(s, needs), l))
  {
    hide RequestMore;
    MoreAsked(s, None, l);
    MoreAsked(s, needs.archive, l);
  }

  /**
   * A whole list, or a slice with nothing to go on from, completes the list: it is announced if the pinned
   * dialogs are there, and otherwise waits for them. A slice moves the offset, and anything else stalls.
   */
  lemma AnswerTakes(run: seq<Event>, l: List, answer: Answer, needs: Needs)
    requires Enabled(Run(run), ListDone(l, answer, needs))
    ensures var c, d := Get(Run(run), l), Get(Next(Run(run), ListDone(l, answer, needs)), l);
            && c.load.Some?
            && (answer == Whole || answer == Slice(0) ==>
                  if c.load.value.pinnedReceived then d.load.None? && d.track.announced == c.track.announced + 1
                  else d.load.Some? && d.load.value.listReceived)
            && (answer.Slice? && answer.lastDate != 0 ==>
                  d.load.Some? && !d.load.value.listReceived && d.load.value.offsetDate == answer.lastDate)
            && (answer.NotModified? ==> Stalled(d))
  {
    hide Run, RequestIfNeeded;
    RunInv(run);
    var s := Run(run);
    GoodOf(s, l);
    var t := Put(s, l, Answered(Get(s, l), answer));
    NeededAsked(t, needs, l);
    NeededAsked(Refresh(t), needs, l);
    assert Get(Refresh(t), l) == Get(t, l);
    if answer.NotModified? {
      NeededKeepsStalled(t, needs, l);
      NeededKeepsStalled(Refresh(t), needs, l);
    }
  }

  lemma NeededKeepsStalled(s: State, needs: Needs, l: List)
    requires Stalled(Get(s, l))
    ensures Stalled(Get(RequestIfNeeded(s, needs), l))
  {
    RequestKeepsStalled(s, None, l);
    RequestKeepsStalled(s, needs.archive, l);
    hide RequestMore;
  }

  /** The main list is loading with no request out, and all it has loaded is younger than asked for. */
  predicate WaitsForDate(s: State) {
    var m := Get(s, None).load;
    m.Some? && !m.value.listReceived && !m.value.requestId && 0 < m.value.offsetDate <= s.till
  }

  lemma MainGoesOnHere(s: State, needs: Needs)
    requires Inv(s) && !needs.exceptionsFirst
    ensures var t := RequestIfNeeded(s, needs);
            && (s.blocked || GoesOn(Get(t, None)))
            && (GoesOn(Get(s, None)) ==> GoesOn(Get(t, None)))
            && (needs.archive.Some? && (Get(s, None).load.None? || Get(s, None).load.value.listReceived) ==>
                  s.blocked || GoesOn(Get(t, needs.archive)))
  {
    RequestGoesOn(s, None);
    RequestGoesOn(s, needs.archive);
    GoodOf(s, None);
    if needs.archive.Some? {
      OtherList(s, needs.archive, None);
    }
    hide RequestMore, Good;
  }

  lemma OtherList(s: State, m: List, l: List)
    requires m.Some? && l != m
    ensures Get(RequestMore(s, m), l) == Get(s, l)
  {
  }

  /**
   * After every answer to the main list it is complete, is asked for again, has stalled, or waits for its
   * date, unless exceptions of the filters are loaded first; and once it is complete, a needed archive follows.
   */
  lemma MainGoesOn(run: seq<Event>, answer: Answer, needs: Needs)
    requires Enabled(Run(run), ListDone(None, answer, needs)) && !needs.exceptionsFirst
    ensures var t := Next(Run(run), ListDone(None, answer, needs));
            && (GoesOn(Get(t, None)) || WaitsForDate(t))
            && (needs.archive.Some? && (Get(t, None).load.None? || Get(t, None).load.value.listReceived) ==>
                  GoesOn(Get(t, needs.archive)))
  {
    hide Run, RequestIfNeeded, GoesOn, Answered, Good;
    RunInv(run);
    var s := Run(run);
    GoodOf(s, None);
    AnsweredGood(Get(s, None), answer);
    NotBlocked(s, None);
    PutInv(s, None, Answered(Get(s, None), answer));
    var t := Put(s, None, Answered(Get(s, None), answer));
    RefreshInv(t);
    var m := Get(t, None).load;
    var u := if m.None? || !m.value.listReceived then Refresh(t) else t;
    assert Get(u, None) == Get(t, None);
    MainGoesOnHere(u, needs);
    NeededAsked(u, needs, None);
    if u.blocked {
      BlockedStays(u, needs);
    }
  }

  lemma BlockedStays(s: State, needs: Needs)
    requires s.blocked && WaitsForDate(s)
    ensures WaitsForDate(RequestIfNeeded(s, needs))
  {
  }

  /** A slice of the main list that reaches back to the date to load till has the loading wait, exactly then. */
  lemma OldSliceWaits(run: seq<Event>, date: int, needs: Needs)
    requires date != 0 && Enabled(Run(run), ListDone(None, Slice(date), needs))
    ensures var t := Next(Run(run), ListDone(None, Slice(date), needs));
            && (0 < date <= Run(run).till ==> t.blocked && Get(t, None).track.listOut == 0 && WaitsForDate(t))
            && (!(0 < date <= Run(run).till) && !needs.exceptionsFirst ==>
                  !t.blocked && Get(t, None).track.listOut == 1)
  {
    hide Run, Good;
    RunInv(run);
    var s := Run(run);
    GoodOf(s, None);
    SliceFrees(Get(s, None), date);
    var c := Answered(Get(s, None), Slice(date));
    hide Answered, Send;
    var t := Refresh(Put(s, None, c));
    assert Get(t, None) == c && t.till == s.till;
    SendIsOut(c);
  }

  lemma SliceFrees(c: Cell, date: int)
    requires Good(c) && c.track.listOut > 0 && date != 0
    ensures var d := Answered(c, Slice(date));
            && d.load.Some? && !d.load.value.requestId && !d.load.value.listReceived
            && d.load.value.offsetDate == date && d.track.listOut == 0
  {
  }

  lemma SendIsOut(c: Cell)
    requires c.load.Some?
    ensures var d := Send(c);
            && d.load.Some? && d.load.value.requestId && d.track.listOut == c.track.listOut + 1
            && d.load.value.listReceived == c.load.value.listReceived
  {
  }

  /** A new date to load till decides again whether the loading waits. */
  lemma TillDecides(s: State, till: int)
    ensures var t := Next(s, TillChanged(till));
            t.till == till && t.cells == s.cells && (t.blocked <==> WaitsForDate(t))
  {
  }

  /** More is asked for, up to that date. */
  lemma MoreBlockedIsSent(run: seq<Event>, till: int)
    ensures var t := Next(Run(run), LoadMoreBlocked(till));
            Get(t, None).load.Some? ==> t.till == till && (GoesOn(Get(t, None)) || (t.blocked && WaitsForDate(t)))
  {
    hide Run, GoesOn, RequestMore, Good;
    RunInv(run);
    var s := Run(run);
    if Get(s, None).load.Some? {
      var u := Refresh(s.(till := till));
      assert forall k :: Get(s.(till := till), k) == Get(s, k);
      RefreshInv(s.(till := till));
      RequestGoesOn(u, None);
      BlockedNotAsked(u);
      TillKept(u, None);
    }
  }

  /** While exceptions of the filters are loaded first nothing else is asked for; otherwise the main list goes on. */
  lemma AskedIfNeeded(run: seq<Event>, needs: Needs)
    ensures var s, t := Run(run), Next(Run(run), AskIfNeeded(needs));
            && (needs.exceptionsFirst ==> t == s)
            && (!needs.exceptionsFirst ==>
                  && (s.blocked || GoesOn(Get(t, None)))
                  && (needs.archive.Some? && (Get(s, None).load.None? || Get(s, None).load.value.listReceived) ==>
                        s.blocked || GoesOn(Get(t, needs.archive))))
  {
    hide Run;
    RunInv(run);
    if !needs.exceptionsFirst {
      hide RequestIfNeeded;
      MainGoesOnHere(Run(run), needs);
    }
  }

  /** Asked for from outside, the pinned dialogs of a load are there or are asked for once. */
  lemma PinnedAskedOutside(run: seq<Event>, l: List)
    ensures var c, d := Get(Run(run), l), Get(Next(Run(run), AskPinned(l)), l);
            && (d.load.Some? <==> c.load.Some?)
            && (d.load.Some? ==> d.load.value.pinnedReceived || d.track.pinnedOut == 1)
            && d.track.listOut == c.track.listOut
  {
    hide Run;
    RunInv(run);
    GoodOf(Run(run), l);
  }

  /** A list whose request failed is as before, with no request out, so that it can be asked for again. */
  lemma FailedIsIdle(run: seq<Event>, l: List)
    requires Enabled(Run(run), ListFail(l))
    ensures Get(Run(run), l).load.Some?
    ensures var c, d := Get(Run(run), l), Get(Next(Run(run), ListFail(l)), l);
            && d.load == Some(c.load.value.(requestId := false)) && d.track.listOut == 0
            && d.track.pinnedOut == c.track.pinnedOut
  {
    hide Run;
    RunInv(run);
    GoodOf(Run(run), l);
  }

  lemma BlockedNotAsked(s: State)
    ensures s.blocked ==> RequestMore(s, None) == s
  {
  }

  lemma TillKept(s: State, l: List)
    ensures RequestMore(s, l).till == s.till
  {
  }

  // ---- The one way to stall ----

  /** The answer that stalls a list. */
  predicate Stalls(e: Event, l: List) { e.ListDone? && e.list == l && e.answer == NotModified }

  /** The i-th event of a run was handled and stalled the list. */
  ghost predicate StallsAt(run: seq<Event>, i: int, l: List) {
    0 <= i < |run| && Stalls(run[i], l) && Enabled(Run(run[..i]), run[i])
  }

  lemma RequestKeepsMark(s: State, m: List, l: List)
    ensures Get(RequestMore(s, m), l).track.notModified == Get(s, l).track.notModified
    ensures Get(RequestDialogs(s, m), l).track.notModified == Get(s, l).track.notModified
  {
  }

  lemma NeededKeepsMark(s: State, needs: Needs, l: List)
    ensures Get(RequestIfNeeded(s, needs), l).track.notModified == Get(s, l).track.notModified
  {
    RequestKeepsMark(s, None, l);
    RequestKeepsMark(s, needs.archive, l);
    hide RequestMore, RequestDialogs;
  }

  lemma MarkStep(s: State, e: Event, l: List)
    requires e.ListFail? ==> Get(s, e.list).load.Some?
    ensures Get(Next(s, e), l).track.notModified == (Get(s, l).track.notModified || Stalls(e, l))
  {
    hide RequestMore, RequestDialogs, RequestIfNeeded;
    match e
    case Request(m) => RequestKeepsMark(s, m, l);
    case ListDone(m, answer, needs) =>
      var t := Put(s, m, Answered(Get(s, m), answer));
      NeededKeepsMark(Refresh(t), needs, l);
      NeededKeepsMark(t, needs, l);
      assert Get(t, l).track.notModified == (Get(s, l).track.notModified || Stalls(e, l));
      assert Get(Refresh(t), l) == Get(t, l);
    case AskIfNeeded(needs) => NeededKeepsMark(s, needs, l);
    case LoadMoreBlocked(till) => RequestKeepsMark(Refresh(s.(till := till)), None, l);
    case _ =>
  }

  /**
   * In every run a list not yet received holds a request id with nothing in flight exactly if one of its
   * requests was answered "not modified".
   */
  lemma {:induction false} StallsExactlyWhen(run: seq<Event>, l: List)
    ensures Stalled(Get(Run(run), l)) <==> exists i :: StallsAt(run, i, l)
    ensures Stalled(Get(Run(run), l)) <==> Get(Run(run), l).track.notModified
  {
    RunInv(run);
    GoodOf(Run(run), l);
    hide Inv, Next, Enabled;
    if run != [] {
      var before, e := run[..|run| - 1], run[|run| - 1];
      StallsExactlyWhen(before, l);
      var s := Run(before);
      if Enabled(s, e) {
        RunInv(before);
        NextInv(s, e);
        MarkStep(s, e, l);
      }
      if i :| StallsAt(before, i, l) {
        assert before[..i] == run[..i];
        assert StallsAt(run, i, l);
      }
      if i :| StallsAt(run, i, l) {
        if i < |before| {
          assert before[..i] == run[..i];
          assert StallsAt(before, i, l);
        }
      }
      assert Enabled(s, e) && Stalls(e, l) ==> StallsAt(run, |run| - 1, l);
    }
  }

  lemma StalledStays(s: State, e: Event, l: List)
    requires Inv(s) && Enabled(s, e) && Stalled(Get(s, l))
    requires e.ListFail? ==> Get(s, e.list).load.Some?
    ensures Stalled(Get(Next(s, e), l))
  {
    hide Inv, Good;
    match e
    case Request(m) => RequestKeepsStalled(if m.Some? then Put(s, m, Start(Get(s, m))) else s, m, l);
    case ListDone(m, answer, needs) =>
      var t := Put(s, m, Answered(Get(s, m), answer));
      var main := Get(t, None).load;
      var u := if m == None && (main.None? || !main.value.listReceived) then Refresh(t) else t;
      assert Get(u, l) == Get(s, l);
      RequestKeepsStalled(u, None, l);
      RequestKeepsStalled(u, needs.archive, l);
    case ListFail(m) =>
    case PinnedDone(m) => PinnedKeepsStalled(Get(s, l));
    case AskPinned(m) =>
      assert Good(Get(s, l)) by { GoodOf(s, l); }
      AskPinnedGood(Get(s, l));
    case AskIfNeeded(needs) =>
      RequestKeepsStalled(s, None, l);
      RequestKeepsStalled(s, needs.archive, l);
    case LoadMoreBlocked(till) => RequestKeepsStalled(Refresh(s.(till := till)), None, l);
    case TillChanged(_) =>
  }

  lemma GoodOf(s: State, l: List)
    requires Inv(s)
    ensures Good(Get(s, l))
  {
  }

  lemma RequestKeepsStalled(s: State, m: List, l: List)
    requires Stalled(Get(s, l))
    ensures Stalled(Get(RequestMore(s, m), l))
  {
  }

  lemma PinnedKeepsStalled(c: Cell)
    requires Stalled(c)
    ensures Stalled(PinnedReceived(c))
  {
  }

  /** And then it never finishes: no later event completes, announces or asks for that list again. */
  lemma {:induction false} StalledForever(run: seq<Event>, l: List, more: seq<Event>)
    requires Stalled(Get(Run(run), l))
    ensures Stalled(Get(Run(run + more), l))
    decreases |more|
  {
    if more == [] {
      assert run + more == run;
    } else {
      var most := more[..|more| - 1];
      assert (run + more)[..|run + more| - 1] == run + most;
      StalledForever(run, l, most);
      RunInv(run + most);
      var s, e := Run(run + most), more[|more| - 1];
      if Enabled(s, e) && (e.ListFail? ==> Get(s, e.list).load.Some?) {
        StalledStays(s, e, l);
      }
    }
  }

  /** It happens: the first list asked for is answered "not modified". */
  lemma StallCanHappen(needs: Needs)
    ensures Stalled(Get(Run([Request(None), ListDone(None, NotModified, needs)]), None))
  {
    var a, b := Request(None), ListDone(None, NotModified, needs);
    assert [a, b][..1] == [a] && [a][..0] == [];
    assert Run([]) == INITIAL;
    var s := Run([a]);
    assert s == Next(INITIAL, a);
    assert Get(s, None).track.listOut == 1 && Get(s, None).load.Some? && Get(s, None).load.value.requestId;
    assert Run([a, b]) == Next(s, b);
    var t := Put(s, None, Answered(Get(s, None), NotModified));
    RequestKeepsStalled(Refresh(t), None, None);
    RequestKeepsStalled(Refresh(t), needs.archive, None);
  }

  // ---- The loader itself ----

  class Loader {
    var cells: map<List, Cell>
    var till: int
    var blocked: bool

    ghost function Model(): State
      reads this
    {
      State(cells, till, blocked)
    }

    constructor ()
      ensures Model() == INITIAL && Inv(Model())
    {
      cells := map[None := Cell(Some(NEW_LOAD), Track(0, 0, 1, 0, 0, 0, false))];
      till, blocked := 0, false;
      new;
      RunInv([]);
    }

    function Of(l: List): (c: Cell)
      reads this
      ensures c == Get(Model(), l)
    {
      if l in cells then cells[l] else NO_CELL
    }

    method RefreshDialogsLoadBlocked()
      modifies this`blocked
      ensures Model() == Refresh(old(Model()))
    {
      var m := Of(None).load;
      blocked := m.Some? && !m.value.listReceived && !m.value.requestId && till > 0 && 0 < m.value.offsetDate <= till;
    }

    method DialogsLoadFinish(l: List)
      modifies this`cells
      ensures Model() == old(Put(Model(), l, Finish(Get(Model(), l))))
    {
      var c := Of(l);
      if c.load.Some? && c.load.value.listReceived && c.load.value.pinnedReceived {
        c := Cell(None, c.track.(announced := c.track.announced + 1));
      }
      cells := cells[l := c];
    }

    method RequestPinnedDialogs(l: List)
      modifies this`cells
      ensures Model() == old(Put(Model(), l, RequestPinned(Get(Model(), l))))
    {
      var c := Of(l);
      if c.load.Some? && !c.load.value.pinnedReceived && !c.load.value.pinnedRequestId {
        c := Cell(Some(c.load.value.(pinnedRequestId := true)), c.track.(pinnedOut := c.track.pinnedOut + 1));
      }
      cells := cells[l := c];
    }

    /** Any other part of the session may ask for the pinned dialogs, or for more if needed. */
    method AskedOutside(e: Event)
      requires Inv(Model()) && (e.AskPinned? || e.AskIfNeeded?)
      modifies this
      ensures Inv(Model()) && Model() == Next(old(Model()), e)
    {
      hide Inv, RequestIfNeeded;
      NextInv(Model(), e);
      match e
      case AskPinned(l) => RequestPinnedDialogs(l);
      case AskIfNeeded(needs) => RequestMoreDialogsIfNeeded(needs);
    }

    method RequestMoreDialogs(l: List)
      modifies this
      ensures Model() == RequestMore(old(Model()), l)
    {
      var c := Of(l);
      if c.load.None? || c.load.value.requestId || blocked {
        return;
      }
      cells := cells[l := Cell(Some(c.load.value.(requestId := true)), c.track.(listOut := c.track.listOut + 1))];
      if !c.load.value.pinnedReceived {
        RequestPinnedDialogs(l);
      }
      if l == None {
        RefreshDialogsLoadBlocked();
      }
    }

    method AskDialogs(l: List)
      modifies this
      ensures Model() == RequestDialogs(old(Model()), l)
    {
      if l.Some? {
        cells := cells[l := Start(Of(l))];
      }
      RequestMoreDialogs(l);
    }

    method RequestMoreDialogsIfNeeded(needs: Needs)
      modifies this
      ensures Model() == RequestIfNeeded(old(Model()), needs)
    {
      hide RequestDialogs, RequestMore;
      var m := Of(None).load;
      if needs.exceptionsFirst {
        return;
      }
      if m.Some? && !m.value.listReceived {
        if m.value.requestId {
          return;
        }
        AskDialogs(None);
      } else if needs.archive.Some? {
        RequestMoreDialogs(needs.archive);
      }
    }

    /** A list arrived whole, or a slice had nothing to continue from. */
    method CompleteList(l: List)
      requires Of(l).load.Some?
      modifies this`cells
      ensures Model() == old(Put(Model(), l, Complete(Get(Model(), l))))
    {
      var c := Of(l);
      cells := cells[l := Cell(Some(c.load.value.(listReceived := true)), c.track.(listDone := c.track.listDone + 1))];
      DialogsLoadFinish(l);
    }

    /** The part of the reply handler that concerns the load state. */
    method ApplyAnswer(l: List, answer: Answer)
      requires Of(l).load.Some?
      modifies this`cells
      ensures Model() == old(Put(Model(), l, Answered(Get(Model(), l), answer)))
    {
      hide Complete;
      var c := Of(l);
      ghost var was := cells;
      c := c.(track := c.track.(listOut := Less(c.track.listOut)));
      cells := cells[l := c];
      match answer {
        case NotModified => cells := cells[l := c.(track := c.track.(notModified := true))];
        case Whole => CompleteList(l);
        case Slice(lastDate) =>
          if lastDate != 0 {
            cells := cells[l := c.(load := Some(c.load.value.(offsetDate := lastDate, requestId := false)))];
          } else {
            CompleteList(l);
          }
      }
      assert cells == was[l := cells[l]];
    }

    method ListReceived(l: List, answer: Answer, needs: Needs)
      requires Inv(Model()) && Enabled(Model(), ListDone(l, answer, needs))
      modifies this
      ensures Inv(Model()) && Model() == Next(old(Model()), ListDone(l, answer, needs))
    {
      hide Inv, RequestIfNeeded, Answered;
      NextInv(Model(), ListDone(l, answer, needs));
      StateOfReply(Model(), l);
      ApplyAnswer(l, answer);
      var m := Of(None).load;
      if l == None && (m.None? || !m.value.listReceived) {
        RefreshDialogsLoadBlocked();
      }
      RequestMoreDialogsIfNeeded(needs);
    }

    method ListRequestFailed(l: List)
      requires Inv(Model()) && Enabled(Model(), ListFail(l))
      modifies this`cells
      ensures Inv(Model()) && Get(old(Model()), l).load.Some? && Model() == Next(old(Model()), ListFail(l))
    {
      hide Inv;
      NextInv(Model(), ListFail(l));
      var c := Of(l);
      cells := cells[l := Cell(Some(c.load.value.(requestId := false)), c.track.(listOut := Less(c.track.listOut)))];
    }

    method PinnedFinalize(l: List)
      requires Inv(Model()) && Enabled(Model(), PinnedDone(l))
      modifies this`cells
      ensures Inv(Model()) && Model() == Next(old(Model()), PinnedDone(l))
    {
      hide Inv;
      NextInv(Model(), PinnedDone(l));
      var c := Of(l);
      c := c.(track := c.track.(pinnedOut := Less(c.track.pinnedOut)));
      cells := cells[l := c];
      if c.load.Some? {
        cells := cells[l := Cell(Some(c.load.value.(pinnedRequestId := false, pinnedReceived := true)),
                                 c.track.(pinnedDone := c.track.pinnedDone + 1))];
        DialogsLoadFinish(l);
      }
      assert cells == old(cells)[l := cells[l]];
    }

    method RequestMoreBlockedByDateDialogs(e: Event)
      requires e.LoadMoreBlocked? || e.TillChanged?
      modifies this
      ensures Model() == Next(old(Model()), e)
    {
      hide RequestDialogs, Refresh;
      match e
      case LoadMoreBlocked(time) =>
        if Of(None).load.None? {
          return;
        }
        till := time;
        RefreshDialogsLoadBlocked();
        AskDialogs(None);
      case TillChanged(time) =>
        till := time;
        RefreshDialogsLoadBlocked();
    }

    /** Whatever happens, the object takes the step of the model: its life is a run. */
    method Handle(e: Event)
      requires Inv(Model()) && Enabled(Model(), e)
      modifies this
      ensures Inv(Model()) && (e.ListFail? ==> Get(old(Model()), e.list).load.Some?)
      ensures Model() == Next(old(Model()), e)
    {
      NextInv(Model(), e);
      hide Inv, RequestDialogs, ListReply, RequestIfNeeded, Refresh, PinnedReceived;
      match e
      case Request(l) => AskDialogs(l);
      case ListDone(l, answer, needs) => ListReceived(l, answer, needs);
      case ListFail(l) => ListRequestFailed(l);
      case PinnedDone(l) => PinnedFinalize(l);
      case AskPinned(l) => AskedOutside(e);
      case AskIfNeeded(needs) => AskedOutside(e);
      case LoadMoreBlocked(_) => RequestMoreBlockedByDateDialogs(e);
      case TillChanged(_) => RequestMoreBlockedByDateDialogs(e);
    }
  }

  lemma StateOfReply(s: State, l: List)
    requires Inv(s) && Get(s, l).track.listOut > 0
    ensures Get(s, l).load.Some?
  {
  }
}
