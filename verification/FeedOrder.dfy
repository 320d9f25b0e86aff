/** The order in which a batch of updates is fed to the client (api_updates.cpp:290-328, 579-590). */
module FeedOrder {
  import opened Common

  type Channel = nat

  /** What handling one update may do to the sequencing and scheduling state of the client. */
  datatype Effect =
    | NeedDifference                                     // data of a message is not loaded
    | MissingChannelData                                 // data of a channel message is not loaded
    | UnknownChannel                                     // contents read in a channel not loaded
    | StartPtsTimer(channel: Option<Channel>, ms: int)   // a pts gap opened (ms > 0) or closed
    | ChannelTooLong(ch: Channel)

  datatype Kind = MessageId | GroupCallParticipants | Other

  /** A selection of kinds. */
  datatype Kinds = Kinds(ids: bool, calls: bool, others: bool) {
    predicate Has(kind: Kind) {
      match kind
      case MessageId => ids
      case GroupCallParticipants => calls
      case Other => others
    }

    function And(k: Kinds): Kinds { Kinds(ids && k.ids, calls && k.calls, others && k.others) }

    function Not(): Kinds { Kinds(!ids, !calls, !others) }
  }

  const IDS := Kinds(true, false, false)
  const CALLS := Kinds(false, true, false)
  const OTHERS := Kinds(false, false, true)
  const REST := Kinds(true, false, true)

  datatype Update = Update(id: nat, kind: Kind, effects: seq<Effect>)

  datatype Policy = SkipNone | SkipMessageIds | SkipExceptGroupCallParticipants

  /** The updates of the given kinds, in their original relative order. */
  function Pick(list: seq<Update>, kinds: Kinds): seq<Update> {
    if list == [] then []
    else (if kinds.Has(list[0].kind) then [list[0]] else []) + Pick(list[1..], kinds)
  }

  /** The kinds a policy lets through. */
  function Allowed(policy: Policy): Kinds {
    match policy
    case SkipNone => Kinds(true, true, true)
    case SkipMessageIds => Kinds(false, true, true)
    case SkipExceptGroupCallParticipants => CALLS
  }

  /** What feedUpdateVector feeds: call participants first, then everything else the policy allows. */
  function VectorOrder(list: seq<Update>, policy: Policy): seq<Update> {
    Pick(list, CALLS) + Pick(list, Allowed(policy).And(REST))
  }

  lemma {:induction false} PickConcat(a: seq<Update>, b: seq<Update>, kinds: Kinds)
    ensures Pick(a + b, kinds) == Pick(a, kinds) + Pick(b, kinds)
  {
    if a == [] {
      assert a + b == b;
    } else {
      assert (a + b)[1..] == a[1..] + b;
      PickConcat(a[1..], b, kinds);
    }
  }

  lemma {:induction false} PickPick(list: seq<Update>, kinds: Kinds, more: Kinds)
    ensures Pick(Pick(list, kinds), more) == Pick(list, kinds.And(more))
  {
    if list != [] {
      PickPick(list[1..], kinds, more);
      PickConcat(if kinds.Has(list[0].kind) then [list[0]] else [], Pick(list[1..], kinds), more);
    }
  }

  lemma {:induction false} PickAbsent(list: seq<Update>, kinds: Kinds)
    requires forall u :: u in list ==> !kinds.Has(u.kind)
    ensures Pick(list, kinds) == []
  {
    if list != [] {
      assert list[0] in list;
      PickAbsent(list[1..], kinds);
    }
  }

  lemma {:induction false} PickAll(list: seq<Update>, kinds: Kinds)
    requires forall u :: u in list ==> kinds.Has(u.kind)
    ensures Pick(list, kinds) == list
  {
    if list != [] {
      assert list[0] in list;
      PickAll(list[1..], kinds);
      assert list == [list[0]] + list[1..];
    }
  }

  lemma {:induction false} PickKinds(list: seq<Update>, kinds: Kinds)
    ensures forall u :: u in Pick(list, kinds) ==> kinds.Has(u.kind)
  {
    if list != [] {
      PickKinds(list[1..], kinds);
    }
  }

  /** Two disjoint groups of kinds that cover everything partition the list, each update once. */
  lemma {:induction false} PickPartition(list: seq<Update>, kinds: Kinds)
    ensures multiset(Pick(list, kinds)) + multiset(Pick(list, kinds.Not()))
         == multiset(list)
  {
    if list != [] {
      hide Pick;
      var u, rest := list[0], list[1..];
      var a, b := multiset(Pick(rest, kinds)), multiset(Pick(rest, kinds.Not()));
      PickPartition(rest, kinds);
      PickCons(list, kinds);
      PickCons(list, kinds.Not());
      OneMore(u, a, b);
      Headed(list);
    }
  }

  lemma Headed<T>(list: seq<T>)
    requires list != []
    ensures multiset(list) == multiset{list[0]} + multiset(list[1..])
  {
    assert list == [list[0]] + list[1..];
  }

  lemma OneMore<T>(u: T, a: multiset<T>, b: multiset<T>)
    ensures (multiset{u} + a) + (multiset{} + b) == multiset{u} + (a + b)
    ensures (multiset{} + a) + (multiset{u} + b) == multiset{u} + (a + b)
  {
  }

  lemma PickCons(list: seq<Update>, kinds: Kinds)
    requires list != []
    ensures multiset(Pick(list, kinds))
            == (if kinds.Has(list[0].kind) then multiset{list[0]} else multiset{}) + multiset(Pick(list[1..], kinds))
  {
    if kinds.Has(list[0].kind) {
      assert Pick(list, kinds) == [list[0]] + Pick(list[1..], kinds);
    }
  }

  ghost predicate CallsFirst(s: seq<Update>) {
    forall i, j :: 0 <= i < j < |s| && s[j].kind == GroupCallParticipants ==> s[i].kind == GroupCallParticipants
  }

  /** A stable sort by "call participants first": sorted by that key, each key class in order. */
  ghost predicate IsStableSort(list: seq<Update>, sorted: seq<Update>) {
    && CallsFirst(sorted)
    && Pick(sorted, CALLS) == Pick(list, CALLS)
    && Pick(sorted, REST) == Pick(list, REST)
  }

  /** There is exactly one stable sort, so the library's answer is determined. */
  lemma StableSortIs(list: seq<Update>, sorted: seq<Update>)
    ensures IsStableSort(list, sorted) <==> sorted == Pick(list, CALLS) + Pick(list, REST)
  {
    StableSortExists(list);
    if IsStableSort(list, sorted) {
      SplitSorted(sorted);
    }
  }

  lemma {:induction false} SplitSorted(s: seq<Update>)
    requires CallsFirst(s)
    ensures s == Pick(s, CALLS) + Pick(s, REST)
  {
    if s != [] {
      hide CallsFirst, Pick;
      HeadAndTail(s);
      if s[0].kind == GroupCallParticipants {
        SplitSorted(s[1..]);
        PickHead(s, CALLS);
        PickHead(s, REST);
        Assembled(s, Pick(s[1..], CALLS), Pick(s[1..], REST));
      } else {
        PickAbsent(s, CALLS);
        PickAll(s, REST);
      }
    }
  }

  lemma Assembled<T>(s: seq<T>, a: seq<T>, b: seq<T>)
    requires s != [] && s[1..] == a + b
    ensures s == ([s[0]] + a) + b
  {
    assert s == [s[0]] + s[1..];
  }

  lemma PickHead(s: seq<Update>, kinds: Kinds)
    requires s != []
    ensures Pick(s, kinds) == (if kinds.Has(s[0].kind) then [s[0]] + Pick(s[1..], kinds) else Pick(s[1..], kinds))
  {
  }

  lemma HeadAndTail(s: seq<Update>)
    requires s != [] && CallsFirst(s)
    ensures CallsFirst(s[1..])
    ensures s[0].kind != GroupCallParticipants ==> forall u :: u in s ==> u.kind != GroupCallParticipants
  {
    if s[0].kind != GroupCallParticipants {
      forall u | u in s ensures u.kind != GroupCallParticipants {
        var j :| 0 <= j < |s| && s[j] == u;
      }
    }
  }

  lemma StableSortExists(list: seq<Update>)
    ensures IsStableSort(list, Pick(list, CALLS) + Pick(list, REST))
  {
    var a, b := Pick(list, CALLS), Pick(list, REST);
    assert Pick(a + b, CALLS) == a && Pick(a + b, REST) == b by {
      SortedPicks(list);
    }
    PickKinds(list, CALLS);
    PickKinds(list, REST);
    assert forall k :: 0 <= k < |a| ==> a[k] in a;
    assert forall k :: 0 <= k < |b| ==> b[k] in b;
  }

  lemma SortedPicks(list: seq<Update>)
    ensures var a, b := Pick(list, CALLS), Pick(list, REST);
            Pick(a + b, CALLS) == a && Pick(a + b, REST) == b
  {
    var a, b := Pick(list, CALLS), Pick(list, REST);
    PickKinds(list, CALLS);
    PickKinds(list, REST);
    PickConcat(a, b, CALLS);
    PickConcat(a, b, REST);
    PickAll(a, CALLS);
    PickAbsent(b, CALLS);
    PickAbsent(a, REST);
    PickAll(b, REST);
  }

  /** What survives the policy in the list that the loop walks. */
  lemma WalkedOrder(updates: seq<Update>, policy: Policy)
    ensures Pick(Pick(updates, CALLS) + Pick(updates, REST), Allowed(policy))
         == VectorOrder(updates, policy)
  {
    var a, b := Pick(updates, CALLS), Pick(updates, REST);
    PickConcat(a, b, Allowed(policy));
    PickPick(updates, CALLS, Allowed(policy));
    PickPick(updates, REST, Allowed(policy));
  }

  /** The loop of feedUpdateVector over the (possibly sorted) list. */
  method FeedAllowed(list: seq<Update>, policy: Policy) returns (fed: seq<Update>)
    ensures fed == Pick(list, Allowed(policy))
  {
    fed := [];
    for i := 0 to |list|
      invariant fed == Pick(list[..i], Allowed(policy))
    {
      PickConcat(list[..i], [list[i]], Allowed(policy));
      assert list[..i + 1] == list[..i] + [list[i]];
      if (policy == SkipMessageIds && list[i].kind == MessageId)
        || (policy == SkipExceptGroupCallParticipants && list[i].kind != GroupCallParticipants)
      {
        continue;
      }
      fed := fed + [list[i]];
    }
    assert list[..|list|] == list;
  }

  /** The library's sort: any list that is a stable sort is this one. */
  method StablySorted(updates: seq<Update>) returns (sorted: seq<Update>)
    ensures IsStableSort(updates, sorted) && sorted == Pick(updates, CALLS) + Pick(updates, REST)
  {
    sorted := Pick(updates, CALLS) + Pick(updates, REST);
    StableSortIs(updates, sorted);
  }

  /** feedUpdateVector: sorts when there is a call-participants update, then feeds what is allowed. */
  method FeedUpdateVector(updates: seq<Update>, policy: Policy) returns (fed: seq<Update>)
    ensures fed == VectorOrder(updates, policy)
  {
    var list := updates;
    WalkedOrder(updates, policy);
    if exists u :: u in list && u.kind == GroupCallParticipants {
      list := StablySorted(updates);
    } else {
      PickAbsent(updates, CALLS);
      PickAll(updates, REST);
      assert [] + updates == updates;
      if policy == SkipExceptGroupCallParticipants {
        return [];
      }
    }
    fed := FeedAllowed(list, policy);
  }

  method FeedMessageIds(updates: seq<Update>) returns (fed: seq<Update>)
    ensures fed == Pick(updates, IDS)
  {
    fed := [];
    for i := 0 to |updates|
      invariant fed == Pick(updates[..i], IDS)
    {
      PickConcat(updates[..i], [updates[i]], IDS);
      assert updates[..i + 1] == updates[..i] + [updates[i]];
      if updates[i].kind == MessageId {
        fed := fed + [updates[i]];
      }
    }
    assert updates[..|updates|] == updates;
  }

  /** feedDifference: what is fed before and after the new messages are processed. */
  method FeedDifference(other: seq<Update>) returns (before: seq<Update>, after: seq<Update>)
    ensures before == Pick(other, IDS)
    ensures after == Pick(other, CALLS) + Pick(other, OTHERS)
    ensures multiset(before + after) == multiset(other)
  {
    before := FeedMessageIds(other);
    after := FeedUpdateVector(other, SkipMessageIds);
    DifferenceOrder(other);
  }

  /** Feeding a difference feeds each update exactly once, in three groups that keep their order. */
  lemma DifferenceOrder(other: seq<Update>)
    ensures VectorOrder(other, SkipMessageIds) == Pick(other, CALLS) + Pick(other, OTHERS)
    ensures multiset(Pick(other, IDS) + VectorOrder(other, SkipMessageIds)) == multiset(other)
  {
    var rest := IDS.Not();
    PickPartition(other, IDS);
    PickPartition(Pick(other, rest), CALLS);
    PickPick(other, rest, CALLS);
    PickPick(other, rest, REST);
  }

  // ---- The same, element by element ----

  const EVERYTHING := Kinds(true, true, true)

  /** In which groups updates are fed, the lowest rank first. */
  datatype Order = InContainer | InDifference {
    function Rank(kind: Kind): nat {
      match this
      case InContainer => if kind == GroupCallParticipants then 0 else 1
      case InDifference => match kind { case MessageId => 0 case GroupCallParticipants => 1 case Other => 2 }
    }
  }

  /** Position a is fed before position b: in an earlier group, or in the same one and further in front. */
  predicate Earlier(list: seq<Update>, order: Order, a: nat, b: nat)
    requires a < |list| && b < |list|
  {
    var x, y := order.Rank(list[a].kind), order.Rank(list[b].kind);
    x < y || (x == y && a < b)
  }

  /** What is fed are the updates at the given positions: all of the kinds, each once, group by group. */
  ghost predicate FedFrom(list: seq<Update>, fed: seq<Update>, order: Order, kinds: Kinds, at: seq<nat>) {
    && |at| == |fed|
    && (forall k :: 0 <= k < |at| ==> at[k] < |list| && kinds.Has(list[at[k]].kind) && fed[k] == list[at[k]])
    && (forall j, k :: 0 <= j < k < |at| ==> Earlier(list, order, at[j], at[k]))
    && (forall m :: 0 <= m < |list| && kinds.Has(list[m].kind) ==> m in at)
  }

  ghost predicate FedAs(list: seq<Update>, fed: seq<Update>, order: Order, kinds: Kinds) {
    exists at :: FedFrom(list, fed, order, kinds, at)
  }

  /** The positions of the given kinds from some position on. */
  function Places(list: seq<Update>, kinds: Kinds, from: nat): seq<nat>
    requires from <= |list|
    decreases |list| - from
  {
    if from == |list| then []
    else (if kinds.Has(list[from].kind) then [from] else []) + Places(list, kinds, from + 1)
  }

  /** Exactly the positions of the given kinds from some position on, in ascending order. */
  ghost predicate PlacesOf(list: seq<Update>, kinds: Kinds, from: nat, at: seq<nat>) {
    && (forall k :: 0 <= k < |at| ==> from <= at[k] < |list| && kinds.Has(list[at[k]].kind))
    && (forall j, k :: 0 <= j < k < |at| ==> at[j] < at[k])
    && (forall m :: from <= m < |list| && kinds.Has(list[m].kind) ==> m in at)
  }

  lemma PlacesGrow(list: seq<Update>, kinds: Kinds, from: nat, at: seq<nat>)
    requires from < |list| && PlacesOf(list, kinds, from + 1, at)
    ensures PlacesOf(list, kinds, from, if kinds.Has(list[from].kind) then [from] + at else at)
  {
  }

  lemma OnePlace(list: seq<Update>, kinds: Kinds, from: nat)
    requires from < |list|
    ensures var rest := Places(list, kinds, from + 1);
            Places(list, kinds, from) == if kinds.Has(list[from].kind) then [from] + rest else rest
  {
  }

  lemma {:induction false} PlacesFromTo(list: seq<Update>, kinds: Kinds, from: nat)
    requires from <= |list|
    ensures PlacesOf(list, kinds, from, Places(list, kinds, from))
    decreases |list| - from
  {
    if from < |list| {
      hide PlacesOf, Places;
      var rest := Places(list, kinds, from + 1);
      PlacesFromTo(list, kinds, from + 1);
      PlacesGrow(list, kinds, from, rest);
      OnePlace(list, kinds, from);
    } else {
      assert Places(list, kinds, from) == [];
    }
  }

  lemma {:induction false} PlacesPick(list: seq<Update>, kinds: Kinds, from: nat)
    requires from <= |list|
    ensures var at, picked := Places(list, kinds, from), Pick(list[from..], kinds);
            |at| == |picked| && forall k :: 0 <= k < |at| ==> at[k] < |list| && picked[k] == list[at[k]]
    decreases |list| - from
  {
    if from < |list| {
      assert list[from..][1..] == list[from + 1..];
      PlacesPick(list, kinds, from + 1);
    }
  }

  /** One group, whose kinds all have the same rank. */
  lemma GroupFed(list: seq<Update>, order: Order, kinds: Kinds)
    requires forall a, b :: kinds.Has(a) && kinds.Has(b) ==> order.Rank(a) == order.Rank(b)
    ensures FedFrom(list, Pick(list, kinds), order, kinds, Places(list, kinds, 0))
  {
    assert list[0..] == list;
    PlacesPick(list, kinds, 0);
    PlacesFromTo(list, kinds, 0);
  }

  /** Groups fed one after the other, those of lower rank first. */
  lemma GroupsFed(list: seq<Update>, order: Order, a: seq<Update>, x: Kinds, p: seq<nat>,
                  b: seq<Update>, y: Kinds, q: seq<nat>, both: Kinds)
    requires FedFrom(list, a, order, x, p) && FedFrom(list, b, order, y, q)
    requires forall k, l :: x.Has(k) && y.Has(l) ==> order.Rank(k) < order.Rank(l)
    requires forall k :: both.Has(k) <==> x.Has(k) || y.Has(k)
    ensures FedFrom(list, a + b, order, both, p + q)
  {
  }

  /** A container: call participants first, then the rest, each group in its own order. */
  lemma ContainerFed(list: seq<Update>)
    ensures FedAs(list, VectorOrder(list, SkipNone), InContainer, EVERYTHING)
  {
    hide FedFrom;
    GroupFed(list, InContainer, CALLS);
    GroupFed(list, InContainer, REST);
    GroupsFed(list, InContainer, Pick(list, CALLS), CALLS, Places(list, CALLS, 0),
              Pick(list, REST), REST, Places(list, REST, 0), EVERYTHING);
  }

  /** An ignored container: its call participants only. */
  lemma CallsFed(list: seq<Update>)
    ensures FedAs(list, VectorOrder(list, SkipExceptGroupCallParticipants), InContainer, CALLS)
  {
    hide FedFrom;
    GroupFed(list, InContainer, CALLS);
    NothingElse(list);
    assert Pick(list, CALLS) + [] == Pick(list, CALLS);
  }

  lemma {:induction false} NothingElse(list: seq<Update>)
    ensures Pick(list, Allowed(SkipExceptGroupCallParticipants).And(REST)) == []
  {
    if list != [] {
      NothingElse(list[1..]);
    }
  }

  /** A difference: message ids, then call participants, then the rest. */
  lemma DifferenceFed(other: seq<Update>)
    ensures FedAs(other, Pick(other, IDS) + VectorOrder(other, SkipMessageIds), InDifference, EVERYTHING)
  {
    DifferenceOrder(other);
    hide FedFrom, VectorOrder, Pick, Places;
    GroupFed(other, InDifference, IDS);
    GroupFed(other, InDifference, CALLS);
    GroupFed(other, InDifference, OTHERS);
    var p, q := Places(other, CALLS, 0), Places(other, OTHERS, 0);
    var calls, others := Pick(other, CALLS), Pick(other, OTHERS);
    var late := Kinds(false, true, true);
    GroupsFed(other, InDifference, calls, CALLS, p, others, OTHERS, q, late);
    GroupsFed(other, InDifference, Pick(other, IDS), IDS, Places(other, IDS, 0), calls + others, late, p + q,
              EVERYTHING);
  }
}
