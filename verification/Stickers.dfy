/** Saving the edited list of sticker sets: reconciliation of the local sets (apiwrap.cpp:1419-1665). */
module Stickers {
  import opened Common

  type SetId = nat

  const CUSTOM: SetId := 0xFFFF_FFFF_FFFF_FFFF
  const CLOUD_RECENT: SetId := 0xFFFF_FFFF_FFFF_FFFC
  const CLOUD_RECENT_ATTACHED: SetId := 0xFFFF_FFFF_FFFF_FFF9

  datatype StickerSet = StickerSet(installed: bool, archived: bool, featured: bool, special: bool, masks: bool,
                                   installDate: int)
  {
    /** The four flags that keep a set. */
    predicate Keeping() { featured || installed || archived || special }
  }

  type Sets = map<SetId, StickerSet>

  predicate Cloud(id: SetId) { id == CLOUD_RECENT || id == CLOUD_RECENT_ATTACHED }

  predicate ClearsRecent(removed: seq<SetId>) { CLOUD_RECENT in removed || CLOUD_RECENT_ATTACHED in removed }

  /** Clearing the recent sets takes both of them away, and the custom set. */
  predicate Cleared(id: SetId, removed: seq<SetId>) { ClearsRecent(removed) && (Cloud(id) || id == CUSTOM) }

  // ---- What each phase amounts to, set by set ----

  /** Is a set uninstalled by the list of removed ids? Archived ones are left alone. */
  predicate Uninstalled(set_: StickerSet, id: SetId, removed: seq<SetId>) {
    id in removed && !Cloud(id) && !set_.archived
  }

  /** Does a set disappear in the removal phase? */
  predicate Dropped(set_: StickerSet, id: SetId, removed: seq<SetId>) {
    || Cleared(id, removed)
    || (Uninstalled(set_, id, removed) && !set_.featured && !set_.special)
  }

  function Without(set_: StickerSet): StickerSet { set_.(installed := false, installDate := 0) }

  function AfterRemove(sets: Sets, removed: seq<SetId>): Sets {
    map id | id in sets && !Dropped(sets[id], id, removed) ::
      if Uninstalled(sets[id], id, removed) then Without(sets[id]) else sets[id]
  }

  function AfterClear(sets: Sets, masks: bool): Sets {
    map id | id in sets ::
      if !sets[id].archived && sets[id].masks == masks then sets[id].(installed := false) else sets[id]
  }

  function Install(set_: StickerSet, id: SetId, removed: seq<SetId>, now: int): StickerSet {
    set_.(archived := set_.archived && id in removed, installed := true,
          installDate := if set_.installDate != 0 then set_.installDate else now)
  }

  function AfterInstall(sets: Sets, order: seq<SetId>, removed: seq<SetId>, now: int): Sets {
    map id | id in sets :: if id in order then Install(sets[id], id, removed, now) else sets[id]
  }

  function AfterPrune(sets: Sets): Sets { map id | id in sets && sets[id].Keeping() :: sets[id] }

  function Saved(sets: Sets, order: seq<SetId>, removed: seq<SetId>, masks: bool, now: int): Sets {
    AfterPrune(AfterInstall(AfterClear(AfterRemove(sets, removed), masks), order, removed, now))
  }

  /** The ids of the list that still name a set. */
  function Existing(order: seq<SetId>, sets: Sets): seq<SetId> {
    if order == [] then []
    else Existing(order[..|order| - 1], sets)
         + if order[|order| - 1] in sets then [order[|order| - 1]] else []
  }

  lemma {:induction false} ExistingSame(order: seq<SetId>, a: Sets, b: Sets)
    requires forall id :: id in order ==> (id in a <==> id in b)
    ensures Existing(order, a) == Existing(order, b)
  {
    if order != [] {
      assert order[|order| - 1] in order;
      ExistingSame(order[..|order| - 1], a, b);
    }
  }

  // ---- The theorem ----

  /**
   * After saving: the stored order is the given one restricted to the sets that survive; a set of
   * this kind that is not archived is installed exactly if it is in that order; every survivor has a
   * keeping flag; and a set not mentioned and of the other kind, or archived, is as before.
   */
  lemma Reconciled(sets: Sets, order: seq<SetId>, removed: seq<SetId>, masks: bool, now: int)
    ensures var after := Saved(sets, order, removed, masks, now);
            && Existing(order, AfterRemove(sets, removed)) == Existing(order, after)
            && (forall id :: id in after && after[id].masks == masks && !after[id].archived ==>
                  (after[id].installed <==> id in order))
            && (forall id :: id in after ==> id in sets && after[id].Keeping())
            && (forall id :: id in sets && id !in order && id !in removed && !Cleared(id, removed)
                             && sets[id].Keeping() && (sets[id].archived || sets[id].masks != masks) ==>
                  id in after && after[id] == sets[id])
            && (forall id :: id in order && id in sets && !Dropped(sets[id], id, removed) ==>
                  id in after && after[id].installed)
  {
    var after := Saved(sets, order, removed, masks, now);
    forall id | id in order
      ensures id in AfterRemove(sets, removed) <==> id in after
    {
    }
    ExistingSame(order, AfterRemove(sets, removed), after);
    forall id | id in sets && id !in order && id !in removed && !Cleared(id, removed)
                && sets[id].Keeping() && (sets[id].archived || sets[id].masks != masks)
      ensures id in after && after[id] == sets[id]
    {
      assert !Dropped(sets[id], id, removed);
    }
  }

  /** Is the set still installed when it is not in the new order? */
  predicate StaysInstalled(set_: StickerSet, id: SetId, removed: seq<SetId>, masks: bool) {
    set_.installed && !Uninstalled(set_, id, removed) && (set_.archived || set_.masks != masks)
  }

  /** An uninstalled set forgets its date; one of the new order without a date gets the present one. */
  function SavedDate(set_: StickerSet, id: SetId, order: seq<SetId>, removed: seq<SetId>, now: int): int {
    var left := if Uninstalled(set_, id, removed) then 0 else set_.installDate;
    if id in order && left == 0 then now else left
  }

  /** Exactly which sets are left after saving, and with which flags. */
  lemma SurvivesExactlyWhen(sets: Sets, order: seq<SetId>, removed: seq<SetId>, masks: bool, now: int, id: SetId)
    ensures var after := Saved(sets, order, removed, masks, now);
            && (id in after
                <==> id in sets && !Dropped(sets[id], id, removed)
                     && (id in order || sets[id].featured || sets[id].special || sets[id].archived
                         || StaysInstalled(sets[id], id, removed, masks)))
            && (id in after ==>
                  && (after[id].installed <==> id in order || StaysInstalled(sets[id], id, removed, masks))
                  && (after[id].archived <==> sets[id].archived && (id in order ==> id in removed))
                  && after[id].featured == sets[id].featured && after[id].special == sets[id].special
                  && after[id].masks == sets[id].masks
                  && after[id].installDate == SavedDate(sets[id], id, order, removed, now))
  {
    var a := AfterRemove(sets, removed);
    var b := AfterClear(a, masks);
    var c := AfterInstall(b, order, removed, now);
    assert id in a <==> id in sets && !Dropped(sets[id], id, removed);
    assert id in a <==> id in b;
    assert id in b <==> id in c;
  }

  /** Removing either cloud-recent set takes both away and the custom set, whatever their flags and the new order. */
  lemma ClearingDropsThree(sets: Sets, order: seq<SetId>, removed: seq<SetId>, masks: bool, now: int, id: SetId)
    requires Cleared(id, removed)
    ensures id !in Saved(sets, order, removed, masks, now)
  {
    SurvivesExactlyWhen(sets, order, removed, masks, now, id);
  }

  /** For example: an installed custom set in the new order goes when the attached recent set is removed. */
  lemma CustomIsDropped(set_: StickerSet, masks: bool, now: int)
    ensures CUSTOM !in Saved(map[CUSTOM := set_], [CUSTOM], [CLOUD_RECENT_ATTACHED], masks, now)
    ensures CUSTOM in Saved(map[CUSTOM := set_], [CUSTOM], [], masks, now)
    ensures Asked(map[CUSTOM := set_], [CLOUD_RECENT_ATTACHED]) == []
  {
    var sets := map[CUSTOM := set_];
    SurvivesExactlyWhen(sets, [CUSTOM], [CLOUD_RECENT_ATTACHED], masks, now, CUSTOM);
    SurvivesExactlyWhen(sets, [CUSTOM], [], masks, now, CUSTOM);
  }

  // ---- The loops ----

  // ---- The two lists ----

  function Naming(order: seq<SetId>, sets: Sets): seq<bool> {
    seq(|order|, i requires 0 <= i < |order| => order[i] in sets)
  }

  lemma NamingMore(order: seq<SetId>, id: SetId, sets: Sets)
    ensures Naming(order + [id], sets) == Naming(order, sets) + [id in sets]
  {
  }

  /** The stored order is the given one at exactly the places that name a set. */
  lemma {:induction false} ExistingAre(order: seq<SetId>, sets: Sets)
    ensures Selected(order, Naming(order, sets), Existing(order, sets))
  {
    if order == [] {
      SelectedNone(order, Naming(order, sets), []);
    } else {
      hide Selected, Naming, Existing;
      var before, id := order[..|order| - 1], order[|order| - 1];
      assert order == before + [id];
      ExistingAre(before, sets);
      SelectedMore(before, Naming(before, sets), Existing(before, sets), id, id in sets);
      NamingMore(before, id, sets);
      ExistingStep(sets, before, id);
      assert Existing(before, sets) + [] == Existing(before, sets);
    }
  }

  /** At that place of the removed ids the set is still there and is asked to be uninstalled. */
  predicate AsksAt(sets: Sets, removed: seq<SetId>, i: nat)
    requires i < |removed|
  {
    var id := removed[i];
    !Cloud(id) && id in sets && !sets[id].archived && !Dropped(sets[id], id, removed[..i])
  }

  function Asking(sets: Sets, removed: seq<SetId>): seq<bool> {
    seq(|removed|, i requires 0 <= i < |removed| => AsksAt(sets, removed, i))
  }

  lemma AskingMore(sets: Sets, removed: seq<SetId>)
    requires removed != []
    ensures var n := |removed| - 1;
            && Asking(sets, removed) == Asking(sets, removed[..n]) + [AsksAt(sets, removed, n)]
            && (AsksAt(sets, removed, n) <==>
                  var now := AfterRemove(sets, removed[..n]);
                  !Cloud(removed[n]) && removed[n] in now && !now[removed[n]].archived)
  {
    var n := |removed| - 1;
    forall i | 0 <= i < n ensures AsksAt(sets, removed, i) == AsksAt(sets, removed[..n], i) {
      assert removed[..n][..i] == removed[..i];
    }
  }

  /** The server is asked once for each such place, in their order. */
  lemma {:induction false} AskedInOrder(sets: Sets, removed: seq<SetId>)
    ensures Selected(removed, Asking(sets, removed), Asked(sets, removed))
  {
    if removed == [] {
      SelectedNone(removed, Asking(sets, removed), []);
    } else {
      hide Selected, AsksAt, AfterRemove, Asking;
      var n := |removed| - 1;
      assert removed == removed[..n] + [removed[n]];
      AskedInOrder(sets, removed[..n]);
      AskingMore(sets, removed);
      SelectedMore(removed[..n], Asking(sets, removed[..n]), Asked(sets, removed[..n]), removed[n],
                   AsksAt(sets, removed, n));
      assert Asked(sets, removed[..n]) + [] == Asked(sets, removed[..n]);
    }
  }

  /** One removed id. */
  function RemoveOne(sets: Sets, id: SetId): Sets {
    if Cloud(id) then sets - {CLOUD_RECENT, CLOUD_RECENT_ATTACHED, CUSTOM}
    else if id !in sets || sets[id].archived then sets
    else if !sets[id].featured && !sets[id].special then sets - {id}
    else sets[id := sets[id].(installed := false, archived := false, installDate := 0)]
  }

  lemma RemoveStep(sets: Sets, removed: seq<SetId>, id: SetId)
    ensures RemoveOne(AfterRemove(sets, removed), id) == AfterRemove(sets, removed + [id])
  {
    var a, b := RemoveOne(AfterRemove(sets, removed), id), AfterRemove(sets, removed + [id]);
    forall j ensures (j in a <==> j in b) && (j in a ==> a[j] == b[j]) {
      RemoveAt(sets, removed, id, j);
    }
    hide RemoveOne, AfterRemove;
    assert a.Keys == b.Keys;
  }

  lemma RemoveAt(sets: Sets, removed: seq<SetId>, id: SetId, j: SetId)
    ensures var a, b := RemoveOne(AfterRemove(sets, removed), id), AfterRemove(sets, removed + [id]);
            (j in a <==> j in b) && (j in a ==> a[j] == b[j])
  {
    assert forall k :: k in removed + [id] <==> k in removed || k == id;
  }

  /** One id of the new order. */
  function InstallOne(sets: Sets, id: SetId, removed: seq<SetId>, now: int): Sets {
    if id in sets then sets[id := Install(sets[id], id, removed, now)] else sets
  }

  lemma InstallStep(sets: Sets, order: seq<SetId>, id: SetId, removed: seq<SetId>, now: int)
    ensures InstallOne(AfterInstall(sets, order, removed, now), id, removed, now)
         == AfterInstall(sets, order + [id], removed, now)
  {
    var a, b := InstallOne(AfterInstall(sets, order, removed, now), id, removed, now),
                AfterInstall(sets, order + [id], removed, now);
    assert forall j :: j in order + [id] <==> j in order || j == id;
    assert a.Keys == b.Keys;
    assert forall j :: j in a ==> a[j] == b[j];
  }

  /** The sets asked to be uninstalled: those there, and not archived, when their turn comes. */
  function Asked(sets: Sets, removed: seq<SetId>): seq<SetId> {
    if removed == [] then []
    else
      var before, id := removed[..|removed| - 1], removed[|removed| - 1];
      var now := AfterRemove(sets, before);
      Asked(sets, before) + if !Cloud(id) && id in now && !now[id].archived then [id] else []
  }

  /** The id is removed before any clearing of the recent sets that would take it away. */
  predicate RemovedInTime(id: SetId, removed: seq<SetId>) {
    exists i :: 0 <= i < |removed| && removed[i] == id && !(id == CUSTOM && ClearsRecent(removed[..i]))
  }

  /** The sets asked to be uninstalled are exactly the removed ones not archived; the custom one in time only. */
  lemma {:induction false} AskedAre(sets: Sets, removed: seq<SetId>, id: SetId)
    ensures id in Asked(sets, removed)
            <==> id in sets && !Cloud(id) && !sets[id].archived && RemovedInTime(id, removed)
  {
    if removed != [] {
      var before, last := removed[..|removed| - 1], removed[|removed| - 1];
      assert removed == before + [last];
      AskedAre(sets, before, id);
      InTimeStep(id, removed);
      AskedNow(sets, removed, id);
    }
  }

  lemma InTimeStep(id: SetId, removed: seq<SetId>)
    requires removed != []
    ensures var before, last := removed[..|removed| - 1], removed[|removed| - 1];
            RemovedInTime(id, removed)
            <==> RemovedInTime(id, before) || (last == id && !(id == CUSTOM && ClearsRecent(before)))
  {
    var n := |removed| - 1;
    var before := removed[..n];
    if i :| 0 <= i < |before| && before[i] == id && !(id == CUSTOM && ClearsRecent(before[..i])) {
      assert before[..i] == removed[..i] && removed[i] == id;
    }
    if i :| 0 <= i < |removed| && removed[i] == id && !(id == CUSTOM && ClearsRecent(removed[..i])) {
      if i < n {
        assert before[..i] == removed[..i] && before[i] == id;
      }
    }
    assert removed[n] == removed[|removed| - 1];
  }

  /** What the last removed id adds. */
  lemma AskedNow(sets: Sets, removed: seq<SetId>, id: SetId)
    requires removed != []
    ensures var before, last := removed[..|removed| - 1], removed[|removed| - 1];
            id in Asked(sets, removed)
            <==> id in Asked(sets, before)
                 || (last == id && !Cloud(id)
                     && id in AfterRemove(sets, before) && !AfterRemove(sets, before)[id].archived)
  {
    hide AfterRemove;
  }

  /** The flags of a set of the new order, and whether the server is asked to install it. */
  method InstallOneSet(set_: StickerSet, id: SetId, removed: seq<SetId>, now: int) returns (s: StickerSet, asks: bool)
    ensures s == Install(set_, id, removed, now) && asks == (set_.archived && id !in removed)
  {
    s, asks := set_, false;
    if s.archived && id !in removed {
      asks := true;
      s := s.(archived := false);
    }
    s := s.(installed := true);
    if s.installDate == 0 {
      s := s.(installDate := now);
    }
  }

  class Store {
    var sets: Sets
    var order: seq<SetId>

    constructor (sets: Sets, order: seq<SetId>)
      ensures this.sets == sets && this.order == order
    {
      this.sets, this.order := sets, order;
    }

    /** saveStickerSets; returns the sets asked to be uninstalled and installed on the server. */
    method SaveStickerSets(localOrder: seq<SetId>, localRemoved: seq<SetId>, masks: bool, now: int)
      returns (uninstalls: seq<SetId>, installs: seq<SetId>)
      modifies this
      ensures sets == Saved(old(sets), localOrder, localRemoved, masks, now)
      ensures order == Existing(localOrder, sets)
      ensures uninstalls == Asked(old(sets), localRemoved)
      ensures forall id :: id in installs <==>
                (id in localOrder && id !in localRemoved && id in AfterRemove(old(sets), localRemoved)
                 && old(sets)[id].archived)
    {
      hide AfterRemove, AfterInstall, Asked;
      uninstalls := RemoveSets(localRemoved);
      ghost var removed := sets;
      ClearInstalled(masks);
      installs := InstallSets(localOrder, localRemoved, now);
      Prune();
      ArchivedBefore(old(sets), localRemoved, masks);
      Reconciled(old(sets), localOrder, localRemoved, masks, now);
      ExistingSame(localOrder, AfterClear(removed, masks), removed);
    }

    /** The loop over the removed ids. */
    method RemoveSets(removed: seq<SetId>) returns (uninstalls: seq<SetId>)
      modifies this`sets
      ensures sets == AfterRemove(old(sets), removed)
      ensures uninstalls == Asked(old(sets), removed)
    {
      uninstalls := [];
      ghost var was := sets;
      assert AfterRemove(was, []) == was;
      hide AfterRemove;
      for i := 0 to |removed|
        invariant sets == AfterRemove(was, removed[..i])
        invariant uninstalls == Asked(was, removed[..i])
      {
        var id := removed[i];
        RemoveStep(was, removed[..i], id);
        assert removed[..i + 1] == removed[..i] + [id];
        assert removed[..i + 1][..i] == removed[..i];
        if Cloud(id) {
          sets := sets - {CLOUD_RECENT, CLOUD_RECENT_ATTACHED, CUSTOM};
        } else if id in sets && !sets[id].archived {
          uninstalls := uninstalls + [id];
          if !sets[id].featured && !sets[id].special {
            sets := sets - {id};
          } else {
            sets := sets[id := sets[id].(installed := false, archived := false, installDate := 0)];
          }
        }
      }
      assert removed[..|removed|] == removed;
    }

    /** The loop that clears the installed flags; only sets from the order get them back. */
    method ClearInstalled(masks: bool)
      modifies this`sets
      ensures sets == AfterClear(old(sets), masks)
    {
      var rest := sets.Keys;
      while rest != {}
        invariant rest <= old(sets).Keys && sets.Keys == old(sets).Keys
        invariant forall id :: id in sets ==>
          sets[id] == if id in rest then old(sets)[id] else AfterClear(old(sets), masks)[id]
        decreases |rest|
      {
        var id :| id in rest;
        rest := rest - {id};
        if !sets[id].archived && masks == sets[id].masks {
          sets := sets[id := sets[id].(installed := false)];
        }
      }
    }

    /** The loop over the new order. */
    method InstallSets(localOrder: seq<SetId>, removed: seq<SetId>, now: int) returns (installs: seq<SetId>)
      modifies this
      ensures sets == AfterInstall(old(sets), localOrder, removed, now)
      ensures order == Existing(localOrder, old(sets))
      ensures forall id :: id in installs <==> Reinstalled(old(sets), id, localOrder, removed)
    {
      installs := [];
      order := [];
      ghost var was := sets;
      assert AfterInstall(was, [], removed, now) == was;
      for i := 0 to |localOrder|
        invariant sets == AfterInstall(was, localOrder[..i], removed, now)
        invariant order == Existing(localOrder[..i], was)
        invariant forall id :: id in installs <==> Reinstalled(was, id, localOrder[..i], removed)
      {
        hide AfterInstall, Existing, Install;
        var id := localOrder[i];
        InstallStep(was, localOrder[..i], id, removed, now);
        InstalledState(was, localOrder[..i], id, removed, now);
        ExistingStep(was, localOrder[..i], id);
        assert localOrder[..i + 1] == localOrder[..i] + [id];
        if id in sets {
          var s, asks := InstallOneSet(sets[id], id, removed, now);
          if asks {
            installs := installs + [id];
          }
          order := order + [id];
          sets := sets[id := s];
        }
      }
      assert localOrder[..|localOrder|] == localOrder;
    }

    /** The loop that erases sets without a keeping flag. */
    method Prune()
      modifies this`sets
      ensures sets == AfterPrune(old(sets))
    {
      var rest := sets.Keys;
      while rest != {}
        invariant rest <= old(sets).Keys
        invariant sets.Keys == rest + AfterPrune(old(sets)).Keys
        invariant forall id :: id in sets ==> sets[id] == old(sets)[id]
        decreases |rest|
      {
        var id :| id in rest;
        rest := rest - {id};
        if !sets[id].Keeping() {
          sets := sets - {id};
        }
      }
    }
  }

  /** Is an install request sent for this id? */
  ghost predicate Reinstalled(sets: Sets, id: SetId, order: seq<SetId>, removed: seq<SetId>) {
    id in order && id in sets && sets[id].archived && id !in removed
  }

  lemma InstalledState(sets: Sets, order: seq<SetId>, id: SetId, removed: seq<SetId>, now: int)
    ensures var t := AfterInstall(sets, order, removed, now);
            && (id in t <==> id in sets)
            && (id in t ==> (t[id].archived && id !in removed <==> sets[id].archived && id !in removed && id !in order))
  {
  }

  lemma ExistingStep(sets: Sets, order: seq<SetId>, id: SetId)
    ensures Existing(order + [id], sets) == Existing(order, sets) + if id in sets then [id] else []
  {
    assert (order + [id])[..|order|] == order;
  }

  lemma ArchivedBefore(sets: Sets, removed: seq<SetId>, masks: bool)
    ensures var t := AfterClear(AfterRemove(sets, removed), masks);
            && t.Keys == AfterRemove(sets, removed).Keys
            && forall id :: id in t ==> id in sets && t[id].archived == sets[id].archived
  {
  }
}
