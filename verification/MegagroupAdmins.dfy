/** The admins of a group after a full list from the server (api_chat_participants.cpp:50-89). */
module MegagroupAdmins {
  import opened Common

  type UserId = nat
  type Rank = string
  type Admins = map<UserId, Rank>

  datatype Participant = Participant(isUser: bool, id: UserId, rank: Rank, creator: bool)

  /** Each user of the list with the first rank the list gives it. */
  function Listed(list: seq<Participant>): Admins {
    if list == [] then map[]
    else
      var before, p := Listed(list[..|list| - 1]), list[|list| - 1];
      if p.isUser && p.id !in before then before[p.id := p.rank] else before
  }

  datatype Creator = Creator(user: Option<UserId>, rank: Rank)

  /** The first creator of the list, if it is a user; a creator that is no user changes nothing. */
  function NewCreator(list: seq<Participant>, was: Creator, loaded: set<UserId>): Creator {
    if list == [] then Creator(None, "")
    else if !list[0].creator then NewCreator(list[1..], was, loaded)
    else if !list[0].isUser then was
    else Creator(if list[0].id in loaded then Some(list[0].id) else None, list[0].rank)
  }

  /** The list with the creator. */
  function Sent(list: seq<Participant>, creator: Creator): Admins {
    var listed := Listed(list);
    if creator.user.Some? && creator.user.value !in listed
    then listed[creator.user.value := creator.rank] else listed
  }

  /** The same, or a placeholder when there is nothing at all. */
  function Wanted(list: seq<Participant>, creator: Creator, was: Admins): Admins {
    if was == map[] && Sent(list, creator) == map[] then map[0 := ""] else Sent(list, creator)
  }

  class Info {
    var admins: Admins
    var creator: Creator
    ghost var changes: set<UserId>

    constructor ()
      ensures admins == map[] && creator == Creator(None, "")
    {
      admins, creator, changes := map[], Creator(None, ""), {};
    }

    /** find_if of the creator and tryApplyCreatorTo */
    method ApplyCreator(list: seq<Participant>, loaded: set<UserId>)
      modifies this`creator
      ensures creator == NewCreator(list, old(creator), loaded)
    {
      for i := 0 to |list|
        invariant creator == old(creator)
        invariant NewCreator(list, creator, loaded) == NewCreator(list[i..], creator, loaded)
      {
        assert list[i..][1..] == list[i + 1..];
        if list[i].creator {
          if list[i].isUser {
            creator := Creator(if list[i].id in loaded then Some(list[i].id) else None, list[i].rank);
          }
          return;
        }
      }
      creator := Creator(None, "");
    }

    method CollectAdding(list: seq<Participant>) returns (adding: Admins)
      ensures adding == Wanted(list, creator, admins)
    {
      adding := map[];
      for i := 0 to |list|
        invariant adding == Listed(list[..i])
      {
        assert list[..i + 1][..i] == list[..i];
        if list[i].isUser && list[i].id !in adding {
          adding := adding[list[i].id := list[i].rank];
        }
      }
      assert list[..|list|] == list;
      if creator.user.Some? && creator.user.value !in adding {
        adding := adding[creator.user.value := creator.rank];
      }
      if admins == map[] && adding == map[] {
        adding := adding[0 := ""];
      }
    }

    /** ApplyMegagroupAdmins: the known ones keep their ranks, the others come and go. */
    method ApplyMegagroupAdmins(list: seq<Participant>, loaded: set<UserId>)
      modifies this
      ensures creator == NewCreator(list, old(creator), loaded)
      ensures admins == After(list, creator, old(admins))
      ensures changes == Moved(old(admins), Wanted(list, creator, old(admins)))
    {
      hide Wanted, With, Merged, NewCreator;
      ApplyCreator(list, loaded);
      var adding := CollectAdding(list);
      WithoutOthers(admins, adding);
      changes := {};
      var removing := AddNew(adding);
      RemoveOld(removing);
    }

    /** The first loop; what is left of the old admins is to be removed. */
    method AddNew(adding: Admins) returns (removing: set<UserId>)
      requires changes == {}
      modifies this`admins, this`changes
      ensures removing == old(admins).Keys - adding.Keys
      ensures admins == With(old(admins), adding, adding.Keys)
      ensures changes == adding.Keys - old(admins).Keys
    {
      ghost var was := admins;
      removing := admins.Keys;
      var todo := adding.Keys;
      assert admins == With(was, adding, {});
      while todo != {}
        modifies this`admins, this`changes
        invariant todo <= adding.Keys
        invariant removing == was.Keys - (adding.Keys - todo)
        invariant admins == With(was, adding, adding.Keys - todo)
        invariant changes == (adding.Keys - todo) - was.Keys
      {
        hide With;
        var u :| u in todo;
        WithStep(was, adding, adding.Keys - todo, u);
        assert (adding.Keys - todo) + {u} == adding.Keys - (todo - {u});
        if u in removing {
          removing := removing - {u};
        } else {
          admins := admins[u := adding[u]];
          changes := changes + {u};
        }
        todo := todo - {u};
      }
      assert adding.Keys - {} == adding.Keys;
    }

    /** The second loop. */
    method RemoveOld(removing: set<UserId>)
      requires removing <= admins.Keys
      modifies this`admins, this`changes
      ensures admins == old(admins) - removing && changes == old(changes) + removing
    {
      var gone := removing;
      while gone != {}
        modifies this`admins, this`changes
        invariant gone <= removing
        invariant admins == old(admins) - (removing - gone) && changes == old(changes) + (removing - gone)
      {
        var u :| u in gone;
        admins := admins - {u};
        changes := changes + {u};
        gone := gone - {u};
      }
    }
  }

  /** The old admins and some of the new ones. */
  function With(was: Admins, adding: Admins, some: set<UserId>): Admins {
    map u | u in was.Keys + adding.Keys * some :: if u in was then was[u] else adding[u]
  }

  lemma WithoutOthers(was: Admins, adding: Admins)
    ensures With(was, adding, adding.Keys) - (was.Keys - adding.Keys) == Merged(was, adding)
    ensures was.Keys <= With(was, adding, adding.Keys).Keys
  {
  }

  lemma WithStep(was: Admins, adding: Admins, some: set<UserId>, u: UserId)
    requires u in adding
    ensures With(was, adding, some + {u})
            == (if u in was then With(was, adding, some) else With(was, adding, some)[u := adding[u]])
  {
    assert u in was ==> was.Keys + adding.Keys * (some + {u}) == was.Keys + adding.Keys * some;
  }

  /** The wanted admins; one that was there before keeps the rank it had. */
  function Merged(was: Admins, wanted: Admins): Admins {
    map u | u in wanted :: if u in was then was[u] else wanted[u]
  }

  function Moved(was: Admins, wanted: Admins): set<UserId> { (wanted.Keys - was.Keys) + (was.Keys - wanted.Keys) }

  /** The admins after an answer. */
  function After(list: seq<Participant>, creator: Creator, was: Admins): Admins {
    Merged(was, Wanted(list, creator, was))
  }

  predicate SameRanks(was: Admins, sent: Admins) { forall u :: u in was && u in sent ==> was[u] == sent[u] }

  lemma MergedExactlyWhen(was: Admins, wanted: Admins)
    ensures Merged(was, wanted) == wanted <==> SameRanks(was, wanted)
  {
    if Merged(was, wanted) == wanted {
      forall u | u in was && u in wanted ensures was[u] == wanted[u] {
        assert Merged(was, wanted)[u] == was[u];
      }
    }
  }

  /**
   * The admins are the listed users and the creator exactly when no admin that stays got another rank
   * and there was not nothing before and nothing now.
   */
  lemma AdminsAreRightExactlyWhen(list: seq<Participant>, creator: Creator, was: Admins)
    ensures After(list, creator, was) == Sent(list, creator)
            <==> !(was == map[] && Sent(list, creator) == map[]) && SameRanks(was, Sent(list, creator))
  {
    MergedExactlyWhen(was, Sent(list, creator));
    if was == map[] && Sent(list, creator) == map[] {
      assert 0 in After(list, creator, was);
    }
  }

  /** Changed is exactly who was an admin and is none now, or the other way round. */
  lemma ChangesAre(list: seq<Participant>, creator: Creator, was: Admins, u: UserId)
    ensures u in Moved(was, Wanted(list, creator, was)) <==> ((u in was) != (u in After(list, creator, was)))
  {
    hide Wanted;
  }

  /** The first creator of the list is not a user, so the one known before stays. */
  predicate KeepsCreator(list: seq<Participant>) {
    list != [] && if list[0].creator then !list[0].isUser else KeepsCreator(list[1..])
  }

  lemma {:induction false} ListedHas(list: seq<Participant>, i: nat)
    requires i < |list| && list[i].isUser
    ensures list[i].id in Listed(list)
  {
    if i < |list| - 1 {
      ListedHas(list[..|list| - 1], i);
    }
  }

  /** The i-th entry is the first one of the list for its user. */
  predicate FirstOf(list: seq<Participant>, i: int) {
    0 <= i < |list| && list[i].isUser && forall j :: 0 <= j < i && list[j].isUser ==> list[j].id != list[i].id
  }

  /** Exactly the users of the list are listed, each with the first rank the list gives it. */
  lemma {:induction false} ListedAre(list: seq<Participant>)
    ensures forall i :: FirstOf(list, i) ==> list[i].id in Listed(list) && Listed(list)[list[i].id] == list[i].rank
    ensures forall u :: u in Listed(list) ==> exists i :: FirstOf(list, i) && list[i].id == u
  {
    if list != [] {
      var before, p := list[..|list| - 1], list[|list| - 1];
      assert list == before + [p];
      ListedAre(before);
      if p.id in Listed(before) {
        var j :| FirstOf(before, j) && before[j].id == p.id;
        assert list[j].isUser && list[j].id == list[|before|].id;
      }
      forall u | u in Listed(list) ensures exists i :: FirstOf(list, i) && list[i].id == u {
        if u in Listed(before) {
          var i :| FirstOf(before, i) && before[i].id == u;
          assert FirstOf(list, i);
        } else {
          forall j | 0 <= j < |before| && before[j].isUser ensures before[j].id != u {
            ListedHas(before, j);
          }
          assert FirstOf(list, |before|);
        }
      }
      forall i | FirstOf(list, i)
        ensures list[i].id in Listed(list) && Listed(list)[list[i].id] == list[i].rank
      {
        if i < |before| {
          assert FirstOf(before, i);
        }
      }
    }
  }

  /**
   * The creator is that of the first entry that says so, with its rank, if the user is loaded; an entry that
   * is no user leaves the one known before, and without such an entry there is none.
   */
  lemma {:induction false} CreatorIsFirst(list: seq<Participant>, was: Creator, loaded: set<UserId>)
    ensures (forall i :: 0 <= i < |list| ==> !list[i].creator) ==> NewCreator(list, was, loaded) == Creator(None, "")
    ensures forall i :: 0 <= i < |list| && list[i].creator && (forall j :: 0 <= j < i ==> !list[j].creator) ==>
              NewCreator(list, was, loaded)
              == if !list[i].isUser then was
                 else if list[i].id in loaded then Creator(Some(list[i].id), list[i].rank)
                 else Creator(None, list[i].rank)
  {
    if list != [] && !list[0].creator {
      CreatorIsFirst(list[1..], was, loaded);
      assert forall i :: 0 < i < |list| ==> list[i] == list[1..][i - 1];
      forall i | 0 <= i < |list| && list[i].creator && (forall j :: 0 <= j < i ==> !list[j].creator)
        ensures NewCreator(list, was, loaded)
                == if !list[i].isUser then was
                   else if list[i].id in loaded then Creator(Some(list[i].id), list[i].rank)
                   else Creator(None, list[i].rank)
      {
        forall j | 0 <= j < i - 1 ensures !list[1..][j].creator {
          assert list[1..][j] == list[j + 1];
        }
        assert list[1..][i - 1] == list[i];
      }
    }
  }

  /** A creator taken from the list is one of its users. */
  lemma {:induction false} CreatorIs(list: seq<Participant>, was: Creator, loaded: set<UserId>)
    ensures KeepsCreator(list) ==> NewCreator(list, was, loaded) == was
    ensures !KeepsCreator(list) && NewCreator(list, was, loaded).user.Some? ==>
              exists i :: 0 <= i < |list| && list[i].isUser && NewCreator(list, was, loaded).user == Some(list[i].id)
  {
    if list != [] && !list[0].creator {
      var rest := list[1..];
      CreatorIs(rest, was, loaded);
      if i :| 0 <= i < |rest| && rest[i].isUser && NewCreator(rest, was, loaded).user == Some(rest[i].id) {
        assert list[i + 1] == rest[i];
      }
    }
  }

  /**
   * They are exactly the users the server listed, with the ranks it gave, unless an admin that stays got
   * another rank, or there was nothing before and is nothing now, or a creator that is no user leaves the
   * one known before in place although the list does not have it.
   */
  lemma AdminsAreListedExactlyWhen(list: seq<Participant>, known: Creator, loaded: set<UserId>, was: Admins)
    ensures var creator := NewCreator(list, known, loaded);
            var stale := KeepsCreator(list) && known.user.Some? && known.user.value !in Listed(list);
            After(list, creator, was) == Listed(list)
            <==> !stale && !(was == map[] && Listed(list) == map[]) && SameRanks(was, Listed(list))
  {
    var creator := NewCreator(list, known, loaded);
    var listed := Listed(list);
    CreatorIs(list, known, loaded);
    if KeepsCreator(list) && known.user.Some? && known.user.value !in listed {
      assert known.user.value in After(list, creator, was);
    } else {
      if !KeepsCreator(list) && creator.user.Some? {
        var i :| 0 <= i < |list| && list[i].isUser && creator.user == Some(list[i].id);
        ListedHas(list, i);
      }
      assert Sent(list, creator) == listed;
      AdminsAreRightExactlyWhen(list, creator, was);
      hide After, Merged;
      if was == map[] && listed == map[] {
        PlaceholderIsMade(list, creator);
      }
    }
  }

  /** With no admin known and none sent, user 0 becomes an admin. */
  lemma PlaceholderIsMade(list: seq<Participant>, creator: Creator)
    requires Sent(list, creator) == map[]
    ensures After(list, creator, map[]) == map[0 := ""] != Sent(list, creator)
  {
    assert 0 in After(list, creator, map[]);
  }

  /** A creator known before stays an admin when the list says that the creator is no user. */
  lemma OldCreatorStays(u: UserId, rank: Rank, other: UserId, loaded: set<UserId>, was: Admins)
    ensures var list := [Participant(false, other, "", true)];
            var creator := NewCreator(list, Creator(Some(u), rank), loaded);
            Listed(list) == map[] && u in After(list, creator, was)
  {
    var list := [Participant(false, other, "", true)];
    assert list[..0] == [];
    assert u in Sent(list, Creator(Some(u), rank));
  }

  /** A promotion to another rank of an admin already known is lost. */
  lemma NewRankIsLost(u: UserId, oldRank: Rank, newRank: Rank)
    requires oldRank != newRank
    ensures var list := [Participant(true, u, newRank, false)];
            After(list, Creator(None, ""), map[u := oldRank]) == map[u := oldRank]
            && Sent(list, Creator(None, "")) == map[u := newRank]
  {
    var list := [Participant(true, u, newRank, false)];
    assert list[..0] == [];
    assert Listed(list) == map[u := newRank];
  }
}
