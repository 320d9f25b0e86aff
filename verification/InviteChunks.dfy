/** Adding users to a chat or a channel (api_chat_participants.cpp:463-511). */
module InviteChunks {
  /** kMaxUsersPerInvite */
  const MAX: nat := 100

  datatype User = User(id: nat, bot: bool)

  datatype Target = Chat | Channel(megagroup: bool)

  /** One request: the users it invites, and whether its answer goes to the caller's callback. */
  datatype Invite = Invite(users: seq<User>, callback: bool)

  datatype Outcome = Sent(invites: seq<Invite>) | BotRefused

  function Min(a: nat, b: nat): nat { if a < b then a else b }

  /** The i-th chunk: full, or what is left. */
  function Chunk(users: seq<User>, i: nat): seq<User>
    requires i * MAX <= |users|
  {
    users[i * MAX..Min((i + 1) * MAX, |users|)]
  }

  predicate AreChunks(users: seq<User>, invites: seq<Invite>, callback: bool) {
    && |invites| == (|users| + MAX - 1) / MAX
    && (forall i :: 0 <= i < |invites| ==>
          i * MAX <= |users| && invites[i] == Invite(Chunk(users, i), callback && i == 0))
  }

  predicate IsOneEach(users: seq<User>, invites: seq<Invite>, callback: bool) {
    |invites| == |users| && forall i :: 0 <= i < |users| ==> invites[i] == Invite([users[i]], callback)
  }

  predicate HasBot(users: seq<User>) { exists u :: u in users && u.bot }

  /** ranges::any_of over the users */
  method AnyBot(users: seq<User>) returns (r: bool)
    ensures r <==> HasBot(users)
  {
    for i := 0 to |users|
      invariant forall j :: 0 <= j < i ==> !users[j].bot
    {
      if users[i].bot {
        assert users[i] in users;
        return true;
      }
    }
    return false;
  }

  method Add(target: Target, users: seq<User>, callback: bool) returns (r: Outcome)
    ensures target.Chat? ==> r.Sent? && IsOneEach(users, r.invites, callback)
    ensures target.Channel? ==> (r.BotRefused? <==> !target.megagroup && HasBot(users))
    ensures target.Channel? && r.Sent? ==> AreChunks(users, r.invites, callback)
  {
    match target
    case Chat =>
      var invites: seq<Invite> := [];
      for i := 0 to |users|
        invariant IsOneEach(users[..i], invites, callback)
      {
        invites := invites + [Invite([users[i]], callback)];
      }
      assert users[..|users|] == users;
      return Sent(invites);
    case Channel(megagroup) =>
      var hasBot := AnyBot(users);
      if !megagroup && hasBot {
        return BotRefused;
      }
      var invites := InviteToChannel(users, callback);
      return Sent(invites);
  }

  /** The first i users: full chunks sent, and the list being filled. */
  predicate Filling(users: seq<User>, invites: seq<Invite>, list: seq<User>, callback: bool, i: nat) {
    && i <= |users| && |invites| * MAX + |list| == i && |list| < MAX
    && list == users[|invites| * MAX..i]
    && (forall k :: 0 <= k < |invites| ==>
          (k + 1) * MAX <= |users| && invites[k] == Invite(Chunk(users, k), callback && k == 0))
  }

  lemma FillOne(users: seq<User>, invites: seq<Invite>, list: seq<User>, callback: bool, i: nat)
    requires Filling(users, invites, list, callback, i) && i < |users|
    ensures var more := list + [users[i]];
            if |more| == MAX
            then Filling(users, invites + [Invite(more, callback && invites == [])], [], callback, i + 1)
            else Filling(users, invites, more, callback, i + 1)
  {
    var n := |invites|;
    var more := list + [users[i]];
    assert more == users[n * MAX..i + 1];
    if |more| == MAX {
      assert i + 1 == (n + 1) * MAX;
      var sent := invites + [Invite(more, callback && invites == [])];
      assert sent[n] == Invite(Chunk(users, n), callback && n == 0);
      assert forall k :: 0 <= k < n ==> sent[k] == invites[k];
    }
  }

  lemma FilledUp(users: seq<User>, invites: seq<Invite>, list: seq<User>, callback: bool)
    requires Filling(users, invites, list, callback, |users|)
    ensures var last := Invite(list, callback && invites == []);
            AreChunks(users, if list == [] then invites else invites + [last], callback)
  {
    var n := |invites|;
    if list != [] {
      var sent := invites + [Invite(list, callback && invites == [])];
      assert list == Chunk(users, n);
      assert forall k :: 0 <= k < n ==> sent[k] == invites[k];
    }
  }

  method InviteToChannel(users: seq<User>, callback: bool) returns (invites: seq<Invite>)
    ensures AreChunks(users, invites, callback)
  {
    hide Filling, AreChunks;
    invites := [];
    var done, list := callback, [];
    assert Filling(users, invites, list, callback, 0) by { NothingFilled(users, callback); }
    for i := 0 to |users|
      invariant Filling(users, invites, list, callback, i)
      invariant done == (callback && invites == [])
    {
      FillOne(users, invites, list, callback, i);
      list := list + [users[i]];
      if |list| == MAX {
        invites, done := invites + [Invite(list, done)], false;
        list := [];
      }
    }
    FilledUp(users, invites, list, callback);
    if list != [] {
      invites, done := invites + [Invite(list, done)], false;
    }
  }

  lemma NothingFilled(users: seq<User>, callback: bool)
    ensures Filling(users, [], [], callback, 0)
  {
  }

  function Joined(invites: seq<Invite>): seq<User> {
    if invites == [] then [] else Joined(invites[..|invites| - 1]) + invites[|invites| - 1].users
  }

  lemma {:induction false} JoinedChunks(users: seq<User>, invites: seq<Invite>, callback: bool, n: nat)
    requires AreChunks(users, invites, callback) && n <= |invites|
    ensures Joined(invites[..n]) == users[..Min(n * MAX, |users|)]
  {
    if n > 0 {
      JoinedChunks(users, invites, callback, n - 1);
      assert invites[..n][..n - 1] == invites[..n - 1];
      assert invites[n - 1].users == Chunk(users, n - 1);
    }
  }

  /**
   * Every user is invited once and in order, every request but the last is full and none is
   * empty, and the callback hears of the first request only.
   */
  lemma ChunksArePartition(users: seq<User>, invites: seq<Invite>, callback: bool)
    requires AreChunks(users, invites, callback)
    ensures Joined(invites) == users
    ensures Full(invites)
    ensures forall i :: 0 <= i < |invites| ==> (invites[i].callback <==> callback && i == 0)
  {
    JoinedChunks(users, invites, callback, |invites|);
    assert invites[..|invites|] == invites;
    ChunksAreFull(users, invites, callback);
    hide Joined, Full, Chunk;
  }

  lemma ChunksAreFull(users: seq<User>, invites: seq<Invite>, callback: bool)
    requires AreChunks(users, invites, callback)
    ensures Full(invites)
  {
    forall i | 0 <= i < |invites|
      ensures 0 < |invites[i].users| <= MAX && (i < |invites| - 1 ==> |invites[i].users| == MAX)
    {
      ChunkSize(users, |invites|, i);
      assert invites[i].users == Chunk(users, i);
    }
  }

  lemma ChunkSize(users: seq<User>, n: nat, i: nat)
    requires n == (|users| + MAX - 1) / MAX && i < n
    ensures i * MAX <= |users|
    ensures 0 < |Chunk(users, i)| <= MAX && (i < n - 1 ==> |Chunk(users, i)| == MAX)
  {
  }

  predicate Full(invites: seq<Invite>) {
    && (forall i :: 0 <= i < |invites| ==> 0 < |invites[i].users| <= MAX)
    && (forall i :: 0 <= i < |invites| - 1 ==> |invites[i].users| == MAX)
  }

  lemma {:induction false} JoinedFull(invites: seq<Invite>, n: nat)
    requires Full(invites) && n < |invites|
    ensures |Joined(invites[..n])| == n * MAX
  {
    if n > 0 {
      JoinedFull(invites, n - 1);
      assert invites[..n][..n - 1] == invites[..n - 1];
    }
  }

  lemma {:induction false} JoinedPrefix(invites: seq<Invite>, n: nat)
    requires n <= |invites|
    ensures Joined(invites[..n]) <= Joined(invites)
    decreases |invites| - n
  {
    if n == |invites| {
      assert invites[..n] == invites;
    } else {
      JoinedPrefix(invites, n + 1);
      assert invites[..n + 1][..n] == invites[..n];
    }
  }

  lemma ChunkAt(invites: seq<Invite>, i: nat)
    requires Full(invites) && i < |invites|
    ensures i * MAX <= |Joined(invites)| && invites[i].users == Chunk(Joined(invites), i)
  {
    var users, before, through := Joined(invites), Joined(invites[..i]), Joined(invites[..i + 1]);
    JoinedFull(invites, i);
    JoinedPrefix(invites, i + 1);
    assert invites[..i + 1][..i] == invites[..i];
    assert through == before + invites[i].users;
    if i == |invites| - 1 {
      assert invites[..i + 1] == invites;
    } else {
      JoinedFull(invites, i + 1);
    }
    hide Joined;
    assert through == users[..Min((i + 1) * MAX, |users|)];
    assert invites[i].users == through[i * MAX..];
  }

  lemma ChunkCount(invites: seq<Invite>)
    requires Full(invites)
    ensures |invites| == (|Joined(invites)| + MAX - 1) / MAX
  {
    if invites != [] {
      JoinedFull(invites, |invites| - 1);
    }
  }

  /** Any list of non-empty requests, all but the last full, that joins to the users is this one. */
  lemma ChunksAreUnique(users: seq<User>, invites: seq<Invite>, callback: bool)
    requires Joined(invites) == users && Full(invites)
    requires forall i :: 0 <= i < |invites| ==> (invites[i].callback <==> callback && i == 0)
    ensures AreChunks(users, invites, callback)
  {
    ChunkCount(invites);
    forall i | 0 <= i < |invites|
      ensures i * MAX <= |users| && invites[i] == Invite(Chunk(users, i), callback && i == 0)
    {
      ChunkAt(invites, i);
    }
  }
}
