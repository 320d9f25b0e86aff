/** What each event does to the cached links of a peer, link by link. */
module InviteLinksSteps {
  import opened Common
  import opened InviteLinks

  // ---- Lists, place by place ----

  /** t is s with l put in at place i. */
  predicate InsertedAt(s: seq<Link>, t: seq<Link>, i: nat, l: Link) {
    && i <= |s| && |t| == |s| + 1 && t[i] == l
    && (forall k :: 0 <= k < i ==> t[k] == s[k])
    && (forall k :: i < k < |t| ==> t[k] == s[k - 1])
  }

  /** t is s with the link at place i taken out. */
  predicate ErasedAt(s: seq<Link>, t: seq<Link>, i: nat) {
    && i < |s| && |t| == |s| - 1
    && (forall k :: 0 <= k < i ==> t[k] == s[k])
    && (forall k :: i <= k < |t| ==> t[k] == s[k + 1])
  }

  /** t is s with l at place i instead of what was there. */
  predicate SetAt(s: seq<Link>, t: seq<Link>, i: nat, l: Link) {
    i < |s| && |t| == |s| && t[i] == l && forall k :: 0 <= k < |s| && k != i ==> t[k] == s[k]
  }

  /** The first link with that text is at place i; the length stands for none. */
  predicate FirstAt(s: seq<Link>, text: nat, i: nat) {
    i <= |s| && (forall k :: 0 <= k < i ==> s[k].link != text) && (i < |s| ==> s[i].link == text)
  }

  ghost predicate OthersKept(c: Cache, d: Cache, p: Peer) { forall q :: q != p ==> SliceOf(d, q) == SliceOf(c, q) }

  // ---- Created ----

  /**
   * A created link is cached: directly behind a cached active permanent link if it is an ordinary one, else in
   * front, where it takes the place of the permanent link it replaces. The other links stay in their order,
   * and the count grows by one, or stays if a link of a positive count is replaced.
   */
  lemma CreatedIsCached(c: Cache, p: Peer, l: Link)
    ensures var d := Next(c, Created(p, l));
            var s, t := SliceOf(c, p), SliceOf(d, p);
            && p in d && OthersKept(c, d, p)
            && (HasPermanent(s) && !l.permanent ==> InsertedAt(s.links, t.links, 1, l))
            && (HasPermanent(s) && l.permanent ==> SetAt(s.links, t.links, 0, l))
            && (!HasPermanent(s) ==> InsertedAt(s.links, t.links, 0, l))
            && t.count == if HasPermanent(s) && l.permanent && s.count > 0 then s.count else s.count + 1
  {
  }

  // ---- Edited and revoked ----

  predicate EditedAt(s: Slice, t: Slice, j: nat, l: Link) {
    && j <= |s.links|
    && (j == |s.links| ==> t == s)
    && (j < |s.links| && l.revoked && !s.links[j].revoked ==>
          ErasedAt(s.links, t.links, j) && t.count == if s.count > 0 then s.count - 1 else s.count)
    && (j < |s.links| && !(l.revoked && !s.links[j].revoked) ==>
          SetAt(s.links, t.links, j, l) && t.count == s.count)
  }

  /**
   * The answer to an edit is for the first link with that text: newly revoked it leaves the cache, and the
   * count shrinks; otherwise its data is the new one. All other links stay where they are.
   */
  lemma EditTakes(c: Cache, p: Peer, key: nat, l: Link, self: bool)
    ensures var d := Next(c, EditDone(p, key, l, self, None));
            var s, t := SliceOf(c, p), SliceOf(d, p);
            && OthersKept(c, d, p) && (p in d <==> p in c)
            && (forall j :: FirstAt(s.links, key, j) ==> EditedAt(s, t, j, l))
            && FirstAt(s.links, key, Find(s.links, key))
  {
    var s := SliceOf(c, p);
    var j := Find(s.links, key);
    assert forall i :: FirstAt(s.links, key, i) ==> i == j;
    if p !in c {
      assert s.links == [];
    }
  }

  /** With a replacement it is the same followed by the creation of the replacement, if one's own. */
  lemma ReplacementIsCreated(c: Cache, p: Peer, key: nat, l: Link, self: bool, replacement: Option<Link>)
    ensures var d := Next(c, EditDone(p, key, l, self, None));
            Next(c, EditDone(p, key, l, self, replacement))
            == if replacement.Some? && self then Next(d, Created(p, replacement.value)) else d
  {
  }

  /** So a revoked link is gone: where texts are unique no link with its text is cached any more. */
  lemma RevokedIsGone(c: Cache, p: Peer, key: nat, l: Link, self: bool, replacement: Option<Link>)
    requires p in c && l.revoked && (replacement.Some? ==> replacement.value.link != key)
    requires var s := c[p].links;
             && (forall i, j :: 0 <= i < j < |s| ==> s[i].link != s[j].link)
             && (forall i :: 0 <= i < |s| && s[i].link == key ==> !s[i].revoked)
    ensures var t := SliceOf(Next(c, EditDone(p, key, l, self, replacement)), p).links;
            forall i :: 0 <= i < |t| ==> t[i].link != key
  {
    hide Next, Prepended;
    EditTakes(c, p, key, l, self);
    ReplacementIsCreated(c, p, key, l, self, replacement);
    var d := Next(c, EditDone(p, key, l, self, None));
    var s, t := c[p].links, SliceOf(d, p).links;
    var j := Find(s, key);
    assert EditedAt(c[p], SliceOf(d, p), j, l);
    if replacement.Some? && self {
      CreatedIsCached(d, p, replacement.value);
    }
  }

  // ---- External updates ----

  /** Every cached link with the text of an external update is the updated one, and nothing else changes. */
  lemma ExternalReplaces(c: Cache, p: Peer, updated: Link)
    ensures var d := Next(c, External(p, updated));
            var s, t := SliceOf(c, p), SliceOf(d, p);
            && OthersKept(c, d, p) && (p in d <==> p in c) && t.count == s.count && |t.links| == |s.links|
            && (forall k :: 0 <= k < |s.links| && s.links[k].link == updated.link ==> t.links[k] == updated)
            && (forall k :: 0 <= k < |s.links| && s.links[k].link != updated.link ==> t.links[k] == s.links[k])
  {
  }

  // ---- Loaded ----

  /** A first load caches what came, with the first active permanent link moved to the front. */
  lemma FirstLoadCaches(c: Cache, p: Peer, fetched: seq<Link>, count: int)
    requires !HasPermanent(SliceOf(c, p))
    ensures var d := Next(c, Loaded(p, fetched, count));
            && p in d && OthersKept(c, d, p) && d[p].count == count && |d[p].links| == |fetched|
            && ((forall k :: 0 <= k < |fetched| ==> !Active(fetched[k])) ==> d[p].links == fetched)
            && (forall i :: 0 <= i < |fetched| && Active(fetched[i])
                            && (forall k :: 0 <= k < i ==> !Active(fetched[k])) ==>
                  && d[p].links[0] == fetched[i]
                  && (forall k :: 0 <= k < i ==> d[p].links[k + 1] == fetched[k])
                  && (forall k :: i < k < |fetched| ==> d[p].links[k] == fetched[k]))
  {
    hide BroughtToFront;
    BroughtParts(fetched, FirstActive(fetched));
    var t := BroughtToFront(fetched);
    forall i | 0 <= i < |fetched| && Active(fetched[i]) && (forall k :: 0 <= k < i ==> !Active(fetched[k]))
      ensures && t[0] == fetched[i]
              && (forall k :: 0 <= k < i ==> t[k + 1] == fetched[k])
              && (forall k :: i < k < |fetched| ==> t[k] == fetched[k])
    {
      assert i == FirstActive(fetched);
      forall k | 0 <= k < i ensures t[k + 1] == fetched[k] {
        assert t[k + 1] == fetched[k + 1 - 1];
      }
    }
  }

  /** What a later load brings besides the cached permanent link: no active permanent link and not that one again. */
  predicate Kept(l: Link, permanent: nat) { !Active(l) && l.link != permanent }

  function KeptMarks(fetched: seq<Link>, permanent: nat): seq<bool> {
    seq(|fetched|, i requires 0 <= i < |fetched| => Kept(fetched[i], permanent))
  }

  lemma InactiveOneMore(links: seq<Link>, l: Link)
    ensures Inactive(links + [l]) == Inactive(links) + if Active(l) then [] else [l]
  {
    assert (links + [l])[..|links|] == links;
  }

  lemma KeptMore(fetched: seq<Link>, permanent: nat)
    requires fetched != []
    ensures var before, l := fetched[..|fetched| - 1], fetched[|fetched| - 1];
            var kept := Inactive(Other(before, permanent));
            && Inactive(Other(fetched, permanent)) == (if Kept(l, permanent) then kept + [l] else kept)
            && KeptMarks(fetched, permanent) == KeptMarks(before, permanent) + [Kept(l, permanent)]
  {
    hide Inactive;
    var before, l := fetched[..|fetched| - 1], fetched[|fetched| - 1];
    var others := Other(before, permanent);
    assert Other(fetched, permanent) == if l.link == permanent then others else others + [l];
    InactiveOneMore(others, l);
    assert Inactive(others) + [] == Inactive(others);
  }

  lemma {:induction false} KeptAreSelected(fetched: seq<Link>, permanent: nat)
    ensures Selected(fetched, KeptMarks(fetched, permanent), Inactive(Other(fetched, permanent)))
  {
    if fetched == [] {
      SelectedNone(fetched, KeptMarks(fetched, permanent), []);
    } else {
      hide Selected, KeptMarks, Inactive, Other;
      var before, l := fetched[..|fetched| - 1], fetched[|fetched| - 1];
      assert fetched == before + [l];
      KeptAreSelected(before, permanent);
      var kept := Inactive(Other(before, permanent));
      SelectedMore(before, KeptMarks(before, permanent), kept, l, Kept(l, permanent));
      KeptMore(fetched, permanent);
    }
  }

  /** A later load keeps the cached permanent link in front and puts what else came behind it, in order. */
  lemma LaterLoadCaches(c: Cache, p: Peer, fetched: seq<Link>, count: int)
    requires HasPermanent(SliceOf(c, p))
    ensures var d := Next(c, Loaded(p, fetched, count));
            var permanent := SliceOf(c, p).links[0];
            && p in d && OthersKept(c, d, p) && d[p].links != [] && d[p].links[0] == permanent
            && Selected(fetched, KeptMarks(fetched, permanent.link), d[p].links[1..])
            && d[p].count >= count && d[p].count >= |d[p].links| && d[p].count in {count, |d[p].links|}
  {
    hide Selected, KeptMarks;
    var permanent := SliceOf(c, p).links[0];
    KeptAreSelected(fetched, permanent.link);
    var others := Inactive(Other(fetched, permanent.link));
    assert ([permanent] + others)[1..] == others;
  }

  // ---- The permanent link set and cleared from outside ----

  /** The permanent link the peer is known to have is first; told again it only has its usage renewed. */
  lemma PermanentIsSet(c: Cache, p: Peer, l: Link)
    requires l.permanent
    ensures var d := Next(c, SetPermanent(p, l));
            var s, t := SliceOf(c, p), SliceOf(d, p);
            && p in d && OthersKept(c, d, p)
            && (!HasPermanent(s) ==> InsertedAt(s.links, t.links, 0, l) && t.count == s.count)
            && (HasPermanent(s) && s.links[0].link == l.link ==>
                  SetAt(s.links, t.links, 0, s.links[0].(usage := l.usage)) && t.count == s.count)
            && (HasPermanent(s) && s.links[0].link != l.link ==>
                  SetAt(s.links, t.links, 0, l) && t.count == if s.count > 0 then s.count - 1 else s.count)
  {
  }

  /** Told that there is no permanent link, or to forget the peer. */
  lemma PermanentIsCleared(c: Cache, p: Peer)
    ensures var d := Next(c, ClearPermanent(p));
            var s, t := SliceOf(c, p), SliceOf(d, p);
            && OthersKept(c, d, p) && (p in d <==> p in c)
            && (HasPermanent(s) ==>
                  ErasedAt(s.links, t.links, 0) && t.count == if s.count > 0 then s.count - 1 else s.count)
            && (!HasPermanent(s) ==> t == s)
    ensures p !in Next(c, Forget(p)) && OthersKept(c, Next(c, Forget(p)), p)
  {
  }

  /**
   * The count of a slice that held as many links as it counts is still right after a permanent link was set
   * exactly unless there was another one before, or none: only being told the same link again keeps it right.
   */
  lemma CountStaysRightExactlyWhen(c: Cache, p: Peer, l: Link)
    requires l.permanent && SliceOf(c, p).count == |SliceOf(c, p).links|
    ensures var s, t := SliceOf(c, p), SliceOf(Next(c, SetPermanent(p, l)), p);
            t.count == |t.links| <==> HasPermanent(s) && s.links[0].link == l.link
  {
  }
}
