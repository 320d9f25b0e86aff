/** The cache of the own invite links of a peer: where the permanent link sits (api_invite_links.cpp). */
module InviteLinks {
  import opened Common

  type Peer = nat

  /** An invite link by its text, with the flags that matter here and the rest of its data. */
  datatype Link = Link(link: nat, permanent: bool, revoked: bool, usage: nat, rest: nat)

  datatype Slice = Slice(links: seq<Link>, count: int)

  type Cache = map<Peer, Slice>

  predicate Active(l: Link) { l.permanent && !l.revoked }

  /** The active permanent link, if cached, is the first; no other entry is one. */
  predicate FrontOnly(links: seq<Link>) { forall i :: 0 < i < |links| ==> !Active(links[i]) }

  // ---- Lists ----

  /** First position of an active permanent link, or of a link by its text; the length if there is none. */
  function FirstActive(links: seq<Link>): (i: nat)
    ensures i <= |links| && (i < |links| ==> Active(links[i])) && forall j :: 0 <= j < i ==> !Active(links[j])
  {
    if links == [] then 0 else if Active(links[0]) then 0 else 1 + FirstActive(links[1..])
  }

  function Find(links: seq<Link>, link: nat): (i: nat)
    ensures i <= |links| && (i < |links| ==> links[i].link == link) && forall j :: 0 <= j < i ==> links[j].link != link
  {
    if links == [] then 0 else if links[0].link == link then 0 else 1 + Find(links[1..], link)
  }

  /** BringPermanentToFront */
  function BroughtToFront(links: seq<Link>): seq<Link> {
    var i := FirstActive(links);
    if i < |links| then [links[i]] + links[..i] + links[i + 1..] else links
  }

  /** RemovePermanent */
  function Inactive(links: seq<Link>): seq<Link> {
    if links == [] then []
    else Inactive(links[..|links| - 1]) + if Active(links[|links| - 1]) then [] else [links[|links| - 1]]
  }

  lemma {:induction false} InactiveIs(links: seq<Link>)
    ensures forall l :: l in Inactive(links) <==> l in links && !Active(l)
  {
    if links != [] {
      InactiveIs(links[..|links| - 1]);
      assert links == links[..|links| - 1] + [links[|links| - 1]];
    }
  }

  /** parseSlice leaves out the link that is already cached as the permanent one. */
  function Other(links: seq<Link>, link: nat): seq<Link> {
    if links == [] then []
    else Other(links[..|links| - 1], link) + if links[|links| - 1].link == link then [] else [links[|links| - 1]]
  }

  function Replaced(links: seq<Link>, updated: Link): (r: seq<Link>)
    ensures |r| == |links|
  {
    seq(|links|, i requires 0 <= i < |links| => if links[i].link == updated.link then updated else links[i])
  }

  // ---- Steps on one slice ----

  /** lookupMyPermanent */
  predicate HasPermanent(s: Slice) { s.links != [] && Active(s.links[0]) }

  function Fewer(count: int): int { if count > 0 then count - 1 else count }

  const EMPTY := Slice([], 0)

  function SliceOf(c: Cache, p: Peer): Slice { if p in c then c[p] else EMPTY }

  /** prependMyToFirstSlice */
  function Prepended(s: Slice, l: Link): Slice {
    if HasPermanent(s) then
      if l.permanent then Slice([l] + s.links[1..], Fewer(s.count) + 1)
      else Slice([s.links[0], l] + s.links[1..], s.count + 1)
    else Slice([l] + s.links, s.count + 1)
  }

  /** The reply to an edit or revoke of the link with the given text. */
  function Edited(s: Slice, key: nat, l: Link): Slice {
    var j := Find(s.links, key);
    if j == |s.links| then s
    else if l.revoked && !s.links[j].revoked then Slice(s.links[..j] + s.links[j + 1..], Fewer(s.count))
    else s.(links := s.links[j := l])
  }

  /** The reply of requestMyLinks. */
  function Reloaded(s: Slice, fetched: seq<Link>, count: int): Slice {
    if !HasPermanent(s) then Slice(BroughtToFront(fetched), count)
    else
      var links := [s.links[0]] + Inactive(Other(fetched, s.links[0].link));
      Slice(links, if count > |links| then count else |links|)
  }

  /** setMyPermanent, for a permanent link */
  function PermanentSet(s: Slice, l: Link): Slice {
    if HasPermanent(s) then
      if s.links[0].link == l.link then s.(links := s.links[0 := s.links[0].(usage := l.usage)])
      else Slice([l] + s.links[1..], Fewer(s.count))
    else s.(links := [l] + s.links)
  }

  /** clearMyPermanent */
  function PermanentCleared(s: Slice): Slice {
    if HasPermanent(s) then Slice(s.links[1..], Fewer(s.count)) else s
  }

  // ---- Events ----

  datatype Event =
    | Created(peer: Peer, link: Link)                                  // reply to create
    | EditDone(peer: Peer, key: nat, link: Link, self: bool, replacement: Option<Link>)
    | Loaded(peer: Peer, fetched: seq<Link>, count: int)
    | External(peer: Peer, updated: Link)
    | SetPermanent(peer: Peer, link: Link)
    | ClearPermanent(peer: Peer)
    | Forget(peer: Peer)                                               // a join request was approved

  function Next(c: Cache, e: Event): Cache {
    match e
    case Created(p, l) => c[p := Prepended(SliceOf(c, p), l)]
    case EditDone(p, key, l, self, replacement) =>
      var d := if p in c then c[p := Edited(c[p], key, l)] else c;
      if replacement.Some? && self then d[p := Prepended(SliceOf(d, p), replacement.value)] else d
    case Loaded(p, fetched, count) => c[p := Reloaded(SliceOf(c, p), fetched, count)]
    case External(p, updated) => if p in c then c[p := c[p].(links := Replaced(c[p].links, updated))] else c
    case SetPermanent(p, l) => if l.permanent then c[p := PermanentSet(SliceOf(c, p), l)] else c
    case ClearPermanent(p) => if p in c then c[p := PermanentCleared(c[p])] else c
    case Forget(p) => c - {p}
  }

  /** A server that never flips "permanent" and never takes a revocation back, for a link it reports again. */
  predicate Consistent(was: Link, now: Link) { now.permanent == was.permanent && (was.revoked ==> now.revoked) }

  predicate AtMostOneActive(links: seq<Link>) {
    forall i, j :: 0 <= i < j < |links| ==> !(Active(links[i]) && Active(links[j]))
  }

  predicate Honest(c: Cache, e: Event) {
    match e
    case EditDone(p, key, l, _, _) =>
      var links := SliceOf(c, p).links;
      Find(links, key) < |links| ==> Consistent(links[Find(links, key)], l)
    case External(p, updated) =>
      forall l :: l in SliceOf(c, p).links && l.link == updated.link ==> Consistent(l, updated)
    case Loaded(_, fetched, _) => AtMostOneActive(fetched)
    case _ => true
  }

  ghost predicate Inv(c: Cache) { forall p :: p in c ==> FrontOnly(c[p].links) }

  // ---- Which steps keep the permanent link in front ----

  lemma PrependedFront(s: Slice, l: Link)
    requires FrontOnly(s.links)
    ensures FrontOnly(Prepended(s, l).links)
  {
  }

  /** An edit reply keeps it exactly unless it makes a link behind the first an active permanent one. */
  lemma EditedFront(s: Slice, key: nat, l: Link)
    requires FrontOnly(s.links)
    ensures var j := Find(s.links, key);
            FrontOnly(Edited(s, key, l).links) <==> !(0 < j < |s.links| && Active(l))
  {
    var j := Find(s.links, key);
    var t := Edited(s, key, l).links;
    if j < |s.links| {
      if l.revoked && !s.links[j].revoked {
        assert forall i :: 0 < i < |t| ==> t[i] == if i < j then s.links[i] else s.links[i + 1];
      } else {
        assert t[j] == l;
      }
    }
  }

  /** An external update keeps it exactly unless it says that of a link cached behind the first. */
  lemma ReplacedFront(links: seq<Link>, updated: Link)
    requires FrontOnly(links)
    ensures FrontOnly(Replaced(links, updated))
       <==> !(Active(updated) && exists i :: 0 < i < |links| && links[i].link == updated.link)
  {
    var t := Replaced(links, updated);
    if i :| 0 < i < |links| && links[i].link == updated.link {
      assert t[i] == updated;
    }
  }

  /** A first load keeps it exactly when the server sends at most one active permanent link. */
  lemma BroughtToFrontIs(links: seq<Link>)
    ensures FrontOnly(BroughtToFront(links)) <==> AtMostOneActive(links)
    ensures multiset(BroughtToFront(links)) == multiset(links)
    ensures (exists l :: l in links && Active(l)) ==> Active(BroughtToFront(links)[0])
  {
    hide BroughtToFront;
    var i := FirstActive(links);
    var t := BroughtToFront(links);
    BroughtParts(links, i);
    if i < |links| {
      if !AtMostOneActive(links) {
        var a, b :| 0 <= a < b < |links| && Active(links[a]) && Active(links[b]);
        assert t[b] == links[b];
      }
    }
  }

  lemma BroughtParts(links: seq<Link>, i: nat)
    requires i == FirstActive(links)
    ensures var t := BroughtToFront(links);
            && |t| == |links| && multiset(t) == multiset(links)
            && (i == |links| ==> t == links)
            && (i < |links| ==> t[0] == links[i])
            && (i < |links| ==> forall j :: 0 < j <= i ==> t[j] == links[j - 1])
            && (forall j :: i < j < |links| ==> t[j] == links[j])
  {
    hide FirstActive;
    if i < |links| {
      BroughtMultiset(links, i);
      RotatedAt(links, i);
    }
  }

  lemma RotatedAt<T>(s: seq<T>, i: nat)
    requires i < |s|
    ensures var t := [s[i]] + s[..i] + s[i + 1..];
            && (forall j :: 0 < j <= i ==> t[j] == s[j - 1])
            && (forall j :: i < j < |s| ==> t[j] == s[j])
  {
    var t := [s[i]] + s[..i] + s[i + 1..];
    forall j | 0 < j <= i ensures t[j] == s[j - 1] {
      assert ([s[i]] + s[..i])[j] == s[..i][j - 1];
    }
  }

  lemma BroughtMultiset(links: seq<Link>, i: nat)
    requires i < |links|
    ensures multiset([links[i]] + links[..i] + links[i + 1..]) == multiset(links)
  {
    Rotated(links[..i], links[i], links[i + 1..]);
    assert links == links[..i] + ([links[i]] + links[i + 1..]);
  }

  lemma Rotated<T>(a: seq<T>, x: T, b: seq<T>)
    ensures multiset([x] + a + b) == multiset(a + ([x] + b))
  {
  }

  lemma ReloadedFront(s: Slice, fetched: seq<Link>, count: int)
    requires AtMostOneActive(fetched)
    ensures FrontOnly(Reloaded(s, fetched, count).links)
  {
    BroughtToFrontIs(fetched);
    if HasPermanent(s) {
      var others := Inactive(Other(fetched, s.links[0].link));
      InactiveIs(Other(fetched, s.links[0].link));
      assert forall i :: 0 <= i < |others| ==> others[i] in others;
    }
  }

  lemma NextInv(c: Cache, e: Event)
    requires Inv(c) && Honest(c, e)
    ensures Inv(Next(c, e))
  {
    match e
    case Created(p, l) => PrependedFront(SliceOf(c, p), l);
    case EditDone(p, key, l, self, replacement) =>
      EditedFront(SliceOf(c, p), key, l);
      var d := if p in c then c[p := Edited(c[p], key, l)] else c;
      if replacement.Some? {
        PrependedFront(SliceOf(d, p), replacement.value);
      }
    case Loaded(p, fetched, count) => ReloadedFront(SliceOf(c, p), fetched, count);
    case External(p, updated) => ReplacedFront(SliceOf(c, p).links, updated);
    case SetPermanent(_, _) =>
    case ClearPermanent(_) =>
    case Forget(_) =>
  }

  ghost function Run(run: seq<Event>): Cache {
    if run == [] then map[] else Next(Run(run[..|run| - 1]), run[|run| - 1])
  }

  ghost predicate HonestRun(run: seq<Event>) {
    run == [] || (HonestRun(run[..|run| - 1]) && Honest(Run(run[..|run| - 1]), run[|run| - 1]))
  }

  lemma {:induction false} RunInv(run: seq<Event>)
    requires HonestRun(run)
    ensures Inv(Run(run))
  {
    if run != [] {
      RunInv(run[..|run| - 1]);
      NextInv(Run(run[..|run| - 1]), run[|run| - 1]);
    }
  }

  /**
   * Over every run against a consistent server, an active permanent link is cached only as the first
   * of its peer's links, so there is at most one and looking at the first entry finds it.
   */
  lemma PermanentIsFirst(run: seq<Event>, p: Peer, i: nat)
    requires HonestRun(run) && p in Run(run) && i < |Run(run)[p].links| && Active(Run(run)[p].links[i])
    ensures i == 0 && HasPermanent(Run(run)[p])
    ensures forall j :: 0 <= j < |Run(run)[p].links| && Active(Run(run)[p].links[j]) ==> j == 0
  {
    hide Run, HonestRun;
    RunInv(run);
  }

  // ---- The cache, updated in place ----

  method BringPermanentToFront(links: seq<Link>) returns (r: seq<Link>)
    ensures r == BroughtToFront(links)
  {
    r := links;
    var i := 0;
    while i < |links| && !Active(links[i])
      invariant 0 <= i <= |links| && forall j :: 0 <= j < i ==> !Active(links[j])
    {
      i := i + 1;
    }
    assert i == FirstActive(links);
    if i != |links| && i != 0 {
      // rotate the part up to and including i by one
      r := [links[i]] + links[..i] + links[i + 1..];
    } else if i == 0 && links != [] {
      assert [links[0]] + links[..0] + links[1..] == links;
    }
  }

  method RemovePermanent(links: seq<Link>) returns (r: seq<Link>)
    ensures r == Inactive(links)
  {
    r := [];
    for i := 0 to |links|
      invariant r == Inactive(links[..i])
    {
      assert links[..i + 1][..i] == links[..i];
      if !Active(links[i]) {
        r := r + [links[i]];
      }
    }
    assert links[..|links|] == links;
  }

  /** The loop of parseSlice, with the cached permanent link if there is one. */
  method ParseSlice(fetched: seq<Link>, permanent: Option<nat>) returns (r: seq<Link>)
    ensures r == if permanent.Some? then Other(fetched, permanent.value) else fetched
  {
    r := [];
    for i := 0 to |fetched|
      invariant r == if permanent.Some? then Other(fetched[..i], permanent.value) else fetched[..i]
    {
      assert fetched[..i + 1][..i] == fetched[..i];
      if permanent.None? || fetched[i].link != permanent.value {
        r := r + [fetched[i]];
      }
    }
    assert fetched[..|fetched|] == fetched;
  }

  class Cached {
    var firstSlices: Cache

    constructor ()
      ensures firstSlices == map[]
    {
      firstSlices := map[];
    }

    method PrependMyToFirstSlice(p: Peer, l: Link)
      modifies this
      ensures firstSlices == Next(old(firstSlices), Created(p, l))
    {
      var s := SliceOf(firstSlices, p);
      var hadPermanent := HasPermanent(s);
      if l.permanent && hadPermanent {
        s := Slice(s.links[1..], Fewer(s.count));
      }
      s := s.(count := s.count + 1);
      if hadPermanent && !l.permanent {
        s := s.(links := s.links[..1] + [l] + s.links[1..]);
        assert s.links == [s.links[0], l] + s.links[2..];
      } else {
        s := s.(links := [l] + s.links);
      }
      firstSlices := firstSlices[p := s];
    }

    /** The reply of performEdit, with the replacement of a revoked permanent link if there is one. */
    method EditReply(p: Peer, key: nat, l: Link, self: bool, replacement: Option<Link>)
      modifies this
      ensures firstSlices == Next(old(firstSlices), EditDone(p, key, l, self, replacement))
    {
      if p in firstSlices {
        var s := firstSlices[p];
        var j := 0;
        while j < |s.links| && s.links[j].link != key
          invariant 0 <= j <= |s.links| && forall i :: 0 <= i < j ==> s.links[i].link != key
        {
          j := j + 1;
        }
        assert j == Find(s.links, key);
        if j < |s.links| {
          if l.revoked && !s.links[j].revoked {
            s := Slice(s.links[..j] + s.links[j + 1..], Fewer(s.count));
          } else {
            s := s.(links := s.links[j := l]);
          }
        }
        firstSlices := firstSlices[p := s];
      }
      if replacement.Some? && self {
        PrependMyToFirstSlice(p, replacement.value);
      }
    }

    /** The reply of requestMyLinks. */
    method LinksReply(p: Peer, fetched: seq<Link>, count: int)
      modifies this
      ensures firstSlices == Next(old(firstSlices), Loaded(p, fetched, count))
    {
      var s := SliceOf(firstSlices, p);
      var permanent := if HasPermanent(s) then Some(s.links[0].link) else None;
      var links := ParseSlice(fetched, permanent);
      if permanent.None? {
        links := BringPermanentToFront(links);
        firstSlices := firstSlices[p := Slice(links, count)];
      } else {
        links := RemovePermanent(links);
        assert s.links[..1] == [s.links[0]];
        links := s.links[..1] + links;
        firstSlices := firstSlices[p := Slice(links, if count > |links| then count else |links|)];
      }
    }

    method ApplyExternalUpdate(p: Peer, updated: Link)
      modifies this
      ensures firstSlices == Next(old(firstSlices), External(p, updated))
    {
      if p in firstSlices {
        var links := firstSlices[p].links;
        for i := 0 to |links|
          invariant |links| == |old(firstSlices)[p].links|
          invariant forall j :: 0 <= j < |links| ==>
            links[j] == if j < i then Replaced(old(firstSlices)[p].links, updated)[j] else old(firstSlices)[p].links[j]
        {
          if links[i].link == updated.link {
            links := links[i := updated];
          }
        }
        assert links == Replaced(firstSlices[p].links, updated);
        firstSlices := firstSlices[p := firstSlices[p].(links := links)];
      }
    }

    method SetMyPermanent(p: Peer, l: Link)
      modifies this
      ensures firstSlices == Next(old(firstSlices), SetPermanent(p, l))
    {
      if !l.permanent {
        return;
      }
      var s := SliceOf(firstSlices, p);
      if HasPermanent(s) {
        if s.links[0].link == l.link {
          firstSlices := firstSlices[p := s.(links := s.links[0 := s.links[0].(usage := l.usage)])];
          return;
        }
        s := Slice(s.links[1..], Fewer(s.count));
      }
      firstSlices := firstSlices[p := s.(links := [l] + s.links)];
    }

    method ClearMyPermanent(p: Peer)
      modifies this
      ensures firstSlices == Next(old(firstSlices), ClearPermanent(p))
    {
      if p !in firstSlices || !HasPermanent(firstSlices[p]) {
        assert p in firstSlices ==> firstSlices[p := firstSlices[p]] == firstSlices;
        return;
      }
      var s := firstSlices[p];
      firstSlices := firstSlices[p := Slice(s.links[1..], Fewer(s.count))];
    }

    /** The cached links of a peer are dropped; they are loaded anew when asked for. */
    method ForgetSlice(p: Peer)
      modifies this
      ensures firstSlices == Next(old(firstSlices), Forget(p))
    {
      firstSlices := firstSlices - {p};
    }

    /** Whatever happens, the object takes the step of the model: its life is a run. */
    method Handle(e: Event)
      requires Inv(firstSlices) && Honest(firstSlices, e)
      modifies this
      ensures Inv(firstSlices) && firstSlices == Next(old(firstSlices), e)
    {
      NextInv(firstSlices, e);
      hide Inv, Next, Honest;
      match e {
        case Created(p, l) => PrependMyToFirstSlice(p, l);
        case EditDone(p, key, l, self, replacement) => EditReply(p, key, l, self, replacement);
        case Loaded(p, fetched, count) => LinksReply(p, fetched, count);
        case External(p, updated) => ApplyExternalUpdate(p, updated);
        case SetPermanent(p, l) => SetMyPermanent(p, l);
        case ClearPermanent(p) => ClearMyPermanent(p);
        case Forget(p) => ForgetSlice(p);
      }
    }
  }
}
