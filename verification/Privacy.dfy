/** Conversion of privacy rules to the server's form and back (api_user_privacy.cpp:27-171). */
module Privacy {
  import opened Common

  datatype Peer = User(id: nat) | Chat(id: nat) | Channel(id: nat)

  datatype Choice = Everyone | Contacts | Nobody

  datatype Rule = Rule(option: Choice, always: seq<Peer>, never: seq<Peer>, ignoreAlways: bool, ignoreNever: bool)

  /** A rule on the wire; chats and channels are both named by their bare ids. */
  datatype Wire =
    | AllowAll
    | AllowContacts
    | AllowUsers(ids: seq<nat>)
    | AllowChats(ids: seq<nat>)
    | DisallowContacts
    | DisallowAll
    | DisallowUsers(ids: seq<nat>)
    | DisallowChats(ids: seq<nat>)

  // ------------------------------------------------------------------------------------------
  // To the wire

  function UserIds(peers: seq<Peer>): seq<nat> {
    if peers == [] then []
    else UserIds(peers[..|peers| - 1]) + var p := peers[|peers| - 1]; if p.User? then [p.id] else []
  }

  function ChatIds(peers: seq<Peer>): seq<nat> {
    if peers == [] then []
    else ChatIds(peers[..|peers| - 1]) + var p := peers[|peers| - 1]; if p.User? then [] else [p.id]
  }

  /** An empty list is not sent. */
  function Listed(w: Wire): seq<Wire>
    requires w.AllowUsers? || w.AllowChats? || w.DisallowUsers? || w.DisallowChats?
  {
    if w.ids == [] then [] else [w]
  }

  function ChoiceToWire(option: Choice): Wire {
    match option
    case Everyone => AllowAll
    case Contacts => AllowContacts
    case Nobody => DisallowAll
  }

  function Allowed(rule: Rule): seq<Wire> {
    if rule.ignoreAlways then []
    else Listed(AllowUsers(UserIds(rule.always))) + Listed(AllowChats(ChatIds(rule.always)))
  }

  function Disallowed(rule: Rule): seq<Wire> {
    if rule.ignoreNever then []
    else Listed(DisallowUsers(UserIds(rule.never))) + Listed(DisallowChats(ChatIds(rule.never)))
  }

  function ToWire(rule: Rule): seq<Wire> { Allowed(rule) + Disallowed(rule) + [ChoiceToWire(rule.option)] }

  /** collectInputUsers */
  method CollectInputUsers(peers: seq<Peer>) returns (result: seq<nat>)
    ensures result == UserIds(peers)
  {
    result := [];
    for i := 0 to |peers|
      invariant result == UserIds(peers[..i])
    {
      assert peers[..i + 1][..i] == peers[..i];
      if peers[i].User? {
        result := result + [peers[i].id];
      }
    }
    assert peers[..|peers|] == peers;
  }

  /** collectInputChats */
  method CollectInputChats(peers: seq<Peer>) returns (result: seq<nat>)
    ensures result == ChatIds(peers)
  {
    result := [];
    for i := 0 to |peers|
      invariant result == ChatIds(peers[..i])
    {
      assert peers[..i + 1][..i] == peers[..i];
      if !peers[i].User? {
        result := result + [peers[i].id];
      }
    }
    assert peers[..|peers|] == peers;
  }

  /** RulesToTL */
  method RulesToTL(rule: Rule) returns (result: seq<Wire>)
    ensures result == ToWire(rule)
  {
    result := [];
    if !rule.ignoreAlways {
      var users := CollectInputUsers(rule.always);
      var chats := CollectInputChats(rule.always);
      if users != [] {
        result := result + [AllowUsers(users)];
      }
      if chats != [] {
        result := result + [AllowChats(chats)];
      }
    }
    assert result == Allowed(rule);
    if !rule.ignoreNever {
      var users := CollectInputUsers(rule.never);
      var chats := CollectInputChats(rule.never);
      if users != [] {
        result := result + [DisallowUsers(users)];
      }
      if chats != [] {
        result := result + [DisallowChats(chats)];
      }
    }
    assert result == Allowed(rule) + Disallowed(rule);
    match rule.option {
      case Everyone => result := result + [AllowAll];
      case Contacts => result := result + [AllowContacts];
      case Nobody => result := result + [DisallowAll];
    }
  }

  // ------------------------------------------------------------------------------------------
  // From the wire

  /** A bare id means the loaded chat, else the loaded channel. */
  function Resolve(loaded: set<Peer>, id: nat): Option<Peer> {
    if Chat(id) in loaded then Some(Chat(id))
    else if Channel(id) in loaded then Some(Channel(id))
    else None
  }

  /** The peer that an id in a list of users or of chats means. */
  function Meant(loaded: set<Peer>, users: bool, id: nat): Option<Peer> {
    if users then Some(User(id)) else Resolve(loaded, id)
  }

  datatype Mention = Mention(peer: Peer, allowed: bool)

  function MentionsOf(loaded: set<Peer>, users: bool, ids: seq<nat>, allowed: bool): seq<Mention> {
    if ids == [] then []
    else
      MentionsOf(loaded, users, ids[..|ids| - 1], allowed)
      + match Meant(loaded, users, ids[|ids| - 1])
        case Some(p) => [Mention(p, allowed)]
        case None => []
  }

  function MentionsIn(loaded: set<Peer>, w: Wire): seq<Mention> {
    match w
    case AllowUsers(ids) => MentionsOf(loaded, true, ids, true)
    case AllowChats(ids) => MentionsOf(loaded, false, ids, true)
    case DisallowUsers(ids) => MentionsOf(loaded, true, ids, false)
    case DisallowChats(ids) => MentionsOf(loaded, false, ids, false)
    case _ => []
  }

  /** All the peers the rules name, in order. */
  function Mentions(loaded: set<Peer>, rules: seq<Wire>): seq<Mention> {
    if rules == [] then []
    else Mentions(loaded, rules[..|rules| - 1]) + MentionsIn(loaded, rules[|rules| - 1])
  }

  predicate Mentioned(ms: seq<Mention>, p: Peer) { Mention(p, true) in ms || Mention(p, false) in ms }

  /** The peers whose first mention is on the given side, in the order of their first mention. */
  function Picked(ms: seq<Mention>, allowed: bool): seq<Peer> {
    if ms == [] then []
    else
      var before, m := ms[..|ms| - 1], ms[|ms| - 1];
      Picked(before, allowed) + if m.allowed == allowed && !Mentioned(before, m.peer) then [m.peer] else []
  }

  function WireChoice(w: Wire): Option<Choice> {
    match w
    case AllowAll => Some(Everyone)
    case AllowContacts => Some(Contacts)
    case DisallowAll => Some(Nobody)
    case _ => None
  }

  /** The first option among the rules. */
  function FirstChoice(rules: seq<Wire>): Option<Choice> {
    if rules == [] then None
    else if WireChoice(rules[0]).Some? then WireChoice(rules[0])
    else FirstChoice(rules[1..])
  }

  /** The meaning of a list of rules: the first option wins, and the first mention of each peer. */
  function FromWire(loaded: set<Peer>, rules: seq<Wire>): Rule {
    var ms := Mentions(loaded, rules);
    Rule(match FirstChoice(rules) case Some(c) => c case None => Nobody,
         Picked(ms, true), Picked(ms, false), false, false)
  }

  lemma {:induction false} PickedAreMentioned(ms: seq<Mention>)
    ensures forall p :: Mentioned(ms, p) <==> p in Picked(ms, true) || p in Picked(ms, false)
  {
    if ms != [] {
      var before, m := ms[..|ms| - 1], ms[|ms| - 1];
      PickedAreMentioned(before);
      assert ms == before + [m];
      assert m.peer in Picked(ms, m.allowed) || Mentioned(before, m.peer);
    }
  }

  predicate NoDuplicates(xs: seq<Peer>) { forall i, j :: 0 <= i < j < |xs| ==> xs[i] != xs[j] }

  predicate Disjoint(xs: seq<Peer>, ys: seq<Peer>) { forall p :: p in xs ==> p !in ys }

  lemma {:induction false} PickedOnce(ms: seq<Mention>)
    ensures NoDuplicates(Picked(ms, true)) && NoDuplicates(Picked(ms, false))
    ensures Disjoint(Picked(ms, true), Picked(ms, false))
  {
    if ms != [] {
      var before := ms[..|ms| - 1];
      PickedOnce(before);
      PickedAreMentioned(before);
    }
  }

  /** Whatever the server sends, no peer is in a list twice nor in both lists. */
  lemma FromWireIsClean(loaded: set<Peer>, rules: seq<Wire>)
    ensures var r := FromWire(loaded, rules);
            NoDuplicates(r.always) && NoDuplicates(r.never) && Disjoint(r.always, r.never)
  {
    PickedOnce(Mentions(loaded, rules));
  }

  /** A peer is allowed, or not, as its first mention says. */
  lemma {:induction false} FirstMentionWins(ms: seq<Mention>, i: nat, allowed: bool)
    requires i < |ms| && forall j :: 0 <= j < i ==> ms[j].peer != ms[i].peer
    ensures ms[i].peer in Picked(ms, allowed) <==> ms[i].allowed == allowed
  {
    var before := ms[..|ms| - 1];
    if i < |ms| - 1 {
      FirstMentionWins(before, i, allowed);
      assert before[i] in before;
      assert Mentioned(before, ms[i].peer);
    } else {
      assert !Mentioned(before, ms[i].peer);
      PickedAreMentioned(before);
    }
  }

  // The method

  lemma PickedStep(ms: seq<Mention>, m: Mention)
    ensures Picked(ms + [m], m.allowed)
            == Picked(ms, m.allowed)
               + (if m.peer in Picked(ms, true) || m.peer in Picked(ms, false) then [] else [m.peer])
    ensures Picked(ms + [m], !m.allowed) == Picked(ms, !m.allowed)
  {
    assert (ms + [m])[..|ms|] == ms;
    PickedAreMentioned(ms);
  }

  /** The loop over one list of ids. */
  method FeedPeers(loaded: set<Peer>, users: bool, ids: seq<nat>, mine: seq<Peer>, other: seq<Peer>,
                   ghost ms: seq<Mention>, ghost allowed: bool)
    returns (result: seq<Peer>)
    requires mine == Picked(ms, allowed) && other == Picked(ms, !allowed)
    ensures result == Picked(ms + MentionsOf(loaded, users, ids, allowed), allowed)
    ensures other == Picked(ms + MentionsOf(loaded, users, ids, allowed), !allowed)
  {
    hide Picked;
    result := mine;
    assert ms + MentionsOf(loaded, users, [], allowed) == ms;
    for i := 0 to |ids|
      invariant result == Picked(ms + MentionsOf(loaded, users, ids[..i], allowed), allowed)
      invariant other == Picked(ms + MentionsOf(loaded, users, ids[..i], allowed), !allowed)
    {
      assert ids[..i + 1][..i] == ids[..i];
      ghost var so := ms + MentionsOf(loaded, users, ids[..i], allowed);
      match Meant(loaded, users, ids[i]) {
        case Some(peer) =>
          assert ms + MentionsOf(loaded, users, ids[..i + 1], allowed) == so + [Mention(peer, allowed)];
          PickedStep(so, Mention(peer, allowed));
          if peer !in other && peer !in result {
            result := result + [peer];
          }
        case None =>
          assert ms + MentionsOf(loaded, users, ids[..i + 1], allowed) == so;
      }
    }
    assert ids[..|ids|] == ids;
  }

  method TLToRules(loaded: set<Peer>, rules: seq<Wire>) returns (result: Rule)
    ensures result == FromWire(loaded, rules)
  {
    hide Picked, MentionsOf;
    var option, optionSet := Everyone, false;
    var always, never: seq<Peer> := [], [];
    assert Picked([], true) == [] && Picked([], false) == [] by { PickedNothing(); }
    for i := 0 to |rules|
      invariant always == Picked(Mentions(loaded, rules[..i]), true)
      invariant never == Picked(Mentions(loaded, rules[..i]), false)
      invariant FirstChoice(rules) == if optionSet then Some(option) else FirstChoice(rules[i..])
    {
      assert rules[..i + 1][..i] == rules[..i];
      assert rules[i..][1..] == rules[i + 1..];
      ghost var ms := Mentions(loaded, rules[..i]);
      match rules[i] {
        case AllowUsers(ids) => always := FeedPeers(loaded, true, ids, always, never, ms, true);
        case AllowChats(ids) => always := FeedPeers(loaded, false, ids, always, never, ms, true);
        case DisallowUsers(ids) => never := FeedPeers(loaded, true, ids, never, always, ms, false);
        case DisallowChats(ids) => never := FeedPeers(loaded, false, ids, never, always, ms, false);
        case DisallowContacts =>
          assert ms + [] == ms;
        case w =>
          assert ms + [] == ms;
          if !optionSet {
            optionSet, option := true, WireChoice(rules[i]).value;
          }
      }
    }
    assert rules[..|rules|] == rules;
    if !optionSet {
      option := Nobody;
    }
    result := Rule(option, always, never, false, false);
  }

  lemma PickedNothing()
    ensures Picked([], true) == [] && Picked([], false) == []
  {
  }

  // ------------------------------------------------------------------------------------------
  // There and back

  function UserPeers(peers: seq<Peer>): seq<Peer> {
    if peers == [] then []
    else UserPeers(peers[..|peers| - 1]) + var p := peers[|peers| - 1]; if p.User? then [p] else []
  }

  /** The peers that come back for those that are not users. */
  function ChatPeers(loaded: set<Peer>, peers: seq<Peer>): seq<Peer> {
    if peers == [] then []
    else
      ChatPeers(loaded, peers[..|peers| - 1])
      + var p := peers[|peers| - 1];
        match (if p.User? then None else Resolve(loaded, p.id)) case Some(q) => [q] case None => []
  }

  /** The users of a list, then the chats as they resolve. */
  function Settled(loaded: set<Peer>, peers: seq<Peer>): seq<Peer> { UserPeers(peers) + ChatPeers(loaded, peers) }

  /** The first occurrences of the peers that are not barred. */
  function Firsts(xs: seq<Peer>, barred: seq<Peer>): seq<Peer> {
    if xs == [] then []
    else
      var before, x := xs[..|xs| - 1], xs[|xs| - 1];
      Firsts(before, barred) + if x in before || x in barred then [] else [x]
  }

  /** Users before chats, each once, "always" before "never", and an ignored list empty. */
  function Normal(loaded: set<Peer>, rule: Rule): Rule {
    var a := if rule.ignoreAlways then [] else Settled(loaded, rule.always);
    var n := if rule.ignoreNever then [] else Settled(loaded, rule.never);
    Rule(rule.option, Firsts(a, []), Firsts(n, a), false, false)
  }

  function Tagged(xs: seq<Peer>, allowed: bool): (r: seq<Mention>)
    ensures |r| == |xs|
  {
    seq(|xs|, i requires 0 <= i < |xs| => Mention(xs[i], allowed))
  }

  lemma TaggedSum(xs: seq<Peer>, ys: seq<Peer>, allowed: bool)
    ensures Tagged(xs + ys, allowed) == Tagged(xs, allowed) + Tagged(ys, allowed)
  {
  }

  lemma {:induction false} UsersBack(loaded: set<Peer>, peers: seq<Peer>, allowed: bool)
    ensures MentionsOf(loaded, true, UserIds(peers), allowed) == Tagged(UserPeers(peers), allowed)
  {
    if peers != [] {
      var before, p := peers[..|peers| - 1], peers[|peers| - 1];
      UsersBack(loaded, before, allowed);
      if p.User? {
        assert (UserIds(before) + [p.id])[..|UserIds(before)|] == UserIds(before);
        TaggedSum(UserPeers(before), [p], allowed);
      } else {
        assert UserIds(peers) == UserIds(before) && UserPeers(peers) == UserPeers(before);
      }
    }
  }

  lemma {:induction false} ChatsBack(loaded: set<Peer>, peers: seq<Peer>, allowed: bool)
    ensures MentionsOf(loaded, false, ChatIds(peers), allowed) == Tagged(ChatPeers(loaded, peers), allowed)
  {
    if peers != [] {
      var before, p := peers[..|peers| - 1], peers[|peers| - 1];
      ChatsBack(loaded, before, allowed);
      if p.User? {
        assert ChatIds(peers) == ChatIds(before) && ChatPeers(loaded, peers) == ChatPeers(loaded, before);
      } else {
        assert (ChatIds(before) + [p.id])[..|ChatIds(before)|] == ChatIds(before);
        match Resolve(loaded, p.id)
        case Some(q) => TaggedSum(ChatPeers(loaded, before), [q], allowed);
        case None =>
          assert ChatPeers(loaded, peers) == ChatPeers(loaded, before);
      }
    }
  }

  lemma {:induction false} MentionsSum(loaded: set<Peer>, a: seq<Wire>, b: seq<Wire>)
    ensures Mentions(loaded, a + b) == Mentions(loaded, a) + Mentions(loaded, b)
    decreases |b|
  {
    hide MentionsIn;
    if b == [] {
      assert a + b == a;
    } else {
      var front := b[..|b| - 1];
      assert (a + b)[..|a + b| - 1] == a + front;
      MentionsSum(loaded, a, front);
    }
  }

  lemma MentionsListed(loaded: set<Peer>, w: Wire)
    requires w.AllowUsers? || w.AllowChats? || w.DisallowUsers? || w.DisallowChats?
    ensures Mentions(loaded, Listed(w)) == MentionsIn(loaded, w)
    ensures Mentions(loaded, [w]) == MentionsIn(loaded, w)
  {
    assert [w][..0] == [];
  }

  /** One list of a rule comes back settled. */
  lemma ListBack(loaded: set<Peer>, peers: seq<Peer>, allowed: bool, users: Wire, chats: Wire)
    requires users == if allowed then AllowUsers(UserIds(peers)) else DisallowUsers(UserIds(peers))
    requires chats == if allowed then AllowChats(ChatIds(peers)) else DisallowChats(ChatIds(peers))
    ensures Mentions(loaded, Listed(users) + Listed(chats)) == Tagged(Settled(loaded, peers), allowed)
  {
    hide Mentions, Listed, MentionsOf, UserIds, ChatIds, UserPeers, ChatPeers, Tagged;
    MentionsSum(loaded, Listed(users), Listed(chats));
    MentionsListed(loaded, users);
    MentionsListed(loaded, chats);
    UsersBack(loaded, peers, allowed);
    ChatsBack(loaded, peers, allowed);
    TaggedSum(UserPeers(peers), ChatPeers(loaded, peers), allowed);
  }

  /** What the rule's own lists mean, ignored ones meaning nothing. */
  function AlwaysBack(loaded: set<Peer>, rule: Rule): seq<Peer> {
    if rule.ignoreAlways then [] else Settled(loaded, rule.always)
  }

  function NeverBack(loaded: set<Peer>, rule: Rule): seq<Peer> {
    if rule.ignoreNever then [] else Settled(loaded, rule.never)
  }

  lemma MentionsBack(loaded: set<Peer>, rule: Rule)
    ensures Mentions(loaded, ToWire(rule))
            == Tagged(AlwaysBack(loaded, rule), true) + Tagged(NeverBack(loaded, rule), false)
  {
    hide Mentions, Allowed, Disallowed, Settled;
    var a, n, c := Allowed(rule), Disallowed(rule), [ChoiceToWire(rule.option)];
    AllowedBack(loaded, rule);
    DisallowedBack(loaded, rule);
    ChoiceBack(loaded, rule.option);
    MentionsSum(loaded, a + n, c);
    MentionsSum(loaded, a, n);
  }

  lemma AllowedBack(loaded: set<Peer>, rule: Rule)
    ensures Mentions(loaded, Allowed(rule)) == Tagged(AlwaysBack(loaded, rule), true)
  {
    hide Listed, Settled, UserIds, ChatIds;
    ListBack(loaded, rule.always, true, AllowUsers(UserIds(rule.always)), AllowChats(ChatIds(rule.always)));
  }

  lemma DisallowedBack(loaded: set<Peer>, rule: Rule)
    ensures Mentions(loaded, Disallowed(rule)) == Tagged(NeverBack(loaded, rule), false)
  {
    hide Listed, Settled, UserIds, ChatIds;
    ListBack(loaded, rule.never, false, DisallowUsers(UserIds(rule.never)), DisallowChats(ChatIds(rule.never)));
  }

  lemma ChoiceBack(loaded: set<Peer>, option: Choice)
    ensures Mentions(loaded, [ChoiceToWire(option)]) == []
    ensures WireChoice(ChoiceToWire(option)) == Some(option)
  {
    assert [ChoiceToWire(option)][..0] == [];
  }

  lemma NoChoice(rule: Rule)
    ensures forall w :: w in Allowed(rule) + Disallowed(rule) ==> WireChoice(w).None?
  {
    hide UserIds, ChatIds;
  }

  lemma {:induction false} PickedAllowed(xs: seq<Peer>)
    ensures Picked(Tagged(xs, true), true) == Firsts(xs, []) && Picked(Tagged(xs, true), false) == []
  {
    if xs != [] {
      var before, x := xs[..|xs| - 1], xs[|xs| - 1];
      PickedAllowed(before);
      assert Tagged(xs, true)[..|xs| - 1] == Tagged(before, true);
      TaggedHas(before, true, x);
    }
  }

  lemma TaggedHas(xs: seq<Peer>, allowed: bool, p: Peer)
    ensures Mention(p, allowed) in Tagged(xs, allowed) <==> p in xs
    ensures Mention(p, !allowed) !in Tagged(xs, allowed)
  {
    if p in xs {
      var i :| 0 <= i < |xs| && xs[i] == p;
      assert Tagged(xs, allowed)[i] == Mention(p, allowed);
    }
  }

  lemma {:induction false} PickedBoth(a: seq<Peer>, n: seq<Peer>)
    ensures Picked(Tagged(a, true) + Tagged(n, false), true) == Firsts(a, [])
    ensures Picked(Tagged(a, true) + Tagged(n, false), false) == Firsts(n, a)
    decreases |n|
  {
    if n == [] {
      assert Tagged(a, true) + Tagged(n, false) == Tagged(a, true);
      PickedAllowed(a);
    } else {
      var before, x := n[..|n| - 1], n[|n| - 1];
      var ms := Tagged(a, true) + Tagged(before, false);
      assert Tagged(a, true) + Tagged(n, false) == ms + [Mention(x, false)];
      PickedBoth(a, before);
      PickedStep(ms, Mention(x, false));
      PickedAreMentioned(ms);
      TaggedHas(a, true, x);
      TaggedHas(before, false, x);
      hide Picked, Tagged;
    }
  }

  lemma {:induction false} ChoiceLast(rules: seq<Wire>, w: Wire)
    requires forall r :: r in rules ==> WireChoice(r).None?
    ensures FirstChoice(rules + [w]) == WireChoice(w)
  {
    if rules != [] {
      assert (rules + [w])[1..] == rules[1..] + [w];
      ChoiceLast(rules[1..], w);
    }
  }

  /** There and back gives the normal form, for every rule and whatever is loaded. */
  lemma RoundTrip(loaded: set<Peer>, rule: Rule)
    ensures FromWire(loaded, ToWire(rule)) == Normal(loaded, rule)
  {
    hide Mentions, Picked, Settled, Firsts, FirstChoice, Allowed, Disallowed, WireChoice, ChoiceToWire;
    MentionsBack(loaded, rule);
    NoChoice(rule);
    ChoiceBack(loaded, rule.option);
    PickedBoth(AlwaysBack(loaded, rule), NeverBack(loaded, rule));
    ChoiceLast(Allowed(rule) + Disallowed(rule), ChoiceToWire(rule.option));
  }

  // ------------------------------------------------------------------------------------------
  // When nothing is lost

  predicate UsersFirst(xs: seq<Peer>) { forall i, j :: 0 <= i < j < |xs| && xs[j].User? ==> xs[i].User? }

  predicate IsNormal(rule: Rule) {
    && !rule.ignoreAlways && !rule.ignoreNever
    && NoDuplicates(rule.always) && NoDuplicates(rule.never) && Disjoint(rule.always, rule.never)
    && UsersFirst(rule.always) && UsersFirst(rule.never)
  }

  /** Loaded, and its bare id means no other peer. */
  predicate Known(loaded: set<Peer>, p: Peer) { !p.User? ==> Resolve(loaded, p.id) == Some(p) }

  predicate AllKnown(loaded: set<Peer>, xs: seq<Peer>) { forall p :: p in xs ==> Known(loaded, p) }

  lemma {:induction false} SettledIs(loaded: set<Peer>, xs: seq<Peer>)
    ensures |Settled(loaded, xs)| <= |xs|
    ensures forall p :: p in UserPeers(xs) ==> p.User?
    ensures forall p :: p in ChatPeers(loaded, xs) ==> !p.User? && Known(loaded, p)
  {
    if xs != [] {
      SettledIs(loaded, xs[..|xs| - 1]);
    }
  }

  lemma {:induction false} AlreadySettled(loaded: set<Peer>, xs: seq<Peer>)
    requires UsersFirst(xs) && AllKnown(loaded, xs)
    ensures Settled(loaded, xs) == xs
    ensures xs != [] && xs[|xs| - 1].User? ==> ChatPeers(loaded, xs) == []
  {
    if xs != [] {
      var before, x := xs[..|xs| - 1], xs[|xs| - 1];
      FrontOf(loaded, xs);
      AlreadySettled(loaded, before);
      LastSettled(loaded, xs);
      hide UserPeers, ChatPeers, UsersFirst, AllKnown;
      assert xs == before + [x];
    }
  }

  lemma FrontOf(loaded: set<Peer>, xs: seq<Peer>)
    requires xs != [] && UsersFirst(xs) && AllKnown(loaded, xs)
    ensures var before := xs[..|xs| - 1];
            && UsersFirst(before) && AllKnown(loaded, before) && Known(loaded, xs[|xs| - 1])
            && (xs[|xs| - 1].User? && before != [] ==> before[|before| - 1].User?)
  {
    var before := xs[..|xs| - 1];
    assert forall p :: p in before ==> p in xs;
    assert xs[|xs| - 1] in xs;
    if before != [] {
      assert before[|before| - 1] == xs[|xs| - 2];
    }
  }

  lemma LastSettled(loaded: set<Peer>, xs: seq<Peer>)
    requires xs != [] && Known(loaded, xs[|xs| - 1])
    ensures var before, x := xs[..|xs| - 1], xs[|xs| - 1];
            && UserPeers(xs) == UserPeers(before) + (if x.User? then [x] else [])
            && ChatPeers(loaded, xs) == ChatPeers(loaded, before) + (if x.User? then [] else [x])
            && ChatPeers(loaded, []) == []
  {
  }

  lemma SettledMeansKnown(loaded: set<Peer>, xs: seq<Peer>)
    requires Settled(loaded, xs) == xs
    ensures UsersFirst(xs) && AllKnown(loaded, xs)
  {
    var u, c := UserPeers(xs), ChatPeers(loaded, xs);
    SettledIs(loaded, xs);
    hide UserPeers, ChatPeers, Known;
    forall i, j | 0 <= i < j < |xs| && xs[j].User? ensures xs[i].User? {
      if j < |u| {
        assert u[i] in u;
      }
    }
    forall p | p in xs ensures Known(loaded, p) {
      var i :| 0 <= i < |xs| && xs[i] == p;
      if i >= |u| {
        assert c[i - |u|] in c;
      } else {
        assert u[i] in u;
        UserKnown(loaded, p);
      }
    }
  }

  lemma UserKnown(loaded: set<Peer>, p: Peer)
    requires p.User?
    ensures Known(loaded, p)
  {
  }

  lemma FirstsLast(xs: seq<Peer>, barred: seq<Peer>)
    requires xs != []
    ensures var before, x := xs[..|xs| - 1], xs[|xs| - 1];
            Firsts(xs, barred) == Firsts(before, barred) + (if x in before || x in barred then [] else [x])
  {
  }

  lemma AppendOnce(xs: seq<Peer>, x: Peer)
    ensures NoDuplicates(xs) && x !in xs ==> NoDuplicates(xs + [x])
  {
  }

  lemma {:induction false} FirstsIs(xs: seq<Peer>, barred: seq<Peer>)
    ensures NoDuplicates(Firsts(xs, barred)) && Disjoint(barred, Firsts(xs, barred))
    ensures forall p :: p in Firsts(xs, barred) ==> p in xs
    ensures |Firsts(xs, barred)| <= |xs|
    ensures |Firsts(xs, barred)| == |xs| ==> Firsts(xs, barred) == xs
  {
    if xs != [] {
      var before, x := xs[..|xs| - 1], xs[|xs| - 1];
      FirstsIs(before, barred);
      assert xs == before + [x];
      hide Firsts;
      FirstsLast(xs, barred);
      AppendOnce(Firsts(before, barred), x);
    }
  }

  lemma {:induction false} AlreadyFirsts(xs: seq<Peer>, barred: seq<Peer>)
    requires NoDuplicates(xs) && Disjoint(barred, xs)
    ensures Firsts(xs, barred) == xs
  {
    if xs != [] {
      var before, x := xs[..|xs| - 1], xs[|xs| - 1];
      assert xs == before + [x];
      assert x in xs;
      AlreadyFirsts(before, barred);
    }
  }

  lemma {:induction false} FirstsUsersFirst(xs: seq<Peer>, barred: seq<Peer>)
    requires UsersFirst(xs)
    ensures UsersFirst(Firsts(xs, barred))
  {
    if xs != [] {
      var before, x := xs[..|xs| - 1], xs[|xs| - 1];
      FirstsUsersFirst(before, barred);
      FirstsIs(before, barred);
      FirstsLast(xs, barred);
      hide Firsts, NoDuplicates, Disjoint;
      if x.User? {
        UsersBefore(xs);
      }
      AppendUsersFirst(Firsts(before, barred), x);
    }
  }

  lemma UsersBefore(xs: seq<Peer>)
    requires xs != [] && UsersFirst(xs) && xs[|xs| - 1].User?
    ensures forall p :: p in xs[..|xs| - 1] ==> p.User?
  {
    var before := xs[..|xs| - 1];
    forall p | p in before ensures p.User? {
      var i :| 0 <= i < |before| && before[i] == p;
      assert xs[i].User?;
    }
  }

  lemma AppendUsersFirst(xs: seq<Peer>, x: Peer)
    requires UsersFirst(xs)
    ensures (x.User? ==> forall p :: p in xs ==> p.User?) ==> UsersFirst(xs + [x])
  {
  }

  /**
   * A rule survives the way there and back unchanged exactly when it is in normal form and every
   * chat in it is loaded and not mistaken for another.
   */
  lemma UnchangedExactlyWhen(loaded: set<Peer>, rule: Rule)
    ensures FromWire(loaded, ToWire(rule)) == rule
            <==> IsNormal(rule) && AllKnown(loaded, rule.always) && AllKnown(loaded, rule.never)
  {
    RoundTrip(loaded, rule);
    hide FromWire, ToWire;
    if IsNormal(rule) && AllKnown(loaded, rule.always) && AllKnown(loaded, rule.never) {
      hide Settled, Firsts;
      AlreadySettled(loaded, rule.always);
      AlreadySettled(loaded, rule.never);
      AlreadyFirsts(rule.always, []);
      AlreadyFirsts(rule.never, rule.always);
    }
    if Normal(loaded, rule) == rule {
      var a, n := Settled(loaded, rule.always), Settled(loaded, rule.never);
      SettledIs(loaded, rule.always);
      SettledIs(loaded, rule.never);
      hide Settled, Firsts, UserPeers, ChatPeers;
      FirstsIs(a, []);
      FirstsIs(n, a);
      SettledMeansKnown(loaded, rule.always);
      SettledMeansKnown(loaded, rule.never);
    }
  }

  /** Whatever comes back from a rule of ours is in normal form and stays so. */
  lemma NormalFormsAreFixed(loaded: set<Peer>, rule: Rule)
    ensures var r := FromWire(loaded, ToWire(rule));
            IsNormal(r) && FromWire(loaded, ToWire(r)) == r
  {
    RoundTrip(loaded, rule);
    var r := Normal(loaded, rule);
    var a, n := AlwaysBack(loaded, rule), NeverBack(loaded, rule);
    assert r.always == Firsts(a, []) && r.never == Firsts(n, a);
    BackIsSettled(loaded, if rule.ignoreAlways then [] else rule.always);
    BackIsSettled(loaded, if rule.ignoreNever then [] else rule.never);
    hide FromWire, ToWire, Firsts, Known, Normal;
    FirstsIs(a, []);
    FirstsIs(n, a);
    FirstsUsersFirst(a, []);
    FirstsUsersFirst(n, a);
    UnchangedExactlyWhen(loaded, r);
  }

  lemma BackIsSettled(loaded: set<Peer>, xs: seq<Peer>)
    ensures UsersFirst(Settled(loaded, xs)) && AllKnown(loaded, Settled(loaded, xs))
  {
    SettledIs(loaded, xs);
    var u, c := UserPeers(xs), ChatPeers(loaded, xs);
    hide UserPeers, ChatPeers;
    var all := Settled(loaded, xs);
    forall i, j | 0 <= i < j < |all| && all[j].User? ensures all[i].User? {
      if j < |u| {
        assert u[i] in u;
      }
    }
  }

  // ------------------------------------------------------------------------------------------
  // What an answer means, said of its rules alone

  predicate IsOption(w: Wire) { w.AllowAll? || w.AllowContacts? || w.DisallowAll? }

  /** The option is that of the first rule that is one, and Nobody if there is none. */
  lemma {:induction false} FirstOptionWins(loaded: set<Peer>, rules: seq<Wire>)
    ensures (forall i :: 0 <= i < |rules| ==> !IsOption(rules[i])) ==> FromWire(loaded, rules).option == Nobody
    ensures forall i :: 0 <= i < |rules| && IsOption(rules[i]) && (forall j :: 0 <= j < i ==> !IsOption(rules[j])) ==>
              FromWire(loaded, rules).option
              == if rules[i].AllowAll? then Everyone else if rules[i].AllowContacts? then Contacts else Nobody
    decreases |rules|
  {
    hide Mentions, Picked;
    if rules != [] && !IsOption(rules[0]) {
      FirstOptionWins(loaded, rules[1..]);
      assert forall i :: 0 < i < |rules| ==> rules[i] == rules[1..][i - 1];
      forall i | 0 <= i < |rules| && IsOption(rules[i]) && (forall j :: 0 <= j < i ==> !IsOption(rules[j]))
        ensures FromWire(loaded, rules).option
                == if rules[i].AllowAll? then Everyone else if rules[i].AllowContacts? then Contacts else Nobody
      {
        forall j | 0 <= j < i - 1 ensures !IsOption(rules[1..][j]) {
          assert rules[1..][j] == rules[j + 1];
        }
        assert rules[1..][i - 1] == rules[i];
      }
    }
  }

  /** A rule names a user by its id, and a loaded chat, or else a loaded channel, by its bare id. */
  predicate Names(loaded: set<Peer>, w: Wire, p: Peer) {
    match w
    case AllowUsers(ids) => p.User? && p.id in ids
    case DisallowUsers(ids) => p.User? && p.id in ids
    case AllowChats(ids) => NamesChat(loaded, ids, p)
    case DisallowChats(ids) => NamesChat(loaded, ids, p)
    case _ => false
  }

  predicate NamesChat(loaded: set<Peer>, ids: seq<nat>, p: Peer) {
    !p.User? && p in loaded && p.id in ids && (p.Channel? ==> Chat(p.id) !in loaded)
  }

  predicate Allows(w: Wire) { w.AllowUsers? || w.AllowChats? }

  lemma {:induction false} MentionsOfAre(loaded: set<Peer>, users: bool, ids: seq<nat>, allowed: bool,
                                         p: Peer, side: bool)
    ensures Mention(p, side) in MentionsOf(loaded, users, ids, allowed)
            <==> side == allowed && (if users then p.User? && p.id in ids else NamesChat(loaded, ids, p))
  {
    if ids != [] {
      var before, id := ids[..|ids| - 1], ids[|ids| - 1];
      assert ids == before + [id];
      MentionsOfAre(loaded, users, before, allowed, p, side);
    }
  }

  lemma MentionsInAre(loaded: set<Peer>, w: Wire, p: Peer, side: bool)
    ensures Mention(p, side) in MentionsIn(loaded, w) <==> Names(loaded, w, p) && side == Allows(w)
  {
    hide MentionsOf;
    match w
    case AllowUsers(ids) => MentionsOfAre(loaded, true, ids, true, p, side);
    case AllowChats(ids) => MentionsOfAre(loaded, false, ids, true, p, side);
    case DisallowUsers(ids) => MentionsOfAre(loaded, true, ids, false, p, side);
    case DisallowChats(ids) => MentionsOfAre(loaded, false, ids, false, p, side);
    case _ =>
  }

  /** Mentions of one side add to that side the peers not mentioned before. */
  lemma {:induction false} PickedSameSide(ms: seq<Mention>, more: seq<Mention>, side: bool, p: Peer, allowed: bool)
    requires forall m :: m in more ==> m.allowed == side
    ensures p in Picked(ms + more, allowed)
            <==> p in Picked(ms, allowed) || (allowed == side && !Mentioned(ms, p) && Mention(p, side) in more)
    decreases |more|
  {
    if more == [] {
      assert ms + more == ms;
    } else {
      var before, m := more[..|more| - 1], more[|more| - 1];
      assert more == before + [m];
      PickedSameSide(ms, before, side, p, allowed);
      assert (ms + more)[..|ms + more| - 1] == ms + before;
      assert Mentioned(ms + before, m.peer) <==> Mentioned(ms, m.peer) || Mention(m.peer, side) in before;
      PickedAreMentioned(ms);
    }
  }

  /** The i-th rule is the first to name the peer. */
  predicate FirstNamed(loaded: set<Peer>, rules: seq<Wire>, i: int, p: Peer) {
    0 <= i < |rules| && Names(loaded, rules[i], p) && forall j :: 0 <= j < i ==> !Names(loaded, rules[j], p)
  }

  /** One rule more: who is mentioned, and on which side. */
  lemma PickedOfRule(loaded: set<Peer>, rules: seq<Wire>, w: Wire, p: Peer, allowed: bool)
    ensures p in Picked(Mentions(loaded, rules + [w]), allowed)
            <==> p in Picked(Mentions(loaded, rules), allowed)
                 || (Names(loaded, w, p) && allowed == Allows(w) && !Mentioned(Mentions(loaded, rules), p))
    ensures Mentioned(Mentions(loaded, rules + [w]), p)
            <==> Mentioned(Mentions(loaded, rules), p) || Names(loaded, w, p)
  {
    hide MentionsIn, Names, Picked;
    assert (rules + [w])[..|rules|] == rules;
    forall m | m in MentionsIn(loaded, w) ensures m.allowed == Allows(w) {
      MentionsInAre(loaded, w, m.peer, m.allowed);
    }
    MentionsInAre(loaded, w, p, true);
    MentionsInAre(loaded, w, p, false);
    PickedSameSide(Mentions(loaded, rules), MentionsIn(loaded, w), Allows(w), p, allowed);
  }

  predicate Named(loaded: set<Peer>, rules: seq<Wire>, p: Peer) {
    exists i :: 0 <= i < |rules| && FirstNamed(loaded, rules, i, p)
  }

  /** The first rule that names the peer is of that side. */
  predicate OnSide(loaded: set<Peer>, rules: seq<Wire>, p: Peer, allowed: bool) {
    exists i :: 0 <= i < |rules| && FirstNamed(loaded, rules, i, p) && Allows(rules[i]) == allowed
  }

  /** A peer is on a side exactly when the first rule that names it is of that side. */
  lemma {:induction false} SidesAre(loaded: set<Peer>, rules: seq<Wire>, p: Peer, allowed: bool)
    ensures p in (if allowed then FromWire(loaded, rules).always else FromWire(loaded, rules).never)
            <==> OnSide(loaded, rules, p, allowed)
    ensures Mentioned(Mentions(loaded, rules), p) <==> Named(loaded, rules, p)
    decreases |rules|
  {
    if rules == [] {
      PickedNothing();
    } else {
      hide Mentions, Picked, Names, Mentioned, FirstChoice, OnSide, Named;
      var before, w := rules[..|rules| - 1], rules[|rules| - 1];
      assert rules == before + [w];
      SidesAre(loaded, before, p, allowed);
      PickedOfRule(loaded, before, w, p, allowed);
      OnSideMore(loaded, before, w, p, allowed);
    }
  }

  lemma OnSideMore(loaded: set<Peer>, rules: seq<Wire>, w: Wire, p: Peer, allowed: bool)
    ensures OnSide(loaded, rules + [w], p, allowed)
            <==> OnSide(loaded, rules, p, allowed)
                 || (Names(loaded, w, p) && Allows(w) == allowed && !Named(loaded, rules, p))
    ensures Named(loaded, rules + [w], p) <==> Named(loaded, rules, p) || Names(loaded, w, p)
  {
    hide FirstNamed, Names, Allows;
    FirstNamedMore(loaded, rules, w, p);
    var more := rules + [w];
    assert more[|rules|] == w;
    if i :| 0 <= i < |rules| && FirstNamed(loaded, rules, i, p) {
      assert FirstNamed(loaded, more, i, p) && more[i] == rules[i];
    }
    if i :| 0 <= i < |rules| && FirstNamed(loaded, rules, i, p) && Allows(rules[i]) == allowed {
      assert FirstNamed(loaded, more, i, p) && more[i] == rules[i];
    }
  }

  lemma FirstNamedMore(loaded: set<Peer>, rules: seq<Wire>, w: Wire, p: Peer)
    ensures var more := rules + [w];
            && (forall i :: 0 <= i < |rules| ==> (FirstNamed(loaded, more, i, p) <==> FirstNamed(loaded, rules, i, p)))
            && (FirstNamed(loaded, more, |rules|, p) <==> Names(loaded, w, p) && !Named(loaded, rules, p))
  {
    hide Names;
    var more := rules + [w];
    assert more[|rules|] == w;
    if i :| 0 <= i < |rules| && FirstNamed(loaded, rules, i, p) {
      assert more[i] == rules[i];
    } else {
      NotNamed(loaded, rules, p, |rules|);
    }
  }

  lemma {:induction false} NotNamed(loaded: set<Peer>, rules: seq<Wire>, p: Peer, n: nat)
    requires n <= |rules| && !Named(loaded, rules, p)
    ensures forall j :: 0 <= j < n ==> !Names(loaded, rules[j], p)
  {
    if n > 0 {
      NotNamed(loaded, rules, p, n - 1);
      assert !FirstNamed(loaded, rules, n - 1, p);
    }
  }

  // ------------------------------------------------------------------------------------------
  // What is sent, said of the rule alone

  predicate IsList(w: Wire) { w.AllowUsers? || w.AllowChats? || w.DisallowUsers? || w.DisallowChats? }

  /** A list of users, or of chats and channels, of one side. */
  predicate ListOf(w: Wire, users: bool, allowed: bool) {
    if users then (if allowed then w.AllowUsers? else w.DisallowUsers?)
    else if allowed then w.AllowChats? else w.DisallowChats?
  }

  predicate Lists(ws: seq<Wire>, users: bool, allowed: bool, id: nat) {
    exists w :: w in ws && ListOf(w, users, allowed) && id in w.ids
  }

  predicate Has(peers: seq<Peer>, users: bool, id: nat) { exists p :: p in peers && p.User? == users && p.id == id }

  lemma HasMore(peers: seq<Peer>, p: Peer, id: nat, users: bool)
    ensures Has(peers + [p], users, id) <==> Has(peers, users, id) || (p.User? == users && p.id == id)
  {
    if q :| q in peers && q.User? == users && q.id == id {
      assert q in peers + [p];
    }
    assert p in peers + [p];
  }

  lemma {:induction false} IdsAre(peers: seq<Peer>, id: nat)
    ensures id in UserIds(peers) <==> Has(peers, true, id)
    ensures id in ChatIds(peers) <==> Has(peers, false, id)
  {
    if peers != [] {
      var before, p := peers[..|peers| - 1], peers[|peers| - 1];
      assert peers == before + [p];
      IdsAre(before, id);
      HasMore(before, p, id, true);
      HasMore(before, p, id, false);
    }
  }

  /** No list is empty, and the option comes last and only there. */
  lemma NoEmptyList(rule: Rule)
    ensures var ws := ToWire(rule);
            && ws != [] && IsOption(ws[|ws| - 1])
            && (forall i :: 0 <= i < |ws| - 1 ==> IsList(ws[i]) && ws[i].ids != [])
  {
    hide UserIds, ChatIds;
    ListsOnly(rule);
    var lists := Allowed(rule) + Disallowed(rule);
    assert forall i :: 0 <= i < |lists| ==> lists[i] in lists;
    hide Allowed, Disallowed;
  }

  lemma ListsSum(a: seq<Wire>, b: seq<Wire>, users: bool, allowed: bool, id: nat)
    ensures Lists(a + b, users, allowed, id) <==> Lists(a, users, allowed, id) || Lists(b, users, allowed, id)
  {
    hide ListOf;
    assert forall w :: w in a || w in b <==> w in a + b;
  }

  lemma AllowedListed(rule: Rule, users: bool, side: bool, id: nat)
    ensures Lists(Allowed(rule), users, side, id) <==> side && !rule.ignoreAlways && Has(rule.always, users, id)
  {
    hide UserIds, ChatIds, Has;
    IdsAre(rule.always, id);
    var w := if users then AllowUsers(UserIds(rule.always)) else AllowChats(ChatIds(rule.always));
    assert forall v :: v in Allowed(rule) && ListOf(v, users, side) ==> v == w;
    assert w in Allowed(rule) <==> w.ids != [] && !rule.ignoreAlways;
  }

  lemma DisallowedListed(rule: Rule, users: bool, side: bool, id: nat)
    ensures Lists(Disallowed(rule), users, side, id) <==> !side && !rule.ignoreNever && Has(rule.never, users, id)
  {
    hide UserIds, ChatIds, Has;
    IdsAre(rule.never, id);
    var w := if users then DisallowUsers(UserIds(rule.never)) else DisallowChats(ChatIds(rule.never));
    assert forall v :: v in Disallowed(rule) && ListOf(v, users, side) ==> v == w;
    assert w in Disallowed(rule) <==> w.ids != [] && !rule.ignoreNever;
  }

  /** An id is listed on a side exactly when a peer of that kind with it is on that side, and the side not ignored. */
  lemma ListedExactlyWhen(rule: Rule, users: bool, allowed: bool, id: nat)
    ensures Lists(ToWire(rule), users, allowed, id)
            <==> if allowed then !rule.ignoreAlways && Has(rule.always, users, id)
                 else !rule.ignoreNever && Has(rule.never, users, id)
  {
    ListsSum(Allowed(rule) + Disallowed(rule), [ChoiceToWire(rule.option)], users, allowed, id);
    ListsSum(Allowed(rule), Disallowed(rule), users, allowed, id);
    AllowedListed(rule, users, allowed, id);
    DisallowedListed(rule, users, allowed, id);
    hide Allowed, Disallowed, Has;
  }

  lemma ListsOnly(rule: Rule)
    ensures forall w :: w in Allowed(rule) + Disallowed(rule) ==> IsList(w) && w.ids != []
  {
    hide UserIds, ChatIds;
  }
}
