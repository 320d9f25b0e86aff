/** Forwarded messages, split into runs with one source peer (apiwrap.cpp:3018-3027, 3063-3147). */
module Forwarding {
  type Peer = nat

  datatype Item = Item(peer: Peer, id: int)

  /** An item together with the random id drawn for it. */
  datatype Drawn = Drawn(item: Item, random: int)

  /** One request: its source peer, and ids and random ids in two lists. */
  datatype Batch = Batch(from: Peer, ids: seq<int>, randomIds: seq<int>)

  predicate Aligned(b: Batch) { |b.ids| == |b.randomIds| && b.ids != [] }

  function Unpacked(b: Batch): seq<Drawn>
    requires Aligned(b)
  {
    seq(|b.ids|, i requires 0 <= i < |b.ids| => Drawn(Item(b.from, b.ids[i]), b.randomIds[i]))
  }

  function AllUnpacked(batches: seq<Batch>): seq<Drawn>
    requires forall b :: b in batches ==> Aligned(b)
  {
    if batches == [] then []
    else AllUnpacked(batches[..|batches| - 1]) + Unpacked(batches[|batches| - 1])
  }

  /** Neighbours have different peers: no run is cut. */
  predicate Maximal(batches: seq<Batch>) { forall i :: 0 < i < |batches| ==> batches[i - 1].from != batches[i].from }

  /** No batch is empty, together they are the items in order, and no two neighbours could be one. */
  predicate AreRuns(drawn: seq<Drawn>, batches: seq<Batch>) {
    && (forall b :: b in batches ==> Aligned(b))
    && AllUnpacked(batches) == drawn
    && Maximal(batches)
  }

  lemma SameLast(a: Batch, b: Batch)
    requires Aligned(a) && Aligned(b) && Unpacked(a) == Unpacked(b)
    ensures a == b
  {
    var u, v := Unpacked(a), Unpacked(b);
    assert |a.ids| == |u| == |v| == |b.ids|;
    assert u[0].item.peer == a.from && v[0].item.peer == b.from;
    forall i | 0 <= i < |a.ids| ensures a.ids[i] == b.ids[i] && a.randomIds[i] == b.randomIds[i] {
      assert u[i] == v[i];
    }
  }

  /** Before the last run another peer's item stands, or nothing. */
  lemma RunEnds(drawn: seq<Drawn>, batches: seq<Batch>)
    requires AreRuns(drawn, batches) && batches != []
    ensures var last := batches[|batches| - 1];
            var k := |drawn| - |last.ids|;
            IsLastRun(drawn, last) && AreRuns(drawn[..k], batches[..|batches| - 1])
  {
    var front, last := batches[..|batches| - 1], batches[|batches| - 1];
    var k := |drawn| - |last.ids|;
    assert forall b :: b in front ==> b in batches;
    assert last in batches;
    assert AllUnpacked(batches) == AllUnpacked(front) + Unpacked(last);
    assert drawn[..k] == AllUnpacked(front);
    if k > 0 {
      var before := front[|front| - 1];
      assert before in batches;
      assert drawn[k - 1] == Unpacked(before)[|before.ids| - 1];
    }
  }

  /** The split into maximal runs is unique. */
  lemma {:induction false} RunsAreUnique(drawn: seq<Drawn>, a: seq<Batch>, b: seq<Batch>)
    requires AreRuns(drawn, a) && AreRuns(drawn, b)
    ensures a == b
    decreases |a|
  {
    if a == [] || b == [] {
      NoRuns(drawn, a);
      NoRuns(drawn, b);
    } else {
      hide AreRuns, Unpacked;
      RunEnds(drawn, a);
      RunEnds(drawn, b);
      SameRun(drawn, a[|a| - 1], b[|b| - 1]);
      var k := |drawn| - |a[|a| - 1].ids|;
      RunsAreUnique(drawn[..k], a[..|a| - 1], b[..|b| - 1]);
      assert a == a[..|a| - 1] + [a[|a| - 1]] && b == b[..|b| - 1] + [b[|b| - 1]];
    }
  }

  /** The last run starts after the last item of another peer. */
  ghost predicate IsLastRun(drawn: seq<Drawn>, l: Batch) {
    var k := |drawn| - |l.ids|;
    && 0 <= k < |drawn| && Aligned(l) && drawn[k..] == Unpacked(l)
    && (forall i :: k <= i < |drawn| ==> drawn[i].item.peer == l.from)
    && (k > 0 ==> drawn[k - 1].item.peer != l.from)
  }

  lemma SameRun(drawn: seq<Drawn>, l: Batch, m: Batch)
    requires IsLastRun(drawn, l) && IsLastRun(drawn, m)
    ensures l == m
  {
    hide Unpacked;
    assert l.from == drawn[|drawn| - 1].item.peer == m.from;
    assert |l.ids| == |m.ids|;
    SameLast(l, m);
  }

  lemma NoRuns(drawn: seq<Drawn>, a: seq<Batch>)
    requires AreRuns(drawn, a)
    ensures a == [] <==> drawn == []
  {
    if a != [] {
      RunEnds(drawn, a);
    }
  }

  /** The items so far: the batches sent and the one being collected. */
  predicate Collecting(drawn: seq<Drawn>, sent: seq<Batch>, b: Batch) {
    && |b.ids| == |b.randomIds|
    && (if b.ids == [] then sent == [] && drawn == [] else AreRuns(drawn, sent + [b]))
  }

  lemma NothingYet(drawn: seq<Drawn>, b: Batch)
    requires b.ids == [] && b.randomIds == []
    ensures Collecting(drawn[..0], [], b)
  {
  }

  lemma AllCollected(drawn: seq<Drawn>, sent: seq<Batch>, b: Batch)
    requires Collecting(drawn, sent, b) && b.ids != []
    ensures AreRuns(drawn, sent + [b])
  {
  }

  lemma NoAnswers()
    ensures Successes(map[]) == {}
  {
  }

  lemma CollectMore(drawn: seq<Drawn>, sent: seq<Batch>, b: Batch, d: Drawn)
    requires Collecting(drawn, sent, b) && d.item.peer == b.from
    ensures Collecting(drawn + [d], sent, Batch(b.from, b.ids + [d.item.id], b.randomIds + [d.random]))
  {
    var c := Batch(b.from, b.ids + [d.item.id], b.randomIds + [d.random]);
    UnpackedMore(b, d);
    if b.ids != [] {
      assert forall x :: x in sent ==> x in sent + [b];
      hide Unpacked, AllUnpacked;
      UnpackedLast(sent, b);
      UnpackedLast(sent, c);
      SameFrom(sent, b, c);
    } else {
      assert [c][..0] == [];
      assert sent + [c] == [c] && drawn + [d] == [d];
      assert AllUnpacked([c]) == AllUnpacked([]) + Unpacked(c);
    }
  }

  lemma UnpackedMore(b: Batch, d: Drawn)
    requires |b.ids| == |b.randomIds| && d.item.peer == b.from
    ensures var c := Batch(b.from, b.ids + [d.item.id], b.randomIds + [d.random]);
            Aligned(c) && Unpacked(c) == (if b.ids == [] then [] else Unpacked(b)) + [d]
  {
  }

  lemma UnpackedLast(sent: seq<Batch>, b: Batch)
    requires Aligned(b) && forall x :: x in sent ==> Aligned(x)
    ensures AllUnpacked(sent + [b]) == AllUnpacked(sent) + Unpacked(b)
  {
    assert (sent + [b])[..|sent|] == sent;
  }

  lemma SameFrom(sent: seq<Batch>, b: Batch, c: Batch)
    requires Maximal(sent + [b]) && c.from == b.from
    ensures Maximal(sent + [c])
  {
    forall i | 0 < i < |sent + [c]| ensures (sent + [c])[i - 1].from != (sent + [c])[i].from {
      assert (sent + [b])[i - 1].from != (sent + [b])[i].from;
    }
  }

  lemma CollectNext(drawn: seq<Drawn>, sent: seq<Batch>, b: Batch, d: Drawn)
    requires Collecting(drawn, sent, b) && b.ids != [] && d.item.peer != b.from
    ensures Collecting(drawn + [d], sent + [b], Batch(d.item.peer, [d.item.id], [d.random]))
  {
    var c := Batch(d.item.peer, [d.item.id], [d.random]);
    var all := sent + [b] + [c];
    assert all[..|all| - 1] == sent + [b];
    assert Unpacked(c) == [d];
    forall i | 0 < i < |all| ensures all[i - 1].from != all[i].from {
      if i < |all| - 1 {
        assert (sent + [b])[i - 1].from != (sent + [b])[i].from;
      }
    }
  }

  /** The counter shared by the requests, and the success callback. */
  datatype Shared = Shared(requestsLeft: int, calls: nat)

  /** The counter after an answer: a success counts down, and calls back at zero; a failure does nothing. */
  function Counted(s: Shared, ok: bool): Shared {
    if !ok then s
    else Shared(s.requestsLeft - 1, if s.requestsLeft == 1 then s.calls + 1 else s.calls)
  }

  class Forwarder {
    var batches: seq<Batch>
    var shared: Shared
    ghost var answered: map<nat, bool>

    constructor ()
      ensures batches == [] && shared == Shared(0, 0) && answered == map[]
    {
      batches, shared, answered := [], Shared(0, 0), map[];
    }

    /** sendAccumulated */
    method SendAccumulated(b: Batch)
      modifies this`batches, this`shared
      ensures batches == old(batches) + [b]
      ensures shared == Shared(old(shared).requestsLeft + 1, old(shared).calls)
    {
      shared := shared.(requestsLeft := shared.requestsLeft + 1);
      batches := batches + [b];
    }

    /** forwardMessages: the requests that go out are exactly the maximal runs. */
    method ForwardMessages(drawn: seq<Drawn>)
      requires drawn != []
      requires batches == [] && shared == Shared(0, 0) && answered == map[]
      modifies this`batches, this`shared
      ensures AreRuns(drawn, batches)
      ensures shared == Shared(|batches|, 0) && Valid() && batches != []
    {
      hide Collecting, AreRuns, Successes;
      var b := Batch(drawn[0].item.peer, [], []);
      NothingYet(drawn, b);
      for i := 0 to |drawn|
        invariant Collecting(drawn[..i], batches, b)
        invariant b.ids == [] <==> i == 0
        invariant i == 0 ==> b.from == drawn[0].item.peer
        invariant shared == Shared(|batches|, 0)
      {
        var d := drawn[i];
        assert drawn[..i + 1] == drawn[..i] + [d];
        if b.from != d.item.peer {
          CollectNext(drawn[..i], batches, b, d);
          SendAccumulated(b);
          b := Batch(d.item.peer, [], []);
          assert [] + [d.item.id] == [d.item.id] && [] + [d.random] == [d.random];
        } else {
          CollectMore(drawn[..i], batches, b, d);
        }
        b := b.(ids := b.ids + [d.item.id], randomIds := b.randomIds + [d.random]);
      }
      assert drawn[..|drawn|] == drawn;
      AllCollected(drawn, batches, b);
      SendAccumulated(b);
      NoAnswers();
    }

    /** The counter and the calls follow from the answers that came. */
    ghost predicate Valid()
      reads this
    {
      && (forall i :: i in answered ==> i < |batches|)
      && shared.requestsLeft == |batches| - |Successes(answered)|
      && shared.calls == (if batches != [] && shared.requestsLeft == 0 then 1 else 0)
    }

    /** A request succeeded. */
    method Done(i: nat)
      requires Valid() && i < |batches| && i !in answered
      modifies this`shared, this`answered
      ensures Valid() && answered == old(answered)[i := true] && shared == Counted(old(shared), true)
    {
      SuccessesStep(answered, i, true);
      FewSuccesses(answered, |batches|, i);
      answered := answered[i := true];
      shared := shared.(requestsLeft := shared.requestsLeft - 1);
      if shared.requestsLeft == 0 {
        shared := shared.(calls := shared.calls + 1);
      }
    }

    /** A request failed. */
    method Fail(i: nat)
      requires Valid() && i < |batches| && i !in answered
      modifies this`answered
      ensures Valid() && answered == old(answered)[i := false] && shared == Counted(old(shared), false)
    {
      SuccessesStep(answered, i, false);
      answered := answered[i := false];
    }
  }

  function Successes(answered: map<nat, bool>): set<nat> { set i | i in answered && answered[i] }

  lemma SuccessesStep(answered: map<nat, bool>, i: nat, ok: bool)
    requires i !in answered
    ensures Successes(answered[i := ok]) == Successes(answered) + (if ok then {i} else {})
  {
  }

  function Below(n: nat): (r: set<nat>)
    ensures |r| == n && forall i: nat :: i in r <==> i < n
  {
    if n == 0 then {} else Below(n - 1) + {n - 1}
  }

  lemma Inside(a: set<nat>, b: set<nat>)
    requires a <= b
    ensures |a| <= |b|
    ensures |a| == |b| <==> a == b
  {
    assert b == a + (b - a);
    assert |b| == |a| + |b - a|;
  }

  lemma FewSuccesses(answered: map<nat, bool>, n: nat, i: nat)
    requires (forall j :: j in answered ==> j < n) && i < n && i !in answered
    ensures |Successes(answered)| < n
  {
    Inside(Successes(answered) + {i}, Below(n));
  }

  /** The success callback was called once if every batch succeeded, and otherwise not at all. */
  lemma CalledExactlyWhen(f: Forwarder)
    requires f.Valid() && f.batches != []
    ensures f.shared.calls <= 1
    ensures f.shared.calls == 1 <==> forall i :: 0 <= i < |f.batches| ==> i in f.answered && f.answered[i]
  {
    var n := |f.batches|;
    Inside(Successes(f.answered), Below(n));
    if forall i :: 0 <= i < n ==> i in f.answered && f.answered[i] {
      assert Successes(f.answered) == Below(n);
    }
    if Successes(f.answered) == Below(n) {
      forall i | 0 <= i < n ensures i in f.answered && f.answered[i] {
        assert i in Below(n);
      }
    }
  }

  /** An answer to one of the requests. */
  datatype Answer = Answer(request: nat, ok: bool)

  /** Each request is answered at most once. */
  predicate AnsweredOnce(answers: seq<Answer>, n: nat) {
    && (forall i :: 0 <= i < |answers| ==> answers[i].request < n)
    && (forall i, j :: 0 <= i < j < |answers| ==> answers[i].request != answers[j].request)
  }

  /** The counter of n requests after any sequence of successes and failures. */
  function Played(n: nat, answers: seq<Answer>): Shared {
    if answers == [] then Shared(n, 0) else Counted(Played(n, answers[..|answers| - 1]), answers[|answers| - 1].ok)
  }

  function Succeeded(answers: seq<Answer>): set<nat> { set a | a in answers && a.ok :: a.request }

  lemma SucceededStep(answers: seq<Answer>, n: nat)
    requires answers != [] && AnsweredOnce(answers, n)
    ensures var before, a := answers[..|answers| - 1], answers[|answers| - 1];
            && AnsweredOnce(before, n) && a.request !in Succeeded(before)
            && Succeeded(answers) == Succeeded(before) + (if a.ok then {a.request} else {})
  {
    var before, a := answers[..|answers| - 1], answers[|answers| - 1];
    assert answers == before + [a];
    forall b | b in before ensures b.request != a.request {
      var i :| 0 <= i < |before| && before[i] == b;
      assert answers[i] == b;
    }
    assert a in answers;
    assert forall r :: r in Succeeded(answers) ==> r in Succeeded(before) + (if a.ok then {a.request} else {});
    assert forall r :: r in Succeeded(before) ==> r in Succeeded(answers);
  }

  lemma {:induction false} PlayedIs(n: nat, answers: seq<Answer>)
    requires n > 0 && AnsweredOnce(answers, n)
    ensures var left := n - |Succeeded(answers)|;
            Succeeded(answers) <= Below(n) && left >= 0
            && Played(n, answers) == Shared(left, if left == 0 then 1 else 0)
  {
    if answers == [] {
      assert Succeeded(answers) == {};
    } else {
      var before, a := answers[..|answers| - 1], answers[|answers| - 1];
      SucceededStep(answers, n);
      PlayedIs(n, before);
      assert a.request in Below(n);
      if a.ok {
        Inside(Succeeded(before) + {a.request}, Below(n));
      }
    }
  }

  /**
   * Whatever the order of the answers and however many have come, the callback was called at most once,
   * and once exactly if every request has succeeded.
   */
  lemma CalledInEveryRun(n: nat, answers: seq<Answer>)
    requires n > 0 && AnsweredOnce(answers, n)
    ensures Played(n, answers).calls <= 1
    ensures Played(n, answers).calls == 1 <==> forall i: nat :: i < n ==> Answer(i, true) in answers
  {
    PlayedIs(n, answers);
    Inside(Succeeded(answers), Below(n));
    hide Played;
    if Succeeded(answers) == Below(n) {
      forall i: nat | i < n ensures Answer(i, true) in answers {
        assert i in Succeeded(answers);
      }
    }
    if forall i: nat :: i < n ==> Answer(i, true) in answers {
      forall i: nat | i < n ensures i in Succeeded(answers) {
        assert Answer(i, true) in answers;
      }
      assert Succeeded(answers) == Below(n);
    }
  }
}
