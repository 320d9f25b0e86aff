/** Small definitions shared by the models. */
module Common {
  datatype Option<+T> = None | Some(value: T)

  lemma {:induction false} Least(times: set<nat>) returns (m: nat)
    requires times != {}
    ensures m in times && forall t :: t in times ==> m <= t
  {
    m :| m in times;
    var rest := times - {m};
    if rest == {} {
      assert forall t :: t in times ==> t == m || t in rest;
    } else {
      var l := Least(rest);
      assert forall t :: t in times ==> t == m || t in rest;
      m := if l < m then l else m;
    }
  }

  lemma LeastExists(times: set<nat>)
    requires times != {}
    ensures exists m :: m in times && forall t :: t in times ==> m <= t
  {
    var _ := Least(times);
  }

  /** The earliest of a set of moments, if there is any. */
  ghost function Earliest(times: set<nat>): (r: Option<nat>)
    ensures r.None? <==> times == {}
    ensures r.Some? ==> r.value in times && forall t :: t in times ==> r.value <= t
  {
    if times == {} then None
    else
      LeastExists(times);
      var m :| m in times && forall t :: t in times ==> m <= t;
      Some(m)
  }

  /** The earliest moment is determined by its two properties. */
  lemma EarliestUnique(times: set<nat>, m: nat)
    requires m in times && forall t :: t in times ==> m <= t
    ensures Earliest(times) == Some(m)
  {
  }

  /** The second list is what the first has at the marked places: each of them once, in ascending order. */
  ghost predicate SelectedAt<T>(xs: seq<T>, marks: seq<bool>, ys: seq<T>, at: seq<nat>) {
    && |marks| == |xs| && |at| == |ys|
    && (forall k :: 0 <= k < |at| ==> at[k] < |xs| && marks[at[k]] && ys[k] == xs[at[k]])
    && (forall j, k :: 0 <= j < k < |at| ==> at[j] < at[k])
    && (forall p :: 0 <= p < |xs| && marks[p] ==> p in at)
  }

  ghost predicate Selected<T>(xs: seq<T>, marks: seq<bool>, ys: seq<T>) {
    exists at: seq<nat> :: SelectedAt(xs, marks, ys, at)
  }

  lemma SelectedNone<T>(xs: seq<T>, marks: seq<bool>, ys: seq<T>)
    requires xs == [] && marks == [] && ys == []
    ensures Selected(xs, marks, ys)
  {
    assert SelectedAt(xs, marks, ys, []);
  }

  /** One more element, taken or left. */
  lemma SelectedMore<T>(xs: seq<T>, marks: seq<bool>, ys: seq<T>, x: T, mark: bool)
    requires Selected(xs, marks, ys)
    ensures Selected(xs + [x], marks + [mark], if mark then ys + [x] else ys)
  {
    var at: seq<nat> :| SelectedAt(xs, marks, ys, at);
    if mark {
      TakenAt(xs, marks, ys, at, x);
    } else {
      assert SelectedAt(xs + [x], marks + [mark], ys, at);
    }
  }

  lemma TakenAt<T>(xs: seq<T>, marks: seq<bool>, ys: seq<T>, at: seq<nat>, x: T)
    requires SelectedAt(xs, marks, ys, at)
    ensures SelectedAt(xs + [x], marks + [true], ys + [x], at + [|xs|])
  {
    var more := at + [|xs|];
    assert more[|at|] == |xs|;
    forall p | 0 <= p <= |xs| && (marks + [true])[p] ensures p in more {
      if p < |xs| {
        assert p in at;
      }
    }
  }
}
