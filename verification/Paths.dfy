/** Sequences of steps of any transition system. */
module Paths {

  /** `labels` lead from `s` to `t`. */
  ghost predicate Leads<S(!new), L(!new)>(step: (S, L, S) -> bool, s: S, labels: seq<L>, t: S)
    decreases |labels|
  {
    if |labels| == 0 then s == t
    else
      var n := |labels| - 1;
      exists u :: Leads(step, s, labels[..n], u) && step(u, labels[n], t)
  }

  /** Some steps lead from `s` to `t`. */
  ghost predicate Goes<S(!new), L(!new)>(step: (S, L, S) -> bool, s: S, t: S) {
    exists labels: seq<L> :: Leads(step, s, labels, t)
  }

  lemma GoesHere<S(!new), L(!new)>(step: (S, L, S) -> bool, s: S)
    ensures Goes(step, s, s)
  {
    assert Leads(step, s, [], s);
  }

  lemma GoesNext<S(!new), L(!new)>(step: (S, L, S) -> bool, s: S, t: S, l: L, u: S)
    requires Goes(step, s, t) && step(t, l, u)
    ensures Goes(step, s, u)
  {
    var labels :| Leads(step, s, labels, t);
    assert (labels + [l])[..|labels|] == labels;
    assert Leads(step, s, labels + [l], u);
  }

  lemma {:induction false} LeadsFrom<S(!new), L(!new)>(step: (S, L, S) -> bool, s: S, t: S, labels: seq<L>, u: S)
    requires Goes(step, s, t) && Leads(step, t, labels, u)
    ensures Goes(step, s, u)
    decreases |labels|
  {
    if |labels| == 0 {
    } else {
      var n := |labels| - 1;
      var v :| Leads(step, t, labels[..n], v) && step(v, labels[n], u);
      LeadsFrom(step, s, t, labels[..n], v);
      GoesNext(step, s, v, labels[n], u);
    }
  }

  lemma GoesThrough<S(!new), L(!new)>(step: (S, L, S) -> bool, s: S, t: S, u: S)
    requires Goes(step, s, t) && Goes(step, t, u)
    ensures Goes(step, s, u)
  {
    var labels :| Leads(step, t, labels, u);
    LeadsFrom(step, s, t, labels, u);
  }

  lemma {:induction false} LeadsKeeps<S(!new), L(!new)>(step: (S, L, S) -> bool, inv: S -> bool,
                                                        s: S, labels: seq<L>, t: S)
    requires Leads(step, s, labels, t) && inv(s) && forall u, l, v :: step(u, l, v) && inv(u) ==> inv(v)
    ensures inv(t)
    decreases |labels|
  {
    if |labels| == 0 {
    } else {
      var n := |labels| - 1;
      var u :| Leads(step, s, labels[..n], u) && step(u, labels[n], t);
      LeadsKeeps(step, inv, s, labels[..n], u);
    }
  }

  /** What every step keeps holds wherever the steps go. */
  lemma GoesKeeps<S(!new), L(!new)>(step: (S, L, S) -> bool, inv: S -> bool, s: S, t: S)
    requires Goes(step, s, t) && inv(s) && forall u, l, v :: step(u, l, v) && inv(u) ==> inv(v)
    ensures inv(t)
  {
    var labels :| Leads(step, s, labels, t);
    LeadsKeeps(step, inv, s, labels, t);
  }

  /** Steps of one kind are steps of any kind that allows them. */
  lemma GoesMore<S(!new), L(!new)>(step: (S, L, S) -> bool, more: (S, L, S) -> bool, s: S, t: S)
    requires Goes(step, s, t) && forall u, l, v :: step(u, l, v) ==> more(u, l, v)
    ensures Goes(more, s, t)
  {
    GoesHere(more, s);
    forall u, l, v | step(u, l, v) && Goes(more, s, u)
      ensures Goes(more, s, v)
    {
      GoesNext(more, s, u, l, v);
    }
    GoesKeeps(step, u => Goes(more, s, u), s, t);
  }

  /** Something false at first and true at `k` has become true at some point. */
  lemma {:induction false} BecomesTrue(p: nat -> bool, k: nat) returns (i: nat)
    requires !p(0) && p(k)
    ensures i < k && !p(i) && p(i + 1)
  {
    if k == 0 {
      assert false;
    } else if p(k - 1) {
      i := BecomesTrue(p, k - 1);
    } else {
      i := k - 1;
    }
  }
}
