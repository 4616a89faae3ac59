/** Runs of a state machine.  A machine is its step function: the state after an action, or
    `None` where the action is not enabled. */
module Runs {
  import opened Common

  type Machine<!S, !A> = (S, A) -> Option<S>

  ghost predicate IsRun<S(!new), A(!new)>(next: Machine<S, A>, s: S, actions: seq<A>, t: S)
    decreases |actions|
  {
    if actions == [] then t == s
    else next(s, actions[0]).Some? && IsRun(next, next(s, actions[0]).value, actions[1..], t)
  }

  ghost predicate Reaches<S(!new), A(!new)>(next: Machine<S, A>, s: S, t: S) {
    exists actions :: IsRun(next, s, actions, t)
  }

  lemma RunOne<S(!new), A(!new)>(next: Machine<S, A>, s: S, a: A, rest: seq<A>, t: S)
    requires next(s, a).Some? && IsRun(next, next(s, a).value, rest, t)
    ensures IsRun(next, s, [a] + rest, t)
  {
    assert ([a] + rest)[1..] == rest;
  }

  lemma {:induction false} RunAppend<S(!new), A(!new)>(next: Machine<S, A>, s: S, xs: seq<A>, t: S, ys: seq<A>, u: S)
    requires IsRun(next, s, xs, t) && IsRun(next, t, ys, u)
    ensures IsRun(next, s, xs + ys, u)
    decreases |xs|
  {
    if xs == [] {
      assert xs + ys == ys;
    } else {
      RunAppend(next, next(s, xs[0]).value, xs[1..], t, ys, u);
      assert (xs + ys)[1..] == xs[1..] + ys;
    }
  }

  lemma Chain<S(!new), A(!new)>(next: Machine<S, A>, s: S, t: S, u: S)
    requires Reaches(next, s, t) && Reaches(next, t, u)
    ensures Reaches(next, s, u)
  {
    var xs :| IsRun(next, s, xs, t);
    var ys :| IsRun(next, t, ys, u);
    RunAppend(next, s, xs, t, ys, u);
  }

  lemma Step<S(!new), A(!new)>(next: Machine<S, A>, s: S, a: A) returns (t: S)
    requires next(s, a).Some?
    ensures next(s, a) == Some(t) && Reaches(next, s, t)
  {
    t := next(s, a).value;
    assert IsRun(next, t, [], t);
    RunOne(next, s, a, [], t);
  }

  lemma StepFrom<S(!new), A(!new)>(next: Machine<S, A>, s: S, t: S, a: A) returns (u: S)
    requires Reaches(next, s, t) && next(t, a).Some?
    ensures next(t, a) == Some(u) && Reaches(next, s, u)
  {
    u := Step(next, t, a);
    Chain(next, s, t, u);
  }

  lemma NoStep<S(!new), A(!new)>(next: Machine<S, A>, s: S)
    ensures Reaches(next, s, s)
  {
    assert IsRun(next, s, [], s);
  }

  /** Every step of `part` is a step of `whole`. */
  ghost predicate PartOf<S(!new), A(!new)>(part: Machine<S, A>, whole: Machine<S, A>) {
    forall s, a :: part(s, a).Some? ==> whole(s, a) == part(s, a)
  }

  lemma {:induction false} PartRuns<S(!new), A(!new)>(part: Machine<S, A>, whole: Machine<S, A>, s: S, actions: seq<A>,
                                                      t: S)
    requires PartOf(part, whole) && IsRun(part, s, actions, t)
    ensures IsRun(whole, s, actions, t)
    decreases |actions|
  {
    if actions != [] {
      assert whole(s, actions[0]) == part(s, actions[0]);
      PartRuns(part, whole, part(s, actions[0]).value, actions[1..], t);
    }
  }

  lemma PartReaches<S(!new), A(!new)>(part: Machine<S, A>, whole: Machine<S, A>, s: S, t: S)
    requires PartOf(part, whole) && Reaches(part, s, t)
    ensures Reaches(whole, s, t)
  {
    var actions :| IsRun(part, s, actions, t);
    PartRuns(part, whole, s, actions, t);
  }
}
