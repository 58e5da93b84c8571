/** Runs of a state machine, and what an invariant says about them. */
module Runs {

  /** `steps[i]` leads from `states[i]` to `states[i + 1]`. */
  datatype Run<S, T> = Run(states: seq<S>, steps: seq<T>)

  /** What holds at the start and is kept by every step holds all along. */
  lemma {:induction false} InvAlong<S(!new)>(states: seq<S>, inv: S -> bool, n: nat)
    requires n < |states| && inv(states[0])
    requires forall k :: 0 <= k < |states| - 1 && inv(states[k]) ==> inv(states[k + 1])
    ensures inv(states[n])
  {
    if n > 0 {
      InvAlong(states, inv, n - 1);
    }
  }

  /** A flag that starts up and falls at each marked step is still up exactly when no step was marked. */
  lemma {:induction false} UpUnlessMarked(up: nat -> bool, marked: nat -> bool, n: nat)
    requires up(0)
    requires forall i: nat :: i < n ==> (up(i + 1) <==> up(i) && !marked(i))
    ensures up(n) <==> forall i: nat :: i < n ==> !marked(i)
  {
    if n > 0 {
      UpUnlessMarked(up, marked, n - 1);
      assert up(n - 1 + 1) <==> up(n - 1) && !marked(n - 1);
    }
  }

  /** What holds at `from` and is handed on holds up to `n`. */
  lemma {:induction false} HandedOn(p: nat -> bool, from: nat, n: nat)
    requires from <= n && p(from)
    requires forall k: nat :: from <= k < n && p(k) ==> p(k + 1)
    ensures p(n)
  {
    if from < n {
      HandedOn(p, from, n - 1);
      assert p(n - 1) ==> p(n - 1 + 1);
    }
  }

  /** The steps lead from `s` to `s1`. */
  ghost predicate Leads<S(!new), T>(next: (S, T, S) -> bool, s: S, steps: seq<T>, s1: S)
    decreases |steps|
  {
    if steps == [] then s1 == s else exists m :: next(s, steps[0], m) && Leads(next, m, steps[1..], s1)
  }

  lemma LeadsFirst<S(!new), T>(next: (S, T, S) -> bool, s: S, st: T, m: S, rest: seq<T>, s1: S)
    requires next(s, st, m) && Leads(next, m, rest, s1)
    ensures Leads(next, s, [st] + rest, s1)
  {
    assert ([st] + rest)[1..] == rest;
  }

  lemma {:induction false} LeadsOn<S(!new), T>(next: (S, T, S) -> bool, s: S, a: seq<T>, s1: S, b: seq<T>, s2: S)
    requires Leads(next, s, a, s1) && Leads(next, s1, b, s2)
    ensures Leads(next, s, a + b, s2)
    decreases |a|
  {
    if a == [] {
      assert a + b == b;
    } else {
      var m :| next(s, a[0], m) && Leads(next, m, a[1..], s1);
      LeadsOn(next, m, a[1..], s1, b, s2);
      LeadsFirst(next, s, a[0], m, a[1..] + b, s2);
      assert a + b == [a[0]] + (a[1..] + b);
    }
  }

  /** What every step keeps is kept all the way. */
  lemma {:induction false} LeadsKeep<S(!new), T(!new)>(next: (S, T, S) -> bool, inv: S -> bool,
                                                       s: S, steps: seq<T>, s1: S)
    requires Leads(next, s, steps, s1) && inv(s)
    requires forall a, t, b :: inv(a) && next(a, t, b) ==> inv(b)
    ensures inv(s1)
    decreases |steps|
  {
    if steps != [] {
      var m :| next(s, steps[0], m) && Leads(next, m, steps[1..], s1);
      LeadsKeep(next, inv, m, steps[1..], s1);
    }
  }
}
