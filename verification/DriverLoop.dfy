/**
 The loop both workflow drivers share: one step after another until the state stops it, a step does
 not advance, or the ceiling is reached.
 */
module DriverLoop {

  /** step's second argument numbers the visit, so that every visit may meet a different world. */
  function RunFrom<S, O>(
    step: (S, nat) -> (S, O), stops: S -> bool, advances: O -> bool, s: S, k: nat, maxSteps: nat): (S, seq<O>)
    decreases maxSteps - k
  {
    if k >= maxSteps || stops(s) then (s, [])
    else
      var (t, o) := step(s, k);
      if !advances(o) then (t, [o])
      else
        var (last, rest) := RunFrom(step, stops, advances, t, k + 1, maxSteps);
        (last, [o] + rest)
  }

  /** Nothing but the ceiling could have ended a run whose outcomes all advance. */
  predicate Unfinished<O>(steps: seq<O>, advances: O -> bool) {
    steps == [] || advances(steps[|steps| - 1])
  }

  function Anything<O>(): O -> bool {
    (o: O) => true
  }

  /** Every step from a good state has a good outcome and leads to a good state. */
  ghost predicate Keeps<S(!new), O>(
    step: (S, nat) -> (S, O), stops: S -> bool, good: S -> bool, fine: O -> bool) {
    forall s, k: nat :: good(s) && !stops(s) ==> good(step(s, k).0) && fine(step(s, k).1)
  }

  /** Every advancing step from a good state lowers the bound. */
  ghost predicate Spends<S(!new), O>(
    step: (S, nat) -> (S, O), stops: S -> bool, advances: O -> bool, good: S -> bool, bound: S -> int) {
    && (forall s :: good(s) ==> bound(s) >= if stops(s) then 0 else 1)
    && forall s, k: nat :: good(s) && !stops(s) && advances(step(s, k).1) ==> bound(step(s, k).0) < bound(s)
  }

  lemma {:induction false} RunKeeps<S(!new), O>(
    step: (S, nat) -> (S, O), stops: S -> bool, advances: O -> bool, good: S -> bool, fine: O -> bool,
    s: S, k: nat, maxSteps: nat)
    requires Keeps(step, stops, good, fine) && good(s)
    ensures var (t, steps) := RunFrom(step, stops, advances, s, k, maxSteps);
      good(t) && forall o :: o in steps ==> fine(o)
    decreases maxSteps - k
  {
    if k < maxSteps && !stops(s) && advances(step(s, k).1) {
      RunKeeps(step, stops, advances, good, fine, step(s, k).0, k + 1, maxSteps);
    }
  }

  lemma {:induction false} RunSpends<S(!new), O>(
    step: (S, nat) -> (S, O), stops: S -> bool, advances: O -> bool, good: S -> bool, bound: S -> int,
    s: S, k: nat, maxSteps: nat)
    requires Spends(step, stops, advances, good, bound) && Keeps(step, stops, good, Anything<O>()) && good(s)
    ensures var (t, steps) := RunFrom(step, stops, advances, s, k, maxSteps);
      |steps| <= bound(s) && (maxSteps >= k + bound(s) && Unfinished(steps, advances) ==> stops(t))
    decreases maxSteps - k
  {
    if k < maxSteps && !stops(s) && advances(step(s, k).1) {
      var (t, o) := step(s, k);
      RunSpends(step, stops, advances, good, bound, t, k + 1, maxSteps);
    }
  }

  /** Every step from a good state advances by exactly one towards a stop. */
  ghost predicate Approaches<S(!new), O>(
    step: (S, nat) -> (S, O), stops: S -> bool, advances: O -> bool, good: S -> bool, distance: S -> int) {
    && (forall s :: good(s) ==> (stops(s) <==> distance(s) == 0) && distance(s) >= 0)
    && forall s, k: nat :: good(s) && !stops(s) ==>
         var (t, o) := step(s, k); good(t) && advances(o) && distance(t) == distance(s) - 1
  }

  lemma {:induction false} RunArrives<S(!new), O>(
    step: (S, nat) -> (S, O), stops: S -> bool, advances: O -> bool, good: S -> bool, distance: S -> int,
    s: S, k: nat, maxSteps: nat)
    requires Approaches(step, stops, advances, good, distance) && good(s) && maxSteps >= k + distance(s)
    ensures var (t, steps) := RunFrom(step, stops, advances, s, k, maxSteps);
      good(t) && stops(t) && |steps| == distance(s)
    decreases distance(s)
  {
    if !stops(s) {
      RunArrives(step, stops, advances, good, distance, step(s, k).0, k + 1, maxSteps);
    }
  }

  /** The run from s0 has come to s in k steps, with these outcomes. */
  ghost predicate SoFar<S, O>(
    step: (S, nat) -> (S, O), stops: S -> bool, advances: O -> bool, s0: S, maxSteps: nat,
    s: S, k: nat, steps: seq<O>)
  {
    var (last, rest) := RunFrom(step, stops, advances, s, k, maxSteps);
    RunFrom(step, stops, advances, s0, 0, maxSteps) == (last, steps + rest)
  }

  lemma SoFarBegins<S, O>(
    step: (S, nat) -> (S, O), stops: S -> bool, advances: O -> bool, s0: S, maxSteps: nat)
    ensures SoFar(step, stops, advances, s0, maxSteps, s0, 0, [])
  {
    var r := RunFrom(step, stops, advances, s0, 0, maxSteps);
    assert [] + r.1 == r.1;
  }

  lemma SoFarAdvances<S, O>(
    step: (S, nat) -> (S, O), stops: S -> bool, advances: O -> bool, s0: S, maxSteps: nat,
    s: S, k: nat, steps: seq<O>, t: S, o: O)
    requires SoFar(step, stops, advances, s0, maxSteps, s, k, steps) && k < maxSteps && !stops(s)
    requires step(s, k) == (t, o)
    ensures advances(o) ==> SoFar(step, stops, advances, s0, maxSteps, t, k + 1, steps + [o])
    ensures !advances(o) ==> RunFrom(step, stops, advances, s0, 0, maxSteps) == (t, steps + [o])
  {
    var rest := RunFrom(step, stops, advances, t, k + 1, maxSteps).1;
    assert steps + ([o] + rest) == steps + [o] + rest;
  }

  lemma SoFarEnds<S, O>(
    step: (S, nat) -> (S, O), stops: S -> bool, advances: O -> bool, s0: S, maxSteps: nat,
    s: S, k: nat, steps: seq<O>)
    requires SoFar(step, stops, advances, s0, maxSteps, s, k, steps) && (k >= maxSteps || stops(s))
    ensures RunFrom(step, stops, advances, s0, 0, maxSteps) == (s, steps)
  {
    assert steps + [] == steps;
  }
}
