/**
 Runs of a state machine: step gives the state after an action, or None where the action is not
 enabled.
 */
module ActionRuns {
  import opened Support

  ghost predicate Runs<S, A>(step: (S, A) -> Option<S>, s: S, actions: seq<A>)
    decreases |actions|
  {
    actions == []
    || (step(s, actions[0]).Some? && Runs(step, step(s, actions[0]).value, actions[1..]))
  }

  ghost function After<S, A>(step: (S, A) -> Option<S>, s: S, actions: seq<A>): S
    requires Runs(step, s, actions)
    decreases |actions|
  {
    if actions == [] then s else After(step, step(s, actions[0]).value, actions[1..])
  }

  /** Every enabled action keeps inv. */
  ghost predicate Keeps<S(!new), A(!new)>(step: (S, A) -> Option<S>, inv: S -> bool) {
    forall s, a :: inv(s) && step(s, a).Some? ==> inv(step(s, a).value)
  }

  lemma {:induction false} RunKeeps<S(!new), A(!new)>(
    step: (S, A) -> Option<S>, inv: S -> bool, s: S, actions: seq<A>)
    requires Keeps(step, inv) && inv(s) && Runs(step, s, actions)
    ensures inv(After(step, s, actions))
    decreases |actions|
  {
    if actions != [] {
      RunKeeps(step, inv, step(s, actions[0]).value, actions[1..]);
    }
  }

  lemma {:induction false} RunOneMore<S, A>(step: (S, A) -> Option<S>, s: S, actions: seq<A>, a: A)
    requires Runs(step, s, actions) && step(After(step, s, actions), a).Some?
    ensures Runs(step, s, actions + [a])
    ensures After(step, s, actions + [a]) == step(After(step, s, actions), a).value
    decreases |actions|
  {
    if actions == [] {
      assert [a][1..] == [];
    } else {
      RunOneMore(step, step(s, actions[0]).value, actions[1..], a);
      assert (actions + [a])[1..] == actions[1..] + [a];
    }
  }

  lemma {:induction false} RunsJoin<S, A>(step: (S, A) -> Option<S>, s: S, first: seq<A>, second: seq<A>)
    requires Runs(step, s, first) && Runs(step, After(step, s, first), second)
    ensures Runs(step, s, first + second)
    ensures After(step, s, first + second) == After(step, After(step, s, first), second)
    decreases |first|
  {
    if first == [] {
      assert first + second == second;
    } else {
      RunsJoin(step, step(s, first[0]).value, first[1..], second);
      assert (first + second)[1..] == first[1..] + second;
    }
  }

  /** A run up to its k-th action, and that action. */
  lemma {:induction false} RunPrefix<S, A>(step: (S, A) -> Option<S>, s: S, actions: seq<A>, k: nat)
    requires Runs(step, s, actions) && k <= |actions|
    ensures Runs(step, s, actions[..k])
    ensures k < |actions| ==>
      && step(After(step, s, actions[..k]), actions[k]).Some? && Runs(step, s, actions[..k + 1])
      && After(step, s, actions[..k + 1]) == step(After(step, s, actions[..k]), actions[k]).value
    decreases |actions|
  {
    if k > 0 {
      RunPrefix(step, step(s, actions[0]).value, actions[1..], k - 1);
      assert actions[..k][1..] == actions[1..][..k - 1];
    }
    if k < |actions| {
      assert actions[..k + 1] == actions[..k] + [actions[k]];
      assert k == 0 ==> actions[..1][1..] == [];
      assert k > 0 ==> actions[..k + 1][1..] == actions[1..][..k];
    }
  }

  /** The rest of a run, from where its first part has led. */
  lemma {:induction false} RunSuffix<S, A>(step: (S, A) -> Option<S>, s: S, actions: seq<A>, k: nat)
    requires Runs(step, s, actions) && k <= |actions|
    ensures Runs(step, s, actions[..k]) && Runs(step, After(step, s, actions[..k]), actions[k..])
    ensures After(step, After(step, s, actions[..k]), actions[k..]) == After(step, s, actions)
    decreases |actions|
  {
    if k == 0 {
      assert actions[0..] == actions;
    } else {
      RunSuffix(step, step(s, actions[0]).value, actions[1..], k - 1);
      assert actions[..k][1..] == actions[1..][..k - 1] && actions[k..] == actions[1..][k - 1..];
    }
  }

  // ---- What is reached ----

  ghost predicate Reachable<S, A(!new)>(step: (S, A) -> Option<S>, initial: S, s: S) {
    exists actions :: Runs(step, initial, actions) && After(step, initial, actions) == s
  }

  lemma ReachableFromStart<S, A(!new)>(step: (S, A) -> Option<S>, initial: S)
    ensures Reachable(step, initial, initial)
  {
    assert Runs(step, initial, []);
  }

  lemma ReachableStep<S, A(!new)>(step: (S, A) -> Option<S>, initial: S, s: S, a: A)
    requires Reachable(step, initial, s) && step(s, a).Some?
    ensures Reachable(step, initial, step(s, a).value)
  {
    var actions :| Runs(step, initial, actions) && After(step, initial, actions) == s;
    RunOneMore(step, initial, actions, a);
  }

  lemma ReachableKeeps<S(!new), A(!new)>(step: (S, A) -> Option<S>, inv: S -> bool, initial: S, s: S)
    requires Keeps(step, inv) && inv(initial) && Reachable(step, initial, s)
    ensures inv(s)
  {
    var actions :| Runs(step, initial, actions) && After(step, initial, actions) == s;
    RunKeeps(step, inv, initial, actions);
  }
}
