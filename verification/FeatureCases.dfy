/** Documents and runs at which the feature-state engine falls short of what is written about it. */
module FeatureCases {
  import opened Support
  import opened PrerequisiteGraph
  import opened FeatureState
  import opened FeatureValidation
  import opened FeatureRuns

  const FIRST: string := "ORCH-000"
  const SECOND: string := "ORCH-001"

  function Unstarted(title: string, prerequisites: seq<string>): Stage {
    Stage(title, NotStarted, prerequisites, None, None, None, NotRequested, None, NotRun, [], [], None, [])
  }

  /** Two stages, the second after the first, neither of them started. */
  const PLAN: State := State(
    map[FIRST := Unstarted("first", []), SECOND := Unstarted("second", [FIRST])],
    [FIRST, SECOND], [], Some(FIRST), Some(FIRST), Some(FIRST), [], Stamp(0, "owner", Architect, "plan"))

  lemma FirstIsEligible()
    ensures PLAN.stages.Keys == {FIRST, SECOND} && !HasOpenGlobalBlocker(PLAN)
    ensures FirstEligible(PLAN.stages, PLAN.deliveryOrder) == Some(FIRST)
  {
    assert IsEligible(PLAN.stages, FIRST);
  }

  lemma StagesAreValid()
    ensures forall id :: id in PLAN.stages ==> StageValid(PLAN.stages.Keys, PLAN.stages[id])
  {
  }

  lemma PlanIsValid()
    ensures SemanticsOk(PLAN) && Fresh(PLAN) && Serial(PLAN) && Completable(PLAN)
    ensures FirstEligible(PLAN.stages, PLAN.deliveryOrder) == Some(FIRST)
  {
    FirstIsEligible();
    StagesAreValid();
    assert IsTopologicalOrder(GraphOf(PLAN.stages), [FIRST, SECOND]);
  }

  /** A request by one role that moves a stage and records a base commit. */
  function Move(id: string, to: Status, role: Role, globals: seq<Blocker>): Request {
    Request(id, to, "actor", role, "move", "reason", 1, [], None, None, None, None, None, false,
            Some(ANY_SHA), [], [], None, [], [], globals, [])
  }

  lemma MoveIsAccepted(s: State, r: Request)
    requires SemanticsOk(s) && Rejection(s, r).None? && Residual(s.stages[r.stageId], r)
    ensures CanRun(s, [r]) && After(s, [r]) == Applied(s, r) && SemanticsOk(Applied(s, r))
  {
    ValidityPreservedExactly(s, r);
    assert [r][1..] == [];
  }

  /** The document after one request that is accepted of the plan. */
  lemma PlanMoves(r: Request)
    requires Rejection(PLAN, r).None? && Residual(PLAN.stages[r.stageId], r)
    ensures CanRun(PLAN, [r]) && After(PLAN, [r]) == Applied(PLAN, r)
    ensures SemanticsOk(Applied(PLAN, r)) && Serial(Applied(PLAN, r))
  {
    PlanIsValid();
    MoveIsAccepted(PLAN, r);
    StepKeepsSerial(PLAN, r);
  }

  predicate Has(s: State, id: string, status: Status) {
    id in s.stages && s.stages[id].status == status
  }

  // ---- Superseding the first eligible stage ----

  const SUPERSEDE_FIRST: Request := Move(FIRST, Superseded, Architect, [])

  lemma ResolvesNothing(r: Request)
    requires r.stageId == FIRST && (forall b :: b in r.addBlockers + r.addGlobalBlockers ==> IsBlockerRecord(b))
    requires r.resolveBlockers == [] && r.resolveGlobalBlockers == [] && ShaRejection(r).None?
    ensures EditRejection(PLAN, r).None?
  {
    assert PLAN.stages[FIRST].blockers == [] && PLAN.blockers == [];
  }

  lemma SupersedeIsAccepted()
    ensures Rejection(PLAN, SUPERSEDE_FIRST).None? && Residual(PLAN.stages[FIRST], SUPERSEDE_FIRST)
  {
    PlanIsValid();
    assert IsSha(ANY_SHA);
    assert GuardRejection(PLAN, SUPERSEDE_FIRST).None?;
    ResolvesNothing(SUPERSEDE_FIRST);
  }

  lemma SupersedeEffect()
    ensures var s := Applied(PLAN, SUPERSEDE_FIRST); Has(s, FIRST, Superseded) && s.nextEligible == Some(FIRST)
  {
    var s := Applied(PLAN, SUPERSEDE_FIRST);
    assert s.deliveryOrder == [FIRST, SECOND] && !HasOpenGlobalBlocker(s);
    assert s.stages[FIRST].prerequisites == [];
  }

  /** The amendment is accepted, the stage stays first eligible and no run ever delivers the rest. */
  lemma SupersedingEndsDelivery()
    ensures CanRun(PLAN, [SUPERSEDE_FIRST])
    ensures var s := After(PLAN, [SUPERSEDE_FIRST]);
      Has(s, FIRST, Superseded) && s.nextEligible == Some(FIRST) && !exists rs :: Delivers(s, rs)
  {
    SupersedeIsAccepted();
    PlanMoves(SUPERSEDE_FIRST);
    SupersedeEffect();
    CompletionExact(Applied(PLAN, SUPERSEDE_FIRST));
  }

  // ---- A global blocker without a code ----

  const NAMELESS: Blocker := Blocker(None, "s", "o", 0, None)
  const START_BLOCKED: Request := Move(FIRST, InProgress, Implementer, [NAMELESS])

  lemma StartIsGuarded(globals: seq<Blocker>)
    ensures GuardRejection(PLAN, Move(FIRST, InProgress, Implementer, globals)).None?
  {
    FirstIsEligible();
  }

  lemma StartIsAccepted(globals: seq<Blocker>)
    requires forall b :: b in globals ==> IsBlockerRecord(b)
    ensures var r := Move(FIRST, InProgress, Implementer, globals);
      Rejection(PLAN, r).None? && Residual(PLAN.stages[FIRST], r)
  {
    assert IsSha(ANY_SHA);
    StartIsGuarded(globals);
    ResolvesNothing(Move(FIRST, InProgress, Implementer, globals));
  }

  lemma StartEffect()
    ensures var s := Applied(PLAN, START_BLOCKED);
      Has(s, FIRST, InProgress) && Has(s, SECOND, NotStarted) && s.blockers == [NAMELESS]
  {
  }

  /**
   Starting the first stage while opening a nameless global blocker is accepted. A stage is active
   and none is superseded, and still the second can never start.
   */
  lemma NamelessBlockerEndsDelivery()
    ensures CanRun(PLAN, [START_BLOCKED])
    ensures var s := After(PLAN, [START_BLOCKED]);
      && Has(s, FIRST, InProgress) && Has(s, SECOND, NotStarted) && s.blockers == [NAMELESS]
      && !exists rs :: Delivers(s, rs)
  {
    StartIsAccepted([NAMELESS]);
    PlanMoves(START_BLOCKED);
    StartEffect();
    var s := Applied(PLAN, START_BLOCKED);
    assert NAMELESS in s.blockers && Irresolvable(s.blockers);
    CompletionExact(s);
  }

  // ---- A local blocker without a code ----

  const START: Request := Move(FIRST, InProgress, Implementer, [])
  const BLOCK: Request := Move(FIRST, Blocked, Implementer, []).(addBlockers := [NAMELESS])

  lemma BlockIsAccepted(s: State)
    requires Has(s, FIRST, InProgress) && s.stages[FIRST].reviewStatus == NotRequested
    requires s.stages[FIRST].blockers == [] && s.blockers == []
    ensures Rejection(s, BLOCK).None? && Residual(s.stages[FIRST], BLOCK)
  {
    assert IsSha(ANY_SHA);
    assert GuardRejection(s, BLOCK).None?;
  }

  lemma BlockEffect(s: State)
    requires Has(s, FIRST, InProgress) && s.stages[FIRST].blockers == []
    ensures var t := Applied(s, BLOCK); Has(t, FIRST, Blocked) && t.stages[FIRST].blockers == [NAMELESS]
  {
  }

  /** A stage that is blocked by a nameless blocker of its own is never resumed. */
  lemma NamelessBlockerHoldsItsStage()
    ensures CanRun(PLAN, [START, BLOCK])
    ensures var s := After(PLAN, [START, BLOCK]);
      Has(s, FIRST, Blocked) && s.stages[FIRST].blockers == [NAMELESS] && !exists rs :: Delivers(s, rs)
  {
    StartIsAccepted([]);
    PlanMoves(START);
    var s := Applied(PLAN, START);
    BlockIsAccepted(s);
    MoveIsAccepted(s, BLOCK);
    StepKeepsSerial(s, BLOCK);
    BlockEffect(s);
    var t := Applied(s, BLOCK);
    assert [START, BLOCK][1..] == [BLOCK];
    assert NAMELESS in t.stages[FIRST].blockers && Irresolvable(t.stages[FIRST].blockers);
    CompletionExact(t);
  }
}
