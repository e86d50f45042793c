/**
 Whole runs of the feature-state engine: a run is a sequence of requests, each accepted by the
 writer and leaving a document that passes validation.
 */
module FeatureRuns {
  import opened Support
  import opened PrerequisiteGraph
  import opened FeatureState
  import opened FeatureValidation

  ghost predicate Accepts(s: State, r: Request) {
    Rejection(s, r).None? && SemanticsOk(Applied(s, r))
  }

  ghost predicate CanRun(s: State, rs: seq<Request>)
    decreases |rs|
  {
    rs == [] || (Accepts(s, rs[0]) && CanRun(Applied(s, rs[0]), rs[1..]))
  }

  ghost function After(s: State, rs: seq<Request>): State
    requires CanRun(s, rs)
    decreases |rs|
  {
    if rs == [] then s else After(Applied(s, rs[0]), rs[1..])
  }

  ghost predicate Fresh(s: State) {
    forall id :: id in s.stages ==> s.stages[id].status == NotStarted
  }

  predicate IsActive(status: Status) {
    status in {InProgress, Implemented, Verified, Blocked, ReviewRejected}
  }

  /** Any active stage is the first eligible one, and approvals are closed under prerequisites. */
  ghost predicate Serial(s: State) {
    && (forall id :: id in s.stages && IsActive(s.stages[id].status) ==>
          FirstEligible(s.stages, s.deliveryOrder) == Some(id))
    && (forall id :: id in s.stages && s.stages[id].status == ReviewApproved ==>
          PrerequisitesApproved(s.stages, id))
  }

  // ---- What one accepted step keeps ----

  lemma {:induction false} FirstEligibleDependsOnApprovals(
    a: map<string, Stage>, b: map<string, Stage>, order: seq<string>)
    requires forall id :: id in order ==> (IsEligible(a, id) <==> IsEligible(b, id))
    ensures FirstEligible(a, order) == FirstEligible(b, order)
  {
    if order != [] {
      FirstEligibleDependsOnApprovals(a, b, order[1..]);
    }
  }

  lemma StepKeepsApprovals(s: State, r: Request)
    requires Rejection(s, r).None?
    ensures forall id :: IsApproved(s.stages, id) ==> IsApproved(Applied(s, r).stages, id)
    ensures r.to != ReviewApproved ==>
      forall id :: IsApproved(Applied(s, r).stages, id) ==> IsApproved(s.stages, id)
    ensures r.to != ReviewApproved ==>
      FirstEligible(Applied(s, r).stages, s.deliveryOrder) == FirstEligible(s.stages, s.deliveryOrder)
  {
    var t := Applied(s, r);
    if r.to != ReviewApproved {
      forall id ensures IsEligible(t.stages, id) <==> IsEligible(s.stages, id) {
        assert id in s.stages ==> t.stages[id].prerequisites == s.stages[id].prerequisites;
        assert forall p :: IsApproved(t.stages, p) <==> IsApproved(s.stages, p);
      }
      FirstEligibleDependsOnApprovals(t.stages, s.stages, s.deliveryOrder);
    }
  }

  lemma StepKeepsSerial(s: State, r: Request)
    requires Serial(s) && Rejection(s, r).None?
    ensures Serial(Applied(s, r))
  {
    var t := Applied(s, r);
    StepKeepsApprovals(s, r);
    forall id | id in t.stages && t.stages[id].status == ReviewApproved
      ensures PrerequisitesApproved(t.stages, id)
    {
      assert PrerequisitesApproved(s.stages, id);
      assert t.stages[id].prerequisites == s.stages[id].prerequisites;
    }
    forall id | id in t.stages && IsActive(t.stages[id].status)
      ensures FirstEligible(t.stages, t.deliveryOrder) == Some(id)
    {
      assert t.deliveryOrder == s.deliveryOrder;
    }
  }

  /** The touched stage is the only one that changes, and a settled stage is never touched. */
  lemma StepKeepsSettled(s: State, r: Request, id: string)
    requires Rejection(s, r).None?
    requires id in s.stages && s.stages[id].status in {ReviewApproved, Superseded}
    ensures id in Applied(s, r).stages && Applied(s, r).stages[id] == s.stages[id]
  {
  }

  // ---- Safety over whole runs ----

  lemma {:induction false} RunKeepsSerial(s: State, rs: seq<Request>)
    requires CanRun(s, rs) && Serial(s)
    ensures Serial(After(s, rs))
    decreases |rs|
  {
    if rs != [] {
      StepKeepsSerial(s, rs[0]);
      RunKeepsSerial(Applied(s, rs[0]), rs[1..]);
    }
  }

  /**
   Serial delivery: however a run from a fresh document goes, at most one stage is being worked
   on, and every stage that was ever started has all its prerequisites approved.
   */
  lemma SerialDelivery(s: State, rs: seq<Request>)
    requires CanRun(s, rs) && Fresh(s)
    ensures var t := After(s, rs);
      && (forall a, b :: a in t.stages && b in t.stages ==>
            IsActive(t.stages[a].status) && IsActive(t.stages[b].status) ==> a == b)
      && (forall id :: id in t.stages && t.stages[id].status !in {NotStarted, Superseded} ==>
            PrerequisitesApproved(t.stages, id))
  {
    RunKeepsSerial(s, rs);
    var t := After(s, rs);
    forall id | id in t.stages && t.stages[id].status !in {NotStarted, Superseded}
      ensures PrerequisitesApproved(t.stages, id)
    {
      assert IsActive(t.stages[id].status) || t.stages[id].status == ReviewApproved;
    }
  }

  /** An approved or superseded stage keeps its whole record for ever. */
  lemma {:induction false} SettledForever(s: State, rs: seq<Request>, id: string)
    requires CanRun(s, rs)
    requires id in s.stages && s.stages[id].status in {ReviewApproved, Superseded}
    ensures id in After(s, rs).stages && After(s, rs).stages[id] == s.stages[id]
    decreases |rs|
  {
    if rs != [] {
      StepKeepsSettled(s, rs[0], id);
      SettledForever(Applied(s, rs[0]), rs[1..], id);
    }
  }

  /** A run only ever extends the history, by one entry for each request. */
  lemma {:induction false} HistoryOnlyGrows(s: State, rs: seq<Request>)
    requires CanRun(s, rs)
    ensures s.history <= After(s, rs).history
    ensures |After(s, rs).history| == |s.history| + |rs|
    decreases |rs|
  {
    if rs != [] {
      HistoryOnlyGrows(Applied(s, rs[0]), rs[1..]);
    }
  }

  // ---- Progress ----

  predicate AllApproved(s: State) {
    forall id :: id in s.stages ==> IsApproved(s.stages, id)
  }

  lemma {:induction false} SomeStageIsEligible(s: State, order: seq<string>, n: nat)
    requires SemanticsOk(s) && IsTopologicalOrder(GraphOf(s.stages), order)
    requires n <= |order| && forall i :: 0 <= i < n ==> IsApproved(s.stages, order[i])
    requires !AllApproved(s)
    ensures exists id :: IsEligible(s.stages, id)
    decreases |order| - n
  {
    if n == |order| {
      var id :| id in s.stages && !IsApproved(s.stages, id);
      assert id in GraphOf(s.stages);
    } else {
      var id := order[n];
      assert id in GraphOf(s.stages);
      if IsApproved(s.stages, id) {
        SomeStageIsEligible(s, order, n + 1);
      } else {
        assert StageValid(s.stages.Keys, s.stages[id]);
        assert Obeys(KnownPrerequisites, s.stages.Keys, s.stages[id]);
        forall p | p in s.stages[id].prerequisites ensures IsApproved(s.stages, p) {
          assert Edge(GraphOf(s.stages), id, p);
          assert p in order[..n];
        }
        assert IsEligible(s.stages, id);
      }
    }
  }

  /** In a valid document the scheduler has nothing to offer exactly when work is done or held. */
  lemma NextEligibleExists(s: State)
    requires SemanticsOk(s)
    ensures NextEligible(s).None? <==> HasOpenGlobalBlocker(s) || AllApproved(s)
  {
    if !AllApproved(s) {
      var order :| IsTopologicalOrder(GraphOf(s.stages), order);
      SomeStageIsEligible(s, order, 0);
    }
    if AllApproved(s) && FirstEligible(s.stages, s.deliveryOrder).Some? {
      assert !IsApproved(s.stages, FirstEligible(s.stages, s.deliveryOrder).value);
    }
  }

  // ---- Superseding the first eligible stage ends delivery ----

  ghost predicate OnlySupersedes(s: State, t: State) {
    && t.stages.Keys == s.stages.Keys
    && forall id :: id in s.stages ==>
         t.stages[id] == s.stages[id]
         || (s.stages[id].status == NotStarted && t.stages[id].status == Superseded)
  }

  lemma StalledStep(s: State, r: Request, id: string)
    requires Serial(s) && Rejection(s, r).None?
    requires FirstEligible(s.stages, s.deliveryOrder) == Some(id) && s.stages[id].status == Superseded
    ensures s.stages[r.stageId].status == NotStarted && r.to == Superseded
  {
    assert !IsActive(s.stages[r.stageId].status);
  }

  /**
   Once the first eligible stage is superseded it stays first eligible, and from then on the only
   step any run can take is to supersede further stages that were never started.
   */
  lemma {:induction false} SupersededFocusStalls(s: State, rs: seq<Request>, id: string)
    requires CanRun(s, rs) && Serial(s)
    requires FirstEligible(s.stages, s.deliveryOrder) == Some(id) && s.stages[id].status == Superseded
    ensures FirstEligible(After(s, rs).stages, s.deliveryOrder) == Some(id)
    ensures OnlySupersedes(s, After(s, rs))
    decreases |rs|
  {
    if rs != [] {
      var t := Applied(s, rs[0]);
      StalledStep(s, rs[0], id);
      StepKeepsApprovals(s, rs[0]);
      StepKeepsSerial(s, rs[0]);
      StepKeepsSettled(s, rs[0], id);
      assert t.deliveryOrder == s.deliveryOrder && OnlySupersedes(s, t);
      SupersededFocusStalls(t, rs[1..], id);
    }
  }

  // ---- Completion ----

  predicate NoneSuperseded(s: State) {
    forall id :: id in s.stages ==> s.stages[id].status != Superseded
  }

  predicate SomeActive(s: State) {
    exists id :: id in s.stages && IsActive(s.stages[id].status)
  }

  /** An open blocker with a null code, which no resolution can name. */
  predicate Irresolvable(bs: seq<Blocker>) {
    exists b :: b in bs && IsOpen(b) && b.code.None?
  }

  /** Nothing that still has to be started or resumed waits for a blocker nobody can resolve. */
  predicate NothingHeldForever(s: State) {
    && (Irresolvable(s.blockers) ==> forall id :: id in s.stages ==> s.stages[id].status != NotStarted)
    && forall id :: id in s.stages && s.stages[id].status == Blocked ==> !Irresolvable(s.stages[id].blockers)
  }

  predicate Completable(s: State) {
    && NoneSuperseded(s) && NothingHeldForever(s)
    && (AllApproved(s) || SomeActive(s) || !HasOpenGlobalBlocker(s))
  }

  const ANY_SHA: string := "0000000000000000000000000000000000000000"

  /** A resolution for every blocker that has a code. */
  function ResolveEach(bs: seq<Blocker>): seq<Resolution> {
    if bs == [] then []
    else
      ResolveEach(bs[..|bs| - 1])
      + match bs[|bs| - 1].code
        case None => []
        case Some(code) => [Resolution(code, "resolved")]
  }

  lemma {:induction false} ResolveEachCovers(bs: seq<Blocker>)
    ensures forall b :: b in bs && b.code.Some? ==> exists x :: x in ResolveEach(bs) && Some(x.code) == b.code
    ensures forall x :: x in ResolveEach(bs) ==> HasCode(bs, x.code)
  {
    if bs != [] {
      var front, last := bs[..|bs| - 1], bs[|bs| - 1];
      ResolveEachCovers(front);
      assert bs == front + [last];
      forall x | x in ResolveEach(bs) ensures HasCode(bs, x.code) {
        if x in ResolveEach(front) {
          var b :| b in front && b.code == Some(x.code);
          assert b in bs;
        } else {
          assert last in bs && last.code == Some(x.code);
        }
      }
    }
  }

  /** A reviewer name that differs from the recorded implementer. */
  function OtherThan(implementer: Option<string>): (name: string)
    ensures implementer != Some(name)
  {
    var name := if implementer.Some? then implementer.value + "'" else "";
    assert implementer.Some? ==> |name| == |implementer.value| + 1;
    name
  }

  function Towards(status: Status): Status {
    match status
    case InProgress => Implemented
    case Implemented => Verified
    case Verified => ReviewApproved
    case _ => InProgress
  }

  /** A request that moves the stage one step towards approval and resolves every open blocker. */
  function Advance(s: State, id: string): Request
    requires id in s.stages
  {
    AdvanceFrom(s.stages[id], id, ResolveEach(s.stages[id].blockers), ResolveEach(s.blockers))
  }

  function AdvanceFrom(stage: Stage, id: string, local: seq<Resolution>, globals: seq<Resolution>): Request {
    var review := stage.status == Verified;
    Request(
      id,
      Towards(stage.status),
      "worker",
      if review then Reviewer else if stage.status == ReviewRejected then Remediator else Implementer,
      "advance", "advance", 0, [], None,
      if review then Some(OtherThan(stage.implementer)) else None,
      if review then None else Some(Pending),
      if stage.status == Implemented then Some(Passed) else None,
      if review then Some(ANY_SHA) else None, false,
      if stage.status == NotStarted then Some(ANY_SHA) else None,
      if stage.status == Implemented then ["passed"] else [],
      if review then ["reviewed"] else [],
      None, [], if stage.status == Blocked then local else [], [], globals)
  }

  lemma ResolveEachSettles(bs: seq<Blocker>)
    requires !Irresolvable(bs)
    ensures forall b :: b in ResolveAll(bs, ResolveEach(bs)) ==> !IsOpen(b)
  {
    ResolveEachCovers(bs);
    forall b | b in ResolveAll(bs, ResolveEach(bs)) ensures !IsOpen(b) {
      var i :| 0 <= i < |bs| && b == Resolved(bs[i], ResolveEach(bs));
      assert bs[i] in bs;
    }
  }

  lemma NoBlockerRejection(bs: seq<Blocker>, unknown: Error)
    ensures BlockerRejection(bs, [], ResolveEach(bs), unknown).None?
    ensures BlockerRejection(bs, [], [], unknown).None?
  {
    assert bs + [] == bs;
    ResolveEachCovers(bs);
  }

  lemma AdvanceIsGuarded(s: State, id: string)
    requires Serial(s) && NoneSuperseded(s)
    requires FirstEligible(s.stages, s.deliveryOrder) == Some(id)
    requires s.stages[id].status == NotStarted ==> !HasOpenGlobalBlocker(s)
    requires s.stages[id].status == Blocked ==> !Irresolvable(s.stages[id].blockers)
    ensures GuardRejection(s, Advance(s, id)).None?
  {
    var r := Advance(s, id);
    var stage := s.stages[id];
    assert CheckTransitionLegal(stage.status, r.to, r.role).None?;
    assert stage.status == Blocked ==> BlockersResolved(stage.blockers, r.resolveBlockers) by {
      ResolveEachCovers(stage.blockers);
    }
  }

  lemma AdvanceEditsFreely(s: State, id: string)
    requires id in s.stages
    ensures EditRejection(s, Advance(s, id)).None?
  {
    NoBlockerRejection(s.stages[id].blockers, UnknownBlockerCode);
    NoBlockerRejection(s.blockers, UnknownGlobalBlockerCode);
    assert IsSha(ANY_SHA);
    assert ShaRejection(Advance(s, id)).None?;
  }

  lemma AdvanceNotRejected(s: State, id: string)
    requires Serial(s) && NoneSuperseded(s)
    requires FirstEligible(s.stages, s.deliveryOrder) == Some(id)
    requires s.stages[id].status == NotStarted ==> !HasOpenGlobalBlocker(s)
    requires s.stages[id].status == Blocked ==> !Irresolvable(s.stages[id].blockers)
    ensures Rejection(s, Advance(s, id)).None?
  {
    AdvanceIsGuarded(s, id);
    AdvanceEditsFreely(s, id);
  }

  lemma AdvanceOwesNothing(s: State, id: string)
    requires id in s.stages && s.stages[id].status !in {ReviewApproved, Superseded}
    ensures Residual(s.stages[id], Advance(s, id))
  {
  }

  lemma AdvanceSettlesGlobalBlockers(s: State, id: string)
    requires id in s.stages && !Irresolvable(s.blockers)
    ensures !HasOpenGlobalBlocker(Applied(s, Advance(s, id)))
  {
    ResolveEachSettles(s.blockers);
    assert s.blockers + [] == s.blockers;
  }

  function StepsLeft(status: Status): nat {
    match status
    case NotStarted => 5
    case Blocked => 4
    case ReviewRejected => 4
    case InProgress => 3
    case Implemented => 2
    case _ => 1
  }

  function Unapproved(s: State): set<string> {
    set id | id in s.stages && !IsApproved(s.stages, id)
  }

  function FocusSteps(s: State): nat {
    var focus := FirstEligible(s.stages, s.deliveryOrder);
    if focus.Some? then StepsLeft(s.stages[focus.value].status) else 0
  }

  lemma AdvanceMakesProgress(s: State, id: string)
    requires FirstEligible(s.stages, s.deliveryOrder) == Some(id)
    requires Serial(s) && NoneSuperseded(s) && Rejection(s, Advance(s, id)).None?
    ensures NoneSuperseded(Applied(s, Advance(s, id)))
    ensures var t := Applied(s, Advance(s, id));
      |Unapproved(t)| < |Unapproved(s)|
      || (|Unapproved(t)| == |Unapproved(s)| && FocusSteps(t) < FocusSteps(s))
  {
    var r := Advance(s, id);
    var t := Applied(s, r);
    StepKeepsApprovals(s, r);
    assert t.stages.Keys == s.stages.Keys && t.stages[id].status == r.to;
    AdvanceLeavesLess(s.stages[id].status);
    if r.to == ReviewApproved {
      ApprovalShrinks(s, t, id);
    } else {
      SameApprovals(s, t);
    }
  }

  lemma AdvanceLeavesLess(status: Status)
    requires status !in {ReviewApproved, Superseded}
    ensures Towards(status) != Superseded
    ensures Towards(status) == ReviewApproved || StepsLeft(Towards(status)) < StepsLeft(status)
  {
  }

  lemma SameApprovals(s: State, t: State)
    requires t.stages.Keys == s.stages.Keys && forall k :: IsApproved(t.stages, k) <==> IsApproved(s.stages, k)
    ensures Unapproved(t) == Unapproved(s)
  {
  }

  lemma ApprovalShrinks(s: State, t: State, id: string)
    requires id in s.stages && t.stages.Keys == s.stages.Keys && IsApproved(t.stages, id) && !IsApproved(s.stages, id)
    requires forall k :: IsApproved(s.stages, k) ==> IsApproved(t.stages, k)
    ensures |Unapproved(t)| < |Unapproved(s)|
  {
    assert id in Unapproved(s) && id !in Unapproved(t);
    SubsetSmaller(Unapproved(t), Unapproved(s));
  }

  /** t is s with the one stage id moved on, to be worked on or approved. */
  predicate MovedOn(s: State, t: State, id: string) {
    && id in s.stages && t.stages.Keys == s.stages.Keys
    && (forall k :: k in s.stages && k != id ==> t.stages[k] == s.stages[k])
    && t.stages[id].status in {InProgress, Implemented, Verified, ReviewApproved}
  }

  lemma AdvanceMovesOn(s: State, id: string)
    requires id in s.stages && s.stages[id].status !in {ReviewApproved, Superseded}
    ensures MovedOn(s, Applied(s, Advance(s, id)), id)
  {
    assert Applied(s, Advance(s, id)).stages == s.stages[id := NewStage(s.stages[id], Advance(s, id))];
  }

  /** Moving the focus of a completable document on leaves it completable. */
  lemma MovedOnKeepsCompletable(s: State, t: State, id: string)
    requires Serial(s) && Completable(s) && FirstEligible(s.stages, s.deliveryOrder) == Some(id)
    requires MovedOn(s, t, id) && (!Irresolvable(s.blockers) ==> !HasOpenGlobalBlocker(t))
    ensures Completable(t)
  {
    if Irresolvable(s.blockers) {
      forall k | k in s.stages && k != id ensures IsApproved(t.stages, k) {
        assert !IsActive(s.stages[k].status);
      }
      assert IsActive(t.stages[id].status) || IsApproved(t.stages, id);
    }
  }

  lemma AdvanceKeepsCompletable(s: State, id: string)
    requires Serial(s) && Completable(s) && FirstEligible(s.stages, s.deliveryOrder) == Some(id)
    ensures Completable(Applied(s, Advance(s, id)))
  {
    AdvanceMovesOn(s, id);
    if !Irresolvable(s.blockers) {
      AdvanceSettlesGlobalBlockers(s, id);
    }
    MovedOnKeepsCompletable(s, Applied(s, Advance(s, id)), id);
  }

  lemma {:induction false} CompletionSchedule(s: State) returns (rs: seq<Request>)
    requires SemanticsOk(s) && Serial(s) && Completable(s)
    ensures CanRun(s, rs) && AllApproved(After(s, rs))
    decreases |Unapproved(s)|, FocusSteps(s)
  {
    if AllApproved(s) {
      return [];
    }
    var id := FocusOf(s);
    var r := Advance(s, id);
    AdvanceNotRejected(s, id);
    AdvanceOwesNothing(s, id);
    ValidityPreservedExactly(s, r);
    AdvanceKeepsCompletable(s, id);
    AdvanceMakesProgress(s, id);
    StepKeepsSerial(s, r);
    var rest := CompletionSchedule(Applied(s, r));
    rs := [r] + rest;
    assert rs[1..] == rest;
  }

  lemma SubsetSmaller(a: set<string>, b: set<string>)
    requires a < b
    ensures |a| < |b|
  {
    var rest := b - a;
    assert b == a + rest && |b| == |a| + |rest|;
    var x :| x in rest;
  }

  lemma FocusOf(s: State) returns (id: string)
    requires SemanticsOk(s) && Serial(s) && Completable(s) && !AllApproved(s)
    ensures FirstEligible(s.stages, s.deliveryOrder) == Some(id)
    ensures s.stages[id].status == NotStarted ==> !HasOpenGlobalBlocker(s)
  {
    if SomeActive(s) {
      id :| id in s.stages && IsActive(s.stages[id].status);
    } else {
      NextEligibleExists(s);
      id := NextEligible(s).value;
    }
  }

  /** With a global blocker open and no active stage, superseding is the only edge. */
  lemma HeldStep(s: State, r: Request)
    requires !SomeActive(s) && HasOpenGlobalBlocker(s) && Rejection(s, r).None?
    ensures r.to == Superseded
  {
    assert !IsActive(s.stages[r.stageId].status);
  }

  lemma IrresolvableStays(bs: seq<Blocker>, added: seq<Blocker>, rs: seq<Resolution>)
    requires Irresolvable(bs)
    ensures Irresolvable(ResolveAll(bs + added, rs))
  {
    var b :| b in bs && IsOpen(b) && b.code.None?;
    var i :| 0 <= i < |bs| && bs[i] == b;
    assert ResolveAll(bs + added, rs)[i] == b;
  }

  /** The stage can never be approved: superseded, or waiting for a blocker nobody can resolve. */
  predicate HeldForever(s: State, id: string)
    requires id in s.stages
  {
    || s.stages[id].status == Superseded
    || (s.stages[id].status == NotStarted && Irresolvable(s.blockers))
    || (s.stages[id].status == Blocked && Irresolvable(s.stages[id].blockers))
  }

  lemma StepKeepsHeld(s: State, r: Request, id: string)
    requires Rejection(s, r).None? && id in s.stages && HeldForever(s, id)
    ensures id in Applied(s, r).stages && HeldForever(Applied(s, r), id)
  {
    var t := Applied(s, r);
    if Irresolvable(s.blockers) {
      IrresolvableStays(s.blockers, r.addGlobalBlockers, r.resolveGlobalBlockers);
      assert HasOpenGlobalBlocker(s);
    }
    if r.stageId == id && Irresolvable(s.stages[id].blockers) {
      IrresolvableStays(s.stages[id].blockers, r.addBlockers, r.resolveBlockers);
      assert !BlockersResolved(s.stages[id].blockers, r.resolveBlockers);
    }
  }

  lemma {:induction false} RunKeepsHeld(s: State, rs: seq<Request>, id: string)
    requires CanRun(s, rs) && id in s.stages && HeldForever(s, id)
    ensures id in After(s, rs).stages && HeldForever(After(s, rs), id)
    decreases |rs|
  {
    if rs != [] {
      StepKeepsHeld(s, rs[0], id);
      RunKeepsHeld(Applied(s, rs[0]), rs[1..], id);
    }
  }

  lemma CompletionNeeds(s: State, rs: seq<Request>)
    requires CanRun(s, rs) && AllApproved(After(s, rs))
    ensures Completable(s)
  {
    forall id | id in s.stages ensures !HeldForever(s, id) {
      if HeldForever(s, id) {
        RunKeepsHeld(s, rs, id);
      }
    }
    if rs != [] && !SomeActive(s) && HasOpenGlobalBlocker(s) {
      var t, id := Applied(s, rs[0]), rs[0].stageId;
      HeldStep(s, rs[0]);
      assert t.stages[id].status == Superseded;
      SettledForever(t, rs[1..], id);
    }
  }

  ghost predicate Delivers(s: State, rs: seq<Request>) {
    CanRun(s, rs) && AllApproved(After(s, rs))
  }

  /**
   A valid, serial document can still be driven to full approval exactly when no stage is
   superseded, nothing to be started or resumed waits for an open blocker without a code and,
   unless everything is approved, some stage is active or no global blocker is open.
   */
  lemma CompletionExact(s: State)
    requires SemanticsOk(s) && Serial(s)
    ensures (exists rs :: Delivers(s, rs)) <==> Completable(s)
  {
    if Completable(s) {
      var rs := CompletionSchedule(s);
      assert Delivers(s, rs);
    }
    forall rs | Delivers(s, rs) ensures Completable(s) {
      CompletionNeeds(s, rs);
    }
  }
}
