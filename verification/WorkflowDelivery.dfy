/**
 Which sessions can still be delivered: exactly those from which some life of the workflow, with no
 clock reading before the present, leads to an open pull request, and on to the end.
 */
module WorkflowDelivery {
  import opened Support
  import opened WorkflowSessions
  import opened ImplementerRun
  import opened WorkflowLife
  import ApprovalPolicies
  import Approvals
  import ApprovalLifecycle
  import ActionRuns
  import MergeCloseout

  // ---- Lives from now on ----

  predicate CallNotBefore(call: ApprovalLifecycle.Call, now: int) {
    match call
    case RequestCall(_, _, _, _, at) => now <= at
    case DecideCall(_, _, _, _, evaluatedAt, recordedAt) => now <= evaluatedAt && now <= recordedAt
    case EvaluateCall(_, at) => now <= at
    case ConsumeCall(_, _, at) => now <= at
    case CutShortCall(_, at) => now <= at
  }

  predicate WorldNotBefore(w: World, now: int) {
    now <= w.requestedAt && now <= w.evaluatedAt && now <= w.consumedAt
  }

  predicate NotBefore(a: Action, now: int) {
    match a
    case Drive(_, w) => WorldNotBefore(w, now)
    case DieInGate(_, w, _) => WorldNotBefore(w, now)
    case Service(call) => CallNotBefore(call, now)
    case _ => true
  }

  /** No clock reads before now, and where legible is set, every QA report that is looked for can be read. */
  datatype Terms = Terms(now: int, legible: bool)

  predicate ReadsReports(a: Action) {
    match a
    case Drive(_, w) => w.qaRead
    case Merge(_, visit) => visit.qaRead
    case _ => true
  }

  predicate Within(a: Action, terms: Terms) {
    NotBefore(a, terms.now) && (terms.legible ==> ReadsReports(a))
  }

  function NextFromOf(id: string, terms: Terms, s: Durable, a: Action): Option<Durable> {
    if Within(a, terms) then NextOf(id, s, a) else None
  }

  function NextFrom(id: string, terms: Terms): (Durable, Action) -> Option<Durable> {
    (s: Durable, a: Action) => NextFromOf(id, terms, s, a)
  }

  /** Some life on these terms comes to this state. */
  ghost predicate CanReach(id: string, s: Durable, terms: Terms, goal: WState) {
    exists actions :: Leads(id, s, terms, actions, goal)
  }

  ghost predicate Leads(id: string, s: Durable, terms: Terms, actions: seq<Action>, goal: WState) {
    && ActionRuns.Runs(NextFrom(id, terms), s, actions)
    && ActionRuns.After(NextFrom(id, terms), s, actions).data.state == goal
  }

  // ---- The condition ----

  /** Someone may decide: an empty list admits everyone, an empty name nobody. */
  predicate IsDecidable(p: ApprovalPolicies.ApprovalPolicy) {
    p.approvers == [] || exists name :: name in p.approvers && name != ""
  }

  /** Waiting alone approves it. */
  predicate ApprovesItself(v: Approvals.Approval) {
    && v.deadline.Some?
    && match v.status
       case Pending =>
         || v.policy.timeoutAction == ApprovalPolicies.AutoApprove
         || (v.policy.timeoutAction == ApprovalPolicies.Escalate
             && v.policy.fallbackAction == ApprovalPolicies.AutoApprove)
       case Escalated => v.policy.fallbackAction == ApprovalPolicies.AutoApprove
       case _ => false
  }

  /** The next look at it ends it. */
  predicate IsLost(v: Approvals.Approval, now: int) {
    Approvals.IsDue(v, now) && Approvals.GoverningAction(v) in {ApprovalPolicies.Fail, ApprovalPolicies.Cancel}
  }

  predicate IsOpen(v: Approvals.Approval, now: int) {
    !Approvals.IsTerminal(v.status) && ((IsDecidable(v.policy) && !IsLost(v, now)) || ApprovesItself(v))
  }

  predicate Approvable(v: Approvals.Approval, now: int) {
    v.status in {Approvals.Approved, Approvals.Consumed} || IsOpen(v, now)
  }

  predicate GateOpenable(id: string, log: Approvals.Log, now: int) {
    var current := Approvals.Current(log, id);
    if current.Ok? then Approvable(current.value, now) else current.error == Approvals.NotFound && id != ""
  }

  predicate HasRoom(a: Attempts) {
    !a.open && a.completed < ATTEMPT_LIMIT
  }

  /** An attempt is left after any open one is closed, or a crashed one left its report and may leave its diff. */
  predicate Implementable(d: SessionData) {
    var a := Of(d, Implementing);
    Started(a) < ATTEMPT_LIMIT || (a.open && d.stageReport)
  }

  predicate HasDeliveryRoom(d: SessionData) {
    HasRoom(Of(d, ReadyToCommit)) && HasRoom(Of(d, Committed)) && HasRoom(Of(d, Pushed))
  }

  predicate BeforeCommit(s: WState) {
    s in {Created, Authorized, PreconditionsChecked, BranchCreated, Implementing, Validating, QaRunning,
          Repairing, ReadyToCommit}
  }

  /** What the session itself must have left. */
  predicate HasWayOut(d: SessionData) {
    match d.state
    case Created | Authorized | PreconditionsChecked | BranchCreated | Implementing =>
      Implementable(d) && HasDeliveryRoom(d)
    case Validating => d.stageReport && HasDeliveryRoom(d)
    case QaRunning | ReadyToCommit => HasDeliveryRoom(d)
    case Repairing =>
      && !d.repair.open && d.repair.completed < ATTEMPT_LIMIT && d.repair.completed + 1 in d.failureReports
      && HasDeliveryRoom(d)
    case Committed => HasRoom(Of(d, Committed)) && HasRoom(Of(d, Pushed))
    case Pushed => HasRoom(Of(d, Pushed))
    case PrOpen => true
    case _ => false
  }

  predicate Deliverable(id: string, s: Durable, now: int) {
    HasWayOut(s.data) && (BeforeCommit(s.data.state) ==> GateOpenable(id, s.log, now))
  }

  /** The last QA report, if there is one, approves. */
  predicate IsMergeable(d: SessionData) {
    LatestVerdict(d.qa) != Some(false)
  }

  predicate IsFreshRound(d: SessionData) {
    Round(d) !in d.qa && Round(d) !in d.asked
  }

  /**
   The merge can still find an approving last report or none: none rejects now, or this round or one after
   another repair can still be reviewed.
   */
  predicate ReviewCanPass(d: SessionData) {
    match d.state
    case Created | Authorized | PreconditionsChecked | BranchCreated | Implementing | Validating | QaRunning =>
      IsMergeable(d) || IsFreshRound(d) || d.repair.completed < ATTEMPT_LIMIT
    case ReadyToCommit | Committed | Pushed | PrOpen => IsMergeable(d)
    case _ => true
  }

  /** Still to be delivered with a review that the merge accepts, or on the way from the merge to the end. */
  predicate Finishable(id: string, s: Durable, terms: Terms) {
    IsMerging(s.data.state) || (Deliverable(id, s, terms.now) && (terms.legible ==> ReviewCanPass(s.data)))
  }

  // ---- No call makes an approval possible again ----

  lemma TimeoutGivesNothingBack(v: Approvals.Approval, at: int, now: int)
    requires now <= at && Approvals.IsDue(v, at)
    requires Approvable(ApprovalLifecycle.TimedOutView(v, at), now)
    ensures IsOpen(v, now) && !IsLost(v, now)
  {
    ApprovalLifecycle.TimeoutEventsAreLegal(v, at);
    ApprovalLifecycle.TimedOutStatus(v, at);
  }

  lemma EvaluationGivesNothingBack(id: string, log: Approvals.Log, at: int, now: int)
    requires ApprovalLifecycle.WellKept(log) && now <= at
    requires GateOpenable(id, Approvals.Evaluating(log, id, at).0, now)
    ensures GateOpenable(id, log, now)
  {
    if ApprovalLifecycle.Fires(log, id, at) {
      ApprovalLifecycle.DeadlineFires(log, id, at);
      TimeoutGivesNothingBack(Approvals.Current(log, id).value, at, now);
    }
  }

  lemma CutShortGivesNothingBack(id: string, log: Approvals.Log, at: int, now: int)
    requires ApprovalLifecycle.WellKept(log) && now <= at
    requires GateOpenable(id, Approvals.CutShort(log, id, at).0, now)
    ensures GateOpenable(id, log, now)
  {
    ApprovalLifecycle.CutShortWritesExactly(log, id, at);
    if ApprovalLifecycle.LosesExtension(log, id, at) {
      ApprovalLifecycle.CutShortEscalates(log, id, at);
    }
  }

  /** A fired deadline ends an approval exactly where failing or cancelling governs it. */
  lemma TimeoutEndsExactly(v: Approvals.Approval, at: int)
    requires Approvals.IsDue(v, at)
    ensures var w := ApprovalLifecycle.TimedOutView(v, at);
      && w.policy == v.policy
      && (Approvals.IsTerminal(w.status) <==>
            Approvals.GoverningAction(v) in {ApprovalPolicies.Fail, ApprovalPolicies.Cancel})
  {
    ApprovalLifecycle.TimeoutEventsAreLegal(v, at);
    ApprovalLifecycle.TimedOutStatus(v, at);
  }

  /** An evaluation that leaves the approval undecided did not end it. */
  lemma UndecidedIsNotLost(id: string, log: Approvals.Log, at: int, now: int)
    requires ApprovalLifecycle.WellKept(log) && now <= at
    requires var current := Approvals.Evaluating(log, id, at).1;
      current.Ok? && !Approvals.IsTerminal(current.value.status)
    ensures var v := Approvals.Current(log, id);
      && v.Ok? && !Approvals.IsTerminal(v.value.status) && !IsLost(v.value, now)
      && v.value.policy == Approvals.Evaluating(log, id, at).1.value.policy
  {
    if ApprovalLifecycle.Fires(log, id, at) {
      ApprovalLifecycle.DeadlineFires(log, id, at);
      TimeoutEndsExactly(Approvals.Current(log, id).value, at);
    }
  }

  lemma DecisionGivesNothingBack(id: string, log: Approvals.Log, call: ApprovalLifecycle.Call, now: int)
    requires ApprovalLifecycle.WellKept(log) && call.DecideCall? && call.id == id && CallNotBefore(call, now)
    requires GateOpenable(id, ApprovalLifecycle.Perform(log, call).0, now)
    ensures GateOpenable(id, log, now)
  {
    var (log', current) := Approvals.Evaluating(log, id, call.evaluatedAt);
    if ApprovalLifecycle.Perform(log, call).0 == log' {
      EvaluationGivesNothingBack(id, log, call.evaluatedAt, now);
    } else {
      var approvers := current.value.policy.approvers;
      assert call.approver != "" && (approvers == [] || call.approver in approvers);
      UndecidedIsNotLost(id, log, call.evaluatedAt, now);
      assert IsDecidable(current.value.policy);
    }
  }

  lemma ConsumptionGivesNothingBack(id: string, log: Approvals.Log, call: ApprovalLifecycle.Call, now: int)
    requires ApprovalLifecycle.WellKept(log) && call.ConsumeCall? && call.id == id && CallNotBefore(call, now)
    requires GateOpenable(id, ApprovalLifecycle.Perform(log, call).0, now)
    ensures GateOpenable(id, log, now)
  {
    var (log', current) := Approvals.Evaluating(log, id, call.now);
    if ApprovalLifecycle.Perform(log, call).0 != log' {
      ApprovalLifecycle.EvaluatingKeepsWellKept(log, id, call.now);
      assert current.Ok? && current.value.status == Approvals.Approved;
    }
    EvaluationGivesNothingBack(id, log, call.now, now);
  }

  lemma CallGivesNothingBack(id: string, log: Approvals.Log, call: ApprovalLifecycle.Call, now: int)
    requires ApprovalLifecycle.WellKept(log) && CallNotBefore(call, now)
    requires GateOpenable(id, ApprovalLifecycle.Perform(log, call).0, now)
    ensures GateOpenable(id, log, now)
  {
    if call.id != id {
      ApprovalLifecycle.CallsDoNotInterfere(log, call, id);
    } else {
      match call
      case RequestCall(_, _, _, _, _) =>
      case EvaluateCall(_, at) => EvaluationGivesNothingBack(id, log, at, now);
      case CutShortCall(_, at) => CutShortGivesNothingBack(id, log, at, now);
      case DecideCall(_, _, _, _, _, _) => DecisionGivesNothingBack(id, log, call, now);
      case ConsumeCall(_, _, _) => ConsumptionGivesNothingBack(id, log, call, now);
    }
  }

  lemma {:induction false} CallsGiveNothingBack(
    id: string, log: Approvals.Log, calls: seq<ApprovalLifecycle.Call>, now: int)
    requires ApprovalLifecycle.WellKept(log) && forall call :: call in calls ==> CallNotBefore(call, now)
    requires GateOpenable(id, ApprovalLifecycle.AfterCalls(log, calls), now)
    ensures GateOpenable(id, log, now)
  {
    if calls != [] {
      var front, last := calls[..|calls| - 1], calls[|calls| - 1];
      ApprovalLifecycle.CallsKeepWellKept(log, front);
      CallGivesNothingBack(id, ApprovalLifecycle.AfterCalls(log, front), last, now);
      CallsGiveNothingBack(id, log, front, now);
    }
  }

  lemma SpendCallsNotBefore(log: Approvals.Log, id: string, checksums: Approvals.Checksums, w: World, now: int)
    requires WorldNotBefore(w, now)
    ensures forall call :: call in SpendCalls(log, id, checksums, w) ==> CallNotBefore(call, now)
  {
  }

  lemma GateCallsNotBefore(c: Config, log: Approvals.Log, w: World, now: int)
    requires WorldNotBefore(w, now)
    ensures forall call :: call in GateCalls(c, log, w) ==> CallNotBefore(call, now)
  {
    if w.checksums.Some? {
      SpendCallsNotBefore(log, c.approvalId, w.checksums.value, w, now);
      if c.policy.Ok? {
        var log' := ApprovalLifecycle.Perform(log, RequestOf(c, w)).0;
        SpendCallsNotBefore(log', c.approvalId, w.checksums.value, w, now);
      }
    }
  }

  // ---- No step makes a delivery possible again ----

  lemma TryUsesRoom(a: Attempts, w: World)
    requires !a.open
    ensures var tried := TryFrom(a, w);
      && a.completed <= tried.attempts.completed
      && (tried.attempts.open || tried.ending != Unusable ==> a.completed < ATTEMPT_LIMIT)
  {
    TryStopsAtFirstUseful(a, w);
  }

  /** Attempts at the implementation come out only if there was room for one. */
  lemma AttemptsNeedRoom(d: SessionData, w: World)
    requires d.state == Implementing && !Of(d, Implementing).open
    requires HasWayOut(Attempting(d, Implementing, Validating, w).data)
    ensures HasRoom(Of(d, Implementing)) && HasDeliveryRoom(d)
  {
    var tried := TryFrom(Of(d, Implementing), w);
    TryUsesRoom(Of(d, Implementing), w);
    assert HasDeliveryRoom(With(d, Implementing, tried.attempts)) <==> HasDeliveryRoom(d);
  }

  lemma ImplementGivesNothingBack(d: SessionData, w: World)
    requires d.state == Implementing && HasWayOut(Implement(d, w).data)
    ensures HasWayOut(d)
  {
    if Of(d, Implementing).open {
      var closed := Closed(d, Implementing);
      assert HasDeliveryRoom(closed) <==> HasDeliveryRoom(d);
      if !w.aborts && !w.leftDiff {
        AttemptsNeedRoom(closed, w);
      }
    } else if Of(d, Implementing).completed < ATTEMPT_LIMIT {
      AttemptsNeedRoom(d, w);
    }
  }

  /** What the attempts of a state leave the states behind it. */
  lemma RecordedWayOut(d: SessionData, s: WState, forward: WState, a: Attempts)
    requires d.state == s && SideEffect(s, forward)
    ensures HasWayOut(Move(With(d, s, a), forward)) && HasRoom(Of(d, s)) ==> HasWayOut(d)
    ensures HasWayOut(With(d, s, a)) && HasRoom(Of(d, s)) ==> HasWayOut(d)
  {
  }

  /** So do attempts at the commit, the push and the pull request. */
  lemma DeliveryNeedsRoom(d: SessionData, s: WState, forward: WState, w: World)
    requires d.state == s && SideEffect(s, forward) && !Of(d, s).open
    requires HasWayOut(Attempting(d, s, forward, w).data)
    ensures HasWayOut(d)
  {
    var tried := TryFrom(Of(d, s), w);
    TryUsesRoom(Of(d, s), w);
    RecordedWayOut(d, s, forward, tried.attempts);
    var done := With(d, s, tried.attempts);
    assert Attempting(d, s, forward, w).data ==
      match tried.ending
      case Usable => Move(done, forward)
      case Unusable => Move(done, Failed)
      case Aborts(_) => done;
  }

  lemma DeliverGivesNothingBack(d: SessionData, s: WState, forward: WState, w: World)
    requires d.state == s && SideEffect(s, forward) && HasWayOut(Deliver(d, s, forward, w).data)
    ensures HasWayOut(d)
  {
    if !Of(d, s).open {
      DeliveryNeedsRoom(d, s, forward, w);
    }
  }

  lemma RepairGivesNothingBack(d: SessionData, w: World)
    requires d.state == Repairing && HasWayOut(Repair(d, w).data)
    ensures HasWayOut(d)
  {
  }

  /** The states that make no attempt of their own leave every count as it was. */
  lemma CheckGivesNothingBack(d: SessionData, w: World, qaRequired: bool)
    requires d.state in {Authorized, PreconditionsChecked, BranchCreated}
    requires HasWayOut(React(d, w, qaRequired).data)
    ensures HasWayOut(d)
  {
  }

  lemma ValidationGivesNothingBack(d: SessionData, w: World)
    requires d.state == Validating && HasWayOut(Validate(d, w).data)
    ensures HasWayOut(d)
  {
    if d.stageReport && w.validation == Repairable {
      RepairOrFailKeepsRoom(d, w);
    }
  }

  lemma VerdictGivesNothingBack(d: SessionData, w: World, approved: bool)
    requires d.state == QaRunning && HasWayOut(ConcludeQa(d, w, approved).data)
    ensures HasWayOut(d)
  {
    RepairOrFailKeepsRoom(d, w);
  }

  lemma RunReviewGivesNothingBack(d: SessionData, w: World)
    requires d.state == QaRunning && HasWayOut(RunReview(d, w).data)
    ensures HasWayOut(d)
  {
    var next := Reviewed(d, w);
    assert HasDeliveryRoom(next) <==> HasDeliveryRoom(d);
    if !w.qaAborts {
      VerdictGivesNothingBack(next, w, Approving(d, w));
    }
  }

  lemma ReviewGivesNothingBack(d: SessionData, w: World, qaRequired: bool)
    requires d.state == QaRunning && HasWayOut(ReviewQa(d, w, qaRequired).data)
    ensures HasWayOut(d)
  {
    if !qaRequired {
      assert ReviewQa(d, w, qaRequired) == ConcludeQa(d, w, true);
      VerdictGivesNothingBack(d, w, true);
    } else if ReadBack(d, w) {
      assert ReviewQa(d, w, qaRequired) == ConcludeQa(d, w, d.qa[Round(d)]);
      VerdictGivesNothingBack(d, w, d.qa[Round(d)]);
    } else {
      assert ReviewQa(d, w, qaRequired) == RunReview(d, w);
      RunReviewGivesNothingBack(d, w);
    }
  }

  lemma RepairOrFailKeepsRoom(d: SessionData, w: World)
    ensures HasDeliveryRoom(RepairOrFail(d, w).data) <==> HasDeliveryRoom(d)
  {
  }

  lemma ReactGivesNothingBack(d: SessionData, w: World, qaRequired: bool)
    requires Consistent(d) && d.state != ReadyToCommit && HasWayOut(React(d, w, qaRequired).data)
    ensures HasWayOut(d)
  {
    match d.state
    case Authorized | PreconditionsChecked | BranchCreated => CheckGivesNothingBack(d, w, qaRequired);
    case Implementing => ImplementGivesNothingBack(d, w);
    case Validating => ValidationGivesNothingBack(d, w);
    case QaRunning => ReviewGivesNothingBack(d, w, qaRequired);
    case Repairing => RepairGivesNothingBack(d, w);
    case Committed => DeliverGivesNothingBack(d, Committed, Pushed, w);
    case Pushed => DeliverGivesNothingBack(d, Pushed, PrOpen, w);
    case _ =>
  }

  /** Only the gate leads behind the commit, and no step of this driver into the merge. */
  lemma DriveStaysBefore(c: Config, s: Durable, w: World)
    requires Consistent(s.data)
    ensures var to := StepOf(c, s, w).0.data.state;
      && (BeforeCommit(to) || IsMerging(to) ==> BeforeCommit(s.data.state) == BeforeCommit(to))
      && (s.data.state != ReadyToCommit && BeforeCommit(s.data.state) ==> BeforeCommit(to) || to == Failed)
      && (IsMerging(to) ==> to == s.data.state)
  {
    StepStaysOrMoves(c, s, w);
    var to := StepOf(c, s, w).0.data.state;
    if to != s.data.state {
      OnlyWayIn(s.data.state, to);
      EdgesBefore(s.data.state, to);
    }
  }

  lemma EdgesBefore(from: WState, to: WState)
    requires Allowed(from, to)
    ensures BeforeCommit(to) ==> BeforeCommit(from)
    ensures BeforeCommit(from) && to !in {Failed, Cancelled} ==>
      BeforeCommit(to) || (from == ReadyToCommit && to == Committed)
    ensures !BeforeCommit(from) ==> to != Cancelled
    ensures IsDriven(from) && to == Cancelled ==> from in {Authorized, PreconditionsChecked, BranchCreated}
  {
  }

  lemma SpentIsOpenable(id: string, log: Approvals.Log, now: int)
    requires IsConsumed(log, id)
    ensures GateOpenable(id, log, now)
  {
  }

  /** What a visit leaves of the session and of the log. */
  lemma VisitGivesNothingBack(d: SessionData, w: World, g: GateAnswer)
    requires d.state == ReadyToCommit && HasWayOut(Commit(d, w, g).data)
    ensures HasWayOut(d) && (Commit(d, w, g).data.state == ReadyToCommit || Opens(g))
  {
    if Opens(g) {
      assert Commit(d, w, g) == Deliver(d, ReadyToCommit, Committed, w);
      DeliverGivesNothingBack(d, ReadyToCommit, Committed, w);
    } else {
      OnlySpentCommits(d, w, g);
      assert Commit(d, w, g).data == d || Commit(d, w, g).data == Move(d, Failed);
    }
  }

  lemma GatingGivesNothingBack(c: Config, log: Approvals.Log, w: World, now: int)
    requires ApprovalLifecycle.WellKept(log) && WorldNotBefore(w, now)
    requires var (log', g) := Gating(log, c.approvalId, c.policy, w);
      GateOpenable(c.approvalId, log', now) || Opens(g)
    ensures GateOpenable(c.approvalId, log, now)
  {
    var (log', g) := Gating(log, c.approvalId, c.policy, w);
    GatingIsOk(log, c.approvalId, c.policy, w);
    if Opens(g) {
      SpentIsOpenable(c.approvalId, log', now);
    }
    GatingIsItsCalls(c, log, w);
    GateCallsNotBefore(c, log, w, now);
    CallsGiveNothingBack(c.approvalId, log, GateCalls(c, log, w), now);
  }

  lemma CommitGivesNothingBack(c: Config, s: Durable, w: World, now: int)
    requires Sane(c.approvalId, s) && s.data.state == ReadyToCommit && WorldNotBefore(w, now)
    requires Deliverable(c.approvalId, StepOf(c, s, w).0, now)
    ensures Deliverable(c.approvalId, s, now)
  {
    VisitGivesNothingBack(s.data, w, Gating(s.log, c.approvalId, c.policy, w).1);
    GatingGivesNothingBack(c, s.log, w, now);
  }

  // ---- No step makes an acceptable review possible again ----

  /** A round that is on disk is the latest, since no later one has begun. */
  lemma RoundIsLatest(d: SessionData)
    requires RoundsKept(d) && Round(d) in d.qa
    ensures LatestVerdict(d.qa) == Some(d.qa[Round(d)])
  {
    forall other | other in d.qa ensures other <= Round(d) {
      assert other in d.qa.Keys + d.asked;
    }
    assert IsLatest(d.qa, Round(d));
  }

  lemma ReviewIsLatest(d: SessionData, w: World)
    requires RoundsKept(d) && Round(d) !in d.qa && w.qaReported
    ensures LatestVerdict(Reviewed(d, w).qa) == Some(Approving(d, w))
  {
    ReviewKeepsRounds(d, w);
    RoundIsLatest(Reviewed(d, w));
  }

  /** What a review leaves is mergeable only if the session was, or if the round was fresh. */
  lemma ReviewedGivesNothingBack(d: SessionData, w: World)
    requires RoundsKept(d) && !ReadBack(d, w) && w.qaRead
    ensures IsMergeable(Reviewed(d, w)) ==> IsMergeable(d) || IsFreshRound(d)
    ensures IsFreshRound(Reviewed(d, w)) ==> IsFreshRound(d)
  {
    if w.qaReported {
      ReviewIsLatest(d, w);
    }
  }

  /** The step from QA_RUNNING, with every report read. */
  lemma ReviewPassesBack(d: SessionData, w: World, qaRequired: bool)
    requires d.state == QaRunning && RoundsKept(d) && w.qaRead
    requires var e := ReviewQa(d, w, qaRequired).data;
      ReviewCanPass(e) && e.state in {QaRunning, ReadyToCommit, Repairing}
    ensures ReviewCanPass(d)
  {
    var e := ReviewQa(d, w, qaRequired).data;
    ReviewWrites(d, w, qaRequired);
    if !ReadBack(d, w) {
      ReviewedGivesNothingBack(d, w);
    }
    if e.state == Repairing {
      GatesDecideRepair(d, w, qaRequired);
    }
  }

  lemma GatesDecideRepair(d: SessionData, w: World, qaRequired: bool)
    requires d.state in {Validating, QaRunning} && React(d, w, qaRequired).data.state == Repairing
    ensures d.repair.completed < ATTEMPT_LIMIT
  {
    GatesDecide(d, w, qaRequired);
  }

  /** Steps elsewhere leave the reviews alone, and the round too unless a repair is concluded. */
  lemma ReactKeepsRound(d: SessionData, w: World, qaRequired: bool)
    requires Consistent(d) && d.state !in {QaRunning, Repairing, ReadyToCommit}
    ensures SameReports(d, React(d, w, qaRequired).data) && Round(React(d, w, qaRequired).data) == Round(d)
  {
    ReactMeetsSpec(d, w, qaRequired);
    ReactKeepsReports(d, w, qaRequired);
  }

  lemma SameReportsSameReview(d: SessionData, e: SessionData)
    requires SameReports(d, e) && Round(e) == Round(d)
    ensures IsMergeable(d) <==> IsMergeable(e)
    ensures IsFreshRound(d) <==> IsFreshRound(e)
  {
  }

  lemma ReactPassesBack(c: Config, s: Durable, w: World)
    requires Consistent(s.data) && RoundsKept(s.data) && w.qaRead
    requires s.data.state != ReadyToCommit && HasWayOut(StepOf(c, s, w).0.data)
    requires ReviewCanPass(StepOf(c, s, w).0.data)
    ensures ReviewCanPass(s.data)
  {
    var d, e := s.data, StepOf(c, s, w).0.data;
    DriveStaysBefore(c, s, w);
    if d.state == QaRunning {
      StepStaysOrMoves(c, s, w);
      ReviewPassesBack(d, w, c.qaRequired);
    } else if d.state != Repairing {
      ReactKeepsRound(d, w, c.qaRequired);
      SameReportsSameReview(d, e);
      StepStaysOrMoves(c, s, w);
      if e.state == Repairing {
        OnlyWayIn(d.state, Repairing);
        GatesDecideRepair(d, w, c.qaRequired);
      } else if e.state != d.state {
        ReviewedStates(d.state, e.state);
      }
    }
  }

  predicate BeforeReview(s: WState) {
    s in {Created, Authorized, PreconditionsChecked, BranchCreated, Implementing, Validating, QaRunning}
  }

  /** No edge but those of the review leads out of the states before it to the states behind it. */
  lemma ReviewedStates(from: WState, to: WState)
    requires Allowed(from, to) && from !in {QaRunning, Repairing} && to !in {Repairing, Failed, Cancelled}
    ensures BeforeReview(to) == BeforeReview(from)
  {
  }

  lemma CommitPassesBack(c: Config, s: Durable, w: World)
    requires s.data.state == ReadyToCommit && HasWayOut(StepOf(c, s, w).0.data)
    requires Consistent(s.data) && ReviewCanPass(StepOf(c, s, w).0.data)
    ensures ReviewCanPass(s.data)
  {
    VisitKeepsReports(s.data, w, Gating(s.log, c.approvalId, c.policy, w).1);
    StepStaysOrMoves(c, s, w);
  }

  lemma DrivePassesBack(c: Config, s: Durable, w: World)
    requires Consistent(s.data) && RoundsKept(s.data) && w.qaRead
    requires HasWayOut(StepOf(c, s, w).0.data) && ReviewCanPass(StepOf(c, s, w).0.data)
    ensures ReviewCanPass(s.data)
  {
    if s.data.state == ReadyToCommit {
      CommitPassesBack(c, s, w);
    } else {
      ReactPassesBack(c, s, w);
    }
  }

  // ---- Nothing is gained by any action ----

  /** What is possible from t was possible from s. */
  predicate NothingGained(id: string, s: Durable, t: Durable, terms: Terms) {
    && (Deliverable(id, t, terms.now) ==> Deliverable(id, s, terms.now))
    && (Finishable(id, t, terms) ==> Finishable(id, s, terms))
  }

  lemma DriveGivesNothingBack(c: Config, s: Durable, w: World, terms: Terms)
    requires Sane(c.approvalId, s) && WorldNotBefore(w, terms.now) && (terms.legible ==> w.qaRead)
    ensures NothingGained(c.approvalId, s, StepOf(c, s, w).0, terms)
  {
    var t := StepOf(c, s, w).0;
    DriveStaysBefore(c, s, w);
    if Deliverable(c.approvalId, t, terms.now) {
      if s.data.state == ReadyToCommit {
        CommitGivesNothingBack(c, s, w, terms.now);
      } else {
        ReactGivesNothingBack(s.data, w, c.qaRequired);
      }
      if terms.legible && ReviewCanPass(t.data) {
        DrivePassesBack(c, s, w);
      }
    }
  }

  /** With the reports read, the merge is enabled only over an approving last report or none. */
  lemma EnablingNeedsReview(task: MergeCloseout.Config, d: SessionData, visit: MergeCloseout.World)
    requires Consistent(d) && d.state == PrOpen && visit.qaRead
    requires IsMerging(MergeCloseout.StepOf(task, d, visit).0.state)
    ensures IsMergeable(d)
  {
    MergeCloseout.MergeEnabledExactly(task, d, visit);
  }

  lemma EnablingGivesNothingBack(
    id: string, s: Durable, task: MergeCloseout.Config, visit: MergeCloseout.World, terms: Terms)
    requires Sane(id, s) && (terms.legible ==> visit.qaRead) && s.data.state == PrOpen
    ensures var e := MergeCloseout.StepOf(task, s.data, visit).0;
      e.state == Failed || (IsMerging(e.state) && Finishable(id, s, terms))
  {
    var (e, phase) := MergeCloseout.StepOf(task, s.data, visit);
    MergeCloseout.StepIsOneEdge(task, s.data, visit);
    if MergeCloseout.GoesOn(phase) && terms.legible {
      MergeCloseout.GoesSomewhere(task, s.data, visit);
      EnablingNeedsReview(task, s.data, visit);
    }
  }

  lemma MergingGivesNothingBack(id: string, s: Durable, t: Durable, terms: Terms)
    requires IsMerging(s.data.state) && !HasWayOut(t.data)
    ensures NothingGained(id, s, t, terms)
  {
  }

  /** From the enabled merge on, nothing is delivered again. */
  lemma MergingStaysBehind(task: MergeCloseout.Config, d: SessionData, visit: MergeCloseout.World)
    requires Consistent(d) && IsMerging(d.state)
    ensures !HasWayOut(MergeCloseout.StepOf(task, d, visit).0)
  {
    if MergeCloseout.Distance(d.state) > 0 {
      MergeCloseout.StepIsOneEdge(task, d, visit);
    }
  }

  lemma OpenGivesNothingBack(id: string, s: Durable, t: Durable, terms: Terms)
    requires s.data.state == PrOpen && (IsMerging(t.data.state) ==> Finishable(id, s, terms))
    requires t.data.state == Failed || IsMerging(t.data.state)
    ensures NothingGained(id, s, t, terms)
  {
  }

  lemma MergeGivesNothingBack(
    id: string, s: Durable, task: MergeCloseout.Config, visit: MergeCloseout.World, terms: Terms)
    requires Sane(id, s) && (terms.legible ==> visit.qaRead)
    ensures NothingGained(id, s, s.(data := MergeCloseout.StepOf(task, s.data, visit).0), terms)
  {
    var t := s.(data := MergeCloseout.StepOf(task, s.data, visit).0);
    if s.data.state == PrOpen {
      EnablingGivesNothingBack(id, s, task, visit, terms);
      OpenGivesNothingBack(id, s, t, terms);
    } else if IsMerging(s.data.state) {
      MergingStaysBehind(task, s.data, visit);
      MergingGivesNothingBack(id, s, t, terms);
    } else {
      assert t == s;
    }
  }

  lemma LogGivesNothingBack(id: string, s: Durable, log: Approvals.Log, terms: Terms)
    requires BeforeCommit(s.data.state) && GateOpenable(id, log, terms.now) ==> GateOpenable(id, s.log, terms.now)
    ensures NothingGained(id, s, s.(log := log), terms)
  {
  }

  lemma OperateGivesNothingBack(id: string, s: Durable, to: WState, terms: Terms)
    requires Allowed(s.data.state, to) && to in {Authorized, Cancelled, Failed}
    ensures NothingGained(id, s, s.(data := Move(s.data, to)), terms)
  {
    if to == Authorized {
      assert s.data.state == Created;
      assert Implementable(Move(s.data, to)) <==> Implementable(s.data);
      SameReportsSameReview(s.data, Move(s.data, to));
    }
  }

  lemma NextGivesNothingBack(id: string, s: Durable, a: Action, terms: Terms)
    requires Sane(id, s) && NextFrom(id, terms)(s, a).Some?
    ensures NothingGained(id, s, NextFrom(id, terms)(s, a).value, terms)
  {
    var now := terms.now;
    match a
    case Drive(own, w) => DriveGivesNothingBack(own, s, w, terms);
    case Merge(task, visit) => MergeGivesNothingBack(id, s, task, visit, terms);
    case Operate(to) => OperateGivesNothingBack(id, s, to, terms);
    case DieInGate(own, w, calls) =>
      var made := GateCalls(own, s.log, w)[..calls];
      var log := ApprovalLifecycle.AfterCalls(s.log, made);
      GateCallsNotBefore(own, s.log, w, now);
      if GateOpenable(id, log, now) {
        CallsGiveNothingBack(id, s.log, made, now);
      }
      LogGivesNothingBack(id, s, log, terms);
    case Service(call) =>
      var log := ApprovalLifecycle.Perform(s.log, call).0;
      if GateOpenable(id, log, now) {
        CallGivesNothingBack(id, s.log, call, now);
      }
      LogGivesNothingBack(id, s, log, terms);
  }

  lemma {:induction false} LifeGivesNothingBack(id: string, s: Durable, actions: seq<Action>, terms: Terms)
    requires Sane(id, s) && ActionRuns.Runs(NextFrom(id, terms), s, actions)
    ensures NothingGained(id, s, ActionRuns.After(NextFrom(id, terms), s, actions), terms)
    decreases |actions|
  {
    if actions != [] {
      var t := NextFrom(id, terms)(s, actions[0]).value;
      NextGivesNothingBack(id, s, actions[0], terms);
      NextKeepsSane(id, s, actions[0]);
      LifeGivesNothingBack(id, t, actions[1..], terms);
    }
  }

  // ---- A life that delivers ----

  /** The present, or the last event of the log if that is later. */
  function Latest(log: Approvals.Log, now: int): (at: int)
    ensures now <= at && Approvals.InOrder(log, at)
  {
    if log != [] && now < log[|log| - 1].at then log[|log| - 1].at else now
  }

  const DEFAULT_POLICY: ApprovalPolicies.ApprovalPolicy := ApprovalPolicies.Policy(
    true, None, ApprovalPolicies.Pause, [ApprovalPolicies.Cli], [], [], None, ApprovalPolicies.Pause,
    ApprovalPolicies.BuiltIn, ApprovalPolicies.BuiltIn)

  const CHECKSUMS: Approvals.Checksums := Approvals.Checksums("", "", "", "")

  function ViewSteps(v: Approvals.Approval): nat {
    match v.status
    case Pending => 3
    case Escalated | HumanInterventionRequired => 2
    case Approved => 1
    case _ => 0
  }

  /** Calls left until the approval is spent. */
  function GateSteps(id: string, log: Approvals.Log): nat {
    var current := Approvals.Current(log, id);
    if current.Err? then 4 else ViewSteps(current.value)
  }

  /** The call brings the approval nearer to being spent, and leaves it possible. */
  predicate Helps(id: string, log: Approvals.Log, call: ApprovalLifecycle.Call, now: int) {
    var log' := ApprovalLifecycle.Perform(log, call).0;
    CallNotBefore(call, now) && GateOpenable(id, log', now) && GateSteps(id, log') < GateSteps(id, log)
  }

  /** A call helps if the view it leaves does. */
  lemma ViewHelps(id: string, log: Approvals.Log, call: ApprovalLifecycle.Call, v: Approvals.Approval, now: int)
    requires Approvals.Current(ApprovalLifecycle.Perform(log, call).0, id) == Ok(v)
    requires CallNotBefore(call, now) && Approvable(v, now) && ViewSteps(v) < GateSteps(id, log)
    ensures Helps(id, log, call, now)
  {
  }

  lemma RequestOpens(id: string, log: Approvals.Log, e: Approvals.Event)
    requires Approvals.History(log, id) == [] && e.id == id && e.kind.RequestedEvent?
    ensures Approvals.Current(log + [e], id) == Ok(Approvals.Opened(e))
  {
    ApprovalLifecycle.HistoryAppend(log, e, id);
    assert Approvals.History(log + [e], id) == [e];
  }

  lemma RequestHelps(id: string, log: Approvals.Log, now: int) returns (call: ApprovalLifecycle.Call)
    requires Approvals.Current(log, id) == Err(Approvals.NotFound) && id != ""
    ensures Helps(id, log, call, now)
  {
    var at := Latest(log, now);
    call := ApprovalLifecycle.RequestCall(id, GATE, CHECKSUMS, DEFAULT_POLICY, at);
    var e := Approvals.Event(id, GATE, at, Approvals.RequestedEvent(DEFAULT_POLICY, None, CHECKSUMS));
    assert ApprovalLifecycle.Perform(log, call).0 == log + [e];
    RequestOpens(id, log, e);
    assert IsOpen(Approvals.Opened(e), now);
    ViewHelps(id, log, call, Approvals.Opened(e), now);
  }

  /** A name that may decide. */
  lemma SomeApprover(p: ApprovalPolicies.ApprovalPolicy) returns (name: string)
    requires IsDecidable(p)
    ensures name != "" && (p.approvers == [] || name in p.approvers)
  {
    if p.approvers == [] {
      name := "owner";
    } else {
      name :| name in p.approvers && name != "";
    }
  }

  /** A look at an approval that is not lost leaves it undecided or approved. */
  lemma LookLeavesItOpen(id: string, log: Approvals.Log, now: int) returns (at: int)
    requires ApprovalLifecycle.WellKept(log) && Approvals.Current(log, id).Ok?
    requires var v := Approvals.Current(log, id).value; !Approvals.IsTerminal(v.status) && !IsLost(v, now)
    ensures now <= at <= Latest(log, now)
    ensures var (log', current) := Approvals.Evaluating(log, id, at);
      && current.Ok? && !Approvals.IsTerminal(current.value.status) && Approvals.InOrder(log', Latest(log, now))
      && current.value.policy == Approvals.Current(log, id).value.policy
  {
    var v := Approvals.Current(log, id).value;
    at := if Approvals.IsDue(v, now) then Latest(log, now) else now;
    if Approvals.IsDue(v, now) {
      assert ApprovalLifecycle.Fires(log, id, at);
      ApprovalLifecycle.DeadlineFires(log, id, at);
      TimeoutEndsExactly(v, at);
    } else {
      assert Approvals.Evaluating(log, id, at) == (log, Approvals.Current(log, id));
    }
  }

  lemma DecisionHelps(id: string, log: Approvals.Log, now: int) returns (call: ApprovalLifecycle.Call)
    requires ApprovalLifecycle.WellKept(log) && Approvals.Current(log, id).Ok?
    requires var v := Approvals.Current(log, id).value;
      && !Approvals.IsTerminal(v.status) && v.status != Approvals.Approved
      && IsDecidable(v.policy) && !IsLost(v, now)
    ensures Helps(id, log, call, now)
  {
    var policy := Approvals.Current(log, id).value.policy;
    var channel, latest := policy.channels[0], Latest(log, now);
    var name := SomeApprover(policy);
    var at := LookLeavesItOpen(id, log, now);
    call := ApprovalLifecycle.DecideCall(id, Approvals.Approve, name, channel, at, latest);
    DecisionApproves(id, log, name, channel, at, latest);
    ApprovedHelps(id, log, call, ApprovalLifecycle.Perform(log, call).1.value, now);
  }

  /** An approval by someone who may decide. */
  lemma DecisionApproves(
    id: string, log: Approvals.Log, name: string, channel: ApprovalPolicies.Channel, at: int, recordedAt: int)
    requires ApprovalLifecycle.WellKept(log)
    requires var (log', current) := Approvals.Evaluating(log, id, at);
      && current.Ok? && !Approvals.IsTerminal(current.value.status) && Approvals.InOrder(log', recordedAt)
      && channel in current.value.policy.channels && name != ""
      && (current.value.policy.approvers == [] || name in current.value.policy.approvers)
    ensures
      var call := ApprovalLifecycle.DecideCall(id, Approvals.Approve, name, channel, at, recordedAt);
      var (log', answer) := ApprovalLifecycle.Perform(log, call);
      answer.Ok? && Approvals.Current(log', id) == answer && answer.value.status == Approvals.Approved
  {
    ApprovalLifecycle.DecisionAccepted(log, id, Approvals.Approve, name, channel, at, recordedAt);
  }

  lemma ApprovedHelps(id: string, log: Approvals.Log, call: ApprovalLifecycle.Call, v: Approvals.Approval, now: int)
    requires Approvals.Current(ApprovalLifecycle.Perform(log, call).0, id) == Ok(v) && v.status == Approvals.Approved
    requires CallNotBefore(call, now) && GateSteps(id, log) > 1
    ensures Helps(id, log, call, now)
  {
    ViewHelps(id, log, call, v, now);
  }

  lemma TimerHelps(v: Approvals.Approval, at: int, now: int)
    requires ApprovesItself(v) && v.deadline.value <= at
    ensures Approvals.IsDue(v, at)
    ensures var w := ApprovalLifecycle.TimedOutView(v, at); Approvable(w, now) && ViewSteps(w) < ViewSteps(v)
  {
    ApprovalLifecycle.TimeoutEventsAreLegal(v, at);
    ApprovalLifecycle.TimedOutStatus(v, at);
  }

  lemma WaitingHelps(id: string, log: Approvals.Log, now: int) returns (call: ApprovalLifecycle.Call)
    requires ApprovalLifecycle.WellKept(log) && Approvals.Current(log, id).Ok?
    requires ApprovesItself(Approvals.Current(log, id).value)
    ensures Helps(id, log, call, now)
  {
    var v := Approvals.Current(log, id).value;
    var latest := Latest(log, now);
    var at := if latest < v.deadline.value then v.deadline.value else latest;
    call := ApprovalLifecycle.EvaluateCall(id, at);
    TimerHelps(v, at, now);
    assert Approvals.InOrder(log, at) && ApprovalLifecycle.Fires(log, id, at);
    ApprovalLifecycle.DeadlineFires(log, id, at);
    assert ApprovalLifecycle.Perform(log, call) == Approvals.Evaluating(log, id, at);
    ViewHelps(id, log, call, ApprovalLifecycle.TimedOutView(v, at), now);
  }

  lemma ConsumptionHelps(id: string, log: Approvals.Log, now: int) returns (call: ApprovalLifecycle.Call)
    requires ApprovalLifecycle.WellKept(log) && Approvals.Current(log, id).Ok?
    requires Approvals.Current(log, id).value.status == Approvals.Approved
    ensures Helps(id, log, call, now)
  {
    var v := Approvals.Current(log, id).value;
    var at := Latest(log, now);
    call := ApprovalLifecycle.ConsumeCall(id, v.checksums, at);
    assert Approvals.Evaluating(log, id, at) == (log, Ok(v));
    ApprovalLifecycle.ConsumptionIsExact(log, id, v.checksums, at);
    ApprovalLifecycle.BoundChecksums(log, id);
    ConsumingIsOk(log, id, v.checksums, at);
    ViewHelps(id, log, call, ApprovalLifecycle.Perform(log, call).1.value, now);
  }

  lemma SomeCallHelps(id: string, log: Approvals.Log, now: int) returns (call: ApprovalLifecycle.Call)
    requires ApprovalLifecycle.WellKept(log) && GateOpenable(id, log, now) && !IsConsumed(log, id)
    ensures Helps(id, log, call, now)
  {
    var current := Approvals.Current(log, id);
    if current.Err? {
      call := RequestHelps(id, log, now);
    } else if current.value.status == Approvals.Approved {
      call := ConsumptionHelps(id, log, now);
    } else if ApprovesItself(current.value) {
      call := WaitingHelps(id, log, now);
    } else {
      call := DecisionHelps(id, log, now);
    }
  }

  /** The session goes on only over a repair, since its last report rejects and its round is used up. */
  predicate NeedsRepair(d: SessionData) {
    BeforeReview(d.state) && !IsMergeable(d) && !IsFreshRound(d)
  }

  function StateSteps(d: SessionData): nat {
    match d.state
    case Created => 16
    case Authorized => 15
    case PreconditionsChecked => 14
    case BranchCreated => 13
    case Implementing => if Of(d, Implementing).open then 11 else 12
    case Repairing => 10
    case Validating => 9
    case QaRunning => 8
    case ReadyToCommit => 3
    case Committed => 2
    case Pushed => 1
    case _ => 0
  }

  /** Actions left until the pull request is open, one more round of repair included where it is needed. */
  function StepsLeft(id: string, s: Durable, review: bool): nat {
    StateSteps(s.data)
    + (if s.data.state == ReadyToCommit then GateSteps(id, s.log) else 0)
    + (if review && NeedsRepair(s.data) then 4 else 0)
  }

  /** Deliverable still, and with an acceptable review where one is cared for, and nearer. */
  predicate Closer(id: string, s: Durable, t: Durable, now: int, review: bool) {
    && Deliverable(id, t, now) && (review ==> ReviewCanPass(t.data))
    && StepsLeft(id, t, review) < StepsLeft(id, s, review)
  }

  predicate OnCourse(id: string, s: Durable, now: int, review: bool) {
    Deliverable(id, s, now) && (review ==> ReviewCanPass(s.data))
  }

  /**
   Everything goes well; but over a stage report that an aborted attempt left, the next attempt is cut
   off too, so that the diff it left can be carried on.
   */
  function Good(d: SessionData, now: int): World {
    var call := if d.state == Implementing && d.stageReport then Aborts(AtReservation) else Usable;
    World(
      true, call, call, call, d.stageReport, Passes, Approves, true, true, false, true, false,
      Some(CHECKSUMS), now, now, now)
  }

  /** A review is asked for only where one is cared for and the last report rejects. */
  function Own(id: string, d: SessionData, review: bool): Config {
    Config(id, review && !IsMergeable(d), Ok(DEFAULT_POLICY))
  }

  lemma GoodTry(d: SessionData, s: WState, now: int)
    requires HasRoom(Of(d, s)) && !(d.state == Implementing && d.stageReport)
    ensures TryFrom(Of(d, s), Good(d, now)) == Tried(Complete(Reserve(Of(d, s))), Usable)
  {
  }

  lemma ImplementHelps(d: SessionData, now: int)
    requires d.state == Implementing && Implementable(d) && HasDeliveryRoom(d)
    ensures var e := Implement(d, Good(d, now)).data;
      && HasWayOut(e)
      && (e.state == Validating
          || (e.state == Implementing && Of(e, Implementing).open && !Of(d, Implementing).open))
  {
    var a := Of(d, Implementing);
    var w := Good(d, now);
    if !d.stageReport {
      GoodTry(if a.open then Closed(d, Implementing) else d, Implementing, now);
    } else if !a.open {
      assert TryFrom(a, w) == Tried(Reserve(a), Aborts(AtReservation));
    }
  }

  lemma DeliverHelps(d: SessionData, s: WState, forward: WState, now: int)
    requires d.state == s && SideEffect(s, forward) && HasWayOut(d)
    ensures var e := Deliver(d, s, forward, Good(d, now)).data; HasWayOut(e) && e.state == forward
  {
    GoodTry(d, s, now);
    var done := With(d, s, Complete(Reserve(Of(d, s))));
    assert Deliver(d, s, forward, Good(d, now)).data == Move(done, forward);
  }

  /** The repair is concluded, and the round after it is fresh. */
  lemma RepairHelps(d: SessionData, now: int)
    requires d.state == Repairing && HasWayOut(d) && RoundsKept(d)
    ensures var e := Repair(d, Good(d, now)).data; HasWayOut(e) && e.state == Validating && IsFreshRound(e)
  {
    assert Repair(d, Good(d, now)) == RepairCall(d, Usable);
    var e := Repair(d, Good(d, now)).data;
    assert e.qa == d.qa && e.asked == d.asked && Round(e) == Round(d) + 1;
    assert forall round :: round in d.qa.Keys + d.asked ==> round <= Round(d);
    assert Round(e) !in d.qa.Keys + d.asked;
  }

  /** The states before the review that only move. */
  lemma MoveHelps(d: SessionData, now: int, qaRequired: bool)
    requires d.state in {Authorized, PreconditionsChecked, BranchCreated, Validating} && HasWayOut(d)
    ensures var to := match d.state
        case Authorized => PreconditionsChecked
        case PreconditionsChecked => BranchCreated
        case BranchCreated => Implementing
        case _ => QaRunning;
      React(d, Good(d, now), qaRequired).data == Move(d, to) && HasWayOut(Move(d, to))
  {
  }

  lemma WaivedHelps(d: SessionData, now: int)
    requires d.state == QaRunning && HasWayOut(d)
    ensures ReviewQa(d, Good(d, now), false).data == Move(d, ReadyToCommit) && HasWayOut(Move(d, ReadyToCommit))
  {
  }

  lemma FreshReviewHelps(d: SessionData, now: int)
    requires d.state == QaRunning && HasWayOut(d) && RoundsKept(d) && IsFreshRound(d)
    ensures var e := ReviewQa(d, Good(d, now), true).data;
      HasWayOut(e) && e.state == ReadyToCommit && IsMergeable(e)
  {
    var w := Good(d, now);
    var next := Reviewed(d, w);
    assert HasDeliveryRoom(next) <==> HasDeliveryRoom(d);
    ReviewIsLatest(d, w);
    assert ReviewQa(d, w, true) == Goes(next, ReadyToCommit);
  }

  lemma RejectionHelps(d: SessionData, now: int)
    requires d.state == QaRunning && HasWayOut(d) && Consistent(d) && RoundsKept(d)
    requires !IsMergeable(d) && !IsFreshRound(d) && d.repair.completed < ATTEMPT_LIMIT
    ensures var e := ReviewQa(d, Good(d, now), true).data; HasWayOut(e) && e.state == Repairing
  {
    var w := Good(d, now);
    if Round(d) in d.qa {
      RoundIsLatest(d);
      assert ReviewQa(d, w, true) == ConcludeQa(d, w, false);
      RejectedGoesToRepair(d, w);
    } else {
      var next := Reviewed(d, w);
      assert HasDeliveryRoom(next) <==> HasDeliveryRoom(d);
      assert ReviewQa(d, w, true) == ConcludeQa(next, w, false);
      RejectedGoesToRepair(next, w);
    }
  }

  lemma RejectedGoesToRepair(d: SessionData, w: World)
    requires d.state == QaRunning && HasDeliveryRoom(d) && !d.repair.open && d.repair.completed < ATTEMPT_LIMIT
    requires w.reported && !w.aborts
    ensures var e := ConcludeQa(d, w, false).data; HasWayOut(e) && e.state == Repairing
  {
    assert ConcludeQa(d, w, false) == Goes(WithFailureReport(d, true), Repairing);
    ReportedHasWayOut(d);
  }

  /** A fresh round is reviewed and approved; a used one is rejected, and repaired if a repair is left. */
  lemma ReviewHelps(d: SessionData, now: int)
    requires d.state == QaRunning && HasWayOut(d) && Consistent(d) && RoundsKept(d)
    requires !IsMergeable(d) && ReviewCanPass(d)
    ensures var e := ReviewQa(d, Good(d, now), true).data;
      HasWayOut(e) && if IsFreshRound(d) then e.state == ReadyToCommit && IsMergeable(e) else e.state == Repairing
  {
    if IsFreshRound(d) {
      FreshReviewHelps(d, now);
    } else {
      RejectionHelps(d, now);
    }
  }

  lemma ReportedHasWayOut(d: SessionData)
    requires d.state == QaRunning && HasDeliveryRoom(d) && !d.repair.open && d.repair.completed < ATTEMPT_LIMIT
    ensures HasWayOut(Move(WithFailureReport(d, true), Repairing))
  {
  }

  lemma WaivedIsCloser(id: string, s: Durable, now: int, review: bool)
    requires OnCourse(id, s, now, review) && s.data.state == QaRunning && (review ==> IsMergeable(s.data))
    ensures Closer(id, s, Durable(ReviewQa(s.data, Good(s.data, now), false).data, s.log), now, review)
  {
    WaivedHelps(s.data, now);
    SameReportsSameReview(s.data, Move(s.data, ReadyToCommit));
  }

  /** A state behind a review that gives the merge what it asks for, or before the repair after it. */
  lemma ReviewedIsCloser(id: string, s: Durable, e: SessionData, now: int)
    requires OnCourse(id, s, now, true) && s.data.state == QaRunning && HasWayOut(e) && !IsMergeable(s.data)
    requires if IsFreshRound(s.data) then e.state == ReadyToCommit && IsMergeable(e) else e.state == Repairing
    ensures Closer(id, s, Durable(e, s.log), now, true)
  {
  }

  lemma ReviewIsCloser(id: string, s: Durable, now: int)
    requires Sane(id, s) && OnCourse(id, s, now, true) && s.data.state == QaRunning && !IsMergeable(s.data)
    ensures Closer(id, s, Durable(ReviewQa(s.data, Good(s.data, now), true).data, s.log), now, true)
  {
    ReviewHelps(s.data, now);
    ReviewedIsCloser(id, s, ReviewQa(s.data, Good(s.data, now), true).data, now);
  }

  lemma QaHelps(id: string, s: Durable, now: int, review: bool)
    requires Sane(id, s) && OnCourse(id, s, now, review) && s.data.state == QaRunning
    ensures Closer(id, s, StepOf(Own(id, s.data, review), s, Good(s.data, now)).0, now, review)
  {
    var own, w := Own(id, s.data, review), Good(s.data, now);
    assert StepOf(own, s, w).0 == Durable(ReviewQa(s.data, w, own.qaRequired).data, s.log);
    if own.qaRequired {
      ReviewIsCloser(id, s, now);
    } else {
      WaivedIsCloser(id, s, now, review);
    }
  }

  /** A step to a state that is nearer, with the reports and the round as they were. */
  lemma SameReportsCloser(id: string, s: Durable, t: Durable, now: int, review: bool)
    requires OnCourse(id, s, now, review) && HasWayOut(t.data) && t.log == s.log
    requires SameReports(s.data, t.data) && Round(t.data) == Round(s.data)
    requires s.data.repair.completed == t.data.repair.completed
    requires BeforeReview(t.data.state) == BeforeReview(s.data.state)
    requires BeforeCommit(t.data.state) ==> BeforeCommit(s.data.state)
    requires StateSteps(t.data) < StateSteps(s.data)
    requires s.data.state !in {Repairing, ReadyToCommit} && t.data.state !in {Repairing, ReadyToCommit}
    ensures Closer(id, s, t, now, review)
  {
    SameReportsSameReview(s.data, t.data);
  }

  lemma ImplementingHelps(id: string, s: Durable, now: int, review: bool)
    requires Sane(id, s) && OnCourse(id, s, now, review) && s.data.state == Implementing
    ensures Closer(id, s, StepOf(Own(id, s.data, review), s, Good(s.data, now)).0, now, review)
  {
    var own, w := Own(id, s.data, review), Good(s.data, now);
    var t := Durable(Implement(s.data, w).data, s.log);
    assert StepOf(own, s, w).0 == t;
    ReactKeepsRound(s.data, w, own.qaRequired);
    ImplementHelps(s.data, now);
    SameReportsCloser(id, s, t, now, review);
  }

  lemma DeliveringHelps(id: string, s: Durable, forward: WState, now: int, review: bool)
    requires Sane(id, s) && OnCourse(id, s, now, review)
    requires SideEffect(s.data.state, forward) && s.data.state != ReadyToCommit
    ensures Closer(id, s, StepOf(Own(id, s.data, review), s, Good(s.data, now)).0, now, review)
  {
    var own, w := Own(id, s.data, review), Good(s.data, now);
    var t := Durable(Deliver(s.data, s.data.state, forward, w).data, s.log);
    assert StepOf(own, s, w).0 == t;
    DeliverHelps(s.data, s.data.state, forward, now);
    DeliverKeepsReports(s.data, s.data.state, forward, w);
    DeliveredIsCloser(id, s, t, forward, now, review);
  }

  lemma DeliveredIsCloser(id: string, s: Durable, t: Durable, forward: WState, now: int, review: bool)
    requires OnCourse(id, s, now, review) && SideEffect(s.data.state, forward) && s.data.state != ReadyToCommit
    requires HasWayOut(t.data) && t.data.state == forward && SameReports(s.data, t.data)
    ensures Closer(id, s, t, now, review)
  {
  }

  lemma CheckHelps(id: string, s: Durable, now: int, review: bool)
    requires Sane(id, s) && OnCourse(id, s, now, review)
    requires s.data.state in {Authorized, PreconditionsChecked, BranchCreated, Validating}
    ensures Closer(id, s, StepOf(Own(id, s.data, review), s, Good(s.data, now)).0, now, review)
  {
    var own, w := Own(id, s.data, review), Good(s.data, now);
    MoveHelps(s.data, now, own.qaRequired);
    SameReportsCloser(id, s, StepOf(own, s, w).0, now, review);
  }

  lemma RepairingHelps(id: string, s: Durable, now: int, review: bool)
    requires Sane(id, s) && OnCourse(id, s, now, review) && s.data.state == Repairing
    ensures Closer(id, s, StepOf(Own(id, s.data, review), s, Good(s.data, now)).0, now, review)
  {
    RepairHelps(s.data, now);
  }

  lemma SpentVisit(id: string, log: Approvals.Log, w: World)
    requires IsConsumed(log, id) && w.checksums.Some?
    ensures Gating(log, id, Ok(DEFAULT_POLICY), w) == (log, Answered(Approvals.Current(log, id)))
  {
    assert Approvals.Evaluating(log, id, w.evaluatedAt) == (log, Approvals.Current(log, id));
  }

  lemma CommitHelps(id: string, s: Durable, now: int, review: bool)
    requires OnCourse(id, s, now, review) && s.data.state == ReadyToCommit && IsConsumed(s.log, id)
    ensures Closer(id, s, StepOf(Own(id, s.data, review), s, Good(s.data, now)).0, now, review)
  {
    var w := Good(s.data, now);
    SpentVisit(id, s.log, w);
    var g := Answered(Approvals.Current(s.log, id));
    assert Commit(s.data, w, g) == Deliver(s.data, ReadyToCommit, Committed, w);
    DeliverHelps(s.data, ReadyToCommit, Committed, now);
    VisitKeepsReports(s.data, w, g);
  }

  lemma AuthorizationHelps(id: string, s: Durable, now: int, review: bool)
    requires OnCourse(id, s, now, review) && s.data.state == Created
    ensures NextOf(id, s, Operate(Authorized)) == Some(s.(data := Move(s.data, Authorized)))
    ensures Closer(id, s, s.(data := Move(s.data, Authorized)), now, review)
  {
    assert Implementable(Move(s.data, Authorized)) && HasDeliveryRoom(Move(s.data, Authorized));
    SameReportsCloser(id, s, s.(data := Move(s.data, Authorized)), now, review);
  }

  /** The driver gets nearer by itself, except where an approval is waited for. */
  lemma DriveHelps(id: string, s: Durable, now: int, review: bool)
    requires Sane(id, s) && OnCourse(id, s, now, review) && s.data.state !in {Created, PrOpen}
    requires s.data.state == ReadyToCommit ==> IsConsumed(s.log, id)
    ensures Closer(id, s, StepOf(Own(id, s.data, review), s, Good(s.data, now)).0, now, review)
  {
    match s.data.state
    case Implementing => ImplementingHelps(id, s, now, review);
    case Committed => DeliveringHelps(id, s, Pushed, now, review);
    case Pushed => DeliveringHelps(id, s, PrOpen, now, review);
    case QaRunning => QaHelps(id, s, now, review);
    case Repairing => RepairingHelps(id, s, now, review);
    case ReadyToCommit => CommitHelps(id, s, now, review);
    case _ => CheckHelps(id, s, now, review);
  }

  lemma ServiceHelps(id: string, s: Durable, now: int, review: bool) returns (call: ApprovalLifecycle.Call)
    requires Sane(id, s) && OnCourse(id, s, now, review)
    requires s.data.state == ReadyToCommit && !IsConsumed(s.log, id)
    ensures CallNotBefore(call, now)
    ensures Closer(id, s, s.(log := ApprovalLifecycle.Perform(s.log, call).0), now, review)
  {
    call := SomeCallHelps(id, s.log, now);
  }

  lemma DriveIsNext(id: string, s: Durable, own: Config, w: World, terms: Terms)
    requires own.approvalId == id && WorldNotBefore(w, terms.now) && w.qaRead
    ensures NextFromOf(id, terms, s, Drive(own, w)) == Some(StepOf(own, s, w).0)
  {
    assert NextOf(id, s, Drive(own, w)) == Some(StepOf(own, s, w).0);
  }

  lemma SomeActionHelps(id: string, s: Durable, terms: Terms, review: bool) returns (a: Action, t: Durable)
    requires Sane(id, s) && OnCourse(id, s, terms.now, review) && s.data.state != PrOpen
    ensures NextFromOf(id, terms, s, a) == Some(t) && Closer(id, s, t, terms.now, review)
  {
    var now := terms.now;
    if s.data.state == Created {
      AuthorizationHelps(id, s, now, review);
      a, t := Operate(Authorized), s.(data := Move(s.data, Authorized));
      assert Within(a, terms) && NextOf(id, s, a) == Some(t);
    } else if s.data.state == ReadyToCommit && !IsConsumed(s.log, id) {
      var call := ServiceHelps(id, s, now, review);
      a, t := Service(call), s.(log := ApprovalLifecycle.Perform(s.log, call).0);
      assert Within(a, terms) && NextOf(id, s, a) == Some(t);
    } else {
      var own, w := Own(id, s.data, review), Good(s.data, now);
      DriveHelps(id, s, now, review);
      DriveIsNext(id, s, own, w, terms);
      a, t := Drive(own, w), StepOf(own, s, w).0;
    }
  }

  lemma {:induction false} LeadsOnwards(
    id: string, s: Durable, terms: Terms, a: Action, actions: seq<Action>, goal: WState)
    requires NextFrom(id, terms)(s, a).Some? && Leads(id, NextFrom(id, terms)(s, a).value, terms, actions, goal)
    ensures Leads(id, s, terms, [a] + actions, goal)
  {
    assert ([a] + actions)[1..] == actions;
  }

  lemma {:induction false} DeliveryLife(id: string, s: Durable, terms: Terms, review: bool)
    returns (actions: seq<Action>)
    requires Sane(id, s) && OnCourse(id, s, terms.now, review)
    ensures Leads(id, s, terms, actions, PrOpen)
    ensures Sane(id, ActionRuns.After(NextFrom(id, terms), s, actions))
    ensures review ==> ReviewCanPass(ActionRuns.After(NextFrom(id, terms), s, actions).data)
    decreases StepsLeft(id, s, review)
  {
    actions := [];
    if s.data.state != PrOpen {
      var a, t := SomeActionHelps(id, s, terms, review);
      NextKeepsSane(id, s, a);
      var rest := DeliveryLife(id, t, terms, review);
      assert ([a] + rest)[1..] == rest;
      LeadsOnwards(id, s, terms, a, rest, PrOpen);
      actions := [a] + rest;
    }
  }

  /**
   A session can still come to an open pull request exactly when it has a way out of its own state and,
   before the commit, an approval that can still be spent: one that is approved or spent, or can be
   opened, or is open, not lost to a deadline already passed, and decidable, or approves itself in time.
   */
  lemma DeliveryExact(id: string, s: Durable, terms: Terms)
    requires Sane(id, s)
    ensures CanReach(id, s, terms, PrOpen) <==> Deliverable(id, s, terms.now)
  {
    if Deliverable(id, s, terms.now) {
      var actions := DeliveryLife(id, s, terms, false);
    }
    if actions :| Leads(id, s, terms, actions, PrOpen) {
      LifeFromPossible(id, s, terms, actions, PrOpen);
    }
  }

  lemma LifeFromPossible(id: string, s: Durable, terms: Terms, actions: seq<Action>, goal: WState)
    requires Sane(id, s) && Leads(id, s, terms, actions, goal)
    ensures goal == PrOpen ==> Deliverable(id, s, terms.now)
    ensures goal == Done ==> Finishable(id, s, terms)
  {
    LifeGivesNothingBack(id, s, actions, terms);
  }

  /**
   Of the sessions a driver is stuck at, only one waiting at a closed gate can still be delivered: when
   no approval is open yet, another configuration or someone else can open one.
   */
  lemma StuckDelivers(c: Config, s: Durable, terms: Terms)
    requires Sane(c.approvalId, s) && Stuck(c, s) && IsDriven(s.data.state)
    ensures CanReach(c.approvalId, s, terms, PrOpen) <==>
      && s.data.state == ReadyToCommit && HasDeliveryRoom(s.data)
      && Approvals.Current(s.log, c.approvalId) == Err(Approvals.NotFound) && c.approvalId != ""
  {
    DeliveryExact(c.approvalId, s, terms);
  }

  // ---- On to the end ----

  const TASK: MergeCloseout.Config := MergeCloseout.Config(MergeCloseout.Task("", "", ""), false)

  const MERGED_LOOK: MergeCloseout.Observation := MergeCloseout.Observation(
    MergeCloseout.Seen("", "", "", true, "closed"), MergeCloseout.ChecksPassed, MergeCloseout.Confirmed)

  /** Everything goes well, and the QA reports are read where they have to be. */
  function GoodVisit(legible: bool): MergeCloseout.World {
    MergeCloseout.World([MERGED_LOOK], legible, false, None, true, true, true, true, true, true, false)
  }

  lemma VisitPasses(d: SessionData, legible: bool)
    requires Consistent(d) && MergeCloseout.Distance(d.state) > 0
    requires d.state == PrOpen && legible ==> IsMergeable(d)
    ensures MergeCloseout.Passes(TASK, d, GoodVisit(legible))
  {
    assert MergeCloseout.FirstShowsMerge(TASK.task, GoodVisit(legible).observations, 0);
  }

  lemma VisitGoesOn(d: SessionData, legible: bool)
    requires Consistent(d) && MergeCloseout.Distance(d.state) > 0
    requires d.state == PrOpen && legible ==> IsMergeable(d)
    ensures var e := MergeCloseout.StepOf(TASK, d, GoodVisit(legible)).0;
      && MergeCloseout.Distance(e.state) == MergeCloseout.Distance(d.state) - 1
      && (e.state == Done || MergeCloseout.Distance(e.state) > 0)
  {
    VisitPasses(d, legible);
    MergeCloseout.StepPasses(TASK, d, GoodVisit(legible));
    MergeCloseout.GoesSomewhere(TASK, d, GoodVisit(legible));
  }

  lemma MergeHelps(id: string, s: Durable, terms: Terms) returns (t: Durable)
    requires Sane(id, s) && MergeCloseout.Distance(s.data.state) > 0
    requires s.data.state == PrOpen && terms.legible ==> IsMergeable(s.data)
    ensures NextFrom(id, terms)(s, Merge(TASK, GoodVisit(terms.legible))) == Some(t) && Sane(id, t)
    ensures MergeCloseout.Distance(t.data.state) == MergeCloseout.Distance(s.data.state) - 1
    ensures t.data.state != PrOpen && (t.data.state == Done || MergeCloseout.Distance(t.data.state) > 0)
  {
    var visit := GoodVisit(terms.legible);
    t := s.(data := MergeCloseout.StepOf(TASK, s.data, visit).0);
    VisitGoesOn(s.data, terms.legible);
    MergeKeepsSane(id, s, TASK, visit);
    assert MergeCloseout.MayResume(s.data);
    assert NextFromOf(id, terms, s, Merge(TASK, visit)) == Some(t);
  }

  lemma {:induction false} MergeLife(id: string, s: Durable, terms: Terms) returns (actions: seq<Action>)
    requires Sane(id, s) && (s.data.state == Done || MergeCloseout.Distance(s.data.state) > 0)
    requires s.data.state == PrOpen && terms.legible ==> IsMergeable(s.data)
    ensures Leads(id, s, terms, actions, Done)
    decreases MergeCloseout.Distance(s.data.state)
  {
    actions := [];
    if s.data.state != Done {
      var visit := GoodVisit(terms.legible);
      var t := MergeHelps(id, s, terms);
      var rest := MergeLife(id, t, terms);
      LeadsOnwards(id, s, terms, Merge(TASK, visit), rest, Done);
      actions := [Merge(TASK, visit)] + rest;
    }
  }

  lemma FinishingLife(id: string, s: Durable, terms: Terms) returns (actions: seq<Action>)
    requires Sane(id, s) && Finishable(id, s, terms)
    ensures Leads(id, s, terms, actions, Done)
  {
    if IsMerging(s.data.state) {
      actions := MergeLife(id, s, terms);
    } else {
      var first := DeliveryLife(id, s, terms, terms.legible);
      var t := ActionRuns.After(NextFrom(id, terms), s, first);
      var second := MergeLife(id, t, terms);
      ActionRuns.RunsJoin(NextFrom(id, terms), s, first, second);
      actions := first + second;
    }
  }

  /**
   A session can still be finished exactly when it is being merged or done already, or can be delivered
   and, unless the merge cannot read the QA reports, still come there with an approving last report or none.
   */
  lemma FinishExact(id: string, s: Durable, terms: Terms)
    requires Sane(id, s)
    ensures CanReach(id, s, terms, Done) <==> Finishable(id, s, terms)
  {
    if Finishable(id, s, terms) {
      var actions := FinishingLife(id, s, terms);
    }
    if actions :| Leads(id, s, terms, actions, Done) {
      LifeFromPossible(id, s, terms, actions, Done);
    }
  }

  /** Every workflow can be finished when it begins, provided its approval has a name. */
  lemma FreshIsFinishable(id: string, terms: Terms)
    ensures CanReach(id, START, terms, Done) <==> id != ""
  {
    assert Sane(id, START);
    FinishExact(id, START, terms);
  }

  // ---- What was reviewed ----

  predicate IsReviewed(d: SessionData) {
    IsMerging(d.state) ==> IsMergeable(d)
  }

  lemma MergeKeepsReviewed(task: MergeCloseout.Config, d: SessionData, visit: MergeCloseout.World)
    requires Consistent(d) && IsReviewed(d) && visit.qaRead
    ensures IsReviewed(MergeCloseout.StepOf(task, d, visit).0)
  {
    var e := MergeCloseout.StepOf(task, d, visit).0;
    MergeCloseout.StepKeepsReports(task, d, visit);
    if d.state == PrOpen && IsMerging(e.state) {
      EnablingNeedsReview(task, d, visit);
    } else if !IsMerging(d.state) && d.state != PrOpen {
      assert e == d;
    }
  }

  lemma DriveKeepsReviewed(c: Config, s: Durable, w: World)
    requires Consistent(s.data) && IsReviewed(s.data)
    ensures IsReviewed(StepOf(c, s, w).0.data)
  {
    DriveStaysBefore(c, s, w);
    if IsMerging(s.data.state) {
      assert StepOf(c, s, w).0.data == s.data;
    }
  }

  lemma NextKeepsReviewed(id: string, s: Durable, a: Action)
    requires Sane(id, s) && IsReviewed(s.data) && NextOf(id, s, a).Some? && ReadsReports(a)
    ensures IsReviewed(NextOf(id, s, a).value.data)
  {
    match a
    case Drive(own, w) => DriveKeepsReviewed(own, s, w);
    case Merge(task, visit) => MergeKeepsReviewed(task, s.data, visit);
    case _ =>
  }

  /** With the reports read, whatever is being merged or done has an approving last report or none. */
  lemma DoneWasReviewed(id: string, terms: Terms, actions: seq<Action>)
    requires terms.legible && ActionRuns.Runs(NextFrom(id, terms), START, actions)
    ensures IsReviewed(ActionRuns.After(NextFrom(id, terms), START, actions).data)
  {
    var good := (s: Durable) => Sane(id, s) && IsReviewed(s.data);
    forall s, a | good(s) && NextFrom(id, terms)(s, a).Some? ensures good(NextFrom(id, terms)(s, a).value) {
      NextKeepsSane(id, s, a);
      NextKeepsReviewed(id, s, a);
    }
    ActionRuns.RunKeeps(NextFrom(id, terms), good, START, actions);
  }
}
