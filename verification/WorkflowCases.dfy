/** Lives of a workflow, from a fresh session, that end in each of the states nothing gets past. */
module WorkflowCases {
  import opened Support
  import opened WorkflowSessions
  import opened ImplementerRun
  import opened WorkflowLife
  import ApprovalPolicies
  import Approvals
  import ApprovalLifecycle
  import ActionRuns
  import WorkflowDelivery
  import MergeCloseout

  const ID: string := "a"

  /** What the built-in defaults resolve to: a human decides, without a deadline. */
  const POLICY: ApprovalPolicies.ApprovalPolicy := ApprovalPolicies.Policy(
    true, None, ApprovalPolicies.Pause, [ApprovalPolicies.Cli], [], [], None, ApprovalPolicies.Pause,
    ApprovalPolicies.BuiltIn, ApprovalPolicies.BuiltIn)

  const C: Config := Config(ID, true, Ok(POLICY))

  const SUMS: Approvals.Checksums := Approvals.Checksums("repo", "diff", "agent", "gate")
  const OTHER_SUMS: Approvals.Checksums := SUMS.(diff := "edited")

  const GOOD: World := World(
    true, Usable, Usable, Usable, false, Passes, Approves, true, true, false, true, false, Some(SUMS), 0, 0, 0)

  ghost predicate Reaches(c: Config, s: Durable) {
    ActionRuns.Reachable(Next(c.approvalId), START, s)
  }

  lemma Onwards(c: Config, s: Durable, a: Action)
    requires Reaches(c, s) && NextOf(c.approvalId, s, a).Some?
    ensures Reaches(c, NextOf(c.approvalId, s, a).value)
  {
    ActionRuns.ReachableStep(Next(c.approvalId), START, s, a);
  }

  // ---- The way to the approval gate ----

  const CREATED: SessionData := FRESH
  const AUTHORIZED: SessionData := Move(CREATED, Authorized)
  const CHECKED: SessionData := Move(AUTHORIZED, PreconditionsChecked)
  const BRANCHED: SessionData := Move(CHECKED, BranchCreated)
  const IMPLEMENTING: SessionData := Move(BRANCHED, Implementing)

  lemma ReachesImplementing(c: Config)
    ensures Reaches(c, Durable(IMPLEMENTING, []))
  {
    ActionRuns.ReachableFromStart(Next(c.approvalId), START);
    Onwards(c, START, Operate(Authorized));
    Onwards(c, Durable(AUTHORIZED, []), Drive(c, GOOD));
    Onwards(c, Durable(CHECKED, []), Drive(c, GOOD));
    Onwards(c, Durable(BRANCHED, []), Drive(c, GOOD));
  }

  const ONCE: Attempts := Attempts(1, false, 1)
  const CRASHED: Attempts := Attempts(0, true, 1)

  /** A single attempt, usable or aborted at once. */
  lemma FirstTry(w: World)
    requires !w.first.Unusable?
    ensures TryFrom(NO_ATTEMPTS, w) == Tried(if w.first == Aborts(AtReservation) then CRASHED else ONCE, w.first)
  {
  }

  const VALIDATING: SessionData :=
    Move(With(IMPLEMENTING, Implementing, ONCE).(stageReport := true), Validating)

  lemma ReachesValidating(c: Config)
    ensures Reaches(c, Durable(VALIDATING, []))
  {
    ReachesImplementing(c);
    FirstTry(GOOD);
    Onwards(c, Durable(IMPLEMENTING, []), Drive(c, GOOD));
  }

  const REVIEWING: SessionData := Move(VALIDATING, QaRunning)
  const READY: SessionData := Move(Reviewed(REVIEWING, GOOD), ReadyToCommit)

  lemma ReachesReviewing(c: Config)
    ensures Reaches(c, Durable(REVIEWING, []))
  {
    ReachesValidating(c);
    Onwards(c, Durable(VALIDATING, []), Drive(c, GOOD));
  }

  lemma ReachesReady(c: Config)
    requires c.qaRequired
    ensures Reaches(c, Durable(READY, []))
  {
    ReachesReviewing(c);
    assert ReviewQa(REVIEWING, GOOD, true) == RunReview(REVIEWING, GOOD);
    Onwards(c, Durable(REVIEWING, []), Drive(c, GOOD));
  }

  // ---- The approval, requested, given and spent ----

  const OPENED: Approvals.Log :=
    [Approvals.Event(ID, GATE, 0, Approvals.RequestedEvent(POLICY, None, SUMS))]

  const DECIDED: Approvals.Log := OPENED + [Approvals.Event(ID, GATE, 0,
    Approvals.DecidedEvent(Approvals.Approve, Some("lead"), Some(ApprovalPolicies.Cli), Approvals.Manual, None))]

  const SPENT: Approvals.Log := DECIDED + [Approvals.Event(ID, GATE, 0, Approvals.ConsumedEvent)]

  /** The view after each of the three logs. */
  lemma Views()
    ensures ApprovalLifecycle.WellKept(OPENED) && ApprovalLifecycle.WellKept(DECIDED)
    ensures Approvals.Current([], ID) == Err(Approvals.NotFound)
    ensures var asked := Approvals.Opened(OPENED[0]);
      && Approvals.Current(OPENED, ID) == Ok(asked)
      && Approvals.Current(DECIDED, ID) == Ok(Approvals.Refine(asked, DECIDED[1]))
      && Approvals.Current(SPENT, ID) == Ok(Approvals.Refine(Approvals.Refine(asked, DECIDED[1]), SPENT[2]))
  {
    assert [] + OPENED == OPENED;
    ApprovalLifecycle.AppendFirst([], OPENED[0]);
    ApprovalLifecycle.HistoryAppend([], OPENED[0], ID);
    assert Approvals.Current(OPENED, ID) == Ok(Approvals.Opened(OPENED[0]));
    ApprovalLifecycle.AppendNext(OPENED, DECIDED[1]);
    ApprovalLifecycle.AppendNext(DECIDED, SPENT[2]);
  }

  const DECIDE: ApprovalLifecycle.Call :=
    ApprovalLifecycle.DecideCall(ID, Approvals.Approve, "lead", ApprovalPolicies.Cli, 0, 0)

  lemma FirstRequest()
    ensures Gating([], ID, Ok(POLICY), GOOD) == (OPENED, Answered(Ok(Approvals.Opened(OPENED[0]))))
  {
    Views();
    assert [] + OPENED == OPENED;
    assert Approvals.Requesting([], ID, GATE, SUMS, POLICY, 0) == (OPENED, Approvals.Current(OPENED, ID));
    OpenedWaits();
    assert Opening([], ID, POLICY, SUMS, GOOD) == (OPENED, Approvals.Current(OPENED, ID));
  }

  /** Spending looks at the fresh request and leaves it. */
  lemma OpenedWaits()
    ensures Spending(OPENED, ID, SUMS, GOOD) == (OPENED, Approvals.Current(OPENED, ID))
  {
    Views();
    assert Approvals.Evaluating(OPENED, ID, 0) == (OPENED, Approvals.Current(OPENED, ID));
  }

  /** The first visit to the gate requests the approval and waits. */
  lemma FirstVisit()
    ensures NextOf(ID, Durable(READY, []), Drive(C, GOOD)) == Some(Durable(READY, OPENED))
    ensures StepOf(C, Durable(READY, []), GOOD).1.phase == AwaitingApproval
  {
    FirstRequest();
    var g := Answered(Ok(Approvals.Opened(OPENED[0])));
    assert Commit(READY, GOOD, g) == Reaction(READY, Outcome(ReadyToCommit, None, AwaitingApproval));
  }

  lemma Decision()
    ensures NextOf(ID, Durable(READY, OPENED), Service(DECIDE)) == Some(Durable(READY, DECIDED))
  {
    Views();
    assert Approvals.Evaluating(OPENED, ID, 0) == (OPENED, Approvals.Current(OPENED, ID));
  }

  lemma ReachesDecided()
    ensures Reaches(C, Durable(READY, DECIDED))
  {
    ReachesReady(C);
    FirstVisit();
    Onwards(C, Durable(READY, []), Drive(C, GOOD));
    Decision();
    Onwards(C, Durable(READY, OPENED), Service(DECIDE));
  }

  /** A visit with the same checksums spends the approval. */
  lemma SpendingVisit(w: World)
    requires w.checksums == Some(SUMS) && w.evaluatedAt == w.consumedAt == 0
    ensures Gating(DECIDED, ID, Ok(POLICY), w) == (SPENT, Answered(Approvals.Current(SPENT, ID)))
    ensures IsConsumed(SPENT, ID)
  {
    Views();
    assert Approvals.Evaluating(DECIDED, ID, 0) == (DECIDED, Approvals.Current(DECIDED, ID));
    assert Spending(DECIDED, ID, SUMS, w) == (SPENT, Approvals.Current(SPENT, ID));
  }

  /** A later one does not look at the checksums again. */
  lemma LaterVisit(w: World)
    requires w.checksums.Some?
    ensures Gating(SPENT, ID, Ok(POLICY), w) == (SPENT, Answered(Approvals.Current(SPENT, ID)))
    ensures IsConsumed(SPENT, ID)
  {
    SpentIsConsumed();
    assert Approvals.Evaluating(SPENT, ID, w.evaluatedAt) == (SPENT, Approvals.Current(SPENT, ID));
  }

  lemma SpentIsConsumed()
    ensures IsConsumed(SPENT, ID)
  {
    Views();
  }

  // ---- A commit whose attempt is aborted ----

  const ABORT_AT_CALL: World := GOOD.(first := Aborts(AtReservation))
  const ABORT_AFTER_CALL: World := GOOD.(first := Aborts(AtRecord))

  /** With the gate open the step is the attempt at the commit. */
  lemma OpenGate(d: SessionData, log: Approvals.Log, w: World, log': Approvals.Log)
    requires d.state == ReadyToCommit && !Of(d, ReadyToCommit).open
    requires Gating(log, ID, Ok(POLICY), w) == (log', Answered(Approvals.Current(log', ID))) && IsConsumed(log', ID)
    ensures StepOf(C, Durable(d, log), w).0
         == Durable(Attempting(d, ReadyToCommit, Committed, w).data, log')
  {
    var g := Answered(Approvals.Current(log', ID));
    assert Commit(d, w, g) == Deliver(d, ReadyToCommit, Committed, w);
  }

  lemma SpendingStep(w: World)
    requires w.checksums == Some(SUMS) && w.evaluatedAt == w.consumedAt == 0
    ensures StepOf(C, Durable(READY, DECIDED), w).0
         == Durable(Attempting(READY, ReadyToCommit, Committed, w).data, SPENT)
  {
    SpendingVisit(w);
    OpenGate(READY, DECIDED, w, SPENT);
  }

  /** The commit's process dies in the call: the approval is spent and no visit gets past the open attempt. */
  lemma CrashedCommitIsStuck()
    ensures var s := Durable(With(READY, ReadyToCommit, CRASHED), SPENT); Reaches(C, s) && Stuck(C, s)
  {
    ReachesDecided();
    SpendingStep(ABORT_AT_CALL);
    FirstTry(ABORT_AT_CALL);
    Onwards(C, Durable(READY, DECIDED), Drive(C, ABORT_AT_CALL));
    OpenCommitIsStuck(With(READY, ReadyToCommit, CRASHED));
  }

  lemma OpenCommitIsStuck(d: SessionData)
    requires d.state == ReadyToCommit && Of(d, ReadyToCommit).open
    ensures Stuck(C, Durable(d, SPENT))
  {
    SpentIsConsumed();
  }

  const COMMITTED: SessionData := Move(With(READY, ReadyToCommit, ONCE), Committed)
  const PUSHED: SessionData := Move(With(COMMITTED, Committed, ONCE), Pushed)

  lemma ReachesCommitted()
    ensures Reaches(C, Durable(COMMITTED, SPENT))
  {
    ReachesDecided();
    SpendingStep(GOOD);
    FirstTry(GOOD);
    Onwards(C, Durable(READY, DECIDED), Drive(C, GOOD));
  }

  lemma CrashedPushIsStuck()
    ensures var s := Durable(With(COMMITTED, Committed, CRASHED), SPENT); Reaches(C, s) && Stuck(C, s)
  {
    ReachesCommitted();
    FirstTry(ABORT_AT_CALL);
    Onwards(C, Durable(COMMITTED, SPENT), Drive(C, ABORT_AT_CALL));
  }

  lemma ReachesPushed()
    ensures Reaches(C, Durable(PUSHED, SPENT))
  {
    ReachesCommitted();
    FirstTry(GOOD);
    Onwards(C, Durable(COMMITTED, SPENT), Drive(C, GOOD));
  }

  lemma CrashedPullRequestIsStuck()
    ensures var s := Durable(With(PUSHED, Pushed, CRASHED), SPENT); Reaches(C, s) && Stuck(C, s)
  {
    ReachesPushed();
    FirstTry(ABORT_AT_CALL);
    Onwards(C, Durable(PUSHED, SPENT), Drive(C, ABORT_AT_CALL));
  }

  // ---- The other states nothing gets past ----

  const THIRD_ABORTS: World := GOOD.(first := Unusable, second := Unusable, third := Aborts(AtRecord))

  lemma ThirdTry()
    ensures TryFrom(NO_ATTEMPTS, THIRD_ABORTS) == Tried(Attempts(3, false, 3), Aborts(AtRecord))
  {
    assert TryFrom(Attempts(2, false, 2), THIRD_ABORTS) == Tried(Attempts(3, false, 3), Aborts(AtRecord));
    assert TryFrom(Attempts(1, false, 1), THIRD_ABORTS) == TryFrom(Attempts(2, false, 2), THIRD_ABORTS);
    assert TryFrom(NO_ATTEMPTS, THIRD_ABORTS) == TryFrom(Attempts(1, false, 1), THIRD_ABORTS);
  }

  /** The third attempt was recorded, and the session did not move. */
  lemma UsedUpImplementationIsStuck()
    ensures var s := Durable(With(IMPLEMENTING, Implementing, Attempts(3, false, 3)), []); Reaches(C, s) && Stuck(C, s)
  {
    ReachesImplementing(C);
    ThirdTry();
    Onwards(C, Durable(IMPLEMENTING, []), Drive(C, THIRD_ABORTS));
  }

  /** A diff found after a crash is carried to validation, which has no stage report to read. */
  lemma CarriedDiffIsStuck()
    ensures var s := Durable(Move(With(IMPLEMENTING, Implementing, ONCE), Validating), []); Reaches(C, s) && Stuck(C, s)
  {
    ReachesImplementing(C);
    FirstTry(ABORT_AT_CALL);
    var crashed := With(IMPLEMENTING, Implementing, CRASHED);
    Onwards(C, Durable(IMPLEMENTING, []), Drive(C, ABORT_AT_CALL));
    Onwards(C, Durable(crashed, []), Drive(C, GOOD.(leftDiff := true)));
  }

  /** The failure report could not be written, and the session moved all the same. */
  lemma UnreportedRepairIsStuck()
    ensures var s := Durable(Move(VALIDATING, Repairing), []); Reaches(C, s) && Stuck(C, s)
  {
    ReachesValidating(C);
    var w := GOOD.(validation := Repairable, reported := false);
    assert WithFailureReport(VALIDATING, false) == VALIDATING;
    Onwards(C, Durable(VALIDATING, []), Drive(C, w));
  }

  const REPAIRING: SessionData := Move(WithFailureReport(VALIDATING, true), Repairing)

  /** The repair was recorded, the session did not move, and the next repair has no report to work from. */
  lemma AbortedRepairIsStuck()
    ensures var s := Durable(REPAIRING.(repair := ONCE), []); Reaches(C, s) && Stuck(C, s)
  {
    ReachesValidating(C);
    Onwards(C, Durable(VALIDATING, []), Drive(C, GOOD.(validation := Repairable)));
    assert Repair(REPAIRING, ABORT_AFTER_CALL) == RepairCall(REPAIRING, Aborts(AtRecord));
    Onwards(C, Durable(REPAIRING, []), Drive(C, ABORT_AFTER_CALL));
  }

  const ABORT_AFTER_REPORT: World := GOOD.(first := Aborts(AtReport))

  const REPORTED: SessionData := With(IMPLEMENTING, Implementing, ONCE).(stageReport := true)

  lemma SecondReport(n: nat)
    requires n < ATTEMPT_LIMIT
    ensures var d := With(REPORTED, Implementing, Attempts(n, false, n));
      Implement(d, GOOD).data == With(REPORTED, Implementing, Attempts(n + 1, false, n + 1))
  {
    assert TryFrom(Attempts(n, false, n), GOOD) == Tried(Attempts(n + 1, false, n + 1), Usable);
  }

  /**
   The first attempt is aborted after its report. The report of each later one is refused, so that two
   more usable attempts are used up without a transition.
   */
  lemma ReportedImplementationIsStuck()
    ensures var s := Durable(With(REPORTED, Implementing, Attempts(3, false, 3)), []); Reaches(C, s) && Stuck(C, s)
  {
    ReachesImplementing(C);
    FirstTry(ABORT_AFTER_REPORT);
    Onwards(C, Durable(IMPLEMENTING, []), Drive(C, ABORT_AFTER_REPORT));
    SecondReport(1);
    Onwards(C, Durable(REPORTED, []), Drive(C, GOOD));
    SecondReport(2);
    Onwards(C, Durable(With(REPORTED, Implementing, Attempts(2, false, 2)), []), Drive(C, GOOD));
  }

  /** A policy that does not resolve, or needs no approval, or an approval without a name. */
  lemma ClosedGateIsStuck(c: Config)
    requires c.qaRequired && (c.policy.Err? || !c.policy.value.required || c.approvalId == "")
    ensures var s := Durable(READY, []); Reaches(c, s) && Stuck(c, s)
  {
    ReachesReady(c);
  }

  lemma ReachedIsSane(c: Config, s: Durable)
    requires Reaches(c, s)
    ensures Sane(c.approvalId, s)
  {
    var id := c.approvalId;
    var actions :| ActionRuns.Runs(Next(id), START, actions) && ActionRuns.After(Next(id), START, actions) == s;
    assert IsRun(id, actions) && StateAfter(id, actions) == s;
    RunIsSane(id, actions);
  }

  /** The gate that is closed under one configuration opens under another. */
  lemma ClosedGateReopens(c: Config, terms: WorkflowDelivery.Terms)
    requires c.qaRequired && c.approvalId != "" && (c.policy.Err? || !c.policy.value.required)
    ensures var s := Durable(READY, []);
      Reaches(c, s) && Stuck(c, s) && WorkflowDelivery.CanReach(c.approvalId, s, terms, PrOpen)
  {
    ClosedGateIsStuck(c);
    ReachedIsSane(c, Durable(READY, []));
    WorkflowDelivery.StuckDelivers(c, Durable(READY, []), terms);
  }

  // ---- A spent approval is not compared again ----

  lemma SecondTry(w: World)
    requires w.checksums.Some? && w.second == Usable
    ensures StepOf(C, Durable(With(READY, ReadyToCommit, ONCE), SPENT), w).0.data.state == Committed
  {
    var d := With(READY, ReadyToCommit, ONCE);
    LaterVisit(w);
    OpenGate(d, SPENT, w, SPENT);
    TriesAgain(d, w);
  }

  lemma TriesAgain(d: SessionData, w: World)
    requires Of(d, ReadyToCommit) == ONCE && w.second == Usable
    ensures Attempting(d, ReadyToCommit, Committed, w).data.state == Committed
  {
    assert TryFrom(ONCE, w) == Tried(Attempts(2, false, 2), Usable);
  }

  lemma ReachesAbortedCommit()
    ensures Reaches(C, Durable(With(READY, ReadyToCommit, ONCE), SPENT))
  {
    ReachesDecided();
    SpendingStep(ABORT_AFTER_CALL);
    FirstTry(ABORT_AFTER_CALL);
    Onwards(C, Durable(READY, DECIDED), Drive(C, ABORT_AFTER_CALL));
  }

  lemma SpentChecksums()
    ensures Approvals.Current(SPENT, ID).Ok? && Approvals.Current(SPENT, ID).value.checksums == SUMS != OTHER_SUMS
  {
    Views();
  }

  /**
   The approval is spent for one set of checksums, the commit is aborted, the working tree changes, and
   the next visit commits that.
   */
  lemma SpentApprovalCommitsOtherChecksums()
    ensures var s := Durable(With(READY, ReadyToCommit, ONCE), SPENT);
      var w := GOOD.(checksums := Some(OTHER_SUMS));
      && Reaches(C, s)
      && Approvals.Current(s.log, ID).Ok? && Approvals.Current(s.log, ID).value.checksums == SUMS != OTHER_SUMS
      && NextOf(ID, s, Drive(C, w)).value.data.state == Committed
  {
    ReachesAbortedCommit();
    SpentChecksums();
    SecondTry(GOOD.(checksums := Some(OTHER_SUMS)));
  }

  // ---- A rejection that a waived review leaves behind ----

  const WAIVING: Config := C.(qaRequired := false)

  /** What the merge visits of any life can do about a session with this data. */
  ghost predicate DeliveredNeverFinished(d: SessionData, terms: WorkflowDelivery.Terms) {
    var s := Durable(d, []);
    && Reaches(C, s) && WorkflowDelivery.CanReach(ID, s, terms, PrOpen)
    && !WorkflowDelivery.CanReach(ID, s, terms, Done)
  }

  lemma RejectedIsNeverFinished(d: SessionData, terms: WorkflowDelivery.Terms)
    requires Reaches(C, Durable(d, [])) && terms.legible
    requires d.state == ReadyToCommit && WorkflowDelivery.HasDeliveryRoom(d) && LatestVerdict(d.qa) == Some(false)
    ensures DeliveredNeverFinished(d, terms)
  {
    ReachedIsSane(C, Durable(d, []));
    WorkflowDelivery.DeliveryExact(ID, Durable(d, []), terms);
    WorkflowDelivery.FinishExact(ID, Durable(d, []), terms);
  }

  /** And at PR_OPEN every visit that can read the report ends in FAILED. */
  lemma RejectedFailsEveryVisit(
    task: MergeCloseout.Config, d: SessionData, visit: MergeCloseout.World)
    requires Consistent(d) && d.state == PrOpen && LatestVerdict(d.qa) == Some(false) && visit.qaRead
    ensures MergeCloseout.StepOf(task, d, visit).0.state == Failed
  {
    MergeCloseout.StepIsOneEdge(task, d, visit);
    if MergeCloseout.GoesOn(MergeCloseout.StepOf(task, d, visit).1) {
      MergeCloseout.GoesSomewhere(task, d, visit);
      WorkflowDelivery.EnablingNeedsReview(task, d, visit);
    }
  }

  const ABORT_AFTER_REJECTION: World := GOOD.(review := Rejects, qaAborts := true)
  const REJECTED: SessionData := Reviewed(REVIEWING, ABORT_AFTER_REJECTION)

  lemma ReachesRejected()
    ensures Reaches(C, Durable(REJECTED, []))
  {
    ReachesReviewing(C);
    assert ReviewQa(REVIEWING, ABORT_AFTER_REJECTION, true) == RunReview(REVIEWING, ABORT_AFTER_REJECTION);
    Onwards(C, Durable(REVIEWING, []), Drive(C, ABORT_AFTER_REJECTION));
  }

  /**
   A review rejects and its report is written, then the process dies. Resumed with the review waived, the
   session goes on to the commit and can be delivered, but no life finishes it.
   */
  lemma WaivedRejectionIsNeverFinished(terms: WorkflowDelivery.Terms)
    requires terms.legible
    ensures DeliveredNeverFinished(Move(REJECTED, ReadyToCommit), terms)
  {
    ReachesRejected();
    Onwards(C, Durable(REJECTED, []), Drive(WAIVING, GOOD));
    assert REJECTED.qa == map[1 := false] && IsLatest(REJECTED.qa, 1);
    RejectedIsNeverFinished(Move(REJECTED, ReadyToCommit), terms);
  }

  const REJECTION: World := GOOD.(review := Rejects)
  const REJECTED_ONCE: SessionData := Reviewed(REVIEWING, REJECTION)
  const REPAIRING_ONCE: SessionData := Move(WithFailureReport(REJECTED_ONCE, true), Repairing)
  const REPAIRED: SessionData := Move(REPAIRING_ONCE.(repair := ONCE), Validating)
  const REVIEWING_AGAIN: SessionData := Move(REPAIRED, QaRunning)

  lemma ReachesRepairing()
    ensures Reaches(C, Durable(REPAIRING_ONCE, []))
  {
    ReachesReviewing(C);
    assert ReviewQa(REVIEWING, REJECTION, true) == RepairOrFail(REJECTED_ONCE, REJECTION);
    Onwards(C, Durable(REVIEWING, []), Drive(C, REJECTION));
  }

  lemma ReachesRepaired()
    ensures Reaches(C, Durable(REPAIRED, []))
  {
    ReachesRepairing();
    assert Repair(REPAIRING_ONCE, GOOD) == RepairCall(REPAIRING_ONCE, Usable);
    Onwards(C, Durable(REPAIRING_ONCE, []), Drive(C, GOOD));
  }

  lemma ReachesReviewingAgain()
    ensures Reaches(C, Durable(REVIEWING_AGAIN, []))
  {
    ReachesRepaired();
    Onwards(C, Durable(REPAIRED, []), Drive(C, GOOD));
  }

  lemma ReachesWaivedRound()
    ensures Reaches(C, Durable(Move(REVIEWING_AGAIN, ReadyToCommit), []))
  {
    ReachesReviewingAgain();
    Onwards(C, Durable(REVIEWING_AGAIN, []), Drive(WAIVING, GOOD));
  }

  /**
   The first round rejects, the repair succeeds, and the second round is waived: the rejection stays the
   last report.
   */
  lemma WaivedSecondRoundIsNeverFinished(terms: WorkflowDelivery.Terms)
    requires terms.legible
    ensures DeliveredNeverFinished(Move(REVIEWING_AGAIN, ReadyToCommit), terms)
  {
    ReachesWaivedRound();
    assert REVIEWING_AGAIN.qa == map[1 := false] && IsLatest(REVIEWING_AGAIN.qa, 1);
    RejectedIsNeverFinished(Move(REVIEWING_AGAIN, ReadyToCommit), terms);
  }
}
