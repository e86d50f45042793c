/**
 What each step of the implementer's driver comes to, state by state: in terms of the session before
 it, the answers it met and, at the approval gate, of the approval as the log left by the visit shows it.
 */
module ImplementerOutcomes {
  import opened Support
  import opened WorkflowSessions
  import opened ImplementerRun
  import Approvals
  import ApprovalPolicies
  import ApprovalLifecycle
  import ApprovalEffects

  // ---- A series of attempts ----

  ghost predicate NoneUseful(a: Attempts, w: World) {
    forall n :: a.completed < n <= ATTEMPT_LIMIT ==> CallOf(w, n) == Unusable
  }

  /** The step fails the session. */
  predicate FailsWith(d: SessionData, e: SessionData, o: Outcome) {
    e.state == Failed && o == Outcome(d.state, Some(Failed), Failing)
  }

  predicate AdvancesTo(d: SessionData, to: WState, e: SessionData, o: Outcome) {
    e.state == to && o == Outcome(d.state, Some(to), Advanced)
  }

  /** The step raises where the session is. */
  predicate RaisesFor(d: SessionData, reason: Reason, e: SessionData, o: Outcome) {
    e.state == d.state && e.transitions == d.transitions && o == Outcome(d.state, None, Raised(reason))
  }

  /** Every call up to number n was reserved, and all of them recorded but one that was cut off in the call. */
  predicate CalledUpTo(a: Attempts, n: nat, call: Call, b: Attempts) {
    && b.calls == a.calls + n - a.completed
    && (if call == Aborts(AtReservation) then b.open && b.completed == n - 1 else !b.open && b.completed == n)
  }

  /** What the first useful answer brings: the next state, or a raise where it was cut off or may not report. */
  predicate AnswerDecides(
    call: Call, report: bool, d: SessionData, forward: WState, e: SessionData, o: Outcome)
  {
    match call
    case Aborts(after) =>
      && RaisesFor(d, Interrupted, e, o)
      && e.stageReport == (report || (d.state == Implementing && after == AtReport))
    case Usable =>
      && e.stageReport == (report || d.state == Implementing)
      && if d.state == Implementing && report then RaisesFor(d, ReportExists, e, o)
         else AdvancesTo(d, forward, e, o)
    case Unusable => false
  }

  /**
   What a series of attempts comes to: failure if no number up to the limit brings a useful answer, and
   otherwise what the first useful one brings, with exactly the calls up to it made.
   */
  ghost predicate SeriesDecides(
    a: Attempts, report: bool, d: SessionData, forward: WState, w: World, e: SessionData, o: Outcome)
  {
    && (NoneUseful(a, w) ==>
          FailsWith(d, e, o) && CalledUpTo(a, ATTEMPT_LIMIT, Unusable, Of(e, d.state)) && e.stageReport == report)
    && forall n :: FirstUseful(a, w, n) ==>
         && CalledUpTo(a, n, CallOf(w, n), Of(e, d.state))
         && AnswerDecides(CallOf(w, n), report, d, forward, e, o)
  }

  lemma OnlyOneIsFirst(a: Attempts, w: World, m: nat, n: nat)
    requires FirstUseful(a, w, m) && FirstUseful(a, w, n)
    ensures m == n
  {
  }

  lemma WithKeepsTheRest(d: SessionData, s: WState, a: Attempts)
    requires s in RETRYABLE
    ensures var e := With(d, s, a);
      && Of(e, s) == a && e.state == d.state && e.transitions == d.transitions
      && e.stageReport == d.stageReport
    ensures Of(With(d, s, a).(stageReport := true), s) == a
  {
  }

  /** The reaction to a series that has ended, once it is recorded. */
  lemma RecordedDecides(d: SessionData, forward: WState, a: Attempts, call: Call, r: Reaction)
    requires d.state in RETRYABLE && forward != Failed && call != Unusable
    requires var done := With(d, d.state, a);
      r == match call
        case Aborts(after) => Raises(Reporting(done, d.state == Implementing && after == AtReport), Interrupted)
        case _ =>
          if d.state == Implementing && d.stageReport then Raises(done, ReportExists)
          else Goes(Reporting(done, d.state == Implementing), forward)
    ensures AnswerDecides(call, d.stageReport, d, forward, r.data, r.outcome) && Of(r.data, d.state) == a
  {
    WithKeepsTheRest(d, d.state, a);
  }

  lemma UnusableDecides(d: SessionData, a: Attempts)
    requires d.state in RETRYABLE
    ensures var r := Goes(With(d, d.state, a), Failed);
      FailsWith(d, r.data, r.outcome) && Of(r.data, d.state) == a && r.data.stageReport == d.stageReport
  {
    WithKeepsTheRest(d, d.state, a);
  }

  lemma AttemptingDecides(d: SessionData, s: WState, forward: WState, w: World)
    requires d.state == s && s in RETRYABLE && !Of(d, s).open && forward != Failed
    ensures var r := Attempting(d, s, forward, w);
      SeriesDecides(Of(d, s), d.stageReport, d, forward, w, r.data, r.outcome)
  {
    var a := Of(d, s);
    var tried := TryFrom(a, w);
    TryStopsAtFirstUseful(a, w);
    if tried.ending == Unusable {
      assert Attempting(d, s, forward, w) == Goes(With(d, s, tried.attempts), Failed);
      UnusableDecides(d, tried.attempts);
      assert !exists n :: FirstUseful(a, w, n);
    } else {
      var m := Started(tried.attempts);
      TriedReaches(a, w);
      RecordedDecides(d, forward, tried.attempts, tried.ending, Attempting(d, s, forward, w));
      assert !NoneUseful(a, w);
      forall n | FirstUseful(a, w, n) ensures n == m {
        OnlyOneIsFirst(a, w, m, n);
      }
    }
  }

  /** How the attempts stand after the useful answer. */
  lemma {:induction false} TriedReaches(a: Attempts, w: World)
    requires !a.open
    ensures var tried := TryFrom(a, w);
      tried.ending != Unusable ==> CalledUpTo(a, Started(tried.attempts), tried.ending, tried.attempts)
    decreases ATTEMPT_LIMIT - a.completed
  {
    if a.completed < ATTEMPT_LIMIT && CallOf(w, a.completed + 1) == Unusable {
      TriedReaches(Complete(Reserve(a)), w);
    }
  }

  // ---- The approval gate ----

  /** The session is left alone and waits for a human. */
  predicate Waits(d: SessionData, e: SessionData, o: Outcome) {
    e == d && o == Outcome(d.state, None, AwaitingApproval)
  }

  /**
   What the replayed approval means for the commit: an undecided one waits, any refusal fails the
   session, and only a spent one lets the commit be attempted, where an attempt in flight is refused.
   */
  ghost predicate ApprovalDecides(v: Approvals.Approval, d: SessionData, w: World, e: SessionData, o: Outcome) {
    match v.status
    case Pending | HumanInterventionRequired | Escalated => Waits(d, e, o)
    case Rejected | ChangesRequested | Failed | Cancelled | Invalidated =>
      FailsWith(d, e, o) && e == Move(d, WorkflowSessions.Failed)
    case Approved => false
    case Consumed =>
      var a := Of(d, ReadyToCommit);
      if a.open then RaisesFor(d, LedgerRefused, e, o) && e == d
      else SeriesDecides(a, d.stageReport, d, Committed, w, e, o)
  }

  /** Every answer of the gate is the approval in the log it leaves, and an approved one has been spent. */
  lemma AnsweredIsCurrent(log: Approvals.Log, id: string, policy: PolicyAnswer, w: World)
    requires ApprovalLifecycle.WellKept(log)
    ensures var (log', g) := Gating(log, id, policy, w);
      g.Answered? && g.answer.Ok? ==>
        g.answer == Approvals.Current(log', id) && g.answer.value.status != Approvals.Approved
  {
    GatingIsOk(log, id, policy, w);
    if w.checksums.Some? {
      var current := Approvals.Current(log, id);
      if current.Ok? {
        SpendingNeverApproved(log, id, w.checksums.value, w);
      } else if policy.Ok? {
        var call := ApprovalLifecycle.RequestCall(id, GATE, w.checksums.value, policy.value, w.requestedAt);
        ApprovalLifecycle.PerformKeepsWellKept(log, call);
        SpendingNeverApproved(ApprovalLifecycle.Perform(log, call).0, id, w.checksums.value, w);
      }
    }
  }

  lemma SpendingNeverApproved(log: Approvals.Log, id: string, checksums: Approvals.Checksums, w: World)
    requires ApprovalLifecycle.WellKept(log)
    ensures var r := Spending(log, id, checksums, w).1; r.Ok? ==> r.value.status != Approvals.Approved
  {
    var (log', current) := Approvals.Evaluating(log, id, w.evaluatedAt);
    ApprovalLifecycle.EvaluatingKeepsWellKept(log, id, w.evaluatedAt);
    if current.Ok? && current.value.status == Approvals.Approved {
      ApprovalLifecycle.ConsumptionIsExact(log', id, checksums, w.consumedAt);
    }
  }

  lemma CommitDecides(d: SessionData, w: World, v: Approvals.Approval)
    requires d.state == ReadyToCommit && v.status != Approvals.Approved
    ensures var r := Commit(d, w, Answered(Ok(v))); ApprovalDecides(v, d, w, r.data, r.outcome)
  {
    if v.status == Approvals.Consumed {
      assert Commit(d, w, Answered(Ok(v))) == Deliver(d, ReadyToCommit, Committed, w);
      if !Of(d, ReadyToCommit).open {
        AttemptingDecides(d, ReadyToCommit, Committed, w);
      }
    }
  }

  /**
   A visit to READY_TO_COMMIT either raises at the gate and leaves the session alone, or comes to what
   the approval in the log it leaves means.
   */
  lemma GateVisitDecides(c: Config, s: Durable, w: World)
    requires ApprovalLifecycle.WellKept(s.log) && s.data.state == ReadyToCommit
    ensures var (t, o) := StepOf(c, s, w);
      var left := Approvals.Current(t.log, c.approvalId);
      if o.phase.Raised? && AtTheGate(o.phase.reason) then t.data == s.data
      else left.Ok? && ApprovalDecides(left.value, s.data, w, t.data, o)
  {
    var (log, g) := Gating(s.log, c.approvalId, c.policy, w);
    AnsweredIsCurrent(s.log, c.approvalId, c.policy, w);
    if g.Answered? && g.answer.Ok? {
      CommitDecides(s.data, w, g.answer.value);
    }
  }

  /** The same in both directions: when a visit waits, when it fails the session and when it goes on. */
  lemma GateVisitExactly(c: Config, s: Durable, w: World)
    requires ApprovalLifecycle.WellKept(s.log) && s.data.state == ReadyToCommit
    requires var o := StepOf(c, s, w).1; !(o.phase.Raised? && AtTheGate(o.phase.reason))
    ensures var (t, o) := StepOf(c, s, w);
      var left := Approvals.Current(t.log, c.approvalId);
      var a := Of(s.data, ReadyToCommit);
      && left.Ok?
      && (o.phase == AwaitingApproval <==>
            left.value.status in {Approvals.Pending, Approvals.HumanInterventionRequired, Approvals.Escalated})
      && (t.data.state == WorkflowSessions.Failed <==>
            || left.value.status in {Approvals.Rejected, Approvals.ChangesRequested, Approvals.Failed,
                                     Approvals.Cancelled, Approvals.Invalidated}
            || (left.value.status == Approvals.Consumed && !a.open && NoneUseful(a, w)))
      && (t.data.state == Committed <==>
            && left.value.status == Approvals.Consumed && !a.open
            && exists n :: FirstUseful(a, w, n) && CallOf(w, n) == Usable)
  {
    GateVisitDecides(c, s, w);
    var a := Of(s.data, ReadyToCommit);
    SomeOrNone(a, w);
  }

  lemma SomeOrNone(a: Attempts, w: World)
    ensures NoneUseful(a, w) <==> !exists n :: FirstUseful(a, w, n)
  {
    if !NoneUseful(a, w) {
      var n :| a.completed < n <= ATTEMPT_LIMIT && CallOf(w, n) != Unusable;
      var first := FirstFrom(a, w, a.completed + 1, n);
      assert FirstUseful(a, w, first);
    }
  }

  lemma FirstFrom(a: Attempts, w: World, k: nat, n: nat) returns (first: nat)
    requires a.completed < k <= n <= ATTEMPT_LIMIT && CallOf(w, n) != Unusable
    requires forall j :: a.completed < j < k ==> CallOf(w, j) == Unusable
    ensures FirstUseful(a, w, first)
    decreases n - k
  {
    if CallOf(w, k) != Unusable {
      first := k;
    } else {
      first := FirstFrom(a, w, k + 1, n);
    }
  }

  // ---- When the gate raises ----

  /** The readings of one visit do not go back, nor behind the log. */
  predicate ClockHolds(log: Approvals.Log, w: World) {
    Approvals.InOrder(log, w.requestedAt) && w.requestedAt <= w.evaluatedAt <= w.consumedAt
  }

  lemma SpendingAnswers(log: Approvals.Log, id: string, checksums: Approvals.Checksums, w: World)
    requires ApprovalLifecycle.WellKept(log) && Approvals.Current(log, id).Ok?
    requires Approvals.InOrder(log, w.evaluatedAt) && w.evaluatedAt <= w.consumedAt
    ensures Spending(log, id, checksums, w).1.Ok?
  {
    if ApprovalLifecycle.Fires(log, id, w.evaluatedAt) {
      ApprovalLifecycle.DeadlineFires(log, id, w.evaluatedAt);
    }
    var (log', current) := Approvals.Evaluating(log, id, w.evaluatedAt);
    ApprovalLifecycle.EvaluatingKeepsWellKept(log, id, w.evaluatedAt);
    if current.value.status == Approvals.Approved {
      assert Approvals.Evaluating(log', id, w.consumedAt) == (log', current);
      ApprovalLifecycle.ConsumptionIsExact(log', id, checksums, w.consumedAt);
    }
  }

  lemma OpeningAnswers(
    log: Approvals.Log, id: string, policy: ApprovalPolicies.ApprovalPolicy, checksums: Approvals.Checksums, w: World)
    requires ApprovalLifecycle.WellKept(log) && Approvals.Current(log, id) == Err(Approvals.NotFound)
    requires policy.required && id != "" && ClockHolds(log, w)
    ensures Opening(log, id, policy, checksums, w).1.Ok?
  {
    var call := ApprovalLifecycle.RequestCall(id, GATE, checksums, policy, w.requestedAt);
    ApprovalLifecycle.PerformKeepsWellKept(log, call);
    var (log', r) := Approvals.Requesting(log, id, GATE, checksums, policy, w.requestedAt);
    var e := log'[|log|];
    assert log' == log + [e] && e.kind.RequestedEvent?;
    ApprovalLifecycle.HistoryAppend(log, e, id);
    assert Approvals.History(log', id) == [e];
    SpendingAnswers(log', id, checksums, w);
  }

  /**
   With a clock that holds, a visit raises at the gate exactly when the checksums cannot be taken or no
   visit gets as far as evaluating the approval, and it says which.
   */
  lemma GateRaisesExactly(c: Config, s: Durable, w: World)
    requires ApprovalLifecycle.WellKept(s.log) && s.data.state == ReadyToCommit && ClockHolds(s.log, w)
    ensures var o := StepOf(c, s, w).1;
      var current := Approvals.Current(s.log, c.approvalId);
      && (o.phase.Raised? && AtTheGate(o.phase.reason) <==> w.checksums.None? || GateClosed(c, s.log))
      && (o.phase == Raised(ChecksumsUnavailable) <==> w.checksums.None?)
      && (w.checksums.Some? && GateClosed(c, s.log) ==>
            if current.error != Approvals.NotFound then o.phase == Raised(ApprovalRefused(current.error))
            else if c.policy.Err? then o.phase == Raised(PolicyRefused(c.policy.error))
            else o.phase == Raised(ApprovalRefused(
              if !c.policy.value.required then Approvals.ApprovalNotRequired else Approvals.InvalidEvent)))
  {
    var (log, g) := Gating(s.log, c.approvalId, c.policy, w);
    if w.checksums.Some? && !GateClosed(c, s.log) {
      if Approvals.Current(s.log, c.approvalId).Ok? {
        SpendingAnswers(s.log, c.approvalId, w.checksums.value, w);
      } else {
        OpeningAnswers(s.log, c.approvalId, c.policy.value, w.checksums.value, w);
      }
      AnsweredIsCurrent(s.log, c.approvalId, c.policy, w);
      CommitDecides(s.data, w, g.answer.value);
      AnsweredDoesNotRaise(s.data, w, g.answer.value);
    }
  }

  lemma AnsweredDoesNotRaise(d: SessionData, w: World, v: Approvals.Approval)
    requires d.state == ReadyToCommit
    ensures var phase := Commit(d, w, Answered(Ok(v))).outcome.phase; !(phase.Raised? && AtTheGate(phase.reason))
  {
  }

  // ---- What a visit makes of the approval ----

  /** The approval after the deadline has been looked at. */
  predicate EvaluatedTo(v: Approvals.Approval, at: int, x: Approvals.Approval) {
    if ApprovalEffects.HasExpired(v, at)
    then ApprovalEffects.TimeoutApplied(v, ApprovalEffects.ActionOf(v), at, x)
    else x == v
  }

  /** The approval after it has been spent, if there was anything to spend. */
  predicate SpentTo(x: Approvals.Approval, checksums: Approvals.Checksums, y: Approvals.Approval) {
    if x.status == Approvals.Approved then ApprovalEffects.ConsumptionRecorded(x, checksums, y) else y == x
  }

  /** A visit looks at the deadline first and spends second. */
  ghost predicate VisitedTo(
    v: Approvals.Approval, at: int, checksums: Approvals.Checksums, y: Approvals.Approval)
  {
    exists x :: EvaluatedTo(v, at, x) && SpentTo(x, checksums, y)
  }

  lemma SpendingVisits(log: Approvals.Log, id: string, checksums: Approvals.Checksums, w: World)
    requires ApprovalLifecycle.WellKept(log) && Approvals.Current(log, id).Ok?
    requires Approvals.InOrder(log, w.evaluatedAt) && w.evaluatedAt <= w.consumedAt
    ensures var y := Spending(log, id, checksums, w).1;
      y.Ok? && VisitedTo(Approvals.Current(log, id).value, w.evaluatedAt, checksums, y.value)
  {
    var (log', current) := Approvals.Evaluating(log, id, w.evaluatedAt);
    ApprovalEffects.EvaluationDecides(log, id, w.evaluatedAt);
    assert EvaluatedTo(Approvals.Current(log, id).value, w.evaluatedAt, current.value);
    SpendingAnswers(log, id, checksums, w);
    if current.value.status == Approvals.Approved {
      ApprovalLifecycle.EvaluatingKeepsWellKept(log, id, w.evaluatedAt);
      ApprovedStays(log', id, w.consumedAt, current.value);
      ApprovalEffects.ConsumptionDecides(log', id, checksums, w.consumedAt);
    }
    assert SpentTo(current.value, checksums, Spending(log, id, checksums, w).1.value);
  }

  lemma ApprovedStays(log: Approvals.Log, id: string, at: int, v: Approvals.Approval)
    requires ApprovalLifecycle.WellKept(log) && Approvals.Current(log, id) == Ok(v) && v.status == Approvals.Approved
    ensures Approvals.Evaluating(log, id, at) == (log, Ok(v))
  {
    ApprovalEffects.EvaluationDecides(log, id, at);
  }

  /**
   With a clock that holds and a gate that is not closed, a visit opens the approval if there is none,
   with the checksums taken now, applies its deadline and spends it if that leaves it approved.
   */
  lemma GateLeaves(c: Config, s: Durable, w: World)
    requires ApprovalLifecycle.WellKept(s.log) && s.data.state == ReadyToCommit && ClockHolds(s.log, w)
    requires w.checksums.Some? && !GateClosed(c, s.log)
    ensures var left := Approvals.Current(StepOf(c, s, w).0.log, c.approvalId);
      var before := Approvals.Current(s.log, c.approvalId);
      && left.Ok?
      && if before.Ok? then VisitedTo(before.value, w.evaluatedAt, w.checksums.value, left.value)
         else exists v ::
           && ApprovalEffects.IsOpened(v, c.approvalId, GATE, w.checksums.value, c.policy.value, w.requestedAt)
           && VisitedTo(v, w.evaluatedAt, w.checksums.value, left.value)
  {
    var id, checksums := c.approvalId, w.checksums.value;
    AnsweredIsCurrent(s.log, id, c.policy, w);
    if Approvals.Current(s.log, id).Ok? {
      SpendingVisits(s.log, id, checksums, w);
    } else {
      OpeningVisits(s.log, id, c.policy.value, checksums, w);
    }
  }

  lemma OpeningVisits(
    log: Approvals.Log, id: string, policy: ApprovalPolicies.ApprovalPolicy, checksums: Approvals.Checksums, w: World)
    requires ApprovalLifecycle.WellKept(log) && Approvals.Current(log, id) == Err(Approvals.NotFound)
    requires policy.required && id != "" && ClockHolds(log, w)
    ensures var y := Opening(log, id, policy, checksums, w).1;
      y.Ok? && exists v ::
        && ApprovalEffects.IsOpened(v, id, GATE, checksums, policy, w.requestedAt)
        && VisitedTo(v, w.evaluatedAt, checksums, y.value)
  {
    OpeningAnswers(log, id, policy, checksums, w);
    var call := ApprovalLifecycle.RequestCall(id, GATE, checksums, policy, w.requestedAt);
    ApprovalLifecycle.PerformKeepsWellKept(log, call);
    ApprovalEffects.RequestDecides(log, id, GATE, checksums, policy, w.requestedAt);
    var (log', v) := Approvals.Requesting(log, id, GATE, checksums, policy, w.requestedAt);
    SpendingVisits(log', id, checksums, w);
  }

  // ---- The other states ----

  predicate SameReviews(d: SessionData, e: SessionData) {
    e.qa == d.qa && e.asked == d.asked
  }

  /** The two checks, and the move that needs none. */
  lemma ChecksDecide(c: Config, s: Durable, w: World)
    requires s.data.state in {Authorized, PreconditionsChecked, BranchCreated}
    ensures var (t, o) := StepOf(c, s, w);
      var next := match s.data.state case Authorized => PreconditionsChecked case PreconditionsChecked => BranchCreated
                                     case _ => Implementing;
      && t.log == s.log
      && if s.data.state == BranchCreated || w.check
         then AdvancesTo(s.data, next, t.data, o) && t.data == Move(s.data, next)
         else FailsWith(s.data, t.data, o) && t.data == Move(s.data, Failed)
  {
  }

  /** A crashed attempt is recorded before anything else. */
  lemma ImplementationDecides(c: Config, s: Durable, w: World)
    requires s.data.state == Implementing
    ensures var (t, o) := StepOf(c, s, w);
      var (d, e) := (s.data, t.data);
      var a := Of(d, Implementing);
      && t.log == s.log
      && if !a.open && a.completed >= ATTEMPT_LIMIT then RaisesFor(d, LedgerRefused, e, o) && e == d
         else if !a.open then SeriesDecides(a, d.stageReport, d, Validating, w, e, o)
         else
           var closed: Attempts := Attempts(a.completed + 1, false, a.calls);
           if w.aborts then
             RaisesFor(d, Interrupted, e, o) && Of(e, Implementing) == closed && e.stageReport == d.stageReport
           else if w.leftDiff then
             AdvancesTo(d, Validating, e, o) && Of(e, Implementing) == closed && e.stageReport == d.stageReport
           else SeriesDecides(closed, d.stageReport, d, Validating, w, e, o)
  {
    var a := Of(s.data, Implementing);
    assert StepOf(c, s, w) == (Durable(Implement(s.data, w).data, s.log), Implement(s.data, w).outcome);
    if a.open {
      ClosedDecides(s.data, w);
    } else if a.completed < ATTEMPT_LIMIT {
      AttemptingDecides(s.data, Implementing, Validating, w);
    }
  }

  lemma ClosedDecides(d: SessionData, w: World)
    requires d.state == Implementing && Of(d, Implementing).open
    ensures var r := Implement(d, w);
      var closed: Attempts := Attempts(Of(d, Implementing).completed + 1, false, Of(d, Implementing).calls);
      if w.aborts || w.leftDiff then
        && Of(r.data, Implementing) == closed && r.data.stageReport == d.stageReport
        && if w.aborts then RaisesFor(d, Interrupted, r.data, r.outcome)
           else AdvancesTo(d, Validating, r.data, r.outcome)
      else SeriesDecides(closed, d.stageReport, d, Validating, w, r.data, r.outcome)
  {
    var closed := Closed(d, Implementing);
    WithKeepsTheRest(d, Implementing, Complete(Of(d, Implementing)));
    if !w.aborts && !w.leftDiff {
      AttemptingDecides(closed, Implementing, Validating, w);
      SeriesFromClosed(d, closed, w, Attempting(closed, Implementing, Validating, w));
    }
  }

  lemma SeriesFromClosed(d: SessionData, closed: SessionData, w: World, r: Reaction)
    requires closed.state == d.state == Implementing && closed.transitions == d.transitions
    requires closed.stageReport == d.stageReport
    requires SeriesDecides(Of(closed, Implementing), d.stageReport, closed, Validating, w, r.data, r.outcome)
    ensures SeriesDecides(Of(closed, Implementing), d.stageReport, d, Validating, w, r.data, r.outcome)
  {
  }

  /** A repair is entered with its numbered report, or the session fails for want of one more. */
  predicate RepairEntryDecides(d: SessionData, w: World, e: SessionData, o: Outcome) {
    if d.repair.completed >= ATTEMPT_LIMIT then FailsWith(d, e, o) && e.failureReports == d.failureReports
    else
      && e.failureReports == d.failureReports + (if w.reported then {d.repair.completed + 1} else {})
      && e.repair == d.repair
      && if w.aborts then RaisesFor(d, Interrupted, e, o) else AdvancesTo(d, Repairing, e, o)
  }

  lemma ValidationDecides(c: Config, s: Durable, w: World)
    requires s.data.state == Validating
    ensures var (t, o) := StepOf(c, s, w);
      var (d, e) := (s.data, t.data);
      && t.log == s.log && SameReviews(d, e)
      && if !d.stageReport then RaisesFor(d, ReportMissing, e, o) && e == d
         else match w.validation
           case Passes => AdvancesTo(d, QaRunning, e, o)
           case NotRepairable => FailsWith(d, e, o)
           case Repairable => RepairEntryDecides(d, w, e, o)
  {
  }

  /** What a review leaves: its verdict if that was written and none was there, and its session. */
  predicate ReviewLeaves(d: SessionData, w: World, verdict: bool, e: SessionData) {
    var round := d.repair.completed + 1;
    && e.qa == (if w.qaReported && round !in d.qa then d.qa[round := verdict] else d.qa)
    && e.asked == (if w.review == NoSession then d.asked else d.asked + {round})
  }

  predicate VerdictDecides(d: SessionData, w: World, verdict: bool, e: SessionData, o: Outcome) {
    if verdict then AdvancesTo(d, ReadyToCommit, e, o) else RepairEntryDecides(d, w, e, o)
  }

  /** m is the session after whatever the review left. */
  lemma ConcludingDecides(d: SessionData, m: SessionData, w: World, verdict: bool)
    requires d.state == m.state == QaRunning && m.transitions == d.transitions
    requires m.repair == d.repair && m.failureReports == d.failureReports
    ensures var r := ConcludeQa(m, w, verdict);
      VerdictDecides(d, w, verdict, r.data, r.outcome) && SameReviews(m, r.data)
  {
  }

  lemma NewReviewDecides(d: SessionData, w: World)
    requires d.state == QaRunning
    ensures var r := RunReview(d, w);
      var verdict := w.review == Approves && d.repair.completed + 1 !in d.asked;
      && ReviewLeaves(d, w, verdict, r.data)
      && if w.qaAborts then RaisesFor(d, Interrupted, r.data, r.outcome)
         else VerdictDecides(d, w, verdict, r.data, r.outcome)
  {
    var m := Reviewed(d, w);
    assert d.asked + {} == d.asked;
    assert ReviewLeaves(d, w, Approving(d, w), m);
    ConcludingDecides(d, m, w, Approving(d, w));
  }

  /** What is decided of a review, waived, read back or made. */
  predicate ReviewedAs(d: SessionData, w: World, required: bool, e: SessionData, o: Outcome) {
    var round := d.repair.completed + 1;
    if !required then SameReviews(d, e) && AdvancesTo(d, ReadyToCommit, e, o)
    else if round in d.qa && w.qaRead then SameReviews(d, e) && VerdictDecides(d, w, d.qa[round], e, o)
    else
      var verdict := w.review == Approves && round !in d.asked;
      && ReviewLeaves(d, w, verdict, e)
      && if w.qaAborts then RaisesFor(d, Interrupted, e, o) else VerdictDecides(d, w, verdict, e, o)
  }

  lemma ReviewReaction(d: SessionData, w: World, required: bool)
    requires d.state == QaRunning
    ensures var r := ReviewQa(d, w, required); ReviewedAs(d, w, required, r.data, r.outcome)
  {
    if !required {
      assert ReviewQa(d, w, false) == ConcludeQa(d, w, true);
      ConcludingDecides(d, d, w, true);
    } else if ReadBack(d, w) {
      assert ReviewQa(d, w, true) == ConcludeQa(d, w, d.qa[Round(d)]);
      ConcludingDecides(d, d, w, d.qa[Round(d)]);
    } else {
      assert ReviewQa(d, w, true) == RunReview(d, w);
      NewReviewDecides(d, w);
    }
  }

  lemma ReviewDecides(c: Config, s: Durable, w: World)
    requires s.data.state == QaRunning
    ensures var (t, o) := StepOf(c, s, w); t.log == s.log && ReviewedAs(s.data, w, c.qaRequired, t.data, o)
  {
    ReviewReaction(s.data, w, c.qaRequired);
  }

  /** A repair in flight fails the session, one without its report raises, and any other is one call. */
  lemma RepairDecides(c: Config, s: Durable, w: World)
    requires s.data.state == Repairing
    ensures var (t, o) := StepOf(c, s, w);
      var (d, e) := (s.data, t.data);
      var n := d.repair.completed + 1;
      && t.log == s.log && SameReviews(d, e)
      && if d.repair.open then FailsWith(d, e, o) && e.repair == d.repair
         else if n !in d.failureReports then RaisesFor(d, ReportMissing, e, o) && e == d
         else if n > ATTEMPT_LIMIT then RaisesFor(d, LedgerRefused, e, o) && e == d
         else
           && CalledUpTo(d.repair, n, CallOf(w, n), e.repair)
           && match CallOf(w, n)
              case Aborts(after) =>
                RaisesFor(d, Interrupted, e, o) && e.stageReport == (d.stageReport || after == AtReport)
              case Usable => AdvancesTo(d, Validating, e, o) && e.stageReport
              case Unusable => FailsWith(d, e, o) && e.stageReport == d.stageReport
  {
  }

  /** The push and the pull request: an attempt in flight is refused, and otherwise a series is made. */
  lemma DeliveryDecides(c: Config, s: Durable, w: World)
    requires s.data.state in {Committed, Pushed}
    ensures var (t, o) := StepOf(c, s, w);
      var (d, e) := (s.data, t.data);
      && t.log == s.log
      && if Of(d, d.state).open then RaisesFor(d, LedgerRefused, e, o) && e == d
         else SeriesDecides(Of(d, d.state), d.stageReport, d, if d.state == Committed then Pushed else PrOpen, w, e, o)
  {
    var forward := if s.data.state == Committed then Pushed else PrOpen;
    if !Of(s.data, s.data.state).open {
      AttemptingDecides(s.data, s.data.state, forward, w);
    }
  }

  /** Everywhere else there is nothing for this driver to do. */
  lemma OthersRaise(c: Config, s: Durable, w: World)
    requires !IsDriven(s.data.state)
    ensures var (t, o) := StepOf(c, s, w); t == s && RaisesFor(s.data, NoHandler, t.data, o)
  {
  }
}
