/**
 What each approval call of agentos_workflow/approvals.py refuses and records: the view it leaves, field
 by field, the instant from which a deadline fires, and what it does then.
 */
module ApprovalEffects {
  import opened Support
  import opened ApprovalPolicies
  import opened Approvals
  import opened ApprovalLifecycle

  // ---- Requests ----

  /** The grounds of a refused request, in their order. */
  predicate RequestRefused(log: Log, id: string, gate: string, policy: ApprovalPolicy, now: int, error: Error) {
    var exists_ := exists e :: e in log && e.id == id;
    match error
    case ApprovalNotRequired => !policy.required
    case AlreadyExists => policy.required && exists_
    case InvalidEvent => policy.required && !exists_ && (id == "" || gate == "")
    case OutOfOrder =>
      && policy.required && !exists_ && id != "" && gate != ""
      && log != [] && now < log[|log| - 1].at
    case _ => false
  }

  lemma {:induction false} HistoryIsEmpty(log: Log, id: string)
    ensures History(log, id) == [] <==> !exists e :: e in log && e.id == id
  {
    if log != [] {
      var front, last := log[..|log| - 1], log[|log| - 1];
      assert log == front + [last];
      HistoryIsEmpty(front, id);
      HistoryAppend(front, last, id);
    }
  }

  /** What an accepted request opens: everything it was given, the deadline counted from it, and nothing decided. */
  predicate IsOpened(v: Approval, id: string, gate: string, checksums: Checksums, policy: ApprovalPolicy, now: int) {
    && v.id == id && v.gate == gate && v.requestedAt == now && v.checksums == checksums && v.policy == policy
    && v.status == Pending
    && (match policy.timeoutSeconds case Some(n) => v.deadline == Some(now + n) case None => v.deadline == None)
    && v.source == None && v.approver == None && v.decision == None && v.decidedAt == None
    && v.origin == None && v.applied == None && v.escalatedAt == None && !v.extensionGranted && v.invalidated == []
  }

  /** A request is refused exactly on its grounds, and otherwise opens the approval. */
  lemma FirstOfItsHistory(log: Log, e: Event)
    requires History(log, e.id) == [] && e.kind.RequestedEvent?
    ensures Current(log + [e], e.id) == Ok(Opened(e))
  {
    HistoryAppend(log, e, e.id);
    assert History(log + [e], e.id) == [e];
  }

  lemma RequestDecides(log: Log, id: string, gate: string, checksums: Checksums, policy: ApprovalPolicy, now: int)
    ensures var (log', r) := Requesting(log, id, gate, checksums, policy, now);
      && (forall error :: r == Err(error) <==> RequestRefused(log, id, gate, policy, now, error))
      && (r.Err? ==> log' == log)
      && (r.Ok? ==>
            && |log'| == |log| + 1 && log <= log' && log'[|log|].at == now
            && Current(log', id) == r && IsOpened(r.value, id, gate, checksums, policy, now))
  {
    HistoryIsEmpty(log, id);
    var (log', r) := Requesting(log, id, gate, checksums, policy, now);
    var e := Event(id, gate, now, RequestedEvent(policy, FirstDeadline(policy, now), checksums));
    if policy.required && History(log, id) == [] && id != "" && gate != "" {
      FirstOfItsHistory(log, e);
      assert (log', r) == if InOrder(log, now) then (log + [e], Ok(Opened(e))) else (log, Err(OutOfOrder));
    }
  }

  /** What a deadline that fires at an instant makes of a view. */
  predicate TimeoutApplied(v: Approval, action: TimeoutAction, now: int, w: Approval) {
    && w.id == v.id && w.gate == v.gate && w.requestedAt == v.requestedAt && w.policy == v.policy
    && w.checksums == v.checksums && w.invalidated == v.invalidated && w.applied == Some(action)
    && match action
       case AutoApprove =>
         && w.status == Approved && w.decision == Some(Approve) && w.origin == Some(Auto) && w.decidedAt == Some(now)
         && w.approver == None && w.source == None && w.deadline == v.deadline
       case Escalate =>
         && w.status == Escalated && w.escalatedAt == Some(now) && w.decision == v.decision
         && (if v.policy.extensionSeconds.Some? && !v.extensionGranted
             then w.extensionGranted && w.deadline == Some(now + v.policy.extensionSeconds.value)
             else w.extensionGranted == v.extensionGranted && w.deadline == v.deadline)
       case Pause => w.status == HumanInterventionRequired && w.decision == v.decision && w.deadline == v.deadline
       case Fail => w.status == Status.Failed && w.decision == v.decision && w.deadline == v.deadline
       case Cancel => w.status == Status.Cancelled && w.decision == v.decision && w.deadline == v.deadline
  }

  /** The action that governs: the fallback of an escalated approval, the timeout action of a pending one. */
  function ActionOf(v: Approval): TimeoutAction {
    match v.status
    case Escalated => v.policy.fallbackAction
    case _ => v.policy.timeoutAction
  }

  predicate HasExpired(v: Approval, now: int) {
    v.status in {Pending, Escalated} && v.deadline.Some? && v.deadline.value <= now
  }

  lemma TimeoutIsApplied(v: Approval, now: int)
    requires HasExpired(v, now)
    ensures IsDue(v, now) && TimeoutApplied(v, ActionOf(v), now, TimedOutView(v, now))
  {
    TimeoutEventsAreLegal(v, now);
  }

  /** An evaluation does nothing before the deadline, and from it on applies the governing action. */
  lemma EvaluationDecides(log: Log, id: string, now: int)
    requires WellKept(log) && Current(log, id).Ok?
    ensures var v := Current(log, id).value;
      var (log', r) := Evaluating(log, id, now);
      if !HasExpired(v, now) then log' == log && r == Ok(v)
      else if log[|log| - 1].at > now then log' == log && r == Err(OutOfOrder)
      else r.Ok? && Current(log', id) == r && TimeoutApplied(v, ActionOf(v), now, r.value)
  {
    var v := Current(log, id).value;
    assert log != [];
    if HasExpired(v, now) {
      TimeoutIsApplied(v, now);
      if InOrder(log, now) {
        assert Fires(log, id, now);
        DeadlineFires(log, id, now);
      }
    }
  }

  /**
   The deadline of an accepted request counts from the request: any evaluation before it leaves the log
   as it is, and the first one from it on applies the timeout action. Without a timeout none ever does.
   */
  lemma DeadlineCountsFromRequest(
    log: Log, id: string, gate: string, checksums: Checksums, policy: ApprovalPolicy, now: int, later: int)
    requires WellKept(log) && Requesting(log, id, gate, checksums, policy, now).1.Ok? && now <= later
    ensures var log' := Requesting(log, id, gate, checksums, policy, now).0;
      var v := Current(log', id);
      && v.Ok? && WellKept(log')
      && (if policy.timeoutSeconds.Some? && now + policy.timeoutSeconds.value <= later
          then Evaluating(log', id, later).1.Ok?
               && TimeoutApplied(v.value, policy.timeoutAction, later, Evaluating(log', id, later).1.value)
          else Evaluating(log', id, later) == (log', v))
  {
    RequestDecides(log, id, gate, checksums, policy, now);
    PerformKeepsWellKept(log, RequestCall(id, gate, checksums, policy, now));
    EvaluationDecides(Requesting(log, id, gate, checksums, policy, now).0, id, later);
  }

  // ---- Decisions ----

  /** The grounds on which a decision on the evaluated approval is refused, in their order. */
  predicate DecisionRefused(
    v: Approval, approver: string, source: Channel, log: Log, recordedAt: int, error: Error)
  {
    var open := v.status in {Pending, Escalated, HumanInterventionRequired, Approved};
    var listed := v.policy.approvers == [] || approver in v.policy.approvers;
    match error
    case Settled => !open
    case ChannelNotPermitted => open && source !in v.policy.channels
    case ApproverNotListed => open && source in v.policy.channels && !listed
    case InvalidEvent => open && source in v.policy.channels && listed && approver == ""
    case OutOfOrder =>
      && open && source in v.policy.channels && listed && approver != ""
      && log != [] && recordedAt < log[|log| - 1].at
    case _ => false
  }

  /** Who decided what, through which channel and when. */
  predicate DecisionRecorded(
    v: Approval, decision: Decision, approver: string, source: Channel, recordedAt: int, w: Approval)
  {
    && w == v.(status := w.status, decision := w.decision, approver := w.approver, source := w.source,
               decidedAt := w.decidedAt, origin := w.origin, applied := w.applied)
    && w.decision == Some(decision) && w.approver == Some(approver) && w.source == Some(source)
    && w.decidedAt == Some(recordedAt) && w.origin == Some(Manual) && w.applied == None
    && match decision
       case Approve => w.status == Approved
       case Reject => w.status == Rejected
       case RequestChanges => w.status == ChangesRequested
  }

  predicate DecisionAdmitted(v: Approval, approver: string, source: Channel) {
    && !IsTerminal(v.status) && source in v.policy.channels && approver != ""
    && (v.policy.approvers == [] || approver in v.policy.approvers)
  }

  /** An admitted decision is recorded at the end of the log. */
  lemma DecisionIsRecorded(
    log: Log, v: Approval, id: string, decision: Decision, approver: string, source: Channel, recordedAt: int)
    requires WellKept(log) && Current(log, id) == Ok(v) && DecisionAdmitted(v, approver, source)
    ensures var e := Event(id, v.gate, recordedAt, DecidedEvent(decision, Some(approver), Some(source), Manual, None));
      && Current(log + [e], id) == Ok(Refine(v, e))
      && DecisionRecorded(v, decision, approver, source, recordedAt, Refine(v, e))
  {
    AppendNext(log, Event(id, v.gate, recordedAt, DecidedEvent(decision, Some(approver), Some(source), Manual, None)));
  }

  lemma DecisionDecides(
    log: Log, id: string, decision: Decision, approver: string, source: Channel, evaluatedAt: int, recordedAt: int)
    requires WellKept(log)
    ensures var (evaluated, current) := Evaluating(log, id, evaluatedAt);
      var (log', r) := Deciding(log, id, decision, approver, source, evaluatedAt, recordedAt);
      if current.Err? then (log', r) == (evaluated, current)
      else
        && (forall error :: r == Err(error) <==>
              DecisionRefused(current.value, approver, source, evaluated, recordedAt, error))
        && (r.Err? ==> log' == evaluated)
        && (r.Ok? ==>
              && Current(log', id) == r
              && DecisionRecorded(current.value, decision, approver, source, recordedAt, r.value))
  {
    EvaluatingKeepsWellKept(log, id, evaluatedAt);
    var (evaluated, current) := Evaluating(log, id, evaluatedAt);
    if current.Ok? {
      var v := current.value;
      if DecisionAdmitted(v, approver, source) {
        DecisionIsRecorded(evaluated, v, id, decision, approver, source, recordedAt);
      }
      RefusalByGround(evaluated, v, id, decision, approver, source, recordedAt);
    }
  }

  lemma OpenStatuses(s: Status)
    ensures !IsTerminal(s) <==> s in {Pending, Escalated, HumanInterventionRequired, Approved}
  {
    match s
    case Pending =>
    case Approved =>
    case Rejected =>
    case ChangesRequested =>
    case HumanInterventionRequired =>
    case Escalated =>
    case Failed =>
    case Cancelled =>
    case Invalidated =>
    case Consumed =>
  }

  lemma RefusalByGround(
    log: Log, v: Approval, id: string, decision: Decision, approver: string, source: Channel, recordedAt: int)
    requires DecisionAdmitted(v, approver, source) ==>
      var e := Event(id, v.gate, recordedAt, DecidedEvent(decision, Some(approver), Some(source), Manual, None));
      Current(log + [e], id).Ok?
    ensures forall error ::
      Recording(log, v, id, decision, approver, source, recordedAt).1 == Err(error)
      <==> DecisionRefused(v, approver, source, log, recordedAt, error)
  {
    var r := Recording(log, v, id, decision, approver, source, recordedAt).1;
    OpenStatuses(v.status);
    if DecisionAdmitted(v, approver, source) {
      assert r.Err? <==> !InOrder(log, recordedAt);
      assert r.Err? ==> r.error == OutOfOrder;
    } else {
      assert r.Err? && DecisionRefused(v, approver, source, log, recordedAt, r.error);
    }
  }

  // ---- Consumption ----

  lemma DifferencesByKind(a: Checksums, b: Checksums)
    ensures forall kind :: kind in Differences(a, b) <==> BindingDiffers(kind, a, b)
    ensures Differences(a, b) == [] <==> a == b
  {
  }

  /** The last event of an approval that is spent, or found bound to something else. */
  function SpendingEvent(v: Approval, id: string, checksums: Checksums, now: int): Event {
    var changed := Differences(v.checksums, checksums);
    Event(id, v.gate, now, if changed != [] then InvalidatedEvent(changed, checksums) else ConsumedEvent)
  }

  lemma SpendingIsRecorded(v: Approval, id: string, checksums: Checksums, now: int)
    requires v.status == Approved
    ensures var e := SpendingEvent(v, id, checksums, now);
      LegalNext(v, e) && ConsumptionRecorded(v, checksums, Refine(v, e))
  {
    DifferencesByKind(v.checksums, checksums);
  }

  predicate ConsumptionRecorded(v: Approval, checksums: Checksums, w: Approval) {
    && w == v.(status := w.status, invalidated := w.invalidated)
    && if v.checksums == checksums then w.status == Consumed && w.invalidated == v.invalidated
       else w.status == Invalidated
            && forall kind :: kind in w.invalidated <==> BindingDiffers(kind, v.checksums, checksums)
  }

  lemma ConsumptionDecides(log: Log, id: string, checksums: Checksums, now: int)
    requires WellKept(log)
    ensures var (evaluated, current) := Evaluating(log, id, now);
      var (log', r) := Consuming(log, id, checksums, now);
      if current.Err? then (log', r) == (evaluated, current)
      else if current.value.status != Approved then (log', r) == (evaluated, Err(NotApproved))
      else if !InOrder(evaluated, now) then (log', r) == (evaluated, Err(OutOfOrder))
      else r.Ok? && Current(log', id) == r && ConsumptionRecorded(current.value, checksums, r.value)
  {
    EvaluatingKeepsWellKept(log, id, now);
    var (evaluated, current) := Evaluating(log, id, now);
    if current.Ok? && current.value.status == Approved {
      SpendingIsRecorded(current.value, id, checksums, now);
      AppendNext(evaluated, SpendingEvent(current.value, id, checksums, now));
    }
  }

  predicate BindingDiffers(kind: ChecksumKind, a: Checksums, b: Checksums) {
    match kind
    case RepoState => a.repoState != b.repoState
    case Diff => a.diff != b.diff
    case AgentResult => a.agentResult != b.agentResult
    case GateResult => a.gateResult != b.gateResult
  }
}
