/**
 The foreground implementer driver of agentos_workflow/implementer.py, from AUTHORIZED to PR_OPEN.
 What Skills, providers and clocks answer is a parameter of every step, and so is whether the
 action is aborted, by the process dying or by an exception, after a durable write.
 */
module ImplementerRun {
  import opened Support
  import opened DriverLoop
  import opened WorkflowSessions
  import ApprovalPolicies
  import Approvals
  import ApprovalLifecycle

  datatype Reason =
    | Interrupted | LedgerRefused | ReportMissing | ReportExists | NoHandler | ChecksumsUnavailable
    | ApprovalRefused(refusal: Approvals.Error) | PolicyRefused(cause: ApprovalPolicies.PolicyError)
  datatype Phase = Advanced | AwaitingApproval | Failing | Raised(reason: Reason)
  datatype Outcome = Outcome(from: WState, to: Option<WState>, phase: Phase)

  /** The last durable write of an aborted attempt. */
  datatype Reached = AtReservation | AtRecord | AtReport

  /**
   How one reserved external call ends: with a result, or with the attempt aborted, be it that the
   process dies or that an exception leaves the call or what follows it.
   */
  datatype Call = Aborts(after: Reached) | Usable | Unusable

  datatype Verdict = Passes | Repairable | NotRepairable

  /** What the review provider answers: it does not start, or it reviews. */
  datatype Review = NoSession | Rejects | Approves

  /**
   What one step meets outside: check is the precondition or branch check, first to third the answers
   to the attempts of those numbers, qaRead whether the QA reports could be read, reported and qaReported
   whether a report could be written, aborts and qaAborts whether the step is aborted right after one; the
   checksums are those of the working tree, where it can be inspected.
   */
  datatype World = World(
    check: bool, first: Call, second: Call, third: Call, leftDiff: bool, validation: Verdict,
    review: Review, qaRead: bool, reported: bool, aborts: bool, qaReported: bool, qaAborts: bool,
    checksums: Option<Approvals.Checksums>, requestedAt: int, evaluatedAt: int, consumedAt: int)

  /** Attempt numbers run from one to the limit of three. */
  function CallOf(w: World, n: nat): Call {
    if n <= 1 then w.first else if n == 2 then w.second else w.third
  }

  datatype Reaction = Reaction(data: SessionData, outcome: Outcome)

  /** Steps from a state to PR_OPEN when no repair is needed; 0 where the driver has no handler. */
  function Distance(s: WState): nat {
    match s
    case Authorized => 9
    case PreconditionsChecked => 8
    case BranchCreated => 7
    case Implementing => 6
    case Validating => 5
    case QaRunning => 4
    case Repairing => 3
    case ReadyToCommit => 3
    case Committed => 2
    case Pushed => 1
    case _ => 0
  }

  predicate IsDriven(s: WState) {
    Distance(s) > 0
  }

  // ---- The handlers as functions of the durable state and the world ----

  function Goes(d: SessionData, to: WState): Reaction {
    Reaction(Move(d, to), Outcome(d.state, Some(to), if to == Failed then Failing else Advanced))
  }

  function Raises(d: SessionData, reason: Reason): Reaction {
    Reaction(d, Outcome(d.state, None, Raised(reason)))
  }

  /** Where a series of attempts leaves their count, and the answer that ended it. */
  datatype Tried = Tried(attempts: Attempts, ending: Call)

  /** Attempts, within one step, until one is usable or the limit is used up. */
  function TryFrom(a: Attempts, w: World): Tried
    requires !a.open
    decreases ATTEMPT_LIMIT - a.completed
  {
    if a.completed >= ATTEMPT_LIMIT then Tried(a, Unusable)
    else
      var done := Complete(Reserve(a));
      match CallOf(w, a.completed + 1)
      case Aborts(after) => Tried(if after == AtReservation then Reserve(a) else done, Aborts(after))
      case Usable => Tried(done, Usable)
      case Unusable => TryFrom(done, w)
  }

  function Reporting(d: SessionData, report: bool): SessionData {
    if report then d.(stageReport := true) else d
  }

  /** A stage report that exists is never written over, so a second usable implementation raises. */
  function Attempting(d: SessionData, s: WState, forward: WState, w: World): Reaction
    requires !Of(d, s).open
  {
    var tried := TryFrom(Of(d, s), w);
    var done := With(d, s, tried.attempts);
    match tried.ending
    case Aborts(after) => Raises(Reporting(done, s == Implementing && after == AtReport), Interrupted)
    case Usable =>
      if s == Implementing && d.stageReport then Raises(done, ReportExists)
      else Goes(Reporting(done, s == Implementing), forward)
    case Unusable => Goes(done, Failed)
  }

  function Closed(d: SessionData, s: WState): SessionData
    requires Of(d, s).open
  {
    With(d, s, Complete(Of(d, s)))
  }

  /** A crashed attempt is closed first; a diff it left behind is carried on to validation. */
  function Implement(d: SessionData, w: World): Reaction {
    if Of(d, Implementing).open then
      var closed := Closed(d, Implementing);
      if w.aborts then Raises(closed, Interrupted)
      else if w.leftDiff then Goes(closed, Validating)
      else Attempting(closed, Implementing, Validating, w)
    else if Of(d, Implementing).completed >= ATTEMPT_LIMIT then Raises(d, LedgerRefused)
    else Attempting(d, Implementing, Validating, w)
  }

  /** The session with the failure report of the coming repair, if that was written. */
  function WithFailureReport(d: SessionData, written: bool): SessionData {
    d.(failureReports := d.failureReports + if written then {d.repair.completed + 1} else {})
  }

  function RepairOrFail(d: SessionData, w: World): Reaction {
    if d.repair.completed >= ATTEMPT_LIMIT then Goes(d, Failed)
    else
      var next := WithFailureReport(d, w.reported);
      if w.aborts then Raises(next, Interrupted) else Goes(next, Repairing)
  }

  function Validate(d: SessionData, w: World): Reaction {
    if !d.stageReport then Raises(d, ReportMissing)
    else
      match w.validation
      case Passes => Goes(d, QaRunning)
      case NotRepairable => Goes(d, Failed)
      case Repairable => RepairOrFail(d, w)
  }

  function ConcludeQa(d: SessionData, w: World, approved: bool): Reaction {
    if approved then Goes(d, ReadyToCommit) else RepairOrFail(d, w)
  }

  /** The round of review a session is in, one more than its repairs. */
  function Round(d: SessionData): nat {
    d.repair.completed + 1
  }

  /** A round is reviewed once: the provider refuses a second session of the same name, which is a rejection. */
  predicate Approving(d: SessionData, w: World) {
    w.review == Approves && Round(d) !in d.asked
  }

  /** The verdict on disk for this round is there and can be read. */
  predicate ReadBack(d: SessionData, w: World) {
    Round(d) in d.qa && w.qaRead
  }

  /** The verdict of the round, read back or given now. */
  predicate Decided(d: SessionData, w: World) {
    if ReadBack(d, w) then d.qa[Round(d)] else Approving(d, w)
  }

  /** The session after a review whose report was written, or was not; one that exists is left alone. */
  function Reviewed(d: SessionData, w: World): SessionData {
    d.(asked := d.asked + (if w.review == NoSession then {} else {Round(d)}),
       qa := if w.qaReported && Round(d) !in d.qa then d.qa[Round(d) := Approving(d, w)] else d.qa)
  }

  function RunReview(d: SessionData, w: World): Reaction {
    if w.qaAborts then Raises(Reviewed(d, w), Interrupted) else ConcludeQa(Reviewed(d, w), w, Approving(d, w))
  }

  /** A verdict already on disk for this round is read back instead of asking again. */
  function ReviewQa(d: SessionData, w: World, required: bool): Reaction {
    if !required then ConcludeQa(d, w, true)
    else if ReadBack(d, w) then ConcludeQa(d, w, d.qa[Round(d)])
    else RunReview(d, w)
  }

  /** One reserved repair call; a failed one is not retried. */
  function RepairCall(d: SessionData, call: Call): Reaction
    requires MayStart(d.repair, d.repair.completed + 1)
  {
    var started := Reserve(d.repair);
    var done := d.(repair := Complete(started));
    match call
    case Aborts(after) =>
      Raises(if after == AtReservation then d.(repair := started) else Reporting(done, after == AtReport), Interrupted)
    case Usable => Goes(Reporting(done, true), Validating)
    case Unusable => Goes(done, Failed)
  }

  /** A repair that was started and never completed is a failure, never a blind retry. */
  function Repair(d: SessionData, w: World): Reaction {
    if d.repair.open then Goes(d, Failed)
    else if d.repair.completed + 1 !in d.failureReports then Raises(d, ReportMissing)
    else if d.repair.completed >= ATTEMPT_LIMIT then Raises(d, LedgerRefused)
    else RepairCall(d, CallOf(w, d.repair.completed + 1))
  }

  predicate SideEffect(s: WState, forward: WState) {
    || (s == ReadyToCommit && forward == Committed)
    || (s == Committed && forward == Pushed)
    || (s == Pushed && forward == PrOpen)
  }

  /** An attempt left open by a crash is not taken up again: its number cannot be reserved twice. */
  function Deliver(d: SessionData, s: WState, forward: WState, w: World): Reaction {
    if Of(d, s).open then Raises(d, LedgerRefused) else Attempting(d, s, forward, w)
  }

  /** What the approval gate answers, or the error that leaves it: nothing is caught on the way. */
  datatype GateAnswer =
    | Answered(answer: Approvals.Answer)
    | Unresolved(cause: ApprovalPolicies.PolicyError)
    | NoChecksums

  predicate Spent(answer: Approvals.Answer) {
    answer.Ok? && answer.value.status == Approvals.Consumed
  }

  predicate Opens(g: GateAnswer) {
    g.Answered? && Spent(g.answer)
  }

  /** The commit is attempted only with the approval spent; a pause changes nothing durable. */
  function Commit(d: SessionData, w: World, g: GateAnswer): Reaction {
    match g
    case NoChecksums => Raises(d, ChecksumsUnavailable)
    case Unresolved(cause) => Raises(d, PolicyRefused(cause))
    case Answered(Err(error)) => Raises(d, ApprovalRefused(error))
    case Answered(Ok(approval)) =>
      match approval.status
      case Pending | HumanInterventionRequired | Escalated =>
        Reaction(d, Outcome(d.state, None, AwaitingApproval))
      case Consumed => Deliver(d, ReadyToCommit, Committed, w)
      case _ => Goes(d, Failed)
  }

  /** One step everywhere but at the approval gate. */
  function React(d: SessionData, w: World, qaRequired: bool): Reaction {
    match d.state
    case Authorized => Goes(d, if w.check then PreconditionsChecked else Failed)
    case PreconditionsChecked => Goes(d, if w.check then BranchCreated else Failed)
    case BranchCreated => Goes(d, Implementing)
    case Implementing => Implement(d, w)
    case Validating => Validate(d, w)
    case QaRunning => ReviewQa(d, w, qaRequired)
    case Repairing => Repair(d, w)
    case Committed => Deliver(d, Committed, Pushed, w)
    case Pushed => Deliver(d, Pushed, PrOpen, w)
    case _ => Raises(d, NoHandler)
  }

  // ---- The approval gate ----

  type PolicyAnswer = Result<ApprovalPolicies.ApprovalPolicy, ApprovalPolicies.PolicyError>

  const GATE: string := "auto-013-implementer-approval"

  function Spending(log: Approvals.Log, id: string, checksums: Approvals.Checksums, w: World)
    : (Approvals.Log, Approvals.Answer)
  {
    var (log', r) := Approvals.Evaluating(log, id, w.evaluatedAt);
    if r.Ok? && r.value.status == Approvals.Approved then Approvals.Consuming(log', id, checksums, w.consumedAt)
    else (log', r)
  }

  /** The request is made and then spent, unless it is refused. */
  function Opening(
    log: Approvals.Log, id: string, policy: ApprovalPolicies.ApprovalPolicy, checksums: Approvals.Checksums, w: World)
    : (Approvals.Log, Approvals.Answer)
  {
    var (log', r) := Approvals.Requesting(log, id, GATE, checksums, policy, w.requestedAt);
    if r.Err? then (log', r) else Spending(log', id, checksums, w)
  }

  /** Takes the checksums, opens the approval on the first visit, evaluates it, and spends it if it is approved. */
  function Gating(log: Approvals.Log, id: string, policy: PolicyAnswer, w: World): (Approvals.Log, GateAnswer) {
    if w.checksums.None? then (log, NoChecksums)
    else
      var current := Approvals.Current(log, id);
      if current == Err(Approvals.NotFound) then
        if policy.Err? then (log, Unresolved(policy.error))
        else
          var (log', r) := Opening(log, id, policy.value, w.checksums.value, w);
          (log', Answered(r))
      else if current.Err? then (log, Answered(current))
      else
        var (log', r) := Spending(log, id, w.checksums.value, w);
        (log', Answered(r))
  }

  // ---- One step and the run ----

  datatype Config = Config(approvalId: string, qaRequired: bool, policy: PolicyAnswer)

  datatype Durable = Durable(data: SessionData, log: Approvals.Log)

  function StepOf(c: Config, s: Durable, w: World): (Durable, Outcome) {
    if s.data.state == ReadyToCommit then
      var (log, answer) := Gating(s.log, c.approvalId, c.policy, w);
      var r := Commit(s.data, w, answer);
      (Durable(r.data, log), r.outcome)
    else
      var r := React(s.data, w, c.qaRequired);
      (Durable(r.data, s.log), r.outcome)
  }

  predicate Stops(s: WState) {
    s == PrOpen || IsTerminalState(s)
  }

  /** The driver's loop, meeting one world after the other. */
  function Stepper(c: Config, worlds: nat -> World): (Durable, nat) -> (Durable, Outcome) {
    (s: Durable, k: nat) => StepOf(c, s, worlds(k))
  }

  function Ends(): Durable -> bool {
    (s: Durable) => Stops(s.data.state)
  }

  function Advancing(): Outcome -> bool {
    (o: Outcome) => o.phase == Advanced
  }

  function RunOf(c: Config, s: Durable, worlds: nat -> World, maxSteps: nat): (Durable, seq<Outcome>) {
    RunFrom(Stepper(c, worlds), Ends(), Advancing(), s, 0, maxSteps)
  }

  // ---- What one step does to the durable state ----

  /** The edges a step can advance along. */
  predicate Advances(from: WState, to: WState) {
    IsDriven(from) && to != Failed && to != Cancelled && Allowed(from, to)
  }

  /** How often the repair budget is spent by completing a step of this session. */
  function Repairs(d: SessionData): nat {
    if d.state == Repairing && !d.repair.open then 1 else 0
  }

  predicate StepSpec(d: SessionData, r: Reaction) {
    && r.outcome.from == d.state
    && (d.state != ReadyToCommit ==> Of(r.data, ReadyToCommit) == Of(d, ReadyToCommit))
    && match r.outcome.phase
       case Advanced =>
         && r.outcome.to == Some(r.data.state) && Advances(d.state, r.data.state)
         && r.data.transitions == d.transitions + [Edge(d.state, r.data.state)]
         && r.data.repair.completed == d.repair.completed + Repairs(d)
         && (d.state == Repairing ==> !d.repair.open)
         && (r.data.state == Repairing ==> r.data.repair.completed < ATTEMPT_LIMIT)
       case AwaitingApproval => d.state == ReadyToCommit && r.outcome.to == None && r.data == d
       case Failing =>
         && r.outcome.to == Some(Failed) && r.data.state == Failed && Allowed(d.state, Failed)
         && r.data.transitions == d.transitions + [Edge(d.state, Failed)]
         && r.data.repair.completed == d.repair.completed + Repairs(d)
       case Raised(_) =>
         && r.outcome.to == None && r.data.state == d.state && r.data.transitions == d.transitions
         && d.repair.completed <= r.data.repair.completed <= d.repair.completed + Repairs(d)
  }

  /** The reaction is within the specification and leaves a repair in flight only where one may be. */
  predicate Lawful(d: SessionData, r: Reaction) {
    StepSpec(d, r) && (r.data.repair.open ==> r.data.state == Repairing || r.data.state == Failed)
  }

  /** m is d after the writes a handler makes before it moves. */
  predicate SameStep(d: SessionData, m: SessionData) {
    && m.state == d.state && m.transitions == d.transitions
    && d.repair.completed <= m.repair.completed <= d.repair.completed + Repairs(d)
    && (m.repair.open ==> d.state == Repairing)
    && (d.state != ReadyToCommit ==> Of(m, ReadyToCommit) == Of(d, ReadyToCommit))
  }

  lemma GoesIsLawful(d: SessionData, m: SessionData, to: WState)
    requires SameStep(d, m) && !m.repair.open && Advances(d.state, to)
    requires m.repair.completed == d.repair.completed + Repairs(d) && (d.state == Repairing ==> !d.repair.open)
    requires to == Repairing ==> m.repair.completed < ATTEMPT_LIMIT
    ensures Lawful(d, Goes(m, to))
  {
  }

  lemma FailIsLawful(d: SessionData, m: SessionData)
    requires SameStep(d, m) && Allowed(d.state, Failed)
    requires m.repair.completed == d.repair.completed + Repairs(d)
    ensures Lawful(d, Goes(m, Failed))
  {
  }

  lemma RaisesIsLawful(d: SessionData, m: SessionData, reason: Reason)
    requires SameStep(d, m)
    ensures Lawful(d, Raises(m, reason))
  {
  }

  /** What is lawful after some writes of the step is lawful from its beginning. */
  lemma LaterIsLawful(d: SessionData, m: SessionData, r: Reaction)
    requires SameStep(d, m) && m.repair == d.repair && Lawful(m, r) && r.outcome.phase != AwaitingApproval
    ensures Lawful(d, r)
  {
  }

  /** Recording attempts of the state itself. */
  lemma RecordingIsSameStep(d: SessionData, a: Attempts)
    requires !d.repair.open
    ensures SameStep(d, With(d, d.state, a)) && SameStep(d, With(d, d.state, a).(stageReport := true))
    ensures With(d, d.state, a).repair == d.repair
  {
  }

  lemma RecordedFailIsLawful(d: SessionData, a: Attempts)
    requires !d.repair.open && Allowed(d.state, Failed) && d.state != Repairing
    ensures Lawful(d, Goes(With(d, d.state, a), Failed))
  {
    RecordingIsSameStep(d, a);
    FailIsLawful(d, With(d, d.state, a));
  }

  lemma RecordedRaiseIsLawful(d: SessionData, a: Attempts, reason: Reason)
    requires !d.repair.open
    ensures Lawful(d, Raises(With(d, d.state, a), reason))
    ensures Lawful(d, Raises(With(d, d.state, a).(stageReport := true), reason))
  {
    RecordingIsSameStep(d, a);
    RaisesIsLawful(d, With(d, d.state, a), reason);
    RaisesIsLawful(d, With(d, d.state, a).(stageReport := true), reason);
  }

  lemma RecordedGoIsLawful(d: SessionData, a: Attempts, to: WState)
    requires !d.repair.open && Advances(d.state, to) && d.state != Repairing && to != Repairing
    ensures Lawful(d, Goes(With(d, d.state, a), to)) && Lawful(d, Goes(With(d, d.state, a).(stageReport := true), to))
  {
    RecordingIsSameStep(d, a);
    GoesIsLawful(d, With(d, d.state, a), to);
    GoesIsLawful(d, With(d, d.state, a).(stageReport := true), to);
  }

  lemma AttemptingMeetsSpec(d: SessionData, s: WState, forward: WState, w: World)
    requires d.state == s && !Of(d, s).open && !d.repair.open
    requires Advances(s, forward) && Allowed(s, Failed) && s != Repairing && forward != Repairing
    ensures Lawful(d, Attempting(d, s, forward, w))
    ensures Attempting(d, s, forward, w).outcome.phase != AwaitingApproval
  {
    var tried := TryFrom(Of(d, s), w);
    match tried.ending
    case Aborts(_) => RecordedRaiseIsLawful(d, tried.attempts, Interrupted);
    case Usable =>
      RecordedRaiseIsLawful(d, tried.attempts, ReportExists);
      RecordedGoIsLawful(d, tried.attempts, forward);
    case Unusable => RecordedFailIsLawful(d, tried.attempts);
  }

  lemma ImplementMeetsSpec(d: SessionData, w: World)
    requires d.state == Implementing && !d.repair.open
    ensures Lawful(d, Implement(d, w))
  {
    if Of(d, Implementing).open {
      var closed := Closed(d, Implementing);
      RaisesIsLawful(d, closed, Interrupted);
      GoesIsLawful(d, closed, Validating);
      AttemptingMeetsSpec(closed, Implementing, Validating, w);
      LaterIsLawful(d, closed, Attempting(closed, Implementing, Validating, w));
    } else {
      RaisesIsLawful(d, d, LedgerRefused);
      AttemptingMeetsSpec(d, Implementing, Validating, w);
    }
  }

  lemma RepairOrFailMeetsSpec(d: SessionData, w: World)
    requires d.state in {Validating, QaRunning} && !d.repair.open
    ensures Lawful(d, RepairOrFail(d, w))
    ensures RepairOrFail(d, w).outcome.phase != AwaitingApproval
  {
    if d.repair.completed >= ATTEMPT_LIMIT {
      FailIsLawful(d, d);
    } else {
      var next := WithFailureReport(d, w.reported);
      RaisesIsLawful(d, next, Interrupted);
      GoesIsLawful(d, next, Repairing);
    }
  }

  lemma ValidateMeetsSpec(d: SessionData, w: World)
    requires d.state == Validating && !d.repair.open
    ensures Lawful(d, Validate(d, w))
  {
    if !d.stageReport {
      RaisesIsLawful(d, d, ReportMissing);
    } else {
      match w.validation
      case Passes => GoesIsLawful(d, d, QaRunning);
      case NotRepairable => FailIsLawful(d, d);
      case Repairable => RepairOrFailMeetsSpec(d, w);
    }
  }

  lemma ConcludeQaMeetsSpec(d: SessionData, w: World, approved: bool)
    requires d.state == QaRunning && !d.repair.open
    ensures Lawful(d, ConcludeQa(d, w, approved)) && ConcludeQa(d, w, approved).outcome.phase != AwaitingApproval
  {
    if approved {
      GoesIsLawful(d, d, ReadyToCommit);
    } else {
      RepairOrFailMeetsSpec(d, w);
    }
  }

  lemma ReviewIsSameStep(d: SessionData, w: World)
    requires !d.repair.open
    ensures SameStep(d, Reviewed(d, w)) && Reviewed(d, w).repair == d.repair
  {
  }

  lemma RunReviewMeetsSpec(d: SessionData, w: World)
    requires d.state == QaRunning && !d.repair.open
    ensures Lawful(d, RunReview(d, w))
  {
    var next := Reviewed(d, w);
    ReviewIsSameStep(d, w);
    if w.qaAborts {
      RaisesIsLawful(d, next, Interrupted);
    } else {
      ConcludeQaMeetsSpec(next, w, Approving(d, w));
      LaterIsLawful(d, next, ConcludeQa(next, w, Approving(d, w)));
    }
  }

  lemma QaMeetsSpec(d: SessionData, w: World, required: bool)
    requires d.state == QaRunning && !d.repair.open
    ensures Lawful(d, ReviewQa(d, w, required))
  {
    if !required {
      assert ReviewQa(d, w, required) == ConcludeQa(d, w, true);
      ConcludeQaMeetsSpec(d, w, true);
    } else if ReadBack(d, w) {
      assert ReviewQa(d, w, required) == ConcludeQa(d, w, d.qa[Round(d)]);
      ConcludeQaMeetsSpec(d, w, d.qa[Round(d)]);
    } else {
      assert ReviewQa(d, w, required) == RunReview(d, w);
      RunReviewMeetsSpec(d, w);
    }
  }

  lemma RepairCallMeetsSpec(d: SessionData, call: Call)
    requires d.state == Repairing && MayStart(d.repair, d.repair.completed + 1)
    ensures Lawful(d, RepairCall(d, call))
  {
    var started := Reserve(d.repair);
    var done := d.(repair := Complete(started));
    match call
    case Aborts(after) =>
      var left := if after == AtReservation then d.(repair := started) else Reporting(done, after == AtReport);
      RaisesIsLawful(d, left, Interrupted);
    case Usable => GoesIsLawful(d, Reporting(done, true), Validating);
    case Unusable => FailIsLawful(d, done);
  }

  lemma RepairMeetsSpec(d: SessionData, w: World)
    requires d.state == Repairing
    ensures Lawful(d, Repair(d, w))
  {
    if d.repair.open {
      assert Repair(d, w) == Goes(d, Failed);
      FailIsLawful(d, d);
    } else if d.repair.completed + 1 !in d.failureReports {
      assert Repair(d, w) == Raises(d, ReportMissing);
      RaisesIsLawful(d, d, ReportMissing);
    } else if d.repair.completed >= ATTEMPT_LIMIT {
      assert Repair(d, w) == Raises(d, LedgerRefused);
      RaisesIsLawful(d, d, LedgerRefused);
    } else {
      assert Repair(d, w) == RepairCall(d, CallOf(w, d.repair.completed + 1));
      RepairCallMeetsSpec(d, CallOf(w, d.repair.completed + 1));
    }
  }

  lemma DeliverMeetsSpec(d: SessionData, s: WState, forward: WState, w: World)
    requires d.state == s && SideEffect(s, forward) && !d.repair.open
    ensures Lawful(d, Deliver(d, s, forward, w))
  {
    if Of(d, s).open {
      RaisesIsLawful(d, d, LedgerRefused);
    } else {
      AttemptingMeetsSpec(d, s, forward, w);
    }
  }

  lemma GateMeetsSpec(d: SessionData, to: WState)
    requires Advances(d.state, to) && d.state in {Authorized, PreconditionsChecked, BranchCreated} && !d.repair.open
    ensures Lawful(d, Goes(d, to)) && Lawful(d, Goes(d, Failed))
  {
    GoesIsLawful(d, d, to);
    FailIsLawful(d, d);
  }

  /** Every step of every state moves only along the table. */
  lemma ReactMeetsSpec(d: SessionData, w: World, qaRequired: bool)
    requires Consistent(d) && d.state != ReadyToCommit
    ensures Lawful(d, React(d, w, qaRequired))
  {
    match d.state
    case Authorized => GateMeetsSpec(d, PreconditionsChecked);
    case PreconditionsChecked => GateMeetsSpec(d, BranchCreated);
    case BranchCreated => GateMeetsSpec(d, Implementing);
    case Implementing => ImplementMeetsSpec(d, w);
    case Validating => ValidateMeetsSpec(d, w);
    case QaRunning => QaMeetsSpec(d, w, qaRequired);
    case Repairing => RepairMeetsSpec(d, w);
    case Committed => DeliverMeetsSpec(d, Committed, Pushed, w);
    case Pushed => DeliverMeetsSpec(d, Pushed, PrOpen, w);
    case _ =>
  }

  lemma CommitMeetsSpec(d: SessionData, w: World, g: GateAnswer)
    requires d.state == ReadyToCommit && !d.repair.open
    ensures Lawful(d, Commit(d, w, g))
  {
    if Opens(g) {
      assert Commit(d, w, g) == Deliver(d, ReadyToCommit, Committed, w);
      DeliverMeetsSpec(d, ReadyToCommit, Committed, w);
    } else if Commit(d, w, g).outcome.phase == Failing {
      assert Commit(d, w, g) == Goes(d, Failed);
      FailIsLawful(d, d);
    }
  }

  lemma StepIsLawful(c: Config, s: Durable, w: World)
    requires Consistent(s.data)
    ensures var (t, o) := StepOf(c, s, w); Lawful(s.data, Reaction(t.data, o))
  {
    if s.data.state == ReadyToCommit {
      CommitMeetsSpec(s.data, w, Gating(s.log, c.approvalId, c.policy, w).1);
    } else {
      ReactMeetsSpec(s.data, w, c.qaRequired);
    }
  }

  /**
   Every step of every state moves along one edge of the table or not at all, counts a repair exactly
   when it concludes one, and leaves the log a path from CREATED.
   */
  lemma StepMeetsSpec(c: Config, s: Durable, w: World)
    requires Consistent(s.data)
    ensures var (t, o) := StepOf(c, s, w); Consistent(t.data) && StepSpec(s.data, Reaction(t.data, o))
  {
    StepIsLawful(c, s, w);
    var t := StepOf(c, s, w).0;
    if t.data.transitions != s.data.transitions {
      PathGrows(s.data.transitions, s.data.state, t.data.state);
    }
  }

  // ---- Termination ----

  /** Steps a run can still take: the repairs left cost three steps each. */
  function Budget(d: SessionData): int {
    Distance(d.state) + 3 * (ATTEMPT_LIMIT - d.repair.completed)
  }

  lemma AdvanceSpendsBudget(d: SessionData, r: Reaction)
    requires StepSpec(d, r) && r.outcome.phase == Advanced
    ensures 0 <= Budget(r.data) < Budget(d) <= 18
    ensures r.data.state == PrOpen || IsDriven(r.data.state)
  {
  }

  /** The most steps a run from this session can take. */
  function Longest(d: SessionData): int {
    if Stops(d.state) then 0 else if IsDriven(d.state) then Budget(d) else 1
  }

  lemma StepSpendsBudget(c: Config, s: Durable, w: World)
    requires Consistent(s.data) && !Stops(s.data.state)
    ensures var (t, o) := StepOf(c, s, w);
      && Consistent(t.data) && Longest(s.data) >= 1
      && (o.phase == Advanced ==> 0 <= Longest(t.data) < Longest(s.data))
  {
    StepMeetsSpec(c, s, w);
    var (t, o) := StepOf(c, s, w);
    var r := Reaction(t.data, o);
    assert StepSpec(s.data, r);
    if o.phase == Advanced {
      AdvanceSpendsBudget(s.data, r);
    }
  }

  function ConsistentStates(): Durable -> bool {
    (s: Durable) => Consistent(s.data)
  }

  function LongestOf(): Durable -> int {
    (s: Durable) => Longest(s.data)
  }

  lemma LongestIsBounded(d: SessionData)
    ensures Longest(d) <= 18
  {
  }

  lemma StepperSpends(c: Config, worlds: nat -> World)
    ensures Keeps(Stepper(c, worlds), Ends(), ConsistentStates(), Anything<Outcome>())
    ensures Spends(Stepper(c, worlds), Ends(), Advancing(), ConsistentStates(), LongestOf())
  {
    forall s: Durable, k: nat | ConsistentStates()(s) && !Ends()(s)
      ensures ConsistentStates()(Stepper(c, worlds)(s, k).0)
      ensures Advancing()(Stepper(c, worlds)(s, k).1) ==> LongestOf()(Stepper(c, worlds)(s, k).0) < LongestOf()(s)
    {
      StepSpendsBudget(c, s, worlds(k));
    }
  }

  /**
   Termination: from any consistent session a run takes at most 18 steps, so the default ceiling of
   32 is never what stops it.
   */
  lemma RunTerminates(c: Config, s: Durable, worlds: nat -> World, maxSteps: nat)
    requires Consistent(s.data)
    ensures var (t, steps) := RunOf(c, s, worlds, maxSteps);
      && Consistent(t.data) && |steps| <= Longest(s.data) <= 18
      && (maxSteps >= 18 && Unfinished(steps, Advancing()) ==> Stops(t.data.state))
  {
    StepperSpends(c, worlds);
    LongestIsBounded(s.data);
    RunKeeps(Stepper(c, worlds), Ends(), Advancing(), ConsistentStates(), Anything<Outcome>(), s, 0, maxSteps);
    RunSpends(Stepper(c, worlds), Ends(), Advancing(), ConsistentStates(), LongestOf(), s, 0, maxSteps);
  }

  // ---- Aborts ----

  /** Nothing is aborted, and every report is written. */
  predicate Calm(w: World) {
    && w.reported && !w.aborts && !w.qaAborts && w.checksums.Some?
    && !w.first.Aborts? && !w.second.Aborts? && !w.third.Aborts?
  }

  predicate IsConsumed(log: Approvals.Log, id: string) {
    Spent(Approvals.Current(log, id))
  }

  /** No visit gets as far as evaluating the approval. */
  predicate GateClosed(c: Config, log: Approvals.Log) {
    var current := Approvals.Current(log, c.approvalId);
    && current.Err?
    && (current.error != Approvals.NotFound || c.policy.Err? || !c.policy.value.required || c.approvalId == "")
  }

  /** What no later step gets past, everywhere but at the approval gate. */
  predicate StuckAlone(d: SessionData) {
    match d.state
    case Authorized | PreconditionsChecked | BranchCreated | QaRunning => false
    case Implementing => !Of(d, Implementing).open && Of(d, Implementing).completed >= ATTEMPT_LIMIT
    case Validating => !d.stageReport
    case Repairing =>
      && !d.repair.open
      && (d.repair.completed + 1 !in d.failureReports || d.repair.completed >= ATTEMPT_LIMIT)
    case Committed => Of(d, Committed).open
    case Pushed => Of(d, Pushed).open
    case _ => true
  }

  predicate Stuck(c: Config, s: Durable) {
    if s.data.state == ReadyToCommit then
      GateClosed(c, s.log) || (Of(s.data, ReadyToCommit).open && IsConsumed(s.log, c.approvalId))
    else StuckAlone(s.data)
  }

  /** A step that raises and leaves everything durable as it was. */
  predicate RaisesInVain(c: Config, s: Durable, w: World) {
    StepOf(c, s, w).0 == s && StepOf(c, s, w).1.phase.Raised?
  }

  lemma {:induction false} CalmTries(a: Attempts, w: World)
    requires Calm(w) && !a.open
    ensures !TryFrom(a, w).ending.Aborts? && !TryFrom(a, w).attempts.open
    decreases ATTEMPT_LIMIT - a.completed
  {
    if a.completed < ATTEMPT_LIMIT && CallOf(w, a.completed + 1) == Unusable {
      CalmTries(Complete(Reserve(a)), w);
    }
  }

  lemma StuckAtGateRaises(c: Config, s: Durable, w: World)
    requires s.data.state == ReadyToCommit && Stuck(c, s)
    ensures RaisesInVain(c, s, w)
  {
    var g := Gating(s.log, c.approvalId, c.policy, w);
    if w.checksums.Some? && !GateClosed(c, s.log) {
      assert g == (s.log, Answered(Approvals.Current(s.log, c.approvalId)));
      assert Commit(s.data, w, g.1) == Deliver(s.data, ReadyToCommit, Committed, w);
    } else {
      assert g.0 == s.log && (g.1.Answered? ==> g.1.answer.Err?);
    }
  }

  lemma StuckRaises(c: Config, s: Durable, w: World)
    requires Stuck(c, s)
    ensures RaisesInVain(c, s, w)
  {
    if s.data.state == ReadyToCommit {
      StuckAtGateRaises(c, s, w);
    }
  }

  lemma CalmDoesNotRaise(d: SessionData, w: World, qaRequired: bool)
    requires Calm(w) && d.state != ReadyToCommit && !StuckAlone(d)
    requires d.state == Implementing ==> !d.stageReport
    ensures !React(d, w, qaRequired).outcome.phase.Raised?
  {
    match d.state
    case Implementing =>
      var a := Of(d, Implementing);
      CalmTries(if a.open then Complete(a) else a, w);
    case Committed => CalmTries(Of(d, Committed), w);
    case Pushed => CalmTries(Of(d, Pushed), w);
    case _ =>
  }

  /** A calm visit with a clock that is not behind the log. */
  function Favourable(log: Approvals.Log): World {
    var now := if log == [] then 0 else log[|log| - 1].at;
    World(true, Usable, Usable, Usable, true, Passes, Approves, true, true, false, true, false,
          Some(Approvals.Checksums("", "", "", "")), now, now, now)
  }

  lemma SpendingExtends(log: Approvals.Log, id: string, checksums: Approvals.Checksums, w: World)
    ensures var (log', current) := Approvals.Evaluating(log, id, w.evaluatedAt);
      |log| <= |log'| <= |Spending(log, id, checksums, w).0|
  {
    ApprovalLifecycle.EvaluatingAppends(log, id, w.evaluatedAt);
    var (log', current) := Approvals.Evaluating(log, id, w.evaluatedAt);
    ApprovalLifecycle.PerformAppends(log', ApprovalLifecycle.ConsumeCall(id, checksums, w.consumedAt));
  }

  /** With the clock up to date, an approval is left as it is only where it is not approved and not due. */
  lemma SpendingMovesOn(log: Approvals.Log, id: string, checksums: Approvals.Checksums)
    requires Approvals.Current(log, id).Ok?
    ensures var r := Spending(log, id, checksums, Favourable(log));
      r.0 != log || r == (log, Approvals.Current(log, id))
  {
    var w := Favourable(log);
    SpendingExtends(log, id, checksums, w);
    var (log', current) := Approvals.Evaluating(log, id, w.evaluatedAt);
    if log' == log && current.Ok? && current.value.status == Approvals.Approved {
      assert Approvals.Evaluating(log, id, w.consumedAt) == (log, current);
      assert Spending(log, id, checksums, w) == Approvals.Consuming(log, id, checksums, w.consumedAt);
    }
  }

  lemma OpeningMovesOn(c: Config, log: Approvals.Log, checksums: Approvals.Checksums)
    requires Approvals.Current(log, c.approvalId) == Err(Approvals.NotFound) && !GateClosed(c, log)
    ensures Opening(log, c.approvalId, c.policy.value, checksums, Favourable(log)).0 != log
  {
    var w := Favourable(log);
    var (log', r) := Approvals.Requesting(log, c.approvalId, GATE, checksums, c.policy.value, w.requestedAt);
    assert |log'| > |log|;
    SpendingExtends(log', c.approvalId, checksums, w);
  }

  lemma OpenGateMovesOn(c: Config, s: Durable)
    requires s.data.state == ReadyToCommit && !Stuck(c, s)
    ensures !RaisesInVain(c, s, Favourable(s.log))
  {
    var w := Favourable(s.log);
    var current := Approvals.Current(s.log, c.approvalId);
    var g := Gating(s.log, c.approvalId, c.policy, w);
    if current.Err? {
      OpeningMovesOn(c, s.log, w.checksums.value);
    } else {
      SpendingMovesOn(s.log, c.approvalId, w.checksums.value);
      if g.0 == s.log {
        assert g.1 == Answered(current);
        if Spent(current) {
          assert Commit(s.data, w, g.1) == Deliver(s.data, ReadyToCommit, Committed, w);
          CalmTries(Of(s.data, ReadyToCommit), w);
        }
      }
    }
  }

  /** An attempt whose report is refused is recorded all the same. */
  lemma SecondReportMovesOn(d: SessionData, w: World)
    requires d.state == Implementing && !StuckAlone(d)
    requires w.first == w.second == w.third == Usable && w.leftDiff && !w.aborts
    ensures Implement(d, w).data != d
  {
    var a := Of(d, Implementing);
    if !a.open {
      assert TryFrom(a, w) == Tried(Complete(Reserve(a)), Usable);
    }
  }

  lemma UnstuckMovesOn(c: Config, s: Durable)
    requires !Stuck(c, s)
    ensures !RaisesInVain(c, s, Favourable(s.log))
  {
    if s.data.state == ReadyToCommit {
      OpenGateMovesOn(c, s);
    } else if s.data.state == Implementing && s.data.stageReport {
      SecondReportMovesOn(s.data, Favourable(s.log));
    } else {
      CalmDoesNotRaise(s.data, Favourable(s.log), c.qaRequired);
    }
  }

  /** A session is stuck exactly when every step raises and changes nothing, whatever it meets. */
  lemma StuckIsExact(c: Config, s: Durable)
    ensures Stuck(c, s) <==> forall w :: RaisesInVain(c, s, w)
  {
    if Stuck(c, s) {
      forall w ensures RaisesInVain(c, s, w) {
        StuckRaises(c, s, w);
      }
    } else {
      UnstuckMovesOn(c, s);
    }
  }

  /** Being stuck lasts: every run raises on its first step and leaves the session as it found it. */
  lemma StuckForGood(c: Config, s: Durable, worlds: nat -> World, maxSteps: nat)
    requires Stuck(c, s) && !Stops(s.data.state) && maxSteps > 0
    ensures var (t, steps) := RunOf(c, s, worlds, maxSteps);
      t == s && |steps| == 1 && steps[0].phase.Raised?
  {
    StuckRaises(c, s, worlds(0));
    assert Stepper(c, worlds)(s, 0) == StepOf(c, s, worlds(0));
  }

  predicate Untouched(d: SessionData, s: WState) {
    Of(d, s) == Attempts(0, false, 0)
  }

  /** A session that no crash has left its mark on. */
  predicate Sound(d: SessionData) {
    Stops(d.state) || (
      && IsDriven(d.state) && !d.repair.open
      && (Distance(d.state) >= 6 ==> Untouched(d, Implementing) && !d.stageReport)
      && (Distance(d.state) >= 3 ==> Untouched(d, ReadyToCommit))
      && (Distance(d.state) >= 2 ==> Untouched(d, Committed))
      && Untouched(d, Pushed)
      && (d.state in {Validating, QaRunning, Repairing} ==> d.stageReport)
      && (d.state == Repairing ==> d.repair.completed + 1 in d.failureReports && d.repair.completed < ATTEMPT_LIMIT))
  }

  /** Raised by the approval gate itself. */
  predicate AtTheGate(reason: Reason) {
    reason.ChecksumsUnavailable? || reason.PolicyRefused? || reason.ApprovalRefused?
  }

  predicate Expected(o: Outcome) {
    o.phase.Raised? ==> AtTheGate(o.phase.reason)
  }

  lemma CalmAttempting(d: SessionData, s: WState, forward: WState, w: World)
    requires Calm(w) && Sound(d) && d.state == s && Untouched(d, s)
    requires SideEffect(s, forward) || (s == Implementing && forward == Validating)
    ensures var r := Attempting(d, s, forward, w); Sound(r.data) && Expected(r.outcome)
  {
  }

  lemma CalmRepair(d: SessionData, w: World)
    requires Calm(w) && Sound(d) && d.state == Repairing
    ensures var r := Repair(d, w); Sound(r.data) && Expected(r.outcome)
  {
    var call := CallOf(w, d.repair.completed + 1);
    assert Repair(d, w) == RepairCall(d, call);
    var done := d.(repair := Complete(Reserve(d.repair)));
    assert RepairCall(d, call) ==
      if call == Usable then Goes(Reporting(done, true), Validating) else Goes(done, Failed);
  }

  lemma CalmRepairOrFail(d: SessionData, w: World)
    requires Calm(w) && Sound(d) && d.state in {Validating, QaRunning}
    ensures var r := RepairOrFail(d, w); Sound(r.data) && Expected(r.outcome)
  {
    assert RepairOrFail(d, w) ==
      if d.repair.completed >= ATTEMPT_LIMIT then Goes(d, Failed) else Goes(WithFailureReport(d, true), Repairing);
  }

  lemma CalmValidation(d: SessionData, w: World)
    requires Calm(w) && Sound(d) && d.state == Validating
    ensures var r := Validate(d, w); Sound(r.data) && Expected(r.outcome)
  {
    if w.validation == Repairable {
      CalmRepairOrFail(d, w);
    }
  }

  lemma SoundToCommit(d: SessionData)
    requires Sound(d) && d.state == QaRunning
    ensures var r := Goes(d, ReadyToCommit); Sound(r.data) && Expected(r.outcome)
  {
  }

  lemma SoundWithReview(d: SessionData, w: World)
    requires Sound(d) && d.state == QaRunning
    ensures Sound(Reviewed(d, w)) && Reviewed(d, w).state == QaRunning
  {
  }

  lemma CalmVerdict(d: SessionData, w: World, approved: bool)
    requires Calm(w) && Sound(d) && d.state == QaRunning
    ensures var r := ConcludeQa(d, w, approved); Sound(r.data) && Expected(r.outcome)
  {
    if approved {
      SoundToCommit(d);
    } else {
      CalmRepairOrFail(d, w);
    }
  }

  lemma CalmReview(d: SessionData, w: World)
    requires Calm(w) && Sound(d) && d.state == QaRunning
    ensures var r := RunReview(d, w); Sound(r.data) && Expected(r.outcome)
  {
    SoundWithReview(d, w);
    CalmVerdict(Reviewed(d, w), w, Approving(d, w));
  }

  lemma CalmQa(d: SessionData, w: World, required: bool)
    requires Calm(w) && Sound(d) && d.state == QaRunning
    ensures var r := ReviewQa(d, w, required); Sound(r.data) && Expected(r.outcome)
  {
    if !required {
      assert ReviewQa(d, w, required) == ConcludeQa(d, w, true);
      CalmVerdict(d, w, true);
    } else if ReadBack(d, w) {
      assert ReviewQa(d, w, required) == ConcludeQa(d, w, d.qa[Round(d)]);
      CalmVerdict(d, w, d.qa[Round(d)]);
    } else {
      assert ReviewQa(d, w, required) == RunReview(d, w);
      CalmReview(d, w);
    }
  }

  lemma CalmReact(d: SessionData, w: World, qaRequired: bool)
    requires Calm(w) && Sound(d) && !Stops(d.state) && d.state != ReadyToCommit
    ensures var r := React(d, w, qaRequired); Sound(r.data) && Expected(r.outcome)
  {
    match d.state
    case Implementing => CalmAttempting(d, Implementing, Validating, w);
    case Validating => CalmValidation(d, w);
    case QaRunning => CalmQa(d, w, qaRequired);
    case Repairing => CalmRepair(d, w);
    case Committed => CalmAttempting(d, Committed, Pushed, w);
    case Pushed => CalmAttempting(d, Pushed, PrOpen, w);
    case _ =>
  }

  lemma CalmCommit(d: SessionData, w: World, g: GateAnswer)
    requires Calm(w) && Sound(d) && d.state == ReadyToCommit
    ensures var r := Commit(d, w, g); Sound(r.data) && Expected(r.outcome)
  {
    if Opens(g) {
      assert Commit(d, w, g) == Deliver(d, ReadyToCommit, Committed, w);
      CalmAttempting(d, ReadyToCommit, Committed, w);
    }
  }

  lemma CalmStepIsSound(c: Config, s: Durable, w: World)
    requires Calm(w) && Sound(s.data) && !Stops(s.data.state)
    ensures var (t, o) := StepOf(c, s, w); Sound(t.data) && Expected(o)
  {
    if s.data.state == ReadyToCommit {
      CalmCommit(s.data, w, Gating(s.log, c.approvalId, c.policy, w).1);
    } else {
      CalmReact(s.data, w, c.qaRequired);
    }
  }

  function SoundStates(): Durable -> bool {
    (s: Durable) => Sound(s.data)
  }

  function ExpectedOutcomes(): Outcome -> bool {
    (o: Outcome) => Expected(o)
  }

  /** Waiting for a human, failed, or refused by the approval gate. */
  predicate EndsCalmly(p: Phase) {
    p == AwaitingApproval || p == Failing || (p.Raised? && AtTheGate(p.reason))
  }

  lemma LastIsExpected(steps: seq<Outcome>)
    requires forall o :: o in steps ==> ExpectedOutcomes()(o)
    ensures !Unfinished(steps, Advancing()) ==> EndsCalmly(steps[|steps| - 1].phase)
  {
    if !Unfinished(steps, Advancing()) {
      assert steps[|steps| - 1] in steps;
    }
  }

  lemma CalmStepperKeeps(c: Config, worlds: nat -> World)
    requires forall k: nat :: Calm(worlds(k))
    ensures Keeps(Stepper(c, worlds), Ends(), SoundStates(), ExpectedOutcomes())
  {
    forall x: Durable, k: nat | SoundStates()(x) && !Ends()(x)
      ensures SoundStates()(Stepper(c, worlds)(x, k).0) && ExpectedOutcomes()(Stepper(c, worlds)(x, k).1)
    {
      CalmStepIsSound(c, x, worlds(k));
    }
  }

  lemma CalmRunIsExpected(c: Config, s: Durable, worlds: nat -> World, maxSteps: nat)
    requires Sound(s.data) && forall k: nat :: Calm(worlds(k))
    ensures forall o :: o in RunOf(c, s, worlds, maxSteps).1 ==> ExpectedOutcomes()(o)
  {
    CalmStepperKeeps(c, worlds);
    RunKeeps(Stepper(c, worlds), Ends(), Advancing(), SoundStates(), ExpectedOutcomes(), s, 0, maxSteps);
  }

  /**
   A run in which nothing is aborted and every report is written never meets a refused attempt or a
   missing report: given 18 steps it ends at PR_OPEN or FAILED, or waits for a human, or was told
   by the approval gate that it cannot go on.
   */
  lemma CalmRunEndsWell(c: Config, s: Durable, worlds: nat -> World, maxSteps: nat)
    requires Consistent(s.data) && Sound(s.data) && maxSteps >= 18
    requires forall k: nat :: Calm(worlds(k))
    ensures var (t, steps) := RunOf(c, s, worlds, maxSteps);
      || Stops(t.data.state)
      || (steps != [] && EndsCalmly(steps[|steps| - 1].phase))
  {
    CalmRunIsExpected(c, s, worlds, maxSteps);
    RunTerminates(c, s, worlds, maxSteps);
    LastIsExpected(RunOf(c, s, worlds, maxSteps).1);
  }

  // ---- What decides each advance ----

  /** Attempt n is the first from the next one on that is not unusable. */
  predicate FirstUseful(a: Attempts, w: World, n: nat) {
    && a.completed < n <= ATTEMPT_LIMIT && CallOf(w, n) != Unusable
    && forall k :: a.completed < k < n ==> CallOf(w, k) == Unusable
  }

  /** A series stops at its first useful answer, having made one call for each number up to it. */
  lemma {:induction false} TryStopsAtFirstUseful(a: Attempts, w: World)
    requires !a.open
    ensures var tried := TryFrom(a, w);
      if tried.ending == Unusable then
        && tried.attempts == Attempts(ATTEMPT_LIMIT, false, a.calls + ATTEMPT_LIMIT - a.completed)
        && forall n :: a.completed < n <= ATTEMPT_LIMIT ==> CallOf(w, n) == Unusable
      else
        var n := Started(tried.attempts);
        FirstUseful(a, w, n) && tried.ending == CallOf(w, n) && tried.attempts.calls == a.calls + n - a.completed
    decreases ATTEMPT_LIMIT - a.completed
  {
    if a.completed < ATTEMPT_LIMIT && CallOf(w, a.completed + 1) == Unusable {
      TryStopsAtFirstUseful(Complete(Reserve(a)), w);
    }
  }

  /** The gates before the commit open exactly for a passed validation and an approving review. */
  lemma GatesDecide(d: SessionData, w: World, qaRequired: bool)
    ensures d.state == Validating ==>
      && (React(d, w, qaRequired).outcome.to == Some(QaRunning) <==> d.stageReport && w.validation == Passes)
      && (React(d, w, qaRequired).outcome.to == Some(Repairing) <==>
            d.stageReport && w.validation == Repairable && d.repair.completed < ATTEMPT_LIMIT && !w.aborts)
    ensures d.state == QaRunning ==>
      && (React(d, w, qaRequired).outcome.to == Some(ReadyToCommit) <==>
            !qaRequired || (Decided(d, w) && (ReadBack(d, w) || !w.qaAborts)))
      && (React(d, w, qaRequired).outcome.to == Some(Repairing) <==>
            && qaRequired && !Decided(d, w) && (ReadBack(d, w) || !w.qaAborts)
            && d.repair.completed < ATTEMPT_LIMIT && !w.aborts)
  {
  }

  predicate GoodAnswers(w: World) {
    w.check && w.first == Usable && w.validation == Passes
    && w.review == Approves && w.qaRead && !w.qaAborts
  }

  predicate GatePasses(c: Config, log: Approvals.Log, w: World) {
    Opens(Gating(log, c.approvalId, c.policy, w).1)
  }

  /** On the way to PR_OPEN with nothing repaired, nothing rejected and nothing in flight. */
  predicate OnTheWay(d: SessionData) {
    && IsDriven(d.state) && d.state != Repairing && Sound(d)
    && (Distance(d.state) >= 4 ==> if Round(d) in d.qa then d.qa[Round(d)] else Round(d) !in d.asked)
  }

  /** One step nearer, and still on the way unless this was the last one. */
  predicate Nearer(d: SessionData, r: Reaction) {
    && r.outcome.phase == Advanced && Distance(r.data.state) == Distance(d.state) - 1
    && (r.data.state == PrOpen || OnTheWay(r.data))
  }

  lemma FavourableAttempt(d: SessionData, s: WState, forward: WState, w: World)
    requires OnTheWay(d) && d.state == s && Untouched(d, s) && GoodAnswers(w)
    requires SideEffect(s, forward) || (s == Implementing && forward == Validating)
    ensures Nearer(d, Attempting(d, s, forward, w))
  {
    assert TryFrom(Of(d, s), w) == Tried(Attempts(1, false, 1), Usable);
    var done := With(d, s, Attempts(1, false, 1));
    assert Attempting(d, s, forward, w) == Goes(Reporting(done, s == Implementing), forward);
    if s == Implementing {
      ReportedIsOnTheWay(d);
    } else {
      DeliveredIsOnTheWay(d, s, forward);
    }
  }

  lemma ReportedIsOnTheWay(d: SessionData)
    requires OnTheWay(d) && d.state == Implementing
    ensures OnTheWay(Move(Reporting(With(d, Implementing, Attempts(1, false, 1)), true), Validating))
  {
  }

  lemma DeliveredIsOnTheWay(d: SessionData, s: WState, forward: WState)
    requires OnTheWay(d) && d.state == s && SideEffect(s, forward)
    ensures var e := Move(With(d, s, Attempts(1, false, 1)), forward); e.state == PrOpen || OnTheWay(e)
  {
  }

  lemma FavourableReview(d: SessionData, w: World, required: bool)
    requires OnTheWay(d) && d.state == QaRunning && GoodAnswers(w)
    ensures Nearer(d, ReviewQa(d, w, required))
  {
    if required && Round(d) !in d.qa {
      SoundWithReview(d, w);
      assert ReviewQa(d, w, required) == Goes(Reviewed(d, w), ReadyToCommit);
    } else {
      assert ReviewQa(d, w, required) == Goes(d, ReadyToCommit);
    }
  }

  /** The steps that make no attempt of their own. */
  lemma FavourableMove(d: SessionData, to: WState)
    requires OnTheWay(d) && d.state in {Authorized, PreconditionsChecked, BranchCreated, Validating}
    requires Distance(to) == Distance(d.state) - 1 && to !in {Repairing, ReadyToCommit}
    ensures Nearer(d, Goes(d, to))
  {
  }

  lemma FavourableDelivery(d: SessionData, w: World)
    requires OnTheWay(d) && d.state in {Committed, Pushed} && GoodAnswers(w)
    ensures Nearer(d, React(d, w, true)) && React(d, w, false) == React(d, w, true)
  {
    var forward := if d.state == Committed then Pushed else PrOpen;
    assert React(d, w, true) == Attempting(d, d.state, forward, w);
    FavourableAttempt(d, d.state, forward, w);
  }

  lemma FavourableReact(d: SessionData, w: World, qaRequired: bool)
    requires OnTheWay(d) && d.state != ReadyToCommit && GoodAnswers(w)
    ensures Nearer(d, React(d, w, qaRequired))
  {
    match d.state
    case Authorized => FavourableMove(d, PreconditionsChecked);
    case PreconditionsChecked => FavourableMove(d, BranchCreated);
    case BranchCreated => FavourableMove(d, Implementing);
    case Implementing =>
      assert React(d, w, qaRequired) == Attempting(d, Implementing, Validating, w);
      FavourableAttempt(d, Implementing, Validating, w);
    case Validating => FavourableMove(d, QaRunning);
    case QaRunning => FavourableReview(d, w, qaRequired);
    case _ => FavourableDelivery(d, w);
  }

  lemma FavourableCommit(d: SessionData, w: World, g: GateAnswer)
    requires OnTheWay(d) && d.state == ReadyToCommit && GoodAnswers(w) && Opens(g)
    ensures Nearer(d, Commit(d, w, g))
  {
    assert Commit(d, w, g) == Attempting(d, ReadyToCommit, Committed, w);
    FavourableAttempt(d, ReadyToCommit, Committed, w);
  }

  lemma FavourableStep(c: Config, s: Durable, w: World)
    requires OnTheWay(s.data) && GoodAnswers(w) && (Distance(s.data.state) >= 3 ==> GatePasses(c, s.log, w))
    ensures var (t, o) := StepOf(c, s, w);
      Nearer(s.data, Reaction(t.data, o)) && (s.data.state != ReadyToCommit ==> t.log == s.log)
  {
    if s.data.state == ReadyToCommit {
      FavourableCommit(s.data, w, Gating(s.log, c.approvalId, c.policy, w).1);
    } else {
      FavourableReact(s.data, w, c.qaRequired);
    }
  }

  ghost predicate FavourableState(c: Config, worlds: nat -> World, s: Durable) {
    s.data.state == PrOpen
    || (OnTheWay(s.data) && (Distance(s.data.state) >= 3 ==> forall n: nat :: GatePasses(c, s.log, worlds(n))))
  }

  ghost function FavourableStates(c: Config, worlds: nat -> World): Durable -> bool {
    (s: Durable) => FavourableState(c, worlds, s)
  }

  function DistanceOf(): Durable -> int {
    (s: Durable) => Distance(s.data.state)
  }

  lemma StateApproaches(c: Config, worlds: nat -> World, s: Durable, k: nat)
    requires GoodAnswers(worlds(k)) && FavourableState(c, worlds, s) && s.data.state != PrOpen
    ensures var (t, o) := StepOf(c, s, worlds(k));
      FavourableState(c, worlds, t) && o.phase == Advanced && Distance(t.data.state) == Distance(s.data.state) - 1
  {
    FavourableStep(c, s, worlds(k));
  }

  lemma StepperApproaches(c: Config, worlds: nat -> World)
    requires forall n: nat :: GoodAnswers(worlds(n))
    ensures Approaches(Stepper(c, worlds), Ends(), Advancing(), FavourableStates(c, worlds), DistanceOf())
  {
    var good := FavourableStates(c, worlds);
    forall s: Durable, k: nat | good(s) && !Ends()(s)
      ensures var (t, o) := Stepper(c, worlds)(s, k);
        good(t) && Advancing()(o) && DistanceOf()(t) == DistanceOf()(s) - 1
    {
      StateApproaches(c, worlds, s, k);
      assert Stepper(c, worlds)(s, k) == StepOf(c, s, worlds(k));
    }
  }

  /**
   Progress: when every answer is the good one and the gate passes, the run reaches PR_OPEN in
   exactly as many steps as the state is away from it, nine from AUTHORIZED.
   */
  lemma FavourableRun(c: Config, s: Durable, worlds: nat -> World, maxSteps: nat)
    requires OnTheWay(s.data) && maxSteps >= Distance(s.data.state)
    requires forall n: nat :: GoodAnswers(worlds(n)) && GatePasses(c, s.log, worlds(n))
    ensures var (t, steps) := RunOf(c, s, worlds, maxSteps);
      t.data.state == PrOpen && |steps| == Distance(s.data.state)
  {
    StepperApproaches(c, worlds);
    RunArrives(
      Stepper(c, worlds), Ends(), Advancing(), FavourableStates(c, worlds), DistanceOf(), s, 0, maxSteps);
  }

  // ---- The commit waits for the approval ----

  lemma RequestNeverConsumes(log: Approvals.Log, call: ApprovalLifecycle.Call)
    requires ApprovalLifecycle.WellKept(log) && call.RequestCall?
    ensures IsConsumed(ApprovalLifecycle.Perform(log, call).0, call.id) <==> IsConsumed(log, call.id)
  {
    var log' := ApprovalLifecycle.Perform(log, call).0;
    if log' != log {
      var e := log'[|log|];
      assert log' == log + [e];
      ApprovalLifecycle.HistoryAppend(log, e, call.id);
      assert Approvals.History(log', call.id) == [e];
    }
  }

  /** Evaluation neither spends an approval nor revives a spent one. */
  lemma EvaluationKeepsConsumed(log: Approvals.Log, id: string, now: int)
    requires ApprovalLifecycle.WellKept(log)
    ensures var (log', answer) := Approvals.Evaluating(log, id, now);
      && (IsConsumed(log', id) <==> IsConsumed(log, id))
      && (answer.Ok? ==> answer == Approvals.Current(log', id))
  {
    if ApprovalLifecycle.Fires(log, id, now) {
      ApprovalLifecycle.DeadlineFires(log, id, now);
      var v := Approvals.Current(log, id).value;
      ApprovalLifecycle.TimeoutEventsAreLegal(v, now);
      ApprovalLifecycle.TimedOutStatus(v, now);
    }
  }

  /** Of a step of the gate: what is spent stays spent, and a fresh spending bound these checksums. */
  ghost predicate SpendingOk(
    log: Approvals.Log, id: string, checksums: Approvals.Checksums, log': Approvals.Log, answer: Approvals.Answer)
  {
    && ApprovalLifecycle.WellKept(log')
    && (IsConsumed(log, id) ==> IsConsumed(log', id))
    && (answer.Ok? ==> answer == Approvals.Current(log', id))
    && (Spent(answer) && !IsConsumed(log, id) ==> answer.value.checksums == checksums)
  }

  lemma SpendingIsOk(log: Approvals.Log, id: string, checksums: Approvals.Checksums, w: World)
    requires ApprovalLifecycle.WellKept(log)
    ensures var (log', answer) := Spending(log, id, checksums, w); SpendingOk(log, id, checksums, log', answer)
  {
    EvaluationKeepsConsumed(log, id, w.evaluatedAt);
    ApprovalLifecycle.EvaluatingKeepsWellKept(log, id, w.evaluatedAt);
    var (log', current) := Approvals.Evaluating(log, id, w.evaluatedAt);
    if current.Ok? && current.value.status == Approvals.Approved {
      ConsumingIsOk(log', id, checksums, w.consumedAt);
    }
  }

  lemma ConsumingIsOk(log: Approvals.Log, id: string, checksums: Approvals.Checksums, now: int)
    requires ApprovalLifecycle.WellKept(log) && !IsConsumed(log, id)
    ensures var (log', answer) := Approvals.Consuming(log, id, checksums, now);
      SpendingOk(log, id, checksums, log', answer)
  {
    var (log', current) := Approvals.Evaluating(log, id, now);
    ApprovalLifecycle.EvaluatingKeepsWellKept(log, id, now);
    if current.Ok? && current.value.status == Approvals.Approved && Approvals.InOrder(log', now) {
      var changed := Approvals.Differences(current.value.checksums, checksums);
      var kind := if changed != [] then Approvals.InvalidatedEvent(changed, checksums) else Approvals.ConsumedEvent;
      ApprovalLifecycle.AppendNext(log', Approvals.Event(id, current.value.gate, now, kind));
    }
  }

  lemma OpeningIsOk(
    log: Approvals.Log, id: string, policy: ApprovalPolicies.ApprovalPolicy, checksums: Approvals.Checksums, w: World)
    requires ApprovalLifecycle.WellKept(log) && Approvals.Current(log, id) == Err(Approvals.NotFound)
    ensures var (log', answer) := Opening(log, id, policy, checksums, w); SpendingOk(log, id, checksums, log', answer)
  {
    var call := ApprovalLifecycle.RequestCall(id, GATE, checksums, policy, w.requestedAt);
    ApprovalLifecycle.PerformKeepsWellKept(log, call);
    RequestNeverConsumes(log, call);
    var (log', r) := Approvals.Requesting(log, id, GATE, checksums, policy, w.requestedAt);
    assert (log', r) == ApprovalLifecycle.Perform(log, call);
    SpendingIsOk(log', id, checksums, w);
  }

  /** The same of a whole visit: the gate opens only on an approval that is spent in the log it leaves. */
  ghost predicate GateOk(log: Approvals.Log, id: string, w: World, log': Approvals.Log, g: GateAnswer) {
    && ApprovalLifecycle.WellKept(log')
    && (IsConsumed(log, id) ==> IsConsumed(log', id))
    && (g.Answered? && g.answer.Ok? ==> g.answer == Approvals.Current(log', id))
    && (Opens(g) && !IsConsumed(log, id) ==> w.checksums == Some(g.answer.value.checksums))
  }

  lemma GatingIsOk(log: Approvals.Log, id: string, policy: PolicyAnswer, w: World)
    requires ApprovalLifecycle.WellKept(log)
    ensures var (log', g) := Gating(log, id, policy, w); GateOk(log, id, w, log', g)
  {
    if w.checksums.Some? {
      var current := Approvals.Current(log, id);
      if current.Ok? {
        SpendingIsOk(log, id, w.checksums.value, w);
      } else if current.error == Approvals.NotFound && policy.Ok? {
        OpeningIsOk(log, id, policy.value, w.checksums.value, w);
      }
    }
  }

  /** The states behind the commit. */
  predicate IsDelivered(s: WState) {
    s in {Committed, Pushed, PrOpen, AutoMergeEnabled, WaitingForChecks, Merged, Closing, Done}
  }

  function CommitAttempts(d: SessionData): Attempts {
    Of(d, ReadyToCommit)
  }

  /**
   No commit was ever so much as reserved before the approval was spent, and nothing is past the
   commit without having made the call.
   */
  ghost predicate CommitWaits(id: string, s: Durable) {
    && ApprovalLifecycle.WellKept(s.log)
    && (Started(CommitAttempts(s.data)) > 0 ==> IsConsumed(s.log, id))
    && (IsDelivered(s.data.state) ==> CommitAttempts(s.data).calls > 0)
  }

  lemma OnlySpentCommits(d: SessionData, w: World, g: GateAnswer)
    requires !Opens(g)
    ensures var e := Commit(d, w, g).data; CommitAttempts(e) == CommitAttempts(d) && e.state in {d.state, Failed}
    ensures Commit(d, w, g).outcome.to in {None, Some(Failed)}
  {
  }

  lemma SpentCommitCounts(d: SessionData, w: World, g: GateAnswer)
    requires d.state == ReadyToCommit && Opens(g)
    ensures var e := Commit(d, w, g).data; IsDelivered(e.state) ==> CommitAttempts(e).calls > 0
  {
    assert Commit(d, w, g) == Deliver(d, ReadyToCommit, Committed, w);
    if !Of(d, ReadyToCommit).open {
      TryCounts(Of(d, ReadyToCommit), w);
    }
  }

  lemma {:induction false} TryCounts(a: Attempts, w: World)
    requires !a.open
    ensures TryFrom(a, w).attempts.calls >= a.calls
    ensures TryFrom(a, w).ending == Usable ==> TryFrom(a, w).attempts.calls > a.calls
    decreases ATTEMPT_LIMIT - a.completed
  {
    if a.completed < ATTEMPT_LIMIT && CallOf(w, a.completed + 1) == Unusable {
      TryCounts(Complete(Reserve(a)), w);
    }
  }

  lemma CommitStepWaits(c: Config, s: Durable, w: World)
    requires Consistent(s.data) && CommitWaits(c.approvalId, s) && s.data.state == ReadyToCommit
    ensures CommitWaits(c.approvalId, StepOf(c, s, w).0)
  {
    GatingIsOk(s.log, c.approvalId, c.policy, w);
    var g := Gating(s.log, c.approvalId, c.policy, w).1;
    if Opens(g) {
      SpentCommitCounts(s.data, w, g);
    } else {
      OnlySpentCommits(s.data, w, g);
    }
  }

  lemma StepKeepsCommitWaiting(c: Config, s: Durable, w: World)
    requires Consistent(s.data) && CommitWaits(c.approvalId, s)
    ensures CommitWaits(c.approvalId, StepOf(c, s, w).0)
  {
    if s.data.state == ReadyToCommit {
      CommitStepWaits(c, s, w);
    } else {
      ReactMeetsSpec(s.data, w, c.qaRequired);
      OnlyWayToCommitted(s.data.state, React(s.data, w, c.qaRequired).data.state);
    }
  }

  lemma OnlyWayToCommitted(from: WState, to: WState)
    ensures Allowed(from, to) && IsDelivered(to) ==> from == ReadyToCommit || IsDelivered(from)
  {
  }

  lemma UnstuckReactRaises(d: SessionData, w: World, qaRequired: bool)
    requires d.state != ReadyToCommit && !StuckAlone(d) && React(d, w, qaRequired).outcome.phase.Raised?
    ensures var reason := React(d, w, qaRequired).outcome.phase.reason;
      reason == Interrupted || (reason == ReportExists && d.state == Implementing && d.stageReport)
  {
  }

  /**
   A session that is not stuck raises only when it is aborted, when the gate itself raises, or when an
   implementation would write its report over the one of an aborted attempt.
   */
  lemma UnstuckRaises(c: Config, s: Durable, w: World)
    requires CommitWaits(c.approvalId, s) && !Stuck(c, s)
    requires StepOf(c, s, w).1.phase.Raised?
    ensures var reason := StepOf(c, s, w).1.phase.reason;
      || reason == Interrupted || AtTheGate(reason)
      || (reason == ReportExists && s.data.state == Implementing && s.data.stageReport)
  {
    if s.data.state == ReadyToCommit {
      var g := Gating(s.log, c.approvalId, c.policy, w).1;
      if Opens(g) {
        assert Commit(s.data, w, g) == Deliver(s.data, ReadyToCommit, Committed, w);
      }
    } else {
      UnstuckReactRaises(s.data, w, c.qaRequired);
    }
  }

  /** Spending passes exactly for an approval already spent, or approved and bound to these very checksums. */
  lemma SpendingPassesExactly(log: Approvals.Log, id: string, checksums: Approvals.Checksums, w: World)
    requires ApprovalLifecycle.WellKept(log)
    ensures var (log', current) := Approvals.Evaluating(log, id, w.evaluatedAt);
      Spent(Spending(log, id, checksums, w).1) <==>
        current.Ok? && (
          || current.value.status == Approvals.Consumed
          || (current.value.status == Approvals.Approved && current.value.checksums == checksums
              && Approvals.InOrder(log', w.consumedAt)))
  {
    var (log', current) := Approvals.Evaluating(log, id, w.evaluatedAt);
    ApprovalLifecycle.EvaluatingKeepsWellKept(log, id, w.evaluatedAt);
    if current.Ok? && current.value.status == Approvals.Approved {
      ApprovalLifecycle.ConsumptionIsExact(log', id, checksums, w.consumedAt);
      ApprovalLifecycle.BoundChecksums(log', id);
    }
  }

  // ---- The driver ----

  /** After one unusable attempt the rest of the series is the series from there. */
  lemma AttemptingStep(d: SessionData, s: WState, forward: WState, w: World)
    requires s in RETRYABLE && !Of(d, s).open && Of(d, s).completed < ATTEMPT_LIMIT
    requires CallOf(w, Of(d, s).completed + 1) == Unusable
    ensures var done := With(d, s, Complete(Reserve(Of(d, s))));
      Of(done, s) == Complete(Reserve(Of(d, s))) && Attempting(d, s, forward, w) == Attempting(done, s, forward, w)
  {
    var next := Complete(Reserve(Of(d, s)));
    WithWith(d, s, next, TryFrom(next, w).attempts);
  }

  /** With the limit used up, the series is over. */
  lemma AttemptingEnds(d: SessionData, s: WState, forward: WState, w: World)
    requires !Of(d, s).open && Of(d, s).completed >= ATTEMPT_LIMIT
    ensures Attempting(d, s, forward, w) == Goes(d, Failed)
  {
    WithWith(d, s, Of(d, s), Of(d, s));
  }

  class ImplementerDriver {
    const session: WorkflowSession
    const service: Approvals.ApprovalService
    const approvalId: string
    const qaRequired: bool
    const project: Option<ApprovalPolicies.Overlay>
    const gate: Option<ApprovalPolicies.Overlay>
    const run: Option<ApprovalPolicies.Overlay>

    constructor (
      session: WorkflowSession, service: Approvals.ApprovalService, approvalId: string, qaRequired: bool,
      project: Option<ApprovalPolicies.Overlay>, gate: Option<ApprovalPolicies.Overlay>,
      run: Option<ApprovalPolicies.Overlay>)
      ensures this.session == session && this.service == service
      ensures this.approvalId == approvalId && this.qaRequired == qaRequired
      ensures this.project == project && this.gate == gate && this.run == run
    {
      this.session, this.service, this.approvalId, this.qaRequired := session, service, approvalId, qaRequired;
      this.project, this.gate, this.run := project, gate, run;
    }

    function Settings(): Config {
      Config(approvalId, qaRequired, ApprovalPolicies.Resolved(project, gate, run))
    }

    method Fail() returns (o: Outcome)
      requires Consistent(session.data) && Allowed(session.data.state, Failed)
      modifies session
      ensures Consistent(session.data) && Reaction(session.data, o) == Goes(old(session.data), Failed)
    {
      o := Outcome(session.data.state, Some(Failed), Failing);
      var _ := session.TransitionTo(Failed, Orchestrator);
    }

    method AdvanceTo(to: WState) returns (o: Outcome)
      requires Consistent(session.data) && Advances(session.data.state, to) && !session.data.repair.open
      modifies session
      ensures Consistent(session.data) && Reaction(session.data, o) == Goes(old(session.data), to)
    {
      o := Outcome(session.data.state, Some(to), Advanced);
      var _ := session.TransitionTo(to, Orchestrator);
    }

    method Raise(reason: Reason) returns (o: Outcome)
      ensures Reaction(session.data, o) == Raises(session.data, reason)
    {
      o := Outcome(session.data.state, None, Raised(reason));
    }

    /** Reserves the next attempt, makes the call and records its completion. */
    method InvokeReserved(s: WState, call: Call) returns (reserved: bool)
      requires Consistent(session.data) && session.data.state == s && s in RETRYABLE
      modifies session
      ensures Consistent(session.data)
      ensures reserved <==> MayStart(Of(old(session.data), s), Of(old(session.data), s).completed + 1)
      ensures !reserved ==> session.data == old(session.data)
      ensures reserved ==>
        var started := Reserve(Of(old(session.data), s));
        session.data == With(old(session.data), s, if call == Aborts(AtReservation) then started else Complete(started))
    {
      WithWith(session.data, s, if Of(session.data, s).open || Of(session.data, s).completed >= ATTEMPT_LIMIT
        then Of(session.data, s) else Reserve(Of(session.data, s)), Of(session.data, s));
      var n := Of(session.data, s).completed + 1;
      reserved := session.RecordStarted(s, n);
      if reserved && call != Aborts(AtReservation) {
        var _ := session.RecordCompleted(s, n);
      }
    }

    /** The step ends here; the stage report may be the last thing it wrote. */
    method AbortAttempt(after: Reached) returns (o: Outcome)
      requires Consistent(session.data)
      modifies session
      ensures Consistent(session.data)
      ensures Reaction(session.data, o) == Raises(Reporting(old(session.data), after == AtReport), Interrupted)
    {
      if after == AtReport {
        session.RecordStageReport();
      }
      o := Raise(Interrupted);
    }

    /** Writes the stage report, unless one exists. */
    method ReportImplementation() returns (o: Outcome)
      requires Consistent(session.data) && session.data.state == Implementing && !session.data.repair.open
      modifies session
      ensures Consistent(session.data)
      ensures Reaction(session.data, o) ==
        if old(session.data).stageReport then Raises(old(session.data), ReportExists)
        else Goes(Reporting(old(session.data), true), Validating)
    {
      if session.data.stageReport {
        o := Raise(ReportExists);
      } else {
        session.RecordStageReport();
        o := AdvanceTo(Validating);
      }
    }

    /** Attempts, within one step, until one succeeds, leaves a diff, or the limit is used up. */
    method AttemptImplementation(w: World) returns (o: Outcome)
      requires Consistent(session.data) && session.data.state == Implementing && !Of(session.data, Implementing).open
      requires !session.data.repair.open
      modifies session
      decreases ATTEMPT_LIMIT - Of(session.data, Implementing).completed
      ensures Consistent(session.data)
      ensures Reaction(session.data, o) ==
        if Of(old(session.data), Implementing).completed >= ATTEMPT_LIMIT then Raises(old(session.data), LedgerRefused)
        else Attempting(old(session.data), Implementing, Validating, w)
    {
      var n := Of(session.data, Implementing).completed + 1;
      if n <= ATTEMPT_LIMIT && CallOf(w, n) == Unusable {
        AttemptingStep(session.data, Implementing, Validating, w);
      }
      var reserved := InvokeReserved(Implementing, CallOf(w, n));
      if !reserved {
        o := Raise(LedgerRefused);
      } else if CallOf(w, n).Aborts? {
        o := AbortAttempt(CallOf(w, n).after);
      } else if CallOf(w, n) == Usable {
        o := ReportImplementation();
      } else if n < ATTEMPT_LIMIT {
        o := AttemptImplementation(w);
      } else {
        o := Fail();
      }
    }

    method HandleImplementing(w: World) returns (o: Outcome)
      requires Consistent(session.data) && session.data.state == Implementing
      modifies session
      ensures Consistent(session.data) && Reaction(session.data, o) == Implement(old(session.data), w)
    {
      if !Of(session.data, Implementing).open {
        o := AttemptImplementation(w);
      } else {
        var _ := session.RecordCompleted(Implementing, Of(session.data, Implementing).completed + 1);
        o := ConcludeCrashed(w);
      }
    }

    /** The crashed attempt is closed by now; a diff it left is judged, no diff allows another attempt. */
    method ConcludeCrashed(w: World) returns (o: Outcome)
      requires Consistent(session.data) && session.data.state == Implementing && !Of(session.data, Implementing).open
      modifies session
      ensures Consistent(session.data)
      ensures Reaction(session.data, o) ==
        if w.aborts then Raises(old(session.data), Interrupted)
        else if w.leftDiff then Goes(old(session.data), Validating)
        else Attempting(old(session.data), Implementing, Validating, w)
    {
      if w.aborts {
        o := Raise(Interrupted);
      } else if w.leftDiff {
        o := AdvanceTo(Validating);
      } else if Of(session.data, Implementing).completed < ATTEMPT_LIMIT {
        o := AttemptImplementation(w);
      } else {
        AttemptingEnds(session.data, Implementing, Validating, w);
        o := Fail();
      }
    }

    method EnterRepairOrFail(w: World) returns (o: Outcome)
      requires Consistent(session.data) && !session.data.repair.open
      requires Advances(session.data.state, Repairing) && Allowed(session.data.state, Failed)
      modifies session
      ensures Consistent(session.data) && Reaction(session.data, o) == RepairOrFail(old(session.data), w)
    {
      if session.data.repair.completed >= ATTEMPT_LIMIT {
        assert RepairOrFail(session.data, w) == Goes(session.data, Failed);
        o := Fail();
      } else {
        ghost var reported := WithFailureReport(session.data, w.reported);
        session.RecordFailureReport(session.data.repair.completed + 1, w.reported);
        assert session.data == reported;
        o := EnterRepair(w.aborts);
      }
    }

    method EnterRepair(aborts: bool) returns (o: Outcome)
      requires Consistent(session.data) && Advances(session.data.state, Repairing) && !session.data.repair.open
      modifies session
      ensures Consistent(session.data)
      ensures Reaction(session.data, o) ==
        if aborts then Raises(old(session.data), Interrupted) else Goes(old(session.data), Repairing)
    {
      if aborts {
        o := Raise(Interrupted);
      } else {
        o := AdvanceTo(Repairing);
      }
    }

    method HandleValidating(w: World) returns (o: Outcome)
      requires Consistent(session.data) && session.data.state == Validating
      modifies session
      ensures Consistent(session.data) && Reaction(session.data, o) == Validate(old(session.data), w)
    {
      if !session.data.stageReport {
        o := Raise(ReportMissing);
      } else if w.validation == Passes {
        o := AdvanceTo(QaRunning);
      } else if w.validation == NotRepairable {
        o := Fail();
      } else {
        o := EnterRepairOrFail(w);
      }
    }

    /** A verdict already on disk for this round is read back instead of asking again. */
    method GetOrRunQa(w: World) returns (approved: bool, alive: bool)
      modifies session
      ensures alive <==> ReadBack(old(session.data), w) || !w.qaAborts
      ensures approved <==> Decided(old(session.data), w)
      ensures session.data ==
        if ReadBack(old(session.data), w) then old(session.data) else Reviewed(old(session.data), w)
    {
      var round := Round(session.data);
      if w.qaRead && round in session.data.qa {
        return session.data.qa[round], true;
      }
      approved := w.review == Approves && round !in session.data.asked;
      if w.review != NoSession {
        session.RecordReviewSession(round);
      }
      session.RecordQaReport(round, approved, w.qaReported);
      alive := !w.qaAborts;
    }

    method ApplyQaVerdict(approved: bool, w: World) returns (o: Outcome)
      requires Consistent(session.data) && session.data.state == QaRunning
      modifies session
      ensures Consistent(session.data)
      ensures Reaction(session.data, o) == ConcludeQa(old(session.data), w, approved)
    {
      if approved {
        o := AdvanceTo(ReadyToCommit);
      } else {
        o := EnterRepairOrFail(w);
      }
    }

    method HandleQaRunning(w: World) returns (o: Outcome)
      requires Consistent(session.data) && session.data.state == QaRunning
      modifies session
      ensures Consistent(session.data) && Reaction(session.data, o) == ReviewQa(old(session.data), w, qaRequired)
    {
      var approved, alive := true, true;
      if qaRequired {
        approved, alive := GetOrRunQa(w);
      }
      if alive {
        o := ApplyQaVerdict(approved, w);
      } else {
        o := Raise(Interrupted);
      }
    }

    /** Reserves the next repair attempt, makes the call and records its completion. */
    method InvokeRepair(call: Call) returns (reserved: bool)
      requires Consistent(session.data) && session.data.state == Repairing
      modifies session
      ensures Consistent(session.data)
      ensures reserved <==> MayStart(old(session.data).repair, old(session.data).repair.completed + 1)
      ensures session.data == if !reserved then old(session.data) else
        var started := Reserve(old(session.data).repair);
        old(session.data).(repair := if call == Aborts(AtReservation) then started else Complete(started))
    {
      var n := session.data.repair.completed + 1;
      reserved := session.RecordRepairStarted(n);
      if reserved && call != Aborts(AtReservation) {
        var _ := session.RecordRepairCompleted(n);
      }
    }

    method ConcludeRepair(call: Call) returns (o: Outcome)
      requires Consistent(session.data) && session.data.state == Repairing
      requires call.Usable? ==> !session.data.repair.open
      modifies session
      ensures Consistent(session.data)
      ensures Reaction(session.data, o) ==
        match call
        case Aborts(after) => Raises(Reporting(old(session.data), after == AtReport), Interrupted)
        case Usable => Goes(Reporting(old(session.data), true), Validating)
        case Unusable => Goes(old(session.data), Failed)
    {
      match call {
        case Aborts(after) => o := AbortAttempt(after);
        case Unusable => o := Fail();
        case Usable =>
          session.RecordStageReport();
          o := AdvanceTo(Validating);
      }
    }

    method RunRepair(call: Call) returns (o: Outcome)
      requires Consistent(session.data) && session.data.state == Repairing
      requires MayStart(session.data.repair, session.data.repair.completed + 1)
      modifies session
      ensures Consistent(session.data) && Reaction(session.data, o) == RepairCall(old(session.data), call)
    {
      var _ := InvokeRepair(call);
      o := ConcludeRepair(call);
    }

    method HandleRepairing(w: World) returns (o: Outcome)
      requires Consistent(session.data) && session.data.state == Repairing
      modifies session
      ensures Consistent(session.data) && Reaction(session.data, o) == Repair(old(session.data), w)
    {
      if session.data.repair.open {
        assert Repair(session.data, w) == Goes(session.data, Failed);
        o := Fail();
      } else {
        o := TakeUpRepair(w);
      }
    }

    method TakeUpRepair(w: World) returns (o: Outcome)
      requires Consistent(session.data) && session.data.state == Repairing && !session.data.repair.open
      modifies session
      ensures Consistent(session.data) && Reaction(session.data, o) == Repair(old(session.data), w)
    {
      var n := session.data.repair.completed + 1;
      if n !in session.data.failureReports {
        assert Repair(session.data, w) == Raises(session.data, ReportMissing);
        o := Raise(ReportMissing);
      } else if !MayStart(session.data.repair, n) {
        assert Repair(session.data, w) == Raises(session.data, LedgerRefused);
        o := Raise(LedgerRefused);
      } else {
        assert Repair(session.data, w) == RepairCall(session.data, CallOf(w, n));
        o := RunRepair(CallOf(w, n));
      }
    }

    // ---- READY_TO_COMMIT, COMMITTED and PUSHED ----

    /** Up to three reserved calls of an idempotent Skill. */
    method RunIdempotentSideEffect(s: WState, forward: WState, w: World) returns (o: Outcome)
      requires Consistent(session.data) && session.data.state == s && SideEffect(s, forward)
      modifies session
      decreases ATTEMPT_LIMIT - Of(session.data, s).completed, 1
      ensures Consistent(session.data) && Reaction(session.data, o) == Deliver(old(session.data), s, forward, w)
    {
      var n := Of(session.data, s).completed + 1;
      if n > ATTEMPT_LIMIT {
        AttemptingEnds(session.data, s, forward, w);
        o := Fail();
        return;
      }
      var call := CallOf(w, n);
      if call == Unusable && !Of(session.data, s).open {
        AttemptingStep(session.data, s, forward, w);
      }
      var reserved := InvokeReserved(s, call);
      if !reserved {
        o := Raise(LedgerRefused);
      } else if call == Unusable {
        o := RetrySideEffect(s, forward, w);
      } else {
        o := ConcludeSideEffect(forward, call);
      }
    }

    method ConcludeSideEffect(forward: WState, call: Call) returns (o: Outcome)
      requires Consistent(session.data) && SideEffect(session.data.state, forward) && !call.Unusable?
      modifies session
      ensures Consistent(session.data)
      ensures Reaction(session.data, o) ==
        if call.Aborts? then Raises(old(session.data), Interrupted) else Goes(old(session.data), forward)
    {
      if call.Aborts? {
        o := Raise(Interrupted);
      } else {
        o := AdvanceTo(forward);
      }
    }

    method RetrySideEffect(s: WState, forward: WState, w: World) returns (o: Outcome)
      requires Consistent(session.data) && session.data.state == s && SideEffect(s, forward)
      requires !Of(session.data, s).open
      modifies session
      decreases ATTEMPT_LIMIT - Of(session.data, s).completed, 2
      ensures Consistent(session.data)
      ensures Reaction(session.data, o) == Attempting(old(session.data), s, forward, w)
    {
      if Of(session.data, s).completed >= ATTEMPT_LIMIT {
        AttemptingEnds(session.data, s, forward, w);
        o := Fail();
      } else {
        o := RunIdempotentSideEffect(s, forward, w);
      }
    }

    method SpendApproval(checksums: Approvals.Checksums, w: World) returns (r: Approvals.Answer)
      modifies service
      ensures (service.log, r) == Spending(old(service.log), approvalId, checksums, w)
    {
      r := service.EvaluateApproval(approvalId, w.evaluatedAt);
      if r.Ok? && r.value.status == Approvals.Approved {
        r := service.ConsumeApproval(approvalId, checksums, w.consumedAt);
      }
    }

    /** The gate: one approval per workflow, requested once, evaluated and spent on each visit. */
    method RunApprovalGate(w: World) returns (g: GateAnswer)
      modifies service
      ensures (service.log, g) == Gating(old(service.log), approvalId, Settings().policy, w)
    {
      if w.checksums.None? {
        return NoChecksums;
      }
      var checksums := w.checksums.value;
      var r := service.GetApproval(approvalId);
      if r == Err(Approvals.NotFound) {
        var policy := ApprovalPolicies.ResolveApprovalPolicy(project, gate, run);
        if policy.Err? {
          return Unresolved(policy.error);
        }
        r := service.RequestApproval(approvalId, GATE, checksums, policy.value, w.requestedAt);
      }
      if r.Err? {
        return Answered(r);
      }
      r := SpendApproval(checksums, w);
      g := Answered(r);
    }

    method ActOnAnswer(g: GateAnswer, w: World) returns (o: Outcome)
      requires Consistent(session.data) && session.data.state == ReadyToCommit
      modifies session
      ensures Consistent(session.data) && Reaction(session.data, o) == Commit(old(session.data), w, g)
    {
      if g.NoChecksums? {
        o := Raise(ChecksumsUnavailable);
      } else if g.Unresolved? {
        o := Raise(PolicyRefused(g.cause));
      } else if g.answer.Err? {
        o := Raise(ApprovalRefused(g.answer.error));
      } else if g.answer.value.status in {Approvals.Pending, Approvals.HumanInterventionRequired, Approvals.Escalated} {
        o := Outcome(ReadyToCommit, None, AwaitingApproval);
      } else if g.answer.value.status != Approvals.Consumed {
        assert Commit(session.data, w, g) == Goes(session.data, Failed);
        o := Fail();
      } else {
        assert Commit(session.data, w, g) == Deliver(session.data, ReadyToCommit, Committed, w);
        o := RunIdempotentSideEffect(ReadyToCommit, Committed, w);
      }
    }

    method HandleReadyToCommit(w: World) returns (o: Outcome)
      requires Consistent(session.data) && session.data.state == ReadyToCommit
      modifies session, service
      ensures Consistent(session.data)
      ensures (Durable(session.data, service.log), o)
           == StepOf(Settings(), Durable(old(session.data), old(service.log)), w)
    {
      var g := RunApprovalGate(w);
      o := ActOnAnswer(g, w);
    }

    /** A check that passes or fails the workflow, with no retry. */
    method HandleGate(to: WState, w: World) returns (o: Outcome)
      requires Consistent(session.data) && Advances(session.data.state, to)
      requires session.data.state in {Authorized, PreconditionsChecked}
      modifies session
      ensures Consistent(session.data)
      ensures Reaction(session.data, o) == Goes(old(session.data), if w.check then to else Failed)
    {
      if w.check {
        o := AdvanceTo(to);
      } else {
        o := Fail();
      }
    }

    /** One unit of work everywhere but at the approval gate. */
    method StepAlone(w: World) returns (o: Outcome)
      requires Consistent(session.data) && session.data.state != ReadyToCommit
      modifies session
      ensures Consistent(session.data) && Reaction(session.data, o) == React(old(session.data), w, qaRequired)
    {
      match session.data.state {
        case Authorized => o := HandleGate(PreconditionsChecked, w);
        case PreconditionsChecked => o := HandleGate(BranchCreated, w);
        case BranchCreated => o := AdvanceTo(Implementing);
        case Implementing => o := HandleImplementing(w);
        case Validating => o := HandleValidating(w);
        case QaRunning => o := HandleQaRunning(w);
        case Repairing => o := HandleRepairing(w);
        case Committed => o := RunIdempotentSideEffect(Committed, Pushed, w);
        case Pushed => o := RunIdempotentSideEffect(Pushed, PrOpen, w);
        case _ => o := Raise(NoHandler);
      }
    }

    /** One unit of work from the re-observed durable state. */
    method Step(w: World) returns (o: Outcome)
      requires Consistent(session.data)
      modifies session, service
      ensures Consistent(session.data)
      ensures (Durable(session.data, service.log), o)
           == StepOf(Settings(), Durable(old(session.data), old(service.log)), w)
    {
      if session.data.state == ReadyToCommit {
        o := HandleReadyToCommit(w);
      } else {
        o := StepAlone(w);
      }
    }

    /** Runs until PR_OPEN, a terminal state, a pause or a raised error. */
    method RunToPrOpen(maxSteps: nat, worlds: nat -> World) returns (steps: seq<Outcome>, reachedPrOpen: bool)
      requires Consistent(session.data)
      modifies session, service
      ensures Consistent(session.data) && (reachedPrOpen <==> session.data.state == PrOpen)
      ensures (Durable(session.data, service.log), steps)
           == RunOf(Settings(), Durable(old(session.data), old(service.log)), worlds, maxSteps)
    {
      ghost var step := Stepper(Settings(), worlds);
      ghost var first := Durable(session.data, service.log);
      SoFarBegins(step, Ends(), Advancing(), first, maxSteps);
      steps := [];
      var k := 0;
      while k < maxSteps && !Stops(session.data.state)
        invariant k <= maxSteps && Consistent(session.data)
        invariant
          SoFar(step, Ends(), Advancing(), first, maxSteps, Durable(session.data, service.log), k, steps)
      {
        ghost var before := Durable(session.data, service.log);
        var o := Step(worlds(k));
        SoFarAdvances(
          step, Ends(), Advancing(), first, maxSteps, before, k, steps, Durable(session.data, service.log), o);
        steps := steps + [o];
        if o.phase != Advanced {
          reachedPrOpen := session.data.state == PrOpen;
          return;
        }
        k := k + 1;
      }
      SoFarEnds(step, Ends(), Advancing(), first, maxSteps, Durable(session.data, service.log), k, steps);
      reachedPrOpen := session.data.state == PrOpen;
    }
  }
}
