/**
 The whole life of one workflow: steps of the implementer's and of the merge driver, deaths inside the
 approval gate, approval calls by anyone, and moves by an operator, in any order. Nothing but the
 durable state passes from one action to the next, so a resumption is simply the next action, and
 every action brings the configuration it was started with.
 */
module WorkflowLife {
  import opened Support
  import opened WorkflowSessions
  import opened ImplementerRun
  import Approvals
  import ApprovalLifecycle
  import ActionRuns
  import MergeCloseout

  datatype Action =
    | Drive(own: Config, w: World)
    | DieInGate(own: Config, w: World, calls: nat)
    | Merge(task: MergeCloseout.Config, visit: MergeCloseout.World)
    | Service(call: ApprovalLifecycle.Call)
    | Operate(to: WState)

  // ---- The calls a visit to the gate makes ----

  function SpendCalls(log: Approvals.Log, id: string, checksums: Approvals.Checksums, w: World)
    : seq<ApprovalLifecycle.Call>
  {
    var r := Approvals.Evaluating(log, id, w.evaluatedAt).1;
    [ApprovalLifecycle.EvaluateCall(id, w.evaluatedAt)]
    + if r.Ok? && r.value.status == Approvals.Approved
      then [ApprovalLifecycle.ConsumeCall(id, checksums, w.consumedAt)] else []
  }

  function RequestOf(c: Config, w: World): ApprovalLifecycle.Call
    requires w.checksums.Some? && c.policy.Ok?
  {
    ApprovalLifecycle.RequestCall(c.approvalId, GATE, w.checksums.value, c.policy.value, w.requestedAt)
  }

  function GateCalls(c: Config, log: Approvals.Log, w: World): seq<ApprovalLifecycle.Call> {
    var current := Approvals.Current(log, c.approvalId);
    if w.checksums.None? then []
    else if current.Ok? then SpendCalls(log, c.approvalId, w.checksums.value, w)
    else if current.error != Approvals.NotFound || c.policy.Err? then []
    else
      var request := RequestOf(c, w);
      var (log', r) := ApprovalLifecycle.Perform(log, request);
      [request] + if r.Err? then [] else SpendCalls(log', c.approvalId, w.checksums.value, w)
  }

  lemma AfterOneCall(log: Approvals.Log, call: ApprovalLifecycle.Call)
    ensures ApprovalLifecycle.AfterCalls(log, [call]) == ApprovalLifecycle.Perform(log, call).0
  {
    assert [call][..0] == [];
  }

  lemma {:induction false} AfterMoreCalls(
    log: Approvals.Log, first: seq<ApprovalLifecycle.Call>, second: seq<ApprovalLifecycle.Call>)
    ensures ApprovalLifecycle.AfterCalls(log, first + second)
         == ApprovalLifecycle.AfterCalls(ApprovalLifecycle.AfterCalls(log, first), second)
    decreases |second|
  {
    if second == [] {
      assert first + second == first;
    } else {
      var front, last := second[..|second| - 1], second[|second| - 1];
      AfterMoreCalls(log, first, front);
      SumOfFrontAndLast(first, second);
      assert (first + second)[..|first + second| - 1] == first + front;
    }
  }

  lemma SpendingIsItsCalls(log: Approvals.Log, id: string, checksums: Approvals.Checksums, w: World)
    ensures Spending(log, id, checksums, w).0
         == ApprovalLifecycle.AfterCalls(log, SpendCalls(log, id, checksums, w))
  {
    var evaluate := ApprovalLifecycle.EvaluateCall(id, w.evaluatedAt);
    var consume := ApprovalLifecycle.ConsumeCall(id, checksums, w.consumedAt);
    AfterOneCall(log, evaluate);
    AfterOneCall(ApprovalLifecycle.Perform(log, evaluate).0, consume);
    AfterMoreCalls(log, [evaluate], [consume]);
    assert [evaluate] + [] == [evaluate];
  }

  /** A visit to the gate is a series of calls, so one that dies has made the first of them. */
  lemma GatingIsItsCalls(c: Config, log: Approvals.Log, w: World)
    ensures Gating(log, c.approvalId, c.policy, w).0 == ApprovalLifecycle.AfterCalls(log, GateCalls(c, log, w))
  {
    var current := Approvals.Current(log, c.approvalId);
    if w.checksums.Some? && current.Ok? {
      SpendingIsItsCalls(log, c.approvalId, w.checksums.value, w);
    } else if w.checksums.Some? && current.error == Approvals.NotFound && c.policy.Ok? {
      OpeningIsItsCalls(c, log, w);
    }
  }

  lemma OpeningIsItsCalls(c: Config, log: Approvals.Log, w: World)
    requires w.checksums.Some? && Approvals.Current(log, c.approvalId) == Err(Approvals.NotFound) && c.policy.Ok?
    ensures Opening(log, c.approvalId, c.policy.value, w.checksums.value, w).0
         == ApprovalLifecycle.AfterCalls(log, GateCalls(c, log, w))
  {
    var request := RequestOf(c, w);
    var (log', r) := ApprovalLifecycle.Perform(log, request);
    AfterOneCall(log, request);
    if r.Ok? {
      var spend := SpendCalls(log', c.approvalId, w.checksums.value, w);
      SpendingIsItsCalls(log', c.approvalId, w.checksums.value, w);
      AfterMoreCalls(log, [request], spend);
    } else {
      assert [request] + [] == [request];
    }
  }

  // ---- Runs ----

  /**
   id names the one approval of this workflow, which every driver of it derives in the same way. An
   operator authorizes, cancels or fails; the merge driver takes up only what it may resume.
   */
  function NextOf(id: string, s: Durable, a: Action): Option<Durable> {
    match a
    case Drive(own, w) => if own.approvalId == id then Some(StepOf(own, s, w).0) else None
    case DieInGate(own, w, calls) =>
      if own.approvalId == id && s.data.state == ReadyToCommit && calls <= |GateCalls(own, s.log, w)|
      then Some(s.(log := ApprovalLifecycle.AfterCalls(s.log, GateCalls(own, s.log, w)[..calls])))
      else None
    case Merge(task, visit) =>
      if MergeCloseout.MayResume(s.data)
      then Some(s.(data := MergeCloseout.StepOf(task, s.data, visit).0))
      else None
    case Service(call) => Some(s.(log := ApprovalLifecycle.Perform(s.log, call).0))
    case Operate(to) =>
      if Allowed(s.data.state, to) && to in {Authorized, Cancelled, Failed}
      then Some(s.(data := Move(s.data, to)))
      else None
  }

  function Next(id: string): (Durable, Action) -> Option<Durable> {
    (s: Durable, a: Action) => NextOf(id, s, a)
  }

  const NO_ATTEMPTS: Attempts := Attempts(0, false, 0)

  const FRESH: SessionData := SessionData(
    Created, [], Scopes(NO_ATTEMPTS, NO_ATTEMPTS, NO_ATTEMPTS, NO_ATTEMPTS), NO_ATTEMPTS, false, {}, map[], {}, false)

  /** A session just created, and an approval log without an event. */
  const START: Durable := Durable(FRESH, [])

  ghost predicate IsRun(id: string, actions: seq<Action>) {
    ActionRuns.Runs(Next(id), START, actions)
  }

  ghost function StateAfter(id: string, actions: seq<Action>): Durable
    requires IsRun(id, actions)
  {
    ActionRuns.After(Next(id), START, actions)
  }

  // ---- What is kept of the reviews ----

  /** No round that has not begun has been reviewed. */
  ghost predicate RoundsKept(d: SessionData) {
    forall round :: round in d.qa.Keys + d.asked ==> round <= Round(d)
  }

  predicate SameReports(d: SessionData, e: SessionData) {
    e.qa == d.qa && e.asked == d.asked && e.closeout == d.closeout
  }

  lemma WithKeepsReports(d: SessionData, s: WState, a: Attempts)
    ensures SameReports(d, With(d, s, a))
  {
  }

  lemma TriedKeepsReports(d: SessionData, s: WState, forward: WState, w: World)
    requires !Of(d, s).open
    ensures SameReports(d, Attempting(d, s, forward, w).data)
  {
    var tried := TryFrom(Of(d, s), w);
    WithKeepsReports(d, s, tried.attempts);
    RecordedKeepsReports(d, With(d, s, tried.attempts), s, forward, tried.ending);
  }

  /** How a series of attempts ends once they are recorded. */
  lemma RecordedKeepsReports(d: SessionData, done: SessionData, s: WState, forward: WState, ending: Call)
    requires SameReports(d, done)
    ensures SameReports(d, Reporting(done, true)) && SameReports(d, Move(done, Failed))
    ensures SameReports(d, Move(done, forward)) && SameReports(d, Move(Reporting(done, true), forward))
  {
  }

  lemma ImplementKeepsReports(d: SessionData, w: World)
    ensures SameReports(d, Implement(d, w).data)
  {
    if Of(d, Implementing).open {
      TriedKeepsReports(Closed(d, Implementing), Implementing, Validating, w);
    } else {
      TriedKeepsReports(d, Implementing, Validating, w);
    }
  }

  lemma DeliverKeepsReports(d: SessionData, s: WState, forward: WState, w: World)
    ensures SameReports(d, Deliver(d, s, forward, w).data)
  {
    if !Of(d, s).open {
      TriedKeepsReports(d, s, forward, w);
    }
  }

  lemma VisitKeepsReports(d: SessionData, w: World, g: GateAnswer)
    ensures SameReports(d, Commit(d, w, g).data)
  {
    DeliverKeepsReports(d, ReadyToCommit, Committed, w);
  }

  /** The review is the only step that leaves anything of a review. */
  lemma ReactKeepsReports(d: SessionData, w: World, qaRequired: bool)
    requires d.state != QaRunning
    ensures SameReports(d, React(d, w, qaRequired).data)
  {
    match d.state
    case Implementing => ImplementKeepsReports(d, w);
    case Committed => DeliverKeepsReports(d, Committed, Pushed, w);
    case Pushed => DeliverKeepsReports(d, Pushed, PrOpen, w);
    case _ =>
  }

  /** And it leaves at most what a review of the round it is in does. */
  lemma ReviewWrites(d: SessionData, w: World, qaRequired: bool)
    requires d.state == QaRunning
    ensures var e := ReviewQa(d, w, qaRequired).data;
      && (SameReports(d, e) || (qaRequired && !ReadBack(d, w) && SameReports(Reviewed(d, w), e)))
      && e.repair == d.repair
  {
  }

  lemma ReviewKeepsRounds(d: SessionData, w: World)
    requires RoundsKept(d)
    ensures RoundsKept(Reviewed(d, w))
  {
    var e := Reviewed(d, w);
    forall round | round in e.qa.Keys + e.asked ensures round <= Round(e) {
      assert round == Round(d) || round in d.qa.Keys + d.asked;
    }
  }

  lemma LaterKeepsRounds(d: SessionData, e: SessionData)
    requires RoundsKept(d) && SameReports(d, e) && Round(d) <= Round(e)
    ensures RoundsKept(e)
  {
  }

  lemma DriveKeepsRounds(c: Config, s: Durable, w: World)
    requires Consistent(s.data) && RoundsKept(s.data)
    ensures RoundsKept(StepOf(c, s, w).0.data)
  {
    StepMeetsSpec(c, s, w);
    var e := StepOf(c, s, w).0.data;
    if s.data.state == QaRunning {
      ReviewWrites(s.data, w, c.qaRequired);
      ReviewKeepsRounds(s.data, w);
      LaterKeepsRounds(if SameReports(s.data, e) then s.data else Reviewed(s.data, w), e);
    } else {
      if s.data.state == ReadyToCommit {
        VisitKeepsReports(s.data, w, Gating(s.log, c.approvalId, c.policy, w).1);
      } else {
        ReactKeepsReports(s.data, w, c.qaRequired);
      }
      LaterKeepsRounds(s.data, e);
    }
  }

  // ---- The attempts behind a state ----

  /** Every state behind the commit has the attempts that lead there completed. */
  predicate Attempted(d: SessionData) {
    && (IsDelivered(d.state) ==> Of(d, ReadyToCommit).completed > 0)
    && (IsDelivered(d.state) && d.state != Committed ==> Of(d, Committed).completed > 0)
    && (IsDelivered(d.state) && d.state !in {Committed, Pushed} ==> Of(d, Pushed).completed > 0)
  }

  lemma {:induction false} TriesComplete(a: Attempts, w: World)
    requires !a.open
    ensures TryFrom(a, w).attempts.completed >= a.completed
    ensures TryFrom(a, w).ending == Usable ==> TryFrom(a, w).attempts.completed > 0
    decreases ATTEMPT_LIMIT - a.completed
  {
    if a.completed < ATTEMPT_LIMIT && CallOf(w, a.completed + 1) == Unusable {
      TriesComplete(Complete(Reserve(a)), w);
    }
  }

  /** More completed attempts of the state itself, and on to the next one only with one at least. */
  lemma RecordedIsAttempted(d: SessionData, s: WState, forward: WState, a: Attempts)
    requires Attempted(d) && d.state == s && SideEffect(s, forward) && a.completed >= Of(d, s).completed
    ensures Attempted(With(d, s, a)) && Attempted(Move(With(d, s, a), Failed))
    ensures a.completed > 0 ==> Attempted(Move(With(d, s, a), forward))
  {
  }

  lemma DeliverKeepsAttempted(d: SessionData, s: WState, forward: WState, w: World)
    requires Attempted(d) && d.state == s && SideEffect(s, forward)
    ensures Attempted(Deliver(d, s, forward, w).data)
  {
    if !Of(d, s).open {
      var tried := TryFrom(Of(d, s), w);
      TriesComplete(Of(d, s), w);
      RecordedIsAttempted(d, s, forward, tried.attempts);
    }
  }

  lemma VisitKeepsAttempted(d: SessionData, w: World, g: GateAnswer)
    requires Attempted(d) && d.state == ReadyToCommit
    ensures Attempted(Commit(d, w, g).data)
  {
    if Opens(g) {
      assert Commit(d, w, g) == Deliver(d, ReadyToCommit, Committed, w);
      DeliverKeepsAttempted(d, ReadyToCommit, Committed, w);
    } else {
      OnlySpentCommits(d, w, g);
    }
  }

  /** The driver does nothing behind the pull request. */
  lemma DriveLeavesAlone(c: Config, s: Durable, w: World)
    requires !IsDriven(s.data.state)
    ensures StepOf(c, s, w).0 == s
  {
    assert React(s.data, w, c.qaRequired) == Raises(s.data, NoHandler);
  }

  lemma EarlierIsAttempted(c: Config, s: Durable, w: World)
    requires Consistent(s.data) && IsDriven(s.data.state) && s.data.state !in {ReadyToCommit, Committed, Pushed}
    ensures Attempted(StepOf(c, s, w).0.data)
  {
    StepStaysOrMoves(c, s, w);
    OnlyWayToCommitted(s.data.state, StepOf(c, s, w).0.data.state);
  }

  lemma DriveKeepsAttempted(c: Config, s: Durable, w: World)
    requires Consistent(s.data) && Attempted(s.data)
    ensures Attempted(StepOf(c, s, w).0.data)
  {
    if s.data.state == ReadyToCommit {
      VisitKeepsAttempted(s.data, w, Gating(s.log, c.approvalId, c.policy, w).1);
    } else if s.data.state == Committed {
      DeliverKeepsAttempted(s.data, Committed, Pushed, w);
    } else if s.data.state == Pushed {
      DeliverKeepsAttempted(s.data, Pushed, PrOpen, w);
    } else if IsDriven(s.data.state) {
      EarlierIsAttempted(c, s, w);
    } else {
      DriveLeavesAlone(c, s, w);
    }
  }

  lemma MoveKeepsAttempted(d: SessionData, to: WState)
    requires Attempted(d)
    requires IsDelivered(to) ==> IsDelivered(d.state) && d.state !in {Committed, Pushed}
    ensures Attempted(Move(d, to))
  {
  }

  // ---- The invariant ----

  ghost predicate Sane(id: string, s: Durable) {
    Consistent(s.data) && CommitWaits(id, s) && RoundsKept(s.data) && Attempted(s.data)
  }

  lemma CallsKeepSane(id: string, s: Durable, calls: seq<ApprovalLifecycle.Call>)
    requires Sane(id, s)
    ensures Sane(id, s.(log := ApprovalLifecycle.AfterCalls(s.log, calls)))
  {
    ApprovalLifecycle.CallsKeepWellKept(s.log, calls);
    if IsConsumed(s.log, id) {
      ApprovalLifecycle.TerminalAbsorbs(s.log, calls, id);
    }
  }

  lemma OnlyFailsInRepair(from: WState, to: WState)
    requires Allowed(from, to) && to in {Authorized, Cancelled, Failed}
    ensures from == Repairing ==> to == Failed
    ensures from != Failed
  {
  }

  lemma OperateKeepsConsistent(d: SessionData, to: WState)
    requires Consistent(d) && Allowed(d.state, to) && to in {Authorized, Cancelled, Failed}
    ensures Consistent(Move(d, to))
  {
    OnlyFailsInRepair(d.state, to);
    MoveKeepsConsistent(d, to);
  }

  lemma OperateKeepsSane(id: string, s: Durable, to: WState)
    requires Sane(id, s) && Allowed(s.data.state, to) && to in {Authorized, Cancelled, Failed}
    ensures Sane(id, s.(data := Move(s.data, to)))
  {
    assert !IsDelivered(to);
    OperateKeepsConsistent(s.data, to);
    MoveKeepsWaiting(id, s, to);
    MoveKeepsAttempted(s.data, to);
    LaterKeepsRounds(s.data, Move(s.data, to));
  }

  lemma MoveKeepsWaiting(id: string, s: Durable, to: WState)
    requires CommitWaits(id, s) && (IsDelivered(to) ==> IsDelivered(s.data.state))
    ensures CommitWaits(id, s.(data := Move(s.data, to)))
  {
    assert CommitAttempts(Move(s.data, to)) == CommitAttempts(s.data);
  }

  lemma ReportKeepsSane(id: string, s: Durable)
    requires Sane(id, s)
    ensures Sane(id, s.(data := s.data.(closeout := true)))
  {
    var d := s.data.(closeout := true);
    assert CommitAttempts(d) == CommitAttempts(s.data);
    assert RoundsKept(d) by {
      assert d.qa == s.data.qa && d.asked == s.data.asked;
    }
  }

  lemma MoveOnKeepsSane(id: string, s: Durable, to: WState)
    requires Sane(id, s) && Allowed(s.data.state, to) && !s.data.repair.open
    requires IsDelivered(to) ==> IsDelivered(s.data.state) && s.data.state !in {Committed, Pushed}
    ensures Sane(id, s.(data := Move(s.data, to)))
  {
    MoveKeepsConsistent(s.data, to);
    MoveKeepsWaiting(id, s, to);
    MoveKeepsAttempted(s.data, to);
    LaterKeepsRounds(s.data, Move(s.data, to));
  }

  lemma MergeKeepsSane(id: string, s: Durable, task: MergeCloseout.Config, visit: MergeCloseout.World)
    requires Sane(id, s)
    ensures Sane(id, s.(data := MergeCloseout.StepOf(task, s.data, visit).0))
  {
    if MergeCloseout.Distance(s.data.state) > 0 {
      var (e, phase) := MergeCloseout.StepOf(task, s.data, visit);
      MergeCloseout.StepIsOneEdge(task, s.data, visit);
      ReportKeepsSane(id, s);
      if phase.Failing? {
        MoveOnKeepsSane(id, s, Failed);
      } else if MergeCloseout.GoesOn(phase) {
        MergeCloseout.GoesSomewhere(task, s.data, visit);
        MoveOnKeepsSane(id, s.(data := MergeCloseout.Leaving(s.data)), e.state);
      }
    }
  }

  lemma NextKeepsSane(id: string, s: Durable, a: Action)
    requires Sane(id, s) && NextOf(id, s, a).Some?
    ensures Sane(id, NextOf(id, s, a).value)
  {
    match a
    case Drive(own, w) =>
      StepMeetsSpec(own, s, w);
      StepKeepsCommitWaiting(own, s, w);
      DriveKeepsRounds(own, s, w);
      DriveKeepsAttempted(own, s, w);
    case DieInGate(own, w, calls) => CallsKeepSane(id, s, GateCalls(own, s.log, w)[..calls]);
    case Merge(task, visit) => MergeKeepsSane(id, s, task, visit);
    case Service(call) =>
      AfterOneCall(s.log, call);
      CallsKeepSane(id, s, [call]);
    case Operate(to) => OperateKeepsSane(id, s, to);
  }

  ghost function SaneStates(id: string): Durable -> bool {
    (s: Durable) => Sane(id, s)
  }

  /** The merge driver takes up every session that a life has brought to one of its states. */
  lemma LifeMayResume(id: string, actions: seq<Action>)
    requires IsRun(id, actions) && MergeCloseout.Distance(StateAfter(id, actions).data.state) > 0
    ensures MergeCloseout.MayResume(StateAfter(id, actions).data)
  {
    RunIsSane(id, actions);
  }

  lemma RunIsSane(id: string, actions: seq<Action>)
    requires IsRun(id, actions)
    ensures Sane(id, StateAfter(id, actions))
  {
    forall s, a | SaneStates(id)(s) && Next(id)(s, a).Some? ensures SaneStates(id)(Next(id)(s, a).value) {
      NextKeepsSane(id, s, a);
    }
    ActionRuns.RunKeeps(Next(id), SaneStates(id), START, actions);
  }

  // ---- No commit without an approval that was given and then spent ----

  /** The last two events are an approving decision that was legal when it was made, and its spending. */
  ghost predicate ApprovedThenSpent(log: Approvals.Log, id: string) {
    var h := Approvals.History(log, id);
    && |h| >= 3 && h[0].kind.RequestedEvent? && h[|h| - 1].kind.ConsumedEvent?
    && h[|h| - 2].kind.DecidedEvent? && h[|h| - 2].kind.decision == Approvals.Approve
    && Approvals.Replay(h[..|h| - 2]).Some?
    && ApprovalLifecycle.LegalNext(ApprovalLifecycle.ViewAt(h, |h| - 2), h[|h| - 2])
  }

  /** How a status can be entered at all. */
  lemma EntersStatus(v: Approvals.Approval, e: Approvals.Event)
    requires ApprovalLifecycle.LegalNext(v, e)
    ensures Approvals.Refine(v, e).status == Approvals.Consumed ==>
      e.kind.ConsumedEvent? && v.status == Approvals.Approved
    ensures Approvals.Refine(v, e).status == Approvals.Approved ==>
      e.kind.DecidedEvent? && e.kind.decision == Approvals.Approve
  {
  }

  lemma ConsumedWasApproved(log: Approvals.Log, id: string)
    requires ApprovalLifecycle.WellKept(log) && IsConsumed(log, id)
    ensures ApprovedThenSpent(log, id)
  {
    var h := Approvals.History(log, id);
    var n := |h|;
    assert h[..n] == h && h[..1] == [h[0]];
    ApprovalLifecycle.LegalView(h, n);
    assert n > 1;
    ApprovalLifecycle.LegalView(h, n - 1);
    EntersStatus(ApprovalLifecycle.ViewAt(h, n - 1), h[n - 1]);
    assert n > 2;
    ApprovalLifecycle.LegalView(h, n - 2);
    EntersStatus(ApprovalLifecycle.ViewAt(h, n - 2), h[n - 2]);
  }

  /**
   In every state that any life of a workflow reaches, whatever is aborted, resumed, called or moved on
   the way: a commit that was so much as reserved, and every state behind it, has its approval opened,
   then approved by someone or something that was allowed to, and then spent.
   */
  lemma CommitOnlyWhenSpent(id: string, actions: seq<Action>)
    requires IsRun(id, actions)
    ensures var s := StateAfter(id, actions);
      Started(CommitAttempts(s.data)) > 0 || IsDelivered(s.data.state) ==> ApprovedThenSpent(s.log, id)
  {
    RunIsSane(id, actions);
    var s := StateAfter(id, actions);
    if Started(CommitAttempts(s.data)) > 0 || IsDelivered(s.data.state) {
      ConsumedWasApproved(s.log, id);
    }
  }

  // ---- What opened each gate that the transition log shows passed ----

  /** What a step must have found to move on through the gates of validation and review. */
  predicate Found(qaRequired: bool, d: SessionData, w: World, e: Edge) {
    match e.to
    case QaRunning => d.stageReport && w.validation == Passes
    case ReadyToCommit => qaRequired ==> Decided(d, w)
    case Repairing =>
      && d.repair.completed < ATTEMPT_LIMIT
      && if e.from == Validating then d.stageReport && w.validation == Repairable
         else qaRequired && !Decided(d, w)
    case _ => true
  }

  /** The gate before the commit opened, on an approval that is spent in the log it left. */
  predicate FoundSpent(c: Config, log: Approvals.Log, w: World) {
    var (log', g) := Gating(log, c.approvalId, c.policy, w);
    Opens(g) && IsConsumed(log', c.approvalId)
  }

  predicate Gated(s: WState) {
    s in {QaRunning, ReadyToCommit, Repairing, Committed}
  }

  predicate IsMerging(s: WState) {
    s in {AutoMergeEnabled, WaitingForChecks, Merged, Closing, Done}
  }

  /** The action can have added this edge: a gate is only ever passed by a step that found it open. */
  ghost predicate Justified(s: Durable, a: Action, e: Edge) {
    && (Gated(e.to) ==>
          && a.Drive?
          && if e.to == Committed then FoundSpent(a.own, s.log, a.w) else Found(a.own.qaRequired, s.data, a.w, e))
    && (IsMerging(e.to) ==> a.Merge? && MergeCloseout.Passes(a.task, s.data, a.visit))
  }

  lemma CommitIsJustified(c: Config, s: Durable, w: World)
    requires Sane(c.approvalId, s) && s.data.state == ReadyToCommit && StepOf(c, s, w).1.to == Some(Committed)
    ensures FoundSpent(c, s.log, w)
  {
    GatingIsOk(s.log, c.approvalId, c.policy, w);
    OnlySpentOpens(s.data, w, Gating(s.log, c.approvalId, c.policy, w).1);
  }

  lemma OnlySpentOpens(d: SessionData, w: World, g: GateAnswer)
    requires Commit(d, w, g).outcome.to == Some(Committed)
    ensures Opens(g)
  {
    if !Opens(g) {
      OnlySpentCommits(d, w, g);
    }
  }

  lemma ReactIsJustified(d: SessionData, w: World, qaRequired: bool)
    requires Consistent(d) && d.state != ReadyToCommit && React(d, w, qaRequired).outcome.to.Some?
    ensures var to := React(d, w, qaRequired).outcome.to.value;
      to != Committed && !IsMerging(to) && Found(qaRequired, d, w, Edge(d.state, to))
  {
    ReactMeetsSpec(d, w, qaRequired);
    GatesDecide(d, w, qaRequired);
    OnlyWayIn(d.state, React(d, w, qaRequired).outcome.to.value);
  }

  lemma OnlyWayIn(from: WState, to: WState)
    requires Allowed(from, to)
    ensures to == QaRunning ==> from == Validating
    ensures to == ReadyToCommit ==> from == QaRunning
    ensures to == Repairing ==> from in {Validating, QaRunning}
    ensures to == Committed ==> from == ReadyToCommit
    ensures Gated(to) ==> IsDriven(from) && MergeCloseout.Distance(from) == 0
    ensures IsMerging(to) ==> !IsDriven(from) && MergeCloseout.Distance(from) > 0
  {
  }

  lemma CommitGoes(d: SessionData, w: World, g: GateAnswer)
    requires d.state == ReadyToCommit && !d.repair.open && Commit(d, w, g).outcome.to.Some?
    ensures Commit(d, w, g).outcome.to in {Some(Committed), Some(Failed)}
  {
    CommitMeetsSpec(d, w, g);
  }

  lemma DriveIsJustified(c: Config, s: Durable, w: World)
    requires Sane(c.approvalId, s) && StepOf(c, s, w).1.to.Some?
    ensures Justified(s, Drive(c, w), Edge(s.data.state, StepOf(c, s, w).1.to.value))
  {
    if s.data.state != ReadyToCommit {
      ReactIsJustified(s.data, w, c.qaRequired);
    } else {
      CommitGoes(s.data, w, Gating(s.log, c.approvalId, c.policy, w).1);
      if StepOf(c, s, w).1.to == Some(Committed) {
        CommitIsJustified(c, s, w);
      }
    }
  }

  /** t is s, or s with one edge more that the action can have added. */
  ghost predicate AddsOneEdge(s: Durable, a: Action, t: Durable) {
    var e := Edge(s.data.state, t.data.state);
    || t.data.transitions == s.data.transitions
    || (t.data.transitions == s.data.transitions + [e] && Justified(s, a, e))
  }

  lemma DriveAddsOneEdge(c: Config, s: Durable, w: World)
    requires Sane(c.approvalId, s)
    ensures AddsOneEdge(s, Drive(c, w), StepOf(c, s, w).0)
  {
    StepMeetsSpec(c, s, w);
    if StepOf(c, s, w).1.to.Some? {
      DriveIsJustified(c, s, w);
    }
  }

  /** A step of the merge driver stays, fails, or goes on along one edge having met what it asks for. */
  lemma MergeMoves(task: MergeCloseout.Config, d: SessionData, visit: MergeCloseout.World)
    requires MergeCloseout.Ready(d) && MergeCloseout.Distance(d.state) > 0
    ensures var e := MergeCloseout.StepOf(task, d, visit).0;
      || e.transitions == d.transitions
      || (e.transitions == d.transitions + [Edge(d.state, e.state)]
          && !Gated(e.state) && (IsMerging(e.state) ==> MergeCloseout.Passes(task, d, visit)))
  {
    var (e, phase) := MergeCloseout.StepOf(task, d, visit);
    MergeCloseout.StepIsOneEdge(task, d, visit);
    if MergeCloseout.GoesOn(phase) {
      MergeCloseout.StepPasses(task, d, visit);
      MergeCloseout.GoesSomewhere(task, d, visit);
      OnlyWayIn(d.state, e.state);
    }
  }

  lemma MergeAddsOneEdge(id: string, s: Durable, task: MergeCloseout.Config, visit: MergeCloseout.World)
    requires Sane(id, s)
    ensures AddsOneEdge(s, Merge(task, visit), s.(data := MergeCloseout.StepOf(task, s.data, visit).0))
  {
    if MergeCloseout.Distance(s.data.state) > 0 {
      MergeMoves(task, s.data, visit);
    }
  }

  /** One action adds one edge that it can have added, or none. */
  lemma NextAddsOneEdge(id: string, s: Durable, a: Action)
    requires Sane(id, s) && NextOf(id, s, a).Some?
    ensures AddsOneEdge(s, a, NextOf(id, s, a).value)
  {
    match a
    case Drive(own, w) => DriveAddsOneEdge(own, s, w);
    case Merge(task, visit) => MergeAddsOneEdge(id, s, task, visit);
    case Operate(to) => assert !Gated(to) && !IsMerging(to);
    case _ => assert NextOf(id, s, a).value.data == s.data;
  }

  /** Action k of the run added edge i of the log, for the reason that edge needs. */
  ghost predicate AddedBy(id: string, actions: seq<Action>, log: seq<Edge>, i: nat, k: nat)
    requires IsRun(id, actions)
  {
    && i < |log| && k < |actions|
    && IsRun(id, actions[..k]) && IsRun(id, actions[..k + 1])
    && var s := StateAfter(id, actions[..k]);
       && s.data.transitions == log[..i] && s.data.state == log[i].from
       && StateAfter(id, actions[..k + 1]).data.transitions == log[..i + 1]
       && Justified(s, actions[k], log[i])
  }

  /** One action in the middle of a run. */
  lemma StepOfRun(id: string, actions: seq<Action>, k: nat)
    requires IsRun(id, actions) && k < |actions|
    ensures IsRun(id, actions[..k]) && IsRun(id, actions[..k + 1])
    ensures AddsOneEdge(StateAfter(id, actions[..k]), actions[k], StateAfter(id, actions[..k + 1]))
  {
    ActionRuns.RunPrefix(Next(id), START, actions, k);
    RunIsSane(id, actions[..k]);
    NextAddsOneEdge(id, StateAfter(id, actions[..k]), actions[k]);
  }

  /** Every edge of the transition log was added by one action of the run, which met what the edge needs. */
  lemma {:induction false} EveryEdgeIsJustified(id: string, actions: seq<Action>, n: nat, i: nat) returns (k: nat)
    requires IsRun(id, actions) && n <= |actions| && IsRun(id, actions[..n])
    requires i < |StateAfter(id, actions[..n]).data.transitions|
    ensures k < n && AddedBy(id, actions, StateAfter(id, actions[..n]).data.transitions, i, k)
    decreases n
  {
    assert actions[..0] == [];
    k := n - 1;
    StepOfRun(id, actions, k);
    var s := StateAfter(id, actions[..k]);
    var t := StateAfter(id, actions[..n]);
    if i < |s.data.transitions| {
      assert s.data.transitions[..i] == t.data.transitions[..i];
      assert s.data.transitions[..i + 1] == t.data.transitions[..i + 1];
      k := EveryEdgeIsJustified(id, actions, k, i);
    }
  }

  lemma {:induction false} TransitionsGrow(id: string, actions: seq<Action>, j: nat, k: nat)
    requires IsRun(id, actions) && j <= k <= |actions|
    ensures IsRun(id, actions[..j]) && IsRun(id, actions[..k])
    ensures |StateAfter(id, actions[..j]).data.transitions| <= |StateAfter(id, actions[..k]).data.transitions|
    decreases k
  {
    if j < k {
      TransitionsGrow(id, actions, j, k - 1);
      StepOfRun(id, actions, k - 1);
    } else {
      ActionRuns.RunPrefix(Next(id), START, actions, k);
    }
  }

  /** Later edges of the log come from later actions. */
  lemma EdgesInOrder(id: string, actions: seq<Action>, log: seq<Edge>, i: nat, j: nat, k: nat, l: nat)
    requires IsRun(id, actions) && i < j && AddedBy(id, actions, log, i, k) && AddedBy(id, actions, log, j, l)
    ensures k < l
  {
    if l <= k {
      TransitionsGrow(id, actions, l, k);
    }
  }

  predicate Increasing(causes: seq<nat>) {
    forall j :: 0 < j < |causes| ==> causes[j - 1] < causes[j]
  }

  lemma IncreasingBySuccessor(causes: seq<nat>, k: nat)
    requires Increasing(causes) && (causes != [] ==> causes[|causes| - 1] < k)
    ensures Increasing(causes + [k])
  {
  }

  /** causes are the actions that added the edges from i on, in order. */
  ghost predicate CausedFrom(id: string, actions: seq<Action>, log: seq<Edge>, i: nat, causes: seq<nat>)
    requires IsRun(id, actions)
  {
    && Increasing(causes)
    && forall j :: 0 <= j < |causes| ==> AddedBy(id, actions, log, i + j, causes[j])
  }

  /** The log ends with these edges, and causes are the actions that added them, in order. */
  ghost predicate CausedInOrder(id: string, actions: seq<Action>, log: seq<Edge>, last: seq<Edge>, causes: seq<nat>)
    requires IsRun(id, actions)
  {
    && |causes| == |last| <= |log| && log[|log| - |last|..] == last
    && CausedFrom(id, actions, log, |log| - |last|, causes)
  }

  lemma OneMoreCause(id: string, actions: seq<Action>, log: seq<Edge>, i: nat, causes: seq<nat>, k: nat)
    requires IsRun(id, actions) && CausedFrom(id, actions, log, i, causes)
    requires AddedBy(id, actions, log, i + |causes|, k)
    ensures CausedFrom(id, actions, log, i, causes + [k])
  {
    if causes != [] {
      var n := |causes| - 1;
      EdgesInOrder(id, actions, log, i + n, i + |causes|, causes[n], k);
    }
    IncreasingBySuccessor(causes, k);
  }

  lemma {:induction false} CausesOf(id: string, actions: seq<Action>, i: nat, n: nat) returns (causes: seq<nat>)
    requires IsRun(id, actions) && i + n <= |StateAfter(id, actions).data.transitions|
    ensures |causes| == n && CausedFrom(id, actions, StateAfter(id, actions).data.transitions, i, causes)
  {
    causes := [];
    if n > 0 {
      assert actions[..|actions|] == actions;
      var before := CausesOf(id, actions, i, n - 1);
      var k := EveryEdgeIsJustified(id, actions, |actions|, i + n - 1);
      OneMoreCause(id, actions, StateAfter(id, actions).data.transitions, i, before, k);
      causes := before + [k];
    }
  }

  lemma CausesAfter(id: string, actions: seq<Action>, front: seq<Edge>, last: seq<Edge>) returns (causes: seq<nat>)
    requires IsRun(id, actions) && StateAfter(id, actions).data.transitions == front + last
    ensures CausedInOrder(id, actions, StateAfter(id, actions).data.transitions, last, causes)
  {
    causes := CausesOf(id, actions, |front|, |last|);
  }

  /**
   A pull request is open only after five actions in this order, the first three of them a step that
   found the stage report and a passing validation, a step with an approving review or none required,
   and a step at which the gate opened on a spent approval. Nothing was implemented or repaired in
   between: their edges are neighbours in the log.
   */
  lemma DeliveredThroughEveryGate(id: string, actions: seq<Action>) returns (causes: seq<nat>)
    requires IsRun(id, actions) && StateAfter(id, actions).data.state == PrOpen
    ensures CausedInOrder(id, actions, StateAfter(id, actions).data.transitions, DELIVERY, causes)
  {
    RunIsSane(id, actions);
    var front := PrOpenHistory(StateAfter(id, actions).data);
    causes := CausesAfter(id, actions, front, DELIVERY);
  }

  /** Action k was a closing visit that met every check and wrote the closeout report. */
  ghost predicate ClosedOutBy(id: string, actions: seq<Action>, k: nat)
    requires IsRun(id, actions)
  {
    && k < |actions| && IsRun(id, actions[..k]) && actions[k].Merge?
    && StateAfter(id, actions[..k]).data.state == Closing && !StateAfter(id, actions[..k]).data.closeout
    && MergeCloseout.ClosingChecks(actions[k].visit)
  }

  lemma NextClosesOut(id: string, s: Durable, a: Action)
    requires NextOf(id, s, a).Some? && NextOf(id, s, a).value.data.closeout && !s.data.closeout
    requires Sane(id, s)
    ensures a.Merge? && s.data.state == Closing && MergeCloseout.ClosingChecks(a.visit)
  {
    match a
    case Drive(own, w) =>
      if s.data.state == QaRunning {
        ReviewWrites(s.data, w, own.qaRequired);
      } else if s.data.state == ReadyToCommit {
        VisitKeepsReports(s.data, w, Gating(s.log, own.approvalId, own.policy, w).1);
      } else {
        ReactKeepsReports(s.data, w, own.qaRequired);
      }
    case Merge(task, visit) => MergeCloseout.StepKeepsReports(task, s.data, visit);
    case _ =>
  }

  lemma {:induction false} CloseoutHasVisit(id: string, actions: seq<Action>, n: nat) returns (k: nat)
    requires IsRun(id, actions) && n <= |actions| && IsRun(id, actions[..n])
    requires StateAfter(id, actions[..n]).data.closeout
    ensures k < n && ClosedOutBy(id, actions, k)
    decreases n
  {
    assert actions[..0] == [];
    k := n - 1;
    ActionRuns.RunPrefix(Next(id), START, actions, k);
    RunIsSane(id, actions[..k]);
    var s := StateAfter(id, actions[..k]);
    if s.data.closeout {
      k := CloseoutHasVisit(id, actions, k);
    } else {
      NextClosesOut(id, s, actions[k]);
    }
  }

  predicate IsClosed(d: SessionData) {
    d.state == Done ==> d.closeout
  }

  lemma DriveKeepsClosed(c: Config, s: Durable, w: World)
    requires Consistent(s.data) && IsClosed(s.data)
    ensures IsClosed(StepOf(c, s, w).0.data)
  {
    if s.data.state == Done {
      assert StepOf(c, s, w).0.data == s.data;
    } else {
      StepStaysOrMoves(c, s, w);
      OnlyClosingEnds(s.data.state, StepOf(c, s, w).0.data.state);
    }
  }

  lemma MergeKeepsClosed(task: MergeCloseout.Config, d: SessionData, visit: MergeCloseout.World)
    requires Consistent(d) && IsClosed(d)
    ensures IsClosed(MergeCloseout.StepOf(task, d, visit).0)
  {
    if MergeCloseout.Distance(d.state) > 0 {
      MergeCloseout.StepIsOneEdge(task, d, visit);
    }
  }

  /** Whatever is done has its closeout report. */
  lemma NextKeepsClosed(id: string, s: Durable, a: Action)
    requires Sane(id, s) && NextOf(id, s, a).Some? && IsClosed(s.data)
    ensures IsClosed(NextOf(id, s, a).value.data)
  {
    match a
    case Drive(own, w) => DriveKeepsClosed(own, s, w);
    case Merge(task, visit) => MergeKeepsClosed(task, s.data, visit);
    case _ =>
  }

  lemma OnlyClosingEnds(from: WState, to: WState)
    ensures Allowed(from, to) && to == Done ==> from == Closing && !IsDriven(from)
  {
  }

  /** A step stays where it is or goes along an edge out of a state of its own. */
  lemma StepStaysOrMoves(c: Config, s: Durable, w: World)
    requires Consistent(s.data)
    ensures var to := StepOf(c, s, w).0.data.state;
      to == s.data.state || (Allowed(s.data.state, to) && (to == Failed || IsDriven(s.data.state)))
  {
    StepMeetsSpec(c, s, w);
  }

  lemma DoneIsClosedOut(id: string, actions: seq<Action>)
    requires IsRun(id, actions)
    ensures StateAfter(id, actions).data.state == Done ==> StateAfter(id, actions).data.closeout
  {
    var closed := (s: Durable) => Sane(id, s) && IsClosed(s.data);
    forall s, a | closed(s) && Next(id)(s, a).Some? ensures closed(Next(id)(s, a).value) {
      NextKeepsSane(id, s, a);
      NextKeepsClosed(id, s, a);
    }
    ActionRuns.RunKeeps(Next(id), closed, START, actions);
  }

  /**
   The same for a workflow that is done, however often either driver was interrupted and resumed: after
   the five actions of the delivery come five visits of the merge driver, each of which met what its
   state asks for given the reports kept then, from the enabled merge over a look that shows it to the
   closeout. And some closing visit, the last of the five or an aborted one before it, met every check.
   */
  lemma DoneThroughEveryGate(id: string, actions: seq<Action>) returns (causes: seq<nat>, closing: nat)
    requires IsRun(id, actions) && StateAfter(id, actions).data.state == Done
    ensures CausedInOrder(id, actions, StateAfter(id, actions).data.transitions, DELIVERY + MERGING, causes)
    ensures ClosedOutBy(id, actions, closing)
  {
    RunIsSane(id, actions);
    var front := DoneHistory(StateAfter(id, actions).data);
    causes := CausesAfter(id, actions, front, DELIVERY + MERGING);
    DoneIsClosedOut(id, actions);
    assert actions[..|actions|] == actions;
    closing := CloseoutHasVisit(id, actions, |actions|);
  }
}
