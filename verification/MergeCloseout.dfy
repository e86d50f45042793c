/**
 The merge and closeout driver of agentos_workflow/merge_closeout.py, from PR_OPEN to DONE: merge
 eligibility from persisted facts, bounded polling for the merge, and the run to DONE.
 */
module MergeCloseout {
  import opened DriverLoop
  import opened Support
  import opened WorkflowSessions

  // ---- One observation of the pull request ----

  datatype Retry = ProvenPreSideEffect | PossibleSideEffect | NonRetryable | NotApplicable

  datatype Read =
    | ReadFailed(retry: Retry)
    | Seen(headSha: string, baseBranch: string, headBranch: string, merged: bool, state: string)

  /** gateEvidence: a check failed, as opposed to still pending or unreadable. */
  datatype Checks = ChecksPassed | ChecksNotPassed(gateEvidence: bool, retry: Retry)

  datatype Confirmation = Confirmed | NotConfirmed(saysNotMerged: bool, retry: Retry)

  datatype Observation = Observation(read: Read, checks: Checks, confirmation: Confirmation)

  datatype FailureKind =
    | PrNotFound | PrHeadMismatch | PrIdentityMismatch | RequiredChecksFailed
    | RequiredChecksUnavailable | MergeAmbiguous | MergeNotEligible | MergeFailed
    | MergeConfirmationMismatch | RepositoryDrift | BaselineUpdateFailed | CloseoutFailed

  datatype Task = Task(headSha: string, baseBranch: string, headBranch: string)

  /** Cross-checks a read pull request with what was authorized; an empty field is not compared. */
  function Mismatch(task: Task, pr: Read): Option<FailureKind>
    requires pr.Seen?
  {
    if pr.headSha != "" && pr.headSha != task.headSha then Some(PrHeadMismatch)
    else if pr.baseBranch != "" && pr.baseBranch != task.baseBranch then Some(PrIdentityMismatch)
    else if pr.headBranch != "" && pr.headBranch != task.headBranch then Some(PrIdentityMismatch)
    else if !pr.merged && pr.state != "open" then Some(PrIdentityMismatch)
    else None
  }

  /** What one observation settles; Undecided means look again. */
  datatype Verdict = Undecided | MergedNow | Hard(kind: FailureKind)

  function VerdictOf(task: Task, o: Observation): Verdict {
    if o.read.ReadFailed? then (if o.read.retry == NonRetryable then Hard(PrNotFound) else Undecided)
    else if Mismatch(task, o.read).Some? then Hard(Mismatch(task, o.read).value)
    else if o.checks.ChecksNotPassed? then
      if o.checks.gateEvidence then Hard(RequiredChecksFailed)
      else if o.checks.retry == NonRetryable then Hard(RequiredChecksUnavailable)
      else Undecided
    else if o.confirmation.Confirmed? then MergedNow
    else if o.confirmation.saysNotMerged then Undecided
    else if o.confirmation.retry == NonRetryable then Hard(MergeAmbiguous)
    else Undecided
  }

  predicate IdentityHolds(task: Task, pr: Read) {
    && pr.Seen?
    && pr.headSha in {"", task.headSha} && pr.baseBranch in {"", task.baseBranch}
    && pr.headBranch in {"", task.headBranch} && (pr.merged || pr.state == "open")
  }

  /** A merge is only ever accepted on identity, checks and confirmation in one observation. */
  lemma MergedNeedsAllThree(task: Task, o: Observation)
    ensures VerdictOf(task, o) == MergedNow <==>
      IdentityHolds(task, o.read) && o.checks.ChecksPassed? && o.confirmation.Confirmed?
  {
    if o.read.Seen? {
      assert Mismatch(task, o.read).None? <==> IdentityHolds(task, o.read);
    }
  }

  // ---- What the fields of one look say ----

  /** The look settles nothing: a read or a check that may be tried again, or a merge not made yet. */
  predicate IsOpenLook(task: Task, o: Observation) {
    || (o.read.ReadFailed? && o.read.retry != NonRetryable)
    || (IdentityHolds(task, o.read) && o.checks.ChecksNotPassed?
        && !o.checks.gateEvidence && o.checks.retry != NonRetryable)
    || (IdentityHolds(task, o.read) && o.checks.ChecksPassed? && o.confirmation.NotConfirmed?
        && (o.confirmation.saysNotMerged || o.confirmation.retry != NonRetryable))
  }

  /** The pull request read is another one than was authorized, and in what. */
  predicate IdentityFails(task: Task, pr: Read, kind: FailureKind) {
    pr.Seen? &&
    match kind
    case PrHeadMismatch => pr.headSha !in {"", task.headSha}
    case PrIdentityMismatch =>
      && pr.headSha in {"", task.headSha}
      && (pr.baseBranch !in {"", task.baseBranch} || pr.headBranch !in {"", task.headBranch}
          || (!pr.merged && pr.state != "open"))
    case _ => false
  }

  /** The look fails the merge for this reason. */
  predicate LookFails(task: Task, o: Observation, kind: FailureKind) {
    match kind
    case PrNotFound => o.read.ReadFailed? && o.read.retry == NonRetryable
    case RequiredChecksFailed =>
      IdentityHolds(task, o.read) && o.checks.ChecksNotPassed? && o.checks.gateEvidence
    case RequiredChecksUnavailable =>
      && IdentityHolds(task, o.read) && o.checks.ChecksNotPassed?
      && !o.checks.gateEvidence && o.checks.retry == NonRetryable
    case MergeAmbiguous =>
      && IdentityHolds(task, o.read) && o.checks.ChecksPassed? && o.confirmation.NotConfirmed?
      && !o.confirmation.saysNotMerged && o.confirmation.retry == NonRetryable
    case _ => IdentityFails(task, o.read, kind)
  }

  /** A look that shows the merge: identity, checks and confirmation all at once. */
  predicate ShowsMerge(task: Task, o: Observation) {
    IdentityHolds(task, o.read) && o.checks.ChecksPassed? && o.confirmation.Confirmed?
  }

  lemma MismatchByField(task: Task, pr: Read)
    requires pr.Seen?
    ensures Mismatch(task, pr).None? <==> IdentityHolds(task, pr)
    ensures forall kind :: Mismatch(task, pr) == Some(kind) <==> IdentityFails(task, pr, kind)
  {
  }

  /** The verdict on a look, in its fields. */
  lemma VerdictByField(task: Task, o: Observation)
    ensures VerdictOf(task, o).Undecided? <==> IsOpenLook(task, o)
    ensures VerdictOf(task, o) == MergedNow <==> ShowsMerge(task, o)
    ensures forall kind :: VerdictOf(task, o) == Hard(kind) <==> LookFails(task, o, kind)
  {
    if o.read.Seen? {
      MismatchByField(task, o.read);
    }
  }

  // ---- Merge eligibility ----

  /** latest is the verdict of the last QA report that is there to be read. */
  predicate Eligible(transitions: seq<Edge>, latest: Option<bool>, qaRequired: bool) {
    && Edge(Validating, QaRunning) in transitions
    && (if latest.Some? then latest.value else !qaRequired)
  }

  method EvaluateMergeEligibility(transitions: seq<Edge>, latest: Option<bool>, qaRequired: bool)
    returns (eligible: bool)
    ensures eligible <==> Eligible(transitions, latest, qaRequired)
  {
    var validated := false;
    for i := 0 to |transitions|
      invariant validated <==> Edge(Validating, QaRunning) in transitions[..i]
    {
      assert transitions[..i + 1] == transitions[..i] + [transitions[i]];
      if transitions[i] == Edge(Validating, QaRunning) {
        validated := true;
      }
    }
    assert transitions[..|transitions|] == transitions;
    if !validated {
      return false;
    }
    eligible := if latest.Some? then latest.value else !qaRequired;
  }

  /** At PR_OPEN the validation evidence is always there, so the QA record alone decides. */
  lemma QaDecidesAtPrOpen(d: SessionData, latest: Option<bool>, qaRequired: bool)
    requires Consistent(d) && d.state == PrOpen
    ensures Eligible(d.transitions, latest, qaRequired) <==> if latest.Some? then latest.value else !qaRequired
  {
    var front := PrOpenHistory(d);
    assert DELIVERY[0] in front + DELIVERY;
  }

  // ---- Bounded polling ----

  /** The first of the observations that settles the matter, or their number. */
  function FirstDecisive(task: Task, observations: seq<Observation>): (k: nat)
    ensures k <= |observations|
    ensures k < |observations| ==> !VerdictOf(task, observations[k]).Undecided?
    ensures forall i :: 0 <= i < k ==> VerdictOf(task, observations[i]).Undecided?
  {
    if observations == [] || !VerdictOf(task, observations[0]).Undecided? then 0
    else 1 + FirstDecisive(task, observations[1..])
  }

  /**
   observations are what the world would show on each successive look. Polling answers with the
   first decisive one among the first maximum, and sleeps only between looks.
   */
  method Poll(task: Task, observations: seq<Observation>, maximum: nat)
    returns (verdict: Verdict, looks: nat, sleeps: nat)
    requires 1 <= maximum <= |observations|
    ensures var k := FirstDecisive(task, observations[..maximum]);
      && verdict == (if k < maximum then VerdictOf(task, observations[k]) else Undecided)
      && looks == (if k < maximum then k + 1 else maximum)
    ensures sleeps == looks - 1
    // in the fields of the looks: all before the last are open, and the last is or is not
    ensures forall i :: 0 <= i < looks - 1 ==> IsOpenLook(task, observations[i])
    ensures verdict.Undecided? <==> looks == maximum && IsOpenLook(task, observations[looks - 1])
    ensures verdict == MergedNow <==> ShowsMerge(task, observations[looks - 1])
    ensures forall kind :: verdict == Hard(kind) <==> LookFails(task, observations[looks - 1], kind)
  {
    LooksByField(task, observations);
    sleeps := 0;
    var i := 0;
    while i < maximum
      invariant 0 <= i <= maximum
      invariant forall j :: 0 <= j < i ==> VerdictOf(task, observations[j]).Undecided?
      invariant sleeps == if i < maximum then i else maximum - 1
    {
      var o := observations[i];
      verdict := Undecided;
      if o.read.ReadFailed? {
        if o.read.retry == NonRetryable {
          verdict := Hard(PrNotFound);
        }
      } else if Mismatch(task, o.read).Some? {
        verdict := Hard(Mismatch(task, o.read).value);
      } else if o.checks.ChecksNotPassed? {
        if o.checks.gateEvidence {
          verdict := Hard(RequiredChecksFailed);
        } else if o.checks.retry == NonRetryable {
          verdict := Hard(RequiredChecksUnavailable);
        }
      } else if o.confirmation.Confirmed? {
        verdict := MergedNow;
      } else if !o.confirmation.saysNotMerged && o.confirmation.retry == NonRetryable {
        verdict := Hard(MergeAmbiguous);
      }
      if verdict != Undecided {
        DecisiveAt(task, observations, i, maximum);
        return verdict, i + 1, sleeps;
      }
      if i + 1 < maximum {
        sleeps := sleeps + 1;
      }
      i := i + 1;
    }
    verdict, looks := Undecided, maximum;
    UndecidedThroughout(task, observations[..maximum]);
  }

  lemma LooksByField(task: Task, observations: seq<Observation>)
    ensures forall i :: 0 <= i < |observations| ==>
      && (VerdictOf(task, observations[i]).Undecided? <==> IsOpenLook(task, observations[i]))
      && (VerdictOf(task, observations[i]) == MergedNow <==> ShowsMerge(task, observations[i]))
      && forall kind :: VerdictOf(task, observations[i]) == Hard(kind) <==> LookFails(task, observations[i], kind)
  {
    forall i | 0 <= i < |observations|
      ensures VerdictOf(task, observations[i]).Undecided? <==> IsOpenLook(task, observations[i])
      ensures VerdictOf(task, observations[i]) == MergedNow <==> ShowsMerge(task, observations[i])
      ensures forall kind :: VerdictOf(task, observations[i]) == Hard(kind) <==> LookFails(task, observations[i], kind)
    {
      VerdictByField(task, observations[i]);
    }
  }

  lemma {:induction false} DecisiveAt(task: Task, observations: seq<Observation>, k: nat, maximum: nat)
    requires k < maximum <= |observations| && !VerdictOf(task, observations[k]).Undecided?
    requires forall j :: 0 <= j < k ==> VerdictOf(task, observations[j]).Undecided?
    ensures FirstDecisive(task, observations[..maximum]) == k
  {
    var looked := observations[..maximum];
    assert looked[k] == observations[k];
    assert forall j :: 0 <= j < k ==> VerdictOf(task, looked[j]).Undecided?;
  }

  lemma UndecidedThroughout(task: Task, observations: seq<Observation>)
    requires forall j :: 0 <= j < |observations| ==> VerdictOf(task, observations[j]).Undecided?
    ensures FirstDecisive(task, observations) == |observations|
  {
  }

  // ---- The handlers as functions of the durable state and the world ----

  /**
   What one step meets outside. observations are the successive looks at the pull request, as many
   as the configured maximum; enabled is None when automatic merging could be enabled; qaRead and
   closeoutRead say whether the reports of that kind could be read, and aborts whether the process
   dies after the closeout report.
   */
  datatype RawWorld = World(
    observations: seq<Observation>, qaRead: bool, conflicting: bool, enabled: Option<FailureKind>,
    closeoutRead: bool, reconfirmed: bool, identity: bool, baseline: bool, ancestry: bool, closedOut: bool,
    aborts: bool)

  type World = w: RawWorld | w.observations != []
    witness World([Observation(ReadFailed(NotApplicable), ChecksPassed, Confirmed)], false, false, None,
                  false, false, false, false, false, false, false)

  datatype Config = Config(task: Task, qaRequired: bool)

  datatype Phase = Advanced | PendingChecks | Finished | Failing(kind: FailureKind) | Interrupted | NoHandler

  type Reaction = (SessionData, Phase)

  function Reconciled(task: Task, read: Read): Option<FailureKind> {
    if read.ReadFailed? then Some(PrNotFound) else Mismatch(task, read)
  }

  function Goes(d: SessionData, to: WState): Reaction {
    (Move(d, to), if to == Done then Finished else Advanced)
  }

  function Fails(d: SessionData, kind: FailureKind): Reaction {
    (Move(d, Failed), Failing(kind))
  }

  /** The QA verdict a visit finds: none where no report exists, and none where they cannot be read. */
  function VerdictFound(d: SessionData, w: World): Option<bool> {
    if w.qaRead then LatestVerdict(d.qa) else None
  }

  /** A pull request found merged already is not asked to merge again. */
  function EnableMerge(c: Config, d: SessionData, w: World): Reaction {
    var read := w.observations[0].read;
    if Reconciled(c.task, read).Some? then Fails(d, Reconciled(c.task, read).value)
    else if !Eligible(d.transitions, VerdictFound(d, w), c.qaRequired) then Fails(d, MergeNotEligible)
    else if read.merged then Goes(d, AutoMergeEnabled)
    else if w.conflicting then Fails(d, MergeNotEligible)
    else if w.enabled.Some? then Fails(d, w.enabled.value)
    else Goes(d, AutoMergeEnabled)
  }

  function Await(c: Config, d: SessionData, w: World): Reaction {
    var k := FirstDecisive(c.task, w.observations);
    if k == |w.observations| then (d, PendingChecks)
    else
      match VerdictOf(c.task, w.observations[k])
      case Hard(kind) => Fails(d, kind)
      case _ => Goes(d, Merged)
  }

  /**
   An existing closeout report makes the step a replay; otherwise the first failing check decides. A
   report that exists but could not be read is not written over, so the closeout fails on it.
   */
  function CloseOut(d: SessionData, w: World): Reaction {
    if w.closeoutRead && d.closeout then Goes(d, Done)
    else if !w.reconfirmed then Fails(d, MergeConfirmationMismatch)
    else if !w.identity then Fails(d, RepositoryDrift)
    else if !w.baseline then Fails(d, BaselineUpdateFailed)
    else if !w.ancestry then Fails(d, MergeConfirmationMismatch)
    else if !w.closedOut || d.closeout then Fails(d, CloseoutFailed)
    else
      var reported := d.(closeout := true);
      if w.aborts then (reported, Interrupted) else Goes(reported, Done)
  }

  /** Every check of a closing visit holds. */
  predicate ClosingChecks(w: World) {
    w.reconfirmed && w.identity && w.baseline && w.ancestry && w.closedOut
  }

  function StepOf(c: Config, d: SessionData, w: World): Reaction {
    match d.state
    case PrOpen => EnableMerge(c, d, w)
    case AutoMergeEnabled =>
      var kind := Reconciled(c.task, w.observations[0].read);
      if kind.Some? then Fails(d, kind.value) else Goes(d, WaitingForChecks)
    case WaitingForChecks => Await(c, d, w)
    case Merged => Goes(d, Closing)
    case Closing => CloseOut(d, w)
    case _ => (d, NoHandler)
  }

  // ---- The run to DONE ----

  function Distance(s: WState): nat {
    match s
    case PrOpen => 5
    case AutoMergeEnabled => 4
    case WaitingForChecks => 3
    case Merged => 2
    case Closing => 1
    case _ => 0
  }

  // ---- Taking up a session ----

  /** The commit, the push and the pull request were each attempted to the end by the implementer's driver. */
  predicate HasProvenance(d: SessionData) {
    Of(d, ReadyToCommit).completed > 0 && Of(d, Committed).completed > 0 && Of(d, Pushed).completed > 0
  }

  method MissingProvenance(d: SessionData) returns (missing: seq<WState>)
    ensures missing == [] <==> HasProvenance(d)
    ensures forall s :: s in missing <==> s in {ReadyToCommit, Committed, Pushed} && Of(d, s).completed == 0
  {
    missing := [];
    var required := [ReadyToCommit, Committed, Pushed];
    for i := 0 to |required|
      invariant forall s :: s in missing <==> s in required[..i] && Of(d, s).completed == 0
    {
      assert required[..i + 1] == required[..i] + [required[i]];
      if Of(d, required[i]).completed == 0 {
        missing := missing + [required[i]];
      }
    }
    assert required[..|required|] == required;
    assert HasProvenance(d) <==> forall s :: s in required ==> Of(d, s).completed > 0;
    assert missing != [] ==> missing[0] in missing;
  }

  /** Only a session in a state of this driver and with the implementer's attempts behind it is taken up. */
  predicate MayResume(d: SessionData) {
    Distance(d.state) > 0 && HasProvenance(d)
  }

  /** Where the driver may find a session: one of its own states, or one that is over. */
  predicate Ready(d: SessionData) {
    Consistent(d) && !d.repair.open && (Distance(d.state) > 0 || IsTerminalState(d.state))
  }

  predicate GoesOn(phase: Phase) {
    phase == Advanced || phase == Finished
  }

  function Stepper(c: Config, worlds: nat -> World): (SessionData, nat) -> Reaction {
    (d: SessionData, k: nat) => StepOf(c, d, worlds(k))
  }

  function Ends(): SessionData -> bool {
    (d: SessionData) => IsTerminalState(d.state)
  }

  function Continuing(): Phase -> bool {
    (phase: Phase) => GoesOn(phase)
  }

  function RunOf(c: Config, d: SessionData, worlds: nat -> World, maxSteps: nat): (SessionData, seq<Phase>) {
    RunFrom(Stepper(c, worlds), Ends(), Continuing(), d, 0, maxSteps)
  }

  /** The session a step leaves that goes on: after CLOSING there is a closeout report, and nothing else is written. */
  function Leaving(d: SessionData): SessionData {
    if d.state == Closing then d.(closeout := true) else d
  }

  /** One edge of the table, one state nearer to DONE unless the step fails, waits or is aborted. */
  predicate OneEdge(d: SessionData, r: Reaction) {
    var (e, phase) := r;
    && Ready(e) && phase != NoHandler
    && (phase == PendingChecks ==> e == d && d.state == WaitingForChecks)
    && (phase == Interrupted ==> e == d.(closeout := true) && d.state == Closing)
    && (phase.Failing? ==> e == Move(d, Failed))
    && (GoesOn(phase) ==> Distance(e.state) == Distance(d.state) - 1 && e == Move(Leaving(d), e.state))
    && (phase == Finished <==> e.state == Done)
  }

  lemma GoesIsOneEdge(d: SessionData, to: WState)
    requires Ready(d) && Allowed(d.state, to)
    requires Distance(to) == Distance(d.state) - 1 && (Distance(to) > 0 || to == Done)
    ensures OneEdge(d, Goes(Leaving(d), to))
  {
    PathGrows(d.transitions, d.state, to);
  }

  lemma FailsIsOneEdge(d: SessionData, kind: FailureKind)
    requires Ready(d) && Distance(d.state) > 0
    ensures OneEdge(d, Fails(d, kind))
  {
    PathGrows(d.transitions, d.state, Failed);
  }

  lemma StepIsOneEdge(c: Config, d: SessionData, w: World)
    requires Ready(d) && Distance(d.state) > 0
    ensures OneEdge(d, StepOf(c, d, w))
  {
    var r := StepOf(c, d, w);
    if r.1.Failing? {
      assert r == Fails(d, r.1.kind);
      FailsIsOneEdge(d, r.1.kind);
    } else if r.1 == PendingChecks {
      assert d.state == WaitingForChecks && r == (d, PendingChecks);
    } else if r.1 == Interrupted {
      assert d.state == Closing && r == (d.(closeout := true), Interrupted);
    } else {
      GoesSomewhere(c, d, w);
      GoesIsOneEdge(d, r.0.state);
    }
  }

  /** A step that neither fails nor waits goes to the one state that is nearer. */
  lemma GoesSomewhere(c: Config, d: SessionData, w: World)
    requires Distance(d.state) > 0 && GoesOn(StepOf(c, d, w).1)
    ensures var to := StepOf(c, d, w).0.state;
      && StepOf(c, d, w) == Goes(Leaving(d), to) && Allowed(d.state, to)
      && Distance(to) == Distance(d.state) - 1 && (Distance(to) > 0 || to == Done)
  {
    if d.state == Closing {
      assert d.closeout ==> d.(closeout := true) == d;
    }
  }

  /**
   At most five steps, whatever the ceiling, and nothing but DONE, a failure, pending checks or an
   abort ends a run that is given five.
   */
  lemma RunIsShort(c: Config, d: SessionData, worlds: nat -> World, maxSteps: nat)
    requires Ready(d)
    ensures var (e, phases) := RunOf(c, d, worlds, maxSteps);
      && Ready(e) && |phases| <= Distance(d.state) <= 5
      && (maxSteps >= 5 && Unfinished(phases, Continuing()) ==> IsTerminalState(e.state))
      && forall phase :: phase in phases ==> phase != NoHandler
  {
    var step := Stepper(c, worlds);
    var good := (x: SessionData) => Ready(x);
    var fine := (phase: Phase) => phase != NoHandler;
    var bound := (x: SessionData) => Distance(x.state);
    forall x: SessionData, k: nat | good(x) && !Ends()(x)
      ensures good(step(x, k).0) && fine(step(x, k).1)
      ensures Continuing()(step(x, k).1) ==> bound(step(x, k).0) < bound(x)
    {
      StepIsOneEdge(c, x, worlds(k));
    }
    RunKeeps(step, Ends(), Continuing(), good, fine, d, 0, maxSteps);
    RunKeeps(step, Ends(), Continuing(), good, Anything<Phase>(), d, 0, maxSteps);
    RunSpends(step, Ends(), Continuing(), good, bound, d, 0, maxSteps);
  }

  /** MERGED is entered exactly when the first look of the visit that settles anything shows the merge. */
  lemma MergedExactly(c: Config, d: SessionData, w: World)
    requires d.state == WaitingForChecks
    ensures StepOf(c, d, w).0.state == Merged <==>
      exists k :: 0 <= k < |w.observations| && ShowsMerge(c.task, w.observations[k])
                  && forall j :: 0 <= j < k ==> IsOpenLook(c.task, w.observations[j])
  {
    LooksByField(c.task, w.observations);
    var k := FirstDecisive(c.task, w.observations);
    if k < |w.observations| {
      assert ShowsMerge(c.task, w.observations[k]) <==> VerdictOf(c.task, w.observations[k]) == MergedNow;
    }
  }

  /** The first look that settles anything, if there is one. */
  predicate SettlesAt(task: Task, observations: seq<Observation>, k: nat) {
    && k < |observations| && !IsOpenLook(task, observations[k])
    && forall j :: 0 <= j < k ==> IsOpenLook(task, observations[j])
  }

  /**
   A waiting visit pauses exactly if every look is open. Otherwise its first look that is not open
   decides, going on to MERGED if it shows the merge and failing for its reason if it does not.
   */
  lemma WaitingDecides(c: Config, d: SessionData, w: World)
    requires d.state == WaitingForChecks
    ensures StepOf(c, d, w) == (d, PendingChecks) <==>
      forall i :: 0 <= i < |w.observations| ==> IsOpenLook(c.task, w.observations[i])
    ensures forall k: nat :: SettlesAt(c.task, w.observations, k) ==>
      && (ShowsMerge(c.task, w.observations[k]) ==> StepOf(c, d, w) == (Move(d, Merged), Advanced))
      && forall kind :: LookFails(c.task, w.observations[k], kind) ==>
           StepOf(c, d, w) == (Move(d, Failed), Failing(kind))
    ensures forall k: nat :: SettlesAt(c.task, w.observations, k) ==>
      ShowsMerge(c.task, w.observations[k]) || exists kind :: LookFails(c.task, w.observations[k], kind)
  {
    LooksByField(c.task, w.observations);
    var first := FirstDecisive(c.task, w.observations);
    forall k: nat | SettlesAt(c.task, w.observations, k) ensures k == first {
      assert !VerdictOf(c.task, w.observations[k]).Undecided?;
    }
    if first < |w.observations| {
      var verdict := VerdictOf(c.task, w.observations[first]);
      assert verdict.Hard? ==> LookFails(c.task, w.observations[first], verdict.kind);
      assert Move(d, Merged).transitions != d.transitions && Move(d, Failed).transitions != d.transitions;
    }
  }

  /** The last QA report approves, or none is found and none is required. */
  predicate Reviewed(c: Config, d: SessionData, w: World) {
    var latest := VerdictFound(d, w);
    if latest.Some? then latest.value else !c.qaRequired
  }

  /** At PR_OPEN the pull request's identity and the last QA verdict decide, then the merge request itself. */
  lemma MergeEnabledExactly(c: Config, d: SessionData, w: World)
    requires Consistent(d) && d.state == PrOpen
    ensures var read := w.observations[0].read;
      StepOf(c, d, w).0.state == AutoMergeEnabled <==>
        && IdentityHolds(c.task, read) && Reviewed(c, d, w)
        && (read.merged || (!w.conflicting && w.enabled.None?))
  {
    QaDecidesAtPrOpen(d, VerdictFound(d, w), c.qaRequired);
  }

  // ---- Why a visit fails ----

  /** The pull request could not be read, or is another one. */
  predicate ReconcileFails(task: Task, read: Read, kind: FailureKind) {
    (read.ReadFailed? && kind == PrNotFound) || IdentityFails(task, read, kind)
  }

  predicate OpenVisitFails(c: Config, d: SessionData, w: World, kind: FailureKind) {
    var read := w.observations[0].read;
    || ReconcileFails(c.task, read, kind)
    || (IdentityHolds(c.task, read) && kind == MergeNotEligible
        && (!Reviewed(c, d, w) || (!read.merged && w.conflicting)))
    || (IdentityHolds(c.task, read) && Reviewed(c, d, w) && !read.merged && !w.conflicting && w.enabled == Some(kind))
  }

  /** The first check of a closing visit that does not hold. */
  predicate ClosingVisitFails(d: SessionData, w: World, kind: FailureKind) {
    && !(d.closeout && w.closeoutRead)
    && match kind
       case MergeConfirmationMismatch => !w.reconfirmed || (w.identity && w.baseline && !w.ancestry)
       case RepositoryDrift => w.reconfirmed && !w.identity
       case BaselineUpdateFailed => w.reconfirmed && w.identity && !w.baseline
       case CloseoutFailed =>
         w.reconfirmed && w.identity && w.baseline && w.ancestry && (d.closeout || !w.closedOut)
       case _ => false
  }

  predicate VisitFails(c: Config, d: SessionData, w: World, kind: FailureKind) {
    match d.state
    case PrOpen => OpenVisitFails(c, d, w, kind)
    case AutoMergeEnabled => ReconcileFails(c.task, w.observations[0].read, kind)
    case WaitingForChecks =>
      exists k ::
        && 0 <= k < |w.observations| && SettlesAt(c.task, w.observations, k)
        && LookFails(c.task, w.observations[k], kind)
    case Closing => ClosingVisitFails(d, w, kind)
    case _ => false
  }

  lemma OpenVisitByField(c: Config, d: SessionData, w: World, kind: FailureKind)
    requires Consistent(d) && d.state == PrOpen
    ensures StepOf(c, d, w).1 == Failing(kind) <==> OpenVisitFails(c, d, w, kind)
  {
    QaDecidesAtPrOpen(d, VerdictFound(d, w), c.qaRequired);
    if w.observations[0].read.Seen? {
      MismatchByField(c.task, w.observations[0].read);
    }
  }

  lemma WaitingVisitByField(c: Config, d: SessionData, w: World, kind: FailureKind)
    requires d.state == WaitingForChecks
    ensures StepOf(c, d, w).1 == Failing(kind) <==> VisitFails(c, d, w, kind)
  {
    WaitingDecides(c, d, w);
    if StepOf(c, d, w).1 == Failing(kind) {
      var k := FirstDecisive(c.task, w.observations);
      LooksByField(c.task, w.observations);
      assert SettlesAt(c.task, w.observations, k) && LookFails(c.task, w.observations[k], kind);
    }
  }

  lemma EnabledVisitByField(c: Config, d: SessionData, w: World, kind: FailureKind)
    requires d.state == AutoMergeEnabled
    ensures StepOf(c, d, w).1 == Failing(kind) <==> VisitFails(c, d, w, kind)
  {
    if w.observations[0].read.Seen? {
      MismatchByField(c.task, w.observations[0].read);
    }
  }

  lemma ClosingVisitByField(d: SessionData, w: World, kind: FailureKind)
    ensures CloseOut(d, w).1 == Failing(kind) <==> ClosingVisitFails(d, w, kind)
  {
  }

  lemma PhaseByField(c: Config, d: SessionData, w: World, kind: FailureKind)
    requires Ready(d) && Distance(d.state) > 0
    ensures StepOf(c, d, w).1 == Failing(kind) <==> VisitFails(c, d, w, kind)
  {
    match d.state
    case PrOpen => OpenVisitByField(c, d, w, kind);
    case AutoMergeEnabled => EnabledVisitByField(c, d, w, kind);
    case WaitingForChecks => WaitingVisitByField(c, d, w, kind);
    case Merged => assert StepOf(c, d, w) == Goes(d, Closing);
    case Closing => ClosingVisitByField(d, w, kind);
  }

  /** A visit fails the session for a reason exactly when the reason holds of what it met and of what is kept. */
  lemma FailsExactly(c: Config, d: SessionData, w: World, kind: FailureKind)
    requires Ready(d) && Distance(d.state) > 0
    ensures StepOf(c, d, w) == (Move(d, Failed), Failing(kind)) <==> VisitFails(c, d, w, kind)
  {
    PhaseByField(c, d, w, kind);
    StepIsOneEdge(c, d, w);
    assert OneEdge(d, StepOf(c, d, w));
  }

  // ---- What a finished run means ----

  /** Look i is the first of the visit that settles anything, and it shows the merge. */
  predicate FirstShowsMerge(task: Task, observations: seq<Observation>, i: nat) {
    && i < |observations| && ShowsMerge(task, observations[i])
    && forall j :: 0 <= j < i ==> IsOpenLook(task, observations[j])
  }

  /** What a visit must meet to go on from the state the session is in. */
  ghost predicate Passes(c: Config, d: SessionData, w: World) {
    match d.state
    case PrOpen =>
      && IdentityHolds(c.task, w.observations[0].read) && Reviewed(c, d, w)
      && (w.observations[0].read.merged || (!w.conflicting && w.enabled.None?))
    case AutoMergeEnabled => IdentityHolds(c.task, w.observations[0].read)
    case WaitingForChecks => exists i: nat :: FirstShowsMerge(c.task, w.observations, i)
    case Merged => true
    case Closing => if d.closeout then w.closeoutRead else ClosingChecks(w) && !w.aborts
    case _ => false
  }

  lemma WaitingPasses(c: Config, d: SessionData, w: World)
    requires d.state == WaitingForChecks
    ensures GoesOn(StepOf(c, d, w).1) <==> Passes(c, d, w)
  {
    MergedExactly(c, d, w);
    assert GoesOn(StepOf(c, d, w).1) <==> StepOf(c, d, w).0.state == Merged;
    if GoesOn(StepOf(c, d, w).1) {
      var k: nat :| k < |w.observations| && ShowsMerge(c.task, w.observations[k])
                    && forall j :: 0 <= j < k ==> IsOpenLook(c.task, w.observations[j]);
      assert FirstShowsMerge(c.task, w.observations, k);
    }
  }

  /** A step goes on exactly when the visit meets what its state asks for. */
  lemma StepPasses(c: Config, d: SessionData, w: World)
    requires Ready(d) && Distance(d.state) > 0
    ensures GoesOn(StepOf(c, d, w).1) <==> Passes(c, d, w)
  {
    match d.state
    case PrOpen => MergeEnabledExactly(c, d, w);
    case AutoMergeEnabled =>
      assert Reconciled(c.task, w.observations[0].read).None? <==> IdentityHolds(c.task, w.observations[0].read);
    case WaitingForChecks => WaitingPasses(c, d, w);
    case Merged =>
    case Closing =>
  }

  function StateAt(distance: nat): WState {
    match distance
    case 0 => Done
    case 1 => Closing
    case 2 => Merged
    case 3 => WaitingForChecks
    case 4 => AutoMergeEnabled
    case _ => PrOpen
  }

  /** The session in the state that is this far from DONE. */
  function AtDistance(d: SessionData, distance: nat): SessionData {
    d.(state := StateAt(distance))
  }

  /** Every visit of the run from step k on meets what its state asks for. */
  ghost predicate AllPass(c: Config, d: SessionData, distance: nat, worlds: nat -> World, k: nat) {
    distance > 0 ==> Passes(c, AtDistance(d, distance), worlds(k)) && AllPass(c, d, distance - 1, worlds, k + 1)
  }

  /** Only the reports of a session decide, and the transitions do not. */
  lemma {:induction false} AllPassFrom(
    c: Config, d: SessionData, e: SessionData, distance: nat, worlds: nat -> World, k: nat)
    requires e.qa == d.qa && e.closeout == d.closeout
    ensures AllPass(c, d, distance, worlds, k) <==> AllPass(c, e, distance, worlds, k)
  {
    if distance > 0 {
      var a, b := AtDistance(d, distance), AtDistance(e, distance);
      assert VerdictFound(a, worlds(k)) == VerdictFound(b, worlds(k));
      assert Passes(c, a, worlds(k)) <==> Passes(c, b, worlds(k));
      AllPassFrom(c, d, e, distance - 1, worlds, k + 1);
    }
  }

  lemma {:induction false} DoneFrom(c: Config, d: SessionData, worlds: nat -> World, k: nat, maxSteps: nat)
    requires Ready(d) && (Distance(d.state) > 0 || d.state == Done)
    ensures var t := RunFrom(Stepper(c, worlds), Ends(), Continuing(), d, k, maxSteps).0;
      t.state == Done <==>
        (d.state == Done || k + Distance(d.state) <= maxSteps) && AllPass(c, d, Distance(d.state), worlds, k)
    decreases Distance(d.state)
  {
    if k < maxSteps && d.state != Done {
      var (e, phase) := StepOf(c, d, worlds(k));
      assert Stepper(c, worlds)(d, k) == (e, phase);
      VisitDecides(c, d, worlds, k);
      var step := Stepper(c, worlds);
      if GoesOn(phase) {
        assert RunFrom(step, Ends(), Continuing(), d, k, maxSteps).0
            == RunFrom(step, Ends(), Continuing(), e, k + 1, maxSteps).0;
        DoneFrom(c, e, worlds, k + 1, maxSteps);
      } else {
        assert RunFrom(step, Ends(), Continuing(), d, k, maxSteps).0 == e;
      }
    }
  }

  /** One visit of a run, and what it leaves for the visits after it. */
  lemma VisitDecides(c: Config, d: SessionData, worlds: nat -> World, k: nat)
    requires Ready(d) && Distance(d.state) > 0
    ensures var (e, phase) := StepOf(c, d, worlds(k));
      && Ready(e) && (!GoesOn(phase) ==> e.state != Done && !AllPass(c, d, Distance(d.state), worlds, k))
      && (GoesOn(phase) ==>
            && Distance(e.state) == Distance(d.state) - 1 && (Distance(e.state) > 0 || e.state == Done)
            && (AllPass(c, d, Distance(d.state), worlds, k) <==> AllPass(c, e, Distance(e.state), worlds, k + 1)))
  {
    var (e, phase) := StepOf(c, d, worlds(k));
    StepIsOneEdge(c, d, worlds(k));
    StepPasses(c, d, worlds(k));
    assert OneEdge(d, (e, phase)) && AtDistance(d, Distance(d.state)) == d;
    if GoesOn(phase) && d.state != Closing {
      StepKeepsReports(c, d, worlds(k));
      AllPassFrom(c, d, e, Distance(e.state), worlds, k + 1);
    }
  }

  /** Before the closing visit no step writes a report. */
  lemma StepKeepsReports(c: Config, d: SessionData, w: World)
    ensures var e := StepOf(c, d, w).0; e.qa == d.qa && (d.state != Closing ==> e.closeout == d.closeout)
  {
  }

  /**
   A run reaches DONE if and only if it may take as many steps as its state is away and every visit
   meets what its state asks for: at PR_OPEN the authorized identity, a merge that is possible and an
   approving last QA report, or none found and none required; at WAITING_FOR_CHECKS a first settling
   look that shows the merge; at CLOSING the report of an earlier closeout or every closing check.
   */
  lemma DoneExactly(c: Config, d: SessionData, worlds: nat -> World, maxSteps: nat)
    requires Ready(d) && Distance(d.state) > 0
    ensures RunOf(c, d, worlds, maxSteps).0.state == Done <==>
      Distance(d.state) <= maxSteps && AllPass(c, d, Distance(d.state), worlds, 0)
  {
    DoneFrom(c, d, worlds, 0, maxSteps);
  }

  /** DONE reached from before the merge: some look of the waiting visit showed it, and the last visit closed out. */
  lemma DoneMeansMerged(c: Config, d: SessionData, worlds: nat -> World, maxSteps: nat)
    requires Ready(d) && Distance(d.state) >= 3 && RunOf(c, d, worlds, maxSteps).0.state == Done
    ensures var looks := worlds(Distance(d.state) - 3).observations;
      exists i: nat :: FirstShowsMerge(c.task, looks, i)
    ensures Passes(c, AtDistance(d, 1), worlds(Distance(d.state) - 1))
  {
    DoneExactly(c, d, worlds, maxSteps);
    AllPassAt(c, d, Distance(d.state), worlds, 0, Distance(d.state) - 3);
    AllPassAt(c, d, Distance(d.state), worlds, 0, Distance(d.state) - 1);
  }

  lemma {:induction false} AllPassAt(
    c: Config, d: SessionData, distance: nat, worlds: nat -> World, k: nat, i: nat)
    requires AllPass(c, d, distance, worlds, k) && i < distance
    ensures Passes(c, AtDistance(d, distance - i), worlds(k + i))
  {
    if i > 0 {
      AllPassAt(c, d, distance - 1, worlds, k + 1, i - 1);
    }
  }

  // ---- The driver ----

  class MergeCloseoutDriver {
    const session: WorkflowSession
    const task: Task
    const qaRequired: bool

    constructor (session: WorkflowSession, task: Task, qaRequired: bool)
      ensures this.session == session && this.task == task && this.qaRequired == qaRequired
    {
      this.session, this.task, this.qaRequired := session, task, qaRequired;
    }

    function Settings(): Config {
      Config(task, qaRequired)
    }

    method Fail(kind: FailureKind) returns (phase: Phase)
      requires Ready(session.data) && Distance(session.data.state) > 0
      modifies session
      ensures Ready(session.data) && (session.data, phase) == Fails(old(session.data), kind)
    {
      var _ := session.TransitionTo(Failed, Orchestrator);
      phase := Failing(kind);
    }

    method GoTo(to: WState) returns (phase: Phase)
      requires Ready(session.data) && Allowed(session.data.state, to) && (Distance(to) > 0 || to == Done)
      modifies session
      ensures Ready(session.data) && (session.data, phase) == Goes(old(session.data), to)
    {
      var _ := session.TransitionTo(to, Orchestrator);
      phase := if to == Done then Finished else Advanced;
    }

    method HandlePrOpen(w: World) returns (phase: Phase)
      requires Ready(session.data) && session.data.state == PrOpen
      modifies session
      ensures Ready(session.data) && (session.data, phase) == EnableMerge(Settings(), old(session.data), w)
    {
      var read := w.observations[0].read;
      if Reconciled(task, read).Some? {
        phase := Fail(Reconciled(task, read).value);
        return;
      }
      var eligible := EvaluateMergeEligibility(
        session.data.transitions, if w.qaRead then LatestVerdict(session.data.qa) else None, qaRequired);
      if !eligible || (!read.merged && w.conflicting) {
        phase := Fail(MergeNotEligible);
      } else if !read.merged && w.enabled.Some? {
        phase := Fail(w.enabled.value);
      } else {
        phase := GoTo(AutoMergeEnabled);
      }
    }

    method HandleAutoMergeEnabled(w: World) returns (phase: Phase)
      requires Ready(session.data) && session.data.state == AutoMergeEnabled
      modifies session
      ensures Ready(session.data) && (session.data, phase) == StepOf(Settings(), old(session.data), w)
    {
      var kind := Reconciled(task, w.observations[0].read);
      if kind.Some? {
        phase := Fail(kind.value);
      } else {
        phase := GoTo(WaitingForChecks);
      }
    }

    method HandleWaitingForChecks(w: World) returns (phase: Phase)
      requires Ready(session.data) && session.data.state == WaitingForChecks
      modifies session
      ensures Ready(session.data) && (session.data, phase) == Await(Settings(), old(session.data), w)
    {
      var verdict, looks, sleeps := Poll(task, w.observations, |w.observations|);
      assert w.observations[..|w.observations|] == w.observations;
      if verdict == MergedNow {
        phase := GoTo(Merged);
      } else if verdict.Hard? {
        phase := Fail(verdict.kind);
      } else {
        phase := PendingChecks;
      }
    }

    method HandleClosing(w: World) returns (phase: Phase)
      requires Ready(session.data) && session.data.state == Closing
      modifies session
      ensures Ready(session.data) && (session.data, phase) == CloseOut(old(session.data), w)
    {
      if w.closeoutRead && session.data.closeout {
        phase := GoTo(Done);
      } else if !w.reconfirmed {
        phase := Fail(MergeConfirmationMismatch);
      } else if !w.identity {
        phase := Fail(RepositoryDrift);
      } else if !w.baseline {
        phase := Fail(BaselineUpdateFailed);
      } else if !w.ancestry {
        phase := Fail(MergeConfirmationMismatch);
      } else if !w.closedOut || session.data.closeout {
        phase := Fail(CloseoutFailed);
      } else {
        phase := ReportCloseout(w.aborts);
      }
    }

    method ReportCloseout(aborts: bool) returns (phase: Phase)
      requires Ready(session.data) && session.data.state == Closing
      modifies session
      ensures Ready(session.data)
      ensures var reported := old(session.data).(closeout := true);
        (session.data, phase) == if aborts then (reported, Interrupted) else Goes(reported, Done)
    {
      session.RecordCloseoutReport();
      if aborts {
        phase := Interrupted;
      } else {
        phase := GoTo(Done);
      }
    }

    method Step(w: World) returns (phase: Phase)
      requires Ready(session.data) && Distance(session.data.state) > 0
      modifies session
      ensures Ready(session.data) && (session.data, phase) == StepOf(Settings(), old(session.data), w)
    {
      if session.data.state == PrOpen {
        phase := HandlePrOpen(w);
      } else if session.data.state == AutoMergeEnabled {
        phase := HandleAutoMergeEnabled(w);
      } else if session.data.state == WaitingForChecks {
        phase := HandleWaitingForChecks(w);
      } else if session.data.state == Merged {
        phase := GoTo(Closing);
      } else {
        phase := HandleClosing(w);
      }
    }

    /** Runs until DONE, a failure, checks that stay pending or an abort. */
    method RunToDone(maxSteps: nat, worlds: nat -> World) returns (phases: seq<Phase>, reachedDone: bool)
      requires Ready(session.data)
      modifies session
      ensures Ready(session.data) && (reachedDone <==> session.data.state == Done)
      ensures (session.data, phases) == RunOf(Settings(), old(session.data), worlds, maxSteps)
    {
      ghost var step := Stepper(Settings(), worlds);
      ghost var first := session.data;
      SoFarBegins(step, Ends(), Continuing(), first, maxSteps);
      phases := [];
      var k := 0;
      while k < maxSteps && !IsTerminalState(session.data.state)
        invariant k <= maxSteps && Ready(session.data)
        invariant SoFar(step, Ends(), Continuing(), first, maxSteps, session.data, k, phases)
      {
        ghost var before := session.data;
        var phase := Step(worlds(k));
        SoFarAdvances(step, Ends(), Continuing(), first, maxSteps, before, k, phases, session.data, phase);
        phases := phases + [phase];
        if !GoesOn(phase) {
          StepIsOneEdge(Settings(), before, worlds(k));
          return phases, session.data.state == Done;
        }
        StepIsOneEdge(Settings(), before, worlds(k));
        k := k + 1;
      }
      SoFarEnds(step, Ends(), Continuing(), first, maxSteps, session.data, k, phases);
      reachedDone := session.data.state == Done;
    }
  }
}
