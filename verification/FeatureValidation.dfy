/**
 The semantic validator of scripts/orchestration_feature_state.py, and exactly when the result of
 an accepted transition still passes it.
 */
module FeatureValidation {
  import opened Support
  import opened PrerequisiteGraph
  import opened FeatureState

  function GraphOf(stages: map<string, Stage>): Graph {
    map id | id in stages :: stages[id].prerequisites
  }

  // ---- What a valid document is ----

  ghost predicate OrderCoversStages(s: State) {
    NoDuplicates(s.deliveryOrder) && forall id :: id in s.deliveryOrder <==> id in s.stages
  }

  predicate EligibilityRecorded(s: State) {
    s.nextEligible == NextEligible(s) && s.candidateNext == s.nextEligible
  }

  predicate ReviewedByReviewer(e: Entry) {
    e.from == At(Verified) && e.to in {At(ReviewApproved), At(ReviewRejected)} ==> e.role == Reviewer
  }

  predicate Numbered(history: seq<Entry>) {
    forall i :: 0 <= i < |history| ==> history[i].sequence == i + 1
  }

  /** The five rules the validator applies stage by stage. */
  datatype StageRule = KnownPrerequisites | IndependentReview | PassedEvidence | ApprovedRecord | RecordedBase

  const STAGE_RULES: set<StageRule> :=
    {KnownPrerequisites, IndependentReview, PassedEvidence, ApprovedRecord, RecordedBase}

  predicate Obeys(rule: StageRule, known: set<string>, stage: Stage) {
    match rule
    case KnownPrerequisites => forall p :: p in stage.prerequisites ==> p in known
    case IndependentReview =>
      stage.status == ReviewApproved || stage.reviewStatus == Approved ==>
        stage.reviewer.None? || stage.reviewer != stage.implementer
    case PassedEvidence =>
      stage.status in {Verified, ReviewApproved} ==>
        stage.verificationStatus == Passed && stage.evidence != []
    case ApprovedRecord =>
      stage.status == ReviewApproved ==>
        Given(stage.implementationCommit) && stage.reviewEvidence != [] && stage.reviewStatus == Approved
    case RecordedBase => stage.status != NotStarted ==> Given(stage.expectedBaseHead)
  }

  predicate StageValid(known: set<string>, stage: Stage) {
    forall rule :: rule in STAGE_RULES ==> Obeys(rule, known, stage)
  }

  ghost predicate SemanticsOk(s: State) {
    && (forall id :: id in s.stages ==> StageValid(s.stages.Keys, s.stages[id]))
    && Acyclic(GraphOf(s.stages))
    && OrderCoversStages(s)
    && EligibilityRecorded(s)
    && (forall e :: e in s.history ==> ReviewedByReviewer(e))
    && Numbered(s.history)
  }

  // ---- What the validator says ----

  /** What can be wrong with one stage. */
  datatype Fault =
    | UnknownPrerequisite(id: string) | SelfReviewed | NotPassed | NoEvidence
    | NoCommit | NoReviewEvidence | ReviewOpen | NoBase

  predicate IsBlank(text: Option<string>) {
    text.None? || text.value == ""
  }

  predicate HasFault(known: set<string>, stage: Stage, fault: Fault) {
    match fault
    case UnknownPrerequisite(p) => p in stage.prerequisites && p !in known
    case SelfReviewed =>
      && (stage.status == ReviewApproved || stage.reviewStatus == Approved)
      && stage.reviewer.Some? && stage.reviewer == stage.implementer
    case NotPassed => stage.status in {Verified, ReviewApproved} && stage.verificationStatus != Passed
    case NoEvidence => stage.status in {Verified, ReviewApproved} && stage.evidence == []
    case NoCommit => stage.status == ReviewApproved && IsBlank(stage.implementationCommit)
    case NoReviewEvidence => stage.status == ReviewApproved && stage.reviewEvidence == []
    case ReviewOpen => stage.status == ReviewApproved && stage.reviewStatus != Approved
    case NoBase => stage.status != NotStarted && IsBlank(stage.expectedBaseHead)
  }

  /** The rule that a fault breaks. */
  function Broken(fault: Fault): StageRule {
    match fault
    case UnknownPrerequisite(_) => KnownPrerequisites
    case SelfReviewed => IndependentReview
    case NotPassed | NoEvidence => PassedEvidence
    case NoCommit | NoReviewEvidence | ReviewOpen => ApprovedRecord
    case NoBase => RecordedBase
  }

  datatype SemanticError =
    | PlanStagesMissing(ids: set<string>) | PlanStagesExtra(ids: set<string>) | StageError(id: string, fault: Fault)
    | CyclicPrerequisites(cycle: seq<string>) | DeliveryOrderInexact | NextEligibleWrong | CandidateWrong
    | ReviewRoleWrong(index: nat) | HistoryMisnumbered

  /** What has to be so for an error to be reported. */
  ghost predicate Violates(s: State, plan: Option<set<string>>, e: SemanticError) {
    match e
    case PlanStagesMissing(ids) => plan.Some? && ids == plan.value - s.stages.Keys && ids != {}
    case PlanStagesExtra(ids) => plan.Some? && ids == s.stages.Keys - plan.value && ids != {}
    case StageError(id, fault) => id in s.stages && HasFault(s.stages.Keys, s.stages[id], fault)
    case CyclicPrerequisites(cycle) => IsClosedWalk(GraphOf(s.stages), cycle)
    case DeliveryOrderInexact => !OrderCoversStages(s)
    case NextEligibleWrong => Acyclic(GraphOf(s.stages)) && s.nextEligible != NextEligible(s)
    case CandidateWrong => Acyclic(GraphOf(s.stages)) && s.candidateNext != s.nextEligible
    case ReviewRoleWrong(i) =>
      && i < |s.history| && s.history[i].from == At(Verified)
      && s.history[i].to in {At(ReviewApproved), At(ReviewRejected)} && s.history[i].role != Reviewer
    case HistoryMisnumbered => !Numbered(s.history)
  }

  /** Every violation is reported and nothing else; of the cycles there may be, one is. */
  ghost predicate Reports(s: State, plan: Option<set<string>>, errors: seq<SemanticError>) {
    && (forall e :: e in errors ==> Violates(s, plan, e))
    && (forall e :: Violates(s, plan, e) && !e.CyclicPrerequisites? ==> e in errors)
    && ((exists cycle :: CyclicPrerequisites(cycle) in errors) <==> !Acyclic(GraphOf(s.stages)))
  }

  /** The faults that break a rule. */
  predicate IsFaultOf(rule: StageRule, fault: Fault) {
    match rule
    case KnownPrerequisites => fault.UnknownPrerequisite?
    case IndependentReview => fault == SelfReviewed
    case PassedEvidence => fault == NotPassed || fault == NoEvidence
    case ApprovedRecord => fault == NoCommit || fault == NoReviewEvidence || fault == ReviewOpen
    case RecordedBase => fault == NoBase
  }

  lemma BrokenIsFault(rule: StageRule, fault: Fault)
    ensures Broken(fault) == rule <==> IsFaultOf(rule, fault)
  {
  }

  lemma ObeysWithoutFault(rule: StageRule, known: set<string>, stage: Stage)
    ensures Obeys(rule, known, stage) <==> forall fault :: Broken(fault) == rule ==> !HasFault(known, stage, fault)
  {
    if Obeys(rule, known, stage) {
      forall fault | Broken(fault) == rule ensures !HasFault(known, stage, fault) {
        BrokenIsFault(rule, fault);
      }
    } else {
      var fault := SomeFault(rule, known, stage);
      BrokenIsFault(rule, fault);
    }
  }

  lemma SomeFault(rule: StageRule, known: set<string>, stage: Stage) returns (fault: Fault)
    requires !Obeys(rule, known, stage)
    ensures IsFaultOf(rule, fault) && HasFault(known, stage, fault)
  {
    match rule
    case KnownPrerequisites =>
      var p :| p in stage.prerequisites && p !in known;
      fault := UnknownPrerequisite(p);
    case IndependentReview => fault := SelfReviewed;
    case PassedEvidence => fault := if stage.verificationStatus != Passed then NotPassed else NoEvidence;
    case ApprovedRecord =>
      fault := if !Given(stage.implementationCommit) then NoCommit
               else if stage.reviewEvidence == [] then NoReviewEvidence else ReviewOpen;
    case RecordedBase => fault := NoBase;
  }

  /** A document is in order exactly if nothing is to be reported of it. */
  lemma NothingReportedExactly(s: State, plan: Option<set<string>>, errors: seq<SemanticError>)
    requires Reports(s, plan, errors)
    ensures errors == [] <==> SemanticsOk(s) && (plan.Some? ==> plan.value == s.stages.Keys)
  {
    if errors != [] && SemanticsOk(s) && (plan.Some? ==> plan.value == s.stages.Keys) {
      var e := errors[0];
      assert Violates(s, plan, e);
      SoundDoesNotViolate(s, plan, e);
    }
    if errors == [] {
      StagesWithoutFaults(s, plan, errors);
      assert plan.Some? ==> PlanStagesMissing(plan.value - s.stages.Keys) !in errors;
      assert plan.Some? ==> PlanStagesExtra(s.stages.Keys - plan.value) !in errors;
      assert DeliveryOrderInexact !in errors && NextEligibleWrong !in errors;
      assert CandidateWrong !in errors && HistoryMisnumbered !in errors;
      forall e | e in s.history ensures ReviewedByReviewer(e) {
        var i :| 0 <= i < |s.history| && s.history[i] == e;
        assert ReviewRoleWrong(i) !in errors;
      }
    }
  }

  lemma StagesWithoutFaults(s: State, plan: Option<set<string>>, errors: seq<SemanticError>)
    requires Reports(s, plan, errors) && errors == []
    ensures forall id :: id in s.stages ==> StageValid(s.stages.Keys, s.stages[id])
  {
    forall id, rule | id in s.stages && rule in STAGE_RULES ensures Obeys(rule, s.stages.Keys, s.stages[id]) {
      ObeysWithoutFault(rule, s.stages.Keys, s.stages[id]);
      forall fault ensures !HasFault(s.stages.Keys, s.stages[id], fault) {
        assert StageError(id, fault) !in errors;
      }
    }
  }

  lemma SoundDoesNotViolate(s: State, plan: Option<set<string>>, e: SemanticError)
    requires SemanticsOk(s) && (plan.Some? ==> plan.value == s.stages.Keys)
    ensures !Violates(s, plan, e)
  {
    match e
    case StageError(id, fault) =>
      if id in s.stages {
        assert Broken(fault) in STAGE_RULES && Obeys(Broken(fault), s.stages.Keys, s.stages[id]);
        ObeysWithoutFault(Broken(fault), s.stages.Keys, s.stages[id]);
      }
    case CyclicPrerequisites(cycle) =>
      if IsClosedWalk(GraphOf(s.stages), cycle) {
        AcyclicHasNoClosedWalk(GraphOf(s.stages), cycle);
      }
    case ReviewRoleWrong(i) => assert i < |s.history| ==> s.history[i] in s.history;
    case _ =>
  }

  // ---- The validator ----

  lemma {:induction false} DistinctCount(s: seq<string>)
    ensures |set x | x in s| <= |s|
    ensures |set x | x in s| == |s| <==> NoDuplicates(s)
  {
    if s != [] {
      var last := |s| - 1;
      var front := s[..last];
      DistinctCount(front);
      assert s == front + [s[last]];
      if s[last] in front {
        assert (set x | x in s) == (set x | x in front);
        var i :| 0 <= i < last && front[i] == s[last];
        assert s[i] == s[last];
      } else {
        assert (set x | x in s) == (set x | x in front) + {s[last]};
        assert NoDuplicates(front) ==> NoDuplicates(s);
        assert NoDuplicates(s) ==> NoDuplicates(front) by {
          assert forall i :: 0 <= i < last ==> front[i] == s[i];
        }
      }
    }
  }

  method CheckPrerequisites(known: set<string>, prerequisites: seq<string>) returns (faults: seq<Fault>)
    ensures forall fault :: fault in faults <==>
      fault.UnknownPrerequisite? && fault.id in prerequisites && fault.id !in known
  {
    faults := [];
    for i := 0 to |prerequisites|
      invariant forall fault :: fault in faults <==>
        fault.UnknownPrerequisite? && fault.id in prerequisites[..i] && fault.id !in known
    {
      assert prerequisites[..i + 1] == prerequisites[..i] + [prerequisites[i]];
      if prerequisites[i] !in known {
        faults := faults + [UnknownPrerequisite(prerequisites[i])];
      }
    }
    assert prerequisites[..|prerequisites|] == prerequisites;
  }

  function Said(fault: Fault, holds: bool): (faults: seq<Fault>)
    ensures forall f :: f in faults <==> f == fault && holds
  {
    if holds then [fault] else []
  }

  /** The faults of one stage under one rule. */
  method CheckStage(known: set<string>, stage: Stage, rule: StageRule) returns (faults: seq<Fault>)
    ensures forall fault :: fault in faults <==> IsFaultOf(rule, fault) && HasFault(known, stage, fault)
  {
    var verified := stage.status in {Verified, ReviewApproved};
    var approved := stage.status == ReviewApproved;
    match rule {
      case KnownPrerequisites =>
        faults := CheckPrerequisites(known, stage.prerequisites);
      case IndependentReview =>
        faults := Said(
          SelfReviewed, (approved || stage.reviewStatus == Approved)
                        && stage.reviewer.Some? && stage.reviewer == stage.implementer);
      case PassedEvidence =>
        faults := Said(NotPassed, verified && stage.verificationStatus != Passed)
          + Said(NoEvidence, verified && stage.evidence == []);
      case ApprovedRecord =>
        faults := Said(NoCommit, approved && !Given(stage.implementationCommit))
          + Said(NoReviewEvidence, approved && stage.reviewEvidence == [])
          + Said(ReviewOpen, approved && stage.reviewStatus != Approved);
      case RecordedBase =>
        faults := Said(NoBase, stage.status != NotStarted && !Given(stage.expectedBaseHead));
    }
  }

  ghost predicate BreaksIn(s: State, ids: seq<string>, rule: StageRule, e: SemanticError) {
    && e.StageError? && IsFaultOf(rule, e.fault) && e.id in ids && e.id in s.stages
    && HasFault(s.stages.Keys, s.stages[e.id], e.fault)
  }

  method CheckStages(s: State, keys: seq<string>, rule: StageRule) returns (errors: seq<SemanticError>)
    requires forall id :: id in keys <==> id in s.stages
    ensures forall e :: e in errors <==> BreaksIn(s, keys, rule, e)
  {
    errors := [];
    for i := 0 to |keys|
      invariant forall e :: e in errors <==> BreaksIn(s, keys[..i], rule, e)
    {
      assert keys[i] in s.stages;
      var faults := CheckStage(s.stages.Keys, s.stages[keys[i]], rule);
      var found := seq(|faults|, k requires 0 <= k < |faults| => StageError(keys[i], faults[k]));
      OneMoreStage(s, keys, i, rule, faults, found);
      errors := errors + found;
    }
    assert keys[..|keys|] == keys;
  }

  lemma OneMoreStage(
    s: State, keys: seq<string>, i: nat, rule: StageRule, faults: seq<Fault>, found: seq<SemanticError>)
    requires i < |keys| && keys[i] in s.stages && |found| == |faults|
    requires forall k :: 0 <= k < |faults| ==> found[k] == StageError(keys[i], faults[k])
    requires forall fault :: fault in faults <==>
      IsFaultOf(rule, fault) && HasFault(s.stages.Keys, s.stages[keys[i]], fault)
    ensures forall e :: BreaksIn(s, keys[..i + 1], rule, e) <==> BreaksIn(s, keys[..i], rule, e) || e in found
  {
    assert keys[..i + 1] == keys[..i] + [keys[i]];
    forall e ensures BreaksIn(s, keys[..i + 1], rule, e) <==> BreaksIn(s, keys[..i], rule, e) || e in found {
      if e.StageError? && e.id == keys[i] && e.fault in faults {
        var k :| 0 <= k < |faults| && faults[k] == e.fault;
        assert found[k] == e;
      }
    }
  }

  method CheckReviewRoles(s: State) returns (errors: seq<SemanticError>)
    ensures forall e :: e in errors <==> e.ReviewRoleWrong? && Violates(s, None, e)
  {
    errors := [];
    for i := 0 to |s.history|
      invariant forall e :: e in errors <==> e.ReviewRoleWrong? && e.index < i && Violates(s, None, e)
    {
      if !ReviewedByReviewer(s.history[i]) {
        errors := errors + [ReviewRoleWrong(i)];
      }
    }
  }

  /** The plan rule: both differences, where there are any. */
  method CheckPlan(s: State, plan: Option<set<string>>) returns (errors: seq<SemanticError>)
    ensures forall e :: e in errors <==> (e.PlanStagesMissing? || e.PlanStagesExtra?) && Violates(s, plan, e)
  {
    errors := [];
    if plan.Some? {
      var missing, extra := plan.value - s.stages.Keys, s.stages.Keys - plan.value;
      if missing != {} {
        errors := errors + [PlanStagesMissing(missing)];
      }
      if extra != {} {
        errors := errors + [PlanStagesExtra(extra)];
      }
    }
  }

  /** The cycle and delivery-order rules. */
  method CheckGraph(s: State, keys: seq<string>) returns (errors: seq<SemanticError>, acyclic: bool)
    requires forall id :: id in keys <==> id in s.stages
    ensures acyclic <==> Acyclic(GraphOf(s.stages))
    ensures forall e :: e in errors ==> (e.CyclicPrerequisites? || e == DeliveryOrderInexact) && Violates(s, None, e)
    ensures DeliveryOrderInexact in errors <==> !OrderCoversStages(s)
    ensures (exists cycle :: CyclicPrerequisites(cycle) in errors) <==> !acyclic
  {
    errors := [];
    var cycle := FindCycle(GraphOf(s.stages), keys);
    acyclic := cycle.None?;
    if cycle.Some? {
      errors := [CyclicPrerequisites(cycle.value)];
    }
    DistinctCount(s.deliveryOrder);
    if (set id | id in s.deliveryOrder) != s.stages.Keys || |s.deliveryOrder| != |s.stages.Keys| {
      errors := errors + [DeliveryOrderInexact];
    }
    assert OrderCoversStages(s) ==> (set id | id in s.deliveryOrder) == s.stages.Keys;
  }

  method CheckEligibility(s: State) returns (errors: seq<SemanticError>)
    ensures forall e :: e in errors <==>
      || (e == NextEligibleWrong && s.nextEligible != NextEligible(s))
      || (e == CandidateWrong && s.candidateNext != s.nextEligible)
  {
    var next := RecomputeNextEligible(s);
    errors := if s.nextEligible != next then [NextEligibleWrong] else [];
    if s.candidateNext != s.nextEligible {
      errors := errors + [CandidateWrong];
    }
  }

  method CheckNumbering(s: State) returns (errors: seq<SemanticError>)
    ensures errors == if Numbered(s.history) then [] else [HistoryMisnumbered]
  {
    NumberedAsRange(s.history);
    errors :=
      if seq(|s.history|, i requires 0 <= i < |s.history| => s.history[i].sequence)
           != seq(|s.history|, i => i + 1) then [HistoryMisnumbered] else [];
  }

  /**
   keys is the order in which the stages dictionary is iterated; plan holds the stage identifiers
   of the plan document when one is given.
   */
  method ValidateSemantics(s: State, keys: seq<string>, plan: Option<set<string>>)
    returns (errors: seq<SemanticError>)
    requires forall id :: id in keys <==> id in s.stages
    ensures Reports(s, plan, errors)
    ensures errors == [] <==> SemanticsOk(s) && (plan.Some? ==> plan.value == s.stages.Keys)
  {
    var ofPlan := CheckPlan(s, plan);
    var prerequisites := CheckStages(s, keys, KnownPrerequisites);
    var graph, acyclic := CheckGraph(s, keys);
    var eligibility := [];
    if acyclic {
      eligibility := CheckEligibility(s);
    }
    var roles := CheckReviewRoles(s);
    var review := CheckStages(s, keys, IndependentReview);
    var evidence := CheckStages(s, keys, PassedEvidence);
    var approval := CheckStages(s, keys, ApprovedRecord);
    var numbering := CheckNumbering(s);
    var base := CheckStages(s, keys, RecordedBase);
    errors := ofPlan + prerequisites + graph + eligibility + roles + review + evidence + approval + numbering + base;
    AllStageErrors(s, keys, prerequisites, review, evidence, approval, base);
    ghost var ofStages := prerequisites + review + evidence + approval + base;
    TenParts(ofPlan, prerequisites, graph, eligibility, roles, review, evidence, approval, numbering, base);
    AllErrors(s, plan, ofPlan, ofStages, graph, eligibility, roles, numbering, errors);
    NothingReportedExactly(s, plan, errors);
  }

  lemma TenParts<T(!new)>(
    a: seq<T>, b: seq<T>, c: seq<T>, d: seq<T>, e: seq<T>, f: seq<T>, g: seq<T>, h: seq<T>, i: seq<T>, j: seq<T>)
    ensures forall x :: x in a + b + c + d + e + f + g + h + i + j <==>
      x in a || x in b + f + g + h + j || x in c || x in d || x in e || x in i
  {
  }

  lemma AllErrors(
    s: State, plan: Option<set<string>>, ofPlan: seq<SemanticError>, ofStages: seq<SemanticError>,
    graph: seq<SemanticError>, eligibility: seq<SemanticError>, roles: seq<SemanticError>,
    numbering: seq<SemanticError>, errors: seq<SemanticError>)
    requires forall e :: e in errors <==>
      e in ofPlan || e in ofStages || e in graph || e in eligibility || e in roles || e in numbering
    requires forall e :: e in ofPlan <==> (e.PlanStagesMissing? || e.PlanStagesExtra?) && Violates(s, plan, e)
    requires forall e :: e in ofStages <==> e.StageError? && Violates(s, None, e)
    requires forall e :: e in graph ==> (e.CyclicPrerequisites? || e == DeliveryOrderInexact) && Violates(s, None, e)
    requires DeliveryOrderInexact in graph <==> !OrderCoversStages(s)
    requires (exists cycle :: CyclicPrerequisites(cycle) in graph) <==> !Acyclic(GraphOf(s.stages))
    requires forall e :: e in eligibility <==> (e == NextEligibleWrong || e == CandidateWrong) && Violates(s, None, e)
    requires forall e :: e in roles <==> e.ReviewRoleWrong? && Violates(s, None, e)
    requires numbering == if Numbered(s.history) then [] else [HistoryMisnumbered]
    ensures Reports(s, plan, errors)
  {
    forall e | Violates(s, plan, e) && !e.CyclicPrerequisites? ensures e in errors {
      assert e.PlanStagesMissing? || e.PlanStagesExtra? || Violates(s, None, e);
    }
    forall cycle ensures CyclicPrerequisites(cycle) in errors <==> CyclicPrerequisites(cycle) in graph {
    }
  }

  /** Every stage error is one of the five rules'. */
  lemma AllStageErrors(
    s: State, keys: seq<string>, prerequisites: seq<SemanticError>, review: seq<SemanticError>,
    evidence: seq<SemanticError>, approval: seq<SemanticError>, base: seq<SemanticError>)
    requires forall id :: id in keys <==> id in s.stages
    requires forall e :: e in prerequisites <==> BreaksIn(s, keys, KnownPrerequisites, e)
    requires forall e :: e in review <==> BreaksIn(s, keys, IndependentReview, e)
    requires forall e :: e in evidence <==> BreaksIn(s, keys, PassedEvidence, e)
    requires forall e :: e in approval <==> BreaksIn(s, keys, ApprovedRecord, e)
    requires forall e :: e in base <==> BreaksIn(s, keys, RecordedBase, e)
    ensures forall e :: e in prerequisites + review + evidence + approval + base <==>
      e.StageError? && Violates(s, None, e)
  {
    forall e ensures e in prerequisites + review + evidence + approval + base <==>
      e.StageError? && Violates(s, None, e)
    {
      assert e in prerequisites + review + evidence + approval + base <==>
        e in prerequisites || e in review || e in evidence || e in approval || e in base;
      if e.StageError? {
        BrokenIsFault(Broken(e.fault), e.fault);
      }
    }
  }

  lemma NumberedAsRange(history: seq<Entry>)
    ensures Numbered(history) <==>
      seq(|history|, i requires 0 <= i < |history| => history[i].sequence) == seq(|history|, i => i + 1)
  {
    var found := seq(|history|, i requires 0 <= i < |history| => history[i].sequence);
    var expected := seq(|history|, i => i + 1);
    if found == expected {
      forall i | 0 <= i < |history| ensures history[i].sequence == i + 1 {
        assert found[i] == expected[i];
      }
    }
  }

  // ---- Exactly when an accepted transition keeps the document valid ----

  /**
   What the request still owes once apply_transition has accepted it: everything the writer's own
   guards leave to the validator, in terms of the stage before the call and the request.
   */
  predicate Residual(prior: Stage, r: Request) {
    && (prior.status == NotStarted && r.to == Superseded ==>
          r.expectedBaseHead.Some? || Given(prior.expectedBaseHead))
    && (r.to == Verified ==>
          && (if r.verificationStatus.Some? then r.verificationStatus.value else prior.verificationStatus) == Passed
          && (prior.evidence != [] || r.addEvidence != []))
    && (r.to == ReviewApproved ==>
          && r.verificationStatus in {None, Some(Passed)}
          && !r.clearImplementationCommit
          && (prior.reviewEvidence != [] || r.addReviewEvidence != [])
          && r.reviewStatus in {None, Some(Approved)})
    && (ApprovalRecorded(prior, r) ==> ReviewerIndependent(prior, r))
  }

  /** The stage will be approved, or carry an approved review disposition, after the call. */
  predicate ApprovalRecorded(prior: Stage, r: Request) {
    r.to == ReviewApproved ||
    (if r.reviewStatus.Some? then r.reviewStatus.value == Approved
     else r.to != ReviewRejected && prior.reviewStatus == Approved)
  }

  predicate ReviewerIndependent(prior: Stage, r: Request) {
    var reviewer :=
      if r.to in {ReviewApproved, ReviewRejected} then Some(EffectiveReviewer(r))
      else if r.reviewer.Some? then r.reviewer else prior.reviewer;
    var implementer :=
      if r.implementer.Some? then r.implementer
      else if r.to == InProgress && prior.status in {NotStarted, ReviewRejected} then Some(r.actor)
      else prior.implementer;
    reviewer.None? || reviewer != implementer
  }

  lemma AddMissingEmpty(prior: seq<string>, additions: seq<string>)
    ensures AddMissing(prior, additions) == [] <==> prior == [] && additions == []
  {
    if additions != [] {
      assert additions[0] in AddMissing(prior, additions);
    }
  }

  lemma ReviewResidual(prior: Stage, known: set<string>, r: Request)
    ensures Obeys(IndependentReview, known, NewStage(prior, r)) <==>
      (ApprovalRecorded(prior, r) ==> ReviewerIndependent(prior, r))
  {
  }

  lemma EvidenceResidual(s: State, r: Request)
    requires r.stageId in s.stages && StageValid(s.stages.Keys, s.stages[r.stageId]) && Rejection(s, r).None?
    ensures var prior := s.stages[r.stageId];
      var next := NewStage(prior, r);
      (Obeys(PassedEvidence, s.stages.Keys, next) && Obeys(ApprovedRecord, s.stages.Keys, next)) <==>
        && (r.to == Verified ==>
              && (if r.verificationStatus.Some? then r.verificationStatus.value else prior.verificationStatus) == Passed
              && (prior.evidence != [] || r.addEvidence != []))
        && (r.to == ReviewApproved ==>
              && r.verificationStatus in {None, Some(Passed)} && !r.clearImplementationCommit
              && (prior.reviewEvidence != [] || r.addReviewEvidence != [])
              && r.reviewStatus in {None, Some(Approved)})
  {
    var prior := s.stages[r.stageId];
    AddMissingEmpty(prior.evidence, r.addEvidence);
    AddMissingEmpty(prior.reviewEvidence, r.addReviewEvidence);
    assert Obeys(PassedEvidence, s.stages.Keys, prior);
  }

  lemma BaseResidual(s: State, r: Request)
    requires r.stageId in s.stages && StageValid(s.stages.Keys, s.stages[r.stageId]) && Rejection(s, r).None?
    ensures var prior := s.stages[r.stageId];
      Obeys(RecordedBase, s.stages.Keys, NewStage(prior, r)) <==>
        (prior.status == NotStarted && r.to == Superseded ==> r.expectedBaseHead.Some? || Given(prior.expectedBaseHead))
  {
    assert Obeys(RecordedBase, s.stages.Keys, s.stages[r.stageId]);
  }

  /** For the touched stage, the residual obligations are exactly what validity still needs. */
  lemma ResidualIsExact(s: State, r: Request)
    requires SemanticsOk(s) && Rejection(s, r).None?
    ensures StageValid(s.stages.Keys, NewStage(s.stages[r.stageId], r)) <==> Residual(s.stages[r.stageId], r)
  {
    var prior := s.stages[r.stageId];
    var known := s.stages.Keys;
    var next := NewStage(prior, r);
    assert StageValid(known, prior);
    assert Obeys(KnownPrerequisites, known, prior);
    ReviewResidual(prior, known, r);
    EvidenceResidual(s, r);
    BaseResidual(s, r);
    assert StageValid(known, next) <==>
      Obeys(IndependentReview, known, next) && Obeys(PassedEvidence, known, next)
      && Obeys(ApprovedRecord, known, next) && Obeys(RecordedBase, known, next);
  }

  lemma HistoryRulesPreserved(s: State, r: Request)
    requires Numbered(s.history) && Rejection(s, r).None?
    requires forall e :: e in s.history ==> ReviewedByReviewer(e)
    ensures var t := Applied(s, r);
      Numbered(t.history) && forall e :: e in t.history ==> ReviewedByReviewer(e)
  {
    if s.history != [] {
      assert s.history[|s.history| - 1] in s.history;
    }
    var t := Applied(s, r);
    var entry := t.history[|s.history|];
    assert t.history == s.history + [entry];
    assert ReviewedByReviewer(entry);
  }

  /** Everything but the touched stage's own rules is preserved unconditionally. */
  lemma FrameRulesPreserved(s: State, r: Request)
    requires SemanticsOk(s) && Rejection(s, r).None?
    ensures var t := Applied(s, r);
      && GraphOf(t.stages) == GraphOf(s.stages) && t.stages.Keys == s.stages.Keys
      && OrderCoversStages(t) && EligibilityRecorded(t) && Numbered(t.history)
      && (forall e :: e in t.history ==> ReviewedByReviewer(e))
  {
    HistoryRulesPreserved(s, r);
    GraphPreserved(s, r);
  }

  lemma GraphPreserved(s: State, r: Request)
    requires Rejection(s, r).None?
    ensures var t := Applied(s, r); t.stages.Keys == s.stages.Keys && GraphOf(t.stages) == GraphOf(s.stages)
  {
    var t := Applied(s, r);
    assert t.stages.Keys == s.stages.Keys;
    assert forall id :: id in s.stages ==> t.stages[id].prerequisites == s.stages[id].prerequisites;
  }

  /** From a valid document an accepted transition yields a valid one iff the residual holds. */
  lemma ValidityPreservedExactly(s: State, r: Request)
    requires SemanticsOk(s) && Rejection(s, r).None?
    ensures SemanticsOk(Applied(s, r)) <==> Residual(s.stages[r.stageId], r)
  {
    var t := Applied(s, r);
    FrameRulesPreserved(s, r);
    ResidualIsExact(s, r);
    assert t.stages[r.stageId] == NewStage(s.stages[r.stageId], r);
    assert forall id :: id in s.stages && id != r.stageId ==> t.stages[id] == s.stages[id];
  }

  datatype HistoryError = Shortened | Rewritten(index: nat)

  /** Nothing is reported exactly if the earlier history is a prefix of the later one, and else what was done to it. */
  method ValidateHistoryAppendOnly(previous: seq<Entry>, current: seq<Entry>) returns (errors: seq<HistoryError>)
    ensures errors == [] <==> previous <= current
    ensures Shortened in errors <==> |current| < |previous|
    ensures forall i: nat :: Rewritten(i) in errors <==> i < |previous| <= |current| && current[i] != previous[i]
  {
    if |current| < |previous| {
      return [Shortened];
    }
    errors := [];
    for i := 0 to |previous|
      invariant errors == [] <==> previous[..i] == current[..i]
      invariant Shortened !in errors
      invariant forall k: nat :: Rewritten(k) in errors <==> k < i && current[k] != previous[k]
    {
      assert previous[..i + 1] == previous[..i] + [previous[i]];
      assert current[..i + 1] == current[..i] + [current[i]];
      if current[i] != previous[i] {
        errors := errors + [Rewritten(i)];
      }
    }
  }
}
