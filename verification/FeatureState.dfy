/**
 The feature-state document of scripts/orchestration_feature_state.py: the role-guarded stage
 table, the scheduler, the single writer and the semantic validator.
 */
module FeatureState {
  import opened Support
  import opened PrerequisiteGraph

  datatype Status =
    | NotStarted | InProgress | Implemented | Verified
    | ReviewRejected | ReviewApproved | Blocked | Superseded
  datatype ReviewStatus = NotRequested | Pending | Rejected | Approved
  datatype VerificationStatus = NotRun | Failed | Passed
  datatype Role =
    | Architect | Implementer | Reviewer | Remediator | Migrator | ReleaseManager | HumanOwner

  /** A blocker may carry a null code. */
  datatype Blocker = Blocker(
    code: Option<string>, summary: string, owner: string, introducedAt: int, resolution: Option<string>)

  datatype Stage = Stage(
    title: string, status: Status, prerequisites: seq<string>,
    expectedBaseHead: Option<string>, implementationCommit: Option<string>,
    implementer: Option<string>, reviewStatus: ReviewStatus, reviewer: Option<string>,
    verificationStatus: VerificationStatus, evidence: seq<string>, reviewEvidence: seq<string>,
    handoff: Option<string>, blockers: seq<Blocker>)

  /** A history endpoint is free text or null; the writer only ever records statuses. */
  datatype Endpoint = NoEndpoint | At(status: Status) | Text(text: string)

  datatype Entry = Entry(
    sequence: int, at: int, actor: string, role: Role, action: string,
    from: Endpoint, to: Endpoint, evidence: seq<string>)

  datatype Stamp = Stamp(at: int, author: string, role: Role, reason: string)

  datatype State = State(
    stages: map<string, Stage>, deliveryOrder: seq<string>, blockers: seq<Blocker>,
    currentStage: Option<string>, nextEligible: Option<string>, candidateNext: Option<string>,
    history: seq<Entry>, lastUpdated: Stamp)

  datatype Resolution = Resolution(code: string, text: string)

  datatype Request = Request(
    stageId: string, to: Status, actor: string, role: Role, action: string, reason: string,
    at: int, evidence: seq<string>, implementer: Option<string>, reviewer: Option<string>,
    reviewStatus: Option<ReviewStatus>, verificationStatus: Option<VerificationStatus>,
    implementationCommit: Option<string>, clearImplementationCommit: bool,
    expectedBaseHead: Option<string>, addEvidence: seq<string>, addReviewEvidence: seq<string>,
    handoff: Option<string>, addBlockers: seq<Blocker>, resolveBlockers: seq<Resolution>,
    addGlobalBlockers: seq<Blocker>, resolveGlobalBlockers: seq<Resolution>)

  datatype Error =
    | UnknownStage | IllegalTransition | RoleNotAuthorized | NotUniquelyEligible
    | MissingExpectedBaseHead | UnresolvedBlocker | PrerequisiteNotApproved
    | ReviewerEqualsImplementer | MissingImplementationCommit | MissingBlocker
    | InvalidSha | InvalidBlocker | UnknownBlockerCode | UnknownGlobalBlockerCode

  /** Python truthiness of an optional string. */
  predicate Given(o: Option<string>) {
    o.Some? && o.value != ""
  }

  // ---- The legal transition table ----

  /** The roles of the one table row for this edge; None when there is no row. */
  function AllowedRoles(from: Status, to: Status): Option<set<Role>> {
    match (from, to)
    case (NotStarted, InProgress) => Some({Implementer})
    case (InProgress, Implemented) => Some({Implementer})
    case (Implemented, Verified) => Some({Implementer})
    case (InProgress, Blocked) => Some(EveryRole())
    case (Implemented, Blocked) => Some(EveryRole())
    case (Verified, Blocked) => Some(EveryRole())
    case (Verified, ReviewApproved) => Some({Reviewer})
    case (Verified, ReviewRejected) => Some({Reviewer})
    case (ReviewRejected, InProgress) => Some({Remediator})
    case (Blocked, InProgress) => Some(EveryRole())
    case (NotStarted, Superseded) => Some({HumanOwner, Architect})
    case (InProgress, Superseded) => Some({HumanOwner, Architect})
    case (Blocked, Superseded) => Some({HumanOwner, Architect})
    case (ReviewRejected, Superseded) => Some({HumanOwner, Architect})
    case _ => None
  }

  function EveryRole(): set<Role> {
    {Architect, Implementer, Reviewer, Remediator, Migrator, ReleaseManager, HumanOwner}
  }

  function CheckTransitionLegal(from: Status, to: Status, role: Role): Option<Error> {
    match AllowedRoles(from, to)
    case None => Some(IllegalTransition)
    case Some(roles) => if role in roles then None else Some(RoleNotAuthorized)
  }

  // ---- The scheduler ----

  predicate IsOpen(b: Blocker) {
    b.resolution.None?
  }

  predicate HasOpenGlobalBlocker(s: State) {
    exists b :: b in s.blockers && IsOpen(b)
  }

  predicate IsApproved(stages: map<string, Stage>, id: string) {
    id in stages && stages[id].status == ReviewApproved
  }

  predicate PrerequisitesApproved(stages: map<string, Stage>, id: string)
    requires id in stages
  {
    forall p :: p in stages[id].prerequisites ==> IsApproved(stages, p)
  }

  predicate IsEligible(stages: map<string, Stage>, id: string) {
    id in stages && !IsApproved(stages, id) && PrerequisitesApproved(stages, id)
  }

  /** The first eligible entry of the delivery order, global blockers ignored. */
  function FirstEligible(stages: map<string, Stage>, order: seq<string>): (r: Option<string>)
    ensures r.Some? ==> r.value in order && IsEligible(stages, r.value)
    ensures r.None? ==> forall id :: id in order ==> !IsEligible(stages, id)
  {
    if order == [] then None
    else if IsEligible(stages, order[0]) then Some(order[0])
    else FirstEligible(stages, order[1..])
  }

  /** Where the one found stands; no entry in front of it is eligible. */
  lemma {:induction false} PlaceOfFirst(stages: map<string, Stage>, order: seq<string>) returns (i: nat)
    requires FirstEligible(stages, order).Some?
    ensures i < |order| && FirstEligible(stages, order) == Some(order[i]) && IsEligible(stages, order[i])
    ensures forall j :: 0 <= j < i ==> !IsEligible(stages, order[j])
  {
    i := 0;
    if !IsEligible(stages, order[0]) {
      i := PlaceOfFirst(stages, order[1..]);
      i := i + 1;
      assert forall j :: 0 < j < i ==> order[j] == order[1..][j - 1];
    }
  }

  function NextEligible(s: State): Option<string> {
    if HasOpenGlobalBlocker(s) then None else FirstEligible(s.stages, s.deliveryOrder)
  }

  method RecomputeNextEligible(s: State) returns (r: Option<string>)
    ensures r == NextEligible(s)
  {
    if HasOpenGlobalBlocker(s) {
      return None;
    }
    var i := 0;
    while i < |s.deliveryOrder|
      invariant 0 <= i <= |s.deliveryOrder|
      invariant FirstEligible(s.stages, s.deliveryOrder) == FirstEligible(s.stages, s.deliveryOrder[i..])
    {
      if IsEligible(s.stages, s.deliveryOrder[i]) {
        return Some(s.deliveryOrder[i]);
      }
      assert s.deliveryOrder[i..][1..] == s.deliveryOrder[i + 1..];
      i := i + 1;
    }
    r := None;
  }

  // ---- Editing lists ----

  /** Appends each addition that is not yet present. */
  function AddMissing(prior: seq<string>, additions: seq<string>): (r: seq<string>)
    ensures prior <= r
    ensures forall x :: x in r <==> x in prior || x in additions
  {
    if additions == [] then prior
    else
      var last := |additions| - 1;
      var before := AddMissing(prior, additions[..last]);
      if additions[last] in before then before else before + [additions[last]]
  }

  /** The text of the last resolution for a code. */
  function ResolutionOf(code: string, rs: seq<Resolution>): (r: Option<string>)
    ensures r.Some? <==> exists x :: x in rs && x.code == code
  {
    if rs == [] then None
    else
      var last := |rs| - 1;
      if rs[last].code == code then Some(rs[last].text) else ResolutionOf(code, rs[..last])
  }

  lemma {:induction false} LastResolutionCounts(code: string, rs: seq<Resolution>, i: nat)
    requires i < |rs| && rs[i].code == code && forall j :: i < j < |rs| ==> rs[j].code != code
    ensures ResolutionOf(code, rs) == Some(rs[i].text)
  {
    if i < |rs| - 1 {
      LastResolutionCounts(code, rs[..|rs| - 1], i);
    }
  }

  /** Resolutions are given by code, so a blocker without one is never resolved. */
  function Resolved(b: Blocker, rs: seq<Resolution>): Blocker {
    var text := if b.code.Some? then ResolutionOf(b.code.value, rs) else None;
    if text.Some? then b.(resolution := text) else b
  }

  function ResolveAll(bs: seq<Blocker>, rs: seq<Resolution>): seq<Blocker> {
    seq(|bs|, i requires 0 <= i < |bs| => Resolved(bs[i], rs))
  }

  predicate HasCode(bs: seq<Blocker>, code: string) {
    exists b :: b in bs && b.code == Some(code)
  }

  /** Full-match of a pattern whose dollar anchor also accepts one final line feed. */
  function WithoutFinalLineFeed(s: string): string {
    if s != "" && s[|s| - 1] == '\n' then s[..|s| - 1] else s
  }

  predicate IsSha(s: string) {
    var body := WithoutFinalLineFeed(s);
    40 <= |body| <= 64 && forall c :: c in body ==> '0' <= c <= '9' || 'a' <= c <= 'f'
  }

  predicate IsBlockerCode(s: string) {
    var body := WithoutFinalLineFeed(s);
    && |body| >= 2
    && 'A' <= body[0] <= 'Z'
    && forall c :: c in body ==> 'A' <= c <= 'Z' || '0' <= c <= '9' || c == '_'
  }

  predicate IsBlockerRecord(b: Blocker) {
    (b.code.Some? ==> IsBlockerCode(b.code.value)) && b.summary != "" && b.owner != ""
  }

  method AppendMissing(prior: seq<string>, additions: seq<string>) returns (r: seq<string>)
    ensures r == AddMissing(prior, additions)
  {
    r := prior;
    var i := 0;
    while i < |additions|
      invariant 0 <= i <= |additions| && r == AddMissing(prior, additions[..i])
    {
      assert additions[..i + 1][..i] == additions[..i];
      if additions[i] !in r {
        r := r + [additions[i]];
      }
      i := i + 1;
    }
    assert additions[..|additions|] == additions;
  }

  method AppendBlockers(prior: seq<Blocker>, additions: seq<Blocker>)
    returns (r: Result<seq<Blocker>, Error>)
    ensures r == if exists b :: b in additions && !IsBlockerRecord(b) then Err(InvalidBlocker)
                 else Ok(prior + additions)
  {
    var blockers := prior;
    var i := 0;
    while i < |additions|
      invariant 0 <= i <= |additions| && blockers == prior + additions[..i]
      invariant forall k :: 0 <= k < i ==> IsBlockerRecord(additions[k])
    {
      if !IsBlockerRecord(additions[i]) {
        return Err(InvalidBlocker);
      }
      blockers := blockers + [additions[i]];
      i := i + 1;
    }
    assert blockers == prior + additions;
    r := Ok(blockers);
  }

  /** Writes one resolution into every blocker record with its code. */
  method ResolveCode(prior: seq<Blocker>, x: Resolution) returns (blockers: seq<Blocker>)
    ensures |blockers| == |prior|
    ensures forall k :: 0 <= k < |prior| ==>
      blockers[k] == if prior[k].code == Some(x.code) then prior[k].(resolution := Some(x.text)) else prior[k]
  {
    blockers := prior;
    var j := 0;
    while j < |blockers|
      invariant 0 <= j <= |blockers| == |prior|
      invariant forall k :: 0 <= k < j ==>
        blockers[k] == if prior[k].code == Some(x.code) then prior[k].(resolution := Some(x.text)) else prior[k]
      invariant forall k :: j <= k < |blockers| ==> blockers[k] == prior[k]
    {
      if blockers[j].code == Some(x.code) {
        blockers := blockers[j := blockers[j].(resolution := Some(x.text))];
      }
      j := j + 1;
    }
  }

  method ResolveCodes(prior: seq<Blocker>, rs: seq<Resolution>, unknown: Error)
    returns (r: Result<seq<Blocker>, Error>)
    ensures r == if exists x :: x in rs && !HasCode(prior, x.code) then Err(unknown)
                 else Ok(ResolveAll(prior, rs))
  {
    var blockers := prior;
    var i := 0;
    while i < |rs|
      invariant 0 <= i <= |rs| && blockers == ResolveAll(prior, rs[..i])
      invariant forall k :: 0 <= k < i ==> HasCode(prior, rs[k].code)
    {
      assert rs[..i + 1][..i] == rs[..i];
      ResolvingKeepsCodes(prior, rs[..i], rs[i].code);
      if !HasCode(blockers, rs[i].code) {
        return Err(unknown);
      }
      blockers := ResolveCode(blockers, rs[i]);
      i := i + 1;
    }
    assert rs[..|rs|] == rs;
    r := Ok(blockers);
  }

  /** Appends new blocker records and then resolves by code, failing on the first bad item. */
  method EditBlockers(prior: seq<Blocker>, additions: seq<Blocker>, rs: seq<Resolution>, unknown: Error)
    returns (r: Result<seq<Blocker>, Error>)
    ensures r == match BlockerRejection(prior, additions, rs, unknown)
                 case Some(e) => Err(e)
                 case None => Ok(ResolveAll(prior + additions, rs))
  {
    r := AppendBlockers(prior, additions);
    if r.Ok? {
      r := ResolveCodes(r.value, rs, unknown);
    }
  }

  function BlockerRejection(
    prior: seq<Blocker>, additions: seq<Blocker>, rs: seq<Resolution>, unknown: Error
  ): Option<Error> {
    if exists b :: b in additions && !IsBlockerRecord(b) then Some(InvalidBlocker)
    else if exists x :: x in rs && !HasCode(prior + additions, x.code) then Some(unknown)
    else None
  }

  lemma ResolvingKeepsCodes(bs: seq<Blocker>, rs: seq<Resolution>, code: string)
    ensures HasCode(ResolveAll(bs, rs), code) <==> HasCode(bs, code)
  {
    forall i | 0 <= i < |bs| ensures ResolveAll(bs, rs)[i].code == bs[i].code {}
    if b :| b in bs && b.code == Some(code) {
      var i :| 0 <= i < |bs| && bs[i] == b;
      assert ResolveAll(bs, rs)[i] in ResolveAll(bs, rs);
    }
    if b :| b in ResolveAll(bs, rs) && b.code == Some(code) {
      var i :| 0 <= i < |bs| && ResolveAll(bs, rs)[i] == b;
      assert bs[i] in bs;
    }
  }

  // ---- The writer ----

  function EffectiveReviewer(r: Request): string {
    if r.reviewer.Some? then r.reviewer.value else r.actor
  }

  /** The checks made before the document is copied, in their order. */
  function GuardRejection(s: State, r: Request): Option<Error> {
    if r.stageId !in s.stages then Some(UnknownStage)
    else
      var prior := s.stages[r.stageId];
      var illegal := CheckTransitionLegal(prior.status, r.to, r.role);
      if illegal.Some? then illegal
      else if prior.status == NotStarted && r.to == InProgress && NextEligible(s) != Some(r.stageId) then
        Some(NotUniquelyEligible)
      else if prior.status == NotStarted && r.to == InProgress && !Given(r.expectedBaseHead) then
        Some(MissingExpectedBaseHead)
      else if prior.status == Blocked && r.to == InProgress && !BlockersResolved(prior.blockers, r.resolveBlockers) then
        Some(UnresolvedBlocker)
      else if prior.status == Blocked && r.to == InProgress && !PrerequisitesApproved(s.stages, r.stageId) then
        Some(PrerequisiteNotApproved)
      else if r.to in {ReviewApproved, ReviewRejected} && prior.implementer == Some(EffectiveReviewer(r)) then
        Some(ReviewerEqualsImplementer)
      else if r.to == ReviewApproved &&
              !Given(if r.implementationCommit.Some? then r.implementationCommit else prior.implementationCommit) then
        Some(MissingImplementationCommit)
      else if r.to == Blocked && r.addBlockers == [] && prior.blockers == [] then Some(MissingBlocker)
      else None
  }

  predicate BlockersResolved(bs: seq<Blocker>, rs: seq<Resolution>) {
    forall b :: b in bs && IsOpen(b) ==> exists x :: x in rs && Some(x.code) == b.code
  }

  function ShaRejection(r: Request): Option<Error> {
    if !r.clearImplementationCommit && r.implementationCommit.Some? && !IsSha(r.implementationCommit.value) then
      Some(InvalidSha)
    else if r.expectedBaseHead.Some? && !IsSha(r.expectedBaseHead.value) then Some(InvalidSha)
    else None
  }

  /** The checks made while the copy is edited, in their order. */
  function EditRejection(s: State, r: Request): Option<Error>
    requires r.stageId in s.stages
  {
    var sha := ShaRejection(r);
    if sha.Some? then sha
    else
      var local := BlockerRejection(
        s.stages[r.stageId].blockers, r.addBlockers, r.resolveBlockers, UnknownBlockerCode);
      if local.Some? then local
      else BlockerRejection(s.blockers, r.addGlobalBlockers, r.resolveGlobalBlockers, UnknownGlobalBlockerCode)
  }

  function Rejection(s: State, r: Request): Option<Error> {
    var guard := GuardRejection(s, r);
    if guard.Some? then guard else EditRejection(s, r)
  }

  function NewStage(prior: Stage, r: Request): Stage {
    prior.(
      status := r.to,
      implementer :=
        if r.implementer.Some? then r.implementer
        else if r.to == InProgress && prior.status in {NotStarted, ReviewRejected} then Some(r.actor)
        else prior.implementer,
      reviewer :=
        if r.to in {ReviewApproved, ReviewRejected} then Some(EffectiveReviewer(r))
        else if r.reviewer.Some? then r.reviewer else prior.reviewer,
      reviewStatus :=
        if r.reviewStatus.Some? then r.reviewStatus.value
        else if r.to == ReviewApproved then Approved
        else if r.to == ReviewRejected then Rejected else prior.reviewStatus,
      verificationStatus :=
        if r.verificationStatus.Some? then r.verificationStatus.value else prior.verificationStatus,
      implementationCommit :=
        if r.clearImplementationCommit then None
        else if r.implementationCommit.Some? then r.implementationCommit else prior.implementationCommit,
      expectedBaseHead :=
        if r.expectedBaseHead.Some? then r.expectedBaseHead else prior.expectedBaseHead,
      evidence := AddMissing(prior.evidence, r.addEvidence),
      reviewEvidence := AddMissing(prior.reviewEvidence, r.addReviewEvidence),
      handoff := if r.handoff.Some? then r.handoff else prior.handoff,
      blockers := ResolveAll(prior.blockers + r.addBlockers, r.resolveBlockers))
  }

  /** One more than the largest sequence number, or 1. */
  function NextSequence(history: seq<Entry>): (n: int)
    ensures forall e :: e in history ==> e.sequence < n
    ensures history != [] ==> exists e :: e in history && e.sequence == n - 1
  {
    if history == [] then 1
    else if |history| == 1 then history[0].sequence + 1
    else
      var last := |history| - 1;
      var before := NextSequence(history[..last]);
      if history[last].sequence < before then before else history[last].sequence + 1
  }

  function Applied(s: State, r: Request): State
    requires r.stageId in s.stages
  {
    var prior := s.stages[r.stageId];
    var entry := Entry(
      NextSequence(s.history), r.at, r.actor, r.role, r.action, At(prior.status), At(r.to), r.evidence);
    var edited := s.(
      stages := s.stages[r.stageId := NewStage(prior, r)],
      blockers := ResolveAll(s.blockers + r.addGlobalBlockers, r.resolveGlobalBlockers),
      history := s.history + [entry]);
    var next := NextEligible(edited);
    edited.(
      nextEligible := next,
      candidateNext := next,
      currentStage := if next.Some? then next else s.currentStage,
      lastUpdated := Stamp(r.at, r.actor, r.role, r.reason))
  }

  /** Edits the status, the people and the review disposition. */
  method EditDisposition(prior: Stage, r: Request) returns (stage: Stage)
    ensures var next := NewStage(prior, r);
            stage == prior.(status := next.status, implementer := next.implementer,
                            reviewer := next.reviewer, reviewStatus := next.reviewStatus)
  {
    stage := prior.(status := r.to);
    if r.implementer.Some? {
      stage := stage.(implementer := r.implementer);
    } else if prior.status == NotStarted && r.to == InProgress {
      stage := stage.(implementer := Some(r.actor));
    } else if prior.status == ReviewRejected && r.to == InProgress {
      stage := stage.(implementer := Some(r.actor));
    }
    if r.to in {ReviewApproved, ReviewRejected} {
      stage := stage.(reviewer := Some(EffectiveReviewer(r)));
    } else if r.reviewer.Some? {
      stage := stage.(reviewer := r.reviewer);
    }
    if r.reviewStatus.Some? {
      stage := stage.(reviewStatus := r.reviewStatus.value);
    } else if r.to == ReviewApproved {
      stage := stage.(reviewStatus := Approved);
    } else if r.to == ReviewRejected {
      stage := stage.(reviewStatus := Rejected);
    }
  }

  /** Edits the recorded results, failing on the first malformed commit identifier. */
  method EditRecords(prior: Stage, r: Request) returns (result: Result<Stage, Error>)
    ensures result == match ShaRejection(r)
                      case Some(e) => Err(e)
                      case None =>
                        var next := NewStage(prior, r);
                        Ok(prior.(verificationStatus := next.verificationStatus,
                                  implementationCommit := next.implementationCommit,
                                  expectedBaseHead := next.expectedBaseHead, evidence := next.evidence,
                                  reviewEvidence := next.reviewEvidence, handoff := next.handoff))
  {
    var stage := prior;
    if r.verificationStatus.Some? {
      stage := stage.(verificationStatus := r.verificationStatus.value);
    }
    if r.clearImplementationCommit {
      stage := stage.(implementationCommit := None);
    } else if r.implementationCommit.Some? {
      if !IsSha(r.implementationCommit.value) {
        return Err(InvalidSha);
      }
      stage := stage.(implementationCommit := r.implementationCommit);
    }
    if r.expectedBaseHead.Some? {
      if !IsSha(r.expectedBaseHead.value) {
        return Err(InvalidSha);
      }
      stage := stage.(expectedBaseHead := r.expectedBaseHead);
    }
    var evidence := AppendMissing(stage.evidence, r.addEvidence);
    var reviewEvidence := AppendMissing(stage.reviewEvidence, r.addReviewEvidence);
    stage := stage.(evidence := evidence, reviewEvidence := reviewEvidence);
    if r.handoff.Some? {
      stage := stage.(handoff := r.handoff);
    }
    result := Ok(stage);
  }

  method ApplyTransition(s: State, r: Request) returns (result: Result<State, Error>)
    ensures result == match Rejection(s, r) case Some(e) => Err(e) case None => Ok(Applied(s, r))
  {
    var guard := GuardRejection(s, r);
    if guard.Some? {
      return Err(guard.value);
    }
    var from := s.stages[r.stageId].status;
    var disposed := EditDisposition(s.stages[r.stageId], r);
    var recorded := EditRecords(disposed, r);
    if recorded.Err? {
      return Err(recorded.error);
    }
    var stage := recorded.value;
    var local := EditBlockers(stage.blockers, r.addBlockers, r.resolveBlockers, UnknownBlockerCode);
    if local.Err? {
      return Err(local.error);
    }
    stage := stage.(blockers := local.value);
    var globals := EditBlockers(
      s.blockers, r.addGlobalBlockers, r.resolveGlobalBlockers, UnknownGlobalBlockerCode);
    if globals.Err? {
      return Err(globals.error);
    }
    var entry := Entry(NextSequence(s.history), r.at, r.actor, r.role, r.action, At(from), At(r.to), r.evidence);
    var state := s.(
      stages := s.stages[r.stageId := stage], blockers := globals.value, history := s.history + [entry]);
    var next := RecomputeNextEligible(state);
    state := state.(nextEligible := next, candidateNext := next);
    if next.Some? {
      state := state.(currentStage := next);
    }
    state := state.(lastUpdated := Stamp(r.at, r.actor, r.role, r.reason));
    result := Ok(state);
  }
}
