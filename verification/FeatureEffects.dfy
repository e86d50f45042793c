/**
 What the writer of scripts/orchestration_feature_state.py refuses and what it records, said request
 by request and field by field: the legal table as its rules, every refusal by its own condition, every
 field of the touched stage, and every history entry of a run.
 */
module FeatureEffects {
  import opened Support
  import opened FeatureState
  import opened FeatureValidation
  import opened FeatureRuns
  import ActionRuns

  // ---- The legal table ----

  /** A row of the table; no roles means that any may act. */
  datatype Rule = Rule(froms: set<Status>, to: Status, roles: Option<set<Role>>)

  const LEGAL_TRANSITIONS: seq<Rule> := [
    Rule({NotStarted}, InProgress, Some({Implementer})),
    Rule({InProgress}, Implemented, Some({Implementer})),
    Rule({Implemented}, Verified, Some({Implementer})),
    Rule({InProgress, Implemented, Verified}, Blocked, None),
    Rule({Verified}, ReviewApproved, Some({Reviewer})),
    Rule({Verified}, ReviewRejected, Some({Reviewer})),
    Rule({ReviewRejected}, InProgress, Some({Remediator})),
    Rule({Blocked}, InProgress, None),
    Rule({NotStarted, InProgress, Blocked, ReviewRejected}, Superseded, Some({HumanOwner, Architect}))]

  predicate Covers(rule: Rule, from: Status, to: Status) {
    rule.to == to && from in rule.froms
  }

  predicate Permits(rule: Rule, role: Role) {
    rule.roles.Some? ==> role in rule.roles.value
  }

  /** The scan of the table: no row, no row for the role, or a row for it. */
  method CheckTable(from: Status, to: Status, role: Role) returns (r: Option<Error>)
    ensures r == CheckTransitionLegal(from, to, role)
    ensures r == Some(IllegalTransition) <==>
      forall i :: 0 <= i < |LEGAL_TRANSITIONS| ==> !Covers(LEGAL_TRANSITIONS[i], from, to)
    ensures r == None <==> exists i ::
      0 <= i < |LEGAL_TRANSITIONS| && Covers(LEGAL_TRANSITIONS[i], from, to) && Permits(LEGAL_TRANSITIONS[i], role)
  {
    TableIsTheTable(from, to, role);
    var covered := false;
    for i := 0 to |LEGAL_TRANSITIONS|
      invariant covered <==> exists k :: 0 <= k < i && Covers(LEGAL_TRANSITIONS[k], from, to)
      invariant forall k :: 0 <= k < i ==>
        !(Covers(LEGAL_TRANSITIONS[k], from, to) && Permits(LEGAL_TRANSITIONS[k], role))
    {
      if Covers(LEGAL_TRANSITIONS[i], from, to) {
        covered := true;
        if Permits(LEGAL_TRANSITIONS[i], role) {
          return None;
        }
      }
    }
    r := if covered then Some(RoleNotAuthorized) else Some(IllegalTransition);
  }

  ghost predicate IsCovered(from: Status, to: Status) {
    exists i :: 0 <= i < |LEGAL_TRANSITIONS| && Covers(LEGAL_TRANSITIONS[i], from, to)
  }

  ghost predicate IsPermitted(from: Status, to: Status, role: Role) {
    exists i ::
      0 <= i < |LEGAL_TRANSITIONS| && Covers(LEGAL_TRANSITIONS[i], from, to) && Permits(LEGAL_TRANSITIONS[i], role)
  }

  lemma OneRowForAnEdge(from: Status, to: Status)
    ensures forall i :: 0 <= i < |LEGAL_TRANSITIONS| ==>
      (Covers(LEGAL_TRANSITIONS[i], from, to) <==> i == RowOf(from, to))
  {
  }

  /** The table by edges, as the other modules use it, is the table by rows. */
  lemma TableIsTheTable(from: Status, to: Status, role: Role)
    ensures CheckTransitionLegal(from, to, role) ==
      if !IsCovered(from, to) then Some(IllegalTransition)
      else if !IsPermitted(from, to, role) then Some(RoleNotAuthorized)
      else None
  {
    OneRowForAnEdge(from, to);
    RowRoles(from, to);
    var n := RowOf(from, to);
    if n < |LEGAL_TRANSITIONS| {
      assert Covers(LEGAL_TRANSITIONS[n], from, to);
    }
  }

  lemma RowRoles(from: Status, to: Status)
    ensures AllowedRoles(from, to) ==
      if RowOf(from, to) >= |LEGAL_TRANSITIONS| then None
      else match LEGAL_TRANSITIONS[RowOf(from, to)].roles
        case Some(roles) => Some(roles)
        case None => Some(EveryRole())
    ensures forall role: Role :: role in EveryRole()
  {
    forall role: Role ensures role in EveryRole() {
      match role
      case Architect =>
      case Implementer =>
      case Reviewer =>
      case Remediator =>
      case Migrator =>
      case ReleaseManager =>
      case HumanOwner =>
    }
  }

  /** The one row of an edge, nine where there is none. */
  function RowOf(from: Status, to: Status): nat {
    match to
    case InProgress =>
      if from == NotStarted then 0 else if from == ReviewRejected then 6 else if from == Blocked then 7 else 9
    case Implemented => if from == InProgress then 1 else 9
    case Verified => if from == Implemented then 2 else 9
    case Blocked => if from in {InProgress, Implemented, Verified} then 3 else 9
    case ReviewApproved => if from == Verified then 4 else 9
    case ReviewRejected => if from == Verified then 5 else 9
    case Superseded => if from in {NotStarted, InProgress, Blocked, ReviewRejected} then 8 else 9
    case NotStarted => 9
  }

  // ---- What is refused ----

  /** The refusals in the order in which they are found; a blocker is checked on the stage, then globally. */
  const REFUSALS: seq<Error> := [
    UnknownStage, IllegalTransition, RoleNotAuthorized, NotUniquelyEligible, MissingExpectedBaseHead,
    UnresolvedBlocker, PrerequisiteNotApproved, ReviewerEqualsImplementer, MissingImplementationCommit,
    MissingBlocker, InvalidSha, InvalidBlocker, UnknownBlockerCode, InvalidBlocker, UnknownGlobalBlockerCode]

  /** The scheduler would start another stage, or none. */
  ghost predicate IsNotNext(s: State, id: string) {
    || (exists b :: b in s.blockers && b.resolution.None?)
    || forall i :: 0 <= i < |s.deliveryOrder| && s.deliveryOrder[i] == id ==>
         || !IsEligible(s.stages, id)
         || exists j :: 0 <= j < i && s.deliveryOrder[j] != id && IsEligible(s.stages, s.deliveryOrder[j])
  }

  predicate Malformed(b: Blocker) {
    !IsBlockerRecord(b)
  }

  predicate NamesNone(bs: seq<Blocker>, x: Resolution) {
    forall b :: b in bs ==> b.code != Some(x.code)
  }

  /** The ground of each refusal, whatever the others say. */
  ghost predicate Grounds(s: State, r: Request, n: nat) {
    if n == 0 then r.stageId !in s.stages
    else
      r.stageId in s.stages &&
      var prior := s.stages[r.stageId];
      var starts := prior.status == NotStarted && r.to == InProgress;
      var resumes := prior.status == Blocked && r.to == InProgress;
      match n
      case 1 => !IsCovered(prior.status, r.to)
      case 2 => !IsPermitted(prior.status, r.to, r.role)
      case 3 => starts && IsNotNext(s, r.stageId)
      case 4 => starts && r.expectedBaseHead in {None, Some("")}
      case 5 =>
        resumes && exists b ::
          b in prior.blockers && b.resolution.None? && forall x :: x in r.resolveBlockers ==> Some(x.code) != b.code
      case 6 =>
        resumes && exists p ::
          p in prior.prerequisites && !(p in s.stages && s.stages[p].status == ReviewApproved)
      case 7 =>
        && r.to in {ReviewApproved, ReviewRejected} && prior.implementer.Some?
        && (if r.reviewer.Some? then r.reviewer == prior.implementer else r.actor == prior.implementer.value)
      case 8 =>
        && r.to == ReviewApproved
        && (if r.implementationCommit.Some? then r.implementationCommit.value == ""
            else prior.implementationCommit in {None, Some("")})
      case 9 => r.to == Blocked && r.addBlockers == [] && prior.blockers == []
      case 10 =>
        || (!r.clearImplementationCommit && r.implementationCommit.Some? && !IsSha(r.implementationCommit.value))
        || (r.expectedBaseHead.Some? && !IsSha(r.expectedBaseHead.value))
      case 11 => exists b :: b in r.addBlockers && Malformed(b)
      case 12 => exists x :: x in r.resolveBlockers && NamesNone(prior.blockers + r.addBlockers, x)
      case 13 => exists b :: b in r.addGlobalBlockers && Malformed(b)
      case 14 => exists x :: x in r.resolveGlobalBlockers && NamesNone(s.blockers + r.addGlobalBlockers, x)
      case _ => false
  }

  lemma NextByPlace(s: State, id: string)
    ensures NextEligible(s) != Some(id) <==> IsNotNext(s, id)
  {
    if !(exists b :: b in s.blockers && b.resolution.None?) {
      assert !HasOpenGlobalBlocker(s);
      var next := FirstEligible(s.stages, s.deliveryOrder);
      if next.Some? {
        var i := PlaceOfFirst(s.stages, s.deliveryOrder);
        if next.value != id {
          forall k | 0 <= k < |s.deliveryOrder| && s.deliveryOrder[k] == id
            ensures !IsEligible(s.stages, id)
              || exists j :: 0 <= j < k && s.deliveryOrder[j] != id && IsEligible(s.stages, s.deliveryOrder[j])
          {
            assert k < i ==> !IsEligible(s.stages, s.deliveryOrder[k]);
          }
        }
      } else {
        forall k | 0 <= k < |s.deliveryOrder| && s.deliveryOrder[k] == id ensures !IsEligible(s.stages, id) {}
      }
    } else {
      var b :| b in s.blockers && b.resolution.None?;
      assert b in s.blockers && IsOpen(b);
    }
  }

  lemma CodesByBlocker(bs: seq<Blocker>, rs: seq<Resolution>)
    ensures (exists x :: x in rs && !HasCode(bs, x.code)) <==> exists x :: x in rs && NamesNone(bs, x)
    ensures BlockersResolved(bs, rs) <==>
      !exists b :: b in bs && b.resolution.None? && forall x :: x in rs ==> Some(x.code) != b.code
  {
    forall x | x in rs ensures HasCode(bs, x.code) <==> !NamesNone(bs, x) {}
  }

  /** The refusal for the first ground from n on that holds. */
  ghost function FirstRefusal(s: State, r: Request, n: nat): Option<Error>
    decreases |REFUSALS| - n
  {
    if n >= |REFUSALS| then None
    else if Grounds(s, r, n) then Some(REFUSALS[n])
    else FirstRefusal(s, r, n + 1)
  }

  lemma {:induction false} FirstGroundDecides(s: State, r: Request, k: nat)
    requires k <= |REFUSALS|
    ensures FirstRefusal(s, r, k).None? <==> forall n :: k <= n < |REFUSALS| ==> !Grounds(s, r, n)
    ensures forall n :: k <= n < |REFUSALS| && Grounds(s, r, n) && (forall m :: k <= m < n ==> !Grounds(s, r, m)) ==>
      FirstRefusal(s, r, k) == Some(REFUSALS[n])
    decreases |REFUSALS| - k
  {
    if k < |REFUSALS| && !Grounds(s, r, k) {
      FirstGroundDecides(s, r, k + 1);
    }
  }

  /** The grounds found while the copy is edited. */
  lemma EditGrounds(s: State, r: Request)
    requires r.stageId in s.stages
    ensures EditRejection(s, r) == FirstRefusal(s, r, 10)
  {
    CodesByBlocker(s.stages[r.stageId].blockers + r.addBlockers, r.resolveBlockers);
    CodesByBlocker(s.blockers + r.addGlobalBlockers, r.resolveGlobalBlockers);
    assert Grounds(s, r, 10) <==> ShaRejection(r).Some?;
    assert FirstRefusal(s, r, 15) == None;
    assert FirstRefusal(s, r, 13) == BlockerRejection(
      s.blockers, r.addGlobalBlockers, r.resolveGlobalBlockers, UnknownGlobalBlockerCode);
    assert FirstRefusal(s, r, 11) ==
      var local := BlockerRejection(s.stages[r.stageId].blockers, r.addBlockers, r.resolveBlockers, UnknownBlockerCode);
      if local.Some? then local else FirstRefusal(s, r, 13);
  }

  /** The grounds found before it is copied, the blockers and prerequisites of a resumption among them. */
  lemma GuardGrounds(s: State, r: Request)
    requires r.stageId in s.stages
    ensures FirstRefusal(s, r, 0) ==
      if GuardRejection(s, r).Some? then GuardRejection(s, r) else FirstRefusal(s, r, 10)
  {
    var prior := s.stages[r.stageId];
    TableIsTheTable(prior.status, r.to, r.role);
    NextByPlace(s, r.stageId);
    CodesByBlocker(prior.blockers, r.resolveBlockers);
    assert Grounds(s, r, 3) <==> prior.status == NotStarted && r.to == InProgress && NextEligible(s) != Some(r.stageId);
    assert Grounds(s, r, 4) <==> prior.status == NotStarted && r.to == InProgress && !Given(r.expectedBaseHead);
    assert Grounds(s, r, 5) <==>
      prior.status == Blocked && r.to == InProgress && !BlockersResolved(prior.blockers, r.resolveBlockers);
    assert Grounds(s, r, 6) <==>
      prior.status == Blocked && r.to == InProgress && !PrerequisitesApproved(s.stages, r.stageId);
    assert Grounds(s, r, 7) <==>
      r.to in {ReviewApproved, ReviewRejected} && prior.implementer == Some(EffectiveReviewer(r));
    LaterGuards(s, r);
    assert FirstRefusal(s, r, 3) == if Grounds(s, r, 3) then Some(NotUniquelyEligible) else FirstRefusal(s, r, 4);
    assert FirstRefusal(s, r, 4) == if Grounds(s, r, 4) then Some(MissingExpectedBaseHead) else FirstRefusal(s, r, 5);
    assert FirstRefusal(s, r, 5) == if Grounds(s, r, 5) then Some(UnresolvedBlocker) else FirstRefusal(s, r, 6);
    assert FirstRefusal(s, r, 6) == if Grounds(s, r, 6) then Some(PrerequisiteNotApproved) else FirstRefusal(s, r, 7);
    assert FirstRefusal(s, r, 0) == FirstRefusal(s, r, 1);
    assert FirstRefusal(s, r, 1) == if Grounds(s, r, 1) then Some(IllegalTransition) else FirstRefusal(s, r, 2);
    assert FirstRefusal(s, r, 2) == if Grounds(s, r, 2) then Some(RoleNotAuthorized) else FirstRefusal(s, r, 3);
  }

  lemma LaterGuards(s: State, r: Request)
    requires r.stageId in s.stages
    ensures FirstRefusal(s, r, 7) ==
      var prior := s.stages[r.stageId];
      if r.to in {ReviewApproved, ReviewRejected} && prior.implementer == Some(EffectiveReviewer(r)) then
        Some(ReviewerEqualsImplementer)
      else if r.to == ReviewApproved &&
              !Given(if r.implementationCommit.Some? then r.implementationCommit else prior.implementationCommit) then
        Some(MissingImplementationCommit)
      else if r.to == Blocked && r.addBlockers == [] && prior.blockers == [] then Some(MissingBlocker)
      else FirstRefusal(s, r, 10)
  {
    assert FirstRefusal(s, r, 9) == if Grounds(s, r, 9) then Some(MissingBlocker) else FirstRefusal(s, r, 10);
    assert FirstRefusal(s, r, 8) ==
      if Grounds(s, r, 8) then Some(MissingImplementationCommit) else FirstRefusal(s, r, 9);
    assert FirstRefusal(s, r, 7) == if Grounds(s, r, 7) then Some(ReviewerEqualsImplementer) else FirstRefusal(s, r, 8);
  }

  /** The first ground that holds is the answer, and none holding is acceptance. */
  lemma RefusedExactly(s: State, r: Request)
    ensures Rejection(s, r).None? <==> forall n :: 0 <= n < |REFUSALS| ==> !Grounds(s, r, n)
    ensures forall n :: 0 <= n < |REFUSALS| && Grounds(s, r, n) && (forall m :: 0 <= m < n ==> !Grounds(s, r, m)) ==>
      Rejection(s, r) == Some(REFUSALS[n])
  {
    FirstGroundDecides(s, r, 0);
    if r.stageId in s.stages {
      EditGrounds(s, r);
      GuardGrounds(s, r);
    }
  }

  lemma HexDigits(n: nat, c: char)
    requires c != '\n'
    ensures IsSha(seq(n, _ => c)) <==> 40 <= n <= 64 && ('0' <= c <= '9' || 'a' <= c <= 'f')
    ensures IsSha(seq(n, _ => c) + ['\n']) <==> 40 <= n <= 64 && ('0' <= c <= '9' || 'a' <= c <= 'f')
    ensures !IsSha(seq(n, _ => c) + ['\n', '\n'])
  {
    var s := seq(n, _ => c);
    assert n > 0 ==> s[0] == c && s[0] in s;
    assert WithoutFinalLineFeed(s) == s;
    assert WithoutFinalLineFeed(s + ['\n']) == s;
    assert WithoutFinalLineFeed(s + ['\n', '\n']) == s + ['\n'];
    assert (s + ['\n'])[n] == '\n' && '\n' in s + ['\n'];
  }

  /** The code pattern at its bounds: two characters, a capital first, and one line feed that may end it. */
  lemma CodesAtTheirBounds()
    ensures IsBlockerCode("A0") && IsBlockerCode("Z_") && IsBlockerCode("A0\n")
    ensures !IsBlockerCode("A") && !IsBlockerCode("A\n") && !IsBlockerCode("0A") && !IsBlockerCode("_A")
    ensures !IsBlockerCode("Aa") && !IsBlockerCode("A0\n\n")
  {
    assert WithoutFinalLineFeed("A0\n") == "A0" && WithoutFinalLineFeed("A\n") == "A";
    assert WithoutFinalLineFeed("A0\n\n") == "A0\n" && "A0\n"[2] == '\n' && '\n' in "A0\n";
    assert WithoutFinalLineFeed("Aa") == "Aa" && "Aa"[1] == 'a' && 'a' in "Aa";
  }

  // ---- What is recorded ----

  /** A given value is recorded, and what is not given stays. */
  predicate Takes<T(==)>(given: Option<T>, prior: Option<T>, next: Option<T>) {
    if given.Some? then next == given else next == prior
  }

  predicate TakesValue<T(==)>(given: Option<T>, prior: T, next: T) {
    if given.Some? then next == given.value else next == prior
  }

  /** next is prior with the new items at its end, each once and only if it was not there. */
  ghost predicate Extended(prior: seq<string>, added: seq<string>, next: seq<string>) {
    && prior <= next && (forall x :: x in next <==> x in prior || x in added)
    && forall i :: |prior| <= i < |next| ==> next[i] !in next[..i]
  }

  /** Every blocker in its place, with the text of the last resolution for its code if there is one. */
  ghost predicate BlockersEdited(prior: seq<Blocker>, added: seq<Blocker>, rs: seq<Resolution>, next: seq<Blocker>) {
    && |next| == |prior| + |added|
    && forall i :: 0 <= i < |next| ==>
         var was := if i < |prior| then prior[i] else added[i - |prior|];
         && next[i] == was.(resolution := next[i].resolution)
         && (if exists x :: x in rs && Some(x.code) == was.code
             then exists k :: 0 <= k < |rs| && Some(rs[k].code) == was.code && next[i].resolution == Some(rs[k].text)
                              && forall j :: k < j < |rs| ==> Some(rs[j].code) != was.code
             else next[i].resolution == was.resolution)
  }

  lemma {:induction false} AppendedOnce(prior: seq<string>, additions: seq<string>)
    ensures Extended(prior, additions, AddMissing(prior, additions))
  {
    if additions != [] {
      var last := |additions| - 1;
      var before, r := AddMissing(prior, additions[..last]), AddMissing(prior, additions);
      AppendedOnce(prior, additions[..last]);
      assert r[..|before|] == before;
      forall i | |prior| <= i < |r| ensures r[i] !in r[..i] {
        if i < |before| {
          assert r[..i] == before[..i];
        }
      }
    }
  }

  lemma {:induction false} LastPlace(code: string, rs: seq<Resolution>) returns (k: nat)
    requires exists x :: x in rs && x.code == code
    ensures k < |rs| && rs[k].code == code && forall j :: k < j < |rs| ==> rs[j].code != code
  {
    k := |rs| - 1;
    if rs[k].code != code {
      k := LastPlace(code, rs[..|rs| - 1]);
    }
  }

  lemma ResolvingEdits(prior: seq<Blocker>, added: seq<Blocker>, rs: seq<Resolution>)
    ensures BlockersEdited(prior, added, rs, ResolveAll(prior + added, rs))
  {
    var next := ResolveAll(prior + added, rs);
    forall i | 0 <= i < |next|
      ensures var was := if i < |prior| then prior[i] else added[i - |prior|];
        && next[i] == was.(resolution := next[i].resolution)
        && (if exists x :: x in rs && Some(x.code) == was.code
            then exists k :: 0 <= k < |rs| && Some(rs[k].code) == was.code && next[i].resolution == Some(rs[k].text)
                             && forall j :: k < j < |rs| ==> Some(rs[j].code) != was.code
            else next[i].resolution == was.resolution)
    {
      var was := if i < |prior| then prior[i] else added[i - |prior|];
      assert next[i] == Resolved(was, rs);
      if was.code.Some? {
        var text := ResolutionOf(was.code.value, rs);
        if text.Some? {
          var k := LastPlace(was.code.value, rs);
          LastResolutionCounts(was.code.value, rs, k);
        }
      }
    }
  }

  /** Who is recorded as having implemented the stage. */
  predicate ImplementerRecorded(prior: Stage, r: Request, next: Stage) {
    if r.implementer.Some? then next.implementer == r.implementer
    else if r.to == InProgress && prior.status in {NotStarted, ReviewRejected} then next.implementer == Some(r.actor)
    else next.implementer == prior.implementer
  }

  /** A review records who made it and, unless the request says otherwise, its outcome. */
  predicate ReviewRecorded(prior: Stage, r: Request, next: Stage) {
    && (if r.to in {ReviewApproved, ReviewRejected}
        then next.reviewer == (if r.reviewer.Some? then r.reviewer else Some(r.actor))
        else Takes(r.reviewer, prior.reviewer, next.reviewer))
    && (r.reviewStatus.None? && r.to == ReviewApproved ==> next.reviewStatus == Approved)
    && (r.reviewStatus.None? && r.to == ReviewRejected ==> next.reviewStatus == Rejected)
    && (r.reviewStatus.Some? || r.to !in {ReviewApproved, ReviewRejected} ==>
          TakesValue(r.reviewStatus, prior.reviewStatus, next.reviewStatus))
  }

  /** Every field of the stage a request touches. */
  ghost predicate StageRecorded(prior: Stage, r: Request, next: Stage) {
    && next.status == r.to && next.title == prior.title && next.prerequisites == prior.prerequisites
    && ImplementerRecorded(prior, r, next) && ReviewRecorded(prior, r, next)
    && TakesValue(r.verificationStatus, prior.verificationStatus, next.verificationStatus)
    && (if r.clearImplementationCommit then next.implementationCommit == None
        else Takes(r.implementationCommit, prior.implementationCommit, next.implementationCommit))
    && Takes(r.expectedBaseHead, prior.expectedBaseHead, next.expectedBaseHead)
    && Takes(r.handoff, prior.handoff, next.handoff)
    && Extended(prior.evidence, r.addEvidence, next.evidence)
    && Extended(prior.reviewEvidence, r.addReviewEvidence, next.reviewEvidence)
    && BlockersEdited(prior.blockers, r.addBlockers, r.resolveBlockers, next.blockers)
  }

  /** The entry a request leaves, by the statuses before and after it. */
  predicate EntryRecords(e: Entry, r: Request, before: State, after: State) {
    && r.stageId in before.stages && r.stageId in after.stages
    && e.from == At(before.stages[r.stageId].status) && e.to == At(after.stages[r.stageId].status)
    && e.at == r.at && e.actor == r.actor && e.role == r.role && e.action == r.action && e.evidence == r.evidence
  }

  /** Everything an accepted request changes, and that it changes nothing else. */
  ghost predicate RequestRecorded(s: State, r: Request, t: State) {
    && r.stageId in s.stages && t.stages.Keys == s.stages.Keys
    && StageRecorded(s.stages[r.stageId], r, t.stages[r.stageId])
    && (forall id :: id in s.stages && id != r.stageId ==> t.stages[id] == s.stages[id])
    && BlockersEdited(s.blockers, r.addGlobalBlockers, r.resolveGlobalBlockers, t.blockers)
    && t.deliveryOrder == s.deliveryOrder
    && |t.history| == |s.history| + 1 && s.history <= t.history
    && EntryRecords(t.history[|s.history|], r, s, t)
    && t.nextEligible == t.candidateNext == NextEligible(t)
    && t.currentStage == (if t.nextEligible.Some? then t.nextEligible else s.currentStage)
    && t.lastUpdated == Stamp(r.at, r.actor, r.role, r.reason)
  }

  lemma StageIsRecorded(prior: Stage, r: Request)
    ensures StageRecorded(prior, r, NewStage(prior, r))
  {
    ResolvingEdits(prior.blockers, r.addBlockers, r.resolveBlockers);
    AppendedOnce(prior.evidence, r.addEvidence);
    AppendedOnce(prior.reviewEvidence, r.addReviewEvidence);
  }

  lemma RequestIsRecorded(s: State, r: Request)
    requires Rejection(s, r).None?
    ensures RequestRecorded(s, r, Applied(s, r))
  {
    StageIsRecorded(s.stages[r.stageId], r);
    ResolvingEdits(s.blockers, r.addGlobalBlockers, r.resolveGlobalBlockers);
    var t := Applied(s, r);
    assert t.stages.Keys == s.stages.Keys;
  }

  // ---- Over a whole run ----

  ghost function Step(): (State, Request) -> Option<State> {
    (s: State, r: Request) => if Accepts(s, r) then Some(Applied(s, r)) else None
  }

  lemma {:induction false} RunsAgree(s: State, rs: seq<Request>)
    ensures CanRun(s, rs) <==> ActionRuns.Runs(Step(), s, rs)
    ensures CanRun(s, rs) ==> After(s, rs) == ActionRuns.After(Step(), s, rs)
    decreases |rs|
  {
    if rs != [] && Accepts(s, rs[0]) {
      RunsAgree(Applied(s, rs[0]), rs[1..]);
    }
  }

  lemma RunTo(s: State, rs: seq<Request>, k: nat)
    requires CanRun(s, rs) && k < |rs|
    ensures CanRun(s, rs[..k]) && Rejection(After(s, rs[..k]), rs[k]).None?
    ensures CanRun(s, rs[..k + 1]) && After(s, rs[..k + 1]) == Applied(After(s, rs[..k]), rs[k])
  {
    RunsAgree(s, rs);
    ActionRuns.RunPrefix(Step(), s, rs, k);
    RunsAgree(s, rs[..k]);
    RunsAgree(s, rs[..k + 1]);
  }

  /**
   Entry k of what a run adds to the history tells the status of the touched stage in the document
   after the first k requests and after one more, and what request k says of itself.
   */
  lemma HistoryTellsTheRun(s: State, rs: seq<Request>, k: nat)
    requires CanRun(s, rs) && k < |rs|
    ensures CanRun(s, rs[..k]) && CanRun(s, rs[..k + 1])
    ensures |After(s, rs).history| == |s.history| + |rs|
    ensures EntryRecords(After(s, rs).history[|s.history| + k], rs[k], After(s, rs[..k]), After(s, rs[..k + 1]))
  {
    RunTo(s, rs, k);
    var before, after := After(s, rs[..k]), After(s, rs[..k + 1]);
    RequestIsRecorded(before, rs[k]);
    HistoryOnlyGrows(s, rs[..k]);
    RunFromTo(s, rs, k + 1);
    HistoryOnlyGrows(s, rs);
    HistoryOnlyGrows(after, rs[k + 1..]);
    assert after.history <= After(s, rs).history;
  }

  /** The rest of a run, from where its first part has led. */
  lemma RunFromTo(s: State, rs: seq<Request>, k: nat)
    requires CanRun(s, rs) && k <= |rs|
    ensures CanRun(s, rs[..k]) && CanRun(After(s, rs[..k]), rs[k..])
    ensures After(After(s, rs[..k]), rs[k..]) == After(s, rs)
  {
    RunsAgree(s, rs);
    ActionRuns.RunSuffix(Step(), s, rs, k);
    RunsAgree(s, rs[..k]);
    RunsAgree(After(s, rs[..k]), rs[k..]);
  }
}
