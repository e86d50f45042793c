/**
 The durable state the workflow drivers work on: the transition table and the attempt ledgers of
 agentos_workflow/orchestrator/engine.py.
 */
module WorkflowSessions {
  import opened Support

  datatype WState =
    | Created | Authorized | PreconditionsChecked | BranchCreated | Implementing | Validating
    | QaRunning | Repairing | ReadyToCommit | Committed | Pushed | PrOpen | AutoMergeEnabled
    | WaitingForChecks | Merged | Closing | Done | Failed | Cancelled

  datatype Edge = Edge(from: WState, to: WState)

  /** The 37 edges of the table. */
  predicate Allowed(from: WState, to: WState) {
    match from
    case Created => to == Authorized || to == Cancelled
    case Authorized => to == PreconditionsChecked || to == Failed || to == Cancelled
    case PreconditionsChecked => to == BranchCreated || to == Failed || to == Cancelled
    case BranchCreated => to == Implementing || to == Failed || to == Cancelled
    case Implementing => to == Validating || to == Failed
    case Validating => to == QaRunning || to == Repairing || to == Failed
    case QaRunning => to == ReadyToCommit || to == Repairing || to == Failed
    case Repairing => to == Validating || to == Failed
    case ReadyToCommit => to == Committed || to == Failed
    case Committed => to == Pushed || to == Failed
    case Pushed => to == PrOpen || to == Failed
    case PrOpen => to == AutoMergeEnabled || to == Failed
    case AutoMergeEnabled => to == WaitingForChecks || to == Failed
    case WaitingForChecks => to == Merged || to == Failed
    case Merged => to == Closing || to == Failed
    case Closing => to == Done || to == Failed
    case Done => false
    case Failed => false
    case Cancelled => false
  }

  /** The place on the way from CREATED to DONE; the three states beside it have none. */
  function Place(s: WState): Option<nat> {
    match s
    case Created => Some(0)
    case Authorized => Some(1)
    case PreconditionsChecked => Some(2)
    case BranchCreated => Some(3)
    case Implementing => Some(4)
    case Validating => Some(5)
    case QaRunning => Some(6)
    case ReadyToCommit => Some(7)
    case Committed => Some(8)
    case Pushed => Some(9)
    case PrOpen => Some(10)
    case AutoMergeEnabled => Some(11)
    case WaitingForChecks => Some(12)
    case Merged => Some(13)
    case Closing => Some(14)
    case Done => Some(15)
    case Repairing => None
    case Failed => None
    case Cancelled => None
  }

  /**
   The table is the way forward, the repair cycle of validation and review, a failure from everywhere
   between CREATED and the end, and a cancellation before anything is implemented.
   */
  lemma TableByKind(from: WState, to: WState)
    ensures Allowed(from, to) <==>
      || (Place(from).Some? && Place(to) == Some(Place(from).value + 1))
      || (to == Repairing && from in {Validating, QaRunning}) || (from == Repairing && to == Validating)
      || (to == Failed && from !in {Created, Done, Failed, Cancelled})
      || (to == Cancelled && Place(from).Some? && Place(from).value < Place(Implementing).value)
  {
  }

  predicate IsTerminalState(s: WState) {
    s in {Done, Failed, Cancelled}
  }

  datatype Actor = Human | Orchestrator | Agent(name: string)

  /** Only the authorization and the four cancellations may be recorded as a human's. */
  predicate ActorAllowed(from: WState, to: WState, actor: Actor) {
    actor == Human ==>
      || (from == Created && to == Authorized)
      || (from in {Created, Authorized, PreconditionsChecked, BranchCreated} && to == Cancelled)
  }

  /** Of the edges of the table a human makes those to AUTHORIZED and CANCELLED. */
  lemma HumansAuthorizeAndCancel(from: WState, to: WState)
    requires Allowed(from, to)
    ensures ActorAllowed(from, to, Human) <==> to in {Authorized, Cancelled}
    ensures to == Authorized <==> from == Created && to != Cancelled
  {
  }

  const ATTEMPT_LIMIT: nat := 3

  /**
   The attempts of one scope: how many completed, whether one more is started only, and how often
   the external operation behind them was ever invoked.
   */
  datatype RawAttempts = Attempts(completed: nat, open: bool, calls: nat)

  function Started(a: RawAttempts): nat {
    a.completed + if a.open then 1 else 0
  }

  /** Nothing is invoked without a reservation, and reservations stay within the limit. */
  type Attempts = a: RawAttempts | a.calls <= Started(a) <= ATTEMPT_LIMIT witness Attempts(0, false, 0)

  /** A reservation needs the next number, no attempt in flight and room under the limit. */
  predicate MayStart(a: Attempts, n: nat) {
    !a.open && n == a.completed + 1 && n <= ATTEMPT_LIMIT
  }

  predicate MayComplete(a: Attempts, n: nat) {
    a.open && n == a.completed + 1
  }

  /** While an attempt is started and not completed, no attempt number can be reserved. */
  lemma OpenAttemptBlocks(a: Attempts)
    ensures (exists n :: MayStart(a, n)) <==> !a.open && a.completed < ATTEMPT_LIMIT
  {
    if !a.open && a.completed < ATTEMPT_LIMIT {
      assert MayStart(a, a.completed + 1);
    }
  }

  /** The states whose own operation is attempted under reservation. */
  const RETRYABLE: set<WState> := {Implementing, ReadyToCommit, Committed, Pushed}

  /** Reserves the next attempt and makes the one call it covers. */
  function Reserve(a: Attempts): Attempts
    requires MayStart(a, a.completed + 1)
  {
    Attempts(a.completed, true, a.calls + 1)
  }

  function Complete(a: Attempts): Attempts
    requires a.open
  {
    Attempts(a.completed + 1, false, a.calls)
  }

  datatype Scopes = Scopes(implementing: Attempts, commit: Attempts, push: Attempts, pullRequest: Attempts)

  /**
   Everything that survives a process: the transition log, the attempts, which reports exist, and for which
   rounds the review provider has a session directory already. qa holds whether the report of a round approves.
   */
  datatype SessionData = SessionData(
    state: WState, transitions: seq<Edge>, initial: Scopes, repair: Attempts,
    stageReport: bool, failureReports: set<nat>, qa: map<nat, bool>, asked: set<nat>, closeout: bool)

  predicate IsLatest(qa: map<nat, bool>, round: nat) {
    round in qa && forall other :: other in qa ==> other <= round
  }

  lemma {:induction false} Highest(rounds: set<nat>) returns (highest: nat)
    requires rounds != {}
    ensures highest in rounds && forall round :: round in rounds ==> round <= highest
  {
    var first :| first in rounds;
    var rest := rounds - {first};
    assert forall round :: round in rounds ==> round in rest || round == first;
    highest := first;
    if rest != {} {
      var other := Highest(rest);
      highest := if first <= other then other else first;
    }
  }

  lemma SomeRoundIsLatest(qa: map<nat, bool>)
    requires qa != map[]
    ensures exists round :: IsLatest(qa, round)
  {
    var round := Highest(qa.Keys);
    assert IsLatest(qa, round);
  }

  /** The verdict of the highest round that has a report, reports being read in the order of their rounds. */
  function LatestVerdict(qa: map<nat, bool>): (verdict: Option<bool>)
    ensures verdict.None? <==> qa == map[]
    ensures forall round :: IsLatest(qa, round) ==> verdict == Some(qa[round])
  {
    if qa == map[] then None
    else
      SomeRoundIsLatest(qa);
      var round :| IsLatest(qa, round);
      Some(qa[round])
  }

  /** The attempts of one state; only four states have any. */
  function Of(d: SessionData, s: WState): Attempts {
    match s
    case Implementing => d.initial.implementing
    case ReadyToCommit => d.initial.commit
    case Committed => d.initial.push
    case Pushed => d.initial.pullRequest
    case _ => Attempts(0, false, 0)
  }

  function With(d: SessionData, s: WState, a: Attempts): SessionData {
    match s
    case Implementing => d.(initial := d.initial.(implementing := a))
    case ReadyToCommit => d.(initial := d.initial.(commit := a))
    case Committed => d.(initial := d.initial.(push := a))
    case Pushed => d.(initial := d.initial.(pullRequest := a))
    case _ => d
  }

  /** Only the attempts of the one state change. */
  lemma WithChangesOne(d: SessionData, s: WState, a: Attempts, t: WState)
    requires s in RETRYABLE
    ensures var e := With(d, s, a);
      && Of(e, t) == (if t == s then a else Of(d, t)) && e.(initial := d.initial) == d
  {
  }

  lemma WithWith(d: SessionData, s: WState, a: Attempts, b: Attempts)
    ensures With(With(d, s, a), s, b) == With(d, s, b)
    ensures s in RETRYABLE ==> Of(With(d, s, a), s) == a
    ensures With(d, s, Of(d, s)) == d
  {
  }

  /** A chain of table edges from CREATED to the last state. */
  predicate IsPath(edges: seq<Edge>, last: WState) {
    if edges == [] then last == Created
    else
      var step := edges[|edges| - 1];
      step.to == last && Allowed(step.from, last) && IsPath(edges[..|edges| - 1], step.from)
  }

  predicate Consistent(d: SessionData) {
    (d.repair.open ==> d.state == Repairing || d.state == Failed) && IsPath(d.transitions, d.state)
  }

  /** One more edge out of the last state. */
  lemma PathGrows(edges: seq<Edge>, last: WState, to: WState)
    requires IsPath(edges, last) && Allowed(last, to)
    ensures IsPath(edges + [Edge(last, to)], to)
  {
    assert (edges + [Edge(last, to)])[..|edges|] == edges;
  }

  const DELIVERY: seq<Edge> := [
    Edge(Validating, QaRunning), Edge(QaRunning, ReadyToCommit), Edge(ReadyToCommit, Committed),
    Edge(Committed, Pushed), Edge(Pushed, PrOpen)]

  const MERGING: seq<Edge> := [
    Edge(PrOpen, AutoMergeEnabled), Edge(AutoMergeEnabled, WaitingForChecks), Edge(WaitingForChecks, Merged),
    Edge(Merged, Closing), Edge(Closing, Done)]

  /** The states that a single other state leads to. */
  predicate OnlyWayInto(from: WState, last: WState) {
    match last
    case QaRunning => from == Validating
    case ReadyToCommit => from == QaRunning
    case Committed => from == ReadyToCommit
    case Pushed => from == Committed
    case PrOpen => from == Pushed
    case AutoMergeEnabled => from == PrOpen
    case WaitingForChecks => from == AutoMergeEnabled
    case Merged => from == WaitingForChecks
    case Closing => from == Merged
    case Done => from == Closing
    case _ => false
  }

  lemma OnlyOneLeadsThere(from: WState, other: WState, last: WState)
    requires OnlyWayInto(from, last) && Allowed(other, last)
    ensures other == from
  {
  }

  /** A state with a single way in was entered by the last edge of the log. */
  lemma LastEdge(edges: seq<Edge>, from: WState, last: WState) returns (front: seq<Edge>)
    requires IsPath(edges, last) && OnlyWayInto(from, last)
    ensures edges == front + [Edge(from, last)] && IsPath(front, from)
  {
    front := edges[..|edges| - 1];
    OnlyOneLeadsThere(from, edges[|edges| - 1].from, last);
  }

  /** A session at PR_OPEN got there through a passed validation, QA, the commit and the push. */
  lemma PrOpenHistory(d: SessionData) returns (front: seq<Edge>)
    requires Consistent(d) && d.state == PrOpen
    ensures d.transitions == front + DELIVERY && IsPath(front, Validating)
  {
    front := DeliveryPath(d.transitions);
  }

  /** A session at DONE was open as a pull request before, and went the five edges of the merge. */
  lemma DoneHistory(d: SessionData) returns (front: seq<Edge>)
    requires Consistent(d) && d.state == Done
    ensures d.transitions == front + (DELIVERY + MERGING) && IsPath(front, Validating)
  {
    var pulled := MergingPath(d.transitions);
    front := DeliveryPath(pulled);
    Associative(front, DELIVERY, MERGING);
  }

  lemma MergingPath(edges: seq<Edge>) returns (front: seq<Edge>)
    requires IsPath(edges, Done)
    ensures edges == front + MERGING && IsPath(front, PrOpen)
  {
    var closing := LastEdge(edges, Closing, Done);
    var merged := LastEdge(closing, Merged, Closing);
    var waiting := LastEdge(merged, WaitingForChecks, Merged);
    var enabled := LastEdge(waiting, AutoMergeEnabled, WaitingForChecks);
    front := LastEdge(enabled, PrOpen, AutoMergeEnabled);
  }

  lemma DeliveryPath(edges: seq<Edge>) returns (front: seq<Edge>)
    requires IsPath(edges, PrOpen)
    ensures edges == front + DELIVERY && IsPath(front, Validating)
  {
    var pushed := LastEdge(edges, Pushed, PrOpen);
    var committed := LastEdge(pushed, Committed, Pushed);
    var ready := LastEdge(committed, ReadyToCommit, Committed);
    var qa := LastEdge(ready, QaRunning, ReadyToCommit);
    front := LastEdge(qa, Validating, QaRunning);
  }

  function Move(d: SessionData, to: WState): SessionData {
    d.(state := to, transitions := d.transitions + [Edge(d.state, to)])
  }

  lemma MoveKeepsConsistent(d: SessionData, to: WState)
    requires Allowed(d.state, to)
    ensures Consistent(d) && (d.repair.open ==> to == Failed) ==> Consistent(Move(d, to))
  {
    if Consistent(d) {
      PathGrows(d.transitions, d.state, to);
    }
  }

  class WorkflowSession {
    var data: SessionData

    constructor (d: SessionData)
      ensures data == d
    {
      data := d;
    }

    /**
     Refused for an edge outside the table, for AUTHORIZED, which only an authorization reaches, and
     for a human where none may act.
     */
    method TransitionTo(to: WState, actor: Actor) returns (ok: bool)
      modifies this
      ensures ok <==> to != Authorized && Allowed(old(data).state, to) && (actor == Human ==> to == Cancelled)
      ensures data == if ok then Move(old(data), to) else old(data)
      ensures old(Consistent(data)) && (ok && old(data).repair.open ==> to == Failed) ==> Consistent(data)
    {
      ok := to != Authorized && Allowed(data.state, to) && ActorAllowed(data.state, to, actor);
      if ok {
        MoveKeepsConsistent(data, to);
        data := Move(data, to);
      }
    }

    /** Refused outside the state itself, or unless the number is next, nothing is in flight and the limit allows it. */
    method RecordStarted(s: WState, n: nat) returns (ok: bool)
      modifies this
      ensures ok <==>
        && s in {Implementing, ReadyToCommit, Committed, Pushed} && old(data).state == s
        && !Of(old(data), s).open && n == Of(old(data), s).completed + 1 && n <= ATTEMPT_LIMIT
      ensures ok ==> Of(data, s) == Attempts(n - 1, true, Of(old(data), s).calls + 1)
      ensures data == if ok then With(old(data), s, Reserve(Of(old(data), s))) else old(data)
    {
      ok := s in RETRYABLE && data.state == s && MayStart(Of(data, s), n);
      if ok {
        data := With(data, s, Reserve(Of(data, s)));
      }
    }

    method RecordCompleted(s: WState, n: nat) returns (ok: bool)
      modifies this
      ensures ok <==>
        && s in {Implementing, ReadyToCommit, Committed, Pushed} && old(data).state == s
        && Of(old(data), s).open && n == Of(old(data), s).completed + 1
      ensures ok ==> Of(data, s) == Attempts(n, false, Of(old(data), s).calls)
      ensures data == if ok then With(old(data), s, Complete(Of(old(data), s))) else old(data)
    {
      ok := s in RETRYABLE && data.state == s && MayComplete(Of(data, s), n);
      if ok {
        data := With(data, s, Complete(Of(data, s)));
      }
    }

    method RecordRepairStarted(n: nat) returns (ok: bool)
      modifies this
      ensures ok <==>
        && old(data).state == Repairing && !old(data).repair.open
        && n == old(data).repair.completed + 1 && n <= ATTEMPT_LIMIT
      ensures ok ==> data.repair == Attempts(n - 1, true, old(data).repair.calls + 1)
      ensures data == if ok then old(data).(repair := Reserve(old(data).repair)) else old(data)
    {
      ok := data.state == Repairing && MayStart(data.repair, n);
      if ok {
        data := data.(repair := Reserve(data.repair));
      }
    }

    method RecordRepairCompleted(n: nat) returns (ok: bool)
      modifies this
      ensures ok <==> old(data).state == Repairing && old(data).repair.open && n == old(data).repair.completed + 1
      ensures ok ==> data.repair == Attempts(n, false, old(data).repair.calls)
      ensures data == if ok then old(data).(repair := Complete(old(data).repair)) else old(data)
    {
      ok := data.state == Repairing && MayComplete(data.repair, n);
      if ok {
        data := data.(repair := Complete(data.repair));
      }
    }

    method RecordStageReport()
      modifies this
      ensures data == old(data).(stageReport := true)
    {
      data := data.(stageReport := true);
    }

    /** The Skill's result is not looked at, so the report may silently not exist afterwards. */
    method RecordFailureReport(sequence: nat, written: bool)
      modifies this
      ensures data == old(data).(failureReports := old(data).failureReports + if written then {sequence} else {})
    {
      data := data.(failureReports := data.failureReports + if written then {sequence} else {});
    }

    /** A report that exists is not written over, and the Skill's refusal is not looked at. */
    method RecordQaReport(round: nat, approved: bool, written: bool)
      modifies this
      ensures data ==
        if written && round !in old(data).qa then old(data).(qa := old(data).qa[round := approved]) else old(data)
    {
      if written && round !in data.qa {
        data := data.(qa := data.qa[round := approved]);
      }
    }

    /** Makes the provider's session directory of a review. */
    method RecordReviewSession(round: nat)
      modifies this
      ensures data == old(data).(asked := old(data).asked + {round})
    {
      data := data.(asked := data.asked + {round});
    }

    method RecordCloseoutReport()
      modifies this
      ensures data == old(data).(closeout := true)
    {
      data := data.(closeout := true);
    }
  }
}
