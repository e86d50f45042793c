/**
 The event-sourced approvals of agentos_workflow/approvals.py: one shared append-only log for each
 workflow, replayed into the state of each approval, with deadlines that fire when looked at.
 */
module Approvals {
  import opened Support
  import opened ApprovalPolicies

  datatype Decision = Approve | Reject | RequestChanges
  datatype Origin = Manual | Auto
  datatype Status =
    | Pending | Approved | Rejected | ChangesRequested | HumanInterventionRequired
    | Escalated | Failed | Cancelled | Invalidated | Consumed

  datatype ChecksumKind = RepoState | Diff | AgentResult | GateResult
  datatype Checksums = Checksums(repoState: string, diff: string, agentResult: string, gateResult: string)

  datatype EventKind =
    | RequestedEvent(policy: ApprovalPolicy, firstDeadline: Option<int>, checksums: Checksums)
    | DecidedEvent(decision: Decision, approver: Option<string>, source: Option<Channel>,
                   origin: Origin, applied: Option<TimeoutAction>)
    | TimedOutEvent(action: TimeoutAction)
    | EscalatedEvent
    | ExtendedEvent(deadline: int)
    | InvalidatedEvent(kinds: seq<ChecksumKind>, observed: Checksums)
    | ConsumedEvent

  datatype Event = Event(id: string, gate: string, at: int, kind: EventKind)

  /** The replayed view of one approval. */
  datatype Approval = Approval(
    id: string, gate: string, requestedAt: int, deadline: Option<int>, policy: ApprovalPolicy,
    checksums: Checksums, status: Status, source: Option<Channel>, approver: Option<string>,
    decision: Option<Decision>, decidedAt: Option<int>, origin: Option<Origin>,
    applied: Option<TimeoutAction>, escalatedAt: Option<int>, extensionGranted: bool,
    invalidated: seq<ChecksumKind>)

  datatype Error =
    | NotFound | NotReplayable | ApprovalNotRequired | AlreadyExists | Settled | ChannelNotPermitted
    | ApproverNotListed | NotApproved | InvalidEvent | OutOfOrder | Died

  type Log = seq<Event>

  predicate IsTerminal(s: Status) {
    s in {Rejected, ChangesRequested, Failed, Cancelled, Invalidated, Consumed}
  }

  predicate IsTimeoutEligible(s: Status) {
    s in {Pending, Escalated}
  }

  function StatusForDecision(d: Decision): Status {
    match d
    case Approve => Approved
    case Reject => Rejected
    case RequestChanges => ChangesRequested
  }

  function StatusForTimeout(a: TimeoutAction): Status {
    match a
    case Pause => HumanInterventionRequired
    case Fail => Failed
    case Cancel => Cancelled
    case AutoApprove => Approved
    case Escalate => Escalated
  }

  // ---- Checksums ----

  /** Every binding that differs, in a fixed order. */
  function Differences(a: Checksums, b: Checksums): (kinds: seq<ChecksumKind>)
    ensures kinds == [] <==> a == b
    ensures RepoState in kinds <==> a.repoState != b.repoState
    ensures Diff in kinds <==> a.diff != b.diff
    ensures AgentResult in kinds <==> a.agentResult != b.agentResult
    ensures GateResult in kinds <==> a.gateResult != b.gateResult
  {
    (if a.repoState != b.repoState then [RepoState] else [])
    + (if a.diff != b.diff then [Diff] else [])
    + (if a.agentResult != b.agentResult then [AgentResult] else [])
    + (if a.gateResult != b.gateResult then [GateResult] else [])
  }

  // ---- Replay ----

  function Opened(e: Event): Approval
    requires e.kind.RequestedEvent?
  {
    Approval(
      e.id, e.gate, e.at, e.kind.firstDeadline, e.kind.policy, e.kind.checksums, Pending,
      None, None, None, None, None, None, None, false, [])
  }

  /** How one later event refines the view. */
  function Refine(v: Approval, e: Event): Approval {
    match e.kind
    case RequestedEvent(_, _, _) => v
    case DecidedEvent(decision, approver, source, origin, applied) =>
      v.(status := StatusForDecision(decision), decision := Some(decision), approver := approver,
         source := source, decidedAt := Some(e.at), origin := Some(origin), applied := applied)
    case TimedOutEvent(action) => v.(status := StatusForTimeout(action), applied := Some(action))
    case EscalatedEvent => v.(status := Escalated, escalatedAt := Some(e.at), applied := Some(Escalate))
    case ExtendedEvent(deadline) => v.(deadline := Some(deadline), extensionGranted := true)
    case InvalidatedEvent(kinds, _) => v.(status := Invalidated, invalidated := kinds)
    case ConsumedEvent => v.(status := Consumed)
  }

  /** The view after a history; None when it does not begin with its request. */
  function Replay(h: Log): Option<Approval> {
    if h == [] then None
    else if |h| == 1 then (if h[0].kind.RequestedEvent? then Some(Opened(h[0])) else None)
    else
      var before := Replay(h[..|h| - 1]);
      if before.Some? then Some(Refine(before.value, h[|h| - 1])) else None
  }

  method ReplayEvents(h: Log) returns (v: Option<Approval>)
    requires h != []
    ensures v == Replay(h)
  {
    assert h[..1] == [h[0]];
    if !h[0].kind.RequestedEvent? {
      ReplayNeedsRequest(h);
      return None;
    }
    v := Some(Opened(h[0]));
    var i := 1;
    while i < |h|
      invariant 1 <= i <= |h| && v.Some? && v == Replay(h[..i])
    {
      assert h[..i + 1][..i] == h[..i];
      v := Some(Refine(v.value, h[i]));
      i := i + 1;
    }
    assert h[..i] == h;
  }

  lemma {:induction false} ReplayNeedsRequest(h: Log)
    requires h != []
    ensures Replay(h).Some? <==> h[0].kind.RequestedEvent?
  {
    if |h| > 1 {
      ReplayNeedsRequest(h[..|h| - 1]);
    }
  }

  // ---- The shared log ----

  /** One approval's events, in log order. */
  function History(log: Log, id: string): (h: Log)
    ensures forall e :: e in h ==> e.id == id
  {
    if log == [] then []
    else
      var last := log[|log| - 1];
      History(log[..|log| - 1], id) + if last.id == id then [last] else []
  }

  method Events(log: Log, id: string) returns (h: Log)
    ensures h == History(log, id)
  {
    h := [];
    var i := 0;
    while i < |log|
      invariant 0 <= i <= |log| && h == History(log[..i], id)
    {
      assert log[..i + 1][..i] == log[..i];
      if log[i].id == id {
        h := h + [log[i]];
      }
      i := i + 1;
    }
    assert log[..i] == log;
  }

  predicate InOrder(log: Log, at: int) {
    log == [] || log[|log| - 1].at <= at
  }

  function Current(log: Log, id: string): Result<Approval, Error> {
    var h := History(log, id);
    if h == [] then Err(NotFound)
    else
      var v := Replay(h);
      if v.Some? then Ok(v.value) else Err(NotReplayable)
  }

  // ---- The operations as functions of the log ----

  type Answer = Result<Approval, Error>

  function AppendAll(log: Log, events: Log, id: string): (Log, Answer)
    requires events != []
  {
    if InOrder(log, events[0].at) then (log + events, Current(log + events, id)) else (log, Err(OutOfOrder))
  }

  function FirstDeadline(policy: ApprovalPolicy, now: int): Option<int> {
    if policy.timeoutSeconds.Some? then Some(now + policy.timeoutSeconds.value) else None
  }

  function Requesting(
    log: Log, id: string, gate: string, checksums: Checksums, policy: ApprovalPolicy, now: int
  ): (Log, Answer) {
    if !policy.required then (log, Err(ApprovalNotRequired))
    else if History(log, id) != [] then (log, Err(AlreadyExists))
    else if id == "" || gate == "" then (log, Err(InvalidEvent))
    else AppendAll(log, [Event(id, gate, now, RequestedEvent(policy, FirstDeadline(policy, now), checksums))], id)
  }

  /** The timeout action that governs an approval in this status. */
  function GoverningAction(v: Approval): TimeoutAction {
    if v.status == Escalated then v.policy.fallbackAction else v.policy.timeoutAction
  }

  predicate IsDue(v: Approval, now: int) {
    IsTimeoutEligible(v.status) && v.deadline.Some? && v.deadline.value <= now
  }

  /** The events one expired deadline produces. */
  function TimeoutEvents(v: Approval, action: TimeoutAction, now: int): (events: Log)
    ensures events != [] && forall e :: e in events ==> e.id == v.id && e.at == now
  {
    match action
    case AutoApprove => [Event(v.id, v.gate, now, DecidedEvent(Approve, None, None, Auto, Some(AutoApprove)))]
    case Escalate =>
      [Event(v.id, v.gate, now, EscalatedEvent)]
      + (if v.policy.extensionSeconds.Some? && !v.extensionGranted
         then [Event(v.id, v.gate, now, ExtendedEvent(now + v.policy.extensionSeconds.value))] else [])
    case _ => [Event(v.id, v.gate, now, TimedOutEvent(action))]
  }

  function Evaluating(log: Log, id: string, now: int): (Log, Answer) {
    var current := Current(log, id);
    if current.Ok? && IsDue(current.value, now) then
      AppendAll(log, TimeoutEvents(current.value, GoverningAction(current.value), now), id)
    else (log, current)
  }

  /** An evaluation whose process dies between the two events of an escalation. */
  function CutShort(log: Log, id: string, now: int): (Log, Answer) {
    var current := Current(log, id);
    if current.Ok? && IsDue(current.value, now) && InOrder(log, now)
       && |TimeoutEvents(current.value, GoverningAction(current.value), now)| == 2
    then (log + [TimeoutEvents(current.value, GoverningAction(current.value), now)[0]], Err(Died))
    else (log, Err(Died))
  }

  /** What a decision does to an approval that has been evaluated. */
  function Recording(
    log: Log, v: Approval, id: string, decision: Decision, approver: string, source: Channel, now: int
  ): (Log, Answer) {
    if IsTerminal(v.status) then (log, Err(Settled))
    else if source !in v.policy.channels then (log, Err(ChannelNotPermitted))
    else if v.policy.approvers != [] && approver !in v.policy.approvers then (log, Err(ApproverNotListed))
    else if approver == "" then (log, Err(InvalidEvent))
    else
      var kind := DecidedEvent(decision, Some(approver), Some(source), Manual, None);
      AppendAll(log, [Event(id, v.gate, now, kind)], id)
  }

  /** The clock is read once for the deadline and once for the record. */
  function Deciding(
    log: Log, id: string, decision: Decision, approver: string, source: Channel, evaluatedAt: int, recordedAt: int
  ): (Log, Answer) {
    var (log', current) := Evaluating(log, id, evaluatedAt);
    if current.Err? then (log', current)
    else Recording(log', current.value, id, decision, approver, source, recordedAt)
  }

  function Consuming(log: Log, id: string, checksums: Checksums, now: int): (Log, Answer) {
    var (log', current) := Evaluating(log, id, now);
    if current.Err? then (log', current)
    else if current.value.status != Approved then (log', Err(NotApproved))
    else
      var changed := Differences(current.value.checksums, checksums);
      var kind := if changed != [] then InvalidatedEvent(changed, checksums) else ConsumedEvent;
      AppendAll(log', [Event(id, current.value.gate, now, kind)], id)
  }

  /** The identifiers in the order of their first event. */
  function FirstAppearance(log: Log): (ids: seq<string>)
    ensures forall id :: id in ids <==> exists e :: e in log && e.id == id
  {
    if log == [] then []
    else
      var front, last := log[..|log| - 1], log[|log| - 1];
      var ids := FirstAppearance(front);
      assert log == front + [last];
      if last.id in ids then ids else ids + [last.id]
  }

  // ---- The service ----

  class ApprovalService {
    var log: Log

    constructor ()
      ensures log == []
    {
      log := [];
    }

    /** Refuses a timestamp earlier than the last one in the file. */
    method Append(e: Event) returns (ok: bool)
      modifies this
      ensures ok <==> old(InOrder(log, e.at))
      ensures log == if ok then old(log) + [e] else old(log)
    {
      ok := InOrder(log, e.at);
      if ok {
        log := log + [e];
      }
    }

    method GetApproval(id: string) returns (r: Answer)
      ensures r == Current(log, id)
    {
      var h := Events(log, id);
      if h == [] {
        return Err(NotFound);
      }
      var v := ReplayEvents(h);
      r := if v.Some? then Ok(v.value) else Err(NotReplayable);
    }

    method RequestApproval(id: string, gate: string, checksums: Checksums, policy: ApprovalPolicy, now: int)
      returns (r: Answer)
      modifies this
      ensures (log, r) == Requesting(old(log), id, gate, checksums, policy, now)
    {
      if !policy.required {
        return Err(ApprovalNotRequired);
      }
      var h := Events(log, id);
      if h != [] {
        return Err(AlreadyExists);
      }
      if id == "" || gate == "" {
        return Err(InvalidEvent);
      }
      var ok := Append(Event(id, gate, now, RequestedEvent(policy, FirstDeadline(policy, now), checksums)));
      if !ok {
        return Err(OutOfOrder);
      }
      r := GetApproval(id);
    }

    /** One branch for each action; both escalation events carry the same instant. */
    method ApplyTimeout(v: Approval, action: TimeoutAction, now: int) returns (ok: bool)
      modifies this
      ensures ok <==> old(InOrder(log, now))
      ensures log == if ok then old(log) + TimeoutEvents(v, action, now) else old(log)
    {
      if action == AutoApprove {
        ok := Append(Event(v.id, v.gate, now, DecidedEvent(Approve, None, None, Auto, Some(AutoApprove))));
      } else if action == Escalate {
        ok := Append(Event(v.id, v.gate, now, EscalatedEvent));
        if ok && v.policy.extensionSeconds.Some? && !v.extensionGranted {
          ok := Append(Event(v.id, v.gate, now, ExtendedEvent(now + v.policy.extensionSeconds.value)));
        }
      } else {
        ok := Append(Event(v.id, v.gate, now, TimedOutEvent(action)));
      }
    }

    method EvaluateApproval(id: string, now: int) returns (r: Answer)
      modifies this
      ensures (log, r) == Evaluating(old(log), id, now)
    {
      r := GetApproval(id);
      if r.Err? || !IsTimeoutEligible(r.value.status) {
        return;
      }
      if r.value.deadline.None? || now < r.value.deadline.value {
        return;
      }
      HistoryKeepsId(log, id);
      var ok := ApplyTimeout(r.value, GoverningAction(r.value), now);
      if !ok {
        return Err(OutOfOrder);
      }
      r := GetApproval(id);
    }

    method DecideApproval(
      id: string, decision: Decision, approver: string, source: Channel, evaluatedAt: int, recordedAt: int)
      returns (r: Answer)
      modifies this
      ensures (log, r) == Deciding(old(log), id, decision, approver, source, evaluatedAt, recordedAt)
    {
      r := EvaluateApproval(id, evaluatedAt);
      if r.Err? {
        return;
      }
      if IsTerminal(r.value.status) {
        return Err(Settled);
      }
      if source !in r.value.policy.channels {
        return Err(ChannelNotPermitted);
      }
      if r.value.policy.approvers != [] && approver !in r.value.policy.approvers {
        return Err(ApproverNotListed);
      }
      if approver == "" {
        return Err(InvalidEvent);
      }
      var ok := Append(Event(
        id, r.value.gate, recordedAt, DecidedEvent(decision, Some(approver), Some(source), Manual, None)));
      if !ok {
        return Err(OutOfOrder);
      }
      r := GetApproval(id);
    }

    method ConsumeApproval(id: string, checksums: Checksums, now: int) returns (r: Answer)
      modifies this
      ensures (log, r) == Consuming(old(log), id, checksums, now)
    {
      r := EvaluateApproval(id, now);
      if r.Err? {
        return;
      }
      if r.value.status != Approved {
        return Err(NotApproved);
      }
      var changed := Differences(r.value.checksums, checksums);
      var ok;
      if changed != [] {
        ok := Append(Event(id, r.value.gate, now, InvalidatedEvent(changed, checksums)));
      } else {
        ok := Append(Event(id, r.value.gate, now, ConsumedEvent));
      }
      if !ok {
        return Err(OutOfOrder);
      }
      r := GetApproval(id);
    }

    /** Groups the shared log by approval, in the order of first appearance. */
    method Group() returns (ids: seq<string>, grouped: map<string, Log>)
      ensures ids == FirstAppearance(log)
      ensures forall id :: id in ids ==> id in grouped && grouped[id] == History(log, id)
    {
      ids, grouped := [], map[];
      var i := 0;
      while i < |log|
        invariant 0 <= i <= |log| && ids == FirstAppearance(log[..i])
        invariant forall id :: id in ids <==> id in grouped
        invariant forall id :: id in grouped ==> grouped[id] == History(log[..i], id)
        invariant forall id :: id !in grouped ==> History(log[..i], id) == []
      {
        assert log[..i + 1][..i] == log[..i];
        var e := log[i];
        if e.id !in grouped {
          ids := ids + [e.id];
          grouped := grouped[e.id := [e]];
        } else {
          grouped := grouped[e.id := grouped[e.id] + [e]];
        }
        i := i + 1;
      }
      assert log[..i] == log;
    }

    /** The replay of one group of the log, which fails the whole listing if it does not begin with its request. */
    method ReplayGroup(id: string, grouped: map<string, Log>) returns (r: Answer)
      requires id in grouped && grouped[id] == History(log, id) && id in FirstAppearance(log)
      ensures r == Current(log, id)
    {
      AppearsInHistory(log, id);
      var v := ReplayEvents(grouped[id]);
      r := if v.Some? then Ok(v.value) else Err(NotReplayable);
    }

    /** Every approval of the workflow in the order of first appearance, or the first replay error. */
    method ListApprovals() returns (r: Result<seq<Approval>, Error>)
      ensures r.Ok? <==> forall id :: id in FirstAppearance(log) ==> Current(log, id).Ok?
      ensures r.Err? ==> r.error == NotReplayable
      ensures r.Ok? ==> Listed(log, FirstAppearance(log), r.value)
    {
      var ids, grouped := Group();
      var views: seq<Approval> := [];
      var k := 0;
      while k < |ids|
        invariant 0 <= k <= |ids| && Listed(log, ids[..k], views)
      {
        assert ids[k] in ids;
        var answer := ReplayGroup(ids[k], grouped);
        if answer.Err? {
          return Err(NotReplayable);
        }
        ListedOneMore(log, ids, k, views, answer.value);
        views := views + [answer.value];
        k := k + 1;
      }
      assert ids[..k] == ids;
      ListedAreOk(log, ids, views);
      r := Ok(views);
    }
  }

  /** views are the views of these approvals, one for one. */
  predicate Listed(log: Log, ids: seq<string>, views: seq<Approval>) {
    |views| == |ids| && forall k :: 0 <= k < |ids| ==> Current(log, ids[k]) == Ok(views[k])
  }

  lemma ListedOneMore(log: Log, ids: seq<string>, k: nat, views: seq<Approval>, v: Approval)
    requires k < |ids| && Listed(log, ids[..k], views) && Current(log, ids[k]) == Ok(v)
    ensures Listed(log, ids[..k + 1], views + [v])
  {
    forall j | 0 <= j < k + 1 ensures Current(log, ids[..k + 1][j]) == Ok((views + [v])[j]) {
      assert j < k ==> ids[..k][j] == ids[j];
    }
  }

  lemma ListedAreOk(log: Log, ids: seq<string>, views: seq<Approval>)
    requires Listed(log, ids, views)
    ensures forall id :: id in ids ==> Current(log, id).Ok?
  {
    forall id | id in ids ensures Current(log, id).Ok? {
      var k :| 0 <= k < |ids| && ids[k] == id;
    }
  }

  lemma {:induction false} AppearsInHistory(log: Log, id: string)
    ensures id in FirstAppearance(log) <==> History(log, id) != []
  {
    if log != [] {
      AppearsInHistory(log[..|log| - 1], id);
    }
  }

  lemma {:induction false} ReplayKeepsId(h: Log)
    requires h != [] && Replay(h).Some?
    ensures Replay(h).value.id == h[0].id
  {
    if |h| > 1 {
      ReplayKeepsId(h[..|h| - 1]);
    }
  }

  lemma HistoryKeepsId(log: Log, id: string)
    requires Current(log, id).Ok?
    ensures Current(log, id).value.id == id
  {
    ReplayKeepsId(History(log, id));
    assert History(log, id)[0] in History(log, id);
  }
}
