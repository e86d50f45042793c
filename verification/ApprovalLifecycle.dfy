/** What holds of every approval log that any sequence of service calls can build. */
module ApprovalLifecycle {
  import opened Support
  import opened ApprovalPolicies
  import opened Approvals

  datatype Call =
    | RequestCall(id: string, gate: string, checksums: Checksums, policy: ApprovalPolicy, now: int)
    | DecideCall(id: string, decision: Decision, approver: string, source: Channel, evaluatedAt: int, recordedAt: int)
    | EvaluateCall(id: string, now: int)
    | ConsumeCall(id: string, checksums: Checksums, now: int)
    | CutShortCall(id: string, now: int)

  function Perform(log: Log, call: Call): (Log, Answer) {
    match call
    case RequestCall(id, gate, checksums, policy, now) => Requesting(log, id, gate, checksums, policy, now)
    case DecideCall(id, decision, approver, source, evaluatedAt, recordedAt) =>
      Deciding(log, id, decision, approver, source, evaluatedAt, recordedAt)
    case EvaluateCall(id, now) => Evaluating(log, id, now)
    case ConsumeCall(id, checksums, now) => Consuming(log, id, checksums, now)
    case CutShortCall(id, now) => CutShort(log, id, now)
  }

  function AfterCalls(log: Log, calls: seq<Call>): Log {
    if calls == [] then log else Perform(AfterCalls(log, calls[..|calls| - 1]), calls[|calls| - 1]).0
  }

  // ---- Legal histories ----

  /** The only events that can follow a view. */
  predicate LegalNext(v: Approval, e: Event) {
    match e.kind
    case RequestedEvent(_, _, _) => false
    case DecidedEvent(decision, approver, source, Manual, applied) =>
      && !IsTerminal(v.status)
      && source.Some? && source.value in v.policy.channels
      && approver.Some? && approver.value != ""
      && (v.policy.approvers == [] || approver.value in v.policy.approvers)
      && applied == None
    case DecidedEvent(decision, _, _, Auto, applied) =>
      && IsDue(v, e.at) && decision == Approve
      && GoverningAction(v) == AutoApprove && applied == Some(AutoApprove)
    case TimedOutEvent(action) =>
      IsDue(v, e.at) && action == GoverningAction(v) && action in {Pause, Fail, Cancel}
    case EscalatedEvent => IsDue(v, e.at) && v.status == Pending && v.policy.timeoutAction == Escalate
    case ExtendedEvent(deadline) =>
      && v.status == Escalated && v.escalatedAt == Some(e.at) && !v.extensionGranted
      && v.policy.extensionSeconds.Some? && deadline == e.at + v.policy.extensionSeconds.value
    case InvalidatedEvent(kinds, observed) =>
      v.status == Approved && kinds == Differences(v.checksums, observed) && kinds != []
    case ConsumedEvent => v.status == Approved
  }

  predicate LegalFirst(e: Event) {
    && e.kind.RequestedEvent? && e.kind.policy.required
    && match e.kind.policy.timeoutSeconds
       case Some(n) => e.kind.firstDeadline == Some(e.at + n)
       case None => e.kind.firstDeadline == None
  }

  ghost predicate LegalHistory(h: Log) {
    h != [] ==>
      && LegalFirst(h[0])
      && forall k :: 1 <= k < |h| ==> Replay(h[..k]).Some? && LegalNext(Replay(h[..k]).value, h[k])
  }

  ghost predicate WellKept(log: Log) {
    forall id :: LegalHistory(History(log, id))
  }

  // ---- Every call keeps the log legal ----

  lemma HistoryAppend(log: Log, e: Event, id: string)
    ensures History(log + [e], id) == if e.id == id then History(log, id) + [e] else History(log, id)
  {
    assert (log + [e])[..|log|] == log;
  }

  lemma LegalAppend(h: Log, e: Event)
    requires LegalHistory(h) && Replay(h).Some? && LegalNext(Replay(h).value, e)
    ensures LegalHistory(h + [e]) && Replay(h + [e]) == Some(Refine(Replay(h).value, e))
  {
    var longer := h + [e];
    assert longer[..|h|] == h;
    forall k | 1 <= k < |longer| ensures Replay(longer[..k]).Some? && LegalNext(Replay(longer[..k]).value, longer[k]) {
      if k < |h| {
        assert longer[..k] == h[..k];
      }
    }
  }

  lemma AppendNext(log: Log, e: Event)
    requires WellKept(log)
    requires Current(log, e.id).Ok? && LegalNext(Current(log, e.id).value, e)
    ensures WellKept(log + [e])
    ensures Current(log + [e], e.id) == Ok(Refine(Current(log, e.id).value, e))
  {
    LegalAppend(History(log, e.id), e);
    forall id ensures LegalHistory(History(log + [e], id)) {
      HistoryAppend(log, e, id);
    }
    HistoryAppend(log, e, e.id);
  }

  lemma AppendFirst(log: Log, e: Event)
    requires WellKept(log) && History(log, e.id) == [] && LegalFirst(e)
    ensures WellKept(log + [e])
  {
    forall id ensures LegalHistory(History(log + [e], id)) {
      HistoryAppend(log, e, id);
    }
  }

  /** The view once a fired deadline has taken its effect. */
  function TimedOutView(v: Approval, now: int): Approval {
    var events := TimeoutEvents(v, GoverningAction(v), now);
    var first := Refine(v, events[0]);
    if |events| == 2 then Refine(first, events[1]) else first
  }

  predicate Fires(log: Log, id: string, now: int) {
    Current(log, id).Ok? && IsDue(Current(log, id).value, now) && InOrder(log, now)
  }

  lemma TimeoutEventsAreLegal(v: Approval, now: int)
    requires IsDue(v, now)
    ensures var events := TimeoutEvents(v, GoverningAction(v), now);
      && LegalNext(v, events[0]) && 1 <= |events| <= 2
      && (|events| == 2 ==> LegalNext(Refine(v, events[0]), events[1]))
  {
  }

  lemma AppendTwo(log: Log, id: string, v: Approval, first: Event, second: Event)
    requires WellKept(log) && Current(log, id) == Ok(v) && first.id == id && second.id == id
    requires LegalNext(v, first) && LegalNext(Refine(v, first), second)
    ensures WellKept(log + [first] + [second])
    ensures Current(log + [first] + [second], id) == Ok(Refine(Refine(v, first), second))
  {
    AppendNext(log, first);
    AppendNext(log + [first], second);
  }

  /** The log after one or two events of one approval. */
  lemma AppendOneOrTwo(log: Log, id: string, v: Approval, events: Log, log': Log)
    requires WellKept(log) && Current(log, id) == Ok(v) && log' == log + events
    requires 1 <= |events| <= 2 && forall e :: e in events ==> e.id == id
    requires LegalNext(v, events[0])
    requires |events| == 2 ==> LegalNext(Refine(v, events[0]), events[1])
    ensures WellKept(log')
    ensures |events| == 1 ==> Current(log', id) == Ok(Refine(v, events[0]))
    ensures |events| == 2 ==> Current(log', id) == Ok(Refine(Refine(v, events[0]), events[1]))
  {
    if |events| == 2 {
      assert log' == log + [events[0]] + [events[1]];
      AppendTwo(log, id, v, events[0], events[1]);
    } else {
      assert log' == log + [events[0]];
      AppendNext(log, events[0]);
    }
  }

  lemma DeadlineFires(log: Log, id: string, now: int)
    requires WellKept(log) && Fires(log, id, now)
    ensures var log' := Evaluating(log, id, now).0;
      && WellKept(log') && InOrder(log', now)
      && Current(log', id) == Ok(TimedOutView(Current(log, id).value, now)) == Evaluating(log, id, now).1
  {
    HistoryKeepsId(log, id);
    var v := Current(log, id).value;
    var events := TimeoutEvents(v, GoverningAction(v), now);
    var log' := Evaluating(log, id, now).0;
    TimeoutEventsAreLegal(v, now);
    AppendOneOrTwo(log, id, v, events, log');
  }

  /** What a fired deadline leaves the approval as. */
  lemma TimedOutStatus(v: Approval, now: int)
    requires IsDue(v, now) && LegalNext(v, TimeoutEvents(v, GoverningAction(v), now)[0])
    ensures var w := TimedOutView(v, now);
      && w.status == StatusForTimeout(GoverningAction(v)) && w.policy == v.policy && w.checksums == v.checksums
      && (GoverningAction(v) == Escalate ==>
            v.status == Pending
            && w.deadline == if v.policy.extensionSeconds.Some? && !v.extensionGranted
                             then Some(now + v.policy.extensionSeconds.value) else v.deadline)
  {
  }

  lemma EvaluatingKeepsWellKept(log: Log, id: string, now: int)
    requires WellKept(log)
    ensures WellKept(Evaluating(log, id, now).0)
    ensures Evaluating(log, id, now).1.Ok? ==>
      Current(Evaluating(log, id, now).0, id) == Evaluating(log, id, now).1
  {
    if Fires(log, id, now) {
      DeadlineFires(log, id, now);
    }
  }

  lemma DecidingKeepsWellKept(log: Log, call: Call)
    requires WellKept(log) && call.DecideCall?
    ensures WellKept(Perform(log, call).0)
  {
    EvaluatingKeepsWellKept(log, call.id, call.evaluatedAt);
    var (log', current) := Evaluating(log, call.id, call.evaluatedAt);
    if current.Ok? {
      var e := Event(call.id, current.value.gate, call.recordedAt,
        DecidedEvent(call.decision, Some(call.approver), Some(call.source), Manual, None));
      if LegalNext(current.value, e) {
        AppendNext(log', e);
      }
    }
  }

  lemma ConsumingKeepsWellKept(log: Log, call: Call)
    requires WellKept(log) && call.ConsumeCall?
    ensures WellKept(Perform(log, call).0)
  {
    EvaluatingKeepsWellKept(log, call.id, call.now);
    var (log', current) := Evaluating(log, call.id, call.now);
    if current.Ok? && current.value.status == Approved {
      var changed := Differences(current.value.checksums, call.checksums);
      var kind := if changed != [] then InvalidatedEvent(changed, call.checksums) else ConsumedEvent;
      AppendNext(log', Event(call.id, current.value.gate, call.now, kind));
    }
  }

  lemma CutShortKeepsWellKept(log: Log, id: string, now: int)
    requires WellKept(log)
    ensures WellKept(CutShort(log, id, now).0)
    ensures CutShort(log, id, now).0 != log ==>
      && Fires(log, id, now)
      && CutShort(log, id, now).0 == log + [Event(id, Current(log, id).value.gate, now, EscalatedEvent)]
      && Current(CutShort(log, id, now).0, id) ==
           Ok(Refine(Current(log, id).value, Event(id, Current(log, id).value.gate, now, EscalatedEvent)))
  {
    if CutShort(log, id, now).0 != log {
      HistoryKeepsId(log, id);
      var v := Current(log, id).value;
      TimeoutEventsAreLegal(v, now);
      AppendNext(log, TimeoutEvents(v, GoverningAction(v), now)[0]);
    }
  }

  lemma PerformKeepsWellKept(log: Log, call: Call)
    requires WellKept(log)
    ensures WellKept(Perform(log, call).0)
  {
    match call
    case RequestCall(id, gate, checksums, policy, now) =>
      var e := Event(id, gate, now, RequestedEvent(policy, FirstDeadline(policy, now), checksums));
      if History(log, id) == [] && policy.required {
        AppendFirst(log, e);
      }
    case EvaluateCall(id, now) => EvaluatingKeepsWellKept(log, id, now);
    case DecideCall(_, _, _, _, _, _) => DecidingKeepsWellKept(log, call);
    case ConsumeCall(_, _, _) => ConsumingKeepsWellKept(log, call);
    case CutShortCall(id, now) => CutShortKeepsWellKept(log, id, now);
  }

  lemma {:induction false} CallsKeepWellKept(log: Log, calls: seq<Call>)
    requires WellKept(log)
    ensures WellKept(AfterCalls(log, calls))
  {
    if calls != [] {
      CallsKeepWellKept(log, calls[..|calls| - 1]);
      PerformKeepsWellKept(AfterCalls(log, calls[..|calls| - 1]), calls[|calls| - 1]);
    }
  }

  // ---- Append-only, ordered and free of interference ----

  /** log' is log with further events of this approval only. */
  ghost predicate Extends(log: Log, log': Log, id: string) {
    log <= log' && forall k :: |log| <= k < |log'| ==> log'[k].id == id
  }

  lemma EvaluatingAppends(log: Log, id: string, now: int)
    ensures Extends(log, Evaluating(log, id, now).0, id)
  {
    if Current(log, id).Ok? {
      HistoryKeepsId(log, id);
    }
  }

  /** Everything a call adds belongs to its own approval. */
  lemma PerformAppends(log: Log, call: Call)
    ensures Extends(log, Perform(log, call).0, call.id)
  {
    match call
    case RequestCall(_, _, _, _, _) =>
    case DecideCall(_, _, _, _, _, _) => DecidingAppends(log, call);
    case EvaluateCall(_, _) => EvaluatingAppends(log, call.id, call.now);
    case ConsumeCall(_, _, _) => ConsumingAppends(log, call);
    case CutShortCall(_, _) =>
      if Current(log, call.id).Ok? {
        HistoryKeepsId(log, call.id);
      }
  }

  lemma ExtendsByOne(a: Log, b: Log, id: string, e: Event)
    requires Extends(a, b, id) && e.id == id
    ensures Extends(a, b + [e], id)
  {
  }

  lemma DecidingAppends(log: Log, call: Call)
    requires call.DecideCall?
    ensures Extends(log, Perform(log, call).0, call.id)
  {
    EvaluatingAppends(log, call.id, call.evaluatedAt);
    var (log', current) := Evaluating(log, call.id, call.evaluatedAt);
    if Perform(log, call).0 != log' {
      ExtendsByOne(log, log', call.id, Event(call.id, current.value.gate, call.recordedAt,
        DecidedEvent(call.decision, Some(call.approver), Some(call.source), Manual, None)));
    }
  }

  lemma ConsumingAppends(log: Log, call: Call)
    requires call.ConsumeCall?
    ensures Extends(log, Perform(log, call).0, call.id)
  {
    EvaluatingAppends(log, call.id, call.now);
    var (log', current) := Evaluating(log, call.id, call.now);
    if Perform(log, call).0 != log' {
      var changed := Differences(current.value.checksums, call.checksums);
      ExtendsByOne(log, log', call.id, Event(call.id, current.value.gate, call.now,
        if changed != [] then InvalidatedEvent(changed, call.checksums) else ConsumedEvent));
    }
  }

  lemma {:induction false} HistoryOfOthers(log: Log, added: Log, id: string)
    requires forall e :: e in added ==> e.id != id
    ensures History(log + added, id) == History(log, id)
  {
    if added == [] {
      assert log + added == log;
    } else {
      var front, last := added[..|added| - 1], added[|added| - 1];
      HistoryOfOthers(log, front, id);
      HistoryAppend(log + front, last, id);
      SumOfFrontAndLast(log, added);
    }
  }

  /** A call on one approval leaves the replay of every other one as it was. */
  lemma CallsDoNotInterfere(log: Log, call: Call, other: string)
    requires call.id != other
    ensures Current(Perform(log, call).0, other) == Current(log, other)
  {
    PerformAppends(log, call);
    var log' := Perform(log, call).0;
    assert log' == log + log'[|log|..];
    HistoryOfOthers(log, log'[|log|..], other);
  }

  lemma {:induction false} HistoryGrows(log: Log, added: Log, id: string)
    ensures History(log, id) <= History(log + added, id)
    decreases |added|
  {
    if added == [] {
      assert log + added == log;
    } else {
      var front, last := added[..|added| - 1], added[|added| - 1];
      HistoryGrows(log, front, id);
      HistoryAppend(log + front, last, id);
      SumOfFrontAndLast(log, added);
    }
  }

  lemma ExtensionGrows(log: Log, log': Log, changed: string, id: string)
    requires Extends(log, log', changed)
    ensures log <= log' && History(log, id) <= History(log', id)
  {
    assert log' == log + log'[|log|..];
    HistoryGrows(log, log'[|log|..], id);
  }

  /** Whatever is called, the log only grows at its end. */
  lemma {:induction false} LogOnlyGrows(log: Log, calls: seq<Call>, id: string)
    ensures log <= AfterCalls(log, calls)
    ensures History(log, id) <= History(AfterCalls(log, calls), id)
  {
    if calls != [] {
      var front, last := calls[..|calls| - 1], calls[|calls| - 1];
      LogOnlyGrows(log, front, id);
      PerformAppends(AfterCalls(log, front), last);
      ExtensionGrows(AfterCalls(log, front), AfterCalls(log, calls), last.id, id);
    }
  }

  // ---- The order of statuses ----

  function Rank(s: Status): nat {
    match s
    case Pending => 0
    case Escalated => 1
    case HumanInterventionRequired => 2
    case Approved => 3
    case _ => 4
  }

  lemma NextStatus(v: Approval, e: Event)
    requires LegalNext(v, e)
    ensures !IsTerminal(v.status) && Refine(v, e).status != Pending
    ensures Rank(v.status) <= Rank(Refine(v, e).status)
    ensures v.extensionGranted ==> Refine(v, e).extensionGranted
    ensures Refine(v, e).policy == v.policy && Refine(v, e).checksums == v.checksums
  {
  }

  function ViewAt(h: Log, k: nat): Approval
    requires k <= |h| && Replay(h[..k]).Some?
  {
    Replay(h[..k]).value
  }

  lemma LegalView(h: Log, k: nat)
    requires LegalHistory(h) && 1 <= k <= |h|
    ensures Replay(h[..k]).Some?
    ensures k < |h| ==> Replay(h[..k + 1]) == Some(Refine(ViewAt(h, k), h[k])) && LegalNext(ViewAt(h, k), h[k])
  {
    ReplayNeedsRequest(h[..k]);
    if k < |h| {
      assert h[..k + 1][..k] == h[..k];
    }
  }

  /** Along a legal history the status never goes back and an extension is never forgotten. */
  lemma {:induction false} ViewsAdvance(h: Log, i: nat, j: nat)
    requires LegalHistory(h) && 1 <= i <= j <= |h|
    ensures Replay(h[..i]).Some? && Replay(h[..j]).Some?
    ensures Rank(ViewAt(h, i).status) <= Rank(ViewAt(h, j).status)
    ensures ViewAt(h, i).extensionGranted ==> ViewAt(h, j).extensionGranted
    ensures ViewAt(h, j).policy == ViewAt(h, i).policy && ViewAt(h, j).checksums == ViewAt(h, i).checksums
    decreases j - i
  {
    LegalView(h, i);
    if i < j {
      NextStatus(ViewAt(h, i), h[i]);
      ViewsAdvance(h, i + 1, j);
    }
  }

  predicate IsTimer(e: Event) {
    e.kind.TimedOutEvent? || (e.kind.DecidedEvent? && e.kind.origin == Auto)
  }

  predicate IsSpending(e: Event) {
    e.kind.ConsumedEvent? || e.kind.InvalidatedEvent?
  }

  /** A legal history does not go back to an earlier kind of event. */
  predicate PairInOrder(e: Event, f: Event) {
    && !IsSpending(e)
    && !(e.kind.EscalatedEvent? && f.kind.EscalatedEvent?)
    && !(e.kind.ExtendedEvent? && f.kind.ExtendedEvent?)
    && (IsTimer(e) ==> !IsTimer(f) && !f.kind.EscalatedEvent? && !f.kind.ExtendedEvent?)
  }

  /** What the views before and after two events say about their order. */
  lemma ViewsOrderEvents(v: Approval, e: Event, w: Approval, f: Event)
    requires LegalNext(v, e) && LegalNext(w, f) && !IsTerminal(w.status)
    requires Rank(Refine(v, e).status) <= Rank(w.status)
    requires Refine(v, e).extensionGranted ==> w.extensionGranted
    ensures PairInOrder(e, f)
  {
  }

  lemma OrderOfEvents(h: Log, i: nat, j: nat)
    requires LegalHistory(h) && 1 <= i < j < |h|
    ensures PairInOrder(h[i], h[j])
  {
    LegalView(h, i);
    LegalView(h, j);
    NextStatus(ViewAt(h, j), h[j]);
    ViewsAdvance(h, i + 1, j);
    ViewsOrderEvents(ViewAt(h, i), h[i], ViewAt(h, j), h[j]);
  }

  lemma StatusAt(h: Log, k: nat)
    requires LegalHistory(h) && 1 <= k <= |h|
    ensures Replay(h[..k]).Some? && (ViewAt(h, k).status == Pending <==> k == 1)
    ensures k < |h| ==> !IsTerminal(ViewAt(h, k).status)
  {
    LegalView(h, k);
    if k > 1 {
      LegalView(h, k - 1);
      NextStatus(ViewAt(h, k - 1), h[k - 1]);
    } else {
      assert h[..1] == [h[0]];
    }
    if k < |h| {
      NextStatus(ViewAt(h, k), h[k]);
    }
  }

  /** PENDING exactly while the request is the only event; a terminal status only at the end. */
  ghost predicate StatusesInOrder(h: Log) {
    forall k :: 1 <= k <= |h| ==>
      && Replay(h[..k]).Some? && (ViewAt(h, k).status == Pending <==> k == 1)
      && (k < |h| ==> !IsTerminal(ViewAt(h, k).status))
  }

  /** Spending is last; escalation, extension and the timer's own outcome happen at most once. */
  ghost predicate EventsInOrder(h: Log) {
    forall i, j :: 1 <= i < j < |h| ==> PairInOrder(h[i], h[j])
  }

  lemma LegalStatuses(h: Log)
    requires LegalHistory(h)
    ensures StatusesInOrder(h)
  {
    forall k | 1 <= k <= |h|
      ensures Replay(h[..k]).Some? && (ViewAt(h, k).status == Pending <==> k == 1)
      ensures k < |h| ==> !IsTerminal(ViewAt(h, k).status)
    {
      StatusAt(h, k);
    }
  }

  lemma LegalEvents(h: Log)
    requires LegalHistory(h)
    ensures EventsInOrder(h)
  {
    forall i, j | 1 <= i < j < |h| ensures PairInOrder(h[i], h[j]) {
      OrderOfEvents(h, i, j);
    }
  }

  /** The life of one approval under any sequence of calls on any approvals. */
  lemma ApprovalLifecycleHolds(calls: seq<Call>, id: string)
    ensures StatusesInOrder(History(AfterCalls([], calls), id))
    ensures EventsInOrder(History(AfterCalls([], calls), id))
  {
    CallsKeepWellKept([], calls);
    LegalStatuses(History(AfterCalls([], calls), id));
    LegalEvents(History(AfterCalls([], calls), id));
  }

  /** Once an approval is terminal no sequence of calls adds another event to it. */
  lemma TerminalAbsorbs(log: Log, calls: seq<Call>, id: string)
    requires WellKept(log) && Current(log, id).Ok? && IsTerminal(Current(log, id).value.status)
    ensures History(AfterCalls(log, calls), id) == History(log, id)
    ensures Current(AfterCalls(log, calls), id) == Current(log, id)
  {
    LogOnlyGrows(log, calls, id);
    CallsKeepWellKept(log, calls);
    var h, h' := History(log, id), History(AfterCalls(log, calls), id);
    if |h| < |h'| {
      assert h'[..|h|] == h;
      LegalView(h', |h|);
      NextStatus(ViewAt(h', |h|), h'[|h|]);
    }
  }

  // ---- Lazy deadlines ----

  /** The first call escalates and no extension moves the deadline. */
  predicate EscalatesInPlace(log: Log, id: string, now: int) {
    && Fires(log, id, now) && Current(log, id).value.status == Pending
    && Current(log, id).value.policy.timeoutAction == Escalate
    && Current(log, id).value.policy.extensionSeconds.None?
  }

  lemma PendingIsUnextended(log: Log, id: string)
    requires WellKept(log) && Current(log, id).Ok? && Current(log, id).value.status == Pending
    ensures !Current(log, id).value.extensionGranted
  {
    var h := History(log, id);
    assert h[..|h|] == h;
    if |h| > 1 {
      LegalView(h, |h| - 1);
      NextStatus(ViewAt(h, |h| - 1), h[|h| - 1]);
    }
  }

  lemma DueAfterTimeout(v: Approval, now: int)
    requires IsDue(v, now) && (v.status == Pending ==> !v.extensionGranted)
    ensures IsDue(TimedOutView(v, now), now) <==>
      v.status == Pending && v.policy.timeoutAction == Escalate && v.policy.extensionSeconds.None?
  {
    TimeoutEventsAreLegal(v, now);
    TimedOutStatus(v, now);
  }

  /** After one evaluation the same instant is due again only after an escalation in place. */
  lemma FiresAgain(log: Log, id: string, now: int)
    requires WellKept(log)
    ensures Fires(Evaluating(log, id, now).0, id, now) <==> EscalatesInPlace(log, id, now)
    ensures EscalatesInPlace(log, id, now) ==>
      Current(Evaluating(log, id, now).0, id).value.status == Escalated
  {
    if Fires(log, id, now) {
      var v := Current(log, id).value;
      DeadlineFires(log, id, now);
      if v.status == Pending {
        PendingIsUnextended(log, id);
      }
      DueAfterTimeout(v, now);
      TimeoutEventsAreLegal(v, now);
      TimedOutStatus(v, now);
    }
  }

  /**
   At one instant evaluation settles in at most two calls, and a second call changes the log
   exactly when the first one escalated with no extension configured.
   */
  lemma EvaluationFixpoint(log: Log, id: string, now: int)
    requires WellKept(log)
    ensures var once := Evaluating(log, id, now).0;
      var twice := Evaluating(once, id, now).0;
      && Evaluating(twice, id, now).0 == twice
      && (twice == once <==> !EscalatesInPlace(log, id, now))
  {
    var once := Evaluating(log, id, now).0;
    EvaluatingKeepsWellKept(log, id, now);
    FiresAgain(log, id, now);
    FiresAgain(once, id, now);
    if Current(once, id).Ok? {
      HistoryKeepsId(once, id);
    }
  }

  // ---- An escalation cut short ----

  /** Escalated or later, with no extension granted. */
  predicate PastExtension(log: Log, id: string) {
    Current(log, id).Ok? && Current(log, id).value.status != Pending && !Current(log, id).value.extensionGranted
  }

  lemma EvaluatingKeepsPast(log: Log, id: string, now: int)
    requires WellKept(log) && PastExtension(log, id)
    ensures PastExtension(Evaluating(log, id, now).0, id)
  {
    if Fires(log, id, now) {
      DeadlineFires(log, id, now);
      TimeoutEventsAreLegal(Current(log, id).value, now);
    }
  }

  lemma AppendKeepsPast(log: Log, e: Event)
    requires WellKept(log) && PastExtension(log, e.id) && !e.kind.ExtendedEvent?
    requires LegalNext(Current(log, e.id).value, e)
    ensures PastExtension(log + [e], e.id)
  {
    AppendNext(log, e);
    NextStatus(Current(log, e.id).value, e);
  }

  lemma PerformKeepsPast(log: Log, call: Call, id: string)
    requires WellKept(log) && PastExtension(log, id)
    ensures PastExtension(Perform(log, call).0, id)
  {
    if call.id != id {
      CallsDoNotInterfere(log, call, id);
    } else {
      match call
      case RequestCall(_, _, _, _, _) =>
      case EvaluateCall(_, now) => EvaluatingKeepsPast(log, id, now);
      case CutShortCall(_, now) => CutShortKeepsWellKept(log, id, now);
      case DecideCall(_, _, _, _, _, _) => DecidingKeepsPast(log, call);
      case ConsumeCall(_, _, _) => ConsumingKeepsPast(log, call);
    }
  }

  lemma DecidingKeepsPast(log: Log, call: Call)
    requires WellKept(log) && call.DecideCall? && PastExtension(log, call.id)
    ensures PastExtension(Perform(log, call).0, call.id)
  {
    EvaluatingKeepsPast(log, call.id, call.evaluatedAt);
    EvaluatingKeepsWellKept(log, call.id, call.evaluatedAt);
    var (log', current) := Evaluating(log, call.id, call.evaluatedAt);
    if Perform(log, call).0 != log' {
      AppendKeepsPast(log', Event(call.id, current.value.gate, call.recordedAt,
        DecidedEvent(call.decision, Some(call.approver), Some(call.source), Manual, None)));
    }
  }

  lemma ConsumingKeepsPast(log: Log, call: Call)
    requires WellKept(log) && call.ConsumeCall? && PastExtension(log, call.id)
    ensures PastExtension(Perform(log, call).0, call.id)
  {
    EvaluatingKeepsPast(log, call.id, call.now);
    EvaluatingKeepsWellKept(log, call.id, call.now);
    var (log', current) := Evaluating(log, call.id, call.now);
    if Perform(log, call).0 != log' {
      var changed := Differences(current.value.checksums, call.checksums);
      AppendKeepsPast(log', Event(call.id, current.value.gate, call.now,
        if changed != [] then InvalidatedEvent(changed, call.checksums) else ConsumedEvent));
    }
  }

  lemma {:induction false} CallsKeepPast(log: Log, calls: seq<Call>, id: string)
    requires WellKept(log) && PastExtension(log, id)
    ensures PastExtension(AfterCalls(log, calls), id)
  {
    if calls != [] {
      CallsKeepPast(log, calls[..|calls| - 1], id);
      CallsKeepWellKept(log, calls[..|calls| - 1]);
      PerformKeepsPast(AfterCalls(log, calls[..|calls| - 1]), calls[|calls| - 1], id);
    }
  }

  /** The escalation of a pending approval that is about to be extended is cut short. */
  predicate LosesExtension(log: Log, id: string, now: int) {
    && Fires(log, id, now) && Current(log, id).value.status == Pending
    && Current(log, id).value.policy.timeoutAction == Escalate
    && Current(log, id).value.policy.extensionSeconds.Some?
  }

  lemma ExtendedEscalation(v: Approval, now: int)
    requires v.status == Pending && v.policy.timeoutAction == Escalate && !v.extensionGranted
    requires v.policy.extensionSeconds.Some?
    ensures TimeoutEvents(v, GoverningAction(v), now) ==
      [Event(v.id, v.gate, now, EscalatedEvent)]
      + [Event(v.id, v.gate, now, ExtendedEvent(now + v.policy.extensionSeconds.value))]
  {
  }

  /** Only the first of the two events is written. */
  lemma CutShortEscalates(log: Log, id: string, now: int)
    requires WellKept(log) && LosesExtension(log, id, now)
    ensures var v := Current(log, id).value;
      var cut := CutShort(log, id, now).0;
      && WellKept(cut) && InOrder(cut, now) && PastExtension(cut, id)
      && Current(cut, id).value.status == Escalated && Current(cut, id).value.deadline == v.deadline
      && Current(cut, id).value.policy == v.policy
  {
    PendingIsUnextended(log, id);
    ExtendedEscalation(Current(log, id).value, now);
    CutShortKeepsWellKept(log, id, now);
    var v := Current(log, id).value;
    var first := Event(v.id, v.gate, now, EscalatedEvent);
    assert CutShort(log, id, now).0 == log + [first];
  }

  /**
   A process that dies between the two events of an escalation loses the extension for good: the
   approval is escalated with its deadline already passed, whatever is called afterwards never
   extends it, and the next evaluation applies the fallback action at once.
   */
  lemma CutShortLosesExtension(log: Log, id: string, now: int, later: int, calls: seq<Call>)
    requires WellKept(log) && LosesExtension(log, id, now) && now <= later
    ensures var v := Current(log, id).value;
      var cut := CutShort(log, id, now).0;
      && PastExtension(AfterCalls(cut, calls), id)
      && Current(cut, id).Ok? && Current(cut, id).value.status == Escalated
      && Evaluating(cut, id, later).1.Ok?
      && Evaluating(cut, id, later).1.value.status == StatusForTimeout(v.policy.fallbackAction)
  {
    CutShortEscalates(log, id, now);
    var cut := CutShort(log, id, now).0;
    CallsKeepPast(cut, calls, id);
    assert Fires(cut, id, later);
    DeadlineFires(cut, id, later);
    TimeoutEventsAreLegal(Current(cut, id).value, later);
    TimedOutStatus(Current(cut, id).value, later);
  }

  /** An undisturbed escalation waits for the whole extension. */
  lemma EscalationWaits(log: Log, id: string, now: int, later: int)
    requires WellKept(log) && LosesExtension(log, id, now)
    ensures var v := Current(log, id).value;
      var whole := Evaluating(log, id, now).0;
      && Current(whole, id).Ok? && Current(whole, id).value.extensionGranted
      && (later < now + v.policy.extensionSeconds.value ==> Evaluating(whole, id, later) == (whole, Current(whole, id)))
  {
    PendingIsUnextended(log, id);
    ExtendedEscalation(Current(log, id).value, now);
    DeadlineFires(log, id, now);
  }

  /** A due deadline has two events exactly for a pending approval that escalates with an extension. */
  lemma TwoEventsExactly(log: Log, id: string, now: int)
    requires WellKept(log) && Fires(log, id, now)
    ensures var v := Current(log, id).value;
      |TimeoutEvents(v, GoverningAction(v), now)| == 2 <==> LosesExtension(log, id, now)
  {
    var v := Current(log, id).value;
    TimeoutEventsAreLegal(v, now);
    if v.status == Pending {
      PendingIsUnextended(log, id);
    }
  }

  /** A cut evaluation leaves something behind exactly where an extension is lost. */
  lemma CutShortWritesExactly(log: Log, id: string, now: int)
    requires WellKept(log)
    ensures CutShort(log, id, now).0 != log <==> LosesExtension(log, id, now)
  {
    if Fires(log, id, now) {
      TwoEventsExactly(log, id, now);
    }
  }

  predicate Extended(log: Log, id: string) {
    Current(log, id).Ok? && Current(log, id).value.extensionGranted
  }

  /** The whole evaluation extends the approval, and after the cut one no calls ever do. */
  ghost predicate ExtensionIsLost(log: Log, id: string, now: int) {
    && Extended(Evaluating(log, id, now).0, id)
    && forall calls :: !Extended(AfterCalls(CutShort(log, id, now).0, calls), id)
  }

  /** The evaluation made again after the cut one, at the same instant, gives what the whole one would have. */
  predicate RetryCatchesUp(log: Log, id: string, now: int) {
    Evaluating(CutShort(log, id, now).0, id, now) == Evaluating(log, id, now)
  }

  lemma LostIfCut(log: Log, id: string, now: int)
    requires WellKept(log) && LosesExtension(log, id, now)
    ensures ExtensionIsLost(log, id, now) && !RetryCatchesUp(log, id, now)
  {
    EscalationWaits(log, id, now, now);
    forall calls ensures !Extended(AfterCalls(CutShort(log, id, now).0, calls), id) {
      CutShortLosesExtension(log, id, now, now, calls);
    }
    CutShortEscalates(log, id, now);
    EvaluatingKeepsPast(CutShort(log, id, now).0, id, now);
    assert !Extended(Evaluating(CutShort(log, id, now).0, id, now).0, id);
  }

  lemma KeptIfNot(log: Log, id: string, now: int)
    requires WellKept(log) && !LosesExtension(log, id, now)
    ensures !ExtensionIsLost(log, id, now)
  {
    CutShortWritesExactly(log, id, now);
    OneEventExtendsNothing(log, id, now);
    if Extended(Evaluating(log, id, now).0, id) {
      assert AfterCalls(log, []) == log;
    }
  }

  lemma OneEventExtendsNothing(log: Log, id: string, now: int)
    requires WellKept(log) && !LosesExtension(log, id, now)
    ensures Extended(Evaluating(log, id, now).0, id) ==> Extended(log, id)
  {
    if Fires(log, id, now) {
      TwoEventsExactly(log, id, now);
      DeadlineFires(log, id, now);
      TimeoutEventsAreLegal(Current(log, id).value, now);
    }
  }

  /**
   A death inside an evaluation costs something exactly where a pending approval was about to escalate
   with an extension. There no sequence of calls ever grants the extension, and the evaluation made
   again takes another effect. Anywhere else the log is what it was before, so that whatever is called
   afterwards goes as if the evaluation had not been begun, and made again it catches up.
   */
  lemma CutShortIsExact(log: Log, id: string, now: int)
    requires WellKept(log)
    ensures ExtensionIsLost(log, id, now) <==> LosesExtension(log, id, now)
    ensures RetryCatchesUp(log, id, now) <==> !LosesExtension(log, id, now)
    ensures !LosesExtension(log, id, now) <==>
      forall calls :: AfterCalls(CutShort(log, id, now).0, calls) == AfterCalls(log, calls)
  {
    CutShortWritesExactly(log, id, now);
    if LosesExtension(log, id, now) {
      LostIfCut(log, id, now);
      assert AfterCalls(CutShort(log, id, now).0, []) != AfterCalls(log, []);
    } else {
      KeptIfNot(log, id, now);
    }
  }

  const EXTENDING: ApprovalPolicy :=
    Policy(true, Some(60), Escalate, [Cli], [], ["lead"], Some(30), Pause, Gate, BuiltIn)

  const WAITING: Log := [Event("a", "gate", 0, RequestedEvent(EXTENDING, Some(60), ANY_CHECKSUMS))]

  /** One request that escalates after a minute with half a minute of extension; the death comes at that minute. */
  lemma ExtensionLostAfterOneRequest()
    ensures var log := AfterCalls([], [RequestCall("a", "gate", ANY_CHECKSUMS, EXTENDING, 0)]);
      LosesExtension(log, "a", 60) && ExtensionIsLost(log, "a", 60)
  {
    var calls := [RequestCall("a", "gate", ANY_CHECKSUMS, EXTENDING, 0)];
    assert calls[..0] == [] && AfterCalls([], calls) == WAITING;
    assert WAITING[..0] == [] && History(WAITING, "a") == WAITING;
    CallsKeepWellKept([], calls);
    assert LosesExtension(WAITING, "a", 60);
    CutShortIsExact(WAITING, "a", 60);
  }

  // ---- A log at which one evaluation does not settle ----

  const ESCALATING: ApprovalPolicy :=
    Policy(true, Some(60), Escalate, [Cli], [], ["lead"], None, Pause, Gate, BuiltIn)

  const ANY_CHECKSUMS: Checksums := Checksums("r", "d", "a", "g")

  const OPENED: Log := [Event("a", "gate", 0, RequestedEvent(ESCALATING, Some(60), ANY_CHECKSUMS))]

  /** One request, escalating after a minute without extension; two evaluations at that minute differ. */
  lemma EscalationAdvancesTwice()
    ensures var log := AfterCalls([], [RequestCall("a", "gate", ANY_CHECKSUMS, ESCALATING, 0)]);
      && EscalatesInPlace(log, "a", 60)
      && Evaluating(Evaluating(log, "a", 60).0, "a", 60).0 != Evaluating(log, "a", 60).0
  {
    var calls := [RequestCall("a", "gate", ANY_CHECKSUMS, ESCALATING, 0)];
    assert calls[..0] == [] && AfterCalls([], calls) == OPENED;
    assert OPENED[..0] == [] && History(OPENED, "a") == OPENED;
    CallsKeepWellKept([], calls);
    EvaluationFixpoint(OPENED, "a", 60);
  }

  // ---- Where permission comes from ----

  lemma BoundAtRequest(h: Log, k: nat)
    requires LegalHistory(h) && 1 <= k <= |h|
    ensures Replay(h[..k]).Some?
    ensures ViewAt(h, k).policy == h[0].kind.policy && ViewAt(h, k).checksums == h[0].kind.checksums
  {
    ViewsAdvance(h, 1, k);
    assert h[..1] == [h[0]];
  }

  /** The layer that selected AUTO_APPROVE for this field of the policy. */
  predicate SelectedBy(source: PolicyLayer, gate: Option<TimeoutAction>, run: Option<TimeoutAction>) {
    || (source == Run && run == Some(AutoApprove))
    || (source == Gate && gate == Some(AutoApprove))
  }

  function TimeoutActionOf(o: Option<Overlay>): Option<TimeoutAction> {
    if o.Some? then o.value.timeoutAction else None
  }

  function FallbackActionOf(o: Option<Overlay>): Option<TimeoutAction> {
    if o.Some? then o.value.fallbackAction else None
  }

  /**
   An automatic decision means that the deadline had passed and that the action that governed it,
   the timeout action of a pending approval or the fallback action of an escalated one, was set to
   AUTO_APPROVE by the gate or the run itself, in the very layer the policy names as its source.
   */
  lemma AutomaticApprovalWasOptedInto(
    calls: seq<Call>, id: string, k: nat,
    project: Option<Overlay>, gate: Option<Overlay>, run: Option<Overlay>)
    requires var h := History(AfterCalls([], calls), id);
      && 1 <= k < |h| && h[k].kind.DecidedEvent? && h[k].kind.origin == Auto
      && h[0].kind.RequestedEvent? && Resolved(project, gate, run) == Ok(h[0].kind.policy)
    ensures var h := History(AfterCalls([], calls), id);
      && h[k].kind.decision == Approve
      && Replay(h[..k]).Some? && ViewAt(h, k).deadline.Some? && ViewAt(h, k).deadline.value <= h[k].at
      && var policy := h[0].kind.policy;
         match ViewAt(h, k).status
         case Pending => SelectedBy(policy.actionSource, TimeoutActionOf(gate), TimeoutActionOf(run))
         case Escalated => SelectedBy(policy.fallbackSource, FallbackActionOf(gate), FallbackActionOf(run))
         case _ => false
  {
    CallsKeepWellKept([], calls);
    var h := History(AfterCalls([], calls), id);
    LegalView(h, k);
    BoundAtRequest(h, k);
    AutoApproveIsOptedInto(project, gate, run);
  }

  /** The checksums bound by the request that opened this approval. */
  lemma BoundChecksums(log: Log, id: string)
    requires WellKept(log) && Current(log, id).Ok?
    ensures History(log, id) != [] && History(log, id)[0].kind.RequestedEvent?
    ensures Current(log, id).value.checksums == History(log, id)[0].kind.checksums
  {
    var h := History(log, id);
    BoundAtRequest(h, |h|);
    assert h[..|h|] == h;
  }

  lemma EvaluationKeepsBinding(log: Log, id: string, now: int)
    requires WellKept(log) && Evaluating(log, id, now).1.Ok?
    ensures Current(log, id).Ok?
    ensures Evaluating(log, id, now).1.value.checksums == Current(log, id).value.checksums
  {
    var log' := Evaluating(log, id, now).0;
    EvaluatingKeepsWellKept(log, id, now);
    EvaluatingAppends(log, id, now);
    assert log' == log + log'[|log|..];
    HistoryGrows(log, log'[|log|..], id);
    BoundChecksums(log', id);
    BoundChecksums(log, id);
  }

  /**
   Spending is exact: with the evaluated view in hand, consumption succeeds precisely when the
   approval is approved and all four presented checksums are the ones bound at the request, and
   invalidates with exactly the differing kinds otherwise.
   */
  lemma ConsumptionIsExact(log: Log, id: string, checksums: Checksums, now: int)
    requires WellKept(log)
    ensures var (log', current) := Evaluating(log, id, now);
      Consuming(log, id, checksums, now).1.Ok? <==>
        current.Ok? && current.value.status == Approved && InOrder(log', now)
    ensures var answer := Consuming(log, id, checksums, now).1;
      answer.Ok? ==>
        && History(log, id) != [] && History(log, id)[0].kind.RequestedEvent?
        && var bound := History(log, id)[0].kind.checksums;
           if bound == checksums then answer.value.status == Consumed
           else answer.value.status == Invalidated && answer.value.invalidated == Differences(bound, checksums)
  {
    EvaluatingKeepsWellKept(log, id, now);
    var (log', current) := Evaluating(log, id, now);
    if current.Ok? && current.value.status == Approved && InOrder(log', now) {
      var changed := Differences(current.value.checksums, checksums);
      var kind := if changed != [] then InvalidatedEvent(changed, checksums) else ConsumedEvent;
      AppendNext(log', Event(id, current.value.gate, now, kind));
      EvaluationKeepsBinding(log, id, now);
      BoundChecksums(log, id);
    }
  }

  lemma TimeoutIsRecorded(log: Log, id: string, now: int)
    requires WellKept(log) && Fires(log, id, now)
    requires GoverningAction(Current(log, id).value) in {Fail, Cancel, Pause}
    ensures var v := Current(log, id).value;
      var (log', answer) := Evaluating(log, id, now);
      && WellKept(log') && InOrder(log', now) && answer == Current(log', id)
      && answer.Ok? && answer.value.policy == v.policy
      && answer.value.status == StatusForTimeout(GoverningAction(v))
  {
    DeadlineFires(log, id, now);
    TimeoutEventsAreLegal(Current(log, id).value, now);
    TimedOutStatus(Current(log, id).value, now);
  }

  /** A decision that arrives after a FAIL or CANCEL deadline is refused. */
  lemma LateDecisionRefused(
    log: Log, id: string, decision: Decision, approver: string, source: Channel, evaluatedAt: int, recordedAt: int)
    requires WellKept(log) && Fires(log, id, evaluatedAt)
    requires GoverningAction(Current(log, id).value) in {Fail, Cancel}
    ensures var (log', answer) := Deciding(log, id, decision, approver, source, evaluatedAt, recordedAt);
      && answer == Err(Settled) && Current(log', id).Ok?
      && Current(log', id).value.status == StatusForTimeout(GoverningAction(Current(log, id).value))
  {
    TimeoutIsRecorded(log, id, evaluatedAt);
  }

  /** A permitted decision on an open approval is recorded and becomes its status. */
  lemma DecisionAccepted(
    log: Log, id: string, decision: Decision, approver: string, source: Channel, evaluatedAt: int, recordedAt: int)
    requires WellKept(log)
    requires var (log', current) := Evaluating(log, id, evaluatedAt);
      && current.Ok? && !IsTerminal(current.value.status) && InOrder(log', recordedAt)
      && source in current.value.policy.channels && approver != ""
      && (current.value.policy.approvers == [] || approver in current.value.policy.approvers)
    ensures var (log', answer) := Deciding(log, id, decision, approver, source, evaluatedAt, recordedAt);
      answer.Ok? && Current(log', id) == answer && answer.value.status == StatusForDecision(decision)
  {
    EvaluatingKeepsWellKept(log, id, evaluatedAt);
    var (log', current) := Evaluating(log, id, evaluatedAt);
    AppendNext(log', Event(id, current.value.gate, recordedAt,
      DecidedEvent(decision, Some(approver), Some(source), Manual, None)));
  }

  /** After a PAUSE deadline the approval still takes the decision it was waiting for. */
  lemma LateDecisionAfterPause(
    log: Log, id: string, decision: Decision, approver: string, source: Channel, evaluatedAt: int, recordedAt: int)
    requires WellKept(log) && Fires(log, id, evaluatedAt) && evaluatedAt <= recordedAt
    requires GoverningAction(Current(log, id).value) == Pause
    requires var policy := Current(log, id).value.policy;
      source in policy.channels && approver != "" && (policy.approvers == [] || approver in policy.approvers)
    ensures var (log', answer) := Deciding(log, id, decision, approver, source, evaluatedAt, recordedAt);
      answer.Ok? && Current(log', id) == answer && answer.value.status == StatusForDecision(decision)
  {
    TimeoutIsRecorded(log, id, evaluatedAt);
    var (log', current) := Evaluating(log, id, evaluatedAt);
    assert current.value.status == HumanInterventionRequired && InOrder(log', recordedAt);
    DecisionAccepted(log, id, decision, approver, source, evaluatedAt, recordedAt);
  }
}
