/**
 The deterministic validation gate and the bounded repair loop of
 agentos_workflow/agents/__init__.py.
 */
module RepairLoop {
  import opened Support

  // ---- The validation gate ----

  /** What calling one validation Skill gives. */
  datatype SkillAnswer = Unbound | CouldNotRun(error: string) | Ran(passed: bool, description: string)

  datatype Check = Check(name: string, passed: bool, detail: string)

  datatype Validation = Validation(passed: bool, checks: seq<Check>)

  const GATE_CHECKS: seq<string> := [
    "run_scope_validation", "run_secret_detection", "run_formatting_checks", "run_lint", "run_tests",
    "run_security_checks", "validate_completion_report"]

  function Interpret(name: string, answer: SkillAnswer): Check {
    match answer
    case Unbound => Check(name, false, "skill '" + name + "' is not bound")
    case CouldNotRun(error) => Check(name, false, error)
    case Ran(passed, description) => Check(name, passed, if passed then "" else description)
  }

  function FailedChecks(v: Validation): (failed: seq<Check>)
    ensures forall c :: c in failed <==> c in v.checks && !c.passed
  {
    FailedOf(v.checks)
  }

  function FailedOf(checks: seq<Check>): (failed: seq<Check>)
    ensures forall c :: c in failed <==> c in checks && !c.passed
  {
    if checks == [] then []
    else
      var last := checks[|checks| - 1];
      FailedOf(checks[..|checks| - 1]) + if last.passed then [] else [last]
  }

  function Failures(checks: seq<Check>): nat {
    if checks == [] then 0
    else Failures(checks[..|checks| - 1]) + if checks[|checks| - 1].passed then 0 else 1
  }

  /** Each failed check stands behind those that failed before it, and there are no others. */
  ghost predicate AreTheFailed(checks: seq<Check>, failed: seq<Check>) {
    && |failed| == Failures(checks)
    && forall k :: 0 <= k < |checks| && !checks[k].passed ==>
         Failures(checks[..k]) < |failed| && failed[Failures(checks[..k])] == checks[k]
  }

  lemma {:induction false} FailedInOrder(checks: seq<Check>)
    ensures AreTheFailed(checks, FailedOf(checks))
  {
    if checks != [] {
      var front := checks[..|checks| - 1];
      FailedInOrder(front);
      forall k | 0 <= k < |checks| ensures checks[..k] == if k < |front| then front[..k] else front {
      }
    }
  }

  /** A check that passed needs no detail; one that failed names what was missing, went wrong or was found. */
  predicate Explains(answers: map<string, SkillAnswer>, check: Check) {
    && (check.passed ==> check.detail == "")
    && (check.name !in answers || answers[check.name].Unbound? ==>
          check.detail == "skill '" + check.name + "' is not bound")
    && (check.name in answers && answers[check.name].CouldNotRun? ==> check.detail == answers[check.name].error)
    && (check.name in answers && answers[check.name].Ran? && !check.passed ==>
          check.detail == answers[check.name].description)
  }

  /** Every check runs, in order, whatever the others found; the gate passes when all of them do. */
  method RunDeterministicValidation(answers: map<string, SkillAnswer>) returns (v: Validation)
    ensures |v.checks| == |GATE_CHECKS|
    ensures forall i :: 0 <= i < |GATE_CHECKS| ==>
      v.checks[i].name == GATE_CHECKS[i]
      && (v.checks[i].passed <==>
            GATE_CHECKS[i] in answers && answers[GATE_CHECKS[i]].Ran? && answers[GATE_CHECKS[i]].passed)
      && Explains(answers, v.checks[i])
    ensures v.passed <==> FailedChecks(v) == []
    ensures v.passed <==> forall i :: 0 <= i < |GATE_CHECKS| ==> v.checks[i].passed
  {
    var checks: seq<Check> := [];
    var allPassed := true;
    for i := 0 to |GATE_CHECKS|
      invariant |checks| == i
      invariant forall k :: 0 <= k < i ==>
        checks[k].name == GATE_CHECKS[k]
        && (checks[k].passed <==>
              GATE_CHECKS[k] in answers && answers[GATE_CHECKS[k]].Ran? && answers[GATE_CHECKS[k]].passed)
        && Explains(answers, checks[k])
      invariant allPassed <==> forall c :: c in checks ==> c.passed
    {
      var name := GATE_CHECKS[i];
      var check := Interpret(name, if name in answers then answers[name] else Unbound);
      checks := checks + [check];
      allPassed := allPassed && check.passed;
    }
    v := Validation(allPassed, checks);
    assert FailedChecks(v) != [] ==> FailedChecks(v)[0] in FailedChecks(v);
    if !allPassed {
      var c :| c in checks && !c.passed;
      assert c in FailedChecks(v);
    }
  }

  // ---- The repair loop ----

  datatype AgentResult = AgentResult(ok: bool, error: string, findings: seq<string>)

  /** What an attempt is told: the caller's report, or the one built from the round before it. */
  datatype Report =
    | InitialReport(content: string)
    | LatestReport(attempt: nat, failedChecks: Option<seq<Check>>, qa: Option<AgentResult>)

  datatype Attempt = Attempt(
    number: nat, implementation: AgentResult, validation: Option<Validation>, qa: Option<AgentResult>, passed: bool)

  /** The answers one attempt gets from the repair provider, the gate and the independent reviewer. */
  datatype Round = Round(implementation: AgentResult, validation: Validation, qa: AgentResult)

  predicate Passes(r: Round) {
    r.implementation.ok && r.validation.passed && r.qa.ok
  }

  function LatestFailureReport(r: Round, attempt: nat): (report: Report)
    ensures report.LatestReport? && report.attempt == attempt
    ensures report.failedChecks.Some? <==> !r.validation.passed
    ensures report.qa.Some? <==> !r.qa.ok
  {
    LatestReport(
      attempt, if r.validation.passed then None else Some(FailedChecks(r.validation)),
      if r.qa.ok then None else Some(r.qa))
  }

  /** The report on a round holds the failed checks if the gate failed and the reviewer's answer if the review did. */
  lemma ReportTells(r: Round, attempt: nat)
    ensures
      var report := LatestFailureReport(r, attempt);
      && report.attempt == attempt
      && (if r.validation.passed then report.failedChecks == None
          else report.failedChecks.Some? && AreTheFailed(r.validation.checks, report.failedChecks.value))
      && (if r.qa.ok then report.qa == None else report.qa == Some(r.qa))
  {
    FailedInOrder(r.validation.checks);
  }

  function Budget(limit: int): nat {
    if limit < 0 then 0 else limit
  }

  /**
   rounds are the answers each successive attempt would get. The loop runs attempt after attempt
   until one passes, one is unusable, or the budget is spent.
   */
  method RunRepairLoop(initial: Report, limit: int, rounds: seq<Round>)
    returns (repaired: bool, exhausted: bool, attempts: seq<Attempt>, received: seq<Report>)
    requires |rounds| >= Budget(limit)
    ensures |attempts| == |received| <= Budget(limit)
    // numbered from one, each with the answers of its own round
    ensures forall k :: 0 <= k < |attempts| ==>
      && attempts[k].number == k + 1 && attempts[k].implementation == rounds[k].implementation
      && (rounds[k].implementation.ok ==>
            attempts[k].validation == Some(rounds[k].validation) && attempts[k].qa == Some(rounds[k].qa))
      && (!rounds[k].implementation.ok ==> attempts[k].validation == None && attempts[k].qa == None)
      && (attempts[k].passed <==> Passes(rounds[k]))
    // the report received is always the one built from the round just before
    ensures forall k :: 0 <= k < |received| ==>
      received[k] == if k == 0 then initial else LatestFailureReport(rounds[k - 1], k)
    // no attempt after one that passed or was unusable
    ensures forall k :: 0 <= k < |attempts| - 1 ==> rounds[k].implementation.ok && !Passes(rounds[k])
    ensures repaired <==> attempts != [] && Passes(rounds[|attempts| - 1])
    ensures exhausted <==>
      && |attempts| == Budget(limit)
      && forall k :: 0 <= k < |attempts| ==> rounds[k].implementation.ok && !Passes(rounds[k])
    ensures !repaired && !exhausted ==> attempts != [] && !rounds[|attempts| - 1].implementation.ok
  {
    attempts, received := [], [];
    repaired, exhausted := false, false;
    var latest := initial;
    var n := 1;
    while n <= Budget(limit)
      invariant 1 <= n <= Budget(limit) + 1 && |attempts| == |received| == n - 1
      invariant latest == if n == 1 then initial else LatestFailureReport(rounds[n - 2], n - 1)
      invariant forall k :: 0 <= k < n - 1 ==>
        && attempts[k].number == k + 1 && attempts[k].implementation == rounds[k].implementation
        && attempts[k].validation == Some(rounds[k].validation) && attempts[k].qa == Some(rounds[k].qa)
        && !attempts[k].passed && rounds[k].implementation.ok && !Passes(rounds[k])
      invariant forall k :: 0 <= k < n - 1 ==>
        received[k] == if k == 0 then initial else LatestFailureReport(rounds[k - 1], k)
    {
      var round := rounds[n - 1];
      received := received + [latest];
      if !round.implementation.ok {
        attempts := attempts + [Attempt(n, round.implementation, None, None, false)];
        return;
      }
      var passed := round.validation.passed && round.qa.ok;
      attempts := attempts + [Attempt(n, round.implementation, Some(round.validation), Some(round.qa), passed)];
      if passed {
        repaired := true;
        return;
      }
      latest := LatestFailureReport(round, n);
      n := n + 1;
    }
    exhausted := true;
  }
}
