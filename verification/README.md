# Verified model of the orchestration engine and the dashboard's stores

The repository drives staged, human-approved changes through a workflow and shows them in a local
dashboard. This project models the parts of it that keep state, in Dafny, and proves what they
promise over whole runs. Nothing here was executed; everything stated is what the verifier accepts
of the model.

| area | modules | what is proved |
|---|---|---|
| feature-state engine | `PrerequisiteGraph`, `FeatureState`, `FeatureEffects`, `FeatureValidation`, `FeatureRuns`, `FeatureCases` | the cycle search is sound and complete, which ground refuses a request, what an accepted one changes and records, the exact condition under which a write keeps a document valid, serial delivery over every run, and exactly when delivery can still be completed |
| audit mirror | `MirrorLines`, `MirrorProtocol`, `DashboardConnection`, `MirrorInspection`, `CodecWitness` | the dual write of database rows and mirror lines at byte level, with a crash possible between any two writes, what the inspection reports, completely up to its bound, and what it can find afterwards |
| idempotent creation | `IdempotentCreation`, `CreationEffects` | the client-token protocol under any interleaving of clients, and the rows and inserts it leaves, field by field |
| audit timeline | `AuditTimeline` | pages are slices of one merged timeline, and what that timeline holds in which order |
| approvals | `ApprovalPolicies`, `Approvals`, `ApprovalEffects`, `ApprovalLifecycle` | layered policies, what each call answers and records, and the life of event-sourced approvals under any sequence of calls |
| workflow drivers | `DriverLoop`, `WorkflowSessions`, `ImplementerRun`, `ImplementerOutcomes`, `MergeCloseout`, `WorkflowLife`, `WorkflowDelivery`, `WorkflowCases` | bounded runs over the transition table with durable attempt counters, aborts included; which answers of the world lead each step where; the whole life of a workflow over any number of runs of both drivers, approval calls and operators, and what must have opened each gate it passed; when exactly it is stuck, and exactly which sessions can still be delivered and which finished |
| repair loop | `RepairLoop` | which attempts are made, what each is told and how the loop ends |
| renderer | `GovernanceRenderer` | rendering makes of the lines the blocks that their runs make up, conserves content and nests lists properly |

`Support` holds options, results and three facts about sequences; `ActionRuns` holds runs of a state machine and
what they keep, for the machines below.

## How the model is laid out

Code that updates state is a method (of a class where the source has an object) proved against a
specification function of the old state; the theorems are lemmas about those functions. A protocol
that other processes interleave with, or that a crash can cut short, is a state machine: a step
function that gives the state after an action or nothing where the action is not enabled, runs of it
in `ActionRuns`, and an invariant that every action keeps. The classes `Dashboard` and `Store` then
perform the source's own steps and are proved to be runs of their machine.

What the world answers is a parameter wherever the answer decides a branch (`World` for the two
drivers, the rounds of the repair loop, the observations of the poll). Where a failure may strike
at an arbitrary point, the method chooses arbitrarily, and a `healthy` or `quiet` argument states
what happens when nothing fails. Instants are integers.

The mirror theorems assume three laws of the line codec; `CodecWitness.LawfulCodecExists` gives a codec
that meets them, so that they are not vacuous.

### Where the code and its documentation differ

The model follows the code. Each entry names the lemmas that show the difference.

- `docs/implementation/orchestration/session-protocol.md` lets an approved stage be superseded by an amendment; the
  transition table (`scripts/orchestration_feature_state.py:148-162`) has no such edge. An approved
  stage keeps its record for ever (`SettledForever`).
- Superseding the first eligible stage does not skip it: the scheduler keeps choosing it, so
  delivery ends (`SupersededFocusStalls`; a valid plan to which it happens is in
  `FeatureCases.SupersedingEndsDelivery`).
- A blocker may have a null code (`scripts/orchestration_feature_state.py:256-278`), and a resolution
  names a code (`scripts/orchestration_feature_state.py:1138-1146`), so an open blocker without one stays open. A
  global one keeps every unstarted stage from starting (`FeatureCases.NamelessBlockerEndsDelivery`), a
  local one keeps its blocked stage blocked (`FeatureCases.NamelessBlockerHoldsItsStage`). `CompletionExact` gives the exact condition, with
  both cases in it, under which a document can still be delivered.
- `evaluate_approval` is documented as idempotent. An escalation without an extension advances
  again on a second call at the same instant; `EvaluationFixpoint` states when, and that two calls
  always suffice, and `EscalationAdvancesTwice` is a log made by one call at which it happens.
- An escalation appends two events. A process that dies between them loses the extension: it is
  never granted afterwards and the fallback action applies at once, where an undisturbed escalation
  waits (`EscalationWaits`). `CutShortIsExact` says that this happens exactly to a pending approval
  whose due escalation carries an extension, and that a death in any other evaluation is as if it had
  not been begun; `ExtensionLostAfterOneRequest` is a log made by one call at which it happens.
- The implementer's documentation says a crashed commit, push or pull-request attempt is invoked
  again. The attempt ledger refuses to reserve a number while one is open, so every later visit
  raises and changes nothing. `StuckIsExact` gives all the states with that property, and
  `StuckForGood` says that no run under the same configuration gets past one. Besides the three open
  attempts they are an implementation whose third attempt was recorded without a transition, a
  validation reached from a diff found after a crash, a repair without its failure report, an
  approval gate that cannot be opened, and the states the driver does not handle. `WorkflowCases`
  reaches each of the former from a fresh session: `CrashedCommitIsStuck`, `CrashedPushIsStuck`,
  `CrashedPullRequestIsStuck`, `UsedUpImplementationIsStuck`, `ReportedImplementationIsStuck`,
  `CarriedDiffIsStuck`, `UnreportedRepairIsStuck`, `AbortedRepairIsStuck`, `ClosedGateIsStuck`.
  The overlays are given anew on every resumption, so a gate that is closed only by them opens again
  under others (`ClosedGateReopens`); `StuckDelivers` says that nothing else gets a stuck session on.
- The approval gate compares checksums only when it spends the approval: a revisit after the
  approval was spent goes on without comparing again (`SpendingPassesExactly`,
  `WorkflowCases.SpentApprovalCommitsOtherChecksums`).
- A waived review does not clear an earlier rejection: the merge reads the last QA report whether or
  not a review is required (`agentos_workflow/merge_closeout.py:479-498`). A session whose review was
  rejected on disk and then waived can be delivered and is never finished while that report can be
  read (`WaivedRejectionIsNeverFinished`, `WaivedSecondRoundIsNeverFinished`,
  `RejectedFailsEveryVisit`); `FinishExact` gives the exact condition.
- The same lines take reports that cannot be read for none. A visit that cannot read them and
  requires no review therefore goes on over a rejection, and `FinishExact` says of such lives that
  the reviews do not matter at all.

## Model

| member | source | states |
|---|---|---|
| `PrerequisiteGraph.FindCycle` | scripts/orchestration_feature_state.py:595-622 | a returned list is a real closed walk of prerequisite edges; none is returned exactly when the known stages have a topological order |
| `PrerequisiteGraph.CycleFinder.Visit` | scripts/orchestration_feature_state.py:600-616 | one visit returns a closed walk, or leaves the path as it was with the node finished after all its prerequisites and strictly fewer unvisited nodes |
| `PrerequisiteGraph.CycleFinder.VisitPrerequisite` | scripts/orchestration_feature_state.py:603-613 | a reference into the current path is a cycle, an unknown one is skipped, any other is finished |
| `PrerequisiteGraph.CycleFinder.BackEdgeClosesWalk` | scripts/orchestration_feature_state.py:606-609 | the slice of the path from the revisited node, closed by it, is a walk of real edges |
| `PrerequisiteGraph.AcyclicHasNoClosedWalk` | scripts/orchestration_feature_state.py:595-622 | a graph with a topological order has no closed walk, so the two answers of the search exclude each other |
| `FeatureState.RecomputeNextEligible` | scripts/orchestration_feature_state.py:571-592 | the loop finds the first stage in delivery order that is not approved and has all prerequisites approved, unless a global blocker is open |
| `FeatureState.FirstEligible` | scripts/orchestration_feature_state.py:580-592 | the stage found is eligible; none is found only when none is |
| `FeatureState.PlaceOfFirst` | scripts/orchestration_feature_state.py:580-592 | no stage in front of the one found is eligible |
| `FeatureState.EditBlockers` | scripts/orchestration_feature_state.py:1041-1065 | adding and resolving blockers in place equals the pure edit, or fails on the first unknown code |
| `FeatureState.ApplyTransition` | scripts/orchestration_feature_state.py:878-1090 | the writer's guards, copy and edits refuse with the specified error, the first that applies, and otherwise leave the specified document; the rows of `FeatureEffects` state both |
| `FeatureEffects.CheckTable` | scripts/orchestration_feature_state.py:148-183 | the scan of the table permits a transition exactly when one of its rows covers the edge and names the role, and tells an edge no row covers from one that no row of permits the role |
| `FeatureEffects.RefusedExactly` | scripts/orchestration_feature_state.py:878-1065 | fifteen grounds, each a condition on the document and the request, in the order of the source: the first that holds is the refusal, and a request is accepted exactly when none holds |
| `FeatureEffects.RequestIsRecorded` | scripts/orchestration_feature_state.py:985-1095 | everything an accepted request changes, field by field: the stage it touches, the blockers in their places with the last resolution of their code, one history entry, the eligibility fields and the stamp; nothing else changes |
| `FeatureValidation.ValidateSemantics` | scripts/orchestration_feature_state.py:625-781 | every violation is reported and nothing else: both differences from the plan, each unknown prerequisite, missing evidence, commit, review or base of each stage, self-review, a cycle if there is one, the delivery order, the eligibility fields of an acyclic document, each review outside the REVIEWER role and the numbering; none exactly for documents that obey every rule |
| `FeatureValidation.ValidateHistoryAppendOnly` | scripts/orchestration_feature_state.py:784-802 | accepted exactly when the earlier history is a prefix of the later one; otherwise a shortened history is reported as such and each rewritten entry by its place |
| `FeatureValidation.ResidualIsExact` | scripts/orchestration_feature_state.py:648-751 | the obligations the writer leaves to the validator, in terms of the prior stage and the request, are exactly what the touched stage still needs |
| `FeatureValidation.FrameRulesPreserved` | scripts/orchestration_feature_state.py:878-1090 | an accepted transition keeps the graph, the delivery order, the eligibility fields, the numbering and the rule that reviews are made in the REVIEWER role |
| `FeatureValidation.ValidityPreservedExactly` | scripts/orchestration_feature_state.py:625-1090 | from a valid document an accepted transition yields a valid one if and only if the residual obligations hold |
| `FeatureRuns.StepKeepsSerial` | scripts/orchestration_feature_state.py:148-162 | every accepted step keeps the active stage equal to the first eligible one and approvals closed under prerequisites |
| `FeatureRuns.SerialDelivery` | scripts/orchestration_feature_state.py:1174-1212 | in every state reachable from a fresh document at most one stage is active and every started stage has its prerequisites approved |
| `FeatureRuns.SettledForever` | scripts/orchestration_feature_state.py:148-162 | an approved or superseded stage keeps its whole record through every run |
| `FeatureRuns.HistoryOnlyGrows` | scripts/orchestration_feature_state.py:1174-1212 | a run extends the history by exactly one entry for each request |
| `FeatureEffects.HistoryTellsTheRun` | scripts/orchestration_feature_state.py:1067-1081 | in the history a run leaves, the entry of each request runs from the status its stage had in the document just before it to the one it has just after, with the request's own instant, actor, role, action and evidence |
| `FeatureRuns.NextEligibleExists` | scripts/orchestration_feature_state.py:571-592 | in a valid document the scheduler offers nothing exactly when a global blocker is open or everything is approved |
| `FeatureRuns.SupersededFocusStalls` | scripts/orchestration_feature_state.py:577-592 | once the first eligible stage is superseded it stays first eligible and runs can only supersede further unstarted stages |
| `FeatureRuns.CompletionSchedule` | scripts/orchestration_feature_state.py:924-934 | a completable document has a run of accepted requests that approves every stage |
| `FeatureRuns.CompletionExact` | scripts/orchestration_feature_state.py:148-162 | a run to full approval exists if and only if no stage is superseded, no unstarted stage faces an open global blocker with a null code, no blocked stage has a local one, and everything is approved, some stage is active or no global blocker is open |
| `FeatureCases.SupersedingEndsDelivery` | scripts/orchestration_feature_state.py:577-592 | a valid plan accepts superseding its first eligible stage and can never be delivered after that |
| `FeatureCases.NamelessBlockerEndsDelivery` | scripts/orchestration_feature_state.py:256-278 | a valid plan accepts a start that opens a global blocker with a null code; the other stage can then never start |
| `FeatureCases.NamelessBlockerHoldsItsStage` | scripts/orchestration_feature_state.py:256-278 | a valid plan accepts a start and then a blocker with a null code on the started stage, which can then never be resumed |
| `MirrorLines.CompleteLinesStay` | agentos_dashboard/storage/db.py:460-487 | every complete line of the mirror survives any append, whatever the tail looked like |
| `MirrorProtocol.DelimiterKeepsBodies` | agentos_dashboard/storage/db.py:467-481 | the delimiter after a truncated tail changes no earlier line |
| `MirrorProtocol.FlushKeepsClean` | agentos_dashboard/storage/db.py:460-487 | a flush leaves a complete line for every queued event and no event's text twice |
| `MirrorProtocol.ActionKeepsInv` | agentos_dashboard/storage/db.py:533-560 | insert, flush, partial write, sync, commit, rollback and crash each keep the dual-write invariant |
| `MirrorProtocol.CommittedEventsAreMirrored` | agentos_dashboard/storage/db.py:533-560 | in every reachable state each committed event owns exactly one complete line among the synced bytes |
| `MirrorProtocol.MirrorOnlyGrows` | agentos_dashboard/storage/db.py:460-487 | without a crash the mirror only grows at its end and loses no complete line |
| `DashboardConnection.Dashboard.QueueAuditLine` | agentos_dashboard/storage/db.py:442-448 | a record is refused exactly when it is not a single line |
| `DashboardConnection.Dashboard.RecordAuditEvent` | agentos_dashboard/services/audit.py:100-140 | the row and its line are queued together and nothing else changes |
| `DashboardConnection.Dashboard.WriteAll` | agentos_dashboard/storage/db.py:451-457 | short writes are retried until the whole payload is appended, or the flush is abandoned with a prefix of it written |
| `DashboardConnection.Dashboard.AppendAuditLines` | agentos_dashboard/storage/db.py:460-487 | success means delimiter and every line are appended and synced |
| `DashboardConnection.Dashboard.Close` | agentos_dashboard/storage/db.py:533-560 | the rows are committed exactly on success, with their lines mirrored first; every failure commits none of them |
| `DashboardConnection.Dashboard.CrashAndRestart` | agentos_dashboard/storage/db.py:533-545 | after a crash that keeps any prefix of the unsynced bytes every committed event is still mirrored |
| `MirrorInspection.InspectAuditMirror` | agentos_dashboard/services/audit.py:147-220 | coherent exactly when the lines are, one for one, the committed events and all complete and in bounds; the report names every deviation and nothing else, up to its bound; the counts are those of the rows and of the identifiers in the mirror |
| `MirrorInspection.ReportIsComplete` | agentos_dashboard/services/audit.py:170-220 | a report without the note of omission lists exactly the deviations: each oversized, truncated, malformed and uuid-less line by its number, each repeated, orphaned, differing and missing identifier by name; the note comes last, once, exactly behind a hundred issues; only repetitions are listed twice |
| `MirrorInspection.SeenDecidesCoherence` | agentos_dashboard/services/audit.py:176-220 | fine lines plus agreement of the identifiers in both directions is the same as coherence |
| `MirrorInspection.OnlyOrphansAndFragments` | agentos_dashboard/services/audit.py:147-220 | after any run with crashes, and within the reader's bounds, an issue is an orphan, a malformed or a truncated line, never a committed event missing, differing or duplicated |
| `MirrorInspection.UneventfulRunIsCoherent` | agentos_dashboard/services/audit.py:147-220 | without rollbacks and crashes an idle mirror within the bounds is coherent |
| `IdempotentCreation.ActionKeepsInv` | agentos_dashboard/services/runs.py:404-467 | lookup, insert-or-ignore, second lookup, every following insert, commit and failure of any client keep tokens unique and the database whole |
| `IdempotentCreation.AnswersAreDetermined` | agentos_dashboard/services/runs.py:404-448 | in every interleaving there is at most one committed row for a token, and an answered client was told that row if its digest matches and a conflict if not |
| `IdempotentCreation.SameTokenSameRecord` | agentos_dashboard/services/approvals.py:200-247 | two answered clients of one token get the same record for the same digest, never two records, and a conflict for a different digest |
| `IdempotentCreation.EventsAreExactlyTheCreations` | agentos_dashboard/services/approvals.py:248-281 | committed creation and divergence events are those of the committed rows, one for one and in order |
| `IdempotentCreation.RowsOnlyGrow` | agentos_dashboard/services/runs.py:404-467 | no run of any clients changes or removes a committed row |
| `IdempotentCreation.ApprovalsNameRecordedRuns` | agentos_dashboard/services/approvals.py:200-247 | in every interleaving the run that a committed approval names is itself committed |
| `CreationEffects.InsertsAreThoseOfTheRows` | agentos_dashboard/services/approvals.py:248-285 | in every interleaving the committed inserts are those of the committed rows and no other, in the order of the rows: a run's matrix entries from first to last and then its event, an approval's event and then, if there is one, its finding and the event of that |
| `CreationEffects.RowsAreAskedFor` | agentos_dashboard/services/runs.py:404-467 | in every interleaving each committed row is, field by field, what some client asked for |
| `CreationEffects.AnswersByField` | agentos_dashboard/services/runs.py:404-448 | a client is given the committed row of its token and digest, or told of a conflict with a committed row of another digest |
| `CreationEffects.ServedByField` | agentos_dashboard/services/approvals.py:200-285 | an undisturbed call is invalid exactly for a payload out of order, changes the database exactly for a new token, and then adds its one row, with a finding exactly when the commit does not resolve, and that row's inserts behind all others |
| `IdempotentCreation.Store.CreateRun` | agentos_dashboard/services/runs.py:404-472 | an ill-formed payload is refused; otherwise the ordered reads and inserts follow the protocol; an undisturbed call with the lock free returns the existing row or conflict unchanged, or adds one row with its validations and its event |
| `IdempotentCreation.Store.CreateApproval` | agentos_dashboard/services/approvals.py:200-285 | the same, refusing also a run that is not recorded, with the divergence finding and its event exactly when the named commit does not resolve |
| `AuditTimeline.ListAuditEvents` | agentos_dashboard/services/audit.py:223-245 | bad bounds are refused; otherwise the page is newest first, holds only rows of the kind, and is the requested slice of all of them |
| `AuditTimeline.BuildAuditTimeline` | agentos_dashboard/services/audit.py:313-364 | every page equals the slice of the divergence entry, the local events and the workflow events put one after the other |
| `AuditTimeline.PagesAreTheTimeline` | agentos_dashboard/services/audit.py:313-364 | reading page after page gives the whole timeline once, local events newest first and workflow events by descending sequence |
| `AuditTimeline.TimelineHolds` | agentos_dashboard/services/audit.py:255-364 | the timeline holds each entry as often as its source does if the kind asked for admits it and not at all otherwise: the divergence entry exactly for an incoherent mirror, a local event flagged as a contradiction exactly if it is a reconciliation divergence, the named task's workflow events |
| `AuditTimeline.TimelineIsOrdered` | agentos_dashboard/services/audit.py:313-364 | the divergence entry first, then the local events from the newest, then the workflow events from the last |
| `ApprovalPolicies.ResolveField` | agentos_workflow/approvals.py:434-444 | the overwriting loop yields the value and the layer of the highest layer that sets the field |
| `ApprovalPolicies.HighestLayerWins` | agentos_workflow/approvals.py:434-513 | field by field run beats gate beats project beats the built-in defaults |
| `ApprovalPolicies.ResolvedByField` | agentos_workflow/approvals.py:465-513 | which overlay fills each field and source of the policy, and the exact condition of each of the two errors |
| `ApprovalPolicies.AutoApproveIsOptedInto` | agentos_workflow/approvals.py:447-513 | a resolved policy approves automatically only if the gate or the run layer itself selects it |
| `Approvals.Differences` | agentos_workflow/approvals.py:330-343 | lists exactly the differing kinds, none if and only if the bindings are equal |
| `Approvals.ReplayEvents` | agentos_workflow/approvals.py:943-1004 | the replay loop computes the fold of the history and rejects one that does not begin with its request |
| `Approvals.ApprovalService.RequestApproval` | agentos_workflow/approvals.py:672-717 | refuses or appends the request and answers with the opened approval, as specified |
| `ApprovalEffects.RequestDecides` | agentos_workflow/approvals.py:672-717 | the ground of each refusal in their order; an accepted request appends one event and opens a pending approval with everything it was given, its deadline the request's instant plus the timeout, none without one |
| `ApprovalEffects.DeadlineCountsFromRequest` | agentos_workflow/approvals.py:699-717 | an evaluation before the request's instant plus the timeout leaves the log as it is, one from then on applies the timeout action, and without a timeout none ever does |
| `Approvals.ApprovalService.EvaluateApproval` | agentos_workflow/approvals.py:794-871 | applies an expired deadline exactly once by appending its events |
| `ApprovalEffects.EvaluationDecides` | agentos_workflow/approvals.py:794-871 | nothing happens before the deadline; from it on the governing action changes exactly the fields it is for, the extension counted from the evaluation and granted once |
| `Approvals.ApprovalService.DecideApproval` | agentos_workflow/approvals.py:745-790 | evaluates first, then refuses settled approvals, foreign channels and unlisted approvers, then records the decision |
| `ApprovalEffects.DecisionDecides` | agentos_workflow/approvals.py:745-790 | the ground of each refusal in their order; an accepted decision is recorded with its approver, channel and instant and gives the status it stands for |
| `Approvals.ApprovalService.ConsumeApproval` | agentos_workflow/approvals.py:875-923 | spends or invalidates an approved request according to the presented checksums |
| `ApprovalEffects.ConsumptionDecides` | agentos_workflow/approvals.py:875-923 | the ground of each refusal in their order; otherwise the approval is consumed for equal checksums and invalidated, with the kinds that differ, for others |
| `Approvals.ApprovalService.ListApprovals` | agentos_workflow/approvals.py:736-741 | answers exactly when every history of the log replays, with the view of each identifier in order of first appearance, and otherwise fails as a whole |
| `ApprovalLifecycle.PerformKeepsWellKept` | agentos_workflow/approvals.py:672-923 | every call keeps every history of the log legal event by event |
| `ApprovalLifecycle.ApprovalLifecycleHolds` | agentos_workflow/approvals.py:217-231 | under any calls the status is pending exactly while the request is the only event, terminal only at the end; spending is last, and escalation, extension and the timer's outcome happen at most once |
| `ApprovalLifecycle.TerminalAbsorbs` | agentos_workflow/approvals.py:745-923 | no sequence of calls adds an event to a terminal approval |
| `ApprovalLifecycle.CallsDoNotInterfere` | agentos_workflow/approvals.py:927-940 | a call on one approval leaves every other one's replay unchanged |
| `ApprovalLifecycle.LogOnlyGrows` | agentos_workflow/approvals.py:927-940 | whatever is called, the log and every history are only extended |
| `ApprovalLifecycle.EvaluationFixpoint` | agentos_workflow/approvals.py:794-871 | at one instant two evaluations always suffice, and one does unless it escalates without a later deadline |
| `ApprovalLifecycle.EscalationAdvancesTwice` | agentos_workflow/approvals.py:849-868 | a log made by one request at which two evaluations at one instant differ |
| `ApprovalLifecycle.CutShortIsExact` | agentos_workflow/approvals.py:849-868 | a death inside an evaluation loses the extension for every sequence of later calls, and keeps the evaluation made again from catching up, if and only if a pending approval was about to escalate with an extension; otherwise every later call finds the log as if the evaluation had not been begun |
| `ApprovalLifecycle.ExtensionLostAfterOneRequest` | agentos_workflow/approvals.py:849-868 | a log made by one request at which a death inside the evaluation loses the extension |
| `ApprovalLifecycle.EscalationWaits` | agentos_workflow/approvals.py:849-868 | an undisturbed escalation is left alone until its extension has passed |
| `ApprovalLifecycle.AutomaticApprovalWasOptedInto` | agentos_workflow/approvals.py:824-848 | an automatic approval in any log implies a passed deadline and that the action which governed it, timeout action when pending and fallback when escalated, was selected by the very gate or run layer that the policy records as its source |
| `ApprovalLifecycle.ConsumptionIsExact` | agentos_workflow/approvals.py:875-923 | consumption succeeds exactly for an approved request in order; it is consumed if all four checksums equal those bound at the request and otherwise invalidated with exactly the differing kinds |
| `ApprovalLifecycle.LateDecisionRefused` | agentos_workflow/approvals.py:745-790 | a decision that arrives after a failing or cancelling deadline is refused and the timeout stands |
| `ApprovalLifecycle.LateDecisionAfterPause` | agentos_workflow/approvals.py:745-790 | after a pausing deadline a permitted decision is still recorded |
| `DriverLoop.RunSpends` | agentos_workflow/implementer.py:420-440 | a loop whose advancing steps lower a bound takes no more steps than the bound, and only its own outcome or its end stops it |
| `WorkflowSessions.TableByKind` | agentos_workflow/orchestrator/engine.py:129-169 | the table is the way from CREATED to DONE, the repair cycle, a failure from everywhere between CREATED and the end, and a cancellation before anything is implemented, and has no other edge |
| `WorkflowSessions.HumansAuthorizeAndCancel` | agentos_workflow/orchestrator/engine.py:186-204 | of the edges of the table a human may record exactly the authorization and the cancellations |
| `WorkflowSessions.OpenAttemptBlocks` | agentos_workflow/orchestrator/engine.py:3511-3602 | a number can be reserved exactly when no attempt is open and fewer than three completed |
| `WorkflowSessions.PrOpenHistory` | agentos_workflow/orchestrator/engine.py:134-175 | a session at PR_OPEN got there through validation, QA, commit and push as its last five transitions |
| `WorkflowSessions.LatestVerdict` | agentos_workflow/skills/reporting.py:516-576 | the verdict of the highest round that has a report, none exactly without reports |
| `WorkflowSessions.DoneHistory` | agentos_workflow/orchestrator/engine.py:134-175 | a session at DONE got there through those five and the five edges of the merge |
| `WorkflowSessions.WorkflowSession.TransitionTo` | agentos_workflow/orchestrator/engine.py:1228-1299 | succeeds exactly for an edge of the table other than one to AUTHORIZED that the actor may record, a human only a cancellation, appends it and keeps the log a path from CREATED; otherwise nothing changes |
| `WorkflowSessions.WorkflowSession.RecordStarted` | agentos_workflow/orchestrator/engine.py:3511-3602 | reserves exactly the next number of the current state with none in flight and room under the limit |
| `WorkflowSessions.WorkflowSession.RecordCompleted` | agentos_workflow/orchestrator/engine.py:3605-3664 | completes exactly the attempt of the current state that is in flight, and nothing else of the ledger changes |
| `ImplementerRun.StepMeetsSpec` | agentos_workflow/implementer.py:442-993 | every step, the approval gate included, moves along one table edge or not at all, counts a repair exactly when it concludes one, and enters REPAIRING only with repairs left |
| `ImplementerRun.RunTerminates` | agentos_workflow/implementer.py:420-440 | from any consistent session a run takes at most 18 steps, so the ceiling of 32 never stops it |
| `ImplementerRun.StuckIsExact` | agentos_workflow/implementer.py:553-993 | a session is stuck exactly when every step, whatever it meets, raises and changes nothing durable |
| `ImplementerRun.StuckForGood` | agentos_workflow/implementer.py:420-440 | every run from a stuck session under the same configuration is one raised step that leaves it as it was |
| `ImplementerRun.UnstuckRaises` | agentos_workflow/implementer.py:553-993 | any other session raises only when its action is aborted, at the approval gate, or when an implementation would write its report over that of an aborted attempt |
| `ImplementerRun.CalmRunEndsWell` | agentos_workflow/implementer.py:420-1088 | a run in which nothing is aborted and every report is written ends at PR_OPEN or FAILED, waits for a human or is refused at the approval gate; it never meets a refused attempt or a missing report |
| `ImplementerRun.FavourableRun` | agentos_workflow/implementer.py:420-1088 | when every answer is the good one and the gate passes, the run reaches PR_OPEN in exactly as many steps as its state is away, nine from AUTHORIZED |
| `ImplementerRun.TryStopsAtFirstUseful` | agentos_workflow/implementer.py:580-636 | a series of attempts stops at its first answer that is not unusable, having made one call for each number up to it, or uses up all three |
| `ImplementerRun.GatesDecide` | agentos_workflow/implementer.py:638-812 | QA_RUNNING is entered exactly for a passed validation, READY_TO_COMMIT exactly for an approving or waived review, and REPAIRING, from either gate, exactly for a repairable defect or a rejection with repairs left |
| `ImplementerOutcomes.GateVisitDecides` | agentos_workflow/implementer.py:941-993 | a visit to the commit gate that gets past its own errors comes to what the approval in the log it leaves means: an undecided one waits and changes nothing, a rejected, sent back, failed, cancelled or invalidated one fails the session, a consumed one lets the series of commit attempts decide |
| `ImplementerOutcomes.GateVisitExactly` | agentos_workflow/implementer.py:941-993 | the same in both directions: exactly when a visit waits, fails the session and commits |
| `ImplementerOutcomes.GateRaisesExactly` | agentos_workflow/implementer.py:870-940 | with a clock that does not go back, a visit raises at the gate exactly without checksums or when the approval cannot be opened or replayed, and which error it raises |
| `ImplementerOutcomes.GateLeaves` | agentos_workflow/implementer.py:870-940 | with a clock that holds and a gate that is not closed, a visit opens the approval if there is none, with the checksums taken now and the deadline counted from now, then applies its deadline, and then spends it exactly if that leaves it approved |
| `ImplementerOutcomes.ChecksDecide` | agentos_workflow/implementer.py:494-551 | the two checks advance or fail the session, and the move behind them needs none |
| `ImplementerOutcomes.ImplementationDecides` | agentos_workflow/implementer.py:553-636 | a crashed attempt is recorded and its diff validated or a new series begun; the first useful answer of a series decides and three unusable ones fail the session |
| `ImplementerOutcomes.ValidationDecides` | agentos_workflow/implementer.py:638-695 | without its report it raises; a pass goes to review, a defect that cannot be repaired fails, one that can enters a repair with its failure report, or fails with none left |
| `ImplementerOutcomes.ReviewDecides` | agentos_workflow/implementer.py:766-868 | a waived review advances, a verdict on disk is taken, and a new review approves exactly if it says so in a round not asked before; what it leaves on disk |
| `ImplementerOutcomes.RepairDecides` | agentos_workflow/implementer.py:697-764 | a repair in flight fails the session, one without its failure report raises, and any other is one call whose answer decides |
| `ImplementerOutcomes.DeliveryDecides` | agentos_workflow/implementer.py:995-1088 | a push or pull request in flight is refused, and otherwise the series of attempts decides |
| `ImplementerRun.SpendingPassesExactly` | agentos_workflow/implementer.py:870-900 | the gate passes exactly for an approval already consumed, or approved and bound to the checksums presented now |
| `ImplementerRun.GatingIsOk` | agentos_workflow/implementer.py:870-900 | one visit keeps the log legal, never revives a spent approval, and opens on a freshly spent one only if it was bound to the checksums taken now |
| `ImplementerRun.ImplementerDriver.AttemptImplementation` | agentos_workflow/implementer.py:580-636 | the recursive retries reserve, call and complete attempts until one is usable or three are used; a usable one raises where a stage report exists already |
| `ImplementerRun.ImplementerDriver.ReportImplementation` | agentos_workflow/skills/reporting.py:243-258 | an existing stage report is not written over and the step raises; otherwise it is written and the session moves to VALIDATING |
| `ImplementerRun.ImplementerDriver.HandleImplementing` | agentos_workflow/implementer.py:553-578 | a crashed attempt is closed first, and a diff it left is carried to validation |
| `ImplementerRun.ImplementerDriver.HandleValidating` | agentos_workflow/implementer.py:638-686 | passes, fails on a non-repairable defect, or enters a numbered repair with its report |
| `ImplementerRun.ImplementerDriver.HandleQaRunning` | agentos_workflow/implementer.py:766-857 | a verdict on disk for this round is read back instead of reviewing again |
| `ImplementerRun.ImplementerDriver.GetOrRunQa` | agentos_workflow/implementer.py:814-857 | a readable verdict of the round is read back; otherwise one review is made, which is a rejection where the round has a provider session already, and a report that exists is left alone |
| `ImplementerRun.ImplementerDriver.HandleRepairing` | agentos_workflow/implementer.py:697-737 | an open repair fails, a missing report raises, otherwise one reserved call decides |
| `ImplementerRun.ImplementerDriver.RunIdempotentSideEffect` | agentos_workflow/implementer.py:1037-1088 | up to three reserved calls; an attempt left open is refused by the ledger |
| `ImplementerRun.ImplementerDriver.RunApprovalGate` | agentos_workflow/implementer.py:870-919 | takes the checksums, opens the approval on the first visit, evaluates it, and spends it when approved; an uninspectable tree, an unresolved policy and a refused call each leave the gate as their own error |
| `ImplementerRun.ImplementerDriver.HandleReadyToCommit` | agentos_workflow/implementer.py:941-993 | waits without durable change, fails on any refusal, and commits only on a consumed approval |
| `ImplementerRun.ImplementerDriver.RunToPrOpen` | agentos_workflow/implementer.py:420-472 | the loop is the run the theorems are about, step for step |
| `WorkflowLife.GatingIsItsCalls` | agentos_workflow/implementer.py:870-900 | a visit to the gate is a series of service calls, so one that dies has made the first of them |
| `WorkflowLife.ReviewWrites` | agentos_workflow/implementer.py:766-857 | only a review leaves anything of a review, and that of the round the session is in |
| `WorkflowLife.NextKeepsSane` | agentos_workflow/implementer.py:442-993 | a step of either driver under any configuration, a death inside the gate, any approval call, cut short or not, and any operator's move keep the invariant |
| `WorkflowLife.CommitOnlyWhenSpent` | agentos_workflow/implementer.py:941-993 | from a fresh session and an empty log, after any sequence of such actions, a commit that was reserved, and every state behind it, has its approval requested, then approved by a decision that was legal, then spent |
| `WorkflowLife.EveryEdgeIsJustified` | agentos_workflow/implementer.py:638-993 | each edge of the transition log of any life was added by one action that found what the edge's gate asks for |
| `WorkflowLife.DeliveredThroughEveryGate` | agentos_workflow/implementer.py:638-993 | a session at PR_OPEN passed validation with its report, then an approving or waived review, then the gate on a spent approval, as neighbouring edges of its log added by actions in this order |
| `WorkflowLife.LifeMayResume` | agentos_workflow/merge_closeout.py:231-299 | every session that a life brings to a state of the merge driver has the completed attempts that its resumption asks for |
| `WorkflowLife.DoneThroughEveryGate` | agentos_workflow/merge_closeout.py:339-775 | a session at DONE, however often the drivers were interrupted and resumed, has after these the five edges of the merge, each added by a visit that met what its state asks for given the reports kept then, and one closing visit of its life met every check and wrote the closeout report |
| `WorkflowDelivery.DeliveryExact` | agentos_workflow/implementer.py:442-1088 | from now on some life of a session leads to PR_OPEN if and only if its state has attempts, reports and repairs left to get out of and, before the commit, its approval can still be spent: approved, or to be opened, or open and neither lost to a passed deadline nor undecidable |
| `WorkflowDelivery.FinishExact` | agentos_workflow/merge_closeout.py:463-515 | from now on some life leads to DONE if and only if the session is being merged or done already, or can be delivered and, where the QA reports can be read, none rejects last, or the round is fresh or a repair is left before READY_TO_COMMIT |
| `WorkflowDelivery.DoneWasReviewed` | agentos_workflow/merge_closeout.py:463-515 | where the QA reports can be read, whatever is being merged or done from a fresh session has an approving last report or none |
| `WorkflowDelivery.StuckDelivers` | agentos_workflow/implementer.py:553-993 | a session a driver is stuck at can be delivered exactly when it waits at a closed gate with no approval opened yet and attempts left |
| `WorkflowCases.CrashedCommitIsStuck` | agentos_workflow/implementer.py:1037-1088 | a life from a fresh session whose commit dies in the call ends in a stuck state |
| `WorkflowCases.CrashedPushIsStuck` | agentos_workflow/implementer.py:1037-1088 | the same for the push |
| `WorkflowCases.CrashedPullRequestIsStuck` | agentos_workflow/implementer.py:1037-1088 | the same for the pull request |
| `WorkflowCases.UsedUpImplementationIsStuck` | agentos_workflow/implementer.py:580-636 | the same for a third attempt recorded without a transition |
| `WorkflowCases.ReportedImplementationIsStuck` | agentos_workflow/implementer.py:1164-1189 | the same for an attempt aborted after its report, over which no later one may report |
| `WorkflowCases.CarriedDiffIsStuck` | agentos_workflow/implementer.py:553-572 | the same for a diff carried to validation after a crash |
| `WorkflowCases.UnreportedRepairIsStuck` | agentos_workflow/implementer.py:668-684 | the same for a failure report that could not be written |
| `WorkflowCases.AbortedRepairIsStuck` | agentos_workflow/implementer.py:697-737 | the same for a repair recorded without a transition |
| `WorkflowCases.ClosedGateIsStuck` | agentos_workflow/implementer.py:870-900 | the same for a policy that does not resolve or asks for no approval |
| `WorkflowCases.ClosedGateReopens` | agentos_workflow/implementer.py:381-402 | such a session can still be delivered under another configuration |
| `WorkflowCases.SpentApprovalCommitsOtherChecksums` | agentos_workflow/implementer.py:941-993 | a life in which an approval spent for one set of checksums lets a later visit commit under another |
| `WorkflowCases.WaivedRejectionIsNeverFinished` | agentos_workflow/merge_closeout.py:479-498 | a life whose review rejected, died and was then waived can be delivered and never finished |
| `WorkflowCases.WaivedSecondRoundIsNeverFinished` | agentos_workflow/merge_closeout.py:479-498 | the same for a rejected round, a concluded repair and a waived second round |
| `WorkflowCases.RejectedFailsEveryVisit` | agentos_workflow/merge_closeout.py:519-535 | at PR_OPEN over a last report that rejects and can be read every visit ends in FAILED |
| `MergeCloseout.MergedNeedsAllThree` | agentos_workflow/merge_closeout.py:606-656 | an observation counts as merged if and only if identity, checks and confirmation hold in it at once |
| `MergeCloseout.EvaluateMergeEligibility` | agentos_workflow/merge_closeout.py:463-515 | eligible exactly with a recorded validation and an approving last QA report, or none found where none is required |
| `MergeCloseout.QaDecidesAtPrOpen` | agentos_workflow/merge_closeout.py:463-515 | at PR_OPEN the validation evidence is always there, so the QA record alone decides |
| `MergeCloseout.MissingProvenance` | agentos_workflow/merge_closeout.py:276-299 | names exactly the states of commit, push and pull request without a completed attempt |
| `MergeCloseout.Poll` | agentos_workflow/merge_closeout.py:598-672 | stops at the first look that is not open, and says of it in the look's own fields whether it shows the merge or which failure it is; pending after exactly the maximum of open looks, sleeping one time fewer than it looks |
| `MergeCloseout.MergedExactly` | agentos_workflow/merge_closeout.py:598-672 | MERGED is entered if and only if the first observation of the visit that settles anything shows the merge |
| `MergeCloseout.VerdictByField` | agentos_workflow/merge_closeout.py:606-656 | a look is open, shows the merge or fails with a given kind exactly by its own fields: a retryable failed read, checks that neither passed nor are evidence nor final, or a confirmation still to come; identity; failed required checks; a confirmation refused |
| `MergeCloseout.WaitingDecides` | agentos_workflow/merge_closeout.py:598-672 | a visit is pending exactly when every look is open, and fails with a kind exactly when the first look that is not open fails with it |
| `MergeCloseout.FailsExactly` | agentos_workflow/merge_closeout.py:519-775 | in each state, the exact condition under which a visit ends in FAILED with each kind |
| `MergeCloseout.MergeEnabledExactly` | agentos_workflow/merge_closeout.py:519-568 | the exact condition under which PR_OPEN advances |
| `MergeCloseout.RunIsShort` | agentos_workflow/merge_closeout.py:339-355 | a run takes at most five steps and, given five, only DONE, a failure, pending checks or an abort ends it |
| `MergeCloseout.DoneExactly` | agentos_workflow/merge_closeout.py:339-775 | a run ends at DONE if and only if it may take the steps and every visit meets what its state asks for: identity, a possible merge and an approving last QA report of this session, or none found and none required; then a first settling look that shows the merge; then this session's closeout report or every closing check |
| `MergeCloseout.DoneMeansMerged` | agentos_workflow/merge_closeout.py:598-775 | a run from before the merge that ends at DONE met a look that shows the merge, and closed out in its last visit |
| `MergeCloseout.MergeCloseoutDriver.HandlePrOpen` | agentos_workflow/merge_closeout.py:519-568 | reconciles, requires eligibility, skips enabling for a merged request, and fails with the first cause otherwise |
| `MergeCloseout.MergeCloseoutDriver.HandleWaitingForChecks` | agentos_workflow/merge_closeout.py:598-672 | the poll's verdict decides between MERGED, the hard failure it found, and an unchanged pause |
| `MergeCloseout.MergeCloseoutDriver.HandleClosing` | agentos_workflow/merge_closeout.py:686-775 | a closeout report of this session makes the step a replay; otherwise the first failing check decides, and a report that exists unread fails the closeout |
| `MergeCloseout.MergeCloseoutDriver.RunToDone` | agentos_workflow/merge_closeout.py:339-384 | the loop is the run the theorems are about, step for step |
| `RepairLoop.RunDeterministicValidation` | agentos_workflow/agents/__init__.py:605-690 | every check runs in order; one passes exactly if it ran and passed, and otherwise says what was missing, went wrong or was found; the gate passes exactly when every one did, which is when no failed check is listed |
| `RepairLoop.FailedInOrder` | agentos_workflow/agents/__init__.py:589-592 | the failed checks are all those that failed and no others, each behind those that failed before it |
| `RepairLoop.RunRepairLoop` | agentos_workflow/agents/__init__.py:766-881 | attempts are numbered from one within the limit, each is told exactly the report of the one before, repaired means the last passed and no earlier one did, exhausted means all were usable and none passed |
| `RepairLoop.ReportTells` | agentos_workflow/agents/__init__.py:862-883 | the report on a round names its attempt, holds the failed checks in order exactly if the gate failed, and the reviewer's answer exactly if the review did |
| `GovernanceRenderer.Renderer.TakeLine` | agentos_dashboard/services/governance.py:301-342 | one line adds exactly its own content to what is held, toggles the fence exactly on a fence line, and leaves the document that is still to come the same |
| `GovernanceRenderer.TagsBalance` | agentos_dashboard/services/governance.py:287-300 | in a well-nested rendering opening and closing list tags balance up to one open list |
| `GovernanceRenderer.RenderBody` | agentos_dashboard/services/governance.py:278-350 | the blocks are those of the runs of the body: fence to fence one code block, each heading, each longest run of bullets one list, each longest run of text one paragraph, blank lines only separating; it fails exactly when a fence stays open; every piece of content appears once and in order, and lists are not nested and all closed |

## Left out

- HTTP routes, templates, command lines, configuration loading, locks, path confinement and secret redaction: plumbing or operating-system behaviour around the modelled services.
- YAML and JSON text, schema shape checks and the digest compare-and-swap of the feature-state file: field shapes are carried by the datatypes, and the compare-and-swap is a read followed by a replace with no lock.
- ISO-8601 text: instants are integers.
- Git, `gh`, providers and Skills: their answers are parameters; their own behaviour is not modelled.
- Aliasing of the caller's blocker dictionaries after a transition: the feature-state document is a value.
- `FeatureState.ApplyTransition`: where an open blocker with a null code stands among others, the source's refusal sorts the codes and raises a type error; here it is the same refusal.
- The interpreter's recursion limit on deep prerequisite chains.
- `FeatureValidation.ValidateSemantics`: states which errors are listed, not the wording or the order of the messages.
- `MirrorInspection.OnlyOrphansAndFragments`: holds within the reader's line and byte bounds; beyond them the source itself stops reading.
- `MirrorInspection.InspectAuditMirror`: a mirror file that exists and cannot be read, or whose reading fails midway, is not modelled.
- The durability of the mirror file's directory entry, and audit events aimed at another mirror path.
- `IdempotentCreation.Store.CreateRun`: which payloads are well formed is given, the live report-path check of the returned view is not modelled, digests are compared as opaque strings and identifiers come from a counter.
- Findings and user notes, which repeat the same token protocol without further rows.
- Concurrent writers of one approval log or one attempt ledger: calls are taken one after the other, as under the source's file locks.
- `WorkflowSessions.WorkflowSession.TransitionTo`: the session lock and the persisted record behind an authorization are left out.
- `WorkflowDelivery.DeliveryExact`: says what is possible, not what is likely; a life may bring any configuration, so a review may be waived and a request opened by anyone, and clocks need only never read before the present.
- `WorkflowDelivery.FinishExact`: which reports can be read is given for a whole life, all of them or any of them.
- The contents of reports, and the working-tree classification of the implementer.
- `MergeCloseout.DoneExactly`: a baseline that diverged and one that could not be updated are one failure kind, and so are the kinds of a failed closeout.
- The replay driver of a finished workflow, which reads DONE back.
- `GovernanceRenderer.RenderBody`: line classification and inline HTML are given; heading anchors are not claimed unique, since the headings "foo", "foo-1" and "foo" collide.
- Dashboard views that only read and format: consistency checks, search, snapshots, prompts and handover.
