# Verification model of Pathfinder's run protocol, agent loop and resume provenance

Dafny 4.11 models of the parts of Pathfinder in which several parties share state, with
proofs about every input, every run and every interleaving. `dafny verify dfyconfig.toml`
checks the whole project.

## What is modelled

**The protocol of one run** (`src/app/db/`): workers claim jobs under leases with fencing
tokens, a human approval is consumed once, one irreversible call is prepared, sent,
reconciled and possibly resent across crashes, sweepers reclaim leases and expire approvals.

* `Rows.dfy` holds the rows of one run. Every store method is one transaction over rows that
  it locks, so a method is one atomic step; an exception is a step that changes nothing. Runs
  meet only in the clock, in fresh identities and in memberships, which reach a step as inputs.
  Clocks are arbitrary: no step assumes that time advances.
* `ActionExecution.dfy`, `Actions.dfy`, `Approvals.dfy` and `Jobs.dfy` specify each transaction
  as a function from rows to committed rows and an answer, or to an exception.
* `Stores.dfy` has the stores in their own imperative form: classes whose methods update row
  fields one by one, append events and roll back, each proved to do exactly what its
  specification says, and the batch loops of the two sweepers; `Batches.dfy` says what these report.
* `Invariant.dfy`, `ExecutionProofs.dfy`, `JobProofs.dfy`, `ActionProofs.dfy` and
  `Protocol.dfy` prove an invariant over every interleaving; `Evolution.dfy` proves what every
  step preserves as history.
* `Effects.dfy`, `ActionEffects.dfy` and `JobEffects.dfy` say what each transaction does, with its
  conditions written out: when it commits, what it answers, every field and event it writes.
  `History.dfy` proves that only the steps that are entitled to change decisions, calls, leases
  and endings, and `Provenance.dfy` traces them back through whole runs.
* `Replays.dfy`, `Safety.dfy`, `Settlement.dfy`, `Fencing.dfy`, `Liveness.dfy`, `Rounds.dfy`,
  `Starvation.dfy` and `Necessity.dfy` draw the main results; `Example.dfy` and
  `LiveGuards.dfy` have the runs that show what can happen; `Simulation.dfy` carries the results
  over to the stores in place, and `EventReader.dfy` adds the readers of the log.

**The bounded agent loop** (`src/app/agents/`): `AgentLoop.dfy` (budget accounting),
`ToolSerializer.dfy` and `FairSchedules.dfy` (the condition variable that orders a tool batch),
`ToolTranscript.dfy` (the transcript and its parser), `ResearchState.dfy`,
`ResearchProofs.dfy`, `ResearchDocuments.dfy` and `ResearchRecords.dfy` (extraction and merging),
`Report.dfy` and `ReportContents.dfy` (grounding and final report), `ResearchLoops.dfy` (from the
loops to the extraction).

**Resume provenance**: `ResumeGrounding.dfy` (quotes of the job text), `ResumeDraft.dfy`
(draft and publication), `ResumeSelection.dfy` (which bullets are published), `ResumeLineage.dfy` (the fold over patches), `ResumeConfirmation.dfy`
(confirming a version), `ResumeCommands.dfy` (racing commands).

**Routing of integration tests**: `Shards.dfy`.

## Conventions

* Digests, canonical payloads and name-based identities are opaque and injective; random
  identities and fencing tokens are fresh. Two names of the source, the intent's idempotency
  key and its id, coincide there and here.
* `on_conflict_do_nothing` with a unique constraint is a keyed insert-if-absent.
* History fields, marked in `Rows.dfy`, record every claim ever handed out, the last claim that
  was told to execute, and the recovery attempt of the last resend. No transaction reads them.
* The portal stores the first call of a key. A call is on the wire from the commit that
  authorizes it; it may arrive at any later time, more than once, or never.

## What the callers of the stores are assumed to do

`Protocol.Driven` states the assumptions; `Necessity.dfy` shows for each of the less obvious
ones exactly when the call would keep the invariant without it, and what is lost otherwise.

* A call with a claim uses a claim that was handed out, on a worker that executes the run's
  graph version (`src/app/db/jobs.py:205-214`).
* `complete` and `wait_for_approval` are called only by the claim that was told to execute;
  `complete` not while the action is executing, because the graph finishes or fails first.
* A pause names a request that was just read as pending
  (`src/app/agents/research_graph.py:971-973`).
* The runner asks for a retry only while its claim has attempts left
  (`src/app/worker/runner.py:403`).
* One reconciliation is followed by at most one resend (`src/app/tools/registry.py:627-694`).
* Sending, recovering and confirming name an action whose approval was consumed;
  `cancel_action` is called while the run does not wait; an execution is prepared for a
  waiting run only while the creator is a member.
* A waiting run is not cancelled at a time before its pending cancellation request.

## What the proofs found

* A run can be stranded for good: it runs, its job is queued with no attempt left, and its call
  has failed or its outcome is unknown. No claim takes the job again, and the user can only
  request a cancellation that nobody will see (`Liveness.StrandedForever`). With callers as
  assumed it happens in exactly one way: a bad outcome is recorded (confirmed, or by an exhausted
  reconciliation or a refused resend, none of which needs the lease) while the job is queued for
  recovery after its last attempt (`Liveness.StrandedExactly`; `Example.RunIsStranded` is such a
  run). A retry after a bad outcome would be a second way (`Liveness.StrandingSteps`), but the
  runner does not ask for one without attempts. Every other queued job can be claimed
  (`Liveness.ClaimableUnlessStranded`).
* A job whose workers keep dying may be claimed and reclaimed without end, exactly if its action
  has succeeded or is in doubt with a recovery left: the sweep and the claim then ask for no
  attempt (`Rounds.RoundsAreUnbounded`; `Example.SucceededCircles` and `Example.InDoubtCircles`
  are such runs). Every other round uses up an attempt.
* A recorded failure excludes a submission exactly if no call is on the wire at that moment
  (`Settlement.LateCallLands`; `Example.FailedCallLands` is a run in which one lands). Nothing
  is sent after the record (`Settlement.SettledSendsNothing`).
* The expiry sweep can starve: while nobody else acts, a due request of a waiting run is never
  taken exactly if as many due requests of runs that do not wait come before it as a batch takes
  (`Starvation.StarvesExactly`). A run that fails before it pauses leaves such a request behind
  (`Example.EndedRunIsDue`, `Example.WaitingRunStarves`). `Starvation.UnblockingSteps` says
  exactly which steps give its place back; for an ended run it is only a preparation of its
  action after its creator was removed.
* Given that pauses name pending requests, a second pause of a run is always refused: the
  branch for a resume pause never commits (`Safety.PauseGuards`).
* Of all consistency errors of the protocol exactly five can occur (`Safety.LIVE_GUARDS`,
  `LiveGuards.LiveGuardsOccur`); the exact conditions of three are lemmas of their own, and the
  other two need a command that does not name one proposal.
* `verify_partition` decides the same without its intersection and union checks
  (`Shards.VerifyPartition`).
* A readable research pass can only be refused for its documents: more than eight of them, or a
  known document or chunk that it first mentions with other contents
  (`ResearchDocuments.OutputsDecide`). The program does not get there: the retrieval is scoped to
  at most one document (`src/app/worker/langgraph_executor.py:265-267`), its five chunks of 800
  bytes fit the budget of 4000 (`src/app/retrieval/documents.py:27-29`), so that a chunk's text
  does not depend on its rank, and while name and chunks do not change no pass is refused
  (`ResearchDocuments.StableRunIsAccepted`).

## Model

| member | source | states |
|---|---|---|
| `Protocol.TraceIsGood` | src/app/db/action_execution.py:284-406 | Safety of whole runs: after any interleaving of worker, graph, approver, sweeper, user, network and revocation steps, the linked rows agree (request, decisions, intent, invocation, run, job, log, portal). |
| `Protocol.StepKeeps` | src/app/db/jobs.py:363-545 | Every single step of every party keeps the invariant. |
| `Protocol.WorkerStepKeeps` | src/app/db/jobs.py:287-361 | The same for the steps of workers, the reclaim sweep and the user. |
| `Protocol.InitialIsGood` | src/app/db/models.py:243-325 | A run as it is created satisfies the invariant. |
| `Example.ApprovedRunCompletes` | src/app/db/jobs.py:563-647 | The assumptions about the drivers are satisfiable: a twelve-step run is approved, resumed, sent once, confirmed and completed. |
| `Example.FailedCallLands` | src/app/db/action_execution.py:733-777 | A driven run from its creation that ends with a failed action and one submission: the call arrives after the failure was recorded. |
| `Example.RunIsStranded` | src/app/db/jobs.py:1056-1061 | A driven run from its creation that ends stranded: its one attempt dies while the call is in doubt, the sweep requeues it for recovery, then the old worker reports the failure. |
| `Example.EndedRunIsDue` | src/app/db/approval_expiry.py:63-76 | A driven run that fails after it proposed and before it paused: it has ended, and its request falls due. |
| `Example.InDoubtCircles` | src/app/db/jobs.py:1056-1061 | A driven run from its creation, its call in doubt and its job leased, from which rounds of every length are possible. |
| `Example.SucceededCircles` | src/app/db/jobs.py:320-322 | The same for a run whose call has succeeded. |
| `Example.WaitingRunStarves` | src/app/db/approval_expiry.py:63-76 | Two driven runs, one ended and one waiting, whose due requests form a database in which the request of the waiting run starves with a batch of one. |
| `Safety.TraceGuardsAreDead` | src/app/db/action_execution.py:294-317 | In every reachable state every consistency error (`DomainInvariantError`) but five is unreachable, whatever step comes next. |
| `Safety.GuardsAreDead` | src/app/db/action_execution.py:349-361 | The same for one step from any state that satisfies the invariants. |
| `LiveGuards.LiveGuardsOccur` | src/app/db/action_execution.py:333-336 | The five do occur: for each there is a driven run from its creation and a driven call that raises it. |
| `Safety.AtMostOneEffect` | src/app/db/action_execution.py:415-482 | Over every interleaving at most one submission exists; it and every call in flight carry the payload of the newest intent, approved by one decision before expiry and consumed before expiry; attempts stay within one plus the recoveries. |
| `Safety.BarredSendsNothing` | src/app/db/action_execution.py:576-601 | Once the creator is removed, a cancellation is recorded or the run has ended, no send or resend is authorized any more. |
| `Settlement.LateCallLands` | src/app/db/action_execution.py:733-777 | In every run, once the outcome of the newest action is recorded and the portal has nothing, some driven continuation lands a submission if and only if a call is on the wire at that moment. |
| `Settlement.SettledSendsNothing` | src/app/db/action_execution.py:445-482 | In every run, a recorded outcome is final and no call is authorized after it, barred or not: the wire only shrinks. |
| `Settlement.ClosedSendsNothing` | src/app/db/action_execution.py:566-601 | The same for one step of any party, driven as assumed or not: without a call on the wire the portal stays as it is. |
| `Settlement.CancelledIsNeverSent` | src/app/db/action_execution.py:446-465 | An action that was cancelled was never sent and never will be: wire and portal are empty for good. |
| `Safety.OneReconciliationAllowsManyResends` | src/app/db/action_execution.py:566-601 | `authorize_resend` does not advance the recovery attempt it checks, so it can be repeated for one reconciliation. |
| `Safety.InDoubtIsSettled` | src/app/db/jobs.py:767-846 | A call in doubt is never forgotten: at any later time it is still executing in a live run with a job, or its outcome is recorded; an ended run has recorded it. |
| `Safety.InDoubtIsHandedOn` | src/app/db/jobs.py:409-437 | A preparation that finds a call in doubt changes nothing and asks for recovery exactly when the run is barred, and for execution otherwise. |
| `Safety.GivingUpSettles` | src/app/db/jobs.py:776-846 | Failing or reclaiming a job with a call in doubt requeues it, or, with recovery exhausted, records the unknown outcome and ends the run in the same step. |
| `Safety.EndingsAgree` | src/app/db/jobs.py:216-285 | With a failed or unknown action, prepare, fail, cancel and reclaim leave exactly the same rows. |
| `Safety.ConvergedMeans` | src/app/db/jobs.py:232-285 | The run is cancelled exactly when the call is known not to have happened because of a standing cancellation or revocation; else it fails with the category of the outcome; job status and summary follow. |
| `Safety.PauseGuards` | src/app/db/jobs.py:689-701 | A pause on a pending request is refused exactly when the job already carries a resume identity: a run pauses at most once. |
| `Replays.TraceKeepsTopics` | src/app/db/actions.py:197-239 | In every reachable state the log has exactly one proposal event per intent, at most one supersession and one cancellation, each consistent with its rows, and none for unknown intents. |
| `Replays.StepKeepsTopics` | src/app/db/actions.py:389-491 | Every step keeps that record exact. |
| `Replays.ProposalsReplay` | src/app/db/actions.py:493-510 | In every run, repeating a committed `prepare_action` at any later time while the run is still running, by a current caller, answers with the first request and changes no row. |
| `Replays.SupersessionsReplay` | src/app/db/actions.py:512-632 | In every run, the same for `supersede_action`. |
| `Replays.CancellationsReplay` | src/app/db/actions.py:634-716 | In every run, repeating a committed `cancel_action` at any later time, by a current caller, reports that nothing changed and changes no row. |
| `Replays.PrepareActionGuards` | src/app/db/actions.py:99-122 | `prepare_action` raises a consistency error exactly for a command whose identity, revision and payload do not name one proposal. |
| `Replays.SupersedeActionGuards` | src/app/db/actions.py:560-590 | `supersede_action` never finds its own events inconsistent. |
| `Replays.CancelActionGuards` | src/app/db/actions.py:680-704 | `cancel_action` raises its consistency error exactly when the log lacks the cancellation asked for. |
| `Replays.SupersededCannotBeCancelled` | src/app/db/actions.py:690-693 | That error is live: whenever `supersede_action` has replaced an open proposal, cancelling that one as expired raises it. |
| `ActionProofs.RevisionIsPosition` | src/app/db/actions.py:549-553 | Revision numbers of a run are exactly 1..n. |
| `JobProofs.FirstExecutingIsNewest` | src/app/db/jobs.py:776-786 | The unordered single-row selects are deterministic: only the newest proposal can match. |
| `ActionProofs.PrepareActionKeeps` | src/app/db/actions.py:493-510 | Proposing keeps the invariant. |
| `ActionProofs.SupersedeActionKeeps` | src/app/db/actions.py:512-632 | Superseding keeps the invariant. |
| `ActionProofs.DecideApprovalKeeps` | src/app/db/approvals.py:223-356 | Deciding keeps the invariant. |
| `ActionProofs.SweepRequestKeeps` | src/app/db/approval_expiry.py:77-122 | Expiring one due request keeps the invariant and never raises: the resume identity of a queued or leased job never conflicts. |
| `ActionProofs.ApprovalGuards` | src/app/db/approvals.py:358-405 | Decisions and resume reads find binding, status and decision consistent. |
| `ExecutionProofs.PrepareExecutionGuards` | src/app/db/action_execution.py:319-341 | `prepare_execution` raises a consistency error exactly for an action that was consumed and then cancelled, once the creator is revoked; all its other guards are dead. |
| `ExecutionProofs.ExecutionGuards` | src/app/db/action_execution.py:434-443 | Sending, recovering and confirming raise a consistency error exactly for an action whose approval was not consumed. |
| `ExecutionProofs.BeginSendKeeps` | src/app/db/action_execution.py:415-482 | Authorizing or refusing a send keeps the invariant. |
| `ExecutionProofs.BeginReconciliationKeeps` | src/app/db/action_execution.py:484-538 | A reconciliation keeps the invariant. |
| `ExecutionProofs.ConfirmSuccessKeeps` | src/app/db/action_execution.py:671-731 | A confirmed success keeps the invariant. |
| `ExecutionProofs.ConfirmFailureKeeps` | src/app/db/action_execution.py:733-777 | A confirmed failure keeps the invariant. |
| `ExecutionProofs.ConfirmOutcomeUnknownKeeps` | src/app/db/action_execution.py:779-819 | A confirmed unknown outcome keeps the invariant. |
| `ExecutionProofs.DeliverKeeps` | src/app/db/mock_submissions.py:35-78 | The portal stores the first call of a key and answers later ones with it. |
| `ActionExecution.PutIfAbsent` | src/app/db/mock_submissions.py:44-78 | A call reports creation exactly if its key was absent, and the key is stored afterwards. |
| `JobProofs.ClaimKeeps` | src/app/db/jobs.py:287-361 | A claim keeps the invariant. |
| `JobProofs.ResumeIsSound` | src/app/db/jobs.py:1207-1277 | The resume identity and the facts behind it that a claim carries are never wrong. |
| `JobProofs.FailJobKeeps` | src/app/db/jobs.py:767-900 | Failing a job never raises and keeps the invariant. |
| `JobProofs.CancelJobKeeps` | src/app/db/jobs.py:902-967 | Cancelling a job never raises and keeps the invariant. |
| `JobProofs.ReclaimOneKeeps` | src/app/db/jobs.py:1021-1186 | Reclaiming a stale job never raises, keeps the invariant and leaves the job unleased. |
| `Evolution.TraceIsLater` | src/app/db/models.py:1654-1699 | Over whole runs logs only grow, statuses only advance along the edges the stores take, attempts and recoveries never decrease, revocation and endings are for good. |
| `Evolution.StepIsLater` | src/app/db/jobs.py:110-157 | The same for one step of any party, driven as assumed or not. |
| `Fencing.OneHolder` | src/app/db/jobs.py:1313-1327 | Of all claims ever handed out at most one is valid, whatever the clocks say. |
| `Fencing.StaleHandleChangesNothing` | src/app/db/jobs.py:1195-1205 | Every store call with a lost or expired handle changes nothing. |
| `Fencing.LostForGood` | src/app/db/jobs.py:340-347 | A lease that was given up, reclaimed or overtaken is never valid again in any continuation. |
| `Fencing.LeasedRowIsTheHolders` | src/app/db/jobs.py:996-1020 | A leased job row changes only by its holder, by a reclaim after expiry, or by the user's cancellation of a run that is not running. |
| `Fencing.StepMovesJob` | src/app/db/jobs.py:1329-1355 | Every step keeps the job's claim, makes a fresh one, or wakes a job that never resumed. |
| `Fencing.OrdinaryClaimsBounded` | src/app/db/jobs.py:299-344 | In a whole run at most twice `max_attempts` claims use up an attempt. |
| `Fencing.ReconciliationsBounded` | src/app/db/action_execution.py:509-538 | In a whole run an intent is reconciled over the network at most as often as allowed. |
| `Fencing.TerminalIsFinal` | src/app/db/models.py:287-321 | An ended run stays exactly as it ended, its times are ordered, it has exactly one terminal event, and event numbers are consecutive. |
| `Fencing.CancelTimeOrder` | src/app/db/runs.py:541-543 | Cancelling a waiting run keeps the time CHECK of `runs` exactly if the clock has not run behind the pending cancellation request. |
| `Rows.TerminalTime` | src/app/db/jobs.py:103-107 | The finish time is no earlier than now, the start and the cancellation request. |
| `Liveness.DormantRunWakes` | src/app/db/approvals.py:262-330 | No lost wake-up: a sleeping run waits for an open request; until it expires an approver can decide it, afterwards the sweeper expires it, and both queue the job with that request. |
| `Liveness.WokenRunResumes` | src/app/db/jobs.py:501-533 | The woken job is claimed and resumes the run, or cancels it if it was barred meanwhile. |
| `Liveness.ClaimableUnlessStranded` | src/app/db/jobs.py:299-328 | A queued due job can be claimed exactly unless its run is stranded: attempts used up and its action failed or unknown. |
| `Liveness.LiveRunsGoOn` | src/app/db/jobs.py:299-328 | Every live run that is not stranded has a way on. |
| `Rounds.RoundsAreUnbounded` | src/app/db/jobs.py:299-344 | From any leased job, driven rounds of a lost lease and the next claim exist in every number exactly if the newest action has succeeded (with recoveries allowed at all) or is in doubt with a recovery left. |
| `Rounds.RoundsAreBounded` | src/app/db/jobs.py:340-344 | Otherwise every round uses up an attempt, so that at most the remaining attempts are possible. |
| `Liveness.StrandingSteps` | src/app/db/jobs.py:299-328 | Exactly which steps of any party strand a run: its attempts are used up, and a failed or unknown outcome is recorded while its job is queued, or its holder gives it back for a retry after that outcome with no cancellation pending. |
| `Liveness.StrandedExactly` | src/app/db/jobs.py:1056-1061 | In every run: stranded exactly if at some earlier step a failed or unknown outcome was recorded while the job, its attempts used up, was queued. |
| `Liveness.RetryStrands` | src/app/db/jobs.py:732-764 | `requeue` itself strands a run exactly with no attempt left, after a failed or unknown outcome, with no cancellation pending; `release` never does. |
| `Liveness.StrandedForever` | src/app/db/jobs.py:299-328 | A stranded run never ends, in any continuation. |
| `Necessity.CompletionForgetsDoubt` | src/app/db/jobs.py:563-647 | `complete` does not look for a call in doubt: on any rows it keeps the invariant exactly unless the holder completes a run whose call is executing; a running run it ends. |
| `Necessity.RequeueNeedsAttempts` | src/app/db/jobs.py:724-765 | `requeue` keeps the invariant exactly if an attempt is left, the call was attempted, a cancellation ends the run, or the lease is lost. |
| `Necessity.ExhaustedJobWaitsForever` | src/app/db/jobs.py:299-328 | Otherwise the job is never claimed again. |
| `Necessity.PreparationMayEndTheWait` | src/app/db/action_execution.py:273-413 | `prepare_execution` keeps the invariant exactly unless it names the open action of a waiting run whose creator was removed. |
| `Necessity.EndedWaitIsLost` | src/app/db/action_execution.py:319-343 | Otherwise no decision, sweep or cancellation moves the run any more. |
| `Necessity.UnsupportedVersionForgetsDoubt` | src/app/db/jobs.py:363-545 | A preparation never raises, and keeps the invariant exactly unless the worker cannot execute the graph version, a call is in doubt and the run is not barred. |
| `Necessity.ResendBreaksTheBound` | src/app/db/action_execution.py:540-609 | `authorize_resend` keeps the invariant, and with it the bound on attempts, exactly unless it allows a resend although there were more attempts than the reconciliation allows. |
| `Necessity.ResumePauseIsNotAWait` | src/app/db/jobs.py:649-722 | `wait_for_approval` keeps the invariant exactly unless the holder pauses again on the request the run was resumed with. |
| `Necessity.ResumePauseSleeps` | src/app/db/jobs.py:689-698 | After such a pause on the newest request no decision wakes the run, and the sweep does exactly if the request is an approval that is due. |
| `Necessity.CancellationMayEndTheWait` | src/app/db/actions.py:634-716 | `cancel_action` keeps the invariant exactly unless it cancels the action that a waiting run is about to resume with. |
| `Necessity.CancelledWaitCannotBeCancelled` | src/app/db/runs.py:399-611 | Then the user's cancellation of the run raises a consistency error until a worker has resumed it. |
| `Necessity.CancellationNeedsTheClock` | src/app/db/runs.py:399-611 | The user's cancellation keeps the invariant exactly unless it ends a waiting run at a time before the pending cancellation request. |
| `Necessity.ConfirmationNeedsTheClock` | src/app/db/models.py:1766-1769 | Confirmations meet the time CHECK of `tool_invocations` exactly if the clock has not run behind the start of the call. |
| `Effects.FirstDecision` | src/app/db/approvals.py:223-356 | For all rows and commands: a first decision commits exactly if its actor is a current member who may review, nobody has decided, the request is pending in the version that was seen and not expired, the run waits with a job at rest and the binding is exact; then the answer, the one decision on record, the status of the request and the event carry the verdict of the command, and the job is queued with this request. |
| `Effects.RepeatedDecision` | src/app/db/approvals.py:262-277 | A reviewer who decided before is answered with that decision, or refused if it was another verdict; nothing is written and the rest of the command is not looked at. |
| `Effects.ResumeIsRead` | src/app/db/approvals.py:358-405 | In every reachable state the resume read answers with the status and the verdict on record, and a graph never resumes on an approval that nobody gave. |
| `Effects.ExpiryHappens` | src/app/db/approval_expiry.py:77-122 | A due request of a waiting run expires at its deadline and not before; a sleeping job wakes with exactly that request, any other job stays as it is. |
| `Effects.RowsAreBound` | src/app/db/action_execution.py:220-259 | In any rows a call binds to an action exactly if it is the first with its identity, the request is its own and was made for exactly this action, revision and arguments, and the run is an application of the current version. |
| `Effects.RecoveryIsOpen` | src/app/db/action_execution.py:484-610 | In any rows recovery and confirmation go through exactly while the call is out with its consumed approval; a reconciliation and a success also ask for an attempt on record, a resend for the reconciliation that the caller knows. |
| `Effects.ConsumptionHappens` | src/app/db/action_execution.py:319-406 | From the invariant: the approval is consumed exactly if the creator is a member, the run is running without a pending cancellation and the deadline has not passed; what a preparation answers and writes in every other case. |
| `Effects.SendIsAnswered` | src/app/db/action_execution.py:434-482 | From the invariant: a send is answered exactly for an authorized action, refused exactly if the creator was removed, a cancellation is pending or the run does not run, with a category that names the removal if there was one; otherwise the approved payload goes out as the first attempt. |
| `Effects.ReconciliationIsCounted` | src/app/db/action_execution.py:508-538 | A reconciliation is counted and allowed below the bound; the first one beyond records the unknown outcome and why. |
| `Effects.ResendIsAnswered` | src/app/db/action_execution.py:566-609 | From the invariant: a resend is refused exactly if the creator was removed, a cancellation is pending or the run does not run; category, evidence and event are the revocation exactly if the creator was removed, and otherwise the confirmed absence after a cancellation. |
| `Effects.SuccessIsRecorded` | src/app/db/action_execution.py:671-731 | A confirmed success is taken exactly for an executing action and recorded in every field and the log. |
| `Effects.FailureIsRecorded` | src/app/db/action_execution.py:611-639 | The same for a failure, with the category and evidence it is given. |
| `Effects.UnknownIsRecorded` | src/app/db/action_execution.py:641-669 | The same for an unknown outcome. |
| `JobEffects.ClaimIsTaken` | src/app/db/jobs.py:296-361 | From the invariant: which due jobs are claimed, exactly, and that a fresh claim is valid for exactly the duration asked for, for its token and attempt alone, and stale from then on. |
| `JobEffects.HeartbeatExtends` | src/app/db/jobs.py:547-560 | For all rows: a heartbeat answers whether the lease was still held, and then the lease is held exactly until the duration asked for has passed from that moment and is stale from then on; nothing but the expiry changes, and without the lease nothing at all. |
| `JobEffects.LostLeaseIsTold` | src/app/db/jobs.py:547-561 | Whoever does not hold the lease any more is told so by every call, and nothing changes. |
| `JobEffects.ResumeIsChecked` | src/app/db/jobs.py:1207-1276 | In any rows, when a claim may resume on its request, exactly. |
| `JobEffects.SettledCallEndsRun` | src/app/db/jobs.py:232-285 | A settled call ends its run: rows, reason, category, finish time and event, exactly. |
| `JobEffects.HolderIsTold` | src/app/db/jobs.py:400-545 | From the invariant: what the holder of a lease is told, exactly, and what becomes of run and job in each case. |
| `JobEffects.CompletionEndsRun` | src/app/db/jobs.py:577-647 | A completion by the holder ends the run as completed, or as cancelled exactly for a pending cancellation or, on a publication, a removed creator. |
| `JobEffects.PauseRests` | src/app/db/jobs.py:660-722 | When a pause commits, exactly, and that it puts job and run to rest. |
| `JobEffects.PauseIsChecked` | src/app/db/jobs.py:660-700 | In any rows, when a pause by the holder commits, exactly. |
| `JobEffects.EndedRunIsLeftAlone` | src/app/db/jobs.py:439-450 | In any rows, a job still leased although its run has ended is given up without touching the run. |
| `JobEffects.JobIsGivenBack` | src/app/db/jobs.py:737-765 | A retry or release queues the job again after the delay; a retry ends the run instead exactly if a cancellation is pending and no call is in doubt; a release is refused exactly to the last attempt. |
| `JobEffects.WorkerFails` | src/app/db/jobs.py:776-900 | What a failing worker leaves: a call in doubt kept for recovery or closed as unknown, a settled call converged, a pending cancellation carried out, or job and run failed with its category. |
| `JobEffects.WorkerCancels` | src/app/db/jobs.py:911-967 | What a cancelling worker leaves, and for which reason the run is cancelled: the request of the user before the removal before its own. |
| `JobEffects.StaleJobIsReclaimed` | src/app/db/jobs.py:1027-1186 | What a reclaim leaves in every case, with its answer, summaries, times and events. |
| `JobEffects.UserCancels` | src/app/db/runs.py:399-611 | An authorized user ends a queued or waiting run at once, with its open action, and asks a running one to stop; anybody else changes nothing. |
| `JobEffects.SeveralAreRefused` | src/app/db/runs.py:399-611 | In any rows, a cancellation finds too many open actions exactly if there are two. |
| `JobEffects.WaitIsChecked` | src/app/db/runs.py:399-611 | In any rows, when a waiting run with one open action is cancelled, and when its approval is a conflict, exactly. |
| `JobEffects.IdleJobIsChecked` | src/app/db/jobs.py:1135-1186 | In any rows, when an idle job is retried, and when its missing request is an error, exactly. |
| `ActionEffects.ProposalIsMade` | src/app/db/actions.py:493-510 | When a proposal commits, exactly; the first is inserted open and logged, a repetition finds it. |
| `ActionEffects.ProposalIsReplaced` | src/app/db/actions.py:512-632 | When a supersession commits, exactly; it retires the newest proposal with its open approval and inserts the next revision, a repetition finds the successor. |
| `ActionEffects.ActionIsCancelled` | src/app/db/actions.py:634-716 | When a cancellation commits, exactly; it closes an open action once, and a repetition is told so exactly if that cancellation is in the log. |
| `ActionEffects.ProposalIsRefused` | src/app/db/actions.py:493-510 | Which refusal a proposal is given: a command that is no first proposal is a conflict, then only the creator finds the run, then it must be running. |
| `ActionEffects.ReplacementIsRefused` | src/app/db/actions.py:512-560 | The same for a supersession, with the old proposal and its consumed approval. |
| `History.StepIsEntitled` | src/app/db/action_execution.py:319-482 | In every step of every party, decisions, consumption, calls, reconciliations, leases, cancellation requests and endings change only by the one kind of step that may change them, under its conditions, by exactly what it may change. |
| `Provenance.EveryEffectWasAuthorized` | src/app/db/action_execution.py:373-482 | In every run, each call in flight and each submission goes back to a complete chain in this order: a current reviewer approved the open request in time, the approval was consumed before its deadline, the call was sent, the last two while the creator was a member, the run running and no cancellation pending. |
| `Provenance.DecisionWasMade` | src/app/db/approvals.py:279-320 | Every decision on record in a run was made by an earlier step of its actor, a current reviewer, on the open request, in time, with this verdict. |
| `Provenance.RejectionIsObeyed` | src/app/db/approvals.py:304-320 | In every run, once a rejection was committed, no call for that action is in flight or has arrived, before or at any later time. |
| `Provenance.SubmissionArrived` | src/app/db/mock_submissions.py:35-78 | A submission arrived as a call that was on the wire at that moment, with the same payload. |
| `Provenance.LeaseIsBacked` | src/app/db/jobs.py:338-361 | In every run, an outstanding lease lasts exactly as long as its last claim or heartbeat asked for, and has been the lease ever since. |
| `Provenance.CancellationWasAskedFor` | src/app/db/runs.py:603-609 | In every run, a pending cancellation was asked for by an authorized user, at the time on record, while the run was running. |
| `Provenance.EndingWasMade` | src/app/db/jobs.py:110-156 | In every run, an ended run was ended by a step that may end it like this and has stood so since. |
| `Provenance.CancelledForAReason` | src/app/db/jobs.py:478-530 | A cancelled run had its creator removed, or an authorized user asked for it, or the holder of its lease gave it up. |
| `Provenance.RefusedResendCancels` | src/app/db/action_execution.py:575-609 | End to end, in every run: after a refused resend, whoever holds the lease at any later time and prepares the job cancels the run, because of the revocation exactly if the creator was removed at the refusal, and otherwise because the user asked for it. |
| `Provenance.RefusedSendCancels` | src/app/db/action_execution.py:446-465 | End to end, in every run: after a refused send nothing is ever outside for that action, and the next preparation by a holder cancels the run. |
| `ActionExecutionStores.ActionExecutionStore.PrepareExecution` | src/app/db/action_execution.py:273-413 | The in-place transaction `prepare_execution` commits exactly its specification or leaves the rows alone, with the same answer. |
| `ActionExecutionStores.ActionExecutionStore.BeginSend` | src/app/db/action_execution.py:415-482 | The in-place transaction `begin_send` commits exactly its specification or leaves the rows alone, with the same answer. |
| `ActionExecutionStores.ActionExecutionStore.BeginReconciliation` | src/app/db/action_execution.py:484-538 | The in-place transaction `begin_reconciliation` commits exactly its specification or leaves the rows alone, with the same answer. |
| `ActionExecutionStores.ActionExecutionStore.AuthorizeResend` | src/app/db/action_execution.py:540-609 | The in-place transaction `authorize_resend` commits exactly its specification or leaves the rows alone, with the same answer. |
| `ActionExecutionStores.ActionExecutionStore.ConfirmSuccess` | src/app/db/action_execution.py:671-731 | The in-place transaction `confirm_success` commits exactly its specification or leaves the rows alone, with the same answer. |
| `ActionExecutionStores.ActionExecutionStore.ConfirmFailure` | src/app/db/action_execution.py:733-777 | The in-place transaction `confirm_failure` commits exactly its specification or leaves the rows alone, with the same answer. |
| `ActionExecutionStores.ActionExecutionStore.ConfirmOutcomeUnknown` | src/app/db/action_execution.py:779-819 | The in-place transaction `confirm_outcome_unknown` commits exactly its specification or leaves the rows alone, with the same answer. |
| `ActionExecutionStores.ActionExecutionStore.MarkFailed` | src/app/db/action_execution.py:611-639 | The in-place writes of `_mark_failed`. |
| `ActionExecutionStores.ActionExecutionStore.MarkUnknown` | src/app/db/action_execution.py:641-669 | The in-place writes of `_mark_unknown`. |
| `WorkerJobStores.WorkerJobStore.ClaimDueJob` | src/app/db/jobs.py:287-361 | The in-place transaction `claim_due_job` commits exactly its specification, or rolls back, with the same answer. |
| `WorkerJobStores.WorkerJobStore.PrepareClaimedJob` | src/app/db/jobs.py:363-545 | The in-place transaction `prepare_claimed_job` commits exactly its specification, or rolls back, with the same answer. |
| `WorkerJobStores.WorkerJobStore.Heartbeat` | src/app/db/jobs.py:547-561 | The in-place transaction `heartbeat` commits exactly its specification, or rolls back, with the same answer. |
| `WorkerJobStores.WorkerJobStore.Complete` | src/app/db/jobs.py:563-647 | The in-place transaction `complete` commits exactly its specification, or rolls back, with the same answer. |
| `WorkerJobStores.WorkerJobStore.WaitForApproval` | src/app/db/jobs.py:649-722 | The in-place transaction `wait_for_approval` commits exactly its specification, or rolls back, with the same answer. |
| `WorkerJobStores.WorkerJobStore.Requeue` | src/app/db/jobs.py:724-765 | The in-place transaction `requeue` commits exactly its specification, or rolls back, with the same answer. |
| `WorkerJobStores.WorkerJobStore.Fail` | src/app/db/jobs.py:767-900 | The in-place transaction `fail` commits exactly its specification, or rolls back, with the same answer. |
| `WorkerJobStores.WorkerJobStore.Cancel` | src/app/db/jobs.py:902-967 | The in-place transaction `cancel` commits exactly its specification, or rolls back, with the same answer. |
| `WorkerJobStores.WorkerJobStore.Release` | src/app/db/jobs.py:969-994 | The in-place transaction `release` commits exactly its specification, or rolls back, with the same answer. |
| `WorkerJobStores.WorkerJobStore.ConvergeTerminalAction` | src/app/db/jobs.py:216-285 | The in-place `_converge_terminal_action`. |
| `WorkerJobStores.WorkerJobStore.ConsumeLease` | src/app/db/jobs.py:1329-1355 | The lease is given up exactly if it is still held; otherwise the row stays. |
| `WorkerJobStores.WorkerJobStore.ReclaimJob` | src/app/db/jobs.py:1027-1186 | One iteration of the reclaim loop. |
| `WorkerJobStores.WorkerJobStore.ReclaimStaleLeases` | src/app/db/jobs.py:996-1193 | The batch takes at most `limit` stale jobs, reclaims exactly those, leaves all other runs alone and reports the exact counts. |
| `WorkerJobStores.ReclaimConserves` | src/app/db/jobs.py:1188-1193 | scanned = requeued + finished + dead, and no scanned job stays leased. |
| `Batches.ReclaimCountsMean` | src/app/db/jobs.py:1021-1193 | The counts that a reclaim batch reports are the numbers of its runs whose job it left queued, done and dead, and each retry is delayed by what its attempt calls for. |
| `Batches.StaleIffWithinLimit` | src/app/db/jobs.py:1007-1020 | A job is taken exactly if it is stale and fewer stale ones than the limit come before it. |
| `Batches.SweepCountsMean` | src/app/db/approval_expiry.py:77-128 | The counts that an expiry batch reports are the numbers of its runs that waited, and of those whose job slept. |
| `WorkerJobStores.StaleJobs` | src/app/db/jobs.py:1007-1020 | The query: stale jobs in order, at most `limit`, and all of them if fewer. |
| `ActionStores.ActionStore.InsertProposal` | src/app/db/actions.py:389-491 | The in-place transaction `_insert_proposal` commits exactly its specification, or rolls back, with the same answer. |
| `ActionStores.ActionStore.PrepareAction` | src/app/db/actions.py:493-510 | The in-place transaction `prepare_action` commits exactly its specification, or rolls back, with the same answer. |
| `ActionStores.ActionStore.SupersedeAction` | src/app/db/actions.py:512-632 | The in-place transaction `supersede_action` commits exactly its specification, or rolls back, with the same answer. |
| `ActionStores.ActionStore.CancelAction` | src/app/db/actions.py:634-716 | The in-place transaction `cancel_action` commits exactly its specification, or rolls back, with the same answer. |
| `ApprovalStores.ApprovalStore.Decide` | src/app/db/approvals.py:223-356 | The in-place transaction `decide`. |
| `ApprovalStores.ApprovalStore.ExpireRequest` | src/app/db/approval_expiry.py:77-122 | One iteration of the expiry loop. |
| `ApprovalStores.ApprovalStore.SweepDueRequests` | src/app/db/approval_expiry.py:50-128 | The batch takes at most `limit` due requests, expires exactly those of waiting runs, leaves all other runs alone and reports the exact counts. |
| `ApprovalStores.SweepProgress` | src/app/db/approval_expiry.py:78-89 | A sweep expires something exactly if one of the requests it takes belongs to a waiting run. |
| `ApprovalStores.TakenIffWithinLimit` | src/app/db/approval_expiry.py:63-76 | A request is taken exactly if it is due and fewer due requests than the limit come before it. |
| `Starvation.BlockedSweepStarves` | src/app/db/approval_expiry.py:63-122 | If a full batch has only runs that do not wait, the sweep changes nothing, every later one takes the same batch and expires nothing, and due requests of waiting runs outside it stay due and are not taken. |
| `Starvation.StarvesExactly` | src/app/db/approval_expiry.py:63-122 | While nobody else acts, a due request of a waiting run is never taken by any number of sweeps at any times exactly if at least as many due requests of runs that do not wait come before it as a batch takes. |
| `Starvation.SweepsStarve` | src/app/db/approval_expiry.py:63-122 | The same for each sequence of sweeps, with the bound: otherwise it is taken at the latest by the sweep after as many sweeps as due requests of waiting runs come before it. |
| `Starvation.UnblockingSteps` | src/app/db/action_execution.py:319-348 | Exactly which steps of any party give the place of such a run back: closing or consuming its request, replacing it by one that is not due, or the pause of the run; for an ended run only a preparation after its creator was removed. |
| `RunStores.RunStore.CancelRun` | src/app/db/runs.py:399-611 | The in-place cancellation of a run. |
| `Simulation.System.Serve` | src/app/db/jobs.py:287-361 | Every step of any party, served by the stores in place, is exactly the step of the transition system. |
| `Simulation.System.ServeAll` | src/app/db/action_execution.py:284-406 | Over whole runs the stores pass through exactly the states of the transition system, end with rows that satisfy the invariants, and raise no consistency error but the five live ones. |
| `Simulation.ServedIsSafe` | src/app/db/action_execution.py:294-317 | What a caller may count on: a driven call on good rows leaves good rows and raises no consistency error but a live one. |
| `Tables.RunTables.MarkCancelled` | src/app/db/jobs.py:110-131 | The in-place `_mark_run_cancelled`. |
| `Tables.RunTables.MarkFailed` | src/app/db/jobs.py:134-156 | The in-place `_mark_run_failed`. |
| `Tables.RunTables.PutIfAbsent` | src/app/db/mock_submissions.py:35-78 | The in-place insert-if-absent answers with the stored row; a later call changes nothing. |
| `EventReader.ReadAfter` | src/app/db/events.py:35-142 | One page: the next events after the cursor, or the exact error. |
| `EventReader.PageOfLog` | src/app/db/events.py:69-97 | On a numbered log a page is exactly the next `limit` events after the cursor. |
| `EventReader.StreamRunEvents` | src/app/api/routes/events.py:63-104 | One page is sent for each read, until everything of an ended run was sent. Whatever is appended between reads, what is sent is a gapless, duplicate-free stretch of the log from the client's cursor on, ending with the terminal event or at the end of the log of an ended run. |
| `EventReader.RunsAreObserved` | src/app/db/events.py:50-97 | Reads of any run of the protocol see numbered logs that only grow. |
| `EventReader.PagesAdvance` | src/app/db/events.py:69-97 | A reader that is behind advances with every page. |
| `AgentLoop.Tracker.Begin` | src/app/agents/create_agent_loop.py:188-209 | `begin_model`: counters advance or an exact limit error leaves them alone. |
| `AgentLoop.Tracker.PreflightToolBatch` | src/app/agents/create_agent_loop.py:211-251 | `preflight_tool_batch`: the whole batch is checked before any of it runs. |
| `AgentLoop.ModelCallIsAllowed` | src/app/agents/create_agent_loop.py:188-209 | A model call is allowed exactly while both its budgets last, nothing stops the loop and no batch is open; otherwise the first obstacle is named. |
| `AgentLoop.BatchIsAccepted` | src/app/agents/create_agent_loop.py:652-693 | A batch is taken over exactly if its calls are new, distinct and allowed and it fits into all budgets as a whole; then exactly its identities are open and one more iteration is used. |
| `AgentLoop.BatchIsStopped` | src/app/agents/create_agent_loop.py:652-693 | What a batch that is not taken over stops with, exactly, and when the feedback mode ends the pass instead. |
| `AgentLoop.AnswerIsAccepted` | src/app/agents/create_agent_loop.py:652-693 | A response without calls is the answer unless something stops the loop; in the feedback mode one without content ends the pass. |
| `AgentLoop.ToolIsStarted` | src/app/agents/create_agent_loop.py:259-263 | A tool starts exactly if it belongs to the open batch, under its first position, and one call more is counted. |
| `AgentLoop.Tracker.AcceptResponse` | src/app/agents/create_agent_loop.py:652-693 | `_accepted_response`, with the research mode that ends the pass instead of failing. |
| `AgentLoop.Tracker.StartTool` | src/app/agents/create_agent_loop.py:259-263 | `begin_tool`, which checks no budget. |
| `AgentLoop.Tracker.FinishTool` | src/app/agents/create_agent_loop.py:265-269 | `complete_tool`: the last call of a batch clears it. |
| `ToolSerializer.SerialMiddleware.TryStart` | src/app/agents/create_agent_loop.py:852-868 | The critical section before a tool runs. |
| `ToolSerializer.SerialMiddleware.End` | src/app/agents/create_agent_loop.py:869-911 | The critical section after a tool ended. |
| `ToolSerializer.StepKeeps` | src/app/agents/create_agent_loop.py:839-916 | Every arrival, wake-up, end, failure and withdrawal keeps budgets, order and identities. |
| `ToolSerializer.BudgetsHold` | src/app/agents/create_agent_loop.py:188-269 | In every reachable state all four budgets hold, although `begin_tool` checks none, and started minus completed is at most one. |
| `ToolSerializer.StartsInOrder` | src/app/agents/create_agent_loop.py:852-863 | For every arrival order and schedule a batch starts in proposal order, and no accepted call ever starts twice. |
| `ToolSerializer.NothingStartsAfterFailure` | src/app/agents/create_agent_loop.py:855-856 | After the first failure no later call starts. |
| `ToolSerializer.NeverStranded` | src/app/agents/create_agent_loop.py:211-251 | Once an accepted batch is complete, the next model call passes every limit. |
| `ToolSerializer.RespondMeans` | src/app/agents/create_agent_loop.py:652-693 | A batch that is well formed and fits as a whole is open from then on with a model call owed for it; any other response leaves the concurrent loop as it is. |
| `ToolSerializer.WakeMeans` | src/app/agents/create_agent_loop.py:852-868 | In a sound state, what a coroutine that looks whether it is its turn does: give up, go on waiting, fail the loop for all, or start. |
| `ToolSerializer.StrangerFails` | src/app/agents/create_agent_loop.py:852-868 | A coroutine of an earlier batch never starts: at its ordinal it fails the loop. |
| `ToolSerializer.EndMeans` | src/app/agents/create_agent_loop.py:869-911 | What the end of the coroutine that runs counts, and whose turn it is then. |
| `ToolSerializer.CountsAreExact` | src/app/agents/create_agent_loop.py:259-269 | In every reachable state the counters equal the calls that started and the coroutines that finished. |
| `ToolSerializer.BatchCanFinish` | src/app/agents/create_agent_loop.py:852-911 | No deadlock: when all calls of a batch are present, some schedule completes it in order. |
| `FairSchedules.EveryFairScheduleFinishes` | src/app/agents/create_agent_loop.py:839-916 | Every schedule that keeps waking the calls finishes: with each call of the batch present once, as many rounds of wake-ups as starts and ends are left, at most two for each call, complete it in order and leave the loop ready for a model call. |
| `FairSchedules.FairRoundAdvances` | src/app/agents/create_agent_loop.py:853-876 | Every round in which each coroutine is woken, in any order, brings the batch nearer to its end. |
| `ToolTranscript.RunManualToolLoop` | src/app/agents/manual_loop.py:63-155 | The loop ends with the first turn that does not go on, which decides exactly how, and an answer carries each turn and the outputs of its calls. Every transcript the loop returns is accepted by the parser, which finds exactly the executed calls with their outputs, in order. |
| `ToolTranscript.OrderedToolExchanges` | src/app/agents/research_nodes.py:837-861 | The parser accepts exactly transcripts whose replies answer each proposed call once and in order, and pairs them. |
| `Keyed.MergeById` | src/app/agents/research_graph.py:400-447 | `_merge_sources` and `_merge_evidence` compute the merge. |
| `Keyed.MergeMeans` | src/app/agents/research_graph.py:400-447 | A merge fails exactly on a contradiction with what exists, and else keeps it and adds exactly what is new. |
| `ResearchPasses.ResearchOutputs` | src/app/agents/research_nodes.py:865-1007 | The extraction loop computes the specified outputs. |
| `ResearchDocuments.OutputsDecide` | src/app/agents/research_graph.py:671-696 | The exact outcome of a pass on a sound state, in terms of what the tools answered: the web side never matters; a readable trace is refused exactly if it names more than eight documents, first mentions a known document or chunk with other contents, or makes more than eight documents known. |
| `ResearchRecords.PassIsAccepted` | src/app/agents/research_nodes.py:865-1007 | A pass over a sound state is accepted exactly if it reports its calls, all passes together make at most eight, the outputs keep to their contracts, no known document or chunk is first mentioned with other contents, and at most eight documents are named, or known afterwards. |
| `ResearchRecords.AcceptedIsChecked` | src/app/agents/research_graph.py:628-712 | Whatever the state was, what the node accepts has passed its checks: numbering, limits, unique identities, and evidence with its source. |
| `ResearchRecords.PassRecordsWeb` | src/app/agents/research_nodes.py:941-975 | An accepted pass from a sound state keeps all that was known and makes known exactly the pages that its searches returned and the snippets they quoted: a new page with the details of its first result, a snippet bound to its page. |
| `ResearchRecords.PassRecordsDocuments` | src/app/agents/research_nodes.py:894-937 | The same for documents and chunks: exactly those retrieved, each with the contents of its first mention. |
| `ResearchRecords.PassRecordsCalls` | src/app/agents/research_graph.py:448-502 | Every call of an accepted pass is recorded once, under its pass, numbered on from earlier passes. |
| `ResearchDocuments.StablePassIsAccepted` | src/app/agents/research_nodes.py:894-937 | A readable pass within the limit of calls, its results read from at most eight documents whose names and chunks do not change, is never refused. |
| `ResearchDocuments.StableRunIsAccepted` | src/app/agents/research_nodes.py:865-880 | So both passes of a run over such documents go through and leave a sound state. |
| `ResearchLoops.ManualPass` | src/app/agents/manual_loop.py:63-155 | From the simple loop to the extraction, whatever model and tools answer: the transcript fits, its calls are counted right, and the trace is refused exactly for calls beyond the limit of the run or an unreadable exchange. |
| `ResearchLoops.SerializedPass` | src/app/agents/create_agent_loop.py:1095-1123 | The same for the concurrent loop under any schedule that stops between batches: exchanges, reported calls and results agree and fit the limit that both passes share, so only unreadable contents refuse the trace. |
| `ResearchLoops.CallsAreAccounted` | src/app/agents/create_agent_loop.py:839-916 | In every state of the concurrent loop the accepted calls are, in order, those that have started and those of the current batch still to start, and every start is counted. |
| `ResearchProofs.TwoPasses` | src/app/agents/research_graph.py:628-712 | After both passes an accepted state is sound. |
| `ResearchProofs.CountsFollow` | src/app/agents/research_nodes.py:874-880 | At most 64 sources and 128 evidence items, web and documents together, follow from at most eight calls. |
| `ResearchProofs.PassGetsTheRest` | src/app/agents/research_nodes.py:778-802 | A pass may use exactly the tool calls that earlier passes left. |
| `ResearchProofs.PassesShareTheBudget` | src/app/agents/research_nodes.py:778-802 | Two passes, each with its own loop and schedule, stay within one budget of tool calls. |
| `Report.ValidateGrounding` | src/app/agents/research_nodes.py:561-641 | Grounding accepts exactly reports of the right shape whose claims are distinct and whose citations resolve. |
| `ReportContents.GroundedMeans` | src/app/agents/research_nodes.py:561-641 | On a sound state, which writer outputs are grounded, in terms of the evidence that was found. |
| `ReportContents.OutputMeans` | src/app/domain/research.py:295-345 | The output contract accepts exactly reports with distinct identities within the limits, evidence on listed sources, citations that hold, and claims exactly if the evidence sufficed. |
| `ReportContents.DeliveredReportRepeats` | src/app/agents/research_graph.py:1091-1184 | The report of a grounded output repeats each part claim by claim and citation by citation, lists all sources and evidence found, and carries the limitations of the input and what the writer added. |
| `Report.GroundedReportIsDelivered` | src/app/agents/research_graph.py:1091-1184 | A grounded report on a sound state is assembled without a missing key and meets the whole output contract. |
| `Report.GroundedDraftIsValid` | src/app/agents/research_graph.py:515-534 | A grounded report has a valid draft exactly if the run is an application with a resume and enough evidence that asked for one. |
| `ResumeGrounding.GroundRequirements` | src/app/agents/resume_generation.py:81-98 | The loop and the validation after it compute the specified grounding, or refuse. |
| `ResumeGrounding.FindsOnce` | src/app/agents/resume_generation.py:91-93 | The two searches decide exactly whether a quote occurs once. |
| `ResumeGrounding.GroundAccepts` | src/app/agents/resume_generation.py:81-98 | Accepted are exactly extractions whose every requirement quotes the job text at its place or only once in it, with a basis exactly where it is inferred. |
| `ResumeGrounding.GroundIsExact` | src/app/agents/resume_generation.py:94-98 | What is returned quotes the text literally at exact positions, keeps order, kind and quote, and is a fixed point. |
| `ResumeDraft.SelectOnce` | src/app/agents/resume_generation.py:388-393 | Deduplication keeps the first bullet of each fact. |
| `ResumeDraft.BuildCoverage` | src/app/agents/resume_generation.py:186-216 | The loop gives each requirement, in order, the facts and items of exactly the bullets that name it. |
| `ResumeDraft.DraftContent` | src/app/agents/resume_generation.py:127-183 | `_content`: nothing is drafted exactly if a locked project has no selected bullet, or no project has one, or the verdict on locked items and constraints is bad. |
| `ResumeDraft.PublicationOutcome` | src/app/db/resume_generation.py:1061-1072 | What `_write` built is refused exactly if a fact it uses or omits is no longer permitted; its coverage, items and omission reasons always pass. |
| `ResumeSelection.PublishedBulletsAreBacked` | src/app/agents/resume_generation.py:101-124 | A published resume has the bullet of a fact exactly if some proposed bullet of it is backed: the fact is among the inputs and not a plan, an experiment states its conditions, the project is reviewed and is the one the fact belongs to, and the requirements it names exist; it stands in the project of the first such bullet and in no other. |
| `ResumeSelection.BulletsStayInOrder` | src/app/agents/resume_generation.py:127-157 | In a drafted project the bullets stand in the order in which they were proposed. |
| `ResumeSelection.CoverageIsBacked` | src/app/agents/resume_generation.py:186-220 | The coverage of a requirement names exactly the kept bullets that support it, in their order. |
| `ResumeSelection.OmissionsAreTheRest` | src/app/agents/resume_generation.py:401-430 | A draft gives a reason for exactly the facts of the inputs that no backed bullet uses. |
| `ResumeSelection.PublicationMeans` | src/app/db/resume_generation.py:1030-1110 | Whoever built the candidate: when it is published, exactly, and what the version then is. |
| `ResumeSelection.RefusalIsFirst` | src/app/db/resume_generation.py:1030-1110 | Which of several defects of a candidate is named. |
| `ResumeDraft.PublishedDraftConfirms` | src/app/db/resume_confirmation.py:95-109 | If a draft is published, confirmation resolves every bullet and returns exactly the selected facts. |
| `ResumeDraft.Session.PublishCandidate` | src/app/db/resume_generation.py:1008-1225 | The publication stores one first version and one revision, or changes nothing. |
| `ResumeDraft.Session.ReserveRepair` | src/app/db/resume_generation.py:985-999 | The repair is reserved at most once, and only before a version exists. |
| `ResumeLineage.ActualFactUses` | src/app/db/resume_confirmation.py:65-152 | The nested loops compute the specified fold or the first error. |
| `ResumeLineage.LastWriterDecides` | src/app/db/resume_confirmation.py:111-149 | An item's field has the facts of its last write, and none if the item was removed or left the content since. |
| `ResumeLineage.EvaluateMeans` | src/app/db/resume_confirmation.py:92-151 | Exactly which histories can be read. |
| `ResumeLineage.FirstIsReadable` | src/app/db/resume_confirmation.py:88-120 | A first version can be read exactly if it has number one and each bullet is that of a fact of its snapshot; which error it gives otherwise. |
| `ResumeLineage.FirstUses` | src/app/db/resume_confirmation.py:92-116 | In a first version every bullet uses its own fact, and the only other uses are the summaries of projects with a bullet. |
| `ResumeLineage.FirstSummaries` | src/app/db/resume_confirmation.py:108-116 | A summary in a first version uses the fact of the first bullet of its project. |
| `ResumeLineage.NextIsReadable` | src/app/db/resume_confirmation.py:117-151 | A further version can be read exactly if its parents can, its feedback is complete and readable and the facts then in use are in its snapshot; which error comes first otherwise. |
| `ResumeLineage.PatchUses` | src/app/db/resume_confirmation.py:130-149 | One patch takes all fields of its item, sets one field of it, or changes nothing, and every other use stays. |
| `ResumeLineage.ContentIsKept` | src/app/db/resume_confirmation.py:117-124 | A version without patches keeps exactly the uses of the items still in its content. |
| `ResumeLineage.FactUsesMeans` | src/app/db/resume_confirmation.py:150-152 | The result is exactly the facts of the live writes of versions 1..n, and within the snapshot of the version itself. |
| `ResumeConfirmation.ConfirmedSession.RequireConfirmable` | src/app/db/resume_confirmation.py:155-209 | The checks in order: the first obstacle, or none. |
| `ResumeConfirmation.ConfirmedSession.Apply` | src/app/db/resume_confirmation.py:241-291 | A receipt belongs to the exact attested artifact; the first confirmation is recorded once and counts as one revision; repeating or refusing changes nothing. |
| `ResumeConfirmation.ConfirmableMeans` | src/app/db/resume_confirmation.py:155-209 | A version can be confirmed exactly if no question is open and the facts of its live writes are some, all confirmed, and none under a pending or confirmed correction. |
| `ResumeConfirmation.ObstacleIsFirst` | src/app/db/resume_confirmation.py:155-209 | Which obstacle is named when there are several. |
| `ResumeConfirmation.DraftIsConfirmable` | src/app/db/resume_confirmation.py:158-209 | A published draft without questions can be confirmed exactly if every fact selected for it is still confirmed and not under correction. |
| `ResumeCommands.ExactlyOnce` | src/app/db/resume_commands.py:90-186 | For any number of racing calls and any schedule a key is applied at most once, all accepted answers carry one receipt and one request, and the loser always finds the winner. |
| `ResumeCommands.AnswersAreEarned` | src/app/db/resume_commands.py:98-145 | In every race a call is applied only if it presented authority and a current session, and answered as denied or stale only if it did not. |
| `ResumeCommands.AnsweredIsApplied` | src/app/db/resume_commands.py:98-186 | In every race, once a call that always presented both is answered, its key has been applied, by itself or by a rival. |
| `ResumeCommands.LosersLeaveNoTrace` | src/app/db/resume_commands.py:101-174 | A call that did not apply its intent leaves no trace in any race: without its transactions the race ends with the same rows and effects, and every other call stands where it stands. |
| `ResumeCommands.ConflictChangesNothing` | src/app/db/resume_commands.py:68-83 | A call refused for its digest owns no row, and the race without it ends with the same database. |
| `ResumeCommands.CommandStore.Accept` | src/app/db/resume_commands.py:90-174 | `accept` under interference: a new receipt means this call applied the intent; every other answer leaves the database as the others made it. |
| `Shards.VerifyPartition` | scripts/ci_validate_routing.py:120-135 | For any shard count it accepts exactly the stride partition with no empty shard; its intersection and union checks never decide. |
| `Shards.ShardsPartition` | scripts/ci_validate_routing.py:128-129 | Every id is in exactly one shard. |
| `Shards.ShardsAreBalanced` | scripts/ci_validate_routing.py:128-129 | The sizes of any two shards differ by at most one. |
| `Shards.CollectionOwnership` | scripts/ci_contract.py:187-199 | A collection is accepted exactly if every id has one target, and each target is counted exactly. |
| `Shards.OwnershipIsComplete` | scripts/ci_contract.py:187-199 | The counts of all targets sum to the number of nodes. |

## Left out

* SQL, sessions, row locks and isolation levels: a transaction is one atomic step.
* Schema, privacy and configuration checks of arguments, and everything that only raises before
  a transaction starts, except the limits of batches and pages.
* Payload texts, latencies, timestamps of audit columns and the texts of events; an event has
  the facts that the stores read back.
* Several runs at once in the interleavings: they share no row that a step of another run
  writes; the batches of the sweepers do span runs.
* Two due requests of one run in the expiry batch: the invariant excludes them, so the batch
  selects runs.
* Rollback of a whole batch when one of its rows raises: under the invariant no row raises.
* How a resume candidate is produced inside `complete`; the publication is modelled by itself.
* The worker's runner, the graph's control flow and the tool registry: they appear as the
  assumptions above.
* Deadlines and polling inside a running tool or model call: a call succeeds or fails.
* LangGraph's own scheduling: any arrival order, schedule and withdrawal of tool calls is allowed.
* Contents of search results, documents, claims and resumes beyond identity and reference; the
  legacy output schema without documents.
* The verdict on locked items and hard constraints of a resume, and the text test that an
  experiment's claim names its environment: opaque inputs.
* The spending check of the generation, and which characters make a blank basis.
* The database's refusal of an identity already used by another run is an input flag.
* The remaining CI scripts, HTTP routes, providers, prompts, tracing and settings.
- Invariant.InvocationFields: leaves the time CHECK of `tool_invocations` out, because no clock is assumed to advance; `Necessity.ConfirmationNeedsTheClock` states exactly when it holds.
- Invariant.RequestOk: leaves the CHECK `consumed_time_order` of `approval_requests` out, because the creation time is written by the database's own clock and no row of the model holds it.
- Liveness.LiveRunsGoOn: states that a way on exists, not that it is taken; `Rounds.RoundsAreUnbounded` says exactly when a job may go round without end.
- ResearchLoops.SerializedPass: takes it as given that the framework puts the replies of a batch into the transcript in the order of its calls.
