/** The rows that one run owns across the tables of `src/app/db/models.py`.

    Every store method is one transaction that locks the rows of one run, so the rows
    of one run are the state of the protocol.  Runs meet only in the clock, in fresh
    identities and in memberships, all of which reach a step as inputs.  Foreign keys
    and unique constraints give each intent at most one request and one invocation;
    `Proposal` groups those rows. */
module Options {
  datatype Option<+T> = None | Some(value: T)
}

module Rows {
  import opened Options

  type Time = int
  type IntentId = nat
  type RequestId = nat
  type Token = nat
  type Actor = nat
  type Args = nat  // the canonical argument snapshot; its digest is injective

  /** The graph version that `CURRENT_GRAPH_VERSION` names. */
  const CURRENT_GRAPH_VERSION: int := 6
  const INITIAL_ACTION_REVISION: int := 1

  // ---- Categories -----------------------------------------------------------

  /** Error categories and reasons the stores write themselves; `Text` stands for
      every other category a caller may supply. */
  datatype Category =
    | AuthorizationRevoked
    | CancelledConfirmedAbsent
    | AbortedBeforeSend
    | CancelledBeforeSend
    | ExternalOutcomeUnknown
    | ExternalActionFailed
    | UnsupportedGraphVersion
    | JobAttemptsExhausted
    | UnexpectedWaitingApproval
    | ActionRecoveryRequired
    | TerminalActionConvergence
    | LeaseExpired
    | UserRequested
    | Text(name: nat)

  datatype Classification = ConfirmedAbsent | RecoveryExhausted | ConfirmedSuccess | OtherClassification

  datatype Evidence = Evidence(classification: Classification, reason: Option<Category>)

  // ---- Run and job ----------------------------------------------------------

  datatype RunMode = Research | Application | Resume

  datatype RunStatus = RunQueued | RunRunning | RunWaiting | RunCompleted | RunFailed | RunCancelled

  predicate Terminal(s: RunStatus) { s in {RunCompleted, RunFailed, RunCancelled} }

  datatype Run = Run(
    mode: RunMode,
    graphVersion: int,
    status: RunStatus,
    startedAt: Option<Time>,
    finishedAt: Option<Time>,
    cancelRequestedAt: Option<Time>,
    errorCategory: Option<Category>,
    hasResult: bool,
    nextEventSeq: int)

  datatype JobStatus = JobQueued | JobLeased | JobDone | JobDead

  datatype Lease = Lease(worker: Actor, token: Token, expiresAt: Time)

  datatype Job = Job(
    status: JobStatus,
    attempt: int,
    maxAttempts: int,
    availableAt: Time,
    lease: Option<Lease>,
    resumeRequest: Option<RequestId>,
    errorSummary: Option<Category>)

  /** What a claim hands to a worker. */
  datatype ClaimedJob = ClaimedJob(
    token: Token,
    attempt: int,
    maxAttempts: int,
    graphVersion: int,
    resumeRequest: Option<RequestId>)

  // ---- Actions and approvals ------------------------------------------------

  datatype IntentStatus = Proposed | Authorized | Executing | Succeeded | Failed | OutcomeUnknown | Cancelled

  datatype Intent = Intent(
    id: IntentId,
    revision: int,
    args: Args,
    status: IntentStatus,
    recoveryAttempts: int,
    hasResult: bool,
    evidence: Option<Evidence>)

  datatype RequestStatus = Pending | Approved | Rejected | Consumed | Expired

  /** The approval binding digest, as the facts it digests. */
  datatype Binding = Binding(intent: IntentId, revision: int, args: Args)

  datatype Request = Request(
    id: RequestId,
    status: RequestStatus,
    binding: Binding,
    version: int,
    expiresAt: Time,
    consumedAt: Option<Time>)

  datatype Verdict = Approve | Reject

  datatype Decision = Decision(actor: Actor, verdict: Verdict, decidedAt: Time)

  datatype InvocationStatus = InvPrepared | InvExecuting | InvSucceeded | InvFailed | InvUnknown

  /** `resentFor` is a history field: the recovery attempt of the last resend. */
  datatype Invocation = Invocation(
    args: Args,
    status: InvocationStatus,
    attempt: int,
    errorCategory: Option<Category>,
    hasResult: bool,
    startedAt: Option<Time>,
    finishedAt: Option<Time>,
    resentFor: int)

  datatype Proposal = Proposal(
    intent: Intent,
    request: Option<Request>,
    decisions: seq<Decision>,
    invocation: Option<Invocation>)

  // ---- Events ---------------------------------------------------------------

  datatype ExpiryReason = NaturalExpiry | Superseded | ExpiredByUser

  datatype CancelReason = ApprovalRejected | ApprovalExpired | CancelledByUser

  datatype EventKind =
    | RunCreatedEvent
    | RunStatusChanged(previous: RunStatus, status: RunStatus)
    | RunCompletedEvent
    | RunFailedEvent(category: Category)
    | RunCancelledEvent(previous: RunStatus, reason: Category)
    | JobLeaseExpired(attempt: int)
    | JobDeadEvent(attempt: int, category: Category)
    | ActionProposed(intent: IntentId, binding: Binding)
    | ApprovalDecided(intent: IntentId, request: RequestId, verdict: Verdict, version: int)
    | ApprovalExpiredEvent(intent: IntentId, request: RequestId, revision: int, why: ExpiryReason)
    | ActionCancelledEvent(intent: IntentId, request: RequestId, cancelReason: CancelReason)
    | ActionStarted(intent: IntentId)
    | ActionCompleted(intent: IntentId)
    | ActionFailed(intent: IntentId, category: Category)
    | ActionOutcomeUnknown(intent: IntentId)
    | AgentEvent(code: nat)

  datatype Event = Event(seqno: int, kind: EventKind)

  predicate TerminalKind(k: EventKind) { k.RunCompletedEvent? || k.RunFailedEvent? || k.RunCancelledEvent? }

  // ---- The external portal --------------------------------------------------

  /** One irreversible call on the network; its idempotency key is the intent id. */
  datatype Message = Message(key: IntentId, args: Args, attempt: int)

  datatype Submission = Submission(key: IntentId, args: Args)

  // ---- All rows of one run --------------------------------------------------

  /** `issued` and `executing` are history fields: every claim handed out, and the token
      of the last claim that was told to execute. */
  datatype Rows = Rows(
    run: Run,
    job: Job,
    proposals: seq<Proposal>,
    memberActive: bool,
    events: seq<Event>,
    wire: set<Message>,
    portal: seq<Submission>,
    issued: set<ClaimedJob>,
    executing: Option<Token>)

  // ---- Transaction outcomes -------------------------------------------------

  /** The `DomainInvariantError` sites, named after what they report. */
  datatype Guard =
    | BindingMissing
    | BindingConflict
    | RunFactsConflict
    | InvocationMissing
    | InvocationFactsConflict
    | RecoveryFactsConflict
    | RevokedActionMayBeSent
    | PreparedRetryConflict
    | ConflictingInvocation
    | DecisionFactsConflict
    | TerminalInvocationInconsistent
    | ConvergenceRequiresFailure
    | ResumeIdentityChanged
    | InitialRunHasResumeIdentity
    | ClaimedRunStatusInvalid
    | WaitingJobWithoutResumeIdentity
    | ResumeRequestMissing
    | ResumeRequestStatusInvalid
    | ConsumedResumeConflict
    | CompletedRunNotRunning
    | PauseModeInvalid
    | PauseRequestMissing
    | PauseIdentityInvalid
    | PauseRequestNotPending
    | PauseRunNotRunning
    | QueuedResumeConflict
    | LeasedResumeConflict
    | SweptJobStatusInvalid
    | StatusDecisionDisagree
    | ProposalIdentityConflict
    | ProposalFactsConflict
    | ProposalRequestMissing
    | ProposalEventInconsistent
    | SupersededEventInconsistent
    | CancelledEventInconsistent
    | ApprovalStatusNotSupersedable
    | WaitingRunWithoutRequest
    | SeveralActiveRequests
    | CancelJobStatusInvalid

  datatype Fault = NotFound | Conflict | BadValue | Broken(guard: Guard)

  /** A transaction either commits new rows or raises and leaves the rows alone. */
  datatype Outcome<+T> = Committed(rows: Rows, value: T) | Raised(fault: Fault)

  predicate Unbroken<T>(o: Outcome<T>) { o.Raised? ==> !o.fault.Broken? }

  function After<T>(s: Rows, o: Outcome<T>): Rows { if o.Committed? then o.rows else s }

  // ---- Reading rows ---------------------------------------------------------

  /** The first proposal from `from` on whose intent has one of the given statuses: the
      single row that an unordered `select ... limit 1` may return. */
  function FirstWith(ps: seq<Proposal>, statuses: set<IntentStatus>, from: nat := 0): (r: Option<nat>)
    requires from <= |ps|
    ensures r.Some? ==> from <= r.value < |ps| && ps[r.value].intent.status in statuses
    ensures r.None? ==> forall i :: from <= i < |ps| ==> ps[i].intent.status !in statuses
    decreases |ps| - from
  {
    if from == |ps| then None
    else if ps[from].intent.status in statuses then Some(from)
    else FirstWith(ps, statuses, from + 1)
  }

  function FindIntent(ps: seq<Proposal>, id: IntentId, from: nat := 0): (r: Option<nat>)
    requires from <= |ps|
    ensures r.Some? ==> from <= r.value < |ps| && ps[r.value].intent.id == id
    ensures r.None? ==> forall i :: from <= i < |ps| ==> ps[i].intent.id != id
    decreases |ps| - from
  {
    if from == |ps| then None
    else if ps[from].intent.id == id then Some(from)
    else FindIntent(ps, id, from + 1)
  }

  function FindRevision(ps: seq<Proposal>, revision: int, from: nat := 0): (r: Option<nat>)
    requires from <= |ps|
    ensures r.Some? ==> from <= r.value < |ps| && ps[r.value].intent.revision == revision
    ensures r.None? ==> forall i :: from <= i < |ps| ==> ps[i].intent.revision != revision
    decreases |ps| - from
  {
    if from == |ps| then None
    else if ps[from].intent.revision == revision then Some(from)
    else FindRevision(ps, revision, from + 1)
  }

  predicate HasRequest(p: Proposal, id: RequestId) { p.request.Some? && p.request.value.id == id }

  function FindRequest(ps: seq<Proposal>, id: RequestId, from: nat := 0): (r: Option<nat>)
    requires from <= |ps|
    ensures r.Some? ==> from <= r.value < |ps| && HasRequest(ps[r.value], id)
    ensures r.None? ==> forall i :: from <= i < |ps| ==> !HasRequest(ps[i], id)
    decreases |ps| - from
  {
    if from == |ps| then None
    else if HasRequest(ps[from], id) then Some(from)
    else FindRequest(ps, id, from + 1)
  }

  predicate SomeExecuting(s: Rows) { FirstWith(s.proposals, {Executing}).Some? }

  function BindingOf(i: Intent): Binding { Binding(i.id, i.revision, i.args) }

  /** `validate_exact_approval_binding` on an intent and its request. */
  predicate ExactBinding(p: Proposal) { p.request.Some? && p.request.value.binding == BindingOf(p.intent) }

  function Max(a: int, b: int): int { if a < b then b else a }

  /** The claim that a lease with this token on the current job row stands for. */
  function HandleOf(s: Rows, token: Token): ClaimedJob
  {
    ClaimedJob(token, s.job.attempt, s.job.maxAttempts, s.run.graphVersion, s.job.resumeRequest)
  }

  // ---- Writing rows ---------------------------------------------------------

  function Append(s: Rows, kind: EventKind): Rows
  {
    s.(run := s.run.(nextEventSeq := s.run.nextEventSeq + 1),
       events := s.events + [Event(s.run.nextEventSeq, kind)])
  }

  function TerminalTime(run: Run, now: Time): (t: Time)
    ensures t >= now
    ensures run.startedAt.Some? ==> t >= run.startedAt.value
    ensures run.cancelRequestedAt.Some? ==> t >= run.cancelRequestedAt.value
    ensures t == now || run.startedAt == Some(t) || run.cancelRequestedAt == Some(t)
  {
    var t := if run.startedAt.Some? then Max(now, run.startedAt.value) else now;
    if run.cancelRequestedAt.Some? then Max(t, run.cancelRequestedAt.value) else t
  }

  function MarkRunCancelled(s: Rows, reason: Category, now: Time): Rows
  {
    if Terminal(s.run.status) then s else
    Append(s.(run := s.run.(status := RunCancelled, finishedAt := Some(TerminalTime(s.run, now)))),
           RunCancelledEvent(s.run.status, reason))
  }

  function MarkRunFailed(s: Rows, category: Category, now: Time): Rows
  {
    if Terminal(s.run.status) then s else
    var run := s.run.(startedAt := if s.run.startedAt.None? then Some(now) else s.run.startedAt);
    Append(s.(run := run.(status := RunFailed, errorCategory := Some(category),
                          finishedAt := Some(TerminalTime(run, now)))),
           RunFailedEvent(category))
  }

  /** The job row after a lease is given up with the given status and summary. */
  function LeaveJob(job: Job, status: JobStatus, summary: Option<Category>): Job
  {
    job.(status := status, lease := None, errorSummary := summary)
  }

  function SetJob(s: Rows, status: JobStatus, summary: Option<Category>): Rows
  {
    s.(job := LeaveJob(s.job, status, summary))
  }

  function RequeueJob(s: Rows, summary: Category, availableAt: Time): Rows
  {
    s.(job := LeaveJob(s.job, JobQueued, Some(summary)).(availableAt := availableAt))
  }

  function SetProposal(s: Rows, i: nat, p: Proposal): Rows
    requires i < |s.proposals|
  {
    s.(proposals := s.proposals[i := p])
  }
}
