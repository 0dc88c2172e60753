/** The transactions of `src/app/db/approvals.py` and `src/app/db/approval_expiry.py`:
    deciding a request, reading a resume, expiring due requests. */
module Approvals {
  import opened Options
  import opened Rows

  /** `memberCurrent` and `mayReview` report the deciding actor's own membership and role. */
  datatype Decide = Decide(
    actor: Actor,
    memberCurrent: bool,
    mayReview: bool,
    intent: IntentId,
    verdict: Verdict,
    expectedVersion: int,
    now: Time)

  function OwnDecision(ds: seq<Decision>, actor: Actor): (r: Option<Decision>)
    ensures r.Some? ==> r.value in ds && r.value.actor == actor
    ensures r.None? ==> forall d :: d in ds ==> d.actor != actor
  {
    if ds == [] then None
    else if ds[0].actor == actor then Some(ds[0])
    else OwnDecision(ds[1..], actor)
  }

  function TargetOf(v: Verdict): RequestStatus { if v == Approve then Approved else Rejected }

  /** The job row when a decision or an expiry wakes a dormant run. */
  function WakeJob(job: Job, request: RequestId, now: Time): Job
  {
    job.(status := JobQueued, attempt := 0, availableAt := now, lease := None, errorSummary := None,
         resumeRequest := Some(request))
  }

  function DecideApproval(s: Rows, c: Decide): Outcome<Decision>
  {
    var found := FindIntent(s.proposals, c.intent);
    if !c.memberCurrent then Raised(NotFound)
    else if found.None? || s.proposals[found.value].request.None? then Raised(NotFound)
    else
      var p := s.proposals[found.value];
      var r := p.request.value;
      var own := OwnDecision(p.decisions, c.actor);
      if own.Some? then
        if own.value.verdict != c.verdict then Raised(Conflict) else Committed(s, own.value)
      else if !c.mayReview || p.decisions != [] || r.status != Pending || c.now >= r.expiresAt
           || r.version != c.expectedVersion then Raised(Conflict)
      else if s.run.status != RunWaiting || s.job.status != JobDone then Raised(Conflict)
      else if !ExactBinding(p) then Raised(Broken(BindingConflict))
      else
        var d := Decision(c.actor, c.verdict, c.now);
        var decided := p.(
          request := Some(r.(status := TargetOf(c.verdict), version := r.version + 1)),
          decisions := [d]);
        var s1 := SetProposal(s, found.value, decided).(job := WakeJob(s.job, r.id, c.now));
        Committed(Append(s1, ApprovalDecided(c.intent, r.id, c.verdict, r.version + 1)), d)
  }

  /** `resolve_approval_resume`: the status and decision that the graph resumes on. */
  function ResolveResume(s: Rows, memberCurrent: bool, intent: IntentId, request: RequestId)
    : Outcome<(RequestStatus, Option<Verdict>)>
  {
    var found := FindIntent(s.proposals, intent);
    if !memberCurrent then Raised(NotFound)
    else if found.None? || s.proposals[found.value].request.None? then Raised(NotFound)
    else
      var p := s.proposals[found.value];
      var r := p.request.value;
      if !ExactBinding(p) || r.id != request then Raised(Broken(BindingConflict))
      else if |p.decisions| > 1 then Raised(Broken(StatusDecisionDisagree))
      else
        var verdict := if p.decisions == [] then None else Some(p.decisions[0].verdict);
        if !AllowedDecision(r.status, verdict) then Raised(Broken(StatusDecisionDisagree))
        else Committed(s, (r.status, verdict))
  }

  predicate AllowedDecision(status: RequestStatus, verdict: Option<Verdict>)
  {
    match status
    case Pending => verdict == None
    case Approved => verdict == Some(Approve)
    case Rejected => verdict == Some(Reject)
    case Consumed => verdict == Some(Approve)
    case Expired => verdict != Some(Reject)
  }

  /** A request that the sweeper selects. */
  predicate Due(p: Proposal, now: Time)
  {
    p.request.Some? && p.request.value.status in {Pending, Approved} && p.request.value.expiresAt <= now
  }

  datatype Swept = Skipped | ExpiredOnly | ExpiredAndRequeued

  /** One iteration of the sweeper's loop, on the due request at `i`. */
  function SweepRequest(s: Rows, i: nat, now: Time): Outcome<Swept>
    requires i < |s.proposals|
  {
    var p := s.proposals[i];
    if !Due(p, now) || s.run.status != RunWaiting then Committed(s, Skipped)
    else
      var r := p.request.value;
      var expired := p.(request := Some(r.(status := Expired, version := r.version + 1)));
      var s1 := Append(SetProposal(s, i, expired),
                       ApprovalExpiredEvent(p.intent.id, r.id, p.intent.revision, NaturalExpiry));
      match s.job.status
      case JobDone => Committed(s1.(job := WakeJob(s.job, r.id, now).(lease := s.job.lease)), ExpiredAndRequeued)
      case JobQueued =>
        if s.job.resumeRequest !in {None, Some(r.id)} then Raised(Broken(QueuedResumeConflict))
        else Committed(s1.(job := s.job.(resumeRequest := Some(r.id))), ExpiredOnly)
      case JobLeased =>
        if s.job.resumeRequest != Some(r.id) then Raised(Broken(LeasedResumeConflict))
        else Committed(s1, ExpiredOnly)
      case JobDead => Raised(Broken(SweptJobStatusInvalid))
  }
}
