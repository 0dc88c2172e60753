/** The transactions of `src/app/db/actions.py`: proposing, superseding and cancelling an action. */
module Actions {
  import opened Options
  import opened Rows

  /** Whose membership a command presents: the run's creator or somebody else.  The flags
      say whether role and membership still match; the creator's membership is a row. */
  datatype Tenant = Creator(roleMatches: bool) | Other(current: bool)

  predicate CurrentTenant(s: Rows, t: Tenant)
  {
    match t
    case Creator(roleMatches) => s.memberActive && roleMatches
    case Other(current) => current
  }

  /** `request` is the fresh identity that the store draws for a new approval request,
      `idElsewhere` says that another run already owns the proposal identity. */
  datatype Propose = Propose(
    tenant: Tenant,
    id: IntentId,
    keyMatches: bool,
    revision: int,
    args: Args,
    resumeMatches: bool,
    expiresAt: Time,
    request: RequestId,
    idElsewhere: bool)

  function FactsOf(c: Propose): Binding { Binding(c.id, c.revision, c.args) }

  function ProposalOf(c: Propose): Proposal
  {
    Proposal(Intent(c.id, c.revision, c.args, Proposed, 0, false, None),
             Some(Request(c.request, Pending, FactsOf(c), 1, c.expiresAt, None)), [], None)
  }

  predicate IntentMatches(i: Intent, c: Propose) { i.id == c.id && i.revision == c.revision && i.args == c.args }

  predicate RequestMatches(r: Request, c: Propose) { r.binding == FactsOf(c) && r.expiresAt == c.expiresAt }

  // ---- Reading the event log ------------------------------------------------

  datatype Topic = AboutProposal | AboutSupersession | AboutCancellation

  predicate Concerns(k: EventKind, id: IntentId, t: Topic)
  {
    match t
    case AboutProposal => k.ActionProposed? && k.intent == id
    case AboutSupersession => k.ApprovalExpiredEvent? && k.intent == id && k.why == Superseded
    case AboutCancellation => k.ActionCancelledEvent? && k.intent == id
  }

  /** The payloads of the events on one topic about one intent. */
  function EventsAbout(events: seq<Event>, id: IntentId, t: Topic): seq<EventKind>
  {
    if events == [] then [] else
    var last := events[|events| - 1].kind;
    EventsAbout(events[..|events| - 1], id, t) + (if Concerns(last, id, t) then [last] else [])
  }

  // ---- _insert_proposal -----------------------------------------------------

  function LockApplicationRun(s: Rows, c: Propose): (fault: Option<Fault>)
  {
    if !c.tenant.Creator? then Some(NotFound)
    else if s.run.mode != Application || s.run.status != RunRunning
         || s.run.graphVersion != CURRENT_GRAPH_VERSION then Some(Conflict)
    else if !c.resumeMatches then Some(Broken(ProposalFactsConflict))
    else None
  }

  /** The read-back after the insert found an existing row. */
  function ReplayProposal(s: Rows, c: Propose, allowCreate: bool): Outcome<RequestId>
  {
    var byId, byRevision := FindIntent(s.proposals, c.id), FindRevision(s.proposals, c.revision);
    if c.idElsewhere || (byId.None? && byRevision.None?) then Raised(Broken(ProposalFactsConflict))
    else if byId.Some? && byRevision.Some? && byId != byRevision then Raised(Broken(ProposalIdentityConflict))
    else
      var i := if byId.Some? then byId.value else byRevision.value;
      var p := s.proposals[i];
      var request := if p.request.None? && allowCreate then ProposalOf(c).request else p.request;
      if !IntentMatches(p.intent, c) then Raised(Broken(ProposalFactsConflict))
      else if request.None? then Raised(Broken(ProposalRequestMissing))
      else if !RequestMatches(request.value, c) then Raised(Broken(ProposalFactsConflict))
      else if EventsAbout(s.events, c.id, AboutProposal) != [ActionProposed(c.id, FactsOf(c))] then
        Raised(Broken(ProposalEventInconsistent))
      else Committed(SetProposal(s, i, p.(request := request)), request.value.id)
  }

  predicate ProposalIsNew(s: Rows, c: Propose)
  {
    !c.idElsewhere && FindIntent(s.proposals, c.id).None? && FindRevision(s.proposals, c.revision).None?
  }

  function InsertProposal(s: Rows, c: Propose, allowCreate: bool): Outcome<RequestId>
  {
    if !allowCreate || !ProposalIsNew(s, c) then ReplayProposal(s, c, allowCreate)
    else if EventsAbout(s.events, c.id, AboutProposal) != [] then Raised(Broken(ProposalEventInconsistent))
    else Committed(Append(s.(proposals := s.proposals + [ProposalOf(c)]), ActionProposed(c.id, FactsOf(c))),
                   c.request)
  }

  function PrepareAction(s: Rows, c: Propose): Outcome<RequestId>
  {
    if !c.keyMatches || c.revision != INITIAL_ACTION_REVISION then Raised(Conflict)
    else if !CurrentTenant(s, c.tenant) then Raised(NotFound)
    else
      var fault := LockApplicationRun(s, c);
      if fault.Some? then Raised(fault.value) else InsertProposal(s, c, true)
  }

  // ---- supersede_action -----------------------------------------------------

  function SupersededPayload(p: Proposal): EventKind
    requires p.request.Some?
  {
    ApprovalExpiredEvent(p.intent.id, p.request.value.id, p.intent.revision, Superseded)
  }

  /** The old proposal cancelled, its open approval expired with an event. */
  function Retire(s: Rows, i: nat): Rows
    requires i < |s.proposals| && s.proposals[i].request.Some?
  {
    var p := s.proposals[i];
    var r := p.request.value;
    var cancelled := p.(intent := p.intent.(status := Cancelled));
    if r.status in {Pending, Approved} then
      Append(SetProposal(s, i, cancelled.(
               request := Some(r.(status := Expired, version := r.version + 1, consumedAt := None)))),
             SupersededPayload(p))
    else SetProposal(s, i, cancelled)
  }

  function SupersedeAction(s: Rows, old_: IntentId, c: Propose): Outcome<RequestId>
  {
    if old_ == c.id then Raised(Conflict)
    else if !CurrentTenant(s, c.tenant) then Raised(NotFound)
    else
      var fault := LockApplicationRun(s, c);
      var found := FindIntent(s.proposals, old_);
      if fault.Some? then Raised(fault.value)
      else if found.None? then Raised(NotFound)
      else
        var p := s.proposals[found.value];
        if p.request.None? then Raised(Broken(ProposalRequestMissing))
        else if !c.keyMatches || c.revision != p.intent.revision + 1 then Raised(Conflict)
        else if p.request.value.status == Consumed then Raised(Conflict)
        else if p.intent.status == Cancelled then
          if p.request.value.status !in {Rejected, Expired} then Raised(Conflict)
          else
            var seen := EventsAbout(s.events, old_, AboutSupersession);
            if |seen| > 1 || (p.request.value.status == Rejected && seen != [])
               || (seen != [] && seen[0] != SupersededPayload(p)) then
              Raised(Broken(SupersededEventInconsistent))
            else InsertProposal(s, c, false)
        else if p.intent.status !in {Proposed, Authorized} then Raised(Conflict)
        else InsertProposal(Retire(s, found.value), c, true)
  }

  // ---- cancel_action --------------------------------------------------------

  function CancelAction(s: Rows, tenant: Tenant, id: IntentId, request: RequestId, rejected: bool): Outcome<bool>
  {
    var found := FindIntent(s.proposals, id);
    if !CurrentTenant(s, tenant) then Raised(NotFound)
    else if found.None? || !HasRequest(s.proposals[found.value], request) then Raised(NotFound)
    else
      var p := s.proposals[found.value];
      var expected := if rejected then Rejected else Expired;
      var payload := ActionCancelledEvent(id, request, if rejected then ApprovalRejected else ApprovalExpired);
      if !ExactBinding(p) then Raised(Broken(BindingConflict))
      else if p.request.value.status != expected then Raised(Conflict)
      else if p.intent.status == Cancelled then
        if EventsAbout(s.events, id, AboutCancellation) != [payload] then
          Raised(Broken(CancelledEventInconsistent))
        else Committed(s, false)
      else if p.intent.status !in {Proposed, Authorized} then Raised(Conflict)
      else Committed(Append(SetProposal(s, found.value, p.(intent := p.intent.(status := Cancelled))), payload), true)
  }
}
