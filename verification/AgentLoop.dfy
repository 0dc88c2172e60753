/** The bounded agent loop of `src/app/agents/create_agent_loop.py`: budget accounting, the
    acceptance of a model response, and the serializer that runs a tool batch in order. */
module AgentLoop {
  import opened Options

  type CallId = nat

  datatype Limits = Limits(maxModelCalls: nat, maxIterations: nat, maxToolCalls: nat, maxToolResults: nat)

  /** What the trusted clock and the cancellation check say at a boundary. */
  datatype Boundary = Clear | CancelRequested | DeadlinePassed

  datatype LimitKind = ModelCalls | Iterations | ToolCalls | ToolResults

  datatype Proposal = DuplicateCallId | ToolNotAllowed | InvalidArguments

  datatype Failure =
    | LimitExceeded(kind: LimitKind)
    | LoopCancelled
    | DeadlineExceeded
    | ProtocolError
    | BadProposal(reason: Proposal)

  /** The counters of `_ModelInvocationTracker`. */
  datatype Counters = Counters(
    calls: nat,
    toolCalls: nat,
    toolResults: nat,
    iterations: nat,
    seen: set<CallId>,
    batch: seq<CallId>,
    batchIteration: nat)

  datatype Check<+T> = Pass(state: Counters, value: T) | Stop(failure: Failure)

  const FRESH: Counters := Counters(0, 0, 0, 0, {}, [], 0)

  // ---- The tracker ----------------------------------------------------------

  function BoundaryFailure(b: Boundary): Failure
    requires b != Clear
  {
    if b == CancelRequested then LoopCancelled else DeadlineExceeded
  }

  function BeginModel(c: Counters, l: Limits, b: Boundary): Check<nat>
  {
    if b != Clear then Stop(BoundaryFailure(b))
    else if c.calls >= l.maxModelCalls then Stop(LimitExceeded(ModelCalls))
    else if c.iterations >= l.maxIterations then Stop(LimitExceeded(Iterations))
    else if c.batch != [] then Stop(ProtocolError)
    else Pass(c.(calls := c.calls + 1, iterations := c.iterations + 1), c.iterations + 1)
  }

  function Preflight(c: Counters, l: Limits, b: Boundary, ids: seq<CallId>): Check<()>
  {
    if b != Clear then Stop(BoundaryFailure(b))
    else if ids == [] then Pass(c, ())
    else if c.batch != [] then Stop(ProtocolError)
    else if c.calls >= l.maxModelCalls then Stop(LimitExceeded(ModelCalls))
    else if c.iterations + 2 > l.maxIterations then Stop(LimitExceeded(Iterations))
    else if c.toolCalls + |ids| > l.maxToolCalls then Stop(LimitExceeded(ToolCalls))
    else if c.toolResults + |ids| > l.maxToolResults then Stop(LimitExceeded(ToolResults))
    else Pass(c.(iterations := c.iterations + 1, batchIteration := c.iterations + 1, batch := ids), ())
  }

  /** The position of the call in the batch, counted from one. */
  function BatchOrdinal(batch: seq<CallId>, id: CallId): (r: Option<nat>)
    ensures r.Some? ==> 1 <= r.value <= |batch| && batch[r.value - 1] == id
    ensures r.None? ==> id !in batch
    ensures forall k :: 0 <= k < |batch| && batch[k] == id ==> r.Some? && r.value <= k + 1
  {
    if batch == [] then None
    else if batch[0] == id then Some(1)
    else var rest := BatchOrdinal(batch[1..], id);
      if rest.Some? then Some(rest.value + 1) else None
  }

  /** Checks no budget: it counts on the batch having been checked as a whole. */
  function BeginTool(c: Counters, b: Boundary, id: CallId): Check<nat>
  {
    if b != Clear then Stop(BoundaryFailure(b))
    else
      var ordinal := BatchOrdinal(c.batch, id);
      if ordinal.None? then Stop(ProtocolError)
      else Pass(c.(toolCalls := c.toolCalls + 1), ordinal.value)
  }

  function CompleteTool(c: Counters, ordinal: nat): Counters
  {
    var d := c.(toolResults := c.toolResults + 1);
    if ordinal == |c.batch| then d.(batch := [], batchIteration := 0) else d
  }

  // ---- Accepting a response -------------------------------------------------

  datatype Validity = Valid | NotAllowed | BadInput

  datatype ToolCall = ToolCall(id: CallId, validity: Validity)

  datatype Response = Response(calls: seq<ToolCall>, hasContent: bool)

  function Ids(calls: seq<ToolCall>): (r: seq<CallId>)
    ensures |r| == |calls| && forall k :: 0 <= k < |r| ==> r[k] == calls[k].id
  {
    if calls == [] then [] else [calls[0].id] + Ids(calls[1..])
  }

  predicate NoDuplicates(ids: seq<CallId>) { forall j, k :: 0 <= j < k < |ids| ==> ids[j] != ids[k] }

  function SetOf(ids: seq<CallId>): set<CallId> { set id | id in ids }

  /** The first call that the runtime does not accept. */
  function FirstInvalid(calls: seq<ToolCall>): (r: Option<Proposal>)
    ensures r.None? <==> forall k :: 0 <= k < |calls| ==> calls[k].validity == Valid
  {
    if calls == [] then None
    else match calls[0].validity
      case NotAllowed => Some(ToolNotAllowed)
      case BadInput => Some(InvalidArguments)
      case Valid => FirstInvalid(calls[1..])
  }

  const COMPLETION: Response := Response([], true)

  /** `_accepted_response`; `feedback` is the research mode that turns refused proposals into
      the end of the pass. */
  function Accepted(c: Counters, l: Limits, b: Boundary, feedback: bool, r: Response): Check<Response>
  {
    var ids := Ids(r.calls);
    var invalid := FirstInvalid(r.calls);
    if feedback && r.calls == [] && !r.hasContent then Pass(c, COMPLETION)
    else if !NoDuplicates(ids) || c.seen * SetOf(ids) != {} then
      if feedback then Pass(c, COMPLETION) else Stop(BadProposal(DuplicateCallId))
    else if invalid.Some? then
      if feedback then Pass(c, COMPLETION) else Stop(BadProposal(invalid.value))
    else
      var p := Preflight(c, l, b, ids);
      match p
      case Stop(LimitExceeded(kind)) =>
        if feedback && kind in {ToolCalls, ToolResults} then Pass(c, COMPLETION) else Stop(p.failure)
      case Stop(failure) => Stop(failure)
      case Pass(d, _) => Pass(d.(seen := d.seen + SetOf(ids)), r)
  }

  // ---- What the checks mean -------------------------------------------------

  /** A model call is allowed exactly while both its budgets last, nothing stops the loop and no batch is
      open; it uses one of each.  What stops it is named before a budget, a budget before an open batch. */
  lemma ModelCallIsAllowed(c: Counters, l: Limits, b: Boundary)
    ensures
      var o := BeginModel(c, l, b);
      && (o.Pass? <==> b == Clear && c.calls < l.maxModelCalls && c.iterations < l.maxIterations && c.batch == [])
      && (o.Pass? ==>
            && o.value == c.iterations + 1
            && o.state == Counters(c.calls + 1, c.toolCalls, c.toolResults, c.iterations + 1, c.seen, [],
                                   c.batchIteration))
      && (o.Stop? ==> Named(o.failure, b, c.calls >= l.maxModelCalls, c.iterations >= l.maxIterations, false, false))
  {
  }

  /** The failure that a check names: cancellation and deadline first, then the budgets that are used up, in
      their order, and a protocol error if none is. */
  predicate Named(f: Failure, b: Boundary, models: bool, iterations: bool, calls: bool, results: bool)
  {
    match b
    case CancelRequested => f == LoopCancelled
    case DeadlinePassed => f == DeadlineExceeded
    case Clear =>
      if models then f == LimitExceeded(ModelCalls)
      else if iterations then f == LimitExceeded(Iterations)
      else if calls then f == LimitExceeded(ToolCalls)
      else if results then f == LimitExceeded(ToolResults)
      else f == ProtocolError
  }

  /** No call repeats an identity, and every call may be made as it stands. */
  predicate WellFormed(c: Counters, r: Response)
  {
    && (forall j, k :: 0 <= j < k < |r.calls| ==> r.calls[j].id != r.calls[k].id)
    && (forall k :: 0 <= k < |r.calls| ==> r.calls[k].id !in c.seen && r.calls[k].validity == Valid)
  }

  /** The whole batch and the model call after it fit into what is left of the budgets. */
  predicate BatchFits(c: Counters, l: Limits, n: nat)
  {
    && c.calls < l.maxModelCalls && c.iterations + 2 <= l.maxIterations
    && c.toolCalls + n <= l.maxToolCalls && c.toolResults + n <= l.maxToolResults
  }

  /** A batch is taken over exactly if it is well formed, fits as a whole and nothing is in its way; then it
      is open with one more iteration used, its identities are taken, and no call is counted yet. */
  lemma BatchIsAccepted(c: Counters, l: Limits, b: Boundary, feedback: bool, r: Response)
    requires r.calls != []
    ensures
      var o := Accepted(c, l, b, feedback, r);
      && (o.Pass? && o.value == r <==> WellFormed(c, r) && b == Clear && c.batch == [] && BatchFits(c, l, |r.calls|))
      && (o.Pass? && o.value == r ==>
            && |o.state.batch| == |r.calls| && (forall k :: 0 <= k < |r.calls| ==> o.state.batch[k] == r.calls[k].id)
            && o.state == Counters(c.calls, c.toolCalls, c.toolResults, c.iterations + 1,
                                   c.seen + (set k | 0 <= k < |r.calls| :: r.calls[k].id), o.state.batch,
                                   c.iterations + 1))
      && (o.Pass? && o.value != r ==>
            && feedback && o.value == Response([], true) && o.state == c
            && (WellFormed(c, r) ==>
                  && b == Clear && c.batch == [] && c.calls < l.maxModelCalls && c.iterations + 2 <= l.maxIterations))
  {
    IdsAreTheCalls(c, r);
    if WellFormed(c, r) { IdsAreASet(r.calls); }
  }

  /** What a response with calls that is not taken over stops with: outside the feedback mode its own defect
      if it has one, and in either mode what is in the way of a well-formed batch, except that in the
      feedback mode a batch beyond the tool budgets ends the pass instead. */
  lemma BatchIsStopped(c: Counters, l: Limits, b: Boundary, feedback: bool, r: Response)
    requires r.calls != []
    ensures
      var o := Accepted(c, l, b, feedback, r);
      var calls, results := c.toolCalls + |r.calls| > l.maxToolCalls, c.toolResults + |r.calls| > l.maxToolResults;
      && (o.Stop? <==>
            if !WellFormed(c, r) then !feedback
            else
              || b != Clear || c.batch != [] || c.calls >= l.maxModelCalls || c.iterations + 2 > l.maxIterations
              || (!feedback && (calls || results)))
      && (o.Stop? && !WellFormed(c, r) ==> o.failure.BadProposal?)
      && (o.Stop? && WellFormed(c, r) ==>
            if b == Clear && c.batch != [] then o.failure == ProtocolError
            else Named(o.failure, b, c.calls >= l.maxModelCalls, c.iterations + 2 > l.maxIterations, calls, results))
  {
    IdsAreTheCalls(c, r);
  }

  /** The defect that is named: a repeated identity before the first call that may not be made. */
  lemma DefectIsNamed(c: Counters, l: Limits, b: Boundary, r: Response, k: nat)
    requires k < |r.calls| && r.calls[k].validity != Valid
    requires forall j :: 0 <= j < k ==> r.calls[j].validity == Valid
    ensures
      var distinct := (forall i, j :: 0 <= i < j < |r.calls| ==> r.calls[i].id != r.calls[j].id)
                   && forall j :: 0 <= j < |r.calls| ==> r.calls[j].id !in c.seen;
      Accepted(c, l, b, false, r) ==
        Stop(BadProposal(if !distinct then DuplicateCallId
                         else if r.calls[k].validity == NotAllowed then ToolNotAllowed else InvalidArguments))
  {
    IdsAreTheCalls(c, r);
    FirstInvalidIs(r.calls, k);
  }

  lemma RepetitionIsNamed(c: Counters, l: Limits, b: Boundary, r: Response)
    requires !WellFormed(c, r) && forall j :: 0 <= j < |r.calls| ==> r.calls[j].validity == Valid
    ensures Accepted(c, l, b, false, r) == Stop(BadProposal(DuplicateCallId))
  {
    IdsAreTheCalls(c, r);
  }

  /** A response without calls is the answer, unless something stops the loop; without content it ends a
      pass in the feedback mode whatever the boundary says.  It uses nothing. */
  lemma AnswerIsAccepted(c: Counters, l: Limits, b: Boundary, feedback: bool, hasContent: bool)
    ensures
      Accepted(c, l, b, feedback, Response([], hasContent)) ==
        if feedback && !hasContent then Pass(c, Response([], true))
        else match b
          case Clear => Pass(c, Response([], hasContent))
          case CancelRequested => Stop(LoopCancelled)
          case DeadlinePassed => Stop(DeadlineExceeded)
  {
    assert SetOf([]) == {} && c.seen + {} == c.seen;
  }

  lemma {:induction false} FirstInvalidIs(calls: seq<ToolCall>, k: nat)
    requires k < |calls| && calls[k].validity != Valid && forall j :: 0 <= j < k ==> calls[j].validity == Valid
    ensures
      FirstInvalid(calls) == Some(if calls[k].validity == NotAllowed then ToolNotAllowed else InvalidArguments)
  {
    if k > 0 {
      assert calls[0].validity == Valid;
      FirstInvalidIs(calls[1..], k - 1);
    }
  }

  lemma IdsAreTheCalls(c: Counters, r: Response)
    ensures NoDuplicates(Ids(r.calls)) <==>
              forall j, k :: 0 <= j < k < |r.calls| ==> r.calls[j].id != r.calls[k].id
    ensures c.seen * SetOf(Ids(r.calls)) == {} <==> forall k :: 0 <= k < |r.calls| ==> r.calls[k].id !in c.seen
  {
    var ids := Ids(r.calls);
    if c.seen * SetOf(ids) == {} {
      forall k | 0 <= k < |r.calls| ensures r.calls[k].id !in c.seen {
        assert ids[k] in SetOf(ids);
        assert ids[k] !in c.seen * SetOf(ids);
      }
    }
  }

  lemma IdsAreASet(calls: seq<ToolCall>)
    ensures SetOf(Ids(calls)) == set k | 0 <= k < |calls| :: calls[k].id
  {
    var ids := Ids(calls);
    assert forall k :: 0 <= k < |ids| ==> ids[k] in ids;
  }

  /** A tool of the open batch starts under its position, one call more is counted; any other is refused. */
  lemma ToolIsStarted(c: Counters, b: Boundary, id: CallId)
    ensures
      var o := BeginTool(c, b, id);
      && (o.Pass? <==> b == Clear && id in c.batch)
      && (o.Pass? ==>
            && 1 <= o.value <= |c.batch| && c.batch[o.value - 1] == id
            && (forall k :: 0 <= k < o.value - 1 ==> c.batch[k] != id)
            && o.state == Counters(c.calls, c.toolCalls + 1, c.toolResults, c.iterations, c.seen, c.batch,
                                   c.batchIteration))
      && (o.Stop? ==> Named(o.failure, b, false, false, false, false))
  {
  }

  /** A tool that ends counts one result, and the last one of the batch closes it. */
  lemma ToolIsCompleted(c: Counters, ordinal: nat)
    ensures
      CompleteTool(c, ordinal) ==
        Counters(c.calls, c.toolCalls, c.toolResults + 1, c.iterations, c.seen,
                 if ordinal == |c.batch| then [] else c.batch, if ordinal == |c.batch| then 0 else c.batchIteration)
  {
  }

  // ---- The tracker as an object ---------------------------------------------

  /** `_ModelInvocationTracker`: the counters updated in place; a check that fails leaves
      every counter as it was. */
  class Tracker {
    const limits: Limits
    var callCount: nat
    var toolCallCount: nat
    var toolResultCount: nat
    var iterationCount: nat
    var seenToolCallIds: set<CallId>
    var currentBatchCallIds: seq<CallId>
    var currentBatchIteration: nat

    function State(): Counters
      reads this
    {
      Counters(callCount, toolCallCount, toolResultCount, iterationCount, seenToolCallIds, currentBatchCallIds,
               currentBatchIteration)
    }

    constructor (limits: Limits)
      ensures this.limits == limits && State() == FRESH
    {
      this.limits := limits;
      callCount, toolCallCount, toolResultCount, iterationCount := 0, 0, 0, 0;
      seenToolCallIds, currentBatchCallIds, currentBatchIteration := {}, [], 0;
    }

    method Begin(boundary: Boundary) returns (r: Check<nat>)
      modifies this
      ensures r == BeginModel(old(State()), limits, boundary)
      ensures State() == if r.Pass? then r.state else old(State())
    {
      if boundary != Clear { return Stop(BoundaryFailure(boundary)); }
      if callCount >= limits.maxModelCalls { return Stop(LimitExceeded(ModelCalls)); }
      if iterationCount >= limits.maxIterations { return Stop(LimitExceeded(Iterations)); }
      if currentBatchCallIds != [] { return Stop(ProtocolError); }
      callCount := callCount + 1;
      iterationCount := iterationCount + 1;
      return Pass(State(), iterationCount);
    }

    method PreflightToolBatch(boundary: Boundary, calls: seq<ToolCall>) returns (r: Check<()>)
      modifies this
      ensures r == Preflight(old(State()), limits, boundary, Ids(calls))
      ensures State() == if r.Pass? then r.state else old(State())
    {
      if boundary != Clear { return Stop(BoundaryFailure(boundary)); }
      var requested := |calls|;
      if requested == 0 { return Pass(State(), ()); }
      if currentBatchCallIds != [] { return Stop(ProtocolError); }
      if callCount >= limits.maxModelCalls { return Stop(LimitExceeded(ModelCalls)); }
      if iterationCount + 2 > limits.maxIterations { return Stop(LimitExceeded(Iterations)); }
      if toolCallCount + requested > limits.maxToolCalls { return Stop(LimitExceeded(ToolCalls)); }
      if toolResultCount + requested > limits.maxToolResults { return Stop(LimitExceeded(ToolResults)); }
      iterationCount := iterationCount + 1;
      currentBatchIteration := iterationCount;
      currentBatchCallIds := Ids(calls);
      return Pass(State(), ());
    }

    /** The acceptance of a response, with the loop that validates its calls one by one. */
    method AcceptResponse(boundary: Boundary, feedback: bool, response: Response) returns (r: Check<Response>)
      modifies this
      ensures r == Accepted(old(State()), limits, boundary, feedback, response)
      ensures State() == if r.Pass? then r.state else old(State())
    {
      if feedback && response.calls == [] && !response.hasContent { return Pass(State(), COMPLETION); }
      var ids := Ids(response.calls);
      if !NoDuplicates(ids) || seenToolCallIds * SetOf(ids) != {} {
        if feedback { return Pass(State(), COMPLETION); }
        return Stop(BadProposal(DuplicateCallId));
      }
      var calls := response.calls;
      for i := 0 to |calls|
        invariant FirstInvalid(response.calls) == FirstInvalid(calls[i..])
        invariant State() == old(State())
      {
        if calls[i].validity != Valid {
          if feedback { return Pass(State(), COMPLETION); }
          return Stop(BadProposal(if calls[i].validity == NotAllowed then ToolNotAllowed else InvalidArguments));
        }
      }
      var p := PreflightToolBatch(boundary, response.calls);
      if p.Stop? {
        if p.failure.LimitExceeded? && feedback && p.failure.kind in {ToolCalls, ToolResults} {
          return Pass(State(), COMPLETION);
        }
        return Stop(p.failure);
      }
      seenToolCallIds := seenToolCallIds + SetOf(ids);
      return Pass(State(), response);
    }

    method StartTool(boundary: Boundary, id: CallId) returns (r: Check<nat>)
      modifies this
      ensures r == BeginTool(old(State()), boundary, id)
      ensures State() == if r.Pass? then r.state else old(State())
    {
      if boundary != Clear { return Stop(BoundaryFailure(boundary)); }
      var ordinal := BatchOrdinal(currentBatchCallIds, id);
      if ordinal.None? { return Stop(ProtocolError); }
      toolCallCount := toolCallCount + 1;
      return Pass(State(), ordinal.value);
    }

    method FinishTool(ordinal: nat)
      modifies this
      ensures State() == CompleteTool(old(State()), ordinal)
    {
      toolResultCount := toolResultCount + 1;
      if ordinal == |currentBatchCallIds| {
        currentBatchCallIds := [];
        currentBatchIteration := 0;
      }
    }
  }
}
