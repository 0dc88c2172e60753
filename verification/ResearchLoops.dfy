/** From a tool loop to the research state: the transcript that a loop leaves is one that the research
    pass can take, whichever of the two loops of `src/app/agents/` ran it. */
module ResearchLoops {
  import opened Options
  import opened ResearchPasses
  import opened ResearchProofs
  import ToolTranscript
  import AgentLoop
  import ToolSerializer

  /** What the contracts of the two tools make of the exchanges of a transcript. */
  function Decoded(exchanges: seq<ToolTranscript.Exchange>, decode: ToolTranscript.Exchange -> ToolOutput)
    : (r: seq<ToolOutput>)
    ensures |r| == |exchanges| && forall k :: 0 <= k < |r| ==> r[k] == decode(exchanges[k])
  {
    seq(|exchanges|, k requires 0 <= k < |exchanges| => decode(exchanges[k]))
  }

  function CallsSoFar(f: Facts): nat { |f.searchCalls| + |f.documentCalls| }

  /** A pass that reports as many calls as its transcript has is refused as a whole exactly for calls
      beyond the limit of the run or an unreadable exchange. */
  lemma RefusedTraces(old_: Facts, xs: seq<ToolOutput>, pass: nat)
    requires FactsOk(old_)
    ensures ResearchAgent(old_, xs, |xs|, pass) == Refused(InvalidTrace) <==>
              CallsSoFar(old_) + |xs| > CALL_LIMIT || exists k :: 0 <= k < |xs| && !WithinContract(xs[k])
  {
    hide FactsOk, ResearchAgent, WithinContract, Joined, FoundBy;
    PassOutcome(old_, xs, |xs|, pass);
  }

  // ---- run_manual_tool_loop -------------------------------------------------

  /** The simple loop, then the parser, then the pass: whatever the model and the tools answer, the
      transcript fits, its calls are counted right, and only its contents decide. */
  method ManualPass(opening: seq<ToolTranscript.Message>, maxModelCalls: int,
                    replies: nat -> ToolTranscript.ModelReply, outputs: nat -> Option<ToolTranscript.Text>,
                    decode: ToolTranscript.Exchange -> ToolOutput, old_: Facts, pass: nat)
    returns (loop: ToolTranscript.LoopResult, extracted: Option<Parsed>)
    requires forall n :: ToolTranscript.DistinctCalls(replies(n).calls)
    requires FactsOk(old_)
    ensures loop.Answer? <==> extracted.Some?
    ensures loop.Answer? ==>
              && ToolTranscript.Exchanges(loop.transcript).Some?
              && var xs := Decoded(ToolTranscript.Exchanges(loop.transcript).value, decode);
                 && |xs| == loop.toolCalls && extracted.value == Parse(old_, xs, loop.toolCalls, pass)
                 && (extracted.value == Refused(InvalidTrace) <==>
                       CallsSoFar(old_) + loop.toolCalls > CALL_LIMIT
                       || exists k :: 0 <= k < |xs| && !WithinContract(xs[k]))
  {
    hide FactsOk, WithinContract, Parse;
    loop := ToolTranscript.RunManualToolLoop(opening, maxModelCalls, replies, outputs);
    if !loop.Answer? { return loop, None; }
    var exchanges := ToolTranscript.OrderedToolExchanges(loop.transcript);
    var xs := Decoded(exchanges.value, decode);
    var r := ResearchOutputs(old_, xs, loop.toolCalls, pass);
    RefusedTraces(old_, xs, pass);
    ExtractionDecides(old_, xs, pass);
    return loop, Some(r);
  }

  /** The node refuses a trace exactly where its extraction does. */
  lemma ExtractionDecides(old_: Facts, xs: seq<ToolOutput>, pass: nat)
    ensures ResearchAgent(old_, xs, |xs|, pass) == Refused(InvalidTrace) <==>
              Parse(old_, xs, |xs|, pass) == Refused(InvalidTrace)
  {
    hide Parse;
  }

  // ---- run_create_agent_tool_loop -------------------------------------------

  /** The identities of the calls that the loop accepted, in order. */
  function Offered(l: AgentLoop.Limits, steps: seq<ToolSerializer.Step>): seq<AgentLoop.CallId>
  {
    if steps == [] then [] else
    var n := |steps| - 1;
    var s := ToolSerializer.Run(ToolSerializer.START, l, steps[..n]);
    var t := ToolSerializer.Run(ToolSerializer.START, l, steps);
    Offered(l, steps[..n]) + AcceptedBy(s, t, steps[n])
  }

  /** What was accepted has started or is still to start in the current batch, and every start counts. */
  predicate Accounted(offered: seq<AgentLoop.CallId>, s: ToolSerializer.Loop)
  {
    && |s.begun| <= |s.gate.c.batch|
    && offered == s.all + s.gate.c.batch[|s.begun|..] && |s.all| == s.gate.c.toolCalls
  }

  function AcceptedBy(s: ToolSerializer.Loop, t: ToolSerializer.Loop, step: ToolSerializer.Step): seq<AgentLoop.CallId>
  {
    if step.Respond? && t.gate.c.batch != s.gate.c.batch then t.gate.c.batch else []
  }

  lemma ResponseAccounts(offered: seq<AgentLoop.CallId>, s: ToolSerializer.Loop, l: AgentLoop.Limits,
                         step: ToolSerializer.Step)
    requires ToolSerializer.Sound(s, l) && Accounted(offered, s) && step.Respond?
    ensures var t := ToolSerializer.Next(s, l, step); Accounted(offered + AcceptedBy(s, t, step), t)
  {
    hide AgentLoop.FirstInvalid, AgentLoop.BatchOrdinal, ToolSerializer.Fresh, ToolSerializer.Budgets,
      ToolSerializer.WakeTask, ToolSerializer.EndTask, AgentLoop.NoDuplicates;
    assert offered + [] == offered;
  }

  lemma StartAccounts(offered: seq<AgentLoop.CallId>, s: ToolSerializer.Loop, l: AgentLoop.Limits, i: nat,
                      b: AgentLoop.Boundary)
    requires ToolSerializer.Sound(s, l) && Accounted(offered, s)
    requires ToolSerializer.InPhase(s, i, ToolSerializer.Waiting) && ToolSerializer.LockFree(s)
    ensures Accounted(offered, ToolSerializer.WakeTask(s, i, b))
  {
    ToolSerializer.TurnIsGenuine(s, l, i, b);
    hide ToolSerializer.Sound, ToolSerializer.Enter;
  }

  lemma EndAccounts(offered: seq<AgentLoop.CallId>, s: ToolSerializer.Loop, l: AgentLoop.Limits, i: nat, ok: bool)
    requires ToolSerializer.Sound(s, l) && Accounted(offered, s)
    requires ToolSerializer.InPhase(s, i, ToolSerializer.Executing)
    ensures Accounted(offered, ToolSerializer.EndTask(s, i, ok))
  {
    hide ToolSerializer.Fresh, ToolSerializer.Budgets, AgentLoop.BatchOrdinal;
  }

  lemma StepAccounts(offered: seq<AgentLoop.CallId>, s: ToolSerializer.Loop, l: AgentLoop.Limits,
                     step: ToolSerializer.Step)
    requires ToolSerializer.Sound(s, l) && Accounted(offered, s)
    ensures var t := ToolSerializer.Next(s, l, step); Accounted(offered + AcceptedBy(s, t, step), t)
  {
    hide ToolSerializer.Sound, ToolSerializer.WakeTask, ToolSerializer.EndTask, AgentLoop.Accepted;
    assert offered + [] == offered;
    match step
    case Respond(_, _, _) => ResponseAccounts(offered, s, l, step);
    case Wake(i, b) =>
      if ToolSerializer.InPhase(s, i, ToolSerializer.Waiting) && ToolSerializer.LockFree(s) {
        StartAccounts(offered, s, l, i, b);
      }
    case End(i, ok) =>
      if ToolSerializer.InPhase(s, i, ToolSerializer.Executing) { EndAccounts(offered, s, l, i, ok); }
    case _ =>
  }

  lemma NothingIsAccounted()
    ensures Accounted([], ToolSerializer.START)
  {
  }

  lemma {:induction false} CallsAreAccounted(l: AgentLoop.Limits, steps: seq<ToolSerializer.Step>)
    ensures Accounted(Offered(l, steps), ToolSerializer.Run(ToolSerializer.START, l, steps))
  {
    hide Accounted, ToolSerializer.Next, ToolSerializer.Sound;
    if steps == [] {
      NothingIsAccounted();
    } else {
      var n := |steps| - 1;
      CallsAreAccounted(l, steps[..n]);
      ToolSerializer.RunIsSound(l, steps[..n]);
      StepAccounts(Offered(l, steps[..n]), ToolSerializer.Run(ToolSerializer.START, l, steps[..n]), l, steps[n]);
    }
  }

  function CallIds(calls: seq<ToolTranscript.Call>): (r: seq<AgentLoop.CallId>)
    ensures |r| == |calls| && forall k :: 0 <= k < |r| ==> r[k] == calls[k].id
  {
    seq(|calls|, k requires 0 <= k < |calls| => calls[k].id)
  }

  /** The concurrent loop, for any schedule: when it stops between batches, the transcript of what it
      accepted has as many exchanges as the loop reports calls and results, they fit the limit that
      both passes share, and again only their contents decide. */
  lemma SerializedPass(l: AgentLoop.Limits, steps: seq<ToolSerializer.Step>, ts: seq<ToolTranscript.Message>,
                       decode: ToolTranscript.Exchange -> ToolOutput, old_: Facts, pass: nat)
    requires FactsOk(old_) && l.maxToolCalls <= CALL_LIMIT
    requires ToolTranscript.Exchanges(ts).Some?
    requires
      var budget := PassBudget(l, CallsSoFar(old_));
      && ToolSerializer.Run(ToolSerializer.START, budget, steps).gate.c.batch == []
      && CallIds(ToolTranscript.Proposed(ts)) == Offered(budget, steps)
    ensures
      var c := ToolSerializer.Run(ToolSerializer.START, PassBudget(l, CallsSoFar(old_)), steps).gate.c;
      var xs := Decoded(ToolTranscript.Exchanges(ts).value, decode);
      && |xs| == c.toolCalls == c.toolResults && CallsSoFar(old_) + |xs| <= CALL_LIMIT
      && (ResearchAgent(old_, xs, c.toolCalls, pass) == Refused(InvalidTrace) <==>
            exists k :: 0 <= k < |xs| && !WithinContract(xs[k]))
  {
    hide FactsOk, WithinContract, ResearchAgent, ToolTranscript.Proposed, Offered, ToolSerializer.Run;
    var budget := PassBudget(l, CallsSoFar(old_));
    CallsAreAccounted(budget, steps);
    ToolSerializer.BudgetsHold(budget, steps);
    BetweenBatches(budget, steps);
    FewCallsSoFar(old_);
    RefusedTraces(old_, Decoded(ToolTranscript.Exchanges(ts).value, decode), pass);
  }

  lemma BetweenBatches(l: AgentLoop.Limits, steps: seq<ToolSerializer.Step>)
    ensures
      var c := ToolSerializer.Run(ToolSerializer.START, l, steps).gate.c;
      c.batch == [] ==> c.toolCalls == c.toolResults
  {
    hide ToolSerializer.Run;
    ToolSerializer.RunIsSound(l, steps);
  }

  lemma FewCallsSoFar(f: Facts)
    requires FactsOk(f)
    ensures CallsSoFar(f) <= CALL_LIMIT
  {
  }
}
