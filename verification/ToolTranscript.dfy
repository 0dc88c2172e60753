/** The transcript of a tool loop: how the simple loop of `src/app/agents/manual_loop.py` writes
    it, and how `_ordered_tool_exchanges` of `src/app/agents/research_nodes.py` reads it back. */
module ToolTranscript {
  import opened Options

  type Id = nat
  type Text = nat

  datatype Call = Call(id: Id, arguments: nat)

  datatype Message =
    | SystemMessage
    | UserMessage
    | Assistant(calls: seq<Call>, hasContent: bool)
    | ToolReply(callId: Option<Id>, content: Option<Text>)

  type Exchange = (Call, Text)

  function IdSet(calls: seq<Call>): set<Id> { set c | c in calls :: c.id }

  predicate DistinctCalls(calls: seq<Call>) { forall j, k :: 0 <= j < k < |calls| ==> calls[j].id != calls[k].id }

  lemma JoinCalls(a: seq<Call>, b: seq<Call>)
    ensures IdSet(a + b) == IdSet(a) + IdSet(b)
    ensures DistinctCalls(a) && DistinctCalls(b) && IdSet(a) * IdSet(b) == {} ==> DistinctCalls(a + b)
  {
    var both := a + b;
    if DistinctCalls(a) && DistinctCalls(b) && IdSet(a) * IdSet(b) == {} {
      forall j, k | 0 <= j < |a| <= k < |both| ensures both[j].id != both[k].id {
        assert both[j] in a && both[k] in b;
        assert both[j].id in IdSet(a) && both[k].id in IdSet(b);
        assert both[j].id !in IdSet(a) * IdSet(b);
      }
    }
  }

  // ---- What a transcript says -----------------------------------------------

  /** All calls proposed, in order. */
  function Proposed(ts: seq<Message>): seq<Call>
  {
    if ts == [] then [] else
    var last := ts[|ts| - 1];
    Proposed(ts[..|ts| - 1]) + (if last.Assistant? then last.calls else [])
  }

  /** All tool replies, in order. */
  function Replies(ts: seq<Message>): seq<(Id, Text)>
    requires RepliesAreComplete(ts)
  {
    if ts == [] then [] else
    var last := ts[|ts| - 1];
    Replies(ts[..|ts| - 1]) + (if last.ToolReply? then [(last.callId.value, last.content.value)] else [])
  }

  predicate RepliesAreComplete(ts: seq<Message>)
  {
    forall i :: 0 <= i < |ts| && ts[i].ToolReply? ==> ts[i].callId.Some? && ts[i].content.Some?
  }

  /** The replies answer exactly the proposed calls, each once and in order. */
  predicate Answers(calls: seq<Call>, replies: seq<(Id, Text)>)
  {
    && DistinctCalls(calls) && |replies| == |calls|
    && forall k :: 0 <= k < |calls| ==> replies[k].0 == calls[k].id
  }

  function Pair(calls: seq<Call>, replies: seq<(Id, Text)>): (r: seq<Exchange>)
    requires |calls| == |replies|
    ensures |r| == |calls| && forall k :: 0 <= k < |r| ==> r[k] == (calls[k], replies[k].1)
  {
    seq(|calls|, k requires 0 <= k < |calls| => (calls[k], replies[k].1))
  }

  function Exchanges(ts: seq<Message>): Option<seq<Exchange>>
  {
    if RepliesAreComplete(ts) && Answers(Proposed(ts), Replies(ts)) then Some(Pair(Proposed(ts), Replies(ts)))
    else None
  }

  // ---- _ordered_tool_exchanges ----------------------------------------------

  method OrderedToolExchanges(ts: seq<Message>) returns (r: Option<seq<Exchange>>)
    ensures r == Exchanges(ts)
  {
    var ordered: seq<Call> := [];
    var results: seq<(Id, Text)> := [];
    var seen: set<Id> := {};
    for i := 0 to |ts|
      invariant RepliesAreComplete(ts[..i])
      invariant ordered == Proposed(ts[..i]) && results == Replies(ts[..i])
      invariant DistinctCalls(ordered) && seen == IdSet(ordered)
    {
      var message := ts[i];
      assert ts[..i + 1][..i] == ts[..i] && ts[..i + 1][i] == message;
      if message.Assistant? {
        var unseen, grown := CollectCalls(ts, i, ordered, seen);
        if !unseen { return None; }
        ordered := ordered + message.calls;
        seen := grown;
      } else if message.ToolReply? {
        if message.callId.None? || message.content.None? {
          assert ts[i].ToolReply?;
          return None;
        }
        results := results + [(message.callId.value, message.content.value)];
      }
    }
    assert ts[..|ts|] == ts;
    r := MatchReplies(ordered, results);
  }

  /** The comparison of proposed calls and replies, and the pairs if they agree. */
  method MatchReplies(ordered: seq<Call>, results: seq<(Id, Text)>) returns (r: Option<seq<Exchange>>)
    requires DistinctCalls(ordered)
    ensures r == if Answers(ordered, results) then Some(Pair(ordered, results)) else None
  {
    if |ordered| != |results| { return None; }
    for k := 0 to |ordered|
      invariant forall j :: 0 <= j < k ==> results[j].0 == ordered[j].id
    {
      if ordered[k].id != results[k].0 { return None; }
    }
    var exchanges: seq<Exchange> := [];
    for j := 0 to |ordered|
      invariant |exchanges| == j && forall m :: 0 <= m < j ==> exchanges[m] == (ordered[m], results[m].1)
    {
      exchanges := exchanges + [(ordered[j], results[j].1)];
    }
    assert exchanges == Pair(ordered, results);
    return Some(exchanges);
  }

  /** The loop over the calls of one assistant message: a repeated identity is refused. */
  method CollectCalls(ts: seq<Message>, i: nat, ordered: seq<Call>, seen: set<Id>)
    returns (unseen: bool, grown: set<Id>)
    requires i < |ts| && ts[i].Assistant? && ordered == Proposed(ts[..i])
    requires DistinctCalls(ordered) && seen == IdSet(ordered)
    ensures unseen ==> DistinctCalls(ordered + ts[i].calls) && grown == IdSet(ordered + ts[i].calls)
    ensures !unseen ==> Exchanges(ts).None?
  {
    var calls := ts[i].calls;
    grown := seen;
    assert ordered + calls[..0] == ordered;
    for k := 0 to |calls|
      invariant DistinctCalls(ordered + calls[..k]) && grown == IdSet(ordered + calls[..k])
    {
      if calls[k].id in grown {
        RepeatedIsRefused(ts, i, k);
        return false, grown;
      }
      JoinCalls(ordered + calls[..k], [calls[k]]);
      assert ordered + calls[..k] + [calls[k]] == ordered + calls[..k + 1];
      assert IdSet([calls[k]]) == {calls[k].id};
      grown := grown + {calls[k].id};
    }
    assert calls[..|calls|] == calls;
    return true, grown;
  }

  lemma {:induction false} ProposedGrows(ts: seq<Message>, n: nat, m: nat)
    requires n <= m <= |ts|
    ensures Proposed(ts[..n]) <= Proposed(ts[..m])
    decreases m - n
  {
    if n < m {
      ProposedGrows(ts, n, m - 1);
      assert ts[..m][..m - 1] == ts[..m - 1];
    }
  }

  lemma RepeatedIsRefused(ts: seq<Message>, i: nat, k: nat)
    requires i < |ts| && ts[i].Assistant? && k < |ts[i].calls|
    requires ts[i].calls[k].id in IdSet(Proposed(ts[..i]) + ts[i].calls[..k])
    ensures Exchanges(ts).None?
  {
    var before := Proposed(ts[..i]) + ts[i].calls[..k];
    assert ts[..i + 1][..i] == ts[..i];
    ProposedGrows(ts, i + 1, |ts|);
    assert ts[..|ts|] == ts;
    var all := Proposed(ts);
    assert Proposed(ts[..i + 1]) == Proposed(ts[..i]) + ts[i].calls;
    var c :| c in before && c.id == ts[i].calls[k].id;
    var j :| 0 <= j < |before| && before[j] == c;
    assert all[j] == before[j] && all[|before|] == ts[i].calls[k];
  }

  // ---- run_manual_tool_loop -------------------------------------------------

  datatype ModelReply = ModelReply(calls: seq<Call>, hasContent: bool)

  datatype LoopResult =
    | Answer(transcript: seq<Message>, modelCalls: nat, toolCalls: nat)
    | BadInput
    | LimitReached(modelCalls: nat, toolCalls: nat, pending: nat)
    | BadProtocol

  predicate Opening(ts: seq<Message>) { forall i :: 0 <= i < |ts| ==> ts[i].SystemMessage? || ts[i].UserMessage? }

  /** The transcript so far: the opening messages, then turns whose calls are all answered. */
  ghost predicate Balanced(opening: seq<Message>, ts: seq<Message>, outputs: nat -> Option<Text>, n: nat)
  {
    && opening <= ts && RepliesAreComplete(ts)
    && |Proposed(ts)| == n && Answers(Proposed(ts), Replies(ts))
    && forall k :: 0 <= k < n ==> outputs(k) == Some(Replies(ts)[k].1)
  }

  lemma {:induction false} OpeningIsSilent(ts: seq<Message>)
    requires Opening(ts)
    ensures RepliesAreComplete(ts) && Proposed(ts) == [] && Replies(ts) == []
  {
    if ts != [] { OpeningIsSilent(ts[..|ts| - 1]); }
  }

  lemma TakeLast(ts: seq<Message>, m: Message)
    ensures (ts + [m])[..|ts|] == ts && Proposed(ts + [m]) == Proposed(ts) + (if m.Assistant? then m.calls else [])
    ensures RepliesAreComplete(ts) && (m.ToolReply? ==> m.callId.Some? && m.content.Some?) ==>
              RepliesAreComplete(ts + [m])
              && Replies(ts + [m]) == Replies(ts) + (if m.ToolReply? then [(m.callId.value, m.content.value)] else [])
  {
    assert (ts + [m])[..|ts|] == ts;
  }

  lemma AnswerIsAccepted(opening: seq<Message>, ts: seq<Message>, outputs: nat -> Option<Text>, n: nat,
                         hasContent: bool)
    requires Balanced(opening, ts, outputs, n)
    ensures
      var all := ts + [Assistant([], hasContent)];
      && opening <= all && Exchanges(all).Some? && |Exchanges(all).value| == n
      && forall k :: 0 <= k < n ==> outputs(k) == Some(Exchanges(all).value[k].1)
  {
    TakeLast(ts, Assistant([], hasContent));
    assert Proposed(ts) + [] == Proposed(ts) && Replies(ts) + [] == Replies(ts);
  }

  /** How many tools have been called before turn `n`, and under which identities. */
  function CallsBefore(replies: nat -> ModelReply, n: nat): nat
  {
    if n == 0 then 0 else CallsBefore(replies, n - 1) + |replies(n - 1).calls|
  }

  function IdsBefore(replies: nat -> ModelReply, n: nat): set<Id>
  {
    if n == 0 then {} else IdsBefore(replies, n - 1) + IdSet(replies(n - 1).calls)
  }

  /** Every call of turn `n` gets an output. */
  predicate AllAnswered(replies: nat -> ModelReply, outputs: nat -> Option<Text>, n: nat)
  {
    var first := CallsBefore(replies, n);
    forall k :: first <= k < first + |replies(n).calls| ==> outputs(k).Some?
  }

  /** After turn `n` there is another one. */
  predicate GoesOn(replies: nat -> ModelReply, outputs: nat -> Option<Text>, maxModelCalls: int, n: nat)
  {
    && replies(n).calls != [] && IdsBefore(replies, n) * IdSet(replies(n).calls) == {}
    && n + 1 < maxModelCalls && AllAnswered(replies, outputs, n)
  }

  /** What a last turn `n` makes of the loop: an answer without calls, a repeated identity, pending calls
      beyond the limit, or a call without output. */
  predicate EndsWith(replies: nat -> ModelReply, maxModelCalls: int, n: nat, r: LoopResult)
  {
    var calls := replies(n).calls;
    if calls == [] && replies(n).hasContent then
      r.Answer? && r.modelCalls == n + 1 && r.toolCalls == CallsBefore(replies, n)
    else if calls != [] && IdsBefore(replies, n) * IdSet(calls) == {} && n + 1 == maxModelCalls then
      r == LimitReached(maxModelCalls, CallsBefore(replies, n), |calls|)
    else r == BadProtocol
  }

  /** The replies of the tools to the first `k` calls of turn `n`. */
  function ToolReplies(replies: nat -> ModelReply, outputs: nat -> Option<Text>, n: nat, k: nat): seq<Message>
    requires k <= |replies(n).calls|
  {
    seq(k, j requires 0 <= j < k =>
      ToolReply(Some(replies(n).calls[j].id), outputs(CallsBefore(replies, n) + j)))
  }

  /** The transcript before turn `n`: each turn's message and then the outputs of its calls. */
  function TranscriptBefore(opening: seq<Message>, replies: nat -> ModelReply, outputs: nat -> Option<Text>, n: nat)
    : seq<Message>
  {
    if n == 0 then opening else
    var last := replies(n - 1);
    TranscriptBefore(opening, replies, outputs, n - 1) + [Assistant(last.calls, last.hasContent)]
    + ToolReplies(replies, outputs, n - 1, |last.calls|)
  }

  lemma RepliesGrow(replies: nat -> ModelReply, outputs: nat -> Option<Text>, n: nat, k: nat)
    requires k < |replies(n).calls|
    ensures
      ToolReplies(replies, outputs, n, k + 1) ==
        ToolReplies(replies, outputs, n, k)
        + [ToolReply(Some(replies(n).calls[k].id), outputs(CallsBefore(replies, n) + k))]
  {
  }

  /** `ts`, the message of turn `n` and the replies to its first `k` calls. */
  function DuringTurn(ts: seq<Message>, replies: nat -> ModelReply, outputs: nat -> Option<Text>, n: nat, k: nat)
    : seq<Message>
    requires k <= |replies(n).calls|
  {
    ts + [Assistant(replies(n).calls, replies(n).hasContent)] + ToolReplies(replies, outputs, n, k)
  }

  lemma DuringTurnGrows(ts: seq<Message>, replies: nat -> ModelReply, outputs: nat -> Option<Text>, n: nat, k: nat)
    requires k < |replies(n).calls|
    ensures
      DuringTurn(ts, replies, outputs, n, k + 1) ==
        DuringTurn(ts, replies, outputs, n, k)
        + [ToolReply(Some(replies(n).calls[k].id), outputs(CallsBefore(replies, n) + k))]
    ensures
      DuringTurn(ts, replies, outputs, n, 0) == ts + [Assistant(replies(n).calls, replies(n).hasContent)]
  {
    hide ToolReplies;
    RepliesGrow(replies, outputs, n, k);
    assert ToolReplies(replies, outputs, n, 0) == [] by { NoReplies(replies, outputs, n); }
  }

  lemma NoReplies(replies: nat -> ModelReply, outputs: nat -> Option<Text>, n: nat)
    ensures ToolReplies(replies, outputs, n, 0) == []
  {
  }

  /** During a turn whose calls are answered, the calls so far are answered in order. */
  lemma {:induction false} TurnIsBalanced(opening: seq<Message>, ts: seq<Message>, replies: nat -> ModelReply,
                                          outputs: nat -> Option<Text>, n: nat, k: nat)
    requires Balanced(opening, ts, outputs, CallsBefore(replies, n)) && k <= |replies(n).calls|
    requires AllAnswered(replies, outputs, n)
    ensures
      var all, first := DuringTurn(ts, replies, outputs, n, k), CallsBefore(replies, n);
      && opening <= all && RepliesAreComplete(all) && Proposed(all) == Proposed(ts) + replies(n).calls
      && |Replies(all)| == first + k
      && forall j :: 0 <= j < first + k ==>
           Replies(all)[j].0 == Proposed(all)[j].id && outputs(j) == Some(Replies(all)[j].1)
  {
    hide DuringTurn;
    if k == 0 {
      TakeLast(ts, Assistant(replies(n).calls, replies(n).hasContent));
      assert DuringTurn(ts, replies, outputs, n, 0) == ts + [Assistant(replies(n).calls, replies(n).hasContent)] by {
        FirstOfTurn(ts, replies, outputs, n);
      }
      assert Replies(ts) + [] == Replies(ts);
    } else {
      TurnIsBalanced(opening, ts, replies, outputs, n, k - 1);
      DuringTurnGrows(ts, replies, outputs, n, k - 1);
      var before, first := DuringTurn(ts, replies, outputs, n, k - 1), CallsBefore(replies, n);
      var message := ToolReply(Some(replies(n).calls[k - 1].id), outputs(first + k - 1));
      TakeLast(before, message);
      assert Proposed(before) + [] == Proposed(before) && Proposed(before)[first + k - 1] == replies(n).calls[k - 1];
    }
  }

  lemma FirstOfTurn(ts: seq<Message>, replies: nat -> ModelReply, outputs: nat -> Option<Text>, n: nat)
    ensures DuringTurn(ts, replies, outputs, n, 0) == ts + [Assistant(replies(n).calls, replies(n).hasContent)]
  {
    hide ToolReplies;
    NoReplies(replies, outputs, n);
  }

  lemma OpeningIsBalanced(opening: seq<Message>, replies: nat -> ModelReply, outputs: nat -> Option<Text>)
    requires Opening(opening)
    ensures
      var ts := TranscriptBefore(opening, replies, outputs, 0);
      Balanced(opening, ts, outputs, CallsBefore(replies, 0)) && IdSet(Proposed(ts)) == IdsBefore(replies, 0)
  {
    OpeningIsSilent(opening);
  }

  /** As long as every turn goes on, the transcript is balanced. */
  lemma {:induction false} TurnsAreBalanced(opening: seq<Message>, replies: nat -> ModelReply,
                                            outputs: nat -> Option<Text>, maxModelCalls: int, n: nat)
    requires Opening(opening) && forall m :: DistinctCalls(replies(m).calls)
    requires forall m: nat :: m < n ==> GoesOn(replies, outputs, maxModelCalls, m)
    ensures
      var ts := TranscriptBefore(opening, replies, outputs, n);
      Balanced(opening, ts, outputs, CallsBefore(replies, n)) && IdSet(Proposed(ts)) == IdsBefore(replies, n)
  {
    hide *;
    if n == 0 {
      OpeningIsBalanced(opening, replies, outputs);
    } else {
      TurnsAreBalanced(opening, replies, outputs, maxModelCalls, n - 1);
      assert GoesOn(replies, outputs, maxModelCalls, n - 1);
      TurnIsAnswered(replies, outputs, maxModelCalls, n - 1);
      TranscriptTakesTurn(opening, replies, outputs, n - 1);
      assert DistinctCalls(replies(n - 1).calls);
      BalanceGrows(opening, TranscriptBefore(opening, replies, outputs, n - 1), replies, outputs, n - 1);
    }
  }

  lemma TurnIsAnswered(replies: nat -> ModelReply, outputs: nat -> Option<Text>, maxModelCalls: int, n: nat)
    requires GoesOn(replies, outputs, maxModelCalls, n)
    ensures AllAnswered(replies, outputs, n) && IdsBefore(replies, n) * IdSet(replies(n).calls) == {}
  {
  }

  lemma BalanceGrows(opening: seq<Message>, ts: seq<Message>, replies: nat -> ModelReply,
                     outputs: nat -> Option<Text>, n: nat)
    requires Balanced(opening, ts, outputs, CallsBefore(replies, n)) && IdSet(Proposed(ts)) == IdsBefore(replies, n)
    requires AllAnswered(replies, outputs, n) && IdsBefore(replies, n) * IdSet(replies(n).calls) == {}
    requires DistinctCalls(replies(n).calls)
    ensures
      var all := DuringTurn(ts, replies, outputs, n, |replies(n).calls|);
      && Balanced(opening, all, outputs, CallsBefore(replies, n + 1))
      && IdSet(Proposed(all)) == IdsBefore(replies, n + 1)
  {
    hide DuringTurn, IdSet, AllAnswered;
    TurnIsBalanced(opening, ts, replies, outputs, n, |replies(n).calls|);
    JoinCalls(Proposed(ts), replies(n).calls);
  }

  lemma TranscriptTakesTurn(opening: seq<Message>, replies: nat -> ModelReply, outputs: nat -> Option<Text>, n: nat)
    ensures
      TranscriptBefore(opening, replies, outputs, n + 1) ==
        DuringTurn(TranscriptBefore(opening, replies, outputs, n), replies, outputs, n, |replies(n).calls|)
    ensures CallsBefore(replies, n + 1) == CallsBefore(replies, n) + |replies(n).calls|
    ensures IdsBefore(replies, n + 1) == IdsBefore(replies, n) + IdSet(replies(n).calls)
  {
    hide ToolReplies, IdSet;
  }

  /** Turn `n` is the first one that does not go on, and ends the loop like this. */
  ghost predicate EndsAt(replies: nat -> ModelReply, outputs: nat -> Option<Text>, maxModelCalls: int, n: nat,
                         r: LoopResult)
  {
    && n < maxModelCalls && !GoesOn(replies, outputs, maxModelCalls, n)
    && (forall m: nat :: m < n ==> GoesOn(replies, outputs, maxModelCalls, m))
    && EndsWith(replies, maxModelCalls, n, r)
  }

  /** `replies` and `outputs` are what the model and the tools answer, one call after another;
      the contract of a model reply makes the identities of its own calls distinct.  The loop ends
      with the first turn that does not go on, and that turn decides how.  Whatever they
      answer, a transcript that the loop returns is accepted by the parser, which finds
      in it exactly the calls the loop executed, with their outputs, in order. */
  method RunManualToolLoop(opening: seq<Message>, maxModelCalls: int, replies: nat -> ModelReply,
                           outputs: nat -> Option<Text>)
    returns (r: LoopResult)
    requires forall n :: DistinctCalls(replies(n).calls)
    ensures r.BadInput? <==> opening == [] || !Opening(opening) || maxModelCalls <= 0
    ensures !r.BadInput? ==> exists n: nat :: EndsAt(replies, outputs, maxModelCalls, n, r)
    ensures r.Answer? ==>
              && 1 <= r.modelCalls <= maxModelCalls
              && r.transcript == TranscriptBefore(opening, replies, outputs, r.modelCalls - 1) + [Assistant([], true)]
              && opening <= r.transcript
              && Exchanges(r.transcript).Some?
              && |Exchanges(r.transcript).value| == r.toolCalls
              && forall k :: 0 <= k < r.toolCalls ==> outputs(k) == Some(Exchanges(r.transcript).value[k].1)
  {
    hide *;
    if opening == [] || !Opening(opening) || maxModelCalls <= 0 { return BadInput; }
    var transcript := opening;
    var seen: set<Id> := {};
    var modelCalls, toolCalls := 0, 0;
    NothingBefore(opening, replies, outputs);
    while true
      invariant 0 <= modelCalls < maxModelCalls && transcript == TranscriptBefore(opening, replies, outputs, modelCalls)
      invariant toolCalls == CallsBefore(replies, modelCalls) && seen == IdsBefore(replies, modelCalls)
      invariant forall m: nat :: m < modelCalls ==> GoesOn(replies, outputs, maxModelCalls, m)
      decreases maxModelCalls - modelCalls
    {
      var turn, reply := modelCalls, replies(modelCalls);
      modelCalls := modelCalls + 1;
      TurnMayEnd(replies, outputs, maxModelCalls, turn, transcript + [Assistant([], true)]);
      if reply.calls == [] {
        if !reply.hasContent { return BadProtocol; }
        TurnsAreBalanced(opening, replies, outputs, maxModelCalls, turn);
        AnswerIsAccepted(opening, transcript, outputs, toolCalls, true);
        return Answer(transcript + [Assistant([], true)], modelCalls, toolCalls);
      }
      if seen * IdSet(reply.calls) != {} { return BadProtocol; }
      seen := seen + IdSet(reply.calls);
      if modelCalls == maxModelCalls { return LimitReached(modelCalls, toolCalls, |reply.calls|); }
      var ok;
      ok, transcript, toolCalls := ExecuteCalls(transcript, replies, turn, outputs, toolCalls);
      if !ok { return BadProtocol; }
      TranscriptTakesTurn(opening, replies, outputs, turn);
    }
  }

  /** How the loop ends with turn `n`, and when it does not. */
  lemma TurnMayEnd(replies: nat -> ModelReply, outputs: nat -> Option<Text>, maxModelCalls: int, n: nat,
                   ts: seq<Message>)
    requires n < maxModelCalls && forall m: nat :: m < n ==> GoesOn(replies, outputs, maxModelCalls, m)
    ensures
      var calls := replies(n).calls;
      var repeats := IdsBefore(replies, n) * IdSet(calls) != {};
      if calls == [] then
        EndsAt(replies, outputs, maxModelCalls, n,
               if replies(n).hasContent then Answer(ts, n + 1, CallsBefore(replies, n)) else BadProtocol)
      else if repeats then EndsAt(replies, outputs, maxModelCalls, n, BadProtocol)
      else if n + 1 == maxModelCalls then
        EndsAt(replies, outputs, maxModelCalls, n, LimitReached(n + 1, CallsBefore(replies, n), |calls|))
      else if !AllAnswered(replies, outputs, n) then EndsAt(replies, outputs, maxModelCalls, n, BadProtocol)
      else GoesOn(replies, outputs, maxModelCalls, n)
  {
    hide AllAnswered, IdsBefore, CallsBefore, IdSet;
  }

  lemma NothingBefore(opening: seq<Message>, replies: nat -> ModelReply, outputs: nat -> Option<Text>)
    ensures TranscriptBefore(opening, replies, outputs, 0) == opening
    ensures CallsBefore(replies, 0) == 0 && IdsBefore(replies, 0) == {}
  {
  }

  /** The loop over the pending calls of turn `n`; it fails at the first call without output. */
  method ExecuteCalls(before: seq<Message>, replies: nat -> ModelReply, n: nat, outputs: nat -> Option<Text>,
                      count: nat)
    returns (ok: bool, transcript: seq<Message>, toolCalls: nat)
    requires count == CallsBefore(replies, n)
    ensures ok <==> AllAnswered(replies, outputs, n)
    ensures ok ==>
              && toolCalls == count + |replies(n).calls|
              && transcript == DuringTurn(before, replies, outputs, n, |replies(n).calls|)
  {
    var reply := replies(n);
    hide DuringTurn;
    FirstOfTurn(before, replies, outputs, n);
    transcript, toolCalls := before + [Assistant(reply.calls, reply.hasContent)], count;
    for k := 0 to |reply.calls|
      invariant toolCalls == count + k && transcript == DuringTurn(before, replies, outputs, n, k)
      invariant forall j :: count <= j < count + k ==> outputs(j).Some?
    {
      var output := outputs(toolCalls);
      if output.None? { return false, transcript, toolCalls; }
      DuringTurnGrows(before, replies, outputs, n, k);
      transcript := transcript + [ToolReply(Some(reply.calls[k].id), output)];
      toolCalls := toolCalls + 1;
    }
    return true, transcript, toolCalls;
  }
}
