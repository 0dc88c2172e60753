/** Reading the event log of a run: the pages of `src/app/db/events.py` and the stream of
    `src/app/api/routes/events.py`, against appends that may happen between any two reads. */
module EventReader {
  import opened Options
  import opened Rows
  import opened Invariant
  import opened Protocol
  import opened Evolution

  const MAX_PAGE: int := 500

  datatype Batch = Batch(events: seq<Event>, highWatermark: int, runIsTerminal: bool)

  datatype Page = Read(batch: Batch) | InvalidCursor | InvalidLimit | NotIncreasing

  /** What a read sees of the run. */
  datatype View = View(events: seq<Event>, terminal: bool)

  function HighWatermark(events: seq<Event>): (h: int)
    ensures h >= 0 && forall i :: 0 <= i < |events| ==> events[i].seqno <= h
    ensures h == 0 || exists i :: 0 <= i < |events| && events[i].seqno == h
  {
    if events == [] then 0 else
    var n := |events| - 1;
    var h := HighWatermark(events[..n]);
    assert h == 0 || exists i :: 0 <= i < |events| && events[i].seqno == h by {
      if h != 0 {
        var i :| 0 <= i < n && events[..n][i].seqno == h;
        assert events[i].seqno == h;
      }
    }
    assert forall i :: 0 <= i < n ==> events[..n][i] == events[i];
    Max(h, events[n].seqno)
  }

  /** The rows of the query: later than the cursor, ascending, at most `limit`. */
  function Selected(events: seq<Event>, after: int, limit: nat): seq<Event>
  {
    if events == [] || limit == 0 then []
    else if events[0].seqno > after then [events[0]] + Selected(events[1..], after, limit - 1)
    else Selected(events[1..], after, limit)
  }

  /** `read_after`: copy the selected rows and check that they ascend. */
  method ReadAfter(view: View, after: int, limit: int) returns (r: Page)
    ensures after < 0 ==> r == InvalidCursor
    ensures after >= 0 && !(1 <= limit <= 500) ==> r == InvalidLimit
    ensures after >= 0 && 1 <= limit <= 500 ==>
              r == if after > HighWatermark(view.events) then InvalidCursor
                   else if Ascending(Selected(view.events, after, limit)) then
                     Read(Batch(Selected(view.events, after, limit), HighWatermark(view.events), view.terminal))
                   else NotIncreasing
  {
    if after < 0 { return InvalidCursor; }
    if limit < 1 || limit > MAX_PAGE { return InvalidLimit; }
    var rows := Selected(view.events, after, limit);
    var high := HighWatermark(view.events);
    if after > high { return InvalidCursor; }
    var events: seq<Event> := [];
    for i := 0 to |rows|
      invariant events == rows[..i]
    {
      events := events + [rows[i]];
    }
    assert events == rows;
    var i := 1;
    while i < |events|
      invariant 1 <= i
      invariant forall j :: 0 < j < i && j < |events| ==> events[j - 1].seqno < events[j].seqno
    {
      if events[i].seqno <= events[i - 1].seqno { return NotIncreasing; }
      i := i + 1;
    }
    return Read(Batch(events, high, view.terminal));
  }

  predicate Ascending(events: seq<Event>)
  {
    forall j :: 0 < j < |events| ==> events[j - 1].seqno < events[j].seqno
  }

  // ---- One page of a numbered log -------------------------------------------

  lemma {:induction false} SelectedIsPage(events: seq<Event>, first: int, after: int, limit: nat)
    requires forall i :: 0 <= i < |events| ==> events[i].seqno == first + i
    ensures
      var from := if after < first then 0 else if after - first + 1 < |events| then after - first + 1 else |events|;
      var to := if from + limit < |events| then from + limit else |events|;
      Selected(events, after, limit) == events[from..to]
  {
    if events != [] && limit > 0 {
      var rest := events[1..];
      assert forall i :: 0 <= i < |rest| ==> rest[i] == events[i + 1];
      if events[0].seqno > after {
        SelectedIsPage(rest, first + 1, after, limit - 1);
        var to := if limit < |events| then limit else |events|;
        assert Selected(rest, after, limit - 1) == rest[0..to - 1];
        assert events[0..to] == [events[0]] + rest[0..to - 1];
      } else {
        SelectedIsPage(rest, first + 1, after, limit);
        var from := if after - first + 1 < |events| then after - first + 1 else |events|;
        var to := if from + limit < |events| then from + limit else |events|;
        assert rest[from - 1..to - 1] == events[from..to];
      }
    }
  }

  /** On the log that the stores write, a page is exactly the next `limit` events after the
      cursor, and the only error is a cursor ahead of the log. */
  lemma PageOfLog(events: seq<Event>, after: nat, limit: nat)
    requires forall i :: 0 <= i < |events| ==> events[i].seqno == i + 1
    ensures HighWatermark(events) == |events|
    ensures after <= |events| ==>
              var to := if after + limit < |events| then after + limit else |events|;
              Selected(events, after, limit) == events[after..to] && Ascending(Selected(events, after, limit))
  {
    SelectedIsPage(events, 1, after, limit);
    if events != [] { assert events[|events| - 1].seqno == |events|; }
  }

  // ---- The stream -----------------------------------------------------------

  /** What successive reads see: logs of one run that only grow, numbered from one. */
  predicate Observed(views: seq<View>)
  {
    && (forall k, i :: 0 <= k < |views| && 0 <= i < |views[k].events| ==> views[k].events[i].seqno == i + 1)
    && (forall j, k :: 0 <= j < k < |views| ==> views[j].events <= views[k].events)
  }

  /** Any reads of any run of the protocol, in order, are such observations. */
  lemma RunsAreObserved(states: seq<Rows>, steps: seq<Step>, recoveryMax: int, moments: seq<nat>, views: seq<View>)
    requires Trace(states, steps, recoveryMax) && |views| == |moments|
    requires forall k :: 0 <= k < |moments| ==> moments[k] < |states|
    requires forall j, k :: 0 <= j < k < |moments| ==> moments[j] <= moments[k]
    requires forall k :: 0 <= k < |moments| ==>
               views[k] == View(states[moments[k]].events, Terminal(states[moments[k]].run.status))
    ensures Observed(views)
  {
    hide Trace, ProposalsOk, OutsideOk;
    forall k, i | 0 <= k < |views| && 0 <= i < |views[k].events| ensures views[k].events[i].seqno == i + 1 {
      TraceIsGood(states, steps, recoveryMax, moments[k]);
    }
    forall j, k | 0 <= j < k < |views| ensures views[j].events <= views[k].events {
      TraceIsLater(states, steps, recoveryMax, moments[j], moments[k]);
    }
  }

  /** A read at a cursor within a numbered log succeeds with the next events. */
  method ReadPage(view: View, cursor: nat, limit: int) returns (batch: Batch)
    requires FromOne(view.events) && cursor <= |view.events| && 1 <= limit <= MAX_PAGE
    ensures cursor + |batch.events| <= |view.events|
    ensures batch.events == view.events[cursor..cursor + |batch.events|]
    ensures |batch.events| == if cursor + limit < |view.events| then limit else |view.events| - cursor
    ensures batch.highWatermark == |view.events| && batch.runIsTerminal == view.terminal
  {
    PageOfLog(view.events, cursor, limit);
    var page := ReadAfter(view, cursor, limit);
    return page.batch;
  }

  /** Where the cursor stands after the first `k` views, each read once: one page further, or caught up. */
  function CursorAfter(views: seq<View>, start: nat, limit: nat, k: nat): nat
    requires k <= |views|
  {
    if k == 0 then start else
    var c, end := CursorAfter(views, start, limit, k - 1), |views[k - 1].events|;
    if c + limit < end then c + limit else end
  }

  /** The read of view `k` finds the run over and leaves nothing to send. */
  predicate CaughtUp(views: seq<View>, start: nat, limit: nat, k: nat)
    requires k < |views|
  {
    views[k].terminal && CursorAfter(views, start, limit, k + 1) == |views[k].events|
  }

  /** What was sent is the stretch of the log from the start to the cursor. */
  predicate Delivered(log: seq<Event>, start: nat, sent: seq<Event>, cursor: nat)
  {
    start <= cursor == start + |sent| <= |log| && sent == log[start..cursor]
  }

  lemma CursorMoves(views: seq<View>, start: nat, limit: nat, k: nat)
    requires k < |views|
    ensures CursorAfter(views, start, limit, 0) == start
    ensures
      var c, end := CursorAfter(views, start, limit, k), |views[k].events|;
      CursorAfter(views, start, limit, k + 1) == if c + limit < end then c + limit else end
  {
  }

  predicate FromOne(events: seq<Event>) { forall i :: 0 <= i < |events| ==> events[i].seqno == i + 1 }

  lemma ObservedNow(views: seq<View>, k: nat)
    requires Observed(views) && k < |views|
    ensures FromOne(views[k].events)
    ensures k + 1 < |views| ==> views[k].events <= views[k + 1].events
  {
  }

  datatype Ending = EndedByTerminalEvent | EndedCaughtUp | Disconnected

  /** What a stream has sent when it ends, at view `seen`: a stretch of the log from the cursor on, as far
      as one page a view leads, with a terminal event at most as its last. */
  predicate Streamed(views: seq<View>, start: nat, limit: nat, sent: seq<Event>, seen: nat, ending: Ending)
  {
    && seen < |views| && Delivered(views[seen].events, start, sent, start + |sent|)
    && (forall i :: 0 <= i < |sent| - 1 ==> !TerminalKind(sent[i].kind))
    && (forall k :: 0 <= k < seen ==> !CaughtUp(views, start, limit, k))
    && (ending == EndedByTerminalEvent <==> sent != [] && TerminalKind(sent[|sent| - 1].kind))
    && var end := CursorAfter(views, start, limit, seen + 1);
       match ending
       case EndedByTerminalEvent => start + |sent| <= end
       case EndedCaughtUp => start + |sent| == end && CaughtUp(views, start, limit, seen)
       case Disconnected => start + |sent| == end && seen == |views| - 1 && !CaughtUp(views, start, limit, seen)
  }

  /** `stream_run_events`: page after page until a terminal event was sent, or the run is over
      and everything was sent, or the client goes away (no more views).  Whatever is appended
      between the reads, what was sent is a gapless, duplicate-free stretch of the log from
      the client's cursor on; it ends with the terminal event or at the end of the log. */
  method StreamRunEvents(views: seq<View>, start: nat, limit: int)
    returns (sent: seq<Event>, ghost seen: nat, ending: Ending)
    requires Observed(views) && 1 <= limit <= MAX_PAGE
    requires views != [] && start <= |views[0].events|
    ensures Streamed(views, start, limit, sent, seen, ending)
  {
    var cursor := start;
    sent := [];
    seen := 0;
    var k := 0;
    hide CursorAfter, TerminalKind, Observed, FromOne, Streamed;
    CursorMoves(views, start, limit, 0);
    while true
      invariant 0 <= k < |views| && seen == k
      invariant cursor == CursorAfter(views, start, limit, k) && Delivered(views[k].events, start, sent, cursor)
      invariant forall i :: 0 <= i < |sent| ==> !TerminalKind(sent[i].kind)
      invariant forall j :: 0 <= j < k ==> !CaughtUp(views, start, limit, j)
      decreases |views| - k
    {
      CursorMoves(views, start, limit, k);
      ObservedNow(views, k);
      var batch := ReadPage(views[k], cursor, limit);
      var ended;
      sent, cursor, ended := SendPage(views[k].events, start, sent, cursor, batch.events);
      if ended {
        StreamEnds(views, start, limit, sent, k, cursor, EndedByTerminalEvent);
        return sent, k, EndedByTerminalEvent;
      }
      var caughtUp := batch.runIsTerminal && cursor >= batch.highWatermark;
      assert caughtUp == CaughtUp(views, start, limit, k);
      hide CaughtUp;
      if caughtUp || k == |views| - 1 {
        ending := if caughtUp then EndedCaughtUp else Disconnected;
        StreamEnds(views, start, limit, sent, k, cursor, ending);
        return;
      }
      LongerLog(views[k].events, views[k + 1].events, start, sent, cursor);
      k := k + 1;
      seen := k;
    }
  }

  lemma StreamEnds(views: seq<View>, start: nat, limit: nat, sent: seq<Event>, k: nat, cursor: nat, ending: Ending)
    requires k < |views| && Delivered(views[k].events, start, sent, cursor)
    requires forall i :: 0 <= i < |sent| - 1 ==> !TerminalKind(sent[i].kind)
    requires forall j :: 0 <= j < k ==> !CaughtUp(views, start, limit, j)
    requires ending == EndedByTerminalEvent <==> sent != [] && TerminalKind(sent[|sent| - 1].kind)
    requires cursor <= CursorAfter(views, start, limit, k + 1)
    requires ending != EndedByTerminalEvent ==> cursor == CursorAfter(views, start, limit, k + 1)
    requires ending == EndedCaughtUp ==> CaughtUp(views, start, limit, k)
    requires ending == Disconnected ==> k == |views| - 1 && !CaughtUp(views, start, limit, k)
    ensures Streamed(views, start, limit, sent, k, ending)
  {
    hide CursorAfter;
  }

  lemma LongerLog(log: seq<Event>, longer: seq<Event>, start: nat, sent: seq<Event>, cursor: nat)
    requires log <= longer && Delivered(log, start, sent, cursor)
    ensures Delivered(longer, start, sent, cursor)
  {
  }

  /** The loop over one page: every event moves the cursor, and a terminal one ends the stream. */
  method SendPage(ghost log: seq<Event>, ghost start: nat, before: seq<Event>, from: nat, page: seq<Event>)
    returns (sent: seq<Event>, cursor: nat, ended: bool)
    requires FromOne(log) && Delivered(log, start, before, from)
    requires from + |page| <= |log| && page == log[from..from + |page|]
    requires forall i :: 0 <= i < |before| ==> !TerminalKind(before[i].kind)
    ensures from <= cursor <= from + |page| && Delivered(log, start, sent, cursor)
    ensures forall i :: 0 <= i < |sent| - 1 ==> !TerminalKind(sent[i].kind)
    ensures ended <==> sent != [] && TerminalKind(sent[|sent| - 1].kind)
    ensures !ended ==> cursor == from + |page|
  {
    hide TerminalKind;
    sent, cursor := before, from;
    for i := 0 to |page|
      invariant cursor == from + i && cursor == start + |sent| && sent == log[start..cursor]
      invariant forall j :: 0 <= j < |sent| ==> !TerminalKind(sent[j].kind)
    {
      var event := page[i];
      assert log[start..cursor + 1] == log[start..cursor] + [log[cursor]];
      sent := sent + [event];
      cursor := event.seqno;
      if TerminalKind(event.kind) { return sent, cursor, true; }
    }
    return sent, cursor, false;
  }

  /** A stream that has not caught up advances with every read, so a log that stops growing is
      delivered completely. */
  lemma PagesAdvance(events: seq<Event>, cursor: nat, limit: nat)
    requires forall i :: 0 <= i < |events| ==> events[i].seqno == i + 1
    requires cursor < |events| && limit >= 1
    ensures |Selected(events, cursor, limit)| >= 1 && Selected(events, cursor, limit)[0].seqno == cursor + 1
  {
    PageOfLog(events, cursor, limit);
  }
}
