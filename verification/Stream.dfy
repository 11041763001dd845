// The stream state and its operation as objects, one call after the other.
// Both may be absent: the program calls their methods on nil receivers when
// instrumentation is off.
module Stream {
  import opened Types
  import opened Streaming

  // What an uninterrupted End leaves behind.
  function Ended(m: Shared, resp: Response, err: Option<StreamError>, now: Time): Shared {
    if m.opFinalized then m
    else m.(opFinalized := true, log := m.log + EndRecordings(m.start, FirstSeen(m), resp, err, now))
  }

  // The first-chunk time, as far as the span attribute is concerned.
  function FirstSeen(m: Shared): Option<Time> {
    if m.streaming && m.opHasFirst then Some(m.opFirst) else None
  }

  function AttributeRecordings(start: Time, first: Option<Time>): seq<Recording> {
    (if first.Some? then [FirstChunkAttribute(first.value - start)] else []) + [SpanEnd]
  }

  function EndRecordings(start: Time, first: Option<Time>, resp: Response, err: Option<StreamError>, now: Time): seq<Recording> {
    [Outcome(resp, err), OperationDuration(now - start)] + TokenRecordings(resp.usage) + AttributeRecordings(start, first)
  }

  lemma EndRecordingsShape(start: Time, first: Option<Time>, resp: Response, err: Option<StreamError>, now: Time)
    ensures var rs := EndRecordings(start, first, resp, err, now);
            && |rs| > 1 && rs[0] == Outcome(resp, err) && rs[|rs| - 1] == SpanEnd
            && (forall i | 1 <= i < |rs| :: !rs[i].Outcome?)
            && (forall i | 0 <= i < |rs| - 1 :: !rs[i].SpanEnd?)
  {
  }

  // What an uninterrupted FinalizeStream leaves behind.
  function Finalized(m: Shared, terminal: bool, resp: Response, err: Option<StreamError>, now: Time): Shared {
    if m.finalized then m
    else
      Ended(m.(finalized := true, log := m.log + if m.hasFirst then [FirstChunk(m.first - m.start)] else []),
            FinalResponse(terminal, resp), FinalError(terminal, err), now)
  }

  predicate OnlyIntervals(log: seq<Recording>) {
    forall i | 0 <= i < |log| :: log[i].Interval?
  }

  // The stream's log has one outcome, at j, and its span ends once, last.
  predicate OneOutcome(log: seq<Recording>, j: nat, resp: Response, err: Option<StreamError>) {
    && j < |log| && log[j] == Outcome(resp, err) && (forall i | 0 <= i < |log| && i != j :: !log[i].Outcome?)
    && log[|log| - 1] == SpanEnd && (forall i | 0 <= i < |log| - 1 :: !log[i].SpanEnd?)
  }

  // A finalization that takes effect adds one outcome and ends the span.
  lemma FinalizedShape(m: Shared, terminal: bool, resp: Response, err: Option<StreamError>, now: Time) returns (j: nat)
    requires OnlyIntervals(m.log) && !m.finalized && !m.opFinalized
    ensures OneOutcome(Finalized(m, terminal, resp, err, now).log, j, FinalResponse(terminal, resp), FinalError(terminal, err))
    ensures Finalized(m, terminal, resp, err, now).finalized
  {
    j := |m.log| + if m.hasFirst then 1 else 0;
    EndRecordingsShape(m.start, FirstSeen(m), FinalResponse(terminal, resp), FinalError(terminal, err), now);
  }

  // ---- The whole log of a stream with one consumer ----

  function Waits(times: seq<Time>): seq<Recording> {
    if times == [] then []
    else seq(|times| - 1, i requires 0 <= i < |times| - 1 => Interval(times[i + 1] - times[i]))
  }

  function Opening(start: Time, times: seq<Time>): seq<Recording> {
    if times == [] then [] else Waits(times) + [FirstChunk(times[0] - start)]
  }

  // Everything recorded about a stream whose chunks came at these times.
  function WholeLog(start: Time, streaming: bool, times: seq<Time>, resp: Response, err: Option<StreamError>, end: Time): seq<Recording> {
    Opening(start, times) + [Outcome(resp, err), OperationDuration(end - start)]
    + (if resp.usage.inputTokens > 0 then [InputTokens(resp.usage.inputTokens)] else [])
    + (if resp.usage.outputTokens > 0 then [OutputTokens(resp.usage.outputTokens)] else [])
    + (if streaming && times != [] then [FirstChunkAttribute(times[0] - start)] else [])
    + [SpanEnd]
  }

  // The stream is open and these are the times of the chunks so far.
  predicate Heard(m: Shared, times: seq<Time>) {
    && !m.finalized && !m.opFinalized && m.log == Waits(times)
    && m.hasFirst == m.opHasFirst == (times != [])
    && (times != [] ==> m.first == m.opFirst == times[0] && m.prev == times[|times| - 1])
  }

  lemma ObserveHeard(m: Shared, times: seq<Time>, now: Time)
    requires Heard(m, times)
    ensures Heard(Observe(m, true, now), times + [now])
  {
    var log, more := Observe(m, true, now).log, times + [now];
    assert |log| == |Waits(more)|;
    forall i | 0 <= i < |log| ensures log[i] == Waits(more)[i] {
      assert i < |Waits(times)| ==> log[i] == Waits(times)[i];
    }
  }

  lemma FinalizedLog(m: Shared, times: seq<Time>, terminal: bool, resp: Response, err: Option<StreamError>, now: Time)
    requires Heard(m, times)
    ensures Finalized(m, terminal, resp, err, now).log ==
            WholeLog(m.start, m.streaming, times, FinalResponse(terminal, resp), FinalError(terminal, err), now)
  {
    var before := m.log + if m.hasFirst then [FirstChunk(m.first - m.start)] else [];
    assert before == Opening(m.start, times);
    EndRecordingsAre(before, m, times, FinalResponse(terminal, resp), FinalError(terminal, err), now);
  }

  lemma EndRecordingsAre(log: seq<Recording>, m: Shared, times: seq<Time>, resp: Response, err: Option<StreamError>, end: Time)
    requires Heard(m, times)
    ensures log + EndRecordings(m.start, FirstSeen(m), resp, err, end) ==
            log + [Outcome(resp, err), OperationDuration(end - m.start)]
            + (if resp.usage.inputTokens > 0 then [InputTokens(resp.usage.inputTokens)] else [])
            + (if resp.usage.outputTokens > 0 then [OutputTokens(resp.usage.outputTokens)] else [])
            + (if m.streaming && times != [] then [FirstChunkAttribute(times[0] - m.start)] else [])
            + [SpanEnd]
  {
    var outcome := [Outcome(resp, err), OperationDuration(end - m.start)];
    var input := if resp.usage.inputTokens > 0 then [InputTokens(resp.usage.inputTokens)] else [];
    var output := if resp.usage.outputTokens > 0 then [OutputTokens(resp.usage.outputTokens)] else [];
    var attribute := if m.streaming && times != [] then [FirstChunkAttribute(times[0] - m.start)] else [];
    Flatten(log, outcome, input, output, attribute, [SpanEnd]);
  }

  lemma Flatten<T>(a: seq<T>, b: seq<T>, c: seq<T>, d: seq<T>, e: seq<T>, f: seq<T>)
    ensures a + (b + (c + d) + (e + f)) == a + b + c + d + e + f
  {
    assert a + (b + (c + d) + (e + f)) == a + b + (c + d) + e + f;
    assert a + b + (c + d) == a + b + c + d;
  }

  function Uninterrupted(m: Shared, call: Call, now: Time): Shared {
    match call
    case ObserveChunk(isOutput) => Observe(m, isOutput, now)
    case FinalizeStream(terminal, resp, err) => Finalized(m, terminal, resp, err, now)
    case End(resp, err) => Ended(m, resp, err, now)
  }

  function Rank(pc: Pc): nat {
    match pc
    case Ready => 6
    case ToFirstChunk => 5
    case ToEnd(_, _) => 4
    case ToRecord(_, _) => 3
    case ToAttribute => 2
    case ToSpanEnd => 1
    case Done => 0
  }

  // The call's thread run to its end with nothing in between.
  function Complete(m: Shared, t: Thread, now: Time): Shared
    requires WellFormed(t)
    decreases Rank(t.pc)
  {
    if t.pc.Done? then m else var (m', pc) := Act(m, t, now); Complete(m', t.(pc := pc), now)
  }

  lemma EndIsThread(m: Shared, call: Call, resp: Response, err: Option<StreamError>, now: Time)
    requires call.FinalizeStream?
    ensures Complete(m, Thread(call, ToEnd(resp, err)), now) == Ended(m, resp, err, now)
  {
    if !m.opFinalized {
      RecordIsThread(m.(opFinalized := true), call, resp, err, now);
    }
  }

  lemma SpanEndIsThread(m: Shared, call: Call, now: Time)
    requires !call.ObserveChunk?
    ensures Complete(m, Thread(call, ToSpanEnd), now) == m.(log := m.log + [SpanEnd])
  {
  }

  lemma AttributeIsThread(m: Shared, call: Call, now: Time)
    requires !call.ObserveChunk?
    ensures Complete(m, Thread(call, ToAttribute), now) == m.(log := m.log + AttributeRecordings(m.start, FirstSeen(m)))
  {
    var m' := Act(m, Thread(call, ToAttribute), now).0;
    SpanEndIsThread(m', call, now);
    assert m'.log + [SpanEnd] == m.log + AttributeRecordings(m.start, FirstSeen(m));
  }

  lemma RecordIsThread(m: Shared, call: Call, resp: Response, err: Option<StreamError>, now: Time)
    requires !call.ObserveChunk? && m.opFinalized
    ensures Complete(m, Thread(call, ToRecord(resp, err)), now) ==
            Ended(m.(opFinalized := false), resp, err, now)
  {
    var m' := Act(m, Thread(call, ToRecord(resp, err)), now).0;
    AttributeIsThread(m', call, now);
    assert m'.log + AttributeRecordings(m.start, FirstSeen(m)) == m.log + EndRecordings(m.start, FirstSeen(m), resp, err, now);
  }

  // A call that nothing interrupts does what its thread does.
  lemma UninterruptedIsThread(m: Shared, call: Call, now: Time)
    ensures Complete(m, Thread(call, Ready), now) == Uninterrupted(m, call, now)
  {
    match call
    case ObserveChunk(_) =>
    case End(resp, err) => RecordIsThread(m.(opFinalized := true), call, resp, err, now);
    case FinalizeStream(terminal, resp, err) =>
      if !m.finalized {
        var m1 := m.(finalized := true);
        var m2 := Act(m1, Thread(call, ToFirstChunk), now).0;
        EndIsThread(m2, call, FinalResponse(terminal, resp), FinalError(terminal, err), now);
        assert m.log + [] == m.log;
        assert Complete(m1, Thread(call, ToFirstChunk), now) ==
               Complete(m2, Thread(call, ToEnd(FinalResponse(terminal, resp), FinalError(terminal, err))), now);
      }
  }

  class InferenceOperation {
    const startTime: Time
    const streaming: bool
    var finalized: bool
    var hasFirstChunk: bool
    var firstChunkTime: Time
    ghost var log: seq<Recording>

    constructor (startTime: Time, streaming: bool)
      ensures this.startTime == startTime && this.streaming == streaming
      ensures !finalized && !hasFirstChunk && firstChunkTime == 0 && log == []
    {
      this.startTime, this.streaming := startTime, streaming;
      finalized, hasFirstChunk, firstChunkTime, log := false, false, 0, [];
    }
  }

  class StreamState {
    const op: InferenceOperation
    const startTime: Time
    var finalized: bool
    var hasFirstChunk: bool
    var firstChunkTime: Time
    var prevChunkTime: Time

    constructor (op: InferenceOperation)
      ensures this.op == op && startTime == op.startTime
      ensures !finalized && !hasFirstChunk && firstChunkTime == 0 && prevChunkTime == 0
    {
      this.op, startTime := op, op.startTime;
      finalized, hasFirstChunk, firstChunkTime, prevChunkTime := false, false, 0, 0;
    }

    ghost predicate Valid() {
      startTime == op.startTime
    }

    ghost function View(): Shared
      reads this, op
    {
      Shared(op.startTime, op.streaming, finalized, hasFirstChunk, firstChunkTime, prevChunkTime,
             op.finalized, op.hasFirstChunk, op.firstChunkTime, op.log)
    }
  }

  method NewStreamState(op: InferenceOperation?) returns (s: StreamState?)
    ensures (s == null) == (op == null)
    ensures s != null ==> fresh(s) && s.op == op && s.Valid()
    ensures s != null && !op.finalized && !op.hasFirstChunk && op.firstChunkTime == 0 && op.log == [] ==>
              s.View() == New(op.startTime, op.streaming)
  {
    if op == null {
      return null;
    }
    s := new StreamState(op);
  }

  // The objects a call on this state may change.
  function Footprint(s: StreamState?): set<object> {
    if s == null then {} else {s, s.op}
  }

  method ObserveChunk(s: StreamState?, isOutput: bool, now: Time)
    modifies Footprint(s)
    ensures s != null ==> s.View() == Observe(old(s.View()), isOutput, now)
  {
    if s == null || !isOutput || s.finalized {
      return;
    }
    if !s.hasFirstChunk {
      s.firstChunkTime := now;
      s.hasFirstChunk := true;
      s.op.hasFirstChunk := true;
      s.op.firstChunkTime := now;
    } else {
      var interval := now - s.prevChunkTime;
      s.op.log := s.op.log + [Interval(interval)];
    }
    s.prevChunkTime := now;
  }

  // End on the operation.
  method EndOperation(op: InferenceOperation?, resp: Response, err: Option<StreamError>, now: Time)
    modifies op
    ensures op != null ==>
              && op.finalized && op.hasFirstChunk == old(op.hasFirstChunk) && op.firstChunkTime == old(op.firstChunkTime)
              && op.log == old(op.log) +
                   if old(op.finalized) then []
                   else EndRecordings(op.startTime, if op.streaming && op.hasFirstChunk then Some(op.firstChunkTime) else None, resp, err, now)
  {
    if op == null || op.finalized {
      return;
    }
    op.finalized := true;
    op.log := op.log + [Outcome(resp, err), OperationDuration(now - op.startTime)];
    RecordTokens(op, resp.usage);
    if op.streaming && op.hasFirstChunk {
      op.log := op.log + [FirstChunkAttribute(op.firstChunkTime - op.startTime)];
    }
    op.log := op.log + [SpanEnd];
  }

  method RecordTokens(op: InferenceOperation, usage: Usage)
    modifies op`log
    ensures op.log == old(op.log) + TokenRecordings(usage)
  {
    if usage.inputTokens > 0 {
      op.log := op.log + [InputTokens(usage.inputTokens)];
    }
    if usage.outputTokens > 0 {
      op.log := op.log + [OutputTokens(usage.outputTokens)];
    }
  }

  method RecordFirstChunk(s: StreamState)
    requires s.Valid()
    modifies s.op`log
    ensures s.View() == old(s.View()).(log := old(s.op.log) + if s.hasFirstChunk then [FirstChunk(s.firstChunkTime - s.op.startTime)] else [])
  {
    if s.hasFirstChunk {
      s.op.log := s.op.log + [FirstChunk(s.firstChunkTime - s.startTime)];
    }
  }

  // The stream's operation ends, with the outcome adjusted to the stream.
  method EndThrough(s: StreamState, terminal: bool, resp: Response, err: Option<StreamError>, now: Time)
    modifies s.op
    ensures s.View() == Ended(old(s.View()), FinalResponse(terminal, resp), FinalError(terminal, err), now)
  {
    var finalErr, finalResp := err, resp;
    if !terminal && err.None? {
      finalErr := Some(ClosedEarly);
    }
    if !terminal {
      finalResp := resp.(finishReasons := ["error"]);
    }
    EndOperation(s.op, finalResp, finalErr, now);
  }

  method FinalizeStream(s: StreamState?, terminal: bool, resp: Response, err: Option<StreamError>, now: Time)
    requires s != null ==> s.Valid()
    modifies Footprint(s)
    ensures s != null ==> s.View() == Finalized(old(s.View()), terminal, resp, err, now)
  {
    if s == null || s.finalized {
      return;
    }
    s.finalized := true;
    RecordFirstChunk(s);
    EndThrough(s, terminal, resp, err, now);
  }
}
