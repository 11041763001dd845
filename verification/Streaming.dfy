// Streaming telemetry of one inference operation: the stream state and the
// operation each have a mutex and a finalized flag of their own, and what
// follows the locked part of a call runs without either lock.
module Streaming {
  import opened Types

  datatype Response = Response(model: string, id: string, finishReasons: seq<string>, usage: Usage)

  const NO_RESPONSE := Response("", "", [], NO_USAGE)

  // A non-nil error: from the provider, or the sentinel for a stream closed
  // before its terminal event.
  datatype StreamError = Provider(name: string) | ClosedEarly

  // What is recorded on the span and the instruments, in order.
  datatype Recording =
    | Interval(duration: Time)
    | FirstChunk(duration: Time)
    | Outcome(resp: Response, err: Option<StreamError>)
    | OperationDuration(duration: Time)
    | InputTokens(count: int)
    | OutputTokens(count: int)
    | FirstChunkAttribute(duration: Time)
    | SpanEnd

  // The fields of the stream state and of its operation. The start time and
  // the streaming flag are set once, before any call.
  datatype Shared = Shared(
    start: Time, streaming: bool,
    finalized: bool, hasFirst: bool, first: Time, prev: Time,
    opFinalized: bool, opHasFirst: bool, opFirst: Time,
    log: seq<Recording>)

  function New(start: Time, streaming: bool): Shared {
    Shared(start, streaming, false, false, 0, 0, false, false, 0, [])
  }

  // All of ObserveChunk happens under the stream lock.
  function Observe(m: Shared, isOutput: bool, now: Time): Shared {
    if !isOutput || m.finalized then m
    else if !m.hasFirst then m.(hasFirst := true, first := now, opHasFirst := true, opFirst := now, prev := now)
    else m.(log := m.log + [Interval(now - m.prev)], prev := now)
  }

  function FinalError(terminal: bool, err: Option<StreamError>): Option<StreamError> {
    if !terminal && err.None? then Some(ClosedEarly) else err
  }

  function FinalResponse(terminal: bool, resp: Response): Response {
    if terminal then resp else resp.(finishReasons := ["error"])
  }

  function TokenRecordings(usage: Usage): seq<Recording> {
    (if usage.inputTokens > 0 then [InputTokens(usage.inputTokens)] else [])
    + (if usage.outputTokens > 0 then [OutputTokens(usage.outputTokens)] else [])
  }

  datatype Call =
    | ObserveChunk(isOutput: bool)
    | FinalizeStream(terminal: bool, resp: Response, err: Option<StreamError>)
    | End(resp: Response, err: Option<StreamError>)

  // Where a call stands. Everything after a latch runs unlocked.
  datatype Pc =
    | Ready
    | ToFirstChunk
    | ToEnd(resp: Response, err: Option<StreamError>)
    | ToRecord(resp: Response, err: Option<StreamError>)
    | ToAttribute
    | ToSpanEnd
    | Done

  datatype Thread = Thread(call: Call, pc: Pc)

  predicate WellFormed(t: Thread) {
    (t.pc.ToFirstChunk? || t.pc.ToEnd? ==> t.call.FinalizeStream?) && (!t.pc.Ready? && !t.pc.Done? ==> !t.call.ObserveChunk?)
  }

  function EndLatch(m: Shared, resp: Response, err: Option<StreamError>): (Shared, Pc) {
    if m.opFinalized then (m, Done) else (m.(opFinalized := true), ToRecord(resp, err))
  }

  function StreamLatch(m: Shared): (Shared, Pc) {
    if m.finalized then (m, Done) else (m.(finalized := true), ToFirstChunk)
  }

  // One step of one call.
  function Act(m: Shared, t: Thread, now: Time): (Shared, Pc)
    requires WellFormed(t)
  {
    match t.pc
    case Ready =>
      (match t.call
       case ObserveChunk(isOutput) => (Observe(m, isOutput, now), Done)
       case FinalizeStream(_, _, _) => StreamLatch(m)
       case End(resp, err) => EndLatch(m, resp, err))
    case ToFirstChunk =>
      (if m.hasFirst then m.(log := m.log + [FirstChunk(m.first - m.start)]) else m,
       ToEnd(FinalResponse(t.call.terminal, t.call.resp), FinalError(t.call.terminal, t.call.err)))
    case ToEnd(resp, err) => EndLatch(m, resp, err)
    case ToRecord(resp, err) =>
      (m.(log := m.log + [Outcome(resp, err), OperationDuration(now - m.start)] + TokenRecordings(resp.usage)), ToAttribute)
    case ToAttribute =>
      (if m.streaming && m.opHasFirst then m.(log := m.log + [FirstChunkAttribute(m.opFirst - m.start)]) else m, ToSpanEnd)
    case ToSpanEnd => (m.(log := m.log + [SpanEnd]), Done)
    case Done => (m, Done)
  }

  datatype Tick = Tick(tid: nat, now: Time)

  datatype System = System(mem: Shared, threads: seq<Thread>)

  ghost predicate AllWellFormed(threads: seq<Thread>) {
    forall i | 0 <= i < |threads| :: WellFormed(threads[i])
  }

  ghost function TickSystem(sys: System, tick: Tick): System
    requires AllWellFormed(sys.threads)
  {
    if tick.tid >= |sys.threads| then sys
    else
      var t := sys.threads[tick.tid];
      var (m, pc) := Act(sys.mem, t, tick.now);
      System(m, sys.threads[tick.tid := t.(pc := pc)])
  }

  function Initial(start: Time, streaming: bool, calls: seq<Call>): (sys: System)
    ensures AllWellFormed(sys.threads)
  {
    System(New(start, streaming), seq(|calls|, i requires 0 <= i < |calls| => Thread(calls[i], Ready)))
  }

  // The system after the first n decisions of a schedule.
  ghost function At(sys: System, schedule: seq<Tick>, n: nat): (r: System)
    requires AllWellFormed(sys.threads) && n <= |schedule|
    ensures AllWellFormed(r.threads) && |r.threads| == |sys.threads|
    ensures forall i | 0 <= i < |sys.threads| :: r.threads[i].call == sys.threads[i].call
    ensures r.mem.start == sys.mem.start && r.mem.streaming == sys.mem.streaming
  {
    if n == 0 then sys else TickSystem(At(sys, schedule, n - 1), schedule[n - 1])
  }
}
