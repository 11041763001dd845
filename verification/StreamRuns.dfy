// Streaming telemetry under every interleaving of the calls on one stream
// and its operation.
module StreamRuns {
  import opened Types
  import opened Sequences
  import opened Streaming

  // The fields that are read without the stream lock.
  function Unlocked(m: Shared): (bool, Time, bool, Time) {
    (m.hasFirst, m.first, m.opHasFirst, m.opFirst)
  }

  // ---- Every path finalizes at most once ----

  // What a finalization records, each at most once.
  datatype Kind = KFirstChunk | KOutcome | KDuration | KAttribute | KSpanEnd

  function Is(k: Kind): Recording -> nat {
    (r: Recording) => Bit(match k
      case KFirstChunk => r.FirstChunk?
      case KOutcome => r.Outcome?
      case KDuration => r.OperationDuration?
      case KAttribute => r.FirstChunkAttribute?
      case KSpanEnd => r.SpanEnd?)
  }

  // The call has passed the latch and may still make this recording.
  function Owes(k: Kind): Thread -> nat {
    (t: Thread) => Bit(match k
      case KFirstChunk => t.pc.ToFirstChunk?
      case KOutcome => t.pc.ToRecord?
      case KDuration => t.pc.ToRecord?
      case KAttribute => t.pc.ToRecord? || t.pc.ToAttribute?
      case KSpanEnd => t.pc.ToRecord? || t.pc.ToAttribute? || t.pc.ToSpanEnd?)
  }

  // The finalization that recording belongs to has begun.
  predicate Latched(m: Shared, k: Kind) {
    if k.KFirstChunk? then m.finalized else m.opFinalized
  }

  // First-chunk recordings are only made if there was a first chunk.
  predicate Unconditional(k: Kind) {
    k.KOutcome? || k.KDuration? || k.KSpanEnd?
  }

  function Added(m: Shared, t: Thread, now: Time): (added: seq<Recording>)
    requires WellFormed(t)
    ensures Act(m, t, now).0.log == m.log + added
  {
    Act(m, t, now).0.log[|m.log|..]
  }

  // This step makes a recording of that kind.
  predicate Makes(m: Shared, t: Thread, k: Kind) {
    match k
    case KFirstChunk => t.pc.ToFirstChunk? && m.hasFirst
    case KOutcome => t.pc.ToRecord?
    case KDuration => t.pc.ToRecord?
    case KAttribute => t.pc.ToAttribute? && m.streaming && m.opHasFirst
    case KSpanEnd => t.pc.ToSpanEnd?
  }

  lemma RecordMakes(resp: Response, err: Option<StreamError>, d: Time, k: Kind)
    ensures Sum([Outcome(resp, err), OperationDuration(d)] + TokenRecordings(resp.usage), Is(k)) == Bit(k.KOutcome? || k.KDuration?)
  {
    SumAppend([Outcome(resp, err), OperationDuration(d)], TokenRecordings(resp.usage), Is(k));
    SumFew([Outcome(resp, err), OperationDuration(d)], Is(k));
    SumZero(TokenRecordings(resp.usage), Is(k));
  }

  lemma ActMakes(m: Shared, t: Thread, now: Time, k: Kind)
    requires WellFormed(t)
    ensures Sum(Added(m, t, now), Is(k)) == Bit(Makes(m, t, k))
  {
    if t.pc.ToRecord? {
      RecordMakes(t.pc.resp, t.pc.err, now - m.start, k);
      assert Added(m, t, now) == [Outcome(t.pc.resp, t.pc.err), OperationDuration(now - m.start)] + TokenRecordings(t.pc.resp.usage);
    } else {
      OtherMakes(m, t, now, k);
    }
  }

  lemma OtherMakes(m: Shared, t: Thread, now: Time, k: Kind)
    requires WellFormed(t) && !t.pc.ToRecord?
    ensures Sum(Added(m, t, now), Is(k)) == Bit(Makes(m, t, k))
  {
    SumFew(Added(m, t, now), Is(k));
  }

  lemma ActCounts(m: Shared, t: Thread, now: Time, k: Kind)
    requires WellFormed(t)
    ensures var (m', pc) := Act(m, t, now);
            var made, before, after := Bit(Makes(m, t, k)), Owes(k)(t), Owes(k)(t.(pc := pc));
            && made + after + Bit(Latched(m, k)) <= before + Bit(Latched(m', k))
            && (Unconditional(k) || (k.KFirstChunk? && m.hasFirst) ==>
                  made + after + Bit(Latched(m, k)) == before + Bit(Latched(m', k)))
  {
  }

  ghost predicate Counted(sys: System, k: Kind) {
    var made, owed := Sum(sys.mem.log, Is(k)), Sum(sys.threads, Owes(k));
    && made + owed <= Bit(Latched(sys.mem, k))
    && (Unconditional(k) ==> made + owed == Bit(Latched(sys.mem, k)))
    && (k.KFirstChunk? && sys.mem.hasFirst ==> made + owed == Bit(sys.mem.finalized))
    && (k.KFirstChunk? && !sys.mem.hasFirst ==> made == 0)
  }

  lemma TickMakes(sys: System, tick: Tick, k: Kind)
    requires AllWellFormed(sys.threads) && tick.tid < |sys.threads|
    ensures Sum(TickSystem(sys, tick).mem.log, Is(k)) == Sum(sys.mem.log, Is(k)) + Bit(Makes(sys.mem, sys.threads[tick.tid], k))
  {
    var t := sys.threads[tick.tid];
    ActMakes(sys.mem, t, tick.now, k);
    SumAppend(sys.mem.log, Added(sys.mem, t, tick.now), Is(k));
  }

  lemma TickOwes(sys: System, tick: Tick, k: Kind)
    requires AllWellFormed(sys.threads) && tick.tid < |sys.threads|
    ensures var t := sys.threads[tick.tid];
            var t' := t.(pc := Act(sys.mem, t, tick.now).1);
            Sum(TickSystem(sys, tick).threads, Owes(k)) + Owes(k)(t) == Sum(sys.threads, Owes(k)) + Owes(k)(t')
  {
    var t := sys.threads[tick.tid];
    SumUpdate(sys.threads, tick.tid, t.(pc := Act(sys.mem, t, tick.now).1), Owes(k));
  }

  lemma TickKeepsCounted(sys: System, tick: Tick, k: Kind)
    requires AllWellFormed(sys.threads) && Counted(sys, k)
    ensures Counted(TickSystem(sys, tick), k)
  {
    if tick.tid < |sys.threads| {
      ActCounts(sys.mem, sys.threads[tick.tid], tick.now, k);
      TickMakes(sys, tick, k);
      TickOwes(sys, tick, k);
    }
  }

  lemma {:induction false} RunKeepsCounted(sys: System, schedule: seq<Tick>, n: nat, k: Kind)
    requires AllWellFormed(sys.threads) && Counted(sys, k) && n <= |schedule|
    ensures Counted(At(sys, schedule, n), k)
  {
    if n == 0 {
    } else {
      RunKeepsCounted(sys, schedule, n - 1, k);
      TickKeepsCounted(At(sys, schedule, n - 1), schedule[n - 1], k);
    }
  }

  // A stream finalization still on its way to End.
  function OnItsWay(): Thread -> nat {
    (t: Thread) => Bit(t.pc.ToFirstChunk? || t.pc.ToEnd?)
  }

  lemma ActLatches(m: Shared, t: Thread, now: Time)
    requires WellFormed(t)
    ensures var (m', pc) := Act(m, t, now);
            && !pc.Ready?
            && (m.finalized ==> m'.finalized && Unlocked(m') == Unlocked(m))
            && (m.opFinalized ==> m'.opFinalized)
            && (t.call.FinalizeStream? && t.pc.Ready? ==> m'.finalized)
            && (t.call.End? && t.pc.Ready? ==> m'.opFinalized)
            && (m'.finalized && !m.finalized ==> pc.ToFirstChunk?)
            && (OnItsWay()(t) == 1 ==> OnItsWay()(t.(pc := pc)) == 1 || m'.opFinalized)
            && (m'.opFinalized && !m.opFinalized ==> t.pc.ToEnd? || t.call.End?)
            && (!(t.call.ObserveChunk? && t.call.isOutput) ==> Unlocked(m') == Unlocked(m))
  {
  }

  ghost predicate Arriving(sys: System) {
    sys.mem.finalized && !sys.mem.opFinalized ==> Sum(sys.threads, OnItsWay()) > 0
  }

  lemma TickKeepsArriving(sys: System, tick: Tick)
    requires AllWellFormed(sys.threads) && Arriving(sys)
    ensures Arriving(TickSystem(sys, tick))
  {
    if tick.tid < |sys.threads| {
      var t := sys.threads[tick.tid];
      var t' := t.(pc := Act(sys.mem, t, tick.now).1);
      ActLatches(sys.mem, t, tick.now);
      SumUpdate(sys.threads, tick.tid, t', OnItsWay());
      SumPositive(sys.threads[tick.tid := t'], tick.tid, OnItsWay());
    }
  }

  // A finalized stream has ended its operation or is about to.
  lemma {:induction false} FinalizationArrives(sys: System, schedule: seq<Tick>, n: nat)
    requires AllWellFormed(sys.threads) && n <= |schedule| && Arriving(sys)
    ensures Arriving(At(sys, schedule, n))
  {
    if n == 0 {
    } else {
      FinalizationArrives(sys, schedule, n - 1);
      TickKeepsArriving(At(sys, schedule, n - 1), schedule[n - 1]);
    }
  }

  // A call that has begun has found its latch closed or closed it.
  ghost predicate HasLatched(sys: System, tid: nat)
    requires tid < |sys.threads|
  {
    var t := sys.threads[tid];
    !t.pc.Ready? ==> (t.call.FinalizeStream? ==> sys.mem.finalized) && (t.call.End? ==> sys.mem.opFinalized)
  }

  lemma TickKeepsLatched(sys: System, tick: Tick, tid: nat)
    requires AllWellFormed(sys.threads) && tid < |sys.threads| && HasLatched(sys, tid)
    ensures HasLatched(TickSystem(sys, tick), tid)
  {
    if tick.tid < |sys.threads| {
      ActLatches(sys.mem, sys.threads[tick.tid], tick.now);
    }
  }

  lemma {:induction false} RunKeepsLatched(sys: System, schedule: seq<Tick>, n: nat, tid: nat)
    requires AllWellFormed(sys.threads) && n <= |schedule| && tid < |sys.threads| && HasLatched(sys, tid)
    ensures HasLatched(At(sys, schedule, n), tid)
  {
    if n == 0 {
    } else {
      RunKeepsLatched(sys, schedule, n - 1, tid);
      TickKeepsLatched(At(sys, schedule, n - 1), schedule[n - 1], tid);
    }
  }

  predicate AllDone(threads: seq<Thread>) {
    forall i | 0 <= i < |threads| :: threads[i].pc.Done?
  }

  lemma InitialCounts(start: Time, streaming: bool, calls: seq<Call>, schedule: seq<Tick>, n: nat, k: Kind)
    requires n <= |schedule|
    ensures Counted(At(Initial(start, streaming, calls), schedule, n), k)
  {
    var sys := Initial(start, streaming, calls);
    SumZero(sys.threads, Owes(k));
    RunKeepsCounted(sys, schedule, n, k);
  }

  // In every interleaving of any calls: no recording of a finalization is
  // made twice. Once all calls are through, the span has ended and the
  // outcome and the duration are recorded if any of them was a finalizing
  // call, and the time to the first chunk if the stream was finalized after
  // a first chunk.
  lemma FinalizedOnce(start: Time, streaming: bool, calls: seq<Call>, schedule: seq<Tick>, n: nat, k: Kind)
    requires n <= |schedule|
    ensures var sys := At(Initial(start, streaming, calls), schedule, n);
            var finalizing := exists i | 0 <= i < |calls| :: !calls[i].ObserveChunk?;
            && Sum(sys.mem.log, Is(k)) <= 1
            && (AllDone(sys.threads) && finalizing && Unconditional(k) ==> Sum(sys.mem.log, Is(k)) == 1)
            && (AllDone(sys.threads) && k.KFirstChunk? ==> Sum(sys.mem.log, Is(k)) == Bit(sys.mem.finalized && sys.mem.hasFirst))
  {
    var initial := Initial(start, streaming, calls);
    var sys := At(initial, schedule, n);
    InitialCounts(start, streaming, calls, schedule, n, k);
    if AllDone(sys.threads) {
      SumZero(sys.threads, Owes(k));
      if i :| 0 <= i < |calls| && !calls[i].ObserveChunk? {
        RunKeepsLatched(initial, schedule, n, i);
        FinalizationArrives(initial, schedule, n);
        SumZero(sys.threads, OnItsWay());
      }
    }
  }

  // This tick is the step that decides about the span attribute.
  predicate Decides(sys: System, tick: Tick) {
    tick.tid < |sys.threads| && sys.threads[tick.tid].pc.ToAttribute?
  }

  // The operation has ended and the span attribute is decided.
  ghost predicate Decided(sys: System) {
    sys.mem.opFinalized && Sum(sys.threads, Owes(KAttribute)) == 0
  }

  lemma ActDecides(m: Shared, t: Thread, now: Time)
    requires WellFormed(t) && !t.pc.ToAttribute?
    ensures var (m', pc) := Act(m, t, now);
            && !Makes(m, t, KAttribute) && Owes(KAttribute)(t) <= Owes(KAttribute)(t.(pc := pc))
            && (m'.opFinalized && !m.opFinalized ==> Owes(KAttribute)(t.(pc := pc)) == 1)
  {
  }

  lemma TickDecides(sys: System, tick: Tick)
    requires AllWellFormed(sys.threads) && Counted(sys, KAttribute) && Decides(sys, tick)
    ensures Sum(TickSystem(sys, tick).mem.log, Is(KAttribute)) == Bit(sys.mem.streaming && sys.mem.opHasFirst)
  {
    var t := sys.threads[tick.tid];
    SumPositive(sys.threads, tick.tid, Owes(KAttribute));
    ActMakes(sys.mem, t, tick.now, KAttribute);
    SumAppend(sys.mem.log, Added(sys.mem, t, tick.now), Is(KAttribute));
  }

  lemma OtherTickDecides(sys: System, tick: Tick)
    requires AllWellFormed(sys.threads) && !Decides(sys, tick) && Decided(TickSystem(sys, tick))
    ensures Decided(sys)
    ensures Sum(TickSystem(sys, tick).mem.log, Is(KAttribute)) == Sum(sys.mem.log, Is(KAttribute))
  {
    if tick.tid < |sys.threads| {
      var t := sys.threads[tick.tid];
      var t' := t.(pc := Act(sys.mem, t, tick.now).1);
      ActDecides(sys.mem, t, tick.now);
      ActMakes(sys.mem, t, tick.now, KAttribute);
      SumAppend(sys.mem.log, Added(sys.mem, t, tick.now), Is(KAttribute));
      SumUpdate(sys.threads, tick.tid, t', Owes(KAttribute));
      SumPositive(sys.threads[tick.tid := t'], tick.tid, Owes(KAttribute));
    }
  }

  // One tick of the induction below.
  lemma DecidedBefore(before: System, tick: Tick, after: System)
    requires AllWellFormed(before.threads) && after == TickSystem(before, tick) && Counted(before, KAttribute) && Decided(after)
    ensures if Decides(before, tick) then Sum(after.mem.log, Is(KAttribute)) == Bit(before.mem.streaming && before.mem.opHasFirst)
            else Decided(before) && Sum(after.mem.log, Is(KAttribute)) == Sum(before.mem.log, Is(KAttribute))
  {
    if Decides(before, tick) {
      TickDecides(before, tick);
    } else {
      OtherTickDecides(before, tick);
    }
  }

  // The span attribute is set exactly if the operation is a streaming one and
  // has seen a first chunk by the time the one ending call gets there.
  lemma {:induction false} AttributeDecided(sys: System, schedule: seq<Tick>, n: nat) returns (p: nat)
    requires AllWellFormed(sys.threads) && n <= |schedule| && !sys.mem.opFinalized && Counted(sys, KAttribute)
    requires Decided(At(sys, schedule, n))
    ensures p < n && Decides(At(sys, schedule, p), schedule[p])
    ensures Sum(At(sys, schedule, n).mem.log, Is(KAttribute)) == Bit(sys.mem.streaming && At(sys, schedule, p).mem.opHasFirst)
  {
    p := n - 1;
    RunKeepsCounted(sys, schedule, p, KAttribute);
    DecidedBefore(At(sys, schedule, p), schedule[p], At(sys, schedule, n));
    if !Decides(At(sys, schedule, p), schedule[p]) {
      p := AttributeDecided(sys, schedule, p);
    }
  }

  // ---- The unlocked reads ----

  // Once the stream is finalized, no step of any call changes them.
  lemma {:induction false} FrozenOnceFinalized(sys: System, schedule: seq<Tick>, i: nat, j: nat)
    requires AllWellFormed(sys.threads) && i <= j <= |schedule| && At(sys, schedule, i).mem.finalized
    ensures At(sys, schedule, j).mem.finalized
    ensures Unlocked(At(sys, schedule, j).mem) == Unlocked(At(sys, schedule, i).mem)
  {
    if i == j {
    } else {
      FrozenOnceFinalized(sys, schedule, i, j - 1);
      var before, tick := At(sys, schedule, j - 1), schedule[j - 1];
      if tick.tid < |before.threads| {
        ActLatches(before.mem, before.threads[tick.tid], tick.now);
      }
    }
  }

  // The call is between a latch and its last unlocked step but one.
  predicate PastLatch(t: Thread) {
    t.pc.ToFirstChunk? || t.pc.ToEnd? || t.pc.ToRecord? || t.pc.ToAttribute?
  }

  // The call may still read one of those fields. End reads them for a
  // streaming operation only.
  predicate WillRead(m: Shared, t: Thread) {
    t.pc.ToFirstChunk? || (m.streaming && (t.pc.ToEnd? || t.pc.ToRecord? || t.pc.ToAttribute?))
  }

  predicate DirectEnd(calls: seq<Call>) {
    exists i | 0 <= i < |calls| :: calls[i].End?
  }

  predicate OutputChunk(calls: seq<Call>) {
    exists i | 0 <= i < |calls| :: calls[i].ObserveChunk? && calls[i].isOutput
  }

  ghost predicate EndsAfterStream(sys: System) {
    && (sys.mem.opFinalized ==> sys.mem.finalized)
    && (forall i | 0 <= i < |sys.threads| :: !sys.threads[i].call.End?)
    && (forall i | 0 <= i < |sys.threads| && PastLatch(sys.threads[i]) :: sys.mem.finalized)
  }

  lemma TickKeepsEndsAfterStream(sys: System, tick: Tick)
    requires AllWellFormed(sys.threads) && EndsAfterStream(sys)
    ensures EndsAfterStream(TickSystem(sys, tick))
  {
    if tick.tid < |sys.threads| {
      ActLatches(sys.mem, sys.threads[tick.tid], tick.now);
    }
  }

  lemma {:induction false} RunKeepsEndsAfterStream(sys: System, schedule: seq<Tick>, n: nat)
    requires AllWellFormed(sys.threads) && n <= |schedule| && EndsAfterStream(sys)
    ensures EndsAfterStream(At(sys, schedule, n))
  {
    if n == 0 {
    } else {
      RunKeepsEndsAfterStream(sys, schedule, n - 1);
      TickKeepsEndsAfterStream(At(sys, schedule, n - 1), schedule[n - 1]);
    }
  }

  lemma {:induction false} NoChunks(sys: System, schedule: seq<Tick>, n: nat)
    requires AllWellFormed(sys.threads) && n <= |schedule|
    requires forall i | 0 <= i < |sys.threads| :: !(sys.threads[i].call.ObserveChunk? && sys.threads[i].call.isOutput)
    ensures Unlocked(At(sys, schedule, n).mem) == Unlocked(sys.mem)
  {
    if n == 0 {
    } else {
      NoChunks(sys, schedule, n - 1);
      var before, tick := At(sys, schedule, n - 1), schedule[n - 1];
      if tick.tid < |before.threads| {
        ActLatches(before.mem, before.threads[tick.tid], tick.now);
      }
    }
  }

  // From the moment a call has latched until it has read them, the fields
  // keep their values, whatever else runs.
  ghost predicate ReadsAreFrozen(start: Time, streaming: bool, calls: seq<Call>) {
    forall schedule, i: nat, j: nat, tid: nat ::
      i <= j <= |schedule| && tid < |calls| && Reads(At(Initial(start, streaming, calls), schedule, i), tid) ==>
      Unlocked(At(Initial(start, streaming, calls), schedule, j).mem) == Unlocked(At(Initial(start, streaming, calls), schedule, i).mem)
  }

  predicate Reads(sys: System, tid: nat) {
    tid < |sys.threads| && WillRead(sys.mem, sys.threads[tid])
  }

  // That holds exactly if the operation is not a streaming one, or End is
  // only reached through FinalizeStream, or the stream has no output at all.
  lemma ReadsAreFrozenIff(start: Time, streaming: bool, calls: seq<Call>)
    ensures ReadsAreFrozen(start, streaming, calls) <==> !streaming || !DirectEnd(calls) || !OutputChunk(calls)
  {
    var sys := Initial(start, streaming, calls);
    if !streaming || !DirectEnd(calls) || !OutputChunk(calls) {
      forall schedule, i: nat, j: nat, tid: nat | i <= j <= |schedule| && tid < |calls| && Reads(At(sys, schedule, i), tid)
        ensures Unlocked(At(sys, schedule, j).mem) == Unlocked(At(sys, schedule, i).mem)
      {
        ReadIsFrozen(start, streaming, calls, schedule, i, j, tid);
      }
    } else {
      var e :| 0 <= e < |calls| && calls[e].End?;
      var o :| 0 <= o < |calls| && calls[o].ObserveChunk? && calls[o].isOutput;
      ChunkAfterEnd(start, calls, e, o);
    }
  }

  lemma ReadIsFrozen(start: Time, streaming: bool, calls: seq<Call>, schedule: seq<Tick>, i: nat, j: nat, tid: nat)
    requires !streaming || !DirectEnd(calls) || !OutputChunk(calls)
    requires i <= j <= |schedule| && tid < |calls| && Reads(At(Initial(start, streaming, calls), schedule, i), tid)
    ensures Unlocked(At(Initial(start, streaming, calls), schedule, j).mem) == Unlocked(At(Initial(start, streaming, calls), schedule, i).mem)
  {
    var sys := Initial(start, streaming, calls);
    if !streaming {
      RunKeepsLatched(sys, schedule, i, tid);
      assert At(sys, schedule, i).threads[tid].call.FinalizeStream?;
      FrozenOnceFinalized(sys, schedule, i, j);
    } else if !DirectEnd(calls) {
      RunKeepsEndsAfterStream(sys, schedule, i);
      FrozenOnceFinalized(sys, schedule, i, j);
    } else {
      NoChunks(sys, schedule, i);
      NoChunks(sys, schedule, j);
    }
  }

  // A chunk observed while a direct End of a streaming operation is under way
  // changes them.
  lemma ChunkAfterEnd(start: Time, calls: seq<Call>, e: nat, o: nat)
    requires e < |calls| && o < |calls| && calls[e].End? && calls[o].ObserveChunk? && calls[o].isOutput
    ensures var sys, schedule := Initial(start, true, calls), [Tick(e, 0), Tick(o, 0)];
            && Reads(At(sys, schedule, 1), e)
            && Unlocked(At(sys, schedule, 2).mem) != Unlocked(At(sys, schedule, 1).mem)
  {
    var sys, schedule := Initial(start, true, calls), [Tick(e, 0), Tick(o, 0)];
    assert At(sys, schedule, 0) == sys;
    assert At(sys, schedule, 1) == TickSystem(sys, Tick(e, 0));
    assert At(sys, schedule, 2) == TickSystem(At(sys, schedule, 1), Tick(o, 0));
  }

  // ---- The span attribute and the metric ----

  // Both copies of the first-chunk time agree, and everything recorded about
  // it is the distance from the start to that one time.
  ghost predicate FirstChunkAgrees(m: Shared) {
    && m.hasFirst == m.opHasFirst && (m.hasFirst ==> m.first == m.opFirst)
    && forall i | 0 <= i < |m.log| ::
         && (m.log[i].FirstChunk? ==> m.hasFirst && m.log[i].duration == m.first - m.start)
         && (m.log[i].FirstChunkAttribute? ==> m.streaming && m.hasFirst && m.log[i].duration == m.first - m.start)
  }

  lemma ActKeepsAgreement(m: Shared, t: Thread, now: Time)
    requires WellFormed(t) && FirstChunkAgrees(m)
    ensures FirstChunkAgrees(Act(m, t, now).0)
  {
    if t.pc.ToRecord? {
      assert Act(m, t, now).0 == m.(log := Act(m, t, now).0.log);
    }
  }

  lemma {:induction false} RunKeepsAgreement(sys: System, schedule: seq<Tick>, n: nat)
    requires AllWellFormed(sys.threads) && n <= |schedule| && FirstChunkAgrees(sys.mem)
    ensures FirstChunkAgrees(At(sys, schedule, n).mem)
  {
    if n == 0 {
    } else {
      RunKeepsAgreement(sys, schedule, n - 1);
      var before, tick := At(sys, schedule, n - 1), schedule[n - 1];
      if tick.tid < |before.threads| {
        ActKeepsAgreement(before.mem, before.threads[tick.tid], tick.now);
      }
    }
  }

  // The attribute has been set, unless the calls still owe it or there was no
  // first chunk.
  ghost predicate AttributeSet(sys: System) {
    sys.mem.opFinalized && sys.mem.streaming && sys.mem.opHasFirst ==>
      Sum(sys.mem.log, Is(KAttribute)) + Sum(sys.threads, Owes(KAttribute)) == 1
  }

  lemma ActOwesAttribute(m: Shared, t: Thread, now: Time)
    requires WellFormed(t) && (m.opFinalized ==> m.finalized)
    ensures var (m', pc) := Act(m, t, now);
            var made, before, after := Bit(Makes(m, t, KAttribute)), Owes(KAttribute)(t), Owes(KAttribute)(t.(pc := pc));
            m'.opFinalized && m'.streaming && m'.opHasFirst ==>
              m.streaming && m.opHasFirst == m'.opHasFirst && made + after == before + Bit(!m.opFinalized)
  {
  }

  lemma TickKeepsAttributeSet(sys: System, tick: Tick)
    requires AllWellFormed(sys.threads) && EndsAfterStream(sys) && AttributeSet(sys)
    requires !sys.mem.opFinalized ==> Counted(sys, KAttribute)
    ensures AttributeSet(TickSystem(sys, tick))
  {
    if tick.tid < |sys.threads| {
      var t := sys.threads[tick.tid];
      ActMakes(sys.mem, t, tick.now, KAttribute);
      ActOwesAttribute(sys.mem, t, tick.now);
      SumAppend(sys.mem.log, Added(sys.mem, t, tick.now), Is(KAttribute));
      SumUpdate(sys.threads, tick.tid, t.(pc := Act(sys.mem, t, tick.now).1), Owes(KAttribute));
    }
  }

  ghost predicate AttributeOwed(sys: System) {
    EndsAfterStream(sys) && AttributeSet(sys) && Counted(sys, KAttribute)
  }

  lemma {:induction false} RunKeepsAttributeOwed(sys: System, schedule: seq<Tick>, n: nat)
    requires AllWellFormed(sys.threads) && n <= |schedule| && AttributeOwed(sys)
    ensures AttributeOwed(At(sys, schedule, n))
  {
    if n == 0 {
    } else {
      RunKeepsAttributeOwed(sys, schedule, n - 1);
      var before, tick := At(sys, schedule, n - 1), schedule[n - 1];
      TickKeepsEndsAfterStream(before, tick);
      TickKeepsCounted(before, tick, KAttribute);
      TickKeepsAttributeSet(before, tick);
    }
  }

  // Whenever the time to the first chunk is recorded, on the span or on the
  // instrument, it is the same value; and for a streaming operation that is
  // ended through its stream, once all calls are through, it is recorded on
  // the one exactly as often as on the other.
  lemma AttributeEqualsMetric(start: Time, streaming: bool, calls: seq<Call>, schedule: seq<Tick>, n: nat)
    requires n <= |schedule|
    ensures var sys := At(Initial(start, streaming, calls), schedule, n);
            && (forall i, j | 0 <= i < |sys.mem.log| && 0 <= j < |sys.mem.log| ::
                  sys.mem.log[i].FirstChunk? && sys.mem.log[j].FirstChunkAttribute? ==>
                    sys.mem.log[i].duration == sys.mem.log[j].duration)
            && (AllDone(sys.threads) && streaming && !DirectEnd(calls) ==>
                  Sum(sys.mem.log, Is(KAttribute)) == Sum(sys.mem.log, Is(KFirstChunk)))
  {
    var initial := Initial(start, streaming, calls);
    var sys := At(initial, schedule, n);
    RunKeepsAgreement(initial, schedule, n);
    if AllDone(sys.threads) && streaming && !DirectEnd(calls) {
      InitialCounts(start, streaming, calls, schedule, 0, KAttribute);
      InitialCounts(start, streaming, calls, schedule, n, KFirstChunk);
      RunKeepsAttributeOwed(initial, schedule, n);
      FinalizationArrives(initial, schedule, n);
      RecordedAlike(sys);
    }
  }

  lemma RecordedAlike(sys: System)
    requires AllDone(sys.threads) && sys.mem.streaming && FirstChunkAgrees(sys.mem) && Arriving(sys)
    requires AttributeOwed(sys) && Counted(sys, KFirstChunk)
    ensures Sum(sys.mem.log, Is(KAttribute)) == Sum(sys.mem.log, Is(KFirstChunk))
  {
    SumZero(sys.threads, Owes(KAttribute));
    SumZero(sys.threads, Owes(KFirstChunk));
    SumZero(sys.threads, OnItsWay());
    if !sys.mem.hasFirst {
      SumZero(sys.mem.log, Is(KAttribute));
    }
  }

  // ---- Chunk intervals ----

  // The tick observes an output chunk of a stream not finalized yet.
  predicate Accepts(sys: System, tick: Tick) {
    && tick.tid < |sys.threads| && sys.threads[tick.tid].pc.Ready?
    && sys.threads[tick.tid].call.ObserveChunk? && sys.threads[tick.tid].call.isOutput && !sys.mem.finalized
  }

  // The times of the output chunks observed before finalization.
  ghost function Chunks(sys: System, schedule: seq<Tick>, n: nat): seq<Time>
    requires AllWellFormed(sys.threads) && n <= |schedule|
  {
    if n == 0 then []
    else Chunks(sys, schedule, n - 1) + if Accepts(At(sys, schedule, n - 1), schedule[n - 1]) then [schedule[n - 1].now] else []
  }

  function Intervals(log: seq<Recording>): seq<Time> {
    if log == [] then []
    else Intervals(log[..|log| - 1]) + if log[|log| - 1].Interval? then [log[|log| - 1].duration] else []
  }

  lemma {:induction false} IntervalsAppend(a: seq<Recording>, b: seq<Recording>)
    ensures Intervals(a + b) == Intervals(a) + Intervals(b)
  {
    if b == [] {
      assert a + b == a;
    } else {
      IntervalsAppend(a, b[..|b| - 1]);
      assert (a + b)[..|a| + |b| - 1] == a + b[..|b| - 1];
    }
  }

  lemma {:induction false} NoIntervals(s: seq<Recording>)
    requires forall i | 0 <= i < |s| :: !s[i].Interval?
    ensures Intervals(s) == []
  {
    if s == [] {
    } else {
      NoIntervals(s[..|s| - 1]);
    }
  }

  function Gaps(times: seq<Time>): (gaps: seq<Time>)
    ensures |gaps| == if times == [] then 0 else |times| - 1
    ensures forall i | 0 <= i < |gaps| :: gaps[i] == times[i + 1] - times[i]
  {
    if times == [] then [] else seq(|times| - 1, i requires 0 <= i < |times| - 1 => times[i + 1] - times[i])
  }

  // The stream state and the log tell exactly which chunks came when.
  predicate Tells(m: Shared, times: seq<Time>) {
    && m.hasFirst == (times != [])
    && (times != [] ==> m.first == times[0] && m.prev == times[|times| - 1])
    && Intervals(m.log) == Gaps(times)
  }

  lemma AddedIntervals(m: Shared, t: Thread, now: Time)
    requires WellFormed(t) && !(t.pc.Ready? && t.call.ObserveChunk? && t.call.isOutput && !m.finalized)
    ensures forall i | 0 <= i < |Added(m, t, now)| :: !Added(m, t, now)[i].Interval?
    ensures var m' := Act(m, t, now).0; m'.hasFirst == m.hasFirst && m'.first == m.first && m'.prev == m.prev
  {
    if t.pc.ToRecord? {
      assert Added(m, t, now) == [Outcome(t.pc.resp, t.pc.err), OperationDuration(now - m.start)] + TokenRecordings(t.pc.resp.usage);
    }
  }

  lemma GapsOneMore(times: seq<Time>, now: Time)
    ensures Gaps(times + [now]) == Gaps(times) + if times != [] then [now - times[|times| - 1]] else []
  {
    var more, gaps := Gaps(times + [now]), Gaps(times) + if times != [] then [now - times[|times| - 1]] else [];
    assert |more| == |gaps|;
    forall i | 0 <= i < |more| ensures more[i] == gaps[i] {
    }
  }

  lemma ObserveTells(m: Shared, now: Time, times: seq<Time>)
    requires !m.finalized && Tells(m, times)
    ensures Tells(Observe(m, true, now), times + [now])
  {
    GapsOneMore(times, now);
    OneInterval(now - m.prev);
    IntervalsAppend(m.log, [Interval(now - m.prev)]);
  }

  lemma OtherTells(m: Shared, t: Thread, now: Time, times: seq<Time>)
    requires WellFormed(t) && !(t.pc.Ready? && t.call.ObserveChunk? && t.call.isOutput && !m.finalized) && Tells(m, times)
    ensures Tells(Act(m, t, now).0, times)
  {
    AddedIntervals(m, t, now);
    NoIntervals(Added(m, t, now));
    IntervalsAppend(m.log, Added(m, t, now));
  }

  lemma TickTells(sys: System, tick: Tick, times: seq<Time>)
    requires AllWellFormed(sys.threads) && Tells(sys.mem, times)
    ensures Tells(TickSystem(sys, tick).mem, times + if Accepts(sys, tick) then [tick.now] else [])
  {
    assert times + [] == times;
    if Accepts(sys, tick) {
      ObserveTells(sys.mem, tick.now, times);
    } else if tick.tid < |sys.threads| {
      OtherTells(sys.mem, sys.threads[tick.tid], tick.now, times);
    }
  }

  lemma OneInterval(d: Time)
    ensures Intervals([Interval(d)]) == [d]
  {
    assert [Interval(d)][..0] == [];
  }

  lemma {:induction false} RunTells(sys: System, schedule: seq<Tick>, n: nat)
    requires AllWellFormed(sys.threads) && n <= |schedule| && Tells(sys.mem, [])
    ensures Tells(At(sys, schedule, n).mem, Chunks(sys, schedule, n))
  {
    if n == 0 {
    } else {
      RunTells(sys, schedule, n - 1);
      TickTells(At(sys, schedule, n - 1), schedule[n - 1], Chunks(sys, schedule, n - 1));
    }
  }

  function Total(durations: seq<Time>): Time {
    if durations == [] then 0 else Total(durations[..|durations| - 1]) + durations[|durations| - 1]
  }

  lemma {:induction false} GapsTelescope(times: seq<Time>)
    requires times != []
    ensures Total(Gaps(times)) == times[|times| - 1] - times[0]
  {
    if |times| <= 1 {
    } else {
      var most, last := times[..|times| - 1], times[|times| - 1];
      GapsTelescope(most);
      assert times == most + [last];
      GapsOneMore(most, last);
      assert Gaps(times)[..|times| - 2] == Gaps(most);
    }
  }

  predicate Monotone(start: Time, schedule: seq<Tick>) {
    && (forall i | 0 <= i < |schedule| :: start <= schedule[i].now)
    && (forall i, j | 0 <= i < j < |schedule| :: schedule[i].now <= schedule[j].now)
  }

  predicate Ascending(times: seq<Time>, lo: Time, hi: Time) {
    && (forall i | 0 <= i < |times| :: lo <= times[i] <= hi)
    && (forall i, j | 0 <= i < j < |times| :: times[i] <= times[j])
  }

  lemma {:induction false} ChunksAscend(sys: System, schedule: seq<Tick>, n: nat)
    requires AllWellFormed(sys.threads) && n <= |schedule| && Monotone(sys.mem.start, schedule)
    ensures Ascending(Chunks(sys, schedule, n), sys.mem.start, if n == 0 then sys.mem.start else schedule[n - 1].now)
  {
    if n == 0 {
    } else {
      ChunksAscend(sys, schedule, n - 1);
      var before := Chunks(sys, schedule, n - 1);
      assert Ascending(before, sys.mem.start, schedule[n - 1].now);
      assert Ascending(before + [schedule[n - 1].now], sys.mem.start, schedule[n - 1].now);
      assert before + [] == before;
    }
  }

  // In every interleaving: k output chunks before finalization leave
  // max(0, k - 1) intervals, which with the time to the first chunk add up to
  // the time from the start to the last chunk.
  lemma IntervalsTelescope(start: Time, streaming: bool, calls: seq<Call>, schedule: seq<Tick>, n: nat)
    requires n <= |schedule|
    ensures var m := At(Initial(start, streaming, calls), schedule, n).mem;
            var times := Chunks(Initial(start, streaming, calls), schedule, n);
            && m.hasFirst == (times != [])
            && |Intervals(m.log)| == (if times == [] then 0 else |times| - 1)
            && (times != [] ==> m.first == times[0] && (m.first - start) + Total(Intervals(m.log)) == times[|times| - 1] - start)
  {
    var initial := Initial(start, streaming, calls);
    RunTells(initial, schedule, n);
    if Chunks(initial, schedule, n) != [] {
      GapsTelescope(Chunks(initial, schedule, n));
    }
  }

  // With a monotone clock nothing recorded about the chunks is negative.
  lemma TimesNotNegative(start: Time, streaming: bool, calls: seq<Call>, schedule: seq<Tick>, n: nat, i: nat)
    requires n <= |schedule| && Monotone(start, schedule)
    requires i < |At(Initial(start, streaming, calls), schedule, n).mem.log|
    ensures var r := At(Initial(start, streaming, calls), schedule, n).mem.log[i];
            r.Interval? || r.FirstChunk? || r.FirstChunkAttribute? ==> r.duration >= 0
  {
    var initial := Initial(start, streaming, calls);
    var m := At(initial, schedule, n).mem;
    RunTells(initial, schedule, n);
    RunKeepsAgreement(initial, schedule, n);
    ChunksAscend(initial, schedule, n);
    if m.log[i].Interval? {
      IntervalListed(m.log, i);
    }
  }

  lemma {:induction false} IntervalListed(log: seq<Recording>, i: nat)
    requires i < |log| && log[i].Interval?
    ensures log[i].duration in Intervals(log)
  {
    if i == |log| - 1 {
    } else {
      IntervalListed(log[..|log| - 1], i);
    }
  }

  // ---- The outcome ----

  // The response and error come from one of the calls, as FinalizeStream or
  // a direct End passes them on.
  predicate Passes(call: Call, resp: Response, err: Option<StreamError>) {
    match call
    case ObserveChunk(_) => false
    case FinalizeStream(terminal, r, e) => resp == FinalResponse(terminal, r) && err == FinalError(terminal, e)
    case End(r, e) => resp == r && err == e
  }

  ghost predicate OutcomesPassed(sys: System) {
    && (forall i | 0 <= i < |sys.threads| && (sys.threads[i].pc.ToEnd? || sys.threads[i].pc.ToRecord?) ::
          Passes(sys.threads[i].call, sys.threads[i].pc.resp, sys.threads[i].pc.err))
    && (forall j | 0 <= j < |sys.mem.log| && sys.mem.log[j].Outcome? ::
          exists i | 0 <= i < |sys.threads| :: Passes(sys.threads[i].call, sys.mem.log[j].resp, sys.mem.log[j].err))
  }

  lemma ActPasses(m: Shared, t: Thread, now: Time)
    requires WellFormed(t) && (t.pc.ToEnd? || t.pc.ToRecord? ==> Passes(t.call, t.pc.resp, t.pc.err))
    ensures var pc := Act(m, t, now).1; pc.ToEnd? || pc.ToRecord? ==> Passes(t.call, pc.resp, pc.err)
    ensures forall j | 0 <= j < |Added(m, t, now)| && Added(m, t, now)[j].Outcome? ::
              Passes(t.call, Added(m, t, now)[j].resp, Added(m, t, now)[j].err)
  {
  }

  lemma TickKeepsPassed(sys: System, tick: Tick)
    requires AllWellFormed(sys.threads) && OutcomesPassed(sys)
    ensures OutcomesPassed(TickSystem(sys, tick))
  {
    if tick.tid < |sys.threads| {
      var t := sys.threads[tick.tid];
      var sys' := TickSystem(sys, tick);
      ActPasses(sys.mem, t, tick.now);
      assert sys'.threads[tick.tid].call == t.call;
      forall j | 0 <= j < |sys'.mem.log| && sys'.mem.log[j].Outcome?
        ensures exists i | 0 <= i < |sys'.threads| :: Passes(sys'.threads[i].call, sys'.mem.log[j].resp, sys'.mem.log[j].err)
      {
        if j < |sys.mem.log| {
          var i :| 0 <= i < |sys.threads| && Passes(sys.threads[i].call, sys.mem.log[j].resp, sys.mem.log[j].err);
          assert sys'.threads[i].call == sys.threads[i].call;
        } else {
          assert sys'.mem.log[j] == Added(sys.mem, t, tick.now)[j - |sys.mem.log|];
        }
      }
    }
  }

  lemma {:induction false} RunKeepsPassed(sys: System, schedule: seq<Tick>, n: nat)
    requires AllWellFormed(sys.threads) && n <= |schedule| && OutcomesPassed(sys)
    ensures OutcomesPassed(At(sys, schedule, n))
  {
    if n == 0 {
    } else {
      RunKeepsPassed(sys, schedule, n - 1);
      TickKeepsPassed(At(sys, schedule, n - 1), schedule[n - 1]);
    }
  }

  // The one outcome recorded for an operation ended through its stream is
  // what one of the finalizations asked for: finish reason "error" exactly if
  // it saw no terminal event, and then an error, the early-close sentinel
  // unless it had one of its own.
  lemma OutcomeOfFinalization(start: Time, streaming: bool, calls: seq<Call>, schedule: seq<Tick>, n: nat, j: nat)
    returns (i: nat)
    requires n <= |schedule| && !DirectEnd(calls)
    requires j < |At(Initial(start, streaming, calls), schedule, n).mem.log|
    requires At(Initial(start, streaming, calls), schedule, n).mem.log[j].Outcome?
    ensures i < |calls| && calls[i].FinalizeStream?
    ensures var r := At(Initial(start, streaming, calls), schedule, n).mem.log[j];
            && r.resp == (if calls[i].terminal then calls[i].resp else calls[i].resp.(finishReasons := ["error"]))
            && r.err == (if calls[i].err.Some? || calls[i].terminal then calls[i].err else Some(ClosedEarly))
  {
    var initial := Initial(start, streaming, calls);
    RunKeepsPassed(initial, schedule, n);
    var sys := At(initial, schedule, n);
    i :| 0 <= i < |sys.threads| && Passes(sys.threads[i].call, sys.mem.log[j].resp, sys.mem.log[j].err);
    assert sys.threads[i].call == calls[i];
  }

  // ---- What the end of the operation records ----

  function InputCounts(): Recording -> seq<int> {
    (r: Recording) => if r.InputTokens? then [r.count] else []
  }

  function OutputCounts(): Recording -> seq<int> {
    (r: Recording) => if r.OutputTokens? then [r.count] else []
  }

  function Positive(count: int): seq<int> {
    if count > 0 then [count] else []
  }

  // The counts the recorded outcomes call for.
  function InputsOwed(): Recording -> seq<int> {
    (r: Recording) => if r.Outcome? then Positive(r.resp.usage.inputTokens) else []
  }

  function OutputsOwed(): Recording -> seq<int> {
    (r: Recording) => if r.Outcome? then Positive(r.resp.usage.outputTokens) else []
  }

  predicate TokensTold(log: seq<Recording>) {
    && Collect(log, InputCounts()) == Collect(log, InputsOwed())
    && Collect(log, OutputCounts()) == Collect(log, OutputsOwed())
  }

  lemma TokensAppend(a: seq<Recording>, b: seq<Recording>)
    requires TokensTold(a) && TokensTold(b)
    ensures TokensTold(a + b)
  {
    CollectAppend(a, b, InputCounts());
    CollectAppend(a, b, InputsOwed());
    CollectAppend(a, b, OutputCounts());
    CollectAppend(a, b, OutputsOwed());
  }

  lemma UsageTold(usage: Usage)
    ensures Collect(TokenRecordings(usage), InputCounts()) == Positive(usage.inputTokens)
    ensures Collect(TokenRecordings(usage), OutputCounts()) == Positive(usage.outputTokens)
  {
    CollectFew(TokenRecordings(usage), InputCounts());
    CollectFew(TokenRecordings(usage), OutputCounts());
  }

  lemma UsageOwesNothing(usage: Usage)
    ensures Collect(TokenRecordings(usage), InputsOwed()) == Collect(TokenRecordings(usage), OutputsOwed()) == []
  {
    CollectNone(TokenRecordings(usage), InputsOwed());
    CollectNone(TokenRecordings(usage), OutputsOwed());
  }

  // What f makes of an outcome, a duration and more.
  lemma RecordCollect(resp: Response, err: Option<StreamError>, d: Time, more: seq<Recording>, f: Recording -> seq<int>)
    requires f(OperationDuration(d)) == []
    ensures Collect([Outcome(resp, err), OperationDuration(d)] + more, f) == f(Outcome(resp, err)) + Collect(more, f)
  {
    var first := [Outcome(resp, err), OperationDuration(d)];
    CollectAppend(first, more, f);
    CollectFew(first, f);
  }

  lemma RecordTold(resp: Response, err: Option<StreamError>, d: Time)
    ensures TokensTold([Outcome(resp, err), OperationDuration(d)] + TokenRecordings(resp.usage))
  {
    var more := TokenRecordings(resp.usage);
    UsageTold(resp.usage);
    UsageOwesNothing(resp.usage);
    RecordCollect(resp, err, d, more, InputCounts());
    RecordCollect(resp, err, d, more, InputsOwed());
    RecordCollect(resp, err, d, more, OutputCounts());
    RecordCollect(resp, err, d, more, OutputsOwed());
  }

  predicate OnEnding(r: Recording) {
    r.Outcome? || r.InputTokens? || r.OutputTokens?
  }

  lemma OtherAdds(m: Shared, t: Thread, now: Time)
    requires WellFormed(t) && !t.pc.ToRecord?
    ensures var added := Added(m, t, now); forall i | 0 <= i < |added| :: !OnEnding(added[i])
  {
  }

  lemma NothingTold(added: seq<Recording>)
    requires forall i | 0 <= i < |added| :: !OnEnding(added[i])
    ensures TokensTold(added)
  {
    CollectNone(added, InputCounts());
    CollectNone(added, InputsOwed());
    CollectNone(added, OutputCounts());
    CollectNone(added, OutputsOwed());
  }

  lemma ActTold(m: Shared, t: Thread, now: Time)
    requires WellFormed(t)
    ensures TokensTold(Added(m, t, now))
  {
    if t.pc.ToRecord? {
      RecordTold(t.pc.resp, t.pc.err, now - m.start);
      assert Added(m, t, now) == [Outcome(t.pc.resp, t.pc.err), OperationDuration(now - m.start)] + TokenRecordings(t.pc.resp.usage);
    } else {
      OtherAdds(m, t, now);
      NothingTold(Added(m, t, now));
    }
  }

  lemma {:induction false} RunTellsTokens(sys: System, schedule: seq<Tick>, n: nat) returns (log: seq<Recording>)
    requires AllWellFormed(sys.threads) && n <= |schedule| && sys.mem.log == []
    ensures log == At(sys, schedule, n).mem.log && TokensTold(log)
  {
    if n == 0 {
      log := [];
    } else {
      var before := RunTellsTokens(sys, schedule, n - 1);
      log := TickTellsTokens(At(sys, schedule, n - 1), schedule[n - 1], before);
    }
  }

  lemma TickTellsTokens(sys: System, tick: Tick, log: seq<Recording>) returns (log': seq<Recording>)
    requires AllWellFormed(sys.threads) && log == sys.mem.log && TokensTold(log)
    ensures log' == TickSystem(sys, tick).mem.log && TokensTold(log')
  {
    log' := log;
    if tick.tid < |sys.threads| {
      var t := sys.threads[tick.tid];
      ActTold(sys.mem, t, tick.now);
      TokensAppend(log, Added(sys.mem, t, tick.now));
      log' := log + Added(sys.mem, t, tick.now);
    }
  }

  // In every interleaving: with an outcome in the log, the log has the input
  // tokens of its response once if there are any, and none otherwise; the
  // same for the output tokens. Without an outcome it has none.
  lemma TokensRecorded(start: Time, streaming: bool, calls: seq<Call>, schedule: seq<Tick>, n: nat)
    requires n <= |schedule|
    ensures var log := At(Initial(start, streaming, calls), schedule, n).mem.log;
            && (forall j | 0 <= j < |log| && log[j].Outcome? ::
                  && Collect(log, InputCounts()) == Positive(log[j].resp.usage.inputTokens)
                  && Collect(log, OutputCounts()) == Positive(log[j].resp.usage.outputTokens))
            && ((forall j | 0 <= j < |log| :: !log[j].Outcome?) ==>
                  Collect(log, InputCounts()) == Collect(log, OutputCounts()) == [])
  {
    var log := RunTellsTokens(Initial(start, streaming, calls), schedule, n);
    FinalizedOnce(start, streaming, calls, schedule, n, KOutcome);
    forall j | 0 <= j < |log| && log[j].Outcome?
      ensures Collect(log, InputCounts()) == Positive(log[j].resp.usage.inputTokens)
      ensures Collect(log, OutputCounts()) == Positive(log[j].resp.usage.outputTokens)
    {
      OnlyOutcome(log, j);
    }
    if forall j | 0 <= j < |log| :: !log[j].Outcome? {
      CollectNone(log, InputsOwed());
      CollectNone(log, OutputsOwed());
    }
  }

  lemma OnlyOutcome(log: seq<Recording>, j: nat)
    requires j < |log| && log[j].Outcome? && Sum(log, Is(KOutcome)) <= 1
    ensures Collect(log, InputsOwed()) == Positive(log[j].resp.usage.inputTokens)
    ensures Collect(log, OutputsOwed()) == Positive(log[j].resp.usage.outputTokens)
  {
    forall i | 0 <= i < |log| && i != j ensures !log[i].Outcome? {
      SumTwo(log, if i < j then i else j, if i < j then j else i, Is(KOutcome));
    }
    CollectLone(log, j, InputsOwed());
    CollectLone(log, j, OutputsOwed());
  }

  // The turn that records the end of the operation.
  predicate RecordsEnd(sys: System, tick: Tick, resp: Response, err: Option<StreamError>) {
    tick.tid < |sys.threads| && sys.threads[tick.tid].pc == ToRecord(resp, err)
  }

  // In every interleaving: behind an outcome comes the duration of the
  // operation, from its start to the turn that records both.
  lemma {:induction false} EndRecorded(sys: System, schedule: seq<Tick>, n: nat, j: nat) returns (k: nat)
    requires AllWellFormed(sys.threads) && n <= |schedule| && |sys.mem.log| <= j < |At(sys, schedule, n).mem.log|
    requires At(sys, schedule, n).mem.log[j].Outcome?
    ensures var log := At(sys, schedule, n).mem.log;
            && k < n && RecordsEnd(At(sys, schedule, k), schedule[k], log[j].resp, log[j].err)
            && j + 1 < |log| && log[j + 1] == OperationDuration(schedule[k].now - sys.mem.start)
  {
    var before, tick := At(sys, schedule, n - 1), schedule[n - 1];
    TickRecords(before, tick, j);
    if j < |before.mem.log| {
      k := EndRecorded(sys, schedule, n - 1, j);
    } else {
      k := n - 1;
    }
  }

  lemma TickRecords(sys: System, tick: Tick, j: nat)
    requires AllWellFormed(sys.threads)
    ensures var log, log' := sys.mem.log, TickSystem(sys, tick).mem.log;
            && log <= log'
            && (|log| <= j < |log'| && log'[j].Outcome? ==>
                  RecordsEnd(sys, tick, log'[j].resp, log'[j].err)
                  && j + 1 < |log'| && log'[j + 1] == OperationDuration(tick.now - sys.mem.start))
  {
    if tick.tid < |sys.threads| {
      var t := sys.threads[tick.tid];
      if t.pc.ToRecord? {
        assert Added(sys.mem, t, tick.now)
            == [Outcome(t.pc.resp, t.pc.err), OperationDuration(tick.now - sys.mem.start)] + TokenRecordings(t.pc.resp.usage);
      }
    }
  }
}
