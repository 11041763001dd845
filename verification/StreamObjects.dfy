// Whole runs on the stream objects are runs of the system of stream calls: one
// schedule among all those that the theorems about interleavings cover.
module StreamObjects {
  import opened Types
  import opened Streaming
  import opened Stream

  lemma {:induction false} AtPrefix(sys: System, a: seq<Tick>, b: seq<Tick>, n: nat)
    requires AllWellFormed(sys.threads) && n <= |a|
    ensures At(sys, a + b, n) == At(sys, a, n)
  {
    if n == 0 {
    } else {
      AtPrefix(sys, a, b, n - 1);
    }
  }

  // The system after the whole schedule.
  ghost function Last(start: System, schedule: seq<Tick>): System
    requires AllWellFormed(start.threads)
  {
    At(start, schedule, |schedule|)
  }

  lemma LastOneMore(start: System, schedule: seq<Tick>, tick: Tick)
    requires AllWellFormed(start.threads)
    ensures Last(start, schedule + [tick]) == TickSystem(Last(start, schedule), tick)
  {
    AtPrefix(start, schedule, [tick], |schedule|);
  }

  // From here to there call tid has run to its end, and nothing else.
  ghost predicate RanAlone(sys: System, after: System, tid: nat, now: Time)
    requires AllWellFormed(sys.threads) && tid < |sys.threads|
  {
    && after.mem == Complete(sys.mem, sys.threads[tid], now)
    && after.threads == sys.threads[tid := sys.threads[tid].(pc := Done)]
  }

  // The schedule goes on with this call only.
  predicate GoesOn(schedule: seq<Tick>, more: seq<Tick>, tid: nat) {
    schedule <= more && forall i | |schedule| <= i < |more| :: more[i].tid == tid
  }

  lemma {:induction false} RunsAlone(start: System, schedule: seq<Tick>, tid: nat, now: Time) returns (more: seq<Tick>)
    requires AllWellFormed(start.threads) && tid < |start.threads|
    ensures GoesOn(schedule, more, tid) && RanAlone(Last(start, schedule), Last(start, more), tid, now)
    decreases Rank(Last(start, schedule).threads[tid].pc)
  {
    var sys := Last(start, schedule);
    if sys.threads[tid].pc.Done? {
      more := schedule;
      assert sys.threads[tid := sys.threads[tid]] == sys.threads;
    } else {
      var tick := Tick(tid, now);
      LastOneMore(start, schedule, tick);
      more := RunsAlone(start, schedule + [tick], tid, now);
    }
  }

  // The calls move one after the other, in order.
  predicate Serial(schedule: seq<Tick>) {
    forall i, j | 0 <= i < j < |schedule| :: schedule[i].tid <= schedule[j].tid
  }

  predicate SerialUpTo(schedule: seq<Tick>, n: nat) {
    Serial(schedule) && forall i | 0 <= i < |schedule| :: schedule[i].tid < n
  }

  // The first n calls are through, the others have not begun.
  ghost predicate ThroughFirst(sys: System, calls: seq<Call>, n: nat) {
    && AllWellFormed(sys.threads) && |sys.threads| == |calls|
    && forall i | 0 <= i < |calls| :: sys.threads[i] == Thread(calls[i], if i < n then Done else Ready)
  }

  lemma SerialNext(schedule: seq<Tick>, more: seq<Tick>, n: nat)
    requires SerialUpTo(schedule, n) && GoesOn(schedule, more, n)
    ensures SerialUpTo(more, n + 1)
  {
  }

  lemma NextThrough(sys: System, after: System, calls: seq<Call>, n: nat, now: Time)
    requires n < |calls| && ThroughFirst(sys, calls, n) && RanAlone(sys, after, n, now)
    ensures ThroughFirst(after, calls, n + 1) && after.mem == Uninterrupted(sys.mem, calls[n], now)
  {
    UninterruptedIsThread(sys.mem, calls[n], now);
  }

  lemma RunsNext(start: System, calls: seq<Call>, schedule: seq<Tick>, n: nat, now: Time) returns (more: seq<Tick>)
    requires AllWellFormed(start.threads) && n < |calls| && SerialUpTo(schedule, n) && ThroughFirst(Last(start, schedule), calls, n)
    ensures SerialUpTo(more, n + 1) && ThroughFirst(Last(start, more), calls, n + 1)
    ensures Last(start, more).mem == Uninterrupted(Last(start, schedule).mem, calls[n], now)
  {
    more := RunsAlone(start, schedule, n, now);
    SerialNext(schedule, more, n);
    NextThrough(Last(start, schedule), Last(start, more), calls, n, now);
  }

  // One call on the objects.
  method RunCall(s: StreamState, call: Call, now: Time)
    requires s.Valid()
    modifies s, s.op
    ensures s.View() == Uninterrupted(old(s.View()), call, now)
  {
    match call
    case ObserveChunk(isOutput) => Stream.ObserveChunk(s, isOutput, now);
    case FinalizeStream(terminal, resp, err) => Stream.FinalizeStream(s, terminal, resp, err, now);
    case End(resp, err) => Stream.EndOperation(s.op, resp, err, now);
  }

  // Any sequence of calls on a fresh stream state and its operation, each run
  // to its end before the next: fields and recordings are those of the system
  // of calls under a serial schedule, so every theorem about schedules is one
  // about these objects.
  method Replay(s: StreamState, calls: seq<Call>, clock: nat -> Time) returns (ghost schedule: seq<Tick>)
    requires s.Valid() && s.View() == New(s.op.startTime, s.op.streaming)
    modifies s, s.op
    ensures Serial(schedule)
    ensures var sys := Last(Initial(s.op.startTime, s.op.streaming, calls), schedule);
            s.View() == sys.mem && forall i | 0 <= i < |sys.threads| :: sys.threads[i].pc.Done?
  {
    schedule := [];
    ghost var start := Initial(s.op.startTime, s.op.streaming, calls);
    for n := 0 to |calls|
      invariant SerialUpTo(schedule, n) && ThroughFirst(Last(start, schedule), calls, n)
      invariant s.View() == Last(start, schedule).mem
    {
      schedule := RunsNext(start, calls, schedule, n, clock(n));
      RunCall(s, calls[n], clock(n));
    }
  }
}
