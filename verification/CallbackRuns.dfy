// Accounting theorems for any number of callbacks under any interleaving:
// which calls on the instrumenter are made how often.
module CallbackRuns {
  import opened Types
  import opened RegistrySpec
  import opened Sequences
  import Runs = RegistryRuns
  import opened Callbacks

  // ---- Sums over the log ----

  // A weight of events, on the log.
  function Logged(w: Event -> nat): Entry -> nat {
    (e: Entry) => w(e.event)
  }

  lemma {:induction false} SumTag(tid: nat, events: seq<Event>, w: Event -> nat)
    ensures Sum(Tag(tid, events), Logged(w)) == Sum(events, w)
  {
    if events == [] {
    } else {
      var n := |events| - 1;
      SumTag(tid, events[..n], w);
      assert Tag(tid, events)[..n] == Tag(tid, events[..n]);
    }
  }

  lemma SumTagged(log: seq<Entry>, tid: nat, events: seq<Event>, w: Event -> nat)
    ensures Sum(log + Tag(tid, events), Logged(w)) == Sum(log, Logged(w)) + Sum(events, w)
  {
    SumAppend(log, Tag(tid, events), Logged(w));
    SumTag(tid, events, w);
  }

  // The same weight, on the calls a callback still has to make.
  function Unsent(w: Event -> nat): Thread -> nat {
    (t: Thread) => Sum(t.unsent, w)
  }

  // The calls that this turn of the thread brings about.
  function Caused(m: Memory, t: Thread, now: Time): seq<Event>
    requires WellFormed(t)
  {
    if t.unsent == [] then Advance(m, t, now).2 else []
  }

  lemma MoveSends(m: Memory, t: Thread, now: Time, w: Event -> nat)
    requires WellFormed(t)
    ensures var moved := Move(m, t, now);
            Sum(moved.sent, w) + Unsent(w)(moved.thread) == Unsent(w)(t) + Sum(Caused(m, t, now), w)
  {
    if t.unsent != [] {
      SumAppend([t.unsent[0]], t.unsent[1..], w);
      assert [t.unsent[0]] + t.unsent[1..] == t.unsent;
    }
  }

  // What a tick does to the sums: every call it brings about is made, now or
  // later.
  lemma TickSends(sys: System, tick: Tick, w: Event -> nat)
    requires AllWellFormed(sys.threads) && tick.tid < |sys.threads|
    ensures var sys' := TickSystem(sys, tick);
            Sum(sys'.log, Logged(w)) + Sum(sys'.threads, Unsent(w)) ==
            Sum(sys.log, Logged(w)) + Sum(sys.threads, Unsent(w)) + Sum(Caused(sys.mem, sys.threads[tick.tid], tick.now), w)
  {
    var t := sys.threads[tick.tid];
    var moved := Move(sys.mem, t, tick.now);
    MoveSends(sys.mem, t, tick.now, w);
    SumTagged(sys.log, tick.tid, moved.sent, w);
    SumUpdate(sys.threads, tick.tid, moved.thread, Unsent(w));
  }

  lemma NothingUnsent(threads: seq<Thread>, w: Event -> nat)
    requires forall i | 0 <= i < |threads| :: threads[i].unsent == []
    ensures Sum(threads, Unsent(w)) == 0
  {
    SumZero(threads, Unsent(w));
  }

  // ---- The registry runs under a system run ----

  lemma {:induction false} Extended(c: Runs.Counter, trace: seq<Step>, s: Step, key: AgentKey, i: nat)
    requires i <= |trace|
    ensures At(EMPTY, trace + [s], i) == At(EMPTY, trace, i)
    ensures Runs.IncrementsIn(c, trace + [s], key, 0, i) == Runs.IncrementsIn(c, trace, key, 0, i)
    ensures Runs.Total(Runs.Emitted, c, EMPTY, trace + [s], key, i) == Runs.Total(Runs.Emitted, c, EMPTY, trace, key, i)
  {
    if i == 0 {
    } else {
      Extended(c, trace, s, key, i - 1);
    }
  }

  // The registry is where its locked steps so far have brought it.
  ghost predicate Traced(sys: System) {
    AllWellFormed(sys.threads) && sys.mem.reg == Run(EMPTY, sys.trace)
  }

  lemma TickKeepsTraced(sys: System, tick: Tick)
    requires Traced(sys)
    ensures Traced(TickSystem(sys, tick))
  {
    TickKeepsWellFormed(sys, tick);
    if tick.tid < |sys.threads| {
      var t := sys.threads[tick.tid];
      var s := Move(sys.mem, t, tick.now).step;
      if s.Some? {
        var n := |sys.trace|;
        Extended(Runs.Inference, sys.trace, s.value, AgentKey("", "", ""), n);
        assert At(EMPTY, sys.trace + [s.value], n + 1) == Apply(At(EMPTY, sys.trace + [s.value], n), s.value).0;
      } else {
        assert sys.trace + [] == sys.trace;
      }
    }
  }

  // ---- Conservation of call counts ----

  // The metrics of a finished call of this agent are recorded.
  function Ended(c: Runs.Counter, key: AgentKey): Event -> nat {
    (e: Event) => if c == Runs.Inference then (if e.InferenceUsage? && e.key == key then 1 else 0)
         else (if e.ToolDuration? && e.parent == key then 1 else 0)
  }

  // The calls the agent metrics report.
  function Reported(c: Runs.Counter, key: AgentKey): Event -> nat {
    (e: Event) => if c == Runs.Inference then (if e.AgentInferenceCalls? && e.key == key then e.calls else 0)
         else (if e.AgentToolCalls? && e.key == key then e.calls else 0)
  }

  // Callbacks between recording a call's metrics and counting it.
  function InFlight(c: Runs.Counter, key: AgentKey): Thread -> nat {
    (t: Thread) => if c == Runs.Inference then (if t.pc.ToCountInference? && t.cb.AfterModel? && t.cb.key == key then 1 else 0)
         else (if t.pc.ToCountTool? && t.pc.tool.agentKey == key then 1 else 0)
  }

  // What a step adds to a count of registry steps.
  function Adds(s: Option<Step>, c: Runs.Counter, key: AgentKey): nat {
    Bit(s.Some? && Runs.Increments(c, s.value, key))
  }

  lemma FirstCounts(c: Runs.Counter, cb: Callback, ret: Ret, now: Time, key: AgentKey)
    requires Start(cb).pc == Begin
    ensures var (pc, events) := AfterFirst(cb, ret, now); Sum(events, Ended(c, key)) == InFlight(c, key)(Thread(cb, pc))
  {
    SumFew(AfterFirst(cb, ret, now).1, Ended(c, key));
  }

  lemma ResumeCounts(c: Runs.Counter, t: Thread, ret: Ret, now: Time, key: AgentKey)
    requires WellFormed(t) && NextStep(t, now).Some?
    ensures var (pc, events) := Resume(t, ret, now);
            Sum(events, Ended(c, key)) + InFlight(c, key)(t) == InFlight(c, key)(t.(pc := pc)) + Adds(NextStep(t, now), c, key)
  {
    if t.pc.Begin? {
      FirstCounts(c, t.cb, ret, now, key);
    } else {
      SumFew(Resume(t, ret, now).1, Ended(c, key));
    }
  }

  lemma AdvanceCountsOrHolds(c: Runs.Counter, m: Memory, t: Thread, now: Time, key: AgentKey)
    requires WellFormed(t)
    ensures var (m', pc, events) := Advance(m, t, now);
            Sum(events, Ended(c, key)) + InFlight(c, key)(t) == InFlight(c, key)(t.(pc := pc)) + Adds(NextStep(t, now), c, key)
  {
    var s := NextStep(t, now);
    if s.Some? {
      ResumeCounts(c, t, ApplyMemory(m, s.value).1, now, key);
    }
  }

  // The calls reported by afterAgent.
  function ReportedFor(c: Runs.Counter, t: Thread, ret: Ret, key: AgentKey): nat {
    if t.pc.Begin? && t.cb == AfterAgent(key) && ret.RAgent? && ret.agent.Some? then Runs.Calls(c, ret.agent.value) else 0
  }

  lemma ResumeReports(c: Runs.Counter, t: Thread, ret: Ret, now: Time, key: AgentKey)
    requires WellFormed(t) && NextStep(t, now).Some?
    ensures Sum(Resume(t, ret, now).1, Reported(c, key)) == ReportedFor(c, t, ret, key)
  {
    SumFew(Resume(t, ret, now).1, Reported(c, key));
  }

  lemma AdvanceReports(c: Runs.Counter, m: Memory, t: Thread, now: Time, key: AgentKey)
    requires WellFormed(t)
    ensures var s := NextStep(t, now);
            Sum(Advance(m, t, now).2, Reported(c, key))
            == if s.Some? then Runs.Settled(Runs.Emitted, c, m.reg, s.value, key) else 0
  {
    var s := NextStep(t, now);
    if s.Some? {
      ResumeReports(c, t, ApplyMemory(m, s.value).1, now, key);
    }
  }

  lemma MoveCounts(c: Runs.Counter, m: Memory, t: Thread, now: Time, key: AgentKey)
    requires WellFormed(t)
    ensures var moved, caused := Move(m, t, now), Caused(m, t, now);
            && Sum(caused, Ended(c, key)) + InFlight(c, key)(t) == InFlight(c, key)(moved.thread) + Adds(moved.step, c, key)
            && Sum(caused, Reported(c, key))
               == if moved.step.Some? then Runs.Settled(Runs.Emitted, c, m.reg, moved.step.value, key) else 0
  {
    if t.unsent == [] {
      AdvanceCountsOrHolds(c, m, t, now, key);
      AdvanceReports(c, m, t, now, key);
    }
  }

  ghost predicate Balanced(sys: System, c: Runs.Counter, key: AgentKey) {
    && Traced(sys)
    && Sum(sys.log, Logged(Ended(c, key))) + Sum(sys.threads, Unsent(Ended(c, key)))
       == Runs.IncrementsIn(c, sys.trace, key, 0, |sys.trace|) + Sum(sys.threads, InFlight(c, key))
    && Sum(sys.log, Logged(Reported(c, key))) + Sum(sys.threads, Unsent(Reported(c, key)))
       == Runs.Total(Runs.Emitted, c, EMPTY, sys.trace, key, |sys.trace|)
  }

  lemma TickHolds(sys: System, tick: Tick, w: Thread -> nat)
    requires AllWellFormed(sys.threads) && tick.tid < |sys.threads|
    ensures var t := sys.threads[tick.tid];
            Sum(TickSystem(sys, tick).threads, w) + w(t) == Sum(sys.threads, w) + w(Move(sys.mem, t, tick.now).thread)
  {
    SumUpdate(sys.threads, tick.tid, Move(sys.mem, sys.threads[tick.tid], tick.now).thread, w);
  }

  lemma TickKeepsBalanced(sys: System, tick: Tick, c: Runs.Counter, key: AgentKey)
    requires Balanced(sys, c, key)
    ensures Balanced(TickSystem(sys, tick), c, key)
  {
    TickKeepsTraced(sys, tick);
    if tick.tid < |sys.threads| {
      var t := sys.threads[tick.tid];
      TickSends(sys, tick, Ended(c, key));
      TickSends(sys, tick, Reported(c, key));
      TickHolds(sys, tick, InFlight(c, key));
      MoveCounts(c, sys.mem, t, tick.now, key);
      TraceGrows(sys, Move(sys.mem, t, tick.now).step, c, key);
    }
  }

  lemma TraceGrows(sys: System, s: Option<Step>, c: Runs.Counter, key: AgentKey)
    requires Traced(sys)
    ensures var n, trace' := |sys.trace|, sys.trace + Listed(s);
            && Runs.IncrementsIn(c, trace', key, 0, |trace'|) == Runs.IncrementsIn(c, sys.trace, key, 0, n) + Adds(s, c, key)
            && Runs.Total(Runs.Emitted, c, EMPTY, trace', key, |trace'|)
               == Runs.Total(Runs.Emitted, c, EMPTY, sys.trace, key, n)
                  + (if s.Some? then Runs.Settled(Runs.Emitted, c, sys.mem.reg, s.value, key) else 0)
  {
    if s.Some? {
      Extended(c, sys.trace, s.value, key, |sys.trace|);
    } else {
      assert sys.trace + [] == sys.trace;
    }
  }

  lemma {:induction false} RunKeepsBalanced(sys: System, schedule: seq<Tick>, c: Runs.Counter, key: AgentKey)
    requires Balanced(sys, c, key)
    ensures Balanced(Execute(sys, schedule), c, key)
    decreases |schedule|
  {
    if schedule == [] {
    } else {
      TickKeepsBalanced(sys, schedule[0], c, key);
      RunKeepsBalanced(TickSystem(sys, schedule[0]), schedule[1..], c, key);
    }
  }

  // In every interleaving of any callbacks, each call that has ended, whether
  // its metrics are recorded already or still to be recorded, is reported or
  // still to be reported with its agent's metrics, held by the live agent, in
  // flight in a callback, or lost with an overwritten, cleaned-up or absent
  // agent. Once all callbacks are through, nothing is on its way any more.
  lemma CallsAreConserved(cbs: seq<Callback>, schedule: seq<Tick>, c: Runs.Counter, key: AgentKey)
    ensures var sys := Execute(Initial(cbs), schedule);
            var Lost := (f: Runs.Fate) => Runs.Total(f, c, EMPTY, sys.trace, key, |sys.trace|);
            && Sum(sys.log, Logged(Ended(c, key))) + Sum(sys.threads, Unsent(Ended(c, key))) ==
               Sum(sys.log, Logged(Reported(c, key))) + Sum(sys.threads, Unsent(Reported(c, key)))
               + Runs.Held(c, sys.mem.reg, key) + Sum(sys.threads, InFlight(c, key))
               + Lost(Runs.Overwritten) + Lost(Runs.CleanedUp) + Lost(Runs.Absent)
            && (AllThrough(sys.threads) ==>
                  Sum(sys.log, Logged(Ended(c, key))) ==
                  Sum(sys.log, Logged(Reported(c, key))) + Runs.Held(c, sys.mem.reg, key)
                  + Lost(Runs.Overwritten) + Lost(Runs.CleanedUp) + Lost(Runs.Absent))
  {
    var start := Initial(cbs);
    InitialBalanced(cbs, c, key);
    RunKeepsBalanced(start, schedule, c, key);
    var sys := Execute(start, schedule);
    Runs.CountsAreConserved(c, EMPTY, sys.trace, key, |sys.trace|);
    if AllThrough(sys.threads) {
      NothingOnItsWay(sys.threads, c, key);
    }
  }

  lemma InitialBalanced(cbs: seq<Callback>, c: Runs.Counter, key: AgentKey)
    ensures Balanced(Initial(cbs), c, key)
  {
    var threads := Initial(cbs).threads;
    NothingUnsent(threads, Ended(c, key));
    NothingUnsent(threads, Reported(c, key));
    SumZero(threads, InFlight(c, key));
  }

  lemma NothingOnItsWay(threads: seq<Thread>, c: Runs.Counter, key: AgentKey)
    requires AllThrough(threads)
    ensures Sum(threads, Unsent(Ended(c, key))) == Sum(threads, Unsent(Reported(c, key))) == Sum(threads, InFlight(c, key)) == 0
  {
    NothingUnsent(threads, Ended(c, key));
    NothingUnsent(threads, Reported(c, key));
    SumZero(threads, InFlight(c, key));
  }

  // ---- Continuations after an error ----

  // The error type a continued_after_error event of this agent carries.
  function ContinuedFrom(e: Event, key: AgentKey): seq<ErrorType> {
    if e.AgentOccurrence? && e.kind == ContinuedAfterError && e.key == key then [e.errorType] else []
  }

  function EventErrors(key: AgentKey): Event -> seq<ErrorType> {
    (e: Event) => ContinuedFrom(e, key)
  }

  function EntryErrors(key: AgentKey): Entry -> seq<ErrorType> {
    (e: Entry) => ContinuedFrom(e.event, key)
  }

  // The same of the calls a callback still has to make.
  function UnsentErrors(key: AgentKey): Thread -> seq<ErrorType> {
    (t: Thread) => Collect(t.unsent, EventErrors(key))
  }

  lemma {:induction false} ErrorsTagged(tid: nat, events: seq<Event>, key: AgentKey)
    ensures Collect(Tag(tid, events), EntryErrors(key)) == Collect(events, EventErrors(key))
  {
    if events == [] {
    } else {
      var n := |events| - 1;
      ErrorsTagged(tid, events[..n], key);
      assert Tag(tid, events)[..n] == Tag(tid, events[..n]);
    }
  }

  // The pending errors of this agent that the first n steps took, in order.
  function TakenErrors(trace: seq<Step>, key: AgentKey, n: nat): seq<ErrorType>
    requires n <= |trace|
  {
    if n == 0 then []
    else TakenErrors(trace, key, n - 1) + TakenBy(At(EMPTY, trace, n - 1), trace[n - 1], key)
  }

  function TakenBy(r: Reg, s: Step, key: AgentKey): seq<ErrorType> {
    if s.STakePending? && s.key == key && TakePendingError(r, key).1.Some? then [TakePendingError(r, key).1.value] else []
  }

  lemma {:induction false} TakenExtended(trace: seq<Step>, s: Step, key: AgentKey, n: nat)
    requires n <= |trace|
    ensures TakenErrors(trace + [s], key, n) == TakenErrors(trace, key, n)
  {
    if n == 0 {
    } else {
      TakenExtended(trace, s, key, n - 1);
      Extended(Runs.Inference, trace, s, key, n - 1);
    }
  }

  // The pending error a locked step returned to a callback that reports it.
  function TakenFor(t: Thread, ret: Ret, key: AgentKey): seq<ErrorType> {
    if t.pc.Begin? && (t.cb.BeforeModel? || t.cb.BeforeTool?) && t.cb.key == key && ret.RPending? then Listed(ret.pending) else []
  }

  lemma FirstContinues(cb: Callback, ret: Ret, now: Time, key: AgentKey)
    requires Start(cb).pc == Begin
    ensures Collect(AfterFirst(cb, ret, now).1, EventErrors(key)) == TakenFor(Start(cb), ret, key)
  {
    CollectFew(AfterFirst(cb, ret, now).1, EventErrors(key));
  }

  lemma ResumeContinues(t: Thread, ret: Ret, now: Time, key: AgentKey)
    requires WellFormed(t) && NextStep(t, now).Some?
    ensures Collect(Resume(t, ret, now).1, EventErrors(key)) == TakenFor(t, ret, key)
  {
    if t.pc.Begin? {
      FirstContinues(t.cb, ret, now, key);
    } else {
      CollectFew(Resume(t, ret, now).1, EventErrors(key));
    }
  }

  lemma AdvanceContinues(m: Memory, t: Thread, now: Time, key: AgentKey)
    requires WellFormed(t)
    ensures var s := NextStep(t, now);
            Collect(Advance(m, t, now).2, EventErrors(key)) == if s.Some? then TakenBy(m.reg, s.value, key) else []
  {
    var s := NextStep(t, now);
    if s.Some? {
      ResumeContinues(t, ApplyMemory(m, s.value).1, now, key);
    }
  }

  function TakenNow(r: Reg, s: Option<Step>, key: AgentKey): seq<ErrorType> {
    if s.Some? then TakenBy(r, s.value, key) else []
  }

  // Every error this turn takes is reported, now or later, after those taken
  // before by the same callback.
  lemma MoveContinues(m: Memory, t: Thread, now: Time, key: AgentKey)
    requires WellFormed(t)
    ensures var moved := Move(m, t, now);
            Collect(moved.sent, EventErrors(key)) + UnsentErrors(key)(moved.thread)
            == UnsentErrors(key)(t) + TakenNow(m.reg, moved.step, key)
    ensures t.unsent == [] ==> Move(m, t, now).sent == [] && UnsentErrors(key)(t) == []
  {
    if t.unsent == [] {
      AdvanceContinues(m, t, now, key);
    } else {
      CollectAppend([t.unsent[0]], t.unsent[1..], EventErrors(key));
      assert [t.unsent[0]] + t.unsent[1..] == t.unsent;
      assert UnsentErrors(key)(t) + [] == UnsentErrors(key)(t);
    }
  }

  lemma TakenGrowsBy(sys: System, s: Option<Step>, key: AgentKey)
    requires Traced(sys)
    ensures var trace' := sys.trace + Listed(s);
            TakenErrors(trace', key, |trace'|) == TakenErrors(sys.trace, key, |sys.trace|) + TakenNow(sys.mem.reg, s, key)
  {
    if s.Some? {
      TakenExtended(sys.trace, s.value, key, |sys.trace|);
      Extended(Runs.Inference, sys.trace, s.value, key, |sys.trace|);
    } else {
      assert sys.trace + [] == sys.trace;
    }
  }

  lemma TickReports(sys: System, tick: Tick, key: AgentKey)
    requires AllWellFormed(sys.threads) && tick.tid < |sys.threads|
    ensures Collect(TickSystem(sys, tick).log, EntryErrors(key)) ==
            Collect(sys.log, EntryErrors(key)) + Collect(Move(sys.mem, sys.threads[tick.tid], tick.now).sent, EventErrors(key))
  {
    var sent := Move(sys.mem, sys.threads[tick.tid], tick.now).sent;
    CollectAppend(sys.log, Tag(tick.tid, sent), EntryErrors(key));
    ErrorsTagged(tick.tid, sent, key);
  }

  ghost predicate ContinuationsAccounted(sys: System, key: AgentKey) {
    && Traced(sys)
    && multiset(Collect(sys.log, EntryErrors(key))) + multiset(Collect(sys.threads, UnsentErrors(key)))
       == multiset(TakenErrors(sys.trace, key, |sys.trace|))
  }

  lemma TickKeepsContinuations(sys: System, tick: Tick, key: AgentKey)
    requires ContinuationsAccounted(sys, key)
    ensures ContinuationsAccounted(TickSystem(sys, tick), key)
  {
    TickKeepsTraced(sys, tick);
    if tick.tid < |sys.threads| {
      var t := sys.threads[tick.tid];
      var moved := Move(sys.mem, t, tick.now);
      MoveContinues(sys.mem, t, tick.now, key);
      TakenGrowsBy(sys, moved.step, key);
      TickReports(sys, tick, key);
      CollectUpdate(sys.threads, tick.tid, moved.thread, UnsentErrors(key));
      Settle(Collect(sys.log, EntryErrors(key)), Collect(sys.threads, UnsentErrors(key)),
             TakenErrors(sys.trace, key, |sys.trace|), TakenNow(sys.mem.reg, moved.step, key),
             Collect(moved.sent, EventErrors(key)), UnsentErrors(key)(t), UnsentErrors(key)(moved.thread),
             Collect(TickSystem(sys, tick).threads, UnsentErrors(key)));
    }
  }

  // The arithmetic of the step above: sent + after == before + now.
  lemma Settle<T>(log: seq<T>, unsent: seq<T>, taken: seq<T>, now: seq<T>, sent: seq<T>, before: seq<T>, after: seq<T>, unsent': seq<T>)
    requires multiset(log) + multiset(unsent) == multiset(taken) && sent + after == before + now
    requires multiset(unsent') + multiset(before) == multiset(unsent) + multiset(after)
    ensures multiset(log + sent) + multiset(unsent') == multiset(taken + now)
  {
    assert multiset(log + sent) == multiset(log) + multiset(sent) && multiset(taken + now) == multiset(taken) + multiset(now);
    assert multiset(sent) + multiset(after) == multiset(before) + multiset(now) by {
      assert multiset(sent + after) == multiset(sent) + multiset(after) && multiset(before + now) == multiset(before) + multiset(now);
    }
    forall x ensures multiset(log + sent)[x] + multiset(unsent')[x] == multiset(taken + now)[x] {
      assert multiset(unsent')[x] + multiset(before)[x] == multiset(unsent)[x] + multiset(after)[x] by {
        assert (multiset(unsent') + multiset(before))[x] == (multiset(unsent) + multiset(after))[x];
      }
      assert multiset(sent)[x] + multiset(after)[x] == multiset(before)[x] + multiset(now)[x] by {
        assert (multiset(sent) + multiset(after))[x] == (multiset(before) + multiset(now))[x];
      }
      assert multiset(log)[x] + multiset(unsent)[x] == multiset(taken)[x] by {
        assert (multiset(log) + multiset(unsent))[x] == multiset(taken)[x];
      }
    }
    assert multiset(log + sent) + multiset(unsent') == multiset(taken + now);
  }

  lemma {:induction false} RunKeepsContinuations(sys: System, schedule: seq<Tick>, key: AgentKey)
    requires ContinuationsAccounted(sys, key)
    ensures ContinuationsAccounted(Execute(sys, schedule), key)
    decreases |schedule|
  {
    if schedule == [] {
    } else {
      TickKeepsContinuations(sys, schedule[0], key);
      RunKeepsContinuations(TickSystem(sys, schedule[0]), schedule[1..], key);
    }
  }

  // In every interleaving, an agent's continued_after_error events, with
  // those its callbacks still have to emit, carry exactly the pending errors
  // its callbacks took, each as often as it was taken.
  lemma ContinuationsReported(cbs: seq<Callback>, schedule: seq<Tick>, key: AgentKey)
    ensures var sys := Execute(Initial(cbs), schedule);
            var taken := multiset(TakenErrors(sys.trace, key, |sys.trace|));
            && sys.mem.reg == Run(EMPTY, sys.trace)
            && multiset(Collect(sys.log, EntryErrors(key))) + multiset(Collect(sys.threads, UnsentErrors(key))) == taken
            && (AllThrough(sys.threads) ==> multiset(Collect(sys.log, EntryErrors(key))) == taken)
  {
    var start := Initial(cbs);
    CollectNone(start.threads, UnsentErrors(key));
    RunKeepsContinuations(start, schedule, key);
    var sys := Execute(start, schedule);
    if AllThrough(sys.threads) {
      CollectNone(sys.threads, UnsentErrors(key));
    }
  }

  // ---- Their order ----

  // This turn takes a pending error of the agent.
  ghost predicate Takes(sys: System, tick: Tick, key: AgentKey)
    requires AllWellFormed(sys.threads)
  {
    tick.tid < |sys.threads| && TakenNow(sys.mem.reg, Move(sys.mem, sys.threads[tick.tid], tick.now).step, key) != []
  }

  // No callback still has an error of this agent to report.
  predicate NoneUnsent(sys: System, key: AgentKey) {
    forall i | 0 <= i < |sys.threads| :: UnsentErrors(key)(sys.threads[i]) == []
  }

  // Each error is taken when the one taken before it has been reported.
  ghost predicate TakenApart(sys: System, schedule: seq<Tick>, key: AgentKey)
    requires AllWellFormed(sys.threads)
    decreases |schedule|
  {
    if schedule == [] then true
    else
      TickKeepsWellFormed(sys, schedule[0]);
      && (Takes(sys, schedule[0], key) ==> NoneUnsent(sys, key))
      && TakenApart(TickSystem(sys, schedule[0]), schedule[1..], key)
  }

  predicate LoneUnsent(threads: seq<Thread>, key: AgentKey) {
    forall i, j | 0 <= i < j < |threads| :: UnsentErrors(key)(threads[i]) == [] || UnsentErrors(key)(threads[j]) == []
  }

  // One callback at most has errors to report, and they come next.
  ghost predicate InOrder(sys: System, key: AgentKey) {
    && Traced(sys)
    && LoneUnsent(sys.threads, key)
    && Collect(sys.log, EntryErrors(key)) + Collect(sys.threads, UnsentErrors(key))
       == TakenErrors(sys.trace, key, |sys.trace|)
  }

  // What this callback does to the errors to report, if no other has any or
  // if it does nothing to them.
  lemma UnsentMoves(threads: seq<Thread>, tid: nat, t': Thread, sent: seq<ErrorType>, now: seq<ErrorType>, key: AgentKey)
    requires tid < |threads| && sent + UnsentErrors(key)(t') == UnsentErrors(key)(threads[tid]) + now
    requires (forall i | 0 <= i < |threads| && i != tid :: UnsentErrors(key)(threads[i]) == [])
             || (UnsentErrors(key)(threads[tid]) == sent == now == [])
    ensures sent + Collect(threads[tid := t'], UnsentErrors(key)) == Collect(threads, UnsentErrors(key)) + now
  {
    if UnsentErrors(key)(threads[tid]) == sent == now == [] {
      assert UnsentErrors(key)(t') == sent + UnsentErrors(key)(t');
      CollectSame(threads, tid, t', UnsentErrors(key));
    } else {
      CollectLone(threads, tid, UnsentErrors(key));
      CollectLone(threads[tid := t'], tid, UnsentErrors(key));
    }
  }

  lemma TickKeepsLone(sys: System, tick: Tick, key: AgentKey)
    requires AllWellFormed(sys.threads) && LoneUnsent(sys.threads, key) && tick.tid < |sys.threads|
    requires Takes(sys, tick, key) ==> NoneUnsent(sys, key)
    ensures LoneUnsent(TickSystem(sys, tick).threads, key)
  {
    MoveContinues(sys.mem, sys.threads[tick.tid], tick.now, key);
  }

  lemma TickKeepsOrder(sys: System, tick: Tick, key: AgentKey)
    requires InOrder(sys, key) && (Takes(sys, tick, key) ==> NoneUnsent(sys, key))
    ensures InOrder(TickSystem(sys, tick), key)
  {
    TickKeepsTraced(sys, tick);
    if tick.tid < |sys.threads| {
      var t := sys.threads[tick.tid];
      var moved := Move(sys.mem, t, tick.now);
      var sent, now := Collect(moved.sent, EventErrors(key)), TakenNow(sys.mem.reg, moved.step, key);
      MoveContinues(sys.mem, t, tick.now, key);
      TakenGrowsBy(sys, moved.step, key);
      TickReports(sys, tick, key);
      UnsentMoves(sys.threads, tick.tid, moved.thread, sent, now, key);
      TickKeepsLone(sys, tick, key);
      Regroup(Collect(sys.log, EntryErrors(key)), sent, Collect(TickSystem(sys, tick).threads, UnsentErrors(key)));
      Regroup(Collect(sys.log, EntryErrors(key)), Collect(sys.threads, UnsentErrors(key)), now);
    }
  }

  lemma {:induction false} RunKeepsOrder(sys: System, schedule: seq<Tick>, key: AgentKey)
    requires InOrder(sys, key) && TakenApart(sys, schedule, key)
    ensures InOrder(Execute(sys, schedule), key)
    decreases |schedule|
  {
    if schedule == [] {
    } else {
      TickKeepsOrder(sys, schedule[0], key);
      RunKeepsOrder(TickSystem(sys, schedule[0]), schedule[1..], key);
    }
  }

  // If no callback takes an error while another still has one to report, the
  // events carry the errors in the order they were taken.
  lemma ContinuationsInOrder(cbs: seq<Callback>, schedule: seq<Tick>, key: AgentKey)
    requires TakenApart(Initial(cbs), schedule, key)
    ensures var sys := Execute(Initial(cbs), schedule);
            var taken := TakenErrors(sys.trace, key, |sys.trace|);
            && Collect(sys.log, EntryErrors(key)) <= taken
            && (AllThrough(sys.threads) ==> Collect(sys.log, EntryErrors(key)) == taken)
  {
    var start := Initial(cbs);
    CollectNone(start.threads, UnsentErrors(key));
    RunKeepsOrder(start, schedule, key);
    var sys := Execute(start, schedule);
    if AllThrough(sys.threads) {
      CollectNone(sys.threads, UnsentErrors(key));
      assert Collect(sys.log, EntryErrors(key)) + [] == Collect(sys.log, EntryErrors(key));
    }
  }

  // ---- Exactly when ----

  // What a callback has to report comes first, and is one error at most.
  predicate SaysFirst(t: Thread, key: AgentKey) {
    UnsentErrors(key)(t) != [] ==> t.unsent != [] && UnsentErrors(key)(t) == ContinuedFrom(t.unsent[0], key)
  }

  lemma ResumeSaysFirst(t: Thread, ret: Ret, now: Time, key: AgentKey)
    requires WellFormed(t) && NextStep(t, now).Some?
    ensures var (pc, events) := Resume(t, ret, now); SaysFirst(t.(pc := pc, unsent := events), key)
  {
    ResumeContinues(t, ret, now, key);
  }

  lemma MoveSaysFirst(m: Memory, t: Thread, now: Time, key: AgentKey)
    requires WellFormed(t) && SaysFirst(t, key)
    ensures SaysFirst(Move(m, t, now).thread, key)
    ensures t.unsent != [] ==> Collect(Move(m, t, now).sent, EventErrors(key)) == UnsentErrors(key)(t)
  {
    if t.unsent == [] {
      if NextStep(t, now).Some? {
        ResumeSaysFirst(t, ApplyMemory(m, NextStep(t, now).value).1, now, key);
      }
    } else {
      CollectAppend([t.unsent[0]], t.unsent[1..], EventErrors(key));
      CollectFew([t.unsent[0]], EventErrors(key));
      assert [t.unsent[0]] + t.unsent[1..] == t.unsent;
    }
  }

  // The errors reported so far are the first ones taken.
  predicate ReportedInOrder(sys: System, key: AgentKey) {
    Collect(sys.log, EntryErrors(key)) <= TakenErrors(sys.trace, key, |sys.trace|)
  }

  // All callbacks that still have an error to report have the same.
  predicate OneErrorUnsent(sys: System, key: AgentKey) {
    forall i, j | 0 <= i < |sys.threads| && 0 <= j < |sys.threads| ::
      UnsentErrors(key)(sys.threads[i]) == [] || UnsentErrors(key)(sys.threads[j]) == []
      || UnsentErrors(key)(sys.threads[i]) == UnsentErrors(key)(sys.threads[j])
  }

  ghost predicate Accounted(sys: System, key: AgentKey) {
    ContinuationsAccounted(sys, key) && forall i | 0 <= i < |sys.threads| :: SaysFirst(sys.threads[i], key)
  }

  lemma TickKeepsAccounted(sys: System, tick: Tick, key: AgentKey)
    requires Accounted(sys, key)
    ensures Accounted(TickSystem(sys, tick), key)
  {
    TickKeepsContinuations(sys, tick, key);
    if tick.tid < |sys.threads| {
      MoveSaysFirst(sys.mem, sys.threads[tick.tid], tick.now, key);
    }
  }

  lemma InitialAccounted(cbs: seq<Callback>, key: AgentKey)
    ensures Accounted(Initial(cbs), key) && ReportedInOrder(Initial(cbs), key)
  {
    CollectNone(Initial(cbs).threads, UnsentErrors(key));
  }

  lemma {:induction false} RunKeepsAccounted(sys: System, schedule: seq<Tick>, key: AgentKey)
    requires Accounted(sys, key)
    ensures Accounted(Execute(sys, schedule), key)
    decreases |schedule|
  {
    if schedule == [] {
    } else {
      TickKeepsAccounted(sys, schedule[0], key);
      RunKeepsAccounted(TickSystem(sys, schedule[0]), schedule[1..], key);
    }
  }

  // What is in order and has one error to come goes on with that error.
  lemma NextIsCommon<T>(reported: seq<T>, unsent: seq<T>, taken: seq<T>, x: T)
    requires multiset(reported) + multiset(unsent) == multiset(taken) && reported <= taken
    requires x in unsent && forall y | y in unsent :: y == x
    ensures reported + [x] <= taken
  {
    var n := |reported|;
    assert n < |taken| by {
      assert |multiset(reported) + multiset(unsent)| == n + |unsent|;
    }
    var y := taken[n];
    assert taken == reported + ([y] + taken[n + 1..]);
    assert multiset(taken)[y] == multiset(reported)[y] + multiset([y] + taken[n + 1..])[y];
    assert (multiset(reported) + multiset(unsent))[y] == multiset(taken)[y];
    assert ([y] + taken[n + 1..])[0] in multiset([y] + taken[n + 1..]);
    assert y in multiset(unsent) && y in unsent;
    assert taken[..n + 1] == reported + [y];
  }

  lemma CommonError(sys: System, tid: nat, key: AgentKey)
    requires Accounted(sys, key) && OneErrorUnsent(sys, key) && tid < |sys.threads| && UnsentErrors(key)(sys.threads[tid]) != []
    ensures var unsent, x := Collect(sys.threads, UnsentErrors(key)), UnsentErrors(key)(sys.threads[tid])[0];
            x in unsent && forall y | y in unsent :: y == x
  {
    var x := UnsentErrors(key)(sys.threads[tid])[0];
    CollectHas(sys.threads, UnsentErrors(key), tid, x);
    forall y | y in Collect(sys.threads, UnsentErrors(key)) ensures y == x {
      var i := CollectMember(sys.threads, UnsentErrors(key), y);
      assert UnsentErrors(key)(sys.threads[i]) == UnsentErrors(key)(sys.threads[tid]);
    }
  }

  lemma NextInOrder(sys: System, tid: nat, key: AgentKey)
    requires Accounted(sys, key) && ReportedInOrder(sys, key) && OneErrorUnsent(sys, key)
    requires tid < |sys.threads| && UnsentErrors(key)(sys.threads[tid]) != []
    ensures Collect(sys.log, EntryErrors(key)) + UnsentErrors(key)(sys.threads[tid]) <= TakenErrors(sys.trace, key, |sys.trace|)
  {
    var errors := UnsentErrors(key)(sys.threads[tid]);
    CommonError(sys, tid, key);
    NextIsCommon(Collect(sys.log, EntryErrors(key)), Collect(sys.threads, UnsentErrors(key)),
                 TakenErrors(sys.trace, key, |sys.trace|), errors[0]);
    assert errors == [errors[0]];
  }

  lemma TickStaysInOrder(sys: System, tick: Tick, key: AgentKey)
    requires Accounted(sys, key) && ReportedInOrder(sys, key) && OneErrorUnsent(sys, key)
    ensures ReportedInOrder(TickSystem(sys, tick), key)
  {
    if tick.tid < |sys.threads| {
      var t := sys.threads[tick.tid];
      var moved := Move(sys.mem, t, tick.now);
      TickReports(sys, tick, key);
      TakenGrowsBy(sys, moved.step, key);
      MoveSaysFirst(sys.mem, t, tick.now, key);
      if UnsentErrors(key)(t) != [] {
        NextInOrder(sys, tick.tid, key);
      }
    }
  }

  // Two different errors to report: one of the two comes out of order.
  lemma BreaksOrder(sys: System, i: nat, j: nat, key: AgentKey) returns (tid: nat)
    requires Accounted(sys, key) && i < |sys.threads| && j < |sys.threads|
    requires UnsentErrors(key)(sys.threads[i]) != [] && UnsentErrors(key)(sys.threads[j]) != []
    requires UnsentErrors(key)(sys.threads[i]) != UnsentErrors(key)(sys.threads[j])
    ensures !ReportedInOrder(TickSystem(sys, Tick(tid, 0)), key)
  {
    var reported, taken := Collect(sys.log, EntryErrors(key)), TakenErrors(sys.trace, key, |sys.trace|);
    NotBothNext(reported, taken, UnsentErrors(key)(sys.threads[i]), UnsentErrors(key)(sys.threads[j]));
    tid := if reported + UnsentErrors(key)(sys.threads[i]) <= taken then j else i;
    SendsAll(sys, tid, key);
  }

  lemma NotBothNext<T>(reported: seq<T>, taken: seq<T>, a: seq<T>, b: seq<T>)
    requires |a| == |b| == 1 && a != b
    ensures !(reported + a <= taken) || !(reported + b <= taken)
  {
    if reported + a <= taken {
      assert taken[|reported|] == (reported + a)[|reported|] == a[0];
      assert (reported + b)[|reported|] == b[0];
    }
  }

  // A callback that has an error to report reports it in its next turn.
  lemma SendsAll(sys: System, tid: nat, key: AgentKey)
    requires Accounted(sys, key) && tid < |sys.threads| && UnsentErrors(key)(sys.threads[tid]) != []
    ensures var sys' := TickSystem(sys, Tick(tid, 0));
            && Collect(sys'.log, EntryErrors(key)) == Collect(sys.log, EntryErrors(key)) + UnsentErrors(key)(sys.threads[tid])
            && TakenErrors(sys'.trace, key, |sys'.trace|) == TakenErrors(sys.trace, key, |sys.trace|)
  {
    TickReports(sys, Tick(tid, 0), key);
    TakenGrowsBy(sys, Move(sys.mem, sys.threads[tid], 0).step, key);
    MoveSaysFirst(sys.mem, sys.threads[tid], 0, key);
  }

  ghost predicate AlwaysInOrder(cbs: seq<Callback>, key: AgentKey) {
    forall schedule :: ReportedInOrder(Execute(Initial(cbs), schedule), key)
  }

  ghost predicate AlwaysOneErrorUnsent(cbs: seq<Callback>, key: AgentKey) {
    forall schedule :: OneErrorUnsent(Execute(Initial(cbs), schedule), key)
  }

  // The events of an agent come in the order of the takes in every
  // interleaving exactly if in none two callbacks have different errors to
  // report at the same time.
  lemma AlwaysInOrderIff(cbs: seq<Callback>, key: AgentKey)
    ensures AlwaysInOrder(cbs, key) <==> AlwaysOneErrorUnsent(cbs, key)
  {
    if AlwaysInOrder(cbs, key) {
      forall schedule ensures OneErrorUnsent(Execute(Initial(cbs), schedule), key) {
        if !OneErrorUnsent(Execute(Initial(cbs), schedule), key) {
          var other := OutOfOrderNext(cbs, schedule, key);
        }
      }
    }
    if AlwaysOneErrorUnsent(cbs, key) {
      forall schedule ensures ReportedInOrder(Execute(Initial(cbs), schedule), key) {
        OneErrorKeepsOrder(cbs, schedule, key);
      }
    }
  }

  lemma OutOfOrderNext(cbs: seq<Callback>, schedule: seq<Tick>, key: AgentKey) returns (other: seq<Tick>)
    requires !OneErrorUnsent(Execute(Initial(cbs), schedule), key)
    ensures !ReportedInOrder(Execute(Initial(cbs), other), key)
  {
    var sys := Execute(Initial(cbs), schedule);
    InitialAccounted(cbs, key);
    RunKeepsAccounted(Initial(cbs), schedule, key);
    var i, j :| 0 <= i < |sys.threads| && 0 <= j < |sys.threads|
                && UnsentErrors(key)(sys.threads[i]) != [] && UnsentErrors(key)(sys.threads[j]) != []
                && UnsentErrors(key)(sys.threads[i]) != UnsentErrors(key)(sys.threads[j]);
    var tid := BreaksOrder(sys, i, j, key);
    ExecuteOne(sys, Tick(tid, 0));
    ExecuteConcat(Initial(cbs), schedule, [Tick(tid, 0)]);
    other := schedule + [Tick(tid, 0)];
  }

  lemma LastTick(cbs: seq<Callback>, schedule: seq<Tick>) returns (before: System)
    requires schedule != []
    ensures before == Execute(Initial(cbs), schedule[..|schedule| - 1]) && AllWellFormed(before.threads)
    ensures Execute(Initial(cbs), schedule) == TickSystem(before, schedule[|schedule| - 1])
  {
    var n := |schedule| - 1;
    before := Execute(Initial(cbs), schedule[..n]);
    CallbacksStay(Initial(cbs), schedule[..n]);
    ExecuteOne(before, schedule[n]);
    ExecuteConcat(Initial(cbs), schedule[..n], [schedule[n]]);
    assert schedule[..n] + [schedule[n]] == schedule;
  }

  lemma {:induction false} OneErrorKeepsOrder(cbs: seq<Callback>, schedule: seq<Tick>, key: AgentKey)
    requires AlwaysOneErrorUnsent(cbs, key)
    ensures ReportedInOrder(Execute(Initial(cbs), schedule), key)
    decreases |schedule|
  {
    InitialAccounted(cbs, key);
    if schedule == [] {
    } else {
      var n := |schedule| - 1;
      var before := LastTick(cbs, schedule);
      OneErrorKeepsOrder(cbs, schedule[..n], key);
      RunKeepsAccounted(Initial(cbs), schedule[..n], key);
      TickStaysInOrder(before, schedule[n], key);
    }
  }

  lemma {:induction false} TakenGrows(trace: seq<Step>, key: AgentKey, i: nat, j: nat)
    requires i <= j <= |trace|
    ensures |TakenErrors(trace, key, i)| <= |TakenErrors(trace, key, j)|
  {
    if i == j {
    } else {
      TakenGrows(trace, key, i, j - 1);
    }
  }

  // Which step took the a-th error.
  lemma {:induction false} TakenAt(trace: seq<Step>, key: AgentKey, n: nat, a: nat) returns (i: nat)
    requires n <= |trace| && a < |TakenErrors(trace, key, n)|
    ensures i < n && |TakenErrors(trace, key, i)| == a && Runs.Continued(EMPTY, trace, key, i)
    ensures Returned(EMPTY, trace, i).pending == Some(TakenErrors(trace, key, n)[a])
  {
    if a < |TakenErrors(trace, key, n - 1)| {
      i := TakenAt(trace, key, n - 1, a);
    } else {
      i := n - 1;
    }
  }

  // Every continued_after_error event carries the first error marked since
  // its agent was last started or asked for a pending error.
  lemma ContinuationCarriesFirstError(cbs: seq<Callback>, schedule: seq<Tick>, key: AgentKey, b: nat) returns (lo: nat, j: nat)
    requires b < |Collect(Execute(Initial(cbs), schedule).log, EntryErrors(key))|
    ensures var sys := Execute(Initial(cbs), schedule);
            var et := Collect(sys.log, EntryErrors(key))[b];
            && j < |sys.trace| && Runs.Continued(EMPTY, sys.trace, key, j) && Returned(EMPTY, sys.trace, j).pending == Some(et)
            && Runs.LastResetBefore(sys.trace, key, lo, j)
            && et != ERROR_NONE && Runs.IsFirstMark(sys.trace, key, lo, j, et)
  {
    ContinuationsReported(cbs, schedule, key);
    var sys := Execute(Initial(cbs), schedule);
    var errors, taken := Collect(sys.log, EntryErrors(key)), TakenErrors(sys.trace, key, |sys.trace|);
    assert errors[b] in multiset(errors) && errors[b] in multiset(taken);
    var a :| 0 <= a < |taken| && taken[a] == errors[b];
    j := TakenAt(sys.trace, key, |sys.trace|, a);
    lo := Runs.ContinuationHasItsError(sys.trace, key, j);
  }

  lemma MarkBetweenTakes(trace: seq<Step>, key: AgentKey, a: nat, b: nat) returns (i: nat, m: nat, j: nat)
    requires a < b < |TakenErrors(trace, key, |trace|)|
    ensures var errors := TakenErrors(trace, key, |trace|);
            && i < m < j < |trace| && Runs.Continued(EMPTY, trace, key, i) && Runs.Continued(EMPTY, trace, key, j)
            && Returned(EMPTY, trace, i).pending == Some(errors[a]) && Returned(EMPTY, trace, j).pending == Some(errors[b])
            && Runs.Marks(trace[m], key) && trace[m].et == errors[b]
  {
    i := TakenAt(trace, key, |trace|, a);
    j := TakenAt(trace, key, |trace|, b);
    if j <= i {
      TakenGrows(trace, key, j, i);
    }
    Runs.ErrorBetweenContinuations(trace, key, i, j);
    m :| i < m < j && Runs.Marks(trace[m], key) && Returned(EMPTY, trace, j).pending == Some(trace[m].et);
  }

  // Behind any two continued_after_error events of one agent are two takes,
  // and between these lies a mark of the very type that the event of the later
  // take carries.
  lemma ErrorBetweenEvents(cbs: seq<Callback>, schedule: seq<Tick>, key: AgentKey, a: nat, b: nat) returns (i: nat, m: nat, j: nat)
    requires a < b < |Collect(Execute(Initial(cbs), schedule).log, EntryErrors(key))|
    ensures var sys := Execute(Initial(cbs), schedule);
            var errors := Collect(sys.log, EntryErrors(key));
            && i < m < j < |sys.trace| && Runs.Continued(EMPTY, sys.trace, key, i) && Runs.Continued(EMPTY, sys.trace, key, j)
            && (Returned(EMPTY, sys.trace, i).pending, Returned(EMPTY, sys.trace, j).pending)
               in {(Some(errors[a]), Some(errors[b])), (Some(errors[b]), Some(errors[a]))}
            && Runs.Marks(sys.trace[m], key) && Some(sys.trace[m].et) == Returned(EMPTY, sys.trace, j).pending
  {
    ContinuationsReported(cbs, schedule, key);
    var sys := Execute(Initial(cbs), schedule);
    var x, y := TwoInWhole(Collect(sys.log, EntryErrors(key)), TakenErrors(sys.trace, key, |sys.trace|), a, b);
    if x < y {
      i, m, j := MarkBetweenTakes(sys.trace, key, x, y);
    } else {
      i, m, j := MarkBetweenTakes(sys.trace, key, y, x);
    }
  }

  // ---- Out of order ----

  // One turn after the other.
  ghost predicate Turned(sys: System, tid: nat, after: System) {
    && AllWellFormed(sys.threads) && tid < |sys.threads| && after == TickSystem(sys, Tick(tid, 0))
    && AllWellFormed(after.threads) && |after.threads| == |sys.threads|
    && forall i | 0 <= i < |sys.threads| && i != tid :: after.threads[i] == sys.threads[i]
  }

  lemma Turn(sys: System, tid: nat) returns (after: System)
    requires AllWellFormed(sys.threads) && tid < |sys.threads|
    ensures Turned(sys, tid, after)
  {
    after := TickSystem(sys, Tick(tid, 0));
    TickKeepsWellFormed(sys, Tick(tid, 0));
  }

  // What the run below needs to know of a system: the pending error of the
  // agent, the errors reported and the errors taken.
  ghost predicate Stands(sys: System, key: AgentKey, pending: ErrorType, reported: seq<ErrorType>, taken: seq<ErrorType>) {
    && Traced(sys) && key in sys.mem.reg.agents && sys.mem.reg.agents[key].pendingError == pending
    && Collect(sys.log, EntryErrors(key)) == reported && TakenErrors(sys.trace, key, |sys.trace|) == taken
  }

  lemma TurnReports(sys: System, tid: nat, after: System, key: AgentKey)
    requires Traced(sys) && Turned(sys, tid, after)
    ensures var moved := Move(sys.mem, sys.threads[tid], 0);
            && Traced(after)
            && Collect(after.log, EntryErrors(key)) == Collect(sys.log, EntryErrors(key)) + Collect(moved.sent, EventErrors(key))
            && TakenErrors(after.trace, key, |after.trace|)
               == TakenErrors(sys.trace, key, |sys.trace|) + TakenNow(sys.mem.reg, moved.step, key)
  {
    TickKeepsTraced(sys, Tick(tid, 0));
    TickReports(sys, Tick(tid, 0), key);
    TakenGrowsBy(sys, Move(sys.mem, sys.threads[tid], 0).step, key);
  }

  lemma StartTurn(sys: System, tid: nat, after: System, key: AgentKey)
    requires Traced(sys) && Turned(sys, tid, after) && sys.threads[tid] == Start(BeforeAgent(key))
    requires Collect(sys.log, EntryErrors(key)) == TakenErrors(sys.trace, key, |sys.trace|) == []
    ensures Stands(after, key, ERROR_NONE, [], [])
  {
    TurnReports(sys, tid, after, key);
  }

  lemma MarkMove(m: Memory, key: AgentKey, e: Failure)
    requires key in m.reg.agents && m.reg.agents[key].pendingError == ERROR_NONE
    ensures var moved := Move(m, Start(OnToolError(key, Some(e))), 0);
            && moved.sent == [] && TakenNow(m.reg, moved.step, key) == []
            && key in moved.mem.reg.agents && moved.mem.reg.agents[key].pendingError == Known(e.first)
  {
  }

  lemma MarkTurn(sys: System, tid: nat, after: System, key: AgentKey, e: Failure, reported: seq<ErrorType>, taken: seq<ErrorType>)
    requires Turned(sys, tid, after) && sys.threads[tid] == Start(OnToolError(key, Some(e)))
    requires Stands(sys, key, ERROR_NONE, reported, taken)
    ensures Stands(after, key, Known(e.first), reported, taken)
  {
    MarkMove(sys.mem, key, e);
    TurnReports(sys, tid, after, key);
    assert reported + [] == reported && taken + [] == taken;
  }

  predicate AboutToReport(t: Thread, key: AgentKey, et: ErrorType) {
    t.unsent != [] && t.unsent[0] == AgentOccurrence(ContinuedAfterError, key, ExecuteTool, et)
  }

  function Tool(key: AgentKey, span: Option<ToolKey>): Callback {
    BeforeTool(key, span, "", None, None)
  }

  lemma TakeMove(m: Memory, key: AgentKey, span: Option<ToolKey>, et: ErrorType)
    requires key in m.reg.agents && m.reg.agents[key].pendingError == et != ERROR_NONE
    ensures var moved := Move(m, Start(Tool(key, span)), 0);
            && moved.sent == [] && TakenNow(m.reg, moved.step, key) == [et] && AboutToReport(moved.thread, key, et)
            && key in moved.mem.reg.agents && moved.mem.reg.agents[key].pendingError == ERROR_NONE
  {
  }

  lemma TakeTurn(sys: System, tid: nat, after: System, key: AgentKey, span: Option<ToolKey>, et: ErrorType,
                 reported: seq<ErrorType>, taken: seq<ErrorType>)
    requires Turned(sys, tid, after) && sys.threads[tid] == Start(Tool(key, span))
    requires Stands(sys, key, et, reported, taken) && et != ERROR_NONE
    ensures Stands(after, key, ERROR_NONE, reported, taken + [et]) && AboutToReport(after.threads[tid], key, et)
  {
    TakeMove(sys.mem, key, span, et);
    TurnReports(sys, tid, after, key);
    assert reported + [] == reported;
  }

  lemma SendTurn(sys: System, tid: nat, after: System, key: AgentKey, et: ErrorType,
                 pending: ErrorType, reported: seq<ErrorType>, taken: seq<ErrorType>)
    requires Turned(sys, tid, after) && Stands(sys, key, pending, reported, taken) && AboutToReport(sys.threads[tid], key, et)
    ensures Stands(after, key, pending, reported + [et], taken)
  {
    TurnReports(sys, tid, after, key);
    CollectFew([sys.threads[tid].unsent[0]], EventErrors(key));
    assert taken + [] == taken;
  }

  lemma ExecuteMore(sys: System, schedule: seq<Tick>, tid: nat, after: System)
    requires AllWellFormed(sys.threads) && Turned(Execute(sys, schedule), tid, after)
    ensures after == Execute(sys, schedule + [Tick(tid, 0)])
  {
    ExecuteConcat(sys, schedule, [Tick(tid, 0)]);
    ExecuteOne(Execute(sys, schedule), Tick(tid, 0));
  }

  // A tool takes the first error and is descheduled before it reports it; the
  // next error is marked, taken and reported by another tool; then the first
  // tool reports. The events are in the reverse order of the takes.
  lemma EventsOutOfOrder(key: AgentKey, first: Failure, second: Failure, span: Option<ToolKey>, other: Option<ToolKey>)
    returns (cbs: seq<Callback>, schedule: seq<Tick>)
    ensures cbs == [BeforeAgent(key), OnToolError(key, Some(first)), Tool(key, span), OnToolError(key, Some(second)), Tool(key, other)]
    ensures var sys := Execute(Initial(cbs), schedule);
            && Collect(sys.log, EntryErrors(key)) == [Known(second.first), Known(first.first)]
            && TakenErrors(sys.trace, key, |sys.trace|) == [Known(first.first), Known(second.first)]
  {
    cbs := [BeforeAgent(key), OnToolError(key, Some(first)), Tool(key, span), OnToolError(key, Some(second)), Tool(key, other)];
    var e1, e2 := Known(first.first), Known(second.first);
    var taken, both := SecondTaken(cbs, key, first, second, span, other);
    schedule := BothReport(cbs, taken, both, 4, 2, key, e2, e1, [e1, e2]);
  }

  lemma OneReports(cbs: seq<Callback>, until: seq<Tick>, sys: System, i: nat, key: AgentKey, et: ErrorType,
                   reported: seq<ErrorType>, taken: seq<ErrorType>)
    returns (schedule: seq<Tick>, after: System)
    requires sys == Execute(Initial(cbs), until) && AllWellFormed(sys.threads) && i < |sys.threads|
    requires AboutToReport(sys.threads[i], key, et) && Stands(sys, key, ERROR_NONE, reported, taken)
    ensures after == Execute(Initial(cbs), schedule) && AllWellFormed(after.threads) && |after.threads| == |sys.threads|
    ensures forall k | 0 <= k < |sys.threads| && k != i :: after.threads[k] == sys.threads[k]
    ensures Stands(after, key, ERROR_NONE, reported + [et], taken)
  {
    after := Turn(sys, i);
    SendTurn(sys, i, after, key, et, ERROR_NONE, reported, taken);
    ExecuteMore(Initial(cbs), until, i, after);
    schedule := until + [Tick(i, 0)];
  }

  lemma BothReport(cbs: seq<Callback>, until: seq<Tick>, sys: System, i: nat, j: nat, key: AgentKey, et: ErrorType, et': ErrorType,
                   taken: seq<ErrorType>)
    returns (schedule: seq<Tick>)
    requires sys == Execute(Initial(cbs), until) && AllWellFormed(sys.threads) && i < |sys.threads| && j < |sys.threads| && i != j
    requires AboutToReport(sys.threads[i], key, et) && AboutToReport(sys.threads[j], key, et')
    requires Stands(sys, key, ERROR_NONE, [], taken)
    ensures Stands(Execute(Initial(cbs), schedule), key, ERROR_NONE, [et, et'], taken)
  {
    var none: seq<ErrorType> := [];
    var once, one := OneReports(cbs, until, sys, i, key, et, none, taken);
    var after;
    schedule, after := OneReports(cbs, once, one, j, key, et', none + [et], taken);
    assert none + [et] + [et'] == [et, et'];
  }

  // One error is marked and taken, and not yet reported.
  lemma MarkedAndTaken(cbs: seq<Callback>, until: seq<Tick>, sys: System, i: nat, j: nat, key: AgentKey, e: Failure,
                       span: Option<ToolKey>, taken: seq<ErrorType>)
    returns (schedule: seq<Tick>, after: System)
    requires sys == Execute(Initial(cbs), until) && AllWellFormed(sys.threads) && i < |sys.threads| && j < |sys.threads| && i != j
    requires sys.threads[i] == Start(OnToolError(key, Some(e))) && sys.threads[j] == Start(Tool(key, span))
    requires Stands(sys, key, ERROR_NONE, [], taken)
    ensures after == Execute(Initial(cbs), schedule) && AllWellFormed(after.threads) && |after.threads| == |sys.threads|
    ensures forall k | 0 <= k < |sys.threads| && k != i && k != j :: after.threads[k] == sys.threads[k]
    ensures Stands(after, key, ERROR_NONE, [], taken + [Known(e.first)]) && AboutToReport(after.threads[j], key, Known(e.first))
  {
    var marked := Turn(sys, i);
    MarkTurn(sys, i, marked, key, e, [], taken);
    ExecuteMore(Initial(cbs), until, i, marked);
    after := Turn(marked, j);
    TakeTurn(marked, j, after, key, span, Known(e.first), [], taken);
    ExecuteMore(Initial(cbs), until + [Tick(i, 0)], j, after);
    schedule := until + [Tick(i, 0)] + [Tick(j, 0)];
  }

  lemma Started(cbs: seq<Callback>, key: AgentKey) returns (schedule: seq<Tick>, after: System)
    requires cbs != [] && cbs[0] == BeforeAgent(key)
    ensures after == Execute(Initial(cbs), schedule) && AllWellFormed(after.threads) && |after.threads| == |cbs|
    ensures forall k | 0 < k < |cbs| :: after.threads[k] == Start(cbs[k])
    ensures Stands(after, key, ERROR_NONE, [], [])
  {
    after := Turn(Initial(cbs), 0);
    StartTurn(Initial(cbs), 0, after, key);
    ExecuteMore(Initial(cbs), [], 0, after);
    schedule := [] + [Tick(0, 0)];
  }

  lemma SecondTaken(cbs: seq<Callback>, key: AgentKey, first: Failure, second: Failure, span: Option<ToolKey>, other: Option<ToolKey>)
    returns (schedule: seq<Tick>, after: System)
    requires |cbs| == 5 && cbs[0] == BeforeAgent(key)
    requires cbs[1] == OnToolError(key, Some(first)) && cbs[2] == Tool(key, span)
    requires cbs[3] == OnToolError(key, Some(second)) && cbs[4] == Tool(key, other)
    ensures after == Execute(Initial(cbs), schedule) && AllWellFormed(after.threads) && |after.threads| == 5
    ensures Stands(after, key, ERROR_NONE, [], [Known(first.first), Known(second.first)])
    ensures AboutToReport(after.threads[2], key, Known(first.first)) && AboutToReport(after.threads[4], key, Known(second.first))
  {
    var e1, e2 := Known(first.first), Known(second.first);
    var once, one := FirstTaken(cbs, key, first, span);
    schedule, after := MarkedAndTaken(cbs, once, one, 3, 4, key, second, other, [e1]);
    assert [e1] + [e2] == [e1, e2] && after.threads[2] == one.threads[2];
  }

  lemma FirstTaken(cbs: seq<Callback>, key: AgentKey, first: Failure, span: Option<ToolKey>)
    returns (schedule: seq<Tick>, after: System)
    requires |cbs| == 5 && cbs[0] == BeforeAgent(key)
    requires cbs[1] == OnToolError(key, Some(first)) && cbs[2] == Tool(key, span)
    ensures after == Execute(Initial(cbs), schedule) && AllWellFormed(after.threads) && |after.threads| == 5
    ensures after.threads[3] == Start(cbs[3]) && after.threads[4] == Start(cbs[4])
    ensures Stands(after, key, ERROR_NONE, [], [Known(first.first)]) && AboutToReport(after.threads[2], key, Known(first.first))
  {
    var begun, start := Started(cbs, key);
    schedule, after := MarkedAndTaken(cbs, begun, start, 1, 2, key, first, span, []);
    assert [] + [Known(first.first)] == [Known(first.first)];
    assert after.threads[3] == start.threads[3] && after.threads[4] == start.threads[4];
  }

  // ---- Exactly-once termination ----

  // A retired model is older than the one its key has now, if any.
  ghost predicate Remembers(m: Memory) {
    && Consistent(m.reg)
    && forall p <- m.retired ::
         && m.retired[p].agentKey == p.0 && m.retired[p].serial == p.1 <= Count(m.reg, p.0)
         && (p.0 in m.reg.models ==> p.1 != m.reg.models[p.0].serial)
  }

  lemma AdvanceKeepsRemembers(m: Memory, s: Step)
    requires Remembers(m)
    ensures Remembers(ApplyMemory(m, s).0)
  {
    StepKeepsConsistent(m.reg, s);
    var m' := ApplyMemory(m, s).0;
    forall p <- m'.retired
      ensures m'.retired[p].agentKey == p.0 && m'.retired[p].serial == p.1 <= Count(m'.reg, p.0)
      ensures p.0 in m'.reg.models ==> p.1 != m'.reg.models[p.0].serial
    {
      Runs.StepOnModels(m.reg, s, p.0);
      RetiredOnce(m, s, p);
    }
  }

  lemma Retiring(r: Reg, s: Step, p: (AgentKey, nat))
    requires Consistent(r) && p in Retires(r, s)
    ensures p.0 in r.models && p.0 !in Apply(r, s).0.models && p.1 == r.models[p.0].serial
    ensures Retires(r, s)[p] == if s.SEndModel? then r.models[p.0].(terminalized := true) else r.models[p.0]
    ensures s.SEndModel? ==> s.key == p.0
  {
  }

  lemma RetiredOnce(m: Memory, s: Step, p: (AgentKey, nat))
    requires Remembers(m) && p in ApplyMemory(m, s).0.retired
    ensures var m' := ApplyMemory(m, s).0;
            && m'.retired[p].agentKey == p.0 && m'.retired[p].serial == p.1 <= Count(m.reg, p.0)
            && (p.0 in m'.reg.models ==> p.1 != m'.reg.models[p.0].serial)
  {
    if p in Retires(m.reg, s) {
      Retiring(m.reg, s, p);
    } else {
      assert p in m.retired && ApplyMemory(m, s).0.retired[p] == m.retired[p];
    }
  }

  // Model operation serial of this key has been ended, by a terminal response.
  predicate Terminalized(m: Memory, key: AgentKey, serial: nat) {
    (key, serial) in m.retired && m.retired[(key, serial)].terminalized
  }

  predicate Reportable(m: Memory, key: AgentKey, serial: nat) {
    Terminalized(m, key, serial) && m.retired[(key, serial)].provider != ""
  }

  function UsageCalls(key: AgentKey, serial: nat): Event -> nat {
    (e: Event) => Bit(e.InferenceUsage? && e.key == key && e.serial == serial)
  }

  function DetailsCalls(key: AgentKey, serial: nat): Event -> nat {
    (e: Event) => Bit(e.InferenceDetails? && e.key == key && e.serial == serial)
  }

  // A callback that has ended this operation and not yet reported its details.
  function Reporting(key: AgentKey, serial: nat): Thread -> nat {
    (t: Thread) => Bit((t.pc.ToCountInference? || t.pc.ToMarkModel?) && t.cb.AfterModel? && t.cb.key == key
                       && t.pc.model.serial == serial && t.pc.model.provider != "")
  }

  lemma TerminalizedChanges(m: Memory, s: Step, key: AgentKey, serial: nat)
    requires Remembers(m)
    ensures var (m', ret) := ApplyMemory(m, s);
            if s.SEndModel? && s.key == key && ret.model.Some? && ret.model.value.serial == serial
            then !Terminalized(m, key, serial) && Terminalized(m', key, serial)
                 && m'.retired[(key, serial)] == ret.model.value
            else Terminalized(m', key, serial) == Terminalized(m, key, serial)
                 && Reportable(m', key, serial) == Reportable(m, key, serial)
  {
    if (key, serial) in Retires(m.reg, s) {
      Retiring(m.reg, s, (key, serial));
    }
  }

  // The thread has just been given this model operation to finish.
  predicate Wins(t: Thread, ret: Ret, key: AgentKey, serial: nat) {
    t.pc.ToEndModel? && t.cb.AfterModel? && t.cb.key == key && ret.RModel? && ret.model.Some? && ret.model.value.serial == serial
  }

  lemma ResumeRecordsUsage(t: Thread, ret: Ret, now: Time, key: AgentKey, serial: nat)
    requires WellFormed(t) && NextStep(t, now).Some?
    ensures Sum(Resume(t, ret, now).1, UsageCalls(key, serial)) == Bit(Wins(t, ret, key, serial))
  {
    SumFew(Resume(t, ret, now).1, UsageCalls(key, serial));
  }

  lemma ResumeReportsDetails(t: Thread, ret: Ret, now: Time, key: AgentKey, serial: nat)
    requires WellFormed(t) && NextStep(t, now).Some?
    ensures var (pc, events) := Resume(t, ret, now);
            Sum(events, DetailsCalls(key, serial)) + Reporting(key, serial)(t.(pc := pc))
            == Reporting(key, serial)(t) + Bit(Wins(t, ret, key, serial) && ret.model.value.provider != "")
  {
    SumFew(Resume(t, ret, now).1, DetailsCalls(key, serial));
  }

  lemma AdvanceReportsOnce(m: Memory, t: Thread, now: Time, key: AgentKey, serial: nat)
    requires WellFormed(t) && Remembers(m)
    ensures var (m', pc, events) := Advance(m, t, now);
            && Sum(events, UsageCalls(key, serial)) + Bit(Terminalized(m, key, serial)) == Bit(Terminalized(m', key, serial))
            && Sum(events, DetailsCalls(key, serial)) + Reporting(key, serial)(t.(pc := pc)) + Bit(Reportable(m, key, serial))
               == Bit(Reportable(m', key, serial)) + Reporting(key, serial)(t)
  {
    var s := NextStep(t, now);
    if s.Some? {
      ResumeRecordsUsage(t, ApplyMemory(m, s.value).1, now, key, serial);
      ResumeReportsDetails(t, ApplyMemory(m, s.value).1, now, key, serial);
      TerminalizedChanges(m, s.value, key, serial);
    }
  }

  lemma MoveReportsOnce(m: Memory, t: Thread, now: Time, key: AgentKey, serial: nat)
    requires WellFormed(t) && Remembers(m)
    ensures var moved, caused := Move(m, t, now), Caused(m, t, now);
            && Sum(caused, UsageCalls(key, serial)) + Bit(Terminalized(m, key, serial)) == Bit(Terminalized(moved.mem, key, serial))
            && Sum(caused, DetailsCalls(key, serial)) + Reporting(key, serial)(moved.thread) + Bit(Reportable(m, key, serial))
               == Bit(Reportable(moved.mem, key, serial)) + Reporting(key, serial)(t)
  {
    if t.unsent == [] {
      AdvanceReportsOnce(m, t, now, key, serial);
    }
  }

  ghost predicate OnceEach(sys: System, key: AgentKey, serial: nat) {
    && AllWellFormed(sys.threads) && Remembers(sys.mem)
    && Sum(sys.log, Logged(UsageCalls(key, serial))) + Sum(sys.threads, Unsent(UsageCalls(key, serial)))
       == Bit(Terminalized(sys.mem, key, serial))
    && Sum(sys.log, Logged(DetailsCalls(key, serial))) + Sum(sys.threads, Unsent(DetailsCalls(key, serial)))
       + Sum(sys.threads, Reporting(key, serial)) == Bit(Reportable(sys.mem, key, serial))
  }

  lemma TickKeepsRemembers(sys: System, tick: Tick)
    requires AllWellFormed(sys.threads) && Remembers(sys.mem)
    ensures Remembers(TickSystem(sys, tick).mem)
  {
    if tick.tid < |sys.threads| {
      var s := Move(sys.mem, sys.threads[tick.tid], tick.now).step;
      if s.Some? {
        AdvanceKeepsRemembers(sys.mem, s.value);
      }
    }
  }

  lemma TickKeepsOnceEach(sys: System, tick: Tick, key: AgentKey, serial: nat)
    requires OnceEach(sys, key, serial)
    ensures OnceEach(TickSystem(sys, tick), key, serial)
  {
    TickKeepsWellFormed(sys, tick);
    TickKeepsRemembers(sys, tick);
    if tick.tid < |sys.threads| {
      MoveReportsOnce(sys.mem, sys.threads[tick.tid], tick.now, key, serial);
      TickSends(sys, tick, UsageCalls(key, serial));
      TickSends(sys, tick, DetailsCalls(key, serial));
      TickHolds(sys, tick, Reporting(key, serial));
    }
  }

  lemma {:induction false} RunKeepsOnceEach(sys: System, schedule: seq<Tick>, key: AgentKey, serial: nat)
    requires OnceEach(sys, key, serial)
    ensures OnceEach(Execute(sys, schedule), key, serial)
    decreases |schedule|
  {
    if schedule == [] {
    } else {
      TickKeepsOnceEach(sys, schedule[0], key, serial);
      RunKeepsOnceEach(TickSystem(sys, schedule[0]), schedule[1..], key, serial);
    }
  }

  // In every interleaving, the usage of a model operation is recorded, or
  // still to be recorded by one callback, once if the operation was
  // terminalized and never otherwise; its details event is emitted at most
  // once and only for a terminalized operation with a provider. Once all
  // callbacks are through, both have been made exactly then.
  lemma ReportedExactlyOnce(cbs: seq<Callback>, schedule: seq<Tick>, key: AgentKey, serial: nat)
    ensures var sys := Execute(Initial(cbs), schedule);
            && Sum(sys.log, Logged(UsageCalls(key, serial))) + Sum(sys.threads, Unsent(UsageCalls(key, serial)))
               == Bit(Terminalized(sys.mem, key, serial))
            && Sum(sys.log, Logged(DetailsCalls(key, serial))) <= Bit(Reportable(sys.mem, key, serial))
            && (AllThrough(sys.threads) ==>
                  && Sum(sys.log, Logged(UsageCalls(key, serial))) == Bit(Terminalized(sys.mem, key, serial))
                  && Sum(sys.log, Logged(DetailsCalls(key, serial))) == Bit(Reportable(sys.mem, key, serial)))
  {
    var start := Initial(cbs);
    InitialOnceEach(cbs, key, serial);
    RunKeepsOnceEach(start, schedule, key, serial);
    var sys := Execute(start, schedule);
    if AllThrough(sys.threads) {
      NothingUnsent(sys.threads, UsageCalls(key, serial));
      NothingUnsent(sys.threads, DetailsCalls(key, serial));
      SumZero(sys.threads, Reporting(key, serial));
    }
  }

  lemma InitialOnceEach(cbs: seq<Callback>, key: AgentKey, serial: nat)
    ensures OnceEach(Initial(cbs), key, serial)
  {
    var threads := Initial(cbs).threads;
    NothingUnsent(threads, UsageCalls(key, serial));
    NothingUnsent(threads, DetailsCalls(key, serial));
    SumZero(threads, Reporting(key, serial));
  }
}
