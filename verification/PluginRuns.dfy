// Whole runs of the plugin's methods are runs of the callback system: one
// schedule among all those that the theorems about interleavings cover.
module PluginRuns {
  import opened Types
  import opened RegistrySpec
  import opened Sequences
  import opened Callbacks
  import opened Plugin

  function Events(log: seq<Entry>): (events: seq<Event>)
    ensures |events| == |log| && forall i | 0 <= i < |log| :: events[i] == log[i].event
  {
    seq(|log|, i requires 0 <= i < |log| => log[i].event)
  }

  // The callbacks move one after the other, in order.
  predicate Serial(schedule: seq<Tick>) {
    forall i, j | 0 <= i < j < |schedule| :: schedule[i].tid <= schedule[j].tid
  }

  // From here to there callback tid has run to its end, all its calls on the
  // instrumenter included, and nothing else.
  ghost predicate RanAlone(sys: System, after: System, tid: nat, now: Time)
    requires AllWellFormed(sys.threads) && tid < |sys.threads|
  {
    var t := sys.threads[tid];
    var (m, events) := Complete(sys.mem, t, now);
    && AllWellFormed(after.threads) && after.threads == sys.threads[tid := Thread(t.cb, Done)]
    && after.mem == m && after.log == sys.log + Tag(tid, t.unsent + events)
  }

  lemma {:induction false} RunsAlone(sys: System, tid: nat, now: Time) returns (ticks: seq<Tick>)
    requires AllWellFormed(sys.threads) && tid < |sys.threads|
    ensures RanAlone(sys, Execute(sys, ticks), tid, now)
    ensures forall i | 0 <= i < |ticks| :: ticks[i].tid == tid
    decreases Rank(sys.threads[tid].pc), |sys.threads[tid].unsent|
  {
    var t := sys.threads[tid];
    if Through(t) {
      ticks := [];
      assert sys.log + Tag(tid, []) == sys.log && sys.threads[tid := t] == sys.threads;
    } else {
      var tick := Tick(tid, now);
      if t.unsent == [] {
        AdvanceFinishes(sys.mem, t, now);
      }
      ExecuteOne(sys, tick);
      var rest := RunsAlone(TickSystem(sys, tick), tid, now);
      ExecuteConcat(sys, [tick], rest);
      ticks := [tick] + rest;
      if t.unsent == [] {
        StepsOn(sys, tick, Execute(sys, ticks));
      } else {
        SendsOn(sys, tick, Execute(sys, ticks));
      }
    }
  }

  // A call and what follows.
  lemma SendsOn(sys: System, tick: Tick, after: System)
    requires AllWellFormed(sys.threads) && tick.tid < |sys.threads| && sys.threads[tick.tid].unsent != []
    requires AllWellFormed(TickSystem(sys, tick).threads) && RanAlone(TickSystem(sys, tick), after, tick.tid, tick.now)
    ensures RanAlone(sys, after, tick.tid, tick.now)
  {
    var t := sys.threads[tick.tid];
    var t' := t.(unsent := t.unsent[1..]);
    SameCompletion(sys.mem, t, t', tick.now);
    FirstOf(t.unsent, Complete(sys.mem, t, tick.now).1);
    LogGrows(sys.log, tick.tid, [t.unsent[0]], t'.unsent + Complete(sys.mem, t, tick.now).1);
  }

  lemma FirstOf<T>(a: seq<T>, b: seq<T>)
    requires a != []
    ensures [a[0]] + (a[1..] + b) == a + b
  {
  }

  // A step and what follows.
  lemma StepsOn(sys: System, tick: Tick, after: System)
    requires AllWellFormed(sys.threads) && tick.tid < |sys.threads|
    requires sys.threads[tick.tid].unsent == [] && !sys.threads[tick.tid].pc.Done?
    requires AllWellFormed(TickSystem(sys, tick).threads) && RanAlone(TickSystem(sys, tick), after, tick.tid, tick.now)
    ensures RanAlone(sys, after, tick.tid, tick.now)
  {
    var t := sys.threads[tick.tid];
    StepCompletes(sys.mem, t, tick.now);
    NothingLogged(sys.log, tick.tid);
  }

  lemma StepCompletes(m: Memory, t: Thread, now: Time)
    requires WellFormed(t) && t.unsent == [] && !t.pc.Done?
    ensures var moved := Move(m, t, now);
            && WellFormed(moved.thread) && Complete(m, t, now).0 == Complete(moved.mem, moved.thread, now).0
            && t.unsent + Complete(m, t, now).1 == moved.thread.unsent + Complete(moved.mem, moved.thread, now).1
  {
    var (m', pc, events) := Advance(m, t, now);
    MoveKeepsWellFormed(m, t, now);
    AdvanceKeepsWellFormed(m, t, now);
    SameCompletion(m', t.(pc := pc, unsent := events), t.(pc := pc), now);
    assert [] + Complete(m, t, now).1 == Complete(m, t, now).1;
  }

  lemma NothingLogged(log: seq<Entry>, tid: nat)
    ensures log + Tag(tid, []) == log
  {
  }

  // Completing a callback starts from where it stands, whatever it has to say.
  lemma {:induction false} SameCompletion(m: Memory, t: Thread, t': Thread, now: Time)
    requires WellFormed(t) && WellFormed(t') && t' == t.(unsent := t'.unsent)
    ensures Complete(m, t, now) == Complete(m, t', now)
    decreases Rank(t.pc)
  {
    if t.pc.Done? {
    } else {
      SameAdvance(m, t, t', now);
      var (m', pc, events) := Advance(m, t, now);
      AdvanceKeepsWellFormed(m, t, now);
      AdvanceKeepsWellFormed(m, t', now);
      AdvanceFinishes(m, t, now);
      SameCompletion(m', t.(pc := pc), t'.(pc := pc), now);
    }
  }

  lemma SameAdvance(m: Memory, t: Thread, t': Thread, now: Time)
    requires WellFormed(t) && WellFormed(t') && t' == t.(unsent := t'.unsent)
    ensures Advance(m, t, now) == Advance(m, t', now)
  {
  }

  lemma LogGrows(log: seq<Entry>, tid: nat, a: seq<Event>, b: seq<Event>)
    ensures (log + Tag(tid, a)) + Tag(tid, b) == log + Tag(tid, a + b)
  {
    assert Tag(tid, a + b) == Tag(tid, a) + Tag(tid, b);
  }

  // One callback on the plugin.
  method RunCallback(p: Plugin, cb: Callback, now: Time)
    requires p.registry.Valid()
    modifies p`log, p.registry, p.registry.states
    ensures p.registry.Valid() && fresh(p.registry.states - old(p.registry.states))
    ensures p.registry.View() == Uninterrupted(old(p.registry.View()), cb, now).0
    ensures p.log == old(p.log) + Uninterrupted(old(p.registry.View()), cb, now).1
  {
    match cb
    case BeforeModel(_, _, _) => p.BeforeModel(cb, now);
    case AfterModel(_, _, _) => p.AfterModel(cb, now);
    case BeforeTool(_, _, _, _, _) => p.BeforeTool(cb, now);
    case AfterTool(_, _, _) => p.AfterTool(cb, now);
    case _ => RunAgentCallback(p, cb, now);
  }

  method RunAgentCallback(p: Plugin, cb: Callback, now: Time)
    requires p.registry.Valid() && !cb.BeforeModel? && !cb.AfterModel? && !cb.BeforeTool? && !cb.AfterTool?
    modifies p`log, p.registry, p.registry.states
    ensures p.registry.Valid() && fresh(p.registry.states - old(p.registry.states))
    ensures p.registry.View() == Uninterrupted(old(p.registry.View()), cb, now).0
    ensures p.log == old(p.log) + Uninterrupted(old(p.registry.View()), cb, now).1
  {
    match cb
    case BeforeAgent(key) => p.BeforeAgent(key, now);
    case AfterAgent(key) => p.AfterAgent(key, now);
    case AfterRun(inv) => p.AfterRun(inv);
    case OnModelError(key, err) => p.ObserveError(key, ModelErrorObserved, GenerateContent, err);
    case OnToolError(key, err) => p.ObserveError(key, ToolErrorObserved, ExecuteTool, err);
  }

  // The schedule has moved the first n callbacks only, one after the other.
  predicate SerialUpTo(schedule: seq<Tick>, n: nat) {
    Serial(schedule) && forall i | 0 <= i < |schedule| :: schedule[i].tid < n
  }

  // The first n callbacks are through, the others have not begun.
  ghost predicate ThroughFirst(sys: System, cbs: seq<Callback>, n: nat) {
    && AllWellFormed(sys.threads) && |sys.threads| == |cbs|
    && forall i | 0 <= i < |cbs| :: sys.threads[i] == if i < n then Thread(cbs[i], Done) else Start(cbs[i])
  }

  // The plugin's objects are where the callback system is.
  ghost predicate Reached(r: Reg, log: seq<Event>, sys: System) {
    r == sys.mem.reg && log == Events(sys.log)
  }

  lemma SerialNext(schedule: seq<Tick>, ticks: seq<Tick>, n: nat)
    requires SerialUpTo(schedule, n) && forall i | 0 <= i < |ticks| :: ticks[i].tid == n
    ensures SerialUpTo(schedule + ticks, n + 1)
  {
  }

  lemma EventsTagged(log: seq<Entry>, tid: nat, events: seq<Event>)
    ensures Events(log + Tag(tid, events)) == Events(log) + events
  {
  }

  lemma ReachedNext(r: Reg, log: seq<Event>, sys: System, after: System, n: nat, now: Time)
    requires AllWellFormed(sys.threads) && n < |sys.threads| && Reached(r, log, sys) && RanAlone(sys, after, n, now)
    requires sys.threads[n] == Start(sys.threads[n].cb)
    ensures var (r', events) := Uninterrupted(r, sys.threads[n].cb, now); Reached(r', log + events, after)
  {
    var (m', events) := Complete(sys.mem, sys.threads[n], now);
    assert (m'.reg, events) == Uninterrupted(r, sys.threads[n].cb, now) by {
      UninterruptedIsThread(sys.mem, sys.threads[n].cb, now);
    }
    assert [] + events == events;
    EventsTagged(sys.log, n, events);
  }

  lemma RunsNext(sys: System, cbs: seq<Callback>, schedule: seq<Tick>, n: nat, now: Time) returns (ticks: seq<Tick>, after: System)
    requires n < |cbs| && ThroughFirst(sys, cbs, n) && SerialUpTo(schedule, n) && sys == Execute(Initial(cbs), schedule)
    ensures after == Execute(Initial(cbs), schedule + ticks) && SerialUpTo(schedule + ticks, n + 1)
    ensures RanAlone(sys, after, n, now) && ThroughFirst(after, cbs, n + 1)
  {
    ticks := RunsAlone(sys, n, now);
    ExecuteConcat(Initial(cbs), schedule, ticks);
    SerialNext(schedule, ticks, n);
    after := Execute(sys, ticks);
  }

  // Any sequence of callbacks on the plugin's objects, each run to its end
  // before the next: the registry and the log are those of the callback
  // system under a serial schedule, so every theorem about schedules is one
  // about these objects.
  method Replay(p: Plugin, cbs: seq<Callback>, clock: nat -> Time) returns (ghost schedule: seq<Tick>)
    requires p.registry.Valid() && p.registry.View() == EMPTY && p.log == []
    modifies p`log, p.registry, p.registry.states
    ensures p.registry.Valid() && Serial(schedule)
    ensures var sys := Execute(Initial(cbs), schedule);
            && p.registry.View() == sys.mem.reg && p.log == Events(sys.log)
            && AllThrough(sys.threads)
  {
    schedule := [];
    ghost var sys := Initial(cbs);
    for n := 0 to |cbs|
      invariant p.registry.Valid() && fresh(p.registry.states - old(p.registry.states))
      invariant sys == Execute(Initial(cbs), schedule) && SerialUpTo(schedule, n) && ThroughFirst(sys, cbs, n)
      invariant Reached(p.registry.View(), p.log, sys)
    {
      ghost var ticks, after := RunsNext(sys, cbs, schedule, n, clock(n));
      ReachedNext(p.registry.View(), p.log, sys, after, n, clock(n));
      RunCallback(p, cbs[n], clock(n));
      schedule, sys := schedule + ticks, after;
    }
  }

  lemma StartTakesOver(r: Reg, key: AgentKey, span: ToolKey, name: string, result: ProjectedContent)
    requires span.IsValid()
    ensures var r' := Uninterrupted(r, BeforeTool(key, Some(span), name, None, None), 0).0;
            && span in r'.tools && r'.tools[span].agentKey == key
            && ToolDuration(span, key, 0, name) in Uninterrupted(r', AfterTool(Some(span), result, None), 0).1
  {
    var r' := Uninterrupted(r, BeforeTool(key, Some(span), name, None, None), 0).0;
    assert Uninterrupted(r', AfterTool(Some(span), result, None), 0).1[0] == ToolDuration(span, key, 0, name);
  }

  // Two agents, of any invocations, that start tools under one span: the
  // second start takes over, and when the tool ends it counts for the second.
  lemma SharedSpanTakesOver(key: AgentKey, other: AgentKey, span: ToolKey, name: string, result: ProjectedContent)
    returns (cbs: seq<Callback>, schedule: seq<Tick>)
    requires span.IsValid()
    ensures cbs == [BeforeTool(key, Some(span), name, None, None), BeforeTool(other, Some(span), name, None, None)]
    ensures var r := Execute(Initial(cbs), schedule).mem.reg;
            && span in r.tools && r.tools[span].agentKey == other
            && ToolDuration(span, other, 0, name) in Uninterrupted(r, AfterTool(Some(span), result, None), 0).1
  {
    cbs := [BeforeTool(key, Some(span), name, None, None), BeforeTool(other, Some(span), name, None, None)];
    var first, one := RunsNext(Initial(cbs), cbs, [], 0, 0);
    var second, both := RunsNext(one, cbs, [] + first, 1, 0);
    schedule := [] + first + second;
    ReachedNext(one.mem.reg, Events(one.log), one, both, 1, 0);
    StartTakesOver(one.mem.reg, other, span, name, result);
  }
}
