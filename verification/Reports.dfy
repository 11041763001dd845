// What the calls on the instrumenter say, under every interleaving: each in
// terms of the callback that made it and of the state it is about.
module Reports {
  import opened Types
  import opened RegistrySpec
  import opened RegistryHistory
  import Runs = RegistryRuns
  import opened Sequences
  import opened Callbacks
  import opened CallbackRuns

  // The system before decision k.
  ghost function Before(cbs: seq<Callback>, schedule: seq<Tick>, k: nat): (sys: System)
    requires k <= |schedule|
    ensures AllWellFormed(sys.threads) && |sys.threads| == |cbs|
    ensures forall i | 0 <= i < |cbs| :: sys.threads[i].cb == cbs[i]
  {
    CallbacksStay(Initial(cbs), schedule[..k]);
    var sys := Execute(Initial(cbs), schedule[..k]);
    assert forall i | 0 <= i < |cbs| :: sys.threads[i].cb == Initial(cbs).threads[i].cb;
    sys
  }

  lemma BeforeFirst(cbs: seq<Callback>, schedule: seq<Tick>)
    ensures Before(cbs, schedule, 0) == Initial(cbs)
  {
    assert schedule[..0] == [];
  }

  lemma BeforeNext(cbs: seq<Callback>, schedule: seq<Tick>, k: nat)
    requires k < |schedule|
    ensures Before(cbs, schedule, k + 1) == TickSystem(Before(cbs, schedule, k), schedule[k])
  {
    ExecuteConcat(Initial(cbs), schedule[..k], [schedule[k]]);
    assert schedule[..k + 1] == schedule[..k] + [schedule[k]];
    ExecuteOne(Before(cbs, schedule, k), schedule[k]);
  }

  lemma BeforeLast(cbs: seq<Callback>, schedule: seq<Tick>)
    ensures Before(cbs, schedule, |schedule|) == Execute(Initial(cbs), schedule)
  {
    assert schedule[..|schedule|] == schedule;
  }

  lemma {:induction false} BeforeTraced(cbs: seq<Callback>, schedule: seq<Tick>, k: nat)
    requires k <= |schedule|
    ensures Traced(Before(cbs, schedule, k))
  {
    if k == 0 {
      BeforeFirst(cbs, schedule);
    } else {
      BeforeTraced(cbs, schedule, k - 1);
      BeforeNext(cbs, schedule, k - 1);
      TickKeepsTraced(Before(cbs, schedule, k - 1), schedule[k - 1]);
    }
  }

  // ---- What a callback was given when it ended something ----

  // At this point the callback ends an agent, a model operation or a tool that
  // is there to be ended.
  predicate EndsAgent(m: Memory, t: Thread, key: AgentKey) {
    t == Start(AfterAgent(key)) && key in m.reg.agents
  }

  predicate EndsModel(m: Memory, t: Thread) {
    t.cb.AfterModel? && t.pc.ToEndModel? && t.unsent == [] && t.cb.key in m.reg.models
  }

  predicate EndsTool(m: Memory, t: Thread) {
    t.cb.AfterTool? && t.cb.span.Some? && t == Start(t.cb) && t.cb.span.value in m.reg.tools
  }

  // Decision k is that turn of callback tid.
  ghost predicate EndsModelAt(cbs: seq<Callback>, schedule: seq<Tick>, k: nat, tid: nat) {
    k < |schedule| && schedule[k].tid == tid < |cbs| && EndsModel(Before(cbs, schedule, k).mem, Before(cbs, schedule, k).threads[tid])
  }

  ghost predicate EndsToolAt(cbs: seq<Callback>, schedule: seq<Tick>, k: nat, tid: nat) {
    k < |schedule| && schedule[k].tid == tid < |cbs| && EndsTool(Before(cbs, schedule, k).mem, Before(cbs, schedule, k).threads[tid])
  }

  ghost predicate EndsAgentAt(cbs: seq<Callback>, schedule: seq<Tick>, k: nat, tid: nat, key: AgentKey) {
    k < |schedule| && schedule[k].tid == tid < |cbs| && EndsAgent(Before(cbs, schedule, k).mem, Before(cbs, schedule, k).threads[tid], key)
  }

  // The operation or tool a callback still reports on is the one it ended.
  ghost predicate FromEnded(cbs: seq<Callback>, schedule: seq<Tick>, n: nat, tid: nat)
    requires n <= |schedule| && tid < |cbs|
  {
    var pc := Before(cbs, schedule, n).threads[tid].pc;
    && (pc.ToCountInference? || pc.ToMarkModel? ==> exists k | 0 <= k < n :: EndedModel(cbs, schedule, k, tid, pc.model))
    && (pc.ToCountTool? || pc.ToMarkTool? ==> exists k | 0 <= k < n :: EndedTool(cbs, schedule, k, tid, pc.tool))
  }

  ghost predicate EndedModel(cbs: seq<Callback>, schedule: seq<Tick>, k: nat, tid: nat, st: ModelRecord) {
    EndsModelAt(cbs, schedule, k, tid) && st == Before(cbs, schedule, k).mem.reg.models[cbs[tid].key].(terminalized := true)
  }

  ghost predicate EndedTool(cbs: seq<Callback>, schedule: seq<Tick>, k: nat, tid: nat, st: ToolRecord) {
    EndsToolAt(cbs, schedule, k, tid) && st == Before(cbs, schedule, k).mem.reg.tools[cbs[tid].span.value].(terminalized := true)
  }

  lemma AdvanceEnds(m: Memory, t: Thread, now: Time)
    requires WellFormed(t) && t.unsent == []
    ensures var pc := Advance(m, t, now).1;
            && (pc.ToCountInference? ==> EndsModel(m, t) && pc.model == m.reg.models[t.cb.key].(terminalized := true))
            && (pc.ToMarkModel? ==> t.pc.ToCountInference? && pc.model == t.pc.model)
            && (pc.ToCountTool? ==> EndsTool(m, t) && pc.tool == m.reg.tools[t.cb.span.value].(terminalized := true))
            && (pc.ToMarkTool? ==> t.pc.ToCountTool? && pc.tool == t.pc.tool)
  {
  }

  lemma {:induction false} ReportsOnEnded(cbs: seq<Callback>, schedule: seq<Tick>, n: nat, tid: nat)
    requires n <= |schedule| && tid < |cbs|
    ensures FromEnded(cbs, schedule, n, tid)
  {
    if n == 0 {
      BeforeFirst(cbs, schedule);
    } else {
      ReportsOnEnded(cbs, schedule, n - 1, tid);
      StillFromEnded(cbs, schedule, n - 1, tid);
    }
  }

  lemma StillFromEnded(cbs: seq<Callback>, schedule: seq<Tick>, n: nat, tid: nat)
    requires n < |schedule| && tid < |cbs| && FromEnded(cbs, schedule, n, tid)
    ensures FromEnded(cbs, schedule, n + 1, tid)
  {
    BeforeNext(cbs, schedule, n);
    var sys := Before(cbs, schedule, n);
    var t, pc := sys.threads[tid], Before(cbs, schedule, n + 1).threads[tid].pc;
    if schedule[n].tid == tid && t.unsent == [] {
      AdvanceEnds(sys.mem, t, schedule[n].now);
      if pc.ToCountInference? {
        assert EndedModel(cbs, schedule, n, tid, pc.model);
      } else if pc.ToCountTool? {
        assert EndedTool(cbs, schedule, n, tid, pc.tool);
      }
    }
  }

  // ---- What each call says ----

  // The details event, field by field: what the ended operation holds, and
  // what the response that ended it brings.
  predicate DetailsSay(d: Details, st: ModelRecord, cb: Callback)
    requires cb.AfterModel?
  {
    && d.provider == st.provider && d.requestModel == st.model && d.streaming == st.streaming && d.usage == st.usage
    && d.sys == st.systemInstructions && d.input == st.inputMessages && ResponseSays(d, cb)
  }

  predicate ResponseSays(d: Details, cb: Callback)
    requires cb.AfterModel?
  {
    && (match cb.resp
        case Some(r) => d.output == r.output && d.responseModel == r.modelVersion
                        && d.finishReasons == (if r.finishReason == "" then [] else [r.finishReason])
        case None => d.output == NoContent && d.responseModel == "" && d.finishReasons == [])
    && (match cb.err
        case Some(e) => d.errorType == Known(e.second)
        case None => d.errorType == ERROR_NONE)
  }

  predicate OccurrenceSays(e: Event, m: Memory, t: Thread)
    requires e.AgentOccurrence?
  {
    match e.kind
    case ModelErrorObserved =>
      t.cb.OnModelError? && t.cb.key == e.key && e.operation == GenerateContent && t.cb.err.Some? && e.errorType == Known(t.cb.err.value.first)
    case ToolErrorObserved =>
      t.cb.OnToolError? && t.cb.key == e.key && e.operation == ExecuteTool && t.cb.err.Some? && e.errorType == Known(t.cb.err.value.first)
    case ContinuedAfterError =>
      && ((t.cb.BeforeModel? && e.operation == GenerateContent) || (t.cb.BeforeTool? && e.operation == ExecuteTool))
      && t.cb.key == e.key && e.key in m.reg.agents && m.reg.agents[e.key].pendingError == e.errorType != ERROR_NONE
  }

  predicate FailureSays(fault: Fault, m: Memory, t: Thread) {
    match fault
    case ModelStateConflict => t.cb.BeforeModel? && Active(m.reg, t.cb.key)
    case ProviderResolverPanic => t.cb.BeforeModel? && t.cb.request.eventsEnabled && t.cb.request.resolver.Panics?
    case InvalidToolSpan => t.cb.BeforeTool? && (t.cb.span.Some? ==> !t.cb.span.value.IsValid())
    case ToolSystemResolverPanic => t.cb.BeforeTool? && t.cb.system.None?
  }

  // A call that follows from this turn: what it says is about the state the
  // turn ends, or the one the callback has ended before.
  ghost predicate SaysNow(e: Event, m: Memory, t: Thread, now: Time)
    requires WellFormed(t)
  {
    match e
    case AgentDuration(key, name, duration) =>
      EndsAgent(m, t, key) && name == m.reg.agents[key].name && duration == now - m.reg.agents[key].start
    case AgentInferenceCalls(key, name, calls) =>
      EndsAgent(m, t, key) && name == m.reg.agents[key].name && calls == m.reg.agents[key].inferenceCalls
    case AgentToolCalls(key, name, calls) =>
      EndsAgent(m, t, key) && name == m.reg.agents[key].name && calls == m.reg.agents[key].toolCalls
    case InferenceDuration(key, serial, duration, model) =>
      EndsModel(m, t) && key == t.cb.key && var st := m.reg.models[key];
      serial == st.serial && duration == now - st.start && model == st.model
    case InferenceUsage(key, serial, usage, model) =>
      EndsModel(m, t) && key == t.cb.key && var st := m.reg.models[key];
      serial == st.serial && usage == st.usage && model == st.model
    case InferenceDetails(key, serial, details) =>
      (t.pc.ToCountInference? || t.pc.ToMarkModel?) && key == t.cb.key && var st := t.pc.model;
      serial == st.serial && st.provider != "" && DetailsSay(details, st, t.cb)
    case ToolDuration(span, parent, duration, name) =>
      EndsTool(m, t) && t.cb.span == Some(span) && var st := m.reg.tools[span];
      parent == st.agentKey && duration == now - st.start && name == st.name
    case ToolDetails(span, name, args, result, et) =>
      (t.pc.ToCountTool? || t.pc.ToMarkTool?) && var st := t.pc.tool;
      span == st.key && name == st.name && args == st.arguments && ToolOutcomeSays(result, et, t.cb)
    case SpanOutcome(span, failed) =>
      (t.pc.ToCountTool? || t.pc.ToMarkTool?) && span == t.pc.tool.key && (failed <==> t.cb.err.Some?)
    case AgentOccurrence(_, _, _, _) => OccurrenceSays(e, m, t)
    case ToolSpanAttributes(span, system) =>
      t.cb.BeforeTool? && t.cb.span == Some(span) && system == t.cb.system.GetOr("")
    case InstrumentationFailure(fault) => FailureSays(fault, m, t)
  }

  // A failed tool has an error type and no result, another one its result.
  predicate ToolOutcomeSays(result: ProjectedContent, et: ErrorType, cb: Callback)
    requires cb.AfterTool?
  {
    match cb.err
    case None => result == cb.result && et == ERROR_NONE
    case Some(e) => result == NoContent && et == Known(e.first)
  }

  // The locals of a callback are its own.
  predicate OwnLocals(t: Thread)
    requires WellFormed(t)
  {
    match t.pc
    case ToUpdateRequest(_, provider) =>
      t.cb.request.eventsEnabled && ResolveProvider(t.cb.request.resolver, t.cb.request.provider) == Some(provider)
    case ToReadUsage(_) => t.cb.resp.Some? && t.cb.resp.value.partial && t.cb.resp.value.usage.None?
    case ToUpdateUsage(_, usage, streaming) => UsageFrom(t.cb, usage, streaming)
    case ToEndModel(_) => Terminal(t.cb)
    case ToStartTool(span) => t.cb.span == Some(span)
    case ToSetArguments(span) => t.cb.span == Some(span)
    case _ => true
  }

  // A response brings its usage, or, if it has none, is a partial one.
  predicate UsageFrom(cb: Callback, usage: Usage, streaming: bool)
    requires cb.AfterModel?
  {
    && cb.resp.Some? && (streaming <==> cb.resp.value.partial)
    && match cb.resp.value.usage
       case Some(um) => usage == MapUsageMetadata(um)
       case None => streaming
  }

  // Not a partial response, or one that came with an error.
  predicate Terminal(cb: Callback)
    requires cb.AfterModel?
  {
    cb.err.Some? || cb.resp.None? || !cb.resp.value.partial
  }

  lemma AdvanceKeepsLocals(m: Memory, t: Thread, now: Time)
    requires WellFormed(t) && OwnLocals(t)
    ensures var (_, pc, events) := Advance(m, t, now);
            WellFormed(t.(pc := pc, unsent := events)) && OwnLocals(t.(pc := pc, unsent := events))
  {
    AdvanceKeepsWellFormed(m, t, now);
  }

  // A turn that may bring calls about.
  ghost predicate Ready(m: Memory, t: Thread) {
    WellFormed(t) && OwnLocals(t) && t.unsent == [] && Consistent(m.reg)
  }

  lemma AgentSays(m: Memory, t: Thread, now: Time, e: Event)
    requires Ready(m, t) && t.pc.Begin? && !t.cb.AfterTool? && e in Advance(m, t, now).2
    ensures SaysNow(e, m, t, now)
  {
  }

  lemma ToolSays(m: Memory, t: Thread, now: Time, e: Event)
    requires Ready(m, t) && t.pc.Begin? && t.cb.AfterTool? && e in Advance(m, t, now).2
    ensures SaysNow(e, m, t, now)
  {
  }

  lemma ModelSays(m: Memory, t: Thread, now: Time, e: Event)
    requires Ready(m, t) && (t.pc.ToStartModel? || t.pc.ToEndModel?) && e in Advance(m, t, now).2
    ensures SaysNow(e, m, t, now)
  {
  }

  lemma LateSays(m: Memory, t: Thread, now: Time, e: Event)
    requires Ready(m, t) && !t.pc.Begin? && !t.pc.ToStartModel? && !t.pc.ToEndModel? && e in Advance(m, t, now).2
    ensures SaysNow(e, m, t, now)
  {
  }

  lemma AdvanceSays(m: Memory, t: Thread, now: Time, e: Event)
    requires Ready(m, t) && e in Advance(m, t, now).2
    ensures SaysNow(e, m, t, now)
  {
    if t.pc.Begin? {
      if t.cb.AfterTool? {
        ToolSays(m, t, now, e);
      } else {
        AgentSays(m, t, now, e);
      }
    } else if t.pc.ToStartModel? || t.pc.ToEndModel? {
      ModelSays(m, t, now, e);
    } else {
      LateSays(m, t, now, e);
    }
  }

  // ---- Over a whole run ----

  ghost predicate Sound(sys: System) {
    && AllWellFormed(sys.threads) && Consistent(sys.mem.reg)
    && forall i | 0 <= i < |sys.threads| :: OwnLocals(sys.threads[i])
  }

  lemma TickKeepsSound(sys: System, tick: Tick)
    requires Sound(sys)
    ensures Sound(TickSystem(sys, tick))
  {
    TickKeepsWellFormed(sys, tick);
    if tick.tid < |sys.threads| {
      var t := sys.threads[tick.tid];
      if t.unsent == [] {
        AdvanceKeepsLocals(sys.mem, t, tick.now);
        if NextStep(t, tick.now).Some? {
          StepKeepsConsistent(sys.mem.reg, NextStep(t, tick.now).value);
        }
      }
    }
  }

  lemma {:induction false} BeforeSound(cbs: seq<Callback>, schedule: seq<Tick>, k: nat)
    requires k <= |schedule|
    ensures Sound(Before(cbs, schedule, k))
  {
    if k == 0 {
      BeforeFirst(cbs, schedule);
    } else {
      BeforeSound(cbs, schedule, k - 1);
      BeforeNext(cbs, schedule, k - 1);
      TickKeepsSound(Before(cbs, schedule, k - 1), schedule[k - 1]);
    }
  }

  // Decision k brought this call about.
  ghost predicate CausedAt(cbs: seq<Callback>, schedule: seq<Tick>, k: nat, tid: nat, e: Event) {
    && k < |schedule| && schedule[k].tid == tid < |cbs|
    && e in Caused(Before(cbs, schedule, k).mem, Before(cbs, schedule, k).threads[tid], schedule[k].now)
  }

  ghost predicate HasCause(cbs: seq<Callback>, schedule: seq<Tick>, n: nat, tid: nat, e: Event) {
    exists k | 0 <= k < n :: CausedAt(cbs, schedule, k, tid, e)
  }

  ghost predicate LogExplained(cbs: seq<Callback>, schedule: seq<Tick>, n: nat, log: seq<Entry>) {
    forall entry | entry in log :: HasCause(cbs, schedule, n, entry.tid, entry.event)
  }

  ghost predicate UnsentExplained(cbs: seq<Callback>, schedule: seq<Tick>, n: nat, threads: seq<Thread>) {
    forall tid, e | 0 <= tid < |threads| && e in threads[tid].unsent :: HasCause(cbs, schedule, n, tid, e)
  }

  ghost predicate Explained(cbs: seq<Callback>, schedule: seq<Tick>, n: nat)
    requires n <= |schedule|
  {
    LogExplained(cbs, schedule, n, Before(cbs, schedule, n).log) && UnsentExplained(cbs, schedule, n, Before(cbs, schedule, n).threads)
  }

  lemma StillExplained(cbs: seq<Callback>, schedule: seq<Tick>, n: nat, log: seq<Entry>, threads: seq<Thread>)
    requires LogExplained(cbs, schedule, n, log) && UnsentExplained(cbs, schedule, n, threads)
    ensures LogExplained(cbs, schedule, n + 1, log) && UnsentExplained(cbs, schedule, n + 1, threads)
  {
    forall tid, e | HasCause(cbs, schedule, n, tid, e) ensures HasCause(cbs, schedule, n + 1, tid, e) {
      var k :| 0 <= k < n && CausedAt(cbs, schedule, k, tid, e);
      assert 0 <= k < n + 1;
    }
  }

  // What a turn sends was unsent before, and what it leaves unsent was so
  // before or comes from this turn.
  lemma MoveFrom(m: Memory, t: Thread, now: Time, e: Event)
    requires WellFormed(t)
    ensures e in Move(m, t, now).sent ==> e in t.unsent
    ensures e in Move(m, t, now).thread.unsent ==> e in t.unsent || e in Caused(m, t, now)
  {
  }

  lemma MoveExplained(cbs: seq<Callback>, schedule: seq<Tick>, n: nat, sys: System)
    requires n < |schedule| && sys == Before(cbs, schedule, n) && schedule[n].tid < |cbs|
    requires LogExplained(cbs, schedule, n + 1, sys.log) && UnsentExplained(cbs, schedule, n + 1, sys.threads)
    ensures var tid := schedule[n].tid;
            var moved := Move(sys.mem, sys.threads[tid], schedule[n].now);
            && LogExplained(cbs, schedule, n + 1, sys.log + Tag(tid, moved.sent))
            && UnsentExplained(cbs, schedule, n + 1, sys.threads[tid := moved.thread])
  {
    var tid := schedule[n].tid;
    var t := sys.threads[tid];
    var moved := Move(sys.mem, t, schedule[n].now);
    forall e ensures e in moved.sent ==> HasCause(cbs, schedule, n + 1, tid, e) {
      MoveFrom(sys.mem, t, schedule[n].now, e);
    }
    forall e ensures e in moved.thread.unsent ==> HasCause(cbs, schedule, n + 1, tid, e) {
      MoveFrom(sys.mem, t, schedule[n].now, e);
      if e in Caused(sys.mem, t, schedule[n].now) {
        assert CausedAt(cbs, schedule, n, tid, e);
      }
    }
  }

  lemma ExplainedNext(cbs: seq<Callback>, schedule: seq<Tick>, n: nat)
    requires n < |schedule| && Explained(cbs, schedule, n)
    ensures Explained(cbs, schedule, n + 1)
  {
    var sys := Before(cbs, schedule, n);
    BeforeNext(cbs, schedule, n);
    StillExplained(cbs, schedule, n, sys.log, sys.threads);
    if schedule[n].tid < |cbs| {
      MoveExplained(cbs, schedule, n, sys);
    }
  }

  lemma {:induction false} AllExplained(cbs: seq<Callback>, schedule: seq<Tick>, n: nat)
    requires n <= |schedule|
    ensures Explained(cbs, schedule, n)
  {
    if n == 0 {
      BeforeFirst(cbs, schedule);
    } else {
      AllExplained(cbs, schedule, n - 1);
      ExplainedNext(cbs, schedule, n - 1);
    }
  }

  // In every interleaving, each call in the log says what the turn that
  // brought it about found.
  lemma EventSays(cbs: seq<Callback>, schedule: seq<Tick>, p: nat) returns (k: nat)
    requires p < |Execute(Initial(cbs), schedule).log|
    ensures var entry := Execute(Initial(cbs), schedule).log[p];
            && CausedAt(cbs, schedule, k, entry.tid, entry.event)
            && SaysNow(entry.event, Before(cbs, schedule, k).mem, Before(cbs, schedule, k).threads[entry.tid], schedule[k].now)
  {
    BeforeLast(cbs, schedule);
    AllExplained(cbs, schedule, |schedule|);
    var entry := Execute(Initial(cbs), schedule).log[p];
    assert HasCause(cbs, schedule, |schedule|, entry.tid, entry.event);
    k :| 0 <= k < |schedule| && CausedAt(cbs, schedule, k, entry.tid, entry.event);
    BeforeSound(cbs, schedule, k);
    var before := Before(cbs, schedule, k);
    AdvanceSays(before.mem, before.threads[entry.tid], schedule[k].now, entry.event);
  }

  // ---- Agents, operations and tools, from start to end ----

  // The registry before decision k, and the steps that have led to it.
  lemma TraceBefore(cbs: seq<Callback>, schedule: seq<Tick>, k: nat)
    requires k <= |schedule|
    ensures var sys := Before(cbs, schedule, k); sys.mem.reg == At(EMPTY, sys.trace, |sys.trace|)
  {
    BeforeTraced(cbs, schedule, k);
  }

  // The agent that decision k ends, from its start at step i.
  predicate AgentReport(e: Event, i: nat, steps: seq<Step>, now: Time) {
    match e
    case AgentDuration(key, name, duration) =>
      StartedAgentAt(steps, key, i, |steps|) && name == steps[i].name && duration == now - steps[i].now
    case AgentInferenceCalls(key, name, calls) =>
      StartedAgentAt(steps, key, i, |steps|) && name == steps[i].name
      && calls == Runs.IncrementsIn(Runs.Inference, steps, key, i + 1, |steps|)
    case AgentToolCalls(key, name, calls) =>
      StartedAgentAt(steps, key, i, |steps|) && name == steps[i].name
      && calls == Runs.IncrementsIn(Runs.Tool, steps, key, i + 1, |steps|)
    case _ => false
  }

  predicate OfAgent(e: Event) {
    e.AgentDuration? || e.AgentInferenceCalls? || e.AgentToolCalls?
  }

  // What afterAgent reports: name and duration since the last start of its
  // key, and the calls counted since.
  lemma AgentReported(cbs: seq<Callback>, schedule: seq<Tick>, p: nat) returns (k: nat, i: nat)
    requires p < |Execute(Initial(cbs), schedule).log| && OfAgent(Execute(Initial(cbs), schedule).log[p].event)
    ensures var entry := Execute(Initial(cbs), schedule).log[p];
            && EndsAgentAt(cbs, schedule, k, entry.tid, entry.event.key)
            && AgentReport(entry.event, i, Before(cbs, schedule, k).trace, schedule[k].now)
  {
    k := EventSays(cbs, schedule, p);
    var e, steps := Execute(Initial(cbs), schedule).log[p].event, Before(cbs, schedule, k).trace;
    TraceBefore(cbs, schedule, k);
    i := AgentHistory(steps, e.key, |steps|);
    CountedSince(steps, e.key, i);
  }

  lemma CountedSince(steps: seq<Step>, key: AgentKey, i: nat)
    requires StartedAgentAt(steps, key, i, |steps|) && key in Run(EMPTY, steps).agents
    ensures var st := Run(EMPTY, steps).agents[key];
            && st.inferenceCalls == Runs.IncrementsIn(Runs.Inference, steps, key, i + 1, |steps|)
            && st.toolCalls == Runs.IncrementsIn(Runs.Tool, steps, key, i + 1, |steps|)
  {
    Runs.CountsSinceStart(Runs.Inference, EMPTY, steps, key, i + 1, |steps|);
    Runs.CountsSinceStart(Runs.Tool, EMPTY, steps, key, i + 1, |steps|);
  }

  // The tool that decision k ends, from its start at step i: name, agent and
  // start time are those of the start, the arguments those stored since. The
  // details and the span carry the outcome the callback brings.
  predicate ToolReport(e: Event, i: nat, steps: seq<Step>, now: Time, cb: Callback)
    requires cb.AfterTool?
  {
    match e
    case ToolDuration(span, parent, duration, name) =>
      StartedToolAt(steps, span, i, |steps|) && cb.span == Some(span)
      && name == steps[i].name && parent == steps[i].key && duration == now - steps[i].now
    case ToolDetails(span, name, args, result, et) =>
      StartedToolAt(steps, span, i, |steps|) && cb.span == Some(span)
      && name == steps[i].name && args == ArgumentsIn(steps, span, i + 1, |steps|) && ToolOutcomeSays(result, et, cb)
    case SpanOutcome(span, failed) =>
      StartedToolAt(steps, span, i, |steps|) && cb.span == Some(span) && (failed <==> cb.err.Some?)
    case _ => false
  }

  predicate OfTool(e: Event) {
    e.ToolDuration? || e.ToolDetails? || e.SpanOutcome?
  }

  // The turn at which the callback ended the tool this call is about.
  lemma ToolEnd(cbs: seq<Callback>, schedule: seq<Tick>, p: nat) returns (k: nat)
    requires p < |Execute(Initial(cbs), schedule).log| && OfTool(Execute(Initial(cbs), schedule).log[p].event)
    ensures var (tid, e) := (Execute(Initial(cbs), schedule).log[p].tid, Execute(Initial(cbs), schedule).log[p].event);
            && EndsToolAt(cbs, schedule, k, tid)
            && ToolEventSays(e, Before(cbs, schedule, k).mem.reg.tools[cbs[tid].span.value], schedule[k].now, cbs[tid])
  {
    var late := EventSays(cbs, schedule, p);
    var tid, e := Execute(Initial(cbs), schedule).log[p].tid, Execute(Initial(cbs), schedule).log[p].event;
    k := late;
    if !e.ToolDuration? {
      var t := Before(cbs, schedule, late).threads[tid];
      ReportsOnEnded(cbs, schedule, late, tid);
      k :| 0 <= k < late && EndedTool(cbs, schedule, k, tid, t.pc.tool);
    }
    BeforeSound(cbs, schedule, k);
  }

  // The same, about the state the tool had when it was ended.
  predicate ToolEventSays(e: Event, st: ToolRecord, now: Time, cb: Callback)
    requires cb.AfterTool?
  {
    match e
    case ToolDuration(span, parent, duration, name) =>
      cb.span == Some(span) && name == st.name && parent == st.agentKey && duration == now - st.start
    case ToolDetails(span, name, args, result, et) =>
      cb.span == Some(span) && name == st.name && args == st.arguments && ToolOutcomeSays(result, et, cb)
    case SpanOutcome(span, failed) => cb.span == Some(span) && (failed <==> cb.err.Some?)
    case _ => false
  }

  // What afterTool reports, in every interleaving.
  lemma ToolReported(cbs: seq<Callback>, schedule: seq<Tick>, p: nat) returns (k: nat, i: nat)
    requires p < |Execute(Initial(cbs), schedule).log| && OfTool(Execute(Initial(cbs), schedule).log[p].event)
    ensures var (tid, e) := (Execute(Initial(cbs), schedule).log[p].tid, Execute(Initial(cbs), schedule).log[p].event);
            && EndsToolAt(cbs, schedule, k, tid)
            && ToolReport(e, i, Before(cbs, schedule, k).trace, schedule[k].now, cbs[tid])
  {
    k := ToolEnd(cbs, schedule, p);
    var tid, steps := schedule[k].tid, Before(cbs, schedule, k).trace;
    TraceBefore(cbs, schedule, k);
    i := ToolHistory(steps, cbs[tid].span.value, |steps|);
  }

  // The model operation that decision k ends, from its start at step i: model
  // and start time are those of the start, usage, streaming flag and request
  // what has been written by key since, the rest what the callback brings.
  ghost predicate ModelReport(e: Event, i: nat, steps: seq<Step>, now: Time, cb: Callback)
    requires cb.AfterModel?
  {
    && StartedModelAt(steps, cb.key, i, |steps|)
    && match e
       case InferenceDuration(key, serial, duration, model) =>
         key == cb.key && model == steps[i].model && duration == now - steps[i].now
       case InferenceUsage(key, serial, usage, model) =>
         key == cb.key && model == steps[i].model && usage == UsageIn(steps, key, i + 1, |steps|)
       case InferenceDetails(key, serial, d) =>
         && key == cb.key && d.requestModel == steps[i].model && d.usage == UsageIn(steps, key, i + 1, |steps|)
         && (d.streaming <==> StreamedIn(steps, key, i + 1, |steps|))
         && (d.provider, d.sys, d.input) == RequestIn(steps, key, i + 1, |steps|) && d.provider != ""
         && ResponseSays(d, cb)
       case _ => false
  }

  predicate OfModel(e: Event) {
    e.InferenceDuration? || e.InferenceUsage? || e.InferenceDetails?
  }

  // The same, about the state the operation had when it was ended.
  predicate ModelEventSays(e: Event, st: ModelRecord, now: Time, cb: Callback)
    requires cb.AfterModel?
  {
    match e
    case InferenceDuration(key, serial, duration, model) =>
      key == cb.key && serial == st.serial && model == st.model && duration == now - st.start
    case InferenceUsage(key, serial, usage, model) => key == cb.key && serial == st.serial && model == st.model && usage == st.usage
    case InferenceDetails(key, serial, d) => key == cb.key && serial == st.serial && st.provider != "" && DetailsSay(d, st, cb)
    case _ => false
  }

  lemma ModelEnd(cbs: seq<Callback>, schedule: seq<Tick>, p: nat) returns (k: nat)
    requires p < |Execute(Initial(cbs), schedule).log| && OfModel(Execute(Initial(cbs), schedule).log[p].event)
    ensures var (tid, e) := (Execute(Initial(cbs), schedule).log[p].tid, Execute(Initial(cbs), schedule).log[p].event);
            && EndsModelAt(cbs, schedule, k, tid)
            && ModelEventSays(e, Before(cbs, schedule, k).mem.reg.models[cbs[tid].key], schedule[k].now, cbs[tid])
  {
    var late := EventSays(cbs, schedule, p);
    var tid, e := Execute(Initial(cbs), schedule).log[p].tid, Execute(Initial(cbs), schedule).log[p].event;
    k := late;
    if e.InferenceDetails? {
      var t := Before(cbs, schedule, late).threads[tid];
      ReportsOnEnded(cbs, schedule, late, tid);
      k :| 0 <= k < late && EndedModel(cbs, schedule, k, tid, t.pc.model);
    }
  }

  // What afterModel reports, in every interleaving.
  lemma ModelReported(cbs: seq<Callback>, schedule: seq<Tick>, p: nat) returns (k: nat, i: nat)
    requires p < |Execute(Initial(cbs), schedule).log| && OfModel(Execute(Initial(cbs), schedule).log[p].event)
    ensures var (tid, e) := (Execute(Initial(cbs), schedule).log[p].tid, Execute(Initial(cbs), schedule).log[p].event);
            && EndsModelAt(cbs, schedule, k, tid)
            && ModelReport(e, i, Before(cbs, schedule, k).trace, schedule[k].now, cbs[tid])
  {
    k := ModelEnd(cbs, schedule, p);
    var tid, steps := schedule[k].tid, Before(cbs, schedule, k).trace;
    TraceBefore(cbs, schedule, k);
    i := ModelHistory(steps, cbs[tid].key, |steps|);
  }

  // ---- Every step is a callback's ----

  // What each callback does to the registry, and with what.
  predicate MadeBy(s: Step, cb: Callback) {
    match s
    case SStartAgent(key, name, _) => cb == BeforeAgent(key) && name == key.agentName
    case SEndAgent(key) => cb == AfterAgent(key)
    case SIncrementInference(key) => cb.AfterModel? && cb.key == key
    case SIncrementTool(_) => cb.AfterTool?
    case SMarkPending(key, et) =>
      && (cb.OnModelError? || cb.OnToolError? || cb.AfterModel? || cb.AfterTool?)
      && cb.err.Some? && et == Known(cb.err.value.first) && (!cb.AfterTool? ==> cb.key == key)
    case STakePending(key) => (cb.BeforeModel? || cb.BeforeTool?) && cb.key == key
    case SStartModel(key, model, _) => cb.BeforeModel? && cb.key == key && cb.model == model
    case SGetModel(key) => cb.AfterModel? && cb.key == key
    case SUpdateRequest(key, provider, sys, input) =>
      && cb.BeforeModel? && cb.key == key && cb.request.eventsEnabled && sys == cb.request.sys && input == cb.request.input
      && Some(provider) == ResolveProvider(cb.request.resolver, cb.request.provider)
    case SUpdateUsage(key, usage, streaming) => cb.AfterModel? && cb.key == key && UsageFrom(cb, usage, streaming)
    case SEndModel(key) => cb.AfterModel? && cb.key == key && Terminal(cb)
    case SStartTool(span, key, inv, name, _) =>
      cb.BeforeTool? && cb.span == Some(span) && cb.key == key && inv == key.invocationID && cb.name == name
    case SSetArguments(span, args) => cb.BeforeTool? && cb.span == Some(span) && cb.args == Some(args)
    case SEndTool(span) => cb.AfterTool? && cb.span == Some(span)
    case SCleanup(inv) => cb == AfterRun(inv)
  }

  lemma NextStepMadeBy(t: Thread, now: Time)
    requires WellFormed(t) && OwnLocals(t) && NextStep(t, now).Some?
    ensures MadeBy(NextStep(t, now).value, t.cb)
  {
  }

  ghost predicate StepsMade(cbs: seq<Callback>, steps: seq<Step>) {
    forall s | s in steps :: exists i | 0 <= i < |cbs| :: MadeBy(s, cbs[i])
  }

  // In every interleaving, every locked step is one of a callback, with that
  // callback's own key, name and content.
  lemma {:induction false} StepsAreMade(cbs: seq<Callback>, schedule: seq<Tick>, k: nat)
    requires k <= |schedule|
    ensures StepsMade(cbs, Before(cbs, schedule, k).trace)
  {
    if k == 0 {
      BeforeFirst(cbs, schedule);
    } else {
      StepsAreMade(cbs, schedule, k - 1);
      BeforeNext(cbs, schedule, k - 1);
      BeforeSound(cbs, schedule, k - 1);
      StepMade(cbs, Before(cbs, schedule, k - 1), schedule[k - 1]);
    }
  }

  lemma StepMade(cbs: seq<Callback>, sys: System, tick: Tick)
    requires Sound(sys) && |sys.threads| == |cbs| && forall i | 0 <= i < |cbs| :: sys.threads[i].cb == cbs[i]
    requires StepsMade(cbs, sys.trace)
    ensures StepsMade(cbs, TickSystem(sys, tick).trace)
  {
    if tick.tid < |cbs| {
      var t := sys.threads[tick.tid];
      var s := Move(sys.mem, t, tick.now).step;
      if s.Some? {
        NextStepMadeBy(t, tick.now);
        assert MadeBy(s.value, cbs[tick.tid]);
      }
    }
  }

  // ---- How often ----

  function Durations(span: ToolKey): Event -> nat {
    (e: Event) => Bit(e.ToolDuration? && e.span == span)
  }

  function ToolDetailsOf(span: ToolKey): Event -> nat {
    (e: Event) => Bit(e.ToolDetails? && e.span == span)
  }

  function Outcomes(span: ToolKey): Event -> nat {
    (e: Event) => Bit(e.SpanOutcome? && e.span == span)
  }

  // A callback that has ended this tool and not yet reported its details.
  function ToReport(span: ToolKey): Thread -> nat {
    (t: Thread) => Bit((t.pc.ToCountTool? || t.pc.ToMarkTool?) && t.pc.tool.key == span)
  }

  // What a turn adds to the three, and to what is still to be reported.
  predicate ReportsTool(events: seq<Event>, before: nat, after: nat, span: ToolKey) {
    && Sum(events, ToolDetailsOf(span)) + after == before + Sum(events, Durations(span))
    && Sum(events, Outcomes(span)) + after == before + Sum(events, Durations(span))
  }

  lemma FirstReportsTool(cb: Callback, ret: Ret, now: Time, span: ToolKey)
    requires Start(cb).pc == Begin
    ensures var (pc, events) := AfterFirst(cb, ret, now); ReportsTool(events, 0, ToReport(span)(Thread(cb, pc)), span)
  {
    var events := AfterFirst(cb, ret, now).1;
    SumFew(events, ToolDetailsOf(span));
    SumFew(events, Outcomes(span));
    SumFew(events, Durations(span));
  }

  lemma LateReportsTool(t: Thread, ret: Ret, now: Time, span: ToolKey)
    requires WellFormed(t) && (t.pc.ToCountTool? || t.pc.ToMarkTool?)
    ensures var (pc, events) := Resume(t, ret, now); ReportsTool(events, ToReport(span)(t), ToReport(span)(t.(pc := pc)), span)
  {
    var events := Resume(t, ret, now).1;
    SumFew(events, ToolDetailsOf(span));
    SumFew(events, Outcomes(span));
    SumFew(events, Durations(span));
  }

  lemma OtherReportsTool(t: Thread, ret: Ret, now: Time, span: ToolKey)
    requires WellFormed(t) && NextStep(t, now).Some? && !t.pc.Begin? && !t.pc.ToCountTool? && !t.pc.ToMarkTool?
    ensures var (pc, events) := Resume(t, ret, now);
            (forall e <- events :: !e.ToolDetails? && !e.SpanOutcome? && !e.ToolDuration?) && !pc.ToCountTool? && !pc.ToMarkTool?
  {
  }

  lemma ResumeReportsTool(t: Thread, ret: Ret, now: Time, span: ToolKey)
    requires WellFormed(t) && NextStep(t, now).Some?
    ensures var (pc, events) := Resume(t, ret, now); ReportsTool(events, ToReport(span)(t), ToReport(span)(t.(pc := pc)), span)
  {
    if t.pc.Begin? {
      FirstReportsTool(t.cb, ret, now, span);
    } else if t.pc.ToCountTool? || t.pc.ToMarkTool? {
      LateReportsTool(t, ret, now, span);
    } else {
      var events := Resume(t, ret, now).1;
      OtherReportsTool(t, ret, now, span);
      SumZero(events, ToolDetailsOf(span));
      SumZero(events, Outcomes(span));
      SumZero(events, Durations(span));
    }
  }

  lemma MoveReportsTool(m: Memory, t: Thread, now: Time, span: ToolKey)
    requires WellFormed(t)
    ensures ReportsTool(Caused(m, t, now), ToReport(span)(t), ToReport(span)(Move(m, t, now).thread), span)
  {
    if t.unsent == [] && NextStep(t, now).Some? {
      ResumeReportsTool(t, ApplyMemory(m, NextStep(t, now).value).1, now, span);
    }
  }

  // The calls of this weight, made or still to be made.
  ghost function Due(sys: System, w: Event -> nat): nat {
    Sum(sys.log, Logged(w)) + Sum(sys.threads, Unsent(w))
  }

  lemma TickDue(sys: System, tick: Tick, w: Event -> nat)
    requires AllWellFormed(sys.threads) && tick.tid < |sys.threads|
    ensures Due(TickSystem(sys, tick), w) == Due(sys, w) + Sum(Caused(sys.mem, sys.threads[tick.tid], tick.now), w)
  {
    TickSends(sys, tick, w);
  }

  ghost predicate ToolsReported(sys: System, span: ToolKey) {
    && AllWellFormed(sys.threads)
    && Due(sys, ToolDetailsOf(span)) + Sum(sys.threads, ToReport(span)) == Due(sys, Durations(span))
    && Due(sys, Outcomes(span)) + Sum(sys.threads, ToReport(span)) == Due(sys, Durations(span))
  }

  lemma TickKeepsToolsReported(sys: System, tick: Tick, span: ToolKey)
    requires ToolsReported(sys, span)
    ensures ToolsReported(TickSystem(sys, tick), span)
  {
    TickKeepsWellFormed(sys, tick);
    if tick.tid < |sys.threads| {
      MoveReportsTool(sys.mem, sys.threads[tick.tid], tick.now, span);
      TickDue(sys, tick, ToolDetailsOf(span));
      TickDue(sys, tick, Outcomes(span));
      TickDue(sys, tick, Durations(span));
      TickHolds(sys, tick, ToReport(span));
    }
  }

  lemma {:induction false} RunKeepsToolsReported(sys: System, schedule: seq<Tick>, span: ToolKey)
    requires ToolsReported(sys, span)
    ensures ToolsReported(Execute(sys, schedule), span)
    decreases |schedule|
  {
    if schedule == [] {
    } else {
      TickKeepsToolsReported(sys, schedule[0], span);
      RunKeepsToolsReported(TickSystem(sys, schedule[0]), schedule[1..], span);
    }
  }

  lemma NothingDue(threads: seq<Thread>, span: ToolKey)
    requires forall i | 0 <= i < |threads| :: threads[i].unsent == [] && (threads[i].pc.Begin? || threads[i].pc.Done?)
    ensures Sum(threads, Unsent(ToolDetailsOf(span))) == Sum(threads, Unsent(Outcomes(span))) == Sum(threads, Unsent(Durations(span))) == 0
    ensures Sum(threads, ToReport(span)) == 0
  {
    NothingUnsent(threads, ToolDetailsOf(span));
    NothingUnsent(threads, Outcomes(span));
    NothingUnsent(threads, Durations(span));
    SumZero(threads, ToReport(span));
  }

  // In every interleaving, once all callbacks are through: a tool has as many
  // details events and span outcomes as it has ends.
  lemma ToolReportedOnce(cbs: seq<Callback>, schedule: seq<Tick>, span: ToolKey)
    requires AllThrough(Execute(Initial(cbs), schedule).threads)
    ensures var log := Execute(Initial(cbs), schedule).log;
            Sum(log, Logged(ToolDetailsOf(span))) == Sum(log, Logged(Outcomes(span))) == Sum(log, Logged(Durations(span)))
  {
    NothingDue(Initial(cbs).threads, span);
    RunKeepsToolsReported(Initial(cbs), schedule, span);
    NothingDue(Execute(Initial(cbs), schedule).threads, span);
  }

  // ---- Observed errors ----

  function Observed(kind: OccurrenceKind, key: AgentKey): Event -> nat {
    (e: Event) => Bit(e.AgentOccurrence? && e.kind == kind && e.key == key)
  }

  // The callback is told of an error of this kind.
  predicate ToldOf(cb: Callback, kind: OccurrenceKind, key: AgentKey) {
    match cb
    case OnModelError(k, err) => kind == ModelErrorObserved && k == key && err.Some?
    case OnToolError(k, err) => kind == ToolErrorObserved && k == key && err.Some?
    case _ => false
  }

  function Told(kind: OccurrenceKind, key: AgentKey): Callback -> nat {
    (cb: Callback) => Bit(ToldOf(cb, kind, key))
  }

  function YetToObserve(kind: OccurrenceKind, key: AgentKey): Thread -> nat {
    (t: Thread) => Bit(t.pc.Begin? && ToldOf(t.cb, kind, key))
  }

  lemma ResumeObserves(t: Thread, ret: Ret, now: Time, kind: OccurrenceKind, key: AgentKey)
    requires WellFormed(t) && NextStep(t, now).Some? && !kind.ContinuedAfterError?
    ensures var (pc, events) := Resume(t, ret, now);
            Sum(events, Observed(kind, key)) + YetToObserve(kind, key)(t.(pc := pc)) == YetToObserve(kind, key)(t)
  {
    SumFew(Resume(t, ret, now).1, Observed(kind, key));
  }

  ghost predicate ErrorsDue(sys: System, kind: OccurrenceKind, key: AgentKey, total: nat) {
    AllWellFormed(sys.threads) && Due(sys, Observed(kind, key)) + Sum(sys.threads, YetToObserve(kind, key)) == total
  }

  lemma TickKeepsErrorsDue(sys: System, tick: Tick, kind: OccurrenceKind, key: AgentKey, total: nat)
    requires ErrorsDue(sys, kind, key, total) && !kind.ContinuedAfterError?
    ensures ErrorsDue(TickSystem(sys, tick), kind, key, total)
  {
    TickKeepsWellFormed(sys, tick);
    if tick.tid < |sys.threads| {
      var t := sys.threads[tick.tid];
      if t.unsent == [] && NextStep(t, tick.now).Some? {
        ResumeObserves(t, ApplyMemory(sys.mem, NextStep(t, tick.now).value).1, tick.now, kind, key);
      }
      TickDue(sys, tick, Observed(kind, key));
      TickHolds(sys, tick, YetToObserve(kind, key));
    }
  }

  lemma {:induction false} RunKeepsErrorsDue(sys: System, schedule: seq<Tick>, kind: OccurrenceKind, key: AgentKey, total: nat)
    requires ErrorsDue(sys, kind, key, total) && !kind.ContinuedAfterError?
    ensures ErrorsDue(Execute(sys, schedule), kind, key, total)
    decreases |schedule|
  {
    if schedule == [] {
    } else {
      TickKeepsErrorsDue(sys, schedule[0], kind, key, total);
      RunKeepsErrorsDue(TickSystem(sys, schedule[0]), schedule[1..], kind, key, total);
    }
  }

  lemma {:induction false} AllYetToObserve(threads: seq<Thread>, cbs: seq<Callback>, kind: OccurrenceKind, key: AgentKey)
    requires |threads| == |cbs| && forall i | 0 <= i < |cbs| :: threads[i] == Start(cbs[i])
    ensures Sum(threads, YetToObserve(kind, key)) == Sum(cbs, Told(kind, key))
  {
    if cbs == [] {
    } else {
      var n := |cbs| - 1;
      AllYetToObserve(threads[..n], cbs[..n], kind, key);
    }
  }

  // In every interleaving, once all callbacks are through: each error that a
  // callback was told of has been observed once.
  lemma ErrorsObservedOnce(cbs: seq<Callback>, schedule: seq<Tick>, kind: OccurrenceKind, key: AgentKey)
    requires !kind.ContinuedAfterError? && AllThrough(Execute(Initial(cbs), schedule).threads)
    ensures Sum(Execute(Initial(cbs), schedule).log, Logged(Observed(kind, key))) == Sum(cbs, Told(kind, key))
  {
    var start, total := Initial(cbs), Sum(cbs, Told(kind, key));
    NothingUnsent(start.threads, Observed(kind, key));
    AllYetToObserve(start.threads, cbs, kind, key);
    RunKeepsErrorsDue(start, schedule, kind, key, total);
    var sys := Execute(start, schedule);
    NothingUnsent(sys.threads, Observed(kind, key));
    SumZero(sys.threads, YetToObserve(kind, key));
  }
}
