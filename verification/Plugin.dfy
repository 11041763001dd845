// The callbacks of the plugin as methods on its registry, in the order the
// program takes their steps. A callback that nothing interrupts does exactly
// what its thread does.
module Plugin {
  import opened Types
  import opened RegistrySpec
  import opened Sequences
  import opened Registry
  import opened Callbacks

  // ---- A thread run to its end with nothing in between, calls included ----

  function Rank(pc: Pc): nat {
    match pc
    case Begin => 7
    case ToStartModel => 6
    case ToUpdateRequest(_, _) => 5
    case ToReadUsage(_) => 6
    case ToUpdateUsage(_, _, _) => 5
    case ToEndModel(_) => 4
    case ToCountInference(_) => 3
    case ToMarkModel(_) => 2
    case ToStartTool(_) => 6
    case ToSetArguments(_) => 5
    case ToCountTool(_) => 3
    case ToMarkTool(_) => 2
    case Done => 0
  }

  lemma AdvanceFinishes(m: Memory, t: Thread, now: Time)
    requires WellFormed(t) && !t.pc.Done?
    ensures Rank(Advance(m, t, now).1) < Rank(t.pc)
  {
  }

  ghost function Complete(m: Memory, t: Thread, now: Time): (Memory, seq<Event>)
    requires WellFormed(t)
    decreases Rank(t.pc)
  {
    if t.pc.Done? then (m, [])
    else
      AdvanceKeepsWellFormed(m, t, now);
      AdvanceFinishes(m, t, now);
      var (m', pc, events) := Advance(m, t, now);
      var (m'', rest) := Complete(m', t.(pc := pc), now);
      (m'', events + rest)
  }

  // ---- What each callback does to the registry and the log ----

  function AgentEnded(r: Reg, key: AgentKey, now: Time): (Reg, seq<Event>) {
    var (r', st) := EndAgent(r, key);
    (r', if st.None? then [] else
         [AgentDuration(key, st.value.name, now - st.value.start),
          AgentInferenceCalls(key, st.value.name, st.value.inferenceCalls),
          AgentToolCalls(key, st.value.name, st.value.toolCalls)])
  }

  function ErrorObserved(r: Reg, key: AgentKey, kind: OccurrenceKind, operation: Operation, err: Option<Failure>): (Reg, seq<Event>) {
    if err.None? then (r, [])
    else
      var et := Known(err.value.first);
      (MarkPendingError(r, key, et), [AgentOccurrence(kind, key, operation, et)])
  }

  function ModelStarted(r: Reg, cb: Callback, now: Time): (Reg, seq<Event>)
    requires cb.BeforeModel?
  {
    var (r1, pending) := TakePendingError(r, cb.key);
    var (r2, events) := ModelBegun(r1, cb, now);
    (r2, Continuation(cb.key, GenerateContent, pending) + events)
  }

  function ModelBegun(r: Reg, cb: Callback, now: Time): (Reg, seq<Event>)
    requires cb.BeforeModel?
  {
    var (r', st) := StartModel(r, cb.key, cb.model, now);
    if st.None? then (r', [InstrumentationFailure(ModelStateConflict)]) else RequestCaptured(r', cb)
  }

  function RequestCaptured(r: Reg, cb: Callback): (Reg, seq<Event>)
    requires cb.BeforeModel?
  {
    var provider := ResolveProvider(cb.request.resolver, cb.request.provider);
    if !cb.request.eventsEnabled then (r, [])
    else if provider.Some? then (UpdateModelRequest(r, cb.key, provider.value, cb.request.sys, cb.request.input), [])
    else (r, if cb.request.resolver.Panics? then [InstrumentationFailure(ProviderResolverPanic)] else [])
  }

  function ModelResponded(r: Reg, cb: Callback, now: Time): (Reg, seq<Event>)
    requires cb.AfterModel?
  {
    match GetModel(r, cb.key)
    case None => (r, [])
    case Some(st) => ThenEnd(UsageRecorded(r, cb, st.usage), cb, now)
  }

  function ThenEnd(r: Reg, cb: Callback, now: Time): (Reg, seq<Event>)
    requires cb.AfterModel?
  {
    if IsTerminal(cb.resp, cb.err) then ModelEnded(r, cb, now) else (r, [])
  }

  function UsageRecorded(r: Reg, cb: Callback, usage: Usage): Reg
    requires cb.AfterModel?
  {
    if cb.resp.Some? && cb.resp.value.usage.Some? then
      UpdateModelUsage(r, cb.key, MapUsageMetadata(cb.resp.value.usage.value), cb.resp.value.partial)
    else if IsPartial(cb.resp) then UpdateModelUsage(r, cb.key, usage, true)
    else r
  }

  function ModelEnded(r: Reg, cb: Callback, now: Time): (Reg, seq<Event>)
    requires cb.AfterModel?
  {
    var (r', ended) := EndModel(r, cb.key);
    if ended.None? then (r, []) else (ModelCounted(r', cb), ModelEvents(cb, ended.value, now))
  }

  function ModelCounted(r: Reg, cb: Callback): Reg
    requires cb.AfterModel?
  {
    var r' := IncrementAgentInference(r, cb.key);
    if cb.err.Some? then MarkPendingError(r', cb.key, Known(cb.err.value.first)) else r'
  }

  function ModelEvents(cb: Callback, st: ModelRecord, now: Time): seq<Event>
    requires cb.AfterModel?
  {
    [InferenceDuration(cb.key, st.serial, now - st.start, st.model), InferenceUsage(cb.key, st.serial, st.usage, st.model)]
    + DetailsEvents(cb, st)
  }

  function ToolStarted(r: Reg, cb: Callback, now: Time): (Reg, seq<Event>)
    requires cb.BeforeTool?
  {
    var (r1, pending) := TakePendingError(r, cb.key);
    var (r2, events) := SpanStarted(r1, cb, now);
    (r2, Continuation(cb.key, ExecuteTool, pending) + events)
  }

  function SpanStarted(r: Reg, cb: Callback, now: Time): (Reg, seq<Event>)
    requires cb.BeforeTool?
  {
    if cb.span.None? then (r, [InstrumentationFailure(InvalidToolSpan)])
    else
      var span := cb.span.value;
      var (r', ok) := StartTool(r, span, cb.key, cb.key.invocationID, cb.name, now);
      if !ok then (r', [InstrumentationFailure(InvalidToolSpan)])
      else (if cb.args.Some? then SetToolArguments(r', span, cb.args.value) else r', ToolSpanEvents(span, cb.system))
  }

  function ToolEnded(r: Reg, cb: Callback, now: Time): (Reg, seq<Event>)
    requires cb.AfterTool?
  {
    if cb.span.None? then (r, [])
    else
      var (r1, ended) := EndTool(r, cb.span.value);
      match ended
      case None => (r1, [])
      case Some(st) => (ToolCounted(r1, cb, st.agentKey), ToolEvents(cb, st, now))
  }

  function ToolCounted(r: Reg, cb: Callback, key: AgentKey): Reg
    requires cb.AfterTool?
  {
    var r' := IncrementAgentTool(r, key);
    if cb.err.Some? then MarkPendingError(r', key, Known(cb.err.value.first)) else r'
  }

  function ToolEvents(cb: Callback, st: ToolRecord, now: Time): seq<Event>
    requires cb.AfterTool?
  {
    [ToolDuration(st.key, st.agentKey, now - st.start, st.name)] + ToolDetailsEvents(cb, st)
  }

  function Uninterrupted(r: Reg, cb: Callback, now: Time): (Reg, seq<Event>) {
    match cb
    case BeforeAgent(key) => (StartAgent(r, key, key.agentName, now), [])
    case AfterAgent(key) => AgentEnded(r, key, now)
    case AfterRun(inv) => (CleanupInvocation(r, inv), [])
    case BeforeModel(_, _, _) => ModelStarted(r, cb, now)
    case AfterModel(_, _, _) => ModelResponded(r, cb, now)
    case OnModelError(key, err) => ErrorObserved(r, key, ModelErrorObserved, GenerateContent, err)
    case BeforeTool(_, _, _, _, _) => ToolStarted(r, cb, now)
    case AfterTool(_, _, _) => ToolEnded(r, cb, now)
    case OnToolError(key, err) => ErrorObserved(r, key, ToolErrorObserved, ExecuteTool, err)
  }

  // An uninterrupted callback does what its thread does on its own.
  ghost predicate AsThread(m: Memory, t: Thread, now: Time, r: Reg, events: seq<Event>)
    requires WellFormed(t)
  {
    Complete(m, t, now).0.reg == r && Complete(m, t, now).1 == events
  }

  lemma MarkModel(m: Memory, cb: Callback, st: ModelRecord, now: Time)
    requires cb.AfterModel? && cb.err.Some?
    ensures AsThread(m, Thread(cb, ToMarkModel(st)), now,
                     MarkPendingError(m.reg, cb.key, Known(cb.err.value.first)), DetailsEvents(cb, st))
  {
  }

  lemma CountModel(m: Memory, cb: Callback, st: ModelRecord, now: Time)
    requires cb.AfterModel?
    ensures AsThread(m, Thread(cb, ToCountInference(st)), now, ModelCounted(m.reg, cb), DetailsEvents(cb, st))
  {
    if cb.err.Some? {
      MarkModel(ApplyMemory(m, SIncrementInference(cb.key)).0, cb, st, now);
    }
  }

  lemma EndOfModel(m: Memory, cb: Callback, serial: nat, now: Time)
    requires cb.AfterModel?
    ensures var (r, events) := ModelEnded(m.reg, cb, now); AsThread(m, Thread(cb, ToEndModel(serial)), now, r, events)
  {
    if EndModel(m.reg, cb.key).1.Some? {
      CountModel(ApplyMemory(m, SEndModel(cb.key)).0, cb, EndModel(m.reg, cb.key).1.value, now);
    }
  }

  lemma UpdateUsage(m: Memory, cb: Callback, serial: nat, usage: Usage, streaming: bool, now: Time)
    requires cb.AfterModel?
    ensures var (r, events) := ThenEnd(UpdateModelUsage(m.reg, cb.key, usage, streaming), cb, now);
            AsThread(m, Thread(cb, ToUpdateUsage(serial, usage, streaming)), now, r, events)
  {
    EndOfModel(ApplyMemory(m, SUpdateUsage(cb.key, usage, streaming)).0, cb, serial, now);
  }

  lemma ReadThenUpdate(m: Memory, cb: Callback, now: Time)
    requires cb.AfterModel? && cb.key in m.reg.models
    ensures var st := m.reg.models[cb.key];
            var (r, events) := ThenEnd(UpdateModelUsage(m.reg, cb.key, st.usage, true), cb, now);
            AsThread(m, Thread(cb, ToReadUsage(st.serial)), now, r, events)
  {
    UpdateUsage(m, cb, m.reg.models[cb.key].serial, m.reg.models[cb.key].usage, true, now);
  }

  lemma FoundModel(m: Memory, cb: Callback, now: Time)
    requires cb.AfterModel? && cb.key in m.reg.models
    ensures var st := m.reg.models[cb.key];
            var (r, events) := ThenEnd(UsageRecorded(m.reg, cb, st.usage), cb, now);
            AsThread(m, Thread(cb, AfterModelFound(cb, st.serial)), now, r, events)
  {
    if cb.resp.Some? && cb.resp.value.usage.Some? {
      UpdateUsage(m, cb, m.reg.models[cb.key].serial, MapUsageMetadata(cb.resp.value.usage.value), cb.resp.value.partial, now);
    } else if IsPartial(cb.resp) {
      ReadThenUpdate(m, cb, now);
    } else {
      EndOfModel(m, cb, m.reg.models[cb.key].serial, now);
    }
  }

  lemma ModelResponse(m: Memory, cb: Callback, now: Time)
    requires cb.AfterModel?
    ensures var (r, events) := ModelResponded(m.reg, cb, now); AsThread(m, Start(cb), now, r, events)
  {
    if cb.key in m.reg.models {
      var m' := ApplyMemory(m, SGetModel(cb.key)).0;
      assert Advance(m, Start(cb), now) == (m', AfterModelFound(cb, m.reg.models[cb.key].serial), []);
      FoundModel(m', cb, now);
    }
  }

  lemma UpdateRequest(m: Memory, cb: Callback, serial: nat, provider: string, now: Time)
    requires cb.BeforeModel?
    ensures AsThread(m, Thread(cb, ToUpdateRequest(serial, provider)), now,
                     UpdateModelRequest(m.reg, cb.key, provider, cb.request.sys, cb.request.input), [])
  {
  }

  lemma BeginModel(m: Memory, cb: Callback, now: Time)
    requires cb.BeforeModel?
    ensures var (r, events) := ModelBegun(m.reg, cb, now); AsThread(m, Thread(cb, ToStartModel), now, r, events)
  {
    var p := ResolveProvider(cb.request.resolver, cb.request.provider);
    if cb.request.eventsEnabled && p.Some? {
      UpdateRequest(ApplyMemory(m, SStartModel(cb.key, cb.model, now)).0, cb, Count(m.reg, cb.key) + 1, p.value, now);
    }
  }

  lemma ModelStart(m: Memory, cb: Callback, now: Time)
    requires cb.BeforeModel?
    ensures var (r, events) := ModelStarted(m.reg, cb, now); AsThread(m, Start(cb), now, r, events)
  {
    BeginModel(ApplyMemory(m, STakePending(cb.key)).0, cb, now);
  }

  lemma SetArguments(m: Memory, cb: Callback, span: ToolKey, now: Time)
    requires cb.BeforeTool? && cb.args.Some?
    ensures AsThread(m, Thread(cb, ToSetArguments(span)), now, SetToolArguments(m.reg, span, cb.args.value), ToolSpanEvents(span, cb.system))
  {
  }

  lemma BeginTool(m: Memory, cb: Callback, now: Time)
    requires cb.BeforeTool? && cb.span.Some?
    ensures var (r, events) := SpanStarted(m.reg, cb, now); AsThread(m, Thread(cb, ToStartTool(cb.span.value)), now, r, events)
  {
    var t := Thread(cb, ToStartTool(cb.span.value));
    var (m', ret) := ApplyMemory(m, SStartTool(cb.span.value, cb.key, cb.key.invocationID, cb.name, now));
    assert Advance(m, t, now) == (m', Resume(t, ret, now).0, Resume(t, ret, now).1);
    if cb.args.Some? {
      SetArguments(m', cb, cb.span.value, now);
    }
  }

  lemma ToolStart(m: Memory, cb: Callback, now: Time)
    requires cb.BeforeTool?
    ensures var (r, events) := ToolStarted(m.reg, cb, now); AsThread(m, Start(cb), now, r, events)
  {
    if cb.span.Some? {
      BeginTool(ApplyMemory(m, STakePending(cb.key)).0, cb, now);
    }
  }

  lemma MarkTool(m: Memory, cb: Callback, st: ToolRecord, now: Time)
    requires cb.AfterTool? && cb.err.Some?
    ensures AsThread(m, Thread(cb, ToMarkTool(st)), now,
                     MarkPendingError(m.reg, st.agentKey, Known(cb.err.value.first)), ToolDetailsEvents(cb, st))
  {
  }

  lemma CountTool(m: Memory, cb: Callback, st: ToolRecord, now: Time)
    requires cb.AfterTool?
    ensures AsThread(m, Thread(cb, ToCountTool(st)), now, ToolCounted(m.reg, cb, st.agentKey), ToolDetailsEvents(cb, st))
  {
    if cb.err.Some? {
      MarkTool(ApplyMemory(m, SIncrementTool(st.agentKey)).0, cb, st, now);
    }
  }

  lemma ToolEnd(m: Memory, cb: Callback, now: Time)
    requires cb.AfterTool?
    ensures var (r, events) := ToolEnded(m.reg, cb, now); AsThread(m, Start(cb), now, r, events)
  {
    if cb.span.Some? && EndTool(m.reg, cb.span.value).1.Some? {
      CountTool(ApplyMemory(m, SEndTool(cb.span.value)).0, cb, EndTool(m.reg, cb.span.value).1.value, now);
    }
  }

  lemma OneStep(m: Memory, cb: Callback, now: Time)
    requires cb.BeforeAgent? || cb.AfterAgent? || cb.AfterRun? || cb.OnModelError? || cb.OnToolError?
    ensures var (r, events) := Uninterrupted(m.reg, cb, now); AsThread(m, Start(cb), now, r, events)
  {
  }

  lemma UninterruptedIsThread(m: Memory, cb: Callback, now: Time)
    ensures var (r, events) := Uninterrupted(m.reg, cb, now); AsThread(m, Start(cb), now, r, events)
  {
    match cb
    case BeforeModel(_, _, _) => ModelStart(m, cb, now);
    case AfterModel(_, _, _) => ModelResponse(m, cb, now);
    case BeforeTool(_, _, _, _, _) => ToolStart(m, cb, now);
    case AfterTool(_, _, _) => ToolEnd(m, cb, now);
    case _ => OneStep(m, cb, now);
  }

  // ---- The methods ----

  class Plugin {
    const registry: Registry
    // The calls made on the instrumenter so far.
    ghost var log: seq<Event>

    constructor ()
      ensures registry.Valid() && registry.View() == EMPTY && log == [] && fresh(registry)
    {
      registry := new Registry();
      log := [];
    }

    method Emit(ghost events: seq<Event>)
      requires registry.Valid()
      modifies this`log
      ensures registry.Valid() && log == old(log) + events
    {
      log := log + events;
    }

    method BeforeAgent(key: AgentKey, now: Time)
      requires registry.Valid()
      modifies registry`agents, registry`agentRecords, registry`states
      ensures registry.Valid() && registry.View() == Uninterrupted(old(registry.View()), Callback.BeforeAgent(key), now).0
      ensures fresh(registry.states - old(registry.states))
    {
      var _ := registry.StartAgent(key, key.agentName, now);
    }

    method AfterAgent(key: AgentKey, now: Time)
      requires registry.Valid()
      modifies this`log, registry`agents, registry`agentRecords, if key in registry.agents then {registry.agents[key]} else {}
      ensures registry.Valid() && registry.View() == AgentEnded(old(registry.View()), key, now).0
      ensures log == old(log) + AgentEnded(old(registry.View()), key, now).1
    {
      var st := registry.EndAgent(key);
      if st != null {
        Emit([AgentDuration(key, st.name, now - st.start),
              AgentInferenceCalls(key, st.name, st.inferenceCalls),
              AgentToolCalls(key, st.name, st.toolCalls)]);
      }
    }

    method AfterRun(invocationID: string)
      requires registry.Valid()
      modifies registry`agents, registry`agentRecords, registry`models, registry`modelRecords, registry`tools, registry`toolRecords
      ensures registry.Valid() && registry.View() == Uninterrupted(old(registry.View()), Callback.AfterRun(invocationID), 0).0
    {
      registry.CleanupInvocation(invocationID);
    }

    method ObserveError(key: AgentKey, kind: OccurrenceKind, operation: Operation, err: Option<Failure>)
      requires registry.Valid()
      modifies this`log, registry`agentRecords, if key in registry.agents then {registry.agents[key]} else {}
      ensures registry.Valid() && registry.View() == ErrorObserved(old(registry.View()), key, kind, operation, err).0
      ensures log == old(log) + ErrorObserved(old(registry.View()), key, kind, operation, err).1
    {
      if err.Some? {
        var et := Known(err.value.first);
        registry.MarkPendingError(key, et);
        Emit([AgentOccurrence(kind, key, operation, et)]);
      }
    }

    method TakeError(key: AgentKey, operation: Operation)
      requires registry.Valid()
      modifies this`log, registry`agentRecords, if key in registry.agents then {registry.agents[key]} else {}
      ensures registry.Valid() && registry.View() == TakePendingError(old(registry.View()), key).0
      ensures log == old(log) + Continuation(key, operation, TakePendingError(old(registry.View()), key).1)
    {
      var et, ok := registry.TakePendingError(key);
      if ok {
        Emit([AgentOccurrence(ContinuedAfterError, key, operation, et)]);
      }
    }

    method BeforeModel(cb: Callback, now: Time)
      requires cb.BeforeModel? && registry.Valid()
      modifies this`log, registry`models, registry`modelRecords, registry`modelOps, registry`ops, registry`agentRecords
      modifies registry.agents.Values, registry.models.Values, registry`states
      ensures registry.Valid() && registry.View() == ModelStarted(old(registry.View()), cb, now).0
      ensures log == old(log) + ModelStarted(old(registry.View()), cb, now).1
      ensures fresh(registry.states - old(registry.states))
    {
      ghost var r1, pending := TakePendingError(registry.View(), cb.key).0, TakePendingError(registry.View(), cb.key).1;
      TakeError(cb.key, GenerateContent);
      assert registry.states == old(registry.states);
      BeginModel(cb, now);
      Regroup(old(log), Continuation(cb.key, GenerateContent, pending), ModelBegun(r1, cb, now).1);
    }

    method BeginModel(cb: Callback, now: Time)
      requires cb.BeforeModel? && registry.Valid()
      modifies this`log, registry`models, registry`modelRecords, registry`modelOps, registry`ops, registry.models.Values, registry`states
      ensures registry.Valid() && registry.View() == ModelBegun(old(registry.View()), cb, now).0
      ensures log == old(log) + ModelBegun(old(registry.View()), cb, now).1
      ensures fresh(registry.states - old(registry.states))
    {
      var _, ok := registry.StartModel(cb.key, cb.model, now);
      if ok {
        ghost var states := registry.states;
        CaptureRequest(cb);
        assert registry.states == states;
      } else {
        Emit([InstrumentationFailure(ModelStateConflict)]);
      }
    }

    method CaptureRequest(cb: Callback)
      requires cb.BeforeModel? && registry.Valid()
      modifies this`log, registry`modelRecords, if cb.key in registry.models then {registry.models[cb.key]} else {}
      ensures registry.Valid() && registry.View() == RequestCaptured(old(registry.View()), cb).0
      ensures log == old(log) + RequestCaptured(old(registry.View()), cb).1
    {
      if cb.request.eventsEnabled {
        var provider := ResolveProvider(cb.request.resolver, cb.request.provider);
        if provider.Some? {
          registry.UpdateModelRequest(cb.key, provider.value, cb.request.sys, cb.request.input);
        } else if cb.request.resolver.Panics? {
          Emit([InstrumentationFailure(ProviderResolverPanic)]);
        }
      }
    }

    method AfterModel(cb: Callback, now: Time)
      requires cb.AfterModel? && registry.Valid()
      modifies this`log, registry`models, registry`modelRecords, registry`agentRecords, registry.agents.Values, registry.models.Values
      ensures registry.Valid() && registry.View() == ModelResponded(old(registry.View()), cb, now).0
      ensures log == old(log) + ModelResponded(old(registry.View()), cb, now).1
    {
      var st := registry.GetModel(cb.key);
      if st != null {
        RecordUsage(cb, st);
        assert registry.models == old(registry.models) && registry.agents == old(registry.agents);
        if IsTerminal(cb.resp, cb.err) {
          EndModel(cb, now);
        }
      }
    }

    method RecordUsage(cb: Callback, st: ModelState)
      requires cb.AfterModel? && registry.Valid() && cb.key in registry.models && registry.models[cb.key] == st
      modifies registry`modelRecords, st
      ensures registry.Valid() && registry.View() == UsageRecorded(old(registry.View()), cb, old(st.usage))
    {
      if cb.resp.Some? && cb.resp.value.usage.Some? {
        registry.UpdateModelUsage(cb.key, MapUsageMetadata(cb.resp.value.usage.value), cb.resp.value.partial);
      } else if IsPartial(cb.resp) {
        registry.UpdateModelUsage(cb.key, st.usage, true);
      }
    }

    method EndModel(cb: Callback, now: Time)
      requires cb.AfterModel? && registry.Valid()
      modifies this`log, registry`models, registry`modelRecords, registry`agentRecords, registry.agents.Values, registry.models.Values
      ensures registry.Valid() && registry.View() == ModelEnded(old(registry.View()), cb, now).0
      ensures log == old(log) + ModelEnded(old(registry.View()), cb, now).1
    {
      ghost var ended := RegistrySpec.EndModel(registry.View(), cb.key).1;
      ghost var events := ModelEnded(registry.View(), cb, now).1;
      assert events == if ended.None? then [] else ModelEvents(cb, ended.value, now);
      var st := registry.EndModel(cb.key);
      if st != null {
        ghost var record := ended.value;
        ReportModel(cb, st, record, now);
      }
    }

    // The metrics of the operation just ended, its count and its details.
    method ReportModel(cb: Callback, st: ModelState, ghost record: ModelRecord, now: Time)
      requires cb.AfterModel? && registry.Valid() && st.Holds(record)
      modifies this`log, registry`agentRecords, if cb.key in registry.agents then {registry.agents[cb.key]} else {}
      ensures registry.Valid() && registry.View() == ModelCounted(old(registry.View()), cb)
      ensures log == old(log) + ModelEvents(cb, record, now)
    {
      ghost var metrics :=
        [InferenceDuration(cb.key, st.serial, now - st.start, st.model), InferenceUsage(cb.key, st.serial, st.usage, st.model)];
      Emit(metrics);
      CountInference(cb);
      EmitDetails(cb, st, record);
      Regroup(old(log), metrics, DetailsEvents(cb, record));
    }

    // The parent agent's count, and its pending error if the call failed.
    method CountInference(cb: Callback)
      requires cb.AfterModel? && registry.Valid()
      modifies registry`agentRecords, if cb.key in registry.agents then {registry.agents[cb.key]} else {}
      ensures registry.Valid() && registry.View() == ModelCounted(old(registry.View()), cb)
    {
      registry.IncrementAgentInference(cb.key);
      if cb.err.Some? {
        registry.MarkPendingError(cb.key, Known(cb.err.value.first));
      }
    }

    method EmitDetails(cb: Callback, st: ModelState, ghost record: ModelRecord)
      requires cb.AfterModel? && registry.Valid() && st.Holds(record)
      modifies this`log
      ensures registry.Valid() && log == old(log) + DetailsEvents(cb, record)
    {
      if st.provider != "" {
        Emit([InferenceDetails(cb.key, st.serial, Details(
          st.provider, st.model, st.streaming, st.usage, st.systemInstructions, st.inputMessages,
          if cb.resp.Some? then cb.resp.value.output else NoContent,
          if cb.resp.Some? then cb.resp.value.modelVersion else "",
          if cb.resp.Some? && cb.resp.value.finishReason != "" then [cb.resp.value.finishReason] else [],
          if cb.err.Some? then Known(cb.err.value.second) else ERROR_NONE))]);
      }
    }

    method BeforeTool(cb: Callback, now: Time)
      requires cb.BeforeTool? && registry.Valid()
      modifies this`log, registry`tools, registry`toolRecords, registry`agentRecords, registry.agents.Values, registry.tools.Values, registry`states
      ensures registry.Valid() && registry.View() == ToolStarted(old(registry.View()), cb, now).0
      ensures log == old(log) + ToolStarted(old(registry.View()), cb, now).1
      ensures fresh(registry.states - old(registry.states))
    {
      ghost var r1, pending := TakePendingError(registry.View(), cb.key).0, TakePendingError(registry.View(), cb.key).1;
      TakeError(cb.key, ExecuteTool);
      assert registry.states == old(registry.states);
      StartSpan(cb, now);
      Regroup(old(log), Continuation(cb.key, ExecuteTool, pending), SpanStarted(r1, cb, now).1);
    }

    method StartSpan(cb: Callback, now: Time)
      requires cb.BeforeTool? && registry.Valid()
      modifies this`log, registry`tools, registry`toolRecords, registry`states
      ensures registry.Valid() && registry.View() == SpanStarted(old(registry.View()), cb, now).0
      ensures log == old(log) + SpanStarted(old(registry.View()), cb, now).1
      ensures fresh(registry.states - old(registry.states))
    {
      var ok := false;
      if cb.span.Some? {
        var st, started := registry.StartTool(cb.span.value, cb.key, cb.key.invocationID, cb.name, now);
        ok := started && st != null;
      }
      if !ok {
        Emit([InstrumentationFailure(InvalidToolSpan)]);
      } else {
        ghost var states := registry.states;
        AugmentSpan(cb, cb.span.value);
        assert registry.states == states;
      }
    }

    method AugmentSpan(cb: Callback, span: ToolKey)
      requires cb.BeforeTool? && registry.Valid()
      modifies this`log, registry`toolRecords, if span in registry.tools then {registry.tools[span]} else {}
      ensures registry.Valid() && log == old(log) + ToolSpanEvents(span, cb.system)
      ensures registry.View() == if cb.args.Some? then SetToolArguments(old(registry.View()), span, cb.args.value) else old(registry.View())
    {
      if cb.args.Some? {
        registry.SetToolArguments(span, cb.args.value);
      }
      Emit(ToolSpanEvents(span, cb.system));
    }

    method AfterTool(cb: Callback, now: Time)
      requires cb.AfterTool? && registry.Valid()
      modifies this`log, registry`tools, registry`toolRecords, registry`agentRecords, registry.agents.Values, registry.tools.Values
      ensures registry.Valid() && registry.View() == ToolEnded(old(registry.View()), cb, now).0
      ensures log == old(log) + ToolEnded(old(registry.View()), cb, now).1
    {
      if cb.span.None? {
        return;
      }
      var st := registry.EndTool(cb.span.value);
      if st != null {
        ghost var record := EndTool(old(registry.View()), cb.span.value).1.value;
        ReportTool(cb, st, record, now);
      }
    }

    method ReportTool(cb: Callback, st: ToolState, ghost record: ToolRecord, now: Time)
      requires cb.AfterTool? && registry.Valid() && st.Holds(record)
      modifies this`log, registry`agentRecords, registry.agents.Values
      ensures registry.Valid() && registry.View() == ToolCounted(old(registry.View()), cb, record.agentKey)
      ensures log == old(log) + ToolEvents(cb, record, now)
    {
      Emit([ToolDuration(st.key, st.agentKey, now - st.start, st.name)]);
      CountTool(cb, st.agentKey);
      Emit(ToolDetailsEvents(cb, record));
    }

    method CountTool(cb: Callback, key: AgentKey)
      requires cb.AfterTool? && registry.Valid()
      modifies registry`agentRecords, registry.agents.Values
      ensures registry.Valid() && registry.View() == ToolCounted(old(registry.View()), cb, key)
    {
      registry.IncrementAgentTool(key);
      if cb.err.Some? {
        registry.MarkPendingError(key, Known(cb.err.value.first));
      }
    }
  }
}
