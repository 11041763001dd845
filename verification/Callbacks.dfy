// The ADK callbacks as threads. Each callback takes the registry lock several
// times and calls the instrumenter in between, without the lock; between any
// two of its locked steps and calls any other callback may run.
module Callbacks {
  import opened Types
  import opened RegistrySpec

  // Token counts as genai reports them.
  datatype UsageMetadata = UsageMetadata(promptTokens: int, candidatesTokens: int, thoughtsTokens: int, cachedTokens: int)

  // Thoughts are part of the output, and none of the input is reported as
  // written to a cache.
  function MapUsageMetadata(um: UsageMetadata): (u: Usage)
    ensures u.inputTokens == um.promptTokens && u.cacheReadTokens == um.cachedTokens
    ensures u.reasoningTokens == um.thoughtsTokens && u.outputTokens - u.reasoningTokens == um.candidatesTokens
    ensures u.cacheWriteTokens == 0
  {
    Usage(um.promptTokens, um.candidatesTokens + um.thoughtsTokens, um.cachedTokens, 0, um.thoughtsTokens)
  }

  datatype Response = Response(
    partial: bool, usage: Option<UsageMetadata>, modelVersion: string, finishReason: string, output: ProjectedContent)

  // What the application's provider resolver does for this model name.
  datatype Resolver = NoResolver | Panics | Names(name: string)

  // What beforeModel finds when it looks for content to capture.
  datatype RequestInput = RequestInput(
    eventsEnabled: bool, resolver: Resolver, provider: string, sys: ProjectedContent, input: ProjectedContent)

  // A non-nil error, as the classifier sees it each of the times it is asked.
  datatype Failure = Failure(first: ErrorType, second: ErrorType)

  // One callback invocation, with everything it reads from outside the
  // registry. A span is present exactly if the active span context is valid,
  // tool arguments exactly if content events are enabled; the system is what
  // the tool system resolver answers, None if it panics.
  datatype Callback =
    | BeforeAgent(key: AgentKey)
    | AfterAgent(key: AgentKey)
    | AfterRun(invocationID: string)
    | BeforeModel(key: AgentKey, model: string, request: RequestInput)
    | AfterModel(key: AgentKey, resp: Option<Response>, err: Option<Failure>)
    | OnModelError(key: AgentKey, err: Option<Failure>)
    | BeforeTool(key: AgentKey, span: Option<ToolKey>, name: string, args: Option<ProjectedContent>, system: Option<string>)
    | AfterTool(span: Option<ToolKey>, result: ProjectedContent, err: Option<Failure>)
    | OnToolError(key: AgentKey, err: Option<Failure>)

  datatype Details = Details(
    provider: string, requestModel: string, streaming: bool, usage: Usage,
    sys: ProjectedContent, input: ProjectedContent, output: ProjectedContent,
    responseModel: string, finishReasons: seq<string>, errorType: ErrorType)

  datatype OccurrenceKind = ModelErrorObserved | ToolErrorObserved | ContinuedAfterError

  datatype Operation = GenerateContent | ExecuteTool

  datatype Fault = ModelStateConflict | InvalidToolSpan | ToolSystemResolverPanic | ProviderResolverPanic

  // Calls on the instrumenter. The serial number says which model operation
  // a call is about.
  datatype Event =
    | AgentDuration(key: AgentKey, name: string, duration: Time)
    | AgentInferenceCalls(key: AgentKey, name: string, calls: nat)
    | AgentToolCalls(key: AgentKey, name: string, calls: nat)
    | InferenceDuration(key: AgentKey, serial: nat, duration: Time, model: string)
    | InferenceUsage(key: AgentKey, serial: nat, usage: Usage, model: string)
    | InferenceDetails(key: AgentKey, serial: nat, details: Details)
    | AgentOccurrence(kind: OccurrenceKind, key: AgentKey, operation: Operation, errorType: ErrorType)
    | ToolDuration(span: ToolKey, parent: AgentKey, duration: Time, name: string)
    | ToolDetails(span: ToolKey, name: string, args: ProjectedContent, result: ProjectedContent, errorType: ErrorType)
    | SpanOutcome(span: ToolKey, failed: bool)
    | ToolSpanAttributes(span: ToolKey, system: string)
    | InstrumentationFailure(fault: Fault)

  // Where a callback stands: the locked step it takes next, with its locals.
  // The serial number is that of the model operation startModel or getModel
  // gave it; the locked steps that follow are by key and do not use it.
  datatype Pc =
    | Begin
    | ToStartModel
    | ToUpdateRequest(serial: nat, provider: string)
    | ToReadUsage(serial: nat)
    | ToUpdateUsage(serial: nat, usage: Usage, streaming: bool)
    | ToEndModel(serial: nat)
    | ToCountInference(model: ModelRecord)
    | ToMarkModel(model: ModelRecord)
    | ToStartTool(span: ToolKey)
    | ToSetArguments(span: ToolKey)
    | ToCountTool(tool: ToolRecord)
    | ToMarkTool(tool: ToolRecord)
    | Done

  // Calls on the instrumenter that the last locked step has brought about and
  // that are still to be made come before the next locked step.
  datatype Thread = Thread(cb: Callback, pc: Pc, unsent: seq<Event> := [])

  predicate Through(t: Thread) {
    t.pc.Done? && t.unsent == []
  }

  // What a classified error is reported and marked as: never empty, so every
  // mark a callback makes is one.
  function Known(et: ErrorType): (r: ErrorType)
    ensures r != ERROR_NONE && (et != ERROR_NONE ==> r == et)
  {
    if et == ERROR_NONE then ERROR_UNKNOWN else et
  }

  // The resolver answers with a name.
  predicate Resolves(resolver: Resolver, name: string) {
    resolver == Names(name) && name != ""
  }

  // The provider name to report, if one can be determined. It is never empty,
  // so an empty provider on a model state means that none was captured. A name
  // from the resolver takes precedence; the static name is the fallback unless
  // the resolver panics.
  function ResolveProvider(resolver: Resolver, provider: string): (r: Option<string>)
    ensures r.Some? ==> r.value != ""
    ensures forall name | Resolves(resolver, name) :: r == Some(name)
    ensures r.Some? && !Resolves(resolver, r.value) ==> r.value == provider && !resolver.Panics?
    ensures r.None? <==> resolver.Panics? || (provider == "" && !(exists name :: Resolves(resolver, name)))
  {
    if resolver.Panics? then None
    else if resolver.Names? && resolver.name != "" then Some(resolver.name)
    else if provider != "" then Some(provider)
    else None
  }

  // Where the callback stands after startModel succeeded.
  function AfterModelStart(request: RequestInput, serial: nat): (Pc, seq<Event>) {
    if !request.eventsEnabled then (Done, [])
    else
      match ResolveProvider(request.resolver, request.provider)
      case Some(p) => (ToUpdateRequest(serial, p), [])
      case None => (Done, if request.resolver.Panics? then [InstrumentationFailure(ProviderResolverPanic)] else [])
  }

  predicate IsPartial(resp: Option<Response>) {
    resp.Some? && resp.value.partial
  }

  predicate IsTerminal(resp: Option<Response>, err: Option<Failure>) {
    !IsPartial(resp) || err.Some?
  }

  // Where afterModel goes once the active model is known.
  function AfterModelFound(cb: Callback, serial: nat): Pc
    requires cb.AfterModel?
  {
    if cb.resp.Some? && cb.resp.value.usage.Some? then
      ToUpdateUsage(serial, MapUsageMetadata(cb.resp.value.usage.value), cb.resp.value.partial)
    else if IsPartial(cb.resp) then ToReadUsage(serial)
    else ToEndModel(serial)
  }

  function DetailsFor(cb: Callback, st: ModelRecord): Details
    requires cb.AfterModel?
  {
    Details(
      st.provider, st.model, st.streaming, st.usage, st.systemInstructions, st.inputMessages,
      if cb.resp.Some? then cb.resp.value.output else NoContent,
      if cb.resp.Some? then cb.resp.value.modelVersion else "",
      if cb.resp.Some? && cb.resp.value.finishReason != "" then [cb.resp.value.finishReason] else [],
      if cb.err.Some? then Known(cb.err.value.second) else ERROR_NONE)
  }

  // The details event of a terminal response; none without a provider.
  function DetailsEvents(cb: Callback, st: ModelRecord): seq<Event>
    requires cb.AfterModel?
  {
    if st.provider == "" then [] else [InferenceDetails(cb.key, st.serial, DetailsFor(cb, st))]
  }

  function ToolSpanEvents(span: ToolKey, system: Option<string>): seq<Event> {
    match system
    case None => [InstrumentationFailure(ToolSystemResolverPanic), ToolSpanAttributes(span, "")]
    case Some(s) => [ToolSpanAttributes(span, s)]
  }

  function ToolDetailsEvents(cb: Callback, st: ToolRecord): seq<Event>
    requires cb.AfterTool?
  {
    var et := if cb.err.Some? then Known(cb.err.value.first) else ERROR_NONE;
    [ToolDetails(st.key, st.name, st.arguments, if cb.err.Some? then NoContent else cb.result, et),
     SpanOutcome(st.key, cb.err.Some?)]
  }

  function Start(cb: Callback): Thread {
    var idle := ((cb.OnModelError? || cb.OnToolError?) && cb.err.None?) || (cb.AfterTool? && cb.span.None?);
    Thread(cb, if idle then Done else Begin)
  }

  // A thread only reaches the points its own callback has, and has nothing to
  // say before it begins.
  predicate WellFormed(t: Thread) {
    match t.pc
    case Begin => t == Start(t.cb)
    case ToStartModel => t.cb.BeforeModel?
    case ToUpdateRequest(_, _) => t.cb.BeforeModel?
    case ToReadUsage(_) => t.cb.AfterModel?
    case ToUpdateUsage(_, _, _) => t.cb.AfterModel?
    case ToEndModel(_) => t.cb.AfterModel?
    case ToCountInference(_) => t.cb.AfterModel?
    case ToMarkModel(_) => t.cb.AfterModel? && t.cb.err.Some?
    case ToStartTool(_) => t.cb.BeforeTool?
    case ToSetArguments(_) => t.cb.BeforeTool? && t.cb.args.Some?
    case ToCountTool(_) => t.cb.AfterTool?
    case ToMarkTool(_) => t.cb.AfterTool? && t.cb.err.Some?
    case Done => true
  }

  // The locked step the thread takes next; reading a field through an
  // escaped pointer is not one.
  function NextStep(t: Thread, now: Time): (s: Option<Step>)
    requires WellFormed(t)
    ensures s.None? <==> t.pc.Done? || t.pc.ToReadUsage?
  {
    match t.pc
    case Begin => Some(FirstStep(t.cb, now))
    case ToStartModel => Some(SStartModel(t.cb.key, t.cb.model, now))
    case ToUpdateRequest(_, p) => Some(SUpdateRequest(t.cb.key, p, t.cb.request.sys, t.cb.request.input))
    case ToUpdateUsage(_, u, b) => Some(SUpdateUsage(t.cb.key, u, b))
    case ToEndModel(_) => Some(SEndModel(t.cb.key))
    case ToCountInference(_) => Some(SIncrementInference(t.cb.key))
    case ToMarkModel(_) => Some(SMarkPending(t.cb.key, Known(t.cb.err.value.first)))
    case ToStartTool(span) => Some(SStartTool(span, t.cb.key, t.cb.key.invocationID, t.cb.name, now))
    case ToSetArguments(span) => Some(SSetArguments(span, t.cb.args.value))
    case ToCountTool(st) => Some(SIncrementTool(st.agentKey))
    case ToMarkTool(st) => Some(SMarkPending(st.agentKey, Known(t.cb.err.value.first)))
    case ToReadUsage(_) => None
    case Done => None
  }

  function FirstStep(cb: Callback, now: Time): Step
    requires Start(cb).pc == Begin
  {
    match cb
    case BeforeAgent(key) => SStartAgent(key, key.agentName, now)
    case AfterAgent(key) => SEndAgent(key)
    case AfterRun(inv) => SCleanup(inv)
    case BeforeModel(key, _, _) => STakePending(key)
    case AfterModel(key, _, _) => SGetModel(key)
    case OnModelError(key, err) => SMarkPending(key, Known(err.value.first))
    case BeforeTool(key, _, _, _, _) => STakePending(key)
    case AfterTool(span, _, _) => SEndTool(span.value)
    case OnToolError(key, err) => SMarkPending(key, Known(err.value.first))
  }

  // What the thread does with the result of its first step.
  function AfterFirst(cb: Callback, ret: Ret, now: Time): (Pc, seq<Event>)
    requires Start(cb).pc == Begin
  {
    match (cb, ret)
    case (AfterAgent(key), RAgent(Some(st))) =>
      (Done, [AgentDuration(key, st.name, now - st.start),
              AgentInferenceCalls(key, st.name, st.inferenceCalls),
              AgentToolCalls(key, st.name, st.toolCalls)])
    case (BeforeModel(key, _, _), RPending(pending)) => (ToStartModel, Continuation(key, GenerateContent, pending))
    case (AfterModel(_, _, _), RModel(Some(st))) => (AfterModelFound(cb, st.serial), [])
    case (OnModelError(key, err), _) =>
      (Done, [AgentOccurrence(ModelErrorObserved, key, GenerateContent, Known(err.value.first))])
    case (BeforeTool(key, None, _, _, _), RPending(pending)) =>
      (Done, Continuation(key, ExecuteTool, pending) + [InstrumentationFailure(InvalidToolSpan)])
    case (BeforeTool(key, Some(span), _, _, _), RPending(pending)) =>
      (ToStartTool(span), Continuation(key, ExecuteTool, pending))
    case (AfterTool(_, _, _), RTool(Some(st))) =>
      (ToCountTool(st), [ToolDuration(st.key, st.agentKey, now - st.start, st.name)])
    case (OnToolError(key, err), _) =>
      (Done, [AgentOccurrence(ToolErrorObserved, key, ExecuteTool, Known(err.value.first))])
    case _ => (Done, [])
  }

  function Continuation(key: AgentKey, operation: Operation, pending: Option<ErrorType>): seq<Event> {
    match pending
    case Some(et) => [AgentOccurrence(ContinuedAfterError, key, operation, et)]
    case None => []
  }

  // Where the thread goes with the result of a locked step, and the calls it
  // makes on its way.
  function Resume(t: Thread, ret: Ret, now: Time): (Pc, seq<Event>)
    requires WellFormed(t) && NextStep(t, now).Some?
  {
    match (t.pc, ret)
    case (Begin, _) => AfterFirst(t.cb, ret, now)
    case (ToStartModel, RModel(Some(st))) => AfterModelStart(t.cb.request, st.serial)
    case (ToStartModel, _) => (Done, [InstrumentationFailure(ModelStateConflict)])
    case (ToUpdateUsage(serial, _, _), _) => (if IsTerminal(t.cb.resp, t.cb.err) then ToEndModel(serial) else Done, [])
    case (ToEndModel(_), RModel(Some(st))) =>
      (ToCountInference(st),
       [InferenceDuration(t.cb.key, st.serial, now - st.start, st.model),
        InferenceUsage(t.cb.key, st.serial, st.usage, st.model)])
    case (ToCountInference(st), _) => if t.cb.err.Some? then (ToMarkModel(st), []) else (Done, DetailsEvents(t.cb, st))
    case (ToMarkModel(st), _) => (Done, DetailsEvents(t.cb, st))
    case (ToStartTool(span), RStarted(true)) =>
      if t.cb.args.Some? then (ToSetArguments(span), []) else (Done, ToolSpanEvents(span, t.cb.system))
    case (ToStartTool(_), _) => (Done, [InstrumentationFailure(InvalidToolSpan)])
    case (ToSetArguments(span), _) => (Done, ToolSpanEvents(span, t.cb.system))
    case (ToCountTool(st), _) => if t.cb.err.Some? then (ToMarkTool(st), []) else (Done, ToolDetailsEvents(t.cb, st))
    case (ToMarkTool(st), _) => (Done, ToolDetailsEvents(t.cb, st))
    case _ => (Done, [])
  }

  // Model states outlive their place in the registry: a callback may still
  // hold the pointer getModel gave it.
  datatype Memory = Memory(reg: Reg, retired: map<(AgentKey, nat), ModelRecord>)

  function ApplyMemory(m: Memory, s: Step): (Memory, Ret) {
    var (reg', ret) := Apply(m.reg, s);
    (Memory(reg', m.retired + Retires(m.reg, s)), ret)
  }

  // The model states the step takes out of the registry.
  function Retires(r: Reg, s: Step): map<(AgentKey, nat), ModelRecord> {
    match s
    case SEndModel(key) => if Active(r, key) then map[(key, r.models[key].serial) := EndModel(r, key).1.value] else map[]
    case SCleanup(inv) =>
      var pointers := set k | k in r.models && k.invocationID == inv :: (k, r.models[k].serial);
      map p | p in pointers :: r.models[p.0]
    case _ => map[]
  }

  function ReadUsage(m: Memory, key: AgentKey, serial: nat): Usage {
    if key in m.reg.models && m.reg.models[key].serial == serial then m.reg.models[key].usage
    else if (key, serial) in m.retired then m.retired[(key, serial)].usage
    else NO_USAGE
  }

  // One locked step, or one read through a pointer, of one thread, with the
  // calls that follow from it.
  function Advance(m: Memory, t: Thread, now: Time): (Memory, Pc, seq<Event>)
    requires WellFormed(t)
  {
    match NextStep(t, now)
    case Some(s) =>
      var (m', ret) := ApplyMemory(m, s);
      var (pc, events) := Resume(t, ret, now);
      (m', pc, events)
    case None =>
      if t.pc.ToReadUsage? then (m, ToUpdateUsage(t.pc.serial, ReadUsage(m, t.cb.key, t.pc.serial), true), []) else (m, t.pc, [])
  }

  lemma AdvanceKeepsWellFormed(m: Memory, t: Thread, now: Time)
    requires WellFormed(t)
    ensures var (_, pc, events) := Advance(m, t, now); WellFormed(t.(pc := pc)) && WellFormed(t.(pc := pc, unsent := events))
  {
  }

  // What one thread does when it is its turn: it makes the next call it still
  // has to make, or takes its next step.
  datatype Moved = Moved(mem: Memory, thread: Thread, sent: seq<Event>, step: Option<Step>)

  function Move(m: Memory, t: Thread, now: Time): Moved
    requires WellFormed(t)
  {
    if t.unsent != [] then Moved(m, t.(unsent := t.unsent[1..]), [t.unsent[0]], None)
    else
      var (m', pc, events) := Advance(m, t, now);
      Moved(m', t.(pc := pc, unsent := events), [], NextStep(t, now))
  }

  lemma MoveKeepsWellFormed(m: Memory, t: Thread, now: Time)
    requires WellFormed(t)
    ensures WellFormed(Move(m, t, now).thread) && Move(m, t, now).thread.cb == t.cb
  {
    if t.unsent == [] {
      AdvanceKeepsWellFormed(m, t, now);
    }
  }

  // A call on the instrumenter together with the callback that made it.
  datatype Entry = Entry(tid: nat, event: Event)

  // A scheduling decision: which callback moves next, and what its clock says.
  datatype Tick = Tick(tid: nat, now: Time)

  // Any number of callbacks, at any point each; the log of their calls on the
  // instrumenter; and the registry steps taken so far.
  datatype System = System(mem: Memory, threads: seq<Thread>, log: seq<Entry>, trace: seq<Step>)

  function Tag(tid: nat, events: seq<Event>): (log: seq<Entry>)
    ensures |log| == |events| && forall i | 0 <= i < |log| :: log[i] == Entry(tid, events[i])
  {
    seq(|events|, i requires 0 <= i < |events| => Entry(tid, events[i]))
  }

  lemma TagLast(log: seq<Entry>, tid: nat, events: seq<Event>)
    requires events != []
    ensures var n := |events| - 1;
            && Tag(tid, events) == Tag(tid, events[..n]) + [Entry(tid, events[n])]
            && log + Tag(tid, events) == (log + Tag(tid, events[..n])) + [Entry(tid, events[n])]
  {
  }

  ghost predicate AllWellFormed(threads: seq<Thread>) {
    forall i | 0 <= i < |threads| :: WellFormed(threads[i])
  }

  ghost predicate AllThrough(threads: seq<Thread>) {
    forall i | 0 <= i < |threads| :: Through(threads[i])
  }

  function Listed<T>(x: Option<T>): seq<T> {
    if x.Some? then [x.value] else []
  }

  ghost function TickSystem(sys: System, tick: Tick): System
    requires AllWellFormed(sys.threads)
  {
    if tick.tid >= |sys.threads| then sys
    else
      var moved := Move(sys.mem, sys.threads[tick.tid], tick.now);
      System(moved.mem, sys.threads[tick.tid := moved.thread], sys.log + Tag(tick.tid, moved.sent), sys.trace + Listed(moved.step))
  }

  lemma TickKeepsWellFormed(sys: System, tick: Tick)
    requires AllWellFormed(sys.threads)
    ensures AllWellFormed(TickSystem(sys, tick).threads)
    ensures |TickSystem(sys, tick).threads| == |sys.threads|
    ensures forall i | 0 <= i < |sys.threads| :: TickSystem(sys, tick).threads[i].cb == sys.threads[i].cb
  {
    if tick.tid < |sys.threads| {
      MoveKeepsWellFormed(sys.mem, sys.threads[tick.tid], tick.now);
    }
  }

  // Any interleaving.
  ghost function Execute(sys: System, schedule: seq<Tick>): System
    requires AllWellFormed(sys.threads)
    decreases |schedule|
  {
    if schedule == [] then sys
    else
      TickKeepsWellFormed(sys, schedule[0]);
      Execute(TickSystem(sys, schedule[0]), schedule[1..])
  }

  lemma {:induction false} CallbacksStay(sys: System, schedule: seq<Tick>)
    requires AllWellFormed(sys.threads)
    ensures var r := Execute(sys, schedule);
            && AllWellFormed(r.threads) && |r.threads| == |sys.threads|
            && forall i | 0 <= i < |sys.threads| :: r.threads[i].cb == sys.threads[i].cb
    decreases |schedule|
  {
    if schedule == [] {
    } else {
      TickKeepsWellFormed(sys, schedule[0]);
      CallbacksStay(TickSystem(sys, schedule[0]), schedule[1..]);
    }
  }

  lemma {:induction false} ExecuteConcat(sys: System, a: seq<Tick>, b: seq<Tick>)
    requires AllWellFormed(sys.threads)
    ensures AllWellFormed(Execute(sys, a).threads)
    ensures Execute(sys, a + b) == Execute(Execute(sys, a), b)
    decreases |a|
  {
    CallbacksStay(sys, a);
    if a == [] {
      assert a + b == b;
    } else {
      TickKeepsWellFormed(sys, a[0]);
      ExecuteConcat(TickSystem(sys, a[0]), a[1..], b);
      assert (a + b)[0] == a[0] && (a + b)[1..] == a[1..] + b;
    }
  }

  lemma ExecuteOne(sys: System, tick: Tick)
    requires AllWellFormed(sys.threads)
    ensures AllWellFormed(TickSystem(sys, tick).threads)
    ensures Execute(sys, [tick]) == TickSystem(sys, tick)
  {
    TickKeepsWellFormed(sys, tick);
    assert Execute(TickSystem(sys, tick), [tick][1..]) == TickSystem(sys, tick);
  }

  function Initial(cbs: seq<Callback>): (sys: System)
    ensures AllWellFormed(sys.threads)
  {
    System(Memory(EMPTY, map[]), seq(|cbs|, i requires 0 <= i < |cbs| => Start(cbs[i])), [], [])
  }
}
