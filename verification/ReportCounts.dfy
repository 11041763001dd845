// How often each call on the instrumenter is made: exactly as often as the
// turns of the callbacks call for it.
module ReportCounts {
  import opened Types
  import opened RegistrySpec
  import opened Sequences
  import opened Callbacks
  import opened CallbackRuns
  import opened Reports

  datatype Call =
    | AgentTime(key: AgentKey)
    | InferenceCount(key: AgentKey)
    | ToolCount(key: AgentKey)
    | ModelTime(key: AgentKey)
    | ModelUsage(key: AgentKey)
    | ToolTime(span: ToolKey)
    | ToolSpan(span: ToolKey)
    | Failure(fault: Fault)

  predicate Makes(e: Event, c: Call) {
    match c
    case AgentTime(key) => e.AgentDuration? && e.key == key
    case InferenceCount(key) => e.AgentInferenceCalls? && e.key == key
    case ToolCount(key) => e.AgentToolCalls? && e.key == key
    case ModelTime(key) => e.InferenceDuration? && e.key == key
    case ModelUsage(key) => e.InferenceUsage? && e.key == key
    case ToolTime(span) => e.ToolDuration? && e.span == span
    case ToolSpan(span) => e.ToolSpanAttributes? && e.span == span
    case Failure(fault) => e == InstrumentationFailure(fault)
  }

  function Made(c: Call): Event -> nat {
    (e: Event) => Bit(Makes(e, c))
  }

  // The start of a tool under this span is through with this turn.
  predicate StartsTool(t: Thread, span: ToolKey) {
    t.cb.BeforeTool?
    && ((t.pc == ToStartTool(span) && span.IsValid() && t.cb.args.None?) || t.pc == ToSetArguments(span))
  }

  // This turn calls for the call: it ends an agent, a model operation or a
  // tool that is there, has started a tool, or finds what is to be reported
  // as a failure.
  predicate CalledFor(m: Memory, t: Thread, c: Call) {
    match c
    case AgentTime(key) => EndsAgent(m, t, key)
    case InferenceCount(key) => EndsAgent(m, t, key)
    case ToolCount(key) => EndsAgent(m, t, key)
    case ModelTime(key) => EndsModel(m, t) && t.cb.key == key
    case ModelUsage(key) => EndsModel(m, t) && t.cb.key == key
    case ToolTime(span) => EndsTool(m, t) && t.cb.span == Some(span)
    case ToolSpan(span) => StartsTool(t, span)
    case Failure(fault) => Fails(m, t, fault)
  }

  predicate Fails(m: Memory, t: Thread, fault: Fault) {
    match fault
    case ModelStateConflict => t.cb.BeforeModel? && t.pc.ToStartModel? && Active(m.reg, t.cb.key)
    case ProviderResolverPanic =>
      && t.cb.BeforeModel? && t.pc.ToStartModel? && !Active(m.reg, t.cb.key)
      && t.cb.request.eventsEnabled && t.cb.request.resolver.Panics?
    case InvalidToolSpan =>
      t.cb.BeforeTool? && if t.cb.span.None? then t.pc.Begin? else t.pc.ToStartTool? && !t.cb.span.value.IsValid()
    case ToolSystemResolverPanic =>
      t.cb.BeforeTool? && t.cb.system.None? && t.cb.span.Some? && StartsTool(t, t.cb.span.value)
  }

  // ---- One turn ----

  lemma AfterAgentMakes(m: Memory, t: Thread, now: Time, c: Call)
    requires Ready(m, t) && t.pc.Begin? && t.cb.AfterAgent?
    ensures Sum(Advance(m, t, now).2, Made(c)) == Bit(CalledFor(m, t, c))
  {
    SumFew(Advance(m, t, now).2, Made(c));
  }

  lemma AfterToolMakes(m: Memory, t: Thread, now: Time, c: Call)
    requires Ready(m, t) && t.pc.Begin? && t.cb.AfterTool?
    ensures Sum(Advance(m, t, now).2, Made(c)) == Bit(CalledFor(m, t, c))
  {
    SumFew(Advance(m, t, now).2, Made(c));
  }

  lemma BeforeToolMakes(m: Memory, t: Thread, now: Time, c: Call)
    requires Ready(m, t) && t.pc.Begin? && t.cb.BeforeTool?
    ensures Sum(Advance(m, t, now).2, Made(c)) == Bit(CalledFor(m, t, c))
  {
    SumFew(Advance(m, t, now).2, Made(c));
  }

  lemma BeginMakes(m: Memory, t: Thread, now: Time, c: Call)
    requires Ready(m, t) && t.pc.Begin? && !t.cb.AfterAgent? && !t.cb.BeforeTool? && !t.cb.AfterTool?
    ensures Sum(Advance(m, t, now).2, Made(c)) == Bit(CalledFor(m, t, c))
  {
    SumFew(Advance(m, t, now).2, Made(c));
  }

  lemma StartModelMakes(m: Memory, t: Thread, now: Time, c: Call)
    requires Ready(m, t) && t.pc.ToStartModel?
    ensures Sum(Advance(m, t, now).2, Made(c)) == Bit(CalledFor(m, t, c))
  {
    SumFew(Advance(m, t, now).2, Made(c));
  }

  lemma EndModelMakes(m: Memory, t: Thread, now: Time, c: Call)
    requires Ready(m, t) && t.pc.ToEndModel?
    ensures Sum(Advance(m, t, now).2, Made(c)) == Bit(CalledFor(m, t, c))
  {
    SumFew(Advance(m, t, now).2, Made(c));
  }

  lemma StartToolMakes(m: Memory, t: Thread, now: Time, c: Call)
    requires Ready(m, t) && t.pc.ToStartTool?
    ensures Sum(Advance(m, t, now).2, Made(c)) == Bit(CalledFor(m, t, c))
  {
    SumFew(Advance(m, t, now).2, Made(c));
  }

  lemma SetArgumentsMakes(m: Memory, t: Thread, now: Time, c: Call)
    requires Ready(m, t) && t.pc.ToSetArguments?
    ensures Sum(Advance(m, t, now).2, Made(c)) == Bit(CalledFor(m, t, c))
  {
    SumFew(Advance(m, t, now).2, Made(c));
  }

  lemma OthersMakeNone(m: Memory, t: Thread, now: Time, c: Call)
    requires Ready(m, t) && !t.pc.Begin? && !t.pc.ToStartModel? && !t.pc.ToEndModel? && !t.pc.ToStartTool? && !t.pc.ToSetArguments?
    ensures Sum(Advance(m, t, now).2, Made(c)) == Bit(CalledFor(m, t, c))
  {
    SumFew(Advance(m, t, now).2, Made(c));
  }

  lemma FirstMakes(m: Memory, t: Thread, now: Time, c: Call)
    requires Ready(m, t) && t.pc.Begin?
    ensures Sum(Advance(m, t, now).2, Made(c)) == Bit(CalledFor(m, t, c))
  {
    if t.cb.AfterAgent? {
      AfterAgentMakes(m, t, now, c);
    } else if t.cb.AfterTool? {
      AfterToolMakes(m, t, now, c);
    } else if t.cb.BeforeTool? {
      BeforeToolMakes(m, t, now, c);
    } else {
      BeginMakes(m, t, now, c);
    }
  }

  lemma TurnMakes(m: Memory, t: Thread, now: Time, c: Call)
    requires Ready(m, t)
    ensures Sum(Advance(m, t, now).2, Made(c)) == Bit(CalledFor(m, t, c))
  {
    if t.pc.Begin? {
      FirstMakes(m, t, now, c);
    } else if t.pc.ToStartModel? {
      StartModelMakes(m, t, now, c);
    } else if t.pc.ToEndModel? {
      EndModelMakes(m, t, now, c);
    } else if t.pc.ToStartTool? {
      StartToolMakes(m, t, now, c);
    } else if t.pc.ToSetArguments? {
      SetArgumentsMakes(m, t, now, c);
    } else {
      OthersMakeNone(m, t, now, c);
    }
  }

  // ---- Over a whole run ----

  // Decision k gives a callback a turn that calls for it.
  ghost predicate CalledForAt(cbs: seq<Callback>, schedule: seq<Tick>, k: nat, c: Call)
    requires k < |schedule|
  {
    var sys, tid := Before(cbs, schedule, k), schedule[k].tid;
    tid < |cbs| && sys.threads[tid].unsent == [] && CalledFor(sys.mem, sys.threads[tid], c)
  }

  ghost function TimesCalledFor(cbs: seq<Callback>, schedule: seq<Tick>, n: nat, c: Call): nat
    requires n <= |schedule|
  {
    if n == 0 then 0 else TimesCalledFor(cbs, schedule, n - 1, c) + Bit(CalledForAt(cbs, schedule, n - 1, c))
  }

  lemma TickMakes(sys: System, tick: Tick, c: Call)
    requires Sound(sys) && tick.tid < |sys.threads|
    ensures var t := sys.threads[tick.tid];
            Due(TickSystem(sys, tick), Made(c)) == Due(sys, Made(c)) + Bit(t.unsent == [] && CalledFor(sys.mem, t, c))
  {
    var t := sys.threads[tick.tid];
    TickDue(sys, tick, Made(c));
    if t.unsent == [] {
      TurnMakes(sys.mem, t, tick.now, c);
    }
  }

  lemma TurnDue(cbs: seq<Callback>, schedule: seq<Tick>, k: nat, c: Call)
    requires k < |schedule|
    ensures Due(Before(cbs, schedule, k + 1), Made(c)) == Due(Before(cbs, schedule, k), Made(c)) + Bit(CalledForAt(cbs, schedule, k, c))
  {
    BeforeNext(cbs, schedule, k);
    BeforeSound(cbs, schedule, k);
    if schedule[k].tid < |cbs| {
      TickMakes(Before(cbs, schedule, k), schedule[k], c);
    }
  }

  lemma DueIsLogged(sys: System, c: Call)
    requires forall i | 0 <= i < |sys.threads| :: sys.threads[i].unsent == []
    ensures Due(sys, Made(c)) == Sum(sys.log, Logged(Made(c)))
  {
    NothingUnsent(sys.threads, Made(c));
  }

  lemma {:induction false} CallsAreDue(cbs: seq<Callback>, schedule: seq<Tick>, n: nat, c: Call)
    requires n <= |schedule|
    ensures Due(Before(cbs, schedule, n), Made(c)) == TimesCalledFor(cbs, schedule, n, c)
  {
    if n == 0 {
      BeforeFirst(cbs, schedule);
      DueIsLogged(Initial(cbs), c);
    } else {
      CallsAreDue(cbs, schedule, n - 1, c);
      TurnDue(cbs, schedule, n - 1, c);
    }
  }

  // In every interleaving, once all callbacks are through: each call has been
  // made exactly as often as turns called for it.
  lemma CallsAreMade(cbs: seq<Callback>, schedule: seq<Tick>, c: Call)
    requires AllThrough(Execute(Initial(cbs), schedule).threads)
    ensures Sum(Execute(Initial(cbs), schedule).log, Logged(Made(c))) == TimesCalledFor(cbs, schedule, |schedule|, c)
  {
    BeforeLast(cbs, schedule);
    CallsAreDue(cbs, schedule, |schedule|, c);
    DueIsLogged(Execute(Initial(cbs), schedule), c);
  }

  // ---- Errors marked as pending ----

  function Marks(key: AgentKey, et: ErrorType): Step -> nat {
    (s: Step) => Bit(s == SMarkPending(key, et))
  }

  // The callback is given an error that is classified as this type.
  predicate Given(cb: Callback, et: ErrorType) {
    (cb.OnModelError? || cb.OnToolError? || cb.AfterModel? || cb.AfterTool?) && cb.err.Some? && Known(cb.err.value.first) == et
  }

  // An error callback of this agent.
  predicate ObservesError(cb: Callback, key: AgentKey, et: ErrorType) {
    (cb.OnModelError? || cb.OnToolError?) && cb.key == key && Given(cb, et)
  }

  function ErrorsObserved(key: AgentKey, et: ErrorType): Callback -> nat {
    (cb: Callback) => Bit(ObservesError(cb, key, et))
  }

  // This turn ends a model operation, or a tool that this agent has started,
  // with an error.
  predicate EndsFailing(m: Memory, t: Thread, key: AgentKey, et: ErrorType) {
    && Given(t.cb, et)
    && ((EndsModel(m, t) && t.cb.key == key) || (EndsTool(m, t) && m.reg.tools[t.cb.span.value].agentKey == key))
  }

  // The callback has still to mark its error.
  predicate WillMark(t: Thread, key: AgentKey, et: ErrorType) {
    && Given(t.cb, et)
    && match t.pc
       case Begin => ObservesError(t.cb, key, et)
       case ToCountInference(_) => t.cb.AfterModel? && t.cb.key == key
       case ToMarkModel(_) => t.cb.AfterModel? && t.cb.key == key
       case ToCountTool(st) => st.agentKey == key
       case ToMarkTool(st) => st.agentKey == key
       case _ => false
  }

  function YetToMark(key: AgentKey, et: ErrorType): Thread -> nat {
    (t: Thread) => Bit(WillMark(t, key, et))
  }

  // One turn marks, or leaves to be marked, what was left and what it adds.
  predicate MarksAlong(m: Memory, t: Thread, now: Time, key: AgentKey, et: ErrorType)
    requires WellFormed(t)
  {
    Bit(NextStep(t, now) == Some(SMarkPending(key, et))) + YetToMark(key, et)(t.(pc := Advance(m, t, now).1))
    == YetToMark(key, et)(t) + Bit(EndsFailing(m, t, key, et))
  }

  lemma FirstMarks(m: Memory, t: Thread, now: Time, key: AgentKey, et: ErrorType)
    requires Ready(m, t) && t.pc.Begin? && !t.cb.AfterTool?
    ensures MarksAlong(m, t, now, key, et)
  {
  }

  lemma AfterToolMarks(m: Memory, t: Thread, now: Time, key: AgentKey, et: ErrorType)
    requires Ready(m, t) && t.pc.Begin? && t.cb.AfterTool?
    ensures MarksAlong(m, t, now, key, et)
  {
  }

  lemma EndModelMarks(m: Memory, t: Thread, now: Time, key: AgentKey, et: ErrorType)
    requires Ready(m, t) && t.pc.ToEndModel?
    ensures MarksAlong(m, t, now, key, et)
  {
  }

  lemma LateMarks(m: Memory, t: Thread, now: Time, key: AgentKey, et: ErrorType)
    requires Ready(m, t) && !t.pc.Begin? && !t.pc.ToEndModel?
    ensures MarksAlong(m, t, now, key, et)
  {
  }

  lemma TurnMarks(m: Memory, t: Thread, now: Time, key: AgentKey, et: ErrorType)
    requires Ready(m, t)
    ensures MarksAlong(m, t, now, key, et)
  {
    if t.pc.Begin? {
      if t.cb.AfterTool? {
        AfterToolMarks(m, t, now, key, et);
      } else {
        FirstMarks(m, t, now, key, et);
      }
    } else if t.pc.ToEndModel? {
      EndModelMarks(m, t, now, key, et);
    } else {
      LateMarks(m, t, now, key, et);
    }
  }

  // The marks taken, and those still to be taken.
  ghost function MarksDue(sys: System, key: AgentKey, et: ErrorType): nat {
    Sum(sys.trace, Marks(key, et)) + Sum(sys.threads, YetToMark(key, et))
  }

  lemma TraceMarks(trace: seq<Step>, step: Option<Step>, key: AgentKey, et: ErrorType)
    ensures Sum(trace + Listed(step), Marks(key, et)) == Sum(trace, Marks(key, et)) + Bit(step == Some(SMarkPending(key, et)))
  {
    SumAppend(trace, Listed(step), Marks(key, et));
    SumFew(Listed(step), Marks(key, et));
  }

  lemma MoveMarks(m: Memory, t: Thread, now: Time, key: AgentKey, et: ErrorType)
    requires WellFormed(t) && OwnLocals(t) && Consistent(m.reg)
    ensures Bit(Move(m, t, now).step == Some(SMarkPending(key, et))) + YetToMark(key, et)(Move(m, t, now).thread)
            == YetToMark(key, et)(t) + Bit(t.unsent == [] && EndsFailing(m, t, key, et))
  {
    if t.unsent == [] {
      TurnMarks(m, t, now, key, et);
      var (_, pc, events) := Advance(m, t, now);
      assert WillMark(t.(pc := pc, unsent := events), key, et) == WillMark(t.(pc := pc), key, et);
    } else {
      assert WillMark(t.(unsent := t.unsent[1..]), key, et) == WillMark(t, key, et);
    }
  }

  lemma TickMarks(sys: System, tick: Tick, key: AgentKey, et: ErrorType)
    requires Sound(sys) && tick.tid < |sys.threads|
    ensures var t := sys.threads[tick.tid];
            MarksDue(TickSystem(sys, tick), key, et) ==
            MarksDue(sys, key, et) + Bit(t.unsent == [] && EndsFailing(sys.mem, t, key, et))
  {
    var t := sys.threads[tick.tid];
    TickHolds(sys, tick, YetToMark(key, et));
    TraceMarks(sys.trace, Move(sys.mem, t, tick.now).step, key, et);
    MoveMarks(sys.mem, t, tick.now, key, et);
  }

  ghost predicate EndsFailingAt(cbs: seq<Callback>, schedule: seq<Tick>, k: nat, key: AgentKey, et: ErrorType)
    requires k < |schedule|
  {
    var sys, tid := Before(cbs, schedule, k), schedule[k].tid;
    tid < |cbs| && sys.threads[tid].unsent == [] && EndsFailing(sys.mem, sys.threads[tid], key, et)
  }

  ghost function FailedEnds(cbs: seq<Callback>, schedule: seq<Tick>, n: nat, key: AgentKey, et: ErrorType): nat
    requires n <= |schedule|
  {
    if n == 0 then 0 else FailedEnds(cbs, schedule, n - 1, key, et) + Bit(EndsFailingAt(cbs, schedule, n - 1, key, et))
  }

  lemma TurnMarksDue(cbs: seq<Callback>, schedule: seq<Tick>, k: nat, key: AgentKey, et: ErrorType)
    requires k < |schedule|
    ensures MarksDue(Before(cbs, schedule, k + 1), key, et) ==
            MarksDue(Before(cbs, schedule, k), key, et) + Bit(EndsFailingAt(cbs, schedule, k, key, et))
  {
    BeforeNext(cbs, schedule, k);
    BeforeSound(cbs, schedule, k);
    if schedule[k].tid < |cbs| {
      TickMarks(Before(cbs, schedule, k), schedule[k], key, et);
    }
  }

  lemma {:induction false} AllYetToMark(threads: seq<Thread>, cbs: seq<Callback>, key: AgentKey, et: ErrorType)
    requires |threads| == |cbs| && forall i | 0 <= i < |cbs| :: threads[i] == Start(cbs[i])
    ensures Sum(threads, YetToMark(key, et)) == Sum(cbs, ErrorsObserved(key, et))
  {
    if cbs == [] {
    } else {
      var n := |cbs| - 1;
      AllYetToMark(threads[..n], cbs[..n], key, et);
    }
  }

  lemma {:induction false} MarksAreDue(cbs: seq<Callback>, schedule: seq<Tick>, n: nat, key: AgentKey, et: ErrorType)
    requires n <= |schedule|
    ensures MarksDue(Before(cbs, schedule, n), key, et) ==
            Sum(cbs, ErrorsObserved(key, et)) + FailedEnds(cbs, schedule, n, key, et)
  {
    if n == 0 {
      BeforeFirst(cbs, schedule);
      AllYetToMark(Initial(cbs).threads, cbs, key, et);
    } else {
      MarksAreDue(cbs, schedule, n - 1, key, et);
      TurnMarksDue(cbs, schedule, n - 1, key, et);
    }
  }

  // In every interleaving, once all callbacks are through: an agent has been
  // marked with an error type once for every error of that type its error
  // callbacks were given and every model operation or tool of its that ended
  // with one, and never otherwise.
  lemma MarksAreMade(cbs: seq<Callback>, schedule: seq<Tick>, key: AgentKey, et: ErrorType)
    requires AllThrough(Execute(Initial(cbs), schedule).threads)
    ensures Sum(Execute(Initial(cbs), schedule).trace, Marks(key, et)) ==
            Sum(cbs, ErrorsObserved(key, et)) + FailedEnds(cbs, schedule, |schedule|, key, et)
  {
    BeforeLast(cbs, schedule);
    MarksAreDue(cbs, schedule, |schedule|, key, et);
    SumZero(Execute(Initial(cbs), schedule).threads, YetToMark(key, et));
  }
}
