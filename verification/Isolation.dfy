// Concurrent invocations sharing one registry do not observe each other.
module Isolation {
  import opened Types
  import opened RegistrySpec
  import opened Sequences
  import opened Callbacks

  // Which invocation an execute_tool span belongs to.
  type Owner = ToolKey -> string

  // The part of a map that belongs to one invocation: a tool does by its own
  // record.
  function Own<V>(m: map<AgentKey, V>, inv: string): map<AgentKey, V> {
    map k | k in m && k.invocationID == inv :: m[k]
  }

  function OwnTools(m: map<ToolKey, ToolRecord>, inv: string): map<ToolKey, ToolRecord> {
    map k | k in m && m[k].invocationID == inv :: m[k]
  }

  function OwnRetired(m: map<(AgentKey, nat), ModelRecord>, inv: string): map<(AgentKey, nat), ModelRecord> {
    map p | p in m && p.0.invocationID == inv :: m[p]
  }

  function Restrict(r: Reg, inv: string): Reg {
    Reg(Own(r.agents, inv), Own(r.models, inv), OwnTools(r.tools, inv), Own(r.ops, inv))
  }

  function RestrictMemory(m: Memory, inv: string): Memory {
    Memory(Restrict(m.reg, inv), OwnRetired(m.retired, inv))
  }

  function StepInvocation(s: Step, owner: Owner): string {
    match s
    case SSetArguments(span, _) => owner(span)
    case SEndTool(span) => owner(span)
    case SCleanup(inv) => inv
    case _ => s.key.invocationID
  }

  // Tools are started under spans of their own invocation.
  predicate RespectsOwner(s: Step, owner: Owner) {
    s.SStartTool? ==> s.invocationID == s.key.invocationID && (s.span.IsValid() ==> owner(s.span) == s.invocationID)
  }

  // A tool is not started under an invalid span.
  predicate Refused(s: Step) {
    s.SStartTool? && !s.span.IsValid()
  }

  ghost predicate ToolsOwned(r: Reg, owner: Owner) {
    forall k <- r.tools :: r.tools[k].invocationID == r.tools[k].agentKey.invocationID == owner(k)
  }

  lemma StepKeepsToolsOwned(r: Reg, s: Step, owner: Owner)
    requires ToolsOwned(r, owner) && RespectsOwner(s, owner)
    ensures ToolsOwned(Apply(r, s).0, owner)
  {
  }

  function Lookup<K, V>(m: map<K, V>, k: K): Option<V> {
    if k in m then Some(m[k]) else None
  }

  lemma SameMap<K, V>(a: map<K, V>, b: map<K, V>)
    requires forall k :: Lookup(a, k) == Lookup(b, k)
    ensures a == b
  {
    forall k ensures k in a <==> k in b {
      assert Lookup(a, k) == Lookup(b, k);
    }
    forall k | k in a ensures a[k] == b[k] {
      assert Lookup(a, k) == Lookup(b, k);
    }
  }

  // The steps that touch each of the maps, cleanup apart.
  predicate OnAgents(s: Step) {
    s.SStartAgent? || s.SEndAgent? || s.SIncrementInference? || s.SIncrementTool? || s.SMarkPending? || s.STakePending?
  }

  predicate OnModels(s: Step) {
    s.SStartModel? || s.SUpdateRequest? || s.SUpdateUsage? || s.SEndModel? || s.SGetModel?
  }

  predicate OnTools(s: Step) {
    s.SStartTool? || s.SSetArguments? || s.SEndTool?
  }

  lemma Untouched(r: Reg, s: Step)
    ensures !OnAgents(s) && !s.SCleanup? ==> Apply(r, s).0.agents == r.agents
    ensures !OnModels(s) && !s.SCleanup? ==> Apply(r, s).0.models == r.models
    ensures !OnModels(s) ==> Apply(r, s).0.ops == r.ops
    ensures !OnTools(s) && !s.SCleanup? ==> Apply(r, s).0.tools == r.tools
  {
  }

  // A step changes the maps at its own key only, and what it does there and
  // returns depends only on what is there.
  lemma AgentStepIsLocal(r: Reg, q: Reg, s: Step, k: AgentKey)
    requires OnAgents(s) && Lookup(r.agents, k) == Lookup(q.agents, k)
    ensures k != s.key ==> Lookup(Apply(r, s).0.agents, k) == Lookup(r.agents, k)
    ensures k == s.key ==> Lookup(Apply(r, s).0.agents, k) == Lookup(Apply(q, s).0.agents, k)
    ensures k == s.key ==> Apply(r, s).1 == Apply(q, s).1
  {
  }

  lemma ModelStepElsewhere(r: Reg, s: Step, k: AgentKey)
    requires OnModels(s) && k != s.key
    ensures Lookup(Apply(r, s).0.models, k) == Lookup(r.models, k)
    ensures Lookup(Apply(r, s).0.ops, k) == Lookup(r.ops, k)
  {
  }

  lemma ModelStepIsLocal(r: Reg, q: Reg, s: Step)
    requires OnModels(s) && Lookup(r.models, s.key) == Lookup(q.models, s.key) && Lookup(r.ops, s.key) == Lookup(q.ops, s.key)
    ensures Lookup(Apply(r, s).0.models, s.key) == Lookup(Apply(q, s).0.models, s.key)
    ensures Lookup(Apply(r, s).0.ops, s.key) == Lookup(Apply(q, s).0.ops, s.key)
    ensures Apply(r, s).1 == Apply(q, s).1
  {
  }

  lemma ToolStepIsLocal(r: Reg, q: Reg, s: Step, k: ToolKey)
    requires OnTools(s) && Lookup(r.tools, k) == Lookup(q.tools, k)
    ensures k != s.span ==> Lookup(Apply(r, s).0.tools, k) == Lookup(r.tools, k)
    ensures k == s.span ==> Lookup(Apply(r, s).0.tools, k) == Lookup(Apply(q, s).0.tools, k)
    ensures k == s.span ==> Apply(r, s).1 == Apply(q, s).1
  {
  }

  // A step of this invocation sees and changes this invocation's part only.
  lemma OwnStep(r: Reg, s: Step, inv: string, owner: Owner)
    requires ToolsOwned(r, owner) && RespectsOwner(s, owner) && StepInvocation(s, owner) == inv
    ensures Apply(Restrict(r, inv), s) == (Restrict(Apply(r, s).0, inv), Apply(r, s).1)
  {
    Untouched(r, s);
    Untouched(Restrict(r, inv), s);
    if OnAgents(s) {
      OwnAgentStep(r, s, inv);
    } else if OnModels(s) {
      OwnModelStep(r, s, inv);
    } else if OnTools(s) && !Refused(s) {
      OwnToolStep(r, s, inv, owner);
    } else if s.SCleanup? {
      OwnCleanup(r, inv);
    }
  }

  lemma OwnAgentStep(r: Reg, s: Step, inv: string)
    requires OnAgents(s) && s.key.invocationID == inv
    ensures Apply(Restrict(r, inv), s).0.agents == Own(Apply(r, s).0.agents, inv)
    ensures Apply(Restrict(r, inv), s).1 == Apply(r, s).1
  {
    var own := Restrict(r, inv);
    AgentStepIsLocal(r, own, s, s.key);
    forall k ensures Lookup(Apply(own, s).0.agents, k) == Lookup(Own(Apply(r, s).0.agents, inv), k) {
      AgentStepIsLocal(r, r, s, k);
      AgentStepIsLocal(own, own, s, k);
    }
    SameMap(Apply(own, s).0.agents, Own(Apply(r, s).0.agents, inv));
  }

  lemma OwnModelLookup(r: Reg, s: Step, inv: string, k: AgentKey)
    requires OnModels(s) && s.key.invocationID == inv
    ensures Lookup(Apply(Restrict(r, inv), s).0.models, k) == Lookup(Own(Apply(r, s).0.models, inv), k)
    ensures Lookup(Apply(Restrict(r, inv), s).0.ops, k) == Lookup(Own(Apply(r, s).0.ops, inv), k)
  {
    var own := Restrict(r, inv);
    if k == s.key {
      ModelStepIsLocal(r, own, s);
    } else {
      ModelStepElsewhere(r, s, k);
      ModelStepElsewhere(own, s, k);
    }
  }

  lemma OwnModelStep(r: Reg, s: Step, inv: string)
    requires OnModels(s) && s.key.invocationID == inv
    ensures Apply(Restrict(r, inv), s).0.models == Own(Apply(r, s).0.models, inv)
    ensures Apply(Restrict(r, inv), s).0.ops == Own(Apply(r, s).0.ops, inv)
    ensures Apply(Restrict(r, inv), s).1 == Apply(r, s).1
  {
    var own := Restrict(r, inv);
    ModelStepIsLocal(r, own, s);
    forall k
      ensures Lookup(Apply(own, s).0.models, k) == Lookup(Own(Apply(r, s).0.models, inv), k)
      ensures Lookup(Apply(own, s).0.ops, k) == Lookup(Own(Apply(r, s).0.ops, inv), k)
    {
      OwnModelLookup(r, s, inv, k);
    }
    SameMap(Apply(own, s).0.models, Own(Apply(r, s).0.models, inv));
    SameMap(Apply(own, s).0.ops, Own(Apply(r, s).0.ops, inv));
  }

  lemma OwnToolAtSpan(r: Reg, s: Step, inv: string, owner: Owner)
    requires OnTools(s) && !Refused(s) && ToolsOwned(r, owner) && RespectsOwner(s, owner) && owner(s.span) == inv
    ensures Lookup(Apply(Restrict(r, inv), s).0.tools, s.span) == Lookup(OwnTools(Apply(r, s).0.tools, inv), s.span)
    ensures Apply(Restrict(r, inv), s).1 == Apply(r, s).1
  {
    ToolStepIsLocal(r, Restrict(r, inv), s, s.span);
  }

  lemma OwnToolLookup(r: Reg, s: Step, inv: string, owner: Owner, k: ToolKey)
    requires OnTools(s) && !Refused(s) && ToolsOwned(r, owner) && RespectsOwner(s, owner) && owner(s.span) == inv
    ensures Lookup(Apply(Restrict(r, inv), s).0.tools, k) == Lookup(OwnTools(Apply(r, s).0.tools, inv), k)
    ensures Apply(Restrict(r, inv), s).1 == Apply(r, s).1
  {
    OwnToolAtSpan(r, s, inv, owner);
    if k != s.span {
      ToolStepIsLocal(r, r, s, k);
      ToolStepIsLocal(Restrict(r, inv), Restrict(r, inv), s, k);
    }
  }

  lemma OwnToolStep(r: Reg, s: Step, inv: string, owner: Owner)
    requires OnTools(s) && !Refused(s) && ToolsOwned(r, owner) && RespectsOwner(s, owner) && owner(s.span) == inv
    ensures Apply(Restrict(r, inv), s).0.tools == OwnTools(Apply(r, s).0.tools, inv)
    ensures Apply(Restrict(r, inv), s).1 == Apply(r, s).1
  {
    OwnToolLookup(r, s, inv, owner, s.span);
    forall k ensures Lookup(Apply(Restrict(r, inv), s).0.tools, k) == Lookup(OwnTools(Apply(r, s).0.tools, inv), k) {
      OwnToolLookup(r, s, inv, owner, k);
    }
    SameMap(Apply(Restrict(r, inv), s).0.tools, OwnTools(Apply(r, s).0.tools, inv));
  }

  lemma OwnCleanup(r: Reg, inv: string)
    ensures CleanupInvocation(Restrict(r, inv), inv) == Restrict(CleanupInvocation(r, inv), inv)
  {
  }

  lemma OwnStepRetires(r: Reg, s: Step, inv: string, owner: Owner)
    requires StepInvocation(s, owner) == inv
    ensures Retires(Restrict(r, inv), s) == OwnRetired(Retires(r, s), inv)
  {
  }

  // A step of another invocation does not touch it.
  lemma OtherStep(r: Reg, s: Step, inv: string, owner: Owner)
    requires ToolsOwned(r, owner) && RespectsOwner(s, owner) && StepInvocation(s, owner) != inv
    ensures Restrict(Apply(r, s).0, inv) == Restrict(r, inv)
  {
    Untouched(r, s);
    if OnAgents(s) {
      forall k: AgentKey | k.invocationID == inv ensures Lookup(Apply(r, s).0.agents, k) == Lookup(r.agents, k) {
        AgentStepIsLocal(r, r, s, k);
      }
      SameOwn(Apply(r, s).0.agents, r.agents, inv);
    } else if OnModels(s) {
      forall k: AgentKey | k.invocationID == inv
        ensures Lookup(Apply(r, s).0.models, k) == Lookup(r.models, k)
        ensures Lookup(Apply(r, s).0.ops, k) == Lookup(r.ops, k)
      {
        ModelStepElsewhere(r, s, k);
      }
      SameOwn(Apply(r, s).0.models, r.models, inv);
      SameOwn(Apply(r, s).0.ops, r.ops, inv);
    } else if OnTools(s) && !Refused(s) {
      OtherToolStep(r, s, inv, owner);
    } else if s.SCleanup? {
      OtherCleanup(r, s.invocationID, inv);
    }
  }

  lemma SameOwn<V>(a: map<AgentKey, V>, b: map<AgentKey, V>, inv: string)
    requires forall k: AgentKey :: k.invocationID == inv ==> Lookup(a, k) == Lookup(b, k)
    ensures Own(a, inv) == Own(b, inv)
  {
    forall k ensures Lookup(Own(a, inv), k) == Lookup(Own(b, inv), k) {
      assert k.invocationID == inv ==> Lookup(a, k) == Lookup(b, k);
    }
    SameMap(Own(a, inv), Own(b, inv));
  }

  lemma OtherToolStep(r: Reg, s: Step, inv: string, owner: Owner)
    requires OnTools(s) && !Refused(s) && ToolsOwned(r, owner) && RespectsOwner(s, owner) && owner(s.span) != inv
    ensures OwnTools(Apply(r, s).0.tools, inv) == OwnTools(r.tools, inv)
  {
    var a, b := OwnTools(Apply(r, s).0.tools, inv), OwnTools(r.tools, inv);
    forall k ensures Lookup(a, k) == Lookup(b, k) {
      ToolStepIsLocal(r, r, s, k);
    }
    SameMap(a, b);
  }

  lemma OtherCleanup(r: Reg, other: string, inv: string)
    requires other != inv
    ensures Restrict(CleanupInvocation(r, other), inv) == Restrict(r, inv)
  {
  }

  lemma OtherStepRetires(r: Reg, s: Step, inv: string, owner: Owner)
    requires StepInvocation(s, owner) != inv
    ensures OwnRetired(Retires(r, s), inv) == map[]
  {
  }

  lemma RestrictMerged(a: map<(AgentKey, nat), ModelRecord>, b: map<(AgentKey, nat), ModelRecord>, inv: string)
    ensures OwnRetired(a + b, inv) == OwnRetired(a, inv) + OwnRetired(b, inv)
  {
  }

  lemma MemoryStep(m: Memory, s: Step, inv: string, owner: Owner)
    requires ToolsOwned(m.reg, owner) && RespectsOwner(s, owner)
    ensures var (m', ret) := ApplyMemory(m, s);
            if StepInvocation(s, owner) == inv
            then ApplyMemory(RestrictMemory(m, inv), s) == (RestrictMemory(m', inv), ret)
            else RestrictMemory(m', inv) == RestrictMemory(m, inv)
  {
    RestrictMerged(m.retired, Retires(m.reg, s), inv);
    if StepInvocation(s, owner) == inv {
      OwnStep(m.reg, s, inv, owner);
      OwnStepRetires(m.reg, s, inv, owner);
    } else {
      OtherStep(m.reg, s, inv, owner);
      OtherStepRetires(m.reg, s, inv, owner);
      assert OwnRetired(m.retired, inv) + map[] == OwnRetired(m.retired, inv);
    }
  }

  function InvocationOf(cb: Callback, owner: Owner): string {
    match cb
    case AfterRun(inv) => inv
    case AfterTool(span, _, _) => if span.Some? then owner(span.value) else ""
    case _ => cb.key.invocationID
  }

  // The callback starts a tool under this span.
  predicate StartsUnder(cb: Callback, span: ToolKey) {
    cb.BeforeTool? && cb.span == Some(span) && span.IsValid()
  }

  predicate OwnSpan(cb: Callback, owner: Owner) {
    cb.BeforeTool? && cb.span.Some? && StartsUnder(cb, cb.span.value) ==> owner(cb.span.value) == cb.key.invocationID
  }

  // The locals of a callback are of its own invocation.
  predicate OwnLocals(t: Thread, owner: Owner) {
    var inv := InvocationOf(t.cb, owner);
    && WellFormed(t) && OwnSpan(t.cb, owner)
    && (t.pc.ToStartTool? && t.pc.span.IsValid() ==> owner(t.pc.span) == inv)
    && (t.pc.ToSetArguments? ==> owner(t.pc.span) == inv)
    && (t.pc.ToCountTool? ==> t.pc.tool.agentKey.invocationID == inv)
    && (t.pc.ToMarkTool? ==> t.pc.tool.agentKey.invocationID == inv)
  }

  lemma NextStepOwned(t: Thread, now: Time, owner: Owner)
    requires OwnLocals(t, owner) && NextStep(t, now).Some?
    ensures RespectsOwner(NextStep(t, now).value, owner)
    ensures StepInvocation(NextStep(t, now).value, owner) == InvocationOf(t.cb, owner)
  {
  }

  lemma MoveKeepsOwned(m: Memory, t: Thread, now: Time, owner: Owner)
    requires OwnLocals(t, owner) && ToolsOwned(m.reg, owner)
    ensures OwnLocals(Move(m, t, now).thread, owner)
    ensures ToolsOwned(Move(m, t, now).mem.reg, owner)
  {
    MoveKeepsWellFormed(m, t, now);
    if t.unsent == [] && NextStep(t, now).Some? {
      NextStepOwned(t, now, owner);
      StepKeepsToolsOwned(m.reg, NextStep(t, now).value, owner);
    }
  }

  lemma AdvanceIsolated(m: Memory, t: Thread, now: Time, inv: string, owner: Owner)
    requires OwnLocals(t, owner) && ToolsOwned(m.reg, owner)
    ensures var (m', pc, events) := Advance(m, t, now);
            if InvocationOf(t.cb, owner) == inv
            then Advance(RestrictMemory(m, inv), t, now) == (RestrictMemory(m', inv), pc, events)
            else RestrictMemory(m', inv) == RestrictMemory(m, inv)
  {
    if NextStep(t, now).Some? {
      NextStepOwned(t, now, owner);
      MemoryStep(m, NextStep(t, now).value, inv, owner);
    }
  }

  lemma MoveIsolated(m: Memory, t: Thread, now: Time, inv: string, owner: Owner)
    requires OwnLocals(t, owner) && ToolsOwned(m.reg, owner)
    ensures var moved := Move(m, t, now);
            if InvocationOf(t.cb, owner) == inv
            then Move(RestrictMemory(m, inv), t, now) == moved.(mem := RestrictMemory(moved.mem, inv))
            else RestrictMemory(moved.mem, inv) == RestrictMemory(m, inv)
  {
    if t.unsent == [] {
      AdvanceIsolated(m, t, now, inv, owner);
    }
  }

  // The callbacks of one invocation.
  predicate Mine(threads: seq<Thread>, tid: nat, inv: string, owner: Owner) {
    tid < |threads| && InvocationOf(threads[tid].cb, owner) == inv
  }

  function OwnTicks(schedule: seq<Tick>, threads: seq<Thread>, inv: string, owner: Owner): seq<Tick> {
    if schedule == [] then []
    else
      (if Mine(threads, schedule[0].tid, inv, owner) then [schedule[0]] else [])
      + OwnTicks(schedule[1..], threads, inv, owner)
  }

  function OwnLog(log: seq<Entry>, threads: seq<Thread>, inv: string, owner: Owner): seq<Entry> {
    if log == [] then []
    else
      OwnLog(log[..|log| - 1], threads, inv, owner)
      + if Mine(threads, log[|log| - 1].tid, inv, owner) then [log[|log| - 1]] else []
  }

  ghost predicate AllOwned(sys: System, owner: Owner) {
    && AllWellFormed(sys.threads) && ToolsOwned(sys.mem.reg, owner)
    && forall i | 0 <= i < |sys.threads| :: OwnLocals(sys.threads[i], owner)
  }

  // alone is what the full system looks like from inside the invocation.
  ghost predicate SeenBy(full: System, alone: System, inv: string, owner: Owner) {
    && AllOwned(full, owner) && AllWellFormed(alone.threads)
    && alone.mem == RestrictMemory(full.mem, inv)
    && |alone.threads| == |full.threads|
    && (forall i | 0 <= i < |full.threads| :: alone.threads[i].cb == full.threads[i].cb)
    && (forall i | 0 <= i < |full.threads| && Mine(full.threads, i, inv, owner) :: alone.threads[i] == full.threads[i])
    && alone.log == OwnLog(full.log, full.threads, inv, owner)
  }

  lemma OwnLogOneMore(log: seq<Entry>, e: Entry, threads: seq<Thread>, inv: string, owner: Owner)
    ensures OwnLog(log + [e], threads, inv, owner) ==
            OwnLog(log, threads, inv, owner) + if Mine(threads, e.tid, inv, owner) then [e] else []
  {
    assert (log + [e])[..|log|] == log;
  }

  lemma {:induction false} OwnLogTagged(log: seq<Entry>, tid: nat, events: seq<Event>, threads: seq<Thread>, inv: string, owner: Owner)
    ensures OwnLog(log + Tag(tid, events), threads, inv, owner) ==
            OwnLog(log, threads, inv, owner) + if Mine(threads, tid, inv, owner) then Tag(tid, events) else []
  {
    if events == [] {
      assert log + Tag(tid, events) == log;
    } else {
      var n := |events| - 1;
      var most, last := Tag(tid, events[..n]), Entry(tid, events[n]);
      OwnLogTagged(log, tid, events[..n], threads, inv, owner);
      TagLast(log, tid, events);
      OwnLogOneMore(log + most, last, threads, inv, owner);
    }
  }

  lemma {:induction false} OwnLogSameCallbacks(log: seq<Entry>, a: seq<Thread>, b: seq<Thread>, inv: string, owner: Owner)
    requires |a| == |b| && forall i | 0 <= i < |a| :: a[i].cb == b[i].cb
    ensures OwnLog(log, a, inv, owner) == OwnLog(log, b, inv, owner)
  {
    if log == [] {
    } else {
      OwnLogSameCallbacks(log[..|log| - 1], a, b, inv, owner);
    }
  }

  lemma TickLogSeen(full: System, tick: Tick, inv: string, owner: Owner)
    requires AllWellFormed(full.threads) && tick.tid < |full.threads|
    ensures var after := TickSystem(full, tick);
            OwnLog(after.log, after.threads, inv, owner) ==
            OwnLog(full.log, full.threads, inv, owner)
            + if Mine(full.threads, tick.tid, inv, owner)
              then Tag(tick.tid, Move(full.mem, full.threads[tick.tid], tick.now).sent) else []
  {
    var after := TickSystem(full, tick);
    OwnLogSameCallbacks(after.log, full.threads, after.threads, inv, owner);
    OwnLogTagged(full.log, tick.tid, Move(full.mem, full.threads[tick.tid], tick.now).sent, full.threads, inv, owner);
  }

  lemma TickSeen(full: System, alone: System, tick: Tick, inv: string, owner: Owner)
    requires SeenBy(full, alone, inv, owner)
    ensures SeenBy(TickSystem(full, tick),
                   if Mine(full.threads, tick.tid, inv, owner) then TickSystem(alone, tick) else alone, inv, owner)
  {
    TickKeepsWellFormed(full, tick);
    TickKeepsWellFormed(alone, tick);
    if tick.tid < |full.threads| {
      var t := full.threads[tick.tid];
      MoveKeepsOwned(full.mem, t, tick.now, owner);
      MoveIsolated(full.mem, t, tick.now, inv, owner);
      TickLogSeen(full, tick, inv, owner);
    }
  }

  lemma {:induction false} OwnTicksSameCallbacks(schedule: seq<Tick>, a: seq<Thread>, b: seq<Thread>, inv: string, owner: Owner)
    requires |a| == |b| && forall i | 0 <= i < |a| :: a[i].cb == b[i].cb
    ensures OwnTicks(schedule, a, inv, owner) == OwnTicks(schedule, b, inv, owner)
  {
    if schedule == [] {
    } else {
      OwnTicksSameCallbacks(schedule[1..], a, b, inv, owner);
    }
  }

  lemma {:induction false} RunSeen(full: System, alone: System, schedule: seq<Tick>, inv: string, owner: Owner)
    requires SeenBy(full, alone, inv, owner)
    ensures SeenBy(Execute(full, schedule), Execute(alone, OwnTicks(schedule, full.threads, inv, owner)), inv, owner)
    decreases |schedule|
  {
    if schedule == [] {
    } else {
      var tick := schedule[0];
      var rest := OwnTicks(schedule[1..], full.threads, inv, owner);
      var full' := TickSystem(full, tick);
      TickKeepsWellFormed(full, tick);
      TickSeen(full, alone, tick, inv, owner);
      OwnTicksSameCallbacks(schedule[1..], full.threads, full'.threads, inv, owner);
      if Mine(full.threads, tick.tid, inv, owner) {
        assert OwnTicks(schedule, full.threads, inv, owner) == [tick] + rest;
        RunSeen(full', TickSystem(alone, tick), schedule[1..], inv, owner);
      } else {
        assert OwnTicks(schedule, full.threads, inv, owner) == rest;
        RunSeen(full', alone, schedule[1..], inv, owner);
      }
    }
  }

  // The part of the registry that belongs to one invocation, the progress of
  // its callbacks and the calls they make on the instrumenter are what running
  // that invocation's callbacks alone gives.
  ghost predicate Isolated(cbs: seq<Callback>, schedule: seq<Tick>, inv: string, owner: Owner) {
    var start := Initial(cbs);
    var full := Execute(start, schedule);
    var alone := Execute(start, OwnTicks(schedule, start.threads, inv, owner));
    && alone.mem == RestrictMemory(full.mem, inv)
    && alone.log == OwnLog(full.log, start.threads, inv, owner)
    && |alone.threads| == |full.threads| == |cbs|
    && forall i | 0 <= i < |cbs| && InvocationOf(cbs[i], owner) == inv :: alone.threads[i] == full.threads[i]
  }

  // For every interleaving of any callbacks of any invocations, if every tool
  // is started under a span of its own invocation.
  lemma InvocationsAreIsolated(cbs: seq<Callback>, schedule: seq<Tick>, inv: string, owner: Owner)
    requires forall i | 0 <= i < |cbs| :: OwnSpan(cbs[i], owner)
    ensures Isolated(cbs, schedule, inv, owner)
  {
    var start := Initial(cbs);
    RunSeen(start, start, schedule, inv, owner);
    var full := Execute(start, schedule);
    CallbacksStay(start, schedule);
    OwnLogSameCallbacks(full.log, start.threads, full.threads, inv, owner);
  }

  // ---- Exactly when ----

  ghost predicate AlwaysIsolated(cbs: seq<Callback>, owner: Owner) {
    forall schedule, inv :: Isolated(cbs, schedule, inv, owner)
  }

  // No two invocations start tools under the same valid span.
  predicate NoSharedSpan(cbs: seq<Callback>) {
    forall i, j | 0 <= i < |cbs| && 0 <= j < |cbs| && cbs[i].BeforeTool? && cbs[j].BeforeTool?
                  && cbs[i].span.Some? && cbs[i].span == cbs[j].span && cbs[i].span.value.IsValid() ::
      cbs[i].key.invocationID == cbs[j].key.invocationID
  }

  function FirstOwner(cbs: seq<Callback>, span: ToolKey): string {
    if cbs == [] then ""
    else if StartsUnder(cbs[0], span) then cbs[0].key.invocationID
    else FirstOwner(cbs[1..], span)
  }

  lemma {:induction false} FirstOwnerStarts(cbs: seq<Callback>, span: ToolKey, i: nat) returns (j: nat)
    requires i < |cbs| && StartsUnder(cbs[i], span)
    ensures j < |cbs| && StartsUnder(cbs[j], span) && FirstOwner(cbs, span) == cbs[j].key.invocationID
  {
    if StartsUnder(cbs[0], span) {
      j := 0;
    } else {
      j := FirstOwnerStarts(cbs[1..], span, i - 1);
      j := j + 1;
    }
  }

  // Callback i starts a tool, and then j starts one under the same span.
  ghost function Takeover(cbs: seq<Callback>, i: nat, j: nat): System {
    Execute(Initial(cbs), [Tick(i, 0), Tick(i, 0), Tick(j, 0), Tick(j, 0)])
  }

  // What the two turns of a callback that starts a tool do to the registry.
  lemma StartsTool(sys: System, i: nat, span: ToolKey)
    requires AllWellFormed(sys.threads) && i < |sys.threads| && sys.threads[i] == Start(sys.threads[i].cb)
    requires StartsUnder(sys.threads[i].cb, span) && sys.mem.reg.agents == map[]
    ensures var after := Execute(sys, [Tick(i, 0), Tick(i, 0)]);
            && AllWellFormed(after.threads) && |after.threads| == |sys.threads|
            && (forall k | 0 <= k < |sys.threads| && k != i :: after.threads[k] == sys.threads[k])
            && after.mem.reg.agents == map[]
            && span in after.mem.reg.tools && after.mem.reg.tools[span].invocationID == sys.threads[i].cb.key.invocationID
  {
    var tick := Tick(i, 0);
    ExecuteOne(sys, tick);
    var asked := TickSystem(sys, tick);
    assert asked.threads[i] == Thread(sys.threads[i].cb, ToStartTool(span)) && asked.mem.reg.agents == map[];
    ExecuteOne(asked, tick);
    ExecuteConcat(sys, [tick], [tick]);
    assert [tick, tick] == [tick] + [tick];
  }

  lemma TakesOver(cbs: seq<Callback>, i: nat, j: nat, span: ToolKey)
    requires i < |cbs| && j < |cbs| && i != j && StartsUnder(cbs[i], span) && StartsUnder(cbs[j], span)
    ensures var r := Takeover(cbs, i, j).mem.reg; span in r.tools && r.tools[span].invocationID == cbs[j].key.invocationID
    ensures var r := Execute(Initial(cbs), [Tick(i, 0), Tick(i, 0)]).mem.reg;
            span in r.tools && r.tools[span].invocationID == cbs[i].key.invocationID
  {
    var first, second := [Tick(i, 0), Tick(i, 0)], [Tick(j, 0), Tick(j, 0)];
    StartsTool(Initial(cbs), i, span);
    StartsTool(Execute(Initial(cbs), first), j, span);
    ExecuteConcat(Initial(cbs), first, second);
    assert first + second == [Tick(i, 0), Tick(i, 0), Tick(j, 0), Tick(j, 0)];
  }

  lemma {:induction false} OwnTicksAppend(a: seq<Tick>, b: seq<Tick>, threads: seq<Thread>, inv: string, owner: Owner)
    ensures OwnTicks(a + b, threads, inv, owner) == OwnTicks(a, threads, inv, owner) + OwnTicks(b, threads, inv, owner)
  {
    if a == [] {
      assert a + b == b;
    } else {
      OwnTicksAppend(a[1..], b, threads, inv, owner);
      assert (a + b)[0] == a[0] && (a + b)[1..] == a[1..] + b;
      Regroup(if Mine(threads, a[0].tid, inv, owner) then [a[0]] else [],
              OwnTicks(a[1..], threads, inv, owner), OwnTicks(b, threads, inv, owner));
    }
  }

  lemma OwnTicksTwice(tick: Tick, threads: seq<Thread>, inv: string, owner: Owner)
    ensures OwnTicks([tick, tick], threads, inv, owner) == if Mine(threads, tick.tid, inv, owner) then [tick, tick] else []
  {
    assert OwnTicks([tick], threads, inv, owner) == if Mine(threads, tick.tid, inv, owner) then [tick] else [] by {
      assert [tick][1..] == [];
    }
    assert [tick, tick] == [tick] + [tick];
    OwnTicksAppend([tick], [tick], threads, inv, owner);
  }

  lemma OwnTakeover(cbs: seq<Callback>, i: nat, j: nat, owner: Owner)
    requires i < |cbs| && j < |cbs| && cbs[i].BeforeTool? && cbs[j].BeforeTool?
    requires cbs[i].key.invocationID != cbs[j].key.invocationID
    ensures var threads, inv := Initial(cbs).threads, cbs[i].key.invocationID;
            OwnTicks([Tick(i, 0), Tick(i, 0), Tick(j, 0), Tick(j, 0)], threads, inv, owner) == [Tick(i, 0), Tick(i, 0)]
  {
    var threads, inv := Initial(cbs).threads, cbs[i].key.invocationID;
    var a, b := Tick(i, 0), Tick(j, 0);
    assert [a, a] + [b, b] == [a, a, b, b];
    OwnTicksAppend([a, a], [b, b], threads, inv, owner);
    OwnTicksTwice(a, threads, inv, owner);
    OwnTicksTwice(b, threads, inv, owner);
  }

  // Two invocations that start tools under one span: the second start takes
  // the state away from the first invocation, which finds it when it is alone.
  lemma SharedSpanInterferes(cbs: seq<Callback>, i: nat, j: nat, span: ToolKey, owner: Owner)
    requires i < |cbs| && j < |cbs| && StartsUnder(cbs[i], span) && StartsUnder(cbs[j], span)
    requires cbs[i].key.invocationID != cbs[j].key.invocationID
    ensures !Isolated(cbs, [Tick(i, 0), Tick(i, 0), Tick(j, 0), Tick(j, 0)], cbs[i].key.invocationID, owner)
  {
    TakesOver(cbs, i, j, span);
    OwnTakeover(cbs, i, j, owner);
    assert span !in RestrictMemory(Takeover(cbs, i, j).mem, cbs[i].key.invocationID).reg.tools;
  }

  // Spans can be told apart by invocation so that every invocation is isolated
  // in every interleaving exactly if no two invocations start tools under one
  // valid span.
  lemma IsolatedIffNoSharedSpan(cbs: seq<Callback>)
    ensures (exists owner: Owner :: AlwaysIsolated(cbs, owner)) <==> NoSharedSpan(cbs)
  {
    if owner: Owner :| AlwaysIsolated(cbs, owner) {
      forall i, j | 0 <= i < |cbs| && 0 <= j < |cbs| && cbs[i].BeforeTool? && cbs[j].BeforeTool?
                    && cbs[i].span.Some? && cbs[i].span == cbs[j].span && cbs[i].span.value.IsValid()
        ensures cbs[i].key.invocationID == cbs[j].key.invocationID
      {
        if cbs[i].key.invocationID != cbs[j].key.invocationID {
          SharedSpanInterferes(cbs, i, j, cbs[i].span.value, owner);
        }
      }
    }
    if NoSharedSpan(cbs) {
      FirstOwnerIsolates(cbs);
    }
  }

  lemma FirstOwnerIsolates(cbs: seq<Callback>)
    requires NoSharedSpan(cbs)
    ensures AlwaysIsolated(cbs, span => FirstOwner(cbs, span))
  {
    var owner := span => FirstOwner(cbs, span);
    forall i, span | 0 <= i < |cbs| && StartsUnder(cbs[i], span) ensures owner(span) == cbs[i].key.invocationID {
      var j := FirstOwnerStarts(cbs, span, i);
    }
    forall schedule, inv ensures Isolated(cbs, schedule, inv, owner) {
      InvocationsAreIsolated(cbs, schedule, inv, owner);
    }
  }
}
