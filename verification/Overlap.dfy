// What model callbacks of one agent key can do to each other when they
// overlap: the locked steps that change or end an operation are by key, so a
// callback can apply them to another operation than the one it was given.
module Overlap {
  import opened Types
  import opened RegistrySpec
  import Runs = RegistryRuns
  import opened Sequences
  import opened Callbacks
  import opened Details

  predicate Opens(cb: Callback, key: AgentKey) {
    cb.BeforeModel? && cb.key == key
  }

  predicate OfKey(cb: Callback, key: AgentKey) {
    (cb.BeforeModel? || cb.AfterModel?) && cb.key == key
  }

  predicate ClosesKey(cb: Callback, key: AgentKey) {
    ModelCallback(cb, key) && Closes(cb)
  }

  // A partial response without usage metadata.
  predicate BarePartial(cb: Callback, key: AgentKey) {
    cb.AfterModel? && cb.key == key && IsPartial(cb.resp) && cb.resp.value.usage.None?
  }

  // The callback goes on to change or end an operation it has been given: a
  // beforeModel that captures the request, and every afterModel.
  predicate Follows(cb: Callback, key: AgentKey) {
    (Opens(cb, key) && Captured(cb.request).0 != "") || (cb.AfterModel? && cb.key == key)
  }

  predicate TwoOpen(cbs: seq<Callback>, key: AgentKey) {
    exists b, b' | 0 <= b < b' < |cbs| :: Opens(cbs[b], key) && Opens(cbs[b'], key)
  }

  predicate AnotherCloses(cbs: seq<Callback>, a: nat, key: AgentKey) {
    exists c | 0 <= c < |cbs| && c != a :: ClosesKey(cbs[c], key)
  }

  // ---- The mix-up ----

  // The next step of the callback changes or ends the operation of its key.
  predicate AboutToAct(t: Thread, key: AgentKey) {
    && t.unsent == [] && OfKey(t.cb, key)
    && (t.pc.ToUpdateRequest? || t.pc.ToUpdateUsage? || t.pc.ToEndModel?)
  }

  // It will do so to an operation that its startModel or getModel did not
  // give it.
  predicate ActsOnOther(sys: System, a: nat, key: AgentKey) {
    && a < |sys.threads| && AboutToAct(sys.threads[a], key)
    && Active(sys.mem.reg, key) && sys.mem.reg.models[key].serial != sys.threads[a].pc.serial
  }

  ghost predicate CanActOnOther(cbs: seq<Callback>, a: nat, key: AgentKey) {
    exists schedule :: ActsOnOther(Execute(Initial(cbs), schedule), a, key)
  }

  // Callback a has read the usage of its operation through the pointer, and
  // later it is about to write that usage into another operation.
  ghost predicate WritesStale(cbs: seq<Callback>, before: seq<Tick>, later: seq<Tick>, a: nat, key: AgentKey) {
    var reading, writing := Execute(Initial(cbs), before), Execute(Initial(cbs), before + later);
    && a < |reading.threads| && reading.threads[a].pc.ToReadUsage?
    && ActsOnOther(writing, a, key)
    && var serial := reading.threads[a].pc.serial;
       writing.threads[a].pc == ToUpdateUsage(serial, ReadUsage(reading.mem, key, serial), true)
  }

  ghost predicate CanWriteStale(cbs: seq<Callback>, key: AgentKey) {
    exists before, later, a: nat :: WritesStale(cbs, before, later, a, key)
  }

  // ---- Only then ----

  // The callback has asked startModel for its operation.
  function Asked(key: AgentKey): Thread -> nat {
    (t: Thread) => Bit(Opens(t.cb, key) && !t.pc.Begin? && !t.pc.ToStartModel?)
  }

  // The operation the callback was given, as long as it goes on with it.
  function Given(pc: Pc): Option<nat> {
    match pc
    case ToUpdateRequest(serial, _) => Some(serial)
    case ToReadUsage(serial) => Some(serial)
    case ToUpdateUsage(serial, _, _) => Some(serial)
    case ToEndModel(serial) => Some(serial)
    case _ => None
  }

  // Where a callback stands tells what kind it is.
  predicate Fits(t: Thread) {
    && WellFormed(t)
    && (t.pc.ToUpdateRequest? ==> Captured(t.cb.request).0 != "")
    && (t.pc.ToReadUsage? ==> IsPartial(t.cb.resp) && t.cb.resp.value.usage.None?)
    && (t.pc.ToEndModel? ==> Closes(t.cb))
  }

  predicate OnlyCloser(threads: seq<Thread>, a: nat, key: AgentKey) {
    forall i | 0 <= i < |threads| && i != a :: !ClosesKey(threads[i].cb, key)
  }

  // Every operation of the key was asked for by a callback of its own.
  ghost predicate CallsAsked(sys: System, key: AgentKey) {
    && AllWellFormed(sys.threads) && Consistent(sys.mem.reg)
    && Count(sys.mem.reg, key) <= Sum(sys.threads, Asked(key))
    && forall i | 0 <= i < |sys.threads| :: Fits(sys.threads[i])
  }

  // The operation a callback of this key was given is one of those counted,
  // and it is still the active one if nobody else can close it.
  ghost predicate Holding(sys: System, a: nat, key: AgentKey) {
    a < |sys.threads| && Given(sys.threads[a].pc).Some? && OfKey(sys.threads[a].cb, key) ==>
      var serial := Given(sys.threads[a].pc).value;
      && 1 <= serial <= Count(sys.mem.reg, key)
      && (OnlyCloser(sys.threads, a, key) ==> Active(sys.mem.reg, key) && sys.mem.reg.models[key].serial == serial)
  }

  lemma AdvanceOpens(m: Memory, t: Thread, now: Time, key: AgentKey)
    requires WellFormed(t)
    ensures var (m', pc, _) := Advance(m, t, now);
            && Count(m.reg, key) <= Count(m'.reg, key)
            && Count(m'.reg, key) + Asked(key)(t) <= Count(m.reg, key) + Asked(key)(t.(pc := pc))
            && (Active(m.reg, key) ==> Count(m'.reg, key) == Count(m.reg, key))
  {
    if NextStep(t, now).Some? {
      Runs.StepOnModels(m.reg, NextStep(t, now).value, key);
    }
  }

  lemma AdvanceFits(m: Memory, t: Thread, now: Time)
    requires Fits(t)
    ensures var (_, pc, events) := Advance(m, t, now); Fits(t.(pc := pc, unsent := events))
  {
    AdvanceKeepsWellFormed(m, t, now);
  }

  predicate EndsKey(s: Step, key: AgentKey) {
    (s.SEndModel? && s.key == key) || (s.SCleanup? && s.invocationID == key.invocationID)
  }

  lemma StepKeepsActive(r: Reg, s: Step, key: AgentKey)
    requires Active(r, key) && !EndsKey(s, key)
    ensures var r' := Apply(r, s).0; Active(r', key) && r'.models[key].serial == r.models[key].serial
  {
  }

  lemma NextStepCloses(t: Thread, now: Time, key: AgentKey)
    requires Fits(t) && NextStep(t, now).Some? && EndsKey(NextStep(t, now).value, key)
    ensures ClosesKey(t.cb, key)
  {
  }

  // Only a closing callback makes an active operation go.
  lemma AdvanceCloses(m: Memory, t: Thread, now: Time, key: AgentKey)
    requires Fits(t) && Active(m.reg, key) && !ClosesKey(t.cb, key)
    ensures var m' := Advance(m, t, now).0;
            Active(m'.reg, key) && m'.reg.models[key].serial == m.reg.models[key].serial
  {
    var s := NextStep(t, now);
    if s.Some? {
      if EndsKey(s.value, key) {
        NextStepCloses(t, now, key);
      }
      StepKeepsActive(m.reg, s.value, key);
    }
  }

  // What a callback is given is active then, and stays so in its own steps
  // until it ends it.
  lemma AdvanceGives(m: Memory, t: Thread, now: Time, key: AgentKey)
    requires WellFormed(t) && Consistent(m.reg) && OfKey(t.cb, key)
    ensures var (m', pc, _) := Advance(m, t, now);
            Given(pc).Some? ==>
              if Given(t.pc).Some? then
                && Given(pc) == Given(t.pc)
                && (Active(m.reg, key) ==> Active(m'.reg, key) && m'.reg.models[key].serial == m.reg.models[key].serial)
              else Active(m'.reg, key) && m'.reg.models[key].serial == Given(pc).value == Count(m'.reg, key) >= 1
  {
  }

  lemma MoveKeepsAsked(m: Memory, t: Thread, now: Time, key: AgentKey)
    requires Fits(t)
    ensures var moved := Move(m, t, now);
            && Fits(moved.thread) && Count(m.reg, key) <= Count(moved.mem.reg, key)
            && Count(moved.mem.reg, key) + Asked(key)(t) <= Count(m.reg, key) + Asked(key)(moved.thread)
  {
    if t.unsent == [] {
      AdvanceOpens(m, t, now, key);
      AdvanceFits(m, t, now);
    }
  }

  lemma TickKeepsAsked(sys: System, tick: Tick, key: AgentKey)
    requires CallsAsked(sys, key)
    ensures CallsAsked(TickSystem(sys, tick), key)
    ensures Count(sys.mem.reg, key) <= Count(TickSystem(sys, tick).mem.reg, key)
  {
    TickKeepsWellFormed(sys, tick);
    TickKeepsConsistent(sys, tick);
    if tick.tid < |sys.threads| {
      var t := sys.threads[tick.tid];
      SumUpdate(sys.threads, tick.tid, Move(sys.mem, t, tick.now).thread, Asked(key));
      MoveKeepsAsked(sys.mem, t, tick.now, key);
    }
  }

  lemma OwnTickKeepsHolding(sys: System, tick: Tick, key: AgentKey)
    requires CallsAsked(sys, key) && Holding(sys, tick.tid, key) && tick.tid < |sys.threads|
    ensures Holding(TickSystem(sys, tick), tick.tid, key)
  {
    var t, sys' := sys.threads[tick.tid], TickSystem(sys, tick);
    SameClosers(sys, tick, tick.tid, key);
    TickKeepsAsked(sys, tick, key);
    if t.unsent == [] && OfKey(t.cb, key) {
      AdvanceGives(sys.mem, t, tick.now, key);
    }
  }

  lemma OtherTickKeepsHolding(sys: System, tick: Tick, a: nat, key: AgentKey)
    requires CallsAsked(sys, key) && Holding(sys, a, key) && tick.tid < |sys.threads| && tick.tid != a
    ensures Holding(TickSystem(sys, tick), a, key)
  {
    var t := sys.threads[tick.tid];
    SameClosers(sys, tick, a, key);
    TickKeepsAsked(sys, tick, key);
    if OnlyCloser(sys.threads, a, key) && t.unsent == [] && Active(sys.mem.reg, key) {
      AdvanceCloses(sys.mem, t, tick.now, key);
    }
  }

  lemma SameClosers(sys: System, tick: Tick, a: nat, key: AgentKey)
    requires AllWellFormed(sys.threads)
    ensures OnlyCloser(TickSystem(sys, tick).threads, a, key) == OnlyCloser(sys.threads, a, key)
  {
    TickKeepsWellFormed(sys, tick);
    var threads, threads' := sys.threads, TickSystem(sys, tick).threads;
    assert forall i | 0 <= i < |threads| :: threads'[i].cb == threads[i].cb;
    if OnlyCloser(threads', a, key) {
      forall i | 0 <= i < |threads| && i != a ensures !ClosesKey(threads[i].cb, key) {
        assert !ClosesKey(threads'[i].cb, key);
      }
    }
  }

  lemma {:induction false} RunKeepsHolding(sys: System, schedule: seq<Tick>, a: nat, key: AgentKey)
    requires CallsAsked(sys, key) && Holding(sys, a, key)
    ensures CallsAsked(Execute(sys, schedule), key) && Holding(Execute(sys, schedule), a, key)
    decreases |schedule|
  {
    if schedule == [] {
    } else {
      var tick := schedule[0];
      TickKeepsAsked(sys, tick, key);
      if tick.tid < |sys.threads| {
        if tick.tid == a {
          OwnTickKeepsHolding(sys, tick, key);
        } else {
          OtherTickKeepsHolding(sys, tick, a, key);
        }
      }
      RunKeepsHolding(TickSystem(sys, tick), schedule[1..], a, key);
    }
  }

  lemma {:induction false} TwoAsked(threads: seq<Thread>, key: AgentKey)
    requires Sum(threads, Asked(key)) >= 2
    ensures exists b, b' | 0 <= b < b' < |threads| :: Opens(threads[b].cb, key) && Opens(threads[b'].cb, key)
  {
    var n := |threads| - 1;
    if Sum(threads[..n], Asked(key)) >= 2 {
      TwoAsked(threads[..n], key);
      var b, b' :| 0 <= b < b' < n && Opens(threads[..n][b].cb, key) && Opens(threads[..n][b'].cb, key);
      assert Opens(threads[b].cb, key) && Opens(threads[b'].cb, key);
    } else {
      var b := OneAsked(threads[..n], key);
      assert Opens(threads[b].cb, key) && Opens(threads[n].cb, key);
    }
  }

  lemma {:induction false} OneAsked(threads: seq<Thread>, key: AgentKey) returns (b: nat)
    requires Sum(threads, Asked(key)) >= 1
    ensures b < |threads| && Opens(threads[b].cb, key)
  {
    var n := |threads| - 1;
    if Asked(key)(threads[n]) == 1 {
      b := n;
    } else {
      b := OneAsked(threads[..n], key);
    }
  }

  // Two operations of the key there must have been, and someone else who
  // closed the first.
  lemma Betrayed(sys: System, a: nat, key: AgentKey)
    requires CallsAsked(sys, key) && Holding(sys, a, key) && ActsOnOther(sys, a, key)
    ensures Follows(sys.threads[a].cb, key)
    ensures exists b, b' | 0 <= b < b' < |sys.threads| :: Opens(sys.threads[b].cb, key) && Opens(sys.threads[b'].cb, key)
    ensures exists c | 0 <= c < |sys.threads| && c != a :: ClosesKey(sys.threads[c].cb, key)
  {
    TwoAsked(sys.threads, key);
    assert !OnlyCloser(sys.threads, a, key);
  }

  lemma OnlyThen(cbs: seq<Callback>, schedule: seq<Tick>, a: nat, key: AgentKey)
    requires ActsOnOther(Execute(Initial(cbs), schedule), a, key)
    ensures a < |cbs| && Follows(cbs[a], key) && TwoOpen(cbs, key) && AnotherCloses(cbs, a, key)
  {
    var sys := Execute(Initial(cbs), schedule);
    SumZero(Initial(cbs).threads, Asked(key));
    RunKeepsHolding(Initial(cbs), schedule, a, key);
    CallbacksStay(Initial(cbs), schedule);
    Betrayed(sys, a, key);
    SameCallbacks(cbs, sys.threads, a, key);
  }

  lemma SameCallbacks(cbs: seq<Callback>, threads: seq<Thread>, a: nat, key: AgentKey)
    requires |threads| == |cbs| && forall i | 0 <= i < |cbs| :: threads[i].cb == Initial(cbs).threads[i].cb
    requires exists b, b' | 0 <= b < b' < |threads| :: Opens(threads[b].cb, key) && Opens(threads[b'].cb, key)
    requires exists c | 0 <= c < |threads| && c != a :: ClosesKey(threads[c].cb, key)
    ensures TwoOpen(cbs, key) && AnotherCloses(cbs, a, key)
  {
    var b, b' :| 0 <= b < b' < |threads| && Opens(threads[b].cb, key) && Opens(threads[b'].cb, key);
    assert Opens(cbs[b], key) && Opens(cbs[b'], key);
    var c :| 0 <= c < |threads| && c != a && ClosesKey(threads[c].cb, key);
    assert ClosesKey(cbs[c], key);
  }

  // ---- And then ----

  // The other callbacks stand where they stood, and no agent has been started.
  ghost predicate OnlyMoved(sys: System, after: System, tid: nat) {
    && AllWellFormed(after.threads) && |after.threads| == |sys.threads|
    && (forall i | 0 <= i < |sys.threads| :: after.threads[i].cb == sys.threads[i].cb)
    && (forall i | 0 <= i < |sys.threads| && i != tid :: after.threads[i] == sys.threads[i])
    && after.mem.reg.agents.Keys <= sys.mem.reg.agents.Keys
  }

  ghost predicate NoAgents(sys: System) {
    sys.mem.reg.agents.Keys == {}
  }

  // beforeModel opens an operation in two steps.
  lemma AskFirst(sys: System, b: nat, key: AgentKey)
    requires AllWellFormed(sys.threads) && b < |sys.threads| && Opens(sys.threads[b].cb, key) && sys.threads[b].pc.Begin?
    requires NoAgents(sys)
    ensures var after := TickSystem(sys, Tick(b, 0));
            && OnlyMoved(sys, after, b) && after.threads[b] == Thread(sys.threads[b].cb, ToStartModel)
            && after.mem.reg.models == sys.mem.reg.models && after.mem.reg.ops == sys.mem.reg.ops && after.mem.retired == sys.mem.retired
  {
    TickKeepsWellFormed(sys, Tick(b, 0));
  }

  lemma AskSecond(sys: System, b: nat, key: AgentKey)
    requires AllWellFormed(sys.threads) && b < |sys.threads| && Opens(sys.threads[b].cb, key)
    requires sys.threads[b] == Thread(sys.threads[b].cb, ToStartModel) && key !in sys.mem.reg.models
    ensures var after := TickSystem(sys, Tick(b, 0));
            && OnlyMoved(sys, after, b) && Active(after.mem.reg, key) && after.mem.retired == sys.mem.retired
            && after.mem.reg.models[key].serial == Count(after.mem.reg, key) == Count(sys.mem.reg, key) + 1
            && after.mem.reg.models[key].model == sys.threads[b].cb.model
            && (Captured(sys.threads[b].cb.request).0 != "" ==>
                  after.threads[b] == Thread(sys.threads[b].cb, ToUpdateRequest(Count(sys.mem.reg, key) + 1, Captured(sys.threads[b].cb.request).0)))
  {
    TickKeepsWellFormed(sys, Tick(b, 0));
  }

  lemma OpensNext(sys: System, b: nat, key: AgentKey) returns (after: System)
    requires AllWellFormed(sys.threads) && b < |sys.threads| && Opens(sys.threads[b].cb, key) && sys.threads[b].pc.Begin?
    requires NoAgents(sys) && key !in sys.mem.reg.models
    ensures after == Execute(sys, [Tick(b, 0), Tick(b, 0)]) && OnlyMoved(sys, after, b) && Active(after.mem.reg, key)
    ensures after.mem.reg.models[key].serial == Count(after.mem.reg, key) == Count(sys.mem.reg, key) + 1
    ensures after.mem.reg.models[key].model == sys.threads[b].cb.model
    ensures Captured(sys.threads[b].cb.request).0 != "" ==>
              after.threads[b] == Thread(sys.threads[b].cb, ToUpdateRequest(Count(sys.mem.reg, key) + 1, Captured(sys.threads[b].cb.request).0))
    ensures forall s | 0 < s <= Count(sys.mem.reg, key) :: ReadUsage(after.mem, key, s) == ReadUsage(sys.mem, key, s)
  {
    var tick := Tick(b, 0);
    var asked := TickSystem(sys, tick);
    AskFirst(sys, b, key);
    AskSecond(asked, b, key);
    after := TickSystem(asked, tick);
    ExecuteOne(sys, tick);
    ExecuteOne(asked, tick);
    ExecuteConcat(sys, [tick], [tick]);
    assert [tick, tick] == [tick] + [tick];
  }

  // afterModel finds the active operation.
  lemma HoldsPointer(sys: System, a: nat, key: AgentKey)
    requires AllWellFormed(sys.threads) && a < |sys.threads| && sys.threads[a].cb.AfterModel? && sys.threads[a].cb.key == key
    requires sys.threads[a].pc.Begin? && Active(sys.mem.reg, key)
    ensures var after := TickSystem(sys, Tick(a, 0));
            && OnlyMoved(sys, after, a) && after.mem == sys.mem
            && after.threads[a] == Thread(sys.threads[a].cb, AfterModelFound(sys.threads[a].cb, sys.mem.reg.models[key].serial))
  {
    TickKeepsWellFormed(sys, Tick(a, 0));
  }

  // How many steps a closing callback still takes to close an operation.
  function Stage(t: Thread): Option<nat> {
    if t.unsent != [] then None
    else
      match t.pc
      case Begin => Some(3)
      case ToReadUsage(_) => Some(2)
      case ToUpdateUsage(_, _, _) => Some(1)
      case ToEndModel(_) => Some(0)
      case _ => None
  }

  // The closing callback brings this usage with it.
  predicate Brings(sys: System, c: nat, key: AgentKey, um: UsageMetadata) {
    && c < |sys.threads| && Active(sys.mem.reg, key)
    && var t := sys.threads[c];
    && t.cb.AfterModel? && t.cb.key == key && t.cb.resp.Some? && t.cb.resp.value.usage == Some(um)
    && !t.pc.ToReadUsage?
    && (t.pc.ToUpdateUsage? ==> t.pc.usage == MapUsageMetadata(um))
    && (t.pc.ToEndModel? ==> sys.mem.reg.models[key].usage == MapUsageMetadata(um))
  }

  // The closing callback has closed the operation or is a stage nearer to it.
  ghost predicate Nearer(sys: System, after: System, c: nat, key: AgentKey)
    requires c < |sys.threads| && c < |after.threads| && Stage(sys.threads[c]).Some? && Active(sys.mem.reg, key)
  {
    && Count(after.mem.reg, key) == Count(sys.mem.reg, key)
    && (key in after.mem.reg.models ==>
          && Active(after.mem.reg, key) && after.mem.reg.models[key].serial == sys.mem.reg.models[key].serial
          && Stage(after.threads[c]).Some? && Stage(after.threads[c]).value < Stage(sys.threads[c]).value)
  }

  lemma AfterRunMoves(sys: System, c: nat, key: AgentKey)
    requires AllWellFormed(sys.threads) && c < |sys.threads| && ClosesKey(sys.threads[c].cb, key) && sys.threads[c].cb.AfterRun?
    requires Stage(sys.threads[c]).Some? && Active(sys.mem.reg, key)
    ensures Nearer(sys, TickSystem(sys, Tick(c, 0)), c, key)
  {
  }

  lemma EndModelMoves(sys: System, c: nat, key: AgentKey)
    requires AllWellFormed(sys.threads) && c < |sys.threads| && ClosesKey(sys.threads[c].cb, key) && sys.threads[c].cb.AfterModel?
    requires Stage(sys.threads[c]) == Some(0) && Active(sys.mem.reg, key)
    ensures Nearer(sys, TickSystem(sys, Tick(c, 0)), c, key)
  {
  }

  lemma UsageMoves(sys: System, c: nat, key: AgentKey)
    requires AllWellFormed(sys.threads) && c < |sys.threads| && ClosesKey(sys.threads[c].cb, key) && sys.threads[c].cb.AfterModel?
    requires Stage(sys.threads[c]) == Some(1) && Active(sys.mem.reg, key)
    ensures Nearer(sys, TickSystem(sys, Tick(c, 0)), c, key)
  {
  }

  lemma AfterModelMoves(sys: System, c: nat, key: AgentKey)
    requires AllWellFormed(sys.threads) && c < |sys.threads| && ClosesKey(sys.threads[c].cb, key) && sys.threads[c].cb.AfterModel?
    requires Stage(sys.threads[c]).Some? && Active(sys.mem.reg, key)
    ensures Nearer(sys, TickSystem(sys, Tick(c, 0)), c, key)
  {
    if sys.threads[c].pc.ToEndModel? {
      EndModelMoves(sys, c, key);
    } else if sys.threads[c].pc.ToUpdateUsage? {
      UsageMoves(sys, c, key);
    }
  }

  lemma NoNewAgents(sys: System, c: nat, key: AgentKey)
    requires AllWellFormed(sys.threads) && c < |sys.threads| && ClosesKey(sys.threads[c].cb, key)
    ensures TickSystem(sys, Tick(c, 0)).mem.reg.agents.Keys <= sys.mem.reg.agents.Keys
  {
  }

  lemma CloserMoves(sys: System, c: nat, key: AgentKey)
    requires AllWellFormed(sys.threads) && c < |sys.threads| && ClosesKey(sys.threads[c].cb, key)
    requires Stage(sys.threads[c]).Some? && Active(sys.mem.reg, key)
    ensures OnlyMoved(sys, TickSystem(sys, Tick(c, 0)), c) && Nearer(sys, TickSystem(sys, Tick(c, 0)), c, key)
  {
    TickKeepsWellFormed(sys, Tick(c, 0));
    NoNewAgents(sys, c, key);
    if sys.threads[c].cb.AfterRun? {
      AfterRunMoves(sys, c, key);
    } else {
      AfterModelMoves(sys, c, key);
    }
  }

  lemma ClosesWithUsage(sys: System, c: nat, key: AgentKey, um: UsageMetadata)
    requires AllWellFormed(sys.threads) && Brings(sys, c, key, um) && Stage(sys.threads[c]) == Some(0)
    ensures var after := TickSystem(sys, Tick(c, 0));
            key !in after.mem.reg.models && ReadUsage(after.mem, key, sys.mem.reg.models[key].serial) == MapUsageMetadata(um)
  {
  }

  lemma CloserBrings(sys: System, c: nat, key: AgentKey, um: UsageMetadata)
    requires AllWellFormed(sys.threads) && Brings(sys, c, key, um) && Stage(sys.threads[c]).Some? && Closes(sys.threads[c].cb)
    ensures var after := TickSystem(sys, Tick(c, 0));
            if key in after.mem.reg.models then Brings(after, c, key, um)
            else ReadUsage(after.mem, key, sys.mem.reg.models[key].serial) == MapUsageMetadata(um)
  {
    if sys.threads[c].pc.ToEndModel? {
      ClosesWithUsage(sys, c, key, um);
    }
  }

  lemma {:induction false} Closing(sys: System, c: nat, key: AgentKey, um: UsageMetadata) returns (ticks: seq<Tick>, after: System)
    requires AllWellFormed(sys.threads) && c < |sys.threads| && ClosesKey(sys.threads[c].cb, key)
    requires Stage(sys.threads[c]).Some? && Active(sys.mem.reg, key)
    ensures after == Execute(sys, ticks) && OnlyMoved(sys, after, c)
    ensures key !in after.mem.reg.models && Count(after.mem.reg, key) == Count(sys.mem.reg, key)
    ensures Brings(sys, c, key, um) ==> ReadUsage(after.mem, key, sys.mem.reg.models[key].serial) == MapUsageMetadata(um)
    decreases Stage(sys.threads[c]).value
  {
    var tick := Tick(c, 0);
    CloserMoves(sys, c, key);
    if Brings(sys, c, key, um) {
      CloserBrings(sys, c, key, um);
    }
    after := TickSystem(sys, tick);
    ExecuteOne(sys, tick);
    ticks := [tick];
    if key in after.mem.reg.models {
      var rest, last := Closing(after, c, key, um);
      ExecuteConcat(sys, [tick], rest);
      ticks, after := [tick] + rest, last;
    }
  }

  // Callback a holds the first operation of the key, which is active, and
  // nobody else but the callback that opened it has moved.
  ghost predicate FirstHeld(cbs: seq<Callback>, sys: System, a: nat, b: nat, key: AgentKey) {
    && AllWellFormed(sys.threads) && |sys.threads| == |cbs| && a < |cbs| && NoAgents(sys)
    && sys.threads[a].cb == cbs[a] && Given(sys.threads[a].pc) == Some(1) && sys.threads[a].unsent == []
    && (forall i | 0 <= i < |cbs| && i != a && i != b :: sys.threads[i] == Start(cbs[i]))
    && Active(sys.mem.reg, key) && sys.mem.reg.models[key].serial == Count(sys.mem.reg, key) == 1
  }

  // A beforeModel that captures the request holds what it opened itself.
  lemma UntilOpened(cbs: seq<Callback>, key: AgentKey, a: nat) returns (prefix: seq<Tick>, sys: System)
    requires a < |cbs| && Opens(cbs[a], key) && Captured(cbs[a].request).0 != ""
    ensures sys == Execute(Initial(cbs), prefix) && FirstHeld(cbs, sys, a, a, key)
    ensures sys.threads[a].pc == ToUpdateRequest(1, Captured(cbs[a].request).0)
  {
    prefix := [Tick(a, 0), Tick(a, 0)];
    sys := OpensNext(Initial(cbs), a, key);
  }

  // An afterModel holds what b opened.
  lemma UntilFound(cbs: seq<Callback>, key: AgentKey, b: nat, a: nat) returns (prefix: seq<Tick>, sys: System)
    requires b < |cbs| && Opens(cbs[b], key) && a < |cbs| && cbs[a].AfterModel? && cbs[a].key == key
    ensures sys == Execute(Initial(cbs), prefix) && FirstHeld(cbs, sys, a, b, key)
    ensures sys.threads[a].pc == AfterModelFound(cbs[a], 1)
  {
    var open, hold := [Tick(b, 0), Tick(b, 0)], Tick(a, 0);
    var first := OpensNext(Initial(cbs), b, key);
    assert first.threads[a] == Start(cbs[a]);
    HoldsPointer(first, a, key);
    ExecuteOne(first, hold);
    ExecuteConcat(Initial(cbs), open, [hold]);
    prefix, sys := open + [hold], TickSystem(first, hold);
  }

  // The second operation of the key is active and a still holds the first.
  ghost predicate NextOpened(cbs: seq<Callback>, sys: System, a: nat, b': nat, held: Thread, key: AgentKey)
    requires b' < |cbs| && Opens(cbs[b'], key)
  {
    && AllWellFormed(sys.threads) && |sys.threads| == |cbs| && a < |cbs| && sys.threads[a] == held
    && Active(sys.mem.reg, key) && sys.mem.reg.models[key].serial == 2 && sys.mem.reg.models[key].model == cbs[b'].model
  }

  predicate Reports(cb: Callback, um: UsageMetadata) {
    cb.AfterModel? && cb.resp.Some? && cb.resp.value.usage == Some(um)
  }

  // c closes the first operation and b' opens the next.
  lemma UntilNext(cbs: seq<Callback>, held: System, until: seq<Tick>, key: AgentKey, a: nat, b: nat, b': nat, c: nat, um: UsageMetadata)
    returns (prefix: seq<Tick>, sys: System)
    requires held == Execute(Initial(cbs), until) && FirstHeld(cbs, held, a, b, key)
    requires b' < |cbs| && Opens(cbs[b'], key) && b' != a && b' != b
    requires c < |cbs| && ClosesKey(cbs[c], key) && c != a && c != b
    ensures sys == Execute(Initial(cbs), prefix) && NextOpened(cbs, sys, a, b', held.threads[a], key)
    ensures Reports(cbs[c], um) ==> ReadUsage(sys.mem, key, 1) == MapUsageMetadata(um)
  {
    assert held.threads[c] == Start(cbs[c]) && held.threads[b'] == Start(cbs[b']);
    var ticks, closed := Closing(held, c, key, um);
    ExecuteConcat(Initial(cbs), until, ticks);
    var again := [Tick(b', 0), Tick(b', 0)];
    sys := OpensNext(closed, b', key);
    ExecuteConcat(Initial(cbs), until + ticks, again);
    prefix := until + ticks + again;
  }

  // The one step that a callback may take before it acts: it reads the usage
  // of the operation it holds.
  lemma Reads(sys: System, a: nat, key: AgentKey)
    requires AllWellFormed(sys.threads) && a < |sys.threads| && sys.threads[a].cb.AfterModel? && sys.threads[a].cb.key == key
    requires sys.threads[a].pc.ToReadUsage? && sys.threads[a].unsent == []
    ensures var t, after := sys.threads[a], TickSystem(sys, Tick(a, 0));
            && after.mem == sys.mem
            && after.threads == sys.threads[a := t.(pc := ToUpdateUsage(t.pc.serial, ReadUsage(sys.mem, key, t.pc.serial), true))]
  {
  }

  lemma ThenActs(cbs: seq<Callback>, sys: System, prefix: seq<Tick>, a: nat, b': nat, held: Thread, key: AgentKey)
    returns (schedule: seq<Tick>)
    requires b' < |cbs| && Opens(cbs[b'], key) && sys == Execute(Initial(cbs), prefix) && NextOpened(cbs, sys, a, b', held, key)
    requires Follows(held.cb, key) && Given(held.pc) == Some(1) && held.unsent == []
    ensures ActsOnOther(Execute(Initial(cbs), schedule), a, key)
    ensures held.pc.ToReadUsage? ==> WritesStale(cbs, prefix, [Tick(a, 0)], a, key)
  {
    schedule := prefix;
    if held.pc.ToReadUsage? {
      Reads(sys, a, key);
      ExecuteOne(sys, Tick(a, 0));
      ExecuteConcat(Initial(cbs), prefix, [Tick(a, 0)]);
      schedule := prefix + [Tick(a, 0)];
    }
  }

  // Two beforeModels of the key, one of them not a.
  lemma OtherOpener(cbs: seq<Callback>, a: nat, key: AgentKey) returns (b: nat, b': nat)
    requires TwoOpen(cbs, key)
    ensures b < |cbs| && b' < |cbs| && b != b' && Opens(cbs[b], key) && Opens(cbs[b'], key) && b' != a
    ensures a < |cbs| && Opens(cbs[a], key) ==> b == a
  {
    var i, j :| 0 <= i < j < |cbs| && Opens(cbs[i], key) && Opens(cbs[j], key);
    b, b' := if j == a then j else i, if j == a then i else j;
    if a < |cbs| && Opens(cbs[a], key) {
      b := a;
    }
  }

  lemma ThenAlso(cbs: seq<Callback>, a: nat, key: AgentKey) returns (prefix: seq<Tick>, schedule: seq<Tick>)
    requires a < |cbs| && Follows(cbs[a], key) && TwoOpen(cbs, key) && AnotherCloses(cbs, a, key)
    ensures ActsOnOther(Execute(Initial(cbs), schedule), a, key)
    ensures BarePartial(cbs[a], key) ==> WritesStale(cbs, prefix, [Tick(a, 0)], a, key)
  {
    var b, b' := OtherOpener(cbs, a, key);
    var c :| 0 <= c < |cbs| && c != a && ClosesKey(cbs[c], key);
    var until, held;
    if Opens(cbs[a], key) {
      until, held := UntilOpened(cbs, key, a);
    } else {
      until, held := UntilFound(cbs, key, b, a);
    }
    var sys;
    prefix, sys := UntilNext(cbs, held, until, key, a, b, b', c, UsageMetadata(0, 0, 0, 0));
    schedule := ThenActs(cbs, sys, prefix, a, b', held.threads[a], key);
  }

  // A callback can come to change or end an operation that is not the one it
  // was given exactly if it goes on with its operation at all, the key has two
  // beforeModels, and another callback closes an operation.
  lemma CanActOnOtherIff(cbs: seq<Callback>, a: nat, key: AgentKey)
    ensures CanActOnOther(cbs, a, key) <==>
            a < |cbs| && Follows(cbs[a], key) && TwoOpen(cbs, key) && AnotherCloses(cbs, a, key)
  {
    if CanActOnOther(cbs, a, key) {
      var schedule :| ActsOnOther(Execute(Initial(cbs), schedule), a, key);
      OnlyThen(cbs, schedule, a, key);
    }
    if a < |cbs| && Follows(cbs[a], key) && TwoOpen(cbs, key) && AnotherCloses(cbs, a, key) {
      var prefix, schedule := ThenAlso(cbs, a, key);
    }
  }

  // In particular, it can write back a usage read from the operation it was
  // given exactly if it is a partial response without usage metadata.
  lemma CanWriteStaleIff(cbs: seq<Callback>, key: AgentKey)
    ensures CanWriteStale(cbs, key) <==>
            TwoOpen(cbs, key) && exists a | 0 <= a < |cbs| :: BarePartial(cbs[a], key) && AnotherCloses(cbs, a, key)
  {
    if CanWriteStale(cbs, key) {
      var before, later, a: nat :| WritesStale(cbs, before, later, a, key);
      OnlyThen(cbs, before + later, a, key);
      ReaderIsBare(cbs, before, a, key);
      CallbacksStay(Initial(cbs), before + later);
    }
    if a: nat :| TwoOpen(cbs, key) && a < |cbs| && BarePartial(cbs[a], key) && AnotherCloses(cbs, a, key) {
      var prefix, schedule := ThenAlso(cbs, a, key);
    }
  }

  lemma ReaderIsBare(cbs: seq<Callback>, schedule: seq<Tick>, a: nat, key: AgentKey)
    requires a < |cbs| && a < |Execute(Initial(cbs), schedule).threads| && Execute(Initial(cbs), schedule).threads[a].pc.ToReadUsage?
    ensures cbs[a].AfterModel? && IsPartial(cbs[a].resp) && cbs[a].resp.value.usage.None?
  {
    SumZero(Initial(cbs).threads, Asked(key));
    RunKeepsHolding(Initial(cbs), schedule, |cbs|, key);
    CallbacksStay(Initial(cbs), schedule);
    assert Fits(Execute(Initial(cbs), schedule).threads[a]);
  }

  // ---- Concrete cases ----

  // What each kind of step does to the next operation.
  lemma WritesUsage(sys: System, a: nat, key: AgentKey)
    requires AllWellFormed(sys.threads) && ActsOnOther(sys, a, key) && sys.threads[a].pc.ToUpdateUsage?
    ensures var st, pc := sys.mem.reg.models[key], sys.threads[a].pc;
            TickSystem(sys, Tick(a, 0)).mem.reg.models
            == sys.mem.reg.models[key := st.(usage := pc.usage, streaming := st.streaming || pc.streaming)]
  {
  }

  lemma WritesRequest(sys: System, a: nat, key: AgentKey)
    requires AllWellFormed(sys.threads) && ActsOnOther(sys, a, key) && sys.threads[a].pc.ToUpdateRequest?
    ensures var st, cb := sys.mem.reg.models[key], sys.threads[a].cb;
            TickSystem(sys, Tick(a, 0)).mem.reg.models
            == sys.mem.reg.models[key := st.(provider := sys.threads[a].pc.provider,
                                             systemInstructions := cb.request.sys, inputMessages := cb.request.input)]
  {
  }

  lemma EndsIt(sys: System, a: nat, key: AgentKey)
    requires AllWellFormed(sys.threads) && ActsOnOther(sys, a, key) && sys.threads[a].pc.ToEndModel?
    ensures var after := TickSystem(sys, Tick(a, 0));
            && |after.threads| == |sys.threads| && key !in after.mem.reg.models
            && after.threads[a].pc == ToCountInference(sys.mem.reg.models[key].(terminalized := true))
  {
  }

  lemma OneMore(cbs: seq<Callback>, prefix: seq<Tick>, sys: System, a: nat)
    requires sys == Execute(Initial(cbs), prefix) && AllWellFormed(sys.threads)
    ensures Execute(Initial(cbs), prefix + [Tick(a, 0)]) == TickSystem(sys, Tick(a, 0))
  {
    ExecuteOne(sys, Tick(a, 0));
    ExecuteConcat(Initial(cbs), prefix, [Tick(a, 0)]);
  }

  // The second call ends up streaming, with the usage that only the first
  // call reported.
  lemma StaleUsageReachesNextOperation(key: AgentKey, first: string, second: string, req: RequestInput, partial: Response, final: Response)
    returns (cbs: seq<Callback>, schedule: seq<Tick>)
    requires partial.partial && partial.usage.None? && !final.partial && final.usage.Some?
    ensures cbs == [BeforeModel(key, first, req), AfterModel(key, Some(partial), None),
                    AfterModel(key, Some(final), None), BeforeModel(key, second, req)]
    ensures var last := Execute(Initial(cbs), schedule).mem;
            && Active(last.reg, key) && last.reg.models[key].serial == 2 && last.reg.models[key].model == second
            && last.reg.models[key].usage == MapUsageMetadata(final.usage.value) && last.reg.models[key].streaming
  {
    cbs := [BeforeModel(key, first, req), AfterModel(key, Some(partial), None),
            AfterModel(key, Some(final), None), BeforeModel(key, second, req)];
    var until, held := UntilFound(cbs, key, 0, 1);
    var prefix, sys := UntilNext(cbs, held, until, key, 1, 0, 3, 2, final.usage.value);
    schedule := StaleUsage(cbs, prefix, sys, key, 1, 3, held.threads[1]);
  }

  lemma StaleUsage(cbs: seq<Callback>, prefix: seq<Tick>, sys: System, key: AgentKey, a: nat, b': nat, held: Thread)
    returns (schedule: seq<Tick>)
    requires b' < |cbs| && Opens(cbs[b'], key) && sys == Execute(Initial(cbs), prefix) && NextOpened(cbs, sys, a, b', held, key)
    requires held.cb.AfterModel? && held.cb.key == key && held.pc == ToReadUsage(1) && held.unsent == []
    ensures var last := Execute(Initial(cbs), schedule).mem;
            && Active(last.reg, key) && last.reg.models[key].serial == 2 && last.reg.models[key].model == cbs[b'].model
            && last.reg.models[key].usage == ReadUsage(sys.mem, key, 1) && last.reg.models[key].streaming
  {
    var read := TickSystem(sys, Tick(a, 0));
    Reads(sys, a, key);
    TickKeepsWellFormed(sys, Tick(a, 0));
    WritesUsage(read, a, key);
    OneMore(cbs, prefix, sys, a);
    OneMore(cbs, prefix + [Tick(a, 0)], read, a);
    schedule := prefix + [Tick(a, 0)] + [Tick(a, 0)];
  }

  // The second call ends up with the provider and the content of the first
  // call's request.
  lemma RequestReachesNextOperation(key: AgentKey, first: string, second: string, req: RequestInput, other: RequestInput, final: Response)
    returns (cbs: seq<Callback>, schedule: seq<Tick>)
    requires Captured(req).0 != "" && !final.partial
    ensures cbs == [BeforeModel(key, first, req), AfterModel(key, Some(final), None), BeforeModel(key, second, other)]
    ensures var last := Execute(Initial(cbs), schedule).mem;
            && Active(last.reg, key) && last.reg.models[key].serial == 2 && last.reg.models[key].model == second
            && (last.reg.models[key].provider, last.reg.models[key].systemInstructions, last.reg.models[key].inputMessages) == Captured(req)
  {
    cbs := [BeforeModel(key, first, req), AfterModel(key, Some(final), None), BeforeModel(key, second, other)];
    var until, held := UntilOpened(cbs, key, 0);
    var prefix, sys := UntilNext(cbs, held, until, key, 0, 0, 2, 1, UsageMetadata(0, 0, 0, 0));
    WritesRequest(sys, 0, key);
    OneMore(cbs, prefix, sys, 0);
    schedule := prefix + [Tick(0, 0)];
  }

  // The second response to the first call ends the second call, and its
  // callback goes on to report that one.
  lemma ResponseEndsNextOperation(key: AgentKey, first: string, second: string, req: RequestInput, final: Response, repeated: Response)
    returns (cbs: seq<Callback>, schedule: seq<Tick>)
    requires !final.partial && !repeated.partial && repeated.usage.None?
    ensures cbs == [BeforeModel(key, first, req), AfterModel(key, Some(final), None),
                    AfterModel(key, Some(repeated), None), BeforeModel(key, second, req)]
    ensures var sys := Execute(Initial(cbs), schedule);
            && |sys.threads| == 4 && sys.threads[2].pc.ToCountInference? && key !in sys.mem.reg.models
            && sys.threads[2].pc.model.serial == 2 && sys.threads[2].pc.model.model == second
  {
    cbs := [BeforeModel(key, first, req), AfterModel(key, Some(final), None),
            AfterModel(key, Some(repeated), None), BeforeModel(key, second, req)];
    var until, held := UntilFound(cbs, key, 0, 2);
    var prefix, sys := UntilNext(cbs, held, until, key, 2, 0, 3, 1, UsageMetadata(0, 0, 0, 0));
    EndsIt(sys, 2, key);
    OneMore(cbs, prefix, sys, 2);
    schedule := prefix + [Tick(2, 0)];
  }
}
