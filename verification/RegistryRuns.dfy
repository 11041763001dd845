// What holds of the registry over whole runs: any sequence of locked steps,
// taken by any number of concurrent callbacks.
module RegistryRuns {
  import opened Types
  import opened RegistrySpec

  // ---- Operation IDs ----

  predicate StartedModel(r: Reg, steps: seq<Step>, key: AgentKey, i: nat)
    requires i < |steps|
  {
    steps[i].SStartModel? && steps[i].key == key && Returned(r, steps, i).model.Some?
  }

  predicate EndedModel(r: Reg, steps: seq<Step>, key: AgentKey, i: nat)
    requires i < |steps|
  {
    steps[i].SEndModel? && steps[i].key == key && Returned(r, steps, i).model.Some?
  }

  // One step, as far as the models of one key go.
  lemma StepOnModels(r: Reg, s: Step, key: AgentKey)
    ensures var (r', ret) := Apply(r, s);
            if s.SStartModel? && s.key == key && ret.model.Some?
            then Count(r', key) == Count(r, key) + 1 == ret.model.value.serial
            else Count(r', key) == Count(r, key)
    ensures key !in r.models && key in Apply(r, s).0.models ==> Count(r, key) < Count(Apply(r, s).0, key)
  {
  }

  lemma {:induction false} CountersGrow(r: Reg, steps: seq<Step>, key: AgentKey, i: nat, j: nat)
    requires i <= j <= |steps|
    ensures Count(At(r, steps, i), key) <= Count(At(r, steps, j), key)
  {
    if i == j {
    } else {
      CountersGrow(r, steps, key, i, j - 1);
      StepOnModels(At(r, steps, j - 1), steps[j - 1], key);
    }
  }

  // While a key has no model, only a new start can give it one.
  lemma {:induction false} NewModelNewCount(r: Reg, steps: seq<Step>, key: AgentKey, i: nat, j: nat)
    requires i <= j <= |steps|
    requires key !in At(r, steps, i).models && key in At(r, steps, j).models
    ensures Count(At(r, steps, i), key) < Count(At(r, steps, j), key)
  {
    StepOnModels(At(r, steps, j - 1), steps[j - 1], key);
    if key in At(r, steps, j - 1).models {
      NewModelNewCount(r, steps, key, i, j - 1);
    } else {
      CountersGrow(r, steps, key, i, j - 1);
    }
  }

  // Successive starts of one key get larger and larger serial numbers, across
  // any cleanup.
  lemma StartsIncrease(r: Reg, steps: seq<Step>, key: AgentKey, i: nat, j: nat)
    requires i < j < |steps|
    requires StartedModel(r, steps, key, i) && StartedModel(r, steps, key, j)
    ensures Returned(r, steps, i).model.value.serial < Returned(r, steps, j).model.value.serial
  {
    StepOnModels(At(r, steps, i), steps[i], key);
    CountersGrow(r, steps, key, i + 1, j);
    StepOnModels(At(r, steps, j), steps[j], key);
  }

  // No operation is terminalized twice: two terminations of one key are of
  // different operations, the later one started later.
  lemma TerminalizedOnce(r: Reg, steps: seq<Step>, key: AgentKey, i: nat, j: nat)
    requires Consistent(r) && i < j < |steps|
    requires EndedModel(r, steps, key, i) && EndedModel(r, steps, key, j)
    ensures Returned(r, steps, i).model.value.serial < Returned(r, steps, j).model.value.serial
  {
    RunKeepsConsistent(r, steps, i);
    RunKeepsConsistent(r, steps, j);
    StepOnModels(At(r, steps, i), steps[i], key);
    NewModelNewCount(r, steps, key, i + 1, j);
  }

  // The 64-bit operation IDs one key is given in the first n steps, in order.
  function IssuedIDs(steps: seq<Step>, key: AgentKey, n: nat): seq<nat>
    requires n <= |steps|
  {
    if n == 0 then []
    else
      IssuedIDs(steps, key, n - 1)
      + if StartedModel(EMPTY, steps, key, n - 1) then [Returned(EMPTY, steps, n - 1).model.value.OperationID()] else []
  }

  lemma {:induction false} IssuedIDsCount(steps: seq<Step>, key: AgentKey, n: nat)
    requires n <= |steps|
    ensures |IssuedIDs(steps, key, n)| == Count(At(EMPTY, steps, n), key)
    ensures forall i | 0 <= i < |IssuedIDs(steps, key, n)| :: IssuedIDs(steps, key, n)[i] == (i + 1) % OP_ID_SPACE
  {
    if n == 0 {
    } else {
      IssuedIDsCount(steps, key, n - 1);
      StepOnModels(At(EMPTY, steps, n - 1), steps[n - 1], key);
    }
  }

  predicate Increasing(s: seq<nat>) {
    forall i, j | 0 <= i < j < |s| :: s[i] < s[j]
  }

  // The IDs of one key strictly increase over the run exactly as long as the
  // key's counter has not wrapped.
  lemma OperationIDsIncreaseUntilWrap(steps: seq<Step>, key: AgentKey)
    ensures Increasing(IssuedIDs(steps, key, |steps|)) <==> Count(Run(EMPTY, steps), key) < OP_ID_SPACE
  {
    IssuedIDsCount(steps, key, |steps|);
    var ids := IssuedIDs(steps, key, |steps|);
    if |ids| >= OP_ID_SPACE {
      assert ids[OP_ID_SPACE - 1] == 0;
      assert ids[0] == 1;
    } else {
      forall i | 0 <= i < |ids| ensures ids[i] == i + 1 {
      }
    }
  }

  // ---- Pending errors ----

  predicate Marks(s: Step, key: AgentKey) {
    s.SMarkPending? && s.key == key && s.et != ERROR_NONE
  }

  // The agent is (re)started or its pending error is asked for.
  predicate Resets(s: Step, key: AgentKey) {
    (s.SStartAgent? || s.STakePending?) && s.key == key
  }

  // No step from lo to hi resets the key, and et is the first error type
  // marked there; none if empty.
  predicate IsFirstMark(steps: seq<Step>, key: AgentKey, lo: nat, hi: nat, et: ErrorType)
    requires lo <= hi <= |steps|
  {
    if et == ERROR_NONE then forall i | lo <= i < hi :: !Marks(steps[i], key)
    else exists i | lo <= i < hi ::
        Marks(steps[i], key) && steps[i].et == et && forall m | lo <= m < i :: !Marks(steps[m], key)
  }

  predicate LastResetBefore(steps: seq<Step>, key: AgentKey, lo: nat, hi: nat)
    requires hi <= |steps|
  {
    0 < lo <= hi && Resets(steps[lo - 1], key) && forall i | lo <= i < hi :: !Resets(steps[i], key)
  }

  // One step, as far as the agent of one key goes.
  lemma StepOnAgent(r: Reg, s: Step, key: AgentKey)
    requires key in Apply(r, s).0.agents && !(s.SStartAgent? && s.key == key)
    ensures key in r.agents
    ensures var before, after := r.agents[key], Apply(r, s).0.agents[key];
            && after.inferenceCalls == before.inferenceCalls + (if Increments(Inference, s, key) then 1 else 0)
            && after.toolCalls == before.toolCalls + (if Increments(Tool, s, key) then 1 else 0)
            && (!Resets(s, key) ==>
                  after.pendingError == if before.pendingError == ERROR_NONE && Marks(s, key) then s.et else before.pendingError)
  {
  }

  // A live agent's pending error is the first one marked since the later of
  // its start and the last take.
  lemma {:induction false} PendingIsFirstMark(r: Reg, steps: seq<Step>, key: AgentKey, lo: nat, hi: nat)
    requires hi <= |steps| && LastResetBefore(steps, key, lo, hi)
    requires key in At(r, steps, hi).agents
    ensures IsFirstMark(steps, key, lo, hi, At(r, steps, hi).agents[key].pendingError)
  {
    if hi <= lo {
    } else {
      StepOnAgent(At(r, steps, hi - 1), steps[hi - 1], key);
      PendingIsFirstMark(r, steps, key, lo, hi - 1);
    }
  }

  predicate Continued(r: Reg, steps: seq<Step>, key: AgentKey, i: nat)
    requires i < |steps|
  {
    steps[i].STakePending? && steps[i].key == key && Returned(r, steps, i).pending.Some?
  }

  // Every observed continuation after an error has its own error: an earlier
  // mark of that very type, the first one since the preceding reset.
  lemma ContinuationHasItsError(steps: seq<Step>, key: AgentKey, i: nat) returns (lo: nat)
    requires i < |steps| && Continued(EMPTY, steps, key, i)
    ensures LastResetBefore(steps, key, lo, i)
    ensures Returned(EMPTY, steps, i).pending.value != ERROR_NONE
    ensures IsFirstMark(steps, key, lo, i, Returned(EMPTY, steps, i).pending.value)
  {
    lo := LastReset(steps, key, i);
    PendingIsFirstMark(EMPTY, steps, key, lo, i);
  }

  lemma {:induction false} LastReset(steps: seq<Step>, key: AgentKey, hi: nat) returns (lo: nat)
    requires hi <= |steps| && key in At(EMPTY, steps, hi).agents
    ensures LastResetBefore(steps, key, lo, hi)
  {
    if Resets(steps[hi - 1], key) {
      lo := hi;
    } else {
      StepOnAgent(At(EMPTY, steps, hi - 1), steps[hi - 1], key);
      lo := LastReset(steps, key, hi - 1);
    }
  }

  // Between two continuations of one agent key there is a new error.
  lemma ErrorBetweenContinuations(steps: seq<Step>, key: AgentKey, i: nat, j: nat)
    requires i < j < |steps| && Continued(EMPTY, steps, key, i) && Continued(EMPTY, steps, key, j)
    ensures exists m | i < m < j :: Marks(steps[m], key) && Returned(EMPTY, steps, j).pending == Some(steps[m].et)
  {
    var lo := ContinuationHasItsError(steps, key, j);
    assert Resets(steps[i], key);
  }

  // ---- Conservation of call counts ----

  // The two counters of an agent are treated alike.
  datatype Counter = Inference | Tool

  function Calls(c: Counter, st: AgentRecord): nat {
    if c == Inference then st.inferenceCalls else st.toolCalls
  }

  predicate Increments(c: Counter, s: Step, key: AgentKey) {
    (if c == Inference then s.SIncrementInference? else s.SIncrementTool?) && s.key == key
  }

  function Held(c: Counter, r: Reg, key: AgentKey): nat {
    if key in r.agents then Calls(c, r.agents[key]) else 0
  }

  // The increments among the steps from lo to hi.
  function IncrementsIn(c: Counter, steps: seq<Step>, key: AgentKey, lo: nat, hi: nat): nat
    requires hi <= |steps|
  {
    if hi <= lo then 0
    else IncrementsIn(c, steps, key, lo, hi - 1) + if Increments(c, steps[hi - 1], key) then 1 else 0
  }

  // A live agent has counted exactly the increments since it was started.
  lemma {:induction false} CountsSinceStart(c: Counter, r: Reg, steps: seq<Step>, key: AgentKey, lo: nat, hi: nat)
    requires 0 < lo <= hi <= |steps| && steps[lo - 1].SStartAgent? && steps[lo - 1].key == key
    requires forall i | lo <= i < hi :: !(steps[i].SStartAgent? && steps[i].key == key)
    requires key in At(r, steps, hi).agents
    ensures Held(c, At(r, steps, hi), key) == IncrementsIn(c, steps, key, lo, hi)
  {
    if lo == hi {
    } else {
      StepOnAgent(At(r, steps, hi - 1), steps[hi - 1], key);
      CountsSinceStart(c, r, steps, key, lo, hi - 1);
    }
  }

  // What can become of a count other than staying with a live agent.
  datatype Fate = Emitted | Overwritten | CleanedUp | Absent

  // How much one step settles that way: afterAgent emits the counts of the
  // state endAgent returns, a restart or a cleanup drops what the agent held,
  // and an increment finds no agent.
  function Settled(f: Fate, c: Counter, r: Reg, s: Step, key: AgentKey): nat {
    match f
    case Emitted =>
      if s.SEndAgent? && s.key == key && EndAgent(r, key).1.Some? then Calls(c, EndAgent(r, key).1.value) else 0
    case Overwritten => if s.SStartAgent? && s.key == key then Held(c, r, key) else 0
    case CleanedUp => if s.SCleanup? && s.invocationID == key.invocationID then Held(c, r, key) else 0
    case Absent => if Increments(c, s, key) && key !in r.agents then 1 else 0
  }

  function Total(f: Fate, c: Counter, r: Reg, steps: seq<Step>, key: AgentKey, n: nat): nat
    requires n <= |steps|
  {
    if n == 0 then 0
    else Total(f, c, r, steps, key, n - 1) + Settled(f, c, At(r, steps, n - 1), steps[n - 1], key)
  }

  lemma StepBalances(c: Counter, r: Reg, s: Step, key: AgentKey)
    requires AgentsConsistent(r.agents)
    ensures Held(c, r, key) + (if Increments(c, s, key) then 1 else 0) ==
            Settled(Emitted, c, r, s, key) + Settled(Overwritten, c, r, s, key) + Settled(CleanedUp, c, r, s, key)
            + Settled(Absent, c, r, s, key) + Held(c, Apply(r, s).0, key)
  {
  }

  // Every count was emitted, is still held by a live agent, or was dropped in
  // one of three ways; none is counted twice.
  lemma {:induction false} CountsAreConserved(c: Counter, r: Reg, steps: seq<Step>, key: AgentKey, n: nat)
    requires Consistent(r) && n <= |steps|
    ensures Held(c, r, key) + IncrementsIn(c, steps, key, 0, n) ==
            Total(Emitted, c, r, steps, key, n) + Total(Overwritten, c, r, steps, key, n)
            + Total(CleanedUp, c, r, steps, key, n) + Total(Absent, c, r, steps, key, n) + Held(c, At(r, steps, n), key)
  {
    if n == 0 {
    } else {
      CountsAreConserved(c, r, steps, key, n - 1);
      RunKeepsConsistent(r, steps, n - 1);
      StepBalances(c, At(r, steps, n - 1), steps[n - 1], key);
    }
  }
}
