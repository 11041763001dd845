// The ADK lifecycle registry on values: what every locked operation does to
// the maps, and what it returns. The class in Registry.dfy is proved against
// these functions; the theorems about runs are about them.
module RegistrySpec {
  import opened Types

  // modelOps holds uint64 counters.
  const OP_ID_SPACE: nat := 0x1_0000_0000_0000_0000

  datatype AgentKey = AgentKey(invocationID: string, branch: string, agentName: string)

  // Identity of an execute_tool span. Zero components are invalid.
  datatype ToolKey = ToolKey(traceID: nat, spanID: nat) {
    predicate IsValid() {
      traceID != 0 && spanID != 0
    }
  }

  datatype AgentRecord = AgentRecord(
    key: AgentKey, name: string, start: Time,
    inferenceCalls: nat, toolCalls: nat, terminalized: bool, pendingError: ErrorType)

  // The serial number counts the operations of one key without bound and so
  // identifies the object; the operation ID is what fits in 64 bits.
  datatype ModelRecord = ModelRecord(
    serial: nat, agentKey: AgentKey, start: Time, model: string, usage: Usage,
    terminalized: bool, streaming: bool, provider: string,
    systemInstructions: ProjectedContent, inputMessages: ProjectedContent)
  {
    function OperationID(): nat {
      serial % OP_ID_SPACE
    }
  }

  datatype ToolRecord = ToolRecord(
    key: ToolKey, agentKey: AgentKey, invocationID: string, start: Time, name: string,
    terminalized: bool, arguments: ProjectedContent)

  datatype Reg = Reg(
    agents: map<AgentKey, AgentRecord>,
    models: map<AgentKey, ModelRecord>,
    tools: map<ToolKey, ToolRecord>,
    ops: map<AgentKey, nat>)

  const EMPTY := Reg(map[], map[], map[], map[])

  function StartAgent(r: Reg, key: AgentKey, name: string, now: Time): Reg {
    r.(agents := r.agents[key := AgentRecord(key, name, now, 0, 0, false, ERROR_NONE)])
  }

  function EndAgent(r: Reg, key: AgentKey): (Reg, Option<AgentRecord>) {
    if key !in r.agents || r.agents[key].terminalized then (r, None)
    else (r.(agents := r.agents - {key}), Some(r.agents[key].(terminalized := true)))
  }

  function IncrementAgentInference(r: Reg, key: AgentKey): Reg {
    if key !in r.agents then r
    else
      var st := r.agents[key];
      r.(agents := r.agents[key := st.(inferenceCalls := st.inferenceCalls + 1)])
  }

  function IncrementAgentTool(r: Reg, key: AgentKey): Reg {
    if key !in r.agents then r
    else
      var st := r.agents[key];
      r.(agents := r.agents[key := st.(toolCalls := st.toolCalls + 1)])
  }

  function MarkPendingError(r: Reg, key: AgentKey, et: ErrorType): Reg {
    if key in r.agents && r.agents[key].pendingError == ERROR_NONE then
      r.(agents := r.agents[key := r.agents[key].(pendingError := et)])
    else r
  }

  function TakePendingError(r: Reg, key: AgentKey): (Reg, Option<ErrorType>) {
    if key !in r.agents || r.agents[key].pendingError == ERROR_NONE then (r, None)
    else
      (r.(agents := r.agents[key := r.agents[key].(pendingError := ERROR_NONE)]),
       Some(r.agents[key].pendingError))
  }

  predicate Active(r: Reg, key: AgentKey) {
    key in r.models && !r.models[key].terminalized
  }

  function UpdateModelRequest(r: Reg, key: AgentKey, provider: string, sys: ProjectedContent, input: ProjectedContent): Reg {
    if Active(r, key) then
      r.(models := r.models[key := r.models[key].(provider := provider, systemInstructions := sys, inputMessages := input)])
    else r
  }

  function UpdateModelUsage(r: Reg, key: AgentKey, usage: Usage, streaming: bool): Reg {
    if Active(r, key) then
      var st := r.models[key];
      r.(models := r.models[key := st.(usage := usage, streaming := st.streaming || streaming)])
    else r
  }

  function SetToolArguments(r: Reg, key: ToolKey, args: ProjectedContent): Reg {
    if key in r.tools && !r.tools[key].terminalized then
      r.(tools := r.tools[key := r.tools[key].(arguments := args)])
    else r
  }

  function Count(r: Reg, key: AgentKey): nat {
    if key in r.ops then r.ops[key] else 0
  }

  function StartModel(r: Reg, key: AgentKey, model: string, now: Time): (Reg, Option<ModelRecord>) {
    if Active(r, key) then (r, None)
    else
      var serial := Count(r, key) + 1;
      var st := ModelRecord(serial, key, now, model, NO_USAGE, false, false, "", NoContent, NoContent);
      (r.(ops := r.ops[key := serial], models := r.models[key := st]), Some(st))
  }

  // The pointer returned is to the object with this serial number.
  function GetModel(r: Reg, key: AgentKey): Option<ModelRecord> {
    if key in r.models then Some(r.models[key]) else None
  }

  function EndModel(r: Reg, key: AgentKey): (Reg, Option<ModelRecord>) {
    if !Active(r, key) then (r, None)
    else (r.(models := r.models - {key}), Some(r.models[key].(terminalized := true)))
  }

  function StartTool(r: Reg, key: ToolKey, agentKey: AgentKey, invocationID: string, name: string, now: Time): (Reg, bool) {
    if !key.IsValid() then (r, false)
    else (r.(tools := r.tools[key := ToolRecord(key, agentKey, invocationID, now, name, false, NoContent)]), true)
  }

  function EndTool(r: Reg, key: ToolKey): (Reg, Option<ToolRecord>) {
    if key !in r.tools || r.tools[key].terminalized then (r, None)
    else (r.(tools := r.tools - {key}), Some(r.tools[key].(terminalized := true)))
  }

  function CleanupInvocation(r: Reg, invocationID: string): Reg {
    r.(agents := map k | k in r.agents && k.invocationID != invocationID :: r.agents[k],
       models := map k | k in r.models && k.invocationID != invocationID :: r.models[k],
       tools := map k | k in r.tools && r.tools[k].invocationID != invocationID :: r.tools[k])
  }

  // One atomic step: a locked operation.
  datatype Step =
    | SStartAgent(key: AgentKey, name: string, now: Time)
    | SEndAgent(key: AgentKey)
    | SIncrementInference(key: AgentKey)
    | SIncrementTool(key: AgentKey)
    | SMarkPending(key: AgentKey, et: ErrorType)
    | STakePending(key: AgentKey)
    | SStartModel(key: AgentKey, model: string, now: Time)
    | SGetModel(key: AgentKey)
    | SUpdateRequest(key: AgentKey, provider: string, sys: ProjectedContent, input: ProjectedContent)
    | SUpdateUsage(key: AgentKey, usage: Usage, streaming: bool)
    | SEndModel(key: AgentKey)
    | SStartTool(span: ToolKey, key: AgentKey, invocationID: string, name: string, now: Time)
    | SSetArguments(span: ToolKey, args: ProjectedContent)
    | SEndTool(span: ToolKey)
    | SCleanup(invocationID: string)

  datatype Ret =
    | Nothing
    | RAgent(agent: Option<AgentRecord>)
    | RPending(pending: Option<ErrorType>)
    | RModel(model: Option<ModelRecord>)
    | RStarted(ok: bool)
    | RTool(tool: Option<ToolRecord>)

  function Apply(r: Reg, s: Step): (Reg, Ret) {
    match s
    case SStartAgent(key, name, now) => (StartAgent(r, key, name, now), Nothing)
    case SEndAgent(key) => var (r', st) := EndAgent(r, key); (r', RAgent(st))
    case SIncrementInference(key) => (IncrementAgentInference(r, key), Nothing)
    case SIncrementTool(key) => (IncrementAgentTool(r, key), Nothing)
    case SMarkPending(key, et) => (MarkPendingError(r, key, et), Nothing)
    case STakePending(key) => var (r', et) := TakePendingError(r, key); (r', RPending(et))
    case SStartModel(key, model, now) => var (r', st) := StartModel(r, key, model, now); (r', RModel(st))
    case SGetModel(key) => (r, RModel(GetModel(r, key)))
    case SUpdateRequest(key, provider, sys, input) => (UpdateModelRequest(r, key, provider, sys, input), Nothing)
    case SUpdateUsage(key, usage, streaming) => (UpdateModelUsage(r, key, usage, streaming), Nothing)
    case SEndModel(key) => var (r', st) := EndModel(r, key); (r', RModel(st))
    case SStartTool(span, key, inv, name, now) => var (r', ok) := StartTool(r, span, key, inv, name, now); (r', RStarted(ok))
    case SSetArguments(span, args) => (SetToolArguments(r, span, args), Nothing)
    case SEndTool(span) => var (r', st) := EndTool(r, span); (r', RTool(st))
    case SCleanup(inv) => (CleanupInvocation(r, inv), Nothing)
  }

  // The registry after the first i steps of a run.
  function At(r: Reg, steps: seq<Step>, i: nat): Reg
    requires i <= |steps|
  {
    if i == 0 then r else Apply(At(r, steps, i - 1), steps[i - 1]).0
  }

  function Run(r: Reg, steps: seq<Step>): Reg {
    At(r, steps, |steps|)
  }

  // What the i-th step of a run returns.
  function Returned(r: Reg, steps: seq<Step>, i: nat): Ret
    requires i < |steps|
  {
    Apply(At(r, steps, i), steps[i]).1
  }

  // Every stored object is filed under its own key and not terminalized, and
  // the live model of a key is the last one its counter issued.
  ghost predicate Consistent(r: Reg) {
    && AgentsConsistent(r.agents)
    && ToolsConsistent(r.tools)
    && ModelsConsistent(r)
  }

  ghost predicate AgentsConsistent(agents: map<AgentKey, AgentRecord>) {
    forall k <- agents :: agents[k].key == k && !agents[k].terminalized
  }

  ghost predicate ToolsConsistent(tools: map<ToolKey, ToolRecord>) {
    forall k <- tools :: tools[k].key == k && !tools[k].terminalized && k.IsValid()
  }

  ghost predicate ModelsConsistent(r: Reg) {
    forall k <- r.models ::
      && r.models[k].agentKey == k && !r.models[k].terminalized
      && r.models[k].serial == Count(r, k) >= 1
  }

  lemma StepKeepsAgents(r: Reg, s: Step)
    requires AgentsConsistent(r.agents)
    ensures AgentsConsistent(Apply(r, s).0.agents)
  {
  }

  lemma StepKeepsTools(r: Reg, s: Step)
    requires ToolsConsistent(r.tools)
    ensures ToolsConsistent(Apply(r, s).0.tools)
  {
  }

  lemma LifecycleKeepsModels(r: Reg, s: Step)
    requires ModelsConsistent(r) && (s.SStartModel? || s.SEndModel? || s.SCleanup?)
    ensures ModelsConsistent(Apply(r, s).0)
  {
  }

  lemma UpdateKeepsModels(r: Reg, s: Step)
    requires ModelsConsistent(r) && (s.SUpdateRequest? || s.SUpdateUsage?)
    ensures ModelsConsistent(Apply(r, s).0)
  {
  }

  lemma StepKeepsModels(r: Reg, s: Step)
    requires ModelsConsistent(r)
    ensures ModelsConsistent(Apply(r, s).0)
  {
    if s.SStartModel? || s.SEndModel? || s.SCleanup? {
      LifecycleKeepsModels(r, s);
    } else if s.SUpdateRequest? || s.SUpdateUsage? {
      UpdateKeepsModels(r, s);
    } else {
      assert Apply(r, s).0.models == r.models && Apply(r, s).0.ops == r.ops;
    }
  }

  lemma StepKeepsConsistent(r: Reg, s: Step)
    requires Consistent(r)
    ensures Consistent(Apply(r, s).0)
  {
    StepKeepsAgents(r, s);
    StepKeepsTools(r, s);
    StepKeepsModels(r, s);
  }

  lemma {:induction false} RunKeepsConsistent(r: Reg, steps: seq<Step>, i: nat)
    requires Consistent(r) && i <= |steps|
    ensures Consistent(At(r, steps, i))
  {
    if i == 0 {
    } else {
      RunKeepsConsistent(r, steps, i - 1);
      StepKeepsConsistent(At(r, steps, i - 1), steps[i - 1]);
    }
  }
}
