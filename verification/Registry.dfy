// The mutex-protected registry of one plugin instance: maps of pointers to
// lifecycle states that the locked methods update in place.
module Registry {
  import opened Types
  import Spec = RegistrySpec
  import opened RegistrySpec

  newtype uint64 = x: int | 0 <= x < 0x1_0000_0000_0000_0000

  class AgentState {
    const key: AgentKey
    const name: string
    const start: Time
    var inferenceCalls: nat
    var toolCalls: nat
    var terminalized: bool
    var pendingError: ErrorType

    constructor (key: AgentKey, name: string, start: Time)
      ensures Holds(AgentRecord(key, name, start, 0, 0, false, ERROR_NONE))
    {
      this.key, this.name, this.start := key, name, start;
      inferenceCalls, toolCalls, terminalized, pendingError := 0, 0, false, ERROR_NONE;
    }

    ghost predicate Holds(r: AgentRecord)
      reads this
    {
      && r.key == key && r.name == name && r.start == start
      && r.inferenceCalls == inferenceCalls && r.toolCalls == toolCalls
      && r.terminalized == terminalized && r.pendingError == pendingError
    }
  }

  class ModelState {
    ghost const serial: nat
    const operationID: uint64
    const agentKey: AgentKey
    const start: Time
    const model: string
    var usage: Usage
    var terminalized: bool
    var streaming: bool
    var provider: string
    var systemInstructions: ProjectedContent
    var inputMessages: ProjectedContent

    constructor (ghost serial: nat, operationID: uint64, agentKey: AgentKey, start: Time, model: string)
      requires operationID as int == serial % OP_ID_SPACE
      ensures Holds(ModelRecord(serial, agentKey, start, model, NO_USAGE, false, false, "", NoContent, NoContent))
      ensures this.operationID == operationID
    {
      this.serial, this.operationID, this.agentKey, this.start, this.model := serial, operationID, agentKey, start, model;
      usage, terminalized, streaming, provider := NO_USAGE, false, false, "";
      systemInstructions, inputMessages := NoContent, NoContent;
    }

    ghost predicate Holds(r: ModelRecord)
      reads this
    {
      && r.serial == serial && r.agentKey == agentKey && r.start == start && r.model == model
      && r.usage == usage && r.terminalized == terminalized && r.streaming == streaming
      && r.provider == provider && r.systemInstructions == systemInstructions && r.inputMessages == inputMessages
    }
  }

  class ToolState {
    const key: ToolKey
    const agentKey: AgentKey
    const invocationID: string
    const start: Time
    const name: string
    var terminalized: bool
    var arguments: ProjectedContent

    constructor (key: ToolKey, agentKey: AgentKey, invocationID: string, start: Time, name: string)
      ensures Holds(ToolRecord(key, agentKey, invocationID, start, name, false, NoContent))
    {
      this.key, this.agentKey, this.invocationID, this.start, this.name := key, agentKey, invocationID, start, name;
      terminalized, arguments := false, NoContent;
    }

    ghost predicate Holds(r: ToolRecord)
      reads this
    {
      && r.key == key && r.agentKey == agentKey && r.invocationID == invocationID && r.start == start
      && r.name == name && r.terminalized == terminalized && r.arguments == arguments
    }
  }

  // id++ on the 64-bit counter that stands for n.
  function Increment(id: uint64, ghost n: nat): (next: uint64)
    requires id as int == n % OP_ID_SPACE
    ensures next as int == (n + 1) % OP_ID_SPACE
  {
    if id == 0xFFFF_FFFF_FFFF_FFFF then 0 else id + 1
  }

  class Registry {
    var agents: map<AgentKey, AgentState>
    var models: map<AgentKey, ModelState>
    var tools: map<ToolKey, ToolState>
    var modelOps: map<AgentKey, uint64>

    // Every state created so far.
    ghost var states: set<object>

    // What the maps hold, as values, and how many models each key has had.
    ghost var agentRecords: map<AgentKey, AgentRecord>
    ghost var modelRecords: map<AgentKey, ModelRecord>
    ghost var toolRecords: map<ToolKey, ToolRecord>
    ghost var ops: map<AgentKey, nat>

    ghost function View(): Reg
      reads this
    {
      Reg(agentRecords, modelRecords, toolRecords, ops)
    }

    // No stored state is terminalized and each is filed under its own key, so
    // distinct keys hold distinct objects.
    ghost predicate Valid()
      reads this, states
    {
      ValidAgents() && ValidModels() && ValidTools()
    }

    ghost predicate ValidAgents()
      reads this`states, this`agents, this`agentRecords, states
    {
      && agents.Keys == agentRecords.Keys
      && forall k <- agents :: agents[k] in states && agents[k].key == k && !agents[k].terminalized && agents[k].Holds(agentRecords[k])
    }

    ghost predicate ValidModels()
      reads this`states, this`models, this`modelRecords, this`modelOps, this`ops, states
    {
      && models.Keys == modelRecords.Keys
      && (forall k <- models :: models[k] in states && models[k].agentKey == k && !models[k].terminalized && models[k].Holds(modelRecords[k]))
      && (forall k <- models :: k in ops && models[k].serial == ops[k] && models[k].operationID as int == ops[k] % OP_ID_SPACE)
      && ops.Keys == modelOps.Keys
      && (forall k <- ops :: modelOps[k] as int == ops[k] % OP_ID_SPACE)
    }

    ghost predicate ValidTools()
      reads this`states, this`tools, this`toolRecords, states
    {
      && tools.Keys == toolRecords.Keys
      && forall k <- tools :: tools[k] in states && tools[k].key == k && !tools[k].terminalized && tools[k].Holds(toolRecords[k])
    }

    // A method that touches one of the maps leaves the other two valid.
    twostate lemma OnlyAgents()
      requires old(Valid()) && old(states) <= states && ValidAgents()
      requires unchanged(this`models, this`modelRecords, this`modelOps, this`ops) && forall k <- models :: unchanged(models[k])
      requires unchanged(this`tools, this`toolRecords) && forall k <- tools :: unchanged(tools[k])
      ensures Valid()
    {
    }

    twostate lemma OnlyModels()
      requires old(Valid()) && old(states) <= states && ValidModels()
      requires unchanged(this`agents, this`agentRecords) && forall k <- agents :: unchanged(agents[k])
      requires unchanged(this`tools, this`toolRecords) && forall k <- tools :: unchanged(tools[k])
      ensures Valid()
    {
    }

    twostate lemma OneAgent(key: AgentKey)
      requires old(Valid()) && old(states) <= states
      requires key in agents && key in agentRecords && agents[key].Holds(agentRecords[key]) && !agents[key].terminalized
      requires unchanged(this`agents) && agentRecords == old(agentRecords)[key := agentRecords[key]]
      requires forall k <- agents :: k != key ==> unchanged(agents[k])
      requires unchanged(this`models, this`modelRecords, this`modelOps, this`ops) && forall k <- models :: unchanged(models[k])
      requires unchanged(this`tools, this`toolRecords) && forall k <- tools :: unchanged(tools[k])
      ensures Valid()
    {
      OnlyAgents();
    }

    twostate lemma OneModel(key: AgentKey)
      requires old(Valid()) && old(states) <= states
      requires key in models && key in modelRecords && models[key].Holds(modelRecords[key]) && !models[key].terminalized
      requires unchanged(this`models, this`modelOps, this`ops) && modelRecords == old(modelRecords)[key := modelRecords[key]]
      requires forall k <- models :: k != key ==> unchanged(models[k])
      requires unchanged(this`agents, this`agentRecords) && forall k <- agents :: unchanged(agents[k])
      requires unchanged(this`tools, this`toolRecords) && forall k <- tools :: unchanged(tools[k])
      ensures Valid()
    {
      assert ValidModels();
      OnlyModels();
    }

    twostate lemma NewModel(key: AgentKey)
      requires old(Valid()) && old(states) <= states && unchanged(this`modelOps, this`ops) && key in models && key in modelRecords
      requires models == old(models)[key := models[key]] && modelRecords == old(modelRecords)[key := modelRecords[key]]
      requires models[key] in states && models[key].Holds(modelRecords[key]) && models[key].agentKey == key && !models[key].terminalized
      requires key in ops && models[key].serial == ops[key] && models[key].operationID as int == ops[key] % OP_ID_SPACE
      requires key !in old(models)
      requires unchanged(old(models.Values))
      requires unchanged(this`agents, this`agentRecords) && forall k <- agents :: unchanged(agents[k])
      requires unchanged(this`tools, this`toolRecords) && forall k <- tools :: unchanged(tools[k])
      ensures Valid()
    {
      OnlyModels();
    }

    twostate lemma OnlyTools()
      requires old(Valid()) && old(states) <= states && ValidTools()
      requires unchanged(this`agents, this`agentRecords) && forall k <- agents :: unchanged(agents[k])
      requires unchanged(this`models, this`modelRecords, this`modelOps, this`ops) && forall k <- models :: unchanged(models[k])
      ensures Valid()
    {
    }

    twostate lemma OneTool(key: ToolKey)
      requires old(Valid()) && old(states) <= states
      requires key in tools && key in toolRecords && tools[key].Holds(toolRecords[key]) && !tools[key].terminalized
      requires unchanged(this`tools) && toolRecords == old(toolRecords)[key := toolRecords[key]]
      requires forall k <- tools :: k != key ==> unchanged(tools[k])
      requires unchanged(this`agents, this`agentRecords) && forall k <- agents :: unchanged(agents[k])
      requires unchanged(this`models, this`modelRecords, this`modelOps, this`ops) && forall k <- models :: unchanged(models[k])
      ensures Valid()
    {
      assert ValidTools();
      OnlyTools();
    }

    twostate lemma FewerAgents()
      requires old(Valid()) && old(states) <= states && agents.Keys == agentRecords.Keys
      requires forall k <- agents ::
                 k in old(agents) && agents[k] == old(agents[k]) && unchanged(agents[k]) && agentRecords[k] == old(agentRecords[k])
      requires unchanged(this`models, this`modelRecords, this`modelOps, this`ops) && forall k <- models :: unchanged(models[k])
      requires unchanged(this`tools, this`toolRecords) && forall k <- tools :: unchanged(tools[k])
      ensures Valid()
    {
      OnlyAgents();
    }

    twostate lemma FewerModels()
      requires old(Valid()) && old(states) <= states && models.Keys == modelRecords.Keys && unchanged(this`modelOps, this`ops)
      requires forall k <- models ::
                 k in old(models) && models[k] == old(models[k]) && unchanged(models[k]) && modelRecords[k] == old(modelRecords[k])
      requires unchanged(this`agents, this`agentRecords) && forall k <- agents :: unchanged(agents[k])
      requires unchanged(this`tools, this`toolRecords) && forall k <- tools :: unchanged(tools[k])
      ensures Valid()
    {
      OnlyModels();
    }

    twostate lemma FewerTools()
      requires old(Valid()) && old(states) <= states && tools.Keys == toolRecords.Keys
      requires forall k <- tools :: k in old(tools) && tools[k] == old(tools[k]) && unchanged(tools[k]) && toolRecords[k] == old(toolRecords[k])
      requires unchanged(this`agents, this`agentRecords) && forall k <- agents :: unchanged(agents[k])
      requires unchanged(this`models, this`modelRecords, this`modelOps, this`ops) && forall k <- models :: unchanged(models[k])
      ensures Valid()
    {
      OnlyTools();
    }

    constructor ()
      ensures Valid() && states == {} && View() == EMPTY && agents == map[] && models == map[] && tools == map[]
    {
      agents, models, tools, modelOps := map[], map[], map[], map[];
      states, agentRecords, modelRecords, toolRecords, ops := {}, map[], map[], map[], map[];
    }

    method StartAgent(key: AgentKey, name: string, now: Time) returns (st: AgentState)
      requires Valid()
      modifies this`states, this`agents, this`agentRecords
      ensures Valid() && fresh(st) && states == old(states) + {st}
      ensures View() == Spec.StartAgent(old(View()), key, name, now)
      ensures agents == old(agents)[key := st]
    {
      st := new AgentState(key, name, now);
      states := states + {st};
      agents := agents[key := st];
      agentRecords := Spec.StartAgent(View(), key, name, now).agents;
      OnlyAgents();
    }

    method GetAgent(key: AgentKey) returns (st: AgentState?)
      requires Valid()
      ensures st != null <==> key in View().agents
      ensures st != null ==> key in agents && st == agents[key] && st.Holds(View().agents[key])
    {
      st := if key in agents then agents[key] else null;
    }

    method EndAgent(key: AgentKey) returns (st: AgentState?)
      requires Valid()
      modifies this`agents, this`agentRecords, if key in agents then {agents[key]} else {}
      ensures Valid()
      ensures View() == Spec.EndAgent(old(View()), key).0
      ensures Spec.EndAgent(old(View()), key).1.Some? == (st != null)
      ensures st != null ==> st.Holds(Spec.EndAgent(old(View()), key).1.value)
      ensures agents == old(agents) - {key}
      ensures st != null ==> key in old(agents) && st == old(agents[key])
    {
      if key !in agents || agents[key].terminalized {
        return null;
      }
      st := agents[key];
      st.terminalized := true;
      agents := agents - {key};
      agentRecords := agentRecords - {key};
      FewerAgents();
    }

    method IncrementAgentInference(key: AgentKey)
      requires Valid()
      modifies this`agentRecords, if key in agents then {agents[key]} else {}
      ensures Valid() && View() == Spec.IncrementAgentInference(old(View()), key)
    {
      if key in agents {
        var st := agents[key];
        st.inferenceCalls := st.inferenceCalls + 1;
        agentRecords := Spec.IncrementAgentInference(View(), key).agents;
        OneAgent(key);
      }
    }

    method IncrementAgentTool(key: AgentKey)
      requires Valid()
      modifies this`agentRecords, if key in agents then {agents[key]} else {}
      ensures Valid() && View() == Spec.IncrementAgentTool(old(View()), key)
    {
      if key in agents {
        var st := agents[key];
        st.toolCalls := st.toolCalls + 1;
        agentRecords := Spec.IncrementAgentTool(View(), key).agents;
        OneAgent(key);
      }
    }

    method MarkPendingError(key: AgentKey, et: ErrorType)
      requires Valid()
      modifies this`agentRecords, if key in agents then {agents[key]} else {}
      ensures Valid() && View() == Spec.MarkPendingError(old(View()), key, et)
    {
      if key in agents && agents[key].pendingError == ERROR_NONE {
        agents[key].pendingError := et;
        agentRecords := Spec.MarkPendingError(View(), key, et).agents;
        OneAgent(key);
      }
    }

    method TakePendingError(key: AgentKey) returns (et: ErrorType, ok: bool)
      requires Valid()
      modifies this`agentRecords, if key in agents then {agents[key]} else {}
      ensures Valid() && View() == Spec.TakePendingError(old(View()), key).0
      ensures Spec.TakePendingError(old(View()), key).1 == if ok then Some(et) else None
      ensures !ok ==> et == ERROR_NONE
    {
      if key !in agents || agents[key].pendingError == ERROR_NONE {
        return ERROR_NONE, false;
      }
      et, ok := agents[key].pendingError, true;
      agents[key].pendingError := ERROR_NONE;
      agentRecords := Spec.TakePendingError(View(), key).0.agents;
      OneAgent(key);
    }

    method UpdateModelRequest(key: AgentKey, provider: string, sys: ProjectedContent, input: ProjectedContent)
      requires Valid()
      modifies this`modelRecords, if key in models then {models[key]} else {}
      ensures Valid() && View() == Spec.UpdateModelRequest(old(View()), key, provider, sys, input)
    {
      if key in models && !models[key].terminalized {
        WriteRequest(key, provider, sys, input);
      }
    }

    method WriteRequest(key: AgentKey, provider: string, sys: ProjectedContent, input: ProjectedContent)
      requires Valid() && key in models
      modifies this`modelRecords, models[key]
      ensures Valid()
      ensures modelRecords ==
              old(modelRecords)[key := old(modelRecords[key]).(provider := provider, systemInstructions := sys, inputMessages := input)]
    {
      var st := models[key];
      st.provider, st.systemInstructions, st.inputMessages := provider, sys, input;
      modelRecords := modelRecords[key := modelRecords[key].(provider := provider, systemInstructions := sys, inputMessages := input)];
      OneModel(key);
    }

    method UpdateModelUsage(key: AgentKey, usage: Usage, streaming: bool)
      requires Valid()
      modifies this`modelRecords, if key in models then {models[key]} else {}
      ensures Valid() && View() == Spec.UpdateModelUsage(old(View()), key, usage, streaming)
    {
      if key in models && !models[key].terminalized {
        WriteUsage(key, usage, streaming);
      }
    }

    method WriteUsage(key: AgentKey, usage: Usage, streaming: bool)
      requires Valid() && key in models
      modifies this`modelRecords, models[key]
      ensures Valid()
      ensures modelRecords ==
              old(modelRecords)[key := old(modelRecords[key]).(usage := usage, streaming := old(modelRecords[key].streaming) || streaming)]
    {
      var st := models[key];
      ghost var record := modelRecords[key].(usage := usage, streaming := modelRecords[key].streaming || streaming);
      st.usage, st.streaming := usage, st.streaming || streaming;
      assert forall k <- models :: k != key ==> unchanged(models[k]);
      modelRecords := modelRecords[key := record];
      OneModel(key);
    }

    method SetToolArguments(key: ToolKey, args: ProjectedContent)
      requires Valid()
      modifies this`toolRecords, if key in tools then {tools[key]} else {}
      ensures Valid() && View() == Spec.SetToolArguments(old(View()), key, args)
    {
      if key in tools && !tools[key].terminalized {
        WriteArguments(key, args);
      }
    }

    method WriteArguments(key: ToolKey, args: ProjectedContent)
      requires Valid() && key in tools
      modifies this`toolRecords, tools[key]
      ensures Valid() && toolRecords == old(toolRecords)[key := old(toolRecords[key]).(arguments := args)]
    {
      tools[key].arguments := args;
      toolRecords := toolRecords[key := toolRecords[key].(arguments := args)];
      OneTool(key);
    }

    // The 64-bit counter of the key, advanced.
    method NextOperation(key: AgentKey) returns (opID: uint64)
      requires Valid() && key !in models
      modifies this`modelOps, this`ops
      ensures Valid() && ops == old(ops)[key := Count(old(View()), key) + 1]
      ensures opID as int == ops[key] % OP_ID_SPACE
    {
      opID := if key in modelOps then Increment(modelOps[key], ops[key]) else 1;
      modelOps, ops := modelOps[key := opID], ops[key := Count(View(), key) + 1];
    }

    method FileModel(key: AgentKey, opID: uint64, model: string, now: Time) returns (st: ModelState)
      requires Valid() && key !in models && key in ops && opID as int == ops[key] % OP_ID_SPACE
      modifies this`states, this`models, this`modelRecords
      ensures Valid() && fresh(st) && states == old(states) + {st} && st.operationID == opID && models == old(models)[key := st]
      ensures modelRecords ==
              old(modelRecords)[key := ModelRecord(ops[key], key, now, model, NO_USAGE, false, false, "", NoContent, NoContent)]
    {
      st := new ModelState(ops[key], opID, key, now, model);
      states := states + {st};
      models := models[key := st];
      modelRecords := modelRecords[key := ModelRecord(ops[key], key, now, model, NO_USAGE, false, false, "", NoContent, NoContent)];
      NewModel(key);
    }

    method NewOperation(key: AgentKey, model: string, now: Time) returns (st: ModelState)
      requires Valid() && key !in models
      modifies this`states, this`models, this`modelRecords, this`modelOps, this`ops
      ensures Valid() && fresh(st) && states == old(states) + {st} && models == old(models)[key := st]
      ensures ops == old(ops)[key := Count(old(View()), key) + 1]
      ensures modelRecords ==
              old(modelRecords)[key := ModelRecord(ops[key], key, now, model, NO_USAGE, false, false, "", NoContent, NoContent)]
    {
      var opID := NextOperation(key);
      st := FileModel(key, opID, model, now);
    }

    method StartModel(key: AgentKey, model: string, now: Time) returns (st: ModelState?, ok: bool)
      requires Valid()
      modifies this`states, this`models, this`modelRecords, this`modelOps, this`ops
      ensures Valid() && ok == (st != null)
      ensures View() == Spec.StartModel(old(View()), key, model, now).0
      ensures Spec.StartModel(old(View()), key, model, now).1.Some? == ok
      ensures !ok ==> models == old(models) && states == old(states)
      ensures ok ==> fresh(st) && states == old(states) + {st} && models == old(models)[key := st]
      ensures ok ==> st.operationID as int == modelRecords[key].OperationID()
    {
      if key in models && !models[key].terminalized {
        st, ok := null, false;
      } else {
        st := NewOperation(key, model, now);
        ok := true;
      }
    }

    method GetModel(key: AgentKey) returns (st: ModelState?)
      requires Valid()
      ensures st == (if key in models then models[key] else null)
      ensures Spec.GetModel(View(), key).Some? == (st != null)
      ensures st != null ==> st.Holds(Spec.GetModel(View(), key).value)
    {
      st := if key in models then models[key] else null;
    }

    method EndModel(key: AgentKey) returns (st: ModelState?)
      requires Valid()
      modifies this`models, this`modelRecords, if key in models then {models[key]} else {}
      ensures Valid()
      ensures View() == Spec.EndModel(old(View()), key).0
      ensures Spec.EndModel(old(View()), key).1.Some? == (st != null)
      ensures st != null ==> st.Holds(Spec.EndModel(old(View()), key).1.value)
      ensures models == old(models) - {key}
      ensures st != null ==> key in old(models) && st == old(models[key])
    {
      if key !in models || models[key].terminalized {
        return null;
      }
      st := RemoveModel(key);
    }

    method RemoveModel(key: AgentKey) returns (st: ModelState)
      requires Valid() && key in models
      modifies this`models, this`modelRecords, models[key]
      ensures Valid() && st == old(models[key]) && st.Holds(old(modelRecords[key]).(terminalized := true))
      ensures models == old(models) - {key} && modelRecords == old(modelRecords) - {key}
    {
      st := models[key];
      st.terminalized := true;
      assert forall k <- models :: k != key ==> unchanged(models[k]);
      models := models - {key};
      modelRecords := modelRecords - {key};
      FewerModels();
    }

    method StartTool(key: ToolKey, agentKey: AgentKey, invocationID: string, name: string, now: Time)
      returns (st: ToolState?, ok: bool)
      requires Valid()
      modifies this`states, this`tools, this`toolRecords
      ensures Valid() && ok == (st != null)
      ensures (View(), ok) == Spec.StartTool(old(View()), key, agentKey, invocationID, name, now)
      ensures if ok then fresh(st) && states == old(states) + {st} && tools == old(tools)[key := st]
              else states == old(states) && tools == old(tools)
    {
      if !key.IsValid() {
        return null, false;
      }
      st := new ToolState(key, agentKey, invocationID, now, name);
      states := states + {st};
      tools := tools[key := st];
      ok := true;
      toolRecords := Spec.StartTool(View(), key, agentKey, invocationID, name, now).0.tools;
      OnlyTools();
    }

    method GetTool(key: ToolKey) returns (st: ToolState?)
      requires Valid()
      ensures st != null <==> key in View().tools
      ensures st != null ==> key in tools && st == tools[key] && st.Holds(View().tools[key])
    {
      st := if key in tools then tools[key] else null;
    }

    method EndTool(key: ToolKey) returns (st: ToolState?)
      requires Valid()
      modifies this`tools, this`toolRecords, if key in tools then {tools[key]} else {}
      ensures Valid()
      ensures View() == Spec.EndTool(old(View()), key).0
      ensures Spec.EndTool(old(View()), key).1.Some? == (st != null)
      ensures st != null ==> st.Holds(Spec.EndTool(old(View()), key).1.value)
      ensures tools == old(tools) - {key}
      ensures st != null ==> key in old(tools) && st == old(tools[key])
    {
      if key !in tools || tools[key].terminalized {
        return null;
      }
      st := tools[key];
      st.terminalized := true;
      tools := tools - {key};
      toolRecords := toolRecords - {key};
      FewerTools();
    }

    method CleanupInvocation(invocationID: string)
      requires Valid()
      modifies this`agents, this`agentRecords, this`models, this`modelRecords, this`tools, this`toolRecords
      ensures Valid() && View() == Spec.CleanupInvocation(old(View()), invocationID)
      ensures forall k <- agents :: k in old(agents) && agents[k] == old(agents[k])
      ensures forall k <- models :: k in old(models) && models[k] == old(models[k])
      ensures forall k <- tools :: k in old(tools) && tools[k] == old(tools[k])
    {
      CleanupAgents(invocationID);
      CleanupOperations(invocationID);
    }

    method CleanupOperations(invocationID: string)
      requires Valid()
      modifies this`models, this`modelRecords, this`tools, this`toolRecords
      ensures forall k <- models :: k in old(models) && models[k] == old(models[k])
      ensures forall k <- tools :: k in old(tools) && tools[k] == old(tools[k])
      ensures Valid()
      ensures var after := Spec.CleanupInvocation(old(View()), invocationID);
              View() == old(View()).(models := after.models, tools := after.tools)
    {
      CleanupModels(invocationID);
      CleanupTools(invocationID);
    }

    method DeleteAgents(invocationID: string)
      modifies this`agents
      ensures forall k :: k in agents <==> k in old(agents) && k.invocationID != invocationID
      ensures forall k <- agents :: agents[k] == old(agents[k])
    {
      var todo := agents.Keys;
      while todo != {}
        invariant forall k :: k in agents <==> k in old(agents) && (k in todo || k.invocationID != invocationID)
        invariant forall k <- agents :: agents[k] == old(agents[k])
        decreases todo
      {
        var k :| k in todo;
        todo := todo - {k};
        if k.invocationID == invocationID {
          agents := agents - {k};
        }
      }
    }

    method CleanupAgents(invocationID: string)
      requires Valid()
      modifies this`agents, this`agentRecords
      ensures forall k <- agents :: k in old(agents) && agents[k] == old(agents[k])
      ensures Valid() && View() == old(View()).(agents := Spec.CleanupInvocation(old(View()), invocationID).agents)
    {
      DeleteAgents(invocationID);
      agentRecords := Spec.CleanupInvocation(View(), invocationID).agents;
      FewerAgents();
    }

    method DeleteModels(invocationID: string)
      modifies this`models
      ensures forall k :: k in models <==> k in old(models) && k.invocationID != invocationID
      ensures forall k <- models :: models[k] == old(models[k])
    {
      var todo := models.Keys;
      while todo != {}
        invariant forall k :: k in models <==> k in old(models) && (k in todo || k.invocationID != invocationID)
        invariant forall k <- models :: models[k] == old(models[k])
        decreases todo
      {
        var k :| k in todo;
        todo := todo - {k};
        if k.invocationID == invocationID {
          models := models - {k};
        }
      }
    }

    method CleanupModels(invocationID: string)
      requires Valid()
      modifies this`models, this`modelRecords
      ensures forall k <- models :: k in old(models) && models[k] == old(models[k])
      ensures Valid() && View() == old(View()).(models := Spec.CleanupInvocation(old(View()), invocationID).models)
    {
      DeleteModels(invocationID);
      modelRecords := Spec.CleanupInvocation(View(), invocationID).models;
      FewerModels();
    }

    method DeleteTools(invocationID: string)
      modifies this`tools
      ensures forall k :: k in tools <==> k in old(tools) && old(tools)[k].invocationID != invocationID
      ensures forall k <- tools :: tools[k] == old(tools[k])
    {
      var todo := tools.Keys;
      while todo != {}
        invariant todo <= old(tools.Keys)
        invariant forall k :: k in tools <==> k in old(tools) && (k in todo || old(tools)[k].invocationID != invocationID)
        invariant forall k <- tools :: tools[k] == old(tools[k])
        decreases todo
      {
        var k :| k in todo;
        todo := todo - {k};
        if tools[k].invocationID == invocationID {
          tools := tools - {k};
        }
      }
    }

    method CleanupTools(invocationID: string)
      requires Valid()
      modifies this`tools, this`toolRecords
      ensures forall k <- tools :: k in old(tools) && tools[k] == old(tools[k])
      ensures Valid() && View() == old(View()).(tools := Spec.CleanupInvocation(old(View()), invocationID).tools)
    {
      DeleteTools(invocationID);
      toolRecords := Spec.CleanupInvocation(View(), invocationID).tools;
      FewerTools();
    }

    method ExecuteOnAgents(s: Step)
      requires Valid()
      requires s.SStartAgent? || s.SEndAgent? || s.SIncrementInference? || s.SIncrementTool? || s.SMarkPending? || s.STakePending?
      modifies this`states, this`agents, this`agentRecords, agents.Values
      ensures Valid() && View() == Apply(old(View()), s).0
      ensures fresh(states - old(states))
    {
      if s.SStartAgent? {
        var _ := StartAgent(s.key, s.name, s.now);
      } else if s.SEndAgent? {
        var _ := EndAgent(s.key);
      } else {
        ExecuteOnAgent(s);
      }
    }

    method ExecuteOnAgent(s: Step)
      requires Valid()
      requires s.SIncrementInference? || s.SIncrementTool? || s.SMarkPending? || s.STakePending?
      modifies this`agentRecords, agents.Values
      ensures Valid() && View() == Apply(old(View()), s).0
    {
      match s
      case SIncrementInference(key) => IncrementAgentInference(key);
      case SIncrementTool(key) => IncrementAgentTool(key);
      case SMarkPending(key, et) => MarkPendingError(key, et);
      case STakePending(key) => var _, _ := TakePendingError(key);
    }

    method ExecuteOnModels(s: Step)
      requires Valid()
      requires s.SStartModel? || s.SEndModel? || s.SUpdateRequest? || s.SUpdateUsage?
      modifies this`states, this`models, this`modelRecords, this`modelOps, this`ops, models.Values
      ensures Valid() && View() == Apply(old(View()), s).0
      ensures fresh(states - old(states))
    {
      if s.SStartModel? || s.SEndModel? {
        ExecuteLifecycle(s);
      } else {
        ExecuteUpdate(s);
      }
    }

    method ExecuteLifecycle(s: Step)
      requires Valid()
      requires s.SStartModel? || s.SEndModel?
      modifies this`states, this`models, this`modelRecords, this`modelOps, this`ops, models.Values
      ensures Valid() && View() == Apply(old(View()), s).0
      ensures fresh(states - old(states))
    {
      if s.SStartModel? {
        var _, _ := StartModel(s.key, s.model, s.now);
      } else {
        var _ := EndModel(s.key);
      }
    }

    method ExecuteUpdate(s: Step)
      requires Valid()
      requires s.SUpdateRequest? || s.SUpdateUsage?
      modifies this`modelRecords, models.Values
      ensures Valid() && View() == Apply(old(View()), s).0
    {
      match s
      case SUpdateRequest(key, provider, sys, input) => UpdateModelRequest(key, provider, sys, input);
      case SUpdateUsage(key, usage, streaming) => UpdateModelUsage(key, usage, streaming);
    }

    method ExecuteOnTools(s: Step)
      requires Valid()
      requires s.SStartTool? || s.SSetArguments? || s.SEndTool?
      modifies this`states, this`tools, this`toolRecords, tools.Values
      ensures Valid() && View() == Apply(old(View()), s).0
      ensures fresh(states - old(states))
    {
      match s
      case SStartTool(span, key, inv, name, now) => var _, _ := StartTool(span, key, inv, name, now);
      case SSetArguments(span, args) => SetToolArguments(span, args);
      case SEndTool(span) => var _ := EndTool(span);
    }

    method Execute(s: Step)
      requires Valid()
      modifies this, agents.Values, models.Values, tools.Values
      ensures Valid() && View() == Apply(old(View()), s).0
      ensures fresh(states - old(states))
    {
      if s.SGetModel? {
        var _ := GetModel(s.key);
      } else if s.SCleanup? {
        CleanupInvocation(s.invocationID);
      } else if s.SStartModel? || s.SEndModel? || s.SUpdateRequest? || s.SUpdateUsage? {
        ExecuteOnModels(s);
      } else if s.SStartTool? || s.SSetArguments? || s.SEndTool? {
        ExecuteOnTools(s);
      } else {
        ExecuteOnAgents(s);
      }
    }

    // A whole run on the real objects. A state that has been terminalized is
    // never changed again: however a run is cut in two, the second part leaves
    // alone what the first terminalized.
    method Replay(steps: seq<Step>)
      requires Valid()
      modifies this, states
      ensures Valid() && fresh(states - old(states)) && View() == Run(old(View()), steps)
      ensures forall a: AgentState :: old(allocated(a)) && old(a.terminalized) ==> unchanged(a)
      ensures forall m: ModelState :: old(allocated(m)) && old(m.terminalized) ==> unchanged(m)
      ensures forall t: ToolState :: old(allocated(t)) && old(t.terminalized) ==> unchanged(t)
    {
      for i := 0 to |steps|
        invariant Valid() && fresh(states - old(states)) && View() == At(old(View()), steps, i)
        invariant forall a: AgentState :: old(allocated(a)) && old(a.terminalized) ==> unchanged(a)
        invariant forall m: ModelState :: old(allocated(m)) && old(m.terminalized) ==> unchanged(m)
        invariant forall t: ToolState :: old(allocated(t)) && old(t.terminalized) ==> unchanged(t)
      {
        Execute(steps[i]);
      }
    }
  }
}
