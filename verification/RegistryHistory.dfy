// What a stored state holds, in terms of the locked steps that made it: the
// step that filed it, and the last update of each field since.
module RegistryHistory {
  import opened Types
  import opened RegistrySpec

  // ---- Agents ----

  // The step files or removes the agent of this key.
  predicate TurnsAgent(s: Step, key: AgentKey) {
    ((s.SStartAgent? || s.SEndAgent?) && s.key == key) || (s.SCleanup? && s.invocationID == key.invocationID)
  }

  predicate StartedAgentAt(steps: seq<Step>, key: AgentKey, i: nat, n: nat)
    requires n <= |steps|
  {
    && i < n && steps[i].SStartAgent? && steps[i].key == key
    && forall j | i < j < n :: !TurnsAgent(steps[j], key)
  }

  // A live agent has the name and the time of the last start of its key.
  lemma {:induction false} AgentHistory(steps: seq<Step>, key: AgentKey, n: nat) returns (i: nat)
    requires n <= |steps| && key in At(EMPTY, steps, n).agents
    ensures StartedAgentAt(steps, key, i, n)
    ensures var st := At(EMPTY, steps, n).agents[key]; st.key == key && st.name == steps[i].name && st.start == steps[i].now
  {
    var s := steps[n - 1];
    if s.SStartAgent? && s.key == key {
      i := n - 1;
    } else {
      RunKeepsConsistent(EMPTY, steps, n - 1);
      AgentStep(At(EMPTY, steps, n - 1), s, key);
      i := AgentHistory(steps, key, n - 1);
    }
  }

  // How a step changes what matters here of an agent that stays.
  predicate SameAgent(st: AgentRecord, st': AgentRecord) {
    st'.key == st.key && st'.name == st.name && st'.start == st.start
  }

  lemma AgentStep(r: Reg, s: Step, key: AgentKey)
    requires AgentsConsistent(r.agents) && key in Apply(r, s).0.agents && !(s.SStartAgent? && s.key == key)
    ensures key in r.agents && !TurnsAgent(s, key) && SameAgent(r.agents[key], Apply(r, s).0.agents[key])
  {
    if s.SStartAgent? || s.SEndAgent? || s.SCleanup? {
      AgentLifecycle(r, s, key);
    }
  }

  lemma AgentLifecycle(r: Reg, s: Step, key: AgentKey)
    requires s.SStartAgent? || s.SEndAgent? || s.SCleanup?
    requires AgentsConsistent(r.agents) && key in Apply(r, s).0.agents && !(s.SStartAgent? && s.key == key)
    ensures key in r.agents && !TurnsAgent(s, key) && r.agents[key] == Apply(r, s).0.agents[key]
  {
  }

  lemma {:induction false} AgentStays(steps: seq<Step>, key: AgentKey, i: nat, n: nat)
    requires n <= |steps| && StartedAgentAt(steps, key, i, n)
    ensures key in At(EMPTY, steps, n).agents
  {
    if i < n - 1 {
      AgentStays(steps, key, i, n - 1);
      assert !TurnsAgent(steps[n - 1], key);
      AgentLeft(At(EMPTY, steps, n - 1), steps[n - 1], key);
    }
  }

  lemma AgentLeft(r: Reg, s: Step, key: AgentKey)
    requires key in r.agents && !TurnsAgent(s, key)
    ensures key in Apply(r, s).0.agents
  {
  }

  // An agent is live exactly if it was started and neither ended nor cleaned
  // up since.
  lemma AgentLiveIff(steps: seq<Step>, key: AgentKey, n: nat)
    requires n <= |steps|
    ensures key in At(EMPTY, steps, n).agents <==> exists i :: StartedAgentAt(steps, key, i, n)
  {
    if key in At(EMPTY, steps, n).agents {
      var i := AgentHistory(steps, key, n);
    }
    forall i | StartedAgentAt(steps, key, i, n) ensures key in At(EMPTY, steps, n).agents {
      AgentStays(steps, key, i, n);
    }
  }

  // ---- Tools ----

  predicate TurnsTool(s: Step, span: ToolKey, invocationID: string) {
    ((s.SStartTool? || s.SEndTool?) && s.span == span) || (s.SCleanup? && s.invocationID == invocationID)
  }

  predicate StartedToolAt(steps: seq<Step>, span: ToolKey, i: nat, n: nat)
    requires n <= |steps|
  {
    && i < n && steps[i].SStartTool? && steps[i].span == span
    && forall j | i < j < n :: !TurnsTool(steps[j], span, steps[i].invocationID)
  }

  // The arguments last stored under the span between these steps.
  function ArgumentsIn(steps: seq<Step>, span: ToolKey, lo: nat, hi: nat): ProjectedContent
    requires lo <= hi <= |steps|
  {
    if lo == hi then NoContent
    else if steps[hi - 1].SSetArguments? && steps[hi - 1].span == span then steps[hi - 1].args
    else ArgumentsIn(steps, span, lo, hi - 1)
  }

  // The tool state is what that start filed, with the arguments stored since.
  predicate ToolAsStarted(st: ToolRecord, steps: seq<Step>, span: ToolKey, i: nat, n: nat)
    requires n <= |steps| && StartedToolAt(steps, span, i, n)
  {
    && st.key == span && st.agentKey == steps[i].key && st.invocationID == steps[i].invocationID
    && st.name == steps[i].name && st.start == steps[i].now
    && st.arguments == ArgumentsIn(steps, span, i + 1, n)
  }

  lemma {:induction false} ToolHistory(steps: seq<Step>, span: ToolKey, n: nat) returns (i: nat)
    requires n <= |steps| && span in At(EMPTY, steps, n).tools
    ensures StartedToolAt(steps, span, i, n) && ToolAsStarted(At(EMPTY, steps, n).tools[span], steps, span, i, n)
  {
    var s := steps[n - 1];
    RunKeepsConsistent(EMPTY, steps, n - 1);
    RunKeepsConsistent(EMPTY, steps, n);
    if s.SStartTool? && s.span == span {
      i := n - 1;
    } else {
      ToolStep(At(EMPTY, steps, n - 1), s, span);
      i := ToolHistory(steps, span, n - 1);
    }
  }

  lemma ToolStep(r: Reg, s: Step, span: ToolKey)
    requires ToolsConsistent(r.tools) && span in Apply(r, s).0.tools && !(s.SStartTool? && s.span == span)
    ensures span in r.tools && !TurnsTool(s, span, r.tools[span].invocationID)
    ensures Apply(r, s).0.tools[span] ==
            if s.SSetArguments? && s.span == span then r.tools[span].(arguments := s.args) else r.tools[span]
  {
  }

  lemma {:induction false} ToolStays(steps: seq<Step>, span: ToolKey, i: nat, n: nat)
    requires n <= |steps| && StartedToolAt(steps, span, i, n) && span.IsValid()
    ensures span in At(EMPTY, steps, n).tools && At(EMPTY, steps, n).tools[span].invocationID == steps[i].invocationID
  {
    if i < n - 1 {
      ToolStays(steps, span, i, n - 1);
      ToolLeft(At(EMPTY, steps, n - 1), steps[n - 1], span);
    }
  }

  lemma ToolLeft(r: Reg, s: Step, span: ToolKey)
    requires span in r.tools && !TurnsTool(s, span, r.tools[span].invocationID)
    ensures span in Apply(r, s).0.tools && Apply(r, s).0.tools[span].invocationID == r.tools[span].invocationID
  {
  }

  lemma ToolLiveIff(steps: seq<Step>, span: ToolKey, n: nat)
    requires n <= |steps| && span.IsValid()
    ensures span in At(EMPTY, steps, n).tools <==> exists i :: StartedToolAt(steps, span, i, n)
  {
    if span in At(EMPTY, steps, n).tools {
      var i := ToolHistory(steps, span, n);
    }
    forall i | StartedToolAt(steps, span, i, n) ensures span in At(EMPTY, steps, n).tools {
      ToolStays(steps, span, i, n);
    }
  }

  // ---- Models ----

  predicate TurnsModel(s: Step, key: AgentKey) {
    (s.SEndModel? && s.key == key) || (s.SCleanup? && s.invocationID == key.invocationID)
  }

  // A start in between was refused.
  predicate StartedModelAt(steps: seq<Step>, key: AgentKey, i: nat, n: nat)
    requires n <= |steps|
  {
    && i < n && steps[i].SStartModel? && steps[i].key == key && !Active(At(EMPTY, steps, i), key)
    && forall j | i < j < n :: !TurnsModel(steps[j], key)
  }

  function UsageIn(steps: seq<Step>, key: AgentKey, lo: nat, hi: nat): Usage
    requires lo <= hi <= |steps|
  {
    if lo == hi then NO_USAGE
    else if steps[hi - 1].SUpdateUsage? && steps[hi - 1].key == key then steps[hi - 1].usage
    else UsageIn(steps, key, lo, hi - 1)
  }

  predicate StreamedIn(steps: seq<Step>, key: AgentKey, lo: nat, hi: nat)
    requires lo <= hi <= |steps|
  {
    exists j | lo <= j < hi :: steps[j].SUpdateUsage? && steps[j].key == key && steps[j].streaming
  }

  function RequestIn(steps: seq<Step>, key: AgentKey, lo: nat, hi: nat): (string, ProjectedContent, ProjectedContent)
    requires lo <= hi <= |steps|
  {
    if lo == hi then ("", NoContent, NoContent)
    else if steps[hi - 1].SUpdateRequest? && steps[hi - 1].key == key then
      (steps[hi - 1].provider, steps[hi - 1].sys, steps[hi - 1].input)
    else RequestIn(steps, key, lo, hi - 1)
  }

  // The model state is what that start filed, with the last request and the
  // last usage written by key since, streaming if any of them said so.
  ghost predicate ModelAsStarted(st: ModelRecord, steps: seq<Step>, key: AgentKey, i: nat, n: nat)
    requires n <= |steps| && StartedModelAt(steps, key, i, n)
  {
    && st.agentKey == key && st.model == steps[i].model && st.start == steps[i].now
    && st.usage == UsageIn(steps, key, i + 1, n) && (st.streaming <==> StreamedIn(steps, key, i + 1, n))
    && (st.provider, st.systemInstructions, st.inputMessages) == RequestIn(steps, key, i + 1, n)
  }

  lemma {:induction false} ModelHistory(steps: seq<Step>, key: AgentKey, n: nat) returns (i: nat)
    requires n <= |steps| && key in At(EMPTY, steps, n).models
    ensures StartedModelAt(steps, key, i, n) && ModelAsStarted(At(EMPTY, steps, n).models[key], steps, key, i, n)
  {
    var s := steps[n - 1];
    var before := At(EMPTY, steps, n - 1);
    RunKeepsConsistent(EMPTY, steps, n - 1);
    if s.SStartModel? && s.key == key && !Active(before, key) {
      i := n - 1;
    } else {
      ModelStep(before, s, key);
      i := ModelHistory(steps, key, n - 1);
      ModelGrows(before.models[key], steps, key, i, n);
    }
  }

  // What one step does to a model that stays.
  function Updated(st: ModelRecord, s: Step, key: AgentKey): ModelRecord {
    if s.SUpdateUsage? && s.key == key then st.(usage := s.usage, streaming := st.streaming || s.streaming)
    else if s.SUpdateRequest? && s.key == key then st.(provider := s.provider, systemInstructions := s.sys, inputMessages := s.input)
    else st
  }

  lemma ModelStep(r: Reg, s: Step, key: AgentKey)
    requires ModelsConsistent(r) && key in Apply(r, s).0.models && !(s.SStartModel? && s.key == key && !Active(r, key))
    ensures key in r.models && !TurnsModel(s, key) && Apply(r, s).0.models[key] == Updated(r.models[key], s, key)
  {
    if s.SStartModel? || s.SEndModel? || s.SCleanup? {
      ModelLifecycle(r, s, key);
    } else if s.SUpdateRequest? || s.SUpdateUsage? {
      ModelUpdate(r, s, key);
    } else {
      assert Apply(r, s).0.models == r.models;
    }
  }

  lemma ModelLifecycle(r: Reg, s: Step, key: AgentKey)
    requires s.SStartModel? || s.SEndModel? || s.SCleanup?
    requires ModelsConsistent(r) && key in Apply(r, s).0.models && !(s.SStartModel? && s.key == key && !Active(r, key))
    ensures key in r.models && !TurnsModel(s, key) && Apply(r, s).0.models[key] == r.models[key]
  {
  }

  lemma ModelUpdate(r: Reg, s: Step, key: AgentKey)
    requires s.SUpdateRequest? || s.SUpdateUsage?
    requires ModelsConsistent(r) && key in Apply(r, s).0.models
    ensures key in r.models && Apply(r, s).0.models[key] == Updated(r.models[key], s, key)
  {
  }

  lemma ModelGrows(st: ModelRecord, steps: seq<Step>, key: AgentKey, i: nat, n: nat)
    requires 0 < n <= |steps| && StartedModelAt(steps, key, i, n - 1) && ModelAsStarted(st, steps, key, i, n - 1)
    requires !TurnsModel(steps[n - 1], key)
    ensures StartedModelAt(steps, key, i, n) && ModelAsStarted(Updated(st, steps[n - 1], key), steps, key, i, n)
  {
    var s := steps[n - 1];
    if s.SUpdateUsage? && s.key == key && s.streaming {
      assert StreamedIn(steps, key, i + 1, n);
    }
    if StreamedIn(steps, key, i + 1, n - 1) {
      var j :| i + 1 <= j < n - 1 && steps[j].SUpdateUsage? && steps[j].key == key && steps[j].streaming;
      assert StreamedIn(steps, key, i + 1, n);
    }
  }

  lemma {:induction false} ModelStays(steps: seq<Step>, key: AgentKey, i: nat, n: nat)
    requires n <= |steps| && StartedModelAt(steps, key, i, n)
    ensures key in At(EMPTY, steps, n).models
  {
    if i < n - 1 {
      ModelStays(steps, key, i, n - 1);
      ModelLeft(At(EMPTY, steps, n - 1), steps[n - 1], key);
    }
  }

  lemma ModelLeft(r: Reg, s: Step, key: AgentKey)
    requires key in r.models && !TurnsModel(s, key)
    ensures key in Apply(r, s).0.models
  {
  }

  lemma ModelLiveIff(steps: seq<Step>, key: AgentKey, n: nat)
    requires n <= |steps|
    ensures key in At(EMPTY, steps, n).models <==> exists i :: StartedModelAt(steps, key, i, n)
  {
    if key in At(EMPTY, steps, n).models {
      var i := ModelHistory(steps, key, n);
    }
    forall i | StartedModelAt(steps, key, i, n) ensures key in At(EMPTY, steps, n).models {
      ModelStays(steps, key, i, n);
    }
  }
}
