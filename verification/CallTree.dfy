// Counting inference and tool calls against the nearest enclosing agent.
// Contexts are persistent chains; an agent pushes its observer, the MCP
// server boundary shadows it, and a start counts against what it can see.
module CallTree {
  import opened Sequences

  // ---- What a program does ----

  // A call tree. The body of a node runs with the context the node hands on,
  // in any order and interleaved with anything else.
  datatype Node =
    | Agent(body: seq<Node>)
    | Inference(operation: string, model: string, body: seq<Node>)
    | Tool(body: seq<Node>)
    | Server(rpc: string, body: seq<Node>)
    | Client(rpc: string, body: seq<Node>)

  datatype CallKind = InferenceCall | ToolCall

  const TOOLS_CALL := "tools/call"
  const RESOURCES_READ := "resources/read"
  const PROMPTS_GET := "prompts/get"

  predicate IsInstrumented(m: string) {
    m == TOOLS_CALL || m == RESOURCES_READ || m == PROMPTS_GET
  }

  // ---- Whose calls they are ----

  // The node is itself a recorded start of this kind. Nothing is recorded
  // when instrumentation is off.
  predicate IsStart(on: bool, k: CallKind, n: Node) {
    on && match n
          case Agent(_) => false
          case Inference(operation, model, _) => k.InferenceCall? && operation != "" && model != ""
          case Tool(_) => k.ToolCall?
          case Server(m, _) => k.ToolCall? && m == TOOLS_CALL
          case Client(m, _) => k.ToolCall? && m == TOOLS_CALL
  }

  // The node is a boundary that hides the agents around it.
  predicate IsBoundary(n: Node) {
    n.Server? && IsInstrumented(n.rpc)
  }

  predicate IsAgent(on: bool, n: Node) {
    on && n.Agent?
  }

  // The starts in the tree whose nearest enclosing agent is the one around
  // it, with no boundary in between.
  function Direct(on: bool, k: CallKind, n: Node): nat {
    Bit(IsStart(on, k, n) && !IsBoundary(n)) + if IsAgent(on, n) || IsBoundary(n) then 0 else DirectAll(on, k, n.body)
  }

  function DirectAll(on: bool, k: CallKind, ns: seq<Node>): nat {
    if ns == [] then 0 else Direct(on, k, ns[0]) + DirectAll(on, k, ns[1..])
  }

  // The starts in the tree that no agent is charged with, if the tree itself
  // is (not) below an agent.
  function Unattributed(on: bool, k: CallKind, n: Node, below: bool): nat {
    Bit(IsStart(on, k, n) && (IsBoundary(n) || !below))
    + UnattributedAll(on, k, n.body, IsAgent(on, n) || (below && !IsBoundary(n)))
  }

  function UnattributedAll(on: bool, k: CallKind, ns: seq<Node>, below: bool): nat {
    if ns == [] then 0 else Unattributed(on, k, ns[0], below) + UnattributedAll(on, k, ns[1..], below)
  }

  // All starts in the tree.
  function Starts(on: bool, k: CallKind, n: Node): nat {
    Bit(IsStart(on, k, n)) + StartsAll(on, k, n.body)
  }

  function StartsAll(on: bool, k: CallKind, ns: seq<Node>): nat {
    if ns == [] then 0 else Starts(on, k, ns[0]) + StartsAll(on, k, ns[1..])
  }

  // A weight of their bodies, summed over the agents in the tree.
  function OverAgents(on: bool, w: seq<Node> -> nat, n: Node): nat {
    (if IsAgent(on, n) then w(n.body) else 0) + OverAgentsAll(on, w, n.body)
  }

  function OverAgentsAll(on: bool, w: seq<Node> -> nat, ns: seq<Node>): nat {
    if ns == [] then 0 else OverAgents(on, w, ns[0]) + OverAgentsAll(on, w, ns[1..])
  }

  function OwnCalls(on: bool, k: CallKind): seq<Node> -> nat {
    (body: seq<Node>) => DirectAll(on, k, body)
  }

  // Every start belongs to exactly one agent in the tree, to the agent around
  // it, or to nobody.
  lemma {:induction false} StartsAreAttributed(on: bool, k: CallKind, n: Node, below: bool)
    ensures Starts(on, k, n) ==
            OverAgents(on, OwnCalls(on, k), n) + (if below then Direct(on, k, n) else 0) + Unattributed(on, k, n, below)
  {
    StartsAreAttributedAll(on, k, n.body, IsAgent(on, n) || (below && !IsBoundary(n)));
  }

  lemma {:induction false} StartsAreAttributedAll(on: bool, k: CallKind, ns: seq<Node>, below: bool)
    ensures StartsAll(on, k, ns) ==
            OverAgentsAll(on, OwnCalls(on, k), ns) + (if below then DirectAll(on, k, ns) else 0) + UnattributedAll(on, k, ns, below)
  {
    if ns == [] {
    } else {
      StartsAreAttributed(on, k, ns[0], below);
      StartsAreAttributedAll(on, k, ns[1..], below);
    }
  }

  // ---- The program's objects ----

  class AgentOperation {
    var inferenceCalls: nat
    var toolCalls: nat

    constructor ()
      ensures inferenceCalls == 0 && toolCalls == 0
    {
      inferenceCalls, toolCalls := 0, 0;
    }

    function Calls(k: CallKind): nat
      reads this
    {
      if k.InferenceCall? then inferenceCalls else toolCalls
    }
  }

  // What is stored under the agent key, the operation key and any other key.
  datatype Value = Observer(op: AgentOperation?) | InferenceOp | SpanContext

  datatype Context = Background | WithValue(parent: Context, value: Value)

  // agentObserverFromContext
  function Visible(ctx: Context): AgentOperation? {
    match ctx
    case Background => null
    case WithValue(parent, value) => if value.Observer? then value.op else Visible(parent)
  }

  class Instrumenter {
    const disabled: bool

    method StartAgent(ctx: Context) returns (ctx': Context, op: AgentOperation?)
      ensures disabled ==> ctx' == ctx && op == null
      ensures !disabled ==> op != null && fresh(op) && op.inferenceCalls == 0 && op.toolCalls == 0 && Visible(ctx') == op
    {
      if disabled {
        return ctx, null;
      }
      op := new AgentOperation();
      ctx' := WithValue(WithValue(ctx, SpanContext), Observer(op));
    }

    method StartInference(ctx: Context, operation: string, model: string) returns (ctx': Context, recorded: bool)
      modifies Visible(ctx)
      ensures Visible(ctx') == Visible(ctx)
      ensures recorded == (!disabled && operation != "" && model != "")
      ensures Visible(ctx) != null ==>
                && Visible(ctx).inferenceCalls == old(Visible(ctx).inferenceCalls) + Bit(recorded)
                && Visible(ctx).toolCalls == old(Visible(ctx).toolCalls)
    {
      if disabled || operation == "" || model == "" {
        return ctx, false;
      }
      ctx' := WithValue(ctx, SpanContext);
      var obs := Visible(ctx');
      ctx' := WithValue(ctx', InferenceOp);
      if obs != null {
        obs.inferenceCalls := obs.inferenceCalls + 1;
      }
      recorded := true;
    }

    method StartTool(ctx: Context) returns (ctx': Context, recorded: bool)
      modifies Visible(ctx)
      ensures Visible(ctx') == Visible(ctx)
      ensures recorded == !disabled
      ensures Visible(ctx) != null ==>
                && Visible(ctx).toolCalls == old(Visible(ctx).toolCalls) + Bit(recorded)
                && Visible(ctx).inferenceCalls == old(Visible(ctx).inferenceCalls)
    {
      if disabled {
        return ctx, false;
      }
      var obs := Visible(ctx);
      if obs != null {
        obs.toolCalls := obs.toolCalls + 1;
      }
      ctx' := WithValue(ctx, SpanContext);
      recorded := true;
    }

    method StartOperation(ctx: Context, rpc: string) returns (ctx': Context, recorded: bool)
      modifies Visible(ctx)
      ensures Visible(ctx') == Visible(ctx)
      ensures recorded == (!disabled && rpc == TOOLS_CALL)
      ensures Visible(ctx) != null ==>
                && Visible(ctx).toolCalls == old(Visible(ctx).toolCalls) + Bit(recorded)
                && Visible(ctx).inferenceCalls == old(Visible(ctx).inferenceCalls)
    {
      if rpc == TOOLS_CALL {
        ctx', recorded := StartTool(ctx);
      } else {
        ctx', recorded := if disabled then ctx else WithValue(ctx, SpanContext), false;
      }
    }

    // What the server middleware does before it hands on to the handler.
    method EnterServer(ctx: Context, rpc: string) returns (ctx': Context, recorded: bool)
      ensures Visible(ctx') == if IsInstrumented(rpc) then null else Visible(ctx)
      ensures recorded == (!disabled && rpc == TOOLS_CALL)
    {
      if !IsInstrumented(rpc) {
        return ctx, false;
      }
      ctx' := WithValue(ctx, SpanContext);
      ctx' := WithoutAgentObserver(ctx');
      ctx', recorded := StartOperation(ctx', rpc);
    }

    method EnterClient(ctx: Context, rpc: string) returns (ctx': Context, recorded: bool)
      modifies Visible(ctx)
      ensures Visible(ctx') == Visible(ctx)
      ensures recorded == (!disabled && rpc == TOOLS_CALL)
      ensures Visible(ctx) != null ==>
                && Visible(ctx).toolCalls == old(Visible(ctx).toolCalls) + Bit(recorded)
                && Visible(ctx).inferenceCalls == old(Visible(ctx).inferenceCalls)
    {
      if !IsInstrumented(rpc) {
        return ctx, false;
      }
      ctx', recorded := StartOperation(ctx, rpc);
    }
  }

  method WithoutAgentObserver(ctx: Context) returns (ctx': Context)
    ensures Visible(ctx') == null
    ensures Visible(ctx) == null ==> ctx' == ctx
    ensures Visible(ctx) != null ==> ctx' == WithValue(ctx, Observer(null))
  {
    if Visible(ctx) == null {
      return ctx;
    }
    ctx' := WithValue(ctx, Observer(null));
  }

  // ---- Running a program ----

  // A node about to start, with the context it starts in.
  datatype Job = Job(ctx: Context, node: Node)

  function Jobs(ctx: Context, ns: seq<Node>): (ts: seq<Job>)
    ensures |ts| == |ns| && forall i | 0 <= i < |ts| :: ts[i] == Job(ctx, ns[i])
  {
    seq(|ns|, i requires 0 <= i < |ns| => Job(ctx, ns[i]))
  }

  // What the jobs will still charge this agent with, all they will start,
  // and the agents among it.
  function Pending(on: bool, k: CallKind, a: AgentOperation?): Job -> nat {
    (t: Job) => if Visible(t.ctx) == a then Direct(on, k, t.node) else 0
  }

  function Coming(on: bool, k: CallKind): Job -> nat {
    (t: Job) => Starts(on, k, t.node)
  }

  function Within(on: bool, w: seq<Node> -> nat): Job -> nat {
    (t: Job) => OverAgents(on, w, t.node)
  }

  function Size(n: Node): nat {
    1 + SizeAll(n.body)
  }

  function SizeAll(ns: seq<Node>): nat {
    if ns == [] then 0 else Size(ns[0]) + SizeAll(ns[1..])
  }

  function JobSize(): Job -> nat {
    (t: Job) => Size(t.node)
  }

  lemma {:induction false} SumJobs(on: bool, k: CallKind, a: AgentOperation?, w: seq<Node> -> nat, ctx: Context, ns: seq<Node>)
    ensures Sum(Jobs(ctx, ns), Pending(on, k, a)) == if Visible(ctx) == a then DirectAll(on, k, ns) else 0
    ensures Sum(Jobs(ctx, ns), Within(on, w)) == OverAgentsAll(on, w, ns)
  {
    if ns == [] {
    } else {
      var first, rest := [Job(ctx, ns[0])], Jobs(ctx, ns[1..]);
      assert Jobs(ctx, ns) == first + rest;
      SumJobs(on, k, a, w, ctx, ns[1..]);
      SumAppend(first, rest, Pending(on, k, a));
      SumAppend(first, rest, Within(on, w));
      SumFew(first, Pending(on, k, a));
      SumFew(first, Within(on, w));
    }
  }

  lemma {:induction false} SumStarts(on: bool, k: CallKind, ctx: Context, ns: seq<Node>)
    ensures Sum(Jobs(ctx, ns), Coming(on, k)) == StartsAll(on, k, ns)
  {
    if ns == [] {
    } else {
      var first, rest := [Job(ctx, ns[0])], Jobs(ctx, ns[1..]);
      assert Jobs(ctx, ns) == first + rest;
      SumStarts(on, k, ctx, ns[1..]);
      SumAppend(first, rest, Coming(on, k));
      SumFew(first, Coming(on, k));
    }
  }

  lemma {:induction false} SumSizes(ctx: Context, ns: seq<Node>)
    ensures Sum(Jobs(ctx, ns), JobSize()) == SizeAll(ns)
  {
    if ns == [] {
    } else {
      var first, rest := [Job(ctx, ns[0])], Jobs(ctx, ns[1..]);
      assert Jobs(ctx, ns) == first + rest;
      SumSizes(ctx, ns[1..]);
      SumAppend(first, rest, JobSize());
      SumFew(first, JobSize());
    }
  }

  // The start of one node.
  method Enter(instr: Instrumenter, ctx: Context, n: Node) returns (ctx': Context, op: AgentOperation?, recorded: bool)
    modifies Visible(ctx)
    ensures recorded == (IsStart(!instr.disabled, InferenceCall, n) || IsStart(!instr.disabled, ToolCall, n))
    ensures IsAgent(!instr.disabled, n) ==> op != null && fresh(op) && op.inferenceCalls == op.toolCalls == 0 && Visible(ctx') == op
    ensures !IsAgent(!instr.disabled, n) ==> op == null && Visible(ctx') == if IsBoundary(n) then null else Visible(ctx)
    ensures Visible(ctx) != null ==>
              && Visible(ctx).inferenceCalls ==
                 old(Visible(ctx).inferenceCalls) + Bit(IsStart(!instr.disabled, InferenceCall, n) && !IsBoundary(n))
              && Visible(ctx).toolCalls == old(Visible(ctx).toolCalls) + Bit(IsStart(!instr.disabled, ToolCall, n) && !IsBoundary(n))
  {
    ghost var obs := Visible(ctx);
    assert obs == null || allocated(obs);
    op, recorded := null, false;
    match n
    case Agent(_) => ctx', op := instr.StartAgent(ctx);
    case Inference(operation, model, _) => ctx', recorded := instr.StartInference(ctx, operation, model);
    case Tool(_) => ctx', recorded := instr.StartTool(ctx);
    case Server(rpc, _) => ctx', recorded := instr.EnterServer(ctx, rpc);
    case Client(rpc, _) => ctx', recorded := instr.EnterClient(ctx, rpc);
  }

  // Job i has started; its body takes its place.
  function Advanced(jobs: seq<Job>, i: nat, ctx': Context): seq<Job>
    requires i < |jobs|
  {
    jobs[..i] + jobs[i + 1..] + Jobs(ctx', jobs[i].node.body)
  }

  lemma SumAdvanced(jobs: seq<Job>, i: nat, ctx': Context, w: Job -> nat)
    requires i < |jobs|
    ensures Sum(Advanced(jobs, i, ctx'), w) + w(jobs[i]) == Sum(jobs, w) + Sum(Jobs(ctx', jobs[i].node.body), w)
  {
    SumAppend(jobs[..i] + jobs[i + 1..], Jobs(ctx', jobs[i].node.body), w);
    SumRemove(jobs, i, w);
  }

  lemma OwedAdvanced(on: bool, k: CallKind, a: AgentOperation, jobs: seq<Job>, i: nat, ctx': Context)
    requires i < |jobs|
    requires !IsAgent(on, jobs[i].node) ==> Visible(ctx') == if IsBoundary(jobs[i].node) then null else Visible(jobs[i].ctx)
    requires IsAgent(on, jobs[i].node) ==> Visible(ctx') != a
    ensures Sum(Advanced(jobs, i, ctx'), Pending(on, k, a))
            + Bit(Visible(jobs[i].ctx) == a && IsStart(on, k, jobs[i].node) && !IsBoundary(jobs[i].node))
            == Sum(jobs, Pending(on, k, a))
  {
    SumAdvanced(jobs, i, ctx', Pending(on, k, a));
    SumJobs(on, k, a, _ => 0, ctx', jobs[i].node.body);
  }

  lemma ComingAdvanced(on: bool, k: CallKind, jobs: seq<Job>, i: nat, ctx': Context)
    requires i < |jobs|
    ensures Sum(Advanced(jobs, i, ctx'), Coming(on, k)) + Bit(IsStart(on, k, jobs[i].node)) == Sum(jobs, Coming(on, k))
  {
    SumAdvanced(jobs, i, ctx', Coming(on, k));
    SumStarts(on, k, ctx', jobs[i].node.body);
    assert Coming(on, k)(jobs[i]) == Bit(IsStart(on, k, jobs[i].node)) + StartsAll(on, k, jobs[i].node.body);
  }

  lemma WithinAdvanced(on: bool, w: seq<Node> -> nat, jobs: seq<Job>, i: nat, ctx': Context)
    requires i < |jobs|
    ensures Sum(Advanced(jobs, i, ctx'), Within(on, w)) + (if IsAgent(on, jobs[i].node) then w(jobs[i].node.body) else 0)
            == Sum(jobs, Within(on, w))
  {
    SumAdvanced(jobs, i, ctx', Within(on, w));
    SumJobs(on, InferenceCall, null, w, ctx', jobs[i].node.body);
  }

  lemma SizeAdvanced(jobs: seq<Job>, i: nat, ctx': Context)
    requires i < |jobs|
    ensures Sum(Advanced(jobs, i, ctx'), JobSize()) < Sum(jobs, JobSize())
  {
    SumAdvanced(jobs, i, ctx', JobSize());
    SumSizes(ctx', jobs[i].node.body);
    assert JobSize()(jobs[i]) == 1 + SizeAll(jobs[i].node.body);
  }

  function TotalCalls(ops: seq<AgentOperation>, k: CallKind): nat
    reads ops
  {
    if ops == [] then 0 else TotalCalls(ops[..|ops| - 1], k) + ops[|ops| - 1].Calls(k)
  }

  lemma {:induction false} TotalIsSum(on: bool, k: CallKind, ops: seq<AgentOperation>, bodies: seq<seq<Node>>)
    requires |ops| == |bodies| && forall i | 0 <= i < |ops| :: ops[i].Calls(k) == DirectAll(on, k, bodies[i])
    ensures TotalCalls(ops, k) == Sum(bodies, OwnCalls(on, k))
  {
    if ops == [] {
    } else {
      TotalIsSum(on, k, ops[..|ops| - 1], bodies[..|ops| - 1]);
    }
  }

  // The agents started so far and those still to come are those of the tree.
  ghost predicate SameAgents(on: bool, roots: seq<Node>, bodies: seq<seq<Node>>, jobs: seq<Job>) {
    forall w: seq<Node> -> nat :: Sum(bodies, w) + Sum(jobs, Within(on, w)) == OverAgentsAll(on, w, roots)
  }

  lemma SameAgentsAdvanced(on: bool, roots: seq<Node>, bodies: seq<seq<Node>>, jobs: seq<Job>, i: nat, ctx': Context)
    requires i < |jobs| && SameAgents(on, roots, bodies, jobs)
    ensures SameAgents(on, roots, if IsAgent(on, jobs[i].node) then bodies + [jobs[i].node.body] else bodies, Advanced(jobs, i, ctx'))
  {
    forall w: seq<Node> -> nat
      ensures Sum(if IsAgent(on, jobs[i].node) then bodies + [jobs[i].node.body] else bodies, w)
              + Sum(Advanced(jobs, i, ctx'), Within(on, w)) == OverAgentsAll(on, w, roots)
    {
      WithinAdvanced(on, w, jobs, i, ctx');
      assert Sum(bodies, w) + Sum(jobs, Within(on, w)) == OverAgentsAll(on, w, roots);
      SumAppend(bodies, [jobs[i].node.body], w);
      SumFew([jobs[i].node.body], w);
    }
  }

  lemma AgentsAtFirst(on: bool, roots: seq<Node>, ctx: Context)
    ensures SameAgents(on, roots, [], Jobs(ctx, roots))
  {
    forall w: seq<Node> -> nat ensures Sum([], w) + Sum(Jobs(ctx, roots), Within(on, w)) == OverAgentsAll(on, w, roots) {
      SumJobs(on, InferenceCall, null, w, ctx, roots);
    }
  }

  lemma AgentsAtLast(on: bool, roots: seq<Node>, bodies: seq<seq<Node>>)
    requires SameAgents(on, roots, bodies, [])
    ensures forall w: seq<Node> -> nat :: Sum(bodies, w) == OverAgentsAll(on, w, roots)
  {
    forall w: seq<Node> -> nat ensures Sum(bodies, w) == OverAgentsAll(on, w, roots) {
      assert Sum(bodies, w) + Sum([], Within(on, w)) == OverAgentsAll(on, w, roots);
    }
  }

  lemma Progress(on: bool, k: CallKind, jobs: seq<Job>, i: nat, ctx': Context)
    requires i < |jobs|
    ensures Sum(Advanced(jobs, i, ctx'), JobSize()) < Sum(jobs, JobSize())
    ensures Sum(Advanced(jobs, i, ctx'), Coming(on, k)) + Bit(IsStart(on, k, jobs[i].node)) == Sum(jobs, Coming(on, k))
    ensures forall t <- Advanced(jobs, i, ctx') :: t in jobs || t.ctx == ctx'
  {
    SizeAdvanced(jobs, i, ctx');
    ComingAdvanced(on, k, jobs, i, ctx');
  }

  // An agent just started is owed what is directly below it.
  lemma NewAgentOwed(on: bool, k: CallKind, op: AgentOperation, jobs: seq<Job>, i: nat, ctx': Context)
    requires i < |jobs| && Visible(ctx') == op && forall t <- jobs :: Visible(t.ctx) != op
    ensures Sum(Advanced(jobs, i, ctx'), Pending(on, k, op)) == DirectAll(on, k, jobs[i].node.body)
  {
    SumAdvanced(jobs, i, ctx', Pending(on, k, op));
    SumJobs(on, k, op, _ => 0, ctx', jobs[i].node.body);
    SumZero(jobs, Pending(on, k, op));
  }

  // Each agent's counter and what the jobs still owe it are its due.
  ghost predicate Owed(on: bool, k: CallKind, jobs: seq<Job>, a: AgentOperation, due: nat)
    reads a
  {
    a.Calls(k) + Sum(jobs, Pending(on, k, a)) == due
  }

  // The jobs can only see agents of this run and the one around it.
  ghost predicate SeesOnly(jobs: seq<Job>, outer: AgentOperation?, ops: seq<AgentOperation>) {
    forall t <- jobs :: Visible(t.ctx) == null || Visible(t.ctx) == outer || Visible(t.ctx) in ops
  }

  ghost predicate AllOwed(on: bool, k: CallKind, jobs: seq<Job>, ops: seq<AgentOperation>, bodies: seq<seq<Node>>)
    reads ops
  {
    && |ops| == |bodies| && (forall i, j | 0 <= i < j < |ops| :: ops[i] != ops[j])
    && forall j | 0 <= j < |ops| :: Owed(on, k, jobs, ops[j], DirectAll(on, k, bodies[j]))
  }

  // The start of job i keeps everyone's account.
  method StartJob(instr: Instrumenter, jobs: seq<Job>, i: nat,
                   ghost k: CallKind, ghost outer: AgentOperation?, ghost due: nat, ops: seq<AgentOperation>, ghost bodies: seq<seq<Node>>)
    returns (ctx': Context, op: AgentOperation?, recorded: bool)
    requires i < |jobs| && SeesOnly(jobs, outer, ops) && AllOwed(!instr.disabled, k, jobs, ops, bodies)
    requires outer != null ==> Owed(!instr.disabled, k, jobs, outer, due)
    modifies Visible(jobs[i].ctx)
    ensures recorded == (IsStart(!instr.disabled, InferenceCall, jobs[i].node) || IsStart(!instr.disabled, ToolCall, jobs[i].node))
    ensures (op != null) == IsAgent(!instr.disabled, jobs[i].node)
    ensures op != null ==> fresh(op) && Visible(ctx') == op
    ensures SeesOnly(Advanced(jobs, i, ctx'), outer, if op != null then ops + [op] else ops)
    ensures AllOwed(!instr.disabled, k, Advanced(jobs, i, ctx'), ops, bodies)
    ensures op != null ==> Owed(!instr.disabled, k, Advanced(jobs, i, ctx'), op, DirectAll(!instr.disabled, k, jobs[i].node.body))
    ensures outer != null ==> Owed(!instr.disabled, k, Advanced(jobs, i, ctx'), outer, due)
  {
    ghost var on := !instr.disabled;
    assert outer == null || allocated(outer);
    ctx', op, recorded := Enter(instr, jobs[i].ctx, jobs[i].node);
    Progress(on, k, jobs, i, ctx');
    forall j | 0 <= j < |ops| ensures Owed(on, k, Advanced(jobs, i, ctx'), ops[j], DirectAll(on, k, bodies[j])) {
      OwedAdvanced(on, k, ops[j], jobs, i, ctx');
    }
    if outer != null {
      OwedAdvanced(on, k, outer, jobs, i, ctx');
    }
    if op != null {
      NewAgentOwed(on, k, op, jobs, i, ctx');
    }
  }

  lemma AlsoOwed(on: bool, k: CallKind, jobs: seq<Job>, ops: seq<AgentOperation>, bodies: seq<seq<Node>>,
                 op: AgentOperation, body: seq<Node>)
    requires AllOwed(on, k, jobs, ops, bodies) && op !in ops && Owed(on, k, jobs, op, DirectAll(on, k, body))
    ensures AllOwed(on, k, jobs, ops + [op], bodies + [body])
  {
  }

  // The run so far: what has started, and what is to come.
  ghost predicate Underway(on: bool, k: CallKind, roots: seq<Node>, outer: AgentOperation?, due: nat,
                           jobs: seq<Job>, ops: seq<AgentOperation>, bodies: seq<seq<Node>>, starts: nat)
    reads ops, outer
  {
    && SeesOnly(jobs, outer, ops) && AllOwed(on, k, jobs, ops, bodies)
    && (outer != null ==> Owed(on, k, jobs, outer, due))
    && starts + Sum(jobs, Coming(on, k)) == StartsAll(on, k, roots)
    && SameAgents(on, roots, bodies, jobs)
  }

  // Job i is the next to start.
  method Proceed(instr: Instrumenter, ghost roots: seq<Node>, ghost k: CallKind, ghost outer: AgentOperation?, ghost due: nat,
                 jobs: seq<Job>, i: nat, ops: seq<AgentOperation>, ghost bodies: seq<seq<Node>>, ghost starts: nat)
    returns (jobs': seq<Job>, ops': seq<AgentOperation>, ghost bodies': seq<seq<Node>>, ghost starts': nat)
    requires i < |jobs| && Underway(!instr.disabled, k, roots, outer, due, jobs, ops, bodies, starts)
    modifies Visible(jobs[i].ctx)
    ensures Underway(!instr.disabled, k, roots, outer, due, jobs', ops', bodies', starts')
    ensures forall op <- ops' :: op in ops || fresh(op)
    ensures Sum(jobs', JobSize()) < Sum(jobs, JobSize())
  {
    var t := jobs[i];
    var ctx', op, recorded := StartJob(instr, jobs, i, k, outer, due, ops, bodies);
    Progress(!instr.disabled, k, jobs, i, ctx');
    SameAgentsAdvanced(!instr.disabled, roots, bodies, jobs, i, ctx');
    jobs', ops', bodies' := Advanced(jobs, i, ctx'), ops, bodies;
    starts' := starts + Bit(recorded && t.node.Inference? == k.InferenceCall?);
    if op != null {
      AlsoOwed(!instr.disabled, k, jobs', ops, bodies, op, t.node.body);
      ops', bodies' := ops + [op], bodies + [t.node.body];
    }
  }

  // The program runs: at any time any node whose turn may have come starts.
  method RunJobs(instr: Instrumenter, roots: seq<Node>, ctx: Context, ghost k: CallKind, ghost due: nat)
    returns (ops: seq<AgentOperation>, ghost bodies: seq<seq<Node>>, ghost starts: nat)
    requires Visible(ctx) != null ==> due == Visible(ctx).Calls(k) + DirectAll(!instr.disabled, k, roots)
    modifies Visible(ctx)
    ensures forall op <- ops :: fresh(op)
    ensures Underway(!instr.disabled, k, roots, Visible(ctx), due, [], ops, bodies, starts)
  {
    ghost var on, outer := !instr.disabled, Visible(ctx);
    var jobs := Jobs(ctx, roots);
    ops, bodies, starts := [], [], 0;
    AgentsAtFirst(on, roots, ctx);
    SumStarts(on, k, ctx, roots);
    SumJobs(on, k, outer, _ => 0, ctx, roots);
    while jobs != []
      invariant forall op <- ops :: fresh(op)
      invariant Underway(on, k, roots, outer, due, jobs, ops, bodies, starts)
      decreases Sum(jobs, JobSize())
    {
      var i :| 0 <= i < |jobs|;
      jobs, ops, bodies, starts := Proceed(instr, roots, k, outer, due, jobs, i, ops, bodies, starts);
    }
  }

  // Whatever the order, each agent ends up with exactly the starts directly
  // below it, the agents are those of the tree, and the counters together
  // with the starts nobody is charged with make up all starts recorded.
  method Run(instr: Instrumenter, roots: seq<Node>, ctx: Context, ghost k: CallKind)
    returns (ops: seq<AgentOperation>, ghost bodies: seq<seq<Node>>, ghost starts: nat)
    modifies Visible(ctx)
    ensures |ops| == |bodies| && forall op <- ops :: fresh(op)
    ensures forall i | 0 <= i < |ops| :: ops[i].Calls(k) == DirectAll(!instr.disabled, k, bodies[i])
    ensures forall w: seq<Node> -> nat :: Sum(bodies, w) == OverAgentsAll(!instr.disabled, w, roots)
    ensures Visible(ctx) != null ==>
              Visible(ctx).Calls(k) == old(Visible(ctx).Calls(k)) + DirectAll(!instr.disabled, k, roots)
    ensures starts == StartsAll(!instr.disabled, k, roots)
    ensures starts == TotalCalls(ops, k) + (if Visible(ctx) != null then Visible(ctx).Calls(k) - old(Visible(ctx).Calls(k)) else 0)
                      + UnattributedAll(!instr.disabled, k, roots, Visible(ctx) != null)
  {
    ghost var on := !instr.disabled;
    ghost var due := if Visible(ctx) == null then 0 else Visible(ctx).Calls(k) + DirectAll(on, k, roots);
    ops, bodies, starts := RunJobs(instr, roots, ctx, k, due);
    AgentsAtLast(on, roots, bodies);
    forall i | 0 <= i < |ops| ensures ops[i].Calls(k) == DirectAll(on, k, bodies[i]) {
      assert Owed(on, k, [], ops[i], DirectAll(on, k, bodies[i]));
    }
    TotalIsSum(on, k, ops, bodies);
    StartsAreAttributedAll(on, k, roots, Visible(ctx) != null);
  }
}
