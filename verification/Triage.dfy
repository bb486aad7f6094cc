/** The budgeted triage graph of triage_pipeline.py against any model: the nodes as methods, and the
    runs of the graph they make for every sequence of model answers, failures and cancel signals. */
module Triage {
  import opened Router

  /** One entry of planned_tools; args is the JSON text it carries. */
  datatype Plan = Plan(name: Tool, args: string)

  datatype Call = Call(name: Tool, args: string, id: string)

  datatype Message = Human | AI(calls: seq<Call>) | ToolReply(id: string, name: Tool)

  datatype State = State(
    budget: int,
    toolsCalled: seq<Tool>,
    enrichment: map<Tool, string>,
    messages: seq<Message>,
    toContinue: bool,
    cancelled: bool)

  /** What both providers together come to: nothing, or a structured answer. */
  datatype Thought = Unavailable | Answer(toContinue: bool, plans: seq<Plan>)

  /** A tool call raised, or returned something summarised as summary. */
  datatype Observation = Threw | Saw(summary: string)

  /** What one visit to a node draws from its surroundings. */
  datatype Env = Env(cancel: bool, thought: Thought, ids: nat -> string, observe: nat -> Observation)

  const REACT_TOOLS: set<Tool> := {
    "query_splunk", "query_crowdstrike", "lookup_threat_intel", "query_aws", "query_cmdb", "query_netflow",
    "query_dns_logs", "query_backup_systems"
  }

  function Max(a: int, b: int): int { if a >= b then a else b }

  // ---------- Nodes ----------

  /** The state route_tools and burst_enrichment leave. */
  function AfterBurst(budget: nat, records: seq<Tool>, enrichment: map<Tool, string>): State {
    State(Max(0, budget - |records|), records, enrichment, [Human], false, false)
  }

  function Valid(plans: seq<Plan>): seq<Plan> {
    if plans == [] then []
    else Valid(plans[..|plans| - 1]) + if plans[|plans| - 1].name in REACT_TOOLS then [plans[|plans| - 1]] else []
  }

  function Take<T>(xs: seq<T>, n: int): seq<T> { if n <= 0 then [] else if n <= |xs| then xs[..n] else xs }

  function Calls(plans: seq<Plan>, ids: nat -> string): (r: seq<Call>)
    ensures |r| == |plans|
  {
    seq(|plans|, i requires 0 <= i < |plans| => Call(plans[i].name, plans[i].args, ids(i)))
  }

  /** The calls a thought may make: the known tools it plans, as far as the budget goes. */
  function Planned(s: State, e: Env): seq<Call> {
    if e.thought.Answer? && e.thought.toContinue && s.budget > 0
    then Calls(Take(Valid(e.thought.plans), s.budget), e.ids)
    else []
  }

  function AfterThink(s: State, e: Env): State {
    if e.cancel then s.(cancelled := true, toContinue := false, budget := 0)
    else if e.thought.Unavailable? then s.(messages := s.messages + [AI([])], budget := 0, toContinue := false)
    else s.(messages := s.messages + [AI(Planned(s, e))], toContinue := e.thought.toContinue)
  }

  method AgentThink(s: State, e: Env) returns (s': State)
    ensures s' == AfterThink(s, e)
  {
    if e.cancel {
      return s.(cancelled := true, toContinue := false, budget := 0);
    }
    if e.thought.Unavailable? {
      return s.(messages := s.messages + [AI([])], budget := 0, toContinue := false);
    }
    var plans, valid := e.thought.plans, [];
    for i := 0 to |plans|
      invariant valid == Valid(plans[..i])
    {
      assert plans[..i + 1][..i] == plans[..i];
      if plans[i].name in REACT_TOOLS {
        valid := valid + [plans[i]];
      }
    }
    assert plans[..|plans|] == plans;
    valid := Take(valid, s.budget);
    var canExecute := e.thought.toContinue && s.budget > 0 && |valid| > 0;
    var calls := if canExecute then Calls(valid, e.ids) else [];
    s' := s.(messages := s.messages + [AI(calls)], toContinue := e.thought.toContinue);
  }

  /** The calls of the last message, if it carries any. */
  function LastCalls(s: State): seq<Call> {
    if s.messages != [] && s.messages[|s.messages| - 1].AI? then s.messages[|s.messages| - 1].calls else []
  }

  function Replies(calls: seq<Call>): (r: seq<Message>)
    ensures |r| == |calls|
  {
    seq(|calls|, i requires 0 <= i < |calls| => ToolReply(calls[i].id, calls[i].name))
  }

  function Names(calls: seq<Call>): (r: seq<Tool>)
    ensures |r| == |calls|
  {
    seq(|calls|, i requires 0 <= i < |calls| => calls[i].name)
  }

  /** Later observations of a tool replace earlier ones; a call that raised adds none. */
  function Enriched(m: map<Tool, string>, calls: seq<Call>, observe: nat -> Observation): map<Tool, string> {
    if calls == [] then m
    else
      var n := |calls| - 1;
      var m' := Enriched(m, calls[..n], observe);
      if observe(n).Saw? then m'[calls[n].name := observe(n).summary] else m'
  }

  function AfterExecute(s: State, e: Env): State {
    if e.cancel then s.(cancelled := true, budget := 0)
    else if LastCalls(s) == [] then s.(budget := 0)
    else
      var calls := LastCalls(s);
      s.(messages := s.messages + Replies(calls), budget := s.budget - |calls|,
         toolsCalled := s.toolsCalled + Names(calls), enrichment := Enriched(s.enrichment, calls, e.observe))
  }

  method ExecuteTool(s: State, e: Env) returns (s': State)
    ensures s' == AfterExecute(s, e)
  {
    if e.cancel {
      return s.(cancelled := true, budget := 0);
    }
    var calls := LastCalls(s);
    if calls == [] {
      return s.(budget := 0);
    }
    var messages, enrichment, toolsCalled, executed := s.messages, s.enrichment, s.toolsCalled, 0;
    for i := 0 to |calls|
      invariant messages == s.messages + Replies(calls[..i])
      invariant enrichment == Enriched(s.enrichment, calls[..i], e.observe)
      invariant toolsCalled == s.toolsCalled + Names(calls[..i])
      invariant executed == i
    {
      assert calls[..i + 1][..i] == calls[..i];
      assert Replies(calls[..i + 1]) == Replies(calls[..i]) + [ToolReply(calls[i].id, calls[i].name)];
      assert Names(calls[..i + 1]) == Names(calls[..i]) + [calls[i].name];
      messages := messages + [ToolReply(calls[i].id, calls[i].name)];
      if e.observe(i).Saw? {
        enrichment := enrichment[calls[i].name := e.observe(i).summary];
      }
      toolsCalled := toolsCalled + [calls[i].name];
      executed := executed + 1;
    }
    assert calls[..|calls|] == calls;
    s' := s.(messages := messages, budget := s.budget - executed, toolsCalled := toolsCalled, enrichment := enrichment);
  }

  // ---------- Edges ----------

  datatype Node = Think | Execute | Conclude

  function ShouldContinueReact(s: State): Node {
    if s.budget <= 0 then Conclude
    else if !s.toContinue then Conclude
    else if s.messages == [] then Conclude
    else if LastCalls(s) != [] then Execute
    else Conclude
  }

  function AfterExecuteTool(s: State): Node { if s.budget <= 0 then Conclude else Think }

  datatype Visit = Visit(node: Node, state: State)

  function Step(v: Visit, e: Env): Visit
    requires !v.node.Conclude?
  {
    if v.node.Think? then
      var s := AfterThink(v.state, e);
      Visit(ShouldContinueReact(s), s)
    else
      var s := AfterExecute(v.state, e);
      Visit(AfterExecuteTool(s), s)
  }

  /** What the edges guarantee on entering a node. */
  predicate Entered(v: Visit) {
    v.node.Execute? ==> v.state.budget > 0 && LastCalls(v.state) != []
  }

  function Rank(v: Visit): nat {
    match v.node
    case Think => 2 * Max(0, v.state.budget) + 1
    case Execute => 2 * Max(0, v.state.budget)
    case Conclude => 0
  }

  /** Every step brings the graph nearer its verdict, whatever the model answers. */
  lemma StepProgresses(v: Visit, e: Env)
    requires Entered(v) && !v.node.Conclude?
    ensures Entered(Step(v, e)) && Rank(Step(v, e)) < Rank(v)
  {
  }

  /** The visits from v on; env(k) is what the k-th of them meets. */
  function Run(v: Visit, env: nat -> Env, k: nat): (r: seq<Visit>)
    requires Entered(v)
    ensures r != [] && r[0] == v
    decreases Rank(v)
  {
    if v.node.Conclude? then [v]
    else
      StepProgresses(v, env(k));
      [v] + Run(Step(v, env(k)), env, k + 1)
  }

  function Triaged(severity: string, records: seq<Tool>, enrichment: map<Tool, string>, env: nat -> Env): seq<Visit> {
    Run(Visit(Think, AfterBurst(GetBudget(severity), records, enrichment)), env, 0)
  }

  // ---------- The verdict ----------

  /** cancelled: the verdict's status is "cancelled". The model may say so of its own accord. */
  datatype Verdict = Verdict(cancelled: bool, totalToolCalls: nat, toolsCalled: set<Tool>)

  datatype ModelVerdict = NoVerdict | Given(verdict: Verdict)

  function GenerateVerdict(s: State, model: ModelVerdict): Verdict {
    var names := set x | x in s.toolsCalled;
    if s.cancelled then Verdict(true, |s.toolsCalled|, names)
    else if model.NoVerdict? then Verdict(false, |s.toolsCalled|, names)
    else model.verdict.(totalToolCalls := |s.toolsCalled|, toolsCalled := names)
  }
}
