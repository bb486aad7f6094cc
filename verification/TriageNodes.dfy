/** What the nodes of the triage graph do, call by call, and what a whole run leaves of it. */
module TriageNodes {
  import opened Router
  import opened Triage
  import opened TriageTheorems

  // ---------- agent_think ----------

  /** How many of the first i plans name a known tool. */
  function KnownBefore(plans: seq<Plan>, i: nat): nat
    requires i <= |plans|
  {
    if i == 0 then 0 else KnownBefore(plans, i - 1) + if plans[i - 1].name in REACT_TOOLS then 1 else 0
  }

  lemma {:induction false} KnownOfStart(plans: seq<Plan>, more: seq<Plan>, i: nat)
    requires i <= |plans|
    ensures KnownBefore(plans + more, i) == KnownBefore(plans, i)
  {
    if i > 0 { KnownOfStart(plans, more, i - 1); }
  }

  lemma {:induction false} ValidAt(plans: seq<Plan>)
    ensures |Valid(plans)| == KnownBefore(plans, |plans|)
    ensures forall i :: 0 <= i < |plans| && plans[i].name in REACT_TOOLS ==>
              KnownBefore(plans, i) < |Valid(plans)| && Valid(plans)[KnownBefore(plans, i)] == plans[i]
  {
    if plans != [] {
      var init, last := plans[..|plans| - 1], plans[|plans| - 1];
      ValidAt(init);
      assert plans == init + [last];
      forall i | 0 <= i <= |init| ensures KnownBefore(plans, i) == KnownBefore(init, i) {
        KnownOfStart(init, [last], i);
      }
    }
  }

  /** The calls of a thought: each known tool it plans is called with its name and its arguments, in order,
      as many as the budget allows, and nothing else. */
  lemma ThinkCalls(s: State, e: Env)
    requires !e.cancel && e.thought.Answer? && e.thought.toContinue && s.budget > 0
    ensures var plans, t := e.thought.plans, AfterThink(s, e);
            var calls := LastCalls(t);
            && t == s.(messages := s.messages + [AI(calls)], toContinue := true)
            && |calls| == Min(s.budget, KnownBefore(plans, |plans|))
            && forall i :: 0 <= i < |plans| && plans[i].name in REACT_TOOLS && KnownBefore(plans, i) < s.budget ==>
                 && KnownBefore(plans, i) < |calls|
                 && calls[KnownBefore(plans, i)] == Call(plans[i].name, plans[i].args, e.ids(KnownBefore(plans, i)))
  {
    ValidAt(e.thought.plans);
    assert LastCalls(AfterThink(s, e)) == Planned(s, e);
  }

  function Min(a: int, b: int): int { if a <= b then a else b }

  /** After agent_think tools are executed exactly if the model answered that it wants to go on, with a
      known tool and some budget, and no cancel was seen; otherwise the verdict is next. */
  lemma ThinkGoesOnIff(v: Visit, e: Env)
    requires v.node.Think?
    ensures var w := Step(v, e);
            && !w.node.Think?
            && w.state.toolsCalled == v.state.toolsCalled && w.state.enrichment == v.state.enrichment
            && (w.node.Execute? <==>
                  && !e.cancel && e.thought.Answer? && e.thought.toContinue && v.state.budget > 0
                  && exists p <- e.thought.plans :: p.name in REACT_TOOLS)
  {
    if !e.cancel && e.thought.Answer? {
      var plans := e.thought.plans;
      ValidAt(plans);
      assert LastCalls(AfterThink(v.state, e)) == Planned(v.state, e);
      ValidAreKnown(plans);
      if p :| p in plans && p.name in REACT_TOOLS {
        var i :| 0 <= i < |plans| && plans[i] == p;
      } else {
        NoneKnown(plans);
      }
    }
  }

  lemma {:induction false} NoneKnown(plans: seq<Plan>)
    requires forall p <- plans :: p.name !in REACT_TOOLS
    ensures Valid(plans) == []
  {
    if plans != [] { NoneKnown(plans[..|plans| - 1]); }
  }

  /** The model may call the tools with a parameter builder, but not the vulnerability lookup. */
  lemma ReactAreBuilders()
    ensures REACT_TOOLS == BUILDERS - {"lookup_vulncheck"}
  {
  }

  // ---------- execute_tool ----------

  /** Call n returned something, and no later call of the same tool did. */
  predicate LastSeen(calls: seq<Call>, observe: nat -> Observation, n: nat) {
    && n < |calls| && observe(n).Saw?
    && forall m :: n < m < |calls| && calls[m].name == calls[n].name ==> observe(m).Threw?
  }

  predicate NeverSeen(calls: seq<Call>, observe: nat -> Observation, x: Tool) {
    forall n :: 0 <= n < |calls| && calls[n].name == x ==> observe(n).Threw?
  }

  predicate SameAt(m: map<Tool, string>, m': map<Tool, string>, x: Tool) {
    (x in m' <==> x in m) && (x in m ==> m'[x] == m[x])
  }

  lemma {:induction false} EnrichedAt(m: map<Tool, string>, calls: seq<Call>, observe: nat -> Observation)
    ensures var m' := Enriched(m, calls, observe);
            && (forall n: nat :: LastSeen(calls, observe, n) ==>
                  calls[n].name in m' && m'[calls[n].name] == observe(n).summary)
            && (forall x :: NeverSeen(calls, observe, x) ==> SameAt(m, m', x))
  {
    if calls != [] {
      var k := |calls| - 1;
      var init, m' := calls[..k], Enriched(m, calls, observe);
      EnrichedAt(m, init, observe);
      forall n: nat | LastSeen(calls, observe, n)
        ensures calls[n].name in m' && m'[calls[n].name] == observe(n).summary
      {
        if n < k { assert LastSeen(init, observe, n); }
      }
      forall x | NeverSeen(calls, observe, x) ensures SameAt(m, m', x) {
        assert NeverSeen(init, observe, x);
      }
    }
  }

  /** An execution answers its calls one by one and charges each: the reply carries the call's id and name,
      and the enrichment of a tool is what its last call to return said, or else is left alone. */
  lemma ExecuteCalls(s: State, e: Env)
    requires !e.cancel && LastCalls(s) != []
    ensures var t, calls := AfterExecute(s, e), LastCalls(s);
            && t.budget == s.budget - |calls| && t.toContinue == s.toContinue && t.cancelled == s.cancelled
            && |t.messages| == |s.messages| + |calls| && s.messages <= t.messages
            && |t.toolsCalled| == |s.toolsCalled| + |calls| && s.toolsCalled <= t.toolsCalled
            && (forall n :: 0 <= n < |calls| ==>
                  && t.messages[|s.messages| + n] == ToolReply(calls[n].id, calls[n].name)
                  && t.toolsCalled[|s.toolsCalled| + n] == calls[n].name)
            && (forall n: nat :: LastSeen(calls, e.observe, n) ==>
                  calls[n].name in t.enrichment && t.enrichment[calls[n].name] == e.observe(n).summary)
            && (forall x :: NeverSeen(calls, e.observe, x) ==> SameAt(s.enrichment, t.enrichment, x))
  {
    EnrichedAt(s.enrichment, LastCalls(s), e.observe);
  }

  /** After execute_tool the model thinks again exactly if no cancel was seen and some budget is left. */
  lemma ExecuteGoesOnIff(v: Visit, e: Env)
    requires v.node.Execute? && Entered(v)
    ensures Step(v, e).node == if !e.cancel && |LastCalls(v.state)| < v.state.budget then Think else Conclude
  {
  }

  // ---------- Enrichment over a run ----------

  /** At visit t, the run's first being k, call n was made, of tool x, and returned something. */
  predicate Shows(run: seq<Visit>, env: nat -> Env, k: nat, t: nat, n: nat, x: Tool) {
    && k <= t < k + |run| && run[t - k].node.Execute? && !env(t).cancel
    && n < |LastCalls(run[t - k].state)| && LastCalls(run[t - k].state)[n].name == x && env(t).observe(n).Saw?
  }

  predicate Before(i: nat, n: nat, j: nat, m: nat) { i < j || (i == j && n <= m) }

  /** And it was the last to do so. */
  ghost predicate Latest(run: seq<Visit>, env: nat -> Env, k: nat, t: nat, n: nat, x: Tool) {
    Shows(run, env, k, t, n, x) && forall j: nat, m: nat :: Shows(run, env, k, j, m, x) ==> Before(j, m, t, n)
  }

  /** rest is run without its first visit, as far as x goes. */
  ghost predicate Follows(run: seq<Visit>, rest: seq<Visit>, env: nat -> Env, k: nat, l: nat, x: Tool) {
    forall t: nat, n: nat :: t > k ==> (Shows(run, env, k, t, n, x) <==> Shows(rest, env, l, t, n, x))
  }

  lemma RestShows(v: Visit, env: nat -> Env, k: nat, l: nat, x: Tool)
    requires Entered(v) && !v.node.Conclude? && l == k + 1
    ensures Entered(Step(v, env(k)))
    ensures var run, rest := Run(v, env, k), Run(Step(v, env(k)), env, l);
            Final(run) == Final(rest) && Follows(run, rest, env, k, l, x)
  {
    RunStep(v, env, k);
    ConsFollows(v, Run(Step(v, env(k)), env, l), env, k, l, x);
  }

  lemma ConsFollows(v: Visit, rest: seq<Visit>, env: nat -> Env, k: nat, l: nat, x: Tool)
    requires l == k + 1
    ensures Follows([v] + rest, rest, env, k, l, x)
  {
    forall t: nat, n: nat | t > k ensures Shows([v] + rest, env, k, t, n, x) <==> Shows(rest, env, l, t, n, x) {
      assert t < k + |[v] + rest| ==> ([v] + rest)[t - k] == rest[t - l];
    }
  }

  /** What a visit's own calls leave of x's enrichment: the last of them to return something says it. */
  lemma VisitEnriches(v: Visit, e: Env, x: Tool, n: nat)
    requires v.node.Execute? && !e.cancel && LastCalls(v.state) != []
    requires LastSeen(LastCalls(v.state), e.observe, n) && LastCalls(v.state)[n].name == x
    ensures var w := Step(v, e); x in w.state.enrichment && w.state.enrichment[x] == e.observe(n).summary
  {
    ExecuteCalls(v.state, e);
  }

  lemma VisitLeaves(v: Visit, e: Env, x: Tool)
    requires Entered(v) && !v.node.Conclude?
    requires v.node.Execute? && !e.cancel ==> NeverSeen(LastCalls(v.state), e.observe, x)
    ensures SameAt(v.state.enrichment, Step(v, e).state.enrichment, x)
  {
    if v.node.Execute? && !e.cancel { ExecuteCalls(v.state, e); }
  }

  /** What a run's enrichment says of x: the summary of the last call of x to return, if any did. */
  ghost predicate Tells(run: seq<Visit>, env: nat -> Env, k: nat, first: map<Tool, string>, x: Tool)
    requires run != []
  {
    var last := Final(run).enrichment;
    if exists t: nat, n: nat :: Shows(run, env, k, t, n, x)
    then exists t: nat, n: nat :: Latest(run, env, k, t, n, x) && x in last && last[x] == env(t).observe(n).summary
    else SameAt(first, last, x)
  }

  /** Over a whole run a tool's enrichment ends up as what its last call to return said, and where no call of
      it returned as it was before; no other entry appears. */
  lemma {:induction false} FinalEnrichment(v: Visit, env: nat -> Env, k: nat, x: Tool)
    requires Entered(v)
    ensures Tells(Run(v, env, k), env, k, v.state.enrichment, x)
    decreases Rank(v)
  {
    if !v.node.Conclude? {
      var l := k + 1;
      StepProgresses(v, env(k));
      RestShows(v, env, k, l, x);
      var w := Step(v, env(k));
      FinalEnrichment(w, env, l, x);
      TellsFirst(v, w, Run(v, env, k), Run(w, env, l), env, k, l, x);
    }
  }

  /** So it is for a triage, from what its burst found. */
  lemma TriagedEnrichment(severity: string, records: seq<Tool>, enrichment: map<Tool, string>, env: nat -> Env, x: Tool)
    ensures Tells(Triaged(severity, records, enrichment, env), env, 0, enrichment, x)
  {
    FinalEnrichment(Visit(Think, AfterBurst(GetBudget(severity), records, enrichment)), env, 0, x);
  }

  lemma TellsFirst(v: Visit, w: Visit, run: seq<Visit>, rest: seq<Visit>, env: nat -> Env, k: nat, l: nat, x: Tool)
    requires Entered(v) && !v.node.Conclude? && w == Step(v, env(k)) && l == k + 1
    requires run != [] && rest != [] && run[0] == v && Final(run) == Final(rest) && Follows(run, rest, env, k, l, x)
    requires Tells(rest, env, l, w.state.enrichment, x)
    ensures Tells(run, env, k, v.state.enrichment, x)
  {
    if t: nat, n: nat :| Shows(rest, env, l, t, n, x) {
      LaterTells(run, rest, env, k, l, w.state.enrichment, v.state.enrichment, x);
    } else {
      VisitTells(v, run, rest, env, k, l, x);
    }
  }

  /** Some later visit showed x. */
  lemma LaterTells(run: seq<Visit>, rest: seq<Visit>, env: nat -> Env, k: nat, l: nat, second: map<Tool, string>,
                   first: map<Tool, string>, x: Tool)
    requires run != [] && rest != [] && l == k + 1 && Final(run) == Final(rest) && Tells(rest, env, l, second, x)
    requires Follows(run, rest, env, k, l, x)
    requires exists t: nat, n: nat :: Shows(rest, env, l, t, n, x)
    ensures Tells(run, env, k, first, x)
  {
    var last := Final(run).enrichment;
    var t: nat, n: nat :| Latest(rest, env, l, t, n, x) && x in last && last[x] == env(t).observe(n).summary;
    assert Shows(run, env, k, t, n, x);
    forall j: nat, m: nat | Shows(run, env, k, j, m, x) ensures Before(j, m, t, n) {
      if j > k { assert Shows(rest, env, l, j, m, x); }
    }
    assert Latest(run, env, k, t, n, x);
  }

  /** No later visit did. */
  lemma VisitTells(v: Visit, run: seq<Visit>, rest: seq<Visit>, env: nat -> Env, k: nat, l: nat, x: Tool)
    requires Entered(v) && !v.node.Conclude? && run != [] && run[0] == v && Follows(run, rest, env, k, l, x)
    requires forall t: nat, n: nat :: !Shows(rest, env, l, t, n, x)
    requires SameAt(Step(v, env(k)).state.enrichment, Final(run).enrichment, x)
    ensures Tells(run, env, k, v.state.enrichment, x)
  {
    var calls, e := LastCalls(v.state), env(k);
    assert forall t: nat, n: nat :: Shows(run, env, k, t, n, x) ==> t == k;
    if n: nat :| Shows(run, env, k, k, n, x) {
      var top := Greatest(run, env, k, n, x);
      TopIsLast(v, run, env, k, top, x);
      VisitEnriches(v, e, x, top);
      assert Latest(run, env, k, k, top, x);
    } else {
      if v.node.Execute? && !e.cancel { NothingShown(v, run, env, k, x); }
      VisitLeaves(v, e, x);
    }
  }

  lemma NothingShown(v: Visit, run: seq<Visit>, env: nat -> Env, k: nat, x: Tool)
    requires v.node.Execute? && !env(k).cancel && run != [] && run[0] == v
    requires forall n: nat :: !Shows(run, env, k, k, n, x)
    ensures NeverSeen(LastCalls(v.state), env(k).observe, x)
  {
    var calls := LastCalls(v.state);
    forall n | 0 <= n < |calls| && calls[n].name == x ensures env(k).observe(n).Threw? {
      assert !Shows(run, env, k, k, n, x);
    }
  }

  lemma TopIsLast(v: Visit, run: seq<Visit>, env: nat -> Env, k: nat, top: nat, x: Tool)
    requires run != [] && run[0] == v && Shows(run, env, k, k, top, x)
    requires forall m: nat :: Shows(run, env, k, k, m, x) ==> m <= top
    ensures LastSeen(LastCalls(v.state), env(k).observe, top)
  {
    var calls := LastCalls(v.state);
    forall m | top < m < |calls| && calls[m].name == x ensures env(k).observe(m).Threw? {
      assert !Shows(run, env, k, k, m, x);
    }
  }

  lemma Greatest(run: seq<Visit>, env: nat -> Env, k: nat, n: nat, x: Tool) returns (top: nat)
    requires run != [] && Shows(run, env, k, k, n, x)
    ensures Shows(run, env, k, k, top, x) && forall m: nat :: Shows(run, env, k, k, m, x) ==> m <= top
    decreases |LastCalls(run[0].state)| - n
  {
    if m: nat :| m > n && Shows(run, env, k, k, m, x) {
      top := Greatest(run, env, k, m, x);
    } else {
      top := n;
    }
  }

  // ---------- The verdict ----------

  /** The verdict says cancelled exactly if some node before it saw the cancel flag or the model says so
      itself; without a model it says so only for the flag. */
  lemma VerdictCancelledIff(
      severity: string, records: seq<Tool>, enrichment: map<Tool, string>, env: nat -> Env, model: ModelVerdict)
    ensures var run := Triaged(severity, records, enrichment, env);
            GenerateVerdict(Final(run), model).cancelled
            <==> (exists j: nat :: j < |run| - 1 && env(j).cancel) || (model.Given? && model.verdict.cancelled)
  {
    var v := Visit(Think, AfterBurst(GetBudget(severity), records, enrichment));
    CancelledIff(v, env, 0);
    var run := Run(v, env, 0);
    if exists j: nat :: 0 <= j < 0 + |run| - 1 && env(j).cancel {
      var j: nat :| 0 <= j < 0 + |run| - 1 && env(j).cancel;
      assert j < |run| - 1 && env(j).cancel;
    }
  }
}
