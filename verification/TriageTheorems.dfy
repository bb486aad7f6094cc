/** What every run of the triage graph keeps, against any model and any timing of a cancel. */
module TriageTheorems {
  import opened Router
  import opened Triage

  // ---------- Well-formed message histories ----------

  /** Each AI message is followed by the replies to its calls, in order, before anything else. */
  predicate Formed(ms: seq<Message>)
    decreases |ms|
  {
    ms == [] ||
    match ms[0]
    case Human => Formed(ms[1..])
    case AI(calls) => |ms| > |calls| && ms[1..1 + |calls|] == Replies(calls) && Formed(ms[1 + |calls|..])
    case ToolReply(_, _) => false
  }

  lemma FormedHuman(ms: seq<Message>)
    requires ms != [] && ms[0].Human? && Formed(ms[1..])
    ensures Formed(ms)
  {
  }

  lemma FormedRound(ms: seq<Message>, n: nat)
    requires ms != [] && ms[0].AI? && n == 1 + |ms[0].calls| <= |ms|
    requires ms[1..n] == Replies(ms[0].calls) && Formed(ms[n..])
    ensures Formed(ms)
  {
  }

  lemma {:induction false} FormedAppend(a: seq<Message>, b: seq<Message>)
    requires Formed(a) && Formed(b)
    ensures Formed(a + b)
    decreases |a|
  {
    if a == [] {
      assert a + b == b;
    } else {
      FirstRound(a);
      var n := Width(a);
      FormedAppend(a[n..], b);
      Slices(a, b, n);
      if a[0].Human? { FormedHuman(a + b); } else { FormedRound(a + b, n); }
    }
  }

  lemma Slices(a: seq<Message>, b: seq<Message>, n: nat)
    requires 1 <= n <= |a|
    ensures (a + b)[n..] == a[n..] + b && (a + b)[1..n] == a[1..n]
  {
  }

  /** A whole round: the AI message and its replies. */
  lemma RoundFormed(ms: seq<Message>, calls: seq<Call>)
    requires Formed(ms)
    ensures Formed(ms + [AI(calls)] + Replies(calls))
  {
    var round := [AI(calls)] + Replies(calls);
    assert round[1..1 + |calls|] == Replies(calls) && round[1 + |calls|..] == [];
    FormedAppend(ms, round);
    assert ms + [AI(calls)] + Replies(calls) == ms + round;
  }

  /** Index by index: every call is answered once, in order, at once, under its id and its name. */
  ghost predicate Answered(ms: seq<Message>) {
    forall i :: 0 <= i < |ms| && ms[i].AI? ==> i + |ms[i].calls| < |ms| && AnsweredAt(ms, i)
  }

  predicate AnsweredAt(ms: seq<Message>, i: nat)
    requires i < |ms| && ms[i].AI? && i + |ms[i].calls| < |ms|
  {
    forall m :: 0 <= m < |ms[i].calls| ==> ms[i + 1 + m] == ToolReply(ms[i].calls[m].id, ms[i].calls[m].name)
  }

  ghost predicate Replied(ms: seq<Message>) {
    forall i :: 0 <= i < |ms| && ms[i].AI? ==>
      i + |ms[i].calls| < |ms| && ms[i + 1..i + 1 + |ms[i].calls|] == Replies(ms[i].calls)
  }

  lemma RepliedIsAnswered(ms: seq<Message>)
    requires Replied(ms)
    ensures Answered(ms)
  {
    forall i | 0 <= i < |ms| && ms[i].AI? ensures i + |ms[i].calls| < |ms| && AnsweredAt(ms, i) {
      var calls := ms[i].calls;
      forall m | 0 <= m < |calls| ensures ms[i + 1 + m] == ToolReply(calls[m].id, calls[m].name) {
        assert ms[i + 1 + m] == ms[i + 1..i + 1 + |calls|][m];
      }
    }
  }

  /** And there is no reply nobody asked for. */
  ghost predicate Solicited(ms: seq<Message>) {
    forall j :: 0 <= j < |ms| && ms[j].ToolReply? ==> exists i :: Answers(ms, i, j)
  }

  predicate Answers(ms: seq<Message>, i: int, j: int) {
    0 <= i < j < |ms| && ms[i].AI? && j <= i + |ms[i].calls|
  }

  function Width(ms: seq<Message>): nat
    requires ms != []
  {
    if ms[0].AI? then 1 + |ms[0].calls| else 1
  }

  lemma FirstRound(ms: seq<Message>)
    requires Formed(ms) && ms != []
    ensures Width(ms) <= |ms| && Formed(ms[Width(ms)..]) && !ms[0].ToolReply?
    ensures forall i :: 0 < i < Width(ms) ==> ms[i].ToolReply?
    ensures ms[0].AI? ==> ms[1..Width(ms)] == Replies(ms[0].calls)
  {
    assert ms[0].AI? ==> forall i :: 0 < i < Width(ms) ==> ms[i] == ms[1..Width(ms)][i - 1];
  }

  lemma FormedIsAnswered(ms: seq<Message>)
    requires Formed(ms)
    ensures Answered(ms)
  {
    FormedIsReplied(ms);
    RepliedIsAnswered(ms);
  }

  lemma {:induction false} FormedIsReplied(ms: seq<Message>)
    requires Formed(ms)
    ensures Replied(ms)
    decreases |ms|
  {
    if ms != [] {
      FirstRound(ms);
      var n := Width(ms);
      FormedIsReplied(ms[n..]);
      forall i | 0 <= i < |ms| && ms[i].AI?
        ensures i + |ms[i].calls| < |ms| && ms[i + 1..i + 1 + |ms[i].calls|] == Replies(ms[i].calls)
      {
        if i > 0 { ShiftedRound(ms, n, i); }
      }
    }
  }

  lemma ShiftedRound(ms: seq<Message>, n: nat, i: nat)
    requires n <= i < |ms| && ms[i].AI? && Replied(ms[n..])
    ensures i + |ms[i].calls| < |ms| && ms[i + 1..i + 1 + |ms[i].calls|] == Replies(ms[i].calls)
  {
    var m := |ms[i].calls|;
    assert ms[n..][i - n] == ms[i];
    assert ms[n..][i - n + 1..i - n + 1 + m] == ms[i + 1..i + 1 + m];
  }

  lemma {:induction false} FormedIsSolicited(ms: seq<Message>)
    requires Formed(ms)
    ensures Solicited(ms)
    decreases |ms|
  {
    if ms != [] {
      FirstRound(ms);
      var n := Width(ms);
      FormedIsSolicited(ms[n..]);
      forall j | 0 <= j < |ms| && ms[j].ToolReply? ensures exists i :: Answers(ms, i, j) {
        if j >= n {
          assert ms[n..][j - n] == ms[j];
          var i :| Answers(ms[n..], i, j - n);
          assert Answers(ms, i + n, j);
        } else {
          assert Answers(ms, 0, j);
        }
      }
    }
  }

  // ---------- The invariant of every visit ----------

  /** left is the budget after the burst, burst the tools it fired. */
  ghost predicate VisitInv(v: Visit, left: nat, burst: seq<Tool>) {
    var s := v.state;
    && burst <= s.toolsCalled && s.budget >= 0
    && |s.toolsCalled| <= |burst| + left
    && (forall x <- s.toolsCalled[|burst|..] :: x in REACT_TOOLS)
    && (s.budget + |s.toolsCalled| == left + |burst| || (v.node.Conclude? && s.budget == 0))
    && (s.cancelled ==> v.node.Conclude?)
    && (v.node.Think? ==> Formed(s.messages))
    && (v.node.Execute? ==>
          && s.messages != [] && Formed(s.messages[..|s.messages| - 1]) && LastCalls(s) != []
          && |LastCalls(s)| <= s.budget
          && forall c <- LastCalls(s) :: c.name in REACT_TOOLS)
  }

  lemma {:induction false} ValidAreKnown(plans: seq<Plan>)
    ensures forall p <- Valid(plans) :: p.name in REACT_TOOLS
  {
    if plans != [] { ValidAreKnown(plans[..|plans| - 1]); }
  }

  lemma ThinkKeeps(v: Visit, e: Env, left: nat, burst: seq<Tool>)
    requires VisitInv(v, left, burst) && v.node.Think?
    ensures VisitInv(Step(v, e), left, burst)
  {
    var s := AfterThink(v.state, e);
    if !e.cancel && e.thought.Answer? {
      ValidAreKnown(e.thought.plans);
      assert s.messages[..|s.messages| - 1] == v.state.messages;
      assert LastCalls(s) == Planned(v.state, e);
    }
  }

  lemma ExecuteForms(s: State, e: Env)
    requires s.messages != [] && Formed(s.messages[..|s.messages| - 1]) && LastCalls(s) != [] && !e.cancel
    ensures Formed(AfterExecute(s, e).messages)
  {
    var ms, calls := s.messages[..|s.messages| - 1], LastCalls(s);
    RoundFormed(ms, calls);
    assert s.messages == ms + [AI(calls)];
  }

  lemma ExecuteKeeps(v: Visit, e: Env, left: nat, burst: seq<Tool>)
    requires VisitInv(v, left, burst) && v.node.Execute?
    ensures VisitInv(Step(v, e), left, burst)
  {
    var s := v.state;
    if !e.cancel {
      ExecuteForms(s, e);
      assert AfterExecute(s, e).toolsCalled[|burst|..] == s.toolsCalled[|burst|..] + Names(LastCalls(s));
    }
  }

  lemma {:induction false} RunKeeps(v: Visit, env: nat -> Env, k: nat, left: nat, burst: seq<Tool>)
    requires Entered(v) && VisitInv(v, left, burst)
    ensures forall w <- Run(v, env, k) :: VisitInv(w, left, burst)
    ensures |Run(v, env, k)| <= Rank(v) + 1
    ensures forall i :: 0 <= i < |Run(v, env, k)| ==> (Run(v, env, k)[i].node.Conclude? <==> i == |Run(v, env, k)| - 1)
    decreases Rank(v)
  {
    if !v.node.Conclude? {
      StepProgresses(v, env(k));
      if v.node.Think? { ThinkKeeps(v, env(k), left, burst); } else { ExecuteKeeps(v, env(k), left, burst); }
      RunKeeps(Step(v, env(k)), env, k + 1, left, burst);
    }
  }

  lemma StartInv(budget: nat, records: seq<Tool>, enrichment: map<Tool, string>)
    ensures VisitInv(Visit(Think, AfterBurst(budget, records, enrichment)), Max(0, budget - |records|), records)
  {
    assert Formed([Human]);
  }

  function Final(run: seq<Visit>): State
    requires run != []
  {
    run[|run| - 1].state
  }

  // ---------- The statements ----------

  /** The nodes before agent_think: normalise, extract_entities, route_tools and burst_enrichment. */
  const FIRST_NODES: nat := 4

  /** The graph reaches its verdict, and only once, within twice the budget the burst left plus two
      node visits, whatever the model answers, fails at or is cancelled at; and so, from its first node
      on, within 36 of LangGraph's steps, which its recursion limit must allow. */
  lemma ReachesVerdict(severity: string, records: seq<Tool>, enrichment: map<Tool, string>, env: nat -> Env)
    ensures var run := Triaged(severity, records, enrichment, env);
            && |run| <= 2 * Max(0, GetBudget(severity) - |records|) + 2
            && FIRST_NODES + |run| <= 36
            && forall i :: 0 <= i < |run| ==> (run[i].node.Conclude? <==> i == |run| - 1)
  {
    StartInv(GetBudget(severity), records, enrichment);
    RunKeeps(Visit(Think, AfterBurst(GetBudget(severity), records, enrichment)), env, 0,
             Max(0, GetBudget(severity) - |records|), records);
  }

  /** At every visit the budget is not negative, and budget plus follow-up calls is what the burst
      left, unless a failure or a cancel has just zeroed it on the way to the verdict. */
  lemma BudgetConserved(severity: string, records: seq<Tool>, enrichment: map<Tool, string>, env: nat -> Env)
    ensures forall v <- Triaged(severity, records, enrichment, env) ::
              && v.state.budget >= 0 && records <= v.state.toolsCalled
              && (v.state.budget + (|v.state.toolsCalled| - |records|) == Max(0, GetBudget(severity) - |records|)
                  || (v.node.Conclude? && v.state.budget == 0))
              && (forall x <- v.state.toolsCalled[|records|..] :: x in REACT_TOOLS)
  {
    StartInv(GetBudget(severity), records, enrichment);
    RunKeeps(Visit(Think, AfterBurst(GetBudget(severity), records, enrichment)), env, 0,
             Max(0, GetBudget(severity) - |records|), records);
  }

  /** Whenever the model is asked, every earlier call has been answered exactly once, in order, calls
      that raised included; and no round carries more calls than the budget it started with. */
  lemma HistoryWellFormed(severity: string, records: seq<Tool>, enrichment: map<Tool, string>, env: nat -> Env)
    ensures forall v <- Triaged(severity, records, enrichment, env) ::
              && (v.node.Think? ==> Answered(v.state.messages) && Solicited(v.state.messages))
              && (v.node.Execute? ==> 0 < |LastCalls(v.state)| <= v.state.budget)
  {
    StartInv(GetBudget(severity), records, enrichment);
    RunKeeps(Visit(Think, AfterBurst(GetBudget(severity), records, enrichment)), env, 0,
             Max(0, GetBudget(severity) - |records|), records);
    forall v <- Triaged(severity, records, enrichment, env) | v.node.Think?
      ensures Answered(v.state.messages) && Solicited(v.state.messages)
    {
      FormedIsAnswered(v.state.messages);
      FormedIsSolicited(v.state.messages);
    }
  }

  /** Every verdict reports the calls attempted: the burst's records and the follow-ups, never more
      than the larger of the budget and the burst. */
  lemma VerdictCounts(
      severity: string, records: seq<Tool>, enrichment: map<Tool, string>, env: nat -> Env, model: ModelVerdict)
    ensures var s := Final(Triaged(severity, records, enrichment, env));
            var total := GenerateVerdict(s, model).totalToolCalls;
            && total == |s.toolsCalled| && |records| <= total <= Max(GetBudget(severity), |records|)
            && GenerateVerdict(s, model).toolsCalled == set x | x in s.toolsCalled
  {
    FinalKept(severity, records, enrichment, env);
  }

  lemma FinalKept(severity: string, records: seq<Tool>, enrichment: map<Tool, string>, env: nat -> Env)
    ensures var s := Final(Triaged(severity, records, enrichment, env));
            |records| <= |s.toolsCalled| <= |records| + Max(0, GetBudget(severity) - |records|)
  {
    StartInv(GetBudget(severity), records, enrichment);
    RunKeeps(Visit(Think, AfterBurst(GetBudget(severity), records, enrichment)), env, 0,
             Max(0, GetBudget(severity) - |records|), records);
    var run := Triaged(severity, records, enrichment, env);
    assert VisitInv(run[|run| - 1], Max(0, GetBudget(severity) - |records|), records);
  }

  /** With the burst that precedes it, no verdict reports more than fifteen calls. */
  lemma NeverMoreThanFifteen(
      severity: string, table: Table, tids: seq<string>, shots: Tool -> Shot, enrichment: map<Tool, string>,
      env: nat -> Env, model: ModelVerdict)
    ensures var records := Kept(Merged(table, tids), BUILDERS, shots);
            GenerateVerdict(Final(Triaged(severity, records, enrichment, env)), model).totalToolCalls <= 15
  {
    BurstHasNineRecords(table, tids, shots);
    VerdictCounts(severity, Kept(Merged(table, tids), BUILDERS, shots), enrichment, env, model);
  }

  lemma RunStep(v: Visit, env: nat -> Env, k: nat)
    requires Entered(v) && !v.node.Conclude?
    ensures Entered(Step(v, env(k)))
    ensures Run(v, env, k) == [v] + Run(Step(v, env(k)), env, k + 1)
  {
    StepProgresses(v, env(k));
  }

  lemma {:induction false} RunFollows(v: Visit, env: nat -> Env, k: nat, i: nat)
    requires Entered(v) && i + 1 < |Run(v, env, k)|
    ensures var r := Run(v, env, k);
            !r[i].node.Conclude? && r[i + 1] == Step(r[i], env(k + i)) && (r[i + 1].node.Conclude? ==> |r| == i + 2)
    decreases i
  {
    RunStep(v, env, k);
    var w := Step(v, env(k));
    var rest := Run(w, env, k + 1);
    if i > 0 {
      RunFollows(w, env, k + 1, i - 1);
      assert Run(v, env, k)[i] == rest[i - 1] && Run(v, env, k)[i + 1] == rest[i];
    } else {
      assert Run(v, env, k)[1] == rest[0] == w;
    }
  }

  /** A node that sees the cancel flag makes no call; the next node is the verdict, and it says
      cancelled whatever the model would have said. */
  lemma CancelIsFinal(
      severity: string, records: seq<Tool>, enrichment: map<Tool, string>, env: nat -> Env, model: ModelVerdict, i: nat)
    requires i + 1 < |Triaged(severity, records, enrichment, env)| && env(i).cancel
    ensures var run := Triaged(severity, records, enrichment, env);
            && |run| == i + 2
            && Final(run).toolsCalled == run[i].state.toolsCalled
            && GenerateVerdict(Final(run), model).cancelled
  {
    RunFollows(Visit(Think, AfterBurst(GetBudget(severity), records, enrichment)), env, 0, i);
  }

  /** The verdict is cancelled on account of the flag exactly when some node before it saw the flag. */
  lemma {:induction false} CancelledIff(v: Visit, env: nat -> Env, k: nat)
    requires Entered(v) && !v.state.cancelled
    ensures var run := Run(v, env, k);
            Final(run).cancelled <==> exists j: nat :: k <= j < k + |run| - 1 && env(j).cancel
    decreases Rank(v)
  {
    if !v.node.Conclude? {
      StepProgresses(v, env(k));
      var w := Step(v, env(k));
      if env(k).cancel {
        assert Run(w, env, k + 1) == [w];
      } else {
        CancelledIff(w, env, k + 1);
      }
    }
  }
}
