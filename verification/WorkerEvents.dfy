/** The numbers of an alert's phase events, across deliveries, redeliveries and workers. */
module WorkerEvents {
  import opened WorkerJob
  import opened WorkerDispatch

  /** The Redis counter stays alive and answers. */
  predicate Live(step: Step) { !step.CounterGone? && !step.Fallback? }

  predicate LiveRun(steps: seq<Step>) { forall step <- steps :: Live(step) }

  // ---------- Numbers held by jobs ----------

  /** Two jobs of one alert hold no number in common. */
  ghost predicate Separate(j: Job, k: Job) {
    j.alert == k.alert ==> forall n: nat :: !(Numbered(j, n) && Numbered(k, n))
  }

  ghost predicate AllSeparate(jobs: map<nat, Job>) {
    forall d, e | d in jobs && e in jobs && d != e :: Separate(jobs[d], jobs[e])
  }

  ghost predicate Bounded(jobs: map<nat, Job>, ns: Numbers) {
    forall d <- jobs :: LogIncreasing(jobs[d]) && UpTo(jobs[d], Counter(ns, jobs[d].alert))
  }

  predicate NoRepeats(s: seq<nat>) { forall i, k :: 0 <= i < k < |s| ==> s[i] != s[k] }

  ghost predicate RecordedFor(ns: Numbers, alert: string) {
    NoRepeats(PublishedOf(ns, alert)) && forall n <- PublishedOf(ns, alert) :: n <= Counter(ns, alert)
  }

  /** Published numbers are not repeated, and the one a job is about to publish is new. */
  ghost predicate Recorded(jobs: map<nat, Job>, ns: Numbers) {
    && (forall a: string :: RecordedFor(ns, a))
    && (forall d <- jobs :: jobs[d].stage.Publishing? ==> jobs[d].stage.number !in PublishedOf(ns, jobs[d].alert))
  }

  ghost predicate Counted(s: State) {
    AllFit(s.jobs) && AllSeparate(s.jobs) && Bounded(s.jobs, s.numbers) && Recorded(s.jobs, s.numbers)
  }

  lemma ActNumbers(j: Job, a: Action, n: nat)
    requires Fit(j) && Can(j, a)
    ensures Numbered(Act(j, a), n) ==> (Numbered(j, n) && Act(j, a).alert == j.alert) || (a.Number? && a.n == n)
  {
    if a.Publish? {
      var e := Event(j.stage.phase, j.stage.number);
      assert forall x :: x in j.log + [e] <==> x in j.log || x == e;
    }
  }

  lemma NewHoldsNothing(n: nat)
    ensures !Numbered(NEW, n)
  {
  }

  lemma ActSeparate(j: Job, a: Action, k: Job, ns: Numbers)
    requires Fit(j) && Can(j, a) && RightNumber(ns, j, a) && Separate(j, k) && UpTo(k, Counter(ns, k.alert))
    ensures Separate(Act(j, a), k) && Separate(k, Act(j, a))
  {
    if Act(j, a).alert == k.alert {
      forall n: nat ensures !(Numbered(Act(j, a), n) && Numbered(k, n)) { ActNumbers(j, a, n); }
    }
  }

  lemma ActBounded(j: Job, a: Action, ns: Numbers)
    requires Fit(j) && Can(j, a) && RightNumber(ns, j, a) && LogIncreasing(j) && UpTo(j, Counter(ns, j.alert))
    ensures var k := Act(j, a); LogIncreasing(k) && UpTo(k, Counter(WorkNumbers(ns, j, a), k.alert))
  {
    forall n: nat | Numbered(Act(j, a), n) ensures n <= Counter(WorkNumbers(ns, j, a), Act(j, a).alert) {
      ActNumbers(j, a, n);
    }
    if a.Number? {
      forall e <- j.log ensures e.number < a.n { assert Numbered(j, e.number); }
    }
  }

  // ---------- Steps ----------

  lemma MoreCount(ns: Numbers, alert: string, a: string)
    ensures Counter(Bumped(ns, alert), a) >= Counter(ns, a)
    ensures PublishedOf(Bumped(ns, alert), a) == PublishedOf(ns, a)
  {
  }

  lemma WorkBounded(jobs: map<nat, Job>, ns: Numbers, d: nat, a: Action)
    requires AllFit(jobs) && Bounded(jobs, ns) && d in jobs && Can(jobs[d], a) && RightNumber(ns, jobs[d], a)
    ensures Bounded(jobs[d := Act(jobs[d], a)], WorkNumbers(ns, jobs[d], a))
  {
    ActBounded(jobs[d], a, ns);
    forall e <- jobs | e != d ensures UpTo(jobs[e], Counter(WorkNumbers(ns, jobs[d], a), jobs[e].alert)) {
      MoreCount(ns, jobs[d].alert, jobs[e].alert);
    }
  }

  lemma WorkSeparate(jobs: map<nat, Job>, ns: Numbers, d: nat, a: Action)
    requires AllFit(jobs) && AllSeparate(jobs) && Bounded(jobs, ns)
    requires d in jobs && Can(jobs[d], a) && RightNumber(ns, jobs[d], a)
    ensures AllSeparate(jobs[d := Act(jobs[d], a)])
  {
    forall e <- jobs | e != d ensures Separate(Act(jobs[d], a), jobs[e]) && Separate(jobs[e], Act(jobs[d], a)) {
      ActSeparate(jobs[d], a, jobs[e], ns);
    }
  }

  lemma NumberRecords(jobs: map<nat, Job>, ns: Numbers, d: nat, n: nat)
    requires Recorded(jobs, ns) && d in jobs && Can(jobs[d], Number(n)) && RightNumber(ns, jobs[d], Number(n))
    ensures Recorded(jobs[d := Act(jobs[d], Number(n))], Bumped(ns, jobs[d].alert))
  {
    var j, after := jobs[d], Bumped(ns, jobs[d].alert);
    forall a: string ensures RecordedFor(after, a) && PublishedOf(after, a) == PublishedOf(ns, a) {
      assert RecordedFor(ns, a);
      MoreCount(ns, j.alert, a);
    }
    assert RecordedFor(ns, j.alert);
    assert n !in PublishedOf(after, j.alert);
  }

  lemma PublishFor(ns: Numbers, j: Job, a: string)
    requires Can(j, Publish) && RecordedFor(ns, a) && j.stage.number <= Counter(ns, j.alert)
    requires j.stage.number !in PublishedOf(ns, j.alert)
    ensures RecordedFor(WorkNumbers(ns, j, Publish), a)
    ensures PublishedOf(WorkNumbers(ns, j, Publish), a)
            == if a == j.alert then PublishedOf(ns, a) + [j.stage.number] else PublishedOf(ns, a)
  {
    var after := WorkNumbers(ns, j, Publish);
    assert Counter(after, a) == Counter(ns, a);
  }

  lemma PublishRecords(jobs: map<nat, Job>, ns: Numbers, d: nat)
    requires AllSeparate(jobs) && Bounded(jobs, ns) && Recorded(jobs, ns) && d in jobs && Can(jobs[d], Publish)
    ensures Recorded(jobs[d := Act(jobs[d], Publish)], WorkNumbers(ns, jobs[d], Publish))
  {
    var j, after := jobs[d], WorkNumbers(ns, jobs[d], Publish);
    assert Numbered(j, j.stage.number);
    forall a: string ensures RecordedFor(after, a) {
      assert RecordedFor(ns, a);
      PublishFor(ns, j, a);
    }
    forall e <- jobs | e != d && jobs[e].stage.Publishing?
      ensures jobs[e].stage.number !in PublishedOf(after, jobs[e].alert)
    {
      assert Numbered(jobs[e], jobs[e].stage.number) && Separate(jobs[d], jobs[e]);
      assert RecordedFor(ns, jobs[e].alert);
      PublishFor(ns, j, jobs[e].alert);
    }
  }

  lemma WorkRecords(jobs: map<nat, Job>, ns: Numbers, d: nat, a: Action)
    requires AllSeparate(jobs) && Bounded(jobs, ns) && Recorded(jobs, ns)
    requires d in jobs && Can(jobs[d], a) && RightNumber(ns, jobs[d], a)
    ensures Recorded(jobs[d := Act(jobs[d], a)], WorkNumbers(ns, jobs[d], a))
  {
    match a
    case Number(n) => NumberRecords(jobs, ns, d, n);
    case Publish => PublishRecords(jobs, ns, d);
    case _ => assert !Act(jobs[d], a).stage.Publishing?;
  }

  lemma SpawnCounts(jobs: map<nat, Job>, ns: Numbers, d: nat)
    requires AllSeparate(jobs) && Bounded(jobs, ns) && Recorded(jobs, ns) && d !in jobs
    ensures AllSeparate(jobs[d := NEW]) && Bounded(jobs[d := NEW], ns) && Recorded(jobs[d := NEW], ns)
  {
    forall n: nat ensures !Numbered(NEW, n) { NewHoldsNothing(n); }
  }

  lemma ElsewhereCounts(jobs: map<nat, Job>, ns: Numbers, alert: string)
    requires Bounded(jobs, ns) && Recorded(jobs, ns)
    ensures Bounded(jobs, Bumped(ns, alert)) && Recorded(jobs, Bumped(ns, alert))
  {
    forall a: string ensures RecordedFor(Bumped(ns, alert), a) && Counter(Bumped(ns, alert), a) >= Counter(ns, a) {
      assert RecordedFor(ns, a);
      MoreCount(ns, alert, a);
    }
    forall a: string ensures PublishedOf(Bumped(ns, alert), a) == PublishedOf(ns, a) {}
  }

  lemma StepCounts(s: State, step: Step)
    requires Counted(s) && Enabled(s, step) && Live(step)
    ensures Counted(Apply(s, step))
  {
    JobsKeep(s, step);
    match step
    case Acquire(d) => SpawnCounts(s.jobs, s.numbers, d);
    case Resume(d) => SpawnCounts(s.jobs, s.numbers, d);
    case Work(d, a) =>
      WorkBounded(s.jobs, s.numbers, d, a);
      WorkSeparate(s.jobs, s.numbers, d, a);
      WorkRecords(s.jobs, s.numbers, d, a);
    case Elsewhere(alert) => ElsewhereCounts(s.jobs, s.numbers, alert);
    case _ =>
  }

  lemma {:induction false} RunCounts(s: State, steps: seq<Step>)
    requires Counted(s) && Legal(s, steps) && LiveRun(steps)
    ensures Counted(Exec(s, steps))
    decreases |steps|
  {
    if steps != [] {
      StepCounts(s, steps[0]);
      RunCounts(Apply(s, steps[0]), steps[1..]);
    }
  }

  /** How often a run increments the alert's counter. */
  function Increments(s: State, steps: seq<Step>, alert: string): nat
    requires Legal(s, steps)
    decreases |steps|
  {
    if steps == [] then 0
    else (if Increment(s, steps[0], alert) then 1 else 0) + Increments(Apply(s, steps[0]), steps[1..], alert)
  }

  /** A step that numbers an event of the alert, here or in another worker. */
  predicate Increment(s: State, step: Step, alert: string)
    requires Enabled(s, step)
  {
    match step
    case Work(d, a) => a.Number? && s.jobs[d].alert == alert
    case Elsewhere(x) => x == alert
    case _ => false
  }

  lemma StepIncrements(s: State, step: Step, alert: string)
    requires Enabled(s, step) && Live(step)
    ensures Counter(Apply(s, step).numbers, alert)
            == Counter(s.numbers, alert) + if Increment(s, step, alert) then 1 else 0
  {
  }

  lemma {:induction false} RunIncrements(s: State, steps: seq<Step>, alert: string)
    requires Legal(s, steps) && LiveRun(steps)
    ensures Counter(Exec(s, steps).numbers, alert) == Counter(s.numbers, alert) + Increments(s, steps, alert)
    decreases |steps|
  {
    if steps != [] {
      StepIncrements(s, steps[0], alert);
      RunIncrements(Apply(s, steps[0]), steps[1..], alert);
    }
  }

  /** An alert's numbers are 1, 2, 3 and so on: each is one more than the increments before it. */
  lemma NumbersCount(steps: seq<Step>, maxInflight: nat, d: nat, n: nat)
    requires Legal(Initial(maxInflight), steps) && LiveRun(steps)
    requires Enabled(Exec(Initial(maxInflight), steps), Work(d, Number(n)))
    ensures n == Increments(Initial(maxInflight), steps, Exec(Initial(maxInflight), steps).jobs[d].alert) + 1
  {
    RunIncrements(Initial(maxInflight), steps, Exec(Initial(maxInflight), steps).jobs[d].alert);
  }

  /** When Redis fails, the worker numbers the alert's events 1, 2, 3 by itself. */
  lemma FallbackCounts(s: State, d: nat, bumped: bool)
    requires Enabled(s, Fallback(d, bumped))
    ensures var t, alert := Apply(s, Fallback(d, bumped)), s.jobs[d].alert;
            && Count(t.numbers.locals, alert) == Count(s.numbers.locals, alert) + 1
            && t.jobs[d].stage.Publishing? && t.jobs[d].stage.number == Count(t.numbers.locals, alert)
  {
  }

  /** While the counter is live no number is published twice for an alert, however deliveries overlap;
      each delivery's own events have increasing numbers, and two deliveries share none. */
  lemma NumbersAreUnique(steps: seq<Step>, maxInflight: nat, alert: string)
    requires Legal(Initial(maxInflight), steps) && LiveRun(steps)
    ensures var e := Exec(Initial(maxInflight), steps);
            && NoRepeats(PublishedOf(e.numbers, alert))
            && (forall d <- e.jobs :: LogIncreasing(e.jobs[d]))
            && AllSeparate(e.jobs)
  {
    RunCounts(Initial(maxInflight), steps);
    assert RecordedFor(Exec(Initial(maxInflight), steps).numbers, alert);
  }

  // ---------- Publication order ----------

  predicate Active(j: Job) { j.stage.Numbering? || j.stage.Publishing? || j.stage == Checking || j.stage == Triaging }

  /** d is a delivery of the alert that may still publish. */
  predicate Speaks(jobs: map<nat, Job>, d: nat, alert: string) {
    d in jobs && jobs[d].alert == alert && Active(jobs[d]) && jobs[d].tenant != ""
  }

  /** A delivery starts on the alert only when no other delivery of it may still publish. */
  ghost predicate Solo(s: State, step: Step, alert: string) {
    step.Work? && step.action.Verify? && step.action.outcome.Fine? && step.action.outcome.alert == alert ==>
      forall e <- s.jobs :: !Speaks(s.jobs, e, alert)
  }

  ghost predicate SoloRun(s: State, steps: seq<Step>, alert: string)
    requires Legal(s, steps)
    decreases |steps|
  {
    steps == [] || (Solo(s, steps[0], alert) && SoloRun(Apply(s, steps[0]), steps[1..], alert))
  }

  /** Two deliveries of the alert may still publish. */
  ghost predicate TwoSpeak(jobs: map<nat, Job>, alert: string) {
    exists d, e :: d != e && Speaks(jobs, d, alert) && Speaks(jobs, e, alert)
  }

  /** Publications so far are in order, and the next one follows them. */
  ghost predicate InOrder(jobs: map<nat, Job>, ns: Numbers, alert: string) {
    && Increasing(PublishedOf(ns, alert))
    && (forall d <- jobs :: jobs[d].alert == alert && jobs[d].stage.Publishing? ==>
          forall n <- PublishedOf(ns, alert) :: n < jobs[d].stage.number)
  }

  lemma ActiveStays(j: Job, a: Action)
    requires Can(j, a)
    ensures Active(Act(j, a)) ==>
              (Active(j) && Act(j, a).alert == j.alert && Act(j, a).tenant == j.tenant)
              || (a.Verify? && a.outcome.Fine?)
  {
  }

  lemma WorkOneSpeaks(s: State, d: nat, a: Action, alert: string)
    requires !TwoSpeak(s.jobs, alert) && d in s.jobs && Can(s.jobs[d], a) && Solo(s, Work(d, a), alert)
    ensures !TwoSpeak(s.jobs[d := Act(s.jobs[d], a)], alert)
  {
    var after := s.jobs[d := Act(s.jobs[d], a)];
    ActiveStays(s.jobs[d], a);
    if x, y :| x != y && Speaks(after, x, alert) && Speaks(after, y, alert) {
      OldSpeaker(s, d, a, alert, x, y);
      OldSpeaker(s, d, a, alert, y, x);
    }
  }

  /** If two speak after a step that is solo, each did before it. */
  lemma OldSpeaker(s: State, d: nat, a: Action, alert: string, x: nat, y: nat)
    requires d in s.jobs && Can(s.jobs[d], a) && Solo(s, Work(d, a), alert) && x != y
    requires var after := s.jobs[d := Act(s.jobs[d], a)]; Speaks(after, x, alert) && Speaks(after, y, alert)
    ensures Speaks(s.jobs, x, alert)
  {
    ActiveStays(s.jobs[d], a);
    assert y != d ==> Speaks(s.jobs, y, alert);
  }

  lemma NumberOrders(jobs: map<nat, Job>, ns: Numbers, d: nat, n: nat, alert: string)
    requires InOrder(jobs, ns, alert) && d in jobs && RecordedFor(ns, alert)
    requires Can(jobs[d], Number(n)) && RightNumber(ns, jobs[d], Number(n))
    ensures InOrder(jobs[d := Act(jobs[d], Number(n))], Bumped(ns, jobs[d].alert), alert)
  {
    assert PublishedOf(Bumped(ns, jobs[d].alert), alert) == PublishedOf(ns, alert);
  }

  lemma IncreasingPlus(s: seq<nat>, n: nat)
    requires Increasing(s) && forall x <- s :: x < n
    ensures Increasing(s + [n])
  {
    forall i | 0 <= i < |s| ensures s[i] < n { assert s[i] in s; }
  }

  lemma PublishOrders(jobs: map<nat, Job>, ns: Numbers, d: nat, alert: string)
    requires InOrder(jobs, ns, alert) && !TwoSpeak(jobs, alert) && AllFit(jobs) && d in jobs && Can(jobs[d], Publish)
    ensures InOrder(jobs[d := Act(jobs[d], Publish)], WorkNumbers(ns, jobs[d], Publish), alert)
  {
    var j, after := jobs[d], WorkNumbers(ns, jobs[d], Publish);
    if j.alert == alert {
      IncreasingPlus(PublishedOf(ns, alert), j.stage.number);
      assert Fit(j) && Speaks(jobs, d, alert);
      forall e <- jobs | e != d && jobs[e].alert == alert ensures !jobs[e].stage.Publishing? {
        assert Fit(jobs[e]) && !Speaks(jobs, e, alert);
      }
    } else {
      assert PublishedOf(after, alert) == PublishedOf(ns, alert);
    }
  }

  lemma WorkOrders(jobs: map<nat, Job>, ns: Numbers, d: nat, a: Action, alert: string)
    requires Recorded(jobs, ns) && AllFit(jobs) && !TwoSpeak(jobs, alert) && InOrder(jobs, ns, alert)
    requires d in jobs && Can(jobs[d], a) && RightNumber(ns, jobs[d], a)
    ensures InOrder(jobs[d := Act(jobs[d], a)], WorkNumbers(ns, jobs[d], a), alert)
  {
    match a
    case Number(n) =>
      assert RecordedFor(ns, alert);
      NumberOrders(jobs, ns, d, n, alert);
    case Publish => PublishOrders(jobs, ns, d, alert);
    case _ => assert !Act(jobs[d], a).stage.Publishing?;
  }

  /** Steps other than a job's own. */
  lemma OtherOrders(s: State, step: Step, alert: string)
    requires !TwoSpeak(s.jobs, alert) && InOrder(s.jobs, s.numbers, alert) && Enabled(s, step) && Live(step)
    requires !step.Work?
    ensures !TwoSpeak(Apply(s, step).jobs, alert) && InOrder(Apply(s, step).jobs, Apply(s, step).numbers, alert)
  {
    var s' := Apply(s, step);
    assert PublishedOf(s'.numbers, alert) == PublishedOf(s.numbers, alert);
    forall d | Speaks(s'.jobs, d, alert) ensures Speaks(s.jobs, d, alert) {}
    if x, y :| x != y && Speaks(s'.jobs, x, alert) && Speaks(s'.jobs, y, alert) {
      assert Speaks(s.jobs, x, alert) && Speaks(s.jobs, y, alert);
    }
  }

  lemma StepOrders(s: State, step: Step, alert: string)
    requires Counted(s) && !TwoSpeak(s.jobs, alert) && InOrder(s.jobs, s.numbers, alert)
    requires Enabled(s, step) && Live(step) && Solo(s, step, alert)
    ensures !TwoSpeak(Apply(s, step).jobs, alert) && InOrder(Apply(s, step).jobs, Apply(s, step).numbers, alert)
  {
    if step.Work? {
      WorkOneSpeaks(s, step.d, step.action, alert);
      WorkOrders(s.jobs, s.numbers, step.d, step.action, alert);
    } else {
      OtherOrders(s, step, alert);
    }
  }

  lemma {:induction false} RunOrders(s: State, steps: seq<Step>, alert: string)
    requires Counted(s) && !TwoSpeak(s.jobs, alert) && InOrder(s.jobs, s.numbers, alert)
    requires Legal(s, steps) && LiveRun(steps) && SoloRun(s, steps, alert)
    ensures InOrder(Exec(s, steps).jobs, Exec(s, steps).numbers, alert)
    decreases |steps|
  {
    if steps != [] {
      StepCounts(s, steps[0]);
      StepOrders(s, steps[0], alert);
      RunOrders(Apply(s, steps[0]), steps[1..], alert);
    }
  }

  /** When deliveries of an alert do not overlap and the counter is live, its events are published in
      strictly increasing order across all its deliveries. */
  lemma PublishedInOrder(steps: seq<Step>, maxInflight: nat, alert: string)
    requires Legal(Initial(maxInflight), steps) && LiveRun(steps) && SoloRun(Initial(maxInflight), steps, alert)
    ensures Increasing(PublishedOf(Exec(Initial(maxInflight), steps).numbers, alert))
  {
    RunOrders(Initial(maxInflight), steps, alert);
  }

  // ---------- Overlapping deliveries ----------

  ghost predicate Mixes(s: State, steps: seq<Step>, alert: string) {
    && Legal(s, steps) && LiveRun(steps) && SoloRun(s, steps, alert)
    && !Increasing(PublishedOf(Exec(s, steps).numbers, alert))
  }

  /** Some continuation, in which no further delivery overlaps, publishes the alert's events out of
      order. */
  ghost predicate CanMix(s: State, alert: string) { exists steps :: Mixes(s, steps, alert) }

  lemma Cons(s: State, step: Step, alert: string)
    requires Enabled(s, step) && Live(step) && Solo(s, step, alert) && CanMix(Apply(s, step), alert)
    ensures CanMix(s, alert)
  {
    var steps :| Mixes(Apply(s, step), steps, alert);
    assert ([step] + steps)[1..] == steps;
    assert Mixes(s, [step] + steps, alert);
  }

  /** How far an active delivery is from publishing. */
  function Distance(j: Job): nat {
    if j.stage.Publishing? then 0 else if j.stage.Numbering? then 1 else 2
  }

  /** An active delivery's next step towards publishing. */
  function Towards(s: State, d: nat): Action
    requires d in s.jobs
  {
    var j := s.jobs[d];
    if j.stage == Checking then Check(true)
    else if j.stage == Triaging then Triage(true)
    else Number(Counter(s.numbers, j.alert) + 1)
  }

  lemma {:induction false} TwoCanMix(s: State, d: nat, e: nat, alert: string)
    requires Counted(s) && d != e && Speaks(s.jobs, d, alert) && Speaks(s.jobs, e, alert)
    ensures CanMix(s, alert)
    decreases Distance(s.jobs[d]) + Distance(s.jobs[e]), Distance(s.jobs[e])
  {
    if !s.jobs[d].stage.Publishing? {
      var step := Work(d, Towards(s, d));
      StepCounts(s, step);
      TwoCanMix(Apply(s, step), d, e, alert);
      Cons(s, step, alert);
    } else if !s.jobs[e].stage.Publishing? {
      TwoCanMix(s, e, d, alert);
    } else {
      assert Numbered(s.jobs[d], s.jobs[d].stage.number) && Numbered(s.jobs[e], s.jobs[e].stage.number);
      assert Separate(s.jobs[d], s.jobs[e]);
      if s.jobs[d].stage.number > s.jobs[e].stage.number {
        Crossing(s, d, e, alert);
      } else {
        Crossing(s, e, d, alert);
      }
    }
  }

  lemma Crossing(s: State, d: nat, e: nat, alert: string)
    requires Counted(s) && d != e && Speaks(s.jobs, d, alert) && Speaks(s.jobs, e, alert)
    requires s.jobs[d].stage.Publishing? && s.jobs[e].stage.Publishing?
    requires s.jobs[d].stage.number > s.jobs[e].stage.number
    ensures CanMix(s, alert)
  {
    var n, m := s.jobs[d].stage.number, s.jobs[e].stage.number;
    var s1 := Apply(s, Work(d, Publish));
    var s2 := Apply(s1, Work(e, Publish));
    var before := PublishedOf(s.numbers, alert);
    assert PublishedOf(s1.numbers, alert) == before + [n];
    var order := PublishedOf(s2.numbers, alert);
    assert order == before + [n] + [m];
    assert order[|before|] == n && order[|before| + 1] == m;
    assert Mixes(s2, [], alert);
    Cons(s1, Work(e, Publish), alert);
    Cons(s, Work(d, Publish), alert);
  }

  /** After any live run whose publications are in order so far, some continuation in which no further
      delivery overlaps publishes out of order exactly when two deliveries of the alert may still publish. */
  lemma OutOfOrderIff(before: seq<Step>, maxInflight: nat, alert: string)
    requires Legal(Initial(maxInflight), before) && LiveRun(before)
    requires var s := Exec(Initial(maxInflight), before); InOrder(s.jobs, s.numbers, alert)
    ensures var s := Exec(Initial(maxInflight), before); CanMix(s, alert) <==> TwoSpeak(s.jobs, alert)
  {
    RunCounts(Initial(maxInflight), before);
    var s := Exec(Initial(maxInflight), before);
    if d, e :| d != e && Speaks(s.jobs, d, alert) && Speaks(s.jobs, e, alert) {
      TwoCanMix(s, d, e, alert);
    } else if steps :| Mixes(s, steps, alert) {
      RunOrders(s, steps, alert);
    }
  }

  // ---------- Two deliveries can be under way ----------

  ghost predicate Reaches(s: State, end: State) { exists steps :: Leads(s, steps, end) }

  ghost predicate Leads(s: State, steps: seq<Step>, end: State) {
    Legal(s, steps) && LiveRun(steps) && Exec(s, steps) == end
  }

  lemma StepFirst(s: State, step: Step, end: State)
    requires Enabled(s, step) && Live(step) && Reaches(Apply(s, step), end)
    ensures Reaches(s, end)
  {
    var steps :| Leads(Apply(s, step), steps, end);
    assert ([step] + steps)[1..] == steps;
    assert Leads(s, [step] + steps, end);
  }

  function Ready(alert: string): Job {
    NEW.(stage := Numbering(Queued), alert := alert, tenant := "t", acts := [Start(true), Verify(Fine(alert, "t"))])
  }

  function Busy(maxInflight: nat): Pool
    requires maxInflight >= 2
  {
    Pool(maxInflight - 2, {0, 1}, {0, 1}, Top, false)
  }

  function Created(maxInflight: nat): State
    requires maxInflight >= 2
  {
    State(Busy(maxInflight), map[0 := NEW, 1 := NEW], Numbers(map[], map[], map[]))
  }

  function BothReady(maxInflight: nat, alert: string): State
    requires maxInflight >= 2
  {
    Created(maxInflight).(jobs := map[0 := Ready(alert), 1 := Ready(alert)])
  }

  /** A worker with two permits can have two deliveries of one alert under way, and from there publish
      its events out of order. */
  lemma OverlapPublishesOutOfOrder(maxInflight: nat, alert: string)
    requires maxInflight >= 2
    ensures var s := BothReady(maxInflight, alert);
            Reaches(Initial(maxInflight), s) && TwoSpeak(s.jobs, alert) && CanMix(s, alert)
  {
    var s := BothReady(maxInflight, alert);
    BothReadyReached(maxInflight, alert);
    assert Speaks(s.jobs, 0, alert) && Speaks(s.jobs, 1, alert);
    var steps :| Leads(Initial(maxInflight), steps, s);
    OutOfOrderIff(steps, maxInflight, alert);
  }

  lemma BothReadyReached(maxInflight: nat, alert: string)
    requires maxInflight >= 2
    ensures Reaches(Initial(maxInflight), BothReady(maxInflight, alert))
  {
    var end := BothReady(maxInflight, alert);
    assert Leads(end, [], end);
    ReadyReached(maxInflight, alert);
    var s1 := Apply(Initial(maxInflight), Poll);
    var s2 := Apply(s1, Fetch(2));
    var s3 := Apply(s2, Acquire(0));
    assert Apply(s3, Acquire(1)) == Created(maxInflight);
    StepFirst(s3, Acquire(1), end);
    StepFirst(s2, Acquire(0), end);
    StepFirst(s1, Fetch(2), end);
    StepFirst(Initial(maxInflight), Poll, end);
  }

  lemma ReadyReached(maxInflight: nat, alert: string)
    requires maxInflight >= 2 && Reaches(BothReady(maxInflight, alert), BothReady(maxInflight, alert))
    ensures Reaches(Created(maxInflight), BothReady(maxInflight, alert))
  {
    var s0, end := Created(maxInflight), BothReady(maxInflight, alert);
    var s1 := Apply(s0, Work(0, Start(true)));
    var s2 := Apply(s1, Work(0, Verify(Fine(alert, "t"))));
    var s3 := Apply(s2, Work(1, Start(true)));
    ReadyActs(alert);
    assert Apply(s3, Work(1, Verify(Fine(alert, "t")))) == end;
    StepFirst(s3, Work(1, Verify(Fine(alert, "t"))), end);
    StepFirst(s2, Work(1, Start(true)), end);
    StepFirst(s1, Work(0, Verify(Fine(alert, "t"))), end);
    StepFirst(s0, Work(0, Start(true)), end);
  }

  lemma ReadyActs(alert: string)
    ensures Act(Act(NEW, Start(true)), Verify(Fine(alert, "t"))) == Ready(alert)
  {
    assert [] + [Start(true)] + [Verify(Fine(alert, "t"))] == [Start(true), Verify(Fine(alert, "t"))];
  }

  // ---------- Overlap and permits ----------

  /** A run with a live counter, in which deliveries of the alert overlap only if they may, publishes
      its events out of order. */
  ghost predicate Misorders(maxInflight: nat, steps: seq<Step>, alert: string, overlap: bool) {
    var s := Initial(maxInflight);
    && Legal(s, steps) && LiveRun(steps) && (overlap || SoloRun(s, steps, alert))
    && !Increasing(PublishedOf(Exec(s, steps).numbers, alert))
  }

  ghost predicate CanMisorder(maxInflight: nat, alert: string, overlap: bool) {
    exists steps :: Misorders(maxInflight, steps, alert, overlap)
  }

  lemma {:induction false} Append(s: State, xs: seq<Step>, ys: seq<Step>)
    requires Legal(s, xs) && Legal(Exec(s, xs), ys)
    ensures Legal(s, xs + ys) && Exec(s, xs + ys) == Exec(Exec(s, xs), ys)
    decreases |xs|
  {
    if xs == [] {
      assert xs + ys == ys;
    } else {
      Append(Apply(s, xs[0]), xs[1..], ys);
      assert (xs + ys)[1..] == xs[1..] + ys;
    }
  }

  /** With one permit, or none, no two deliveries are under way at once. */
  lemma FewPermits(p: Pool, jobs: map<nat, Job>, maxInflight: nat, alert: string)
    requires Conserved(p, maxInflight) && Matching(p, jobs) && maxInflight <= 1
    ensures !TwoSpeak(jobs, alert)
  {
    forall d, e | Speaks(jobs, d, alert) && Speaks(jobs, e, alert) ensures d == e {
      OneRuns(p.running, d, e);
    }
  }

  lemma OneRuns(running: set<nat>, d: nat, e: nat)
    requires |running| <= 1 && d in running && e in running
    ensures d == e
  {
    assert |running - {d}| == |running| - 1;
  }

  lemma {:induction false} FewPermitsOrder(s: State, steps: seq<Step>, maxInflight: nat, alert: string)
    requires Counted(s) && InOrder(s.jobs, s.numbers, alert) && Legal(s, steps) && LiveRun(steps)
    requires Conserved(s.pool, maxInflight) && Matching(s.pool, s.jobs) && maxInflight <= 1
    ensures InOrder(Exec(s, steps).jobs, Exec(s, steps).numbers, alert)
    decreases |steps|
  {
    if steps != [] {
      FewPermits(s.pool, s.jobs, maxInflight, alert);
      if steps[0].Work? {
        WorkOrders(s.jobs, s.numbers, steps[0].d, steps[0].action, alert);
      } else {
        OtherOrders(s, steps[0], alert);
      }
      StepCounts(s, steps[0]);
      PoolKeeps(s, steps[0], maxInflight);
      FewPermitsOrder(Apply(s, steps[0]), steps[1..], maxInflight, alert);
    }
  }

  /** While the counter is live, a worker can publish an alert's events out of order exactly if deliveries
      of the alert may overlap and it has two permits or more. */
  lemma MisordersIff(maxInflight: nat, alert: string, overlap: bool)
    ensures CanMisorder(maxInflight, alert, overlap) <==> overlap && maxInflight >= 2
  {
    var s0 := Initial(maxInflight);
    if overlap && maxInflight >= 2 {
      OverlapPublishesOutOfOrder(maxInflight, alert);
      var s := BothReady(maxInflight, alert);
      var xs :| Leads(s0, xs, s);
      var ys :| Mixes(s, ys, alert);
      Append(s0, xs, ys);
      assert Misorders(maxInflight, xs + ys, alert, overlap);
    } else if steps :| Misorders(maxInflight, steps, alert, overlap) {
      if overlap {
        FewPermitsOrder(s0, steps, maxInflight, alert);
      } else {
        PublishedInOrder(steps, maxInflight, alert);
      }
      assert false;
    }
  }
}
