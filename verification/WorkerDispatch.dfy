/** The triage worker's dispatch loop (services/_runtime/triage_worker.py): a semaphore of
    max_inflight permits, one job per message, and the per-alert event counter
    (services/_runtime/event_seq.py). Jobs and the loop interleave at every await. */
module WorkerDispatch {
  import opened WorkerJob

  /** The loop is at its top, fetching, or has messages in hand: still to look at its permit, waiting
      for one, or woken with one that it has not used yet. */
  datatype Loop = Top | Fetching | Handing(left: nat, waiting: bool, granted: bool) | Draining | Stopped

  /** running are the jobs that hold a permit, inflight the tasks whose callback has not run. */
  datatype Pool = Pool(free: nat, running: set<nat>, inflight: set<nat>, loop: Loop, stopping: bool)

  /** counters are the Redis counters and locals the fallback ones; published is, per alert, the
      numbers in publication order. */
  datatype Numbers = Numbers(counters: map<string, nat>, locals: map<string, nat>, published: map<string, seq<nat>>)

  datatype State = State(pool: Pool, jobs: map<nat, Job>, numbers: Numbers)

  datatype Step =
    | Stop
    | Poll
    | Fetch(count: nat)
    | Acquire(d: nat)
    | Resume(d: nat)
    | Drain
    | Close
    | Forget(d: nat)
    | Work(d: nat, action: Action)
    | Fallback(d: nat, bumped: bool)
    | Elsewhere(alert: string)
    | CounterGone(alert: string)

  function Initial(maxInflight: nat): State {
    State(Pool(maxInflight, {}, {}, Top, false), map[], Numbers(map[], map[], map[]))
  }

  function Count(counters: map<string, nat>, alert: string): nat { if alert in counters then counters[alert] else 0 }

  function Counter(ns: Numbers, alert: string): nat { Count(ns.counters, alert) }

  function PublishedOf(ns: Numbers, alert: string): seq<nat> {
    if alert in ns.published then ns.published[alert] else []
  }

  // ---------- The pool ----------

  predicate PoolEnabled(p: Pool, jobs: map<nat, Job>, step: Step) {
    match step
    case Stop => true
    case Poll => p.loop == Top && !p.stopping
    case Fetch(_) => p.loop == Fetching
    case Acquire(d) => p.loop.Handing? && p.loop.left > 0 && !p.loop.waiting && d !in jobs
    case Resume(d) => p.loop.Handing? && p.loop.left > 0 && p.loop.granted && d !in jobs
    case Drain => p.loop == Top && p.stopping
    case Close => p.loop == Draining && p.inflight == {}
    case Forget(d) => d in p.inflight && d in jobs && jobs[d].stage == Released
    case Work(d, a) => a == Release ==> d in p.running
    case _ => true
  }

  function Looped(left: nat): Loop { if left == 0 then Top else Handing(left, false, false) }

  function Spawned(p: Pool, d: nat): Pool
    requires p.loop.Handing? && p.loop.left > 0
  {
    p.(running := p.running + {d}, inflight := p.inflight + {d}, loop := Looped(p.loop.left - 1))
  }

  /** A permit is taken if one is free; otherwise the loop waits. */
  function Acquired(p: Pool, d: nat): Pool
    requires p.loop.Handing? && p.loop.left > 0
  {
    if p.free > 0 then Spawned(p.(free := p.free - 1), d)
    else p.(loop := Handing(p.loop.left, true, false))
  }

  /** A released permit goes to the waiting loop, if it has none yet. */
  function Freed(p: Pool, d: nat): Pool {
    var q := p.(running := p.running - {d});
    if p.loop.Handing? && p.loop.waiting && !p.loop.granted
    then q.(loop := Handing(p.loop.left, true, true))
    else q.(free := p.free + 1)
  }

  function PoolApply(p: Pool, jobs: map<nat, Job>, step: Step): Pool
    requires PoolEnabled(p, jobs, step)
  {
    match step
    case Stop => p.(stopping := true)
    case Poll => p.(loop := Fetching)
    case Fetch(count) => p.(loop := Looped(count))
    case Acquire(d) => Acquired(p, d)
    case Resume(d) => Spawned(p, d)
    case Drain => p.(loop := Draining)
    case Close => p.(loop := Stopped)
    case Forget(d) => p.(inflight := p.inflight - {d})
    case Work(d, a) => if a == Release then Freed(p, d) else p
    case _ => p
  }

  // ---------- Jobs and numbers ----------

  /** The number INCR returns. */
  predicate RightNumber(ns: Numbers, j: Job, a: Action) { a.Number? ==> a.n == Counter(ns, j.alert) + 1 }

  predicate Works(jobs: map<nat, Job>, d: nat, a: Action) { d in jobs && Can(jobs[d], a) }

  /** When Redis fails, the process's own counter numbers the event. */
  function LocalNumber(s: State, d: nat): Action
    requires d in s.jobs
  {
    Number(Count(s.numbers.locals, s.jobs[d].alert) + 1)
  }

  predicate Enabled(s: State, step: Step) {
    && PoolEnabled(s.pool, s.jobs, step)
    && (step.Work? ==> Works(s.jobs, step.d, step.action) && RightNumber(s.numbers, s.jobs[step.d], step.action))
    && (step.Fallback? ==> step.d in s.jobs && Can(s.jobs[step.d], LocalNumber(s, step.d)))
  }

  function JobsApply(s: State, step: Step): map<nat, Job>
    requires Enabled(s, step)
  {
    match step
    case Acquire(d) => if s.pool.free > 0 then s.jobs[d := NEW] else s.jobs
    case Resume(d) => s.jobs[d := NEW]
    case Work(d, a) => s.jobs[d := Act(s.jobs[d], a)]
    case Fallback(d, _) => s.jobs[d := Act(s.jobs[d], LocalNumber(s, d))]
    case _ => s.jobs
  }

  function Bumped(ns: Numbers, alert: string): Numbers {
    ns.(counters := ns.counters[alert := Counter(ns, alert) + 1])
  }

  function WorkNumbers(ns: Numbers, j: Job, a: Action): Numbers
    requires Can(j, a)
  {
    match a
    case Number(_) => Bumped(ns, j.alert)
    case Publish => ns.(published := ns.published[j.alert := PublishedOf(ns, j.alert) + [j.stage.number]])
    case _ => ns
  }

  function NumbersApply(s: State, step: Step): Numbers
    requires Enabled(s, step)
  {
    match step
    case Work(d, a) => WorkNumbers(s.numbers, s.jobs[d], a)
    case Fallback(d, bumped) =>
      var alert := s.jobs[d].alert;
      var ns := s.numbers.(locals := s.numbers.locals[alert := Count(s.numbers.locals, alert) + 1]);
      if bumped then Bumped(ns, alert) else ns
    case Elsewhere(alert) => Bumped(s.numbers, alert)
    case CounterGone(alert) => s.numbers.(counters := s.numbers.counters - {alert})
    case _ => s.numbers
  }

  function Apply(s: State, step: Step): State
    requires Enabled(s, step)
  {
    State(PoolApply(s.pool, s.jobs, step), JobsApply(s, step), NumbersApply(s, step))
  }

  predicate Legal(s: State, steps: seq<Step>)
    decreases |steps|
  {
    steps == [] || (Enabled(s, steps[0]) && Legal(Apply(s, steps[0]), steps[1..]))
  }

  function Exec(s: State, steps: seq<Step>): State
    requires Legal(s, steps)
    decreases |steps|
  {
    if steps == [] then s else Exec(Apply(s, steps[0]), steps[1..])
  }

  // ---------- Permits ----------

  function Granted(p: Pool): nat { if p.loop.Handing? && p.loop.granted then 1 else 0 }

  /** Every permit is free, held by a running job, or on its way to the loop; and the loop waits only
      while none is free. */
  predicate Conserved(p: Pool, maxInflight: nat) {
    && p.free + |p.running| + Granted(p) == maxInflight
    && p.running <= p.inflight
    && (p.loop.Handing? ==> p.loop.left > 0 && (p.loop.granted ==> p.loop.waiting))
    && (p.loop.Handing? && p.loop.waiting && !p.loop.granted ==> p.free == 0)
  }

  /** Jobs exist exactly for the dispatches made, and the running ones are those not yet released. */
  predicate Matching(p: Pool, jobs: map<nat, Job>) {
    && (forall d <- p.running :: d in jobs && jobs[d].stage != Released)
    && (forall d <- jobs :: jobs[d].stage != Released ==> d in p.running)
    && (forall d <- p.inflight :: d in jobs)
  }

  lemma SpawnKeeps(p: Pool, jobs: map<nat, Job>, d: nat, maxInflight: nat)
    requires Matching(p, jobs) && p.running <= p.inflight && d !in jobs
    requires p.loop.Handing? && p.loop.left > 0
    requires p.free + |p.running| + 1 == maxInflight
    ensures Conserved(Spawned(p, d), maxInflight) && Matching(Spawned(p, d), jobs[d := NEW])
  {
    assert d !in p.running && |p.running + {d}| == |p.running| + 1;
    var q := Spawned(p, d);
    assert q.running == p.running + {d} && q.free == p.free && Granted(q) == 0;
    SpawnMatches(p, jobs, d);
  }

  lemma SpawnMatches(p: Pool, jobs: map<nat, Job>, d: nat)
    requires Matching(p, jobs) && d !in jobs && p.loop.Handing? && p.loop.left > 0
    ensures Matching(Spawned(p, d), jobs[d := NEW])
  {
  }

  lemma FreeKeeps(p: Pool, jobs: map<nat, Job>, d: nat, j: Job, maxInflight: nat)
    requires Conserved(p, maxInflight) && Matching(p, jobs) && d in p.running && j.stage == Released
    ensures Conserved(Freed(p, d), maxInflight) && Matching(Freed(p, d), jobs[d := j])
  {
    assert |p.running - {d}| == |p.running| - 1;
  }

  lemma WorkKeeps(p: Pool, jobs: map<nat, Job>, d: nat, a: Action, maxInflight: nat)
    requires Conserved(p, maxInflight) && Matching(p, jobs)
    requires d in jobs && Can(jobs[d], a)
    ensures a == Release ==> d in p.running
    ensures a != Release ==> Matching(p, jobs[d := Act(jobs[d], a)])
    ensures a == Release ==> Conserved(Freed(p, d), maxInflight) && Matching(Freed(p, d), jobs[d := Act(jobs[d], a)])
  {
    if a == Release {
      FreeKeeps(p, jobs, d, Act(jobs[d], a), maxInflight);
    } else {
      ActNotReleased(jobs[d], a);
    }
  }

  lemma ActNotReleased(j: Job, a: Action)
    requires Can(j, a)
    ensures Act(j, a).stage == Released <==> a == Release
    ensures j.stage != Released
  {
  }

  lemma PoolKeeps(s: State, step: Step, maxInflight: nat)
    requires Conserved(s.pool, maxInflight) && Matching(s.pool, s.jobs) && Enabled(s, step)
    ensures Conserved(Apply(s, step).pool, maxInflight) && Matching(Apply(s, step).pool, Apply(s, step).jobs)
  {
    match step
    case Acquire(d) =>
      if s.pool.free > 0 { SpawnKeeps(s.pool.(free := s.pool.free - 1), s.jobs, d, maxInflight); }
    case Resume(d) => SpawnKeeps(s.pool, s.jobs, d, maxInflight);
    case Work(d, a) => WorkKeeps(s.pool, s.jobs, d, a, maxInflight);
    case Fallback(d, _) => WorkKeeps(s.pool, s.jobs, d, LocalNumber(s, d), maxInflight);
    case _ =>
  }

  // ---------- Jobs ----------

  predicate AllFit(jobs: map<nat, Job>) { forall d <- jobs :: Fit(jobs[d]) }

  lemma JobsKeep(s: State, step: Step)
    requires AllFit(s.jobs) && Enabled(s, step)
    ensures AllFit(Apply(s, step).jobs)
  {
    if step.Work? {
      ActFits(s.jobs[step.d], step.action);
    } else if step.Fallback? {
      ActFits(s.jobs[step.d], LocalNumber(s, step.d));
    }
  }

  lemma {:induction false} RunKeeps(s: State, steps: seq<Step>, maxInflight: nat)
    requires Conserved(s.pool, maxInflight) && Matching(s.pool, s.jobs) && AllFit(s.jobs) && Legal(s, steps)
    ensures var e := Exec(s, steps); Conserved(e.pool, maxInflight) && Matching(e.pool, e.jobs) && AllFit(e.jobs)
    decreases |steps|
  {
    if steps != [] {
      PoolKeeps(s, steps[0], maxInflight);
      JobsKeep(s, steps[0]);
      RunKeeps(Apply(s, steps[0]), steps[1..], maxInflight);
    }
  }

  // ---------- What jobs have met ----------

  ghost predicate Faithful(j: Job) { Remembers(j) && Phased(j) && Named(j) && Guarded(j) }

  ghost predicate AllFaithful(jobs: map<nat, Job>) { forall d <- jobs :: Faithful(jobs[d]) }

  lemma ActFaithful(j: Job, a: Action)
    requires Fit(j) && Faithful(j) && Can(j, a)
    ensures Faithful(Act(j, a))
  {
    ActRemembers(j, a);
    ActPhases(j, a);
    ActNamed(j, a);
    ActGuarded(j, a);
  }

  lemma StepFaithful(s: State, step: Step)
    requires AllFit(s.jobs) && AllFaithful(s.jobs) && Enabled(s, step)
    ensures AllFaithful(Apply(s, step).jobs)
  {
    if step.Work? {
      ActFaithful(s.jobs[step.d], step.action);
    } else if step.Fallback? {
      ActFaithful(s.jobs[step.d], LocalNumber(s, step.d));
    }
  }

  lemma {:induction false} RunFaithful(s: State, steps: seq<Step>)
    requires AllFit(s.jobs) && AllFaithful(s.jobs) && Legal(s, steps)
    ensures AllFaithful(Exec(s, steps).jobs)
    decreases |steps|
  {
    if steps != [] {
      JobsKeep(s, steps[0]);
      StepFaithful(s, steps[0]);
      RunFaithful(Apply(s, steps[0]), steps[1..]);
    }
  }

  /** Every settled message is acked exactly if its job saw a cancel before the triage or the triage
      succeeded, and nothing raised; terminated exactly if it had no token, a bad one, or a body that
      cannot be parsed; and otherwise handed back for redelivery. */
  lemma SettledAsMet(steps: seq<Step>, maxInflight: nat, d: nat)
    requires Legal(Initial(maxInflight), steps) && d in Exec(Initial(maxInflight), steps).jobs
    requires Exec(Initial(maxInflight), steps).jobs[d].settled != []
    ensures var j := Exec(Initial(maxInflight), steps).jobs[d];
            j.settled ==
              if (Met(j, Check(true)) || Met(j, Triage(true))) && !Met(j, Raise) then [Ack]
              else if Met(j, Start(false)) || Met(j, Verify(BadToken)) || Met(j, Verify(Poison)) then [Term]
              else [Nak]
  {
    RunKeeps(Initial(maxInflight), steps, maxInflight);
    RunFaithful(Initial(maxInflight), steps);
    var j := Exec(Initial(maxInflight), steps).jobs[d];
    assert Fit(j) && Faithful(j);
    assert j.settled == [j.settled[0]];
  }

  /** What a job announces: queued first, then cancelled, done or failed according to what it met, to the
      end unless something raised; and always of the alert and the tenant its message was verified for. */
  lemma AnnouncedAsMet(steps: seq<Step>, maxInflight: nat, d: nat)
    requires Legal(Initial(maxInflight), steps) && d in Exec(Initial(maxInflight), steps).jobs
    ensures var j := Exec(Initial(maxInflight), steps).jobs[d];
            && |j.log| <= 2 && (|j.log| >= 1 ==> j.log[0].phase == Queued)
            && (|j.log| == 2 ==>
                  && (j.log[1].phase == Cancelled <==> Met(j, Check(true)))
                  && (j.log[1].phase == Done <==> Met(j, Triage(true)))
                  && (j.log[1].phase == Failed <==> Met(j, Triage(false))))
            && (j.settled != [] && !Met(j, Raise) && j.tenant != "" ==>
                  (Met(j, Check(true)) || Met(j, Triage(true)) || Met(j, Triage(false)) ==> |j.log| == 2))
            && (forall x, t :: Met(j, Verify(Fine(x, t))) ==> j.alert == x && j.tenant == t)
  {
    RunKeeps(Initial(maxInflight), steps, maxInflight);
    RunFaithful(Initial(maxInflight), steps);
    var j := Exec(Initial(maxInflight), steps).jobs[d];
    assert Fit(j) && Faithful(j);
  }

  /** Nothing is announced before the message is verified, nothing is triaged unless the cancel flag was
      looked up after that and not set, and a flag that was set ends the job without a triage. */
  lemma NothingUnchecked(steps: seq<Step>, maxInflight: nat, d: nat)
    requires Legal(Initial(maxInflight), steps) && d in Exec(Initial(maxInflight), steps).jobs
    ensures var j := Exec(Initial(maxInflight), steps).jobs[d];
            && (j.log != [] || MetCheck(j) || MetTriage(j) ==> Met(j, Verify(Fine(j.alert, j.tenant))))
            && (j.stage == Triaging || MetTriage(j) ==> Met(j, Check(false)) && !Met(j, Check(true)))
  {
    RunKeeps(Initial(maxInflight), steps, maxInflight);
    RunFaithful(Initial(maxInflight), steps);
    assert Faithful(Exec(Initial(maxInflight), steps).jobs[d]);
  }

  // ---------- Stopping ----------

  /** Once draining, the loop dispatches nothing more; once stopped, no task is left. */
  predicate Drained(s: State) { s.pool.loop == Stopped ==> s.pool.inflight == {} }

  lemma {:induction false} RunDrains(s: State, steps: seq<Step>)
    requires Drained(s) && Legal(s, steps)
    ensures Drained(Exec(s, steps))
    decreases |steps|
  {
    if steps != [] { RunDrains(Apply(s, steps[0]), steps[1..]); }
  }

  /** When the loop has stopped every dispatched message is settled and every permit free again. */
  lemma StopsClean(steps: seq<Step>, maxInflight: nat)
    requires Legal(Initial(maxInflight), steps) && Exec(Initial(maxInflight), steps).pool.loop == Stopped
    ensures var e := Exec(Initial(maxInflight), steps);
            e.pool.free == maxInflight && forall d <- e.jobs :: e.jobs[d].stage == Released && |e.jobs[d].settled| == 1
  {
    RunKeeps(Initial(maxInflight), steps, maxInflight);
    RunDrains(Initial(maxInflight), steps);
    var e := Exec(Initial(maxInflight), steps);
    assert e.pool.running <= {};
    forall d <- e.jobs ensures e.jobs[d].stage == Released && |e.jobs[d].settled| == 1 { assert Fit(e.jobs[d]); }
  }

  // ---------- The statements ----------

  /** Permits are conserved over any schedule, so at most max_inflight jobs run, and the loop never
      waits while a permit is free. */
  lemma PermitsConserved(steps: seq<Step>, maxInflight: nat)
    requires Legal(Initial(maxInflight), steps)
    ensures var p := Exec(Initial(maxInflight), steps).pool;
            && p.free + |p.running| + Granted(p) == maxInflight && |p.running| <= maxInflight
            && (p.loop.Handing? && p.loop.waiting && !p.loop.granted ==> |p.running| == maxInflight)
  {
    RunKeeps(Initial(maxInflight), steps, maxInflight);
  }

  /** Every dispatched message gets exactly one of ack, nak and term before its permit is released and
      none before that; ack exactly for the jobs whose handler returned, and those have announced
      done or cancelled. */
  lemma SettledOnce(steps: seq<Step>, maxInflight: nat, d: nat)
    requires Legal(Initial(maxInflight), steps) && d in Exec(Initial(maxInflight), steps).jobs
    ensures var e := Exec(Initial(maxInflight), steps); var j := e.jobs[d];
            && (d !in e.pool.running ==> |j.settled| == 1)
            && |j.settled| <= 1
            && (j.settled == [Ack] ==> j.returned && (j.tenant != "" ==> Last(j.log, {Done, Cancelled})))
            && (j.returned && d !in e.pool.running ==> j.settled == [Ack])
            && (Last(j.log, {Failed}) ==> Ack !in j.settled)
  {
    RunKeeps(Initial(maxInflight), steps, maxInflight);
    assert Fit(Exec(Initial(maxInflight), steps).jobs[d]);
  }
}
