/** How often an alert's publishes can fail, how far apart they are, and how long the alert stays in the
    log, over interleaved runs of any number of reconcilers. */
module WalBounds {
  import opened WalStore
  import opened WalProtocol
  import opened WalLease

  /** o is at work on alert a and has not come to releasing its lease. */
  predicate Active(s: State, o: Owner, a: AlertId) { o in s.jobs && s.jobs[o].id == a && !s.jobs[o].at.Release? }

  /** No lease on a is lost between acquire and release. */
  ghost predicate Leased(s: State, a: AlertId, span: Span) { forall o | Active(s, o, a) :: Holds(s, o, span) }

  /** Has failed to publish and not yet recorded it. */
  predicate Beyond(j: Job) { j.at.SetNext? || j.at.CallDlq? || j.at.DelDlq? }

  /** For alert a, INCR, EXPIRE, the SETEX of the next key and the DEL of giving up succeed and say so; no
      reconciler dies between a failed publish and its record; and the alert is not written again. */
  predicate Steady(s: State, step: Step, a: AlertId)
    requires Enabled(s, step)
  {
    match step
    case WriteAhead(_, id, _, ok) => id != a || !ok
    case Work(o, ok) =>
      s.jobs[o].id == a && (Losable(s.jobs[o].at) || s.jobs[o].at.DelDlq?) ==> ok
    case Unanswered(o) => s.jobs[o].id != a
    case Crash(o) => s.jobs[o].id == a ==> !Beyond(s.jobs[o])
    case _ => true
  }

  ghost predicate SteadyRun(s: State, run: seq<Step>, a: AlertId, cfg: Config)
    requires Legal(s, run, cfg)
    decreases |run|
  {
    Leased(s, a, cfg.leaseSpan) &&
    (run == [] || (Steady(s, run[0], a) && SteadyRun(Apply(s, run[0], cfg), run[1..], a, cfg)))
  }

  /** A reconciler's publish of a that the broker does not acknowledge. */
  predicate Fails(s: State, step: Step, a: AlertId) {
    step.Work? && !step.ok && Active(s, step.o, a) && s.jobs[step.o].at.Publish?
  }

  function Failures(s: State, run: seq<Step>, a: AlertId, cfg: Config): nat
    requires Legal(s, run, cfg)
    decreases |run|
  {
    if run == [] then 0
    else (if Fails(s, run[0], a) then 1 else 0) + Failures(Apply(s, run[0], cfg), run[1..], a, cfg)
  }

  /** Just written, with nothing left over from an earlier life and nobody at work on it. */
  ghost predicate Fresh(s: State, a: AlertId, age: Span) {
    && a in s.keys.pending && s.keys.pending[a].exp == s.keys.now + age
    && a !in s.keys.attempts && a !in s.keys.next
    && forall o <- s.jobs :: s.jobs[o].id != a
  }

  // ---------- One alert's part of the state ----------

  /** s and s' agree on a's keys and on the jobs at work on a. */
  ghost predicate Agree(s: State, s': State, a: AlertId) {
    && s'.keys.now == s.keys.now
    && (a in s'.keys.pending <==> a in s.keys.pending)
    && (a in s.keys.pending ==> s'.keys.pending[a] == s.keys.pending[a])
    && (a in s'.keys.attempts <==> a in s.keys.attempts)
    && (a in s.keys.attempts ==> s'.keys.attempts[a] == s.keys.attempts[a])
    && (a in s'.keys.next <==> a in s.keys.next) && (a in s.keys.next ==> s'.keys.next[a] == s.keys.next[a])
    && (forall o | Active(s', o, a) :: Active(s, o, a) && s'.jobs[o] == s.jobs[o])
  }

  lemma JobElsewhere(s: State, o: Owner, ok: bool, a: AlertId, cfg: Config)
    requires o in s.jobs && s.jobs[o].id != a
    ensures Agree(s, StepJob(s, o, ok, cfg), a)
  {
    if Reading(s.jobs[o].at) {
      ReadingElsewhere(s, o, ok, a, cfg);
    } else if Counting(s.jobs[o].at) {
      CountingElsewhere(s, o, ok, a, cfg);
    } else {
      PublishingElsewhere(s, o, ok, a, cfg);
    }
  }

  lemma ReadingElsewhere(s: State, o: Owner, ok: bool, a: AlertId, cfg: Config)
    requires o in s.jobs && s.jobs[o].id != a && Reading(s.jobs[o].at)
    ensures Agree(s, StepJob(s, o, ok, cfg), a)
  {
  }

  lemma CountingElsewhere(s: State, o: Owner, ok: bool, a: AlertId, cfg: Config)
    requires o in s.jobs && s.jobs[o].id != a && Counting(s.jobs[o].at)
    ensures Agree(s, StepJob(s, o, ok, cfg), a)
  {
  }

  lemma PublishingElsewhere(s: State, o: Owner, ok: bool, a: AlertId, cfg: Config)
    requires o in s.jobs && s.jobs[o].id != a && Publishing(s.jobs[o].at)
    ensures Agree(s, StepJob(s, o, ok, cfg), a)
  {
  }

  lemma UnansweredElsewhere(s: State, o: Owner, a: AlertId, age: Span)
    requires o in s.jobs && Losable(s.jobs[o].at) && s.jobs[o].id != a
    ensures Agree(s, SendUnanswered(s, o, age), a)
    ensures forall p | Active(s, p, a) :: Active(SendUnanswered(s, o, age), p, a)
  {
  }

  lemma IngestElsewhere(s: State, i: nat, ok: bool, a: AlertId)
    requires i in s.ingests && s.ingests[i].id != a
    ensures Agree(s, StepIngest(s, i, ok), a)
  {
    var id, s' := s.ingests[i].id, StepIngest(s, i, ok);
    assert s'.jobs == s.jobs;
    assert s'.keys == s.keys || s'.keys == s.keys.Published(id);
  }

  /** Releasing a lease on a, dropping a job or finishing one that reads nothing. */
  lemma ReleaseAgrees(s: State, o: Owner, ok: bool, a: AlertId, cfg: Config)
    requires o in s.jobs && s.jobs[o].at.Release?
    ensures Agree(s, StepJob(s, o, ok, cfg), a)
  {
  }

  /** At most one reconciler at a time is active on a. */
  lemma OnlyOne(s: State, a: AlertId, span: Span, o: Owner, p: Owner)
    requires Leased(s, a, span) && Active(s, o, a) && Active(s, p, a)
    ensures o == p
  {
    assert Holds(s, o, span) && Holds(s, p, span);
  }

  // ---------- Seven failures ----------

  /** Will give up once it has gone on. */
  predicate Final(j: Job) { (j.at.SetNext? && j.n >= |BACKOFF|) || j.at.CallDlq? || j.at.DelDlq? }

  predicate JobBound(s: State, j: Job, a: AlertId, f: nat) {
    && (j.at.Incr? || Counted(j) ==> f <= 6)
    && (Counted(j) && a in s.keys.pending ==> j.n == s.keys.Attempts(a) && f < j.n)
    && (j.at.SetNext? && a in s.keys.pending ==> j.n == s.keys.Attempts(a) && f <= j.n)
  }

  predicate Counted(j: Job) { j.at.Expire? || j.at.CheckNext? || j.at.Publish? }

  /** After f failed publishes of a: the counter has counted them, and outlives the value. */
  ghost predicate Bound(s: State, a: AlertId, f: nat, age: Span) {
    && f <= 7
    && (a in s.keys.pending ==>
          && s.keys.pending[a].exp <= s.keys.now + age && f <= s.keys.Attempts(a)
          && (a in s.keys.attempts ==> s.keys.attempts[a].exp.After(s.keys.pending[a].exp - 1)))
    && (a in s.keys.pending && (forall o | Active(s, o, a) :: !Final(s.jobs[o])) ==> f <= 6)
    && (forall o | Active(s, o, a) :: JobBound(s, s.jobs[o], a, f))
  }

  lemma AgreeBound(s: State, s': State, a: AlertId, f: nat, age: Span)
    requires Bound(s, a, f, age) && Agree(s, s', a)
    requires forall o | Active(s, o, a) && !Active(s', o, a) :: !Final(s.jobs[o])
    ensures Bound(s', a, f, age)
  {
    assert s'.keys.Attempts(a) == s.keys.Attempts(a);
  }

  lemma TickBound(s: State, d: nat, a: AlertId, f: nat, age: Span)
    requires Bound(s, a, f, age)
    ensures Bound(Elapse(s, d), a, f, age)
  {
    var s' := Elapse(s, d);
    if a in s'.keys.pending { assert s'.keys.Attempts(a) == s.keys.Attempts(a); }
  }

  /** The value may go at any time; nothing else of Bound is touched by that. */
  lemma IngestBound(s: State, i: nat, ok: bool, a: AlertId, f: nat, age: Span)
    requires Bound(s, a, f, age) && i in s.ingests && s.ingests[i].id == a
    ensures Bound(StepIngest(s, i, ok), a, f, age)
  {
    var s' := StepIngest(s, i, ok);
    assert s'.jobs == s.jobs && s'.keys.now == s.keys.now;
    assert s'.keys == s.keys || a !in s'.keys.pending;
  }

  lemma GetBound(s: State, o: Owner, ok: bool, a: AlertId, f: nat, cfg: Config)
    requires Bound(s, a, f, cfg.maxAge) && Active(s, o, a) && s.jobs[o].at.Get? && Alone(s, o, a)
    ensures Bound(StepJob(s, o, ok, cfg), a, f, cfg.maxAge)
  {
  }

  /** o is the one active on a. */
  ghost predicate Alone(s: State, o: Owner, a: AlertId) { forall p | Active(s, p, a) :: p == o }

  lemma DropBound(s: State, o: Owner, ok: bool, a: AlertId, f: nat, cfg: Config)
    requires Bound(s, a, f, cfg.maxAge) && Active(s, o, a) && Alone(s, o, a)
    requires s.jobs[o].at.Drop? || s.jobs[o].at.Mark?
    ensures Bound(StepJob(s, o, ok, cfg), a, f, cfg.maxAge)
  {
  }

  lemma IncrBound(s: State, o: Owner, a: AlertId, f: nat, cfg: Config)
    requires Bound(s, a, f, cfg.maxAge) && Active(s, o, a) && Alone(s, o, a) && s.jobs[o].at.Incr?
    ensures Bound(StepJob(s, o, true, cfg), a, f, cfg.maxAge)
  {
  }

  lemma ExpireBound(s: State, o: Owner, a: AlertId, f: nat, cfg: Config)
    requires Bound(s, a, f, cfg.maxAge) && Active(s, o, a) && Alone(s, o, a) && s.jobs[o].at.Expire?
    ensures Bound(StepJob(s, o, true, cfg), a, f, cfg.maxAge)
  {
  }

  lemma CheckBound(s: State, o: Owner, ok: bool, a: AlertId, f: nat, cfg: Config)
    requires Bound(s, a, f, cfg.maxAge) && Active(s, o, a) && Alone(s, o, a) && s.jobs[o].at.CheckNext?
    ensures Bound(StepJob(s, o, ok, cfg), a, f, cfg.maxAge)
  {
  }

  lemma PublishBound(s: State, o: Owner, ok: bool, a: AlertId, f: nat, cfg: Config)
    requires Bound(s, a, f, cfg.maxAge) && Active(s, o, a) && Alone(s, o, a) && s.jobs[o].at.Publish?
    ensures Bound(StepJob(s, o, ok, cfg), a, if ok then f else f + 1, cfg.maxAge)
  {
    var s' := StepJob(s, o, ok, cfg);
    forall p | Active(s', p, a) ensures p == o { assert Active(s, p, a); }
    assert o in s'.jobs && Final(s'.jobs[o]) ==> Active(s', o, a);
  }

  lemma SetNextBound(s: State, o: Owner, a: AlertId, f: nat, cfg: Config)
    requires Bound(s, a, f, cfg.maxAge) && Active(s, o, a) && Alone(s, o, a) && s.jobs[o].at.SetNext?
    ensures Bound(StepJob(s, o, true, cfg), a, f, cfg.maxAge)
  {
    var s' := StepJob(s, o, true, cfg);
    forall p | Active(s', p, a) ensures p == o { assert Active(s, p, a); }
    assert o in s'.jobs && Final(s'.jobs[o]) ==> Active(s', o, a);
  }

  lemma GiveUpBound(s: State, o: Owner, ok: bool, a: AlertId, f: nat, cfg: Config)
    requires Bound(s, a, f, cfg.maxAge) && Active(s, o, a) && Alone(s, o, a)
    requires s.jobs[o].at.CallDlq? || (s.jobs[o].at.DelDlq? && ok)
    ensures Bound(StepJob(s, o, ok, cfg), a, f, cfg.maxAge)
  {
    var s' := StepJob(s, o, ok, cfg);
    forall p | Active(s', p, a) ensures p == o { assert Active(s, p, a); }
    assert o in s'.jobs && Final(s'.jobs[o]) ==> Active(s', o, a);
  }

  lemma JobStepBound(s: State, o: Owner, ok: bool, a: AlertId, f: nat, cfg: Config)
    requires Leased(s, a, cfg.leaseSpan) && Bound(s, a, f, cfg.maxAge) && o in s.jobs && Steady(s, Work(o, ok), a)
    ensures Bound(StepJob(s, o, ok, cfg), a, if Fails(s, Work(o, ok), a) then f + 1 else f, cfg.maxAge)
  {
    if s.jobs[o].id != a || s.jobs[o].at.Release? {
      IdleStepBound(s, o, ok, a, f, cfg);
    } else {
      forall p | Active(s, p, a) ensures p == o { OnlyOne(s, a, cfg.leaseSpan, o, p); }
      ActiveStepBound(s, o, ok, a, f, cfg);
    }
  }

  lemma IdleStepBound(s: State, o: Owner, ok: bool, a: AlertId, f: nat, cfg: Config)
    requires Bound(s, a, f, cfg.maxAge) && o in s.jobs && !Active(s, o, a)
    ensures Bound(StepJob(s, o, ok, cfg), a, f, cfg.maxAge)
  {
    if s.jobs[o].id != a { JobElsewhere(s, o, ok, a, cfg); } else { ReleaseAgrees(s, o, ok, a, cfg); }
    IdleStays(s, o, ok, a, cfg);
    AgreeBound(s, StepJob(s, o, ok, cfg), a, f, cfg.maxAge);
  }

  lemma IdleStays(s: State, o: Owner, ok: bool, a: AlertId, cfg: Config)
    requires o in s.jobs && !Active(s, o, a)
    ensures forall p | Active(s, p, a) :: Active(StepJob(s, o, ok, cfg), p, a)
  {
    JobOnlyIt(s, o, ok, cfg);
  }

  lemma JobOnlyIt(s: State, o: Owner, ok: bool, cfg: Config)
    requires o in s.jobs
    ensures forall p | p in s.jobs && p != o ::
              p in StepJob(s, o, ok, cfg).jobs && StepJob(s, o, ok, cfg).jobs[p] == s.jobs[p]
  {
    if Reading(s.jobs[o].at) {
      ReadingOnlyIt(s, o, ok, cfg);
    } else if Counting(s.jobs[o].at) {
      CountingOnlyIt(s, o, ok, cfg);
    } else {
      PublishingOnlyIt(s, o, ok, cfg);
    }
  }

  lemma ReadingOnlyIt(s: State, o: Owner, ok: bool, cfg: Config)
    requires o in s.jobs && Reading(s.jobs[o].at)
    ensures forall p | p in s.jobs && p != o ::
              p in StepJob(s, o, ok, cfg).jobs && StepJob(s, o, ok, cfg).jobs[p] == s.jobs[p]
  {
  }

  lemma CountingOnlyIt(s: State, o: Owner, ok: bool, cfg: Config)
    requires o in s.jobs && Counting(s.jobs[o].at)
    ensures forall p | p in s.jobs && p != o ::
              p in StepJob(s, o, ok, cfg).jobs && StepJob(s, o, ok, cfg).jobs[p] == s.jobs[p]
  {
  }

  lemma PublishingOnlyIt(s: State, o: Owner, ok: bool, cfg: Config)
    requires o in s.jobs && Publishing(s.jobs[o].at)
    ensures forall p | p in s.jobs && p != o ::
              p in StepJob(s, o, ok, cfg).jobs && StepJob(s, o, ok, cfg).jobs[p] == s.jobs[p]
  {
  }

  lemma ActiveStepBound(s: State, o: Owner, ok: bool, a: AlertId, f: nat, cfg: Config)
    requires Bound(s, a, f, cfg.maxAge) && Active(s, o, a) && Alone(s, o, a) && Steady(s, Work(o, ok), a)
    ensures Bound(StepJob(s, o, ok, cfg), a, if Fails(s, Work(o, ok), a) then f + 1 else f, cfg.maxAge)
  {
    match s.jobs[o].at
    case Get => GetBound(s, o, ok, a, f, cfg);
    case Drop => DropBound(s, o, ok, a, f, cfg);
    case Mark => DropBound(s, o, ok, a, f, cfg);
    case Incr => IncrBound(s, o, a, f, cfg);
    case Expire => ExpireBound(s, o, a, f, cfg);
    case CheckNext => CheckBound(s, o, ok, a, f, cfg);
    case Publish => PublishBound(s, o, ok, a, f, cfg);
    case SetNext => SetNextBound(s, o, a, f, cfg);
    case _ => GiveUpBound(s, o, ok, a, f, cfg);
  }

  lemma StepBound(s: State, step: Step, a: AlertId, f: nat, cfg: Config)
    requires Leased(s, a, cfg.leaseSpan) && Bound(s, a, f, cfg.maxAge) && Enabled(s, step) && Steady(s, step, a)
    ensures Bound(Apply(s, step, cfg), a, if Fails(s, step, a) then f + 1 else f, cfg.maxAge)
  {
    match step
    case Tick(d) => TickBound(s, d, a, f, cfg.maxAge);
    case IngestStep(i, ok) =>
      if s.ingests[i].id == a { IngestBound(s, i, ok, a, f, cfg.maxAge); }
      else {
        IngestElsewhere(s, i, ok, a);
        AgreeBound(s, StepIngest(s, i, ok), a, f, cfg.maxAge);
      }
    case Work(o, ok) => JobStepBound(s, o, ok, a, f, cfg);
    case Acquire(o, id) => AcquireBound(s, o, id, a, f, cfg);
    case Unanswered(o) =>
      UnansweredElsewhere(s, o, a, cfg.maxAge);
      AgreeBound(s, SendUnanswered(s, o, cfg.maxAge), a, f, cfg.maxAge);
    case _ => OtherBound(s, step, a, f, cfg);
  }

  lemma OtherBound(s: State, step: Step, a: AlertId, f: nat, cfg: Config)
    requires Bound(s, a, f, cfg.maxAge) && Enabled(s, step) && Steady(s, step, a)
    requires step.WriteAhead? || step.Crash? || step.Abandon?
    ensures Bound(Apply(s, step, cfg), a, f, cfg.maxAge)
  {
    AgreeBound(s, Apply(s, step, cfg), a, f, cfg.maxAge);
  }

  lemma AcquireBound(s: State, o: Owner, id: AlertId, a: AlertId, f: nat, cfg: Config)
    requires Bound(s, a, f, cfg.maxAge) && Enabled(s, Acquire(o, id))
    requires Leased(s, a, cfg.leaseSpan)
    ensures Bound(Take(s, o, id, cfg.leaseSpan), a, f, cfg.maxAge)
  {
    var s' := Take(s, o, id, cfg.leaseSpan);
    assert s'.keys.Attempts(a) == s.keys.Attempts(a);
    forall p | Active(s, p, a) ensures Active(s', p, a) && s'.jobs[p] == s.jobs[p] {}
    if id == a {
      forall p ensures !Active(s, p, a) { assert Active(s, p, a) ==> Holds(s, p, cfg.leaseSpan); }
    }
  }

  lemma {:induction false} RunBound(s: State, run: seq<Step>, a: AlertId, f: nat, cfg: Config)
    requires Bound(s, a, f, cfg.maxAge) && Legal(s, run, cfg) && SteadyRun(s, run, a, cfg)
    ensures f + Failures(s, run, a, cfg) <= 7
    decreases |run|
  {
    if run != [] {
      StepBound(s, run[0], a, f, cfg);
      RunBound(Apply(s, run[0], cfg), run[1..], a, if Fails(s, run[0], a) then f + 1 else f, cfg);
    }
  }

  /** Over any run of any number of reconcilers in which INCR, EXPIRE, SETEX of the next key and the
      DEL of giving up succeed and no lease is lost, a fresh entry suffers at most seven failed
      publishes, whatever else fails and however the scans fall. */
  lemma SevenFailures(s: State, run: seq<Step>, a: AlertId, cfg: Config)
    requires Fresh(s, a, cfg.maxAge) && Legal(s, run, cfg) && SteadyRun(s, run, a, cfg)
    ensures Failures(s, run, a, cfg) <= 7
  {
    RunBound(s, run, a, 0, cfg);
  }

  // ---------- The distance between publishes ----------

  /** Attempts are counted from one. */
  ghost predicate CountedFromOne(s: State) {
    && (forall id <- s.keys.attempts :: s.keys.attempts[id].value >= 1)
    && (forall o <- s.jobs :: Counted(s.jobs[o]) || s.jobs[o].at.SetNext? ==> s.jobs[o].n >= 1)
  }

  lemma ReadingCounted(s: State, o: Owner, ok: bool, cfg: Config)
    requires CountedFromOne(s) && o in s.jobs && Reading(s.jobs[o].at)
    ensures CountedFromOne(StepJob(s, o, ok, cfg))
  {
  }

  lemma IncrCounted(s: State, o: Owner, ok: bool, cfg: Config)
    requires CountedFromOne(s) && o in s.jobs && s.jobs[o].at.Incr?
    ensures CountedFromOne(StepJob(s, o, ok, cfg))
  {
  }

  lemma CountingCounted(s: State, o: Owner, ok: bool, cfg: Config)
    requires CountedFromOne(s) && o in s.jobs && (s.jobs[o].at.Expire? || s.jobs[o].at.CheckNext?)
    ensures CountedFromOne(StepJob(s, o, ok, cfg))
  {
  }

  lemma PublishingCounted(s: State, o: Owner, ok: bool, cfg: Config)
    requires CountedFromOne(s) && o in s.jobs && Publishing(s.jobs[o].at)
    ensures CountedFromOne(StepJob(s, o, ok, cfg))
  {
  }

  lemma StepCounted(s: State, step: Step, cfg: Config)
    requires CountedFromOne(s) && Enabled(s, step)
    ensures CountedFromOne(Apply(s, step, cfg))
  {
    match step
    case Work(o, ok) => JobCounted(s, o, ok, cfg);
    case IngestStep(i, ok) => IngestCounted(s, i, ok);
    case Unanswered(o) => UnansweredCounted(s, o, cfg.maxAge);
    case _ =>
  }

  lemma JobCounted(s: State, o: Owner, ok: bool, cfg: Config)
    requires CountedFromOne(s) && o in s.jobs
    ensures CountedFromOne(StepJob(s, o, ok, cfg))
  {
    if Reading(s.jobs[o].at) {
      ReadingCounted(s, o, ok, cfg);
    } else if s.jobs[o].at.Incr? {
      IncrCounted(s, o, ok, cfg);
    } else if Counting(s.jobs[o].at) {
      CountingCounted(s, o, ok, cfg);
    } else {
      PublishingCounted(s, o, ok, cfg);
    }
  }

  lemma UnansweredCounted(s: State, o: Owner, age: Span)
    requires CountedFromOne(s) && o in s.jobs && Losable(s.jobs[o].at)
    ensures CountedFromOne(SendUnanswered(s, o, age))
  {
  }

  lemma IngestCounted(s: State, i: nat, ok: bool)
    requires CountedFromOne(s) && i in s.ingests
    ensures CountedFromOne(StepIngest(s, i, ok))
  {
    IngestLeaseEffect(s, i, ok);
    IngestCounter(s, i, ok);
  }

  lemma IngestCounter(s: State, i: nat, ok: bool)
    requires i in s.ingests
    ensures forall id <- StepIngest(s, i, ok).keys.attempts ::
              id in s.keys.attempts && StepIngest(s, i, ok).keys.attempts[id] == s.keys.attempts[id]
  {
  }

  lemma {:induction false} RunCounted(s: State, run: seq<Step>, cfg: Config)
    requires CountedFromOne(s) && Legal(s, run, cfg)
    ensures CountedFromOne(Exec(s, run, cfg))
    decreases |run|
  {
    if run != [] {
      StepCounted(s, run[0], cfg);
      RunCounted(Apply(s, run[0], cfg), run[1..], cfg);
    }
  }

  /** Until due nobody publishes a: the failure is being recorded, or the next key says so, or a is
      gone. */
  ghost predicate Waits(s: State, a: AlertId, due: int) {
    s.keys.now >= due ||
    ((forall o | Active(s, o, a) :: !s.jobs[o].at.Publish?)
        && (Recording(s, a, due) || Scheduled(s, a, due) || Gone(s, a)))
  }

  ghost predicate Recording(s: State, a: AlertId, due: int) {
    exists o :: Active(s, o, a) && Records(s, s.jobs[o], due)
  }

  predicate Records(s: State, j: Job, due: int) { j.at.SetNext? && j.n >= 1 && s.keys.now + Delay(j.n) >= due }

  ghost predicate Scheduled(s: State, a: AlertId, due: int) {
    && a in s.keys.next && s.keys.next[a].value >= due && s.keys.next[a].exp.After(due - 1)
    && forall o | Active(s, o, a) :: !s.jobs[o].at.SetNext?
  }

  ghost predicate Gone(s: State, a: AlertId) {
    a !in s.keys.pending && forall o | Active(s, o, a) :: s.jobs[o].at.Get?
  }

  lemma AgreeWaits(s: State, s': State, a: AlertId, due: int)
    requires Waits(s, a, due) && Agree(s, s', a)
    requires forall o | Active(s, o, a) :: Active(s', o, a)
    ensures Waits(s', a, due)
  {
    if o :| Active(s, o, a) && Records(s, s.jobs[o], due) { assert Active(s', o, a) && Records(s', s'.jobs[o], due); }
  }

  /** Dropping a job that is recording nothing. */
  lemma CrashWaits(s: State, o: Owner, a: AlertId, due: int)
    requires Waits(s, a, due) && o in s.jobs && (s.jobs[o].id == a ==> !Beyond(s.jobs[o]))
    ensures Waits(s.(jobs := s.jobs - {o}), a, due)
  {
    var s' := s.(jobs := s.jobs - {o});
    forall p | Active(s', p, a) ensures Active(s, p, a) && s'.jobs[p] == s.jobs[p] {}
    if p :| Active(s, p, a) && Records(s, s.jobs[p], due) { assert Active(s', p, a) && Records(s', s'.jobs[p], due); }
  }

  lemma TickWaits(s: State, d: nat, a: AlertId, due: int)
    requires Waits(s, a, due)
    ensures Waits(Elapse(s, d), a, due)
  {
    var s' := Elapse(s, d);
    forall o | Active(s', o, a) ensures Active(s, o, a) {}
    if o :| Active(s, o, a) && Records(s, s.jobs[o], due) { assert Active(s', o, a) && Records(s', s'.jobs[o], due); }
  }

  lemma IngestWaits(s: State, i: nat, ok: bool, a: AlertId, due: int)
    requires Waits(s, a, due) && i in s.ingests && s.ingests[i].id == a
    ensures Waits(StepIngest(s, i, ok), a, due)
  {
    var s' := StepIngest(s, i, ok);
    assert s'.jobs == s.jobs && s'.keys.now == s.keys.now && s'.keys.next == s.keys.next;
    assert a in s'.keys.pending ==> a in s.keys.pending;
    forall o | Active(s', o, a) ensures Active(s, o, a) {}
    if o :| Active(s, o, a) && Records(s, s.jobs[o], due) { assert Active(s', o, a) && Records(s', s'.jobs[o], due); }
  }

  lemma AcquireWaits(s: State, o: Owner, id: AlertId, a: AlertId, due: int, cfg: Config)
    requires Waits(s, a, due) && Enabled(s, Acquire(o, id))
    ensures Waits(Take(s, o, id, cfg.leaseSpan), a, due)
  {
    var s' := Take(s, o, id, cfg.leaseSpan);
    forall p | Active(s', p, a) ensures p == o || (Active(s, p, a) && s'.jobs[p] == s.jobs[p]) {}
    if p :| Active(s, p, a) && Records(s, s.jobs[p], due) { assert Active(s', p, a) && Records(s', s'.jobs[p], due); }
  }

  const LONGEST: int := 28800 * SECOND

  lemma DelayBound(n: int)
    requires n >= 1
    ensures 0 < Delay(n) <= LONGEST
  {
  }

  lemma GetWaits(s: State, o: Owner, ok: bool, a: AlertId, due: int, cfg: Config)
    requires Waits(s, a, due) && Active(s, o, a) && Alone(s, o, a)
    requires s.jobs[o].at.Get? || s.jobs[o].at.Drop? || s.jobs[o].at.Mark?
    ensures Waits(StepJob(s, o, ok, cfg), a, due)
  {
    assert !Recording(s, a, due);
  }

  lemma CountWaits(s: State, o: Owner, ok: bool, a: AlertId, due: int, cfg: Config)
    requires Waits(s, a, due) && Active(s, o, a) && Alone(s, o, a) && Counting(s.jobs[o].at)
    ensures Waits(StepJob(s, o, ok, cfg), a, due)
  {
    assert !Recording(s, a, due);
  }

  lemma SetNextWaits(s: State, o: Owner, a: AlertId, due: int, cfg: Config)
    requires Waits(s, a, due) && Active(s, o, a) && Alone(s, o, a) && s.jobs[o].at.SetNext?
    requires cfg.maxAge > LONGEST
    ensures Waits(StepJob(s, o, true, cfg), a, due)
  {
    if s.keys.now < due {
      var q :| Active(s, q, a) && Records(s, s.jobs[q], due);
      assert q == o;
      DelayBound(s.jobs[o].n);
      var s' := StepJob(s, o, true, cfg);
      forall p | Active(s', p, a) ensures p == o { assert Active(s, p, a); }
      assert Scheduled(s', a, due);
    }
  }

  lemma GiveUpWaits(s: State, o: Owner, ok: bool, a: AlertId, due: int, cfg: Config)
    requires Waits(s, a, due) && Active(s, o, a) && Alone(s, o, a)
    requires s.jobs[o].at.CallDlq? || (s.jobs[o].at.DelDlq? && ok)
    ensures Waits(StepJob(s, o, ok, cfg), a, due)
  {
    assert !Recording(s, a, due);
    var s' := StepJob(s, o, ok, cfg);
    forall p | Active(s', p, a) ensures p == o { assert Active(s, p, a); }
    if s.keys.now < due {
      assert Active(s, o, a) && Scheduled(s, a, due);
      if s.jobs[o].at.CallDlq? { assert Scheduled(s', a, due); } else { assert Gone(s', a); }
    }
  }

  lemma PublishWaits(s: State, o: Owner, ok: bool, a: AlertId, due: int, cfg: Config)
    requires Waits(s, a, due) && Active(s, o, a) && s.jobs[o].at.Publish?
    ensures s.keys.now >= due && Waits(StepJob(s, o, ok, cfg), a, due)
  {
  }

  lemma ActiveStepWaits(s: State, o: Owner, ok: bool, a: AlertId, due: int, cfg: Config)
    requires Waits(s, a, due) && Active(s, o, a) && Alone(s, o, a) && Steady(s, Work(o, ok), a) && cfg.maxAge > LONGEST
    ensures Waits(StepJob(s, o, ok, cfg), a, due)
  {
    match s.jobs[o].at
    case Get => GetWaits(s, o, ok, a, due, cfg);
    case Drop => GetWaits(s, o, ok, a, due, cfg);
    case Mark => GetWaits(s, o, ok, a, due, cfg);
    case Publish => PublishWaits(s, o, ok, a, due, cfg);
    case SetNext => SetNextWaits(s, o, a, due, cfg);
    case CallDlq => GiveUpWaits(s, o, ok, a, due, cfg);
    case DelDlq => GiveUpWaits(s, o, ok, a, due, cfg);
    case _ => CountWaits(s, o, ok, a, due, cfg);
  }

  lemma JobStepWaits(s: State, o: Owner, ok: bool, a: AlertId, due: int, cfg: Config)
    requires Leased(s, a, cfg.leaseSpan) && Waits(s, a, due) && o in s.jobs && Steady(s, Work(o, ok), a)
    requires cfg.maxAge > LONGEST
    ensures Waits(StepJob(s, o, ok, cfg), a, due)
  {
    if Active(s, o, a) {
      forall p | Active(s, p, a) ensures p == o { OnlyOne(s, a, cfg.leaseSpan, o, p); }
      ActiveStepWaits(s, o, ok, a, due, cfg);
    } else {
      if s.jobs[o].id != a { JobElsewhere(s, o, ok, a, cfg); } else { ReleaseAgrees(s, o, ok, a, cfg); }
      IdleStays(s, o, ok, a, cfg);
      AgreeWaits(s, StepJob(s, o, ok, cfg), a, due);
    }
  }

  lemma StepWaits(s: State, step: Step, a: AlertId, due: int, cfg: Config)
    requires Leased(s, a, cfg.leaseSpan) && Waits(s, a, due) && Enabled(s, step) && Steady(s, step, a)
    requires cfg.maxAge > LONGEST
    ensures Waits(Apply(s, step, cfg), a, due)
  {
    match step
    case Tick(d) => TickWaits(s, d, a, due);
    case IngestStep(i, ok) =>
      if s.ingests[i].id == a { IngestWaits(s, i, ok, a, due); }
      else {
        IngestElsewhere(s, i, ok, a);
        AgreeWaits(s, StepIngest(s, i, ok), a, due);
      }
    case Work(o, ok) => JobStepWaits(s, o, ok, a, due, cfg);
    case Acquire(o, id) => AcquireWaits(s, o, id, a, due, cfg);
    case Crash(o) => CrashWaits(s, o, a, due);
    case Unanswered(o) =>
      UnansweredElsewhere(s, o, a, cfg.maxAge);
      AgreeWaits(s, SendUnanswered(s, o, cfg.maxAge), a, due);
    case _ => AgreeWaits(s, Apply(s, step, cfg), a, due);
  }

  lemma {:induction false} RunWaits(s: State, run: seq<Step>, a: AlertId, due: int, cfg: Config)
    requires Waits(s, a, due) && Legal(s, run, cfg) && SteadyRun(s, run, a, cfg) && cfg.maxAge > LONGEST
    ensures Waits(Exec(s, run, cfg), a, due)
    decreases |run|
  {
    if run != [] {
      StepWaits(s, run[0], a, due, cfg);
      RunWaits(Apply(s, run[0], cfg), run[1..], a, due, cfg);
    }
  }

  /** After any reconciler's failed publish counted n no reconciler publishes the alert again for 5, 30, 300,
      1800, 3600, 14400 or, from the seventh on, 28800 seconds, in any steady continuation of any run. */
  lemma RetriesApart(before: seq<Step>, o: Owner, a: AlertId, run: seq<Step>, p: Owner, seconds: int, cfg: Config)
    requires Legal(INIT, before, cfg) && cfg.maxAge > LONGEST
    requires var s := Exec(INIT, before, cfg); o in s.jobs ==> PutsOff(s.jobs[o].n, seconds)
    requires var s := Exec(INIT, before, cfg); Fails(s, Work(o, false), a)
    requires var s := Exec(INIT, before, cfg);
             Legal(s, [Work(o, false)] + run, cfg) && SteadyRun(s, [Work(o, false)] + run, a, cfg)
    requires var t := Exec(Exec(INIT, before, cfg), [Work(o, false)] + run, cfg);
             Active(t, p, a) && t.jobs[p].at.Publish?
    ensures var s := Exec(INIT, before, cfg); var t := Exec(s, [Work(o, false)] + run, cfg);
            t.keys.now >= s.keys.now + seconds * 1000
  {
    RunCounted(INIT, before, cfg);
    var s := Exec(INIT, before, cfg);
    DelayIs(s.jobs[o].n, seconds);
    var s1, due := SendPublish(s, o, false), s.keys.now + Delay(s.jobs[o].n);
    assert ([Work(o, false)] + run)[1..] == run;
    forall q | Active(s1, q, a) ensures q == o { OnlyOne(s1, a, cfg.leaseSpan, o, q); }
    assert Active(s1, o, a) && Records(s1, s1.jobs[o], due);
    RunWaits(s1, run, a, due, cfg);
    var t := Exec(s1, run, cfg);
    assert Waits(t, a, due);
  }

  /** Every failed publish is counted, so the schedule says how long the next is put off. */
  lemma EveryFailureCounts(before: seq<Step>, o: Owner, a: AlertId, cfg: Config) returns (seconds: int)
    requires Legal(INIT, before, cfg)
    requires Fails(Exec(INIT, before, cfg), Work(o, false), a)
    ensures PutsOff(Exec(INIT, before, cfg).jobs[o].n, seconds)
  {
    RunCounted(INIT, before, cfg);
    var n := Exec(INIT, before, cfg).jobs[o].n;
    DelayIsSome(n);
    seconds := BACKOFF[Min(n - 1, 6)];
  }

  /** Recording a failure makes the next key due in exactly that many seconds; and whoever then comes to it
      goes on to publish a value with a subject exactly if it is due. */
  lemma DueIff(s: State, o: Owner, p: Owner, seconds: int, d: nat, cfg: Config)
    requires o in s.jobs && s.jobs[o].at.SetNext? && PutsOff(s.jobs[o].n, seconds) && cfg.maxAge > LONGEST
    requires p != o && p in s.jobs && s.jobs[p].id == s.jobs[o].id && s.jobs[p].at.CheckNext? && s.jobs[p].kind.Good?
    ensures var t := Elapse(StepJob(s, o, true, cfg), d);
            && p in t.jobs && t.jobs[p] == s.jobs[p]
            && (StepJob(t, p, true, cfg).jobs[p].at == if d < seconds * 1000 then Release else Publish)
  {
    DelayIs(s.jobs[o].n, seconds);
    DelayBound(s.jobs[o].n);
    var s1 := StepJob(s, o, true, cfg);
    assert s1.keys.next[s.jobs[o].id] == Counter(s.keys.now + seconds * 1000, Expires(s.keys.now + cfg.maxAge));
    assert s1.jobs[p] == s.jobs[p];
    var t := Elapse(s1, d);
    assert t.keys.TooSoon(s.jobs[o].id) <==> d < seconds * 1000;
  }
}
