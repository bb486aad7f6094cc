/** How long an alert whose publishes all fail stays in the log, over interleaved runs. */
module WalDeadline {
  import opened WalStore
  import opened WalProtocol
  import opened WalLease
  import opened WalBounds

  /** The latest an alert whose last failure was counted m can be waiting for, from its write. */
  function Latest(m: nat, gap: Span): int
    requires m <= 6
  {
    if m == 0 then 0 else Latest(m - 1, gap) + Delay(m) + gap
  }

  /** 5 + 30 + 300 + 1800 + 3600 + 14400: the delays that can precede the seventh attempt. */
  const DELAYS: int := 20135 * SECOND

  lemma LatestIsSixGaps(gap: Span)
    ensures Latest(6, gap) == 6 * gap + DELAYS
  {
    assert Latest(1, gap) == Delay(1) + gap && Latest(2, gap) == Latest(1, gap) + Delay(2) + gap;
    assert Latest(3, gap) == Latest(2, gap) + Delay(3) + gap && Latest(4, gap) == Latest(3, gap) + Delay(4) + gap;
    assert Latest(5, gap) == Latest(4, gap) + Delay(5) + gap && Latest(6, gap) == Latest(5, gap) + Delay(6) + gap;
  }

  lemma {:induction false} LatestGrows(m: nat, n: nat, gap: Span)
    requires m <= n <= 6
    ensures 0 <= Latest(m, gap) <= Latest(n, gap)
    ensures m < n ==> Latest(m, gap) + gap + Delay(n) <= Latest(n, gap)
    decreases n
  {
    if m < n {
      LatestGrows(m, n - 1, gap);
    } else if n > 0 {
      LatestGrows(n - 1, n - 1, gap);
    }
  }

  /** Publishes of a fail, inline ones too, and Redis answers its reconcilers; while a is pending some
      reconciler acquires it and finishes with it within every gap: l is when the last one to have
      finished acquired it. */
  predicate Prompt(s: State, step: Step, a: AlertId, l: int, gap: Span)
    requires Enabled(s, step)
  {
    match step
    case Tick(d) => a in s.keys.pending ==> s.keys.now + d <= l + gap
    case WriteAhead(_, id, _, ok) => id != a || !ok
    case IngestStep(i, ok) => s.ingests[i].id == a ==> !ok
    case Work(o, ok) => Active(s, o, a) && !s.jobs[o].at.CallDlq? ==> ok == !s.jobs[o].at.Publish?
    case Unanswered(o) => s.jobs[o].id != a
    case Crash(o) => s.jobs[o].id == a ==> !Beyond(s.jobs[o])
    case _ => true
  }

  function Finished(s: State, step: Step, a: AlertId, l: int): int
    requires Enabled(s, step)
  {
    if step.Work? && s.jobs[step.o].id == a && s.jobs[step.o].at.Release? && s.jobs[step.o].since > l
    then s.jobs[step.o].since else l
  }

  ghost predicate PromptRun(s: State, run: seq<Step>, a: AlertId, l: int, gap: Span, cfg: Config)
    requires Legal(s, run, cfg)
    decreases |run|
  {
    Leased(s, a, cfg.leaseSpan) &&
    (run == [] ||
      (Prompt(s, run[0], a, l, gap)
       && PromptRun(Apply(s, run[0], cfg), run[1..], a, Finished(s, run[0], a, l), gap, cfg)))
  }

  /** Written at t0 and still pending: d is until when its next key, if any, holds reconcilers off, and
      m the counter of the last failure recorded there. */
  datatype Clock = Clock(t0: int, l: int, d: int, m: nat, v: nat)

  ghost predicate Pending(s: State, a: AlertId, c: Clock, gap: Span, age: Span) {
    && a in s.keys.pending && s.keys.pending[a] == Entry(c.v, Good, c.t0 + age)
    && c.m <= 6 && c.l <= c.d <= c.t0 + Latest(c.m, gap) && c.t0 <= s.keys.now <= c.l + gap
    && c.m <= s.keys.Attempts(a) && (a in s.keys.attempts ==> s.keys.attempts[a].exp.After(c.t0 + age - 1))
    && (forall i <- s.ingests :: s.ingests[i].id == a ==> !s.ingests[i].acked)
  }

  ghost predicate NextIs(s: State, a: AlertId, c: Clock, age: Span) {
    if c.m == 0 then a !in s.keys.next && c.d == c.t0
    else a in s.keys.next && s.keys.next[a].value == c.d && s.keys.next[a].exp.After(c.t0 + age - 1)
  }

  predicate JobTimed(s: State, j: Job, a: AlertId, c: Clock) {
    && j.since <= s.keys.now
    && (j.at.Release? ==> j.since <= c.d)
    && !j.at.Drop? && !j.at.Mark?
    && (!j.at.Get? && !j.at.Release? ==> j.version == c.v && j.kind == Good)
    && (j.at.Expire? || j.at.CheckNext? || j.at.Publish? || j.at.SetNext? ==> j.n == s.keys.Attempts(a) && j.n > c.m)
    && (j.at.Publish? || j.at.SetNext? ==> s.keys.now >= c.d)
    && (j.at.DelDlq? ==> c.v in s.gaveUp)
  }

  predicate Ending(j: Job) { j.at.CallDlq? || j.at.DelDlq? }

  ghost predicate Timed(s: State, a: AlertId, c: Clock, gap: Span, age: Span) {
    && Pending(s, a, c, gap, age)
    && (NextIs(s, a, c, age) || exists o :: Active(s, o, a) && Ending(s.jobs[o]))
    && (forall o <- s.jobs :: s.jobs[o].id == a ==> JobTimed(s, s.jobs[o], a, c))
  }

  /** Either given up, or still pending and not for long. */
  ghost predicate InHand(s: State, a: AlertId, c: Clock, gap: Span, age: Span) {
    c.v in s.gaveUp || Timed(s, a, c, gap, age)
  }

  // ---------- Steps of others ----------

  /** a's keys, the jobs on a, and the requests for a are as they were. */
  ghost predicate SameOn(s: State, s': State, a: AlertId) {
    && Agree(s, s', a) && s.gaveUp <= s'.gaveUp
    && (forall o <- s'.jobs :: s'.jobs[o].id == a ==> o in s.jobs && s'.jobs[o] == s.jobs[o])
    && (forall i <- s'.ingests :: s'.ingests[i].id == a && s'.ingests[i].acked ==>
          i in s.ingests && s.ingests[i].id == a && s.ingests[i].acked)
  }

  lemma SameTimed(s: State, s': State, a: AlertId, c: Clock, gap: Span, age: Span)
    requires Timed(s, a, c, gap, age) && SameOn(s, s', a)
    requires forall o | Active(s, o, a) && Ending(s.jobs[o]) :: Active(s', o, a)
    ensures Timed(s', a, c, gap, age)
  {
    assert s'.keys.Attempts(a) == s.keys.Attempts(a);
    forall o <- s'.jobs | s'.jobs[o].id == a ensures JobTimed(s', s'.jobs[o], a, c) {
      assert JobTimed(s, s.jobs[o], a, c);
    }
    if !NextIs(s, a, c, age) {
      var o :| Active(s, o, a) && Ending(s.jobs[o]);
      assert Active(s', o, a) && Ending(s'.jobs[o]);
    }
  }

  lemma TickTimed(s: State, t: nat, a: AlertId, c: Clock, gap: Span, age: Span)
    requires Timed(s, a, c, gap, age) && s.keys.now + t <= c.l + gap && 7 * gap + DELAYS < age
    ensures Timed(Elapse(s, t), a, c, gap, age)
  {
    LatestIsSixGaps(gap);
    LatestGrows(c.m, 6, gap);
    var s' := Elapse(s, t);
    assert s'.keys.now < c.t0 + age;
    assert a in s'.keys.pending && s'.keys.Attempts(a) == s.keys.Attempts(a);
    forall o <- s'.jobs | s'.jobs[o].id == a ensures JobTimed(s', s'.jobs[o], a, c) {
      assert JobTimed(s, s.jobs[o], a, c);
    }
    if !NextIs(s, a, c, age) {
      var o :| Active(s, o, a) && Ending(s.jobs[o]);
      assert Active(s', o, a) && Ending(s'.jobs[o]);
    }
  }

  lemma AcquireTimed(s: State, o: Owner, id: AlertId, a: AlertId, c: Clock, gap: Span, cfg: Config)
    requires Timed(s, a, c, gap, cfg.maxAge) && Enabled(s, Acquire(o, id))
    ensures Timed(Take(s, o, id, cfg.leaseSpan), a, c, gap, cfg.maxAge)
  {
    var s' := Take(s, o, id, cfg.leaseSpan);
    assert s'.keys.Attempts(a) == s.keys.Attempts(a);
    forall p <- s'.jobs | s'.jobs[p].id == a ensures JobTimed(s', s'.jobs[p], a, c) {
      if p != o { assert JobTimed(s, s.jobs[p], a, c); }
    }
    if !NextIs(s, a, c, cfg.maxAge) {
      var p :| Active(s, p, a) && Ending(s.jobs[p]);
      assert Active(s', p, a) && Ending(s'.jobs[p]);
    }
  }

  lemma JobElsewhereSame(s: State, o: Owner, ok: bool, a: AlertId, cfg: Config)
    requires o in s.jobs && s.jobs[o].id != a
    ensures SameOn(s, StepJob(s, o, ok, cfg), a)
  {
    JobElsewhere(s, o, ok, a, cfg);
    JobFrameAll(s, o, ok, cfg);
  }

  /** A job's step keeps requests, what has been given up, and everybody else's jobs. */
  ghost predicate Framed(s: State, s': State, o: Owner) {
    && s'.ingests == s.ingests && s.gaveUp <= s'.gaveUp
    && (forall p <- s'.jobs :: p in s.jobs && s'.jobs[p].id == s.jobs[p].id && (p != o ==> s'.jobs[p] == s.jobs[p]))
  }

  lemma ReadingFramed(s: State, o: Owner, ok: bool, cfg: Config)
    requires o in s.jobs && Reading(s.jobs[o].at)
    ensures Framed(s, StepJob(s, o, ok, cfg), o)
  {
  }

  lemma CountingFramed(s: State, o: Owner, ok: bool, cfg: Config)
    requires o in s.jobs && Counting(s.jobs[o].at)
    ensures Framed(s, StepJob(s, o, ok, cfg), o)
  {
  }

  lemma PublishingFramed(s: State, o: Owner, ok: bool, cfg: Config)
    requires o in s.jobs && Publishing(s.jobs[o].at)
    ensures Framed(s, StepJob(s, o, ok, cfg), o)
  {
  }

  lemma JobFrameAll(s: State, o: Owner, ok: bool, cfg: Config)
    requires o in s.jobs
    ensures Framed(s, StepJob(s, o, ok, cfg), o)
  {
    if Reading(s.jobs[o].at) {
      ReadingFramed(s, o, ok, cfg);
    } else if Counting(s.jobs[o].at) {
      CountingFramed(s, o, ok, cfg);
    } else {
      PublishingFramed(s, o, ok, cfg);
    }
  }

  // ---------- Steps on a ----------

  /** What a step of o, alone on a, leaves to show. */
  lemma OwnTimed(s: State, s': State, o: Owner, a: AlertId, c: Clock, e: Clock, gap: Span, age: Span)
    requires Timed(s, a, c, gap, age) && Pending(s', a, e, gap, age) && s'.keys.now == s.keys.now && e.d >= c.d
    requires e.v == c.v
    requires forall p <- s'.jobs :: s'.jobs[p].id == a && p != o ==>
        p in s.jobs && s'.jobs[p] == s.jobs[p] && s.jobs[p].at.Release?
    requires o in s'.jobs && s'.jobs[o].id == a ==> JobTimed(s', s'.jobs[o], a, e)
    requires NextIs(s', a, e, age) || (Active(s', o, a) && Ending(s'.jobs[o]))
    ensures Timed(s', a, e, gap, age)
  {
    forall p <- s'.jobs | s'.jobs[p].id == a ensures JobTimed(s', s'.jobs[p], a, e) {
      if p != o { assert JobTimed(s, s.jobs[p], a, c); }
    }
  }

  /** The other jobs on a are all releasing. */
  lemma OthersRelease(s: State, o: Owner, ok: bool, a: AlertId, cfg: Config)
    requires Active(s, o, a) && Alone(s, o, a)
    ensures var s' := StepJob(s, o, ok, cfg);
            && s'.ingests == s.ingests && s.gaveUp <= s'.gaveUp
            && forall p <- s'.jobs :: s'.jobs[p].id == a && p != o ==>
                p in s.jobs && s'.jobs[p] == s.jobs[p] && s.jobs[p].at.Release?
  {
    JobFrameAll(s, o, ok, cfg);
    forall p <- s.jobs | s.jobs[p].id == a && p != o ensures s.jobs[p].at.Release? { assert !Active(s, p, a); }
  }

  lemma GetTimed(s: State, o: Owner, a: AlertId, c: Clock, gap: Span, cfg: Config)
    requires Timed(s, a, c, gap, cfg.maxAge) && Active(s, o, a) && Alone(s, o, a) && s.jobs[o].at.Get?
    ensures Timed(StepJob(s, o, true, cfg), a, c, gap, cfg.maxAge)
  {
    var s' := StepJob(s, o, true, cfg);
    OthersRelease(s, o, true, a, cfg);
    assert JobTimed(s, s.jobs[o], a, c) && NextIs(s, a, c, cfg.maxAge);
    OwnTimed(s, s', o, a, c, c, gap, cfg.maxAge);
  }

  lemma IncrTimed(s: State, o: Owner, a: AlertId, c: Clock, gap: Span, cfg: Config)
    requires Timed(s, a, c, gap, cfg.maxAge) && Active(s, o, a) && Alone(s, o, a) && s.jobs[o].at.Incr?
    ensures Timed(StepJob(s, o, true, cfg), a, c, gap, cfg.maxAge)
  {
    var s' := StepJob(s, o, true, cfg);
    OthersRelease(s, o, true, a, cfg);
    assert JobTimed(s, s.jobs[o], a, c) && NextIs(s, a, c, cfg.maxAge);
    OwnTimed(s, s', o, a, c, c, gap, cfg.maxAge);
  }

  lemma ExpireTimed(s: State, o: Owner, a: AlertId, c: Clock, gap: Span, cfg: Config)
    requires Timed(s, a, c, gap, cfg.maxAge) && Active(s, o, a) && Alone(s, o, a) && s.jobs[o].at.Expire?
    ensures Timed(StepJob(s, o, true, cfg), a, c, gap, cfg.maxAge)
  {
    var s' := StepJob(s, o, true, cfg);
    OthersRelease(s, o, true, a, cfg);
    assert JobTimed(s, s.jobs[o], a, c) && NextIs(s, a, c, cfg.maxAge);
    assert s'.keys.Attempts(a) == s.keys.Attempts(a);
    OwnTimed(s, s', o, a, c, c, gap, cfg.maxAge);
  }

  lemma CheckTimed(s: State, o: Owner, a: AlertId, c: Clock, gap: Span, cfg: Config)
    requires Timed(s, a, c, gap, cfg.maxAge) && Active(s, o, a) && Alone(s, o, a) && s.jobs[o].at.CheckNext?
    ensures Timed(StepJob(s, o, true, cfg), a, c, gap, cfg.maxAge)
  {
    var s' := StepJob(s, o, true, cfg);
    OthersRelease(s, o, true, a, cfg);
    assert JobTimed(s, s.jobs[o], a, c) && NextIs(s, a, c, cfg.maxAge);
    OwnTimed(s, s', o, a, c, c, gap, cfg.maxAge);
  }

  lemma PublishTimed(s: State, o: Owner, a: AlertId, c: Clock, gap: Span, cfg: Config)
    requires Timed(s, a, c, gap, cfg.maxAge) && Active(s, o, a) && Alone(s, o, a) && s.jobs[o].at.Publish?
    ensures Timed(StepJob(s, o, false, cfg), a, c, gap, cfg.maxAge)
  {
    var s' := StepJob(s, o, false, cfg);
    OthersRelease(s, o, false, a, cfg);
    assert JobTimed(s, s.jobs[o], a, c) && NextIs(s, a, c, cfg.maxAge);
    OwnTimed(s, s', o, a, c, c, gap, cfg.maxAge);
  }

  /** The clock after a failure at counter n has been recorded. */
  function Recorded(s: State, c: Clock, n: int): Clock
    requires n >= 1
  {
    if n <= 6 then c.(d := s.keys.now + Delay(n), m := n) else c
  }

  lemma SetNextTimed(s: State, o: Owner, a: AlertId, c: Clock, gap: Span, cfg: Config)
    requires Timed(s, a, c, gap, cfg.maxAge) && Active(s, o, a) && Alone(s, o, a) && s.jobs[o].at.SetNext?
    ensures s.jobs[o].n >= 1 && Timed(StepJob(s, o, true, cfg), a, Recorded(s, c, s.jobs[o].n), gap, cfg.maxAge)
  {
    var s' := StepJob(s, o, true, cfg);
    OthersRelease(s, o, true, a, cfg);
    assert JobTimed(s, s.jobs[o], a, c) && NextIs(s, a, c, cfg.maxAge);
    var n := s.jobs[o].n;
    var e := Recorded(s, c, n);
    DelayBound(n);
    if n <= 6 { LatestGrows(c.m, n, gap); }
    assert s'.keys.Attempts(a) == s.keys.Attempts(a);
    OwnTimed(s, s', o, a, c, e, gap, cfg.maxAge);
  }

  lemma CallDlqTimed(s: State, o: Owner, ok: bool, a: AlertId, c: Clock, gap: Span, cfg: Config)
    requires Timed(s, a, c, gap, cfg.maxAge) && Active(s, o, a) && s.jobs[o].at.CallDlq?
    ensures c.v in StepJob(s, o, ok, cfg).gaveUp
  {
    assert JobTimed(s, s.jobs[o], a, c);
  }

  lemma ReleaseTimed(s: State, o: Owner, ok: bool, a: AlertId, c: Clock, gap: Span, cfg: Config)
    requires Timed(s, a, c, gap, cfg.maxAge) && o in s.jobs && s.jobs[o].id == a && s.jobs[o].at.Release?
    ensures Timed(StepJob(s, o, ok, cfg), a, c.(l := Finished(s, Work(o, ok), a, c.l)), gap, cfg.maxAge)
  {
    var s' := StepJob(s, o, ok, cfg);
    assert JobTimed(s, s.jobs[o], a, c);
    ReleaseAgrees(s, o, ok, a, cfg);
    JobFrameAll(s, o, ok, cfg);
    forall p | Active(s, p, a) ensures Active(s', p, a) { assert p != o; }
    SameTimed(s, s', a, c, gap, cfg.maxAge);
    LaterTimed(s', a, c, Finished(s, Work(o, ok), a, c.l), gap, cfg.maxAge);
  }

  lemma LaterTimed(s: State, a: AlertId, c: Clock, l: int, gap: Span, age: Span)
    requires Timed(s, a, c, gap, age) && c.l <= l <= c.d
    ensures Timed(s, a, c.(l := l), gap, age)
  {
    forall o <- s.jobs | s.jobs[o].id == a ensures JobTimed(s, s.jobs[o], a, c.(l := l)) {
      assert JobTimed(s, s.jobs[o], a, c);
    }
  }

  /** One step, and what the clock says after it. */
  lemma ActiveTimed(s: State, o: Owner, ok: bool, a: AlertId, c: Clock, gap: Span, cfg: Config) returns (e: Clock)
    requires Timed(s, a, c, gap, cfg.maxAge) && Active(s, o, a) && Alone(s, o, a) && Prompt(s, Work(o, ok), a, c.l, gap)
    ensures InHand(StepJob(s, o, ok, cfg), a, e, gap, cfg.maxAge) && e.t0 == c.t0 && e.v == c.v && e.l == c.l
  {
    e := c;
    assert JobTimed(s, s.jobs[o], a, c);
    match s.jobs[o].at
    case Get => GetTimed(s, o, a, c, gap, cfg);
    case Incr => IncrTimed(s, o, a, c, gap, cfg);
    case Expire => ExpireTimed(s, o, a, c, gap, cfg);
    case CheckNext => CheckTimed(s, o, a, c, gap, cfg);
    case Publish => PublishTimed(s, o, a, c, gap, cfg);
    case SetNext =>
      SetNextTimed(s, o, a, c, gap, cfg);
      e := Recorded(s, c, s.jobs[o].n);
    case CallDlq => CallDlqTimed(s, o, ok, a, c, gap, cfg);
    case DelDlq => GaveUpStays(s, o, ok, c.v, cfg);
  }

  lemma GaveUpStays(s: State, o: Owner, ok: bool, v: nat, cfg: Config)
    requires o in s.jobs && v in s.gaveUp
    ensures v in StepJob(s, o, ok, cfg).gaveUp
  {
    JobFrameAll(s, o, ok, cfg);
  }

  lemma WorkInHand(s: State, o: Owner, ok: bool, a: AlertId, c: Clock, gap: Span, cfg: Config) returns (e: Clock)
    requires Leased(s, a, cfg.leaseSpan) && InHand(s, a, c, gap, cfg.maxAge) && o in s.jobs
    requires Prompt(s, Work(o, ok), a, c.l, gap)
    ensures InHand(StepJob(s, o, ok, cfg), a, e, gap, cfg.maxAge)
    ensures e.t0 == c.t0 && e.v == c.v && e.l == Finished(s, Work(o, ok), a, c.l)
  {
    e := c.(l := Finished(s, Work(o, ok), a, c.l));
    if c.v in s.gaveUp {
      GaveUpStays(s, o, ok, c.v, cfg);
    } else if s.jobs[o].id != a {
      JobElsewhereSame(s, o, ok, a, cfg);
      IdleStays(s, o, ok, a, cfg);
      SameTimed(s, StepJob(s, o, ok, cfg), a, c, gap, cfg.maxAge);
    } else if s.jobs[o].at.Release? {
      ReleaseTimed(s, o, ok, a, c, gap, cfg);
    } else {
      forall p | Active(s, p, a) ensures p == o { OnlyOne(s, a, cfg.leaseSpan, o, p); }
      e := ActiveTimed(s, o, ok, a, c, gap, cfg);
    }
  }

  lemma IngestInHand(s: State, i: nat, ok: bool, a: AlertId, c: Clock, gap: Span, age: Span)
    requires Timed(s, a, c, gap, age) && i in s.ingests && (s.ingests[i].id == a ==> !ok)
    ensures Timed(StepIngest(s, i, ok), a, c, gap, age)
  {
    var s' := StepIngest(s, i, ok);
    if s.ingests[i].id != a { IngestElsewhere(s, i, ok, a); }
    assert s'.jobs == s.jobs;
    SameTimed(s, s', a, c, gap, age);
  }

  lemma UnansweredInHand(s: State, o: Owner, a: AlertId, c: Clock, gap: Span, age: Span)
    requires Timed(s, a, c, gap, age) && o in s.jobs && Losable(s.jobs[o].at) && s.jobs[o].id != a
    ensures Timed(SendUnanswered(s, o, age), a, c, gap, age)
  {
    var s' := SendUnanswered(s, o, age);
    UnansweredElsewhere(s, o, a, age);
    SameTimed(s, s', a, c, gap, age);
  }

  lemma OtherInHand(s: State, step: Step, a: AlertId, c: Clock, gap: Span, cfg: Config)
    requires Timed(s, a, c, gap, cfg.maxAge) && Enabled(s, step) && Prompt(s, step, a, c.l, gap)
    requires step.WriteAhead? || step.Crash? || step.Abandon?
    ensures Timed(Apply(s, step, cfg), a, c, gap, cfg.maxAge)
  {
    SameTimed(s, Apply(s, step, cfg), a, c, gap, cfg.maxAge);
  }

  lemma GaveUpForever(s: State, step: Step, v: nat, cfg: Config)
    requires Enabled(s, step) && v in s.gaveUp
    ensures v in Apply(s, step, cfg).gaveUp
  {
    if step.Work? { GaveUpStays(s, step.o, step.ok, v, cfg); }
  }

  lemma StepInHand(s: State, step: Step, a: AlertId, c: Clock, gap: Span, cfg: Config) returns (e: Clock)
    requires Leased(s, a, cfg.leaseSpan) && InHand(s, a, c, gap, cfg.maxAge) && Enabled(s, step)
    requires Prompt(s, step, a, c.l, gap) && 7 * gap + DELAYS < cfg.maxAge
    ensures InHand(Apply(s, step, cfg), a, e, gap, cfg.maxAge)
    ensures e.t0 == c.t0 && e.v == c.v && e.l == Finished(s, step, a, c.l)
  {
    e := c;
    if step.Work? {
      e := WorkInHand(s, step.o, step.ok, a, c, gap, cfg);
    } else if c.v in s.gaveUp {
      GaveUpForever(s, step, c.v, cfg);
    } else if step.Tick? {
      TickTimed(s, step.d, a, c, gap, cfg.maxAge);
    } else if step.Acquire? {
      AcquireTimed(s, step.o, step.id, a, c, gap, cfg);
    } else if step.Unanswered? {
      UnansweredInHand(s, step.o, a, c, gap, cfg.maxAge);
    } else if step.IngestStep? {
      IngestInHand(s, step.i, step.ok, a, c, gap, cfg.maxAge);
    } else {
      OtherInHand(s, step, a, c, gap, cfg);
    }
  }

  lemma {:induction false} RunInHand(s: State, run: seq<Step>, a: AlertId, c: Clock, gap: Span, cfg: Config)
    requires InHand(s, a, c, gap, cfg.maxAge) && Legal(s, run, cfg) && PromptRun(s, run, a, c.l, gap, cfg)
    requires 7 * gap + DELAYS < cfg.maxAge
    ensures var t := Exec(s, run, cfg);
            c.v in t.gaveUp || (a in t.keys.pending && t.keys.pending[a].version == c.v
                && t.keys.now <= c.t0 + 7 * gap + DELAYS)
    decreases |run|
  {
    if run != [] {
      var e := StepInHand(s, run[0], a, c, gap, cfg);
      RunInHand(Apply(s, run[0], cfg), run[1..], a, e, gap, cfg);
    } else if c.v !in s.gaveUp {
      LatestIsSixGaps(gap);
      LatestGrows(c.m, 6, gap);
    }
  }

  /** A fresh entry whose publishes all fail is given up, through _move_to_dlq, before 7 * gap + 20135 s
      have passed since its write, if within every gap some reconciler takes it up and finishes, Redis
      answers, and no lease is lost; and so before it expires. */
  lemma GivesUpInTime(s: State, run: seq<Step>, a: AlertId, gap: Span, cfg: Config)
    requires Fresh(s, a, cfg.maxAge) && s.keys.pending[a].kind == Good
    requires forall i <- s.ingests :: s.ingests[i].id == a ==> !s.ingests[i].acked
    requires Legal(s, run, cfg) && PromptRun(s, run, a, s.keys.now, gap, cfg) && 7 * gap + DELAYS < cfg.maxAge
    ensures var t, v := Exec(s, run, cfg), s.keys.pending[a].version;
            && (v in t.gaveUp || (a in t.keys.pending && t.keys.pending[a].version == v))
            && (t.keys.now > s.keys.now + 7 * gap + DELAYS ==> v in t.gaveUp)
  {
    var c := Clock(s.keys.now, s.keys.now, s.keys.now, 0, s.keys.pending[a].version);
    assert Timed(s, a, c, gap, cfg.maxAge);
    RunInHand(s, run, a, c, gap, cfg);
  }
}
