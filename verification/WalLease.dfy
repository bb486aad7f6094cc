/** What the per-alert lease guarantees among any number of reconcilers. */
module WalLease {
  import opened WalStore
  import opened WalProtocol

  predicate Holds(s: State, o: Owner, span: Span)
    requires o in s.jobs
  {
    s.jobs[o].id in s.keys.lease && s.keys.lease[s.jobs[o].id] == Lease(o, s.jobs[o].since + span)
  }

  /** The lease o acquired has run out, or a mark_published for the alert has deleted it since. */
  predicate Lost(s: State, o: Owner, span: Span)
    requires o in s.jobs
  {
    s.keys.now >= s.jobs[o].since + span || Marks(s, s.jobs[o].id) > s.jobs[o].marks
  }

  ghost predicate Leases(s: State, span: Span) {
    && (forall o <- s.jobs :: Holds(s, o, span) || Lost(s, o, span))
    && (forall o <- s.jobs :: s.jobs[o].turn < s.turns && s.jobs[o].marks <= Marks(s, s.jobs[o].id))
  }

  /** Of two owners at work on one alert, the one that acquired first has lost its lease. */
  ghost predicate Exclusive(s: State, span: Span) {
    forall o, p :: o in s.jobs && p in s.jobs && o != p && s.jobs[o].id == s.jobs[p].id ==>
      s.jobs[o].turn != s.jobs[p].turn && (s.jobs[o].turn < s.jobs[p].turn ==> Lost(s, o, span))
  }

  // ---------- Steps that keep every job's place ----------

  /** Jobs keep what they acquired, time and marks only grow, and a lease is gone only if it ran out,
      was marked published, or was released by a job that is gone. */
  ghost predicate Calm(s: State, s': State) {
    && (forall o <- s'.jobs :: o in s.jobs && s'.jobs[o].id == s.jobs[o].id && s'.jobs[o].since == s.jobs[o].since
          && s'.jobs[o].turn == s.jobs[o].turn && s'.jobs[o].marks == s.jobs[o].marks)
    && s.keys.now <= s'.keys.now && s'.turns == s.turns
    && (forall id :: Marks(s, id) <= Marks(s', id))
    && (forall id <- s.keys.lease :: Kept(s, s', id))
  }

  ghost predicate Kept(s: State, s': State, id: AlertId)
    requires id in s.keys.lease
  {
    || (id in s'.keys.lease && s'.keys.lease[id] == s.keys.lease[id])
    || s.keys.lease[id].exp <= s'.keys.now
    || Marks(s', id) > Marks(s, id)
    || s.keys.lease[id].owner !in s'.jobs
  }

  /** One job's part: what it had lost stays lost, and what it held it holds or has lost. */
  lemma CalmJob(s: State, s': State, o: Owner, span: Span)
    requires Leases(s, span) && Calm(s, s') && o in s'.jobs
    ensures Holds(s', o, span) || Lost(s', o, span)
    ensures Lost(s, o, span) ==> Lost(s', o, span)
  {
    var id := s.jobs[o].id;
    assert Marks(s, id) <= Marks(s', id) && s.jobs[o].marks <= Marks(s, id);
    if Holds(s, o, span) { assert Kept(s, s', id); }
  }

  lemma CalmKeeps(s: State, s': State, span: Span)
    requires Leases(s, span) && Exclusive(s, span) && Calm(s, s')
    ensures Leases(s', span) && Exclusive(s', span)
  {
    forall o <- s'.jobs
      ensures Holds(s', o, span) || Lost(s', o, span)
      ensures s'.jobs[o].turn < s'.turns && s'.jobs[o].marks <= Marks(s', s'.jobs[o].id)
    {
      CalmJob(s, s', o, span);
    }
    forall o, p | o in s'.jobs && p in s'.jobs && o != p && s'.jobs[o].id == s'.jobs[p].id
      ensures s'.jobs[o].turn != s'.jobs[p].turn && (s'.jobs[o].turn < s'.jobs[p].turn ==> Lost(s', o, span))
    {
      CalmJob(s, s', o, span);
    }
  }

  lemma TakeLeases(s: State, o: Owner, id: AlertId, span: Span)
    requires Leases(s, span) && o !in s.jobs && id !in s.keys.lease
    ensures Leases(Take(s, o, id, span), span)
  {
  }

  lemma TakeExclusive(s: State, o: Owner, id: AlertId, span: Span)
    requires Leases(s, span) && Exclusive(s, span) && o !in s.jobs && id !in s.keys.lease
    ensures Exclusive(Take(s, o, id, span), span)
  {
    var s' := Take(s, o, id, span);
    forall p <- s.jobs ensures s'.jobs[p] == s.jobs[p] && Lost(s', p, span) == Lost(s, p, span) {}
    forall p <- s.jobs | s.jobs[p].id == id ensures Lost(s, p, span) { assert !Holds(s, p, span); }
  }

  lemma JobCalm(s: State, o: Owner, ok: bool, cfg: Config)
    requires o in s.jobs
    ensures Calm(s, StepJob(s, o, ok, cfg))
  {
    JobPlaces(s, o, ok, cfg);
    JobLeases(s, o, ok, cfg);
  }

  ghost predicate SamePlaces(s: State, s': State) {
    forall p <- s'.jobs :: p in s.jobs && s'.jobs[p].id == s.jobs[p].id && s'.jobs[p].since == s.jobs[p].since
      && s'.jobs[p].turn == s.jobs[p].turn && s'.jobs[p].marks == s.jobs[p].marks
  }

  lemma JobPlaces(s: State, o: Owner, ok: bool, cfg: Config)
    requires o in s.jobs
    ensures SamePlaces(s, StepJob(s, o, ok, cfg))
  {
    if Reading(s.jobs[o].at) {
      DeletingPlaces(s, o, ok, cfg);
    } else if Counting(s.jobs[o].at) {
      CountingPlaces(s, o, ok, cfg);
    } else {
      PublishingPlaces(s, o, ok, cfg);
    }
  }

  lemma DeletingPlaces(s: State, o: Owner, ok: bool, cfg: Config)
    requires o in s.jobs && Reading(s.jobs[o].at)
    ensures SamePlaces(s, StepJob(s, o, ok, cfg))
  {
  }

  lemma CountingPlaces(s: State, o: Owner, ok: bool, cfg: Config)
    requires o in s.jobs && Counting(s.jobs[o].at)
    ensures SamePlaces(s, StepJob(s, o, ok, cfg))
  {
  }

  lemma PublishingPlaces(s: State, o: Owner, ok: bool, cfg: Config)
    requires o in s.jobs && Publishing(s.jobs[o].at)
    ensures SamePlaces(s, StepJob(s, o, ok, cfg))
  {
  }

  lemma JobLeaseEffect(s: State, o: Owner, ok: bool, cfg: Config)
    requires o in s.jobs
    ensures var j, s' := s.jobs[o], StepJob(s, o, ok, cfg);
            && s'.keys.now == s.keys.now && s'.turns == s.turns
            && s'.marks == (if j.at.Mark? && ok then s.marks[j.id := Marks(s, j.id) + 1] else s.marks)
            && (j.at.Release? ==> o !in s'.jobs)
            && s'.keys.lease == if j.at.Mark? && ok then s.keys.lease - {j.id}
                                else if j.at.Release? && ok then s.keys.Released(j.id, o).lease
                                else s.keys.lease
  {
    var j := s.jobs[o];
    if j.at.Get? || j.at.CheckNext? || j.at.Drop? || j.at.DelDlq? {
    } else if j.at.Incr? || j.at.Expire? {
    } else if j.at.Mark? || j.at.Release? {
    } else {
    }
  }

  lemma JobLeases(s: State, o: Owner, ok: bool, cfg: Config)
    requires o in s.jobs
    ensures var s' := StepJob(s, o, ok, cfg);
            && s'.keys.now == s.keys.now && s'.turns == s.turns
            && (forall id :: Marks(s, id) <= Marks(s', id))
            && (forall id <- s.keys.lease :: Kept(s, s', id))
  {
    JobLeaseEffect(s, o, ok, cfg);
  }

  lemma TickCalm(s: State, d: nat)
    ensures Calm(s, Elapse(s, d))
  {
  }

  lemma IngestLeaseEffect(s: State, i: nat, ok: bool)
    requires i in s.ingests
    ensures var g, s' := s.ingests[i], StepIngest(s, i, ok);
            && s'.jobs == s.jobs && s'.keys.now == s.keys.now && s'.turns == s.turns
            && s'.marks == (if g.acked && ok then s.marks[g.id := Marks(s, g.id) + 1] else s.marks)
            && s'.keys.lease == if g.acked && ok then s.keys.lease - {g.id} else s.keys.lease
  {
    if s.ingests[i].acked { ClearedLeaseEffect(s, i, ok); }
  }

  lemma ClearedLeaseEffect(s: State, i: nat, ok: bool)
    requires i in s.ingests && s.ingests[i].acked
    ensures var g, s' := s.ingests[i], InlineCleared(s, i, ok);
            && s'.jobs == s.jobs && s'.keys.now == s.keys.now && s'.turns == s.turns
            && s'.marks == (if ok then s.marks[g.id := Marks(s, g.id) + 1] else s.marks)
            && s'.keys.lease == if ok then s.keys.lease - {g.id} else s.keys.lease
  {
    if ok {
      if s.ingests[i].version.Some? {
        assert Clear(s, s.ingests[i].id, s.ingests[i].version.value).jobs == s.jobs;
      } else {
        assert ClearBare(s, s.ingests[i].id).jobs == s.jobs;
      }
    }
  }

  lemma IngestCalm(s: State, i: nat, ok: bool)
    requires i in s.ingests
    ensures Calm(s, StepIngest(s, i, ok))
  {
    IngestLeaseEffect(s, i, ok);
    var g, s' := s.ingests[i], StepIngest(s, i, ok);
    forall id ensures Marks(s, id) <= Marks(s', id) {}
    forall id <- s.keys.lease ensures Kept(s, s', id) {
      if id == g.id && g.acked && ok { assert Marks(s', id) > Marks(s, id); }
    }
  }

  lemma UnansweredCalm(s: State, o: Owner, age: Span)
    requires o in s.jobs && Losable(s.jobs[o].at)
    ensures Calm(s, SendUnanswered(s, o, age))
  {
    UnansweredFrame(s, o, age);
  }

  lemma OtherCalm(s: State, step: Step, cfg: Config)
    requires Enabled(s, step) && !step.Acquire? && !step.Work?
    ensures Calm(s, Apply(s, step, cfg))
  {
    if step.Tick? { TickCalm(s, step.d); }
    if step.IngestStep? { IngestCalm(s, step.i, step.ok); }
    if step.Unanswered? { UnansweredCalm(s, step.o, cfg.maxAge); }
  }

  lemma StepKeeps(s: State, step: Step, cfg: Config)
    requires Leases(s, cfg.leaseSpan) && Exclusive(s, cfg.leaseSpan) && Enabled(s, step)
    ensures var s' := Apply(s, step, cfg); Leases(s', cfg.leaseSpan) && Exclusive(s', cfg.leaseSpan)
  {
    if step.Acquire? {
      TakeLeases(s, step.o, step.id, cfg.leaseSpan);
      TakeExclusive(s, step.o, step.id, cfg.leaseSpan);
    } else {
      if step.Work? { JobCalm(s, step.o, step.ok, cfg); } else { OtherCalm(s, step, cfg); }
      CalmKeeps(s, Apply(s, step, cfg), cfg.leaseSpan);
    }
  }

  lemma {:induction false} RunKeeps(s: State, run: seq<Step>, cfg: Config)
    requires Leases(s, cfg.leaseSpan) && Exclusive(s, cfg.leaseSpan) && Legal(s, run, cfg)
    ensures var s' := Exec(s, run, cfg); Leases(s', cfg.leaseSpan) && Exclusive(s', cfg.leaseSpan)
    decreases |run|
  {
    if run != [] {
      StepKeeps(s, run[0], cfg);
      RunKeeps(Apply(s, run[0], cfg), run[1..], cfg);
    }
  }

  // ---------- The statements ----------

  /** Two reconcilers are inside acquire..release for one alert only if the first one's lease has run
      out or a mark_published for the alert came after it was acquired. */
  lemma Exclusion(run: seq<Step>, o: Owner, p: Owner, cfg: Config)
    requires Legal(INIT, run, cfg)
    requires var s := Exec(INIT, run, cfg);
             o in s.jobs && p in s.jobs && o != p && s.jobs[o].id == s.jobs[p].id && s.jobs[o].turn <= s.jobs[p].turn
    ensures var s := Exec(INIT, run, cfg);
            s.keys.now >= s.jobs[o].since + cfg.leaseSpan || Marks(s, s.jobs[o].id) > s.jobs[o].marks
  {
    RunKeeps(INIT, run, cfg);
  }

  /** A lease disappears or changes hands only by running out, by a mark_published for its alert, or
      by its own holder's release; in particular nobody releases another owner's lease. */
  lemma LeaseLoss(s: State, step: Step, id: AlertId, cfg: Config)
    requires Enabled(s, step) && id in s.keys.lease
    requires var k := Apply(s, step, cfg).keys; id !in k.lease || k.lease[id] != s.keys.lease[id]
    ensures match step
            case Tick(d) => s.keys.lease[id].exp <= s.keys.now + d
            case IngestStep(i, ok) => ok && s.ingests[i].id == id && s.ingests[i].acked
            case Work(o, ok) =>
              ok && s.jobs[o].id == id && (s.jobs[o].at.Mark? || (s.jobs[o].at.Release? && s.keys.lease[id].owner == o))
            case _ => false
  {
    match step
    case Work(o, ok) => JobLeaseLoss(s, o, ok, id, cfg);
    case IngestStep(i, ok) => IngestLeaseEffect(s, i, ok);
    case Unanswered(o) => UnansweredFrame(s, o, cfg.maxAge);
    case _ =>
  }

  lemma JobLeaseLoss(s: State, o: Owner, ok: bool, id: AlertId, cfg: Config)
    requires o in s.jobs && id in s.keys.lease
    requires var k := StepJob(s, o, ok, cfg).keys; id !in k.lease || k.lease[id] != s.keys.lease[id]
    ensures ok && s.jobs[o].id == id && (s.jobs[o].at.Mark? || (s.jobs[o].at.Release? && s.keys.lease[id].owner == o))
  {
    JobLeaseEffect(s, o, ok, cfg);
  }
}
