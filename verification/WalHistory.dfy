/** What the entries of the ledger mean: each is there exactly if what it stands for has happened. */
module WalHistory {
  import opened WalStore
  import opened WalProtocol
  import WalLease

  datatype Cause = Acked | GaveUp | Delivered | Dropped | Expired | Replaced | Swept | Cleared

  /** The ledger's entry for a version. */
  predicate Marked(s: State, v: nat, c: Cause) {
    match c
    case Acked => v in s.acked
    case GaveUp => v in s.gaveUp
    case Delivered => v in s.delivered
    case Dropped => v in s.dropped
    case Expired => v in s.expired
    case Replaced => v in s.replaced
    case Swept => v in s.swept
    case Cleared => v in s.cleared
  }

  /** The log holds v for the alert. */
  predicate Held(s: State, id: AlertId, v: nat) { id in s.keys.pending && s.keys.pending[id].version == v }

  /** A request's publish is acknowledged, or it deletes its alert's keys. */
  predicate InlineAck(s: State, step: Step) {
    step.IngestStep? && step.i in s.ingests && !s.ingests[step.i].acked && step.ok
  }

  predicate InlineDelete(s: State, step: Step) {
    step.IngestStep? && step.i in s.ingests && s.ingests[step.i].acked && step.ok
  }

  /** A reconciler's call at this stage succeeds. */
  predicate Succeeds(s: State, step: Step, at: At) {
    step.Work? && step.o in s.jobs && s.jobs[step.o].at == at && step.ok
  }

  /** What each entry stands for. */
  ghost predicate Happens(s: State, step: Step, v: nat, c: Cause) {
    match c
    case Acked =>
      || (InlineAck(s, step) && s.ingests[step.i].version == Some(v))
      || (Succeeds(s, step, Publish) && s.jobs[step.o].version == v)
    case GaveUp => step.Work? && step.o in s.jobs && s.jobs[step.o].at.CallDlq? && s.jobs[step.o].version == v
    case Delivered => Succeeds(s, step, CallDlq) && s.jobs[step.o].version == v
    case Dropped =>
      && Succeeds(s, step, Get) && Held(s, s.jobs[step.o].id, v) && s.keys.pending[s.jobs[step.o].id].kind.Corrupt?
    case Expired => step.Tick? && exists id :: Held(s, id, v) && s.keys.pending[id].exp <= s.keys.now + step.d
    case Replaced => step.WriteAhead? && step.ok && Held(s, step.id, v)
    case Swept =>
      || (InlineDelete(s, step) && var g := s.ingests[step.i];
          Held(s, g.id, v) && g.version.Some? && g.version.value != v)
      || ((Succeeds(s, step, Drop) || Succeeds(s, step, Mark) || Succeeds(s, step, DelDlq))
          && Held(s, s.jobs[step.o].id, v) && s.jobs[step.o].version != v)
    case Cleared => InlineDelete(s, step) && s.ingests[step.i].version.None? && Held(s, s.ingests[step.i].id, v)
  }

  ghost predicate Marking(s: State, step: Step, t: State, v: nat, c: Cause) {
    Marked(t, v, c) <==> Marked(s, v, c) || Happens(s, step, v, c)
  }

  lemma ReadingMarks(s: State, o: Owner, ok: bool, v: nat, c: Cause, cfg: Config)
    requires o in s.jobs && Reading(s.jobs[o].at)
    ensures Marking(s, Work(o, ok), StepJob(s, o, ok, cfg), v, c)
  {
    if s.jobs[o].at.Get? { GetMarks(s, o, ok, v, c, cfg); } else { DeletingMarks(s, o, ok, v, c, cfg); }
  }

  lemma GetMarks(s: State, o: Owner, ok: bool, v: nat, c: Cause, cfg: Config)
    requires o in s.jobs && s.jobs[o].at.Get?
    ensures Marking(s, Work(o, ok), StepJob(s, o, ok, cfg), v, c)
  {
  }

  lemma DeletingMarks(s: State, o: Owner, ok: bool, v: nat, c: Cause, cfg: Config)
    requires o in s.jobs && (s.jobs[o].at.Drop? || s.jobs[o].at.Mark? || s.jobs[o].at.DelDlq?)
    ensures Marking(s, Work(o, ok), StepJob(s, o, ok, cfg), v, c)
  {
  }

  lemma CountingMarks(s: State, o: Owner, ok: bool, v: nat, c: Cause, cfg: Config)
    requires o in s.jobs && Counting(s.jobs[o].at)
    ensures Marking(s, Work(o, ok), StepJob(s, o, ok, cfg), v, c)
  {
    CountingSets(s, o, ok, cfg);
  }

  lemma CountingSets(s: State, o: Owner, ok: bool, cfg: Config)
    requires o in s.jobs && Counting(s.jobs[o].at)
    ensures var t := StepJob(s, o, ok, cfg); t == s.(keys := t.keys, jobs := t.jobs)
  {
  }

  lemma PublishingMarks(s: State, o: Owner, ok: bool, v: nat, c: Cause, cfg: Config)
    requires o in s.jobs && Publishing(s.jobs[o].at)
    ensures Marking(s, Work(o, ok), StepJob(s, o, ok, cfg), v, c)
  {
    if s.jobs[o].at.Publish? || s.jobs[o].at.CallDlq? {
      SendingMarks(s, o, ok, v, c, cfg);
    } else {
      LastMarks(s, o, ok, v, c, cfg);
    }
  }

  lemma SendingMarks(s: State, o: Owner, ok: bool, v: nat, c: Cause, cfg: Config)
    requires o in s.jobs && (s.jobs[o].at.Publish? || s.jobs[o].at.CallDlq?)
    ensures Marking(s, Work(o, ok), StepJob(s, o, ok, cfg), v, c)
  {
  }

  lemma LastMarks(s: State, o: Owner, ok: bool, v: nat, c: Cause, cfg: Config)
    requires o in s.jobs && (s.jobs[o].at.SetNext? || s.jobs[o].at.Release?)
    ensures Marking(s, Work(o, ok), StepJob(s, o, ok, cfg), v, c)
  {
  }

  lemma IngestMarks(s: State, i: nat, ok: bool, v: nat, c: Cause)
    requires i in s.ingests
    ensures Marking(s, IngestStep(i, ok), StepIngest(s, i, ok), v, c)
  {
  }

  lemma StoreMarks(s: State, i: nat, id: AlertId, kind: Kind, v: nat, c: Cause, age: Span)
    ensures Marking(s, WriteAhead(i, id, kind, true), Store(s, i, id, kind, age), v, c)
  {
  }

  lemma TickMarks(s: State, d: nat, v: nat, c: Cause)
    ensures Marking(s, Tick(d), Elapse(s, d), v, c)
  {
  }

  lemma StepMarks(s: State, step: Step, v: nat, c: Cause, cfg: Config)
    requires Enabled(s, step)
    ensures Marking(s, step, Apply(s, step, cfg), v, c)
  {
    match step
    case Tick(d) => TickMarks(s, d, v, c);
    case WriteAhead(i, id, kind, ok) => if ok { StoreMarks(s, i, id, kind, v, c, cfg.maxAge); }
    case IngestStep(i, ok) => IngestMarks(s, i, ok, v, c);
    case Work(o, ok) => JobMarks(s, o, ok, v, c, cfg);
    case Unanswered(o) => UnansweredFrame(s, o, cfg.maxAge);
    case _ =>
  }

  lemma JobMarks(s: State, o: Owner, ok: bool, v: nat, c: Cause, cfg: Config)
    requires o in s.jobs
    ensures Marking(s, Work(o, ok), StepJob(s, o, ok, cfg), v, c)
  {
    if Reading(s.jobs[o].at) {
      ReadingMarks(s, o, ok, v, c, cfg);
    } else if Counting(s.jobs[o].at) {
      CountingMarks(s, o, ok, v, c, cfg);
    } else {
      PublishingMarks(s, o, ok, v, c, cfg);
    }
  }

  /** It happens to v somewhere in the run. */
  ghost predicate HappensIn(s: State, run: seq<Step>, v: nat, c: Cause, cfg: Config)
    requires Legal(s, run, cfg)
    decreases |run|
  {
    run != [] && (Happens(s, run[0], v, c) || HappensIn(Apply(s, run[0], cfg), run[1..], v, c, cfg))
  }

  lemma {:induction false} RunMarks(s: State, run: seq<Step>, v: nat, c: Cause, cfg: Config)
    requires Legal(s, run, cfg)
    ensures Marked(Exec(s, run, cfg), v, c) <==> Marked(s, v, c) || HappensIn(s, run, v, c, cfg)
    decreases |run|
  {
    if run != [] {
      StepMarks(s, run[0], v, c, cfg);
      RunMarks(Apply(s, run[0], cfg), run[1..], v, c, cfg);
    }
  }

  /** Over every run each entry of the ledger is there exactly if what it stands for happened to the value. */
  lemma LedgerMeans(run: seq<Step>, v: nat, c: Cause, cfg: Config)
    requires Legal(INIT, run, cfg)
    ensures Marked(Exec(INIT, run, cfg), v, c) <==> HappensIn(INIT, run, v, c, cfg)
  {
    RunMarks(INIT, run, v, c, cfg);
  }

  // ---------- Acknowledgements of requests that stored nothing ----------

  ghost predicate BareAckIn(s: State, run: seq<Step>, id: AlertId, cfg: Config)
    requires Legal(s, run, cfg)
    decreases |run|
  {
    run != [] && (BareAck(s, run[0], id) || BareAckIn(Apply(s, run[0], cfg), run[1..], id, cfg))
  }

  predicate BareAck(s: State, step: Step, id: AlertId) {
    InlineAck(s, step) && s.ingests[step.i].id == id && s.ingests[step.i].version.None?
  }

  lemma StepBareAcks(s: State, step: Step, id: AlertId, cfg: Config)
    requires Enabled(s, step)
    ensures id in Apply(s, step, cfg).bareAcks <==> id in s.bareAcks || BareAck(s, step, id)
  {
    match step
    case IngestStep(i, ok) => IngestBareAcks(s, i, ok, id);
    case Work(o, ok) => JobBareAcks(s, o, ok, cfg);
    case Unanswered(o) => UnansweredFrame(s, o, cfg.maxAge);
    case _ =>
  }

  lemma IngestBareAcks(s: State, i: nat, ok: bool, id: AlertId)
    requires i in s.ingests
    ensures id in StepIngest(s, i, ok).bareAcks <==> id in s.bareAcks || BareAck(s, IngestStep(i, ok), id)
  {
  }

  lemma JobBareAcks(s: State, o: Owner, ok: bool, cfg: Config)
    requires o in s.jobs
    ensures StepJob(s, o, ok, cfg).bareAcks == s.bareAcks
  {
    if Reading(s.jobs[o].at) {
    } else if Counting(s.jobs[o].at) {
    } else {
    }
  }

  lemma {:induction false} RunBareAcks(s: State, run: seq<Step>, id: AlertId, cfg: Config)
    requires Legal(s, run, cfg)
    ensures id in Exec(s, run, cfg).bareAcks <==> id in s.bareAcks || BareAckIn(s, run, id, cfg)
    decreases |run|
  {
    if run != [] {
      StepBareAcks(s, run[0], id, cfg);
      RunBareAcks(Apply(s, run[0], cfg), run[1..], id, cfg);
    }
  }

  /** And an alert counts as acknowledged for a request that stored nothing exactly if it was. */
  lemma BareAcksMean(run: seq<Step>, id: AlertId, cfg: Config)
    requires Legal(INIT, run, cfg)
    ensures id in Exec(INIT, run, cfg).bareAcks <==> BareAckIn(INIT, run, id, cfg)
  {
    RunBareAcks(INIT, run, id, cfg);
  }

  // ---------- How often mark_published has deleted an alert's keys ----------

  predicate Deletes(s: State, step: Step, id: AlertId) {
    || (InlineDelete(s, step) && s.ingests[step.i].id == id)
    || (Succeeds(s, step, Mark) && s.jobs[step.o].id == id)
  }

  function Deletions(s: State, run: seq<Step>, id: AlertId, cfg: Config): nat
    requires Legal(s, run, cfg)
    decreases |run|
  {
    if run == [] then 0
    else (if Deletes(s, run[0], id) then 1 else 0) + Deletions(Apply(s, run[0], cfg), run[1..], id, cfg)
  }

  lemma StepDeletes(s: State, step: Step, id: AlertId, cfg: Config)
    requires Enabled(s, step)
    ensures WalProtocol.Marks(Apply(s, step, cfg), id)
            == WalProtocol.Marks(s, id) + if Deletes(s, step, id) then 1 else 0
  {
    match step
    case Work(o, ok) => WalLease.JobLeaseEffect(s, o, ok, cfg);
    case IngestStep(i, ok) => WalLease.IngestLeaseEffect(s, i, ok);
    case Unanswered(o) => UnansweredFrame(s, o, cfg.maxAge);
    case _ =>
  }

  lemma {:induction false} RunDeletes(s: State, run: seq<Step>, id: AlertId, cfg: Config)
    requires Legal(s, run, cfg)
    ensures WalProtocol.Marks(Exec(s, run, cfg), id) == WalProtocol.Marks(s, id) + Deletions(s, run, id, cfg)
    decreases |run|
  {
    if run != [] {
      StepDeletes(s, run[0], id, cfg);
      RunDeletes(Apply(s, run[0], cfg), run[1..], id, cfg);
    }
  }

  /** The count of mark_published calls that the lease statements go by is just that. */
  lemma MarksMean(run: seq<Step>, id: AlertId, cfg: Config)
    requires Legal(INIT, run, cfg)
    ensures WalProtocol.Marks(Exec(INIT, run, cfg), id) == Deletions(INIT, run, id, cfg)
  {
    RunDeletes(INIT, run, id, cfg);
  }
}
