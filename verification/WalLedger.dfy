/** No value stored in the write-ahead log disappears unaccounted for. */
module WalLedger {
  import opened WalStore
  import opened WalProtocol

  predicate Pending(s: State, v: nat)
    requires v < |s.writes|
  {
    s.writes[v].id in s.keys.pending && s.keys.pending[s.writes[v].id].version == v
  }

  /** Where the ledger says a version went. */
  predicate Settled(s: State, v: nat) {
    || v in s.acked || v in s.gaveUp || v in s.dropped || v in s.expired || v in s.replaced
    || v in s.swept || v in s.cleared
  }

  predicate Done(s: State, v: nat) { v in s.acked || v in s.gaveUp || v in s.dropped }

  /** The log's values are versions it has stored. */
  ghost predicate Filed(s: State) {
    forall id <- s.keys.pending :: var e := s.keys.pending[id];
      e.version < |s.writes| && s.writes[e.version] == Write(id, e.kind)
  }

  predicate Accounted(s: State, v: nat)
    requires v < |s.writes|
  {
    Pending(s, v) || Settled(s, v)
  }

  ghost predicate Complete(s: State) { forall v: nat :: v < |s.writes| ==> Accounted(s, v) }

  /** A process holds a version of its alert no newer than the one in the log, and before it deletes
      anything it has what entitles it to. */
  ghost predicate JobOk(s: State, j: Job) {
    j.Read() ==>
      && j.version < |s.writes| && s.writes[j.version] == Write(j.id, j.kind)
      && (j.id in s.keys.pending ==> j.version <= s.keys.pending[j.id].version)
      && (j.at.Mark? ==> j.version in s.acked)
      && (j.at.DelDlq? ==> j.version in s.gaveUp)
      && (j.at.Drop? ==> j.version in s.dropped && j.kind.Corrupt?)
  }

  ghost predicate IngestOk(s: State, g: Ingest) {
    match g.version
    case None => g.acked ==> g.id in s.bareAcks
    case Some(v) =>
      && v < |s.writes| && s.writes[v].id == g.id
      && (g.id in s.keys.pending ==> v <= s.keys.pending[g.id].version)
      && (g.acked ==> v in s.acked)
  }

  ghost predicate Entitled(s: State) {
    && (forall o <- s.jobs :: JobOk(s, s.jobs[o]))
    && (forall i <- s.ingests :: IngestOk(s, s.ingests[i]))
  }

  /** A version is swept only on account of an earlier write of the same alert that is done with. */
  ghost predicate SweptOk(s: State) {
    forall w <- s.swept :: var v := s.swept[w];
      v < w < |s.writes| && s.writes[v].id == s.writes[w].id && Done(s, v)
  }

  /** A version is cleared only on account of an acknowledgement of its alert. */
  ghost predicate ClearedOk(s: State) {
    forall v <- s.cleared :: v < |s.writes| && s.writes[v].id in s.bareAcks
  }

  ghost predicate Inv(s: State) { Filed(s) && Complete(s) && Entitled(s) && SweptOk(s) && ClearedOk(s) }

  // ---------- Steps that remove nothing ----------

  /** From s to s' no pending value has gone, no write has come, and the history has only grown. */
  ghost predicate Leaves(s: State, s': State) {
    && s'.keys.pending == s.keys.pending && s'.writes == s.writes
    && s.acked <= s'.acked && s.gaveUp <= s'.gaveUp && s.dropped <= s'.dropped
    && s'.expired == s.expired && s'.replaced == s.replaced && s'.swept == s.swept
    && s'.cleared == s.cleared && s.bareAcks <= s'.bareAcks
  }

  lemma LeaveKeeps(s: State, s': State)
    requires Inv(s) && Leaves(s, s')
    requires forall o <- s'.jobs :: (o in s.jobs && s'.jobs[o] == s.jobs[o]) || JobOk(s', s'.jobs[o])
    requires forall i <- s'.ingests :: (i in s.ingests && s'.ingests[i] == s.ingests[i]) || IngestOk(s', s'.ingests[i])
    ensures Inv(s')
  {
    forall v: nat | v < |s'.writes| ensures Accounted(s', v) { assert Accounted(s, v); }
  }

  // ---------- Steps that remove something ----------

  lemma ElapseKeeps(s: State, d: nat)
    requires Inv(s)
    ensures Inv(Elapse(s, d))
  {
    forall v: nat | v < |s.writes| ensures Accounted(Elapse(s, d), v) { assert Accounted(s, v); }
  }

  lemma StoreKeeps(s: State, i: nat, id: AlertId, kind: Kind, age: Span)
    requires Inv(s) && i !in s.ingests
    ensures Inv(Store(s, i, id, kind, age))
  {
    var s' := Store(s, i, id, kind, age);
    forall v: nat | v < |s'.writes| ensures Accounted(s', v) { if v < |s.writes| { assert Accounted(s, v); } }
  }

  /** Deleting an alert's value on account of version v, which is done with. */
  ghost predicate Deletes(s: State, s': State, id: AlertId, v: nat) {
    && s'.keys.pending == s.keys.pending - {id} && s'.swept == Swept(s, id, v)
    && s'.writes == s.writes && s'.acked == s.acked && s'.gaveUp == s.gaveUp && s'.dropped == s.dropped
    && s'.expired == s.expired && s'.replaced == s.replaced && s'.cleared == s.cleared && s'.bareAcks == s.bareAcks
    && (forall o <- s'.jobs :: s'.jobs[o].Read() ==> o in s.jobs && s'.jobs[o] == s.jobs[o])
    && (forall i <- s'.ingests :: i in s.ingests && s'.ingests[i] == s.ingests[i])
  }

  lemma DeleteKeeps(s: State, s': State, id: AlertId, v: nat)
    requires Inv(s) && Deletes(s, s', id, v)
    requires v < |s.writes| && s.writes[v].id == id && Done(s, v)
    requires id in s.keys.pending ==> v <= s.keys.pending[id].version
    ensures Inv(s')
  {
    forall w: nat | w < |s'.writes| ensures Accounted(s', w) { assert Accounted(s, w); }
  }

  lemma BareKeeps(s: State, i: nat)
    requires Inv(s) && i in s.ingests && s.ingests[i].acked && s.ingests[i].version.None?
    ensures Inv(InlineCleared(s, i, true))
  {
    var s' := InlineCleared(s, i, true);
    assert IngestOk(s, s.ingests[i]);
    forall w: nat | w < |s'.writes| ensures Accounted(s', w) { assert Accounted(s, w); }
  }

  lemma IngestKeeps(s: State, i: nat, ok: bool)
    requires Inv(s) && i in s.ingests
    ensures Inv(StepIngest(s, i, ok))
  {
    var g, s' := s.ingests[i], StepIngest(s, i, ok);
    assert IngestOk(s, g);
    if g.acked && ok {
      if g.version.Some? { DeleteKeeps(s, s', g.id, g.version.value); } else { BareKeeps(s, i); }
    } else {
      LeaveKeeps(s, s');
    }
  }

  predicate Deleting(j: Job, ok: bool) { (j.at.Drop? || j.at.Mark? || j.at.DelDlq?) && ok }

  lemma JobLeaves(s: State, o: Owner, ok: bool, cfg: Config)
    requires o in s.jobs && !Deleting(s.jobs[o], ok)
    ensures Leaves(s, StepJob(s, o, ok, cfg))
  {
    if Reading(s.jobs[o].at) {
      ReadingLeaves(s, o, ok, cfg);
    } else if Counting(s.jobs[o].at) {
      CountingLeaves(s, o, ok, cfg);
    } else {
      PublishingLeaves(s, o, ok, cfg);
    }
  }

  lemma ReadingLeaves(s: State, o: Owner, ok: bool, cfg: Config)
    requires o in s.jobs && !Deleting(s.jobs[o], ok) && Reading(s.jobs[o].at)
    ensures Leaves(s, StepJob(s, o, ok, cfg))
  {
  }

  lemma CountingLeaves(s: State, o: Owner, ok: bool, cfg: Config)
    requires o in s.jobs && Counting(s.jobs[o].at)
    ensures Leaves(s, StepJob(s, o, ok, cfg))
  {
  }

  lemma PublishingLeaves(s: State, o: Owner, ok: bool, cfg: Config)
    requires o in s.jobs && Publishing(s.jobs[o].at)
    ensures Leaves(s, StepJob(s, o, ok, cfg))
  {
  }

  lemma JobFrame(s: State, o: Owner, ok: bool, cfg: Config)
    requires o in s.jobs
    ensures var s' := StepJob(s, o, ok, cfg);
            && s'.ingests == s.ingests
            && (forall p :: p in s'.jobs && p != o ==> p in s.jobs && s'.jobs[p] == s.jobs[p])
  {
    var j, s' := s.jobs[o], StepJob(s, o, ok, cfg);
    if j.at.Get? || j.at.CheckNext? || j.at.Release? {
    } else if j.at.Drop? || j.at.DelDlq? || j.at.Mark? {
    } else if j.at.Incr? || j.at.Expire? {
    } else {
    }
  }

  lemma JobStaysOk(s: State, o: Owner, ok: bool, cfg: Config)
    requires Filed(s) && o in s.jobs && JobOk(s, s.jobs[o]) && !Deleting(s.jobs[o], ok)
    ensures var s' := StepJob(s, o, ok, cfg); o in s'.jobs ==> JobOk(s', s'.jobs[o])
  {
    if s.jobs[o].at.Get? && ok {
      GetStaysOk(s, o);
    } else if Reading(s.jobs[o].at) || s.jobs[o].at.Release? {
      IdleStaysOk(s, o, ok, cfg);
    } else if Counting(s.jobs[o].at) {
      CountingStaysOk(s, o, ok, cfg);
    } else {
      PublishingStaysOk(s, o, ok, cfg);
    }
  }

  lemma IdleStaysOk(s: State, o: Owner, ok: bool, cfg: Config)
    requires o in s.jobs && !Deleting(s.jobs[o], ok)
    requires (Reading(s.jobs[o].at) || s.jobs[o].at.Release?) && (s.jobs[o].at.Get? ==> !ok)
    ensures var s' := StepJob(s, o, ok, cfg); o in s'.jobs ==> JobOk(s', s'.jobs[o])
  {
  }

  lemma CountingStaysOk(s: State, o: Owner, ok: bool, cfg: Config)
    requires o in s.jobs && JobOk(s, s.jobs[o]) && Counting(s.jobs[o].at)
    ensures var s' := StepJob(s, o, ok, cfg); o in s'.jobs ==> JobOk(s', s'.jobs[o])
  {
    CountingLeaves(s, o, ok, cfg);
    CountingOnly(s, o, ok, cfg);
  }

  /** Counting an attempt changes nothing of what the job has read. */
  lemma CountingOnly(s: State, o: Owner, ok: bool, cfg: Config)
    requires o in s.jobs && Counting(s.jobs[o].at)
    ensures var s' := StepJob(s, o, ok, cfg);
            && o in s'.jobs && s'.jobs[o] == s.jobs[o].(at := s'.jobs[o].at, n := s'.jobs[o].n)
            && (Counting(s'.jobs[o].at) || s'.jobs[o].at.Publish? || s'.jobs[o].at.Release?)
  {
  }

  lemma PublishingStaysOk(s: State, o: Owner, ok: bool, cfg: Config)
    requires o in s.jobs && JobOk(s, s.jobs[o]) && Publishing(s.jobs[o].at) && !s.jobs[o].at.Release?
    ensures var s' := StepJob(s, o, ok, cfg); o in s'.jobs ==> JobOk(s', s'.jobs[o])
  {
  }

  lemma GetStaysOk(s: State, o: Owner)
    requires Filed(s) && o in s.jobs
    ensures JobOk(SendGet(s, o), SendGet(s, o).jobs[o])
  {
  }

  lemma DeletingDeletes(s: State, o: Owner, cfg: Config)
    requires o in s.jobs && Deleting(s.jobs[o], true)
    ensures Deletes(s, StepJob(s, o, true, cfg), s.jobs[o].id, s.jobs[o].version)
  {
  }

  lemma JobKeeps(s: State, o: Owner, ok: bool, cfg: Config)
    requires Inv(s) && o in s.jobs
    ensures Inv(StepJob(s, o, ok, cfg))
  {
    var j, s' := s.jobs[o], StepJob(s, o, ok, cfg);
    if Deleting(j, ok) {
      DeletingDeletes(s, o, cfg);
      DeleteKeeps(s, s', j.id, j.version);
    } else {
      JobLeaves(s, o, ok, cfg);
      JobFrame(s, o, ok, cfg);
      JobStaysOk(s, o, ok, cfg);
      LeaveKeeps(s, s');
    }
  }

  lemma UnansweredKeeps(s: State, o: Owner, age: Span)
    requires Inv(s) && o in s.jobs && Losable(s.jobs[o].at)
    ensures Inv(SendUnanswered(s, o, age))
  {
    UnansweredFrame(s, o, age);
    assert JobOk(s, s.jobs[o]);
    LeaveKeeps(s, SendUnanswered(s, o, age));
  }

  lemma StepKeeps(s: State, step: Step, cfg: Config)
    requires Inv(s) && Enabled(s, step)
    ensures Inv(Apply(s, step, cfg))
  {
    match step
    case Tick(d) => ElapseKeeps(s, d);
    case WriteAhead(i, id, kind, ok) =>
      if ok { StoreKeeps(s, i, id, kind, cfg.maxAge); } else { LeaveKeeps(s, StoreNothing(s, i, id)); }
    case IngestStep(i, ok) => IngestKeeps(s, i, ok);
    case Work(o, ok) => JobKeeps(s, o, ok, cfg);
    case Unanswered(o) => UnansweredKeeps(s, o, cfg.maxAge);
    case _ => LeaveKeeps(s, Apply(s, step, cfg));
  }

  lemma {:induction false} RunKeeps(s: State, run: seq<Step>, cfg: Config)
    requires Inv(s) && Legal(s, run, cfg)
    ensures Inv(Exec(s, run, cfg))
    decreases |run|
  {
    if run != [] {
      StepKeeps(s, run[0], cfg);
      RunKeeps(Apply(s, run[0], cfg), run[1..], cfg);
    }
  }

  // ---------- The ledger ----------

  lemma InitInv()
    ensures Inv(INIT)
  {
  }

  /** Over every run, each value the log ever stored is still pending, or the broker acknowledged it,
      or it went through _move_to_dlq, was corrupt, reached max_age, or a later write of its alert
      replaced it; or it was deleted by a process done with an earlier write of its alert, or by a
      request whose own write failed, after the broker had acknowledged the alert for that request. */
  lemma Ledger(run: seq<Step>, v: nat, cfg: Config)
    requires Legal(INIT, run, cfg) && v < |Exec(INIT, run, cfg).writes|
    ensures var s := Exec(INIT, run, cfg);
            && (Pending(s, v) || v in s.acked || v in s.gaveUp || v in s.dropped || v in s.expired
                || v in s.replaced || v in s.swept || v in s.cleared)
            && (v in s.swept ==> s.swept[v] < v && s.writes[s.swept[v]].id == s.writes[v].id && Done(s, s.swept[v]))
            && (v in s.cleared ==> s.writes[v].id in s.bareAcks)
  {
    InitInv();
    RunKeeps(INIT, run, cfg);
    assert Accounted(Exec(INIT, run, cfg), v);
  }

  /** Replacement happens only by a later write of the same alert. */
  ghost predicate ReplacedOk(s: State) {
    forall v <- s.replaced :: v < |s.writes| && exists w :: v < w < |s.writes| && s.writes[w].id == s.writes[v].id
  }

  lemma ReplacedStep(s: State, step: Step, cfg: Config)
    requires Filed(s) && ReplacedOk(s) && Enabled(s, step)
    ensures ReplacedOk(Apply(s, step, cfg))
  {
    match step
    case WriteAhead(i, id, kind, ok) => if ok { StoreReplaces(s, i, id, kind, cfg.maxAge); }
    case IngestStep(i, ok) => IngestReplaces(s, i, ok);
    case Work(o, ok) =>
      if Deleting(s.jobs[o], ok) { DeletingDeletes(s, o, cfg); } else { JobLeaves(s, o, ok, cfg); }
    case Unanswered(o) => UnansweredFrame(s, o, cfg.maxAge);
    case _ =>
  }

  lemma IngestReplaces(s: State, i: nat, ok: bool)
    requires i in s.ingests
    ensures var s' := StepIngest(s, i, ok); s'.replaced == s.replaced && s'.writes == s.writes
  {
  }

  lemma StoreReplaces(s: State, i: nat, id: AlertId, kind: Kind, age: Span)
    requires Filed(s) && ReplacedOk(s)
    ensures ReplacedOk(Store(s, i, id, kind, age))
  {
    var s' := Store(s, i, id, kind, age);
    forall v <- s'.replaced
      ensures v < |s'.writes| && exists w :: v < w < |s'.writes| && s'.writes[w].id == s'.writes[v].id
    {
      if v in s.replaced {
        var w :| v < w < |s.writes| && s.writes[w].id == s.writes[v].id;
        assert s'.writes[w].id == s'.writes[v].id;
      } else {
        assert s'.writes[|s.writes|].id == s'.writes[v].id;
      }
    }
  }

  lemma {:induction false} ReplacedRun(s: State, run: seq<Step>, cfg: Config)
    requires Inv(s) && ReplacedOk(s) && Legal(s, run, cfg)
    ensures ReplacedOk(Exec(s, run, cfg))
    decreases |run|
  {
    if run != [] {
      StepKeeps(s, run[0], cfg);
      ReplacedStep(s, run[0], cfg);
      ReplacedRun(Apply(s, run[0], cfg), run[1..], cfg);
    }
  }

  /** What each step that takes an alert's value out of the log has to show for it. */
  lemma RemovalCause(s: State, step: Step, id: AlertId, cfg: Config)
    requires Inv(s) && Enabled(s, step) && id in s.keys.pending && id !in Apply(s, step, cfg).keys.pending
    ensures match step
            case Tick(d) => s.keys.pending[id].exp <= s.keys.now + d
            case IngestStep(i, ok) =>
              && ok && s.ingests[i].id == id
              && (if s.ingests[i].version.Some? then s.ingests[i].version.value in s.acked else id in s.bareAcks)
            case Work(o, ok) =>
              && ok && s.jobs[o].id == id
              && (if s.jobs[o].at.Mark? then s.jobs[o].version in s.acked
                  else if s.jobs[o].at.DelDlq? then s.jobs[o].version in s.gaveUp
                  else s.jobs[o].at.Drop? && s.writes[s.jobs[o].version] == Write(id, Corrupt))
            case _ => false
  {
    match step
    case Work(o, ok) => WorkCause(s, o, ok, id, cfg);
    case IngestStep(i, ok) => IngestCause(s, i, ok, id);
    case Unanswered(o) => UnansweredFrame(s, o, cfg.maxAge);
    case _ =>
  }

  lemma IngestCause(s: State, i: nat, ok: bool, id: AlertId)
    requires i in s.ingests && IngestOk(s, s.ingests[i])
    requires id in s.keys.pending && id !in StepIngest(s, i, ok).keys.pending
    ensures ok && s.ingests[i].id == id
    ensures if s.ingests[i].version.Some? then s.ingests[i].version.value in s.acked else id in s.bareAcks
  {
  }

  lemma WorkCause(s: State, o: Owner, ok: bool, id: AlertId, cfg: Config)
    requires o in s.jobs && JobOk(s, s.jobs[o])
    requires id in s.keys.pending && id !in StepJob(s, o, ok, cfg).keys.pending
    ensures ok && s.jobs[o].id == id
    ensures if s.jobs[o].at.Mark? then s.jobs[o].version in s.acked
            else if s.jobs[o].at.DelDlq? then s.jobs[o].version in s.gaveUp
            else s.jobs[o].at.Drop? && s.writes[s.jobs[o].version] == Write(id, Corrupt)
  {
    if !Deleting(s.jobs[o], ok) {
      JobLeaves(s, o, ok, cfg);
    }
  }
}
