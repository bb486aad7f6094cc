/** Which values of the write-ahead log can be given up: those with a subject, and no others. */
module WalSubjects {
  import opened WalStore
  import opened WalProtocol
  import L = WalLedger
  import B = WalBounds
  import F = WalFaults

  /** Past the subject resolver. */
  predicate Routed(at: At) { at.Publish? || at.Mark? || at.SetNext? || at.CallDlq? || at.DelDlq? }

  predicate KindOk(j: Job) { (Routed(j.at) ==> j.kind.Good?) && (Counting(j.at) ==> !j.kind.Corrupt?) }

  /** Only values with a subject are given up, and only corrupt ones dropped. */
  ghost predicate Sorted(s: State) {
    && (forall o <- s.jobs :: KindOk(s.jobs[o]))
    && (forall v <- s.gaveUp :: v < |s.writes| && s.writes[v].kind.Good?)
    && (forall v <- s.dropped :: v < |s.writes| && s.writes[v].kind.Corrupt?)
  }

  lemma ReadingKind(s: State, o: Owner, ok: bool, cfg: Config)
    requires o in s.jobs && KindOk(s.jobs[o]) && Reading(s.jobs[o].at)
    ensures var s' := StepJob(s, o, ok, cfg); o in s'.jobs ==> KindOk(s'.jobs[o])
  {
  }

  lemma CountingKind(s: State, o: Owner, ok: bool, cfg: Config)
    requires o in s.jobs && KindOk(s.jobs[o]) && Counting(s.jobs[o].at)
    ensures var s' := StepJob(s, o, ok, cfg); o in s'.jobs ==> KindOk(s'.jobs[o])
  {
  }

  lemma PublishingKind(s: State, o: Owner, ok: bool, cfg: Config)
    requires o in s.jobs && KindOk(s.jobs[o]) && Publishing(s.jobs[o].at)
    ensures var s' := StepJob(s, o, ok, cfg); o in s'.jobs ==> KindOk(s'.jobs[o])
  {
  }

  lemma JobKind(s: State, o: Owner, ok: bool, cfg: Config)
    requires o in s.jobs && KindOk(s.jobs[o])
    ensures var s' := StepJob(s, o, ok, cfg); o in s'.jobs ==> KindOk(s'.jobs[o])
  {
    if Reading(s.jobs[o].at) {
      ReadingKind(s, o, ok, cfg);
    } else if Counting(s.jobs[o].at) {
      CountingKind(s, o, ok, cfg);
    } else {
      PublishingKind(s, o, ok, cfg);
    }
  }

  /** What a job's step adds to the values given up and dropped. */
  predicate Adds(s: State, s': State, j: Job, ok: bool) {
    && s'.writes == s.writes
    && s'.gaveUp == (if j.at.CallDlq? then s.gaveUp + {j.version} else s.gaveUp)
    && s'.delivered == (if j.at.CallDlq? && ok then s.delivered + {j.version} else s.delivered)
    && (forall v <- s'.dropped :: v in s.dropped ||
          (j.id in s.keys.pending && s.keys.pending[j.id].version == v && s.keys.pending[j.id].kind.Corrupt?))
  }

  lemma ReadingAdds(s: State, o: Owner, ok: bool, cfg: Config)
    requires o in s.jobs && Reading(s.jobs[o].at)
    ensures Adds(s, StepJob(s, o, ok, cfg), s.jobs[o], ok)
  {
  }

  lemma CountingAdds(s: State, o: Owner, ok: bool, cfg: Config)
    requires o in s.jobs && Counting(s.jobs[o].at)
    ensures Adds(s, StepJob(s, o, ok, cfg), s.jobs[o], ok)
  {
  }

  lemma PublishingAdds(s: State, o: Owner, ok: bool, cfg: Config)
    requires o in s.jobs && Publishing(s.jobs[o].at)
    ensures Adds(s, StepJob(s, o, ok, cfg), s.jobs[o], ok)
  {
  }

  lemma JobAdds(s: State, o: Owner, ok: bool, cfg: Config)
    requires o in s.jobs
    ensures Adds(s, StepJob(s, o, ok, cfg), s.jobs[o], ok)
  {
    if Reading(s.jobs[o].at) {
      ReadingAdds(s, o, ok, cfg);
    } else if Counting(s.jobs[o].at) {
      CountingAdds(s, o, ok, cfg);
    } else {
      PublishingAdds(s, o, ok, cfg);
    }
  }

  lemma JobSorts(s: State, o: Owner, ok: bool, cfg: Config)
    requires L.Filed(s) && Sorted(s) && o in s.jobs && L.JobOk(s, s.jobs[o])
    ensures Sorted(StepJob(s, o, ok, cfg))
  {
    JobKind(s, o, ok, cfg);
    JobAdds(s, o, ok, cfg);
    L.JobFrame(s, o, ok, cfg);
  }

  lemma UnansweredSorts(s: State, o: Owner, age: Span)
    requires Sorted(s) && o in s.jobs && Losable(s.jobs[o].at)
    ensures Sorted(SendUnanswered(s, o, age))
  {
    UnansweredFrame(s, o, age);
  }

  lemma IngestSorts(s: State, i: nat, ok: bool)
    requires Sorted(s) && i in s.ingests
    ensures Sorted(StepIngest(s, i, ok))
  {
    var s' := StepIngest(s, i, ok);
    assert s'.jobs == s.jobs && s'.gaveUp == s.gaveUp && s'.dropped == s.dropped && s'.writes == s.writes;
  }

  lemma StepSorts(s: State, step: Step, cfg: Config)
    requires L.Inv(s) && Sorted(s) && Enabled(s, step)
    ensures Sorted(Apply(s, step, cfg))
  {
    if step.Work? { JobSorts(s, step.o, step.ok, cfg); }
    if step.Unanswered? { UnansweredSorts(s, step.o, cfg.maxAge); }
    if step.IngestStep? { IngestSorts(s, step.i, step.ok); }
  }

  lemma {:induction false} RunSorts(s: State, run: seq<Step>, cfg: Config)
    requires L.Inv(s) && Sorted(s) && Legal(s, run, cfg)
    ensures Sorted(Exec(s, run, cfg))
    decreases |run|
  {
    if run != [] {
      L.StepKeeps(s, run[0], cfg);
      StepSorts(s, run[0], cfg);
      RunSorts(Apply(s, run[0], cfg), run[1..], cfg);
    }
  }

  /** Over every run a value without a subject is never given up nor dropped: it stays until its request
      publishes it, it is too old, or something else of its alert takes it away. */
  lemma NoSubjectStays(run: seq<Step>, v: nat, cfg: Config)
    requires Legal(INIT, run, cfg) && v < |Exec(INIT, run, cfg).writes|
    requires Exec(INIT, run, cfg).writes[v].kind.NoSubject?
    ensures var s := Exec(INIT, run, cfg);
            && v !in s.gaveUp && v !in s.dropped
            && (L.Pending(s, v) || v in s.acked || v in s.expired || v in s.replaced || v in s.swept || v in s.cleared)
  {
    L.InitInv();
    RunSorts(INIT, run, cfg);
    L.Ledger(run, v, cfg);
  }

  ghost predicate CanBeGivenUp(s: State, v: nat, cfg: Config) { exists run :: GivesUp(s, run, v, cfg) }

  ghost predicate GivesUp(s: State, run: seq<Step>, v: nat, cfg: Config)
  {
    Legal(s, run, cfg) && v in Exec(s, run, cfg).gaveUp
  }

  /** A fresh value of an alert whose lease is free can be given up exactly if it has a subject. */
  lemma GivenUpIff(before: seq<Step>, a: AlertId, cfg: Config)
    requires Legal(INIT, before, cfg) && 48935 * SECOND < cfg.maxAge
    requires var s := Exec(INIT, before, cfg); B.Fresh(s, a, cfg.maxAge) && a !in s.keys.lease
    ensures var s := Exec(INIT, before, cfg); var e := s.keys.pending[a];
            CanBeGivenUp(s, e.version, cfg) <==> e.kind.Good?
  {
    var s := Exec(INIT, before, cfg);
    var e := s.keys.pending[a];
    L.InitInv();
    L.RunKeeps(INIT, before, cfg);
    if e.kind.Good? {
      F.GivenUpAfter(s, a, 2, cfg);
      var run :| F.Shows(s, run, a, 2, Some(e.version), F.NONE, cfg);
      assert GivesUp(s, run, e.version, cfg);
    } else if run :| GivesUp(s, run, e.version, cfg) {
      RunSorts(INIT, before, cfg);
      RunSorts(s, run, cfg);
      L.RunKeeps(s, run, cfg);
      WritesStay(s, run, e.version, cfg);
    }
  }

  lemma {:induction false} WritesStay(s: State, run: seq<Step>, v: nat, cfg: Config)
    requires Legal(s, run, cfg) && v < |s.writes|
    ensures var t := Exec(s, run, cfg); v < |t.writes| && t.writes[v] == s.writes[v]
    decreases |run|
  {
    if run != [] {
      if run[0].Work? { JobAdds(s, run[0].o, run[0].ok, cfg); }
      WritesStay(Apply(s, run[0], cfg), run[1..], v, cfg);
    }
  }
}
