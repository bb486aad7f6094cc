/** A reconciler's visit to one alert, taken through the protocol without interruption and with Redis
    answering, leaves exactly the keys the sequential visit leaves. */
module WalAlone {
  import opened WalStore
  import opened WalProtocol
  import R = WalReconciler

  predicate OnlyBy(o: Owner, run: seq<Step>) { forall step <- run :: step.Work? && step.o == o }

  ghost predicate Leads(s: State, run: seq<Step>, o: Owner, k: Keys, cfg: Config) {
    OnlyBy(o, run) && Legal(s, run, cfg) && Exec(s, run, cfg).keys == k && o !in Exec(s, run, cfg).jobs
  }

  /** Working on alone, o ends its job with the keys k. */
  ghost predicate Ends(s: State, o: Owner, k: Keys, cfg: Config) { exists run :: Leads(s, run, o, k, cfg) }

  lemma Cons(s: State, o: Owner, ok: bool, k: Keys, cfg: Config)
    requires o in s.jobs && Ends(StepJob(s, o, ok, cfg), o, k, cfg)
    ensures Ends(s, o, k, cfg)
  {
    var run :| Leads(StepJob(s, o, ok, cfg), run, o, k, cfg);
    assert ([Work(o, ok)] + run)[1..] == run;
    assert Leads(s, [Work(o, ok)] + run, o, k, cfg);
  }

  lemma ReleaseEnds(s: State, o: Owner, cfg: Config)
    requires o in s.jobs && s.jobs[o].at.Release?
    ensures Ends(s, o, s.keys.Released(s.jobs[o].id, o), cfg)
  {
    var t := StepJob(s, o, true, cfg);
    assert Leads(t, [], o, t.keys, cfg);
    Cons(s, o, true, t.keys, cfg);
  }

  /** One more step, after which the job only releases. */
  lemma LastStep(s: State, o: Owner, ok: bool, k: Keys, cfg: Config)
    requires o in s.jobs
    requires var t := StepJob(s, o, ok, cfg);
             o in t.jobs && t.jobs[o].at.Release? && t.jobs[o].id == s.jobs[o].id && t.keys == k
    ensures Ends(s, o, k.Released(s.jobs[o].id, o), cfg)
  {
    ReleaseEnds(StepJob(s, o, ok, cfg), o, cfg);
    Cons(s, o, ok, k.Released(s.jobs[o].id, o), cfg);
  }

  lemma MarkEnds(s: State, o: Owner, cfg: Config)
    requires o in s.jobs && s.jobs[o].at.Mark?
    ensures Ends(s, o, s.keys.Published(s.jobs[o].id).Released(s.jobs[o].id, o), cfg)
  {
    LastStep(s, o, true, s.keys.Published(s.jobs[o].id), cfg);
  }

  lemma DlqEnds(s: State, o: Owner, cfg: Config)
    requires o in s.jobs && s.jobs[o].at.CallDlq?
    ensures Ends(s, o, s.keys.GivenUp(s.jobs[o].id).Released(s.jobs[o].id, o), cfg)
  {
    var t := StepJob(s, o, true, cfg);
    LastStep(t, o, true, s.keys.GivenUp(s.jobs[o].id), cfg);
    Cons(s, o, true, s.keys.GivenUp(s.jobs[o].id).Released(s.jobs[o].id, o), cfg);
  }

  /** The keys after a failed publish at counter n. */
  function Failed(k: Keys, id: AlertId, n: int, age: Span): Keys {
    var k2 := k.Scheduled(id, k.now + (if n >= 1 then Delay(n) else 0), age);
    if n >= |BACKOFF| then k2.GivenUp(id) else k2
  }

  lemma SetNextEnds(s: State, o: Owner, cfg: Config)
    requires o in s.jobs && s.jobs[o].at.SetNext?
    ensures Ends(s, o, Failed(s.keys, s.jobs[o].id, s.jobs[o].n, cfg.maxAge).Released(s.jobs[o].id, o), cfg)
  {
    var j, t := s.jobs[o], StepJob(s, o, true, cfg);
    if j.n >= |BACKOFF| {
      DlqEnds(t, o, cfg);
      Cons(s, o, true, Failed(s.keys, j.id, j.n, cfg.maxAge).Released(j.id, o), cfg);
    } else {
      LastStep(s, o, true, t.keys, cfg);
    }
  }

  lemma PublishEnds(s: State, o: Owner, ok: bool, cfg: Config)
    requires o in s.jobs && s.jobs[o].at.Publish?
    ensures var k := if ok then s.keys.Published(s.jobs[o].id)
                     else Failed(s.keys, s.jobs[o].id, s.jobs[o].n, cfg.maxAge);
            Ends(s, o, k.Released(s.jobs[o].id, o), cfg)
  {
    var k := if ok then s.keys.Published(s.jobs[o].id) else Failed(s.keys, s.jobs[o].id, s.jobs[o].n, cfg.maxAge);
    var t := StepJob(s, o, ok, cfg);
    if ok { MarkEnds(t, o, cfg); } else { SetNextEnds(t, o, cfg); }
    Cons(s, o, ok, k.Released(s.jobs[o].id, o), cfg);
  }

  /** The keys after the attempt has been counted as the n-th. */
  function Counted(k: Keys, id: AlertId, n: int, kind: Kind, ok: bool, age: Span): Keys {
    if k.TooSoon(id) || kind.NoSubject? then k
    else if ok then k.Published(id)
    else Failed(k, id, n, age)
  }

  lemma CheckEnds(s: State, o: Owner, ok: bool, cfg: Config)
    requires o in s.jobs && s.jobs[o].at.CheckNext?
    ensures var j := s.jobs[o];
            Ends(s, o, Counted(s.keys, j.id, j.n, j.kind, ok, cfg.maxAge).Released(j.id, o), cfg)
  {
    var j, t := s.jobs[o], StepJob(s, o, true, cfg);
    if s.keys.TooSoon(j.id) || j.kind.NoSubject? {
      LastStep(s, o, true, s.keys, cfg);
    } else {
      PublishEnds(t, o, ok, cfg);
      Cons(s, o, true, Counted(s.keys, j.id, j.n, j.kind, ok, cfg.maxAge).Released(j.id, o), cfg);
    }
  }

  lemma IncrEnds(s: State, o: Owner, ok: bool, cfg: Config)
    requires o in s.jobs && s.jobs[o].at.Incr?
    ensures var j, k := s.jobs[o], s.keys.Incremented(s.jobs[o].id).Renewed(s.jobs[o].id, cfg.maxAge);
            Ends(s, o, Counted(k, j.id, k.Attempts(j.id), j.kind, ok, cfg.maxAge).Released(j.id, o), cfg)
  {
    var j, k := s.jobs[o], s.keys.Incremented(s.jobs[o].id).Renewed(s.jobs[o].id, cfg.maxAge);
    var t := StepJob(s, o, true, cfg);
    var u := StepJob(t, o, true, cfg);
    assert u.keys == k && u.jobs[o].n == k.Attempts(j.id) && u.jobs[o].kind == j.kind && u.jobs[o].id == j.id;
    CheckEnds(u, o, ok, cfg);
    Cons(t, o, true, Counted(k, j.id, k.Attempts(j.id), j.kind, ok, cfg.maxAge).Released(j.id, o), cfg);
    Cons(s, o, true, Counted(k, j.id, k.Attempts(j.id), j.kind, ok, cfg.maxAge).Released(j.id, o), cfg);
  }

  lemma ProcessedIsCounted(k: Keys, id: AlertId, ok: bool, age: Span)
    requires id in k.pending && !k.pending[id].kind.Corrupt?
    ensures var k1 := k.Incremented(id).Renewed(id, age);
            R.AfterProcess(k, id, ok, age).keys == Counted(k1, id, k1.Attempts(id), k.pending[id].kind, ok, age)
  {
  }

  lemma GetEnds(s: State, o: Owner, ok: bool, cfg: Config)
    requires o in s.jobs && s.jobs[o].at.Get?
    ensures var id := s.jobs[o].id;
            Ends(s, o, R.AfterProcess(s.keys, id, ok, cfg.maxAge).keys.Released(id, o), cfg)
  {
    var id, t := s.jobs[o].id, StepJob(s, o, true, cfg);
    if id !in s.keys.pending {
      LastStep(s, o, true, s.keys, cfg);
    } else if s.keys.pending[id].kind.Corrupt? {
      LastStep(t, o, true, s.keys.Dropped(id), cfg);
      Cons(s, o, true, s.keys.Dropped(id).Released(id, o), cfg);
    } else {
      ProcessedIsCounted(s.keys, id, ok, cfg.maxAge);
      IncrEnds(t, o, ok, cfg);
      Cons(s, o, true, R.AfterProcess(s.keys, id, ok, cfg.maxAge).keys.Released(id, o), cfg);
    }
  }

  /** Acquiring a free alert and working on it alone is the sequential visit. */
  lemma VisitIsSequential(s: State, o: Owner, id: AlertId, ok: bool, cfg: Config)
    requires Enabled(s, Acquire(o, id))
    ensures exists run ::
              && OnlyBy(o, run) && Legal(s, [Acquire(o, id)] + run, cfg)
              && Exec(s, [Acquire(o, id)] + run, cfg).keys
                  == R.AfterVisit(s.keys, id, ok, o, cfg.leaseSpan, cfg.maxAge).keys
  {
    var t := Take(s, o, id, cfg.leaseSpan);
    GetEnds(t, o, ok, cfg);
    var k := R.AfterVisit(s.keys, id, ok, o, cfg.leaseSpan, cfg.maxAge).keys;
    var run :| Leads(t, run, o, k, cfg);
    assert ([Acquire(o, id)] + run)[1..] == run;
  }
}
