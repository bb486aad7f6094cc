/** When a value of the write-ahead log can be swept away by a process that holds an earlier value of
    the same alert. */
module WalSweep {
  import opened WalStore
  import opened WalProtocol
  import L = WalLedger

  /** A reconciler that has read the alert and can still come to delete its pending value. */
  predicate MayDelete(j: Job) {
    match j.at
    case Drop => true
    case Incr => !j.kind.NoSubject?
    case Expire => !j.kind.NoSubject?
    case CheckNext => !j.kind.NoSubject?
    case Publish => true
    case Mark => true
    case SetNext => j.n >= |BACKOFF|
    case CallDlq => true
    case DelDlq => true
    case _ => false
  }

  /** An ingest of the alert holds another value than v. */
  predicate IngestHolds(s: State, i: nat, id: AlertId, v: nat)
    requires i in s.ingests
  {
    s.ingests[i].id == id && s.ingests[i].version.Some? && s.ingests[i].version.value != v
  }

  predicate JobHolds(s: State, o: Owner, id: AlertId, v: nat)
    requires o in s.jobs
  {
    s.jobs[o].id == id && s.jobs[o].version != v && MayDelete(s.jobs[o])
  }

  /** Some request or reconciler under way holds another value of v's alert and may still delete. */
  predicate Held(s: State, v: nat)
    requires v < |s.writes|
  {
    || (exists i <- s.ingests :: IngestHolds(s, i, s.writes[v].id, v))
    || (exists o <- s.jobs :: JobHolds(s, o, s.writes[v].id, v))
  }

  // ---------- Nobody holds another value: never swept ----------

  /** v has not been swept, and while it is pending nobody holds another value of its alert. */
  ghost predicate Safe(s: State, v: nat) {
    v < |s.writes| && v !in s.swept && (L.Pending(s, v) ==> !Held(s, v))
  }

  lemma IngestSweeps(s: State, i: nat, ok: bool, v: nat)
    requires L.Filed(s) && v < |s.writes| && i in s.ingests && v !in s.swept
    requires L.Pending(s, v) ==> !IngestHolds(s, i, s.writes[v].id, v)
    ensures v !in StepIngest(s, i, ok).swept
  {
  }

  lemma IngestFrame(s: State, i: nat, ok: bool)
    requires i in s.ingests
    ensures var s' := StepIngest(s, i, ok); s'.writes == s.writes && s'.jobs == s.jobs
    ensures forall v: nat | v < |s.writes| && L.Pending(StepIngest(s, i, ok), v) :: L.Pending(s, v)
    ensures forall k <- StepIngest(s, i, ok).ingests ::
              k in s.ingests && SameIngest(s.ingests[k], StepIngest(s, i, ok).ingests[k])
  {
  }

  predicate SameIngest(g: Ingest, h: Ingest) { g.id == h.id && g.version == h.version }

  lemma IngestSafe(s: State, i: nat, ok: bool, v: nat)
    requires Safe(s, v) && L.Filed(s) && i in s.ingests
    ensures Safe(StepIngest(s, i, ok), v)
  {
    var id, s' := s.writes[v].id, StepIngest(s, i, ok);
    if L.Pending(s, v) { assert !IngestHolds(s, i, id, v); }
    IngestSweeps(s, i, ok, v);
    IngestFrame(s, i, ok);
    if L.Pending(s', v) {
      forall k <- s'.ingests ensures !IngestHolds(s', k, id, v) { assert !IngestHolds(s, k, id, v); }
      forall o <- s'.jobs ensures !JobHolds(s', o, id, v) { assert !JobHolds(s, o, id, v); }
    }
  }

  /** A job's step sweeps nothing it does not hold another value of, and holds nothing new. */
  lemma JobSweeps(s: State, o: Owner, ok: bool, v: nat, cfg: Config)
    requires L.Filed(s) && v < |s.writes| && o in s.jobs && v !in s.swept
    requires L.Pending(s, v) ==> !JobHolds(s, o, s.writes[v].id, v)
    ensures v !in StepJob(s, o, ok, cfg).swept
  {
    if Reading(s.jobs[o].at) {
      ReadingSweeps(s, o, ok, v, cfg);
    } else if Counting(s.jobs[o].at) {
    } else {
    }
  }

  lemma ReadingSweeps(s: State, o: Owner, ok: bool, v: nat, cfg: Config)
    requires L.Filed(s) && v < |s.writes| && o in s.jobs && v !in s.swept
    requires L.Pending(s, v) ==> !JobHolds(s, o, s.writes[v].id, v)
    requires Reading(s.jobs[o].at)
    ensures v !in StepJob(s, o, ok, cfg).swept
  {
  }

  lemma JobHoldsNothingNew(s: State, o: Owner, ok: bool, v: nat, cfg: Config)
    requires v < |s.writes| && o in s.jobs && L.Pending(s, v) && !JobHolds(s, o, s.writes[v].id, v)
    ensures var s' := StepJob(s, o, ok, cfg); o in s'.jobs ==> !JobHolds(s', o, s.writes[v].id, v)
  {
    if Reading(s.jobs[o].at) {
    } else if Counting(s.jobs[o].at) {
    } else {
    }
  }

  lemma JobWrites(s: State, o: Owner, ok: bool, cfg: Config)
    requires o in s.jobs
    ensures var s' := StepJob(s, o, ok, cfg);
            s'.writes == s.writes && forall v: nat | v < |s.writes| && L.Pending(s', v) :: L.Pending(s, v)
  {
    if Reading(s.jobs[o].at) {
    } else if Counting(s.jobs[o].at) {
    } else {
    }
  }

  lemma JobSafe(s: State, o: Owner, ok: bool, v: nat, cfg: Config)
    requires Safe(s, v) && L.Filed(s) && o in s.jobs
    ensures Safe(StepJob(s, o, ok, cfg), v)
  {
    var id, s' := s.writes[v].id, StepJob(s, o, ok, cfg);
    if L.Pending(s, v) { assert !JobHolds(s, o, id, v); }
    JobSweeps(s, o, ok, v, cfg);
    JobWrites(s, o, ok, cfg);
    L.JobFrame(s, o, ok, cfg);
    if L.Pending(s', v) {
      JobHoldsNothingNew(s, o, ok, v, cfg);
      forall k <- s'.ingests ensures !IngestHolds(s', k, id, v) { assert !IngestHolds(s, k, id, v); }
      forall p <- s'.jobs ensures !JobHolds(s', p, id, v) { if p != o { assert !JobHolds(s, p, id, v); } }
    }
  }

  lemma UnansweredSafe(s: State, o: Owner, v: nat, age: Span)
    requires Safe(s, v) && o in s.jobs && Losable(s.jobs[o].at)
    ensures Safe(SendUnanswered(s, o, age), v)
  {
    var id, s' := s.writes[v].id, SendUnanswered(s, o, age);
    UnansweredFrame(s, o, age);
    if L.Pending(s', v) {
      assert L.Pending(s, v);
      forall k <- s'.ingests ensures !IngestHolds(s', k, id, v) { assert !IngestHolds(s, k, id, v); }
      forall p <- s'.jobs ensures !JobHolds(s', p, id, v) { assert !JobHolds(s, p, id, v); }
    }
  }

  lemma OtherSafe(s: State, step: Step, v: nat, cfg: Config)
    requires Safe(s, v) && Enabled(s, step) && !step.IngestStep? && !step.Work? && !step.Unanswered?
    ensures Safe(Apply(s, step, cfg), v)
  {
    var id, s' := s.writes[v].id, Apply(s, step, cfg);
    assert s'.writes[v] == s.writes[v];
    if L.Pending(s', v) {
      assert L.Pending(s, v);
      forall k <- s'.ingests ensures !IngestHolds(s', k, id, v) { assert k in s.ingests ==> !IngestHolds(s, k, id, v); }
      forall o <- s'.jobs ensures !JobHolds(s', o, id, v) { assert o in s.jobs ==> !JobHolds(s, o, id, v); }
    }
  }

  lemma {:induction false} RunSafe(s: State, run: seq<Step>, v: nat, cfg: Config)
    requires L.Inv(s) && Safe(s, v) && Legal(s, run, cfg)
    ensures Safe(Exec(s, run, cfg), v)
    decreases |run|
  {
    if run != [] {
      match run[0] {
        case IngestStep(i, ok) => IngestSafe(s, i, ok, v);
        case Work(o, ok) => JobSafe(s, o, ok, v, cfg);
        case Unanswered(o) => UnansweredSafe(s, o, v, cfg.maxAge);
        case _ => OtherSafe(s, run[0], v, cfg);
      }
      L.StepKeeps(s, run[0], cfg);
      RunSafe(Apply(s, run[0], cfg), run[1..], v, cfg);
    }
  }

  // ---------- Somebody does: some continuation sweeps it ----------

  ghost predicate CanBeSwept(s: State, v: nat, cfg: Config) {
    exists run :: Sweeps(s, run, v, cfg)
  }

  ghost predicate Sweeps(s: State, run: seq<Step>, v: nat, cfg: Config) {
    Legal(s, run, cfg) && v in Exec(s, run, cfg).swept
  }

  lemma Cons(s: State, step: Step, v: nat, cfg: Config)
    requires Enabled(s, step) && CanBeSwept(Apply(s, step, cfg), v, cfg)
    ensures CanBeSwept(s, v, cfg)
  {
    var run :| Sweeps(Apply(s, step, cfg), run, v, cfg);
    assert ([step] + run)[1..] == run;
    assert Sweeps(s, [step] + run, v, cfg);
  }

  lemma Swept(s: State, v: nat, cfg: Config)
    requires v in s.swept
    ensures CanBeSwept(s, v, cfg)
  {
    assert Sweeps(s, [], v, cfg);
  }

  lemma IngestCanSweep(s: State, i: nat, v: nat, cfg: Config)
    requires v < |s.writes| && L.Pending(s, v) && i in s.ingests && IngestHolds(s, i, s.writes[v].id, v)
    ensures CanBeSwept(s, v, cfg)
    decreases if s.ingests[i].acked then 0 else 1
  {
    if !s.ingests[i].acked {
      IngestCanSweep(InlineAcked(s, i), i, v, cfg);
      Cons(s, IngestStep(i, true), v, cfg);
    } else {
      Swept(InlineCleared(s, i, true), v, cfg);
      Cons(s, IngestStep(i, true), v, cfg);
    }
  }

  /** Deleting stages delete at once. */
  lemma DeletingCanSweep(s: State, o: Owner, v: nat, cfg: Config)
    requires v < |s.writes| && L.Pending(s, v) && o in s.jobs && s.jobs[o].id == s.writes[v].id
    requires s.jobs[o].version != v
    requires s.jobs[o].at.Drop? || s.jobs[o].at.Mark? || s.jobs[o].at.DelDlq?
    ensures CanBeSwept(s, v, cfg)
  {
    Swept(StepJob(s, o, true, cfg), v, cfg);
    Cons(s, Work(o, true), v, cfg);
  }

  lemma GivingUpCanSweep(s: State, o: Owner, v: nat, cfg: Config)
    requires v < |s.writes| && L.Pending(s, v) && o in s.jobs && s.jobs[o].id == s.writes[v].id
    requires s.jobs[o].version != v
    requires s.jobs[o].at.CallDlq? || (s.jobs[o].at.SetNext? && s.jobs[o].n >= |BACKOFF|)
    ensures CanBeSwept(s, v, cfg)
    decreases if s.jobs[o].at.CallDlq? then 0 else 1
  {
    if s.jobs[o].at.CallDlq? {
      DeletingCanSweep(SendDlq(s, o, true), o, v, cfg);
    } else {
      GivingUpCanSweep(SendSetNext(s, o, cfg.maxAge), o, v, cfg);
    }
    Cons(s, Work(o, true), v, cfg);
  }

  lemma PublishCanSweep(s: State, o: Owner, v: nat, cfg: Config)
    requires v < |s.writes| && L.Pending(s, v) && o in s.jobs && s.jobs[o].id == s.writes[v].id
    requires s.jobs[o].version != v
    requires s.jobs[o].at.Publish?
    ensures CanBeSwept(s, v, cfg)
  {
    DeletingCanSweep(SendPublish(s, o, true), o, v, cfg);
    Cons(s, Work(o, true), v, cfg);
  }

  const LONGEST: int := 28800 * SECOND

  /** v outlives any backoff of its alert. */
  ghost predicate Outlives(s: State, v: nat) {
    && v < |s.writes| && L.Pending(s, v)
    && var id := s.writes[v].id; id in s.keys.next ==> s.keys.next[id].value < s.keys.pending[id].exp
  }

  lemma CheckCanSweep(s: State, o: Owner, v: nat, cfg: Config)
    requires Outlives(s, v) && o in s.jobs && s.jobs[o].id == s.writes[v].id && s.jobs[o].version != v
    requires s.jobs[o].at.CheckNext? && !s.jobs[o].kind.NoSubject?
    ensures CanBeSwept(s, v, cfg)
  {
    var id := s.writes[v].id;
    if s.keys.TooSoon(id) {
      var d := s.keys.next[id].value - s.keys.now;
      var t := Elapse(s, d);
      assert L.Pending(t, v) && !t.keys.TooSoon(id);
      CheckedCanSweep(t, o, v, cfg);
      Cons(s, Tick(d), v, cfg);
    } else {
      CheckedCanSweep(s, o, v, cfg);
    }
  }

  lemma CheckedCanSweep(s: State, o: Owner, v: nat, cfg: Config)
    requires v < |s.writes| && L.Pending(s, v) && o in s.jobs && s.jobs[o].id == s.writes[v].id
    requires s.jobs[o].version != v
    requires s.jobs[o].at.CheckNext? && !s.jobs[o].kind.NoSubject? && !s.keys.TooSoon(s.writes[v].id)
    ensures CanBeSwept(s, v, cfg)
  {
    PublishCanSweep(Goto(s, o, Publish), o, v, cfg);
    Cons(s, Work(o, true), v, cfg);
  }

  lemma CountCanSweep(s: State, o: Owner, v: nat, cfg: Config)
    requires Outlives(s, v) && o in s.jobs && s.jobs[o].id == s.writes[v].id && s.jobs[o].version != v
    requires Counting(s.jobs[o].at) && !s.jobs[o].kind.NoSubject?
    ensures CanBeSwept(s, v, cfg)
    decreases if s.jobs[o].at.Incr? then 1 else 0
  {
    if s.jobs[o].at.CheckNext? {
      CheckCanSweep(s, o, v, cfg);
    } else if s.jobs[o].at.Incr? {
      CountCanSweep(SendIncr(s, o, true), o, v, cfg);
      Cons(s, Work(o, true), v, cfg);
    } else {
      CheckCanSweep(SendExpire(s, o, true, cfg.maxAge), o, v, cfg);
      Cons(s, Work(o, true), v, cfg);
    }
  }

  lemma JobCanSweep(s: State, o: Owner, v: nat, cfg: Config)
    requires Outlives(s, v) && o in s.jobs && JobHolds(s, o, s.writes[v].id, v)
    ensures CanBeSwept(s, v, cfg)
  {
    match s.jobs[o].at
    case Drop => DeletingCanSweep(s, o, v, cfg);
    case Mark => DeletingCanSweep(s, o, v, cfg);
    case DelDlq => DeletingCanSweep(s, o, v, cfg);
    case SetNext => GivingUpCanSweep(s, o, v, cfg);
    case CallDlq => GivingUpCanSweep(s, o, v, cfg);
    case Publish => PublishCanSweep(s, o, v, cfg);
    case _ => CountCanSweep(s, o, v, cfg);
  }

  // ---------- Backoffs are shorter than a value's life ----------

  ghost predicate NextSoon(s: State) { forall id <- s.keys.next :: s.keys.next[id].value <= s.keys.now + LONGEST }

  lemma JobSoon(s: State, o: Owner, ok: bool, cfg: Config)
    requires NextSoon(s) && o in s.jobs
    ensures NextSoon(StepJob(s, o, ok, cfg))
  {
    if Reading(s.jobs[o].at) {
    } else if Counting(s.jobs[o].at) {
    } else {
    }
  }

  lemma {:induction false} RunSoon(s: State, run: seq<Step>, cfg: Config)
    requires NextSoon(s) && Legal(s, run, cfg)
    ensures NextSoon(Exec(s, run, cfg))
    decreases |run|
  {
    if run != [] {
      if run[0].Work? { JobSoon(s, run[0].o, run[0].ok, cfg); }
      RunSoon(Apply(s, run[0], cfg), run[1..], cfg);
    }
  }

  // ---------- Cleared by a request that stored nothing ----------

  /** A request for the alert is under way whose own write Redis refused. */
  predicate BareHeld(s: State, id: AlertId) { exists i <- s.ingests :: Bare(s, i, id) }

  predicate Bare(s: State, i: nat, id: AlertId)
    requires i in s.ingests
  {
    s.ingests[i].id == id && s.ingests[i].version.None?
  }

  /** A write of the alert that Redis refuses. */
  predicate Refused(step: Step, id: AlertId) { step.WriteAhead? && step.id == id && !step.ok }

  predicate RefusesNone(run: seq<Step>, id: AlertId) { forall step <- run :: !Refused(step, id) }

  predicate Uncleared(s: State, v: nat) { v < |s.writes| && v !in s.cleared && !BareHeld(s, s.writes[v].id) }

  lemma JobUncleared(s: State, o: Owner, ok: bool, v: nat, cfg: Config)
    requires Uncleared(s, v) && o in s.jobs
    ensures Uncleared(StepJob(s, o, ok, cfg), v)
  {
    L.JobFrame(s, o, ok, cfg);
    if L.Deleting(s.jobs[o], ok) { L.DeletingDeletes(s, o, cfg); } else { L.JobLeaves(s, o, ok, cfg); }
  }

  lemma IngestUncleared(s: State, i: nat, ok: bool, v: nat)
    requires L.Filed(s) && Uncleared(s, v) && i in s.ingests
    ensures Uncleared(StepIngest(s, i, ok), v)
  {
    var id, s' := s.writes[v].id, StepIngest(s, i, ok);
    IngestFrame(s, i, ok);
    forall k <- s'.ingests ensures !Bare(s', k, id) { assert !Bare(s, k, id); }
    assert !Bare(s, i, id);
  }

  lemma OtherUncleared(s: State, step: Step, v: nat, cfg: Config)
    requires Uncleared(s, v) && Enabled(s, step) && !step.IngestStep? && !step.Work? && !step.Unanswered?
    requires !Refused(step, s.writes[v].id)
    ensures Uncleared(Apply(s, step, cfg), v)
  {
    var id, s' := s.writes[v].id, Apply(s, step, cfg);
    assert s'.writes[v] == s.writes[v];
    forall k <- s'.ingests ensures !Bare(s', k, id) { assert k in s.ingests ==> !Bare(s, k, id); }
  }

  lemma {:induction false} RunUncleared(s: State, run: seq<Step>, v: nat, cfg: Config)
    requires L.Inv(s) && Uncleared(s, v) && Legal(s, run, cfg) && RefusesNone(run, s.writes[v].id)
    ensures Uncleared(Exec(s, run, cfg), v)
    decreases |run|
  {
    if run != [] {
      match run[0] {
        case IngestStep(i, ok) => IngestUncleared(s, i, ok, v);
        case Work(o, ok) => JobUncleared(s, o, ok, v, cfg);
        case Unanswered(o) => UnansweredFrame(s, o, cfg.maxAge);
        case _ => OtherUncleared(s, run[0], v, cfg);
      }
      StepWrites(s, run[0], v, cfg);
      L.StepKeeps(s, run[0], cfg);
      RunUncleared(Apply(s, run[0], cfg), run[1..], v, cfg);
    }
  }

  lemma StepWrites(s: State, step: Step, v: nat, cfg: Config)
    requires Enabled(s, step) && v < |s.writes|
    ensures var t := Apply(s, step, cfg); v < |t.writes| && t.writes[v] == s.writes[v]
  {
    if step.Work? { JobWrites(s, step.o, step.ok, cfg); }
  }

  /** Some continuation in which no write of the alert is refused clears v. */
  ghost predicate CanBeCleared(s: State, v: nat, cfg: Config)
    requires v < |s.writes|
  {
    exists run :: Clears(s, run, v, cfg)
  }

  ghost predicate Clears(s: State, run: seq<Step>, v: nat, cfg: Config)
    requires v < |s.writes|
  {
    Legal(s, run, cfg) && RefusesNone(run, s.writes[v].id) && v in Exec(s, run, cfg).cleared
  }

  lemma BareClears(s: State, i: nat, v: nat, cfg: Config)
    requires v < |s.writes| && L.Pending(s, v) && i in s.ingests && Bare(s, i, s.writes[v].id)
    ensures CanBeCleared(s, v, cfg)
  {
    var step := IngestStep(i, true);
    var s1 := StepIngest(s, i, true);
    assert Legal(s1, [], cfg) && [step] + [] == [step];
    Follow(s, step, [], s1, cfg);
    if s.ingests[i].acked {
      assert Clears(s, [step], v, cfg);
    } else {
      var s2 := StepIngest(s1, i, true);
      assert Legal(s2, [], cfg);
      Follow(s1, step, [], s2, cfg);
      Follow(s, step, [step], s2, cfg);
      assert Clears(s, [step] + [step], v, cfg);
    }
  }

  // ---------- The statements ----------

  /** The state right after a value is written: before is any run, and v the new value. */
  function JustWritten(before: seq<Step>, i: nat, id: AlertId, kind: Kind, cfg: Config): State
    requires Legal(INIT, before, cfg)
  {
    Store(Exec(INIT, before, cfg), i, id, kind, cfg.maxAge)
  }

  lemma JustWrittenFacts(before: seq<Step>, i: nat, id: AlertId, kind: Kind, cfg: Config)
    requires Legal(INIT, before, cfg) && i !in Exec(INIT, before, cfg).ingests
    ensures var s := JustWritten(before, i, id, kind, cfg);
            && s.writes != [] && L.Inv(s) && L.ReplacedOk(s) && NextSoon(s)
            && L.Pending(s, |s.writes| - 1) && |s.writes| - 1 !in s.swept && |s.writes| - 1 !in s.cleared
            && s.keys.pending[id].exp == s.keys.now + cfg.maxAge && s.writes[|s.writes| - 1].id == id
  {
    L.InitInv();
    L.RunKeeps(INIT, before, cfg);
    L.ReplacedRun(INIT, before, cfg);
    RunSoon(INIT, before, cfg);
    var s0 := Exec(INIT, before, cfg);
    L.StoreKeeps(s0, i, id, kind, cfg.maxAge);
    L.ReplacedStep(s0, WriteAhead(i, id, kind, true), cfg);
  }

  /** From the moment a value is written some continuation sweeps it away exactly when at that moment a
      request or reconciler holds an earlier value of the alert at a stage that may still delete. */
  lemma SweptIff(before: seq<Step>, i: nat, id: AlertId, kind: Kind, cfg: Config)
    requires Legal(INIT, before, cfg) && i !in Exec(INIT, before, cfg).ingests && cfg.maxAge > LONGEST
    ensures var s := JustWritten(before, i, id, kind, cfg); var v := |s.writes| - 1;
            v >= 0 && (CanBeSwept(s, v, cfg) <==> Held(s, v))
  {
    JustWrittenFacts(before, i, id, kind, cfg);
    var s := JustWritten(before, i, id, kind, cfg);
    var v := |s.writes| - 1;
    if Held(s, v) {
      if k :| k in s.ingests && IngestHolds(s, k, id, v) {
        IngestCanSweep(s, k, v, cfg);
      } else {
        var o :| o in s.jobs && JobHolds(s, o, id, v);
        JobCanSweep(s, o, v, cfg);
      }
    } else if run :| Sweeps(s, run, v, cfg) {
      RunSafe(s, run, v, cfg);
    }
  }

  /** From the moment a value is written some continuation in which no write of its alert is refused
      clears it exactly when at that moment a request for the alert is under way whose write was. */
  lemma ClearedIff(before: seq<Step>, i: nat, id: AlertId, kind: Kind, cfg: Config)
    requires Legal(INIT, before, cfg) && i !in Exec(INIT, before, cfg).ingests
    ensures var s := JustWritten(before, i, id, kind, cfg); var v := |s.writes| - 1;
            v >= 0 && (CanBeCleared(s, v, cfg) <==> BareHeld(s, id))
  {
    JustWrittenFacts(before, i, id, kind, cfg);
    var s := JustWritten(before, i, id, kind, cfg);
    var v := |s.writes| - 1;
    if BareHeld(s, id) {
      var k :| k in s.ingests && Bare(s, k, id);
      BareClears(s, k, v, cfg);
    } else if run :| Clears(s, run, v, cfg) {
      RunUncleared(s, run, v, cfg);
    }
  }

  /** A value written while nobody holds an earlier one is never lost: whatever happens after, it is
      pending, acknowledged, given up, corrupt or too old, or a later write replaced it. Only if a write
      of its alert is refused, after it or in a request then under way, may it instead be that the broker
      has acknowledged the alert for such a request. */
  lemma NoLoss(before: seq<Step>, i: nat, id: AlertId, kind: Kind, after: seq<Step>, cfg: Config)
    requires Legal(INIT, before, cfg) && i !in Exec(INIT, before, cfg).ingests
    requires var s := JustWritten(before, i, id, kind, cfg); !Held(s, |s.writes| - 1) && Legal(s, after, cfg)
    ensures var s := JustWritten(before, i, id, kind, cfg); var v, end := |s.writes| - 1, Exec(s, after, cfg);
            && 0 <= v < |end.writes|
            && (L.Pending(end, v) || v in end.acked || v in end.gaveUp || v in end.dropped || v in end.expired
                || (v in end.replaced && exists w :: v < w < |end.writes| && end.writes[w].id == end.writes[v].id)
                || (v in end.cleared && end.writes[v].id in end.bareAcks
                    && (BareHeld(s, id) || !RefusesNone(after, id))))
  {
    JustWrittenFacts(before, i, id, kind, cfg);
    var s := JustWritten(before, i, id, kind, cfg);
    var v: nat := |s.writes| - 1;
    RunSafe(s, after, v, cfg);
    L.RunKeeps(s, after, cfg);
    L.ReplacedRun(s, after, cfg);
    assert L.Accounted(Exec(s, after, cfg), v);
    if !BareHeld(s, id) && RefusesNone(after, id) { RunUncleared(s, after, v, cfg); }
  }

  /** Writing the same alert again while the first write is being cleared can lose the second: nobody
      acknowledged it, and no other entry of the ledger covers it. */
  lemma RewriteCanBeLost(cfg: Config)
    ensures var s := JustWritten([WriteAhead(0, "a", Good, true), IngestStep(0, true)], 1, "a", Good, cfg);
            var end := InlineCleared(s, 0, true);
            && Legal(INIT, [WriteAhead(0, "a", Good, true), IngestStep(0, true)], cfg)
            && Enabled(s, IngestStep(0, true)) && Apply(s, IngestStep(0, true), cfg) == end
            && s.writes == [Write("a", Good), Write("a", Good)]
            && !L.Pending(end, 1) && !L.Done(end, 1) && 1 !in end.expired && 1 !in end.replaced && 1 !in end.cleared
  {
    var before := [WriteAhead(0, "a", Good, true), IngestStep(0, true)];
    var s0 := Store(INIT, 0, "a", Good, cfg.maxAge);
    var s1 := StepIngest(s0, 0, true);
    assert before[1..] == [IngestStep(0, true)] && before[1..][1..] == [];
    assert Legal(s1, [], cfg) && Legal(s0, before[1..], cfg);
    assert Exec(s0, before[1..], cfg) == s1 && Exec(INIT, before, cfg) == s1;
  }

  /** A request whose own write was refused can clear an earlier value of the alert that nobody
      acknowledged, and no other entry of the ledger covers it. */
  lemma RefusedWriteCanLose(cfg: Config)
    ensures var run := [WriteAhead(0, "a", Good, true), IngestStep(0, false), WriteAhead(1, "a", Good, false),
                        IngestStep(1, true), IngestStep(1, true)];
            && Legal(INIT, run, cfg)
            && var end := Exec(INIT, run, cfg);
               && end.writes == [Write("a", Good)] && 0 in end.cleared
               && !L.Pending(end, 0) && !L.Done(end, 0) && 0 !in end.expired && 0 !in end.replaced && 0 !in end.swept
  {
    var s1 := Store(INIT, 0, "a", Good, cfg.maxAge);
    var s2 := StepIngest(s1, 0, false);
    var s3 := StoreNothing(s2, 1, "a");
    var s4 := StepIngest(s3, 1, true);
    var s5 := StepIngest(s4, 1, true);
    assert Legal(s5, [], cfg);
    Follow(s4, IngestStep(1, true), [], s5, cfg);
    Follow(s3, IngestStep(1, true), [IngestStep(1, true)], s5, cfg);
    Follow(s2, WriteAhead(1, "a", Good, false), [IngestStep(1, true), IngestStep(1, true)], s5, cfg);
    Follow(s1, IngestStep(0, false), [WriteAhead(1, "a", Good, false), IngestStep(1, true), IngestStep(1, true)],
           s5, cfg);
    Follow(INIT, WriteAhead(0, "a", Good, true),
           [IngestStep(0, false), WriteAhead(1, "a", Good, false), IngestStep(1, true), IngestStep(1, true)], s5, cfg);
  }

  lemma Follow(s: State, step: Step, run: seq<Step>, end: State, cfg: Config)
    requires Enabled(s, step) && Legal(Apply(s, step, cfg), run, cfg) && Exec(Apply(s, step, cfg), run, cfg) == end
    ensures Legal(s, [step] + run, cfg) && Exec(s, [step] + run, cfg) == end
  {
    assert ([step] + run)[1..] == run;
  }
}
