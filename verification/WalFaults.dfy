/** Which faults let a fresh entry fail more than seven publishes, and after how few it may be given up. */
module WalFaults {
  import opened WalStore
  import opened WalProtocol
  import opened WalLease
  import opened WalBounds
  import L = WalLedger

  /** What may go wrong for an alert's reconcilers: INCR, EXPIRE, the SETEX of its next key or the DEL of
      giving up fails, or seems to; a lease is lost between acquire and release; a reconciler dies between a failed
      publish and its record. */
  datatype Faults = Faults(incr: bool, expire: bool, next: bool, del: bool, lease: bool, crash: bool)

  const NONE := Faults(false, false, false, false, false, false)

  predicate Tolerates(p: Faults, at: At) {
    match at
    case Incr => p.incr
    case Expire => p.expire
    case SetNext => p.next
    case DelDlq => p.del
    case _ => true
  }

  /** A step with no fault on a but those of p, and no further write of a. */
  predicate Allowed(p: Faults, s: State, step: Step, a: AlertId)
    requires Enabled(s, step)
  {
    match step
    case WriteAhead(_, id, _, ok) => id != a || !ok
    case Work(o, ok) => s.jobs[o].id == a && !Tolerates(p, s.jobs[o].at) ==> ok
    case Unanswered(o) => s.jobs[o].id == a ==> Tolerates(p, s.jobs[o].at)
    case Crash(o) => s.jobs[o].id == a ==> p.crash || !Beyond(s.jobs[o])
    case _ => true
  }

  ghost predicate Sound(p: Faults, s: State, a: AlertId, cfg: Config) { p.lease || Leased(s, a, cfg.leaseSpan) }

  ghost predicate Within(p: Faults, s: State, run: seq<Step>, a: AlertId, cfg: Config)
    requires Legal(s, run, cfg)
    decreases |run|
  {
    Sound(p, s, a, cfg) &&
    (run == [] || (Allowed(p, s, run[0], a) && Within(p, Apply(s, run[0], cfg), run[1..], a, cfg)))
  }

  lemma {:induction false} WithoutFaults(s: State, run: seq<Step>, a: AlertId, cfg: Config)
    requires Legal(s, run, cfg)
    ensures Within(NONE, s, run, a, cfg) <==> SteadyRun(s, run, a, cfg)
    decreases |run|
  {
    if run != [] { WithoutFaults(Apply(s, run[0], cfg), run[1..], a, cfg); }
  }

  // ---------- Runs with a given number of failures ----------

  /** k publishes of a fail in the run, and a version asked for has been given up by its end. */
  ghost predicate Shows(s: State, run: seq<Step>, a: AlertId, k: nat, v: Option<nat>, p: Faults, cfg: Config) {
    && Legal(s, run, cfg) && Within(p, s, run, a, cfg) && Failures(s, run, a, cfg) == k
    && (v.Some? ==> v.value in Exec(s, run, cfg).gaveUp)
  }

  ghost predicate Can(s: State, a: AlertId, k: nat, v: Option<nat>, p: Faults, cfg: Config) {
    exists run :: Shows(s, run, a, k, v, p, cfg)
  }

  lemma Cons(s: State, step: Step, a: AlertId, k: nat, v: Option<nat>, p: Faults, cfg: Config)
    requires Enabled(s, step) && Allowed(p, s, step, a) && Sound(p, s, a, cfg)
    requires Can(Apply(s, step, cfg), a, k, v, p, cfg)
    ensures Can(s, a, if Fails(s, step, a) then k + 1 else k, v, p, cfg)
  {
    var run :| Shows(Apply(s, step, cfg), run, a, k, v, p, cfg);
    assert ([step] + run)[1..] == run;
    assert Shows(s, [step] + run, a, if Fails(s, step, a) then k + 1 else k, v, p, cfg);
  }

  lemma Stop(s: State, a: AlertId, v: Option<nat>, p: Faults, cfg: Config)
    requires Sound(p, s, a, cfg) && (v.Some? ==> v.value in s.gaveUp)
    ensures Can(s, a, 0, v, p, cfg)
  {
    assert Shows(s, [], a, 0, v, p, cfg);
  }

  // ---------- A visit ----------

  /** a's value is Good and lives for more than left from now, and its counter outlives it. */
  predicate Alive(s: State, a: AlertId, left: int, age: Span) {
    && a in s.keys.pending && s.keys.pending[a].kind == Good
    && s.keys.now + left < s.keys.pending[a].exp <= s.keys.now + age
    && (a in s.keys.attempts ==> s.keys.attempts[a].exp.After(s.keys.pending[a].exp - 1))
  }

  /** a is unleased, and nobody is active on it, or else leases may be lost. */
  ghost predicate Resting(s: State, a: AlertId, left: int, p: Faults, cfg: Config) {
    Alive(s, a, left, cfg.maxAge) && a !in s.keys.lease && (p.lease || forall o :: !Active(s, o, a))
  }

  /** o holds the lease on a and has come to the stage at, its counter n. */
  ghost predicate Visiting(s: State, o: Owner, a: AlertId, at: At, n: int, left: int, p: Faults, cfg: Config) {
    && Alive(s, a, left, cfg.maxAge)
    && o in s.jobs && s.jobs[o].id == a && s.jobs[o].at == at && s.jobs[o].kind == Good && s.jobs[o].n == n
    && s.jobs[o].version == s.keys.pending[a].version
    && Holds(s, o, cfg.leaseSpan) && s.jobs[o].since == s.keys.now
    && (p.lease || Alone(s, o, a))
  }

  lemma VisitSound(s: State, o: Owner, a: AlertId, at: At, n: int, left: int, p: Faults, cfg: Config)
    requires Visiting(s, o, a, at, n, left, p, cfg)
    ensures Sound(p, s, a, cfg)
  {
  }

  lemma {:induction false} NewOwner(os: set<Owner>) returns (o: Owner)
    ensures o !in os
    ensures forall q <- os :: |q| < |o|
    decreases |os|
  {
    if os == {} {
      o := "o";
    } else {
      var q :| q in os;
      var r := NewOwner(os - {q});
      o := if |r| > |q| then r else q + "o";
    }
  }

  /** From s to t nobody has touched a's counter, its next key or the time. */
  predicate Idles(s: State, t: State, a: AlertId) {
    && t.keys.now == s.keys.now && t.keys.Attempts(a) == s.keys.Attempts(a) && t.keys.next == s.keys.next
    && t.keys.pending == s.keys.pending
  }

  // Each lemma takes some steps from s to t; whatever can follow t can follow s.

  /** Only o's job has moved. */
  lemma StaysAlone(s: State, t: State, o: Owner, a: AlertId, p: Faults)
    requires o in t.jobs && t.jobs == s.jobs[o := t.jobs[o]]
    requires p.lease || forall q | Active(s, q, a) :: q == o
    ensures p.lease || Alone(t, o, a)
  {
    forall q | Active(t, q, a) && q != o ensures Active(s, q, a) {}
  }

  lemma Enter(s: State, a: AlertId, left: int, k: nat, v: Option<nat>, p: Faults, cfg: Config)
    returns (o: Owner, t: State)
    requires Resting(s, a, left, p, cfg)
    ensures Visiting(t, o, a, Incr, 0, left, p, cfg) && Idles(s, t, a)
    ensures Can(t, a, k, v, p, cfg) ==> Can(s, a, k, v, p, cfg)
  {
    o := NewOwner(s.jobs.Keys);
    var s1 := Take(s, o, a, cfg.leaseSpan);
    StaysAlone(s, s1, o, a, p);
    t := SendGet(s1, o);
    StaysAlone(s1, t, o, a, p);
    assert p.lease || Leased(s1, a, cfg.leaseSpan);
    if Can(t, a, k, v, p, cfg) {
      Cons(s1, Work(o, true), a, k, v, p, cfg);
      Cons(s, Acquire(o, a), a, k, v, p, cfg);
    }
  }

  /** INCR and EXPIRE succeed. */
  lemma CountUp(s: State, o: Owner, a: AlertId, left: int, k: nat, v: Option<nat>, p: Faults, cfg: Config)
    returns (t: State)
    requires Visiting(s, o, a, Incr, 0, left, p, cfg)
    ensures Visiting(t, o, a, CheckNext, s.keys.Attempts(a) + 1, left, p, cfg)
    ensures t.keys.Attempts(a) == s.keys.Attempts(a) + 1 && t.keys.now == s.keys.now && t.keys.next == s.keys.next
    ensures t.keys.pending == s.keys.pending
    ensures Can(t, a, k, v, p, cfg) ==> Can(s, a, k, v, p, cfg)
  {
    var s1 := SendIncr(s, o, true);
    StaysAlone(s, s1, o, a, p);
    assert Visiting(s1, o, a, Expire, s.keys.Attempts(a) + 1, left, p, cfg);
    t := SendExpire(s1, o, true, cfg.maxAge);
    StaysAlone(s1, t, o, a, p);
    if Can(t, a, k, v, p, cfg) {
      Cons(s1, Work(o, true), a, k, v, p, cfg);
      Cons(s, Work(o, true), a, k, v, p, cfg);
    }
  }

  /** INCR fails, or EXPIRE does: the attempt counts as the first. */
  lemma Miscount(s: State, o: Owner, a: AlertId, left: int, k: nat, v: Option<nat>, p: Faults, cfg: Config)
    returns (t: State)
    requires Visiting(s, o, a, Incr, 0, left, p, cfg) && (p.incr || p.expire)
    ensures Visiting(t, o, a, CheckNext, 1, left, p, cfg) && t.keys.now == s.keys.now && t.keys.next == s.keys.next
    ensures Can(t, a, k, v, p, cfg) ==> Can(s, a, k, v, p, cfg)
  {
    if p.incr {
      t := SendIncr(s, o, false);
      StaysAlone(s, t, o, a, p);
      if Can(t, a, k, v, p, cfg) { Cons(s, Work(o, false), a, k, v, p, cfg); }
    } else {
      var s1 := SendIncr(s, o, true);
      StaysAlone(s, s1, o, a, p);
      assert Visiting(s1, o, a, Expire, s.keys.Attempts(a) + 1, left, p, cfg);
      t := SendExpire(s1, o, false, cfg.maxAge);
      StaysAlone(s1, t, o, a, p);
      if Can(t, a, k, v, p, cfg) {
        Cons(s1, Work(o, false), a, k, v, p, cfg);
        Cons(s, Work(o, true), a, k, v, p, cfg);
      }
    }
  }

  /** The publish is tried and fails. */
  lemma FailOnce(s: State, o: Owner, a: AlertId, n: int, left: int, k: nat, v: Option<nat>, p: Faults, cfg: Config)
    returns (t: State)
    requires Visiting(s, o, a, CheckNext, n, left, p, cfg) && !s.keys.TooSoon(a)
    ensures Visiting(t, o, a, SetNext, n, left, p, cfg) && t.keys == s.keys
    ensures Can(t, a, k, v, p, cfg) ==> Can(s, a, k + 1, v, p, cfg)
  {
    var s1 := Goto(s, o, Publish);
    StaysAlone(s, s1, o, a, p);
    assert Visiting(s1, o, a, Publish, n, left, p, cfg);
    t := SendPublish(s1, o, false);
    StaysAlone(s1, t, o, a, p);
    if Can(t, a, k, v, p, cfg) {
      Cons(s1, Work(o, false), a, k, v, p, cfg);
      Cons(s, Work(o, true), a, k + 1, v, p, cfg);
    }
  }

  lemma LetGo(s: State, o: Owner, a: AlertId, left: int, k: nat, v: Option<nat>, p: Faults, cfg: Config)
    returns (t: State)
    requires o in s.jobs && Visiting(s, o, a, Release, s.jobs[o].n, left, p, cfg)
    ensures Resting(t, a, left, p, cfg) && Idles(s, t, a)
    ensures Can(t, a, k, v, p, cfg) ==> Can(s, a, k, v, p, cfg)
  {
    t := SendRelease(s, o, true);
    forall q | Active(t, q, a) ensures Active(s, q, a) && q != o {}
    if Can(t, a, k, v, p, cfg) { Cons(s, Work(o, true), a, k, v, p, cfg); }
  }

  /** Time goes by while a rests. */
  lemma Wait(s: State, a: AlertId, left: int, d: nat, k: nat, v: Option<nat>, p: Faults, cfg: Config) returns (t: State)
    requires Resting(s, a, left + d, p, cfg) && left >= 0
    ensures t == Elapse(s, d) && Resting(t, a, left, p, cfg) && t.keys.Attempts(a) == s.keys.Attempts(a)
    ensures t.keys.pending[a] == s.keys.pending[a]
    ensures Can(t, a, k, v, p, cfg) ==> Can(s, a, k, v, p, cfg)
  {
    t := Elapse(s, d);
    forall q | Active(t, q, a) ensures Active(s, q, a) {}
    if Can(t, a, k, v, p, cfg) { Cons(s, Tick(d), a, k, v, p, cfg); }
  }

  /** Nothing is recorded, and the lease is released. */
  lemma Unrecorded(s: State, o: Owner, a: AlertId, n: int, left: int, k: nat, v: Option<nat>, p: Faults, cfg: Config)
    returns (t: State)
    requires Visiting(s, o, a, SetNext, n, left, p, cfg) && p.next
    ensures Resting(t, a, left, p, cfg) && Idles(s, t, a)
    ensures Can(t, a, k, v, p, cfg) ==> Can(s, a, k, v, p, cfg)
  {
    var s1 := Goto(s, o, Release);
    StaysAlone(s, s1, o, a, p);
    t := LetGo(s1, o, a, left, k, v, p, cfg);
    if Can(t, a, k, v, p, cfg) { Cons(s, Work(o, false), a, k, v, p, cfg); }
  }

  /** The failure is recorded; whoever has counted seven goes on to give up. */
  lemma Record(s: State, o: Owner, a: AlertId, n: int, left: int, k: nat, v: Option<nat>, p: Faults, cfg: Config)
    returns (t: State)
    requires Visiting(s, o, a, SetNext, n, left, p, cfg) && n >= 1
    ensures Visiting(t, o, a, if n >= |BACKOFF| then CallDlq else Release, n, left, p, cfg)
    ensures t.keys == s.keys.Scheduled(a, s.keys.now + Delay(n), cfg.maxAge)
    ensures Can(t, a, k, v, p, cfg) ==> Can(s, a, k, v, p, cfg)
  {
    t := SendSetNext(s, o, cfg.maxAge);
    StaysAlone(s, t, o, a, p);
    if Can(t, a, k, v, p, cfg) { Cons(s, Work(o, true), a, k, v, p, cfg); }
  }

  /** The value goes through _move_to_dlq. */
  lemma CallOut(s: State, o: Owner, a: AlertId, left: int, k: nat, v: Option<nat>, p: Faults, cfg: Config)
    returns (t: State)
    requires o in s.jobs && Visiting(s, o, a, CallDlq, s.jobs[o].n, left, p, cfg)
    ensures Visiting(t, o, a, DelDlq, s.jobs[o].n, left, p, cfg) && t.keys == s.keys
    ensures s.keys.pending[a].version in t.gaveUp
    ensures Can(t, a, k, v, p, cfg) ==> Can(s, a, k, v, p, cfg)
  {
    t := SendDlq(s, o, true);
    StaysAlone(s, t, o, a, p);
    if Can(t, a, k, v, p, cfg) { Cons(s, Work(o, true), a, k, v, p, cfg); }
  }

  /** Its DEL fails. */
  lemma Undeleted(s: State, o: Owner, a: AlertId, left: int, k: nat, v: Option<nat>, p: Faults, cfg: Config)
    returns (t: State)
    requires o in s.jobs && Visiting(s, o, a, DelDlq, s.jobs[o].n, left, p, cfg) && p.del
    ensures Resting(t, a, left, p, cfg) && Idles(s, t, a)
    ensures Can(t, a, k, v, p, cfg) ==> Can(s, a, k, v, p, cfg)
  {
    var s1 := Goto(s, o, Release);
    StaysAlone(s, s1, o, a, p);
    t := LetGo(s1, o, a, left, k, v, p, cfg);
    if Can(t, a, k, v, p, cfg) { Cons(s, Work(o, false), a, k, v, p, cfg); }
  }

  /** The reconciler dies, or only loses its lease, and the lease runs out. */
  lemma RunOut(s: State, o: Owner, a: AlertId, n: int, left: int, k: nat, v: Option<nat>, p: Faults, cfg: Config)
    returns (t: State)
    requires Visiting(s, o, a, SetNext, n, left + cfg.leaseSpan, p, cfg) && (p.crash || p.lease) && left >= 0
    ensures Resting(t, a, left, p, cfg) && t.keys.now == s.keys.now + cfg.leaseSpan
    ensures a in t.keys.next ==> a in s.keys.next && t.keys.next[a] == s.keys.next[a]
    ensures Can(t, a, k, v, p, cfg) ==> Can(s, a, k, v, p, cfg)
  {
    var s1 := if p.lease then s else s.(jobs := s.jobs - {o});
    forall q | !p.lease && Active(s1, q, a) ensures false { assert Active(s, q, a); }
    t := Elapse(s1, cfg.leaseSpan);
    forall q | Active(t, q, a) ensures Active(s1, q, a) {}
    if Can(t, a, k, v, p, cfg) {
      Cons(s1, Tick(cfg.leaseSpan), a, k, v, p, cfg);
      if !p.lease { Cons(s, Crash(o), a, k, v, p, cfg); }
    }
  }

  /** A visit up to its failed publish. */
  lemma CountedFailure(s: State, a: AlertId, left: int, k: nat, v: Option<nat>, p: Faults, cfg: Config)
    returns (o: Owner, t: State)
    requires Open(s, a, left, p, cfg)
    ensures Visiting(t, o, a, SetNext, s.keys.Attempts(a) + 1, left, p, cfg)
    ensures t.keys.Attempts(a) == s.keys.Attempts(a) + 1 && t.keys.now == s.keys.now && t.keys.next == s.keys.next
    ensures t.keys.pending == s.keys.pending
    ensures Can(t, a, k, v, p, cfg) ==> Can(s, a, k + 1, v, p, cfg)
  {
    var s1, s2;
    o, s1 := Enter(s, a, left, k + 1, v, p, cfg);
    s2 := CountUp(s1, o, a, left, k + 1, v, p, cfg);
    t := FailOnce(s2, o, a, s.keys.Attempts(a) + 1, left, k, v, p, cfg);
  }

  /** Resting, and nothing holds a reconciler off. */
  ghost predicate Open(s: State, a: AlertId, left: int, p: Faults, cfg: Config) {
    Resting(s, a, left, p, cfg) && !s.keys.TooSoon(a)
  }

  // ---------- Each fault alone ----------

  /** How long one visit after another takes while p's faults go on. */
  function Gap(p: Faults, cfg: Config): nat {
    if p.next then 0 else if p.incr || p.expire then Delay(1) else cfg.leaseSpan
  }

  /** A visit whose publish fails and whose failure the counter or the next key does not tell. */
  lemma FaultyVisit(s: State, a: AlertId, left: int, k: nat, p: Faults, cfg: Config) returns (t: State)
    requires Open(s, a, left + Gap(p, cfg), p, cfg) && left >= 0 && (p.next || p.incr || p.expire || p.lease || p.crash)
    ensures Open(t, a, left, p, cfg)
    ensures Can(t, a, k, None, p, cfg) ==> Can(s, a, k + 1, None, p, cfg)
  {
    var g := left + Gap(p, cfg);
    if !p.next && (p.incr || p.expire) {
      var o, s1 := Enter(s, a, g, k + 1, None, p, cfg);
      var s2 := Miscount(s1, o, a, g, k + 1, None, p, cfg);
      var s3 := FailOnce(s2, o, a, 1, g, k, None, p, cfg);
      t := RecordedVisit(s3, o, a, 1, left, k, None, p, cfg);
    } else {
      var n := s.keys.Attempts(a) + 1;
      var o, s1 := CountedFailure(s, a, g, k, None, p, cfg);
      if p.next {
        t := Unrecorded(s1, o, a, n, left, k, None, p, cfg);
      } else {
        t := RunOut(s1, o, a, n, left, k, None, p, cfg);
      }
    }
  }

  /** A recorded failure that is not the last, and the wait it asks for. */
  lemma RecordedVisit(s: State, o: Owner, a: AlertId, n: int, left: int, k: nat, v: Option<nat>, p: Faults, cfg: Config)
    returns (t: State)
    requires 1 <= n < |BACKOFF| && Visiting(s, o, a, SetNext, n, left + Delay(n), p, cfg) && left >= 0
    ensures Open(t, a, left, p, cfg) && t.keys.Attempts(a) == s.keys.Attempts(a)
    ensures t.keys.pending[a] == s.keys.pending[a]
    ensures Can(t, a, k, v, p, cfg) ==> Can(s, a, k, v, p, cfg)
  {
    DelayBound(n);
    var s1 := Record(s, o, a, n, left + Delay(n), k, v, p, cfg);
    var s2 := LetGo(s1, o, a, left + Delay(n), k, v, p, cfg);
    t := Wait(s2, a, left, Delay(n), k, v, p, cfg);
  }

  lemma {:induction false} FaultyVisits(s: State, a: AlertId, k: nat, p: Faults, cfg: Config)
    requires Open(s, a, k * Gap(p, cfg), p, cfg) && (p.next || p.incr || p.expire || p.lease || p.crash)
    ensures Can(s, a, k, None, p, cfg)
    decreases k
  {
    if k == 0 {
      assert Sound(p, s, a, cfg);
      Stop(s, a, None, p, cfg);
    } else {
      assert k * Gap(p, cfg) == (k - 1) * Gap(p, cfg) + Gap(p, cfg) && (k - 1) * Gap(p, cfg) >= 0;
      var t := FaultyVisit(s, a, (k - 1) * Gap(p, cfg), k - 1, p, cfg);
      FaultyVisits(t, a, k - 1, p, cfg);
    }
  }

  /** While the SETEX of the next key fails there is no bound at all. */
  lemma FailuresUnbounded(s: State, a: AlertId, k: nat, p: Faults, cfg: Config)
    requires Open(s, a, 0, p, cfg) && p.next
    ensures Can(s, a, k, None, p, cfg)
  {
    assert k * Gap(p, cfg) == 0;
    FaultyVisits(s, a, k, p, cfg);
  }

  /** The delays after the failures counted n to seven. */
  function DelaysFrom(n: nat): nat
    requires n >= 1
    decreases 8 - n
  {
    if n > 7 then 0 else Delay(n) + DelaysFrom(n + 1)
  }

  lemma AllDelays()
    ensures DelaysFrom(1) == 48935 * SECOND
  {
    assert DelaysFrom(7) == 28800 * SECOND && DelaysFrom(6) == 43200 * SECOND && DelaysFrom(5) == 46800 * SECOND;
    assert DelaysFrom(4) == 48600 * SECOND && DelaysFrom(3) == 48900 * SECOND;
  }

  /** A visit counted seven or more, given up in vain. */
  lemma UndeletedVisit(s: State, o: Owner, a: AlertId, n: int, left: int, k: nat, p: Faults, cfg: Config)
    returns (t: State)
    requires Visiting(s, o, a, SetNext, n, left + Delay(7), p, cfg) && n >= 7 && p.del && left >= 0
    ensures Open(t, a, left, p, cfg) && t.keys.Attempts(a) == s.keys.Attempts(a)
    ensures Can(t, a, k, None, p, cfg) ==> Can(s, a, k, None, p, cfg)
  {
    var g := left + Delay(7);
    var s1 := Record(s, o, a, n, g, k, None, p, cfg);
    var s2 := CallOut(s1, o, a, g, k, None, p, cfg);
    var s3 := Undeleted(s2, o, a, g, k, None, p, cfg);
    t := Wait(s3, a, left, Delay(7), k, None, p, cfg);
  }

  /** While the DEL of giving up fails, visits n to 8 can all fail their publish. */
  lemma {:induction false} UndeletedVisits(s: State, a: AlertId, n: nat, p: Faults, cfg: Config)
    requires 1 <= n <= 8 && Open(s, a, DelaysFrom(n), p, cfg) && s.keys.Attempts(a) == n - 1 && p.del
    ensures Can(s, a, 9 - n, None, p, cfg)
    decreases 8 - n
  {
    var k := 8 - n;
    var o, s1 := CountedFailure(s, a, DelaysFrom(n), k, None, p, cfg);
    if n == 8 {
      VisitSound(s1, o, a, SetNext, n, DelaysFrom(n), p, cfg);
      Stop(s1, a, None, p, cfg);
    } else if n == 7 {
      var t := UndeletedVisit(s1, o, a, n, 0, k, p, cfg);
      UndeletedVisits(t, a, n + 1, p, cfg);
    } else {
      var t := RecordedVisit(s1, o, a, n, DelaysFrom(n + 1), k, None, p, cfg);
      UndeletedVisits(t, a, n + 1, p, cfg);
    }
  }

  // ---------- The exact condition ----------

  /** A fresh entry with a subject whose lease is free. */
  ghost predicate Untouched(s: State, a: AlertId, age: Span) {
    Fresh(s, a, age) && s.keys.pending[a].kind == Good && a !in s.keys.lease
  }

  ghost predicate CanExceed(s: State, a: AlertId, p: Faults, cfg: Config)
  {
    exists k :: k > 7 && Can(s, a, k, None, p, cfg)
  }

  /** A fresh entry's publishes can fail more than seven times exactly if some of the six faults may
      happen: each alone is enough, and without any the bound holds in every run. */
  lemma SevenFailuresIff(s: State, a: AlertId, p: Faults, cfg: Config)
    requires Untouched(s, a, cfg.maxAge) && 8 * cfg.leaseSpan < cfg.maxAge && 48935 * SECOND < cfg.maxAge
    ensures CanExceed(s, a, p, cfg) <==> p != NONE
  {
    if p == NONE {
      if k, run :| k > 7 && Shows(s, run, a, k, None, p, cfg) {
        WithoutFaults(s, run, a, cfg);
        SevenFailures(s, run, a, cfg);
      }
    } else {
      if p.next || p.incr || p.expire || p.lease || p.crash {
        FaultyVisits(s, a, 8, p, cfg);
      } else {
        AllDelays();
        UndeletedVisits(s, a, 1, p, cfg);
      }
      assert Can(s, a, 8, None, p, cfg);
    }
  }

  // ---------- Given up early ----------

  /** A visit that comes too soon counts all the same. */
  lemma SkippedVisit(s: State, a: AlertId, left: int, k: nat, v: Option<nat>, p: Faults, cfg: Config) returns (t: State)
    requires Resting(s, a, left, p, cfg) && s.keys.TooSoon(a)
    ensures Resting(t, a, left, p, cfg) && t.keys.now == s.keys.now && t.keys.next == s.keys.next
    ensures t.keys.pending == s.keys.pending
    ensures t.keys.Attempts(a) == s.keys.Attempts(a) + 1
    ensures Can(t, a, k, v, p, cfg) ==> Can(s, a, k, v, p, cfg)
  {
    var o, s1 := Enter(s, a, left, k, v, p, cfg);
    var s2 := CountUp(s1, o, a, left, k, v, p, cfg);
    var s3 := Goto(s2, o, Release);
    StaysAlone(s2, s3, o, a, p);
    t := LetGo(s3, o, a, left, k, v, p, cfg);
    if Can(s3, a, k, v, p, cfg) { Cons(s2, Work(o, true), a, k, v, p, cfg); }
  }

  lemma {:induction false} SkippedVisits(s: State, a: AlertId, m: nat, left: int, k: nat, v: Option<nat>, p: Faults,
                                         cfg: Config)
    returns (t: State)
    requires Resting(s, a, left, p, cfg) && s.keys.TooSoon(a)
    ensures Resting(t, a, left, p, cfg) && t.keys.now == s.keys.now && t.keys.next == s.keys.next
    ensures t.keys.pending == s.keys.pending
    ensures t.keys.Attempts(a) == s.keys.Attempts(a) + m
    ensures Can(t, a, k, v, p, cfg) ==> Can(s, a, k, v, p, cfg)
    decreases m
  {
    if m == 0 {
      t := s;
    } else {
      var s1 := SkippedVisit(s, a, left, k, v, p, cfg);
      t := SkippedVisits(s1, a, m - 1, left, k, v, p, cfg);
    }
  }

  /** Visit n fails its publish, and m more come before the next is due. */
  lemma VisitAndSkips(s: State, a: AlertId, m: nat, left: int, k: nat, v: Option<nat>, p: Faults, cfg: Config)
    returns (t: State)
    requires 0 <= s.keys.Attempts(a) <= 5 && Open(s, a, left + Delay(s.keys.Attempts(a) + 1), p, cfg) && left >= 0
    ensures Open(t, a, left, p, cfg) && t.keys.Attempts(a) == s.keys.Attempts(a) + 1 + m
    ensures t.keys.pending[a] == s.keys.pending[a]
    ensures Can(t, a, k, v, p, cfg) ==> Can(s, a, k + 1, v, p, cfg)
  {
    var n := s.keys.Attempts(a) + 1;
    var g := left + Delay(n);
    DelayBound(n);
    var o, s1 := CountedFailure(s, a, g, k, v, p, cfg);
    var s2 := Record(s1, o, a, n, g, k, v, p, cfg);
    var s3 := LetGo(s2, o, a, g, k, v, p, cfg);
    var s4 := SkippedVisits(s3, a, m, g, k, v, p, cfg);
    t := Wait(s4, a, left, Delay(n), k, v, p, cfg);
  }

  lemma {:induction false} DelaysFall(n: nat, m: nat)
    requires 1 <= n <= m
    ensures DelaysFrom(m) <= DelaysFrom(n)
    decreases m - n
  {
    if n < m {
      if n <= 7 { DelayBound(n); }
      DelaysFall(n + 1, m);
    }
  }

  /** From attempt n on, an entry can be given up after any number k of publishes the counter leaves room
      for, two or more unless it is at six. */
  lemma {:induction false} GivenUpFrom(s: State, a: AlertId, k: nat, p: Faults, cfg: Config)
    requires var n := s.keys.Attempts(a);
             0 <= n <= 6 && 1 <= k <= 7 - n && (k == 1 ==> n == 6) && Open(s, a, DelaysFrom(n + 1), p, cfg)
    ensures Can(s, a, k, Some(s.keys.pending[a].version), p, cfg)
    decreases k
  {
    var n, v := s.keys.Attempts(a), Some(s.keys.pending[a].version);
    if k == 1 {
      LastVisit(s, a, p, cfg);
    } else {
      var m := if k == 2 then 5 - n else 0;
      var t := VisitInTime(s, a, n, m, k - 1, v, p, cfg);
      GivenUpFrom(t, a, k - 1, p, cfg);
    }
  }

  /** A visit, and m more before the next is due, leave time for the delays to come. */
  lemma VisitInTime(s: State, a: AlertId, n: nat, m: nat, k: nat, v: Option<nat>, p: Faults, cfg: Config)
    returns (t: State)
    requires s.keys.Attempts(a) == n <= 5 && Open(s, a, DelaysFrom(n + 1), p, cfg)
    ensures t.keys.Attempts(a) == n + 1 + m && Open(t, a, DelaysFrom(n + 2 + m), p, cfg)
    ensures t.keys.pending[a] == s.keys.pending[a]
    ensures Can(t, a, k, v, p, cfg) ==> Can(s, a, k + 1, v, p, cfg)
  {
    t := VisitAndSkips(s, a, m, DelaysFrom(n + 2), k, v, p, cfg);
    DelaysFall(n + 2, n + 2 + m);
  }

  lemma LastVisit(s: State, a: AlertId, p: Faults, cfg: Config)
    requires s.keys.Attempts(a) == 6 && Open(s, a, DelaysFrom(7), p, cfg)
    ensures Can(s, a, 1, Some(s.keys.pending[a].version), p, cfg)
  {
    var v, left := Some(s.keys.pending[a].version), DelaysFrom(7);
    var o, s1 := CountedFailure(s, a, left, 0, v, p, cfg);
    var s2 := Record(s1, o, a, 7, left, 0, v, p, cfg);
    var s3 := CallOut(s2, o, a, left, 0, v, p, cfg);
    VisitSound(s3, o, a, DelDlq, 7, left, p, cfg);
    Stop(s3, a, v, p, cfg);
  }

  /** Without any fault a fresh entry can be given up after any number of failed publishes from two to
      seven, since visits that come too soon are counted as well. */
  lemma GivenUpAfter(s: State, a: AlertId, k: nat, cfg: Config)
    requires Untouched(s, a, cfg.maxAge) && 2 <= k <= 7 && 48935 * SECOND < cfg.maxAge
    ensures Can(s, a, k, Some(s.keys.pending[a].version), NONE, cfg)
  {
    AllDelays();
    GivenUpFrom(s, a, k, NONE, cfg);
  }
}
