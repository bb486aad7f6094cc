/** What the debounce promises, and exactly under which discipline of its callers. */
module CancelTheorems {
  import opened CancelProtocol

  /** Debounce: in a tidy run, when a timer asks for the pending key at least the grace has passed
      since the latest request began, no revoke has ended since, and no call is under way. */
  lemma AsksAfterGrace(run: Run, t: nat, at: real, grace: real)
    requires Legal(IDLE, run, grace) && TidyRun(IDLE, run, grace)
    requires Enabled(Exec(IDLE, run, grace), Read(t), at, grace)
    ensures var s := Exec(IDLE, run, grace);
            s.asked.Some? && at >= s.asked.value + grace && !s.revoked && s.calls == map[]
  {
    RunKeeps(IDLE, run, grace);
    assert LiveIsLatest(Exec(IDLE, run, grace), t, grace);
  }

  /** Not lost: in a tidy run the timer of the latest request finds the key exactly when it asks less
      than grace + 5 seconds after the key was set, that is, when it is less than 5 seconds late. */
  lemma FindsInTime(run: Run, t: nat, at: real, grace: real)
    requires Legal(IDLE, run, grace) && TidyRun(IDLE, run, grace)
    requires Enabled(Exec(IDLE, run, grace), Read(t), at, grace)
    ensures var s := Exec(IDLE, run, grace);
            && s.setAt.Some? && s.asked.Some? && s.asked.value <= s.setAt.value
            && (Present(s.pending, at) <==> at < s.setAt.value + grace + 5.0)
  {
    RunKeeps(IDLE, run, grace);
    RunRecords(IDLE, run, grace);
    assert LiveIsLatest(Exec(IDLE, run, grace), t, grace);
  }

  /** A timer that found the key and was let finish has flagged the alert. */
  lemma FiredIsFlagged(run: Run, t: nat, grace: real)
    requires Legal(IDLE, run, grace) && t in Exec(IDLE, run, grace).timers
    requires Exec(IDLE, run, grace).timers[t].stage == Cleared
    ensures Exec(IDLE, run, grace).flagged
  {
    RunRecords(IDLE, run, grace);
  }

  /** The run sets no flag. */
  predicate FlagsNothing(run: Run) { forall x <- run :: !x.0.Flag? }

  lemma {:induction false} FlagStays(s: State, run: Run, grace: real)
    requires Legal(s, run, grace) && FlagsNothing(run)
    ensures Exec(s, run, grace).flag == s.flag
    decreases |run|
  {
    if run != [] {
      FlagStep(s, run[0].0, run[0].1, grace);
      FlagStays(Apply(s, run[0].0, run[0].1, grace), run[1..], grace);
    }
  }

  lemma FlagStep(s: State, step: Step, at: real, grace: real)
    requires Enabled(s, step, at, grace) && !step.Flag?
    ensures Apply(s, step, at, grace).flag == s.flag
  {
    if step.Wake? || step.Read? || step.Clear? || step.Unwind? || step.Vanish? {
      TimerFlag(s, step, at, grace);
    } else {
      CallFlag(s, step, at, grace);
    }
  }

  lemma TimerFlag(s: State, step: Step, at: real, grace: real)
    requires Enabled(s, step, at, grace)
    requires step.Wake? || step.Read? || step.Clear? || step.Unwind? || step.Vanish?
    ensures Apply(s, step, at, grace).flag == s.flag
  {
  }

  lemma CallFlag(s: State, step: Step, at: real, grace: real)
    requires Enabled(s, step, at, grace)
    requires step.RequestStart? || step.RequestSet? || step.RequestSpawn? || step.RevokeStart? || step.RevokeDelete?
             || step.RevokeEnd? || step.CallFail?
    ensures Apply(s, step, at, grace).flag == s.flag
  {
  }

  /** Whatever else interleaves, the alert reads as cancelled for exactly a day from the last time a timer
      sets the flag; no request and no revoke takes it back. */
  lemma FlagLasts(s: State, t: nat, at: real, run: Run, now: real, grace: real)
    requires Enabled(s, Flag(t), at, grace) && FlagsNothing(run)
    requires Legal(Apply(s, Flag(t), at, grace), run, grace)
    ensures Present(Exec(Apply(s, Flag(t), at, grace), run, grace).flag, now) <==> now < at + 86_400.0
  {
    FlagStays(Apply(s, Flag(t), at, grace), run, grace);
  }

  // ---------- Disciplines ----------

  /** What callers allow themselves: a call while another is under way, and a call while the registered
      timer is awake. */
  datatype Policy = Policy(overlap: bool, awake: bool)

  predicate Follows(p: Policy, s: State, step: Step) {
    Starts(step) ==> (p.overlap || s.calls == map[]) && (p.awake || Asleep(s))
  }

  predicate Throughout(s: State, run: Run, grace: real, p: Policy)
    requires Legal(s, run, grace)
    decreases |run|
  {
    run == [] || (Follows(p, s, run[0].0) && Throughout(Apply(s, run[0].0, run[0].1, grace), run[1..], grace, p))
  }

  /** A timer finds the key although the latest request began less than the grace before, or a revoke
      has ended since. */
  predicate FiresWrongly(s: State, t: nat, at: real, grace: real) {
    && Enabled(s, Read(t), at, grace) && Present(s.pending, at)
    && s.asked.Some? && (at < s.asked.value + grace || s.revoked)
  }

  ghost predicate WrongRun(s: State, run: Run, t: nat, at: real, grace: real, p: Policy) {
    Legal(s, run, grace) && Throughout(s, run, grace, p) && FiresWrongly(Exec(s, run, grace), t, at, grace)
  }

  ghost predicate CanFireWrongly(s: State, grace: real, p: Policy) {
    exists run, t, at :: WrongRun(s, run, t, at, grace, p)
  }

  lemma Cons(s: State, step: Step, at: real, grace: real, p: Policy)
    requires Enabled(s, step, at, grace) && Follows(p, s, step) && CanFireWrongly(Apply(s, step, at, grace), grace, p)
    ensures CanFireWrongly(s, grace, p)
  {
    var run, t, when :| WrongRun(Apply(s, step, at, grace), run, t, when, grace, p);
    LegalCons(s, step, at, run, grace);
    assert ([(step, at)] + run)[1..] == run;
    assert WrongRun(s, [(step, at)] + run, t, when, grace, p);
  }

  lemma Now(s: State, t: nat, at: real, grace: real, p: Policy)
    requires FiresWrongly(s, t, at, grace)
    ensures CanFireWrongly(s, grace, p)
  {
    assert WrongRun(s, [], t, at, grace, p);
  }

  // ---------- A whole request ----------

  /** A whole request, from taking the old timer out to registering the new one. */
  function Requested(s: State, c: nat, t: nat, at: real, grace: real): State {
    Spawned(KeySet(Started(s, c, at), c, at, grace), c, t, at).(clock := at)
  }

  lemma RequestFirst(s: State, c: nat, t: nat, at: real, grace: real, p: Policy)
    requires at >= s.clock && s.calls == map[] && t !in s.timers && s.entry != Some(t) && (p.awake || Asleep(s))
    requires CanFireWrongly(Requested(s, c, t, at, grace), grace, p)
    ensures CanFireWrongly(s, grace, p)
  {
    var s1 := Apply(s, RequestStart(c), at, grace);
    var s2 := Apply(s1, RequestSet(c), at, grace);
    assert s2 == KeySet(Started(s, c, at), c, at, grace).(clock := at);
    assert Apply(s2, RequestSpawn(c, t), at, grace) == Requested(s, c, t, at, grace);
    Cons(s2, RequestSpawn(c, t), at, grace, p);
    Cons(s1, RequestSet(c), at, grace, p);
    Cons(s, RequestStart(c), at, grace, p);
  }

  // ---------- From rest ----------

  /** No calls and no timers. */
  predicate AtRest(s: State) { s.calls == map[] && s.timers == map[] && s.entry == None }

  /** The state of a request and a revoke both begun at the present time, and both carried out. */
  function BothStarted(s: State): State {
    s.(calls := map[0 := Request(false), 1 := Revoke(false)], asked := Some(s.clock), revoked := false)
  }

  function BothDone(s: State, grace: real): State {
    BothStarted(s).(pending := Some(s.clock + grace + MARGIN), calls := map[0 := Request(true), 1 := Revoke(true)],
                    setAt := Some(s.clock), cleared := false, deleted := false)
  }

  function Unrevoked(s: State, grace: real): State {
    BothDone(s, grace).(entry := Some(0), timers := map[0 := Timer(s.clock, Sleeping, false)], calls := map[],
                        revoked := true)
  }

  /** A request and a revoke overlap: the revoke finds no timer to cancel and deletes the key before
      the request sets it, so the timer spawned then fires although the revoke has ended. */
  lemma OverlapFiresWrongly(s: State, grace: real, p: Policy)
    requires AtRest(s) && p.overlap && grace >= 0.0
    ensures CanFireWrongly(s, grace, p)
  {
    UnrevokedFires(s, grace, p);
    BothDoneFires(s, grace, p);
    BothStartedFires(s, grace, p);
    var s2 := BothStarted(s);
    var s1 := Apply(s, RequestStart(0), s.clock, grace);
    assert Apply(s1, RevokeStart(1), s.clock, grace) == s2;
    Cons(s1, RevokeStart(1), s.clock, grace, p);
    Cons(s, RequestStart(0), s.clock, grace, p);
  }

  lemma BothStartedFires(s: State, grace: real, p: Policy)
    requires AtRest(s) && CanFireWrongly(BothDone(s, grace), grace, p)
    ensures CanFireWrongly(BothStarted(s), grace, p)
  {
    DeletedFires(s, grace, p);
    var s2 := BothStarted(s);
    assert s2.calls[1 := Revoke(true)] == map[0 := Request(false), 1 := Revoke(true)];
    Cons(s2, RevokeDelete(1), s.clock, grace, p);
  }

  /** The revoke has deleted the key, and the request is about to set it. */
  lemma DeletedFires(s: State, grace: real, p: Policy)
    requires AtRest(s) && CanFireWrongly(BothDone(s, grace), grace, p)
    ensures CanFireWrongly(BothStarted(s).(pending := None, calls := map[0 := Request(false), 1 := Revoke(true)],
                                           deleted := true),
                           grace, p)
  {
    var s3 := BothStarted(s).(pending := None, calls := map[0 := Request(false), 1 := Revoke(true)], deleted := true);
    assert s3.calls[0 := Request(true)] == map[0 := Request(true), 1 := Revoke(true)];
    assert Apply(s3, RequestSet(0), s.clock, grace) == BothDone(s, grace);
    Cons(s3, RequestSet(0), s.clock, grace, p);
  }

  lemma BothDoneFires(s: State, grace: real, p: Policy)
    requires AtRest(s) && CanFireWrongly(Unrevoked(s, grace), grace, p)
    ensures CanFireWrongly(BothDone(s, grace), grace, p)
  {
    var s4 := BothDone(s, grace);
    var s5 := Apply(s4, RequestSpawn(0, 0), s.clock, grace);
    assert Apply(s5, RevokeEnd(1), s.clock, grace) == Unrevoked(s, grace);
    Cons(s5, RevokeEnd(1), s.clock, grace, p);
    Cons(s4, RequestSpawn(0, 0), s.clock, grace, p);
  }

  lemma UnrevokedFires(s: State, grace: real, p: Policy)
    requires AtRest(s) && grace >= 0.0
    ensures CanFireWrongly(Unrevoked(s, grace), grace, p)
  {
    var s6 := Unrevoked(s, grace);
    var s7 := Apply(s6, Wake(0), s.clock + grace, grace);
    Now(s7, 0, s.clock + grace, grace, p);
    Cons(s6, Wake(0), s.clock + grace, grace, p);
  }

  /** Timer 1 of a second request is asleep, registered nowhere. */
  function Orphaned(s: State, at: real, grace: real): State {
    s.(clock := at, pending := Some(at + grace + MARGIN), entry := None, timers := map[1 := Timer(at, Sleeping, false)],
       asked := Some(at), setAt := Some(at), revoked := false, cleared := false, deleted := false)
  }

  /** Nobody can cancel it any more, so a third request does not stop it from firing. */
  lemma OrphanFires(s: State, at: real, grace: real, p: Policy)
    requires AtRest(s) && grace > 0.0
    ensures CanFireWrongly(Orphaned(s, at, grace), grace, p)
  {
    var s0, woke := Orphaned(s, at, grace), at + grace;
    var s1 := Apply(s0, RequestStart(2), woke, grace);
    var s2 := Apply(s1, RequestSet(2), woke, grace);
    var s3 := Apply(s2, Wake(1), woke, grace);
    Now(s3, 1, woke, grace, p);
    Cons(s2, Wake(1), woke, grace, p);
    Cons(s1, RequestSet(2), woke, grace, p);
    Cons(s0, RequestStart(2), woke, grace, p);
  }

  /** Timer 0 has been cancelled awake, and timer 1 registered in its place. */
  function Replaced(s: State, at: real, grace: real): State {
    Orphaned(s, at, grace).(
      entry := Some(1), timers := map[0 := Timer(s.clock, Asking, true), 1 := Timer(at, Sleeping, false)])
  }

  lemma ReplacedFires(s: State, at: real, grace: real, p: Policy)
    requires AtRest(s) && grace > 0.0
    ensures CanFireWrongly(Replaced(s, at, grace), grace, p)
  {
    var s3 := Replaced(s, at, grace);
    assert s3.timers - {0} == map[1 := Timer(at, Sleeping, false)];
    assert Apply(s3, Unwind(0), at, grace) == Orphaned(s, at, grace);
    OrphanFires(s, at, grace, p);
    Cons(s3, Unwind(0), at, grace, p);
  }

  /** Calls one at a time, but one cancels a timer that is already awake: the timer's finally clause,
      run after its successor is registered, drops the successor from the registry. */
  lemma LateUnwindFiresWrongly(s: State, grace: real, p: Policy)
    requires AtRest(s) && p.awake && grace > 0.0
    ensures CanFireWrongly(s, grace, p)
  {
    var s1, woke := Requested(s, 0, 0, s.clock, grace), s.clock + grace;
    assert s1.timers == map[0 := Timer(s.clock, Sleeping, false)];
    assert Apply(s1, Wake(0), woke, grace) == Awoken(s, grace);
    AwokenFires(s, grace, p);
    Cons(s1, Wake(0), woke, grace, p);
    RequestFirst(s, 0, 0, s.clock, grace, p);
  }

  /** The timer of a first request has just woken up. */
  function Awoken(s: State, grace: real): State {
    var t := Requested(s, 0, 0, s.clock, grace);
    t.(clock := s.clock + grace, timers := map[0 := Timer(s.clock, Asking, false)])
  }

  lemma AwokenFires(s: State, grace: real, p: Policy)
    requires AtRest(s) && p.awake && grace > 0.0
    ensures CanFireWrongly(Awoken(s, grace), grace, p)
  {
    var s2, woke := Awoken(s, grace), s.clock + grace;
    assert s2.entry == Some(0) && s2.calls == map[];
    assert Requested(s2, 1, 1, woke, grace) == Replaced(s, woke, grace);
    ReplacedFires(s, woke, grace, p);
    RequestFirst(s2, 1, 1, woke, grace, p);
  }

  // ---------- Coming to rest ----------

  /** Whatever is under way can come to an end without another call starting. */
  lemma {:induction false} FromRest(s: State, grace: real, p: Policy)
    requires Order(s, grace) && grace >= 0.0
    requires forall r: State | AtRest(r) :: CanFireWrongly(r, grace, p)
    ensures CanFireWrongly(s, grace, p)
    decreases |s.calls|, |s.timers|
  {
    if s.calls != map[] {
      var c :| c in s.calls;
      CallsKeep(s, CallFail(c), s.clock, grace);
      FromRest(Apply(s, CallFail(c), s.clock, grace), grace, p);
      Cons(s, CallFail(c), s.clock, grace, p);
    } else if s.timers != map[] {
      var t :| t in s.timers;
      assert LiveIsLatest(s, t, grace);
      if s.timers[t].doomed {
        DropFirst(s, Vanish(t), s.clock, grace, p);
      } else if s.timers[t].stage != Sleeping {
        DropFirst(s, Unwind(t), s.clock, grace, p);
      } else {
        var at := if s.clock >= s.timers[t].spawned + grace then s.clock else s.timers[t].spawned + grace;
        TimersKeep(s, Wake(t), at, grace);
        var s1 := Apply(s, Wake(t), at, grace);
        assert s1.timers.Keys == s.timers.Keys && |s1.timers| == |s1.timers.Keys| && |s.timers| == |s.timers.Keys|;
        DropFirst(s1, Unwind(t), at, grace, p);
        Cons(s, Wake(t), at, grace, p);
      }
    }
  }

  lemma DropFirst(s: State, step: Step, at: real, grace: real, p: Policy)
    requires Order(s, grace) && grace >= 0.0 && s.calls == map[] && (step.Vanish? || step.Unwind?)
    requires Enabled(s, step, at, grace)
    requires forall r: State | AtRest(r) :: CanFireWrongly(r, grace, p)
    ensures CanFireWrongly(s, grace, p)
    decreases |s.calls|, |s.timers|, 0
  {
    TimersKeep(s, step, at, grace);
    var s1 := Apply(s, step, at, grace);
    assert s1.timers.Keys == s.timers.Keys - {step.t} && |s1.timers| == |s1.timers.Keys|
        && |s.timers| == |s.timers.Keys|;
    FromRest(s1, grace, p);
    Cons(s, step, at, grace, p);
  }

  // ---------- The exact condition ----------

  lemma {:induction false} TidyThroughout(s: State, run: Run, grace: real)
    requires Legal(s, run, grace)
    ensures TidyRun(s, run, grace) <==> Throughout(s, run, grace, Policy(false, false))
    decreases |run|
  {
    if run != [] { TidyThroughout(Apply(s, run[0].0, run[0].1, grace), run[1..], grace); }
  }

  lemma OrderedFiresRightly(s: State, t: nat, at: real, grace: real)
    requires Order(s, grace)
    ensures !FiresWrongly(s, t, at, grace)
  {
    if Enabled(s, Read(t), at, grace) { assert LiveIsLatest(s, t, grace); }
  }

  lemma OrderedFiresWronglyIff(s: State, grace: real, p: Policy)
    requires Order(s, grace) && grace > 0.0
    ensures CanFireWrongly(s, grace, p) <==> p.overlap || p.awake
  {
    if p.overlap || p.awake {
      forall r: State | AtRest(r) ensures CanFireWrongly(r, grace, p) {
        if p.overlap { OverlapFiresWrongly(r, grace, p); } else { LateUnwindFiresWrongly(r, grace, p); }
      }
      FromRest(s, grace, p);
    } else {
      if run, t, at :| WrongRun(s, run, t, at, grace, p) {
        TidyThroughout(s, run, grace);
        RunKeeps(s, run, grace);
        OrderedFiresRightly(Exec(s, run, grace), t, at, grace);
      }
    }
  }

  /** After any tidy run, some continuation under a policy fires wrongly exactly when the policy lets a
      call start while another is under way, or while the registered timer is awake. */
  lemma FiresWronglyIff(before: Run, grace: real, p: Policy)
    requires Legal(IDLE, before, grace) && TidyRun(IDLE, before, grace) && grace > 0.0
    ensures CanFireWrongly(Exec(IDLE, before, grace), grace, p) <==> p.overlap || p.awake
  {
    RunKeeps(IDLE, before, grace);
    OrderedFiresWronglyIff(Exec(IDLE, before, grace), grace, p);
  }

  /** After any tidy run a caller can tell by the clock that the registered timer is asleep. */
  lemma AsleepByTheClock(before: Run, grace: real)
    requires Legal(IDLE, before, grace) && TidyRun(IDLE, before, grace)
    requires var s := Exec(IDLE, before, grace);
             s.entry.Some? && s.entry.value in s.timers ==> s.clock < s.timers[s.entry.value].spawned + grace
    ensures Asleep(Exec(IDLE, before, grace))
  {
    RunKeeps(IDLE, before, grace);
    var s := Exec(IDLE, before, grace);
    if s.entry.Some? { assert LiveIsLatest(s, s.entry.value, grace); }
  }
}
