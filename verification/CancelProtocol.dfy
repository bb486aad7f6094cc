/** The debounced cancel of one alert (services/_runtime/cancel.py): requests, revokes and grace
    timers interleave at every await, and each Redis command is one step. */
module CancelProtocol {
  datatype Option<+T> = None | Some(value: T)

  /** Where a timer's coroutine is: asleep; asking for the pending key; found it; has set the cancelled
      flag; has deleted the pending key. */
  datatype Stage = Sleeping | Asking | Found | Flagged | Cleared

  /** A doomed timer has been cancelled and has not unwound yet. */
  datatype Timer = Timer(spawned: real, stage: Stage, doomed: bool)

  /** A call between taking the timer out of the registry and its end; done once Redis has run its
      command. */
  datatype Call = Request(done: bool) | Revoke(done: bool)

  /** pending and flag hold the expiry of the two keys, entry the registered timer. The rest is
      history: when the latest request began (asked) and when its key was last set (setAt), whether a
      revoke has completed since the request began (revoked), whether the key has been deleted by a
      timer since it was set (cleared), whether the flag was ever set (flagged), and whether the key
      was deleted by a revoke after it was last set (deleted). */
  datatype State = State(
    clock: real,
    pending: Option<real>,
    flag: Option<real>,
    entry: Option<nat>,
    timers: map<nat, Timer>,
    calls: map<nat, Call>,
    asked: Option<real>,
    setAt: Option<real>,
    revoked: bool,
    cleared: bool,
    flagged: bool,
    deleted: bool)

  const FLAG_TTL := 86400.0
  const MARGIN := 5.0

  const IDLE := State(0.0, None, None, None, map[], map[], None, None, false, false, false, false)

  datatype Step =
    | RequestStart(c: nat)
    | RequestSet(c: nat)
    | RequestSpawn(c: nat, t: nat)
    | RevokeStart(c: nat)
    | RevokeDelete(c: nat)
    | RevokeEnd(c: nat)
    | CallFail(c: nat)
    | Wake(t: nat)
    | Read(t: nat)
    | Flag(t: nat)
    | Clear(t: nat)
    | Unwind(t: nat)
    | Vanish(t: nat)

  predicate Present(key: Option<real>, at: real) { key.Some? && at < key.value }

  predicate Enabled(s: State, step: Step, at: real, grace: real) {
    && at >= s.clock
    && match step {
      case RequestStart(c) => c !in s.calls
      case RequestSet(c) => c in s.calls && s.calls[c] == Request(false)
      case RequestSpawn(c, t) => c in s.calls && s.calls[c] == Request(true) && t !in s.timers && s.entry != Some(t)
      case RevokeStart(c) => c !in s.calls
      case RevokeDelete(c) => c in s.calls && s.calls[c] == Revoke(false)
      case RevokeEnd(c) => c in s.calls && s.calls[c] == Revoke(true)
      case CallFail(c) => c in s.calls
      case Wake(t) =>
        t in s.timers && s.timers[t].stage == Sleeping && !s.timers[t].doomed && at >= s.timers[t].spawned + grace
      case Read(t) => t in s.timers && s.timers[t].stage == Asking && !s.timers[t].doomed
      case Flag(t) => t in s.timers && s.timers[t].stage == Found
      case Clear(t) => t in s.timers && s.timers[t].stage == Flagged
      case Unwind(t) => t in s.timers && s.timers[t].stage != Sleeping
      case Vanish(t) => t in s.timers && s.timers[t].stage == Sleeping && s.timers[t].doomed
    }
  }

  /** Takes the entry out and cancels its timer. */
  function Popped(s: State): State {
    s.(entry := None,
       timers := if s.entry.Some? && s.entry.value in s.timers
                 then s.timers[s.entry.value := s.timers[s.entry.value].(doomed := true)]
                 else s.timers)
  }

  function Staged(s: State, t: nat, stage: Stage): State
    requires t in s.timers
  {
    s.(timers := s.timers[t := s.timers[t].(stage := stage)])
  }

  /** The finally clause, which a timer cancelled in its sleep does not come to: whatever entry there is
      goes, whoever's it is. */
  function Unwound(s: State, t: nat): State { s.(entry := None, timers := s.timers - {t}) }

  function Started(s: State, c: nat, at: real): State {
    Popped(s).(calls := s.calls[c := Request(false)], asked := Some(at), revoked := false)
  }

  function KeySet(s: State, c: nat, at: real, grace: real): State {
    s.(pending := Some(at + grace + MARGIN), calls := s.calls[c := Request(true)],
       setAt := Some(at), cleared := false, deleted := false)
  }

  function Spawned(s: State, c: nat, t: nat, at: real): State {
    s.(entry := Some(t), timers := s.timers[t := Timer(at, Sleeping, false)], calls := s.calls - {c})
  }

  function Effect(s: State, step: Step, at: real, grace: real): State
    requires Enabled(s, step, at, grace)
  {
    match step
    case RequestStart(c) => Started(s, c, at)
    case RequestSet(c) => KeySet(s, c, at, grace)
    case RequestSpawn(c, t) => Spawned(s, c, t, at)
    case RevokeStart(c) => Popped(s).(calls := s.calls[c := Revoke(false)])
    case RevokeDelete(c) => s.(pending := None, calls := s.calls[c := Revoke(true)], deleted := true)
    case RevokeEnd(c) => s.(calls := s.calls - {c}, revoked := true)
    case CallFail(c) => s.(calls := s.calls - {c}, revoked := s.revoked || s.calls[c].Revoke?)
    case Wake(t) => Staged(s, t, Asking)
    case Read(t) => if Present(s.pending, at) then Staged(s, t, Found) else Unwound(s, t)
    case Flag(t) => Staged(s, t, Flagged).(flag := Some(at + FLAG_TTL), flagged := true)
    case Clear(t) => Staged(s, t, Cleared).(pending := None, cleared := true)
    case Unwind(t) => Unwound(s, t)
    case Vanish(t) => s.(timers := s.timers - {t})
  }

  function Apply(s: State, step: Step, at: real, grace: real): State
    requires Enabled(s, step, at, grace)
  {
    Effect(s, step, at, grace).(clock := at)
  }

  type Run = seq<(Step, real)>

  predicate Legal(s: State, run: Run, grace: real)
    decreases |run|
  {
    run == [] || (Enabled(s, run[0].0, run[0].1, grace) && Legal(Apply(s, run[0].0, run[0].1, grace), run[1..], grace))
  }

  function Exec(s: State, run: Run, grace: real): State
    requires Legal(s, run, grace)
    decreases |run|
  {
    if run == [] then s else Exec(Apply(s, run[0].0, run[0].1, grace), run[1..], grace)
  }

  // ---------- Every run ----------

  /** The pending key is the one last set, unless a revoke or a timer has deleted it since; and only
      a timer that set the flag deletes it. */
  predicate KeyRecorded(s: State, grace: real) {
    && s.pending == (if s.setAt.None? || s.cleared || s.deleted then None else Some(s.setAt.value + grace + MARGIN))
    && (s.cleared ==> s.flagged)
    && (forall t <- s.timers :: s.timers[t].stage in {Flagged, Cleared} ==> s.flagged)
    && (s.setAt.Some? ==> s.setAt.value <= s.clock)
  }

  lemma StepRecords(s: State, step: Step, at: real, grace: real)
    requires KeyRecorded(s, grace) && Enabled(s, step, at, grace)
    ensures KeyRecorded(Apply(s, step, at, grace), grace)
  {
    if step.Wake? || step.Read? || step.Unwind? || step.Vanish? {
      PassingRecords(s, step, at, grace);
    } else if step.Flag? || step.Clear? {
      FiringRecords(s, step, at, grace);
    } else {
      CallRecords(s, step, at, grace);
    }
  }

  lemma PassingRecords(s: State, step: Step, at: real, grace: real)
    requires KeyRecorded(s, grace) && Enabled(s, step, at, grace)
    requires step.Wake? || step.Read? || step.Unwind? || step.Vanish?
    ensures KeyRecorded(Apply(s, step, at, grace), grace)
  {
  }

  lemma FiringRecords(s: State, step: Step, at: real, grace: real)
    requires KeyRecorded(s, grace) && Enabled(s, step, at, grace) && (step.Flag? || step.Clear?)
    ensures KeyRecorded(Apply(s, step, at, grace), grace)
  {
  }

  lemma CallRecords(s: State, step: Step, at: real, grace: real)
    requires KeyRecorded(s, grace) && Enabled(s, step, at, grace)
    requires step.RequestStart? || step.RequestSet? || step.RequestSpawn? || step.RevokeStart? || step.RevokeDelete?
             || step.RevokeEnd? || step.CallFail?
    ensures KeyRecorded(Apply(s, step, at, grace), grace)
  {
    if step.RequestStart? || step.RevokeStart? { StartRecords(s, step, at, grace); }
  }

  lemma StartRecords(s: State, step: Step, at: real, grace: real)
    requires KeyRecorded(s, grace) && Enabled(s, step, at, grace) && (step.RequestStart? || step.RevokeStart?)
    ensures KeyRecorded(Apply(s, step, at, grace), grace)
  {
  }

  lemma {:induction false} RunRecords(s: State, run: Run, grace: real)
    requires KeyRecorded(s, grace) && Legal(s, run, grace)
    ensures KeyRecorded(Exec(s, run, grace), grace)
    decreases |run|
  {
    if run != [] {
      StepRecords(s, run[0].0, run[0].1, grace);
      RunRecords(Apply(s, run[0].0, run[0].1, grace), run[1..], grace);
    }
  }

  /** In any run a timer finds the key exactly when it asks within grace + 5 seconds of the last
      setting and neither a revoke nor a fired timer has deleted it since. */
  lemma FindsIff(run: Run, t: nat, at: real, grace: real)
    requires Legal(IDLE, run, grace) && Enabled(Exec(IDLE, run, grace), Read(t), at, grace)
    ensures var s := Exec(IDLE, run, grace);
            && (Apply(s, Read(t), at, grace).timers != s.timers - {t}
                <==> s.setAt.Some? && !s.cleared && !s.deleted && at < s.setAt.value + grace + 5.0)
            && (s.cleared ==> s.flagged)
  {
    RunRecords(IDLE, run, grace);
    var s := Exec(IDLE, run, grace);
    assert t !in s.timers - {t};
  }

  lemma LegalCons(s: State, step: Step, at: real, run: Run, grace: real)
    requires Enabled(s, step, at, grace) && Legal(Apply(s, step, at, grace), run, grace)
    ensures Legal(s, [(step, at)] + run, grace)
    ensures Exec(s, [(step, at)] + run, grace) == Exec(Apply(s, step, at, grace), run, grace)
  {
    assert ([(step, at)] + run)[1..] == run;
  }

  // ---------- Tidy runs ----------

  predicate Starts(step: Step) { step.RequestStart? || step.RevokeStart? }

  /** The registered timer, if any, has not woken up. */
  predicate Asleep(s: State) {
    s.entry.Some? && s.entry.value in s.timers ==> s.timers[s.entry.value].stage == Sleeping
  }

  /** A call starts only when no other is under way and the registered timer, if any, is asleep. */
  predicate Tidy(s: State, step: Step) { Starts(step) ==> s.calls == map[] && Asleep(s) }

  predicate TidyRun(s: State, run: Run, grace: real)
    requires Legal(s, run, grace)
    decreases |run|
  {
    run == [] || (Tidy(s, run[0].0) && TidyRun(Apply(s, run[0].0, run[0].1, grace), run[1..], grace))
  }

  /** A timer that is not cancelled is the registered one, no call is under way, and it belongs to the
      latest request, which no revoke has followed; a cancelled one is asleep. */
  predicate LiveIsLatest(s: State, t: nat, grace: real)
    requires t in s.timers
  {
    if s.timers[t].doomed then s.timers[t].stage == Sleeping
    else
      && s.entry == Some(t) && s.calls == map[] && !s.revoked && !s.deleted
      && s.asked.Some? && s.setAt.Some? && s.asked.value <= s.setAt.value <= s.timers[t].spawned
      && (s.timers[t].stage != Cleared ==> !s.cleared)
      && (s.timers[t].stage != Sleeping ==> s.timers[t].spawned + grace <= s.clock)
  }

  predicate AllLatest(s: State, grace: real) {
    && (forall t <- s.timers :: LiveIsLatest(s, t, grace))
    && (s.entry.Some? ==> s.entry.value in s.timers && !s.timers[s.entry.value].doomed)
  }

  predicate CallsOrdered(s: State) {
    && |s.calls| <= 1
    && (s.asked.Some? ==> s.asked.value <= s.clock)
    && (s.setAt.Some? ==> s.setAt.value <= s.clock)
    && forall c <- s.calls :: s.calls[c].Request? ==>
        && s.asked.Some? && !s.revoked
        && (s.calls[c].done ==> s.setAt.Some? && s.asked.value <= s.setAt.value && !s.deleted && !s.cleared)
  }

  predicate Order(s: State, grace: real) { AllLatest(s, grace) && CallsOrdered(s) }

  lemma OneCall(calls: map<nat, Call>, c: nat)
    requires |calls| <= 1 && c in calls
    ensures calls - {c} == map[] && forall d <- calls :: d == c
  {
    assert |calls.Keys - {c}| == |calls.Keys| - 1;
    assert (calls - {c}).Keys == calls.Keys - {c};
  }

  lemma StartsKeep(s: State, step: Step, at: real, grace: real)
    requires Order(s, grace) && Enabled(s, step, at, grace) && Tidy(s, step) && Starts(step)
    ensures Order(Apply(s, step, at, grace), grace)
  {
  }

  lemma CallsKeep(s: State, step: Step, at: real, grace: real)
    requires Order(s, grace) && Enabled(s, step, at, grace)
    requires step.RequestSet? || step.RequestSpawn? || step.RevokeDelete? || step.RevokeEnd? || step.CallFail?
    ensures Order(Apply(s, step, at, grace), grace)
  {
    OneCall(s.calls, step.c);
  }

  lemma TimersKeep(s: State, step: Step, at: real, grace: real)
    requires Order(s, grace) && Enabled(s, step, at, grace)
    requires step.Wake? || step.Read? || step.Flag? || step.Clear? || step.Unwind? || step.Vanish?
    ensures Order(Apply(s, step, at, grace), grace)
  {
    assert LiveIsLatest(s, step.t, grace);
    if step.Unwind? || step.Vanish? {
      EndsKeep(s, step.t, at, step.Unwind?, grace);
    } else if step.Read? {
      EndsKeep(s, step.t, at, true, grace);
      StagesKeep(s, step.t, Found, at, grace);
    } else {
      LaterStagesKeep(s, step, at, grace);
    }
  }

  lemma LaterStagesKeep(s: State, step: Step, at: real, grace: real)
    requires Order(s, grace) && Enabled(s, step, at, grace) && (step.Wake? || step.Flag? || step.Clear?)
    requires !s.timers[step.t].doomed
    ensures Order(Apply(s, step, at, grace), grace)
  {
    forall u <- s.timers | u != step.t ensures s.timers[u].doomed {
      assert LiveIsLatest(s, u, grace) && LiveIsLatest(s, step.t, grace);
    }
  }

  lemma StagesKeep(s: State, t: nat, stage: Stage, at: real, grace: real)
    requires Order(s, grace) && t in s.timers && !s.timers[t].doomed && s.timers[t].stage == Asking && at >= s.clock
    requires stage == Found
    ensures Order(Staged(s, t, stage).(clock := at), grace)
  {
  }

  lemma EndsKeep(s: State, t: nat, at: real, popped: bool, grace: real)
    requires Order(s, grace) && t in s.timers && at >= s.clock && popped == !s.timers[t].doomed
    ensures Order((if popped then Unwound(s, t) else s.(timers := s.timers - {t})).(clock := at), grace)
  {
    forall u <- s.timers | u != t && popped ensures s.timers[u].doomed { assert LiveIsLatest(s, u, grace); }
  }

  lemma StepKeeps(s: State, step: Step, at: real, grace: real)
    requires Order(s, grace) && Enabled(s, step, at, grace) && Tidy(s, step)
    ensures Order(Apply(s, step, at, grace), grace)
  {
    if Starts(step) {
      StartsKeep(s, step, at, grace);
    } else if step.Wake? || step.Read? || step.Flag? || step.Clear? || step.Unwind? || step.Vanish? {
      TimersKeep(s, step, at, grace);
    } else {
      CallsKeep(s, step, at, grace);
    }
  }

  lemma {:induction false} RunKeeps(s: State, run: Run, grace: real)
    requires Order(s, grace) && Legal(s, run, grace) && TidyRun(s, run, grace)
    ensures Order(Exec(s, run, grace), grace)
    decreases |run|
  {
    if run != [] {
      StepKeeps(s, run[0].0, run[0].1, grace);
      RunKeeps(Apply(s, run[0].0, run[0].1, grace), run[1..], grace);
    }
  }
}
