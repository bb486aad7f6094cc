/** The cancel registry as an object over many alerts (services/_runtime/cancel.py), each call run
    without interruption; CancelProtocol has the interleavings of one alert. */
module CancelRegistry {
  import opened CancelProtocol

  datatype Task = Task(alert: string, timer: Timer)

  function Lookup<V>(m: map<string, V>, k: string): Option<V> { if k in m then Some(m[k]) else None }

  function TimersOf(tasks: map<nat, Task>, alert: string): map<nat, Timer> {
    map t <- tasks | tasks[t].alert == alert :: tasks[t].timer
  }

  lemma TimersPlus(tasks: map<nat, Task>, t: nat, task: Task)
    requires t in tasks ==> tasks[t].alert == task.alert
    ensures TimersOf(tasks[t := task], task.alert) == TimersOf(tasks, task.alert)[t := task.timer]
    ensures forall a :: a != task.alert ==> TimersOf(tasks[t := task], a) == TimersOf(tasks, a)
  {
  }

  lemma TimersMinus(tasks: map<nat, Task>, t: nat)
    requires t in tasks
    ensures TimersOf(tasks - {t}, tasks[t].alert) == TimersOf(tasks, tasks[t].alert) - {t}
    ensures forall a :: a != tasks[t].alert ==> TimersOf(tasks - {t}, a) == TimersOf(tasks, a)
  {
  }

  class Registry {
    const grace: real
    var pending: map<string, real>
    var cancelled: map<string, real>
    var timers: map<string, nat>
    var tasks: map<nat, Task>

    /** A registered timer is a task of its alert that is neither done nor cancelled. */
    ghost predicate Valid()
      reads this
    {
      forall a <- timers :: timers[a] in tasks && tasks[timers[a]].alert == a && !tasks[timers[a]].timer.doomed
    }

    /** The part of the state that is one alert's. */
    ghost function Of(alert: string): State
      reads this
    {
      IDLE.(pending := Lookup(pending, alert), flag := Lookup(cancelled, alert), entry := Lookup(timers, alert),
            timers := TimersOf(tasks, alert))
    }

    constructor (grace: real)
      ensures Valid() && this.grace == grace && forall a :: Of(a) == IDLE
    {
      this.grace := grace;
      pending, cancelled, timers, tasks := map[], map[], map[], map[];
    }

    /** A Redis that fails reads as not cancelled. */
    method IsCancelled(alert: string, now: real, up: bool) returns (b: bool)
      ensures b <==> up && alert in cancelled && now < cancelled[alert]
    {
      b := up && alert in cancelled && now < cancelled[alert];
    }

    /** Takes the alert's timer out of the registry and cancels it if it is not done. */
    method PopTimer(alert: string)
      requires Valid()
      modifies this`timers, this`tasks
      ensures Valid()
      ensures Of(alert) == Popped(old(Of(alert)))
      ensures forall a :: a != alert ==> Of(a) == old(Of(a))
      ensures tasks.Keys == old(tasks.Keys) && timers == old(timers) - {alert}
      ensures alert in old(timers) ==> tasks[old(timers)[alert]].timer.doomed
    {
      if alert in timers {
        var t := timers[alert];
        timers := timers - {alert};
        TimersPlus(tasks, t, tasks[t].(timer := tasks[t].timer.(doomed := true)));
        tasks := tasks[t := tasks[t].(timer := tasks[t].timer.(doomed := true))];
      }
    }

    /** t names the new task; up says whether Redis takes the command. */
    method RequestCancel(alert: string, t: nat, now: real, up: bool)
      requires Valid() && t !in tasks
      modifies this
      ensures Valid()
      ensures Of(alert) == (if up then KeyAndTimer(Popped(old(Of(alert))), t, now, grace) else Popped(old(Of(alert))))
      ensures pending == (if up then old(pending)[alert := now + grace + 5.0] else old(pending))
      ensures timers == (if up then old(timers)[alert := t] else old(timers) - {alert}) && cancelled == old(cancelled)
      ensures up ==> t in tasks && tasks[t] == Task(alert, Timer(now, Sleeping, false))
      ensures alert in old(timers) ==> old(timers)[alert] in tasks && tasks[old(timers)[alert]].timer.doomed
      ensures forall a :: a != alert ==> Of(a) == old(Of(a))
    {
      PopTimer(alert);
      if !up {
        return;
      }
      pending := pending[alert := now + grace + MARGIN];
      TimersPlus(tasks, t, Task(alert, Timer(now, Sleeping, false)));
      tasks := tasks[t := Task(alert, Timer(now, Sleeping, false))];
      timers := timers[alert := t];
    }

    method RevokeCancel(alert: string, up: bool)
      requires Valid()
      modifies this
      ensures Valid()
      ensures Of(alert) == (if up then Popped(old(Of(alert))).(pending := None) else Popped(old(Of(alert))))
      ensures pending == (if up then old(pending) - {alert} else old(pending)) && cancelled == old(cancelled)
      ensures timers == old(timers) - {alert}
      ensures alert in old(timers) ==> old(timers)[alert] in tasks && tasks[old(timers)[alert]].timer.doomed
      ensures forall a :: a != alert ==> Of(a) == old(Of(a))
    {
      PopTimer(alert);
      if up {
        pending := pending - {alert};
      }
    }

    /** The timer's coroutine from its wake-up to its end. */
    method FireAfterGrace(t: nat, now: real, up: bool)
      requires Valid() && t in tasks && tasks[t].timer.stage == Sleeping && !tasks[t].timer.doomed
      requires now >= tasks[t].timer.spawned + grace
      modifies this
      ensures Valid()
      ensures var alert := old(tasks)[t].alert;
              && Of(alert) == (if up && Present(old(Of(alert)).pending, now) then Fired(old(Of(alert)), t, now)
                               else Unwound(old(Of(alert)), t))
              && forall a :: a != alert ==> Of(a) == old(Of(a))
      ensures var alert := old(tasks)[t].alert;
              var found := up && alert in old(pending) && now < old(pending)[alert];
              && cancelled == (if found then old(cancelled)[alert := now + 86_400.0] else old(cancelled))
              && pending == (if found then old(pending) - {alert} else old(pending))
              && timers == old(timers) - {alert} && tasks == old(tasks) - {t}
    {
      var alert := tasks[t].alert;
      if up {
        if alert in pending && now < pending[alert] {
          cancelled := cancelled[alert := now + FLAG_TTL];
          pending := pending - {alert};
        }
      }
      timers := timers - {alert};
      TimersMinus(tasks, t);
      tasks := tasks - {t};
    }
  }

  /** The key set and a new timer registered. */
  function KeyAndTimer(s: State, t: nat, now: real, grace: real): State {
    s.(pending := Some(now + grace + MARGIN), entry := Some(t), timers := s.timers[t := Timer(now, Sleeping, false)])
  }

  /** The flag set, the key deleted, the timer gone. */
  function Fired(s: State, t: nat, now: real): State {
    Unwound(s, t).(pending := None, flag := Some(now + FLAG_TTL))
  }

  predicate SameKeys(s: State, u: State) {
    s.pending == u.pending && s.flag == u.flag && s.entry == u.entry && s.timers == u.timers
  }

  /** An uninterrupted request, revoke or fire is a run of the protocol with the same effect. */
  lemma RequestIsARun(s: State, t: nat, now: real, grace: real)
    requires s.calls == map[] && s.clock <= now && t !in s.timers && s.entry != Some(t)
    ensures var run := [(RequestStart(0), now), (RequestSet(0), now), (RequestSpawn(0, t), now)];
            Legal(s, run, grace) && SameKeys(Exec(s, run, grace), KeyAndTimer(Popped(s), t, now, grace))
  {
    var s1 := Apply(s, RequestStart(0), now, grace);
    var s2 := Apply(s1, RequestSet(0), now, grace);
    var s3 := Apply(s2, RequestSpawn(0, t), now, grace);
    LegalCons(s2, RequestSpawn(0, t), now, [], grace);
    assert [(RequestSpawn(0, t), now)] + [] == [(RequestSpawn(0, t), now)];
    LegalCons(s1, RequestSet(0), now, [(RequestSpawn(0, t), now)], grace);
    assert [(RequestSet(0), now)] + [(RequestSpawn(0, t), now)] == [(RequestSet(0), now), (RequestSpawn(0, t), now)];
    LegalCons(s, RequestStart(0), now, [(RequestSet(0), now), (RequestSpawn(0, t), now)], grace);
    assert [(RequestStart(0), now)] + [(RequestSet(0), now), (RequestSpawn(0, t), now)]
           == [(RequestStart(0), now), (RequestSet(0), now), (RequestSpawn(0, t), now)];
    assert SameKeys(s3, KeyAndTimer(Popped(s), t, now, grace));
  }

  lemma RevokeIsARun(s: State, now: real, grace: real)
    requires s.calls == map[] && s.clock <= now
    ensures var run := [(RevokeStart(0), now), (RevokeDelete(0), now), (RevokeEnd(0), now)];
            Legal(s, run, grace) && SameKeys(Exec(s, run, grace), Popped(s).(pending := None))
  {
    var s1 := Apply(s, RevokeStart(0), now, grace);
    var s2 := Apply(s1, RevokeDelete(0), now, grace);
    var s3 := Apply(s2, RevokeEnd(0), now, grace);
    LegalCons(s2, RevokeEnd(0), now, [], grace);
    assert [(RevokeEnd(0), now)] + [] == [(RevokeEnd(0), now)];
    LegalCons(s1, RevokeDelete(0), now, [(RevokeEnd(0), now)], grace);
    assert [(RevokeDelete(0), now)] + [(RevokeEnd(0), now)] == [(RevokeDelete(0), now), (RevokeEnd(0), now)];
    LegalCons(s, RevokeStart(0), now, [(RevokeDelete(0), now), (RevokeEnd(0), now)], grace);
    assert [(RevokeStart(0), now)] + [(RevokeDelete(0), now), (RevokeEnd(0), now)]
           == [(RevokeStart(0), now), (RevokeDelete(0), now), (RevokeEnd(0), now)];
    assert SameKeys(s3, Popped(s).(pending := None));
  }

  lemma FireIsARun(s: State, t: nat, now: real, grace: real)
    requires s.clock <= now && Enabled(s, Wake(t), now, grace) && Present(s.pending, now)
    ensures var run := [(Wake(t), now), (Read(t), now), (Flag(t), now), (Clear(t), now), (Unwind(t), now)];
            Legal(s, run, grace) && SameKeys(Exec(s, run, grace), Fired(s, t, now))
  {
    var s0 := Apply(s, Wake(t), now, grace);
    FoundIsARun(s0, t, now, grace);
    var rest := [(Read(t), now), (Flag(t), now), (Clear(t), now), (Unwind(t), now)];
    LegalCons(s, Wake(t), now, rest, grace);
    assert [(Wake(t), now)] + rest
           == [(Wake(t), now), (Read(t), now), (Flag(t), now), (Clear(t), now), (Unwind(t), now)];
    assert s0.timers - {t} == s.timers - {t};
  }

  lemma FoundIsARun(s: State, t: nat, now: real, grace: real)
    requires s.clock <= now && Enabled(s, Read(t), now, grace) && Present(s.pending, now)
    ensures var run := [(Read(t), now), (Flag(t), now), (Clear(t), now), (Unwind(t), now)];
            Legal(s, run, grace) && SameKeys(Exec(s, run, grace), Fired(s, t, now))
  {
    var s1 := Apply(s, Read(t), now, grace);
    FlaggedIsARun(s1, t, now, grace);
    assert s1.timers - {t} == s.timers - {t};
    LegalCons(s, Read(t), now, [(Flag(t), now), (Clear(t), now), (Unwind(t), now)], grace);
    assert [(Read(t), now)] + [(Flag(t), now), (Clear(t), now), (Unwind(t), now)]
           == [(Read(t), now), (Flag(t), now), (Clear(t), now), (Unwind(t), now)];
  }

  lemma FlaggedIsARun(s: State, t: nat, now: real, grace: real)
    requires s.clock <= now && Enabled(s, Flag(t), now, grace)
    ensures var run := [(Flag(t), now), (Clear(t), now), (Unwind(t), now)];
            Legal(s, run, grace) && SameKeys(Exec(s, run, grace), Fired(s, t, now))
  {
    var s1 := Apply(s, Flag(t), now, grace);
    var s2 := Apply(s1, Clear(t), now, grace);
    var s3 := Apply(s2, Unwind(t), now, grace);
    assert s3.timers == s.timers - {t};
    LegalCons(s2, Unwind(t), now, [], grace);
    assert [(Unwind(t), now)] + [] == [(Unwind(t), now)];
    LegalCons(s1, Clear(t), now, [(Unwind(t), now)], grace);
    assert [(Clear(t), now)] + [(Unwind(t), now)] == [(Clear(t), now), (Unwind(t), now)];
    LegalCons(s, Flag(t), now, [(Clear(t), now), (Unwind(t), now)], grace);
    assert [(Flag(t), now)] + [(Clear(t), now), (Unwind(t), now)]
           == [(Flag(t), now), (Clear(t), now), (Unwind(t), now)];
  }
}
