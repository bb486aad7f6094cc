/** One reconciler with the write-ahead log to itself and a Redis that answers: run_once and
    _process_one as an object over the keys, and what a whole scan does. */
module WalReconciler {
  import opened WalStore

  datatype Result =
    | Absent    // someone else cleaned it up
    | Discarded // corrupt JSON
    | Skipped   // retried too recently
    | Raised    // no subject to publish under
    | Published
    | Retry
    | GaveUp
  {
    predicate Failed() { Retry? || GaveUp? }
  }

  datatype Outcome = Outcome(keys: Keys, result: Result)

  /** What _process_one leaves behind when the broker's answer is ok. */
  function AfterProcess(k: Keys, id: AlertId, ok: bool, age: Span): Outcome {
    if id !in k.pending then Outcome(k, Absent)
    else if k.pending[id].kind.Corrupt? then Outcome(k.Dropped(id), Discarded)
    else
      var k1 := k.Incremented(id).Renewed(id, age);
      var n := k1.Attempts(id);
      if k1.TooSoon(id) then Outcome(k1, Skipped)
      else if k.pending[id].kind.NoSubject? then Outcome(k1, Raised)
      else if ok then Outcome(k1.Published(id), Published)
      else
        var k2 := k1.Scheduled(id, k.now + (if n >= 1 then Delay(n) else 0), age);
        if n >= |BACKOFF| then Outcome(k2.GivenUp(id), GaveUp) else Outcome(k2, Retry)
  }

  /** One key of the scan: lease, process, release. A leased alert is passed over. */
  function AfterVisit(k: Keys, id: AlertId, ok: bool, o: Owner, span: Span, age: Span): Outcome {
    if id in k.lease then Outcome(k, Absent)
    else
      var out := AfterProcess(k.Leased(id, o, span), id, ok, age);
      Outcome(out.keys.Released(id, o), out.result)
  }

  /** A scan visits its keys in order and stops where the subject resolver raises. */
  function AfterScan(k: Keys, ids: seq<AlertId>, acks: AlertId -> bool, o: Owner, span: Span, age: Span): Outcome
    decreases |ids|
  {
    if ids == [] then Outcome(k, Absent)
    else
      var out := AfterVisit(k, ids[0], acks(ids[0]), o, span, age);
      if out.result.Raised? then out else AfterScan(out.keys, ids[1..], acks, o, span, age)
  }

  class Reconciler {
    var pending: map<AlertId, Entry>
    var lease: map<AlertId, Lease>
    var attempts: map<AlertId, Counter>
    var next: map<AlertId, Counter>
    var now: int
    const owner: Owner
    const maxAge: Span
    const leaseSpan: Span

    function State(): Keys
      reads this
    {
      Keys(pending, lease, attempts, next, now)
    }

    constructor (owner: Owner, maxAge: Span, leaseSpan: Span)
      ensures State() == EMPTY
    {
      pending, lease, attempts, next, now := map[], map[], map[], map[], 0;
      this.owner, this.maxAge, this.leaseSpan := owner, maxAge, leaseSpan;
    }

    method WriteAhead(id: AlertId, version: nat, kind: Kind)
      modifies this
      ensures State() == old(State()).Put(id, Entry(version, kind, old(now) + maxAge))
      ensures pending == old(pending)[id := Entry(version, kind, now + maxAge)]
      ensures (lease, attempts, next, now) == old((lease, attempts, next, now))
    {
      pending := pending[id := Entry(version, kind, now + maxAge)];
    }

    method MarkPublished(id: AlertId)
      modifies this
      ensures State() == old(State()).Published(id)
      ensures pending == old(pending) - {id} && lease == old(lease) - {id} && attempts == old(attempts) - {id}
      ensures (next, now) == old((next, now))
    {
      pending, lease, attempts := pending - {id}, lease - {id}, attempts - {id};
    }

    method MoveToDlq(id: AlertId)
      modifies this
      ensures State() == old(State()).GivenUp(id)
      ensures pending == old(pending) - {id} && attempts == old(attempts) - {id} && next == old(next) - {id}
      ensures (lease, now) == old((lease, now))
    {
      pending, attempts, next := pending - {id}, attempts - {id}, next - {id};
    }

    method IncrementAttempts(id: AlertId) returns (n: int)
      modifies this
      ensures State() == old(State()).Incremented(id).Renewed(id, maxAge) && n == State().Attempts(id)
      ensures n == (if id in old(attempts) then old(attempts)[id].value else 0) + 1
      ensures attempts == old(attempts)[id := Counter(n, Expires(now + maxAge))]
      ensures (pending, lease, next, now) == old((pending, lease, next, now))
    {
      n := if id in attempts then attempts[id].value + 1 else 1;
      attempts := attempts[id := Counter(n, Expires(now + maxAge))];
    }

    /** ok is the broker's answer, if it is asked. */
    method ProcessOne(id: AlertId, ok: bool) returns (result: Result)
      modifies this
      ensures Outcome(State(), result) == AfterProcess(old(State()), id, ok, maxAge)
      ensures result == Retry ==>
                && id in attempts && id in next
                && forall seconds | PutsOff(attempts[id].value, seconds) :: next[id].value == now + seconds * 1000
    {
      if id !in pending {
        return Absent;
      }
      var kind := pending[id].kind;
      if kind.Corrupt? {
        pending := pending - {id};
        return Discarded;
      }
      var n := IncrementAttempts(id);
      if id in next && now < next[id].value {
        return Skipped;
      }
      if kind.NoSubject? {
        return Raised;
      }
      if ok {
        MarkPublished(id);
        return Published;
      }
      RetryPutsOff(n);
      var due := now + (if n >= 1 then Delay(n) else 0);
      next := next[id := Counter(due, Expires(now + maxAge))];
      if n >= |BACKOFF| {
        MoveToDlq(id);
        return GaveUp;
      }
      result := Retry;
    }

    method AcquireLease(id: AlertId) returns (ok: bool)
      modifies this
      ensures ok <==> id !in old(lease)
      ensures State() == if ok then old(State()).Leased(id, owner, leaseSpan) else old(State())
      ensures lease == if ok then old(lease)[id := Lease(owner, now + leaseSpan)] else old(lease)
    {
      ok := id !in lease;
      if ok {
        lease := lease[id := Lease(owner, now + leaseSpan)];
      }
    }

    method ReleaseLease(id: AlertId)
      modifies this
      ensures State() == old(State()).Released(id, owner)
      ensures lease == if id in old(lease) && old(lease)[id].owner == owner then old(lease) - {id} else old(lease)
    {
      if id in lease && lease[id].owner == owner {
        lease := lease - {id};
      }
    }

    /** ids are the alerts SCAN finds, in its order; acks is what the broker answers. */
    method RunOnce(ids: seq<AlertId>, acks: AlertId -> bool) returns (raised: bool)
      modifies this
      ensures State() == AfterScan(old(State()), ids, acks, owner, leaseSpan, maxAge).keys
      ensures raised == AfterScan(old(State()), ids, acks, owner, leaseSpan, maxAge).result.Raised?
    {
      var i := 0;
      while i < |ids|
        invariant 0 <= i <= |ids|
        invariant AfterScan(State(), ids[i..], acks, owner, leaseSpan, maxAge)
                  == AfterScan(old(State()), ids, acks, owner, leaseSpan, maxAge)
      {
        var id := ids[i];
        assert ids[i..][0] == id && ids[i..][1..] == ids[i + 1..];
        var leased := AcquireLease(id);
        if leased {
          var result := ProcessOne(id, acks(id));
          ReleaseLease(id);
          if result.Raised? {
            return true;
          }
        }
        i := i + 1;
      }
      raised := false;
    }
  }

  lemma RetryPutsOff(n: int)
    ensures forall seconds | PutsOff(n, seconds) :: n >= 1 && Delay(n) == seconds * 1000
  {
    forall seconds | PutsOff(n, seconds) ensures n >= 1 && Delay(n) == seconds * 1000 { DelayIs(n, seconds); }
  }

  // ---------- One alert's keys ----------

  datatype Maybe<+T> = Nothing | Just(value: T)

  /** The keys of one alert. */
  datatype View = View(pending: Maybe<Entry>, lease: Maybe<Lease>, attempts: Maybe<Counter>, next: Maybe<Counter>,
                       now: int)

  function At<V>(m: map<AlertId, V>, id: AlertId): Maybe<V> { if id in m then Just(m[id]) else Nothing }

  function Of(k: Keys, id: AlertId): View {
    View(At(k.pending, id), At(k.lease, id), At(k.attempts, id), At(k.next, id), k.now)
  }

  /** Processing one alert touches no other alert's keys and is decided by its own. */
  lemma ProcessIsLocal(k: Keys, id: AlertId, ok: bool, age: Span, other: AlertId)
    requires other != id
    ensures Of(AfterProcess(k, id, ok, age).keys, other) == Of(k, other)
  {
  }

  lemma VisitIsLocal(k: Keys, id: AlertId, ok: bool, o: Owner, span: Span, age: Span, other: AlertId)
    requires other != id
    ensures Of(AfterVisit(k, id, ok, o, span, age).keys, other) == Of(k, other)
  {
    ProcessIsLocal(k.Leased(id, o, span), id, ok, age, other);
  }

  datatype Seen = Seen(view: View, result: Result)

  /** What processing does to the processed alert's keys. */
  function ProcessView(v: View, ok: bool, age: Span): Seen {
    if v.pending.Nothing? then Seen(v, Absent)
    else if v.pending.value.kind.Corrupt? then Seen(v.(pending := Nothing), Discarded)
    else
      var n := (if v.attempts.Just? then v.attempts.value.value else 0) + 1;
      var v1 := v.(attempts := Just(Counter(n, Expires(v.now + age))));
      if v.next.Just? && v.now < v.next.value.value then Seen(v1, Skipped)
      else if v.pending.value.kind.NoSubject? then Seen(v1, Raised)
      else if ok then Seen(View(Nothing, Nothing, Nothing, v.next, v.now), Published)
      else if n >= |BACKOFF| then Seen(View(Nothing, v.lease, Nothing, Nothing, v.now), GaveUp)
      else Seen(v1.(next := Just(Counter(v.now + (if n >= 1 then Delay(n) else 0), Expires(v.now + age)))), Retry)
  }

  lemma ProcessIsDecided(k: Keys, id: AlertId, ok: bool, age: Span)
    ensures Seen(Of(AfterProcess(k, id, ok, age).keys, id), AfterProcess(k, id, ok, age).result)
            == ProcessView(Of(k, id), ok, age)
  {
    if id in k.pending && !k.pending[id].kind.Corrupt? {
      var k1 := k.Incremented(id).Renewed(id, age);
      assert Of(k1, id) == Of(k, id).(attempts := Just(Counter(k.Attempts(id) + 1, Expires(k.now + age))));
      assert k1.TooSoon(id) <==> k.TooSoon(id);
    }
  }

  /** After a failure counted n the alert is passed over until exactly 5, 30, 300, 1800, 3600, 14400 or 28800
      seconds have gone by, and then tried again. */
  lemma RetryDueIff(k: Keys, id: AlertId, age: Span, seconds: int, d: nat, ok: bool)
    requires AfterProcess(k, id, false, age).result == Retry && age > 28_800_000
    requires var k1 := AfterProcess(k, id, false, age).keys;
             PutsOff(k1.Attempts(id), seconds) && id in k1.Advance(d).pending
    ensures var k1 := AfterProcess(k, id, false, age).keys;
            AfterProcess(k1.Advance(d), id, ok, age).result == Skipped <==> d < seconds * 1000
  {
    var k1 := AfterProcess(k, id, false, age).keys;
    DelayIs(k1.Attempts(id), seconds);
    assert id in k1.next && k1.next[id] == Counter(k.now + seconds * 1000, Expires(k.now + age));
    var k2 := k1.Advance(d).Incremented(id).Renewed(id, age);
    assert k2.TooSoon(id) <==> d < seconds * 1000;
  }

  lemma VisitIsDecided(k: Keys, l: Keys, id: AlertId, ok: bool, o: Owner, span: Span, age: Span)
    requires Of(k, id) == Of(l, id)
    ensures AfterVisit(k, id, ok, o, span, age).result == AfterVisit(l, id, ok, o, span, age).result
    ensures Of(AfterVisit(k, id, ok, o, span, age).keys, id) == Of(AfterVisit(l, id, ok, o, span, age).keys, id)
  {
    assert At(k.lease, id) == At(l.lease, id);
    if id !in k.lease {
      var k1, l1 := k.Leased(id, o, span), l.Leased(id, o, span);
      assert Of(k1, id) == Of(k, id).(lease := Just(Lease(o, k.now + span)));
      assert Of(l1, id) == Of(l, id).(lease := Just(Lease(o, l.now + span)));
      ProcessIsDecided(k1, id, ok, age);
      ProcessIsDecided(l1, id, ok, age);
      ReleaseIsDecided(AfterProcess(k1, id, ok, age).keys, AfterProcess(l1, id, ok, age).keys, id, o);
    }
  }

  lemma ReleaseIsDecided(k: Keys, l: Keys, id: AlertId, o: Owner)
    requires Of(k, id) == Of(l, id)
    ensures Of(k.Released(id, o), id) == Of(l.Released(id, o), id)
  {
    assert At(k.lease, id) == At(l.lease, id);
  }

  // ---------- What a scan does ----------

  lemma {:induction false} ScanIsLocal(
      k: Keys, ids: seq<AlertId>, acks: AlertId -> bool, o: Owner, span: Span, age: Span, other: AlertId)
    requires other !in ids
    ensures Of(AfterScan(k, ids, acks, o, span, age).keys, other) == Of(k, other)
    decreases |ids|
  {
    if ids != [] {
      VisitIsLocal(k, ids[0], acks(ids[0]), o, span, age, other);
      var out := AfterVisit(k, ids[0], acks(ids[0]), o, span, age);
      if !out.result.Raised? {
        ScanIsLocal(out.keys, ids[1..], acks, o, span, age, other);
      }
    }
  }

  /** Would raise if visited: it has no subject and is neither leased nor backing off. */
  predicate Raises(v: View) {
    && v.pending.Just? && v.pending.value.kind.NoSubject? && v.lease.Nothing?
    && (v.next.Just? ==> v.now >= v.next.value.value)
  }

  lemma VisitRaises(k: Keys, id: AlertId, ok: bool, o: Owner, span: Span, age: Span)
    ensures AfterVisit(k, id, ok, o, span, age).result.Raised? <==> Raises(Of(k, id))
  {
  }

  ghost predicate Raiseless(k: Keys, ids: seq<AlertId>) { forall id <- ids :: !Raises(Of(k, id)) }

  /** A scan of distinct alerts visits each alert as if alone up to the first that would raise, and
      leaves every alert after that one as it was. */
  lemma {:induction false} ScanStopsAtFirstRaise(
      k: Keys, ids: seq<AlertId>, acks: AlertId -> bool, o: Owner, span: Span, age: Span, j: nat)
    requires forall i, j :: 0 <= i < j < |ids| ==> ids[i] != ids[j]
    requires j < |ids|
    ensures var end, id := AfterScan(k, ids, acks, o, span, age).keys, ids[j];
            Of(end, id) == if Raiseless(k, ids[..j]) then Of(AfterVisit(k, id, acks(id), o, span, age).keys, id)
                           else Of(k, id)
    decreases |ids|
  {
    var id, rest, head := ids[j], ids[1..], ids[0];
    var out := AfterVisit(k, head, acks(head), o, span, age);
    VisitRaises(k, head, acks(head), o, span, age);
    if j == 0 {
      if !out.result.Raised? { ScanIsLocal(out.keys, rest, acks, o, span, age, head); }
    } else {
      VisitIsLocal(k, head, acks(head), o, span, age, id);
      assert head in ids[..j];
      if !out.result.Raised? {
        ScanStopsAtFirstRaise(out.keys, rest, acks, o, span, age, j - 1);
        RaiselessTail(k, out.keys, ids, acks, o, span, age, j);
        VisitIsDecided(k, out.keys, id, acks(id), o, span, age);
      }
    }
  }

  lemma RaiselessTail(
      k: Keys, l: Keys, ids: seq<AlertId>, acks: AlertId -> bool, o: Owner, span: Span, age: Span, j: nat)
    requires forall i, j :: 0 <= i < j < |ids| ==> ids[i] != ids[j]
    requires 0 < j < |ids| && l == AfterVisit(k, ids[0], acks(ids[0]), o, span, age).keys && !Raises(Of(k, ids[0]))
    ensures Raiseless(k, ids[..j]) <==> Raiseless(l, ids[1..][..j - 1])
  {
    forall i | 0 < i < j ensures Of(l, ids[i]) == Of(k, ids[i]) {
      VisitIsLocal(k, ids[0], acks(ids[0]), o, span, age, ids[i]);
    }
    assert ids[..j] == [ids[0]] + ids[1..][..j - 1];
    forall x <- ids[1..][..j - 1] ensures Of(l, x) == Of(k, x) {
      var i :| 0 <= i < j - 1 && ids[1..][i] == x;
      assert ids[i + 1] == x;
    }
  }
}
