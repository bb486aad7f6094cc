/** The Redis keys of the ingest write-ahead log. Times are integer clock ticks, shared by Redis and
    the processes; one second is SECOND ticks. */
module WalStore {
  type AlertId = string
  type Owner = string
  type Span = t: int | t > 0 witness 1

  const SECOND: int := 1000

  /** Seconds to wait after the k-th attempt, for k = 1, 2, ... */
  const BACKOFF: seq<int> := [5, 30, 300, 1800, 3600, 14400, 28800]

  /** What a WAL value turns out to be when read back. */
  datatype Kind =
    | Good      // JSON with a subject
    | NoSubject // JSON the subject resolver raises on
    | Corrupt   // not JSON

  /** A pending value; version numbers the write that stored it. */
  datatype Entry = Entry(version: nat, kind: Kind, exp: int)

  datatype Lease = Lease(owner: Owner, exp: int)

  datatype Expiry = Never | Expires(at: int)
  {
    predicate After(t: int) { Never? || at > t }
  }

  datatype Counter = Counter(value: int, exp: Expiry)

  datatype Keys = Keys(
    pending: map<AlertId, Entry>,
    lease: map<AlertId, Lease>,
    attempts: map<AlertId, Counter>,
    next: map<AlertId, Counter>,
    now: int)
  {
    function Put(id: AlertId, e: Entry): Keys { this.(pending := pending[id := e]) }

    /** mark_published: one DEL of three keys. */
    function Published(id: AlertId): Keys {
      this.(pending := pending - {id}, lease := lease - {id}, attempts := attempts - {id})
    }

    /** The cleanup of _move_to_dlq: one DEL of three keys. */
    function GivenUp(id: AlertId): Keys {
      this.(pending := pending - {id}, attempts := attempts - {id}, next := next - {id})
    }

    function Dropped(id: AlertId): Keys { this.(pending := pending - {id}) }

    function Leased(id: AlertId, o: Owner, span: Span): Keys { this.(lease := lease[id := Lease(o, now + span)]) }

    /** The Lua script of _release_lease. */
    function Released(id: AlertId, o: Owner): Keys {
      if id in lease && lease[id].owner == o then this.(lease := lease - {id}) else this
    }

    function Attempts(id: AlertId): int { if id in attempts then attempts[id].value else 0 }

    /** INCR keeps a key's time to live and gives a new key none. */
    function Incremented(id: AlertId): Keys {
      this.(attempts := attempts[id := Counter(Attempts(id) + 1, if id in attempts then attempts[id].exp else Never)])
    }

    function Renewed(id: AlertId, age: Span): Keys {
      if id in attempts then this.(attempts := attempts[id := attempts[id].(exp := Expires(now + age))]) else this
    }

    function Scheduled(id: AlertId, at: int, age: Span): Keys {
      this.(next := next[id := Counter(at, Expires(now + age))])
    }

    predicate TooSoon(id: AlertId) { id in next && now < next[id].value }

    function Advance(d: nat): Keys {
      var t := now + d;
      Keys(map id | id in pending && pending[id].exp > t :: pending[id],
           map id | id in lease && lease[id].exp > t :: lease[id],
           map id | id in attempts && attempts[id].exp.After(t) :: attempts[id],
           map id | id in next && next[id].exp.After(t) :: next[id],
           t)
    }
  }

  const EMPTY := Keys(map[], map[], map[], map[], 0)

  function Min(a: int, b: int): int { if a <= b then a else b }

  /** The delay scheduled after a failed publish at counter n. */
  function Delay(n: int): int
    requires n >= 1
  {
    BACKOFF[Min(n - 1, |BACKOFF| - 1)] * SECOND
  }

  /** A key set to live for a span is there for exactly that long. */
  lemma KeysLive(k: Keys, id: AlertId, version: nat, kind: Kind, o: Owner, at: int, span: Span, d: nat)
    ensures id in k.Put(id, Entry(version, kind, k.now + span)).Advance(d).pending <==> d < span
    ensures id in k.Leased(id, o, span).Advance(d).lease <==> d < span
    ensures id in k.Incremented(id).Renewed(id, span).Advance(d).attempts <==> d < span
    ensures id in k.Scheduled(id, at, span).Advance(d).next <==> d < span
    ensures id !in k.attempts ==> id in k.Incremented(id).Advance(d).attempts
  {
    Survivors(k.Put(id, Entry(version, kind, k.now + span)), id, d);
    Survivors(k.Leased(id, o, span), id, d);
    Survivors(k.Incremented(id).Renewed(id, span), id, d);
    Survivors(k.Scheduled(id, at, span), id, d);
    Survivors(k.Incremented(id), id, d);
  }

  /** Which keys are left after d. */
  lemma Survivors(k: Keys, id: AlertId, d: nat)
    ensures id in k.Advance(d).pending <==> id in k.pending && k.now + d < k.pending[id].exp
    ensures id in k.Advance(d).lease <==> id in k.lease && k.now + d < k.lease[id].exp
    ensures id in k.Advance(d).attempts <==> id in k.attempts && k.attempts[id].exp.After(k.now + d)
    ensures id in k.Advance(d).next <==> id in k.next && k.next[id].exp.After(k.now + d)
  {
  }

  /** The schedule, failure by failure: how many seconds the n-th failed publish puts the next one off. */
  predicate PutsOff(n: int, seconds: int) {
    || (n == 1 && seconds == 5)
    || (n == 2 && seconds == 30)
    || (n == 3 && seconds == 300)
    || (n == 4 && seconds == 1_800)
    || (n == 5 && seconds == 3_600)
    || (n == 6 && seconds == 14_400)
    || (n >= 7 && seconds == 28_800)
  }

  lemma DelayIs(n: int, seconds: int)
    requires PutsOff(n, seconds)
    ensures n >= 1 && Delay(n) == seconds * 1000
  {
  }

  lemma DelayIsSome(n: int)
    requires n >= 1
    ensures PutsOff(n, BACKOFF[Min(n - 1, 6)])
  {
  }

  // ---------- Key strings ----------

  datatype Part = PendingPart | LeasePart | AttemptsPart | NextPart

  function KeyText(p: Part, id: AlertId): string {
    match p
    case PendingPart => "pending_alert:" + id
    case LeasePart => "pending_alert_lease:" + id
    case AttemptsPart => "pending_alert_attempts:" + id
    case NextPart => "pending_alert_attempts:" + id + ":next"
  }

  /** The four maps are four families of keys, except that the next key of one alert is the attempts key
      of an alert whose id is the first one's with ":next" after it. */
  lemma KeysEqualIff(p: Part, x: AlertId, q: Part, y: AlertId)
    ensures KeyText(p, x) == KeyText(q, y)
            <==> || (p == q && x == y)
                 || (p == NextPart && q == AttemptsPart && y == x + ":next")
                 || (p == AttemptsPart && q == NextPart && x == y + ":next")
  {
    var s, t := KeyText(p, x), KeyText(q, y);
    assert "pending_alert:"[13] == ':' && "pending_alert_lease:"[13] == '_' && "pending_alert_attempts:"[13] == '_';
    assert "pending_alert_lease:"[14] == 'l' && "pending_alert_attempts:"[14] == 'a';
    assert s[13] == (if p.PendingPart? then ':' else '_') && t[13] == (if q.PendingPart? then ':' else '_');
    if !p.PendingPart? && !q.PendingPart? {
      assert s[14] == (if p.LeasePart? then 'l' else 'a') && t[14] == (if q.LeasePart? then 'l' else 'a');
    }
    TailText(p, x);
    TailText(q, y);
    var u, v := Tail(p, x), Tail(q, y);
    if p == q == NextPart { assert u[..|x|] == x && v[..|y|] == y; }
  }

  function Head(p: Part): string {
    match p
    case PendingPart => "pending_alert:"
    case LeasePart => "pending_alert_lease:"
    case _ => "pending_alert_attempts:"
  }

  function Tail(p: Part, id: AlertId): string { if p.NextPart? then id + ":next" else id }

  lemma TailText(p: Part, id: AlertId)
    ensures KeyText(p, id) == Head(p) + Tail(p, id) && KeyText(p, id)[|Head(p)|..] == Tail(p, id)
  {
    assert (Head(p) + Tail(p, id))[|Head(p)|..] == Tail(p, id);
    if p.NextPart? { assert "pending_alert_attempts:" + id + ":next" == "pending_alert_attempts:" + (id + ":next"); }
  }
}
