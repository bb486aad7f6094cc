/** Ingest requests and any number of reconcilers over one write-ahead log, interleaved one Redis
    command or one broker call at a time, with lease and key expiry, failing commands, lost replies
    and crashes. */
module WalProtocol {
  import opened WalStore

  datatype At =
    | Get | Drop | Incr | Expire | CheckNext | Publish | Mark | SetNext | CallDlq | DelDlq | Release

  /** Commands that read or delete the pending value, that count the attempt, and the rest. */
  predicate Reading(at: At) { at.Get? || at.Drop? || at.Mark? || at.DelDlq? }

  predicate Counting(at: At) { at.Incr? || at.Expire? || at.CheckNext? }

  /** Commands with an effect of their own when Redis runs them and only the reply is lost; losing the
      reply of any other is like its success, or like its failure. */
  predicate Losable(at: At) { at.Incr? || at.Expire? || at.SetNext? }

  predicate Publishing(at: At) { at.Publish? || at.SetNext? || at.CallDlq? || at.Release? }

  /** A reconciler between acquiring a lease and releasing it. version, kind and n are what it has
      read; the rest is history: when it acquired, in which order, and how many mark_published calls
      for the alert had happened by then. */
  datatype Job = Job(id: AlertId, at: At, version: nat, kind: Kind, n: int, since: int, turn: nat, marks: nat)
  {
    predicate Read() { !at.Get? && !at.Release? }
  }

  datatype Option<+T> = None | Some(value: T)

  /** An ingest request after write_ahead: about to publish inline, or about to clear the log. It has
      no version if Redis refused its write, which write_ahead does not tell it. */
  datatype Ingest = Ingest(id: AlertId, version: Option<nat>, acked: bool)

  datatype Write = Write(id: AlertId, kind: Kind)

  datatype State = State(
    keys: Keys,
    jobs: map<Owner, Job>,
    ingests: map<nat, Ingest>,
    // history
    writes: seq<Write>,        // by version: every value the log has stored
    acked: set<nat>,           // versions the broker acknowledged under their alert id
    gaveUp: set<nat>,          // versions sent through _move_to_dlq
    delivered: set<nat>,       // versions the DLQ publisher accepted
    dropped: set<nat>,         // versions read back as corrupt JSON
    expired: set<nat>,         // versions that reached max_age
    replaced: set<nat>,        // versions overwritten by a later write of the same alert
    swept: map<nat, nat>,      // versions deleted by a process that was done with another version
    cleared: set<nat>,         // versions deleted by a request that stored nothing
    bareAcks: set<AlertId>,    // alerts the broker acknowledged for requests that stored nothing
    marks: map<AlertId, nat>,  // how often mark_published deleted the alert's keys
    turns: nat)                // leases acquired so far

  const INIT := State(EMPTY, map[], map[], [], {}, {}, {}, {}, {}, {}, map[], {}, {}, map[], 0)

  datatype Config = Config(maxAge: Span, leaseSpan: Span)

  datatype Step =
    | Tick(d: nat)
    | WriteAhead(i: nat, id: AlertId, kind: Kind, ok: bool)
    | IngestStep(i: nat, ok: bool)
    | Acquire(o: Owner, id: AlertId)
    | Work(o: Owner, ok: bool)
    | Unanswered(o: Owner)
    | Crash(o: Owner)
    | Abandon(i: nat)

  predicate Enabled(s: State, step: Step) {
    match step
    case Tick(_) => true
    case WriteAhead(i, _, _, _) => i !in s.ingests
    case IngestStep(i, _) => i in s.ingests
    case Acquire(o, id) => o !in s.jobs && id !in s.keys.lease
    case Work(o, _) => o in s.jobs
    case Unanswered(o) => o in s.jobs && Losable(s.jobs[o].at)
    case Crash(o) => o in s.jobs
    case Abandon(i) => i in s.ingests
  }

  function Marks(s: State, id: AlertId): nat { if id in s.marks then s.marks[id] else 0 }

  /** Removing id's pending value on account of version v: any other version there is swept away. */
  function Swept(s: State, id: AlertId, v: nat): map<nat, nat> {
    if id in s.keys.pending && s.keys.pending[id].version != v then s.swept[s.keys.pending[id].version := v]
    else s.swept
  }

  function Elapse(s: State, d: nat): State {
    s.(keys := s.keys.Advance(d),
       expired := s.expired + set id |
         id in s.keys.pending && id !in s.keys.Advance(d).pending :: s.keys.pending[id].version)
  }

  /** write_ahead whose SETEX Redis has run. */
  function Store(s: State, i: nat, id: AlertId, kind: Kind, age: Span): State {
    s.(keys := s.keys.Put(id, Entry(|s.writes|, kind, s.keys.now + age)),
       ingests := s.ingests[i := Ingest(id, Some(|s.writes|), false)],
       writes := s.writes + [Write(id, kind)],
       replaced := if id in s.keys.pending then s.replaced + {s.keys.pending[id].version} else s.replaced)
  }

  /** write_ahead that Redis refused: the request carries on with nothing in the log. */
  function StoreNothing(s: State, i: nat, id: AlertId): State {
    s.(ingests := s.ingests[i := Ingest(id, None, false)])
  }

  /** DEL of pending, lease and attempts on account of version v. */
  function Clear(s: State, id: AlertId, v: nat): State {
    s.(keys := s.keys.Published(id), swept := Swept(s, id, v), marks := s.marks[id := Marks(s, id) + 1])
  }

  /** The same DEL by a request that stored nothing. */
  function ClearBare(s: State, id: AlertId): State {
    s.(keys := s.keys.Published(id), marks := s.marks[id := Marks(s, id) + 1],
       cleared := if id in s.keys.pending then s.cleared + {s.keys.pending[id].version} else s.cleared)
  }

  /** The inline publish is acknowledged. */
  function InlineAcked(s: State, i: nat): State
    requires i in s.ingests
  {
    var g := s.ingests[i];
    s.(ingests := s.ingests[i := g.(acked := true)],
       acked := if g.version.Some? then s.acked + {g.version.value} else s.acked,
       bareAcks := if g.version.None? then s.bareAcks + {g.id} else s.bareAcks)
  }

  /** mark_published of an ingest; the call swallows a failing Redis. */
  function InlineCleared(s: State, i: nat, ok: bool): State
    requires i in s.ingests
  {
    var g := s.ingests[i];
    var t := if !ok then s else if g.version.Some? then Clear(s, g.id, g.version.value) else ClearBare(s, g.id);
    t.(ingests := s.ingests - {i})
  }

  function StepIngest(s: State, i: nat, ok: bool): State
    requires i in s.ingests
  {
    if s.ingests[i].acked then InlineCleared(s, i, ok)
    else if ok then InlineAcked(s, i)
    else s.(ingests := s.ingests - {i})
  }

  function Take(s: State, o: Owner, id: AlertId, span: Span): State {
    s.(keys := s.keys.Leased(id, o, span),
       jobs := s.jobs[o := Job(id, Get, 0, Good, 0, s.keys.now, s.turns, Marks(s, id))],
       turns := s.turns + 1)
  }

  function Goto(s: State, o: Owner, at: At): State
    requires o in s.jobs
  {
    s.(jobs := s.jobs[o := s.jobs[o].(at := at)])
  }

  function SendGet(s: State, o: Owner): State
    requires o in s.jobs
  {
    var j := s.jobs[o];
    if j.id !in s.keys.pending then Goto(s, o, Release)
    else
      var e := s.keys.pending[j.id];
      var corrupt := e.kind.Corrupt?;
      s.(jobs := s.jobs[o := j.(at := if corrupt then Drop else Incr, version := e.version, kind := e.kind)],
         dropped := if corrupt then s.dropped + {e.version} else s.dropped)
  }

  function SendDrop(s: State, o: Owner): State
    requires o in s.jobs
  {
    var j := s.jobs[o];
    s.(keys := s.keys.Dropped(j.id), swept := Swept(s, j.id, j.version), jobs := s.jobs[o := j.(at := Release)])
  }

  /** A failing INCR or EXPIRE counts as attempt 1. */
  function SendIncr(s: State, o: Owner, ok: bool): State
    requires o in s.jobs
  {
    var j := s.jobs[o];
    if ok then
      s.(keys := s.keys.Incremented(j.id), jobs := s.jobs[o := j.(at := Expire, n := s.keys.Attempts(j.id) + 1)])
    else s.(jobs := s.jobs[o := j.(at := CheckNext, n := 1)])
  }

  function SendExpire(s: State, o: Owner, ok: bool, age: Span): State
    requires o in s.jobs
  {
    var j := s.jobs[o];
    if ok then s.(keys := s.keys.Renewed(j.id, age), jobs := s.jobs[o := j.(at := CheckNext)])
    else s.(jobs := s.jobs[o := j.(at := CheckNext, n := 1)])
  }

  function SendPublish(s: State, o: Owner, ok: bool): State
    requires o in s.jobs
  {
    var j := s.jobs[o];
    s.(jobs := s.jobs[o := j.(at := if ok then Mark else SetNext)],
       acked := if ok then s.acked + {j.version} else s.acked)
  }

  function SendMark(s: State, o: Owner, ok: bool): State
    requires o in s.jobs
  {
    Goto(if ok then Clear(s, s.jobs[o].id, s.jobs[o].version) else s, o, Release)
  }

  function SendSetNext(s: State, o: Owner, age: Span): State
    requires o in s.jobs
  {
    var j := s.jobs[o];
    var at := if j.n >= |BACKOFF| then CallDlq else Release;
    s.(keys := s.keys.Scheduled(j.id, Due(s.keys.now, j.n), age), jobs := s.jobs[o := j.(at := at)])
  }

  /** ok: a DLQ publisher is configured and did not raise. */
  function SendDlq(s: State, o: Owner, ok: bool): State
    requires o in s.jobs
  {
    var j := s.jobs[o];
    s.(jobs := s.jobs[o := j.(at := DelDlq)], gaveUp := s.gaveUp + {j.version},
       delivered := if ok then s.delivered + {j.version} else s.delivered)
  }

  function SendDelDlq(s: State, o: Owner, ok: bool): State
    requires o in s.jobs
  {
    var j := s.jobs[o];
    if ok then
      s.(keys := s.keys.GivenUp(j.id), swept := Swept(s, j.id, j.version), jobs := s.jobs[o := j.(at := Release)])
    else Goto(s, o, Release)
  }

  function SendRelease(s: State, o: Owner, ok: bool): State
    requires o in s.jobs
  {
    s.(keys := if ok then s.keys.Released(s.jobs[o].id, o) else s.keys, jobs := s.jobs - {o})
  }

  /** When a failure counted n lets the alert be tried again. */
  function Due(now: int, n: int): int { if n >= 1 then now + Delay(n) else now }

  /** Redis runs the job's command, and the job takes it to have failed. */
  function SendUnanswered(s: State, o: Owner, age: Span): State
    requires o in s.jobs && Losable(s.jobs[o].at)
  {
    var j := s.jobs[o];
    match j.at
    case Incr => s.(keys := s.keys.Incremented(j.id), jobs := s.jobs[o := j.(at := CheckNext, n := 1)])
    case Expire => s.(keys := s.keys.Renewed(j.id, age), jobs := s.jobs[o := j.(at := CheckNext, n := 1)])
    case SetNext =>
      s.(keys := s.keys.Scheduled(j.id, Due(s.keys.now, j.n), age), jobs := s.jobs[o := j.(at := Release)])
  }

  /** It counts or schedules, and moves only this job. */
  lemma UnansweredFrame(s: State, o: Owner, age: Span)
    requires o in s.jobs && Losable(s.jobs[o].at)
    ensures var s', j := SendUnanswered(s, o, age), s.jobs[o];
            && s' == s.(keys := s'.keys, jobs := s'.jobs)
            && s'.keys == s.keys.(attempts := s'.keys.attempts, next := s'.keys.next)
            && o in s'.jobs && s'.jobs == s.jobs[o := j.(at := s'.jobs[o].at, n := s'.jobs[o].n)]
            && s'.jobs[o].at == if j.at.SetNext? then Release else CheckNext
  {
  }

  /** The job's next call. ok is false when Redis raises (the exception runs the releasing finally,
      or is swallowed where the code swallows it) and when the broker does not acknowledge. */
  function StepJob(s: State, o: Owner, ok: bool, cfg: Config): State
    requires o in s.jobs
  {
    match s.jobs[o].at
    case Get => if ok then SendGet(s, o) else Goto(s, o, Release)
    case Drop => if ok then SendDrop(s, o) else Goto(s, o, Release)
    case Incr => SendIncr(s, o, ok)
    case Expire => SendExpire(s, o, ok, cfg.maxAge)
    case CheckNext =>
      // too soon, or the subject resolver raised: no publish this time
      if !ok || s.keys.TooSoon(s.jobs[o].id) || s.jobs[o].kind.NoSubject? then Goto(s, o, Release)
      else Goto(s, o, Publish)
    case Publish => SendPublish(s, o, ok)
    case Mark => SendMark(s, o, ok)
    case SetNext => if ok then SendSetNext(s, o, cfg.maxAge) else Goto(s, o, Release)
    case CallDlq => SendDlq(s, o, ok)
    case DelDlq => SendDelDlq(s, o, ok)
    case Release => SendRelease(s, o, ok)
  }

  /** A reply lost leaves Redis as the command's success does, and the job as its failure does. */
  lemma UnansweredIs(s: State, o: Owner, cfg: Config)
    requires o in s.jobs && Losable(s.jobs[o].at)
    ensures var t := SendUnanswered(s, o, cfg.maxAge);
            && t.keys == StepJob(s, o, true, cfg).keys
            && t.(keys := s.keys) == StepJob(s, o, false, cfg)
  {
  }

  function Apply(s: State, step: Step, cfg: Config): State
    requires Enabled(s, step)
  {
    match step
    case Tick(d) => Elapse(s, d)
    case WriteAhead(i, id, kind, ok) => if ok then Store(s, i, id, kind, cfg.maxAge) else StoreNothing(s, i, id)
    case IngestStep(i, ok) => StepIngest(s, i, ok)
    case Acquire(o, id) => Take(s, o, id, cfg.leaseSpan)
    case Work(o, ok) => StepJob(s, o, ok, cfg)
    case Unanswered(o) => SendUnanswered(s, o, cfg.maxAge)
    case Crash(o) => s.(jobs := s.jobs - {o})
    case Abandon(i) => s.(ingests := s.ingests - {i})
  }

  predicate Legal(s: State, run: seq<Step>, cfg: Config)
    decreases |run|
  {
    run == [] || (Enabled(s, run[0]) && Legal(Apply(s, run[0], cfg), run[1..], cfg))
  }

  function Exec(s: State, run: seq<Step>, cfg: Config): State
    requires Legal(s, run, cfg)
    decreases |run|
  {
    if run == [] then s else Exec(Apply(s, run[0], cfg), run[1..], cfg)
  }
}
