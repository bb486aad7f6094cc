/** One dispatched message from task creation to permit release (services/_runtime/triage_worker.py:
    _dispatch_one and handle_message), step by step. */
module WorkerJob {
  datatype Option<+T> = None | Some(value: T)

  datatype Phase = Queued | Cancelled | Failed | Done

  datatype Settlement = Ack | Nak | Term

  datatype Stage =
    | Created
    | Verifying
    | Numbering(phase: Phase)
    | Publishing(phase: Phase, number: nat)
    | Checking
    | Triaging
    | Settling(how: Settlement)
    | Settled
    | Released

  datatype Event = Event(phase: Phase, number: nat)

  /** settled, returned, log and acts are history: the calls made to the message, whether handle_message
      returned, the phase events published, and every action so far, with what it met. */
  datatype Job = Job(
    stage: Stage, alert: string, tenant: string,
    settled: seq<Settlement>, returned: bool, log: seq<Event>, acts: seq<Action>)

  const NEW := Job(Created, "", "", [], false, [], [])

  /** What verifying the token and parsing the body come to. */
  datatype Outcome = BadToken | Poison | Fine(alert: string, tenant: string) | Crash

  datatype Action =
    | Start(hasToken: bool)
    | Verify(outcome: Outcome)
    | Number(n: nat)
    | Skip
    | Publish
    | Check(cancelled: bool)
    | Triage(ok: bool)
    | Raise
    | Settle
    | Release

  predicate Can(j: Job, a: Action) {
    match a
    case Start(_) => j.stage == Created
    case Verify(_) => j.stage == Verifying
    case Number(_) => j.stage.Numbering? && j.tenant != ""
    case Skip => j.stage.Numbering? && j.tenant == ""
    case Publish => j.stage.Publishing?
    case Check(_) => j.stage == Checking
    case Triage(_) => j.stage == Triaging
    case Raise => j.stage.Numbering? || j.stage.Publishing? || j.stage == Checking || j.stage == Triaging
    case Settle => j.stage.Settling?
    case Release => j.stage == Settled
  }

  /** The step after a phase has been announced. */
  function After(j: Job, phase: Phase): Job {
    match phase
    case Queued => j.(stage := Checking)
    case Failed => j.(stage := Settling(Nak))
    case _ => j.(stage := Settling(Ack), returned := true)
  }

  function Act(j: Job, a: Action): Job
    requires Can(j, a)
  {
    Moved(j, a).(acts := j.acts + [a])
  }

  function Moved(j: Job, a: Action): Job
    requires Can(j, a)
  {
    match a
    case Start(hasToken) => j.(stage := if hasToken then Verifying else Settling(Term))
    case Verify(Fine(alert, tenant)) => j.(stage := Numbering(Queued), alert := alert, tenant := tenant)
    case Verify(Crash) => j.(stage := Settling(Nak))
    case Verify(_) => j.(stage := Settling(Term))
    case Number(n) => j.(stage := Publishing(j.stage.phase, n))
    case Skip => After(j, j.stage.phase)
    case Publish => After(j, j.stage.phase).(log := j.log + [Event(j.stage.phase, j.stage.number)])
    case Check(cancelled) => j.(stage := if cancelled then Numbering(Cancelled) else Triaging)
    case Triage(ok) => j.(stage := Numbering(if ok then Done else Failed))
    case Raise => j.(stage := Settling(Nak))
    case Settle => j.(stage := Settled, settled := j.settled + [j.stage.how])
    case Release => j.(stage := Released)
  }

  // ---------- What every job keeps ----------

  predicate Last(log: seq<Event>, phases: set<Phase>) { log != [] && log[|log| - 1].phase in phases }

  /** The phases published so far, by stage. */
  predicate LogFits(j: Job) {
    && |j.log| <= 2 && (j.stage.Publishing? ==> j.tenant != "")
    && (|j.log| >= 1 ==> j.log[0].phase == Queued)
    && (|j.log| == 2 ==> j.log[1].phase in {Cancelled, Failed, Done})
    && (j.stage in {Created, Verifying, Numbering(Queued)} ==> j.log == [])
    && (j.stage.Publishing? && j.stage.phase == Queued ==> j.log == [])
    && (Announced(j.stage) ==> |j.log| <= 1 && (j.tenant != "" ==> |j.log| == 1))
  }

  /** Between the queued phase and the last one. */
  predicate Announced(stage: Stage) {
    stage in {Checking, Triaging} || ((stage.Numbering? || stage.Publishing?) && stage.phase != Queued)
  }

  predicate SettledFits(j: Job) {
    && (j.stage in {Settled, Released} ==> |j.settled| == 1)
    && (j.stage !in {Settled, Released} ==> j.settled == [])
    && (Ack in j.settled || j.stage == Settling(Ack) ==> j.returned)
    && (j.returned ==>
          && j.stage in {Settling(Ack), Settled, Released}
          && (j.tenant != "" ==> Last(j.log, {Done, Cancelled})))
    && (j.returned && j.stage in {Settled, Released} ==> j.settled == [Ack])
    && (Last(j.log, {Failed}) ==> !j.returned)
  }

  predicate Fit(j: Job) { LogFits(j) && SettledFits(j) }

  lemma ActFits(j: Job, a: Action)
    requires Fit(j) && Can(j, a)
    ensures Fit(Act(j, a))
  {
    match a
    case Publish => assert j.log + [Event(j.stage.phase, j.stage.number)] != [];
    case _ =>
  }

  function Rank(stage: Stage): nat {
    match stage
    case Created => 12
    case Verifying => 11
    case Numbering(p) => if p == Queued then 10 else 6
    case Publishing(p, _) => if p == Queued then 9 else 5
    case Checking => 8
    case Triaging => 7
    case Settling(_) => 2
    case Settled => 1
    case Released => 0
  }

  /** Every action brings a job nearer its release, and until then some action is possible. */
  lemma JobProgresses(j: Job)
    ensures forall a | Can(j, a) :: Rank(Act(j, a).stage) < Rank(j.stage)
    ensures j.stage != Released <==> exists a :: Can(j, a)
  {
    if j.stage != Released {
      var a :=
        match j.stage
        case Created => Start(true)
        case Verifying => Verify(Crash)
        case Numbering(_) => if j.tenant == "" then Skip else Number(0)
        case Publishing(_, _) => Publish
        case Checking => Check(true)
        case Triaging => Triage(true)
        case Settling(_) => Settle
        case _ => Release;
      assert Can(j, a);
    }
  }

  // ---------- The numbers of one job ----------

  ghost predicate Numbered(j: Job, n: nat) {
    (exists e <- j.log :: e.number == n) || (j.stage.Publishing? && j.stage.number == n)
  }

  predicate Increasing(s: seq<nat>) { forall i, k :: 0 <= i < k < |s| ==> s[i] < s[k] }

  predicate LogIncreasing(j: Job) {
    && (forall i, k :: 0 <= i < k < |j.log| ==> j.log[i].number < j.log[k].number)
    && (j.stage.Publishing? ==> forall e <- j.log :: e.number < j.stage.number)
  }

  ghost predicate UpTo(j: Job, top: nat) { forall n: nat | Numbered(j, n) :: n <= top }

  // ---------- Settlement and phases, by what the job met ----------

  predicate Met(j: Job, a: Action) { a in j.acts }

  /** The triage ended, by a result or by a cancel seen before it began, and nothing raised. */
  predicate Finished(j: Job) { (Met(j, Check(true)) || Met(j, Triage(true))) && !Met(j, Raise) }

  /** The message could never be handled: no token, a bad one, or a body that cannot be parsed. */
  predicate Hopeless(j: Job) { Met(j, Start(false)) || Met(j, Verify(BadToken)) || Met(j, Verify(Poison)) }

  predicate Ended(j: Job) { Met(j, Check(true)) || Met(j, Triage(true)) || Met(j, Triage(false)) }

  /** What a job's stage says of what it has met. */
  predicate Remembers(j: Job) {
    match j.stage
    case Created => !Hopeless(j) && !Ended(j) && !Met(j, Raise)
    case Verifying => !Hopeless(j) && !Ended(j) && !Met(j, Raise)
    case Numbering(p) => !Hopeless(j) && !Met(j, Raise) && Announces(j, p)
    case Publishing(p, _) => !Hopeless(j) && !Met(j, Raise) && Announces(j, p)
    case Checking => !Hopeless(j) && !Ended(j) && !Met(j, Raise)
    case Triaging => !Hopeless(j) && !Ended(j) && !Met(j, Raise)
    case Settling(how) => Fitting(j, how)
    case _ => |j.settled| == 1 && Fitting(j, j.settled[0])
  }

  /** The phase about to be announced is the one that what has been met asks for. */
  predicate Announces(j: Job, p: Phase) {
    && (Met(j, Check(true)) <==> p == Cancelled)
    && (Met(j, Triage(true)) <==> p == Done)
    && (Met(j, Triage(false)) <==> p == Failed)
  }

  predicate Fitting(j: Job, how: Settlement) {
    && (how == Ack <==> Finished(j))
    && (how == Term <==> Hopeless(j))
  }

  /** Each published phase is the one that what was met asks for. */
  predicate Phased(j: Job) {
    && |j.log| <= 2
    && (|j.log| >= 1 ==> j.log[0].phase == Queued)
    && (|j.log| == 2 ==> Ended(j) && Announces(j, j.log[1].phase))
    && (|j.log| < 2 && Ended(j) && !Met(j, Raise) && j.tenant != "" ==> j.stage.Numbering? || j.stage.Publishing?)
  }

  /** It works on the alert and for the tenant that verifying the message gave. */
  ghost predicate Named(j: Job) {
    && (j.stage in {Created, Verifying} ==> forall o :: !Met(j, Verify(o)))
    && (forall x, t :: Met(j, Verify(Fine(x, t))) ==> j.alert == x && j.tenant == t)
  }

  predicate MetCheck(j: Job) { Met(j, Check(true)) || Met(j, Check(false)) }

  predicate MetTriage(j: Job) { Met(j, Triage(true)) || Met(j, Triage(false)) }

  /** Nothing is announced, checked or triaged before the message is verified, and nothing triaged unless
      the cancel flag was looked up and not set. */
  predicate Guarded(j: Job) {
    && (j.log != [] || MetCheck(j) || MetTriage(j)
        || !(j.stage.Created? || j.stage.Verifying? || j.stage.Settling? || j.stage.Settled? || j.stage.Released?) ==>
          Met(j, Verify(Fine(j.alert, j.tenant))))
    && (j.stage.Triaging? || MetTriage(j) ==> Met(j, Check(false)) && !Met(j, Check(true)))
    && (j.stage.Created? || j.stage.Verifying? ==> !MetCheck(j) && !MetTriage(j))
    && ((j.stage.Numbering? || j.stage.Publishing?) && j.stage.phase.Queued? ==> !MetCheck(j) && !MetTriage(j))
    && (j.stage.Checking? ==> !MetCheck(j) && !MetTriage(j))
    && (j.stage.Triaging? ==> !MetTriage(j))
  }

  lemma ActGuarded(j: Job, a: Action)
    requires LogFits(j) && Named(j) && Guarded(j) && Can(j, a)
    ensures Guarded(Act(j, a))
  {
    forall b: Action ensures Met(Act(j, a), b) <==> Met(j, b) || a == b { MetMore(j, a, b); }
  }

  lemma ActNamed(j: Job, a: Action)
    requires Named(j) && Can(j, a)
    ensures Named(Act(j, a))
  {
    forall b: Action ensures Met(Act(j, a), b) <==> Met(j, b) || a == b { MetMore(j, a, b); }
  }

  lemma MetMore(j: Job, a: Action, b: Action)
    requires Can(j, a)
    ensures Met(Act(j, a), b) <==> Met(j, b) || a == b
  {
  }

  lemma ActRemembers(j: Job, a: Action)
    requires SettledFits(j) && Remembers(j) && Can(j, a)
    ensures Remembers(Act(j, a))
  {
    forall b: Action ensures Met(Act(j, a), b) <==> Met(j, b) || a == b { MetMore(j, a, b); }
    if a == Publish || a == Skip { AfterRemembers(j, a); }
  }

  lemma AfterRemembers(j: Job, a: Action)
    requires SettledFits(j) && Remembers(j) && Can(j, a) && (a == Publish || a == Skip)
    ensures Remembers(Act(j, a))
  {
    forall b: Action ensures Met(Act(j, a), b) <==> Met(j, b) || a == b { MetMore(j, a, b); }
  }

  lemma ActPhases(j: Job, a: Action)
    requires LogFits(j) && Remembers(j) && Phased(j) && Can(j, a)
    ensures Phased(Act(j, a))
  {
    forall b: Action ensures Met(Act(j, a), b) <==> Met(j, b) || a == b { MetMore(j, a, b); }
  }
}
