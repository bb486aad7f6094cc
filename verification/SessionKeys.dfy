/** How long the keys of interleaved sessions live: from the command that sets them, with times as
    numbers, until ttl later or until a command that takes them. */
module SessionKeys {
  import opened RefreshStore
  import opened SessionProtocol

  // ---------- Refresh keys ----------

  /** The commands that set a refresh key: a login's last, and a rotation's last. */
  predicate Sets(s: State, step: Step, k: Key) {
    match step
    case StepLogin(p) => p in s.logins && s.logins[p].at.SetRefresh? && k == Key(s.logins[p].family, s.logins[p].jti)
    case StepRotation(p, _, _) =>
      && p in s.rotations && s.rotations[p].at.PutRefresh?
      && k == Key(s.rotations[p].family, s.rotations[p].at.record.jti)
    case _ => false
  }

  /** The commands that take one: a rotation presenting it, and a burn whose scan returned it. */
  predicate Takes(s: State, step: Step, k: Key) {
    match step
    case StepRotation(p, _, _) =>
      p in s.rotations && s.rotations[p].at.DelRefresh? && k == Key(s.rotations[p].family, s.rotations[p].jti)
    case StepBurn(p, _, _) => p in s.burns && s.burns[p].at.Deleting? && k in s.burns[p].at.batch
    case _ => false
  }

  /** What a step does to one key. */
  predicate Moves(s: State, step: Step, t: State, k: Key, ttl: Ttl) {
    if Sets(s, step, k) then k in t.store.refresh && t.store.refresh[k] == s.store.now + ttl
    else if Takes(s, step, k) then k !in t.store.refresh
    else if k in s.store.refresh && t.store.now < s.store.refresh[k]
    then k in t.store.refresh && t.store.refresh[k] == s.store.refresh[k]
    else step.Tick? || k !in s.store.refresh ==> k !in t.store.refresh
  }

  lemma LoginMoves(s: State, p: nat, k: Key, ttl: Ttl)
    requires p in s.logins
    ensures Moves(s, StepLogin(p), StepLoginAt(s, p, ttl), k, ttl)
  {
  }

  lemma RotationMoves(s: State, p: nat, n: Id, c: nat, k: Key, ttl: Ttl)
    requires p in s.rotations
    ensures Moves(s, StepRotation(p, n, c), StepRotationAt(s, p, n, c, ttl), k, ttl)
  {
    RotationStore(s, p, n, c, ttl);
  }

  /** The keys and the clock a rotation's command leaves. */
  lemma RotationStore(s: State, p: nat, n: Id, c: nat, ttl: Ttl)
    requires p in s.rotations
    ensures var r, t := s.rotations[p], StepRotationAt(s, p, n, c, ttl);
            && t.store.index == s.store.index && t.store.now == s.store.now
            && t.store.refresh ==
                 if r.at.DelRefresh? then s.store.refresh - {Key(r.family, r.jti)}
                 else if r.at.PutRefresh? then s.store.refresh[Key(r.family, r.at.record.jti) := s.store.now + ttl]
                 else s.store.refresh
  {
    match s.rotations[p].at
    case DelRefresh =>
    case PutRefresh(_, _) =>
    case _ =>
  }

  lemma BurnMoves(s: State, p: nat, batch: set<Key>, d: bool, k: Key, ttl: Ttl)
    requires p in s.burns
    ensures Moves(s, StepBurn(p, batch, d), StepBurnAt(s, p, batch, d), k, ttl)
  {
  }

  lemma StepMoves(s: State, step: Step, k: Key, ttl: Ttl)
    requires Enabled(s, step)
    ensures Moves(s, step, Apply(s, step, ttl), k, ttl)
  {
    match step
    case StepLogin(p) => LoginMoves(s, p, k, ttl);
    case StepRotation(p, n, c) => RotationMoves(s, p, n, c, k, ttl);
    case StepBurn(p, batch, d) => BurnMoves(s, p, batch, d, k, ttl);
    case _ =>
  }

  /** No step of the run sets or takes the key. */
  predicate Unmoved(s: State, run: seq<Step>, k: Key, ttl: Ttl)
    requires Legal(s, run, ttl)
    decreases |run|
  {
    run == [] ||
    (!Sets(s, run[0], k) && !Takes(s, run[0], k) && Unmoved(Apply(s, run[0], ttl), run[1..], k, ttl))
  }

  /** The key lives until e, or its time has come. */
  predicate Until(s: State, k: Key, e: int) {
    if s.store.now < e then k in s.store.refresh && s.store.refresh[k] == e else k !in s.store.refresh
  }

  lemma {:induction false} RunUntil(s: State, run: seq<Step>, k: Key, e: int, ttl: Ttl)
    requires Legal(s, run, ttl) && Unmoved(s, run, k, ttl) && Until(s, k, e)
    ensures Until(Exec(s, run, ttl), k, e)
    decreases |run|
  {
    if run != [] {
      StepUntil(s, run[0], k, e, ttl);
      RunUntil(Apply(s, run[0], ttl), run[1..], k, e, ttl);
    }
  }

  lemma StepUntil(s: State, step: Step, k: Key, e: int, ttl: Ttl)
    requires Enabled(s, step) && !Sets(s, step, k) && !Takes(s, step, k) && Until(s, k, e)
    ensures Until(Apply(s, step, ttl), k, e)
  {
    StepMoves(s, step, k, ttl);
    if !step.Tick? { OnlyTicks(s, step, ttl); }
  }

  lemma OnlyTicks(s: State, step: Step, ttl: Ttl)
    requires Enabled(s, step) && !step.Tick?
    ensures Apply(s, step, ttl).store.now == s.store.now
  {
    match step
    case StepRotation(p, n, c) => RotationStore(s, p, n, c, ttl);
    case _ =>
  }

  /** Whatever interleaves, a refresh key that a login or a rotation has set is there for exactly ttl, up
      to a rotation that presents it or a burn whose scan returns it. */
  lemma TokenLives(s: State, step: Step, run: seq<Step>, k: Key, ttl: Ttl)
    requires Enabled(s, step) && Sets(s, step, k)
    requires var t := Apply(s, step, ttl); Legal(t, run, ttl) && Unmoved(t, run, k, ttl)
    ensures var end := Exec(Apply(s, step, ttl), run, ttl);
            k in end.store.refresh <==> end.store.now < s.store.now + ttl
  {
    StepMoves(s, step, k, ttl);
    RunUntil(Apply(s, step, ttl), run, k, s.store.now + ttl, ttl);
  }

  // ---------- The index ----------

  predicate Indexes(s: State, step: Step, f: Id) {
    step.StepLogin? && step.p in s.logins && s.logins[step.p].at.SetIndex? && s.logins[step.p].family == f
  }

  predicate Unindexes(s: State, step: Step, f: Id) {
    step.StepBurn? && step.p in s.burns && s.burns[step.p].at.DelIndex? && s.burns[step.p].family == f
  }

  predicate IndexMoves(s: State, step: Step, t: State, f: Id, ttl: Ttl) {
    if Indexes(s, step, f) then f in t.store.index && t.store.index[f].exp == s.store.now + ttl
    else if Unindexes(s, step, f) then f !in t.store.index
    else if f in s.store.index && t.store.now < s.store.index[f].exp
    then f in t.store.index && t.store.index[f] == s.store.index[f]
    else step.Tick? || f !in s.store.index ==> f !in t.store.index
  }

  lemma StepIndex(s: State, step: Step, f: Id, ttl: Ttl)
    requires Enabled(s, step)
    ensures IndexMoves(s, step, Apply(s, step, ttl), f, ttl)
  {
    match step
    case StepRotation(p, n, c) => RotationStore(s, p, n, c, ttl);
    case StepBurn(p, batch, d) => BurnIndex(s, p, batch, d, f, ttl);
    case StepLogin(p) => LoginIndex(s, p, f, ttl);
    case _ =>
  }

  lemma LoginIndex(s: State, p: nat, f: Id, ttl: Ttl)
    requires p in s.logins
    ensures IndexMoves(s, StepLogin(p), StepLoginAt(s, p, ttl), f, ttl)
  {
  }

  lemma BurnIndex(s: State, p: nat, batch: set<Key>, d: bool, f: Id, ttl: Ttl)
    requires p in s.burns
    ensures IndexMoves(s, StepBurn(p, batch, d), StepBurnAt(s, p, batch, d), f, ttl)
  {
  }

  predicate IndexUnmoved(s: State, run: seq<Step>, f: Id, ttl: Ttl)
    requires Legal(s, run, ttl)
    decreases |run|
  {
    run == [] ||
    (!Indexes(s, run[0], f) && !Unindexes(s, run[0], f) && IndexUnmoved(Apply(s, run[0], ttl), run[1..], f, ttl))
  }

  predicate IndexUntil(s: State, f: Id, e: int) {
    if s.store.now < e then f in s.store.index && s.store.index[f].exp == e else f !in s.store.index
  }

  lemma {:induction false} RunIndexUntil(s: State, run: seq<Step>, f: Id, e: int, ttl: Ttl)
    requires Legal(s, run, ttl) && IndexUnmoved(s, run, f, ttl) && IndexUntil(s, f, e)
    ensures IndexUntil(Exec(s, run, ttl), f, e)
    decreases |run|
  {
    if run != [] {
      StepIndexUntil(s, run[0], f, e, ttl);
      RunIndexUntil(Apply(s, run[0], ttl), run[1..], f, e, ttl);
    }
  }

  lemma StepIndexUntil(s: State, step: Step, f: Id, e: int, ttl: Ttl)
    requires Enabled(s, step) && !Indexes(s, step, f) && !Unindexes(s, step, f) && IndexUntil(s, f, e)
    ensures IndexUntil(Apply(s, step, ttl), f, e)
  {
    StepIndex(s, step, f, ttl);
    if !step.Tick? { OnlyTicks(s, step, ttl); }
  }

  /** And a family's index is there for exactly ttl from the login, up to a burn of the family. */
  lemma IndexLives(s: State, step: Step, run: seq<Step>, f: Id, ttl: Ttl)
    requires Enabled(s, step) && Indexes(s, step, f)
    requires var t := Apply(s, step, ttl); Legal(t, run, ttl) && IndexUnmoved(t, run, f, ttl)
    ensures var end := Exec(Apply(s, step, ttl), run, ttl);
            f in end.store.index <==> end.store.now < s.store.now + ttl
  {
    StepIndex(s, step, f, ttl);
    RunIndexUntil(Apply(s, step, ttl), run, f, s.store.now + ttl, ttl);
  }
}
