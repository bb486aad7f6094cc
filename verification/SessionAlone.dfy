/** The interleaved rotation and the sequential call are the same program: a rotation that nobody
    interferes with leaves the store, and returns the outcome, that the sequential call does. */
module SessionAlone {
  import opened RefreshStore
  import opened SessionProtocol
  import SessionService

  /** What a rotation about to issue its next command will have done once it and its burn finish:
      the store, and the session it returns if it succeeds. */
  datatype Outlook = Outlook(store: Store, returned: Option<Record>)

  function OfAttempt(a: SessionService.Attempt): Outlook {
    Outlook(a.store, if a.result.Rotated? then Some(a.result.session) else None)
  }

  function AtSession(st: Store, r: Rotation, u: Id, newId: Id, ttl: Ttl): Outlook {
    if u !in st.session then Outlook(st, None)
    else if st.session[u].family != r.family || st.session[u].jti != r.jti then
      Outlook(SessionService.AfterBurn(st, r.family), None)
    else AtPut(st, r, u, st.session[u].(jti := newId), ttl)
  }

  function AtPut(st: Store, r: Rotation, u: Id, rec: Record, ttl: Ttl): Outlook {
    Outlook(st.SetSession(u, rec).SetRefresh(Key(r.family, rec.jti), ttl), Some(rec))
  }

  function OfRotation(st: Store, r: Rotation, newId: Id, ttl: Ttl): Outlook
    requires !r.at.AwaitBurn?
  {
    match r.at
    case DelRefresh => OfAttempt(SessionService.AfterRotation(st, Key(r.family, r.jti), newId, ttl))
    case GetIndex =>
      if r.family in st.index then AtSession(st, r, st.index[r.family].value, newId, ttl) else Outlook(st, None)
    case GetSession(u, _) => AtSession(st, r, u, newId, ttl)
    case PutSession(u, _, rec) => AtPut(st, r, u, rec, ttl)
    case PutRefresh(_, rec) => Outlook(st.SetRefresh(Key(r.family, rec.jti), ttl), Some(rec))
  }

  function OfBurn(st: Store, b: Burn): Store {
    if b.at.DelIndex? then SessionService.AfterBurn(st, b.family) else st.DelRefresh(st.BurnKeys(b.family))
  }

  /** Only rotation p and the burn c it may start are running, and c's scan has seen every key. */
  ghost predicate Alone(s: State, p: nat, c: nat) {
    && s.rotations.Keys <= {p} && s.burns.Keys <= {c}
    && (p in s.rotations && !s.rotations[p].at.AwaitBurn? ==> c !in s.burns)
    && (p in s.rotations && s.rotations[p].at.AwaitBurn? ==> s.rotations[p].at.child == c)
    && (c in s.burns && s.burns[c].at.Scanning? ==> s.store.BurnKeys(s.burns[c].family) <= s.burns[c].at.todo)
    && (c in s.burns && s.burns[c].at.Deleting? ==>
          && s.store.BurnKeys(s.burns[c].family) <= s.burns[c].at.todo
          && forall k <- s.burns[c].at.batch :: Hits(s.burns[c].family, k))
  }

  /** What the two will have done once both finish, given what p has returned so far. */
  function Final(s: State, p: nat, c: nat, done: Option<Record>, newId: Id, ttl: Ttl): Outlook {
    if p in s.rotations && !s.rotations[p].at.AwaitBurn? then OfRotation(s.store, s.rotations[p], newId, ttl)
    else if c in s.burns then Outlook(OfBurn(s.store, s.burns[c]), None)
    else Outlook(s.store, done)
  }

  /** What p has returned, going by the family's history. */
  function Returned(s: State, f: Id, before: nat): Option<Record> {
    var h := s.Recall(f);
    if |h.done| > before then Some(h.done[|h.done| - 1].session) else None
  }

  /** The step s to s' keeps what p and c will have done. */
  ghost predicate Same(s: State, s': State, p: nat, c: nat, f: Id, before: nat, newId: Id, ttl: Ttl) {
    && Alone(s', p, c)
    && (p in s'.rotations ==> s'.rotations[p].family == f)
    && (p in s'.rotations || c in s'.burns ==> |s'.Recall(f).done| == before)
    && Final(s', p, c, Returned(s', f, before), newId, ttl) == Final(s, p, c, Returned(s, f, before), newId, ttl)
  }

  ghost predicate Ready(s: State, p: nat, c: nat, f: Id, before: nat) {
    Alone(s, p, c) && p in s.rotations && s.rotations[p].family == f && |s.Recall(f).done| == before
  }

  lemma DelRefreshSame(s: State, p: nat, c: nat, f: Id, before: nat, newId: Id, ttl: Ttl)
    requires Ready(s, p, c, f, before) && s.rotations[p].at.DelRefresh?
    ensures Same(s, SendDelRefresh(s, p, c), p, c, f, before, newId, ttl)
  {
  }

  lemma GetIndexSame(s: State, p: nat, c: nat, f: Id, before: nat, newId: Id, ttl: Ttl)
    requires Ready(s, p, c, f, before) && s.rotations[p].at.GetIndex?
    ensures Same(s, SendGetIndex(s, p), p, c, f, before, newId, ttl)
  {
  }

  lemma GetSessionSame(s: State, p: nat, c: nat, f: Id, before: nat, newId: Id, ttl: Ttl)
    requires Ready(s, p, c, f, before) && s.rotations[p].at.GetSession?
    ensures Same(s, SendGetSession(s, p, newId, c), p, c, f, before, newId, ttl)
  {
    var r, session := s.rotations[p], s.store.session;
    if r.at.user in session && session[r.at.user].family == r.family && session[r.at.user].jti == r.jti {
      SessionHeldSame(s, p, c, f, before, newId, ttl);
    } else {
      SessionGoneSame(s, p, c, f, before, newId, ttl);
    }
  }

  lemma SessionHeldSame(s: State, p: nat, c: nat, f: Id, before: nat, newId: Id, ttl: Ttl)
    requires Ready(s, p, c, f, before) && s.rotations[p].at.GetSession? && s.rotations[p].at.user in s.store.session
    requires var r := s.store.session[s.rotations[p].at.user]; r.family == f && r.jti == s.rotations[p].jti
    ensures Same(s, SendGetSession(s, p, newId, c), p, c, f, before, newId, ttl)
  {
    assert SendGetSession(s, p, newId, c).burns == s.burns;
  }

  lemma SessionGoneSame(s: State, p: nat, c: nat, f: Id, before: nat, newId: Id, ttl: Ttl)
    requires Ready(s, p, c, f, before) && s.rotations[p].at.GetSession?
    requires s.rotations[p].at.user in s.store.session ==>
               var r := s.store.session[s.rotations[p].at.user]; r.family != f || r.jti != s.rotations[p].jti
    ensures Same(s, SendGetSession(s, p, newId, c), p, c, f, before, newId, ttl)
  {
    assert SendGetSession(s, p, newId, c).store == s.store && SendGetSession(s, p, newId, c).families == s.families;
  }

  lemma PutSessionSame(s: State, p: nat, c: nat, f: Id, before: nat, newId: Id, ttl: Ttl)
    requires Ready(s, p, c, f, before) && s.rotations[p].at.PutSession?
    ensures Same(s, SendPutSession(s, p), p, c, f, before, newId, ttl)
  {
  }

  lemma PutRefreshSame(s: State, p: nat, c: nat, f: Id, before: nat, newId: Id, ttl: Ttl)
    requires Ready(s, p, c, f, before) && s.rotations[p].at.PutRefresh?
    ensures Same(s, SendPutRefresh(s, p, ttl), p, c, f, before, newId, ttl)
  {
  }

  lemma RotationSame(s: State, p: nat, c: nat, f: Id, before: nat, newId: Id, ttl: Ttl)
    requires Ready(s, p, c, f, before) && Enabled(s, StepRotation(p, newId, c))
    ensures Same(s, StepRotationAt(s, p, newId, c, ttl), p, c, f, before, newId, ttl)
  {
    match s.rotations[p].at
    case DelRefresh => DelRefreshSame(s, p, c, f, before, newId, ttl);
    case GetIndex => GetIndexSame(s, p, c, f, before, newId, ttl);
    case GetSession(_, _) => GetSessionSame(s, p, c, f, before, newId, ttl);
    case PutSession(_, _, _) => PutSessionSame(s, p, c, f, before, newId, ttl);
    case PutRefresh(_, _) => PutRefreshSame(s, p, c, f, before, newId, ttl);
    case AwaitBurn(_) =>
  }

  lemma BurnStore(st: Store, f: Id, got: set<Key>)
    requires forall k <- got :: Hits(f, k)
    ensures st.DelRefresh(got).DelRefresh(st.DelRefresh(got).BurnKeys(f)) == st.DelRefresh(st.BurnKeys(f))
  {
  }

  lemma ScannedStore(st: Store, f: Id)
    ensures st.BurnKeys(f) == {} ==> st.DelRefresh(st.BurnKeys(f)) == st
    ensures st.DelIndex(f).DelRefresh(st.DelIndex(f).BurnKeys(f)) == SessionService.AfterBurn(st, f)
  {
  }

  /** What a burn's command does to the store and to its own record of what SCAN owes it. */
  lemma BurnCommand(s: State, p: nat, c: nat, batch: set<Key>, d: bool)
    requires Alone(s, p, c) && Enabled(s, StepBurn(c, batch, d))
    ensures var s' := StepBurnAt(s, c, batch, d);
            && s' == s.(store := s'.store, burns := s'.burns) && Alone(s', p, c)
            && OfBurn(s.store, s.burns[c]) == if c in s'.burns then OfBurn(s'.store, s'.burns[c]) else s'.store
  {
    var b, s' := s.burns[c], StepBurnAt(s, c, batch, d);
    ScannedStore(s.store, b.family);
    match b.at
    case DelIndex => assert s'.store == s.store.DelIndex(b.family);
    case OpenScan => assert s'.store == s.store;
    case Scanning(todo) => assert s'.store == s.store && (d ==> s.store.BurnKeys(b.family) == {});
    case Deleting(todo, got) =>
      BurnStore(s.store, b.family, got);
      assert s'.store == s.store.DelRefresh(got);
  }

  lemma BurnSame(s: State, p: nat, c: nat, f: Id, before: nat, batch: set<Key>, d: bool, newId: Id, ttl: Ttl)
    requires Alone(s, p, c) && Enabled(s, StepBurn(c, batch, d)) && |s.Recall(f).done| == before
    requires p in s.rotations ==> s.rotations[p].family == f
    ensures Same(s, StepBurnAt(s, c, batch, d), p, c, f, before, newId, ttl)
  {
    BurnCommand(s, p, c, batch, d);
  }

  predicate Own(step: Step, p: nat, c: nat, newId: Id) {
    step == StepRotation(p, newId, c) || (step.StepBurn? && step.p == c)
  }

  lemma {:induction false} RunSame(s: State, run: seq<Step>, p: nat, c: nat, f: Id, before: nat, newId: Id, ttl: Ttl)
    requires Alone(s, p, c) && Legal(s, run, ttl) && forall step <- run :: Own(step, p, c, newId)
    requires p in s.rotations ==> s.rotations[p].family == f
    requires p in s.rotations || c in s.burns ==> |s.Recall(f).done| == before
    ensures Same(s, Exec(s, run, ttl), p, c, f, before, newId, ttl)
    decreases |run|
  {
    if run != [] {
      assert Own(run[0], p, c, newId);
      if run[0].StepRotation? {
        RotationSame(s, p, c, f, before, newId, ttl);
      } else {
        BurnSame(s, p, c, f, before, run[0].batch, run[0].scanDone, newId, ttl);
      }
      RunSame(Apply(s, run[0], ttl), run[1..], p, c, f, before, newId, ttl);
    }
  }

  /** Whatever SCAN answers, a rotation run to its end with nothing else running leaves the store the
      sequential call leaves, and succeeds exactly when the sequential call does. */
  lemma RotationIsSequential(s: State, run: seq<Step>, p: nat, c: nat, f: Id, j: Id, newId: Id, ttl: Ttl)
    requires s.rotations == map[p := Rotation(f, j, DelRefresh)] && s.burns == map[]
    requires Legal(s, run, ttl) && forall step <- run :: Own(step, p, c, newId)
    requires p !in Exec(s, run, ttl).rotations && c !in Exec(s, run, ttl).burns
    ensures var s', a := Exec(s, run, ttl), SessionService.AfterRotation(s.store, Key(f, j), newId, ttl);
            && s'.store == a.store
            && Returned(s', f, |s.Recall(f).done|) == if a.result.Rotated? then Some(a.result.session) else None
  {
    RunSame(s, run, p, c, f, |s.Recall(f).done|, newId, ttl);
  }

  // ---------- Logins and logouts ----------

  /** A login nobody interferes with is the sequential login. */
  lemma LoginIsSequential(s: State, p: nat, id: Identity, f: Id, j: Id, ttl: Ttl)
    requires Enabled(s, BeginLogin(p, id, f, j))
    ensures var run := [BeginLogin(p, id, f, j), StepLogin(p), StepLogin(p), StepLogin(p)];
            Legal(s, run, ttl) && Exec(s, run, ttl).store == SessionService.AfterLogin(s.store, id, f, j, ttl)
  {
    var run := [BeginLogin(p, id, f, j), StepLogin(p), StepLogin(p), StepLogin(p)];
    var s1 := Apply(s, BeginLogin(p, id, f, j), ttl);
    var s2 := SendSetSession(s1, p);
    var s3 := SendSetIndex(s2, p, ttl);
    var s4 := SendSetRefresh(s3, p, ttl);
    assert run[1..][1..][1..] == [StepLogin(p)] && run[1..][1..][1..][1..] == [];
    assert Legal(s4, [], ttl) && Legal(s3, run[1..][1..][1..], ttl) && Legal(s2, run[1..][1..], ttl);
    assert Legal(s1, run[1..], ttl) && Legal(s, run, ttl);
    assert Exec(s3, run[1..][1..][1..], ttl) == s4 && Exec(s2, run[1..][1..], ttl) == s4;
    assert Exec(s1, run[1..], ttl) == s4 && Exec(s, run, ttl) == s4;
  }

  /** The store once logout p and its burn c have both finished. */
  function LogoutEnd(s: State, p: nat, c: nat): Store {
    if p in s.logouts && !s.logouts[p].read then SessionService.AfterLogout(s.store, s.logouts[p].user)
    else
      var st := if c in s.burns then OfBurn(s.store, s.burns[c]) else s.store;
      if p in s.logouts then st.DelSession(s.logouts[p].user) else st
  }

  ghost predicate LogoutAlone(s: State, p: nat, c: nat) {
    Alone(s, p, c) && s.rotations == map[] && (p in s.logouts && !s.logouts[p].read ==> c !in s.burns)
  }

  /** Deleting the record and burning its family commute. */
  lemma DeleteCommutes(st: Store, b: Burn, u: Id)
    ensures OfBurn(st.DelSession(u), b) == OfBurn(st, b).DelSession(u)
  {
  }

  lemma LogoutStep(s: State, p: nat, c: nat, child: nat)
    requires LogoutAlone(s, p, c) && Enabled(s, StepLogout(p, child)) && (!s.logouts[p].read ==> child == c)
    ensures var s' := StepLogoutAt(s, p, child); LogoutAlone(s', p, c) && LogoutEnd(s', p, c) == LogoutEnd(s, p, c)
  {
    var o := s.logouts[p];
    if o.read {
      if c in s.burns { DeleteCommutes(s.store, s.burns[c], o.user); }
    } else if o.user in s.store.session {
      DeleteCommutes(s.store, Burn(s.store.session[o.user].family, DelIndex), o.user);
    }
  }

  lemma LogoutBurnStep(s: State, p: nat, c: nat, batch: set<Key>, d: bool)
    requires LogoutAlone(s, p, c) && Enabled(s, StepBurn(c, batch, d))
    ensures var s' := StepBurnAt(s, c, batch, d); LogoutAlone(s', p, c) && LogoutEnd(s', p, c) == LogoutEnd(s, p, c)
  {
    BurnCommand(s, p, c, batch, d);
  }

  /** A logout's own steps, its burn's included; the burn it starts is c. */
  predicate OfLogout(s: State, step: Step, p: nat, c: nat)
    requires Enabled(s, step)
  {
    match step
    case StepLogout(q, child) => q == p && (s.logouts[p].read || child == c)
    case StepBurn(b, _, _) => b == c
    case _ => false
  }

  predicate LogoutOnly(s: State, run: seq<Step>, p: nat, c: nat, ttl: Ttl)
    requires Legal(s, run, ttl)
    decreases |run|
  {
    run == [] || (OfLogout(s, run[0], p, c) && LogoutOnly(Apply(s, run[0], ttl), run[1..], p, c, ttl))
  }

  lemma {:induction false} LogoutRun(s: State, run: seq<Step>, p: nat, c: nat, ttl: Ttl)
    requires LogoutAlone(s, p, c) && Legal(s, run, ttl) && LogoutOnly(s, run, p, c, ttl)
    ensures LogoutEnd(Exec(s, run, ttl), p, c) == LogoutEnd(s, p, c)
    decreases |run|
  {
    if run != [] {
      if run[0].StepLogout? {
        LogoutStep(s, p, c, run[0].child);
      } else {
        LogoutBurnStep(s, p, c, run[0].batch, run[0].scanDone);
      }
      LogoutRun(Apply(s, run[0], ttl), run[1..], p, c, ttl);
    }
  }

  /** A logout nobody interferes with, whichever of its deletion and its burn goes first and whatever
      SCAN returns, leaves the store of the sequential logout. */
  lemma LogoutIsSequential(s: State, run: seq<Step>, p: nat, c: nat, u: Id, ttl: Ttl)
    requires s.logouts == map[p := Logout(u, false)] && s.rotations == map[] && s.burns == map[]
    requires Legal(s, run, ttl) && LogoutOnly(s, run, p, c, ttl)
    requires p !in Exec(s, run, ttl).logouts && c !in Exec(s, run, ttl).burns
    ensures Exec(s, run, ttl).store == SessionService.AfterLogout(s.store, u)
  {
    LogoutRun(s, run, p, c, ttl);
  }
}
