/** What refresh-token rotation promises, over every interleaving from an empty store. */
module SessionTheorems {
  import opened RefreshStore
  import opened SessionProtocol
  import opened SessionSafety

  /** A family's rotations past a successful DEL and not yet finished. */
  function InFlight(s: State, f: Id): set<nat> {
    set p | p in s.rotations && s.rotations[p].family == f && s.rotations[p].Consumed()
  }

  lemma AtMostOne<T>(xs: set<T>)
    requires forall x, y :: x in xs && y in xs ==> x == y
    ensures |xs| <= 1
  {
    if x :| x in xs {
      assert xs == {x};
    }
  }

  /** At every moment a family has at most one live refresh token or rotation in flight. */
  lemma Conservation(run: seq<Step>, f: Id, ttl: Ttl)
    requires Legal(INIT, run, ttl)
    ensures var s := Exec(INIT, run, ttl); |s.store.FamilyKeys(f)| + |InFlight(s, f)| <= 1
  {
    RunKeeps(INIT, run, ttl);
    var s := Exec(INIT, run, ttl);
    AtMostOne(s.store.FamilyKeys(f));
    AtMostOne(InFlight(s, f));
    if k, p :| k in s.store.FamilyKeys(f) && p in InFlight(s, f) {
      assert false;
    }
  }

  /** No refresh token is exchanged twice, and a family's exchanges form one chain starting at the
      token its login returned, each carrying that login's identity. */
  lemma OneChain(run: seq<Step>, f: Id, ttl: Ttl)
    requires Legal(INIT, run, ttl) && f in Exec(INIT, run, ttl).families
    ensures var h := Exec(INIT, run, ttl).families[f];
            && (forall i, j :: 0 <= i < j < |h.done| ==> h.done[i].spent != h.done[j].spent)
            && (forall i :: 0 <= i < |h.done| ==>
                  h.done[i].spent == if i == 0 then h.first else h.done[i - 1].session.jti)
            && (forall e <- h.done :: e.session.id == h.id && e.session.family == f)
  {
    RunKeeps(INIT, run, ttl);
    var s := Exec(INIT, run, ttl);
    assert AtTip(s, f);
    LineIsChain(s.families[f], f);
  }

  lemma LineIsChain(h: History, f: Id)
    requires OneLine(h, f)
    ensures forall i, j :: 0 <= i < j < |h.done| ==> h.done[i].spent != h.done[j].spent
    ensures forall i :: 0 <= i < |h.done| ==>
              h.done[i].spent == if i == 0 then h.first else h.done[i - 1].session.jti
    ensures forall e <- h.done :: e.session.id == h.id && e.session.family == f
  {
    assert forall i :: 0 <= i < |h.done| ==> h.done[i].spent == Issued(h)[i];
  }

  /** However often it is rotated, no session outlives its login's time to live. */
  lemma AbsoluteLifetime(run: seq<Step>, f: Id, ttl: Ttl)
    requires Legal(INIT, run, ttl) && f in Exec(INIT, run, ttl).families
    ensures var h := Exec(INIT, run, ttl).families[f];
            forall e <- h.done :: h.indexedAt.Some? && e.readAt < h.indexedAt.value + ttl
  {
    RunKeeps(INIT, run, ttl);
    assert Timely(Exec(INIT, run, ttl).families[f], ttl);
  }

  // ---------- Burns are final ----------

  /** The login has written the family's index, and it is gone: burnt, logged out or expired. */
  predicate Burnt(s: State, f: Id) {
    f in s.families && s.families[f].indexedAt.Some? && f !in s.store.index
  }

  /** Rotations that read the index before it went. */
  function Late(s: State, f: Id): set<nat> {
    set p | p in s.rotations && s.rotations[p].family == f && s.rotations[p].PastIndex()
  }

  lemma BurntGetIndex(s: State, p: nat, f: Id)
    requires p in s.rotations && s.rotations[p].at.GetIndex? && Burnt(s, f)
    ensures var s' := SendGetIndex(s, p); Burnt(s', f) && Late(s', f) <= Late(s, f)
  {
  }

  lemma BurntGetSession(s: State, p: nat, n: Id, c: nat, f: Id)
    requires p in s.rotations && s.rotations[p].at.GetSession? && Burnt(s, f)
    ensures var s' := SendGetSession(s, p, n, c); Burnt(s', f) && Late(s', f) <= Late(s, f)
  {
  }

  lemma BurntPutRefresh(s: State, p: nat, f: Id, ttl: Ttl)
    requires Known(s) && p in s.rotations && s.rotations[p].at.PutRefresh? && Burnt(s, f)
    ensures var s' := SendPutRefresh(s, p, ttl);
            && Burnt(s', f) && Late(s', f) <= Late(s, f)
            && (s'.families[f].done == s.families[f].done
                || (p in Late(s, f) && p !in Late(s', f) && |s'.families[f].done| == |s.families[f].done| + 1))
  {
  }

  lemma BurntRotation(s: State, p: nat, n: Id, c: nat, f: Id, ttl: Ttl)
    requires Known(s) && Enabled(s, StepRotation(p, n, c)) && Burnt(s, f)
    ensures var s' := StepRotationAt(s, p, n, c, ttl);
            && Burnt(s', f) && Late(s', f) <= Late(s, f)
            && (s'.families[f].done == s.families[f].done
                || (p in Late(s, f) && p !in Late(s', f) && |s'.families[f].done| == |s.families[f].done| + 1))
  {
    match s.rotations[p].at
    case DelRefresh =>
    case GetIndex => BurntGetIndex(s, p, f);
    case GetSession(_, _) => BurntGetSession(s, p, n, c, f);
    case PutSession(_, _, _) =>
    case PutRefresh(_, _) => BurntPutRefresh(s, p, f, ttl);
    case AwaitBurn(_) =>
  }

  lemma BurntLogin(s: State, p: nat, f: Id, ttl: Ttl)
    requires Known(s) && Indexed(s, ttl) && p in s.logins && Burnt(s, f)
    ensures var s' := StepLoginAt(s, p, ttl);
            Burnt(s', f) && Late(s', f) <= Late(s, f) && s'.families[f].done == s.families[f].done
  {
  }

  lemma BurntOther(s: State, step: Step, f: Id, ttl: Ttl)
    requires Known(s) && Recorded(s) && Indexed(s, ttl) && Enabled(s, step) && Burnt(s, f) && !step.StepRotation?
    ensures var s' := Apply(s, step, ttl);
            Burnt(s', f) && Late(s', f) <= Late(s, f) && s'.families[f].done == s.families[f].done
  {
    if step.StepLogin? {
      BurntLogin(s, step.p, f, ttl);
    } else if step.BeginLogin? {
      BurntBegin(s, step, f, ttl);
    } else {
      Loses(s, step, ttl);
      ShrinkBurnt(s, Apply(s, step, ttl), f);
    }
  }

  lemma ShrinkBurnt(s: State, s': State, f: Id)
    requires Shrinks(s, s') && Burnt(s, f)
    ensures Burnt(s', f) && Late(s', f) <= Late(s, f) && s'.families[f].done == s.families[f].done
  {
  }

  lemma BurntBegin(s: State, step: Step, f: Id, ttl: Ttl)
    requires Known(s) && Recorded(s) && step.BeginLogin? && Enabled(s, step) && Burnt(s, f)
    ensures var s' := Apply(s, step, ttl);
            Burnt(s', f) && Late(s', f) <= Late(s, f) && s'.families[f].done == s.families[f].done
  {
  }

  lemma BurntStep(s: State, step: Step, f: Id, ttl: Ttl)
    requires Inv(s, ttl) && Enabled(s, step) && Burnt(s, f)
    ensures var t := Apply(s, step, ttl);
            && Burnt(t, f) && Late(t, f) <= Late(s, f)
            && |t.families[f].done| + |Late(t, f)| <= |s.families[f].done| + |Late(s, f)|
  {
    match step {
      case StepRotation(p, n, c) => BurntRotation(s, p, n, c, f, ttl);
      case _ => BurntOther(s, step, f, ttl);
    }
    Cardinality(Late(Apply(s, step, ttl), f), Late(s, f));
  }

  /** Once a family's index is gone it stays gone, and from then on at most the rotations that had
      already read it succeed. */
  lemma {:induction false} BurnIsFinal(s: State, run: seq<Step>, f: Id, ttl: Ttl)
    requires Inv(s, ttl) && Burnt(s, f) && Legal(s, run, ttl)
    ensures var s' := Exec(s, run, ttl);
            && Burnt(s', f) && Late(s', f) <= Late(s, f)
            && |s'.families[f].done| + |Late(s', f)| <= |s.families[f].done| + |Late(s, f)|
    decreases |run|
  {
    if run != [] {
      var t := Apply(s, run[0], ttl);
      StepKeeps(s, run[0], ttl);
      BurntStep(s, run[0], f, ttl);
      BurnIsFinal(t, run[1..], f, ttl);
    }
  }

  lemma Cardinality<T>(xs: set<T>, ys: set<T>)
    requires xs <= ys
    ensures |xs| <= |ys| && (xs != ys ==> |xs| < |ys|)
  {
    assert ys == xs + (ys - xs);
  }

  /** After a burn at most one more exchange of the family succeeds, and none if no rotation was
      past the index. */
  lemma AtMostOneAfterBurn(before: seq<Step>, after: seq<Step>, f: Id, ttl: Ttl)
    requires Legal(INIT, before, ttl) && Burnt(Exec(INIT, before, ttl), f)
    requires Legal(Exec(INIT, before, ttl), after, ttl)
    ensures var s := Exec(INIT, before, ttl);
            var s' := Exec(s, after, ttl);
            && f in s'.families && f !in s'.store.index
            && |s'.families[f].done| <= |s.families[f].done| + (if Late(s, f) == {} then 0 else 1)
  {
    RunKeeps(INIT, before, ttl);
    var s := Exec(INIT, before, ttl);
    BurnIsFinal(s, after, f, ttl);
    LateIsOne(s, f);
  }

  lemma LateIsOne(s: State, f: Id)
    requires OneSlot(s)
    ensures |Late(s, f)| <= 1
  {
    AtMostOne(Late(s, f));
  }

  // ---------- The one late exchange can happen ----------

  ghost predicate Reaches(s: State, end: State, ttl: Ttl) { exists run :: Leads(s, run, end, ttl) }

  ghost predicate Leads(s: State, run: seq<Step>, end: State, ttl: Ttl) {
    Legal(s, run, ttl) && Exec(s, run, ttl) == end
  }

  lemma Cons(s: State, step: Step, end: State, ttl: Ttl)
    requires Enabled(s, step) && Reaches(Apply(s, step, ttl), end, ttl)
    ensures Reaches(s, end, ttl)
  {
    var run :| Leads(Apply(s, step, ttl), run, end, ttl);
    assert ([step] + run)[1..] == run;
    assert Leads(s, [step] + run, end, ttl);
  }

  const WHO := Identity("u", "t", "r")
  const OLD := Record(WHO, "f", "j")
  const NEW := Record(WHO, "f", "n")

  /** A user has logged in. */
  function LoggedIn(ttl: Ttl): State {
    State(Store(map["u" := OLD], map["f" := Timed("u", ttl)], map[Key("f", "j") := ttl], 0),
          map[], map[], map[], map[], {"f", "j"}, map["f" := History(WHO, "j", Some(0), [])])
  }

  /** A rotation has read the family's index, and a logout's burn has deleted it since. */
  function BurntMidway(ttl: Ttl): State {
    LoggedIn(ttl).(
      store := Store(map["u" := OLD], map[], map[], 0),
      rotations := map[0 := Rotation("f", "j", GetSession("u", 0))],
      logouts := map[0 := Logout("u", true)], burns := map[0 := Burn("f", OpenScan)])
  }

  /** The rotation has succeeded. */
  function Exchanged(ttl: Ttl): State {
    BurntMidway(ttl).(
      store := Store(map["u" := NEW], map[], map[Key("f", "n") := ttl], 0),
      rotations := map[], drawn := {"f", "j", "n"},
      families := map["f" := History(WHO, "j", Some(0), [Exchange("j", NEW, 0)])])
  }

  lemma ShortIds()
    ensures IsId("f") && IsId("j") && IsId("n")
  {
  }

  lemma LoginReached(end: State, ttl: Ttl)
    requires Reaches(LoggedIn(ttl), end, ttl)
    ensures Reaches(INIT, end, ttl)
  {
    ShortIds();
    var s1 := Apply(INIT, BeginLogin(0, WHO, "f", "j"), ttl);
    var s2 := SendSetSession(s1, 0);
    var s3 := SendSetIndex(s2, 0, ttl);
    assert SendSetRefresh(s3, 0, ttl) == LoggedIn(ttl);
    Cons(s3, StepLogin(0), end, ttl);
    Cons(s2, StepLogin(0), end, ttl);
    Cons(s1, StepLogin(0), end, ttl);
    Cons(INIT, BeginLogin(0, WHO, "f", "j"), end, ttl);
  }

  /** The rotation has consumed the token and read the index. */
  function IndexRead(ttl: Ttl): State {
    LoggedIn(ttl).(
      store := Store(map["u" := OLD], map["f" := Timed("u", ttl)], map[], 0),
      rotations := map[0 := Rotation("f", "j", GetSession("u", 0))])
  }

  lemma IndexReadReached(end: State, ttl: Ttl)
    requires Reaches(IndexRead(ttl), end, ttl)
    ensures Reaches(LoggedIn(ttl), end, ttl)
  {
    var s0 := LoggedIn(ttl);
    var s1 := s0.(rotations := map[0 := Rotation("f", "j", DelRefresh)]);
    var s2 := SendDelRefresh(s1, 0, 0);
    assert SendGetIndex(s2, 0) == IndexRead(ttl);
    Cons(s2, StepRotation(0, "n", 0), end, ttl);
    Cons(s1, StepRotation(0, "n", 0), end, ttl);
    Cons(s0, BeginRotation(0, "f", "j"), end, ttl);
  }

  lemma BurntReached(end: State, ttl: Ttl)
    requires Reaches(BurntMidway(ttl), end, ttl)
    ensures Reaches(IndexRead(ttl), end, ttl)
  {
    var s3 := IndexRead(ttl);
    var s4 := Apply(s3, BeginLogout(0, "u"), ttl);
    var s5 := StepLogoutAt(s4, 0, 0);
    assert StepBurnAt(s5, 0, {}, false) == BurntMidway(ttl);
    Cons(s5, StepBurn(0, {}, false), end, ttl);
    Cons(s4, StepLogout(0, 0), end, ttl);
    Cons(s3, BeginLogout(0, "u"), end, ttl);
  }

  lemma ExchangeReached(ttl: Ttl)
    ensures Reaches(BurntMidway(ttl), Exchanged(ttl), ttl)
  {
    ShortIds();
    var s0 := BurntMidway(ttl);
    var s1 := SendGetSession(s0, 0, "n", 1);
    assert OLD.(jti := "n") == NEW && s1.drawn == {"f", "j", "n"};
    assert s1.rotations == map[0 := Rotation("f", "j", PutSession("u", 0, NEW))];
    var s2 := SendPutSession(s1, 0);
    assert s2.rotations == map[0 := Rotation("f", "j", PutRefresh(0, NEW))];
    LastPutReached(s2, ttl);
    Cons(s1, StepRotation(0, "n", 1), Exchanged(ttl), ttl);
    Cons(s0, StepRotation(0, "n", 1), Exchanged(ttl), ttl);
  }

  lemma LastPutReached(s: State, ttl: Ttl)
    requires s == BurntMidway(ttl).(store := BurntMidway(ttl).store.SetSession("u", NEW), drawn := {"f", "j", "n"},
                                    rotations := map[0 := Rotation("f", "j", PutRefresh(0, NEW))])
    ensures Reaches(s, Exchanged(ttl), ttl)
  {
    ShortIds();
    var t := SendPutRefresh(s, 0, ttl);
    assert t.families["f"].done == [] + [Exchange("j", NEW, 0)] == [Exchange("j", NEW, 0)];
    assert t.store == Exchanged(ttl).store && t.families == Exchanged(ttl).families;
    assert t == Exchanged(ttl);
    assert Leads(Exchanged(ttl), [], Exchanged(ttl), ttl);
    Cons(s, StepRotation(0, "n", 1), Exchanged(ttl), ttl);
  }

  /** The exchange AtMostOneAfterBurn allows does happen: a rotation that has read the index succeeds
      after a logout has burnt its family. */
  lemma LateExchangeHappens(ttl: Ttl)
    ensures var s, end := BurntMidway(ttl), Exchanged(ttl);
            && Reaches(INIT, s, ttl) && Burnt(s, "f") && s.families["f"].done == []
            && Reaches(s, end, ttl) && |end.families["f"].done| == 1
  {
    assert Leads(BurntMidway(ttl), [], BurntMidway(ttl), ttl);
    BurntReached(BurntMidway(ttl), ttl);
    IndexReadReached(BurntMidway(ttl), ttl);
    LoginReached(BurntMidway(ttl), ttl);
    ExchangeReached(ttl);
  }
}
