/** What every interleaving of session.ts keeps. */
module SessionSafety {
  import opened RefreshStore
  import opened SessionProtocol

  ghost predicate Submap<K, V>(small: map<K, V>, big: map<K, V>) {
    forall k :: k in small ==> k in big && small[k] == big[k]
  }

  // ---------- Steps that only lose things ----------

  /** s' has lost keys and processes, and may have new rotations that have consumed nothing. */
  ghost predicate Shrinks(s: State, s': State) {
    && Submap(s'.store.session, s.store.session)
    && Submap(s'.store.index, s.store.index)
    && Submap(s'.store.refresh, s.store.refresh)
    && (forall f <- s'.store.index :: s'.store.now < s'.store.index[f].exp)
    && Submap(s'.logins, s.logins)
    && (forall p :: p in s'.rotations && s'.rotations[p].Consumed() ==>
          p in s.rotations && s'.rotations[p] == s.rotations[p])
    && s'.families == s.families
    && s'.drawn == s.drawn
  }

  lemma ShrinkKeepsSlot(s: State, s': State)
    requires OneSlot(s) && Shrinks(s, s')
    ensures OneSlot(s')
  {
  }

  lemma ShrinkKeepsRecords(s: State, s': State)
    requires Known(s) && Recorded(s) && Shrinks(s, s')
    ensures Known(s') && Recorded(s')
  {
  }

  lemma ShrinkKeepsIndex(s: State, s': State, ttl: Ttl)
    requires Known(s) && Indexed(s, ttl) && Shrinks(s, s')
    ensures Known(s') && Indexed(s', ttl)
  {
  }

  lemma ShrinkKeepsTip(s: State, s': State, f: Id)
    requires f in s.families && AtTip(s, f) && Shrinks(s, s')
    ensures AtTip(s', f)
  {
  }

  lemma ShrinkKeeps(s: State, s': State, ttl: Ttl)
    requires Inv(s, ttl) && Shrinks(s, s')
    ensures Inv(s', ttl)
  {
    ShrinkKeepsSlot(s, s');
    ShrinkKeepsRecords(s, s');
    ShrinkKeepsIndex(s, s', ttl);
    forall f <- s'.families ensures AtTip(s', f) { ShrinkKeepsTip(s, s', f); }
  }

  // ---------- A rotation that keeps the slot moves on ----------

  ghost predicate Moves(s: State, s': State, p: nat, r: Rotation) {
    && p in s.rotations && s'.rotations == s.rotations[p := r]
    && s.rotations[p].Consumed() && r.Consumed()
    && r.family == s.rotations[p].family && r.jti == s.rotations[p].jti
    && s'.logins == s.logins
    && s'.store.refresh == s.store.refresh && s'.store.index == s.store.index && s'.store.now == s.store.now
    && s'.families == s.families
    && s.drawn <= s'.drawn
  }

  lemma MoveKeepsSlot(s: State, s': State, p: nat, r: Rotation)
    requires OneSlot(s) && Moves(s, s', p, r)
    ensures OneSlot(s')
  {
  }

  lemma MoveKeepsIndex(s: State, s': State, p: nat, r: Rotation, ttl: Ttl)
    requires Known(s) && Indexed(s, ttl) && Moves(s, s', p, r)
    requires r.PastIndex() ==> InTime(s.families[r.family], r.ReadAt(), ttl)
    ensures Known(s') && Indexed(s', ttl)
  {
  }

  lemma MoveKeepsTip(s: State, s': State, p: nat, r: Rotation, f: Id)
    requires f in s.families && AtTip(s, f) && Moves(s, s', p, r)
    requires r.family == f && r.Drawn() ==> r.Pending().jti in s'.drawn && r.Pending().jti !in Issued(s.families[f])
    ensures AtTip(s', f)
  {
  }

  lemma MoveKeeps(s: State, s': State, p: nat, r: Rotation, ttl: Ttl)
    requires Inv(s, ttl) && Moves(s, s', p, r) && Recorded(s')
    requires r.PastIndex() ==> InTime(s.families[r.family], r.ReadAt(), ttl)
    requires r.Drawn() ==> r.Pending().jti in s'.drawn && r.Pending().jti !in Issued(s.families[r.family])
    ensures Inv(s', ttl)
  {
    MoveKeepsSlot(s, s', p, r);
    MoveKeepsIndex(s, s', p, r, ttl);
    forall f <- s'.families ensures AtTip(s', f) { MoveKeepsTip(s, s', p, r, f); }
  }

  lemma GetIndexMoves(s: State, p: nat)
    requires Known(s) && Recorded(s) && p in s.rotations && s.rotations[p].at.GetIndex?
    requires s.rotations[p].family in s.store.index
    ensures var s' := SendGetIndex(s, p);
            && Moves(s, s', p, s'.rotations[p]) && Recorded(s')
            && s'.rotations[p].PastIndex() && s'.rotations[p].ReadAt() == s.store.now && !s'.rotations[p].Drawn()
            && s'.rotations[p].family == s.rotations[p].family
  {
  }

  lemma GetIndexLoses(s: State, p: nat, ttl: Ttl)
    requires Known(s) && Indexed(s, ttl) && p in s.rotations && s.rotations[p].family !in s.store.index
    ensures Shrinks(s, SendGetIndex(s, p))
  {
  }

  lemma InTimeNow(s: State, f: Id, ttl: Ttl)
    requires Known(s) && Indexed(s, ttl) && f in s.store.index
    ensures f in s.families && InTime(s.families[f], s.store.now, ttl)
  {
  }

  lemma GetIndexSucceeds(s: State, p: nat, ttl: Ttl)
    requires Inv(s, ttl) && p in s.rotations && s.rotations[p].at.GetIndex? && s.rotations[p].family in s.store.index
    ensures Inv(SendGetIndex(s, p), ttl)
  {
    var s', f := SendGetIndex(s, p), s.rotations[p].family;
    GetIndexMoves(s, p);
    InTimeNow(s, f, ttl);
    MoveKeeps(s, s', p, s'.rotations[p], ttl);
  }

  lemma GetIndexKeeps(s: State, p: nat, ttl: Ttl)
    requires Inv(s, ttl) && p in s.rotations && s.rotations[p].at.GetIndex?
    ensures Inv(SendGetIndex(s, p), ttl)
  {
    if s.rotations[p].family in s.store.index {
      GetIndexSucceeds(s, p, ttl);
    } else {
      GetIndexLoses(s, p, ttl);
      ShrinkKeeps(s, SendGetIndex(s, p), ttl);
    }
  }

  lemma GetSessionMoves(s: State, p: nat, n: Id, c: nat)
    requires Known(s) && p in s.rotations && s.rotations[p].at.GetSession?
    requires s.rotations[p].at.user in s.store.session
    ensures var s' := SendGetSession(s, p, n, c);
            && Moves(s, s', p, s'.rotations[p])
            && (s'.rotations[p].PastIndex() ==> s'.rotations[p].ReadAt() == s.rotations[p].ReadAt())
            && (s'.rotations[p].Drawn() ==> s'.rotations[p].Pending().jti == n && n in s'.drawn)
  {
  }

  lemma GetSessionRecords(s: State, p: nat, n: Id, c: nat)
    requires Known(s) && Recorded(s) && p in s.rotations && s.rotations[p].at.GetSession?
    requires s.rotations[p].at.user in s.store.session
    ensures Recorded(SendGetSession(s, p, n, c))
  {
  }

  lemma GetSessionKeeps(s: State, p: nat, n: Id, c: nat, ttl: Ttl)
    requires Inv(s, ttl) && p in s.rotations && s.rotations[p].at.GetSession? && n !in s.drawn
    ensures Inv(SendGetSession(s, p, n, c), ttl)
  {
    var r, s' := s.rotations[p], SendGetSession(s, p, n, c);
    if r.at.user in s.store.session {
      GetSessionMoves(s, p, n, c);
      GetSessionRecords(s, p, n, c);
      assert AtTip(s, r.family);
      MoveKeeps(s, s', p, s'.rotations[p], ttl);
    } else {
      ShrinkKeeps(s, s', ttl);
    }
  }

  lemma PutSessionRecords(s: State, p: nat)
    requires Known(s) && Recorded(s) && p in s.rotations && s.rotations[p].at.PutSession?
    ensures Recorded(SendPutSession(s, p))
  {
  }

  lemma PutSessionKeeps(s: State, p: nat, ttl: Ttl)
    requires Inv(s, ttl) && p in s.rotations && s.rotations[p].at.PutSession?
    ensures Inv(SendPutSession(s, p), ttl)
  {
    PutSessionRecords(s, p);
    assert AtTip(s, s.rotations[p].family);
    var s' := SendPutSession(s, p);
    MoveKeeps(s, s', p, s'.rotations[p], ttl);
  }

  // ---------- The slot changes hands ----------

  lemma DelRefreshSlot(s: State, p: nat, c: nat)
    requires OneSlot(s) && p in s.rotations && s.rotations[p].at.DelRefresh?
    requires Key(s.rotations[p].family, s.rotations[p].jti) in s.store.refresh
    ensures OneSlot(SendDelRefresh(s, p, c))
  {
  }

  lemma DelRefreshTip(s: State, p: nat, c: nat, f: Id)
    requires p in s.rotations && s.rotations[p].at.DelRefresh? && f in s.families && AtTip(s, f)
    requires Key(s.rotations[p].family, s.rotations[p].jti) in s.store.refresh
    ensures AtTip(SendDelRefresh(s, p, c), f)
  {
  }

  lemma DelRefreshRest(s: State, p: nat, c: nat, ttl: Ttl)
    requires Known(s) && Recorded(s) && Indexed(s, ttl) && p in s.rotations && s.rotations[p].at.DelRefresh?
    requires Key(s.rotations[p].family, s.rotations[p].jti) in s.store.refresh
    ensures var s' := SendDelRefresh(s, p, c); Known(s') && Recorded(s') && Indexed(s', ttl)
  {
  }

  lemma DelRefreshKeeps(s: State, p: nat, c: nat, ttl: Ttl)
    requires Inv(s, ttl) && p in s.rotations && s.rotations[p].at.DelRefresh?
    ensures Inv(SendDelRefresh(s, p, c), ttl)
  {
    var r, s' := s.rotations[p], SendDelRefresh(s, p, c);
    if Key(r.family, r.jti) in s.store.refresh {
      DelRefreshSlot(s, p, c);
      DelRefreshRest(s, p, c, ttl);
      forall f <- s'.families ensures AtTip(s', f) { DelRefreshTip(s, p, c, f); }
    } else {
      ShrinkKeeps(s, s', ttl);
    }
  }

  /** Spending the end of the line on a new token keeps it one line. */
  lemma {:induction false} LineGrows(h: History, f: Id, e: Exchange)
    requires OneLine(h, f) && e.spent == Tip(h) && e.session.jti !in Issued(h)
    requires e.session.id == h.id && e.session.family == f
    ensures var h' := h.(done := h.done + [e]);
            OneLine(h', f) && Issued(h') == Issued(h) + [e.session.jti] && Tip(h') == e.session.jti
  {
    var h' := h.(done := h.done + [e]);
    assert Issued(h') == Issued(h) + [e.session.jti];
    assert Tip(h) == Issued(h)[|h.done|];
    forall i | 0 <= i < |h'.done| ensures h'.done[i].spent == Issued(h')[i] {
      assert Issued(h')[i] == Issued(h)[i];
      if i < |h.done| { assert h'.done[i] == h.done[i]; }
    }
  }

  lemma PutRefreshSlot(s: State, p: nat, ttl: Ttl)
    requires Known(s) && OneSlot(s) && p in s.rotations && s.rotations[p].at.PutRefresh?
    ensures OneSlot(SendPutRefresh(s, p, ttl))
  {
  }

  lemma PutRefreshRecords(s: State, p: nat, ttl: Ttl)
    requires Known(s) && Recorded(s) && p in s.rotations && s.rotations[p].at.PutRefresh?
    ensures Known(SendPutRefresh(s, p, ttl)) && Recorded(SendPutRefresh(s, p, ttl))
  {
  }

  lemma PutRefreshIndex(s: State, p: nat, ttl: Ttl)
    requires Known(s) && Indexed(s, ttl) && p in s.rotations && s.rotations[p].at.PutRefresh?
    requires Known(SendPutRefresh(s, p, ttl))
    ensures Indexed(SendPutRefresh(s, p, ttl), ttl)
  {
    assert Timely(s.families[s.rotations[p].family], ttl);
  }

  lemma PutRefreshTip(s: State, p: nat, ttl: Ttl, f: Id)
    requires Known(s) && OneSlot(s) && Recorded(s) && p in s.rotations && s.rotations[p].at.PutRefresh?
    requires f in s.families && AtTip(s, f)
    ensures AtTip(SendPutRefresh(s, p, ttl), f)
  {
    var r := s.rotations[p];
    if f == r.family {
      LineGrows(s.families[f], f, Exchange(r.jti, r.at.record, r.at.readAt));
    }
  }

  lemma PutRefreshKeeps(s: State, p: nat, ttl: Ttl)
    requires Inv(s, ttl) && p in s.rotations && s.rotations[p].at.PutRefresh?
    ensures Inv(SendPutRefresh(s, p, ttl), ttl)
  {
    var s' := SendPutRefresh(s, p, ttl);
    PutRefreshSlot(s, p, ttl);
    PutRefreshRecords(s, p, ttl);
    PutRefreshIndex(s, p, ttl);
    forall f <- s'.families ensures AtTip(s', f) { PutRefreshTip(s, p, ttl, f); }
  }

  // ---------- Logins ----------

  lemma SetSessionSlot(s: State, p: nat)
    requires OneSlot(s) && p in s.logins
    ensures OneSlot(SendSetSession(s, p))
  {
  }

  lemma SetSessionRest(s: State, p: nat, ttl: Ttl)
    requires Known(s) && Recorded(s) && Indexed(s, ttl) && p in s.logins && s.logins[p].at.SetSession?
    ensures var s' := SendSetSession(s, p); Known(s') && Recorded(s') && Indexed(s', ttl)
  {
  }

  lemma SetSessionKeeps(s: State, p: nat, ttl: Ttl)
    requires Inv(s, ttl) && p in s.logins && s.logins[p].at.SetSession?
    ensures Inv(SendSetSession(s, p), ttl)
  {
    SetSessionSlot(s, p);
    SetSessionRest(s, p, ttl);
    forall f <- s.families ensures AtTip(SendSetSession(s, p), f) { SetSessionTip(s, p, f); }
  }

  lemma SetSessionTip(s: State, p: nat, f: Id)
    requires p in s.logins && f in s.families && AtTip(s, f)
    ensures AtTip(SendSetSession(s, p), f)
  {
  }

  lemma SetIndexSlot(s: State, p: nat, ttl: Ttl)
    requires Known(s) && OneSlot(s) && p in s.logins
    ensures OneSlot(SendSetIndex(s, p, ttl))
  {
  }

  lemma SetIndexRecords(s: State, p: nat, ttl: Ttl)
    requires Known(s) && Recorded(s) && p in s.logins
    ensures var s' := SendSetIndex(s, p, ttl); Known(s') && Recorded(s')
  {
  }

  lemma SetIndexIndex(s: State, p: nat, ttl: Ttl)
    requires Known(s) && Recorded(s) && OneSlot(s) && Indexed(s, ttl) && p in s.logins && s.logins[p].at.SetIndex?
    ensures var s' := SendSetIndex(s, p, ttl); Known(s') && Indexed(s', ttl)
  {
    assert Timely(s.families[s.logins[p].family], ttl);
  }

  /** A history that only learns when its index was set issues what it issued. */
  lemma SameLine(h: History, h': History, f: Id)
    requires OneLine(h, f) && h' == h.(indexedAt := h'.indexedAt)
    ensures OneLine(h', f) && Issued(h') == Issued(h) && Tip(h') == Tip(h)
  {
    assert Issued(h') == Issued(h);
  }

  /** A login that only moves on leaves the end of every line where it was. */
  lemma LoginMovesTip(s: State, s': State, f: Id)
    requires f in s.families && f in s'.families && AtTip(s, f)
    requires s'.families[f] == s.families[f].(indexedAt := s'.families[f].indexedAt)
    requires s'.store.refresh == s.store.refresh && s'.rotations == s.rotations && s'.drawn == s.drawn
    requires forall q <- s'.logins ::
               q in s.logins && s'.logins[q].family == s.logins[q].family && s'.logins[q].jti == s.logins[q].jti
    ensures AtTip(s', f)
  {
    SameLine(s.families[f], s'.families[f], f);
  }

  lemma SetIndexTip(s: State, p: nat, ttl: Ttl, f: Id)
    requires Known(s) && p in s.logins && f in s.families && AtTip(s, f)
    ensures AtTip(SendSetIndex(s, p, ttl), f)
  {
    LoginMovesTip(s, SendSetIndex(s, p, ttl), f);
  }

  lemma SetIndexKeeps(s: State, p: nat, ttl: Ttl)
    requires Inv(s, ttl) && p in s.logins && s.logins[p].at.SetIndex?
    ensures Inv(SendSetIndex(s, p, ttl), ttl)
  {
    SetIndexSlot(s, p, ttl);
    SetIndexRecords(s, p, ttl);
    SetIndexIndex(s, p, ttl);
    forall f <- s.families ensures AtTip(SendSetIndex(s, p, ttl), f) { SetIndexTip(s, p, ttl, f); }
  }

  lemma SetRefreshSlot(s: State, p: nat, ttl: Ttl)
    requires Known(s) && OneSlot(s) && p in s.logins
    ensures OneSlot(SendSetRefresh(s, p, ttl))
  {
  }

  lemma SetRefreshRest(s: State, p: nat, ttl: Ttl)
    requires Known(s) && Recorded(s) && Indexed(s, ttl) && p in s.logins
    ensures var s' := SendSetRefresh(s, p, ttl); Known(s') && Recorded(s') && Indexed(s', ttl)
  {
  }

  lemma SetRefreshTip(s: State, p: nat, ttl: Ttl, f: Id)
    requires p in s.logins && f in s.families && AtTip(s, f)
    ensures AtTip(SendSetRefresh(s, p, ttl), f)
  {
  }

  lemma SetRefreshKeeps(s: State, p: nat, ttl: Ttl)
    requires Inv(s, ttl) && p in s.logins && s.logins[p].at.SetRefresh?
    ensures Inv(SendSetRefresh(s, p, ttl), ttl)
  {
    SetRefreshSlot(s, p, ttl);
    SetRefreshRest(s, p, ttl);
    forall f <- s.families ensures AtTip(SendSetRefresh(s, p, ttl), f) { SetRefreshTip(s, p, ttl, f); }
  }

  lemma BeginLoginSlot(s: State, step: Step, ttl: Ttl)
    requires Known(s) && OneSlot(s) && Recorded(s) && step.BeginLogin? && Enabled(s, step)
    ensures OneSlot(Apply(s, step, ttl))
  {
  }

  lemma BeginLoginRecords(s: State, step: Step, ttl: Ttl)
    requires Known(s) && Recorded(s) && step.BeginLogin? && Enabled(s, step)
    ensures var s' := Apply(s, step, ttl); Known(s') && Recorded(s')
  {
  }

  lemma BeginLoginIndex(s: State, step: Step, ttl: Ttl)
    requires Known(s) && Recorded(s) && Indexed(s, ttl) && step.BeginLogin? && Enabled(s, step)
    ensures Known(Apply(s, step, ttl)) && Indexed(Apply(s, step, ttl), ttl)
  {
  }

  lemma BeginLoginTip(s: State, step: Step, ttl: Ttl, f: Id)
    requires Known(s) && Recorded(s) && step.BeginLogin? && Enabled(s, step)
    requires f in Apply(s, step, ttl).families && (f in s.families ==> AtTip(s, f))
    ensures AtTip(Apply(s, step, ttl), f)
  {
  }

  lemma BeginLoginKeeps(s: State, step: Step, ttl: Ttl)
    requires Inv(s, ttl) && step.BeginLogin? && Enabled(s, step)
    ensures Inv(Apply(s, step, ttl), ttl)
  {
    var s' := Apply(s, step, ttl);
    BeginLoginSlot(s, step, ttl);
    BeginLoginRecords(s, step, ttl);
    BeginLoginIndex(s, step, ttl);
    forall f <- s'.families ensures AtTip(s', f) { BeginLoginTip(s, step, ttl, f); }
  }

  // ---------- Every step, every run ----------

  lemma RotationKeeps(s: State, p: nat, n: Id, c: nat, ttl: Ttl)
    requires Inv(s, ttl) && Enabled(s, StepRotation(p, n, c))
    ensures Inv(StepRotationAt(s, p, n, c, ttl), ttl)
  {
    match s.rotations[p].at
    case DelRefresh => DelRefreshKeeps(s, p, c, ttl);
    case GetIndex => GetIndexKeeps(s, p, ttl);
    case GetSession(_, _) => GetSessionKeeps(s, p, n, c, ttl);
    case PutSession(_, _, _) => PutSessionKeeps(s, p, ttl);
    case PutRefresh(_, _) => PutRefreshKeeps(s, p, ttl);
    case AwaitBurn(_) => ShrinkKeeps(s, StepRotationAt(s, p, n, c, ttl), ttl);
  }

  lemma LoginKeeps(s: State, p: nat, ttl: Ttl)
    requires Inv(s, ttl) && p in s.logins
    ensures Inv(StepLoginAt(s, p, ttl), ttl)
  {
    match s.logins[p].at
    case SetSession => SetSessionKeeps(s, p, ttl);
    case SetIndex => SetIndexKeeps(s, p, ttl);
    case SetRefresh => SetRefreshKeeps(s, p, ttl);
  }

  lemma StepKeeps(s: State, step: Step, ttl: Ttl)
    requires Inv(s, ttl) && Enabled(s, step)
    ensures Inv(Apply(s, step, ttl), ttl)
  {
    match step
    case BeginLogin(_, _, _, _) => BeginLoginKeeps(s, step, ttl);
    case StepLogin(p) => LoginKeeps(s, p, ttl);
    case StepRotation(p, n, c) => RotationKeeps(s, p, n, c, ttl);
    case _ => Loses(s, step, ttl); ShrinkKeeps(s, Apply(s, step, ttl), ttl);
  }

  lemma Loses(s: State, step: Step, ttl: Ttl)
    requires Known(s) && Indexed(s, ttl) && Enabled(s, step)
    requires !step.BeginLogin? && !step.StepLogin? && !step.StepRotation?
    ensures Shrinks(s, Apply(s, step, ttl))
  {
    match step
    case Tick(_) => TickShrinks(s, step, ttl);
    case StepLogout(p, c) => LogoutShrinks(s, p, c, ttl);
    case StepBurn(p, batch, d) => BurnShrinks(s, p, batch, d, ttl);
    case _ =>
  }

  lemma TickShrinks(s: State, step: Step, ttl: Ttl)
    requires Known(s) && step.Tick?
    ensures Shrinks(s, Apply(s, step, ttl))
  {
  }

  lemma LogoutShrinks(s: State, p: nat, c: nat, ttl: Ttl)
    requires Known(s) && Indexed(s, ttl) && p in s.logouts
    ensures Shrinks(s, StepLogoutAt(s, p, c))
  {
    var s' := StepLogoutAt(s, p, c);
    assert s' == s.(store := s'.store, logouts := s'.logouts, burns := s'.burns);
    assert s'.store == s.store || s'.store == s.store.DelSession(s.logouts[p].user);
  }

  lemma BurnShrinks(s: State, p: nat, batch: set<Key>, d: bool, ttl: Ttl)
    requires Known(s) && Indexed(s, ttl) && p in s.burns
    ensures Shrinks(s, StepBurnAt(s, p, batch, d))
  {
    BurnEffect(s, p, batch, d);
  }

  lemma BurnEffect(s: State, p: nat, batch: set<Key>, d: bool)
    requires p in s.burns
    ensures var s' := StepBurnAt(s, p, batch, d);
            && s' == s.(store := s'.store, burns := s'.burns)
            && s'.store == s.store.(index := s'.store.index, refresh := s'.store.refresh)
            && Submap(s'.store.index, s.store.index) && Submap(s'.store.refresh, s.store.refresh)
            && (forall f <- s.store.index :: f !in s'.store.index ==> f == s.burns[p].family)
            && (forall k <- s.store.refresh :: k !in s'.store.refresh ==>
                s.burns[p].at.Deleting? && k in s.burns[p].at.batch)
  {
    if s.burns[p].at.DelIndex? {
      assert StepBurnAt(s, p, batch, d).store == s.store.DelIndex(s.burns[p].family);
    } else if s.burns[p].at.Deleting? {
      assert StepBurnAt(s, p, batch, d).store == s.store.DelRefresh(s.burns[p].at.batch);
    } else {
      assert StepBurnAt(s, p, batch, d).store == s.store;
    }
  }

  lemma {:induction false} RunKeeps(s: State, run: seq<Step>, ttl: Ttl)
    requires Inv(s, ttl) && Legal(s, run, ttl)
    ensures Inv(Exec(s, run, ttl), ttl)
    decreases |run|
  {
    if run != [] {
      StepKeeps(s, run[0], ttl);
      RunKeeps(Apply(s, run[0], ttl), run[1..], ttl);
    }
  }
}
