/** The calls of session.ts run one at a time: an object over the Redis keys, and the relation its
    keys keep to the only thing a caller cares about, which user holds which valid token. */
module SessionService {
  import opened BurnPattern
  import opened RefreshStore
  import opened Strings

  datatype Reason = Missing | Reused | Expired | UserUnknown

  datatype Outcome = Rotated(session: Record, token: string) | Refused(reason: Reason)

  function Token(f: Id, j: Id): string { f + "." + j }

  /** What rotateRefresh reads out of a token: its first two parts, if neither is empty. */
  predicate Wellformed(token: string) {
    var parts := Split(token, '.');
    |parts| >= 2 && parts[0] != "" && parts[1] != ""
  }

  function Parse(token: string): Key
    requires Wellformed(token)
  {
    var parts := Split(token, '.');
    Key(parts[0], parts[1])
  }

  lemma TokenRoundTrip(f: Id, j: Id)
    requires IsId(f) && IsId(j)
    ensures Wellformed(Token(f, j)) && Parse(Token(f, j)) == Key(f, j)
  {
    SplitFirst(f, '.', j);
    SplitWhole(j, '.');
  }

  // ---------- What each call leaves behind ----------

  function AfterLogin(st: Store, id: Identity, f: Id, j: Id, ttl: Ttl): Store {
    st.SetSession(id.user, Record(id, f, j)).SetIndex(f, id.user, ttl).SetRefresh(Key(f, j), ttl)
  }

  function AfterBurn(st: Store, f: Id): Store { st.DelIndex(f).DelRefresh(st.BurnKeys(f)) }

  datatype Attempt = Attempt(store: Store, result: Outcome)

  function AfterRotation(st: Store, k: Key, newId: Id, ttl: Ttl): Attempt {
    if k !in st.refresh then Attempt(AfterBurn(st, k.family), Refused(Reused))
    else
      var st1 := st.DelRefresh({k});
      if k.family !in st1.index then Attempt(st1, Refused(UserUnknown))
      else
        var u := st1.index[k.family].value;
        if u !in st1.session then Attempt(st1, Refused(Expired))
        else if st1.session[u].family != k.family || st1.session[u].jti != k.jti then
          Attempt(AfterBurn(st1, k.family), Refused(Reused))
        else
          var r := st1.session[u].(jti := newId);
          Attempt(st1.SetSession(u, r).SetRefresh(Key(k.family, newId), ttl), Rotated(r, Token(k.family, newId)))
  }

  function AfterLogout(st: Store, u: Id): Store {
    if u in st.session then AfterBurn(st.DelSession(u), st.session[u].family) else st
  }

  // ---------- The abstract view ----------

  /** u's session record names a live token of a family indexed to u. */
  predicate HasToken(st: Store, u: Id) {
    && u in st.session
    && st.session[u].family in st.index && st.index[st.session[u].family].value == u
    && Key(st.session[u].family, st.session[u].jti) in st.refresh
  }

  /** The valid token of each user: at most one. */
  function Tokens(st: Store): map<Id, Key> {
    map u | u in st.session && HasToken(st, u) :: Key(st.session[u].family, st.session[u].jti)
  }

  datatype Option<+T> = None | Some(value: T)

  function TokenOf(st: Store, u: Id): Option<Key> {
    if HasToken(st, u) then Some(Key(st.session[u].family, st.session[u].jti)) else None
  }

  function Get(m: map<Id, Key>, u: Id): Option<Key> { if u in m then Some(m[u]) else None }

  lemma TokensAre(st: Store, m: map<Id, Key>)
    requires forall u: Id :: TokenOf(st, u) == Get(m, u)
    ensures Tokens(st) == m
  {
    forall u: Id ensures Get(Tokens(st), u) == Get(m, u) { assert TokenOf(st, u) == Get(m, u); }
    forall u: Id ensures u in Tokens(st) <==> u in m { assert Get(Tokens(st), u) == Get(m, u); }
    forall u <- m ensures Tokens(st)[u] == m[u] { assert Get(Tokens(st), u) == Get(m, u); }
  }

  /** One refresh key a family. */
  ghost predicate OneKey(st: Store) {
    forall k, l :: k in st.refresh && l in st.refresh && k.family == l.family ==> k == l
  }

  /** Records and indices name the user they are kept under. */
  ghost predicate OwnRecord(st: Store, u: Id)
    requires u in st.session
  {
    && st.session[u].id.user == u && IsId(st.session[u].family)
    && (st.session[u].family in st.index ==> st.index[st.session[u].family].value == u)
  }

  /** Every live key is of two ids that newId drew. */
  ghost predicate OfIds(st: Store) { forall k <- st.refresh :: IsId(k.family) && IsId(k.jti) }

  ghost predicate Serial(st: Store) { OneKey(st) && OfIds(st) && forall u <- st.session :: OwnRecord(st, u) }

  ghost predicate Unused(st: Store, f: Id) {
    && f !in st.index
    && (forall k <- st.refresh :: k.family != f)
    && (forall u <- st.session :: st.session[u].family != f)
  }

  function Without(tokens: map<Id, Key>, f: Id): map<Id, Key> {
    map u | u in tokens && tokens[u].family != f :: tokens[u]
  }

  /** The tokens a burn of f leaves: those its pattern does not hit. */
  function Unhit(tokens: map<Id, Key>, f: Id): map<Id, Key> {
    map u | u in tokens && !Hits(f, tokens[u]) :: tokens[u]
  }

  /** Which is all but its family's when f is exact. */
  lemma UnhitIsWithout(st: Store, f: Id)
    requires Serial(st) && Exact(f)
    ensures Unhit(Tokens(st), f) == Without(Tokens(st), f)
  {
    forall u <- Tokens(st) ensures Hits(f, Tokens(st)[u]) <==> Tokens(st)[u].family == f {
      ExactHits(f, Tokens(st)[u]);
    }
  }

  lemma LoginToken(st: Store, id: Identity, f: Id, j: Id, ttl: Ttl, u: Id)
    requires Unused(st, f)
    ensures TokenOf(AfterLogin(st, id, f, j, ttl), u) == if u == id.user then Some(Key(f, j)) else TokenOf(st, u)
  {
  }

  lemma LoginSerial(st: Store, id: Identity, f: Id, j: Id, ttl: Ttl)
    requires Serial(st) && Unused(st, f) && IsId(f) && IsId(j)
    ensures Serial(AfterLogin(st, id, f, j, ttl))
  {
    var st' := AfterLogin(st, id, f, j, ttl);
    forall u <- st'.session ensures OwnRecord(st', u) { if u != id.user { assert OwnRecord(st, u); } }
  }

  /** A login gives its user a new token in place of any old one and touches nobody else's. */
  lemma LoginReplaces(st: Store, id: Identity, f: Id, j: Id, ttl: Ttl)
    requires Serial(st) && Unused(st, f) && IsId(f) && IsId(j)
    ensures Serial(AfterLogin(st, id, f, j, ttl))
    ensures Tokens(AfterLogin(st, id, f, j, ttl)) == Tokens(st)[id.user := Key(f, j)]
  {
    LoginSerial(st, id, f, j, ttl);
    forall u: Id ensures TokenOf(AfterLogin(st, id, f, j, ttl), u) == Get(Tokens(st)[id.user := Key(f, j)], u) {
      LoginToken(st, id, f, j, ttl, u);
    }
    TokensAre(AfterLogin(st, id, f, j, ttl), Tokens(st)[id.user := Key(f, j)]);
  }

  lemma BurnToken(st: Store, f: Id, u: Id)
    requires Serial(st)
    ensures TokenOf(AfterBurn(st, f), u) == Get(Unhit(Tokens(st), f), u)
  {
    if HasToken(st, u) && st.session[u].family == f { PlainHits(f, Key(f, st.session[u].jti)) by { IdsArePlain(f); } }
  }

  lemma BurnSerial(st: Store, f: Id)
    requires Serial(st)
    ensures Serial(AfterBurn(st, f))
  {
    forall u <- st.session ensures OwnRecord(AfterBurn(st, f), u) { assert OwnRecord(st, u); }
  }

  /** A burn takes exactly the tokens its pattern hits; of an exact id, exactly its family's. */
  lemma BurnClearsFamily(st: Store, f: Id)
    requires Serial(st)
    ensures Serial(AfterBurn(st, f)) && Tokens(AfterBurn(st, f)) == Unhit(Tokens(st), f)
    ensures Exact(f) ==> Tokens(AfterBurn(st, f)) == Without(Tokens(st), f)
  {
    BurnSerial(st, f);
    forall u: Id ensures TokenOf(AfterBurn(st, f), u) == Get(Unhit(Tokens(st), f), u) { BurnToken(st, f, u); }
    TokensAre(AfterBurn(st, f), Unhit(Tokens(st), f));
    if Exact(f) { UnhitIsWithout(st, f); }
  }

  ghost predicate TakesItsFamily(f: Id) {
    forall st: Store | Serial(st) :: Tokens(AfterBurn(st, f)) == Without(Tokens(st), f)
  }

  /** A store with one user, u, whose valid token is k. */
  function OneToken(u: Id, k: Key): Store {
    Store(map[u := Record(Identity(u, "", ""), k.family, k.jti)], map[k.family := Timed(u, 1)], map[k := 1], 0)
  }

  /** A burn takes exactly its own family's tokens, in every store, exactly when its id is exact. */
  lemma BurnExactIff(f: Id)
    ensures TakesItsFamily(f) <==> Exact(f)
  {
    if Exact(f) {
      forall st: Store | Serial(st) ensures Tokens(AfterBurn(st, f)) == Without(Tokens(st), f) {
        BurnClearsFamily(st, f);
      }
    } else {
      var k := InexactHits(f);
      var st := OneToken("u", k);
      assert Serial(st) && "u" in Tokens(st) && Tokens(st)["u"] == k;
      BurnClearsFamily(st, f);
      assert "u" in Without(Tokens(st), f) && "u" !in Unhit(Tokens(st), f);
    }
  }

  /** Consuming a key takes the token of whoever held it. */
  lemma DelClears(st: Store, k: Key)
    requires Serial(st)
    ensures Serial(st.DelRefresh({k}))
    ensures Tokens(st.DelRefresh({k})) == map u | u in Tokens(st) && Tokens(st)[u] != k :: Tokens(st)[u]
  {
  }

  /** The record and the key written by a rotation give the user its new token. */
  lemma ReissueGives(st: Store, u: Id, f: Id, newId: Id, ttl: Ttl)
    requires Serial(st) && u in st.session && st.session[u].family == f && f in st.index && IsId(newId)
    requires forall k <- st.refresh :: k.family != f
    ensures var st' := st.SetSession(u, st.session[u].(jti := newId)).SetRefresh(Key(f, newId), ttl);
            Serial(st') && Tokens(st') == Tokens(st)[u := Key(f, newId)]
  {
  }

  /** Which tokens a rotation accepts. */
  predicate Accepts(st: Store, k: Key) {
    && k in st.refresh && k.family in st.index
    && st.index[k.family].value in st.session
    && st.session[st.index[k.family].value].family == k.family && st.session[st.index[k.family].value].jti == k.jti
  }

  lemma AcceptedIsHeld(st: Store, k: Key)
    requires Serial(st)
    ensures Accepts(st, k) <==> k in Tokens(st).Values
    ensures Accepts(st, k) ==> st.index[k.family].value in Tokens(st) && Tokens(st)[st.index[k.family].value] == k
  {
    if Accepts(st, k) {
      assert Tokens(st)[st.index[k.family].value] == k;
    }
  }

  /** A rotation succeeds exactly on some user's valid token, which it replaces. A token already
      consumed takes what its family's burn hits, which is its family if the id is exact; any other
      refused token changes nobody's. */
  lemma RotationRefines(st: Store, k: Key, newId: Id, ttl: Ttl)
    requires Serial(st) && IsId(newId)
    ensures var a := AfterRotation(st, k, newId, ttl);
            && Serial(a.store)
            && (a.result.Rotated? <==> k in Tokens(st).Values)
            && (a.result.Rotated? ==>
                  var u := a.result.session.id.user;
                  && u in Tokens(st) && Tokens(st)[u] == k
                  && a.result == Rotated(st.session[u].(jti := newId), Token(k.family, newId))
                  && Tokens(a.store) == Tokens(st)[u := Key(k.family, newId)])
            && (!a.result.Rotated? ==>
                  Tokens(a.store) == if k in st.refresh then Tokens(st) else Unhit(Tokens(st), k.family))
            && (!a.result.Rotated? && k !in st.refresh && Exact(k.family) ==>
                Tokens(a.store) == Without(Tokens(st), k.family))
  {
    AcceptedIsHeld(st, k);
    if Accepts(st, k) {
      RotationSucceeds(st, k, newId, ttl);
    } else {
      RotationRefused(st, k, newId, ttl);
      if Exact(k.family) { UnhitIsWithout(st, k.family); }
    }
  }

  lemma IdsAreExact(f: Id)
    ensures IsId(f) ==> Exact(f)
  {
  }

  lemma RotationSucceeds(st: Store, k: Key, newId: Id, ttl: Ttl)
    requires Serial(st) && Accepts(st, k) && IsId(newId)
    ensures var a, u := AfterRotation(st, k, newId, ttl), st.index[k.family].value;
            && Serial(a.store)
            && a.result == Rotated(st.session[u].(jti := newId), Token(k.family, newId))
            && st.session[u].id.user == u
            && Tokens(a.store) == Tokens(st)[u := Key(k.family, newId)]
  {
    var u, st1 := st.index[k.family].value, st.DelRefresh({k});
    DelClears(st, k);
    ReissueGives(st1, u, k.family, newId, ttl);
    AcceptedIsHeld(st, k);
    OnlyItsUser(st, k);
    Overwrite(Tokens(st), u, k, Key(k.family, newId));
  }

  lemma Overwrite(m: map<Id, Key>, u: Id, k: Key, l: Key)
    requires u in m && forall v <- m :: m[v] == k <==> v == u
    ensures (map v | v in m && m[v] != k :: m[v])[u := l] == m[u := l]
    ensures k.family == l.family && (forall v <- m :: m[v].family == k.family ==> m[v] == k) ==>
              Without(m[u := l], k.family) == m - {u}
  {
  }

  lemma OnlyItsUser(st: Store, k: Key)
    requires Serial(st) && Accepts(st, k)
    ensures forall v <- Tokens(st) :: Tokens(st)[v] == k <==> v == st.index[k.family].value
  {
  }

  lemma RotationRefused(st: Store, k: Key, newId: Id, ttl: Ttl)
    requires Serial(st) && !Accepts(st, k)
    ensures var a := AfterRotation(st, k, newId, ttl);
            && Serial(a.store) && a.result.Refused?
            && Tokens(a.store) == if k in st.refresh then Tokens(st) else Unhit(Tokens(st), k.family)
  {
    if k in st.refresh {
      var st1 := st.DelRefresh({k});
      UnheldLost(st, k);
      IdsAreExact(k.family);
      BurnClearsFamily(st1, k.family);
      assert AfterRotation(st, k, newId, ttl).store in {st1, AfterBurn(st1, k.family)};
    } else {
      BurnClearsFamily(st, k.family);
    }
  }

  /** Consuming a live key nobody holds changes nobody's token, and no token of its family is left. */
  lemma UnheldLost(st: Store, k: Key)
    requires Serial(st) && !Accepts(st, k) && k in st.refresh
    ensures var st1 := st.DelRefresh({k});
            Serial(st1) && Tokens(st1) == Tokens(st) && Without(Tokens(st1), k.family) == Tokens(st)
  {
    AcceptedIsHeld(st, k);
    NobodyElse(st, k);
    DelClears(st, k);
  }

  /** No user holds a token of the family of a live key other than that key. */
  lemma NobodyElse(st: Store, k: Key)
    requires Serial(st) && k in st.refresh
    ensures forall u <- Tokens(st) :: Tokens(st)[u].family == k.family ==> Tokens(st)[u] == k
  {
  }

  lemma LogoutToken(st: Store, u: Id, v: Id)
    requires Serial(st)
    ensures TokenOf(AfterLogout(st, u), v) == Get(Tokens(st) - {u}, v)
  {
    if u in st.session {
      assert OwnRecord(st, u);
      if v in st.session { assert OwnRecord(st, v); }
      var st1, f := st.DelSession(u), st.session[u].family;
      LogoutRest(st, u);
      BurnToken(st1, f, v);
      if HasToken(st1, v) { ExactHits(f, Key(st1.session[v].family, st1.session[v].jti)); }
    }
  }

  lemma LogoutRest(st: Store, u: Id)
    requires Serial(st) && u in st.session
    ensures Serial(st.DelSession(u)) && Tokens(st.DelSession(u)) == Tokens(st) - {u}
  {
    var st1 := st.DelSession(u);
    forall v <- st1.session ensures OwnRecord(st1, v) { assert OwnRecord(st, v); }
  }

  lemma LogoutSerial(st: Store, u: Id)
    requires Serial(st)
    ensures Serial(AfterLogout(st, u))
  {
    if u in st.session {
      LogoutRest(st, u);
      BurnSerial(st.DelSession(u), st.session[u].family);
    }
  }

  /** Logging out takes the user's token and nobody else's. */
  lemma LogoutClears(st: Store, u: Id)
    requires Serial(st)
    ensures Serial(AfterLogout(st, u)) && Tokens(AfterLogout(st, u)) == Tokens(st) - {u}
  {
    LogoutSerial(st, u);
    forall v: Id ensures TokenOf(AfterLogout(st, u), v) == Get(Tokens(st) - {u}, v) { LogoutToken(st, u, v); }
    TokensAre(AfterLogout(st, u), Tokens(st) - {u});
  }

  /** Presenting a rotated token again is refused and costs the user the token it was rotated to. */
  lemma ReplayBurns(st: Store, k: Key, newId: Id, newer: Id, ttl: Ttl)
    requires Serial(st) && AfterRotation(st, k, newId, ttl).result.Rotated? && newId != k.jti && IsId(newId)
    ensures var first := AfterRotation(st, k, newId, ttl);
            var again := AfterRotation(first.store, k, newer, ttl);
            again.result == Refused(Reused) && Tokens(again.store) == Tokens(st) - {first.result.session.id.user}
  {
    var first, u := AfterRotation(st, k, newId, ttl), st.index[k.family].value;
    RotationSucceeds(st, k, newId, ttl);
    SpentIsGone(st, k, newId, ttl);
    IdsAreExact(k.family);
    BurnClearsFamily(first.store, k.family);
    NobodyElse(st, k);
    AcceptedIsHeld(st, k);
    OnlyItsUser(st, k);
    Overwrite(Tokens(st), u, k, Key(k.family, newId));
  }

  lemma SpentIsGone(st: Store, k: Key, newId: Id, ttl: Ttl)
    requires newId != k.jti && AfterRotation(st, k, newId, ttl).result.Rotated?
    ensures k !in AfterRotation(st, k, newId, ttl).store.refresh
  {
  }

  /** Waiting never gives anybody a token. */
  lemma WaitingOnlyExpires(st: Store, d: nat)
    requires Serial(st)
    ensures Serial(st.Advance(d))
    ensures forall u <- Tokens(st.Advance(d)) :: u in Tokens(st) && Tokens(st.Advance(d))[u] == Tokens(st)[u]
  {
  }

  // ---------- Serial runs ----------

  datatype Call =
    | Login(id: Identity, family: Id, jti: Id)
    | Rotate(token: string, newId: Id)
    | Logout(user: Id)
    | Pass(ticks: nat)

  function AfterCall(st: Store, call: Call, ttl: Ttl): Store {
    match call
    case Login(id, f, j) => AfterLogin(st, id, f, j, ttl)
    case Rotate(token, newId) => if Wellformed(token) then AfterRotation(st, Parse(token), newId, ttl).store else st
    case Logout(u) => AfterLogout(st, u)
    case Pass(d) => st.Advance(d)
  }

  /** Ids come from newId, and a login's family id is new. */
  ghost predicate Fits(st: Store, call: Call) {
    match call
    case Login(_, f, j) => Unused(st, f) && IsId(f) && IsId(j)
    case Rotate(_, newId) => IsId(newId)
    case _ => true
  }

  /** What a call may do to the map from users to their valid tokens. */
  ghost predicate Permitted(m: map<Id, Key>, call: Call, m': map<Id, Key>) {
    match call
    case Login(id, f, j) => m' == m[id.user := Key(f, j)]
    case Rotate(token, newId) =>
      if Wellformed(token) && Parse(token) in m.Values
      then exists u <- m :: m[u] == Parse(token) && m' == m[u := Key(m[u].family, newId)]
      else m' == m || (Wellformed(token) && m' == Unhit(m, Parse(token).family))
    case Logout(u) => m' == m - {u}
    case Pass(_) => forall u <- m' :: u in m && m'[u] == m[u]
  }

  lemma CallRefines(st: Store, call: Call, ttl: Ttl)
    requires Serial(st) && Fits(st, call)
    ensures Serial(AfterCall(st, call, ttl)) && Permitted(Tokens(st), call, Tokens(AfterCall(st, call, ttl)))
  {
    match call
    case Login(id, f, j) => LoginReplaces(st, id, f, j, ttl);
    case Rotate(token, newId) => if Wellformed(token) { RotationRefines(st, Parse(token), newId, ttl); }
    case Logout(u) => LogoutClears(st, u);
    case Pass(d) => WaitingOnlyExpires(st, d);
  }

  ghost predicate AllFit(st: Store, calls: seq<Call>, ttl: Ttl)
    decreases |calls|
  {
    calls == [] || (Fits(st, calls[0]) && AllFit(AfterCall(st, calls[0], ttl), calls[1..], ttl))
  }

  ghost predicate AllPermitted(st: Store, calls: seq<Call>, ttl: Ttl)
    decreases |calls|
  {
    calls == [] ||
    var next := AfterCall(st, calls[0], ttl);
    Permitted(Tokens(st), calls[0], Tokens(next)) && AllPermitted(next, calls[1..], ttl)
  }

  /** Every serial run of the keys is a run of the map. */
  lemma {:induction false} SerialRunRefines(st: Store, calls: seq<Call>, ttl: Ttl)
    requires Serial(st) && AllFit(st, calls, ttl)
    ensures AllPermitted(st, calls, ttl)
    decreases |calls|
  {
    if calls != [] {
      CallRefines(st, calls[0], ttl);
      SerialRunRefines(AfterCall(st, calls[0], ttl), calls[1..], ttl);
    }
  }

  /** From the empty store on, with no valid token to begin with. */
  lemma SerialRuns(calls: seq<Call>, ttl: Ttl)
    requires AllFit(EMPTY, calls, ttl)
    ensures Tokens(EMPTY) == map[] && AllPermitted(EMPTY, calls, ttl)
  {
    SerialRunRefines(EMPTY, calls, ttl);
  }

  /** A token whose family is a star is refused as reused, and its burn takes every user's token. */
  lemma StarTakesAll(st: Store, newId: Id, ttl: Ttl)
    requires Serial(st) && IsId(newId)
    ensures Wellformed("*.x") && Parse("*.x") == Key("*", "x")
    ensures var a := AfterRotation(st, Key("*", "x"), newId, ttl);
            a.result == Refused(Reused) && Tokens(a.store) == map[]
  {
    SplitFirst("*", '.', "x");
    SplitWhole("x", '.');
    assert "*" + ['.'] + "x" == "*.x";
    if Key("*", "x") in st.refresh { StarHits(Key("*", "x")); }
    RotationRefines(st, Key("*", "x"), newId, ttl);
    forall u <- Tokens(st) ensures Hits("*", Tokens(st)[u]) { StarHits(Tokens(st)[u]); }
  }

  // ---------- The calls themselves ----------

  /** One caller's view of the Redis keys, with nobody else issuing commands during a call. */
  class Sessions {
    var session: map<Id, Record>
    var index: map<Id, Timed<Id>>
    var refresh: map<Key, int>
    var now: int
    const ttl: Ttl

    function State(): Store
      reads this
    {
      Store(session, index, refresh, now)
    }

    constructor (ttl: Ttl)
      ensures State() == EMPTY && this.ttl == ttl
    {
      session, index, refresh, now := map[], map[], map[], 0;
      this.ttl := ttl;
    }

    method StartSession(id: Identity, familyId: Id, refreshJti: Id) returns (token: string)
      requires IsId(familyId) && IsId(refreshJti)
      modifies this
      ensures State() == AfterLogin(old(State()), id, familyId, refreshJti, ttl)
      ensures Wellformed(token) && Parse(token) == Key(familyId, refreshJti)
    {
      TokenRoundTrip(familyId, refreshJti);
      session := session[id.user := Record(id, familyId, refreshJti)];
      index := index[familyId := Timed(id.user, now + ttl)];
      refresh := refresh[Key(familyId, refreshJti) := now + ttl];
      token := Token(familyId, refreshJti);
    }

    /** SCAN hands the keys its pattern hits back in batches of its choosing; empty ones are skipped. */
    method BurnFamily(familyId: Id)
      modifies this
      ensures State() == AfterBurn(old(State()), familyId)
    {
      index := index - {familyId};
      var left := set k | k in refresh && Hits(familyId, k);
      ghost var all := left;
      while left != {}
        invariant left <= all
        invariant State() == old(State()).DelIndex(familyId).DelRefresh(all - left)
      {
        assert left <= left;
        var keys :| keys <= left && keys != {};
        refresh := refresh - keys;
        assert old(refresh) - (all - left) - keys == old(refresh) - (all - (left - keys));
        left := left - keys;
      }
      assert all - left == all;
    }

    method RotateRefresh(refreshToken: string, newJti: Id) returns (outcome: Outcome)
      modifies this
      ensures !Wellformed(refreshToken) ==> outcome == Refused(Missing) && State() == old(State())
      ensures Wellformed(refreshToken) ==>
                Attempt(State(), outcome) == AfterRotation(old(State()), Parse(refreshToken), newJti, ttl)
    {
      var parts := Split(refreshToken, '.');
      if |parts| < 2 || parts[0] == "" || parts[1] == "" {
        return Refused(Missing);
      }
      var familyId, oldJti := parts[0], parts[1];

      if Key(familyId, oldJti) !in refresh {
        BurnFamily(familyId);
        return Refused(Reused);
      }
      refresh := refresh - {Key(familyId, oldJti)};

      if familyId !in index {
        return Refused(UserUnknown);
      }
      var userId := index[familyId].value;
      if userId !in session {
        return Refused(Expired);
      }
      var record := session[userId];
      if record.family != familyId || record.jti != oldJti {
        BurnFamily(familyId);
        return Refused(Reused);
      }

      record := record.(jti := newJti);
      session := session[userId := record];
      refresh := refresh[Key(familyId, newJti) := now + ttl];
      outcome := Rotated(record, Token(familyId, newJti));
    }

    method EndSession(userId: Id) returns (ended: bool)
      modifies this
      ensures State() == AfterLogout(old(State()), userId)
      ensures ended <==> userId in old(session)
    {
      if userId !in session {
        return false;
      }
      var record := session[userId];
      session := session - {userId};
      BurnFamily(record.family);
      ended := true;
    }

    method Wait(d: nat)
      modifies this
      ensures State() == old(State()).Advance(d)
    {
      var t := now + d;
      index := map f | f in index && index[f].exp > t :: index[f];
      refresh := map k | k in refresh && refresh[k] > t :: refresh[k];
      now := t;
    }
  }
}
