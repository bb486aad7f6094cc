/** Logins, refresh-token rotations, logouts and burns interleaved one Redis command at a time.

    Every call of session.ts is a process; its program counter names the Redis command it issues
    next. A run is any sequence of steps: time passing, a call starting, some process issuing its
    next command, or processes dying. The ids newId draws are idealised as never drawn before; the
    tokens presented to a rotation are arbitrary, and their family may be read as a pattern by SCAN. */
module SessionProtocol {
  import opened RefreshStore

  datatype LoginAt = SetSession | SetIndex | SetRefresh

  datatype Login = Login(id: Identity, family: Id, jti: Id, at: LoginAt)

  datatype RotationAt =
    | DelRefresh
    | GetIndex
    | GetSession(user: Id, readAt: int)
    | PutSession(user: Id, readAt: int, record: Record)
    | PutRefresh(readAt: int, record: Record)
    | AwaitBurn(child: nat) // the token was consumed, but the session record names another one

  datatype Rotation = Rotation(family: Id, jti: Id, at: RotationAt)
  {
    /** Past a successful DEL and not yet finished. */
    predicate Consumed() { !at.DelRefresh? }

    /** Has read the family index and may still succeed. */
    predicate PastIndex() { at.GetSession? || at.PutSession? || at.PutRefresh? }

    function ReadAt(): int
      requires PastIndex()
    {
      match at
      case GetSession(_, t) => t
      case PutSession(_, t, _) => t
      case PutRefresh(t, _) => t
    }

    /** The record about to be stored, once the new token has been drawn. */
    predicate Drawn() { at.PutSession? || at.PutRefresh? }

    function Pending(): Record
      requires Drawn()
    {
      if at.PutSession? then at.record else at.record
    }
  }

  datatype Logout = Logout(user: Id, read: bool)

  datatype BurnAt = DelIndex | OpenScan | Scanning(todo: set<Key>) | Deleting(todo: set<Key>, batch: set<Key>)

  datatype Burn = Burn(family: Id, at: BurnAt)

  /** A rotation that returned ok: the token it consumed, the session it returned (which names the
      new token), and when it read the family index. */
  datatype Exchange = Exchange(spent: Id, session: Record, readAt: int)

  datatype Option<+T> = None | Some(value: T)

  /** What has happened to a family, for the statements below; no process reads it. */
  datatype History = History(id: Identity, first: Id, indexedAt: Option<int>, done: seq<Exchange>)

  datatype State = State(
    store: Store,
    logins: map<nat, Login>,
    rotations: map<nat, Rotation>,
    logouts: map<nat, Logout>,
    burns: map<nat, Burn>,
    drawn: set<Id>, // every id newId has returned
    families: map<Id, History>)
  {
    function Recall(f: Id): History {
      if f in families then families[f] else History(Identity("", "", ""), "", None, [])
    }
  }

  const INIT := State(EMPTY, map[], map[], map[], map[], {}, map[])

  datatype Step =
    | Tick(d: nat)
    | BeginLogin(p: nat, id: Identity, family: Id, jti: Id)
    | StepLogin(p: nat)
    | BeginRotation(p: nat, family: Id, jti: Id)
    | StepRotation(p: nat, newId: Id, child: nat)
    | BeginLogout(p: nat, user: Id)
    | StepLogout(p: nat, child: nat)
    | StepBurn(p: nat, batch: set<Key>, scanDone: bool)
    | Crash(ls: set<nat>, rs: set<nat>, os: set<nat>, bs: set<nat>)

  predicate Enabled(s: State, step: Step) {
    match step
    case Tick(_) => true
    case BeginLogin(p, _, f, j) =>
        p !in s.logins && IsId(f) && IsId(j) && f !in s.drawn && j !in s.drawn && f != j
    case StepLogin(p) => p in s.logins
    case BeginRotation(p, _, _) => p !in s.rotations
    case StepRotation(p, n, child) =>
      p in s.rotations && child !in s.burns && (s.rotations[p].at.GetSession? ==> IsId(n) && n !in s.drawn) &&
      (s.rotations[p].at.AwaitBurn? ==> s.rotations[p].at.child !in s.burns)
    case BeginLogout(p, _) => p !in s.logouts
    case StepLogout(p, child) => p in s.logouts && child !in s.burns
    case StepBurn(p, batch, scanDone) =>
      p in s.burns &&
      (s.burns[p].at.Scanning? ==>
         // SCAN may end only once every key present throughout it has been returned
         if scanDone then s.burns[p].at.todo !! s.store.refresh.Keys
         else forall k <- batch :: Hits(s.burns[p].family, k))
    case Crash(_, _, _, _) => true
  }

  function SendSetSession(s: State, p: nat): State
    requires p in s.logins
  {
    var l := s.logins[p];
    s.(store := s.store.SetSession(l.id.user, Record(l.id, l.family, l.jti)),
       logins := s.logins[p := l.(at := SetIndex)])
  }

  function SendSetIndex(s: State, p: nat, ttl: Ttl): State
    requires p in s.logins
  {
    var l := s.logins[p];
    s.(store := s.store.SetIndex(l.family, l.id.user, ttl),
       logins := s.logins[p := l.(at := SetRefresh)],
       families := s.families[l.family := s.Recall(l.family).(indexedAt := Some(s.store.now))])
  }

  function SendSetRefresh(s: State, p: nat, ttl: Ttl): State
    requires p in s.logins
  {
    s.(store := s.store.SetRefresh(Key(s.logins[p].family, s.logins[p].jti), ttl), logins := s.logins - {p})
  }

  function StepLoginAt(s: State, p: nat, ttl: Ttl): State
    requires p in s.logins
  {
    match s.logins[p].at
    case SetSession => SendSetSession(s, p)
    case SetIndex => SendSetIndex(s, p, ttl)
    case SetRefresh => SendSetRefresh(s, p, ttl)
  }

  function SendDelRefresh(s: State, p: nat, child: nat): State
    requires p in s.rotations
  {
    var r := s.rotations[p];
    if Key(r.family, r.jti) in s.store.refresh then
      s.(store := s.store.DelRefresh({Key(r.family, r.jti)}), rotations := s.rotations[p := r.(at := GetIndex)])
    else // "reused", once the family is burnt
      s.(rotations := s.rotations - {p}, burns := s.burns[child := Burn(r.family, DelIndex)])
  }

  function SendGetIndex(s: State, p: nat): State
    requires p in s.rotations
  {
    var r, index := s.rotations[p], s.store.index;
    if r.family in index then
      s.(rotations := s.rotations[p := r.(at := GetSession(index[r.family].value, s.store.now))])
    else // "user_unknown"
      s.(rotations := s.rotations - {p})
  }

  function SendGetSession(s: State, p: nat, newId: Id, child: nat): State
    requires p in s.rotations && s.rotations[p].at.GetSession?
  {
    var r, session := s.rotations[p], s.store.session;
    if r.at.user !in session then // "expired"
      s.(rotations := s.rotations - {p})
    else if session[r.at.user].family != r.family || session[r.at.user].jti != r.jti then
      s.(rotations := s.rotations[p := r.(at := AwaitBurn(child))],
         burns := s.burns[child := Burn(r.family, DelIndex)])
    else
      s.(rotations := s.rotations[p := r.(at := PutSession(r.at.user, r.at.readAt, session[r.at.user].(jti := newId)))],
         drawn := s.drawn + {newId})
  }

  function SendPutSession(s: State, p: nat): State
    requires p in s.rotations && s.rotations[p].at.PutSession?
  {
    var r := s.rotations[p];
    s.(store := s.store.SetSession(r.at.user, r.at.record),
       rotations := s.rotations[p := r.(at := PutRefresh(r.at.readAt, r.at.record))])
  }

  function SendPutRefresh(s: State, p: nat, ttl: Ttl): State
    requires p in s.rotations && s.rotations[p].at.PutRefresh?
  {
    var r, h := s.rotations[p], s.Recall(s.rotations[p].family);
    s.(store := s.store.SetRefresh(Key(r.family, r.at.record.jti), ttl),
       rotations := s.rotations - {p},
       families := s.families[r.family := h.(done := h.done + [Exchange(r.jti, r.at.record, r.at.readAt)])])
  }

  function StepRotationAt(s: State, p: nat, newId: Id, child: nat, ttl: Ttl): State
    requires p in s.rotations
  {
    match s.rotations[p].at
    case DelRefresh => SendDelRefresh(s, p, child)
    case GetIndex => SendGetIndex(s, p)
    case GetSession(_, _) => SendGetSession(s, p, newId, child)
    case PutSession(_, _, _) => SendPutSession(s, p)
    case PutRefresh(_, _) => SendPutRefresh(s, p, ttl)
    case AwaitBurn(_) => s.(rotations := s.rotations - {p}) // "reused"
  }

  /** After reading the record, Promise.all deletes it and burns its family in either order. */
  function StepLogoutAt(s: State, p: nat, child: nat): State
    requires p in s.logouts
  {
    var o, session := s.logouts[p], s.store.session;
    if o.read then
      s.(store := s.store.DelSession(o.user), logouts := s.logouts - {p})
    else if o.user in session then
      s.(logouts := s.logouts[p := o.(read := true)],
         burns := s.burns[child := Burn(session[o.user].family, DelIndex)])
    else
      s.(logouts := s.logouts - {p})
  }

  function StepBurnAt(s: State, p: nat, batch: set<Key>, scanDone: bool): State
    requires p in s.burns
  {
    var b := s.burns[p];
    match b.at
    case DelIndex => s.(store := s.store.DelIndex(b.family), burns := s.burns[p := b.(at := OpenScan)])
    case OpenScan => s.(burns := s.burns[p := b.(at := Scanning(s.store.BurnKeys(b.family)))])
    case Scanning(todo) =>
      if scanDone then s.(burns := s.burns - {p})
      else s.(burns := s.burns[p := b.(at := Deleting(todo, batch))])
    case Deleting(todo, got) =>
      s.(store := s.store.DelRefresh(got), burns := s.burns[p := b.(at := Scanning(todo))])
  }

  function Apply(s: State, step: Step, ttl: Ttl): State
    requires Enabled(s, step)
  {
    match step
    case Tick(d) => s.(store := s.store.Advance(d))
    case BeginLogin(p, id, f, j) =>
      s.(logins := s.logins[p := Login(id, f, j, SetSession)], drawn := s.drawn + {f, j},
         families := s.families[f := History(id, j, None, [])])
    case StepLogin(p) => StepLoginAt(s, p, ttl)
    case BeginRotation(p, f, j) => s.(rotations := s.rotations[p := Rotation(f, j, DelRefresh)])
    case StepRotation(p, n, child) => StepRotationAt(s, p, n, child, ttl)
    case BeginLogout(p, u) => s.(logouts := s.logouts[p := Logout(u, false)])
    case StepLogout(p, child) => StepLogoutAt(s, p, child)
    case StepBurn(p, batch, scanDone) => StepBurnAt(s, p, batch, scanDone)
    case Crash(ls, rs, os, bs) =>
      s.(logins := s.logins - ls, rotations := s.rotations - rs, logouts := s.logouts - os, burns := s.burns - bs)
  }

  predicate Legal(s: State, run: seq<Step>, ttl: Ttl)
    decreases |run|
  {
    run == [] || (Enabled(s, run[0]) && Legal(Apply(s, run[0], ttl), run[1..], ttl))
  }

  function Exec(s: State, run: seq<Step>, ttl: Ttl): State
    requires Legal(s, run, ttl)
    decreases |run|
  {
    if run == [] then s else Exec(Apply(s, run[0], ttl), run[1..], ttl)
  }

  // ---------- The invariant ----------

  /** Every process belongs to a family some login opened, as far as its step needs to know. */
  ghost predicate Known(s: State) {
    && (forall p <- s.logins :: s.logins[p].family in s.families)
    && (forall p <- s.rotations :: s.rotations[p].Consumed() ==> s.rotations[p].family in s.families)
  }

  /** A family has one slot, held by its live refresh key, by its unfinished login, or by a rotation
      that has consumed its key and not yet finished. */
  ghost predicate OneSlot(s: State) {
    && (forall k, l :: k in s.store.refresh && l in s.store.refresh && k.family == l.family ==> k == l)
    && (forall p, q :: p in s.logins && q in s.logins && s.logins[p].family == s.logins[q].family ==> p == q)
    && (forall p, q ::
          p in s.rotations && q in s.rotations && p != q && s.rotations[p].Consumed() && s.rotations[q].Consumed()
          ==> s.rotations[p].family != s.rotations[q].family)
    && (forall p, k :: p in s.logins && k in s.store.refresh ==> s.logins[p].family != k.family)
    && (forall p, k :: p in s.rotations && k in s.store.refresh && s.rotations[p].Consumed()
          ==> s.rotations[p].family != k.family)
    && (forall p, q :: p in s.logins && q in s.rotations && s.rotations[q].Consumed()
          ==> s.logins[p].family != s.rotations[q].family)
  }

  /** Every family in use was opened by a login, whose identity its session records keep. */
  ghost predicate Recorded(s: State)
    requires Known(s)
  {
    && (forall f <- s.families :: f in s.drawn)
    && (forall k <- s.store.refresh :: k.family in s.families)
    && (forall u <- s.store.session :: Keeps(s, s.store.session[u], u))
    && (forall p <- s.logins :: s.families[s.logins[p].family].id == s.logins[p].id)
    && (forall p <- s.rotations :: s.rotations[p].Drawn() ==>
          s.rotations[p].Pending().family == s.rotations[p].family &&
          Keeps(s, s.rotations[p].Pending(), s.rotations[p].Pending().id.user))
    && (forall p <- s.rotations :: s.rotations[p].at.PutSession? ==>
          s.rotations[p].at.user == s.rotations[p].Pending().id.user)
  }

  ghost predicate Keeps(s: State, r: Record, u: Id) {
    r.id.user == u && r.family in s.families && s.families[r.family].id == r.id
  }

  /** The index is written once per family, at login, and names that login's user; whoever reads it
      does so before the login's time to live has run out. */
  ghost predicate Indexed(s: State, ttl: Ttl)
    requires Known(s)
  {
    && (forall f <- s.store.index :: f in s.families && s.families[f].indexedAt.Some? &&
          s.store.index[f] == Timed(s.families[f].id.user, s.families[f].indexedAt.value + ttl) &&
          s.store.now < s.store.index[f].exp)
    && (forall p <- s.logins :: !s.logins[p].at.SetRefresh? ==> s.families[s.logins[p].family].indexedAt.None?)
    && (forall p <- s.rotations :: s.rotations[p].PastIndex() ==>
          InTime(s.families[s.rotations[p].family], s.rotations[p].ReadAt(), ttl))
    && (forall f <- s.families :: Timely(s.families[f], ttl))
  }

  ghost predicate Timely(h: History, ttl: Ttl) { forall e <- h.done :: InTime(h, e.readAt, ttl) }

  predicate InTime(h: History, t: int, ttl: Ttl) { h.indexedAt.Some? && t < h.indexedAt.value + ttl }

  /** The tokens issued in a family, oldest first. */
  function Issued(h: History): (r: seq<Id>)
    ensures |r| == |h.done| + 1
  {
    [h.first] + seq(|h.done|, i requires 0 <= i < |h.done| => h.done[i].session.jti)
  }

  function Tip(h: History): Id { if h.done == [] then h.first else h.done[|h.done| - 1].session.jti }

  /** A family's exchanges form one line: each spends the token issued before it, no token is issued
      twice, and every session returned carries the login's identity. */
  ghost predicate OneLine(h: History, f: Id) {
    && (forall i :: 0 <= i < |h.done| ==> h.done[i].spent == Issued(h)[i])
    && (forall i, j :: 0 <= i < j < |Issued(h)| ==> Issued(h)[i] != Issued(h)[j])
    && (forall i :: 0 <= i < |h.done| ==> h.done[i].session.id == h.id && h.done[i].session.family == f)
  }

  /** Whatever holds the slot holds the end of that line, and the next token is new to it. */
  ghost predicate AtTip(s: State, f: Id)
    requires f in s.families
  {
    var h := s.families[f];
    && OneLine(h, f)
    && (forall x <- Issued(h) :: x in s.drawn)
    && (forall k <- s.store.refresh :: k.family == f ==> k.jti == Tip(h))
    && (forall p <- s.logins :: s.logins[p].family == f ==> s.logins[p].jti == Tip(h))
    && (forall p <- s.rotations :: s.rotations[p].family == f && s.rotations[p].Consumed() ==>
        s.rotations[p].jti == Tip(h))
    && (forall p <- s.rotations :: s.rotations[p].family == f && s.rotations[p].Drawn() ==>
          s.rotations[p].Pending().jti in s.drawn && s.rotations[p].Pending().jti !in Issued(h))
  }

  ghost predicate Inv(s: State, ttl: Ttl) {
    Known(s) && OneSlot(s) && Recorded(s) && Indexed(s, ttl) && forall f <- s.families :: AtTip(s, f)
  }
}
