/** The registry of alert watchers: four redundant Redis indices (frontend/lib/watcher-registry.ts),
    and the one relation they stand for. Each operation is one atomic step and no key expires. */
module WatcherRegistry {
  import Strings

  datatype Option<+T> = None | Some(value: T)

  datatype Meta = Meta(userId: string, tenantId: string, pushUrl: string, lastSeen: int)

  type Pair = (string, string)

  /** watcher_meta, alert_watchers by (tenant, alert), user_dos by (tenant, user), do_alerts. */
  datatype Indices = Indices(
    metas: map<string, Meta>,
    alertWatchers: map<Pair, set<string>>,
    userDos: map<Pair, set<string>>,
    doAlerts: map<string, set<string>>)

  /** The relation: who each Durable Object belongs to, and which alerts it watches. */
  datatype Registry = Registry(owner: map<string, Meta>, watches: set<Pair>)

  const NOTHING := Indices(map[], map[], map[], map[])

  // ---------- Redis sets ----------

  function At<K>(m: map<K, set<string>>, k: K): set<string> { if k in m then m[k] else {} }

  function Sadd<K>(m: map<K, set<string>>, k: K, v: string): map<K, set<string>> { m[k := At(m, k) + {v}] }

  /** A set that becomes empty is no longer a key. */
  function Srem<K>(m: map<K, set<string>>, k: K, v: string): map<K, set<string>> {
    if At(m, k) - {v} == {} then m - {k} else m[k := At(m, k) - {v}]
  }

  ghost predicate NoEmpty<K(!new)>(m: map<K, set<string>>) { forall k <- m :: m[k] != {} }

  lemma SaddAt<K(!new)>(m: map<K, set<string>>, k: K, v: string)
    requires NoEmpty(m)
    ensures NoEmpty(Sadd(m, k, v))
    ensures forall j, w :: w in At(Sadd(m, k, v), j) <==> w in At(m, j) || (j == k && w == v)
  {
  }

  lemma SremAt<K(!new)>(m: map<K, set<string>>, k: K, v: string)
    requires NoEmpty(m)
    ensures NoEmpty(Srem(m, k, v))
    ensures forall j, w :: w in At(Srem(m, k, v), j) <==> w in At(m, j) && !(j == k && w == v)
  {
  }

  /** Key strings of two colon-free tenants are equal only for equal pairs. */
  lemma KeysAreInjective(prefix: string, t: string, a: string, u: string, b: string)
    requires ':' !in t && ':' !in u
    requires prefix + (t + [':'] + a) == prefix + (u + [':'] + b)
    ensures t == u && a == b
  {
    var x, y := t + [':'] + a, u + [':'] + b;
    assert (prefix + x)[|prefix|..] == x && (prefix + y)[|prefix|..] == y;
    Strings.SplitFirst(t, ':', a);
    Strings.SplitFirst(u, ':', b);
    assert ([t] + Strings.Split(a, ':'))[0] == t && ([u] + Strings.Split(b, ':'))[0] == u;
    assert x[|t| + 1..] == a && y[|u| + 1..] == b;
  }

  // ---------- The operations on the indices ----------

  function AfterRegister(x: Indices, d: string, m: Meta, alert: string): Indices {
    Indices(x.metas[d := m],
            Sadd(x.alertWatchers, (m.tenantId, alert), d),
            Sadd(x.userDos, (m.tenantId, m.userId), d),
            Sadd(x.doAlerts, d, alert))
  }

  /** The tenant whose alert set a deregistration edits: the one given, else the meta's. */
  function TenantFor(x: Indices, d: string, given: Option<string>): Option<string> {
    if given.Some? then given
    else if d in x.metas then Some(x.metas[d].tenantId)
    else None
  }

  function AfterUnwatch(x: Indices, d: string, alert: string, given: Option<string>): Indices {
    var tenant := TenantFor(x, d, given);
    x.(alertWatchers := if tenant.Some? && tenant.value != "" then Srem(x.alertWatchers, (tenant.value, alert), d)
                        else x.alertWatchers,
       doAlerts := Srem(x.doAlerts, d, alert))
  }

  predicate Cut(k: Pair, tenant: string, alerts: set<string>) { k.0 == tenant && k.1 in alerts }

  /** d removed from the sets of every alert in alerts. */
  function SremEach(m: map<Pair, set<string>>, tenant: string, alerts: set<string>, d: string): map<Pair, set<string>> {
    map k <- m | !(Cut(k, tenant, alerts) && m[k] - {d} == {}) :: if Cut(k, tenant, alerts) then m[k] - {d} else m[k]
  }

  function AfterDeregister(x: Indices, d: string): Indices {
    if d !in x.metas then x
    else
      var m := x.metas[d];
      Indices(x.metas - {d},
              SremEach(x.alertWatchers, m.tenantId, At(x.doAlerts, d), d),
              Srem(x.userDos, (m.tenantId, m.userId), d),
              x.doAlerts - {d})
  }

  /** hset on a missing hash creates it; getMeta then reads the missing fields as empty. */
  function AfterRefresh(x: Indices, d: string, now: int): Indices {
    var m := if d in x.metas then x.metas[d] else Meta("", "", "", 0);
    x.(metas := x.metas[d := m.(lastSeen := now)])
  }

  // ---------- The registry object ----------

  class WatcherIndices {
    var metas: map<string, Meta>
    var alertWatchers: map<Pair, set<string>>
    var userDos: map<Pair, set<string>>
    var doAlerts: map<string, set<string>>

    ghost function View(): Indices
      reads this
    {
      Indices(metas, alertWatchers, userDos, doAlerts)
    }

    constructor ()
      ensures View() == NOTHING
    {
      metas, alertWatchers, userDos, doAlerts := map[], map[], map[], map[];
    }

    method RegisterWatch(d: string, userId: string, tenantId: string, alert: string, pushUrl: string, now: int)
      modifies this
      ensures View() == AfterRegister(old(View()), d, Meta(userId, tenantId, pushUrl, now), alert)
    {
      metas := metas[d := Meta(userId, tenantId, pushUrl, now)];
      alertWatchers := Sadd(alertWatchers, (tenantId, alert), d);
      userDos := Sadd(userDos, (tenantId, userId), d);
      doAlerts := Sadd(doAlerts, d, alert);
    }

    method DeregisterWatch(d: string, alert: string, given: Option<string>)
      modifies this
      ensures View() == AfterUnwatch(old(View()), d, alert, given)
    {
      var tenant := given;
      if tenant.None? {
        var m := GetMeta(d);
        tenant := if m.Some? then Some(m.value.tenantId) else None;
      }
      if tenant.Some? && tenant.value != "" {
        alertWatchers := Srem(alertWatchers, (tenant.value, alert), d);
      }
      doAlerts := Srem(doAlerts, d, alert);
    }

    method DeregisterDo(d: string)
      modifies this
      ensures View() == AfterDeregister(old(View()), d)
    {
      var m := GetMeta(d);
      if m.None? {
        return;
      }
      var left := At(doAlerts, d);
      ghost var done: set<string> := {};
      SremNone(alertWatchers, m.value.tenantId, d);
      while left != {}
        invariant left + done == At(old(doAlerts), d)
        invariant View() == old(View()).(alertWatchers := SremEach(old(alertWatchers), m.value.tenantId, done, d))
      {
        var alert :| alert in left;
        SremOneMore(old(alertWatchers), m.value.tenantId, done, alert, d);
        alertWatchers := Srem(alertWatchers, (m.value.tenantId, alert), d);
        left := left - {alert};
        done := done + {alert};
      }
      userDos := Srem(userDos, (m.value.tenantId, m.value.userId), d);
      metas := metas - {d};
      doAlerts := doAlerts - {d};
    }

    method PruneDoEverywhere(d: string)
      modifies this
      ensures View() == AfterDeregister(old(View()), d)
    {
      DeregisterDo(d);
    }

    method RefreshTtl(d: string, now: int)
      modifies this
      ensures View() == AfterRefresh(old(View()), d, now)
    {
      metas := metas[d := (if d in metas then metas[d] else Meta("", "", "", 0)).(lastSeen := now)];
    }

    method GetMeta(d: string) returns (m: Option<Meta>)
      ensures m == if d in metas then Some(metas[d]) else None
    {
      m := if d in metas then Some(metas[d]) else None;
    }

    /** The registered watchers of an alert, each once. */
    method WatchersForAlert(tenantId: string, alert: string) returns (r: seq<(string, Meta)>)
      ensures Lists(r, View(), At(alertWatchers, (tenantId, alert)))
    {
      r := Resolve(At(alertWatchers, (tenantId, alert)));
    }

    method DosForUser(tenantId: string, userId: string) returns (r: seq<(string, Meta)>)
      ensures Lists(r, View(), At(userDos, (tenantId, userId)))
    {
      r := Resolve(At(userDos, (tenantId, userId)));
    }

    /** The metas of some objects, without those that have none. */
    method Resolve(ids: set<string>) returns (r: seq<(string, Meta)>)
      ensures Lists(r, View(), ids)
    {
      r := [];
      var left := ids;
      while left != {}
        invariant left <= ids && Lists(r, View(), ids - left)
      {
        var d :| d in left;
        var m := GetMeta(d);
        if m.Some? {
          r := r + [(d, m.value)];
        }
        left := left - {d};
      }
      assert ids - left == ids;
    }
  }

  /** r has exactly the registered ones of ids, with their metas, each once. */
  ghost predicate Lists(r: seq<(string, Meta)>, x: Indices, ids: set<string>) {
    && (forall i, j :: 0 <= i < j < |r| ==> r[i].0 != r[j].0)
    && (forall p <- r :: p.0 in ids && p.0 in x.metas && p.1 == x.metas[p.0])
    && (forall d <- ids :: d in x.metas ==> (d, x.metas[d]) in r)
  }

  lemma SremNone(m: map<Pair, set<string>>, tenant: string, d: string)
    ensures SremEach(m, tenant, {}, d) == m
  {
  }

  lemma SremOneMore(m: map<Pair, set<string>>, tenant: string, done: set<string>, alert: string, d: string)
    ensures Srem(SremEach(m, tenant, done, d), (tenant, alert), d) == SremEach(m, tenant, done + {alert}, d)
  {
    var some, more := SremEach(m, tenant, done, d), SremEach(m, tenant, done + {alert}, d);
    var r, key := Srem(some, (tenant, alert), d), (tenant, alert);
    forall k: Pair ensures Cut(k, tenant, done + {alert}) <==> Cut(k, tenant, done) || k == key {}
    forall k: Pair ensures k in r <==> k in more {}
    forall k <- r ensures r[k] == more[k] {}
  }

  // ---------- What the indices stand for ----------

  predicate Watching(r: Registry, k: Pair, d: string) {
    d in r.owner && r.owner[d].tenantId == k.0 && (d, k.1) in r.watches
  }

  predicate Owned(r: Registry, k: Pair, d: string) {
    d in r.owner && r.owner[d].tenantId == k.0 && r.owner[d].userId == k.1
  }

  ghost predicate AlertsMatch(m: map<Pair, set<string>>, r: Registry) {
    NoEmpty(m) && forall k: Pair, d: string :: d in At(m, k) <==> Watching(r, k, d)
  }

  ghost predicate UsersMatch(m: map<Pair, set<string>>, r: Registry) {
    NoEmpty(m) && forall k: Pair, d: string :: d in At(m, k) <==> Owned(r, k, d)
  }

  ghost predicate DosMatch(m: map<string, set<string>>, r: Registry) {
    NoEmpty(m) && forall d: string, a: string :: a in At(m, d) <==> (d, a) in r.watches
  }

  ghost predicate WatchersOwned(r: Registry) { forall w <- r.watches :: w.0 in r.owner }

  ghost predicate Represents(x: Indices, r: Registry) {
    && x.metas == r.owner && WatchersOwned(r)
    && AlertsMatch(x.alertWatchers, r) && UsersMatch(x.userDos, r) && DosMatch(x.doAlerts, r)
  }

  ghost predicate Consistent(x: Indices) { exists r :: Represents(x, r) }

  // ---------- The operations on the relation ----------

  function Registered(r: Registry, d: string, m: Meta, alert: string): Registry {
    Registry(r.owner[d := m], r.watches + {(d, alert)})
  }

  function Unwatched(r: Registry, d: string, alert: string): Registry { r.(watches := r.watches - {(d, alert)}) }

  function Forgotten(r: Registry, d: string): Registry {
    Registry(r.owner - {d}, set w <- r.watches | w.0 != d)
  }

  function Seen(r: Registry, d: string, now: int): Registry
    requires d in r.owner
  {
    r.(owner := r.owner[d := r.owner[d].(lastSeen := now)])
  }

  // ---------- Each operation, and exactly when it keeps the indices together ----------

  predicate SameOwner(r: Registry, d: string, m: Meta) {
    d in r.owner ==> r.owner[d].tenantId == m.tenantId && r.owner[d].userId == m.userId
  }

  lemma RegisterKeeps(x: Indices, r: Registry, d: string, m: Meta, alert: string)
    requires Represents(x, r) && SameOwner(r, d, m)
    ensures Represents(AfterRegister(x, d, m, alert), Registered(r, d, m, alert))
  {
    RegisterAlerts(x.alertWatchers, r, d, m, alert);
    RegisterUsers(x.userDos, r, d, m, alert);
    SaddAt(x.doAlerts, d, alert);
  }

  lemma RegisterAlerts(aw: map<Pair, set<string>>, r: Registry, d: string, m: Meta, alert: string)
    requires AlertsMatch(aw, r) && WatchersOwned(r) && SameOwner(r, d, m)
    ensures AlertsMatch(Sadd(aw, (m.tenantId, alert), d), Registered(r, d, m, alert))
  {
    SaddAt(aw, (m.tenantId, alert), d);
    var q := Registered(r, d, m, alert);
    forall k: Pair, w: string ensures Watching(q, k, w) <==> Watching(r, k, w) || (k == (m.tenantId, alert) && w == d) {
      assert (w, k.1) in r.watches ==> (w, k.1).0 in r.owner;
    }
  }

  lemma RegisterUsers(ud: map<Pair, set<string>>, r: Registry, d: string, m: Meta, alert: string)
    requires UsersMatch(ud, r) && SameOwner(r, d, m)
    ensures UsersMatch(Sadd(ud, (m.tenantId, m.userId), d), Registered(r, d, m, alert))
  {
    SaddAt(ud, (m.tenantId, m.userId), d);
    var q := Registered(r, d, m, alert);
    forall k: Pair, w: string ensures Owned(q, k, w) <==> Owned(r, k, w) || (k == (m.tenantId, m.userId) && w == d) {}
  }

  /** A registration keeps the indices consistent exactly when the object is new or keeps its tenant
      and user. */
  lemma RegisterIff(x: Indices, r: Registry, d: string, m: Meta, alert: string)
    requires Represents(x, r)
    ensures Consistent(AfterRegister(x, d, m, alert)) <==> SameOwner(r, d, m)
  {
    if SameOwner(r, d, m) {
      RegisterKeeps(x, r, d, m, alert);
    } else {
      var y, key := AfterRegister(x, d, m, alert), (r.owner[d].tenantId, r.owner[d].userId);
      SaddAt(x.userDos, (m.tenantId, m.userId), d);
      assert Owned(r, key, d) && d in At(y.userDos, key);
      forall s: Registry | y.metas == s.owner ensures !UsersMatch(y.userDos, s) {
        assert s.owner[d] == m && !Owned(s, key, d);
      }
    }
  }

  /** The alert set edited is the object's own, or there is nothing to edit. */
  predicate RightTenant(r: Registry, d: string, alert: string, given: Option<string>) {
    (d, alert) in r.watches && d in r.owner ==>
      r.owner[d].tenantId != "" && given in {None, Some(r.owner[d].tenantId)}
  }

  lemma UnwatchKeeps(x: Indices, r: Registry, d: string, alert: string, given: Option<string>)
    requires Represents(x, r) && RightTenant(r, d, alert, given)
    ensures Represents(AfterUnwatch(x, d, alert, given), Unwatched(r, d, alert))
  {
    var tenant, q := TenantFor(x, d, given), Unwatched(r, d, alert);
    SremAt(x.doAlerts, d, alert);
    forall k: Pair, w: string ensures Owned(q, k, w) <==> Owned(r, k, w) {}
    if tenant.Some? && tenant.value != "" {
      UnwatchAlerts(x.alertWatchers, r, d, alert, tenant.value);
    } else {
      assert (d, alert) !in r.watches && q == r;
    }
  }

  lemma UnwatchAlerts(aw: map<Pair, set<string>>, r: Registry, d: string, alert: string, tenant: string)
    requires AlertsMatch(aw, r) && WatchersOwned(r)
    requires (d, alert) in r.watches && d in r.owner ==> tenant == r.owner[d].tenantId
    ensures AlertsMatch(Srem(aw, (tenant, alert), d), Unwatched(r, d, alert))
  {
    SremAt(aw, (tenant, alert), d);
    var q := Unwatched(r, d, alert);
    forall k: Pair, w: string ensures Watching(q, k, w) <==> Watching(r, k, w) && !(k == (tenant, alert) && w == d) {}
  }

  /** Ending a watch keeps the indices consistent exactly when the tenant it resolves to is the
      object's and not empty, or the object was not watching. */
  lemma UnwatchIff(x: Indices, r: Registry, d: string, alert: string, given: Option<string>)
    requires Represents(x, r)
    ensures Consistent(AfterUnwatch(x, d, alert, given)) <==> RightTenant(r, d, alert, given)
  {
    if RightTenant(r, d, alert, given) {
      UnwatchKeeps(x, r, d, alert, given);
    } else {
      var y, key, tenant := AfterUnwatch(x, d, alert, given), (r.owner[d].tenantId, alert), TenantFor(x, d, given);
      if tenant.Some? { SremAt(x.alertWatchers, (tenant.value, alert), d); }
      SremAt(x.doAlerts, d, alert);
      assert Watching(r, key, d);
      assert d in At(y.alertWatchers, key) && alert !in At(y.doAlerts, d);
      forall s: Registry | DosMatch(y.doAlerts, s) ensures !AlertsMatch(y.alertWatchers, s) {
        assert (d, alert) !in s.watches && !Watching(s, key, d);
      }
    }
  }

  lemma SremEachAt(m: map<Pair, set<string>>, tenant: string, alerts: set<string>, d: string)
    requires NoEmpty(m)
    ensures NoEmpty(SremEach(m, tenant, alerts, d))
    ensures forall k: Pair, w: string ::
              w in At(SremEach(m, tenant, alerts, d), k) <==> w in At(m, k) && !(Cut(k, tenant, alerts) && w == d)
  {
  }

  /** Deregistering always keeps the indices consistent. */
  lemma DeregisterKeeps(x: Indices, r: Registry, d: string)
    requires Represents(x, r)
    ensures Represents(AfterDeregister(x, d), Forgotten(r, d))
  {
    if d in x.metas {
      DeregisterAlerts(x.alertWatchers, x.doAlerts, r, d);
      DeregisterUsers(x.userDos, r, d);
    } else {
      assert Forgotten(r, d).watches == r.watches;
    }
  }

  lemma DeregisterAlerts(aw: map<Pair, set<string>>, da: map<string, set<string>>, r: Registry, d: string)
    requires AlertsMatch(aw, r) && DosMatch(da, r) && d in r.owner
    ensures AlertsMatch(SremEach(aw, r.owner[d].tenantId, At(da, d), d), Forgotten(r, d))
    ensures DosMatch(da - {d}, Forgotten(r, d))
  {
    SremEachAt(aw, r.owner[d].tenantId, At(da, d), d);
    var q := Forgotten(r, d);
    forall k: Pair, w: string
      ensures Watching(q, k, w) <==> Watching(r, k, w) && !(Cut(k, r.owner[d].tenantId, At(da, d)) && w == d)
    {
      assert Watching(r, k, d) ==> k.1 in At(da, d);
    }
  }

  lemma DeregisterUsers(ud: map<Pair, set<string>>, r: Registry, d: string)
    requires UsersMatch(ud, r) && d in r.owner
    ensures UsersMatch(Srem(ud, (r.owner[d].tenantId, r.owner[d].userId), d), Forgotten(r, d))
  {
    var key := (r.owner[d].tenantId, r.owner[d].userId);
    SremAt(ud, key, d);
    var q := Forgotten(r, d);
    forall k: Pair, w: string ensures Owned(q, k, w) <==> Owned(r, k, w) && !(k == key && w == d) {}
  }

  /** After deregistering, the object is in no index. */
  lemma DeregisteredIsGone(x: Indices, r: Registry, d: string)
    requires Represents(x, r)
    ensures var y := AfterDeregister(x, d);
            && d !in y.metas && d !in y.doAlerts
            && (forall k <- y.alertWatchers :: d !in y.alertWatchers[k])
            && (forall k <- y.userDos :: d !in y.userDos[k])
  {
    DeregisterKeeps(x, r, d);
    NotOwnedIsNowhere(AfterDeregister(x, d), Forgotten(r, d), d);
  }

  lemma NotOwnedIsNowhere(y: Indices, q: Registry, d: string)
    requires Represents(y, q) && d !in q.owner
    ensures d !in y.metas && d !in y.doAlerts
    ensures forall k <- y.alertWatchers :: d !in y.alertWatchers[k]
    ensures forall k <- y.userDos :: d !in y.userDos[k]
  {
    forall k <- y.alertWatchers ensures d !in y.alertWatchers[k] { assert !Watching(q, k, d); }
    forall k <- y.userDos ensures d !in y.userDos[k] { assert !Owned(q, k, d); }
    forall a ensures a !in At(y.doAlerts, d) { assert (d, a) in q.watches ==> (d, a).0 in q.owner; }
    assert At(y.doAlerts, d) == {};
  }

  /** Refreshing keeps the indices consistent exactly when the meta is there; on a missing one it
      leaves an ownerless meta behind. */
  lemma RefreshIff(x: Indices, r: Registry, d: string, now: int)
    requires Represents(x, r)
    ensures Consistent(AfterRefresh(x, d, now)) <==> d in r.owner
    ensures d in r.owner ==> Represents(AfterRefresh(x, d, now), Seen(r, d, now))
  {
    var y := AfterRefresh(x, d, now);
    if d in r.owner {
      var q := Seen(r, d, now);
      forall k: Pair, w: string ensures Watching(q, k, w) <==> Watching(r, k, w) {}
      forall k: Pair, w: string ensures Owned(q, k, w) <==> Owned(r, k, w) {}
      assert Represents(y, q);
    } else {
      assert !Owned(r, ("", ""), d) && d !in At(y.userDos, ("", ""));
      forall s: Registry | y.metas == s.owner ensures !UsersMatch(y.userDos, s) {
        assert Owned(s, ("", ""), d);
      }
    }
  }

  /** A relation has one representation: the indices hold nothing else. */
  lemma RepresentationIsUnique(x: Indices, y: Indices, r: Registry)
    requires Represents(x, r) && Represents(y, r)
    ensures x == y
  {
    forall k: Pair ensures At(x.alertWatchers, k) == At(y.alertWatchers, k) {}
    SameSets(x.alertWatchers, y.alertWatchers);
    forall k: Pair ensures At(x.userDos, k) == At(y.userDos, k) {}
    SameSets(x.userDos, y.userDos);
    forall d: string ensures At(x.doAlerts, d) == At(y.doAlerts, d) {}
    SameSets(x.doAlerts, y.doAlerts);
  }

  lemma SameSets<K(!new)>(m: map<K, set<string>>, n: map<K, set<string>>)
    requires NoEmpty(m) && NoEmpty(n) && forall k :: At(m, k) == At(n, k)
    ensures m == n
  {
    forall k ensures k in m <==> k in n { assert At(m, k) == At(n, k); }
    forall k <- m ensures m[k] == n[k] { assert At(m, k) == At(n, k); }
  }

  // ---------- Runs ----------

  datatype Op =
    | Register(d: string, meta: Meta, alert: string)
    | Unwatch(d: string, alert: string, given: Option<string>)
    | Deregister(d: string)
    | Refresh(d: string, now: int)

  function Step(x: Indices, op: Op): Indices {
    match op
    case Register(d, m, alert) => AfterRegister(x, d, m, alert)
    case Unwatch(d, alert, given) => AfterUnwatch(x, d, alert, given)
    case Deregister(d) => AfterDeregister(x, d)
    case Refresh(d, now) => AfterRefresh(x, d, now)
  }

  predicate Proper(r: Registry, op: Op) {
    match op
    case Register(d, m, alert) => SameOwner(r, d, m)
    case Unwatch(d, alert, given) => RightTenant(r, d, alert, given)
    case Deregister(d) => true
    case Refresh(d, now) => d in r.owner
  }

  function Meaning(r: Registry, op: Op): Registry
    requires Proper(r, op)
  {
    match op
    case Register(d, m, alert) => Registered(r, d, m, alert)
    case Unwatch(d, alert, given) => Unwatched(r, d, alert)
    case Deregister(d) => Forgotten(r, d)
    case Refresh(d, now) => Seen(r, d, now)
  }

  lemma StepRefines(x: Indices, r: Registry, op: Op)
    requires Represents(x, r)
    ensures Consistent(Step(x, op)) <==> Proper(r, op)
    ensures Proper(r, op) ==> Represents(Step(x, op), Meaning(r, op))
  {
    match op
    case Register(d, m, alert) =>
      RegisterIff(x, r, d, m, alert);
      if SameOwner(r, d, m) { RegisterKeeps(x, r, d, m, alert); }
    case Unwatch(d, alert, given) =>
      UnwatchIff(x, r, d, alert, given);
      if RightTenant(r, d, alert, given) { UnwatchKeeps(x, r, d, alert, given); }
    case Deregister(d) => DeregisterKeeps(x, r, d);
    case Refresh(d, now) => RefreshIff(x, r, d, now);
  }

  function Run(x: Indices, ops: seq<Op>): Indices
    decreases |ops|
  {
    if ops == [] then x else Run(Step(x, ops[0]), ops[1..])
  }

  predicate AllProper(r: Registry, ops: seq<Op>)
    decreases |ops|
  {
    ops == [] || (Proper(r, ops[0]) && AllProper(Meaning(r, ops[0]), ops[1..]))
  }

  function RunMeaning(r: Registry, ops: seq<Op>): Registry
    requires AllProper(r, ops)
    decreases |ops|
  {
    if ops == [] then r else RunMeaning(Meaning(r, ops[0]), ops[1..])
  }

  ghost predicate AlwaysConsistent(x: Indices, ops: seq<Op>)
    decreases |ops|
  {
    Consistent(x) && (ops == [] || AlwaysConsistent(Step(x, ops[0]), ops[1..]))
  }

  /** The indices stay consistent throughout a run exactly when every operation of it is proper, and
      then they are the relation the run means. */
  lemma {:induction false} RunRefines(x: Indices, r: Registry, ops: seq<Op>)
    requires Represents(x, r)
    ensures AlwaysConsistent(x, ops) <==> AllProper(r, ops)
    ensures AllProper(r, ops) ==> Represents(Run(x, ops), RunMeaning(r, ops))
    decreases |ops|
  {
    if ops != [] {
      StepRefines(x, r, ops[0]);
      if Proper(r, ops[0]) {
        RunRefines(Step(x, ops[0]), Meaning(r, ops[0]), ops[1..]);
      }
    }
  }

  lemma StartIsEmpty()
    ensures Represents(NOTHING, Registry(map[], {}))
  {
  }

  lemma LookupIsExact(x: Indices, q: Registry, t: string, key: string, r: seq<(string, Meta)>)
    requires Represents(x, q)
    ensures Lists(r, x, At(x.alertWatchers, (t, key))) ==> forall d: string, m: Meta ::
              (d, m) in r <==> d in q.owner && m == q.owner[d] && m.tenantId == t && (d, key) in q.watches
    ensures Lists(r, x, At(x.userDos, (t, key))) ==> forall d: string, m: Meta ::
              (d, m) in r <==> d in q.owner && m == q.owner[d] && m.tenantId == t && m.userId == key
  {
    forall d: string ensures d in At(x.alertWatchers, (t, key)) <==> Watching(q, (t, key), d) {}
    forall d: string ensures d in At(x.userDos, (t, key)) <==> Owned(q, (t, key), d) {}
    forall d: string, m: Meta ensures (d, m) in r ==> (d, m).0 == d && (d, m).1 == m {}
  }

  /** After any run of proper operations from nothing, the lookups list exactly the relation. */
  lemma LookupsAreExact(ops: seq<Op>, t: string, key: string, r: seq<(string, Meta)>)
    requires AllProper(Registry(map[], {}), ops)
    ensures var x, reg := Run(NOTHING, ops), RunMeaning(Registry(map[], {}), ops);
            && (Lists(r, x, At(x.alertWatchers, (t, key))) ==>
                  forall d: string, m: Meta ::
                    (d, m) in r <==> d in reg.owner && m == reg.owner[d] && m.tenantId == t && (d, key) in reg.watches)
            && (Lists(r, x, At(x.userDos, (t, key))) ==>
                  forall d: string, m: Meta ::
                    (d, m) in r <==> d in reg.owner && m == reg.owner[d] && m.tenantId == t && m.userId == key)
  {
    StartIsEmpty();
    RunRefines(NOTHING, Registry(map[], {}), ops);
    var x, reg := Run(NOTHING, ops), RunMeaning(Registry(map[], {}), ops);
    LookupIsExact(x, reg, t, key, r);
  }
}
