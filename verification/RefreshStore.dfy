/** The Redis keys behind refresh-token sessions, and the commands session.ts issues on them.
    A key with a time to live is invisible from the instant it expires, so Advance drops it.
    Times are integer clock ticks. */
module RefreshStore {
  import opened Base64Url
  import Glob

  type Id = string

  /** What newId returns: base64url text. */
  predicate IsId(x: Id) { x != "" && AllUrlSafe(x) }

  /** REFRESH_TOKEN_TTL_SECONDS: some positive number. */
  type Ttl = t: int | t > 0 witness 1

  /** Who a session belongs to; fixed at login and copied through every rotation. */
  datatype Identity = Identity(user: Id, tenant: Id, role: string)

  /** The value of session:{user}. */
  datatype Record = Record(id: Identity, family: Id, jti: Id)

  /** The two variable parts of a refresh:{family}:{jti} key. */
  datatype Key = Key(family: Id, jti: Id)

  function KeyText(family: Id, jti: Id): string { "refresh:" + (family + ":" + jti) }

  /** SCAN under family f's pattern, refresh:{f}:*, returns this key. */
  predicate Hits(f: Id, k: Key) { Glob.Matches(KeyText(f, "*"), KeyText(k.family, k.jti)) }

  datatype Timed<+V> = Timed(value: V, exp: int)

  datatype Store = Store(
    session: map<Id, Record>,
    index: map<Id, Timed<Id>>,
    refresh: map<Key, int>,
    now: int)
  {
    function SetSession(u: Id, r: Record): Store { this.(session := session[u := r]) }

    function DelSession(u: Id): Store { this.(session := session - {u}) }

    function SetIndex(f: Id, u: Id, ttl: Ttl): Store { this.(index := index[f := Timed(u, now + ttl)]) }

    function DelIndex(f: Id): Store { this.(index := index - {f}) }

    function SetRefresh(k: Key, ttl: Ttl): Store { this.(refresh := refresh[k := now + ttl]) }

    function DelRefresh(ks: set<Key>): Store { this.(refresh := refresh - ks) }

    function FamilyKeys(f: Id): set<Key> { set k | k in refresh && k.family == f }

    /** The refresh keys SCAN finds for a burn of f. */
    function BurnKeys(f: Id): set<Key> { set k | k in refresh && Hits(f, k) }

    /** Time passes; Redis hides every key whose time to live has run out. */
    function Advance(d: nat): Store {
      var t := now + d;
      Store(session,
            map f | f in index && index[f].exp > t :: index[f],
            map k | k in refresh && refresh[k] > t :: refresh[k],
            t)
    }
  }

  const EMPTY := Store(map[], map[], map[], 0)
}
