/** Minting and verifying service tokens with a verify cache (services/_runtime/jwt_service.py).
    A token is an opaque string; which strings are signed, by what and saying what, is a map. */
module JwtService {
  import opened ServiceSecrets

  datatype Audience = One(name: string) | Many(names: seq<string>)

  datatype Payload = Payload(
    sub: Option<string>, aud: Option<Audience>, tid: Option<string>, jti: Option<string>,
    iat: Option<int>, exp: Option<int>, role: Option<string>)

  datatype Signed = Signed(secret: Secret, payload: Payload)

  type Tokens = map<string, Signed>

  datatype Auth = Auth(userId: Option<string>, tenantId: Option<string>, audience: string, role: Option<string>,
                       jti: Option<string>)

  datatype Error = VerificationFailed | AudienceMismatch | Revoked

  datatype Result = Ok(auth: Auth) | Err(error: Error)

  /** What the deny-list says of a jti; a checker that raises counts as Failed. */
  datatype Answer = NoChecker | Clear | Listed | Failed

  datatype Entry = Entry(payload: Payload, audience: string, expiresAt: real)

  const TTL := 300
  const LEEWAY := 30.0
  const MAX_ENTRIES: nat := 10_000

  // ---------- Decoding ----------

  /** The claims a decode requires, and its checks on them. */
  predicate ClaimsOk(p: Payload, audience: string, now: real) {
    && p.exp.Some? && p.iat.Some? && p.sub.Some? && p.aud.Some? && p.tid.Some? && p.jti.Some?
    && (p.exp.value as real) > now - LEEWAY
    && (p.iat.value as real) <= now + LEEWAY
    && Names(p.aud.value, audience)
  }

  predicate Names(aud: Audience, name: string) {
    match aud
    case One(n) => n == name
    case Many(ns) => name in ns
  }

  function TryKey(tokens: Tokens, token: string, key: Secret, audience: string, now: real): Option<Payload> {
    if token in tokens && tokens[token].secret == key && ClaimsOk(tokens[token].payload, audience, now)
    then Some(tokens[token].payload)
    else None
  }

  /** What decoding under a bundle accepts. */
  predicate Decodes(tokens: Tokens, token: string, b: Bundle, audience: string, now: real) {
    token in tokens && b.Holds(tokens[token].secret) && ClaimsOk(tokens[token].payload, audience, now)
  }

  method DecodeWithRotation(tokens: Tokens, token: string, b: Bundle, audience: string, now: real)
    returns (payload: Option<Payload>)
    ensures payload.Some? <==> Decodes(tokens, token, b, audience, now)
    ensures payload.Some? ==> payload.value == tokens[token].payload
  {
    var secrets := [Some(b.current), b.previous];
    for i := 0 to |secrets|
      invariant forall j :: 0 <= j < i && secrets[j].Some? ==>
          TryKey(tokens, token, secrets[j].value, audience, now).None?
    {
      if secrets[i].Some? {
        payload := TryKey(tokens, token, secrets[i].value, audience, now);
        if payload.Some? {
          return;
        }
      }
    }
    payload := None;
    assert secrets[0] == Some(b.current) && secrets[1] == b.previous;
  }

  // ---------- Specification ----------

  function ToAuth(p: Payload, audience: string): Auth { Auth(p.sub, p.tid, audience, p.role, p.jti) }

  /** The deny-list refuses; a missing or empty jti is never looked up. */
  predicate Refused(jti: Option<string>, a: Answer) {
    jti.Some? && jti.value != "" && a == Listed
  }

  predicate Hit(cache: map<string, Entry>, token: string, now: real) {
    token in cache && cache[token].expiresAt > now
  }

  /** The verdict without a cache. */
  function Uncached(tokens: Tokens, token: string, b: Bundle, audience: string, a: Answer, now: real): Result {
    if !Decodes(tokens, token, b, audience, now) then Err(VerificationFailed)
    else if tokens[token].payload.aud != Some(One(audience)) then Err(AudienceMismatch)
    else if Refused(tokens[token].payload.jti, a) then Err(Revoked)
    else Ok(ToAuth(tokens[token].payload, audience))
  }

  function Cached(cache: map<string, Entry>, tokens: Tokens, token: string, b: Bundle, audience: string, a: Answer,
                  now: real): Result {
    if Hit(cache, token, now) then
      var e := cache[token];
      if Refused(e.payload.jti, a) then Err(Revoked) else Ok(ToAuth(e.payload, e.audience))
    else Uncached(tokens, token, b, audience, a, now)
  }

  function Live(cache: map<string, Entry>, now: real): map<string, Entry> {
    map k <- cache | cache[k].expiresAt > now :: cache[k]
  }

  ghost predicate Submap(small: map<string, Entry>, big: map<string, Entry>) {
    forall k <- small :: k in big && small[k] == big[k]
  }

  /** after is live without its quarter of earliest expiries. */
  ghost predicate QuarterDropped(live: map<string, Entry>, after: map<string, Entry>) {
    && Submap(after, live)
    && |after| == |live| - |live| / 4
    && forall k, j | k in live && k !in after && j in after :: live[k].expiresAt <= live[j].expiresAt
  }

  ghost predicate Evicted(before: map<string, Entry>, after: map<string, Entry>, now: real) {
    if |before| < MAX_ENTRIES then after == before
    else if |Live(before, now)| < MAX_ENTRIES then after == Live(before, now)
    else QuarterDropped(Live(before, now), after)
  }

  ghost predicate Stored(before: map<string, Entry>, after: map<string, Entry>, token: string, e: Entry, now: real) {
    exists kept :: Evicted(before, kept, now) && after == kept[token := e]
  }

  /** Cached entries say what their tokens say, are for this audience, and fit. */
  ghost predicate Sound(cache: map<string, Entry>, tokens: Tokens, audience: string) {
    && |cache| <= MAX_ENTRIES
    && forall t <- cache ::
        && t in tokens && cache[t].payload == tokens[t].payload && cache[t].audience == audience
        && cache[t].payload.exp.Some? && cache[t].expiresAt == cache[t].payload.exp.value as real
  }

  /** Some entry always goes when the cache is full, so one more fits. */
  lemma EvictionMakesRoom(before: map<string, Entry>, after: map<string, Entry>, now: real)
    requires Evicted(before, after, now) && |before| <= MAX_ENTRIES
    ensures |after| < MAX_ENTRIES && Submap(after, before)
    ensures |before| == MAX_ENTRIES ==>
              forall k <- after :: after[k].expiresAt > now
  {
    SubmapSize(Live(before, now), before);
  }

  lemma EvictedIsSound(before: map<string, Entry>, after: map<string, Entry>, now: real, tokens: Tokens,
                       audience: string)
    requires Evicted(before, after, now) && Sound(before, tokens, audience)
    ensures Sound(after, tokens, audience) && |after| < MAX_ENTRIES && after.Keys <= before.Keys
  {
    EvictionMakesRoom(before, after, now);
    SmallerIsSound(before, after, tokens, audience);
  }

  lemma {:induction false} SubmapSize(small: map<string, Entry>, big: map<string, Entry>)
    requires Submap(small, big)
    ensures |small| <= |big| && (|small| == |big| ==> small == big)
  {
    SubsetSize(small.Keys, big.Keys);
    assert |small| == |small.Keys| && |big| == |big.Keys|;
  }

  lemma {:induction false} SubsetSize(a: set<string>, b: set<string>)
    requires a <= b
    ensures |a| <= |b| && (|a| == |b| ==> a == b)
  {
    assert b == a + (b - a);
  }

  // ---------- The service ----------

  class Service {
    const audience: string
    var cache: map<string, Entry>

    constructor (audience: string)
      ensures this.audience == audience && cache == map[]
    {
      this.audience := audience;
      cache := map[];
    }

    /** Claims for target, under the current secret; None when the bundle is another audience's. */
    method Mint(bundleAudience: string, b: Bundle, subject: string, tenantId: string, target: string,
                role: Option<string>, now: real, jti: string)
      returns (s: Option<Signed>)
      ensures s.None? <==> bundleAudience != audience
      ensures s.Some? ==>
                && s.value.secret == b.current
                && s.value.payload == MintedPayload(subject, tenantId, target, role, now, jti)
    {
      if bundleAudience != audience {
        return None;
      }
      s := Some(Signed(b.current, MintedPayload(subject, tenantId, target, role, now, jti)));
    }

    /** jti is popped although the cache is keyed by token. */
    method CheckRevocation(jti: Option<string>, a: Answer) returns (revoked: bool)
      modifies this
      ensures revoked <==> a == Listed && jti.Some? && jti.value != ""
      ensures cache == if revoked then old(cache) - {jti.value} else old(cache)
    {
      if jti.None? || jti.value == "" || a == NoChecker {
        return false;
      }
      if a == Failed {
        return false;
      }
      revoked := a == Listed;
      if revoked {
        cache := cache - {jti.value};
      }
    }

    method MaybeEvict(now: real)
      modifies this
      ensures Evicted(old(cache), cache, now)
    {
      if |cache| < MAX_ENTRIES {
        return;
      }
      DropExpired(now);
      if |cache| >= MAX_ENTRIES {
        DropQuarter();
      }
    }

    method DropExpired(now: real)
      modifies this
      ensures cache == Live(old(cache), now)
    {
      var expired := set k <- cache | cache[k].expiresAt <= now;
      ghost var before := cache;
      ghost var gone: set<string> := {};
      while expired != {}
        invariant expired + gone == set k <- before | before[k].expiresAt <= now
        invariant cache == before - gone
      {
        var k :| k in expired;
        cache := cache - {k};
        expired := expired - {k};
        gone := gone + {k};
      }
    }

    method DropQuarter()
      modifies this
      ensures QuarterDropped(old(cache), cache)
    {
      ghost var live := cache;
      var oldest := SortedByExpiry(cache);
      var n := |oldest| / 4;
      for i := 0 to n
        invariant cache == live - Elements(oldest[..i])
      {
        ElementsStep(oldest, i);
        MinusOne(live, Elements(oldest[..i]), oldest[i]);
        cache := cache - {oldest[i]};
      }
      FirstQuarter(live, oldest, cache);
    }

    /** Stores a verified payload, making room first. */
    method Remember(ghost tokens: Tokens, token: string, payload: Payload, now: real)
      requires Sound(cache, tokens, audience)
      requires token in tokens && payload == tokens[token].payload && payload.exp.Some?
      modifies this
      ensures Sound(cache, tokens, audience)
      ensures Stored(old(cache), cache, token, Entry(payload, audience, payload.exp.value as real), now)
    {
      MaybeEvict(now);
      ghost var kept := cache;
      EvictedIsSound(old(cache), kept, now, tokens, audience);
      cache := cache[token := Entry(payload, audience, payload.exp.value as real)];
    }

    /** Verifies token at time now, given the bundle held and the deny-list's answer. */
    method Verify(tokens: Tokens, token: string, b: Bundle, a: Answer, now: real) returns (r: Result)
      requires Sound(cache, tokens, audience)
      modifies this
      ensures Sound(cache, tokens, audience)
      ensures r == Cached(old(cache), tokens, token, b, audience, a, now)
      ensures r == Err(Revoked) ==> cache == old(cache) - {tokens[token].payload.jti.value}
      ensures r.Err? && r != Err(Revoked) ==> cache == old(cache)
      ensures r.Ok? && Hit(old(cache), token, now) ==> cache == old(cache)
      ensures r.Ok? && !Hit(old(cache), token, now) ==>
                && token in tokens && tokens[token].payload.exp.Some?
                && Stored(old(cache), cache, token,
                          Entry(tokens[token].payload, audience, tokens[token].payload.exp.value as real), now)
    {
      if token in cache && cache[token].expiresAt > now {
        var entry := cache[token];
        var revoked := CheckRevocation(entry.payload.jti, a);
        SmallerIsSound(old(cache), cache, tokens, audience);
        return if revoked then Err(Revoked) else Ok(ToAuth(entry.payload, entry.audience));
      }
      var payload := DecodeWithRotation(tokens, token, b, audience, now);
      if payload.None? {
        return Err(VerificationFailed);
      }
      if payload.value.aud != Some(One(audience)) {
        return Err(AudienceMismatch);
      }
      var revoked := CheckRevocation(payload.value.jti, a);
      if revoked {
        SmallerIsSound(old(cache), cache, tokens, audience);
        return Err(Revoked);
      }
      Remember(tokens, token, payload.value, now);
      r := Ok(ToAuth(payload.value, audience));
    }
  }

  lemma SmallerIsSound(big: map<string, Entry>, small: map<string, Entry>, tokens: Tokens, audience: string)
    requires Sound(big, tokens, audience) && Submap(small, big)
    ensures Sound(small, tokens, audience)
  {
    SubmapSize(small, big);
  }

  function MintedPayload(subject: string, tenantId: string, target: string, role: Option<string>, now: real,
                         jti: string): Payload {
    Payload(Some(subject), Some(One(target)), Some(tenantId), Some(jti), Some(now.Floor), Some(now.Floor + TTL), role)
  }

  // ---------- Sorting by expiry ----------

  ghost predicate SortedKeys(cache: map<string, Entry>, keys: seq<string>) {
    Elements(keys) == cache.Keys && Ascending(cache, keys)
  }

  ghost predicate Ascending(cache: map<string, Entry>, keys: seq<string>)
    requires Elements(keys) <= cache.Keys
  {
    forall i, j :: 0 <= i < j < |keys| ==>
      && keys[i] != keys[j] && keys[i] in Elements(keys) && keys[j] in Elements(keys)
      && cache[keys[i]].expiresAt <= cache[keys[j]].expiresAt
  }

  ghost predicate Earliest(cache: map<string, Entry>, keys: set<string>, k: string)
    requires keys <= cache.Keys
  {
    k in keys && forall j <- keys :: cache[k].expiresAt <= cache[j].expiresAt
  }

  lemma {:induction false} EarliestExists(cache: map<string, Entry>, keys: set<string>) returns (first: string)
    requires keys != {} && keys <= cache.Keys
    ensures Earliest(cache, keys, first)
    decreases |keys|
  {
    first :| first in keys;
    var rest := keys - {first};
    if rest != {} {
      var e := EarliestExists(cache, rest);
      if cache[e].expiresAt <= cache[first].expiresAt { first := e; }
    }
  }

  method SortedByExpiry(cache: map<string, Entry>) returns (keys: seq<string>)
    ensures SortedKeys(cache, keys) && |keys| == |cache|
  {
    keys := [];
    var left := cache.Keys;
    while left != {}
      invariant PartlySorted(cache, keys, left)
      decreases |left|
    {
      ghost var first := EarliestExists(cache, left);
      var k :| k in left && forall j <- left :: cache[k].expiresAt <= cache[j].expiresAt;
      Append(cache, keys, left, k);
      keys := keys + [k];
      left := left - {k};
    }
    DistinctSize(keys);
  }

  /** keys are the sorted start of the cache's keys, left are the others. */
  ghost predicate PartlySorted(cache: map<string, Entry>, keys: seq<string>, left: set<string>) {
    && left <= cache.Keys && Elements(keys) == cache.Keys - left
    && Ascending(cache, keys)
    && forall k, j | k in Elements(keys) && j in left :: cache[k].expiresAt <= cache[j].expiresAt
  }

  lemma Append(cache: map<string, Entry>, keys: seq<string>, left: set<string>, k: string)
    requires PartlySorted(cache, keys, left) && Earliest(cache, left, k)
    ensures PartlySorted(cache, keys + [k], left - {k})
  {
    assert Elements(keys + [k]) == Elements(keys) + {k};
    forall j | 0 <= j < |keys| ensures keys[j] in Elements(keys) {}
  }

  lemma MinusOne(m: map<string, Entry>, gone: set<string>, k: string)
    ensures m - gone - {k} == m - (gone + {k})
  {
  }

  lemma ElementsStep(keys: seq<string>, i: nat)
    requires i < |keys|
    ensures Elements(keys[..i + 1]) == Elements(keys[..i]) + {keys[i]}
  {
    assert keys[..i + 1] == keys[..i] + [keys[i]];
  }

  /** Popping the first quarter of the sorted keys drops a quarter of earliest expiries. */
  lemma FirstQuarter(live: map<string, Entry>, keys: seq<string>, after: map<string, Entry>)
    requires SortedKeys(live, keys) && |keys| == |live|
    requires after == live - Elements(keys[..|keys| / 4])
    ensures QuarterDropped(live, after)
  {
    QuarterSize(live, keys, after);
    forall k, j | k in live && k !in after && j in after ensures live[k].expiresAt <= live[j].expiresAt {
      QuarterOrder(live, keys, |keys| / 4, k, j);
    }
  }

  lemma QuarterSize(live: map<string, Entry>, keys: seq<string>, after: map<string, Entry>)
    requires SortedKeys(live, keys) && |keys| == |live|
    requires after == live - Elements(keys[..|keys| / 4])
    ensures |after| == |live| - |live| / 4
  {
    var some := keys[..|keys| / 4];
    DistinctSize(some);
    assert forall k <- some :: k in keys;
    assert Elements(some) <= Elements(keys) && after.Keys == live.Keys - Elements(some);
    assert |after| == |after.Keys| && |live| == |live.Keys|;
  }

  lemma QuarterOrder(live: map<string, Entry>, keys: seq<string>, n: nat, k: string, j: string)
    requires SortedKeys(live, keys) && n <= |keys|
    requires k in keys[..n] && j in live && j !in keys[..n]
    ensures live[k].expiresAt <= live[j].expiresAt
  {
    var x :| 0 <= x < n && keys[x] == k;
    assert j in Elements(keys);
    forall i | 0 <= i < n ensures keys[i] != j { assert keys[..n][i] == keys[i]; }
    var y :| 0 <= y < |keys| && keys[y] == j;
  }

  function Elements(keys: seq<string>): set<string> { set k <- keys }

  lemma {:induction false} DistinctSize(keys: seq<string>)
    requires forall i, j :: 0 <= i < j < |keys| ==> keys[i] != keys[j]
    ensures |Elements(keys)| == |keys|
  {
    if keys != [] {
      var n := |keys| - 1;
      DistinctSize(keys[..n]);
      assert Elements(keys) == Elements(keys[..n]) + {keys[n]};
    }
  }

  // ---------- Statements about one call ----------

  /** Hit or miss, a token that is good while the deny-list is clear is refused as revoked exactly if it
      has a jti and the deny-list lists it; no list, a clear one and one that fails change no verdict. */
  lemma RevokedIff(cache: map<string, Entry>, tokens: Tokens, token: string, b: Bundle, audience: string, a: Answer,
                   now: real)
    requires Sound(cache, tokens, audience)
    ensures var clear := Cached(cache, tokens, token, b, audience, Clear, now);
            var r := Cached(cache, tokens, token, b, audience, a, now);
            && clear != Err(Revoked)
            && (a in {NoChecker, Clear, Failed} ==> r == clear)
            && (clear.Err? ==> r == clear)
            && (clear.Ok? ==>
                  var jti := clear.auth.jti;
                  && token in tokens && jti == tokens[token].payload.jti
                  && r == if a == Listed && jti.Some? && jti.value != "" then Err(Revoked) else clear)
  {
  }

  /** What verifying afresh accepts, claim by claim: signed by a held secret, all six claims there, from 30
      seconds before its issue until 30 after its expiry, for this audience alone, and not revoked. */
  lemma AcceptedIff(tokens: Tokens, token: string, b: Bundle, audience: string, a: Answer, now: real, auth: Auth)
    ensures Uncached(tokens, token, b, audience, a, now) == Ok(auth)
            <==> && token in tokens
                 && (tokens[token].secret == b.current || Some(tokens[token].secret) == b.previous)
                 && (var p := tokens[token].payload;
                     && auth == Auth(p.sub, p.tid, audience, p.role, p.jti)
                     && p.sub.Some? && p.tid.Some? && p.jti.Some? && p.aud == Some(One(audience))
                     && p.iat.Some? && now >= p.iat.value as real - 30.0
                     && p.exp.Some? && now < p.exp.value as real + 30.0
                     && (p.jti.value == "" || a != Listed))
  {
  }

  /** A token that would pass but for naming its audience in a list is refused for its audience. */
  lemma ListedAudience(tokens: Tokens, token: string, b: Bundle, audience: string, names: seq<string>, a: Answer,
                       now: real)
    requires token in tokens && tokens[token].payload.aud == Some(One(audience))
    requires Uncached(tokens, token, b, audience, Clear, now).Ok?
    ensures var s := tokens[token];
            var listed := tokens[token := s.(payload := s.payload.(aud := Some(Many(names))))];
            Uncached(listed, token, b, audience, a, now)
            == Err(if audience in names then AudienceMismatch else VerificationFailed)
  {
  }

  /** Without its secret a token is served exactly from the cache, until its expiry. */
  lemma ServedIff(cache: map<string, Entry>, tokens: Tokens, token: string, b: Bundle, audience: string, now: real)
    requires Sound(cache, tokens, audience) && token in tokens && tokens[token].payload.exp.Some?
    requires tokens[token].secret != b.current && Some(tokens[token].secret) != b.previous
    ensures Cached(cache, tokens, token, b, audience, Clear, now).Ok?
            <==> token in cache && now < tokens[token].payload.exp.value as real
  {
  }

  /** Eviction with its numbers: nothing below 10,000 entries; at 10,000 exactly the expired ones go, or if
      there are none the 2,500 that expire first. */
  lemma EvictionInNumbers(before: map<string, Entry>, after: map<string, Entry>, now: real)
    requires Evicted(before, after, now) && |before| <= 10_000
    ensures |before| < 10_000 ==> after == before
    ensures |before| == 10_000 && (exists k <- before :: before[k].expiresAt <= now) ==>
              after == map k <- before | before[k].expiresAt > now :: before[k]
    ensures |before| == 10_000 && (forall k <- before :: before[k].expiresAt > now) ==>
              && |after| == 7_500 && Submap(after, before)
              && forall k, j | k in before && k !in after && j in after :: before[k].expiresAt <= before[j].expiresAt
  {
    SubmapSize(Live(before, now), before);
    if forall k <- before :: before[k].expiresAt > now { assert Live(before, now) == before; }
  }

  /** Popping a jti touches no entry unless the jti is itself a signed token. */
  lemma PopTouchesNothing(cache: map<string, Entry>, tokens: Tokens, audience: string, jti: string)
    requires Sound(cache, tokens, audience) && jti !in tokens
    ensures cache - {jti} == cache
  {
    assert jti !in cache;
  }

  /** A minted token is accepted by its audience exactly while the verifier still holds the secret,
      from leeway before it was issued to leeway after it expires. */
  lemma MintedDecodesIff(tokens: Tokens, token: string, b: Bundle, v: Bundle, subject: string, tenantId: string,
                         target: string, role: Option<string>, minted: real, jti: string, audience: string, now: real)
    requires token in tokens
    requires tokens[token] == Signed(b.current, MintedPayload(subject, tenantId, target, role, minted, jti))
    ensures var auth := Auth(Some(subject), Some(tenantId), audience, role, Some(jti));
            Uncached(tokens, token, v, audience, Clear, now) == Ok(auth)
            <==> && v.Holds(b.current) && audience == target
                 && minted.Floor as real - 30.0 <= now < minted.Floor as real + 330.0
  {
  }
}
