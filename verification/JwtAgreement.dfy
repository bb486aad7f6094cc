/** When the verify cache agrees with verifying afresh, while secrets rotate and verifications
    interleave. Minters hold a bundle up to 60 seconds old; the verifier's bundle is the store's. */
module JwtAgreement {
  import opened ServiceSecrets
  import opened JwtService

  /** One audience, its rotations, and which strings are signed. */
  datatype World = World(rots: Rotations, tokens: Tokens, audience: string)

  /** waiting holds the verifications between a good decode and the deny-list's answer. */
  datatype State = State(cache: map<string, Entry>, waiting: multiset<string>, clock: real)

  datatype Step =
    | Decode(token: string, at: real)
    | Keep(token: string, at: real, kept: map<string, Entry>)
    | RefuseDecoded(token: string, at: real)
    | RefuseHit(token: string, at: real)

  predicate Accepted(w: World, token: string, at: real)
    requires w.rots != []
  {
    && Decodes(w.tokens, token, BundleAt(w.rots, at), w.audience, at)
    && w.tokens[token].payload.aud == Some(One(w.audience))
  }

  ghost predicate Enabled(w: World, s: State, step: Step)
    requires Ordered(w.rots)
  {
    && step.at >= s.clock && step.at >= w.rots[0]
    && match step {
      case Decode(token, at) => !Hit(s.cache, token, at) && Accepted(w, token, at)
      case Keep(token, at, kept) =>
        token in s.waiting && token in w.tokens && w.tokens[token].payload.exp.Some? && Evicted(s.cache, kept, at)
      case RefuseDecoded(token, at) => token in s.waiting && token in w.tokens && w.tokens[token].payload.jti.Some?
      case RefuseHit(token, at) => token in w.tokens && w.tokens[token].payload.jti.Some?
    }
  }

  function Fresh(w: World, token: string): Entry
    requires token in w.tokens && w.tokens[token].payload.exp.Some?
  {
    Entry(w.tokens[token].payload, w.audience, w.tokens[token].payload.exp.value as real)
  }

  ghost function Apply(w: World, s: State, step: Step): State
    requires Ordered(w.rots) && Enabled(w, s, step)
  {
    match step
    case Decode(token, at) => State(s.cache, s.waiting + multiset{token}, at)
    case Keep(token, at, kept) => State(kept[token := Fresh(w, token)], s.waiting - multiset{token}, at)
    case RefuseDecoded(token, at) =>
      State(s.cache - {w.tokens[token].payload.jti.value}, s.waiting - multiset{token}, at)
    case RefuseHit(token, at) => State(s.cache - {w.tokens[token].payload.jti.value}, s.waiting, at)
  }

  ghost predicate Legal(w: World, s: State, steps: seq<Step>)
    requires Ordered(w.rots)
    decreases |steps|
  {
    steps == [] || (Enabled(w, s, steps[0]) && Legal(w, Apply(w, s, steps[0]), steps[1..]))
  }

  ghost function Exec(w: World, s: State, steps: seq<Step>): State
    requires Ordered(w.rots) && Legal(w, s, steps)
    decreases |steps|
  {
    if steps == [] then s else Exec(w, Apply(w, s, steps[0]), steps[1..])
  }

  function Start(w: World): State
    requires Ordered(w.rots)
  {
    State(map[], multiset{}, w.rots[0])
  }

  // ---------- What every run keeps ----------

  /** What accepting a token once settles for good. */
  ghost predicate Once(w: World, token: string, clock: real) {
    && token in w.tokens && w.tokens[token].secret < |w.rots| && w.rots[w.tokens[token].secret] <= clock
    && var p := w.tokens[token].payload;
       && p.exp.Some? && p.iat.Some? && p.sub.Some? && p.tid.Some? && p.jti.Some?
       && p.aud == Some(One(w.audience)) && p.iat.value as real <= clock + LEEWAY
  }

  ghost predicate OnceAll(w: World, ts: set<string>, clock: real) {
    forall t <- ts :: Once(w, t, clock)
  }

  ghost predicate Inv(w: World, s: State) {
    && Sound(s.cache, w.tokens, w.audience)
    && OnceAll(w, s.cache.Keys, s.clock)
    && OnceAll(w, Members(s.waiting), s.clock)
  }

  function Members(m: multiset<string>): set<string> { set t <- m }

  lemma OnceLater(w: World, ts: set<string>, us: set<string>, clock: real, at: real)
    requires OnceAll(w, ts, clock) && us <= ts && clock <= at
    ensures OnceAll(w, us, at)
  {
  }

  lemma AcceptedOnce(w: World, token: string, at: real)
    requires Ordered(w.rots) && w.rots[0] <= at && Accepted(w, token, at)
    ensures Once(w, token, at)
  {
    HoldsIff(w.rots, at, w.tokens[token].secret);
  }

  lemma DecodeKeeps(w: World, s: State, token: string, at: real)
    requires Ordered(w.rots) && Inv(w, s) && Enabled(w, s, Decode(token, at))
    ensures Inv(w, Apply(w, s, Decode(token, at)))
  {
    AcceptedOnce(w, token, at);
    OnceLater(w, s.cache.Keys, s.cache.Keys, s.clock, at);
    OnceLater(w, Members(s.waiting), Members(s.waiting), s.clock, at);
    assert Members(s.waiting + multiset{token}) == Members(s.waiting) + {token};
  }

  lemma SoundPlus(kept: map<string, Entry>, w: World, token: string)
    requires Sound(kept, w.tokens, w.audience) && |kept| < MAX_ENTRIES
    requires token in w.tokens && w.tokens[token].payload.exp.Some?
    ensures Sound(kept[token := Fresh(w, token)], w.tokens, w.audience)
  {
  }

  lemma OncePlus(w: World, ts: set<string>, token: string, clock: real)
    requires OnceAll(w, ts, clock) && Once(w, token, clock)
    ensures OnceAll(w, ts + {token}, clock)
  {
  }

  lemma KeepKeeps(w: World, s: State, token: string, at: real, kept: map<string, Entry>)
    requires Ordered(w.rots) && Inv(w, s) && Enabled(w, s, Keep(token, at, kept))
    ensures Inv(w, Apply(w, s, Keep(token, at, kept)))
  {
    EvictedIsSound(s.cache, kept, at, w.tokens, w.audience);
    SoundPlus(kept, w, token);
    OnceAfterKeep(w, s, token, at, kept.Keys);
    assert kept[token := Fresh(w, token)].Keys == kept.Keys + {token};
  }

  lemma OnceAfterKeep(w: World, s: State, token: string, at: real, keys: set<string>)
    requires OnceAll(w, s.cache.Keys, s.clock) && OnceAll(w, Members(s.waiting), s.clock)
    requires token in s.waiting && s.clock <= at && keys <= s.cache.Keys
    ensures OnceAll(w, keys + {token}, at) && OnceAll(w, Members(s.waiting - multiset{token}), at)
  {
    assert token in Members(s.waiting);
    OnceLater(w, s.cache.Keys, keys, s.clock, at);
    OnceLater(w, Members(s.waiting), {token}, s.clock, at);
    OncePlus(w, keys, token, at);
    OnceLater(w, Members(s.waiting), Members(s.waiting - multiset{token}), s.clock, at);
  }

  lemma RefuseKeeps(w: World, s: State, step: Step)
    requires Ordered(w.rots) && Inv(w, s) && Enabled(w, s, step) && (step.RefuseDecoded? || step.RefuseHit?)
    ensures Inv(w, Apply(w, s, step))
  {
    var after := Apply(w, s, step);
    SmallerIsSound(s.cache, after.cache, w.tokens, w.audience);
    OnceLater(w, s.cache.Keys, after.cache.Keys, s.clock, after.clock);
    OnceLater(w, Members(s.waiting), Members(after.waiting), s.clock, after.clock);
  }

  lemma StepKeeps(w: World, s: State, step: Step)
    requires Ordered(w.rots) && Inv(w, s) && Enabled(w, s, step)
    ensures Inv(w, Apply(w, s, step))
  {
    match step
    case Decode(token, at) => DecodeKeeps(w, s, token, at);
    case Keep(token, at, kept) => KeepKeeps(w, s, token, at, kept);
    case RefuseDecoded(token, at) => RefuseKeeps(w, s, step);
    case RefuseHit(token, at) => RefuseKeeps(w, s, step);
  }

  /** Over any interleaving the cache never outgrows its maximum, and each entry is of a token that
      was once accepted. */
  lemma {:induction false} RunKeeps(w: World, s: State, steps: seq<Step>)
    requires Ordered(w.rots) && Inv(w, s) && Legal(w, s, steps)
    ensures Inv(w, Exec(w, s, steps)) && |Exec(w, s, steps).cache| <= MAX_ENTRIES
    decreases |steps|
  {
    if steps != [] {
      StepKeeps(w, s, steps[0]);
      RunKeeps(w, Apply(w, s, steps[0]), steps[1..]);
    }
  }

  /** A verification that is not interrupted is a decode and a keep of the machine. */
  lemma AloneIsDecodeKeep(w: World, s: State, token: string, at: real, after: map<string, Entry>)
    requires Ordered(w.rots) && at >= s.clock && at >= w.rots[0]
    requires !Hit(s.cache, token, at) && Accepted(w, token, at) && Stored(s.cache, after, token, Fresh(w, token), at)
    ensures exists kept ::
              var steps := [Decode(token, at), Keep(token, at, kept)];
              Legal(w, s, steps) && Exec(w, s, steps) == State(after, s.waiting, at)
  {
    var kept :| Evicted(s.cache, kept, at) && after == kept[token := Fresh(w, token)];
    var steps := [Decode(token, at), Keep(token, at, kept)];
    var mid := Apply(w, s, steps[0]);
    assert steps[1..] == [steps[1]] && steps[1..][1..] == [];
    assert Enabled(w, mid, steps[1]) && Legal(w, Apply(w, mid, steps[1]), []);
    assert Legal(w, mid, steps[1..]) && Legal(w, s, steps);
    assert s.waiting + multiset{token} - multiset{token} == s.waiting;
    assert Exec(w, Apply(w, mid, steps[1]), []) == State(after, s.waiting, at);
    assert Exec(w, mid, steps[1..]) == State(after, s.waiting, at);
    assert Exec(w, s, steps) == State(after, s.waiting, at);
  }

  // ---------- Agreement ----------

  /** A service token: signed with the current secret of a bundle up to 60 seconds old, for 300
      seconds from the second it was made in. */
  ghost predicate ServiceToken(rots: Rotations, t: Signed, load: real, minted: real) {
    && Ordered(rots) && rots[0] <= load <= minted < load + CACHE_TTL
    && t.secret == BundleAt(rots, load).current
    && t.payload.iat == Some(minted.Floor) && t.payload.exp == Some(minted.Floor + TTL)
  }

  ghost predicate AllServiceTokens(w: World) {
    forall t <- w.tokens :: exists load, minted :: ServiceToken(w.rots, w.tokens[t], load, minted)
  }

  ghost predicate CacheAgrees(w: World, steps: seq<Step>, token: string, a: Answer, at: real)
    requires Ordered(w.rots) && Legal(w, Start(w), steps)
  {
    var cache, b := Exec(w, Start(w), steps).cache, BundleAt(w.rots, at);
    Cached(cache, w.tokens, token, b, w.audience, a, at) == Uncached(w.tokens, token, b, w.audience, a, at)
  }

  /** With rotations gap apart, the cache changes no verdict of any run. */
  ghost predicate Agreeable(gap: real) {
    forall w: World, steps, token, a, at |
      Ordered(w.rots) && Apart(w.rots, gap) && AllServiceTokens(w) && Legal(w, Start(w), steps)
      && at >= Exec(w, Start(w), steps).clock ::
      CacheAgrees(w, steps, token, a, at)
  }

  lemma HeldWhileFresh(rots: Rotations, t: Signed, load: real, minted: real, gap: real, extra: real, at: real)
    requires ServiceToken(rots, t, load, minted) && Apart(rots, gap)
    requires 0.0 <= extra && gap >= 360.0 + extra
    requires load <= at < t.payload.exp.value as real + extra
    ensures BundleAt(rots, at).Holds(t.secret)
  {
    HoldsIff(rots, load, t.secret);
    HoldsIff(rots, at, t.secret);
    assert minted.Floor as real <= minted;
  }

  /** Before the bundle it was minted from was even loaded, a secret already in use is current. */
  lemma HeldBefore(rots: Rotations, t: Signed, load: real, minted: real, at: real)
    requires ServiceToken(rots, t, load, minted)
    requires t.secret < |rots| && rots[t.secret] <= at <= load
    ensures BundleAt(rots, at).Holds(t.secret)
  {
    HoldsIff(rots, load, t.secret);
    HoldsIff(rots, at, t.secret);
  }

  lemma HitVerdict(w: World, s: State, token: string, b: Bundle, a: Answer, at: real)
    requires Inv(w, s) && s.clock <= at && Hit(s.cache, token, at)
    requires token in w.tokens && b.Holds(w.tokens[token].secret)
    ensures Cached(s.cache, w.tokens, token, b, w.audience, a, at) == Uncached(w.tokens, token, b, w.audience, a, at)
  {
    assert token in s.cache.Keys && Once(w, token, s.clock);
  }

  lemma HitAgrees(w: World, s: State, token: string, gap: real, a: Answer, at: real)
    requires Ordered(w.rots) && Apart(w.rots, gap) && gap >= 360.0 && AllServiceTokens(w)
    requires Inv(w, s) && s.clock <= at && Hit(s.cache, token, at) && w.rots[0] <= at
    ensures var b := BundleAt(w.rots, at);
            Cached(s.cache, w.tokens, token, b, w.audience, a, at) == Uncached(w.tokens, token, b, w.audience, a, at)
  {
    assert token in s.cache.Keys && Once(w, token, s.clock);
    var load, minted :| ServiceToken(w.rots, w.tokens[token], load, minted);
    if load <= at {
      HeldWhileFresh(w.rots, w.tokens[token], load, minted, gap, 0.0, at);
    } else {
      HeldBefore(w.rots, w.tokens[token], load, minted, at);
    }
    HitVerdict(w, s, token, BundleAt(w.rots, at), a, at);
  }

  lemma AgreeableFrom360(gap: real)
    requires gap >= 360.0
    ensures Agreeable(gap)
  {
    forall w: World, steps, token, a, at |
      Ordered(w.rots) && Apart(w.rots, gap) && AllServiceTokens(w) && Legal(w, Start(w), steps)
      && at >= Exec(w, Start(w), steps).clock
      ensures CacheAgrees(w, steps, token, a, at)
    {
      RunKeeps(w, Start(w), steps);
      ClockAfterStart(w, Start(w), steps);
      var s := Exec(w, Start(w), steps);
      if Hit(s.cache, token, at) { HitAgrees(w, s, token, gap, a, at); }
    }
  }

  lemma {:induction false} ClockAfterStart(w: World, s: State, steps: seq<Step>)
    requires Ordered(w.rots) && Legal(w, s, steps)
    ensures Exec(w, s, steps).clock >= s.clock
    decreases |steps|
  {
    if steps != [] { ClockAfterStart(w, Apply(w, s, steps[0]), steps[1..]); }
  }

  // ---------- The bounds are exact ----------

  /** A minter loads the bundle just before the first rotation, mints with it almost 60 seconds
      later, and the second rotation follows 360 + extra - 2d seconds after the first. */
  function Squeezed(d: real, extra: real): Rotations { [0.0, 1000.0 + d, 1360.0 + extra - d] }

  const LATE := Payload(Some("u"), Some(One("worker")), Some("t"), Some("j"), Some(1060), Some(1360), None)

  lemma SqueezedFacts(d: real, extra: real, gap: real)
    requires 0.0 < d <= 0.5 && 0.0 <= extra && gap <= 360.0 + extra - 2.0 * d
    ensures Ordered(Squeezed(d, extra)) && Apart(Squeezed(d, extra), gap)
    ensures ServiceToken(Squeezed(d, extra), Signed(0, LATE), 1000.0 + d / 2.0, 1060.0)
    ensures forall t :: 0.0 <= t ==> (BundleAt(Squeezed(d, extra), t).Holds(0) <==> t < 1360.0 + extra - d)
  {
    var rots := Squeezed(d, extra);
    HoldsIff(rots, 1000.0 + d / 2.0, 0);
    forall t: real | 0.0 <= t ensures BundleAt(rots, t).Holds(0) <==> t < 1360.0 + extra - d {
      HoldsIff(rots, t, 0);
    }
  }

  function Half(bound: real, gap: real): real
    requires gap < bound
  {
    if gap < bound - 1.0 then 0.5 else (bound - gap) / 2.0
  }

  /** The token is cached at 1070 and still served when the uncached verdict is a refusal. */
  lemma DisagreesBelow360(gap: real)
    requires gap < 360.0
    ensures !Agreeable(gap)
  {
    var d := Half(360.0, gap);
    SqueezedFacts(d, 0.0, gap);
    var w := World(Squeezed(d, 0.0), map["x" := Signed(0, LATE)], "worker");
    assert AllServiceTokens(w);
    AcceptedEarly(w, d);
    AloneIsDecodeKeep(w, Start(w), "x", 1070.0, map["x" := Fresh(w, "x")]);
    var kept :| var steps := [Decode("x", 1070.0), Keep("x", 1070.0, kept)];
      Legal(w, Start(w), steps) && Exec(w, Start(w), steps)
          == State(map["x" := Fresh(w, "x")], Start(w).waiting, 1070.0);
    var steps := [Decode("x", 1070.0), Keep("x", 1070.0, kept)];
    assert !BundleAt(w.rots, 1360.0 - d).Holds(0);
    assert !CacheAgrees(w, steps, "x", Clear, 1360.0 - d);
  }

  lemma AcceptedEarly(w: World, d: real)
    requires 0.0 < d <= 0.5 && w == World(Squeezed(d, 0.0), map["x" := Signed(0, LATE)], "worker")
    ensures Ordered(w.rots) && Accepted(w, "x", 1070.0)
    ensures Stored(map[], map["x" := Fresh(w, "x")], "x", Fresh(w, "x"), 1070.0)
  {
    SqueezedFacts(d, 0.0, 360.0 - 2.0 * d);
    assert Evicted(map[], map[], 1070.0);
  }

  /** The cache agrees in every run exactly when rotations are at least 360 seconds apart: the 300 a
      token lives and the 60 its bundle may be old. */
  lemma AgreeableIff(gap: real)
    ensures Agreeable(gap) <==> gap >= 360.0
  {
    if gap >= 360.0 { AgreeableFrom360(gap); } else { DisagreesBelow360(gap); }
  }

  /** With rotations gap apart, every service token is decodable through its whole life and leeway. */
  ghost predicate Lasting(gap: real) {
    forall rots, t: Signed, load, minted, at |
      Apart(rots, gap) && ServiceToken(rots, t, load, minted) && minted <= at < t.payload.exp.value as real + LEEWAY ::
      BundleAt(rots, at).Holds(t.secret)
  }

  /** For the whole life and leeway the exact bound is 390 seconds. */
  lemma LastingIff(gap: real)
    ensures Lasting(gap) <==> gap >= 390.0
  {
    if gap >= 390.0 {
      forall rots, t: Signed, load, minted, at |
        Apart(rots, gap) && ServiceToken(rots, t, load, minted) && minted <= at < t.payload.exp.value as real + LEEWAY
        ensures BundleAt(rots, at).Holds(t.secret)
      {
        HeldWhileFresh(rots, t, load, minted, gap, 30.0, at);
      }
    } else {
      var d := Half(390.0, gap);
      SqueezedFacts(d, 30.0, gap);
      assert !BundleAt(Squeezed(d, 30.0), 1390.0 - d).Holds(0);
    }
  }
}
