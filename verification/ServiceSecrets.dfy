/** Service-token secrets: the store that rotates them (services/_runtime/secret_store.py) and the
    per-audience copy a minter holds for 60 seconds (frontend/lib/secrets.ts). */
module ServiceSecrets {
  datatype Option<+T> = None | Some(value: T)

  /** Secrets are fresh random strings; here they are numbered. */
  type Secret = nat

  datatype Bundle = Bundle(current: Secret, previous: Option<Secret>) {
    predicate Holds(s: Secret) { s == current || previous == Some(s) }
  }

  class SecretStore {
    var bundles: map<string, Bundle>
    var nextSecret: Secret

    /** No secret is held twice: not by two audiences, and not as both current and previous. */
    ghost predicate Valid()
      reads this
    {
      && (forall a, s: Secret | a in bundles && bundles[a].Holds(s) :: s < nextSecret)
      && (forall a, b, s: Secret | a in bundles && b in bundles && bundles[a].Holds(s) && bundles[b].Holds(s) :: a == b)
      && (forall a <- bundles :: bundles[a].previous != Some(bundles[a].current))
    }

    constructor (audiences: seq<string>)
      ensures Valid() && forall a :: a in bundles <==> a in audiences
      ensures forall a <- bundles :: bundles[a].previous == None
    {
      bundles := map[];
      nextSecret := 0;
      new;
      for i := 0 to |audiences|
        invariant Valid() && forall a :: a in bundles <==> a in audiences[..i]
        invariant forall a <- bundles :: bundles[a].previous == None
      {
        bundles := bundles[audiences[i] := Bundle(nextSecret, None)];
        nextSecret := nextSecret + 1;
      }
    }

    method GetBundle(audience: string) returns (b: Option<Bundle>)
      ensures b == if audience in bundles then Some(bundles[audience]) else None
    {
      b := if audience in bundles then Some(bundles[audience]) else None;
    }

    /** Shifts current to previous and puts a fresh secret in its place; an audience the store does
        not know is created. */
    method Rotate(audience: string) returns (b: Bundle)
      requires Valid()
      modifies this
      ensures Valid()
      ensures b == if audience in old(bundles) then Shifted(old(bundles)[audience], old(nextSecret))
                   else Bundle(old(nextSecret), None)
      ensures bundles == old(bundles)[audience := b] && nextSecret == old(nextSecret) + 1
    {
      var prev: Option<Secret> := None;
      if audience in bundles {
        assert bundles[audience].Holds(bundles[audience].current);
        prev := Some(bundles[audience].current);
      }
      b := Bundle(nextSecret, prev);
      bundles := bundles[audience := b];
      nextSecret := nextSecret + 1;
    }
  }

  // ---------- One audience over time ----------

  /** When secret i of an audience was made: rots[0] is its creation, the rest are its rotations. */
  type Rotations = seq<real>

  predicate Ordered(rots: Rotations) {
    rots != [] && forall i, j :: 0 <= i < j < |rots| ==> rots[i] < rots[j]
  }

  /** Rotations are at least gap apart. */
  predicate Apart(rots: Rotations, gap: real) {
    forall i :: 1 <= i < |rots| - 1 ==> rots[i] + gap <= rots[i + 1]
  }

  /** What one rotation does to the bundle. */
  function Shifted(b: Bundle, next: Secret): Bundle { Bundle(next, Some(b.current)) }

  /** The bundle at time t: every rotation up to t has shifted the secrets once. */
  function BundleAt(rots: Rotations, t: real): Bundle
    requires rots != []
  {
    if |rots| == 1 then Bundle(0, None)
    else if rots[|rots| - 1] <= t then Shifted(BundleAt(rots[..|rots| - 1], t), |rots| - 1)
    else BundleAt(rots[..|rots| - 1], t)
  }

  /** A secret is current until the rotation after it, and accepted until the one after that. */
  lemma {:induction false} HoldsIff(rots: Rotations, t: real, s: Secret)
    requires Ordered(rots) && rots[0] <= t
    ensures BundleAt(rots, t).current == s
            <==> s < |rots| && rots[s] <= t && (s + 1 < |rots| ==> t < rots[s + 1])
    ensures BundleAt(rots, t).Holds(s)
            <==> s < |rots| && rots[s] <= t && (s + 2 < |rots| ==> t < rots[s + 2])
  {
    if |rots| > 1 {
      var shorter := rots[..|rots| - 1];
      HoldsIff(shorter, t, s);
      if rots[|rots| - 1] <= t { CurrentIsLast(shorter, t); }
    }
  }

  lemma {:induction false} CurrentIsLast(rots: Rotations, t: real)
    requires Ordered(rots) && rots[|rots| - 1] <= t
    ensures BundleAt(rots, t).current == |rots| - 1
  {
  }

  // ---------- The minter's copy ----------

  const CACHE_TTL := 60.0

  datatype Copy = Copy(bundle: Bundle, loadedAt: real)

  ghost predicate BundleBetween(rots: Rotations, b: Bundle, from: real, to: real) {
    exists load: real :: from <= load <= to && BundleOf(rots, load, b)
  }

  ghost predicate BundleOf(rots: Rotations, load: real, b: Bundle) {
    Ordered(rots) && rots[0] <= load && b == BundleAt(rots, load)
  }

  /** The bundle of some instant up to t and less than 60 seconds before it. */
  ghost predicate Recent(rots: Rotations, b: Bundle, t: real) {
    exists load: real :: load <= t < load + CACHE_TTL && BundleOf(rots, load, b)
  }

  class SecretCache {
    var cache: map<string, Copy>

    /** Every copy is the store's bundle at an instant no earlier than its stamp and not after now. */
    ghost predicate Valid(store: map<string, Rotations>, now: real)
      reads this
    {
      forall a <- cache :: a in store && BundleBetween(store[a], cache[a].bundle, cache[a].loadedAt, now)
    }

    constructor ()
      ensures cache == map[]
    {
      cache := map[];
    }

    /** row is what the database holds at readAt, when it is asked. */
    method GetSecretBundle(audience: string, now: real, row: Option<Bundle>,
                           ghost store: map<string, Rotations>, ghost readAt: real)
      returns (r: Option<Bundle>)
      requires Valid(store, now) && now <= readAt
      requires row.Some? ==> audience in store && BundleOf(store[audience], readAt, row.value)
      modifies this
      ensures Valid(store, readAt)
      ensures forall a <- old(cache) :: a != audience ==> a in cache && cache[a] == old(cache)[a]
      ensures var hit := audience in old(cache) && now - old(cache)[audience].loadedAt < CACHE_TTL;
              && r == (if hit then Some(old(cache)[audience].bundle) else row)
              && (r.Some? ==> audience in store && Recent(store[audience], r.value, if hit then now else readAt))
              && cache == if !hit && row.Some? then old(cache)[audience := Copy(row.value, now)] else old(cache)
    {
      if audience in cache && now - cache[audience].loadedAt < CACHE_TTL {
        ghost var load: real :| cache[audience].loadedAt <= load <= now
            && BundleOf(store[audience], load, cache[audience].bundle);
        return Some(cache[audience].bundle);
      }
      if row.Some? {
        cache := cache[audience := Copy(row.value, now)];
      }
      r := row;
    }

    method InvalidateSecretCache(audience: Option<string>)
      modifies this
      ensures cache == if audience in {None, Some("")} then map[] else old(cache) - {audience.value}
    {
      if audience.Some? && audience.value != "" {
        cache := cache - {audience.value};
      } else {
        cache := map[];
      }
    }
  }
}
