/** How long the tokens of session.ts are accepted, and why a token is refused, with times as numbers. */
module SessionLife {
  import opened RefreshStore
  import opened BurnPattern
  import opened SessionService
  import opened Strings

  // ---------- How long a token is accepted ----------

  /** A login's token is accepted for exactly ttl from the login. */
  lemma LoginLasts(st: Store, id: Identity, f: Id, j: Id, ttl: Ttl, d: nat, n: Id)
    requires Serial(st) && Unused(st, f) && IsId(f) && IsId(j) && IsId(n)
    ensures AfterRotation(AfterLogin(st, id, f, j, ttl).Advance(d), Key(f, j), n, ttl).result
            == if d < ttl then Rotated(Record(id, f, n), f + "." + n) else Refused(Reused)
  {
  }

  /** The token of u's session k, in a family that was indexed until e, and which no key outlives less. */
  ghost predicate Holding(st: Store, id: Identity, k: Key, e: int) {
    && st.now < e && k in st.refresh && st.refresh[k] >= e
    && k.family in st.index && st.index[k.family] == Timed(id.user, e)
    && id.user in st.session && st.session[id.user] == Record(id, k.family, k.jti)
  }

  /** A rotated token is accepted for exactly ttl from the rotation, while its family is indexed: after
      that it is reused, or its user unknown. */
  lemma RotationLasts(st: Store, k: Key, newId: Id, ttl: Ttl, d: nat, n: Id)
    requires Serial(st) && AfterRotation(st, k, newId, ttl).result.Rotated?
    ensures k.family in st.index
    ensures var first := AfterRotation(st, k, newId, ttl);
            var id, end := first.result.session.id, st.index[k.family].exp;
            AfterRotation(first.store.Advance(d), Key(k.family, newId), n, ttl).result
            == if d >= ttl then Refused(Reused)
               else if st.now + d >= end then Refused(UserUnknown)
               else Rotated(Record(id, k.family, n), k.family + "." + n)
  {
  }

  /** A token is presented after each wait, and each time the one it was rotated to is presented next. */
  predicate Rotates(st: Store, f: Id, j: Id, visits: seq<(nat, Id)>, ttl: Ttl)
    decreases |visits|
  {
    visits == [] ||
    var a := AfterRotation(st.Advance(visits[0].0), Key(f, j), visits[0].1, ttl);
    a.result.Rotated? && Rotates(a.store, f, visits[0].1, visits[1..], ttl)
  }

  function Waited(visits: seq<(nat, Id)>): nat
    decreases |visits|
  {
    if visits == [] then 0 else visits[0].0 + Waited(visits[1..])
  }

  lemma HoldingRotates(st: Store, id: Identity, k: Key, e: int, d: nat, n: Id, ttl: Ttl)
    requires Holding(st, id, k, e) && e <= st.now + ttl
    ensures var a := AfterRotation(st.Advance(d), k, n, ttl);
            && (a.result.Rotated? <==> st.now + d < e)
            && (a.result.Rotated? ==> Holding(a.store, id, Key(k.family, n), e) && a.store.now == st.now + d)
  {
  }

  lemma {:induction false} HeldRotates(
      st: Store, id: Identity, k: Key, e: int, visits: seq<(nat, Id)>, ttl: Ttl)
    requires Holding(st, id, k, e) && e <= st.now + ttl
    ensures Rotates(st, k.family, k.jti, visits, ttl) <==> st.now + Waited(visits) < e
    decreases |visits|
  {
    if visits != [] {
      HoldingRotates(st, id, k, e, visits[0].0, visits[0].1, ttl);
      var a := AfterRotation(st.Advance(visits[0].0), k, visits[0].1, ttl);
      if a.result.Rotated? { HeldRotates(a.store, id, Key(k.family, visits[0].1), e, visits[1..], ttl); }
    }
  }

  /** A login and any number of rotations after waits of any length: all of them succeed exactly if the
      waits add up to less than ttl. */
  lemma ChainLasts(st: Store, id: Identity, f: Id, j: Id, visits: seq<(nat, Id)>, ttl: Ttl)
    ensures Rotates(AfterLogin(st, id, f, j, ttl), f, j, visits, ttl) <==> Waited(visits) < ttl
  {
    HeldRotates(AfterLogin(st, id, f, j, ttl), id, Key(f, j), st.now + ttl, visits, ttl);
  }

  /** After waiting d, exactly the users keep their token whose key and whose index live longer than d. */
  lemma WaitingIff(st: Store, d: nat)
    requires Serial(st)
    ensures Tokens(st.Advance(d))
            == map u | u in Tokens(st) && st.refresh[Tokens(st)[u]] > st.now + d
                       && st.index[Tokens(st)[u].family].exp > st.now + d :: Tokens(st)[u]
  {
  }

  // ---------- Why a token is refused ----------

  /** The reason given to each refused token. */
  lemma RefusalIff(st: Store, k: Key, n: Id, ttl: Ttl)
    ensures var r := AfterRotation(st, k, n, ttl).result;
            && (r == Refused(UserUnknown) <==> k in st.refresh && k.family !in st.index)
            && (r == Refused(Expired) <==>
                  k in st.refresh && k.family in st.index && st.index[k.family].value !in st.session)
            && (r == Refused(Reused) <==>
                  k !in st.refresh ||
                  (k.family in st.index && st.index[k.family].value in st.session &&
                   (st.session[st.index[k.family].value].family, st.session[st.index[k.family].value].jti)
                   != (k.family, k.jti)))
            && r != Refused(Missing)
  {
  }

  /** What a burn takes: the family's index and the keys its pattern hits, and nothing else. */
  lemma BurnTakes(st: Store, f: Id)
    ensures var t := AfterBurn(st, f);
            && t.session == st.session && t.index == st.index - {f} && t.now == st.now
            && (forall k :: k in t.refresh <==> k in st.refresh && !Hits(f, k))
            && (forall k <- t.refresh :: t.refresh[k] == st.refresh[k])
  {
  }

  /** What a refused token costs: reuse burns its family; a user unknown or expired costs the token only. */
  lemma RefusalCosts(st: Store, k: Key, n: Id, ttl: Ttl)
    ensures var a := AfterRotation(st, k, n, ttl);
            && (a.result == Refused(Reused) ==>
                  && k.family !in a.store.index && a.store.session == st.session
                  && forall l :: l in a.store.refresh <==> l in st.refresh && l != k && !Hits(k.family, l))
            && (a.result in {Refused(UserUnknown), Refused(Expired)} ==>
                  a.store == st.(refresh := st.refresh - {k}))
  {
    if k !in st.refresh { BurnTakes(st, k.family); } else { BurnTakes(st.DelRefresh({k}), k.family); }
  }

  /** After a logout the user's token is refused as reused, and neither its key nor its index is left. */
  lemma LogoutEnds(st: Store, u: Id, n: Id, ttl: Ttl)
    requires Serial(st) && u in Tokens(st)
    ensures var k, out := Tokens(st)[u], AfterLogout(st, u);
            && k !in out.refresh && k.family !in out.index && u !in out.session
            && AfterRotation(out, k, n, ttl).result == Refused(Reused)
  {
    assert OwnRecord(st, u);
    ExactHits(st.session[u].family, Tokens(st)[u]);
  }

  /** Two logins of one user: the older token is refused as reused, at nobody's cost, and once the user
      has logged out as expired. */
  lemma OlderLogin(st: Store, id: Identity, f: Id, j: Id, g: Id, i: Id, n: Id, ttl: Ttl)
    requires Serial(st) && Unused(st, f) && Unused(st, g) && f != g
    requires IsId(f) && IsId(g) && IsId(j) && IsId(i) && IsId(n)
    ensures var both := AfterLogin(AfterLogin(st, id, f, j, ttl), id, g, i, ttl);
            var a := AfterRotation(both, Key(f, j), n, ttl);
            && a.result == Refused(Reused) && Tokens(a.store) == Tokens(both)
            && AfterRotation(AfterLogout(both, id.user), Key(f, j), n, ttl).result == Refused(Expired)
  {
    var one := AfterLogin(st, id, f, j, ttl);
    LoginReplaces(st, id, f, j, ttl);
    LoginReplaces(one, id, g, i, ttl);
    var both := AfterLogin(one, id, g, i, ttl);
    RotationRefines(both, Key(f, j), n, ttl);
    assert Key(f, j) in both.refresh;
    assert !Accepts(both, Key(f, j));
    AcceptedIsHeld(both, Key(f, j));
    OlderKeyStays(st, id, f, j, g, i, ttl);
  }

  /** The logout burns the newer family only. */
  lemma OlderKeyStays(st: Store, id: Identity, f: Id, j: Id, g: Id, i: Id, ttl: Ttl)
    requires IsId(f) && IsId(g) && IsId(j) && f != g
    ensures var out := AfterLogout(AfterLogin(AfterLogin(st, id, f, j, ttl), id, g, i, ttl), id.user);
            && Key(f, j) in out.refresh && f in out.index && out.index[f].value == id.user
            && id.user !in out.session
  {
    ExactHits(g, Key(f, j));
  }

  // ---------- What a token is ----------

  /** A token names a family and a jti, its first two parts; one without a dot, or with either part empty,
      is refused as missing. */
  lemma TokenShapes(f: string, j: string, rest: string)
    requires '.' !in f && '.' !in j
    ensures !Wellformed(f)
    ensures Wellformed(f + "." + j) <==> f != "" && j != ""
    ensures Wellformed(f + "." + j + "." + rest) <==> f != "" && j != ""
    ensures f != "" && j != "" ==> Parse(f + "." + j) == Key(f, j) && Parse(f + "." + j + "." + rest) == Key(f, j)
  {
    SplitWhole(f, '.');
    SplitWhole(j, '.');
    SplitFirst(f, '.', j);
    SplitFirst(j, '.', rest);
    SplitFirst(f, '.', j + ['.'] + rest);
    assert f + "." + j + "." + rest == f + ['.'] + (j + ['.'] + rest);
  }
}
