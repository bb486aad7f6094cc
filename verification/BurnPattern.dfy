/** Which refresh keys a burn deletes: its SCAN reads the family id it is given as a pattern. */
module BurnPattern {
  import opened Base64Url
  import opened RefreshStore
  import G = Glob

  // ---------- The text of a key after its prefix ----------

  function Tail(k: Key): string { k.family + ":" + k.jti }

  lemma PrefixIsPlain()
    ensures G.Plain("refresh:")
  {
  }

  lemma HitsTail(f: Id, k: Key)
    ensures Hits(f, k) <==> G.Matches(f + ":*", Tail(k))
  {
    PrefixIsPlain();
    assert f + ":" + "*" == f + ":*";
    G.PlainPrefix("refresh:", f + ":*", KeyText(k.family, k.jti));
    assert KeyText(k.family, k.jti)[|"refresh:"|..] == Tail(k);
  }

  lemma IdsArePlain(x: Id)
    requires IsId(x)
    ensures G.Plain(x) && ':' !in x
  {
  }

  /** An id with its colon starts another key's tail only if it is that key's family. */
  lemma FirstColon(f: string, k: Key)
    requires IsId(k.family) && IsId(k.jti) && f + ":" <= Tail(k)
    ensures f == k.family
  {
    IdsArePlain(k.family);
    IdsArePlain(k.jti);
    var t := Tail(k);
    forall i | 0 <= i < |t| && i != |k.family| ensures t[i] != ':' {
      assert t[i] == if i < |k.family| then k.family[i] else k.jti[i - |k.family| - 1];
    }
    assert t[|f|] == (f + ":")[|f|] == ':';
    assert t[..|f|] == f && t[..|k.family|] == k.family;
  }

  /** A presented key is a stored one exactly when their texts are equal, whatever was presented. */
  lemma KeysAreTexts(presented: Key, k: Key)
    requires IsId(k.family) && IsId(k.jti)
    ensures KeyText(presented.family, presented.jti) == KeyText(k.family, k.jti) <==> presented == k
  {
    if KeyText(presented.family, presented.jti) == KeyText(k.family, k.jti) {
      assert KeyText(k.family, k.jti)[|"refresh:"|..] == Tail(k);
      assert KeyText(presented.family, presented.jti)[|"refresh:"|..] == Tail(presented);
      assert Tail(presented)[..|presented.family| + 1] == presented.family + ":";
      FirstColon(presented.family, k);
      assert Tail(k)[|k.family| + 1..] == k.jti && Tail(presented)[|k.family| + 1..] == presented.jti;
    }
  }

  /** A plain pattern hits the keys of the family it names and no others. */
  lemma PlainHits(f: Id, k: Key)
    requires G.Plain(f) && IsId(k.family) && IsId(k.jti)
    ensures Hits(f, k) <==> k.family == f
  {
    HitsTail(f, k);
    assert f + ":*" == (f + ":") + "*" && G.Plain(f + ":");
    G.PlainPrefix(f + ":", "*", Tail(k));
    assert k.family == f ==> Tail(k)[..|f| + 1] == f + ":";
    if f + ":" <= Tail(k) {
      FirstColon(f, k);
      G.StarMatchesAll(Tail(k)[|f + ":"|..]);
    }
  }

  // ---------- Whether a pattern hits any key at all ----------

  /** Reading a tail {family}:{jti} of ids: 0 before it, 1 in the family, 2 at the jti, 3 in the jti. */
  type Place = q: nat | q <= 3

  function AfterId(q: Place): Place { if q <= 1 then 1 else 3 }

  /** s takes a reader from place q to the end of a tail. */
  predicate Reads(q: Place, s: string)
    decreases |s|
  {
    if s == [] then q == 3
    else if UrlSafe(s[0]) then Reads(AfterId(q), s[1..])
    else s[0] == ':' && q == 1 && Reads(2, s[1..])
  }

  predicate TakesId(i: G.Item) { exists c :: UrlSafe(c) && G.Takes(i, c) }

  /** Some tail read from place q matches the pattern: worked out from the pattern alone. */
  predicate Can(items: seq<G.Item>, q: Place)
    decreases |items|
  {
    if items == [] then q == 3
    else if items[0].Star? then exists r: Place :: q <= r && Can(items[1..], r)
    else (TakesId(items[0]) && Can(items[1..], AfterId(q))) || (q == 1 && G.Takes(items[0], ':') && Can(items[1..], 2))
  }

  lemma {:induction false} MatchCan(items: seq<G.Item>, q: Place, s: string)
    requires Reads(q, s) && G.Match(items, s)
    ensures Can(items, q)
    decreases |items| + |s|
  {
    if items == [] {
    } else if items[0].Star? {
      if G.Match(items[1..], s) {
        MatchCan(items[1..], q, s);
      } else {
        var p: Place := if UrlSafe(s[0]) then AfterId(q) else 2;
        MatchCan(items, p, s[1..]);
        var r: Place :| p <= r && Can(items[1..], r);
        assert q <= r;
      }
    } else if UrlSafe(s[0]) {
      MatchCan(items[1..], AfterId(q), s[1..]);
    } else {
      MatchCan(items[1..], 2, s[1..]);
    }
  }

  lemma {:induction false} CanMatch(items: seq<G.Item>, q: Place) returns (s: string)
    requires Can(items, q)
    ensures Reads(q, s) && G.Match(items, s)
    decreases |items|
  {
    if items == [] {
      s := [];
    } else if items[0].Star? {
      var r: Place :| q <= r && Can(items[1..], r);
      var t := CanMatch(items[1..], r);
      s := LeadTo(items, q, r, t);
    } else if TakesId(items[0]) && Can(items[1..], AfterId(q)) {
      var c :| UrlSafe(c) && G.Takes(items[0], c);
      var t := CanMatch(items[1..], AfterId(q));
      s := [c] + t;
    } else {
      var t := CanMatch(items[1..], 2);
      s := [':'] + t;
    }
  }

  /** A star reads on to any later place. */
  lemma {:induction false} LeadTo(items: seq<G.Item>, q: Place, r: Place, t: string) returns (s: string)
    requires items != [] && items[0].Star? && q <= r && Reads(r, t) && G.Match(items[1..], t)
    ensures Reads(q, s) && G.Match(items, s)
    decreases r - q
  {
    if q == r {
      s := t;
    } else {
      var u := LeadTo(items, q + 1, r, t);
      s := [if q == 1 then ':' else 'A'] + u;
      assert s[1..] == u;
    }
  }

  lemma {:induction false} TailReads(g: string, rest: string, q: Place)
    requires AllUrlSafe(g) && g != ""
    ensures Reads(q, g + rest) == Reads(AfterId(q), rest)
  {
    assert (g + rest)[1..] == g[1..] + rest;
    if |g| > 1 { TailReads(g[1..], rest, AfterId(q)); } else { assert g[1..] + rest == rest; }
  }

  lemma KeyReads(k: Key)
    requires IsId(k.family) && IsId(k.jti)
    ensures Reads(0, Tail(k))
  {
    assert Tail(k) == k.family + (":" + k.jti);
    TailReads(k.family, ":" + k.jti, 0);
    assert (":" + k.jti)[1..] == k.jti;
    assert k.jti + "" == k.jti;
    TailReads(k.jti, "", 2);
  }

  /** What is read from the start is a tail of ids. */
  lemma ReadsKey(s: string) returns (k: Key)
    requires Reads(0, s)
    ensures IsId(k.family) && IsId(k.jti) && Tail(k) == s
  {
    var g, rest := ReadsFamily(s, 0);
    ReadsJti(rest[1..]);
    k := Key(g, rest[1..]);
    assert rest == ":" + rest[1..];
  }

  lemma {:induction false} ReadsFamily(s: string, q: Place) returns (g: string, rest: string)
    requires Reads(q, s) && q <= 1
    ensures s == g + rest && AllUrlSafe(g) && (q == 0 ==> g != "")
    ensures rest != "" && rest[0] == ':' && Reads(2, rest[1..])
  {
    if UrlSafe(s[0]) {
      g, rest := ReadsFamily(s[1..], 1);
      g := [s[0]] + g;
    } else {
      g, rest := "", s;
    }
  }

  lemma {:induction false} ReadsJti(s: string)
    requires Reads(2, s) || Reads(3, s)
    ensures AllUrlSafe(s) && (Reads(2, s) ==> s != "")
  {
    if s != [] { ReadsJti(s[1..]); }
  }

  // ---------- When a burn takes exactly its family ----------

  /** f is an id, or no key of two ids can match its pattern. */
  predicate Exact(f: Id) { IsId(f) || !Can(G.Parse(f + ":*"), 0) }

  lemma ExactHits(f: Id, k: Key)
    requires Exact(f) && IsId(k.family) && IsId(k.jti)
    ensures Hits(f, k) <==> k.family == f
  {
    if IsId(f) {
      IdsArePlain(f);
      PlainHits(f, k);
    } else {
      HitsTail(f, k);
      KeyReads(k);
      if Hits(f, k) { MatchCan(G.Parse(f + ":*"), 0, Tail(k)); }
    }
  }

  /** Otherwise it takes some key of another family. */
  lemma InexactHits(f: Id) returns (k: Key)
    requires !Exact(f)
    ensures IsId(k.family) && IsId(k.jti) && Hits(f, k) && k.family != f
  {
    var s := CanMatch(G.Parse(f + ":*"), 0);
    k := ReadsKey(s);
    HitsTail(f, k);
  }

  /** Without a special character a burn is exact. */
  lemma PlainIsExact(f: Id)
    requires G.Plain(f)
    ensures Exact(f)
  {
    if !Exact(f) {
      var k := InexactHits(f);
      PlainHits(f, k);
    }
  }

  predicate IdOrWildcard(f: string) { forall c <- f :: UrlSafe(c) || c == '*' || c == '?' }

  /** Among texts of id characters, stars and question marks, exactly those without a star or question
      mark are exact. */
  lemma WildcardsIff(f: Id)
    requires f != "" && IdOrWildcard(f)
    ensures Exact(f) <==> G.Plain(f)
  {
    if G.Plain(f) { PlainIsExact(f); } else { WildcardsCan(f, 0); }
  }

  lemma ColonStarCan()
    ensures Can(G.Parse(":*"), 1)
  {
    var star := [G.Star];
    G.ParseWild("");
    assert "*" + "" == "*" && G.Parse("") == [] && G.Parse("*") == star;
    assert [':'] + "*" == ":*";
    G.ParsePlain(':', "*");
    var items := [G.Lit(':')] + star;
    assert G.Parse(":*") == items && items[1..] == star && star[1..] == [];
    assert Can([], 3) && Can(star, 2);
  }

  lemma OneMoreCan(i: G.Item, rest: seq<G.Item>, q: Place)
    requires q <= 1 && Can(rest, 1) && (i.Star? || TakesId(i))
    ensures Can([i] + rest, q)
  {
    assert ([i] + rest)[1..] == rest;
  }

  lemma {:induction false} WildcardsCan(f: string, q: Place)
    requires IdOrWildcard(f) && (q == 1 || (q == 0 && f != ""))
    ensures Can(G.Parse(f + ":*"), q)
    decreases |f|
  {
    if f == "" {
      assert f + ":*" == ":*";
      ColonStarCan();
    } else {
      var p := f[1..] + ":*";
      WildcardsCan(f[1..], 1);
      assert f + ":*" == [f[0]] + p;
      G.ParseWild(p);
      if f[0] == '*' {
        assert [f[0]] == "*";
        OneMoreCan(G.Star, G.Parse(p), q);
      } else if f[0] == '?' {
        assert [f[0]] == "?" && UrlSafe('A') && G.Takes(G.Any, 'A');
        OneMoreCan(G.Any, G.Parse(p), q);
      } else {
        G.ParsePlain(f[0], p);
        assert UrlSafe(f[0]) && G.Takes(G.Lit(f[0]), f[0]);
        OneMoreCan(G.Lit(f[0]), G.Parse(p), q);
      }
    }
  }

  /** A special character alone does not make a burn inexact: an empty class matches nothing. */
  lemma EmptyClassIsExact()
    ensures Exact("[]") && !G.Plain("[]")
  {
    var p := "[]" + ":*";
    assert p[0] == '[' && p[1..][0] == ']' && p[1..][1..] == ":*";
    assert G.ClassBody(p[1..]) == G.Body([], ":*");
    var i := G.Class(false, []);
    assert G.Parse(p) == [i] + G.Parse(":*") && !TakesId(i);
    assert "[]"[0] == '[' && !UrlSafe('[') && G.Special('[');
    assert '[' in "[]";
  }

  /** Beyond ASCII it can depend on the machine: of the bytes of the text "[{-" + e-acute + "]*" the class
      spans from the left brace to 0xC3, which as a signed char is below every id character. */
  lemma SignDecides()
    ensures Exact("[{-\U{C3}\U{A9}]*") <==> !G.SIGNED
  {
    var p := "[{-\U{C3}\U{A9}]*" + ":*";
    assert p[1..][1] == '-' && p[1..][3..] == "\U{A9}]*:*" && "\U{A9}]*:*"[1..] == "]*:*" && "]*:*"[1..] == "*:*";
    var low := ('{', '\U{C3}');
    var i := G.Class(false, [if G.SIGNED then (low.1, low.0) else low, ('\U{A9}', '\U{A9}')]);
    assert G.ClassBody("]*:*") == G.Body([], "*:*");
    assert G.ClassBody("\U{A9}]*:*") == G.Body([('\U{A9}', '\U{A9}')], "*:*");
    assert G.ClassBody(p[1..]) == G.Body(i.spans, "*:*");
    G.ParseWild(":*");
    assert G.Parse(p) == [i] + ([G.Star] + G.Parse(":*"));
    assert "[{-\U{C3}\U{A9}]*"[0] == '[' && !UrlSafe('[');
    if G.SIGNED {
      assert G.Rank(i.spans[0].0) <= G.Rank('A') <= G.Rank(i.spans[0].1);
      assert UrlSafe('A') && G.Takes(i, 'A');
      ColonStarCan();
      OneMoreCan(G.Star, G.Parse(":*"), 1);
      OneMoreCan(i, [G.Star] + G.Parse(":*"), 0);
    } else {
      forall c | UrlSafe(c) || c == ':' ensures !G.Takes(i, c) {}
    }
  }

  /** A star hits every key. */
  lemma StarHits(k: Key)
    requires IsId(k.family) && IsId(k.jti)
    ensures Hits("*", k) && !IsId("*")
  {
    assert "*"[0] == '*' && !UrlSafe('*') && '*' in "*";
    HitsTail("*", k);
    var rest := ":" + k.jti;
    assert "*" + ":*" == "*:*" && Tail(k) == k.family + rest && ":*" == ":" + "*";
    assert G.Plain(":") && rest[|":"|..] == k.jti && rest[..1] == ":";
    G.PlainPrefix(":", "*", rest);
    G.StarMatchesAll(k.jti);
    G.ParseWild(":*");
    SkipTo(G.Parse(":*"), k.family, rest);
  }

  lemma {:induction false} SkipTo(items: seq<G.Item>, a: string, s: string)
    requires G.Match(items, s)
    ensures G.Match([G.Star] + items, a + s)
  {
    assert ([G.Star] + items)[1..] == items;
    if a == [] {
      assert a + s == s;
    } else {
      SkipTo(items, a[1..], s);
      assert (a + s)[1..] == a[1..] + s;
    }
  }
}
