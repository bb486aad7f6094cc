/** The gateway's compact HS256 tokens, section 7.1 of RFC 7515 (gateway/src/jwt.ts). JSON and HMAC
    are parameters: an encoder, a parser and a tag of any kind, whatever one makes of the other's output. */
module CompactJwt {
  import opened Base64Url
  import opened Strings

  datatype Result<T> = Ok(value: T) | Err(error: Error)

  datatype Error =
    | Malformed
    | InvalidCharacter
    | BadSignature
    | BadJson
    | Expired
    | FutureIssued
    | AudienceMismatch
    | IssuerMismatch

  /** A missing member, or one of another type, is None. */
  datatype Claims = Claims(
    iss: Option<string>, aud: Option<string>, sub: Option<string>, tid: Option<string>, jti: Option<string>,
    iat: Option<real>, exp: Option<real>, reqId: Option<string>)

  datatype Crypto = Crypto(
    header: seq<Byte>,
    encode: Claims -> seq<Byte>,
    parse: seq<Byte> -> Option<Claims>,
    hmac: (string, string) -> seq<Byte>)

  datatype MintArgs = MintArgs(
    secret: string, issuer: string, audience: string, subject: string, tenantId: string,
    ttlSeconds: Option<real>, reqId: Option<string>)

  datatype VerifyArgs = VerifyArgs(
    secret: string, expectedAudience: string, expectedIssuer: Option<string>, leewaySeconds: Option<real>)

  const DEFAULT_TTL := 300.0
  const DEFAULT_LEEWAY := 30.0

  function OrElse(o: Option<real>, d: real): real { if o.Some? then o.value else d }

  function MintedClaims(a: MintArgs, now: int, jti: string): Claims {
    Claims(Some(a.issuer), Some(a.audience), Some(a.subject), Some(a.tenantId), Some(jti), Some(now as real),
           Some(now as real + OrElse(a.ttlSeconds, DEFAULT_TTL)),
           if a.reqId.Some? && a.reqId.value != "" then a.reqId else None)
  }

  function Mint(k: Crypto, a: MintArgs, now: int, jti: string): string {
    var signingInput := Encode(k.header) + "." + Encode(k.encode(MintedClaims(a, now, jti)));
    signingInput + "." + Encode(k.hmac(a.secret, signingInput))
  }

  /** The checks on claims whose signature is good. */
  function Checked(c: Claims, v: VerifyArgs, now: int): (r: Result<Claims>)
    ensures r.Ok? ==> r.value == c
  {
    var leeway := OrElse(v.leewaySeconds, DEFAULT_LEEWAY);
    if c.exp.None? || c.exp.value + leeway < now as real then Err(Expired)
    else if c.iat.None? || c.iat.value - leeway > now as real then Err(FutureIssued)
    else if c.aud != Some(v.expectedAudience) then Err(AudienceMismatch)
    else if v.expectedIssuer.Some? && v.expectedIssuer.value != "" && c.iss != v.expectedIssuer then Err(IssuerMismatch)
    else Ok(c)
  }

  /** The verdict on a signing input, given the decoded signature and payload. */
  function Judged(k: Crypto, signingInput: string, sig: Option<seq<Byte>>, payload: Option<seq<Byte>>, v: VerifyArgs,
                  now: int)
    : Result<Claims>
  {
    if sig.None? then Err(InvalidCharacter)
    else if sig.value != k.hmac(v.secret, signingInput) then Err(BadSignature)
    else if payload.None? then Err(InvalidCharacter)
    else
      match k.parse(payload.value)
      case None => Err(BadJson)
      case Some(claims) => Checked(claims, v, now)
  }

  function Verify(k: Crypto, token: string, v: VerifyArgs, now: int): Result<Claims> {
    var parts := Split(token, '.');
    if |parts| != 3 then Err(Malformed)
    else Judged(k, parts[0] + "." + parts[1], Decode(parts[2]), Decode(parts[1]), v, now)
  }

  // ---------- Splitting into three parts ----------

  predicate ThreeParts(token: string, h: string, p: string, s: string) {
    && token == h + "." + p + "." + s
    && '.' !in h && '.' !in p && '.' !in s
  }

  lemma ThreePartsSplit(token: string, h: string, p: string, s: string)
    requires ThreeParts(token, h, p, s)
    ensures Split(token, '.') == [h, p, s]
  {
    assert token == h + ['.'] + (p + "." + s);
    SplitFirst(h, '.', p + "." + s);
    assert p + "." + s == p + ['.'] + s;
    SplitFirst(p, '.', s);
    SplitWhole(s, '.');
  }

  function Joined(parts: seq<string>, c: char): string
    requires parts != []
  {
    if |parts| == 1 then parts[0] else parts[0] + [c] + Joined(parts[1..], c)
  }

  /** Splitting loses nothing: joining the parts gives the string back. */
  lemma {:induction false} JoinedSplit(s: string, c: char)
    ensures Joined(Split(s, c), c) == s
  {
    if s != [] {
      JoinedSplit(s[1..], c);
      var rest := Split(s[1..], c);
      if s[0] == c {
        assert ([[]] + rest)[1..] == rest;
      } else {
        assert ([[s[0]] + rest[0]] + rest[1..])[1..] == rest[1..];
      }
    }
  }

  lemma SplitIsThreeParts(token: string)
    requires |Split(token, '.')| == 3
    ensures var ps := Split(token, '.'); ThreeParts(token, ps[0], ps[1], ps[2])
  {
    var ps := Split(token, '.');
    JoinedSplit(token, '.');
    PartsAreClean(token, '.');
    assert Joined(ps[2..], '.') == ps[2];
    assert ps[1..][1..] == ps[2..];
    assert ps[0] in ps && ps[1] in ps && ps[2] in ps;
  }

  // ---------- The statements ----------

  /** JSON gives these claims back as they were. A claim that no double holds is not one of them. */
  predicate Survives(k: Crypto, c: Claims) { k.parse(k.encode(c)) == Some(c) }

  /** A minted token has exactly the three parts it was made of. */
  lemma MintHasThreeParts(k: Crypto, a: MintArgs, now: int, jti: string)
    ensures var h, p := Encode(k.header), Encode(k.encode(MintedClaims(a, now, jti)));
            Split(Mint(k, a, now, jti), '.') == [h, p, Encode(k.hmac(a.secret, h + "." + p))]
  {
    var h, p := Encode(k.header), Encode(k.encode(MintedClaims(a, now, jti)));
    var s := Encode(k.hmac(a.secret, h + "." + p));
    EncodingIsUrlSafe(k.header);
    EncodingIsUrlSafe(k.encode(MintedClaims(a, now, jti)));
    EncodingIsUrlSafe(k.hmac(a.secret, h + "." + p));
    ThreePartsSplit(Mint(k, a, now, jti), h, p, s);
  }

  function SigningInput(k: Crypto, a: MintArgs, minted: int, jti: string): string {
    Encode(k.header) + "." + Encode(k.encode(MintedClaims(a, minted, jti)))
  }

  /** What a minted token is judged by: its own input, tag and payload. */
  lemma MintedIsJudged(k: Crypto, a: MintArgs, minted: int, jti: string, v: VerifyArgs, now: int)
    ensures var input := SigningInput(k, a, minted, jti);
            Verify(k, Mint(k, a, minted, jti), v, now)
            == Judged(k, input, Some(k.hmac(a.secret, input)), Some(k.encode(MintedClaims(a, minted, jti))), v, now)
  {
    MintHasThreeParts(k, a, minted, jti);
    RoundTrip(k.encode(MintedClaims(a, minted, jti)));
    RoundTrip(k.hmac(a.secret, SigningInput(k, a, minted, jti)));
  }

  /** The round trip, and exactly when it holds: the minted claims come back if the verifier's secret
      gives the same tag and JSON keeps the claims, from leeway before the token was issued to leeway
      after it expires, for the audience and the issuer it was minted for. */
  lemma MintVerifiesIff(k: Crypto, a: MintArgs, minted: int, jti: string, v: VerifyArgs, now: int)
    ensures var ttl, leeway := OrElse(a.ttlSeconds, 300.0), OrElse(v.leewaySeconds, 30.0);
            var input := SigningInput(k, a, minted, jti);
            Verify(k, Mint(k, a, minted, jti), v, now) == Ok(MintedClaims(a, minted, jti))
            <==> && k.hmac(v.secret, input) == k.hmac(a.secret, input)
                 && Survives(k, MintedClaims(a, minted, jti))
                 && minted as real - leeway <= now as real <= minted as real + ttl + leeway
                 && v.expectedAudience == a.audience
                 && IssuerOk(v, a.issuer)
  {
    var input, claims := SigningInput(k, a, minted, jti), MintedClaims(a, minted, jti);
    MintedIsJudged(k, a, minted, jti, v, now);
    JudgedIff(k, input, Some(k.hmac(a.secret, input)), Some(k.encode(claims)), v, now, claims);
    MintedCheckedIff(a, minted, jti, v, now);
  }

  lemma MintedCheckedIff(a: MintArgs, minted: int, jti: string, v: VerifyArgs, now: int)
    ensures var ttl, leeway := OrElse(a.ttlSeconds, DEFAULT_TTL), OrElse(v.leewaySeconds, DEFAULT_LEEWAY);
            Checked(MintedClaims(a, minted, jti), v, now).Ok?
            <==> && minted as real - leeway <= now as real <= minted as real + ttl + leeway
                 && v.expectedAudience == a.audience
                 && IssuerOk(v, a.issuer)
  {
  }

  /** What an accepted minted token says: who minted it for whom, of which user and tenant, and when. */
  lemma MintedSays(k: Crypto, a: MintArgs, minted: int, jti: string, v: VerifyArgs, now: int)
    requires Survives(k, MintedClaims(a, minted, jti)) && Verify(k, Mint(k, a, minted, jti), v, now).Ok?
    ensures var c := Verify(k, Mint(k, a, minted, jti), v, now).value;
            && c.iss == Some(a.issuer) && c.aud == Some(a.audience) && c.sub == Some(a.subject)
            && c.tid == Some(a.tenantId) && c.jti == Some(jti) && c.iat == Some(minted as real)
            && (a.ttlSeconds.None? ==> c.exp == Some(minted as real + 300.0))
            && (a.ttlSeconds.Some? ==> c.exp == Some(minted as real + a.ttlSeconds.value))
            && c.reqId == if a.reqId == Some("") then None else a.reqId
  {
    MintedGives(k, a, minted, jti, v, now, Verify(k, Mint(k, a, minted, jti), v, now).value);
  }

  lemma MintedGives(k: Crypto, a: MintArgs, minted: int, jti: string, v: VerifyArgs, now: int, c: Claims)
    requires Survives(k, MintedClaims(a, minted, jti)) && Verify(k, Mint(k, a, minted, jti), v, now) == Ok(c)
    ensures c == MintedClaims(a, minted, jti)
  {
    var input, claims := SigningInput(k, a, minted, jti), MintedClaims(a, minted, jti);
    MintedIsJudged(k, a, minted, jti, v, now);
    JudgedIff(k, input, Some(k.hmac(a.secret, input)), Some(k.encode(claims)), v, now, c);
  }

  /** Why a minted token is refused under the secret it was minted with: first for its age, then for being
      of the future, then for its audience, then for its issuer. */
  lemma MintedRefusal(k: Crypto, a: MintArgs, minted: int, jti: string, v: VerifyArgs, now: int)
    requires v.secret == a.secret && Survives(k, MintedClaims(a, minted, jti))
    ensures var ttl, leeway := OrElse(a.ttlSeconds, 300.0), OrElse(v.leewaySeconds, 30.0);
            Verify(k, Mint(k, a, minted, jti), v, now) ==
              if now as real > minted as real + ttl + leeway then Err(Expired)
              else if (now as real) < minted as real - leeway then Err(FutureIssued)
              else if v.expectedAudience != a.audience then Err(AudienceMismatch)
              else if !IssuerOk(v, a.issuer) then Err(IssuerMismatch)
              else Ok(MintedClaims(a, minted, jti))
  {
    MintedVerdict(k, a, minted, jti, v, now);
    MintedChecks(a, minted, jti, v, now);
  }

  lemma MintedVerdict(k: Crypto, a: MintArgs, minted: int, jti: string, v: VerifyArgs, now: int)
    requires v.secret == a.secret && Survives(k, MintedClaims(a, minted, jti))
    ensures Verify(k, Mint(k, a, minted, jti), v, now) == Checked(MintedClaims(a, minted, jti), v, now)
  {
    MintedIsJudged(k, a, minted, jti, v, now);
  }

  lemma MintedChecks(a: MintArgs, minted: int, jti: string, v: VerifyArgs, now: int)
    ensures var ttl, leeway := OrElse(a.ttlSeconds, 300.0), OrElse(v.leewaySeconds, 30.0);
            Checked(MintedClaims(a, minted, jti), v, now) ==
              if now as real > minted as real + ttl + leeway then Err(Expired)
              else if (now as real) < minted as real - leeway then Err(FutureIssued)
              else if v.expectedAudience != a.audience then Err(AudienceMismatch)
              else if !IssuerOk(v, a.issuer) then Err(IssuerMismatch)
              else Ok(MintedClaims(a, minted, jti))
  {
  }

  /** What is asked of the claims of a signed token. */
  predicate Passes(c: Claims, v: VerifyArgs, now: int) {
    var leeway := OrElse(v.leewaySeconds, 30.0);
    && c.exp.Some? && now as real <= c.exp.value + leeway
    && c.iat.Some? && c.iat.value - leeway <= now as real
    && c.aud == Some(v.expectedAudience)
    && (v.expectedIssuer.None? || v.expectedIssuer.value == "" || c.iss == v.expectedIssuer)
  }

  lemma CheckedIff(c: Claims, v: VerifyArgs, now: int)
    ensures Checked(c, v, now).Ok? <==> Passes(c, v, now)
  {
  }

  /** A signed token that does not say when it expires is refused as expired, and one that does not say
      when it was issued as of the future. */
  lemma MissingTimes(k: Crypto, h: string, p: string, s: string, v: VerifyArgs, now: int, c: Claims)
    requires '.' !in h && '.' !in p && '.' !in s && Good(k, h, p, s, v.secret, c)
    ensures c.exp.None? ==> Verify(k, h + "." + p + "." + s, v, now) == Err(Expired)
    ensures c.iat.None? && c.exp.Some? && now as real <= c.exp.value ==>
              OrElse(v.leewaySeconds, 30.0) >= 0.0 ==> Verify(k, h + "." + p + "." + s, v, now) == Err(FutureIssued)
  {
    ThreePartsSplit(h + "." + p + "." + s, h, p, s);
  }

  /** What is refused before any claim is read. */
  lemma UnreadableIff(k: Crypto, token: string, v: VerifyArgs, now: int)
    ensures Verify(k, token, v, now) == Err(Malformed) <==> |Split(token, '.')| != 3
    ensures |Split(token, '.')| == 3 ==>
              var ps := Split(token, '.');
              var tag := k.hmac(v.secret, ps[0] + "." + ps[1]);
              && (Verify(k, token, v, now) == Err(BadSignature) <==> Decode(ps[2]).Some? && Decode(ps[2]).value != tag)
              && (Verify(k, token, v, now) == Err(InvalidCharacter)
                  <==> Decode(ps[2]).None? || (Decode(ps[2]).value == tag && Decode(ps[1]).None?))
              && (Verify(k, token, v, now) == Err(BadJson)
                  <==> Decode(ps[2]) == Some(tag) && Decode(ps[1]).Some? && k.parse(Decode(ps[1]).value).None?)
  {
    var ps := Split(token, '.');
    if |ps| == 3 { UnreadableParts(k, ps[0] + "." + ps[1], Decode(ps[2]), Decode(ps[1]), v, now); }
  }

  lemma UnreadableParts(k: Crypto, input: string, sig: Option<seq<Byte>>, payload: Option<seq<Byte>>, v: VerifyArgs,
                        now: int)
    ensures var r, tag := Judged(k, input, sig, payload, v, now), k.hmac(v.secret, input);
            && r != Err(Malformed)
            && (r == Err(BadSignature) <==> sig.Some? && sig.value != tag)
            && (r == Err(InvalidCharacter) <==> sig.None? || (sig.value == tag && payload.None?))
            && (r == Err(BadJson) <==> sig == Some(tag) && payload.Some? && k.parse(payload.value).None?)
  {
  }

  /** No issuer is expected, or this one is. */
  predicate IssuerOk(v: VerifyArgs, issuer: string) {
    v.expectedIssuer.None? || v.expectedIssuer.value == "" || v.expectedIssuer.value == issuer
  }

  lemma JudgedIff(k: Crypto, input: string, sig: Option<seq<Byte>>, payload: Option<seq<Byte>>, v: VerifyArgs,
                  now: int, c: Claims)
    ensures Judged(k, input, sig, payload, v, now) == Ok(c)
            <==> && sig == Some(k.hmac(v.secret, input)) && payload.Some? && k.parse(payload.value) == Some(c)
                 && Checked(c, v, now).Ok?
    ensures Judged(k, input, sig, payload, v, now).Ok? ==> sig == Some(k.hmac(v.secret, input))
    ensures sig.Some? ==>
              (Judged(k, input, sig, payload, v, now) == Err(BadSignature) <==> sig.value != k.hmac(v.secret, input))
  {
  }

  /** Under another secret the token is refused as badly signed, exactly when the tags differ. */
  lemma OtherSecretIff(k: Crypto, a: MintArgs, minted: int, jti: string, v: VerifyArgs, now: int)
    ensures var input := SigningInput(k, a, minted, jti);
            Verify(k, Mint(k, a, minted, jti), v, now) == Err(BadSignature)
            <==> k.hmac(v.secret, input) != k.hmac(a.secret, input)
  {
    var input, claims := SigningInput(k, a, minted, jti), MintedClaims(a, minted, jti);
    MintedIsJudged(k, a, minted, jti, v, now);
    JudgedIff(k, input, Some(k.hmac(a.secret, input)), Some(k.encode(claims)), v, now, claims);
  }

  /** What a good token is, whoever made it. */
  ghost predicate Good(k: Crypto, h: string, p: string, s: string, secret: string, c: Claims) {
    && Decode(s) == Some(k.hmac(secret, h + "." + p))
    && Decode(p).Some? && k.parse(Decode(p).value) == Some(c)
  }

  lemma VerifyParts(k: Crypto, token: string, h: string, p: string, s: string, v: VerifyArgs, now: int, c: Claims)
    requires Split(token, '.') == [h, p, s]
    ensures Verify(k, token, v, now) == Ok(c) <==> Good(k, h, p, s, v.secret, c) && Checked(c, v, now).Ok?
  {
    JudgedIff(k, h + "." + p, Decode(s), Decode(p), v, now, c);
  }

  ghost predicate SignedToken(k: Crypto, token: string, secret: string, c: Claims) {
    exists h, p, s :: ThreeParts(token, h, p, s) && Good(k, h, p, s, secret, c)
  }

  /** Acceptance, for every string: three dot-free parts, a signature over the first two, a payload
      that reads as the claims, and claims that pass the checks. */
  lemma VerifyIff(k: Crypto, token: string, v: VerifyArgs, now: int, c: Claims)
    ensures Verify(k, token, v, now) == Ok(c) <==> SignedToken(k, token, v.secret, c) && Passes(c, v, now)
  {
    CheckedIff(c, v, now);
    if Verify(k, token, v, now) == Ok(c) {
      SplitIsThreeParts(token);
      var ps := Split(token, '.');
      VerifyParts(k, token, ps[0], ps[1], ps[2], v, now, c);
    } else if SignedToken(k, token, v.secret, c) {
      var h, p, s :| ThreeParts(token, h, p, s) && Good(k, h, p, s, v.secret, c);
      ThreePartsSplit(token, h, p, s);
      VerifyParts(k, token, h, p, s, v, now, c);
    }
  }

  /** Two different pairs of secret and input that share a tag. */
  predicate Collision(k: Crypto, s: string, x: string, t: string, y: string) {
    (s != t || x != y) && k.hmac(s, x) == k.hmac(t, y)
  }

  /** A minted signature vouches for no other header, payload or secret, short of a collision. */
  lemma NoSubstitution(k: Crypto, a: MintArgs, input: string, h: string, p: string, v: VerifyArgs, now: int)
    requires '.' !in h && '.' !in p
    requires Verify(k, h + "." + p + "." + Encode(k.hmac(a.secret, input)), v, now).Ok?
    ensures (h + "." + p == input && v.secret == a.secret) || Collision(k, v.secret, h + "." + p, a.secret, input)
  {
    var tag := k.hmac(a.secret, input);
    EncodingIsUrlSafe(tag);
    var s := Encode(tag);
    ThreePartsSplit(h + "." + p + "." + s, h, p, s);
    SignatureOf(k, h + "." + p + "." + s, h, p, s, v, now);
    RoundTrip(tag);
  }

  lemma SignatureOf(k: Crypto, token: string, h: string, p: string, s: string, v: VerifyArgs, now: int)
    requires Split(token, '.') == [h, p, s] && Verify(k, token, v, now).Ok?
    ensures Decode(s) == Some(k.hmac(v.secret, h + "." + p))
  {
    JudgedIff(k, h + "." + p, Decode(s), Decode(p), v, now, Verify(k, token, v, now).value);
  }
}
