/** base64url without padding, section 5 of RFC 4648, as gateway/src/jwt.ts builds it from btoa and
    atob. */
module Base64Url {
  type Byte = b: int | 0 <= b < 256
  type Sextet = v: int | 0 <= v < 64

  datatype Option<+T> = None | Some(value: T)

  /** The standard alphabet of btoa. */
  function StdChar(v: Sextet): char {
    if v < 26 then (v + 'A' as int) as char
    else if v < 52 then (v - 26 + 'a' as int) as char
    else if v < 62 then (v - 52 + '0' as int) as char
    else if v == 62 then '+' else '/'
  }

  function StdValue(c: char): Option<Sextet> {
    if 'A' <= c <= 'Z' then Some(c as int - 'A' as int)
    else if 'a' <= c <= 'z' then Some(c as int - 'a' as int + 26)
    else if '0' <= c <= '9' then Some(c as int - '0' as int + 52)
    else if c == '+' then Some(62)
    else if c == '/' then Some(63)
    else None
  }

  predicate UrlSafe(c: char) {
    'A' <= c <= 'Z' || 'a' <= c <= 'z' || '0' <= c <= '9' || c == '-' || c == '_'
  }

  predicate Space(c: char) { c == ' ' || c == '\t' || c == '\n' || c == '\r' || c as int == 12 }

  // ---------- btoa and atob ----------

  /** The four sextets of three bytes. */
  function S0(a: Byte): Sextet { a / 4 }
  function S1(a: Byte, b: Byte): Sextet { a % 4 * 16 + b / 16 }
  function S2(b: Byte, c: Byte): Sextet { b % 16 * 4 + c / 64 }
  function S3(c: Byte): Sextet { c % 64 }

  function Quad(t: seq<Byte>): (q: seq<Sextet>)
    requires |t| == 3
    ensures |q| == 4
  {
    [S0(t[0]), S1(t[0], t[1]), S2(t[1], t[2]), S3(t[2])]
  }

  /** The sextets of the last one or two bytes, filled up with zero bits. */
  function LastSextets(b: seq<Byte>): seq<Sextet>
    requires |b| < 3
  {
    if b == [] then []
    else if |b| == 1 then [S0(b[0]), S1(b[0], 0)]
    else [S0(b[0]), S1(b[0], b[1]), S2(b[1], 0)]
  }

  function StdChars(vs: seq<Sextet>): (r: string)
    ensures |r| == |vs|
  {
    seq(|vs|, i requires 0 <= i < |vs| => StdChar(vs[i]))
  }

  function Btoa(b: seq<Byte>): string {
    if b == [] then []
    else if |b| == 1 then StdChars(LastSextets(b)) + "=="
    else if |b| == 2 then StdChars(LastSextets(b)) + "="
    else StdChars(Quad(b[..3])) + Btoa(b[3..])
  }

  function Without(s: string, drop: char -> bool): string {
    if s == [] then [] else (if drop(s[0]) then [] else [s[0]]) + Without(s[1..], drop)
  }

  function Values(s: string): Option<seq<Sextet>> {
    if s == [] then Some([])
    else
      match (StdValue(s[0]), Values(s[1..]))
      case (Some(v), Some(vs)) => Some([v] + vs)
      case _ => None
  }

  /** The bytes of a run of sextets; bits left over at the end are dropped. */
  function Bytes(vs: seq<Sextet>): seq<Byte>
    requires |vs| % 4 != 1
  {
    if |vs| < 4 then LastBytes(vs) else Triple(vs[..4]) + Bytes(vs[4..])
  }

  function Triple(q: seq<Sextet>): (t: seq<Byte>)
    requires |q| == 4
    ensures |t| == 3
  {
    [High(q[0], q[1]), Middle(q[1], q[2]), Low(q[2], q[3])]
  }

  function LastBytes(vs: seq<Sextet>): seq<Byte>
    requires |vs| < 4 && |vs| != 1
  {
    if vs == [] then []
    else if |vs| == 2 then [High(vs[0], vs[1])]
    else [High(vs[0], vs[1]), Middle(vs[1], vs[2])]
  }

  /** The three bytes of four sextets. */
  function High(v: int, w: int): Byte
    requires 0 <= v < 64 && 0 <= w < 64
  {
    v * 4 + w / 16
  }

  function Middle(v: int, w: int): Byte
    requires 0 <= v < 64 && 0 <= w < 64
  {
    v % 16 * 16 + w / 4
  }

  function Low(v: int, w: int): Byte
    requires 0 <= v < 64 && 0 <= w < 64
  {
    v % 4 * 64 + w
  }

  /** One or two padding characters come off the end of a string whose length is a multiple of 4. */
  function Unpadded(s: string): string {
    if |s| % 4 != 0 || s == [] || s[|s| - 1] != '=' then s
    else if s[|s| - 2] == '=' then s[..|s| - 2]
    else s[..|s| - 1]
  }

  /** The forgiving decode of the HTML standard; None is InvalidCharacterError. */
  function Atob(s: string): Option<seq<Byte>> {
    var t := Unpadded(Without(s, Space));
    if |t| % 4 == 1 then None
    else
      match Values(t)
      case Some(vs) => ValuesLength(t); Some(Bytes(vs))
      case None => None
  }

  lemma ValuesLength(s: string)
    ensures Values(s).Some? ==> |Values(s).value| == |s|
  {
  }

  // ---------- The gateway's two functions ----------

  function ToUrl(c: char): char { if c == '+' then '-' else if c == '/' then '_' else c }

  function FromUrl(c: char): char { if c == '-' then '+' else if c == '_' then '/' else c }

  function Mapped(s: string, f: char -> char): (r: string)
    ensures |r| == |s|
  {
    seq(|s|, i requires 0 <= i < |s| => f(s[i]))
  }

  /** replace(/=+$/, ""). */
  function Stripped(s: string): string {
    if s != [] && s[|s| - 1] == '=' then Stripped(s[..|s| - 1]) else s
  }

  function Encode(b: seq<Byte>): string { Stripped(Mapped(Btoa(b), ToUrl)) }

  /** "===".slice((s.length + 3) % 4). */
  function Padding(n: nat): (r: string)
    ensures n % 4 == 0 ==> r == ""
    ensures n % 4 == 1 ==> r == "==="
    ensures n % 4 == 2 ==> r == "=="
    ensures n % 4 == 3 ==> r == "="
  {
    var pad, from := "===", (n + 3) % 4;
    assert n % 4 == 0 ==> from == 3;
    assert n % 4 != 0 ==> from == n % 4 - 1;
    pad[from..]
  }

  function Decode(s: string): Option<seq<Byte>> { Atob(Mapped(s, FromUrl) + Padding(|s|)) }

  method B64UrlEncode(bytes: array<Byte>) returns (s: string)
    ensures s == Encode(bytes[..])
  {
    // the loop turns each byte into the character btoa reads back as that byte
    var bin: seq<Byte> := [];
    for i := 0 to bytes.Length
      invariant bin == bytes[..i]
    {
      bin := bin + [bytes[i]];
    }
    assert bytes[..bytes.Length] == bytes[..];
    s := Stripped(Mapped(Btoa(bin), ToUrl));
  }

  method B64UrlDecode(s: string) returns (bytes: Option<array<Byte>>)
    ensures bytes.None? <==> Decode(s).None?
    ensures bytes.Some? ==> fresh(bytes.value) && Decode(s) == Some(bytes.value[..])
  {
    var padded := Mapped(s, FromUrl) + Padding(|s|);
    var bin := Atob(padded);
    if bin.None? {
      return None;
    }
    var out := new Byte[|bin.value|];
    for i := 0 to |bin.value|
      invariant out[..i] == bin.value[..i]
    {
      out[i] := bin.value[i];
    }
    assert bin.value[..|bin.value|] == bin.value;
    assert out[..] == out[..|bin.value|];
    bytes := Some(out);
  }

  // ---------- The alphabet ----------

  function UrlChar(v: Sextet): char { ToUrl(StdChar(v)) }

  function UrlValue(c: char): Option<Sextet> { StdValue(FromUrl(c)) }

  lemma CharsAndValues(v: Sextet, c: char)
    ensures UrlSafe(UrlChar(v)) && UrlValue(UrlChar(v)) == Some(v)
    ensures UrlSafe(c) ==> UrlValue(c).Some? && UrlChar(UrlValue(c).value) == c
    ensures UrlSafe(c) ==> FromUrl(c) != '=' && !Space(FromUrl(c))
    ensures StdChar(v) != '='
  {
  }

  function Chars(vs: seq<Sextet>): (r: string)
    ensures |r| == |vs|
  {
    seq(|vs|, i requires 0 <= i < |vs| => UrlChar(vs[i]))
  }

  predicate AllUrlSafe(s: string) { forall c <- s :: UrlSafe(c) }

  lemma {:induction false} ValuesOfUrl(s: string)
    requires AllUrlSafe(s)
    ensures Values(Mapped(s, FromUrl)).Some? && |Values(Mapped(s, FromUrl)).value| == |s|
    ensures Chars(Values(Mapped(s, FromUrl)).value) == s
  {
    if s != [] {
      var m := Mapped(s, FromUrl);
      assert m[1..] == Mapped(s[1..], FromUrl);
      ValuesOfUrl(s[1..]);
      CharsAndValues(0, s[0]);
      assert s == [s[0]] + s[1..];
    }
  }

  lemma {:induction false} ValuesOfChars(vs: seq<Sextet>)
    ensures AllUrlSafe(Chars(vs)) && Values(Mapped(Chars(vs), FromUrl)) == Some(vs)
  {
    if vs != [] {
      var m := Mapped(Chars(vs), FromUrl);
      assert Chars(vs) == [UrlChar(vs[0])] + Chars(vs[1..]);
      assert m[1..] == Mapped(Chars(vs[1..]), FromUrl);
      ValuesOfChars(vs[1..]);
      CharsAndValues(vs[0], 'A');
      assert vs == [vs[0]] + vs[1..];
    }
  }

  // ---------- Bytes and sextets ----------

  function Sextets(b: seq<Byte>): seq<Sextet> {
    if |b| < 3 then LastSextets(b) else Quad(b[..3]) + Sextets(b[3..])
  }

  /** The bits beyond the last whole byte. */
  predicate NoLeftover(vs: seq<Sextet>) {
    && (|vs| % 4 == 2 ==> vs[|vs| - 1] % 16 == 0)
    && (|vs| % 4 == 3 ==> vs[|vs| - 1] % 4 == 0)
  }

  lemma FirstBack(v: Sextet, w: Sextet)
    ensures S0(High(v, w)) == v
  {
  }

  lemma SecondBack(v: Sextet, w: Sextet, x: Sextet)
    ensures S1(High(v, w), Middle(w, x)) == w
    ensures S1(High(v, w), 0) == w <==> w % 16 == 0
  {
    assert High(v, w) % 4 == w / 16;
    assert Middle(w, x) / 16 == w % 16;
  }

  lemma ThirdBack(w: Sextet, x: Sextet, y: Sextet)
    ensures S2(Middle(w, x), Low(x, y)) == x
    ensures S2(Middle(w, x), 0) == x <==> x % 4 == 0
  {
    assert Middle(w, x) % 16 == x / 4;
    assert Low(x, y) / 64 == x % 4;
  }

  lemma FourthBack(x: Sextet, y: Sextet)
    ensures S3(Low(x, y)) == y
  {
  }

  lemma Ungroup(q: seq<Sextet>)
    requires |q| == 4
    ensures Quad(Triple(q)) == q
  {
    FirstBack(q[0], q[1]);
    SecondBack(q[0], q[1], q[2]);
    ThirdBack(q[1], q[2], q[3]);
    FourthBack(q[2], q[3]);
  }

  lemma HighBack(a: Byte, b: Byte)
    ensures High(S0(a), S1(a, b)) == a && S1(a, 0) % 16 == 0
  {
    assert S1(a, b) / 16 == a % 4;
  }

  lemma MiddleBack(a: Byte, b: Byte, c: Byte)
    ensures Middle(S1(a, b), S2(b, c)) == b && S2(b, 0) % 4 == 0
  {
    assert S1(a, b) % 16 == b / 16;
    assert S2(b, c) / 4 == b % 16;
  }

  lemma LowBack(b: Byte, c: Byte)
    ensures Low(S2(b, c), S3(c)) == c
  {
    assert S2(b, c) % 4 == c / 64;
  }

  lemma Regroup(t: seq<Byte>)
    requires |t| == 3
    ensures Triple(Quad(t)) == t
  {
    HighBack(t[0], t[1]);
    MiddleBack(t[0], t[1], t[2]);
    LowBack(t[1], t[2]);
  }

  lemma LastBack(b: seq<Byte>)
    requires |b| < 3
    ensures var vs := LastSextets(b); |vs| < 4 && |vs| != 1 && LastBytes(vs) == b && NoLeftover(vs)
  {
    if |b| == 1 {
      HighBack(b[0], 0);
    } else if |b| == 2 {
      HighBack(b[0], b[1]);
      MiddleBack(b[0], b[1], 0);
    }
  }

  lemma LastBackIff(vs: seq<Sextet>)
    requires |vs| < 4 && |vs| != 1
    ensures |LastBytes(vs)| < 3 && (LastSextets(LastBytes(vs)) == vs <==> NoLeftover(vs))
  {
    if |vs| == 2 {
      FirstBack(vs[0], vs[1]);
      SecondBack(vs[0], vs[1], 0);
    } else if |vs| == 3 {
      FirstBack(vs[0], vs[1]);
      SecondBack(vs[0], vs[1], vs[2]);
      ThirdBack(vs[1], vs[2], 0);
    }
  }

  lemma BytesStep(q: seq<Sextet>, rest: seq<Sextet>)
    requires |q| == 4 && |rest| % 4 != 1
    ensures |q + rest| % 4 == |rest| % 4
    ensures Bytes(q + rest) == Triple(q) + Bytes(rest)
    ensures NoLeftover(q + rest) <==> NoLeftover(rest)
  {
    assert (q + rest)[..4] == q && (q + rest)[4..] == rest;
    assert rest != [] ==> (q + rest)[|q + rest| - 1] == rest[|rest| - 1];
  }

  lemma SextetsStep(t: seq<Byte>, rest: seq<Byte>)
    requires |t| == 3
    ensures Sextets(t + rest) == Quad(t) + Sextets(rest)
  {
    assert (t + rest)[..3] == t && (t + rest)[3..] == rest;
  }

  lemma {:induction false} BytesOfSextets(b: seq<Byte>)
    ensures |Sextets(b)| % 4 != 1 && Bytes(Sextets(b)) == b && NoLeftover(Sextets(b))
  {
    if |b| < 3 {
      LastBack(b);
    } else {
      BytesOfSextets(b[3..]);
      BytesStep(Quad(b[..3]), Sextets(b[3..]));
      Regroup(b[..3]);
      assert b == b[..3] + b[3..];
    }
  }

  lemma {:induction false} SextetsOfBytes(vs: seq<Sextet>)
    requires |vs| % 4 != 1
    ensures Sextets(Bytes(vs)) == vs <==> NoLeftover(vs)
  {
    if |vs| < 4 {
      LastBackIff(vs);
    } else {
      SextetsOfBytes(vs[4..]);
      assert vs == vs[..4] + vs[4..];
      BytesStep(vs[..4], vs[4..]);
      SextetsStep(Triple(vs[..4]), Bytes(vs[4..]));
      Ungroup(vs[..4]);
      Cancel(vs[..4], Sextets(Bytes(vs[4..])), vs[4..]);
    }
  }

  lemma Cancel(a: seq<Sextet>, b: seq<Sextet>, c: seq<Sextet>)
    ensures a + b == a + c <==> b == c
  {
    assert (a + b)[|a|..] == b && (a + c)[|a|..] == c;
  }

  // ---------- Encoding and decoding as sextets ----------

  lemma {:induction false} StripPrefix(a: string, s: string)
    requires '=' !in a
    ensures Stripped(a + s) == a + Stripped(s)
    decreases |s|
  {
    if s == [] {
      assert a + s == a;
    } else if s[|s| - 1] == '=' {
      assert (a + s)[..|a + s| - 1] == a + s[..|s| - 1];
      StripPrefix(a, s[..|s| - 1]);
    }
  }

  lemma MappedPlus(a: string, b: string, f: char -> char)
    ensures Mapped(a + b, f) == Mapped(a, f) + Mapped(b, f)
  {
  }

  lemma CharsPlus(a: seq<Sextet>, b: seq<Sextet>)
    ensures Chars(a + b) == Chars(a) + Chars(b)
  {
  }

  lemma MappedStd(vs: seq<Sextet>)
    ensures Mapped(StdChars(vs), ToUrl) == Chars(vs) && '=' !in Chars(vs)
  {
    forall i | 0 <= i < |vs| ensures Mapped(StdChars(vs), ToUrl)[i] == Chars(vs)[i] && Chars(vs)[i] != '=' {
      CharsAndValues(vs[i], 'A');
    }
  }

  lemma PaddingStays()
    ensures Mapped("=", ToUrl) == "=" && Mapped("==", ToUrl) == "=="
    ensures Stripped("=") == "" && Stripped("==") == ""
  {
    assert ToUrl('=') == '=' && Mapped("=", ToUrl)[0] == '=';
    assert Mapped("==", ToUrl)[0] == '=' && Mapped("==", ToUrl)[1] == '=';
    assert "="[..0] == "" && "=="[..1] == "=";
    assert Stripped("") == "" && Stripped("=") == "";
  }

  /** The last one or two bytes, with their padding. */
  lemma EncodeLast(vs: seq<Sextet>, pad: string)
    requires pad == "=" || pad == "=="
    ensures Stripped(Mapped(StdChars(vs) + pad, ToUrl)) == Chars(vs)
  {
    PaddingStays();
    MappedStd(vs);
    MappedPlus(StdChars(vs), pad, ToUrl);
    StripPrefix(Chars(vs), pad);
    assert Chars(vs) + "" == Chars(vs);
  }

  lemma {:induction false} EncodeIsChars(b: seq<Byte>)
    ensures Encode(b) == Chars(Sextets(b))
  {
    if b == [] {
    } else if |b| == 1 {
      EncodeLast(LastSextets(b), "==");
    } else if |b| == 2 {
      EncodeLast(LastSextets(b), "=");
    } else {
      var q := Quad(b[..3]);
      EncodeIsChars(b[3..]);
      MappedStd(q);
      MappedPlus(StdChars(q), Btoa(b[3..]), ToUrl);
      CharsPlus(q, Sextets(b[3..]));
      StripPrefix(Chars(q), Mapped(Btoa(b[3..]), ToUrl));
    }
  }

  lemma {:induction false} WithoutNothing(s: string)
    requires forall c <- s :: !Space(c)
    ensures Without(s, Space) == s
  {
    if s != [] { WithoutNothing(s[1..]); }
  }

  lemma {:induction false} ValuesNeedAlphabet(s: string, i: nat)
    requires i < |s| && StdValue(s[i]).None?
    ensures Values(s).None?
  {
    if i > 0 { ValuesNeedAlphabet(s[1..], i - 1); }
  }

  lemma UnpadsTo(m: string)
    requires '=' !in m
    ensures Unpadded(m + Padding(|m|)) == if |m| % 4 == 1 then m + "=" else m
  {
    if |m| % 4 == 1 {
      assert m + "===" == m + "=" + "==";
      UnpadTwo(m + "=");
    } else if |m| % 4 == 2 {
      UnpadTwo(m);
    } else if |m| % 4 == 3 {
      UnpadOne(m);
    } else {
      assert m + "" == m;
    }
  }

  lemma UnpadOne(m: string)
    requires |m| % 4 == 3 && '=' !in m
    ensures Unpadded(m + "=") == m
  {
    var s := m + "=";
    assert |s| % 4 == 0 && s[|s| - 1] == '=' && s[|s| - 2] == m[|m| - 1];
    assert s[..|m|] == m;
  }

  lemma UnpadTwo(m: string)
    requires |m| % 4 == 2
    ensures Unpadded(m + "==") == m
  {
    var s := m + "==";
    assert |s| % 4 == 0 && s[|s| - 1] == '=' && s[|s| - 2] == '=';
    assert s[..|m|] == m;
  }

  /** The text with its padding, before it is unpadded, has no spaces in it. */
  lemma NoSpaces(s: string)
    requires AllUrlSafe(s)
    ensures '=' !in Mapped(s, FromUrl)
    ensures Without(Mapped(s, FromUrl) + Padding(|s|), Space) == Mapped(s, FromUrl) + Padding(|s|)
  {
    var m, pad := Mapped(s, FromUrl), Padding(|s|);
    forall i | 0 <= i < |s| ensures m[i] != '=' && !Space(m[i]) { CharsAndValues(0, s[i]); }
    PaddingIsEquals(|s|);
    WithoutNothing(m + pad);
  }

  lemma PaddingIsEquals(n: nat)
    ensures forall c <- Padding(n) :: c == '='
  {
  }

  /** Decoding url-safe text: its sextets' bytes, unless one sextet is left over. */
  lemma DecodeUrlSafe(s: string)
    requires AllUrlSafe(s)
    ensures if |s| % 4 == 1 then Decode(s).None?
            else Values(Mapped(s, FromUrl)).Some? && |Values(Mapped(s, FromUrl)).value| == |s|
                 && Decode(s) == Some(Bytes(Values(Mapped(s, FromUrl)).value))
  {
    var m := Mapped(s, FromUrl);
    NoSpaces(s);
    UnpadsTo(m);
    if |s| % 4 == 1 {
      OneLeft(m);
    } else {
      ValuesOfUrl(s);
    }
  }

  lemma OneLeft(m: string)
    requires |m| % 4 == 1
    ensures |m + "="| % 4 == 2 && Values(m + "=").None?
  {
    assert (m + "=")[|m|] == '=';
    ValuesNeedAlphabet(m + "=", |m|);
  }

  // ---------- The statements ----------

  /** Decoding an encoding gives the bytes back. */
  lemma RoundTrip(b: seq<Byte>)
    ensures Decode(Encode(b)) == Some(b)
  {
    EncodeIsChars(b);
    ValuesOfChars(Sextets(b));
    BytesOfSextets(b);
    DecodeUrlSafe(Encode(b));
  }

  /** An encoding has only url-safe characters: no padding and no dot. */
  lemma EncodingIsUrlSafe(b: seq<Byte>)
    ensures AllUrlSafe(Encode(b)) && '=' !in Encode(b) && '.' !in Encode(b)
  {
    EncodeIsChars(b);
    ValuesOfChars(Sextets(b));
  }

  /** Url-safe, of a possible length, and with no bits left over. */
  predicate Canonical(s: string) {
    AllUrlSafe(s) && |s| % 4 != 1 && Values(Mapped(s, FromUrl)).Some? && NoLeftover(Values(Mapped(s, FromUrl)).value)
  }

  /** Encoding a decoding gives the text back exactly when the text is canonical. */
  lemma ReencodesIff(s: string, b: seq<Byte>)
    requires Decode(s) == Some(b)
    ensures Encode(b) == s <==> Canonical(s)
  {
    EncodeIsChars(b);
    ValuesOfChars(Sextets(b));
    BytesOfSextets(b);
    if Canonical(s) {
      ValuesOfUrl(s);
      DecodeUrlSafe(s);
      SextetsOfBytes(Values(Mapped(s, FromUrl)).value);
    }
  }

  // ---------- What the texts spell ----------

  /** The alphabet is that of section 5 of RFC 4648: the capitals, the small letters, the digits, the minus
      and the underscore, in that order. */
  lemma AlphabetIs(v: Sextet)
    ensures UrlChar(0) == 'A' && UrlChar(26) == 'a' && UrlChar(52) == '0' && UrlChar(62) == '-' && UrlChar(63) == '_'
    ensures v !in {25, 51, 61, 62, 63} ==> UrlChar(v + 1) as int == UrlChar(v) as int + 1
  {
  }

  /** The numbers that digits of six and of eight bits spell. */
  function Sixes(a: int, b: int, c: int, d: int): int { 262144 * a + 4096 * b + 64 * c + d }

  function Eights(a: int, b: int, c: int): int { 65536 * a + 256 * b + c }

  /** vs spells b as a binary number, most significant first, filled up with zero bits. */
  ghost predicate Spells(vs: seq<Sextet>, b: seq<Byte>) {
    SpellsLast(vs, b, |b| / 3) && forall g: nat :: g < |b| / 3 ==> SpellsThree(vs, b, g)
  }

  predicate SpellsThree(vs: seq<Sextet>, b: seq<Byte>, g: nat) {
    && 4 * g + 4 <= |vs| && 3 * g + 3 <= |b|
    && Sixes(vs[4 * g], vs[4 * g + 1], vs[4 * g + 2], vs[4 * g + 3]) == Eights(b[3 * g], b[3 * g + 1], b[3 * g + 2])
  }

  /** The bytes after n groups of three. */
  predicate SpellsLast(vs: seq<Sextet>, b: seq<Byte>, n: nat) {
    || (|b| == 3 * n && |vs| == 4 * n)
    || (|b| == 3 * n + 1 && |vs| == 4 * n + 2 && Sixes(vs[4 * n], vs[4 * n + 1], 0, 0) == Eights(b[3 * n], 0, 0))
    || (|b| == 3 * n + 2 && |vs| == 4 * n + 3
        && Sixes(vs[4 * n], vs[4 * n + 1], vs[4 * n + 2], 0) == Eights(b[3 * n], b[3 * n + 1], 0))
  }

  lemma QuadSpells(x: Byte, y: Byte, z: Byte)
    ensures Sixes(S0(x), S1(x, y), S2(y, z), S3(z)) == Eights(x, y, z)
  {
  }

  lemma {:induction false} SextetsSpell(b: seq<Byte>)
    ensures Spells(Sextets(b), b)
    decreases |b|
  {
    if |b| < 3 {
      LastSpells(b);
    } else {
      var vs, rest := Sextets(b), Sextets(b[3..]);
      SextetsSpell(b[3..]);
      FirstSpells(vs, rest, b);
      GroupsShift(vs, rest, b);
    }
  }

  lemma LastSpells(b: seq<Byte>)
    requires |b| < 3
    ensures Spells(LastSextets(b), b)
  {
    if b != [] { QuadSpells(b[0], if |b| == 2 then b[1] else 0, 0); }
  }

  lemma FirstSpells(vs: seq<Sextet>, rest: seq<Sextet>, b: seq<Byte>)
    requires |b| >= 3 && vs == Quad(b[..3]) + rest
    ensures SpellsThree(vs, b, 0) && vs[4..] == rest
  {
    QuadSpells(b[0], b[1], b[2]);
    assert vs[..4] == Quad(b[..3]);
  }

  lemma GroupsShift(vs: seq<Sextet>, rest: seq<Sextet>, b: seq<Byte>)
    requires |b| >= 3 && |vs| == |rest| + 4 && vs[4..] == rest && Spells(rest, b[3..]) && SpellsThree(vs, b, 0)
    ensures Spells(vs, b)
  {
    var n := |b[3..]| / 3;
    assert |b| / 3 == n + 1;
    LastShifts(vs, rest, b, n);
    forall g: nat | g < n + 1 ensures SpellsThree(vs, b, g) { if g > 0 { GroupShifts(vs, rest, b, g - 1); } }
  }

  lemma GroupShifts(vs: seq<Sextet>, rest: seq<Sextet>, b: seq<Byte>, g: nat)
    requires |b| >= 3 && |vs| == |rest| + 4 && vs[4..] == rest && SpellsThree(rest, b[3..], g)
    ensures SpellsThree(vs, b, g + 1)
  {
    forall i | 0 <= i < |rest| ensures vs[i + 4] == rest[i] { assert vs[4..][i] == rest[i]; }
    forall i | 0 <= i < |b| - 3 ensures b[i + 3] == b[3..][i] {}
  }

  lemma LastShifts(vs: seq<Sextet>, rest: seq<Sextet>, b: seq<Byte>, n: nat)
    requires |b| >= 3 && |vs| == |rest| + 4 && vs[4..] == rest && SpellsLast(rest, b[3..], n)
    ensures SpellsLast(vs, b, n + 1)
  {
    forall i | 0 <= i < |rest| ensures vs[i + 4] == rest[i] { assert vs[4..][i] == rest[i]; }
    forall i | 0 <= i < |b| - 3 ensures b[i + 3] == b[3..][i] {}
  }

  /** The encoding of b is the text, in that alphabet, that spells b. */
  lemma EncodeSpells(b: seq<Byte>) returns (vs: seq<Sextet>)
    ensures Spells(vs, b) && |Encode(b)| == |vs| && forall i :: 0 <= i < |vs| ==> Encode(b)[i] == UrlChar(vs[i])
  {
    vs := Sextets(b);
    SextetsSpell(b);
    EncodeIsChars(b);
  }

  lemma {:induction false} WithoutKeeps(s: string, i: nat)
    requires i < |s| && !Space(s[i])
    ensures s[i] in Without(s, Space)
  {
    if i > 0 { WithoutKeeps(s[1..], i - 1); }
  }

  /** A text with a character of neither alphabet, no space and no padding, is not decoded. */
  lemma ForeignFails(s: string, i: nat)
    requires i < |s| && !UrlSafe(s[i]) && s[i] !in "+/="
    requires s[i] != ' ' && s[i] != '\t' && s[i] != '\n' && s[i] != '\r' && s[i] as int != 12
    ensures Decode(s).None?
  {
    assert "+/="[0] == '+' && "+/="[1] == '/' && "+/="[2] == '=';
    var padded := Mapped(s, FromUrl) + Padding(|s|);
    assert FromUrl(s[i]) == s[i];
    assert Mapped(s, FromUrl)[i] == s[i];
    assert padded[i] == s[i] && padded[i] != '=';
    WithoutKeeps(padded, i);
    UnpaddedKeeps(Without(padded, Space), s[i]);
    var t := Unpadded(Without(padded, Space));
    var k :| 0 <= k < |t| && t[k] == s[i];
    ValuesNeedAlphabet(t, k);
  }

  /** Blanks, tabs, line feeds, carriage returns and form feeds are dropped wherever they stand. */
  lemma {:induction false} SpacesDropped(a: string, c: char, b: string)
    requires c == ' ' || c == '\t' || c == '\n' || c == '\r' || c as int == 12
    ensures Without(a + [c] + b, Space) == Without(a + b, Space) && Atob(a + [c] + b) == Atob(a + b)
  {
    if a == "" {
      assert a + [c] + b == [c] + b && ([c] + b)[1..] == b && a + b == b;
    } else {
      SpacesDropped(a[1..], c, b);
      assert (a + [c] + b)[1..] == a[1..] + [c] + b && (a + b)[1..] == a[1..] + b;
    }
  }

  lemma UnpaddedKeeps(s: string, c: char)
    requires c in s && c != '='
    ensures c in Unpadded(s)
  {
    var k :| 0 <= k < |s| && s[k] == c;
    var t := Unpadded(s);
    assert k < |t| && t[k] == c;
  }

  /** The standard alphabet's plus and slash decode as the minus and underscore they stand for. */
  lemma StandardToo(s: string)
    ensures Decode(s) == Decode(Mapped(s, ToUrl))
  {
    assert Mapped(Mapped(s, ToUrl), FromUrl) == Mapped(s, FromUrl);
  }
}
