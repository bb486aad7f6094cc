/** The patterns of Redis SCAN: star, question mark, bracketed classes and backslash escapes. Redis sees
    the UTF-8 bytes of a text, so a char here is one byte. */
module Glob {
  /** Whether C's char is signed where Redis is built, as on x86, or not, as on ARM. */
  const SIGNED: bool

  /** A byte as Redis compares it. */
  function Rank(c: char): int {
    var b := c as int;
    if SIGNED && 128 <= b < 256 then b - 256 else b
  }

  /** One unit of a pattern. A class lists its spans, a single character being a span of one. */
  datatype Item = Lit(c: char) | Any | Star | Class(negated: bool, spans: seq<(char, char)>)

  datatype Body = Body(spans: seq<(char, char)>, rest: string)

  /** The inside of a bracket, up to its closing bracket or the end of the pattern. */
  function ClassBody(p: string): (b: Body)
    ensures |b.rest| <= |p|
  {
    if p == "" then Body([], "")
    else if |p| >= 2 && p[0] == '\\' then
      var b := ClassBody(p[2..]);
      Body([(p[1], p[1])] + b.spans, b.rest)
    else if p[0] == ']' then Body([], p[1..])
    else if |p| >= 3 && p[1] == '-' then
      var b := ClassBody(p[3..]);
      Body([if Rank(p[0]) <= Rank(p[2]) then (p[0], p[2]) else (p[2], p[0])] + b.spans, b.rest)
    else
      var b := ClassBody(p[1..]);
      Body([(p[0], p[0])] + b.spans, b.rest)
  }

  function Parse(p: string): seq<Item>
    decreases |p|
  {
    if p == "" then []
    else if p[0] == '*' then [Star] + Parse(p[1..])
    else if p[0] == '?' then [Any] + Parse(p[1..])
    else if p[0] == '[' then
      var negated := |p| >= 2 && p[1] == '^';
      var b := ClassBody(if negated then p[2..] else p[1..]);
      [Class(negated, b.spans)] + Parse(b.rest)
    else if p[0] == '\\' && |p| >= 2 then [Lit(p[1])] + Parse(p[2..])
    else [Lit(p[0])] + Parse(p[1..])
  }

  /** A unit other than a star takes this character. */
  predicate Takes(i: Item, c: char) {
    match i
    case Lit(d) => c == d
    case Any => true
    case Class(negated, spans) =>
      negated != exists k :: 0 <= k < |spans| && Rank(spans[k].0) <= Rank(c) <= Rank(spans[k].1)
    case Star => false
  }

  predicate Match(items: seq<Item>, s: string)
    decreases |items| + |s|
  {
    if items == [] then s == []
    else if items[0].Star? then Match(items[1..], s) || (s != [] && Match(items, s[1..]))
    else s != [] && Takes(items[0], s[0]) && Match(items[1..], s[1..])
  }

  predicate Matches(pattern: string, s: string) { Match(Parse(pattern), s) }

  predicate Special(c: char) { c == '*' || c == '?' || c == '[' || c == '\\' }

  predicate Plain(p: string) { forall c <- p :: !Special(c) }

  /** A plain stretch at the front of a pattern matches itself. */
  lemma {:induction false} PlainPrefix(a: string, p: string, s: string)
    requires Plain(a)
    ensures Matches(a + p, s) <==> a <= s && Matches(p, s[|a|..])
  {
    if a == [] {
      assert a + p == p;
    } else {
      assert (a + p)[1..] == a[1..] + p;
      if s != [] && s[0] == a[0] {
        PlainPrefix(a[1..], p, s[1..]);
        assert a <= s <==> a[1..] <= s[1..];
      }
      ParsePlain(a[0], a[1..] + p);
      assert a + p == [a[0]] + (a[1..] + p);
    }
  }

  lemma ParsePlain(c: char, p: string)
    requires !Special(c)
    ensures Parse([c] + p) == [Lit(c)] + Parse(p)
  {
    assert ([c] + p)[1..] == p;
  }

  lemma ParseWild(p: string)
    ensures Parse("*" + p) == [Star] + Parse(p) && Parse("?" + p) == [Any] + Parse(p)
  {
    assert ("*" + p)[1..] == p && ("?" + p)[1..] == p;
  }

  lemma StarMatchesAll(s: string)
    ensures Matches("*", s)
  {
    assert Parse("*") == [Star] by { assert "*"[1..] == ""; }
    StarTakes(s);
  }

  lemma {:induction false} StarTakes(s: string)
    ensures Match([Star], s)
  {
    if s != [] { StarTakes(s[1..]); }
  }

  // ---------- What each piece of a pattern means ----------

  /** A star stands for any stretch of text. */
  lemma StarIff(p: string, s: string)
    ensures Matches("*" + p, s) <==> exists i :: 0 <= i <= |s| && Matches(p, s[i..])
  {
    ParseWild(p);
    StarSplits(Parse(p), s);
  }

  lemma {:induction false} StarSplits(items: seq<Item>, s: string)
    ensures Match([Star] + items, s) <==> exists i :: 0 <= i <= |s| && Match(items, s[i..])
  {
    assert ([Star] + items)[1..] == items && s[0..] == s;
    if s != [] {
      StarSplits(items, s[1..]);
      if Match([Star] + items, s[1..]) {
        var i :| 0 <= i <= |s[1..]| && Match(items, s[1..][i..]);
        assert s[1..][i..] == s[i + 1..];
      }
      if i :| 0 <= i <= |s| && Match(items, s[i..]) && i > 0 {
        assert s[1..][i - 1..] == s[i..];
      }
    }
  }

  /** A question mark stands for any one character, and an escaped character for itself. */
  lemma OneIff(p: string, c: char, s: string)
    ensures Matches("?" + p, s) <==> s != "" && Matches(p, s[1..])
    ensures Matches("\\" + [c] + p, s) <==> s != "" && s[0] == c && Matches(p, s[1..])
  {
    ParseWild(p);
    assert ([Any] + Parse(p))[1..] == Parse(p);
    var e := "\\" + [c] + p;
    assert e[0] == '\\' && e[1] == c && e[2..] == p;
    assert ([Lit(c)] + Parse(p))[1..] == Parse(p);
  }

  /** A bracketed span of ASCII characters takes the characters within it, from either end; with a caret
      those outside it. */
  lemma SpanIff(a: char, b: char, p: string, s: string)
    requires a as int < 128 && b as int < 128 && a !in "^]\\" && b !in "]\\"
    requires s != "" ==> s[0] as int < 128
    ensures Matches("[" + [a] + "-" + [b] + "]" + p, s)
            <==> s != "" && (a <= s[0] <= b || b <= s[0] <= a) && Matches(p, s[1..])
    ensures Matches("[^" + [a] + "-" + [b] + "]" + p, s)
            <==> s != "" && !(a <= s[0] <= b || b <= s[0] <= a) && Matches(p, s[1..])
  {
    var inside := [a] + "-" + [b] + "]" + p;
    SpanBody(a, b, p);
    var spans := ClassBody(inside).spans;
    assert "[" + [a] + "-" + [b] + "]" + p == "[" + inside && ("[" + inside)[1..] == inside && inside[0] == a;
    assert "[^" + [a] + "-" + [b] + "]" + p == "[^" + inside;
    assert ("[^" + inside)[2..] == inside && ("[^" + inside)[1] == '^';
    assert ('^' in "^]\\") by { assert "^]\\"[0] == '^'; }
    assert Parse("[" + inside) == [Class(false, spans)] + Parse(p);
    assert Parse("[^" + inside) == [Class(true, spans)] + Parse(p);
    assert ([Class(false, spans)] + Parse(p))[1..] == Parse(p) && ([Class(true, spans)] + Parse(p))[1..] == Parse(p);
    if s != "" {
      assert (exists k :: 0 <= k < |spans| && Rank(spans[k].0) <= Rank(s[0]) <= Rank(spans[k].1))
             <==> Rank(spans[0].0) <= Rank(s[0]) <= Rank(spans[0].1);
    }
  }

  lemma SpanBody(a: char, b: char, p: string)
    requires a !in "]\\" && b !in "]\\"
    ensures ClassBody([a] + "-" + [b] + "]" + p) == Body([if Rank(a) <= Rank(b) then (a, b) else (b, a)], p)
  {
    var t := [a] + "-" + [b] + "]" + p;
    assert t[0] == a && t[1] == '-' && t[2] == b && t[3..] == "]" + p && ("]" + p)[0] == ']' && ("]" + p)[1..] == p;
    assert "]\\"[0] == ']' && "]\\"[1] == '\\';
    assert ClassBody("]" + p) == Body([], p);
  }
}
