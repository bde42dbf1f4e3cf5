/** The few JavaScript string operations the services rely on:
    `trim`, `split(sep)[0]`, `toUpperCase` and substring search. */
module JsStrings {

  /** ECMAScript WhiteSpace and LineTerminator code points, which is what
      `String.prototype.trim` removes. */
  predicate IsWhitespace(c: char) {
    c == '\t' || c == '\n' || c == '\U{000B}' || c == '\U{000C}' || c == '\r' ||
    c == ' ' || c == '\U{00A0}' || c == '\U{1680}' ||
    ('\U{2000}' <= c <= '\U{200A}') ||
    c == '\U{2028}' || c == '\U{2029}' || c == '\U{202F}' || c == '\U{205F}' ||
    c == '\U{3000}' || c == '\U{FEFF}'
  }

  /** `s` neither starts nor ends with whitespace. */
  predicate NoEdgeWhitespace(s: string) {
    s == [] || (!IsWhitespace(s[0]) && !IsWhitespace(s[|s| - 1]))
  }

  /** Every character of `s` is whitespace. */
  predicate AllWhitespace(s: string) {
    forall k :: 0 <= k < |s| ==> IsWhitespace(s[k])
  }

  /** `trimStart`: drop leading whitespace; the result is the suffix of `s`
      left once every leading whitespace character is gone. */
  function TrimStart(s: string): (r: string)
    ensures |r| <= |s| && r == s[|s| - |r|..]
    ensures AllWhitespace(s[..|s| - |r|])
    ensures r == [] || !IsWhitespace(r[0])
    decreases |s|
  {
    if s != [] && IsWhitespace(s[0]) then
      var r := TrimStart(s[1..]);
      assert s[..|s| - |r|] == [s[0]] + s[1..][..|s| - 1 - |r|];
      r
    else s
  }

  /** `trimEnd`: drop trailing whitespace; the result is the prefix of `s`
      left once every trailing whitespace character is gone. */
  function TrimEnd(s: string): (r: string)
    ensures |r| <= |s| && r == s[..|r|]
    ensures AllWhitespace(s[|r|..])
    ensures r == [] || !IsWhitespace(r[|r| - 1])
    decreases |s|
  {
    if s != [] && IsWhitespace(s[|s| - 1]) then
      var r := TrimEnd(s[..|s| - 1]);
      assert s[|r|..] == s[..|s| - 1][|r|..] + [s[|s| - 1]];
      r
    else s
  }

  /** `r` is `s[i..j]` and everything of `s` outside it is whitespace. */
  predicate TrimmedAt(r: string, s: string, i: int, j: int) {
    0 <= i <= j <= |s| && r == s[i..j] && AllWhitespace(s[..i]) && AllWhitespace(s[j..])
  }

  /** `r` is `s` with only whitespace removed at either end, and none left there. */
  predicate IsTrimOf(r: string, s: string) {
    NoEdgeWhitespace(r) && exists i, j :: 0 <= i <= j <= |s| && TrimmedAt(r, s, i, j)
  }

  /** `s.trim()`: `s` with its leading and trailing whitespace removed. */
  function Trim(s: string): (r: string)
    ensures IsTrimOf(r, s)
  {
    var t := TrimStart(s);
    var r := TrimEnd(t);
    var i := |s| - |t|;
    assert r == s[i..i + |r|];
    assert s[i + |r|..] == t[|r|..];
    assert TrimmedAt(r, s, i, i + |r|);
    r
  }

  lemma {:induction false} TrimStartIdentity(s: string)
    requires s == [] || !IsWhitespace(s[0])
    ensures TrimStart(s) == s
  {
  }

  lemma {:induction false} TrimEndIdentity(s: string)
    requires s == [] || !IsWhitespace(s[|s| - 1])
    ensures TrimEnd(s) == s
  {
  }

  /** Trimming a string that has no edge whitespace leaves it unchanged. */
  lemma {:induction false} TrimNoEdgeWhitespace(s: string)
    requires NoEdgeWhitespace(s)
    ensures Trim(s) == s
  {
    TrimStartIdentity(s);
    TrimEndIdentity(s);
  }

  /** `trim` is idempotent. */
  lemma TrimIdempotent(s: string)
    ensures Trim(Trim(s)) == Trim(s)
  {
    TrimNoEdgeWhitespace(Trim(s));
  }

  /** Every character of `Trim(s)` occurs in `s`. */
  lemma TrimCharsFrom(s: string, c: char)
    requires c in Trim(s)
    ensures c in s
  {
    var t := Trim(s);
    var i, j :| 0 <= i <= j <= |s| && TrimmedAt(t, s, i, j);
    var k :| 0 <= k < |t| && t[k] == c;
    assert s[i..j][k] == s[i + k];
  }

  /** `s.split(sep)[0]`: the part of `s` before the first `sep`, or all of `s`. */
  function BeforeFirst(s: string, sep: char): (r: string)
    ensures |r| <= |s| && r == s[..|r|]
    ensures sep !in r
    ensures |r| < |s| ==> s[|r|] == sep
    decreases |s|
  {
    if s == [] then []
    else if s[0] == sep then []
    else [s[0]] + BeforeFirst(s[1..], sep)
  }

  /** A string without `sep` is its own first segment. */
  lemma {:induction false} BeforeFirstNoSeparator(s: string, sep: char)
    requires sep !in s
    ensures BeforeFirst(s, sep) == s
  {
    if s != [] {
      assert sep !in s[1..] by {
        forall k | 0 <= k < |s[1..]| ensures s[1..][k] != sep {
          assert s[1..][k] == s[k + 1];
        }
      }
      BeforeFirstNoSeparator(s[1..], sep);
    }
  }

  /** A string whose first segment is all of it holds no separator. */
  lemma BeforeFirstAll(s: string, sep: char)
    requires |BeforeFirst(s, sep)| == |s|
    ensures forall k :: 0 <= k < |s| ==> s[k] != sep
  {
    assert BeforeFirst(s, sep) == s;
  }

  /** No separator comes before the end of the first segment. */
  lemma BeforeFirstIsFirst(s: string, sep: char, i: int)
    requires 0 <= i < |s| && s[i] == sep
    ensures |BeforeFirst(s, sep)| <= i
  {
  }

  /** The segment before a separator placed after separator-free text is that text. */
  lemma {:induction false} BeforeFirstOfJoin(a: string, sep: char, b: string)
    requires sep !in a
    ensures BeforeFirst(a + [sep] + b, sep) == a
  {
    if a != [] {
      assert (a + [sep] + b)[1..] == a[1..] + [sep] + b;
      BeforeFirstOfJoin(a[1..], sep, b);
    }
  }

  /** ASCII upper-casing of one character. */
  function UpperChar(c: char): char {
    if 'a' <= c <= 'z' then (c as int - 'a' as int + 'A' as int) as char else c
  }

  /** `s.toUpperCase()` restricted to ASCII letters (see README, Left out). */
  function ToUpperAscii(s: string): (r: string)
    ensures |r| == |s|
    ensures forall i :: 0 <= i < |s| ==> r[i] == UpperChar(s[i])
  {
    seq(|s|, i requires 0 <= i < |s| => UpperChar(s[i]))
  }

  /** Upper-casing leaves no lower-case ASCII letter, moves no character
      into or out of the whitespace class, and creates no character `c` that
      is not itself a lower- or upper-case ASCII letter. */
  lemma UpperPreserves(t: string, c: char)
    requires !('A' <= c <= 'Z') && c !in t
    ensures c !in ToUpperAscii(t)
    ensures NoEdgeWhitespace(t) ==> NoEdgeWhitespace(ToUpperAscii(t))
    ensures forall i :: 0 <= i < |t| ==> !('a' <= ToUpperAscii(t)[i] <= 'z')
  {
    var u := ToUpperAscii(t);
    forall i | 0 <= i < |t| ensures u[i] != c && (IsWhitespace(u[i]) <==> IsWhitespace(t[i])) {
      assert u[i] == UpperChar(t[i]);
    }
  }

  /** Upper-casing an upper-cased string changes nothing. */
  lemma UpperIdempotent(s: string)
    ensures ToUpperAscii(ToUpperAscii(s)) == ToUpperAscii(s)
  {
    var u := ToUpperAscii(s);
    forall i | 0 <= i < |s| ensures ToUpperAscii(u)[i] == u[i] {
      assert u[i] == UpperChar(s[i]);
    }
  }

  /** Upper-casing gives the two-letter word `w` exactly for the four
      case-variants of `w`. */
  lemma UpperIsWord(s: string, w: string)
    requires |w| == 2 && 'A' <= w[0] <= 'Z' && 'A' <= w[1] <= 'Z'
    ensures ToUpperAscii(s) == w <==>
      |s| == 2 &&
      (s[0] == w[0] || s[0] == (w[0] as int + 32) as char) &&
      (s[1] == w[1] || s[1] == (w[1] as int + 32) as char)
  {
    if ToUpperAscii(s) == w {
      assert UpperChar(s[0]) == w[0] && UpperChar(s[1]) == w[1];
    }
  }

  /** `t` occurs in `s` starting at index `i`. */
  predicate OccursAt(s: string, t: string, i: int) {
    0 <= i <= |s| - |t| && s[i..i + |t|] == t
  }

  /** `t` occurs in `s` (JavaScript `s.includes(t)`). */
  predicate Contains(s: string, t: string) {
    exists i :: 0 <= i <= |s| && OccursAt(s, t, i)
  }

  /** A piece placed between two strings occurs in the result. */
  lemma ContainsMiddle(a: string, t: string, b: string)
    ensures Contains(a + t + b, t)
  {
    var s := a + t + b;
    assert s[|a|..|a| + |t|] == t;
    assert OccursAt(s, t, |a|);
  }

  /** Occurrence is preserved by adding text on either side. */
  lemma ContainsWidened(a: string, s: string, b: string, t: string)
    requires Contains(s, t)
    ensures Contains(a + s + b, t)
  {
    var i :| 0 <= i <= |s| && OccursAt(s, t, i);
    assert i + |t| <= |s| && s[i..i + |t|] == t;
    var w := a + s + b;
    assert w[|a| + i..|a| + i + |t|] == s[i..i + |t|];
    assert OccursAt(w, t, |a| + i);
  }

  /** What occurs in `s` is no longer than `s`. */
  lemma ContainsShorter(s: string, t: string)
    requires Contains(s, t)
    ensures |t| <= |s|
  {
  }

  /** An occurrence inside an occurrence is an occurrence. */
  lemma ContainsTransitive(s: string, m: string, t: string)
    requires Contains(s, m) && Contains(m, t)
    ensures Contains(s, t)
  {
    var i :| 0 <= i <= |s| && OccursAt(s, m, i);
    var j :| 0 <= j <= |m| && OccursAt(m, t, j);
    assert s[i..i + |m|] == m;
    assert j + |t| <= |m|;
    forall k | 0 <= k < |t| ensures s[i + j..i + j + |t|][k] == t[k] {
      assert s[i + j + k] == s[i..i + |m|][j + k] == m[j + k] == m[j..j + |t|][k];
    }
    assert OccursAt(s, t, i + j);
  }

  /** A template literal: its pieces, in order, as one string. */
  function Join(ps: seq<string>): string {
    if ps == [] then "" else ps[0] + Join(ps[1..])
  }

  /** Every piece of a template literal occurs in it. */
  lemma {:induction false} JoinContainsPiece(ps: seq<string>, k: int)
    requires 0 <= k < |ps|
    ensures Contains(Join(ps), ps[k])
  {
    if k == 0 {
      ContainsMiddle([], ps[0], Join(ps[1..]));
      assert [] + ps[0] + Join(ps[1..]) == Join(ps);
    } else {
      JoinContainsPiece(ps[1..], k - 1);
      ContainsWidened(ps[0], Join(ps[1..]), [], ps[k]);
      assert ps[0] + Join(ps[1..]) + [] == Join(ps);
    }
  }

  /** Adding a last piece adds it at the end. */
  lemma {:induction false} JoinAppend(ps: seq<string>, x: string)
    ensures Join(ps + [x]) == Join(ps) + x
  {
    if ps == [] {
      assert [] + [x] == [x];
      assert Join([x]) == x + Join([]);
    } else {
      assert (ps + [x])[1..] == ps[1..] + [x];
      JoinAppend(ps[1..], x);
    }
  }
}
