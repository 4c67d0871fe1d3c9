/**
 * The string primitives of JavaScript that the source uses: white space and
 * line terminators as ECMAScript defines them, `trim`, `toLowerCase`
 * (restricted to ASCII), `includes` and `length` (which counts UTF-16 code
 * units).
 */
module Text {

  /** ECMAScript LineTerminator: the characters that `.` in a regular expression does not match. */
  predicate IsLineTerminator(c: char) {
    c == '\n' || c == '\r' || c == '\U{2028}' || c == '\U{2029}'
  }

  /**
   * ECMAScript WhiteSpace or LineTerminator: the class `\s`, and what `trim`
   * removes (tab, vertical tab, form feed, space, no-break space, byte order
   * mark and the Unicode space separators).
   */
  predicate IsSpace(c: char) {
    || IsLineTerminator(c)
    || c == '\t' || c == '\U{B}' || c == '\U{C}' || c == ' ' || c == '\U{A0}' || c == '\U{FEFF}'
    || c == '\U{1680}' || ('\U{2000}' <= c <= '\U{200A}')
    || c == '\U{202F}' || c == '\U{205F}' || c == '\U{3000}'
  }

  predicate NoLineBreak(s: string) {
    forall i :: 0 <= i < |s| ==> !IsLineTerminator(s[i])
  }

  predicate AllSpace(s: string) {
    forall i :: 0 <= i < |s| ==> IsSpace(s[i])
  }

  /** ASCII lower-casing of one character. */
  function LowerChar(c: char): (r: char)
    ensures 'A' <= c <= 'Z' ==> r as int == c as int + 32
    ensures !('A' <= c <= 'Z') ==> r == c
  {
    if 'A' <= c <= 'Z' then (c as int + 32) as char else c
  }

  /** `toLowerCase`, restricted to the ASCII letters. */
  function Lower(s: string): (r: string)
    ensures |r| == |s|
    ensures forall i :: 0 <= i < |s| ==> r[i] == LowerChar(s[i])
  {
    seq(|s|, i requires 0 <= i < |s| => LowerChar(s[i]))
  }

  /** Number of UTF-16 code units of `s`: JavaScript's `length`. */
  function Utf16Length(s: string): (n: nat)
    ensures |s| <= n <= 2 * |s|
  {
    if |s| == 0 then 0
    else (if s[0] as int > 0xFFFF then 2 else 1) + Utf16Length(s[1..])
  }

  predicate StartsWith(s: string, w: string) {
    |w| <= |s| && s[..|w|] == w
  }

  /** `s.includes(w)`: the scan that tries every start index in turn. */
  predicate Contains(s: string, w: string) {
    ContainsFrom(s, w, 0)
  }

  /** Some start index `j >= i` has `w` at it. */
  predicate ContainsFrom(s: string, w: string, i: nat)
    decreases |s| - i
  {
    i + |w| <= |s| && (s[i..i + |w|] == w || ContainsFrom(s, w, i + 1))
  }

  /** `w` occurs in `s` starting at index `i`. */
  predicate OccursAt(s: string, w: string, i: int) {
    0 <= i <= |s| - |w| && s[i..i + |w|] == w
  }

  lemma {:induction false} ContainsFromAt(s: string, w: string, i: nat)
    ensures ContainsFrom(s, w, i) <==> exists j :: i <= j && OccursAt(s, w, j)
    decreases |s| - i
  {
    if i + |w| <= |s| {
      ContainsFromAt(s, w, i + 1);
      if s[i..i + |w|] == w {
        assert OccursAt(s, w, i);
      }
      if j :| i <= j && OccursAt(s, w, j) {
        if j > i {
          assert i + 1 <= j;
        }
      }
    }
  }

  /** `s.includes(w)` holds exactly when `w` occurs in `s` at some index. */
  lemma ContainsAt(s: string, w: string)
    ensures Contains(s, w) <==> exists i :: OccursAt(s, w, i)
  {
    ContainsFromAt(s, w, 0);
  }

  /** What `a` contains, `a + b` contains, and so does `c + a`. */
  lemma ContainsWithin(a: string, b: string, c: string, w: string)
    requires Contains(a, w)
    ensures Contains(a + b, w) && Contains(c + a, w)
  {
    ContainsAt(a, w);
    var i :| OccursAt(a, w, i);
    assert (a + b)[i..i + |w|] == a[i..i + |w|];
    assert OccursAt(a + b, w, i);
    ContainsAt(a + b, w);
    assert (c + a)[|c| + i..|c| + i + |w|] == a[i..i + |w|];
    assert OccursAt(c + a, w, |c| + i);
    ContainsAt(c + a, w);
  }

  /** A string contains each of its prefixes. */
  lemma ContainsPrefix(w: string, b: string)
    ensures Contains(w + b, w)
  {
    assert (w + b)[0..|w|] == w;
    assert OccursAt(w + b, w, 0);
    ContainsAt(w + b, w);
  }

  /** Some word of `words` is contained in `s`. */
  predicate ContainsAny(s: string, words: seq<string>)
  {
    exists i :: 0 <= i < |words| && Contains(s, words[i])
  }

  /** `trimStart`: drops the leading spaces. */
  function TrimStart(s: string): string
    decreases |s|
  {
    if |s| > 0 && IsSpace(s[0]) then TrimStart(s[1..]) else s
  }

  /** `trimEnd`: drops the trailing spaces. */
  function TrimEnd(s: string): string
    decreases |s|
  {
    if |s| > 0 && IsSpace(s[|s| - 1]) then TrimEnd(s[..|s| - 1]) else s
  }

  /** `trimStart` keeps a suffix, drops only spaces, and stops at a non-space. */
  lemma {:induction false} TrimStartSuffix(s: string)
    ensures |TrimStart(s)| <= |s| && TrimStart(s) == s[|s| - |TrimStart(s)|..]
    ensures AllSpace(s[..|s| - |TrimStart(s)|])
    ensures |TrimStart(s)| > 0 ==> !IsSpace(TrimStart(s)[0])
    decreases |s|
  {
    if |s| > 0 && IsSpace(s[0]) {
      TrimStartSuffix(s[1..]);
      var n := |s| - |TrimStart(s)|;
      assert s[1..][..n - 1] == s[1..n];
      assert forall i :: 1 <= i < n ==> s[1..n][i - 1] == s[i];
    }
  }

  /** `trimEnd` keeps a prefix, drops only spaces, and stops at a non-space. */
  lemma {:induction false} TrimEndPrefix(s: string)
    ensures |TrimEnd(s)| <= |s| && TrimEnd(s) == s[..|TrimEnd(s)|]
    ensures AllSpace(s[|TrimEnd(s)|..])
    ensures |TrimEnd(s)| > 0 ==> !IsSpace(TrimEnd(s)[|TrimEnd(s)| - 1])
    decreases |s|
  {
    if |s| > 0 && IsSpace(s[|s| - 1]) {
      var t := s[..|s| - 1];
      TrimEndPrefix(t);
      var n := |TrimEnd(s)|;
      assert t[..n] == s[..n];
      assert forall i :: n <= i < |s| - 1 ==> t[n..][i - n] == s[i];
    }
  }

  /** `trim`: `trimStart` then `trimEnd`. */
  function Trim(s: string): (r: string)
    ensures r == [] <==> AllSpace(s)
  {
    TrimEmpty(s);
    TrimEnd(TrimStart(s))
  }

  /** `r` is the infix of `s` at `a`, and only spaces surround it. */
  predicate TrimmedAt(s: string, r: string, a: int) {
    0 <= a <= |s| - |r| && r == s[a..a + |r|] && AllSpace(s[..a]) && AllSpace(s[a + |r|..])
  }

  /**
   * What `trim` returns is an infix of its input that neither starts nor ends
   * with a space, with nothing but spaces around it.
   */
  lemma TrimInfix(s: string)
    ensures TrimmedAt(s, Trim(s), |s| - |TrimStart(s)|)
    ensures |Trim(s)| > 0 ==> !IsSpace(Trim(s)[0]) && !IsSpace(Trim(s)[|Trim(s)| - 1])
  {
    var u := TrimStart(s);
    var a := |s| - |u|;
    TrimStartSuffix(s);
    TrimEndPrefix(u);
    var r := TrimEnd(u);
    assert r == s[a..a + |r|];
    assert u[|r|..] == s[a + |r|..];
  }

  lemma TrimEmpty(s: string)
    ensures TrimEnd(TrimStart(s)) == [] <==> AllSpace(s)
  {
    var u := TrimStart(s);
    TrimStartSuffix(s);
    TrimEndPrefix(u);
    var a := |s| - |u|;
    if TrimEnd(u) == [] {
      assert u == s[a..];
      AllSpaceJoin(s, a);
    }
    if AllSpace(s) {
      TrimStartAllSpace(s);
    }
  }

  lemma {:induction false} TrimStartAllSpace(s: string)
    requires AllSpace(s)
    ensures TrimStart(s) == []
    decreases |s|
  {
    if |s| > 0 {
      TrimStartAllSpace(s[1..]);
    }
  }

  lemma AllSpaceJoin(s: string, a: nat)
    requires a <= |s| && AllSpace(s[..a]) && AllSpace(s[a..])
    ensures AllSpace(s)
  {
    forall i | 0 <= i < |s| ensures IsSpace(s[i]) {
      if i < a { assert s[..a][i] == s[i]; } else { assert s[a..][i - a] == s[i]; }
    }
  }
}
