/**
  The few pieces of Python's str behaviour the pipeline relies on: str.isspace,
  str.lower (ASCII letters only), str.strip, the `in` substring test,
  startswith/endswith, and the code-point order Python uses to compare strings.
 */
module Text {

  /** Python's str.isspace() on one character; str.strip() and `\s` in patterns both use it. */
  predicate IsSpace(c: char) {
    || ('\t' <= c <= '\r')
    || ('\U{1C}' <= c <= '\U{1F}')
    || c == ' ' || c == '\U{85}' || c == '\U{A0}' || c == '\U{1680}'
    || ('\U{2000}' <= c <= '\U{200A}')
    || c == '\U{2028}' || c == '\U{2029}' || c == '\U{202F}' || c == '\U{205F}' || c == '\U{3000}'
  }

  /** `\d` restricted to the ASCII digits. */
  predicate IsDigit(c: char) {
    '0' <= c <= '9'
  }

  ghost predicate AllSpace(s: string) {
    forall i :: 0 <= i < |s| ==> IsSpace(s[i])
  }

  /** No whitespace at either end: what str.strip() leaves behind. */
  predicate Trimmed(s: string) {
    s == "" || (!IsSpace(s[0]) && !IsSpace(s[|s| - 1]))
  }

  // ---------- lower() ----------

  function LowerChar(c: char): char {
    if 'A' <= c <= 'Z' then (c as int - 'A' as int + 'a' as int) as char else c
  }

  function Lower(s: string): (r: string)
    ensures |r| == |s|
  {
    seq(|s|, i requires 0 <= i < |s| => LowerChar(s[i]))
  }

  lemma LowerConcat(a: string, b: string)
    ensures Lower(a + b) == Lower(a) + Lower(b)
  {
    assert forall i :: 0 <= i < |a + b| ==> Lower(a + b)[i] == (Lower(a) + Lower(b))[i];
  }

  lemma LowerIdempotent(s: string)
    ensures Lower(Lower(s)) == Lower(s)
  {
    assert forall i :: 0 <= i < |s| ==> Lower(Lower(s))[i] == Lower(s)[i];
  }

  lemma LowerKeepsSpace(w: string)
    requires AllSpace(w)
    ensures Lower(w) == w
  {
    assert forall i :: 0 <= i < |w| ==> Lower(w)[i] == w[i];
  }

  // ---------- strip() ----------

  function StripLeft(s: string): (r: string)
    ensures |r| <= |s|
    ensures r == "" || !IsSpace(r[0])
    ensures r == s[|s| - |r|..]
  {
    if |s| > 0 && IsSpace(s[0]) then StripLeft(s[1..]) else s
  }

  function StripRight(s: string): (r: string)
    ensures |r| <= |s|
    ensures r == "" || !IsSpace(r[|r| - 1])
    ensures r == s[..|r|]
  {
    if |s| > 0 && IsSpace(s[|s| - 1]) then StripRight(s[..|s| - 1]) else s
  }

  /** str.strip(): remove whitespace at both ends. */
  function Strip(s: string): (r: string)
    ensures Trimmed(r)
    ensures |r| <= |s|
  {
    var l := StripLeft(s);
    var r := StripRight(l);
    assert r != "" ==> r[0] == l[0];
    r
  }

  /** A string with no whitespace at its ends is its own strip(). */
  lemma StripTrimmed(s: string)
    requires Trimmed(s)
    ensures Strip(s) == s
  {
  }

  lemma {:induction false} StripLeftConcat(a: string, b: string)
    ensures StripLeft(a + b) == if AllSpace(a) then StripLeft(b) else StripLeft(a) + b
  {
    if a == [] {
      assert a + b == b;
    } else if IsSpace(a[0]) {
      DropFirstConcat(a, b);
      StripLeftConcat(a[1..], b);
      AllSpaceTail(a);
    } else {
      assert !AllSpace(a);
    }
  }

  lemma DropFirstConcat(a: string, b: string)
    requires a != []
    ensures (a + b)[1..] == a[1..] + b
  {
  }

  lemma DropLastConcat(a: string, b: string)
    requires b != []
    ensures (a + b)[..|a + b| - 1] == a + b[..|b| - 1]
  {
  }

  lemma AllSpaceTail(a: string)
    requires a != [] && IsSpace(a[0])
    ensures AllSpace(a) <==> AllSpace(a[1..])
  {
    if AllSpace(a[1..]) {
      forall i | 0 <= i < |a| ensures IsSpace(a[i]) {
        if i > 0 { assert a[i] == a[1..][i - 1]; }
      }
    }
  }

  lemma AllSpaceInit(b: string)
    requires b != [] && IsSpace(b[|b| - 1])
    ensures AllSpace(b) <==> AllSpace(b[..|b| - 1])
  {
    if AllSpace(b[..|b| - 1]) {
      forall i | 0 <= i < |b| ensures IsSpace(b[i]) {
        if i < |b| - 1 { assert b[i] == b[..|b| - 1][i]; }
      }
    }
  }

  lemma {:induction false} StripRightConcat(a: string, b: string)
    ensures StripRight(a + b) == if AllSpace(b) then StripRight(a) else a + StripRight(b)
  {
    if b == [] {
      assert a + b == a;
    } else if IsSpace(b[|b| - 1]) {
      var b' := b[..|b| - 1];
      DropLastConcat(a, b);
      StripRightConcat(a, b');
      AllSpaceInit(b);
    } else {
      assert !AllSpace(b);
    }
  }

  /** Whitespace added at the outer ends of a string does not survive strip(). */
  lemma StripPadded(w1: string, m: string, w2: string)
    requires AllSpace(w1) && AllSpace(w2)
    ensures Strip(w1 + m + w2) == Strip(m)
  {
    ConcatAssoc(w1, m, w2);
    StripLeading(w1, m + w2);
    StripTrailing(m, w2);
  }

  lemma ConcatAssoc(a: string, b: string, c: string)
    ensures a + b + c == a + (b + c)
  {
  }

  lemma StripLeading(w: string, s: string)
    requires AllSpace(w)
    ensures Strip(w + s) == Strip(s)
  {
    StripLeftSkip(w, s);
  }

  lemma StripTrailing(s: string, w: string)
    requires AllSpace(w)
    ensures Strip(s + w) == Strip(s)
  {
    if AllSpace(s) {
      StripLeftSkip(s, w);
      StripLeftOfSpace(w);
      StripLeftOfSpace(s);
    } else {
      StripLeftKeep(s, w);
      StripRightSkip(StripLeft(s), w);
    }
  }

  lemma StripLeftSkip(a: string, b: string)
    requires AllSpace(a)
    ensures StripLeft(a + b) == StripLeft(b)
  {
    StripLeftConcat(a, b);
  }

  lemma StripLeftKeep(a: string, b: string)
    requires !AllSpace(a)
    ensures StripLeft(a + b) == StripLeft(a) + b
  {
    StripLeftConcat(a, b);
  }

  lemma StripRightSkip(a: string, b: string)
    requires AllSpace(b)
    ensures StripRight(a + b) == StripRight(a)
  {
    StripRightConcat(a, b);
  }

  lemma StripLeftOfSpace(w: string)
    requires AllSpace(w)
    ensures StripLeft(w) == []
  {
    StripLeftSkip(w, []);
    assert w + [] == w;
  }

  // ---------- substrings ----------

  predicate OccursAt(s: string, sub: string, i: int) {
    0 <= i && i + |sub| <= |s| && s[i..i + |sub|] == sub
  }

  /** Python's `sub in s`. */
  predicate Contains(s: string, sub: string) {
    exists i | 0 <= i <= |s| - |sub| :: OccursAt(s, sub, i)
  }

  predicate StartsWith(s: string, prefix: string) {
    prefix <= s
  }

  predicate EndsWith(s: string, suffix: string) {
    |suffix| <= |s| && s[|s| - |suffix|..] == suffix
  }

  /** An occurrence of `sub` inside an occurrence of `outer` is an occurrence in the whole string. */
  lemma OccursWithin(s: string, outer: string, i: int, sub: string, j: int)
    requires OccursAt(s, outer, i) && OccursAt(outer, sub, j)
    ensures OccursAt(s, sub, i + j)
  {
    forall k | 0 <= k < |sub| ensures s[i + j + k] == sub[k] {
      assert sub[k] == outer[j + k] == s[i + j + k];
    }
    assert s[i + j..i + j + |sub|] == sub;
  }

  // ---------- string order ----------

  /** Python's `a <= b` on str: lexicographic by code point, a proper prefix first. */
  predicate StrAtMost(a: string, b: string) {
    if a == [] then true
    else if b == [] then false
    else if a[0] != b[0] then a[0] < b[0]
    else StrAtMost(a[1..], b[1..])
  }

  lemma {:induction false} StrAtMostTotal(a: string, b: string)
    ensures StrAtMost(a, b) || StrAtMost(b, a)
  {
    if a != [] && b != [] && a[0] == b[0] {
      StrAtMostTotal(a[1..], b[1..]);
    }
  }

  lemma {:induction false} StrAtMostAntisymmetric(a: string, b: string)
    requires StrAtMost(a, b) && StrAtMost(b, a)
    ensures a == b
  {
    if a != [] && b != [] {
      StrAtMostAntisymmetric(a[1..], b[1..]);
      assert a == [a[0]] + a[1..] && b == [b[0]] + b[1..];
    }
  }

  lemma {:induction false} StrAtMostTransitive(a: string, b: string, c: string)
    requires StrAtMost(a, b) && StrAtMost(b, c)
    ensures StrAtMost(a, c)
  {
    if a != [] && b != [] && c != [] && a[0] == b[0] == c[0] {
      StrAtMostTransitive(a[1..], b[1..], c[1..]);
    }
  }
}
