/**
 * String and sequence helpers shared by the chat assistant model.
 *
 * Strings are sequences of Unicode scalar values. Each JavaScript string
 * operation the services rely on is written out here with its JavaScript
 * meaning: `toLowerCase`/`toUpperCase` (ASCII letters only), `trim`,
 * `includes`, `startsWith`, `Array.prototype.slice(start)`, `join`, and the
 * character classes `\s` and `\w` of a JavaScript regular expression without
 * the `u` flag.
 */
module Text {

  // ---------------------------------------------------------------------------
  // Character classes
  // ---------------------------------------------------------------------------

  predicate IsUpper(c: char) { 'A' <= c <= 'Z' }

  predicate IsLowerLetter(c: char) { 'a' <= c <= 'z' }

  predicate IsDigit(c: char) { '0' <= c <= '9' }

  /** The regular-expression class `\w`: ASCII letters, digits and underscore. */
  predicate IsWordChar(c: char) { IsUpper(c) || IsLowerLetter(c) || IsDigit(c) || c == '_' }

  /** The line terminators that `.` in a regular expression does not match. */
  predicate IsLineTerminator(c: char) {
    c == '\n' || c == '\r' || c == '\U{2028}' || c == '\U{2029}'
  }

  /** The regular-expression class `\s`, which is also what `trim` removes. */
  predicate IsSpace(c: char) {
    || IsLineTerminator(c)
    || c == ' ' || c == '\t' || c == '\U{000B}' || c == '\U{000C}'
    || c == '\U{00A0}' || c == '\U{FEFF}' || c == '\U{1680}'
    || ('\U{2000}' <= c <= '\U{200A}')
    || c == '\U{202F}' || c == '\U{205F}' || c == '\U{3000}'
  }

  function LowerChar(c: char): (d: char)
    ensures IsUpper(c) ==> IsLowerLetter(d)
    ensures !IsUpper(c) ==> d == c
  {
    if IsUpper(c) then (c as int + 32) as char else c
  }

  function UpperChar(c: char): (d: char)
    ensures IsLowerLetter(c) ==> IsUpper(d)
    ensures !IsLowerLetter(c) ==> d == c
  {
    if IsLowerLetter(c) then (c as int - 32) as char else c
  }

  /** `toLowerCase`, restricted to the ASCII letters. */
  function Lower(s: string): (r: string)
    ensures |r| == |s|
    ensures forall i :: 0 <= i < |s| ==> r[i] == LowerChar(s[i])
  {
    seq(|s|, i requires 0 <= i < |s| => LowerChar(s[i]))
  }

  /** `toUpperCase`, restricted to the ASCII letters. */
  function Upper(s: string): (r: string)
    ensures |r| == |s|
    ensures forall i :: 0 <= i < |s| ==> r[i] == UpperChar(s[i])
  {
    seq(|s|, i requires 0 <= i < |s| => UpperChar(s[i]))
  }

  lemma LowerIdempotent(s: string)
    ensures Lower(Lower(s)) == Lower(s)
  {
  }

  lemma LowerConcat(a: string, b: string)
    ensures Lower(a + b) == Lower(a) + Lower(b)
  {
  }

  lemma LowerSlice(s: string, i: nat, j: nat)
    requires i <= j <= |s|
    ensures Lower(s[i..j]) == Lower(s)[i..j]
  {
  }

  // ---------------------------------------------------------------------------
  // Occurrences of a word in a string
  // ---------------------------------------------------------------------------

  /** `w` occurs in `s` at position `i`. */
  ghost predicate HasAt(s: string, i: int, w: string) {
    0 <= i && i + |w| <= |s| && s[i..i + |w|] == w
  }

  /** Character-by-character test that `s[i + k..]` starts with `w[k..]`. */
  predicate MatchesAt(s: string, i: nat, w: string, k: nat)
    decreases |w| - k
  {
    if k >= |w| then i + k <= |s|
    else i + k < |s| && s[i + k] == w[k] && MatchesAt(s, i, w, k + 1)
  }

  lemma {:induction false} MatchesAtSpec(s: string, i: nat, w: string, k: nat)
    requires k <= |w|
    ensures MatchesAt(s, i, w, k) <==> (i + |w| <= |s| && s[i + k..i + |w|] == w[k..])
    decreases |w| - k
  {
    if k < |w| {
      MatchesAtSpec(s, i, w, k + 1);
      if i + |w| <= |s| {
        var a, b := s[i + k..i + |w|], w[k..];
        assert a == [s[i + k]] + s[i + k + 1..i + |w|];
        assert b == [w[k]] + w[k + 1..];
        if a == b {
          assert a[0] == b[0] && a[1..] == b[1..];
        }
      }
    }
  }

  lemma MatchesAtHasAt(s: string, i: nat, w: string)
    ensures MatchesAt(s, i, w, 0) <==> HasAt(s, i, w)
  {
    MatchesAtSpec(s, i, w, 0);
  }

  /** `w` occurs in `s` at some position `>= i` (a left-to-right scan). */
  predicate ContainsFrom(s: string, w: string, i: nat)
    decreases |s| - i
  {
    MatchesAt(s, i, w, 0) || (i < |s| && ContainsFrom(s, w, i + 1))
  }

  /** `s.includes(w)`. */
  predicate Contains(s: string, w: string) {
    ContainsFrom(s, w, 0)
  }

  lemma {:induction false} ContainsFromSpec(s: string, w: string, i: nat)
    ensures ContainsFrom(s, w, i) <==> exists j :: i <= j && HasAt(s, j, w)
    decreases |s| - i
  {
    MatchesAtHasAt(s, i, w);
    if i < |s| {
      ContainsFromSpec(s, w, i + 1);
      if exists j :: i <= j && HasAt(s, j, w) {
        var j :| i <= j && HasAt(s, j, w);
        if j > i {
          assert i + 1 <= j;
        }
      }
    } else {
      if exists j :: i <= j && HasAt(s, j, w) {
        var j :| i <= j && HasAt(s, j, w);
        assert |w| == 0 && j == i;
      }
    }
  }

  /** The scan agrees with the declarative reading of `includes`. */
  lemma ContainsSpec(s: string, w: string)
    ensures Contains(s, w) <==> exists j :: HasAt(s, j, w)
  {
    ContainsFromSpec(s, w, 0);
  }

  lemma ContainsAt(s: string, j: int, w: string)
    requires HasAt(s, j, w)
    ensures Contains(s, w)
  {
    ContainsSpec(s, w);
  }

  /** A word with a character that never occurs in `s` does not occur in `s`. */
  lemma AbsentChar(s: string, w: string, k: nat)
    requires k < |w| && forall i :: 0 <= i < |s| ==> s[i] != w[k]
    ensures !Contains(s, w)
  {
    ContainsSpec(s, w);
    forall j | 0 <= j && j + |w| <= |s|
      ensures !HasAt(s, j, w)
    {
      assert s[j..j + |w|][k] == s[j + k];
    }
  }

  /** An occurrence of `v` inside an occurrence of `w` is an occurrence of `v`. */
  lemma ContainsTransitive(s: string, w: string, v: string)
    requires Contains(s, w) && Contains(w, v)
    ensures Contains(s, v)
  {
    ContainsSpec(s, w);
    ContainsSpec(w, v);
    var i :| HasAt(s, i, w);
    var j :| HasAt(w, j, v);
    forall t | 0 <= t < |v|
      ensures s[i + j..i + j + |v|][t] == v[t]
    {
      assert v[t] == w[j + t];
      assert w[j + t] == s[i..i + |w|][j + t];
    }
    assert s[i + j..i + j + |v|] == v;
    ContainsAt(s, i + j, v);
  }

  /** An occurrence in a part is an occurrence in the whole. */
  lemma ContainsInConcat(a: string, b: string, c: string, w: string)
    requires Contains(b, w)
    ensures Contains(a + b + c, w)
  {
    ContainsSpec(b, w);
    var j :| HasAt(b, j, w);
    assert (a + b + c)[|a| + j..|a| + j + |w|] == b[j..j + |w|];
    ContainsAt(a + b + c, |a| + j, w);
  }

  lemma ContainsLeft(a: string, b: string, w: string)
    requires Contains(a, w)
    ensures Contains(a + b, w)
  {
    ContainsInConcat([], a, b, w);
    assert [] + a + b == a + b;
  }

  lemma ContainsRight(a: string, b: string, w: string)
    requires Contains(b, w)
    ensures Contains(a + b, w)
  {
    ContainsInConcat(a, b, [], w);
    assert a + b + [] == a + b;
  }

  /** Regrouping a concatenation, stated on opaque parts so that it stays cheap. */
  lemma AppendAssoc(a: string, b: string, c: string)
    ensures a + b + c == a + (b + c)
  {
  }

  lemma ContainsSelf(s: string)
    ensures Contains(s, s)
  {
    ContainsAt(s, 0, s);
  }

  /** Any occurrence of `w` lies inside `s`: a string shorter than `w` cannot hold it. */
  lemma ContainsLength(s: string, w: string)
    requires Contains(s, w)
    ensures |w| <= |s|
  {
    ContainsSpec(s, w);
  }

  /** Lower-casing a string keeps the (lower-cased) occurrences it had. */
  lemma ContainsLower(s: string, w: string)
    requires Contains(s, w)
    ensures Contains(Lower(s), Lower(w))
  {
    ContainsSpec(s, w);
    var j :| HasAt(s, j, w);
    LowerSlice(s, j, j + |w|);
    ContainsAt(Lower(s), j, Lower(w));
  }

  /** `s.startsWith(w)`. */
  predicate StartsWith(s: string, w: string) {
    MatchesAt(s, 0, w, 0)
  }

  // ---------------------------------------------------------------------------
  // trim
  // ---------------------------------------------------------------------------

  /** The first position at or after `i` that does not hold white space. */
  function SkipSpace(s: string, i: nat): (k: nat)
    requires i <= |s|
    ensures i <= k <= |s|
    ensures forall j :: i <= j < k ==> IsSpace(s[j])
    ensures k == |s| || !IsSpace(s[k])
    decreases |s| - i
  {
    if i < |s| && IsSpace(s[i]) then SkipSpace(s, i + 1) else i
  }

  /** The end of `s[lo..j]` once its trailing white space is dropped. */
  function SkipSpaceBack(s: string, lo: nat, j: nat): (k: nat)
    requires lo <= j <= |s|
    ensures lo <= k <= j
    ensures forall i :: k <= i < j ==> IsSpace(s[i])
    ensures k == lo || !IsSpace(s[k - 1])
    decreases j
  {
    if j > lo && IsSpace(s[j - 1]) then SkipSpaceBack(s, lo, j - 1) else j
  }

  /** `s.trim()`: the part of `s` between its leading and trailing white space. */
  function Trim(s: string): (r: string)
    ensures r == [] || (!IsSpace(r[0]) && !IsSpace(r[|r| - 1]))
    ensures Contains(s, r)
  {
    var a := SkipSpace(s, 0);
    var e := SkipSpaceBack(s, a, |s|);
    ContainsAt(s, a, s[a..e]);
    s[a..e]
  }

  /** An occurrence lying inside `s[lo..hi]` is an occurrence in that slice. */
  lemma HasAtSlice(s: string, lo: nat, hi: nat, j: int, w: string)
    requires lo <= j && j + |w| <= hi <= |s| && HasAt(s, j, w)
    ensures HasAt(s[lo..hi], j - lo, w)
  {
    var t := s[lo..hi];
    forall k | j - lo <= k < j - lo + |w|
      ensures t[k] == s[k + lo]
    {
    }
    assert t[j - lo..j - lo + |w|] == s[j..j + |w|];
  }

  /** Trimming keeps every occurrence of a word that neither starts nor ends with white space. */
  lemma TrimKeepsWord(s: string, w: string)
    requires Contains(s, w) && w != []
    requires !IsSpace(w[0]) && !IsSpace(w[|w| - 1])
    ensures Contains(Trim(s), w)
  {
    ContainsSpec(s, w);
    var j :| HasAt(s, j, w);
    assert s[j..j + |w|][0] == s[j];
    assert s[j..j + |w|][|w| - 1] == s[j + |w| - 1];
    var a := SkipSpace(s, 0);
    var e := SkipSpaceBack(s, a, |s|);
    assert a <= j;
    assert j + |w| <= e;
    HasAtSlice(s, a, e, j, w);
    ContainsAt(s[a..e], j - a, w);
  }

  /** A string is blank (`!s.trim()`) exactly when every character is white space. */
  lemma TrimEmptyIffBlank(s: string)
    ensures Trim(s) == [] <==> forall i :: 0 <= i < |s| ==> IsSpace(s[i])
  {
    var a := SkipSpace(s, 0);
    var e := SkipSpaceBack(s, a, |s|);
    assert |Trim(s)| == e - a;
  }

  // ---------------------------------------------------------------------------
  // slice, join, number rendering
  // ---------------------------------------------------------------------------

  /** The index at which `Array.prototype.slice(start)` begins, for length `n`. */
  function SliceStart(n: nat, start: int): (k: nat)
    ensures k <= n
    ensures start < 0 ==> k == if n + start < 0 then 0 else n + start
    ensures start >= 0 ==> k == if start < n then start else n
  {
    if start < 0 then (if n + start < 0 then 0 else n + start)
    else if start < n then start else n
  }

  /** `s.slice(start)`. */
  function SliceFrom<T>(s: seq<T>, start: int): seq<T> {
    s[SliceStart(|s|, start)..]
  }

  /** `s.slice(-n)` keeps the last `n` entries; `slice(-0)` is `slice(0)` and keeps all. */
  lemma SliceLast<T>(s: seq<T>, n: nat)
    ensures n == 0 ==> SliceFrom(s, -(n as int)) == s
    ensures n > 0 ==> SliceFrom(s, -(n as int)) == s[(if |s| <= n then 0 else |s| - n)..]
    ensures n > 0 ==> |SliceFrom(s, -(n as int))| == if |s| <= n then |s| else n
  {
  }

  /** `parts.join(sep)`. */
  function Join(parts: seq<string>, sep: string): (r: string)
    ensures parts == [] ==> r == ""
    ensures |parts| == 1 ==> r == parts[0]
  {
    if |parts| == 0 then ""
    else if |parts| == 1 then parts[0]
    else parts[0] + sep + Join(parts[1..], sep)
  }

  /** Each part of a join occurs in it. */
  lemma {:induction false} JoinContainsPart(parts: seq<string>, sep: string, k: nat)
    requires k < |parts|
    ensures Contains(Join(parts, sep), parts[k])
  {
    if |parts| == 1 {
      ContainsSelf(parts[0]);
    } else if k == 0 {
      ContainsSelf(parts[0]);
      ContainsInConcat([], parts[0], sep + Join(parts[1..], sep), parts[0]);
      assert [] + parts[0] + (sep + Join(parts[1..], sep)) == Join(parts, sep);
    } else {
      JoinContainsPart(parts[1..], sep, k - 1);
      ContainsInConcat(parts[0] + sep, Join(parts[1..], sep), [], parts[k]);
      assert parts[0] + sep + Join(parts[1..], sep) + [] == Join(parts, sep);
    }
  }

  function DigitChar(d: nat): (c: char)
    requires d < 10
    ensures IsDigit(c)
  {
    ('0' as int + d) as char
  }

  /** The decimal rendering of a natural number, as JavaScript's `String(n)` gives it. */
  function NatToString(n: nat): (r: string)
    ensures |r| >= 1
    ensures forall i :: 0 <= i < |r| ==> IsDigit(r[i])
    ensures |r| > 1 ==> r[0] != '0'
  {
    if n < 10 then [DigitChar(n)] else NatToString(n / 10) + [DigitChar(n % 10)]
  }
}
