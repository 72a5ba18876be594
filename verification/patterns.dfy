/**
 * The regular expressions the chat layer routes on, written out as explicit
 * matchers over strings.
 *
 * All of them carry the `i` flag without the `u` flag, so a lower-case ASCII
 * literal matches the same letters in either case and nothing else; `.`
 * matches every character except a line terminator and `\s` is the
 * whitespace class of `Text.IsSpace`.
 *
 * The session patterns
 *   `(?:load|switch to|open|change to)\s+(?:the\s+)?(.+?)\s+session`
 *   `load\s+(?:the\s+)?(.+?)\s+session`, `switch\s+to\s+(.+)`, `open\s+(.+?)\s+session`
 * share one shape: keyword alternatives, a whitespace gap, an optional
 * `the\s+`, a capture and a tail. `SessionPattern` describes that shape and
 * `MatchSpan` finds the span the capture group receives, trying the
 * alternatives in the order a backtracking matcher tries them.
 */
module Patterns {
  import opened Wrappers
  import opened Text

  // ---------------------------------------------------------------------------
  // Literals, runs and lines
  // ---------------------------------------------------------------------------

  /** The lower-case literal `w` matches `s` at `i` under the `i` flag. */
  predicate MatchesCI(s: string, i: nat, w: string) {
    i + |w| <= |s| && Lower(s[i..i + |w|]) == w
  }

  /** `/w/i.test(s)` for a lower-case literal `w`. */
  predicate ContainsCI(s: string, w: string) {
    Contains(Lower(s), w)
  }

  lemma MatchesCIContains(s: string, i: nat, w: string)
    requires MatchesCI(s, i, w)
    ensures ContainsCI(s, w)
  {
    LowerSlice(s, i, i + |w|);
    ContainsAt(Lower(s), i, w);
  }

  /** No line terminator in `s[i..j]`: `.` can step over all of it. */
  predicate OnOneLine(s: string, i: nat, j: nat)
    requires i <= j <= |s|
  {
    forall k | i <= k < j :: !IsLineTerminator(s[k])
  }

  predicate AllSpace(s: string, i: nat, j: nat)
    requires i <= j <= |s|
  {
    forall k | i <= k < j :: IsSpace(s[k])
  }

  /** The length of the whitespace run at `i`: what a greedy `\s+` or `\s*` takes. */
  function SpaceRun(s: string, i: nat): (n: nat)
    requires i <= |s|
    ensures i + n <= |s| && AllSpace(s, i, i + n)
    ensures i + n == |s| || !IsSpace(s[i + n])
    decreases |s| - i
  {
    if i < |s| && IsSpace(s[i]) then 1 + SpaceRun(s, i + 1) else 0
  }

  /** The length of the run `.` can match at `i`: what a greedy `.+` or `.*` takes. */
  function LineRun(s: string, i: nat): (n: nat)
    requires i <= |s|
    ensures i + n <= |s| && OnOneLine(s, i, i + n)
    ensures i + n == |s| || IsLineTerminator(s[i + n])
    decreases |s| - i
  {
    if i < |s| && !IsLineTerminator(s[i]) then 1 + LineRun(s, i + 1) else 0
  }

  // ---------------------------------------------------------------------------
  // a.*b
  // ---------------------------------------------------------------------------

  /** `b` matches at some `k >= j` with only non-terminators between `j` and `k`. */
  predicate SameLineFrom(s: string, j: nat, b: string)
    requires j <= |s|
    decreases |s| - j
  {
    MatchesCI(s, j, b) || (j < |s| && !IsLineTerminator(s[j]) && SameLineFrom(s, j + 1, b))
  }

  lemma {:induction false} SameLineFromSpec(s: string, j: nat, b: string)
    requires j <= |s|
    ensures SameLineFrom(s, j, b) <==> exists k :: j <= k <= |s| && OnOneLine(s, j, k) && MatchesCI(s, k, b)
    decreases |s| - j
  {
    if j < |s| {
      SameLineFromSpec(s, j + 1, b);
      if exists k :: j <= k <= |s| && OnOneLine(s, j, k) && MatchesCI(s, k, b) {
        var k :| j <= k <= |s| && OnOneLine(s, j, k) && MatchesCI(s, k, b);
        if k > j {
          assert OnOneLine(s, j + 1, k);
        }
      }
    } else {
      if exists k :: j <= k <= |s| && OnOneLine(s, j, k) && MatchesCI(s, k, b) {
        var k :| j <= k <= |s| && OnOneLine(s, j, k) && MatchesCI(s, k, b);
        assert k == j;
      }
    }
  }

  /** `/a.*b/i` matches with its `a` at some position `>= i`. */
  predicate FollowsFrom(s: string, a: string, b: string, i: nat)
    decreases |s| - i
  {
    if i + |a| > |s| then false
    else (MatchesCI(s, i, a) && SameLineFrom(s, i + |a|, b)) || FollowsFrom(s, a, b, i + 1)
  }

  /** `/a.*b/i.test(s)`. */
  predicate Follows(s: string, a: string, b: string) {
    FollowsFrom(s, a, b, 0)
  }

  /** The regular expression's reading: an `a`, then a `b` later on the same line. */
  ghost predicate FollowsAt(s: string, a: string, b: string, i: nat, k: nat) {
    && MatchesCI(s, i, a)
    && i + |a| <= k <= |s|
    && OnOneLine(s, i + |a|, k)
    && MatchesCI(s, k, b)
  }

  lemma FollowsFromSpec(s: string, a: string, b: string, i: nat)
    ensures FollowsFrom(s, a, b, i) <==> exists p: nat, k: nat :: i <= p && FollowsAt(s, a, b, p, k)
  {
    if FollowsFrom(s, a, b, i) {
      FollowsFromSound(s, a, b, i);
    }
    if exists p: nat, k: nat :: i <= p && FollowsAt(s, a, b, p, k) {
      var p: nat, k: nat :| i <= p && FollowsAt(s, a, b, p, k);
      FollowsFromComplete(s, a, b, i, p, k);
    }
  }

  /** A match the scan reports has an `a` and a later `b` on its line. */
  lemma {:induction false} FollowsFromSound(s: string, a: string, b: string, i: nat)
    requires FollowsFrom(s, a, b, i)
    ensures exists p: nat, k: nat :: i <= p && FollowsAt(s, a, b, p, k)
    decreases |s| - i
  {
    if MatchesCI(s, i, a) && SameLineFrom(s, i + |a|, b) {
      SameLineFromSpec(s, i + |a|, b);
      var k :| i + |a| <= k <= |s| && OnOneLine(s, i + |a|, k) && MatchesCI(s, k, b);
      assert FollowsAt(s, a, b, i, k);
    } else {
      FollowsFromSound(s, a, b, i + 1);
      var p: nat, k: nat :| i + 1 <= p && FollowsAt(s, a, b, p, k);
      assert i <= p;
    }
  }

  /** Every `a` at or after `i` with a later `b` on its line is found by the scan from `i`. */
  lemma {:induction false} FollowsFromComplete(s: string, a: string, b: string, i: nat, p: nat, k: nat)
    requires i <= p && FollowsAt(s, a, b, p, k)
    ensures FollowsFrom(s, a, b, i)
    decreases p - i
  {
    if p == i {
      SameLineFromSpec(s, i + |a|, b);
    } else {
      FollowsFromComplete(s, a, b, i + 1, p, k);
    }
  }

  lemma FollowsSpec(s: string, a: string, b: string)
    ensures Follows(s, a, b) <==> exists p: nat, k: nat :: FollowsAt(s, a, b, p, k)
  {
    FollowsFromSpec(s, a, b, 0);
  }

  /** `a` followed on the same line by `b` means both occur. */
  lemma FollowsContainsBoth(s: string, a: string, b: string)
    requires Follows(s, a, b)
    ensures ContainsCI(s, a) && ContainsCI(s, b)
  {
    FollowsSpec(s, a, b);
    var p: nat, k: nat :| FollowsAt(s, a, b, p, k);
    MatchesCIContains(s, p, a);
    MatchesCIContains(s, k, b);
  }

  // ---------------------------------------------------------------------------
  // Session-name capture
  // ---------------------------------------------------------------------------

  /** What follows the capture group: `\s+session`, or the end of the pattern after a greedy `.+`. */
  datatype Tail = LazySession | GreedyLine

  /**
   * `(?:k1|k2|...)\s+(?:the\s+)?(capture)tail`. A keyword is a list of words
   * joined by `\s+`; a word is a lower-case literal (it may contain a plain
   * space, as `switch to` does) whose first character is not whitespace.
   */
  datatype SessionPattern = SessionPattern(keywords: seq<seq<string>>, optionalThe: bool, tail: Tail)

  /** The pattern `handleSessionSwitch` uses. */
  const ServiceSwitch := SessionPattern([["load"], ["switch to"], ["open"], ["change to"]], true, LazySession)
  /** The three patterns the chat window tries in turn. */
  const PanelLoad := SessionPattern([["load"]], true, LazySession)
  const PanelSwitch := SessionPattern([["switch", "to"]], false, GreedyLine)
  const PanelOpen := SessionPattern([["open"]], false, LazySession)

  /**
   * Where a keyword that matches at `p` ends. Between two words the greedy
   * `\s+` takes the whole run; as the next word starts with a non-space
   * character no shorter run could be followed by it.
   */
  function WordsEnd(s: string, p: nat, words: seq<string>): (r: Option<nat>)
    requires p <= |s|
    ensures r.Some? ==> p <= r.value <= |s|
    ensures r.Some? && words != [] ==> MatchesCI(s, p, words[0])
    decreases |words|
  {
    if words == [] then Some(p)
    else if !MatchesCI(s, p, words[0]) then None
    else if |words| == 1 then Some(p + |words[0]|)
    else
      var q := p + |words[0]|;
      var gap := SpaceRun(s, q);
      if gap == 0 then None else WordsEnd(s, q + gap, words[1..])
  }

  /** `base + n, base + n - 1, ..., base + 1`: a greedy quantifier backing off one step at a time. */
  function Descending(base: nat, n: nat): (r: seq<nat>)
    ensures |r| == n
    ensures forall i :: 0 <= i < n ==> r[i] == base + n - i
    decreases n
  {
    if n == 0 then [] else [base + n] + Descending(base, n - 1)
  }

  /** Capture starts once `\s+` has ended at `a`: the `the\s+` branch first (greedy), then the skip. */
  function StartsAt(s: string, a: nat, optionalThe: bool): (r: seq<nat>)
    requires a <= |s|
    ensures |r| >= 1 && r[|r| - 1] == a
    ensures forall i :: 0 <= i < |r| - 1 ==>
              optionalThe && MatchesCI(s, a, "the") && a + 3 < r[i] <= |s| && AllSpace(s, a + 3, r[i])
  {
    if optionalThe && MatchesCI(s, a, "the") then
      var gap := SpaceRun(s, a + 3);
      Descending(a + 3, gap) + [a]
    else
      [a]
  }

  /** The capture starts after a keyword ending at `q`, in the order backtracking tries them. */
  function CaptureStarts(s: string, q: nat, gap: nat, optionalThe: bool): (r: seq<nat>)
    requires q + gap <= |s|
    requires AllSpace(s, q, q + gap)
    ensures forall i :: 0 <= i < |r| ==> ValidStart(s, q, r[i], optionalThe)
    decreases gap
  {
    if gap == 0 then []
    else
      var here := StartsAt(s, q + gap, optionalThe);
      assert forall i :: 0 <= i < |here| ==> ValidStartVia(s, q, q + gap, here[i], optionalThe);
      here + CaptureStarts(s, q, gap - 1, optionalThe)
  }

  /** A capture may start at `c` when the gap ends at `a`: directly, or after `the` and more whitespace. */
  ghost predicate ValidStartVia(s: string, q: nat, a: nat, c: nat, optionalThe: bool) {
    && q < a <= c <= |s|
    && AllSpace(s, q, a)
    && (c == a || (optionalThe && MatchesCI(s, a, "the") && a + 3 < c && AllSpace(s, a + 3, c)))
  }

  ghost predicate ValidStart(s: string, q: nat, c: nat, optionalThe: bool) {
    exists a :: ValidStartVia(s, q, a, c, optionalThe)
  }

  /** `\s+session` right after `e`; only the whole whitespace run can be followed by the `s`. */
  predicate SessionTailAt(s: string, e: nat)
    requires e <= |s|
  {
    var gap := SpaceRun(s, e);
    gap >= 1 && MatchesCI(s, e + gap, "session")
  }

  /** The lazy `(.+?)`: the first end `>= e` on the capture's line that the session tail follows. */
  function LazyEnd(s: string, c: nat, e: nat): (r: Option<nat>)
    requires c < e
    requires e - 1 <= |s| && OnOneLine(s, c, e - 1)
    ensures r.Some? ==> e <= r.value <= |s| && OnOneLine(s, c, r.value) && SessionTailAt(s, r.value)
    ensures r.Some? ==> forall x :: e <= x < r.value ==> !SessionTailAt(s, x)
    ensures r.None? ==> forall x :: e <= x <= |s| && OnOneLine(s, c, x) ==> !SessionTailAt(s, x)
    decreases |s| - e
  {
    if e > |s| || IsLineTerminator(s[e - 1]) then None
    else if SessionTailAt(s, e) then Some(e)
    else LazyEnd(s, c, e + 1)
  }

  /** Where the capture starting at `c` ends, if the rest of the pattern can match. */
  function CaptureEnd(s: string, c: nat, tail: Tail): (r: Option<nat>)
    requires c <= |s|
    ensures r.Some? ==> c < r.value <= |s| && OnOneLine(s, c, r.value)
    ensures r.Some? && tail == LazySession ==> SessionTailAt(s, r.value)
    ensures r.Some? && tail == LazySession ==> forall x :: c < x < r.value ==> !SessionTailAt(s, x)
    ensures r.Some? && tail == GreedyLine ==> r.value == |s| || IsLineTerminator(s[r.value])
    ensures r.None? && tail == GreedyLine ==> c == |s| || IsLineTerminator(s[c])
  {
    match tail
    case LazySession => if c < |s| then LazyEnd(s, c, c + 1) else None
    case GreedyLine =>
      var run := LineRun(s, c);
      if run == 0 then None else Some(c + run)
  }

  /** The first start in `starts` from which the capture can end. */
  function FirstCapture(s: string, starts: seq<nat>, tail: Tail): (r: Option<(nat, nat)>)
    requires forall i :: 0 <= i < |starts| ==> starts[i] <= |s|
    ensures r.Some? ==> r.value.0 in starts && CaptureEnd(s, r.value.0, tail) == Some(r.value.1)
    ensures r.None? ==> forall i :: 0 <= i < |starts| ==> CaptureEnd(s, starts[i], tail).None?
    decreases |starts|
  {
    if starts == [] then None
    else
      var end := CaptureEnd(s, starts[0], tail);
      if end.Some? then Some((starts[0], end.value))
      else FirstCapture(s, starts[1..], tail)
  }

  /** The span captured when the alternatives of `keywords` are tried at `p` in order. */
  function MatchAt(s: string, p: nat, keywords: seq<seq<string>>, pat: SessionPattern): (r: Option<(nat, nat)>)
    requires p <= |s|
    ensures r.Some? ==> p < r.value.0 < r.value.1 <= |s| && OnOneLine(s, r.value.0, r.value.1)
    ensures r.Some? ==> CaptureEnd(s, r.value.0, pat.tail) == Some(r.value.1)
    decreases |keywords|
  {
    if keywords == [] then None
    else
      var first := match WordsEnd(s, p, keywords[0])
                   case None => None
                   case Some(q) => AfterKeyword(s, q, pat);
      if first.Some? then first else MatchAt(s, p, keywords[1..], pat)
  }

  /** The span captured once a keyword has matched and ended at `q`. */
  function AfterKeyword(s: string, q: nat, pat: SessionPattern): (r: Option<(nat, nat)>)
    requires q <= |s|
    ensures r.Some? ==> q < r.value.0 < r.value.1 <= |s| && OnOneLine(s, r.value.0, r.value.1)
    ensures r.Some? ==> CaptureEnd(s, r.value.0, pat.tail) == Some(r.value.1)
  {
    var starts := CaptureStarts(s, q, SpaceRun(s, q), pat.optionalThe);
    ValidStartsAfter(s, q, starts, pat.optionalThe);
    FirstCapture(s, starts, pat.tail)
  }

  lemma ValidStartsAfter(s: string, q: nat, starts: seq<nat>, optionalThe: bool)
    requires forall i :: 0 <= i < |starts| ==> ValidStart(s, q, starts[i], optionalThe)
    ensures forall i :: 0 <= i < |starts| ==> q < starts[i] <= |s|
  {
    forall i | 0 <= i < |starts|
      ensures q < starts[i] <= |s|
    {
      var a :| ValidStartVia(s, q, a, starts[i], optionalThe);
    }
  }

  /** Whether the whole pattern matches at each position `0..|s|`. */
  function Hits(s: string, pat: SessionPattern): (h: seq<bool>)
    ensures |h| == |s| + 1
  {
    seq(|s| + 1, n requires 0 <= n <= |s| => MatchAt(s, n, pat.keywords, pat).Some?)
  }

  /** The first `true` in `h` at or after `p`. */
  function FirstTrue(h: seq<bool>, p: nat): (r: Option<nat>)
    requires p <= |h|
    ensures r.Some? ==> p <= r.value < |h| && h[r.value]
    ensures r.Some? ==> forall n :: p <= n < r.value ==> !h[n]
    ensures r.None? ==> forall n :: p <= n < |h| ==> !h[n]
    decreases |h| - p
  {
    if p == |h| then None
    else if h[p] then Some(p)
    else FirstTrue(h, p + 1)
  }

  /** `String.prototype.match`: the leftmost position `>= p` at which the whole pattern matches. */
  function Search(s: string, p: nat, pat: SessionPattern): (r: Option<nat>)
    requires p <= |s|
    ensures r.Some? ==> p <= r.value <= |s| && MatchAt(s, r.value, pat.keywords, pat).Some?
    ensures r.Some? ==> forall n :: p <= n < r.value ==> !Hits(s, pat)[n]
    ensures r.None? ==> forall n :: p <= n <= |s| ==> !Hits(s, pat)[n]
  {
    FirstTrue(Hits(s, pat), p)
  }

  /** The span of capture group 1, or `None` when `match` returns `null`. */
  function MatchSpan(s: string, pat: SessionPattern): (r: Option<(nat, nat)>)
    ensures r.Some? ==> r.value.0 < r.value.1 <= |s| && OnOneLine(s, r.value.0, r.value.1)
    ensures r.Some? && pat.tail == LazySession ==> SessionTailAt(s, r.value.1)
    ensures r.Some? && pat.tail == GreedyLine ==> r.value.1 == |s| || IsLineTerminator(s[r.value.1])
  {
    match Search(s, 0, pat)
    case None => None
    case Some(m) => MatchAt(s, m, pat.keywords, pat)
  }

  /** `match[1]`: the captured session name. */
  function CapturedName(s: string, pat: SessionPattern): (r: Option<string>)
    ensures r.Some? ==> r.value != []
    ensures r.Some? ==> forall k :: 0 <= k < |r.value| ==> !IsLineTerminator(r.value[k])
  {
    match MatchSpan(s, pat)
    case None => None
    case Some((c, e)) => Some(s[c..e])
  }

  /** The captured name is a piece of the text, and the session tail follows it there. */
  lemma CapturedNameInText(s: string, pat: SessionPattern)
    requires CapturedName(s, pat).Some?
    ensures Contains(s, CapturedName(s, pat).value)
    ensures pat.tail == LazySession ==> exists c :: HasAt(s, c, CapturedName(s, pat).value)
                                                  && SessionTailAt(s, c + |CapturedName(s, pat).value|)
  {
    var (c, e) := MatchSpan(s, pat).value;
    var name := s[c..e];
    assert CapturedName(s, pat).value == name && c + |name| == e;
    assert HasAt(s, c, name);
    ContainsAt(s, c, name);
    if pat.tail == LazySession {
      assert SessionTailAt(s, e);
      assert HasAt(s, c, CapturedName(s, pat).value) && SessionTailAt(s, c + |CapturedName(s, pat).value|);
    }
  }

  /** A lazy pattern needs the word `session` (in any case) in the text. */
  lemma LazyNeedsSession(s: string, pat: SessionPattern)
    requires pat.tail == LazySession
    requires !ContainsCI(s, "session")
    ensures CapturedName(s, pat) == None
  {
    LazyMatchMentionsSession(s, pat);
  }

  lemma LazyMatchMentionsSession(s: string, pat: SessionPattern)
    requires pat.tail == LazySession
    ensures MatchSpan(s, pat).Some? ==> ContainsCI(s, "session")
  {
    if MatchSpan(s, pat).Some? {
      var e := MatchSpan(s, pat).value.1;
      MatchesCIContains(s, e + SpaceRun(s, e), "session");
    }
  }

  /** The lazy capture is the shortest one: no earlier end on its line is followed by the session tail. */
  lemma LazyCaptureIsShortest(s: string, pat: SessionPattern)
    requires pat.tail == LazySession && MatchSpan(s, pat).Some?
    ensures var (c, e) := MatchSpan(s, pat).value;
            forall x :: c < x < e ==> !SessionTailAt(s, x)
  {
  }

  /** A position not followed by whitespace cannot end a lazy capture. */
  lemma NoTailBeforeNonSpace(s: string, x: nat)
    requires x < |s| && !IsSpace(s[x])
    ensures !SessionTailAt(s, x)
  {
  }

  /** A gap followed by a word that does not start with `s` is not the session tail. */
  lemma NoTailBeforeWord(s: string, x: nat)
    requires x + 1 < |s| && !IsSpace(s[x + 1]) && LowerChar(s[x + 1]) != 's'
    ensures !SessionTailAt(s, x)
  {
    if IsSpace(s[x]) {
      assert SpaceRun(s, x + 1) == 0;
      NoSessionAt(s, x + 1);
    }
  }

  /** `session` cannot start at a character other than `s` or `S`. */
  lemma NoSessionAt(s: string, k: nat)
    requires k < |s| && LowerChar(s[k]) != 's'
    ensures !MatchesCI(s, k, "session")
  {
    if k + 7 <= |s| {
      assert Lower(s[k..k + 7])[0] == LowerChar(s[k]);
    }
  }

  /** "Load the BTC 5 Minute session": the `the` is skipped and the name runs up to the last gap. */
  lemma LoadTheExample(s: string)
    requires s == "Load the BTC 5 Minute session"
    ensures CapturedName(s, ServiceSwitch) == Some("BTC 5 Minute")
  {
    LoadTheSpan(s);
    LoadTheName(s);
  }

  lemma LoadTheSpan(s: string)
    requires s == "Load the BTC 5 Minute session"
    ensures CapturedName(s, ServiceSwitch) == Some(s[9..21])
  {
    LoadTheMatch(s);
    assert Search(s, 0, ServiceSwitch) == Some(0);
  }

  lemma LoadTheName(s: string)
    requires s == "Load the BTC 5 Minute session"
    ensures s[9..21] == "BTC 5 Minute"
  {
  }

  lemma LoadTheMatch(s: string)
    requires s == "Load the BTC 5 Minute session"
    ensures MatchAt(s, 0, ServiceSwitch.keywords, ServiceSwitch) == Some((9, 21))
  {
    LoadTheStarts(s);
    LoadTheLazyEnd(s);
    assert CaptureEnd(s, 9, LazySession) == Some(21);
    assert FirstCapture(s, [9, 5], LazySession) == Some((9, 21));
    assert AfterKeyword(s, 4, ServiceSwitch) == Some((9, 21));
  }

  lemma LoadTheStarts(s: string)
    requires s == "Load the BTC 5 Minute session"
    ensures WordsEnd(s, 0, ["load"]) == Some(4)
    ensures CaptureStarts(s, 4, SpaceRun(s, 4), true) == [9, 5]
  {
    LoadTheWord(s);
    LoadTheGaps(s);
    LoadTheArticle(s);
    assert StartsAt(s, 5, true) == Descending(8, 1) + [5];
    assert Descending(8, 1) == [9];
    assert CaptureStarts(s, 4, 0, true) == [];
  }

  lemma LoadTheWord(s: string)
    requires s == "Load the BTC 5 Minute session"
    ensures WordsEnd(s, 0, ["load"]) == Some(4)
  {
    assert s[0..4] == "Load";
  }

  lemma LoadTheGaps(s: string)
    requires s == "Load the BTC 5 Minute session"
    ensures SpaceRun(s, 4) == 1 && SpaceRun(s, 8) == 1
  {
    SingleSpace(s, 4);
    SingleSpace(s, 8);
  }

  /** A space followed by a non-space is a whitespace run of length one. */
  lemma SingleSpace(s: string, i: nat)
    requires i + 1 < |s| && IsSpace(s[i]) && !IsSpace(s[i + 1])
    ensures SpaceRun(s, i) == 1
  {
    assert SpaceRun(s, i + 1) == 0;
  }

  lemma LoadTheArticle(s: string)
    requires s == "Load the BTC 5 Minute session"
    ensures MatchesCI(s, 5, "the")
  {
    assert s[5] == 't' && s[6] == 'h' && s[7] == 'e';
    assert s[5..8] == "the";
    assert Lower(s[5..8]) == Lower("the") == "the";
  }

  lemma LoadTheTail(s: string)
    requires s == "Load the BTC 5 Minute session"
    ensures SessionTailAt(s, 21)
  {
    LoadTheTailGap(s);
    LoadTheSessionWord(s);
  }

  lemma LoadTheTailGap(s: string)
    requires s == "Load the BTC 5 Minute session"
    ensures SpaceRun(s, 21) == 1
  {
    SingleSpace(s, 21);
  }

  lemma LoadTheSessionWord(s: string)
    requires s == "Load the BTC 5 Minute session"
    ensures MatchesCI(s, 22, "session")
  {
    assert s[22..29] == "session";
  }

  /** The lazy scan from `e` stops at the first end the session tail follows. */
  lemma LazyEndReaches(s: string, c: nat, e: nat, v: nat)
    requires c < e <= v <= |s| && OnOneLine(s, c, v)
    requires SessionTailAt(s, v)
    requires forall x :: e <= x < v ==> !SessionTailAt(s, x)
    ensures LazyEnd(s, c, e) == Some(v)
  {
    var r := LazyEnd(s, c, e);
    assert r.Some?;
    assert r.value == v;
  }

  lemma LoadTheLazyEnd(s: string)
    requires s == "Load the BTC 5 Minute session"
    ensures LazyEnd(s, 9, 10) == Some(21)
  {
    LoadTheTail(s);
    assert OnOneLine(s, 9, 21);
    forall x | 10 <= x < 21
      ensures !SessionTailAt(s, x)
    {
      if x == 12 || x == 14 {
        NoTailBeforeWord(s, x);
      } else {
        NoTailBeforeNonSpace(s, x);
      }
    }
    LazyEndReaches(s, 9, 10, 21);
  }

  /** "switch to BTC 5 Minute": the panel's greedy pattern takes the rest of the line. */
  lemma PanelSwitchExample(s: string)
    requires s == "switch to BTC 5 Minute"
    ensures CapturedName(s, PanelSwitch) == Some("BTC 5 Minute")
  {
    PanelSwitchSpan(s);
    PanelSwitchName(s);
  }

  lemma PanelSwitchSpan(s: string)
    requires s == "switch to BTC 5 Minute"
    ensures CapturedName(s, PanelSwitch) == Some(s[10..22])
  {
    PanelSwitchMatch(s);
    assert Search(s, 0, PanelSwitch) == Some(0);
  }

  lemma PanelSwitchName(s: string)
    requires s == "switch to BTC 5 Minute"
    ensures s[10..22] == "BTC 5 Minute"
  {
  }

  lemma PanelSwitchMatch(s: string)
    requires s == "switch to BTC 5 Minute"
    ensures MatchAt(s, 0, PanelSwitch.keywords, PanelSwitch) == Some((10, 22))
  {
    PanelSwitchWords(s);
    PanelSwitchOneLine(s);
    LineRunToEnd(s, 10);
    assert CaptureEnd(s, 10, GreedyLine) == Some(22);
    assert FirstCapture(s, [10], GreedyLine) == Some((10, 22));
    assert AfterKeyword(s, 9, PanelSwitch) == Some((10, 22));
  }

  lemma PanelSwitchOneLine(s: string)
    requires s == "switch to BTC 5 Minute"
    ensures OnOneLine(s, 10, |s|)
  {
  }

  /** With no line terminator left, `.+` runs to the end of the text. */
  lemma {:induction false} LineRunToEnd(s: string, c: nat)
    requires c <= |s| && OnOneLine(s, c, |s|)
    ensures LineRun(s, c) == |s| - c
    decreases |s| - c
  {
    if c < |s| {
      LineRunToEnd(s, c + 1);
    }
  }

  lemma PanelSwitchWords(s: string)
    requires s == "switch to BTC 5 Minute"
    ensures WordsEnd(s, 0, ["switch", "to"]) == Some(9)
    ensures CaptureStarts(s, 9, SpaceRun(s, 9), false) == [10]
  {
    PanelSwitchKeyword(s);
    SingleSpace(s, 6);
    SingleSpace(s, 9);
    assert ["switch", "to"][1..] == ["to"];
  }

  lemma PanelSwitchKeyword(s: string)
    requires s == "switch to BTC 5 Minute"
    ensures MatchesCI(s, 0, "switch") && MatchesCI(s, 7, "to")
  {
    assert s[0..6] == "switch";
    assert s[7..9] == "to";
  }
}
