/**
 * The manifest-URL pattern `(https?:\/\/[^D]+\.m3u8[^D]*)` with the `i` flag,
 * as a hand-written scanner over strings, where D is `\s` together with a
 * set of excluded characters: quotes, angle brackets and backslash in one
 * variant, the same without backslash in the other.
 *
 * How the regular expression behaves, and what `IsMatch` states: a match
 * attempt at position p first fixes the scheme (`https://` if present,
 * otherwise `http://`, compared case-insensitively). The greedy `[^D]+`
 * then runs to the end of the stretch of non-delimiter characters and gives
 * back characters until `.m3u8` follows, and the greedy `[^D]*` runs to the
 * end of that stretch again. So the attempt at p succeeds exactly when the
 * stretch after the scheme holds `.m3u8` at least one character after the
 * scheme, and the match then always ends at the first delimiter (or at the
 * end of the input). The first match is the one with the leftmost start; a
 * global match resumes where the previous match ended.
 */
module Scanner {
  import opened Wrappers
  import opened Text

  /** The file-extension marker of a manifest, in lower case. */
  const Marker := ".m3u8"

  /** `[^"'\s<>\\]`: used by the Playwright extractor and the real-browser server. */
  const StrictExclusions: set<char> := {'"', '\'', '<', '>', '\\'}

  /** `[^"'\s<>]`: used by the Puppeteer extractor and the worker; a backslash may occur in a match. */
  const LenientExclusions: set<char> := {'"', '\'', '<', '>'}

  /** A character that ends a URL: whitespace or an excluded character. */
  predicate Stops(ex: set<char>, c: char)
  {
    c in ex || IsJsSpace(c)
  }

  /** The length of the scheme `https://` or `http://` found at `p`, or 0 when neither is there. */
  function SchemeLength(s: string, p: nat): (n: nat)
    ensures n == 0 || n == 7 || n == 8
    ensures n > 0 ==> p + n <= |s|
  {
    if LowerAt(s, p, "https://") then 8 else if LowerAt(s, p, "http://") then 7 else 0
  }

  /** A match of the pattern starts at `p` and ends at `e` (exclusive). */
  ghost predicate IsMatch(ex: set<char>, s: string, p: nat, e: nat)
  {
    var n := SchemeLength(s, p);
    && n > 0
    && p + n <= e <= |s|
    && (forall i :: p + n <= i < e ==> !Stops(ex, s[i]))
    && (e == |s| || Stops(ex, s[e]))
    && exists k :: p + n < k && k + |Marker| <= e && LowerAt(s, k, Marker)
  }

  /** A matched span of the input. */
  datatype Span = Span(start: nat, end: nat)

  /** A match ends after it starts. */
  lemma MatchIsNonEmpty(ex: set<char>, s: string, p: nat, e: nat)
    requires IsMatch(ex, s, p, e)
    ensures p < e
  {
  }

  /** The first delimiter at or after `i`, or the end of the input. */
  function RunEnd(ex: set<char>, s: string, i: nat): (e: nat)
    requires i <= |s|
    ensures i <= e <= |s|
    ensures forall j :: i <= j < e ==> !Stops(ex, s[j])
    ensures e == |s| || Stops(ex, s[e])
    decreases |s| - i
  {
    if i == |s| || Stops(ex, s[i]) then i else RunEnd(ex, s, i + 1)
  }

  /** Whether `.m3u8` (any case) occurs entirely inside `s[lo..hi]`. */
  function MarkerWithin(s: string, lo: nat, hi: nat): (b: bool)
    requires hi <= |s|
    ensures b <==> exists k :: lo <= k && k + |Marker| <= hi && LowerAt(s, k, Marker)
    decreases hi - lo
  {
    if lo + |Marker| > hi then false
    else LowerAt(s, lo, Marker) || MarkerWithin(s, lo + 1, hi)
  }

  /** The end of the match attempted at `p`, if that attempt succeeds. */
  function MatchEnd(ex: set<char>, s: string, p: nat): Option<nat>
  {
    var n := SchemeLength(s, p);
    if n == 0 then None
    else
      var e := RunEnd(ex, s, p + n);
      if MarkerWithin(s, p + n + 1, e) then Some(e) else None
  }

  /** The attempt at `p` succeeds exactly when a match starts at `p`, and it ends where that match ends. */
  lemma MatchEndCorrect(ex: set<char>, s: string, p: nat)
    ensures forall e: nat :: IsMatch(ex, s, p, e) <==> MatchEnd(ex, s, p) == Some(e)
  {
  }

  /** The leftmost match starting at or after `from`. */
  function FindFrom(ex: set<char>, s: string, from: nat): (r: Option<Span>)
    requires from <= |s|
    ensures r.Some? ==> from <= r.value.start && IsMatch(ex, s, r.value.start, r.value.end)
    ensures r.Some? ==> forall q: nat, e: nat :: from <= q < r.value.start ==> !IsMatch(ex, s, q, e)
    ensures r.None? ==> forall q: nat, e: nat :: from <= q ==> !IsMatch(ex, s, q, e)
    decreases |s| - from
  {
    if from == |s| then None
    else
      MatchEndCorrect(ex, s, from);
      match MatchEnd(ex, s, from)
      case Some(e) => Some(Span(from, e))
      case None => FindFrom(ex, s, from + 1)
  }

  /**
   * `s.match(re)` without the `g` flag, returning `match[0]`: the text of the
   * leftmost match, or `None` when the pattern does not occur.
   */
  function FirstMatch(ex: set<char>, s: string): (r: Option<string>)
    ensures r.None? <==> forall p: nat, e: nat :: !IsMatch(ex, s, p, e)
    ensures r.Some? ==> exists p: nat, e: nat :: IsMatch(ex, s, p, e) && r.value == s[p..e]
                                      && forall q: nat, e': nat :: q < p ==> !IsMatch(ex, s, q, e')
  {
    match FindFrom(ex, s, 0)
    case None => None
    case Some(sp) =>
      assert IsMatch(ex, s, sp.start, sp.end);
      Some(s[sp.start..sp.end])
  }

  /**
   * The spans of `s.match(re)` with the `g` flag, scanning from `from`: each
   * is the leftmost match starting where the previous one ended.
   */
  function SpansFrom(ex: set<char>, s: string, from: nat): (r: seq<Span>)
    requires from <= |s|
    ensures forall sp :: sp in r ==> from <= sp.start && IsMatch(ex, s, sp.start, sp.end)
    ensures forall i, j :: 0 <= i < j < |r| ==> r[i].end <= r[j].start
    ensures r == [] <==> FindFrom(ex, s, from).None?
    ensures r != [] ==> r[0] == FindFrom(ex, s, from).value
    decreases |s| - from
  {
    match FindFrom(ex, s, from)
    case None => []
    case Some(sp) =>
      MatchIsNonEmpty(ex, s, sp.start, sp.end);
      var rest := SpansFrom(ex, s, sp.end);
      [sp] + rest
  }

  /** Position `q` lies inside one of the spans. */
  predicate Covers(r: seq<Span>, q: nat)
  {
    exists i :: 0 <= i < |r| && r[i].start <= q < r[i].end
  }

  /** Every match that starts at or after `from` starts inside one of the spans: no match is skipped. */
  lemma {:induction false} SpansCoverMatches(ex: set<char>, s: string, from: nat, q: nat, e: nat)
    requires from <= |s| && from <= q && IsMatch(ex, s, q, e)
    ensures Covers(SpansFrom(ex, s, from), q)
    decreases |s| - from
  {
    var f := FindFrom(ex, s, from);
    assert f.Some?;
    var sp := f.value;
    MatchIsNonEmpty(ex, s, sp.start, sp.end);
    var rest := SpansFrom(ex, s, sp.end);
    assert SpansFrom(ex, s, from) == [sp] + rest;
    if q < sp.end {
      assert sp.start <= q;
      CoversHead(sp, rest, q);
    } else {
      SpansCoverMatches(ex, s, sp.end, q, e);
      CoversTail(sp, rest, q);
    }
  }

  /** A position inside the first span is covered. */
  lemma CoversHead(sp: Span, rest: seq<Span>, q: nat)
    requires sp.start <= q < sp.end
    ensures Covers([sp] + rest, q)
  {
    assert ([sp] + rest)[0] == sp;
  }

  /** A position covered by the later spans is covered. */
  lemma CoversTail(sp: Span, rest: seq<Span>, q: nat)
    requires Covers(rest, q)
    ensures Covers([sp] + rest, q)
  {
    var i :| 0 <= i < |rest| && rest[i].start <= q < rest[i].end;
    assert ([sp] + rest)[i + 1] == rest[i];
  }

  /** The spans of a global match over the whole input. */
  function AllSpans(ex: set<char>, s: string): seq<Span>
  {
    SpansFrom(ex, s, 0)
  }

  /**
   * `s.match(re)` with the `g` flag (an empty array standing for `null`):
   * the texts of the non-overlapping matches from left to right. Its first
   * element is the first match.
   */
  function AllMatches(ex: set<char>, s: string): (r: seq<string>)
    ensures |r| == |AllSpans(ex, s)|
    ensures forall i :: 0 <= i < |r| ==>
              IsMatch(ex, s, AllSpans(ex, s)[i].start, AllSpans(ex, s)[i].end) &&
              r[i] == s[AllSpans(ex, s)[i].start..AllSpans(ex, s)[i].end]
    ensures r == [] <==> FirstMatch(ex, s).None?
    ensures r != [] ==> r[0] == FirstMatch(ex, s).value
  {
    var spans := AllSpans(ex, s);
    seq(|spans|, i requires 0 <= i < |spans| => s[spans[i].start..spans[i].end])
  }

  /**
   * `matches ? matches[0] : null` after a global match: the head of the
   * global match is the match found without the `g` flag.
   */
  function GlobalHead(ex: set<char>, s: string): (r: Option<string>)
    ensures r == FirstMatch(ex, s)
  {
    var matches := AllMatches(ex, s);
    if matches == [] then None else Some(matches[0])
  }

  /** The characters of the scheme are never delimiters, whichever excluded set is used. */
  lemma SchemeDoesNotStop(ex: set<char>, s: string, p: nat)
    requires ex <= StrictExclusions && SchemeLength(s, p) > 0
    ensures forall i :: p <= i < p + SchemeLength(s, p) ==> !Stops(ex, s[i])
  {
    var lit := if SchemeLength(s, p) == 8 then "https://" else "http://";
    assert LowerAt(s, p, lit);
    forall i | p <= i < p + |lit|
      ensures !Stops(ex, s[i])
    {
      assert Lower(s[p + (i - p)]) == lit[i - p];
    }
  }

  /**
   * What every match looks like: a substring of the input that starts with
   * `http://` or `https://` and contains `.m3u8` (both in any case), holds no
   * delimiter, and ends at a delimiter or at the end of the input.
   */
  lemma MatchShape(ex: set<char>, s: string, p: nat, e: nat)
    requires ex <= StrictExclusions && IsMatch(ex, s, p, e)
    ensures p < e <= |s|
    ensures LowerAt(s[p..e], 0, "https://") || LowerAt(s[p..e], 0, "http://")
    ensures exists k: nat :: LowerAt(s[p..e], k, Marker)
    ensures forall i :: 0 <= i < e - p ==> !Stops(ex, s[p..e][i])
    ensures e == |s| || Stops(ex, s[e])
  {
    var m := s[p..e];
    var n := SchemeLength(s, p);
    SchemeDoesNotStop(ex, s, p);
    var k :| p + n < k && k + |Marker| <= e && LowerAt(s, k, Marker);
    assert LowerAt(m, k - p, Marker) by {
      forall i | 0 <= i < |Marker| ensures Lower(m[k - p + i]) == Marker[i] {
        assert m[k - p + i] == s[k + i];
      }
    }
    if n == 8 {
      assert LowerAt(s, p, "https://");
      forall i | 0 <= i < 8 ensures Lower(m[i]) == "https://"[i] {
        assert m[i] == s[p + i];
      }
    } else {
      assert LowerAt(s, p, "http://");
      forall i | 0 <= i < 7 ensures Lower(m[i]) == "http://"[i] {
        assert m[i] == s[p + i];
      }
    }
  }

  /**
   * A well-formed manifest URL framed by delimiters (quotes, angle brackets,
   * whitespace) is found exactly, without the framing characters, when the
   * text before it holds no match, whatever follows it.
   */
  lemma FramedUrlIsFound(ex: set<char>, pre: string, u: string, left: char, right: char, post: string)
    requires ex <= StrictExclusions && IsMatch(ex, u, 0, |u|)
    requires Stops(ex, left) && Stops(ex, right)
    requires FirstMatch(ex, pre) == None
    ensures FirstMatch(ex, pre + [left] + u + [right] + post) == Some(u)
  {
    var s := pre + [left] + u + [right] + post;
    var at := |pre| + 1;
    FramedMatch(ex, pre, u, left, right, post);
    NoMatchBefore(ex, pre, u, left, right, post);
    FramedSlice(pre, u, left, right, post);
    FirstMatchAt(ex, s, at, at + |u|, u);
  }

  /** The URL is the text between the delimiters. */
  lemma FramedSlice(pre: string, u: string, left: char, right: char, post: string)
    ensures (pre + [left] + u + [right] + post)[|pre| + 1..|pre| + 1 + |u|] == u
  {
    var s := pre + [left] + u + [right] + post;
    forall i | 0 <= i < |u|
      ensures s[|pre| + 1..|pre| + 1 + |u|][i] == u[i]
    {
      assert s[|pre| + 1 + i] == u[i];
    }
  }

  /** The leftmost match is the first match. */
  lemma FirstMatchAt(ex: set<char>, s: string, p: nat, e: nat, m: string)
    requires IsMatch(ex, s, p, e) && s[p..e] == m
    requires forall q: nat, e': nat :: q < p ==> !IsMatch(ex, s, q, e')
    ensures FirstMatch(ex, s) == Some(m)
  {
    var r := FirstMatch(ex, s);
    var p': nat, e': nat :| IsMatch(ex, s, p', e') && r.value == s[p'..e'] && forall q: nat, e'': nat :: q < p' ==> !IsMatch(ex, s, q, e'');
    assert p' == p;
    MatchEndCorrect(ex, s, p);
  }

  /** When the text before the left delimiter holds no match, no match starts before the URL. */
  lemma NoMatchBefore(ex: set<char>, pre: string, u: string, left: char, right: char, post: string)
    requires ex <= StrictExclusions && Stops(ex, left)
    requires SchemeLength(pre + [left] + u + [right] + post, |pre|) == 0
    requires FirstMatch(ex, pre) == None
    ensures forall q: nat, e: nat :: q < |pre| + 1 ==> !IsMatch(ex, pre + [left] + u + [right] + post, q, e)
  {
    var s := pre + [left] + u + [right] + post;
    var rest := [left] + u + [right] + post;
    assert s == pre + rest;
    forall q: nat, e: nat | q < |pre| && IsMatch(ex, s, q, e)
      ensures false
    {
      PrefixMatch(ex, pre, rest, q, e);
    }
  }

  /**
   * A match that starts before a delimiter ends before it, so it is a match
   * of the text before the delimiter.
   */
  lemma PrefixMatch(ex: set<char>, pre: string, rest: string, q: nat, e: nat)
    requires ex <= StrictExclusions && rest != [] && Stops(ex, rest[0])
    requires q < |pre| && IsMatch(ex, pre + rest, q, e)
    ensures IsMatch(ex, pre, q, e)
  {
    var s := pre + rest;
    var n := SchemeLength(s, q);
    SchemeDoesNotStop(ex, s, q);
    assert s[|pre|] == rest[0];
    assert q + n <= |pre|;
    assert e <= |pre|;
    assert SchemeLength(pre, q) == n by {
      PrefixLiteral(pre, rest, q, "https://");
      PrefixLiteral(pre, rest, q, "http://");
    }
    forall i | q + n <= i < e
      ensures !Stops(ex, pre[i])
    {
      assert s[i] == pre[i];
    }
    assert e == |pre| || Stops(ex, pre[e]) by {
      if e < |pre| {
        assert s[e] == pre[e];
      }
    }
    var k :| q + n < k && k + |Marker| <= e && LowerAt(s, k, Marker);
    PrefixLiteral(pre, rest, k, Marker);
  }

  /** A literal lies within the text before `rest` exactly when it lies there in the whole text. */
  lemma PrefixLiteral(pre: string, rest: string, k: nat, lit: string)
    ensures LowerAt(pre, k, lit) ==> LowerAt(pre + rest, k, lit)
    ensures k + |lit| <= |pre| && LowerAt(pre + rest, k, lit) ==> LowerAt(pre, k, lit)
  {
    var s := pre + rest;
    if k + |lit| <= |pre| {
      forall j | k <= j < k + |lit|
        ensures s[j] == pre[j]
      {
      }
    }
  }

  /** Framed by delimiters, the URL is a match right after the left one, and no scheme starts at the left delimiter. */
  lemma FramedMatch(ex: set<char>, pre: string, u: string, left: char, right: char, post: string)
    requires ex <= StrictExclusions && IsMatch(ex, u, 0, |u|)
    requires Stops(ex, left) && Stops(ex, right)
    ensures SchemeLength(pre + [left] + u + [right] + post, |pre|) == 0
    ensures IsMatch(ex, pre + [left] + u + [right] + post, |pre| + 1, |pre| + 1 + |u|)
  {
    var s := pre + [left] + u + [right] + post;
    var at := |pre| + 1;
    var n := SchemeLength(u, 0);
    FramedScheme(ex, pre, u, left, right, post);
    var k :| n < k && k + |Marker| <= |u| && LowerAt(u, k, Marker);
    assert LowerAt(s, at + k, Marker) by {
      forall j | k <= j < k + |Marker| ensures s[at + j] == u[j] { }
      forall i | 0 <= i < |Marker| ensures Lower(s[at + k + i]) == Marker[i] {
        assert Lower(u[k + i]) == Marker[i];
      }
    }
    forall i | at + n <= i < at + |u| ensures !Stops(ex, s[i]) {
      assert s[i] == u[i - at];
    }
    assert s[at + |u|] == right;
  }

  /** A delimiter starts no scheme, and the scheme of the URL is found right after it. */
  lemma FramedScheme(ex: set<char>, pre: string, u: string, left: char, right: char, post: string)
    requires ex <= StrictExclusions && Stops(ex, left) && SchemeLength(u, 0) > 0
    ensures SchemeLength(pre + [left] + u + [right] + post, |pre|) == 0
    ensures SchemeLength(pre + [left] + u + [right] + post, |pre| + 1) == SchemeLength(u, 0)
  {
    var s := pre + [left] + u + [right] + post;
    var at := |pre| + 1;
    assert s[|pre|] == left;
    assert !('A' <= left <= 'Z');
    assert Lower(s[|pre| + 0]) != "https://"[0] && Lower(s[|pre| + 0]) != "http://"[0];
    if LowerAt(u, 0, "https://") {
      FramedLiteral(pre, u, left, right, post, "https://");
    } else {
      assert LowerAt(u, 0, "http://");
      FramedLiteral(pre, u, left, right, post, "http://");
      assert Lower(u[0 + 4]) == "http://"[4] == ':';
      assert s[at + 4] == u[0 + 4];
      assert !LowerAt(s, at, "https://") by { assert "https://"[4] == 's'; }
    }
  }

  /** A literal at the start of `u` is found right after the left delimiter. */
  lemma FramedLiteral(pre: string, u: string, left: char, right: char, post: string, lit: string)
    requires LowerAt(u, 0, lit)
    ensures LowerAt(pre + [left] + u + [right] + post, |pre| + 1, lit)
  {
    var s := pre + [left] + u + [right] + post;
    forall i | 0 <= i < |lit| ensures Lower(s[|pre| + 1 + i]) == lit[i] {
      assert s[|pre| + 1 + i] == u[0 + i];
    }
  }

  /** An input with a backslash inside the URL: `http://a\\b.m3u8`. */
  const BackslashExample := "http://a\\b.m3u8"

  /** The lenient pattern lets the backslash into the match: the whole input is found. */
  lemma LenientKeepsBackslash()
    ensures FirstMatch(LenientExclusions, BackslashExample) == Some(BackslashExample)
  {
    var s := BackslashExample;
    BackslashAttempt();
    assert FindFrom(LenientExclusions, s, 0) == Some(Span(0, |s|));
    assert s[0..|s|] == s;
  }

  /** The lenient attempt at the start of `BackslashExample` runs to its end. */
  lemma BackslashAttempt()
    ensures MatchEnd(LenientExclusions, BackslashExample, 0) == Some(|BackslashExample|)
  {
    BackslashScheme();
    BackslashRun();
    BackslashMarker();
  }

  /** `BackslashExample` starts with `http://`. */
  lemma BackslashScheme()
    ensures SchemeLength(BackslashExample, 0) == 7
  {
    var s := BackslashExample;
    assert Lower(s[4]) != "https://"[4];
    assert LowerAt(s, 0, "http://");
  }

  /** No lenient delimiter follows the scheme of `BackslashExample`. */
  lemma BackslashRun()
    ensures RunEnd(LenientExclusions, BackslashExample, 7) == |BackslashExample|
  {
    var s := BackslashExample;
    assert s[7] == 'a' && s[8] == '\\' && s[9] == 'b' && s[10] == '.' && s[11] == 'm' && s[12] == '3' && s[13] == 'u' && s[14] == '8';
    assert |s| == 15;
    assert !Stops(LenientExclusions, 'a') && !Stops(LenientExclusions, '\\') && !Stops(LenientExclusions, 'b') && !Stops(LenientExclusions, '.');
    assert !Stops(LenientExclusions, 'm') && !Stops(LenientExclusions, '3') && !Stops(LenientExclusions, 'u') && !Stops(LenientExclusions, '8');
  }

  /** `BackslashExample` ends with `.m3u8`. */
  lemma BackslashMarker()
    ensures MarkerWithin(BackslashExample, 8, |BackslashExample|)
  {
    var s := BackslashExample;
    assert s[10..] == Marker;
    assert LowerAt(s, 10, Marker);
  }

  /** A strict match never holds a backslash. */
  lemma StrictMatchHasNoBackslash(s: string, p: nat, e: nat)
    requires IsMatch(StrictExclusions, s, p, e)
    ensures p < e <= |s| && '\\' !in s[p..e]
  {
    MatchShape(StrictExclusions, s, p, e);
  }

  /** Without a backslash in the input both patterns see the same stretches. */
  lemma {:induction false} RunEndsAgree(s: string, i: nat)
    requires i <= |s| && '\\' !in s
    ensures RunEnd(StrictExclusions, s, i) == RunEnd(LenientExclusions, s, i)
    decreases |s| - i
  {
    if i < |s| {
      assert s[i] in s;
      RunEndsAgree(s, i + 1);
    }
  }

  /** Where the input holds no backslash the two patterns find the same matches. */
  lemma {:induction false} VariantsAgreeWithoutBackslash(s: string, from: nat)
    requires from <= |s| && '\\' !in s
    ensures FindFrom(StrictExclusions, s, from) == FindFrom(LenientExclusions, s, from)
    decreases |s| - from
  {
    if from < |s| {
      AttemptsAgree(s, from);
      var m := MatchEnd(StrictExclusions, s, from);
      if m.Some? {
        assert FindFrom(StrictExclusions, s, from) == Some(Span(from, m.value));
        assert FindFrom(LenientExclusions, s, from) == Some(Span(from, m.value));
      } else {
        VariantsAgreeWithoutBackslash(s, from + 1);
        assert FindFrom(StrictExclusions, s, from) == FindFrom(StrictExclusions, s, from + 1);
        assert FindFrom(LenientExclusions, s, from) == FindFrom(LenientExclusions, s, from + 1);
      }
    }
  }

  /** Where the input holds no backslash the two patterns' attempts at `p` agree. */
  lemma AttemptsAgree(s: string, p: nat)
    requires p <= |s| && '\\' !in s
    ensures MatchEnd(StrictExclusions, s, p) == MatchEnd(LenientExclusions, s, p)
  {
    var n := SchemeLength(s, p);
    if n > 0 {
      RunEndsAgree(s, p + n);
    }
  }
}
