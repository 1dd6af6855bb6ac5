/**
 * The string operations the search pipeline applies to page text and to
 * search snippets, with Python's semantics:
 *   - `str.isspace` / the `\s` class of `re` on `str` patterns (IsSpace),
 *   - `sep.join(parts)` (Join), `s.split()` with no argument (Words),
 *   - `' '.join(s.split())` (NormalizeSpaces),
 *   - `re.sub(r'\s+', ' ', s)` (CollapseRuns),
 *   - `re.sub(r'\[[^\]]+\]', '', s)` (StripCitations),
 *   - `s[:n]` (Take) and `f"{n}"` for a non-negative int (NatToString).
 */
module Text {

  function Min(a: int, b: int): int {
    if a <= b then a else b
  }

  /** Python's whitespace: the characters for which `str.isspace()` holds. */
  predicate IsSpace(c: char) {
    c == ' ' || '\t' <= c <= '\r' || '\U{1C}' <= c <= '\U{1F}' || c == '\U{85}' || c == '\U{A0}'
    || c == '\U{1680}' || '\U{2000}' <= c <= '\U{200A}' || c == '\U{2028}' || c == '\U{2029}'
    || c == '\U{202F}' || c == '\U{205F}' || c == '\U{3000}'
  }

  predicate NoSpace(w: string) {
    forall i :: 0 <= i < |w| ==> !IsSpace(w[i])
  }

  /** What `s.split()` yields: non-empty words without whitespace. */
  predicate WellFormedWords(ws: seq<string>) {
    forall i :: 0 <= i < |ws| ==> ws[i] != [] && NoSpace(ws[i])
  }

  /** Every whitespace character is a plain space and no two spaces are adjacent. */
  predicate SingleSpaced(r: string) {
    forall i :: 0 <= i < |r| && IsSpace(r[i]) ==> r[i] == ' ' && (i + 1 < |r| ==> !IsSpace(r[i + 1]))
  }

  /** No whitespace at either end. */
  predicate Trimmed(r: string) {
    r == [] || (!IsSpace(r[0]) && !IsSpace(r[|r| - 1]))
  }

  /** Python `sep.join(parts)`. */
  function Join(sep: string, parts: seq<string>): string
    decreases |parts|
  {
    if |parts| == 0 then ""
    else if |parts| == 1 then parts[0]
    else parts[0] + sep + Join(sep, parts[1..])
  }

  /** Python slicing `s[:n]` for n >= 0. */
  function Take<T>(s: seq<T>, n: nat): seq<T> {
    s[..Min(|s|, n)]
  }

  /** Python `[f(x) for x in xs]`. */
  function Map<T, U>(f: T -> U, xs: seq<T>): seq<U> {
    seq(|xs|, i requires 0 <= i < |xs| => f(xs[i]))
  }

  /** Python `[f(n, x) for n, x in enumerate(xs, 1)]`. */
  function Numbered<T, U>(f: (nat, T) -> U, xs: seq<T>): seq<U> {
    seq(|xs|, i requires 0 <= i < |xs| => f(i + 1, xs[i]))
  }

  /** Length of the leading run of non-whitespace characters. */
  function WordLen(s: string): (n: nat)
    ensures n <= |s|
    ensures forall i :: 0 <= i < n ==> !IsSpace(s[i])
    ensures n == |s| || IsSpace(s[n])
  {
    if s == [] || IsSpace(s[0]) then 0 else 1 + WordLen(s[1..])
  }

  /** Length of the leading run of whitespace characters. */
  function SpaceRunLen(s: string): (n: nat)
    ensures n <= |s|
    ensures forall i :: 0 <= i < n ==> IsSpace(s[i])
    ensures n == |s| || !IsSpace(s[n])
  {
    if s == [] || !IsSpace(s[0]) then 0 else 1 + SpaceRunLen(s[1..])
  }

  /** Python `s.split()`: the maximal runs of non-whitespace, in order. */
  function Words(s: string): (ws: seq<string>)
    ensures WellFormedWords(ws)
    decreases |s|
  {
    if s == [] then []
    else if IsSpace(s[0]) then Words(s[1..])
    else
      var n := WordLen(s);
      [s[..n]] + Words(s[n..])
  }

  /** Python `' '.join(s.split())`. */
  function NormalizeSpaces(s: string): string {
    Join(" ", Words(s))
  }

  /** Python `re.sub(r'\s+', ' ', s)`: every maximal whitespace run becomes one space. */
  function CollapseRuns(s: string): string
    decreases |s|
  {
    if s == [] then []
    else if IsSpace(s[0]) then " " + CollapseRuns(s[SpaceRunLen(s)..])
    else [s[0]] + CollapseRuns(s[1..])
  }

  /** Index of the first ']' in s, or |s| when there is none. */
  function CloseAt(s: string): (n: nat)
    ensures n <= |s|
    ensures forall i :: 0 <= i < n ==> s[i] != ']'
    ensures n == |s| || s[n] == ']'
  {
    if s == [] || s[0] == ']' then 0 else 1 + CloseAt(s[1..])
  }

  /**
   * Python `re.sub(r'\[[^\]]+\]', '', s)`. Scanning left to right, a '[' starts
   * a match exactly when the first ']' after it exists and is not the very
   * next character; the match ends at that ']' and scanning resumes after it.
   */
  function StripCitations(s: string): string
    decreases |s|
  {
    if s == [] then []
    else if s[0] == '[' && 1 < |s| && 2 <= 1 + CloseAt(s[1..]) < |s| then
      StripCitations(s[2 + CloseAt(s[1..])..])
    else [s[0]] + StripCitations(s[1..])
  }

  /** The pattern `\[[^\]]+\]` matches r[i..j+1]. */
  predicate CitationAt(r: string, i: int, j: int) {
    0 <= i && i + 2 <= j < |r| && r[i] == '[' && r[j] == ']'
    && forall k :: i < k < j ==> r[k] != ']'
  }

  /** No ']' occurs in r after index i. */
  predicate NoCloseAfter(r: string, i: int) {
    forall j :: 0 <= j < |r| && i < j ==> r[j] != ']'
  }

  /** Every '[' in r is followed directly by ']' or by no ']' at all. */
  predicate NoOpenCitation(r: string) {
    forall i :: 0 <= i < |r| && r[i] == '[' ==>
      (i + 1 < |r| && r[i + 1] == ']') || NoCloseAfter(r, i)
  }

  function DigitChar(d: nat): (c: char)
    requires d < 10
    ensures '0' <= c <= '9'
  {
    (48 + d) as char
  }

  predicate AllDigits(s: string) {
    forall i :: 0 <= i < |s| ==> '0' <= s[i] <= '9'
  }

  /** Python `f"{n}"` for n >= 0: decimal digits, most significant first. */
  function NatToString(n: nat): (r: string)
    ensures |r| >= 1 && AllDigits(r)
    ensures |r| > 1 ==> r[0] != '0'
  {
    if n < 10 then [DigitChar(n)] else NatToString(n / 10) + [DigitChar(n % 10)]
  }

  /** The value of a string of decimal digits. */
  function ParseDigits(s: string): nat
    requires AllDigits(s)
  {
    if s == [] then 0
    else 10 * ParseDigits(s[..|s| - 1]) + (s[|s| - 1] as int - 48)
  }

  // ---------------------------------------------------------------------------
  // Decimal numbering

  /** The number printed by `f"{n}"` reads back as n. */
  lemma {:induction false} NatToStringRoundTrip(n: nat)
    ensures ParseDigits(NatToString(n)) == n
  {
    if n >= 10 {
      NatToStringRoundTrip(n / 10);
      var r := NatToString(n);
      assert r[..|r| - 1] == NatToString(n / 10);
    }
  }

  // ---------------------------------------------------------------------------
  // Words and NormalizeSpaces

  /** A word followed by whitespace (or by nothing) is split off as one word. */
  lemma WordsAfterWord(w: string, u: string)
    requires w != [] && NoSpace(w)
    requires u == [] || IsSpace(u[0])
    ensures Words(w + u) == [w] + Words(u)
  {
    var s := w + u;
    assert forall i :: 0 <= i < |w| ==> s[i] == w[i];
    assert |u| > 0 ==> s[|w|] == u[0];
    var n := WordLen(s);
    assert n == |w|;
    assert s[..n] == w;
    assert s[n..] == u;
  }

  /** Leading whitespace does not change the words. */
  lemma {:induction false} WordsSkipSpaces(s: string, n: nat)
    requires n <= |s|
    requires forall i :: 0 <= i < n ==> IsSpace(s[i])
    ensures Words(s) == Words(s[n..])
    decreases n
  {
    if n > 0 {
      WordsSkipSpaces(s[1..], n - 1);
      assert s[1..][n - 1..] == s[n..];
    }
  }

  /** `s.split()` undoes `' '.join(ws)` for any list of words. */
  lemma {:induction false} WordsOfJoin(ws: seq<string>)
    requires WellFormedWords(ws)
    ensures Words(Join(" ", ws)) == ws
    decreases |ws|
  {
    if |ws| == 1 {
      WordsAfterWord(ws[0], []);
      assert ws[0] + [] == ws[0];
    } else if |ws| > 1 {
      var rest := Join(" ", ws[1..]);
      var tail := " " + rest;
      assert WellFormedWords(ws[1..]);
      WordsOfJoin(ws[1..]);
      assert tail[0] == ' ' && IsSpace(tail[0]);
      assert tail[1..] == rest;
      assert Words(tail) == Words(rest);
      WordsAfterWord(ws[0], tail);
      assert Join(" ", ws) == ws[0] + tail;
      assert ws == [ws[0]] + ws[1..];
    }
  }

  /** Prepending one character to a single-spaced string keeps it single-spaced. */
  lemma ConsSingleSpaced(c: char, r: string)
    requires SingleSpaced(r)
    requires IsSpace(c) ==> c == ' ' && (r == [] || !IsSpace(r[0]))
    ensures SingleSpaced([c] + r)
  {
    var t := [c] + r;
    assert forall i :: 0 < i < |t| ==> t[i] == r[i - 1];
  }

  /** A whitespace-free prefix keeps a single-spaced string single-spaced. */
  lemma {:induction false} WordThenSingleSpaced(w: string, t: string)
    requires NoSpace(w) && SingleSpaced(t)
    ensures SingleSpaced(w + t)
    decreases |w|
  {
    if w != [] {
      WordThenSingleSpaced(w[1..], t);
      assert w + t == [w[0]] + (w[1..] + t);
      ConsSingleSpaced(w[0], w[1..] + t);
    }
  }

  /** `' '.join(ws)` of well-formed words is single-spaced, trimmed and non-empty when ws is. */
  lemma {:induction false} JoinWordsShape(ws: seq<string>)
    requires WellFormedWords(ws)
    ensures SingleSpaced(Join(" ", ws)) && Trimmed(Join(" ", ws))
    ensures ws != [] ==> Join(" ", ws) != []
    decreases |ws|
  {
    if |ws| > 1 {
      var w := ws[0];
      var rest := Join(" ", ws[1..]);
      JoinWordsShape(ws[1..]);
      ConsSingleSpaced(' ', rest);
      var t := " " + rest;
      assert Join(" ", ws) == w + t;
      WordThenSingleSpaced(w, t);
      var r := w + t;
      assert r[0] == w[0];
      assert r[|r| - 1] == rest[|rest| - 1];
    }
  }

  /**
   * `' '.join(s.split())` keeps exactly the words of s, separated by single
   * spaces, with no whitespace at either end; applying it twice changes nothing.
   */
  lemma NormalizeSpacesSpec(s: string)
    ensures Words(NormalizeSpaces(s)) == Words(s)
    ensures SingleSpaced(NormalizeSpaces(s)) && Trimmed(NormalizeSpaces(s))
    ensures NormalizeSpaces(NormalizeSpaces(s)) == NormalizeSpaces(s)
  {
    WordsOfJoin(Words(s));
    JoinWordsShape(Words(s));
  }

  /** Cutting a single-spaced string keeps it single-spaced. */
  lemma TakeSingleSpaced(r: string, n: nat)
    requires SingleSpaced(r)
    ensures SingleSpaced(Take(r, n))
  {
    var t := Take(r, n);
    assert forall i :: 0 <= i < |t| ==> t[i] == r[i];
  }

  // ---------------------------------------------------------------------------
  // CollapseRuns

  lemma CollapseRunsHead(s: string)
    requires s != []
    ensures CollapseRuns(s) != []
    ensures IsSpace(s[0]) ==> CollapseRuns(s)[0] == ' '
    ensures !IsSpace(s[0]) ==> CollapseRuns(s)[0] == s[0]
  {
  }

  /** A whitespace-free prefix is copied unchanged. */
  lemma {:induction false} CollapseRunsOfWord(w: string, t: string)
    requires NoSpace(w)
    ensures CollapseRuns(w + t) == w + CollapseRuns(t)
    decreases |w|
  {
    if w != [] {
      assert CollapseRuns(w + t) == [w[0]] + CollapseRuns(w[1..] + t) by {
        assert !IsSpace((w + t)[0]);
        assert (w + t)[1..] == w[1..] + t;
      }
      CollapseRunsOfWord(w[1..], t);
      assert [w[0]] + (w[1..] + CollapseRuns(t)) == w + CollapseRuns(t) by {
        AppendAssociative([w[0]], w[1..], CollapseRuns(t));
        assert [w[0]] + w[1..] == w;
      }
    } else {
      assert w + t == t;
    }
  }

  /** `re.sub(r'\s+', ' ', s)` leaves only single plain spaces. */
  lemma {:induction false} CollapseRunsSingleSpaced(s: string)
    ensures SingleSpaced(CollapseRuns(s))
    decreases |s|
  {
    if s != [] {
      if IsSpace(s[0]) {
        var t := s[SpaceRunLen(s)..];
        CollapseRunsSingleSpaced(t);
        if t != [] {
          CollapseRunsHead(t);
        }
        ConsSingleSpaced(' ', CollapseRuns(t));
        assert CollapseRuns(s) == [' '] + CollapseRuns(t);
      } else {
        CollapseRunsSingleSpaced(s[1..]);
        ConsSingleSpaced(s[0], CollapseRuns(s[1..]));
      }
    }
  }

  /** `re.sub(r'\s+', ' ', s)` keeps the words of s. */
  lemma {:induction false} CollapseRunsWords(s: string)
    ensures Words(CollapseRuns(s)) == Words(s)
    decreases |s|
  {
    if s != [] {
      if IsSpace(s[0]) {
        var n := SpaceRunLen(s);
        var t := s[n..];
        CollapseRunsWords(t);
        WordsSkipSpaces(s, n);
        assert (" " + CollapseRuns(t))[1..] == CollapseRuns(t);
      } else {
        var n := WordLen(s);
        var w, t := s[..n], s[n..];
        assert s == w + t;
        CollapseRunsOfWord(w, t);
        CollapseRunsWords(t);
        if t != [] {
          CollapseRunsHead(t);
        }
        WordsAfterWord(w, CollapseRuns(t));
      }
    }
  }

  /** A trailing whitespace run of s becomes a trailing space of the result, and only then. */
  lemma {:induction false} CollapseRunsLast(s: string)
    requires s != []
    ensures CollapseRuns(s) != []
    ensures IsSpace(s[|s| - 1]) <==> CollapseRuns(s)[|CollapseRuns(s)| - 1] == ' '
    decreases |s|
  {
    if IsSpace(s[0]) {
      var t := s[SpaceRunLen(s)..];
      if t != [] {
        CollapseRunsLast(t);
        assert t[|t| - 1] == s[|s| - 1];
      }
    } else if |s| > 1 {
      CollapseRunsLast(s[1..]);
    }
  }

  /**
   * `re.sub(r'\s+', ' ', s)` replaces every whitespace run by one space: the
   * result has the same words, only single plain spaces, and whitespace at an
   * end exactly where s has it. These facts determine the result.
   */
  lemma CollapseRunsSpec(s: string)
    ensures Words(CollapseRuns(s)) == Words(s)
    ensures SingleSpaced(CollapseRuns(s))
    ensures s == [] <==> CollapseRuns(s) == []
    ensures s != [] ==> (IsSpace(s[0]) <==> IsSpace(CollapseRuns(s)[0]))
    ensures s != [] ==> (IsSpace(s[|s| - 1]) <==> IsSpace(CollapseRuns(s)[|CollapseRuns(s)| - 1]))
  {
    CollapseRunsWords(s);
    CollapseRunsSingleSpaced(s);
    if s != [] {
      CollapseRunsHead(s);
      CollapseRunsLast(s);
    }
  }

  // ---------------------------------------------------------------------------
  // StripCitations

  /** Removing citations only deletes characters. */
  lemma {:induction false} StripCitationsChars(s: string)
    ensures |StripCitations(s)| <= |s|
    ensures forall c :: c in StripCitations(s) ==> c in s
    decreases |s|
  {
    if s != [] {
      if s[0] == '[' && 1 < |s| && 2 <= 1 + CloseAt(s[1..]) < |s| {
        var t := s[2 + CloseAt(s[1..])..];
        StripCitationsChars(t);
        assert forall c :: c in t ==> c in s;
      } else {
        StripCitationsChars(s[1..]);
        assert forall c :: c in s[1..] ==> c in s;
      }
    }
  }

  /** Text without '[' is left as it is. */
  lemma {:induction false} StripCitationsNoBracket(s: string)
    requires '[' !in s
    ensures StripCitations(s) == s
    decreases |s|
  {
    if s != [] {
      assert s[0] != '[';
      StripCitationsNoBracket(s[1..]);
    }
  }

  /** A leading bracketed segment with non-empty content and no ']' inside is deleted. */
  lemma StripCitationsLeading(c: string, b: string)
    requires c != [] && ']' !in c
    ensures StripCitations("[" + c + "]" + b) == StripCitations(b)
  {
    var s := "[" + c + "]" + b;
    var t := s[1..];
    assert CloseAt(t) == |c| by {
      assert t == c + "]" + b;
      assert forall k :: 0 <= k < |c| ==> t[k] == c[k];
      assert t[|c|] == ']';
    }
    assert s[2 + |c|..] == b;
  }

  /**
   * A bracketed segment with non-empty content and no ']' inside is deleted,
   * when nothing before it opens a bracket.
   */
  lemma {:induction false} StripCitationsDeletes(a: string, c: string, b: string)
    requires '[' !in a
    requires c != [] && ']' !in c
    ensures StripCitations(a + ("[" + c + "]" + b)) == a + StripCitations(b)
    decreases |a|
  {
    var segment := "[" + c + "]" + b;
    var s := a + segment;
    if a == [] {
      assert s == segment;
      StripCitationsLeading(c, b);
    } else {
      assert s[0] == a[0] && s[1..] == a[1..] + segment;
      StripCitationsDeletes(a[1..], c, b);
      assert [a[0]] + (a[1..] + StripCitations(b)) == a + StripCitations(b) by {
        AppendAssociative([a[0]], a[1..], StripCitations(b));
        assert [a[0]] + a[1..] == a;
      }
    }
  }

  /** Prepending one character keeps NoOpenCitation when a '[' is not left open. */
  lemma ConsNoOpen(c: char, tail: string)
    requires NoOpenCitation(tail)
    requires c == '[' ==> (tail != [] && tail[0] == ']') || ']' !in tail
    ensures NoOpenCitation([c] + tail)
  {
    var r := [c] + tail;
    assert forall i :: 0 < i < |r| ==> r[i] == tail[i - 1];
    forall i | 0 <= i < |r| && r[i] == '['
      ensures (i + 1 < |r| && r[i + 1] == ']') || NoCloseAfter(r, i)
    {
      if i == 0 {
        if !(tail != [] && tail[0] == ']') {
          forall j | 0 < j < |r| ensures r[j] != ']' {
            assert tail[j - 1] in tail;
          }
        }
      } else {
        assert tail[i - 1] == '[';
        if !(i < |tail| && tail[i] == ']') {
          assert NoCloseAfter(tail, i - 1);
        }
      }
    }
  }

  lemma {:induction false} StripCitationsNoOpen(s: string)
    ensures NoOpenCitation(StripCitations(s))
    decreases |s|
  {
    if s != [] {
      var m := CloseAt(s[1..]);
      if s[0] == '[' && 1 < |s| && 2 <= 1 + m < |s| {
        StripCitationsNoOpen(s[2 + m..]);
      } else {
        var tail := StripCitations(s[1..]);
        StripCitationsNoOpen(s[1..]);
        if s[0] == '[' && |s| > 1 {
          if s[1] == ']' {
            assert tail == [']'] + StripCitations(s[2..]);
          } else {
            assert m == |s| - 1;
            assert ']' !in s[1..];
            StripCitationsChars(s[1..]);
          }
        }
        ConsNoOpen(s[0], tail);
      }
    }
  }

  /** After `re.sub(r'\[[^\]]+\]', '', s)` the pattern matches nowhere. */
  lemma StripCitationsLeavesNone(s: string)
    ensures forall i, j :: !CitationAt(StripCitations(s), i, j)
  {
    var r := StripCitations(s);
    StripCitationsNoOpen(s);
    forall i, j ensures !CitationAt(r, i, j) {
      if 0 <= i < |r| && r[i] == '[' {
        assert (i + 1 < |r| && r[i + 1] == ']') || NoCloseAfter(r, i);
      }
    }
  }

  /** r is s with some characters deleted and the others kept in order. */
  predicate IsSubsequence(r: string, s: string)
    decreases |s|
  {
    if s == [] then r == []
    else IsSubsequence(r, s[1..]) || (r != [] && r[0] == s[0] && IsSubsequence(r[1..], s[1..]))
  }

  /** Deleting a prefix of s as well still leaves a subsequence of s. */
  lemma {:induction false} SubsequenceSkip(r: string, s: string, k: nat)
    requires k <= |s| && IsSubsequence(r, s[k..])
    ensures IsSubsequence(r, s)
    decreases k
  {
    if k > 0 {
      assert s[1..][k - 1..] == s[k..];
      SubsequenceSkip(r, s[1..], k - 1);
    }
  }

  /** Removing citations deletes characters and keeps the rest in order. */
  lemma {:induction false} StripCitationsSubsequence(s: string)
    ensures IsSubsequence(StripCitations(s), s)
    decreases |s|
  {
    if s != [] {
      var m := CloseAt(s[1..]);
      if s[0] == '[' && 1 < |s| && 2 <= 1 + m < |s| {
        StripCitationsSubsequence(s[2 + m..]);
        SubsequenceSkip(StripCitations(s), s, 2 + m);
      } else {
        StripCitationsSubsequence(s[1..]);
        assert StripCitations(s)[1..] == StripCitations(s[1..]);
      }
    }
  }

  /** NoOpenCitation carries over from s to its tail. */
  lemma NoOpenTail(s: string)
    requires s != [] && NoOpenCitation(s)
    ensures NoOpenCitation(s[1..])
  {
    var t := s[1..];
    forall i | 0 <= i < |t| && t[i] == '['
      ensures (i + 1 < |t| && t[i + 1] == ']') || NoCloseAfter(t, i)
    {
      assert s[i + 1] == '[';
      if !(i + 2 < |s| && s[i + 2] == ']') {
        assert NoCloseAfter(s, i + 1);
      }
    }
  }

  /** In text without an open citation no match starts at the first character. */
  lemma NoOpenNoDeletion(s: string)
    requires s != [] && NoOpenCitation(s)
    ensures !(s[0] == '[' && 1 < |s| && 2 <= 1 + CloseAt(s[1..]) < |s|)
  {
    if s[0] == '[' && 1 < |s| && 1 + CloseAt(s[1..]) < |s| {
      var m := CloseAt(s[1..]);
      assert s[1 + m] == s[1..][m];
      assert !NoCloseAfter(s, 0);
      assert s[1] == s[1..][0];
    }
  }

  /**
   * Text in which every '[' is followed directly by ']' or by no ']' at all
   * is left as it is: an empty "[]" and an unclosed '[' are kept.
   */
  lemma {:induction false} StripCitationsKeeps(s: string)
    requires NoOpenCitation(s)
    ensures StripCitations(s) == s
    decreases |s|
  {
    if s != [] {
      NoOpenNoDeletion(s);
      NoOpenTail(s);
      StripCitationsKeeps(s[1..]);
    }
  }

  /** Removing citations a second time changes nothing. */
  lemma StripCitationsIdempotent(s: string)
    ensures StripCitations(StripCitations(s)) == StripCitations(s)
  {
    StripCitationsNoOpen(s);
    StripCitationsKeeps(StripCitations(s));
  }

  // ---------------------------------------------------------------------------
  // Sequences built element by element

  lemma AppendAssociative<T>(x: seq<T>, y: seq<T>, z: seq<T>)
    ensures x + (y + z) == (x + y) + z
  {
  }

  /** Mapping distributes over concatenation. */
  lemma MapAppend<T, U>(f: T -> U, a: seq<T>, b: seq<T>)
    ensures Map(f, a + b) == Map(f, a) + Map(f, b)
  {
    var whole := Map(f, a + b);
    var parts := Map(f, a) + Map(f, b);
    forall i | 0 <= i < |a + b| ensures whole[i] == parts[i] {
      if i >= |a| {
        assert (a + b)[i] == b[i - |a|];
      }
    }
  }

  /** Numbering one more element appends its numbered image. */
  lemma NumberedExtend<T, U>(f: (nat, T) -> U, xs: seq<T>, k: nat)
    requires k < |xs|
    ensures Numbered(f, xs[..k + 1]) == Numbered(f, xs[..k]) + [f(k + 1, xs[k])]
  {
    var longer := Numbered(f, xs[..k + 1]);
    var extended := Numbered(f, xs[..k]) + [f(k + 1, xs[k])];
    forall i | 0 <= i < k + 1 ensures longer[i] == extended[i] {
      if i < k {
        assert xs[..k + 1][i] == xs[..k][i];
      }
    }
  }
}
