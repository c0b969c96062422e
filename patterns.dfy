/** The regular-expression searches the suggestion services run on report sentences, as
    `re.search` performs them, with ASCII digit and word classes: the leftmost starting
    position wins, and at that position greedy parts take as much as they can and the lazy
    `.*?` as little as it can, never crossing a line break. Only the pattern shapes the services use are modelled:

      Keyed:    KEYWORD [.*?] MARKER [\$?] (NUMBER) [.*?TRAILER]
      Suffixed: (NUMBER) \s* SUFFIX

    where KEYWORD may list alternatives (`short[_ ]?ma` is "short_ma", "short ma", "shortma",
    tried in that order) and NUMBER is one of five number tokens. */
module Patterns {
  import opened Wrappers
  import opened Text

  /** The number tokens, each matched greedily. */
  datatype Token =
    | CommaNumber    // [\d,]+\.?\d*
    | DigitsAndDots  // [\d.]+
    | GroupedNumber  // [\d,]+(?:\.\d+)?
    | PlainNumber    // \d+\.?\d*
    | PointNumber    // \d+\.\d+

  datatype Pattern =
    | Keyed(keywords: seq<string>, lazy: bool, marker: string, dollar: bool, token: Token,
            trailer: string, ignoreCase: bool)
    | Suffixed(number: Token, suffix: string, ignoreCase: bool)
  {
    /** The token the captured group holds. */
    function Number(): Token
    {
      if Keyed? then token else number
    }
  }

  /** Start and end of the captured group. */
  type Span = (nat, nat)

  predicate IsDigitOrComma(c: char) { IsDigit(c) || c == ',' }
  predicate IsDigitOrDot(c: char) { IsDigit(c) || c == '.' }

  /** `\s` in a str pattern: the characters `str.isspace` accepts, that is tab to carriage
      return (9-13), the separators 28-31, space, U+0085, U+00A0, U+1680, U+2000-U+200A,
      the line and paragraph separators U+2028 and U+2029, U+202F, U+205F and U+3000. */
  predicate IsSpace(c: char)
  {
    var n := c as int;
    (9 <= n <= 13) || (28 <= n <= 32) || n == 0x85 || n == 0xA0 || n == 0x1680 ||
    (0x2000 <= n <= 0x200A) || n == 0x2028 || n == 0x2029 || n == 0x202F || n == 0x205F ||
    n == 0x3000
  }

  /** Index just past the longest run of `inClass` characters starting at `i`. */
  function RunEnd(s: string, i: nat, inClass: char -> bool): (e: nat)
    requires i <= |s|
    ensures i <= e <= |s|
    ensures forall k :: i <= k < e ==> inClass(s[k])
    ensures e < |s| ==> !inClass(s[e])
    decreases |s| - i
  {
    if i < |s| && inClass(s[i]) then RunEnd(s, i + 1, inClass) else i
  }

  /** Where the token that starts at `p` ends, or `None` when no token starts there. */
  function TokenEnd(s: string, p: nat, t: Token): (e: Option<nat>)
    requires p <= |s|
    ensures e.Some? ==> p < e.value <= |s|
  {
    match t
    case CommaNumber =>
      if p < |s| && IsDigitOrComma(s[p]) then
        var a := RunEnd(s, p, IsDigitOrComma);
        var b := if a < |s| && s[a] == '.' then a + 1 else a;
        Some(RunEnd(s, b, IsDigit))
      else None
    case DigitsAndDots =>
      if p < |s| && IsDigitOrDot(s[p]) then Some(RunEnd(s, p, IsDigitOrDot)) else None
    case GroupedNumber =>
      if p < |s| && IsDigitOrComma(s[p]) then
        var a := RunEnd(s, p, IsDigitOrComma);
        if a + 1 < |s| && s[a] == '.' && IsDigit(s[a + 1]) then Some(RunEnd(s, a + 1, IsDigit)) else Some(a)
      else None
    case PlainNumber =>
      if p < |s| && IsDigit(s[p]) then
        var a := RunEnd(s, p, IsDigit);
        var b := if a < |s| && s[a] == '.' then a + 1 else a;
        Some(RunEnd(s, b, IsDigit))
      else None
    case PointNumber =>
      if p < |s| && IsDigit(s[p]) then
        var a := RunEnd(s, p, IsDigit);
        if a + 1 < |s| && s[a] == '.' && IsDigit(s[a + 1]) then Some(RunEnd(s, a + 1, IsDigit)) else None
      else None
  }

  /** `\$?(NUMBER)` at `q`: a dollar sign is skipped when there is one. */
  function TokenAfter(s: string, q: nat, dollar: bool, t: Token): (g: Option<Span>)
    requires q <= |s|
    ensures g.Some? ==> q <= g.value.0 < g.value.1 <= |s|
    ensures g.Some? ==> TokenEnd(s, g.value.0, t) == Some(g.value.1)
  {
    var p := if dollar && q < |s| && s[q] == '$' then q + 1 else q;
    var e := TokenEnd(s, p, t);
    if e.Some? then Some((p, e.value)) else None
  }

  /** `.*?TRAILER` from `r`: the trailer occurs later on the same line. */
  predicate TrailerFrom(s: string, r: nat, trailer: string, ignoreCase: bool)
    requires r <= |s|
    decreases |s| - r
  {
    OccursAt(s, r, trailer, ignoreCase) || (r < |s| && s[r] != '\n' && TrailerFrom(s, r + 1, trailer, ignoreCase))
  }

  /** `MARKER \$?(NUMBER) [.*?TRAILER]` exactly at `j`. */
  function HitAt(s: string, j: nat, pat: Pattern): (g: Option<Span>)
    requires pat.Keyed? && j <= |s|
    ensures g.Some? ==> j <= g.value.0 < g.value.1 <= |s|
    ensures g.Some? ==> TokenEnd(s, g.value.0, pat.token) == Some(g.value.1)
  {
    if !OccursAt(s, j, pat.marker, pat.ignoreCase) then None
    else
      var t := TokenAfter(s, j + |pat.marker|, pat.dollar, pat.token);
      if t.Some? && TrailerFrom(s, t.value.1, pat.trailer, pat.ignoreCase) then t else None
  }

  /** What follows the keyword: at `j` itself, or, after a lazy `.*?`, at the first position
      of the same line where the rest matches. */
  function Scan(s: string, j: nat, pat: Pattern): (g: Option<Span>)
    requires pat.Keyed? && j <= |s|
    ensures g.Some? ==> j <= g.value.0 < g.value.1 <= |s|
    decreases |s| - j
    ensures g.Some? ==> TokenEnd(s, g.value.0, pat.token) == Some(g.value.1)
  {
    var h := HitAt(s, j, pat);
    if h.Some? then h
    else if pat.lazy && j < |s| && s[j] != '\n' then Scan(s, j + 1, pat)
    else None
  }

  /** The keyword alternatives from the `n`-th on, tried in order at `i`. */
  function AlternativeAt(s: string, i: nat, pat: Pattern, n: nat): (g: Option<Span>)
    requires pat.Keyed? && i <= |s|
    ensures g.Some? ==> i <= g.value.0 < g.value.1 <= |s|
    decreases |pat.keywords| - n
    ensures g.Some? ==> TokenEnd(s, g.value.0, pat.token) == Some(g.value.1)
  {
    if n >= |pat.keywords| then None
    else
      var kw := pat.keywords[n];
      var g := if OccursAt(s, i, kw, pat.ignoreCase) then Scan(s, i + |kw|, pat) else None;
      if g.Some? then g else AlternativeAt(s, i, pat, n + 1)
  }

  /** The captured group of a match that starts exactly at `i`. */
  function MatchAt(s: string, i: nat, pat: Pattern): (g: Option<Span>)
    requires i <= |s|
    ensures g.Some? ==> i <= g.value.0 < g.value.1 <= |s|
    ensures g.Some? ==> TokenEnd(s, g.value.0, pat.Number()) == Some(g.value.1)
  {
    match pat
    case Keyed(_, _, _, _, _, _, _) => AlternativeAt(s, i, pat, 0)
    case Suffixed(number, suffix, ignoreCase) =>
      var e := TokenEnd(s, i, number);
      if e.Some? && OccursAt(s, RunEnd(s, e.value, IsSpace), suffix, ignoreCase) then Some((i, e.value)) else None
  }

  /** Tries the starting positions from `i` on, leftmost first. */
  function SearchFrom(s: string, i: nat, pat: Pattern): (g: Option<Span>)
    requires i <= |s|
    ensures g.Some? ==> g.value.0 < g.value.1 <= |s|
    decreases |s| - i
    ensures g.Some? ==> TokenEnd(s, g.value.0, pat.Number()) == Some(g.value.1)
  {
    var m := MatchAt(s, i, pat);
    if m.Some? then m else if i < |s| then SearchFrom(s, i + 1, pat) else None
  }

  /** `re.search(pattern, s)`, giving the span of group 1. */
  function Search(s: string, pat: Pattern): (g: Option<Span>)
    ensures g.Some? ==> g.value.0 < g.value.1 <= |s|
    ensures g.Some? ==> TokenEnd(s, g.value.0, pat.Number()) == Some(g.value.1)
  {
    SearchFrom(s, 0, pat)
  }

  /** `match.group(1)`, when there is a match. */
  function Capture(s: string, pat: Pattern): (c: Option<string>)
    ensures c.Some? ==> |c.value| > 0
  {
    var g := Search(s, pat);
    if g.Some? then Some(s[g.value.0..g.value.1]) else None
  }

  /** The leftmost of the results `m` gives at the positions `i` to `n`. */
  function FirstHit(m: nat -> Option<Span>, i: nat, n: nat): Option<Span>
    decreases n - i
  {
    if m(i).Some? then m(i) else if i < n then FirstHit(m, i + 1, n) else None
  }

  /** The match at each position of `s`. */
  function Matches(s: string, pat: Pattern): nat -> Option<Span>
  {
    (k: nat) => if k <= |s| then MatchAt(s, k, pat) else None
  }

  lemma {:induction false} SearchIsFirstHit(s: string, i: nat, pat: Pattern)
    requires i <= |s|
    ensures SearchFrom(s, i, pat) == FirstHit(Matches(s, pat), i, |s|)
    decreases |s| - i
  {
    var m := MatchAt(s, i, pat);
    var f := Matches(s, pat);
    assert f(i) == m;
    if m.Some? {
      assert SearchFrom(s, i, pat) == m;
      assert FirstHit(f, i, |s|) == m;
    } else if i < |s| {
      SearchIsFirstHit(s, i + 1, pat);
      assert SearchFrom(s, i, pat) == SearchFrom(s, i + 1, pat);
      assert FirstHit(f, i, |s|) == FirstHit(f, i + 1, |s|);
    } else {
      assert SearchFrom(s, i, pat).None?;
      assert FirstHit(f, i, |s|).None?;
    }
  }

  lemma {:induction false} FirstHitNone(m: nat -> Option<Span>, i: nat, n: nat)
    requires i <= n
    ensures FirstHit(m, i, n).None? <==> forall k :: i <= k <= n ==> m(k).None?
    decreases n - i
  {
    if m(i).None? && i < n {
      FirstHitNone(m, i + 1, n);
      if FirstHit(m, i + 1, n).None? {
        forall k | i <= k <= n ensures m(k).None? {
          if k > i {
            assert i + 1 <= k <= n;
          }
        }
      }
    } else if m(i).None? {
      forall k | i <= k <= n ensures m(k).None? {
        assert k == i;
      }
    }
  }

  lemma {:induction false} FirstHitFirst(m: nat -> Option<Span>, i: nat, n: nat)
    requires i <= n && FirstHit(m, i, n).Some?
    ensures exists k ::
      i <= k <= n && m(k) == FirstHit(m, i, n) && forall j :: i <= j < k ==> m(j).None?
    decreases n - i
  {
    if m(i).None? {
      FirstHitFirst(m, i + 1, n);
      var k :| i + 1 <= k <= n && m(k) == FirstHit(m, i + 1, n) && forall j :: i + 1 <= j < k ==> m(j).None?;
      assert forall j :: i <= j < k ==> m(j).None?;
    } else {
      assert m(i) == FirstHit(m, i, n);
    }
  }

  lemma {:induction false} FirstHitSkips(m: nat -> Option<Span>, i: nat, k: nat, n: nat)
    requires i <= k <= n
    requires forall j :: i <= j < k ==> m(j).None?
    ensures FirstHit(m, i, n) == FirstHit(m, k, n)
    decreases k - i
  {
    if i < k {
      FirstHitSkips(m, i + 1, k, n);
    }
  }

  /** The search finds the match of the leftmost position that has one. */
  lemma SearchFromLeftmost(s: string, i: nat, pat: Pattern)
    requires i <= |s|
    ensures SearchFrom(s, i, pat).Some? <==> exists k :: i <= k <= |s| && MatchAt(s, k, pat).Some?
    ensures SearchFrom(s, i, pat).Some? ==>
      exists k :: i <= k <= |s| && MatchAt(s, k, pat) == SearchFrom(s, i, pat) &&
        forall j :: i <= j < k ==> MatchAt(s, j, pat).None?
  {
    var m := Matches(s, pat);
    SearchIsFirstHit(s, i, pat);
    FirstHitNone(m, i, |s|);
    assert forall k :: i <= k <= |s| ==> m(k) == MatchAt(s, k, pat);
    if SearchFrom(s, i, pat).Some? {
      FirstHitFirst(m, i, |s|);
      var k :| i <= k <= |s| && m(k) == SearchFrom(s, i, pat) && forall j :: i <= j < k ==> m(j).None?;
      assert MatchAt(s, k, pat) == SearchFrom(s, i, pat);
    }
  }

  lemma SearchLeftmost(s: string, pat: Pattern)
    ensures Search(s, pat).Some? <==> exists k :: 0 <= k <= |s| && MatchAt(s, k, pat).Some?
    ensures Search(s, pat).Some? ==>
      exists k :: 0 <= k <= |s| && MatchAt(s, k, pat) == Search(s, pat) &&
        forall j :: 0 <= j < k ==> MatchAt(s, j, pat).None?
  {
    SearchFromLeftmost(s, 0, pat);
  }

  /** Positions that cannot start a match may be skipped. */
  lemma SearchSkips(s: string, pat: Pattern, i: nat, k: nat)
    requires i <= k <= |s|
    requires forall j :: i <= j < k ==> MatchAt(s, j, pat).None?
    ensures SearchFrom(s, i, pat) == SearchFrom(s, k, pat)
  {
    SearchIsFirstHit(s, i, pat);
    SearchIsFirstHit(s, k, pat);
    assert forall j :: i <= j < k ==> Matches(s, pat)(j).None?;
    FirstHitSkips(Matches(s, pat), i, k, |s|);
  }

  /** A keyed pattern can only match where one of its keywords begins. */
  lemma {:induction false} AlternativeNeedsKeyword(s: string, i: nat, pat: Pattern, n: nat)
    requires pat.Keyed? && i <= |s|
    requires forall m :: n <= m < |pat.keywords| ==> !OccursAt(s, i, pat.keywords[m], pat.ignoreCase)
    ensures AlternativeAt(s, i, pat, n).None?
    decreases |pat.keywords| - n
  {
    if n < |pat.keywords| {
      AlternativeNeedsKeyword(s, i, pat, n + 1);
    }
  }

  /** No match of a keyed pattern starts at positions `lo` to `hi` of `s` when they lie in
      `piece`, a part of `s` after `pre`, and none of their characters has the first letter of
      a keyword, in either case. */
  lemma NoMatchInPiece(s: string, pre: string, piece: string, lo: nat, hi: nat, pat: Pattern)
    requires pat.Keyed?
    requires forall m :: 0 <= m < |pat.keywords| ==> |pat.keywords[m]| > 0
    requires pre + piece <= s && |pre| <= lo <= hi <= |pre| + |piece|
    requires forall m, k :: 0 <= m < |pat.keywords| && lo - |pre| <= k < hi - |pre| ==>
      LowerChar(piece[k]) != LowerChar(pat.keywords[m][0])
    ensures forall j :: lo <= j < hi ==> MatchAt(s, j, pat).None?
  {
    forall j | lo <= j < hi
      ensures MatchAt(s, j, pat).None?
    {
      assert s[j] == (pre + piece)[j] == piece[j - |pre|];
      forall m | 0 <= m < |pat.keywords|
        ensures !OccursAt(s, j, pat.keywords[m], pat.ignoreCase)
      {
        var kw := pat.keywords[m];
        assert !SameLetter(s[j + 0], kw[0]) && s[j + 0] != kw[0];
      }
      AlternativeNeedsKeyword(s, j, pat, 0);
    }
  }

  /** Two adjacent stretches without a match make one. */
  lemma NoMatchJoin(s: string, pat: Pattern, n: nat, m: nat)
    requires n <= m <= |s|
    requires forall j :: 0 <= j < n ==> MatchAt(s, j, pat).None?
    requires forall j :: n <= j < m ==> MatchAt(s, j, pat).None?
    ensures forall j :: 0 <= j < m ==> MatchAt(s, j, pat).None?
  {
  }

  /** A stretch without a match and one more position without one. */
  lemma NoMatchJoinOne(s: string, pat: Pattern, n: nat, m: nat)
    requires m == n + 1 && m <= |s|
    requires forall j :: 0 <= j < n ==> MatchAt(s, j, pat).None?
    requires MatchAt(s, n, pat).None?
    ensures forall j :: 0 <= j < m ==> MatchAt(s, j, pat).None?
  {
  }

  /** No match of a one-keyword pattern starts at `j` when the keyword's `k`-th letter
      differs from the character of `piece`, a part of `s` after `pre`, under it. */
  lemma NoMatchAtMismatch(s: string, pre: string, piece: string, j: nat, k: nat, pat: Pattern)
    requires pat.Keyed? && |pat.keywords| == 1 && k < |pat.keywords[0]|
    requires pre + piece <= s && |pre| <= j + k < |pre| + |piece|
    requires LowerChar(piece[j + k - |pre|]) != LowerChar(pat.keywords[0][k])
    ensures MatchAt(s, j, pat).None?
  {
    var kw := pat.keywords[0];
    assert s[j + k] == (pre + piece)[j + k] == piece[j + k - |pre|];
    assert !SameLetter(s[j + k], kw[k]) && s[j + k] != kw[k];
    AlternativeNeedsKeyword(s, j, pat, 0);
  }

  /** A literal occurs where it was put. */
  lemma OccursInConcat(pre: string, lit: string, post: string, ignoreCase: bool)
    ensures OccursAt(pre + lit + post, |pre|, lit, ignoreCase)
  {
    var s := pre + lit + post;
    forall k | 0 <= k < |lit|
      ensures s[|pre| + k] == lit[k]
    {
    }
  }

  /** Digits and commas, a dot and digits form one comma number, ending where they end. */
  lemma CommaTokenInConcat(pre: string, whole: string, fraction: string, post: string)
    requires |whole| > 0 && forall k :: 0 <= k < |whole| ==> IsDigitOrComma(whole[k])
    requires |fraction| > 0 && forall k :: 0 <= k < |fraction| ==> IsDigit(fraction[k])
    requires |post| > 0 ==> !IsDigit(post[0])
    ensures TokenEnd(pre + whole + "." + fraction + post, |pre|, CommaNumber) ==
      Some(|pre| + |whole| + 1 + |fraction|)
  {
    var s := pre + whole + "." + fraction + post;
    var p, dot := |pre|, |pre| + |whole|;
    var e := dot + 1 + |fraction|;
    assert s[dot] == '.';
    forall k | p <= k < dot
      ensures IsDigitOrComma(s[k])
    {
      assert s[k] == whole[k - p];
    }
    forall k | dot < k < e
      ensures IsDigit(s[k])
    {
      assert s[k] == fraction[k - dot - 1];
    }
    if e < |s| {
      assert s[e] == post[0];
    }
    CommaNumberEnd(s, p, dot, e);
  }

  /** After the keyword, `\$?(NUMBER)` with no marker and no trailer matches a dollar sign and
      a number token. */
  lemma ScanAfterKeyword(s: string, q: nat, e: nat, pat: Pattern)
    requires pat.Keyed? && pat.marker == "" && pat.dollar && pat.trailer == ""
    requires q < |s| && s[q] == '$'
    requires TokenEnd(s, q + 1, pat.token) == Some(e)
    ensures Scan(s, q, pat) == Some((q + 1, e))
  {
    assert TokenAfter(s, q, pat.dollar, pat.token) == Some((q + 1, e));
    assert OccursAt(s, q, pat.marker, pat.ignoreCase);
    assert TrailerFrom(s, e, pat.trailer, pat.ignoreCase) by {
      assert OccursAt(s, e, pat.trailer, pat.ignoreCase);
    }
    assert HitAt(s, q, pat) == Some((q + 1, e));
  }

  /** A one-keyword `KEYWORD \$?(NUMBER)` pattern matches where its keyword is followed by
      a dollar sign and a number token. */
  lemma MatchAfterKeyword(s: string, i: nat, e: nat, pat: Pattern)
    requires pat.Keyed? && |pat.keywords| == 1 && pat.marker == "" && pat.dollar
    requires pat.trailer == ""
    requires i + |pat.keywords[0]| < |s| && OccursAt(s, i, pat.keywords[0], pat.ignoreCase)
    requires s[i + |pat.keywords[0]|] == '$'
    requires TokenEnd(s, i + |pat.keywords[0]| + 1, pat.token) == Some(e)
    ensures MatchAt(s, i, pat) == Some((i + |pat.keywords[0]| + 1, e))
  {
    ScanAfterKeyword(s, i + |pat.keywords[0]|, e, pat);
    assert AlternativeAt(s, i, pat, 0) == Some((i + |pat.keywords[0]| + 1, e));
  }

  /** `KEYWORD \$?([\d,]+\.?\d*)` with a single keyword: when no match starts before the
      keyword and the keyword is followed by a dollar sign and digits and commas, a dot and
      digits, `re.search` captures exactly those digits. */
  lemma CaptureInConcat(pre: string, whole: string, fraction: string, post: string, pat: Pattern)
    requires pat.Keyed? && |pat.keywords| == 1 && !pat.lazy && pat.marker == "" && pat.dollar
    requires pat.token == CommaNumber && pat.trailer == ""
    requires |whole| > 0 && forall k :: 0 <= k < |whole| ==> IsDigitOrComma(whole[k])
    requires |fraction| > 0 && forall k :: 0 <= k < |fraction| ==> IsDigit(fraction[k])
    requires |post| > 0 ==> !IsDigit(post[0])
    requires forall j :: 0 <= j < |pre| ==>
      MatchAt(pre + pat.keywords[0] + "$" + whole + "." + fraction + post, j, pat).None?
    ensures Capture(pre + pat.keywords[0] + "$" + whole + "." + fraction + post, pat) ==
      Some(whole + "." + fraction)
  {
    var kw := pat.keywords[0];
    var s := pre + kw + "$" + whole + "." + fraction + post;
    var p := |pre + kw + "$"|;
    var e := p + |whole| + 1 + |fraction|;
    MatchInConcat(pre, whole, fraction, post, pat);
    CaptureAt(s, |pre|, p, e, pat);
    CaptureSlice(pre + kw + "$", whole, fraction, post);
  }

  /** `re.search` captures the group of the first position where the pattern matches. */
  lemma CaptureAt(s: string, i: nat, p: nat, e: nat, pat: Pattern)
    requires i <= |s| && MatchAt(s, i, pat) == Some((p, e))
    requires forall j :: 0 <= j < i ==> MatchAt(s, j, pat).None?
    ensures p <= e <= |s| && Capture(s, pat) == Some(s[p..e])
  {
    SearchSkips(s, pat, 0, i);
  }

  /** The keyword, dollar sign and number put after `pre` match there. */
  lemma MatchInConcat(pre: string, whole: string, fraction: string, post: string, pat: Pattern)
    requires pat.Keyed? && |pat.keywords| == 1 && pat.marker == "" && pat.dollar
    requires pat.token == CommaNumber && pat.trailer == ""
    requires |whole| > 0 && forall k :: 0 <= k < |whole| ==> IsDigitOrComma(whole[k])
    requires |fraction| > 0 && forall k :: 0 <= k < |fraction| ==> IsDigit(fraction[k])
    requires |post| > 0 ==> !IsDigit(post[0])
    ensures MatchAt(pre + pat.keywords[0] + "$" + whole + "." + fraction + post, |pre|, pat) ==
      Some((|pre + pat.keywords[0] + "$"|, |pre + pat.keywords[0] + "$"| + |whole| + 1 + |fraction|))
  {
    var kw := pat.keywords[0];
    var lead := pre + kw + "$";
    var s := lead + whole + "." + fraction + post;
    KeywordInConcat(pre, kw, whole + "." + fraction + post, pat.ignoreCase);
    assert lead + whole + "." + fraction + post == lead + (whole + "." + fraction + post);
    CommaTokenInConcat(lead, whole, fraction, post);
    MatchAfterKeyword(s, |pre|, |lead| + |whole| + 1 + |fraction|, pat);
  }

  /** A keyword put after `pre` and followed by a dollar sign occurs there. */
  lemma KeywordInConcat(pre: string, kw: string, rest: string, ignoreCase: bool)
    ensures OccursAt(pre + kw + "$" + rest, |pre|, kw, ignoreCase)
    ensures (pre + kw + "$" + rest)[|pre| + |kw|] == '$'
  {
    var s := pre + kw + "$" + rest;
    forall k | 0 <= k < |kw|
      ensures s[|pre| + k] == kw[k]
    {
    }
  }

  /** The number between the lead-in and what follows it. */
  lemma CaptureSlice(lead: string, whole: string, fraction: string, post: string)
    ensures (lead + whole + "." + fraction + post)[|lead|..|lead| + |whole| + 1 + |fraction|] ==
      whole + "." + fraction
  {
    var s := lead + whole + "." + fraction + post;
    assert s == lead + (whole + "." + fraction) + post;
  }

  /** The same, for a text known to begin with the keyword's lead-in, the keyword, the number
      and a character after it. */
  lemma CaptureAfterKeyword(s: string, pre: string, n: nat, whole: string, fraction: string, after: string, pat: Pattern)
    requires pat.Keyed? && |pat.keywords| == 1 && !pat.lazy && pat.marker == "" && pat.dollar
    requires pat.token == CommaNumber && pat.trailer == ""
    requires |whole| > 0 && forall k :: 0 <= k < |whole| ==> IsDigitOrComma(whole[k])
    requires |fraction| > 0 && forall k :: 0 <= k < |fraction| ==> IsDigit(fraction[k])
    requires |after| > 0 && !IsDigit(after[0])
    requires pre + (pat.keywords[0] + "$" + whole + "." + fraction + after) <= s
    requires n == |pre| && forall j :: 0 <= j < n ==> MatchAt(s, j, pat).None?
    ensures Capture(s, pat) == Some(whole + "." + fraction)
  {
    var kw := pat.keywords[0];
    var number := pre + kw + "$" + whole + "." + fraction;
    NumberThenAfter(s, pre, kw, whole, fraction, after);
    var post := s[|number|..];
    PrefixSplit(number, s);
    CaptureInConcat(pre, whole, fraction, post, pat);
  }

  /** The keyword, dollar sign and number before `after` end where `after` starts. */
  lemma NumberThenAfter(s: string, pre: string, kw: string, whole: string, fraction: string, after: string)
    requires |after| > 0
    requires pre + (kw + "$" + whole + "." + fraction + after) <= s
    ensures pre + kw + "$" + whole + "." + fraction <= s
    ensures s[|pre| + |kw| + |whole| + |fraction| + 2] == after[0]
  {
    var number := pre + kw + "$" + whole + "." + fraction;
    assert number + after == pre + (kw + "$" + whole + "." + fraction + after);
  }

  /** What begins a prefix of a text begins the text. */
  lemma PrefixShorten(prefix: string, more: string, s: string)
    requires prefix + more <= s
    ensures prefix <= s
  {
  }

  /** A text is its prefix followed by the rest. */
  lemma PrefixSplit(prefix: string, s: string)
    requires prefix <= s
    ensures s == prefix + s[|prefix|..]
  {
  }

  /** A comma number is captured whole: digits and commas, a dot, and digits, ending before
      the next character that is not a digit. */
  lemma CommaNumberEnd(s: string, p: nat, dot: nat, e: nat)
    requires p < dot < e <= |s|
    requires forall k :: p <= k < dot ==> IsDigitOrComma(s[k])
    requires s[dot] == '.'
    requires forall k :: dot < k < e ==> IsDigit(s[k])
    requires e < |s| ==> !IsDigit(s[e])
    ensures TokenEnd(s, p, CommaNumber) == Some(e)
  {
    RunEndAt(s, p, dot, IsDigitOrComma);
    RunEndAt(s, dot + 1, e, IsDigit);
  }

  /** A run that ends at a character outside the class ends there. */
  lemma {:induction false} RunEndAt(s: string, i: nat, e: nat, inClass: char -> bool)
    requires i <= e <= |s|
    requires forall k :: i <= k < e ==> inClass(s[k])
    requires e < |s| ==> !inClass(s[e])
    ensures RunEnd(s, i, inClass) == e
    decreases e - i
  {
    if i < e {
      RunEndAt(s, i + 1, e, inClass);
    }
  }

  /** The first pattern of a list that matches, as the `for pattern in patterns: ...
      break` loops try them; `None` when none does. */
  function FirstCapture(s: string, pats: seq<Pattern>): (c: Option<string>)
    ensures c.None? <==> forall n :: 0 <= n < |pats| ==> Capture(s, pats[n]).None?
    ensures c.Some? ==>
      exists n :: 0 <= n < |pats| && Capture(s, pats[n]) == c &&
        forall m :: 0 <= m < n ==> Capture(s, pats[m]).None?
  {
    var cs := seq(|pats|, n requires 0 <= n < |pats| => Capture(s, pats[n]));
    var c := FirstSome(cs);
    assert forall n :: 0 <= n < |pats| ==> cs[n] == Capture(s, pats[n]);
    if c.Some? then
      var n :| 0 <= n < |cs| && cs[n] == c && forall m :: 0 <= m < n ==> cs[m].None?;
      assert forall m :: 0 <= m < n ==> Capture(s, pats[m]).None?;
      c
    else c
  }

  /** The first value present in `xs`. */
  function FirstSome<T(==)>(xs: seq<Option<T>>): (c: Option<T>)
    ensures c.None? <==> forall n :: 0 <= n < |xs| ==> xs[n].None?
    ensures c.Some? ==> exists n :: 0 <= n < |xs| && xs[n] == c && forall m :: 0 <= m < n ==> xs[m].None?
  {
    if |xs| == 0 then None
    else if xs[0].Some? then xs[0]
    else
      var tail := xs[1..];
      var rest := FirstSome(tail);
      assert forall n :: 1 <= n < |xs| ==> xs[n] == tail[n - 1];
      if rest.Some? then
        var n :| 0 <= n < |tail| && tail[n] == rest && forall m :: 0 <= m < n ==> tail[m].None?;
        assert xs[n + 1] == tail[n];
        rest
      else rest
  }

  /** `float(text.replace(",", ""))`: a text that `float` rejects raises `ValueError`. */
  function ReadNumber(text: string): (r: Outcome<real>)
    ensures r.Raised? ==> r.error == ValueError
    ensures r.Ok? <==> ParseFloat(RemoveCommas(text)).Some?
    ensures r.Ok? ==> Some(r.value) == ParseFloat(RemoveCommas(text))
  {
    var v := ParseFloat(RemoveCommas(text));
    if v.Some? then Ok(v.value) else Raised(ValueError)
  }

  /** `float(match.group(1).replace(",", ""))` after the first matching pattern: absent when
      no pattern matches. */
  function ReadFirst(s: string, pats: seq<Pattern>): (r: Outcome<Option<real>>)
    ensures r == Ok(None) <==> FirstCapture(s, pats).None?
    ensures r.Ok? && r.value.Some? ==> r.value.value >= 0.0
    ensures r.Ok? && r.value.Some? ==>
      FirstCapture(s, pats).Some? && ReadNumber(FirstCapture(s, pats).value) == Ok(r.value.value)
    ensures r.Raised? ==>
      FirstCapture(s, pats).Some? && ReadNumber(FirstCapture(s, pats).value).Raised? && r.error == ValueError
  {
    var c := FirstCapture(s, pats);
    if c.None? then Ok(None)
    else
      var v := ReadNumber(c.value);
      if v.Ok? then Ok(Some(v.value)) else Raised(v.error)
  }

  /** When the first pattern captures, the reading is that capture's number. */
  lemma ReadFirstOfCapture(s: string, pats: seq<Pattern>, t: string)
    requires |pats| > 0 && Capture(s, pats[0]) == Some(t)
    requires ReadNumber(t).Ok?
    ensures ReadFirst(s, pats) == Ok(Some(ReadNumber(t).value))
  {
    assert FirstCapture(s, pats) == Some(t);
  }

  /** What a `\d+\.\d+` token captures always converts with `float`. */
  lemma PointNumberParses(s: string, pat: Pattern)
    requires pat.Keyed? && pat.token == PointNumber
    requires Capture(s, pat).Some?
    ensures ParseFloat(Capture(s, pat).value).Some?
  {
    var g := Search(s, pat).value;
    PointTokenParses(s, g.0, g.1);
  }

  /** Text matched as a `\d+\.\d+` token reads as a number. */
  lemma PointTokenParses(s: string, p: nat, e: nat)
    requires p <= |s| && TokenEnd(s, p, PointNumber) == Some(e)
    ensures p <= e <= |s| && ParseFloat(s[p..e]).Some?
  {
    var a := RunEnd(s, p, IsDigit);
    var whole := s[p..a];
    var fraction := s[a + 1..e];
    assert s[p..e] == whole + "." + fraction;
    ParseDecimal(whole, fraction);
  }
}
