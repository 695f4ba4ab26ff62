/**
 * The date-range parser of the leaflet scraper (`LeafletScraper.__parser_date`).
 *
 * The parser runs one leftmost search of the regular expression
 *
 *     (\d{2}\.\d{2}\.?(?:\d{4})?)\s*-\s*(\d{2}\.\d{2}\.\d{4})
 *
 * over free text and returns its two groups, or two empty strings when the
 * expression matches nowhere.  `\d` is taken to be an ASCII digit and `\s` one of
 * space, tab, line feed, vertical tab, form feed and carriage return.
 *
 * The declarative reading of the expression is `IsHit`: a `Hit` names where a
 * match starts and how long its first group and its two whitespace runs are.
 * `HitAtComplete` shows that at any one position at most one such split matches,
 * so the order in which a backtracking matcher tries the alternatives of `\.?`,
 * `(?:\d{4})?` and `\s*` cannot change the outcome: the search result is the hit
 * with the smallest start position (`IsFirstHit`).
 */
module DateRange {
  import opened Wrappers

  predicate IsDigit(c: char) { '0' <= c <= '9' }

  /**
   * `\s` as modelled: space and the controls 9 to 13 (\t \n \v \f \r).  Python also
   * counts U+001C to U+001F and non-ASCII whitespace; those are not modelled.
   */
  predicate IsSpace(c: char) { c == ' ' || 9 <= c as int <= 13 }

  /** Every character of `s[a..b]` is a digit. */
  predicate DigitsIn(s: string, a: nat, b: nat)
    requires a <= b <= |s|
  {
    forall k | a <= k < b :: IsDigit(s[k])
  }

  /** Every character of `s[a..b]` is whitespace. */
  predicate SpacesIn(s: string, a: nat, b: nat)
    requires a <= b <= |s|
  {
    forall k | a <= k < b :: IsSpace(s[k])
  }

  /** `\d{2}\.\d{2}` at position `i`. */
  predicate DayMonthAt(s: string, i: nat) {
    i + 5 <= |s| && IsDigit(s[i]) && IsDigit(s[i + 1]) && s[i + 2] == '.' && IsDigit(s[i + 3]) && IsDigit(s[i + 4])
  }

  /**
   * The first group, `\d{2}\.\d{2}\.?(?:\d{4})?`, as `s[i..i+n]`: the dot and the
   * year are optional independently, so `n` is 5, 6, 9 or 10.
   */
  predicate StartTokenAt(s: string, i: nat, n: nat) {
    i + n <= |s| && DayMonthAt(s, i) &&
    (n == 5 ||
     (n == 6 && s[i + 5] == '.') ||
     (n == 9 && DigitsIn(s, i + 5, i + 9)) ||
     (n == 10 && s[i + 5] == '.' && DigitsIn(s, i + 6, i + 10)))
  }

  /** The second group, `\d{2}\.\d{2}\.\d{4}`, as `s[i..i+10]`. */
  predicate EndTokenAt(s: string, i: nat) {
    i + 10 <= |s| && DayMonthAt(s, i) && s[i + 5] == '.' && DigitsIn(s, i + 6, i + 10)
  }

  /** A whole string that the first group matches. */
  predicate IsStartToken(t: string) { StartTokenAt(t, 0, |t|) }

  /** A whole string that the second group matches. */
  predicate IsEndToken(t: string) { |t| == 10 && EndTokenAt(t, 0) }

  /**
   * A candidate match: it starts at `at`, its first group is `startLen` characters
   * long, `gap1` whitespace characters precede the hyphen and `gap2` follow it.
   */
  datatype Hit = Hit(at: nat, startLen: nat, gap1: nat, gap2: nat) {
    /** Position of the hyphen. */
    function Dash(): nat { at + startLen + gap1 }
    /** Position of the second group. */
    function EndAt(): nat { Dash() + 1 + gap2 }
    /** Position just after the match. */
    function Stop(): nat { EndAt() + 10 }
  }

  /** The whole expression matches `s` at `h.at`, split as `h` says. */
  predicate IsHit(s: string, h: Hit) {
    h.Stop() <= |s| &&
    StartTokenAt(s, h.at, h.startLen) &&
    SpacesIn(s, h.at + h.startLen, h.Dash()) &&
    s[h.Dash()] == '-' &&
    SpacesIn(s, h.Dash() + 1, h.EndAt()) &&
    EndTokenAt(s, h.EndAt())
  }

  /** The match that a leftmost search reports: no match starts earlier. */
  ghost predicate IsFirstHit(s: string, h: Hit) {
    IsHit(s, h) && forall h' :: IsHit(s, h') ==> h.at <= h'.at
  }

  /** The first group of a match. */
  function StartText(s: string, h: Hit): (t: string)
    requires IsHit(s, h)
    ensures IsStartToken(t) && 5 <= |t| <= 10
  {
    var t := s[h.at .. h.at + h.startLen];
    assert forall k | 0 <= k < |t| :: t[k] == s[h.at + k];
    t
  }

  /** The second group of a match. */
  function EndText(s: string, h: Hit): (t: string)
    requires IsHit(s, h)
    ensures IsEndToken(t)
  {
    var t := s[h.EndAt() .. h.Stop()];
    assert forall k | 0 <= k < |t| :: t[k] == s[h.EndAt() + k];
    t
  }

  /** A match is one contiguous piece of the text: first group, blanks, hyphen, blanks, second group. */
  lemma MatchIsContiguous(s: string, h: Hit)
    requires IsHit(s, h)
    ensures s[h.at .. h.Stop()]
         == StartText(s, h) + s[h.at + h.startLen .. h.Dash()] + "-" + s[h.Dash() + 1 .. h.EndAt()] + EndText(s, h)
  {
    var a, b, c, d, e := h.at + h.startLen, h.Dash(), h.Dash() + 1, h.EndAt(), h.Stop();
    SliceSplit(s, h.at, d, e);
    SliceSplit(s, h.at, c, d);
    SliceSplit(s, h.at, b, c);
    SliceSplit(s, h.at, a, b);
    assert s[b .. c] == "-";
  }

  // ----- computing the match at one position --------------------------------

  /** The length of the first group at `i` when `\.?` and `(?:\d{4})?` each take what they can. */
  function StartLenAt(s: string, i: nat): (n: nat)
    requires DayMonthAt(s, i)
    ensures StartTokenAt(s, i, n)
  {
    if i + 5 < |s| && s[i + 5] == '.' then
      (if i + 10 <= |s| && DigitsIn(s, i + 6, i + 10) then 10 else 6)
    else if i + 9 <= |s| && DigitsIn(s, i + 5, i + 9) then 9
    else 5
  }

  /** The length of the longest run of whitespace starting at `j` (a greedy `\s*`). */
  function SpaceRun(s: string, j: nat): (n: nat)
    requires j <= |s|
    ensures j + n <= |s| && SpacesIn(s, j, j + n)
    ensures j + n == |s| || !IsSpace(s[j + n])
    decreases |s| - j
  {
    if j < |s| && IsSpace(s[j]) then 1 + SpaceRun(s, j + 1) else 0
  }

  /** A first group followed by a blank or a hyphen is the one the greedy quantifiers take. */
  lemma StartLenExact(s: string, i: nat, n: nat)
    requires StartTokenAt(s, i, n) && i + n < |s| && (s[i + n] == '-' || IsSpace(s[i + n]))
    ensures StartLenAt(s, i) == n
  {
  }

  /** A whitespace run followed by a non-whitespace character is the longest run there. */
  lemma {:induction false} SpaceRunExact(s: string, j: nat, g: nat)
    requires j + g < |s| && SpacesIn(s, j, j + g) && !IsSpace(s[j + g])
    ensures SpaceRun(s, j) == g
    decreases g
  {
    if g > 0 {
      SpaceRunExact(s, j + 1, g - 1);
    }
  }

  /** The match that starts at position `i`, if any. */
  function HitAt(s: string, i: nat): (r: Option<Hit>)
    ensures r.Some? ==> r.value.at == i && IsHit(s, r.value)
  {
    if !DayMonthAt(s, i) then None
    else
      var n := StartLenAt(s, i);
      var g1 := SpaceRun(s, i + n);
      var dash := i + n + g1;
      if dash < |s| && s[dash] == '-' then
        var h := Hit(i, n, g1, SpaceRun(s, dash + 1));
        if EndTokenAt(s, h.EndAt()) then Some(h) else None
      else None
  }

  /**
   * Every match is the one `HitAt` computes at its position.  In particular at most
   * one split matches at any position, whatever order the alternatives are tried in.
   */
  lemma HitAtComplete(s: string, h: Hit)
    requires IsHit(s, h)
    ensures HitAt(s, h.at) == Some(h)
  {
    var next := h.at + h.startLen;
    // the character right after the first group is a blank or the hyphen, never a digit or a dot
    assert s[next] == '-' || IsSpace(s[next]);
    StartLenExact(s, h.at, h.startLen);
    SpaceRunExact(s, next, h.gap1);
    SpaceRunExact(s, h.Dash() + 1, h.gap2);
    HitAtOfRuns(s, h.at, next, h.Dash(), h.EndAt());
  }

  /**
   * `HitAt` in terms of where the first group ends (`p`), where the hyphen is (`q`)
   * and where the second group would start (`e`).
   */
  lemma HitAtOfRuns(s: string, i: nat, p: nat, q: nat, e: nat)
    requires DayMonthAt(s, i) && p == i + StartLenAt(s, i)
    requires q == p + SpaceRun(s, p) && q < |s| && s[q] == '-'
    requires e == q + 1 + SpaceRun(s, q + 1)
    ensures HitAt(s, i) == if EndTokenAt(s, e) then Some(Hit(i, p - i, q - p, e - q - 1)) else None
  {
  }

  /** Where `HitAt` finds nothing, no match starts. */
  lemma NoHitAt(s: string, i: nat)
    requires HitAt(s, i).None?
    ensures forall h :: IsHit(s, h) ==> h.at != i
  {
    forall h | IsHit(s, h) ensures h.at != i {
      HitAtComplete(s, h);
    }
  }

  // ----- the search --------------------------------------------------------------

  /** The leftmost match starting at `i` or later (Python's `re.search` from `i`). */
  function FirstHitFrom(s: string, i: nat): (r: Option<Hit>)
    ensures r.Some? ==> i <= r.value.at && IsHit(s, r.value)
    ensures forall h :: IsHit(s, h) && i <= h.at ==> r.Some? && r.value.at <= h.at
    decreases |s| - i
  {
    if i >= |s| then None
    else match HitAt(s, i)
      case Some(h) => Some(h)
      case None => NoHitAt(s, i); FirstHitFrom(s, i + 1)
  }

  /**
   * `__parser_date`: the two groups of the leftmost match, or two empty strings.
   * Both results are empty exactly when nothing matches; otherwise they are the
   * groups of the leftmost match, a start date of 5 to 10 characters and an end
   * date of exactly 10.
   */
  function ParseDateRange(s: string): (r: (string, string))
    ensures (r.0 == "") == (r.1 == "")
    ensures r.0 == "" <==> forall h :: !IsHit(s, h)
    ensures r.0 != "" ==> IsStartToken(r.0) && IsEndToken(r.1)
    ensures r.0 != "" ==> exists h :: IsFirstHit(s, h) && r.0 == StartText(s, h) && r.1 == EndText(s, h)
  {
    match FirstHitFrom(s, 0)
    case None => ("", "")
    case Some(h) => (StartText(s, h), EndText(s, h))
  }

  /** The search result is decided by the leftmost match alone. */
  lemma ParseDateRangeOfFirstHit(s: string, h: Hit)
    requires IsFirstHit(s, h)
    ensures ParseDateRange(s) == (StartText(s, h), EndText(s, h))
  {
    var r := FirstHitFrom(s, 0);
    assert r.Some? && r.value.at == h.at;
    HitAtComplete(s, r.value);
    HitAtComplete(s, h);
  }

  /** A match keeps its groups when text is put after it. */
  lemma HitExtend(t: string, w: string, h: Hit)
    requires IsHit(t, h)
    ensures IsHit(t + w, h)
    ensures StartText(t + w, h) == StartText(t, h) && EndText(t + w, h) == EndText(t, h)
  {
    var s := t + w;
    assert forall k | 0 <= k < |t| :: s[k] == t[k];
    assert IsHit(s, h);
    assert s[h.at .. h.at + h.startLen] == t[h.at .. h.at + h.startLen];
    assert s[h.EndAt() .. h.Stop()] == t[h.EndAt() .. h.Stop()];
  }

  /** Putting text in front keeps a day-and-month, moved along by that text's length. */
  lemma DayMonthShift(u: string, t: string, i: nat)
    requires DayMonthAt(t, i)
    ensures DayMonthAt(u + t, |u| + i)
  {
    var s := u + t;
    assert s[|u| + i] == t[i] && s[|u| + i + 1] == t[i + 1] && s[|u| + i + 2] == t[i + 2];
    assert s[|u| + i + 3] == t[i + 3] && s[|u| + i + 4] == t[i + 4];
  }

  /** Putting text in front keeps a run of digits. */
  lemma DigitsShift(u: string, t: string, a: nat, b: nat)
    requires a <= b <= |t| && DigitsIn(t, a, b)
    ensures DigitsIn(u + t, |u| + a, |u| + b)
  {
    var s := u + t;
    forall k | |u| + a <= k < |u| + b ensures IsDigit(s[k]) {
      assert s[k] == t[k - |u|];
    }
  }

  /** Putting text in front keeps a run of whitespace. */
  lemma SpacesShift(u: string, t: string, a: nat, b: nat)
    requires a <= b <= |t| && SpacesIn(t, a, b)
    ensures SpacesIn(u + t, |u| + a, |u| + b)
  {
    var s := u + t;
    forall k | |u| + a <= k < |u| + b ensures IsSpace(s[k]) {
      assert s[k] == t[k - |u|];
    }
  }

  /** Putting text in front keeps a first group. */
  lemma StartTokenShift(u: string, t: string, i: nat, n: nat)
    requires StartTokenAt(t, i, n)
    ensures StartTokenAt(u + t, |u| + i, n)
  {
    DayMonthShift(u, t, i);
    if n == 9 {
      DigitsShift(u, t, i + 5, i + 9);
    } else if n == 10 {
      DigitsShift(u, t, i + 6, i + 10);
    }
    assert n == 6 || n == 10 ==> (u + t)[|u| + i + 5] == t[i + 5];
  }

  /** Putting text in front keeps a second group. */
  lemma EndTokenShift(u: string, t: string, i: nat)
    requires EndTokenAt(t, i)
    ensures EndTokenAt(u + t, |u| + i)
  {
    DayMonthShift(u, t, i);
    DigitsShift(u, t, i + 6, i + 10);
    assert (u + t)[|u| + i + 5] == t[i + 5];
  }

  /** A match stays a match when text is put in front of it; it moves along by that text's length. */
  lemma HitShift(u: string, t: string, h: Hit)
    requires IsHit(t, h)
    ensures IsHit(u + t, h.(at := |u| + h.at))
  {
    var s, g := u + t, h.(at := |u| + h.at);
    StartTokenShift(u, t, h.at, h.startLen);
    SpacesShift(u, t, h.at + h.startLen, h.Dash());
    assert s[g.Dash()] == t[h.Dash()];
    SpacesShift(u, t, h.Dash() + 1, h.EndAt());
    EndTokenShift(u, t, h.EndAt());
  }

  /** A piece of the text is the same piece of the text with something put in front, further along. */
  lemma SliceShift(u: string, t: string, a: nat, b: nat)
    requires a <= b <= |t|
    ensures (u + t)[|u| + a .. |u| + b] == t[a .. b]
  {
    var piece := (u + t)[|u| + a .. |u| + b];
    assert forall k | 0 <= k < |piece| :: piece[k] == t[a + k];
  }

  /** Cutting a piece of text in two. */
  lemma SliceSplit(s: string, a: nat, b: nat, c: nat)
    requires a <= b <= c <= |s|
    ensures s[a .. c] == s[a .. b] + s[b .. c]
  {
    assert forall k | 0 <= k < c - a :: s[a .. c][k] == s[a + k];
  }

  /** A match keeps its groups when text is put in front of it; it moves along by that text's length. */
  lemma HitShiftTexts(u: string, t: string, h: Hit)
    requires IsHit(t, h)
    ensures IsHit(u + t, h.(at := |u| + h.at))
    ensures StartText(u + t, h.(at := |u| + h.at)) == StartText(t, h)
    ensures EndText(u + t, h.(at := |u| + h.at)) == EndText(t, h)
  {
    HitShift(u, t, h);
    SliceShift(u, t, h.at, h.at + h.startLen);
    SliceShift(u, t, h.EndAt(), h.Stop());
  }

  /** No match starts inside text without digits. */
  lemma NoHitInProse(u: string, t: string)
    requires forall k | 0 <= k < |u| :: !IsDigit(u[k])
    ensures forall g :: IsHit(u + t, g) ==> |u| <= g.at
  {
    var s := u + t;
    assert forall k | 0 <= k < |u| :: s[k] == u[k];
  }

  /** `\s*-\s*` as the whole of `m`: `g1` blanks, the hyphen, then blanks to the end. */
  predicate IsDashGap(m: string, g1: nat) {
    g1 < |m| && m[g1] == '-' && SpacesIn(m, 0, g1) && SpacesIn(m, g1 + 1, |m|)
  }

  /** A first group, a hyphen between blanks and a second group, written one after another, form a match. */
  lemma HitOfParts(a: string, m: string, b: string, g1: nat)
    requires IsStartToken(a) && IsDashGap(m, g1) && IsEndToken(b)
    ensures IsHit(a + m + b, Hit(0, |a|, g1, |m| - g1 - 1))
    ensures StartText(a + m + b, Hit(0, |a|, g1, |m| - g1 - 1)) == a
    ensures EndText(a + m + b, Hit(0, |a|, g1, |m| - g1 - 1)) == b
  {
    var am := a + m;
    var t, h := am + b, Hit(0, |a|, g1, |m| - g1 - 1);
    assert forall k | 0 <= k < |am| :: t[k] == am[k];
    assert forall k | 0 <= k < |a| :: am[k] == a[k];
    assert StartTokenAt(t, 0, |a|);
    SpacesShift(a, m, 0, g1);
    SpacesShift(a, m, g1 + 1, |m|);
    assert am[|a| + g1] == m[g1];
    EndTokenShift(am, b, 0);
    assert IsHit(t, h);
    assert t[0 .. |a|] == a;
    SliceShift(am, b, 0, |b|);
    assert b[0 .. |b|] == b;
  }

  /**
   * Text without digits, then a first group, a hyphen between blanks and a second
   * group, then anything at all: the parser returns the two groups.  What follows
   * the second group, even a digit or a second range, plays no part.
   */
  lemma ParseDateRangeOfParts(u: string, a: string, m: string, b: string, w: string, g1: nat)
    requires forall k | 0 <= k < |u| :: !IsDigit(u[k])
    requires IsStartToken(a) && IsDashGap(m, g1) && IsEndToken(b)
    ensures ParseDateRange(u + (a + m + b + w)) == (a, b)
  {
    var t, h := a + m + b, Hit(0, |a|, g1, |m| - g1 - 1);
    HitOfParts(a, m, b, g1);
    HitExtend(t, w, h);
    HitShiftTexts(u, t + w, h);
    NoHitInProse(u, t + w);
    ParseDateRangeOfFirstHit(u + (t + w), h.(at := |u|));
  }

  /** A start date without a year, in running text: the groups come back verbatim. */
  lemma ExampleStartWithoutYear(s: string)
    requires s == "Angebote 01.03 - 07.03.2024"
    ensures ParseDateRange(s) == ("01.03", "07.03.2024")
  {
    var u, a, m, b := "Angebote ", "01.03", " - ", "07.03.2024";
    assert s == u + (a + m + b + "");
    assert forall k | 0 <= k < |u| :: !IsDigit(u[k]);
    assert IsStartToken(a) && IsDashGap(m, 1) && IsEndToken(b);
    ParseDateRangeOfParts(u, a, m, b, "", 1);
  }

  /** The second group is not anchored on the right: a fifth year digit is left behind. */
  lemma ExampleTrailingDigit(s: string)
    requires s == "01.03.2024-07.03.20245"
    ensures ParseDateRange(s) == ("01.03.2024", "07.03.2024")
  {
    var a, m, b := "01.03.2024", "-", "07.03.2024";
    assert s == "" + (a + m + b + "5");
    assert IsStartToken(a) && IsDashGap(m, 0) && IsEndToken(b);
    ParseDateRangeOfParts("", a, m, b, "5", 0);
  }

  /** The optional dot may be taken without a year, leaving a first group that ends in a dot. */
  lemma ExampleBareDot(s: string)
    requires s == "01.03. - 07.03.2024"
    ensures ParseDateRange(s) == ("01.03.", "07.03.2024")
  {
    var a, m, b := "01.03.", " - ", "07.03.2024";
    assert s == "" + (a + m + b + "");
    assert IsStartToken(a) && IsDashGap(m, 1) && IsEndToken(b);
    ParseDateRangeOfParts("", a, m, b, "", 1);
  }

  /** Of two ranges only the first is reported. */
  lemma ExampleTwoRanges(s: string)
    requires s == "01.03-07.03.2024 08.03-14.03.2024"
    ensures ParseDateRange(s) == ("01.03", "07.03.2024")
  {
    var a, m, b := "01.03", "-", "07.03.2024";
    assert s == "" + (a + m + b + " 08.03-14.03.2024");
    assert IsStartToken(a) && IsDashGap(m, 0) && IsEndToken(b);
    ParseDateRangeOfParts("", a, m, b, " 08.03-14.03.2024", 0);
  }

  /** Text without a range gives two empty strings rather than a failure. */
  lemma ExampleNoRange(s: string)
    requires s == "Angebote 01.03.2024"
    ensures ParseDateRange(s) == ("", "")
  {
    // the only digits start at 9, and a match needs 16 characters
    assert forall k | 0 <= k < 9 :: !IsDigit(s[k]);
    assert forall h :: IsHit(s, h) ==> 9 <= h.at && h.at + 16 <= |s| == 19;
  }

  // ----- the scanner -------------------------------------------------------------

  /** Skips a greedy `\s*`: returns the end of the longest whitespace run from `j`. */
  method SkipSpaces(s: string, j: nat) returns (k: nat)
    requires j <= |s|
    ensures j <= k <= |s| && SpacesIn(s, j, k)
    ensures k == |s| || !IsSpace(s[k])
  {
    k := j;
    while k < |s| && IsSpace(s[k])
      invariant j <= k <= |s|
      invariant SpacesIn(s, j, k)
      decreases |s| - k
    {
      k := k + 1;
    }
  }

  /** Consumes the first group after `\d{2}\.\d{2}`: the dot if there is one, then a year if there is one. */
  method MatchStartToken(s: string, i: nat) returns (p: nat)
    requires DayMonthAt(s, i)
    ensures p == i + StartLenAt(s, i)
  {
    p := i + 5;
    if p < |s| && s[p] == '.' {
      p := p + 1;
    }
    if p + 4 <= |s| && DigitsIn(s, p, p + 4) {
      p := p + 4;
    }
  }

  /** Tries the expression at position `i`, consuming greedily. */
  method MatchAt(s: string, i: nat) returns (h: Option<Hit>)
    ensures h == HitAt(s, i)
  {
    if !DayMonthAt(s, i) {
      return None;
    }
    var p := MatchStartToken(s, i);
    var q := SkipSpaces(s, p);
    if q == |s| || s[q] != '-' {
      return None;
    }
    SpaceRunExact(s, p, q - p);
    var e := SkipSpaces(s, q + 1);
    if e == |s| {
      return None;
    }
    SpaceRunExact(s, q + 1, e - q - 1);
    var candidate := Hit(i, p - i, q - p, e - q - 1);
    assert candidate.EndAt() == e;
    HitAtOfRuns(s, i, p, q, e);
    if EndTokenAt(s, e) {
      h := Some(candidate);
    } else {
      h := None;
    }
  }

  /** The leftmost search, position by position, as `re.search` performs it. */
  method ScanDateRange(s: string) returns (start: string, end: string)
    ensures (start, end) == ParseDateRange(s)
  {
    var i := 0;
    while i < |s|
      invariant 0 <= i <= |s|
      invariant FirstHitFrom(s, i) == FirstHitFrom(s, 0)
    {
      var h := MatchAt(s, i);
      if h.Some? {
        return StartText(s, h.value), EndText(s, h.value);
      }
      i := i + 1;
    }
    return "", "";
  }
}
