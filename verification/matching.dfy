/** Disambiguation among listed transactions: `findClosestMatch` scores
    every candidate line against the user's reply by shared words, shared
    numbers and shared `dd-dd-dd` dates, and keeps the best one. */
module Matching {
  import opened Foundation
  import opened Text

  /** The pieces that are not empty, in order. */
  function NonEmpty(pieces: seq<string>): (r: seq<string>)
    ensures |r| <= |pieces|
    ensures forall k :: 0 <= k < |r| ==> r[k] != [] && r[k] in pieces
    ensures (forall k :: 0 <= k < |pieces| ==> pieces[k] != []) ==> r == pieces
    ensures forall w :: w != [] ==> multiset(r)[w] == multiset(pieces)[w]
    decreases |pieces|
  {
    if pieces == [] then []
    else
      assert pieces == [pieces[0]] + pieces[1..];
      if pieces[0] == [] then NonEmpty(pieces[1..])
      else [pieces[0]] + NonEmpty(pieces[1..])
  }

  /** Filtering a concatenation filters each part in place, so the kept
      pieces stay in their order. */
  lemma {:induction false} NonEmptyAppend(a: seq<string>, b: seq<string>)
    ensures NonEmpty(a + b) == NonEmpty(a) + NonEmpty(b)
    decreases |a|
  {
    if a == [] {
      assert a + b == b;
    } else {
      assert (a + b)[0] == a[0];
      assert (a + b)[1..] == a[1..] + b;
      NonEmptyAppend(a[1..], b);
    }
  }

  /** `split(separator: " ")`: the space-separated words, empty ones omitted. */
  function Words(s: string): (r: seq<string>)
    ensures forall k :: 0 <= k < |r| ==> r[k] != [] && ' ' !in r[k]
    ensures forall w :: w != [] ==> multiset(r)[w] == multiset(SplitOn(s, ' '))[w]
  {
    NonEmpty(SplitOn(s, ' '))
  }

  /** Splitting into words undoes joining non-empty, space-free words with
      single spaces. */
  lemma WordsOfJoin(words: seq<string>)
    requires words != []
    requires forall k :: 0 <= k < |words| ==> words[k] != [] && ' ' !in words[k]
    ensures Words(Join(words, " ")) == words
  {
    SplitJoin(words, ' ');
  }

  predicate IsDigit(c: char) {
    '0' <= c <= '9'
  }

  /** A non-empty run of digits. */
  predicate IsDigits(d: string) {
    d != [] && forall k :: 0 <= k < |d| ==> IsDigit(d[k])
  }

  /** Text of the shape `\d+(\.\d+)?`. */
  predicate IsNumeral(m: string) {
    || IsDigits(m)
    || exists k | 0 < k < |m| :: m[k] == '.' && IsDigits(m[..k]) && IsDigits(m[k + 1..])
  }

  /** Text of the shape `\d{2}-\d{2}-\d{2}`. */
  predicate IsShortDate(m: string) {
    && |m| == 8
    && IsDigit(m[0]) && IsDigit(m[1]) && m[2] == '-'
    && IsDigit(m[3]) && IsDigit(m[4]) && m[5] == '-'
    && IsDigit(m[6]) && IsDigit(m[7])
  }

  /** End of the longest run of digits starting at `i`. */
  function DigitRunEnd(s: string, i: nat): (j: nat)
    requires i <= |s|
    ensures i <= j <= |s|
    ensures forall k :: i <= k < j ==> IsDigit(s[k])
    ensures j < |s| ==> !IsDigit(s[j])
    decreases |s| - i
  {
    if i < |s| && IsDigit(s[i]) then DigitRunEnd(s, i + 1) else i
  }

  /** End of the greedy `\d+(\.\d+)?` match that starts at the digit `s[i]`:
      the whole digit run, extended by a '.' and a second digit run when
      a digit follows the '.'. No numeral starting at `i` is longer. */
  function NumeralEnd(s: string, i: nat): (j: nat)
    requires i < |s| && IsDigit(s[i])
    ensures i < j <= |s|
    ensures IsNumeral(s[i..j])
    ensures j < |s| ==> !IsDigit(s[j])
    ensures forall e :: j < e <= |s| ==> !IsNumeral(s[i..e])
  {
    var e := DigitRunEnd(s, i);
    if e + 1 < |s| && s[e] == '.' && IsDigit(s[e + 1]) then
      var j := DigitRunEnd(s, e + 1);
      assert s[i..j][..e - i] == s[i..e];
      assert s[i..j][e - i + 1..] == s[e + 1..j];
      assert s[i..j][e - i] == '.';
      assert forall e' | j < e' <= |s| :: !IsNumeral(s[i..e']) by {
        forall e' | j < e' <= |s| ensures !IsNumeral(s[i..e']) {
          NoLongerNumeral(s, i, j, e');
        }
      }
      j
    else
      assert IsDigits(s[i..e]);
      assert forall e' | e < e' <= |s| :: !IsNumeral(s[i..e']) by {
        forall e' | e < e' <= |s| ensures !IsNumeral(s[i..e']) {
          NoLongerNumeral(s, i, e, e');
        }
      }
      e
  }

  /** A numeral starting at the digit `s[i]` cannot run past a non-digit
      `s[j]` at or after the end of the first digit run, unless that
      non-digit is the '.' right after the run and a digit follows it. */
  lemma NoLongerNumeral(s: string, i: nat, j: nat, e: nat)
    requires i < |s| && IsDigit(s[i])
    requires DigitRunEnd(s, i) <= j < e <= |s|
    requires !IsDigit(s[j])
    requires j == DigitRunEnd(s, i) && j + 1 < |s| ==> !(s[j] == '.' && IsDigit(s[j + 1]))
    ensures !IsNumeral(s[i..e])
  {
    var run := DigitRunEnd(s, i);
    var m := s[i..e];
    assert !IsDigits(m) by {
      assert m[j - i] == s[j];
    }
    forall k | 0 < k < |m| && m[k] == '.' && IsDigits(m[..k])
      ensures !IsDigits(m[k + 1..])
    {
      var d := i + k;
      forall q | i <= q < d ensures IsDigit(s[q]) {
        assert m[..k][q - i] == s[q];
      }
      DigitRunEndAt(s, i, d);
      if j == run {
        assert |m[k + 1..]| > 0 ==> m[k + 1..][0] == s[run + 1];
      } else {
        assert m[k + 1..][j - run - 1] == s[j];
      }
    }
  }

  /** The run of digits from `i` ends at the first non-digit. */
  lemma {:induction false} DigitRunEndAt(s: string, i: nat, d: nat)
    requires i <= d < |s| && !IsDigit(s[d])
    requires forall q :: i <= q < d ==> IsDigit(s[q])
    ensures DigitRunEnd(s, i) == d
    decreases d - i
  {
    if i < d {
      DigitRunEndAt(s, i + 1, d);
    }
  }

  /** A numeral begins with a digit. */
  lemma NumeralLeadingDigit(m: string)
    requires IsNumeral(m)
    ensures IsDigit(m[0])
  {
    if !IsDigits(m) {
      var k :| 0 < k < |m| && m[k] == '.' && IsDigits(m[..k]) && IsDigits(m[k + 1..]);
      assert m[..k][0] == m[0];
    }
  }

  /** Where the `\d+(\.\d+)?` matches of `s` from position `i` on lie, as
      (start, end) pairs: the greedy match at the first digit, then the
      matches after it. */
  function NumeralSpans(s: string, i: nat): (r: seq<(nat, nat)>)
    requires i <= |s|
    ensures InOrder(s, i, r)
    ensures forall k :: 0 <= k < |r| ==> IsDigit(s[r[k].0])
    decreases |s| - i
  {
    if i == |s| then []
    else if IsDigit(s[i]) then
      var j := NumeralEnd(s, i);
      [(i, j)] + NumeralSpans(s, j)
    else
      NumeralSpans(s, i + 1)
  }

  /** True when a `\d{2}-\d{2}-\d{2}` match starts at `i`. */
  predicate ShortDateAt(s: string, i: nat) {
    i + 8 <= |s| && IsShortDate(s[i..i + 8])
  }

  /** Where the `\d{2}-\d{2}-\d{2}` matches of `s` from position `i` on
      lie: the first window of that shape, then the matches after it. */
  function ShortDateSpans(s: string, i: nat): (r: seq<(nat, nat)>)
    requires i <= |s|
    ensures InOrder(s, i, r)
    ensures forall k :: 0 <= k < |r| ==> r[k].1 == r[k].0 + 8 && ShortDateAt(s, r[k].0)
    decreases |s| - i
  {
    if i + 8 > |s| then []
    else if ShortDateAt(s, i) then
      [(i, i + 8)] + ShortDateSpans(s, i + 8)
    else
      ShortDateSpans(s, i + 1)
  }

  /** The pieces of `s` between the two positions of each span. */
  function Slices(s: string, spans: seq<(nat, nat)>): (r: seq<string>)
    requires forall k :: 0 <= k < |spans| ==> spans[k].0 <= spans[k].1 <= |s|
    ensures |r| == |spans|
  {
    seq(|spans|, k requires 0 <= k < |spans| => s[spans[k].0..spans[k].1])
  }

  /** The spans are non-empty, lie in `s` from position `i` on, and come
      in increasing order without overlap. */
  ghost predicate InOrder(s: string, i: nat, spans: seq<(nat, nat)>) {
    && (forall k :: 0 <= k < |spans| ==> i <= spans[k].0 < spans[k].1 <= |s|)
    && (forall k, l :: 0 <= k < l < |spans| ==> spans[k].1 <= spans[l].0)
  }

  /** Where the stretch of text before span `k` begins: at `i` for the
      first span, at the end of span `k - 1` otherwise. */
  function GapStart(i: nat, spans: seq<(nat, nat)>, k: nat): (r: nat)
    requires k <= |spans|
  {
    if k == 0 then i else spans[k - 1].1
  }

  /** Where the stretch of text before span `k` ends: at the start of
      span `k`, or at the end of `s` after the last span. */
  function GapEnd(s: string, spans: seq<(nat, nat)>, k: nat): (r: nat)
    requires k <= |spans|
  {
    if k == |spans| then |s| else spans[k].0
  }

  /** What a left-to-right, non-overlapping search for `\d+(\.\d+)?`
      finds in `s` from `i` on: numerals, each as long as it can be, in
      order, and no digit in the stretches before, between or after them. */
  ghost predicate IsNumeralScan(s: string, i: nat, spans: seq<(nat, nat)>) {
    && InOrder(s, i, spans)
    && (forall k :: 0 <= k < |spans| ==> IsNumeral(s[spans[k].0..spans[k].1]))
    && (forall k, e :: 0 <= k < |spans| && spans[k].1 < e <= |s| ==> !IsNumeral(s[spans[k].0..e]))
    && (forall k, p :: 0 <= k <= |spans| && GapStart(i, spans, k) <= p < GapEnd(s, spans, k) ==> !IsDigit(s[p]))
  }

  /** What a left-to-right, non-overlapping search for `\d{2}-\d{2}-\d{2}`
      finds in `s` from `i` on: windows of that shape, in order, and no
      such window starting in the stretches before, between or after them. */
  ghost predicate IsShortDateScan(s: string, i: nat, spans: seq<(nat, nat)>) {
    && InOrder(s, i, spans)
    && (forall k :: 0 <= k < |spans| ==> spans[k].1 == spans[k].0 + 8 && ShortDateAt(s, spans[k].0))
    && (forall k, p: nat :: 0 <= k <= |spans| && GapStart(i, spans, k) <= p < GapEnd(s, spans, k) ==> !ShortDateAt(s, p))
  }

  /** The spans `NumeralSpans` computes are the search's result. */
  lemma {:induction false} NumeralSpansScan(s: string, i: nat)
    requires i <= |s|
    ensures IsNumeralScan(s, i, NumeralSpans(s, i))
    decreases |s| - i
  {
    if i < |s| {
      if IsDigit(s[i]) {
        var j := NumeralEnd(s, i);
        NumeralSpansScan(s, j);
        NumeralScanCons(s, i, j, NumeralSpans(s, j));
      } else {
        NumeralSpansScan(s, i + 1);
        NumeralScanSkip(s, i, NumeralSpans(s, i + 1));
      }
    }
  }

  /** A longest numeral at `i` followed by the search from its end is the
      search from `i`. */
  lemma NumeralScanCons(s: string, i: nat, j: nat, rest: seq<(nat, nat)>)
    requires i < j <= |s| && IsNumeral(s[i..j])
    requires forall e :: j < e <= |s| ==> !IsNumeral(s[i..e])
    requires IsNumeralScan(s, j, rest)
    ensures IsNumeralScan(s, i, [(i, j)] + rest)
  {
    var r := [(i, j)] + rest;
    forall k, p | 1 <= k <= |r| && GapStart(i, r, k) <= p < GapEnd(s, r, k) ensures !IsDigit(s[p]) {
      assert GapStart(j, rest, k - 1) == GapStart(i, r, k);
      assert GapEnd(s, rest, k - 1) == GapEnd(s, r, k);
    }
  }

  /** A non-digit at `i` followed by the search from `i + 1` is the
      search from `i`. */
  lemma NumeralScanSkip(s: string, i: nat, rest: seq<(nat, nat)>)
    requires i < |s| && !IsDigit(s[i])
    requires IsNumeralScan(s, i + 1, rest)
    ensures IsNumeralScan(s, i, rest)
  {
    forall k, p | 0 <= k <= |rest| && GapStart(i, rest, k) <= p < GapEnd(s, rest, k) ensures !IsDigit(s[p]) {
      assert p == i || GapStart(i + 1, rest, k) <= p;
    }
  }

  /** The spans `ShortDateSpans` computes are the search's result. */
  lemma {:induction false} ShortDateSpansScan(s: string, i: nat)
    requires i <= |s|
    ensures IsShortDateScan(s, i, ShortDateSpans(s, i))
    decreases |s| - i
  {
    if i + 8 <= |s| {
      if ShortDateAt(s, i) {
        ShortDateSpansScan(s, i + 8);
        ShortDateScanCons(s, i, ShortDateSpans(s, i + 8));
      } else {
        ShortDateSpansScan(s, i + 1);
        ShortDateScanSkip(s, i, ShortDateSpans(s, i + 1));
      }
    }
  }

  /** A date window at `i` followed by the search from its end is the
      search from `i`. */
  lemma ShortDateScanCons(s: string, i: nat, rest: seq<(nat, nat)>)
    requires ShortDateAt(s, i)
    requires IsShortDateScan(s, i + 8, rest)
    ensures IsShortDateScan(s, i, [(i, i + 8)] + rest)
  {
    var r := [(i, i + 8)] + rest;
    forall k, p: nat | 1 <= k <= |r| && GapStart(i, r, k) <= p < GapEnd(s, r, k) ensures !ShortDateAt(s, p) {
      assert GapStart(i + 8, rest, k - 1) == GapStart(i, r, k);
      assert GapEnd(s, rest, k - 1) == GapEnd(s, r, k);
    }
  }

  /** No date window at `i`, followed by the search from `i + 1`, is the
      search from `i`. */
  lemma ShortDateScanSkip(s: string, i: nat, rest: seq<(nat, nat)>)
    requires i < |s| && !ShortDateAt(s, i)
    requires IsShortDateScan(s, i + 1, rest)
    ensures IsShortDateScan(s, i, rest)
  {
    forall k, p: nat | 0 <= k <= |rest| && GapStart(i, rest, k) <= p < GapEnd(s, rest, k) ensures !ShortDateAt(s, p) {
      assert p == i || GapStart(i + 1, rest, k) <= p;
    }
  }

  /** Dropping the first match of a numeral search leaves the search from
      the end of that match. */
  lemma NumeralScanTail(s: string, i: nat, spans: seq<(nat, nat)>)
    requires IsNumeralScan(s, i, spans) && spans != []
    ensures IsNumeralScan(s, spans[0].1, spans[1..])
  {
    var e, tail := spans[0].1, spans[1..];
    forall k, p | 0 <= k <= |tail| && GapStart(e, tail, k) <= p < GapEnd(s, tail, k) ensures !IsDigit(s[p]) {
      assert GapStart(e, tail, k) == GapStart(i, spans, k + 1);
      assert GapEnd(s, tail, k) == GapEnd(s, spans, k + 1);
    }
  }

  /** A numeral search that finds something forces every other one to. */
  lemma NumeralScanNonEmpty(s: string, i: nat, a: seq<(nat, nat)>, b: seq<(nat, nat)>)
    requires IsNumeralScan(s, i, a) && IsNumeralScan(s, i, b) && a != []
    ensures b != []
  {
    NumeralLeadingDigit(s[a[0].0..a[0].1]);
    assert s[a[0].0..a[0].1][0] == s[a[0].0];
    assert GapStart(i, b, 0) <= a[0].0;
  }

  /** Two numeral searches agree on their first match. */
  lemma NumeralScanHead(s: string, i: nat, a: seq<(nat, nat)>, b: seq<(nat, nat)>)
    requires IsNumeralScan(s, i, a) && IsNumeralScan(s, i, b) && a != [] && b != []
    ensures a[0] == b[0]
  {
    var x, y := a[0].0, b[0].0;
    NumeralLeadingDigit(s[x..a[0].1]);
    assert s[x..a[0].1][0] == s[x];
    NumeralLeadingDigit(s[y..b[0].1]);
    assert s[y..b[0].1][0] == s[y];
    assert GapStart(i, b, 0) <= x && GapStart(i, a, 0) <= y;
    assert x == y;
    assert IsNumeral(s[x..a[0].1]) && IsNumeral(s[x..b[0].1]);
  }

  /** The numeral search has one result: the matches are determined by
      the text. */
  lemma {:induction false} NumeralScanUnique(s: string, i: nat, a: seq<(nat, nat)>, b: seq<(nat, nat)>)
    requires IsNumeralScan(s, i, a) && IsNumeralScan(s, i, b)
    ensures a == b
    decreases |a|
  {
    if a != [] {
      NumeralScanNonEmpty(s, i, a, b);
      NumeralScanHead(s, i, a, b);
      NumeralScanTail(s, i, a);
      NumeralScanTail(s, i, b);
      NumeralScanUnique(s, a[0].1, a[1..], b[1..]);
      assert a == [a[0]] + a[1..];
      assert b == [b[0]] + b[1..];
    } else if b != [] {
      NumeralScanNonEmpty(s, i, b, a);
    }
  }

  /** Dropping the first match of a date search leaves the search from
      the end of that match. */
  lemma ShortDateScanTail(s: string, i: nat, spans: seq<(nat, nat)>)
    requires IsShortDateScan(s, i, spans) && spans != []
    ensures IsShortDateScan(s, spans[0].1, spans[1..])
  {
    var e, tail := spans[0].1, spans[1..];
    forall k, p: nat | 0 <= k <= |tail| && GapStart(e, tail, k) <= p < GapEnd(s, tail, k) ensures !ShortDateAt(s, p) {
      assert GapStart(e, tail, k) == GapStart(i, spans, k + 1);
      assert GapEnd(s, tail, k) == GapEnd(s, spans, k + 1);
    }
  }

  /** A date search that finds something forces every other one to. */
  lemma ShortDateScanNonEmpty(s: string, i: nat, a: seq<(nat, nat)>, b: seq<(nat, nat)>)
    requires IsShortDateScan(s, i, a) && IsShortDateScan(s, i, b) && a != []
    ensures b != []
  {
    assert GapStart(i, b, 0) <= a[0].0;
  }

  /** Two date searches agree on their first match. */
  lemma ShortDateScanHead(s: string, i: nat, a: seq<(nat, nat)>, b: seq<(nat, nat)>)
    requires IsShortDateScan(s, i, a) && IsShortDateScan(s, i, b) && a != [] && b != []
    ensures a[0] == b[0]
  {
    assert GapStart(i, b, 0) <= a[0].0 && GapStart(i, a, 0) <= b[0].0;
  }

  /** The date search has one result: the matches are determined by the
      text. */
  lemma {:induction false} ShortDateScanUnique(s: string, i: nat, a: seq<(nat, nat)>, b: seq<(nat, nat)>)
    requires IsShortDateScan(s, i, a) && IsShortDateScan(s, i, b)
    ensures a == b
    decreases |a|
  {
    if a != [] {
      ShortDateScanNonEmpty(s, i, a, b);
      ShortDateScanHead(s, i, a, b);
      ShortDateScanTail(s, i, a);
      ShortDateScanTail(s, i, b);
      ShortDateScanUnique(s, a[0].1, a[1..], b[1..]);
      assert a == [a[0]] + a[1..];
      assert b == [b[0]] + b[1..];
    } else if b != [] {
      ShortDateScanNonEmpty(s, i, b, a);
    }
  }

  /** The two regular expressions `calculateMatchScore` uses. */
  datatype Pattern = Numeral | ShortDate

  predicate Matches(p: Pattern, m: string) {
    match p
    case Numeral => IsNumeral(m)
    case ShortDate => IsShortDate(m)
  }

  /** The left-to-right, non-overlapping search for `p` over the whole of `s`. */
  ghost predicate IsScan(p: Pattern, s: string, spans: seq<(nat, nat)>) {
    match p
    case Numeral => IsNumeralScan(s, 0, spans)
    case ShortDate => IsShortDateScan(s, 0, spans)
  }

  /** `extractMatches`: every match of the pattern in `text`, in order. */
  function ExtractMatches(text: string, p: Pattern): (r: seq<string>)
    ensures forall k :: 0 <= k < |r| ==> Matches(p, r[k])
    ensures (forall k :: 0 <= k < |text| ==> !IsDigit(text[k])) ==> r == []
  {
    match p
    case Numeral =>
      var spans := NumeralSpans(text, 0);
      NumeralSpansScan(text, 0);
      assert spans != [] ==> IsDigit(text[spans[0].0]);
      Slices(text, spans)
    case ShortDate =>
      var spans := ShortDateSpans(text, 0);
      assert spans != [] ==> IsDigit(text[spans[0].0]) by {
        if spans != [] {
          assert text[spans[0].0..spans[0].1][0] == text[spans[0].0];
        }
      }
      Slices(text, spans)
  }

  /** Whatever the search finds, and nothing else, is what `extractMatches`
      returns: its matches are the pieces of the text the search marks out. */
  lemma ExtractMatchesIsScan(text: string, p: Pattern, spans: seq<(nat, nat)>)
    requires IsScan(p, text, spans)
    ensures ExtractMatches(text, p) == Slices(text, spans)
  {
    match p
    case Numeral =>
      NumeralSpansScan(text, 0);
      NumeralScanUnique(text, 0, spans, NumeralSpans(text, 0));
    case ShortDate =>
      ShortDateSpansScan(text, 0);
      ShortDateScanUnique(text, 0, spans, ShortDateSpans(text, 0));
  }

  /** Every match is a piece of the text it was extracted from. */
  lemma MatchesOccur(text: string, p: Pattern)
    ensures forall k :: 0 <= k < |ExtractMatches(text, p)| ==> Contains(text, ExtractMatches(text, p)[k])
  {
    var spans := match p
      case Numeral => NumeralSpans(text, 0)
      case ShortDate => ShortDateSpans(text, 0);
    assert ExtractMatches(text, p) == Slices(text, spans);
    forall k | 0 <= k < |spans| ensures Contains(text, text[spans[k].0..spans[k].1]) {
      assert text[spans[k].0..spans[k].1] <= text[spans[k].0..];
      ContainsAt(text, text[spans[k].0..spans[k].1], spans[k].0);
    }
  }

  /** `xs.filter { ys.contains($0) }.count`: the entries of `xs`, counted
      with repetition, that occur somewhere in `ys`. */
  function CountShared(xs: seq<string>, ys: seq<string>): (n: nat)
    ensures n <= |xs|
    decreases |xs|
  {
    if xs == [] then 0
    else (if xs[0] in ys then 1 else 0) + CountShared(xs[1..], ys)
  }

  /** The count is zero exactly when no entry of `xs` occurs in `ys`, and
      it is `|xs|` exactly when every entry does. */
  lemma {:induction false} CountSharedExtremes(xs: seq<string>, ys: seq<string>)
    ensures CountShared(xs, ys) == 0 <==> forall k :: 0 <= k < |xs| ==> xs[k] !in ys
    ensures CountShared(xs, ys) == |xs| <==> forall k :: 0 <= k < |xs| ==> xs[k] in ys
    decreases |xs|
  {
    if xs != [] {
      CountSharedExtremes(xs[1..], ys);
      assert forall k :: 0 < k < |xs| ==> xs[k] == xs[1..][k - 1];
    }
  }

  /** `matchPattern`: the target's matches that the element also has,
      times `weight`. */
  function MatchPattern(element: string, target: string, p: Pattern, weight: nat): (n: nat)
    ensures n <= |ExtractMatches(target, p)| * weight
  {
    var targetMatches := ExtractMatches(target, p);
    var shared := CountShared(targetMatches, ExtractMatches(element, p));
    ScaleBound(shared, |targetMatches|, weight);
    shared * weight
  }

  /** No points exactly when the weight is zero or the element has none of
      the target's matches. */
  lemma MatchPatternZero(element: string, target: string, p: Pattern, weight: nat)
    ensures MatchPattern(element, target, p, weight) == 0 <==>
      || weight == 0
      || forall k :: 0 <= k < |ExtractMatches(target, p)| ==>
                     ExtractMatches(target, p)[k] !in ExtractMatches(element, p)
  {
    var targetMatches := ExtractMatches(target, p);
    CountSharedExtremes(targetMatches, ExtractMatches(element, p));
    ScaleBound(CountShared(targetMatches, ExtractMatches(element, p)), |targetMatches|, weight);
  }

  lemma ScaleBound(a: nat, b: nat, w: nat)
    requires a <= b
    ensures a * w <= b * w
    ensures a * w == 0 <==> a == 0 || w == 0
  {
  }

  /** `calculateMatchScore`: shared words, plus 2 per shared number, plus
      3 per shared date. */
  function MatchScore(element: string, targetWords: seq<string>, target: string): (score: nat)
    ensures score <= |targetWords| + 2 * |ExtractMatches(target, Numeral)|
                     + 3 * |ExtractMatches(target, ShortDate)|
  {
    var elementWords := Words(Lower(element));
    CountShared(targetWords, elementWords)
    + MatchPattern(element, target, Numeral, 2)
    + MatchPattern(element, target, ShortDate, 3)
  }

  /** A candidate scores zero exactly when it shares no word, no number
      and no date with the reply. */
  lemma MatchScoreZero(element: string, targetWords: seq<string>, target: string)
    ensures MatchScore(element, targetWords, target) == 0 <==>
      && (forall k :: 0 <= k < |targetWords| ==> targetWords[k] !in Words(Lower(element)))
      && (forall k :: 0 <= k < |ExtractMatches(target, Numeral)| ==>
            ExtractMatches(target, Numeral)[k] !in ExtractMatches(element, Numeral))
      && (forall k :: 0 <= k < |ExtractMatches(target, ShortDate)| ==>
            ExtractMatches(target, ShortDate)[k] !in ExtractMatches(element, ShortDate))
  {
    CountSharedExtremes(targetWords, Words(Lower(element)));
    MatchPatternZero(element, target, Numeral, 2);
    MatchPatternZero(element, target, ShortDate, 3);
  }

  /** The score `findClosestMatch` gives `element` for the reply `target`. */
  function ScoreOf(element: string, target: string): (r: nat) {
    MatchScore(element, Words(Lower(target)), target)
  }

  /** `k` is the first position holding the highest score. */
  ghost predicate IsFirstMax(scores: seq<(string, int)>, k: int) {
    && 0 <= k < |scores|
    && (forall j :: 0 <= j < |scores| ==> scores[j].1 <= scores[k].1)
    && (forall j :: 0 <= j < k ==> scores[j].1 < scores[k].1)
  }

  /** `scores.max(by: { $0.1 < $1.1 })`: a left fold that replaces the
      running best only by a strictly higher score. */
  function MaxByScore(scores: seq<(string, int)>): (r: Option<(string, int)>)
    ensures r.None? <==> scores == []
    ensures r.Some? ==> exists k :: IsFirstMax(scores, k) && scores[k] == r.value
    decreases |scores|
  {
    if scores == [] then None
    else
      var front := scores[..|scores| - 1];
      var last := scores[|scores| - 1];
      var best := MaxByScore(front);
      assert forall j :: 0 <= j < |front| ==> front[j] == scores[j];
      if best.None? then
        assert IsFirstMax(scores, 0);
        Some(last)
      else if best.value.1 < last.1 then
        assert IsFirstMax(scores, |scores| - 1) by {
          var k :| IsFirstMax(front, k) && front[k] == best.value;
        }
        Some(last)
      else
        assert exists k :: IsFirstMax(scores, k) && scores[k] == best.value by {
          var k :| IsFirstMax(front, k) && front[k] == best.value;
          assert IsFirstMax(scores, k);
        }
        best
  }

  /** `candidates[k]` is the first candidate that contains `target`. */
  ghost predicate IsFirstContaining(candidates: seq<string>, target: string, k: int) {
    && 0 <= k < |candidates|
    && Contains(candidates[k], target)
    && forall j :: 0 <= j < k ==> !Contains(candidates[j], target)
  }

  /** `array.first(where: { $0.contains(target) })`. */
  function FirstContaining(candidates: seq<string>, target: string): (r: Option<string>)
    ensures r.None? <==> forall k :: 0 <= k < |candidates| ==> !Contains(candidates[k], target)
    ensures forall k :: IsFirstContaining(candidates, target, k) ==> r == Some(candidates[k])
    decreases |candidates|
  {
    if candidates == [] then None
    else if Contains(candidates[0], target) then Some(candidates[0])
    else
      var rest := candidates[1..];
      assert forall k :: IsFirstContaining(candidates, target, k) ==> IsFirstContaining(rest, target, k - 1);
      assert forall k :: 0 < k < |candidates| ==> candidates[k] == rest[k - 1];
      FirstContaining(rest, target)
  }

  /** `array.first(where: { $0.contains(target) }) ?? array.first`. */
  function Fallback(candidates: seq<string>, target: string): (r: Option<string>)
    ensures r.None? <==> candidates == []
    ensures forall k :: IsFirstContaining(candidates, target, k) ==> r == Some(candidates[k])
    ensures candidates != [] && (forall k :: 0 <= k < |candidates| ==> !Contains(candidates[k], target)) ==>
      r == Some(candidates[0])
  {
    match FirstContaining(candidates, target)
    case Some(element) => Some(element)
    case None => if candidates == [] then None else Some(candidates[0])
  }

  /** Each candidate paired with its score, in order. */
  function Scores(candidates: seq<string>, target: string): (r: seq<(string, int)>)
    ensures |r| == |candidates|
    ensures forall i :: 0 <= i < |r| ==> r[i] == (candidates[i], ScoreOf(candidates[i], target) as int)
  {
    var targetWords := Words(Lower(target));
    seq(|candidates|, i requires 0 <= i < |candidates| => (candidates[i], MatchScore(candidates[i], targetWords, target) as int))
  }

  /** `candidates[k]` is the first candidate with the highest score for `target`. */
  ghost predicate IsClosest(candidates: seq<string>, target: string, k: int) {
    && 0 <= k < |candidates|
    && (forall j :: 0 <= j < |candidates| ==> ScoreOf(candidates[j], target) <= ScoreOf(candidates[k], target))
    && (forall j :: 0 <= j < k ==> ScoreOf(candidates[j], target) < ScoreOf(candidates[k], target))
  }

  /** `findClosestMatch`: nothing for an empty list; otherwise one of the
      candidates, chosen by `max(by:)`, so the fallbacks after `??` are
      never reached for a non-empty list. */
  function FindClosestMatch(candidates: seq<string>, target: string): (r: Option<string>)
    ensures r.None? <==> candidates == []
    ensures r.Some? ==> r.value in candidates
    ensures candidates != [] ==> MaxByScore(Scores(candidates, target)).Some?
  {
    var scores := Scores(candidates, target);
    match MaxByScore(scores)
    case Some(best) =>
      assert best.0 in candidates by {
        var k :| IsFirstMax(scores, k) && scores[k] == best;
        assert scores[k].0 == candidates[k];
      }
      Some(best.0)
    case None => Fallback(candidates, target)
  }

  /** The candidate `findClosestMatch` picks is the first one with the
      highest score for the target. */
  lemma ClosestMatchIsBest(candidates: seq<string>, target: string)
    ensures var r := FindClosestMatch(candidates, target);
      r.Some? ==> exists k :: IsClosest(candidates, target, k) && candidates[k] == r.value
  {
    var scores := Scores(candidates, target);
    match MaxByScore(scores)
    case Some(best) =>
      var k :| IsFirstMax(scores, k) && scores[k] == best;
      assert IsClosest(candidates, target, k);
    case None =>
  }

  /** The first-maximum rule singles out one position. */
  lemma ClosestIsUnique(candidates: seq<string>, target: string, k1: int, k2: int)
    requires IsClosest(candidates, target, k1) && IsClosest(candidates, target, k2)
    ensures k1 == k2
  {
    assert ScoreOf(candidates[k1], target) <= ScoreOf(candidates[k2], target);
    assert ScoreOf(candidates[k2], target) <= ScoreOf(candidates[k1], target);
  }

  /** A single candidate is always chosen, whatever the reply says. */
  lemma SingleCandidateChosen(line: string, target: string)
    ensures FindClosestMatch([line], target) == Some(line)
  {
  }
}
