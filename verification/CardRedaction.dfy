/**
Card redaction (app/core/pii.py, `_strip_cards`): the scanned spans are merged
and replaced from right to left. One pass is complete: the redacted text holds
no card, although every replacement joins text that was apart.
*/
module CardRedaction {
  import opened CardScan

  datatype Interval = Interval(start: nat, end: nat)

  const MARK := "[REDACTED_CARD]"

  // ----- Merging -----

  function MergeOne(merged: seq<Interval>, span: Span): seq<Interval> {
    var last := |merged| - 1;
    if merged != [] && span.start <= merged[last].end then
      merged[last := Interval(merged[last].start, if span.end > merged[last].end then span.end else merged[last].end)]
    else
      merged + [Interval(span.start, span.end)]
  }

  function Merge(spans: seq<Span>): seq<Interval> {
    if spans == [] then []
    else MergeOne(Merge(spans[..|spans| - 1]), spans[|spans| - 1])
  }

  /** In order, and with at least one character between neighbours. */
  predicate Separated(merged: seq<Interval>) {
    && (forall i :: 0 <= i < |merged| ==> merged[i].start < merged[i].end)
    && (forall i, j :: 0 <= i < j < |merged| ==> merged[i].end < merged[j].start)
  }

  predicate Covers(merged: seq<Interval>, x: nat) {
    exists i :: 0 <= i < |merged| && merged[i].start <= x < merged[i].end
  }

  predicate CoversSpans(spans: seq<Span>, x: nat) {
    exists i :: 0 <= i < |spans| && spans[i].start <= x < spans[i].end
  }

  predicate ProperSpans(spans: seq<Span>) {
    Sorted(spans) && forall i :: 0 <= i < |spans| ==> spans[i].start < spans[i].end
  }

  predicate StartsLike(spans: seq<Span>, interval: Interval) {
    exists j :: 0 <= j < |spans| && spans[j].start == interval.start
  }

  predicate EndsLike(spans: seq<Span>, interval: Interval) {
    exists j :: 0 <= j < |spans| && spans[j].end == interval.end
  }

  /** A longer list of spans still has the starts and ends of the shorter one. */
  lemma LikeIsMonotone(front: seq<Span>, spans: seq<Span>, interval: Interval)
    requires front <= spans
    ensures StartsLike(front, interval) ==> StartsLike(spans, interval)
    ensures EndsLike(front, interval) ==> EndsLike(spans, interval)
  {
    if StartsLike(front, interval) {
      var j :| 0 <= j < |front| && front[j].start == interval.start;
      assert spans[j].start == interval.start;
    }
    if EndsLike(front, interval) {
      var j :| 0 <= j < |front| && front[j].end == interval.end;
      assert spans[j].end == interval.end;
    }
  }

  /** Merged intervals start and end where spans do. */
  lemma {:induction false} MergeKeepsBoundaries(spans: seq<Span>)
    ensures forall interval :: interval in Merge(spans) ==> StartsLike(spans, interval) && EndsLike(spans, interval)
  {
    if spans != [] {
      var front, span := spans[..|spans| - 1], spans[|spans| - 1];
      MergeKeepsBoundaries(front);
      forall interval | interval in Merge(spans)
        ensures StartsLike(spans, interval) && EndsLike(spans, interval)
      {
        assert spans[|spans| - 1] == span;
        LikeIsMonotone(front, spans, interval);
        MergeOneKeepsBoundaries(Merge(front), span, interval);
        if interval.start != span.start {
          var other :| other in Merge(front) && other.start == interval.start;
          LikeIsMonotone(front, spans, other);
        }
        if interval.end != span.end {
          var other :| other in Merge(front) && other.end == interval.end;
          LikeIsMonotone(front, spans, other);
        }
      }
    }
  }

  lemma MergeOneKeepsBoundaries(before: seq<Interval>, span: Span, interval: Interval)
    requires interval in MergeOne(before, span)
    ensures interval.start == span.start || exists other :: other in before && other.start == interval.start
    ensures interval.end == span.end || exists other :: other in before && other.end == interval.end
  {
    var i :| 0 <= i < |MergeOne(before, span)| && MergeOne(before, span)[i] == interval;
    if i < |before| {
      assert before[i] in before;
    }
  }

  /** Merged intervals are in order and apart. */
  lemma {:induction false} MergeIsSeparated(spans: seq<Span>)
    requires ProperSpans(spans)
    ensures Separated(Merge(spans))
  {
    if spans != [] {
      var front, span := spans[..|spans| - 1], spans[|spans| - 1];
      MergeIsSeparated(front);
      StartsBefore(front, span);
    }
  }

  /** When the spans are sorted, everything merged so far starts before the next span. */
  lemma StartsBefore(front: seq<Span>, span: Span)
    requires forall i :: 0 <= i < |front| ==> front[i].start < span.start
    ensures forall i :: 0 <= i < |Merge(front)| ==> Merge(front)[i].start < span.start
  {
    MergeKeepsBoundaries(front);
    forall i | 0 <= i < |Merge(front)|
      ensures Merge(front)[i].start < span.start
    {
      assert Merge(front)[i] in Merge(front);
    }
  }

  /** Merging neither adds nor loses a single position. */
  lemma {:induction false} MergeCoversTheUnion(spans: seq<Span>, x: nat)
    requires ProperSpans(spans)
    ensures Covers(Merge(spans), x) <==> CoversSpans(spans, x)
  {
    if spans != [] {
      var front, span := spans[..|spans| - 1], spans[|spans| - 1];
      MergeCoversTheUnion(front, x);
      MergeIsSeparated(front);
      StartsBefore(front, span);
      MergeOneCovers(Merge(front), span, x);
      OneMoreSpanCovers(spans, x);
    }
  }

  lemma OneMoreSpanCovers(spans: seq<Span>, x: nat)
    requires spans != []
    ensures var front, span := spans[..|spans| - 1], spans[|spans| - 1];
            CoversSpans(spans, x) <==> CoversSpans(front, x) || span.start <= x < span.end
  {
    var front := spans[..|spans| - 1];
    if CoversSpans(front, x) {
      var i :| 0 <= i < |front| && front[i].start <= x < front[i].end;
      assert spans[i].start <= x < spans[i].end;
    }
  }

  lemma MergeOneCovers(before: seq<Interval>, span: Span, x: nat)
    requires Separated(before) && span.start < span.end
    requires forall i :: 0 <= i < |before| ==> before[i].start < span.start
    ensures Covers(MergeOne(before, span), x) <==> Covers(before, x) || span.start <= x < span.end
  {
    var merged, last := MergeOne(before, span), |before| - 1;
    if Covers(before, x) {
      var i :| 0 <= i < |before| && before[i].start <= x < before[i].end;
      assert merged[i].start <= x < merged[i].end;
    }
    if span.start <= x < span.end {
      var i := |merged| - 1;
      assert merged[i].start <= x < merged[i].end;
    }
    if Covers(merged, x) {
      var i :| 0 <= i < |merged| && merged[i].start <= x < merged[i].end;
      if i < last || (i < |before| && |merged| > |before|) {
        assert before[i] == merged[i];
      } else if |merged| == |before| && x < before[last].end {
        assert before[last].start <= x < before[last].end;
      }
    }
  }

  // ----- Splicing -----

  predicate Fits(text: string, merged: seq<Interval>, from: nat) {
    && from <= |text|
    && Separated(merged)
    && (forall i :: 0 <= i < |merged| ==> from <= merged[i].start && merged[i].end <= |text|)
  }

  /** The untouched gaps from `from` on, in order, with one marker for each interval. */
  function Render(text: string, merged: seq<Interval>, from: nat): string
    requires Fits(text, merged, from)
    decreases |merged|
  {
    if merged == [] then text[from..]
    else text[from..merged[0].start] + MARK + Render(text, merged[1..], merged[0].end)
  }

  lemma RenderFromEarlier(text: string, merged: seq<Interval>, from: nat)
    requires Fits(text, merged, from)
    ensures Fits(text, merged, 0)
    ensures Render(text, merged, 0) == text[..from] + Render(text, merged, from)
  {
    if merged == [] {
      assert text[0..] == text[..from] + text[from..];
    } else {
      var start := merged[0].start;
      assert text[0..start] == text[..from] + text[from..start];
      ConcatIsAssociative(text[..from], text[from..start], MARK, Render(text, merged[1..], merged[0].end));
    }
  }

  lemma ConcatIsAssociative(a: string, b: string, c: string, d: string)
    ensures (a + b) + c + d == a + (b + c + d)
  {
  }

  function Redacted(text: string): string {
    RedactionFits(text);
    Render(text, Merge(CardSpans(text)), 0)
  }

  lemma SpansAreProper(text: string)
    ensures ProperSpans(CardSpans(text))
  {
    SpansBeforeAreCards(text, |text|);
    var spans := CardSpans(text);
    forall i | 0 <= i < |spans|
      ensures spans[i].start < spans[i].end
    {
      assert spans[i] in spans;
    }
  }

  lemma RedactionFits(text: string)
    ensures Fits(text, Merge(CardSpans(text)), 0)
  {
    var spans := CardSpans(text);
    SpansAreProper(text);
    SpansBeforeAreCards(text, |text|);
    MergeIsSeparated(spans);
    MergeKeepsBoundaries(spans);
    forall i | 0 <= i < |Merge(spans)|
      ensures Merge(spans)[i].end <= |text|
    {
      assert EndsLike(spans, Merge(spans)[i]);
      var j :| 0 <= j < |spans| && spans[j].end == Merge(spans)[i].end;
      assert spans[j] in spans;
    }
  }

  method MergeSpans(spans: seq<Span>) returns (merged: seq<Interval>)
    ensures merged == Merge(spans)
  {
    merged := [];
    for i := 0 to |spans|
      invariant merged == Merge(spans[..i])
    {
      assert spans[..i + 1][..i] == spans[..i];
      var last := |merged| - 1;
      if merged != [] && spans[i].start <= merged[last].end {
        var end := if spans[i].end > merged[last].end then spans[i].end else merged[last].end;
        merged := merged[last := Interval(merged[last].start, end)];
      } else {
        merged := merged + [Interval(spans[i].start, spans[i].end)];
      }
    }
    assert spans[..|spans|] == spans;
  }

  /** Replacing an interval to the left of everything replaced so far. */
  lemma SpliceStep(original: string, merged: seq<Interval>, text: string)
    requires merged != [] && Fits(original, merged, 0)
    requires text == Render(original, merged[1..], 0)
    ensures merged[0].end <= |text|
    ensures text[..merged[0].start] + MARK + text[merged[0].end..] == Render(original, merged, 0)
  {
    RenderFromEarlier(original, merged[1..], merged[0].end);
    assert text[..merged[0].start] == original[0..merged[0].start];
  }

  /** Right to left, so that the offsets of the intervals still to come stay good. */
  method Splice(original: string, merged: seq<Interval>) returns (text: string)
    requires Fits(original, merged, 0)
    ensures text == Render(original, merged, 0)
  {
    text := original;
    var i := |merged|;
    while i > 0
      invariant 0 <= i <= |merged|
      invariant text == Render(original, merged[i..], 0)
    {
      i := i - 1;
      assert merged[i..][1..] == merged[i + 1..];
      SpliceStep(original, merged[i..], text);
      text := text[..merged[i].start] + MARK + text[merged[i].end..];
    }
  }

  /** `_strip_cards`. */
  method StripCards(original: string) returns (text: string)
    ensures text == Redacted(original)
  {
    var spans := ScanCards(original);
    var merged := MergeSpans(spans);
    RedactionFits(original);
    text := Splice(original, merged);
  }

  // ----- One pass is complete -----

  ghost predicate NoCards(text: string) {
    forall from: nat, end: nat :: !IsCard(text, from, end)
  }

  lemma {:induction false} SameDigits(a: string, b: string, from: nat, end: nat, shift: int)
    requires from <= end <= |a| && 0 <= from + shift && end + shift <= |b|
    requires forall i :: from <= i < end ==> a[i] == b[i + shift]
    ensures Digits(a, from, end) == Digits(b, from + shift, end + shift)
    decreases end
  {
    if from < end {
      SameDigits(a, b, from, end - 1, shift);
    }
  }

  /** A card is a card wherever the same characters stand between group boundaries. */
  lemma CardMoves(a: string, b: string, from: nat, end: nat, shift: int)
    requires IsCard(a, from, end)
    requires 0 <= from + shift && end + shift <= |b|
    requires forall i :: from <= i < end ==> a[i] == b[i + shift]
    requires StartsGroup(b, from + shift) && EndsGroup(b, end + shift)
    ensures IsCard(b, from + shift, end + shift)
  {
    SameDigits(a, b, from, end, shift);
    ChainMoves(a, b, from, end, shift);
  }

  lemma ChainMoves(a: string, b: string, from: nat, end: nat, shift: int)
    requires IsChain(a, from, end)
    requires 0 <= from + shift && end + shift <= |b|
    requires forall i :: from <= i < end ==> a[i] == b[i + shift]
    ensures IsChain(b, from + shift, end + shift)
  {
    forall i | from + shift <= i < end + shift
      ensures IsDigit(b[i]) || IsSeparator(b[i])
      ensures from + shift < i && IsSeparator(b[i]) ==> IsDigit(b[i - 1])
    {
      assert a[i - shift] == b[i];
      if from + shift < i {
        assert a[i - shift - 1] == b[i - 1];
      }
    }
  }

  /** A card cannot reach across a marker, so joining card-free texts with one creates no card. */
  lemma MarkerKeepsCardsApart(left: string, right: string)
    requires NoCards(left) && NoCards(right)
    ensures NoCards(left + MARK + right)
  {
    var text := left + MARK + right;
    var a, m := |left|, |MARK|;
    assert forall i :: a <= i < a + m ==> text[i] == MARK[i - a] && !IsDigit(text[i]);
    assert !IsSeparator(text[a]);
    forall from: nat, end: nat | IsCard(text, from, end)
      ensures false
    {
      assert !(from <= a < end);
      if from < a {
        CardMoves(text, left, from, end, 0);
      } else {
        assert a + m <= from;
        CardMoves(text, right, from, end, -(a + m));
      }
    }
  }

  /** A piece of text cut on group boundaries and out of reach of every scanned span holds no card. */
  lemma GapHoldsNoCard(text: string, from: nat, end: nat)
    requires from <= end <= |text|
    requires from == 0 || EndsGroup(text, from)
    requires end == |text| || StartsGroup(text, end)
    requires forall x :: from <= x < end ==> !Covers(Merge(CardSpans(text)), x)
    ensures NoCards(text[from..end])
  {
    var gap := text[from..end];
    forall p: nat, q: nat | IsCard(gap, p, q)
      ensures false
    {
      assert gap[q - 1] == text[from + q - 1];
      assert gap[p] == text[from + p];
      assert p > 0 ==> gap[p - 1] == text[from + p - 1];
      assert q < |gap| ==> gap[q] == text[from + q];
      CardMoves(gap, text, p, q, from);
      CardsAreCovered(text, from + p, from + q, from + p);
    }
  }

  /** Every position of every card lies inside a merged interval. */
  lemma CardsAreCovered(text: string, from: nat, end: nat, x: nat)
    requires IsCard(text, from, end) && from <= x < end
    ensures Covers(Merge(CardSpans(text)), x)
  {
    var i := SpansBeforeFindsAll(text, |text|, from, end);
    assert CardSpans(text)[i].start <= x < CardSpans(text)[i].end;
    SpansAreProper(text);
    MergeCoversTheUnion(CardSpans(text), x);
  }

  /** Interval ends and starts are group boundaries of the text. */
  lemma IntervalBoundaries(text: string, i: nat)
    requires i < |Merge(CardSpans(text))|
    ensures StartsGroup(text, Merge(CardSpans(text))[i].start)
    ensures EndsGroup(text, Merge(CardSpans(text))[i].end)
  {
    var spans := CardSpans(text);
    SpansAreProper(text);
    SpansBeforeAreCards(text, |text|);
    MergeKeepsBoundaries(spans);
    assert StartsLike(spans, Merge(spans)[i]) && EndsLike(spans, Merge(spans)[i]);
    var j :| 0 <= j < |spans| && spans[j].start == Merge(spans)[i].start;
    var k :| 0 <= k < |spans| && spans[k].end == Merge(spans)[i].end;
    assert spans[j] in spans && spans[k] in spans;
  }

  function GapStart(merged: seq<Interval>, i: nat): nat
    requires i <= |merged|
  {
    if i == 0 then 0 else merged[i - 1].end
  }

  function GapEnd(text: string, merged: seq<Interval>, i: nat): nat
    requires i <= |merged|
  {
    if i == |merged| then |text| else merged[i].start
  }

  lemma BetweenIntervals(text: string, merged: seq<Interval>, i: nat, x: nat)
    requires Fits(text, merged, 0) && i <= |merged|
    requires GapStart(merged, i) <= x < GapEnd(text, merged, i)
    ensures !Covers(merged, x)
  {
  }

  lemma GapIsCardFree(text: string, i: nat)
    requires Fits(text, Merge(CardSpans(text)), 0)
    requires i <= |Merge(CardSpans(text))|
    ensures GapStart(Merge(CardSpans(text)), i) <= GapEnd(text, Merge(CardSpans(text)), i) <= |text|
    ensures NoCards(text[GapStart(Merge(CardSpans(text)), i)..GapEnd(text, Merge(CardSpans(text)), i)])
  {
    var merged := Merge(CardSpans(text));
    if i > 0 {
      IntervalBoundaries(text, i - 1);
    }
    if i < |merged| {
      IntervalBoundaries(text, i);
    }
    var from, end := GapStart(merged, i), GapEnd(text, merged, i);
    forall x: nat | from <= x < end
      ensures !Covers(merged, x)
    {
      BetweenIntervals(text, merged, i, x);
    }
    GapHoldsNoCard(text, from, end);
  }

  /** If every gap is free of cards, so is the text rendered from them. */
  lemma SuffixFits(text: string, merged: seq<Interval>, i: nat)
    requires Fits(text, merged, 0) && i <= |merged|
    requires forall j :: 0 <= j <= |merged| ==> GapStart(merged, j) <= GapEnd(text, merged, j) <= |text|
    ensures Fits(text, merged[i..], GapStart(merged, i))
  {
    assert GapStart(merged, i) <= GapEnd(text, merged, i);
  }

  lemma {:induction false} RenderHoldsNoCard(text: string, merged: seq<Interval>, i: nat)
    requires Fits(text, merged, 0) && i <= |merged|
    requires forall j :: 0 <= j <= |merged| ==> GapStart(merged, j) <= GapEnd(text, merged, j) <= |text|
    requires forall j :: 0 <= j <= |merged| ==> NoCards(text[GapStart(merged, j)..GapEnd(text, merged, j)])
    ensures Fits(text, merged[i..], GapStart(merged, i))
    ensures NoCards(Render(text, merged[i..], GapStart(merged, i)))
    decreases |merged| - i
  {
    hide NoCards, Separated;
    SuffixFits(text, merged, i);
    var from, end := GapStart(merged, i), GapEnd(text, merged, i);
    if i == |merged| {
      assert text[from..end] == text[from..];
    } else {
      RenderHoldsNoCard(text, merged, i + 1);
      assert merged[i..][1..] == merged[i + 1..];
      MarkerKeepsCardsApart(text[from..end], Render(text, merged[i + 1..], merged[i].end));
    }
  }

  lemma {:induction false} CardFreeTextHasNoSpans(text: string, until: nat)
    requires NoCards(text)
    ensures SpansBefore(text, until) == []
  {
    if until > 0 {
      CardFreeTextHasNoSpans(text, until - 1);
    }
  }

  /** Completeness: whatever the text, no card is left in it after one pass. */
  lemma RedactionIsComplete(text: string)
    ensures NoCards(Redacted(text))
    ensures CardSpans(Redacted(text)) == []
  {
    var merged := Merge(CardSpans(text));
    RedactionFits(text);
    forall i | 0 <= i <= |merged|
      ensures GapStart(merged, i) <= GapEnd(text, merged, i) <= |text|
      ensures NoCards(text[GapStart(merged, i)..GapEnd(text, merged, i)])
    {
      GapIsCardFree(text, i);
    }
    RenderHoldsNoCard(text, merged, 0);
    assert merged[0..] == merged;
    CardFreeTextHasNoSpans(Redacted(text), |Redacted(text)|);
  }

  /** A second pass changes nothing, and neither does a first pass over a text without cards. */
  lemma RedactionIsIdempotent(text: string)
    ensures Redacted(Redacted(text)) == Redacted(text)
    ensures NoCards(text) ==> Redacted(text) == text
  {
    RedactionIsComplete(text);
    if NoCards(text) {
      CardFreeTextHasNoSpans(text, |text|);
    }
  }
}
