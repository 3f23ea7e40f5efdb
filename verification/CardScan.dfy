/**
The payment-card scanner of app/core/pii.py. A card is a run of 13 to 19
digits, with at most one space or hyphen between neighbouring digits, that
starts and ends on a digit-group boundary and passes the Luhn check.
*/
module CardScan {
  import opened Wrappers
  import opened Luhn

  datatype Span = Span(start: nat, end: nat, digits: seq<Digit>)

  predicate IsDigit(c: char) {
    '0' <= c <= '9'
  }

  predicate IsSeparator(c: char) {
    c == ' ' || c == '-'
  }

  /** The digits of `text[from..until]`, separators dropped. */
  function Digits(text: string, from: nat, until: nat): (digits: seq<Digit>)
    requires from <= until <= |text|
    decreases until
  {
    if from == until then []
    else if IsDigit(text[until - 1]) then Digits(text, from, until - 1) + [text[until - 1] as int - '0' as int]
    else Digits(text, from, until - 1)
  }

  /** The lookbehind: `from` is the first digit of a group. */
  predicate StartsGroup(text: string, from: nat) {
    from < |text| && IsDigit(text[from]) && (from == 0 || !IsDigit(text[from - 1]))
  }

  /** The lookahead: no digit follows `until`. */
  predicate EndsGroup(text: string, until: nat) {
    until < |text| ==> !IsDigit(text[until])
  }

  /** `text[from..until]` is digits with single separators between some of them. */
  predicate IsChain(text: string, from: nat, until: nat) {
    && from < until <= |text|
    && IsDigit(text[from]) && IsDigit(text[until - 1])
    && (forall i :: from <= i < until ==> IsDigit(text[i]) || IsSeparator(text[i]))
    && (forall i :: from < i < until && IsSeparator(text[i]) ==> IsDigit(text[i - 1]))
  }

  predicate IsCandidate(text: string, from: nat, until: nat) {
    && IsChain(text, from, until)
    && StartsGroup(text, from) && EndsGroup(text, until)
    && 13 <= |Digits(text, from, until)| <= 19
  }

  predicate IsCard(text: string, from: nat, until: nat) {
    IsCandidate(text, from, until) && Luhn.Valid(Digits(text, from, until))
  }

  predicate IsLongestCard(text: string, from: nat, until: nat) {
    IsCard(text, from, until) && forall e :: until < e <= |text| ==> !IsCard(text, from, e)
  }

  // ----- What a scan finds -----

  /** The end of the longest card that starts at `from` and ends at or before `until`. */
  function CardEnd(text: string, from: nat, until: nat): (end: Option<nat>)
    requires until <= |text|
    ensures end.Some? ==> end.value <= until && IsCard(text, from, end.value)
    decreases until
  {
    if until == 0 then None
    else if IsCard(text, from, until) then Some(until)
    else CardEnd(text, from, until - 1)
  }

  lemma {:induction false} CardEndIsLongest(text: string, from: nat, until: nat, e: nat)
    requires e <= until <= |text| && IsCard(text, from, e)
    ensures CardEnd(text, from, until).Some? && e <= CardEnd(text, from, until).value
    decreases until
  {
    if !IsCard(text, from, until) {
      CardEndIsLongest(text, from, until - 1, e);
    }
  }

  function SpanAt(text: string, from: nat): seq<Span> {
    match CardEnd(text, from, |text|)
    case Some(end) => [Span(from, end, Digits(text, from, end))]
    case None => []
  }

  /** The longest card at every position before `until`, in order. */
  function SpansBefore(text: string, until: nat): seq<Span> {
    if until == 0 then [] else SpansBefore(text, until - 1) + SpanAt(text, until - 1)
  }

  function CardSpans(text: string): seq<Span> {
    SpansBefore(text, |text|)
  }

  predicate IsScanned(text: string, span: Span) {
    IsLongestCard(text, span.start, span.end) && span.digits == Digits(text, span.start, span.end)
  }

  lemma SpanAtIsScanned(text: string, from: nat)
    ensures forall span :: span in SpanAt(text, from) ==> span.start == from && IsScanned(text, span)
    ensures forall e: nat :: IsCard(text, from, e) ==> SpanAt(text, from) != [] && e <= SpanAt(text, from)[0].end
  {
    forall e: nat | IsCard(text, from, e)
      ensures SpanAt(text, from) != [] && e <= SpanAt(text, from)[0].end
    {
      CardEndIsLongest(text, from, |text|, e);
    }
  }

  predicate Sorted(spans: seq<Span>) {
    forall i, j :: 0 <= i < j < |spans| ==> spans[i].start < spans[j].start
  }

  /** A sorted scan holds only longest cards of the text. */
  lemma {:induction false} SpansBeforeAreCards(text: string, until: nat)
    requires until <= |text|
    ensures Sorted(SpansBefore(text, until))
    ensures forall span :: span in SpansBefore(text, until) ==> span.start < until && IsScanned(text, span)
  {
    if until > 0 {
      SpansBeforeAreCards(text, until - 1);
      SpanAtIsScanned(text, until - 1);
    }
  }

  /** Every card of the text starts a span of the scan that reaches at least as far. */
  lemma {:induction false} SpansBeforeFindsAll(text: string, until: nat, from: nat, e: nat) returns (i: nat)
    requires from < until <= |text| && IsCard(text, from, e)
    ensures i < |SpansBefore(text, until)|
    ensures SpansBefore(text, until)[i].start == from && e <= SpansBefore(text, until)[i].end
    decreases until
  {
    SpanAtIsScanned(text, until - 1);
    if from == until - 1 {
      i := |SpansBefore(text, until - 1)|;
    } else {
      i := SpansBeforeFindsAll(text, until - 1, from, e);
    }
  }

  // ----- The regular expression -----

  /** One more `[ -]?\d` after position `q`; `q` itself when there is none. */
  function NextDigit(text: string, q: nat): (next: nat)
    requires q <= |text|
    ensures next <= |text|
  {
    if q < |text| && IsDigit(text[q]) then q + 1
    else if q + 1 < |text| && IsSeparator(text[q]) && IsDigit(text[q + 1]) then q + 2
    else q
  }

  /** The greedy group `(?:[ -]?\d){12,18}(?!\d)` at `q`, after `k` repetitions, with its backtracking. */
  function Repetitions(text: string, q: nat, k: nat): (end: Option<nat>)
    requires q <= |text| && k <= 18
    ensures end.Some? ==> q <= end.value <= |text|
    decreases 18 - k
  {
    var next := NextDigit(text, q);
    var longer := if k < 18 && next != q then Repetitions(text, next, k + 1) else None;
    if longer.Some? then longer
    else if 12 <= k && EndsGroup(text, q) then Some(q)
    else None
  }

  /** The text captured at `from`: the end of the match of the whole expression. */
  function Candidate(text: string, from: nat): (end: Option<nat>) {
    if StartsGroup(text, from) then Repetitions(text, from + 1, 0) else None
  }

  lemma {:induction false} DigitsGrow(text: string, from: nat, mid: nat, until: nat)
    requires from <= mid <= until <= |text|
    ensures |Digits(text, from, mid)| <= |Digits(text, from, until)|
    decreases until
  {
    if mid < until {
      DigitsGrow(text, from, mid, until - 1);
    }
  }

  lemma DigitsAtMost(text: string, from: nat, until: nat)
    requires from <= until <= |text|
    ensures |Digits(text, from, until)| <= until - from
  {
  }

  /** A chain that goes on beyond `q` goes on by one `[ -]?\d`. */
  lemma ChainStep(text: string, from: nat, q: nat, end: nat)
    requires IsChain(text, from, q) && IsChain(text, from, end) && q < end
    ensures q < NextDigit(text, q) <= end
  {
    assert IsDigit(text[q]) || (IsSeparator(text[q]) && q + 1 < end && !IsSeparator(text[q + 1]));
  }

  lemma ChainExtends(text: string, from: nat, q: nat)
    requires IsChain(text, from, q) && NextDigit(text, q) != q
    ensures IsChain(text, from, NextDigit(text, q))
    ensures |Digits(text, from, NextDigit(text, q))| == |Digits(text, from, q)| + 1
  {
    var next := NextDigit(text, q);
    if next == q + 2 {
      assert Digits(text, from, q + 1) == Digits(text, from, q);
    }
  }

  /** Backtracking finds the longest way to end the chain with 13 to 19 digits on a group boundary. */
  lemma {:induction false} RepetitionsIsLongest(text: string, from: nat, q: nat, k: nat)
    requires k <= 18 && StartsGroup(text, from)
    requires IsChain(text, from, q) && |Digits(text, from, q)| == k + 1
    ensures var end := Repetitions(text, q, k);
      && (end.Some? ==> IsCandidate(text, from, end.value))
      && (forall e :: q <= e && IsCandidate(text, from, e) ==> end.Some? && e <= end.value)
    decreases 18 - k
  {
    var next, end := NextDigit(text, q), Repetitions(text, q, k);
    if next != q {
      ChainExtends(text, from, q);
      if k < 18 {
        RepetitionsIsLongest(text, from, next, k + 1);
      }
    }
    forall e | q <= e && IsCandidate(text, from, e)
      ensures end.Some? && e <= end.value
    {
      if q < e {
        ChainStep(text, from, q, e);
        DigitsGrow(text, from, next, e);
      }
    }
  }

  /** The expression matches at `from` exactly when some candidate starts there, and captures the longest. */
  lemma CandidateIsLongest(text: string, from: nat)
    ensures var end := Candidate(text, from);
      && (end.Some? ==> IsCandidate(text, from, end.value))
      && (forall e: nat :: IsCandidate(text, from, e) ==> end.Some? && e <= end.value)
  {
    if StartsGroup(text, from) {
      assert Digits(text, from, from + 1) == Digits(text, from, from) + [text[from] as int - '0' as int];
      RepetitionsIsLongest(text, from, from + 1, 0);
    }
  }

  /** Inside a candidate, a prefix is a card when it ends on a group boundary, is long enough and checks out. */
  lemma CardInsideCandidate(text: string, from: nat, end: nat, until: nat)
    requires IsCandidate(text, from, until) && from < end <= until
    ensures IsCard(text, from, end) <==>
            && IsDigit(text[end - 1]) && !(end < until && IsDigit(text[end]))
            && 13 <= |Digits(text, from, end)| <= 19 && Luhn.Valid(Digits(text, from, end))
  {
  }

  // ----- The scanner -----

  /** Positions where no card ends can be skipped. */
  lemma {:induction false} CardEndSkips(text: string, from: nat, low: nat, high: nat)
    requires low <= high <= |text|
    requires forall e :: low < e <= high ==> !IsCard(text, from, e)
    ensures CardEnd(text, from, high) == CardEnd(text, from, low)
    decreases high
  {
    if low < high {
      CardEndSkips(text, from, low, high - 1);
    }
  }

  /** Twelve characters or fewer hold no card. */
  lemma TooShort(text: string, from: nat, high: nat)
    requires high <= |text| && high <= from + 12
    ensures CardEnd(text, from, high) == None
  {
    forall e | 0 < e <= high
      ensures !IsCard(text, from, e)
    {
      if from < e {
        DigitsAtMost(text, from, e);
      }
    }
    CardEndSkips(text, from, 0, high);
  }

  lemma CardEndHere(text: string, from: nat, until: nat)
    requires IsCard(text, from, until)
    ensures CardEnd(text, from, until) == Some(until)
  {
  }

  lemma CardEndBefore(text: string, from: nat, until: nat)
    requires 0 < until <= |text| && !IsCard(text, from, until)
    ensures CardEnd(text, from, until) == CardEnd(text, from, until - 1)
  {
  }

  /** Looking for a card at `from`, nothing past the captured text matters. */
  lemma OnlyTheCandidateMatters(text: string, from: nat)
    ensures var candidate := Candidate(text, from);
            CardEnd(text, from, |text|) == if candidate.Some? then CardEnd(text, from, candidate.value) else None
  {
    CandidateIsLongest(text, from);
    var candidate := Candidate(text, from);
    CardEndSkips(text, from, if candidate.Some? then candidate.value else 0, |text|);
  }

  lemma CandidateIsLong(text: string, from: nat, until: nat)
    requires IsCandidate(text, from, until)
    ensures from + 13 <= until <= |text|
  {
    DigitsAtMost(text, from, until);
  }

  /** Tries the captured text, then its shorter prefixes, for one that passes the Luhn check. */
  method LongestPrefixCard(text: string, from: nat, until: nat) returns (found: Option<nat>)
    requires IsCandidate(text, from, until)
    ensures found == CardEnd(text, from, until)
    ensures found.Some? ==> from < found.value <= |text|
  {
    hide IsCard, IsCandidate, CardEnd, Digits;
    CandidateIsLong(text, from, until);
    var length := until - from;
    var end := length;
    while end > 12
      invariant 12 <= end <= length
      invariant CardEnd(text, from, until) == CardEnd(text, from, from + end)
    {
      CardInsideCandidate(text, from, from + end, until);
      if IsDigit(text[from + end - 1]) && !(end < length && IsDigit(text[from + end])) {
        var digits := Digits(text, from, from + end);
        var valid := LuhnCheck(digits);
        if 13 <= |digits| <= 19 && valid {
          CardEndHere(text, from, from + end);
          return Some(from + end);
        }
      }
      CardEndBefore(text, from, from + end);
      end := end - 1;
    }
    TooShort(text, from, from + end);
    return None;
  }

  /** `_card_spans`: every group start in turn, overlapping candidates included. */
  method ScanCards(text: string) returns (spans: seq<Span>)
    ensures spans == CardSpans(text)
  {
    hide IsCard, IsCandidate, CardEnd, Digits, Candidate;
    spans := [];
    for from := 0 to |text|
      invariant spans == SpansBefore(text, from)
    {
      OnlyTheCandidateMatters(text, from);
      CandidateIsLongest(text, from);
      var candidate := Candidate(text, from);
      if candidate.Some? {
        var end := LongestPrefixCard(text, from, candidate.value);
        if end.Some? {
          spans := spans + [Span(from, end.value, Digits(text, from, end.value))];
        }
      }
    }
  }
}
