/**
What the scanner and the redaction do, told in the characters of the text: the
numbers that count are runs of 13 to 19 digits, written with nothing, a space
or a hyphen between neighbours and no digit on either side.
*/
module CardText {
  import opened Luhn
  import opened CardScan
  import opened CardRedaction

  function Numeral(d: Digit): char {
    "0123456789"[d]
  }

  /** The digits with the separators between them. */
  function Written(number: seq<Digit>, seps: seq<string>): string
    requires |number| == |seps| + 1
  {
    var last := |seps|;
    if last == 0 then [Numeral(number[0])]
    else Written(number[..last], seps[..last - 1]) + seps[last - 1] + [Numeral(number[last])]
  }

  /** `text[from..until]` is the number, with a separator or none between its digits, and no digit on either side. */
  predicate IsWrittenAt(text: string, from: nat, until: nat, number: seq<Digit>, seps: seq<string>) {
    && |number| == |seps| + 1 && (forall i :: 0 <= i < |seps| ==> seps[i] in ["", " ", "-"])
    && from <= until <= |text| && text[from..until] == Written(number, seps)
    && (from > 0 ==> text[from - 1] !in "0123456789") && (until < |text| ==> text[until] !in "0123456789")
  }

  // ----- Chains are written numbers -----

  lemma NumeralsAreDigits(c: char)
    ensures IsDigit(c) <==> c in "0123456789"
    ensures IsDigit(c) ==> Numeral(c as int - '0' as int) == c
  {
    assert "0123456789"[0] == '0' && "0123456789"[1] == '1' && "0123456789"[2] == '2' && "0123456789"[3] == '3';
    assert "0123456789"[4] == '4' && "0123456789"[5] == '5' && "0123456789"[6] == '6' && "0123456789"[7] == '7';
    assert "0123456789"[8] == '8' && "0123456789"[9] == '9';
  }

  /** A chain of more than one digit ends with a separator or none, and its last digit. */
  lemma ChainEnds(text: string, from: nat, until: nat) returns (end: nat, sep: string)
    requires IsChain(text, from, until) && from + 1 < until
    ensures from < end < until && IsChain(text, from, end)
    ensures text[end..until - 1] == sep && sep in ["", " ", "-"]
    ensures Digits(text, from, until) == Digits(text, from, end) + [text[until - 1] as int - '0' as int]
  {
    if IsDigit(text[until - 2]) {
      end, sep := until - 1, "";
    } else {
      end, sep := until - 2, [text[until - 2]];
      assert IsSeparator(text[until - 2]);
      assert Digits(text, from, until - 1) == Digits(text, from, end);
    }
  }

  /** How a chain is written. */
  lemma {:induction false} ChainIsWritten(text: string, from: nat, until: nat) returns (seps: seq<string>)
    requires IsChain(text, from, until)
    ensures |Digits(text, from, until)| == |seps| + 1 && forall i :: 0 <= i < |seps| ==> seps[i] in ["", " ", "-"]
    ensures text[from..until] == Written(Digits(text, from, until), seps)
    decreases until
  {
    hide Digits, IsDigit, IsSeparator, Numeral;
    var c := text[until - 1];
    NumeralsAreDigits(c);
    if until == from + 1 {
      seps := [];
      OneDigit(text, from);
      assert text[from..until] == [c];
    } else {
      var end, sep := ChainEnds(text, from, until);
      var before := ChainIsWritten(text, from, end);
      seps := before + [sep];
      WrittenGoesOn(Digits(text, from, end), before, sep, c as int - '0' as int);
      assert text[from..until] == text[from..end] + sep + [c];
    }
  }

  lemma OneDigit(text: string, from: nat)
    requires from < |text| && IsDigit(text[from])
    ensures Digits(text, from, from + 1) == [text[from] as int - '0' as int]
  {
    assert Digits(text, from, from) == [];
  }

  lemma WrittenGoesOn(number: seq<Digit>, seps: seq<string>, sep: string, d: Digit)
    requires |number| == |seps| + 1
    ensures Written(number + [d], seps + [sep]) == Written(number, seps) + sep + [Numeral(d)]
  {
    assert (number + [d])[..|number|] == number && (seps + [sep])[..|seps|] == seps;
  }

  lemma Parts(text: string, from: nat, until: nat, front: string, sep: string, c: char)
    requires from <= until <= |text| && text[from..until] == front + sep + [c]
    ensures until == from + |front| + |sep| + 1
    ensures text[from..from + |front|] == front && text[from + |front|..until - 1] == sep && text[until - 1] == c
  {
    var piece := text[from..until];
    assert |piece| == until - from;
    assert text[from..from + |front|] == piece[..|front|];
    assert until - 1 == from + |front| + |sep|;
    var a, b := |front|, |front| + |sep|;
    forall k | 0 <= k < |sep|
      ensures text[from + a..from + b][k] == sep[k]
    {
      assert text[from + a..from + b][k] == text[from + a + k] == piece[a + k];
    }
    assert text[from + a..from + b] == sep;
    assert piece[|front| + |sep|] == c;
  }

  lemma OneWritten(text: string, from: nat, until: nat, d: Digit)
    requires from <= until <= |text| && text[from..until] == [Numeral(d)]
    ensures IsChain(text, from, until) && Digits(text, from, until) == [d]
  {
    hide Numeral;
    NumeralIsItsDigit(d);
    Parts(text, from, until, "", "", Numeral(d));
    OneDigit(text, from);
  }

  /** And what is so written is a chain of just those digits. */
  lemma {:induction false} WrittenIsChain(text: string, from: nat, until: nat, number: seq<Digit>, seps: seq<string>)
    requires |number| == |seps| + 1 && forall i :: 0 <= i < |seps| ==> seps[i] in ["", " ", "-"]
    requires from <= until <= |text| && text[from..until] == Written(number, seps)
    ensures IsChain(text, from, until) && Digits(text, from, until) == number
    decreases |seps|
  {
    hide IsChain, Digits, IsDigit, Numeral;
    var last, d := |seps|, number[|seps|];
    NumeralIsItsDigit(d);
    if last == 0 {
      OneWritten(text, from, until, d);
      assert number == [d];
    } else {
      var front, sep := Written(number[..last], seps[..last - 1]), seps[last - 1];
      Parts(text, from, until, front, sep, Numeral(d));
      WrittenIsChain(text, from, from + |front|, number[..last], seps[..last - 1]);
      ChainGoesOn(text, from, from + |front|, until, sep);
      assert number == number[..last] + [d];
    }
  }

  lemma NumeralIsItsDigit(d: Digit)
    ensures IsDigit(Numeral(d)) && Numeral(d) as int - '0' as int == d
  {
    NumeralsAreDigits('0');
    assert Numeral(d) == "0123456789"[d];
  }

  lemma ChainGoesOn(text: string, from: nat, end: nat, until: nat, sep: string)
    requires IsChain(text, from, end) && end < until <= |text| && IsDigit(text[until - 1])
    requires text[end..until - 1] == sep && sep in ["", " ", "-"]
    ensures IsChain(text, from, until)
    ensures Digits(text, from, until) == Digits(text, from, end) + [text[until - 1] as int - '0' as int]
  {
    hide Digits;
    if sep != "" {
      assert until == end + 2 && text[end..until - 1][0] == text[end];
      assert IsSeparator(text[end]);
      SeparatorAddsNoDigit(text, from, end);
    }
    LastDigitCounts(text, from, until);
  }

  lemma SeparatorAddsNoDigit(text: string, from: nat, end: nat)
    requires from <= end < |text| && IsSeparator(text[end])
    ensures Digits(text, from, end + 1) == Digits(text, from, end)
  {
  }

  lemma LastDigitCounts(text: string, from: nat, until: nat)
    requires from < until <= |text| && IsDigit(text[until - 1])
    ensures Digits(text, from, until) == Digits(text, from, until - 1) + [text[until - 1] as int - '0' as int]
  {
  }

  // ----- Candidates and cards -----

  lemma BoundariesAreNumerals(text: string, from: nat, until: nat)
    requires from < until <= |text| && IsDigit(text[from])
    ensures StartsGroup(text, from) <==> (from > 0 ==> text[from - 1] !in "0123456789")
    ensures EndsGroup(text, until) <==> (until < |text| ==> text[until] !in "0123456789")
  {
    if from > 0 {
      NumeralsAreDigits(text[from - 1]);
    }
    if until < |text| {
      NumeralsAreDigits(text[until]);
    }
  }

  /** The candidates are the written numbers of 13 to 19 digits. */
  lemma CandidateIsANumber(text: string, from: nat, until: nat)
    ensures IsCandidate(text, from, until) <==>
            exists number, seps :: 13 <= |number| <= 19 && IsWrittenAt(text, from, until, number, seps)
  {
    if IsCandidate(text, from, until) {
      var seps := ChainIsWritten(text, from, until);
      BoundariesAreNumerals(text, from, until);
      assert IsWrittenAt(text, from, until, Digits(text, from, until), seps);
    }
    if number, seps :| 13 <= |number| <= 19 && IsWrittenAt(text, from, until, number, seps) {
      NumberIsACandidate(text, from, until, number, seps);
    }
  }

  lemma NumberIsACandidate(text: string, from: nat, until: nat, number: seq<Digit>, seps: seq<string>)
    requires 13 <= |number| <= 19 && IsWrittenAt(text, from, until, number, seps)
    ensures IsCandidate(text, from, until) && Digits(text, from, until) == number
  {
    WrittenIsChain(text, from, until, number, seps);
    BoundariesAreNumerals(text, from, until);
  }

  /** `text[from..until]` is a card number: written as above, and with a checksum that is a multiple of ten. */
  ghost predicate IsCardNumber(text: string, from: nat, until: nat) {
    exists number, seps ::
      13 <= |number| <= 19 && IsWrittenAt(text, from, until, number, seps) && Checksum(number) % 10 == 0
  }

  /** The cards are those whose checksum is a multiple of ten. */
  lemma CardIsAValidNumber(text: string, from: nat, until: nat)
    ensures IsCard(text, from, until) <==> IsCardNumber(text, from, until)
  {
    hide IsCandidate, Checksum, IsWrittenAt;
    CandidateIsANumber(text, from, until);
    if IsCard(text, from, until) {
      var number, seps :| 13 <= |number| <= 19 && IsWrittenAt(text, from, until, number, seps);
      NumberIsACandidate(text, from, until, number, seps);
      ValidByChecksum(number);
    }
    if number, seps :|
      13 <= |number| <= 19 && IsWrittenAt(text, from, until, number, seps) && Checksum(number) % 10 == 0
    {
      NumberIsACandidate(text, from, until, number, seps);
      ValidByChecksum(number);
    }
  }

  /** Every card number lies inside one merged interval. */
  lemma CardNumberIsMerged(text: string, from: nat, until: nat) returns (i: nat)
    requires IsCardNumber(text, from, until)
    ensures var merged := Merge(CardSpans(text));
      i < |merged| && merged[i].start <= from && until <= merged[i].end
  {
    CardIsAValidNumber(text, from, until);
    RedactionFits(text);
    var merged := Merge(CardSpans(text));
    CardsAreCovered(text, from, until, from);
    i :| 0 <= i < |merged| && merged[i].start <= from < merged[i].end;
    assert !Covers(merged, merged[i].end);
    if merged[i].end < until {
      CardsAreCovered(text, from, until, merged[i].end);
      assert false;
    }
  }

  // ----- The redacted text -----

  ghost predicate InCardNumber(text: string, x: nat) {
    exists from: nat, until: nat :: from <= x < until && IsCardNumber(text, from, until)
  }

  /** The gaps with the fillings between them. */
  function Weave(gaps: seq<string>, fillings: seq<string>): string
    requires |gaps| == |fillings| + 1
  {
    var last := |fillings|;
    if last == 0 then gaps[0] else Weave(gaps[..last], fillings[..last - 1]) + fillings[last - 1] + gaps[last]
  }

  /** Where filling `i` starts. */
  function StartOf(gaps: seq<string>, fillings: seq<string>, i: nat): nat
    requires |gaps| == |fillings| + 1 && i < |fillings|
  {
    |Weave(gaps[..i + 1], fillings[..i])|
  }

  function GapsOf(text: string, merged: seq<Interval>): (gaps: seq<string>)
    requires Fits(text, merged, 0)
    ensures |gaps| == |merged| + 1
  {
    seq(|merged| + 1, i requires 0 <= i <= |merged| => text[GapStart(merged, i)..GapEnd(text, merged, i)])
  }

  function NumbersOf(text: string, merged: seq<Interval>): (numbers: seq<string>)
    requires Fits(text, merged, 0)
    ensures |numbers| == |merged|
  {
    seq(|merged|, i requires 0 <= i < |merged| => text[merged[i].start..merged[i].end])
  }

  function Marks(n: nat): seq<string> {
    seq(n, _ => "[REDACTED_CARD]")
  }

  lemma {:induction false} WeaveIsText(text: string, merged: seq<Interval>, i: nat)
    requires Fits(text, merged, 0) && i <= |merged|
    ensures Weave(GapsOf(text, merged)[..i + 1], NumbersOf(text, merged)[..i]) == text[..GapEnd(text, merged, i)]
    decreases i
  {
    var gaps, numbers := GapsOf(text, merged)[..i + 1], NumbersOf(text, merged)[..i];
    if i > 0 {
      WeaveIsText(text, merged, i - 1);
      assert gaps[..i] == GapsOf(text, merged)[..i] && numbers[..i - 1] == NumbersOf(text, merged)[..i - 1];
      var start, end := merged[i - 1].start, merged[i - 1].end;
      assert numbers[i - 1] == text[start..end] && gaps[i] == text[end..GapEnd(text, merged, i)];
      hide GapsOf, NumbersOf;
      Slices(text, start, end, GapEnd(text, merged, i));
    } else {
      assert gaps[0] == text[..GapEnd(text, merged, 0)];
    }
  }

  lemma Slices(text: string, a: nat, b: nat, c: nat)
    requires a <= b <= c <= |text|
    ensures text[..a] + text[a..b] + text[b..c] == text[..c]
  {
  }

  /** What is still to be rendered after gap `i`. */
  function Rest(text: string, merged: seq<Interval>, i: nat): string
    requires Fits(text, merged, 0) && i <= |merged|
  {
    if i == |merged| then "" else MARK + Render(text, merged[i + 1..], merged[i].end)
  }

  lemma {:induction false} WeaveRenders(text: string, merged: seq<Interval>, i: nat)
    requires Fits(text, merged, 0) && i <= |merged|
    ensures Weave(GapsOf(text, merged)[..i + 1], Marks(|merged|)[..i]) + Rest(text, merged, i)
            == Render(text, merged, 0)
    decreases i
  {
    hide Render, Rest, Fits;
    var gaps, marks := GapsOf(text, merged)[..i + 1], Marks(|merged|)[..i];
    if i == 0 {
      FirstGap(text, merged);
    } else {
      WeaveRenders(text, merged, i - 1);
      assert gaps[..i] == GapsOf(text, merged)[..i] && marks[..i - 1] == Marks(|merged|)[..i - 1];
      var before := Weave(gaps[..i], marks[..i - 1]);
      assert Weave(gaps, marks) == before + MARK + gaps[i];
      RestStep(text, merged, i);
      hide GapsOf, Weave;
      Regroup(before, MARK, gaps[i], Rest(text, merged, i));
    }
  }

  lemma FirstGap(text: string, merged: seq<Interval>)
    requires Fits(text, merged, 0)
    ensures GapsOf(text, merged)[0] + Rest(text, merged, 0) == Render(text, merged, 0)
  {
    if merged == [] {
      assert text[0..] + "" == text[0..];
    } else {
      Regroup("", text[0..merged[0].start], MARK, Render(text, merged[1..], merged[0].end));
    }
  }

  lemma RestStep(text: string, merged: seq<Interval>, i: nat)
    requires Fits(text, merged, 0) && 0 < i <= |merged|
    ensures Rest(text, merged, i - 1) == MARK + (GapsOf(text, merged)[i] + Rest(text, merged, i))
  {
    var from := merged[i - 1].end;
    assert GapsOf(text, merged)[i] == text[from..GapEnd(text, merged, i)];
    hide GapsOf;
    RenderStep(text, merged, i, from);
  }

  lemma RenderStep(text: string, merged: seq<Interval>, i: nat, from: nat)
    requires Fits(text, merged, 0) && 0 < i <= |merged| && from == merged[i - 1].end
    ensures Fits(text, merged[i..], from)
    ensures Render(text, merged[i..], from) == text[from..GapEnd(text, merged, i)] + Rest(text, merged, i)
  {
    assert Fits(text, merged[i..], from);
    if i < |merged| {
      assert merged[i..][0] == merged[i] && merged[i..][1..] == merged[i + 1..];
      Regroup("", text[from..merged[i].start], MARK, Render(text, merged[i + 1..], merged[i].end));
    } else {
      assert text[from..] == text[from..|text|] + "";
    }
  }

  lemma Regroup(a: string, b: string, c: string, d: string)
    ensures (a + b + c) + d == a + (b + (c + d))
  {
  }

  /**
   * The redacted text is the original with the marker in place of each maximal piece that card numbers cover, and
   * everything else as it was.
   */
  lemma RedactionReplacesCardNumbers(text: string) returns (gaps: seq<string>, numbers: seq<string>)
    ensures |gaps| == |numbers| + 1 && Weave(gaps, numbers) == text
    ensures Redacted(text) == Weave(gaps, Marks(|numbers|))
    ensures forall x: nat ::
      InCardNumber(text, x)
      <==> exists i :: 0 <= i < |numbers| && StartOf(gaps, numbers, i) <= x < StartOf(gaps, numbers, i) + |numbers[i]|
  {
    RedactionFits(text);
    var merged := Merge(CardSpans(text));
    hide Merge, CardSpans;
    gaps, numbers := GapsOf(text, merged), NumbersOf(text, merged);
    PiecesFit(text, merged);
    hide Weave, StartOf, GapsOf, NumbersOf, Fits, Marks, InCardNumber, Covers;
    forall x: nat
      ensures InCardNumber(text, x) <==>
        exists i :: 0 <= i < |numbers| && StartOf(gaps, numbers, i) <= x < StartOf(gaps, numbers, i) + |numbers[i]|
    {
      CoveredIsInCardNumber(text, x);
      CoveredIsInPiece(gaps, numbers, merged, x);
    }
  }

  lemma CoveredIsInPiece(gaps: seq<string>, numbers: seq<string>, merged: seq<Interval>, x: nat)
    requires |gaps| == |numbers| + 1 && |numbers| == |merged|
    requires forall i :: 0 <= i < |numbers| ==>
               StartOf(gaps, numbers, i) == merged[i].start && |numbers[i]| == merged[i].end - merged[i].start
    ensures Covers(merged, x) <==>
      exists i :: 0 <= i < |numbers| && StartOf(gaps, numbers, i) <= x < StartOf(gaps, numbers, i) + |numbers[i]|
  {
    hide StartOf;
    if Covers(merged, x) {
      var i :| 0 <= i < |merged| && merged[i].start <= x < merged[i].end;
      assert StartOf(gaps, numbers, i) <= x < StartOf(gaps, numbers, i) + |numbers[i]|;
    }
  }

  lemma PiecesFit(text: string, merged: seq<Interval>)
    requires Fits(text, merged, 0)
    ensures var gaps, numbers := GapsOf(text, merged), NumbersOf(text, merged);
      && Weave(gaps, numbers) == text && Weave(gaps, Marks(|numbers|)) == Render(text, merged, 0)
      && forall i :: 0 <= i < |numbers| ==>
           StartOf(gaps, numbers, i) == merged[i].start && |numbers[i]| == merged[i].end - merged[i].start
  {
    var gaps, numbers := GapsOf(text, merged), NumbersOf(text, merged);
    WeaveIsText(text, merged, |merged|);
    WeaveRenders(text, merged, |merged|);
    assert gaps[..|merged| + 1] == gaps && numbers[..|merged|] == numbers;
    assert Marks(|merged|)[..|merged|] == Marks(|merged|);
    assert text[..|text|] == text;
    var marked := Weave(gaps, Marks(|merged|));
    assert marked + "" == marked;
    hide Weave, Render, Fits, StartOf;
    forall i | 0 <= i < |numbers|
      ensures StartOf(gaps, numbers, i) == merged[i].start
    {
      PieceStarts(text, merged, i);
    }
  }

  lemma PieceStarts(text: string, merged: seq<Interval>, i: nat)
    requires Fits(text, merged, 0) && i < |merged|
    ensures StartOf(GapsOf(text, merged), NumbersOf(text, merged), i) == merged[i].start
  {
    WeaveIsText(text, merged, i);
    hide Weave, GapsOf, NumbersOf;
  }

  lemma CoveredIsInCardNumber(text: string, x: nat)
    ensures InCardNumber(text, x) <==> Covers(Merge(CardSpans(text)), x)
  {
    hide IsCardNumber, IsCard;
    if from: nat, until: nat :| from <= x < until && IsCardNumber(text, from, until) {
      CardIsAValidNumber(text, from, until);
      CardsAreCovered(text, from, until, x);
    }
    if Covers(Merge(CardSpans(text)), x) {
      SpansAreProper(text);
      MergeCoversTheUnion(CardSpans(text), x);
      SpansBeforeAreCards(text, |text|);
      var i :| 0 <= i < |CardSpans(text)| && CardSpans(text)[i].start <= x < CardSpans(text)[i].end;
      var span := CardSpans(text)[i];
      assert span in CardSpans(text) && IsScanned(text, span);
      CardIsAValidNumber(text, span.start, span.end);
    }
  }
}
