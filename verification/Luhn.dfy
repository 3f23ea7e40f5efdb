/**
The checksum that decides whether a digit run is a payment-card number
(app/core/pii.py, `luhn_check`), and the error-detecting strength that makes
it worth checking.
*/
module Luhn {

  type Digit = d: int | 0 <= d <= 9

  /** The digit at a position counted from the right, the last digit being position 0. */
  function FromRight(number: seq<Digit>, position: nat): Digit
    requires position < |number|
  {
    number[|number| - 1 - position]
  }

  /** What a digit contributes at a position counted from the right. */
  function Weight(position: nat, digit: Digit): Digit {
    if position % 2 == 0 then digit
    else if digit * 2 > 9 then digit * 2 - 9
    else digit * 2
  }

  /** The weights of the digits from `position` leftwards, when the last digit stands at position `shift`. */
  function Sum(number: seq<Digit>, position: nat, shift: nat): int
    requires position <= |number|
    decreases |number| - position
  {
    if position == |number| then 0
    else Weight(position + shift, FromRight(number, position)) + Sum(number, position + 1, shift)
  }

  predicate Valid(number: seq<Digit>) {
    Sum(number, 0, 0) % 10 == 0
  }

  /** The running checksum over the reversed digits. */
  method LuhnCheck(number: seq<Digit>) returns (valid: bool)
    ensures valid == Valid(number)
  {
    var checksum := 0;
    var i := 0;
    while i < |number|
      invariant 0 <= i <= |number|
      invariant checksum + Sum(number, i, 0) == Sum(number, 0, 0)
    {
      var digit: int := FromRight(number, i);
      if i % 2 == 1 {
        digit := digit * 2;
        if digit > 9 {
          digit := digit - 9;
        }
      }
      checksum := checksum + digit;
      i := i + 1;
    }
    valid := checksum % 10 == 0;
  }

  /**
   * The checksum as the standard has it, read from the left: every second digit, counted from the last but one, is
   * doubled, and nine is taken off what has two digits.
   */
  function Checksum(number: seq<Digit>): int {
    if number == [] then 0
    else
      var d: int := number[0];
      (if |number| % 2 == 1 then d else if d < 5 then 2 * d else 2 * d - 9) + Checksum(number[1..])
  }

  lemma {:induction false} SumWithoutFirst(number: seq<Digit>, position: nat)
    requires position < |number|
    ensures Sum(number, position, 0) == Sum(number[1..], position, 0) + Weight(|number| - 1, number[0])
    decreases |number| - position
  {
    if position < |number| - 1 {
      SumWithoutFirst(number, position + 1);
      assert FromRight(number, position) == FromRight(number[1..], position);
    }
  }

  /** A number is valid exactly when its checksum is a multiple of ten. */
  lemma {:induction false} ValidByChecksum(number: seq<Digit>)
    ensures Sum(number, 0, 0) == Checksum(number)
    ensures Valid(number) <==> Checksum(number) % 10 == 0
    decreases |number|
  {
    if number != [] {
      ValidByChecksum(number[1..]);
      SumWithoutFirst(number, 0);
    }
  }

  /** A number known to be valid. */
  lemma KnownNumber()
    ensures Valid([7, 9, 9, 2, 7, 3, 9, 8, 7, 1, 3])
  {
    var a: seq<Digit> := [7, 9, 9, 2, 7, 3, 9, 8, 7, 1, 3];
    assert Sum(a, 10, 0) == 7;
    assert Sum(a, 9, 0) == 16;
    assert Sum(a, 8, 0) == 25;
    assert Sum(a, 7, 0) == 29;
    assert Sum(a, 6, 0) == 36;
    assert Sum(a, 5, 0) == 42;
    assert Sum(a, 4, 0) == 51;
    assert Sum(a, 3, 0) == 58;
    assert Sum(a, 2, 0) == 65;
    assert Sum(a, 1, 0) == 67;
  }

  // ----- Strength -----

  /** Digits that agree from `position` leftwards have the same sum there, whatever lies to the right. */
  lemma {:induction false} SumOfAgreeing(a: seq<Digit>, b: seq<Digit>, i: nat, j: nat, shift: nat)
    requires i <= |a| && j <= |b| && |a| - i == |b| - j
    requires forall k :: 0 <= k < |a| - i ==> a[k] == b[k]
    requires i <= j
    ensures Sum(a, i, shift + j - i) == Sum(b, j, shift)
    decreases |a| - i
  {
    if i < |a| {
      assert a[|a| - 1 - i] == b[|b| - 1 - j];
      SumOfAgreeing(a, b, i + 1, j + 1, shift);
    }
  }

  /** Numbers that differ only in the digits at positions `low` to `high - 1` differ by the weights of those. */
  lemma {:induction false} SumDifference(a: seq<Digit>, b: seq<Digit>, position: nat, low: nat, high: nat)
    requires |a| == |b| && position <= low <= high <= |a|
    requires forall k :: 0 <= k < |a| && !(low <= |a| - 1 - k < high) ==> a[k] == b[k]
    ensures Sum(a, position, 0) - Sum(a, low, 0) == Sum(b, position, 0) - Sum(b, low, 0)
    ensures Sum(a, high, 0) == Sum(b, high, 0)
    decreases low - position
  {
    if position < low {
      assert a[|a| - 1 - position] == b[|b| - 1 - position];
      SumDifference(a, b, position + 1, low, high);
    } else {
      SumOfAgreeing(a, b, high, high, 0);
    }
  }

  /** What replacing one digit does to the checksum. */
  lemma SumAfterChange(number: seq<Digit>, k: nat, d: Digit)
    requires k < |number|
    ensures Sum(number[k := d], 0, 0) ==
            Sum(number, 0, 0) + Weight(|number| - 1 - k, d) - Weight(|number| - 1 - k, number[k])
  {
    var position := |number| - 1 - k;
    SumDifference(number, number[k := d], 0, position, position + 1);
  }

  /** Doubling and casting out nines is a bijection on digits, so different digits weigh differently. */
  lemma WeightIsInjective(position: nat, c: Digit, d: Digit)
    ensures Weight(position, c) == Weight(position, d) <==> c == d
  {
  }

  /** Changing exactly one digit of a valid number, wherever it stands, makes the number invalid. */
  lemma SingleDigitErrorDetected(number: seq<Digit>, k: nat, d: Digit)
    requires Valid(number)
    requires k < |number| && d != number[k]
    ensures !Valid(number[k := d])
  {
    SumAfterChange(number, k, d);
    WeightIsInjective(|number| - 1 - k, d, number[k]);
    NotBothMultiplesOfTen(Sum(number, 0, 0), Weight(|number| - 1 - k, d), Weight(|number| - 1 - k, number[k]));
  }

  lemma NotBothMultiplesOfTen(sum: int, v: Digit, w: Digit)
    requires sum % 10 == 0 && v != w
    ensures (sum + v - w) % 10 != 0
  {
  }

  lemma MultipleOfTen(sum: int, change: int)
    requires sum % 10 == 0 && -18 <= change <= 18
    ensures (sum + change) % 10 == 0 <==> change == -10 || change == 0 || change == 10
  {
  }

  /** The two weights of a swapped pair agree modulo 10 only for equal digits and for 0 and 9. */
  lemma SwappedWeights(sum: int, position: nat, c: Digit, d: Digit)
    requires sum % 10 == 0
    ensures var change := Weight(position + 1, d) - Weight(position + 1, c) + Weight(position, c) - Weight(position, d);
            (sum + change) % 10 == 0 <==> c == d || (c == 0 && d == 9) || (c == 9 && d == 0)
  {
    var change := Weight(position + 1, d) - Weight(position + 1, c) + Weight(position, c) - Weight(position, d);
    assert -18 <= change <= 18;
    MultipleOfTen(sum, change);
  }

  /** Swapping two adjacent digits goes unnoticed exactly when they are equal or are 0 and 9. */
  lemma TranspositionDetected(number: seq<Digit>, k: nat)
    requires Valid(number)
    requires k + 1 < |number|
    ensures var c, d := number[k], number[k + 1];
            Valid(number[k := d][k + 1 := c]) <==> c == d || (c == 0 && d == 9) || (c == 9 && d == 0)
  {
    var c, d := number[k], number[k + 1];
    SumAfterChange(number, k, d);
    SumAfterChange(number[k := d], k + 1, c);
    SwappedWeights(Sum(number, 0, 0), |number| - 2 - k, c, d);
  }

  function CheckDigit(payload: seq<Digit>): Digit {
    (10 - Sum(payload, 0, 1) % 10) % 10
  }

  /** Every payload is completed by one check digit and by no other (Annex B of ISO/IEC 7812-1). */
  lemma ExactlyOneCheckDigit(payload: seq<Digit>, c: Digit)
    ensures Valid(payload + [c]) <==> c == CheckDigit(payload)
  {
    SumOfAgreeing(payload, payload + [c], 0, 1, 0);
  }
}
