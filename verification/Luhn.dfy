/** Payment-card check digits (src/sensitive-data-guard/detectors.ts; Annex B of ISO/IEC 7812-1). */
module Luhn {

  type Digit = d: int | 0 <= d <= 9

  /** What one digit adds to the sum; a doubled digit adds the sum of the digits of its double. */
  function Weight(digit: Digit, double: bool): Digit {
    if !double then digit else if digit < 5 then 2 * digit else 2 * digit - 9
  }

  /** The weighted sum: every second digit counts double, starting next to the last one. */
  function Sum(digits: seq<Digit>): nat {
    if digits == [] then 0 else Weight(digits[0], |digits| % 2 == 0) + Sum(digits[1..])
  }

  predicate Checks(digits: seq<Digit>) {
    Sum(digits) % 10 == 0
  }

  predicate IsDigit(c: char) { '0' <= c <= '9' }

  function ToDigit(c: char): Digit
    requires IsDigit(c)
  {
    (c - '0') as int
  }

  predicate AllDigits(value: string) {
    forall c :: c in value ==> IsDigit(c)
  }

  function Digits(value: string): seq<Digit>
    requires AllDigits(value)
  {
    seq(|value|, i requires 0 <= i < |value| => ToDigit(value[i]))
  }

  /** The two guards of the source: 13 to 19 digits that are not all the same. */
  predicate Candidate(value: string) {
    13 <= |value| <= 19 && AllDigits(value) && exists i :: 0 <= i < |value| && value[i] != value[0]
  }

  /** The source's loop, from the last digit to the first. */
  method Luhn(value: string) returns (valid: bool)
    ensures valid <==> Candidate(value) && Checks(Digits(value))
  {
    if !(13 <= |value| <= 19) || !AllDigits(value) || (forall i :: 0 <= i < |value| ==> value[i] == value[0]) {
      return false;
    }
    var sum := WeightedSum(value);
    return sum % 10 == 0;
  }

  method WeightedSum(value: string) returns (sum: int)
    requires AllDigits(value)
    ensures sum == Sum(Digits(value))
  {
    ghost var digits := Digits(value);
    assert digits[|value|..] == [];
    sum := 0;
    var double := false;
    var i := |value| - 1;
    while i >= 0
      invariant -1 <= i < |value|
      invariant double <==> (|digits| - i) % 2 == 0
      invariant sum == Sum(digits[i + 1..])
    {
      var digit: int := ToDigit(value[i]);
      if double {
        digit := digit * 2;
      }
      sum := sum + if digit > 9 then digit - 9 else digit;
      assert digits[i] == ToDigit(value[i]);
      SumSuffix(digits, i);
      NextParity(|digits| - i);
      i, double := i - 1, !double;
    }
    assert digits[0..] == digits;
  }

  lemma NextParity(n: int)
    ensures (n + 1) % 2 == 0 <==> n % 2 != 0
  {
  }

  lemma SumSuffix(digits: seq<Digit>, i: nat)
    requires i < |digits|
    ensures Sum(digits[i..]) == Weight(digits[i], (|digits| - i) % 2 == 0) + Sum(digits[i + 1..])
  {
    assert digits[i..][1..] == digits[i + 1..];
  }

  // ----- Error detection -----

  lemma {:induction false} SumChange(digits: seq<Digit>, i: nat, d: Digit)
    requires i < |digits|
    ensures Sum(digits[i := d]) - Sum(digits)
            == Weight(d, (|digits| - i) % 2 == 0) - Weight(digits[i], (|digits| - i) % 2 == 0)
    decreases i
  {
    if i == 0 {
      assert digits[0 := d][1..] == digits[1..];
    } else {
      SumChange(digits[1..], i - 1, d);
      assert digits[i := d][1..] == digits[1..][i - 1 := d];
    }
  }

  lemma ShiftByMultiple(s: int, change: int)
    requires s % 10 == 0
    ensures (s + change) % 10 == 0 <==> change % 10 == 0
  {
  }

  /** A wrong digit, anywhere in a string of any length, changes the sum modulo ten. */
  lemma SingleErrorDetected(digits: seq<Digit>, i: nat, d: Digit)
    requires i < |digits| && d != digits[i] && Checks(digits)
    ensures !Checks(digits[i := d])
  {
    hide Sum;
    SumChange(digits, i, d);
    var change := Weight(d, (|digits| - i) % 2 == 0) - Weight(digits[i], (|digits| - i) % 2 == 0);
    assert change != 0;
    ShiftByMultiple(Sum(digits), change);
  }

  function Swap(digits: seq<Digit>, i: nat): seq<Digit>
    requires i + 1 < |digits|
  {
    digits[i := digits[i + 1]][i + 1 := digits[i]]
  }

  /** Swapping neighbours goes unnoticed exactly when they are equal or are 0 and 9. */
  lemma TranspositionDetected(digits: seq<Digit>, i: nat)
    requires i + 1 < |digits| && Checks(digits)
    ensures Checks(Swap(digits, i)) <==> digits[i] == digits[i + 1] || {digits[i] as int, digits[i + 1] as int} == {0, 9}
  {
    hide Sum, Weight;
    var a, b := digits[i], digits[i + 1];
    SumChange(digits, i, b);
    SumChange(digits[i := b], i + 1, a);
    var even := (|digits| - i) % 2 == 0;
    var change := Weight(b, even) - Weight(a, even) + Weight(a, !even) - Weight(b, !even);
    assert (|digits| - (i + 1)) % 2 == 0 <==> !even;
    assert Sum(Swap(digits, i)) - Sum(digits) == change;
    TranspositionChange(a, b);
    ShiftByMultiple(Sum(digits), change);
  }

  lemma TranspositionChange(a: Digit, b: Digit)
    ensures (Weight(b, true) - Weight(a, true) + Weight(a, false) - Weight(b, false)) % 10 == 0
            <==> a == b || {a as int, b as int} == {0, 9}
    ensures (Weight(b, false) - Weight(a, false) + Weight(a, true) - Weight(b, true)) % 10 == 0
            <==> a == b || {a as int, b as int} == {0, 9}
  {
    assert {a as int, b as int} == {0, 9} <==> (a == 0 && b == 9) || (a == 9 && b == 0) by {
      if {a as int, b as int} == {0, 9} {
        assert a as int in {0, 9} && b as int in {0, 9} && 0 in {a as int, b as int} && 9 in {a as int, b as int};
      }
    }
  }

  // ----- Check digits -----

  lemma {:induction false} SumAppend(prefix: seq<Digit>, d: Digit)
    ensures Sum(prefix + [d]) == Sum(prefix + [0]) + d
  {
    SumChange(prefix + [0], |prefix|, d);
    assert (prefix + [0])[|prefix| := d] == prefix + [d];
  }

  function CheckDigit(prefix: seq<Digit>): Digit {
    (10 - Sum(prefix + [0]) % 10) % 10
  }

  /** Every prefix has exactly one check digit. */
  lemma CheckDigitIsUnique(prefix: seq<Digit>, d: Digit)
    ensures Checks(prefix + [d]) <==> d == CheckDigit(prefix)
  {
    SumAppend(prefix, d);
  }

  function Char(d: Digit): char { '0' + d as char }

  /** A card number of acceptable length is completed by its check digit alone, unless that repeats one digit throughout. */
  lemma CompletedByCheckDigit(prefix: string, c: char)
    requires 12 <= |prefix| <= 18 && AllDigits(prefix)
    ensures Candidate(prefix + [c]) && Checks(Digits(prefix + [c]))
            <==> c == Char(CheckDigit(Digits(prefix))) && exists i :: 0 <= i < |prefix| && (prefix + [c])[i] != c
  {
    var value := prefix + [c];
    if IsDigit(c) {
      assert Digits(value) == Digits(prefix) + [ToDigit(c)];
      CheckDigitIsUnique(Digits(prefix), ToDigit(c));
      assert Char(ToDigit(c)) == c;
      if i :| 0 <= i < |value| && value[i] != value[0] {
        assert value[|prefix|] == c;
        if value[0] == c { assert i < |prefix| && value[i] != c; } else { assert value[0] != c; }
      }
      if i :| 0 <= i < |prefix| && value[i] != c {
        assert value[|prefix|] == c;
        if value[0] == value[i] { assert value[|prefix|] != value[0]; }
      }
    } else {
      assert c in value;
    }
  }
}
