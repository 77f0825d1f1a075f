/** Pythagorean numerology (`getNumerologyScore`) and the compatibility
    chart between numerology numbers (`getNumerologyHarmony`). */
module Numerology {
  import opened Text

  /** The characters `[a-z]` keeps. */
  predicate IsLetter(c: char)
  {
    'a' <= c <= 'z'
  }

  predicate AllLetters(s: string)
  {
    forall i :: 0 <= i < |s| ==> IsLetter(s[i])
  }

  /** `name.toLowerCase().replace(/[^a-z]/g, '')`. */
  function Letters(name: string): (n: string)
    ensures IsSubsequence(n, LowerCase(name))
    ensures forall c :: multiset(n)[c] == if IsLetter(c) then multiset(LowerCase(name))[c] else 0
    ensures AllLetters(n)
    ensures forall c :: c in n <==> IsLetter(c) && c in LowerCase(name)
  {
    var n := Filter(LowerCase(name), c => IsLetter(c));
    assert forall i :: 0 <= i < |n| ==> n[i] in n;
    n
  }

  /** The value a letter adds to the sum: its position in the alphabet
      (`charCodeAt - 96`) modulo 9, with 0 read as 9. */
  function LetterValue(c: char): (v: nat)
    requires IsLetter(c)
    ensures 1 <= v <= 9
    ensures v % 9 == (c as int - 96) % 9
    ensures v == 9 <==> c == 'i' || c == 'r'
  {
    var val := (c as int - 96) % 9;
    if val == 0 then 9 else val
  }

  /** The letter values of `s`, summed from the left. Every letter adds
      between 1 and 9, so the sum lies between the number of letters and
      nine times it. */
  function LetterSum(s: string): (sum: nat)
    requires AllLetters(s)
    ensures |s| <= sum <= 9 * |s|
  {
    if s == [] then 0 else LetterSum(s[..|s| - 1]) + LetterValue(s[|s| - 1])
  }

  /** The digits of a digit string, added up (`reduce` over `parseInt`). */
  function SumDigits(s: string): nat
    requires IsDigits(s)
  {
    if s == [] then 0 else SumDigits(s[..|s| - 1]) + DigitValue(s[|s| - 1])
  }

  /** `num.toString().split('').reduce((acc, digit) => acc + parseInt(digit), 0)`. */
  function DigitSum(n: nat): (r: nat)
    ensures n < 10 ==> r == n
  {
    var s := Decimal(n);
    assert n < 10 ==> s == [DigitChar(n)] && s[..0] == []
                      && SumDigits(s) == SumDigits(s[..0]) + DigitValue(s[0])
                      && DigitValue(DigitChar(n)) == n;
    SumDigits(s)
  }

  /** The decimal digit sum, in arithmetic terms: the last digit plus the
      digit sum of the rest. */
  lemma DigitSumStep(n: nat)
    requires n >= 10
    ensures DigitSum(n) == DigitSum(n / 10) + n % 10
  {
    var s := Decimal(n);
    assert s[..|s| - 1] == Decimal(n / 10);
    assert DigitValue(DigitChar(n % 10)) == n % 10;
  }

  lemma {:induction false} DigitSumAtMost(n: nat)
    ensures DigitSum(n) <= n
    decreases n
  {
    if n >= 10 {
      DigitSumStep(n);
      DigitSumAtMost(n / 10);
    }
  }

  /** The step of `reduce` makes progress: the digit sum of a number with
      two or more digits is smaller than the number. */
  lemma DigitSumBelow(n: nat)
    requires n >= 10
    ensures DigitSum(n) < n
  {
    DigitSumStep(n);
    DigitSumAtMost(n / 10);
  }

  /** Only zero has digit sum zero. */
  lemma {:induction false} DigitSumPositive(n: nat)
    ensures DigitSum(n) == 0 <==> n == 0
    decreases n
  {
    if n >= 10 {
      DigitSumStep(n);
      DigitSumPositive(n / 10);
    }
  }

  /** Casting out nines: a number and its digit sum leave the same remainder
      modulo 9. */
  lemma {:induction false} DigitSumMod9(n: nat)
    ensures DigitSum(n) % 9 == n % 9
    decreases n
  {
    if n >= 10 {
      DigitSumStep(n);
      DigitSumMod9(n / 10);
      AppendDigitMod9(DigitSum(n / 10), n / 10, n % 10);
    }
  }

  lemma AppendDigitMod9(s: nat, q: nat, d: nat)
    requires s % 9 == q % 9
    ensures (s + d) % 9 == (10 * q + d) % 9
  {
    assert (s + d) % 9 == (q + d) % 9;
    assert (10 * q + d) % 9 == (q + d) % 9;
  }

  /** The master numbers, which are never reduced further. */
  predicate IsMaster(n: int)
  {
    n == 11 || n == 22 || n == 33
  }

  /** The numbers `getNumerologyScore` can return; 0 only for a name with no
      letter `a`..`z`. */
  predicate IsScore(n: int)
  {
    0 <= n <= 9 || IsMaster(n)
  }

  /** `reduce`: repeated digit sums until a master number or a single digit
      is reached. The master-number test comes first. The result keeps the
      remainder modulo 9 of the input and is zero only for zero. */
  function Reduce(num: nat): (r: nat)
    ensures IsScore(r)
    ensures r % 9 == num % 9
    ensures r == 0 <==> num == 0
    decreases num
  {
    if IsMaster(num) then num
    else if num < 10 then num
    else
      DigitSumBelow(num);
      DigitSumMod9(num);
      DigitSumPositive(num);
      Reduce(DigitSum(num))
  }

  /** The numerology number of a name, `getNumerologyScore(name)`: a digit
      or a master number, 0 exactly when the name has no letter `a`..`z`,
      and congruent modulo 9 to the sum of its letter values. */
  function Score(name: string): (r: nat)
    ensures IsScore(r)
    ensures r == 0 <==> Letters(name) == []
    ensures r % 9 == LetterSum(Letters(name)) % 9
  {
    Reduce(LetterSum(Letters(name)))
  }

  /** `getNumerologyScore`: a `for` loop adds up the letter values, then the
      sum is reduced. The score is a digit or a master number, and it is 0
      exactly when the name has no letter `a`..`z`. */
  method GetNumerologyScore(name: string) returns (score: nat)
    ensures score == Score(name)
    ensures IsScore(score)
    ensures score == 0 <==> Letters(name) == []
  {
    var n := Letters(name);
    var sum := 0;
    for i := 0 to |n|
      invariant sum == LetterSum(n[..i])
    {
      sum := sum + LetterValue(n[i]);
      assert n[..i + 1][..i] == n[..i];
    }
    assert n[..|n|] == n;
    score := Reduce(sum);
  }

  /** The master-number test runs before the single-digit test: 29 has digit
      sum 11, which stops there instead of going on to 2. */
  lemma ReduceStopsAtMaster()
    ensures DigitSum(29) == 11 && DigitSum(11) == 2
    ensures Reduce(29) == 11
  {
    DigitSumStep(29);
    DigitSumStep(11);
  }

  /** "a", the first letter, is worth 1. */
  lemma NumerologyOfA()
    ensures Score("a") == 1
  {
    assert LowerCase("a") == "a";
    assert Letters("a") == "a";
    assert "a"[..0] == [];
    assert LetterSum("a") == 1;
  }

  /** "i", the ninth letter, is worth 9 (its position modulo 9 is 0), in
      either case. */
  lemma NumerologyOfI()
    ensures Score("i") == 9
    ensures Score("I") == 9
  {
    assert LowerCase("i") == "i";
    assert LowerCase("I") == "i";
    assert Letters("i") == "i";
    assert Letters("I") == "i";
    assert "i"[..0] == [];
    assert LetterSum("i") == 9;
  }

  /** The compatibility chart, with `[]` for a number it does not list. */
  function Compatibility(n: int): (r: seq<int>)
    ensures forall k :: 0 <= k < |r| ==> IsScore(r[k]) && r[k] != 0
    ensures r != [] <==> 1 <= n <= 9 || IsMaster(n)
    ensures r != [] ==> n in r
  {
    if n == 1 then [1, 3, 5, 7, 9]
    else if n == 2 then [2, 4, 6, 8, 11]
    else if n == 3 then [1, 3, 6, 9]
    else if n == 4 then [2, 4, 7, 8, 22]
    else if n == 5 then [1, 5, 7, 33]
    else if n == 6 then [2, 3, 6, 9]
    else if n == 7 then [1, 4, 5, 7]
    else if n == 8 then [2, 4, 8]
    else if n == 9 then [1, 3, 6, 9]
    else if n == 11 then [2, 11, 22]
    else if n == 22 then [4, 11, 22]
    else if n == 33 then [6, 33]
    else []
  }

  /** `getNumerologyHarmony`: 95 for equal numbers, 85 when either number's
      list names the other, 50 otherwise. */
  function Harmony(num1: int, num2: int): (r: int)
    ensures r == 95 || r == 85 || r == 50
    ensures r == 95 <==> num1 == num2
    ensures r == 85 ==> IsScore(num1) && IsScore(num2) && num1 != 0 && num2 != 0
  {
    var list1 := Compatibility(num1);
    var list2 := Compatibility(num2);
    if num1 == num2 then 95
    else if num2 in list1 || num1 in list2 then 85
    else 50
  }

  /** The chart is checked both ways, so the score is symmetric. */
  lemma HarmonySymmetric(num1: int, num2: int)
    ensures Harmony(num1, num2) == Harmony(num2, num1)
  {
  }

  /** The chart itself is not symmetric (5 lists 33 but not the other way;
      33 lists 6 but not the other way), yet both orders of those pairs
      score 85. */
  lemma HarmonyAsymmetricChart()
    ensures 33 in Compatibility(5) && 5 !in Compatibility(33)
    ensures 6 in Compatibility(33) && 33 !in Compatibility(6)
    ensures Harmony(5, 33) == 85 && Harmony(33, 5) == 85
    ensures Harmony(6, 33) == 85 && Harmony(33, 6) == 85
  {
  }

  /** A number the chart does not list, such as 0 for a name without
      letters, scores 95 against itself and 50 against anything else. */
  lemma HarmonyUnlisted(num1: int, num2: int)
    requires Compatibility(num1) == []
    ensures Harmony(num1, num2) == if num1 == num2 then 95 else 50
  {
  }
}
