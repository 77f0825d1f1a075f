/** Character and string helpers shared by the scoring functions of the
    love service: lower-casing, the whitespace class of a JavaScript regular
    expression, filtering, counting, first-occurrence de-duplication and the
    decimal rendering of a number (`Number.prototype.toString`). */
module Text {

  /** `toLowerCase` on one character, restricted to ASCII: `A`..`Z` become
      `a`..`z`, every other character is left as it is. */
  function Lower(c: char): (r: char)
    ensures 'A' <= c <= 'Z' ==> r as int == c as int + 32
    ensures !('A' <= c <= 'Z') ==> r == c
    ensures !('A' <= r <= 'Z')
    ensures ('a' <= r <= 'z') <==> ('a' <= c <= 'z' || 'A' <= c <= 'Z')
  {
    if 'A' <= c <= 'Z' then (c as int + 32) as char else c
  }

  /** The class `\s` of a JavaScript regular expression (ECMAScript WhiteSpace
      and LineTerminator): tab, line feed, vertical tab, form feed, carriage
      return, space, no-break space, the byte order mark, the Unicode space
      separators and the line and paragraph separators. */
  predicate IsSpace(c: char)
    ensures c == ' ' || c == '\t' || c == '\n' || c == '\r' ==> IsSpace(c)
    ensures IsSpace(c) ==> !('0' <= c <= '9' || 'a' <= c <= 'z' || 'A' <= c <= 'Z')
  {
    var k := c as int;
    (9 <= k <= 13) || k == 0x20 || k == 0xA0 || k == 0x1680
    || (0x2000 <= k <= 0x200A) || k == 0x2028 || k == 0x2029
    || k == 0x202F || k == 0x205F || k == 0x3000 || k == 0xFEFF
  }

  /** `s.toLowerCase()`, character by character. */
  function LowerCase(s: string): (r: string)
    ensures |r| == |s|
    ensures forall i :: 0 <= i < |s| ==> r[i] == Lower(s[i])
  {
    seq(|s|, i requires 0 <= i < |s| => Lower(s[i]))
  }

  /** `r` is obtained from `s` by deleting some elements, keeping the order. */
  predicate IsSubsequence(r: string, s: string)
    decreases |s|
  {
    if r == [] then true
    else if s == [] then false
    else if r[0] == s[0] then IsSubsequence(r[1..], s[1..])
    else IsSubsequence(r, s[1..])
  }

  /** `s.filter(keep)`: the elements of `s` that satisfy `keep`, duplicates
      and order preserved. */
  function Filter(s: string, keep: char -> bool): (r: string)
    ensures IsSubsequence(r, s)
    ensures forall x :: x in r <==> x in s && keep(x)
    ensures forall x :: multiset(r)[x] == if keep(x) then multiset(s)[x] else 0
  {
    if s == [] then []
    else
      var rest := Filter(s[1..], keep);
      assert s == [s[0]] + s[1..];
      if keep(s[0]) then [s[0]] + rest else rest
  }

  /** `s.replace(/\s/g, '')`. */
  function RemoveSpaces(s: string): (r: string)
    ensures IsSubsequence(r, s)
    ensures forall c :: multiset(r)[c] == if IsSpace(c) then 0 else multiset(s)[c]
    ensures forall c :: c in r <==> c in s && !IsSpace(c)
  {
    Filter(s, c => !IsSpace(c))
  }

  /** The normalisation the letter games apply to a name:
      `n.toLowerCase().replace(/\s/g, '').split('')`. */
  function Normalize(name: string): (r: string)
    ensures IsSubsequence(r, LowerCase(name))
    ensures forall c :: multiset(r)[c] == if IsSpace(c) then 0 else multiset(LowerCase(name))[c]
    ensures forall c :: c in r <==> exists i :: 0 <= i < |name| && c == Lower(name[i]) && !IsSpace(c)
  {
    var lower := LowerCase(name);
    assert forall c :: c in lower <==> exists i :: 0 <= i < |name| && c == Lower(name[i]);
    RemoveSpaces(lower)
  }

  /** `s.filter(x => x === c).length`: how often `c` occurs in `s`. */
  function Occurrences(s: string, c: char): (n: nat)
    ensures n == multiset(s)[c]
  {
    if s == [] then 0
    else
      assert s == [s[0]] + s[1..];
      (if s[0] == c then 1 else 0) + Occurrences(s[1..], c)
  }

  /** No element of `s` occurs twice. */
  predicate NoDup(s: string)
  {
    forall i, j :: 0 <= i < j < |s| ==> s[i] != s[j]
  }

  /** The index of the first occurrence of `x` in `s`. */
  function FirstIndex(s: string, x: char): (i: nat)
    requires x in s
    ensures i < |s| && s[i] == x
    ensures forall j :: 0 <= j < i ==> s[j] != x
  {
    if s[0] == x then 0 else 1 + FirstIndex(s[1..], x)
  }

  /** Dropping the last element of `s` keeps the first occurrences of the
      elements before it, and a last element that is new is first seen at
      the end. */
  lemma FirstIndexPrefix(s: string)
    requires s != []
    ensures forall y :: y in s[..|s| - 1] ==> FirstIndex(s, y) == FirstIndex(s[..|s| - 1], y)
    ensures s[|s| - 1] !in s[..|s| - 1] ==> FirstIndex(s, s[|s| - 1]) == |s| - 1
  {
    var front := s[..|s| - 1];
    forall y | y in front ensures FirstIndex(s, y) == FirstIndex(front, y) {
      var k, m := FirstIndex(front, y), FirstIndex(s, y);
      assert s[k] == y;
      assert m < |front| ==> front[m] == y;
    }
    var last := s[|s| - 1];
    if last !in front {
      assert forall j :: 0 <= j < |front| ==> s[j] == front[j] != last;
    }
  }

  /** `[...new Set(s)]`: the distinct elements of `s`, inserted into the set
      from left to right, listed in the order of their first occurrence. */
  function Distinct(s: string): (r: string)
    ensures NoDup(r)
    ensures forall x :: x in r <==> x in s
    ensures forall i, j :: 0 <= i < j < |r| ==> FirstIndex(s, r[i]) < FirstIndex(s, r[j])
  {
    if s == [] then []
    else
      var front, last := s[..|s| - 1], s[|s| - 1];
      var prev := Distinct(front);
      assert s == front + [last];
      FirstIndexPrefix(s);
      if last in prev then prev else prev + [last]
  }

  /** The decimal digit character of `d`. */
  function DigitChar(d: nat): (c: char)
    requires d < 10
    ensures '0' <= c <= '9'
  {
    ('0' as int + d) as char
  }

  /** The value of a decimal digit character: `parseInt` of one digit. */
  function DigitValue(c: char): (d: nat)
    requires '0' <= c <= '9'
    ensures d < 10
  {
    c as int - '0' as int
  }

  /** `n.toString()` for a non-negative integer. */
  function Decimal(n: nat): (s: string)
    ensures |s| > 0
    ensures forall i :: 0 <= i < |s| ==> '0' <= s[i] <= '9'
    ensures s[0] == '0' <==> n == 0
  {
    if n < 10 then [DigitChar(n)] else Decimal(n / 10) + [DigitChar(n % 10)]
  }

  predicate IsDigits(s: string)
  {
    forall i :: 0 <= i < |s| ==> '0' <= s[i] <= '9'
  }

  /** The number a string of decimal digits denotes. */
  function ValueOf(s: string): (n: nat)
    requires IsDigits(s)
  {
    if s == [] then 0 else 10 * ValueOf(s[..|s| - 1]) + DigitValue(s[|s| - 1])
  }

  /** Reading back the decimal rendering of `n` gives `n`. */
  lemma {:induction false} DecimalRoundTrip(n: nat)
    ensures ValueOf(Decimal(n)) == n
  {
    var s := Decimal(n);
    if n < 10 {
      assert s[..0] == [];
    } else {
      DecimalRoundTrip(n / 10);
      assert s[..|s| - 1] == Decimal(n / 10);
    }
  }

  /** Different numbers have different decimal renderings. */
  lemma DecimalInjective(m: nat, n: nat)
    requires Decimal(m) == Decimal(n)
    ensures m == n
  {
    DecimalRoundTrip(m);
    DecimalRoundTrip(n);
  }
}
