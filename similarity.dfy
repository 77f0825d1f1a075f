/** Letter overlap between two names: the Jaccard similarity of their
    character sets (`getLetterSymmetry`) and the list of shared letters that
    `calculateLoveAI` forwards to the remote model. */
module Similarity {
  import opened Text

  /** `new Set(n.toLowerCase().replace(/\s/g, '').split(''))`. */
  function CharSet(name: string): (r: set<char>)
    ensures forall c :: c in r <==> exists i :: 0 <= i < |name| && c == Lower(name[i]) && !IsSpace(c)
  {
    set c | c in Normalize(name)
  }

  lemma {:induction false} SubsetCardinality(a: set<char>, b: set<char>)
    requires a <= b
    ensures |a| <= |b|
    decreases |a|
  {
    if a != {} {
      var x :| x in a;
      SubsetCardinality(a - {x}, b - {x});
    }
  }

  lemma MulLeq(a: int, b: int, c: int)
    requires 0 <= a && b <= c
    ensures a * b <= a * c
  {
  }

  /** `Math.round(i / u * 100)` in exact arithmetic: the integer nearest to
      100·i/u, halves rounded up. */
  function RoundPercent(i: nat, u: nat): (r: nat)
    requires 0 < u && i <= u
    ensures r <= 100
    ensures u * (2 * r - 1) <= 200 * i < u * (2 * r + 1)
    ensures i == 0 ==> r == 0
    ensures i == u ==> r == 100
  {
    var a, b := 200 * i + u, 2 * u;
    var r, m := a / b, a % b;
    assert a == b * r + m && 0 <= m < b;
    NearestBounds(i, u, r, m);
    NearestRange(i, u, r, m);
    r
  }

  /** A quotient of `200·i + u` by `2·u` lies within half a unit of 100·i/u. */
  lemma NearestBounds(i: nat, u: nat, r: nat, m: nat)
    requires 0 < u && 200 * i + u == 2 * u * r + m && m < 2 * u
    ensures u * (2 * r - 1) <= 200 * i < u * (2 * r + 1)
  {
    assert u * (2 * r - 1) == 2 * u * r - u;
    assert u * (2 * r + 1) == 2 * u * r + u;
  }

  /** That quotient is a percentage, 0 for `i = 0` and 100 for `i = u`. */
  lemma NearestRange(i: nat, u: nat, r: nat, m: nat)
    requires 0 < u && i <= u && 200 * i + u == 2 * u * r + m && m < 2 * u
    ensures r <= 100
    ensures i == 0 ==> r == 0
    ensures i == u ==> r == 100
  {
    var b := 2 * u;
    assert b * r == 2 * u * r;
    if r > 100 {
      MulLeq(b, 101, r);
    }
    if i == 0 && r > 0 {
      MulLeq(b, 1, r);
    }
    if i == u && r < 100 {
      MulLeq(b, r, 99);
    }
  }

  /** The body of `getLetterSymmetry` on the two character sets: 0 when
      both are empty, otherwise the size of their intersection as a rounded
      percentage of their union. The result lies in [0, 100]; disjoint sets
      give 0, equal non-empty sets give 100. */
  function Jaccard(s1: set<char>, s2: set<char>): (r: nat)
    ensures r <= 100
    ensures s1 * s2 == {} ==> r == 0
    ensures s1 == s2 != {} ==> r == 100
    ensures s1 + s2 != {} ==>
              |s1 + s2| * (2 * r - 1) <= 200 * |s1 * s2| < |s1 + s2| * (2 * r + 1)
  {
    var intersection, union := s1 * s2, s1 + s2;
    if |union| == 0 then 0
    else
      SubsetCardinality(intersection, union);
      assert s1 == s2 ==> intersection == union;
      RoundPercent(|intersection|, |union|)
  }

  /** `getLetterSymmetry(n1, n2)`: a percentage, 0 when the names share no
      character (or neither has one), 100 when they have the same non-empty
      set of characters. */
  function LetterSymmetry(n1: string, n2: string): (r: nat)
    ensures r <= 100
    ensures CharSet(n1) * CharSet(n2) == {} ==> r == 0
    ensures CharSet(n1) == CharSet(n2) != {} ==> r == 100
  {
    Jaccard(CharSet(n1), CharSet(n2))
  }

  /** The similarity does not depend on the order of the names. */
  lemma LetterSymmetrySymmetric(n1: string, n2: string)
    ensures LetterSymmetry(n1, n2) == LetterSymmetry(n2, n1)
  {
    JaccardSymmetric(CharSet(n1), CharSet(n2));
  }

  lemma JaccardSymmetric(s1: set<char>, s2: set<char>)
    ensures Jaccard(s1, s2) == Jaccard(s2, s1)
  {
    assert s1 * s2 == s2 * s1;
    assert s1 + s2 == s2 + s1;
  }

  /** A name compared with itself scores 100 once it has a character that
      is not whitespace. */
  lemma LetterSymmetrySelf(name: string, k: nat)
    requires k < |name| && !IsSpace(Lower(name[k]))
    ensures LetterSymmetry(name, name) == 100
  {
    assert Lower(name[k]) in CharSet(name);
  }

  /** "Amit" against itself scores 100; "A" against "B" scores 0. */
  lemma LetterSymmetryExamples()
    ensures LetterSymmetry("Amit", "Amit") == 100
    ensures LetterSymmetry("A", "B") == 0
  {
    LetterSymmetrySelf("Amit", 0);
    CharSetSingle('A');
    CharSetSingle('B');
  }

  /** The character set of a one-character name. */
  lemma CharSetSingle(c: char)
    requires !IsSpace(Lower(c))
    ensures CharSet([c]) == {Lower(c)}
  {
    assert Lower(c) in CharSet([c]);
  }

  /** The shared-letters list:
      `name1.toLowerCase().split('').filter(c => name2.toLowerCase().includes(c) && c !== ' ')`.
      It keeps the characters of the lower-cased first name, in their order
      and with duplicates, that occur in the lower-cased second name, except
      the space character. */
  function SharedLetters(name1: string, name2: string): (r: string)
    ensures IsSubsequence(r, LowerCase(name1))
    ensures forall c :: multiset(r)[c] ==
              if c != ' ' && c in LowerCase(name2) then multiset(LowerCase(name1))[c] else 0
  {
    var lower2 := LowerCase(name2);
    Filter(LowerCase(name1), c => c in lower2 && c != ' ')
  }

  /** Only the space character is excluded from the shared letters: a tab
      both names contain is shared, although the letter games drop it. */
  lemma SharedLettersKeepTab(name1: string, name2: string)
    requires '\t' in name1 && '\t' in name2
    ensures '\t' in SharedLetters(name1, name2)
    ensures '\t' !in Normalize(name1)
  {
    var k1 :| 0 <= k1 < |name1| && name1[k1] == '\t';
    var k2 :| 0 <= k2 < |name2| && name2[k2] == '\t';
    assert LowerCase(name1)[k1] == '\t';
    assert LowerCase(name2)[k2] == '\t';
    assert '\t' in multiset(LowerCase(name1));
  }
}
