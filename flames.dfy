/** The FLAMES letter-elimination game (`getFlames`): the two names' letters
    are compared, the number of unmatched letters is the step of a circular
    count over the six labels, and the label left standing is the outcome. */
module Flames {
  import opened Text

  /** The six labels of the game. */
  datatype Flame = Friendship | Love | Affection | Marriage | Enmity | Soulmates

  /** The text of each label, as the source spells it. */
  function Name(f: Flame): string
  {
    match f
    case Friendship => "Friendship"
    case Love => "Love"
    case Affection => "Affection"
    case Marriage => "Marriage"
    case Enmity => "Enmity"
    case Soulmates => "Soulmates"
  }

  /** The six labels, in the order the game counts them. */
  const Labels: seq<Flame> := [Friendship, Love, Affection, Marriage, Enmity, Soulmates]

  /** `Math.abs(count1 - count2)` for the character `c`. */
  function Gap(c: char, name1: string, name2: string): (r: nat)
    ensures r + multiset(name2)[c] == multiset(name1)[c] || r + multiset(name1)[c] == multiset(name2)[c]
    ensures r == 0 <==> multiset(name1)[c] == multiset(name2)[c]
  {
    var d := Occurrences(name1, c) - Occurrences(name2, c);
    if d < 0 then -d else d
  }

  /** The sum of the gaps of the characters `cs`, added up from the left
      (the order of the `forEach`). */
  function SumGaps(cs: string, name1: string, name2: string): nat
  {
    if cs == [] then 0 else SumGaps(cs[..|cs| - 1], name1, name2) + Gap(cs[|cs| - 1], name1, name2)
  }

  /** The `count` of unmatched letters of two normalised names: the gaps
      summed over the distinct characters of `name1 + name2`. */
  function Mismatch(name1: string, name2: string): (r: nat)
    ensures r == 0 <==> forall c :: c in name1 + name2 ==> Occurrences(name1, c) == Occurrences(name2, c)
  {
    var combined := Distinct(name1 + name2);
    SumGapsZero(combined, name1, name2);
    SumGaps(combined, name1, name2)
  }

  /** The order in which the circular count removes the labels of `flames`,
      starting at `current` with step `count`; the last element is the label
      left standing. It is a permutation of `flames`. */
  function EliminationOrder(flames: seq<Flame>, current: nat, count: nat): (order: seq<Flame>)
    requires current < |flames|
    requires count >= 1
    ensures |order| == |flames|
    decreases |flames|
  {
    if |flames| == 1 then flames
    else
      var removeIndex := (current + count - 1) % |flames|;
      var rest := flames[..removeIndex] + flames[removeIndex + 1..];
      [flames[removeIndex]] + EliminationOrder(rest, removeIndex % |rest|, count)
  }

  /** Every label is removed exactly once, except the one left standing:
      the elimination order is a permutation of the labels. */
  lemma {:induction false} EliminationPermutation(flames: seq<Flame>, current: nat, count: nat)
    requires current < |flames|
    requires count >= 1
    ensures multiset(EliminationOrder(flames, current, count)) == multiset(flames)
    decreases |flames|
  {
    if |flames| > 1 {
      var removeIndex := (current + count - 1) % |flames|;
      var rest := flames[..removeIndex] + flames[removeIndex + 1..];
      EliminationPermutation(rest, removeIndex % |rest|, count);
      assert flames == flames[..removeIndex] + [flames[removeIndex]] + flames[removeIndex + 1..];
    }
  }

  /** The label the circular count over `flames` leaves standing: the
      labels removed before it are exactly all the others. */
  function Standing(flames: seq<Flame>, current: nat, count: nat): (winner: Flame)
    requires current < |flames|
    requires count >= 1
    ensures multiset(EliminationOrder(flames, current, count)[..|flames| - 1]) + multiset{winner} == multiset(flames)
  {
    var order := EliminationOrder(flames, current, count);
    EliminationPermutation(flames, current, count);
    assert order == order[..|flames| - 1] + [order[|flames| - 1]];
    order[|flames| - 1]
  }

  /** The outcome of `getFlames(n1, n2)`: Soulmates for a zero count,
      otherwise the label the count over the six labels leaves standing.
      Names that are anagrams of each other (after lower-casing and dropping
      whitespace) are Soulmates. */
  function Outcome(n1: string, n2: string): (r: Flame)
    ensures multiset(Normalize(n1)) == multiset(Normalize(n2)) ==> r == Soulmates
  {
    var name1, name2 := Normalize(n1), Normalize(n2);
    MismatchZeroIff(name1, name2);
    var count := Mismatch(name1, name2);
    if count == 0 then Soulmates else Standing(Labels, 0, count)
  }

  /** The first half of `getFlames`: the `forEach` over the distinct
      characters of both normalised names that adds up their count gaps. */
  method CountUnmatched(name1: string, name2: string) returns (count: nat)
    ensures count == Mismatch(name1, name2)
  {
    var combined := Distinct(name1 + name2);
    count := 0;
    for i := 0 to |combined|
      invariant count == SumGaps(combined[..i], name1, name2)
    {
      count := count + Gap(combined[i], name1, name2);
      assert combined[..i + 1][..i] == combined[..i];
    }
    assert combined[..|combined|] == combined;
  }

  /** The second half of `getFlames`: the `while` loop that splices one label
      out of the list per round until one is left. It makes exactly five
      removals, and every index it uses lies inside the list. */
  method Eliminate(count: nat) returns (winner: Flame)
    requires count >= 1
    ensures winner == Standing(Labels, 0, count)
  {
    var flames := Labels;
    var currentIndex: nat := 0;
    ghost var removed: seq<Flame> := [];
    while |flames| > 1
      invariant 1 <= |flames| && currentIndex < |flames|
      invariant |removed| + |flames| == |Labels|
      invariant removed + EliminationOrder(flames, currentIndex, count) == EliminationOrder(Labels, 0, count)
      decreases |flames|
    {
      var removeIndex := (currentIndex + count - 1) % |flames|;
      var rest := flames[..removeIndex] + flames[removeIndex + 1..];
      EliminationStep(flames, currentIndex, count, removeIndex, rest);
      assert removed + EliminationOrder(flames, currentIndex, count)
          == (removed + [flames[removeIndex]]) + EliminationOrder(rest, removeIndex % |rest|, count);
      removed := removed + [flames[removeIndex]];
      flames := rest;
      currentIndex := removeIndex % |flames|;
    }
    assert |removed| == 5;
    assert EliminationOrder(flames, currentIndex, count) == flames;
    winner := flames[0];
  }

  /** `getFlames`: normalise both names, count the unmatched letters, and
      either short-circuit to Soulmates or run the elimination. */
  method GetFlames(n1: string, n2: string) returns (result: Flame)
    ensures result == Outcome(n1, n2)
  {
    var name1 := Normalize(n1);
    var name2 := Normalize(n2);
    var count := CountUnmatched(name1, name2);
    if count == 0 {
      return Soulmates;
    }
    result := Eliminate(count);
  }

  /** Taking the gap of one character out of a sum. */
  lemma {:induction false} SumGapsRemove(ds: string, k: nat, name1: string, name2: string)
    requires k < |ds|
    ensures SumGaps(ds, name1, name2) == Gap(ds[k], name1, name2) + SumGaps(ds[..k] + ds[k + 1..], name1, name2)
    decreases |ds|
  {
    var last := |ds| - 1;
    if k == last {
      assert ds[..k] + ds[k + 1..] == ds[..last];
    } else {
      var front := ds[..last];
      SumGapsRemove(front, k, name1, name2);
      assert ds[..k] + ds[k + 1..] == (front[..k] + front[k + 1..]) + [ds[last]];
      assert (ds[..k] + ds[k + 1..])[..|ds| - 2] == front[..k] + front[k + 1..];
    }
  }

  /** Removing the element at `k` from a sequence without duplicates
      leaves a sequence without duplicates that holds every other element. */
  lemma RemoveAt(ds: string, k: nat)
    requires NoDup(ds) && k < |ds|
    ensures NoDup(ds[..k] + ds[k + 1..])
    ensures forall x :: x in ds[..k] + ds[k + 1..] <==> x in ds && x != ds[k]
  {
    var rest := ds[..k] + ds[k + 1..];
    forall i, j | 0 <= i < j < |rest| ensures rest[i] != rest[j] {
      var i' := if i < k then i else i + 1;
      var j' := if j < k then j else j + 1;
      assert rest[i] == ds[i'] && rest[j] == ds[j'];
    }
    forall x ensures x in rest <==> x in ds && x != ds[k] {
      if x in rest {
        var i :| 0 <= i < |rest| && rest[i] == x;
        var i' := if i < k then i else i + 1;
        assert ds[i'] == x && i' != k;
      }
      if x in ds && x != ds[k] {
        var i :| 0 <= i < |ds| && ds[i] == x;
        var i' := if i < k then i else i - 1;
        assert rest[i'] == x;
      }
    }
  }

  /** The sum of the gaps does not depend on the order of the characters. */
  lemma {:induction false} SumGapsSameSet(cs: string, ds: string, name1: string, name2: string)
    requires NoDup(cs) && NoDup(ds)
    requires forall x :: x in cs <==> x in ds
    ensures SumGaps(cs, name1, name2) == SumGaps(ds, name1, name2)
    decreases |cs|
  {
    if cs == [] {
      assert ds == [] by {
        assert forall i :: 0 <= i < |ds| ==> ds[i] in cs;
      }
    } else {
      var last := |cs| - 1;
      var front := cs[..last];
      assert cs[last] in ds;
      var k :| 0 <= k < |ds| && ds[k] == cs[last];
      SumGapsRemove(ds, k, name1, name2);
      RemoveAt(cs, last);
      RemoveAt(ds, k);
      assert cs[..last] + cs[last + 1..] == front;
      forall x ensures x in front <==> x in ds[..k] + ds[k + 1..] {
        assert x in cs <==> x in ds;
      }
      SumGapsSameSet(front, ds[..k] + ds[k + 1..], name1, name2);
    }
  }

  /** The sum of the gaps is zero exactly when every character counted
      occurs equally often in both names. */
  lemma {:induction false} SumGapsZero(cs: string, name1: string, name2: string)
    ensures SumGaps(cs, name1, name2) == 0 <==>
            forall c :: c in cs ==> Occurrences(name1, c) == Occurrences(name2, c)
    decreases |cs|
  {
    if cs != [] {
      var front := cs[..|cs| - 1];
      var last := cs[|cs| - 1];
      SumGapsZero(front, name1, name2);
      assert cs == front + [last];
      if SumGaps(cs, name1, name2) == 0 {
        assert SumGaps(front, name1, name2) == 0 && Gap(last, name1, name2) == 0;
      } else if SumGaps(front, name1, name2) != 0 {
        var c :| c in front && Occurrences(name1, c) != Occurrences(name2, c);
        assert c in cs;
      } else {
        assert Gap(last, name1, name2) != 0;
        assert last in cs;
      }
    }
  }

  /** The count is zero exactly when the two names are anagrams of each
      other (the same multiset of characters). */
  lemma MismatchZeroIff(name1: string, name2: string)
    ensures Mismatch(name1, name2) == 0 <==> multiset(name1) == multiset(name2)
  {
    var combined := Distinct(name1 + name2);
    SumGapsZero(combined, name1, name2);
    if Mismatch(name1, name2) == 0 {
      forall c ensures multiset(name1)[c] == multiset(name2)[c] {
        if c !in combined {
          assert c !in name1 && c !in name2;
        } else {
          assert Occurrences(name1, c) == Occurrences(name2, c);
        }
      }
    } else {
      var c :| c in combined && Occurrences(name1, c) != Occurrences(name2, c);
      assert multiset(name1)[c] != multiset(name2)[c];
    }
  }

  /** The count does not change when the names are swapped. */
  lemma MismatchSymmetric(name1: string, name2: string)
    ensures Mismatch(name1, name2) == Mismatch(name2, name1)
  {
    var ab := Distinct(name1 + name2);
    var ba := Distinct(name2 + name1);
    SumGapsSwap(ab, name1, name2);
    SumGapsSameSet(ab, ba, name2, name1);
  }

  lemma {:induction false} SumGapsSwap(cs: string, name1: string, name2: string)
    ensures SumGaps(cs, name1, name2) == SumGaps(cs, name2, name1)
    decreases |cs|
  {
    if cs != [] {
      SumGapsSwap(cs[..|cs| - 1], name1, name2);
    }
  }

  /** The game is symmetric: swapping the names does not change the outcome. */
  lemma FlamesSymmetric(n1: string, n2: string)
    ensures Outcome(n1, n2) == Outcome(n2, n1)
  {
    MismatchSymmetric(Normalize(n1), Normalize(n2));
  }

  /** The report carries the outcome as text; different labels have
      different texts, so the text names the outcome. */
  lemma NameInjective(f: Flame, g: Flame)
    requires Name(f) == Name(g)
    ensures f == g
  {
  }

  /** One round of the circular count, unfolded: the label at `removeIndex`
      goes first, then the count goes on over the shortened list. */
  lemma EliminationStep(flames: seq<Flame>, current: nat, count: nat, removeIndex: nat, rest: seq<Flame>)
    requires current < |flames| && count >= 1 && |flames| > 1
    requires removeIndex == (current + count - 1) % |flames|
    requires rest == flames[..removeIndex] + flames[removeIndex + 1..]
    ensures EliminationOrder(flames, current, count) == [flames[removeIndex]] + EliminationOrder(rest, removeIndex % |rest|, count)
  {
  }

  /** With a step of two, the count over six labels removes the second,
      fourth, sixth, third and first of them, and the fifth is left. */
  lemma {:induction false} EliminationOrderTwo(f: seq<Flame>, count: nat)
    requires |f| == 6 && count == 2
    ensures EliminationOrder(f, 0, count) == [f[1], f[3], f[5], f[2], f[0], f[4]]
  {
    var s1 := [f[0], f[2], f[3], f[4], f[5]];
    var s2 := [f[0], f[2], f[4], f[5]];
    var s3 := [f[0], f[2], f[4]];
    var s4 := [f[0], f[4]];
    assert s4[..0] + s4[1..] == [f[4]];
    EliminationStep(s4, 1, count, 0, [f[4]]);
    assert EliminationOrder(s4, 1, count) == [f[0], f[4]];
    assert s3[..1] + s3[2..] == s4;
    EliminationStep(s3, 0, count, 1, s4);
    assert EliminationOrder(s3, 0, count) == [f[2], f[0], f[4]];
    assert s2[..3] + s2[4..] == s3;
    EliminationStep(s2, 2, count, 3, s3);
    assert EliminationOrder(s2, 2, count) == [f[5], f[2], f[0], f[4]];
    assert s1[..2] + s1[3..] == s2;
    EliminationStep(s1, 1, count, 2, s2);
    assert EliminationOrder(s1, 1, count) == [f[3], f[5], f[2], f[0], f[4]];
    assert f[..1] + f[2..] == s1;
    EliminationStep(f, 0, count, 1, s1);
  }

  /** With two unmatched letters the count removes Love, Marriage, Soulmates,
      Affection and Friendship, in that order, and Enmity is left. */
  lemma EliminationTraceTwo()
    ensures EliminationOrder(Labels, 0, 2) == [Love, Marriage, Soulmates, Affection, Friendship, Enmity]
    ensures Standing(Labels, 0, 2) == Enmity
  {
    EliminationOrderTwo(Labels, 2);
  }

  /** Two one-letter names with different letters leave both letters
      unmatched. */
  lemma MismatchSingles(x: char, y: char)
    requires x != y
    ensures Mismatch([x], [y]) == 2
  {
    assert [x] + [y] == [x, y];
    assert [x, y][..1] == [x] && [x][..0] == [];
    assert Distinct([x]) == [x];
    assert Distinct([x, y]) == [x, y];
    assert Gap(x, [x], [y]) == 1 && Gap(y, [x], [y]) == 1;
    assert SumGaps([x], [x], [y]) == 1;
    assert SumGaps([x, y], [x], [y]) == 2;
  }

  /** `getFlames("A", "B")`: the names share no letter, so the count is 2 and
      the outcome is Enmity. */
  lemma FlamesAB()
    ensures Mismatch(Normalize("A"), Normalize("B")) == 2
    ensures Outcome("A", "B") == Enmity
  {
    assert LowerCase("A") == ['a'];
    assert LowerCase("B") == ['b'];
    assert Normalize("A") == ['a'];
    assert Normalize("B") == ['b'];
    MismatchSingles('a', 'b');
    EliminationTraceTwo();
  }

  /** `getFlames("Amit", "Amit")` is "Soulmates". */
  lemma FlamesSameName()
    ensures Outcome("Amit", "Amit") == Soulmates
  {
  }
}
