# Love calculator core in Dafny

This project models the deterministic core of a Valentine "love calculator" (`services/loveService.ts`). The core gives two names four scores:

- **FLAMES.** The game counts the letters the two names do not share, then uses that count as the step of a circular elimination over six labels (Friendship, Love, Affection, Marriage, Enmity, Soulmates).
- **Pythagorean numerology.** Each name's letter values are summed, then reduced by repeated digit sums. The reduction stops at the master numbers 11, 22 and 33.
- **Numerology harmony.** A compatibility chart is looked up in both directions, giving 95, 85 or 50.
- **Letter symmetry.** This is the Jaccard similarity of the two names' character sets, as a rounded percentage.

It also models the shared-letters list that is forwarded to a remote language model. Finally, it models `calculateLoveAI`, which assembles either the remote model's report or the fallback report built from the scores when that call fails.

The modules follow the structure of the program:

- `Text` holds the string helpers: ASCII lower-casing, the `\s` class, filter, counting, first-occurrence de-duplication and the decimal rendering of numbers.
- `Flames` holds `getFlames`.
- `Numerology` holds `getNumerologyScore` and `getNumerologyHarmony`.
- `Similarity` holds `getLetterSymmetry` and the shared-letters list.
- `LoveTypes` holds the `LoveResult` record.
- `LoveService` holds `calculateLoveAI` and its fallback.

The `LoveResult` record of `types.ts:2-17` is the datatype `LoveTypes.LoveResult`, with the nested `CompatibilityFactors` and `LogicInsights`. It declares shape only, so it has no row of its own.

The source is imperative in two places: the `forEach`/`while` pair of `getFlames` and the `for` loop of `getNumerologyScore`. Those are methods with loop invariants, each proved equal to a specification function. The properties of the game and of the score are then proved about those functions.

## Model

| member | source | states |
|---|---|---|
| Text.Lower | services/loveService.ts:11-12 | `toLowerCase` maps `A`..`Z` to the letter 32 code points up (`a`..`z`) and leaves every other character as it is |
| Text.IsSpace | services/loveService.ts:11-12 | the `\s` class holds space, tab, line feed and carriage return, and never a digit or an ASCII letter |
| Text.LowerCase | services/loveService.ts:11-12 | `toLowerCase` keeps the length and lower-cases each character in place |
| Text.Filter | services/loveService.ts:103 | `filter` gives a subsequence of its input that holds exactly the kept characters, each as often as in the input |
| Text.RemoveSpaces | services/loveService.ts:11-12 | `replace(/\s/g, '')` gives a subsequence of the input that keeps every non-whitespace character exactly as often as it occurs, and no whitespace |
| Text.Normalize | services/loveService.ts:11-12 | a normalised name is a subsequence of the lower-cased name holding each non-whitespace character exactly as often as the lower-cased name does, and no whitespace |
| Text.Occurrences | services/loveService.ts:17-18 | `filter(c => c === char).length` is the multiplicity of the character in the name |
| Text.FirstIndex | services/loveService.ts:14 | the index of the first occurrence of a character: it holds the character and no earlier index does |
| Text.Distinct | services/loveService.ts:14 | `[...new Set(...)]` has no duplicates, the same members as its input, and lists them in the order of their first occurrence |
| Text.Decimal | services/loveService.ts:51 | `toString` of a non-negative number is a non-empty digit string with no leading zero except for 0 itself |
| Text.DecimalRoundTrip | services/loveService.ts:51 | reading the digits of `num.toString()` back gives `num` |
| Text.DecimalInjective | services/loveService.ts:178 | different numbers have different decimal texts |
| Flames.Gap | services/loveService.ts:17-19 | `Math.abs(count1 - count2)` is the distance between the character's multiplicities in the two names, 0 exactly when they are equal |
| Flames.Mismatch | services/loveService.ts:14-21 | the count of unmatched letters is 0 exactly when every character of either name occurs equally often in both |
| Flames.EliminationOrder | services/loveService.ts:28-32 | the circular count lists every position of the list once: the order has the length of the list |
| Flames.EliminationPermutation | services/loveService.ts:28-32 | the circular count removes every label exactly once: the order of removal, with the survivor last, is a permutation of the list |
| Flames.Standing | services/loveService.ts:28-34 | the label left standing is the one label not removed in the list's length minus one rounds |
| Flames.Outcome | services/loveService.ts:10-35 | names whose normalised forms are anagrams get Soulmates (the `count === 0` return), otherwise the label left standing |
| Flames.CountUnmatched | services/loveService.ts:14-21 | the `forEach` accumulates the sum, over the distinct characters of both names, of the absolute difference of their counts |
| Flames.Eliminate | services/loveService.ts:25-34 | the `while`/`splice` loop over the six labels returns the label the circular count leaves standing; every slice index lies inside the list |
| Flames.GetFlames | services/loveService.ts:10-35 | `getFlames` normalises both names, gives Soulmates for a zero count and otherwise the survivor of the count |
| Flames.SumGapsRemove | services/loveService.ts:16-20 | one character's gap can be taken out of the sum at any position |
| Flames.RemoveAt | services/loveService.ts:14 | removing one element of a duplicate-free list keeps it duplicate-free and drops only that element |
| Flames.SumGapsSameSet | services/loveService.ts:14-20 | the count does not depend on the order in which the distinct characters are visited |
| Flames.SumGapsZero | services/loveService.ts:16-20 | the sum of gaps is zero exactly when every visited character occurs equally often in both names |
| Flames.MismatchZeroIff | services/loveService.ts:14-23 | the count is 0 exactly when the two normalised names are anagrams (same multiset of characters) |
| Flames.SumGapsSwap | services/loveService.ts:17-19 | the absolute difference does not depend on the order of the names |
| Flames.MismatchSymmetric | services/loveService.ts:14-21 | swapping the names does not change the count, although the union is visited in a different order |
| Flames.FlamesSymmetric | services/loveService.ts:10-35 | `getFlames(a, b) == getFlames(b, a)` |
| Flames.NameInjective | services/loveService.ts:27 | the six label texts are pairwise different, so the returned text names the outcome |
| Flames.EliminationStep | services/loveService.ts:28-31 | one round removes the label at `(currentIndex + count - 1) % length` and continues from `removeIndex % newLength` |
| Flames.EliminationOrderTwo | services/loveService.ts:25-34 | with step 2, six labels are removed in the order 2nd, 4th, 6th, 3rd, 1st and the 5th stays |
| Flames.EliminationTraceTwo | services/loveService.ts:25-34 | with count 2 the removals are Love, Marriage, Soulmates, Affection, Friendship, and Enmity is left |
| Flames.MismatchSingles | services/loveService.ts:14-21 | two one-letter names with different letters have count 2 |
| Flames.FlamesAB | services/loveService.ts:10-35 | `getFlames("A", "B")` has count 2 and returns Enmity |
| Flames.FlamesSameName | services/loveService.ts:23 | `getFlames("Amit", "Amit")` is Soulmates |
| Numerology.Letters | services/loveService.ts:42 | `replace(/[^a-z]/g, '')` gives a subsequence of the lower-cased name holding each letter `a`..`z` exactly as often as it occurs there, and nothing else |
| Numerology.LetterValue | services/loveService.ts:44-45 | a letter's value lies in 1..9, agrees with its alphabet position modulo 9, and is 9 exactly for `i` and `r` |
| Numerology.LetterSum | services/loveService.ts:43-47 | the sum of the letter values lies between the number of letters and nine times it |
| Numerology.DigitSumStep | services/loveService.ts:52 | for two or more digits, the digit sum of `num.toString()` is the last digit plus the digit sum of the rest |
| Numerology.DigitSum | services/loveService.ts:52 | the digit sum of a single digit is the digit itself |
| Numerology.DigitSumAtMost | services/loveService.ts:52 | a digit sum never exceeds its number |
| Numerology.DigitSumBelow | services/loveService.ts:51-53 | for `num >= 10` the digit sum is smaller than `num`, so `reduce` terminates |
| Numerology.DigitSumPositive | services/loveService.ts:52 | only 0 has digit sum 0 |
| Numerology.DigitSumMod9 | services/loveService.ts:52 | a number and its digit sum are congruent modulo 9 |
| Numerology.AppendDigitMod9 | services/loveService.ts:52 | appending a digit keeps the congruence modulo 9 |
| Numerology.Reduce | services/loveService.ts:49-54 | `reduce` ends in 0..9 or a master number, keeps the remainder modulo 9, and is 0 only for 0 |
| Numerology.Score | services/loveService.ts:41-57 | the numerology number of a name is in {0..9, 11, 22, 33}, is 0 exactly when the name has no letter `a`..`z`, and keeps the remainder modulo 9 of the letter sum |
| Numerology.GetNumerologyScore | services/loveService.ts:41-57 | the `for` loop and `reduce` give a score in {0..9, 11, 22, 33}, which is 0 exactly when the name has no letter `a`..`z` |
| Numerology.ReduceStopsAtMaster | services/loveService.ts:50-51 | the master test runs first: 29 has digit sum 11 and stops there instead of going on to 2 |
| Numerology.NumerologyOfA | services/loveService.ts:41-57 | `getNumerologyScore("a")` is 1 |
| Numerology.NumerologyOfI | services/loveService.ts:41-57 | `getNumerologyScore` of "i" and of "I" is 9 |
| Numerology.Compatibility | services/loveService.ts:63-79 | the chart lists only non-zero scores, has an entry exactly for 1..9 and the master numbers (any other number gets the empty default), and every listed number lists itself |
| Numerology.Harmony | services/loveService.ts:62-84 | the harmony is 95, 85 or 50; it is 95 exactly for equal numbers; 85 only for two different non-zero scores |
| Numerology.HarmonySymmetric | services/loveService.ts:78-82 | checking the chart both ways makes the harmony symmetric |
| Numerology.HarmonyAsymmetricChart | services/loveService.ts:68-82 | the chart lists 33 for 5 but not 5 for 33, and 6 for 33 but not 33 for 6; both orders still score 85 |
| Numerology.HarmonyUnlisted | services/loveService.ts:78-83 | a number the chart does not list (such as 0) scores 95 against itself and 50 against anything else |
| Similarity.SubsetCardinality | services/loveService.ts:89-90 | the intersection is no larger than the union |
| Similarity.CharSet | services/loveService.ts:87-88 | the character set of a name holds exactly the lower-cased characters of the name that are not whitespace |
| Similarity.CharSetSingle | services/loveService.ts:87-88 | a one-character name has the set of its lower-cased character |
| Similarity.RoundPercent | services/loveService.ts:92 | `Math.round(i / u * 100)` is the integer nearest 100·i/u, halves up, in 0..100, with 0 for i = 0 and 100 for i = u |
| Similarity.NearestBounds | services/loveService.ts:92 | the quotient of `200·i + u` by `2·u` is within half a unit of 100·i/u |
| Similarity.NearestRange | services/loveService.ts:92 | that quotient lies in 0..100, with 0 for i = 0 and 100 for i = u |
| Similarity.Jaccard | services/loveService.ts:89-92 | the symmetry lies in 0..100, is 0 for disjoint (or both empty) sets, 100 for equal non-empty sets, and is the rounded Jaccard percentage |
| Similarity.JaccardSymmetric | services/loveService.ts:89-92 | the Jaccard percentage does not depend on the order of the sets |
| Similarity.LetterSymmetry | services/loveService.ts:86-93 | `getLetterSymmetry` is a percentage, 0 when the names share no character, 100 when they have the same non-empty character set |
| Similarity.LetterSymmetrySymmetric | services/loveService.ts:86-93 | `getLetterSymmetry(a, b) == getLetterSymmetry(b, a)` |
| Similarity.LetterSymmetrySelf | services/loveService.ts:86-93 | a name with a non-whitespace character scores 100 against itself |
| Similarity.LetterSymmetryExamples | services/loveService.ts:86-93 | "Amit" against itself scores 100, "A" against "B" scores 0 |
| Similarity.SharedLetters | services/loveService.ts:103 | the shared letters are the characters of lower-cased name1, in order and with duplicates, that occur in lower-cased name2 and are not the space |
| Similarity.SharedLettersKeepTab | services/loveService.ts:103 | a tab in both names is kept among the shared letters, although the normalisation of the letter games drops it |
| LoveService.Min | services/loveService.ts:171-174 | `Math.min` is the smaller of its arguments |
| LoveService.Fallback | services/loveService.ts:165-181 | the fallback's percentage is the mean of harmony and symmetry rounded half up; it gives passion and trust capped at 100, communication 50 and fun 70, the FLAMES text, "<num1> meets <num2>" and the three fixed traits |
| LoveService.FallbackRanges | services/loveService.ts:165-172 | for the possible scores the percentage lies in 25..98, passion in 20..100, and trust is the harmony itself |
| LoveService.NumerologyMatchInjective | services/loveService.ts:178 | the text "<num1> meets <num2>" determines both numbers |
| LoveService.ContextOf | services/loveService.ts:98-112 | the prompt carries both names, two numerology scores, a chart score in {50, 85, 95}, a symmetry in 0..100, and the shared letters once each: exactly the characters other than the space that both lower-cased names contain |
| LoveService.FallbackReport | services/loveService.ts:163-181 | for any two names the fallback is fully populated within those ranges and carries the names' FLAMES label |
| LoveService.HasContent | App.tsx:45-48 | a name passes the form's `trim()` test exactly when something is left after removing all whitespace |
| LoveService.CalculateLove | services/loveService.ts:95-183 | a client that cannot be built rejects; otherwise the remote answer is returned as is, an empty text gives the unchecked `{}`, and a failure gives the fallback of the names' scores |

## Left out

- The React page (state, timers, rendering, banding of the percentage), the radar chart and the floating hearts are not part of this model. They are presentation, floating-point geometry and `Math.random`.
- The empty-name rejection of the form (App.tsx:45-48) is the precondition `HasContent` of `LoveService.CalculateLove`. It is not modelled as a UI flow.
- The rejection shown by the form when `calculateLoveAI` throws (App.tsx:57-58) is the `ClientError` outcome.
- LoveService.CalculateLove does not model the Gemini client, the prompt text, the network request or `JSON.parse`.
  - The remote call is a parameter `remote: Context -> Reply`. Its argument holds the values the prompt interpolates: both names and the metrics. The fixed wording of the prompt is not modelled.
  - Whether `new GoogleGenAI(...)` succeeds is the parameter `clientCreated`.
  - The parsed report is not validated, as in the source. The model does not describe which text parses to what.
- Similarity.RoundPercent uses exact rational round-half-up, `(200·i + u) div (2·u)`. It does not model the IEEE-754 artefacts of `i / u * 100` at exact halves.
- LoveService.Fallback also rounds `(harmony + symmetry) / 2` exactly. For integer inputs this matches `Math.round`.
- Text.Lower lower-cases ASCII only. The full Unicode case mapping of `toLowerCase` (including characters whose lower case has a different length) is not modelled. Dafny's `char` corresponds to one UTF-16 code unit only for characters in the basic plane.
- Text.IsSpace follows the ECMAScript `\s` class by code point. Surrogate pairs are not modelled.
- JavaScript numbers are unbounded integers here. The sums never leave the integer range of a double for any realistic name, and `toString` is modelled only for non-negative integers, not its exponent notation.
- The FLAMES labels are a datatype. `Flames.Name` gives the text the source returns, and `Flames.NameInjective` shows that the text determines the label.
- `console.error` in the `catch` branch is output only and is not modelled.
