/** `calculateLoveAI`: the four deterministic metrics of two names, the
    remote model call they are forwarded to (an opaque collaborator here),
    and the report assembled from the metrics alone when that call fails. */
module LoveService {
  import opened Text
  import opened LoveTypes
  import Flames
  import Numerology
  import Similarity

  /** What the remote model call gives back for a prompt: a parsed report,
      an empty `response.text`, or a failure (the request rejects or
      `JSON.parse` throws). */
  datatype Reply = Answer(report: LoveResult) | EmptyText | Failure

  /** The values the prompt forwards to the remote model: both names and
      their deterministic metrics. */
  datatype Context = Context(
    name1: string,
    name2: string,
    flames: string,
    num1: nat,
    num2: nat,
    harmony: int,
    symmetry: nat,
    sharedLetters: string)

  /** What `calculateLoveAI` settles to: a report, the unchecked cast of an
      empty object `{}` (none of whose fields is present), or a rejection
      because the client could not be constructed. */
  datatype Outcome = Report(result: LoveResult) | EmptyObject | ClientError

  /** `Math.min`. */
  function Min(a: int, b: int): (m: int)
    ensures m <= a && m <= b
    ensures m == a || m == b
  {
    if a <= b then a else b
  }

  const FallbackVerdict: string := "A Valentine's connection that speaks through the stars."
  const FallbackAdvice: string := "Cherish the unique rhythm your hearts create together."
  const FallbackTraits: seq<string> := ["Authenticity", "Deep Connection", "Mutual Growth"]

  /** The report of the `catch` branch, assembled from the metrics alone.
      The percentage is the mean of harmony and symmetry rounded half up,
      passion is symmetry plus 20 capped at 100, trust is harmony capped at
      100, communication and fun are the constants 50 and 70, and the insights
      repeat the FLAMES label and both numerology numbers. */
  function Fallback(flames: string, num1: nat, num2: nat, harmony: int, symmetry: int): (r: LoveResult)
    ensures 2 * r.percentage - 1 <= harmony + symmetry <= 2 * r.percentage
    ensures r.verdict == FallbackVerdict && r.advice == FallbackAdvice
    ensures r.compatibilityFactors.passion == Min(100, symmetry + 20)
    ensures r.compatibilityFactors.trust == Min(100, harmony)
    ensures r.compatibilityFactors.communication == 50
    ensures r.compatibilityFactors.fun == 70
    ensures r.logicInsights.flames == flames
    ensures r.logicInsights.numerologyMatch == Decimal(num1) + " meets " + Decimal(num2)
    ensures r.logicInsights.sharedTraits == FallbackTraits && |r.logicInsights.sharedTraits| == 3
  {
    var combinedPct := (harmony + symmetry + 1) / 2;
    LoveResult(
      combinedPct,
      FallbackVerdict,
      FallbackAdvice,
      CompatibilityFactors(Min(100, symmetry + 20), Min(100, harmony), Min(100, 50), Min(100, 70)),
      LogicInsights(flames, Decimal(num1) + " meets " + Decimal(num2), FallbackTraits))
  }

  /** With the score ranges the metrics guarantee (harmony in {50, 85, 95},
      symmetry in [0, 100]) the percentage lies in [25, 98], passion in
      [20, 100], and trust is the harmony score itself. */
  lemma FallbackRanges(flames: string, num1: nat, num2: nat, harmony: int, symmetry: int)
    requires harmony == 50 || harmony == 85 || harmony == 95
    requires 0 <= symmetry <= 100
    ensures var r := Fallback(flames, num1, num2, harmony, symmetry);
      && 25 <= r.percentage <= 98
      && 20 <= r.compatibilityFactors.passion <= 100
      && r.compatibilityFactors.trust == harmony
  {
  }

  /** The text "<num1> meets <num2>" names both numbers unambiguously. */
  lemma {:induction false} NumerologyMatchInjective(a: nat, b: nat, c: nat, d: nat)
    requires Decimal(a) + " meets " + Decimal(b) == Decimal(c) + " meets " + Decimal(d)
    ensures a == c && b == d
  {
    var x, y := Decimal(a), Decimal(c);
    var lhs := Decimal(a) + " meets " + Decimal(b);
    var rhs := Decimal(c) + " meets " + Decimal(d);
    assert forall k :: 0 <= k < |x| ==> lhs[k] == x[k];
    assert forall k :: 0 <= k < |y| ==> rhs[k] == y[k];
    assert lhs[|x|] == ' ' && rhs[|y|] == ' ';
    assert |x| == |y|;
    assert x == lhs[..|x|] == y;
    DecimalInjective(a, c);
    assert Decimal(b) == lhs[|x| + 7..] == Decimal(d);
    DecimalInjective(b, d);
  }

  /** The context the prompt is built from, as functions of the names: the
      names themselves, two numerology scores, a harmony score of the chart,
      a symmetry percentage, and the shared letters without repetitions,
      which are the characters other than the space that both lower-cased
      names contain. */
  function ContextOf(name1: string, name2: string): (r: Context)
    ensures r.name1 == name1 && r.name2 == name2
    ensures Numerology.IsScore(r.num1) && Numerology.IsScore(r.num2)
    ensures r.harmony == 95 || r.harmony == 85 || r.harmony == 50
    ensures r.symmetry <= 100
    ensures NoDup(r.sharedLetters)
    ensures forall c :: c in r.sharedLetters <==> c != ' ' && c in LowerCase(name1) && c in LowerCase(name2)
  {
    var num1 := Numerology.Score(name1);
    var num2 := Numerology.Score(name2);
    Context(
      name1,
      name2,
      Flames.Name(Flames.Outcome(name1, name2)),
      num1,
      num2,
      Numerology.Harmony(num1, num2),
      Similarity.LetterSymmetry(name1, name2),
      Distinct(Similarity.SharedLetters(name1, name2)))
  }

  /** The report the `catch` branch returns for two names. Whatever the
      names, it is fully populated within its ranges: percentage in
      [25, 98], passion in [20, 100], trust equal to the harmony score,
      communication 50, fun 70, three traits, and the FLAMES label of the
      names. */
  function FallbackReport(name1: string, name2: string): (r: LoveResult)
    ensures 25 <= r.percentage <= 98
    ensures 20 <= r.compatibilityFactors.passion <= 100
    ensures r.compatibilityFactors.trust == ContextOf(name1, name2).harmony
    ensures r.compatibilityFactors.communication == 50
    ensures r.compatibilityFactors.fun == 70
    ensures |r.logicInsights.sharedTraits| == 3
    ensures r.logicInsights.flames == Flames.Name(Flames.Outcome(name1, name2))
  {
    var c := ContextOf(name1, name2);
    FallbackRanges(c.flames, c.num1, c.num2, c.harmony, c.symmetry);
    Fallback(c.flames, c.num1, c.num2, c.harmony, c.symmetry)
  }

  /** A name the form accepts: something is left after trimming whitespace. */
  predicate HasContent(name: string)
    ensures HasContent(name) <==> RemoveSpaces(name) != []
  {
    var kept := RemoveSpaces(name);
    assert kept != [] ==> kept[0] in kept;
    assert forall i :: 0 <= i < |name| && !IsSpace(name[i]) ==> name[i] in kept;
    exists i :: 0 <= i < |name| && !IsSpace(name[i])
  }

  /** `calculateLoveAI`. The client is constructed first, outside the `try`,
      so a failure there rejects without computing anything. Otherwise the
      metrics are computed and forwarded to the remote model `remote`; its
      answer is returned unvalidated, an empty text becomes the cast of `{}`,
      and a failure yields the fallback report. */
  method CalculateLove(name1: string, name2: string, clientCreated: bool, remote: Context -> Reply)
    returns (outcome: Outcome)
    requires HasContent(name1) && HasContent(name2)
    ensures !clientCreated ==> outcome == ClientError
    ensures clientCreated ==>
      match remote(ContextOf(name1, name2))
      case Answer(report) => outcome == Report(report)
      case EmptyText => outcome == EmptyObject
      case Failure => outcome == Report(FallbackReport(name1, name2))
  {
    if !clientCreated {
      return ClientError;
    }
    var flamesResult := Flames.GetFlames(name1, name2);
    var num1 := Numerology.GetNumerologyScore(name1);
    var num2 := Numerology.GetNumerologyScore(name2);
    var harmonyScore := Numerology.Harmony(num1, num2);
    var symmetry := Similarity.LetterSymmetry(name1, name2);
    var sharedLetters := Similarity.SharedLetters(name1, name2);
    var context := Context(name1, name2, Flames.Name(flamesResult), num1, num2, harmonyScore, symmetry, Distinct(sharedLetters));
    match remote(context)
    case Answer(report) =>
      outcome := Report(report);
    case EmptyText =>
      outcome := EmptyObject;
    case Failure =>
      outcome := Report(Fallback(context.flames, num1, num2, harmonyScore, symmetry));
  }
}
