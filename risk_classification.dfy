/**
 * The Multi-Factor Risk Classification Calculator of the regulatory-compliance
 * tab: four qualitative answers are each weighted 1, 3 or 5 through a fixed
 * table, summed into a score out of 20, and the score is bucketed into one of
 * three inherent-risk tiers.
 */
module RiskClassification {

  /** The four questions of the calculator. */
  datatype Factor = DomainImpact | Autonomy | DecisionImpact | Scale

  /** The options offered by a factor's slider, lowest first: the key order of its table. */
  function Options(f: Factor): seq<string>
  {
    match f
    case DomainImpact => ["Low", "Medium", "High"]
    case Autonomy => ["Human in the loop", "Human over the loop", "Fully Autonomous"]
    case DecisionImpact => ["Informational", "Affects Opportunities", "Life-Altering"]
    case Scale => ["< 1k people", "1k - 100k people", "> 100k people"]
  }

  /** The weight table of a factor, from option label to its contribution to the score. */
  function Table(f: Factor): map<string, int>
  {
    match f
    case DomainImpact => map["Low" := 1, "Medium" := 3, "High" := 5]
    case Autonomy => map["Human in the loop" := 1, "Human over the loop" := 3, "Fully Autonomous" := 5]
    case DecisionImpact => map["Informational" := 1, "Affects Opportunities" := 3, "Life-Altering" := 5]
    case Scale => map["< 1k people" := 1, "1k - 100k people" := 3, "> 100k people" := 5]
  }

  /** The option each slider starts on. */
  function DefaultOption(f: Factor): string
  {
    match f
    case DomainImpact => "Medium"
    case Autonomy => "Human over the loop"
    case DecisionImpact => "Affects Opportunities"
    case Scale => "1k - 100k people"
  }

  /** The four slider positions chosen by the user. */
  datatype Answers = Answers(domainImpact: string, autonomy: string, decisionImpact: string, scale: string)

  function Answer(a: Answers, f: Factor): string
  {
    match f
    case DomainImpact => a.domainImpact
    case Autonomy => a.autonomy
    case DecisionImpact => a.decisionImpact
    case Scale => a.scale
  }

  /** The answers after moving the slider of factor `f` to `q`, leaving the other three alone. */
  function WithAnswer(a: Answers, f: Factor, q: string): (b: Answers)
    ensures Answer(b, f) == q
    ensures forall g :: g != f ==> Answer(b, g) == Answer(a, g)
  {
    match f
    case DomainImpact => a.(domainImpact := q)
    case Autonomy => a.(autonomy := q)
    case DecisionImpact => a.(decisionImpact := q)
    case Scale => a.(scale := q)
  }

  /** Every answer is a key of its factor's table, as the sliders guarantee. */
  predicate ValidAnswers(a: Answers)
  {
    && a.domainImpact in Table(DomainImpact)
    && a.autonomy in Table(Autonomy)
    && a.decisionImpact in Table(DecisionImpact)
    && a.scale in Table(Scale)
  }

  /** The answers every slider starts on. */
  function DefaultAnswers(): Answers
  {
    Answers(DefaultOption(DomainImpact), DefaultOption(Autonomy), DefaultOption(DecisionImpact), DefaultOption(Scale))
  }

  /** The answers with every slider at position `i` (0 lowest, 2 highest). */
  function UniformAnswers(i: nat): Answers
    requires i < 3
  {
    Answers(Options(DomainImpact)[i], Options(Autonomy)[i], Options(DecisionImpact)[i], Options(Scale)[i])
  }

  /** The position of `x` in `s`: its first occurrence. */
  function IndexOf(s: seq<string>, x: string): (i: nat)
    requires x in s
    ensures i < |s| && s[i] == x
    ensures x !in s[..i]
  {
    if s[0] == x then 0 else 1 + IndexOf(s[1..], x)
  }

  /** The position of the answer to `f` on its slider. */
  function Position(a: Answers, f: Factor): nat
    requires Answer(a, f) in Options(f)
  {
    IndexOf(Options(f), Answer(a, f))
  }

  /** The weight of one answer: the lookup of the answer in its factor's table. */
  function FactorScore(a: Answers, f: Factor): (w: int)
    requires ValidAnswers(a)
    ensures w == 1 || w == 3 || w == 5
  {
    Table(f)[Answer(a, f)]
  }

  /** The calculated risk score: the sum of the four weights. */
  function TotalScore(a: Answers): (score: int)
    requires ValidAnswers(a)
    ensures 4 <= score <= 20
    ensures score % 2 == 0
  {
    FactorScore(a, DomainImpact) + FactorScore(a, Autonomy) + FactorScore(a, DecisionImpact) + FactorScore(a, Scale)
  }

  /** The three inherent-risk tiers, in increasing order of severity. */
  datatype RiskLevel = MinimalLow | Limited | HighRisk
  {
    /** The text shown as the recommended classification. */
    function Label(): string
    {
      match this
      case MinimalLow => "Minimal / Low Risk"
      case Limited => "Limited Risk"
      case HighRisk => "High Risk"
    }

    function Severity(): nat
    {
      match this
      case MinimalLow => 0
      case Limited => 1
      case HighRisk => 2
    }
  }

  /**
   * The tier of a score: "Minimal / Low Risk" unless the score lies in [8, 12]
   * ("Limited Risk") or above 12 ("High Risk").
   */
  function Classify(score: int): (level: RiskLevel)
    ensures level == MinimalLow <==> score < 8
    ensures level == Limited <==> 8 <= score <= 12
    ensures level == HighRisk <==> score > 12
  {
    var level := MinimalLow;
    if 8 <= score <= 12 then Limited
    else if score > 12 then HighRisk
    else level
  }

  /** The tier recommended for a set of answers. */
  function RiskLevelOf(a: Answers): RiskLevel
    requires ValidAnswers(a)
  {
    Classify(TotalScore(a))
  }

  /** Each tier is shown with its own text. */
  lemma LabelsDistinct(l: RiskLevel, m: RiskLevel)
    ensures l.Label() == m.Label() <==> l == m
  {
  }

  /**
   * Each table is keyed by exactly its slider's three options and gives 1 to
   * the lowest, 3 to the middle and 5 to the highest; the options are distinct.
   */
  lemma TableWeights(f: Factor)
    ensures |Options(f)| == 3
    ensures Options(f)[0] != Options(f)[1] && Options(f)[1] != Options(f)[2] && Options(f)[0] != Options(f)[2]
    ensures forall q :: q in Table(f) <==> q in Options(f)
    ensures forall i :: 0 <= i < 3 ==> Table(f)[Options(f)[i]] == 2 * i + 1
    ensures DefaultOption(f) == Options(f)[1]
  {
  }

  /** The weight of an answer grows with its slider position: 1, 3, 5. */
  lemma WeightByPosition(a: Answers, f: Factor)
    requires ValidAnswers(a)
    ensures Answer(a, f) in Options(f)
    ensures FactorScore(a, f) == 2 * Position(a, f) + 1
  {
  }

  /** A higher score never gives a lower tier. */
  lemma ClassifyMonotone(s: int, t: int)
    requires s <= t
    ensures Classify(s).Severity() <= Classify(t).Severity()
  {
  }

  /** Answer `b` puts every slider at least as high as answer `a` does. */
  predicate NoLowerThan(b: Answers, a: Answers)
  {
    forall f ::
      && Answer(a, f) in Options(f)
      && Answer(b, f) in Options(f)
      && Position(a, f) <= Position(b, f)
  }

  /** Raising any sliders never lowers the score nor the tier. */
  lemma RaisingAnswersNeverLowersTier(a: Answers, b: Answers)
    requires ValidAnswers(a) && ValidAnswers(b)
    requires NoLowerThan(b, a)
    ensures TotalScore(a) <= TotalScore(b)
    ensures RiskLevelOf(a).Severity() <= RiskLevelOf(b).Severity()
  {
    forall f: Factor ensures FactorScore(a, f) <= FactorScore(b, f) {
      WeightByPosition(a, f);
      WeightByPosition(b, f);
    }
    ClassifyMonotone(TotalScore(a), TotalScore(b));
  }

  /** Moving one slider to a higher option never lowers the tier. */
  lemma RaisingOneFactorNeverLowersTier(a: Answers, f: Factor, q: string)
    requires ValidAnswers(a)
    requires q in Table(f)
    requires Answer(a, f) in Options(f) && q in Options(f)
    requires Position(a, f) <= IndexOf(Options(f), q)
    ensures ValidAnswers(WithAnswer(a, f, q))
    ensures RiskLevelOf(a).Severity() <= RiskLevelOf(WithAnswer(a, f, q)).Severity()
  {
  }

  /** The sliders' starting positions score 12: "Limited Risk". */
  lemma DefaultAnswersAreLimitedRisk()
    ensures ValidAnswers(DefaultAnswers())
    ensures TotalScore(DefaultAnswers()) == 12
    ensures RiskLevelOf(DefaultAnswers()) == Limited
  {
  }

  /** All-lowest answers score 4 ("Minimal / Low Risk"), all-highest 20 ("High Risk"). */
  lemma ExtremeAnswers()
    ensures ValidAnswers(UniformAnswers(0)) && ValidAnswers(UniformAnswers(2))
    ensures TotalScore(UniformAnswers(0)) == 4 && RiskLevelOf(UniformAnswers(0)) == MinimalLow
    ensures TotalScore(UniformAnswers(2)) == 20 && RiskLevelOf(UniformAnswers(2)) == HighRisk
  {
  }

  /**
   * Every even score from 4 to 20 is reached by some answers; with the bounds
   * and parity of TotalScore, these are exactly the scores the calculator shows.
   */
  lemma EveryEvenScoreReachable(score: int)
    requires 4 <= score <= 20 && score % 2 == 0
    ensures exists a :: ValidAnswers(a) && TotalScore(a) == score
  {
    var steps := (score - 4) / 2;
    var d := if steps < 2 then steps else 2;
    var u := if steps - d < 2 then steps - d else 2;
    var e := if steps - d - u < 2 then steps - d - u else 2;
    var s := steps - d - u - e;
    TableWeights(DomainImpact);
    TableWeights(Autonomy);
    TableWeights(DecisionImpact);
    TableWeights(Scale);
    var a := Answers(Options(DomainImpact)[d], Options(Autonomy)[u], Options(DecisionImpact)[e], Options(Scale)[s]);
    assert ValidAnswers(a);
    assert TotalScore(a) == score;
  }
}
