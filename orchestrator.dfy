/**
 * The orchestrator and the handlers of /api/foda-analysis
 * (app/api/foda-analysis/route.ts): category scores, the competitiveness
 * ratio and its health label, the report, and the POST filter by aspect.
 */
module Orchestrator {
  import opened Wrappers
  import opened Json
  import opened Formulas
  import opened Agents

  // ---------------------------------------------------------------------
  // Category scores
  // ---------------------------------------------------------------------

  /** Σ value·confidence, the `reduce` of a category score. */
  function WeightedValueSum(results: seq<AnalysisResult>): real
  {
    if |results| == 0 then 0.0
    else WeightedValueSum(results[..|results| - 1]) + results[|results| - 1].value * results[|results| - 1].confidence
  }

  /** Σ value·confidence / length: the mean weighted value, so score times count is the total. */
  function Score(results: seq<AnalysisResult>): (r: real)
    requires |results| > 0
    ensures r * |results| as real == WeightedValueSum(results)
  {
    WeightedValueSum(results) / |results| as real
  }

  /** Values in [0, m] and confidences in [0,1]. */
  predicate ValuesAndConfidencesBounded(results: seq<AnalysisResult>, m: real)
  {
    forall i :: 0 <= i < |results| ==>
      0.0 <= results[i].value <= m && 0.0 <= results[i].confidence <= 1.0
  }

  lemma {:induction false} WeightedValueSumBounds(results: seq<AnalysisResult>, m: real)
    requires ValuesAndConfidencesBounded(results, m)
    ensures 0.0 <= WeightedValueSum(results) <= |results| as real * m
  {
    if |results| > 0 {
      var init, last := results[..|results| - 1], results[|results| - 1];
      assert ValuesAndConfidencesBounded(init, m) by {
        forall i | 0 <= i < |init| ensures 0.0 <= init[i].value <= m && 0.0 <= init[i].confidence <= 1.0 {
          assert init[i] == results[i];
        }
      }
      WeightedValueSumBounds(init, m);
      MulMonotone(last.confidence, 1.0, last.value);
      MulMonotone(0.0, last.value, last.confidence);
      assert last.value * last.confidence <= m by {
        assert last.confidence * last.value <= last.value;
      }
    }
  }

  /**
   * With non-negative values no larger than m and confidences in [0,1], a
   * category score lies in [0, m].
   */
  lemma ScoreBounds(results: seq<AnalysisResult>, m: real)
    requires |results| > 0
    requires ValuesAndConfidencesBounded(results, m)
    ensures 0.0 <= Score(results) <= m
  {
    WeightedValueSumBounds(results, m);
    var n := |results| as real;
    assert Score(results) * n == WeightedValueSum(results);
  }

  /** The score of two results, written out. */
  lemma ScoreOfTwo(results: seq<AnalysisResult>)
    requires |results| == 2
    ensures Score(results)
      == (results[0].value * results[0].confidence + results[1].value * results[1].confidence) / 2.0
  {
    assert results[..1][..0] == [];
    assert WeightedValueSum(results[..1]) == results[0].value * results[0].confidence;
  }

  // ---------------------------------------------------------------------
  // Overall health
  // ---------------------------------------------------------------------

  datatype Health = Excelente | Bueno | Moderado | Debil | Critico

  function HealthLabel(h: Health): string
  {
    match h
    case Excelente => "Excelente"
    case Bueno => "Bueno"
    case Moderado => "Moderado"
    case Debil => "Débil"
    case Critico => "Crítico"
  }

  /** calculateOverallHealth: the thresholds are tested from the top, the first that holds wins. */
  function OverallHealth(ratio: real): (h: Health)
    ensures h == Critico <==> ratio < 0.7
    ensures h != Critico ==> ratio >= LowerBound(h)
  {
    if ratio >= 1.5 then Excelente
    else if ratio >= 1.2 then Bueno
    else if ratio >= 0.9 then Moderado
    else if ratio >= 0.7 then Debil
    else Critico
  }

  /** Critico < Debil < Moderado < Bueno < Excelente. */
  function Rank(h: Health): nat
  {
    match h
    case Critico => 0
    case Debil => 1
    case Moderado => 2
    case Bueno => 3
    case Excelente => 4
  }

  /** The lower bound of the ratio band each label stands for. */
  function LowerBound(h: Health): real
    requires h != Critico
  {
    match h
    case Excelente => 1.5
    case Bueno => 1.2
    case Moderado => 0.9
    case Debil => 0.7
  }

  /**
   * Each label covers a half-open band [lower, next lower): a ratio reaches
   * its label's threshold (OverallHealth's contract) and none of the higher
   * labels' thresholds, so a boundary value takes the higher label.
   */
  lemma OverallHealthBands(ratio: real)
    ensures forall h :: h != Critico && Rank(h) > Rank(OverallHealth(ratio)) ==> ratio < LowerBound(h)
  {
  }

  /** The labels are distinct. */
  lemma HealthLabelsDistinct(h1: Health, h2: Health)
    ensures HealthLabel(h1) == HealthLabel(h2) <==> h1 == h2
  {
  }

  /** A larger ratio never gets a worse label. */
  lemma OverallHealthMonotone(r1: real, r2: real)
    requires r1 <= r2
    ensures Rank(OverallHealth(r1)) <= Rank(OverallHealth(r2))
  {
  }

  // ---------------------------------------------------------------------
  // The report
  // ---------------------------------------------------------------------

  datatype Aspect = Strengths | Opportunities | Weaknesses | Threats

  const ALL_ASPECTS: set<Aspect> := {Strengths, Opportunities, Weaknesses, Threats}

  /** The aspect names the POST handler accepts. */
  const ASPECT_KEYS: seq<string> := ["strengths", "opportunities", "weaknesses", "threats"]

  function AspectKey(a: Aspect): string
  {
    match a
    case Strengths => "strengths"
    case Opportunities => "opportunities"
    case Weaknesses => "weaknesses"
    case Threats => "threats"
  }

  datatype CategoryScore = CategoryScore(score: real, count: nat, trend: Trend)

  datatype Summary = Summary(
    strengths: CategoryScore,
    opportunities: CategoryScore,
    weaknesses: CategoryScore,
    threats: CategoryScore,
    competitivenessRatio: real,
    overallHealth: Health)

  function Category(s: Summary, a: Aspect): CategoryScore
  {
    match a
    case Strengths => s.strengths
    case Opportunities => s.opportunities
    case Weaknesses => s.weaknesses
    case Threats => s.threats
  }

  /** The trend the summary reports for a category, whatever its results say. */
  function CategoryTrend(a: Aspect): Trend
  {
    match a
    case Strengths => Positive
    case Opportunities => Positive
    case Weaknesses => Negative
    case Threats => Negative
  }

  /** The strategic matrix: two fixed lines per quadrant. */
  datatype Strategies = Strategies(FO: seq<string>, FA: seq<string>, DO: seq<string>, DA: seq<string>)

  const STRATEGIES: Strategies := Strategies(
    ["Potenciar capacidad de innovación para capturar demanda en economía digital",
     "Aprovechar bono demográfico aumentando oferta de programas de calidad"],
    ["Fortalecer vinculación empresarial para reducir desempleo de egresados",
     "Diversificar fuentes de financiamiento ante volatilidad económica"],
    ["Desarrollar programas de retención aprovechando ventana demográfica",
     "Mejorar eficiencia terminal mediante modelos flexibles de titulación"],
    ["Implementar sistema de alertas tempranas ante deserción y vulnerabilidad económica",
     "Crear fondos de emergencia para estudiantes en riesgo por crisis económicas"])

  /** The report runCompleteAnalysis returns, without `dataSources`. */
  datatype Report = Report(
    timestamp: string,
    summary: Summary,
    details: map<Aspect, seq<AnalysisResult>>,
    strategies: Strategies)

  function Trends(results: seq<AnalysisResult>): seq<Trend>
  {
    seq(|results|, i requires 0 <= i < |results| => results[i].trend)
  }

  /** num / den >= k when den > 0 and num >= k·den. */
  lemma QuotientAtLeast(num: real, den: real, k: real)
    requires den > 0.0 && num >= k * den
    ensures num / den >= k
  {
    var q := num / den;
    assert q * den == num;
    if q < k {
      StrictScale(den, q, k);
      assert false;
    }
  }

  /**
   * The report runCompleteAnalysis returns: the four agents' results, each
   * category's score (Σ value·confidence / count), count and fixed trend,
   * the competitiveness ratio of the four scores and its health label.
   */
  function Analysis(rates: GrowthRates, exp: real -> real, now: string): Report
  {
    var strengths := StrengthsResults(rates, exp);
    var opportunities := OpportunitiesResults(rates, exp);
    var weaknesses := WeaknessesResults(rates);
    var threats := ThreatsResults(rates, exp);
    ScoreOfTwo(weaknesses);
    ScoreOfTwo(threats);
    var ratio := CompetitivenessRatio(Score(strengths), Score(opportunities), Score(weaknesses), Score(threats));
    Report(
      now,
      Summary(
        CategoryScore(Score(strengths), |strengths|, CategoryTrend(Strengths)),
        CategoryScore(Score(opportunities), |opportunities|, CategoryTrend(Opportunities)),
        CategoryScore(Score(weaknesses), |weaknesses|, CategoryTrend(Weaknesses)),
        CategoryScore(Score(threats), |threats|, CategoryTrend(Threats)),
        ratio,
        OverallHealth(ratio)),
      map[Strengths := strengths, Opportunities := opportunities, Weaknesses := weaknesses, Threats := threats],
      STRATEGIES)
  }

  /**
   * The shape of the analysis: the four aspects, each with the two results
   * its agent produced, every confidence in [0,1], and each category's
   * score, count and fixed trend computed from those results.
   */
  lemma AnalysisShape(rates: GrowthRates, exp: real -> real, now: string)
    ensures var report := Analysis(rates, exp, now);
      && report.timestamp == now
      && report.details.Keys == ALL_ASPECTS
      && report.details[Strengths] == StrengthsResults(rates, exp)
      && report.details[Opportunities] == OpportunitiesResults(rates, exp)
      && report.details[Weaknesses] == WeaknessesResults(rates)
      && report.details[Threats] == ThreatsResults(rates, exp)
      && report.strategies == STRATEGIES
      && (forall a :: a in report.details ==>
            && |report.details[a]| == 2
            && ConfidencesInUnitInterval(report.details[a])
            && Category(report.summary, a) == CategoryScore(Score(report.details[a]), |report.details[a]|, CategoryTrend(a)))
  {
  }

  /** The analysis details every aspect. */
  lemma AnalysisAspects(rates: GrowthRates, exp: real -> real, now: string)
    ensures Analysis(rates, exp, now).details.Keys == ALL_ASPECTS
  {
  }

  /**
   * With the shipped series the scores are 9.7037, 1166.3312, 6.6604 and
   * 4.2828 whatever the growth rates, so the ratio is above 1.5 and the
   * health label is "Excelente".
   */
  lemma AnalysisScores(rates: GrowthRates, exp: real -> real, now: string)
    ensures var summary := Analysis(rates, exp, now).summary;
      && summary.strengths.score == 9.7037
      && summary.opportunities.score == 1166.3312
      && summary.weaknesses.score == 6.6604
      && summary.threats.score == 4.2828
      && summary.competitivenessRatio == CompetitivenessRatio(
           summary.strengths.score, summary.opportunities.score, summary.weaknesses.score, summary.threats.score)
      && summary.overallHealth == OverallHealth(summary.competitivenessRatio) == Excelente
  {
    ShippedScores(rates, exp);
    QuotientAtLeast(9.7037 + 1166.3312, 6.6604 + 4.2828, 1.5);
  }

  /** The four category scores of the shipped series, whatever the growth rates. */
  lemma ShippedScores(rates: GrowthRates, exp: real -> real)
    ensures Score(StrengthsResults(rates, exp)) == 9.7037
    ensures Score(OpportunitiesResults(rates, exp)) == 1166.3312
    ensures Score(WeaknessesResults(rates)) == 6.6604
    ensures Score(ThreatsResults(rates, exp)) == 4.2828
  {
    ScoreOfTwo(StrengthsResults(rates, exp));
    ScoreOfTwo(OpportunitiesResults(rates, exp));
    ScoreOfTwo(WeaknessesResults(rates));
    ScoreOfTwo(ThreatsResults(rates, exp));
  }

  /**
   * The trends the details carry: opportunities are both positive and
   * threats both negative for any rates; with the true growth rates the
   * strengths, and also both weaknesses, are positive, although the
   * summary reports the weaknesses category as negative.
   */
  lemma AnalysisTrends(rates: GrowthRates, exp: real -> real, now: string)
    ensures var details := Analysis(rates, exp, now).details;
      && Trends(details[Opportunities]) == [Positive, Positive]
      && Trends(details[Threats]) == [Negative, Negative]
      && (TrueRates(rates) ==> Trends(details[Strengths]) == [Positive, Positive])
      && (TrueRates(rates) ==> Trends(details[Weaknesses]) == [Positive, Positive])
      && Analysis(rates, exp, now).summary.weaknesses.trend == Negative
  {
    AnalysisShape(rates, exp, now);
    ShippedSlopes();
    assert Trends(OpportunitiesResults(rates, exp)) == [Positive, Positive];
    assert Trends(ThreatsResults(rates, exp)) == [Negative, Negative];
    if TrueRates(rates) {
      TrueRatesClearThresholds(rates);
      assert Trends(StrengthsResults(rates, exp)) == [Positive, Positive];
      assert Trends(WeaknessesResults(rates)) == [Positive, Positive];
    }
  }

  /**
   * runCompleteAnalysis: runs the four agents one after the other and
   * assembles their results, scores, ratio and health into the report
   * that Analysis describes (see AnalysisShape, AnalysisScores and
   * AnalysisTrends for what that report holds).
   */
  method RunCompleteAnalysis(rates: GrowthRates, exp: real -> real, now: string) returns (report: Report)
    ensures report == Analysis(rates, exp, now)
  {
    var strengths := AnalyzeStrengths(rates, exp);
    var opportunities := AnalyzeOpportunities(rates, exp);
    var weaknesses := AnalyzeWeaknesses(rates);
    var threats := AnalyzeThreats(rates, exp);

    ScoreOfTwo(weaknesses);
    ScoreOfTwo(threats);
    var strengthsScore := Score(strengths);
    var opportunitiesScore := Score(opportunities);
    var weaknessesScore := Score(weaknesses);
    var threatsScore := Score(threats);

    var ratio := CompetitivenessRatio(strengthsScore, opportunitiesScore, weaknessesScore, threatsScore);

    var summary := Summary(
      CategoryScore(strengthsScore, |strengths|, Positive),
      CategoryScore(opportunitiesScore, |opportunities|, Positive),
      CategoryScore(weaknessesScore, |weaknesses|, Negative),
      CategoryScore(threatsScore, |threats|, Negative),
      ratio,
      OverallHealth(ratio));
    report := Report(
      now,
      summary,
      map[Strengths := strengths, Opportunities := opportunities, Weaknesses := weaknesses, Threats := threats],
      STRATEGIES);
  }

  // ---------------------------------------------------------------------
  // The handlers
  // ---------------------------------------------------------------------

  /** `aspect && ['strengths', ...].includes(aspect)`, with `aspect` read from the body. */
  function RequestedAspect(body: Json): (r: Option<Aspect>)
    ensures r.Some? <==> IncludesString(ASPECT_KEYS, Get(body, "aspect"))
    ensures r.Some? ==> Get(body, "aspect") == Some(JString(AspectKey(r.value)))
  {
    var aspect := Get(body, "aspect");
    if Truthy(aspect) && IncludesString(ASPECT_KEYS, aspect) then
      var key := aspect.value.s;
      if key == "strengths" then Some(Strengths)
      else if key == "opportunities" then Some(Opportunities)
      else if key == "weaknesses" then Some(Weaknesses)
      else Some(Threats)
    else None
  }

  /**
   * The POST filter: with a requested aspect, `details` keeps that aspect's
   * results and nothing else (nothing at all if the report has none for it);
   * without one the report is unchanged. Timestamp, summary and strategies
   * are always kept.
   */
  method FilterByAspect(full: Report, aspect: Option<Aspect>) returns (filtered: Report)
    ensures filtered.timestamp == full.timestamp
    ensures filtered.summary == full.summary
    ensures filtered.strategies == full.strategies
    ensures aspect.None? ==> filtered == full
    ensures aspect.Some? ==> filtered.details.Keys <= {aspect.value}
    ensures aspect.Some? ==> (aspect.value in filtered.details <==> aspect.value in full.details)
    ensures forall a :: a in filtered.details ==> a in full.details && filtered.details[a] == full.details[a]
  {
    filtered := full;
    if aspect.Some? {
      var a := aspect.value;
      filtered := full.(details := if a in full.details then map[a := full.details[a]] else map[]);
    }
  }

  datatype AnalysisResponse = Success(data: Report) | Failure(error: string)

  const GET_ERROR: string := "Error al procesar análisis FODA"
  const POST_ERROR: string := "Error al procesar solicitud de análisis"

  /** GET: the complete analysis. Nothing in it throws, so the error answer is never given. */
  method HandleGet(rates: GrowthRates, exp: real -> real, now: string) returns (response: AnalysisResponse)
    ensures response == Success(Analysis(rates, exp, now))
  {
    var analysis := RunCompleteAnalysis(rates, exp, now);
    response := Success(analysis);
  }

  /**
   * POST. `body` is None when the request body is not JSON. Destructuring
   * `aspect` out of a null body throws as well; both give the error answer.
   * Otherwise the complete analysis, its details narrowed to the requested
   * aspect when there is one.
   */
  method HandlePost(body: Option<Json>, rates: GrowthRates, exp: real -> real, now: string)
    returns (response: AnalysisResponse)
    ensures response.Failure? <==> body.None? || body.value == JNull
    ensures response.Failure? ==> response.error == POST_ERROR
    ensures response.Success? ==>
      && response.data.timestamp == Analysis(rates, exp, now).timestamp
      && response.data.summary == Analysis(rates, exp, now).summary
      && response.data.strategies == Analysis(rates, exp, now).strategies
      && (forall a :: a in response.data.details ==>
            a in Analysis(rates, exp, now).details
            && response.data.details[a] == Analysis(rates, exp, now).details[a])
    ensures response.Success? && RequestedAspect(body.value).Some? ==>
      response.data.details.Keys == {RequestedAspect(body.value).value}
    ensures response.Success? && RequestedAspect(body.value).None? ==>
      response.data == Analysis(rates, exp, now)
  {
    if body.None? || body.value == JNull {
      return Failure(POST_ERROR);
    }
    var aspect := RequestedAspect(body.value);
    var full := RunCompleteAnalysis(rates, exp, now);
    AnalysisAspects(rates, exp, now);
    var filtered := FilterByAspect(full, aspect);
    response := Success(filtered);
  }
}
