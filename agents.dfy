/**
 * The four analysis agents of /api/foda-analysis
 * (app/api/foda-analysis/route.ts): each one holds two hard-coded five-year
 * series, labels the latest value with a trend according to the
 * indicator's polarity, and projects it one, three and five years ahead.
 *
 * The compound annual growth rates that calculateCAGR would compute are
 * inputs (`GrowthRates`), and Math.exp is the parameter `exp`; the
 * predicates `TrueRates` and `ExpLike` say what the real ones satisfy.
 */
module Agents {
  import opened Formulas

  // ---------------------------------------------------------------------
  // Results
  // ---------------------------------------------------------------------

  datatype Trend = Positive | Negative | Neutral

  /** Values projected 1, 3 and 5 years ahead. */
  datatype Projection = Projection(shortTerm: real, mediumTerm: real, longTerm: real)

  /** AnalysisResult without its display strings `formula` and `interpretation`. */
  datatype AnalysisResult = AnalysisResult(
    indicator: string,
    value: real,
    trend: Trend,
    projection: Projection,
    confidence: real)

  // ---------------------------------------------------------------------
  // The hard-coded series
  // ---------------------------------------------------------------------

  const INVESTMENT_DATA: seq<real> := [15.2, 16.8, 18.5, 20.1, 22.3]
  const INNOVATION_INDEX: seq<real> := [0.45, 0.48, 0.52, 0.55, 0.58]
  const DEMOGRAPHIC_BONUS: seq<real> := [0.65, 0.68, 0.70, 0.71, 0.72]
  const DIGITAL_DEMAND: seq<real> := [1200.0, 1450.0, 1780.0, 2180.0, 2650.0]
  const DESERTION_RATES: seq<real> := [18.2, 17.5, 16.8, 16.2, 15.8]
  const GRADUATION_EFFICIENCY: seq<real> := [0.42, 0.44, 0.46, 0.47, 0.48]
  const ECONOMIC_VOLATILITY: seq<real> := [0.28, 0.32, 0.35, 0.38, 0.42]
  const UNEMPLOYMENT_GRAD: seq<real> := [8.5, 9.2, 10.1, 10.8, 11.5]

  /** The growth rate above which investment counts as a positive trend. */
  const INVESTMENT_THRESHOLD: real := 0.05

  /**
   * The compound annual growth rates, first to last value over four years,
   * of the five series the agents run calculateCAGR on.
   */
  datatype GrowthRates = GrowthRates(
    investment: real,
    innovation: real,
    digitalDemand: real,
    graduationEfficiency: real,
    unemployment: real)

  /** The rates are the true compound growth rates of the series. */
  ghost predicate TrueRates(r: GrowthRates)
  {
    && IsCompoundGrowthRate(r.investment, INVESTMENT_DATA[0], INVESTMENT_DATA[4], 4)
    && IsCompoundGrowthRate(r.innovation, INNOVATION_INDEX[0], INNOVATION_INDEX[4], 4)
    && IsCompoundGrowthRate(r.digitalDemand, DIGITAL_DEMAND[0], DIGITAL_DEMAND[4], 4)
    && IsCompoundGrowthRate(r.graduationEfficiency, GRADUATION_EFFICIENCY[0], GRADUATION_EFFICIENCY[4], 4)
    && IsCompoundGrowthRate(r.unemployment, UNEMPLOYMENT_GRAD[0], UNEMPLOYMENT_GRAD[4], 4)
  }

  function Latest(series: seq<real>): real
    requires |series| > 0
  {
    series[|series| - 1]
  }

  // ---------------------------------------------------------------------
  // Projections
  // ---------------------------------------------------------------------

  /** latest + slope, latest + 3·slope, latest + 5·slope. */
  function LinearProjection(latest: real, slope: real): (p: Projection)
    ensures slope >= 0.0 ==> latest <= p.shortTerm <= p.mediumTerm <= p.longTerm
    ensures slope <= 0.0 ==> latest >= p.shortTerm >= p.mediumTerm >= p.longTerm
    ensures slope == 0.0 ==> p == Projection(latest, latest, latest)
    ensures p.mediumTerm - p.shortTerm == 2.0 * (p.shortTerm - latest)
    ensures p.longTerm - p.mediumTerm == 2.0 * (p.shortTerm - latest)
  {
    Projection(latest + slope, latest + slope * 3.0, latest + slope * 5.0)
  }

  /**
   * On a series that lies exactly on a line a + d·i (i = 0..4), the slope
   * projection from the latest value extends that line to i = 5, 7 and 9.
   */
  lemma LinearProjectionExtendsLine(a: real, d: real)
    ensures var s := LineSeries(a, d, 5);
      LinearProjection(Latest(s), LinearTrend(s).slope) == Projection(a + d * 5.0, a + d * 7.0, a + d * 9.0)
  {
    LinearTrendOfLine(a, d, 5);
  }

  /** value·(1+g)^years: `value * Math.pow(1 + g, years)`, and `value * (1 + g)` for one year. */
  function CompoundGrowth(value: real, g: real, years: nat): real
  {
    value * Pow(1.0 + g, years)
  }

  /** latest·(1+g), latest·(1+g)³, latest·(1+g)⁵. */
  function CompoundProjection(latest: real, g: real): (p: Projection)
    ensures latest >= 0.0 && g >= 0.0 ==> latest <= p.shortTerm <= p.mediumTerm <= p.longTerm
    ensures latest >= 0.0 && -1.0 <= g <= 0.0 ==> latest >= p.shortTerm >= p.mediumTerm >= p.longTerm
  {
    CompoundProjectionOrdered(latest, g);
    Projection(CompoundGrowth(latest, g, 1), CompoundGrowth(latest, g, 3), CompoundGrowth(latest, g, 5))
  }

  lemma CompoundProjectionOrdered(latest: real, g: real)
    ensures latest >= 0.0 && g >= 0.0 ==>
      latest <= CompoundGrowth(latest, g, 1) <= CompoundGrowth(latest, g, 3) <= CompoundGrowth(latest, g, 5)
    ensures latest >= 0.0 && -1.0 <= g <= 0.0 ==>
      latest >= CompoundGrowth(latest, g, 1) >= CompoundGrowth(latest, g, 3) >= CompoundGrowth(latest, g, 5)
  {
    assert CompoundGrowth(latest, g, 0) == latest;
    CompoundGrowthMonotoneInYears(latest, g, 0, 1);
    CompoundGrowthMonotoneInYears(latest, g, 1, 3);
    CompoundGrowthMonotoneInYears(latest, g, 3, 5);
  }

  /** A non-negative value grows with the years when g >= 0 and shrinks when -1 <= g <= 0. */
  lemma CompoundGrowthMonotoneInYears(v: real, g: real, m: nat, n: nat)
    requires m <= n
    ensures v >= 0.0 && g >= 0.0 ==> CompoundGrowth(v, g, m) <= CompoundGrowth(v, g, n)
    ensures v >= 0.0 && -1.0 <= g <= 0.0 ==> CompoundGrowth(v, g, n) <= CompoundGrowth(v, g, m)
  {
    var x := 1.0 + g;
    if v >= 0.0 && x >= 0.0 {
      PowMonotoneInExponent(x, m, n);
      if x >= 1.0 {
        MulMonotone(Pow(x, m), Pow(x, n), v);
      }
      if x <= 1.0 {
        MulMonotone(Pow(x, n), Pow(x, m), v);
      }
      assert v * Pow(x, m) == Pow(x, m) * v && v * Pow(x, n) == Pow(x, n) * v;
    }
  }

  lemma {:induction false} PowAdd(x: real, m: nat, n: nat)
    ensures Pow(x, m + n) == Pow(x, m) * Pow(x, n)
  {
    if m > 0 {
      PowAdd(x, m - 1, n);
      assert Pow(x, m + n) == x * Pow(x, m - 1 + n);
    }
  }

  /** Growing for m years and then for n years is growing for m + n years. */
  lemma CompoundGrowthComposes(v: real, g: real, m: nat, n: nat)
    ensures CompoundGrowth(CompoundGrowth(v, g, m), g, n) == CompoundGrowth(v, g, m + n)
  {
    var x := 1.0 + g;
    PowAdd(x, m, n);
    assert (v * Pow(x, m)) * Pow(x, n) == v * (Pow(x, m) * Pow(x, n));
  }

  /**
   * When g is the true compound growth rate from `initial` to `final` over
   * four years, the compound projection from `final` continues the same
   * curve: it gives the values of years 5, 7 and 9.
   */
  lemma CompoundProjectionContinuesGrowth(g: real, initial: real, final: real)
    requires IsCompoundGrowthRate(g, initial, final, 4)
    ensures CompoundProjection(final, g)
      == Projection(CompoundGrowth(initial, g, 5), CompoundGrowth(initial, g, 7), CompoundGrowth(initial, g, 9))
  {
    assert final == CompoundGrowth(initial, g, 4);
    CompoundGrowthComposes(initial, g, 4, 1);
    CompoundGrowthComposes(initial, g, 4, 3);
    CompoundGrowthComposes(initial, g, 4, 5);
  }

  /** current·exp(g·1), current·exp(g·3), current·exp(g·5). */
  function ExpProjection(latest: real, g: real, exp: real -> real): (p: Projection)
    ensures ExpLike(exp) && latest > 0.0 && g > 0.0 ==> latest < p.shortTerm < p.mediumTerm < p.longTerm
    ensures ExpLike(exp) && latest > 0.0 && g < 0.0 ==> latest > p.shortTerm > p.mediumTerm > p.longTerm
    ensures g == 0.0 ==> p.shortTerm == p.mediumTerm == p.longTerm
    ensures ExpLike(exp) && g == 0.0 ==> p == Projection(latest, latest, latest)
  {
    var p := Projection(ExponentialProjection(latest, g, 1.0, exp),
                        ExponentialProjection(latest, g, 3.0, exp),
                        ExponentialProjection(latest, g, 5.0, exp));
    ExpProjectionOrdered(latest, g, exp);
    p
  }

  lemma ExpProjectionOrdered(latest: real, g: real, exp: real -> real)
    ensures ExpLike(exp) && latest > 0.0 && g > 0.0 ==>
      && latest < ExponentialProjection(latest, g, 1.0, exp)
      && ExponentialProjection(latest, g, 1.0, exp) < ExponentialProjection(latest, g, 3.0, exp)
      && ExponentialProjection(latest, g, 3.0, exp) < ExponentialProjection(latest, g, 5.0, exp)
    ensures ExpLike(exp) && latest > 0.0 && g < 0.0 ==>
      && latest > ExponentialProjection(latest, g, 1.0, exp)
      && ExponentialProjection(latest, g, 1.0, exp) > ExponentialProjection(latest, g, 3.0, exp)
      && ExponentialProjection(latest, g, 3.0, exp) > ExponentialProjection(latest, g, 5.0, exp)
  {
    if ExpLike(exp) && latest > 0.0 {
      ExpProjectionStep(latest, g, 1.0, 3.0, exp);
      ExpProjectionStep(latest, g, 3.0, 5.0, exp);
    }
  }

  /** A longer horizon gives a larger projection for a positive rate and a smaller one for a negative rate. */
  lemma ExpProjectionStep(latest: real, g: real, s: real, t: real, exp: real -> real)
    requires ExpLike(exp) && latest > 0.0 && s < t
    ensures g > 0.0 ==> ExponentialProjection(latest, g, s, exp) < ExponentialProjection(latest, g, t, exp)
    ensures g < 0.0 ==> ExponentialProjection(latest, g, t, exp) < ExponentialProjection(latest, g, s, exp)
  {
    assert ExponentialProjection(latest, g, s, exp) == latest * exp(g * s);
    assert ExponentialProjection(latest, g, t, exp) == latest * exp(g * t);
    if g > 0.0 {
      StrictScale(g, s, t);
      assert exp(g * s) < exp(g * t);
      StrictScale(latest, exp(g * s), exp(g * t));
    } else if g < 0.0 {
      StrictScale(-g, s, t);
      assert g * t < g * s;
      assert exp(g * t) < exp(g * s);
      StrictScale(latest, exp(g * t), exp(g * s));
    }
  }

  // ---------------------------------------------------------------------
  // The concrete slopes
  // ---------------------------------------------------------------------

  /** ΣY and ΣXY of a five-element series, written out. */
  lemma SumsOfFive(s: seq<real>)
    requires |s| == 5
    ensures Sum(s) == s[0] + s[1] + s[2] + s[3] + s[4]
    ensures SumXY(s) == s[1] + 2.0 * s[2] + 3.0 * s[3] + 4.0 * s[4]
  {
    var s4, s3, s2, s1 := s[..4], s[..3], s[..2], s[..1];
    assert s4[..3] == s3 && s3[..2] == s2 && s2[..1] == s1 && s1[..0] == [];
    assert Sum(s1) == s[0];
    assert Sum(s2) == Sum(s1) + s[1];
    assert Sum(s3) == Sum(s2) + s[2];
    assert Sum(s4) == Sum(s3) + s[3];
    assert Sum(s) == Sum(s4) + s[4];
    assert SumXY(s1) == 0.0;
    assert SumXY(s2) == SumXY(s1) + s[1];
    assert SumXY(s3) == SumXY(s2) + 2.0 * s[2];
    assert SumXY(s4) == SumXY(s3) + 3.0 * s[3];
    assert SumXY(s) == SumXY(s4) + 4.0 * s[4];
  }

  /** The least-squares slope of a five-element series: (5ΣXY − 10ΣY) / 50. */
  lemma SlopeOfFive(s: seq<real>)
    requires |s| == 5
    ensures LinearTrend(s).slope == (5.0 * SumXY(s) - 10.0 * Sum(s)) / 50.0
  {
    SumXClosedForm(5);
    SumX2ClosedForm(5);
  }

  /**
   * The slopes the agents compute: 0.017 for the demographic bonus, −0.61
   * for desertion and 0.034 for economic volatility.
   */
  lemma ShippedSlopes()
    ensures LinearTrend(DEMOGRAPHIC_BONUS).slope == 0.017
    ensures LinearTrend(DESERTION_RATES).slope == -0.61
    ensures LinearTrend(ECONOMIC_VOLATILITY).slope == 0.034
  {
    SlopeOfFive(DEMOGRAPHIC_BONUS);
    SumsOfFive(DEMOGRAPHIC_BONUS);
    SlopeOfFive(DESERTION_RATES);
    SumsOfFive(DESERTION_RATES);
    SlopeOfFive(ECONOMIC_VOLATILITY);
    SumsOfFive(ECONOMIC_VOLATILITY);
  }

  /**
   * The true growth rates clear the thresholds the agents test: investment
   * grows faster than 5% a year, and the other four series grow.
   */
  lemma TrueRatesClearThresholds(r: GrowthRates)
    requires TrueRates(r)
    ensures r.investment > INVESTMENT_THRESHOLD
    ensures r.innovation > 0.0 && r.digitalDemand > 0.0
    ensures r.graduationEfficiency > 0.0 && r.unemployment > 0.0
  {
    assert Pow(1.05, 4) == 1.21550625 by {
      assert Pow(1.05, 2) == 1.1025;
    }
    PowOfOne(4);
    CompoundGrowthAboveThreshold(r.investment, 15.2, 22.3, 4, INVESTMENT_THRESHOLD);
    CompoundGrowthAboveThreshold(r.innovation, 0.45, 0.58, 4, 0.0);
    CompoundGrowthAboveThreshold(r.digitalDemand, 1200.0, 2650.0, 4, 0.0);
    CompoundGrowthAboveThreshold(r.graduationEfficiency, 0.42, 0.48, 4, 0.0);
    CompoundGrowthAboveThreshold(r.unemployment, 8.5, 11.5, 4, 0.0);
  }

  // ---------------------------------------------------------------------
  // The agents
  // ---------------------------------------------------------------------

  /** Every confidence the agents attach lies in [0,1]. */
  predicate ConfidencesInUnitInterval(results: seq<AnalysisResult>)
  {
    forall i :: 0 <= i < |results| ==> 0.0 <= results[i].confidence <= 1.0
  }

  /** The two results StrengthsAgent.analyze pushes, in order. */
  function StrengthsResults(rates: GrowthRates, exp: real -> real): seq<AnalysisResult>
  {
    [AnalysisResult(
       "Inversión en Educación Superior",
       Latest(INVESTMENT_DATA),
       if rates.investment > INVESTMENT_THRESHOLD then Positive else Neutral,
       ExpProjection(Latest(INVESTMENT_DATA), rates.investment, exp),
       0.85),
     AnalysisResult(
       "Índice de Capacidad de Innovación",
       Latest(INNOVATION_INDEX),
       if rates.innovation > 0.0 then Positive else Neutral,
       CompoundProjection(Latest(INNOVATION_INDEX), rates.innovation),
       0.78)]
  }

  /**
   * StrengthsAgent.analyze: investment is positive when it grows faster
   * than 5% a year and neutral otherwise; innovation is positive when it
   * grows at all and neutral otherwise.
   */
  method AnalyzeStrengths(rates: GrowthRates, exp: real -> real) returns (results: seq<AnalysisResult>)
    ensures results == StrengthsResults(rates, exp)
    ensures |results| == 2 && ConfidencesInUnitInterval(results)
    ensures results[0].indicator == "Inversión en Educación Superior"
    ensures results[0].value == Latest(INVESTMENT_DATA) == 22.3
    ensures results[0].trend != Negative && (results[0].trend == Positive <==> rates.investment > INVESTMENT_THRESHOLD)
    ensures results[0].projection == ExpProjection(Latest(INVESTMENT_DATA), rates.investment, exp)
    ensures results[0].confidence == 0.85
    ensures results[1].indicator == "Índice de Capacidad de Innovación"
    ensures results[1].value == Latest(INNOVATION_INDEX) == 0.58
    ensures results[1].trend != Negative && (results[1].trend == Positive <==> rates.innovation > 0.0)
    ensures results[1].projection == CompoundProjection(Latest(INNOVATION_INDEX), rates.innovation)
    ensures results[1].confidence == 0.78
  {
    results := [];
    var investment := Latest(INVESTMENT_DATA);
    results := results + [AnalysisResult(
      "Inversión en Educación Superior",
      investment,
      if rates.investment > INVESTMENT_THRESHOLD then Positive else Neutral,
      ExpProjection(investment, rates.investment, exp),
      0.85)];
    var innovation := Latest(INNOVATION_INDEX);
    results := results + [AnalysisResult(
      "Índice de Capacidad de Innovación",
      innovation,
      if rates.innovation > 0.0 then Positive else Neutral,
      CompoundProjection(innovation, rates.innovation),
      0.78)];
  }

  /** The two results OpportunitiesAgent.analyze pushes, in order. */
  function OpportunitiesResults(rates: GrowthRates, exp: real -> real): seq<AnalysisResult>
  {
    var slope := LinearTrend(DEMOGRAPHIC_BONUS).slope;
    [AnalysisResult(
       "Bono Demográfico",
       Latest(DEMOGRAPHIC_BONUS),
       if slope > 0.0 then Positive else Negative,
       LinearProjection(Latest(DEMOGRAPHIC_BONUS), slope),
       0.92),
     AnalysisResult(
       "Crecimiento Demanda Profesionales Digitales",
       Latest(DIGITAL_DEMAND),
       Positive,
       ExpProjection(Latest(DIGITAL_DEMAND), rates.digitalDemand, exp),
       0.88)]
  }

  /**
   * OpportunitiesAgent.analyze: the demographic bonus is positive when its
   * fitted slope is positive and negative otherwise; digital demand is
   * always positive.
   */
  method AnalyzeOpportunities(rates: GrowthRates, exp: real -> real) returns (results: seq<AnalysisResult>)
    ensures results == OpportunitiesResults(rates, exp)
    ensures |results| == 2 && ConfidencesInUnitInterval(results)
    ensures results[0].indicator == "Bono Demográfico"
    ensures results[0].value == Latest(DEMOGRAPHIC_BONUS) == 0.72
    ensures results[0].trend != Neutral && (results[0].trend == Positive <==> LinearTrend(DEMOGRAPHIC_BONUS).slope > 0.0)
    ensures results[0].projection == LinearProjection(Latest(DEMOGRAPHIC_BONUS), LinearTrend(DEMOGRAPHIC_BONUS).slope)
    ensures results[0].confidence == 0.92
    ensures results[1].indicator == "Crecimiento Demanda Profesionales Digitales"
    ensures results[1].value == Latest(DIGITAL_DEMAND) == 2650.0
    ensures results[1].trend == Positive
    ensures results[1].projection == ExpProjection(Latest(DIGITAL_DEMAND), rates.digitalDemand, exp)
    ensures results[1].confidence == 0.88
  {
    results := [];
    var demographic := Latest(DEMOGRAPHIC_BONUS);
    var demographicTrend := LinearTrend(DEMOGRAPHIC_BONUS);
    results := results + [AnalysisResult(
      "Bono Demográfico",
      demographic,
      if demographicTrend.slope > 0.0 then Positive else Negative,
      LinearProjection(demographic, demographicTrend.slope),
      0.92)];
    var digital := Latest(DIGITAL_DEMAND);
    results := results + [AnalysisResult(
      "Crecimiento Demanda Profesionales Digitales",
      digital,
      Positive,
      ExpProjection(digital, rates.digitalDemand, exp),
      0.88)];
  }

  /** The two results WeaknessesAgent.analyze pushes, in order. */
  function WeaknessesResults(rates: GrowthRates): seq<AnalysisResult>
  {
    var slope := LinearTrend(DESERTION_RATES).slope;
    [AnalysisResult(
       "Tasa de Deserción",
       Latest(DESERTION_RATES),
       if slope < 0.0 then Positive else Negative,
       LinearProjection(Latest(DESERTION_RATES), slope),
       0.82),
     AnalysisResult(
       "Eficiencia de Titulación",
       Latest(GRADUATION_EFFICIENCY),
       if rates.graduationEfficiency > 0.0 then Positive else Negative,
       CompoundProjection(Latest(GRADUATION_EFFICIENCY), rates.graduationEfficiency),
       0.76)]
  }

  /**
   * WeaknessesAgent.analyze: desertion is positive when its fitted slope is
   * negative (it falls) and negative otherwise, a zero slope included;
   * graduation efficiency is positive when it grows and negative otherwise.
   */
  method AnalyzeWeaknesses(rates: GrowthRates) returns (results: seq<AnalysisResult>)
    ensures results == WeaknessesResults(rates)
    ensures |results| == 2 && ConfidencesInUnitInterval(results)
    ensures results[0].indicator == "Tasa de Deserción"
    ensures results[0].value == Latest(DESERTION_RATES) == 15.8
    ensures results[0].trend != Neutral && (results[0].trend == Positive <==> LinearTrend(DESERTION_RATES).slope < 0.0)
    ensures results[0].projection == LinearProjection(Latest(DESERTION_RATES), LinearTrend(DESERTION_RATES).slope)
    ensures results[0].confidence == 0.82
    ensures results[1].indicator == "Eficiencia de Titulación"
    ensures results[1].value == Latest(GRADUATION_EFFICIENCY) == 0.48
    ensures results[1].trend != Neutral && (results[1].trend == Positive <==> rates.graduationEfficiency > 0.0)
    ensures results[1].projection == CompoundProjection(Latest(GRADUATION_EFFICIENCY), rates.graduationEfficiency)
    ensures results[1].confidence == 0.76
  {
    results := [];
    var desertion := Latest(DESERTION_RATES);
    var desertionTrend := LinearTrend(DESERTION_RATES);
    results := results + [AnalysisResult(
      "Tasa de Deserción",
      desertion,
      if desertionTrend.slope < 0.0 then Positive else Negative,
      LinearProjection(desertion, desertionTrend.slope),
      0.82)];
    var efficiency := Latest(GRADUATION_EFFICIENCY);
    results := results + [AnalysisResult(
      "Eficiencia de Titulación",
      efficiency,
      if rates.graduationEfficiency > 0.0 then Positive else Negative,
      CompoundProjection(efficiency, rates.graduationEfficiency),
      0.76)];
  }

  /** The two results ThreatsAgent.analyze pushes, in order. */
  function ThreatsResults(rates: GrowthRates, exp: real -> real): seq<AnalysisResult>
  {
    var slope := LinearTrend(ECONOMIC_VOLATILITY).slope;
    [AnalysisResult(
       "Volatilidad Económica",
       Latest(ECONOMIC_VOLATILITY),
       if slope > 0.0 then Negative else Positive,
       LinearProjection(Latest(ECONOMIC_VOLATILITY), slope),
       0.68),
     AnalysisResult(
       "Desempleo Recién Egresados",
       Latest(UNEMPLOYMENT_GRAD),
       Negative,
       ExpProjection(Latest(UNEMPLOYMENT_GRAD), rates.unemployment, exp),
       0.72)]
  }

  /**
   * ThreatsAgent.analyze: volatility is negative when its fitted slope is
   * positive (it rises) and positive otherwise, a zero slope included;
   * unemployment of new graduates is always negative.
   */
  method AnalyzeThreats(rates: GrowthRates, exp: real -> real) returns (results: seq<AnalysisResult>)
    ensures results == ThreatsResults(rates, exp)
    ensures |results| == 2 && ConfidencesInUnitInterval(results)
    ensures results[0].indicator == "Volatilidad Económica"
    ensures results[0].value == Latest(ECONOMIC_VOLATILITY) == 0.42
    ensures results[0].trend != Neutral && (results[0].trend == Negative <==> LinearTrend(ECONOMIC_VOLATILITY).slope > 0.0)
    ensures results[0].projection == LinearProjection(Latest(ECONOMIC_VOLATILITY), LinearTrend(ECONOMIC_VOLATILITY).slope)
    ensures results[0].confidence == 0.68
    ensures results[1].indicator == "Desempleo Recién Egresados"
    ensures results[1].value == Latest(UNEMPLOYMENT_GRAD) == 11.5
    ensures results[1].trend == Negative
    ensures results[1].projection == ExpProjection(Latest(UNEMPLOYMENT_GRAD), rates.unemployment, exp)
    ensures results[1].confidence == 0.72
  {
    results := [];
    var volatility := Latest(ECONOMIC_VOLATILITY);
    var volatilityTrend := LinearTrend(ECONOMIC_VOLATILITY);
    results := results + [AnalysisResult(
      "Volatilidad Económica",
      volatility,
      if volatilityTrend.slope > 0.0 then Negative else Positive,
      LinearProjection(volatility, volatilityTrend.slope),
      0.68)];
    var unemployment := Latest(UNEMPLOYMENT_GRAD);
    results := results + [AnalysisResult(
      "Desempleo Recién Egresados",
      unemployment,
      Negative,
      ExpProjection(unemployment, rates.unemployment, exp),
      0.72)];
  }
}
