# FODA analysis core in Dafny

This project models the computational core of a SWOT ("FODA") dashboard
for the automotive AI sector of San Luis Potosí. It covers three Next.js
API routes:

- `/api/foda-analysis` runs four analysis agents (strengths,
  opportunities, weaknesses, threats). Each agent labels two hard-coded
  five-year series with a trend and projects them 1, 3 and 5 years
  ahead. An orchestrator turns the results into category scores, a
  competitiveness ratio and a health label. POST can narrow the report's
  details to one aspect.
- `/api/indicadores` proxies four scientific indicators (ICPS, CCIA, ITT,
  MIS) from a backend. It validates them strictly, rounds them to six
  decimals, and falls back to a baseline whenever anything goes wrong.
- `/api/foda` proxies the four SWOT quadrants from the same backend. It
  validates them and falls back to a static list.

Files and modules:

- `json.dfy`
  - `Wrappers`: `Option`.
  - `Json`: a JSON value, plus the JavaScript truthiness, `typeof` and
    property access the validators rely on.
  - `Backend`: the backend URL default, the fetch outcome, and the
    `data.data || data` and `data.version || '1.0.0'` extractions.
- `formulas.dfy`, module `Formulas`: the `MathematicalFormulas` class as
  functions over `real`, together with their lemmas.
- `agents.dfy`, module `Agents`: the series, the projections, and the four
  agents. Each agent is a method that builds its `results` list by
  appending, as the source builds it by `push`.
- `orchestrator.dfy`, module `Orchestrator`:
  - scores and the health label;
  - `RunCompleteAnalysis`;
  - the POST filter, a method that reassigns its result as the source
    reassigns `filteredData`;
  - the GET and POST handlers.
- `indicadores.dfy`, module `Indicadores`, and `foda.dfy`, module `Foda`:
  the two validators, their typed encode/decode partners, the baseline and
  fallback data, and the GET choice between backend data and that data.

Numbers are idealised as mathematical reals. Growth rates and `Math.exp`
are parameters (see "Left out"). Two facts describe the true values:

- `Agents.TrueRates` says that a rate `g` is the compound annual growth
  rate of its series: `initial·(1+g)^4 = final`.
- `Agents.ExpLike` says that `exp` maps 0 to 1 and is positive and
  strictly increasing.

The labels that depend on growth rates (investment, innovation and
graduation efficiency) are derived from `TrueRates`. The slope-based labels
(demographic bonus, desertion, volatility) come from the fitted slopes of
the shipped series (`Agents.ShippedSlopes`), whatever the rates. `ExpLike`
decides only the ordering of the exponential projections, never a label.

Behaviour worth knowing, all of it proved:

- The backend URL falls back to `http://localhost:8000` when the
  environment leaves it unset (`Backend.BackendUrl`). So the handlers'
  "URL not configured" branches (`app/api/indicadores/route.ts:109`,
  `app/api/foda/route.ts:112`) are never taken. The model keeps them
  anyway.
- The indicadores GET accepts a payload only after it passes the
  validator. It then maps every entry of the payload through
  `{...ind, valor: round(ind.valor)}`, extra keys included. An extra key
  whose value is `null` is ignored by the validator, but this step reads
  `.valor` of `null`, which throws, so the answer is the baseline
  (`Indicadores.NullExtraKeyFallsBackToBaseline`).
- Desertion counts as positive only when its slope is strictly negative.
  Volatility counts as negative only when its slope is strictly positive.
  At a slope of exactly zero, desertion is therefore "negative" and
  volatility "positive".
- The category trends in the summary are fixed: positive for strengths
  and opportunities, negative for weaknesses and threats. They ignore the
  results. With the true growth rates both weakness results are
  "positive", yet the weaknesses category still reports "negative"
  (`Orchestrator.AnalysisTrends`).
- With the shipped series the scores are:
  - strengths 9.7037
  - opportunities 1166.3312
  - weaknesses 6.6604
  - threats 4.2828

  The ratio is therefore about 107.5, and the health label is "Excelente"
  whatever the growth rates are. The digital-demand value (2650, in
  thousands) dominates the opportunities score.

## Model

| member | source | states |
|---|---|---|
| Formulas.CompositeIndexBounds | app/api/foda-analysis/route.ts:81-87 | The composite index is 100 × the weighted moving average. With positive weights and indicators in [0,1] it lies in [0,100]. |
| Formulas.WmaBetweenBounds | app/api/foda-analysis/route.ts:43-51 | With positive weights the weight sum is positive, and the weighted moving average lies between any lower and upper bound of the values. |
| Formulas.WmaOfEqualWeightsIsMean | app/api/foda-analysis/route.ts:43-51 | With equal non-zero weights the weighted moving average is the arithmetic mean. |
| Formulas.WeightedSumBetweenBounds | app/api/foda-analysis/route.ts:48 | With positive weights, lo·Σw ≤ Σ v·w ≤ hi·Σw when every value lies in [lo, hi]. |
| Formulas.SumOfPositivesIsPositive | app/api/foda-analysis/route.ts:49 | A non-empty sum of positive weights is positive, so the division is defined. |
| Formulas.Variance | app/api/foda-analysis/route.ts:57-61 | The population variance (standardDeviation before the square root) is never negative. |
| Formulas.VarianceOfConstantIsZero | app/api/foda-analysis/route.ts:57-61 | The variance (the part of standardDeviation before the square root) is non-negative, and zero for a constant series. |
| Formulas.SumSquaredDeviationsNonNegative | app/api/foda-analysis/route.ts:59 | The sum of squared deviations is non-negative. |
| Formulas.SumSquaredDeviationsOfConstant | app/api/foda-analysis/route.ts:59 | Squared deviations of a constant series from that constant sum to zero. |
| Formulas.SumXClosedForm | app/api/foda-analysis/route.ts:68-70 | ΣX over x = 0..n-1 is n(n-1)/2. |
| Formulas.SumX2ClosedForm | app/api/foda-analysis/route.ts:73 | ΣX² over x = 0..n-1 is n(n-1)(2n-1)/6. |
| Formulas.TrendDenominatorPositive | app/api/foda-analysis/route.ts:75 | For n ≥ 2 the least-squares denominator n·ΣX² − (ΣX)² is positive. |
| Formulas.LinearTrendOfLine | app/api/foda-analysis/route.ts:63-79 | On an exact line a + d·i, linearTrend returns slope d and intercept a. |
| Formulas.LinearTrendOfConstant | app/api/foda-analysis/route.ts:63-79 | A constant series c gives slope 0 and intercept c. |
| Formulas.LineSeriesSum | app/api/foda-analysis/route.ts:71 | ΣY of a line series is n·a + d·ΣX. |
| Formulas.LineSeriesSumXY | app/api/foda-analysis/route.ts:72 | ΣXY of a line series is a·ΣX + d·ΣX². |
| Formulas.LeastSquaresOfLine | app/api/foda-analysis/route.ts:75-76 | The slope/intercept formulas, fed the sums of a line, give back that line. |
| Formulas.CompetitivenessRatio | app/api/foda-analysis/route.ts:101-104 | The ratio times W+T is S+O. With W+T > 0 the ratio is at least 1 exactly when S+O ≥ W+T. |
| Formulas.CompetitivenessRatioMonotoneInGains | app/api/foda-analysis/route.ts:101-104 | With W+T > 0, the ratio (S+O)/(W+T) does not decrease when S or O grows, whatever the signs. |
| Formulas.CompetitivenessRatioMonotoneInLosses | app/api/foda-analysis/route.ts:101-104 | With W+T > 0 and S+O ≥ 0, the ratio does not increase when W or T grows. |
| Formulas.ExponentialProjection | app/api/foda-analysis/route.ts:93-95 | With an exp that is 1 at 0, positive and increasing: a zero rate keeps the value, and a positive value over a positive horizon grows with a positive rate and shrinks with a negative one. |
| Formulas.CompoundGrowthAboveThreshold | app/api/foda-analysis/route.ts:35-41 | For the true compound growth rate g of a positive series, g exceeds a threshold t exactly when final > initial·(1+t)^years. |
| Formulas.PowStrictlyIncreasing | app/api/foda-analysis/route.ts:39-41 | x ↦ xⁿ is strictly increasing on non-negative x for n ≥ 1. |
| Formulas.PowMonotoneInExponent | app/api/foda-analysis/route.ts:147-149 | (1+g)ⁿ grows with n when 1+g ≥ 1 and shrinks with n when 0 ≤ 1+g ≤ 1. |
| Agents.LinearProjection | app/api/foda-analysis/route.ts:179-183 | Slope projections are ordered short ≤ medium ≤ long when slope ≥ 0, and reversed when slope ≤ 0. They all equal the latest value when the slope is 0, and are evenly spaced. |
| Agents.LinearProjectionExtendsLine | app/api/foda-analysis/route.ts:229-233 | On a series lying exactly on a line, the slope projections are that line's values at years 5, 7 and 9. |
| Agents.CompoundProjection | app/api/foda-analysis/route.ts:147-149 | Compound projections of a non-negative value are ascending for g ≥ 0 and descending for -1 ≤ g ≤ 0. |
| Agents.CompoundGrowthMonotoneInYears | app/api/foda-analysis/route.ts:246-250 | value·(1+g)ⁿ grows with n for a non-negative value when g ≥ 0, and shrinks when -1 ≤ g ≤ 0. |
| Agents.CompoundGrowthComposes | app/api/foda-analysis/route.ts:147-149 | Growing for m years and then for n years is growing for m + n years. |
| Agents.CompoundProjectionContinuesGrowth | app/api/foda-analysis/route.ts:246-250 | With the true growth rate, the compound projection from the last value equals the series' own growth curve at years 5, 7 and 9. |
| Agents.ExpProjection | app/api/foda-analysis/route.ts:130-133 | With an exp that is 1 at 0, positive and increasing, exponential projections of a positive value are strictly ascending for g > 0 and strictly descending for g < 0. For g = 0 all three equal the value. |
| Agents.ShippedSlopes | app/api/foda-analysis/route.ts:166-171 | The fitted slopes are 0.017 (demographic bonus), −0.61 (desertion) and 0.034 (economic volatility). |
| Agents.SlopeOfFive | app/api/foda-analysis/route.ts:75 | For five points the slope is (5ΣXY − 10ΣY)/50. |
| Agents.TrueRatesClearThresholds | app/api/foda-analysis/route.ts:120-143 | The true growth rates satisfy investment > 0.05, and innovation, digital demand, graduation efficiency and unemployment > 0. |
| Agents.AnalyzeStrengths | app/api/foda-analysis/route.ts:110-156 | The results pushed are StrengthsResults: two results with their values and confidences 0.85 and 0.78. Investment is positive iff its rate is above 0.05, and neutral otherwise. Innovation is positive iff its rate is above 0, and neutral otherwise. The projections are exponential and compound. |
| Agents.AnalyzeOpportunities | app/api/foda-analysis/route.ts:161-205 | The results pushed are OpportunitiesResults. Demographic bonus is positive iff its slope is above 0, and negative otherwise. Digital demand is always positive. Confidences are 0.92 and 0.88. The projections are slope and exponential. |
| Agents.AnalyzeWeaknesses | app/api/foda-analysis/route.ts:211-255 | The results pushed are WeaknessesResults. Desertion is positive iff its slope is below 0, and negative otherwise. Graduation efficiency is positive iff its rate is above 0, and negative otherwise. Confidences are 0.82 and 0.76. |
| Agents.AnalyzeThreats | app/api/foda-analysis/route.ts:261-306 | The results pushed are ThreatsResults. Volatility is negative iff its slope is above 0, and positive otherwise. Unemployment is always negative. Confidences are 0.68 and 0.72. |
| Orchestrator.ScoreBounds | app/api/foda-analysis/route.ts:335-338 | With values in [0, m] and confidences in [0,1], the category score Σ value·confidence / length lies in [0, m]. |
| Orchestrator.WeightedValueSumBounds | app/api/foda-analysis/route.ts:335 | 0 ≤ Σ value·confidence ≤ length·m under the same bounds. |
| Orchestrator.ScoreOfTwo | app/api/foda-analysis/route.ts:335-338 | The score of a two-result category is the average of the two value·confidence products. |
| Orchestrator.RunCompleteAnalysis | app/api/foda-analysis/route.ts:325-386 | Running the four agents and assembling scores, ratio and health gives exactly the report Analysis describes. |
| Orchestrator.AnalysisShape | app/api/foda-analysis/route.ts:325-386 | The report has the timestamp, the four aspects with each agent's two results, confidences in [0,1], each category's score Σ value·confidence / count with its count and fixed trend, and the fixed strategies. |
| Orchestrator.AnalysisScores | app/api/foda-analysis/route.ts:332-346 | The scores are 9.7037/1166.3312/6.6604/4.2828 for any rates, the ratio is (S+O)/(W+T) and the health is "Excelente". |
| Orchestrator.ShippedScores | app/api/foda-analysis/route.ts:335-338 | Σ value·confidence / 2 of each agent's shipped results is 9.7037, 1166.3312, 6.6604 and 4.2828, for any growth rates. |
| Orchestrator.AnalysisTrends | app/api/foda-analysis/route.ts:350-386 | Opportunities are both positive and threats both negative; under the true rates every strength and weakness result is positive, while the summary still reports weaknesses as negative. |
| Orchestrator.OverallHealth | app/api/foda-analysis/route.ts:410-416 | Crítico exactly when ratio < 0.7; any other label's threshold is reached by the ratio. |
| Orchestrator.OverallHealthBands | app/api/foda-analysis/route.ts:410-416 | No higher label's threshold is reached, so each label covers [its threshold, the next higher threshold) and a boundary value gets the higher label. |
| Orchestrator.OverallHealthMonotone | app/api/foda-analysis/route.ts:410-416 | A larger ratio never gets a worse label. |
| Orchestrator.HealthLabelsDistinct | app/api/foda-analysis/route.ts:410-416 | The five labels are pairwise distinct. |
| Orchestrator.RequestedAspect | app/api/foda-analysis/route.ts:446-453 | An aspect is requested exactly when the body's `aspect` is one of the four key strings, and the result names that key. |
| Orchestrator.FilterByAspect | app/api/foda-analysis/route.ts:451-460 | With a requested aspect, details keeps only that key and its results. Without one the report is unchanged. Timestamp, summary and strategies are always kept. |
| Orchestrator.HandleGet | app/api/foda-analysis/route.ts:422-441 | GET always succeeds, and its data is exactly the complete analysis. |
| Orchestrator.HandlePost | app/api/foda-analysis/route.ts:443-476 | POST fails with "Error al procesar solicitud de análisis" exactly when the body is not JSON or is null. Otherwise timestamp, summary and strategies are the complete analysis's, every kept detail list is the analysis's own, the details hold the requested aspect alone, and without a requested aspect the data is the complete analysis. |
| Backend.BackendUrl | app/api/indicadores/route.ts:16 | The backend URL is never empty. It is the environment's value when that is set and non-empty, and http://localhost:8000 otherwise. |
| Backend.Payload | app/api/foda/route.ts:156 | The payload is missing exactly for a null body (reading `.data` of null throws), is never null, and is the truthy `data` field or else the body itself. |
| Backend.Version | app/api/foda/route.ts:167 | A truthy `version` is kept and anything else gives "1.0.0", so the version is always truthy. |
| Backend.PayloadUnwrapsEnvelope | app/api/foda/route.ts:156 | A truthy payload comes out of a `{data: …}` envelope unchanged, and a non-null body without truthy `data` is its own payload. |
| Indicadores.ParseTendencia | types/foda.ts:11 | Parsing a tendencia succeeds exactly on "up", "down" and "stable", and gives back the name. |
| Indicadores.DecodeIndicador | app/api/indicadores/route.ts:86-99 | Decoding succeeds exactly when the per-indicator test passes, and the decoded valor lies in [0,1]. |
| Indicadores.ValidIndicadoresData | app/api/indicadores/route.ts:80-101 | An accepted payload is an object that holds every one of ICPS, CCIA, ITT and MIS. |
| Indicadores.DecodeIndicadores | app/api/indicadores/route.ts:80-101 | Decoding succeeds exactly when validateIndicadoresData accepts, and every decoded valor lies in [0,1]. |
| Indicadores.ValidIndicadoresDataByKey | app/api/indicadores/route.ts:81-88 | The validator accepts iff the data is a truthy object and each of ICPS, CCIA, ITT and MIS passes the per-indicator test. |
| Indicadores.IndicadorRoundTrip | app/api/indicadores/route.ts:89-98 | An encoded indicator is accepted iff 0 ≤ valor ≤ 1, endpoints included, and then decodes back to itself. |
| Indicadores.IndicadoresRoundTrip | app/api/indicadores/route.ts:80-101 | Four encoded indicators are accepted iff every valor is in [0,1], and then decode back to themselves. |
| Indicadores.AcceptedIndicadorShape | app/api/indicadores/route.ts:86-99 | An accepted indicator is an object holding string id/nombre/ultimaActualizacion/descripcion/formula, a numeric valor in [0,1] and a tendencia among up/down/stable. Its seven fields are exactly those of the encoding of its decoded value. |
| Indicadores.RejectsNonObjects | app/api/indicadores/route.ts:81 | Null, booleans, numbers, strings and arrays are rejected. |
| Indicadores.ExtraKeysDoNotMatter | app/api/indicadores/route.ts:83-85 | Adding or changing a key other than the four required ones never changes the verdict. |
| Indicadores.EveryRequiredKeyIsNeeded | app/api/indicadores/route.ts:83-88 | Removing any one of ICPS, CCIA, ITT, MIS makes the payload rejected. |
| Indicadores.RoundToPrecision | app/api/indicadores/route.ts:25-28 | Rounding to six decimals moves a value by at most half a unit in the sixth decimal, and keeps [0,1]. |
| Indicadores.RoundToPrecisionOfSixDecimals | app/api/indicadores/route.ts:25-28 | A value with at most six decimals is unchanged by rounding. |
| Indicadores.BaselineIsValid | app/api/indicadores/route.ts:31-68 | The baseline holds 0.427/0.312/0.218/0.564 with tendencias up/stable/up/up, and passes the validator. |
| Indicadores.IndicadoresGet | app/api/indicadores/route.ts:103-225 | GET always has success = true; an empty URL or a failed fetch gives the baseline; backend data carries the body's version. |
| Indicadores.AnswerFromBody | app/api/indicadores/route.ts:146-175 | The answer to a received body always has success = true, and backend data carries the body's version. |
| Indicadores.AnswerFromBodyIsValid | app/api/indicadores/route.ts:146-202 | The answer to a received body holds accepted data. It is the backend's exactly when the payload exists, passes the validator and survives the precision step, and is then the rounded payload; otherwise it is the baseline. |
| Indicadores.IndicadoresGetIsAlwaysValid | app/api/indicadores/route.ts:103-225 | GET always has success = true and data that pass the validator. The source is the backend iff the URL is set, the fetch succeeded, the body is not null, the payload is accepted and the precision step does not throw. Backend data is the rounded payload; otherwise the data is the baseline. |
| Indicadores.NullExtraKeyFallsBackToBaseline | app/api/indicadores/route.ts:157-166 | An accepted payload with an extra null-valued key still ends in the baseline, because the precision step throws on it. |
| Indicadores.ThrowingPrecisionStepGivesBaseline | app/api/indicadores/route.ts:157-166 | Any accepted payload on which the precision step throws is answered with the baseline. |
| Foda.ParseTipo | types/foda.ts:6 | Parsing a tipo succeeds exactly on the four quadrant names, and gives back the name. |
| Foda.ParseTipoName | types/foda.ts:6 | Every tipo's name is accepted and parses back to that tipo. |
| Foda.DecodeFodaItem | app/api/foda/route.ts:93-102 | Decoding an element succeeds exactly when the per-element test passes. |
| Foda.ValidFodaData | app/api/foda/route.ts:90-103 | An accepted payload is an array whose every element is an object. |
| Foda.DecodeFoda | app/api/foda/route.ts:90-103 | Decoding succeeds exactly when validateFodaData accepts, and keeps the length. |
| Foda.FodaItemRoundTrip | app/api/foda/route.ts:93-102 | Every encoded quadrant passes the element test and decodes back to itself. |
| Foda.FodaRoundTrip | app/api/foda/route.ts:90-103 | Every list of quadrants, the empty one included, encodes to an accepted payload that decodes back to it. |
| Foda.AcceptedItemShape | app/api/foda/route.ts:94-101 | An accepted element is an object with a tipo among the four names, string title/icon/color and an items array of strings. Its five fields are exactly those of the encoding of its decoded quadrant. |
| Foda.RejectsNonArrays | app/api/foda/route.ts:91 | Anything that is not an array is rejected. |
| Foda.ValidFodaDataConcat | app/api/foda/route.ts:93 | A concatenation is accepted iff both parts are. |
| Foda.ValidFodaDataSublist | app/api/foda/route.ts:93 | Any list whose elements all come from an accepted list is accepted, whatever their order or repetitions. |
| Foda.FallbackShape | app/api/foda/route.ts:24-77 | The fallback has four quadrants, one per tipo in the order fortalezas, oportunidades, debilidades, amenazas, with five items each. |
| Foda.FallbackIsValid | app/api/foda/route.ts:24-77 | The fallback passes the validator. |
| Foda.DuplicateTiposAccepted | app/api/foda/route.ts:96 | A payload repeating one tipo and lacking the others is accepted. |
| Foda.FodaGet | app/api/foda/route.ts:105-215 | GET always has success = true; the fallback answer is given exactly when the source is the fallback, always for an empty URL or a failed fetch; backend data is the body's payload with the body's version. |
| Foda.FodaGetIsAlwaysValid | app/api/foda/route.ts:105-215 | GET always has success = true and accepted data. The source is the backend iff the URL is set, the fetch succeeded, the body is not null and the payload is accepted. Backend data is passed through unchanged with the body's version; otherwise the data is the fallback with version 1.0.0. |
| Foda.FodaGetUnwrapsEnvelope | app/api/foda/route.ts:156-165 | A list wrapped in `{data: …}` is served unchanged from the backend, even when it is empty. |

## Left out

- calculateCAGR (`app/api/foda-analysis/route.ts:39-41`) needs a real n-th root. The five growth rates are parameters of the agents (`GrowthRates`). `TrueRates` characterises the true rates, and the trend lemmas are stated under it.
- Formulas.ExponentialProjection: Math.exp is a parameter `exp`. Its contract and the ordering results assume only `ExpLike`.
- The square root in standardDeviation is left out; only the variance is modelled. The investment `linearTrend` and the volatility `standardDeviation` are computed in the source but never used, so the agents do not compute them. The series `publicationsGrowth`, `industryInvestment`, `budgetConstraints` and `globalCompetition` are declared but never used.
- Indicadores.RoundToPrecision is exact over the reals. IEEE-754 representation error in `value * 10^6` is not modelled.
- Numbers are reals, not IEEE doubles. NaN appears only as a JSON value for the validator's `isNaN` test. The degenerate inputs that give NaN or Infinity in the source are excluded by preconditions:
  - weightedMovingAverage with a zero weight sum;
  - weightedMovingAverage with value and weight lists of different
    lengths. The source accepts them: shorter weights read `undefined` and
    give NaN, longer weights give a finite value whose denominator also
    counts the extra weights;
  - standardDeviation of an empty series, which divides 0 by 0;
  - linearTrend with fewer than two points;
  - a category score of an empty list;
  - a ratio with W + T = 0.

  The agents never produce any of these.
- Orchestrator.Score: requires a non-empty list. The source divides by the length and would give NaN for an empty list.
- The `formula` and `interpretation` strings, and other display text built with `toFixed`.
- `dataSources` in the report. The `timeframe` field of the POST body, which is read and never used.
- Timestamps, durations, `metrics`, response headers, HTTP status codes, and the `error` object of the fallback answers.
- The indicadores precision step copies extra payload keys into the response. The model's response holds only the four typed indicators.
- `fetch`, `fetchWithTimeout` and the timeout race, `Promise.all`, logging, environment parsing (`CACHE_TTL`, `REQUEST_TIMEOUT`, API key). A fetch is one `FetchOutcome`: it fails or it yields a parsed body.
- The React UI, the `foda-chat` stub and the static data-source configuration.
