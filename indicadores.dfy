/**
 * The /api/indicadores route (app/api/indicadores/route.ts): the strict
 * validator of the backend's indicator payload, the idealised six-decimal
 * rounding, the baseline data and the choice between backend data and
 * baseline in GET.
 */
module Indicadores {
  import opened Wrappers
  import opened Json
  import opened Backend

  // ---------------------------------------------------------------------
  // Typed data (types/foda.ts)
  // ---------------------------------------------------------------------

  datatype Tendencia = Up | Down | Stable

  datatype Indicador = Indicador(
    id: string,
    nombre: string,
    valor: real,
    tendencia: Tendencia,
    ultimaActualizacion: string,
    descripcion: string,
    formula: string)

  datatype IndicadoresData = IndicadoresData(ICPS: Indicador, CCIA: Indicador, ITT: Indicador, MIS: Indicador)

  /** The keys the validator demands, in the order it checks them. */
  const REQUIRED_KEYS: seq<string> := ["ICPS", "CCIA", "ITT", "MIS"]

  /** The accepted values of `tendencia`. */
  const TENDENCIAS: seq<string> := ["up", "down", "stable"]

  function TendenciaName(t: Tendencia): string
  {
    match t
    case Up => "up"
    case Down => "down"
    case Stable => "stable"
  }

  function ParseTendencia(s: string): (t: Option<Tendencia>)
    ensures t.Some? <==> s in TENDENCIAS
    ensures t.Some? ==> TendenciaName(t.value) == s
  {
    if s == "up" then Some(Up)
    else if s == "down" then Some(Down)
    else if s == "stable" then Some(Stable)
    else None
  }

  // ---------------------------------------------------------------------
  // The validator
  // ---------------------------------------------------------------------

  /** `valor` is a number, not NaN, and 0 <= valor <= 1. */
  predicate ValidValor(v: Option<Json>)
  {
    && TypeOf(v) == Number
    && v != Some(JNaN)
    && 0.0 <= v.value.n
    && v.value.n <= 1.0
  }

  /** The test applied by `requiredKeys.every(...)` to `data[key]`. */
  predicate ValidIndicador(ind: Option<Json>)
  {
    && Truthy(ind)
    && IsString(GetOf(ind, "id"))
    && IsString(GetOf(ind, "nombre"))
    && ValidValor(GetOf(ind, "valor"))
    && IncludesString(TENDENCIAS, GetOf(ind, "tendencia"))
    && IsString(GetOf(ind, "ultimaActualizacion"))
    && IsString(GetOf(ind, "descripcion"))
    && IsString(GetOf(ind, "formula"))
  }

  /** validateIndicadoresData: an accepted payload is an object holding every required key. */
  predicate ValidIndicadoresData(data: Json)
    ensures ValidIndicadoresData(data) ==>
      forall i :: 0 <= i < |REQUIRED_KEYS| ==> Get(data, REQUIRED_KEYS[i]).Some?
  {
    && Truthy(Some(data))
    && TypeOf(Some(data)) == Object
    && forall i :: 0 <= i < |REQUIRED_KEYS| ==> ValidIndicador(Get(data, REQUIRED_KEYS[i]))
  }

  // ---------------------------------------------------------------------
  // Encoding and decoding: the validator's partner
  // ---------------------------------------------------------------------

  function EncodeIndicador(x: Indicador): Json
  {
    JObject(map[
      "id" := JString(x.id),
      "nombre" := JString(x.nombre),
      "valor" := JNumber(x.valor),
      "tendencia" := JString(TendenciaName(x.tendencia)),
      "ultimaActualizacion" := JString(x.ultimaActualizacion),
      "descripcion" := JString(x.descripcion),
      "formula" := JString(x.formula)])
  }

  function EncodeIndicadores(d: IndicadoresData): Json
  {
    JObject(map["ICPS" := EncodeIndicador(d.ICPS), "CCIA" := EncodeIndicador(d.CCIA),
                "ITT" := EncodeIndicador(d.ITT), "MIS" := EncodeIndicador(d.MIS)])
  }

  /** The typed indicator a value stands for, when the validator accepts it. */
  function DecodeIndicador(ind: Option<Json>): (r: Option<Indicador>)
    ensures r.Some? <==> ValidIndicador(ind)
    ensures r.Some? ==> 0.0 <= r.value.valor <= 1.0
  {
    if !ValidIndicador(ind) then None
    else
      var f := ind.value.fields;
      Some(Indicador(
        f["id"].s, f["nombre"].s, f["valor"].n, ParseTendencia(f["tendencia"].s).value,
        f["ultimaActualizacion"].s, f["descripcion"].s, f["formula"].s))
  }

  /** The typed data a payload stands for, when the validator accepts it. */
  function DecodeIndicadores(data: Json): (r: Option<IndicadoresData>)
    ensures r.Some? <==> ValidIndicadoresData(data)
    ensures r.Some? ==> ValorsInUnitInterval(r.value)
  {
    ValidIndicadoresDataByKey(data);
    var icps := DecodeIndicador(Get(data, "ICPS"));
    var ccia := DecodeIndicador(Get(data, "CCIA"));
    var itt := DecodeIndicador(Get(data, "ITT"));
    var mis := DecodeIndicador(Get(data, "MIS"));
    if Truthy(Some(data)) && TypeOf(Some(data)) == Object
       && icps.Some? && ccia.Some? && itt.Some? && mis.Some?
    then Some(IndicadoresData(icps.value, ccia.value, itt.value, mis.value))
    else None
  }

  /** The validator's `every` over REQUIRED_KEYS, written out key by key. */
  lemma ValidIndicadoresDataByKey(data: Json)
    ensures ValidIndicadoresData(data) <==>
      && Truthy(Some(data)) && TypeOf(Some(data)) == Object
      && ValidIndicador(Get(data, "ICPS")) && ValidIndicador(Get(data, "CCIA"))
      && ValidIndicador(Get(data, "ITT")) && ValidIndicador(Get(data, "MIS"))
  {
    assert REQUIRED_KEYS[0] == "ICPS" && REQUIRED_KEYS[1] == "CCIA";
    assert REQUIRED_KEYS[2] == "ITT" && REQUIRED_KEYS[3] == "MIS";
  }

  predicate ValorsInUnitInterval(d: IndicadoresData)
  {
    && 0.0 <= d.ICPS.valor <= 1.0 && 0.0 <= d.CCIA.valor <= 1.0
    && 0.0 <= d.ITT.valor <= 1.0 && 0.0 <= d.MIS.valor <= 1.0
  }

  /** An encoded indicator is accepted exactly when its valor lies in [0,1], and decodes back to itself. */
  lemma IndicadorRoundTrip(x: Indicador)
    ensures ValidIndicador(Some(EncodeIndicador(x))) <==> 0.0 <= x.valor <= 1.0
    ensures 0.0 <= x.valor <= 1.0 ==> DecodeIndicador(Some(EncodeIndicador(x))) == Some(x)
  {
    var j := EncodeIndicador(x);
    assert Get(j, "tendencia") == Some(JString(TendenciaName(x.tendencia)));
    assert TendenciaName(x.tendencia) in TENDENCIAS;
    assert ParseTendencia(TendenciaName(x.tendencia)) == Some(x.tendencia) by {
      match x.tendencia
      case Up =>
      case Down =>
      case Stable =>
    }
  }

  /**
   * Encoding then decoding the four indicators gives them back, and the
   * validator accepts the encoding exactly when every valor is in [0,1].
   */
  lemma IndicadoresRoundTrip(d: IndicadoresData)
    ensures ValidIndicadoresData(EncodeIndicadores(d)) <==> ValorsInUnitInterval(d)
    ensures ValorsInUnitInterval(d) ==> DecodeIndicadores(EncodeIndicadores(d)) == Some(d)
  {
    EncodedIndicadoresAccepted(d);
    if ValorsInUnitInterval(d) {
      EncodedIndicadoresDecode(d);
    }
  }

  /** The encoding of the four indicators holds each one's encoding under its key. */
  lemma EncodedIndicadoresByKey(d: IndicadoresData)
    ensures var j := EncodeIndicadores(d);
      && Get(j, "ICPS") == Some(EncodeIndicador(d.ICPS))
      && Get(j, "CCIA") == Some(EncodeIndicador(d.CCIA))
      && Get(j, "ITT") == Some(EncodeIndicador(d.ITT))
      && Get(j, "MIS") == Some(EncodeIndicador(d.MIS))
  {
  }

  lemma EncodedIndicadoresAccepted(d: IndicadoresData)
    ensures ValidIndicadoresData(EncodeIndicadores(d)) <==> ValorsInUnitInterval(d)
  {
    IndicadorRoundTrip(d.ICPS);
    IndicadorRoundTrip(d.CCIA);
    IndicadorRoundTrip(d.ITT);
    IndicadorRoundTrip(d.MIS);
    EncodedIndicadoresByKey(d);
    ValidIndicadoresDataByKey(EncodeIndicadores(d));
  }

  lemma EncodedIndicadoresDecode(d: IndicadoresData)
    requires ValorsInUnitInterval(d)
    ensures DecodeIndicadores(EncodeIndicadores(d)) == Some(d)
  {
    var j := EncodeIndicadores(d);
    IndicadorRoundTrip(d.ICPS);
    IndicadorRoundTrip(d.CCIA);
    IndicadorRoundTrip(d.ITT);
    IndicadorRoundTrip(d.MIS);
    EncodedIndicadoresByKey(d);
    assert DecodeIndicador(Get(j, "ICPS")) == Some(d.ICPS);
    assert DecodeIndicador(Get(j, "CCIA")) == Some(d.CCIA);
    assert DecodeIndicador(Get(j, "ITT")) == Some(d.ITT);
    assert DecodeIndicador(Get(j, "MIS")) == Some(d.MIS);
    EncodedIndicadoresAccepted(d);
  }

  /**
   * What an accepted indicator looks like: an object whose seven fields are
   * exactly those of the encoding of its decoded value (other fields may
   * be present), with string fields, a valor in [0,1] and a tendencia among
   * up/down/stable.
   */
  lemma AcceptedIndicadorShape(ind: Option<Json>)
    requires ValidIndicador(ind)
    ensures ind.Some? && ind.value.JObject?
    ensures forall key :: key in EncodeIndicador(DecodeIndicador(ind).value).fields ==>
              key in ind.value.fields && ind.value.fields[key] == EncodeIndicador(DecodeIndicador(ind).value).fields[key]
  {
    var f := ind.value.fields;
    var x := DecodeIndicador(ind).value;
    assert TendenciaName(ParseTendencia(f["tendencia"].s).value) == f["tendencia"].s;
  }

  /** A null, a falsy value or a non-object is rejected. */
  lemma RejectsNonObjects(data: Json)
    requires !data.JObject?
    ensures !ValidIndicadoresData(data)
  {
    ValidIndicadoresDataByKey(data);
  }

  /** Keys other than ICPS, CCIA, ITT and MIS never change the verdict. */
  lemma ExtraKeysDoNotMatter(fields: map<string, Json>, key: string, v: Json)
    requires key !in REQUIRED_KEYS
    ensures ValidIndicadoresData(JObject(fields[key := v])) == ValidIndicadoresData(JObject(fields))
  {
    forall i | 0 <= i < |REQUIRED_KEYS|
      ensures Get(JObject(fields[key := v]), REQUIRED_KEYS[i]) == Get(JObject(fields), REQUIRED_KEYS[i])
    {
    }
  }

  /** Each of the four indicators must be present: dropping any one rejects the payload. */
  lemma EveryRequiredKeyIsNeeded(fields: map<string, Json>, i: nat)
    requires i < |REQUIRED_KEYS|
    ensures !ValidIndicadoresData(JObject(fields - {REQUIRED_KEYS[i]}))
  {
    assert Get(JObject(fields - {REQUIRED_KEYS[i]}), REQUIRED_KEYS[i]).None?;
  }

  // ---------------------------------------------------------------------
  // roundToPrecision and the baseline
  // ---------------------------------------------------------------------

  /** 10^PRECISION with PRECISION = 6. */
  const MULTIPLIER: real := 1000000.0

  /**
   * roundToPrecision(value): Math.round(value * 10^6) / 10^6, where
   * Math.round(y) is floor(y + 0.5). Idealised over the reals, rounding
   * moves a value by at most half a unit of the sixth decimal and keeps
   * [0,1].
   */
  function RoundToPrecision(v: real): (r: real)
    ensures v - 0.0000005 < r <= v + 0.0000005
    ensures 0.0 <= v <= 1.0 ==> 0.0 <= r <= 1.0
  {
    var y := v * MULTIPLIER + 0.5;
    var k := y.Floor;
    assert k as real <= y < k as real + 1.0;
    assert 0.0 <= v <= 1.0 ==> 0 <= k <= 1000000;
    k as real / MULTIPLIER
  }

  /** A value with at most six decimals is unchanged by rounding. */
  lemma RoundToPrecisionOfSixDecimals(k: int)
    ensures RoundToPrecision(k as real / MULTIPLIER) == k as real / MULTIPLIER
  {
    var y := (k as real / MULTIPLIER) * MULTIPLIER + 0.5;
    assert y == k as real + 0.5;
    assert y.Floor == k;
  }

  function RoundIndicador(x: Indicador): Indicador
  {
    x.(valor := RoundToPrecision(x.valor))
  }

  function RoundIndicadores(d: IndicadoresData): IndicadoresData
  {
    IndicadoresData(RoundIndicador(d.ICPS), RoundIndicador(d.CCIA), RoundIndicador(d.ITT), RoundIndicador(d.MIS))
  }

  /**
   * BASELINE_INDICADORES. Its `ultimaActualizacion` is the time the module
   * was loaded, which the model takes as `loadedAt`.
   */
  const ICPS_NOMBRE: string := "Índice de Citación Ponderada por Sector"
  const ICPS_DESCRIPCION: string := "Mide el impacto de publicaciones en IA automotriz del sector SLP"
  const ICPS_FORMULA: string := "ICPS = (Σ Cᵢ × Pᵢ × Aᵢ) / N"
  const CCIA_NOMBRE: string := "Coeficiente de Colaboración Industria-Academia"
  const CCIA_DESCRIPCION: string := "Evalúa la integración entre universidad y empresa en SLP"
  const CCIA_FORMULA: string := "CCIA = Pcolab / (Pacad + Pind)"
  const ITT_NOMBRE: string := "Índice de Transferencia Tecnológica"
  const ITT_DESCRIPCION: string := "Conversión de investigación en aplicaciones industriales"
  const ITT_FORMULA: string := "ITT = (Pat + Spin + Lic) / Pinv"
  const MIS_NOMBRE: string := "Métrica de Impacto Socioeconómico"
  const MIS_DESCRIPCION: string := "Efecto en empleo y productividad del sector automotriz regional"
  const MIS_FORMULA: string := "MIS = α·ΔEmp + β·ΔProd + γ·ΔBien"

  function BaselineIndicadores(loadedAt: string): IndicadoresData
  {
    IndicadoresData(
      Indicador("ICPS", ICPS_NOMBRE, RoundToPrecision(0.427), Up, loadedAt,
                ICPS_DESCRIPCION,
                ICPS_FORMULA),
      Indicador("CCIA", CCIA_NOMBRE, RoundToPrecision(0.312), Stable, loadedAt,
                CCIA_DESCRIPCION,
                CCIA_FORMULA),
      Indicador("ITT", ITT_NOMBRE, RoundToPrecision(0.218), Up, loadedAt,
                ITT_DESCRIPCION,
                ITT_FORMULA),
      Indicador("MIS", MIS_NOMBRE, RoundToPrecision(0.564), Up, loadedAt,
                MIS_DESCRIPCION,
                MIS_FORMULA))
  }

  /** The baseline holds 0.427/0.312/0.218/0.564 with tendencias up/stable/up/up, and passes the validator. */
  lemma BaselineIsValid(loadedAt: string)
    ensures var b := BaselineIndicadores(loadedAt);
      && b.ICPS.valor == 0.427 && b.CCIA.valor == 0.312 && b.ITT.valor == 0.218 && b.MIS.valor == 0.564
      && b.ICPS.tendencia == Up && b.CCIA.tendencia == Stable && b.ITT.tendencia == Up && b.MIS.tendencia == Up
      && ValidIndicadoresData(EncodeIndicadores(b))
  {
    RoundToPrecisionOfSixDecimals(427000);
    RoundToPrecisionOfSixDecimals(312000);
    RoundToPrecisionOfSixDecimals(218000);
    RoundToPrecisionOfSixDecimals(564000);
    IndicadoresRoundTrip(BaselineIndicadores(loadedAt));
  }

  // ---------------------------------------------------------------------
  // GET
  // ---------------------------------------------------------------------

  datatype DataSource = FromBackend | FromBaseline

  /** The JSON envelope GET answers with (timestamps, metrics and headers left out). */
  datatype IndicadoresResponse = IndicadoresResponse(
    success: bool,
    data: IndicadoresData,
    version: Json,
    source: DataSource)

  /**
   * The precision step maps every entry of the accepted payload, the four
   * indicators and any other key, through `{...ind, valor: round(ind.valor)}`;
   * reading `.valor` of an entry that is null throws.
   */
  predicate PrecisionStepThrows(payload: Json)
  {
    payload.JObject? && JNull in payload.fields.Values
  }

  function BaselineResponse(loadedAt: string): IndicadoresResponse
  {
    IndicadoresResponse(true, BaselineIndicadores(loadedAt), JString(DEFAULT_VERSION), FromBaseline)
  }

  /**
   * The answer to a body the backend sent: its payload, validated and
   * rounded, or the baseline when the body is null, the payload is rejected
   * or the precision step throws.
   */
  function AnswerFromBody(body: Json, loadedAt: string): (r: IndicadoresResponse)
    ensures r.success
    ensures r.source == FromBackend ==> r.version == Version(body)
  {
    match Payload(body)
    case None => BaselineResponse(loadedAt)
    case Some(payload) =>
      match DecodeIndicadores(payload)
      case None => BaselineResponse(loadedAt)
      case Some(d) =>
        if PrecisionStepThrows(payload) then BaselineResponse(loadedAt)
        else IndicadoresResponse(true, RoundIndicadores(d), Version(body), FromBackend)
  }

  /**
   * GET: the backend's data, validated and rounded, or the baseline when the
   * URL is empty, the request failed, the body is null, the payload is
   * rejected or the precision step throws.
   */
  function IndicadoresGet(backendUrl: string, outcome: FetchOutcome, loadedAt: string): (r: IndicadoresResponse)
    ensures r.success
    ensures backendUrl == "" || outcome.Failed? ==> r.source == FromBaseline
    ensures r.source == FromBackend ==> outcome.Received? && r.version == Version(outcome.body)
  {
    if backendUrl == "" then BaselineResponse(loadedAt)
    else match outcome
      case Failed => BaselineResponse(loadedAt)
      case Received(body) => AnswerFromBody(body, loadedAt)
  }

  /**
   * The answer to a body always holds data the validator accepts; it is the
   * backend's exactly when the payload exists, is accepted and survives the
   * precision step.
   */
  lemma AnswerFromBodyIsValid(body: Json, loadedAt: string)
    ensures var r := AnswerFromBody(body, loadedAt);
      && ValidIndicadoresData(EncodeIndicadores(r.data))
      && (r.source == FromBackend <==>
            && Payload(body).Some?
            && ValidIndicadoresData(Payload(body).value)
            && !PrecisionStepThrows(Payload(body).value))
      && (r.source == FromBaseline ==> r.data == BaselineIndicadores(loadedAt))
      && (r.source == FromBackend ==>
            r.data == RoundIndicadores(DecodeIndicadores(Payload(body).value).value))
  {
    AnswerFromBodySource(body, loadedAt);
    var r := AnswerFromBody(body, loadedAt);
    if r.source == FromBaseline {
      BaselineIsValid(loadedAt);
    } else {
      var rounded := RoundIndicadores(DecodeIndicadores(Payload(body).value).value);
      assert ValorsInUnitInterval(rounded);
      IndicadoresRoundTrip(rounded);
    }
  }

  /** Which answer a body gets, and what data each kind of answer carries. */
  lemma AnswerFromBodySource(body: Json, loadedAt: string)
    ensures var r := AnswerFromBody(body, loadedAt);
      && (r.source == FromBackend <==>
            && Payload(body).Some?
            && ValidIndicadoresData(Payload(body).value)
            && !PrecisionStepThrows(Payload(body).value))
      && (r.source == FromBaseline ==> r.data == BaselineIndicadores(loadedAt))
      && (r.source == FromBackend ==>
            r.data == RoundIndicadores(DecodeIndicadores(Payload(body).value).value))
  {
  }

  /**
   * GET always succeeds and always answers with data the validator accepts;
   * backend data is used exactly when everything on its way went right, and
   * otherwise the data is the baseline.
   */
  lemma IndicadoresGetIsAlwaysValid(backendUrl: string, outcome: FetchOutcome, loadedAt: string)
    ensures var r := IndicadoresGet(backendUrl, outcome, loadedAt);
      && r.success
      && ValidIndicadoresData(EncodeIndicadores(r.data))
      && (r.source == FromBackend <==>
            && backendUrl != ""
            && outcome.Received?
            && Payload(outcome.body).Some?
            && ValidIndicadoresData(Payload(outcome.body).value)
            && !PrecisionStepThrows(Payload(outcome.body).value))
      && (r.source == FromBaseline ==> r.data == BaselineIndicadores(loadedAt))
      && (r.source == FromBackend ==>
            r.data == RoundIndicadores(DecodeIndicadores(Payload(outcome.body).value).value))
  {
    if backendUrl == "" || outcome.Failed? {
      BaselineIsValid(loadedAt);
    } else {
      AnswerFromBodyIsValid(outcome.body, loadedAt);
    }
  }

  /**
   * An accepted payload with a null-valued extra key still ends in the
   * baseline: the validator ignores the key, but the precision step reads
   * `.valor` of null and throws.
   */
  lemma NullExtraKeyFallsBackToBaseline(d: IndicadoresData, key: string, loadedAt: string)
    requires ValorsInUnitInterval(d)
    requires key !in REQUIRED_KEYS
    ensures var body := EncodeIndicadores(d).fields[key := JNull];
      && ValidIndicadoresData(JObject(body))
      && IndicadoresGet(DEFAULT_BACKEND_URL, Received(JObject(body)), loadedAt) == BaselineResponse(loadedAt)
  {
    var fields := EncodeIndicadores(d).fields;
    var body := JObject(fields[key := JNull]);
    assert ValidIndicadoresData(body) by {
      IndicadoresRoundTrip(d);
      ExtraKeysDoNotMatter(fields, key, JNull);
    }
    assert PrecisionStepThrows(body) by {
      assert body.fields[key] == JNull;
    }
    assert Payload(body) == Some(body) by {
      assert Get(body, "data") == (if key == "data" then Some(JNull) else None);
    }
    ThrowingPrecisionStepGivesBaseline(DEFAULT_BACKEND_URL, body, body, loadedAt);
  }

  /** An accepted payload on which the precision step throws is answered with the baseline. */
  lemma ThrowingPrecisionStepGivesBaseline(backendUrl: string, body: Json, payload: Json, loadedAt: string)
    requires backendUrl != ""
    requires Payload(body) == Some(payload)
    requires ValidIndicadoresData(payload) && PrecisionStepThrows(payload)
    ensures IndicadoresGet(backendUrl, Received(body), loadedAt) == BaselineResponse(loadedAt)
  {
    assert DecodeIndicadores(payload).Some?;
  }
}
