/**
 * The /api/foda route (app/api/foda/route.ts): the validator of the
 * backend's SWOT (FODA) quadrants, the static fallback and the choice
 * between the two in GET.
 */
module Foda {
  import opened Wrappers
  import opened Json
  import opened Backend

  // ---------------------------------------------------------------------
  // Typed data (types/foda.ts)
  // ---------------------------------------------------------------------

  datatype FodaTipo = Fortalezas | Oportunidades | Debilidades | Amenazas

  datatype FodaItem = FodaItem(tipo: FodaTipo, title: string, icon: string, color: string, items: seq<string>)

  /** The accepted values of `tipo`. */
  const TIPOS: seq<string> := ["fortalezas", "oportunidades", "debilidades", "amenazas"]

  function TipoName(t: FodaTipo): string
  {
    match t
    case Fortalezas => "fortalezas"
    case Oportunidades => "oportunidades"
    case Debilidades => "debilidades"
    case Amenazas => "amenazas"
  }

  function ParseTipo(s: string): (t: Option<FodaTipo>)
    ensures t.Some? <==> s in TIPOS
    ensures t.Some? ==> TipoName(t.value) == s
  {
    if s == "fortalezas" then Some(Fortalezas)
    else if s == "oportunidades" then Some(Oportunidades)
    else if s == "debilidades" then Some(Debilidades)
    else if s == "amenazas" then Some(Amenazas)
    else None
  }

  lemma ParseTipoName(t: FodaTipo)
    ensures TipoName(t) in TIPOS && ParseTipo(TipoName(t)) == Some(t)
  {
    match t
    case Fortalezas =>
    case Oportunidades =>
    case Debilidades =>
    case Amenazas =>
  }

  // ---------------------------------------------------------------------
  // The validator
  // ---------------------------------------------------------------------

  /** `list.every((i) => typeof i === 'string')` */
  predicate AllStrings(list: seq<Json>)
  {
    forall i :: 0 <= i < |list| ==> list[i].JString?
  }

  /** The test `validateFodaData` applies to each element. */
  predicate ValidFodaItem(item: Json)
  {
    && Truthy(Some(item))
    && TypeOf(Some(item)) == Object
    && IncludesString(TIPOS, Get(item, "tipo"))
    && IsString(Get(item, "title"))
    && IsString(Get(item, "icon"))
    && IsString(Get(item, "color"))
    && IsArray(Get(item, "items"))
    && AllStrings(Get(item, "items").value.elems)
  }

  /** validateFodaData: an array whose every element passes the item test, so is an object. */
  predicate ValidFodaData(data: Json)
    ensures ValidFodaData(data) ==> data.JArray? && forall i :: 0 <= i < |data.elems| ==> data.elems[i].JObject?
  {
    data.JArray? && forall i :: 0 <= i < |data.elems| ==> ValidFodaItem(data.elems[i])
  }

  // ---------------------------------------------------------------------
  // Encoding and decoding: the validator's partner
  // ---------------------------------------------------------------------

  function EncodeStrings(list: seq<string>): Json
  {
    JArray(seq(|list|, i requires 0 <= i < |list| => JString(list[i])))
  }

  function EncodeFodaItem(x: FodaItem): Json
  {
    JObject(map[
      "tipo" := JString(TipoName(x.tipo)),
      "title" := JString(x.title),
      "icon" := JString(x.icon),
      "color" := JString(x.color),
      "items" := EncodeStrings(x.items)])
  }

  function EncodeFoda(quadrants: seq<FodaItem>): Json
  {
    JArray(seq(|quadrants|, i requires 0 <= i < |quadrants| => EncodeFodaItem(quadrants[i])))
  }

  function DecodeFodaItem(item: Json): (r: Option<FodaItem>)
    ensures r.Some? <==> ValidFodaItem(item)
  {
    if !ValidFodaItem(item) then None
    else
      var f := item.fields;
      var list := f["items"].elems;
      Some(FodaItem(ParseTipo(f["tipo"].s).value, f["title"].s, f["icon"].s, f["color"].s,
                    seq(|list|, i requires 0 <= i < |list| && list[i].JString? => list[i].s)))
  }

  /** The typed quadrants an accepted payload stands for. */
  function DecodeFoda(data: Json): (r: Option<seq<FodaItem>>)
    ensures r.Some? <==> ValidFodaData(data)
    ensures r.Some? ==> |r.value| == |data.elems|
  {
    if !ValidFodaData(data) then None
    else
      var elems := data.elems;
      Some(seq(|elems|, i requires 0 <= i < |elems| && ValidFodaItem(elems[i]) => DecodeFodaItem(elems[i]).value))
  }

  /** An encoded quadrant always passes the item test and decodes back to itself. */
  lemma FodaItemRoundTrip(x: FodaItem)
    ensures ValidFodaItem(EncodeFodaItem(x))
    ensures DecodeFodaItem(EncodeFodaItem(x)) == Some(x)
  {
    var j := EncodeFodaItem(x);
    ParseTipoName(x.tipo);
    assert Get(j, "tipo") == Some(JString(TipoName(x.tipo)));
    assert Get(j, "items") == Some(EncodeStrings(x.items));
    var d := DecodeFodaItem(j).value;
    assert d.items == x.items;
  }

  /** Any list of typed quadrants, the empty one included, encodes to an accepted payload that decodes back to it. */
  lemma FodaRoundTrip(quadrants: seq<FodaItem>)
    ensures ValidFodaData(EncodeFoda(quadrants))
    ensures DecodeFoda(EncodeFoda(quadrants)) == Some(quadrants)
  {
    var j := EncodeFoda(quadrants);
    forall i | 0 <= i < |quadrants|
      ensures ValidFodaItem(j.elems[i]) && DecodeFodaItem(j.elems[i]) == Some(quadrants[i])
    {
      FodaItemRoundTrip(quadrants[i]);
    }
    var d := DecodeFoda(j).value;
    assert |d| == |quadrants|;
    assert forall i :: 0 <= i < |d| ==> d[i] == DecodeFodaItem(j.elems[i]).value == quadrants[i];
    assert d == quadrants;
  }

  /**
   * What an accepted element looks like: an object whose five fields are
   * those of the encoding of its decoded quadrant (other fields may be
   * present).
   */
  lemma AcceptedItemShape(item: Json)
    requires ValidFodaItem(item)
    ensures item.JObject?
    ensures forall key :: key in EncodeFodaItem(DecodeFodaItem(item).value).fields ==>
              key in item.fields && item.fields[key] == EncodeFodaItem(DecodeFodaItem(item).value).fields[key]
  {
    var f := item.fields;
    var x := DecodeFodaItem(item).value;
    assert TipoName(ParseTipo(f["tipo"].s).value) == f["tipo"].s;
    assert EncodeStrings(x.items) == f["items"];
  }

  /** Anything that is not an array (null, an object, a string, a number) is rejected. */
  lemma RejectsNonArrays(data: Json)
    requires !data.JArray?
    ensures !ValidFodaData(data)
  {
  }

  /** The item test is applied element by element, so acceptance splits over concatenation. */
  lemma ValidFodaDataConcat(a: seq<Json>, b: seq<Json>)
    ensures ValidFodaData(JArray(a + b)) <==> ValidFodaData(JArray(a)) && ValidFodaData(JArray(b))
  {
    if ValidFodaData(JArray(a + b)) {
      forall i | 0 <= i < |a| ensures ValidFodaItem(a[i]) {
        assert (a + b)[i] == a[i];
      }
      forall i | 0 <= i < |b| ensures ValidFodaItem(b[i]) {
        assert (a + b)[|a| + i] == b[i];
      }
    }
  }

  /** Any list made of accepted elements, in any order and with repetitions, is accepted. */
  lemma ValidFodaDataSublist(a: seq<Json>, b: seq<Json>)
    requires ValidFodaData(JArray(a))
    requires forall j :: 0 <= j < |b| ==> b[j] in a
    ensures ValidFodaData(JArray(b))
  {
  }

  // ---------------------------------------------------------------------
  // The fallback
  // ---------------------------------------------------------------------

  /** FALLBACK_FODA */
  const FALLBACK_FODA: seq<FodaItem> := [
    FodaItem(Fortalezas, "Fortalezas", "💪", "#10b981", [
      "Clúster automotriz consolidado (BMW, GM, Continental)",
      "UASLP y tecnológicos con programas especializados",
      "Ubicación estratégica en corredor industrial",
      "Infraestructura de Manufactura 4.0 establecida",
      "Ecosistema de proveedores Tier 1 y Tier 2"]),
    FodaItem(Oportunidades, "Oportunidades", "🚀", "#f59e0b", [
      "Transformación digital acelerada post-pandemia",
      "Nearshoring tecnológico desde Asia",
      "Vehículos autónomos y electromovilidad",
      "Incentivos gubernamentales para I+D+i",
      "Demanda creciente de talento en IA"]),
    FodaItem(Debilidades, "Debilidades", "⚠️", "#ef4444", [
      "Escasez de talento especializado en IA",
      "Baja inversión privada en I+D comparada con líderes",
      "Infraestructura digital limitada en zonas industriales",
      "Vinculación universidad-empresa insuficiente",
      "Falta de laboratorios de IA avanzada"]),
    FodaItem(Amenazas, "Amenazas", "⚡", "#8b5cf6", [
      "Competencia global de hubs tecnológicos (Silicon Valley, Shenzhen)",
      "Obsolescencia tecnológica rápida",
      "Dependencia de tecnología extranjera",
      "Fuga de cerebros hacia EE.UU. y Europa",
      "Incertidumbre regulatoria en IA"])
  ]

  /**
   * The fallback has the four quadrants, one per tipo in the order
   * fortalezas, oportunidades, debilidades, amenazas, five entries each.
   */
  lemma FallbackShape()
    ensures |FALLBACK_FODA| == 4
    ensures forall i :: 0 <= i < 4 ==> TipoName(FALLBACK_FODA[i].tipo) == TIPOS[i] && |FALLBACK_FODA[i].items| == 5
  {
  }

  /** The fallback passes the validator. */
  lemma FallbackIsValid()
    ensures ValidFodaData(EncodeFoda(FALLBACK_FODA))
  {
    FodaRoundTrip(FALLBACK_FODA);
  }

  /**
   * The validator does not ask for the four quadrants: a payload holding one
   * quadrant twice and none of the others is accepted.
   */
  lemma DuplicateTiposAccepted()
    ensures var dup := EncodeFoda([FALLBACK_FODA[0], FALLBACK_FODA[0]]);
      && ValidFodaData(dup)
      && forall i :: 0 <= i < |dup.elems| ==> Get(dup.elems[i], "tipo") == Some(JString("fortalezas"))
  {
    FodaRoundTrip([FALLBACK_FODA[0], FALLBACK_FODA[0]]);
  }

  // ---------------------------------------------------------------------
  // GET
  // ---------------------------------------------------------------------

  datatype DataSource = FromBackend | FromFallback

  /** The JSON envelope GET answers with (timestamps, metrics, error details and headers left out). */
  datatype FodaResponse = FodaResponse(success: bool, data: Json, version: Json, source: DataSource)

  function FallbackResponse(): FodaResponse
  {
    FodaResponse(true, EncodeFoda(FALLBACK_FODA), JString(DEFAULT_VERSION), FromFallback)
  }

  /**
   * GET: the backend's payload, unchanged, when it passes the validator;
   * otherwise (empty URL, failed request, null body, rejected payload) the
   * fallback.
   */
  function FodaGet(backendUrl: string, outcome: FetchOutcome): (r: FodaResponse)
    ensures r.success
    ensures r.source == FromFallback <==> r == FallbackResponse()
    ensures backendUrl == "" || outcome.Failed? ==> r == FallbackResponse()
    ensures r.source == FromBackend ==>
      outcome.Received? && Payload(outcome.body) == Some(r.data) && r.version == Version(outcome.body)
  {
    if backendUrl == "" then FallbackResponse()
    else match outcome
      case Failed => FallbackResponse()
      case Received(body) =>
        match Payload(body)
        case None => FallbackResponse()
        case Some(payload) =>
          if ValidFodaData(payload) then FodaResponse(true, payload, Version(body), FromBackend)
          else FallbackResponse()
  }

  /**
   * GET always succeeds and always answers with data the validator accepts;
   * the backend's payload is passed through unchanged exactly when it is
   * accepted, and otherwise the data is the fallback.
   */
  lemma FodaGetIsAlwaysValid(backendUrl: string, outcome: FetchOutcome)
    ensures var r := FodaGet(backendUrl, outcome);
      && r.success
      && ValidFodaData(r.data)
      && (r.source == FromBackend <==>
            && backendUrl != ""
            && outcome.Received?
            && Payload(outcome.body).Some?
            && ValidFodaData(Payload(outcome.body).value))
      && (r.source == FromBackend ==> r.data == Payload(outcome.body).value && r.version == Version(outcome.body))
      && (r.source == FromFallback ==> r.data == EncodeFoda(FALLBACK_FODA) && r.version == JString(DEFAULT_VERSION))
  {
    FallbackIsValid();
  }

  /**
   * A backend that wraps an accepted list in `{ "data": ... }` is served that
   * list; an array is truthy even when empty, so this holds for `[]` too.
   */
  lemma FodaGetUnwrapsEnvelope(backendUrl: string, quadrants: seq<FodaItem>)
    requires backendUrl != ""
    ensures FodaGet(backendUrl, Received(Envelope(EncodeFoda(quadrants)))).data == EncodeFoda(quadrants)
    ensures FodaGet(backendUrl, Received(Envelope(EncodeFoda(quadrants)))).source == FromBackend
  {
    FodaRoundTrip(quadrants);
    PayloadUnwrapsEnvelope(EncodeFoda(quadrants));
  }
}
