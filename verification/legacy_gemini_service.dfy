/** The remote-assistant client of the older front-end
    (services/geminiService.ts). Same shape as the current one, but one
    list of extras instead of interests and tools, the position also passed
    as retrieval context, and a spoken apology as the fallback. */
module LegacyGeminiService {
  import opened Types
  import opened Text

  const MODEL := "gemini-2.5-flash"
  const SYSTEM_INSTRUCTION := "Eres G-milla, un copiloto experto que ayuda a conductores en España."

  const ANY_BRAND := "Cualquier marca de gasolinera."
  const PREFERRED_PREFIX := "Marcas preferidas: "
  const CAFES_EXTRA := "cafeterías y áreas de descanso"
  const TRAFFIC_EXTRA := "información de tráfico y restricciones (consulta DGT)"
  const WEATHER_EXTRA := "meteorología (consulta AEMET)"

  const PROMPT_HEAD :=
    "\n    Actúa como un copiloto inteligente llamado \"G-milla\".\n"
    + "    Mi ubicación actual es: Latitud "
  const PROMPT_TASKS :=
    ".\n    \n    Tareas:\n"
    + "    1. Busca las 2 gasolineras más cercanas y convenientes que estén EN MI RUTA probable (asume que sigo conduciendo en la dirección actual). "
  const PROMPT_RULES :=
    ".\n    3. Genera un resumen breve y útil para ser leído por voz (TTS) y datos estructurados para la pantalla.\n"
    + "    \n    Reglas:\n"
    + "    - NO menciones precios.\n"
    + "    - NO menciones puntuaciones de estrellas.\n"
    + "    - El resumen de voz debe ser directo: \"Tienes una Repsol a 2 kilómetros, el tráfico es fluido y hay probabilidad de lluvia según AEMET.\" (Ejemplo).\n"
    + "    - Si detectas incidencias graves de la DGT cerca, avisa primero.\n"
    + "    \n    Devuelve la respuesta estrictamente en JSON.\n  "

  const APOLOGY := "Lo siento, hubo un error conectando con los servicios de Google."
  const NO_SUMMARY := "--"

  /** What the service answers when the call fails or the reply text is empty. */
  const FALLBACK := CoPilotResponse(APOLOGY, NO_SUMMARY, NO_SUMMARY, [])

  /** The request handed to the model client; `latLng` is the retrieval
      context of the maps tool. */
  datatype Request = Request(
    model: string,
    prompt: string,
    systemInstruction: string,
    latitude: real,
    longitude: real)

  /** `brandsText`. */
  function BrandsText(brands: seq<string>): (r: string)
    ensures |brands| > 0 ==> r == PREFERRED_PREFIX + Join(brands, ", ") + "."
    ensures |brands| == 0 ==> r == ANY_BRAND
  {
    if |brands| > 0 then PREFERRED_PREFIX + Join(brands, ", ") + "." else ANY_BRAND
  }

  /** The preferred-brands text names every preferred brand. */
  lemma BrandsTextNamesEachBrand(brands: seq<string>, k: nat)
    requires k < |brands|
    ensures Contains(BrandsText(brands), brands[k])
  {
    JoinContainsEach(brands, ", ", k);
    ContainsAround(PREFERRED_PREFIX, Join(brands, ", "), ".", brands[k]);
  }

  /** Position of an entry in the order the service pushes extras. */
  function ExtraRank(entry: string): nat
  {
    if entry == CAFES_EXTRA then 0 else if entry == TRAFFIC_EXTRA then 1 else 2
  }

  /** `extras`: cafés, traffic, weather, each pushed only when its flag is set. */
  function Extras(settings: AppSettings): (r: seq<string>)
    ensures CAFES_EXTRA in r <==> settings.showCafes
    ensures TRAFFIC_EXTRA in r <==> settings.showTraffic
    ensures WEATHER_EXTRA in r <==> settings.showWeather
    ensures forall i :: 0 <= i < |r| ==> r[i] in {CAFES_EXTRA, TRAFFIC_EXTRA, WEATHER_EXTRA}
    ensures forall i, j :: 0 <= i < j < |r| ==> ExtraRank(r[i]) < ExtraRank(r[j])
  {
    var extras := [];
    var extras := if settings.showCafes then extras + [CAFES_EXTRA] else extras;
    var extras := if settings.showTraffic then extras + [TRAFFIC_EXTRA] else extras;
    var extras := if settings.showWeather then extras + [WEATHER_EXTRA] else extras;
    extras
  }

  /** The prompt from the task list on. */
  function TasksPart(settings: AppSettings): string
  {
    PROMPT_TASKS + BrandsText(settings.gasBrands)
    + (".\n    2. Busca también " + Join(Extras(settings), ", ") + PROMPT_RULES)
  }

  /** The prompt from the longitude on. */
  function LongitudePart(coords: Coordinates, settings: AppSettings, fmt: real -> string): string
  {
    ", Longitud " + fmt(coords.longitude) + TasksPart(settings)
  }

  /** The prompt text. `fmt` is JavaScript's number-to-text conversion used
      by the template string. */
  function Prompt(coords: Coordinates, settings: AppSettings, fmt: real -> string): (prompt: string)
    ensures Contains(prompt, fmt(coords.latitude))
    ensures Contains(prompt, fmt(coords.longitude))
    ensures Contains(prompt, BrandsText(settings.gasBrands))
  {
    var prompt := PROMPT_HEAD + fmt(coords.latitude) + LongitudePart(coords, settings, fmt);
    PromptEmbeds(coords, settings, fmt, prompt);
    prompt
  }

  lemma PromptEmbeds(coords: Coordinates, settings: AppSettings, fmt: real -> string, prompt: string)
    requires prompt == PROMPT_HEAD + fmt(coords.latitude) + LongitudePart(coords, settings, fmt)
    ensures Contains(prompt, fmt(coords.latitude))
    ensures Contains(prompt, fmt(coords.longitude))
    ensures Contains(prompt, BrandsText(settings.gasBrands))
  {
    var head := PROMPT_HEAD + fmt(coords.latitude);
    var lonPart := LongitudePart(coords, settings, fmt);
    var tasks := TasksPart(settings);
    var brands := BrandsText(settings.gasBrands);
    var rest := ".\n    2. Busca también " + Join(Extras(settings), ", ") + PROMPT_RULES;
    assert prompt + "" == prompt;
    assert ", Longitud " + fmt(coords.longitude) + tasks + "" == lonPart;
    ContainsMiddle(PROMPT_HEAD, fmt(coords.latitude), lonPart);
    ContainsMiddle(", Longitud ", fmt(coords.longitude), tasks);
    ContainsAround(head, lonPart, "", fmt(coords.longitude));
    ContainsMiddle(PROMPT_TASKS, brands, rest);
    ContainsAround(", Longitud " + fmt(coords.longitude), tasks, "", brands);
    ContainsAround(head, lonPart, "", brands);
  }

  /** Every preferred brand is named in the prompt. */
  lemma PromptNamesEachBrand(coords: Coordinates, settings: AppSettings, fmt: real -> string, k: nat)
    requires k < |settings.gasBrands|
    ensures Contains(Prompt(coords, settings, fmt), settings.gasBrands[k])
  {
    BrandsTextNamesEachBrand(settings.gasBrands, k);
    ContainsTransitive(Prompt(coords, settings, fmt), BrandsText(settings.gasBrands), settings.gasBrands[k]);
  }

  /** The request `fetchCoPilotInfo` sends: the position is both in the
      prompt and in the retrieval context. */
  function BuildRequest(coords: Coordinates, settings: AppSettings, fmt: real -> string): (req: Request)
    ensures req.model == MODEL && req.systemInstruction == SYSTEM_INSTRUCTION
    ensures req.latitude == coords.latitude && req.longitude == coords.longitude
    ensures Contains(req.prompt, fmt(coords.latitude)) && Contains(req.prompt, fmt(coords.longitude))
  {
    Request(MODEL, Prompt(coords, settings, fmt), SYSTEM_INSTRUCTION, coords.latitude, coords.longitude)
  }

  /** How the promise returned by `fetchCoPilotInfo` settles once the remote
      call has produced `reply`: it never rejects, and every failure becomes
      a spoken apology with no stations. */
  function FetchCoPilotInfo(reply: AiOutcome): (r: Settled<CoPilotResponse>)
    ensures r.Resolved?
    ensures reply.Success? ==> r.value == reply.response
    ensures !reply.Success? ==>
      && r.value.spokenText == APOLOGY && r.value.spokenText != ""
      && r.value.weatherSummary == NO_SUMMARY
      && r.value.trafficSummary == NO_SUMMARY
      && r.value.nearestStations == []
  {
    match reply
    case Success(response) => Resolved(response)
    case EmptyText => Resolved(FALLBACK)
    case Failure => Resolved(FALLBACK)
  }
}
