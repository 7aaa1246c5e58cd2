/** The remote-assistant client of the current front-end
    (src/services/geminiService.ts): it turns the position and the settings
    into a prompt, sends it, and turns whatever comes back into a
    `CoPilotResponse`, substituting a silent fallback for every failure. */
module GeminiService {
  import opened Types
  import opened Text

  const MODEL := "gemini-2.0-flash-exp"
  const SYSTEM_INSTRUCTION := "Eres G-milla, un copiloto IA que ayuda a conductores. Prioriza la seguridad y la brevedad."

  const ANY_BRAND := "Marcas aceptadas: Cualquiera."
  const STRICT_FILTER_PREFIX := "FILTRO ESTRICTO: Solo busca gasolineras de las marcas: "
  const CAFES_INTEREST := "cafeterías de carretera y áreas de descanso"
  const TRAFFIC_TOOL := "Consulta el estado del tráfico (DGT) en la vía actual."
  const WEATHER_TOOL := "Consulta alertas meteorológicas (AEMET) en la zona."

  const PROMPT_HEAD := "\n    UBICACIÓN ACTUAL: Latitud "
  const PROMPT_TASK :=
    "\n\n    TAREA:\n"
    + "    1. Usa Google Maps para encontrar las 2 mejores opciones (Gasolineras o Cafés) que estén EN RUTA (hacia adelante).\n"
    + "    2. Si hay incidencias graves de tráfico o clima, repórtalas primero.\n"
    + "    3. Genera un JSON estricto con la respuesta.\n"
    + "    \n"
    + "    IMPORTANTE:\n"
    + "    - Si no hay nada relevante o peligroso, devuelve texto vacío en \"spoken_text\".\n"
    + "    - NO inventes datos. Usa el Grounding de Google Maps.\n  "

  const NOT_AVAILABLE := "No disponible"

  /** What the service answers when the call fails or the reply text is empty. */
  const FALLBACK := CoPilotResponse("", NOT_AVAILABLE, NOT_AVAILABLE, [])

  /** The request handed to the model client. */
  datatype Request = Request(model: string, prompt: string, systemInstruction: string)

  /** `brandsFilter`: a strict filter naming the preferred brands, or "any brand". */
  function BrandsFilter(brands: seq<string>): (r: string)
    ensures |brands| > 0 ==> r == STRICT_FILTER_PREFIX + Join(brands, ", ") + "."
    ensures |brands| == 0 ==> r == ANY_BRAND
  {
    if |brands| > 0 then STRICT_FILTER_PREFIX + Join(brands, ", ") + "." else ANY_BRAND
  }

  /** The strict filter names every preferred brand. */
  lemma BrandsFilterNamesEachBrand(brands: seq<string>, k: nat)
    requires k < |brands|
    ensures Contains(BrandsFilter(brands), brands[k])
  {
    JoinContainsEach(brands, ", ", k);
    ContainsAround(STRICT_FILTER_PREFIX, Join(brands, ", "), ".", brands[k]);
  }

  /** `interests`: built by one conditional push. */
  function Interests(settings: AppSettings): (r: seq<string>)
    ensures CAFES_INTEREST in r <==> settings.showCafes
    ensures |r| <= 1
  {
    var interests := [];
    var interests := if settings.showCafes then interests + [CAFES_INTEREST] else interests;
    interests
  }

  /** Position of a tool line in the order the service pushes them. */
  function ToolRank(line: string): nat
  {
    if line == TRAFFIC_TOOL then 0 else 1
  }

  /** `promptTools`: the traffic line, then the weather line, each only when
      its flag is set. */
  function PromptTools(settings: AppSettings): (r: seq<string>)
    ensures TRAFFIC_TOOL in r <==> settings.showTraffic
    ensures WEATHER_TOOL in r <==> settings.showWeather
    ensures forall i :: 0 <= i < |r| ==> r[i] == TRAFFIC_TOOL || r[i] == WEATHER_TOOL
    ensures forall i, j :: 0 <= i < j < |r| ==> ToolRank(r[i]) < ToolRank(r[j])
  {
    var tools := [];
    var tools := if settings.showTraffic then tools + [TRAFFIC_TOOL] else tools;
    var tools := if settings.showWeather then tools + [WEATHER_TOOL] else tools;
    tools
  }

  /** The prompt from the preference list on. */
  function PreferencesPart(settings: AppSettings): string
  {
    ".\n    PREFERENCIAS:\n    - " + BrandsFilter(settings.gasBrands)
    + ("\n    - Buscar también: " + Join(Interests(settings), ", ")
       + ".\n    - Instrucciones: " + Join(PromptTools(settings), " ")
       + PROMPT_TASK)
  }

  /** The prompt from the longitude on. */
  function LongitudePart(coords: Coordinates, settings: AppSettings, fmt: real -> string): string
  {
    ", Longitud " + fmt(coords.longitude) + PreferencesPart(settings)
  }

  /** `userPrompt`. `fmt` is JavaScript's number-to-text conversion used by
      the template string. */
  function UserPrompt(coords: Coordinates, settings: AppSettings, fmt: real -> string): (prompt: string)
    ensures Contains(prompt, fmt(coords.latitude))
    ensures Contains(prompt, fmt(coords.longitude))
    ensures Contains(prompt, BrandsFilter(settings.gasBrands))
  {
    var prompt := PROMPT_HEAD + fmt(coords.latitude) + LongitudePart(coords, settings, fmt);
    PromptEmbeds(coords, settings, fmt, prompt);
    prompt
  }

  lemma PromptEmbeds(coords: Coordinates, settings: AppSettings, fmt: real -> string, prompt: string)
    requires prompt == PROMPT_HEAD + fmt(coords.latitude) + LongitudePart(coords, settings, fmt)
    ensures Contains(prompt, fmt(coords.latitude))
    ensures Contains(prompt, fmt(coords.longitude))
    ensures Contains(prompt, BrandsFilter(settings.gasBrands))
  {
    var head := PROMPT_HEAD + fmt(coords.latitude);
    var lonPart := LongitudePart(coords, settings, fmt);
    var prefs := PreferencesPart(settings);
    var brands := BrandsFilter(settings.gasBrands);
    var rest := "\n    - Buscar también: " + Join(Interests(settings), ", ")
       + ".\n    - Instrucciones: " + Join(PromptTools(settings), " ")
       + PROMPT_TASK;
    assert prompt + "" == prompt;
    assert ", Longitud " + fmt(coords.longitude) + prefs + "" == lonPart;
    ContainsMiddle(PROMPT_HEAD, fmt(coords.latitude), lonPart);
    ContainsMiddle(", Longitud ", fmt(coords.longitude), prefs);
    ContainsAround(head, lonPart, "", fmt(coords.longitude));
    ContainsMiddle(".\n    PREFERENCIAS:\n    - ", brands, rest);
    ContainsAround(", Longitud " + fmt(coords.longitude), prefs, "", brands);
    ContainsAround(head, lonPart, "", brands);
  }

  /** Every preferred brand is named in the prompt. */
  lemma PromptNamesEachBrand(coords: Coordinates, settings: AppSettings, fmt: real -> string, k: nat)
    requires k < |settings.gasBrands|
    ensures Contains(UserPrompt(coords, settings, fmt), settings.gasBrands[k])
  {
    BrandsFilterNamesEachBrand(settings.gasBrands, k);
    ContainsTransitive(UserPrompt(coords, settings, fmt), BrandsFilter(settings.gasBrands), settings.gasBrands[k]);
  }

  /** The request `fetchCoPilotInfo` sends for this position and these settings. */
  function BuildRequest(coords: Coordinates, settings: AppSettings, fmt: real -> string): (req: Request)
    ensures req.model == MODEL && req.systemInstruction == SYSTEM_INSTRUCTION
    ensures Contains(req.prompt, fmt(coords.latitude)) && Contains(req.prompt, fmt(coords.longitude))
  {
    Request(MODEL, UserPrompt(coords, settings, fmt), SYSTEM_INSTRUCTION)
  }

  /** How the promise returned by `fetchCoPilotInfo` settles once the remote
      call has produced `reply`: it never rejects, and every failure becomes
      the silent fallback. */
  function FetchCoPilotInfo(reply: AiOutcome): (r: Settled<CoPilotResponse>)
    ensures r.Resolved?
    ensures reply.Success? ==> r.value == reply.response
    ensures !reply.Success? ==>
      && r.value.spokenText == ""
      && r.value.weatherSummary == NOT_AVAILABLE
      && r.value.trafficSummary == NOT_AVAILABLE
      && r.value.nearestStations == []
  {
    match reply
    case Success(response) => Resolved(response)
    case EmptyText => Resolved(FALLBACK)
    case Failure => Resolved(FALLBACK)
  }
}
