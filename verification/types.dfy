/** The records the co-pilot front-end passes around (src/types.ts), plus the
    small wrappers the rest of the model uses for optional values and for the
    settled state of a promise. */
module Types {

  datatype Option<+T> = None | Some(value: T)

  /** How an awaited promise settled: `await p` either yields a value or throws. */
  datatype Settled<+T> = Resolved(value: T) | Rejected

  /** A geolocation fix. `heading` and `speed` are absent when the device
      does not report them (the older front-end never copies them). */
  datatype Coordinates = Coordinates(
    latitude: real,
    longitude: real,
    heading: Option<real>,
    speed: Option<real>)

  datatype GasStation = GasStation(
    name: string,
    address: string,
    location: Option<Coordinates>,
    distance: Option<string>)

  /** The structured answer of the remote assistant. */
  datatype CoPilotResponse = CoPilotResponse(
    spokenText: string,
    weatherSummary: string,
    trafficSummary: string,
    nearestStations: seq<GasStation>)

  /** User preferences. An absent API key is the empty string: every place
      that reads the key treats a missing key and "" alike. */
  datatype AppSettings = AppSettings(
    checkFrequency: real,
    voiceEnabled: bool,
    showTraffic: bool,
    showWeather: bool,
    showCafes: bool,
    gasBrands: seq<string>,
    apiKey: string)

  /** The brands the settings screen offers, in display order. */
  const AVAILABLE_BRANDS: seq<string> := ["Repsol", "BP", "Cepsa", "Galp", "Shell", "Avia"]

  /** What the remote model call produced, as far as the service can tell:
      a parsed reply, an empty reply text, or a thrown error (network,
      authentication or malformed JSON). */
  datatype AiOutcome = Success(response: CoPilotResponse) | EmptyText | Failure
}
