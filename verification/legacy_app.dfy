/** The update loop of the older front-end (App.tsx). Its `updateInfo`
    has a single gate, on elapsed time, checked before the position is
    requested; every accepted call that gets a fix queries the service. It
    is modelled in the same steps as the current front-end's scheduler
    (module CoPilotApp), against the older service. */
module LegacyCoPilotApp {
  import opened Types
  import opened Text
  import CoPilotApp
  import LegacyGeminiService

  const DEFAULT_SETTINGS := AppSettings(5.0, true, true, true, true, [], "")

  const NOTIFICATION_TITLE := "G-milla Actualización"
  const DEFAULT_STATION_NAME := "Gasolinera"
  const DEFAULT_STATION_DISTANCE := "cerca"
  const EXCERPT_LENGTH: nat := 50

  const GEOLOCATION_UNSUPPORTED := "Geolocalización no soportada"
  const LOCATION_DENIED := "Permiso de ubicación denegado o no disponible"
  const SERVICE_ERROR := "Error consultando a G-milla"

  /** The callback `updateInfo` is waiting for. */
  datatype Pending = NoPending | AwaitingFix | AwaitingReply(position: Coordinates)

  /** The time gate: a manual call, or a first call, always passes; an
      automatic call passes once `checkFrequency` minutes have elapsed. */
  function TimeGatePasses(manual: bool, lastUpdate: Option<int>, now: int, frequency: real): (r: bool)
    ensures r <==> manual || lastUpdate.None? || CoPilotApp.ElapsedMinutes(now, lastUpdate.value) >= frequency
  {
    !(!manual && lastUpdate.Some? && CoPilotApp.ElapsedMinutes(now, lastUpdate.value) < frequency)
  }

  /** Whenever the older time gate lets an automatic call through, the
      current trigger rule would query too (given a previous query). */
  lemma TimeGateImpliesTrigger(
    lastApiLocation: Coordinates, lastUpdate: int, current: Coordinates,
    now: int, frequency: real, dist: CoPilotApp.DistanceKm)
    requires TimeGatePasses(false, Some(lastUpdate), now, frequency)
    ensures CoPilotApp.ShouldCallAI(false, Some(lastApiLocation), Some(lastUpdate), current, now, frequency, dist)
  {
  }

  /** The converse fails: moving 3 km or more before the interval is up
      triggers the current front-end but not the older one. */
  lemma DistanceTriggersOnlyCurrent(
    lastApiLocation: Coordinates, lastUpdate: int, current: Coordinates,
    now: int, frequency: real, dist: CoPilotApp.DistanceKm)
    requires dist(lastApiLocation, current) >= CoPilotApp.MIN_DISTANCE_TRIGGER_KM
    requires CoPilotApp.ElapsedMinutes(now, lastUpdate) < frequency
    ensures CoPilotApp.ShouldCallAI(false, Some(lastApiLocation), Some(lastUpdate), current, now, frequency, dist)
    ensures !TimeGatePasses(false, Some(lastUpdate), now, frequency)
  {
  }

  /** `result.nearest_stations[0]?.name || 'Gasolinera'`. */
  function LeadStationName(stations: seq<GasStation>): (name: string)
    ensures (stations == [] || stations[0].name == "") ==> name == DEFAULT_STATION_NAME
    ensures stations != [] && stations[0].name != "" ==> name == stations[0].name
  {
    if stations != [] && stations[0].name != "" then stations[0].name else DEFAULT_STATION_NAME
  }

  /** `result.nearest_stations[0]?.distance || 'cerca'`. */
  function LeadStationDistance(stations: seq<GasStation>): (distance: string)
    ensures (stations == [] || stations[0].distance.None? || stations[0].distance.value == "") ==>
      distance == DEFAULT_STATION_DISTANCE
    ensures stations != [] && stations[0].distance.Some? && stations[0].distance.value != "" ==>
      distance == stations[0].distance.value
  {
    if stations != [] && stations[0].distance.Some? && stations[0].distance.value != "" then
      stations[0].distance.value
    else DEFAULT_STATION_DISTANCE
  }

  /** The notification text before the excerpt of the spoken text. */
  function NotificationLead(response: CoPilotResponse): string
  {
    "Próxima: " + LeadStationName(response.nearestStations)
    + (" (" + LeadStationDistance(response.nearestStations) + "). ")
  }

  /** The notification body: lead station, its distance, at most the first
      50 characters of the spoken text, and an ellipsis. */
  function NotificationBody(response: CoPilotResponse): (body: string)
    ensures Contains(body, LeadStationName(response.nearestStations))
    ensures Contains(body, LeadStationDistance(response.nearestStations))
    ensures Contains(body, Truncate(response.spokenText, EXCERPT_LENGTH))
    ensures |body| >= 3 && body[|body| - 3..] == "..."
  {
    var lead := NotificationLead(response);
    var excerpt := Truncate(response.spokenText, EXCERPT_LENGTH);
    var body := lead + excerpt + "...";
    NotificationBodyParts(response, lead, excerpt, body);
    body
  }

  lemma NotificationBodyParts(response: CoPilotResponse, lead: string, excerpt: string, body: string)
    requires lead == NotificationLead(response)
    requires excerpt == Truncate(response.spokenText, EXCERPT_LENGTH)
    requires body == lead + excerpt + "..."
    ensures Contains(body, LeadStationName(response.nearestStations))
    ensures Contains(body, LeadStationDistance(response.nearestStations))
    ensures Contains(body, excerpt)
    ensures |body| >= 3 && body[|body| - 3..] == "..."
  {
    var name := LeadStationName(response.nearestStations);
    var distance := LeadStationDistance(response.nearestStations);
    var afterName := " (" + distance + "). ";
    ContainsMiddle("Próxima: ", name, afterName);
    ContainsAround("", lead, excerpt + "...", name);
    ContainsMiddle(" (", distance, "). ");
    ContainsAround("Próxima: " + name, afterName, "", distance);
    assert "Próxima: " + name + afterName + "" == lead;
    ContainsAround("", lead, excerpt + "...", distance);
    assert "" + lead + (excerpt + "...") == body;
    ContainsMiddle(lead, excerpt, "...");
  }

  /** With no stations the notification still names a placeholder station
      and distance. */
  lemma EmptyListNotification(response: CoPilotResponse)
    requires response.nearestStations == []
    ensures Contains(NotificationBody(response), DEFAULT_STATION_NAME)
    ensures Contains(NotificationBody(response), DEFAULT_STATION_DISTANCE)
  {
  }

  /** The speech `speak` produces: it is only called with voice enabled, and
      it does not skip an empty text. */
  function Spoken(text: string, voiceEnabled: bool, host: CoPilotApp.Host): (r: seq<string>)
    ensures |r| <= 1
    ensures |r| == 1 <==> voiceEnabled && host.speechSynthesis
    ensures |r| == 1 ==> r[0] == text
  {
    if voiceEnabled && host.speechSynthesis then [text] else []
  }

  /** The notification a reply produces: on a hidden page with permission,
      whatever the station list. */
  function Notified(response: CoPilotResponse, host: CoPilotApp.Host): (r: seq<CoPilotApp.Notice>)
    ensures |r| <= 1
    ensures |r| == 1 <==> host.pageHidden && host.notificationGranted
    ensures |r| == 1 ==> r[0].title == NOTIFICATION_TITLE && r[0].body == NotificationBody(response)
  {
    if host.pageHidden && host.notificationGranted then
      [CoPilotApp.Notice(NOTIFICATION_TITLE, NotificationBody(response))]
    else []
  }

  /** The older service's fallback is an apology that is spoken aloud. */
  lemma FallbackIsSpoken(voiceEnabled: bool, host: CoPilotApp.Host)
    requires voiceEnabled && host.speechSynthesis
    ensures Spoken(LegacyGeminiService.FetchCoPilotInfo(Failure).value.spokenText, voiceEnabled, host)
      == [LegacyGeminiService.APOLOGY]
  {
  }

  class LegacyApp {
    var settings: AppSettings
    var location: Option<Coordinates>
    var loading: bool
    var data: Option<CoPilotResponse>
    var lastUpdate: Option<int>
    var errorMsg: Option<string>
    var pending: Pending
    /** Every utterance handed to speech synthesis, oldest first. */
    ghost var spoken: seq<string>
    /** Every notification shown, oldest first. */
    ghost var notices: seq<CoPilotApp.Notice>

    ghost predicate Valid()
      reads this
    {
      loading <==> !pending.NoPending?
    }

    constructor ()
      ensures Valid()
      ensures settings == DEFAULT_SETTINGS && !loading && pending == NoPending
      ensures location.None? && data.None? && lastUpdate.None? && errorMsg.None?
      ensures spoken == [] && notices == []
    {
      settings := DEFAULT_SETTINGS;
      location := None;
      loading := false;
      data := None;
      lastUpdate := None;
      errorMsg := None;
      pending := NoPending;
      spoken := [];
      notices := [];
    }

    /** The settings screen's `onSave`, which replaces the settings. */
    method SaveSettings(newSettings: AppSettings)
      modifies this`settings
      ensures settings == newSettings
    {
      settings := newSettings;
    }

    /** `speak`. */
    method Speak(text: string, host: CoPilotApp.Host)
      modifies this`spoken
      ensures spoken == old(spoken) + Spoken(text, settings.voiceEnabled, host)
    {
      if !settings.voiceEnabled || !host.speechSynthesis {
        return;
      }
      spoken := spoken + [text];
    }

    /** `sendNotification`. */
    method SendNotification(title: string, body: string, host: CoPilotApp.Host)
      modifies this`notices
      ensures notices == old(notices) + if host.notificationGranted then [CoPilotApp.Notice(title, body)] else []
    {
      if host.notificationGranted {
        notices := notices + [CoPilotApp.Notice(title, body)];
      }
    }

    /** The start of `updateInfo`: the in-flight guard and the time gate,
      both before any position is requested. */
    method UpdateInfo(manual: bool, now: int, host: CoPilotApp.Host) returns (accepted: bool)
      requires Valid()
      modifies this`loading, this`errorMsg, this`pending
      ensures Valid()
      ensures accepted == (!old(loading) && TimeGatePasses(manual, lastUpdate, now, settings.checkFrequency))
      ensures !accepted ==> loading == old(loading) && errorMsg == old(errorMsg) && pending == old(pending)
      ensures accepted && !host.geolocation ==>
        !loading && pending == NoPending && errorMsg == Some(GEOLOCATION_UNSUPPORTED)
      ensures accepted && host.geolocation ==>
        loading && pending == AwaitingFix && errorMsg == None
    {
      if loading {
        return false;
      }
      if !manual && lastUpdate.Some? {
        var diffMins := CoPilotApp.ElapsedMinutes(now, lastUpdate.value);
        if diffMins < settings.checkFrequency {
          return false;
        }
      }
      accepted := true;
      loading := true;
      errorMsg := None;
      if !host.geolocation {
        errorMsg := Some(GEOLOCATION_UNSUPPORTED);
        loading := false;
        return;
      }
      pending := AwaitingFix;
    }

    /** The geolocation success callback: the position (without heading or
      speed) is shown, and the service is always called. */
    method OnPosition(position: Coordinates)
      requires Valid() && pending == AwaitingFix
      modifies this`location, this`pending
      ensures Valid()
      ensures location == Some(Coordinates(position.latitude, position.longitude, None, None))
      ensures loading && pending == AwaitingReply(location.value)
    {
      var coords := Coordinates(position.latitude, position.longitude, None, None);
      location := Some(coords);
      pending := AwaitingReply(coords);
    }

    /** The geolocation error callback. */
    method OnPositionError()
      requires Valid() && pending == AwaitingFix
      modifies this`loading, this`errorMsg, this`pending
      ensures Valid()
      ensures !loading && pending == NoPending && errorMsg == Some(LOCATION_DENIED)
    {
      errorMsg := Some(LOCATION_DENIED);
      pending := NoPending;
      loading := false;
    }

    /** The end of `updateInfo` once the service call has settled: success
      stores the reply and its time, failure only reports; `loading` is
      cleared either way (the `finally` block). */
    method OnReply(reply: Settled<CoPilotResponse>, at: int, host: CoPilotApp.Host)
      requires Valid() && pending.AwaitingReply?
      modifies this`data, this`lastUpdate, this`errorMsg, this`loading, this`pending,
               this`spoken, this`notices
      ensures Valid()
      ensures !loading && pending == NoPending
      ensures reply.Resolved? ==>
        && data == Some(reply.value)
        && lastUpdate == Some(at)
        && errorMsg == old(errorMsg)
        && spoken == old(spoken) + Spoken(reply.value.spokenText, settings.voiceEnabled, host)
        && notices == old(notices) + Notified(reply.value, host)
      ensures reply.Rejected? ==>
        && data == old(data)
        && lastUpdate == old(lastUpdate)
        && errorMsg == Some(SERVICE_ERROR)
        && spoken == old(spoken) && notices == old(notices)
    {
      match reply {
        case Resolved(result) =>
          data := Some(result);
          lastUpdate := Some(at);
          if settings.voiceEnabled {
            Speak(result.spokenText, host);
          }
          if host.pageHidden {
            SendNotification(NOTIFICATION_TITLE, NotificationBody(result), host);
          }
        case Rejected =>
          errorMsg := Some(SERVICE_ERROR);
      }
      pending := NoPending;
      loading := false;
    }

    /** One whole `updateInfo` run against the older service. The gate is
      decided before any fix, so a gated call does not even refresh the
      position; and since the service never rejects, a failed remote call
      moves `lastUpdate` and speaks the apology. */
    method Evaluate(
      manual: bool, now: int, host: CoPilotApp.Host, gps: CoPilotApp.GpsOutcome,
      reply: AiOutcome, replyAt: int)
      requires Valid()
      modifies this
      ensures Valid()
      ensures settings == old(settings)
      ensures (old(loading) || !TimeGatePasses(manual, old(lastUpdate), now, settings.checkFrequency)) ==>
        && loading == old(loading) && pending == old(pending) && errorMsg == old(errorMsg)
        && location == old(location) && data == old(data) && lastUpdate == old(lastUpdate)
        && spoken == old(spoken) && notices == old(notices)
      ensures (!old(loading) && TimeGatePasses(manual, old(lastUpdate), now, settings.checkFrequency)) ==>
        !loading && pending == NoPending
      ensures (!old(loading) && TimeGatePasses(manual, old(lastUpdate), now, settings.checkFrequency)
               && !(host.geolocation && gps.Fix?)) ==>
        && errorMsg == Some(if host.geolocation then LOCATION_DENIED else GEOLOCATION_UNSUPPORTED)
        && location == old(location) && data == old(data) && lastUpdate == old(lastUpdate)
        && spoken == old(spoken) && notices == old(notices)
      ensures (!old(loading) && TimeGatePasses(manual, old(lastUpdate), now, settings.checkFrequency)
               && host.geolocation && gps.Fix?) ==>
        var response := LegacyGeminiService.FetchCoPilotInfo(reply).value;
        && errorMsg == None
        && location == Some(Coordinates(gps.position.latitude, gps.position.longitude, None, None))
        && data == Some(response)
        && lastUpdate == Some(replyAt)
        && spoken == old(spoken) + Spoken(response.spokenText, settings.voiceEnabled, host)
        && notices == old(notices) + Notified(response, host)
    {
      var accepted := UpdateInfo(manual, now, host);
      if !accepted || !host.geolocation {
        return;
      }
      match gps
      case GpsError =>
        OnPositionError();
      case Fix(position) =>
        OnPosition(position);
        OnReply(LegacyGeminiService.FetchCoPilotInfo(reply), replyAt, host);
    }
  }
}
