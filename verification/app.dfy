/** The update scheduler of the current front-end (src/App.tsx).

    `updateInfo` runs in up to three steps, each a method below: the guard
    and the geolocation request (`UpdateInfo`), then one of the two
    geolocation callbacks (`OnPosition`, `OnPositionError`), then, when the
    trigger rule asks for a query, the completion of the awaited service call
    (`OnReply`). The field `pending` records which callback the scheduler is
    waiting for; `loading` is set exactly while one is pending. `Evaluate`
    runs the three steps back to back against the service of
    src/services/geminiService.ts. */
module CoPilotApp {
  import opened Types
  import opened Text
  import Preferences
  import GeminiService

  const MIN_DISTANCE_TRIGGER_KM: real := 3.0
  const MS_PER_MINUTE: int := 60000
  const NOTIFICATION_TITLE_PREFIX := "G-milla: "
  const NOTIFICATION_BODY_LENGTH: nat := 50

  const GPS_UNAVAILABLE := "GPS no disponible"
  const GPS_ERROR := "Error GPS"
  const AI_ERROR := "Error IA. Verifica API Key."

  /** Distance in kilometres between two positions. */
  type DistanceKm = (Coordinates, Coordinates) -> real

  /** What the single-shot geolocation request delivers. */
  datatype GpsOutcome = Fix(position: Coordinates) | GpsError

  /** The browser facilities the scheduler looks at. */
  datatype Host = Host(
    geolocation: bool,
    speechSynthesis: bool,
    notificationGranted: bool,
    pageHidden: bool)

  datatype Notice = Notice(title: string, body: string)

  /** The callback `updateInfo` is waiting for. */
  datatype Pending = NoPending | AwaitingFix(force: bool) | AwaitingReply(position: Coordinates)

  /** Minutes between two millisecond timestamps. */
  function ElapsedMinutes(now: int, since: int): real
  {
    (now - since) as real / MS_PER_MINUTE as real
  }

  /** `shouldCallAI`: whether a fix at `current` warrants a remote query. */
  function ShouldCallAI(
    force: bool, lastApiLocation: Option<Coordinates>, lastUpdate: Option<int>,
    current: Coordinates, now: int, frequency: real, dist: DistanceKm): (r: bool)
    ensures force || lastApiLocation.None? ==> r
    ensures (lastApiLocation.Some? && lastUpdate.Some? &&
             (dist(lastApiLocation.value, current) >= MIN_DISTANCE_TRIGGER_KM
              || ElapsedMinutes(now, lastUpdate.value) >= frequency)) ==> r
    ensures r ==> (force || lastApiLocation.None? ||
                   (lastUpdate.Some? &&
                    (dist(lastApiLocation.value, current) >= MIN_DISTANCE_TRIGGER_KM
                     || ElapsedMinutes(now, lastUpdate.value) >= frequency)))
  {
    if !force && lastApiLocation.Some? && lastUpdate.Some? then
      dist(lastApiLocation.value, current) >= MIN_DISTANCE_TRIGGER_KM
      || ElapsedMinutes(now, lastUpdate.value) >= frequency
    else
      force || lastApiLocation.None?
  }

  /** The trigger rule stated on the last query as one record (where and
      when): forced, first query, moved far enough, or waited long enough. */
  function TriggerPolicy(
    force: bool, lastQuery: Option<(Coordinates, int)>,
    current: Coordinates, now: int, frequency: real, dist: DistanceKm): bool
  {
    match lastQuery
    case None => true
    case Some((where, when)) =>
      force
      || dist(where, current) >= MIN_DISTANCE_TRIGGER_KM
      || ElapsedMinutes(now, when) >= frequency
  }

  /** While the last query location and time are set together (which `App`
      keeps invariant), `shouldCallAI` is exactly the trigger rule. */
  lemma ShouldCallAIFollowsPolicy(
    force: bool, lastApiLocation: Option<Coordinates>, lastUpdate: Option<int>,
    current: Coordinates, now: int, frequency: real, dist: DistanceKm)
    requires lastApiLocation.Some? <==> lastUpdate.Some?
    ensures ShouldCallAI(force, lastApiLocation, lastUpdate, current, now, frequency, dist) ==
      TriggerPolicy(force,
        if lastApiLocation.Some? then Some((lastApiLocation.value, lastUpdate.value)) else None,
        current, now, frequency, dist)
  {
  }

  /** A location without a time (a state `App` never reaches) never triggers
      an unforced query: the distance test needs both. */
  lemma LocationWithoutTimeNeverTriggers(
    lastApiLocation: Coordinates, current: Coordinates, now: int, frequency: real, dist: DistanceKm)
    ensures !ShouldCallAI(false, Some(lastApiLocation), None, current, now, frequency, dist)
  {
  }

  /** The speech `speak` produces for `text`. */
  function Spoken(text: string, voiceEnabled: bool, host: Host): (r: seq<string>)
    ensures |r| <= 1
    ensures |r| == 1 <==> voiceEnabled && host.speechSynthesis && text != ""
    ensures |r| == 1 ==> r[0] == text
  {
    if voiceEnabled && host.speechSynthesis && text != "" then [text] else []
  }

  /** The notification a reply produces: only for a non-empty station list,
      and `sendNotification` shows it only on a hidden page with permission. */
  function Notified(response: CoPilotResponse, host: Host): (r: seq<Notice>)
    ensures |r| <= 1
    ensures |r| == 1 <==> |response.nearestStations| > 0 && host.notificationGranted && host.pageHidden
    ensures |r| == 1 ==>
      && r[0].title == NOTIFICATION_TITLE_PREFIX + response.nearestStations[0].name
      && r[0].body == Truncate(response.spokenText, NOTIFICATION_BODY_LENGTH)
      && |r[0].body| <= NOTIFICATION_BODY_LENGTH
      && r[0].body <= response.spokenText
  {
    if |response.nearestStations| > 0 && host.notificationGranted && host.pageHidden then
      [Notice(NOTIFICATION_TITLE_PREFIX + response.nearestStations[0].name,
              Truncate(response.spokenText, NOTIFICATION_BODY_LENGTH))]
    else []
  }

  /** The service's fallback reply triggers neither speech nor a notification. */
  lemma FallbackIsSilent(voiceEnabled: bool, host: Host)
    ensures Spoken(GeminiService.FALLBACK.spokenText, voiceEnabled, host) == []
    ensures Notified(GeminiService.FALLBACK, host) == []
  {
  }

  class App {
    var isScanning: bool
    var isSettingsOpen: bool
    var settings: AppSettings
    var storage: Preferences.Storage
    var location: Option<Coordinates>
    var loading: bool
    var data: Option<CoPilotResponse>
    var lastUpdate: Option<int>
    var errorMsg: Option<string>
    var lastApiLocation: Option<Coordinates>
    var pending: Pending
    /** Every utterance handed to speech synthesis, oldest first. */
    ghost var spoken: seq<string>
    /** Every notification shown, oldest first. */
    ghost var notices: seq<Notice>

    ghost predicate Valid()
      reads this
    {
      && (loading <==> !pending.NoPending?)
      && (lastApiLocation.Some? <==> lastUpdate.Some?)
    }

    /** The component's initial state; settings come from storage. */
    constructor (store: Preferences.Storage)
      ensures Valid()
      ensures settings == Preferences.LoadSettings(store) && storage == store
      ensures !isScanning && !isSettingsOpen && !loading && pending == NoPending
      ensures location.None? && data.None? && lastUpdate.None? && errorMsg.None? && lastApiLocation.None?
      ensures spoken == [] && notices == []
    {
      isScanning := false;
      isSettingsOpen := false;
      settings := Preferences.LoadSettings(store);
      storage := store;
      location := None;
      loading := false;
      data := None;
      lastUpdate := None;
      errorMsg := None;
      lastApiLocation := None;
      pending := NoPending;
      spoken := [];
      notices := [];
    }

    /** `handleSaveSettings`. */
    method SaveSettings(newSettings: AppSettings)
      requires Valid()
      modifies this`settings, this`storage
      ensures Valid()
      ensures settings == newSettings
      ensures storage == Preferences.SaveSettings(old(storage), newSettings)
    {
      settings := newSettings;
      storage := Preferences.SaveSettings(storage, newSettings);
    }

    /** `handleStart`: `envKey` tells whether a key is configured in the
      build environment. Without any key, scanning does not start and the
      settings screen opens instead. */
    method Start(envKey: bool)
      modifies this`isScanning, this`isSettingsOpen
      ensures settings.apiKey != "" || envKey ==> isScanning && isSettingsOpen == old(isSettingsOpen)
      ensures settings.apiKey == "" && !envKey ==> isScanning == old(isScanning) && isSettingsOpen
    {
      var hasKey := settings.apiKey != "" || envKey;
      if !hasKey {
        isSettingsOpen := true;
        return;
      }
      isScanning := true;
    }

    /** `handleStop`; stopping twice is the same as stopping once. */
    method Stop()
      modifies this`isScanning
      ensures !isScanning
    {
      isScanning := false;
    }

    /** The dashboard's voice toggle. */
    method ToggleVoice()
      modifies this`settings
      ensures settings == old(settings).(voiceEnabled := !old(settings).voiceEnabled)
    {
      settings := settings.(voiceEnabled := !settings.voiceEnabled);
    }

    /** `speak`. */
    method Speak(text: string, host: Host)
      modifies this`spoken
      ensures spoken == old(spoken) + Spoken(text, settings.voiceEnabled, host)
    {
      if !settings.voiceEnabled || !host.speechSynthesis || text == "" {
        return;
      }
      spoken := spoken + [text];
    }

    /** `sendNotification`. */
    method SendNotification(title: string, body: string, host: Host)
      modifies this`notices
      ensures notices == old(notices) + if host.notificationGranted && host.pageHidden then [Notice(title, body)] else []
    {
      if host.notificationGranted && host.pageHidden {
        notices := notices + [Notice(title, body)];
      }
    }

    /** The start of `updateInfo`: the in-flight and scanning guards, then
      the geolocation request. A rejected call changes nothing. */
    method UpdateInfo(force: bool, host: Host) returns (accepted: bool)
      requires Valid()
      modifies this`loading, this`errorMsg, this`pending
      ensures Valid()
      ensures accepted == (!old(loading) && (force || isScanning))
      ensures !accepted ==> loading == old(loading) && errorMsg == old(errorMsg) && pending == old(pending)
      ensures accepted && !host.geolocation ==>
        !loading && pending == NoPending && errorMsg == Some(GPS_UNAVAILABLE)
      ensures accepted && host.geolocation ==>
        loading && pending == AwaitingFix(force) && errorMsg == None
    {
      if loading || (!force && !isScanning) {
        return false;
      }
      accepted := true;
      loading := true;
      errorMsg := None;
      if !host.geolocation {
        errorMsg := Some(GPS_UNAVAILABLE);
        loading := false;
        return;
      }
      pending := AwaitingFix(force);
    }

    /** The geolocation success callback: the fix is always shown, and the
      trigger rule decides whether to query. */
    method OnPosition(position: Coordinates, now: int, dist: DistanceKm)
      requires Valid() && pending.AwaitingFix?
      modifies this`location, this`loading, this`pending
      ensures Valid()
      ensures location == Some(position)
      ensures ShouldCallAI(old(pending).force, lastApiLocation, lastUpdate, position, now, settings.checkFrequency, dist) ==>
        loading && pending == AwaitingReply(position)
      ensures !ShouldCallAI(old(pending).force, lastApiLocation, lastUpdate, position, now, settings.checkFrequency, dist) ==>
        !loading && pending == NoPending
    {
      location := Some(position);
      var shouldCallAI := ShouldCallAI(pending.force, lastApiLocation, lastUpdate, position, now, settings.checkFrequency, dist);
      if shouldCallAI {
        pending := AwaitingReply(position);
      } else {
        pending := NoPending;
        loading := false;
      }
    }

    /** The geolocation error callback. */
    method OnPositionError()
      requires Valid() && pending.AwaitingFix?
      modifies this`loading, this`errorMsg, this`pending
      ensures Valid()
      ensures !loading && pending == NoPending && errorMsg == Some(GPS_ERROR)
    {
      errorMsg := Some(GPS_ERROR);
      pending := NoPending;
      loading := false;
    }

    /** The end of `updateInfo` once the awaited service call has settled.
      Nothing here looks at `isScanning`: a reply that arrives after
      `Stop` is applied all the same. */
    method OnReply(reply: Settled<CoPilotResponse>, at: int, host: Host)
      requires Valid() && pending.AwaitingReply?
      modifies this`data, this`lastUpdate, this`lastApiLocation, this`errorMsg,
               this`loading, this`pending, this`spoken, this`notices
      ensures Valid()
      ensures !loading && pending == NoPending
      ensures reply.Resolved? ==>
        && data == Some(reply.value)
        && lastUpdate == Some(at)
        && lastApiLocation == Some(old(pending).position)
        && errorMsg == old(errorMsg)
        && spoken == old(spoken) + Spoken(reply.value.spokenText, settings.voiceEnabled, host)
        && notices == old(notices) + Notified(reply.value, host)
      ensures reply.Rejected? ==>
        && data == old(data)
        && lastUpdate == old(lastUpdate)
        && lastApiLocation == old(lastApiLocation)
        && errorMsg == Some(AI_ERROR)
        && spoken == old(spoken) && notices == old(notices)
    {
      var position := pending.position;
      match reply {
        case Resolved(result) =>
          data := Some(result);
          lastUpdate := Some(at);
          lastApiLocation := Some(position);
          if result.spokenText != "" {
            Speak(result.spokenText, host);
          }
          if |result.nearestStations| > 0 {
            SendNotification(NOTIFICATION_TITLE_PREFIX + result.nearestStations[0].name,
                             Truncate(result.spokenText, NOTIFICATION_BODY_LENGTH), host);
          }
        case Rejected =>
          errorMsg := Some(AI_ERROR);
      }
      pending := NoPending;
      loading := false;
    }

    /** One whole `updateInfo` run: the fix arrives at `now`, the service
      completes at `replyAt` with `reply`. Because the service never
      rejects, no service failure reaches the error branch of the reply
      handler: a failed remote call still counts as a query (it moves the
      last query location and time) and leaves no error message. */
    method Evaluate(
      force: bool, host: Host, gps: GpsOutcome, now: int,
      reply: AiOutcome, replyAt: int, dist: DistanceKm)
      requires Valid()
      modifies this
      ensures Valid()
      ensures isScanning == old(isScanning) && isSettingsOpen == old(isSettingsOpen)
      ensures settings == old(settings) && storage == old(storage)
      ensures old(loading) || (!force && !old(isScanning)) ==>
        && loading == old(loading) && pending == old(pending) && errorMsg == old(errorMsg)
        && location == old(location) && data == old(data)
        && lastUpdate == old(lastUpdate) && lastApiLocation == old(lastApiLocation)
        && spoken == old(spoken) && notices == old(notices)
      ensures !old(loading) && (force || old(isScanning)) ==> !loading && pending == NoPending
      ensures !old(loading) && (force || old(isScanning)) && !(host.geolocation && gps.Fix?) ==>
        && errorMsg == Some(if host.geolocation then GPS_ERROR else GPS_UNAVAILABLE)
        && location == old(location) && data == old(data)
        && lastUpdate == old(lastUpdate) && lastApiLocation == old(lastApiLocation)
        && spoken == old(spoken) && notices == old(notices)
      ensures !old(loading) && (force || old(isScanning)) && host.geolocation && gps.Fix? ==>
        && errorMsg == None
        && location == Some(gps.position)
      ensures (!old(loading) && (force || old(isScanning)) && host.geolocation && gps.Fix? &&
               ShouldCallAI(force, old(lastApiLocation), old(lastUpdate), gps.position, now, settings.checkFrequency, dist)) ==>
        var response := GeminiService.FetchCoPilotInfo(reply).value;
        && data == Some(response)
        && lastUpdate == Some(replyAt)
        && lastApiLocation == Some(gps.position)
        && spoken == old(spoken) + Spoken(response.spokenText, settings.voiceEnabled, host)
        && notices == old(notices) + Notified(response, host)
      ensures (!old(loading) && (force || old(isScanning)) && host.geolocation && gps.Fix? &&
               !ShouldCallAI(force, old(lastApiLocation), old(lastUpdate), gps.position, now, settings.checkFrequency, dist)) ==>
        && data == old(data)
        && lastUpdate == old(lastUpdate) && lastApiLocation == old(lastApiLocation)
        && spoken == old(spoken) && notices == old(notices)
    {
      var accepted := UpdateInfo(force, host);
      if !accepted || !host.geolocation {
        return;
      }
      match gps
      case GpsError =>
        OnPositionError();
      case Fix(position) =>
        OnPosition(position, now, dist);
        if pending.AwaitingReply? {
          OnReply(GeminiService.FetchCoPilotInfo(reply), replyAt, host);
        }
    }

    /** A query whose reply arrives after the user pressed stop: the reply
      is still stored and announced. */
    method ReplyAfterStop(reply: Settled<CoPilotResponse>, at: int, host: Host)
      requires Valid() && pending.AwaitingReply?
      modifies this
      ensures Valid() && !isScanning && !loading
      ensures reply.Resolved? ==>
        && data == Some(reply.value) && lastUpdate == Some(at)
        && spoken == old(spoken) + Spoken(reply.value.spokenText, settings.voiceEnabled, host)
    {
      Stop();
      OnReply(reply, at, host);
    }
  }
}
