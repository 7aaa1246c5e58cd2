# G-milla co-pilot core, modelled in Dafny

G-milla is a browser front-end that acts as a driving co-pilot. While it is
scanning, it takes a geolocation fix on a timer. It decides whether the fix is
worth a query to a remote language model (Gemini). If so, it sends a prompt
built from the position and the user's preferences. It then shows the answer,
reads it aloud and raises a notification. The repository holds two
generations of the front-end. The current one lives under `src/`. The older
one lives at the top level: `App.tsx`, `services/`, `components/`.

This project models the logic of both generations:

- `types.dfy` (module `Types`): the records of `src/types.ts`, plus `Option`
  and `Settled`. `Settled` is how an awaited promise ends: a value or a throw.
  `AiOutcome` is what the remote model call produced.
- `text.dfy` (module `Text`): JavaScript's `join` and `slice(0, n)`, and the
  "occurs inside" relation that the prompt and URL properties are stated with.
- `preferences.dfy` (module `Preferences`): loading the settings from
  localStorage and saving them back (src/App.tsx). Storage is a map from slot
  name to stored value. JSON encoding is taken as the identity.
- `app.dfy` (module `CoPilotApp`): the update scheduler of src/App.tsx as a
  class `App` whose methods update its state fields. `updateInfo` runs in up
  to three steps: the guards and the geolocation request, then one
  geolocation callback, then the completion of the service call. Each step is
  a method. A `pending` field records which callback is outstanding.
  `Evaluate` runs the steps back to back against the service model. Ghost
  logs record every utterance spoken and every notification shown.
- `legacy_app.dfy` (module `LegacyCoPilotApp`): the older, time-gated
  `updateInfo` of App.tsx in the same form. It includes lemmas that compare
  its gate with the current trigger rule.
- `settings_modal.dfy` (module `SettingsModal`): the settings screen. It
  covers the brand toggle, the clamped frequency stepper, the per-field
  controls, and Save versus Cancel.
- `gemini_service.dfy` and `legacy_gemini_service.dfy`: prompt assembly,
  the request sent, and how each service turns every failure into a
  fallback answer instead of rejecting.
- `gas_station_card.dfy` and `legacy_gas_station_card.dfy`: the navigation
  link of each station card, its badge number, and its distance line.

The model takes several outside functions as parameters:

- `dist`: the distance between two fixes, in kilometres.
- `fmt`: JavaScript's number-to-text conversion in template strings.
- `encode`: `encodeURIComponent`.

Browser facilities enter as a `Host` record. It says whether geolocation and
speech synthesis exist, whether notifications are granted, and whether the
page is hidden. Timestamps are milliseconds passed in by the caller.

## Model

| member | source | states |
|---|---|---|
| Preferences.PrefsOf | src/App.tsx:53-54 | the saved preferences object has exactly the six preference keys and never `apiKey` |
| Preferences.LoadSettings | src/App.tsx:26-31 | the key always comes from its own slot (empty if none); with no saved preferences the defaults are used; otherwise saved fields override the defaults |
| Preferences.SaveSettings | src/App.tsx:50-55 | the preferences slot is rewritten without the key; the key slot is written only for a non-empty key and otherwise left as it was; every other slot is untouched |
| Preferences.LoadAfterSave | src/App.tsx:26-55 | loading after saving gives back the saved settings, except that an empty key keeps the previously stored key |
| CoPilotApp.ShouldCallAI | src/App.tsx:101-106 | a forced call or a first query always queries; with a previous query, moving at least 3 km or waiting at least `checkFrequency` minutes queries, equality included; a query implies one of those reasons |
| CoPilotApp.ShouldCallAIFollowsPolicy | src/App.tsx:101-106 | while the last query location and time are both set or both unset, `shouldCallAI` equals the rule "forced, first, far enough or late enough" stated on one (where, when) record |
| CoPilotApp.LocationWithoutTimeNeverTriggers | src/App.tsx:102-106 | with a query location but no query time, an unforced fix never queries |
| CoPilotApp.Spoken | src/App.tsx:69-77 | speech happens, once and with that text, if and only if voice is on, synthesis exists and the text is non-empty |
| CoPilotApp.Notified | src/App.tsx:113 | a notice appears if and only if the station list is non-empty, permission is granted and the page is hidden; its title is "G-milla: " plus the first station's name; its body is exactly the first 50 characters of the spoken text (all of it when shorter) |
| CoPilotApp.FallbackIsSilent | src/services/geminiService.ts:107-112 | the service's fallback answer is neither spoken nor notified |
| CoPilotApp.App.constructor | src/App.tsx:21-39 | the initial state: settings loaded from storage, not scanning, nothing loading, no data, no query recorded |
| CoPilotApp.App.SaveSettings | src/App.tsx:50-55 | the settings become the new ones and storage becomes `Preferences.SaveSettings` of the old storage |
| CoPilotApp.App.Start | src/App.tsx:57-65 | with a key in the settings or the environment, scanning starts; without one, scanning stays as it was and the settings screen opens |
| CoPilotApp.App.Stop | src/App.tsx:67 | scanning stops |
| CoPilotApp.App.ToggleVoice | src/App.tsx:202 | only the voice flag flips |
| CoPilotApp.App.Speak | src/App.tsx:69-77 | appends exactly `Spoken(text, ...)` to the speech log |
| CoPilotApp.App.SendNotification | src/App.tsx:79-83 | shows the notice if and only if permission is granted and the page is hidden |
| CoPilotApp.App.UpdateInfo | src/App.tsx:85-93 | a call while loading, or an unforced call while not scanning, changes nothing; an accepted call clears the error and either reports "GPS no disponible" with loading off, or waits for a fix with loading on |
| CoPilotApp.App.OnPosition | src/App.tsx:94-108 | every fix updates `location`; the scheduler then waits for a reply if and only if `ShouldCallAI` holds, and otherwise stops loading |
| CoPilotApp.App.OnPositionError | src/App.tsx:120 | reports "Error GPS" and stops loading |
| CoPilotApp.App.OnReply | src/App.tsx:108-118 | a resolved reply sets data, the query time and the query location together, and speaks and notifies as `Spoken`/`Notified` say; a rejected one only sets "Error IA. Verifica API Key."; loading ends either way |
| CoPilotApp.App.Evaluate | src/App.tsx:85-123 | a whole run against the service: a refused call changes nothing; every accepted path ends with loading off; a fix always updates the location and leaves no error message, so the catch branch is unreachable by service failures; a failed remote call still moves the query time and location |
| CoPilotApp.App.ReplyAfterStop | src/App.tsx:108-118 | a reply that arrives after stop is still stored, timestamped and spoken |
| LegacyCoPilotApp.TimeGatePasses | App.tsx:57-60 | a call passes if and only if it is manual, or there is no previous update, or at least `checkFrequency` minutes have elapsed since it |
| LegacyCoPilotApp.TimeGateImpliesTrigger | App.tsx:57-60 | whenever the older gate lets an automatic call through, the current trigger rule queries too |
| LegacyCoPilotApp.DistanceTriggersOnlyCurrent | App.tsx:57-60 | moving 3 km or more before the interval is up triggers the current rule but not the older gate |
| LegacyCoPilotApp.LeadStationName | App.tsx:93 | the first station's name when there is a station with a non-empty name, else "Gasolinera" |
| LegacyCoPilotApp.LeadStationDistance | App.tsx:94 | the first station's distance when present and non-empty, else "cerca" |
| LegacyCoPilotApp.NotificationBody | App.tsx:95 | the body contains the station name, its distance and the first 50 characters of the spoken text, and ends in "..." |
| LegacyCoPilotApp.EmptyListNotification | App.tsx:93-95 | with no stations the body names "Gasolinera" and "cerca" |
| LegacyCoPilotApp.Spoken | App.tsx:28-44 | speech happens if and only if voice is on and synthesis exists, even for an empty text |
| LegacyCoPilotApp.Notified | App.tsx:92-96 | a notice appears if and only if the page is hidden and permission is granted, whatever the station list; its title and body are fixed |
| LegacyCoPilotApp.FallbackIsSpoken | services/geminiService.ts:87-92 | with voice on, the older fallback's apology is spoken |
| LegacyCoPilotApp.LegacyApp.constructor | App.tsx:17-23 | the initial state with the older defaults (cafés on) |
| LegacyCoPilotApp.LegacyApp.SaveSettings | App.tsx:251 | the settings become the new ones (nothing is persisted) |
| LegacyCoPilotApp.LegacyApp.Speak | App.tsx:28-44 | appends exactly `Spoken(text, ...)` to the speech log |
| LegacyCoPilotApp.LegacyApp.SendNotification | App.tsx:47-51 | shows the notice if and only if permission is granted |
| LegacyCoPilotApp.LegacyApp.UpdateInfo | App.tsx:54-72 | a call while loading, or one the time gate refuses, changes nothing; an accepted call clears the error and either reports "Geolocalización no soportada" or waits for a fix |
| LegacyCoPilotApp.LegacyApp.OnPosition | App.tsx:73-78 | every fix sets `location` (without heading or speed) and always leads to a service call |
| LegacyCoPilotApp.LegacyApp.OnPositionError | App.tsx:105-109 | reports the location-permission error and stops loading |
| LegacyCoPilotApp.LegacyApp.OnReply | App.tsx:81-103 | success sets data and the update time, then speaks and notifies as `Spoken`/`Notified` say; failure keeps the update time and sets "Error consultando a G-milla"; loading ends either way |
| LegacyCoPilotApp.LegacyApp.Evaluate | App.tsx:54-113 | a whole run against the older service: a gated call does not even refresh the location; a fix always queries; a failed remote call moves the update time and yields the apology |
| SettingsModal.Without | src/components/SettingsModal.tsx:26 | the brand is gone, every other element stays a member, and the list does not grow |
| SettingsModal.ToggleBrand | src/components/SettingsModal.tsx:23-29 | the brand's membership flips, every other brand's membership is unchanged, and an absent brand is appended at the end |
| SettingsModal.WithoutKeepsOrder | src/components/SettingsModal.tsx:26 | removing a brand keeps the relative order of the rest |
| SettingsModal.WithoutCounts | src/components/SettingsModal.tsx:26 | removing a brand deletes every occurrence of it and no other element (as multisets) |
| SettingsModal.WithoutAbsent | src/components/SettingsModal.tsx:26 | a list without the brand passes the filter unchanged |
| SettingsModal.WithoutConcat | src/components/SettingsModal.tsx:26 | the filter distributes over concatenation |
| SettingsModal.ToggleTwiceRestores | src/components/SettingsModal.tsx:25-27 | toggling an absent brand twice gives back the original list |
| SettingsModal.ToggleTwiceMovesToEnd | src/components/SettingsModal.tsx:25-27 | toggling a present brand twice moves it, once, to the end |
| SettingsModal.Decrement | src/components/SettingsModal.tsx:89 | never below 1; one less, or 1 when one less would fall below 1 |
| SettingsModal.Increment | src/components/SettingsModal.tsx:94 | never above 60; one more, or 60 when one more would exceed 60 |
| SettingsModal.StepperKeepsRange | src/components/SettingsModal.tsx:88-96 | any sequence of presses keeps a frequency in [1, 60] inside it |
| SettingsModal.Apply | src/components/SettingsModal.tsx:45-94 | each control changes its own field as its handler says and carries every other field over unchanged |
| SettingsModal.Press | src/components/SettingsModal.tsx:122-133 | both buttons end by closing; Cancel never calls `onSave`; Save first calls `onSave` with the local copy |
| GeminiService.BrandsFilter | src/services/geminiService.ts:17-19 | a non-empty list gives the strict filter with the brands joined by ", "; an empty list gives the any-brand text |
| GeminiService.BrandsFilterNamesEachBrand | src/services/geminiService.ts:17-19 | the strict filter spells out every preferred brand |
| GeminiService.Interests | src/services/geminiService.ts:21-22 | holds the cafés entry if and only if cafés are on |
| GeminiService.PromptTools | src/services/geminiService.ts:25-27 | holds the traffic line if and only if traffic is on and the weather line if and only if weather is on, traffic first, nothing else |
| GeminiService.UserPrompt | src/services/geminiService.ts:29-44 | the prompt contains the latitude, the longitude and the brands filter |
| GeminiService.PromptNamesEachBrand | src/services/geminiService.ts:29-32 | the prompt names every preferred brand |
| GeminiService.BuildRequest | src/services/geminiService.ts:81-95 | the request uses the fixed model and system instruction, and its prompt contains both coordinates |
| GeminiService.FetchCoPilotInfo | src/services/geminiService.ts:98-113 | never rejects; a parsed reply is returned as is; an empty text or an error gives empty speech, "No disponible" summaries and no stations |
| LegacyGeminiService.BrandsText | services/geminiService.ts:10-12 | a non-empty list gives the preferred-brands text with the brands joined by ", "; otherwise the any-brand text |
| LegacyGeminiService.BrandsTextNamesEachBrand | services/geminiService.ts:10-12 | the preferred-brands text spells out every brand |
| LegacyGeminiService.Extras | services/geminiService.ts:14-17 | cafés, traffic and weather entries, each present if and only if its flag is on, in that order, nothing else |
| LegacyGeminiService.Prompt | services/geminiService.ts:19-35 | the prompt contains the latitude, the longitude and the brands text |
| LegacyGeminiService.PromptNamesEachBrand | services/geminiService.ts:19-24 | the prompt names every preferred brand |
| LegacyGeminiService.BuildRequest | services/geminiService.ts:60-77 | fixed model and instruction; the coordinates are both in the prompt and in the retrieval context |
| LegacyGeminiService.FetchCoPilotInfo | services/geminiService.ts:79-93 | never rejects; a parsed reply is returned as is; an empty text or an error gives the non-empty apology, "--" summaries and no stations |
| GasStationCard.NavigationUrl | src/components/GasStationCard.tsx:12-31 | a geo link for a located station on mobile, a directions link for a located station elsewhere, and a text search on "name address" otherwise |
| GasStationCard.NavigationUrlKind | src/components/GasStationCard.tsx:12-31 | the branch taken can be read back from the link's prefix |
| GasStationCard.MobileMattersIffLocated | src/components/GasStationCard.tsx:13-30 | the device type changes the link if and only if the station has coordinates |
| GasStationCard.BadgeNumber | src/components/GasStationCard.tsx:38 | the badge is the one-based position: at least 1, and one more than the index |
| LegacyGasStationCard.MapsUrl | components/GasStationCard.tsx:11-12 | always the maps-search form over the encoded "name address" |
| LegacyGasStationCard.MapsUrlIgnoresLocation | components/GasStationCard.tsx:11-12 | the link does not depend on the station's coordinates |
| LegacyGasStationCard.MapsUrlIsNewFallback | components/GasStationCard.tsx:11-12 | the older link equals the newer card's link for a station without coordinates, on any device |
| LegacyGasStationCard.ShowsDistance | components/GasStationCard.tsx:22-24 | the distance line is shown if and only if a non-empty distance is present |
| LegacyGasStationCard.BadgeNumber | components/GasStationCard.tsx:18 | the same one-based badge as the newer card |

## Left out

- The Haversine distance (src/App.tsx:42-48) is floating-point trigonometry. It is the `dist` parameter, and the 3 km threshold is stated against it.
- The model client call and `JSON.parse` are a library over the network. Their result is the `AiOutcome` input: a parsed reply, an empty text or an error. A reply that parses but breaks the schema (`null`, or an object without `nearest_stations`) is counted as parsed. In the source such a reply sets the data, the query time and the query location (src/App.tsx:111), then throws at src/App.tsx:112-113 and ends in the catch with "Error IA. Verifica API Key.", a state the model does not reach.
- The prompt's response schema, tool list and MIME type are configuration handed to the remote model. Only the model name, the system instruction, the prompt and (in the older service) the retrieval coordinates are modelled.
- JavaScript's number-to-text conversion and `encodeURIComponent` are the `fmt` and `encode` parameters.
- Browser facilities become fields of `Host`: geolocation, speech synthesis, notification permission and page visibility. The user-agent test is the `isMobile` flag, and the build-time key is the `envKey` flag of `Start`.
- Voice selection, speech rate and language, cancelling the current utterance, notification icon and tag, `alert`, `console` output and the permission request on mount are not modelled.
- The interval timers (10 s in src/App.tsx, 30 s in App.tsx) only call `updateInfo`. Each call is one `Evaluate`, with the tick's time passed in.
- The effect at src/App.tsx:125-132 re-runs `updateInfo(true)` whenever `updateInfo` is re-created. That happens whenever `loading`, `lastUpdate` or the settings change. React's dependency tracking is not modelled, so neither are these extra forced calls.
- Stale closures and interleaving are not modelled. Each callback sees the current state, and the three steps of one `updateInfo` run are not interleaved with another run. The `loading` guard makes this the intended behaviour.
- Preferences.LoadSettings: a preferences slot that holds plain text instead of an object is treated as absent. `JSON.parse` would parse it or throw, and that is not modelled. A saved field of the wrong type falls back to the default instead of being copied as is.
- `apiKey` is a string, and an absent key is the empty string. Every use in the source treats a missing key and "" alike.
- `checkFrequency` is a `real`, so the stepper is exact. Floating-point rounding of JavaScript numbers is not modelled.
- Truncation with `slice` and `substring` counts UTF-16 code units in JavaScript. The model counts characters.
- The settings screen re-syncs its local copy from its props when opened (src/components/SettingsModal.tsx:18-21). This is not modelled: `Apply` and `Press` take the local copy as given. The brand buttons offer `AVAILABLE_BRANDS`, and `ToggleBrand` accepts any brand.
- The older brands text ends with "." and the prompt template adds another. The model keeps both, as the source does.
- The wake lock hook (src/hooks/useWakeLock.ts) and the dashboard and all other markup are not part of this model.
