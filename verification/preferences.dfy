/** Persisting the settings of the current front-end in the browser's
    key-value storage (src/App.tsx): the API key in a slot of its own, the
    other preferences as one JSON object in a second slot. JSON encoding is
    taken as the identity, so a slot holds either plain text or an object. */
module Preferences {
  import opened Types

  const API_KEY_SLOT := "gmilla_api_key"
  const PREFS_SLOT := "gmilla_prefs"

  const DEFAULT_SETTINGS := AppSettings(5.0, true, true, true, false, [], "")

  /** The JSON values a preferences object holds. */
  datatype Json = JNumber(n: real) | JBool(b: bool) | JStrings(items: seq<string>)

  type JsonObject = map<string, Json>

  /** What a storage slot holds. */
  datatype Stored = Text(text: string) | Object(fields: JsonObject)

  type Storage = map<string, Stored>

  /** The keys of the saved preferences object: every settings field but the API key. */
  const PREF_KEYS: set<string> :=
    {"checkFrequency", "voiceEnabled", "showTraffic", "showWeather", "showCafes", "gasBrands"}

  /** `const { apiKey, ...prefs } = newSettings`. */
  function PrefsOf(settings: AppSettings): (prefs: JsonObject)
    ensures prefs.Keys == PREF_KEYS
    ensures "apiKey" !in prefs
  {
    map[
      "checkFrequency" := JNumber(settings.checkFrequency),
      "voiceEnabled" := JBool(settings.voiceEnabled),
      "showTraffic" := JBool(settings.showTraffic),
      "showWeather" := JBool(settings.showWeather),
      "showCafes" := JBool(settings.showCafes),
      "gasBrands" := JStrings(settings.gasBrands)]
  }

  /** `localStorage.getItem(API_KEY_SLOT) || ''`. */
  function SavedKey(store: Storage): string
  {
    if API_KEY_SLOT in store && store[API_KEY_SLOT].Text? then store[API_KEY_SLOT].text else ""
  }

  /** One numeric field of `{ ...defaults, ...prefs }`. */
  function NumberField(prefs: JsonObject, key: string, default: real): real
  {
    if key in prefs && prefs[key].JNumber? then prefs[key].n else default
  }

  /** One boolean field of `{ ...defaults, ...prefs }`. */
  function BoolField(prefs: JsonObject, key: string, default: bool): bool
  {
    if key in prefs && prefs[key].JBool? then prefs[key].b else default
  }

  /** One list field of `{ ...defaults, ...prefs }`. */
  function StringsField(prefs: JsonObject, key: string, default: seq<string>): seq<string>
  {
    if key in prefs && prefs[key].JStrings? then prefs[key].items else default
  }

  /** `{ ...DEFAULT_SETTINGS, ...prefs, apiKey }`: every field the saved
      object holds wins over the default, and the key comes from its own slot. */
  function Merge(prefs: JsonObject, apiKey: string): AppSettings
  {
    AppSettings(
      NumberField(prefs, "checkFrequency", DEFAULT_SETTINGS.checkFrequency),
      BoolField(prefs, "voiceEnabled", DEFAULT_SETTINGS.voiceEnabled),
      BoolField(prefs, "showTraffic", DEFAULT_SETTINGS.showTraffic),
      BoolField(prefs, "showWeather", DEFAULT_SETTINGS.showWeather),
      BoolField(prefs, "showCafes", DEFAULT_SETTINGS.showCafes),
      StringsField(prefs, "gasBrands", DEFAULT_SETTINGS.gasBrands),
      apiKey)
  }

  /** The initial settings state: saved preferences over the defaults, the
      API key from its own slot. */
  function LoadSettings(store: Storage): (settings: AppSettings)
    ensures settings.apiKey == SavedKey(store)
    ensures PREFS_SLOT !in store ==> settings == DEFAULT_SETTINGS.(apiKey := SavedKey(store))
    ensures PREFS_SLOT in store && store[PREFS_SLOT].Object? ==>
      settings == Merge(store[PREFS_SLOT].fields, SavedKey(store))
  {
    if PREFS_SLOT in store && store[PREFS_SLOT].Object? then
      Merge(store[PREFS_SLOT].fields, SavedKey(store))
    else
      DEFAULT_SETTINGS.(apiKey := SavedKey(store))
  }

  /** The storage after `handleSaveSettings`: the preferences slot always
      rewritten without the key, the key slot only for a non-empty key, and
      every other slot untouched. */
  function SaveSettings(store: Storage, settings: AppSettings): (store': Storage)
    ensures PREFS_SLOT in store' && store'[PREFS_SLOT].Object?
    ensures "apiKey" !in store'[PREFS_SLOT].fields
    ensures settings.apiKey != "" ==> API_KEY_SLOT in store' && store'[API_KEY_SLOT] == Text(settings.apiKey)
    ensures settings.apiKey == "" ==>
      (API_KEY_SLOT in store' <==> API_KEY_SLOT in store) &&
      (API_KEY_SLOT in store ==> store'[API_KEY_SLOT] == store[API_KEY_SLOT])
    ensures forall k :: k != API_KEY_SLOT && k != PREFS_SLOT ==>
      (k in store' <==> k in store) && (k in store ==> store'[k] == store[k])
  {
    var withKey := if settings.apiKey != "" then store[API_KEY_SLOT := Text(settings.apiKey)] else store;
    withKey[PREFS_SLOT := Object(PrefsOf(settings))]
  }

  /** Saving then loading gives back the saved settings, except that an
      empty key does not erase the one already stored. */
  lemma LoadAfterSave(store: Storage, settings: AppSettings)
    ensures LoadSettings(SaveSettings(store, settings)) ==
      settings.(apiKey := if settings.apiKey != "" then settings.apiKey else SavedKey(store))
  {
    var saved := SaveSettings(store, settings);
    var prefs := PrefsOf(settings);
    assert saved[PREFS_SLOT] == Object(prefs);
    assert SavedKey(saved) == if settings.apiKey != "" then settings.apiKey else SavedKey(store);
  }
}
