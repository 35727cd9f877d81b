/**
 * The settings store: a flat record of user preferences with defaults, which
 * may only be written once it has been loaded, and the creator record derived
 * from it. Persistence is outside the model; `load` receives what was stored.
 */
module Settings {
  import opened Jskos

  /** A settings value, as JSON. */
  datatype Value = Null | Bool(b: bool) | Str(s: string) | Obj(fields: map<string, Value>)

  type Record = map<string, Value>

  const DefaultSettings: Record := map[
    "creator" := Str(""),
    "creatorUrl" := Str(""),
    "mappingBrowserAllSchemes" := Bool(true),
    "mappingBrowserOnlyLocal" := Bool(false),
    "mappingBrowserShowReverse" := Bool(true),
    "conceptDetailShowAllAncestors" := Bool(false),
    "conceptDetailDoNotTruncateNotes" := Bool(false),
    "mappingBrowserLocal" := Bool(true),
    "mappingBrowserProvider" := Obj(map[]),
    "mappingBrowserCatalog" := Bool(true),
    "mappingBrowserShowRegistry" := Obj(map[]),
    "minimized" := Obj(map[]),
    "flex" := Obj(map[]),
    "mappingBrowserShowAll" := Bool(false),
    "typesForSchemes" := Obj(map[]),
    "locale" := Str(""),
    "autoInsertLabels" := Bool(true),
    "mappingEditorClearOnSave" := Bool(true),
    "favoriteSchemes" := Null]

  /** A string setting, "" when it is missing or not a string. */
  function StringSetting(settings: Record, key: string): (r: string)
    ensures key in settings && settings[key].Str? ==> r == settings[key].s
    ensures key !in settings || !settings[key].Str? ==> r == ""
  {
    if key in settings && settings[key].Str? then settings[key].s else ""
  }

  predicate StartsWith(s: string, prefix: string) {
    |prefix| <= |s| && s[..|prefix|] == prefix
  }

  /**
   * The creator getter: a one-entry label in the chosen locale (English when
   * none) holding the creator name, and a URL only when one is set, made
   * absolute with "http://" unless it already starts with "http".
   */
  function CreatorOf(settings: Record): (r: Creator)
    ensures var locale := StringSetting(settings, "locale");
            |r.prefLabel| == 1
            && r.prefLabel[0] == (if locale != "" then locale else "en", Text(StringSetting(settings, "creator")))
    ensures r.url.Some? <==> StringSetting(settings, "creatorUrl") != ""
    ensures r.url.Some? ==> StartsWith(r.url.value, "http")
    ensures var url := StringSetting(settings, "creatorUrl");
            r.url.Some? ==> if StartsWith(url, "http") then r.url.value == url
                            else r.url.value == "http://" + url
  {
    var locale := StringSetting(settings, "locale");
    var language := if locale != "" then locale else "en";
    var url := StringSetting(settings, "creatorUrl");
    var prefixed := if StartsWith(url, "http") then url else "http://" + url;
    assert StartsWith(url, "http") || prefixed[..4] == "http";
    Creator([(language, Text(StringSetting(settings, "creator")))],
            if url != "" then Some(prefixed) else None)
  }

  /** The settings `load` commits: the stored ones laid over the defaults. */
  function Merge(persisted: Option<Record>): (r: Record)
    ensures DefaultSettings.Keys <= r.Keys
    ensures persisted.None? ==> r == DefaultSettings
    ensures persisted.Some? ==> r.Keys == DefaultSettings.Keys + persisted.value.Keys
    ensures persisted.Some? ==> forall k :: k in persisted.value ==> r[k] == persisted.value[k]
    ensures forall k :: k in DefaultSettings && (persisted.None? || k !in persisted.value) ==>
                          r[k] == DefaultSettings[k]
  {
    if persisted.Some? then DefaultSettings + persisted.value else DefaultSettings
  }

  class SettingsState {
    var settings: Record
    var loaded: bool

    constructor ()
      ensures settings == DefaultSettings && !loaded
    {
      settings := DefaultSettings;
      loaded := false;
    }

    /** Replaces the settings, but only after loading. */
    method Save(newSettings: Record)
      modifies this`settings
      ensures settings == if loaded then newSettings else old(settings)
    {
      if loaded {
        settings := newSettings;
      }
    }

    /** Writes one setting, only after loading; every other key keeps its value. */
    method Set(prop: string, value: Value)
      modifies this`settings
      ensures !loaded ==> settings == old(settings)
      ensures loaded ==> prop in settings && settings[prop] == value
      ensures loaded ==> settings.Keys == old(settings).Keys + {prop}
      ensures forall k :: k in old(settings) && k != prop ==> k in settings && settings[k] == old(settings)[k]
    {
      if loaded {
        settings := settings[prop := value];
      }
    }

    /** Records whether the settings are loaded; the payload defaults to true. */
    method Loaded(isLoaded: bool := true)
      modifies this`loaded
      ensures loaded == isLoaded
    {
      loaded := isLoaded;
    }

    /** Completes `load` with what persistence returned: marks loaded, then saves the merge. */
    method Load(persisted: Option<Record>)
      modifies this
      ensures loaded && settings == Merge(persisted)
    {
      Loaded();
      Save(Merge(persisted));
    }
  }
}
