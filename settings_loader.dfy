/**
 * `loadVADSettings`/`saveVADSettings`: the VAD settings kept as JSON under one
 * key of the browser's key store. `JSON.parse` and `JSON.stringify` are
 * parameters: `parse` yields `None` where it would throw a SyntaxError.
 */
module SettingsLoader {
  import opened Wrappers
  import opened ExtNum
  import opened JsValue
  import Vad

  const StorageKey := "vadSettings"

  /** Settings as the plain object the loader returns. */
  function SettingsValue(s: Vad.Settings): (r: Value)
    ensures r.Object? && r.props.Keys == {"startThreshold", "stopThreshold",
      "minSpeechDuration", "minSilenceDuration", "smoothingFactor"}
  {
    Object(map[
      "startThreshold" := Number(Fin(s.startThreshold)),
      "stopThreshold" := Number(Fin(s.stopThreshold)),
      "minSpeechDuration" := Number(Fin(s.minSpeechDuration)),
      "minSilenceDuration" := Number(Fin(s.minSilenceDuration)),
      "smoothingFactor" := Number(Fin(s.smoothingFactor))])
  }

  /** What an old-format record is converted to. */
  const Migrated := SettingsValue(Vad.Settings(-16.0, -20.0, 200.0, 200.0, 0.9))

  /** What is returned when nothing usable is stored. */
  const Defaults := SettingsValue(Vad.Settings(-16.0, -20.0, 200.0, 200.0, 0.9))

  /** A property that is present and not `undefined`. */
  predicate Defined(v: Value, key: string)
  {
    v.Object? && key in v.props && v.props[key] != Undefined
  }

  /**
   * The branch over a parsed record. Reading a property of `null` throws,
   * which the surrounding `try` turns into the defaults.
   */
  function Select(parsed: Value): Value
  {
    match Get(parsed, "startThreshold")
    case Failure(_) => Defaults
    case Success(start) =>
      var stop := GetOptional(parsed, "stopThreshold");
      if start != Undefined && stop != Undefined then parsed
      else if GetOptional(parsed, "speakingThreshold") != Undefined then Migrated
      else Defaults
  }

  /** `loadVADSettings` for the stored string, if any. */
  function Load(saved: Option<string>, parse: string -> Option<Value>): Value
  {
    match saved
    case None => Defaults
    case Some(text) =>
      if text == "" then Defaults       // the empty string is falsy
      else match parse(text)
        case None => Defaults
        case Some(parsed) => Select(parsed)
  }

  /** A record in the new format comes back unchanged, whatever else it holds or lacks. */
  lemma LoadNewFormat(text: string, parse: string -> Option<Value>, parsed: Value)
    requires text != "" && parse(text) == Some(parsed)
    requires Defined(parsed, "startThreshold") && Defined(parsed, "stopThreshold")
    ensures Load(Some(text), parse) == parsed
  {
  }

  /** An old-format record is replaced by fixed settings, whatever its own values. */
  lemma LoadOldFormat(text: string, parse: string -> Option<Value>, parsed: Value)
    requires text != "" && parse(text) == Some(parsed)
    requires !(Defined(parsed, "startThreshold") && Defined(parsed, "stopThreshold"))
    requires Defined(parsed, "speakingThreshold")
    ensures Load(Some(text), parse) == Migrated
    ensures Migrated == Defaults
  {
  }

  /**
   * Nothing stored, an empty string, text that does not parse, `null`, and a
   * record in neither format all give the defaults.
   */
  lemma LoadFallsBack(saved: Option<string>, parse: string -> Option<Value>)
    requires || saved == None || saved == Some("")
             || parse(saved.value) == None
             || parse(saved.value) == Some(Null)
             || (parse(saved.value).Some? &&
                 var p := parse(saved.value).value;
                 !(Defined(p, "startThreshold") && Defined(p, "stopThreshold")) && !Defined(p, "speakingThreshold"))
    ensures Load(saved, parse) == Defaults
  {
  }

  /**
   * The loader never fails, and whatever it returns has both thresholds of
   * the new format defined.
   */
  lemma LoadHasThresholds(saved: Option<string>, parse: string -> Option<Value>)
    ensures var r := Load(saved, parse);
      Defined(r, "startThreshold") && Defined(r, "stopThreshold")
      && (r != Defaults ==> saved.Some? && parse(saved.value) == Some(r))
  {
    match saved
    case None =>
    case Some(text) =>
      if text != "" && parse(text).Some? {
        var parsed := parse(text).value;
        if Select(parsed) == parsed && parsed != Defaults && parsed != Migrated {
          assert Get(parsed, "startThreshold").Success?;
          assert Get(parsed, "startThreshold").value != Undefined;
        }
      }
  }

  /** The browser's key store. */
  class KeyStore {
    var items: map<string, string>

    constructor (items: map<string, string>)
      ensures this.items == items
    {
      this.items := items;
    }

    /** `localStorage.getItem`. */
    function GetItem(key: string): (r: Option<string>)
      reads this
      ensures r.Some? <==> key in items
      ensures r.Some? ==> r.value == items[key]
    {
      if key in items then Some(items[key]) else None
    }

    /** `localStorage.setItem`. */
    method SetItem(key: string, text: string)
      modifies this
      ensures items == old(items)[key := text]
    {
      items := items[key := text];
    }

    /** `saveVADSettings`. */
    method SaveVadSettings(settings: Value, stringify: Value -> string)
      modifies this
      ensures items == old(items)[StorageKey := stringify(settings)]
    {
      SetItem(StorageKey, stringify(settings));
    }

    /** `loadVADSettings`. */
    method LoadVadSettings(parse: string -> Option<Value>) returns (r: Value)
      ensures r == Load(GetItem(StorageKey), parse)
      ensures Defined(r, "startThreshold") && Defined(r, "stopThreshold")
    {
      LoadHasThresholds(GetItem(StorageKey), parse);
      var saved := GetItem(StorageKey);
      if saved == None || saved.value == "" {
        return Defaults;
      }
      var parsed := parse(saved.value);
      if parsed == None {
        return Defaults;
      }
      r := Select(parsed.value);
    }
  }

  /**
   * Saving then loading gives back the saved record when it is in the new
   * format and the JSON codec round-trips it.
   */
  lemma SaveThenLoad(items: map<string, string>, settings: Value,
                     stringify: Value -> string, parse: string -> Option<Value>)
    requires Defined(settings, "startThreshold") && Defined(settings, "stopThreshold")
    requires stringify(settings) != "" && parse(stringify(settings)) == Some(settings)
    ensures var stored := items[StorageKey := stringify(settings)];
      Load(if StorageKey in stored then Some(stored[StorageKey]) else None, parse) == settings
  {
    LoadNewFormat(stringify(settings), parse, settings);
  }

  /** Any `Vad.Settings` round-trips through the store. */
  lemma SettingsRoundTrip(items: map<string, string>, s: Vad.Settings,
                          stringify: Value -> string, parse: string -> Option<Value>)
    requires stringify(SettingsValue(s)) != "" && parse(stringify(SettingsValue(s))) == Some(SettingsValue(s))
    ensures var stored := items[StorageKey := stringify(SettingsValue(s))];
      Load(Some(stored[StorageKey]), parse) == SettingsValue(s)
  {
    SaveThenLoad(items, SettingsValue(s), stringify, parse);
  }
}
