/** The settings store of `OllamaMonitor`: loading the settings file with its
    defaults and one-time migration, the `api_url` accessor, and the two edits the
    settings window makes (the API URL and the startup flag). A save is an event
    carrying the whole map that would be written to the file. */
module Settings {
  import opened Wrappers
  import opened PyText
  import opened Json

  /** The decoded top-level JSON object of the settings file. */
  type Settings = map<string, Value>

  const StartupKey := "startup"
  const ApiUrlKey := "api_url"
  /** The two keys of the older schema, replaced by `api_url`. */
  const LegacyHostKey := "api_host"
  const LegacyPortKey := "api_port"

  const DefaultApiHost := "localhost"
  const DefaultApiPort := "11434"

  /** `http://localhost:11434`. */
  function DefaultApiUrl(): string {
    "http://" + DefaultApiHost + ":" + DefaultApiPort
  }

  /** The settings used when no usable file exists. */
  function Defaults(): Settings {
    map[StartupKey := Bool(false), ApiUrlKey := Str(DefaultApiUrl())]
  }

  /** What reading the settings file produced: no file, a file that could not be
      opened or decoded, or a decoded object. */
  datatype SettingsFile = Missing | Unreadable | Parsed(contents: Settings)

  /** The in-memory settings after loading, and the map written back, if any. */
  datatype Loaded = Loaded(settings: Settings, save: Option<Settings>)

  /** Both keys of the older host/port schema are present. */
  predicate IsLegacy(m: Settings) {
    LegacyHostKey in m && LegacyPortKey in m
  }

  /** The URL synthesised from the older schema: `f'http://{host}:{port}'`. */
  function LegacyUrl(host: Value, port: Value): string {
    "http://" + PyStr(host) + ":" + PyStr(port)
  }

  /** Replaces the host/port pair by an `api_url` built from it. */
  function Migrate(m: Settings): (r: Settings)
    requires IsLegacy(m)
    ensures !IsLegacy(r) && LegacyHostKey !in r && LegacyPortKey !in r
    ensures ApiUrlKey in r && r[ApiUrlKey] == Str(LegacyUrl(m[LegacyHostKey], m[LegacyPortKey]))
    ensures forall k :: k in m && k != LegacyHostKey && k != LegacyPortKey && k != ApiUrlKey
                        ==> k in r && r[k] == m[k]
    ensures forall k :: k in r ==> k in m || k == ApiUrlKey
  {
    var url := LegacyUrl(m[LegacyHostKey], m[LegacyPortKey]);
    (m - {LegacyHostKey, LegacyPortKey})[ApiUrlKey := Str(url)]
  }

  /** `load_settings`: a missing file yields the defaults and writes them; an
      unreadable file yields the defaults without writing; a decoded file is used
      as is, except that the legacy pair is migrated and the result written. */
  function Load(f: SettingsFile): (r: Loaded)
    ensures r.save.Some? <==> f.Missing? || (f.Parsed? && IsLegacy(f.contents))
    ensures r.save.Some? ==> r.save.value == r.settings
    ensures !IsLegacy(r.settings)
    ensures !f.Parsed? ==> r.settings == Defaults()
    ensures f.Parsed? && !IsLegacy(f.contents) ==> r.settings == f.contents
    ensures f.Parsed? && IsLegacy(f.contents) ==> r.settings == Migrate(f.contents)
  {
    match f
    case Missing => Loaded(Defaults(), Some(Defaults()))
    case Unreadable => Loaded(Defaults(), None)
    case Parsed(m) =>
      if IsLegacy(m) then
        var migrated := Migrate(m);
        Loaded(migrated, Some(migrated))
      else Loaded(m, None)
  }

  /** The `api_url` property: the stored value, or the default URL when absent. */
  function ApiUrl(m: Settings): (r: Value)
    ensures ApiUrlKey in m ==> r == m[ApiUrlKey]
    ensures ApiUrlKey !in m ==> r == Str("http://localhost:11434")
  {
    assert DefaultApiUrl() == "http://localhost:11434";
    if ApiUrlKey in m then m[ApiUrlKey] else Str(DefaultApiUrl())
  }

  /** Loading what a load wrote (or holds) again is stable: no second migration,
      no second write, the same settings. */
  lemma ReloadIsStable(f: SettingsFile)
    ensures Load(Parsed(Load(f).settings)) == Loaded(Load(f).settings, None)
  {
  }

  /** After loading, `api_url` is the default unless the file supplied one, and
      after a migration it is the URL built from the old host and port. */
  lemma ApiUrlAfterLoad(f: SettingsFile)
    ensures !f.Parsed? ==> ApiUrl(Load(f).settings) == Str("http://localhost:11434")
    ensures f.Parsed? && IsLegacy(f.contents) ==>
      ApiUrl(Load(f).settings) == Str("http://" + PyStr(f.contents[LegacyHostKey]) + ":" + PyStr(f.contents[LegacyPortKey]))
    ensures f.Parsed? && !IsLegacy(f.contents) && ApiUrlKey in f.contents ==>
      ApiUrl(Load(f).settings) == f.contents[ApiUrlKey]
    ensures f.Parsed? && !IsLegacy(f.contents) && ApiUrlKey !in f.contents ==>
      ApiUrl(Load(f).settings) == Str("http://localhost:11434")
  {
  }

  /** Only one of the legacy keys present: nothing is migrated or written. */
  lemma HalfLegacyUntouched(m: Settings)
    requires (LegacyHostKey in m) != (LegacyPortKey in m)
    ensures Load(Parsed(m)) == Loaded(m, None)
  {
  }

  /** The legacy file `{"api_host": "x", "api_port": "1"}` becomes
      `{"api_url": "http://x:1"}`, written once. */
  lemma LegacyExample()
    ensures Load(Parsed(map[LegacyHostKey := Str("x"), LegacyPortKey := Str("1")]))
         == Loaded(map[ApiUrlKey := Str("http://x:1")], Some(map[ApiUrlKey := Str("http://x:1")]))
  {
    var m := map[LegacyHostKey := Str("x"), LegacyPortKey := Str("1")];
    assert LegacyUrl(Str("x"), Str("1")) == "http://x:1";
    var r := Load(Parsed(m)).settings;
    assert r.Keys == {ApiUrlKey};
    assert r == map[ApiUrlKey := Str("http://x:1")];
  }

  /** What `urlparse` gives: the two fields the validity check reads, or the
      text of the `ValueError` it raises (such as "Invalid IPv6 URL" for an
      unbalanced bracket). */
  datatype UrlParse = UrlParts(scheme: string, netloc: string) | ParseError(message: string)

  /** The validity check: parsed, with a non-empty scheme and network location. */
  predicate Accepted(p: UrlParse) {
    p.UrlParts? && p.scheme != "" && p.netloc != ""
  }

  /** What the settings window reports after a save attempt. */
  datatype Feedback = Notify(text: string) | ErrorDialog(text: string)

  /** The settings after a save attempt, the map written, and the feedback shown. */
  datatype ApiSave = ApiSave(settings: Settings, save: Option<Settings>, feedback: Feedback)

  const SavedNotice := "API settings saved and connection updated!"
  const ErrorPrefix := "Invalid API URL: "
  const InvalidUrlFormat := "Invalid URL format"

  /** `save_api_settings`: the entry is stripped and parsed with `urlparse`
      (a parameter here); it is accepted exactly when `urlparse` succeeds and both
      the scheme and the network location are non-empty. An accepted URL replaces
      `api_url` and is written; a rejected one changes nothing and raises the error
      dialog with the text of the exception: the parser's own message, or
      "Invalid URL format" from the validity check. */
  function SaveApiUrl(s: Settings, entry: string, urlparse: string -> UrlParse): (r: ApiSave)
    ensures r.save.Some? <==> Accepted(urlparse(Strip(entry)))
    ensures r.save.Some? ==> r.save.value == r.settings && r.feedback == Notify(SavedNotice)
    ensures r.save.Some? ==> ApiUrlKey in r.settings && r.settings[ApiUrlKey] == Str(Strip(entry))
    ensures r.save.Some? ==> forall k :: k in s && k != ApiUrlKey ==> k in r.settings && r.settings[k] == s[k]
    ensures r.save.Some? ==> r.settings.Keys == s.Keys + {ApiUrlKey}
    ensures r.save.None? ==> r.settings == s
    ensures urlparse(Strip(entry)).ParseError? ==>
      r.feedback == ErrorDialog(ErrorPrefix + urlparse(Strip(entry)).message)
    ensures urlparse(Strip(entry)).UrlParts? && r.save.None? ==>
      r.feedback == ErrorDialog(ErrorPrefix + InvalidUrlFormat)
  {
    var url := Strip(entry);
    match urlparse(url)
    case ParseError(message) =>
      ApiSave(s, None, ErrorDialog(ErrorPrefix + message))
    case UrlParts(scheme, netloc) =>
      if scheme == "" || netloc == "" then
        ApiSave(s, None, ErrorDialog(ErrorPrefix + InvalidUrlFormat))
      else
        var updated := s[ApiUrlKey := Str(url)];
        ApiSave(updated, Some(updated), Notify(SavedNotice))
  }

  /** An accepted URL is stored without surrounding whitespace, and re-saving the
      stored URL leaves the settings as they are. */
  lemma SavedUrlIsStable(s: Settings, entry: string, urlparse: string -> UrlParse)
    requires SaveApiUrl(s, entry, urlparse).save.Some?
    ensures ApiUrl(SaveApiUrl(s, entry, urlparse).settings) == Str(Strip(entry))
    ensures IsStripped(Strip(entry))
    ensures var t := SaveApiUrl(s, entry, urlparse).settings;
            SaveApiUrl(t, Strip(entry), urlparse).settings == t
  {
    var url := Strip(entry);
    var t := SaveApiUrl(s, entry, urlparse).settings;
    StripIdempotent(entry);
    assert Strip(url) == url && Accepted(urlparse(url));
    assert t[ApiUrlKey := Str(url)] == t;
  }

  /** A rejected URL, whether `urlparse` raised or a field was empty, leaves the
      URL the client uses untouched, writes nothing and shows an error dialog. */
  lemma RejectedKeepsApiUrl(s: Settings, entry: string, urlparse: string -> UrlParse)
    requires !Accepted(urlparse(Strip(entry)))
    ensures ApiUrl(SaveApiUrl(s, entry, urlparse).settings) == ApiUrl(s)
    ensures SaveApiUrl(s, entry, urlparse).save == None
    ensures SaveApiUrl(s, entry, urlparse).feedback.ErrorDialog?
  {
  }

  /** An unbalanced IPv6 bracket makes `urlparse` raise, and its message, not
      the fixed format error, reaches the dialog. */
  lemma InvalidIpv6Shown(s: Settings, entry: string, urlparse: string -> UrlParse)
    requires urlparse(Strip(entry)) == ParseError("Invalid IPv6 URL")
    ensures SaveApiUrl(s, entry, urlparse) == ApiSave(s, None, ErrorDialog("Invalid API URL: Invalid IPv6 URL"))
  {
  }

  /** The settings part of `toggle_startup`: the flag is stored and the map
      written; the registry entry is not modelled. */
  function ToggleStartup(s: Settings, on: bool): (r: Loaded)
    ensures r.save == Some(r.settings)
    ensures StartupKey in r.settings && r.settings[StartupKey] == Bool(on)
    ensures forall k :: k in s && k != StartupKey ==> k in r.settings && r.settings[k] == s[k]
    ensures r.settings.Keys == s.Keys + {StartupKey}
  {
    var updated := s[StartupKey := Bool(on)];
    Loaded(updated, Some(updated))
  }

  /** Toggling the startup flag never changes the URL the client uses. */
  lemma ToggleKeepsApiUrl(s: Settings, on: bool)
    ensures ApiUrl(ToggleStartup(s, on).settings) == ApiUrl(s)
  {
  }
}
