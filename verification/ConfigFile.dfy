/**
init.yaml as a tree: what a config is written as, how a tree is read back, and
how a save edits the tree that is already there.  The text of the file is taken
to be a faithful rendering of the tree.
*/
module ConfigFile {
  import opened Wrappers
  import opened Text
  import opened Config
  import opened YamlMerge

  datatype ConfigFile = ConfigFile(
    host: string, port: int,
    browserBackend: string, browserPath: string,
    driverPath: string, driverCacheDir: string, driverAutoDownload: Option<bool>,
    chromeForTestingURL: string,
    headless: Option<bool>, startupUserAgent: string,
    logLevel: string, logHTML: Option<bool>, disableMedia: Option<bool>,
    prometheusEnabled: Option<bool>, prometheusPort: int,
    proxy: Option<Proxy>)

  // configFileFromConfig
  function FileOf(c: Config): ConfigFile {
    ConfigFile(
      c.host, c.port, c.browserBackend, c.browserPath, c.driverPath, c.driverCacheDir, Some(c.driverAutoDownload),
      c.chromeForTestingURL, Some(c.headless), c.startupUserAgent, CanonicalLogLevel(c.logLevel), Some(c.logHTML),
      Some(c.disableMedia), Some(c.prometheusEnabled), c.prometheusPort,
      if c.defaultProxy.Some? && !Blank(c.defaultProxy.value.url) then c.defaultProxy else None)
  }

  // Marshalling.  -------------------------------------------------------------

  const NO_COMMENTS := Comments("", "", "")

  function StrNode(s: string): Node { ScalarNode(Str(s), NO_COMMENTS) }

  function IntNode(n: int): Node {
    ScalarNode(Int(n, if n < 0 then "-" + Decimal(-n) else Decimal(n)), NO_COMMENTS)
  }

  function BoolNode(b: Option<bool>): Node {
    ScalarNode(match b case Some(v) => Bool(v, if v then "true" else "false") case None => Null("null"), NO_COMMENTS)
  }

  // omitempty
  function Optional(s: string): Option<Node> {
    if s == "" then None else Some(StrNode(s))
  }

  function ProxyNode(p: Proxy): Node {
    MappingNodeOf(
      [Entry("url", NO_COMMENTS, StrNode(p.url)),
       Entry("username", NO_COMMENTS, StrNode(p.username)),
       Entry("password", NO_COMMENTS, StrNode(p.password))],
      NO_COMMENTS)
  }

  datatype Field = Field(name: string, value: Option<Node>)

  // The struct's fields in order, under their yaml names.
  function FieldOf(f: ConfigFile, i: nat): Field {
    match i
    case 0 => Field("host", Some(StrNode(f.host)))
    case 1 => Field("port", Some(IntNode(f.port)))
    case 2 => Field("browser_backend", Optional(f.browserBackend))
    case 3 => Field("browser_path", Optional(f.browserPath))
    case 4 => Field("driver_path", Optional(f.driverPath))
    case 5 => Field("driver_cache_dir", Optional(f.driverCacheDir))
    case 6 => Field("driver_auto_download", Some(BoolNode(f.driverAutoDownload)))
    case 7 => Field("chrome_for_testing_url", Optional(f.chromeForTestingURL))
    case 8 => Field("headless", Some(BoolNode(f.headless)))
    case 9 => Field("startup_user_agent", Optional(f.startupUserAgent))
    case 10 => Field("log_level", Optional(f.logLevel))
    case 11 => Field("log_html", Some(BoolNode(f.logHTML)))
    case 12 => Field("disable_media", Some(BoolNode(f.disableMedia)))
    case 13 => Field("prometheus_enabled", Some(BoolNode(f.prometheusEnabled)))
    case 14 => Field("prometheus_port", Some(IntNode(f.prometheusPort)))
    case _ => Field("proxy", if f.proxy.Some? then Some(ProxyNode(f.proxy.value)) else None)
  }

  const FIELD_COUNT: nat := 16

  function Fields(f: ConfigFile): seq<Field> {
    seq(FIELD_COUNT, i requires 0 <= i < FIELD_COUNT => FieldOf(f, i))
  }

  const NAMES: seq<string> := [
    "host", "port", "browser_backend", "browser_path", "driver_path", "driver_cache_dir", "driver_auto_download",
    "chrome_for_testing_url", "headless", "startup_user_agent", "log_level", "log_html", "disable_media",
    "prometheus_enabled", "prometheus_port", "proxy"]

  // configFileKeys: the keys the struct owns.
  function Owned(): set<string> { set k | k in NAMES }

  function Present(fields: seq<Field>): seq<Entry> {
    if fields == [] then []
    else
      var n := |fields| - 1;
      Present(fields[..n])
      + match fields[n].value
        case Some(v) => [Entry(fields[n].name, NO_COMMENTS, v)]
        case None => []
  }

  function Encode(f: ConfigFile): seq<Entry> {
    Present(Fields(f))
  }

  // Unmarshalling.  -----------------------------------------------------------
  // The outer None is a decoding error.

  function StrAt(es: seq<Entry>, k: string): Option<string> {
    match Lookup(es, k)
    case None => Some("")
    case Some(v) =>
      if !v.ScalarNode? then None
      else if v.scalar.Null? then Some("")
      else Some(v.scalar.text)
  }

  function IntAt(es: seq<Entry>, k: string): Option<int> {
    match Lookup(es, k)
    case None => Some(0)
    case Some(v) =>
      if v.ScalarNode? && v.scalar.Int? then Some(v.scalar.n)
      else if v.ScalarNode? && v.scalar.Null? then Some(0)
      else None
  }

  function BoolAt(es: seq<Entry>, k: string): Option<Option<bool>> {
    match Lookup(es, k)
    case None => Some(None)
    case Some(v) =>
      if v.ScalarNode? && v.scalar.Bool? then Some(Some(v.scalar.b))
      else if v.ScalarNode? && v.scalar.Null? then Some(None)
      else None
  }

  // A proxy must be a mapping; any scalar but null does not decode as one.
  function ProxyAt(es: seq<Entry>, k: string): Option<Option<Proxy>> {
    match Lookup(es, k)
    case None => Some(None)
    case Some(v) =>
      if v.ScalarNode? && v.scalar.Null? then Some(None)
      else if !v.MappingNodeOf? || !Distinct(v.entries) then None
      else
        match (StrAt(v.entries, "url"), StrAt(v.entries, "username"), StrAt(v.entries, "password"))
        case (Some(u), Some(n), Some(p)) => Some(Some(Proxy(u, n, p)))
        case _ => None
  }

  function Decode(es: seq<Entry>): Option<ConfigFile> {
    if !Distinct(es) then None
    else
      var host, backend, browser := StrAt(es, "host"), StrAt(es, "browser_backend"), StrAt(es, "browser_path");
      var driver, cache := StrAt(es, "driver_path"), StrAt(es, "driver_cache_dir");
      var chrome, agent := StrAt(es, "chrome_for_testing_url"), StrAt(es, "startup_user_agent");
      var level := StrAt(es, "log_level");
      var port, promPort := IntAt(es, "port"), IntAt(es, "prometheus_port");
      var auto, headless, html := BoolAt(es, "driver_auto_download"), BoolAt(es, "headless"), BoolAt(es, "log_html");
      var media, prom := BoolAt(es, "disable_media"), BoolAt(es, "prometheus_enabled");
      var proxy := ProxyAt(es, "proxy");
      if host.None? || backend.None? || browser.None? || driver.None? || cache.None? || chrome.None? || agent.None?
         || level.None? || port.None? || promPort.None? || auto.None? || headless.None? || html.None? || media.None?
         || prom.None? || proxy.None?
      then None
      else Some(ConfigFile(
        host.value, port.value, backend.value, browser.value, driver.value, cache.value, auto.value, chrome.value,
        headless.value, agent.value, level.value, html.value, media.value, prom.value, promPort.value, proxy.value))
  }

  // Loading.  -----------------------------------------------------------------

  function Or(s: string, otherwise: string): string {
    if !Blank(s) then s else otherwise
  }

  // applyConfigFile: the config with everything the file sets.
  function Overlay(c: Config, f: ConfigFile): Config {
    c.(host := Or(f.host, c.host),
       port := if f.port > 0 then f.port else c.port,
       browserBackend := if !Blank(f.browserBackend) then CanonicalBackend(f.browserBackend) else c.browserBackend,
       browserPath := Or(f.browserPath, c.browserPath),
       driverPath := Or(f.driverPath, c.driverPath),
       driverCacheDir := Or(f.driverCacheDir, c.driverCacheDir),
       driverAutoDownload := f.driverAutoDownload.GetOr(c.driverAutoDownload),
       chromeForTestingURL := Or(f.chromeForTestingURL, c.chromeForTestingURL),
       headless := f.headless.GetOr(c.headless),
       startupUserAgent := Or(f.startupUserAgent, c.startupUserAgent),
       logLevel := if !Blank(f.logLevel) then CanonicalLogLevel(f.logLevel) else c.logLevel,
       logHTML := f.logHTML.GetOr(c.logHTML),
       disableMedia := f.disableMedia.GetOr(c.disableMedia),
       prometheusEnabled := f.prometheusEnabled.GetOr(c.prometheusEnabled),
       prometheusPort := if f.prometheusPort > 0 then f.prometheusPort else c.prometheusPort,
       defaultProxy := if f.proxy.Some? && !Blank(f.proxy.value.url) then f.proxy else c.defaultProxy)
  }

  // applyEnvConfig when no variable is set.
  function WithEmptyEnv(c: Config): Config {
    c.(browserPath := Or(c.browserPath, ""),
       driverPath := Or(c.driverPath, ""),
       driverCacheDir := Or(c.driverCacheDir, ""),
       chromeForTestingURL := Or(c.chromeForTestingURL, ""),
       startupUserAgent := Or(c.startupUserAgent, ""),
       logLevel := Or(c.logLevel, ""))
  }

  // The file a save finds.
  datatype Existing =
    | NoFile
    | Malformed           // not YAML
    | Document(root: Node)

  // loadConfig: a file that cannot be read or decoded is ignored.
  function Load(file: Existing): Config {
    var decoded := if file.Document? && file.root.MappingNodeOf? then Decode(file.root.entries) else None;
    Prepare(WithEmptyEnv(match decoded case Some(f) => Overlay(DEFAULTS, f) case None => DEFAULTS))
  }

  // renderConfigYAML: edit the existing mapping, or start afresh when there is none.
  function Render(file: Existing, f: ConfigFile): Node {
    if file.Document? && file.root.MappingNodeOf? then
      MappingNodeOf(Merged(file.root.entries, Encode(f), Owned()), file.root.comments)
    else
      MappingNodeOf(Encode(f), NO_COMMENTS)
  }

  // SaveConfig
  function Save(file: Existing, c: Config): Existing {
    Document(Render(file, FileOf(c)))
  }

  ghost predicate WellFormedFile(file: Existing) {
    file.Document? && file.root.MappingNodeOf? ==> DeepDistinct(file.root.entries)
  }
}
