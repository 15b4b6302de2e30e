// The configuration, its defaults and canonical forms, and the settings payload.
module Config {
  import opened Wrappers
  import opened Text

  datatype Proxy = Proxy(url: string, username: string, password: string)

  // The logger is derived from logLevel and is not part of the model.
  datatype Config = Config(
    host: string, port: int,
    browserBackend: string, browserPath: string,
    driverPath: string, driverCacheDir: string, driverAutoDownload: bool,
    chromeForTestingURL: string,
    headless: bool, startupUserAgent: string,
    logLevel: string, logHTML: bool, debugLogging: bool, disableMedia: bool,
    prometheusEnabled: bool, prometheusPort: int,
    defaultProxy: Option<Proxy>,
    version: string)

  const DEFAULT_CHROME_URL := "https:" + "//googlechromelabs.github.io" + "/chrome-for-testing"
  const DEFAULT_VERSION := "1.0.6"

  const DEFAULTS := Config(
    "0.0.0.0", 8191, "auto", "", "", "", true, DEFAULT_CHROME_URL,
    true, "", "info", false, false, false, false, 8192, None, DEFAULT_VERSION)

  function WithDefaults(c: Config): Config {
    c.(host := if c.host == "" then DEFAULTS.host else c.host,
       port := if c.port == 0 then DEFAULTS.port else c.port,
       browserBackend := if c.browserBackend == "" then DEFAULTS.browserBackend else c.browserBackend,
       chromeForTestingURL :=
         if c.chromeForTestingURL == "" then DEFAULTS.chromeForTestingURL else c.chromeForTestingURL,
       logLevel := if c.logLevel == "" then DEFAULTS.logLevel else c.logLevel,
       prometheusPort := if c.prometheusPort == 0 then DEFAULTS.prometheusPort else c.prometheusPort,
       version := if c.version == "" then DEFAULTS.version else c.version)
  }

  function CanonicalLogLevel(raw: string): string {
    var word := Lower(Trim(raw));
    if word == "debug" then "debug"
    else if word == "warn" || word == "warning" then "warn"
    else if word == "error" then "error"
    else "info"
  }

  function CanonicalBackend(raw: string): string {
    var word := Lower(Trim(raw));
    if word == "geckodriver" || word == "firefox" || word == "camoufox" then "geckodriver"
    else if word == "chromedriver" || word == "chrome" || word == "chromium" then "chromedriver"
    else "auto"
  }

  function Prepare(c: Config): Config {
    var d := WithDefaults(c);
    var level := CanonicalLogLevel(d.logLevel);
    d.(logLevel := level, debugLogging := CanonicalLogLevel(level) == "debug")
  }

  lemma LogLevelWords(w: string)
    requires w in {"debug", "info", "warn", "error"}
    ensures CanonicalLogLevel(w) == w == Lower(Trim(w)) == Trim(w)
  {
    PlainWord(w);
  }

  lemma BackendWords(w: string)
    requires w in {"auto", "chromedriver", "geckodriver"}
    ensures CanonicalBackend(w) == w == Lower(Trim(w)) == Trim(w)
  {
    hide Trim, Lower;
    PlainWord(w);
    assert |w| == 4 || |w| == 12 || |w| == 11;
  }

  lemma LogLevelFixed(raw: string)
    ensures CanonicalLogLevel(CanonicalLogLevel(raw)) == CanonicalLogLevel(raw)
  {
    LogLevelWords(CanonicalLogLevel(raw));
  }

  // Preparing a config twice is preparing it once: the server, the service and
  // the session store each prepare their own copy and still agree.
  lemma PrepareIdempotent(c: Config)
    ensures Prepare(Prepare(c)) == Prepare(c)
  {
    LogLevelFixed(WithDefaults(c).logLevel);
  }

  // The settings page.  -------------------------------------------------------

  datatype Payload = Payload(
    host: string, port: int,
    browserBackend: string, browserPath: string,
    driverPath: string, driverCacheDir: string, driverAutoDownload: bool,
    chromeForTestingURL: string,
    headless: bool, startupUserAgent: string,
    logLevel: string, logHTML: bool, disableMedia: bool,
    prometheusEnabled: bool, prometheusPort: int,
    proxyURL: string, proxyUsername: string, proxyPassword: string)

  // What the library's URL parser says about a string.
  datatype UrlRules = UrlRules(https: string -> bool, absolute: string -> bool)

  datatype Refusal =
    | HostRequired | BadPort | BadPrometheusPort | PortsCollide
    | BadChromeURL | BadLogLevel | BadBackend | BadProxyURL

  function PayloadOf(c: Config): Payload {
    Payload(
      c.host, c.port, CanonicalBackend(c.browserBackend), c.browserPath, c.driverPath, c.driverCacheDir,
      c.driverAutoDownload, c.chromeForTestingURL, c.headless, c.startupUserAgent,
      CanonicalLogLevel(c.logLevel), c.logHTML, c.disableMedia, c.prometheusEnabled, c.prometheusPort,
      if c.defaultProxy.Some? then c.defaultProxy.value.url else "",
      if c.defaultProxy.Some? then c.defaultProxy.value.username else "",
      if c.defaultProxy.Some? then c.defaultProxy.value.password else "")
  }

  function Refused(rules: UrlRules, p: Payload): Option<Refusal> {
    var url := Trim(p.chromeForTestingURL);
    var level := Lower(Trim(p.logLevel));
    var backend := Lower(Trim(p.browserBackend));
    var proxyURL := Trim(p.proxyURL);
    if Trim(p.host) == "" then Some(HostRequired)
    else if p.port <= 0 || p.port > 65535 then Some(BadPort)
    else if p.prometheusPort <= 0 || p.prometheusPort > 65535 then Some(BadPrometheusPort)
    else if p.port == p.prometheusPort then Some(PortsCollide)
    else if url != "" && !rules.https(url) then Some(BadChromeURL)
    else if Trim(p.logLevel) != "" && CanonicalLogLevel(p.logLevel) != level && level != "warning" then
      Some(BadLogLevel)
    else if Trim(p.browserBackend) != "" && CanonicalBackend(p.browserBackend) == "auto" && backend != "auto" then
      Some(BadBackend)
    else if proxyURL != "" && !rules.absolute(proxyURL) then Some(BadProxyURL)
    else None
  }

  // toConfig
  function ToConfig(rules: UrlRules, p: Payload, base: Config): Result<Config, Refusal> {
    match Refused(rules, p)
    case Some(e) => Err(e)
    case None =>
      var d := WithDefaults(base);
      Ok(Config(
        Trim(p.host), p.port,
        CanonicalBackend(p.browserBackend), Trim(p.browserPath),
        Trim(p.driverPath), Trim(p.driverCacheDir), p.driverAutoDownload,
        Trim(p.chromeForTestingURL),
        p.headless, Trim(p.startupUserAgent),
        CanonicalLogLevel(p.logLevel), p.logHTML, d.debugLogging, p.disableMedia,
        p.prometheusEnabled, p.prometheusPort,
        if Trim(p.proxyURL) == "" then None
        else Some(Proxy(Trim(p.proxyURL), Trim(p.proxyUsername), p.proxyPassword)),
        d.version))
  }

  // What is true of every config the settings page can produce.
  predicate Trimmed(s: string) { Trim(s) == s }

  ghost predicate Accepted(rules: UrlRules, c: Config) {
    && c.host != "" && Trimmed(c.host)
    && 1 <= c.port <= 65535 && 1 <= c.prometheusPort <= 65535 && c.port != c.prometheusPort
    && c.browserBackend in {"auto", "chromedriver", "geckodriver"}
    && Trimmed(c.browserPath) && Trimmed(c.driverPath) && Trimmed(c.driverCacheDir)
    && Trimmed(c.chromeForTestingURL) && (c.chromeForTestingURL != "" ==> rules.https(c.chromeForTestingURL))
    && Trimmed(c.startupUserAgent)
    && c.logLevel in {"debug", "info", "warn", "error"}
    && (c.defaultProxy.Some? ==>
          && c.defaultProxy.value.url != "" && Trimmed(c.defaultProxy.value.url)
          && rules.absolute(c.defaultProxy.value.url) && Trimmed(c.defaultProxy.value.username))
    && c.version != ""
  }

  lemma ToConfigAccepts(rules: UrlRules, p: Payload, base: Config)
    ensures var r := ToConfig(rules, p, base); r.Ok? ==> Accepted(rules, r.value)
  {
    TrimIdempotent(p.host);
    TrimIdempotent(p.browserPath);
    TrimIdempotent(p.driverPath);
    TrimIdempotent(p.driverCacheDir);
    TrimIdempotent(p.chromeForTestingURL);
    TrimIdempotent(p.startupUserAgent);
    TrimIdempotent(p.proxyURL);
    TrimIdempotent(p.proxyUsername);
  }

  lemma PrepareAccepted(rules: UrlRules, c: Config)
    requires Accepted(rules, c) && rules.https(DEFAULT_CHROME_URL)
    ensures Accepted(rules, Prepare(c))
  {
    LogLevelWords(c.logLevel);
    var url := DEFAULT_CHROME_URL;
    assert url[0] == 'h' && url[|url| - 1] == 'g';
    TrimOfWord(url);
  }

  lemma ShownIsAccepted(rules: UrlRules, c: Config)
    requires Accepted(rules, c)
    ensures Refused(rules, PayloadOf(c)) == None
  {
    hide Trim, Lower;
    LogLevelWords(c.logLevel);
    BackendWords(c.browserBackend);
    TrimOfWord("");
  }

  lemma Resubmitted(rules: UrlRules, c: Config)
    requires WithDefaults(c) == c && Refused(rules, PayloadOf(c)) == None
    requires CanonicalLogLevel(c.logLevel) == c.logLevel && CanonicalBackend(c.browserBackend) == c.browserBackend
    requires Trimmed(c.host) && Trimmed(c.browserPath) && Trimmed(c.driverPath) && Trimmed(c.driverCacheDir)
    requires Trimmed(c.chromeForTestingURL) && Trimmed(c.startupUserAgent)
    requires c.defaultProxy.Some? ==>
      c.defaultProxy.value.url != "" && Trimmed(c.defaultProxy.value.url) && Trimmed(c.defaultProxy.value.username)
    ensures ToConfig(rules, PayloadOf(c), c) == Ok(c)
  {
    TrimOfWord("");
  }

  lemma PreparedHasDefaults(c: Config)
    requires Prepare(c) == c
    ensures WithDefaults(c) == c && CanonicalLogLevel(c.logLevel) == c.logLevel
  {
    LogLevelFixed(WithDefaults(c).logLevel);
  }

  // Opening the settings page and pressing Save changes nothing, exactly when the
  // live config is one the page could have produced.  A live config is a prepared
  // one, whether it came from a save, a file or the environment.
  lemma ResubmitChangesNothing(rules: UrlRules, live: Config)
    requires Prepare(live) == live
    ensures ToConfig(rules, PayloadOf(live), live) == Ok(live) <==> Accepted(rules, live)
  {
    hide Trim, Lower, CanonicalLogLevel, CanonicalBackend;
    PreparedHasDefaults(live);
    if Accepted(rules, live) {
      ShownIsAccepted(rules, live);
      BackendWords(live.browserBackend);
      Resubmitted(rules, live);
    } else {
      ToConfigAccepts(rules, PayloadOf(live), live);
    }
  }

  // What a save puts live is of that kind, so a second save repeats it.
  lemma ResubmitAfterSave(rules: UrlRules, c: Config)
    requires Accepted(rules, c) && rules.https(DEFAULT_CHROME_URL)
    ensures var live := Prepare(c); ToConfig(rules, PayloadOf(live), live) == Ok(live)
  {
    hide Trim, Lower, CanonicalLogLevel, CanonicalBackend;
    PrepareAccepted(rules, c);
    PrepareIdempotent(c);
    ResubmitChangesNothing(rules, Prepare(c));
  }
}
