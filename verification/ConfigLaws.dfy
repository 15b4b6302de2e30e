/**
What a file and a payload mean for each setting: what loading takes from which
key, what the settings page accepts, and what of a file a save leaves alone.
*/
module ConfigLaws {
  import opened Wrappers
  import opened Text
  import opened Config
  import opened ConfigFile
  import opened YamlMerge
  import opened YamlMergeLaws
  import opened SaveRestart

  // Words.  ---------------------------------------------------------------------

  // White space, in full.
  lemma SpacesAre(c: char)
    ensures IsSpace(c) <==>
      c in {'\U{9}', '\U{A}', '\U{B}', '\U{C}', '\U{D}', '\U{20}', '\U{85}', '\U{A0}', '\U{1680}',
            '\U{2000}', '\U{2001}', '\U{2002}', '\U{2003}', '\U{2004}', '\U{2005}', '\U{2006}', '\U{2007}',
            '\U{2008}', '\U{2009}', '\U{200A}', '\U{2028}', '\U{2029}', '\U{202F}', '\U{205F}', '\U{3000}'}
  {
  }

  predicate AllSpace(s: string) { forall i :: 0 <= i < |s| ==> IsSpace(s[i]) }

  lemma {:induction false} LeftIs(s: string)
    ensures var r := TrimLeft(s); |r| <= |s| && s[|s| - |r|..] == r && AllSpace(s[..|s| - |r|])
  {
    if s != "" && IsSpace(s[0]) {
      LeftIs(s[1..]);
      var n := |s| - |TrimLeft(s)|;
      assert s[1..][..n - 1] == s[1..n];
      assert forall i :: 1 <= i < n ==> s[i] == s[1..n][i - 1];
    }
  }

  lemma {:induction false} RightIs(s: string)
    ensures var r := TrimRight(s); |r| <= |s| && s[..|r|] == r && AllSpace(s[|r|..])
  {
    if s != "" && IsSpace(s[|s| - 1]) {
      RightIs(s[..|s| - 1]);
      var n := |TrimRight(s)|;
      assert s[..|s| - 1][n..] == s[n..|s| - 1];
      assert forall i :: n <= i < |s| - 1 ==> s[i] == s[n..|s| - 1][i - n];
    }
  }

  // Trimming takes the white space off both ends and nothing else.
  lemma TrimIs(s: string) returns (a: nat, b: nat)
    ensures a <= b <= |s| && Trim(s) == s[a..b] && AllSpace(s[..a]) && AllSpace(s[b..])
    ensures a < b ==> !IsSpace(s[a]) && !IsSpace(s[b - 1])
  {
    var left := TrimLeft(s);
    LeftIs(s);
    RightIs(left);
    TrimLeftEdge(s);
    TrimRightEdges(left);
    a := |s| - |left|;
    b := a + |Trim(s)|;
    assert s[a..b] == left[..|Trim(s)|];
    assert s[b..] == left[|Trim(s)|..];
  }

  // The letters that lower to an ASCII letter: itself, its capital, and two others.
  lemma LowerIs(c: char, l: char)
    requires 'a' <= l <= 'z'
    ensures LowerChar(c) == l <==>
      || c == l || c as int == l as int - 32
      || (l == 'i' && c == '\U{130}') || (l == 'k' && c == '\U{212A}')
  {
  }

  const LEVELS: map<string, string> :=
    map["debug" := "debug", "info" := "info", "warn" := "warn", "warning" := "warn", "error" := "error"]

  const BACKENDS: map<string, string> :=
    map["auto" := "auto", "geckodriver" := "geckodriver", "firefox" := "geckodriver", "camoufox" := "geckodriver",
        "chromedriver" := "chromedriver", "chrome" := "chromedriver", "chromium" := "chromedriver"]

  function WordIn(words: map<string, string>, raw: string, otherwise: string): string {
    var word := Lower(Trim(raw));
    if word in words then words[word] else otherwise
  }

  lemma LevelIs(raw: string)
    ensures CanonicalLogLevel(raw) == WordIn(LEVELS, raw, "info")
  {
  }

  lemma BackendIs(raw: string)
    ensures CanonicalBackend(raw) == WordIn(BACKENDS, raw, "auto")
  {
  }

  // A number's decimal digits, read back.
  function Value(digits: string): int {
    if digits == "" then 0 else 10 * Value(digits[..|digits| - 1]) + (digits[|digits| - 1] as int - '0' as int)
  }

  lemma {:induction false} DecimalIs(n: nat)
    ensures Value(Decimal(n)) == n && Decimal(n) != ""
    ensures forall i :: 0 <= i < |Decimal(n)| ==> '0' <= Decimal(n)[i] <= '9'
    ensures n > 0 ==> Decimal(n)[0] != '0'
  {
    if n >= 10 {
      DecimalIs(n / 10);
      assert Decimal(n)[..|Decimal(n)| - 1] == Decimal(n / 10);
    } else {
      assert Value([Digit(n)][..0]) == 0;
    }
  }

  // Loading.  -------------------------------------------------------------------

  predicate MayBeText(es: seq<Entry>, k: string) {
    Lookup(es, k).None? || Lookup(es, k).value.ScalarNode?
  }

  predicate MayBeNumber(es: seq<Entry>, k: string) {
    Lookup(es, k).None? || (Lookup(es, k).value.ScalarNode?
                            && (Lookup(es, k).value.scalar.Null? || Lookup(es, k).value.scalar.Int?))
  }

  predicate MayBeFlag(es: seq<Entry>, k: string) {
    Lookup(es, k).None? || (Lookup(es, k).value.ScalarNode?
                            && (Lookup(es, k).value.scalar.Null? || Lookup(es, k).value.scalar.Bool?))
  }

  predicate MayBeProxy(es: seq<Entry>, k: string) {
    || Lookup(es, k).None?
    || (Lookup(es, k).value.ScalarNode? && Lookup(es, k).value.scalar.Null?)
    || (Lookup(es, k).value.MappingNodeOf?
        && var p := Lookup(es, k).value.entries;
        Distinct(p) && MayBeText(p, "url") && MayBeText(p, "username") && MayBeText(p, "password"))
  }

  // The trees that can be read: no key twice, and under each known key a value of
  // its kind or none.  Unknown keys do not matter.
  predicate Decodable(es: seq<Entry>) {
    && Distinct(es)
    && MayBeText(es, "host") && MayBeText(es, "browser_backend") && MayBeText(es, "browser_path")
    && MayBeText(es, "driver_path") && MayBeText(es, "driver_cache_dir") && MayBeText(es, "chrome_for_testing_url")
    && MayBeText(es, "startup_user_agent") && MayBeText(es, "log_level")
    && MayBeNumber(es, "port") && MayBeNumber(es, "prometheus_port")
    && MayBeFlag(es, "driver_auto_download") && MayBeFlag(es, "headless") && MayBeFlag(es, "log_html")
    && MayBeFlag(es, "disable_media") && MayBeFlag(es, "prometheus_enabled")
    && MayBeProxy(es, "proxy")
  }

  lemma TextReads(es: seq<Entry>, k: string)
    ensures StrAt(es, k).Some? <==> MayBeText(es, k)
  {
  }

  lemma NumberReads(es: seq<Entry>, k: string)
    ensures IntAt(es, k).Some? <==> MayBeNumber(es, k)
  {
  }

  lemma FlagReads(es: seq<Entry>, k: string)
    ensures BoolAt(es, k).Some? <==> MayBeFlag(es, k)
  {
  }

  lemma ProxyReads(es: seq<Entry>, k: string)
    ensures ProxyAt(es, k).Some? <==> MayBeProxy(es, k)
  {
  }

  lemma DecodesExactly(es: seq<Entry>)
    ensures Decode(es).Some? <==> Decodable(es)
  {
    hide StrAt, IntAt, BoolAt, ProxyAt, MayBeText, MayBeNumber, MayBeFlag, MayBeProxy;
    TextReads(es, "host");
    TextReads(es, "browser_backend");
    TextReads(es, "browser_path");
    TextReads(es, "driver_path");
    TextReads(es, "driver_cache_dir");
    TextReads(es, "chrome_for_testing_url");
    TextReads(es, "startup_user_agent");
    TextReads(es, "log_level");
    NumberReads(es, "port");
    NumberReads(es, "prometheus_port");
    FlagReads(es, "driver_auto_download");
    FlagReads(es, "headless");
    FlagReads(es, "log_html");
    FlagReads(es, "disable_media");
    FlagReads(es, "prometheus_enabled");
    ProxyReads(es, "proxy");
  }

  // The key says this text, number or truth value; blank text says nothing, and
  // neither does a port that is not positive.
  predicate SaysText(es: seq<Entry>, k: string, s: string) {
    var v := Lookup(es, k);
    v.Some? && v.value.ScalarNode? && !v.value.scalar.Null? && v.value.scalar.text == s && Trim(s) != ""
  }

  predicate SaysNumber(es: seq<Entry>, k: string, n: int) {
    var v := Lookup(es, k);
    v.Some? && v.value.ScalarNode? && v.value.scalar.Int? && v.value.scalar.n == n && n > 0
  }

  predicate SaysFlag(es: seq<Entry>, k: string, b: bool) {
    var v := Lookup(es, k);
    v.Some? && v.value.ScalarNode? && v.value.scalar.Bool? && v.value.scalar.b == b
  }

  // A setting is what its key says, and the default if that says nothing.
  ghost predicate TextFrom(es: seq<Entry>, k: string, now: string, otherwise: string) {
    SaysText(es, k, now) || ((forall s :: !SaysText(es, k, s)) && now == otherwise)
  }

  ghost predicate WordFrom(
    es: seq<Entry>, k: string, words: map<string, string>, unknown: string, now: string, otherwise: string)
  {
    || (exists s :: SaysText(es, k, s) && now == WordIn(words, s, unknown))
    || ((forall s :: !SaysText(es, k, s)) && now == otherwise)
  }

  ghost predicate NumberFrom(es: seq<Entry>, k: string, now: int, otherwise: int) {
    SaysNumber(es, k, now) || ((forall n :: !SaysNumber(es, k, n)) && now == otherwise)
  }

  ghost predicate FlagFrom(es: seq<Entry>, k: string, now: bool, otherwise: bool) {
    SaysFlag(es, k, now) || ((forall b :: !SaysFlag(es, k, b)) && now == otherwise)
  }

  // A proxy needs a url; its other parts may be missing.
  ghost predicate ProxyFrom(es: seq<Entry>, k: string, now: Option<Proxy>) {
    var v := Lookup(es, k);
    if v.Some? && v.value.MappingNodeOf? && exists s :: SaysText(v.value.entries, "url", s) then
      && now.Some? && SaysText(v.value.entries, "url", now.value.url)
      && PartFrom(v.value.entries, "username", now.value.username)
      && PartFrom(v.value.entries, "password", now.value.password)
    else now == None
  }

  predicate PartFrom(es: seq<Entry>, k: string, now: string) {
    var v := Lookup(es, k);
    now == if v.Some? && v.value.ScalarNode? && !v.value.scalar.Null? then v.value.scalar.text else ""
  }

  // Each setting under its own key.
  ghost predicate TextsFrom(es: seq<Entry>, c: Config) {
    && TextFrom(es, "host", c.host, "0.0.0.0")
    && TextFrom(es, "browser_path", c.browserPath, "") && TextFrom(es, "driver_path", c.driverPath, "")
    && TextFrom(es, "driver_cache_dir", c.driverCacheDir, "")
    && TextFrom(es, "chrome_for_testing_url", c.chromeForTestingURL, DEFAULT_CHROME_URL)
    && TextFrom(es, "startup_user_agent", c.startupUserAgent, "")
  }

  ghost predicate ScalarsFrom(es: seq<Entry>, c: Config) {
    && NumberFrom(es, "port", c.port, 8191) && NumberFrom(es, "prometheus_port", c.prometheusPort, 8192)
    && FlagFrom(es, "driver_auto_download", c.driverAutoDownload, true) && FlagFrom(es, "headless", c.headless, true)
    && FlagFrom(es, "log_html", c.logHTML, false) && FlagFrom(es, "disable_media", c.disableMedia, false)
    && FlagFrom(es, "prometheus_enabled", c.prometheusEnabled, false)
  }

  ghost predicate WordsFrom(es: seq<Entry>, c: Config) {
    && WordFrom(es, "browser_backend", BACKENDS, "auto", c.browserBackend, "auto")
    && WordFrom(es, "log_level", LEVELS, "info", c.logLevel, "info")
  }

  // What is the same for every file.
  predicate Derived(c: Config) { (c.debugLogging <==> c.logLevel == "debug") && c.version == "1.0.6" }

  lemma TextOr(es: seq<Entry>, k: string, otherwise: string)
    requires StrAt(es, k).Some?
    ensures TextFrom(es, k, Or(StrAt(es, k).value, otherwise), otherwise)
  {
    hide Trim;
    TrimOfWord("");
  }

  lemma WordOr(es: seq<Entry>, k: string, words: map<string, string>, unknown: string, otherwise: string)
    requires StrAt(es, k).Some?
    ensures var s := StrAt(es, k).value;
      WordFrom(es, k, words, unknown, if !Blank(s) then WordIn(words, s, unknown) else otherwise, otherwise)
  {
    hide Trim, WordIn;
    TrimOfWord("");
    var s := StrAt(es, k).value;
    if !Blank(s) { assert SaysText(es, k, s); }
  }

  lemma NumberOr(es: seq<Entry>, k: string, otherwise: int)
    requires IntAt(es, k).Some?
    ensures NumberFrom(es, k, if IntAt(es, k).value > 0 then IntAt(es, k).value else otherwise, otherwise)
  {
  }

  lemma FlagOr(es: seq<Entry>, k: string, otherwise: bool)
    requires BoolAt(es, k).Some?
    ensures FlagFrom(es, k, BoolAt(es, k).value.GetOr(otherwise), otherwise)
  {
  }

  lemma ProxyOr(es: seq<Entry>, k: string)
    requires ProxyAt(es, k).Some?
    ensures var p := ProxyAt(es, k).value;
      ProxyFrom(es, k, if p.Some? && !Blank(p.value.url) then p else None)
  {
    hide Trim;
    TrimOfWord("");
    var p := ProxyAt(es, k).value;
    if p.Some? {
      var m := Lookup(es, k).value.entries;
      if !Blank(p.value.url) { assert SaysText(m, "url", p.value.url); }
    }
  }

  lemma OverlaidTexts(es: seq<Entry>)
    requires Decode(es).Some?
    ensures TextsFrom(es, Overlay(DEFAULTS, Decode(es).value))
  {
    hide TextFrom, StrAt, IntAt, BoolAt, ProxyAt, Or, CanonicalBackend, CanonicalLogLevel, Blank;
    TextOr(es, "host", "0.0.0.0");
    TextOr(es, "browser_path", "");
    TextOr(es, "driver_path", "");
    TextOr(es, "driver_cache_dir", "");
    TextOr(es, "chrome_for_testing_url", DEFAULT_CHROME_URL);
    TextOr(es, "startup_user_agent", "");
  }

  lemma OverlaidScalars(es: seq<Entry>)
    requires Decode(es).Some?
    ensures ScalarsFrom(es, Overlay(DEFAULTS, Decode(es).value))
  {
    hide NumberFrom, FlagFrom, StrAt, IntAt, BoolAt, ProxyAt, Or, CanonicalBackend, CanonicalLogLevel, Blank;
    NumberOr(es, "port", 8191);
    NumberOr(es, "prometheus_port", 8192);
    FlagOr(es, "driver_auto_download", true);
    FlagOr(es, "headless", true);
    FlagOr(es, "log_html", false);
    FlagOr(es, "disable_media", false);
    FlagOr(es, "prometheus_enabled", false);
  }

  lemma OverlaidWords(es: seq<Entry>)
    requires Decode(es).Some?
    ensures var c := Overlay(DEFAULTS, Decode(es).value); WordsFrom(es, c) && ProxyFrom(es, "proxy", c.defaultProxy)
  {
    hide WordFrom, ProxyFrom, StrAt, IntAt, BoolAt, ProxyAt, Or, CanonicalBackend, CanonicalLogLevel, Blank, WordIn;
    var f := Decode(es).value;
    BackendIs(f.browserBackend);
    LevelIs(f.logLevel);
    WordOr(es, "browser_backend", BACKENDS, "auto", "auto");
    WordOr(es, "log_level", LEVELS, "info", "info");
    ProxyOr(es, "proxy");
  }

  // After the overlay nothing else changes a setting.
  lemma OverlaidIsPrepared(f: ConfigFile)
    ensures var c := Overlay(DEFAULTS, f); var p := Prepare(WithEmptyEnv(c));
      Derived(p) && p.(debugLogging := c.debugLogging) == c
  {
    hide CanonicalBackend, CanonicalLogLevel;
    DefaultURL();
    hide Trim;
    TrimOfWord("");
    TrimOfWord("info");
    OverlaidLevel(f);
    BackendNotEmpty(f.browserBackend);
  }

  lemma OverlaidLevel(f: ConfigFile)
    ensures var l := Overlay(DEFAULTS, f).logLevel; CanonicalLogLevel(l) == l && Trim(l) == l && l != ""
  {
    hide Trim, Lower;
    LogLevelWords("info");
    LogLevelWords(CanonicalLogLevel(f.logLevel));
  }

  lemma BackendNotEmpty(raw: string)
    ensures CanonicalBackend(raw) != ""
  {
  }

  // Loading a file that can be read gives every setting what its own key says, and
  // its default when that says nothing.
  lemma LoadTakesEachKey(es: seq<Entry>, comments: Comments)
    requires Decodable(es)
    ensures var c := Load(Document(MappingNodeOf(es, comments)));
      TextsFrom(es, c) && ScalarsFrom(es, c) && WordsFrom(es, c) && ProxyFrom(es, "proxy", c.defaultProxy) && Derived(c)
  {
    hide Decode, Decodable, TextFrom, NumberFrom, FlagFrom, WordFrom, ProxyFrom, Prepare, WithEmptyEnv, Overlay;
    DecodesExactly(es);
    OverlaidTexts(es);
    OverlaidScalars(es);
    OverlaidWords(es);
    OverlaidIsPrepared(Decode(es).value);
  }

  // Any other file is ignored, and the defaults are what the program documents.
  lemma LoadIgnoresTheRest(file: Existing)
    requires !(file.Document? && file.root.MappingNodeOf? && Decodable(file.root.entries))
    ensures var c := Load(file);
      c == Config(
        "0.0.0.0", 8191, "auto", "", "", "", true, DEFAULT_CHROME_URL,
        true, "", "info", false, false, false, false, 8192, None, "1.0.6")
  {
    hide Decode, Decodable, CanonicalLogLevel;
    if file.Document? && file.root.MappingNodeOf? { DecodesExactly(file.root.entries); }
    DefaultsLoad();
    LogLevelWords("info");
  }

  // Preparing.  -----------------------------------------------------------------

  // Preparing fills in what is missing, spells the log level and derives the debug
  // flag; it changes nothing else.
  lemma PrepareFillsIn(c: Config)
    ensures var p := Prepare(c);
      && p.host == (if c.host == "" then "0.0.0.0" else c.host)
      && p.port == (if c.port == 0 then 8191 else c.port)
      && p.prometheusPort == (if c.prometheusPort == 0 then 8192 else c.prometheusPort)
      && p.browserBackend == (if c.browserBackend == "" then "auto" else c.browserBackend)
      && p.chromeForTestingURL == (if c.chromeForTestingURL == "" then DEFAULT_CHROME_URL else c.chromeForTestingURL)
      && p.version == (if c.version == "" then "1.0.6" else c.version)
      && p.logLevel == WordIn(LEVELS, c.logLevel, "info")
      && (p.debugLogging <==> p.logLevel == "debug")
      && p == c.(host := p.host, port := p.port, prometheusPort := p.prometheusPort,
                 browserBackend := p.browserBackend, chromeForTestingURL := p.chromeForTestingURL,
                 version := p.version, logLevel := p.logLevel, debugLogging := p.debugLogging)
  {
    hide Trim, Lower;
    LevelIs(c.logLevel);
    LevelIs("");
    LevelIs("info");
    LogLevelWords("info");
    EmptyLevel();
    LogLevelFixed(WithDefaults(c).logLevel);
  }

  lemma EmptyLevel()
    ensures CanonicalLogLevel("") == "info"
  {
    TrimOfWord("");
  }

  // The settings page.  -----------------------------------------------------------

  // The payload with its strings trimmed and its words spelled; a proxy without a
  // url is none.
  function Tidied(p: Payload): Payload {
    var url := Trim(p.proxyURL);
    p.(host := Trim(p.host), browserBackend := WordIn(BACKENDS, p.browserBackend, "auto"),
       browserPath := Trim(p.browserPath), driverPath := Trim(p.driverPath),
       driverCacheDir := Trim(p.driverCacheDir), chromeForTestingURL := Trim(p.chromeForTestingURL),
       startupUserAgent := Trim(p.startupUserAgent), logLevel := WordIn(LEVELS, p.logLevel, "info"),
       proxyURL := url, proxyUsername := if url == "" then "" else Trim(p.proxyUsername),
       proxyPassword := if url == "" then "" else p.proxyPassword)
  }

  // What is accepted is shown again as it was sent, but for white space and
  // spelling: no setting of the payload is dropped, and none goes to another.
  lemma AcceptedIsShown(rules: UrlRules, p: Payload, base: Config)
    requires ToConfig(rules, p, base).Ok?
    ensures var c := ToConfig(rules, p, base).value;
      && PayloadOf(c) == Tidied(p)
      && c.version == (if base.version == "" then "1.0.6" else base.version)
      && (c.defaultProxy.Some? <==> Trim(p.proxyURL) != "")
      && c.host == Trim(p.host) && c.port == p.port && c.prometheusPort == p.prometheusPort
      && c.browserPath == Trim(p.browserPath) && c.driverPath == Trim(p.driverPath)
      && c.driverCacheDir == Trim(p.driverCacheDir) && c.chromeForTestingURL == Trim(p.chromeForTestingURL)
      && c.startupUserAgent == Trim(p.startupUserAgent)
      && c.driverAutoDownload == p.driverAutoDownload && c.headless == p.headless && c.logHTML == p.logHTML
      && c.disableMedia == p.disableMedia && c.prometheusEnabled == p.prometheusEnabled
  {
    hide Trim, Lower;
    LevelIs(p.logLevel);
    BackendIs(p.browserBackend);
    LogLevelFixed(p.logLevel);
    BackendWords(CanonicalBackend(p.browserBackend));
  }

  predicate WordAllowed(words: map<string, string>, raw: string) {
    Trim(raw) == "" || Lower(Trim(raw)) in words
  }

  predicate PortAllowed(n: int) { 1 <= n <= 65535 }

  predicate UrlAllowed(rule: string -> bool, raw: string) { Trim(raw) == "" || rule(Trim(raw)) }

  // The checks in their order: a payload is refused for the first that fails.
  function Checks(rules: UrlRules, p: Payload): seq<(Refusal, bool)> {
    [(HostRequired, Trim(p.host) != ""), (BadPort, PortAllowed(p.port)),
     (BadPrometheusPort, PortAllowed(p.prometheusPort)), (PortsCollide, p.port != p.prometheusPort),
     (BadChromeURL, UrlAllowed(rules.https, p.chromeForTestingURL)),
     (BadLogLevel, WordAllowed(LEVELS, p.logLevel)), (BadBackend, WordAllowed(BACKENDS, p.browserBackend)),
     (BadProxyURL, UrlAllowed(rules.absolute, p.proxyURL))]
  }

  lemma RefusedForTheFirst(rules: UrlRules, p: Payload, base: Config)
    ensures var checks, r := Checks(rules, p), ToConfig(rules, p, base);
      && (r.Ok? <==> forall i :: 0 <= i < |checks| ==> checks[i].1)
      && (r.Err? ==> exists i :: 0 <= i < |checks| && checks[i] == (r.error, false)
                                 && forall j :: 0 <= j < i ==> checks[j].1)
  {
    hide Trim;
    LevelAllowed(p.logLevel);
    BackendAllowed(p.browserBackend);
    hide Lower, CanonicalLogLevel, CanonicalBackend, WordAllowed;
    var checks, r := Checks(rules, p), Refused(rules, p);
    if r.Some? {
      var i := match r.value
        case HostRequired => 0 case BadPort => 1 case BadPrometheusPort => 2 case PortsCollide => 3
        case BadChromeURL => 4 case BadLogLevel => 5 case BadBackend => 6 case BadProxyURL => 7;
      assert checks[i] == (r.value, false);
    }
  }

  lemma LevelAllowed(raw: string)
    ensures WordAllowed(LEVELS, raw) <==>
      !(Trim(raw) != "" && CanonicalLogLevel(raw) != Lower(Trim(raw)) && Lower(Trim(raw)) != "warning")
  {
    hide Trim, Lower;
    LevelIs(raw);
  }

  lemma BackendAllowed(raw: string)
    ensures WordAllowed(BACKENDS, raw) <==>
      !(Trim(raw) != "" && CanonicalBackend(raw) == "auto" && Lower(Trim(raw)) != "auto")
  {
    hide Trim, Lower;
    BackendIs(raw);
  }

  // Saving.  ---------------------------------------------------------------------

  const ALWAYS := {0, 1, 6, 8, 10, 11, 12, 13, 14}

  lemma AlwaysNamed(k: string)
    ensures (exists i :: i in ALWAYS && NAMES[i] == k) <==>
      k in {"host", "port", "driver_auto_download", "headless", "log_level", "log_html", "disable_media",
            "prometheus_enabled", "prometheus_port"}
  {
    assert forall i :: i in ALWAYS ==> 0 <= i < |NAMES|;
    assert NAMES[0] == "host" && NAMES[1] == "port" && NAMES[6] == "driver_auto_download" && NAMES[8] == "headless";
    assert NAMES[10] == "log_level" && NAMES[11] == "log_html" && NAMES[12] == "disable_media";
    assert NAMES[13] == "prometheus_enabled" && NAMES[14] == "prometheus_port";
  }

  predicate WritesText(c: Config, k: string) {
    || (k == NAMES[2] && c.browserBackend != "") || (k == NAMES[3] && c.browserPath != "")
    || (k == NAMES[4] && c.driverPath != "") || (k == NAMES[5] && c.driverCacheDir != "")
    || (k == NAMES[7] && c.chromeForTestingURL != "") || (k == NAMES[9] && c.startupUserAgent != "")
    || (k == NAMES[15] && c.defaultProxy.Some? && Trim(c.defaultProxy.value.url) != "")
  }

  lemma TextsNamed(c: Config, k: string)
    ensures WritesText(c, k) <==>
      || (k == "browser_backend" && c.browserBackend != "") || (k == "browser_path" && c.browserPath != "")
      || (k == "driver_path" && c.driverPath != "") || (k == "driver_cache_dir" && c.driverCacheDir != "")
      || (k == "chrome_for_testing_url" && c.chromeForTestingURL != "")
      || (k == "startup_user_agent" && c.startupUserAgent != "")
      || (k == "proxy" && c.defaultProxy.Some? && Trim(c.defaultProxy.value.url) != "")
  {
  }

  lemma FieldWritten(c: Config, i: nat)
    requires i < |NAMES| && NamesAreDistinct()
    ensures FieldOf(FileOf(c), i).value.Some? <==> (i in ALWAYS || WritesText(c, NAMES[i]))
  {
    hide Trim, CanonicalLogLevel;
    LevelNotEmpty(c.logLevel);
    assert |NAMES| == 16;
  }

  predicate NamesAreDistinct() { forall i, j :: 0 <= i < j < |NAMES| ==> NAMES[i] != NAMES[j] }

  // Which keys are written: six texts only when they say something, a proxy only
  // with a url, and the rest always.
  lemma WrittenKeys(c: Config, k: string)
    ensures Lookup(Encode(FileOf(c)), k).Some? <==>
      || k in {"host", "port", "driver_auto_download", "headless", "log_level", "log_html", "disable_media",
               "prometheus_enabled", "prometheus_port"}
      || (k == "browser_backend" && c.browserBackend != "") || (k == "browser_path" && c.browserPath != "")
      || (k == "driver_path" && c.driverPath != "") || (k == "driver_cache_dir" && c.driverCacheDir != "")
      || (k == "chrome_for_testing_url" && c.chromeForTestingURL != "")
      || (k == "startup_user_agent" && c.startupUserAgent != "")
      || (k == "proxy" && c.defaultProxy.Some? && Trim(c.defaultProxy.value.url) != "")
  {
    hide Trim, Encode, Lookup, CanonicalLogLevel, FieldOf, FileOf;
    AlwaysNamed(k);
    TextsNamed(c, k);
    NamesDistinct();
    var f := FileOf(c);
    if i: nat :| i < |NAMES| && NAMES[i] == k {
      EncodeFind(f, i);
      FieldWritten(c, i);
    } else {
      NotWritten(f, k);
    }
  }

  lemma LevelNotEmpty(raw: string)
    ensures CanonicalLogLevel(raw) != ""
  {
  }

  lemma NotWritten(f: ConfigFile, k: string)
    requires k !in NAMES
    ensures Lookup(Encode(f), k) == None
  {
    FieldNamesDiffer(f);
    FieldNames(f);
    PresentFind(Fields(f), k);
  }

  // A save leaves every entry alone whose key is no setting, with its comments,
  // and the comments of the file itself.
  lemma SaveKeepsTheRest(file: Existing, c: Config, k: string)
    requires WellFormedFile(file) && file.Document? && file.root.MappingNodeOf? && k !in NAMES
    ensures var saved := Save(file, c);
      && saved.Document? && saved.root.MappingNodeOf? && saved.root.comments == file.root.comments
      && Find(saved.root.entries, k) == Find(file.root.entries, k)
  {
    NotWritten(FileOf(c), k);
    FindLookup(Encode(FileOf(c)), k);
    MergeContract(file.root.entries, Encode(FileOf(c)), Owned(), k);
  }

  // Without a mapping to edit, the file holds the settings and nothing else.
  lemma SaveStartsAfresh(file: Existing, c: Config)
    requires !(file.Document? && file.root.MappingNodeOf?)
    ensures Save(file, c) == Document(MappingNodeOf(Encode(FileOf(c)), Comments("", "", "")))
  {
  }
}
