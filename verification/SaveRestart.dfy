// Saving the settings and restarting gives the config that was applied live.
module SaveRestart {
  import opened Wrappers
  import opened Text
  import opened Config
  import opened ConfigFile
  import opened YamlMerge
  import opened YamlMergeLaws

  // Marshalled fields.  -------------------------------------------------------

  ghost predicate NamesDiffer(fields: seq<Field>) {
    forall i, j :: 0 <= i < j < |fields| ==> fields[i].name != fields[j].name
  }

  lemma PresentSnoc(fields: seq<Field>)
    requires fields != []
    ensures var n := |fields| - 1; var v := fields[n].value;
      Present(fields) ==
      if v.Some? then Present(fields[..n]) + [Entry(fields[n].name, NO_COMMENTS, v.value)] else Present(fields[..n])
  {
  }

  // A present field is found under its name, an absent one is not.
  lemma {:induction false} PresentFind(fields: seq<Field>, k: string)
    requires NamesDiffer(fields)
    ensures forall i :: 0 <= i < |fields| && fields[i].name == k ==> Lookup(Present(fields), k) == fields[i].value
    ensures (forall i :: 0 <= i < |fields| ==> fields[i].name != k) ==> Lookup(Present(fields), k) == None
  {
    hide Present, Lookup, Find;
    if fields == [] {
      PresentNothing(k);
    } else {
      var n := |fields| - 1;
      PresentFind(fields[..n], k);
      PresentSnoc(fields);
      if fields[n].value.Some? {
        var before, e := Present(fields[..n]), Entry(fields[n].name, NO_COMMENTS, fields[n].value.value);
        FindSnoc(before, e, k);
        FindLookup(before, k);
        FindLookup(before + [e], k);
      }
    }
  }

  lemma PresentNothing(k: string)
    ensures Lookup(Present([]), k) == None
  {
  }

  // Every entry is one of the fields, and no key comes twice.
  lemma {:induction false} PresentIsField(fields: seq<Field>)
    requires NamesDiffer(fields)
    ensures Distinct(Present(fields))
    ensures forall e :: e in Present(fields) ==>
      exists j :: 0 <= j < |fields| && fields[j].name == e.key && fields[j].value == Some(e.value)
  {
    hide Present;
    if fields == [] {
      assert Present(fields) == [] by { PresentEmpty(); }
    } else {
      PresentIsField(fields[..|fields| - 1]);
      PresentSnoc(fields);
    }
  }

  lemma PresentEmpty()
    ensures Present([]) == []
  {
  }

  // Length and first letter tell the sixteen names apart.
  const SHAPES: seq<(int, char)> := [
    (4, 'h'), (4, 'p'), (15, 'b'), (12, 'b'), (11, 'd'), (16, 'd'), (20, 'd'), (22, 'c'),
    (8, 'h'), (18, 's'), (9, 'l'), (8, 'l'), (13, 'd'), (18, 'p'), (15, 'p'), (5, 'p')]

  predicate Shaped(name: string, shape: (int, char)) {
    |name| == shape.0 && name != "" && name[0] == shape.1
  }

  lemma NameShapes()
    ensures forall i :: 0 <= i < |NAMES| ==> Shaped(NAMES[i], SHAPES[i])
  {
    assert Shaped("host", (4, 'h')) && Shaped("port", (4, 'p'));
    assert Shaped("browser_backend", (15, 'b')) && Shaped("browser_path", (12, 'b'));
    assert Shaped("driver_path", (11, 'd')) && Shaped("driver_cache_dir", (16, 'd'));
    assert Shaped("driver_auto_download", (20, 'd')) && Shaped("chrome_for_testing_url", (22, 'c'));
    assert Shaped("headless", (8, 'h')) && Shaped("startup_user_agent", (18, 's'));
    assert Shaped("log_level", (9, 'l')) && Shaped("log_html", (8, 'l'));
    assert Shaped("disable_media", (13, 'd')) && Shaped("prometheus_enabled", (18, 'p'));
    assert Shaped("prometheus_port", (15, 'p')) && Shaped("proxy", (5, 'p'));
  }

  lemma FieldNames(f: ConfigFile)
    ensures |Fields(f)| == |NAMES| && forall i :: 0 <= i < |NAMES| ==> Fields(f)[i].name == NAMES[i]
  {
  }

  lemma NamesDistinct()
    ensures forall i, j :: 0 <= i < j < |NAMES| ==> NAMES[i] != NAMES[j]
  {
    NameShapes();
    assert forall i, j :: 0 <= i < j < |SHAPES| ==> SHAPES[i] != SHAPES[j];
  }

  lemma FieldNamesDiffer(f: ConfigFile)
    ensures NamesDiffer(Fields(f))
  {
    NamesDistinct();
    FieldNames(f);
  }

  // What a marshalled config holds under the i-th name.
  lemma EncodeFind(f: ConfigFile, i: nat)
    requires i < |NAMES|
    ensures |Fields(f)| == |NAMES| && Lookup(Encode(f), NAMES[i]) == Fields(f)[i].value
    ensures NAMES[i] in Owned()
  {
    FieldNamesDiffer(f);
    FieldNames(f);
    PresentFind(Fields(f), NAMES[i]);
  }

  lemma ProxyNodeWellFormed(p: Proxy)
    ensures DeepNode(ProxyNode(p))
    ensures var es := ProxyNode(p).entries;
      && Lookup(es, "url") == Some(StrNode(p.url))
      && Lookup(es, "username") == Some(StrNode(p.username))
      && Lookup(es, "password") == Some(StrNode(p.password))
  {
    var es := ProxyNode(p).entries;
    assert es[0].key[0] == 'u' && es[1].key[0] == 'u' && es[2].key[0] == 'p';
    assert |es[0].key| == 3 && |es[1].key| == 8;
    assert Distinct(es);
    FindAt(es, 0);
    FindAt(es, 1);
    FindAt(es, 2);
  }

  lemma FieldValuesWellFormed(f: ConfigFile, i: nat)
    requires i < |Fields(f)| && Fields(f)[i].value.Some?
    ensures DeepNode(Fields(f)[i].value.value)
  {
    if f.proxy.Some? { ProxyNodeWellFormed(f.proxy.value); }
  }

  lemma EncodeWellFormed(f: ConfigFile)
    ensures DeepDistinct(Encode(f))
  {
    FieldNamesDiffer(f);
    PresentIsField(Fields(f));
    forall i | 0 <= i < |Encode(f)|
      ensures DeepNode(Encode(f)[i].value)
    {
      var e := Encode(f)[i];
      assert e in Present(Fields(f));
      var j :| 0 <= j < |Fields(f)| && Fields(f)[j].name == e.key && Fields(f)[j].value == Some(e.value);
      FieldValuesWellFormed(f, j);
    }
  }

  // Reading back a merged file.  ----------------------------------------------

  function AfterSave(es: seq<Entry>, f: ConfigFile): seq<Entry> {
    Merged(es, Encode(f), Owned())
  }

  lemma SavedLookup(es: seq<Entry>, f: ConfigFile, i: nat)
    requires DeepDistinct(es) && i < |NAMES|
    ensures |Fields(f)| == |NAMES|
    ensures var had := Lookup(es, NAMES[i]); var saved := Fields(f)[i].value;
      Lookup(AfterSave(es, f), NAMES[i])
      == if saved.Some? then Some(if had.Some? then Combine(had.value, saved.value, Owned()) else saved.value)
         else if had.Some? && had.value.ScalarNode? then Some(ScalarNode(Str(""), had.value.comments))
         else None
  {
    var k := NAMES[i];
    EncodeFind(f, i);
    MergeContract(es, Encode(f), Owned(), k);
    FindLookup(es, k);
    FindLookup(Encode(f), k);
    FindLookup(AfterSave(es, f), k);
  }

  ghost predicate HasField(f: ConfigFile, k: string, v: Option<Node>) {
    exists i :: 0 <= i < |Fields(f)| && Fields(f)[i] == Field(k, v)
  }

  lemma FieldAt(f: ConfigFile, i: nat, k: string, v: Option<Node>)
    requires i < |Fields(f)| && Fields(f)[i] == Field(k, v)
    ensures HasField(f, k, v)
  {
  }

  lemma TextFields(f: ConfigFile)
    ensures HasField(f, "host", Some(StrNode(f.host)))
    ensures HasField(f, "browser_backend", Optional(f.browserBackend))
    ensures HasField(f, "browser_path", Optional(f.browserPath))
    ensures HasField(f, "driver_path", Optional(f.driverPath))
    ensures HasField(f, "driver_cache_dir", Optional(f.driverCacheDir))
    ensures HasField(f, "chrome_for_testing_url", Optional(f.chromeForTestingURL))
    ensures HasField(f, "startup_user_agent", Optional(f.startupUserAgent))
    ensures HasField(f, "log_level", Optional(f.logLevel))
  {
    FieldAt(f, 0, "host", Some(StrNode(f.host)));
    FieldAt(f, 2, "browser_backend", Optional(f.browserBackend));
    FieldAt(f, 3, "browser_path", Optional(f.browserPath));
    FieldAt(f, 4, "driver_path", Optional(f.driverPath));
    FieldAt(f, 5, "driver_cache_dir", Optional(f.driverCacheDir));
    FieldAt(f, 7, "chrome_for_testing_url", Optional(f.chromeForTestingURL));
    FieldAt(f, 9, "startup_user_agent", Optional(f.startupUserAgent));
    FieldAt(f, 10, "log_level", Optional(f.logLevel));
  }

  lemma NumberFields(f: ConfigFile)
    ensures HasField(f, "port", Some(IntNode(f.port)))
    ensures HasField(f, "prometheus_enabled", Some(BoolNode(f.prometheusEnabled)))
    ensures HasField(f, "prometheus_port", Some(IntNode(f.prometheusPort)))
  {
    FieldAt(f, 1, "port", Some(IntNode(f.port)));
    FieldAt(f, 13, "prometheus_enabled", Some(BoolNode(f.prometheusEnabled)));
    FieldAt(f, 14, "prometheus_port", Some(IntNode(f.prometheusPort)));
  }

  lemma FlagFields(f: ConfigFile)
    ensures HasField(f, "driver_auto_download", Some(BoolNode(f.driverAutoDownload)))
    ensures HasField(f, "headless", Some(BoolNode(f.headless)))
    ensures HasField(f, "log_html", Some(BoolNode(f.logHTML)))
    ensures HasField(f, "disable_media", Some(BoolNode(f.disableMedia)))
  {
    FieldAt(f, 6, "driver_auto_download", Some(BoolNode(f.driverAutoDownload)));
    FieldAt(f, 8, "headless", Some(BoolNode(f.headless)));
    FieldAt(f, 11, "log_html", Some(BoolNode(f.logHTML)));
    FieldAt(f, 12, "disable_media", Some(BoolNode(f.disableMedia)));
  }

  // What a field holds in the merged tree.
  function FieldAfterSave(had: Option<Node>, saved: Option<Node>): Option<Node> {
    if saved.Some? then Some(if had.Some? then Combine(had.value, saved.value, Owned()) else saved.value)
    else if had.Some? && had.value.ScalarNode? then Some(ScalarNode(Str(""), had.value.comments))
    else None
  }

  lemma FieldSaved(es: seq<Entry>, f: ConfigFile, k: string, v: Option<Node>)
    requires DeepDistinct(es) && HasField(f, k, v)
    ensures Lookup(AfterSave(es, f), k) == FieldAfterSave(Lookup(es, k), v)
  {
    var i :| 0 <= i < |Fields(f)| && Fields(f)[i] == Field(k, v);
    FieldNames(f);
    SavedLookup(es, f, i);
  }

  lemma StrSaved(es: seq<Entry>, f: ConfigFile, k: string, s: string)
    requires DeepDistinct(es) && (HasField(f, k, Some(StrNode(s))) || HasField(f, k, Optional(s)))
    ensures StrAt(AfterSave(es, f), k) == Some(s)
  {
    FieldSaved(es, f, k, if HasField(f, k, Some(StrNode(s))) then Some(StrNode(s)) else Optional(s));
  }

  lemma IntSaved(es: seq<Entry>, f: ConfigFile, k: string, n: int)
    requires DeepDistinct(es) && HasField(f, k, Some(IntNode(n)))
    ensures IntAt(AfterSave(es, f), k) == Some(n)
  {
    FieldSaved(es, f, k, Some(IntNode(n)));
  }

  lemma BoolSaved(es: seq<Entry>, f: ConfigFile, k: string, b: Option<bool>)
    requires DeepDistinct(es) && HasField(f, k, Some(BoolNode(b)))
    ensures BoolAt(AfterSave(es, f), k) == Some(b)
  {
    FieldSaved(es, f, k, Some(BoolNode(b)));
  }

  // The existing file has a scalar where the proxy goes, such as `proxy:` with
  // nothing behind it.
  predicate ScalarProxy(es: seq<Entry>) {
    Lookup(es, "proxy").Some? && Lookup(es, "proxy").value.ScalarNode?
  }

  lemma NestedProxy(old_: seq<Entry>, p: Proxy)
    requires DeepDistinct(old_)
    ensures var m := Merged(old_, ProxyNode(p).entries, Owned());
      && Distinct(m)
      && StrAt(m, "url") == Some(p.url)
      && StrAt(m, "username") == Some(p.username) && StrAt(m, "password") == Some(p.password)
  {
    var src := ProxyNode(p).entries;
    ProxyNodeWellFormed(p);
    MergedDistinct(old_, src, Owned());
    NestedKey(old_, src, "url", p.url);
    NestedKey(old_, src, "username", p.username);
    NestedKey(old_, src, "password", p.password);
  }

  lemma NestedKey(old_: seq<Entry>, src: seq<Entry>, k: string, s: string)
    requires Distinct(old_) && Lookup(src, k) == Some(StrNode(s))
    ensures StrAt(Merged(old_, src, Owned()), k) == Some(s)
  {
    MergeContract(old_, src, Owned(), k);
    FindLookup(old_, k);
    FindLookup(src, k);
    FindLookup(Merged(old_, src, Owned()), k);
  }

  lemma ProxyLookup(es: seq<Entry>, f: ConfigFile)
    requires DeepDistinct(es)
    ensures var had := Lookup(es, "proxy");
      Lookup(AfterSave(es, f), "proxy")
      == if f.proxy.Some? then
           Some(if had.Some? then Combine(had.value, ProxyNode(f.proxy.value), Owned()) else ProxyNode(f.proxy.value))
         else if had.Some? && had.value.ScalarNode? then Some(ScalarNode(Str(""), had.value.comments))
         else None
  {
    FieldAt(f, 15, "proxy", if f.proxy.Some? then Some(ProxyNode(f.proxy.value)) else None);
    FieldSaved(es, f, "proxy", if f.proxy.Some? then Some(ProxyNode(f.proxy.value)) else None);
  }

  lemma ProxyRead(es: seq<Entry>, v: Node, p: Proxy)
    requires Lookup(es, "proxy") == Some(v) && v.MappingNodeOf? && Distinct(v.entries)
    requires StrAt(v.entries, "url") == Some(p.url)
    requires StrAt(v.entries, "username") == Some(p.username) && StrAt(v.entries, "password") == Some(p.password)
    ensures ProxyAt(es, "proxy") == Some(Some(p))
  {
  }

  lemma ProxyWritten(es: seq<Entry>, f: ConfigFile)
    requires DeepDistinct(es) && f.proxy.Some?
    ensures ProxyAt(AfterSave(es, f), "proxy") == Some(f.proxy)
  {
    var p := f.proxy.value;
    ProxyLookup(es, f);
    ProxyNodeWellFormed(p);
    var v := Lookup(AfterSave(es, f), "proxy").value;
    var at := Position(es, "proxy");
    if at.Some? && es[at.value].value.MappingNodeOf? {
      assert DeepNode(es[at.value].value) && DeepDistinct(es[at.value].value.entries);
      NestedProxy(es[at.value].value.entries, p);
    } else {
      assert v.entries == ProxyNode(p).entries && DeepDistinct(ProxyNode(p).entries);
    }
    ProxyRead(AfterSave(es, f), v, p);
  }

  lemma ProxyDropped(es: seq<Entry>, f: ConfigFile)
    requires DeepDistinct(es) && f.proxy.None?
    ensures ProxyAt(AfterSave(es, f), "proxy") == if ScalarProxy(es) then None else Some(None)
  {
    ProxyLookup(es, f);
  }

  ghost predicate StringsRead(es: seq<Entry>, f: ConfigFile) {
    && StrAt(es, "host") == Some(f.host) && StrAt(es, "browser_backend") == Some(f.browserBackend)
    && StrAt(es, "browser_path") == Some(f.browserPath) && StrAt(es, "driver_path") == Some(f.driverPath)
    && StrAt(es, "driver_cache_dir") == Some(f.driverCacheDir)
    && StrAt(es, "chrome_for_testing_url") == Some(f.chromeForTestingURL)
    && StrAt(es, "startup_user_agent") == Some(f.startupUserAgent) && StrAt(es, "log_level") == Some(f.logLevel)
  }

  ghost predicate ScalarsRead(es: seq<Entry>, f: ConfigFile) {
    && IntAt(es, "port") == Some(f.port) && IntAt(es, "prometheus_port") == Some(f.prometheusPort)
    && BoolAt(es, "driver_auto_download") == Some(f.driverAutoDownload) && BoolAt(es, "headless") == Some(f.headless)
    && BoolAt(es, "log_html") == Some(f.logHTML) && BoolAt(es, "disable_media") == Some(f.disableMedia)
    && BoolAt(es, "prometheus_enabled") == Some(f.prometheusEnabled)
  }

  lemma StringsSaved(es: seq<Entry>, f: ConfigFile)
    requires DeepDistinct(es)
    ensures StringsRead(AfterSave(es, f), f)
  {
    TextFields(f);
    StrSaved(es, f, "host", f.host);
    StrSaved(es, f, "browser_backend", f.browserBackend);
    StrSaved(es, f, "browser_path", f.browserPath);
    StrSaved(es, f, "driver_path", f.driverPath);
    StrSaved(es, f, "driver_cache_dir", f.driverCacheDir);
    StrSaved(es, f, "chrome_for_testing_url", f.chromeForTestingURL);
    StrSaved(es, f, "startup_user_agent", f.startupUserAgent);
    StrSaved(es, f, "log_level", f.logLevel);
  }

  lemma ScalarsSaved(es: seq<Entry>, f: ConfigFile)
    requires DeepDistinct(es)
    ensures ScalarsRead(AfterSave(es, f), f)
  {
    NumberFields(f);
    FlagFields(f);
    IntSaved(es, f, "port", f.port);
    IntSaved(es, f, "prometheus_port", f.prometheusPort);
    BoolSaved(es, f, "driver_auto_download", f.driverAutoDownload);
    BoolSaved(es, f, "headless", f.headless);
    BoolSaved(es, f, "log_html", f.logHTML);
    BoolSaved(es, f, "disable_media", f.disableMedia);
    BoolSaved(es, f, "prometheus_enabled", f.prometheusEnabled);
  }

  lemma DecodeFields(es: seq<Entry>, f: ConfigFile)
    requires Distinct(es) && StringsRead(es, f) && ScalarsRead(es, f)
    ensures ProxyAt(es, "proxy") == Some(f.proxy) ==> Decode(es) == Some(f)
    ensures ProxyAt(es, "proxy") == None ==> Decode(es) == None
  {
  }

  // Decoding the saved tree gives back the saved settings exactly when no
  // scalar stands where a dropped proxy was; otherwise it does not decode.
  lemma DecodeSaved(es: seq<Entry>, f: ConfigFile)
    requires DeepDistinct(es)
    ensures Decode(AfterSave(es, f)) == if f.proxy.None? && ScalarProxy(es) then None else Some(f)
  {
    EncodeWellFormed(f);
    MergedDistinct(es, Encode(f), Owned());
    StringsSaved(es, f);
    ScalarsSaved(es, f);
    if f.proxy.Some? { ProxyWritten(es, f); } else { ProxyDropped(es, f); }
    DecodeFields(AfterSave(es, f), f);
  }

  lemma {:induction false} AddedToNothing(src: seq<Entry>)
    ensures Added([], src) == src
  {
    if src != [] {
      AddedToNothing(src[..|src| - 1]);
      assert src == src[..|src| - 1] + [src[|src| - 1]];
    }
  }

  // Unmarshalling what was marshalled gives it back.
  lemma EncodeDecode(f: ConfigFile)
    ensures Decode(Encode(f)) == Some(f)
  {
    AddedToNothing(Encode(f));
    assert AfterSave([], f) == Encode(f);
    DecodeSaved([], f);
  }

  // Save and restart.  --------------------------------------------------------

  // The one way a save can spoil the file: the file has a scalar proxy entry
  // and the saved settings have no proxy, so the entry becomes an empty string.
  predicate Clash(file: Existing, c: Config) {
    && file.Document? && file.root.MappingNodeOf? && ScalarProxy(file.root.entries)
    && FileOf(c).proxy.None?
  }

  lemma LoadSaved(file: Existing, c: Config)
    requires WellFormedFile(file)
    ensures Load(Save(file, c))
         == Prepare(WithEmptyEnv(if Clash(file, c) then DEFAULTS else Overlay(DEFAULTS, FileOf(c))))
  {
    if file.Document? && file.root.MappingNodeOf? {
      DecodeSaved(file.root.entries, FileOf(c));
    } else {
      EncodeDecode(FileOf(c));
    }
  }

  lemma OrTrimmed(s: string, otherwise: string)
    requires Trimmed(s)
    ensures Or(s, otherwise) == if s == "" then otherwise else s
  {
  }

  // Loading an accepted config over the defaults.
  function Overlaid(c: Config): Config {
    c.(chromeForTestingURL := if c.chromeForTestingURL == "" then DEFAULT_CHROME_URL else c.chromeForTestingURL,
       debugLogging := false, version := DEFAULT_VERSION)
  }

  lemma OverlayIs(rules: UrlRules, c: Config)
    requires Accepted(rules, c)
    ensures Overlay(DEFAULTS, FileOf(c)) == Overlaid(c)
  {
    hide CanonicalLogLevel, CanonicalBackend, Trim;
    LogLevelWords(c.logLevel);
    BackendWords(c.browserBackend);
    OrTrimmed(c.host, DEFAULTS.host);
    OrTrimmed(c.browserPath, "");
    OrTrimmed(c.driverPath, "");
    OrTrimmed(c.driverCacheDir, "");
    OrTrimmed(c.startupUserAgent, "");
    OrTrimmed(c.chromeForTestingURL, DEFAULT_CHROME_URL);
  }

  lemma EmptyEnvKeeps(c: Config)
    requires Trimmed(c.browserPath) && Trimmed(c.driverPath) && Trimmed(c.driverCacheDir)
    requires Trimmed(c.chromeForTestingURL) && Trimmed(c.startupUserAgent) && Trimmed(c.logLevel)
    ensures WithEmptyEnv(c) == c
  {
    OrTrimmed(c.browserPath, "");
    OrTrimmed(c.driverPath, "");
    OrTrimmed(c.driverCacheDir, "");
    OrTrimmed(c.startupUserAgent, "");
    OrTrimmed(c.chromeForTestingURL, "");
    OrTrimmed(c.logLevel, "");
  }

  lemma OverlayAccepted(rules: UrlRules, c: Config)
    requires Accepted(rules, c)
    ensures Prepare(WithEmptyEnv(Overlay(DEFAULTS, FileOf(c)))) == Prepare(c).(version := DEFAULT_VERSION)
  {
    hide CanonicalLogLevel, CanonicalBackend, Trim;
    OverlayIs(rules, c);
    LogLevelWords(c.logLevel);
    DefaultURL();
    EmptyEnvKeeps(Overlaid(c));
  }

  lemma DefaultURL()
    ensures Trimmed(DEFAULT_CHROME_URL) && DEFAULT_CHROME_URL != ""
  {
    assert DEFAULT_CHROME_URL[0] == 'h' && DEFAULT_CHROME_URL[|DEFAULT_CHROME_URL| - 1] == 'g';
    TrimOfWord(DEFAULT_CHROME_URL);
  }

  lemma DefaultsLoad()
    ensures Prepare(WithEmptyEnv(DEFAULTS)) == Prepare(DEFAULTS)
  {
    DefaultURL();
    TrimOfWord("");
    PlainWord("info");
    EmptyEnvKeeps(DEFAULTS);
  }

  // Equal but for the version, which no file carries.
  predicate SameSettings(a: Config, b: Config) {
    a.(version := b.version) == b
  }

  lemma SavedRestart(rules: UrlRules, file: Existing, c: Config)
    requires WellFormedFile(file) && Accepted(rules, c)
    ensures SameSettings(Load(Save(file, c)), Prepare(c)) <==>
      !Clash(file, c) || SameSettings(Prepare(DEFAULTS), Prepare(c))
  {
    LoadSaved(file, c);
    OverlayAccepted(rules, c);
    DefaultsLoad();
  }

  // Saving what the settings page accepted and restarting with an empty
  // environment gives the config that was applied live.  That holds for every
  // payload and every well-formed or unusable file, except when the proxy
  // entries clash: then the file no longer decodes, the restart falls back to
  // the defaults, and the two agree only if the defaults were what was saved.
  lemma SaveThenRestart(rules: UrlRules, p: Payload, base: Config, file: Existing)
    requires WellFormedFile(file) && ToConfig(rules, p, base).Ok?
    ensures var c := ToConfig(rules, p, base).value;
      SameSettings(Load(Save(file, c)), Prepare(c)) <==> !Clash(file, c) || SameSettings(Prepare(DEFAULTS), Prepare(c))
  {
    ToConfigAccepts(rules, p, base);
    SavedRestart(rules, file, ToConfig(rules, p, base).value);
  }

  // A file whose only entry is an empty `proxy:` loses a changed port.
  lemma EmptyProxyEntryLosesSettings(rules: UrlRules)
    ensures var proxy := Entry("proxy", NO_COMMENTS, ScalarNode(Null(""), NO_COMMENTS));
      var file := Document(MappingNodeOf([proxy], NO_COMMENTS));
      var c := DEFAULTS.(port := 9000);
      WellFormedFile(file) && Load(Save(file, c)).port == 8191 && Prepare(c).port == 9000
  {
    hide CanonicalLogLevel, CanonicalBackend, Trim;
    var e := Entry("proxy", NO_COMMENTS, ScalarNode(Null(""), NO_COMMENTS));
    var file := Document(MappingNodeOf([e], NO_COMMENTS));
    assert DeepDistinct([e]);
    assert Position([e], "proxy") == Some(0);
    LoadSaved(file, DEFAULTS.(port := 9000));
    DefaultsLoad();
  }

  // A second save of the same settings leaves the file as it is.
  lemma SaveTwice(file: Existing, c: Config)
    requires WellFormedFile(file)
    ensures Save(Save(file, c), c) == Save(file, c)
    ensures WellFormedFile(Save(file, c))
  {
    var es := Encode(FileOf(c));
    EncodeWellFormed(FileOf(c));
    if file.Document? && file.root.MappingNodeOf? {
      MergeTwice(file.root.entries, es, Owned());
      MergedWellFormed(file.root.entries, es, Owned());
    } else {
      MergeSelf(es, Owned());
    }
  }
}
