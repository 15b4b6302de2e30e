/**
A settings save as a transaction over the copies of the config: the server's, the
service's, the session store's and the exporter's, and the file.  Any number of
POST requests run at once, and the process may be shutting its exporter down.
One step is one critical section, one file write or one exporter shutdown; the
environment says whether the latter two succeed.
*/
module SettingsTransaction {
  import opened Wrappers
  import opened Config
  import opened ConfigFile
  import opened SaveRestart

  // The exporter: its copy of the settings, and the port of the HTTP server it
  // has published.
  datatype Exporter = Exporter(enabled: bool, port: int, server: Option<int>)

  // metricsRegistry.ApplyConfig, first critical section: is there an old server
  // to shut down, and a new one to publish?
  function BeginApply(m: Exporter, enabled: bool, port: int): (r: (Exporter, bool, Option<int>))
    ensures r.0.enabled == enabled && r.0.port == port
  {
    var stop := (port != m.port || enabled != m.enabled) && m.server.Some?;
    var server := if stop then None else m.server;
    (Exporter(enabled, port, server), stop, if enabled && server.None? then Some(port) else None)
  }

  // Second critical section.
  function Publish(m: Exporter, fresh_: Option<int>): Exporter {
    if fresh_.Some? then m.(server := fresh_) else m
  }

  // The handlers.  ------------------------------------------------------------

  datatype Pc =
    | Waiting                               // for applyMu
    | Deciding                              // toConfig on the current config
    | Saving(c: Config)                     // SaveConfig
    | SettingServer(c: Config)
    | SettingService(c: Config)
    | SettingStore(c: Config)
    | Draining(c: Config)                   // destroyAll on the store
    | SettingExporter(c: Config)
    | Stopping(start: Option<int>)          // the old exporter server shuts down
    | Publishing(start: Option<int>, ok: bool)
    | Leaving(status: nat)
    | Replied(status: nat)

  datatype Post = Post(payload: Payload, pc: Pc)

  // `saved` is history: what the last successful save found and wrote.
  datatype State = State(
    server: Config, service: Config, store: Config, exporter: Exporter,
    file: Existing, saved: Option<(Existing, Config)>,
    holder: Option<nat>, down: bool, posts: seq<Post>)

  datatype Event =
    | Step(t: nat, ok: bool)
    | ShutExporter  // Server.Shutdown

  ghost predicate Init(s: State) {
    && Prepare(s.server) == s.server && s.service == s.server && s.store == s.server
    && s.exporter.enabled == s.server.prometheusEnabled && s.exporter.port == s.server.prometheusPort
    && s.exporter.server == (if s.exporter.enabled then Some(s.exporter.port) else None)
    && s.saved.None? && s.holder.None? && !s.down && WellFormedFile(s.file)
    && forall t :: 0 <= t < |s.posts| ==> s.posts[t].pc.Waiting?
  }

  predicate Valid(s: State, e: Event) {
    match e
    case ShutExporter => true
    case Step(t, _) =>
      && t < |s.posts| && !s.posts[t].pc.Replied?
      && (s.posts[t].pc.Waiting? ==> s.holder.None?)
  }

  function Moved(s: State, t: nat, pc: Pc): State
    requires t < |s.posts|
  {
    s.(posts := s.posts[t := s.posts[t].(pc := pc)])
  }

  function Apply(rules: UrlRules, s: State, e: Event): State
    requires Valid(s, e)
  {
    match e
    case ShutExporter => s.(exporter := s.exporter.(server := None), down := true)
    case Step(t, ok) =>
      match s.posts[t].pc
      case Waiting => Moved(s.(holder := Some(t)), t, Deciding)
      case Deciding =>
        (match ToConfig(rules, s.posts[t].payload, s.server)
         case Ok(c) => Moved(s, t, Saving(c))
         case Err(_) => Moved(s, t, Leaving(400)))
      case Saving(c) =>
        if ok then Moved(s.(file := Save(s.file, c), saved := Some((s.file, c))), t, SettingServer(Prepare(c)))
        else Moved(s, t, Leaving(500))
      case SettingServer(c) => Moved(s.(server := c), t, SettingService(Prepare(c)))
      case SettingService(c) => Moved(s.(service := c), t, SettingStore(c))
      case SettingStore(c) => Moved(s.(store := c), t, Draining(c))
      case Draining(c) => Moved(s, t, SettingExporter(c))
      case SettingExporter(c) =>
        var (m, stop, start) := BeginApply(s.exporter, c.prometheusEnabled, c.prometheusPort);
        Moved(s.(exporter := m), t, if stop then Stopping(start) else Publishing(start, true))
      case Stopping(start) => Moved(s, t, Publishing(start, ok))
      case Publishing(start, fine) =>
        Moved(s.(exporter := Publish(s.exporter, start)), t, Leaving(if fine then 200 else 500))
      case Leaving(status) => Moved(s.(holder := None), t, Replied(status))
      case Replied(_) => s
  }

  // The exporter's copy is a projection of c.
  ghost predicate Projects(m: Exporter, c: Config) {
    m.enabled == c.prometheusEnabled && m.port == c.prometheusPort
  }

  // A published exporter server listens on the configured port of an enabled
  // exporter, and an enabled exporter has one until shutdown.
  ghost predicate Serving(m: Exporter, down: bool) {
    && (m.server.Some? ==> m.enabled && m.server.value == m.port)
    && (m.enabled && !down ==> m.server.Some?)
  }

  ghost predicate AllAgree(s: State) {
    && Prepare(s.server) == s.server && s.service == s.server && s.store == s.server
    && Projects(s.exporter, s.server) && Serving(s.exporter, s.down)
  }

  // The file is what the last successful save made of a well-formed file, and
  // `live` is the config that save applies.
  ghost predicate FileHolds(rules: UrlRules, s: State, live: Config) {
    && WellFormedFile(s.file)
    && (s.saved.Some? ==>
          && WellFormedFile(s.saved.value.0) && Accepted(rules, s.saved.value.1)
          && s.file == Save(s.saved.value.0, s.saved.value.1)
          && live == Prepare(s.saved.value.1))
  }

  // How far the holder of applyMu has come.
  ghost predicate HolderOk(rules: UrlRules, s: State, pc: Pc) {
    match pc
    case Waiting | Replied(_) => false
    case Deciding => AllAgree(s) && FileHolds(rules, s, s.server)
    case Saving(c) => AllAgree(s) && FileHolds(rules, s, s.server) && Accepted(rules, c)
    case SettingServer(c) => AllAgree(s) && Prepare(c) == c && s.saved.Some? && FileHolds(rules, s, c)
    case SettingService(c) =>
      && c == s.server && Prepare(c) == c && FileHolds(rules, s, c)
      && s.store == s.service && Projects(s.exporter, s.service) && Serving(s.exporter, s.down)
    case SettingStore(c) =>
      && c == s.server == s.service && Prepare(c) == c && FileHolds(rules, s, c)
      && Projects(s.exporter, s.store) && Serving(s.exporter, s.down)
    case Draining(c) =>
      && c == s.server == s.service == s.store && Prepare(c) == c && FileHolds(rules, s, c)
      && Serving(s.exporter, s.down)
    case SettingExporter(c) =>
      && c == s.server == s.service == s.store && Prepare(c) == c && FileHolds(rules, s, c)
      && Serving(s.exporter, s.down)
    case Stopping(start) => Settling(rules, s, start)
    case Publishing(start, _) => Settling(rules, s, start)
    case Leaving(_) => AllAgree(s) && FileHolds(rules, s, s.server)
  }

  // Everything agrees but the exporter's server, which is about to follow.
  ghost predicate Settling(rules: UrlRules, s: State, start: Option<int>) {
    && s.server == s.service == s.store && Prepare(s.server) == s.server && FileHolds(rules, s, s.server)
    && Projects(s.exporter, s.server)
    && Serving(Publish(s.exporter, start), s.down)
    && (start.Some? ==> s.exporter.server.None?)
  }

  ghost predicate Inv(rules: UrlRules, s: State) {
    && (forall t :: 0 <= t < |s.posts| && s.holder != Some(t) ==> s.posts[t].pc.Waiting? || s.posts[t].pc.Replied?)
    && (if s.holder.None? then AllAgree(s) && FileHolds(rules, s, s.server)
        else s.holder.value < |s.posts| && HolderOk(rules, s, s.posts[s.holder.value].pc))
  }

  lemma InitInv(rules: UrlRules, s: State)
    requires Init(s)
    ensures Inv(rules, s)
  {
  }

  lemma SaveKeepsFile(rules: UrlRules, s: State, c: Config)
    requires FileHolds(rules, s, s.server) && Accepted(rules, c)
    ensures FileHolds(rules, s.(file := Save(s.file, c), saved := Some((s.file, c))), Prepare(c))
  {
    SaveTwice(s.file, c);
  }

  lemma ShutKeeps(rules: UrlRules, s: State)
    requires Inv(rules, s)
    ensures Inv(rules, Apply(rules, s, ShutExporter))
  {
    hide Prepare, Save, WellFormedFile, Accepted, ToConfig, BeginApply;
  }

  predicate AtExporter(pc: Pc) { pc.SettingExporter? || pc.Stopping? || pc.Publishing? }

  // The steps that change the exporter's copy or its server.
  lemma ExporterKeeps(rules: UrlRules, s: State, t: nat, ok: bool)
    requires Inv(rules, s) && Valid(s, Step(t, ok)) && AtExporter(s.posts[t].pc)
    ensures Inv(rules, Apply(rules, s, Step(t, ok)))
  {
    hide Prepare, Save, WellFormedFile, Accepted, ToConfig, FileHolds;
    assert s.holder == Some(t);
    var s' := Apply(rules, s, Step(t, ok));
    FileHoldsApart(rules, s, s.(exporter := s'.exporter, posts := s'.posts));
  }

  lemma FileHoldsApart(rules: UrlRules, s: State, s': State)
    requires s'.file == s.file && s'.saved == s.saved
    ensures forall live :: FileHolds(rules, s, live) <==> FileHolds(rules, s', live)
  {
  }

  lemma CopyKeeps(rules: UrlRules, s: State, t: nat, ok: bool)
    requires Inv(rules, s) && Valid(s, Step(t, ok)) && !AtExporter(s.posts[t].pc)
    ensures Inv(rules, Apply(rules, s, Step(t, ok)))
  {
    hide Prepare, Save, WellFormedFile, Accepted, ToConfig, Serving, Projects, BeginApply, Publish;
    match s.posts[t].pc {
      case Deciding => ToConfigAccepts(rules, s.posts[t].payload, s.server);
      case Saving(c) => SaveKeepsFile(rules, s, c); PrepareIdempotent(c);
      case _ =>
    }
  }

  lemma ApplyKeeps(rules: UrlRules, s: State, e: Event)
    requires Inv(rules, s) && Valid(s, e)
    ensures Inv(rules, Apply(rules, s, e))
  {
    hide Inv, Apply;
    match e
    case ShutExporter => ShutKeeps(rules, s);
    case Step(t, ok) =>
      if AtExporter(s.posts[t].pc) { ExporterKeeps(rules, s, t, ok); } else { CopyKeeps(rules, s, t, ok); }
  }

  // The exporter as the object it is.  Each method is one critical section, and
  // does what the step of the machine below does.
  class MetricsRegistry {
    var enabled: bool
    var port: int
    var server: Option<int>

    constructor (enabled: bool, port: int)
      ensures Copy() == Exporter(enabled, port, None)
    {
      this.enabled, this.port, this.server := enabled, port, None;
    }

    function Copy(): Exporter
      reads this
    {
      Exporter(enabled, port, server)
    }

    method BeginApplyConfig(ghost rules: UrlRules, ghost s: State, ghost t: nat, newEnabled: bool, newPort: int)
      returns (stop: Option<int>, start: Option<int>)
      requires t < |s.posts| && s.posts[t].pc.SettingExporter? && Copy() == s.exporter
      requires newEnabled == s.posts[t].pc.c.prometheusEnabled && newPort == s.posts[t].pc.c.prometheusPort
      modifies this
      ensures var s' := Apply(rules, s, Step(t, true));
        && Copy() == s'.exporter
        && s'.posts[t].pc == if stop.Some? then Stopping(start) else Publishing(start, true)
      // only a changed setting stops a server, and it is the one published before
      ensures stop.Some? ==> stop == old(server) && server.None? && (newEnabled, newPort) != (old(enabled), old(port))
    {
      var portChanged := newPort != port;
      var enabledChanged := newEnabled != enabled;
      stop := None;
      if (portChanged || enabledChanged) && server.Some? {
        stop := server;
        server := None;
      }
      enabled, port := newEnabled, newPort;
      start := if newEnabled && server.None? then Some(newPort) else None;
    }

    // The second critical section of a save, whatever the shutdown of the old
    // server reported: an enabled exporter serves its port again.
    method PublishServer(ghost rules: UrlRules, ghost s: State, ghost t: nat, start: Option<int>)
      requires Inv(rules, s) && s.holder == Some(t) && s.posts[t].pc.Publishing? && s.posts[t].pc.start == start
      requires Copy() == s.exporter
      modifies this
      ensures Copy() == Apply(rules, s, Step(t, true)).exporter
      ensures Projects(Copy(), s.server) && Serving(Copy(), s.down)
    {
      if start.Some? { server := start; }
    }

    // At any moment of a save: the server published last is the one to stop.
    method Shutdown(ghost rules: UrlRules, ghost s: State) returns (stop: Option<int>)
      requires Inv(rules, s) && Copy() == s.exporter
      modifies this
      ensures Copy() == Apply(rules, s, ShutExporter).exporter && Inv(rules, Apply(rules, s, ShutExporter))
      ensures s.holder.None? && enabled && !s.down ==> stop == Some(port)
      ensures stop == old(server) && server.None?
    {
      ShutKeeps(rules, s);
      stop := server;
      server := None;
    }
  }

  // Runs.  --------------------------------------------------------------------

  ghost predicate StepAt(rules: UrlRules, states: seq<State>, es: seq<Event>, n: nat)
    requires n < |es| && n + 1 < |states|
  {
    Valid(states[n], es[n]) && states[n + 1] == Apply(rules, states[n], es[n])
  }

  ghost predicate IsRun(rules: UrlRules, states: seq<State>, es: seq<Event>) {
    && |states| == |es| + 1 && Init(states[0])
    && forall n :: 0 <= n < |es| ==> StepAt(rules, states, es, n)
  }

  lemma {:induction false} Reachable(rules: UrlRules, states: seq<State>, es: seq<Event>, n: nat)
    requires IsRun(rules, states, es) && n < |states|
    ensures Inv(rules, states[n])
  {
    if n == 0 {
      InitInv(rules, states[0]);
    } else {
      Reachable(rules, states, es, n - 1);
      assert StepAt(rules, states, es, n - 1);
      ApplyKeeps(rules, states[n - 1], es[n - 1]);
    }
  }

  // Whenever no save is in progress, every copy is a projection of one prepared
  // config, whatever saves failed and whatever the exporter reported.
  lemma CopiesAgree(rules: UrlRules, states: seq<State>, es: seq<Event>, n: nat)
    requires IsRun(rules, states, es) && n < |states| && states[n].holder.None?
    ensures AllAgree(states[n])
  {
    Reachable(rules, states, es, n);
  }

  // And once a save has succeeded, a restart from the file gives that config
  // back, unless the file's proxy entry clashed with the save.
  lemma FileGivesConfigBack(rules: UrlRules, states: seq<State>, es: seq<Event>, n: nat)
    requires IsRun(rules, states, es) && n < |states| && states[n].holder.None? && states[n].saved.Some?
    ensures var s := states[n]; var (found, c) := s.saved.value;
      && s.file == Save(found, c) && s.server == Prepare(c)
      && (SameSettings(Load(s.file), s.server) <==> !Clash(found, c) || SameSettings(Prepare(DEFAULTS), s.server))
  {
    Reachable(rules, states, es, n);
    SavedRestart(rules, states[n].saved.value.0, states[n].saved.value.1);
  }
}
