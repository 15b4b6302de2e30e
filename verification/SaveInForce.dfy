/**
What a settings save means for the sessions: the transaction over the copies of
the config and the session store run side by side.  A POST handler is one post of
the transaction and one thread of the store, and the two take their common steps
together: taking and releasing applyMu, and changing the three copies.
*/
module SaveInForce {
  import opened Wrappers
  import opened Config
  import opened SessionMachine
  import opened SessionInvariant
  import opened SessionMutex
  import opened SessionProgress
  import opened SessionTheorems
  import opened SessionProxy
  import Net = SettingsTransaction

  // The machine.  ----------------------------------------------------------------

  // Posts are the first threads of the store.  `named` is history: the configs
  // that were live, by number.
  datatype Joint = Joint(net: Net.State, store: State, named: seq<Config>)

  datatype JointEvent = JointEvent(net: Option<Net.Event>, store: Event)

  // What a step of one side asks of the other.
  datatype Label =
    | Own
    | Takes(t: nat)         // applyMu
    | Refuses(t: nat)       // the payload, or the file cannot be written
    | SetsServer(t: nat)
    | SetsService(t: nat)
    | SetsStore(t: nat)
    | Gives(t: nat)         // applyMu back

  function NetLabel(rules: UrlRules, s: Net.State, e: Net.Event): Label
    requires Net.Valid(s, e)
  {
    match e
    case ShutExporter => Own
    case Step(t, ok) =>
      match s.posts[t].pc
      case Waiting => Takes(t)
      case Deciding => if ToConfig(rules, s.posts[t].payload, s.server).Ok? then Own else Refuses(t)
      case Saving(_) => if ok then Own else Refuses(t)
      case SettingServer(_) => SetsServer(t)
      case SettingService(_) => SetsService(t)
      case SettingStore(_) => SetsStore(t)
      case Leaving(_) => Gives(t)
      case _ => Own
  }

  function StoreLabel(s: State, e: Event): Label
    requires WellFormed(s) && SessionMachine.Valid(s, e)
  {
    match e
    case Tick(_) => Own
    case Act(t, c) =>
      match s.threads[t].pc
      case Lock => Takes(t)
      case SetServer => if c.ok then SetsServer(t) else Refuses(t)
      case SetFront => SetsService(t)
      case SetConfig => SetsStore(t)
      case Unlock(_) => if s.threads[t].cmd.CmdSave? then Gives(t) else Own
      case _ => Own
  }

  // destroyAll has returned to the handler when its thread is past the loop.
  ghost predicate Valid(rules: UrlRules, j: Joint, e: JointEvent)
    requires WellFormed(j.store)
  {
    && SessionMachine.Valid(j.store, e.store)
    && match e.net
       case None => StoreLabel(j.store, e.store).Own?
       case Some(ne) =>
         && Net.Valid(j.net, ne) && NetLabel(rules, j.net, ne) == StoreLabel(j.store, e.store)
         && (NetLabel(rules, j.net, ne).Own? ==> e.store == Tick(0))
         && (ne.Step? && j.net.posts[ne.t].pc.Draining? ==>
               ne.t < |j.store.threads| && j.store.threads[ne.t].pc.Unlock?)
  }

  function Next(rules: UrlRules, j: Joint, e: JointEvent): Joint
    requires WellFormed(j.store) && Valid(rules, j, e)
  {
    var net := if e.net.Some? then Net.Apply(rules, j.net, e.net.value) else j.net;
    var named := if StoreLabel(j.store, e.store).SetsServer? then j.named + [net.server] else j.named;
    Joint(net, Apply(j.store, e.store), named)
  }

  ghost predicate Start(j: Joint) {
    && Net.Init(j.net) && Init(j.store) && j.named == [j.net.server]
    && |j.net.posts| <= |j.store.threads|
    && forall t :: 0 <= t < |j.store.threads| ==> (j.store.threads[t].cmd.CmdSave? <==> t < |j.net.posts|)
  }

  ghost predicate Moves(rules: UrlRules, j: Joint, e: JointEvent, j': Joint) {
    WellFormed(j.store) && Valid(rules, j, e) && j' == Next(rules, j, e)
  }

  ghost predicate JointStepAt(rules: UrlRules, js: seq<Joint>, es: seq<JointEvent>, n: nat)
    requires n < |es| && n + 1 < |js|
  {
    Moves(rules, js[n], es[n], js[n + 1])
  }

  ghost predicate IsJointRun(rules: UrlRules, js: seq<Joint>, es: seq<JointEvent>) {
    && |js| == |es| + 1 && Start(js[0])
    && forall n :: 0 <= n < |es| ==> JointStepAt(rules, js, es, n)
  }

  lemma RunStarts(rules: UrlRules, js: seq<Joint>, es: seq<JointEvent>)
    requires IsJointRun(rules, js, es)
    ensures |js| == |es| + 1 && Start(js[0])
  {
    hide JointStepAt, Start;
  }

  // Its part in the store is a run of the session machine.
  function Stores(js: seq<Joint>): (r: seq<State>)
    ensures |r| == |js| && forall n :: 0 <= n < |js| ==> r[n] == js[n].store
  {
    seq(|js|, n requires 0 <= n < |js| => js[n].store)
  }

  function StoreEvents(es: seq<JointEvent>): (r: seq<Event>)
    ensures |r| == |es| && forall n :: 0 <= n < |es| ==> r[n] == es[n].store
  {
    seq(|es|, n requires 0 <= n < |es| => es[n].store)
  }

  lemma StoreRun(rules: UrlRules, js: seq<Joint>, es: seq<JointEvent>)
    requires IsJointRun(rules, js, es)
    ensures IsRun(Stores(js), StoreEvents(es))
  {
    hide Net.Apply, Net.Valid, Net.Init, NetLabel, StoreLabel, Apply, SessionMachine.Valid, WellFormed;
    forall n | 0 <= n < |es|
      ensures StepAt(Stores(js), StoreEvents(es), n)
    {
      assert JointStepAt(rules, js, es, n);
    }
  }

  // Which step of the handler belongs to which of its thread.
  ghost predicate PcMatch(net: Net.Pc, pc: Pc) {
    match net
    case Waiting => pc.Begin? || pc.Lock?
    case Deciding => pc.SetServer?
    case Saving(_) => pc.SetServer?
    case SettingServer(_) => pc.SetServer?
    case SettingService(_) => pc.SetFront?
    case SettingStore(_) => pc.SetConfig?
    case Draining(_) => Saving(pc) && VerOf(pc).Some?
    case SettingExporter(_) => pc.Unlock? && pc.r.Drained?
    case Stopping(_) => pc.Unlock? && pc.r.Drained?
    case Publishing(_, _) => pc.Unlock? && pc.r.Drained?
    case Leaving(status) => pc.Unlock? && AnswerMatch(status, pc.r)
    case Replied(status) => pc.Done? && AnswerMatch(status, pc.r)
  }

  // A 500 says that the file could not be written, or that the old exporter server
  // did not stop.
  predicate AnswerMatch(status: nat, r: Outcome) {
    || (status == 200 && r.Drained?)
    || (status == 400 && r.Refused?)
    || (status == 500 && (r.Drained? || r.Refused?))
  }

  ghost predicate Matched(j: Joint) {
    && |j.net.posts| <= |j.store.threads|
    && (forall t :: 0 <= t < |j.store.threads| ==> (j.store.threads[t].cmd.CmdSave? <==> t < |j.net.posts|))
    && (forall t :: 0 <= t < |j.net.posts| ==> PcMatch(j.net.posts[t].pc, j.store.threads[t].pc))
  }

  // The three copies are the configs that the store's numbers name.
  ghost predicate Named(j: Joint) {
    var s := j.store;
    && |j.named| == s.server + 1 && s.front < |j.named| && s.cfg < |j.named|
    && j.named[s.server] == j.net.server && j.named[s.front] == j.net.service && j.named[s.cfg] == j.net.store
  }

  // `new_` is what the payload makes of the config `old_`.
  ghost predicate MadeOf(rules: UrlRules, payload: Payload, old_: Config, new_: Config) {
    var c := ToConfig(rules, payload, old_);
    c.Ok? && new_ == Prepare(c.value)
  }

  // The number of the config that a save made live.
  function NumberOf(j: Joint, t: nat): Option<nat>
    requires t < |j.store.threads|
  {
    SaveNumber(j.store, j.store.threads[t].pc)
  }

  ghost predicate PostOk(rules: UrlRules, j: Joint, t: nat)
    requires t < |j.net.posts| && t < |j.store.threads|
  {
    var post := j.net.posts[t];
    && (post.pc.Saving? ==> ToConfig(rules, post.payload, j.net.server) == Ok(post.pc.c))
    && (post.pc.SettingServer? ==> MadeOf(rules, post.payload, j.net.server, post.pc.c))
    && (post.pc.SettingService? || post.pc.SettingStore? ==> post.pc.c == j.net.server)
    && (NumberOf(j, t).Some? ==>
          var k := NumberOf(j, t).value;
          0 < k < |j.named| && MadeOf(rules, post.payload, j.named[k - 1], j.named[k]))
  }

  // Every config but the first was made live by exactly one save.
  ghost predicate Authored(j: Joint)
    requires |j.net.posts| <= |j.store.threads|
  {
    && (forall k :: 0 < k < |j.named| ==> exists t :: 0 <= t < |j.net.posts| && NumberOf(j, t) == Some(k))
    && (forall t, u ::
          0 <= t < |j.net.posts| && 0 <= u < |j.net.posts| && NumberOf(j, t).Some? && NumberOf(j, t) == NumberOf(j, u)
          ==> t == u)
  }

  ghost predicate JointOk(rules: UrlRules, j: Joint) {
    && Matched(j) && Named(j) && j.net.holder == j.store.saver
    && (forall t :: 0 <= t < |j.net.posts| ==> PostOk(rules, j, t))
    && Authored(j)
  }

  // What a step does, by its label.  ------------------------------------------------

  // To the thread of a save.
  ghost predicate ThreadMoves(pc: Pc, pc': Pc, l: Label, t: nat) {
    match l
    case Takes(u) => if u == t then pc.Lock? && pc'.SetServer? else Stays(pc, pc')
    case Refuses(u) => if u == t then pc.SetServer? && pc' == Unlock(Refused) else Stays(pc, pc')
    case SetsServer(u) => if u == t then pc.SetServer? && pc'.SetFront? else Stays(pc, pc')
    case SetsService(u) => if u == t then pc.SetFront? && pc'.SetConfig? else Stays(pc, pc')
    case SetsStore(u) => if u == t then pc.SetConfig? && pc'.Drain? else Stays(pc, pc')
    case Gives(u) => if u == t then pc.Unlock? && pc' == Done(pc.r) else Stays(pc, pc')
    case Own => Stays(pc, pc')
  }

  ghost predicate Stays(pc: Pc, pc': Pc) {
    || pc' == pc
    || (pc.Begin? && pc'.Lock?)
    || (!pc.Unlock? && VerOf(pc).Some? && Saving(pc) && Saving(pc') && VerOf(pc') == VerOf(pc))
  }

  // To the store.
  ghost predicate StoreMoves(s: State, s': State, l: Label) {
    && |s'.threads| == |s.threads|
    && s'.server == (if l.SetsServer? then s.server + 1 else s.server)
    && s'.front == (if l.SetsService? then s.front + 1 else s.front)
    && s'.cfg == (if l.SetsStore? then s.cfg + 1 else s.cfg)
    && s'.saver == (if l.Takes? then Some(l.t) else if l.Gives? then None else s.saver)
    && (forall t :: 0 <= t < |s.threads| ==> s'.threads[t].cmd == s.threads[t].cmd)
    && (forall t :: 0 <= t < |s.threads| && s.threads[t].cmd.CmdSave? ==>
          ThreadMoves(s.threads[t].pc, s'.threads[t].pc, l, t))
  }

  // To the post of a save.
  ghost predicate PostMoves(rules: UrlRules, s: Net.State, post: Net.Post, post': Net.Post, l: Label, t: nat) {
    var pc, pc' := post.pc, post'.pc;
    && post'.payload == post.payload
    && match l
       case Takes(u) => if u == t then pc.Waiting? && pc'.Deciding? else pc' == pc
       case Refuses(u) =>
         if u == t then (pc.Deciding? && pc' == Net.Leaving(400)) || (pc.Saving? && pc' == Net.Leaving(500))
         else pc' == pc
       case SetsServer(u) =>
         if u == t then pc.SettingServer? && pc' == Net.SettingService(Prepare(pc.c)) else pc' == pc
       case SetsService(u) =>
         if u == t then pc.SettingService? && pc' == Net.SettingStore(pc.c) else pc' == pc
       case SetsStore(u) => if u == t then pc.SettingStore? && pc'.Draining? else pc' == pc
       case Gives(u) => if u == t then pc.Leaving? && pc' == Net.Replied(pc.status) else pc' == pc
       case Own =>
         || pc' == pc
         || (pc.Deciding? && pc'.Saving? && ToConfig(rules, post.payload, s.server) == Ok(pc'.c))
         || (pc.Saving? && pc' == Net.SettingServer(Prepare(pc.c)))
         || (pc.Draining? && pc'.SettingExporter?)
         || (pc.SettingExporter? && (pc'.Stopping? || pc'.Publishing?))
         || (pc.Stopping? && pc'.Publishing?)
         || (pc.Publishing? && (pc' == Net.Leaving(200) || pc' == Net.Leaving(500)))
  }

  // To the transaction.
  ghost predicate NetMoves(rules: UrlRules, s: Net.State, s': Net.State, l: Label) {
    && |s'.posts| == |s.posts|
    && (l.Own? || l.t < |s.posts|)
    && (forall t :: 0 <= t < |s.posts| ==> PostMoves(rules, s, s.posts[t], s'.posts[t], l, t))
    && s'.holder == (if l.Takes? then Some(l.t) else if l.Gives? then None else s.holder)
    && s'.server == (if l.SetsServer? then s.posts[l.t].pc.c else s.server)
    && s'.service == (if l.SetsService? then s.posts[l.t].pc.c else s.service)
    && s'.store == (if l.SetsStore? then s.posts[l.t].pc.c else s.store)
  }

  predicate AtCopies(pc: Net.Pc) { pc.SettingServer? || pc.SettingService? || pc.SettingStore? }

  lemma NetCopyMoves(rules: UrlRules, s: Net.State, e: Net.Event)
    requires Net.Valid(s, e) && e.Step? && AtCopies(s.posts[e.t].pc)
    ensures NetMoves(rules, s, Net.Apply(rules, s, e), NetLabel(rules, s, e))
  {
    hide Net.BeginApply, Net.Publish, ToConfig, Prepare;
  }

  lemma NetOwnMoves(rules: UrlRules, s: Net.State, e: Net.Event)
    requires Net.Valid(s, e) && (e.Step? ==> !AtCopies(s.posts[e.t].pc))
    ensures NetMoves(rules, s, Net.Apply(rules, s, e), NetLabel(rules, s, e))
  {
    hide Net.BeginApply, Net.Publish, ToConfig, Prepare;
  }

  lemma NetStepMoves(rules: UrlRules, s: Net.State, e: Net.Event)
    requires Net.Valid(s, e)
    ensures NetMoves(rules, s, Net.Apply(rules, s, e), NetLabel(rules, s, e))
  {
    hide NetMoves, Net.Apply, NetLabel;
    if e.Step? && AtCopies(s.posts[e.t].pc) { NetCopyMoves(rules, s, e); } else { NetOwnMoves(rules, s, e); }
  }

  lemma StoreStepMoves(s: State, e: Event)
    requires WellFormed(s) && SessionMachine.Valid(s, e) && Mutex(s) && |Apply(s, e).threads| == |s.threads|
    requires forall t :: 0 <= t < |s.threads| && !ActsAs(e, t) ==> Apply(s, e).threads[t] == s.threads[t]
    ensures StoreMoves(s, Apply(s, e), StoreLabel(s, e))
  {
    if e.Act? {
      hide StoreMoves, Apply, Effect, MutexMove, Mutex;
      StepEffect(s, e.t, e.c);
      MoveMutex(s, e.t, e.c);
      SaveOwnStep(s, e.t, e.c);
      ActMoves(s, e.t, e.c, Apply(s, e));
    }
  }

  lemma ActMoves(s: State, t: nat, c: Choice, s': State)
    requires CanStep(s, t, c) && Mutex(s) && |s'.threads| == |s.threads|
    requires forall u :: 0 <= u < |s.threads| && u != t ==> s'.threads[u] == s.threads[u]
    requires Effect(s, t, s') && MutexMove(s, t, s') && SaveOwnMoves(s, t, c, s')
    ensures StoreMoves(s, s', StoreLabel(s, Act(t, c)))
  {
    hide PcInRange, Enumerates;
    assert SaveOk(s, t);
  }

  ghost predicate SaveOwnMoves(s: State, t: nat, c: Choice, s': State)
    requires t < |s.threads| && |s'.threads| == |s.threads|
  {
    var pc, pc' := s.threads[t].pc, s'.threads[t].pc;
    && (pc.SetServer? ==> pc' == if c.ok then SetFront else Unlock(Refused))
    && (pc.Unlock? ==> pc' == Done(pc.r))
  }

  lemma SaveOwnStep(s: State, t: nat, c: Choice)
    requires CanStep(s, t, c) && |Apply(s, Act(t, c)).threads| == |s.threads|
    ensures SaveOwnMoves(s, t, c, Apply(s, Act(t, c)))
  {
    hide StepBegin, StepAskService, StepEnter, Reserve, StepAwait, StepBuild, StepSignal, StepCheck;
    hide StepJudge, StepUse, StepInspect, StepRelease, StepLock, StepSetFront, StepSetConfig;
    hide StepForget, StepCloseLock, StepCloseBody, StepCloseReturn, StepCloseRelease, StepTake, StepDrain;
  }

  // To the number of a save.
  ghost predicate NumbersMove(j: Joint, j': Joint, l: Label) {
    && |j'.store.threads| == |j.store.threads|
    && forall t :: 0 <= t < |j.store.threads| && j.store.threads[t].cmd.CmdSave? ==>
         if l == SetsServer(t) then NumberOf(j, t).None? && NumberOf(j', t) == Some(j'.store.server)
         else NumberOf(j', t) == NumberOf(j, t)
  }

  // The invariant.  ------------------------------------------------------------------

  // What a joint step does to both sides.
  ghost predicate BothMove(rules: UrlRules, j: Joint, j': Joint, l: Label) {
    && StoreMoves(j.store, j'.store, l) && NetMoves(rules, j.net, j'.net, l) && NumbersMove(j, j', l)
    && j'.named == (if l.SetsServer? then j.named + [j'.net.server] else j.named)
  }

  // destroyAll is over for the posts that stop draining, and for those only.
  ghost predicate DrainsTogether(j: Joint, j': Joint)
    requires |j'.net.posts| == |j.net.posts| <= |j.store.threads| == |j'.store.threads|
  {
    forall t :: 0 <= t < |j.net.posts| && j'.net.posts[t] != j.net.posts[t] && j.net.posts[t].pc.Draining? ==>
      j.store.threads[t].pc.Unlock? && j'.store.threads[t] == j.store.threads[t]
  }

  lemma PcMatchStep(rules: UrlRules, s: Net.State, post: Net.Post, post': Net.Post, pc: Pc, pc': Pc, l: Label, t: nat)
    requires PcMatch(post.pc, pc) && PostMoves(rules, s, post, post', l, t) && ThreadMoves(pc, pc', l, t)
    requires post' != post && post.pc.Draining? ==> pc.Unlock? && pc' == pc
    ensures PcMatch(post'.pc, pc')
  {
    hide PcMatch;
    if !l.Own? && l.t == t {
      MatchTogether(rules, s, post, post', pc, pc', l, t);
    } else {
      MatchApart(rules, s, post, post', pc, pc', l, t);
    }
  }

  lemma MatchTogether(
    rules: UrlRules, s: Net.State, post: Net.Post, post': Net.Post, pc: Pc, pc': Pc, l: Label, t: nat)
    requires PcMatch(post.pc, pc) && PostMoves(rules, s, post, post', l, t) && ThreadMoves(pc, pc', l, t)
    requires !l.Own? && l.t == t
    ensures PcMatch(post'.pc, pc')
  {
    hide ToConfig, Prepare, Stays;
  }

  lemma MatchApart(
    rules: UrlRules, s: Net.State, post: Net.Post, post': Net.Post, pc: Pc, pc': Pc, l: Label, t: nat)
    requires PcMatch(post.pc, pc) && PostMoves(rules, s, post, post', l, t) && Stays(pc, pc')
    requires l.Own? || l.t != t
    requires post' != post && post.pc.Draining? ==> pc.Unlock? && pc' == pc
    ensures PcMatch(post'.pc, pc')
  {
    hide ToConfig, Prepare;
    if post' == post { assert PcMatch(post.pc, pc'); }
  }

  lemma MatchedStep(rules: UrlRules, j: Joint, j': Joint, l: Label)
    requires Matched(j) && BothMove(rules, j, j', l) && DrainsTogether(j, j')
    ensures Matched(j')
  {
    hide PcMatch, PostMoves, ThreadMoves, NumbersMove;
    forall t | 0 <= t < |j.net.posts|
      ensures PcMatch(j'.net.posts[t].pc, j'.store.threads[t].pc)
    {
      PcMatchStep(rules, j.net, j.net.posts[t], j'.net.posts[t], j.store.threads[t].pc, j'.store.threads[t].pc, l, t);
    }
  }

  // Only the handler that holds applyMu is past waiting and not yet replied.
  lemma OneHandler(j: Joint)
    requires Matched(j) && Mutex(j.store) && j.net.holder == j.store.saver
    ensures forall t :: 0 <= t < |j.net.posts| && j.net.holder != Some(t) ==>
      j.net.posts[t].pc.Waiting? || j.net.posts[t].pc.Replied?
    ensures j.net.holder.Some? ==> j.net.holder.value < |j.net.posts|
    ensures j.net.holder.Some? ==>
      !j.net.posts[j.net.holder.value].pc.Waiting? && !j.net.posts[j.net.holder.value].pc.Replied?
  {
    forall t | 0 <= t < |j.net.posts| && j.net.holder != Some(t)
      ensures j.net.posts[t].pc.Waiting? || j.net.posts[t].pc.Replied?
    {
      assert PcMatch(j.net.posts[t].pc, j.store.threads[t].pc) && SaveOk(j.store, t);
    }
  }

  lemma NamedStep(rules: UrlRules, j: Joint, j': Joint, l: Label)
    requires Matched(j) && Named(j) && BothMove(rules, j, j', l) && Mutex(j.store) && Numbers(j.store)
    requires l.SetsService? || l.SetsStore? ==> l.t < |j.net.posts| && PostOk(rules, j, l.t)
    ensures Named(j')
  {
    hide ToConfig, Prepare, NumbersMove, MadeOf, NumberOf;
    if !l.Own? { assert PostMoves(rules, j.net, j.net.posts[l.t], j'.net.posts[l.t], l, l.t) && SaveOk(j.store, l.t); }
  }

  lemma PostStep(rules: UrlRules, j: Joint, j': Joint, l: Label, t: nat)
    requires Matched(j) && Named(j) && BothMove(rules, j, j', l) && t < |j.net.posts| && PostOk(rules, j, t)
    requires l.SetsServer? && l.t != t ==> j.net.posts[t].pc.Waiting? || j.net.posts[t].pc.Replied?
    ensures |j'.net.posts| == |j.net.posts| && |j'.store.threads| == |j.store.threads| && PostOk(rules, j', t)
  {
    hide ToConfig, Prepare, ThreadMoves, PcMatch, NumberOf;
    assert PostMoves(rules, j.net, j.net.posts[t], j'.net.posts[t], l, t);
    if l == SetsServer(t) { MadeIsPrepared(rules, j.net.posts[t].payload, j.net.server, j.net.posts[t].pc.c); }
  }

  lemma MadeIsPrepared(rules: UrlRules, payload: Payload, old_: Config, new_: Config)
    requires MadeOf(rules, payload, old_, new_)
    ensures Prepare(new_) == new_
  {
    hide ToConfig, Prepare;
    PrepareIdempotent(ToConfig(rules, payload, old_).value);
  }

  lemma EachAuthored(rules: UrlRules, j: Joint, j': Joint, l: Label, k: nat) returns (t: nat)
    requires Matched(j) && Named(j) && BothMove(rules, j, j', l) && Authored(j) && 0 < k < |j'.named|
    ensures t < |j.net.posts| && |j'.store.threads| == |j.store.threads| && NumberOf(j', t) == Some(k)
  {
    hide ThreadMoves, PostMoves, PcMatch, NumberOf;
    if k < |j.named| {
      t :| 0 <= t < |j.net.posts| && NumberOf(j, t) == Some(k);
    } else {
      t := l.t;
    }
  }

  lemma AuthoredStep(rules: UrlRules, j: Joint, j': Joint, l: Label)
    requires Matched(j) && Named(j) && BothMove(rules, j, j', l) && Authored(j) && Matched(j')
    requires forall t :: 0 <= t < |j.net.posts| ==> PostOk(rules, j, t)
    ensures Authored(j')
  {
    hide ThreadMoves, PostMoves, PcMatch, NumberOf, MadeOf;
    forall k | 0 < k < |j'.named|
      ensures exists t :: 0 <= t < |j'.net.posts| && NumberOf(j', t) == Some(k)
    {
      var t := EachAuthored(rules, j, j', l, k);
    }
    forall t, u | 0 <= t < |j.net.posts| && 0 <= u < |j.net.posts|
      && NumberOf(j', t).Some? && NumberOf(j', t) == NumberOf(j', u)
      ensures t == u
    {
      assert PostOk(rules, j, t) && PostOk(rules, j, u);
    }
  }

  lemma StartOk(rules: UrlRules, j: Joint)
    requires Start(j)
    ensures JointOk(rules, j)
  {
    hide ToConfig, Prepare;
  }

  lemma NumberMoves(states: seq<State>, es: seq<Event>, n: nat, l: Label, t: nat)
    requires n < |es| && n + 1 < |states| && StepFacts(states, es, n) && Numbers(states[n])
    requires StoreMoves(states[n], states[n + 1], l) && t < |states[n].threads| && states[n].threads[t].cmd.CmdSave?
    ensures var k := SaveNumber(states[n], states[n].threads[t].pc);
      var k' := SaveNumber(states[n + 1], states[n + 1].threads[t].pc);
      if l == SetsServer(t) then k.None? && k' == Some(states[n + 1].server) else k' == k
  {
    hide StepFacts, Numbers;
    SaveStep(states, es, n, t);
  }

  lemma NumbersMoveInStep(rules: UrlRules, js: seq<Joint>, es: seq<JointEvent>, n: nat, l: Label)
    requires IsJointRun(rules, js, es) && n < |es| && StoreMoves(js[n].store, js[n + 1].store, l)
    ensures NumbersMove(js[n], js[n + 1], l)
  {
    StoreRun(rules, js, es);
    var states, events := Stores(js), StoreEvents(es);
    FactsOf(states, events, n);
    CopiesInStep(states, events, n);
    hide IsJointRun, IsRun, StepFacts, Numbers, ThreadMoves;
    forall t | 0 <= t < |js[n].store.threads| && js[n].store.threads[t].cmd.CmdSave?
      ensures
        if l == SetsServer(t) then
          NumberOf(js[n], t).None? && NumberOf(js[n + 1], t) == Some(js[n + 1].store.server)
        else
          NumberOf(js[n + 1], t) == NumberOf(js[n], t)
    {
      NumberMoves(states, events, n, l, t);
    }
  }

  lemma OnePostMoves(rules: UrlRules, s: Net.State, e: Net.Event)
    requires Net.Valid(s, e)
    ensures |Net.Apply(rules, s, e).posts| == |s.posts|
    ensures forall t :: 0 <= t < |s.posts| && !(e.Step? && e.t == t) ==> Net.Apply(rules, s, e).posts[t] == s.posts[t]
  {
    hide Net.BeginApply, Net.Publish, ToConfig, Prepare;
  }

  lemma DrainsTogetherInStep(rules: UrlRules, j: Joint, e: JointEvent, j': Joint)
    requires Matched(j) && Moves(rules, j, e, j') && |j'.store.threads| == |j.store.threads|
    ensures |j'.net.posts| == |j.net.posts| && DrainsTogether(j, j')
  {
    hide Net.Apply, PcMatch;
    if e.net.Some? { OnePostMoves(rules, j.net, e.net.value); }
    if e.net.Some? && e.net.value.Step? && j.net.posts[e.net.value.t].pc.Draining? {
      assert NetLabel(rules, j.net, e.net.value).Own?;
      assert j'.store.threads == j.store.threads;
    }
  }

  lemma BothMoveInStep(rules: UrlRules, js: seq<Joint>, es: seq<JointEvent>, n: nat) returns (l: Label)
    requires IsJointRun(rules, js, es) && n < |es|
    ensures BothMove(rules, js[n], js[n + 1], l) && |js[n + 1].store.threads| == |js[n].store.threads|
    ensures Moves(rules, js[n], es[n], js[n + 1])
  {
    StoreRun(rules, js, es);
    var j, e := js[n], es[n];
    assert JointStepAt(rules, js, es, n);
    l := StoreLabel(j.store, e.store);
    StepFollows(Stores(js), StoreEvents(es), n);
    SavesApart(Stores(js), StoreEvents(es), n);
    hide IsJointRun, IsRun, Net.Apply, Apply, Net.Valid, SessionMachine.Valid, WellFormed, Inv, Mutex, ItemFollows;
    StoreStepMoves(j.store, e.store);
    NumbersMoveInStep(rules, js, es, n, l);
    hide StoreMoves, NumbersMove, NetMoves;
    if e.net.Some? { NetStepMoves(rules, j.net, e.net.value); } else { NetRests(rules, j.net, l); }
  }

  lemma NetRests(rules: UrlRules, s: Net.State, l: Label)
    requires l.Own?
    ensures NetMoves(rules, s, s, l)
  {
  }

  lemma StoreInStep(rules: UrlRules, js: seq<Joint>, es: seq<JointEvent>, n: nat)
    requires IsJointRun(rules, js, es) && n < |js|
    ensures Mutex(js[n].store) && Numbers(js[n].store) && Inv(js[n].store)
  {
    StoreRun(rules, js, es);
    hide IsJointRun, IsRun, Inv, Mutex, Numbers;
    Reachable(Stores(js), StoreEvents(es), n);
    SavesApart(Stores(js), StoreEvents(es), n);
    CopiesInStep(Stores(js), StoreEvents(es), n);
  }

  lemma JointOkStep(rules: UrlRules, js: seq<Joint>, es: seq<JointEvent>, n: nat)
    requires IsJointRun(rules, js, es) && n < |es| && JointOk(rules, js[n])
    ensures JointOk(rules, js[n + 1])
  {
    hide JointOk, Mutex, Numbers, BothMove, Moves, Inv;
    StoreInStep(rules, js, es, n);
    var l := BothMoveInStep(rules, js, es, n);
    JointStep(rules, js[n], es[n], js[n + 1], l);
  }

  // Every state of a joint run satisfies the invariant.
  lemma {:induction false} JointReachable(rules: UrlRules, js: seq<Joint>, es: seq<JointEvent>, n: nat)
    requires IsJointRun(rules, js, es) && n < |js|
    ensures JointOk(rules, js[n])
  {
    hide *;
    RunStarts(rules, js, es);
    if n == 0 {
      StartOk(rules, js[0]);
    } else {
      JointReachable(rules, js, es, n - 1);
      JointOkStep(rules, js, es, n - 1);
    }
  }

  lemma JointStep(rules: UrlRules, j: Joint, e: JointEvent, j': Joint, l: Label)
    requires JointOk(rules, j) && Mutex(j.store) && Numbers(j.store)
    requires BothMove(rules, j, j', l) && Moves(rules, j, e, j') && |j'.store.threads| == |j.store.threads|
    ensures JointOk(rules, j')
  {
    hide Moves, Matched, PostOk, Named, Numbers, Mutex, ThreadMoves, PostMoves, NumbersMove;
    assert |j.net.posts| <= |j.store.threads| by { PostsAreThreads(j); }
    OneHandler(j);
    if l.SetsServer? { SetterIsSetting(rules, j.net, j'.net, l); }
    DrainsTogetherInStep(rules, j, e, j');
    MatchedStep(rules, j, j', l);
    NamedStep(rules, j, j', l);
    forall t | 0 <= t < |j.net.posts| ensures PostOk(rules, j', t) {
      PostStep(rules, j, j', l, t);
    }
    AuthoredStep(rules, j, j', l);
  }

  lemma SetterIsSetting(rules: UrlRules, s: Net.State, s': Net.State, l: Label)
    requires NetMoves(rules, s, s', l) && l.SetsServer?
    ensures l.t < |s.posts| && s.posts[l.t].pc.SettingServer?
  {
    hide ToConfig, Prepare;
    assert PostMoves(rules, s, s.posts[l.t], s'.posts[l.t], l, l.t);
  }

  lemma PostsAreThreads(j: Joint)
    requires Matched(j)
    ensures |j.net.posts| <= |j.store.threads|
  {
  }

  // What holds of every joint run.  ----------------------------------------------------

  // The step at which a save that is past its drain emptied the store.
  lemma {:induction false} DrainTrace(states: seq<State>, es: seq<Event>, n: nat, t: nat, ver: nat) returns (m: nat)
    requires IsRun(states, es) && n < |states| && t < |states[n].threads|
    requires states[n].threads[t].cmd.CmdSave? && PastDrain(states[n].threads[t].pc, ver)
    ensures m < n && ActsAs(es[m], t) && t < |states[m].threads| && states[m].threads[t].pc == Drain(ver)
  {
    hide *;
    DrainHasBegun(states, es, n, t, ver);
    DrainStepInRun(states, es, n - 1, t, ver);
    if PastDrain(states[n - 1].threads[t].pc, ver) {
      m := DrainTrace(states, es, n - 1, t, ver);
    } else {
      m := n - 1;
    }
  }

  lemma DrainHasBegun(states: seq<State>, es: seq<Event>, n: nat, t: nat, ver: nat)
    requires IsRun(states, es) && n < |states| && t < |states[n].threads| && PastDrain(states[n].threads[t].pc, ver)
    ensures 0 < n <= |es|
  {
    hide StepAt;
  }

  lemma DrainStepInRun(states: seq<State>, es: seq<Event>, n: nat, t: nat, ver: nat)
    requires IsRun(states, es) && n < |es| && n + 1 < |states| && t < |states[n + 1].threads|
    requires states[n + 1].threads[t].cmd.CmdSave? && PastDrain(states[n + 1].threads[t].pc, ver)
    ensures t < |states[n].threads| && states[n].threads[t].cmd.CmdSave?
    ensures PastDrain(states[n].threads[t].pc, ver) || (ActsAs(es[n], t) && states[n].threads[t].pc == Drain(ver))
  {
    hide *;
    FactsOf(states, es, n);
    KeepsCommand(states, es, n, t);
    DrainStep(states, es, n, t, ver);
  }

  lemma DrainStep(states: seq<State>, es: seq<Event>, n: nat, t: nat, ver: nat)
    requires n < |es| && n + 1 < |states| && StepFacts(states, es, n) && t < |states[n].threads|
    requires states[n].threads[t].cmd.CmdSave? && PastDrain(states[n + 1].threads[t].pc, ver)
    ensures PastDrain(states[n].threads[t].pc, ver) || (ActsAs(es[n], t) && states[n].threads[t].pc == Drain(ver))
  {
    assert SaveOk(states[n], t);
    if ActsAs(es[n], t) {
      assert Effect(states[n], t, states[n + 1]) && MutexMove(states[n], t, states[n + 1]);
    }
  }

  // The store's part: who is mapped, and who was removed.
  lemma DoneSaveIsInForce(states: seq<State>, es: seq<Event>, n: nat, t: nat) returns (m: nat)
    requires IsRun(states, es) && n < |states| && t < |states[n].threads| && states[n].threads[t].cmd.CmdSave?
    requires (states[n].threads[t].pc.Unlock? || states[n].threads[t].pc.Done?) && states[n].threads[t].pc.r.Drained?
    ensures var s := states[n]; var ver := s.threads[t].pc.r.ver;
      && AllFrom(s, ver)
      && m < n && ActsAs(es[m], t) && t < |states[m].threads| && states[m].threads[t].pc == Drain(ver)
      && forall id :: id in states[m].sessions ==>
           var i := states[m].sessions[id]; i < |s.items| && Finished(s.items[i])
  {
    var ver := states[n].threads[t].pc.r.ver;
    m := DrainTrace(states, es, n, t, ver);
    AllFromAtDrain(states, es, n, t, ver);
    hide IsRun, AllFrom, Finished;
    forall id | id in states[m].sessions
      ensures var i := states[m].sessions[id]; i < |states[n].items| && Finished(states[n].items[i])
    {
      DrainClosesWhatItRemoved(states, es, m, n, id);
    }
  }

  lemma NewestIsNamed(states: seq<State>, es: seq<Event>, n: nat, i: nat)
    requires IsRun(states, es) && n < |states| && i < |states[n].items|
    ensures states[n].items[i].ver <= states[n].cfg
  {
    SlotInRun(states, es, n, i);
  }

  // Which saves are in force.  ------------------------------------------------------

  // The handler has its answer; applyMu is still held or given back.
  predicate Answered(pc: Net.Pc) { pc.Leaving? || pc.Replied? }

  // The steps that decide about an answer: the file is written, the payload is
  // refused, the old exporter server does not stop.
  datatype Turn = WritesFile | RefusesPayload | StopFails

  // Step m is the one at which this happens to the handler of post t.
  ghost predicate Turns(rules: UrlRules, j: Joint, e: JointEvent, t: nat, k: Turn) {
    && e.net.Some? && e.net.value.Step? && e.net.value.t == t && t < |j.net.posts|
    && match k
       case WritesFile => j.net.posts[t].pc.Saving? && e.net.value.ok
       case RefusesPayload => j.net.posts[t].pc.Deciding? && ToConfig(rules, j.net.posts[t].payload, j.net.server).Err?
       case StopFails => j.net.posts[t].pc.Stopping? && !e.net.value.ok
  }

  ghost predicate TurnedAt(rules: UrlRules, js: seq<Joint>, es: seq<JointEvent>, m: nat, t: nat, k: Turn) {
    m < |es| && m < |js| && Turns(rules, js[m], es[m], t, k)
  }

  ghost predicate TurnedBefore(rules: UrlRules, js: seq<Joint>, es: seq<JointEvent>, n: nat, t: nat, k: Turn) {
    exists m :: 0 <= m < n && TurnedAt(rules, js, es, m, t, k)
  }

  // What one can see of it later on.
  ghost predicate Shows(j: Joint, t: nat, k: Turn)
    requires t < |j.net.posts| && t < |j.store.threads|
  {
    var pc := j.net.posts[t].pc;
    match k
    case WritesFile =>
      if Answered(pc) then NumberOf(j, t).Some? else !pc.Waiting? && !pc.Deciding? && !pc.Saving?
    case RefusesPayload => Answered(pc) && pc.status == 400
    case StopFails =>
      if Answered(pc) then pc.status == 500 && NumberOf(j, t).Some? else pc.Publishing? && !pc.ok
  }

  // What a step makes of the post it is a step of.
  ghost predicate OwnPc(rules: UrlRules, s: Net.State, t: nat, ok: bool, pc': Net.Pc)
    requires t < |s.posts|
  {
    match s.posts[t].pc
    case Waiting => pc'.Deciding?
    case Deciding =>
      if ToConfig(rules, s.posts[t].payload, s.server).Err? then pc' == Net.Leaving(400) else pc'.Saving?
    case Saving(_) => if ok then pc'.SettingServer? else pc' == Net.Leaving(500)
    case SettingExporter(_) => pc'.Stopping? || (pc'.Publishing? && pc'.ok)
    case Stopping(_) => pc'.Publishing? && pc'.ok == ok
    case Publishing(_, fine) => pc' == Net.Leaving(if fine then 200 else 500)
    case Leaving(status) => pc' == Net.Replied(status)
    case _ => pc'.SettingService? || pc'.SettingStore? || pc'.Draining? || pc'.SettingExporter?
  }

  lemma OwnPostStep(rules: UrlRules, s: Net.State, t: nat, ok: bool)
    requires Net.Valid(s, Net.Step(t, ok))
    ensures var s' := Net.Apply(rules, s, Net.Step(t, ok)); t < |s'.posts| && OwnPc(rules, s, t, ok, s'.posts[t].pc)
  {
    hide Net.BeginApply, Net.Publish, ToConfig, Prepare;
  }

  // The number of a save changes only with the server's copy.
  lemma NumberStays(rules: UrlRules, j: Joint, j': Joint, l: Label, t: nat)
    requires Matched(j) && BothMove(rules, j, j', l) && t < |j.net.posts|
    ensures t < |j'.net.posts| && t < |j.store.threads| && t < |j'.store.threads|
    ensures NumberOf(j', t) == NumberOf(j, t) || j.net.posts[t].pc.SettingServer?
  {
    hide ToConfig, Prepare, PcMatch, NumberOf;
    assert PostMoves(rules, j.net, j.net.posts[t], j'.net.posts[t], l, t);
    assert j.store.threads[t].cmd.CmdSave?;
  }

  lemma OwnShows(rules: UrlRules, j: Joint, e: JointEvent, j': Joint, t: nat, k: Turn)
    requires t < |j.net.posts| && t < |j.store.threads| && t < |j'.net.posts| && t < |j'.store.threads|
    requires e.net.Some? && e.net.value.Step? && e.net.value.t == t && !j.net.posts[t].pc.Replied?
    requires OwnPc(rules, j.net, t, e.net.value.ok, j'.net.posts[t].pc)
    requires PcMatch(j.net.posts[t].pc, j.store.threads[t].pc)
    requires NumberOf(j', t) == NumberOf(j, t) || j.net.posts[t].pc.SettingServer?
    ensures Shows(j', t, k) <==> Shows(j, t, k) || Turns(rules, j, e, t, k)
  {
    hide ToConfig;
  }

  lemma ShowsStep(rules: UrlRules, j: Joint, e: JointEvent, j': Joint, l: Label, t: nat, k: Turn)
    requires Matched(j) && Matched(j') && BothMove(rules, j, j', l) && Moves(rules, j, e, j')
    requires t < |j.net.posts| && |j'.net.posts| == |j.net.posts|
    ensures Shows(j', t, k) <==> Shows(j, t, k) || Turns(rules, j, e, t, k)
  {
    hide Net.Apply, Apply, StoreLabel, NetLabel, ToConfig, BothMove, SessionMachine.Valid, OwnPc, NumberOf, PcMatch;
    NumberStays(rules, j, j', l, t);
    if e.net.Some? && e.net.value.Step? && e.net.value.t == t {
      OwnPostStep(rules, j.net, t, e.net.value.ok);
      OwnShows(rules, j, e, j', t, k);
    } else if e.net.Some? {
      OnePostMoves(rules, j.net, e.net.value);
    }
  }

  lemma StepIsMatched(rules: UrlRules, js: seq<Joint>, es: seq<JointEvent>, n: nat) returns (l: Label)
    requires IsJointRun(rules, js, es) && n < |es| && n + 1 < |js|
    ensures Matched(js[n]) && Matched(js[n + 1]) && BothMove(rules, js[n], js[n + 1], l)
    ensures Moves(rules, js[n], es[n], js[n + 1])
  {
    hide IsJointRun, Matched, BothMove, Moves;
    JointReachable(rules, js, es, n);
    JointReachable(rules, js, es, n + 1);
    l := BothMoveInStep(rules, js, es, n);
  }

  lemma SamePosts(rules: UrlRules, j: Joint, j': Joint, l: Label)
    requires BothMove(rules, j, j', l)
    ensures |j'.net.posts| == |j.net.posts|
  {
    hide PostMoves, ToConfig, Prepare;
  }

  lemma TurnedMore(rules: UrlRules, js: seq<Joint>, es: seq<JointEvent>, n: nat, t: nat, k: Turn)
    requires n < |es| && n < |js|
    ensures TurnedBefore(rules, js, es, n + 1, t, k) <==>
      TurnedBefore(rules, js, es, n, t, k) || Turns(rules, js[n], es[n], t, k)
  {
    hide Turns;
    assert TurnedAt(rules, js, es, n, t, k) <==> Turns(rules, js[n], es[n], t, k);
    hide TurnedAt;
  }

  lemma NothingBefore(rules: UrlRules, js: seq<Joint>, es: seq<JointEvent>, t: nat, k: Turn)
    ensures !TurnedBefore(rules, js, es, 0, t, k)
  {
    hide TurnedAt;
  }

  lemma ShowsStepInRun(rules: UrlRules, js: seq<Joint>, es: seq<JointEvent>, n: nat, t: nat, k: Turn)
    requires IsJointRun(rules, js, es) && n < |es| && n + 1 < |js| && t < |js[n + 1].net.posts|
    ensures t < |js[n].net.posts| && t < |js[n].store.threads| && t < |js[n + 1].store.threads|
    ensures Shows(js[n + 1], t, k) <==> Shows(js[n], t, k) || Turns(rules, js[n], es[n], t, k)
  {
    hide *;
    var l := StepIsMatched(rules, js, es, n);
    SamePosts(rules, js[n], js[n + 1], l);
    PostsAreThreads(js[n]);
    PostsAreThreads(js[n + 1]);
    ShowsStep(rules, js[n], es[n], js[n + 1], l, t, k);
  }

  lemma NothingShows(j: Joint, t: nat, k: Turn)
    requires Start(j) && t < |j.net.posts|
    ensures t < |j.store.threads| && !Shows(j, t, k)
  {
  }

  lemma {:induction false} ShowsExactly(
    rules: UrlRules, js: seq<Joint>, es: seq<JointEvent>, n: nat, t: nat, k: Turn)
    requires IsJointRun(rules, js, es) && n < |js| && t < |js[n].net.posts|
    ensures t < |js[n].store.threads| && (Shows(js[n], t, k) <==> TurnedBefore(rules, js, es, n, t, k))
  {
    hide *;
    RunStarts(rules, js, es);
    if n == 0 {
      NothingShows(js[0], t, k);
      NothingBefore(rules, js, es, t, k);
    } else {
      ShowsStepInRun(rules, js, es, n - 1, t, k);
      ShowsExactly(rules, js, es, n - 1, t, k);
      TurnedMore(rules, js, es, n - 1, t, k);
    }
  }

  lemma AnswerShows(rules: UrlRules, j: Joint, t: nat)
    requires JointOk(rules, j) && t < |j.net.posts| && t < |j.store.threads| && Answered(j.net.posts[t].pc)
    ensures var status := j.net.posts[t].pc.status;
      && (Shows(j, t, WritesFile) <==> NumberOf(j, t).Some?)
      && status == (if Shows(j, t, RefusesPayload) then 400
                    else if Shows(j, t, WritesFile) && !Shows(j, t, StopFails) then 200 else 500)
      && (Shows(j, t, RefusesPayload) ==> !Shows(j, t, WritesFile))
  {
    hide Authored, MadeOf, PostOk, Named;
    assert PcMatch(j.net.posts[t].pc, j.store.threads[t].pc);
  }

  // The answer of a save, whatever else happens: 400 if and only if its payload was
  // refused, 200 if and only if its file was written and no exporter server failed
  // to stop, and 500 otherwise.
  lemma AnswerExactly(rules: UrlRules, js: seq<Joint>, es: seq<JointEvent>, n: nat, t: nat)
    requires IsJointRun(rules, js, es) && n < |js| && t < |js[n].net.posts| && Answered(js[n].net.posts[t].pc)
    ensures js[n].net.posts[t].pc.status ==
      if TurnedBefore(rules, js, es, n, t, RefusesPayload) then 400
      else if TurnedBefore(rules, js, es, n, t, WritesFile) && !TurnedBefore(rules, js, es, n, t, StopFails) then 200
      else 500
    // and its config was made live, under a number, if and only if the file was written
    ensures t < |js[n].store.threads|
    ensures NumberOf(js[n], t).Some? <==> TurnedBefore(rules, js, es, n, t, WritesFile)
    ensures TurnedBefore(rules, js, es, n, t, RefusesPayload) ==> !TurnedBefore(rules, js, es, n, t, WritesFile)
  {
    hide *;
    ShowsExactly(rules, js, es, n, t, WritesFile);
    ShowsExactly(rules, js, es, n, t, RefusesPayload);
    ShowsExactly(rules, js, es, n, t, StopFails);
    JointReachable(rules, js, es, n);
    AnswerShows(rules, js[n], t);
  }

  lemma AnsweredSave(rules: UrlRules, j: Joint, t: nat)
    requires JointOk(rules, j) && t < |j.net.posts| && t < |j.store.threads|
    requires Answered(j.net.posts[t].pc) && NumberOf(j, t).Some?
    ensures |j.net.posts| <= |j.store.threads| && j.store.threads[t].cmd.CmdSave? && j.store.cfg < |j.named|
    ensures var pc := j.store.threads[t].pc;
      && (pc.Unlock? || pc.Done?) && pc.r.Drained? && 0 < pc.r.ver < |j.named|
      && MadeOf(rules, j.net.posts[t].payload, j.named[pc.r.ver - 1], j.named[pc.r.ver])
  {
    hide Authored, MadeOf;
    assert PostOk(rules, j, t);
    assert PcMatch(j.net.posts[t].pc, j.store.threads[t].pc);
  }

  // When a POST of the settings page has its answer, and that is 200 or the save
  // wrote the file, the config that its payload made of the one before is in force:
  // every session in the map was reserved under it or a newer one, and every
  // session that was in the map when the save emptied it is closed.
  lemma AnsweredSaveIsInForce(rules: UrlRules, js: seq<Joint>, es: seq<JointEvent>, n: nat, t: nat)
    returns (ver: nat, m: nat)
    requires IsJointRun(rules, js, es) && n < |js| && t < |js[n].net.posts| && Answered(js[n].net.posts[t].pc)
    requires js[n].net.posts[t].pc.status == 200 || TurnedBefore(rules, js, es, n, t, WritesFile)
    ensures var j := js[n]; var s := j.store;
      && 0 < ver < |j.named| && MadeOf(rules, j.net.posts[t].payload, j.named[ver - 1], j.named[ver])
      && (forall id :: id in s.sessions ==>
            s.sessions[id] < |s.items| && ver <= s.items[s.sessions[id]].ver < |j.named|)
    ensures m < n && m < |es| && ActsAs(es[m].store, t)
    ensures t < |js[m].store.threads| && js[m].store.threads[t].pc == Drain(ver)
    ensures forall id :: id in js[m].store.sessions ==>
      var i := js[m].store.sessions[id]; i < |js[n].store.items| && Finished(js[n].store.items[i])
  {
    hide *;
    AnswerExactly(rules, js, es, n, t);
    RunStarts(rules, js, es);
    JointReachable(rules, js, es, n);
    AnsweredSave(rules, js[n], t);
    StoreRun(rules, js, es);
    var states, events := Stores(js), StoreEvents(es);
    m := DoneSaveIsInForce(states, events, n, t);
    ver := js[n].store.threads[t].pc.r.ver;
    assert AllFrom(states[n], ver);
    MappedVersions(states, events, n, ver);
  }

  lemma MappedVersions(states: seq<State>, es: seq<Event>, n: nat, ver: nat)
    requires IsRun(states, es) && n < |states| && AllFrom(states[n], ver)
    ensures forall id :: id in states[n].sessions ==>
      && states[n].sessions[id] < |states[n].items|
      && ver <= states[n].items[states[n].sessions[id]].ver <= states[n].cfg
  {
    hide IsRun;
    forall id | id in states[n].sessions
      ensures states[n].sessions[id] < |states[n].items|
      ensures states[n].items[states[n].sessions[id]].ver <= states[n].cfg
    {
      NewestIsNamed(states, es, n, states[n].sessions[id]);
    }
  }

  // No update is lost: every config after the first is what the payload of exactly
  // one save made of the config before it, and with no save in progress the three
  // copies are the last of them.
  lemma NoUpdateIsLost(rules: UrlRules, js: seq<Joint>, es: seq<JointEvent>, n: nat, k: nat) returns (t: nat)
    requires IsJointRun(rules, js, es) && n < |js| && 0 < k < |js[n].named|
    ensures var j := js[n];
      && t < |j.net.posts| <= |j.store.threads| && NumberOf(j, t) == Some(k)
      && MadeOf(rules, j.net.posts[t].payload, j.named[k - 1], j.named[k])
      && (forall u :: 0 <= u < |j.net.posts| && NumberOf(j, u) == Some(k) ==> u == t)
      && (j.net.holder.None? ==> j.net.server == j.net.service == j.net.store == j.named[|j.named| - 1])
  {
    hide *;
    RunStarts(rules, js, es);
    JointReachable(rules, js, es, n);
    t := Author(rules, js[n], k);
    StoreInStep(rules, js, es, n);
    if js[n].net.holder.None? { LastIsLive(rules, js[n]); }
  }

  lemma Author(rules: UrlRules, j: Joint, k: nat) returns (t: nat)
    requires JointOk(rules, j) && 0 < k < |j.named|
    ensures t < |j.net.posts| <= |j.store.threads| && NumberOf(j, t) == Some(k)
    ensures MadeOf(rules, j.net.posts[t].payload, j.named[k - 1], j.named[k])
    ensures forall u :: 0 <= u < |j.net.posts| && NumberOf(j, u) == Some(k) ==> u == t
  {
    hide NumberOf, MadeOf, PcMatch;
    t :| 0 <= t < |j.net.posts| && NumberOf(j, t) == Some(k);
    assert PostOk(rules, j, t);
  }

  lemma LastIsLive(rules: UrlRules, j: Joint)
    requires JointOk(rules, j) && Numbers(j.store) && j.net.holder.None?
    ensures j.named != [] && j.net.server == j.net.service == j.net.store == j.named[|j.named| - 1]
  {
    hide NumberOf, MadeOf, PcMatch, Matched, PostOk, Authored;
  }
}
