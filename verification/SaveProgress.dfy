// Settings saves and the sessions' commands together come to their end: what the
// handlers and the threads of the store wait for is never a circle, and the work
// left is bounded.
module SaveProgress {
  import opened Wrappers
  import opened Config
  import opened SessionMachine
  import opened SessionInvariant
  import opened SessionMutex
  import opened SessionProgress
  import opened SessionTheorems
  import opened SessionProxy
  import opened SaveInForce
  import Net = SettingsTransaction

  // A handler or a command takes a step; the clock and the shutdown of the exporter
  // are no such events.
  predicate Works(e: JointEvent) { if e.net.Some? then e.net.value.Step? else e.store.Act? }

  // While a command of any kind is unfinished, some handler or some command can
  // take a step.
  lemma NeverStuck(rules: UrlRules, js: seq<Joint>, es: seq<JointEvent>, n: nat, t: nat) returns (e: JointEvent)
    requires IsJointRun(rules, js, es) && n < |js| && t < |js[n].store.threads| && Unfinished(js[n].store, t)
    ensures WellFormed(js[n].store) && SaveInForce.Valid(rules, js[n], e) && Works(e)
  {
    hide *;
    RunStarts(rules, js, es);
    JointReachable(rules, js, es, n);
    StoreInStep(rules, js, es, n);
    StoreIsWellFormed(js[n].store);
    var b, c := NoDeadlock(js[n].store, t);
    StepperIsUnfinished(js[n].store, b, c);
    if b < |js[n].net.posts| {
      e := SaveCanStep(rules, js[n], b);
    } else {
      e := OtherCanStep(rules, js[n], b, c);
    }
  }

  lemma StepperIsUnfinished(s: State, t: nat, c: Choice)
    requires CanStep(s, t, c)
    ensures t < |s.threads| && Unfinished(s, t)
  {
    hide Enumerates;
  }

  lemma OtherCanStep(rules: UrlRules, j: Joint, b: nat, c: Choice) returns (e: JointEvent)
    requires JointOk(rules, j) && Mutex(j.store) && CanStep(j.store, b, c) && |j.net.posts| <= b
    ensures SaveInForce.Valid(rules, j, e) && Works(e)
  {
    hide PostOk, Authored, Named, PcInRange, PcMatch, Enumerates;
    assert SaveOk(j.store, b);
    e := JointEvent(None, Act(b, c));
  }

  lemma SaveCanStep(rules: UrlRules, j: Joint, t: nat) returns (e: JointEvent)
    requires JointOk(rules, j) && Inv(j.store) && Mutex(j.store) && WellFormed(j.store)
    requires t < |j.net.posts| && t < |j.store.threads| && Unfinished(j.store, t)
    ensures SaveInForce.Valid(rules, j, e) && Works(e)
  {
    hide *;
    UnfinishedIsUnreplied(rules, j, t);
    Handlers(rules, j, t);
    if j.net.holder.None? {
      e := WaiterCanStep(rules, j, t);
    } else if j.net.posts[j.net.holder.value].pc.Draining? {
      e := DrainerCanStep(rules, j, j.net.holder.value);
    } else {
      e := HolderCanStep(rules, j, j.net.holder.value);
    }
  }

  lemma UnfinishedIsUnreplied(rules: UrlRules, j: Joint, t: nat)
    requires JointOk(rules, j) && t < |j.net.posts| && t < |j.store.threads|
    ensures j.net.posts[t].pc.Replied? <==> !Unfinished(j.store, t)
  {
    hide PostOk, Authored, Named;
    assert PcMatch(j.net.posts[t].pc, j.store.threads[t].pc);
  }

  lemma StoreIsWellFormed(s: State)
    requires Inv(s)
    ensures WellFormed(s)
  {
  }

  lemma Handlers(rules: UrlRules, j: Joint, t: nat)
    requires JointOk(rules, j) && Mutex(j.store) && t < |j.net.posts| && !j.net.posts[t].pc.Replied?
    ensures j.net.holder.None? ==> j.net.posts[t].pc.Waiting?
    ensures j.net.holder.Some? ==> j.net.holder.value < |j.net.posts|
    ensures j.net.holder.Some? ==>
      !j.net.posts[j.net.holder.value].pc.Waiting? && !j.net.posts[j.net.holder.value].pc.Replied?
  {
    hide Mutex, PostOk, Authored, Named;
    OneHandler(j);
  }

  lemma WaiterCanStep(rules: UrlRules, j: Joint, t: nat) returns (e: JointEvent)
    requires JointOk(rules, j) && WellFormed(j.store)
    requires j.net.holder.None? && t < |j.net.posts| && j.net.posts[t].pc.Waiting?
    ensures SaveInForce.Valid(rules, j, e) && Works(e)
  {
    hide PostOk, Authored, Named, PcInRange;
    assert PcMatch(j.net.posts[t].pc, j.store.threads[t].pc);
    e := JointEvent(if j.store.threads[t].pc.Lock? then Some(Net.Step(t, true)) else None, Act(t, SOME_CHOICE));
  }

  lemma HolderCanStep(rules: UrlRules, j: Joint, t: nat) returns (e: JointEvent)
    requires JointOk(rules, j) && WellFormed(j.store) && t < |j.net.posts|
    requires !j.net.posts[t].pc.Waiting? && !j.net.posts[t].pc.Replied? && !j.net.posts[t].pc.Draining?
    ensures SaveInForce.Valid(rules, j, e) && Works(e)
  {
    hide PostOk, Authored, Named, PcInRange, ToConfig;
    assert PcMatch(j.net.posts[t].pc, j.store.threads[t].pc);
    var own := NetLabel(rules, j.net, Net.Step(t, true)).Own?;
    var ok := !j.net.posts[t].pc.Deciding?;
    e := JointEvent(Some(Net.Step(t, true)), if own then Tick(0) else Act(t, Choice(ok, "drawn", [])));
  }

  lemma DrainerCanStep(rules: UrlRules, j: Joint, t: nat) returns (e: JointEvent)
    requires JointOk(rules, j) && WellFormed(j.store) && Inv(j.store) && Mutex(j.store)
    requires t < |j.net.posts| && j.net.posts[t].pc.Draining?
    ensures SaveInForce.Valid(rules, j, e) && Works(e)
  {
    hide PostOk, Authored, Named, PcInRange, Inv, Enumerates;
    assert PcMatch(j.net.posts[t].pc, j.store.threads[t].pc);
    assert SaveOk(j.store, t);
    if j.store.threads[t].pc.Unlock? {
      e := JointEvent(Some(Net.Step(t, true)), Tick(0));
    } else {
      var b, c := NoDeadlock(j.store, t);
      assert SaveOk(j.store, b);
      e := JointEvent(None, Act(b, c));
    }
  }

  // The work left.  ------------------------------------------------------------------

  // The steps a handler has yet to take by itself; the others are steps of its
  // thread as well.
  function PostRank(pc: Net.Pc): nat {
    match pc
    case Waiting | Deciding => 6
    case Saving(_) => 5
    case SettingServer(_) => 4
    case SettingService(_) => 4
    case SettingStore(_) => 4
    case Draining(_) => 4
    case SettingExporter(_) => 3
    case Stopping(_) => 2
    case Publishing(_, _) => 1
    case Leaving(_) => 0
    case Replied(_) => 0
  }

  function PostWork(posts: seq<Net.Post>): nat {
    if posts == [] then 0 else PostWork(posts[..|posts| - 1]) + PostRank(posts[|posts| - 1].pc)
  }

  function Work(j: Joint): nat { Potential(j.store) + PostWork(j.net.posts) }

  lemma {:induction false} PostWorkUpdate(posts: seq<Net.Post>, t: nat, post: Net.Post)
    requires t < |posts|
    ensures PostWork(posts[t := post]) + PostRank(posts[t].pc) == PostWork(posts) + PostRank(post.pc)
  {
    var n := |posts| - 1;
    if t == n {
      assert posts[t := post][..n] == posts[..n];
    } else {
      assert posts[t := post][..n] == posts[..n][t := post];
      PostWorkUpdate(posts[..n], t, post);
    }
  }

  // No step of a handler adds to its rank, and one of its own lowers it.
  lemma PostRankDrops(rules: UrlRules, s: Net.State, t: nat, ok: bool)
    requires Net.Valid(s, Net.Step(t, ok))
    ensures var s' := Net.Apply(rules, s, Net.Step(t, ok));
      && |s'.posts| == |s.posts| && s'.posts == s.posts[t := s'.posts[t]]
      && PostRank(s'.posts[t].pc) <= PostRank(s.posts[t].pc)
      && (NetLabel(rules, s, Net.Step(t, ok)).Own? ==> PostRank(s'.posts[t].pc) < PostRank(s.posts[t].pc))
  {
    hide Net.BeginApply, Net.Publish, ToConfig, Prepare;
  }

  lemma PostWorkDrops(rules: UrlRules, s: Net.State, e: Net.Event)
    requires Net.Valid(s, e)
    ensures PostWork(Net.Apply(rules, s, e).posts) <= PostWork(s.posts)
    ensures e.Step? && NetLabel(rules, s, e).Own? ==> PostWork(Net.Apply(rules, s, e).posts) < PostWork(s.posts)
  {
    if e.Step? {
      hide Net.Apply, NetLabel, PostRank, PostWork;
      PostRankDrops(rules, s, e.t, e.ok);
      PostWorkUpdate(s.posts, e.t, Net.Apply(rules, s, e).posts[e.t]);
    }
  }

  lemma StoreWorkDrops(s: State, e: Event)
    requires WellFormed(s) && SessionMachine.Valid(s, e)
    ensures Potential(Apply(s, e)) <= Potential(s)
    ensures e.Act? ==> Potential(Apply(s, e)) < Potential(s)
  {
    if e.Act? {
      hide Apply, Potential;
      PotentialDrops(s, e.t, e.c);
    }
  }

  lemma OwnOrActs(s: State, e: Event)
    requires WellFormed(s) && SessionMachine.Valid(s, e)
    ensures !StoreLabel(s, e).Own? ==> e.Act?
  {
    hide PcInRange, Enumerates;
  }

  // Every step of a handler or a command lowers the work left, and no event adds to it.
  lemma WorkDrops(rules: UrlRules, j: Joint, e: JointEvent, j': Joint)
    requires Moves(rules, j, e, j')
    ensures Work(j') + (if Works(e) then 1 else 0) <= Work(j)
  {
    hide Potential, PostWork, NetLabel, StoreLabel, Apply, Net.Apply, Net.Valid, SessionMachine.Valid, WellFormed;
    StoreWorkDrops(j.store, e.store);
    OwnOrActs(j.store, e.store);
    if e.net.Some? { PostWorkDrops(rules, j.net, e.net.value); }
  }

  function Steps(es: seq<JointEvent>): nat {
    if es == [] then 0 else Steps(es[..|es| - 1]) + if Works(es[|es| - 1]) then 1 else 0
  }

  lemma StepLowersWork(rules: UrlRules, js: seq<Joint>, es: seq<JointEvent>, n: nat)
    requires IsJointRun(rules, js, es) && n < |es| && n + 1 < |js|
    ensures Work(js[n + 1]) + (if Works(es[n]) then 1 else 0) <= Work(js[n])
  {
    assert JointStepAt(rules, js, es, n);
    hide IsJointRun, Moves, Work, Works;
    WorkDrops(rules, js[n], es[n], js[n + 1]);
  }

  lemma {:induction false} WorkIsPaidFor(rules: UrlRules, js: seq<Joint>, es: seq<JointEvent>, n: nat)
    requires IsJointRun(rules, js, es) && n < |js| && n <= |es|
    ensures Steps(es[..n]) + Work(js[n]) <= Work(js[0])
  {
    hide IsJointRun, Work, Works;
    if n > 0 {
      WorkIsPaidFor(rules, js, es, n - 1);
      assert es[..n][..n - 1] == es[..n - 1];
      StepLowersWork(rules, js, es, n - 1);
    }
  }

  lemma {:induction false} PostWorkAtMost(posts: seq<Net.Post>)
    ensures PostWork(posts) <= 6 * |posts|
  {
    if posts != [] { PostWorkAtMost(posts[..|posts| - 1]); }
  }

  lemma WorkAtStart(j: Joint)
    requires Start(j)
    ensures Work(j) <= 26 * |j.store.threads| + 6 * |j.net.posts|
  {
    hide Net.Init;
    InitialPotential(j.store.threads);
    PostWorkAtMost(j.net.posts);
  }

  // However handlers and threads are interleaved, k commands of which p are saves
  // are over after at most 26 k + 6 p steps.
  lemma JointStepsAreBounded(rules: UrlRules, js: seq<Joint>, es: seq<JointEvent>)
    requires IsJointRun(rules, js, es)
    ensures |js| == |es| + 1
    ensures Steps(es) <= 26 * |js[0].store.threads| + 6 * |js[0].net.posts|
  {
    hide *;
    RunStarts(rules, js, es);
    WorkIsPaidFor(rules, js, es, |es|);
    assert es[..|es|] == es;
    WorkAtStart(js[0]);
  }

  lemma RunGoesOn(rules: UrlRules, js: seq<Joint>, es: seq<JointEvent>, e: JointEvent, j': Joint)
    requires IsJointRun(rules, js, es) && |js| == |es| + 1 && Moves(rules, js[|es|], e, j')
    ensures IsJointRun(rules, js + [j'], es + [e])
  {
    hide Moves, Start;
    var js', es' := js + [j'], es + [e];
    forall n | 0 <= n < |es'|
      ensures JointStepAt(rules, js', es', n)
    {
      if n < |es| { assert JointStepAt(rules, js, es, n); }
    }
  }

  lemma StepTaken(rules: UrlRules, j: Joint, e: JointEvent)
    requires WellFormed(j.store) && SaveInForce.Valid(rules, j, e)
    ensures Moves(rules, j, e, Next(rules, j, e))
  {
    hide Next, SaveInForce.Valid, WellFormed;
  }

  lemma NotDone(s: State, t: nat)
    requires t < |s.threads| && !s.threads[t].pc.Done?
    ensures Unfinished(s, t)
  {
  }

  // All commands are finished, and every save has its answer.
  ghost predicate AllOver(j: Joint) {
    && (forall t :: 0 <= t < |j.store.threads| ==> j.store.threads[t].pc.Done?)
    && (forall t :: 0 <= t < |j.net.posts| ==> j.net.posts[t].pc.Replied?)
  }

  lemma AllReplied(rules: UrlRules, j: Joint)
    requires JointOk(rules, j) && forall t :: 0 <= t < |j.store.threads| ==> j.store.threads[t].pc.Done?
    ensures AllOver(j)
  {
    hide PostOk, Authored, Named, PcMatch;
    forall t | 0 <= t < |j.net.posts| ensures j.net.posts[t].pc.Replied? {
      UnfinishedIsUnreplied(rules, j, t);
    }
  }

  // Every joint run can be continued until all commands are finished and every save
  // has its answer; with the two results above, every run that goes on long enough
  // gets there.
  lemma {:induction false} EverySaveIsAnswered(rules: UrlRules, js: seq<Joint>, es: seq<JointEvent>)
    returns (more: seq<Joint>, later: seq<JointEvent>)
    requires IsJointRun(rules, js, es) && |js| == |es| + 1
    ensures IsJointRun(rules, js + more, es + later) && |more| == |later|
    ensures AllOver((js + more)[|es| + |later|])
    decreases Work(js[|es|])
  {
    hide *;
    var j := js[|es|];
    if t: nat :| t < |j.store.threads| && !j.store.threads[t].pc.Done? {
      NotDone(j.store, t);
      var e := NeverStuck(rules, js, es, |es|, t);
      var j' := Next(rules, j, e);
      StepTaken(rules, j, e);
      RunGoesOn(rules, js, es, e, j');
      WorkDrops(rules, j, e, j');
      var rest, after := EverySaveIsAnswered(rules, js + [j'], es + [e]);
      more, later := [j'] + rest, [e] + after;
      assert js + more == js + [j'] + rest && es + later == es + [e] + after;
      assert |es| + |later| == |es + [e]| + |after|;
    } else {
      more, later := [], [];
      assert js + more == js && es + later == es && (js + more)[|es| + |later|] == j;
      JointReachable(rules, js, es, |es|);
      AllReplied(rules, j);
    }
  }
}
