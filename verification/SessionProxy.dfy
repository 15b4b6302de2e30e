/**
Which config the default proxy of a session comes from.  The HTTP handler reads
the server's copy when the request arrives; if that has no proxy, the service's
create reads the service's copy.  Both reads come before the store lock is taken.
*/
module SessionProxy {
  import opened Wrappers
  import opened SessionMachine
  import opened SessionInvariant
  import opened SessionMutex
  import opened SessionProgress
  import opened SessionTheorems

  // The number of a save.  ------------------------------------------------------

  // The config under which a thread empties or has emptied the store.
  function VerOf(pc: Pc): Option<nat> {
    match pc
    case Drain(ver) => Some(ver)
    case CloseWait(_, k) => if k.ThenNext? then Some(k.ver) else None
    case CloseLock(_, k) => if k.ThenNext? then Some(k.ver) else None
    case CloseBody(_, k) => if k.ThenNext? then Some(k.ver) else None
    case ClosingBrowser(_, k) => if k.ThenNext? then Some(k.ver) else None
    case CloseRelease(_, k) => if k.ThenNext? then Some(k.ver) else None
    case Unlock(r) => if r.Drained? then Some(r.ver) else None
    case Done(r) => if r.Drained? then Some(r.ver) else None
    case _ => None
  }

  // How far the save in progress has brought the three copies.
  ghost predicate Copies(s: State, pc: Pc) {
    if pc.SetFront? then s.server == s.front + 1 && s.front == s.cfg
    else if pc.SetConfig? then s.server == s.front == s.cfg + 1
    else s.server == s.front == s.cfg
  }

  // With no save in progress the three copies are of one config.
  ghost predicate Numbers(s: State) {
    if s.saver.None? then Copies(s, Begin)
    else s.saver.value < |s.threads| && Copies(s, s.threads[s.saver.value].pc)
  }

  // What one step of thread t does to the copies, to the config its drain carries,
  // to where its proxy was read, and what it reserves.
  ghost predicate Effect(s: State, t: nat, s': State)
    requires t < |s.threads| && |s'.threads| == |s.threads|
  {
    var th, th' := s.threads[t], s'.threads[t];
    && (if th.pc.SetServer? then
          && s'.front == s.front && s'.cfg == s.cfg
          && (if th'.pc.SetFront? then s'.server == s.server + 1
              else th'.pc == Unlock(Refused) && s'.server == s.server)
        else if th.pc.SetFront? then
          th'.pc.SetConfig? && s'.server == s.server && s'.front == s.front + 1 && s'.cfg == s.cfg
        else if th.pc.SetConfig? then
          th'.pc == Drain(s.cfg + 1) && s'.server == s.server && s'.front == s.front && s'.cfg == s.cfg + 1
        else
          && s'.server == s.server && s'.front == s.front && s'.cfg == s.cfg
          && !th'.pc.SetFront? && !th'.pc.SetConfig?
          && (VerOf(th.pc).Some? || VerOf(th'.pc).Some? ==> VerOf(th'.pc) == VerOf(th.pc) || th.pc.Begin?))
    && (if th.pc.Begin? then th'.origin == if s.server in s.bare then Unread else FromServer(s.server)
        else if th.pc.AskService? then th'.origin == if th.origin.Unread? then FromService(s.front) else th.origin
        else th'.origin == th.origin && !th'.pc.AskService?)
    && (th.pc.Begin? && th.cmd.CmdCreate? ==> th'.pc.AskService?)
    && |s.items| <= |s'.items| <= |s.items| + 1
    && (|s'.items| == |s.items| + 1 ==>
          && !th.pc.Begin? && !th.pc.AskService?
          && s'.items[|s.items|].creator == t && s'.items[|s.items|].proxy == ProxyOf(th))
  }

  lemma StepEffect(s: State, t: nat, c: Choice)
    requires CanStep(s, t, c) && |Apply(s, Act(t, c)).threads| == |s.threads|
    ensures Effect(s, t, Apply(s, Act(t, c)))
  {
    hide Apply, Effect;
    if s.threads[t].pc.Take? || s.threads[t].pc.Drain? || s.threads[t].pc.Forget? {
      EffectTaking(s, t, c);
    } else if s.threads[t].pc.CloseRelease? {
      EffectClosed(s, t, c);
    } else if AtClosing(s.threads[t].pc) {
      EffectClosing(s, t, c);
    } else if AtSave(s.threads[t].pc) {
      EffectSave(s, t, c);
    } else if AtUse(s.threads[t].pc) {
      EffectUse(s, t, c);
    } else if s.threads[t].pc.Enter? || s.threads[t].pc.Again? {
      EffectReserve(s, t, c);
    } else if s.threads[t].pc.Begin? || s.threads[t].pc.AskService? {
      EffectBegin(s, t, c);
    } else {
      EffectCreate(s, t, c);
    }
  }

  lemma EffectClosing(s: State, t: nat, c: Choice)
    requires CanStep(s, t, c) && AtClosing(s.threads[t].pc) && |Apply(s, Act(t, c)).threads| == |s.threads|
    requires !s.threads[t].pc.Take? && !s.threads[t].pc.Drain? && !s.threads[t].pc.Forget?
    requires !s.threads[t].pc.CloseRelease?
    ensures Effect(s, t, Apply(s, Act(t, c)))
  {
    hide StepBegin, StepAskService, StepEnter, Reserve, StepAwait, StepBuild, StepSignal, StepCheck;
    hide StepJudge, StepUse, StepInspect, StepRelease, Values, Without, InMap, ProxyOf, Enumerates;
    hide StepLock, StepSetServer, StepSetFront, StepSetConfig, StepUnlock, StepTake, StepDrain, StepForget;
    hide StepCloseRelease, Continue, NextClose;
  }

  lemma EffectClosed(s: State, t: nat, c: Choice)
    requires CanStep(s, t, c) && s.threads[t].pc.CloseRelease? && |Apply(s, Act(t, c)).threads| == |s.threads|
    ensures Effect(s, t, Apply(s, Act(t, c)))
  {
    hide StepBegin, StepAskService, StepEnter, Reserve, StepAwait, StepBuild, StepSignal, StepCheck;
    hide StepJudge, StepUse, StepInspect, StepRelease, Values, Without, InMap, ProxyOf, Enumerates;
    hide StepLock, StepSetServer, StepSetFront, StepSetConfig, StepUnlock, StepTake, StepDrain, StepForget;
    hide StepCloseLock, StepCloseBody, StepCloseReturn;
  }

  lemma EffectTaking(s: State, t: nat, c: Choice)
    requires CanStep(s, t, c) && |Apply(s, Act(t, c)).threads| == |s.threads|
    requires s.threads[t].pc.Take? || s.threads[t].pc.Drain? || s.threads[t].pc.Forget?
    ensures Effect(s, t, Apply(s, Act(t, c)))
  {
    hide StepBegin, StepAskService, StepEnter, Reserve, StepAwait, StepBuild, StepSignal, StepCheck;
    hide StepJudge, StepUse, StepInspect, StepRelease, Values, Without, InMap, ProxyOf;
    hide StepLock, StepSetServer, StepSetFront, StepSetConfig, StepUnlock;
    hide StepCloseLock, StepCloseBody, StepCloseReturn, StepCloseRelease, Continue;
  }

  lemma EffectSave(s: State, t: nat, c: Choice)
    requires CanStep(s, t, c) && AtSave(s.threads[t].pc) && |Apply(s, Act(t, c)).threads| == |s.threads|
    ensures Effect(s, t, Apply(s, Act(t, c)))
  {
    hide StepBegin, StepAskService, StepEnter, Reserve, StepAwait, StepBuild, StepSignal, StepCheck;
    hide StepJudge, StepUse, StepInspect, StepRelease;
    hide StepForget, StepCloseLock, StepCloseBody, StepCloseReturn, StepCloseRelease, StepTake, StepDrain;
  }

  lemma EffectUse(s: State, t: nat, c: Choice)
    requires CanStep(s, t, c) && AtUse(s.threads[t].pc) && |Apply(s, Act(t, c)).threads| == |s.threads|
    ensures Effect(s, t, Apply(s, Act(t, c)))
  {
    hide StepBegin, StepAskService, StepEnter, Reserve, StepAwait, StepBuild, StepSignal, StepCheck;
    hide StepForget, StepCloseLock, StepCloseBody, StepCloseReturn, StepCloseRelease, StepTake, StepDrain;
    hide StepLock, StepSetServer, StepSetFront, StepSetConfig, StepUnlock;
  }

  lemma EffectReserve(s: State, t: nat, c: Choice)
    requires CanStep(s, t, c) && (s.threads[t].pc.Enter? || s.threads[t].pc.Again?)
    requires |Apply(s, Act(t, c)).threads| == |s.threads|
    ensures Effect(s, t, Apply(s, Act(t, c)))
  {
    hide StepForget, StepCloseLock, StepCloseBody, StepCloseReturn, StepCloseRelease, StepTake, StepDrain;
    hide StepLock, StepSetServer, StepSetFront, StepSetConfig, StepUnlock;
    hide StepJudge, StepUse, StepInspect, StepRelease;
    hide StepBegin, StepAskService, StepAwait, StepBuild, StepSignal, StepCheck;
    hide InMap, Without, Values, ProxyOf, PcInRange;
  }

  lemma EffectBegin(s: State, t: nat, c: Choice)
    requires CanStep(s, t, c) && (s.threads[t].pc.Begin? || s.threads[t].pc.AskService?)
    requires |Apply(s, Act(t, c)).threads| == |s.threads|
    ensures Effect(s, t, Apply(s, Act(t, c)))
  {
    hide StepForget, StepCloseLock, StepCloseBody, StepCloseReturn, StepCloseRelease, StepTake, StepDrain;
    hide StepLock, StepSetServer, StepSetFront, StepSetConfig, StepUnlock;
    hide StepJudge, StepUse, StepInspect, StepRelease, StepEnter, Reserve;
    hide StepAwait, StepBuild, StepSignal, StepCheck, InMap, Without, Values, ProxyOf;
  }

  lemma EffectCreate(s: State, t: nat, c: Choice)
    requires CanStep(s, t, c) && !AtClosing(s.threads[t].pc) && !AtSave(s.threads[t].pc) && !AtUse(s.threads[t].pc)
    requires var pc := s.threads[t].pc; !pc.Enter? && !pc.Again? && !pc.Begin? && !pc.AskService?
    requires |Apply(s, Act(t, c)).threads| == |s.threads|
    ensures Effect(s, t, Apply(s, Act(t, c)))
  {
    hide StepForget, StepCloseLock, StepCloseBody, StepCloseReturn, StepCloseRelease, StepTake, StepDrain;
    hide StepLock, StepSetServer, StepSetFront, StepSetConfig, StepUnlock;
    hide StepJudge, StepUse, StepInspect, StepRelease, StepEnter, Reserve, StepBegin, StepAskService;
    hide InMap, Without, Values, ProxyOf;
  }

  // Of step n: its thread's effects, and nothing else changes a thread or a copy.
  ghost predicate StepFacts(states: seq<State>, es: seq<Event>, n: nat)
    requires n < |es| && n + 1 < |states|
  {
    var s, s' := states[n], states[n + 1];
    && |s'.threads| == |s.threads|
    && Mutex(s) && s'.bare == s.bare
    && (forall u :: 0 <= u < |s.threads| && !ActsAs(es[n], u) ==> s'.threads[u] == s.threads[u])
    && (forall i :: 0 <= i < |s.items| ==>
          i < |s'.items| && s'.items[i].proxy == s.items[i].proxy && s'.items[i].creator == s.items[i].creator)
    && (if es[n].Act? then
          es[n].t < |s.threads| && Effect(s, es[n].t, s') && MutexMove(s, es[n].t, s')
          && (s.threads[es[n].t].pc.Lock? ==> s.saver.None?)
        else
          && s'.server == s.server && s'.front == s.front && s'.cfg == s.cfg && s'.saver == s.saver
          && |s'.items| == |s.items|)
  }

  lemma FactsOf(states: seq<State>, es: seq<Event>, n: nat)
    requires IsRun(states, es) && n < |es|
    ensures n + 1 < |states| && StepFacts(states, es, n)
  {
    StepFollows(states, es, n);
    SavesApart(states, es, n);
    assert StepAt(states, es, n);
    FactsOfStep(states, es, n);
  }

  lemma FactsOfStep(states: seq<State>, es: seq<Event>, n: nat)
    requires n < |es| && n + 1 < |states| && Happens(states[n], es[n], states[n + 1]) && Mutex(states[n])
    requires Follows(states[n], states[n + 1], Actor(states[n], es[n]))
    ensures StepFacts(states, es, n)
  {
    var s, e := states[n], es[n];
    if e.Act? {
      StepEffect(s, e.t, e.c);
      MoveMutex(s, e.t, e.c);
      assert s.threads[e.t].pc.Lock? ==> s.saver.None?;
      hide Apply;
    }
    hide Effect, MutexMove, Mutex;
    forall i | 0 <= i < |s.items|
      ensures var s' := states[n + 1];
        i < |s'.items| && s'.items[i].proxy == s.items[i].proxy && s'.items[i].creator == s.items[i].creator
    {
      assert ItemFollows(s.items[i], states[n + 1].items[i], Actor(s, e));
    }
  }

  // A step by anyone else leaves the copies of a thread inside its save alone.
  lemma OthersKeepCopies(states: seq<State>, es: seq<Event>, n: nat, t: nat)
    requires n < |es| && n + 1 < |states| && StepFacts(states, es, n) && !ActsAs(es[n], t)
    requires states[n].saver == Some(t)
    ensures var s, s' := states[n], states[n + 1];
      s'.server == s.server && s'.front == s.front && s'.cfg == s.cfg && s'.saver == s.saver
  {
    if es[n].Act? {
      var s, u := states[n], es[n].t;
      assert SaveOk(s, u) && u != t;
      assert Effect(s, u, states[n + 1]) && MutexMove(s, u, states[n + 1]);
    }
  }

  lemma NumbersStep(states: seq<State>, es: seq<Event>, n: nat)
    requires n < |es| && n + 1 < |states| && StepFacts(states, es, n) && Numbers(states[n])
    ensures Numbers(states[n + 1])
  {
    var s, s' := states[n], states[n + 1];
    if es[n].Act? {
      assert SaveOk(s, es[n].t);
      assert Effect(s, es[n].t, s') && MutexMove(s, es[n].t, s');
      if s.saver.Some? && s.saver.value != es[n].t {
        OthersKeepCopies(states, es, n, s.saver.value);
        assert s'.threads[s.saver.value] == s.threads[s.saver.value];
      }
    }
  }

  // The copies of the server, the service and the store are of one config whenever
  // no save is in progress, and otherwise differ as that save has come.
  lemma {:induction false} CopiesInStep(states: seq<State>, es: seq<Event>, n: nat)
    requires IsRun(states, es) && n < |states|
    ensures Numbers(states[n])
  {
    if n > 0 {
      CopiesInStep(states, es, n - 1);
      FactsOf(states, es, n - 1);
      hide IsRun, Numbers, StepFacts;
      NumbersStep(states, es, n - 1);
    }
  }

  // Step w is the one at which the save of thread t changes the server's copy, or
  // the service's.
  ghost predicate WritesServer(states: seq<State>, es: seq<Event>, w: nat, t: nat) {
    && w < |es| && w + 1 < |states| && ActsAs(es[w], t)
    && t < |states[w].threads| && states[w].threads[t].pc.SetServer?
    && t < |states[w + 1].threads| && states[w + 1].threads[t].pc.SetFront?
  }

  ghost predicate WritesService(states: seq<State>, es: seq<Event>, w: nat, t: nat) {
    && w < |es| && w + 1 < |states| && ActsAs(es[w], t)
    && t < |states[w].threads| && states[w].threads[t].pc.SetFront?
    && t < |states[w + 1].threads| && states[w + 1].threads[t].pc.SetConfig?
  }

  // The config a save that got past the file is about.
  function SaveNumber(s: State, pc: Pc): Option<nat> {
    if pc.SetFront? || pc.SetConfig? then Some(s.server) else VerOf(pc)
  }

  // A step gives a save its number or leaves it alone.
  lemma SaveStep(states: seq<State>, es: seq<Event>, n: nat, t: nat)
    requires n < |es| && n + 1 < |states| && StepFacts(states, es, n) && Numbers(states[n])
    requires t < |states[n].threads| && states[n].threads[t].cmd.CmdSave?
    ensures var s, s' := states[n], states[n + 1]; var pc, pc' := s.threads[t].pc, s'.threads[t].pc;
      if pc.SetServer? && pc'.SetFront? then
        WritesServer(states, es, n, t) && SaveNumber(s', pc') == Some(s'.server) && s'.server == s.server + 1
      else
        && SaveNumber(s, pc) == SaveNumber(s', pc')
        && (pc.SetFront? && !pc'.SetFront? ==>
              WritesService(states, es, n, t) && SaveNumber(s', pc') == Some(s'.front) && s'.front == s.front + 1)
        && (pc'.SetFront? ==> pc.SetFront?)
  {
    assert SaveOk(states[n], t);
    if ActsAs(es[n], t) {
      assert Effect(states[n], t, states[n + 1]) && MutexMove(states[n], t, states[n + 1]);
    } else if states[n].saver == Some(t) {
      OthersKeepCopies(states, es, n, t);
    }
  }

  lemma SaveStepInRun(states: seq<State>, es: seq<Event>, n: nat, t: nat)
    requires IsRun(states, es) && n < |es| && n + 1 < |states| && t < |states[n + 1].threads|
    requires states[n + 1].threads[t].cmd.CmdSave?
    ensures t < |states[n].threads| && states[n].threads[t].cmd.CmdSave?
    ensures var s, s' := states[n], states[n + 1]; var pc, pc' := s.threads[t].pc, s'.threads[t].pc;
      if pc.SetServer? && pc'.SetFront? then
        WritesServer(states, es, n, t) && SaveNumber(s', pc') == Some(s'.server) && s'.server == s.server + 1
      else
        && SaveNumber(s, pc) == SaveNumber(s', pc')
        && (pc.SetFront? && !pc'.SetFront? ==>
              WritesService(states, es, n, t) && SaveNumber(s', pc') == Some(s'.front) && s'.front == s.front + 1)
        && (pc'.SetFront? ==> pc.SetFront?)
  {
    hide *;
    FactsOf(states, es, n);
    CopiesInStep(states, es, n);
    KeepsCommand(states, es, n, t);
    SaveStep(states, es, n, t);
  }

  lemma SaveHasBegun(states: seq<State>, es: seq<Event>, n: nat, t: nat)
    requires IsRun(states, es) && n < |states| && t < |states[n].threads|
    requires SaveNumber(states[n], states[n].threads[t].pc).Some?
    ensures 0 < n <= |es|
  {
    hide StepAt;
  }

  // A save gives its number to the server's copy, then to the service's, and
  // drains the store under it.
  lemma {:induction false} SaveTrace(states: seq<State>, es: seq<Event>, n: nat, t: nat) returns (ws: nat, wf: nat)
    requires IsRun(states, es) && n < |states|
    requires t < |states[n].threads| && states[n].threads[t].cmd.CmdSave?
    requires SaveNumber(states[n], states[n].threads[t].pc).Some?
    ensures var ver := SaveNumber(states[n], states[n].threads[t].pc).value;
      && ws < n && WritesServer(states, es, ws, t)
      && states[ws].server + 1 == states[ws + 1].server == ver
      && (!states[n].threads[t].pc.SetFront? ==>
            && ws < wf < n && WritesService(states, es, wf, t)
            && states[wf].front + 1 == states[wf + 1].front == ver)
  {
    hide *;
    SaveHasBegun(states, es, n, t);
    SaveStepInRun(states, es, n - 1, t);
    if states[n - 1].threads[t].pc.SetServer? && states[n].threads[t].pc.SetFront? {
      ws, wf := n - 1, 0;
    } else {
      ws, wf := SaveTrace(states, es, n - 1, t);
      if states[n - 1].threads[t].pc.SetFront? && !states[n].threads[t].pc.SetFront? { wf := n - 1; }
    }
  }

  lemma KeepsCommand(states: seq<State>, es: seq<Event>, n: nat, t: nat)
    requires IsRun(states, es) && n < |es| && n + 1 < |states| && t < |states[n + 1].threads|
    ensures t < |states[n].threads| && states[n].threads[t].cmd == states[n + 1].threads[t].cmd
  {
    SameThreads(states, es, n);
    MarkStep(states[n], es[n], t);
  }

  // Where a proxy was read.  ------------------------------------------------------

  // Step r is the one at which the HTTP handler of thread c finds a proxy in the
  // server's copy, or the service's create finds the handler had none and reads
  // its own copy.
  ghost predicate ReadsServer(states: seq<State>, es: seq<Event>, r: nat, c: nat) {
    Begins(states, es, r, c) && states[r].server !in states[r].bare
  }

  ghost predicate ReadsService(states: seq<State>, es: seq<Event>, r: nat, c: nat) {
    && r < |es| && r + 1 < |states| && ActsAs(es[r], c)
    && c < |states[r].threads| && states[r].threads[c].pc.AskService? && states[r].threads[c].origin.Unread?
  }

  // The read behind an origin.
  ghost predicate ReadAt(states: seq<State>, es: seq<Event>, m: nat, r: nat, c: nat, o: Origin) {
    match o
    case Unread => false
    case FromServer(v) => r == m && ReadsServer(states, es, r, c) && v == states[r].server
    case FromService(v) => m < r && ReadsService(states, es, r, c) && v == states[r].front
  }

  // One step of a create: it begins, or reads the service's config, or keeps its
  // origin.
  lemma OriginStep(states: seq<State>, es: seq<Event>, n: nat, c: nat)
    requires n < |es| && n + 1 < |states| && StepFacts(states, es, n)
    requires c < |states[n].threads| && states[n].threads[c].cmd.CmdCreate? && !states[n + 1].threads[c].pc.Begin?
    ensures var th, th' := states[n].threads[c], states[n + 1].threads[c];
      if th.pc.Begin? then
        && Begins(states, es, n, c)
        && (ReadAt(states, es, n, n, c, th'.origin) || (th'.pc.AskService? && th'.origin.Unread?))
      else if th.pc.AskService? && th.origin.Unread? then
        th' == th || forall m: nat | m < n :: ReadAt(states, es, m, n, c, th'.origin)
      else
        th'.origin == th.origin && !(th'.pc.AskService? && th'.origin.Unread?)
  {
    if ActsAs(es[n], c) {
      hide Mutex, MutexMove;
      assert Effect(states[n], c, states[n + 1]);
    }
  }

  // The read is found from the thread, and so is the command's first step.
  lemma {:induction false} OriginTrace(states: seq<State>, es: seq<Event>, n: nat, c: nat) returns (m: nat, r: nat)
    requires IsRun(states, es) && n < |states| && c < |states[n].threads|
    requires states[n].threads[c].cmd.CmdCreate? && !states[n].threads[c].pc.Begin?
    ensures m < n && Begins(states, es, m, c)
    ensures var th := states[n].threads[c];
      if th.pc.AskService? && th.origin.Unread? then true else r < n && ReadAt(states, es, m, r, c, th.origin)
  {
    assert n != 0;
    FactsOf(states, es, n - 1);
    KeepsCommand(states, es, n - 1, c);
    hide IsRun, StepFacts, ReadAt, Begins;
    OriginStep(states, es, n - 1, c);
    if states[n - 1].threads[c].pc.Begin? {
      m, r := n - 1, n - 1;
    } else {
      m, r := OriginTrace(states, es, n - 1, c);
      if states[n - 1].threads[c].origin.Unread? { r := n - 1; }
    }
  }

  ghost predicate ProxiesRead(s: State) {
    forall i :: 0 <= i < |s.items| ==>
      var c := s.items[i].creator;
      && c < |s.threads| && !s.threads[c].pc.Begin? && !s.threads[c].pc.AskService?
      && s.items[i].proxy == ProxyOf(s.threads[c])
  }

  // A command that has begun stays begun.
  ghost predicate Started(s: State, s': State) {
    forall u :: 0 <= u < |s.threads| && !s.threads[u].pc.Begin? ==>
      u < |s'.threads| && !s'.threads[u].pc.Begin? && s'.threads[u].cmd == s.threads[u].cmd
  }

  lemma StartedStay(states: seq<State>, es: seq<Event>, n: nat)
    requires IsRun(states, es) && n < |es|
    ensures Started(states[n], states[n + 1])
  {
    assert StepAt(states, es, n);
    hide Apply;
    forall u | 0 <= u < |states[n].threads| && !states[n].threads[u].pc.Begin?
      ensures u < |states[n + 1].threads| && !states[n + 1].threads[u].pc.Begin?
      ensures states[n + 1].threads[u].cmd == states[n].threads[u].cmd
    {
      KeepsCommand(states, es, n, u);
      MarkStep(states[n], es[n], u);
    }
  }

  lemma ProxiesReadStep(states: seq<State>, es: seq<Event>, n: nat)
    requires n < |es| && n + 1 < |states| && StepFacts(states, es, n) && ProxiesRead(states[n])
    requires Started(states[n], states[n + 1])
    ensures ProxiesRead(states[n + 1])
  {
    hide Mutex, MutexMove;
    var s, s' := states[n], states[n + 1];
    if es[n].Act? { assert Effect(s, es[n].t, s'); }
    forall i | 0 <= i < |s'.items|
      ensures var c := s'.items[i].creator;
        && c < |s'.threads| && !s'.threads[c].pc.Begin? && !s'.threads[c].pc.AskService?
        && s'.items[i].proxy == ProxyOf(s'.threads[c])
    {
      var c := if i < |s.items| then s.items[i].creator else es[n].t;
      assert c < |s.threads| && !s.threads[c].pc.Begin? && !s.threads[c].pc.AskService?;
    }
  }

  lemma {:induction false} ProxiesReadInRun(states: seq<State>, es: seq<Event>, n: nat)
    requires IsRun(states, es) && n < |states|
    ensures ProxiesRead(states[n])
  {
    if n > 0 {
      ProxiesReadInRun(states, es, n - 1);
      FactsOf(states, es, n - 1);
      StartedStay(states, es, n - 1);
      hide IsRun, ProxiesRead, StepFacts, Started;
      ProxiesReadStep(states, es, n - 1);
    }
  }

  // The default proxy of a session is that of the config the server had when the
  // request arrived, if there was one, and otherwise of the config the service had
  // when its create began; a session that a request reserves has none.
  lemma ProxyIsReadEarly(states: seq<State>, es: seq<Event>, n: nat, i: nat) returns (m: nat, r: nat)
    requires IsRun(states, es) && n < |states| && i < |states[n].items|
    ensures var s := states[n]; var c := s.items[i].creator;
      && c < |s.threads| && (s.items[i].proxy.Some? <==> s.threads[c].cmd.CmdCreate?)
      && (s.items[i].proxy.Some? ==>
            m < n && r < n && Begins(states, es, m, c) && ReadAt(states, es, m, r, c, s.items[i].proxy.value))
  {
    ProxiesReadInRun(states, es, n);
    var c := states[n].items[i].creator;
    if states[n].threads[c].cmd.CmdCreate? {
      m, r := OriginTrace(states, es, n, c);
    } else {
      m, r := 0, 0;
    }
  }

  // Old proxies.  ------------------------------------------------------------------

  lemma ConfigsGrowStep(states: seq<State>, es: seq<Event>, n: nat)
    requires IsRun(states, es) && n < |es|
    ensures states[n].server <= states[n + 1].server && states[n].front <= states[n + 1].front
  {
    hide Inv, ItemFollows;
    StepFollows(states, es, n);
  }

  lemma {:induction false} ConfigsGrow(states: seq<State>, es: seq<Event>, m: nat, n: nat)
    requires IsRun(states, es) && m <= n < |states|
    ensures states[m].server <= states[n].server && states[m].front <= states[n].front
  {
    hide *;
    RunLength(states, es);
    if m < n {
      ConfigsGrow(states, es, m, n - 1);
      ConfigsGrowStep(states, es, n - 1);
    }
  }

  // The step at which a save changes the copy that an origin was read from.
  ghost predicate WrittenAt(states: seq<State>, es: seq<Event>, w: nat, t: nat, o: Origin) {
    match o
    case Unread => false
    case FromServer(_) => WritesServer(states, es, w, t)
    case FromService(_) => WritesService(states, es, w, t)
  }

  // After a save has drained the store, the default proxy of a session in the map
  // is of an older config exactly when the read that supplied it came before the
  // step at which that save changed the copy it read.  No create whose request
  // arrived after the drain is of that kind.
  lemma ProxyIsOlderExactly(
    states: seq<State>, es: seq<Event>, k: nat, n: nat, t: nat, ver: nat, id: string)
    returns (m: nat, r: nat, w: nat)
    requires IsRun(states, es) && k <= n < |states| && id in states[n].sessions
    requires t < |states[k].threads| && states[k].threads[t].cmd.CmdSave?
    requires PastDrain(states[k].threads[t].pc, ver)
    ensures var s := states[n]; var i := s.sessions[id];
      && i < |s.items| && ver <= s.items[i].ver
      && (s.items[i].proxy.Some? ==>
            var c, o := s.items[i].creator, s.items[i].proxy.value;
            && m < n && Begins(states, es, m, c)
            && r < n && ReadAt(states, es, m, r, c, o)
            && w < k && WrittenAt(states, es, w, t, o)
            && (o.cfg < ver <==> r < w)
            && (k <= m ==> ver <= o.cfg))
  {
    hide IsRun, WritesServer, WritesService, ReadsServer, ReadsService, Begins;
    DrainedStoreStaysCurrent(states, es, k, n, t, ver);
    PastDrainNumber(states[k], states[k].threads[t].pc, ver);
    var i := states[n].sessions[id];
    m, r := ProxyIsReadEarly(states, es, n, i);
    var ws, wf := SaveTrace(states, es, k, t);
    hide SaveNumber;
    var proxy := states[n].items[i].proxy;
    w := if proxy.Some? && proxy.value.FromServer? then ws else wf;
    if proxy.Some? {
      SplitRun(states, es, r, w);
      ReadIsNoWrite(states, es, m, r, states[n].items[i].creator, w, t, proxy.value);
    }
  }

  lemma ReadIsNoWrite(
    states: seq<State>, es: seq<Event>, m: nat, r: nat, c: nat, w: nat, t: nat, o: Origin)
    requires ReadAt(states, es, m, r, c, o) && WrittenAt(states, es, w, t, o)
    ensures r != w
  {
  }

  lemma PastDrainNumber(s: State, pc: Pc, ver: nat)
    requires PastDrain(pc, ver)
    ensures SaveNumber(s, pc) == Some(ver) && !pc.SetFront?
  {
  }

  // What the copies are at a step, before and after another one.
  lemma SplitRun(states: seq<State>, es: seq<Event>, r: nat, w: nat)
    requires IsRun(states, es) && r < |states| && w + 1 < |states|
    ensures if r <= w then states[r].server <= states[w].server && states[r].front <= states[w].front
            else states[w + 1].server <= states[r].server && states[w + 1].front <= states[r].front
  {
    hide IsRun;
    if r <= w { ConfigsGrow(states, es, r, w); } else { ConfigsGrow(states, es, w + 1, r); }
  }

  // A run.  ------------------------------------------------------------------------

  // A create and a save; every config has a default proxy.
  function Duo(
    m: map<string, nat>, items: seq<Item>, create: Pc, save: Pc, server: nat, front: nat, cfg: nat): State
  {
    var origin := if create.Begin? then Unread else FromServer(0);
    State(m, items,
          [Thread(CmdCreate("s"), create, 0, 0, origin),
           Thread(CmdSave, save, 0, 0, if save.Begin? then Unread else FromServer(0))],
          server, front, cfg, {}, if save.Begin? || save.Lock? || save.Done? then None else Some(1), 0)
  }

  function Overtaken(n: nat): State {
    var ask, empty := AskService("s"), Drained(1, []);
    if n == 0 then Duo(map[], [], Begin, Begin, 0, 0, 0)
    else if n == 1 then Duo(map[], [], ask, Begin, 0, 0, 0)
    else if n == 2 then Duo(map[], [], ask, Lock, 0, 0, 0)
    else if n == 3 then Duo(map[], [], ask, SetServer, 0, 0, 0)
    else if n == 4 then Duo(map[], [], ask, SetFront, 1, 0, 0)
    else if n == 5 then Duo(map[], [], ask, SetConfig, 1, 1, 0)
    else if n == 6 then Duo(map[], [], ask, Drain(1), 1, 1, 1)
    else if n == 7 then Duo(map[], [], ask, Unlock(empty), 1, 1, 1)
    else if n == 8 then Duo(map[], [], ask, Done(empty), 1, 1, 1)
    else if n == 9 then Duo(map[], [], Enter("s", false), Done(empty), 1, 1, 1)
    else
      var item := Item("s", 1, Some(FromServer(0)), 0, 0, Pending, false, false, None, 0, 0, None);
      Duo(map["s" := 0], [item], Build(0, false), Done(empty), 1, 1, 1)
  }

  function Overtakes(n: nat): Event {
    Act(if n == 0 || n >= 8 then 0 else 1, SOME_CHOICE)
  }

  lemma BothBegin()
    ensures Happens(Overtaken(0), Overtakes(0), Overtaken(1))
    ensures Happens(Overtaken(1), Overtakes(1), Overtaken(2))
  {
    hide StepForget, StepCloseLock, StepCloseBody, StepCloseReturn, StepCloseRelease, StepTake, StepDrain;
    hide StepJudge, StepUse, StepInspect, StepRelease, StepEnter, Reserve, StepAwait, StepBuild, StepSignal, StepCheck;
    hide StepLock, StepSetServer, StepSetFront, StepSetConfig, StepUnlock, StepAskService;
  }

  lemma SaveTakesLock()
    ensures Happens(Overtaken(2), Overtakes(2), Overtaken(3))
  {
    hide StepForget, StepCloseLock, StepCloseBody, StepCloseReturn, StepCloseRelease, StepTake, StepDrain;
    hide StepJudge, StepUse, StepInspect, StepRelease, StepEnter, Reserve, StepAwait, StepBuild, StepSignal, StepCheck;
    hide StepBegin, StepAskService, StepSetServer, StepSetFront, StepSetConfig, StepUnlock;
  }

  lemma SaveWritesServer()
    ensures Happens(Overtaken(3), Overtakes(3), Overtaken(4))
  {
    hide StepForget, StepCloseLock, StepCloseBody, StepCloseReturn, StepCloseRelease, StepTake, StepDrain;
    hide StepJudge, StepUse, StepInspect, StepRelease, StepEnter, Reserve, StepAwait, StepBuild, StepSignal, StepCheck;
    hide StepBegin, StepAskService, StepLock, StepSetFront, StepSetConfig, StepUnlock;
  }

  lemma SaveWritesService()
    ensures Happens(Overtaken(4), Overtakes(4), Overtaken(5))
    ensures Happens(Overtaken(5), Overtakes(5), Overtaken(6))
  {
    hide StepForget, StepCloseLock, StepCloseBody, StepCloseReturn, StepCloseRelease, StepTake, StepDrain;
    hide StepJudge, StepUse, StepInspect, StepRelease, StepEnter, Reserve, StepAwait, StepBuild, StepSignal, StepCheck;
    hide StepBegin, StepAskService, StepLock, StepSetServer, StepUnlock;
  }

  lemma SaveDrains()
    ensures Happens(Overtaken(6), Overtakes(6), Overtaken(7))
  {
    hide StepForget, StepCloseLock, StepCloseBody, StepCloseReturn, StepCloseRelease, StepTake;
    hide StepJudge, StepUse, StepInspect, StepRelease, StepEnter, Reserve, StepAwait, StepBuild, StepSignal, StepCheck;
    hide StepBegin, StepAskService, StepLock, StepSetServer, StepSetFront, StepSetConfig, StepUnlock;
  }

  lemma SaveEnds()
    ensures Happens(Overtaken(7), Overtakes(7), Overtaken(8))
  {
    hide StepForget, StepCloseLock, StepCloseBody, StepCloseReturn, StepCloseRelease, StepTake;
    hide StepJudge, StepUse, StepInspect, StepRelease, StepEnter, Reserve, StepAwait, StepBuild, StepSignal, StepCheck;
    hide StepBegin, StepAskService, StepLock, StepSetServer, StepSetFront, StepSetConfig, StepDrain;
  }

  lemma CreateGoesOn()
    ensures Happens(Overtaken(8), Overtakes(8), Overtaken(9))
  {
    hide StepForget, StepCloseLock, StepCloseBody, StepCloseReturn, StepCloseRelease, StepTake, StepDrain;
    hide StepJudge, StepUse, StepInspect, StepRelease, StepAwait, StepBuild, StepSignal, StepCheck;
    hide StepBegin, StepUnlock, StepLock, StepSetServer, StepSetFront, StepSetConfig, StepEnter, Reserve;
  }

  lemma CreateReserves()
    ensures Happens(Overtaken(9), Overtakes(9), Overtaken(10))
  {
    hide StepForget, StepCloseLock, StepCloseBody, StepCloseReturn, StepCloseRelease, StepTake, StepDrain;
    hide StepJudge, StepUse, StepInspect, StepRelease, StepAwait, StepBuild, StepSignal, StepCheck;
    hide StepBegin, StepUnlock, StepLock, StepSetServer, StepSetFront, StepSetConfig, StepAskService;
  }

  lemma OvertakenStep(n: nat)
    requires n < 10
    ensures Happens(Overtaken(n), Overtakes(n), Overtaken(n + 1))
  {
    hide Happens, Overtaken, Overtakes;
    BothBegin();
    SaveTakesLock();
    SaveWritesServer();
    SaveWritesService();
    SaveDrains();
    SaveEnds();
    CreateGoesOn();
    CreateReserves();
  }

  // The condition can fail: a request to create reads the server's proxy; a save
  // runs from its first step to its last, drain included; only then does the
  // service's create begin, and the store keeps a session with the new config and
  // the old proxy.
  lemma SaveOvertakesRequest() returns (states: seq<State>, es: seq<Event>)
    ensures IsRun(states, es) && |es| == 10
    ensures var s := states[8];
      && |s.threads| == 2 && s.threads[0].pc.AskService?
      && s.threads[1].cmd.CmdSave? && s.threads[1].pc == Done(Drained(1, []))
    ensures var s := states[10];
      && |s.items| == 1 && "s" in s.sessions && InMap(s, 0)
      && s.items[0].ver == 1 && s.items[0].proxy == Some(FromServer(0))
  {
    assert Init(Overtaken(0));
    states, es := seq(11, n requires 0 <= n < 11 => Overtaken(n)), seq(10, n requires 0 <= n < 10 => Overtakes(n));
    assert states[8] == Overtaken(8) && states[10] == Overtaken(10);
    hide Happens, Overtakes;
    forall n | 0 <= n < |es|
      ensures StepAt(states, es, n)
    {
      OvertakenStep(n);
    }
  }
}
