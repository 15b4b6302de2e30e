// What holds of every run of the session machine: any number of threads, any
// commands, any interleaving, any answers of the browser factory.
module SessionTheorems {
  import opened Wrappers
  import opened SessionMachine
  import opened SessionInvariant
  import opened SessionMutex
  import opened SessionProgress

  ghost predicate Happens(s: State, e: Event, s': State) {
    WellFormed(s) && Valid(s, e) && s' == Apply(s, e)
  }

  ghost predicate StepAt(states: seq<State>, es: seq<Event>, n: nat)
    requires n < |es| && n + 1 < |states|
  {
    Happens(states[n], es[n], states[n + 1])
  }

  // A run: the states it goes through and the events between them.
  ghost predicate IsRun(states: seq<State>, es: seq<Event>) {
    && |states| == |es| + 1
    && Init(states[0])
    && forall n :: 0 <= n < |es| ==> StepAt(states, es, n)
  }

  lemma RunLength(states: seq<State>, es: seq<Event>)
    requires IsRun(states, es)
    ensures |states| == |es| + 1
  {
    hide StepAt;
  }

  lemma {:induction false} Reachable(states: seq<State>, es: seq<Event>, n: nat)
    requires IsRun(states, es) && n < |states|
    ensures Inv(states[n])
  {
    if n == 0 {
      InitInv(states[0]);
    } else {
      Reachable(states, es, n - 1);
      assert StepAt(states, es, n - 1);
      EventKeeps(states[n - 1], es[n - 1]);
    }
  }

  lemma {:induction false} SavesApart(states: seq<State>, es: seq<Event>, n: nat)
    requires IsRun(states, es) && n < |states|
    ensures Mutex(states[n])
  {
    if n > 0 {
      SavesApart(states, es, n - 1);
      Reachable(states, es, n - 1);
      assert StepAt(states, es, n - 1);
      hide Mutex, Inv, Apply;
      MutexKeeps(states[n - 1], es[n - 1]);
    }
  }

  lemma StepFollows(states: seq<State>, es: seq<Event>, n: nat)
    requires IsRun(states, es) && n < |es|
    ensures Inv(states[n]) && Kept(states[n], states[n + 1], Actor(states[n], es[n]))
  {
    Reachable(states, es, n);
    assert StepAt(states, es, n);
    EventKeeps(states[n], es[n]);
  }

  lemma SlotInRun(states: seq<State>, es: seq<Event>, n: nat, i: nat)
    requires IsRun(states, es) && n < |states| && i < |states[n].items|
    ensures SlotOk(states[n], i)
  {
    Reachable(states, es, n);
  }

  lemma ThreadInRun(states: seq<State>, es: seq<Event>, n: nat, t: nat)
    requires IsRun(states, es) && n < |states| && t < |states[n].threads|
    ensures ThreadOk(states[n], t)
  {
    Reachable(states, es, n);
  }

  lemma ItemInRun(states: seq<State>, es: seq<Event>, n: nat, i: nat)
    requires IsRun(states, es) && n < |es| && i < |states[n].items|
    ensures i < |states[n + 1].items|
    ensures ItemFollows(states[n].items[i], states[n + 1].items[i], Actor(states[n], es[n]))
    ensures |states[n + 1].threads| == |states[n].threads|
  {
    StepFollows(states, es, n);
  }

  // Ownership and conservation.  --------------------------------------------

  // A browser that is open, or that the factory is still building, is in the
  // map or in the pending-close set of some thread.
  lemma OpenBrowsersAreOwned(states: seq<State>, es: seq<Event>, n: nat, i: nat)
    requires IsRun(states, es) && n < |states| && i < |states[n].items|
    requires states[n].items[i].life.Open? || states[n].items[i].life.Pending?
    ensures var s := states[n];
      InMap(s, i) || exists t :: 0 <= t < |s.threads| && Owes(s.threads[t].pc, i)
  {
    Reachable(states, es, n);
    assert SlotOk(states[n], i);
  }

  ghost predicate Idle(s: State) {
    forall t :: 0 <= t < |s.threads| ==> s.threads[t].pc.Begin? || s.threads[t].pc.Done?
  }

  function FactoryCalls(items: seq<Item>): nat {
    if items == [] then 0 else FactoryCalls(items[..|items| - 1]) + items[|items| - 1].builds
  }

  lemma {:induction false} OneCallEach(items: seq<Item>)
    requires forall i :: 0 <= i < |items| ==> items[i].builds == 1
    ensures FactoryCalls(items) == |items|
  {
    if items != [] { OneCallEach(items[..|items| - 1]); }
  }

  // When no command is in progress the open browsers are exactly the map's
  // entries, and there was one factory call for every reservation.
  lemma IdleStoreIsExact(states: seq<State>, es: seq<Event>, n: nat)
    requires IsRun(states, es) && n < |states| && Idle(states[n])
    ensures var s := states[n];
      && (forall i :: 0 <= i < |s.items| ==> (s.items[i].life.Open? <==> InMap(s, i)))
      && (forall i :: 0 <= i < |s.items| && !InMap(s, i) ==> s.items[i].life.NoBrowser? || s.items[i].life.Closed?)
      && FactoryCalls(s.items) == |s.items|
  {
    Reachable(states, es, n);
    var s := states[n];
    forall i | 0 <= i < |s.items|
      ensures s.items[i].life.Open? <==> InMap(s, i)
      ensures !InMap(s, i) ==> s.items[i].life.NoBrowser? || s.items[i].life.Closed?
      ensures s.items[i].builds == 1
    {
      assert SlotOk(s, i);
    }
    OneCallEach(s.items);
  }

  // Use and close.  -----------------------------------------------------------

  // At most one thread is inside a session: resolving with its browser, closing
  // it, or holding its lock around either.  Close is called at most once, and a
  // thread resolves only with a browser that exists and was never closed.
  lemma UseExcludesClose(states: seq<State>, es: seq<Event>, n: nat, i: nat, t: nat, u: nat)
    requires IsRun(states, es) && n < |states| && i < |states[n].items|
    requires t < |states[n].threads| && u < |states[n].threads|
    ensures var s := states[n];
      && (Holds(s.threads[t].pc, i) && Holds(s.threads[u].pc, i) ==> t == u)
      && s.items[i].closes <= 1
      && (s.threads[t].pc.Resolving? && s.threads[t].pc.i == i ==> s.items[i].life.Open? && s.items[i].closes == 0)
      && (s.threads[t].pc.ClosingBrowser? && s.threads[t].pc.i == i <==>
          s.items[i].life.Closing? && s.items[i].lock == Some(t))
  {
    Reachable(states, es, n);
    var s := states[n];
    assert ThreadOk(s, t) && ThreadOk(s, u) && SlotOk(s, i);
  }

  // Once Close was called on a session's browser, no thread resolves with it.
  lemma NoUseAfterClose(states: seq<State>, es: seq<Event>, m: nat, n: nat, i: nat, t: nat)
    requires IsRun(states, es) && m <= n < |states| && i < |states[m].items|
    requires states[m].items[i].closes >= 1
    ensures i < |states[n].items| && states[n].items[i].closes == 1
    ensures t < |states[n].threads| && states[n].threads[t].pc.Resolving? ==> states[n].threads[t].pc.i != i
  {
    hide *;
    StaysCounted(states, es, m, n, i);
    ClosedInRun(states, es, n, i, t);
  }

  lemma {:induction false} StaysCounted(states: seq<State>, es: seq<Event>, m: nat, n: nat, i: nat)
    requires IsRun(states, es) && m <= n < |states| && i < |states[m].items|
    requires states[m].items[i].closes >= 1
    ensures i < |states[n].items| && states[n].items[i].closes >= 1
  {
    hide *;
    RunLength(states, es);
    if m < n {
      StaysCounted(states, es, m, n - 1, i);
      OnceClosed(states, es, n - 1, i);
    }
  }

  // A call of Close stays counted.
  lemma OnceClosed(states: seq<State>, es: seq<Event>, n: nat, i: nat)
    requires IsRun(states, es) && n < |es| && i < |states[n].items| && states[n].items[i].closes >= 1
    ensures i < |states[n + 1].items| && states[n + 1].items[i].closes >= 1
  {
    assert |states| == |es| + 1;
    hide IsRun;
    SlotInRun(states, es, n, i);
    ItemInRun(states, es, n, i);
    SlotInRun(states, es, n + 1, i);
  }

  lemma ClosedInRun(states: seq<State>, es: seq<Event>, n: nat, i: nat, t: nat)
    requires IsRun(states, es) && n < |states| && i < |states[n].items| && states[n].items[i].closes >= 1
    ensures states[n].items[i].closes == 1
    ensures t < |states[n].threads| && states[n].threads[t].pc.Resolving? ==> states[n].threads[t].pc.i != i
  {
    hide IsRun;
    SlotInRun(states, es, n, i);
    if t < |states[n].threads| { ThreadInRun(states, es, n, t); }
  }

  // Progress.  ----------------------------------------------------------------

  // While a command is unfinished, some thread can take a step.
  lemma RunsNeverDeadlock(states: seq<State>, es: seq<Event>, n: nat, t: nat)
    requires IsRun(states, es) && n < |states| && t < |states[n].threads| && Unfinished(states[n], t)
    ensures exists b: nat, c: Choice :: CanStep(states[n], b, c)
  {
    Reachable(states, es, n);
    SavesApart(states, es, n);
    var b, c := NoDeadlock(states[n], t);
  }

  function Acts(es: seq<Event>): nat {
    if es == [] then 0 else Acts(es[..|es| - 1]) + if es[|es| - 1].Act? then 1 else 0
  }

  lemma {:induction false} StepsArePaidFor(states: seq<State>, es: seq<Event>, n: nat)
    requires IsRun(states, es) && n < |states|
    ensures Acts(es[..n]) + Potential(states[n]) <= Potential(states[0])
  {
    if n > 0 {
      StepsArePaidFor(states, es, n - 1);
      assert es[..n][..n - 1] == es[..n - 1];
      assert StepAt(states, es, n - 1);
      if es[n - 1].Act? { PotentialDrops(states[n - 1], es[n - 1].t, es[n - 1].c); }
    }
  }

  // However the threads are interleaved, a workload of k commands is over after
  // at most 26 k thread steps.
  lemma StepsAreBounded(states: seq<State>, es: seq<Event>)
    requires IsRun(states, es)
    ensures Acts(es) <= 26 * |states[0].threads|
  {
    StepsArePaidFor(states, es, |es|);
    assert es[..|es|] == es;
    InitialPotential(states[0].threads);
  }

  // From every reachable state there is a way to bring all commands to their
  // end; with the two results above, every run that goes on long enough does.
  lemma {:induction false} EveryCommandCanFinish(s: State) returns (states: seq<State>, es: seq<Event>)
    requires Inv(s) && Mutex(s)
    ensures |states| == |es| + 1 && states[0] == s
    ensures forall n :: 0 <= n < |es| ==> Happens(states[n], es[n], states[n + 1])
    ensures forall t :: 0 <= t < |states[|es|].threads| ==> states[|es|].threads[t].pc.Done?
    decreases Potential(s)
  {
    hide Inv, Mutex, Apply, Valid, WellFormed, Potential;
    if forall t :: 0 <= t < |s.threads| ==> s.threads[t].pc.Done? {
      return [s], [];
    }
    var t :| 0 <= t < |s.threads| && !s.threads[t].pc.Done?;
    var b, c := NoDeadlock(s, t);
    EventKeeps(s, Act(b, c));
    MutexKeeps(s, Act(b, c));
    PotentialDrops(s, b, c);
    var rest, later := EveryCommandCanFinish(Apply(s, Act(b, c)));
    states, es := [s] + rest, [Act(b, c)] + later;
    forall n | 0 <= n < |es|
      ensures Happens(states[n], es[n], states[n + 1])
    {
      if n > 0 { assert Happens(rest[n - 1], later[n - 1], rest[n]); }
    }
  }

  // Settings saves.  ----------------------------------------------------------

  // The thread emptied the store under config `ver`, and is closing what it
  // took out or has finished doing so.
  ghost predicate PastDrain(pc: Pc, ver: nat) {
    || ((pc.Unlock? || pc.Done?) && pc.r.Drained? && pc.r.ver == ver)
    || ((pc.CloseWait? || pc.CloseLock? || pc.CloseBody? || pc.ClosingBrowser? || pc.CloseRelease?)
        && pc.k.ThenNext? && pc.k.ver == ver)
  }

  lemma DrainPromise(s: State, t: nat, ver: nat)
    requires t < |s.threads| && ThreadOk(s, t) && PastDrain(s.threads[t].pc, ver)
    ensures AllFrom(s, ver)
  {
  }

  lemma AllFromStep(states: seq<State>, es: seq<Event>, n: nat, ver: nat)
    requires IsRun(states, es) && n < |es| && AllFrom(states[n], ver)
    ensures AllFrom(states[n + 1], ver)
  {
    StepFollows(states, es, n);
    AllFromKeeps(states[n], states[n + 1], Actor(states[n], es[n]), ver);
  }

  lemma AllFromAtDrain(states: seq<State>, es: seq<Event>, n: nat, t: nat, ver: nat)
    requires IsRun(states, es) && n < |states|
    requires t < |states[n].threads| && PastDrain(states[n].threads[t].pc, ver)
    ensures AllFrom(states[n], ver)
  {
    Reachable(states, es, n);
    assert ThreadOk(states[n], t);
    DrainPromise(states[n], t, ver);
  }

  // Once a settings save has drained the store, every session in the map, then
  // and in all later states, was reserved with its config or a newer one.
  lemma {:induction false} DrainedStoreStaysCurrent(
    states: seq<State>, es: seq<Event>, m: nat, n: nat, t: nat, ver: nat)
    requires IsRun(states, es) && m <= n < |states|
    requires t < |states[m].threads| && PastDrain(states[m].threads[t].pc, ver)
    ensures AllFrom(states[n], ver)
  {
    if m == n {
      AllFromAtDrain(states, es, n, t, ver);
    } else {
      DrainedStoreStaysCurrent(states, es, m, n - 1, t, ver);
      AllFromStep(states, es, n - 1, ver);
    }
  }

  // What a draining thread took out of the map, in the order it closes it.
  function Taken(pc: Pc): Option<seq<nat>> {
    match pc
    case Unlock(r) => if r.Drained? then Some(r.items) else None
    case Done(r) => if r.Drained? then Some(r.items) else None
    case CloseWait(i, k) => if k.ThenNext? then Some(k.shut + [i] + k.rest) else None
    case CloseLock(i, k) => if k.ThenNext? then Some(k.shut + [i] + k.rest) else None
    case CloseBody(i, k) => if k.ThenNext? then Some(k.shut + [i] + k.rest) else None
    case ClosingBrowser(i, k) => if k.ThenNext? then Some(k.shut + [i] + k.rest) else None
    case CloseRelease(i, k) => if k.ThenNext? then Some(k.shut + [i] + k.rest) else None
    case _ => None
  }

  lemma NextCloseTaken(ver: nat, shut: seq<nat>, rest: seq<nat>)
    ensures Taken(NextClose(ver, shut, rest)) == Some(shut + rest)
  {
    if rest == [] {
      assert shut + rest == shut;
    } else {
      assert shut + [rest[0]] + rest[1..] == shut + rest;
    }
  }

  // The list of taken sessions does not change while they are being closed.
  lemma TakenStays(s: State, e: Event, t: nat)
    requires WellFormed(s) && Valid(s, e) && t < |s.threads| && Taken(s.threads[t].pc).Some?
    ensures t < |Apply(s, e).threads| && Taken(Apply(s, e).threads[t].pc) == Taken(s.threads[t].pc)
  {
    if e.Act? && e.t == t {
      TakenHandedOn(s, t, e.c);
    } else if e.Act? {
      ShareDrops(s, e.t, e.c);
    }
  }

  lemma TakenHandedOn(s: State, t: nat, c: Choice)
    requires CanStep(s, t, c) && Taken(s.threads[t].pc).Some?
    ensures t < |Apply(s, Act(t, c)).threads|
    ensures Taken(Apply(s, Act(t, c)).threads[t].pc) == Taken(s.threads[t].pc)
  {
    hide StepBegin, StepAskService, StepEnter, Reserve, StepAwait, StepBuild, StepSignal, StepCheck;
    hide StepJudge, StepUse, StepInspect, StepRelease;
    hide StepForget, StepTake, StepDrain, StepLock, StepSetServer, StepSetFront, StepSetConfig;
    if s.threads[t].pc.CloseRelease? {
      var CloseRelease(i, k) := s.threads[t].pc;
      NextCloseTaken(k.ver, k.shut + [i], k.rest);
    }
  }

  lemma {:induction false} TakenStaysInRun(states: seq<State>, es: seq<Event>, m: nat, n: nat, t: nat)
    requires IsRun(states, es) && m <= n < |states| && t < |states[m].threads|
    requires Taken(states[m].threads[t].pc).Some?
    ensures t < |states[n].threads| && Taken(states[n].threads[t].pc) == Taken(states[m].threads[t].pc)
  {
    if m < n {
      TakenStaysInRun(states, es, m, n - 1, t);
      assert StepAt(states, es, n - 1);
      TakenStays(states[n - 1], es[n - 1], t);
    }
  }

  lemma TakenAtDrain(states: seq<State>, es: seq<Event>, m: nat)
    requires IsRun(states, es) && m < |es| && es[m].Act?
    requires es[m].t < |states[m].threads| && states[m].threads[es[m].t].pc.Drain?
    ensures Enumerates(es[m].c.order, states[m].sessions.Keys) && es[m].t < |states[m + 1].threads|
    ensures Taken(states[m + 1].threads[es[m].t].pc) == Some(Values(es[m].c.order, states[m].sessions))
  {
    var t, order := es[m].t, es[m].c.order;
    assert StepAt(states, es, m);
    hide IsRun, InMap, Taken, NextClose, Values, PcInRange;
    var taken := Values(order, states[m].sessions);
    NextCloseTaken(states[m].threads[t].pc.ver, [], taken);
    assert [] + taken == taken;
  }

  lemma ValueTaken(order: seq<string>, sessions: map<string, nat>, id: string)
    requires Enumerates(order, sessions.Keys) && id in sessions
    ensures sessions[id] in Values(order, sessions)
  {
    var k :| 0 <= k < |order| && order[k] == id;
    assert Values(order, sessions)[k] == sessions[id];
  }

  // destroyAll has returned.
  predicate PastLoop(pc: Pc) { pc.Unlock? || pc.Done? }

  lemma DrainedAreFinished(states: seq<State>, es: seq<Event>, n: nat, t: nat, i: nat)
    requires IsRun(states, es) && n < |states| && t < |states[n].threads| && PastLoop(states[n].threads[t].pc)
    requires Taken(states[n].threads[t].pc).Some? && i in Taken(states[n].threads[t].pc).value
    ensures i < |states[n].items| && Finished(states[n].items[i])
  {
    ThreadInRun(states, es, n, t);
    hide IsRun;
  }

  // When destroyAll returns, every session that was in the map when it emptied
  // the map is closed: its browser does not exist or its Close has returned.
  lemma DrainClosesWhatItRemoved(states: seq<State>, es: seq<Event>, m: nat, n: nat, id: string)
    requires IsRun(states, es) && m < n < |states|
    requires es[m].Act? && es[m].t < |states[m].threads| && states[m].threads[es[m].t].pc.Drain?
    requires es[m].t < |states[n].threads| && PastLoop(states[n].threads[es[m].t].pc)
    requires id in states[m].sessions
    ensures var i := states[m].sessions[id]; i < |states[n].items| && Finished(states[n].items[i])
  {
    assert |states| == |es| + 1;
    hide IsRun, Taken, Enumerates, Values, Finished;
    TakenAtDrain(states, es, m);
    TakenStaysInRun(states, es, m + 1, n, es[m].t);
    ValueTaken(es[m].c.order, states[m].sessions, id);
    DrainedAreFinished(states, es, n, es[m].t, states[m].sessions[id]);
  }

  // Time to live.  ------------------------------------------------------------

  predicate ActsAs(e: Event, t: nat) { e.Act? && e.t == t }

  lemma BystanderStays(s: State, e: Event, t: nat)
    requires WellFormed(s) && Valid(s, e) && t < |s.threads| && !ActsAs(e, t)
    ensures |Apply(s, e).threads| == |s.threads| && Apply(s, e).threads[t] == s.threads[t]
  {
    if e.Act? { ShareDrops(s, e.t, e.c); }
  }

  // Outside Begin, Judge and the read of the service's config a step moves its
  // thread's program counter only.
  ghost predicate OnlyCounter(s: State, t: nat, s': State)
    requires t < |s.threads|
  {
    && |s'.threads| == |s.threads| && !s'.threads[t].pc.Begin?
    && s'.threads[t] == s.threads[t].(pc := s'.threads[t].pc)
  }

  lemma CounterMoves(s: State, t: nat, c: Choice)
    requires CanStep(s, t, c)
    requires var pc := s.threads[t].pc; !pc.Begin? && !pc.AskService? && !pc.Judge?
    ensures OnlyCounter(s, t, Apply(s, Act(t, c)))
  {
    hide Apply, OnlyCounter;
    if AtClosing(s.threads[t].pc) {
      CounterClosing(s, t, c);
    } else if AtSave(s.threads[t].pc) {
      CounterSave(s, t, c);
    } else if AtUse(s.threads[t].pc) {
      CounterUse(s, t, c);
    } else {
      CounterCreate(s, t, c);
    }
  }

  lemma CounterClosing(s: State, t: nat, c: Choice)
    requires CanStep(s, t, c) && AtClosing(s.threads[t].pc)
    ensures OnlyCounter(s, t, Apply(s, Act(t, c)))
  {
    hide StepLock, StepSetServer, StepSetFront, StepSetConfig, StepUnlock;
    hide StepBegin, StepAskService, StepEnter, Reserve, StepAwait, StepBuild, StepSignal, StepCheck;
    hide StepJudge, StepUse, StepInspect, StepRelease;
  }

  lemma CounterSave(s: State, t: nat, c: Choice)
    requires CanStep(s, t, c) && AtSave(s.threads[t].pc)
    ensures OnlyCounter(s, t, Apply(s, Act(t, c)))
  {
    hide StepBegin, StepAskService, StepEnter, Reserve, StepAwait, StepBuild, StepSignal, StepCheck;
    hide StepJudge, StepUse, StepInspect, StepRelease;
    hide StepForget, StepCloseLock, StepCloseBody, StepCloseReturn, StepCloseRelease;
    hide StepTake, StepDrain;
  }

  lemma CounterUse(s: State, t: nat, c: Choice)
    requires CanStep(s, t, c) && AtUse(s.threads[t].pc) && !s.threads[t].pc.Judge?
    ensures OnlyCounter(s, t, Apply(s, Act(t, c)))
  {
    hide StepBegin, StepAskService, StepEnter, Reserve, StepAwait, StepBuild, StepSignal, StepCheck;
    hide StepForget, StepCloseLock, StepCloseBody, StepCloseReturn, StepCloseRelease;
    hide StepTake, StepDrain;
    hide StepLock, StepSetServer, StepSetFront, StepSetConfig, StepUnlock;
  }

  lemma CounterCreate(s: State, t: nat, c: Choice)
    requires CanStep(s, t, c) && !AtClosing(s.threads[t].pc) && !AtSave(s.threads[t].pc) && !AtUse(s.threads[t].pc)
    requires !s.threads[t].pc.Begin? && !s.threads[t].pc.AskService?
    ensures OnlyCounter(s, t, Apply(s, Act(t, c)))
  {
    hide StepForget, StepCloseLock, StepCloseBody, StepCloseReturn, StepCloseRelease;
    hide StepTake, StepDrain;
    hide StepLock, StepSetServer, StepSetFront, StepSetConfig, StepUnlock;
    hide StepJudge, StepUse, StepInspect, StepRelease;
  }

  // Only its first step moves a thread's mark, and its pc off Begin.
  lemma MarkStep(s: State, e: Event, t: nat)
    requires WellFormed(s) && Valid(s, e) && t < |s.threads|
    ensures var s' := Apply(s, e);
      && |s'.threads| == |s.threads|
      && (if s.threads[t].pc.Begin? then
            || s'.threads[t].pc.Begin?
            || (ActsAs(e, t) && s'.threads[t].began == |s.items|)
          else !s'.threads[t].pc.Begin? && s'.threads[t].began == s.threads[t].began)
      && s'.threads[t].cmd == s.threads[t].cmd
  {
    if !ActsAs(e, t) {
      BystanderStays(s, e, t);
    } else if !s.threads[t].pc.Begin? && !s.threads[t].pc.AskService? && !s.threads[t].pc.Judge? {
      CounterMoves(s, t, e.c);
    }
  }

  // Step m is the one that starts the thread's command.
  ghost predicate Begins(states: seq<State>, es: seq<Event>, m: nat, t: nat) {
    && m < |es| && m + 1 < |states| && ActsAs(es[m], t)
    && t < |states[m].threads| && states[m].threads[t].pc.Begin?
    && t < |states[m + 1].threads| && !states[m + 1].threads[t].pc.Begin?
  }

  // It is found from the thread's marks.
  lemma {:induction false} CommandStart(states: seq<State>, es: seq<Event>, n: nat, t: nat) returns (m: nat)
    requires IsRun(states, es) && n < |states| && t < |states[n].threads| && !states[n].threads[t].pc.Begin?
    ensures m < n && Begins(states, es, m, t)
    ensures states[n].threads[t].began == |states[m].items|
  {
    hide Apply, Valid, WellFormed;
    SameThreads(states, es, n - 1);
    MarkStep(states[n - 1], es[n - 1], t);
    if states[n - 1].threads[t].pc.Begin? {
      m := n - 1;
    } else {
      m := CommandStart(states, es, n - 1, t);
    }
  }

  lemma SameThreads(states: seq<State>, es: seq<Event>, n: nat)
    requires IsRun(states, es) && n < |es|
    ensures Happens(states[n], es[n], states[n + 1]) && |states[n].threads| == |states[n + 1].threads|
  {
    hide Apply;
    assert StepAt(states, es, n);
    StepFollows(states, es, n);
  }

  // A session in the hands of a request, and why `get` gave it out.
  datatype Gift = Gift(i: nat, grant: Grant)

  function GiftOf(pc: Pc): Option<Gift> {
    match pc
    case Use(i, g) => Some(Gift(i, g))
    case Inspect(i, g) => Some(Gift(i, g))
    case Resolving(i, g) => Some(Gift(i, g))
    case Release(i, g, _) => Some(Gift(i, g))
    case Unlock(r) => if r.Served? then Some(Gift(r.i, r.grant)) else None
    case Done(r) => if r.Served? then Some(Gift(r.i, r.grant)) else None
    case _ => None
  }

  // A gift is given by Judge or by a forced create, and then only handed on.
  ghost predicate GrantMoves(s: State, t: nat, s': State)
    requires t < |s.threads|
  {
    && |s'.threads| == |s.threads|
    && var g := GiftOf(s'.threads[t].pc);
      || g.None? || g == GiftOf(s.threads[t].pc) || g.value.grant.Recreated?
      || (s.threads[t].pc.Judge? && g.value.i == s.threads[t].pc.i
          && (g.value.grant == Young(s.now) || !g.value.grant.Young?))
  }

  lemma YoungStep(s: State, e: Event, t: nat)
    requires WellFormed(s) && Valid(s, e) && t < |s.threads|
    requires var s' := Apply(s, e);
      |s'.threads| == |s.threads| && GiftOf(s'.threads[t].pc).Some? && GiftOf(s'.threads[t].pc).value.grant.Young?
    ensures var g, g' := GiftOf(s.threads[t].pc), GiftOf(Apply(s, e).threads[t].pc);
      || g == g'
      || (ActsAs(e, t) && s.threads[t].pc.Judge? && g' == Some(Gift(s.threads[t].pc.i, Young(s.now))))
  {
    if !ActsAs(e, t) {
      BystanderStays(s, e, t);
    } else {
      GrantStep(s, t, e.c);
    }
  }

  lemma GrantStep(s: State, t: nat, c: Choice)
    requires CanStep(s, t, c)
    ensures GrantMoves(s, t, Apply(s, Act(t, c)))
  {
    hide Apply, GrantMoves;
    if AtClosing(s.threads[t].pc) {
      GrantClosing(s, t, c);
    } else if AtSave(s.threads[t].pc) {
      GrantSave(s, t, c);
    } else if AtUse(s.threads[t].pc) {
      GrantUse(s, t, c);
    } else {
      GrantCreate(s, t, c);
    }
  }

  lemma GrantClosing(s: State, t: nat, c: Choice)
    requires CanStep(s, t, c) && AtClosing(s.threads[t].pc)
    ensures GrantMoves(s, t, Apply(s, Act(t, c)))
  {
    hide StepLock, StepSetServer, StepSetFront, StepSetConfig, StepUnlock;
    hide StepBegin, StepAskService, StepEnter, Reserve, StepAwait, StepBuild, StepSignal, StepCheck;
    hide StepJudge, StepUse, StepInspect, StepRelease;
  }

  lemma GrantSave(s: State, t: nat, c: Choice)
    requires CanStep(s, t, c) && AtSave(s.threads[t].pc)
    ensures GrantMoves(s, t, Apply(s, Act(t, c)))
  {
    hide StepBegin, StepAskService, StepEnter, Reserve, StepAwait, StepBuild, StepSignal, StepCheck;
    hide StepJudge, StepUse, StepInspect, StepRelease;
    hide StepForget, StepCloseLock, StepCloseBody, StepCloseReturn, StepCloseRelease;
    hide StepTake, StepDrain;
  }

  lemma GrantUse(s: State, t: nat, c: Choice)
    requires CanStep(s, t, c) && AtUse(s.threads[t].pc)
    ensures GrantMoves(s, t, Apply(s, Act(t, c)))
  {
    hide StepBegin, StepAskService, StepEnter, Reserve, StepAwait, StepBuild, StepSignal, StepCheck;
    hide StepForget, StepCloseLock, StepCloseBody, StepCloseReturn, StepCloseRelease;
    hide StepTake, StepDrain;
    hide StepLock, StepSetServer, StepSetFront, StepSetConfig, StepUnlock;
  }

  lemma GrantCreate(s: State, t: nat, c: Choice)
    requires CanStep(s, t, c) && !AtClosing(s.threads[t].pc) && !AtSave(s.threads[t].pc) && !AtUse(s.threads[t].pc)
    ensures GrantMoves(s, t, Apply(s, Act(t, c)))
  {
    hide StepForget, StepCloseLock, StepCloseBody, StepCloseReturn, StepCloseRelease;
    hide StepTake, StepDrain;
    hide StepLock, StepSetServer, StepSetFront, StepSetConfig, StepUnlock;
    hide StepJudge, StepUse, StepInspect, StepRelease;
  }

  // Step m is the one at which `get` finds session i young enough and gives it out.
  ghost predicate Judges(states: seq<State>, es: seq<Event>, m: nat, t: nat, i: nat) {
    && m < |es| && m + 1 < |states| && ActsAs(es[m], t)
    && t < |states[m].threads| && states[m].threads[t].pc.Judge? && states[m].threads[t].pc.i == i
    && t < |states[m + 1].threads| && GiftOf(states[m + 1].threads[t].pc) == Some(Gift(i, Young(states[m].now)))
  }

  lemma {:induction false} AgeCheck(states: seq<State>, es: seq<Event>, n: nat, t: nat, i: nat, at: nat)
    returns (m: nat)
    requires IsRun(states, es) && n < |states| && t < |states[n].threads|
    requires GiftOf(states[n].threads[t].pc) == Some(Gift(i, Young(at)))
    ensures m < n && Judges(states, es, m, t, i) && states[m].now == at
  {
    hide Apply, Valid, WellFormed;
    assert n != 0;
    SameThreads(states, es, n - 1);
    YoungStep(states[n - 1], es[n - 1], t);
    if GiftOf(states[n - 1].threads[t].pc) == Some(Gift(i, Young(at))) {
      m := AgeCheck(states, es, n - 1, t, i, at);
    } else {
      m := n - 1;
    }
  }

  // A request that sets a time to live is served by a session that was within
  // the limit at the step that judged it, or that was not yet reserved at the
  // step that began the request.
  lemma TimeToLiveIsHonoured(states: seq<State>, es: seq<Event>, n: nat, t: nat)
    requires IsRun(states, es) && n < |states| && t < |states[n].threads|
    requires states[n].threads[t].pc.Done? && states[n].threads[t].pc.r.Served?
    requires states[n].threads[t].cmd.CmdRequest? && states[n].threads[t].cmd.ttl > 0
    ensures var cmd, i := states[n].threads[t].cmd, states[n].threads[t].pc.r.i;
      && i < |states[n].items| && states[n].items[i].id == cmd.id
      && (|| (exists m :: 0 <= m < n && Begins(states, es, m, t) && |states[m].items| <= i)
          || (exists m :: 0 <= m < n && Judges(states, es, m, t, i)
                          && states[m].now - states[n].items[i].born <= cmd.ttl))
  {
    ThreadInRun(states, es, n, t);
    hide IsRun;
    var i, grant := states[n].threads[t].pc.r.i, states[n].threads[t].pc.r.grant;
    if grant.Young? {
      var m := AgeCheck(states, es, n, t, i, grant.at);
    } else {
      var m := CommandStart(states, es, n, t);
    }
  }

  // Step m is the one at which `get` finds a session too old and begins a forced
  // create.
  ghost predicate Forces(states: seq<State>, es: seq<Event>, m: nat, t: nat) {
    && m < |es| && m + 1 < |states| && ActsAs(es[m], t)
    && t < |states[m].threads| && Expired(states[m], t)
    && t < |states[m + 1].threads| && InForced(states[m + 1].threads[t].pc)
  }

  ghost predicate Expired(s: State, t: nat)
    requires t < |s.threads|
  {
    var th := s.threads[t];
    && th.pc.Judge? && !th.pc.isFresh && th.pc.i < |s.items| && th.cmd.CmdRequest?
    && 0 < th.cmd.ttl < s.now - s.items[th.pc.i].born
  }

  // A forced create that succeeds returns a session reserved after the step that
  // began that call.
  lemma ForcedCreateIsLater(states: seq<State>, es: seq<Event>, n: nat, t: nat)
    requires IsRun(states, es) && n < |states| && t < |states[n].threads|
    requires GiftOf(states[n].threads[t].pc).Some? && GiftOf(states[n].threads[t].pc).value.grant.Recreated?
    ensures var i := GiftOf(states[n].threads[t].pc).value.i;
      exists m :: 0 <= m < n && Forces(states, es, m, t) && |states[m].items| <= i
  {
    ThreadInRun(states, es, n, t);
    hide IsRun;
    var m := ForcedCall(states, es, n, t);
  }

  // The thread is inside, or past, a forced create.
  ghost predicate InForced(pc: Pc) {
    match pc
    case Enter(_, force) => force
    case Again(_) => true
    case Await(_, force) => force
    case Build(_, force) => force
    case Signal(_, force) => force
    case Check(_, force) => force
    case CloseWait(_, k) => k.ThenReserve?
    case CloseLock(_, k) => k.ThenReserve?
    case CloseBody(_, k) => k.ThenReserve?
    case ClosingBrowser(_, k) => k.ThenReserve?
    case CloseRelease(_, k) => k.ThenReserve?
    case _ => GiftOf(pc).Some? && GiftOf(pc).value.grant.Recreated?
  }

  // Only a request whose session is too old begins a forced create.
  ghost predicate ForcedMoves(s: State, t: nat, s': State)
    requires t < |s.threads| && |s'.threads| == |s.threads|
  {
    InForced(s'.threads[t].pc) ==>
      InForced(s.threads[t].pc) || (Expired(s, t) && s'.threads[t].called == |s.items|)
  }

  lemma ForcedClosing(s: State, t: nat, c: Choice)
    requires CanStep(s, t, c) && AtClosing(s.threads[t].pc) && |Apply(s, Act(t, c)).threads| == |s.threads|
    requires !s.threads[t].pc.CloseRelease? && !s.threads[t].pc.Drain?
    ensures ForcedMoves(s, t, Apply(s, Act(t, c)))
  {
    hide StepLock, StepSetServer, StepSetFront, StepSetConfig, StepUnlock, StepCloseRelease, StepDrain;
    hide Without, Values, InMap, Enumerates, PcInRange, Continue, NextClose;
    hide StepBegin, StepAskService, StepEnter, Reserve, StepAwait, StepBuild, StepSignal, StepCheck;
    hide StepJudge, StepUse, StepInspect, StepRelease;
  }

  lemma ForcedNext(s: State, t: nat, c: Choice)
    requires CanStep(s, t, c) && |Apply(s, Act(t, c)).threads| == |s.threads|
    requires s.threads[t].pc.CloseRelease? || s.threads[t].pc.Drain?
    ensures ForcedMoves(s, t, Apply(s, Act(t, c)))
  {
    hide StepLock, StepSetServer, StepSetFront, StepSetConfig, StepUnlock, StepCloseLock, StepCloseBody;
    hide Without, Values, InMap, Enumerates, PcInRange, StepCloseReturn, StepForget, StepTake;
    hide StepBegin, StepAskService, StepEnter, Reserve, StepAwait, StepBuild, StepSignal, StepCheck;
    hide StepJudge, StepUse, StepInspect, StepRelease;
  }

  lemma ForcedSave(s: State, t: nat, c: Choice)
    requires CanStep(s, t, c) && AtSave(s.threads[t].pc) && |Apply(s, Act(t, c)).threads| == |s.threads|
    ensures ForcedMoves(s, t, Apply(s, Act(t, c)))
  {
    hide StepBegin, StepAskService, StepEnter, Reserve, StepAwait, StepBuild, StepSignal, StepCheck;
    hide StepJudge, StepUse, StepInspect, StepRelease;
    hide StepForget, StepCloseLock, StepCloseBody, StepCloseReturn, StepCloseRelease;
    hide StepTake, StepDrain;
  }

  lemma ForcedUse(s: State, t: nat, c: Choice)
    requires CanStep(s, t, c) && AtUse(s.threads[t].pc) && |Apply(s, Act(t, c)).threads| == |s.threads|
    ensures ForcedMoves(s, t, Apply(s, Act(t, c)))
  {
    hide StepBegin, StepAskService, StepEnter, Reserve, StepAwait, StepBuild, StepSignal, StepCheck;
    hide StepForget, StepCloseLock, StepCloseBody, StepCloseReturn, StepCloseRelease;
    hide StepTake, StepDrain;
    hide StepLock, StepSetServer, StepSetFront, StepSetConfig, StepUnlock;
  }

  lemma ForcedReserve(s: State, t: nat, c: Choice)
    requires CanStep(s, t, c) && (s.threads[t].pc.Enter? || s.threads[t].pc.Again?)
    requires |Apply(s, Act(t, c)).threads| == |s.threads|
    ensures ForcedMoves(s, t, Apply(s, Act(t, c)))
  {
    hide StepForget, StepCloseLock, StepCloseBody, StepCloseReturn, StepCloseRelease, StepTake, StepDrain;
    hide StepLock, StepSetServer, StepSetFront, StepSetConfig, StepUnlock;
    hide StepJudge, StepUse, StepInspect, StepRelease;
    hide StepBegin, StepAskService, StepAwait, StepBuild, StepSignal, StepCheck, ProxyOf, Without, PcInRange;
  }

  lemma ForcedCreate(s: State, t: nat, c: Choice)
    requires CanStep(s, t, c) && !AtClosing(s.threads[t].pc) && !AtSave(s.threads[t].pc) && !AtUse(s.threads[t].pc)
    requires !s.threads[t].pc.Enter? && !s.threads[t].pc.Again?
    requires |Apply(s, Act(t, c)).threads| == |s.threads|
    ensures ForcedMoves(s, t, Apply(s, Act(t, c)))
  {
    hide StepForget, StepCloseLock, StepCloseBody, StepCloseReturn, StepCloseRelease, StepTake, StepDrain;
    hide StepLock, StepSetServer, StepSetFront, StepSetConfig, StepUnlock;
    hide StepJudge, StepUse, StepInspect, StepRelease, StepEnter, Reserve;
  }

  lemma ForcedStep(s: State, e: Event, t: nat)
    requires WellFormed(s) && Valid(s, e) && t < |s.threads|
    requires |Apply(s, e).threads| == |s.threads| && InForced(Apply(s, e).threads[t].pc)
    ensures var s' := Apply(s, e);
      || (InForced(s.threads[t].pc) && s'.threads[t].called == s.threads[t].called)
      || (ActsAs(e, t) && Expired(s, t) && s'.threads[t].called == |s.items|)
  {
    if !ActsAs(e, t) {
      BystanderStays(s, e, t);
    } else {
      var pc := s.threads[t].pc;
      if !pc.Begin? && !pc.AskService? && !pc.Judge? { CounterMoves(s, t, e.c); }
      if pc.CloseRelease? || pc.Drain? {
        ForcedNext(s, t, e.c);
      } else if AtClosing(pc) {
        ForcedClosing(s, t, e.c);
      } else if AtSave(pc) {
        ForcedSave(s, t, e.c);
      } else if AtUse(pc) {
        ForcedUse(s, t, e.c);
      } else if pc.Enter? || pc.Again? {
        ForcedReserve(s, t, e.c);
      } else {
        ForcedCreate(s, t, e.c);
      }
    }
  }

  lemma {:induction false} ForcedCall(states: seq<State>, es: seq<Event>, n: nat, t: nat) returns (m: nat)
    requires IsRun(states, es) && n < |states| && t < |states[n].threads| && InForced(states[n].threads[t].pc)
    ensures m < n && Forces(states, es, m, t) && |states[m].items| == states[n].threads[t].called
  {
    hide Apply, Valid, WellFormed;
    assert n != 0;
    SameThreads(states, es, n - 1);
    ForcedStep(states[n - 1], es[n - 1], t);
    if InForced(states[n - 1].threads[t].pc) && states[n].threads[t].called == states[n - 1].threads[t].called {
      m := ForcedCall(states, es, n - 1, t);
    } else {
      m := n - 1;
    }
  }

  // Fresh sessions.  ----------------------------------------------------------

  // The re-check after construction tests that the id is present.  The entry is
  // the session just built exactly when the id is present and no later create
  // has reserved it again.
  lemma PresentIsThisOne(states: seq<State>, es: seq<Event>, n: nat, t: nat)
    requires IsRun(states, es) && n < |states| && t < |states[n].threads| && states[n].threads[t].pc.Check?
    ensures var s := states[n]; var i := s.threads[t].pc.i;
      && i < |s.items|
      && (InMap(s, i) <==>
            && s.items[i].id in s.sessions
            && (forall j :: i < j < |s.items| ==> s.items[j].id != s.items[i].id))
  {
    Reachable(states, es, n);
    var s := states[n];
    assert ThreadOk(s, t);
    var i := s.threads[t].pc.i;
    if s.items[i].id in s.sessions {
      var e := s.sessions[s.items[i].id];
      assert s.items[e].id == s.items[i].id && i <= e;
    }
  }

  // Three threads on the id "s": a create, a destroy, and another create.  No
  // config holds a default proxy.
  function Trio(m: map<string, nat>, items: seq<Item>, first: Pc, second: Pc, third: Pc, mark: nat): State {
    State(m, items,
          [Thread(CmdCreate("s"), first, 0, 0, OriginAt(first)),
           Thread(CmdDestroy("s"), second, if second.Begin? then 0 else 1, if second.Begin? then 0 else 1, Unread),
           Thread(CmdCreate("s"), third, mark, mark, OriginAt(third))],
          0, 0, 0, {0}, None, 0)
  }

  function OriginAt(pc: Pc): Origin {
    if pc.Begin? || pc.AskService? then Unread else FromService(0)
  }

  function Slot(creator: nat, life: Life, ready: bool, taker: Option<nat>): Item {
    Item("s", 0, Some(FromService(0)), 0, creator,
         life, ready, false, None, if life.Pending? then 0 else 1, 0, taker)
  }

  const SOME_CHOICE := Choice(true, "drawn", [])

  // A run: the first create builds; the destroy takes the session out; the other
  // create reserves the id again; the first create returns.
  function Moment(n: nat): State {
    var built, taken, other := Slot(0, Open, true, None), Slot(0, Open, true, Some(1)), Slot(2, Pending, false, None);
    var check, closing := Check(0, false), CloseWait(0, ThenDestroyed);
    if n == 0 then Trio(map[], [], Begin, Begin, Begin, 0)
    else if n == 1 then Trio(map[], [], AskService("s"), Begin, Begin, 0)
    else if n == 2 then Trio(map[], [], Enter("s", false), Begin, Begin, 0)
    else if n == 3 then Trio(map["s" := 0], [Slot(0, Pending, false, None)], Build(0, false), Begin, Begin, 0)
    else if n == 4 then Trio(map["s" := 0], [Slot(0, Open, false, None)], Signal(0, false), Begin, Begin, 0)
    else if n == 5 then Trio(map["s" := 0], [built], check, Begin, Begin, 0)
    else if n == 6 then Trio(map["s" := 0], [built], check, Take("s"), Begin, 0)
    else if n == 7 then Trio(map[], [taken], check, closing, Begin, 0)
    else if n == 8 then Trio(map[], [taken], check, closing, AskService("s"), 1)
    else if n == 9 then Trio(map[], [taken], check, closing, Enter("s", false), 1)
    else if n == 10 then Trio(map["s" := 1], [taken, other], check, closing, Build(1, false), 1)
    else Trio(map["s" := 1], [taken, other], Done(Got(0, true)), closing, Build(1, false), 1)
  }

  function Move(n: nat): Event {
    Act(if n < 5 || n == 10 then 0 else if n < 7 then 1 else 2, SOME_CHOICE)
  }

  lemma FirstCreateBegins()
    ensures Happens(Moment(0), Move(0), Moment(1))
    ensures Happens(Moment(1), Move(1), Moment(2))
  {
    hide StepForget, StepCloseLock, StepCloseBody, StepCloseReturn, StepCloseRelease;
    hide StepJudge, StepUse, StepInspect, StepRelease;
    hide StepLock, StepSetServer, StepSetFront, StepSetConfig, StepUnlock;
    hide StepTake, StepDrain, StepEnter, Reserve, StepAwait, StepBuild, StepSignal, StepCheck;
  }

  lemma FirstCreateReserves()
    ensures Happens(Moment(2), Move(2), Moment(3))
  {
    hide StepForget, StepCloseLock, StepCloseBody, StepCloseReturn, StepCloseRelease;
    hide StepJudge, StepUse, StepInspect, StepRelease;
    hide StepLock, StepSetServer, StepSetFront, StepSetConfig, StepUnlock;
    hide StepTake, StepDrain, StepBegin, StepAskService, StepAwait, StepBuild, StepSignal, StepCheck;
  }

  lemma FirstCreateBuilds()
    ensures Happens(Moment(3), Move(3), Moment(4))
    ensures Happens(Moment(4), Move(4), Moment(5))
  {
    hide StepForget, StepCloseLock, StepCloseBody, StepCloseReturn, StepCloseRelease;
    hide StepJudge, StepUse, StepInspect, StepRelease;
    hide StepLock, StepSetServer, StepSetFront, StepSetConfig, StepUnlock;
    hide StepTake, StepDrain, StepBegin, StepAskService, StepEnter, Reserve, StepAwait, StepCheck;
  }

  lemma DestroyBegins()
    ensures Happens(Moment(5), Move(5), Moment(6))
  {
    hide StepForget, StepCloseLock, StepCloseBody, StepCloseReturn, StepCloseRelease;
    hide StepJudge, StepUse, StepInspect, StepRelease;
    hide StepLock, StepSetServer, StepSetFront, StepSetConfig, StepUnlock;
    hide StepTake, StepDrain, StepAskService, StepEnter, Reserve, StepAwait, StepBuild, StepSignal, StepCheck;
  }

  lemma DestroyTakesIt()
    ensures Happens(Moment(6), Move(6), Moment(7))
  {
    hide StepForget, StepCloseLock, StepCloseBody, StepCloseReturn, StepCloseRelease;
    hide StepJudge, StepUse, StepInspect, StepRelease, StepBegin;
    hide StepLock, StepSetServer, StepSetFront, StepSetConfig, StepUnlock;
    hide StepDrain, StepAskService, StepEnter, Reserve, StepAwait, StepBuild, StepSignal, StepCheck;
    assert Without(map["s" := 0], "s") == map[];
  }

  lemma SecondCreateBegins()
    ensures Happens(Moment(7), Move(7), Moment(8))
    ensures Happens(Moment(8), Move(8), Moment(9))
  {
    hide StepForget, StepCloseLock, StepCloseBody, StepCloseReturn, StepCloseRelease;
    hide StepJudge, StepUse, StepInspect, StepRelease;
    hide StepLock, StepSetServer, StepSetFront, StepSetConfig, StepUnlock;
    hide StepTake, StepDrain, StepEnter, Reserve, StepAwait, StepBuild, StepSignal, StepCheck;
  }

  lemma SecondCreateReserves()
    ensures Happens(Moment(9), Move(9), Moment(10))
  {
    hide StepForget, StepCloseLock, StepCloseBody, StepCloseReturn, StepCloseRelease;
    hide StepJudge, StepUse, StepInspect, StepRelease;
    hide StepLock, StepSetServer, StepSetFront, StepSetConfig, StepUnlock;
    hide StepTake, StepDrain, StepBegin, StepAskService, StepAwait, StepBuild, StepSignal, StepCheck;
  }

  lemma FirstCreateReturns()
    ensures Happens(Moment(10), Move(10), Moment(11))
  {
    hide StepForget, StepCloseLock, StepCloseBody, StepCloseReturn, StepCloseRelease;
    hide StepJudge, StepUse, StepInspect, StepRelease;
    hide StepLock, StepSetServer, StepSetFront, StepSetConfig, StepUnlock;
    hide StepTake, StepDrain, StepBegin, StepAskService, StepEnter, Reserve, StepAwait, StepBuild, StepSignal;
  }

  lemma MomentStep(n: nat)
    requires n < 11
    ensures Happens(Moment(n), Move(n), Moment(n + 1))
  {
    hide Happens, Moment, Move;
    FirstCreateBegins();
    FirstCreateReserves();
    FirstCreateBuilds();
    DestroyBegins();
    DestroyTakesIt();
    SecondCreateBegins();
    SecondCreateReserves();
    FirstCreateReturns();
  }

  // Without that condition it fails: one create builds a session, a destroy
  // removes it, a second create reserves the id again, and the first create
  // still reports its own session as fresh although the map holds the other
  // one and the destroying thread is about to close it.
  lemma FreshMayBeReplaced() returns (states: seq<State>, es: seq<Event>)
    ensures IsRun(states, es) && |es| == 11
    ensures var s := states[11];
      && |s.threads| == 3 && |s.items| == 2
      && s.threads[0].pc == Done(Got(0, true)) && !InMap(s, 0) && Owes(s.threads[1].pc, 0)
  {
    assert Init(Moment(0));
    states, es := seq(12, n requires 0 <= n < 12 => Moment(n)), seq(11, n requires 0 <= n < 11 => Move(n));
    assert states[11] == Moment(11);
    hide Happens, Move;
    forall n | 0 <= n < |es|
      ensures StepAt(states, es, n)
    {
      MomentStep(n);
    }
  }
}
