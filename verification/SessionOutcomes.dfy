// How every command ends, and why: what holds at an earlier step of its thread if
// and only if it is refused, served, or told that there was a session to destroy.
module SessionOutcomes {
  import opened Wrappers
  import opened SessionMachine
  import opened SessionInvariant
  import opened SessionMutex
  import opened SessionProgress
  import opened SessionTheorems

  // What happens to thread t when it takes its next step.
  datatype Turn =
    | Refusal          // its construction or save fails, it finds no browser, its id gone, or its session closed
    | Resolve(i: nat)  // it resolves the page with session i
    | Removal          // it takes the session to destroy out of the map
    | Return(i: nat, isFresh: bool)  // its create finds session i built by another, or its own in the map

  ghost predicate Turns(s: State, t: nat, c: Choice, k: Turn)
    requires t < |s.threads|
  {
    var pc := s.threads[t].pc;
    match k
    case Refusal =>
      || (pc.Build? && !c.ok)
      || (pc.Await? && pc.i < |s.items| && s.items[pc.i].life.NoBrowser?)
      || (pc.Check? && pc.i < |s.items| && s.items[pc.i].id !in s.sessions)
      || (pc.Inspect? && pc.i < |s.items| && s.items[pc.i].closed)
      || (pc.SetServer? && !c.ok)
    case Resolve(i) => pc.Resolving? && pc.i == i
    case Removal => pc.Take? && pc.id in s.sessions
    case Return(i, isFresh) =>
      && s.threads[t].cmd.CmdCreate? && i < |s.items|
      && if isFresh then pc.Check? && pc.i == i && s.items[i].id in s.sessions
         else pc.Await? && pc.i == i && !s.items[i].life.NoBrowser?
  }

  // What one can see of it later on.
  ghost predicate Shows(s: State, t: nat, k: Turn)
    requires t < |s.threads|
  {
    var pc := s.threads[t].pc;
    match k
    case Refusal =>
      || pc.Forget? || (pc.Signal? && pc.i < |s.items| && s.items[pc.i].life.NoBrowser?)
      || (Closes(pc) && pc.k.ThenRefuse?) || (pc.Release? && !pc.ok)
      || ((pc.Unlock? || pc.Done?) && pc.r.Refused?)
    case Resolve(i) => (pc.Release? && pc.ok && pc.i == i) || (pc.Done? && pc.r.Served? && pc.r.i == i)
    case Return(i, isFresh) => pc == Done(Got(i, isFresh))
    case Removal => (Closes(pc) && pc.k.ThenDestroyed?) || (pc.Done? && pc.r == Destroyed(true))
  }

  predicate Closes(pc: Pc) {
    pc.CloseWait? || pc.CloseLock? || pc.CloseBody? || pc.ClosingBrowser? || pc.CloseRelease?
  }

  // Which steps belong to which command.
  predicate Fits(cmd: Cmd, pc: Pc) {
    match pc
    case Begin => true
    case AskService(_) => cmd.CmdCreate?
    case Judge(_, _) | Use(_, _) | Inspect(_, _) => cmd.CmdRequest?
    case Resolving(_, _) => cmd.CmdRequest?
    case Release(_, _, _) => cmd.CmdRequest?
    case Take(_) => cmd.CmdDestroy?
    case Lock | SetServer | SetFront | SetConfig => cmd.CmdSave?
    case Drain(_) => cmd.CmdDestroyAll? || cmd.CmdSave?
    case Unlock(r) => (r.Drained? && (cmd.CmdDestroyAll? || cmd.CmdSave?)) || (r.Refused? && cmd.CmdSave?)
    case Done(r) =>
      (match r
       case Refused => cmd.CmdCreate? || cmd.CmdRequest? || cmd.CmdSave?
       case Got(_, _) => cmd.CmdCreate?
       case Served(_, _) => cmd.CmdRequest?
       case Destroyed(_) => cmd.CmdDestroy?
       case Drained(_, _) => cmd.CmdDestroyAll? || cmd.CmdSave?)
    case _ =>
      if Closes(pc) then
        match pc.k
        case ThenReserve(_) => cmd.CmdRequest?
        case ThenRefuse => cmd.CmdCreate? || cmd.CmdRequest?
        case ThenDestroyed => cmd.CmdDestroy?
        case ThenNext(_, _, _) => cmd.CmdDestroyAll? || cmd.CmdSave?
      else if (pc.Enter? && pc.force) || pc.Again? then cmd.CmdRequest?
      else cmd.CmdCreate? || cmd.CmdRequest?
  }

  // What one step of thread t does to all of this.
  ghost predicate EndMoves(s: State, t: nat, c: Choice, s': State)
    requires t < |s.threads| && |s'.threads| == |s.threads|
  {
    && s'.threads[t].cmd == s.threads[t].cmd
    && (Fits(s.threads[t].cmd, s.threads[t].pc) ==>
          && Fits(s'.threads[t].cmd, s'.threads[t].pc)
          && forall k :: Shows(s', t, k) <==> Shows(s, t, k) || Turns(s, t, c, k))
  }

  lemma StepEndMoves(s: State, t: nat, c: Choice)
    requires CanStep(s, t, c) && |Apply(s, Act(t, c)).threads| == |s.threads|
    ensures EndMoves(s, t, c, Apply(s, Act(t, c)))
  {
    var pc := s.threads[t].pc;
    hide Apply, EndMoves;
    if pc.CloseWait? || pc.CloseLock? || pc.CloseBody? || pc.ClosingBrowser? {
      EndClosing(s, t, c);
    } else if pc.CloseRelease? {
      EndRelease(s, t, c);
    } else if AtClosing(pc) {
      EndTaking(s, t, c);
    } else if AtSave(pc) {
      EndSave(s, t, c);
    } else if AtUse(pc) || pc.Resolving? {
      EndUse(s, t, c);
    } else if pc.Build? || pc.Signal? {
      EndBuild(s, t, c);
    } else if pc.Await? || pc.Check? {
      EndAwait(s, t, c);
    } else {
      EndEnter(s, t, c);
    }
  }

  lemma EndClosing(s: State, t: nat, c: Choice)
    requires CanStep(s, t, c) && |Apply(s, Act(t, c)).threads| == |s.threads|
    requires var pc := s.threads[t].pc; pc.CloseWait? || pc.CloseLock? || pc.CloseBody? || pc.ClosingBrowser?
    ensures EndMoves(s, t, c, Apply(s, Act(t, c)))
  {
    hide StepBegin, StepAskService, StepEnter, Reserve;
    hide StepAwait, StepBuild, StepSignal, StepCheck;
    hide StepJudge, StepUse, StepInspect, StepRelease;
    hide StepLock, StepSetServer, StepSetFront, StepSetConfig, StepUnlock;
    hide StepForget, StepTake, StepDrain, StepCloseRelease;
    hide InMap, Without, Values, PcInRange, Continue, NextClose;
  }

  lemma EndRelease(s: State, t: nat, c: Choice)
    requires CanStep(s, t, c) && |Apply(s, Act(t, c)).threads| == |s.threads|
    requires s.threads[t].pc.CloseRelease?
    ensures EndMoves(s, t, c, Apply(s, Act(t, c)))
  {
    hide StepBegin, StepAskService, StepEnter, Reserve;
    hide StepAwait, StepBuild, StepSignal, StepCheck;
    hide StepJudge, StepUse, StepInspect, StepRelease;
    hide StepLock, StepSetServer, StepSetFront, StepSetConfig, StepUnlock;
    hide StepCloseLock, StepCloseBody, StepCloseReturn;
    hide InMap, Without, Values, StepForget, StepTake, StepDrain;
  }

  lemma EndTaking(s: State, t: nat, c: Choice)
    requires CanStep(s, t, c) && |Apply(s, Act(t, c)).threads| == |s.threads|
    requires s.threads[t].pc.Forget? || s.threads[t].pc.Take? || s.threads[t].pc.Drain?
    ensures EndMoves(s, t, c, Apply(s, Act(t, c)))
  {
    hide StepBegin, StepAskService, StepEnter, Reserve;
    hide StepAwait, StepBuild, StepSignal, StepCheck;
    hide StepJudge, StepUse, StepInspect, StepRelease;
    hide StepLock, StepSetServer, StepSetFront, StepSetConfig, StepUnlock;
    hide StepCloseLock, StepCloseBody, StepCloseReturn;
    hide InMap, Without, Values, StepCloseRelease, Continue;
  }

  lemma EndSave(s: State, t: nat, c: Choice)
    requires CanStep(s, t, c) && |Apply(s, Act(t, c)).threads| == |s.threads|
    requires AtSave(s.threads[t].pc)
    ensures EndMoves(s, t, c, Apply(s, Act(t, c)))
  {
    hide StepBegin, StepAskService, StepEnter, Reserve;
    hide StepAwait, StepBuild, StepSignal, StepCheck;
    hide StepJudge, StepUse, StepInspect, StepRelease;
    hide StepForget, StepTake, StepDrain, StepCloseRelease;
    hide StepCloseLock, StepCloseBody, StepCloseReturn;
    hide InMap, Without, Values, PcInRange;
  }

  lemma EndUse(s: State, t: nat, c: Choice)
    requires CanStep(s, t, c) && |Apply(s, Act(t, c)).threads| == |s.threads|
    requires AtUse(s.threads[t].pc) || s.threads[t].pc.Resolving?
    ensures EndMoves(s, t, c, Apply(s, Act(t, c)))
  {
    hide StepBegin, StepAskService, StepEnter, Reserve;
    hide StepAwait, StepBuild, StepSignal, StepCheck;
    hide StepLock, StepSetServer, StepSetFront, StepSetConfig, StepUnlock;
    hide StepForget, StepTake, StepDrain, StepCloseRelease;
    hide StepCloseLock, StepCloseBody, StepCloseReturn;
    hide InMap, Without, Values;
  }

  lemma EndBuild(s: State, t: nat, c: Choice)
    requires CanStep(s, t, c) && |Apply(s, Act(t, c)).threads| == |s.threads|
    requires s.threads[t].pc.Build? || s.threads[t].pc.Signal?
    ensures EndMoves(s, t, c, Apply(s, Act(t, c)))
  {
    hide StepBegin, StepAskService, StepEnter, Reserve;
    hide StepJudge, StepUse, StepInspect, StepRelease;
    hide StepLock, StepSetServer, StepSetFront, StepSetConfig, StepUnlock;
    hide StepForget, StepTake, StepDrain, StepCloseRelease;
    hide StepCloseLock, StepCloseBody, StepCloseReturn;
    hide InMap, Without, Values, StepAwait, StepCheck;
  }

  lemma EndAwait(s: State, t: nat, c: Choice)
    requires CanStep(s, t, c) && |Apply(s, Act(t, c)).threads| == |s.threads|
    requires s.threads[t].pc.Await? || s.threads[t].pc.Check?
    ensures EndMoves(s, t, c, Apply(s, Act(t, c)))
  {
    hide StepBegin, StepAskService, StepEnter, Reserve;
    hide StepJudge, StepUse, StepInspect, StepRelease;
    hide StepLock, StepSetServer, StepSetFront, StepSetConfig, StepUnlock;
    hide StepForget, StepTake, StepDrain, StepCloseRelease;
    hide StepCloseLock, StepCloseBody, StepCloseReturn;
    hide InMap, Without, Values, StepBuild, StepSignal;
  }

  lemma EndEnter(s: State, t: nat, c: Choice)
    requires CanStep(s, t, c) && |Apply(s, Act(t, c)).threads| == |s.threads|
    requires var pc := s.threads[t].pc;
      && !AtClosing(pc) && !AtSave(pc) && !AtUse(pc) && !pc.Resolving?
      && !pc.Await? && !pc.Build? && !pc.Signal? && !pc.Check?
    ensures EndMoves(s, t, c, Apply(s, Act(t, c)))
  {
    hide StepAwait, StepBuild, StepSignal, StepCheck;
    hide StepJudge, StepUse, StepInspect, StepRelease;
    hide StepLock, StepSetServer, StepSetFront, StepSetConfig, StepUnlock;
    hide StepForget, StepTake, StepDrain, StepCloseRelease;
    hide StepCloseLock, StepCloseBody, StepCloseReturn;
    hide InMap, Without, Values, ProxyOf;
  }

  // A step of anybody else changes none of it.
  lemma OthersLeaveIt(s: State, s': State, u: nat, t: nat, k: Turn)
    requires Follows(s, s', u) && t < |s.threads| && t != u && ThreadOk(s, t)
    ensures Shows(s', t, k) <==> Shows(s, t, k)
  {
    var pc := s.threads[t].pc;
    if pc.Signal? { assert ItemFollows(s.items[pc.i], s'.items[pc.i], u); }
  }

  lemma NothingTicks(s: State, elapsed: nat, t: nat, k: Turn)
    requires WellFormed(s) && t < |s.threads|
    ensures Apply(s, Tick(elapsed)).threads == s.threads
    ensures Shows(Apply(s, Tick(elapsed)), t, k) <==> Shows(s, t, k)
  {
  }

  // Step m is one at which this happens to thread t.
  ghost predicate TurnedAt(states: seq<State>, es: seq<Event>, m: nat, t: nat, k: Turn) {
    m < |es| && m < |states| && ActsAs(es[m], t) && t < |states[m].threads| && Turns(states[m], t, es[m].c, k)
  }

  ghost predicate TurnedBefore(states: seq<State>, es: seq<Event>, n: nat, t: nat, k: Turn) {
    exists m :: 0 <= m < n && TurnedAt(states, es, m, t, k)
  }

  lemma TurnedMore(states: seq<State>, es: seq<Event>, n: nat, t: nat, k: Turn)
    ensures TurnedBefore(states, es, n + 1, t, k) <==>
      TurnedBefore(states, es, n, t, k) || TurnedAt(states, es, n, t, k)
  {
    hide TurnedAt;
  }

  lemma ShowsStep(states: seq<State>, es: seq<Event>, n: nat, t: nat, k: Turn)
    requires IsRun(states, es) && n < |es| && n + 1 < |states| && t < |states[n + 1].threads|
    ensures t < |states[n].threads| && states[n].threads[t].cmd == states[n + 1].threads[t].cmd
    ensures Fits(states[n].threads[t].cmd, states[n].threads[t].pc) ==>
      && Fits(states[n + 1].threads[t].cmd, states[n + 1].threads[t].pc)
      && (Shows(states[n + 1], t, k) <==> Shows(states[n], t, k) || TurnedAt(states, es, n, t, k))
  {
    var s, e, s' := states[n], es[n], states[n + 1];
    StepFollows(states, es, n);
    assert StepAt(states, es, n);
    assert ThreadOk(s, t);
    hide IsRun, Inv, ThreadOk, Shows, Fits, Turns, ItemFollows;
    if e.Tick? {
      NothingTicks(s, e.elapsed, t, k);
    } else if e.t == t {
      hide Apply;
      StepEndMoves(s, t, e.c);
    } else {
      hide Apply;
      OthersLeaveIt(s, s', e.t, t, k);
    }
  }

  lemma NothingShows(states: seq<State>, es: seq<Event>, t: nat, k: Turn)
    requires IsRun(states, es) && t < |states[0].threads|
    ensures Fits(states[0].threads[t].cmd, states[0].threads[t].pc)
    ensures !Shows(states[0], t, k) && !TurnedBefore(states, es, 0, t, k)
  {
    hide StepAt;
  }

  lemma {:induction false} ShowsExactly(states: seq<State>, es: seq<Event>, n: nat, t: nat, k: Turn)
    requires IsRun(states, es) && n < |states| && t < |states[n].threads|
    ensures Fits(states[n].threads[t].cmd, states[n].threads[t].pc)
    ensures Shows(states[n], t, k) <==> TurnedBefore(states, es, n, t, k)
  {
    hide *;
    RunLength(states, es);
    if n == 0 {
      NothingShows(states, es, t, k);
    } else {
      ShowsStep(states, es, n - 1, t, k);
      ShowsExactly(states, es, n - 1, t, k);
      TurnedMore(states, es, n - 1, t, k);
    }
  }

  // Main results.  ----------------------------------------------------------------

  // A request ends in one of two ways.  It is refused if and only if at one of its
  // steps a browser could not be built or was not there, its id was gone, or its
  // session was found closed; otherwise it is served, and if and only if it is
  // served with session i it resolved its page with that session's browser.
  lemma RequestEnds(states: seq<State>, es: seq<Event>, n: nat, t: nat, i: nat)
    requires IsRun(states, es) && n < |states| && t < |states[n].threads|
    requires states[n].threads[t].cmd.CmdRequest? && states[n].threads[t].pc.Done?
    ensures var r := states[n].threads[t].pc.r;
      && (r.Refused? || r.Served?)
      && (r.Refused? <==> TurnedBefore(states, es, n, t, Refusal))
      && (r.Served? && r.i == i <==> TurnedBefore(states, es, n, t, Resolve(i)))
  {
    hide IsRun, TurnedBefore;
    ShowsExactly(states, es, n, t, Refusal);
    ShowsExactly(states, es, n, t, Resolve(i));
  }

  // A create that is not refused for one of these reasons returns a session: its
  // own, if and only if it built that one and found its id in the map, and another
  // one's, if and only if it waited for that.  A save that is not refused drains
  // the store, a destroyAll always does, and a destroy says whether its id was in
  // the map.
  lemma OthersEnd(states: seq<State>, es: seq<Event>, n: nat, t: nat, i: nat, isFresh: bool)
    requires IsRun(states, es) && n < |states| && t < |states[n].threads| && states[n].threads[t].pc.Done?
    ensures var cmd, r := states[n].threads[t].cmd, states[n].threads[t].pc.r;
      && (cmd.CmdCreate? ==> r.Got? || r.Refused?)
      && (r == Got(i, isFresh) <==> TurnedBefore(states, es, n, t, Return(i, isFresh)))
      && (cmd.CmdSave? ==> r.Drained? || r.Refused?)
      && (cmd.CmdDestroyAll? ==> r.Drained?)
      && (cmd.CmdDestroy? ==> r == Destroyed(TurnedBefore(states, es, n, t, Removal)))
      && (r.Refused? <==> TurnedBefore(states, es, n, t, Refusal))
  {
    hide IsRun, TurnedBefore;
    ShowsExactly(states, es, n, t, Refusal);
    ShowsExactly(states, es, n, t, Removal);
    ShowsExactly(states, es, n, t, Return(i, isFresh));
  }

  // Reservations.  ----------------------------------------------------------------

  // Step m reserves session i: for the acting thread's create, under the id it asked
  // for or, if it asked for none, the one drawn, with the store's config and the
  // clock of that moment.
  ghost predicate ReservesAt(states: seq<State>, es: seq<Event>, m: nat, i: nat, x: Item) {
    && m < |es| && m < |states| && es[m].Act? && es[m].t < |states[m].threads|
    && |states[m].items| == i
    && x.creator == es[m].t && x.ver == states[m].cfg && x.born == states[m].now
    && var pc := states[m].threads[es[m].t].pc;
      (pc.Enter? || pc.Again?) && x.id == if pc.id == "" then es[m].c.drawn else pc.id
  }

  ghost predicate Reserved(s: State, t: nat, c: Choice, s': State)
    requires t < |s.threads|
  {
    && |s.items| <= |s'.items| <= |s.items| + 1
    && (|s'.items| > |s.items| ==>
          var x, pc := s'.items[|s.items|], s.threads[t].pc;
          && x.creator == t && x.ver == s.cfg && x.born == s.now
          && (pc.Enter? || pc.Again?) && x.id == if pc.id == "" then c.drawn else pc.id)
  }

  lemma OnlyEnterReserves(s: State, t: nat, c: Choice)
    requires CanStep(s, t, c) && (s.threads[t].pc.Again? ==> s.threads[t].pc.id != "")
    ensures Reserved(s, t, c, Apply(s, Act(t, c)))
  {
    var pc := s.threads[t].pc;
    if pc.Enter? || pc.Again? { EnterReserves(s, t, c); } else { NothingReserves(s, t, c); }
  }

  lemma EnterReserves(s: State, t: nat, c: Choice)
    requires CanStep(s, t, c) && (s.threads[t].pc.Again? ==> s.threads[t].pc.id != "")
    requires s.threads[t].pc.Enter? || s.threads[t].pc.Again?
    ensures Reserved(s, t, c, Apply(s, Act(t, c)))
  {
    hide StepForget, StepTake, StepDrain, StepCloseRelease, StepCloseLock, StepCloseBody, StepCloseReturn;
    hide StepBegin, StepAskService, StepAwait, StepBuild, StepSignal, StepCheck;
    hide StepJudge, StepUse, StepInspect, StepRelease;
    hide StepLock, StepSetServer, StepSetFront, StepSetConfig, StepUnlock;
    hide InMap, Without, Values, ProxyOf, PcInRange;
  }

  lemma NothingReserves(s: State, t: nat, c: Choice)
    requires CanStep(s, t, c) && !s.threads[t].pc.Enter? && !s.threads[t].pc.Again?
    ensures |Apply(s, Act(t, c)).items| == |s.items|
  {
    hide StepEnter, Reserve, InMap, Without, Values, ProxyOf, Continue, NextClose, Returned;
  }

  lemma ReservesInStep(states: seq<State>, es: seq<Event>, n: nat, i: nat)
    requires IsRun(states, es) && n < |es| && n + 1 < |states| && i < |states[n + 1].items|
    ensures i < |states[n].items| || ReservesAt(states, es, n, i, states[n + 1].items[i])
  {
    StepFollows(states, es, n);
    assert StepAt(states, es, n);
    var s, e := states[n], es[n];
    if e.Act? {
      assert ThreadOk(s, e.t);
      hide Apply, Inv, IsRun, ItemFollows;
      OnlyEnterReserves(s, e.t, e.c);
    }
  }

  // Every session was reserved at one step, with what that step saw.
  lemma {:induction false} ReservedOnce(states: seq<State>, es: seq<Event>, n: nat, i: nat) returns (m: nat)
    requires IsRun(states, es) && n < |states| && i < |states[n].items|
    ensures m < n && ReservesAt(states, es, m, i, states[n].items[i])
  {
    hide *;
    RunLength(states, es);
    NoneAtFirst(states, es);
    ReservesInStep(states, es, n - 1, i);
    if i < |states[n - 1].items| {
      m := ReservedOnce(states, es, n - 1, i);
      ItemInRun(states, es, n - 1, i);
      StaysReserved(states, es, m, i, states[n - 1].items[i], states[n].items[i], Actor(states[n - 1], es[n - 1]));
    } else {
      m := n - 1;
    }
  }

  lemma NoneAtFirst(states: seq<State>, es: seq<Event>)
    requires IsRun(states, es)
    ensures states[0].items == []
  {
    hide StepAt;
  }

  lemma StaysReserved(states: seq<State>, es: seq<Event>, m: nat, i: nat, x: Item, y: Item, u: nat)
    requires ReservesAt(states, es, m, i, x) && ItemFollows(x, y, u)
    ensures ReservesAt(states, es, m, i, y)
  {
  }

  // The clock.  ---------------------------------------------------------------------

  function Elapsed(es: seq<Event>): nat {
    if es == [] then 0 else Elapsed(es[..|es| - 1]) + if es[|es| - 1].Tick? then es[|es| - 1].elapsed else 0
  }

  lemma OnlyTicksPass(s: State, e: Event)
    requires WellFormed(s) && Valid(s, e)
    ensures Apply(s, e).now == s.now + if e.Tick? then e.elapsed else 0
  {
    hide InMap, Without, Values, ProxyOf, Continue, NextClose, Returned;
  }

  // The clock shows the time that has passed, and no step of a thread moves it.
  lemma {:induction false} ClockIs(states: seq<State>, es: seq<Event>, n: nat)
    requires IsRun(states, es) && n < |states|
    ensures n <= |es| && states[n].now == states[0].now + Elapsed(es[..n])
  {
    RunLength(states, es);
    hide IsRun;
    if n > 0 {
      ClockIs(states, es, n - 1);
      assert es[..n][..n - 1] == es[..n - 1];
      ClockStep(states, es, n - 1);
    }
  }

  lemma ClockStep(states: seq<State>, es: seq<Event>, n: nat)
    requires IsRun(states, es) && n < |es| && n + 1 < |states|
    ensures states[n + 1].now == states[n].now + if es[n].Tick? then es[n].elapsed else 0
  {
    assert StepAt(states, es, n);
    hide Apply;
    OnlyTicksPass(states[n], es[n]);
  }
}
