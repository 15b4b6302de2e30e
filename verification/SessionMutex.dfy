// Settings saves exclude each other: what the machine keeps about applyMu.
module SessionMutex {
  import opened Wrappers
  import opened SessionMachine
  import opened SessionInvariant

  // The steps of close, destroy and destroyAll.
  predicate AtClosing(pc: Pc) {
    || pc.CloseWait? || pc.CloseLock? || pc.CloseBody? || pc.ClosingBrowser? || pc.CloseRelease?
    || pc.Forget? || pc.Take? || pc.Drain?
  }

  // The steps of a save on applyMu and on the copies of the config.
  predicate AtSave(pc: Pc) { pc.Lock? || pc.SetServer? || pc.SetFront? || pc.SetConfig? || pc.Unlock? }

  // The steps of a request that has its session.
  predicate AtUse(pc: Pc) { pc.Use? || pc.Inspect? || pc.Resolving? || pc.Release? || pc.Judge? }

  // A save between taking applyMu and giving it back.
  ghost predicate Saving(pc: Pc) {
    || pc.SetServer? || pc.SetFront? || pc.SetConfig? || pc.Drain? || pc.Unlock?
    || ((pc.CloseWait? || pc.CloseLock? || pc.CloseBody? || pc.ClosingBrowser? || pc.CloseRelease?) && pc.k.ThenNext?)
  }

  // Only a save gets to these steps, and inside them it holds applyMu.
  ghost predicate SaveOk(s: State, t: nat)
    requires t < |s.threads|
  {
    var th := s.threads[t];
    && (th.pc.Lock? || th.pc.SetServer? || th.pc.SetFront? || th.pc.SetConfig? ==> th.cmd.CmdSave?)
    && (th.cmd.CmdSave? ==> th.pc.Begin? || th.pc.Lock? || th.pc.Done? || (Saving(th.pc) && s.saver == Some(t)))
  }

  ghost predicate Mutex(s: State) {
    && (forall t :: 0 <= t < |s.threads| ==> SaveOk(s, t))
    && (s.saver.Some? ==>
          var t := s.saver.value; t < |s.threads| && s.threads[t].cmd.CmdSave? && Saving(s.threads[t].pc))
  }

  // What one step of thread t does to applyMu.
  ghost predicate MutexMove(s: State, t: nat, s': State)
    requires t < |s.threads| && |s'.threads| == |s.threads|
  {
    var th, th' := s.threads[t], s'.threads[t];
    && th'.cmd == th.cmd
    && (if th.pc.Lock? then s'.saver == Some(t) && th'.pc.SetServer?
        else if th.pc.Unlock? then s'.saver == (if th.cmd.CmdSave? then None else s.saver) && th'.pc.Done?
        else s'.saver == s.saver)
    && (th'.pc.Lock? || th'.pc.SetServer? || th'.pc.SetFront? || th'.pc.SetConfig? ==> th.cmd.CmdSave? || AtSave(th.pc))
    && (Saving(th.pc) && !th.pc.Unlock? ==> Saving(th'.pc))
    && (th.cmd.CmdSave? && th.pc.Begin? ==> th'.pc.Lock?)
    && (th.pc.Done? ==> th' == th)
  }

  lemma MoveMutex(s: State, t: nat, c: Choice)
    requires WellFormed(s) && Valid(s, Act(t, c)) && |Apply(s, Act(t, c)).threads| == |s.threads|
    ensures MutexMove(s, t, Apply(s, Act(t, c)))
  {
    hide Apply, MutexMove;
    if AtClosing(s.threads[t].pc) {
      MutexClosing(s, t, c);
    } else if AtSave(s.threads[t].pc) {
      MutexSave(s, t, c);
    } else if AtUse(s.threads[t].pc) {
      MutexUse(s, t, c);
    } else if s.threads[t].pc.Enter? || s.threads[t].pc.Again? {
      MutexReserve(s, t, c);
    } else {
      MutexCreate(s, t, c);
    }
  }

  lemma MutexClosing(s: State, t: nat, c: Choice)
    requires WellFormed(s) && Valid(s, Act(t, c)) && |Apply(s, Act(t, c)).threads| == |s.threads|
    requires AtClosing(s.threads[t].pc)
    ensures MutexMove(s, t, Apply(s, Act(t, c)))
  {
    hide StepBegin, StepAskService, StepEnter, Reserve, StepAwait, StepBuild, StepSignal, StepCheck;
    hide StepJudge, StepUse, StepInspect, StepRelease, StepLock, StepSetServer, StepSetFront, StepSetConfig, StepUnlock;
    hide Without, Values, InMap, Enumerates, PcInRange;
  }

  lemma MutexSave(s: State, t: nat, c: Choice)
    requires WellFormed(s) && Valid(s, Act(t, c)) && |Apply(s, Act(t, c)).threads| == |s.threads|
    requires AtSave(s.threads[t].pc)
    ensures MutexMove(s, t, Apply(s, Act(t, c)))
  {
    hide StepBegin, StepAskService, StepEnter, Reserve, StepAwait, StepBuild, StepSignal, StepCheck;
    hide StepJudge, StepUse, StepInspect, StepRelease;
    hide StepForget, StepCloseLock, StepCloseBody, StepCloseReturn, StepCloseRelease, StepTake, StepDrain;
  }

  lemma MutexUse(s: State, t: nat, c: Choice)
    requires WellFormed(s) && Valid(s, Act(t, c)) && |Apply(s, Act(t, c)).threads| == |s.threads|
    requires AtUse(s.threads[t].pc)
    ensures MutexMove(s, t, Apply(s, Act(t, c)))
  {
    hide StepBegin, StepAskService, StepEnter, Reserve, StepAwait, StepBuild, StepSignal, StepCheck;
    hide StepForget, StepCloseLock, StepCloseBody, StepCloseReturn, StepCloseRelease, StepTake, StepDrain;
    hide StepLock, StepSetServer, StepSetFront, StepSetConfig, StepUnlock;
  }

  lemma MutexReserve(s: State, t: nat, c: Choice)
    requires WellFormed(s) && Valid(s, Act(t, c)) && |Apply(s, Act(t, c)).threads| == |s.threads|
    requires s.threads[t].pc.Enter? || s.threads[t].pc.Again?
    ensures MutexMove(s, t, Apply(s, Act(t, c)))
  {
    hide StepForget, StepCloseLock, StepCloseBody, StepCloseReturn, StepCloseRelease, StepTake, StepDrain;
    hide StepLock, StepSetServer, StepSetFront, StepSetConfig, StepUnlock;
    hide StepJudge, StepUse, StepInspect, StepRelease;
    hide StepBegin, StepAskService, StepAwait, StepBuild, StepSignal, StepCheck;
    hide Without, Values, InMap, Enumerates, PcInRange, ProxyOf;
  }

  lemma MutexCreate(s: State, t: nat, c: Choice)
    requires WellFormed(s) && Valid(s, Act(t, c)) && |Apply(s, Act(t, c)).threads| == |s.threads|
    requires !AtClosing(s.threads[t].pc) && !AtSave(s.threads[t].pc) && !AtUse(s.threads[t].pc)
    requires !s.threads[t].pc.Enter? && !s.threads[t].pc.Again?
    ensures MutexMove(s, t, Apply(s, Act(t, c)))
  {
    hide StepForget, StepCloseLock, StepCloseBody, StepCloseReturn, StepCloseRelease, StepTake, StepDrain;
    hide StepLock, StepSetServer, StepSetFront, StepSetConfig, StepUnlock;
    hide StepJudge, StepUse, StepInspect, StepRelease, StepEnter, Reserve;
    hide Without, Values, InMap, Enumerates, PcInRange, ProxyOf;
  }

  lemma MutexFollows(s: State, s': State, t: nat)
    requires Mutex(s) && t < |s.threads| && |s'.threads| == |s.threads| && MutexMove(s, t, s')
    requires forall u :: 0 <= u < |s.threads| && u != t ==> s'.threads[u] == s.threads[u]
    requires s.threads[t].pc.Lock? ==> s.saver.None?
    ensures Mutex(s')
  {
    assert SaveOk(s, t);
    forall u | 0 <= u < |s'.threads| ensures SaveOk(s', u) {
      assert SaveOk(s, u);
    }
  }

  // Every step keeps saves apart.
  lemma MutexKeeps(s: State, e: Event)
    requires Inv(s) && Mutex(s) && Valid(s, e)
    ensures Mutex(Apply(s, e))
  {
    EventKeeps(s, e);
    if e.Act? {
      MoveMutex(s, e.t, e.c);
      MutexFollows(s, Apply(s, e), e.t);
    } else {
      forall u | 0 <= u < |s.threads| ensures SaveOk(Apply(s, e), u) {
        assert SaveOk(s, u);
      }
    }
    hide Apply, Inv, ItemFollows, Mutex, MutexMove;
  }
}
