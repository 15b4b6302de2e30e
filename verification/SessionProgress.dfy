// No deadlock, and a bound on the steps of every workload.
module SessionProgress {
  import opened Wrappers
  import opened SessionMachine
  import opened SessionInvariant
  import opened SessionMutex

  ghost predicate Unfinished(s: State, t: nat)
    requires t < |s.threads|
  {
    !s.threads[t].pc.Done?
  }

  ghost predicate CanStep(s: State, t: nat, c: Choice) {
    WellFormed(s) && Valid(s, Act(t, c))
  }

  lemma {:induction false} SomeEnumeration(keys: set<string>) returns (order: seq<string>)
    ensures Enumerates(order, keys)
  {
    if keys == {} {
      order := [];
    } else {
      var k :| k in keys;
      var rest := SomeEnumeration(keys - {k});
      order := [k] + rest;
    }
  }

  lemma {:induction false} EnumerationSize(order: seq<string>, keys: set<string>)
    requires Enumerates(order, keys)
    ensures |order| == |keys|
  {
    if order == [] {
      assert forall k :: k in keys <==> k in order;
      assert keys == {};
    } else {
      var k := order[0];
      var rest := order[1..];
      assert Enumerates(rest, keys - {k}) by {
        forall j ensures j in rest <==> j in keys - {k} {
          if j in rest {
            var n :| 0 <= n < |rest| && rest[n] == j;
            assert order[n + 1] == j && order[0] != order[n + 1];
          }
          if j in keys - {k} { assert j in order; }
        }
      }
      EnumerationSize(rest, keys - {k});
    }
  }

  // The session whose construction or whose lock the thread may be waiting for.
  ghost predicate WaitsFor(pc: Pc, i: nat) {
    (pc.Await? || pc.CloseWait? || pc.CloseLock? || pc.Use?) && pc.i == i
  }

  // What a waiting thread waits for, the other one has: it builds that session,
  // holds that session's lock, or is the save that holds applyMu.
  ghost predicate Blocks(s: State, b: nat, t: nat)
    requires b < |s.threads| && t < |s.threads|
  {
    || (s.threads[t].pc.Lock? && s.saver == Some(b))
    || exists i :: WaitsFor(s.threads[t].pc, i) && (Constructing(s.threads[b].pc, i) || Holds(s.threads[b].pc, i))
  }

  // Whoever builds a session, and whoever holds a session's lock, can move on.
  lemma BlockerOfSession(s: State, t: nat) returns (b: nat)
    requires Inv(s) && t < |s.threads| && Unfinished(s, t) && !Enabled(s, t) && !s.threads[t].pc.Lock?
    ensures b < |s.threads| && Unfinished(s, b) && Enabled(s, b) && Blocks(s, b, t)
  {
    assert ThreadOk(s, t);
    var i := s.threads[t].pc.i;
    assert SlotOk(s, i);
    b := if s.items[i].ready then s.items[i].lock.value else s.items[i].creator;
    assert WaitsFor(s.threads[t].pc, i);
  }

  // Only a thread that waits for applyMu may wait for a blocked one, and then for
  // the save that closes sessions, which waits for one that can move on.
  lemma BlockerMoves(s: State, t: nat) returns (u: nat, b: nat)
    requires Inv(s) && Mutex(s) && t < |s.threads| && Unfinished(s, t)
    ensures u < |s.threads| && b < |s.threads| && Unfinished(s, b) && Enabled(s, b)
    ensures u == t || Blocks(s, u, t)
    ensures b == u || Blocks(s, b, u)
    ensures u != t ==> s.threads[t].pc.Lock?
  {
    assert SaveOk(s, t);
    if Enabled(s, t) {
      u, b := t, t;
    } else if !s.threads[t].pc.Lock? {
      u := t;
      b := BlockerOfSession(s, t);
    } else {
      u := s.saver.value;
      if Enabled(s, u) { b := u; } else { b := BlockerOfSession(s, u); }
    }
  }

  // Deadlock freedom.
  lemma NoDeadlock(s: State, t: nat) returns (b: nat, c: Choice)
    requires Inv(s) && Mutex(s) && t < |s.threads| && Unfinished(s, t)
    ensures CanStep(s, b, c)
  {
    var u;
    u, b := BlockerMoves(s, t);
    var order := SomeEnumeration(s.sessions.Keys);
    c := Choice(true, "session", order);
  }

  // The measure.  -----------------------------------------------------------
  //
  // A session in the map carries the five steps that closing it may cost, so a
  // drain hands its thread exactly the work it takes out of the map.

  const CLOSE_COST: nat := 5

  function RankReturned(cmd: Cmd, force: bool): nat {
    if !cmd.CmdRequest? then 0 else if force then 4 else 16
  }

  function RankCheck(cmd: Cmd, force: bool): nat {
    1 + if RankReturned(cmd, force) < CLOSE_COST then CLOSE_COST else RankReturned(cmd, force)
  }

  function RankReserve(cmd: Cmd, force: bool): nat {
    1 + CLOSE_COST + 2 + RankCheck(cmd, force)
  }

  function RankEnter(cmd: Cmd, force: bool): nat {
    if force then 1 + RankReserve(cmd, true) else RankReserve(cmd, false)
  }

  function RankAfter(cmd: Cmd, k: After): nat {
    match k
    case ThenReserve(_) => RankReserve(cmd, true)
    case ThenRefuse | ThenDestroyed => 0
    case ThenNext(_, _, rest) => CLOSE_COST * |rest| + 1
  }

  // How many more steps the thread can cause.
  function Rank(cmd: Cmd, pc: Pc): nat {
    match pc
    case Begin =>
      (match cmd
       case CmdCreate(_) => 2 + RankEnter(cmd, false)
       case CmdRequest(_, _) => 1 + RankEnter(cmd, false)
       case CmdDestroy(_) => 2
       case CmdDestroyAll => 3
       case CmdSave => 7)
    case AskService(_) => 1 + RankEnter(cmd, false)
    case Enter(_, force) => RankEnter(cmd, force)
    case Again(_) => RankReserve(cmd, true)
    case Await(_, force) => 1 + RankReturned(cmd, force)
    case Build(_, force) => 2 + RankCheck(cmd, force)
    case Signal(_, force) => 1 + RankCheck(cmd, force)
    case Forget(_) => 1
    case Check(_, force) => RankCheck(cmd, force)
    case Judge(_, _) => 1 + RankEnter(cmd, true)
    case Use(_, _) => 4
    case Inspect(_, _) => 3
    case Resolving(_, _) => 2
    case Release(_, _, _) => 1
    case CloseWait(_, k) => CLOSE_COST + RankAfter(cmd, k)
    case CloseLock(_, k) => 4 + RankAfter(cmd, k)
    case CloseBody(_, k) => 3 + RankAfter(cmd, k)
    case ClosingBrowser(_, k) => 2 + RankAfter(cmd, k)
    case CloseRelease(_, k) => 1 + RankAfter(cmd, k)
    case Take(_) => 1
    case Lock => 6
    case SetServer => 5
    case SetFront => 4
    case SetConfig => 3
    case Drain(_) => 2
    case Unlock(_) => 1
    case Done(_) => 0
  }

  function RankSum(threads: seq<Thread>): nat {
    if threads == [] then 0
    else RankSum(threads[..|threads| - 1]) + Rank(threads[|threads| - 1].cmd, threads[|threads| - 1].pc)
  }

  function Potential(s: State): nat {
    RankSum(s.threads) + CLOSE_COST * |s.sessions|
  }

  lemma {:induction false} RankSumUpdate(threads: seq<Thread>, t: nat, th: Thread)
    requires t < |threads|
    ensures RankSum(threads[t := th]) + Rank(threads[t].cmd, threads[t].pc) == RankSum(threads) + Rank(th.cmd, th.pc)
  {
    var n := |threads| - 1;
    if t == n {
      assert threads[t := th][..n] == threads[..n];
    } else {
      assert threads[t := th][..n] == threads[..n][t := th];
      RankSumUpdate(threads[..n], t, th);
    }
  }

  lemma NextCloseRank(cmd: Cmd, ver: nat, shut: seq<nat>, rest: seq<nat>)
    ensures Rank(cmd, NextClose(ver, shut, rest)) == CLOSE_COST * |rest| + 1
  {
  }

  // A thread's rank together with the map's share of the potential.
  function Share(s: State, t: nat): nat
    requires t < |s.threads|
  {
    Rank(s.threads[t].cmd, s.threads[t].pc) + CLOSE_COST * |s.sessions|
  }

  lemma ReserveRank(s: State, t: nat, id: string, force: bool)
    requires t < |s.threads|
    ensures var s' := Reserve(s, t, id, force);
      Share(s', t) < RankReserve(s.threads[t].cmd, force) + CLOSE_COST * |s.sessions|
  {
  }

  lemma TakeOutRank(s: State, t: nat, id: string, k: After)
    requires t < |s.threads| && id in s.sessions && s.sessions[id] < |s.items|
    ensures Share(TakeOut(s, t, id, k), t) == RankAfter(s.threads[t].cmd, k) + CLOSE_COST * |s.sessions|
  {
    RemovalSize(s.sessions, id);
  }

  lemma DrainRank(s: State, t: nat, order: seq<string>)
    requires WellFormed(s) && t < |s.threads| && s.threads[t].pc.Drain? && Enumerates(order, s.sessions.Keys)
    ensures Share(StepDrain(s, t, order), t) == CLOSE_COST * |s.sessions| + 1
  {
    EnumerationSize(order, s.sessions.Keys);
    assert |s.sessions| == |s.sessions.Keys|;
    NextCloseRank(s.threads[t].cmd, s.threads[t].pc.ver, [], Values(order, s.sessions));
  }

  ghost predicate Drops(s: State, t: nat, s': State)
    requires t < |s.threads|
  {
    && |s'.threads| == |s.threads| && s'.threads == s.threads[t := s'.threads[t]]
    && Share(s', t) < Share(s, t)
  }

  lemma EnterDrops(s: State, t: nat, drawn: string)
    requires WellFormed(s) && t < |s.threads| && s.threads[t].pc.Enter?
    ensures Drops(s, t, StepEnter(s, t, drawn))
  {
    var Enter(asked, force) := s.threads[t].pc;
    var id := if asked == "" then drawn else asked;
    if force && id in s.sessions {
      TakeOutRank(s, t, id, ThenReserve(id));
    } else {
      ReserveRank(s, t, id, force);
    }
  }

  lemma TakeDrops(s: State, t: nat)
    requires WellFormed(s) && t < |s.threads| && s.threads[t].pc.Take?
    ensures Drops(s, t, StepTake(s, t))
  {
    var id := s.threads[t].pc.id;
    if id in s.sessions { TakeOutRank(s, t, id, ThenDestroyed); }
  }

  lemma ForgetDrops(s: State, t: nat)
    requires WellFormed(s) && t < |s.threads| && s.threads[t].pc.Forget?
    ensures Drops(s, t, StepForget(s, t))
  {
    var i := s.threads[t].pc.i;
    if InMap(s, i) { RemovalSize(s.sessions, s.items[i].id); }
  }

  lemma MapStepDrops(s: State, t: nat, c: Choice)
    requires CanStep(s, t, c)
    requires var pc := s.threads[t].pc; pc.Again? || pc.Forget? || pc.Take? || pc.Drain?
    ensures Drops(s, t, Apply(s, Act(t, c)))
  {
    var pc := s.threads[t].pc;
    if pc.Again? {
      ReserveRank(s, t, pc.id, true);
    } else if pc.Forget? {
      ForgetDrops(s, t);
    } else if pc.Take? {
      TakeDrops(s, t);
    } else {
      DrainRank(s, t, c.order);
    }
  }

  lemma AwaitDrops(s: State, t: nat)
    requires WellFormed(s) && t < |s.threads| && s.threads[t].pc.Await?
    ensures Drops(s, t, StepAwait(s, t))
  {
  }

  lemma CheckDrops(s: State, t: nat)
    requires WellFormed(s) && t < |s.threads| && s.threads[t].pc.Check?
    ensures Drops(s, t, StepCheck(s, t))
  {
  }

  lemma JudgeDrops(s: State, t: nat)
    requires WellFormed(s) && t < |s.threads| && s.threads[t].pc.Judge?
    ensures Drops(s, t, StepJudge(s, t))
  {
  }

  lemma BuildDrops(s: State, t: nat, ok: bool)
    requires WellFormed(s) && t < |s.threads|
    ensures s.threads[t].pc.Begin? ==> Drops(s, t, StepBegin(s, t))
    ensures s.threads[t].pc.Build? ==> Drops(s, t, StepBuild(s, t, ok))
    ensures s.threads[t].pc.Signal? ==> Drops(s, t, StepSignal(s, t))
    ensures s.threads[t].pc.AskService? ==> Drops(s, t, StepAskService(s, t))
  {
  }

  lemma MovedDrops(s: State, s1: State, t: nat, pc: Pc)
    requires t < |s.threads| && s1.threads == s.threads && s1.sessions == s.sessions
    requires Rank(s.threads[t].cmd, pc) < Rank(s.threads[t].cmd, s.threads[t].pc)
    ensures Drops(s, t, Moved(s1, t, pc))
  {
  }

  lemma SaveDrops(s: State, t: nat, c: Choice)
    requires CanStep(s, t, c) && AtSave(s.threads[t].pc)
    ensures Drops(s, t, Apply(s, Act(t, c)))
  {
    hide Drops, Moved;
    match s.threads[t].pc {
      case Lock => MovedDrops(s, s.(saver := Some(t)), t, SetServer);
      case SetServer =>
        if c.ok {
          MovedDrops(s, s.(server := s.server + 1), t, SetFront);
        } else {
          MovedDrops(s, s, t, Unlock(Refused));
        }
      case SetFront => MovedDrops(s, s.(front := s.front + 1), t, SetConfig);
      case SetConfig => MovedDrops(s, s.(cfg := s.cfg + 1), t, Drain(s.cfg + 1));
      case Unlock(r) => MovedDrops(s, s.(saver := if s.threads[t].cmd.CmdSave? then None else s.saver), t, Done(r));
    }
  }

  lemma CreateDrops(s: State, t: nat, c: Choice)
    requires CanStep(s, t, c)
    requires var pc := s.threads[t].pc;
      || pc.Begin? || pc.AskService? || pc.Await? || pc.Build? || pc.Signal? || pc.Check? || pc.Judge?
      || AtSave(pc)
    ensures Drops(s, t, Apply(s, Act(t, c)))
  {
    var pc := s.threads[t].pc;
    if pc.Await? {
      AwaitDrops(s, t);
    } else if pc.Check? {
      CheckDrops(s, t);
    } else if pc.Judge? {
      JudgeDrops(s, t);
    } else if AtSave(pc) {
      SaveDrops(s, t, c);
    } else {
      BuildDrops(s, t, c.ok);
    }
  }

  lemma UseDrops(s: State, t: nat, c: Choice)
    requires CanStep(s, t, c)
    requires var pc := s.threads[t].pc; pc.Use? || pc.Inspect? || pc.Resolving? || pc.Release?
    ensures Drops(s, t, Apply(s, Act(t, c)))
  {
  }

  lemma CloseDrops(s: State, t: nat, c: Choice)
    requires CanStep(s, t, c)
    requires var pc := s.threads[t].pc;
      pc.CloseWait? || pc.CloseLock? || pc.CloseBody? || pc.ClosingBrowser? || pc.CloseRelease?
    ensures Drops(s, t, Apply(s, Act(t, c)))
  {
    if s.threads[t].pc.CloseBody? {
      CloseBodyDrops(s, t);
    } else if s.threads[t].pc.CloseRelease? {
      CloseReleaseDrops(s, t);
    } else {
      CloseMoveDrops(s, t, c);
    }
    hide Apply, Drops, StepCloseBody, StepCloseRelease;
  }

  lemma CloseBodyDrops(s: State, t: nat)
    requires WellFormed(s) && t < |s.threads| && s.threads[t].pc.CloseBody?
    ensures Drops(s, t, StepCloseBody(s, t))
  {
  }

  lemma CloseReleaseDrops(s: State, t: nat)
    requires WellFormed(s) && t < |s.threads| && s.threads[t].pc.CloseRelease?
    ensures Drops(s, t, StepCloseRelease(s, t))
  {
    var k := s.threads[t].pc.k;
    if k.ThenNext? { NextCloseRank(s.threads[t].cmd, k.ver, k.shut + [s.threads[t].pc.i], k.rest); }
  }

  lemma CloseMoveDrops(s: State, t: nat, c: Choice)
    requires CanStep(s, t, c)
    requires var pc := s.threads[t].pc; pc.CloseWait? || pc.CloseLock? || pc.ClosingBrowser?
    ensures Drops(s, t, Apply(s, Act(t, c)))
  {
    hide StepBegin, StepEnter, Reserve, StepAwait, StepBuild, StepSignal, StepCheck;
    hide StepJudge, StepUse, StepInspect, StepRelease;
    hide StepForget, StepCloseBody, StepCloseRelease, StepTake, StepDrain;
    hide StepAskService, StepLock, StepSetServer, StepSetFront, StepSetConfig, StepUnlock;
  }

  // Every step lowers its thread's rank by more than it adds to the map.
  lemma ShareDrops(s: State, t: nat, c: Choice)
    requires CanStep(s, t, c)
    ensures Drops(s, t, Apply(s, Act(t, c)))
  {
    var pc := s.threads[t].pc;
    if pc.Enter? {
      EnterDrops(s, t, c.drawn);
    } else if pc.Again? || pc.Forget? || pc.Take? || pc.Drain? {
      MapStepDrops(s, t, c);
    } else if pc.Use? || pc.Inspect? || pc.Resolving? || pc.Release? {
      UseDrops(s, t, c);
    } else if pc.CloseWait? || pc.CloseLock? || pc.CloseBody? || pc.ClosingBrowser? || pc.CloseRelease? {
      CloseDrops(s, t, c);
    } else {
      CreateDrops(s, t, c);
    }
  }

  lemma RemovalSize(m: map<string, nat>, id: string)
    requires id in m
    ensures |Without(m, id)| == |m| - 1
  {
    assert Without(m, id).Keys == m.Keys - {id};
    assert |Without(m, id)| == |Without(m, id).Keys| && |m| == |m.Keys|;
  }

  // Every step of every thread lowers the potential.
  lemma PotentialDrops(s: State, t: nat, c: Choice)
    requires CanStep(s, t, c)
    ensures Potential(Apply(s, Act(t, c))) < Potential(s)
  {
    var s' := Apply(s, Act(t, c));
    ShareDrops(s, t, c);
    RankSumUpdate(s.threads, t, s'.threads[t]);
  }

  // A workload of n requests starts with at most 26 n steps to go.
  lemma {:induction false} InitialPotential(threads: seq<Thread>)
    requires forall t :: 0 <= t < |threads| ==> threads[t].pc.Begin?
    ensures RankSum(threads) <= 26 * |threads|
  {
    if threads != [] { InitialPotential(threads[..|threads| - 1]); }
  }
}
