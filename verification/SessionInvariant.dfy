// What every reachable state of the session machine satisfies, and the proof
// that each step keeps it.
module SessionInvariant {
  import opened Wrappers
  import opened SessionMachine

  // Roles a program counter gives its thread with respect to one session. ---

  ghost predicate Building(pc: Pc, i: nat) { pc.Build? && pc.i == i }

  ghost predicate Constructing(pc: Pc, i: nat) { (pc.Build? || pc.Signal?) && pc.i == i }

  // factory.New has returned, and a failure is not yet cleaned up.
  ghost predicate Settling(pc: Pc, i: nat) { (pc.Signal? || pc.Forget?) && pc.i == i }

  ghost predicate Holds(pc: Pc, i: nat) {
    && (pc.Inspect? || pc.Resolving? || pc.Release? || pc.CloseBody? || pc.ClosingBrowser? || pc.CloseRelease?)
    && pc.i == i
  }

  ghost predicate InRest(k: After, i: nat) { k.ThenNext? && i in k.rest }

  // The thread's pending-close set: it still has to close session i.
  ghost predicate Owes(pc: Pc, i: nat) {
    || ((pc.CloseWait? || pc.CloseLock? || pc.CloseBody?) && (pc.i == i || InRest(pc.k, i)))
    || ((pc.ClosingBrowser? || pc.CloseRelease?) && InRest(pc.k, i))
  }

  ghost predicate Finished(x: Item) { x.closed && (x.life.NoBrowser? || x.life.Closed?) }

  ghost predicate Usable(x: Item) { x.ready && !x.life.Pending? && !x.life.NoBrowser? }

  // One session.  ----------------------------------------------------------

  ghost predicate ItemOk(x: Item, i: nat, threads: seq<Thread>, mapped: bool) {
    && x.creator < |threads|
    && (x.life.Pending? <==> Building(threads[x.creator].pc, i))
    && (!x.ready <==> Constructing(threads[x.creator].pc, i))
    && x.builds == (if x.life.Pending? then 0 else 1)
    && x.closes == (if x.life.Closing? || x.life.Closed? then 1 else 0)
    && (x.closed ==> x.ready && !mapped && !x.life.Open?)
    && (x.life.Closing? || x.life.Closed? ==> x.closed)
    && (x.lock.Some? ==> x.ready && x.lock.value < |threads| && Holds(threads[x.lock.value].pc, i))
    && (x.life.Closing? ==> x.lock.Some? && threads[x.lock.value].pc.ClosingBrowser?)
    && (x.taker.Some? ==>
          && !mapped && x.taker.value < |threads|
          && (x.closed || Owes(threads[x.taker.value].pc, i)))
    && (x.taker.None? && !mapped ==> x.life.NoBrowser? && x.ready)
    && (mapped && x.life.NoBrowser? ==> Settling(threads[x.creator].pc, i))
  }

  // One thread.  -----------------------------------------------------------

  // The session is the one the command asked for.
  ghost predicate Asked(cmd: Cmd, id: string) {
    && (cmd.CmdRequest? ==> id == cmd.id)
    && (cmd.CmdCreate? && cmd.id != "" ==> id == cmd.id)
  }

  ghost predicate GrantOk(s: State, t: nat, i: nat, grant: Grant)
    requires t < |s.threads|
  {
    var th := s.threads[t];
    && i < |s.items| && th.cmd.CmdRequest?
    && Asked(th.cmd, s.items[i].id) && Usable(s.items[i])
    && match grant
       case NoLimit => th.cmd.ttl <= 0
       case Fresh => s.items[i].creator == t && th.began <= i
       case Young(at) => s.items[i].born <= at <= s.now && at - s.items[i].born <= th.cmd.ttl
       case Recreated => th.called <= i
  }

  // Every session in the map was reserved under config `ver` or a newer one.
  ghost predicate AllFrom(s: State, ver: nat) {
    && ver <= s.cfg
    && forall id :: id in s.sessions ==> s.sessions[id] < |s.items| && ver <= s.items[s.sessions[id]].ver
  }

  // Whoever is in the map under this id was reserved at or after `mark`.
  ghost predicate Since(s: State, id: string, mark: nat) {
    id in s.sessions ==> mark <= s.sessions[id]
  }

  ghost predicate ClosingOk(s: State, t: nat, i: nat, k: After)
    requires t < |s.threads|
  {
    && i < |s.items|
    && (if k.ThenRefuse? then s.items[i].creator == t && !InMap(s, i) && Usable(s.items[i])
        else s.items[i].taker == Some(t))
    && (k.ThenReserve? ==> Since(s, k.id, s.threads[t].called) && Asked(s.threads[t].cmd, k.id) && k.id != "")
    && (k.ThenNext? ==>
          && AllFrom(s, k.ver)
          && (forall r :: r in k.rest ==> r < |s.items| && s.items[r].taker == Some(t))
          && (forall r :: r in k.shut ==> r < |s.items| && Finished(s.items[r])))
  }

  ghost predicate OutcomeOk(s: State, t: nat, r: Outcome)
    requires t < |s.threads|
  {
    match r
    case Refused | Destroyed(_) => true
    case Got(i, isFresh) =>
      && i < |s.items| && Usable(s.items[i]) && Asked(s.threads[t].cmd, s.items[i].id)
      && (isFresh ==> s.items[i].creator == t && s.threads[t].began <= i)
    case Served(i, grant) => GrantOk(s, t, i, grant)
    case Drained(ver, items) =>
      && AllFrom(s, ver)
      && forall r :: r in items ==> r < |s.items| && Finished(s.items[r])
  }

  ghost predicate CreatingOk(s: State, t: nat, i: nat)
    requires t < |s.threads|
  {
    var th := s.threads[t];
    && i < |s.items| && s.items[i].creator == t && th.called <= i && Asked(th.cmd, s.items[i].id)
  }

  ghost predicate ThreadOk(s: State, t: nat)
    requires t < |s.threads|
  {
    var th := s.threads[t];
    && th.began <= |s.items| && th.called <= |s.items|
    && (!th.pc.Begin? ==> th.began <= th.called)
    && (th.cmd.CmdRequest? ==> th.cmd.id != "")
    && match th.pc
       case Begin | Take(_) | Lock | SetServer | SetFront | SetConfig => true
       case AskService(id) => th.cmd.CmdCreate? && id == th.cmd.id
       case Enter(id, force) =>
         if force then th.cmd.CmdRequest? && id == th.cmd.id
         else (th.cmd.CmdRequest? || th.cmd.CmdCreate?) && id == th.cmd.id
       case Again(id) => Since(s, id, th.called) && Asked(th.cmd, id) && id != ""
       case Await(i, force) =>
         i < |s.items| && Asked(th.cmd, s.items[i].id) && (force ==> th.called <= i)
       case Build(i, _) => CreatingOk(s, t, i) && s.items[i].life.Pending?
       case Signal(i, _) =>
         CreatingOk(s, t, i) && !s.items[i].ready && (s.items[i].life.Open? || s.items[i].life.NoBrowser?)
       case Forget(i) => CreatingOk(s, t, i) && s.items[i].life.NoBrowser? && s.items[i].ready
       case Check(i, _) => CreatingOk(s, t, i) && Usable(s.items[i])
       case Judge(i, isFresh) =>
         && i < |s.items| && Usable(s.items[i]) && th.cmd.CmdRequest? && Asked(th.cmd, s.items[i].id)
         && (isFresh ==> s.items[i].creator == t && th.began <= i)
       case Use(i, grant) => GrantOk(s, t, i, grant)
       case Inspect(i, grant) => GrantOk(s, t, i, grant) && s.items[i].lock == Some(t)
       case Resolving(i, grant) => GrantOk(s, t, i, grant) && s.items[i].lock == Some(t) && s.items[i].life.Open?
       case Release(i, grant, _) => GrantOk(s, t, i, grant) && s.items[i].lock == Some(t)
       case CloseWait(i, k) => ClosingOk(s, t, i, k)
       case CloseLock(i, k) => ClosingOk(s, t, i, k) && s.items[i].ready
       case CloseBody(i, k) => ClosingOk(s, t, i, k) && s.items[i].ready && s.items[i].lock == Some(t)
       case ClosingBrowser(i, k) =>
         ClosingOk(s, t, i, k) && s.items[i].lock == Some(t) && s.items[i].closed && s.items[i].life.Closing?
       case CloseRelease(i, k) =>
         ClosingOk(s, t, i, k) && s.items[i].lock == Some(t) && Finished(s.items[i])
       case Drain(ver) => ver <= s.cfg
       case Unlock(r) => OutcomeOk(s, t, r) && (r.Drained? || r.Refused?)
       case Done(r) => OutcomeOk(s, t, r)
  }

  // The store.  ------------------------------------------------------------

  // An entry is registered under its own id, and is the newest session of it.
  ghost predicate MapOk(s: State) {
    forall id :: id in s.sessions ==>
      && s.sessions[id] < |s.items|
      && s.items[s.sessions[id]].id == id
      && (forall j :: 0 <= j < |s.items| && s.items[j].id == id ==> j <= s.sessions[id])
  }

  ghost predicate SlotOk(s: State, i: nat)
    requires i < |s.items|
  {
    && ItemOk(s.items[i], i, s.threads, InMap(s, i))
    && s.items[i].ver <= s.cfg && s.items[i].born <= s.now
  }

  ghost predicate ItemsOk(s: State) {
    forall i {:trigger SlotOk(s, i)} :: 0 <= i < |s.items| ==> SlotOk(s, i)
  }

  ghost predicate ThreadsOk(s: State) {
    forall t {:trigger ThreadOk(s, t)} :: 0 <= t < |s.threads| ==> ThreadOk(s, t)
  }

  ghost predicate Inv(s: State) {
    WellFormed(s) && MapOk(s) && ItemsOk(s) && ThreadsOk(s)
  }

  lemma InitInv(s: State)
    requires Init(s)
    ensures Inv(s)
  {
  }

  // What a step of thread t may do to a session, and to the rest.  -----------

  ghost predicate ItemFollows(x: Item, y: Item, t: nat) {
    && y.id == x.id && y.ver == x.ver && y.proxy == x.proxy && y.born == x.born && y.creator == x.creator
    && (x.ready ==> y.ready) && (x.closed ==> y.closed)
    && (x.creator != t ==> (x.life.Pending? ==> y.life.Pending?) && (!x.ready ==> !y.ready && y.life == x.life))
    && (!x.life.Pending? ==> !y.life.Pending? && (x.life.NoBrowser? <==> y.life.NoBrowser?))
    && (x.life.Closed? ==> y.life.Closed?)
    && (x.taker.Some? ==> y.taker == x.taker)
    && (x.lock.Some? && x.lock.value != t ==> y.lock == x.lock && y.life == x.life && y.closed == x.closed)
  }

  ghost predicate Follows(s: State, s': State, t: nat) {
    && |s'.threads| == |s.threads| && |s.items| <= |s'.items|
    && (forall u :: 0 <= u < |s.threads| && u != t ==> s'.threads[u] == s.threads[u])
    && (forall i :: 0 <= i < |s.items| ==> ItemFollows(s.items[i], s'.items[i], t))
    && s.server <= s'.server && s.front <= s'.front && s.cfg <= s'.cfg && s.now <= s'.now
    && s'.bare == s.bare
    && (forall id :: id in s'.sessions ==>
          || (id in s.sessions && s'.sessions[id] == s.sessions[id])
          || (|s.items| <= s'.sessions[id] < |s'.items| && s.cfg <= s'.items[s'.sessions[id]].ver))
  }

  lemma GrantKeeps(s: State, s': State, t: nat, u: nat, i: nat, grant: Grant)
    requires Follows(s, s', t) && u < |s.threads| && u != t
    requires GrantOk(s, u, i, grant)
    ensures GrantOk(s', u, i, grant)
  {
    assert ItemFollows(s.items[i], s'.items[i], t);
  }

  lemma AllFromKeeps(s: State, s': State, t: nat, ver: nat)
    requires Follows(s, s', t) && AllFrom(s, ver)
    ensures AllFrom(s', ver)
  {
    forall id | id in s'.sessions
      ensures s'.sessions[id] < |s'.items| && ver <= s'.items[s'.sessions[id]].ver
    {
      if id in s.sessions && s'.sessions[id] == s.sessions[id] {
        assert ItemFollows(s.items[s.sessions[id]], s'.items[s.sessions[id]], t);
      }
    }
  }

  lemma FinishedKeeps(s: State, s': State, t: nat, items: seq<nat>)
    requires Follows(s, s', t)
    requires forall r :: r in items ==> r < |s.items| && Finished(s.items[r])
    ensures forall r :: r in items ==> r < |s'.items| && Finished(s'.items[r])
  {
    forall r | r in items
      ensures r < |s'.items| && Finished(s'.items[r])
    {
      assert ItemFollows(s.items[r], s'.items[r], t);
    }
  }

  lemma ClosingKeeps(s: State, s': State, t: nat, u: nat, i: nat, k: After)
    requires Follows(s, s', t) && u < |s.threads| && u != t
    requires ClosingOk(s, u, i, k) && s.threads[u].called <= |s.items|
    ensures ClosingOk(s', u, i, k)
  {
    assert ItemFollows(s.items[i], s'.items[i], t);
    if k.ThenNext? {
      AllFromKeeps(s, s', t, k.ver);
      FinishedKeeps(s, s', t, k.shut);
      forall r | r in k.rest
        ensures r < |s'.items| && s'.items[r].taker == Some(u)
      {
        assert ItemFollows(s.items[r], s'.items[r], t);
      }
    }
  }

  lemma CreatorKeeps(s: State, s': State, t: nat, u: nat)
    requires Follows(s, s', t) && u < |s.threads| && u != t && ThreadOk(s, u)
    requires var pc := s.threads[u].pc; pc.Await? || pc.Build? || pc.Signal? || pc.Forget? || pc.Check? || pc.Judge?
    ensures ThreadOk(s', u)
  {
    var i := s.threads[u].pc.i;
    assert s'.threads[u] == s.threads[u];
    assert ItemFollows(s.items[i], s'.items[i], t);
  }

  lemma UserKeeps(s: State, s': State, t: nat, u: nat)
    requires Follows(s, s', t) && u < |s.threads| && u != t && ThreadOk(s, u)
    requires var pc := s.threads[u].pc; pc.Use? || pc.Inspect? || pc.Resolving? || pc.Release?
    ensures ThreadOk(s', u)
  {
    var pc := s.threads[u].pc;
    assert s'.threads[u] == s.threads[u];
    assert ItemFollows(s.items[pc.i], s'.items[pc.i], t);
    GrantKeeps(s, s', t, u, pc.i, pc.grant);
  }

  lemma CloserKeeps(s: State, s': State, t: nat, u: nat)
    requires Follows(s, s', t) && u < |s.threads| && u != t && ThreadOk(s, u)
    requires var pc := s.threads[u].pc;
      pc.CloseWait? || pc.CloseLock? || pc.CloseBody? || pc.ClosingBrowser? || pc.CloseRelease?
    ensures ThreadOk(s', u)
  {
    var pc := s.threads[u].pc;
    assert s'.threads[u] == s.threads[u];
    assert ItemFollows(s.items[pc.i], s'.items[pc.i], t);
    ClosingKeeps(s, s', t, u, pc.i, pc.k);
  }

  lemma DoneKeeps(s: State, s': State, t: nat, u: nat)
    requires Follows(s, s', t) && u < |s.threads| && u != t && ThreadOk(s, u)
    requires s.threads[u].pc.Done? || s.threads[u].pc.Unlock?
    ensures ThreadOk(s', u)
  {
    assert s'.threads[u] == s.threads[u];
    match s.threads[u].pc.r
    case Refused | Destroyed(_) =>
    case Got(i, _) => assert ItemFollows(s.items[i], s'.items[i], t);
    case Served(i, grant) => GrantKeeps(s, s', t, u, i, grant);
    case Drained(ver, items) =>
      AllFromKeeps(s, s', t, ver);
      FinishedKeeps(s, s', t, items);
  }

  // A thread keeps its part of the invariant while another one steps.
  lemma OtherThreadKeeps(s: State, s': State, t: nat, u: nat)
    requires Follows(s, s', t) && u < |s.threads| && u != t && ThreadOk(s, u)
    ensures ThreadOk(s', u)
  {
    var pc := s.threads[u].pc;
    if pc.Await? || pc.Build? || pc.Signal? || pc.Forget? || pc.Check? || pc.Judge? {
      CreatorKeeps(s, s', t, u);
    } else if pc.Use? || pc.Inspect? || pc.Resolving? || pc.Release? {
      UserKeeps(s, s', t, u);
    } else if pc.CloseWait? || pc.CloseLock? || pc.CloseBody? || pc.ClosingBrowser? || pc.CloseRelease? {
      CloserKeeps(s, s', t, u);
    } else if pc.Done? || pc.Unlock? {
      DoneKeeps(s, s', t, u);
    } else {
      assert s'.threads[u] == s.threads[u];
    }
  }

  // Moving from pc to pc' changes no role the thread plays for session i.
  ghost predicate SameRoles(pc: Pc, pc': Pc, i: nat) {
    && (Building(pc, i) <==> Building(pc', i))
    && (Constructing(pc, i) <==> Constructing(pc', i))
    && (Holds(pc, i) ==> Holds(pc', i))
    && (pc.ClosingBrowser? && pc.i == i ==> pc' == pc)
    && (Owes(pc, i) ==> Owes(pc', i))
    && (Settling(pc, i) ==> Settling(pc', i))
  }

  lemma UntouchedItemKeeps(x: Item, i: nat, threads: seq<Thread>, t: nat, th: Thread, mapped: bool)
    requires t < |threads| && ItemOk(x, i, threads, mapped) && SameRoles(threads[t].pc, th.pc, i)
    ensures ItemOk(x, i, threads[t := th], mapped)
  {
  }

  // s' satisfies the invariant and is what a step of thread t may make of s.
  ghost predicate Kept(s: State, s': State, t: nat) {
    Inv(s') && Follows(s, s', t)
  }

  // A step that touches no session but i, and maybe reserves one, keeps the
  // invariant when it does so for i, for the new one and for its own thread.
  lemma StepKeeps(s: State, s': State, t: nat, i: nat)
    requires Inv(s) && t < |s.threads| && Follows(s, s', t) && WellFormed(s') && MapOk(s')
    requires s'.threads == s.threads[t := s'.threads[t]]
    requires forall j :: 0 <= j < |s.items| && j != i ==>
      s'.items[j] == s.items[j] && InMap(s', j) == InMap(s, j) && SameRoles(s.threads[t].pc, s'.threads[t].pc, j)
    requires i < |s'.items| ==> SlotOk(s', i)
    requires |s'.items| == |s.items| || (|s'.items| == |s.items| + 1 && SlotOk(s', |s.items|))
    requires ThreadOk(s', t)
    ensures Kept(s, s', t)
  {
    forall j | 0 <= j < |s'.items|
      ensures SlotOk(s', j)
    {
      if j < |s.items| && j != i {
        assert SlotOk(s, j);
        UntouchedItemKeeps(s.items[j], j, s.threads, t, s'.threads[t], InMap(s, j));
      }
    }
    forall u | 0 <= u < |s'.threads|
      ensures ThreadOk(s', u)
    {
      if u != t {
        assert ThreadOk(s, u);
        OtherThreadKeeps(s, s', t, u);
      }
    }
  }

  // A step that replaces session i and moves its thread, nothing else.
  lemma TouchKeeps(s: State, t: nat, i: nat, y: Item, pc: Pc)
    requires Inv(s) && t < |s.threads| && i < |s.items|
    requires ItemFollows(s.items[i], y, t)
    requires forall j :: j != i ==> SameRoles(s.threads[t].pc, pc, j)
    requires ItemOk(y, i, s.threads[t := s.threads[t].(pc := pc)], InMap(s, i))
    requires PcInRange(pc, |s.items|)
    requires ThreadOk(Moved(WithItem(s, i, y), t, pc), t)
    ensures Kept(s, Moved(WithItem(s, i, y), t, pc), t)
  {
    var s' := Moved(WithItem(s, i, y), t, pc);
    assert SlotOk(s, i);
    assert s'.items == s.items[i := y];
    assert Follows(s, s', t);
    StepKeeps(s, s', t, i);
  }

  // A step that moves its thread between counters with the same roles.
  lemma MoveKeeps(s: State, t: nat, th: Thread)
    requires Inv(s) && t < |s.threads|
    requires forall j :: SameRoles(s.threads[t].pc, th.pc, j)
    requires PcInRange(th.pc, |s.items|)
    requires ThreadOk(WithThread(s, t, th), t)
    ensures Kept(s, WithThread(s, t, th), t)
  {
    var s' := WithThread(s, t, th);
    assert Follows(s, s', t);
    StepKeeps(s, s', t, |s.items|);
  }

  // What a returning create leaves its caller with.
  lemma ReturnedOk(s: State, t: nat, i: nat, isFresh: bool, force: bool)
    requires t < |s.threads| && i < |s.items| && Usable(s.items[i])
    requires var th := s.threads[t];
      && th.began <= th.called <= |s.items| && (th.cmd.CmdRequest? ==> th.cmd.id != "")
      && Asked(th.cmd, s.items[i].id)
      && (force ==> th.called <= i)
      && (isFresh ==> s.items[i].creator == t && th.called <= i)
    ensures var pc := Returned(s.threads[t].cmd, i, isFresh, force);
      && ThreadOk(Moved(s, t, pc), t) && PcInRange(pc, |s.items|)
      && (pc.Done? || pc.Use? || pc.Judge?)
  {
  }

  lemma AwaitKeeps(s: State, t: nat)
    requires Inv(s) && t < |s.threads| && s.threads[t].pc.Await? && Enabled(s, t)
    ensures Kept(s, StepAwait(s, t), t)
  {
    var Await(i, force) := s.threads[t].pc;
    assert ThreadOk(s, t) && SlotOk(s, i) && WellFormed(s);
    hide Inv, Kept, Follows, WellFormed, MapOk, ItemsOk, ThreadsOk;
    if !s.items[i].life.NoBrowser? {
      ReturnedOk(s, t, i, false, force);
    }
    MoveKeeps(s, t, StepAwait(s, t).threads[t]);
  }

  lemma BuildKeeps(s: State, t: nat, ok: bool)
    requires Inv(s) && t < |s.threads| && s.threads[t].pc.Build?
    ensures Kept(s, StepBuild(s, t, ok), t)
  {
    var i := s.threads[t].pc.i;
    assert ThreadOk(s, t) && SlotOk(s, i) && WellFormed(s);
    hide Inv, Kept, Follows, WellFormed, MapOk, ItemsOk, ThreadsOk;
    var s' := StepBuild(s, t, ok);
    TouchKeeps(s, t, i, s'.items[i], s'.threads[t].pc);
  }

  lemma SignalKeeps(s: State, t: nat)
    requires Inv(s) && t < |s.threads| && s.threads[t].pc.Signal?
    ensures Kept(s, StepSignal(s, t), t)
  {
    var i := s.threads[t].pc.i;
    assert ThreadOk(s, t) && SlotOk(s, i) && WellFormed(s);
    hide Inv, Kept, Follows, WellFormed, MapOk, ItemsOk, ThreadsOk;
    var s' := StepSignal(s, t);
    TouchKeeps(s, t, i, s'.items[i], s'.threads[t].pc);
  }

  lemma BeginKeeps(s: State, t: nat)
    requires Inv(s) && t < |s.threads| && s.threads[t].pc.Begin?
    ensures Kept(s, StepBegin(s, t), t)
  {
    assert ThreadOk(s, t);
    MoveKeeps(s, t, StepBegin(s, t).threads[t]);
  }

  lemma CheckKeeps(s: State, t: nat)
    requires Inv(s) && t < |s.threads| && s.threads[t].pc.Check?
    ensures Kept(s, StepCheck(s, t), t)
  {
    var Check(i, force) := s.threads[t].pc;
    assert ThreadOk(s, t) && SlotOk(s, i) && WellFormed(s);
    hide Inv, Kept, Follows, WellFormed, MapOk, ItemsOk, ThreadsOk;
    if s.items[i].id in s.sessions {
      ReturnedOk(s, t, i, true, force);
    }
    MoveKeeps(s, t, StepCheck(s, t).threads[t]);
  }

  lemma JudgeKeeps(s: State, t: nat)
    requires Inv(s) && t < |s.threads| && s.threads[t].pc.Judge?
    ensures Kept(s, StepJudge(s, t), t)
  {
    var i := s.threads[t].pc.i;
    assert ThreadOk(s, t) && SlotOk(s, i) && WellFormed(s);
    hide Inv, Kept, Follows, WellFormed, MapOk, ItemsOk, ThreadsOk;
    MoveKeeps(s, t, StepJudge(s, t).threads[t]);
  }

  lemma CloseWaitKeeps(s: State, t: nat)
    requires Inv(s) && t < |s.threads| && s.threads[t].pc.CloseWait? && Enabled(s, t)
    ensures Kept(s, Moved(s, t, CloseLock(s.threads[t].pc.i, s.threads[t].pc.k)), t)
  {
    assert ThreadOk(s, t);
    var CloseWait(i, k) := s.threads[t].pc;
    MoveKeeps(s, t, s.threads[t].(pc := CloseLock(i, k)));
  }

  lemma UseKeeps(s: State, t: nat)
    requires Inv(s) && t < |s.threads| && s.threads[t].pc.Use? && Enabled(s, t)
    ensures Kept(s, StepUse(s, t), t)
  {
    var i := s.threads[t].pc.i;
    assert ThreadOk(s, t) && SlotOk(s, i) && WellFormed(s);
    hide Inv, Kept, Follows, WellFormed, MapOk, ItemsOk, ThreadsOk;
    var s' := StepUse(s, t);
    TouchKeeps(s, t, i, s'.items[i], s'.threads[t].pc);
  }

  lemma InspectKeeps(s: State, t: nat)
    requires Inv(s) && t < |s.threads| && s.threads[t].pc.Inspect?
    ensures Kept(s, StepInspect(s, t), t)
  {
    var i := s.threads[t].pc.i;
    assert ThreadOk(s, t) && SlotOk(s, i) && WellFormed(s);
    hide Inv, Kept, Follows, WellFormed, MapOk, ItemsOk, ThreadsOk;
    MoveKeeps(s, t, StepInspect(s, t).threads[t]);
  }

  lemma ResolvedKeeps(s: State, t: nat)
    requires Inv(s) && t < |s.threads| && s.threads[t].pc.Resolving?
    ensures Kept(s, Moved(s, t, Release(s.threads[t].pc.i, s.threads[t].pc.grant, true)), t)
  {
    assert ThreadOk(s, t);
    var Resolving(i, grant) := s.threads[t].pc;
    MoveKeeps(s, t, s.threads[t].(pc := Release(i, grant, true)));
  }

  lemma ReleaseKeeps(s: State, t: nat)
    requires Inv(s) && t < |s.threads| && s.threads[t].pc.Release?
    ensures Kept(s, StepRelease(s, t), t)
  {
    var i := s.threads[t].pc.i;
    assert ThreadOk(s, t) && SlotOk(s, i) && WellFormed(s);
    hide Inv, Kept, Follows, WellFormed, MapOk, ItemsOk, ThreadsOk;
    var s' := StepRelease(s, t);
    assert GrantOk(s', t, i, s.threads[t].pc.grant);
    hide ClosingOk, GrantOk;
    TouchKeeps(s, t, i, s'.items[i], s'.threads[t].pc);
  }

  lemma CloseLockKeeps(s: State, t: nat)
    requires Inv(s) && t < |s.threads| && s.threads[t].pc.CloseLock? && Enabled(s, t)
    ensures Kept(s, StepCloseLock(s, t), t)
  {
    var i := s.threads[t].pc.i;
    assert ThreadOk(s, t) && SlotOk(s, i) && WellFormed(s);
    hide Inv, Kept, Follows, WellFormed, MapOk, ItemsOk, ThreadsOk;
    var s' := StepCloseLock(s, t);
    ClosingStays(s, s', t, i, s.threads[t].pc.k);
    hide ClosingOk, OutcomeOk, GrantOk;
    TouchKeeps(s, t, i, s'.items[i], s'.threads[t].pc);
  }

  lemma CloseBodyKeeps(s: State, t: nat)
    requires Inv(s) && t < |s.threads| && s.threads[t].pc.CloseBody?
    ensures Kept(s, StepCloseBody(s, t), t)
  {
    var CloseBody(i, k) := s.threads[t].pc;
    assert ThreadOk(s, t) && SlotOk(s, i);
    var x := s.items[i];
    if x.closed {
      assert s == WithItem(s, i, x);
      TouchKeeps(s, t, i, x, CloseRelease(i, k));
    } else if x.life.NoBrowser? {
      CloseDeadKeeps(s, t);
    } else {
      CloseOpenKeeps(s, t);
    }
  }

  lemma CloseDeadKeeps(s: State, t: nat)
    requires Inv(s) && t < |s.threads| && s.threads[t].pc.CloseBody?
    requires var x := s.items[s.threads[t].pc.i]; !x.closed && x.life.NoBrowser?
    ensures Kept(s, StepCloseBody(s, t), t)
  {
    var CloseBody(i, k) := s.threads[t].pc;
    assert ThreadOk(s, t) && SlotOk(s, i) && WellFormed(s);
    hide Inv, Kept, Follows, WellFormed, MapOk, ItemsOk, ThreadsOk;
    var y := s.items[i].(closed := true);
    var s' := Moved(WithItem(s, i, y), t, CloseRelease(i, k));
    ClosingStays(s, s', t, i, k);
    TouchKeeps(s, t, i, y, CloseRelease(i, k));
  }

  lemma CloseOpenKeeps(s: State, t: nat)
    requires Inv(s) && t < |s.threads| && s.threads[t].pc.CloseBody?
    requires var x := s.items[s.threads[t].pc.i]; !x.closed && !x.life.NoBrowser?
    ensures Kept(s, StepCloseBody(s, t), t)
  {
    var CloseBody(i, k) := s.threads[t].pc;
    assert ThreadOk(s, t) && SlotOk(s, i) && WellFormed(s);
    hide Inv, Kept, Follows, WellFormed, MapOk, ItemsOk, ThreadsOk;
    var y := s.items[i].(closed := true, life := Closing, closes := s.items[i].closes + 1);
    var s' := Moved(WithItem(s, i, y), t, ClosingBrowser(i, k));
    ClosingStays(s, s', t, i, k);
    TouchKeeps(s, t, i, y, ClosingBrowser(i, k));
  }

  // The closing thread's own obligations survive a change to session i.
  lemma ClosingStays(s: State, s': State, t: nat, i: nat, k: After)
    requires t < |s.threads| && ClosingOk(s, t, i, k)
    requires |s'.threads| == |s.threads|
    requires s'.threads[t].cmd == s.threads[t].cmd && s'.threads[t].called == s.threads[t].called
    requires s'.sessions == s.sessions && s'.cfg == s.cfg
    requires |s'.items| == |s.items| && s'.items == s.items[i := s'.items[i]]
    requires ItemFollows(s.items[i], s'.items[i], t)
    requires Usable(s.items[i]) ==> Usable(s'.items[i])
    ensures ClosingOk(s', t, i, k)
  {
  }

  lemma CloseReturnKeeps(s: State, t: nat)
    requires Inv(s) && t < |s.threads| && s.threads[t].pc.ClosingBrowser?
    ensures Kept(s, StepCloseReturn(s, t), t)
  {
    var i := s.threads[t].pc.i;
    assert ThreadOk(s, t) && SlotOk(s, i) && WellFormed(s);
    hide Inv, Kept, Follows, WellFormed, MapOk, ItemsOk, ThreadsOk;
    var s' := StepCloseReturn(s, t);
    ClosingStays(s, s', t, i, s.threads[t].pc.k);
    hide ClosingOk, OutcomeOk, GrantOk;
    TouchKeeps(s, t, i, s'.items[i], s'.threads[t].pc);
  }

  lemma ContinueRoles(i: nat, k: After, j: nat)
    requires InRest(k, j)
    ensures Owes(Continue(i, k), j)
  {
    assert k.rest == [k.rest[0]] + k.rest[1..];
  }

  ghost predicate PcOfClosing(s: State, t: nat, pc: Pc)
    requires t < |s.threads|
  {
    || (pc.Done? && OutcomeOk(s, t, pc.r))
    || (pc.Unlock? && OutcomeOk(s, t, pc.r) && pc.r.Drained?)
    || (pc.CloseWait? && ClosingOk(s, t, pc.i, pc.k))
    || (pc.Again? && Since(s, pc.id, s.threads[t].called) && Asked(s.threads[t].cmd, pc.id) && pc.id != "")
  }

  lemma NextCloseOk(s: State, t: nat, ver: nat, shut: seq<nat>, rest: seq<nat>)
    requires t < |s.threads| && AllFrom(s, ver)
    requires forall r :: r in rest ==> r < |s.items| && s.items[r].taker == Some(t)
    requires forall r :: r in shut ==> r < |s.items| && Finished(s.items[r])
    ensures var pc := NextClose(ver, shut, rest); PcOfClosing(s, t, pc) && PcInRange(pc, |s.items|)
  {
    if rest != [] {
      assert rest[0] in rest;
      assert forall r :: r in rest[1..] ==> r in rest;
    }
  }

  lemma ContinueOk(s: State, t: nat, i: nat, k: After)
    requires t < |s.threads| && ClosingOk(s, t, i, k) && Finished(s.items[i])
    ensures PcOfClosing(s, t, Continue(i, k)) && PcInRange(Continue(i, k), |s.items|)
  {
    if k.ThenNext? {
      assert forall r :: r in k.shut + [i] ==> r in k.shut || r == i;
      NextCloseOk(s, t, k.ver, k.shut + [i], k.rest);
    }
  }

  lemma CloseReleaseKeeps(s: State, t: nat)
    requires Inv(s) && t < |s.threads| && s.threads[t].pc.CloseRelease?
    ensures Kept(s, StepCloseRelease(s, t), t)
  {
    var CloseRelease(i, k) := s.threads[t].pc;
    assert ThreadOk(s, t) && SlotOk(s, i) && WellFormed(s);
    hide Inv, Kept, Follows, WellFormed, MapOk, ItemsOk, ThreadsOk;
    var s' := StepCloseRelease(s, t);
    var pc := Continue(i, k);
    forall j | j != i
      ensures SameRoles(s.threads[t].pc, pc, j)
    {
      if InRest(k, j) { ContinueRoles(i, k, j); }
    }
    ClosingStays(s, s', t, i, k);
    ContinueOk(s', t, i, k);
    assert ThreadOk(s', t);
    TouchKeeps(s, t, i, s'.items[i], pc);
  }

  // A step of a save that changes its own copy of the config or applyMu.
  lemma SaveMoveKeeps(s: State, t: nat, server: nat, front: nat, cfg: nat, saver: Option<nat>, pc: Pc)
    requires Inv(s) && t < |s.threads| && s.server <= server && s.front <= front && s.cfg <= cfg
    requires var pc := s.threads[t].pc;
      pc.Lock? || pc.SetServer? || pc.SetFront? || pc.SetConfig? || pc.Unlock?
    requires pc.SetServer? || pc.SetFront? || pc.SetConfig? || (pc.Drain? && pc.ver <= cfg) || pc == Unlock(Refused)
             || (pc.Done? && s.threads[t].pc.Unlock? && pc.r == s.threads[t].pc.r)
    ensures Kept(s, Moved(s.(server := server, front := front, cfg := cfg, saver := saver), t, pc), t)
  {
    var s' := Moved(s.(server := server, front := front, cfg := cfg, saver := saver), t, pc);
    assert ThreadOk(s, t);
    SaveFollows(s, t, server, front, cfg, saver, pc);
    if pc.Done? { SaveOutcome(s, s', t, pc.r); }
    assert ThreadOk(s', t);
    hide Follows, OutcomeOk, ThreadOk, SlotOk, ItemsOk, ThreadsOk;
    StepKeeps(s, s', t, |s.items|);
  }

  lemma SaveFollows(s: State, t: nat, server: nat, front: nat, cfg: nat, saver: Option<nat>, pc: Pc)
    requires Inv(s) && t < |s.threads| && s.server <= server && s.front <= front && s.cfg <= cfg
    ensures var s' := Moved(s.(server := server, front := front, cfg := cfg, saver := saver), t, pc);
      Follows(s, s', t) && MapOk(s') && forall j :: 0 <= j < |s.items| ==> InMap(s', j) == InMap(s, j)
  {
  }

  lemma SaveOutcome(s: State, s': State, t: nat, r: Outcome)
    requires t < |s.threads| && OutcomeOk(s, t, r)
    requires |s'.threads| == |s.threads| && s'.threads[t].cmd == s.threads[t].cmd
    requires r.Drained? || r.Refused?
    requires s'.items == s.items && s'.sessions == s.sessions && s.cfg <= s'.cfg
    ensures OutcomeOk(s', t, r)
  {
  }

  lemma SaveStepKeeps(s: State, t: nat, c: Choice)
    requires Inv(s) && Valid(s, Act(t, c))
    requires var pc := s.threads[t].pc;
      pc.Lock? || pc.SetServer? || pc.SetFront? || pc.SetConfig? || pc.Unlock?
    ensures Kept(s, Apply(s, Act(t, c)), t)
  {
    assert ThreadOk(s, t);
    hide Kept, Inv;
    match s.threads[t].pc {
      case Lock => SaveMoveKeeps(s, t, s.server, s.front, s.cfg, Some(t), SetServer);
      case SetServer =>
        if c.ok {
          SaveMoveKeeps(s, t, s.server + 1, s.front, s.cfg, s.saver, SetFront);
        } else {
          SaveMoveKeeps(s, t, s.server, s.front, s.cfg, s.saver, Unlock(Refused));
        }
      case SetFront => SaveMoveKeeps(s, t, s.server, s.front + 1, s.cfg, s.saver, SetConfig);
      case SetConfig => SaveMoveKeeps(s, t, s.server, s.front, s.cfg + 1, s.saver, Drain(s.cfg + 1));
      case Unlock(r) =>
        SaveMoveKeeps(s, t, s.server, s.front, s.cfg, if s.threads[t].cmd.CmdSave? then None else s.saver, Done(r));
    }
  }

  lemma AskServiceKeeps(s: State, t: nat)
    requires Inv(s) && t < |s.threads| && s.threads[t].pc.AskService?
    ensures Kept(s, StepAskService(s, t), t)
  {
    assert ThreadOk(s, t);
    MoveKeeps(s, t, StepAskService(s, t).threads[t]);
  }

  // Steps that change the map.  ---------------------------------------------

  lemma FindKeeps(s: State, t: nat, id: string, force: bool)
    requires Inv(s) && t < |s.threads| && id in s.sessions
    requires s.threads[t].pc.Enter? || s.threads[t].pc.Again?
    requires Asked(s.threads[t].cmd, id) && (force ==> s.threads[t].called <= s.sessions[id])
    ensures Kept(s, Reserve(s, t, id, force), t)
  {
    assert ThreadOk(s, t);
    MoveKeeps(s, t, Reserve(s, t, id, force).threads[t]);
  }

  lemma NewKeeps(s: State, t: nat, id: string, force: bool)
    requires Inv(s) && t < |s.threads| && id !in s.sessions
    requires s.threads[t].pc.Enter? || s.threads[t].pc.Again?
    requires Asked(s.threads[t].cmd, id)
    ensures Kept(s, Reserve(s, t, id, force), t)
  {
    hide Follows, MapOk, ThreadOk, SlotOk, Kept, ItemsOk, ThreadsOk;
    var s' := Reserve(s, t, id, force);
    NewFollows(s, t, id, force);
    NewMapOk(s, id, s');
    NewThreadOk(s, t, id, force);
    StepKeeps(s, s', t, |s.items|);
  }

  lemma NewFollows(s: State, t: nat, id: string, force: bool)
    requires Inv(s) && t < |s.threads| && id !in s.sessions
    ensures var s' := Reserve(s, t, id, force);
      && Follows(s, s', t)
      && (forall j :: 0 <= j < |s.items| ==> s'.items[j] == s.items[j] && InMap(s', j) == InMap(s, j))
  {
    var s' := Reserve(s, t, id, force);
    forall j | 0 <= j < |s.items|
      ensures InMap(s', j) == InMap(s, j)
    {
      assert s'.items[j] == s.items[j];
    }
  }

  lemma NewThreadOk(s: State, t: nat, id: string, force: bool)
    requires Inv(s) && t < |s.threads| && id !in s.sessions
    requires Asked(s.threads[t].cmd, id) && !s.threads[t].pc.Begin?
    ensures var s' := Reserve(s, t, id, force); ThreadOk(s', t) && SlotOk(s', |s.items|)
  {
    assert ThreadOk(s, t);
  }

  lemma NewMapOk(s: State, id: string, s': State)
    requires MapOk(s) && id !in s.sessions
    requires |s'.items| == |s.items| + 1 && s'.items[..|s.items|] == s.items && s'.items[|s.items|].id == id
    requires s'.sessions == s.sessions[id := |s.items|]
    ensures MapOk(s')
  {
    forall k | k in s'.sessions
      ensures
        && s'.sessions[k] < |s'.items| && s'.items[s'.sessions[k]].id == k
        && (forall j :: 0 <= j < |s'.items| && s'.items[j].id == k ==> j <= s'.sessions[k])
    {
      if k != id {
        assert s'.sessions[k] == s.sessions[k];
        forall j | 0 <= j < |s'.items| && s'.items[j].id == k
          ensures j <= s'.sessions[k]
        {
          assert j < |s.items| && s.items[j] == s'.items[j];
        }
      }
    }
  }

  lemma TakeOutKeeps(s: State, t: nat, id: string, k: After)
    requires Inv(s) && t < |s.threads| && id in s.sessions
    requires s.threads[t].pc.Enter? || s.threads[t].pc.Take?
    requires k == ThenDestroyed || (k == ThenReserve(id) && Asked(s.threads[t].cmd, id) && id != "")
    ensures Kept(s, TakeOut(s, t, id, k), t)
  {
    hide Follows, MapOk, ThreadOk, SlotOk, Kept, ItemsOk, ThreadsOk;
    var i := s.sessions[id];
    var s' := TakeOut(s, t, id, k);
    TakeOutFollows(s, t, id, k);
    TakeOutThreadOk(s, t, id, k);
    StepKeeps(s, s', t, i);
  }

  lemma TakeOutFollows(s: State, t: nat, id: string, k: After)
    requires Inv(s) && t < |s.threads| && id in s.sessions
    ensures var s' := TakeOut(s, t, id, k);
      && Follows(s, s', t) && MapOk(s')
      && (forall j :: 0 <= j < |s.items| && j != s.sessions[id] ==>
            s'.items[j] == s.items[j] && InMap(s', j) == InMap(s, j))
  {
    var i, s' := s.sessions[id], TakeOut(s, t, id, k);
    assert SlotOk(s, i) && InMap(s, i);
    assert s'.items == s.items[i := s.items[i].(taker := Some(t))];
    TakeOutMap(s, id, s');
    hide MapOk, ItemsOk, ThreadsOk, WellFormed, SlotOk;
  }

  // Without one entry the map is still right.
  lemma TakeOutMap(s: State, id: string, s': State)
    requires MapOk(s) && id in s.sessions && s'.sessions == Without(s.sessions, id)
    requires |s'.items| == |s.items| && forall j :: 0 <= j < |s.items| ==> s'.items[j].id == s.items[j].id
    ensures MapOk(s')
    ensures forall j :: 0 <= j < |s.items| && j != s.sessions[id] ==> InMap(s', j) == InMap(s, j)
  {
    forall j | 0 <= j < |s.items| && j != s.sessions[id] ensures InMap(s', j) == InMap(s, j) {
      assert s'.items[j].id == s.items[j].id;
    }
  }

  lemma TakeOutThreadOk(s: State, t: nat, id: string, k: After)
    requires Inv(s) && t < |s.threads| && id in s.sessions
    requires s.threads[t].pc.Enter? || s.threads[t].pc.Take?
    requires k == ThenDestroyed || (k == ThenReserve(id) && Asked(s.threads[t].cmd, id) && id != "")
    ensures var s' := TakeOut(s, t, id, k); ThreadOk(s', t) && SlotOk(s', s.sessions[id])
  {
    TakeOutSlotOk(s, t, id, k);
    assert ThreadOk(s, t);
    hide SlotOk, ItemsOk, ThreadsOk, MapOk, WellFormed;
  }

  lemma TakeOutSlotOk(s: State, t: nat, id: string, k: After)
    requires Inv(s) && t < |s.threads| && id in s.sessions
    requires s.threads[t].pc.Enter? || s.threads[t].pc.Take?
    ensures SlotOk(TakeOut(s, t, id, k), s.sessions[id])
  {
    assert SlotOk(s, s.sessions[id]) && InMap(s, s.sessions[id]);
    hide ItemsOk, ThreadsOk, MapOk, WellFormed;
  }

  lemma ForgetKeeps(s: State, t: nat)
    requires Inv(s) && t < |s.threads| && s.threads[t].pc.Forget?
    ensures Kept(s, StepForget(s, t), t)
  {
    var i := s.threads[t].pc.i;
    var s' := StepForget(s, t);
    ForgetFollows(s, t);
    ForgetOwn(s, t);
    hide Follows, MapOk, ThreadOk, SlotOk, Kept, ItemsOk, ThreadsOk, InMap;
    StepKeeps(s, s', t, i);
  }

  lemma ForgetFollows(s: State, t: nat)
    requires Inv(s) && t < |s.threads| && s.threads[t].pc.Forget?
    ensures var s' := StepForget(s, t);
      && Follows(s, s', t) && MapOk(s')
      && (forall j :: 0 <= j < |s.items| && j != s.threads[t].pc.i ==> InMap(s', j) == InMap(s, j))
  {
    var i, s' := s.threads[t].pc.i, StepForget(s, t);
    assert Follows(s, s', t);
    if InMap(s, i) { TakeOutMap(s, s.items[i].id, s'); }
    hide Follows, ItemsOk, ThreadsOk, ItemFollows;
  }

  lemma ForgetOwn(s: State, t: nat)
    requires Inv(s) && t < |s.threads| && s.threads[t].pc.Forget?
    ensures var s' := StepForget(s, t);
      s.threads[t].pc.i < |s.items| && ThreadOk(s', t) && SlotOk(s', s.threads[t].pc.i)
  {
    assert ThreadOk(s, t) && SlotOk(s, s.threads[t].pc.i);
  }

  lemma DrainKeeps(s: State, t: nat, order: seq<string>)
    requires Inv(s) && t < |s.threads| && s.threads[t].pc.Drain? && Enumerates(order, s.sessions.Keys)
    ensures Kept(s, StepDrain(s, t, order), t)
  {
    var s' := StepDrain(s, t, order);
    assert ThreadOk(s, t);
    DrainFollows(s, t, order);
    DrainOwes(s, t, order);
    forall j | 0 <= j < |s'.items|
      ensures SlotOk(s', j)
    {
      assert SlotOk(s, j);
    }
    forall u | 0 <= u < |s'.threads|
      ensures ThreadOk(s', u)
    {
      if u != t {
        assert ThreadOk(s, u);
        OtherThreadKeeps(s, s', t, u);
      }
    }
  }

  lemma DrainFollows(s: State, t: nat, order: seq<string>)
    requires Inv(s) && t < |s.threads| && s.threads[t].pc.Drain? && Enumerates(order, s.sessions.Keys)
    ensures Follows(s, StepDrain(s, t, order), t)
  {
    var s' := StepDrain(s, t, order);
    forall i | 0 <= i < |s.items|
      ensures ItemFollows(s.items[i], s'.items[i], t)
    {
      assert SlotOk(s, i);
    }
  }

  // What the drain removed is exactly what its thread now has to close.
  lemma DrainOwes(s: State, t: nat, order: seq<string>)
    requires Inv(s) && t < |s.threads| && s.threads[t].pc.Drain? && Enumerates(order, s.sessions.Keys)
    ensures var s' := StepDrain(s, t, order);
      && ThreadOk(s', t) && PcInRange(s'.threads[t].pc, |s.items|)
      && (forall j :: 0 <= j < |s.items| ==> (Owes(s'.threads[t].pc, j) <==> InMap(s, j)))
  {
    var s' := StepDrain(s, t, order);
    var taken := Values(order, s.sessions);
    var ver := s.threads[t].pc.ver;
    assert ThreadOk(s, t);
    forall j | j in taken
      ensures j < |s.items| && InMap(s, j)
    {
      var n :| 0 <= n < |taken| && taken[n] == j;
      assert order[n] in s.sessions;
    }
    forall j | 0 <= j < |s.items| && InMap(s, j)
      ensures j in taken
    {
      assert s.items[j].id in order;
      var n :| 0 <= n < |order| && order[n] == s.items[j].id;
      assert taken[n] == j;
    }
    NextCloseOk(s', t, ver, [], taken);
    if taken != [] {
      assert taken == [taken[0]] + taken[1..];
    }
  }

  lemma TickKeeps(s: State, elapsed: nat)
    requires Inv(s)
    ensures Kept(s, s.(now := s.now + elapsed), |s.threads|)
  {
    var s' := s.(now := s.now + elapsed);
    forall j | 0 <= j < |s'.items|
      ensures SlotOk(s', j)
    {
      assert SlotOk(s, j);
    }
    forall u | 0 <= u < |s'.threads|
      ensures ThreadOk(s', u)
    {
      assert ThreadOk(s, u);
      OtherThreadKeeps(s, s', |s.threads|, u);
    }
  }

  // Every step keeps the invariant.  ---------------------------------------

  lemma EnterKeeps(s: State, t: nat, drawn: string)
    requires Inv(s) && t < |s.threads| && s.threads[t].pc.Enter? && drawn != ""
    ensures Kept(s, StepEnter(s, t, drawn), t)
  {
    assert ThreadOk(s, t);
    var Enter(asked, force) := s.threads[t].pc;
    var id := if asked == "" then drawn else asked;
    if force && id in s.sessions {
      TakeOutKeeps(s, t, id, ThenReserve(id));
    } else if id in s.sessions {
      FindKeeps(s, t, id, force);
    } else {
      NewKeeps(s, t, id, force);
    }
  }

  lemma AgainKeeps(s: State, t: nat)
    requires Inv(s) && t < |s.threads| && s.threads[t].pc.Again?
    ensures Kept(s, Reserve(s, t, s.threads[t].pc.id, true), t)
  {
    assert ThreadOk(s, t);
    var id := s.threads[t].pc.id;
    if id in s.sessions { FindKeeps(s, t, id, true); } else { NewKeeps(s, t, id, true); }
  }

  lemma TakeKeeps(s: State, t: nat)
    requires Inv(s) && t < |s.threads| && s.threads[t].pc.Take?
    ensures Kept(s, StepTake(s, t), t)
  {
    assert ThreadOk(s, t);
    var id := s.threads[t].pc.id;
    if id in s.sessions {
      TakeOutKeeps(s, t, id, ThenDestroyed);
    } else {
      MoveKeeps(s, t, StepTake(s, t).threads[t]);
    }
  }

  function Actor(s: State, e: Event): nat {
    if e.Act? then e.t else |s.threads|
  }

  lemma EventKeeps(s: State, e: Event)
    requires Inv(s) && Valid(s, e)
    ensures Kept(s, Apply(s, e), Actor(s, e))
  {
    match e
    case Tick(elapsed) => TickKeeps(s, elapsed);
    case Act(t, c) =>
      match s.threads[t].pc {
        case Begin => BeginKeeps(s, t);
        case Enter(_, _) => EnterKeeps(s, t, c.drawn);
        case Again(_) => AgainKeeps(s, t);
        case Await(_, _) => AwaitKeeps(s, t);
        case Build(_, _) => BuildKeeps(s, t, c.ok);
        case Signal(_, _) => SignalKeeps(s, t);
        case Forget(_) => ForgetKeeps(s, t);
        case Check(_, _) => CheckKeeps(s, t);
        case Judge(_, _) => JudgeKeeps(s, t);
        case Use(_, _) => UseKeeps(s, t);
        case Inspect(_, _) => InspectKeeps(s, t);
        case Resolving(_, _) => ResolvedKeeps(s, t);
        case Release(_, _, _) => ReleaseKeeps(s, t);
        case CloseWait(_, _) => CloseWaitKeeps(s, t);
        case CloseLock(_, _) => CloseLockKeeps(s, t);
        case CloseBody(_, _) => CloseBodyKeeps(s, t);
        case ClosingBrowser(_, _) => CloseReturnKeeps(s, t);
        case CloseRelease(_, _) => CloseReleaseKeeps(s, t);
        case Take(_) => TakeKeeps(s, t);
        case AskService(_) => AskServiceKeeps(s, t);
        case Lock | SetServer | SetFront | SetConfig | Unlock(_) => SaveStepKeeps(s, t, c);
        case Drain(_) => DrainKeeps(s, t, c.order);
      }
  }
}
