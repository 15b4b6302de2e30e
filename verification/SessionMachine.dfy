/**
The session store and its callers as a step machine.

Every goroutine that serves a request, a destroy or a settings save is a thread
of the machine.  One step is one critical section of the store lock, one wait on
a session's `ready` channel, one acquire or release of a session's own lock, or
one call into a browser.  The browser factory, the page and the clock are the
environment: what they answer is the `Choice` of a step, or a `Tick`.
*/
module SessionMachine {
  import opened Wrappers

  // What has become of the browser of one session.
  datatype Life =
    | Pending    // factory.New has not returned
    | NoBrowser  // factory.New reported an error
    | Open
    | Closing    // browser.Close is running
    | Closed     // browser.Close has returned

  // One reserved session.  Sessions are numbered in the order of reservation.
  // `builds`, `closes` and `taker` are history: how often the factory and
  // browser.Close were called for it, and which thread removed it from the map
  // in order to close it.  `proxy` is where its default proxy was read; a session
  // that a request creates gets none.
  datatype Item = Item(
    id: string, ver: nat, proxy: Option<Origin>, born: nat, creator: nat,
    life: Life, ready: bool, closed: bool, lock: Option<nat>,
    builds: nat, closes: nat, taker: Option<nat>)

  // The read that decides about the default proxy of a create: the HTTP handler's
  // of the server's config, if that holds a proxy, and otherwise the service's.
  datatype Origin = Unread | FromServer(cfg: nat) | FromService(cfg: nat)

  datatype Cmd =
    | CmdCreate(id: string)             // sessions.create
    | CmdRequest(id: string, ttl: int)  // request.get / request.post in a session
    | CmdDestroy(id: string)            // sessions.destroy
    | CmdDestroyAll                     // Service.Close
    | CmdSave                           // a POST of the settings page

  // Why `get` handed a session to its caller.
  datatype Grant =
    | NoLimit           // the request sets no time to live
    | Fresh             // this very call built it
    | Young(at: nat)    // its age was within the limit at clock value `at`
    | Recreated         // it came out of a forced create

  // What the caller of session.close does when the call returns.
  datatype After =
    | ThenReserve(id: string)                             // create with forceNew
    | ThenRefuse                                          // create that lost its entry
    | ThenDestroyed                                       // destroy
    | ThenNext(ver: nat, shut: seq<nat>, rest: seq<nat>)  // the loop of destroyAll

  datatype Outcome =
    | Refused
    | Got(i: nat, isFresh: bool)
    | Served(i: nat, grant: Grant)
    | Destroyed(found: bool)
    | Drained(ver: nat, items: seq<nat>)

  datatype Pc =
    | Begin
    | AskService(id: string)            // sessions.create: about to read the service's config
    | Enter(id: string, force: bool)    // create: about to take the store lock
    | Again(id: string)                 // create: about to take it back after the forced close
    | Await(i: nat, force: bool)        // create: waiting for somebody else's construction
    | Build(i: nat, force: bool)        // create: inside factory.New
    | Signal(i: nat, force: bool)       // create: about to close `ready`
    | Forget(i: nat)                    // create: construction failed, removing the entry
    | Check(i: nat, force: bool)        // create: re-checking the store
    | Judge(i: nat, isFresh: bool)        // get: looking at the session's age
    | Use(i: nat, grant: Grant)         // request: waiting for the session lock
    | Inspect(i: nat, grant: Grant)     // request: holding it, reading `closed`
    | Resolving(i: nat, grant: Grant)   // request: inside browser.Resolve
    | Release(i: nat, grant: Grant, ok: bool)
    | CloseWait(i: nat, k: After)       // close: waiting on `ready`
    | CloseLock(i: nat, k: After)       // close: waiting for the session lock
    | CloseBody(i: nat, k: After)       // close: holding it, testing `closed`
    | ClosingBrowser(i: nat, k: After)  // close: inside browser.Close
    | CloseRelease(i: nat, k: After)
    | Take(id: string)                  // destroy: about to take the store lock
    | Lock                              // save: waiting for applyMu
    | SetServer                         // save: holding it; the payload may be refused or the file fail
    | SetFront                          // Service.ApplyConfig on its own copy
    | SetConfig                         // applyConfig on the store
    | Drain(ver: nat)                   // destroyAll: about to empty the map
    | Unlock(r: Outcome)                // destroyAll has returned; a save gives applyMu back
    | Done(r: Outcome)

  // `began` and `called` are the numbers the next reservation had when the
  // command, and its current call of create, started.
  datatype Thread = Thread(cmd: Cmd, pc: Pc, began: nat, called: nat, origin: Origin)

  // A config is named by the number of the save that made it.
  datatype State = State(
    sessions: map<string, nat>,
    items: seq<Item>,
    threads: seq<Thread>,
    server: nat, front: nat, cfg: nat,  // the configs of the server, the service and the store
    bare: set<nat>,                     // the configs without a default proxy
    saver: Option<nat>,                 // the holder of applyMu
    now: nat)

  // The environment's part in a step: does factory.New succeed, which id does
  // newSessionID draw, in which order does the range loop visit the map.
  datatype Choice = Choice(ok: bool, drawn: string, order: seq<string>)

  datatype Event = Tick(elapsed: nat) | Act(t: nat, c: Choice)

  // Sections of the store that several steps share.  ----------------------

  function Without(m: map<string, nat>, id: string): map<string, nat> {
    m - {id}
  }

  predicate InMap(s: State, i: nat)
    requires i < |s.items|
  {
    s.items[i].id in s.sessions && s.sessions[s.items[i].id] == i
  }

  ghost predicate Enumerates(order: seq<string>, keys: set<string>) {
    && (forall k :: k in order <==> k in keys)
    && (forall a, b :: 0 <= a < b < |order| ==> order[a] != order[b])
  }

  function Values(order: seq<string>, m: map<string, nat>): seq<nat>
    requires forall k :: k in order ==> k in m
  {
    seq(|order|, n requires 0 <= n < |order| => m[order[n]])
  }

  // The machine.  ----------------------------------------------------------

  ghost predicate Init(s: State) {
    && s.sessions == map[] && s.items == [] && s.server == s.front == s.cfg == 0 && s.saver.None?
    && (forall t :: 0 <= t < |s.threads| ==>
          && s.threads[t].pc == Begin && s.threads[t].began == s.threads[t].called == 0 && s.threads[t].origin.Unread?
          && (s.threads[t].cmd.CmdRequest? ==> s.threads[t].cmd.id != ""))
  }

  predicate WellFormed(s: State) {
    && (forall id :: id in s.sessions ==> s.sessions[id] < |s.items|)
    && (forall t :: 0 <= t < |s.threads| ==> PcInRange(s.threads[t].pc, |s.items|))
  }

  predicate PcInRange(pc: Pc, n: nat) {
    match pc
    case Begin | AskService(_) | Enter(_, _) | Again(_) | Take(_) => true
    case Lock | SetServer | SetFront | SetConfig | Drain(_) | Unlock(_) | Done(_) => true
    case Await(i, _) => i < n
    case Build(i, _) => i < n
    case Signal(i, _) => i < n
    case Forget(i) => i < n
    case Check(i, _) => i < n
    case Judge(i, _) => i < n
    case Use(i, _) => i < n
    case Inspect(i, _) => i < n
    case Resolving(i, _) => i < n
    case Release(i, _, _) => i < n
    case CloseWait(i, k) => i < n && AfterInRange(k, n)
    case CloseLock(i, k) => i < n && AfterInRange(k, n)
    case CloseBody(i, k) => i < n && AfterInRange(k, n)
    case ClosingBrowser(i, k) => i < n && AfterInRange(k, n)
    case CloseRelease(i, k) => i < n && AfterInRange(k, n)
  }

  predicate AfterInRange(k: After, n: nat) {
    k.ThenNext? ==> forall r :: r in k.rest ==> r < n
  }

  // Can thread t take its next step now?
  predicate Enabled(s: State, t: nat)
    requires WellFormed(s) && t < |s.threads|
  {
    match s.threads[t].pc
    case Await(i, _) => s.items[i].ready
    case CloseWait(i, _) => s.items[i].ready
    case CloseLock(i, _) => s.items[i].lock.None?
    case Use(i, _) => s.items[i].lock.None?
    case Lock => s.saver.None?
    case Done(_) => false
    case _ => true
  }

  ghost predicate Allowed(s: State, t: nat, c: Choice)
    requires WellFormed(s) && t < |s.threads|
  {
    match s.threads[t].pc
    case Enter(_, _) => c.drawn != ""
    case Drain(_) => Enumerates(c.order, s.sessions.Keys)
    case _ => true
  }

  ghost predicate Valid(s: State, e: Event)
    requires WellFormed(s)
  {
    match e
    case Tick(_) => true
    case Act(t, c) => t < |s.threads| && Enabled(s, t) && Allowed(s, t, c)
  }

  function WithThread(s: State, t: nat, th: Thread): State
    requires t < |s.threads|
  {
    s.(threads := s.threads[t := th])
  }

  function Moved(s: State, t: nat, pc: Pc): State
    requires t < |s.threads|
  {
    WithThread(s, t, s.threads[t].(pc := pc))
  }

  function WithItem(s: State, i: nat, x: Item): State
    requires i < |s.items|
  {
    s.(items := s.items[i := x])
  }

  // What a returning create means to its caller.
  function Returned(cmd: Cmd, i: nat, isFresh: bool, force: bool): Pc {
    if !cmd.CmdRequest? then Done(Got(i, isFresh))
    else if force then Use(i, Recreated)
    else Judge(i, isFresh)
  }

  function StepBegin(s: State, t: nat): State
    requires t < |s.threads|
  {
    var th := s.threads[t];
    var pc := match th.cmd
      case CmdCreate(id) => AskService(id)
      case CmdRequest(id, _) => Enter(id, false)
      case CmdDestroy(id) => Take(id)
      case CmdDestroyAll => Drain(0)
      case CmdSave => Lock;
    var origin := if s.server in s.bare then Unread else FromServer(s.server);
    WithThread(s, t, Thread(th.cmd, pc, |s.items|, |s.items|, origin))
  }

  // The service's config counts only if the handler found no proxy.
  function StepAskService(s: State, t: nat): State
    requires t < |s.threads| && s.threads[t].pc.AskService?
  {
    var th := s.threads[t];
    var origin := if th.origin.Unread? then FromService(s.front) else th.origin;
    WithThread(s, t, th.(pc := Enter(th.pc.id, false), origin := origin))
  }

  function ProxyOf(th: Thread): Option<Origin> {
    if th.cmd.CmdCreate? then Some(th.origin) else None
  }

  // Looking the id up, and reserving it when it is free.
  function Reserve(s: State, t: nat, id: string, force: bool): State
    requires t < |s.threads|
  {
    if id in s.sessions then
      Moved(s, t, Await(s.sessions[id], force))
    else
      var n := |s.items|;
      var item := Item(id, s.cfg, ProxyOf(s.threads[t]), s.now, t, Pending, false, false, None, 0, 0, None);
      Moved(s.(sessions := s.sessions[id := n], items := s.items + [item]), t, Build(n, force))
  }

  // Removing an entry in order to close it.
  function TakeOut(s: State, t: nat, id: string, k: After): State
    requires t < |s.threads| && id in s.sessions && s.sessions[id] < |s.items|
  {
    var i := s.sessions[id];
    var s1 := WithItem(s.(sessions := Without(s.sessions, id)), i, s.items[i].(taker := Some(t)));
    Moved(s1, t, CloseWait(i, k))
  }

  function StepEnter(s: State, t: nat, drawn: string): State
    requires WellFormed(s) && t < |s.threads| && s.threads[t].pc.Enter?
  {
    var Enter(asked, force) := s.threads[t].pc;
    var id := if asked == "" then drawn else asked;
    if force && id in s.sessions then TakeOut(s, t, id, ThenReserve(id))
    else Reserve(s, t, id, force)
  }

  function StepAwait(s: State, t: nat): State
    requires WellFormed(s) && t < |s.threads| && s.threads[t].pc.Await?
  {
    var Await(i, force) := s.threads[t].pc;
    if s.items[i].life.NoBrowser? then Moved(s, t, Done(Refused))
    else Moved(s, t, Returned(s.threads[t].cmd, i, false, force))
  }

  function StepBuild(s: State, t: nat, ok: bool): State
    requires WellFormed(s) && t < |s.threads| && s.threads[t].pc.Build?
  {
    var Build(i, force) := s.threads[t].pc;
    var x := s.items[i];
    Moved(WithItem(s, i, x.(life := if ok then Open else NoBrowser, builds := x.builds + 1)), t, Signal(i, force))
  }

  function StepSignal(s: State, t: nat): State
    requires WellFormed(s) && t < |s.threads| && s.threads[t].pc.Signal?
  {
    var Signal(i, force) := s.threads[t].pc;
    var x := s.items[i];
    Moved(WithItem(s, i, x.(ready := true)), t,
          if x.life.NoBrowser? then Forget(i) else Check(i, force))
  }

  function StepForget(s: State, t: nat): State
    requires WellFormed(s) && t < |s.threads| && s.threads[t].pc.Forget?
  {
    var i := s.threads[t].pc.i;
    var s1 := if InMap(s, i) then s.(sessions := Without(s.sessions, s.items[i].id)) else s;
    Moved(s1, t, Done(Refused))
  }

  // The source tests that the id is present, not that the entry is this item.
  function StepCheck(s: State, t: nat): State
    requires WellFormed(s) && t < |s.threads| && s.threads[t].pc.Check?
  {
    var Check(i, force) := s.threads[t].pc;
    if s.items[i].id in s.sessions then Moved(s, t, Returned(s.threads[t].cmd, i, true, force))
    else Moved(s, t, CloseWait(i, ThenRefuse))
  }

  function StepJudge(s: State, t: nat): State
    requires WellFormed(s) && t < |s.threads| && s.threads[t].pc.Judge?
  {
    var th := s.threads[t];
    var Judge(i, isFresh) := th.pc;
    if !th.cmd.CmdRequest? || th.cmd.ttl <= 0 then Moved(s, t, Use(i, NoLimit))
    else if isFresh then Moved(s, t, Use(i, Fresh))
    else if s.now - s.items[i].born <= th.cmd.ttl then Moved(s, t, Use(i, Young(s.now)))
    else WithThread(s, t, th.(pc := Enter(th.cmd.id, true), called := |s.items|))
  }

  function StepUse(s: State, t: nat): State
    requires WellFormed(s) && t < |s.threads| && s.threads[t].pc.Use?
  {
    var Use(i, grant) := s.threads[t].pc;
    Moved(WithItem(s, i, s.items[i].(lock := Some(t))), t, Inspect(i, grant))
  }

  function StepInspect(s: State, t: nat): State
    requires WellFormed(s) && t < |s.threads| && s.threads[t].pc.Inspect?
  {
    var Inspect(i, grant) := s.threads[t].pc;
    Moved(s, t, if s.items[i].closed then Release(i, grant, false) else Resolving(i, grant))
  }

  function StepRelease(s: State, t: nat): State
    requires WellFormed(s) && t < |s.threads| && s.threads[t].pc.Release?
  {
    var Release(i, grant, ok) := s.threads[t].pc;
    Moved(WithItem(s, i, s.items[i].(lock := None)), t, Done(if ok then Served(i, grant) else Refused))
  }

  function StepCloseLock(s: State, t: nat): State
    requires WellFormed(s) && t < |s.threads| && s.threads[t].pc.CloseLock?
  {
    var CloseLock(i, k) := s.threads[t].pc;
    Moved(WithItem(s, i, s.items[i].(lock := Some(t))), t, CloseBody(i, k))
  }

  function StepCloseBody(s: State, t: nat): State
    requires WellFormed(s) && t < |s.threads| && s.threads[t].pc.CloseBody?
  {
    var CloseBody(i, k) := s.threads[t].pc;
    var x := s.items[i];
    if x.closed then Moved(s, t, CloseRelease(i, k))
    else if x.life.NoBrowser? then Moved(WithItem(s, i, x.(closed := true)), t, CloseRelease(i, k))
    else Moved(WithItem(s, i, x.(closed := true, life := Closing, closes := x.closes + 1)), t, ClosingBrowser(i, k))
  }

  function StepCloseReturn(s: State, t: nat): State
    requires WellFormed(s) && t < |s.threads| && s.threads[t].pc.ClosingBrowser?
  {
    var ClosingBrowser(i, k) := s.threads[t].pc;
    Moved(WithItem(s, i, s.items[i].(life := Closed)), t, CloseRelease(i, k))
  }

  // The next iteration of destroyAll's closing loop.
  function NextClose(ver: nat, shut: seq<nat>, rest: seq<nat>): Pc {
    if rest == [] then Unlock(Drained(ver, shut))
    else CloseWait(rest[0], ThenNext(ver, shut, rest[1..]))
  }

  function Continue(i: nat, k: After): Pc {
    match k
    case ThenReserve(id) => Again(id)
    case ThenRefuse => Done(Refused)
    case ThenDestroyed => Done(Destroyed(true))
    case ThenNext(ver, shut, rest) => NextClose(ver, shut + [i], rest)
  }

  function StepCloseRelease(s: State, t: nat): State
    requires WellFormed(s) && t < |s.threads| && s.threads[t].pc.CloseRelease?
  {
    var CloseRelease(i, k) := s.threads[t].pc;
    Moved(WithItem(s, i, s.items[i].(lock := None)), t, Continue(i, k))
  }

  function StepTake(s: State, t: nat): State
    requires WellFormed(s) && t < |s.threads| && s.threads[t].pc.Take?
  {
    var id := s.threads[t].pc.id;
    if id in s.sessions then TakeOut(s, t, id, ThenDestroyed)
    else Moved(s, t, Done(Destroyed(false)))
  }

  function StepLock(s: State, t: nat): State
    requires t < |s.threads|
  {
    Moved(s.(saver := Some(t)), t, SetServer)
  }

  function StepSetServer(s: State, t: nat, ok: bool): State
    requires t < |s.threads|
  {
    if ok then Moved(s.(server := s.server + 1), t, SetFront) else Moved(s, t, Unlock(Refused))
  }

  function StepUnlock(s: State, t: nat): State
    requires t < |s.threads| && s.threads[t].pc.Unlock?
  {
    var saver := if s.threads[t].cmd.CmdSave? then None else s.saver;
    Moved(s.(saver := saver), t, Done(s.threads[t].pc.r))
  }

  function StepSetFront(s: State, t: nat): State
    requires t < |s.threads|
  {
    Moved(s.(front := s.front + 1), t, SetConfig)
  }

  function StepSetConfig(s: State, t: nat): State
    requires t < |s.threads|
  {
    Moved(s.(cfg := s.cfg + 1), t, Drain(s.cfg + 1))
  }

  function StepDrain(s: State, t: nat, order: seq<string>): State
    requires WellFormed(s) && t < |s.threads| && s.threads[t].pc.Drain?
    requires Enumerates(order, s.sessions.Keys)
  {
    var taken := Values(order, s.sessions);
    var items := seq(|s.items|, n requires 0 <= n < |s.items| =>
      if InMap(s, n) then s.items[n].(taker := Some(t)) else s.items[n]);
    Moved(s.(sessions := map[], items := items), t, NextClose(s.threads[t].pc.ver, [], taken))
  }

  function Apply(s: State, e: Event): State
    requires WellFormed(s) && Valid(s, e)
  {
    match e
    case Tick(elapsed) => s.(now := s.now + elapsed)
    case Act(t, c) =>
      match s.threads[t].pc
      case Begin => StepBegin(s, t)
      case AskService(_) => StepAskService(s, t)
      case Enter(_, _) => StepEnter(s, t, c.drawn)
      case Again(id) => Reserve(s, t, id, true)
      case Await(_, _) => StepAwait(s, t)
      case Build(_, _) => StepBuild(s, t, c.ok)
      case Signal(_, _) => StepSignal(s, t)
      case Forget(_) => StepForget(s, t)
      case Check(_, _) => StepCheck(s, t)
      case Judge(_, _) => StepJudge(s, t)
      case Use(_, _) => StepUse(s, t)
      case Inspect(_, _) => StepInspect(s, t)
      case Resolving(i, grant) => Moved(s, t, Release(i, grant, true))
      case Release(_, _, _) => StepRelease(s, t)
      case CloseWait(i, k) => Moved(s, t, CloseLock(i, k))
      case CloseLock(_, _) => StepCloseLock(s, t)
      case CloseBody(_, _) => StepCloseBody(s, t)
      case ClosingBrowser(_, _) => StepCloseReturn(s, t)
      case CloseRelease(_, _) => StepCloseRelease(s, t)
      case Take(_) => StepTake(s, t)
      case Lock => StepLock(s, t)
      case SetServer => StepSetServer(s, t, c.ok)
      case SetFront => StepSetFront(s, t)
      case SetConfig => StepSetConfig(s, t)
      case Drain(_) => StepDrain(s, t, c.order)
      case Unlock(_) => StepUnlock(s, t)
  }
}
