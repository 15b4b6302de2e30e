/**
The session store as the object it is: the map, the config, and the methods that
hold the store lock.  Each method is one critical section of the step machine in
SessionMachine: `Shows` relates the objects to a state of the machine, and every
postcondition says that the method does what the machine's step does.
*/
module SessionStore {
  import opened Wrappers
  import opened SessionMachine

  class Session {
    const id: string
    const number: nat  // the place in the order of reservations
    const cfg: nat     // the config copied when the entry was reserved

    var ready: bool
    var browser: bool  // construction left a browser
    var closed: bool

    constructor (id: string, number: nat, cfg: nat)
      ensures this.id == id && this.number == number && this.cfg == cfg
      ensures !ready && !browser && !closed
    {
      this.id, this.number, this.cfg := id, number, cfg;
      ready, browser, closed := false, false, false;
    }

    // The object is in the state of item x.
    ghost predicate Shows(x: Item)
      reads this
    {
      && id == x.id && cfg == x.ver && ready == x.ready && closed == x.closed
      && (ready ==> (browser <==> !x.life.Pending? && !x.life.NoBrowser?))
    }

    // The end of construction: browser and error are stored, then `ready` is closed.
    // No other thread touches the session between the two.
    method Finish(ghost s: State, ghost t: nat, ok: bool)
      requires WellFormed(s) && t < |s.threads| && s.threads[t].pc.Build? && s.threads[t].pc.i == number
      requires Shows(s.items[number]) && !ready
      modifies this
      ensures Shows(StepSignal(StepBuild(s, t, ok), t).items[number])
      ensures StepSignal(StepBuild(s, t, ok), t).threads[t].pc.Check? <==> browser
    {
      browser := ok;
      ready := true;
    }

    // close(), from taking the session lock on: is the browser to be shut down?
    method CloseLocked(ghost s: State, ghost t: nat) returns (shutDown: bool)
      requires WellFormed(s) && t < |s.threads| && s.threads[t].pc.CloseBody? && s.threads[t].pc.i == number
      requires Shows(s.items[number]) && ready && !s.items[number].life.Pending?
      modifies `closed
      ensures Shows(StepCloseBody(s, t).items[number])
      ensures shutDown <==> StepCloseBody(s, t).threads[t].pc.ClosingBrowser?
      ensures shutDown <==> !old(closed) && browser
    {
      if closed { return false; }
      closed := true;
      return browser;
    }
  }

  class Store {
    var cfg: nat
    var sessions: map<string, Session>
    var reserved: nat
    ghost var made: seq<Session>  // every session ever reserved

    ghost predicate Valid()
      reads this
    {
      && |made| == reserved && (forall n :: 0 <= n < |made| ==> made[n].number == n)
      && forall id :: id in sessions ==>
           sessions[id].id == id && sessions[id].number < reserved && made[sessions[id].number] == sessions[id]
    }

    ghost function View(): map<string, nat>
      reads this
    {
      map id | id in sessions :: sessions[id].number
    }

    // The store is in state s of the machine.
    ghost predicate Shows(s: State)
      reads this
    {
      && Valid() && cfg == s.cfg && View() == s.sessions && reserved == |s.items|
      && forall n :: 0 <= n < |made| ==> made[n].id == s.items[n].id
    }

    constructor (s: State)
      requires Init(s)
      ensures Shows(s)
    {
      cfg, sessions, reserved, made := 0, map[], 0, [];
    }

    // create: look the id up, and reserve it when it is free.
    method FindOrReserve(ghost s: State, ghost t: nat, id: string, ghost force: bool)
      returns (item: Session, found: bool)
      requires WellFormed(s) && Shows(s) && t < |s.threads|
      modifies this
      ensures Shows(Reserve(s, t, id, force))
      ensures var pc := Reserve(s, t, id, force).threads[t].pc;
        if found then pc == Await(item.number, force) else pc == Build(item.number, force)
      ensures id in sessions && sessions[id] == item
      ensures found ==> item == old(sessions)[id] && sessions == old(sessions)
      ensures !found ==> fresh(item) && item.Shows(Reserve(s, t, id, force).items[item.number])
    {
      assert id in View() <==> id in sessions;
      if id in sessions {
        return sessions[id], true;
      }
      found := false;
      item := new Session(id, reserved, cfg);
      Insert(item);
    }

    // A new entry under a free id.
    method Insert(item: Session)
      requires Valid() && item.id !in sessions && item.number == reserved
      modifies this
      ensures Valid() && cfg == old(cfg) && sessions == old(sessions)[item.id := item]
      ensures reserved == old(reserved) + 1 && made == old(made) + [item]
      ensures View() == old(View())[item.id := item.number]
    {
      sessions := sessions[item.id := item];
      reserved := reserved + 1;
      made := made + [item];
      assert View() == old(View())[item.id := item.number];
    }

    // destroy, and the first half of a forced create: remove the entry.
    method TakeOut(ghost s: State, ghost t: nat, id: string, ghost k: After) returns (item: Session?)
      requires WellFormed(s) && Shows(s) && t < |s.threads|
      modifies this
      ensures item == null <==> id !in s.sessions
      ensures item == null ==> Shows(s)
      ensures item != null ==>
        && item == old(sessions)[id] && Shows(SessionMachine.TakeOut(s, t, id, k))
        && SessionMachine.TakeOut(s, t, id, k).threads[t].pc == CloseWait(item.number, k)
    {
      assert id in View() <==> id in sessions;
      item := if id in sessions then sessions[id] else null;
      sessions := sessions - {id};
      assert View() == Without(s.sessions, id);
    }

    // create, after a failed construction: remove the entry if it is still this one.
    method Forget(ghost s: State, ghost t: nat, item: Session)
      requires WellFormed(s) && Shows(s) && t < |s.threads| && s.threads[t].pc == Pc.Forget(item.number)
      requires item in made
      modifies this
      ensures Shows(StepForget(s, t))
      ensures forall id :: id in sessions ==> sessions[id] != item
    {
      assert made[item.number] == item;
      assert item.id in View() <==> item.id in sessions;
      if item.id in sessions && sessions[item.id] == item {
        sessions := sessions - {item.id};
        assert View() == Without(s.sessions, item.id);
      }
    }

    method ApplyConfig(ghost s: State, ghost t: nat, newCfg: nat)
      requires WellFormed(s) && Shows(s) && t < |s.threads| && newCfg == s.cfg + 1
      modifies `cfg
      ensures Shows(StepSetConfig(s, t))
    {
      cfg := newCfg;
    }

    // destroyAll: empty the map.  The range loop visits the keys in any order
    // and deletes each one as it goes.
    method Drain(ghost s: State, ghost t: nat) returns (items: seq<Session>, ghost order: seq<string>)
      requires WellFormed(s) && Shows(s) && t < |s.threads| && s.threads[t].pc.Drain?
      modifies `sessions
      ensures Enumerates(order, s.sessions.Keys)
      ensures Shows(StepDrain(s, t, order))
      ensures StepDrain(s, t, order).threads[t].pc == NextClose(s.threads[t].pc.ver, [], Numbers(items))
      ensures |items| == |order|
      ensures forall n :: 0 <= n < |items| ==> order[n] in old(sessions) && items[n] == old(sessions)[order[n]]
    {
      items, order := Collect();
      assert s.sessions.Keys == old(sessions).Keys;
      assert forall n :: 0 <= n < |order| ==> order[n] in order && s.sessions[order[n]] == items[n].number;
      assert Numbers(items) == Values(order, s.sessions);
      assert View() == map[];
    }

    // Its loop.
    method Collect() returns (items: seq<Session>, ghost order: seq<string>)
      modifies `sessions
      ensures sessions == map[] && Enumerates(order, old(sessions).Keys)
      ensures |items| == |order|
      ensures forall n :: 0 <= n < |items| ==> order[n] in old(sessions) && items[n] == old(sessions)[order[n]]
    {
      items, order := [], [];
      ghost var before := sessions;
      while sessions != map[]
        invariant sessions.Keys <= before.Keys && forall id :: id in sessions ==> sessions[id] == before[id]
        invariant forall id :: id in before.Keys <==> id in sessions || id in order
        invariant forall id :: id in order ==> id !in sessions
        invariant forall a, b :: 0 <= a < b < |order| ==> order[a] != order[b]
        invariant |items| == |order|
        invariant forall n :: 0 <= n < |items| ==> order[n] in before && items[n] == before[order[n]]
        decreases sessions.Keys
      {
        var key := SomeKey(sessions);
        items, order := items + [sessions[key]], order + [key];
        sessions := sessions - {key};
      }
    }
  }

  function Numbers(items: seq<Session>): seq<nat> {
    seq(|items|, n requires 0 <= n < |items| => items[n].number)
  }

  method SomeKey(m: map<string, Session>) returns (key: string)
    requires m != map[]
    ensures key in m
  {
    assert m.Keys == {} ==> m == map[];
    key :| key in m;
  }
}
