/**
The BiDi session as the object it is: the id counter and the table of waiting
calls.  Each method is one critical section; its postcondition says what it makes
of the counter and of the table's view, which are `nextID` and `pending` of the
machine in BidiClient.
*/
module BidiSession {
  import opened Wrappers
  import opened BidiClient

  class Waiter {
    const call: nat
    var channel: Option<Reply>

    constructor (call: nat)
      ensures this.call == call && channel.None?
    {
      this.call, channel := call, None;
    }
  }

  class Session {
    var nextID: int
    var pending: map<int, Waiter>
    var closed: bool
    var shut: nat  // how often the connection was shut

    ghost predicate Valid()
      reads this
    {
      shut == if closed then 1 else 0
    }

    ghost function View(): map<int, nat>
      reads this
    {
      map id | id in pending :: pending[id].call
    }

    constructor ()
      ensures Valid() && nextID == 0 && View() == map[] && !closed
    {
      nextID, pending, closed, shut := 0, map[], false, 0;
    }

    method Register(ghost s: State, call: nat) returns (id: int, waiter: Waiter)
      requires At(s, call, Idle) && nextID == s.nextID && View() == s.pending
      modifies this
      ensures fresh(waiter) && waiter.channel.None? && closed == old(closed) && shut == old(shut)
      ensures var s' := Apply(s, Event.Register(call)); nextID == id == s'.nextID && View() == s'.pending
      ensures id in pending && pending[id] == waiter
    {
      nextID := Increment(nextID);
      id := nextID;
      waiter := new Waiter(call);
      pending := pending[id := waiter];
    }

    method Unregister(ghost s: State, ghost call: nat, id: int)
      requires View() == s.pending && BidiClient.Valid(s, Event.Unregister(call)) && id == Id(s.calls[call].number)
      modifies `pending
      ensures View() == Apply(s, Event.Unregister(call)).pending
      ensures id !in pending
    {
      pending := pending - {id};
    }

    // dispatch, up to the send on the channel: which call does a message go to?
    method Dispatch(ghost s: State, m: Message) returns (waiter: Waiter?, reply: Option<Reply>)
      requires View() == s.pending && s.reader.Reading? && forall id :: id in s.pending ==> s.pending[id] < |s.calls|
      ensures var s' := Apply(s, Receive(m));
        s'.reader == if waiter == null then Reading else Delivering(waiter.call, reply.GetOr(Reply(0, Result(""))))
      // a waiter is found exactly for an answer to a pending command, and is handed what the answer says
      ensures waiter != null <==> m.Message? && m.kind != "event" && m.id.Some? && m.id.value in pending
      ensures waiter != null ==> waiter == pending[m.id.value] && reply.Some? && Says(m, reply.value)
    {
      waiter, reply := null, ReplyIn(m);
      if reply.Some? && reply.value.id in pending {
        assert reply.value.id in View();
        waiter := pending[reply.value.id];
      }
    }

    // Close, from any number of callers and from the reader that stops: the
    // connection is shut once, and the session reads as closed from then on.
    method Close(ghost s: State)
      requires Valid() && closed == s.closed
      modifies `closed, `shut
      ensures Valid() && shut == 1
      ensures closed == Apply(s, Event.Close).closed
      ensures s.reader.Reading? ==> closed == Apply(s, ReadFails).closed
    {
      if !closed {
        closed := true;
        shut := shut + 1;
      }
    }
  }
}
