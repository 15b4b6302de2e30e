/**
The WebDriver BiDi client (W3C WebDriver BiDi, section 3): any number of calls of
Send share one connection with one reader.  A call registers a one-place channel
under a new command id, writes, and waits; the reader hands each reply to the
channel registered under its id.  One step is one critical section, one write,
one channel operation or one message from the peer, which may send anything.
*/
module BidiClient {
  import opened Wrappers

  const WIDTH: nat := 0x1_0000_0000_0000_0000  // 2^64

  // The n-th id a counter of type int64 gives out, starting from zero.
  function Id(n: nat): int {
    if n % WIDTH < WIDTH / 2 then n % WIDTH else n % WIDTH - WIDTH
  }

  // One increment of an int64.
  function Increment(id: int): int {
    if id == WIDTH / 2 - 1 then -(WIDTH / 2) else id + 1
  }

  // A text frame: JSON with these members, or something unreadable.
  datatype Message =
    | Message(kind: string, id: Option<int>, error: string, message: string, result: string)
    | Unreadable

  datatype Body = Result(value: string) | Failure(reason: string)

  // The channel carries the body; the id is kept to state what is proved.
  datatype Reply = Reply(id: int, body: Body)

  // What dispatch makes of a message: the reply to hand on, if it is one.
  function ReplyIn(m: Message): Option<Reply> {
    if m.Unreadable? || m.kind == "event" || m.id.None? then None
    else if m.kind == "error" || m.error != "" then Some(Reply(m.id.value, Failure(m.error + ": " + m.message)))
    else Some(Reply(m.id.value, Result(m.result)))
  }

  datatype Outcome = Got(reply: Reply) | NotSent | SawClosed | GaveUp

  datatype Pc = Idle | Writing | Waiting | Leaving(out: Outcome) | Returned(out: Outcome)

  // One call of Send.  `number` is its place among all calls, `matched` counts
  // the replies the reader found this call's channel for.
  datatype Call = Call(pc: Pc, number: nat, channel: Option<Reply>, matched: nat)
  {
    predicate InFlight() { pc.Writing? || pc.Waiting? || pc.Leaving? }

    predicate Took() { (pc.Leaving? || pc.Returned?) && pc.out.Got? }
  }

  datatype Reader = Reading | Delivering(t: nat, reply: Reply) | Stopped

  // `begun`, `received` (ids of the replies that arrived) and `seen` are history.
  datatype State = State(
    nextID: int, pending: map<int, nat>, calls: seq<Call>, reader: Reader, closed: bool,
    begun: nat, received: multiset<int>, seen: set<Reply>)

  datatype Event =
    | Register(t: nat)
    | Write(t: nat, ok: bool)  // encoding or writing may fail
    | Take(t: nat)             // the three arms of the select
    | NoticeClosed(t: nat)
    | Cancel(t: nat)
    | Unregister(t: nat)       // the deferred delete
    | Receive(m: Message)
    | Deliver
    | ReadFails
    | Close

  ghost predicate Init(s: State) {
    && s.nextID == 0 && s.pending == map[] && s.reader.Reading? && !s.closed
    && s.begun == 0 && s.received == multiset{} && s.seen == {}
    && forall t :: 0 <= t < |s.calls| ==> s.calls[t] == Call(Idle, 0, None, 0)
  }

  predicate At(s: State, t: nat, pc: Pc) { t < |s.calls| && s.calls[t].pc == pc }

  predicate Valid(s: State, e: Event) {
    match e
    case Register(t) => At(s, t, Idle)
    case Write(t, _) => At(s, t, Writing)
    case Take(t) => At(s, t, Waiting) && s.calls[t].channel.Some?
    case NoticeClosed(t) => At(s, t, Waiting) && s.closed
    case Cancel(t) => At(s, t, Waiting)
    case Unregister(t) => t < |s.calls| && s.calls[t].pc.Leaving?
    case Receive(_) => s.reader.Reading?
    case Deliver => s.reader.Delivering? && s.reader.t < |s.calls| && s.calls[s.reader.t].channel.None?
    case ReadFails => s.reader.Reading?
    case Close => true
  }

  function Moved(s: State, t: nat, pc: Pc): State
    requires t < |s.calls|
  {
    s.(calls := s.calls[t := s.calls[t].(pc := pc)])
  }

  function Received(s: State, r: Reply): State {
    var s := s.(received := s.received + multiset{r.id}, seen := s.seen + {r});
    if r.id !in s.pending || s.pending[r.id] >= |s.calls| then s
    else
      var t := s.pending[r.id];
      s.(reader := Delivering(t, r), calls := s.calls[t := s.calls[t].(matched := s.calls[t].matched + 1)])
  }

  function Apply(s: State, e: Event): State
    requires Valid(s, e)
  {
    match e
    case Register(t) =>
      var id := Increment(s.nextID);
      s.(nextID := id, begun := s.begun + 1, pending := s.pending[id := t],
         calls := s.calls[t := Call(Writing, s.begun + 1, None, 0)])
    case Write(t, ok) => Moved(s, t, if ok then Waiting else Leaving(NotSent))
    case Take(t) =>
      s.(calls := s.calls[t := s.calls[t].(pc := Leaving(Got(s.calls[t].channel.value)), channel := None)])
    case NoticeClosed(t) => Moved(s, t, Leaving(SawClosed))
    case Cancel(t) => Moved(s, t, Leaving(GaveUp))
    case Unregister(t) => Moved(s, t, Returned(s.calls[t].pc.out)).(pending := s.pending - {Id(s.calls[t].number)})
    case Receive(m) => (match ReplyIn(m) case None => s case Some(r) => Received(s, r))
    case Deliver =>
      var t := s.reader.t;
      s.(reader := Reading, calls := s.calls[t := s.calls[t].(channel := Some(s.reader.reply))])
    case ReadFails => s.(reader := Stopped, closed := true)
    case Close => s.(closed := true)
  }

  // Ids.  -----------------------------------------------------------------------

  lemma IdSteps(n: nat)
    ensures Increment(Id(n)) == Id(n + 1)
  {
    if n % WIDTH == WIDTH - 1 {
      assert n + 1 == (n / WIDTH + 1) * WIDTH;
      assert (n + 1) % WIDTH == 0;
    } else {
      assert n + 1 == (n / WIDTH) * WIDTH + (n % WIDTH + 1);
      assert (n + 1) % WIDTH == n % WIDTH + 1;
    }
  }

  // Two commands share an id exactly when a multiple of 2^64 commands lies
  // between them.
  lemma IdsCollide(a: nat, b: nat)
    requires a <= b
    ensures Id(a) == Id(b) <==> (b - a) % WIDTH == 0
  {
    var d := b % WIDTH - a % WIDTH;
    assert b - a == (b / WIDTH - a / WIDTH) * WIDTH + d;
    if Id(a) == Id(b) {
      assert d == 0;
    } else {
      assert d != 0 && 0 - WIDTH < d < WIDTH;
    }
  }

  // The invariant.  ---------------------------------------------------------------

  ghost predicate CallOk(s: State, t: nat)
    requires t < |s.calls|
  {
    var c := s.calls[t];
    var id := Id(c.number);
    if c.pc.Idle? then c == Call(Idle, 0, None, 0)
    else
      && 1 <= c.number <= s.begun
      && (c.InFlight() ==> id in s.pending && s.pending[id] == t)
      && (c.channel.Some? ==> c.channel.value.id == id && c.channel.value in s.seen)
      && (c.Took() ==> c.pc.out.reply.id == id && c.pc.out.reply in s.seen)
      && c.matched == Taken(c) + Full(c) + Held(s, t)
      && c.matched <= s.received[id]
  }

  function Taken(c: Call): nat { if c.Took() then 1 else 0 }

  function Full(c: Call): nat { if c.channel.Some? then 1 else 0 }

  function Held(s: State, t: nat): nat { if s.reader.Delivering? && s.reader.t == t then 1 else 0 }

  ghost predicate ReaderOk(s: State) {
    && (s.reader.Delivering? ==>
          && s.reader.t < |s.calls| && !s.calls[s.reader.t].pc.Idle?
          && s.reader.reply.id == Id(s.calls[s.reader.t].number) && s.reader.reply in s.seen)
    && (s.reader.Stopped? ==> s.closed)
  }

  ghost predicate PendingOk(s: State) {
    forall id :: id in s.pending ==>
      s.pending[id] < |s.calls| && s.calls[s.pending[id]].InFlight() && Id(s.calls[s.pending[id]].number) == id
  }

  // Calls keep different numbers.
  ghost predicate Numbered(s: State) {
    forall t, u :: 0 <= t < u < |s.calls| && !s.calls[t].pc.Idle? && !s.calls[u].pc.Idle? ==>
      s.calls[t].number != s.calls[u].number
  }

  ghost predicate Inv(s: State) {
    && s.nextID == Id(s.begun)
    && (s.begun <= WIDTH ==>
          && Numbered(s) && PendingOk(s) && ReaderOk(s)
          && forall t :: 0 <= t < |s.calls| ==> CallOk(s, t))
  }

  // The id of the next command belongs to no earlier one.
  lemma NextIdIsNew(s: State, t: nat)
    requires Inv(s) && s.begun < WIDTH && t < |s.calls| && !s.calls[t].pc.Idle?
    ensures Increment(s.nextID) == Id(s.begun + 1) != Id(s.calls[t].number)
  {
    assert CallOk(s, t);
    IdSteps(s.begun);
    IdsCollide(s.calls[t].number, s.begun + 1);
  }

  lemma RegisterKeeps(s: State, t: nat)
    requires Inv(s) && Valid(s, Register(t))
    ensures Inv(Apply(s, Register(t)))
  {
    IdSteps(s.begun);
    if s.begun < WIDTH {
      hide Id, Increment;
      forall u: nat | u < |s.calls| && !s.calls[u].pc.Idle?
        ensures Increment(s.nextID) == Id(s.begun + 1) != Id(s.calls[u].number)
      {
        NextIdIsNew(s, u);
      }
      var s' := Apply(s, Register(t));
      assert forall u :: 0 <= u < |s.calls| ==> CallOk(s, u);
      forall u | 0 <= u < |s.calls| ensures CallOk(s', u) {
        assert CallOk(s, u);
      }
    }
  }

  lemma ReceiveKeeps(s: State, r: Reply)
    requires Inv(s) && s.reader.Reading?
    ensures Inv(Received(s, r))
  {
    hide Id;
    if s.begun <= WIDTH {
      var s' := Received(s, r);
      forall u | 0 <= u < |s.calls| ensures CallOk(s', u) {
        assert CallOk(s, u);
      }
    }
  }

  lemma DistinctIds(s: State, t: nat, u: nat)
    requires Inv(s) && s.begun <= WIDTH && t < |s.calls| && u < |s.calls| && t != u
    requires !s.calls[t].pc.Idle? && !s.calls[u].pc.Idle?
    ensures Id(s.calls[t].number) != Id(s.calls[u].number)
  {
    assert CallOk(s, t) && CallOk(s, u);
    var a, b := s.calls[t].number, s.calls[u].number;
    assert Numbered(s);
    assert a != b by { if t < u {} else { assert u < t; } }
    if a < b { IdsCollide(a, b); } else { IdsCollide(b, a); }
  }

  lemma UnregisterKeeps(s: State, t: nat)
    requires Inv(s) && Valid(s, Unregister(t))
    ensures Inv(Apply(s, Unregister(t)))
  {
    if s.begun <= WIDTH {
      var s' := Apply(s, Unregister(t));
      forall u: nat | u < |s.calls| && u != t && !s.calls[u].pc.Idle?
        ensures Id(s.calls[u].number) != Id(s.calls[t].number)
      {
        DistinctIds(s, u, t);
      }
      hide Id;
      forall u | 0 <= u < |s.calls| ensures CallOk(s', u) {
        assert CallOk(s, u);
      }
    }
  }

  lemma DeliverKeeps(s: State)
    requires Inv(s) && Valid(s, Deliver)
    ensures Inv(Apply(s, Deliver))
  {
    hide Id;
    if s.begun <= WIDTH {
      var s' := Apply(s, Deliver);
      forall u | 0 <= u < |s.calls| ensures CallOk(s', u) {
        assert CallOk(s, u);
      }
    }
  }

  lemma TakeKeeps(s: State, t: nat)
    requires Inv(s) && Valid(s, Take(t))
    ensures Inv(Apply(s, Take(t)))
  {
    hide Id;
    if s.begun <= WIDTH {
      var s' := Apply(s, Take(t));
      forall u | 0 <= u < |s.calls| ensures CallOk(s', u) {
        assert CallOk(s, u);
      }
    }
  }

  // A call moves on without a reply.
  lemma MoveKeeps(s: State, t: nat, pc: Pc)
    requires Inv(s) && t < |s.calls| && (s.calls[t].pc.Writing? || s.calls[t].pc.Waiting?)
    requires pc.Waiting? || (pc.Leaving? && !pc.out.Got?)
    ensures Inv(Moved(s, t, pc))
  {
    hide Id;
    if s.begun <= WIDTH {
      forall u | 0 <= u < |s.calls| ensures CallOk(Moved(s, t, pc), u) {
        assert CallOk(s, u);
      }
    }
  }

  lemma CloseKeeps(s: State, reader: Reader)
    requires Inv(s) && (reader == s.reader || (s.reader.Reading? && reader.Stopped?))
    ensures Inv(s.(closed := true, reader := reader))
  {
    hide Id;
    if s.begun <= WIDTH {
      forall u | 0 <= u < |s.calls| ensures CallOk(s.(closed := true, reader := reader), u) {
        assert CallOk(s, u);
      }
    }
  }

  lemma ApplyKeeps(s: State, e: Event)
    requires Inv(s) && Valid(s, e)
    ensures Inv(Apply(s, e))
  {
    hide Inv;
    match e {
      case Register(t) => RegisterKeeps(s, t);
      case Write(t, ok) => MoveKeeps(s, t, if ok then Waiting else Leaving(NotSent));
      case Take(t) => TakeKeeps(s, t);
      case NoticeClosed(t) => MoveKeeps(s, t, Leaving(SawClosed));
      case Cancel(t) => MoveKeeps(s, t, Leaving(GaveUp));
      case Unregister(t) => UnregisterKeeps(s, t);
      case Receive(m) => if ReplyIn(m).Some? { ReceiveKeeps(s, ReplyIn(m).value); }
      case Deliver => DeliverKeeps(s);
      case ReadFails => CloseKeeps(s, Stopped);
      case Close => CloseKeeps(s, s.reader);
    }
  }

  // Runs.  ------------------------------------------------------------------------

  ghost predicate IsRun(states: seq<State>, es: seq<Event>) {
    && |states| == |es| + 1 && Init(states[0])
    && forall n :: 0 <= n < |es| ==> Valid(states[n], es[n]) && states[n + 1] == Apply(states[n], es[n])
  }

  lemma {:induction false} Reachable(states: seq<State>, es: seq<Event>, n: nat)
    requires IsRun(states, es) && n < |states|
    ensures Inv(states[n])
  {
    if n > 0 {
      Reachable(states, es, n - 1);
      ApplyKeeps(states[n - 1], es[n - 1]);
    }
  }

  // Up to 2^64 commands, no id is given out twice.
  lemma IdsAreNeverReused(states: seq<State>, es: seq<Event>, n: nat, t: nat, u: nat)
    requires IsRun(states, es) && n < |states| && states[n].begun <= WIDTH
    requires t < |states[n].calls| && u < |states[n].calls| && t != u
    requires !states[n].calls[t].pc.Idle? && !states[n].calls[u].pc.Idle?
    ensures Id(states[n].calls[t].number) != Id(states[n].calls[u].number)
  {
    Reachable(states, es, n);
    DistinctIds(states[n], t, u);
  }

  // The table holds the ids of the calls in flight, each with its own channel,
  // and nothing else.
  lemma TableIsInFlight(states: seq<State>, es: seq<Event>, n: nat, id: int, t: nat)
    requires IsRun(states, es) && n < |states| && states[n].begun <= WIDTH
    ensures var s := states[n];
      id in s.pending && s.pending[id] == t <==>
      t < |s.calls| && s.calls[t].InFlight() && Id(s.calls[t].number) == id
  {
    hide Id;
    Reachable(states, es, n);
    if t < |states[n].calls| { assert CallOk(states[n], t); }
  }

  // A call that returns a reply returns one that arrived and carries its own id.
  lemma OwnReply(states: seq<State>, es: seq<Event>, n: nat, t: nat)
    requires IsRun(states, es) && n < |states| && states[n].begun <= WIDTH
    requires t < |states[n].calls| && states[n].calls[t].Took()
    ensures var s := states[n]; var r := s.calls[t].pc.out.reply;
      r.id == Id(s.calls[t].number) && r in s.seen
  {
    Reachable(states, es, n);
    assert CallOk(states[n], t);
  }

  // What the peer says about command r.id in message m is r: an error, with its
  // code and its text, if the message is one, and otherwise a result.
  predicate Says(m: Message, r: Reply) {
    && m.Message? && m.kind != "event" && m.id == Some(r.id)
    && (r.body.Failure? <==> m.kind == "error" || m.error != "")
    && (r.body.Failure? ==> r.body.reason == m.error + ": " + m.message)
    && (r.body.Result? ==> r.body.value == m.result)
  }

  // An answer to command id, whatever it says.
  predicate Answers(m: Message, id: int) { m.Message? && m.kind != "event" && m.id == Some(id) }

  lemma SeenStep(s: State, e: Event, r: Reply)
    requires Valid(s, e)
    ensures r in Apply(s, e).seen <==> r in s.seen || (e.Receive? && Says(e.m, r))
  {
    hide Id;
  }

  // The replies that arrived are what the peer's messages say.
  lemma {:induction false} SeenExactly(states: seq<State>, es: seq<Event>, n: nat, r: Reply)
    requires IsRun(states, es) && n < |states|
    ensures r in states[n].seen <==> exists m :: 0 <= m < n && es[m].Receive? && Says(es[m].m, r)
  {
    hide Says, Apply;
    if n > 0 {
      SeenExactly(states, es, n - 1, r);
      SeenStep(states[n - 1], es[n - 1], r);
    }
  }

  // A call that returns a reply returns what an earlier message of the peer says
  // about this very command.
  lemma ReplyIsWhatWasSaid(states: seq<State>, es: seq<Event>, n: nat, t: nat) returns (m: nat)
    requires IsRun(states, es) && n < |states| && states[n].begun <= WIDTH
    requires t < |states[n].calls| && states[n].calls[t].Took()
    ensures var r := states[n].calls[t].pc.out.reply;
      m < n && es[m].Receive? && Says(es[m].m, r) && r.id == Id(states[n].calls[t].number)
  {
    OwnReply(states, es, n, t);
    var r := states[n].calls[t].pc.out.reply;
    SeenExactly(states, es, n, r);
    m :| 0 <= m < n && es[m].Receive? && Says(es[m].m, r);
  }

  // An answer goes to the call in flight with its id; without one, and for any
  // other message, the reader reads on.
  lemma AnswerGoesToItsCall(states: seq<State>, es: seq<Event>, n: nat, t: nat)
    requires IsRun(states, es) && n < |es| && states[n].begun <= WIDTH && es[n].Receive?
    ensures var s, s', m := states[n], states[n + 1], es[n].m;
      && (s'.reader.Delivering? && s'.reader.t == t <==>
            t < |s.calls| && s.calls[t].InFlight() && Answers(m, Id(s.calls[t].number)))
      && (s'.reader.Delivering? ==> Says(m, s'.reader.reply))
      && (s'.reader.Delivering? || s'.reader.Reading?)
  {
    hide Id;
    Reachable(states, es, n);
    if t < |states[n].calls| { assert CallOk(states[n], t); }
  }

  // Why a call stops waiting.
  predicate Ends(s: State, e: Event, t: nat, out: Outcome) {
    match out
    case Got(r) => e == Take(t) && t < |s.calls| && s.calls[t].channel == Some(r)
    case NotSent => e == Write(t, false)
    case SawClosed => e == NoticeClosed(t) && s.closed
    case GaveUp => e == Cancel(t)
  }

  predicate Over(c: Call) { c.pc.Leaving? || c.pc.Returned? }

  lemma EndStep(s: State, e: Event, t: nat)
    requires Valid(s, e) && t < |s.calls|
    ensures var s' := Apply(s, e);
      && |s'.calls| == |s.calls|
      && (Over(s'.calls[t]) <==> Over(s.calls[t]) || exists out :: Ends(s, e, t, out))
      && (Over(s'.calls[t]) ==>
            if Over(s.calls[t]) then s'.calls[t].pc.out == s.calls[t].pc.out else Ends(s, e, t, s'.calls[t].pc.out))
  {
    hide Id, ReplyIn;
    var c' := Apply(s, e).calls[t];
    if Over(c') && !Over(s.calls[t]) { assert Ends(s, e, t, c'.pc.out); }
  }

  // A call ends for one of four reasons, and its outcome names it: the reply in
  // its channel was read, its command could not be written, it saw the session
  // closed, or its caller gave up.
  lemma {:induction false} OutcomeIsItsCause(states: seq<State>, es: seq<Event>, n: nat, t: nat) returns (m: nat)
    requires IsRun(states, es) && n < |states| && t < |states[n].calls| && Over(states[n].calls[t])
    ensures m < n && Ends(states[m], es[m], t, states[n].calls[t].pc.out)
  {
    hide Apply, Valid, Ends;
    assert n != 0;
    CallsStay(states[n - 1], es[n - 1]);
    EndStep(states[n - 1], es[n - 1], t);
    if Over(states[n - 1].calls[t]) {
      m := OutcomeIsItsCause(states, es, n - 1, t);
    } else {
      m := n - 1;
    }
  }

  lemma CallsStay(s: State, e: Event)
    requires Valid(s, e)
    ensures |Apply(s, e).calls| == |s.calls| && Apply(s, e).closed == (s.closed || e.Close? || e.ReadFails?)
  {
    hide Id, ReplyIn;
  }

  // The session is closed once somebody closed it or the reader could not read on.
  lemma {:induction false} ClosedExactly(states: seq<State>, es: seq<Event>, n: nat)
    requires IsRun(states, es) && n < |states|
    ensures states[n].closed <==> exists m :: 0 <= m < n && (es[m].Close? || es[m].ReadFails?)
  {
    hide Apply, Valid;
    if n > 0 {
      ClosedExactly(states, es, n - 1);
      CallsStay(states[n - 1], es[n - 1]);
    }
  }

  // Every reply matched to a call was taken by it, is in its channel, or is in
  // the reader's hands: none is lost and none is delivered twice.
  lemma RepliesAreConserved(states: seq<State>, es: seq<Event>, n: nat, t: nat)
    requires IsRun(states, es) && n < |states| && states[n].begun <= WIDTH && t < |states[n].calls|
    ensures var s := states[n]; var c := s.calls[t];
      c.matched == Taken(c) + Full(c) + Held(s, t) && (!c.pc.Idle? ==> c.matched <= s.received[Id(c.number)])
  {
    Reachable(states, es, n);
    assert CallOk(states[n], t) && ReaderOk(states[n]);
  }

  // Delivery waits only for an earlier reply to the same id that is still
  // unread.  If the peer has answered the id at most once, the reader can
  // deliver, whether or not the call is still waiting.
  lemma DeliveryNeverBlocks(states: seq<State>, es: seq<Event>, n: nat)
    requires IsRun(states, es) && n < |states| && states[n].begun <= WIDTH && states[n].reader.Delivering?
    ensures var s := states[n]; var r := s.reader.reply;
      && (!Valid(s, Deliver) ==> s.reader.t < |s.calls| && s.calls[s.reader.t].channel.Some?
                                 && s.calls[s.reader.t].channel.value.id == r.id && s.received[r.id] >= 2)
      && (s.received[r.id] <= 1 ==> Valid(s, Deliver))
  {
    var s := states[n];
    Reachable(states, es, n);
    assert CallOk(s, s.reader.t);
  }

  // The reader blocked for good: its channel is full and nobody will read it.
  ghost predicate Stuck(s: State) {
    && s.reader.Delivering? && s.reader.t < |s.calls|
    && var c := s.calls[s.reader.t]; c.channel.Some? && (c.pc.Leaving? || c.pc.Returned?)
  }

  lemma StuckStep(s: State, e: Event)
    requires Stuck(s) && Valid(s, e)
    ensures Stuck(Apply(s, e)) && Apply(s, e).reader == s.reader
  {
    hide Id, ReplyIn;
  }

  lemma {:induction false} StuckForever(states: seq<State>, es: seq<Event>, n: nat, later: nat)
    requires IsRun(states, es) && n <= later < |states| && Stuck(states[n])
    ensures Stuck(states[later]) && states[later].reader == states[n].reader
  {
    hide Stuck, Apply, Valid;
    if later > n {
      StuckForever(states, es, n, later - 1);
      StuckStep(states[later - 1], es[later - 1]);
    }
  }

  // Continuations of a state.
  ghost predicate Plays(s: State, later: seq<Event>)
    decreases |later|
  {
    later == [] || (Valid(s, later[0]) && Plays(Apply(s, later[0]), later[1..]))
  }

  ghost function After(s: State, later: seq<Event>): State
    requires Plays(s, later)
    decreases |later|
  {
    if later == [] then s else After(Apply(s, later[0]), later[1..])
  }

  lemma {:induction false} StuckStays(s: State, later: seq<Event>)
    requires Stuck(s) && Plays(s, later)
    ensures Stuck(After(s, later))
    decreases |later|
  {
    hide Stuck, Apply, Valid;
    if later != [] {
      StuckStep(s, later[0]);
      StuckStays(Apply(s, later[0]), later[1..]);
    }
  }

  // The reader can still come to deliver.
  ghost predicate Freeable(s: State) {
    exists later :: Plays(s, later) && Valid(After(s, later), Deliver)
  }

  lemma StuckIsNotFreeable(s: State)
    requires Stuck(s)
    ensures !Freeable(s)
  {
    forall later | Plays(s, later) ensures !Valid(After(s, later), Deliver) { StuckStays(s, later); }
  }

  // While the call still waits, its next read lets the reader go on; one that is
  // still writing can come to wait first.
  lemma FreedByReading(s: State)
    requires s.reader.Delivering? && s.reader.t < |s.calls| && s.calls[s.reader.t].channel.Some?
    requires s.calls[s.reader.t].pc.Waiting? || s.calls[s.reader.t].pc.Writing?
    ensures Freeable(s)
  {
    var write, take := Write(s.reader.t, true), Take(s.reader.t);
    if s.calls[s.reader.t].pc.Waiting? {
      Continued(s, take, []);
      assert Valid(After(s, [take]), Deliver);
    } else {
      Continued(Apply(s, write), take, []);
      Continued(s, write, [take]);
      assert Valid(After(s, [write] + [take]), Deliver);
    }
  }

  lemma Continued(s: State, e: Event, later: seq<Event>)
    requires Valid(s, e) && Plays(Apply(s, e), later)
    ensures Plays(s, [e] + later) && After(s, [e] + later) == After(Apply(s, e), later)
  {
    assert ([e] + later)[1..] == later;
  }

  // A reader that cannot deliver is blocked for good, whatever happens next,
  // exactly when the call it delivers to has stopped reading.
  lemma BlockedForGoodExactly(states: seq<State>, es: seq<Event>, n: nat)
    requires IsRun(states, es) && n < |states| && states[n].begun <= WIDTH
    requires states[n].reader.Delivering? && !Valid(states[n], Deliver)
    ensures var s := states[n];
      && s.reader.t < |s.calls|
      && var pc := s.calls[s.reader.t].pc;
        && (!Freeable(s) <==> pc.Leaving? || pc.Returned?)
        && (!Freeable(s) <==> Stuck(s))
  {
    var s := states[n];
    Reachable(states, es, n);
    assert CallOk(s, s.reader.t);
    if Stuck(s) { StuckIsNotFreeable(s); } else { FreedByReading(s); }
    hide Freeable;
  }

  // The condition on the peer is needed: one call, two answers, and a sender
  // that gave up leave the reader stuck, even after the session is closed.
  const ANSWER := Message("success", Some(1), "", "", "")

  function Moves(n: nat): Event {
    if n == 0 then Register(0)
    else if n == 1 then Write(0, true)
    else if n == 2 || n == 4 then Receive(ANSWER)
    else if n == 3 then Deliver
    else if n == 5 then Cancel(0)
    else Close
  }

  // The states of that run.
  function Moment(n: nat): State {
    var r := Reply(1, Result(""));
    var pc := if n == 0 then Idle else if n == 1 then Writing else if n < 6 then Waiting else Leaving(GaveUp);
    var matched := if n < 3 then 0 else if n < 5 then 1 else 2;
    State(
      if n == 0 then 0 else 1, if n == 0 then map[] else map[1 := 0],
      [Call(pc, if n == 0 then 0 else 1, if n < 4 then None else Some(r), matched)],
      if n == 3 || n >= 5 then Delivering(0, r) else Reading, n >= 7,
      if n == 0 then 0 else 1, multiset{}[1 := matched], if n < 3 then {} else {r})
  }

  lemma MomentStep(n: nat)
    requires n < 7
    ensures Valid(Moment(n), Moves(n)) && Moment(n + 1) == Apply(Moment(n), Moves(n))
  {
    var s, s' := Moment(n), Apply(Moment(n), Moves(n));
    assert ReplyIn(ANSWER) == Some(Reply(1, Result("")));
    assert s'.calls == Moment(n + 1).calls;
    assert s'.received == Moment(n + 1).received;
    assert s'.pending == Moment(n + 1).pending;
  }

  lemma DuplicateAnswerSticks()
    ensures exists states: seq<State>, es: seq<Event> ::
      && IsRun(states, es) && |es| == 7 && Stuck(states[7]) && states[7].closed
      && forall n :: 0 <= n < 7 && es[n].Receive? ==> es[n].m == ANSWER
  {
    hide Moment, Apply, Valid;
    var states, es := seq(8, n requires 0 <= n < 8 => Moment(n)), seq(7, n requires 0 <= n < 7 => Moves(n));
    forall n | 0 <= n < 7 ensures Valid(states[n], es[n]) && states[n + 1] == Apply(states[n], es[n]) {
      MomentStep(n);
    }
    assert Init(states[0]) && Stuck(states[7]) && states[7].closed by { MomentEnds(); }
    assert IsRun(states, es);
  }

  lemma MomentEnds()
    ensures Init(Moment(0)) && Stuck(Moment(7)) && Moment(7).closed
  {
    var none: multiset<int> := multiset{};
    assert none[1 := 0] == none;
  }
}
