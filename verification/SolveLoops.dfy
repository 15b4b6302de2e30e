/**
The challenge pipeline and the three backends' solve loops, over a page that may
answer anything: a finite script of answers, after which the context is done and
every call fails.  The log records what was asked and what came back.
*/
module SolveLoops {

  datatype Probe = Present | Absent | Broken

  // One answer of the page, of the clock, or of a helper.  A call picks the part
  // it asked for.
  datatype Answer = Answer(
    probe: Probe, failed: bool, late: bool, yes: bool, relevant: bool, fallback: bool, title: string)

  const EXPIRED := Answer(Broken, true, true, false, false, false, "")

  // ReadToken stands for the token stage of the backend at hand.
  datatype Question =
    | Block | Navigate | SetCookies | Html | Title | DeniedBy(selector: string) | WaitFor
    | ReadUrl | ReadUserAgent | ReadCookies | ReadResponse | ReadToken | ReadHtml | ReadScreenshot

  // Probed is the pipeline or a solve loop asking whether the challenge is there.
  // Peeked is a click helper asking the same; the loops ignore what it saw.
  // Began marks the start of a solve loop, Laddered a round of clicks.
  datatype Step =
    | Began
    | Probed(probe: Probe)
    | Peeked(seen: Probe)
    | Looked(controls: bool)
    | Slept(woke: bool)
    | Laddered
    | Clicked
    | Wiggled
    | Polled(done: bool)
    | TokenRead(found: bool)
    | Timed(late: bool)
    | Sought(found: bool)
    | Asked(question: Question)
    | Broke  // a call failed whose error ends the request

  // A call that failed for good: a probe, or a wait that was cut short.
  predicate Cut(s: Step) { s == Probed(Broken) || s == Slept(false) }

  // What a log amounts to: the pipeline's own probes, these and its questions in
  // the order they were made.
  datatype Record = Record(probes: seq<Probe>, events: seq<Step>)

  function Tell(r: Record, s: Step): Record {
    match s
    case Probed(p) => Record(r.probes + [p], r.events + [s])
    case Asked(_) => r.(events := r.events + [s])
    case _ => r
  }

  // And since the solve loop began, how many rounds at the end reported no
  // controls, how many looked for controls, how many found some, and how often it
  // clicked or found no token.  `breaks` counts the failed calls, of the whole
  // request, whose errors are not ignored.
  datatype Count = Count(
    streak: nat, looks: nat, controls: nat, ladders: nat, clicks: nat, misses: nat, breaks: nat)

  function Tally(c: Count, s: Step): Count {
    match s
    case Began => Count(0, 0, 0, 0, 0, 0, c.breaks)
    case Looked(controls) =>
      if controls then c.(streak := 0, looks := c.looks + 1, controls := c.controls + 1)
      else c.(streak := c.streak + 1, looks := c.looks + 1)
    case Laddered => c.(ladders := c.ladders + 1)
    case Clicked => c.(clicks := c.clicks + 1)
    case TokenRead(found) => if found then c else c.(misses := c.misses + 1)
    case Broke => c.(breaks := c.breaks + 1)
    case _ => c
  }

  predicate OnlyClicks(c: Count, c': Count) {
    c'.streak == c.streak && c'.looks == c.looks && c'.controls == c.controls && c'.misses == c.misses
  }

  // Probes made one after the other, and questions asked one after the other.
  function Saw(probes: seq<Probe>): seq<Step> {
    seq(|probes|, i requires 0 <= i < |probes| => Probed(probes[i]))
  }

  function Asks(questions: seq<Question>): seq<Step> {
    seq(|questions|, i requires 0 <= i < |questions| => Asked(questions[i]))
  }

  lemma SawMore(a: seq<Probe>, b: seq<Probe>)
    ensures Saw(a + b) == Saw(a) + Saw(b)
  {
  }

  lemma AsksMore(a: seq<Question>, b: seq<Question>)
    ensures Asks(a + b) == Asks(a) + Asks(b)
  {
  }

  // r with more probes and nothing else.
  function Seen(r: Record, seen: seq<Probe>): Record {
    Record(r.probes + seen, r.events + Saw(seen))
  }

  function Story(log: seq<Step>): Record {
    if log == [] then Record([], []) else Tell(Story(log[..|log| - 1]), log[|log| - 1])
  }

  function Score(log: seq<Step>): Count {
    if log == [] then Count(0, 0, 0, 0, 0, 0, 0) else Tally(Score(log[..|log| - 1]), log[|log| - 1])
  }

  lemma SeenNothing(r: Record)
    ensures Seen(r, []) == r
  {
    assert Saw([]) == [];
  }

  lemma SeenMoreOf(r: Record, seen: seq<Probe>, more: seq<Probe>)
    ensures Seen(Seen(r, seen), more) == Seen(r, seen + more)
  {
    SawMore(seen, more);
  }

  lemma StoryGrows(log: seq<Step>, s: Step)
    ensures Story(log + [s]) == Tell(Story(log), s) && Score(log + [s]) == Tally(Score(log), s)
  {
    assert (log + [s])[..|log|] == log;
  }

  predicate AllPresent(probes: seq<Probe>) { forall k :: 0 <= k < |probes| ==> probes[k].Present? }

  // The challenge was there at every probe but the last, which said it was gone.
  predicate SeenGone(probes: seq<Probe>) {
    |probes| > 0 && probes[|probes| - 1].Absent? && AllPresent(probes[..|probes| - 1])
  }

  // It was there at every probe, except that the last one may have failed.
  predicate NeverGone(probes: seq<Probe>) {
    AllPresent(probes) || (|probes| > 0 && probes[|probes| - 1].Broken? && AllPresent(probes[..|probes| - 1]))
  }

  // What a solve loop's result says about its probes.
  predicate Honest(cleared: bool, seen: seq<Probe>) {
    if cleared then SeenGone(seen) else NeverGone(seen)
  }

  datatype Outcome = Cleared | Failed | Passive | NotCleared(clicks: nat)

  // `tabs`: the caller asked for a token.
  datatype Request = Request(
    cookies: bool, logHtml: bool, wait: bool, tabs: bool, onlyCookies: bool, screenshot: bool)

  // Resolved(true) carries the message "Challenge solved!", Resolved(false)
  // "Challenge not detected!".
  datatype Resolution = Resolved(solved: bool) | Denied | Unsolved | Failure

  const DENIED_TITLES := ["Access denied", "Attention Required! | Cloudflare"]
  const DENIED_SELECTORS := ["div.cf-error-title span.cf-code-label span", "#cf-error-details div.cf-error-overview h1"]

  // The questions whose errors end the request; those of the others are logged.
  predicate Critical(q: Question) { !q.Block? && !q.Html? && !q.ReadResponse? && !q.ReadToken? }

  // A refusal by its title, however it goes on.
  predicate TitleDenied(title: string) {
    "Access denied" <= title || "Attention Required! | Cloudflare" <= title
  }

  // The pipeline as its documentation lists it.
  function Opening(req: Request): seq<Question> {
    [Block, Navigate] + (if req.cookies then [SetCookies, Navigate] else []) + (if req.logHtml then [Html] else [])
  }

  const TURNSTILE_SELECTORS := ["input[name='cf-turnstile-response']"]

  const CHECKING: seq<Question> := [Title, DeniedBy(DENIED_SELECTORS[0]), DeniedBy(DENIED_SELECTORS[1])]

  function Reading(req: Request): seq<Question> {
    [ReadUrl, ReadUserAgent, ReadCookies, ReadResponse, ReadToken]
    + (if req.onlyCookies then [] else [ReadHtml]) + (if req.screenshot then [ReadScreenshot] else [])
  }

  // With the pipeline's probes where they belong: after the checks and before
  // every read of what goes into the result.
  function Itinerary(req: Request, seen: seq<Probe>): seq<Step> {
    Asks(Opening(req) + CHECKING) + Saw(seen) + Asks(Closing(req))
  }

  function Closing(req: Request): seq<Question> {
    (if req.wait then [WaitFor] else []) + Reading(req)
  }

  datatype Backend = WebDriver | Gecko | Chromedp

  const PASSIVE_BAILOUT := 3
  const MAX_ATTEMPTS := 30
  const FIRST_CLICK_ATTEMPT := 3
  const CLICK_EVERY := 6

  class Page {
    const script: seq<Answer>
    var next: nat
    ghost var log: seq<Step>

    ghost predicate Valid()
      reads `next
    {
      next <= |script|
    }

    ghost function Told(): Record
      reads `log
    {
      Story(log)
    }

    ghost function Counts(): Count
      reads `log
    {
      Score(log)
    }

    // The script's n-th answer, for any n.
    function At(n: nat): Answer { if n < |script| then script[n] else EXPIRED }

    // The latest thing that happened.
    ghost function End(): Step
      reads `log
    {
      if log == [] then Began else log[|log| - 1]
    }

    constructor (script: seq<Answer>)
      ensures Valid() && this.script == script && next == 0 && log == []
    {
      this.script, next, log := script, 0, [];
    }

    method Next() returns (a: Answer)
      requires Valid()
      modifies `next
      ensures Valid() && next >= old(next)
      ensures a == At(old(next)) && next == (if old(next) < |script| then old(next) + 1 else old(next))
      ensures next == old(next) ==> a == EXPIRED
    {
      if next == |script| { return EXPIRED; }
      a := script[next];
      next := next + 1;
    }

    ghost method Note(s: Step)
      modifies `log
      ensures log == old(log) + [s] && Told() == Tell(old(Told()), s)
      ensures Counts() == Tally(old(Counts()), s) && End() == s
    {
      StoryGrows(log, s);
      log := log + [s];
    }

    // challengePresent, asked by the pipeline or a solve loop
    method ChallengePresent() returns (p: Probe)
      requires Valid()
      modifies this
      ensures Valid() && next >= old(next) && (next == old(next) ==> p.Broken?)
      ensures Told() == Seen(old(Told()), [p]) && Counts() == old(Counts()) && End() == Probed(p)
      ensures p == At(old(next)).probe
    {
      var a := Next();
      p := a.probe;
      assert Saw([p]) == [Probed(p)];
      Note(Probed(p));
    }

    method Sleep() returns (woke: bool)
      requires Valid()
      modifies this
      ensures Valid() && next >= old(next) && (next == old(next) ==> !woke)
      ensures Told() == old(Told()) && Counts() == old(Counts()) && woke == !At(old(next)).failed
      ensures End() == Slept(woke)
    {
      var a := Next();
      woke := !a.failed;
      Note(Slept(woke));
    }

    // waitChallengeClear, which only the click helpers call
    method WaitChallengeClear() returns (cleared: bool)
      requires Valid()
      modifies this
      ensures Valid() && next >= old(next) && Told() == old(Told()) && Counts() == old(Counts())
      ensures cleared <==> End() == Peeked(Absent)
    {
      var woke := Sleep();
      if !woke { return false; }
      var a := Next();
      Note(Peeked(a.probe));
      return a.probe.Absent?;
    }

    // clickVerify: any number of clicks, each followed by a wait and a look.  One
    // that answers absent may end the ladder of clicks: it does after a step, and
    // not inside the frame step, after which it is asked again.  The one error is
    // the wait at the end.
    // The token stage counts it, the solve loops ignore it.
    method ClickVerify(ghost counted: bool) returns (ok: bool)
      requires Valid()
      modifies this
      ensures Valid() && next >= old(next) && (next == old(next) ==> !ok)
      ensures Told() == old(Told()) && Counts().ladders == old(Counts()).ladders + 1
      ensures OnlyClicks(old(Counts()), Counts())
      ensures Counts().breaks == old(Counts()).breaks + if counted && !ok then 1 else 0
      ensures !counted ==> (ok <==> End() != Slept(false))
    {
      hide Story, Score, End;
      Note(Laddered);
      var a := Next();
      while a.yes
        invariant Valid() && next >= old(next) && (next == old(next) ==> !a.yes)
        invariant Told() == old(Told())
        invariant OnlyClicks(old(Counts()), Counts()) && Counts().ladders == old(Counts()).ladders + 1
        invariant Counts().breaks == old(Counts()).breaks
        decreases |script| - next, a.yes
      {
        Note(Clicked);
        var cleared := WaitChallengeClear();
        if cleared {
          var ladder := Next();
          if !ladder.yes { return true; }
        }
        a := Next();
      }
      ok := Sleep();
      if counted && !ok { Note(Broke); }
    }

    // clickTargets: are there targets of either kind?  It looks whether a challenge
    // is on screen before it walks the shadow roots.
    method ClickTargets() returns (relevant: bool, fallback: bool)
      requires Valid()
      modifies this
      ensures Valid() && next >= old(next)
      ensures Told() == old(Told()) && Counts() == Tally(old(Counts()), Looked(relevant || fallback))
      ensures End() == Looked(relevant || fallback)
      // by what the two answers say
      ensures var a, b := At(old(next)), At(old(next) + 1);
        && (relevant <==> !a.failed && (a.relevant || (a.yes && b.probe.Present? && b.yes)))
        && (fallback <==> !a.failed && a.fallback)
    {
      hide Story, Score;
      var a := Next();
      relevant, fallback := !a.failed && a.relevant, !a.failed && a.fallback;
      if !a.failed && a.yes {
        var b := Next();
        Note(Peeked(b.probe));
        relevant := relevant || (b.probe.Present? && b.yes);
      }
      Note(Looked(relevant || fallback));
    }

    // waitChallengeGone: gone, still there at the deadline, or no answer.
    method WaitChallengeGone() returns (r: Probe, ghost seen: seq<Probe>)
      requires Valid()
      modifies this
      ensures Valid() && next >= old(next)
      ensures Told() == Seen(old(Told()), seen) && Counts() == old(Counts())
      ensures Honest(r.Absent?, seen) && (r.Present? ==> AllPresent(seen) && seen != [])
      // and its result is the latest thing that happened
      ensures (r.Absent? <==> End() == Probed(Absent)) && (r.Broken? <==> Cut(End()))
      ensures (r.Present? <==> End() == Timed(true)) && seen != []
    {
      seen := [];
      AtFirst();
      hide Story, Score, AllPresent, Honest, End;
      SeenNothing(Told());
      hide Seen;
      while true
        invariant Valid() && next >= old(next)
        invariant Told() == Seen(old(Told()), seen) && Counts() == old(Counts())
        invariant AllPresent(seen)
        decreases |script| - next
      {
        var p := ChallengePresent();
        SeenMore(seen, p);
        SeenMoreOf(old(Told()), seen, [p]);
        seen := seen + [p];
        if !p.Present? { return p, seen; }
        StillThere(seen);
        var a := Next();
        Note(Timed(a.late));
        if a.late { return Present, seen; }
        var woke := Sleep();
        if !woke { return Broken, seen; }
      }
    }

    // One more probe of a solve loop that has made those in `seen` since `start`, and
    // one more wait.
    method ProbeOn(ghost start: Record, ghost seen: seq<Probe>) returns (p: Probe, ghost all: seq<Probe>)
      requires Valid() && Told() == Seen(start, seen) && AllPresent(seen)
      modifies this
      ensures Valid() && next >= old(next) && (next == old(next) ==> p.Broken?) && End() == Probed(p)
      ensures all == seen + [p] && Told() == Seen(start, all)
      ensures Counts() == old(Counts())
      ensures Honest(p.Absent?, all) && (p.Present? <==> AllPresent(all)) && p == At(old(next)).probe
    {
      hide Story, Score, Honest, AllPresent, End, Seen;
      p := ChallengePresent();
      SeenMore(seen, p);
      SeenMoreOf(start, seen, [p]);
      all := seen + [p];
    }

    method WaitOn(ghost start: Record, ghost seen: seq<Probe>) returns (r: Probe, ghost all: seq<Probe>)
      requires Valid() && Told() == Seen(start, seen) && AllPresent(seen)
      modifies this
      ensures Valid() && next >= old(next) && |all| > |seen| && Told() == Seen(start, all)
      ensures Counts() == old(Counts())
      ensures Honest(r.Absent?, all) && (r.Present? ==> AllPresent(all))
      ensures (r.Absent? <==> End() == Probed(Absent)) && (r.Broken? <==> Cut(End()))
    {
      hide Story, Score, Honest, AllPresent, End, Seen;
      ghost var waited;
      r, waited := WaitChallengeGone();
      Together(seen, waited);
      SeenMoreOf(start, seen, waited);
      all := seen + waited;
    }

    method SolveWebDriver() returns (out: Outcome, ghost seen: seq<Probe>)
      requires Valid()
      modifies this
      ensures Valid() && next >= old(next)
      ensures Told() == Seen(old(Told()), seen) && Honest(out.Cleared?, seen)
      ensures Counts().breaks == old(Counts()).breaks
      // its result is the latest thing that happened
      ensures (out.Cleared? <==> End() == Probed(Absent)) && (out.Failed? <==> Cut(End()))
      // passive exactly when the last three rounds reported no controls
      ensures out.Passive? <==> Counts().streak == 3
      ensures Counts().streak <= 3
      ensures out.Passive? ==> AllPresent(seen) && |seen| >= 6
      // and it clicks in exactly the rounds that reported some
      ensures Counts().ladders == Counts().controls
      ensures !out.NotCleared?
    {
      seen := [];
      AtFirst();
      ghost var start := Told();
      SeenNothing(start);
      hide Story, Score, Honest, AllPresent, Seen, End;
      Note(Began);
      Note(Wiggled);
      var passiveStreak := 0;
      while true
        invariant Valid() && next >= old(next) && Counts().breaks == old(Counts()).breaks
        invariant Told() == Seen(start, seen) && AllPresent(seen)
        invariant passiveStreak == Counts().streak < PASSIVE_BAILOUT && |seen| >= 2 * passiveStreak
        invariant Counts().ladders == Counts().controls
        decreases |script| - next
      {
        var found;
        found, seen := ProbeOn(start, seen);
        if found.Broken? { return Failed, seen; }
        if found.Absent? { return Cleared, seen; }

        var wait;
        wait, seen := WaitOn(start, seen);
        if wait.Broken? { return Failed, seen; }
        if wait.Absent? { return Cleared, seen; }

        var relevant, fallback := ClickTargets();
        if !relevant && !fallback {
          passiveStreak := passiveStreak + 1;
          StillThere(seen);
          if passiveStreak >= PASSIVE_BAILOUT { return Passive, seen; }
          Note(Wiggled);
          var woke := Sleep();
          if !woke { return Failed, seen; }
          continue;
        }
        passiveStreak := 0;
        var _ := ClickVerify(false);
      }
    }

    method SolveGecko() returns (out: Outcome, ghost seen: seq<Probe>)
      requires Valid()
      modifies this
      ensures Valid() && next >= old(next)
      ensures Told() == Seen(old(Told()), seen) && Honest(out.Cleared?, seen) && |seen| <= 30
      ensures Counts().breaks == old(Counts()).breaks
      ensures (out.Cleared? <==> End() == Probed(Absent)) && (out.Failed? <==> Cut(End()))
      // it gives up after 30 attempts with the challenge there, and five clicks
      ensures out.NotCleared? <==> |seen| == 30 && AllPresent(seen)
      ensures out.NotCleared? ==> out.clicks == Counts().clicks == 5
      // one click after the fourth attempt that finds it there, and after every sixth from then on
      ensures Counts().clicks == ClicksBefore(if AllPresent(seen) then |seen| else |seen| - 1)
      ensures !out.Passive?
    {
      seen := [];
      AtFirst();
      ClicksEnds();
      ghost var start := Told();
      SeenNothing(start);
      hide Story, Score, Honest, AllPresent, ClicksBefore, Seen, End;
      Note(Began);
      Note(Wiggled);
      var clickAttempts := 0;
      for attempt := 0 to MAX_ATTEMPTS
        invariant Valid() && next >= old(next) && Counts().breaks == old(Counts()).breaks
        invariant End() != Probed(Absent) && !Cut(End())
        invariant Told() == Seen(start, seen) && AllPresent(seen) && |seen| == attempt
        invariant clickAttempts == Counts().clicks == ClicksBefore(attempt)
      {
        StillThere(seen);
        var woke := Sleep();
        if !woke { return Failed, seen; }
        var found;
        found, seen := ProbeOn(start, seen);
        if found.Broken? { return Failed, seen; }
        if found.Absent? { return Cleared, seen; }
        ClicksNext(attempt);
        if attempt >= FIRST_CLICK_ATTEMPT && (attempt - FIRST_CLICK_ATTEMPT) % CLICK_EVERY == 0 {
          clickAttempts := clickAttempts + 1;
          Note(Clicked);
        }
        if attempt % 5 == 4 { Note(Wiggled); }
      }
      StillThere(seen);
      return NotCleared(clickAttempts), seen;
    }

    method SolveChromedp() returns (out: Outcome, ghost seen: seq<Probe>)
      requires Valid()
      modifies this
      ensures Valid() && next >= old(next)
      ensures Told() == Seen(old(Told()), seen) && Honest(out.Cleared?, seen)
      ensures Counts().breaks == old(Counts()).breaks
      ensures (out.Cleared? <==> End() == Probed(Absent)) && (out.Failed? <==> Cut(End()))
      ensures out.Cleared? || out.Failed?
      // every round but the last clicks
      ensures Counts().ladders <= Counts().looks <= Counts().ladders + 1
    {
      seen := [];
      AtFirst();
      ghost var start := Told();
      SeenNothing(start);
      hide Story, Score, Honest, AllPresent, Seen, End;
      Note(Began);
      while true
        invariant Valid() && next >= old(next) && Counts().breaks == old(Counts()).breaks
        invariant Told() == Seen(start, seen) && AllPresent(seen)
        invariant Counts().ladders == Counts().looks
        decreases |script| - next
      {
        var found;
        found, seen := ProbeOn(start, seen);
        if found.Broken? { return Failed, seen; }
        if found.Absent? { return Cleared, seen; }
        var relevant, _ := ClickTargets();
        var wait;
        wait, seen := WaitOn(start, seen);
        if wait.Broken? { return Failed, seen; }
        if wait.Absent? { return Cleared, seen; }
        var _ := ClickVerify(false);
      }
    }

    // One question whose answer decides nothing about the challenge.  `asked` are
    // those asked since `start`.
    method Ask(q: Question, ghost start: seq<Step>, ghost asked: seq<Question>) returns (a: Answer)
      requires Valid() && Told().events == start + Asks(asked)
      modifies this
      ensures Valid() && next >= old(next) && (next == old(next) ==> a == EXPIRED)
      ensures Told().probes == old(Told()).probes && Told().events == start + Asks(asked + [q])
      ensures a == At(old(next)) && next == (if old(next) < |script| then old(next) + 1 else old(next))
      ensures Counts().breaks == old(Counts()).breaks + if Critical(q) && a.failed then 1 else 0
    {
      AsksMore(asked, [q]);
      assert Asks([q]) == [Asked(q)];
      a := Next();
      Note(Asked(q));
      if Critical(q) && a.failed { Note(Broke); }
    }

    // A call of the token stage whose error ends it.
    method Try() returns (a: Answer)
      requires Valid()
      modifies this
      ensures Valid() && next >= old(next) && (next == old(next) ==> a == EXPIRED) && a == At(old(next))
      ensures Told() == old(Told())
      ensures Counts() == old(Counts()).(breaks := old(Counts()).breaks + if a.failed then 1 else 0)
    {
      a := Next();
      if a.failed { Note(Broke); }
    }

    method Solve(backend: Backend) returns (out: Outcome, ghost seen: seq<Probe>)
      requires Valid()
      modifies this
      ensures Valid() && next >= old(next)
      ensures Told() == Seen(old(Told()), seen) && Honest(out.Cleared?, seen)
      ensures Counts().breaks == old(Counts()).breaks
      ensures (out.Cleared? <==> End() == Probed(Absent)) && (out.Failed? <==> Cut(End()))
    {
      match backend
      case WebDriver => out, seen := SolveWebDriver();
      case Gecko => out, seen := SolveGecko();
      case Chromedp => out, seen := SolveChromedp();
    }

    // awaitDocumentReady: every exit is silent.  It ends when the document is ready
    // or cannot say, when the time is up, or when the wait is cut short.
    method AwaitDocumentReady()
      requires Valid()
      modifies this
      ensures Valid() && next >= old(next) && Told() == old(Told()) && Counts() == old(Counts())
      ensures End() == Timed(true) || End() == Polled(true) || End() == Slept(false)
    {
      hide Story, Score, End;
      var clock := Next();
      Note(Timed(clock.late));
      while !clock.late
        invariant Valid() && next >= old(next) && Told() == old(Told()) && Counts() == old(Counts())
        invariant clock.late ==> End() == Timed(true)
        decreases |script| - next, !clock.late
      {
        var a := Next();
        Note(Polled(a.failed || a.yes));
        if a.failed || a.yes { return; }
        var woke := Sleep();
        if !woke { return; }
        clock := Next();
        Note(Timed(clock.late));
      }
    }

    // resolveTurnstileToken of the two Chromium backends: read the token, and click
    // until there is one.
    method ResolveToken() returns (ok: bool, found: bool)
      requires Valid()
      modifies this
      ensures Valid() && next >= old(next) && Told() == old(Told())
      ensures (ok <==> Counts().breaks == old(Counts()).breaks) && Counts().breaks >= old(Counts()).breaks
      ensures found ==> ok && End() == TokenRead(true)
      // it goes without one only if the page has no field for it
      ensures ok && !found ==> End() == Sought(false)
    {
      hide Story, Score;
      for i := 0 to |TURNSTILE_SELECTORS|
        invariant Valid() && next >= old(next) && Told() == old(Told())
        invariant Counts().breaks == old(Counts()).breaks && (i > 0 ==> End() == Sought(false))
      {
        var exists_ := Try();
        if exists_.failed { return false, false; }
        Note(Sought(exists_.yes));
        if exists_.yes {
          ok, found := ReadUntilThere();
          return;
        }
      }
      return true, false;
    }

    method ReadUntilThere() returns (ok: bool, found: bool)
      requires Valid()
      modifies this
      ensures Valid() && next >= old(next) && Told() == old(Told())
      ensures found <==> ok
      ensures (ok <==> Counts().breaks == old(Counts()).breaks) && Counts().breaks >= old(Counts()).breaks
      ensures found ==> End() == TokenRead(true)
      // one ladder of clicks for every reading that found no token
      ensures Counts().ladders - old(Counts()).ladders == Counts().misses - old(Counts()).misses
    {
      hide Story, Score;
      while true
        invariant Valid() && next >= old(next) && Told() == old(Told())
        invariant Counts().ladders - old(Counts()).ladders == Counts().misses - old(Counts()).misses
        invariant Counts().breaks == old(Counts()).breaks
        decreases |script| - next
      {
        var token := Try();
        if token.failed { return false, false; }
        Note(TokenRead(token.yes));
        if token.yes { return true, true; }
        ok := ClickVerify(true);
        if !ok { return false, false; }
        var focus := Try();
        if focus.failed { return false, false; }
        var pause := Try();
        if pause.failed { return false, false; }
      }
    }

    // ApplyTurnstileToken.  Its clicks may look for the challenge again; what they
    // see does not change the result.
    method ApplyTurnstileToken(backend: Backend, tabs: bool) returns (ok: bool, found: bool)
      requires Valid()
      modifies this
      ensures Valid() && next >= old(next) && Told() == old(Told())
      ensures (ok <==> Counts().breaks == old(Counts()).breaks) && Counts().breaks >= old(Counts()).breaks
      ensures found ==> ok && End() == TokenRead(true)
      ensures backend.Gecko? ==> ok
      // Chromium goes without one only if the page has no field for it; Firefox, if it
      // need not click for one or its click or its second reading gave none
      ensures !backend.Gecko? && tabs && ok && !found ==> End() == Sought(false)
      ensures backend.Gecko? && !found ==> End() == TokenRead(false) || (tabs && End() == Clicked)
      ensures !backend.Gecko? && !tabs ==> ok && !found && log == old(log)
    {
      hide Story, Score;
      if !backend.Gecko? {
        if !tabs { return true, false; }
        ok, found := ResolveToken();
        return;
      }
      var token := Next();
      Note(TokenRead(!token.failed && token.yes));
      if !token.failed && token.yes { return true, true; }
      if !tabs { return true, false; }
      Note(Clicked);
      var click := Next();
      if !click.yes { return true, false; }
      var _ := Sleep();
      token := Next();
      Note(TokenRead(!token.failed && token.yes));
      return true, !token.failed && token.yes;
    }

    // Up to the first page: is it there?
    method Open(req: Request) returns (ok: bool)
      requires Valid()
      modifies this
      ensures Valid() && next >= old(next) && Told().probes == old(Told()).probes
      ensures ok ==> Told().events == old(Told()).events + Asks(Opening(req))
      ensures (ok <==> Counts().breaks == old(Counts()).breaks) && Counts().breaks >= old(Counts()).breaks
    {
      ghost var start, asked := Told().events, [];
      assert start + Asks([]) == start;
      hide Story, Score, Asks;
      var _ := Ask(Block, start, []);
      var a := Ask(Navigate, start, [Block]);
      if a.failed { return false; }
      asked := [Block, Navigate];
      if req.cookies {
        a := Ask(SetCookies, start, asked);
        if a.failed { return false; }
        a := Ask(Navigate, start, asked + [SetCookies]);
        if a.failed { return false; }
        asked := asked + [SetCookies] + [Navigate];
      }
      if req.logHtml {
        var _ := Ask(Html, start, asked);
        asked := asked + [Html];
      }
      assert asked == Opening(req);
      return true;
    }

    // The access-denied check: is the page refused?
    method AccessDenied() returns (denied: bool, ok: bool)
      requires Valid()
      modifies this
      ensures Valid() && next >= old(next) && Told().probes == old(Told()).probes
      ensures ok && !denied ==> Told().events == old(Told()).events + Asks(CHECKING)
      ensures (ok <==> Counts().breaks == old(Counts()).breaks) && Counts().breaks >= old(Counts()).breaks
      // by its title, or by the first of the two selectors that is there
      ensures var t, a, b := At(old(next)), At(old(next) + 1), At(old(next) + 2);
        && (denied <==> !t.failed && (TitleDenied(t.title) || (!a.failed && (a.yes || (!b.failed && b.yes)))))
        && (ok <==> denied || (!t.failed && !a.failed && !b.failed))
    {
      ghost var start := Told().events;
      assert start + Asks([]) == start;
      hide Story, Score, Asks;
      var a := Ask(Title, start, []);
      if a.failed { return false, false; }
      for i := 0 to |DENIED_TITLES|
        invariant Valid() && next >= old(next) && Told().probes == old(Told()).probes
        invariant Told().events == start + Asks([Title]) && Counts().breaks == old(Counts()).breaks
        invariant next == (if old(next) < |script| then old(next) + 1 else |script|)
        invariant forall k :: 0 <= k < i ==> !(DENIED_TITLES[k] <= a.title)
      {
        if DENIED_TITLES[i] <= a.title { return true, true; }
      }
      assert CHECKING[..1] == [Title];
      assert !(DENIED_TITLES[0] <= a.title) && !(DENIED_TITLES[1] <= a.title);
      for i := 0 to |DENIED_SELECTORS|
        invariant Valid() && next >= old(next) && Told().probes == old(Told()).probes
        invariant Counts().breaks == old(Counts()).breaks
        invariant next == (if old(next) + i < |script| then old(next) + i + 1 else |script|)
        invariant i > 0 ==> !At(old(next) + 1).failed && !At(old(next) + 1).yes
        invariant i > 1 ==> !At(old(next) + 2).failed && !At(old(next) + 2).yes
        invariant Told().events == start + Asks(CHECKING[..i + 1])
      {
        var b := Ask(DeniedBy(DENIED_SELECTORS[i]), start, CHECKING[..i + 1]);
        if b.failed { return false, false; }
        if b.yes { return true, true; }
        assert CHECKING[..i + 2] == CHECKING[..i + 1] + [DeniedBy(DENIED_SELECTORS[i])];
      }
      assert CHECKING[..3] == CHECKING;
      return false, true;
    }

    // The first reads that make the result.
    method Locate(ghost start: seq<Step>, ghost asked: seq<Question>) returns (ok: bool)
      requires Valid() && Told().events == start + Asks(asked)
      modifies this
      ensures Valid() && next >= old(next) && Told().probes == old(Told()).probes
      ensures ok ==> Told().events == start + Asks(asked + [ReadUrl, ReadUserAgent, ReadCookies, ReadResponse])
      ensures (ok <==> Counts().breaks == old(Counts()).breaks) && Counts().breaks >= old(Counts()).breaks
    {
      hide Story, Score, Asks, End;
      ghost var qs := asked;
      var a := Ask(ReadUrl, start, qs);
      if a.failed { return false; }
      qs := qs + [ReadUrl];
      a := Ask(ReadUserAgent, start, qs);
      if a.failed { return false; }
      qs := qs + [ReadUserAgent];
      a := Ask(ReadCookies, start, qs);
      if a.failed { return false; }
      qs := qs + [ReadCookies];
      var _ := Ask(ReadResponse, start, qs);
      assert qs + [ReadResponse] == asked + [ReadUrl, ReadUserAgent, ReadCookies, ReadResponse];
      return true;
    }

    // The reads that make the result.
    method Snapshot(backend: Backend, req: Request, ghost start: seq<Step>, ghost asked: seq<Question>)
      returns (ok: bool)
      requires Valid() && Told().events == start + Asks(asked)
      modifies this
      ensures Valid() && next >= old(next) && Told().probes == old(Told()).probes
      ensures ok ==> Told().events == start + Asks(asked + Reading(req))
      ensures (ok <==> Counts().breaks == old(Counts()).breaks) && Counts().breaks >= old(Counts()).breaks
    {
      hide Story, Score, Asks, End;
      ok := Locate(start, asked);
      if !ok { return false; }
      ghost var qs := asked + [ReadUrl, ReadUserAgent, ReadCookies, ReadResponse];
      var a := Ask(ReadToken, start, qs);
      qs := qs + [ReadToken];
      var found;
      ok, found := ApplyTurnstileToken(backend, req.tabs);
      if !ok { return; }
      if !req.onlyCookies {
        a := Ask(ReadHtml, start, qs);
        if a.failed { return false; }
        qs := qs + [ReadHtml];
      }
      if req.screenshot {
        a := Ask(ReadScreenshot, start, qs);
        if a.failed { return false; }
        qs := qs + [ReadScreenshot];
      }
      assert qs == asked + Reading(req);
    }

    // From the challenge being gone to the result.
    method Finish(backend: Backend, req: Request) returns (ok: bool)
      requires Valid()
      modifies this
      ensures Valid() && next >= old(next) && Told().probes == old(Told()).probes
      ensures ok ==> Told().events == old(Told()).events + Asks(Closing(req))
      ensures (ok <==> Counts().breaks == old(Counts()).breaks) && Counts().breaks >= old(Counts()).breaks
    {
      ghost var start := Told().events;
      assert start + Asks([]) == start;
      hide Story, Score, Reading, Asks;
      AwaitDocumentReady();
      if req.wait {
        var a := Ask(WaitFor, start, []);
        if a.failed { return false; }
        ok := Snapshot(backend, req, start, [WaitFor]);
      } else {
        ok := Snapshot(backend, req, start, []);
        assert [] + Reading(req) == Reading(req);
      }
    }

    method ResolvePage(backend: Backend, req: Request) returns (r: Resolution, ghost seen: seq<Probe>)
      requires Valid()
      modifies this
      ensures Valid() && next >= old(next) && Told().probes == old(Told()).probes + seen
      // a result of either kind rests on a latest probe that saw no challenge
      ensures r.Resolved? ==> SeenGone(seen) && (r.solved <==> |seen| >= 2)
      // and on the documented questions in the documented order, with every read
      // for it behind that probe
      ensures r.Resolved? ==> Told().events == old(Told()).events + Itinerary(req, seen)
      ensures r.Unsolved? ==> NeverGone(seen)
      // each end for its own reason
      ensures var broke := Counts().breaks != old(Counts()).breaks;
        && (r.Failure? <==> broke || seen == [Broken])
        && (r.Denied? <==> !broke && seen == [])
        && (r.Unsolved? <==> seen != [] && seen[0].Present? && !seen[|seen| - 1].Absent?)
        && (r.Resolved? <==> !broke && seen != [] && seen[|seen| - 1].Absent?)
    {
      seen := [];
      ghost var start := Told();
      hide Story, Score, End, Opening, Closing, Asks, Saw;
      var ok := Open(req);
      if !ok { return Failure, seen; }
      var denied: bool;
      denied, ok := AccessDenied();
      if !ok { return Failure, seen; }
      if denied { return Denied, seen; }
      AsksMore(Opening(req), CHECKING);
      ghost var checked := Told();

      var solved := false;
      var found := ChallengePresent();
      seen := [found];
      if found.Broken? { return Failure, seen; }
      if found.Present? {
        var out, steps := Solve(backend);
        Together(seen, steps);
        SawMore(seen, steps);
        seen := seen + steps;
        HowItEnds(seen);
        if !out.Cleared? { return Unsolved, seen; }
        solved := true;
      }
      assert Told().events == checked.events + Saw(seen);
      ok := Finish(backend, req);
      Ordered(start.events, Asks(Opening(req)), Asks(CHECKING), Saw(seen), Asks(Closing(req)));
      return if ok then Resolved(solved) else Failure, seen;
    }
  }

  lemma Ordered(e: seq<Step>, a: seq<Step>, b: seq<Step>, c: seq<Step>, d: seq<Step>)
    ensures e + a + b + c + d == e + ((a + b) + c + d)
  {
  }

  // The clicks the Gecko loop makes in its first n attempts.
  function ClicksBefore(n: nat): nat {
    if n <= FIRST_CLICK_ATTEMPT then 0 else (n - FIRST_CLICK_ATTEMPT + CLICK_EVERY - 1) / CLICK_EVERY
  }

  lemma ClicksNext(n: nat)
    ensures ClicksBefore(n + 1) ==
      ClicksBefore(n) + if n >= FIRST_CLICK_ATTEMPT && (n - FIRST_CLICK_ATTEMPT) % CLICK_EVERY == 0 then 1 else 0
  {
  }

  // It clicks after the attempts 4, 10, 16, 22 and 28.
  lemma ClicksAre(n: nat)
    requires n <= 30
    ensures ClicksBefore(n) ==
      if n <= 3 then 0 else if n <= 9 then 1 else if n <= 15 then 2 else if n <= 21 then 3 else if n <= 27 then 4 else 5
  {
  }

  lemma ClicksEnds()
    ensures ClicksBefore(0) == 0 && ClicksBefore(MAX_ATTEMPTS) == 5
  {
  }

  lemma HowItEnds(seen: seq<Probe>)
    ensures NeverGone(seen) && seen != [] ==> !seen[|seen| - 1].Absent?
    ensures SeenGone(seen) ==> seen != [] && seen[|seen| - 1].Absent?
  {
    if AllPresent(seen) && seen != [] { assert seen[|seen| - 1].Present?; }
  }

  lemma AtFirst()
    ensures AllPresent([]) && Honest(false, [])
  {
  }

  lemma StillThere(seen: seq<Probe>)
    requires AllPresent(seen)
    ensures Honest(false, seen)
  {
  }

  lemma SeenMore(seen: seq<Probe>, p: Probe)
    requires AllPresent(seen)
    ensures p.Present? <==> AllPresent(seen + [p])
    ensures Honest(p.Absent?, seen + [p])
  {
    assert (seen + [p])[..|seen|] == seen && (seen + [p])[|seen|] == p;
  }

  lemma Together(seen: seq<Probe>, more: seq<Probe>)
    requires AllPresent(seen)
    ensures forall gone :: Honest(gone, more) ==> Honest(gone, seen + more)
    ensures AllPresent(more) ==> AllPresent(seen + more)
  {
    if more != [] { assert (seen + more)[..|seen + more| - 1] == seen + more[..|more| - 1]; }
  }
}
