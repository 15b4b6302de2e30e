/**
The bounded walk through shadow roots, over a WebDriver that may answer anything.
The commands are Find Elements, Find Elements From Shadow Root and Get Element
Shadow Root of W3C WebDriver, section 12.3.  A steady driver, whose answer to a
command does not change during the walk, makes the walk a search by shadow level.
*/
module ShadowWalk {
  import opened Wrappers

  const ELEMENT_KEY := "element-6066-11e4-a52e-4f735466cecf"
  const SHADOW_KEY := "shadow-6066-11e4-a52e-4f735466cecf"
  const NO_SUCH_ELEMENT := "no such element"
  const NO_SUCH_SHADOW_ROOT := "no such shadow root"
  const MAX_NODES: nat := 400
  const MAX_DEPTH: nat := 6

  // The root "" is the document itself.
  datatype Command = FindAll(root: string, selector: string) | GetShadowRoot(element: string)

  // What comes back: an error code, a JSON list of references, one reference,
  // null, or something neither call can read.
  datatype Answer =
    | Failed(code: string)
    | Listed(refs: seq<map<string, string>>)
    | Referred(ref: map<string, string>)
    | Null
    | Unreadable

  datatype Error = Driver(code: string) | BadAnswer | NodeCap

  datatype Walk = Walk(found: string, walked: nat, err: Option<Error>)

  function Reference(ref: map<string, string>, key: string): string {
    if key in ref then ref[key] else ""
  }

  // The references of a list that name an element.
  function Ids(refs: seq<map<string, string>>): (ids: seq<string>)
    ensures "" !in ids
  {
    if refs == [] then []
    else
      var id := Reference(refs[0], ELEMENT_KEY);
      (if id != "" then [id] else []) + Ids(refs[1..])
  }

  function Elements(a: Answer): (r: Result<seq<string>, Error>)
    ensures r.Err? ==> r.error != NodeCap
    ensures r.Ok? ==> "" !in r.value
  {
    match a
    case Failed(code) => if code == NO_SUCH_ELEMENT then Ok([]) else Err(Driver(code))
    case Listed(refs) => Ok(Ids(refs))
    case Null => Ok([])
    case _ => Err(BadAnswer)
  }

  function Shadow(a: Answer): Result<string, Error> {
    match a
    case Failed(code) => if code == NO_SUCH_SHADOW_ROOT || code == NO_SUCH_ELEMENT then Ok("") else Err(Driver(code))
    case Referred(ref) => Ok(Reference(ref, SHADOW_KEY))
    case Null => Ok("")
    case _ => Err(BadAnswer)
  }

  // What the answers say.  -------------------------------------------------------

  // Reference i of a list names the element id.
  predicate NamesAt(refs: seq<map<string, string>>, i: nat, id: string) {
    i < |refs| && "element-6066-11e4-a52e-4f735466cecf" in refs[i] && id != ""
    && refs[i]["element-6066-11e4-a52e-4f735466cecf"] == id
  }

  // The ids are the elements that the list names, in its order: `at` are their
  // places, and no other place names an element.
  ghost predicate Lists(refs: seq<map<string, string>>, ids: seq<string>, at: seq<nat>) {
    && |at| == |ids|
    && (forall k :: 0 <= k < |ids| ==> NamesAt(refs, at[k], ids[k]))
    && (forall k, l :: 0 <= k < l < |at| ==> at[k] < at[l])
    && (forall i: nat, id :: NamesAt(refs, i, id) ==> i in at)
  }

  ghost predicate InOrder(refs: seq<map<string, string>>, ids: seq<string>) {
    exists at :: Lists(refs, ids, at)
  }

  // The element that an answer names first.
  ghost predicate NamedFirst(a: Answer, id: string) {
    a.Listed? && exists i: nat :: NamesAt(a.refs, i, id) && forall j: nat, x :: NamesAt(a.refs, j, x) ==> i <= j
  }

  ghost predicate NamesNone(a: Answer) {
    a.Listed? ==> forall i: nat, x :: !NamesAt(a.refs, i, x)
  }

  lemma {:induction false} IdsInPlace(refs: seq<map<string, string>>) returns (at: seq<nat>)
    ensures Lists(refs, Ids(refs), at)
  {
    at := [];
    if refs != [] {
      var rest := IdsInPlace(refs[1..]);
      hide Lists, NamesAt;
      at := ListsOneMore(refs, Ids(refs[1..]), rest);
    } else {
      assert forall i: nat, id :: !NamesAt(refs, i, id);
    }
  }

  lemma ListsOneMore(refs: seq<map<string, string>>, ids: seq<string>, rest: seq<nat>) returns (at: seq<nat>)
    requires refs != [] && Lists(refs[1..], ids, rest)
    ensures var id := Reference(refs[0], ELEMENT_KEY); Lists(refs, (if id != "" then [id] else []) + ids, at)
  {
    hide Lists, NamesAt, Reference;
    var id := Reference(refs[0], ELEMENT_KEY);
    var later := Later(rest);
    Shifted(refs, id);
    ListsLater(refs, ids, rest);
    if id == "" {
      at := later;
      assert [] + ids == ids;
      ListsNoFirst(refs, ids, later);
    } else {
      at := [0] + later;
      ListsFirst(refs, ids, later, id);
    }
  }

  function Later(at: seq<nat>): seq<nat> { seq(|at|, k requires 0 <= k < |at| => at[k] + 1) }

  // The places behind the first, and the elements they name.
  ghost predicate ListsTail(refs: seq<map<string, string>>, ids: seq<string>, at: seq<nat>) {
    && |at| == |ids|
    && (forall k :: 0 <= k < |ids| ==> at[k] > 0 && NamesAt(refs, at[k], ids[k]))
    && (forall k, l :: 0 <= k < l < |at| ==> at[k] < at[l])
    && (forall i: nat, id :: i > 0 && NamesAt(refs, i, id) ==> i in at)
  }

  lemma ListsLater(refs: seq<map<string, string>>, ids: seq<string>, rest: seq<nat>)
    requires refs != [] && Lists(refs[1..], ids, rest)
    requires forall i: nat, x :: i > 0 ==> (NamesAt(refs[1..], i - 1, x) <==> NamesAt(refs, i, x))
    requires forall i: nat, x :: NamesAt(refs[1..], i, x) <==> NamesAt(refs, i + 1, x)
    ensures ListsTail(refs, ids, Later(rest))
  {
    hide NamesAt;
    forall i: nat, x | i > 0 && NamesAt(refs, i, x) ensures i in Later(rest) {
      assert NamesAt(refs[1..], i - 1, x);
      var k :| 0 <= k < |rest| && rest[k] == i - 1;
      assert Later(rest)[k] == i;
    }
  }

  lemma ListsNoFirst(refs: seq<map<string, string>>, ids: seq<string>, at: seq<nat>)
    requires ListsTail(refs, ids, at) && forall x :: !NamesAt(refs, 0, x)
    ensures Lists(refs, ids, at)
  {
    hide NamesAt;
  }

  lemma ListsFirst(refs: seq<map<string, string>>, ids: seq<string>, at: seq<nat>, id: string)
    requires ListsTail(refs, ids, at) && NamesAt(refs, 0, id)
    ensures Lists(refs, [id] + ids, [0] + at)
  {
    hide NamesAt;
  }

  lemma Shifted(refs: seq<map<string, string>>, id: string)
    requires refs != [] && id == Reference(refs[0], ELEMENT_KEY)
    ensures forall i: nat, x :: i > 0 ==> (NamesAt(refs[1..], i - 1, x) <==> NamesAt(refs, i, x))
    ensures forall i: nat, x :: NamesAt(refs[1..], i, x) <==> NamesAt(refs, i + 1, x)
    ensures forall x :: NamesAt(refs, 0, x) <==> x == id != ""
  {
  }

  // A query that is answered with a list finds the elements it names in its
  // order; no element, and null, are an empty result; the rest is an error.
  ghost predicate ElementsSaid(a: Answer, r: Result<seq<string>, Error>) {
    match a
    case Failed(code) => r == if code == "no such element" then Ok([]) else Err(Driver(code))
    case Listed(refs) => r.Ok? && InOrder(refs, r.value)
    case Null => r == Ok([])
    case Referred(_) => r == Err(BadAnswer)
    case Unreadable => r == Err(BadAnswer)
  }

  lemma ElementsRead(a: Answer)
    ensures ElementsSaid(a, Elements(a))
  {
    if a.Listed? { var at := IdsInPlace(a.refs); }
  }

  // The ids of an answer begin with the element it names first.
  lemma FirstOfElements(a: Answer)
    ensures var r := Elements(a);
      if r.Ok? && r.value != [] then NamedFirst(a, r.value[0]) else NamesNone(a)
  {
    if a.Listed? {
      var ids := Ids(a.refs);
      var at := IdsInPlace(a.refs);
      hide Ids, NamesAt;
      if ids != [] {
        FirstInList(a.refs, ids, at);
      } else {
        assert at == [];
      }
    }
  }

  // A host's shadow root: what the reference names, if it names one.
  predicate ShadowSaid(a: Answer, r: Result<string, Error>) {
    match a
    case Failed(code) =>
      r == if code == "no such shadow root" || code == "no such element" then Ok("") else Err(Driver(code))
    case Referred(ref) =>
      r == Ok(if "shadow-6066-11e4-a52e-4f735466cecf" in ref then ref["shadow-6066-11e4-a52e-4f735466cecf"] else "")
    case Null => r == Ok("")
    case Listed(_) => r == Err(BadAnswer)
    case Unreadable => r == Err(BadAnswer)
  }

  // The first id is that of the first place that names an element.
  lemma FirstInList(refs: seq<map<string, string>>, ids: seq<string>, at: seq<nat>)
    requires Lists(refs, ids, at) && ids != []
    ensures NamesAt(refs, at[0], ids[0]) && forall i: nat, id :: NamesAt(refs, i, id) ==> at[0] <= i
  {
    hide NamesAt;
    forall i: nat, id | NamesAt(refs, i, id) ensures at[0] <= i {
      var k :| 0 <= k < |at| && at[k] == i;
    }
  }

  function RootIn(r: Result<string, Error>): string { if r.Ok? then r.value else "" }

  function HeadOf(r: Result<seq<string>, Error>): string { if r.Ok? && r.value != [] then r.value[0] else "" }

  // The page as a steady driver shows it.  -------------------------------------

  type Page = Command -> Answer

  // What a query finds in a root; a failing query finds nothing.
  function Found(page: Page, root: string, selector: string): (ids: seq<string>)
    ensures "" !in ids
  {
    var r := Elements(page(FindAll(root, selector)));
    if r.Ok? then r.value else []
  }

  // The shadow root a host hands over, "" for none.
  function Opened(page: Page, host: string): string {
    var r := Shadow(page(GetShadowRoot(host)));
    if r.Ok? then r.value else ""
  }

  function HostsIn(page: Page, roots: seq<string>): seq<string> {
    if roots == [] then [] else Found(page, roots[0], "*") + HostsIn(page, roots[1..])
  }

  function OpenedBy(page: Page, hosts: seq<string>): seq<string> {
    if hosts == [] then []
    else
      var root := Opened(page, hosts[0]);
      (if root != "" then [root] else []) + OpenedBy(page, hosts[1..])
  }

  // The shadow roots one level below the given ones.
  function Below(page: Page, roots: seq<string>): seq<string> {
    OpenedBy(page, HostsIn(page, roots))
  }

  // The roots k shadow levels below the document.
  function Level(page: Page, k: nat): seq<string> {
    if k == 0 then [""] else Below(page, Level(page, k - 1))
  }

  // The first match in a list of roots.
  function FirstIn(page: Page, selector: string, roots: seq<string>): Option<string> {
    if roots == [] then None
    else if Found(page, roots[0], selector) != [] then Some(Found(page, roots[0], selector)[0])
    else FirstIn(page, selector, roots[1..])
  }

  // The reference definition: the first match, one shadow level at a time.
  function FirstByLevel(page: Page, selector: string, roots: seq<string>, depth: nat): Option<string>
    decreases depth
  {
    var here := FirstIn(page, selector, roots);
    if here.Some? || depth == 0 then here else FirstByLevel(page, selector, Below(page, roots), depth - 1)
  }

  // Every host the walk may probe, in order.
  function Line(page: Page, roots: seq<string>, depth: nat): seq<string>
    decreases depth
  {
    if depth == 0 || roots == [] then [] else HostsIn(page, roots) + Line(page, Below(page, roots), depth - 1)
  }

  // The match behind one host.
  function Behind(page: Page, selector: string, host: string): seq<string> {
    if Opened(page, host) == "" then [] else Found(page, Opened(page, host), selector)
  }

  // Probing hosts in order, stopping at a match or at the node cap.
  function Probe(page: Page, selector: string, hosts: seq<string>, walked: nat): Walk {
    if hosts == [] then Walk("", walked, None)
    else if walked >= MAX_NODES then Walk("", walked, Some(NodeCap))
    else
      var ids := Behind(page, selector, hosts[0]);
      if ids != [] then Walk(ids[0], walked + 1, None) else Probe(page, selector, hosts[1..], walked + 1)
  }

  function Walked(page: Page, selector: string): Walk {
    var r := Elements(page(FindAll("", selector)));
    if r.Err? then Walk("", 0, Some(r.error))
    else if r.value != [] then Walk(r.value[0], 0, None)
    else Probe(page, selector, Line(page, [""], MAX_DEPTH), 0)
  }

  lemma RefsInOrder(refs: seq<map<string, string>>)
    ensures InOrder(refs, Ids(refs))
  {
    var at := IdsInPlace(refs);
  }

  lemma IdsFrom(refs: seq<map<string, string>>, i: nat)
    requires i < |refs|
    ensures var id := Reference(refs[i], ELEMENT_KEY);
      Ids(refs[i..]) == (if id != "" then [id] else []) + Ids(refs[i + 1..])
  {
    assert refs[i..][1..] == refs[i + 1..];
  }

  lemma IdsEnds(refs: seq<map<string, string>>)
    ensures refs[0..] == refs && Ids(refs[|refs|..]) == []
  {
  }

  method Collect(refs: seq<map<string, string>>) returns (ids: seq<string>)
    ensures ids == Ids(refs) && InOrder(refs, ids)
  {
    hide Ids, Reference, InOrder;
    RefsInOrder(refs);
    IdsEnds(refs);
    ids := [];
    for i := 0 to |refs|
      invariant Ids(refs) == ids + Ids(refs[i..])
    {
      IdsFrom(refs, i);
      var id := Reference(refs[i], ELEMENT_KEY);
      if id != "" { ids := ids + [id]; }
    }
  }

  // The walk itself.  -----------------------------------------------------------

  class Session {
    // The driver's next answer may depend on everything it was asked before.
    const reply: (seq<Command>, Command) -> Answer
    var log: seq<Command>

    constructor (reply: (seq<Command>, Command) -> Answer)
      ensures this.reply == reply && log == []
    {
      this.reply, log := reply, [];
    }

    ghost predicate Steady(page: Page) {
      forall h, c :: reply(h, c) == page(c)
    }

    method Do(c: Command) returns (a: Answer)
      modifies `log
      ensures log == old(log) + [c] && a == reply(old(log), c)
    {
      a := reply(log, c);
      log := log + [c];
    }

    // FindElements for the document, FindElementsInShadow for any other root.
    method FindAllIn(root: string, selector: string) returns (r: Result<seq<string>, Error>)
      modifies `log
      ensures log == old(log) + [FindAll(root, selector)]
      ensures r == Elements(reply(old(log), FindAll(root, selector)))
      ensures ElementsSaid(reply(old(log), FindAll(root, selector)), r)
    {
      hide Ids, InOrder;
      var a := Do(FindAll(root, selector));
      if a.Failed? {
        return if a.code == NO_SUCH_ELEMENT then Ok([]) else Err(Driver(a.code));
      }
      if !a.Listed? {
        return if a.Null? then Ok([]) else Err(BadAnswer);
      }
      var ids := Collect(a.refs);
      return Ok(ids);
    }

    // The queries' answers on a steady page.
    lemma Shows(page: Page, h: seq<Command>, root: string, selector: string)
      requires Steady(page)
      ensures var r := Elements(reply(h, FindAll(root, selector)));
        Found(page, root, selector) == if r.Ok? then r.value else []
    {
    }

    lemma Opens(page: Page, h: seq<Command>, host: string)
      requires Steady(page)
      ensures var r := Shadow(reply(h, GetShadowRoot(host)));
        Opened(page, host) == if r.Ok? then r.value else ""
    {
    }

    lemma Begins(page: Page, h: seq<Command>, selector: string)
      requires Steady(page)
      ensures Walked(page, selector) ==
        var r := Elements(reply(h, FindAll("", selector)));
        if r.Err? then Walk("", 0, Some(r.error))
        else if r.value != [] then Walk(r.value[0], 0, None)
        else Probe(page, selector, Line(page, [""], MAX_DEPTH), 0)
    {
    }

    method ShadowRoot(element: string) returns (r: Result<string, Error>)
      modifies `log
      ensures log == old(log) + [GetShadowRoot(element)]
      ensures r == Shadow(reply(old(log), GetShadowRoot(element)))
      ensures ShadowSaid(reply(old(log), GetShadowRoot(element)), r)
    {
      var a := Do(GetShadowRoot(element));
      r := Shadow(a);
    }

    // What probing one host after the commands h asks, and makes of the answers.
    ghost predicate Probed(h: seq<Command>, host: string, selector: string,
                           after: seq<Command>, shadow: string, found: string)
    {
      var asked, query := h + [GetShadowRoot(host)], FindAll(shadow, selector);
      && shadow == RootIn(Shadow(reply(h, GetShadowRoot(host))))
      && if shadow == "" then after == asked && found == ""
         else after == asked + [query] && found == HeadOf(Elements(reply(asked, query)))
    }

    // One host: open its shadow root, and search it for the selector.
    method ProbeHost(host: string, selector: string, ghost page: Page) returns (shadow: string, found: string)
      modifies `log
      // whatever the driver answers
      ensures Probed(old(log), host, selector, log, shadow, found)
      ensures old(log) < log && |log| <= |old(log)| + 2
      ensures found != "" ==> AnyReported(|old(log)|, selector, found)
      ensures Steady(page) ==> shadow == Opened(page, host)
      ensures Steady(page) ==>
        found == (if shadow == "" || Found(page, shadow, selector) == [] then "" else Found(page, shadow, selector)[0])
    {
      hide Elements, Shadow, Found, Opened, Steady, NamedFirst, NamesNone;
      ghost var steady := Steady(page);
      if steady { Opens(page, log, host); }
      var r := ShadowRoot(host);
      if r.Err? || r.value == "" { return "", ""; }
      shadow := r.value;
      ghost var asked := |log|;
      if steady { Shows(page, log, shadow, selector); }
      var ids := FindAllIn(shadow, selector);
      if ids.Err? || |ids.value| == 0 { return shadow, ""; }
      found := ids.value[0];
      FirstOfElements(reply(log[..asked], log[asked]));
      assert Reported(asked, selector, found);
    }

    // Some command from the given place on reports this element.
    ghost predicate AnyReported(from: nat, selector: string, id: string)
      reads this
    {
      exists n :: from <= n < |log| && Reported(n, selector, id)
    }

    lemma Reports(n: nat, root: string, selector: string, id: string)
      requires n < |log| && log[n] == FindAll(root, selector)
      requires var r := Elements(reply(log[..n], log[n])); r.Ok? && r.value != [] && r.value[0] == id
      ensures AnyReported(n, selector, id)
    {
      FirstOfElements(reply(log[..n], log[n]));
      assert Reported(n, selector, id);
    }

    lemma Earlier(from: nat, later: nat, selector: string, id: string)
      requires from <= later && AnyReported(later, selector, id)
      ensures AnyReported(from, selector, id)
    {
    }

    method FindThroughShadowDOM(selector: string, ghost page: Page) returns (w: Walk)
      modifies `log
      // whatever the driver answers
      ensures w.walked <= 400 && |log| <= |old(log)| + 1202
      ensures w.err == Some(NodeCap) ==> w.walked == 400
      ensures w.err.Some? ==> w.found == ""
      ensures old(log) <= log
      ensures w.found != "" ==> AnyReported(|old(log)|, selector, w.found)
      // when it answers steadily
      ensures Steady(page) ==> w == Walked(page, selector)
    {
      hide Ahead, Line, Probe, Elements, Shadow, Found, Opened, Onward, Walked, Steady, AnyReported, Reported, Probed;
      hide ElementsSaid, InOrder;
      ghost var steady, start, goal := Steady(page), |log|, Walked(page, selector);
      if steady { Begins(page, log, selector); }
      var ids := FindAllIn("", selector);
      if ids.Err? { return Walk("", 0, Some(ids.error)); }
      if |ids.value| > 0 {
        Reports(start, "", selector, ids.value[0]);
        return Walk(ids.value[0], 0, None);
      }
      var walked, roots, depth := 0, [""], 0;
      ghost var listed := 0;
      while depth < MAX_DEPTH && |roots| > 0
        invariant depth <= MAX_DEPTH && walked <= MAX_NODES && old(log) <= log
        invariant listed + |roots| <= 1 + walked && |log| <= start + 1 + listed + 2 * walked
        invariant steady ==> goal == Probe(page, selector, Line(page, roots, MAX_DEPTH - depth), walked)
        decreases MAX_DEPTH - depth
      {
        var deeper: seq<string> := [];
        ghost var rest := MAX_DEPTH - depth - 1;
        OnwardStart(page, selector, roots, rest, walked);
        assert roots[0..] == roots;
        for i := 0 to |roots|
          invariant walked <= MAX_NODES && old(log) <= log
          invariant listed + (|roots| - i) + |deeper| <= 1 + walked && |log| <= start + 1 + listed + 2 * walked
          invariant steady ==> goal == Onward(page, selector, [], roots[i..], deeper, rest, walked)
        {
          if steady { Shows(page, log, roots[i], "*"); }
          OnwardRoot(page, selector, roots[i..], deeper, rest, walked);
          var hosts := FindAllIn(roots[i], "*");
          listed := listed + 1;
          assert roots[i..][1..] == roots[i + 1..];
          if hosts.Err? { continue; }
          assert hosts.value[0..] == hosts.value;
          for j := 0 to |hosts.value|
            invariant walked <= MAX_NODES && old(log) <= log
            invariant listed + (|roots| - i - 1) + |deeper| <= 1 + walked && |log| <= start + 1 + listed + 2 * walked
            invariant steady ==>
                        goal == Onward(page, selector, hosts.value[j..], roots[i + 1..], deeper, rest, walked)
          {
            OnwardStep(page, selector, hosts.value[j..], roots[i + 1..], deeper, rest, walked);
            assert hosts.value[j..][1..] == hosts.value[j + 1..];
            if walked >= MAX_NODES { return Walk("", walked, Some(NodeCap)); }
            walked := walked + 1;
            ghost var probing := |log|;
            var shadow, found := ProbeHost(hosts.value[j], selector, page);
            if found != "" {
              Earlier(start, probing, selector, found);
              return Walk(found, walked, None);
            }
            if shadow != "" { deeper := deeper + [shadow]; }
          }
        }
        assert roots[|roots|..] == [];
        OnwardEnd(page, selector, deeper, rest, walked);
        roots := deeper;
        depth := depth + 1;
      }
      ProbeNothing(page, selector, roots, MAX_DEPTH - depth, walked);
      return Walk("", walked, None);
    }

    // The n-th command was a query for the selector, and its answer names id first.
    ghost predicate Reported(n: nat, selector: string, id: string)
      reads this
    {
      n < |log| && log[n].FindAll? && log[n].selector == selector && NamedFirst(reply(log[..n], log[n]), id)
    }
  }

  // The hosts still to probe: the rest of one root's hosts, those of the roots
  // left on this level, and the levels below.
  ghost function Ahead(page: Page, hosts: seq<string>, roots: seq<string>, deeper: seq<string>, rest: nat): seq<string>
  {
    var level := hosts + HostsIn(page, roots);
    level + Line(page, deeper + OpenedBy(page, level), rest)
  }

  ghost function Onward(page: Page, selector: string, hosts: seq<string>, roots: seq<string>, deeper: seq<string>,
                        rest: nat, walked: nat): Walk
  {
    Probe(page, selector, Ahead(page, hosts, roots, deeper, rest), walked)
  }

  lemma OnwardStart(page: Page, selector: string, roots: seq<string>, rest: nat, walked: nat)
    requires roots != []
    ensures Probe(page, selector, Line(page, roots, rest + 1), walked) ==
            Onward(page, selector, [], roots, [], rest, walked)
  {
    hide Probe;
    assert [] + HostsIn(page, roots) == HostsIn(page, roots);
    assert [] + OpenedBy(page, HostsIn(page, roots)) == Below(page, roots);
  }

  lemma OnwardRoot(page: Page, selector: string, roots: seq<string>, deeper: seq<string>, rest: nat, walked: nat)
    requires roots != []
    ensures Onward(page, selector, [], roots, deeper, rest, walked) ==
            Onward(page, selector, Found(page, roots[0], "*"), roots[1..], deeper, rest, walked)
  {
    hide Probe;
    assert [] + HostsIn(page, roots) == Found(page, roots[0], "*") + HostsIn(page, roots[1..]);
  }

  lemma OnwardEnd(page: Page, selector: string, deeper: seq<string>, rest: nat, walked: nat)
    ensures Onward(page, selector, [], [], deeper, rest, walked) ==
            Probe(page, selector, Line(page, deeper, rest), walked)
  {
    hide Probe;
    assert deeper + OpenedBy(page, []) == deeper;
    assert [] + Line(page, deeper, rest) == Line(page, deeper, rest);
  }

  lemma AheadStep(page: Page, hosts: seq<string>, roots: seq<string>, deeper: seq<string>, rest: nat)
    requires hosts != []
    ensures var root := Opened(page, hosts[0]);
      Ahead(page, hosts, roots, deeper, rest) ==
      [hosts[0]] + Ahead(page, hosts[1..], roots, if root == "" then deeper else deeper + [root], rest)
  {
    hide HostsIn, Line, Opened;
    var level, after := hosts + HostsIn(page, roots), hosts[1..] + HostsIn(page, roots);
    var root := Opened(page, hosts[0]);
    assert level[1..] == after && level == [hosts[0]] + after;
    var more := if root == "" then deeper else deeper + [root];
    assert deeper + OpenedBy(page, level) == more + OpenedBy(page, after);
    assert level + Line(page, more + OpenedBy(page, after), rest) ==
           [hosts[0]] + (after + Line(page, more + OpenedBy(page, after), rest));
  }

  // One turn of the innermost loop.
  lemma OnwardStep(page: Page, selector: string, hosts: seq<string>, roots: seq<string>, deeper: seq<string>, rest: nat,
                   walked: nat)
    requires hosts != []
    ensures var root := Opened(page, hosts[0]);
      Onward(page, selector, hosts, roots, deeper, rest, walked) ==
      if walked >= MAX_NODES then Walk("", walked, Some(NodeCap))
      else if root == "" then Onward(page, selector, hosts[1..], roots, deeper, rest, walked + 1)
      else if Found(page, root, selector) != [] then Walk(Found(page, root, selector)[0], walked + 1, None)
      else Onward(page, selector, hosts[1..], roots, deeper + [root], rest, walked + 1)
  {
    hide Ahead, Opened, Found;
    AheadStep(page, hosts, roots, deeper, rest);
    var root := Opened(page, hosts[0]);
    var next := Ahead(page, hosts[1..], roots, if root == "" then deeper else deeper + [root], rest);
    assert ([hosts[0]] + next)[1..] == next;
  }

  lemma ProbeNothing(page: Page, selector: string, roots: seq<string>, depth: nat, walked: nat)
    requires depth == 0 || roots == []
    ensures Probe(page, selector, Line(page, roots, depth), walked) == Walk("", walked, None)
  {
  }
}
