/**
What the walk finds on a page that a steady driver shows: the first match by
shadow level, unless the node cap stops it first.
*/
module ShadowWalkLaws {
  import opened Wrappers
  import opened ShadowWalk

  // Root i on level k has a match.
  ghost predicate MatchAt(page: Page, selector: string, k: nat, i: nat) {
    i < |Level(page, k)| && Found(page, Level(page, k)[i], selector) != []
  }

  ghost predicate Before(k: nat, i: nat, l: nat, j: nat) {
    k < l || (k == l && i < j)
  }

  // Root i on level k has a match, and no root before it in level order has one.
  ghost predicate FirstAt(page: Page, selector: string, k: nat, i: nat) {
    MatchAt(page, selector, k, i) && forall l: nat, j: nat :: Before(l, j, k, i) ==> !MatchAt(page, selector, l, j)
  }

  lemma {:induction false} FirstInPlace(page: Page, selector: string, roots: seq<string>)
    ensures var r := FirstIn(page, selector, roots);
      && (r.None? ==> forall i :: 0 <= i < |roots| ==> Found(page, roots[i], selector) == [])
      && (r.Some? ==> r.value != "" && exists i ::
              && 0 <= i < |roots|
              && Found(page, roots[i], selector) != [] && r.value == Found(page, roots[i], selector)[0]
              && forall j :: 0 <= j < i ==> Found(page, roots[j], selector) == [])
  {
    hide Found;
    if roots != [] {
      var rest := roots[1..];
      FirstInPlace(page, selector, rest);
      var ids := Found(page, roots[0], selector);
      if ids != [] {
        assert "" !in ids && ids[0] in ids;
      } else if FirstIn(page, selector, rest).Some? {
        var i :| && 0 <= i < |rest| && Found(page, rest[i], selector) != []
          && FirstIn(page, selector, rest).value == Found(page, rest[i], selector)[0]
          && forall j :: 0 <= j < i ==> Found(page, rest[j], selector) == [];
        assert roots[i + 1] == rest[i];
        assert forall j :: 1 <= j < i + 1 ==> roots[j] == rest[j - 1];
      } else {
        assert forall j :: 1 <= j < |roots| ==> roots[j] == rest[j - 1];
      }
    }
  }

  // The recursive reference definition is the positional one.
  lemma {:induction false} FirstByLevelIsFirst(page: Page, selector: string, k: nat, depth: nat)
    requires forall l: nat, j: nat :: l < k ==> !MatchAt(page, selector, l, j)
    ensures var r := FirstByLevel(page, selector, Level(page, k), depth);
      && (r.None? ==> forall l: nat, j: nat :: l <= k + depth ==> !MatchAt(page, selector, l, j))
      && (r.Some? ==> r.value != "" && exists l: nat, i: nat ::
              && l <= k + depth && FirstAt(page, selector, l, i)
              && r.value == Found(page, Level(page, l)[i], selector)[0])
    decreases depth
  {
    hide Found, FirstIn, Below;
    var roots := Level(page, k);
    FirstInPlace(page, selector, roots);
    var here := FirstIn(page, selector, roots);
    if here.Some? {
      var i :| && 0 <= i < |roots| && Found(page, roots[i], selector) != []
        && here.value == Found(page, roots[i], selector)[0]
        && forall j :: 0 <= j < i ==> Found(page, roots[j], selector) == [];
      assert FirstAt(page, selector, k, i);
    } else {
      assert forall j: nat :: !MatchAt(page, selector, k, j);
      if depth > 0 {
        assert Level(page, k + 1) == Below(page, roots);
        FirstByLevelIsFirst(page, selector, k + 1, depth - 1);
      }
    }
  }

  // The roots below a list of roots come in the order of that list.
  lemma {:induction false} OpenedInOrder(page: Page, a: seq<string>, b: seq<string>)
    ensures OpenedBy(page, a + b) == OpenedBy(page, a) + OpenedBy(page, b)
  {
    if a == [] {
      assert a + b == b;
    } else {
      assert (a + b)[1..] == a[1..] + b;
      OpenedInOrder(page, a[1..], b);
    }
  }

  lemma {:induction false} HostsInOrder(page: Page, a: seq<string>, b: seq<string>)
    ensures HostsIn(page, a + b) == HostsIn(page, a) + HostsIn(page, b)
  {
    if a == [] {
      assert a + b == b;
    } else {
      assert (a + b)[1..] == a[1..] + b;
      HostsInOrder(page, a[1..], b);
    }
  }

  lemma BelowInOrder(page: Page, a: seq<string>, b: seq<string>)
    ensures Below(page, a + b) == Below(page, a) + Below(page, b)
  {
    HostsInOrder(page, a, b);
    OpenedInOrder(page, HostsIn(page, a), HostsIn(page, b));
  }

  // Below one root lie the shadow roots of its elements: those of the elements
  // that hand one over.
  lemma BelowOne(page: Page, root: string, hosts: seq<string>, host: string)
    requires Elements(page(FindAll(root, "*"))) == Ok(hosts + [host])
    ensures Below(page, [root]) == OpenedBy(page, hosts) + if Opened(page, host) == "" then [] else [Opened(page, host)]
  {
    assert HostsIn(page, [root]) == hosts + [host];
    OpenedInOrder(page, hosts, [host]);
    assert OpenedBy(page, [host]) == if Opened(page, host) == "" then [] else [Opened(page, host)];
  }

  // Probing.  ------------------------------------------------------------------

  predicate Stopped(w: Walk) { w.found != "" || w.err.Some? }

  lemma {:induction false} ProbeAppend(page: Page, selector: string, a: seq<string>, b: seq<string>, walked: nat)
    ensures var w := Probe(page, selector, a, walked);
      && Probe(page, selector, a + b, walked) == (if Stopped(w) then w else Probe(page, selector, b, walked + |a|))
      && (!Stopped(w) ==> w.walked == walked + |a|)
  {
    hide Found, Opened;
    if a == [] {
      assert a + b == b;
    } else {
      assert (a + b)[1..] == a[1..] + b;
      ProbeAppend(page, selector, a[1..], b, walked + 1);
      BehindNamed(page, selector, a[0]);
    }
  }

  lemma BehindNamed(page: Page, selector: string, host: string)
    ensures var ids := Behind(page, selector, host); ids != [] ==> ids[0] != ""
  {
    var ids := Behind(page, selector, host);
    assert ids != [] ==> ids[0] in ids;
  }

  // Probing hosts looks for the first match in the roots they open.
  lemma {:induction false} ProbeOpens(page: Page, selector: string, hosts: seq<string>, walked: nat)
    ensures var w := Probe(page, selector, hosts, walked);
      w.err.None? ==> w.found == FirstIn(page, selector, OpenedBy(page, hosts)).GetOr("")
  {
    hide Found, Opened;
    if hosts != [] {
      ProbeOpens(page, selector, hosts[1..], walked + 1);
      var root := Opened(page, hosts[0]);
      var all, rest := OpenedBy(page, hosts), OpenedBy(page, hosts[1..]);
      if root != "" {
        assert all[0] == root && all[1..] == rest;
      } else {
        assert all == rest;
      }
    }
  }

  lemma {:induction false} NoRoots(page: Page, selector: string, depth: nat)
    ensures FirstByLevel(page, selector, [], depth) == None
    decreases depth
  {
    if depth > 0 {
      assert Below(page, []) == [];
      NoRoots(page, selector, depth - 1);
    }
  }

  // Probing the whole line is the level-by-level search below the given roots.
  lemma {:induction false} ProbeLine(page: Page, selector: string, roots: seq<string>, depth: nat, walked: nat)
    requires depth > 0
    ensures var w := Probe(page, selector, Line(page, roots, depth), walked);
      w.err.None? ==> w.found == FirstByLevel(page, selector, Below(page, roots), depth - 1).GetOr("")
    decreases depth
  {
    hide Found, Opened, Behind, Probe;
    if roots == [] {
      assert Below(page, roots) == [];
      NoRoots(page, selector, depth - 1);
      ProbeNothing(page, selector, roots, depth, walked);
    } else {
      var hosts, below := HostsIn(page, roots), Below(page, roots);
      ProbeAppend(page, selector, hosts, Line(page, below, depth - 1), walked);
      ProbeOpens(page, selector, hosts, walked);
      FirstInPlace(page, selector, below);
      if depth > 1 {
        ProbeLine(page, selector, below, depth - 1, walked + |hosts|);
      } else {
        ProbeNothing(page, selector, below, 0, walked + |hosts|);
      }
    }
  }

  lemma {:induction false} ProbeCap(page: Page, selector: string, hosts: seq<string>, walked: nat)
    requires walked <= MAX_NODES
    ensures var left := MAX_NODES - walked;
      Probe(page, selector, hosts, walked).err.Some? <==>
      |hosts| > left && forall i :: 0 <= i < left ==> Behind(page, selector, hosts[i]) == []
  {
    hide Behind;
    if hosts != [] && walked < MAX_NODES {
      ProbeCap(page, selector, hosts[1..], walked + 1);
      assert forall i :: 1 <= i < |hosts| ==> hosts[i] == hosts[1..][i - 1];
    }
  }

  // Main results.  --------------------------------------------------------------

  // The walk refines the search by shadow level.
  lemma RefinesSearchByLevel(page: Page, selector: string)
    ensures var w := Walked(page, selector);
      w.err.None? ==> w.found == FirstByLevel(page, selector, [""], MAX_DEPTH).GetOr("")
  {
    hide Probe, Line, Below;
    var ids := Found(page, "", selector);
    var roots := [""];
    assert roots[0] == "" && FirstIn(page, selector, roots[1..]) == None;
    assert ids != [] ==> ids[0] in ids;
    ProbeLine(page, selector, [""], MAX_DEPTH, 0);
  }

  // A returned element is the first match in level order, at the least shadow
  // depth of any match; an empty result means no root down to six shadow levels
  // has a match.
  lemma FindsFirstMatch(page: Page, selector: string)
    requires Walked(page, selector).err.None?
    ensures var found := Walked(page, selector).found;
      && (found != "" ==> exists k: nat, i: nat ::
              && k <= 6 && FirstAt(page, selector, k, i)
              && NamedFirst(page(FindAll(Level(page, k)[i], selector)), found))
      && (found == "" ==> forall k: nat, i: nat :: k <= 6 && i < |Level(page, k)| ==>
              NamesNone(page(FindAll(Level(page, k)[i], selector))))
  {
    hide Walked, FirstByLevel, Found, NamedFirst, NamesNone;
    RefinesSearchByLevel(page, selector);
    assert Level(page, 0) == [""];
    FirstByLevelIsFirst(page, selector, 0, MAX_DEPTH);
    var found := Walked(page, selector).found;
    if found != "" {
      var k: nat, i: nat :| k <= MAX_DEPTH && FirstAt(page, selector, k, i)
                            && found == Found(page, Level(page, k)[i], selector)[0];
      FoundFirst(page, Level(page, k)[i], selector);
    } else {
      forall k: nat, i: nat | k <= 6 && i < |Level(page, k)|
        ensures NamesNone(page(FindAll(Level(page, k)[i], selector)))
      {
        assert !MatchAt(page, selector, k, i);
        FoundFirst(page, Level(page, k)[i], selector);
      }
    }
  }

  // What a query finds on the page, by the page's answer.
  lemma FoundFirst(page: Page, root: string, selector: string)
    ensures var ids, a := Found(page, root, selector), page(FindAll(root, selector));
      if ids != [] then NamedFirst(a, ids[0]) else NamesNone(a)
  {
    hide Elements, NamedFirst, NamesNone;
    FirstOfElements(page(FindAll(root, selector)));
  }

  // The hosts counted: all of them when nothing was found, and otherwise those up
  // to the one whose root has the match.
  lemma {:induction false} ProbeCounts(page: Page, selector: string, hosts: seq<string>, walked: nat)
    ensures var w := Probe(page, selector, hosts, walked); var n := w.walked - walked;
      && 0 <= n <= |hosts|
      && (w.err.None? && w.found == "" ==> n == |hosts|)
      && (w.found != "" ==> 0 < n && Behind(page, selector, hosts[n - 1]) != []
                            && w.found == Behind(page, selector, hosts[n - 1])[0])
      && (forall i :: 0 <= i < n && (w.found == "" || i < n - 1) ==> Behind(page, selector, hosts[i]) == [])
  {
    hide Behind;
    if hosts != [] {
      ProbeCounts(page, selector, hosts[1..], walked + 1);
      BehindNamed(page, selector, hosts[0]);
      assert forall i :: 1 <= i < |hosts| ==> hosts[i] == hosts[1..][i - 1];
    }
  }

  // The number returned is that of the hosts probed: none for a match in the
  // document, and otherwise as far as the first match in walking order.
  lemma CountsHosts(page: Page, selector: string)
    ensures var w := Walked(page, selector); var line := Line(page, [""], 6); var n := w.walked;
      if Found(page, "", selector) != [] then n == 0
      else if w.err.Some? then n == 0 || n == 400
      else if w.found == "" then n == |line|
      else 0 < n <= |line| && Behind(page, selector, line[n - 1]) != []
           && forall i :: 0 <= i < n - 1 ==> Behind(page, selector, line[i]) == []
  {
    hide Line, Behind, Probe;
    ProbeCounts(page, selector, Line(page, [""], 6), 0);
    CapIsFull(page, selector, Line(page, [""], 6), 0);
  }

  lemma {:induction false} CapIsFull(page: Page, selector: string, hosts: seq<string>, walked: nat)
    requires walked <= 400
    ensures var w := Probe(page, selector, hosts, walked);
      w.err.Some? ==> w.err == Some(NodeCap) && w.walked == 400 && w.found == ""
  {
    hide Behind;
    if hosts != [] && walked < 400 { CapIsFull(page, selector, hosts[1..], walked + 1); }
  }

  // The walk fails exactly when the document cannot be queried, or when the
  // document has no match, there are more than 400 hosts, and none of the first
  // 400 leads to a match.
  lemma FailsExactlyWhen(page: Page, selector: string)
    ensures var w := Walked(page, selector); var line := Line(page, [""], 6);
      w.err.Some? <==>
      || Elements(page(FindAll("", selector))).Err?
      || (Found(page, "", selector) == [] && |line| > 400
          && forall i :: 0 <= i < 400 ==> Behind(page, selector, line[i]) == [])
  {
    hide Line, Behind, Probe;
    ProbeCap(page, selector, Line(page, [""], MAX_DEPTH), 0);
  }
}
