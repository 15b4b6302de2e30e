/**
The search for the challenge frame in a pierced DOM tree, where shadow roots and
a frame's own document hang off their own fields.
*/
module PiercedTree {
  import opened Wrappers

  const CHALLENGE_HOST := "challenges.cloudflare.com"

  // Attributes come as name, value, name, value...
  datatype Node = Node(
    nodeID: int, name: string, attributes: seq<string>,
    children: seq<Node>, shadowRoots: seq<Node>, content: Option<Node>)

  // strings.EqualFold against an ASCII word without k or s: no letter outside
  // ASCII folds to one of its letters.
  function Fold(c: char): char {
    if 'A' <= c <= 'Z' then ((c as int) + 32) as char else c
  }

  predicate IsFrame(name: string) {
    |name| == 6 && forall i :: 0 <= i < 6 ==> Fold(name[i]) == "iframe"[i]
  }

  // A frame by its name: "iframe" in any mixture of cases.
  lemma FrameNames(name: string)
    ensures IsFrame(name) <==>
      |name| == 6 && forall i :: 0 <= i < 6 ==> name[i] == "iframe"[i] || name[i] == "IFRAME"[i]
  {
    forall i | 0 <= i < 6 && |name| == 6
      ensures Fold(name[i]) == "iframe"[i] <==> name[i] == "iframe"[i] || name[i] == "IFRAME"[i]
    {
      FoldIs(name[i], "iframe"[i], "IFRAME"[i]);
    }
  }

  lemma FoldIs(c: char, lower: char, upper: char)
    requires 'a' <= lower <= 'z' && upper as int == lower as int - 32
    ensures Fold(c) == lower <==> c == lower || c == upper
  {
  }

  predicate OccursAt(s: string, sub: string, k: nat) {
    k + |sub| <= |s| && s[k..k + |sub|] == sub
  }

  // strings.Contains
  predicate Contains(s: string, sub: string) {
    exists k :: 0 <= k <= |s| && OccursAt(s, sub, k)
  }

  // The value behind the first occurrence of the name in a name's place.
  function Attribute(attributes: seq<string>, name: string): string {
    if |attributes| < 2 then ""
    else if attributes[0] == name then attributes[1]
    else Attribute(attributes[2..], name)
  }

  method NodeAttribute(attributes: seq<string>, name: string) returns (value: string)
    ensures value == Attribute(attributes, name)
  {
    var i := 0;
    while i + 1 < |attributes|
      invariant i <= |attributes|
      invariant Attribute(attributes, name) == Attribute(attributes[i..], name)
    {
      if attributes[i] == name { return attributes[i + 1]; }
      assert attributes[i..][2..] == attributes[i + 2..];
      i := i + 2;
    }
    return "";
  }

  // Is the name in the place of pair i, and in no earlier one?
  predicate FirstPair(attributes: seq<string>, name: string, i: nat) {
    && 2 * i + 1 < |attributes| && attributes[2 * i] == name
    && forall j :: 0 <= j < i ==> attributes[2 * j] != name
  }

  lemma {:induction false} AttributeIsFirstPair(attributes: seq<string>, name: string, i: nat)
    requires FirstPair(attributes, name, i)
    ensures Attribute(attributes, name) == attributes[2 * i + 1]
  {
    if i > 0 {
      assert attributes[2 * 0] != name;
      var rest := attributes[2..];
      forall j | 0 <= j < i - 1 ensures rest[2 * j] != name {
        assert rest[2 * j] == attributes[2 * (j + 1)];
      }
      AttributeIsFirstPair(rest, name, i - 1);
    }
  }

  lemma {:induction false} NoPairNoValue(attributes: seq<string>, name: string)
    requires forall i: nat :: 2 * i + 1 < |attributes| ==> attributes[2 * i] != name
    ensures Attribute(attributes, name) == ""
  {
    if |attributes| >= 2 {
      assert attributes[2 * 0] != name;
      var rest := attributes[2..];
      forall i: nat | 2 * i + 1 < |rest| ensures rest[2 * i] != name {
        assert rest[2 * i] == attributes[2 * (i + 1)];
      }
      NoPairNoValue(rest, name);
    }
  }

  predicate IsChallengeFrame(node: Node) {
    IsFrame(node.name) && Contains(Attribute(node.attributes, "src"), CHALLENGE_HOST)
  }

  lemma ContainsIs(s: string, sub: string)
    ensures Contains(s, sub) <==> exists a, b :: s == a + sub + b
  {
    if Contains(s, sub) {
      var k :| 0 <= k <= |s| && OccursAt(s, sub, k);
      assert s == s[..k] + sub + s[k + |sub|..];
    }
    if a, b :| s == a + sub + b {
      assert OccursAt(s, sub, |a|);
    }
  }

  lemma AttributeOrNone(attributes: seq<string>, name: string) returns (i: nat)
    ensures FirstPair(attributes, name, i)
            || (Attribute(attributes, name) == "" && forall j :: !FirstPair(attributes, name, j))
    ensures FirstPair(attributes, name, i) ==> Attribute(attributes, name) == attributes[2 * i + 1]
  {
    i := 0;
    while 2 * i + 1 < |attributes| && attributes[2 * i] != name
      invariant forall j :: 0 <= j < i ==> 2 * j + 1 < |attributes| && attributes[2 * j] != name
    {
      i := i + 1;
    }
    if 2 * i + 1 < |attributes| { AttributeIsFirstPair(attributes, name, i); } else { NoPairNoValue(attributes, name); }
  }

  // A challenge frame is an iframe whose first "src" names the challenge's host.
  lemma ChallengeFrames(node: Node)
    ensures IsChallengeFrame(node) <==>
      && IsFrame(node.name)
      && exists i :: FirstPair(node.attributes, "src", i) && exists a, b ::
           node.attributes[2 * i + 1] == a + "challenges.cloudflare.com" + b
  {
    var src := Attribute(node.attributes, "src");
    var i := AttributeOrNone(node.attributes, "src");
    ContainsIs(src, CHALLENGE_HOST);
    forall j: nat | FirstPair(node.attributes, "src", j)
      ensures node.attributes[2 * j + 1] == src
    {
      AttributeIsFirstPair(node.attributes, "src", j);
    }
    hide Contains, Attribute, IsFrame;
    assert |CHALLENGE_HOST| > 0;
  }

  // findChallengeFrameNode
  function Find(node: Node): Option<Node>
    decreases node
  {
    if IsChallengeFrame(node) then Some(node)
    else
      var child := FindIn(node.children);
      if child.Some? then child
      else
        var shadow := FindIn(node.shadowRoots);
        if shadow.Some? then shadow
        else if node.content.Some? then Find(node.content.value)
        else None
  }

  // Its loops over a node's children and shadow roots.
  function FindIn(nodes: seq<Node>): Option<Node>
    decreases nodes
  {
    if nodes == [] then None
    else
      var found := Find(nodes[0]);
      if found.Some? then found else FindIn(nodes[1..])
  }

  // Every node of a tree: the node, its children, its shadow roots, its document.
  function Preorder(node: Node): seq<Node>
    decreases node
  {
    [node] + PreorderOf(node.children) + PreorderOf(node.shadowRoots)
    + if node.content.Some? then Preorder(node.content.value) else []
  }

  function PreorderOf(nodes: seq<Node>): seq<Node>
    decreases nodes
  {
    if nodes == [] then [] else Preorder(nodes[0]) + PreorderOf(nodes[1..])
  }

  // The first challenge frame of a list.
  function First(nodes: seq<Node>): (r: Option<Node>)
    ensures r.None? <==> forall n :: n in nodes ==> !IsChallengeFrame(n)
    ensures r.Some? ==> exists i :: 0 <= i < |nodes| && nodes[i] == r.value && IsChallengeFrame(r.value)
                                    && forall j :: 0 <= j < i ==> !IsChallengeFrame(nodes[j])
  {
    if nodes == [] then None
    else if IsChallengeFrame(nodes[0]) then Some(nodes[0])
    else
      var r := First(nodes[1..]);
      assert forall i :: 1 <= i < |nodes| ==> nodes[i] == nodes[1..][i - 1];
      assert r.Some? ==> forall i :: 0 <= i < |nodes| - 1 ==> nodes[1..][i] == nodes[i + 1];
      r
  }

  lemma {:induction false} FirstAppend(a: seq<Node>, b: seq<Node>)
    ensures First(a + b) == if First(a).Some? then First(a) else First(b)
  {
    if a == [] {
      assert a + b == b;
    } else {
      assert (a + b)[1..] == a[1..] + b;
      FirstAppend(a[1..], b);
    }
  }

  // The search returns the first challenge frame in pre-order.
  lemma {:induction false} FindIsFirst(node: Node)
    ensures Find(node) == First(Preorder(node))
    decreases node
  {
    hide IsChallengeFrame;
    var a, b := PreorderOf(node.children), PreorderOf(node.shadowRoots);
    var c := if node.content.Some? then Preorder(node.content.value) else [];
    FindInIsFirst(node.children);
    FindInIsFirst(node.shadowRoots);
    if node.content.Some? { FindIsFirst(node.content.value); }
    FirstAppend([node] + a + b, c);
    FirstAppend([node] + a, b);
    FirstAppend([node], a);
    assert [node][1..] == [];
  }

  lemma {:induction false} FindInIsFirst(nodes: seq<Node>)
    ensures FindIn(nodes) == First(PreorderOf(nodes))
    decreases nodes
  {
    hide IsChallengeFrame;
    if nodes != [] {
      FindIsFirst(nodes[0]);
      FindInIsFirst(nodes[1..]);
      FirstAppend(Preorder(nodes[0]), PreorderOf(nodes[1..]));
    }
  }

  // n is the tree's root, or lies below one of its parts.
  predicate Within(n: Node, node: Node)
    decreases node
  {
    || n == node
    || (exists i :: 0 <= i < |node.children| && Within(n, node.children[i]))
    || (exists i :: 0 <= i < |node.shadowRoots| && Within(n, node.shadowRoots[i]))
    || (node.content.Some? && Within(n, node.content.value))
  }

  lemma {:induction false} PreorderHolds(n: Node, node: Node)
    ensures n in Preorder(node) <==> Within(n, node)
    decreases node
  {
    PreorderOfHolds(n, node.children);
    PreorderOfHolds(n, node.shadowRoots);
    if node.content.Some? { PreorderHolds(n, node.content.value); }
  }

  lemma {:induction false} PreorderOfHolds(n: Node, nodes: seq<Node>)
    ensures n in PreorderOf(nodes) <==> exists i :: 0 <= i < |nodes| && Within(n, nodes[i])
    decreases nodes
  {
    hide Within;
    if nodes != [] {
      PreorderHolds(n, nodes[0]);
      PreorderOfHolds(n, nodes[1..]);
      assert forall i :: 1 <= i < |nodes| ==> nodes[i] == nodes[1..][i - 1];
      assert forall i :: 0 <= i < |nodes| - 1 ==> nodes[1..][i] == nodes[i + 1];
    }
  }

  // A frame is found exactly when the tree has one, wherever it hangs.
  lemma FindsWhenThere(node: Node)
    ensures Find(node).Some? <==> exists n :: Within(n, node) && IsChallengeFrame(n)
    ensures Find(node).Some? ==> Within(Find(node).value, node) && IsChallengeFrame(Find(node).value)
  {
    hide IsChallengeFrame, Within, Preorder, Find;
    FindIsFirst(node);
    forall n ensures n in Preorder(node) <==> Within(n, node) { PreorderHolds(n, node); }
  }
}
