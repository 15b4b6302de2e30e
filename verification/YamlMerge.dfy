/**
Merging the settings to be saved into the node tree of the existing file.

A mapping node is an ordered list of key/value entries; keys and values carry
comments.  `Merged` says what the merge makes of such a list without saying how;
`MappingNode.Merge` is the in-place algorithm, with its position index, its
appends, its recursion and its delete-while-scanning loop.
*/
module YamlMerge {
  import opened Wrappers

  datatype Comments = Comments(head: string, line: string, foot: string)

  // A scalar as the YAML core schema resolves it, next to its source text.
  datatype Scalar =
    | Str(text: string)
    | Int(n: int, text: string)
    | Bool(b: bool, text: string)
    | Null(text: string)

  datatype Node =
    | ScalarNode(scalar: Scalar, comments: Comments)
    | MappingNodeOf(entries: seq<Entry>, comments: Comments)
    | OtherNode(kind: nat, comments: Comments)  // sequences

  datatype Entry = Entry(key: string, notes: Comments, value: Node)

  function WithComments(v: Node, c: Comments): Node {
    v.(comments := c)
  }

  function Keys(es: seq<Entry>): seq<string> {
    seq(|es|, i requires 0 <= i < |es| => es[i].key)
  }

  predicate HasKey(es: seq<Entry>, k: string) {
    exists i :: 0 <= i < |es| && es[i].key == k
  }

  // Scalar keys, none of them twice in one mapping.
  predicate Distinct(es: seq<Entry>) {
    forall i, j :: 0 <= i < j < |es| ==> es[i].key != es[j].key
  }

  ghost predicate DeepDistinct(es: seq<Entry>)
    decreases es
  {
    Distinct(es) && forall i :: 0 <= i < |es| ==> DeepNode(es[i].value)
  }

  ghost predicate DeepNode(v: Node)
    decreases v
  {
    v.MappingNodeOf? ==> DeepDistinct(v.entries)
  }

  // The last entry with the key, as the position index finds it.
  function Position(es: seq<Entry>, k: string): (p: Option<nat>)
    ensures p.Some? ==> p.value < |es| && es[p.value].key == k && forall j :: p.value < j < |es| ==> es[j].key != k
    ensures p.None? ==> !HasKey(es, k)
  {
    if es == [] then None
    else if es[|es| - 1].key == k then Some(|es| - 1)
    else Position(es[..|es| - 1], k)
  }

  function Lookup(es: seq<Entry>, k: string): Option<Node> {
    match Position(es, k)
    case None => None
    case Some(p) => Some(es[p].value)
  }

  // What the merge makes of one existing value, given the value to be saved.
  function Combine(old_: Node, v: Node, owned: set<string>): Node
    decreases old_
  {
    if old_.MappingNodeOf? && v.MappingNodeOf? then
      MappingNodeOf(Merged(old_.entries, v.entries, owned), old_.comments)
    else
      WithComments(v, old_.comments)
  }

  // What is left of the first n existing entries.
  function Kept(dst: seq<Entry>, n: nat, src: seq<Entry>, owned: set<string>): seq<Entry>
    requires n <= |dst|
    decreases dst, n
  {
    if n == 0 then []
    else Kept(dst, n - 1, src, owned)
         + KeptEntry(dst[n - 1], Position(dst, dst[n - 1].key) != Some(n - 1), src, owned)
  }

  // Of a key that occurs twice only the last entry takes the saved value.
  function KeptEntry(e: Entry, shadowed: bool, src: seq<Entry>, owned: set<string>): seq<Entry>
    decreases e
  {
    match Lookup(src, e.key)
    case Some(v) => if shadowed then [e] else [e.(value := Combine(e.value, v, owned))]
    case None => Swept(e, owned)
  }

  // An existing entry that is not among those saved.
  function Swept(e: Entry, owned: set<string>): seq<Entry> {
    if e.key !in owned then [e]
    else if e.value.ScalarNode? then [e.(value := ScalarNode(Str(""), e.value.comments))]
    else []
  }

  // The saved entries whose keys the file does not have, in their order.
  function Added(dst: seq<Entry>, src: seq<Entry>): seq<Entry> {
    if src == [] then []
    else
      var n := |src| - 1;
      Added(dst, src[..n]) + if HasKey(dst, src[n].key) then [] else [src[n]]
  }

  function Merged(dst: seq<Entry>, src: seq<Entry>, owned: set<string>): seq<Entry>
    decreases dst
  {
    Kept(dst, |dst|, src, owned) + Added(dst, src)
  }

  // The two loops.  ---------------------------------------------------------

  // The existing entries after the first loop, before anything is swept.
  function Updated(dst: seq<Entry>, src: seq<Entry>, owned: set<string>): (r: seq<Entry>)
    ensures |r| == |dst| && forall i :: 0 <= i < |r| ==> r[i].key == dst[i].key
  {
    seq(|dst|, i requires 0 <= i < |dst| => UpdatedEntry(dst, i, src, owned))
  }

  function UpdatedEntry(dst: seq<Entry>, i: nat, src: seq<Entry>, owned: set<string>): (e: Entry)
    requires i < |dst|
    ensures e.key == dst[i].key
  {
    match Lookup(src, dst[i].key)
    case Some(v) =>
      if Position(dst, dst[i].key) == Some(i) then dst[i].(value := Combine(dst[i].value, v, owned)) else dst[i]
    case None => dst[i]
  }

  function SweptPrefix(es: seq<Entry>, n: nat, seen: set<string>, owned: set<string>): seq<Entry>
    requires n <= |es|
  {
    if n == 0 then []
    else SweptPrefix(es, n - 1, seen, owned) + if es[n - 1].key in seen then [es[n - 1]] else Swept(es[n - 1], owned)
  }

  function KeySet(es: seq<Entry>): set<string> {
    set i | 0 <= i < |es| :: es[i].key
  }

  lemma PositionOf(es: seq<Entry>, k: string, p: nat)
    requires p < |es| && es[p].key == k && forall j :: p < j < |es| ==> es[j].key != k
    ensures Position(es, k) == Some(p)
  {
  }

  lemma KeySetLookup(es: seq<Entry>, k: string)
    ensures k in KeySet(es) <==> Lookup(es, k).Some?
  {
  }

  lemma {:induction false} SweptUpdated(dst: seq<Entry>, tail: seq<Entry>, n: nat, src: seq<Entry>, owned: set<string>)
    requires n <= |dst|
    ensures SweptPrefix(Updated(dst, src, owned) + tail, n, KeySet(src), owned) == Kept(dst, n, src, owned)
  {
    hide Combine, Merged, KeySet, HasKey, Position, Lookup, Swept;
    if n > 0 {
      SweptUpdated(dst, tail, n - 1, src, owned);
      KeySetLookup(src, dst[n - 1].key);
    }
  }

  lemma {:induction false} AddedFromSrc(dst: seq<Entry>, src: seq<Entry>)
    ensures forall i :: 0 <= i < |Added(dst, src)| ==>
      Added(dst, src)[i] in src && !HasKey(dst, Added(dst, src)[i].key)
  {
    if src != [] { AddedFromSrc(dst, src[..|src| - 1]); }
  }

  lemma {:induction false} SweptAdded(
    head: seq<Entry>, added: seq<Entry>, n: nat, seen: set<string>, owned: set<string>)
    requires |head| <= n <= |head| + |added|
    requires forall i :: 0 <= i < |added| ==> added[i].key in seen
    ensures SweptPrefix(head + added, n, seen, owned)
         == SweptPrefix(head + added, |head|, seen, owned) + added[..n - |head|]
  {
    if n > |head| {
      SweptAdded(head, added, n - 1, seen, owned);
      assert added[..n - |head|] == added[..n - 1 - |head|] + [added[n - 1 - |head|]];
    }
  }

  // Sweeping what the first loop leaves gives the merge.
  lemma TwoLoops(dst: seq<Entry>, src: seq<Entry>, owned: set<string>)
    ensures var es := Updated(dst, src, owned) + Added(dst, src);
      SweptPrefix(es, |es|, KeySet(src), owned) == Merged(dst, src, owned)
  {
    hide Updated, Added, Kept, SweptPrefix;
    var head, added := Updated(dst, src, owned), Added(dst, src);
    AddedFromSrc(dst, src);
    SweptAdded(head, added, |head| + |added|, KeySet(src), owned);
    assert added[..|added|] == added;
    SweptUpdated(dst, added, |dst|, src, owned);
  }

  // One more saved entry.
  lemma LookupSnoc(es: seq<Entry>, m: nat, k: string)
    requires m < |es|
    ensures Lookup(es[..m + 1], k) == if es[m].key == k then Some(es[m].value) else Lookup(es[..m], k)
  {
    assert es[..m + 1][..m] == es[..m];
  }

  lemma NotYetSeen(es: seq<Entry>, m: nat)
    requires m < |es| && Distinct(es)
    ensures Lookup(es[..m], es[m].key) == None
  {
  }

  lemma PositionSnoc(es: seq<Entry>, e: Entry, k: string)
    ensures Position(es + [e], k) == if e.key == k then Some(|es|) else Position(es, k)
    ensures HasKey(es + [e], k) <==> HasKey(es, k) || e.key == k
  {
    assert (es + [e])[..|es|] == es;
    assert (es + [e])[|es|] == e;
    if HasKey(es, k) {
      var j :| 0 <= j < |es| && es[j].key == k;
      assert (es + [e])[j].key == k;
    }
  }

  lemma {:induction false} PositionSameKeys(es: seq<Entry>, fs: seq<Entry>, k: string)
    requires |es| == |fs| && forall i :: 0 <= i < |es| ==> es[i].key == fs[i].key
    ensures Position(es, k) == Position(fs, k)
    ensures HasKey(es, k) <==> HasKey(fs, k)
  {
    if es != [] { PositionSameKeys(es[..|es| - 1], fs[..|fs| - 1], k); }
  }

  // The state of the first loop after m saved entries.
  function Filled(dst: seq<Entry>, src: seq<Entry>, m: nat, owned: set<string>): seq<Entry>
    requires m <= |src|
  {
    Updated(dst, src[..m], owned) + Added(dst, src[..m])
  }

  lemma AppendStep(dst: seq<Entry>, src: seq<Entry>, m: nat, owned: set<string>)
    requires m < |src| && Distinct(src) && !HasKey(Filled(dst, src, m, owned), src[m].key)
    ensures Filled(dst, src, m + 1, owned) == Filled(dst, src, m, owned) + [src[m]]
  {
    var key := src[m].key;
    assert forall i :: 0 <= i < |dst| ==> Filled(dst, src, m, owned)[i].key == dst[i].key;
    forall i | 0 <= i < |dst|
      ensures UpdatedEntry(dst, i, src[..m + 1], owned) == UpdatedEntry(dst, i, src[..m], owned)
    {
      LookupSnoc(src, m, dst[i].key);
    }
    assert Updated(dst, src[..m + 1], owned) == Updated(dst, src[..m], owned);
    assert src[..m + 1][..m] == src[..m];
  }

  // A saved entry under a key the file has adds nothing.
  lemma AddedSame(dst: seq<Entry>, src: seq<Entry>, m: nat)
    requires m < |src| && Position(dst, src[m].key).Some?
    ensures Added(dst, src[..m + 1]) == Added(dst, src[..m])
  {
    assert HasKey(dst, src[m].key);
    assert src[..m + 1][..m] == src[..m];
  }

  lemma FillStep(dst: seq<Entry>, src: seq<Entry>, m: nat, at: nat, owned: set<string>)
    requires m < |src| && Distinct(src) && Position(Filled(dst, src, m, owned), src[m].key) == Some(at)
    ensures at < |dst| && Filled(dst, src, m, owned)[at] == dst[at]
    ensures Filled(dst, src, m + 1, owned)
         == Filled(dst, src, m, owned)[at := dst[at].(value := Combine(dst[at].value, src[m].value, owned))]
  {
    hide Combine, Merged, KeySet, HasKey, Added;
    var key := src[m].key;
    var es := Filled(dst, src, m, owned);
    AddedFromSrc(dst, src[..m]);
    forall j | |dst| <= j < |es|
      ensures es[j].key != key
    {
      assert es[j] == Added(dst, src[..m])[j - |dst|] && es[j] in src[..m];
    }
    PositionOf(dst, key, at) by {
      forall j | at < j < |dst| ensures dst[j].key != key { assert es[j].key == dst[j].key; }
    }
    NotYetSeen(src, m);
    AddedSame(dst, src, m);
    hide Position, Lookup;
    forall i | 0 <= i < |dst|
      ensures UpdatedEntry(dst, i, src[..m + 1], owned)
           == if i == at then dst[at].(value := Combine(dst[at].value, src[m].value, owned))
              else UpdatedEntry(dst, i, src[..m], owned)
    {
      LookupSnoc(src, m, dst[i].key);
    }
  }

  // `index` maps every key to the position of its last entry.
  ghost predicate Indexes(index: map<string, nat>, es: seq<Entry>) {
    && (forall k :: k in index <==> HasKey(es, k))
    && (forall k :: k in index ==> Position(es, k) == Some(index[k]))
  }

  lemma IndexesSnoc(index: map<string, nat>, es: seq<Entry>, e: Entry)
    requires Indexes(index, es)
    ensures Indexes(index[e.key := |es|], es + [e])
  {
    forall k ensures Position(es + [e], k) == if e.key == k then Some(|es|) else Position(es, k)
             ensures HasKey(es + [e], k) <==> HasKey(es, k) || e.key == k
    {
      PositionSnoc(es, e, k);
    }
  }

  lemma IndexesKey(index: map<string, nat>, es: seq<Entry>, k: string)
    requires Indexes(index, es)
    ensures if k in index then Position(es, k) == Some(index[k]) else !HasKey(es, k)
  {
  }

  lemma FilledStart(dst: seq<Entry>, src: seq<Entry>, owned: set<string>)
    ensures Filled(dst, src, 0, owned) == dst
  {
  }

  lemma IndexesUpdate(index: map<string, nat>, es: seq<Entry>, at: nat, v: Node)
    requires Indexes(index, es) && at < |es|
    ensures Indexes(index, es[at := es[at].(value := v)])
  {
    forall k ensures Position(es, k) == Position(es[at := es[at].(value := v)], k)
             ensures HasKey(es, k) <==> HasKey(es[at := es[at].(value := v)], k)
    {
      PositionSameKeys(es, es[at := es[at].(value := v)], k);
    }
  }

  class MappingNode {
    var content: seq<Entry>

    constructor (content: seq<Entry>)
      ensures this.content == content
    {
      this.content := content;
    }

    // Where each key last occurs.
    method Index() returns (index: map<string, nat>)
      ensures Indexes(index, content)
    {
      index := map[];
      var i := 0;
      while i < |content|
        invariant 0 <= i <= |content|
        invariant Indexes(index, content[..i])
      {
        IndexesSnoc(index, content[..i], content[i]);
        assert content[..i + 1] == content[..i] + [content[i]];
        index := index[content[i].key := i];
        i := i + 1;
      }
      assert content[..|content|] == content;
    }

    // mergeMapping
    method Merge(src: seq<Entry>, owned: set<string>)
      requires DeepDistinct(src)
      modifies this
      ensures content == Merged(old(content), src, owned)
      decreases content
    {
      Fill(src, owned);
      assert src[..|src|] == src;
      Sweep(src, owned);
      TwoLoops(old(content), src, owned);
    }

    // The first loop: write every saved entry over its old one, or append it.
    method Fill(src: seq<Entry>, owned: set<string>)
      requires DeepDistinct(src)
      modifies this
      ensures content == Filled(old(content), src, |src|, owned)
      decreases content, 0
    {
      hide Filled, Combine, Indexes, Merged, Position, HasKey;
      ghost var dst := content;
      var index: map<string, nat> := Index();
      var m := 0;
      FilledStart(dst, src, owned);
      while m < |src|
        invariant 0 <= m <= |src|
        invariant content == Filled(dst, src, m, owned)
        invariant Indexes(index, content)
      {
        var key := src[m].key;
        IndexesKey(index, content, key);
        if key !in index {
          AppendStep(dst, src, m, owned);
          IndexesSnoc(index, content, src[m]);
          content := content + [src[m]];
          index := index[key := |content| - 1];
        } else {
          var at := index[key];
          FillStep(dst, src, m, at, owned);
          assert content[at] == dst[at];
          var now := MergeValue(content[at].value, src[m].value, owned);
          IndexesUpdate(index, content, at, now);
          content := content[at := content[at].(value := now)];
        }
        m := m + 1;
      }
    }

    // The second loop: blank or delete what the file has and the saved
    // settings dropped.
    method Sweep(src: seq<Entry>, owned: set<string>)
      modifies this
      ensures content == SweptPrefix(old(content), |old(content)|, KeySet(src), owned)
    {
      hide KeySet;
      ghost var es := content;
      var seen := KeySet(src);
      ghost var p := 0;
      var i := 0;
      while i < |content|
        invariant 0 <= i <= |content| && 0 <= p <= |es|
        invariant content[..i] == SweptPrefix(es, p, seen, owned)
        invariant content[i..] == es[p..]
        decreases |content| - i
      {
        var e := content[i];
        assert e == es[p];
        if e.key !in owned || e.key in seen {
          i := i + 1;
        } else if e.value.ScalarNode? {
          content := content[i := e.(value := ScalarNode(Str(""), e.value.comments))];
          i := i + 1;
        } else {
          content := content[..i] + content[i + 1..];
        }
        p := p + 1;
      }
    }
  }

  // One saved value over an old one: two mappings are merged in place, any
  // other value is replaced and takes over the old value's comments.
  method MergeValue(was: Node, value: Node, owned: set<string>) returns (now: Node)
    requires DeepNode(value)
    ensures now == Combine(was, value, owned)
    decreases was, 1
  {
    if was.MappingNodeOf? && value.MappingNodeOf? {
      var nested := new MappingNode(was.entries);
      nested.Merge(value.entries, owned);
      now := MappingNodeOf(nested.content, was.comments);
    } else {
      now := WithComments(value, was.comments);
    }
  }
}
