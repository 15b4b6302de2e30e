// What a merge keeps, what it changes, and that merging twice is merging once.
module YamlMergeLaws {
  import opened Wrappers
  import opened YamlMerge

  function Find(es: seq<Entry>, k: string): (r: Option<Entry>)
    ensures r.Some? <==> HasKey(es, k)
    ensures r.Some? ==> r.value in es && r.value.key == k
  {
    match Position(es, k)
    case None => None
    case Some(p) => Some(es[p])
  }

  lemma FindSnoc(es: seq<Entry>, e: Entry, k: string)
    ensures Find(es + [e], k) == if e.key == k then Some(e) else Find(es, k)
  {
    PositionSnoc(es, e, k);
  }

  lemma FindLookup(es: seq<Entry>, k: string)
    ensures Lookup(es, k) == if Find(es, k).Some? then Some(Find(es, k).value.value) else None
  {
  }

  lemma FindAt(es: seq<Entry>, i: nat)
    requires Distinct(es) && i < |es|
    ensures Find(es, es[i].key) == Some(es[i]) && Position(es, es[i].key) == Some(i)
  {
    PositionOf(es, es[i].key, i);
  }

  // Key order.  ---------------------------------------------------------------

  // Does an existing entry keep its line?
  predicate Survives(e: Entry, src: seq<Entry>, owned: set<string>) {
    e.key !in owned || HasKey(src, e.key) || e.value.ScalarNode?
  }

  function SurvivingKeys(dst: seq<Entry>, src: seq<Entry>, owned: set<string>): seq<string> {
    if dst == [] then []
    else
      var n := |dst| - 1;
      SurvivingKeys(dst[..n], src, owned) + if Survives(dst[n], src, owned) then [dst[n].key] else []
  }

  function MissingKeys(dst: seq<Entry>, src: seq<Entry>): seq<string> {
    if src == [] then []
    else
      var n := |src| - 1;
      MissingKeys(dst, src[..n]) + if HasKey(dst, src[n].key) then [] else [src[n].key]
  }

  lemma KeysConcat(a: seq<Entry>, b: seq<Entry>)
    ensures Keys(a + b) == Keys(a) + Keys(b)
  {
  }

  lemma {:induction false} KeptKeys(dst: seq<Entry>, n: nat, src: seq<Entry>, owned: set<string>)
    requires n <= |dst|
    ensures Keys(Kept(dst, n, src, owned)) == SurvivingKeys(dst[..n], src, owned)
  {
    if n > 0 {
      KeptKeys(dst, n - 1, src, owned);
      assert dst[..n][..n - 1] == dst[..n - 1];
      var last := KeptEntry(dst[n - 1], Position(dst, dst[n - 1].key) != Some(n - 1), src, owned);
      KeysConcat(Kept(dst, n - 1, src, owned), last);
      assert Keys(last) == if Survives(dst[n - 1], src, owned) then [dst[n - 1].key] else [];
    }
  }

  lemma {:induction false} AddedKeys(dst: seq<Entry>, src: seq<Entry>)
    ensures Keys(Added(dst, src)) == MissingKeys(dst, src)
  {
    if src != [] {
      var n := |src| - 1;
      AddedKeys(dst, src[..n]);
      KeysConcat(Added(dst, src[..n]), if HasKey(dst, src[n].key) then [] else [src[n]]);
    }
  }

  // The surviving keys of the file come first and in their order, then the
  // saved keys it lacked, in theirs.
  lemma KeyOrder(dst: seq<Entry>, src: seq<Entry>, owned: set<string>)
    ensures Keys(Merged(dst, src, owned)) == SurvivingKeys(dst, src, owned) + MissingKeys(dst, src)
  {
    KeptKeys(dst, |dst|, src, owned);
    AddedKeys(dst, src);
    assert dst[..|dst|] == dst;
    KeysConcat(Kept(dst, |dst|, src, owned), Added(dst, src));
  }

  // What each key holds.  -----------------------------------------------------

  lemma PrefixKeys(es: seq<Entry>, n: nat)
    requires n < |es|
    ensures forall k :: HasKey(es[..n], k) ==> HasKey(es, k)
    ensures Distinct(es) ==> !HasKey(es[..n], es[n].key)
    ensures HasKey(es, es[n].key)
  {
    forall k | HasKey(es[..n], k)
      ensures HasKey(es, k)
    {
      var j :| 0 <= j < |es[..n]| && es[..n][j].key == k;
      assert es[j].key == k;
    }
  }

  // What the existing entries contribute under a key.
  function KeptUnder(had: Option<Entry>, src: seq<Entry>, owned: set<string>): Option<Entry> {
    if had.Some? && Survives(had.value, src, owned) then Some(KeptEntry(had.value, false, src, owned)[0]) else None
  }

  lemma {:induction false} KeptFind(dst: seq<Entry>, n: nat, src: seq<Entry>, owned: set<string>, k: string)
    requires n <= |dst| && Distinct(dst)
    ensures Find(Kept(dst, n, src, owned), k) == KeptUnder(Find(dst[..n], k), src, owned)
  {
    hide KeptEntry, Find, Survives, Combine, HasKey, KeptUnder;
    KeptNone(src, owned);
    if n > 0 {
      var e := dst[n - 1];
      KeptFind(dst, n - 1, src, owned, k);
      FindAt(dst, n - 1);
      assert dst[..n] == dst[..n - 1] + [e];
      FindSnoc(dst[..n - 1], e, k);
      PrefixKeys(dst, n - 1);
      KeptSnoc(Kept(dst, n - 1, src, owned), e, src, owned, k);
      KeptUnderSome(e, src, owned);
      assert e.key == k ==> Find(dst[..n - 1], k) == None;
    }
  }

  lemma KeptNone(src: seq<Entry>, owned: set<string>)
    ensures KeptUnder(None, src, owned) == None
    ensures forall k :: Find([], k) == None
  {
  }

  lemma KeptUnderSome(e: Entry, src: seq<Entry>, owned: set<string>)
    ensures KeptUnder(Some(e), src, owned).Some? <==> Survives(e, src, owned)
  {
  }

  lemma KeptSnoc(kept: seq<Entry>, e: Entry, src: seq<Entry>, owned: set<string>, k: string)
    ensures Find(kept + KeptEntry(e, false, src, owned), k)
         == if e.key == k && Survives(e, src, owned) then KeptUnder(Some(e), src, owned) else Find(kept, k)
  {
    var last := KeptEntry(e, false, src, owned);
    if Survives(e, src, owned) {
      assert last == [last[0]] && last[0].key == e.key;
      FindSnoc(kept, last[0], k);
    } else {
      assert kept + last == kept;
    }
  }

  lemma {:induction false} AddedFind(dst: seq<Entry>, src: seq<Entry>, k: string)
    ensures Find(Added(dst, src), k) == if HasKey(dst, k) then None else Find(src, k)
  {
    if src != [] {
      var n := |src| - 1;
      AddedFind(dst, src[..n], k);
      assert src == src[..n] + [src[n]];
      FindSnoc(src[..n], src[n], k);
      if HasKey(dst, src[n].key) {
        assert Added(dst, src) == Added(dst, src[..n]);
      } else {
        FindSnoc(Added(dst, src[..n]), src[n], k);
      }
    }
  }

  lemma {:induction false} FindConcat(a: seq<Entry>, b: seq<Entry>, k: string)
    ensures Find(a + b, k) == if Find(b, k).Some? then Find(b, k) else Find(a, k)
  {
    if b == [] {
      assert a + b == a;
    } else {
      var n := |b| - 1;
      FindConcat(a, b[..n], k);
      assert a + b == (a + b[..n]) + [b[n]] && b == b[..n] + [b[n]];
      FindSnoc(a + b[..n], b[n], k);
      FindSnoc(b[..n], b[n], k);
    }
  }

  // What one key holds after a merge, from what the file and the save hold.
  // A saved key holds the saved value; under a key the file had, that is the
  // value under the old comments, or for two mappings their merge.  The key's
  // own comments stay.  A key that is not saved stays untouched unless the
  // config owns it; an owned one is blanked if it was a scalar and removed
  // otherwise.
  function AfterMerge(had: Option<Entry>, saved: Option<Entry>, owned: set<string>): Option<Entry> {
    if had.None? then saved
    else
      var e := had.value;
      if saved.Some? then Some(Entry(e.key, e.notes, Combine(e.value, saved.value.value, owned)))
      else if e.key !in owned then Some(e)
      else if e.value.ScalarNode? then Some(Entry(e.key, e.notes, ScalarNode(Str(""), e.value.comments)))
      else None
  }

  // The merge contract, key by key.
  lemma MergeContract(dst: seq<Entry>, src: seq<Entry>, owned: set<string>, k: string)
    requires Distinct(dst)
    ensures Find(Merged(dst, src, owned), k) == AfterMerge(Find(dst, k), Find(src, k), owned)
  {
    KeptFind(dst, |dst|, src, owned, k);
    AddedFind(dst, src, k);
    FindConcat(Kept(dst, |dst|, src, owned), Added(dst, src), k);
    assert dst[..|dst|] == dst;
    FindLookup(src, k);
  }

  // A key that survives keeps its own comments and those of its value, whatever
  // the saved value brought along.
  lemma CommentsStay(dst: seq<Entry>, src: seq<Entry>, owned: set<string>, k: string)
    requires Distinct(dst) && Find(dst, k).Some?
    ensures var had := Find(dst, k).value; var now := Find(Merged(dst, src, owned), k);
      && (now.Some? <==> Survives(had, src, owned))
      && (now.Some? ==> now.value.notes == had.notes && now.value.value.comments == had.value.comments)
  {
    MergeContract(dst, src, owned, k);
  }

  // A value carries the saved one: the same scalar or sequence whatever the
  // comments, and for a mapping every saved entry.
  ghost predicate Carries(v: Node, saved: Node)
    decreases saved
  {
    if v.MappingNodeOf? && saved.MappingNodeOf? then CarriesAll(v.entries, saved.entries)
    else v == WithComments(saved, v.comments)
  }

  ghost predicate CarriesAll(es: seq<Entry>, saved: seq<Entry>)
    decreases saved
  {
    forall i :: 0 <= i < |saved| ==>
      Find(es, saved[i].key).Some? && Carries(Find(es, saved[i].key).value.value, saved[i].value)
  }

  lemma {:induction false} CarriesItself(v: Node, c: Comments)
    requires DeepNode(v)
    ensures Carries(WithComments(v, c), v)
    decreases v
  {
    if v.MappingNodeOf? {
      forall i | 0 <= i < |v.entries|
        ensures Find(v.entries, v.entries[i].key).Some?
        ensures Carries(Find(v.entries, v.entries[i].key).value.value, v.entries[i].value)
      {
        FindAt(v.entries, i);
        CarriesItself(v.entries[i].value, v.entries[i].value.comments);
      }
    }
  }

  lemma {:induction false} CombineCarries(was: Node, v: Node, owned: set<string>)
    requires DeepNode(v) && DeepNode(was)
    ensures Carries(Combine(was, v, owned), v)
    decreases was, 0
  {
    if was.MappingNodeOf? && v.MappingNodeOf? {
      SavedValuesHold(was.entries, v.entries, owned);
    } else {
      CarriesItself(v, was.comments);
    }
  }

  // After a merge every saved key, at every depth, holds the saved value.
  lemma {:induction false} SavedValuesHold(dst: seq<Entry>, src: seq<Entry>, owned: set<string>)
    requires DeepDistinct(dst) && DeepDistinct(src)
    ensures CarriesAll(Merged(dst, src, owned), src)
    decreases dst
  {
    var m := Merged(dst, src, owned);
    forall i | 0 <= i < |src|
      ensures Find(m, src[i].key).Some? && Carries(Find(m, src[i].key).value.value, src[i].value)
    {
      var k := src[i].key;
      MergeContract(dst, src, owned, k);
      FindAt(src, i);
      match Position(dst, k) {
        case Some(p) => CombineCarries(dst[p].value, src[i].value, owned);
        case None => CarriesItself(src[i].value, src[i].value.comments);
      }
    }
  }

  // The owned keys are those of the top level at every depth: a nested key that
  // the save does not mention is left alone exactly when it is not named like
  // one of them.
  lemma NestedFrame(dst: seq<Entry>, src: seq<Entry>, owned: set<string>, outer: string, k: string)
    requires DeepDistinct(dst) && Find(dst, outer).Some? && Find(src, outer).Some?
    requires Find(dst, outer).value.value.MappingNodeOf? && Find(src, outer).value.value.MappingNodeOf?
    requires !HasKey(Find(src, outer).value.value.entries, k)
    requires var e := Find(Find(dst, outer).value.value.entries, k);
      e.Some? && e.value.value != ScalarNode(Str(""), e.value.value.comments)
    ensures var m := Find(Merged(dst, src, owned), outer);
      && m.Some? && m.value.value.MappingNodeOf?
      && (Find(m.value.value.entries, k) == Find(Find(dst, outer).value.value.entries, k) <==> k !in owned)
  {
    MergeContract(dst, src, owned, outer);
    var p := Position(dst, outer).value;
    assert DeepNode(dst[p].value) && DeepDistinct(dst[p].value.entries);
    MergeContract(Find(dst, outer).value.value.entries, Find(src, outer).value.value.entries, owned, k);
  }

  // Idempotence.  -------------------------------------------------------------

  lemma {:induction false} KeptSource(dst: seq<Entry>, n: nat, src: seq<Entry>, owned: set<string>, e: Entry)
    requires n <= |dst| && Distinct(dst) && e in Kept(dst, n, src, owned)
    ensures exists i :: 0 <= i < n && e in KeptEntry(dst[i], false, src, owned)
  {
    FindAt(dst, n - 1);
    if e in Kept(dst, n - 1, src, owned) {
      KeptSource(dst, n - 1, src, owned, e);
    }
  }

  lemma SubKeysDistinct(a: seq<string>, es: seq<Entry>)
    requires Keys(es) == a && NoneTwice(a)
    ensures Distinct(es)
  {
    assert |es| == |a| && forall i :: 0 <= i < |es| ==> es[i].key == a[i];
  }

  ghost predicate NoneTwice(a: seq<string>) {
    forall i, j :: 0 <= i < j < |a| ==> a[i] != a[j]
  }

  lemma {:induction false} SurvivingDistinct(dst: seq<Entry>, src: seq<Entry>, owned: set<string>)
    requires Distinct(dst)
    ensures NoneTwice(SurvivingKeys(dst, src, owned))
    ensures forall k :: k in SurvivingKeys(dst, src, owned) ==> HasKey(dst, k)
  {
    hide Survives, HasKey;
    if dst != [] {
      SurvivingDistinct(dst[..|dst| - 1], src, owned);
      PrefixKeys(dst, |dst| - 1);
    }
  }

  lemma {:induction false} MissingDistinct(dst: seq<Entry>, src: seq<Entry>)
    requires Distinct(src)
    ensures NoneTwice(MissingKeys(dst, src))
    ensures forall k :: k in MissingKeys(dst, src) ==> HasKey(src, k) && !HasKey(dst, k)
  {
    if src != [] {
      MissingDistinct(dst, src[..|src| - 1]);
      PrefixKeys(src, |src| - 1);
    }
  }

  // A merge of well-formed mappings has no key twice.
  lemma MergedDistinct(dst: seq<Entry>, src: seq<Entry>, owned: set<string>)
    requires Distinct(dst) && Distinct(src)
    ensures Distinct(Merged(dst, src, owned))
  {
    KeyOrder(dst, src, owned);
    SurvivingDistinct(dst, src, owned);
    MissingDistinct(dst, src);
    var a, b := SurvivingKeys(dst, src, owned), MissingKeys(dst, src);
    forall i, j | 0 <= i < |a| <= j < |a| + |b|
      ensures (a + b)[i] != (a + b)[j]
    {
      assert (a + b)[i] in a && (a + b)[j] in b;
    }
    SubKeysDistinct(a + b, Merged(dst, src, owned));
  }

  lemma {:induction false} CombineWellFormed(was: Node, v: Node, owned: set<string>)
    requires DeepNode(was) && DeepNode(v)
    ensures DeepNode(Combine(was, v, owned))
    decreases was, 1
  {
    if was.MappingNodeOf? && v.MappingNodeOf? { MergedWellFormed(was.entries, v.entries, owned); }
  }

  // The merge of a well-formed file is well-formed, at every depth.
  lemma {:induction false} MergedWellFormed(dst: seq<Entry>, src: seq<Entry>, owned: set<string>)
    requires DeepDistinct(dst) && DeepDistinct(src)
    ensures DeepDistinct(Merged(dst, src, owned))
    decreases dst, 0
  {
    var m := Merged(dst, src, owned);
    MergedDistinct(dst, src, owned);
    forall i | 0 <= i < |m|
      ensures DeepNode(m[i].value)
    {
      var e := m[i];
      if i < |Kept(dst, |dst|, src, owned)| {
        assert e in Kept(dst, |dst|, src, owned);
        KeptSource(dst, |dst|, src, owned, e);
        var j :| 0 <= j < |dst| && e in KeptEntry(dst[j], false, src, owned);
        if HasKey(src, dst[j].key) {
          CombineWellFormed(dst[j].value, src[Position(src, dst[j].key).value].value, owned);
        }
      } else {
        AddedFromSrc(dst, src);
        assert e in src;
      }
    }
  }

  ghost predicate Settled(e: Entry, src: seq<Entry>, owned: set<string>) {
    KeptEntry(e, false, src, owned) == [e]
  }

  lemma {:induction false} KeptAll(es: seq<Entry>, n: nat, src: seq<Entry>, owned: set<string>)
    requires n <= |es| && Distinct(es) && forall i :: 0 <= i < |es| ==> Settled(es[i], src, owned)
    ensures Kept(es, n, src, owned) == es[..n]
  {
    if n > 0 {
      KeptAll(es, n - 1, src, owned);
      FindAt(es, n - 1);
      assert Settled(es[n - 1], src, owned);
      assert es[..n] == es[..n - 1] + [es[n - 1]];
    }
  }

  lemma {:induction false} NothingAdded(dst: seq<Entry>, src: seq<Entry>)
    requires forall i :: 0 <= i < |src| ==> HasKey(dst, src[i].key)
    ensures Added(dst, src) == []
  {
    if src != [] { NothingAdded(dst, src[..|src| - 1]); }
  }

  lemma {:induction false} CombineSelf(v: Node, c: Comments, owned: set<string>)
    requires DeepNode(v)
    ensures Combine(WithComments(v, c), v, owned) == WithComments(v, c)
    decreases v, 1
  {
    if v.MappingNodeOf? { MergeSelf(v.entries, owned); }
  }

  // Merging a mapping into itself changes nothing.
  lemma {:induction false} MergeSelf(es: seq<Entry>, owned: set<string>)
    requires DeepDistinct(es)
    ensures Merged(es, es, owned) == es
    decreases es, 0
  {
    forall i | 0 <= i < |es|
      ensures Settled(es[i], es, owned)
    {
      FindAt(es, i);
      CombineSelf(es[i].value, es[i].value.comments, owned);
    }
    KeptAll(es, |es|, es, owned);
    assert es[..|es|] == es;
    NothingAdded(es, es);
  }

  lemma {:induction false} CombineTwice(was: Node, v: Node, owned: set<string>)
    requires DeepNode(was) && DeepNode(v)
    ensures Combine(Combine(was, v, owned), v, owned) == Combine(was, v, owned)
    decreases was, 1
  {
    if was.MappingNodeOf? && v.MappingNodeOf? {
      MergeTwice(was.entries, v.entries, owned);
    } else {
      CombineSelf(v, was.comments, owned);
    }
  }

  // Merging the same settings twice is merging them once.
  lemma {:induction false} MergeTwice(dst: seq<Entry>, src: seq<Entry>, owned: set<string>)
    requires DeepDistinct(dst) && DeepDistinct(src)
    ensures Merged(Merged(dst, src, owned), src, owned) == Merged(dst, src, owned)
    decreases dst, 0
  {
    var m := Merged(dst, src, owned);
    forall i | 0 <= i < |m|
      ensures Settled(m[i], src, owned)
    {
      var e := m[i];
      if i < |Kept(dst, |dst|, src, owned)| {
        assert e in Kept(dst, |dst|, src, owned);
        KeptSource(dst, |dst|, src, owned, e);
        var j :| 0 <= j < |dst| && e in KeptEntry(dst[j], false, src, owned);
        if HasKey(src, dst[j].key) {
          var p := Position(src, dst[j].key).value;
          CombineTwice(dst[j].value, src[p].value, owned);
        }
      } else {
        AddedFromSrc(dst, src);
        assert e in src;
        var p :| 0 <= p < |src| && src[p] == e;
        FindAt(src, p);
        CombineSelf(e.value, e.value.comments, owned);
      }
    }
    MergedDistinct(dst, src, owned);
    KeptAll(m, |m|, src, owned);
    assert m[..|m|] == m;
    forall i | 0 <= i < |src|
      ensures HasKey(m, src[i].key)
    {
      MergeContract(dst, src, owned, src[i].key);
    }
    NothingAdded(m, src);
  }
}
