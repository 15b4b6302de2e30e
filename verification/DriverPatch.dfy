/**
Patching the chromedriver binary in memory: the first injected block, matched by
the regular expression {window\.cdc.*?;} over any bytes, is overwritten by a
console message of the same length.  Reading, caching and writing the file are
not part of this model.
*/
module DriverPatch {
  import opened Wrappers

  newtype byte = b: int | 0 <= b < 0x100

  type Bytes = seq<byte>

  function Byte(c: char): byte { ((c as int) % 0x100) as byte }

  function Ascii(s: string): Bytes { seq(|s|, i requires 0 <= i < |s| => Byte(s[i])) }

  const MARKER := Ascii("undetected chromedriver")
  const REPLACEMENT := Ascii("{console.log(\"") + MARKER + Ascii(" 1337!\")}")
  const PREFIX := Ascii("{window.cdc")
  const SUFFIX := Ascii(";}")

  predicate OccursAt(s: Bytes, sub: Bytes, k: int) {
    0 <= k <= |s| - |sub| && s[k..k + |sub|] == sub
  }

  // The first place from k on where sub occurs: bytes.Index.
  function IndexFrom(s: Bytes, sub: Bytes, k: nat): (r: Option<nat>)
    ensures r.Some? ==> r.value >= k && OccursAt(s, sub, r.value)
    ensures forall n :: k <= n < r.GetOr(|s| + 1) ==> !OccursAt(s, sub, n)
    decreases |s| - k
  {
    if k + |sub| > |s| then None
    else if OccursAt(s, sub, k) then Some(k)
    else IndexFrom(s, sub, k + 1)
  }

  predicate Contains(s: Bytes, sub: Bytes) { IndexFrom(s, sub, 0).Some? }

  // bytes.Replace with a limit of one
  function ReplaceFirst(s: Bytes, old_: Bytes, new_: Bytes): Bytes {
    var k := IndexFrom(s, old_, 0);
    if k.Some? then s[..k.value] + new_ + s[k.value + |old_|..] else s
  }

  // The shortest match that starts at i: where it ends.
  function MatchEnd(s: Bytes, i: nat): Option<nat> {
    if !OccursAt(s, PREFIX, i) then None
    else
      var j := IndexFrom(s, SUFFIX, i + |PREFIX|);
      if j.Some? then Some(j.value + |SUFFIX|) else None
  }

  // The leftmost match from i on.
  function MatchFrom(s: Bytes, i: nat): (r: Option<(nat, nat)>)
    ensures r.Some? ==> i <= r.value.0 <= r.value.1 <= |s| && MatchEnd(s, r.value.0) == Some(r.value.1)
    ensures forall n :: i <= n < (if r.Some? then r.value.0 else |s|) ==> MatchEnd(s, n).None?
    decreases |s| - i
  {
    if i >= |s| then None
    else
      var end := MatchEnd(s, i);
      if end.Some? then Some((i, end.value)) else MatchFrom(s, i + 1)
  }

  // The replacement, cut or padded with spaces to n bytes.
  function Fitted(n: nat): (r: Bytes)
    ensures |r| == n
  {
    if n <= |REPLACEMENT| then REPLACEMENT[..n] else REPLACEMENT + seq(n - |REPLACEMENT|, _ => Byte(' '))
  }

  function Patched(s: Bytes): Bytes {
    var m := MatchFrom(s, 0);
    if Contains(s, MARKER) || m.None? then s
    else ReplaceFirst(s, s[m.value.0..m.value.1], Fitted(m.value.1 - m.value.0))
  }

  method PatchContent(input: Bytes) returns (content: Bytes)
    ensures content == Patched(input)
  {
    hide Ascii, Contains, MatchFrom, ReplaceFirst;
    content := input;
    if !Contains(content, MARKER) {
      var found := MatchFrom(content, 0);
      if found.Some? {
        var matched := content[found.value.0..found.value.1];
        var replacement := REPLACEMENT;
        if |replacement| < |matched| {
          replacement := replacement + seq(|matched| - |replacement|, _ => Byte(' '));
        }
        assert replacement[..|matched|] == Fitted(|matched|);
        content := ReplaceFirst(content, matched, replacement[..|matched|]);
      }
    }
  }

  // The literals.  ---------------------------------------------------------------

  lemma PrefixShape()
    ensures |PREFIX| == 11 && PREFIX[0] == Byte('{') && PREFIX[1] != Byte('c')
    ensures forall j :: 1 <= j < |PREFIX| ==> PREFIX[j] != Byte('{')
  {
  }

  lemma MarkerShape()
    ensures |MARKER| == 23 && forall j :: 0 <= j < |MARKER| ==> MARKER[j] != Byte('{')
  {
  }

  lemma ReplacementShape()
    ensures |REPLACEMENT| == 46 && REPLACEMENT[0] == Byte('{') && REPLACEMENT[1] == Byte('c')
    ensures forall j :: 1 <= j < |REPLACEMENT| ==> REPLACEMENT[j] != Byte('{')
    ensures REPLACEMENT[14..37] == MARKER
  {
    MarkerShape();
    var a, b := Ascii("{console.log(\""), Ascii(" 1337!\")}");
    assert forall j :: 1 <= j < |a| ==> a[j] != Byte('{');
    assert forall j :: 0 <= j < |b| ==> b[j] != Byte('{');
  }

  lemma FittedShape(n: nat)
    requires n >= 2
    ensures var r := Fitted(n);
      && r[1] != PREFIX[1] && (forall j :: 1 <= j < n ==> r[j] != Byte('{'))
      && (n >= 37 ==> r[14..37] == MARKER)
  {
    PrefixShape();
    ReplacementShape();
    hide Ascii;
  }

  // What the match is.  ------------------------------------------------------------

  lemma InPlace(s: Bytes, sub: Bytes, k: nat, j: nat)
    requires OccursAt(s, sub, k) && j < |sub|
    ensures k + j < |s| && s[k + j] == sub[j]
  {
    assert s[k..k + |sub|][j] == s[k + j];
  }

  lemma OccursInside(s: Bytes, sub: Bytes, a: nat, b: nat, k: nat)
    requires a <= b <= |s| && |sub| <= b - a && OccursAt(s, s[a..b], k) && OccursAt(s, sub, a)
    ensures OccursAt(s, sub, k)
  {
    forall j | 0 <= j < |sub| ensures s[k + j] == sub[j] {
      InPlace(s, s[a..b], k, j);
      InPlace(s, sub, a, j);
    }
    assert s[k..k + |sub|] == sub;
  }

  lemma MatchBounds(s: Bytes, i: nat)
    requires MatchEnd(s, i).Some?
    ensures OccursAt(s, PREFIX, i) && i + 13 <= MatchEnd(s, i).value <= |s|
    ensures OccursAt(s, SUFFIX, MatchEnd(s, i).value - 2)
    ensures forall j :: i + 11 <= j < MatchEnd(s, i).value - 2 ==> !OccursAt(s, SUFFIX, j)
  {
    assert |PREFIX| == 11 by { PrefixShape(); }
    assert |SUFFIX| == 2;
    hide Ascii;
  }

  lemma PrefixEnds(s: Bytes, i: nat, j: nat)
    requires OccursAt(s, PREFIX, i) && OccursAt(s, SUFFIX, j) && j >= i + 11
    ensures MatchEnd(s, i).Some?
  {
    assert |PREFIX| == 11 by { PrefixShape(); }
    hide Ascii;
  }

  // The regular expression finds the first injected prefix, if anything ends it:
  // the leftmost match starts at the first prefix and ends at the first end mark
  // behind it, and the first occurrence of the matched bytes is the match itself.
  lemma MatchIsFirst(s: Bytes)
    requires MatchFrom(s, 0).Some?
    ensures var (a, b) := MatchFrom(s, 0).value;
      && b - a >= 13 && OccursAt(s, PREFIX, a)
      && (forall n :: 0 <= n < a ==> !OccursAt(s, PREFIX, n))
      && OccursAt(s, SUFFIX, b - 2) && (forall j :: a + 11 <= j < b - 2 ==> !OccursAt(s, SUFFIX, j))
      && IndexFrom(s, s[a..b], 0) == Some(a)
  {
    hide Ascii, MatchFrom, MatchEnd, IndexFrom;
    var (a, b) := MatchFrom(s, 0).value;
    MatchBounds(s, a);
    forall n: nat | n < a ensures !OccursAt(s, PREFIX, n) {
      if OccursAt(s, PREFIX, n) { PrefixEnds(s, n, b - 2); }
    }
    assert |PREFIX| == 11 by { PrefixShape(); }
    FirstOccurrence(s, PREFIX, a, b);
  }

  lemma IndexIsFirst(s: Bytes, sub: Bytes, a: nat)
    requires OccursAt(s, sub, a) && forall n :: 0 <= n < a ==> !OccursAt(s, sub, n)
    ensures IndexFrom(s, sub, 0) == Some(a)
  {
    hide IndexFrom;
    assert a <= |s|;
    hide OccursAt;
    var k := IndexFrom(s, sub, 0);
  }

  lemma FirstOccurrence(s: Bytes, p: Bytes, a: nat, b: nat)
    requires a <= b <= |s| && |p| <= b - a && OccursAt(s, p, a) && forall n :: 0 <= n < a ==> !OccursAt(s, p, n)
    ensures IndexFrom(s, s[a..b], 0) == Some(a)
  {
    var sub := s[a..b];
    assert OccursAt(s, sub, a);
    hide OccursAt;
    forall n | 0 <= n < a ensures !OccursAt(s, sub, n) {
      if OccursAt(s, sub, n) { OccursInside(s, p, a, b, n); }
    }
    IndexIsFirst(s, sub, a);
  }

  // There is a match exactly when some prefix is followed by the end mark.
  lemma MatchExists(s: Bytes)
    ensures MatchFrom(s, 0).Some? <==>
      exists i, j :: OccursAt(s, PREFIX, i) && OccursAt(s, SUFFIX, j) && j >= i + |PREFIX|
  {
    hide Ascii, MatchFrom, MatchEnd;
    assert |PREFIX| == 11 by { PrefixShape(); }
    var m := MatchFrom(s, 0);
    if m.Some? {
      MatchBounds(s, m.value.0);
    }
    if i, j :| OccursAt(s, PREFIX, i) && OccursAt(s, SUFFIX, j) && j >= i + |PREFIX| {
      PrefixEnds(s, i, j);
    }
  }

  // Main results.  ------------------------------------------------------------------

  ghost predicate Applies(s: Bytes) { !Contains(s, MARKER) && MatchFrom(s, 0).Some? }

  // The patch keeps the length and changes nothing outside the match.
  lemma PatchIsLocal(s: Bytes)
    requires Applies(s)
    ensures var (a, b) := MatchFrom(s, 0).value; var o := Patched(s);
      && |o| == |s| && o[..a] == s[..a] && o[a..b] == Fitted(b - a) && o[b..] == s[b..]
  {
    hide Ascii, MatchFrom, Fitted, Contains, IndexFrom, OccursAt, MatchEnd;
    MatchIsFirst(s);
    var (a, b) := MatchFrom(s, 0).value;
    assert Patched(s) == s[..a] + Fitted(b - a) + s[a + (b - a)..];
  }

  // Without a match, and with the marker already there, nothing changes.
  lemma LeftAlone(s: Bytes)
    ensures !Applies(s) ==> Patched(s) == s
  {
    hide MatchFrom, Contains, ReplaceFirst, Fitted;
  }

  // Otherwise each byte of the match becomes that of the message, or a space behind
  // its end.
  lemma PatchWrites(s: Bytes, j: nat)
    requires Applies(s) && MatchFrom(s, 0).value.0 <= j < MatchFrom(s, 0).value.1
    ensures var k := j - MatchFrom(s, 0).value.0;
      |Patched(s)| == |s| && |REPLACEMENT| == 46 && Patched(s)[j] == if k < 46 then REPLACEMENT[k] else 0x20
  {
    hide MatchFrom, Patched, Ascii, Fitted, Contains, MatchEnd, IndexFrom, OccursAt;
    PatchIsLocal(s);
    var (a, b) := MatchFrom(s, 0).value;
    SliceElements(Patched(s), a, b, Fitted(b - a));
    FittedBytes(b - a, j - a);
  }

  lemma FittedBytes(n: nat, k: nat)
    requires k < n
    ensures |REPLACEMENT| == 46 && Fitted(n)[k] == if k < 46 then REPLACEMENT[k] else 0x20
  {
    ReplacementShape();
    hide Ascii;
  }

  lemma TextOf(a: string, b: string, c: string)
    ensures Ascii(a) + Ascii(b) + Ascii(c) == Ascii(a + b + c)
  {
  }

  // The message, whole.
  lemma MessageIs()
    ensures REPLACEMENT == Ascii("{console.log(\"" + "undetected chromedriver" + " 1337!\")}")
  {
    hide Ascii;
    TextOf("{console.log(\"", "undetected chromedriver", " 1337!\")}");
  }

  // Each character is its own byte.
  lemma AsciiBytes(text: string, i: nat)
    requires i < |text| && text[i] < '\U{80}'
    ensures |Ascii(text)| == |text| && Ascii(text)[i] as int == text[i] as int
  {
  }

  // Overwriting s[a..b], where p first occurs at a, with bytes that neither start
  // nor continue p, leaves the occurrences of p behind b and no others.
  lemma Overwritten(s: Bytes, o: Bytes, a: nat, b: nat, p: Bytes, k: nat)
    requires |o| == |s| && a + 2 <= b <= |s| && o[..a] == s[..a] && o[b..] == s[b..]
    requires |p| >= 2 && forall j :: 1 <= j < |p| ==> p[j] != p[0]
    requires OccursAt(s, p, a) && forall n :: 0 <= n < a ==> !OccursAt(s, p, n)
    requires o[a] == p[0] && o[a + 1] != p[1] && forall j :: a < j < b ==> o[j] != p[0]
    ensures OccursAt(o, p, k) <==> k >= b && OccursAt(s, p, k)
  {
    var end := k + |p|;
    if end <= |s| {
      if k >= b {
        TailOccurs(s, o, b, p, k);
      } else if end <= a {
        assert forall j :: k <= j < end ==> o[j] == o[..a][j] == s[..a][j] == s[j];
        assert o[k..end] == s[k..end] && !OccursAt(s, p, k);
      } else if k >= a {
        assert o[k..end][0] == o[k] && o[k..end][1] == o[k + 1];
      } else {
        assert o[k..end][a - k] == o[a];
      }
    }
  }

  // The injected prefixes of the output are the input's behind the patched region.
  lemma InjectionsLeft(s: Bytes, k: nat)
    requires Applies(s)
    ensures OccursAt(Patched(s), PREFIX, k) <==> k >= MatchFrom(s, 0).value.1 && OccursAt(s, PREFIX, k)
  {
    hide Ascii, MatchFrom, Fitted, Contains, Byte, Patched, OccursAt, IndexFrom, MatchEnd;
    PatchIsLocal(s);
    MatchIsFirst(s);
    PrefixShape();
    var (a, b) := MatchFrom(s, 0).value;
    FirstByte(b - a);
    FittedShape(b - a);
    SliceElements(Patched(s), a, b, Fitted(b - a));
    Overwritten(s, Patched(s), a, b, PREFIX, k);
  }

  lemma SliceElements(o: Bytes, a: nat, b: nat, r: Bytes)
    requires a <= b <= |o| && o[a..b] == r
    ensures forall j :: a <= j < b ==> o[j] == r[j - a]
  {
    assert forall j :: a <= j < b ==> o[j] == o[a..b][j - a];
  }

  lemma FirstByte(n: nat)
    requires n > 0
    ensures Fitted(n)[0] == Byte('{')
  {
    ReplacementShape();
    hide Ascii;
  }

  // The marker in the output.  -------------------------------------------------------

  // The replacement holds the marker at offset 14, and its first byte nowhere else.
  lemma FittedMarker(n: nat)
    ensures |MARKER| == 23 && Byte('{') !in MARKER
    ensures forall j :: 0 <= j < n && Fitted(n)[j] == MARKER[0] ==> j == 14
    ensures forall j :: 14 <= j < n && j < 37 ==> Fitted(n)[j] == MARKER[j - 14]
  {
    MarkerShape();
    ReplacementShape();
    OnlyOneU();
    hide Ascii;
    assert forall j :: 14 <= j < 37 ==> REPLACEMENT[j] == REPLACEMENT[14..37][j - 14];
  }

  lemma OnlyOneU()
    ensures |MARKER| == 23 && MARKER[0] == Byte('u') && |REPLACEMENT| == 46
    ensures forall j :: 0 <= j < |REPLACEMENT| && REPLACEMENT[j] == Byte('u') ==> j == 14
  {
    var a, b := Ascii("{console.log(\""), Ascii(" 1337!\")}");
    assert |a| == 14 && forall j :: 0 <= j < |a| ==> a[j] != Byte('u');
    assert |b| == 9 && forall j :: 0 <= j < |b| ==> b[j] != Byte('u');
    assert |MARKER| == 23 && forall j :: 1 <= j < |MARKER| ==> MARKER[j] != Byte('u');
  }

  // What a caller can see of the input: does the patch leave the marker?  Either
  // the match has room for it, or what stands behind the match completes it.
  predicate LeavesMarker(s: Bytes)
    requires Applies(s)
  {
    var (a, b) := MatchFrom(s, 0).value;
    var n := b - a;
    n >= 37 || (14 < n && b + (37 - n) <= |s| && |MARKER| == 23 && s[b..b + (37 - n)] == MARKER[n - 14..])
  }

  lemma HeadOccurs(s: Bytes, o: Bytes, a: nat, sub: Bytes, k: nat)
    requires a <= |s| == |o| && o[..a] == s[..a] && k + |sub| <= a
    ensures OccursAt(o, sub, k) <==> OccursAt(s, sub, k)
  {
    assert o[k..k + |sub|] == o[..a][k..k + |sub|] == s[..a][k..k + |sub|] == s[k..k + |sub|];
  }

  // Overwriting s[a..b] with r, which has the first byte of m only at x and reads
  // on as m from there, makes m occur exactly at a + x.
  lemma OccursOnlyThere(s: Bytes, o: Bytes, a: nat, b: nat, r: Bytes, m: Bytes, x: nat, k: nat)
    requires |o| == |s| && a < b <= |s| && o[..a] == s[..a] && o[a..b] == r && o[b..] == s[b..]
    requires m != [] && r[0] !in m && (forall j :: 0 <= j < |r| && r[j] == m[0] ==> j == x)
    requires OccursAt(o, m, k) && !OccursAt(s, m, k)
    ensures k == a + x < b
  {
    InPlace(o, m, k, 0);
    SliceElements(o, a, b, r);
    if k >= b {
      TailOccurs(s, o, b, m, k);
    } else if k + |m| <= a {
      HeadOccurs(s, o, a, m, k);
    } else if k < a {
      InPlace(o, m, k, a - k);
    }
  }

  lemma Spliced(s: Bytes, o: Bytes, a: nat, b: nat, r: Bytes, m: Bytes, x: nat)
    requires |o| == |s| && a < b <= |s| && o[a..b] == r && o[b..] == s[b..] && a + x < b
    requires forall j :: x <= j < |r| && j < x + |m| ==> r[j] == m[j - x]
    ensures OccursAt(o, m, a + x) <==>
      || x + |m| <= |r|
      || (a + x + |m| <= |s| && s[b..a + x + |m|] == m[|r| - x..])
  {
    var k, end := a + x, a + x + |m|;
    SliceElements(o, a, b, r);
    assert forall j :: b <= j < |s| ==> o[j] == o[b..][j - b] == s[b..][j - b] == s[j];
    if x + |m| <= |r| {
      assert o[k..end] == m;
    } else if end <= |s| {
      var c := |r| - x;
      assert o[k..end] == o[k..b] + s[b..end];
      assert o[k..b] == m[..c] && m == m[..c] + m[c..];
      assert o[k..end][c..] == s[b..end] && o[k..end][..c] == m[..c];
    }
  }

  // The output has the marker exactly when the input says so.
  lemma MarkerLeftExactly(s: Bytes)
    requires Applies(s)
    ensures Contains(Patched(s), MARKER) <==> LeavesMarker(s)
  {
    hide Ascii, Byte, MatchFrom, Fitted, Contains, IndexFrom, OccursAt, MatchEnd, Patched;
    var (a, b) := MatchFrom(s, 0).value;
    PatchIsLocal(s);
    assert b - a >= 13 by { MatchIsFirst(s); }
    FittedMarker(b - a);
    FirstByte(b - a);
    MarkerIn(s, Patched(s), a, b, Fitted(b - a));
  }

  lemma MarkerIn(s: Bytes, o: Bytes, a: nat, b: nat, r: Bytes)
    requires |o| == |s| && a + 13 <= b <= |s| && o[..a] == s[..a] && o[a..b] == r && o[b..] == s[b..]
    requires !Contains(s, MARKER) && |MARKER| == 23 && r[0] !in MARKER
    requires forall j :: 0 <= j < |r| && r[j] == MARKER[0] ==> j == 14
    requires forall j :: 14 <= j < |r| && j < 37 ==> r[j] == MARKER[j - 14]
    ensures var n := b - a;
      Contains(o, MARKER) <==>
      n >= 37 || (14 < n && b + (37 - n) <= |s| && s[b..b + (37 - n)] == MARKER[n - 14..])
  {
    hide Ascii, Byte, Contains, IndexFrom, OccursAt;
    NowhereIn(s, MARKER);
    if b - a > 14 { Spliced(s, o, a, b, r, MARKER, 14); }
    if Contains(o, MARKER) {
      var k := SomewhereIn(o, MARKER);
      OccursOnlyThere(s, o, a, b, r, MARKER, 14, k);
    } else {
      NowhereIn(o, MARKER);
    }
  }

  lemma NowhereIn(s: Bytes, sub: Bytes)
    requires !Contains(s, sub)
    ensures forall k :: !OccursAt(s, sub, k)
  {
  }

  lemma SomewhereIn(s: Bytes, sub: Bytes) returns (k: nat)
    requires Contains(s, sub)
    ensures OccursAt(s, sub, k)
  {
    k := IndexFrom(s, sub, 0).value;
  }

  // Is there another injected block behind the first?
  ghost predicate AnotherBlock(s: Bytes, from: nat) {
    exists i, j :: i >= from && OccursAt(s, PREFIX, i) && OccursAt(s, SUFFIX, j) && j >= i + |PREFIX|
  }

  lemma AnotherBlockStays(s: Bytes)
    requires Applies(s)
    ensures MatchFrom(Patched(s), 0).Some? <==> AnotherBlock(s, MatchFrom(s, 0).value.1)
  {
    hide Ascii, Patched, MatchFrom, Fitted, Contains, OccursAt, IndexFrom, MatchEnd;
    PatchIsLocal(s);
    var o, b := Patched(s), MatchFrom(s, 0).value.1;
    MatchExists(o);
    assert |PREFIX| == 11 by { PrefixShape(); }
    forall i: nat { InjectionsLeft(s, i); }
    forall j | j >= b ensures OccursAt(o, SUFFIX, j) <==> OccursAt(s, SUFFIX, j) { TailOccurs(s, o, b, SUFFIX, j); }
    Never(o); Never(s);
  }

  lemma Never(s: Bytes)
    ensures forall i :: i < 0 ==> !OccursAt(s, PREFIX, i)
  {
  }

  lemma TailOccurs(s: Bytes, o: Bytes, b: nat, sub: Bytes, j: nat)
    requires |s| == |o| && b <= |s| && o[b..] == s[b..] && j >= b
    ensures OccursAt(o, sub, j) <==> OccursAt(s, sub, j)
  {
    if j + |sub| <= |s| {
      assert o[j..j + |sub|] == o[b..][j - b..j - b + |sub|] == s[j..j + |sub|];
    }
  }

  // Patching twice is patching once exactly when the input shows that the first
  // patch leaves its marker, or has no second block to patch.
  lemma PatchTwice(s: Bytes)
    requires Applies(s)
    ensures Patched(Patched(s)) == Patched(s) <==> LeavesMarker(s) || !AnotherBlock(s, MatchFrom(s, 0).value.1)
  {
    hide LeavesMarker, AnotherBlock, MatchFrom, Contains;
    AnotherBlockStays(s);
    MarkerLeftExactly(s);
    var o := Patched(s);
    if Applies(o) {
      PatchChanges(o);
    }
  }

  lemma PatchChanges(s: Bytes)
    requires Applies(s)
    ensures Patched(s) != s
  {
    hide Ascii, MatchFrom, Fitted, Contains, IndexFrom, OccursAt, MatchEnd, Patched;
    PatchIsLocal(s);
    MatchIsFirst(s);
    PrefixShape();
    var (a, b) := MatchFrom(s, 0).value;
    FittedShape(b - a);
    assert Patched(s)[a + 1] == Patched(s)[a..b][1];
    InPlace(s, PREFIX, a, 1);
  }

  lemma PatchTwiceWhenLong(s: Bytes)
    requires MatchFrom(s, 0).Some? ==> MatchFrom(s, 0).value.1 - MatchFrom(s, 0).value.0 >= 37
    ensures Patched(Patched(s)) == Patched(s)
  {
    hide Ascii, Fitted, MatchFrom, Contains;
    if Applies(s) { MarkerLeftExactly(s); }
  }

  // The bound of 37 bytes matters: two shortest blocks in a row, and the second
  // patch finds the second one.
  const TWO_BLOCKS := PREFIX + SUFFIX + PREFIX + SUFFIX

  lemma TwoBlocksMatch()
    ensures |TWO_BLOCKS| == 26 && TWO_BLOCKS[..4] == PREFIX[..4]
    ensures MatchFrom(TWO_BLOCKS, 0) == Some((0, 13)) && AnotherBlock(TWO_BLOCKS, 13)
  {
    assert |PREFIX| == 11 by { PrefixShape(); }
    assert |SUFFIX| == 2;
    hide Ascii;
    var s := TWO_BLOCKS;
    assert s[0..11] == PREFIX && s[11..13] == SUFFIX;
    assert OccursAt(s, PREFIX, 0) && OccursAt(s, SUFFIX, 11);
    assert s[13..24] == PREFIX && s[24..26] == SUFFIX;
    assert OccursAt(s, PREFIX, 13) && OccursAt(s, SUFFIX, 24);
  }

  lemma NoMarkerStarts()
    ensures |MARKER| == 23 && |PREFIX| >= 4 && |REPLACEMENT| >= 4
    ensures forall k :: 0 <= k <= 3 ==> PREFIX[k] != MARKER[0] && REPLACEMENT[k] != MARKER[0]
  {
    var a := Ascii("{console.log(\"");
    assert a[0] == Byte('{') && a[1] == Byte('c') && a[2] == Byte('o') && a[3] == Byte('n');
    assert REPLACEMENT[..4] == a[..4];
    assert MARKER[0] == Byte('u');
  }

  lemma NoRoomForMarker(s: Bytes)
    requires |s| == 26 && forall k :: 0 <= k <= 3 ==> s[k] != MARKER[0]
    ensures !Contains(s, MARKER)
  {
    assert |MARKER| == 23 by { MarkerShape(); }
    hide Ascii;
    var r := IndexFrom(s, MARKER, 0);
    if r.Some? { InPlace(s, MARKER, r.value, 0); }
  }

  lemma ShortBlocksPatchTwice()
    ensures Patched(Patched(TWO_BLOCKS)) != Patched(TWO_BLOCKS)
  {
    hide Ascii, MatchFrom, Contains, Patched, AnotherBlock;
    var s := TWO_BLOCKS;
    TwoBlocksMatch();
    NoMarkerStarts();
    assert forall k :: 0 <= k <= 3 ==> s[k] == s[..4][k] == PREFIX[..4][k];
    NoRoomForMarker(s);
    PatchIsLocal(s);
    PatchTwice(s);
  }
}
