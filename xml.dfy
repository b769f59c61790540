/**
 * The part of ElementTree that the builder relies on: element values with
 * an ordered attribute dictionary, comments, the three registered namespaces
 * and the Clark notation `{uri}local` for qualified names.
 */
module Xml {
  import opened Wrappers

  // ---------------------------------------------------------------------------
  // Attribute dictionaries

  /** The attribute dictionary of an element, as its (key, value) entries in
      insertion order. A Python dict holds each key once (`DistinctKeys`);
      every operation below keeps that so. */
  type AttrMap = seq<(string, string)>

  predicate DistinctKeys(a: AttrMap) {
    forall i, j :: 0 <= i < j < |a| ==> a[i].0 != a[j].0
  }

  /** Dropping the first entry keeps the keys distinct. */
  lemma DistinctTail(a: AttrMap)
    requires a != []
    ensures DistinctKeys(a) ==> DistinctKeys(a[1..])
  {
    if DistinctKeys(a) {
      forall i, j | 0 <= i < j < |a| - 1 ensures a[1..][i].0 != a[1..][j].0 {
        assert a[1..][i] == a[i + 1] && a[1..][j] == a[j + 1];
      }
    }
  }

  function Lookup(a: AttrMap, k: string): (r: Option<string>)
    ensures r.None? <==> forall i :: 0 <= i < |a| ==> a[i].0 != k
    ensures DistinctKeys(a) ==> forall i :: 0 <= i < |a| && a[i].0 == k ==> r == Some(a[i].1)
  {
    if a == [] then None
    else if a[0].0 == k then Some(a[0].1)
    else
      DistinctTail(a);
      Lookup(a[1..], k)
  }

  /** `element.set(k, v)`: an existing key keeps its place and takes the new
      value; a new key goes at the end. */
  function SetAttr(a: AttrMap, k: string, v: string): (r: AttrMap)
    requires DistinctKeys(a)
    ensures DistinctKeys(r)
    ensures Lookup(a, k).Some? ==> |r| == |a|
    ensures Lookup(a, k).None? ==> |r| == |a| + 1 && r[|a|] == (k, v)
    ensures forall i :: 0 <= i < |a| ==> r[i] == if a[i].0 == k then (k, v) else a[i]
  {
    if Lookup(a, k).Some? then
      var r := seq(|a|, i requires 0 <= i < |a| => if a[i].0 == k then (k, v) else a[i]);
      assert forall i :: 0 <= i < |a| ==> r[i].0 == a[i].0;
      r
    else a + [(k, v)]
  }

  /** After `set(k, v)` the key `k` reads `v` and every other key reads as before. */
  lemma SetAttrLookup(a: AttrMap, k: string, v: string)
    requires DistinctKeys(a)
    ensures Lookup(SetAttr(a, k, v), k) == Some(v)
    ensures forall k' :: k' != k ==> Lookup(SetAttr(a, k, v), k') == Lookup(a, k')
  {
    var r := SetAttr(a, k, v);
    forall k' | k' != k ensures Lookup(r, k') == Lookup(a, k') {
      if Lookup(a, k').None? {
        assert forall i :: 0 <= i < |r| ==> r[i].0 != k';
      }
    }
  }

  /** Sets every entry of `b` on `a`, in the order of `b`. */
  function Merge(a: AttrMap, b: AttrMap): (r: AttrMap)
    requires DistinctKeys(a)
    ensures DistinctKeys(r)
    decreases |b|
  {
    if b == [] then a
    else
      var n := |b| - 1;
      SetAttr(Merge(a, b[..n]), b[n].0, b[n].1)
  }

  /** After the merge a key reads its value in `b` when it has one, and its
      value in `a` otherwise. */
  lemma {:induction false} MergeLookup(a: AttrMap, b: AttrMap, k: string)
    requires DistinctKeys(a) && DistinctKeys(b)
    ensures Lookup(Merge(a, b), k) == if Lookup(b, k).Some? then Lookup(b, k) else Lookup(a, k)
    decreases |b|
  {
    if b != [] {
      var n := |b| - 1;
      MergeStep(b);
      MergeLookup(a, b[..n], k);
      SetAttrLookup(Merge(a, b[..n]), b[n].0, b[n].1);
    }
  }

  /** Setting the first `i + 1` entries is setting the first `i`, then entry `i`. */
  lemma MergeSnoc(a: AttrMap, b: AttrMap, i: nat)
    requires DistinctKeys(a) && i < |b|
    ensures Merge(a, b[..i + 1]) == SetAttr(Merge(a, b[..i]), b[i].0, b[i].1)
  {
    assert b[..i + 1][..i] == b[..i];
  }

  lemma MergeStep(b: AttrMap)
    requires b != [] && DistinctKeys(b)
    ensures DistinctKeys(b[..|b| - 1])
    ensures forall k :: Lookup(b, k) == if b[|b| - 1].0 == k then Some(b[|b| - 1].1) else Lookup(b[..|b| - 1], k)
  {
    var n := |b| - 1;
    assert b == b[..n] + [b[n]];
    forall k ensures Lookup(b[..n] + [b[n]], k) == if b[n].0 == k then Some(b[n].1) else Lookup(b[..n], k) {
      LookupAppend(b[..n], b[n], k);
    }
  }

  lemma {:induction false} LookupAppend(a: AttrMap, x: (string, string), k: string)
    requires DistinctKeys(a + [x])
    ensures Lookup(a + [x], k) == if x.0 == k then Some(x.1) else Lookup(a, k)
    decreases |a|
  {
    if a == [] {
      assert a + [x] == [x];
    } else {
      assert (a + [x])[0] == a[0];
      assert (a + [x])[1..] == a[1..] + [x];
      if a[0].0 != k {
        LookupAppend(a[1..], x, k);
      } else {
        assert (a + [x])[|a|] == x;
      }
    }
  }

  /** Setting every entry of a dictionary on an empty one copies it. */
  lemma {:induction false} MergeIntoEmpty(b: AttrMap)
    requires DistinctKeys(b)
    ensures Merge([], b) == b
    decreases |b|
  {
    if b != [] {
      var n := |b| - 1;
      MergeStep(b);
      MergeIntoEmpty(b[..n]);
      var p: AttrMap := b[..n];
      assert Lookup(p, b[n].0).None? by {
        forall i | 0 <= i < n ensures p[i].0 != b[n].0 { assert p[i] == b[i]; }
      }
      SetAttrFresh(p, b[n].0, b[n].1);
      assert b == p + [b[n]];
    }
  }

  /** A key not yet present goes at the end. */
  lemma SetAttrFresh(a: AttrMap, k: string, v: string)
    requires DistinctKeys(a) && Lookup(a, k).None?
    ensures SetAttr(a, k, v) == a + [(k, v)]
  {
  }

  // ---------------------------------------------------------------------------
  // Namespaces and qualified names

  /** The three prefixes registered before any element is built. */
  datatype Prefix = XmlNs | PbcoreNs | OhmsNs

  function PrefixName(p: Prefix): (r: string) {
    match p
    case XmlNs => "xml"
    case PbcoreNs => "pbcore"
    case OhmsNs => "ohms"
  }

  function Uri(p: Prefix): (r: string)
  {
    match p
    case XmlNs => "http://www.w3.org/XML/1998/namespace"
    case PbcoreNs => "http://www.pbcore.org/PBCore/PBCoreNamespace.html"
    case OhmsNs => "https://www.weareavp.com/nunncenter/ohms"
  }

  /** The registered namespace map, prefix name to URI. */
  function Namespaces(): (m: map<string, string>)
    ensures forall p: Prefix :: PrefixName(p) in m && m[PrefixName(p)] == Uri(p)
    ensures |m.Keys| == 3
  {
    var m := map[PrefixName(XmlNs) := Uri(XmlNs), PrefixName(PbcoreNs) := Uri(PbcoreNs), PrefixName(OhmsNs) := Uri(OhmsNs)];
    assert m.Keys == {"xml", "pbcore", "ohms"};
    m
  }

  /** `qualified_element(ns, e)`: the Clark name `{uri}e`. */
  function QualifiedElement(ns: Prefix, e: string): (r: string)
  {
    "{" + Uri(ns) + "}" + e
  }

  /** Reads a Clark name in namespace `ns` back into its local name. */
  function LocalName(ns: Prefix, q: string): (r: Option<string>)
  {
    var n := |Uri(ns)| + 2;
    if |q| >= n && q[..n] == "{" + Uri(ns) + "}" then Some(q[n..]) else None
  }

  /** `LocalName` inverts `QualifiedElement`, in both directions. */
  lemma QualifiedRoundTrip(ns: Prefix, e: string, q: string)
    ensures LocalName(ns, QualifiedElement(ns, e)) == Some(e)
    ensures LocalName(ns, q) == Some(e) ==> q == QualifiedElement(ns, e)
  {
    var n := |Uri(ns)| + 2;
    assert QualifiedElement(ns, e)[..n] == "{" + Uri(ns) + "}";
    if LocalName(ns, q) == Some(e) {
      assert q == q[..n] + q[n..];
    }
  }

  /** Distinct local names give distinct qualified names. */
  lemma QualifiedInjective(ns: Prefix, a: string, b: string)
    ensures QualifiedElement(ns, a) == QualifiedElement(ns, b) ==> a == b
  {
    QualifiedRoundTrip(ns, a, QualifiedElement(ns, b));
    QualifiedRoundTrip(ns, b, QualifiedElement(ns, b));
  }

  // ---------------------------------------------------------------------------
  // Trees

  /** An ElementTree node: an element (tag, attributes, text, children) or a
      comment. An element whose text was never set has text "". */
  datatype Node =
    | Element(tag: string, attrs: AttrMap, text: string, children: seq<Node>)
    | Comment(text: string)
}
