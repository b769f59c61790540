/**
 * `add_child`, `add_multivalue_child` and `add_complex_child`: the helpers
 * that append PBCore elements to a parent element in place.
 *
 * An `OpenElement` is an ElementTree element whose child list is still being
 * appended to. Its children are finished `Node` values. The source keeps the
 * element returned by `add_child` and calls `set` on it afterwards; that
 * element is always the parent's last child, so such a call is modelled as an
 * update of the last child (`SetOnLastChild`). An element that receives
 * children of its own (a contributor block) is built as an `OpenElement` of
 * its own and appended once complete.
 */
module Builder {
  import opened Wrappers
  import opened Text
  import opened Wikidata
  import opened Xml
  import opened Seqs

  /** Every helper call in the builder uses the default namespace "pbcore". */
  function Q(name: string): (r: string) {
    QualifiedElement(PbcoreNs, name)
  }

  // ---------------------------------------------------------------------------
  // What the helpers append, as values

  /** The element `add_child` appends, or nothing when the value is empty and
      empty values are not allowed. */
  function Child(name: string, value: string, attributes: AttrMap, allowEmpty: bool): (cs: seq<Node>)
    ensures |cs| <= 1
    ensures cs != [] <==> value != "" || allowEmpty
  {
    if value != "" || allowEmpty then [Element(Q(name), attributes, value, [])] else []
  }

  /** The attributes that mark a sourced item. */
  function SourceAttrs(code: string): (a: AttrMap)
    ensures DistinctKeys(a)
  {
    [("source", "wikidata"), ("ref", Ref(code))]
  }

  /** The attributes `add_child` receives for one item, before the caller's. */
  function ItemAttrs(item: string): (a: AttrMap)
    ensures DistinctKeys(a)
  {
    match Classify(item)
    case Sourced(_, code) => SourceAttrs(code)
    case Plain(_) => []
  }

  /** What `add_child` appends for one item of a multivalue field: nothing for
      a blank item, otherwise one element with the item's display text. */
  function ItemChild(name: string, item: string): (r: seq<Node>)
  {
    Child(name, DisplayText(item), ItemAttrs(item), false)
  }

  /** The item child is missing exactly when the item is blank. */
  lemma ItemChildBlank(name: string, item: string)
    ensures ItemChild(name, item) == [] <==> AllSpace(item)
    ensures !AllSpace(item) ==> ItemChild(name, item) == [Element(Q(name), ItemAttrs(item), DisplayText(item), [])]
  {
    DisplayTextEmpty(item);
  }

  /** An element after `set` of every caller attribute, in order. */
  function WithAttributes(n: Node, attributes: AttrMap): (r: Node)
    requires n.Element? ==> DistinctKeys(n.attrs)
  {
    if n.Element? then n.(attrs := Merge(n.attrs, attributes)) else n
  }

  /** What a run of `add_multivalue_child` leaves behind: the elements it
      appended and whether it ran to the end (`ok`) or failed at a blank item. */
  datatype Emission = Emission(nodes: seq<Node>, ok: bool)

  /** One turn of the loop of `add_multivalue_child`, for one item: the
      `add_child` call, then `set` of every caller attribute on its result.
      A blank item makes `add_child` return None; the `set` on it fails, but
      only when there is a caller attribute to set. */
  function Turn(name: string, item: string, attributes: AttrMap): (r: Emission)
    ensures |r.nodes| <= 1
    ensures r.ok <==> |attributes| == 0 || !AllSpace(item)
  {
    ItemChildBlank(name, item);
    var c := ItemChild(name, item);
    if |attributes| == 0 then Emission(c, true)
    else if c == [] then Emission([], false)
    else Emission([WithAttributes(c[0], attributes)], true)
  }

  /** Runs one more turn, unless an earlier one has failed. */
  function Then(prev: Emission, turn: Emission): (r: Emission) {
    if !prev.ok then prev else Emission(prev.nodes + turn.nodes, turn.ok)
  }

  /** Runs the turns in order, stopping at the first that fails. */
  function Run(turns: seq<Emission>): (r: Emission)
    decreases |turns|
  {
    if turns == [] then Emission([], true) else Then(Run(turns[..|turns| - 1]), turns[|turns| - 1])
  }

  function Turns(name: string, items: seq<string>, attributes: AttrMap): (r: seq<Emission>) {
    Map((item: string) => Turn(name, item, attributes), items)
  }

  /** The loop of `add_multivalue_child` over `items`. */
  function MultivalueItems(name: string, items: seq<string>, attributes: AttrMap): (r: Emission) {
    Run(Turns(name, items, attributes))
  }

  /** `add_multivalue_child(parent, name, value, attributes)`: nothing for an
      empty value, otherwise the loop over the `;`-separated items. */
  function Multivalue(name: string, value: string, attributes: AttrMap): (r: Emission)
    ensures attributes == [] ==> r.ok
  {
    if value == "" then Emission([], true)
    else
      var items := Split(value, ';');
      if attributes == [] then
        MultivalueItemsPlain(name, items);
        MultivalueItems(name, items, attributes)
      else MultivalueItems(name, items, attributes)
  }

  /** The element built for one item of a multivalue field when the caller
      passes attributes and the item is not blank. */
  function ItemElement(name: string, item: string, attributes: AttrMap): (r: Node) {
    Element(Q(name), Merge(ItemAttrs(item), attributes), DisplayText(item), [])
  }

  /** The elements of a complete run with caller attributes, item by item. */
  function ItemElements(name: string, items: seq<string>, attributes: AttrMap): (r: seq<Node>) {
    Map((item: string) => ItemElement(name, item, attributes), items)
  }

  /** The elements of a run without caller attributes: the item children,
      the blank items contributing none. */
  function ItemChildren(name: string, items: seq<string>): (r: seq<Node>) {
    Flatten(Map((item: string) => ItemChild(name, item), items))
  }

  /** No item of the sequence is blank. */
  predicate NoBlank(items: seq<string>) {
    forall i :: 0 <= i < |items| ==> !AllSpace(items[i])
  }

  /** No item of the field is blank. */
  predicate NoBlankItem(value: string) {
    value == "" || NoBlank(Split(value, ';'))
  }

  /** One block of `add_complex_child`: the element, its `sub` child (omitted
      for a blank item) and its role child (omitted for an empty role). */
  function ContributorBlock(elementName: string, subName: string, roleName: string, item: string, role: string): (r: Node)
    ensures r.Element? && r.tag == Q(elementName) && |r.children| <= 2
    ensures role != "" ==> r.children != [] && r.children[|r.children| - 1] == Element(Q(roleName), [], role, [])
  {
    Element(Q(elementName), [], "", ItemChild(subName, item) + Child(roleName, role, [], false))
  }

  function ContributorItems(elementName: string, subName: string, roleName: string, items: seq<string>, role: string): (r: seq<Node>) {
    Map((item: string) => ContributorBlock(elementName, subName, roleName, item, role), items)
  }

  /** What `add_complex_child` appends. */
  function ContributorBlocks(elementName: string, subName: string, roleName: string, value: string, role: string): (r: seq<Node>)
    ensures r == [] <==> value == ""
    ensures value != "" ==> |r| == |Split(value, ';')|
  {
    if value == "" then [] else ContributorItems(elementName, subName, roleName, Split(value, ';'), role)
  }

  // ---------------------------------------------------------------------------
  // Properties of a run of turns

  lemma RunSnoc(turns: seq<Emission>, i: nat)
    requires i < |turns|
    ensures Run(turns[..i + 1]) == Then(Run(turns[..i]), turns[i])
  {
    assert turns[..i + 1][..i] == turns[..i];
  }

  /** A turn after a run that has not failed appends its elements and
      decides whether the run goes on. */
  lemma RunAdvance(turns: seq<Emission>, i: nat, before: seq<Node>)
    requires i < |turns| && Run(turns[..i]).ok
    ensures Run(turns[..i + 1]).ok == turns[i].ok
    ensures before + Run(turns[..i + 1]).nodes == before + Run(turns[..i]).nodes + turns[i].nodes
  {
    RunSnoc(turns, i);
    AppendAssoc(before, Run(turns[..i]).nodes, turns[i].nodes);
  }

  /** Once a run has failed, later turns change nothing. */
  lemma {:induction false} RunStopped(turns: seq<Emission>, i: nat, j: nat)
    requires i <= j <= |turns|
    requires !Run(turns[..i]).ok
    ensures Run(turns[..j]) == Run(turns[..i])
    decreases j - i
  {
    if i < j {
      RunSnoc(turns, i);
      RunStopped(turns, i + 1, j);
    }
  }

  /** A run goes to the end exactly when every turn does. */
  lemma {:induction false} RunOk(turns: seq<Emission>)
    ensures Run(turns).ok <==> forall i :: 0 <= i < |turns| ==> turns[i].ok
    decreases |turns|
  {
    if turns != [] {
      var n := |turns| - 1;
      RunOk(turns[..n]);
      assert forall i :: 0 <= i < n ==> turns[..n][i] == turns[i];
    }
  }

  /** A run that goes to the end has appended what every turn appended. */
  lemma {:induction false} RunNodes(turns: seq<Emission>)
    ensures Run(turns).ok ==> Run(turns).nodes == Flatten(Map((t: Emission) => t.nodes, turns))
    decreases |turns|
  {
    if turns != [] {
      var n := |turns| - 1;
      RunNodes(turns[..n]);
      MapSnoc((t: Emission) => t.nodes, turns, n);
      assert turns[..n + 1] == turns;
    }
  }

  // ---------------------------------------------------------------------------
  // Properties of the helpers

  lemma TurnsAt(name: string, items: seq<string>, attributes: AttrMap, i: nat)
    requires i < |items|
    ensures |Turns(name, items, attributes)| == |items|
    ensures Turns(name, items, attributes)[i] == Turn(name, items[i], attributes)
  {
    MapAt((item: string) => Turn(name, item, attributes), items, i);
  }

  /** With caller attributes, one turn fails exactly on a blank item, and
      otherwise appends the item's element with the caller's attributes set. */
  lemma TurnSpec(name: string, item: string, attributes: AttrMap)
    requires |attributes| > 0
    ensures Turn(name, item, attributes).ok <==> !AllSpace(item)
    ensures !AllSpace(item) ==> Turn(name, item, attributes).nodes == [ItemElement(name, item, attributes)]
    ensures AllSpace(item) ==> Turn(name, item, attributes).nodes == []
  {
    ItemChildBlank(name, item);
  }

  /** With caller attributes, the loop runs to the end exactly when no item is
      blank, and then it has appended the items' elements, in order. */
  lemma MultivalueItemsSpec(name: string, items: seq<string>, attributes: AttrMap)
    requires |attributes| > 0
    ensures MultivalueItems(name, items, attributes).ok <==> NoBlank(items)
    ensures MultivalueItems(name, items, attributes).ok ==>
      MultivalueItems(name, items, attributes).nodes == ItemElements(name, items, attributes)
  {
    var turns := Turns(name, items, attributes);
    RunOk(turns);
    RunNodes(turns);
    forall i | 0 <= i < |items|
      ensures turns[i].ok <==> !AllSpace(items[i])
    {
      TurnsAt(name, items, attributes, i);
      TurnSpec(name, items[i], attributes);
    }
    if NoBlank(items) {
      var nodes := Map((t: Emission) => t.nodes, turns);
      var elements := ItemElements(name, items, attributes);
      forall i | 0 <= i < |items| ensures nodes[i] == [elements[i]] {
        MapAt((t: Emission) => t.nodes, turns, i);
        TurnsAt(name, items, attributes, i);
        TurnSpec(name, items[i], attributes);
        MapAt((item: string) => ItemElement(name, item, attributes), items, i);
      }
      FlattenSingletons(nodes, elements);
    }
  }

  /** Without caller attributes the loop always runs to the end and appends
      the item children, a blank item contributing none. */
  lemma MultivalueItemsPlain(name: string, items: seq<string>)
    ensures MultivalueItems(name, items, []) == Emission(ItemChildren(name, items), true)
  {
    var turns := Turns(name, items, []);
    RunOk(turns);
    RunNodes(turns);
    var nodes := Map((t: Emission) => t.nodes, turns);
    var children := Map((item: string) => ItemChild(name, item), items);
    forall i | 0 <= i < |items| ensures turns[i].ok && nodes[i] == children[i] {
      TurnsAt(name, items, [], i);
      MapAt((t: Emission) => t.nodes, turns, i);
      MapAt((item: string) => ItemChild(name, item), items, i);
    }
    assert nodes == children;
  }

  /** `add_multivalue_child` with caller attributes: an empty value adds
      nothing; otherwise it runs to the end exactly when no item is blank, and
      then it has appended one element per `;`-separated item, in order, each
      carrying the item's text, its wikidata attributes and the caller's. */
  lemma MultivalueSpec(name: string, value: string, attributes: AttrMap)
    requires |attributes| > 0
    ensures value == "" ==> Multivalue(name, value, attributes) == Emission([], true)
    ensures Multivalue(name, value, attributes).ok <==> NoBlankItem(value)
    ensures value != "" && Multivalue(name, value, attributes).ok ==>
      Multivalue(name, value, attributes).nodes == ItemElements(name, Split(value, ';'), attributes)
  {
    if value != "" {
      MultivalueItemsSpec(name, Split(value, ';'), attributes);
    }
  }

  /** The `i`th element of a complete run is the element of the `i`th item. */
  lemma ItemElementsAt(name: string, items: seq<string>, attributes: AttrMap, i: nat)
    requires i < |items|
    ensures |ItemElements(name, items, attributes)| == |items|
    ensures ItemElements(name, items, attributes)[i] == ItemElement(name, items[i], attributes)
  {
    MapAt((item: string) => ItemElement(name, item, attributes), items, i);
  }

  /** Each element of a multivalue field carries every caller attribute, and
      the two wikidata attributes exactly when its item is sourced. */
  lemma ItemElementAttrs(name: string, item: string, attributes: AttrMap, k: string)
    requires DistinctKeys(attributes)
    ensures Lookup(attributes, k).Some? ==> Lookup(ItemElement(name, item, attributes).attrs, k) == Lookup(attributes, k)
    ensures Lookup(attributes, k).None? && Classify(item).Sourced? ==>
      && (k == "source" ==> Lookup(ItemElement(name, item, attributes).attrs, k) == Some("wikidata"))
      && (k == "ref" ==> Lookup(ItemElement(name, item, attributes).attrs, k) == Some(Ref(Classify(item).code)))
    ensures Lookup(attributes, k).None? && Classify(item).Plain? ==> Lookup(ItemElement(name, item, attributes).attrs, k).None?
  {
    var a := ItemAttrs(item);
    MergeLookup(a, attributes, k);
    if Classify(item).Sourced? {
      assert a[0] == ("source", "wikidata") && a[1] == ("ref", Ref(Classify(item).code));
    }
  }

  /** What a contributor block looks like: an `elementName` element with at
      most two children, whose last child is the role, preceded by the `sub`
      child iff the item is not blank. */
  predicate IsBlockOf(block: Node, elementName: string, subName: string, roleName: string, item: string, role: string) {
    && block.Element? && block.tag == Q(elementName) && block.attrs == [] && block.children != []
    && |block.children| <= 2
    && block.children[|block.children| - 1] == Element(Q(roleName), [], role, [])
    && (AllSpace(item) <==> |block.children| == 1)
    && (!AllSpace(item) ==> block.children[0] == Element(Q(subName), ItemAttrs(item), DisplayText(item), []))
  }

  lemma ContributorBlockShape(elementName: string, subName: string, roleName: string, item: string, role: string)
    requires role != ""
    ensures IsBlockOf(ContributorBlock(elementName, subName, roleName, item, role), elementName, subName, roleName, item, role)
  {
    ItemChildBlank(subName, item);
  }

  lemma ContributorItemsAt(elementName: string, subName: string, roleName: string, items: seq<string>, role: string, i: nat)
    requires i < |items|
    ensures |ContributorItems(elementName, subName, roleName, items, role)| == |items|
    ensures ContributorItems(elementName, subName, roleName, items, role)[i] == ContributorBlock(elementName, subName, roleName, items[i], role)
  {
    MapAt((item: string) => ContributorBlock(elementName, subName, roleName, item, role), items, i);
  }

  /** `add_complex_child` with a role: nothing for an empty value, otherwise
      one block per `;`-separated item, blank items included, in order. */
  lemma ContributorBlocksSpec(elementName: string, subName: string, roleName: string, value: string, role: string)
    requires role != ""
    ensures value == "" ==> ContributorBlocks(elementName, subName, roleName, value, role) == []
    ensures value != "" ==> |ContributorBlocks(elementName, subName, roleName, value, role)| == |Split(value, ';')|
    ensures value != "" ==> forall i :: 0 <= i < |Split(value, ';')| ==>
      IsBlockOf(ContributorBlocks(elementName, subName, roleName, value, role)[i], elementName, subName, roleName, Split(value, ';')[i], role)
  {
    if value != "" {
      var items := Split(value, ';');
      forall i | 0 <= i < |items|
        ensures IsBlockOf(ContributorItems(elementName, subName, roleName, items, role)[i], elementName, subName, roleName, items[i], role)
      {
        ContributorItemsAt(elementName, subName, roleName, items, role, i);
        ContributorBlockShape(elementName, subName, roleName, items[i], role);
      }
    }
  }

  // ---------------------------------------------------------------------------
  // The helpers

  /** The element one turn of `add_complex_child` builds: created empty, then
      given its two children by `add_child`. */
  method NewBlock(elementName: string, subName: string, roleName: string, item: string, role: string) returns (block: Node)
    ensures block == ContributorBlock(elementName, subName, roleName, item, role)
  {
    var element := new OpenElement(Q(elementName));
    var added := element.AddItem(subName, item);
    EmptyAppend(ItemChild(subName, item));
    added := element.AddChild(roleName, role, [], false);
    block := element.Value();
  }

  class OpenElement {
    const tag: string
    var children: seq<Node>

    constructor (tag: string)
      ensures this.tag == tag && children == []
    {
      this.tag := tag;
      children := [];
    }

    /** The element as it now stands. Its own text and attributes are never
        set by the builder. */
    function Value(): (r: Node)
      reads this
    {
      Element(tag, [], "", children)
    }

    /** `parent.append(node)`, and `ET.SubElement` of a finished element. */
    method Append(n: Node)
      modifies this
      ensures children == old(children) + [n]
    {
      children := children + [n];
    }

    /** `child.set(k, v)` for every caller attribute, in order, where `child`
        is the element just appended. */
    method SetOnLastChild(attributes: AttrMap)
      requires children != [] && children[|children| - 1].Element? && DistinctKeys(children[|children| - 1].attrs)
      modifies this
      ensures |children| == |old(children)|
      ensures children == old(children)[..|children| - 1] + [WithAttributes(old(children)[|children| - 1], attributes)]
    {
      var n := |children| - 1;
      var last := children[n];
      var i := 0;
      while i < |attributes|
        invariant 0 <= i <= |attributes|
        invariant children == old(children)[..n] + [last.(attrs := Merge(last.attrs, attributes[..i]))]
      {
        var (k, v) := attributes[i];
        var c := children[n];
        MergeSnoc(last.attrs, attributes, i);
        children := children[..n] + [c.(attrs := SetAttr(c.attrs, k, v))];
        i := i + 1;
      }
      assert attributes[..i] == attributes;
    }

    /** `add_child(parent, name, value, attributes, allow_empty=allowEmpty)`:
        appends one element with the qualified name, the value as text and
        exactly the given attributes, unless the value is empty and empty
        values are not allowed; `added` says whether it appended. */
    method AddChild(name: string, value: string, attributes: AttrMap, allowEmpty: bool) returns (added: bool)
      requires DistinctKeys(attributes)
      modifies this
      ensures added == (value != "" || allowEmpty)
      ensures children == old(children) + Child(name, value, attributes, allowEmpty)
    {
      if value != "" || allowEmpty {
        children := children + [Element(Q(name), [], value, [])];
        SetOnLastChild(attributes);
        MergeIntoEmpty(attributes);
        added := true;
      } else {
        added := false;
      }
    }

    /** The `add_child` call the two multivalue helpers make for one item:
        the wikidata name and attributes of a sourced item, or the stripped
        text of a plain one, never allowing an empty value. */
    method AddItem(name: string, item: string) returns (added: bool)
      modifies this
      ensures added == !AllSpace(item)
      ensures children == old(children) + ItemChild(name, item)
    {
      match Classify(item) {
        case Sourced(n, code) =>
          added := AddChild(name, n, SourceAttrs(code), false);
        case Plain(t) =>
          added := AddChild(name, t, [], false);
      }
      ItemChildBlank(name, item);
    }

    /** One turn of the loop of `add_multivalue_child`. */
    method AddTurn(name: string, item: string, attributes: AttrMap) returns (ok: bool)
      modifies this
      ensures ok == Turn(name, item, attributes).ok
      ensures children == old(children) + Turn(name, item, attributes).nodes
    {
      var added := AddItem(name, item);
      ItemChildBlank(name, item);
      if |attributes| > 0 {
        if !added {
          return false;
        }
        SetOnLastChild(attributes);
      }
      ok := true;
    }

    /** `add_multivalue_child(parent, name, value, attributes)`. On a blank
        item with caller attributes the source fails (`None.set`); `ok` is
        then false and the elements appended before it stay. */
    method AddMultivalueChild(name: string, value: string, attributes: AttrMap) returns (ok: bool)
      modifies this
      ensures ok == Multivalue(name, value, attributes).ok
      ensures children == old(children) + Multivalue(name, value, attributes).nodes
    {
      if value == "" {
        return true;
      }
      ok := AddItems(name, Split(value, ';'), attributes);
    }

    /** The loop of `add_multivalue_child` over the items. */
    method AddItems(name: string, items: seq<string>, attributes: AttrMap) returns (ok: bool)
      modifies this
      ensures ok == MultivalueItems(name, items, attributes).ok
      ensures children == old(children) + MultivalueItems(name, items, attributes).nodes
    {
      ghost var turns := Turns(name, items, attributes);
      var i := 0;
      while i < |items|
        invariant 0 <= i <= |items| == |turns|
        invariant Run(turns[..i]).ok
        invariant children == old(children) + Run(turns[..i]).nodes
      {
        TurnsAt(name, items, attributes, i);
        RunAdvance(turns, i, old(children));
        var turnOk := AddTurn(name, items[i], attributes);
        if !turnOk {
          RunStopped(turns, i + 1, |turns|);
          TakeAll(turns);
          return false;
        }
        i := i + 1;
      }
      TakeAll(turns);
      ok := true;
    }

    /** One turn of the loop of `add_complex_child`: the new block, attached
        as the last child. */
    method AddBlock(elementName: string, subName: string, roleName: string, item: string, role: string)
      modifies this
      ensures children == old(children) + [ContributorBlock(elementName, subName, roleName, item, role)]
    {
      var block := NewBlock(elementName, subName, roleName, item, role);
      Append(block);
    }

    /** `add_complex_child(parent, elementName, subName, roleName, value, role)`:
        one `elementName` block per item of `value`. */
    method AddComplexChild(elementName: string, subName: string, roleName: string, value: string, role: string)
      modifies this
      ensures children == old(children) + ContributorBlocks(elementName, subName, roleName, value, role)
    {
      if value == "" {
        return;
      }
      var items := Split(value, ';');
      ghost var blocks := ContributorItems(elementName, subName, roleName, items, role);
      var i := 0;
      while i < |items|
        invariant 0 <= i <= |items| == |blocks|
        invariant children == old(children) + blocks[..i]
      {
        ContributorItemsAt(elementName, subName, roleName, items, role, i);
        TakeSnoc(blocks, i);
        AppendAssoc(old(children), blocks[..i], [blocks[i]]);
        AddBlock(elementName, subName, roleName, items[i], role);
        i := i + 1;
      }
      TakeAll(blocks);
    }
  }
}
