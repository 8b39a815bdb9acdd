/** The overlay layer's share of the documents-on-page pipeline: which nodes
    it reports, the one record per document id it sends when the id set
    changes, and which elements it draws. Sending on the channel becomes the
    method's result. */
module Overlays {
  import opened Wrappers
  import opened Seqs

  /** A JavaScript `Set<string>`: its elements in insertion order. It is a class
      so that `a === b` is identity, as in the source. */
  class IdSet {
    const elems: seq<string>

    /** `new Set(ids)` */
    constructor (ids: seq<string>)
      ensures elems == Distinct(ids)
      ensures NoDuplicates(elems)
    {
      elems := Distinct(ids);
      DistinctNoDuplicates(ids);
    }
  }

  /** The set of elements of a sequence. */
  function Elements(s: seq<string>): set<string> {
    set x | x in s
  }

  /** Two sequences hold the same elements. */
  ghost predicate SameElements(a: seq<string>, b: seq<string>) {
    forall x :: x in a <==> x in b
  }

  /** A sequence without duplicates has as many elements as its set. */
  lemma {:induction false} ElementsCardinality(s: seq<string>)
    requires NoDuplicates(s)
    ensures |Elements(s)| == |s|
  {
    if s != [] {
      var init := s[..|s| - 1];
      assert NoDuplicates(init);
      ElementsCardinality(init);
      assert s == init + [s[|s| - 1]];
      assert Elements(s) == Elements(init) + {s[|s| - 1]};
    }
  }

  /** Sequences without duplicates that hold the same elements are equally long. */
  lemma SameElementsSameLength(a: seq<string>, b: seq<string>)
    requires NoDuplicates(a) && NoDuplicates(b)
    ensures SameElements(a, b) ==> |a| == |b|
  {
    ElementsCardinality(a);
    ElementsCardinality(b);
    assert SameElements(a, b) ==> Elements(a) == Elements(b);
  }

  /** A subset has no more elements than its superset. */
  lemma {:induction false} SubsetCardinality(a: set<string>, b: set<string>)
    requires a <= b
    ensures |a| <= |b|
    decreases a
  {
    if a != {} {
      var x :| x in a;
      SubsetCardinality(a - {x}, b - {x});
    }
  }

  /** `isEqualSets`: identity, then size, then membership of each element of `a`
      in `b`. On sets this is set equality. */
  method IsEqualSets(a: IdSet, b: IdSet) returns (equal: bool)
    requires NoDuplicates(a.elems) && NoDuplicates(b.elems)
    ensures equal <==> SameElements(a.elems, b.elems)
  {
    if a == b {
      return true;
    }
    if |a.elems| != |b.elems| {
      SameElementsSameLength(a.elems, b.elems);
      return false;
    }
    for i := 0 to |a.elems|
      invariant forall k :: 0 <= k < i ==> a.elems[k] in b.elems
    {
      if a.elems[i] !in b.elems {
        return false;
      }
    }
    ElementsCardinality(a.elems);
    ElementsCardinality(b.elems);
    if exists y :: y in b.elems && y !in a.elems {
      var y :| y in b.elems && y !in a.elems;
      SubsetCardinality(Elements(a.elems), Elements(b.elems) - {y});
    }
    return true;
  }

  /** A node's Sanity data: resolved (`SanityNode`, which has an `id`) or still
      stega-encoded (`SanityStegaNode`, which has none). */
  datatype SanityData =
    | SanityNode(id: string, type_: Option<string>, path: string, projectId: Option<string>, dataset: Option<string>)
    | SanityStegaNode(data: string)

  /** An element the overlay tracks. */
  datatype OverlayElement = OverlayElement(id: string, activated: bool, focused: bool, hovered: bool, sanity: SanityData)

  /** An entry of the reported documents: `_projectId`/`_dataset` are present
      only on a cross-dataset entry. */
  datatype ReportedDocument = ReportedDocument(id: string, type_: Option<string>, projectId: Option<string>, dataset: Option<string>)

  function IsSanityNode(s: SanityData): bool {
    s.SanityNode?
  }

  /** `elements.map((e) => e.sanity).filter((s) => 'id' in s)` */
  function Nodes(elements: seq<OverlayElement>): (nodes: seq<SanityData>)
    ensures forall n :: n in nodes ==> n.SanityNode?
    ensures forall i :: 0 <= i < |elements| && elements[i].sanity.SanityNode? ==> elements[i].sanity in nodes
    ensures forall n :: n in nodes ==> exists i :: 0 <= i < |elements| && elements[i].sanity == n
  {
    var sanities := seq(|elements|, i requires 0 <= i < |elements| => elements[i].sanity);
    assert forall i :: 0 <= i < |elements| ==> sanities[i] == elements[i].sanity;
    Filter(sanities, IsSanityNode)
  }

  /** `nodes.map((e) => e.id)` */
  function NodeIds(nodes: seq<SanityData>): (ids: seq<string>)
    requires forall n :: n in nodes ==> n.SanityNode?
    ensures |ids| == |nodes|
    ensures forall i :: 0 <= i < |nodes| ==> ids[i] == nodes[i].id
  {
    seq(|nodes|, i requires 0 <= i < |nodes| => nodes[i].id)
  }

  /** `nodes.find((node) => node.id === id)` for an id some node has. */
  function FirstNodeWithId(nodes: seq<SanityData>, id: string): (node: SanityData)
    requires forall n :: n in nodes ==> n.SanityNode?
    requires id in NodeIds(nodes)
    ensures node.SanityNode? && node.id == id
    ensures node == nodes[FirstIndex(NodeIds(nodes), id)]
  {
    nodes[FirstIndex(NodeIds(nodes), id)]
  }

  /** The record reported for a node: cross-dataset fields only when both are truthy. */
  function RecordOf(node: SanityData): (r: ReportedDocument)
    requires node.SanityNode?
    ensures r.id == node.id && r.type_ == node.type_
    ensures r.projectId.Some? <==> r.dataset.Some?
    ensures r.projectId.Some? <==> node.projectId.Some? && node.projectId.value != "" &&
                                    node.dataset.Some? && node.dataset.value != ""
    ensures r.projectId.Some? ==> r.projectId == node.projectId && r.dataset == node.dataset
  {
    if node.projectId.Some? && node.projectId.value != "" && node.dataset.Some? && node.dataset.value != "" then
      ReportedDocument(node.id, node.type_, node.projectId, node.dataset)
    else ReportedDocument(node.id, node.type_, None, None)
  }

  /** The id set of the nodes on the page: `new Set(nodes.map((e) => e.id))`. */
  function PageIdSet(elements: seq<OverlayElement>): seq<string> {
    Distinct(NodeIds(Nodes(elements)))
  }

  /** The documents reported for the page: one record per id of the id set, in its order. */
  function DocumentsOnPage(elements: seq<OverlayElement>): seq<ReportedDocument> {
    var nodes := Nodes(elements);
    var ids := PageIdSet(elements);
    DistinctElements(NodeIds(nodes));
    seq(|ids|, i requires 0 <= i < |ids| => RecordOf(FirstNodeWithId(nodes, ids[i])))
  }

  /** The report holds one record per id of the page's id set, in its order; the
      id set has no repetitions and holds exactly the ids of the resolved nodes
      on the page (stega nodes contribute nothing); each record is built from
      the first node with its id. */
  lemma DocumentsOnPageProperties(elements: seq<OverlayElement>)
    ensures var docs := DocumentsOnPage(elements); var ids := PageIdSet(elements);
      && |docs| == |ids|
      && NoDuplicates(ids)
      && (forall i :: 0 <= i < |docs| ==>
            docs[i].id == ids[i] && docs[i] == RecordOf(FirstNodeWithId(Nodes(elements), ids[i])))
      && (forall i :: 0 <= i < |elements| && elements[i].sanity.SanityNode? ==> elements[i].sanity.id in ids)
      && (forall id :: id in ids ==>
            exists i :: 0 <= i < |elements| && elements[i].sanity.SanityNode? && elements[i].sanity.id == id)
  {
    var nodes := Nodes(elements);
    var nodeIds := NodeIds(nodes);
    var ids := PageIdSet(elements);
    DistinctElements(nodeIds);
    DistinctNoDuplicates(nodeIds);
    forall i | 0 <= i < |elements| && elements[i].sanity.SanityNode?
      ensures elements[i].sanity.id in ids
    {
      var k :| 0 <= k < |nodes| && nodes[k] == elements[i].sanity;
      assert nodeIds[k] == elements[i].sanity.id;
    }
    forall id | id in ids
      ensures exists i :: 0 <= i < |elements| && elements[i].sanity.SanityNode? && elements[i].sanity.id == id
    {
      var k :| 0 <= k < |nodes| && nodeIds[k] == id;
      assert nodes[k] in nodes;
      var i :| 0 <= i < |elements| && elements[i].sanity == nodes[k];
    }
  }

  /** The reporting step as a function of the last reported id set: the
      documents to send (none when the id set is unchanged) and the new id set. */
  ghost function Report(current: seq<string>, elements: seq<OverlayElement>): (Option<seq<ReportedDocument>>, seq<string>) {
    var ids := PageIdSet(elements);
    if SameElements(ids, current) then (None, current)
    else (Some(DocumentsOnPage(elements)), ids)
  }

  /** Reporting is idempotent: once a page's ids are reported, a page with the
      same id set, in any order and with any repetitions, sends nothing. */
  lemma ReportOnlyOnChange(current: seq<string>, first: seq<OverlayElement>, second: seq<OverlayElement>)
    requires SameElements(NodeIds(Nodes(first)), NodeIds(Nodes(second)))
    ensures Report(Report(current, first).1, second).0.None?
    ensures Report(Report(current, first).1, second).1 == Report(current, first).1
  {
    DistinctElements(NodeIds(Nodes(first)));
    DistinctElements(NodeIds(Nodes(second)));
  }

  /** A report is sent exactly when some resolved node's id is new or some
      reported id has no node any more. */
  lemma ReportOnChange(current: seq<string>, elements: seq<OverlayElement>)
    ensures Report(current, elements).0.Some? <==>
      (exists id :: id in current && id !in NodeIds(Nodes(elements))) ||
      (exists id :: id in NodeIds(Nodes(elements)) && id !in current)
  {
    DistinctElements(NodeIds(Nodes(elements)));
  }

  /** The reporting effect's state: the ids last reported (`nodeIdsRef.current`). */
  class Reporter {
    var current: IdSet

    ghost predicate Valid()
      reads this
    {
      NoDuplicates(current.elems)
    }

    constructor ()
      ensures Valid() && fresh(current) && current.elems == []
    {
      current := new IdSet([]);
    }

    /** The documents-on-page effect: the documents to send, or none when the id
        set is unchanged; a changed id set replaces the stored one. */
    method ReportDocuments(elements: seq<OverlayElement>) returns (report: Option<seq<ReportedDocument>>)
      requires Valid()
      modifies this
      ensures Valid()
      ensures (report, current.elems) == Report(old(current.elems), elements)
      ensures report.None? ==> current == old(current)
    {
      var nodes := Nodes(elements);
      var nodeIds := new IdSet(NodeIds(nodes));
      var same := IsEqualSets(nodeIds, current);
      if !same {
        var documentsOnPage := DocumentsOnPage(elements);
        current := nodeIds;
        return Some(documentsOnPage);
      }
      return None;
    }
  }

  // ---------------------------------------------------------------------------
  // Render filter

  datatype ChannelStatus = Connecting | Connected | Disconnected

  /** The channel the overlay talks over, when there is one. */
  datatype Channel = Channel(inFrame: bool)

  function Rendered(e: OverlayElement): bool {
    e.activated || e.focused
  }

  /** `elementsToRender`: nothing without a channel or while an in-frame channel
      is not connected, else the activated or focused elements. */
  function ElementsToRender(channel: Option<Channel>, status: Option<ChannelStatus>, elements: seq<OverlayElement>): (r: seq<OverlayElement>)
    ensures channel.None? || (channel.value.inFrame && status != Some(Connected)) ==> r == []
    ensures channel.Some? && !(channel.value.inFrame && status != Some(Connected)) ==>
      forall e :: e in r <==> e in elements && (e.activated || e.focused)
    ensures |r| <= |elements|
  {
    if channel.None? || (channel.value.inFrame && status != Some(Connected)) then []
    else Filter(elements, Rendered)
  }

  /** The render filter keeps the page order: the elements of a prefix come
      before those of the rest. */
  lemma ElementsToRenderKeepsOrder(channel: Option<Channel>, status: Option<ChannelStatus>,
                                   before: seq<OverlayElement>, after: seq<OverlayElement>)
    ensures ElementsToRender(channel, status, before + after) ==
      ElementsToRender(channel, status, before) + ElementsToRender(channel, status, after)
  {
    FilterAppend(before, after, Rendered);
  }
}
