/**
 * The DOT serialisers: id filtering, grouping the entities by component, and the node and edge
 * templates of the detailed and the simple (overview) graph. HashMap iteration orders are
 * parameters, listing the collection they iterate; `sep` is the platform line separator.
 */
module DotExport {
  import opened Collections
  import opened Text
  import opened CallGraphSpec
  import opened CallGraphData
  import opened Config

  /** filterID: removes every '-' from an id, which DOT does not accept in a node name. */
  function FilterId(id: string): (r: string)
    ensures forall i :: 0 <= i < |r| ==> r[i] != '-'
    ensures |r| <= |id|
  {
    RemoveAll(id, '-')
  }

  // ---------------------------------------------------------------------------------------
  // Grouping by component

  /** The entities of `es` whose component id is `c`, in input order. */
  function OfComponent(es: seq<CallEntity>, c: string): (r: seq<CallEntity>)
    ensures forall e :: e in r ==> e in es && e.componentId == c
    ensures |r| <= |es|
  {
    if es == [] then []
    else OfComponent(es[..|es| - 1], c) + (if es[|es| - 1].componentId == c then [es[|es| - 1]] else [])
  }

  /** The component ids occurring in `es`. */
  function ComponentIds(es: seq<CallEntity>): set<string>
  {
    set e | e in es :: e.componentId
  }

  lemma OfComponentStep(es: seq<CallEntity>, i: nat, c: string)
    requires i < |es|
    ensures OfComponent(es[..i + 1], c) == OfComponent(es[..i], c) + (if es[i].componentId == c then [es[i]] else [])
  {
    assert es[..i + 1][..i] == es[..i];
  }

  lemma ComponentIdsStep(es: seq<CallEntity>, i: nat)
    requires i < |es|
    ensures ComponentIds(es[..i + 1]) == ComponentIds(es[..i]) + {es[i].componentId}
  {
    assert es[..i + 1] == es[..i] + [es[i]];
  }

  /** Grouping splits the input along its order: the group of a concatenation is the concatenation of the groups. */
  lemma {:induction false} OfComponentAppend(a: seq<CallEntity>, b: seq<CallEntity>, c: string)
    ensures OfComponent(a + b, c) == OfComponent(a, c) + OfComponent(b, c)
  {
    if b == [] {
      assert a + b == a;
    } else {
      assert (a + b)[..|a + b| - 1] == a + b[..|b| - 1];
      assert (a + b)[|a + b| - 1] == b[|b| - 1];
      OfComponentAppend(a, b[..|b| - 1], c);
    }
  }

  /** A group is non-empty exactly when its component id occurs in the input. */
  lemma {:induction false} OfComponentNonEmpty(es: seq<CallEntity>, c: string)
    ensures |OfComponent(es, c)| > 0 <==> c in ComponentIds(es)
  {
    if es != [] {
      var prefix := es[..|es| - 1];
      OfComponentNonEmpty(prefix, c);
      assert es == prefix + [es[|es| - 1]];
      assert ComponentIds(es) == ComponentIds(prefix) + {es[|es| - 1].componentId};
    }
  }

  /** The summed sizes of the groups named by `cs`. */
  function GroupSizes(es: seq<CallEntity>, cs: seq<string>): nat
  {
    if cs == [] then 0 else GroupSizes(es, cs[..|cs| - 1]) + |OfComponent(es, cs[|cs| - 1])|
  }

  /** How often `c` occurs in `cs`. */
  function Occurrences(cs: seq<string>, c: string): nat
  {
    if cs == [] then 0 else Occurrences(cs[..|cs| - 1], c) + (if cs[|cs| - 1] == c then 1 else 0)
  }

  lemma {:induction false} GroupSizesSnoc(es: seq<CallEntity>, e: CallEntity, cs: seq<string>)
    ensures GroupSizes(es + [e], cs) == GroupSizes(es, cs) + Occurrences(cs, e.componentId)
  {
    if cs != [] {
      GroupSizesSnoc(es, e, cs[..|cs| - 1]);
      assert (es + [e])[..|es + [e]| - 1] == es;
    }
  }

  lemma {:induction false} DistinctOccursOnce(cs: seq<string>, c: string)
    requires Distinct(cs)
    ensures Occurrences(cs, c) == if c in cs then 1 else 0
  {
    if cs != [] {
      var prefix := cs[..|cs| - 1];
      assert cs == prefix + [cs[|cs| - 1]];
      DistinctOccursOnce(prefix, c);
    }
  }

  /** Over distinct keys covering every component id, the group sizes sum up to the input size. */
  lemma {:induction false} GroupSizesTotal(es: seq<CallEntity>, cs: seq<string>)
    requires Distinct(cs) && ComponentIds(es) <= Elements(cs)
    ensures GroupSizes(es, cs) == |es|
  {
    if es == [] {
      GroupSizesEmpty(cs);
    } else {
      var prefix, last := es[..|es| - 1], es[|es| - 1];
      assert es == prefix + [last];
      assert ComponentIds(es) == ComponentIds(prefix) + {last.componentId};
      GroupSizesTotal(prefix, cs);
      GroupSizesSnoc(prefix, last, cs);
      DistinctOccursOnce(cs, last.componentId);
    }
  }

  lemma {:induction false} GroupSizesEmpty(cs: seq<string>)
    ensures GroupSizes([], cs) == 0
  {
    if cs != [] {
      GroupSizesEmpty(cs[..|cs| - 1]);
    }
  }

  /**
   * AbstractDotBuilder.reorder: one list per component id, holding the entities of that
   * component in input order.
   */
  method Reorder(entities: seq<CallEntity>) returns (groups: map<string, seq<CallEntity>>)
    ensures groups.Keys == ComponentIds(entities)
    ensures forall c :: c in groups ==> groups[c] == OfComponent(entities, c)
  {
    groups := map[];
    var i := 0;
    while i < |entities|
      invariant 0 <= i <= |entities|
      invariant Grouped(groups, entities[..i])
    {
      var entity := entities[i];
      ReorderStep(groups, entities, i);
      if entity.componentId in groups {
        groups := groups[entity.componentId := groups[entity.componentId] + [entity]];
      } else {
        groups := groups[entity.componentId := [entity]];
      }
      i := i + 1;
    }
    TakeAll(entities);
  }

  /** The groups of `es`: one per component id, holding that component's entities in order. */
  ghost predicate Grouped(groups: map<string, seq<CallEntity>>, es: seq<CallEntity>)
  {
    groups.Keys == ComponentIds(es) && forall c :: c in groups ==> groups[c] == OfComponent(es, c)
  }

  /** One step of reorder: the entity joins the list of its component, which is created if missing. */
  lemma ReorderStep(groups: map<string, seq<CallEntity>>, es: seq<CallEntity>, i: nat)
    requires i < |es| && Grouped(groups, es[..i])
    ensures var c := es[i].componentId;
      Grouped(if c in groups then groups[c := groups[c] + [es[i]]] else groups[c := [es[i]]], es[..i + 1])
  {
    var c := es[i].componentId;
    var next := if c in groups then groups[c := groups[c] + [es[i]]] else groups[c := [es[i]]];
    ComponentIdsStep(es, i);
    if c !in groups {
      OfComponentNonEmpty(es[..i], c);
    }
    forall d | d in next
      ensures next[d] == OfComponent(es[..i + 1], d)
    {
      OfComponentStep(es, i, d);
    }
  }

  /** Every group of a reordering is non-empty and its members carry its key. */
  lemma ReorderGroups(entities: seq<CallEntity>, c: string)
    requires c in ComponentIds(entities)
    ensures |OfComponent(entities, c)| > 0
    ensures forall e :: e in OfComponent(entities, c) ==> e.componentId == c
  {
    OfComponentNonEmpty(entities, c);
  }

  // ---------------------------------------------------------------------------------------
  // The detailed graph

  const ENTRY_START := "\""
  const ENTRY_MIDDLE := "\" [label=\""
  const ENTRY_END := "\",shape=\"none\"] "
  const COMPONENT_START := "subgraph \"cluster"
  const COMPONENT_MIDDLE1 := "\" { label = \""
  const COMPONENT_MIDDLE2 := "\"; shape = \"box\"; style = \"filled\"; fillcolor = \"white\"; "
  const COMPONENT_END := "} "
  const METHOD_START := "\""
  const METHOD_MIDDLE := "\" [label=\""
  const METHOD_END_EMPTY := "\",shape=\"oval\",style=\"dotted\",color=\"#000000\",fillcolor=\"white\"] "
  const METHOD_END_NOT_EMPTY := "\",shape=\"oval\",style=\"filled\",color=\"#000000\",fillcolor=\"white\"] "
  const LINK_START := ""
  const LINK_MIDDLE := "->"
  const LINK_END1 := "[label=\"calls ("
  const LINK_END2 := "x)\", style=\"solid\", arrowhead=\"open\", color=\"#000000\"]"

  /** The DOT node name of an entity: filtered interface id, then filtered method id. */
  function NodeId(e: EntityInfo): (r: string)
    ensures forall i :: 0 <= i < |r| ==> r[i] != '-'
  {
    FilterId(e.interfaceId) + FilterId(e.methodId)
  }

  /** " (id)" when ids are exported, nothing otherwise. */
  function IdSuffix(exportIds: bool, id: string): string
  {
    if exportIds then " (" + id + ")" else ""
  }

  function StartNode(start: EntityInfo): string
  {
    ENTRY_START + NodeId(start) + ENTRY_MIDDLE + start.componentName + ENTRY_END
  }

  /** A method node: dotted when the method calls nothing, filled otherwise. */
  function MethodNode(m: CallEntity, exportIds: bool, sep: string): string
  {
    METHOD_START + NodeId(m.Info()) + METHOD_MIDDLE
    + m.interfaceName + IdSuffix(exportIds, m.interfaceId)
    + sep + m.methodName + IdSuffix(exportIds, m.methodId)
    + (if m.empty then METHOD_END_EMPTY else METHOD_END_NOT_EMPTY)
  }

  /** The opening of a component block, labelled by the component of its first method. */
  function ComponentHead(first: EntityInfo, exportIds: bool): string
  {
    COMPONENT_START + FilterId(first.componentId) + COMPONENT_MIDDLE1
    + first.componentName + IdSuffix(exportIds, first.componentId) + COMPONENT_MIDDLE2
  }

  function MethodNodes(ms: seq<CallEntity>, exportIds: bool, sep: string): (r: seq<string>)
    ensures |r| == |ms|
    ensures forall i :: 0 <= i < |ms| ==> r[i] == MethodNode(ms[i], exportIds, sep)
  {
    seq(|ms|, i requires 0 <= i < |ms| => MethodNode(ms[i], exportIds, sep))
  }

  /** One `subgraph "cluster…"` block holding the nodes of one component, closed by "} ". */
  function ComponentBlock(ms: seq<CallEntity>, exportIds: bool, sep: string): string
    requires |ms| > 0
  {
    ComponentHead(ms[0].Info(), exportIds) + Concat(MethodNodes(ms, exportIds, sep)) + COMPONENT_END
  }

  function ComponentBlocks(groups: seq<seq<CallEntity>>, exportIds: bool, sep: string): (r: seq<string>)
    requires forall i :: 0 <= i < |groups| ==> |groups[i]| > 0
    ensures |r| == |groups|
    ensures forall i :: 0 <= i < |groups| ==> r[i] == ComponentBlock(groups[i], exportIds, sep)
  {
    seq(|groups|, i requires 0 <= i < |groups| && |groups[i]| > 0 => ComponentBlock(groups[i], exportIds, sep))
  }

  /** One edge per link, labelled with the number of calls. */
  function Edge(l: Link): string
  {
    LINK_START + NodeId(l.startEntity) + LINK_MIDDLE + NodeId(l.targetEntity) + LINK_END1 + IntToString(l.count) + LINK_END2
  }

  function Edges(ls: seq<Link>): (r: seq<string>)
    ensures |r| == |ls|
    ensures forall i :: 0 <= i < |ls| ==> r[i] == Edge(ls[i])
  {
    seq(|ls|, i requires 0 <= i < |ls| => Edge(ls[i]))
  }

  /** The whole detailed graph: the start node, then the component blocks, then the edges. */
  function DotText(start: EntityInfo, groups: seq<seq<CallEntity>>, links: seq<Link>, exportIds: bool, sep: string): string
    requires forall i :: 0 <= i < |groups| ==> |groups[i]| > 0
  {
    StartNode(start) + Concat(ComponentBlocks(groups, exportIds, sep)) + Concat(Edges(links))
  }

  /** The style of a method node tells whether the method is empty, in both directions. */
  lemma MethodNodeStyle(m: CallEntity, exportIds: bool, sep: string)
    ensures EndsWith(MethodNode(m, exportIds, sep), METHOD_END_EMPTY) <==> m.empty
  {
    var s := MethodNode(m, exportIds, sep);
    assert |METHOD_END_EMPTY| == |METHOD_END_NOT_EMPTY|;
    if !m.empty {
      assert s[|s| - |METHOD_END_EMPTY|..] == METHOD_END_NOT_EMPTY;
      assert METHOD_END_NOT_EMPTY[22] != METHOD_END_EMPTY[22];
    } else {
      assert s[|s| - |METHOD_END_EMPTY|..] == METHOD_END_EMPTY;
    }
  }

  /** Two edges between the same nodes are equal only when they carry the same count: the label reads back. */
  lemma EdgeShowsCount(l1: Link, l2: Link)
    requires NodeId(l1.startEntity) == NodeId(l2.startEntity) && NodeId(l1.targetEntity) == NodeId(l2.targetEntity)
    requires Edge(l1) == Edge(l2)
    ensures l1.count == l2.count
  {
    var prefix := LINK_START + NodeId(l1.startEntity) + LINK_MIDDLE + NodeId(l1.targetEntity) + LINK_END1;
    var a, b := IntToString(l1.count), IntToString(l2.count);
    assert Edge(l1) == prefix + a + LINK_END2;
    assert Edge(l2) == prefix + b + LINK_END2;
    assert a == (prefix + a + LINK_END2)[|prefix|..|prefix| + |a|];
    assert b == (prefix + b + LINK_END2)[|prefix|..|prefix| + |b|];
    IntToStringInjective(l1.count, l2.count);
  }

  /** Without exported ids, a method's label is its interface name, a line break and its method name. */
  lemma MethodLabelWithoutIds(m: CallEntity, sep: string)
    ensures MethodNode(m, false, sep) ==
      METHOD_START + NodeId(m.Info()) + METHOD_MIDDLE + m.interfaceName + sep + m.methodName
      + (if m.empty then METHOD_END_EMPTY else METHOD_END_NOT_EMPTY)
  {
  }

  /** CallGraphToDotBuilder: groups the graph's entities at construction and serialises them on demand. */
  class CallGraphToDotBuilder {
    const methodsInComponents: map<string, seq<CallEntity>>
    const links: seq<Link>
    const start: CallEntity

    /** Every group holds at least one method, the one its block is labelled by. */
    ghost predicate Valid()
    {
      forall c :: c in methodsInComponents ==> |methodsInComponents[c]| > 0
    }

    /** `entityOrder` and `linkOrder` are the orders in which the graph's hash maps yield their values. */
    constructor (callGraph: CallGraph, entityOrder: seq<CallEntity>, linkOrder: seq<Link>)
      requires Enumerates(entityOrder, callGraph.entities.Values)
      requires Enumerates(linkOrder, callGraph.links.Values)
      ensures Valid()
      ensures methodsInComponents.Keys == ComponentIds(entityOrder)
      ensures forall c :: c in methodsInComponents ==> methodsInComponents[c] == OfComponent(entityOrder, c)
      ensures links == linkOrder && start == callGraph.start
    {
      var groups := Reorder(entityOrder);
      forall c | c in groups ensures |groups[c]| > 0 {
        OfComponentNonEmpty(entityOrder, c);
      }
      methodsInComponents := groups;
      links := linkOrder;
      start := callGraph.start;
    }

    /** The groups of the components in `order`. */
    function Groups(order: seq<string>): (r: seq<seq<CallEntity>>)
      requires Valid()
      requires forall i :: 0 <= i < |order| ==> order[i] in methodsInComponents
      ensures |r| == |order|
      ensures forall i :: 0 <= i < |order| ==> r[i] == methodsInComponents[order[i]] && |r[i]| > 0
    {
      seq(|order|, i requires 0 <= i < |order| && order[i] in methodsInComponents => methodsInComponents[order[i]])
    }

    /**
     * build: the start node, one block per component in `componentOrder` (the order the
     * grouping map yields its lists), then one edge per link; ids are shown as the
     * configuration says.
     */
    method Build(config: GraphVizConfiguration, componentOrder: seq<string>, sep: string) returns (dot: string)
      requires Valid()
      requires Enumerates(componentOrder, methodsInComponents.Keys)
      ensures dot == DotText(start.Info(), Groups(componentOrder), links, config.exportIds, sep)
    {
      dot := RenderDot(start.Info(), Groups(componentOrder), links, config.IsExportIds(), sep);
    }
  }

  /** The detailed graph from the groups: start node, component blocks, edges. */
  method RenderDot(start: EntityInfo, groups: seq<seq<CallEntity>>, links: seq<Link>, exportIds: bool, sep: string)
    returns (dot: string)
    requires forall i :: 0 <= i < |groups| ==> |groups[i]| > 0
    ensures dot == DotText(start, groups, links, exportIds, sep)
  {
    var componentsText := RenderComponents(groups, exportIds, sep);
    var callsText := RenderEdges(links);
    dot := StartNode(start) + componentsText + callsText;
  }

  /** The component blocks, one after the other, in the order given. */
  method RenderComponents(groups: seq<seq<CallEntity>>, exportIds: bool, sep: string) returns (text: string)
    requires forall i :: 0 <= i < |groups| ==> |groups[i]| > 0
    ensures text == Concat(ComponentBlocks(groups, exportIds, sep))
  {
    ghost var blocks := ComponentBlocks(groups, exportIds, sep);
    text := "";
    var i := 0;
    while i < |groups|
      invariant 0 <= i <= |groups|
      invariant text == Concat(blocks[..i])
    {
      var block := RenderComponent(groups[i], exportIds, sep);
      ConcatStep(blocks, i);
      text := text + block;
      i := i + 1;
    }
    TakeAll(blocks);
  }

  /** One component block: its head, one node per method in list order, then the closing brace. */
  method RenderComponent(methods: seq<CallEntity>, exportIds: bool, sep: string) returns (block: string)
    requires |methods| > 0
    ensures block == ComponentBlock(methods, exportIds, sep)
  {
    var head := ComponentHead(methods[0].Info(), exportIds);
    ghost var nodes := MethodNodes(methods, exportIds, sep);
    var body := "";
    var k := 0;
    while k < |methods|
      invariant 0 <= k <= |methods|
      invariant body == Concat(nodes[..k])
    {
      var node := MethodNode(methods[k], exportIds, sep);
      ConcatStep(nodes, k);
      body := body + node;
      k := k + 1;
    }
    TakeAll(nodes);
    block := head + body + COMPONENT_END;
  }

  /** The edges, one per link, in the order given. */
  method RenderEdges(links: seq<Link>) returns (text: string)
    ensures text == Concat(Edges(links))
  {
    ghost var edges := Edges(links);
    text := "";
    var j := 0;
    while j < |links|
      invariant 0 <= j <= |links|
      invariant text == Concat(edges[..j])
    {
      var edge := Edge(links[j]);
      ConcatStep(edges, j);
      text := text + edge;
      j := j + 1;
    }
    TakeAll(edges);
  }

  // ---------------------------------------------------------------------------------------
  // The simple graph (used for the overview)

  const SIMPLE_PREFIX := "rankdir=LR; "
  const SIMPLE_METHOD_END := "\",shape=\"oval\",style=\"filled\",color=\"#000000\",fillcolor=\"white\"] "
  const SIMPLE_LINK_END := "[label=\"next\", style=\"solid\", arrowhead=\"open\", color=\"#000000\"]"

  /** The start node of the simple graph, keyed by the filtered component id. */
  function SimpleStartNode(start: EntityInfo): string
  {
    ENTRY_START + FilterId(start.componentId) + ENTRY_MIDDLE + start.componentName + ENTRY_END
  }

  /** One node per entity, keyed by its filtered component id and labelled with its component name. */
  function SimpleNode(e: EntityInfo): string
  {
    METHOD_START + FilterId(e.componentId) + METHOD_MIDDLE + e.componentName + SIMPLE_METHOD_END
  }

  /** One edge per link, labelled "next"; the count of the link is not shown. */
  function SimpleEdge(source: EntityInfo, target: EntityInfo): string
  {
    LINK_START + FilterId(source.componentId) + LINK_MIDDLE + FilterId(target.componentId) + SIMPLE_LINK_END
  }

  function SimpleNodes(es: seq<CallEntity>): (r: seq<string>)
    ensures |r| == |es|
    ensures forall i :: 0 <= i < |es| ==> r[i] == SimpleNode(es[i].Info())
  {
    seq(|es|, i requires 0 <= i < |es| => SimpleNode(es[i].Info()))
  }

  function SimpleEdges(ls: seq<Link>): (r: seq<string>)
    ensures |r| == |ls|
    ensures forall i :: 0 <= i < |ls| ==> r[i] == SimpleEdge(ls[i].startEntity, ls[i].targetEntity)
  {
    seq(|ls|, i requires 0 <= i < |ls| => SimpleEdge(ls[i].startEntity, ls[i].targetEntity))
  }

  /**
   * The simple graph: the prefix, the start node, the entity nodes, the edges. It reads only
   * constant fields, so neither the `empty` flags, nor the counts, nor any configuration
   * enter it.
   */
  function SimpleDotText(start: EntityInfo, methods: seq<CallEntity>, links: seq<Link>): string
  {
    SIMPLE_PREFIX + SimpleStartNode(start) + Concat(SimpleNodes(methods)) + Concat(SimpleEdges(links))
  }

  /** Cutting at the arrow: ids without '-' end exactly where "->" starts. */
  lemma ArrowSplit(a1: string, r1: string, a2: string, r2: string)
    requires forall i :: 0 <= i < |a1| ==> a1[i] != '-'
    requires forall i :: 0 <= i < |a2| ==> a2[i] != '-'
    requires a1 + LINK_MIDDLE + r1 == a2 + LINK_MIDDLE + r2
    ensures a1 == a2 && r1 == r2
  {
    var s1, s2 := a1 + LINK_MIDDLE + r1, a2 + LINK_MIDDLE + r2;
    assert |a1| == |a2| by {
      assert forall k :: 0 <= k < |a1| ==> s1[k] != '-';
      assert forall k :: 0 <= k < |a2| ==> s2[k] != '-';
      assert s1[|a1|] == '-' && s2[|a2|] == '-';
    }
    assert a1 == s1[..|a1|] && a2 == s2[..|a2|];
    assert r1 == s1[|a1| + 2..] && r2 == s2[|a2| + 2..];
  }

  /** A simple edge names its two nodes unambiguously: equal edges join equal node keys. */
  lemma SimpleEdgeReadsBack(s1: EntityInfo, t1: EntityInfo, s2: EntityInfo, t2: EntityInfo)
    requires SimpleEdge(s1, t1) == SimpleEdge(s2, t2)
    ensures FilterId(s1.componentId) == FilterId(s2.componentId)
    ensures FilterId(t1.componentId) == FilterId(t2.componentId)
  {
    var a1, a2 := FilterId(s1.componentId), FilterId(s2.componentId);
    var b1, b2 := FilterId(t1.componentId), FilterId(t2.componentId);
    assert LINK_START + a1 == a1 && LINK_START + a2 == a2;
    AppendAssoc(a1 + LINK_MIDDLE, b1, SIMPLE_LINK_END);
    AppendAssoc(a2 + LINK_MIDDLE, b2, SIMPLE_LINK_END);
    ArrowSplit(a1, b1 + SIMPLE_LINK_END, a2, b2 + SIMPLE_LINK_END);
    assert b1 == (b1 + SIMPLE_LINK_END)[..|b1|] && b2 == (b2 + SIMPLE_LINK_END)[..|b2|];
  }

  /** The start node of a detailed edge is unambiguous too: it ends where the arrow starts. */
  lemma EdgeReadsBackStart(l1: Link, l2: Link)
    requires Edge(l1) == Edge(l2)
    ensures NodeId(l1.startEntity) == NodeId(l2.startEntity)
  {
    var a1, a2 := NodeId(l1.startEntity), NodeId(l2.startEntity);
    var r1 := NodeId(l1.targetEntity) + LINK_END1 + IntToString(l1.count) + LINK_END2;
    var r2 := NodeId(l2.targetEntity) + LINK_END1 + IntToString(l2.count) + LINK_END2;
    assert LINK_START + a1 == a1 && LINK_START + a2 == a2;
    AppendAssoc(a1 + LINK_MIDDLE, NodeId(l1.targetEntity), LINK_END1);
    AppendAssoc(a1 + LINK_MIDDLE, NodeId(l1.targetEntity) + LINK_END1, IntToString(l1.count));
    AppendAssoc(a1 + LINK_MIDDLE, NodeId(l1.targetEntity) + LINK_END1 + IntToString(l1.count), LINK_END2);
    AppendAssoc(a2 + LINK_MIDDLE, NodeId(l2.targetEntity), LINK_END1);
    AppendAssoc(a2 + LINK_MIDDLE, NodeId(l2.targetEntity) + LINK_END1, IntToString(l2.count));
    AppendAssoc(a2 + LINK_MIDDLE, NodeId(l2.targetEntity) + LINK_END1 + IntToString(l2.count), LINK_END2);
    ArrowSplit(a1, r1, a2, r2);
  }

  /** SimpleCallGraphToDotBuilder: takes the graph's entities and links at construction. */
  class SimpleCallGraphToDotBuilder {
    const methods: seq<CallEntity>
    const links: seq<Link>
    const start: CallEntity

    /** `entityOrder` and `linkOrder` are the orders in which the graph's hash maps yield their values. */
    constructor (callGraph: CallGraph, entityOrder: seq<CallEntity>, linkOrder: seq<Link>)
      requires Enumerates(entityOrder, callGraph.entities.Values)
      requires Enumerates(linkOrder, callGraph.links.Values)
      ensures methods == entityOrder && links == linkOrder && start == callGraph.start
    {
      methods := entityOrder;
      links := linkOrder;
      start := callGraph.start;
    }

    /** build: the configuration is accepted but never read. */
    method Build(config: GraphVizConfiguration) returns (dot: string)
      ensures dot == SimpleDotText(start.Info(), methods, links)
    {
      dot := SIMPLE_PREFIX + SimpleStartNode(start.Info());
      ghost var nodes := SimpleNodes(methods);
      var nodesText := "";
      var i := 0;
      while i < |methods|
        invariant 0 <= i <= |methods|
        invariant nodesText == Concat(nodes[..i])
      {
        ConcatStep(nodes, i);
        nodesText := nodesText + SimpleNode(methods[i].Info());
        i := i + 1;
      }
      TakeAll(nodes);
      ghost var edges := SimpleEdges(links);
      var edgesText := "";
      var j := 0;
      while j < |links|
        invariant 0 <= j <= |links|
        invariant edgesText == Concat(edges[..j])
      {
        ConcatStep(edges, j);
        edgesText := edgesText + SimpleEdge(links[j].startEntity, links[j].targetEntity);
        j := j + 1;
      }
      TakeAll(edges);
      dot := dot + nodesText + edgesText;
    }
  }
}
