/**
 * The text reports: the components of one graph, and the components of all graphs of a
 * manager. HashMap iteration orders are parameters; `sep` is the platform line separator.
 */
module TxtExport {
  import opened Collections
  import opened Text
  import opened CallGraphSpec
  import opened CallGraphData

  /** One report line: "- name (id)" and a line break. */
  function ComponentLine(id: string, name: string, sep: string): string
  {
    "- " + name + " (" + id + ")" + sep
  }

  /** The lines for the keys of `components`, in the order given. */
  function ComponentLines(components: map<string, string>, keyOrder: seq<string>, sep: string): (r: seq<string>)
    requires forall i :: 0 <= i < |keyOrder| ==> keyOrder[i] in components
    ensures |r| == |keyOrder|
    ensures forall i :: 0 <= i < |keyOrder| ==> r[i] == ComponentLine(keyOrder[i], components[keyOrder[i]], sep)
  {
    seq(|keyOrder|, i requires 0 <= i < |keyOrder| && keyOrder[i] in components =>
      ComponentLine(keyOrder[i], components[keyOrder[i]], sep))
  }

  /** A report lists exactly one line per component. */
  lemma LineCount(components: map<string, string>, keyOrder: seq<string>, sep: string)
    requires Enumerates(keyOrder, components.Keys)
    ensures |ComponentLines(components, keyOrder, sep)| == |components|
  {
    EnumerationSize(keyOrder, components.Keys);
  }

  /** appendComponent: appends one line and hands back the same builder. */
  method AppendComponent(builder: StringBuilder, id: string, name: string, sep: string) returns (b: StringBuilder)
    modifies builder
    ensures b == builder
    ensures builder.text == old(builder.text) + ComponentLine(id, name, sep)
  {
    builder.Append(ComponentLine(id, name, sep));
    b := builder;
  }

  /** appendComponents: one line per key, in the order the map yields its keys, after what was there. */
  method AppendComponents(builder: StringBuilder, components: map<string, string>, keyOrder: seq<string>, sep: string)
    returns (b: StringBuilder)
    requires Enumerates(keyOrder, components.Keys)
    modifies builder
    ensures b == builder
    ensures builder.text == old(builder.text) + Concat(ComponentLines(components, keyOrder, sep))
  {
    ghost var lines := ComponentLines(components, keyOrder, sep);
    var i := 0;
    while i < |keyOrder|
      invariant 0 <= i <= |keyOrder|
      invariant builder.text == old(builder.text) + Concat(lines[..i])
    {
      var componentId := keyOrder[i];
      ConcatStep(lines, i);
      AppendAssoc(old(builder.text), Concat(lines[..i]), lines[i]);
      var _ := AppendComponent(builder, componentId, components[componentId], sep);
      i := i + 1;
    }
    TakeAll(lines);
    b := builder;
  }

  /** An empty map appends nothing. */
  lemma NoComponentsNoLines(sep: string)
    ensures Concat(ComponentLines(map[], [], sep)) == ""
  {
  }

  // ---------------------------------------------------------------------------------------
  // Collecting the components

  /** The component id to name map after putting every entity in order: for a repeated id the last name wins. */
  function ComponentNames(es: seq<EntityInfo>): map<string, string>
  {
    if es == [] then map[]
    else ComponentNames(es[..|es| - 1])[es[|es| - 1].componentId := es[|es| - 1].componentName]
  }

  function ComponentIdsOf(es: seq<EntityInfo>): set<string>
  {
    set e | e in es :: e.componentId
  }

  /** The keys are exactly the component ids that occur. */
  lemma {:induction false} ComponentNamesKeys(es: seq<EntityInfo>)
    ensures ComponentNames(es).Keys == ComponentIdsOf(es)
  {
    if es != [] {
      var prefix := es[..|es| - 1];
      ComponentNamesKeys(prefix);
      assert es == prefix + [es[|es| - 1]];
      assert ComponentIdsOf(es) == ComponentIdsOf(prefix) + {es[|es| - 1].componentId};
    }
  }

  /** The name stored for an id is the name of the last entity with that id. */
  lemma {:induction false} ComponentNamesLastWins(es: seq<EntityInfo>, i: nat)
    requires i < |es|
    requires forall j :: i < j < |es| ==> es[j].componentId != es[i].componentId
    ensures es[i].componentId in ComponentNames(es)
    ensures ComponentNames(es)[es[i].componentId] == es[i].componentName
  {
    if i < |es| - 1 {
      var prefix := es[..|es| - 1];
      assert forall j :: i < j < |prefix| ==> prefix[j] == es[j];
      ComponentNamesLastWins(prefix, i);
    }
  }

  /** Collecting a concatenation: the later list overrides the earlier one. */
  lemma {:induction false} ComponentNamesAppend(a: seq<EntityInfo>, b: seq<EntityInfo>)
    ensures ComponentNames(a + b) == ComponentNames(a) + ComponentNames(b)
  {
    if b == [] {
      assert a + b == a;
    } else {
      var prefix := b[..|b| - 1];
      assert (a + b)[..|a + b| - 1] == a + prefix;
      assert (a + b)[|a + b| - 1] == b[|b| - 1];
      ComponentNamesAppend(a, prefix);
    }
  }

  function Infos(es: seq<CallEntity>): (r: seq<EntityInfo>)
    ensures |r| == |es|
    ensures forall i :: 0 <= i < |es| ==> r[i] == es[i].Info()
  {
    if es == [] then [] else Infos(es[..|es| - 1]) + [es[|es| - 1].Info()]
  }

  lemma InfosStep(es: seq<CallEntity>, i: nat)
    requires i < |es|
    ensures Infos(es[..i + 1]) == Infos(es[..i]) + [es[i].Info()]
  {
    assert es[..i + 1][..i] == es[..i];
  }

  lemma CollectStep(es: seq<CallEntity>, i: nat)
    requires i < |es|
    ensures ComponentNames(Infos(es[..i + 1])) == ComponentNames(Infos(es[..i]))[es[i].componentId := es[i].componentName]
  {
    InfosStep(es, i);
    var r := Infos(es[..i]) + [es[i].Info()];
    assert r[..|r| - 1] == Infos(es[..i]);
  }

  /** findAllComponents of one graph: every entity put into the map, in the order given. */
  method FindAllComponents(entities: seq<CallEntity>) returns (components: map<string, string>)
    ensures components == ComponentNames(Infos(entities))
  {
    components := map[];
    var i := 0;
    while i < |entities|
      invariant 0 <= i <= |entities|
      invariant components == ComponentNames(Infos(entities[..i]))
    {
      CollectStep(entities, i);
      components := components[entities[i].componentId := entities[i].componentName];
      i := i + 1;
    }
    TakeAll(entities);
  }

  /** CallGraphToTxtBuilder: the components of one graph, collected at construction. */
  class CallGraphToTxtBuilder {
    const graphName: string
    const components: map<string, string>

    /** `entityOrder` is the order in which the graph's entity map yields its values. */
    constructor (callGraph: CallGraph, entityOrder: seq<CallEntity>)
      requires Enumerates(entityOrder, callGraph.entities.Values)
      ensures graphName == callGraph.graphName
      ensures components == ComponentNames(Infos(entityOrder))
    {
      graphName := callGraph.graphName;
      var found := FindAllComponents(entityOrder);
      components := found;
    }

    /** build: a header with the graph name and the number of components, then one line per component. */
    method Build(keyOrder: seq<string>, sep: string) returns (text: string)
      requires Enumerates(keyOrder, components.Keys)
      ensures text == "COMPONENTS OF " + graphName + ": " + IntToString(|components|) + sep
        + Concat(ComponentLines(components, keyOrder, sep))
    {
      var builder := new StringBuilder();
      builder.Append("COMPONENTS OF " + graphName + ": " + IntToString(|components|) + sep);
      var _ := AppendComponents(builder, components, keyOrder, sep);
      text := builder.text;
    }
  }

  // ---------------------------------------------------------------------------------------
  // All graphs of a manager

  /** The entity infos of several graphs, one graph after the other. */
  function Flatten(gs: seq<seq<EntityInfo>>): seq<EntityInfo>
  {
    if gs == [] then [] else Flatten(gs[..|gs| - 1]) + gs[|gs| - 1]
  }

  /** The number of distinct components of each graph, added up. */
  function SumOfCounts(gs: seq<seq<EntityInfo>>): nat
  {
    if gs == [] then 0 else SumOfCounts(gs[..|gs| - 1]) + |ComponentIdsOf(gs[|gs| - 1])|
  }

  lemma ComponentIdsOfAppend(a: seq<EntityInfo>, b: seq<EntityInfo>)
    ensures ComponentIdsOf(a + b) == ComponentIdsOf(a) + ComponentIdsOf(b)
  {
    forall c | c in ComponentIdsOf(a + b) ensures c in ComponentIdsOf(a) + ComponentIdsOf(b) {
      var e :| e in a + b && e.componentId == c;
    }
  }

  /** The components of the graphs so far, with those of one more graph. */
  lemma FlattenComponentsStep(gs: seq<seq<EntityInfo>>)
    requires gs != []
    ensures ComponentIdsOf(Flatten(gs)) == ComponentIdsOf(Flatten(gs[..|gs| - 1])) + ComponentIdsOf(gs[|gs| - 1])
  {
    ComponentIdsOfAppend(Flatten(gs[..|gs| - 1]), gs[|gs| - 1]);
  }

  /** Every component of graph k is among the components of all graphs. */
  lemma {:induction false} GraphComponentsInTotal(gs: seq<seq<EntityInfo>>, k: nat)
    requires k < |gs|
    ensures ComponentIdsOf(gs[k]) <= ComponentIdsOf(Flatten(gs))
  {
    var prefix := gs[..|gs| - 1];
    FlattenComponentsStep(gs);
    if k < |prefix| {
      assert gs[k] == prefix[k];
      GraphComponentsInTotal(prefix, k);
    }
  }

  /**
   * The total over all graphs counts every component once: at least as many as any single
   * graph has, at most the sum over the graphs.
   */
  lemma {:induction false} TotalBounds(gs: seq<seq<EntityInfo>>)
    ensures forall k :: 0 <= k < |gs| ==> |ComponentIdsOf(gs[k])| <= |ComponentNames(Flatten(gs))|
    ensures |ComponentNames(Flatten(gs))| <= SumOfCounts(gs)
  {
    ComponentNamesKeys(Flatten(gs));
    forall k | 0 <= k < |gs| ensures |ComponentIdsOf(gs[k])| <= |ComponentIdsOf(Flatten(gs))| {
      GraphComponentsInTotal(gs, k);
      SubsetCardinality(ComponentIdsOf(gs[k]), ComponentIdsOf(Flatten(gs)));
    }
    if gs != [] {
      var prefix, last := gs[..|gs| - 1], gs[|gs| - 1];
      TotalBounds(prefix);
      ComponentNamesKeys(Flatten(prefix));
      FlattenComponentsStep(gs);
      UnionCardinality(ComponentIdsOf(Flatten(prefix)), ComponentIdsOf(last));
    }
  }

  lemma SubsetCardinality(a: set<string>, b: set<string>)
    requires a <= b
    ensures |a| <= |b|
  {
    assert b == a + (b - a);
  }

  lemma UnionCardinality(a: set<string>, b: set<string>)
    ensures |a + b| <= |a| + |b|
  {
    assert a + b == a + (b - a);
  }

  /** The entity infos of each graph, in the orders given. */
  function InfosOfAll(entityOrders: seq<seq<CallEntity>>): (r: seq<seq<EntityInfo>>)
    ensures |r| == |entityOrders|
    ensures forall g :: 0 <= g < |entityOrders| ==> r[g] == Infos(entityOrders[g])
  {
    seq(|entityOrders|, g requires 0 <= g < |entityOrders| => Infos(entityOrders[g]))
  }

  lemma FlattenStep(gs: seq<seq<EntityInfo>>, g: nat)
    requires g < |gs|
    ensures Flatten(gs[..g + 1]) == Flatten(gs[..g]) + gs[g]
  {
    assert gs[..g + 1][..g] == gs[..g];
  }

  lemma ComponentNamesSnoc(a: seq<EntityInfo>, b: seq<EntityInfo>, e: EntityInfo)
    ensures ComponentNames(a + (b + [e])) == ComponentNames(a + b)[e.componentId := e.componentName]
  {
    assert a + (b + [e]) == (a + b) + [e];
    assert ((a + b) + [e])[..|a + b|] == a + b;
  }

  /** findAllComponents of a manager: the graphs in list order, each graph's entities in the order given. */
  method FindAllManagedComponents(entityOrders: seq<seq<CallEntity>>) returns (components: map<string, string>)
    ensures components == ComponentNames(Flatten(InfosOfAll(entityOrders)))
  {
    ghost var all := InfosOfAll(entityOrders);
    components := map[];
    var g := 0;
    while g < |entityOrders|
      invariant 0 <= g <= |entityOrders|
      invariant components == ComponentNames(Flatten(all[..g]))
    {
      var entities := entityOrders[g];
      ghost var before := Flatten(all[..g]);
      assert before + [] == before;
      var i := 0;
      while i < |entities|
        invariant 0 <= i <= |entities|
        invariant components == ComponentNames(before + Infos(entities[..i]))
      {
        InfosStep(entities, i);
        ComponentNamesSnoc(before, Infos(entities[..i]), entities[i].Info());
        components := components[entities[i].componentId := entities[i].componentName];
        i := i + 1;
      }
      TakeAll(entities);
      FlattenStep(all, g);
      g := g + 1;
    }
    TakeAll(all);
  }

  /** CallGraphManagerToTxtBuilder: the components of all graphs of a manager, collected at construction. */
  class CallGraphManagerToTxtBuilder {
    const components: map<string, string>

    /** `entityOrders[g]` is the order in which graph g's entity map yields its values. */
    constructor (manager: CallGraphManager, entityOrders: seq<seq<CallEntity>>)
      requires |entityOrders| == |manager.callGraphs|
      requires forall g :: 0 <= g < |entityOrders| ==> Enumerates(entityOrders[g], manager.callGraphs[g].entities.Values)
      ensures components == ComponentNames(Flatten(InfosOfAll(entityOrders)))
    {
      var found := FindAllManagedComponents(entityOrders);
      components := found;
    }

    /** build: a header with the number of distinct components over all graphs, then one line per component. */
    method Build(keyOrder: seq<string>, sep: string) returns (text: string)
      requires Enumerates(keyOrder, components.Keys)
      ensures text == "TOTAL COMPONENTS: " + IntToString(|components|) + sep
        + Concat(ComponentLines(components, keyOrder, sep))
    {
      var builder := new StringBuilder();
      builder.Append("TOTAL COMPONENTS: " + IntToString(|components|) + sep);
      var _ := AppendComponents(builder, components, keyOrder, sep);
      text := builder.text;
    }
  }
}
