/**
 * CallGraphOverview: one graph that chains the entry points of all managed graphs, in the
 * order the manager generated them.
 */
module Overview {
  import opened CallGraphSpec
  import opened CallGraphData
  import opened Collections

  const OVERVIEW_ID := "overviewid"
  const OVERVIEW_NAME := "External Calls"
  const OVERVIEW_INTERFACE_NAME := ""

  /** The graph ids of `gs`, in order. */
  function Ids(gs: seq<CallGraph>): (ids: seq<string>)
    ensures |ids| == |gs|
    ensures forall i :: 0 <= i < |gs| ==> ids[i] == gs[i].graphId
  {
    if gs == [] then [] else Ids(gs[..|gs| - 1]) + [gs[|gs| - 1].graphId]
  }

  /**
   * The link keys of the chain start -> g1 -> ... -> gn. Every overview entity is keyed by its
   * graph id alone, because its method and interface ids are empty.
   */
  function ChainKeys(ids: seq<string>): (ks: seq<string>)
    ensures |ks| == |ids|
    ensures forall i {:trigger ks[i]} :: 0 <= i < |ids| ==> ks[i] == (if i == 0 then "startstartstart" else ids[i - 1]) + ids[i]
  {
    seq(|ids|, i requires 0 <= i < |ids| => (if i == 0 then "startstartstart" else ids[i - 1]) + ids[i])
  }

  lemma {:induction false} DistinctCardinality(s: seq<string>)
    requires Distinct(s)
    ensures |Elements(s)| == |s|
  {
    if s != [] {
      var prefix, last := s[..|s| - 1], s[|s| - 1];
      DistinctCardinality(prefix);
      assert Elements(s) == Elements(prefix) + {last};
      assert last !in Elements(prefix);
    }
  }

  lemma {:induction false} DistinctOccursOnce(s: seq<string>, k: string)
    requires Distinct(s) && k in s
    ensures multiset(s)[k] == 1
  {
    var prefix, last := s[..|s| - 1], s[|s| - 1];
    assert s == prefix + [last];
    if k == last {
      assert k !in prefix;
    } else {
      DistinctOccursOnce(prefix, k);
    }
  }

  /**
   * With distinct graph ids and distinct chain keys, the overview of n graphs has n entities
   * and n links, each counted once.
   */
  lemma OverviewSize(ids: seq<string>)
    requires Distinct(ids) && Distinct(ChainKeys(ids))
    ensures |Elements(ids)| == |ids|
    ensures |BumpAll(map[], ChainKeys(ids))| == |ids|
    ensures forall k :: k in BumpAll(map[], ChainKeys(ids)) ==> BumpAll(map[], ChainKeys(ids))[k] == 1
  {
    var ks := ChainKeys(ids);
    DistinctCardinality(ids);
    DistinctCardinality(ks);
    BumpAllKeys(map[], ks);
    forall k | k in BumpAll(map[], ks)
      ensures BumpAll(map[], ks)[k] == 1
    {
      BumpAllCounts(map[], ks, k);
      DistinctOccursOnce(ks, k);
    }
  }

  /** The keys of a one-longer prefix. */
  lemma PrefixSetStep(s: seq<string>, i: nat)
    requires i < |s|
    ensures Elements(s[..i + 1]) == Elements(s[..i]) + {s[i]}
  {
    assert s[..i + 1] == s[..i] + [s[i]];
  }

  /** The counts of a one-longer prefix. */
  lemma BumpAllPrefixStep(s: seq<string>, i: nat)
    requires i < |s|
    ensures BumpAll(map[], s[..i + 1]) == Bump(BumpAll(map[], s[..i]), s[i])
  {
    assert s[..i + 1][..i] == s[..i];
  }

  /** An overview entity has empty method and interface ids, so its key is the graph id. */
  lemma OverviewEntityKey(graphId: string)
    ensures SearchKey("", graphId, "") == graphId
  {
  }

  /** The overview built for the first i graphs, as the loop of generateOverviewGraph keeps it. */
  ghost predicate OverviewPrefix(g: GraphVal, prev: EntityInfo, ids: seq<string>, i: nat)
    requires i <= |ids|
  {
    && WellFormed(g)
    && Key(prev) == (if i == 0 then "startstartstart" else ids[i - 1])
    && g.entities.Keys == Elements(ids[..i])
    && Counts(g) == BumpAll(map[], ChainKeys(ids)[..i])
  }

  /** One step of generateOverviewGraph: find or create graph i's entity and link the previous one to it. */
  lemma OverviewStep(g0: GraphVal, prev: EntityInfo, info: EntityInfo, ids: seq<string>, i: nat)
    requires i < |ids| && OverviewPrefix(g0, prev, ids, i)
    requires info.componentId == ids[i] && info.methodId == "" && info.interfaceId == ""
    ensures var g1 := GetEntityV(g0, info);
            var cur := g1.entities[Key(info)].Info();
            OverviewPrefix(AddLinkV(g1, prev, cur), cur, ids, i + 1)
  {
    var keys := ChainKeys(ids);
    OverviewEntityKey(ids[i]);
    GetEntityWellFormed(g0, info);
    var g1 := GetEntityV(g0, info);
    var cur := g1.entities[Key(info)].Info();
    assert Key(cur) == ids[i];
    assert g1.entities.Keys == g0.entities.Keys + {ids[i]} && g1.links == g0.links;
    AddLinkWellFormed(g1, prev, cur);
    AddLinkCounts(g1, prev, cur);
    assert LinkKey(prev, cur) == keys[i];
    PrefixSetStep(ids, i);
    BumpAllPrefixStep(keys, i);
  }

  class CallGraphOverview {
    const callGraphs: seq<CallGraph>
    const overviewGraph: CallGraph

    /** Builds the overview of the manager's graphs; `sep` is the platform line separator. */
    constructor (manager: CallGraphManager, sep: string)
      ensures callGraphs == manager.callGraphs
      ensures fresh(overviewGraph) && WellFormed(overviewGraph.Value())
      ensures overviewGraph.graphName == OVERVIEW_NAME && overviewGraph.graphId == OVERVIEW_ID
      ensures overviewGraph.graphInterfaceName == OVERVIEW_INTERFACE_NAME
      ensures overviewGraph.entities.Keys == Elements(Ids(callGraphs))
      ensures Counts(overviewGraph.Value()) == BumpAll(map[], ChainKeys(Ids(callGraphs)))
    {
      callGraphs := manager.callGraphs;
      overviewGraph := new CallGraph(OVERVIEW_NAME, OVERVIEW_ID, OVERVIEW_INTERFACE_NAME, sep);
      new;
      GenerateOverviewGraph();
    }

    /**
     * generateOverviewGraph: one find-or-create and one link per graph, in list order, each
     * linking the previous entity (first the start entity) to the current one.
     */
    method GenerateOverviewGraph()
      requires overviewGraph.entities == map[] && overviewGraph.links == map[]
      requires overviewGraph.start.Key() == "startstartstart"
      modifies overviewGraph
      ensures WellFormed(overviewGraph.Value())
      ensures overviewGraph.entities.Keys == Elements(Ids(callGraphs))
      ensures Counts(overviewGraph.Value()) == BumpAll(map[], ChainKeys(Ids(callGraphs)))
    {
      ghost var ids := Ids(callGraphs);
      var previousEntity := overviewGraph.start;
      for i := 0 to |callGraphs|
        invariant OverviewPrefix(overviewGraph.Value(), previousEntity.Info(), ids, i)
      {
        var graph := callGraphs[i];
        ghost var info := EntityInfo(graph.graphName, graph.graphId, "", "", graph.graphInterfaceName, "");
        OverviewStep(overviewGraph.Value(), previousEntity.Info(), info, ids, i);
        var currentEntity := overviewGraph.GetEntity(graph.graphName, graph.graphId, "", "", graph.graphInterfaceName, "");
        overviewGraph.AddLink(previousEntity, currentEntity);
        previousEntity := currentEntity;
      }
      TakeAll(ChainKeys(ids));
      TakeAll(ids);
    }
  }
}
