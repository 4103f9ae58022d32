/**
 * The call-graph store: CallGraph and CallGraphManager as classes whose methods update their
 * fields in place. A graph holds its entities and links as values (module CallGraphSpec), so
 * setEmpty and setCount are in-place updates of the graph's maps.
 */
module CallGraphData {
  import opened CallGraphSpec

  /** The call graph of one entry-level system call. */
  class CallGraph {
    const graphName: string
    const graphId: string
    const graphInterfaceName: string
    var entities: map<string, CallEntity>
    var links: map<string, Link>
    /** The start node; it is not one of `entities`. */
    const start: CallEntity

    /** The graph's contents as a value. */
    function Value(): GraphVal
      reads this
    {
      GraphVal(entities, links)
    }

    /** `sep` is the platform line separator the start label is built with. */
    constructor (graphName: string, graphId: string, graphInterfaceName: string, sep: string)
      ensures this.graphName == graphName && this.graphId == graphId && this.graphInterfaceName == graphInterfaceName
      ensures entities == map[] && links == map[]
      ensures start.Info() == StartInfo(graphName, graphInterfaceName, sep) && start.empty
    {
      this.graphName := graphName;
      this.graphId := graphId;
      this.graphInterfaceName := graphInterfaceName;
      entities := map[];
      links := map[];
      var startName;
      if graphInterfaceName == "" {
        startName := "Start:" + sep + graphName;
      } else {
        startName := "Start:" + sep + graphInterfaceName + sep + graphName;
      }
      start := CallEntity(startName, START_ID, "", START_ID, graphInterfaceName, START_ID, true);
    }

    /**
     * Find or create: the entity stored under the search id of the three ids, or a new empty
     * entity made of all six strings, stored under that id.
     */
    method GetEntity(componentName: string, componentId: string, methodName: string, methodId: string,
                     interfaceName: string, interfaceId: string) returns (e: CallEntity)
      modifies this
      ensures var info := EntityInfo(componentName, componentId, methodName, methodId, interfaceName, interfaceId);
        && Value() == GetEntityV(old(Value()), info)
        && e == entities[Key(info)]
    {
      var searchId := methodId + componentId + interfaceId;
      if searchId in entities {
        e := entities[searchId];
      } else {
        e := CallEntity(componentName, componentId, methodName, methodId, interfaceName, interfaceId, true);
        entities := entities[searchId := e];
      }
    }

    /** Records one call from `s` to `t`: a new link with count 1, or the existing one counted once more. */
    method AddLink(s: CallEntity, t: CallEntity)
      modifies this
      ensures Value() == AddLinkV(old(Value()), s.Info(), t.Info())
    {
      var startId := s.methodId + s.componentId + s.interfaceId;
      var endId := t.methodId + t.componentId + t.interfaceId;
      var linkId := startId + endId;
      if linkId in links {
        var existingLink := links[linkId];
        links := links[linkId := existingLink.SetCount(existingLink.count + 1)];
      } else {
        links := links[linkId := Link(s.Info(), t.Info(), 1)];
      }
    }

    /** setEmpty on the entity this graph holds under `key`. */
    method SetEntityEmpty(key: string, flag: bool)
      requires key in entities
      modifies this
      ensures Value() == SetEmptyV(old(Value()), key, flag)
    {
      entities := entities[key := entities[key].SetEmpty(flag)];
    }
  }

  /** Holds every call graph generated so far, in order of generation. */
  class CallGraphManager {
    var callGraphs: seq<CallGraph>

    constructor ()
      ensures callGraphs == []
    {
      callGraphs := [];
    }

    /** Appends one new, empty graph and returns it; the graphs before it stay where they are. */
    method GenerateNewCallGraph(graphName: string, graphId: string, graphInterfaceName: string, sep: string)
      returns (g: CallGraph)
      modifies this
      ensures callGraphs == old(callGraphs) + [g]
      ensures fresh(g)
      ensures g.graphName == graphName && g.graphId == graphId && g.graphInterfaceName == graphInterfaceName
      ensures g.entities == map[] && g.links == map[]
      ensures g.start.Info() == StartInfo(graphName, graphInterfaceName, sep) && g.start.empty
    {
      g := new CallGraph(graphName, graphId, graphInterfaceName, sep);
      callGraphs := callGraphs + [g];
    }
  }
}
