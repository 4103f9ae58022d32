/**
 * The call-graph store as values: entities, links and the graph's contents, with the keys they
 * are stored under and the three updates getEntity, addLink and setEmpty. The CallGraph class of
 * module CallGraphData is specified with the functions here; the lemmas say what the counting
 * means over many calls.
 */
module CallGraphSpec {

  /** The six identifying strings of a CallEntity; none of them changes after construction. */
  datatype EntityInfo = EntityInfo(
    componentName: string, componentId: string,
    methodName: string, methodId: string,
    interfaceName: string, interfaceId: string)

  /** The search id CallGraph.getEntity looks an entity up by: the three ids, concatenated without separator. */
  function SearchKey(methodId: string, componentId: string, interfaceId: string): string
  {
    methodId + componentId + interfaceId
  }

  /** The key under which a graph stores an entity. */
  function Key(e: EntityInfo): string
  {
    SearchKey(e.methodId, e.componentId, e.interfaceId)
  }

  /** The key under which a graph stores the link between two entities. */
  function LinkKey(s: EntityInfo, t: EntityInfo): string
  {
    Key(s) + Key(t)
  }

  /** Two entities that differ in their ids may still share a key, because the ids are concatenated unseparated. */
  lemma KeysCanCollide()
    ensures var a := EntityInfo("A", "bc", "m", "a", "I", "");
            var b := EntityInfo("B", "c", "n", "ab", "J", "");
            a.componentId != b.componentId && a.methodId != b.methodId && Key(a) == Key(b)
  {
    var a := EntityInfo("A", "bc", "m", "a", "I", "");
    var b := EntityInfo("B", "c", "n", "ab", "J", "");
    assert Key(a) == "abc" == Key(b);
  }

  /**
   * A CallEntity as a graph holds it: the six strings of its method and the `empty` flag, which
   * is true at creation and later set by the visitor that walks the entity's SEFF.
   */
  datatype CallEntity = CallEntity(
    componentName: string, componentId: string,
    methodName: string, methodId: string,
    interfaceName: string, interfaceId: string,
    empty: bool)
  {
    function Info(): EntityInfo
    {
      EntityInfo(componentName, componentId, methodName, methodId, interfaceName, interfaceId)
    }

    function Key(): string
    {
      SearchKey(methodId, componentId, interfaceId)
    }

    /** setEmpty: overwrites the flag, so the last value set is the one isEmpty returns. */
    function SetEmpty(flag: bool): (r: CallEntity)
      ensures r.Info() == Info() && r.empty == flag
    {
      this.(empty := flag)
    }
  }

  /** The CallEntity constructor: the six strings, and the flag true. */
  function NewEntity(info: EntityInfo): (e: CallEntity)
    ensures e.Info() == info && e.empty && e.Key() == Key(info)
  {
    CallEntity(info.componentName, info.componentId, info.methodName, info.methodId, info.interfaceName, info.interfaceId, true)
  }

  /** A Link: the identifying strings of its two endpoints and the number of calls seen. */
  datatype Link = Link(startEntity: EntityInfo, targetEntity: EntityInfo, count: int)
  {
    function Key(): string
    {
      LinkKey(startEntity, targetEntity)
    }

    /** setCount: overwrites the count; the endpoints stay as they are. */
    function SetCount(n: int): (r: Link)
      ensures r.startEntity == startEntity && r.targetEntity == targetEntity && r.count == n
    {
      this.(count := n)
    }
  }

  /** The contents of a CallGraph: entities by search id, links by link id. */
  datatype GraphVal = GraphVal(entities: map<string, CallEntity>, links: map<string, Link>)

  /** Every entity and link under its own key, and every link recorded at least once. */
  predicate WellFormed(g: GraphVal)
  {
    && (forall k :: k in g.entities ==> g.entities[k].Key() == k)
    && (forall k :: k in g.links ==> g.links[k].Key() == k && g.links[k].count >= 1)
  }

  /**
   * getEntity on the contents: the entity under the search id of the three ids if there is one,
   * otherwise the graph with a new entity, flagged empty, under that id.
   */
  function GetEntityV(g: GraphVal, info: EntityInfo): (r: GraphVal)
    ensures Key(info) in r.entities && r.links == g.links
    ensures Key(info) in g.entities ==> r == g
    ensures Key(info) !in g.entities ==> r.entities == g.entities[Key(info) := NewEntity(info)]
  {
    if Key(info) in g.entities then g
    else GraphVal(g.entities[Key(info) := NewEntity(info)], g.links)
  }

  /**
   * The entity getEntity returns, by its strings: the one already stored under the search id of
   * `info`, which may differ from `info` in its names or, ids being concatenated, in its ids;
   * otherwise `info` itself.
   */
  function FoundEntity(g: GraphVal, info: EntityInfo): (r: EntityInfo)
    ensures GetEntityV(g, info).entities[Key(info)].Info() == r
    ensures WellFormed(g) ==> Key(r) == Key(info)
  {
    if Key(info) in g.entities then g.entities[Key(info)].Info() else info
  }

  /** addLink on the contents: a new link with count 1, or the existing one counted once more. */
  function AddLinkV(g: GraphVal, s: EntityInfo, t: EntityInfo): GraphVal
  {
    var k := LinkKey(s, t);
    if k in g.links then GraphVal(g.entities, g.links[k := g.links[k].SetCount(g.links[k].count + 1)])
    else GraphVal(g.entities, g.links[k := Link(s, t, 1)])
  }

  /** setEmpty on the entity stored under `key`; a graph without that key has no such entity to change. */
  function SetEmptyV(g: GraphVal, key: string, flag: bool): (r: GraphVal)
    ensures r.links == g.links && r.entities.Keys == g.entities.Keys
    ensures key in g.entities ==> r.entities == g.entities[key := g.entities[key].SetEmpty(flag)]
  {
    if key in g.entities then GraphVal(g.entities[key := g.entities[key].SetEmpty(flag)], g.links) else g
  }

  /** The number of calls recorded under link key `k`: zero when there is no link. */
  function LinkCount(g: GraphVal, k: string): int
  {
    if k in g.links then g.links[k].count else 0
  }

  /** The counts of all links, by link key. */
  function Counts(g: GraphVal): map<string, int>
  {
    map k | k in g.links :: g.links[k].count
  }

  /** The three updates keep the contents well formed. */
  lemma GetEntityWellFormed(g: GraphVal, info: EntityInfo)
    requires WellFormed(g)
    ensures WellFormed(GetEntityV(g, info))
  {
  }

  lemma AddLinkWellFormed(g: GraphVal, s: EntityInfo, t: EntityInfo)
    requires WellFormed(g)
    ensures WellFormed(AddLinkV(g, s, t))
  {
  }

  lemma SetEmptyWellFormed(g: GraphVal, key: string, flag: bool)
    requires WellFormed(g)
    ensures WellFormed(SetEmptyV(g, key, flag))
  {
  }

  /**
   * addLink counts: the link of the pair gains one call, every other link keeps its count, and
   * the counts are those Bump records; the entities are untouched.
   */
  lemma AddLinkCounts(g: GraphVal, s: EntityInfo, t: EntityInfo)
    ensures var r := AddLinkV(g, s, t);
      && r.entities == g.entities
      && LinkCount(r, LinkKey(s, t)) == LinkCount(g, LinkKey(s, t)) + 1
      && (forall k :: k != LinkKey(s, t) ==> LinkCount(r, k) == LinkCount(g, k))
      && Counts(r) == Bump(Counts(g), LinkKey(s, t))
  {
    var r := AddLinkV(g, s, t);
    var k := LinkKey(s, t);
    assert Counts(r).Keys == Bump(Counts(g), k).Keys;
    forall j | j in Counts(r)
      ensures Counts(r)[j] == Bump(Counts(g), k)[j]
    {
      assert CountOf(Counts(r), j) == LinkCount(r, j);
    }
  }

  /** The graph only grows: no entity disappears or changes its strings, and no count decreases. */
  predicate GraphGrows(g: GraphVal, g': GraphVal)
  {
    && (forall k :: k in g.entities ==> k in g'.entities && g'.entities[k].Info() == g.entities[k].Info())
    && (forall k :: k in g.links ==> k in g'.links && g'.links[k].count >= g.links[k].count)
  }

  lemma GraphGrowsTrans(g1: GraphVal, g2: GraphVal, g3: GraphVal)
    requires GraphGrows(g1, g2) && GraphGrows(g2, g3)
    ensures GraphGrows(g1, g3)
  {
  }

  /** None of the three updates takes anything away. */
  lemma GetEntityGrows(g: GraphVal, info: EntityInfo)
    ensures GraphGrows(g, GetEntityV(g, info))
  {
  }

  lemma AddLinkGrows(g: GraphVal, s: EntityInfo, t: EntityInfo)
    ensures GraphGrows(g, AddLinkV(g, s, t))
    ensures AddLinkV(g, s, t).entities == g.entities
  {
  }

  lemma SetEmptyGrows(g: GraphVal, key: string, flag: bool)
    ensures GraphGrows(g, SetEmptyV(g, key, flag))
  {
  }

  /** A link created by addLink holds the two entities it was recorded between. */
  lemma AddLinkEndpoints(g: GraphVal, s: EntityInfo, t: EntityInfo)
    requires WellFormed(g)
    ensures var l := AddLinkV(g, s, t).links[LinkKey(s, t)];
      LinkKey(l.startEntity, l.targetEntity) == LinkKey(s, t)
    ensures LinkKey(s, t) !in g.links ==> AddLinkV(g, s, t).links[LinkKey(s, t)] == Link(s, t, 1)
  {
  }

  const START_ID := "start"

  /** The label of the start node: the interface name is shown only when there is one. */
  function StartName(graphName: string, interfaceName: string, sep: string): string
  {
    if interfaceName == "" then "Start:" + sep + graphName
    else "Start:" + sep + interfaceName + sep + graphName
  }

  /** The start entity of a graph: all three ids are "start" and the method name is empty. */
  function StartInfo(graphName: string, interfaceName: string, sep: string): (e: EntityInfo)
    ensures Key(e) == "startstartstart"
    ensures e.componentId == START_ID && e.methodId == START_ID && e.interfaceId == START_ID
    ensures e.methodName == "" && e.interfaceName == interfaceName
    ensures interfaceName == "" ==> e.componentName == "Start:" + sep + graphName
    ensures interfaceName != "" ==> e.componentName == "Start:" + sep + interfaceName + sep + graphName
  {
    EntityInfo(StartName(graphName, interfaceName, sep), START_ID, "", START_ID, interfaceName, START_ID)
  }

  /** The number of calls recorded under `k`: zero when there is no link. */
  function CountOf(counts: map<string, int>, k: string): int
  {
    if k in counts then counts[k] else 0
  }

  /**
   * One more call recorded under `k`: a link seen for the first time is counted once, an
   * existing one once more.
   */
  function Bump(counts: map<string, int>, k: string): (r: map<string, int>)
    ensures r.Keys == counts.Keys + {k}
    ensures CountOf(r, k) == CountOf(counts, k) + 1
    ensures forall j :: j != k ==> CountOf(r, j) == CountOf(counts, j)
  {
    if k in counts then counts[k := counts[k] + 1] else counts[k := 1]
  }

  /** The calls of `ks`, recorded in order. */
  function BumpAll(counts: map<string, int>, ks: seq<string>): map<string, int>
  {
    if ks == [] then counts else Bump(BumpAll(counts, ks[..|ks| - 1]), ks[|ks| - 1])
  }

  /** Exactly the keys called at least once are added. */
  lemma {:induction false} BumpAllKeys(counts: map<string, int>, ks: seq<string>)
    ensures BumpAll(counts, ks).Keys == counts.Keys + set k | k in ks
  {
    if ks != [] {
      var prefix, last := ks[..|ks| - 1], ks[|ks| - 1];
      BumpAllKeys(counts, prefix);
      assert ks == prefix + [last];
      assert (set k | k in ks) == (set k | k in prefix) + {last};
    }
  }

  /** A count after many calls is the count before plus the number of calls under that key. */
  lemma {:induction false} BumpAllCounts(counts: map<string, int>, ks: seq<string>, k: string)
    ensures CountOf(BumpAll(counts, ks), k) == CountOf(counts, k) + multiset(ks)[k]
  {
    if ks != [] {
      var prefix, last := ks[..|ks| - 1], ks[|ks| - 1];
      BumpAllCounts(counts, prefix, k);
      assert ks == prefix + [last];
      assert multiset(ks)[k] == multiset(prefix)[k] + if last == k then 1 else 0;
    }
  }

  /** Counts recorded one call at a time only grow, starting from 1. */
  lemma {:induction false} BumpAllPositive(counts: map<string, int>, ks: seq<string>)
    requires forall k :: k in counts ==> counts[k] >= 1
    ensures forall k :: k in BumpAll(counts, ks) ==> BumpAll(counts, ks)[k] >= 1
  {
    if ks != [] {
      BumpAllPositive(counts, ks[..|ks| - 1]);
    }
  }

  /** Recording the same pair twice on a graph without that link yields count 2. */
  lemma AddLinkTwice(counts: map<string, int>, k: string)
    requires k !in counts
    ensures CountOf(Bump(Bump(counts, k), k), k) == 2
  {
  }
}
