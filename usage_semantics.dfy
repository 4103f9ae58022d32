/**
 * What a UsageModelVisitor does, as functions on values: the walk of a usage scenario along
 * its actions' successor references. Every entry level system call adds one call graph to the
 * manager, records one call from that graph's start entity per replica of the called
 * component, and walks the replica's SEFF with the SEFF visitor's semantics. Module
 * UsageVisiting proves the imperative visitor against these functions.
 */
module UsageSemantics {
  import opened Wrappers
  import opened Collections
  import opened Pcm
  import opened CallGraphSpec
  import Sem = SeffSemantics

  // ---------------------------------------------------------------------------------------
  // The usage model

  /** What an entry level system call names: the operation signature and the provided role's interface. */
  datatype EntryCall = EntryCall(signatureName: string, signatureId: string, interfaceName: string, interfaceId: string)

  /**
   * The usage model actions. Successors are action ids within the same scenario behaviour;
   * a missing one is None (a null reference).
   */
  datatype UsageAction =
    | Start(id: string, successor: Option<string>)
    | Stop(id: string)
    | Delay(id: string, successor: Option<string>)
    | Branch(id: string, transitions: seq<ScenarioBehaviour>, successor: Option<string>)
    | Loop(id: string, body: ScenarioBehaviour, successor: Option<string>)
    | EntryLevelSystemCall(id: string, call: EntryCall, successor: Option<string>)

  /** A ScenarioBehaviour: its actions, in model order. */
  datatype ScenarioBehaviour = ScenarioBehaviour(actions: seq<UsageAction>)

  /** One context wrapper of a system call: its context, and the SEFF getNextSEFF answers in it (null when none matches). */
  datatype Replica = Replica(context: Sem.Context, seff: Option<Seff>)

  /**
   * The model queries the walk depends on: the wrappers getContextWrapperFor creates for a
   * system call (by its id; it may throw), what SEFF visits depend on, and the configured
   * separator of the start entity's name.
   */
  datatype UsageEnv = UsageEnv(replicas: string -> Result<seq<Replica>>, seffEnv: Sem.Env, sep: string)

  /** One call graph of the manager: its names, its start entity, its entities and links. */
  datatype GraphRecord = GraphRecord(graphName: string, graphId: string, graphInterfaceName: string,
                                     start: EntityInfo, contents: GraphVal)

  /** The state the walk threads: the manager's graphs, in generation order, and the recorded demands. */
  datatype UsageWorld = UsageWorld(graphs: seq<GraphRecord>, demands: map<Sem.CacKey, seq<ResourceDemand>>)

  /** The state after a walk, and the exception that ended it. */
  datatype UsageOutcome = UsageOutcome(world: UsageWorld, error: Option<Failure>)

  /** The state after the replicas of one system call: the graph's contents with the demands, and the exception that ended them. */
  datatype Visited = Visited(world: Sem.World, error: Option<Failure>)

  // ---------------------------------------------------------------------------------------
  // Lookups

  /** The action a reference denotes: the action of the behaviour with that id. */
  function Find(b: ScenarioBehaviour, id: string): (r: Option<UsageAction>)
    ensures r.Some? ==> r.value in b.actions && r.value.id == id
  {
    match FirstWhere(b.actions, (a: UsageAction) => a.id == id)
    case None => None
    case Some(k) => Some(b.actions[k])
  }

  /** getStartAction: the id of the first Start among the actions, or null. */
  function StartOf(b: ScenarioBehaviour): (r: Option<string>)
    ensures r.Some? ==> exists a :: a in b.actions && a.Start? && a.id == r.value
    ensures r.None? ==> forall a :: a in b.actions ==> !a.Start?
  {
    match FirstWhere(b.actions, (a: UsageAction) => a.Start?)
    case None => None
    case Some(k) => Some(b.actions[k].id)
  }

  /** generateNewCallGraph for a system call: named by its signature and interface, with only a start entity. */
  function NewGraph(call: EntryCall, sep: string): (r: GraphRecord)
    ensures r.graphName == call.signatureName && r.graphId == call.signatureId && r.graphInterfaceName == call.interfaceName
    ensures r.start == StartInfo(call.signatureName, call.interfaceName, sep)
    ensures r.contents.entities == map[] && r.contents.links == map[]
  {
    GraphRecord(call.signatureName, call.signatureId, call.interfaceName,
                StartInfo(call.signatureName, call.interfaceName, sep), GraphVal(map[], map[]))
  }

  /** The entity a system call targets in a replica: the SEFF's component with the call's signature and interface. */
  function EntryTarget(seff: Seff, call: EntryCall): (r: EntityInfo)
    ensures Key(r) == SearchKey(call.signatureId, seff.componentId, call.interfaceId)
  {
    EntityInfo(seff.componentName, seff.componentId, call.signatureName, call.signatureId, call.interfaceName, call.interfaceId)
  }

  // ---------------------------------------------------------------------------------------
  // The walk. `fuel` bounds the depth of nested doSwitch calls (the Java call stack).

  /** doSwitch on an action reference of behaviour `b`: a null reference fails, like dereferencing it. */
  function DoSwitch(fuel: nat, env: UsageEnv, b: ScenarioBehaviour, ref: Option<string>, w: UsageWorld): UsageOutcome
    decreases fuel, 0
  {
    if fuel == 0 then UsageOutcome(w, Some(RecursionLimit))
    else if ref.None? then UsageOutcome(w, Some(NullPointer("doSwitch(null)")))
    else match Find(b, ref.value)
      case None => UsageOutcome(w, Some(NullPointer("doSwitch(null)")))
      case Some(a) => VisitAction(fuel - 1, env, b, a, w)
  }

  /** caseScenarioBehaviour: doSwitch on the behaviour's start action. */
  function DoSwitchBehaviour(fuel: nat, env: UsageEnv, b: ScenarioBehaviour, w: UsageWorld): UsageOutcome
    decreases fuel, 1
  {
    DoSwitch(fuel, env, b, StartOf(b), w)
  }

  /** Going on with the successor unless the preceding sub-visit threw. */
  function Then(fuel: nat, env: UsageEnv, b: ScenarioBehaviour, succ: Option<string>, o: UsageOutcome): UsageOutcome
    decreases fuel, 1
  {
    if o.error.Some? then o else DoSwitch(fuel, env, b, succ, o.world)
  }

  /** The branch's loop: each transition's behaviour in order, until one throws. */
  function VisitBehaviours(fuel: nat, env: UsageEnv, bs: seq<ScenarioBehaviour>, w: UsageWorld): UsageOutcome
    decreases fuel, 2, |bs|
  {
    if bs == [] then UsageOutcome(w, None)
    else
      var o := DoSwitchBehaviour(fuel, env, bs[0], w);
      if o.error.Some? then o else VisitBehaviours(fuel, env, bs[1..], o.world)
  }

  /** The case* methods: one visit of action `a`, an action of `b`. */
  function VisitAction(fuel: nat, env: UsageEnv, b: ScenarioBehaviour, a: UsageAction, w: UsageWorld): UsageOutcome
    decreases fuel, 3
  {
    match a
    case Start(_, succ) => DoSwitch(fuel, env, b, succ, w)
    case Stop(_) => UsageOutcome(w, None)
    case Delay(_, succ) => DoSwitch(fuel, env, b, succ, w)
    case Branch(_, bs, succ) => Then(fuel, env, b, succ, VisitBehaviours(fuel, env, bs, w))
    case Loop(_, body, succ) => Then(fuel, env, b, succ, DoSwitchBehaviour(fuel, env, body, w))
    case EntryLevelSystemCall(id, call, succ) => Then(fuel, env, b, succ, EntryCallStep(fuel, env, id, call, w))
  }

  /**
   * caseEntryLevelSystemCall up to its successor: a new graph is generated first, then the
   * wrappers are created; the replicas work on the new graph, which stays in the manager
   * whatever they throw.
   */
  function EntryCallStep(fuel: nat, env: UsageEnv, id: string, call: EntryCall, w: UsageWorld): UsageOutcome
  {
    var g := NewGraph(call, env.sep);
    match env.replicas(id)
    case Fail(e) => UsageOutcome(UsageWorld(w.graphs + [g], w.demands), Some(e))
    case Success(rs) =>
      var v := VisitEntryReplicas(fuel, env, g.start, call, rs, Sem.World(g.contents, w.demands));
      UsageOutcome(UsageWorld(w.graphs + [g.(contents := v.world.graph)], v.world.demands), v.error)
  }

  /** The loop over the context wrappers: each one's step, until one throws. */
  function VisitEntryReplicas(fuel: nat, env: UsageEnv, start: EntityInfo, call: EntryCall, rs: seq<Replica>, w: Sem.World): Visited
    decreases |rs|
  {
    if rs == [] then Visited(w, None)
    else
      var v := EntryReplicaStep(fuel, env, start, call, rs[0], w);
      if v.error.Some? then v else VisitEntryReplicas(fuel, env, start, call, rs[1..], v.world)
  }

  /**
   * One context wrapper: its SEFF (a null one is dereferenced), one call from the start entity
   * to the SEFF's entity, and a fresh SEFF visitor of that entity, whose start action is null.
   */
  function EntryReplicaStep(fuel: nat, env: UsageEnv, start: EntityInfo, call: EntryCall, r: Replica, w: Sem.World): Visited
  {
    if r.seff.None? then Visited(w, Some(NullPointer("seff")))
    else
      var target := EntryTarget(r.seff.value, call);
      var o := Sem.DoSwitchBehaviour(fuel, env.seffEnv, r.context, FoundEntity(w.graph, target), r.seff.value.behaviour,
                                     Sem.Linked(w, start, target), None);
      Visited(o.world, o.error)
  }

  // ---------------------------------------------------------------------------------------
  // Properties of the walk

  /**
   * A visit never changes or drops a graph generated before it: the manager's list only grows
   * at its end, and only the graph of the system call being visited is written to.
   */
  lemma {:induction false} DoSwitchKeepsGraphs(fuel: nat, env: UsageEnv, b: ScenarioBehaviour, ref: Option<string>, w: UsageWorld)
    ensures w.graphs <= DoSwitch(fuel, env, b, ref, w).world.graphs
    decreases fuel, 0
  {
    if fuel > 0 && ref.Some? {
      match Find(b, ref.value)
      case None =>
      case Some(a) => VisitActionKeepsGraphs(fuel - 1, env, b, a, w);
    }
  }

  lemma {:induction false} DoSwitchBehaviourKeepsGraphs(fuel: nat, env: UsageEnv, b: ScenarioBehaviour, w: UsageWorld)
    ensures w.graphs <= DoSwitchBehaviour(fuel, env, b, w).world.graphs
    decreases fuel, 1
  {
    DoSwitchKeepsGraphs(fuel, env, b, StartOf(b), w);
  }

  lemma {:induction false} ThenKeepsGraphs(fuel: nat, env: UsageEnv, b: ScenarioBehaviour, succ: Option<string>, w: UsageWorld, o: UsageOutcome)
    requires w.graphs <= o.world.graphs
    ensures w.graphs <= Then(fuel, env, b, succ, o).world.graphs
    decreases fuel, 1
  {
    if o.error.None? {
      DoSwitchKeepsGraphs(fuel, env, b, succ, o.world);
    }
  }

  lemma {:induction false} VisitBehavioursKeepGraphs(fuel: nat, env: UsageEnv, bs: seq<ScenarioBehaviour>, w: UsageWorld)
    ensures w.graphs <= VisitBehaviours(fuel, env, bs, w).world.graphs
    decreases fuel, 2, |bs|
  {
    if bs != [] {
      var o := DoSwitchBehaviour(fuel, env, bs[0], w);
      DoSwitchBehaviourKeepsGraphs(fuel, env, bs[0], w);
      if o.error.None? {
        VisitBehavioursKeepGraphs(fuel, env, bs[1..], o.world);
      }
    }
  }

  lemma {:induction false} VisitActionKeepsGraphs(fuel: nat, env: UsageEnv, b: ScenarioBehaviour, a: UsageAction, w: UsageWorld)
    ensures w.graphs <= VisitAction(fuel, env, b, a, w).world.graphs
    decreases fuel, 3
  {
    match a
    case Start(_, succ) => DoSwitchKeepsGraphs(fuel, env, b, succ, w);
    case Stop(_) =>
    case Delay(_, succ) => DoSwitchKeepsGraphs(fuel, env, b, succ, w);
    case Branch(_, bs, succ) =>
      VisitBehavioursKeepGraphs(fuel, env, bs, w);
      ThenKeepsGraphs(fuel, env, b, succ, w, VisitBehaviours(fuel, env, bs, w));
    case Loop(_, body, succ) =>
      DoSwitchBehaviourKeepsGraphs(fuel, env, body, w);
      ThenKeepsGraphs(fuel, env, b, succ, w, DoSwitchBehaviour(fuel, env, body, w));
    case EntryLevelSystemCall(id, call, succ) =>
      EntryCallAddsOneGraph(fuel, env, id, call, w);
      ThenKeepsGraphs(fuel, env, b, succ, w, EntryCallStep(fuel, env, id, call, w));
  }

  /**
   * A system call generates exactly one call graph, at the end of the manager's list, named by
   * the call's signature and interface and started by their start entity, whether or not its
   * wrappers can be created.
   */
  lemma EntryCallAddsOneGraph(fuel: nat, env: UsageEnv, id: string, call: EntryCall, w: UsageWorld)
    ensures var o := EntryCallStep(fuel, env, id, call, w);
      && |o.world.graphs| == |w.graphs| + 1
      && w.graphs <= o.world.graphs
      && var g := o.world.graphs[|w.graphs|];
         && g.graphName == call.signatureName && g.graphId == call.signatureId && g.graphInterfaceName == call.interfaceName
         && g.start == StartInfo(call.signatureName, call.interfaceName, env.sep)
  {
  }

  /**
   * Replicas of one component: each records one call from the start entity to the component's
   * entity before its SEFF is walked, and the walks only add to counts, so a system call with
   * k such replicas leaves a start link counted at least k more times.
   */
  lemma {:induction false} ReplicasRecordCalls(fuel: nat, env: UsageEnv, start: EntityInfo, call: EntryCall, componentId: string,
                                               rs: seq<Replica>, w: Sem.World)
    requires WellFormed(w.graph)
    requires forall i :: 0 <= i < |rs| ==> rs[i].seff.Some? && rs[i].seff.value.componentId == componentId
    ensures var v := VisitEntryReplicas(fuel, env, start, call, rs, w);
      var k := Key(start) + SearchKey(call.signatureId, componentId, call.interfaceId);
      v.error.None? ==> LinkCount(v.world.graph, k) >= LinkCount(w.graph, k) + |rs|
    decreases |rs|
  {
    var k := Key(start) + SearchKey(call.signatureId, componentId, call.interfaceId);
    if rs != [] {
      var seff := rs[0].seff.value;
      var target := EntryTarget(seff, call);
      var owner := FoundEntity(w.graph, target);
      var g1 := GetEntityV(w.graph, target);
      var w1 := Sem.Linked(w, start, target);
      assert LinkKey(start, owner) == k;
      AddLinkCounts(g1, start, owner);
      GetEntityWellFormed(w.graph, target);
      AddLinkWellFormed(g1, start, owner);
      assert k in w1.graph.links;
      Sem.DoSwitchGrows(fuel, env.seffEnv, rs[0].context, owner, seff.behaviour, Sem.StartOf(seff.behaviour), w1, None);
      var o := EntryReplicaStep(fuel, env, start, call, rs[0], w);
      assert LinkCount(o.world.graph, k) >= LinkCount(w1.graph, k);
      if o.error.None? {
        assert forall i :: 0 <= i < |rs[1..]| ==> rs[1..][i] == rs[i + 1];
        ReplicasRecordCalls(fuel, env, start, call, componentId, rs[1..], o.world);
      }
    }
  }

  /** The loop's body is visited exactly once: a loop is walked like a branch with its body as the only transition. */
  lemma LoopVisitsBodyOnce(fuel: nat, env: UsageEnv, b: ScenarioBehaviour, id: string, body: ScenarioBehaviour,
                           succ: Option<string>, w: UsageWorld)
    ensures VisitAction(fuel, env, b, Loop(id, body, succ), w) == VisitAction(fuel, env, b, Branch(id, [body], succ), w)
  {
    var o := DoSwitchBehaviour(fuel, env, body, w);
    assert [body][0] == body && [body][1..] == [];
    assert VisitBehaviours(fuel, env, [], o.world) == UsageOutcome(o.world, None);
  }

  /** A branch walks its transitions in order: the first ones, then, unless one threw, the rest. */
  lemma {:induction false} BranchVisitsInOrder(fuel: nat, env: UsageEnv, bs1: seq<ScenarioBehaviour>, bs2: seq<ScenarioBehaviour>, w: UsageWorld)
    ensures var o1 := VisitBehaviours(fuel, env, bs1, w);
      VisitBehaviours(fuel, env, bs1 + bs2, w) == if o1.error.Some? then o1 else VisitBehaviours(fuel, env, bs2, o1.world)
    decreases |bs1|
  {
    if bs1 == [] {
      assert bs1 + bs2 == bs2;
    } else {
      assert (bs1 + bs2)[0] == bs1[0] && (bs1 + bs2)[1..] == bs1[1..] + bs2;
      var o := DoSwitchBehaviour(fuel, env, bs1[0], w);
      if o.error.None? {
        BranchVisitsInOrder(fuel, env, bs1[1..], bs2, o.world);
      }
    }
  }

  /**
   * A scenario of one system call between its start and its stop: exactly one graph is added,
   * the call's, and the walk ends at the stop with whatever the call threw.
   */
  lemma OneCallScenario(fuel: nat, env: UsageEnv, s: string, c: string, t: string, call: EntryCall, w: UsageWorld)
    requires fuel >= 3 && s != c && c != t && s != t
    ensures var b := ScenarioBehaviour([Start(s, Some(c)), EntryLevelSystemCall(c, call, Some(t)), Stop(t)]);
      var o := DoSwitchBehaviour(fuel, env, b, w);
      var e := EntryCallStep(fuel - 2, env, c, call, w);
      o == e && |o.world.graphs| == |w.graphs| + 1 && o.world.graphs[..|w.graphs|] == w.graphs
  {
    var b := ScenarioBehaviour([Start(s, Some(c)), EntryLevelSystemCall(c, call, Some(t)), Stop(t)]);
    assert StartOf(b) == Some(s);
    assert Find(b, s) == Some(b.actions[0]);
    assert Find(b, c) == Some(b.actions[1]);
    assert Find(b, t) == Some(b.actions[2]);
    var e := EntryCallStep(fuel - 2, env, c, call, w);
    assert DoSwitch(fuel - 2, env, b, Some(t), e.world) == UsageOutcome(e.world, None);
    assert DoSwitch(fuel - 1, env, b, Some(c), w) == VisitAction(fuel - 2, env, b, b.actions[1], w);
    assert DoSwitch(fuel, env, b, Some(s), w) == VisitAction(fuel - 1, env, b, b.actions[0], w);
    assert DoSwitchBehaviour(fuel, env, b, w) == DoSwitch(fuel, env, b, Some(s), w);
    if e.error.None? {
      assert e == UsageOutcome(e.world, None);
    }
    assert Then(fuel - 2, env, b, Some(t), e) == e;
    EntryCallAddsOneGraph(fuel - 2, env, c, call, w);
  }
}

