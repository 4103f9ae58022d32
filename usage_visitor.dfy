/**
 * The UsageModelVisitor of the Java code as a class: it walks a usage scenario, generates one
 * call graph per entry level system call in its call graph manager, and starts a SEFF visitor
 * per replica of the called component. Each method is proved to leave exactly the state the
 * value-level walk of module UsageSemantics computes.
 */
module UsageVisiting {
  import opened Wrappers
  import opened Pcm
  import opened CallGraphSpec
  import opened CallGraphData
  import opened ContextWrapping
  import opened SeffVisiting
  import opened UsageSemantics
  import Sem = SeffSemantics

  // ---------------------------------------------------------------------------------------
  // The manager's graphs seen as values

  ghost function Record(g: CallGraph): GraphRecord
    reads g
  {
    GraphRecord(g.graphName, g.graphId, g.graphInterfaceName, g.start.Info(), g.Value())
  }

  /** The graphs of a manager, in the order they were generated. */
  ghost function Records(cgs: seq<CallGraph>): (r: seq<GraphRecord>)
    reads cgs
    ensures |r| == |cgs|
    decreases |cgs|
  {
    if cgs == [] then [] else Records(cgs[..|cgs| - 1]) + [Record(cgs[|cgs| - 1])]
  }

  lemma RecordsAppend(cgs: seq<CallGraph>, g: CallGraph)
    ensures Records(cgs + [g]) == Records(cgs) + [Record(g)]
  {
    assert (cgs + [g])[..|cgs|] == cgs;
  }

  /** A visitor of one usage scenario, with the manager of the call graphs it generates. */
  class UsageModelVisitor {
    const callGraphManager: CallGraphManager
    /** What the PCM instance answers: the system calls' context wrappers and what SEFF visits need. */
    const env: UsageEnv
    /** The computed allocation contexts by their ids, where the SEFF visitors record demands. */
    const sinks: map<Sem.CacKey, ComputedAllocationContext>

    /** The visitor starts with a manager of its own that holds no graph. */
    constructor (env: UsageEnv, sinks: map<Sem.CacKey, ComputedAllocationContext>)
      ensures this.env == env && this.sinks == sinks
      ensures fresh(callGraphManager) && callGraphManager.callGraphs == []
      ensures State() == UsageWorld([], RecordedDemands(sinks))
    {
      this.env := env;
      this.sinks := sinks;
      callGraphManager := new CallGraphManager();
    }

    /** The manager's graphs and the demands recorded so far. */
    ghost function State(): UsageWorld
      reads this, callGraphManager, callGraphManager.callGraphs, sinks.Values
    {
      UsageWorld(Records(callGraphManager.callGraphs), RecordedDemands(sinks))
    }

    /** doSwitch on an action reference. */
    method DoSwitch(fuel: nat, b: ScenarioBehaviour, ref: Option<string>) returns (error: Option<Failure>)
      requires SinksValid(sinks)
      modifies callGraphManager, sinks.Values
      ensures UsageOutcome(State(), error) == UsageSemantics.DoSwitch(fuel, env, b, ref, old(State()))
      decreases fuel, 0
    {
      if fuel == 0 {
        return Some(RecursionLimit);
      }
      if ref.None? {
        return Some(NullPointer("doSwitch(null)"));
      }
      var found := Find(b, ref.value);
      if found.None? {
        return Some(NullPointer("doSwitch(null)"));
      }
      error := VisitAction(fuel - 1, b, found.value);
    }

    /** caseScenarioBehaviour: doSwitch on the behaviour's start action. */
    method DoSwitchBehaviour(fuel: nat, b: ScenarioBehaviour) returns (error: Option<Failure>)
      requires SinksValid(sinks)
      modifies callGraphManager, sinks.Values
      ensures UsageOutcome(State(), error) == UsageSemantics.DoSwitchBehaviour(fuel, env, b, old(State()))
      decreases fuel, 1
    {
      error := DoSwitch(fuel, b, StartOf(b));
    }

    /** The successor, unless `prior` is the exception that ended the visit. */
    method Then(fuel: nat, b: ScenarioBehaviour, succ: Option<string>, ghost o: UsageOutcome, prior: Option<Failure>)
      returns (error: Option<Failure>)
      requires SinksValid(sinks) && UsageOutcome(State(), prior) == o
      modifies callGraphManager, sinks.Values
      ensures UsageOutcome(State(), error) == UsageSemantics.Then(fuel, env, b, succ, o)
      decreases fuel, 1
    {
      if prior.Some? {
        return prior;
      }
      error := DoSwitch(fuel, b, succ);
    }

    /** The loop of caseBranch over the branch transitions: each one's behaviour, in order. */
    method VisitBehaviours(fuel: nat, bs: seq<ScenarioBehaviour>) returns (error: Option<Failure>)
      requires SinksValid(sinks)
      modifies callGraphManager, sinks.Values
      ensures UsageOutcome(State(), error) == UsageSemantics.VisitBehaviours(fuel, env, bs, old(State()))
      decreases fuel, 2
    {
      ghost var total := UsageSemantics.VisitBehaviours(fuel, env, bs, State());
      var i := 0;
      while i < |bs|
        invariant 0 <= i <= |bs|
        invariant total == UsageSemantics.VisitBehaviours(fuel, env, bs[i..], State())
      {
        assert bs[i..][0] == bs[i] && bs[i..][1..] == bs[i + 1..];
        error := DoSwitchBehaviour(fuel, bs[i]);
        if error.Some? {
          return;
        }
        i := i + 1;
      }
      error := None;
    }

    /** The case* methods. */
    method VisitAction(fuel: nat, b: ScenarioBehaviour, a: UsageAction) returns (error: Option<Failure>)
      requires SinksValid(sinks)
      modifies callGraphManager, sinks.Values
      ensures UsageOutcome(State(), error) == UsageSemantics.VisitAction(fuel, env, b, a, old(State()))
      decreases fuel, 4
    {
      match a
      case Start(_, succ) =>
        error := DoSwitch(fuel, b, succ);
      case Stop(_) =>
        error := None;
      case Delay(_, succ) =>
        error := DoSwitch(fuel, b, succ);
      case Branch(_, bs, succ) =>
        ghost var o := UsageSemantics.VisitBehaviours(fuel, env, bs, State());
        error := VisitBehaviours(fuel, bs);
        error := Then(fuel, b, succ, o, error);
      case Loop(_, body, succ) =>
        ghost var o := UsageSemantics.DoSwitchBehaviour(fuel, env, body, State());
        error := DoSwitchBehaviour(fuel, body);
        error := Then(fuel, b, succ, o, error);
      case EntryLevelSystemCall(id, call, succ) =>
        ghost var o := EntryCallStep(fuel, env, id, call, State());
        error := VisitEntryLevelSystemCall(fuel, id, call);
        error := Then(fuel, b, succ, o, error);
    }

    /**
     * caseEntryLevelSystemCall up to its successor: a new graph in the manager, then for each
     * context wrapper one call from the graph's start entity to the SEFF's entity and a SEFF
     * visitor of that entity.
     */
    method VisitEntryLevelSystemCall(fuel: nat, id: string, call: EntryCall) returns (error: Option<Failure>)
      requires SinksValid(sinks)
      modifies callGraphManager, sinks.Values
      ensures UsageOutcome(State(), error) == EntryCallStep(fuel, env, id, call, old(State()))
      decreases fuel, 3
    {
      ghost var cgs := callGraphManager.callGraphs;
      ghost var before := Records(cgs);
      var callGraph := callGraphManager.GenerateNewCallGraph(call.signatureName, call.signatureId, call.interfaceName, env.sep);
      assert Record(callGraph) == NewGraph(call, env.sep);
      var rs := env.replicas(id);
      if rs.Fail? {
        RecordsAppend(cgs, callGraph);
        return Some(rs.error);
      }
      ghost var g := NewGraph(call, env.sep);
      ghost var w0 := WorldOf(callGraph, sinks);
      assert w0 == Sem.World(g.contents, old(State()).demands);
      error := VisitReplicas(fuel, callGraph, call, rs.value);
      ghost var v := VisitEntryReplicas(fuel, env, g.start, call, rs.value, w0);
      assert Visited(WorldOf(callGraph, sinks), error) == v;
      assert Records(cgs) == before;
      RecordsAppend(cgs, callGraph);
      assert Record(callGraph) == g.(contents := v.world.graph);
    }

    /** The loop of caseEntryLevelSystemCall over the context wrappers, on the graph just generated. */
    method VisitReplicas(fuel: nat, callGraph: CallGraph, call: EntryCall, rs: seq<Replica>) returns (error: Option<Failure>)
      requires WellFormed(callGraph.Value()) && SinksValid(sinks)
      modifies callGraph, sinks.Values
      ensures Visited(WorldOf(callGraph, sinks), error)
           == VisitEntryReplicas(fuel, env, callGraph.start.Info(), call, rs, old(WorldOf(callGraph, sinks)))
    {
      ghost var total := VisitEntryReplicas(fuel, env, callGraph.start.Info(), call, rs, WorldOf(callGraph, sinks));
      var i := 0;
      while i < |rs|
        invariant 0 <= i <= |rs|
        invariant WellFormed(callGraph.Value())
        invariant total == VisitEntryReplicas(fuel, env, callGraph.start.Info(), call, rs[i..], WorldOf(callGraph, sinks))
      {
        assert rs[i..][0] == rs[i] && rs[i..][1..] == rs[i + 1..];
        error := VisitReplica(fuel, callGraph, call, rs[i]);
        if error.Some? {
          return;
        }
        i := i + 1;
      }
      error := None;
    }

    /** One context wrapper: the call from the start entity, then a fresh SEFF visitor of the callee's entity. */
    method VisitReplica(fuel: nat, callGraph: CallGraph, call: EntryCall, r: Replica) returns (error: Option<Failure>)
      requires WellFormed(callGraph.Value()) && SinksValid(sinks)
      modifies callGraph, sinks.Values
      ensures WellFormed(callGraph.Value())
      ensures Visited(WorldOf(callGraph, sinks), error)
           == EntryReplicaStep(fuel, env, callGraph.start.Info(), call, r, old(WorldOf(callGraph, sinks)))
    {
      if r.seff.None? {
        return Some(NullPointer("seff"));
      }
      var seff := r.seff.value;
      var info := EntryTarget(seff, call);
      ghost var g0 := callGraph.Value();
      GetEntityWellFormed(g0, info);
      AddLinkWellFormed(GetEntityV(g0, info), callGraph.start.Info(), FoundEntity(g0, info));
      var t := LinkCallee(callGraph, callGraph.start, info, sinks);
      var visitor := new SeffVisitor(t, callGraph, r.context, env.seffEnv, sinks);
      error := visitor.DoSwitchBehaviour(fuel, seff.behaviour);
    }
  }
}
