/**
 * The SeffVisitor of the Java code as a class: one visitor per entity and context, whose
 * doSwitch walks a SEFF and records calls, empty flags and resource demands in the shared call
 * graph and computed allocation contexts. Each method is proved to leave exactly the state the
 * value-level walk of module SeffSemantics computes.
 */
module SeffVisiting {
  import opened Wrappers
  import opened Pcm
  import opened CallGraphSpec
  import opened CallGraphData
  import opened ContextWrapping
  import opened Handlers
  import Sem = SeffSemantics

  // ---------------------------------------------------------------------------------------
  // The shared state seen as a value

  /** Each computed allocation context is stored under its own pair of ids. */
  ghost predicate SinksValid(sinks: map<Sem.CacKey, ComputedAllocationContext>)
  {
    forall k :: k in sinks ==> IsComputedFor(sinks[k], k.0, k.1)
  }

  /** The demands recorded so far in each computed allocation context. */
  ghost function RecordedDemands(sinks: map<Sem.CacKey, ComputedAllocationContext>): map<Sem.CacKey, seq<ResourceDemand>>
    reads sinks.Values
  {
    map k | k in sinks :: sinks[k].resourceDemands
  }

  ghost function WorldOf(g: CallGraph, sinks: map<Sem.CacKey, ComputedAllocationContext>): Sem.World
    reads g, sinks.Values
  {
    Sem.World(g.Value(), RecordedDemands(sinks))
  }

  /** The external call's first step: the callee's entity, found or created, and one call recorded to it. */
  method LinkCallee(g: CallGraph, s: CallEntity, info: EntityInfo, sinks: map<Sem.CacKey, ComputedAllocationContext>)
    returns (t: CallEntity)
    modifies g
    ensures WorldOf(g, sinks) == Sem.Linked(old(WorldOf(g, sinks)), s.Info(), info)
    ensures t.Info() == FoundEntity(old(g.Value()), info) && Key(info) in g.entities
  {
    t := g.GetEntity(info.componentName, info.componentId, info.methodName, info.methodId, info.interfaceName, info.interfaceId);
    g.AddLink(s, t);
  }

  /**
   * The internal action handler on the computed allocation context of `ctx`, if there is one;
   * without one the first demand computed dereferences null.
   */
  method RecordDemands(prds: seq<ParametricDemand>, ctx: Sem.Context, env: Sem.Env,
                       sinks: map<Sem.CacKey, ComputedAllocationContext>) returns (error: Option<Failure>)
    requires SinksValid(sinks)
    modifies sinks.Values
    ensures var p := ActionDemands(prds, ctx.container, env.environment, env.solve(ctx));
      && (Sem.CacOf(ctx) in sinks ==>
            && RecordedDemands(sinks) == old(RecordedDemands(sinks))[Sem.CacOf(ctx) := old(RecordedDemands(sinks))[Sem.CacOf(ctx)] + p.items]
            && error == p.error)
      && (Sem.CacOf(ctx) !in sinks ==>
            && RecordedDemands(sinks) == old(RecordedDemands(sinks))
            && error == if p.items == [] then p.error else Some(NullPointer("compAllCtx")))
  {
    var key := Sem.CacOf(ctx);
    var compAllCtx := if key in sinks then Some(sinks[key]) else None;
    error := HandleInternalAction(prds, ctx.container, env.environment, env.solve(ctx), compAllCtx);
    if key in sinks {
      assert forall k :: k in sinks && k != key ==> sinks[k] != sinks[key];
    }
  }

  /** A visitor of the behaviours of one entity in one context. */
  class SeffVisitor {
    /** The start action last visited, by id; null until one is. */
    var startAction: Option<string>
    /**
     * The entity whose SEFF this visitor walks, as getEntity returned it: calls go out from it,
     * and its empty flag, which the graph holds, is set at the stop action.
     */
    const callEntity: CallEntity
    const callGraph: CallGraph
    /** What the ContextWrapper of this visitor provides. */
    const context: Sem.Context
    const env: Sem.Env
    /** The computed allocation contexts by their ids, where the internal action handler records demands. */
    const sinks: map<Sem.CacKey, ComputedAllocationContext>

    constructor (callEntity: CallEntity, callGraph: CallGraph, context: Sem.Context, env: Sem.Env,
                 sinks: map<Sem.CacKey, ComputedAllocationContext>)
      ensures this.callEntity == callEntity && this.callGraph == callGraph && this.context == context
      ensures this.env == env && this.sinks == sinks && startAction == None
    {
      this.callEntity := callEntity;
      this.callGraph := callGraph;
      this.context := context;
      this.env := env;
      this.sinks := sinks;
      startAction := None;
    }

    /** The visitor's entity belongs to its graph, and the graph and the sinks are well formed. */
    ghost predicate Ready()
      reads this, callGraph
    {
      && WellFormed(callGraph.Value())
      && callEntity.Key() in callGraph.entities
      && SinksValid(sinks)
    }

    /** The shared state and this visitor's start action are what outcome `o` says, and so is the error. */
    ghost predicate Reached(o: Sem.Outcome, error: Option<Failure>)
      reads this, callGraph, sinks.Values
    {
      WorldOf(callGraph, sinks) == o.world && startAction == o.startAction && error == o.error
    }

    /** doSwitch on an action reference. */
    method DoSwitch(fuel: nat, b: Behaviour, ref: Option<string>) returns (error: Option<Failure>)
      requires Ready()
      modifies this`startAction, callGraph, sinks.Values
      ensures Ready() && old(callGraph.entities).Keys <= callGraph.entities.Keys
      ensures Reached(Sem.DoSwitch(fuel, env, context, callEntity.Info(), b, ref, old(WorldOf(callGraph, sinks)), old(startAction)), error)
      decreases fuel, 0
    {
      if fuel == 0 {
        return Some(RecursionLimit);
      }
      if ref.None? {
        return Some(NullPointer("doSwitch(null)"));
      }
      var found := Sem.Find(b, ref.value);
      if found.None? {
        return Some(NullPointer("doSwitch(null)"));
      }
      error := VisitAction(fuel - 1, b, found.value);
    }

    /** doSwitch on a behaviour: its start action. */
    method DoSwitchBehaviour(fuel: nat, b: Behaviour) returns (error: Option<Failure>)
      requires Ready()
      modifies this`startAction, callGraph, sinks.Values
      ensures Ready() && old(callGraph.entities).Keys <= callGraph.entities.Keys
      ensures Reached(Sem.DoSwitchBehaviour(fuel, env, context, callEntity.Info(), b, old(WorldOf(callGraph, sinks)), old(startAction)), error)
      decreases fuel, 1
    {
      error := DoSwitch(fuel, b, Sem.StartOf(b));
    }

    /** The successor, unless `prior` is the exception that ended the visit. */
    method Then(fuel: nat, b: Behaviour, succ: Option<string>, ghost o: Sem.Outcome, prior: Option<Failure>)
      returns (error: Option<Failure>)
      requires Ready() && Reached(o, prior)
      modifies this`startAction, callGraph, sinks.Values
      ensures Ready() && old(callGraph.entities).Keys <= callGraph.entities.Keys
      ensures Reached(Sem.Then(fuel, env, context, callEntity.Info(), b, succ, o), error)
      decreases fuel, 1
    {
      if prior.Some? {
        return prior;
      }
      error := DoSwitch(fuel, b, succ);
    }

    /** The case* methods. */
    method VisitAction(fuel: nat, b: Behaviour, a: Action) returns (error: Option<Failure>)
      requires Ready()
      modifies this`startAction, callGraph, sinks.Values
      ensures Ready() && old(callGraph.entities).Keys <= callGraph.entities.Keys
      ensures Reached(Sem.VisitAction(fuel, env, context, callEntity.Info(), b, a, old(WorldOf(callGraph, sinks)), old(startAction)), error)
      decreases fuel, 6
    {
      if a.ExternalCallAction? {
        error := VisitExternalCall(fuel, b, a.id, a.name, a.call, a.successor);
      } else if a.InternalAction? {
        error := VisitInternal(fuel, b, a.demands, a.successor);
      } else if a.BranchAction? {
        error := VisitBranch(fuel, b, a.transitions, a.successor);
      } else if a.LoopAction? || a.CollectionIteratorAction? {
        error := VisitBody(fuel, b, a.body, a.successor);
      } else if a.ForkAction? {
        error := VisitForkThen(fuel, b, a.asynchronous, a.synchronous, a.successor);
      } else {
        error := VisitSimple(fuel, b, a);
      }
    }

    /** The actions that only go on to their successor, and the two that end the chain. */
    method VisitSimple(fuel: nat, b: Behaviour, a: Action) returns (error: Option<Failure>)
      requires !(a.ExternalCallAction? || a.InternalAction? || a.BranchAction? || a.LoopAction? || a.CollectionIteratorAction? || a.ForkAction?)
      requires Ready()
      modifies this`startAction, callGraph, sinks.Values
      ensures Ready() && old(callGraph.entities).Keys <= callGraph.entities.Keys
      ensures Reached(Sem.VisitAction(fuel, env, context, callEntity.Info(), b, a, old(WorldOf(callGraph, sinks)), old(startAction)), error)
      decreases fuel, 5
    {
      match a
      case RecoveryBlockAction(_) =>
        error := None;
      case StartAction(id, succ) =>
        startAction := Some(id);
        error := DoSwitch(fuel, b, succ);
      case StopAction(_, pred) =>
        SetEmptyWellFormed(callGraph.Value(), callEntity.Key(), pred == startAction);
        callGraph.SetEntityEmpty(callEntity.Key(), pred == startAction);
        error := None;
      case AcquireAction(_, succ) =>
        error := DoSwitch(fuel, b, succ);
      case ReleaseAction(_, succ) =>
        error := DoSwitch(fuel, b, succ);
      case SetVariableAction(_, succ) =>
        error := DoSwitch(fuel, b, succ);
    }

    /** The branch action handler, then the successor. */
    method VisitBranch(fuel: nat, b: Behaviour, ts: seq<Transition>, succ: Option<string>) returns (error: Option<Failure>)
      requires Ready()
      modifies this`startAction, callGraph, sinks.Values
      ensures Ready() && old(callGraph.entities).Keys <= callGraph.entities.Keys
      ensures Reached(Sem.Then(fuel, env, context, callEntity.Info(), b, succ,
                               Sem.VisitTransitions(fuel, env, context, callEntity.Info(), ts, old(WorldOf(callGraph, sinks)), old(startAction))), error)
      decreases fuel, 5
    {
      ghost var o := Sem.VisitTransitions(fuel, env, context, callEntity.Info(), ts, WorldOf(callGraph, sinks), startAction);
      error := VisitTransitions(fuel, ts);
      error := Then(fuel, b, succ, o, error);
    }

    /** The loop and collection iterator actions: their body once, then the successor. */
    method VisitBody(fuel: nat, b: Behaviour, body: Behaviour, succ: Option<string>) returns (error: Option<Failure>)
      requires Ready()
      modifies this`startAction, callGraph, sinks.Values
      ensures Ready() && old(callGraph.entities).Keys <= callGraph.entities.Keys
      ensures Reached(Sem.Then(fuel, env, context, callEntity.Info(), b, succ,
                               Sem.DoSwitchBehaviour(fuel, env, context, callEntity.Info(), body, old(WorldOf(callGraph, sinks)), old(startAction))), error)
      decreases fuel, 5
    {
      ghost var o := Sem.DoSwitchBehaviour(fuel, env, context, callEntity.Info(), body, WorldOf(callGraph, sinks), startAction);
      error := DoSwitchBehaviour(fuel, body);
      error := Then(fuel, b, succ, o, error);
    }

    /** The fork action handler, then the successor. */
    method VisitForkThen(fuel: nat, b: Behaviour, asynchronous: seq<Behaviour>, synchronous: Option<seq<Behaviour>>,
                         succ: Option<string>) returns (error: Option<Failure>)
      requires Ready()
      modifies this`startAction, callGraph, sinks.Values
      ensures Ready() && old(callGraph.entities).Keys <= callGraph.entities.Keys
      ensures Reached(Sem.Then(fuel, env, context, callEntity.Info(), b, succ,
                               Sem.VisitFork(fuel, env, context, callEntity.Info(), asynchronous, synchronous,
                                             old(WorldOf(callGraph, sinks)), old(startAction))), error)
      decreases fuel, 5
    {
      ghost var o := Sem.VisitFork(fuel, env, context, callEntity.Info(), asynchronous, synchronous, WorldOf(callGraph, sinks), startAction);
      error := VisitFork(fuel, asynchronous, synchronous);
      error := Then(fuel, b, succ, o, error);
    }

    /** The internal action handler, then the successor. */
    method VisitInternal(fuel: nat, b: Behaviour, prds: seq<ParametricDemand>, succ: Option<string>) returns (error: Option<Failure>)
      requires Ready()
      modifies this`startAction, callGraph, sinks.Values
      ensures Ready() && old(callGraph.entities).Keys <= callGraph.entities.Keys
      ensures Reached(Sem.Then(fuel, env, context, callEntity.Info(), b, succ,
                               Sem.InternalStep(env, context, prds, old(WorldOf(callGraph, sinks)), old(startAction))), error)
      decreases fuel, 5
    {
      ghost var o := Sem.InternalStep(env, context, prds, WorldOf(callGraph, sinks), startAction);
      error := RecordDemands(prds, context, env, sinks);
      error := Then(fuel, b, succ, o, error);
    }

    /** The branch action handler: every transition's behaviour, in list order. */
    method VisitTransitions(fuel: nat, ts: seq<Transition>) returns (error: Option<Failure>)
      requires Ready()
      modifies this`startAction, callGraph, sinks.Values
      ensures Ready() && old(callGraph.entities).Keys <= callGraph.entities.Keys
      ensures Reached(Sem.VisitTransitions(fuel, env, context, callEntity.Info(), ts, old(WorldOf(callGraph, sinks)), old(startAction)), error)
      decreases fuel, 2, |ts|
    {
      ghost var total := Sem.VisitTransitions(fuel, env, context, callEntity.Info(), ts, WorldOf(callGraph, sinks), startAction);
      var i := 0;
      while i < |ts|
        invariant 0 <= i <= |ts|
        invariant Ready() && old(callGraph.entities).Keys <= callGraph.entities.Keys
        invariant total == Sem.VisitTransitions(fuel, env, context, callEntity.Info(), ts[i..], WorldOf(callGraph, sinks), startAction)
      {
        assert ts[i..][0] == ts[i] && ts[i..][1..] == ts[i + 1..];
        error := DoSwitchBehaviour(fuel, ts[i].body);
        if error.Some? {
          return;
        }
        i := i + 1;
      }
      error := None;
    }

    /** Forked behaviours in list order. */
    method VisitBehaviours(fuel: nat, bs: seq<Behaviour>) returns (error: Option<Failure>)
      requires Ready()
      modifies this`startAction, callGraph, sinks.Values
      ensures Ready() && old(callGraph.entities).Keys <= callGraph.entities.Keys
      ensures Reached(Sem.VisitBehaviours(fuel, env, context, callEntity.Info(), bs, old(WorldOf(callGraph, sinks)), old(startAction)), error)
      decreases fuel, 2, |bs|
    {
      ghost var total := Sem.VisitBehaviours(fuel, env, context, callEntity.Info(), bs, WorldOf(callGraph, sinks), startAction);
      var i := 0;
      while i < |bs|
        invariant 0 <= i <= |bs|
        invariant Ready() && old(callGraph.entities).Keys <= callGraph.entities.Keys
        invariant total == Sem.VisitBehaviours(fuel, env, context, callEntity.Info(), bs[i..], WorldOf(callGraph, sinks), startAction)
      {
        assert bs[i..][0] == bs[i] && bs[i..][1..] == bs[i + 1..];
        error := DoSwitchBehaviour(fuel, bs[i]);
        if error.Some? {
          return;
        }
        i := i + 1;
      }
      error := None;
    }

    /** The fork action handler: the asynchronous behaviours, then the synchronous ones if any. */
    method VisitFork(fuel: nat, asynchronous: seq<Behaviour>, synchronous: Option<seq<Behaviour>>) returns (error: Option<Failure>)
      requires Ready()
      modifies this`startAction, callGraph, sinks.Values
      ensures Ready() && old(callGraph.entities).Keys <= callGraph.entities.Keys
      ensures Reached(Sem.VisitFork(fuel, env, context, callEntity.Info(), asynchronous, synchronous, old(WorldOf(callGraph, sinks)), old(startAction)), error)
      decreases fuel, 3
    {
      error := VisitBehaviours(fuel, asynchronous);
      if error.None? && synchronous.Some? {
        error := VisitBehaviours(fuel, synchronous.value);
      }
    }

    /**
     * The external call: the callee's entity is found or created and linked from this visitor's
     * entity, then the external call action handler visits every replica, then the successor.
     */
    method VisitExternalCall(fuel: nat, b: Behaviour, id: string, name: string, call: CalledService, succ: Option<string>)
      returns (error: Option<Failure>)
      requires Ready()
      modifies this`startAction, callGraph, sinks.Values
      ensures Ready() && old(callGraph.entities).Keys <= callGraph.entities.Keys
      ensures Reached(Sem.VisitExternalCall(fuel, env, context, callEntity.Info(), b, id, name, call, succ, old(WorldOf(callGraph, sinks)), old(startAction)), error)
      decreases fuel, 5
    {
      var res := env.resolve(context, id);
      if res.seff.None? {
        return Some(NullPointer("seff"));
      }
      var target := Sem.TargetOf(res.seff.value, call);
      error := VisitResolved(fuel, b, id, name, res.seff.value, res.replicas, target, succ);
    }

    /** A call whose SEFF was found: the call is recorded, then handled on the callee's entity. */
    method VisitResolved(fuel: nat, b: Behaviour, id: string, name: string, seff: Seff, replicas: Result<seq<Sem.Context>>,
                         target: EntityInfo, succ: Option<string>) returns (error: Option<Failure>)
      requires Ready()
      modifies this`startAction, callGraph, sinks.Values
      ensures Ready() && old(callGraph.entities).Keys <= callGraph.entities.Keys
      ensures Reached(Sem.VisitCallee(fuel, env, context, callEntity.Info(), b, id, name, seff, replicas,
                                      FoundEntity(old(callGraph.Value()), target), succ,
                                      Sem.Linked(old(WorldOf(callGraph, sinks)), callEntity.Info(), target), old(startAction)), error)
      decreases fuel, 4
    {
      GetEntityWellFormed(callGraph.Value(), target);
      AddLinkWellFormed(GetEntityV(callGraph.Value(), target), callEntity.Info(), FoundEntity(callGraph.Value(), target));
      var t := LinkCallee(callGraph, callEntity, target, sinks);
      error := VisitCallee(fuel, b, id, name, seff, replicas, t, succ);
    }

    /** The external call action handler: the replicas, then the successor with this visitor's own start action. */
    method VisitCallee(fuel: nat, b: Behaviour, id: string, name: string, seff: Seff, replicas: Result<seq<Sem.Context>>,
                       t: CallEntity, succ: Option<string>) returns (error: Option<Failure>)
      requires Ready() && t.Key() in callGraph.entities
      modifies this`startAction, callGraph, sinks.Values
      ensures Ready() && old(callGraph.entities).Keys <= callGraph.entities.Keys
      ensures Reached(Sem.VisitCallee(fuel, env, context, callEntity.Info(), b, id, name, seff, replicas, t.Info(), succ,
                                      old(WorldOf(callGraph, sinks)), old(startAction)), error)
      decreases fuel, 3
    {
      if replicas.Fail? {
        return Some(replicas.error);
      }
      if replicas.value == [] {
        return Some(Runtime(Sem.NoWrapperMessage(name, id)));
      }
      ghost var o := Sem.VisitReplicas(fuel, env, t.Info(), seff, replicas.value, WorldOf(callGraph, sinks));
      ghost var s0 := startAction;
      error := VisitReplicas(fuel, t, seff, replicas.value);
      error := Then(fuel, b, succ, Sem.Outcome(o.world, s0, o.error), error);
    }

    /** One new visitor per replica's wrapper, each walking the callee's SEFF on behalf of entity `t`. */
    method VisitReplicas(fuel: nat, t: CallEntity, seff: Seff, replicas: seq<Sem.Context>) returns (error: Option<Failure>)
      requires Ready() && t.Key() in callGraph.entities
      modifies callGraph, sinks.Values
      ensures Ready() && old(callGraph.entities).Keys <= callGraph.entities.Keys
      ensures WorldOf(callGraph, sinks) == Sem.VisitReplicas(fuel, env, t.Info(), seff, replicas, old(WorldOf(callGraph, sinks))).world
      ensures error == Sem.VisitReplicas(fuel, env, t.Info(), seff, replicas, old(WorldOf(callGraph, sinks))).error
      decreases fuel, 2, |replicas|
    {
      ghost var total := Sem.VisitReplicas(fuel, env, t.Info(), seff, replicas, WorldOf(callGraph, sinks));
      var i := 0;
      while i < |replicas|
        invariant 0 <= i <= |replicas|
        invariant Ready() && old(callGraph.entities).Keys <= callGraph.entities.Keys && t.Key() in callGraph.entities
        invariant total == Sem.VisitReplicas(fuel, env, t.Info(), seff, replicas[i..], WorldOf(callGraph, sinks))
      {
        assert replicas[i..][0] == replicas[i] && replicas[i..][1..] == replicas[i + 1..];
        error := VisitReplica(fuel, t, seff, replicas[i]);
        if error.Some? {
          return;
        }
        i := i + 1;
      }
      error := None;
    }

    /** One replica: a fresh visitor of the callee's entity in the replica's context, whose start action is null. */
    method VisitReplica(fuel: nat, t: CallEntity, seff: Seff, replica: Sem.Context) returns (error: Option<Failure>)
      requires Ready() && t.Key() in callGraph.entities
      modifies callGraph, sinks.Values
      ensures Ready() && old(callGraph.entities).Keys <= callGraph.entities.Keys
      ensures var o := Sem.DoSwitchBehaviour(fuel, env, replica, t.Info(), seff.behaviour, old(WorldOf(callGraph, sinks)), None);
        WorldOf(callGraph, sinks) == o.world && error == o.error
      decreases fuel, 2, 0
    {
      var visitor := new SeffVisitor(t, callGraph, replica, env, sinks);
      error := visitor.DoSwitchBehaviour(fuel, seff.behaviour);
    }
  }
}
