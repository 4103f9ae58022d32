/**
 * What a SeffVisitor does, as functions on values: the walk over a SEFF's actions along their
 * successor references, with the call graph, the computed resource demands and the visitor's
 * recorded start action as the state it threads. Module SeffVisiting proves the imperative
 * visitor against these functions.
 */
module SeffSemantics {
  import opened Wrappers
  import opened Collections
  import opened Pcm
  import opened CallGraphSpec
  import opened Handlers

  // ---------------------------------------------------------------------------------------
  // State

  /** A computed allocation context is identified by its allocation context id and its usage context id. */
  type CacKey = (string, string)

  /**
   * What a ContextWrapper contributes to a visit: the ids of its assembly contexts, its
   * allocation context with the container it is deployed on, and its computed usage context.
   */
  datatype Context = Context(assemblyContextIds: seq<string>, allocationId: string, usageId: string, container: ResourceContainer)

  function CacOf(ctx: Context): CacKey
  {
    (ctx.allocationId, ctx.usageId)
  }

  /**
   * What the wrapper answers for an external call: the callee SEFF (getNextSEFF, null when the
   * call leaves the system) and the wrappers of the callee's replicas (getContextWrapperFor,
   * which may throw).
   */
  datatype Resolution = Resolution(seff: Option<Seff>, replicas: Result<seq<Context>>)

  /**
   * The model queries a visit depends on: call resolution per context and external call id,
   * expression solving per context, and the resource containers of the environment.
   */
  datatype Env = Env(
    resolve: (Context, string) -> Resolution,
    solve: Context -> (string -> string),
    environment: seq<ResourceContainer>)

  /** The state all visitors share: the call graph being built and the demands per computed allocation context. */
  datatype World = World(graph: GraphVal, demands: map<CacKey, seq<ResourceDemand>>)

  /** The state after a visit, the visitor's recorded start action (by id), and the exception that ended it. */
  datatype Outcome = Outcome(world: World, startAction: Option<string>, error: Option<Failure>)

  // ---------------------------------------------------------------------------------------
  // Lookups

  /** The action a reference denotes: the step of the behaviour with that id. */
  function Find(b: Behaviour, id: string): (r: Option<Action>)
    ensures r.Some? ==> r.value in b.steps && r.value.id == id
  {
    match FirstWhere(b.steps, (a: Action) => a.id == id)
    case None => None
    case Some(k) => Some(b.steps[k])
  }

  /** Every id but the new action's dereferences, after the splice, to the rewired form of the step it named before. */
  lemma SpliceFind(b: Behaviour, call: Action, action: Action, id: string)
    requires call.ExternalCallAction? && Find(b, action.id) == None && id != action.id
    ensures var found := Find(b, id);
      Find(Behaviour(SpliceAfter(b.steps, call, action)), id) ==
        if found.Some? then Some(Rewired(found.value, call, action.id)) else None
  {
    var steps := b.steps;
    var r := SpliceAfter(steps, call, action);
    var p := (a: Action) => a.id == id;
    FirstWhereSameMatches(steps, p, r[..|steps|], p);
    assert r == r[..|steps|] + [action];
    FirstWhereAppend(r[..|steps|], action, p);
  }

  /**
   * After createInternalAction the walk goes from the call to the new action and from the new
   * action to the call's former successor, whose predecessor is now the new action.
   */
  lemma SplicedCallReachesAction(b: Behaviour, call: Action, action: Action)
    requires call.ExternalCallAction? && Find(b, call.id) == Some(call) && Find(b, action.id) == None
    requires action.InternalAction? && action.successor == call.successor && action.predecessor == Some(call.id)
    ensures var nb := Behaviour(SpliceAfter(b.steps, call, action));
      && Find(nb, call.id) == Some(ExternalCallAction(call.id, call.name, call.call, Some(action.id)))
      && Find(nb, action.id) == Some(action)
      && forall s :: call.successor == Some(s) && Find(b, s).Some? && Find(b, s).value.StopAction? ==>
           Find(nb, s) == Some(StopAction(s, Some(action.id)))
  {
    var steps := b.steps;
    var r := SpliceAfter(steps, call, action);
    assert call.id != action.id;
    SpliceFind(b, call, action, call.id);
    var p := (a: Action) => a.id == action.id;
    FirstWhereSameMatches(steps, p, r[..|steps|], p);
    assert r == r[..|steps|] + [action];
    FirstWhereAppend(r[..|steps|], action, p);
    forall s | call.successor == Some(s) && Find(b, s).Some? && Find(b, s).value.StopAction?
      ensures Find(Behaviour(r), s) == Some(StopAction(s, Some(action.id)))
    {
      SpliceFind(b, call, action, s);
    }
  }

  /** getStartAction: the id of the first StartAction among the steps, or null. */
  function StartOf(b: Behaviour): Option<string>
  {
    match FirstWhere(b.steps, (a: Action) => a.StartAction?)
    case None => None
    case Some(k) => Some(b.steps[k].id)
  }

  /** The message of the exception for an external call that no wrapper could be created for. */
  function NoWrapperMessage(name: string, id: string): string
  {
    "Internal Error: No ContextWrapper could be created for ExternalCall " + name + " " + id
  }

  /** The entity a call to a SEFF targets: the SEFF's component with the called signature and the role's interface. */
  function TargetOf(seff: Seff, call: CalledService): EntityInfo
  {
    EntityInfo(seff.componentName, seff.componentId, call.signatureName, call.signatureId, call.interfaceName, call.interfaceId)
  }

  /** The internal action handler on the value: the demands go to the context's computed allocation context. */
  function InternalStep(env: Env, ctx: Context, prds: seq<ParametricDemand>, w: World, start: Option<string>): Outcome
  {
    var p := ActionDemands(prds, ctx.container, env.environment, env.solve(ctx));
    if CacOf(ctx) in w.demands then Outcome(World(w.graph, w.demands[CacOf(ctx) := w.demands[CacOf(ctx)] + p.items]), start, p.error)
    else Outcome(w, start, if p.items == [] then p.error else Some(NullPointer("compAllCtx")))
  }

  // ---------------------------------------------------------------------------------------
  // The walk. `fuel` bounds the depth of nested doSwitch calls (the Java call stack).

  /** doSwitch on an action reference of behaviour `b`: a null reference fails, like dereferencing it. */
  function DoSwitch(fuel: nat, env: Env, ctx: Context, owner: EntityInfo, b: Behaviour, ref: Option<string>,
                    w: World, start: Option<string>): Outcome
    decreases fuel, 0
  {
    if fuel == 0 then Outcome(w, start, Some(RecursionLimit))
    else if ref.None? then Outcome(w, start, Some(NullPointer("doSwitch(null)")))
    else match Find(b, ref.value)
      case None => Outcome(w, start, Some(NullPointer("doSwitch(null)")))
      case Some(a) => VisitAction(fuel - 1, env, ctx, owner, b, a, w, start)
  }

  /** doSwitch on a behaviour: its start action. */
  function DoSwitchBehaviour(fuel: nat, env: Env, ctx: Context, owner: EntityInfo, b: Behaviour,
                             w: World, start: Option<string>): Outcome
    decreases fuel, 1
  {
    DoSwitch(fuel, env, ctx, owner, b, StartOf(b), w, start)
  }

  /** Going on with the successor unless the preceding sub-visit threw. */
  function Then(fuel: nat, env: Env, ctx: Context, owner: EntityInfo, b: Behaviour, succ: Option<string>, o: Outcome): Outcome
    decreases fuel, 1
  {
    if o.error.Some? then o else DoSwitch(fuel, env, ctx, owner, b, succ, o.world, o.startAction)
  }

  /** The case* methods: one visit of action `a`, a step of `b`, on behalf of entity `owner`. */
  function VisitAction(fuel: nat, env: Env, ctx: Context, owner: EntityInfo, b: Behaviour, a: Action,
                       w: World, start: Option<string>): Outcome
    decreases fuel, 5
  {
    match a
    case RecoveryBlockAction(_) => Outcome(w, start, None)
    case StartAction(id, succ) => DoSwitch(fuel, env, ctx, owner, b, succ, w, Some(id))
    case StopAction(_, pred) => Outcome(World(SetEmptyV(w.graph, Key(owner), pred == start), w.demands), start, None)
    case AcquireAction(_, succ) => DoSwitch(fuel, env, ctx, owner, b, succ, w, start)
    case ReleaseAction(_, succ) => DoSwitch(fuel, env, ctx, owner, b, succ, w, start)
    case SetVariableAction(_, succ) => DoSwitch(fuel, env, ctx, owner, b, succ, w, start)
    case InternalAction(_, prds, succ, _) => Then(fuel, env, ctx, owner, b, succ, InternalStep(env, ctx, prds, w, start))
    case BranchAction(_, ts, succ) => Then(fuel, env, ctx, owner, b, succ, VisitTransitions(fuel, env, ctx, owner, ts, w, start))
    case LoopAction(_, body, succ) => Then(fuel, env, ctx, owner, b, succ, DoSwitchBehaviour(fuel, env, ctx, owner, body, w, start))
    case CollectionIteratorAction(_, body, succ) =>
      Then(fuel, env, ctx, owner, b, succ, DoSwitchBehaviour(fuel, env, ctx, owner, body, w, start))
    case ForkAction(_, asynchronous, synchronous, succ) =>
      Then(fuel, env, ctx, owner, b, succ, VisitFork(fuel, env, ctx, owner, asynchronous, synchronous, w, start))
    case ExternalCallAction(id, name, call, succ) => VisitExternalCall(fuel, env, ctx, owner, b, id, name, call, succ, w, start)
  }

  /**
   * The external call: the callee's entity is looked up or created and linked from the owner, then
   * every replica of the callee is visited by a visitor of its own, then the successor.
   */
  function VisitExternalCall(fuel: nat, env: Env, ctx: Context, owner: EntityInfo, b: Behaviour, id: string, name: string,
                             call: CalledService, succ: Option<string>, w: World, start: Option<string>): Outcome
    decreases fuel, 4
  {
    var res := env.resolve(ctx, id);
    if res.seff.None? then Outcome(w, start, Some(NullPointer("seff")))
    else
      var target := TargetOf(res.seff.value, call);
      VisitCallee(fuel, env, ctx, owner, b, id, name, res.seff.value, res.replicas, FoundEntity(w.graph, target), succ,
                  Linked(w, owner, target), start)
  }

  /** getEntity for `target`, then addLink from `owner` to the entity getEntity returned. */
  function Linked(w: World, owner: EntityInfo, target: EntityInfo): World
  {
    World(AddLinkV(GetEntityV(w.graph, target), owner, FoundEntity(w.graph, target)), w.demands)
  }

  /** The external call action handler, once the call is linked: the replicas, then the successor. */
  function VisitCallee(fuel: nat, env: Env, ctx: Context, owner: EntityInfo, b: Behaviour, id: string, name: string,
                       seff: Seff, replicas: Result<seq<Context>>, target: EntityInfo, succ: Option<string>,
                       w: World, start: Option<string>): Outcome
    decreases fuel, 3
  {
    if replicas.Fail? then Outcome(w, start, Some(replicas.error))
    else if replicas.value == [] then Outcome(w, start, Some(Runtime(NoWrapperMessage(name, id))))
    else
      var o := VisitReplicas(fuel, env, target, seff, replicas.value, w);
      Then(fuel, env, ctx, owner, b, succ, Outcome(o.world, start, o.error))
  }

  /** The branch transitions in list order; each transition handler visits its behaviour once. */
  function VisitTransitions(fuel: nat, env: Env, ctx: Context, owner: EntityInfo, ts: seq<Transition>,
                            w: World, start: Option<string>): Outcome
    decreases fuel, 2, |ts|
  {
    if ts == [] then Outcome(w, start, None)
    else
      var o := DoSwitchBehaviour(fuel, env, ctx, owner, ts[0].body, w, start);
      if o.error.Some? then o else VisitTransitions(fuel, env, ctx, owner, ts[1..], o.world, o.startAction)
  }

  /** Forked behaviours in list order, by the same visitor. */
  function VisitBehaviours(fuel: nat, env: Env, ctx: Context, owner: EntityInfo, bs: seq<Behaviour>,
                           w: World, start: Option<string>): Outcome
    decreases fuel, 2, |bs|
  {
    if bs == [] then Outcome(w, start, None)
    else
      var o := DoSwitchBehaviour(fuel, env, ctx, owner, bs[0], w, start);
      if o.error.Some? then o else VisitBehaviours(fuel, env, ctx, owner, bs[1..], o.world, o.startAction)
  }

  /** The fork handler: every asynchronous behaviour, then the synchronous ones if there is a synchronisation point. */
  function VisitFork(fuel: nat, env: Env, ctx: Context, owner: EntityInfo, asynchronous: seq<Behaviour>,
                     synchronous: Option<seq<Behaviour>>, w: World, start: Option<string>): Outcome
    decreases fuel, 3
  {
    var o := VisitBehaviours(fuel, env, ctx, owner, asynchronous, w, start);
    if o.error.Some? || synchronous.None? then o
    else VisitBehaviours(fuel, env, ctx, owner, synchronous.value, o.world, o.startAction)
  }

  /** One new visitor per replica, each from a fresh start and owned by the call's target entity. */
  function VisitReplicas(fuel: nat, env: Env, target: EntityInfo, seff: Seff, replicas: seq<Context>, w: World): Outcome
    decreases fuel, 2, |replicas|
  {
    if replicas == [] then Outcome(w, None, None)
    else
      var o := DoSwitchBehaviour(fuel, env, replicas[0], target, seff.behaviour, w, None);
      if o.error.Some? then o else VisitReplicas(fuel, env, target, seff, replicas[1..], o.world)
  }

  // ---------------------------------------------------------------------------------------
  // What every visit preserves

  /** The state only grows: no entity disappears or changes its strings, no count decreases, no demand is dropped. */
  predicate Grows(w: World, w': World)
  {
    && GraphGrows(w.graph, w'.graph)
    && w'.demands.Keys == w.demands.Keys
    && (forall c :: c in w.demands ==> w.demands[c] <= w'.demands[c])
  }

  lemma GrowsTrans(w1: World, w2: World, w3: World)
    requires Grows(w1, w2) && Grows(w2, w3)
    ensures Grows(w1, w3)
  {
    GraphGrowsTrans(w1.graph, w2.graph, w3.graph);
    forall c | c in w1.demands
      ensures w1.demands[c] <= w3.demands[c]
    {
      assert w2.demands[c] <= w3.demands[c];
    }
  }

  lemma ExternalStepGrows(w: World, owner: EntityInfo, target: EntityInfo)
    requires WellFormed(w.graph) && Key(owner) in w.graph.entities
    ensures var w1 := Linked(w, owner, target);
      Grows(w, w1) && WellFormed(w1.graph) && Key(owner) in w1.graph.entities && Key(target) in w1.graph.entities
  {
    var g1 := GetEntityV(w.graph, target);
    GetEntityWellFormed(w.graph, target);
    GetEntityGrows(w.graph, target);
    AddLinkWellFormed(g1, owner, FoundEntity(w.graph, target));
    AddLinkGrows(g1, owner, FoundEntity(w.graph, target));
    GraphGrowsTrans(w.graph, g1, Linked(w, owner, target).graph);
  }

  lemma InternalStepGrows(env: Env, ctx: Context, prds: seq<ParametricDemand>, w: World, start: Option<string>)
    ensures var o := InternalStep(env, ctx, prds, w, start);
      Grows(w, o.world) && o.world.graph == w.graph && o.startAction == start
  {
  }

  /**
   * A visit keeps the graph well formed and only makes it grow, as long as its owner is an
   * entity of the graph; the same holds for every helper of the walk.
   */
  lemma {:induction false} DoSwitchGrows(fuel: nat, env: Env, ctx: Context, owner: EntityInfo, b: Behaviour, ref: Option<string>,
                                         w: World, start: Option<string>)
    requires WellFormed(w.graph) && Key(owner) in w.graph.entities
    ensures var o := DoSwitch(fuel, env, ctx, owner, b, ref, w, start);
      Grows(w, o.world) && WellFormed(o.world.graph)
    decreases fuel, 0
  {
    if fuel > 0 && ref.Some? {
      match Find(b, ref.value)
      case None =>
      case Some(a) => VisitActionGrows(fuel - 1, env, ctx, owner, b, a, w, start);
    }
  }

  /** Going on to the successor after a sub-visit that kept the invariant keeps it too. */
  lemma {:induction false} ThenGrows(fuel: nat, env: Env, ctx: Context, owner: EntityInfo, b: Behaviour, succ: Option<string>,
                                     w: World, o: Outcome)
    requires WellFormed(w.graph) && Key(owner) in w.graph.entities
    requires Grows(w, o.world) && WellFormed(o.world.graph)
    ensures var r := Then(fuel, env, ctx, owner, b, succ, o);
      Grows(w, r.world) && WellFormed(r.world.graph)
    decreases fuel, 1
  {
    if o.error.None? {
      DoSwitchGrows(fuel, env, ctx, owner, b, succ, o.world, o.startAction);
      GrowsTrans(w, o.world, DoSwitch(fuel, env, ctx, owner, b, succ, o.world, o.startAction).world);
    }
  }

  lemma {:induction false} VisitActionGrows(fuel: nat, env: Env, ctx: Context, owner: EntityInfo, b: Behaviour, a: Action,
                                            w: World, start: Option<string>)
    requires WellFormed(w.graph) && Key(owner) in w.graph.entities
    ensures var o := VisitAction(fuel, env, ctx, owner, b, a, w, start);
      Grows(w, o.world) && WellFormed(o.world.graph)
    decreases fuel, 6
  {
    if a.ExternalCallAction? {
      ExternalCallGrows(fuel, env, ctx, owner, b, a.id, a.name, a.call, a.successor, w, start);
    } else if a.InternalAction? {
      InternalStepGrows(env, ctx, a.demands, w, start);
      ThenGrows(fuel, env, ctx, owner, b, a.successor, w, InternalStep(env, ctx, a.demands, w, start));
    } else if a.BranchAction? {
      TransitionsGrow(fuel, env, ctx, owner, a.transitions, w, start);
      ThenGrows(fuel, env, ctx, owner, b, a.successor, w, VisitTransitions(fuel, env, ctx, owner, a.transitions, w, start));
    } else if a.LoopAction? || a.CollectionIteratorAction? {
      DoSwitchGrows(fuel, env, ctx, owner, a.body, StartOf(a.body), w, start);
      ThenGrows(fuel, env, ctx, owner, b, a.successor, w, DoSwitchBehaviour(fuel, env, ctx, owner, a.body, w, start));
    } else if a.ForkAction? {
      ForkGrows(fuel, env, ctx, owner, a.asynchronous, a.synchronous, w, start);
      ThenGrows(fuel, env, ctx, owner, b, a.successor, w, VisitFork(fuel, env, ctx, owner, a.asynchronous, a.synchronous, w, start));
    } else {
      SimpleGrows(fuel, env, ctx, owner, b, a, w, start);
    }
  }

  /** The actions that only go on to their successor, and the two that end the chain. */
  lemma {:induction false} SimpleGrows(fuel: nat, env: Env, ctx: Context, owner: EntityInfo, b: Behaviour, a: Action,
                                       w: World, start: Option<string>)
    requires !(a.ExternalCallAction? || a.InternalAction? || a.BranchAction? || a.LoopAction? || a.CollectionIteratorAction? || a.ForkAction?)
    requires WellFormed(w.graph) && Key(owner) in w.graph.entities
    ensures var o := VisitAction(fuel, env, ctx, owner, b, a, w, start);
      Grows(w, o.world) && WellFormed(o.world.graph)
    decreases fuel, 5
  {
    match a
    case RecoveryBlockAction(_) =>
    case StartAction(id, succ) => DoSwitchGrows(fuel, env, ctx, owner, b, succ, w, Some(id));
    case StopAction(_, pred) =>
      SetEmptyWellFormed(w.graph, Key(owner), pred == start);
      SetEmptyGrows(w.graph, Key(owner), pred == start);
    case AcquireAction(_, succ) => DoSwitchGrows(fuel, env, ctx, owner, b, succ, w, start);
    case ReleaseAction(_, succ) => DoSwitchGrows(fuel, env, ctx, owner, b, succ, w, start);
    case SetVariableAction(_, succ) => DoSwitchGrows(fuel, env, ctx, owner, b, succ, w, start);
  }

  lemma {:induction false} ExternalCallGrows(fuel: nat, env: Env, ctx: Context, owner: EntityInfo, b: Behaviour, id: string,
                                             name: string, call: CalledService, succ: Option<string>, w: World, start: Option<string>)
    requires WellFormed(w.graph) && Key(owner) in w.graph.entities
    ensures var o := VisitExternalCall(fuel, env, ctx, owner, b, id, name, call, succ, w, start);
      Grows(w, o.world) && WellFormed(o.world.graph)
    decreases fuel, 4
  {
    var res := env.resolve(ctx, id);
    if res.seff.Some? {
      var target := TargetOf(res.seff.value, call);
      var w1 := Linked(w, owner, target);
      ExternalStepGrows(w, owner, target);
      if res.replicas.Success? && res.replicas.value != [] {
        var callee := FoundEntity(w.graph, target);
        var o := VisitReplicas(fuel, env, callee, res.seff.value, res.replicas.value, w1);
        ReplicasGrow(fuel, env, callee, res.seff.value, res.replicas.value, w1);
        GrowsTrans(w, w1, o.world);
        ThenGrows(fuel, env, ctx, owner, b, succ, w, Outcome(o.world, start, o.error));
      }
    }
  }

  lemma {:induction false} TransitionsGrow(fuel: nat, env: Env, ctx: Context, owner: EntityInfo, ts: seq<Transition>,
                                           w: World, start: Option<string>)
    requires WellFormed(w.graph) && Key(owner) in w.graph.entities
    ensures var o := VisitTransitions(fuel, env, ctx, owner, ts, w, start);
      Grows(w, o.world) && WellFormed(o.world.graph)
    decreases fuel, 2, |ts|
  {
    if ts != [] {
      var o := DoSwitchBehaviour(fuel, env, ctx, owner, ts[0].body, w, start);
      DoSwitchGrows(fuel, env, ctx, owner, ts[0].body, StartOf(ts[0].body), w, start);
      if o.error.None? {
        TransitionsGrow(fuel, env, ctx, owner, ts[1..], o.world, o.startAction);
        GrowsTrans(w, o.world, VisitTransitions(fuel, env, ctx, owner, ts[1..], o.world, o.startAction).world);
      }
    }
  }

  lemma {:induction false} BehavioursGrow(fuel: nat, env: Env, ctx: Context, owner: EntityInfo, bs: seq<Behaviour>,
                                          w: World, start: Option<string>)
    requires WellFormed(w.graph) && Key(owner) in w.graph.entities
    ensures var o := VisitBehaviours(fuel, env, ctx, owner, bs, w, start);
      Grows(w, o.world) && WellFormed(o.world.graph)
    decreases fuel, 2, |bs|
  {
    if bs != [] {
      var o := DoSwitchBehaviour(fuel, env, ctx, owner, bs[0], w, start);
      DoSwitchGrows(fuel, env, ctx, owner, bs[0], StartOf(bs[0]), w, start);
      if o.error.None? {
        BehavioursGrow(fuel, env, ctx, owner, bs[1..], o.world, o.startAction);
        GrowsTrans(w, o.world, VisitBehaviours(fuel, env, ctx, owner, bs[1..], o.world, o.startAction).world);
      }
    }
  }

  lemma {:induction false} ForkGrows(fuel: nat, env: Env, ctx: Context, owner: EntityInfo, asynchronous: seq<Behaviour>,
                                     synchronous: Option<seq<Behaviour>>, w: World, start: Option<string>)
    requires WellFormed(w.graph) && Key(owner) in w.graph.entities
    ensures var o := VisitFork(fuel, env, ctx, owner, asynchronous, synchronous, w, start);
      Grows(w, o.world) && WellFormed(o.world.graph)
    decreases fuel, 3
  {
    var o := VisitBehaviours(fuel, env, ctx, owner, asynchronous, w, start);
    BehavioursGrow(fuel, env, ctx, owner, asynchronous, w, start);
    if o.error.None? && synchronous.Some? {
      BehavioursGrow(fuel, env, ctx, owner, synchronous.value, o.world, o.startAction);
      GrowsTrans(w, o.world, VisitBehaviours(fuel, env, ctx, owner, synchronous.value, o.world, o.startAction).world);
    }
  }

  lemma {:induction false} ReplicasGrow(fuel: nat, env: Env, target: EntityInfo, seff: Seff, replicas: seq<Context>, w: World)
    requires WellFormed(w.graph) && Key(target) in w.graph.entities
    ensures var o := VisitReplicas(fuel, env, target, seff, replicas, w);
      Grows(w, o.world) && WellFormed(o.world.graph)
    decreases fuel, 2, |replicas|
  {
    if replicas != [] {
      var o := DoSwitchBehaviour(fuel, env, replicas[0], target, seff.behaviour, w, None);
      DoSwitchGrows(fuel, env, replicas[0], target, seff.behaviour, StartOf(seff.behaviour), w, None);
      if o.error.None? {
        ReplicasGrow(fuel, env, target, seff, replicas[1..], o.world);
        GrowsTrans(w, o.world, VisitReplicas(fuel, env, target, seff, replicas[1..], o.world).world);
      }
    }
  }

  // ---------------------------------------------------------------------------------------
  // Properties of single rules

  /**
   * All asynchronous behaviours are visited before all synchronous ones: a fork with a
   * synchronisation point behaves like one whose asynchronous list has the synchronous
   * behaviours appended.
   */
  lemma ForkVisitsAsynchronousFirst(fuel: nat, env: Env, ctx: Context, owner: EntityInfo, asynchronous: seq<Behaviour>,
                                    synchronous: seq<Behaviour>, w: World, start: Option<string>)
    ensures VisitFork(fuel, env, ctx, owner, asynchronous, Some(synchronous), w, start)
         == VisitFork(fuel, env, ctx, owner, asynchronous + synchronous, None, w, start)
  {
    BehavioursAppend(fuel, env, ctx, owner, asynchronous, synchronous, w, start);
  }

  /** Visiting two lists of behaviours one after the other is visiting their concatenation. */
  lemma {:induction false} BehavioursAppend(fuel: nat, env: Env, ctx: Context, owner: EntityInfo, bs: seq<Behaviour>,
                                            cs: seq<Behaviour>, w: World, start: Option<string>)
    ensures var o := VisitBehaviours(fuel, env, ctx, owner, bs, w, start);
      VisitBehaviours(fuel, env, ctx, owner, bs + cs, w, start)
        == if o.error.Some? then o else VisitBehaviours(fuel, env, ctx, owner, cs, o.world, o.startAction)
    decreases |bs|
  {
    if bs == [] {
      assert bs + cs == cs;
    } else {
      assert (bs + cs)[0] == bs[0];
      assert (bs + cs)[1..] == bs[1..] + cs;
      var o := DoSwitchBehaviour(fuel, env, ctx, owner, bs[0], w, start);
      if o.error.None? {
        BehavioursAppend(fuel, env, ctx, owner, bs[1..], cs, o.world, o.startAction);
      }
    }
  }

  /** Without a synchronisation point only the asynchronous behaviours are visited. */
  lemma ForkWithoutSynchronisation(fuel: nat, env: Env, ctx: Context, owner: EntityInfo, asynchronous: seq<Behaviour>,
                                   w: World, start: Option<string>)
    ensures VisitFork(fuel, env, ctx, owner, asynchronous, None, w, start)
         == VisitBehaviours(fuel, env, ctx, owner, asynchronous, w, start)
  {
  }

  /** Visiting two lists of transitions one after the other is visiting their concatenation. */
  lemma {:induction false} TransitionsAppend(fuel: nat, env: Env, ctx: Context, owner: EntityInfo, ts: seq<Transition>,
                                             us: seq<Transition>, w: World, start: Option<string>)
    ensures var o := VisitTransitions(fuel, env, ctx, owner, ts, w, start);
      VisitTransitions(fuel, env, ctx, owner, ts + us, w, start)
        == if o.error.Some? then o else VisitTransitions(fuel, env, ctx, owner, us, o.world, o.startAction)
    decreases |ts|
  {
    if ts == [] {
      assert ts + us == us;
    } else {
      assert (ts + us)[0] == ts[0];
      assert (ts + us)[1..] == ts[1..] + us;
      var o := DoSwitchBehaviour(fuel, env, ctx, owner, ts[0].body, w, start);
      if o.error.None? {
        TransitionsAppend(fuel, env, ctx, owner, ts[1..], us, o.world, o.startAction);
      }
    }
  }

  /**
   * A branch visits its transitions in list order and then its successor: a branch over ts + us
   * gives what visiting ts and then a branch over us gives.
   */
  lemma BranchVisitsInOrder(fuel: nat, env: Env, ctx: Context, owner: EntityInfo, b: Behaviour, id: string,
                            ts: seq<Transition>, us: seq<Transition>, succ: Option<string>, w: World, start: Option<string>)
    ensures var o := VisitTransitions(fuel, env, ctx, owner, ts, w, start);
      VisitAction(fuel, env, ctx, owner, b, BranchAction(id, ts + us, succ), w, start)
        == if o.error.Some? then o else VisitAction(fuel, env, ctx, owner, b, BranchAction(id, us, succ), o.world, o.startAction)
  {
    TransitionsAppend(fuel, env, ctx, owner, ts, us, w, start);
  }

  /** A behaviour whose start action is directly followed by its stop action marks its owner empty. */
  lemma EmptyBehaviourMarksOwnerEmpty(fuel: nat, env: Env, ctx: Context, owner: EntityInfo, startId: string, stopId: string,
                                      w: World, start: Option<string>)
    requires fuel >= 2 && startId != stopId
    ensures var b := Behaviour([StartAction(startId, Some(stopId)), StopAction(stopId, Some(startId))]);
      DoSwitchBehaviour(fuel, env, ctx, owner, b, w, start)
        == Outcome(World(SetEmptyV(w.graph, Key(owner), true), w.demands), Some(startId), None)
  {
    var b := Behaviour([StartAction(startId, Some(stopId)), StopAction(stopId, Some(startId))]);
    assert StartOf(b) == Some(startId);
    assert Find(b, startId) == Some(b.steps[0]);
    assert Find(b, stopId) == Some(b.steps[1]);
    var stopped := Outcome(World(SetEmptyV(w.graph, Key(owner), true), w.demands), Some(startId), None);
    assert VisitAction(fuel - 2, env, ctx, owner, b, b.steps[1], w, Some(startId)) == stopped;
    assert DoSwitch(fuel - 1, env, ctx, owner, b, Some(stopId), w, Some(startId)) == stopped;
    assert VisitAction(fuel - 1, env, ctx, owner, b, b.steps[0], w, start) == stopped;
    assert DoSwitch(fuel, env, ctx, owner, b, Some(startId), w, start) == stopped;
  }

  /** The same behaviour with one action between start and stop marks its owner as not empty. */
  lemma OneActionMarksOwnerNotEmpty(fuel: nat, env: Env, ctx: Context, owner: EntityInfo, startId: string, midId: string,
                                    stopId: string, w: World, start: Option<string>)
    requires fuel >= 3 && startId != midId && midId != stopId && startId != stopId
    ensures var b := Behaviour([StartAction(startId, Some(midId)), SetVariableAction(midId, Some(stopId)),
                                StopAction(stopId, Some(midId))]);
      DoSwitchBehaviour(fuel, env, ctx, owner, b, w, start)
        == Outcome(World(SetEmptyV(w.graph, Key(owner), false), w.demands), Some(startId), None)
  {
    var b := Behaviour([StartAction(startId, Some(midId)), SetVariableAction(midId, Some(stopId)), StopAction(stopId, Some(midId))]);
    assert StartOf(b) == Some(startId);
    assert Find(b, startId) == Some(b.steps[0]);
    assert Find(b, midId) == Some(b.steps[1]);
    assert Find(b, stopId) == Some(b.steps[2]);
    var stopped := Outcome(World(SetEmptyV(w.graph, Key(owner), false), w.demands), Some(startId), None);
    assert VisitAction(fuel - 3, env, ctx, owner, b, b.steps[2], w, Some(startId)) == stopped;
    assert DoSwitch(fuel - 2, env, ctx, owner, b, Some(stopId), w, Some(startId)) == stopped;
    assert VisitAction(fuel - 2, env, ctx, owner, b, b.steps[1], w, Some(startId)) == stopped;
    assert DoSwitch(fuel - 1, env, ctx, owner, b, Some(midId), w, Some(startId)) == stopped;
    assert VisitAction(fuel - 1, env, ctx, owner, b, b.steps[0], w, start) == stopped;
    assert DoSwitch(fuel, env, ctx, owner, b, Some(startId), w, start) == stopped;
  }

  /** A recovery block ends the chain: nothing changes and nothing fails. */
  lemma RecoveryBlockEndsChain(fuel: nat, env: Env, ctx: Context, owner: EntityInfo, b: Behaviour, id: string,
                               w: World, start: Option<string>)
    requires fuel >= 1 && Find(b, id) == Some(RecoveryBlockAction(id))
    ensures DoSwitch(fuel, env, ctx, owner, b, Some(id), w, start) == Outcome(w, start, None)
  {
  }

  /**
   * An external call links its owner to the callee's entity once before any replica is visited,
   * and fails without a callee SEFF before touching the graph.
   */
  lemma ExternalCallLinksFirst(fuel: nat, env: Env, ctx: Context, owner: EntityInfo, b: Behaviour, id: string, name: string,
                               call: CalledService, succ: Option<string>, w: World, start: Option<string>)
    requires WellFormed(w.graph)
    ensures var o := VisitAction(fuel, env, ctx, owner, b, ExternalCallAction(id, name, call, succ), w, start);
      var res := env.resolve(ctx, id);
      && (res.seff.None? ==> o == Outcome(w, start, Some(NullPointer("seff"))))
      && (res.seff.Some? && res.replicas.Success? && res.replicas.value == [] ==>
            var target := TargetOf(res.seff.value, call);
            && o.error == Some(Runtime(NoWrapperMessage(name, id)))
            && LinkCount(o.world.graph, LinkKey(owner, target)) == LinkCount(w.graph, LinkKey(owner, target)) + 1
            && Key(target) in o.world.graph.entities)
  {
    var res := env.resolve(ctx, id);
    if res.seff.Some? {
      var target := TargetOf(res.seff.value, call);
      assert VisitAction(fuel, env, ctx, owner, b, ExternalCallAction(id, name, call, succ), w, start)
          == VisitCallee(fuel, env, ctx, owner, b, id, name, res.seff.value, res.replicas, FoundEntity(w.graph, target), succ,
                         Linked(w, owner, target), start);
      AddLinkCounts(GetEntityV(w.graph, target), owner, FoundEntity(w.graph, target));
    }
  }
}
