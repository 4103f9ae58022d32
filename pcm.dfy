/**
 * The parts of a Palladio component model the interpreter reads, as values with string ids.
 * Object identity of model elements is their id; EMF ids are unique.
 */
module Pcm {
  import opened Wrappers

  /** A ProcessingResourceSpecification: the entity name of its resource type and its processing rate expression. */
  datatype ResourceSpec = ResourceSpec(resourceTypeName: string, processingRate: string)

  /** A ResourceContainer with its processing resources, in model order. */
  datatype ResourceContainer = ResourceContainer(id: string, name: string, specs: seq<ResourceSpec>)

  /** A ParametricResourceDemand: its id, the entity name of the required resource type, the demand expression. */
  datatype ParametricDemand = ParametricDemand(id: string, requiredTypeName: string, specification: string)

  /** A computed ResourceDemand: the parametric demand it was computed for and its solved expression. */
  datatype ResourceDemand = ResourceDemand(demandId: string, specification: string)

  /** A branch transition: guarded or probabilistic, with the behaviour it branches to. */
  datatype Transition = Transition(id: string, guarded: bool, body: Behaviour)

  /**
   * The SEFF actions. Successors and predecessors are action ids within the same behaviour;
   * a missing one is None (a null reference).
   */
  datatype Action =
    | StartAction(id: string, successor: Option<string>)
    | StopAction(id: string, predecessor: Option<string>)
    | InternalAction(id: string, demands: seq<ParametricDemand>, successor: Option<string>, predecessor: Option<string>)
    | ExternalCallAction(id: string, name: string, call: CalledService, successor: Option<string>)
    | SetVariableAction(id: string, successor: Option<string>)
    | BranchAction(id: string, transitions: seq<Transition>, successor: Option<string>)
    | LoopAction(id: string, body: Behaviour, successor: Option<string>)
    | CollectionIteratorAction(id: string, body: Behaviour, successor: Option<string>)
    | ForkAction(id: string, asynchronous: seq<Behaviour>, synchronous: Option<seq<Behaviour>>, successor: Option<string>)
    | AcquireAction(id: string, successor: Option<string>)
    | ReleaseAction(id: string, successor: Option<string>)
    | RecoveryBlockAction(id: string)

  /** What an external call names: the signature, and the required role with its interface. */
  datatype CalledService = CalledService(
    signatureName: string, signatureId: string,
    interfaceName: string, interfaceId: string,
    roleId: string)

  /** A ResourceDemandingBehaviour: its steps, in model order. */
  datatype Behaviour = Behaviour(steps: seq<Action>)

  /** A ResourceDemandingSEFF with the basic component it belongs to. */
  datatype Seff = Seff(componentName: string, componentId: string, behaviour: Behaviour)
}
