/**
 * The action handlers the SEFF visitor delegates to: resource demands of internal actions,
 * and the pieces of the external-call handler that treat a call leaving the system.
 */
module Handlers {
  import opened Wrappers
  import opened Collections
  import opened Pcm
  import opened ContextWrapping

  /** The resource type and container names reserved for calls that leave the system. */
  const SYSTEM_EXTERNAL_RESOURCE := "SystemExternalResource"
  const SYSTEM_EXTERNAL_CONTAINER := "SystemExternalResourceContainer"
  /** The processing rate of the system-external resource. */
  const SYSTEM_EXTERNAL_RATE := "1.0"

  // ---------------------------------------------------------------------------------------
  // InternalActionHandler

  /**
   * getSolvedSpecification, before solving: the demand divided by the processing rate, both
   * parenthesised, the rate multiplied by 1.0 so that an integer division cannot round to 0.
   */
  function CombinedExpression(specification: string, rate: string): string
  {
    "(" + specification + ") / ((" + rate + ")*1.0)"
  }

  const DIVIDER := ") / (("
  const TAIL := ")*1.0)"

  /** Whether `part` occurs in `s` starting at `i`. */
  predicate OccursAt(s: string, part: string, i: nat)
  {
    i + |part| <= |s| && s[i..i + |part|] == part
  }

  /** The first position at which `part` occurs in `s`, searching from `i`. */
  function FirstOccurrence(s: string, part: string, i: nat): (r: Option<nat>)
    requires i <= |s|
    ensures r.Some? ==> (i <= r.value && OccursAt(s, part, r.value)
      && forall j :: i <= j < r.value ==> !OccursAt(s, part, j))
    ensures r.None? ==> forall j :: i <= j <= |s| ==> !OccursAt(s, part, j)
    decreases |s| - i
  {
    if OccursAt(s, part, i) then Some(i)
    else if i == |s| then None
    else FirstOccurrence(s, part, i + 1)
  }

  /**
   * Reads a combined expression back: what lies between the leading "(" and the first
   * ") / ((" is the demand, what lies between that and the trailing ")*1.0)" is the rate.
   */
  function SplitCombined(e: string): Option<(string, string)>
  {
    if |e| < 1 + |DIVIDER| + |TAIL| || e[0] != '(' || e[|e| - |TAIL|..] != TAIL then None
    else
      match FirstOccurrence(e, DIVIDER, 1)
      case None => None
      case Some(k) =>
        if k + |DIVIDER| <= |e| - |TAIL| then Some((e[1..k], e[k + |DIVIDER|..|e| - |TAIL|])) else None
  }

  /** No occurrence of `part` anywhere in `s`. */
  predicate Free(s: string, part: string)
  {
    forall j :: 0 <= j <= |s| ==> !OccursAt(s, part, j)
  }

  /**
   * The demand and the rate can be read back from the combined expression whenever the demand
   * itself holds no ") / ((" (the rate may hold anything).
   */
  lemma CombinedExpressionSplits(specification: string, rate: string)
    requires Free(specification, DIVIDER)
    ensures SplitCombined(CombinedExpression(specification, rate)) == Some((specification, rate))
  {
    var e := CombinedExpression(specification, rate);
    var k := 1 + |specification|;
    assert e == "(" + specification + DIVIDER + rate + TAIL;
    assert e[0] == '(';
    assert e[|e| - |TAIL|..] == TAIL;
    assert OccursAt(e, DIVIDER, k) by {
      assert e[k..k + |DIVIDER|] == DIVIDER;
    }
    forall j | 1 <= j < k
      ensures !OccursAt(e, DIVIDER, j)
    {
      if j + |DIVIDER| <= k {
        // inside the demand, which holds no divider
        assert e[j..j + |DIVIDER|] == specification[j - 1..j - 1 + |DIVIDER|];
        assert !OccursAt(specification, DIVIDER, j - 1);
      } else {
        NoOverlap(e, j, k);
      }
    }
    FirstOccurrenceIs(e, DIVIDER, 1, k);
    assert e[1..k] == specification;
    assert e[k + |DIVIDER|..|e| - |TAIL|] == rate;
  }

  /** ") / ((" cannot start less than its own length before another occurrence of itself. */
  lemma NoOverlap(e: string, j: nat, k: nat)
    requires j < k < j + |DIVIDER| && OccursAt(e, DIVIDER, k)
    ensures !OccursAt(e, DIVIDER, j)
  {
    assert e[k] == ')';
    assert DIVIDER[k - j] != ')';
    if j + |DIVIDER| <= |e| {
      assert e[j..j + |DIVIDER|][k - j] == e[k];
    }
  }

  lemma {:induction false} FirstOccurrenceIs(s: string, part: string, i: nat, k: nat)
    requires i <= k <= |s| && OccursAt(s, part, k)
    requires forall j :: i <= j < k ==> !OccursAt(s, part, j)
    ensures FirstOccurrence(s, part, i) == Some(k)
    decreases k - i
  {
    if i < k {
      FirstOccurrenceIs(s, part, i + 1, k);
    }
  }

  /**
   * The demands an internal action contributes, up to the exception that ended the handling
   * (a system-external container without resource specifications).
   */
  datatype Partial = Partial(items: seq<ResourceDemand>, error: Option<Failure>)

  /** createActualResourceDemand: the demand of `prd` on `prs`, its expression solved in the current context. */
  function ActualDemand(prd: ParametricDemand, prs: ResourceSpec, solve: string -> string): ResourceDemand
  {
    ResourceDemand(prd.id, solve(CombinedExpression(prd.specification, prs.processingRate)))
  }

  /** The first specification of every system-external container, in environment order. */
  function SystemExternalDemands(prd: ParametricDemand, containers: seq<ResourceContainer>, solve: string -> string): (p: Partial)
    ensures p.error.None? ==> |p.items| == |Filter(containers, (c: ResourceContainer) => c.name == SYSTEM_EXTERNAL_CONTAINER)|
    ensures p.error.Some? ==> p.error.value.IndexOutOfBounds?
  {
    if containers == [] then Partial([], None)
    else
      var rest := SystemExternalDemands(prd, containers[..|containers| - 1], solve);
      var c := containers[|containers| - 1];
      if rest.error.Some? || c.name != SYSTEM_EXTERNAL_CONTAINER then rest
      else if c.specs == [] then Partial(rest.items, Some(IndexOutOfBounds("getActiveResourceSpecifications_ResourceContainer().get(0)")))
      else Partial(rest.items + [ActualDemand(prd, c.specs[0], solve)], None)
  }

  /** Whether a processing resource of the container matches the demand: by resource-type entity name. */
  predicate TypeMatches(prd: ParametricDemand, prs: ResourceSpec)
  {
    prs.resourceTypeName == prd.requiredTypeName
  }

  /** One demand per resource specification of the demanded type, in container order. */
  function OrdinaryDemands(prd: ParametricDemand, specs: seq<ResourceSpec>, solve: string -> string): (r: seq<ResourceDemand>)
    ensures |r| <= |specs|
  {
    if specs == [] then []
    else OrdinaryDemands(prd, specs[..|specs| - 1], solve)
         + (if TypeMatches(prd, specs[|specs| - 1]) then [ActualDemand(prd, specs[|specs| - 1], solve)] else [])
  }

  /** The demands one parametric demand yields: one per matching resource specification. */
  function DemandsOf(prd: ParametricDemand, container: ResourceContainer, environment: seq<ResourceContainer>,
                     solve: string -> string): Partial
  {
    if prd.requiredTypeName == SYSTEM_EXTERNAL_RESOURCE then SystemExternalDemands(prd, environment, solve)
    else Partial(OrdinaryDemands(prd, container.specs, solve), None)
  }

  /** Exactly the specifications of the demanded type yield a demand each. */
  lemma {:induction false} OrdinaryDemandsCount(prd: ParametricDemand, specs: seq<ResourceSpec>, solve: string -> string)
    ensures |OrdinaryDemands(prd, specs, solve)| == |Filter(specs, (prs: ResourceSpec) => TypeMatches(prd, prs))|
    ensures forall d :: d in OrdinaryDemands(prd, specs, solve) ==> d.demandId == prd.id
  {
    if specs != [] {
      OrdinaryDemandsCount(prd, specs[..|specs| - 1], solve);
    }
  }

  /** The demands of all parametric demands of the action, in order, up to the first exception. */
  function ActionDemands(prds: seq<ParametricDemand>, container: ResourceContainer, environment: seq<ResourceContainer>,
                         solve: string -> string): Partial
  {
    if prds == [] then Partial([], None)
    else
      var before := ActionDemands(prds[..|prds| - 1], container, environment, solve);
      if before.error.Some? then before
      else
        var last := DemandsOf(prds[|prds| - 1], container, environment, solve);
        Partial(before.items + last.items, last.error)
  }

  /** A demand of an ordinary resource type that the container does not offer records nothing. */
  lemma NoMatchNoDemand(prd: ParametricDemand, container: ResourceContainer, environment: seq<ResourceContainer>, solve: string -> string)
    requires prd.requiredTypeName != SYSTEM_EXTERNAL_RESOURCE
    requires forall k :: 0 <= k < |container.specs| ==> container.specs[k].resourceTypeName != prd.requiredTypeName
    ensures DemandsOf(prd, container, environment, solve) == Partial([], None)
  {
    NoMatchNone(prd, container.specs, solve);
  }

  lemma {:induction false} NoMatchNone(prd: ParametricDemand, specs: seq<ResourceSpec>, solve: string -> string)
    requires forall k :: 0 <= k < |specs| ==> specs[k].resourceTypeName != prd.requiredTypeName
    ensures OrdinaryDemands(prd, specs, solve) == []
  {
    if specs != [] {
      NoMatchNone(prd, specs[..|specs| - 1], solve);
    }
  }

  /** Every recorded demand refers to a parametric demand of the action, and carries its solved expression. */
  lemma {:induction false} DemandsReferToAction(prds: seq<ParametricDemand>, container: ResourceContainer,
                                                environment: seq<ResourceContainer>, solve: string -> string)
    ensures forall d :: d in ActionDemands(prds, container, environment, solve).items ==>
      exists prd :: prd in prds && d.demandId == prd.id
  {
    if prds != [] {
      var prefix := prds[..|prds| - 1];
      DemandsReferToAction(prefix, container, environment, solve);
      OneDemandRefers(prds[|prds| - 1], container, environment, solve);
      assert forall prd :: prd in prefix ==> prd in prds;
    }
  }

  lemma {:induction false} SystemExternalRefers(prd: ParametricDemand, containers: seq<ResourceContainer>, solve: string -> string)
    ensures forall d :: d in SystemExternalDemands(prd, containers, solve).items ==> d.demandId == prd.id
  {
    if containers != [] {
      SystemExternalRefers(prd, containers[..|containers| - 1], solve);
    }
  }

  lemma OneDemandRefers(prd: ParametricDemand, container: ResourceContainer, environment: seq<ResourceContainer>, solve: string -> string)
    ensures forall d :: d in DemandsOf(prd, container, environment, solve).items ==> d.demandId == prd.id
  {
    if prd.requiredTypeName == SYSTEM_EXTERNAL_RESOURCE {
      SystemExternalRefers(prd, environment, solve);
    } else {
      OrdinaryDemandsCount(prd, container.specs, solve);
    }
  }

  /**
   * What the handling has appended so far: to the computed allocation context when there is
   * one (after the demands `before` it held), and nothing without one.
   */
  ghost predicate Appended(compAllCtx: Option<ComputedAllocationContext>, before: seq<ResourceDemand>, added: seq<ResourceDemand>)
    reads if compAllCtx.Some? then {compAllCtx.value} else {}
  {
    if compAllCtx.Some? then compAllCtx.value.resourceDemands == before + added else added == []
  }

  /**
   * handle: appends, in order, one resource demand per (parametric demand, matching resource
   * specification) pair to the computed allocation context; the demands already there are
   * kept. A missing computed allocation context fails at the first append.
   */
  method HandleInternalAction(prds: seq<ParametricDemand>, container: ResourceContainer, environment: seq<ResourceContainer>,
                              solve: string -> string, compAllCtx: Option<ComputedAllocationContext>)
    returns (error: Option<Failure>)
    modifies if compAllCtx.Some? then {compAllCtx.value} else {}
    ensures var p := ActionDemands(prds, container, environment, solve);
      && (compAllCtx.Some? ==> compAllCtx.value.resourceDemands == old(compAllCtx.value.resourceDemands) + p.items && error == p.error)
      && (compAllCtx.None? ==> error == if p.items == [] then p.error else Some(NullPointer("compAllCtx")))
  {
    var i := 0;
    ghost var before := if compAllCtx.Some? then compAllCtx.value.resourceDemands else [];
    ghost var added: seq<ResourceDemand> := [];
    while i < |prds|
      invariant 0 <= i <= |prds|
      invariant ActionDemands(prds[..i], container, environment, solve) == Partial(added, None)
      invariant Appended(compAllCtx, before, added)
    {
      ghost var p := DemandsOf(prds[i], container, environment, solve);
      InternalStep(prds, i, container, environment, solve, added);
      assert (before + added) + p.items == before + (added + p.items);
      var e, _ := HandleOneDemand(prds[i], container, environment, solve, compAllCtx);
      if e.Some? {
        return e;
      }
      assert Appended(compAllCtx, before, added + p.items);
      added := added + p.items;
      i := i + 1;
    }
    assert prds[..i] == prds;
    return None;
  }

  /**
   * The handling of demand i after a prefix handled without exception: either it ends in an
   * exception, which is then the outcome of the whole action, or the next prefix is handled
   * without one; in both cases what is recorded so far comes first in the whole record.
   */
  lemma InternalStep(prds: seq<ParametricDemand>, i: nat, container: ResourceContainer,
                     environment: seq<ResourceContainer>, solve: string -> string, added: seq<ResourceDemand>)
    requires i < |prds| && ActionDemands(prds[..i], container, environment, solve) == Partial(added, None)
    ensures var p := DemandsOf(prds[i], container, environment, solve);
      && (p.error.None? ==> ActionDemands(prds[..i + 1], container, environment, solve) == Partial(added + p.items, None))
      && (p.error.Some? ==> ActionDemands(prds, container, environment, solve) == Partial(added + p.items, p.error))
      && added + p.items <= ActionDemands(prds, container, environment, solve).items
  {
    ActionDemandsStep(prds, i, container, environment, solve);
    StopAtDemand(prds, i, container, environment, solve);
  }

  /**
   * When the handling of demand i ends in an exception (or, without a computed allocation
   * context, records something), the outcome of the whole action is that of the prefix up to i.
   */
  lemma StopAtDemand(prds: seq<ParametricDemand>, i: nat, container: ResourceContainer,
                     environment: seq<ResourceContainer>, solve: string -> string)
    requires i < |prds|
    ensures var whole := ActionDemands(prds, container, environment, solve);
      var upTo := ActionDemands(prds[..i + 1], container, environment, solve);
      && upTo.items <= whole.items
      && (upTo.error.Some? ==> whole == upTo)
  {
    ActionDemandsExtends(prds, i + 1, container, environment, solve);
  }

  /** The handling of one more parametric demand, after a prefix handled without exception. */
  lemma ActionDemandsStep(prds: seq<ParametricDemand>, i: nat, container: ResourceContainer,
                          environment: seq<ResourceContainer>, solve: string -> string)
    requires i < |prds| && ActionDemands(prds[..i], container, environment, solve).error.None?
    ensures var p := DemandsOf(prds[i], container, environment, solve);
      ActionDemands(prds[..i + 1], container, environment, solve)
        == Partial(ActionDemands(prds[..i], container, environment, solve).items + p.items, p.error)
  {
    assert prds[..i + 1][..i] == prds[..i];
  }

  /**
   * The demands of a prefix come first among those of the whole list, and once the handling of a
   * prefix ends in an exception, the whole list ends with the same.
   */
  lemma {:induction false} ActionDemandsExtends(prds: seq<ParametricDemand>, n: nat, container: ResourceContainer,
                                                environment: seq<ResourceContainer>, solve: string -> string)
    requires n <= |prds|
    ensures ActionDemands(prds[..n], container, environment, solve).items <= ActionDemands(prds, container, environment, solve).items
    ensures ActionDemands(prds[..n], container, environment, solve).error.Some? ==>
      ActionDemands(prds, container, environment, solve) == ActionDemands(prds[..n], container, environment, solve)
    decreases |prds| - n
  {
    if n < |prds| {
      assert prds[..|prds| - 1][..n] == prds[..n];
      ActionDemandsExtends(prds[..|prds| - 1], n, container, environment, solve);
    } else {
      assert prds[..n] == prds;
    }
  }

  /** The handling of one parametric demand. */
  method HandleOneDemand(prd: ParametricDemand, container: ResourceContainer, environment: seq<ResourceContainer>,
                         solve: string -> string, compAllCtx: Option<ComputedAllocationContext>)
    returns (error: Option<Failure>, ghost items: seq<ResourceDemand>)
    modifies if compAllCtx.Some? then {compAllCtx.value} else {}
    ensures var p := DemandsOf(prd, container, environment, solve);
      && items == p.items
      && (compAllCtx.Some? ==> compAllCtx.value.resourceDemands == old(compAllCtx.value.resourceDemands) + p.items && error == p.error)
      && (compAllCtx.None? ==> error == if p.items == [] then p.error else Some(NullPointer("compAllCtx")))
  {
    items := DemandsOf(prd, container, environment, solve).items;
    if prd.requiredTypeName == SYSTEM_EXTERNAL_RESOURCE {
      error := HandleSystemExternalDemand(prd, environment, solve, compAllCtx);
    } else {
      error := HandleOrdinaryDemand(prd, container.specs, solve, compAllCtx);
    }
  }

  /** A system-external demand: the first specification of every system-external container. */
  method HandleSystemExternalDemand(prd: ParametricDemand, resConList: seq<ResourceContainer>,
                                    solve: string -> string, compAllCtx: Option<ComputedAllocationContext>)
    returns (error: Option<Failure>)
    modifies if compAllCtx.Some? then {compAllCtx.value} else {}
    ensures var p := SystemExternalDemands(prd, resConList, solve);
      && (compAllCtx.Some? ==> compAllCtx.value.resourceDemands == old(compAllCtx.value.resourceDemands) + p.items && error == p.error)
      && (compAllCtx.None? ==> error == if p.items == [] then p.error else Some(NullPointer("compAllCtx")))
  {
    var j := 0;
    ghost var before := if compAllCtx.Some? then compAllCtx.value.resourceDemands else [];
    ghost var added: seq<ResourceDemand> := [];
    while j < |resConList|
      invariant 0 <= j <= |resConList|
      invariant SystemExternalDemands(prd, resConList[..j], solve) == Partial(added, None)
      invariant Appended(compAllCtx, before, added)
    {
      SystemExternalStep(prd, resConList, j, solve);
      var resCon := resConList[j];
      if resCon.name == SYSTEM_EXTERNAL_CONTAINER {
        if |resCon.specs| == 0 {
          SystemExternalStop(prd, resConList, j + 1, solve);
          return Some(IndexOutOfBounds("getActiveResourceSpecifications_ResourceContainer().get(0)"));
        }
        if compAllCtx.None? {
          SystemExternalGrows(prd, resConList, j + 1, solve);
          return Some(NullPointer("compAllCtx"));
        }
        assert (before + added) + [ActualDemand(prd, resCon.specs[0], solve)] == before + (added + [ActualDemand(prd, resCon.specs[0], solve)]);
        compAllCtx.value.AddResourceDemand(ActualDemand(prd, resCon.specs[0], solve));
        added := added + [ActualDemand(prd, resCon.specs[0], solve)];
      }
      j := j + 1;
    }
    assert resConList[..j] == resConList;
    return None;
  }

  /** An ordinary demand: every resource specification of the container with the demanded type. */
  method HandleOrdinaryDemand(prd: ParametricDemand, resourceList: seq<ResourceSpec>,
                              solve: string -> string, compAllCtx: Option<ComputedAllocationContext>)
    returns (error: Option<Failure>)
    modifies if compAllCtx.Some? then {compAllCtx.value} else {}
    ensures var items := OrdinaryDemands(prd, resourceList, solve);
      && (compAllCtx.Some? ==> compAllCtx.value.resourceDemands == old(compAllCtx.value.resourceDemands) + items && error.None?)
      && (compAllCtx.None? ==> error == if items == [] then None else Some(NullPointer("compAllCtx")))
  {
    var j := 0;
    while j < |resourceList|
      invariant 0 <= j <= |resourceList|
      invariant compAllCtx.Some? ==>
        compAllCtx.value.resourceDemands == old(compAllCtx.value.resourceDemands) + OrdinaryDemands(prd, resourceList[..j], solve)
      invariant compAllCtx.None? ==> OrdinaryDemands(prd, resourceList[..j], solve) == []
    {
      assert resourceList[..j + 1][..j] == resourceList[..j];
      var prs := resourceList[j];
      if prs.resourceTypeName == prd.requiredTypeName {
        if compAllCtx.None? {
          OrdinaryDemandsGrow(prd, resourceList, j + 1, solve);
          return Some(NullPointer("compAllCtx"));
        }
        compAllCtx.value.AddResourceDemand(ActualDemand(prd, prs, solve));
      }
      j := j + 1;
    }
    assert resourceList[..j] == resourceList;
    return None;
  }

  lemma {:induction false} OrdinaryDemandsGrow(prd: ParametricDemand, specs: seq<ResourceSpec>, n: nat, solve: string -> string)
    requires 0 < n <= |specs| && TypeMatches(prd, specs[n - 1])
    ensures OrdinaryDemands(prd, specs, solve) != []
    decreases |specs| - n
  {
    if n < |specs| {
      OrdinaryDemandsGrow(prd, specs[..|specs| - 1], n, solve);
    } else {
      assert specs[..|specs| - 1] + [specs[|specs| - 1]] == specs;
    }
  }

  /** One more container: SystemExternalDemands on a prefix, one step at a time. */
  lemma SystemExternalStep(prd: ParametricDemand, cs: seq<ResourceContainer>, j: nat, solve: string -> string)
    requires j < |cs|
    ensures var rest := SystemExternalDemands(prd, cs[..j], solve);
      SystemExternalDemands(prd, cs[..j + 1], solve)
        == if rest.error.Some? || cs[j].name != SYSTEM_EXTERNAL_CONTAINER then rest
           else if cs[j].specs == [] then Partial(rest.items, Some(IndexOutOfBounds("getActiveResourceSpecifications_ResourceContainer().get(0)")))
           else Partial(rest.items + [ActualDemand(prd, cs[j].specs[0], solve)], None)
  {
    assert cs[..j + 1][..j] == cs[..j];
  }

  lemma {:induction false} SystemExternalStop(prd: ParametricDemand, cs: seq<ResourceContainer>, n: nat, solve: string -> string)
    requires 0 < n <= |cs| && cs[n - 1].name == SYSTEM_EXTERNAL_CONTAINER && cs[n - 1].specs == []
    requires SystemExternalDemands(prd, cs[..n - 1], solve).error.None?
    ensures SystemExternalDemands(prd, cs, solve) == Partial(SystemExternalDemands(prd, cs[..n - 1], solve).items,
      Some(IndexOutOfBounds("getActiveResourceSpecifications_ResourceContainer().get(0)")))
    decreases |cs| - n
  {
    if n < |cs| {
      assert cs[..|cs| - 1][..n - 1] == cs[..n - 1];
      SystemExternalStop(prd, cs[..|cs| - 1], n, solve);
    } else {
      assert cs[..|cs| - 1] == cs[..n - 1];
    }
  }

  lemma {:induction false} SystemExternalGrows(prd: ParametricDemand, cs: seq<ResourceContainer>, n: nat, solve: string -> string)
    requires 0 < n <= |cs| && cs[n - 1].name == SYSTEM_EXTERNAL_CONTAINER && cs[n - 1].specs != []
    requires SystemExternalDemands(prd, cs[..n - 1], solve).error.None?
    ensures SystemExternalDemands(prd, cs, solve).items != []
    decreases |cs| - n
  {
    if n < |cs| {
      assert cs[..|cs| - 1][..n - 1] == cs[..n - 1];
      SystemExternalGrows(prd, cs[..|cs| - 1], n, solve);
    } else {
      assert cs[..|cs| - 1] == cs[..n - 1];
    }
  }

  // ---------------------------------------------------------------------------------------
  // ExternalCallActionHandler, for a call without a callee SEFF

  /** The role a QoS annotation is attached to; only operation-required roles are considered. */
  datatype AnnotatedRole = OperationRequiredRole(interfaceName: string) | OtherRole

  datatype QosAnnotation =
    | SpecifiedExecutionTime(role: AnnotatedRole, signatureName: string, specification: string)
    | OtherAnnotation

  /** An execution time given for the required interface and the signature, both by entity name. */
  predicate TimeFor(a: QosAnnotation, interfaceName: string, signatureName: string)
  {
    a.SpecifiedExecutionTime? && a.role.OperationRequiredRole? && a.role.interfaceName == interfaceName
    && a.signatureName == signatureName
  }

  function FlattenAnnotations(annList: seq<seq<QosAnnotation>>): seq<QosAnnotation>
  {
    if annList == [] then [] else FlattenAnnotations(annList[..|annList| - 1]) + annList[|annList| - 1]
  }

  /** The specification of the first execution time for the call, or "0". */
  function TimeSpecification(annList: seq<seq<QosAnnotation>>, interfaceName: string, signatureName: string): string
  {
    var all := FlattenAnnotations(annList);
    match FirstWhere(all, TimeMatcher(interfaceName, signatureName))
    case None => "0"
    case Some(k) => all[k].specification
  }

  /** The annotations giving an execution time for the call. */
  function TimeMatcher(interfaceName: string, signatureName: string): QosAnnotation -> bool
  {
    (a: QosAnnotation) => TimeFor(a, interfaceName, signatureName)
  }

  /** getTimeSpecification: the nested search over the system's annotation groups. */
  method GetTimeSpecification(annList: seq<seq<QosAnnotation>>, interfaceName: string, signatureName: string)
    returns (spec: string)
    ensures spec == TimeSpecification(annList, interfaceName, signatureName)
  {
    ghost var p := TimeMatcher(interfaceName, signatureName);
    var i := 0;
    while i < |annList|
      invariant 0 <= i <= |annList|
      invariant FirstWhere(FlattenAnnotations(annList[..i]), p).None?
    {
      assert annList[..i + 1][..i] == annList[..i];
      assert FlattenAnnotations(annList[..i + 1]) == FlattenAnnotations(annList[..i]) + annList[i];
      var found, s := SearchGroup(FlattenAnnotations(annList[..i]), annList[i], interfaceName, signatureName);
      if found {
        FlattenKeeps(annList, i + 1, p);
        return s;
      }
      i := i + 1;
    }
    assert annList[..i] == annList;
    return "0";
  }

  /** The inner loop of getTimeSpecification: one annotation group, after groups without a match. */
  method SearchGroup(ghost before: seq<QosAnnotation>, timeList: seq<QosAnnotation>, interfaceName: string, signatureName: string)
    returns (found: bool, spec: string)
    requires FirstWhere(before, TimeMatcher(interfaceName, signatureName)).None?
    ensures var r := FirstWhere(before + timeList, TimeMatcher(interfaceName, signatureName));
      && (found <==> r.Some?)
      && (found ==> (before + timeList)[r.value].specification == spec)
  {
    ghost var p := TimeMatcher(interfaceName, signatureName);
    var j := 0;
    while j < |timeList|
      invariant 0 <= j <= |timeList|
      invariant FirstWhere(before + timeList[..j], p).None?
    {
      var annotation := timeList[j];
      FirstWhereAppend(before + timeList[..j], annotation, p);
      assert timeList[..j + 1] == timeList[..j] + [annotation];
      assert before + timeList[..j + 1] == before + timeList[..j] + [annotation];
      if annotation.SpecifiedExecutionTime? && annotation.role.OperationRequiredRole?
         && annotation.role.interfaceName == interfaceName && annotation.signatureName == signatureName {
        FirstWhereKeeps(before + timeList[..j + 1], timeList[j + 1..], p);
        assert timeList[..j + 1] + timeList[j + 1..] == timeList;
        assert before + timeList[..j + 1] + timeList[j + 1..] == before + timeList;
        return true, annotation.specification;
      }
      j := j + 1;
    }
    assert timeList[..j] == timeList;
    return false, "";
  }

  lemma {:induction false} FirstWhereKeeps<T>(s: seq<T>, t: seq<T>, p: T -> bool)
    requires FirstWhere(s, p).Some?
    ensures FirstWhere(s + t, p) == FirstWhere(s, p)
    decreases |t|
  {
    if t != [] {
      FirstWhereKeeps(s, t[..|t| - 1], p);
      FirstWhereAppend(s + t[..|t| - 1], t[|t| - 1], p);
      assert s + t[..|t| - 1] + [t[|t| - 1]] == s + t;
    } else {
      assert s + t == s;
    }
  }

  lemma {:induction false} FlattenKeeps(annList: seq<seq<QosAnnotation>>, n: nat, p: QosAnnotation -> bool)
    requires n <= |annList| && FirstWhere(FlattenAnnotations(annList[..n]), p).Some?
    ensures FirstWhere(FlattenAnnotations(annList), p) == FirstWhere(FlattenAnnotations(annList[..n]), p)
    ensures FlattenAnnotations(annList[..n]) <= FlattenAnnotations(annList)
    decreases |annList| - n
  {
    if n < |annList| {
      assert annList[..|annList| - 1][..n] == annList[..n];
      FlattenKeeps(annList[..|annList| - 1], n, p);
      FirstWhereKeeps(FlattenAnnotations(annList[..|annList| - 1]), annList[|annList| - 1], p);
    } else {
      assert annList[..n] == annList;
    }
  }

  /** Without any execution time for the call, the boundary demand is "0". */
  lemma NoAnnotationZeroDemand(annList: seq<seq<QosAnnotation>>, interfaceName: string, signatureName: string)
    requires forall a :: a in FlattenAnnotations(annList) ==> !TimeFor(a, interfaceName, signatureName)
    ensures TimeSpecification(annList, interfaceName, signatureName) == "0"
  {
    var all := FlattenAnnotations(annList);
    assert forall k :: 0 <= k < |all| ==> all[k] in all;
  }

  /**
   * One step after createInternalAction's two reference updates. PCM's successor and predecessor
   * references are opposites: making the call the new action's predecessor makes the new action
   * the call's successor, and making the call's former successor the new action's successor makes
   * the new action that step's predecessor. Every other step is kept.
   */
  function Rewired(step: Action, call: Action, actionId: string): (r: Action)
    requires call.ExternalCallAction?
    ensures r.id == step.id
    ensures step.ExternalCallAction? && step.id == call.id ==>
      r == ExternalCallAction(step.id, step.name, step.call, Some(actionId))
    ensures step.StopAction? && call.successor == Some(step.id) ==> r == StopAction(step.id, Some(actionId))
    ensures step.InternalAction? && call.successor == Some(step.id) ==>
      r == InternalAction(step.id, step.demands, step.successor, Some(actionId))
    ensures (!step.ExternalCallAction? || step.id != call.id) &&
            (!(step.StopAction? || step.InternalAction?) || call.successor != Some(step.id)) ==>
      r == step
  {
    match step
    case ExternalCallAction(id, name, service, _) =>
      if id == call.id then ExternalCallAction(id, name, service, Some(actionId)) else step
    case StopAction(id, _) =>
      if call.successor == Some(id) then StopAction(id, Some(actionId)) else step
    case InternalAction(id, demands, successor, _) =>
      if call.successor == Some(id) then InternalAction(id, demands, successor, Some(actionId)) else step
    case _ => step
  }

  /** The behaviour's steps once `action` is put into the control flow after `call` and added to them. */
  function SpliceAfter(steps: seq<Action>, call: Action, action: Action): (r: seq<Action>)
    requires call.ExternalCallAction?
    ensures |r| == |steps| + 1 && r[|steps|] == action
    ensures forall i :: 0 <= i < |steps| ==> r[i] == Rewired(steps[i], call, action.id)
  {
    seq(|steps|, i requires 0 <= i < |steps| => Rewired(steps[i], call, action.id)) + [action]
  }

  /**
   * createInternalAction: the synthetic action standing in for the call, with one demand of the
   * given specification on the given resource type, put into the control flow between the call
   * and its former successor and added to the behaviour's steps. The ids are the ones the model
   * factory assigns.
   */
  method CreateInternalAction(timeSpecification: string, call: Action, steps: seq<Action>, resourceTypeName: string,
                              actionId: string, demandId: string)
    returns (newSteps: seq<Action>)
    requires call.ExternalCallAction?
    ensures |newSteps| == |steps| + 1
    ensures var a := newSteps[|steps|];
      && a.InternalAction? && a.id == actionId
      && a.demands == [ParametricDemand(demandId, resourceTypeName, timeSpecification)]
      && a.successor == call.successor && a.predecessor == Some(call.id)
    ensures newSteps == SpliceAfter(steps, call, newSteps[|steps|])
  {
    var demand := ParametricDemand(demandId, resourceTypeName, timeSpecification);
    var action := InternalAction(actionId, [demand], call.successor, Some(call.id));
    newSteps := SpliceAfter(steps, call, action);
  }

  predicate IsSystemExternalContainer(c: ResourceContainer)
  {
    c.name == SYSTEM_EXTERNAL_CONTAINER
  }

  /** The container createNewProcessingResourceType adds: one resource of the system-external type at rate 1.0. */
  function SystemExternalContainer(id: string): ResourceContainer
  {
    ResourceContainer(id, SYSTEM_EXTERNAL_CONTAINER, [ResourceSpec(SYSTEM_EXTERNAL_RESOURCE, SYSTEM_EXTERNAL_RATE)])
  }

  /** The resource containers of the environment and the resource types of the repository, by name. */
  class ResourceEnvironment {
    var containers: seq<ResourceContainer>
    var resourceTypes: seq<string>

    constructor (containers: seq<ResourceContainer>, resourceTypes: seq<string>)
      ensures this.containers == containers && this.resourceTypes == resourceTypes
    {
      this.containers := containers;
      this.resourceTypes := resourceTypes;
    }

    /**
     * getProcessingResourceType: the type of the first resource of the first system-external
     * container; without such a container one type and one container are created and
     * registered. Either way a second call finds a container and creates nothing.
     */
    method GetProcessingResourceType(newContainerId: string) returns (r: Result<string>)
      modifies this
      ensures var found := FirstWhere(old(containers), IsSystemExternalContainer);
        && (found.Some? ==>
              && containers == old(containers) && resourceTypes == old(resourceTypes)
              && var c := old(containers)[found.value];
                 r == if c.specs == [] then Fail(IndexOutOfBounds("get(0)")) else Success(c.specs[0].resourceTypeName))
        && (found.None? ==>
              && containers == old(containers) + [SystemExternalContainer(newContainerId)]
              && resourceTypes == old(resourceTypes) + [SYSTEM_EXTERNAL_RESOURCE]
              && r == Success(SYSTEM_EXTERNAL_RESOURCE))
      ensures var again := FirstWhere(containers, IsSystemExternalContainer);
        again.Some? && (r.Success? ==> containers[again.value].specs != [] && containers[again.value].specs[0].resourceTypeName == r.value)
    {
      var i := 0;
      while i < |containers|
        invariant 0 <= i <= |containers|
        invariant forall j :: 0 <= j < i ==> !IsSystemExternalContainer(containers[j])
      {
        var resCon := containers[i];
        if resCon.name == SYSTEM_EXTERNAL_CONTAINER {
          if resCon.specs == [] {
            return Fail(IndexOutOfBounds("get(0)"));
          }
          return Success(resCon.specs[0].resourceTypeName);
        }
        i := i + 1;
      }
      FirstWhereAppend(containers, SystemExternalContainer(newContainerId), IsSystemExternalContainer);
      r := CreateNewProcessingResourceType(newContainerId);
    }

    /** createNewProcessingResourceType: registers the type and adds the container that offers it. */
    method CreateNewProcessingResourceType(newContainerId: string) returns (r: Result<string>)
      modifies this
      ensures resourceTypes == old(resourceTypes) + [SYSTEM_EXTERNAL_RESOURCE]
      ensures containers == old(containers) + [SystemExternalContainer(newContainerId)]
      ensures r == Success(SYSTEM_EXTERNAL_RESOURCE)
    {
      var resType := SYSTEM_EXTERNAL_RESOURCE;
      resourceTypes := resourceTypes + [resType];
      var res := ResourceSpec(resType, SYSTEM_EXTERNAL_RATE);
      var resCon := ResourceContainer(newContainerId, SYSTEM_EXTERNAL_CONTAINER, [res]);
      containers := containers + [resCon];
      r := Success(resType);
    }
  }

  /**
   * The boundary path of handle: the time specification for the call, and one synthetic internal
   * action demanding it from the system-external resource, put into the control flow after the call.
   */
  method HandleSystemExternalCall(call: Action, steps: seq<Action>, annList: seq<seq<QosAnnotation>>,
                                  environment: ResourceEnvironment, newContainerId: string, actionId: string, demandId: string)
    returns (r: Result<seq<Action>>)
    requires call.ExternalCallAction?
    modifies environment
    ensures r.Success? ==>
      && |r.value| == |steps| + 1 && r.value == SpliceAfter(steps, call, r.value[|steps|])
      && var a := r.value[|steps|];
         a.InternalAction? && a.successor == call.successor && a.predecessor == Some(call.id)
         && |a.demands| == 1
         && a.demands[0].specification == TimeSpecification(annList, call.call.interfaceName, call.call.signatureName)
    ensures FirstWhere(old(environment.containers), IsSystemExternalContainer).None? ==>
      r.Success? && r.value[|steps|].demands[0].requiredTypeName == SYSTEM_EXTERNAL_RESOURCE
  {
    var timeSpecification := GetTimeSpecification(annList, call.call.interfaceName, call.call.signatureName);
    var resourceType := environment.GetProcessingResourceType(newContainerId);
    if resourceType.Fail? {
      return Fail(resourceType.error);
    }
    var newSteps := CreateInternalAction(timeSpecification, call, steps, resourceType.value, actionId, demandId);
    return Success(newSteps);
  }
}
