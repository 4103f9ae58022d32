/**
 * ContextWrapper: the stack of assembly contexts a SEFF is called in, the search for the
 * providing side of an external call, variable-usage matching, and find-or-create of
 * computed allocation contexts. Composition and allocation models are values with string ids.
 */
module ContextWrapping {
  import opened Wrappers
  import opened Collections
  import opened Text
  import opened Pcm

  // ---------------------------------------------------------------------------------------
  // Composition and allocation

  /** The component an assembly context encapsulates. */
  datatype Component =
    | BasicComponent(id: string, name: string)
    | ComposedStructure(id: string, name: string, connectors: seq<Connector>)
    | OtherComponent(id: string, name: string)

  datatype Connector =
    | AssemblyConnector(requiringContextId: string, requiredRoleId: string, requiredInterfaceId: string,
                        providingContext: AssemblyContext, providedRoleId: string)
    | ProvidedDelegationConnector(outerRoleId: string, innerRoleId: string, inner: AssemblyContext)
    | RequiredDelegationConnector(innerRoleId: string, innerInterfaceId: string, outerRoleId: string)

  datatype AssemblyContext = AssemblyContext(id: string, name: string, component: Component)

  /** An allocation context: the assembly context it deploys and the container it deploys it on. */
  datatype AllocationContext = AllocationContext(id: string, assemblyContextId: string, container: ResourceContainer)

  // ---------------------------------------------------------------------------------------
  // getAssCtxs: descending through provided delegation connectors

  /** The contexts the descent appends, and the exception that ended it, if any. */
  datatype Descent = Descent(path: seq<AssemblyContext>, error: Option<Failure>)

  function ComposedMessage(name: string): string
  {
    "Could not handle inner AssemblyContexts of ComposedStructure " + name + ". Make sure to define the internals properly."
  }

  predicate DelegatesRole(c: Connector, roleId: string)
  {
    c.ProvidedDelegationConnector? && c.outerRoleId == roleId
  }

  /**
   * The descent from `ac` through the first provided delegation connector of each composed
   * structure whose outer role is the role asked for, down to a basic component.
   */
  function Descend(ac: AssemblyContext, roleId: string): Descent
    decreases ac
  {
    match ac.component
    case BasicComponent(_, _) => Descent([ac], None)
    case ComposedStructure(_, name, connectors) =>
      (match FirstWhere(connectors, (c: Connector) => DelegatesRole(c, roleId))
       case None => Descent([], Some(UnsupportedOperation(ComposedMessage(name))))
       case Some(i) =>
         var inner := Descend(connectors[i].inner, connectors[i].innerRoleId);
         Descent([ac] + inner.path, inner.error))
    case OtherComponent(_, _) => Descent([], Some(UnsupportedOperation("")))
  }

  /** What getAssCtxs returns for a list: the list extended by the descent, or the exception. */
  function Extend(ac: AssemblyContext, roleId: string, list: seq<AssemblyContext>): Result<seq<AssemblyContext>>
  {
    var d := Descend(ac, roleId);
    if d.error.None? then Success(list + d.path) else Fail(d.error.value)
  }

  /**
   * A completed descent ends at a basic component and passes only through composed
   * structures; a failed one appends no basic component.
   */
  lemma {:induction false} DescentShape(ac: AssemblyContext, roleId: string)
    ensures var d := Descend(ac, roleId);
      d.error.None? ==> (|d.path| > 0 && d.path[|d.path| - 1].component.BasicComponent?
        && forall k :: 0 <= k < |d.path| - 1 ==> d.path[k].component.ComposedStructure?)
    ensures var d := Descend(ac, roleId);
      d.error.Some? ==> forall k :: 0 <= k < |d.path| ==> d.path[k].component.ComposedStructure?
    ensures Descend(ac, roleId).path != [] ==> Descend(ac, roleId).path[0] == ac
    decreases ac
  {
    match ac.component
    case BasicComponent(_, _) =>
    case ComposedStructure(_, name, connectors) => {
      match FirstWhere(connectors, (c: Connector) => DelegatesRole(c, roleId))
      case None =>
      case Some(i) =>
        DescentShape(connectors[i].inner, connectors[i].innerRoleId);
    }
    case OtherComponent(_, _) =>
  }

  /**
   * getAssCtxs: appends the descent to `list`, in place; `extended` is the passed list after the
   * call, which the exception does not roll back.
   */
  method GetAssCtxs(ac: AssemblyContext, roleId: string, list: seq<AssemblyContext>)
    returns (r: Result<seq<AssemblyContext>>, extended: seq<AssemblyContext>)
    ensures extended == list + Descend(ac, roleId).path
    ensures r == Extend(ac, roleId, list)
    decreases ac
  {
    match ac.component {
      case BasicComponent(_, _) =>
        extended := list + [ac];
        r := Success(extended);
      case ComposedStructure(_, name, connectors) =>
        var i := 0;
        while i < |connectors|
          invariant 0 <= i <= |connectors|
          invariant forall j :: 0 <= j < i ==> !DelegatesRole(connectors[j], roleId)
        {
          var conn := connectors[i];
          if conn.ProvidedDelegationConnector? && conn.outerRoleId == roleId {
            assert FirstWhere(connectors, (c: Connector) => DelegatesRole(c, roleId)) == Some(i);
            r, extended := GetAssCtxs(conn.inner, conn.innerRoleId, list + [ac]);
            AppendAssocSeq(list, [ac], Descend(conn.inner, conn.innerRoleId).path);
            return;
          }
          i := i + 1;
        }
        extended := list;
        r := Fail(UnsupportedOperation(ComposedMessage(name)));
      case OtherComponent(_, _) =>
        extended := list;
        r := Fail(UnsupportedOperation(""));
    }
  }

  lemma AppendAssocSeq<T>(a: seq<T>, b: seq<T>, c: seq<T>)
    ensures a + b + c == a + (b + c)
  {
  }

  // ---------------------------------------------------------------------------------------
  // Searching for the assembly connector of a required role

  predicate ConnectsRequiring(c: Connector, contextId: string, roleId: string, interfaceId: string)
  {
    c.AssemblyConnector? && c.requiringContextId == contextId
    && c.requiredInterfaceId == interfaceId && c.requiredRoleId == roleId
  }

  /** findAssemblyConnectorForRequiringAssemblyContext: the first assembly connector from the context's required role. */
  function AssemblyConnectorFor(connectors: seq<Connector>, contextId: string, roleId: string, interfaceId: string): (r: Option<Connector>)
    ensures r.Some? ==> ConnectsRequiring(r.value, contextId, roleId, interfaceId) && r.value in connectors
    ensures r.None? ==> forall c :: c in connectors ==> !ConnectsRequiring(c, contextId, roleId, interfaceId)
  {
    match FirstWhere(connectors, (c: Connector) => ConnectsRequiring(c, contextId, roleId, interfaceId))
    case None => None
    case Some(i) => Some(connectors[i])
  }

  predicate DelegatesRequired(c: Connector, roleId: string, interfaceId: string)
  {
    c.RequiredDelegationConnector? && c.innerRoleId == roleId && c.innerInterfaceId == interfaceId
  }

  /**
   * findFromDelegationConnector: for the required delegation connectors of the context's own
   * structure that delegate the role, in order, the first assembly connector that the enclosing
   * composite's context has for the outer role.
   */
  function FromDelegation(own: seq<Connector>, outer: seq<Connector>, compositeId: string, roleId: string, interfaceId: string)
    : (r: Option<Connector>)
    ensures r.Some? ==> (r.value.AssemblyConnector? && r.value in outer && r.value.requiringContextId == compositeId
      && r.value.requiredInterfaceId == interfaceId)
  {
    if own == [] then None
    else if DelegatesRequired(own[0], roleId, interfaceId)
         && AssemblyConnectorFor(outer, compositeId, own[0].outerRoleId, interfaceId).Some?
    then AssemblyConnectorFor(outer, compositeId, own[0].outerRoleId, interfaceId)
    else FromDelegation(own[1..], outer, compositeId, roleId, interfaceId)
  }

  /** The connector found, the index of the context it was found at, and whether through a delegation. */
  datatype RoleMatch = RoleMatch(connector: Connector, index: nat, delegated: bool)

  /** Every context of the list sits in a composed structure whose connectors `parents` holds. */
  predicate Placed(parents: map<string, seq<Connector>>, list: seq<AssemblyContext>)
  {
    forall k :: 0 <= k < |list| ==> list[k].id in parents
  }

  /**
   * findAssemblyContextForRequiredRole as a function: from index i down to 0, a direct assembly
   * connector first, then, except at index 0, one reached through a required delegation.
   */
  function SearchFrom(parents: map<string, seq<Connector>>, list: seq<AssemblyContext>, roleId: string, interfaceId: string, i: int)
    : (r: Option<RoleMatch>)
    requires Placed(parents, list) && -1 <= i < |list|
    ensures r.Some? ==> r.value.index <= i && r.value.connector.AssemblyConnector?
    ensures r.Some? && r.value.delegated ==> r.value.index >= 1
    decreases i + 1
  {
    if i < 0 then None
    else
      var direct := AssemblyConnectorFor(parents[list[i].id], list[i].id, roleId, interfaceId);
      if direct.Some? then Some(RoleMatch(direct.value, i, false))
      else if i != 0 && FromDelegation(parents[list[i].id], parents[list[i - 1].id], list[i - 1].id, roleId, interfaceId).Some?
      then Some(RoleMatch(FromDelegation(parents[list[i].id], parents[list[i - 1].id], list[i - 1].id, roleId, interfaceId).value, i, true))
      else SearchFrom(parents, list, roleId, interfaceId, i - 1)
  }

  /** The list after a match with the create flag: the matched context removed, and its parent with it after a delegation. */
  function RemoveMatched(list: seq<AssemblyContext>, m: RoleMatch): (r: seq<AssemblyContext>)
    requires m.index < |list| && (m.delegated ==> m.index >= 1)
    ensures |r| == |list| - (if m.delegated then 2 else 1)
  {
    if m.delegated then list[..m.index - 1] + list[m.index + 1..] else list[..m.index] + list[m.index + 1..]
  }

  /** The search keeps going up the list only past contexts that have no connector for the role. */
  lemma {:induction false} SearchFindsInnermost(parents: map<string, seq<Connector>>, list: seq<AssemblyContext>, roleId: string, interfaceId: string, i: int)
    requires Placed(parents, list) && -1 <= i < |list|
    ensures var r := SearchFrom(parents, list, roleId, interfaceId, i);
      forall j :: (if r.Some? then r.value.index else -1) < j <= i ==>
        AssemblyConnectorFor(parents[list[j].id], list[j].id, roleId, interfaceId).None?
    ensures var r := SearchFrom(parents, list, roleId, interfaceId, i);
      r.Some? && !r.value.delegated ==>
        AssemblyConnectorFor(parents[list[r.value.index].id], list[r.value.index].id, roleId, interfaceId) == Some(r.value.connector)
    decreases i + 1
  {
    if i >= 0 {
      var direct := AssemblyConnectorFor(parents[list[i].id], list[i].id, roleId, interfaceId);
      if direct.None? {
        SearchFindsInnermost(parents, list, roleId, interfaceId, i - 1);
      }
    }
  }

  /** The connector a context at the top of a one-element list is required through is never found by delegation. */
  lemma TopLevelNeverDelegates(parents: map<string, seq<Connector>>, ac: AssemblyContext, roleId: string, interfaceId: string)
    requires ac.id in parents
    ensures var r := SearchFrom(parents, [ac], roleId, interfaceId, 0);
      (r.Some? ==> !r.value.delegated && r.value.index == 0)
      && (r.None? <==> AssemblyConnectorFor(parents[ac.id], ac.id, roleId, interfaceId).None?)
  {
  }

  /** What inherits to a call that is not made with the create flag: the list without its last element, when the connector leaves from it. */
  function Inherited(list: seq<AssemblyContext>, requiringContextId: string): seq<AssemblyContext>
  {
    if |list| > 0 && requiringContextId == list[|list| - 1].id then list[..|list| - 1] else []
  }

  // ---------------------------------------------------------------------------------------
  // Variable usages

  datatype NamedReference =
    | VariableReference(referenceName: string)
    | NamespaceReference(referenceName: string, innerReference: NamedReference)

  /** A variable characterisation: the literal of its type and its specification. */
  datatype Characterisation = Characterisation(typeLiteral: string, specification: string)

  datatype VariableUsage = VariableUsage(reference: NamedReference, characterisations: seq<Characterisation>)

  /** A computed usage context: the assembly context it belongs to and the variable usages of its input. */
  datatype ComputedUsageContext = ComputedUsageContext(id: string, assemblyContextId: string, input: seq<VariableUsage>)

  /** The dotted name of a reference: every namespace name followed by ".", then the innermost name. */
  function FullName(ref: NamedReference): string
  {
    match ref
    case VariableReference(n) => n
    case NamespaceReference(n, inner) => n + "." + FullName(inner)
  }

  function Innermost(ref: NamedReference): string
  {
    match ref
    case VariableReference(n) => n
    case NamespaceReference(_, inner) => Innermost(inner)
  }

  /** The full name ends with the innermost reference name. */
  lemma {:induction false} FullNameEndsWithInnermost(ref: NamedReference)
    ensures EndsWith(FullName(ref), Innermost(ref))
  {
    match ref
    case VariableReference(n) =>
    case NamespaceReference(n, inner) =>
      FullNameEndsWithInnermost(inner);
      var f := FullName(inner);
      assert FullName(ref) == (n + ".") + f;
      assert FullName(ref)[|FullName(ref)| - |Innermost(ref)|..] == f[|f| - |Innermost(inner)|..];
  }

  /** A variable whose own name holds a dot has the same full name as a namespace reference. */
  lemma FullNamesCanCollide()
    ensures FullName(VariableReference("a.b")) == FullName(NamespaceReference("a", VariableReference("b")))
  {
  }

  /** getFullParameterName: walks down the namespace references, appending each name and a dot. */
  method GetFullParameterName(ref: NamedReference) returns (name: string)
    ensures name == FullName(ref)
  {
    name := "";
    var r := ref;
    while r.NamespaceReference?
      invariant name + FullName(r) == FullName(ref)
      decreases r
    {
      AppendAssoc(name, r.referenceName + ".", FullName(r.innerReference));
      AppendAssoc(r.referenceName, ".", FullName(r.innerReference));
      name := name + r.referenceName + ".";
      r := r.innerReference;
    }
    name := name + r.referenceName;
  }

  /** The same type literal and the same specification once the spaces are removed. */
  predicate SameCharacterisation(vc1: Characterisation, vc2: Characterisation)
  {
    vc1.typeLiteral == vc2.typeLiteral
    && RemoveAll(vc1.specification, ' ') == RemoveAll(vc2.specification, ' ')
  }

  predicate Found(vc1: Characterisation, vcs2: seq<Characterisation>)
  {
    exists k :: 0 <= k < |vcs2| && SameCharacterisation(vc1, vcs2[k])
  }

  /** The number of characterisations of `vcs1` that have a match in `vcs2`. */
  function FoundCount(vcs1: seq<Characterisation>, vcs2: seq<Characterisation>): (n: nat)
    ensures n <= |vcs1|
  {
    if vcs1 == [] then 0
    else FoundCount(vcs1[..|vcs1| - 1], vcs2) + (if Found(vcs1[|vcs1| - 1], vcs2) then 1 else 0)
  }

  /** The count reaches the length exactly when every characterisation is found. */
  lemma {:induction false} FoundCountAll(vcs1: seq<Characterisation>, vcs2: seq<Characterisation>)
    ensures FoundCount(vcs1, vcs2) == |vcs1| <==> forall k :: 0 <= k < |vcs1| ==> Found(vcs1[k], vcs2)
  {
    if vcs1 != [] {
      var prefix := vcs1[..|vcs1| - 1];
      FoundCountAll(prefix, vcs2);
      assert forall k :: 0 <= k < |prefix| ==> prefix[k] == vcs1[k];
    }
  }

  /** vu2 matches vu1: the same full name, and every characterisation of vu1 found among vu2's. */
  predicate Matches(vu1: VariableUsage, vu2: VariableUsage)
  {
    FullName(vu1.reference) == FullName(vu2.reference)
    && FoundCount(vu1.characterisations, vu2.characterisations) == |vu1.characterisations|
  }

  /** The number of usages of `vus2` that match `vu1`. */
  function PairCount(vu1: VariableUsage, vus2: seq<VariableUsage>): nat
  {
    if vus2 == [] then 0
    else PairCount(vu1, vus2[..|vus2| - 1]) + (if Matches(vu1, vus2[|vus2| - 1]) then 1 else 0)
  }

  /** The number of matching pairs, over all usages of `vus1`. */
  function MatchCount(vus1: seq<VariableUsage>, vus2: seq<VariableUsage>): nat
  {
    if vus1 == [] then 0
    else MatchCount(vus1[..|vus1| - 1], vus2) + PairCount(vus1[|vus1| - 1], vus2)
  }

  /** areEqual's verdict: as many matching pairs as `vus1` has usages. */
  predicate UsagesEqual(vus1: seq<VariableUsage>, vus2: seq<VariableUsage>)
  {
    MatchCount(vus1, vus2) == |vus1|
  }

  /** An empty first list equals every list. */
  lemma EmptyUsagesEqualAll(vus2: seq<VariableUsage>)
    ensures UsagesEqual([], vus2)
  {
  }

  /**
   * Pairs are counted, not usages: a usage without any counterpart is compensated by another
   * usage that matches twice.
   */
  lemma PairCountingAcceptsUnmatched()
    ensures var x := VariableUsage(VariableReference("x"), []);
            var y := VariableUsage(VariableReference("y"), []);
            UsagesEqual([x, y], [x, x]) && PairCount(y, [x, x]) == 0
  {
    var x := VariableUsage(VariableReference("x"), []);
    var y := VariableUsage(VariableReference("y"), []);
    assert [x, y][..1] == [x];
    assert [x, x][..1] == [x];
    assert [x][..0] == [];
    assert Matches(x, x);
    assert !Matches(y, x);
    assert PairCount(x, [x]) == 1;
    assert PairCount(x, [x, x]) == 2;
    assert PairCount(y, [x]) == 0;
    assert PairCount(y, [x, x]) == 0;
    assert MatchCount([x], [x, x]) == 2;
  }

  lemma {:induction false} PairCountOne(vu1: VariableUsage, vus2: seq<VariableUsage>, j: nat)
    requires j < |vus2| && Matches(vu1, vus2[j])
    requires forall k :: 0 <= k < |vus2| && k != j ==> FullName(vus2[k].reference) != FullName(vu1.reference)
    ensures PairCount(vu1, vus2) == 1
  {
    var prefix := vus2[..|vus2| - 1];
    if j < |vus2| - 1 {
      PairCountOne(vu1, prefix, j);
    } else {
      PairCountZero(vu1, prefix);
    }
  }

  lemma {:induction false} PairCountZero(vu1: VariableUsage, vus2: seq<VariableUsage>)
    requires forall k :: 0 <= k < |vus2| ==> FullName(vus2[k].reference) != FullName(vu1.reference)
    ensures PairCount(vu1, vus2) == 0
  {
    if vus2 != [] {
      PairCountZero(vu1, vus2[..|vus2| - 1]);
    }
  }

  lemma {:induction false} SelfFound(vcs: seq<Characterisation>)
    ensures FoundCount(vcs, vcs) == |vcs|
  {
    FoundCountAll(vcs, vcs);
    assert forall k :: 0 <= k < |vcs| ==> SameCharacterisation(vcs[k], vcs[k]);
  }

  /** MatchCount over a prefix, when every usage of the prefix matches exactly one usage of the second list. */
  lemma {:induction false} MatchCountOnes(vus1: seq<VariableUsage>, vus2: seq<VariableUsage>)
    requires forall i :: 0 <= i < |vus1| ==> PairCount(vus1[i], vus2) == 1
    ensures MatchCount(vus1, vus2) == |vus1|
  {
    if vus1 != [] {
      var prefix := vus1[..|vus1| - 1];
      assert forall i :: 0 <= i < |prefix| ==> prefix[i] == vus1[i];
      MatchCountOnes(prefix, vus2);
    }
  }

  /** A list of usages with distinct full names equals itself. */
  lemma UsagesEqualReflexive(vus: seq<VariableUsage>)
    requires forall i, j :: 0 <= i < j < |vus| ==> FullName(vus[i].reference) != FullName(vus[j].reference)
    ensures UsagesEqual(vus, vus)
  {
    forall i | 0 <= i < |vus|
      ensures PairCount(vus[i], vus) == 1
    {
      SelfFound(vus[i].characterisations);
      PairCountOne(vus[i], vus, i);
    }
    MatchCountOnes(vus, vus);
  }

  /** The inner loop of areEqual: whether some characterisation of `vcs2` matches `vc1`. */
  method SingleCharacterisationFound(vc1: Characterisation, vcs2: seq<Characterisation>) returns (found: bool)
    ensures found <==> Found(vc1, vcs2)
  {
    found := false;
    var k := 0;
    while k < |vcs2|
      invariant 0 <= k <= |vcs2|
      invariant found <==> exists m :: 0 <= m < k && SameCharacterisation(vc1, vcs2[m])
    {
      var vc2 := vcs2[k];
      if vc1.typeLiteral == vc2.typeLiteral && RemoveAll(vc1.specification, ' ') == RemoveAll(vc2.specification, ' ') {
        found := true;
      }
      k := k + 1;
    }
  }

  /** areEqual: counts matching (vu1, vu2) pairs and compares the count with the length of the first list. */
  method AreEqual(vuList1: seq<VariableUsage>, vuList2: seq<VariableUsage>) returns (equal: bool)
    ensures equal <==> UsagesEqual(vuList1, vuList2)
  {
    var varUsgCounter := 0;
    var i := 0;
    while i < |vuList1|
      invariant 0 <= i <= |vuList1|
      invariant varUsgCounter == MatchCount(vuList1[..i], vuList2)
    {
      var vu1 := vuList1[i];
      var name1 := GetFullParameterName(vu1.reference);
      var j := 0;
      ghost var before := varUsgCounter;
      while j < |vuList2|
        invariant 0 <= j <= |vuList2|
        invariant varUsgCounter == before + PairCount(vu1, vuList2[..j])
      {
        var vu2 := vuList2[j];
        var name2 := GetFullParameterName(vu2.reference);
        if name1 == name2 {
          var vcList := vu1.characterisations;
          var varCharFoundCounter := 0;
          var k := 0;
          while k < |vcList|
            invariant 0 <= k <= |vcList|
            invariant varCharFoundCounter == FoundCount(vcList[..k], vu2.characterisations)
          {
            var singleVarCharFound := SingleCharacterisationFound(vcList[k], vu2.characterisations);
            assert vcList[..k + 1][..k] == vcList[..k];
            if singleVarCharFound {
              varCharFoundCounter := varCharFoundCounter + 1;
            }
            k := k + 1;
          }
          assert vcList[..k] == vcList;
          if varCharFoundCounter == |vcList| {
            varUsgCounter := varUsgCounter + 1;
          }
        }
        assert vuList2[..j + 1][..j] == vuList2[..j];
        j := j + 1;
      }
      assert vuList2[..j] == vuList2;
      assert vuList1[..i + 1][..i] == vuList1[..i];
      i := i + 1;
    }
    assert vuList1[..i] == vuList1;
    equal := varUsgCounter == |vuList1|;
  }

  // ---------------------------------------------------------------------------------------
  // Computed allocation contexts and the model instance

  /** A computed allocation context; the ids it refers to are set when it is created. */
  class ComputedAllocationContext {
    const allocationContextId: string
    const usageContextId: string
    var resourceDemands: seq<ResourceDemand>

    constructor (allocationContextId: string, usageContextId: string)
      ensures this.allocationContextId == allocationContextId && this.usageContextId == usageContextId
      ensures resourceDemands == []
    {
      this.allocationContextId := allocationContextId;
      this.usageContextId := usageContextId;
      resourceDemands := [];
    }

    /** One computed demand appended; the demands recorded before are kept. */
    method AddResourceDemand(d: ResourceDemand)
      modifies this
      ensures resourceDemands == old(resourceDemands) + [d]
    {
      resourceDemands := resourceDemands + [d];
    }
  }

  predicate IsComputedFor(c: ComputedAllocationContext, allocationId: string, usageId: string)
  {
    c.allocationContextId == allocationId && c.usageContextId == usageId
  }

  /** The index of the first computed allocation context for the pair of ids. */
  function FirstComputedFor(cacs: seq<ComputedAllocationContext>, allocationId: string, usageId: string): Option<nat>
  {
    FirstWhere(cacs, (c: ComputedAllocationContext) => IsComputedFor(c, allocationId, usageId))
  }

  /** The allocation contexts that deploy the assembly context, in model order. */
  function AllocationsOf(allocs: seq<AllocationContext>, assemblyContextId: string): seq<AllocationContext>
  {
    Filter(allocs, (a: AllocationContext) => a.assemblyContextId == assemblyContextId)
  }

  /** The parts of a PCMInstance the wrapper reads, and the computed allocation contexts it adds to. */
  class PcmInstance {
    /** The connectors of the composed structure each assembly context (by id) sits in. */
    const parents: map<string, seq<Connector>>
    const allocationContexts: seq<AllocationContext>
    const computedUsageContexts: seq<ComputedUsageContext>
    var computedAllocationContexts: seq<ComputedAllocationContext>

    constructor (parents: map<string, seq<Connector>>, allocationContexts: seq<AllocationContext>,
                 computedUsageContexts: seq<ComputedUsageContext>)
      ensures this.parents == parents && this.allocationContexts == allocationContexts
      ensures this.computedUsageContexts == computedUsageContexts
      ensures computedAllocationContexts == []
    {
      this.parents := parents;
      this.allocationContexts := allocationContexts;
      this.computedUsageContexts := computedUsageContexts;
      computedAllocationContexts := [];
    }
  }

  // ---------------------------------------------------------------------------------------
  // The wrapper

  class ContextWrapper {
    /** The assembly contexts from the outermost to the one this wrapper describes, which is last. */
    var assCtxList: seq<AssemblyContext>
    var allCtx: Option<AllocationContext>
    var compAllCtx: Option<ComputedAllocationContext>
    var compUsgCtx: Option<ComputedUsageContext>
    var pcmInstance: PcmInstance

    constructor (pcm: PcmInstance)
      ensures pcmInstance == pcm && assCtxList == [] && allCtx.None? && compAllCtx.None? && compUsgCtx.None?
    {
      pcmInstance := pcm;
      assCtxList := [];
      allCtx := None;
      compAllCtx := None;
      compUsgCtx := None;
    }

    /** getAssCtx: the last assembly context of the list; get(-1) fails on an empty list. */
    function GetAssCtx(): (r: Result<AssemblyContext>)
      reads this
      ensures r.Success? <==> |assCtxList| > 0
      ensures r.Success? ==> r.value == assCtxList[|assCtxList| - 1]
    {
      if |assCtxList| == 0 then Fail(IndexOutOfBounds("assCtxList.get(-1)"))
      else Success(assCtxList[|assCtxList| - 1])
    }

    /**
     * clone: a new wrapper with a copy of the list and the same allocation context, computed
     * contexts and model instance; the original is not changed.
     */
    method Clone() returns (c: ContextWrapper)
      ensures fresh(c)
      ensures c.assCtxList == assCtxList && c.allCtx == allCtx && c.compAllCtx == compAllCtx
      ensures c.compUsgCtx == compUsgCtx && c.pcmInstance == pcmInstance
    {
      c := new ContextWrapper(pcmInstance);
      var list := [];
      var i := 0;
      while i < |assCtxList|
        invariant 0 <= i <= |assCtxList|
        invariant list == assCtxList[..i]
      {
        list := list + [assCtxList[i]];
        i := i + 1;
      }
      c.assCtxList := list;
      c.allCtx := allCtx;
      c.compAllCtx := compAllCtx;
      c.compUsgCtx := compUsgCtx;
    }

    /**
     * findAssemblyContextForRequiredRole: scans the list from the last context to the first; with
     * the create flag the matched context (and its parent, after a delegation) is removed.
     */
    method FindAssemblyContextForRequiredRole(requiredRoleId: string, requiredInterfaceId: string, isCreateContextWrapper: bool)
      returns (r: Option<Connector>)
      requires Placed(pcmInstance.parents, assCtxList)
      modifies this`assCtxList
      ensures var m := SearchFrom(pcmInstance.parents, old(assCtxList), requiredRoleId, requiredInterfaceId, |old(assCtxList)| - 1);
        && r == (if m.Some? then Some(m.value.connector) else None)
        && assCtxList == (if m.Some? && isCreateContextWrapper then RemoveMatched(old(assCtxList), m.value) else old(assCtxList))
    {
      var parents := pcmInstance.parents;
      ghost var list := assCtxList;
      var i := |assCtxList| - 1;
      while i >= 0
        invariant -1 <= i < |list| && assCtxList == list
        invariant SearchFrom(parents, list, requiredRoleId, requiredInterfaceId, |list| - 1)
               == SearchFrom(parents, list, requiredRoleId, requiredInterfaceId, i)
        decreases i + 1
      {
        var ac := assCtxList[i];
        var matchingAssConn := AssemblyConnectorFor(parents[ac.id], ac.id, requiredRoleId, requiredInterfaceId);
        if matchingAssConn.Some? {
          if isCreateContextWrapper {
            assCtxList := assCtxList[..i] + assCtxList[i + 1..];
          }
          return matchingAssConn;
        }
        if i != 0 {
          var parent := assCtxList[i - 1];
          matchingAssConn := FromDelegation(parents[ac.id], parents[parent.id], parent.id, requiredRoleId, requiredInterfaceId);
          if matchingAssConn.Some? {
            if isCreateContextWrapper {
              assCtxList := assCtxList[..i - 1] + assCtxList[i + 1..];
            }
            return matchingAssConn;
          }
        }
        i := i - 1;
      }
      return None;
    }

    /**
     * findProvidingAssemblyContexts: the assembly contexts handling a call, the actual handling
     * one last; none for a call that leaves the system. With the create flag the wrapper's own
     * list becomes the result; without it the list stays as it was.
     */
    method FindProvidingAssemblyContexts(call: CalledService, isCreateContextWrapper: bool)
      returns (r: Result<seq<AssemblyContext>>)
      requires Placed(pcmInstance.parents, assCtxList)
      modifies this`assCtxList
      ensures var m := SearchFrom(pcmInstance.parents, old(assCtxList), call.roleId, call.interfaceId, |old(assCtxList)| - 1);
        && (m.None? ==> r == Success([]) && assCtxList == old(assCtxList))
        && (m.Some? && isCreateContextWrapper ==>
              var c := m.value.connector;
              var rest := RemoveMatched(old(assCtxList), m.value);
              r == Extend(c.providingContext, c.providedRoleId, rest)
              && assCtxList == rest + Descend(c.providingContext, c.providedRoleId).path)
        && (m.Some? && !isCreateContextWrapper ==>
              var c := m.value.connector;
              r == Extend(c.providingContext, c.providedRoleId, Inherited(old(assCtxList), c.requiringContextId))
              && assCtxList == old(assCtxList))
    {
      var connector := FindAssemblyContextForRequiredRole(call.roleId, call.interfaceId, isCreateContextWrapper);
      if connector.None? {
        return Success([]);
      }
      var providingContext := connector.value.providingContext;
      var providingRole := connector.value.providedRoleId;
      if isCreateContextWrapper {
        var extended;
        r, extended := GetAssCtxs(providingContext, providingRole, assCtxList);
        assCtxList := extended;
      } else {
        var resultList := [];
        var own := GetAssCtx();
        if own.Success? && connector.value.requiringContextId == own.value.id {
          resultList := assCtxList[..|assCtxList| - 1];
        }
        var unused;
        r, unused := GetAssCtxs(providingContext, providingRole, resultList);
      }
    }

    /**
     * matchVariableUsages: the first computed usage context of this wrapper's assembly context
     * whose input equals the given usages; reading the own context fails on an empty list.
     */
    method MatchVariableUsages(vuList: seq<VariableUsage>) returns (r: Result<Option<ComputedUsageContext>>)
      ensures var cucs := pcmInstance.computedUsageContexts;
        && (|assCtxList| == 0 ==> r == if cucs == [] then Success(None) else Fail(IndexOutOfBounds("assCtxList.get(-1)")))
        && (|assCtxList| > 0 ==>
              var own := assCtxList[|assCtxList| - 1].id;
              r == Success(match FirstWhere(cucs, (c: ComputedUsageContext) => c.assemblyContextId == own && UsagesEqual(vuList, c.input))
                           case None => None
                           case Some(k) => Some(cucs[k])))
    {
      var cucList := pcmInstance.computedUsageContexts;
      var i := 0;
      while i < |cucList|
        invariant 0 <= i <= |cucList|
        invariant |assCtxList| > 0 ==> forall j :: 0 <= j < i ==>
          !(cucList[j].assemblyContextId == assCtxList[|assCtxList| - 1].id && UsagesEqual(vuList, cucList[j].input))
        invariant |assCtxList| == 0 ==> i == 0
      {
        var cuc := cucList[i];
        var own := GetAssCtx();
        if own.Fail? {
          return Fail(own.error);
        }
        if cuc.assemblyContextId == own.value.id {
          var equal := AreEqual(vuList, cuc.input);
          if equal {
            return Success(Some(cuc));
          }
        }
        i := i + 1;
      }
      return Success(None);
    }

    /**
     * getNextAllocationContextList: every allocation context, in model order, that deploys the
     * first assembly context of the list; null for an empty list. The size test of the source
     * (a size >= 0) always holds, so its fallback to the next assembly context never runs.
     */
    method GetNextAllocationContextList(nextAssCtxList: seq<AssemblyContext>) returns (r: Option<seq<AllocationContext>>)
      ensures nextAssCtxList == [] ==> r.None?
      ensures nextAssCtxList != [] ==>
        r == Some(AllocationsOf(pcmInstance.allocationContexts, nextAssCtxList[0].id))
    {
      if nextAssCtxList == [] {
        return None;
      }
      var nextAssCtx := nextAssCtxList[0];
      var allCtxList := pcmInstance.allocationContexts;
      ghost var p := (a: AllocationContext) => a.assemblyContextId == nextAssCtx.id;
      assert AllocationsOf(allCtxList, nextAssCtx.id) == Filter(allCtxList, p);
      var targetAllocationContextList := [];
      var i := 0;
      while i < |allCtxList|
        invariant 0 <= i <= |allCtxList|
        invariant targetAllocationContextList == Filter(allCtxList[..i], p)
      {
        assert allCtxList[..i + 1][..i] == allCtxList[..i];
        if allCtxList[i].assemblyContextId == nextAssCtx.id {
          targetAllocationContextList := targetAllocationContextList + [allCtxList[i]];
        }
        i := i + 1;
      }
      assert allCtxList[..i] == allCtxList;
      return Some(targetAllocationContextList);
    }

    /** getExistingComputedAllocationContext: the first computed allocation context for this allocation and the usage context. */
    method GetExistingComputedAllocationContext(usage: ComputedUsageContext) returns (r: Option<ComputedAllocationContext>)
      requires allCtx.Some?
      ensures var cacs := pcmInstance.computedAllocationContexts;
        r == match FirstComputedFor(cacs, allCtx.value.id, usage.id)
             case None => None
             case Some(k) => Some(cacs[k])
    {
      var allCtxList := pcmInstance.computedAllocationContexts;
      var i := 0;
      while i < |allCtxList|
        invariant 0 <= i <= |allCtxList|
        invariant forall j :: 0 <= j < i ==> !IsComputedFor(allCtxList[j], allCtx.value.id, usage.id)
      {
        var cac := allCtxList[i];
        if cac.allocationContextId == allCtx.value.id && cac.usageContextId == usage.id {
          return Some(cac);
        }
        i := i + 1;
      }
      return None;
    }

    /**
     * getNextComputedAllocationContext: find or create. An existing record is returned and the
     * store is left alone; otherwise one new record is appended. Afterwards the record returned
     * is the first one for the pair, so asking again returns it and appends nothing. On both
     * paths the debug message is built from getAssCtx() before anything is returned or created,
     * so an empty assembly context list fails with getAssCtx's error and changes nothing.
     */
    method GetNextComputedAllocationContext(usage: ComputedUsageContext) returns (r: Result<ComputedAllocationContext>)
      requires allCtx.Some?
      modifies pcmInstance
      ensures assCtxList == [] ==> r == Fail(IndexOutOfBounds("assCtxList.get(-1)"))
                                   && pcmInstance.computedAllocationContexts == old(pcmInstance.computedAllocationContexts)
      ensures assCtxList != [] ==> r.Success?
      ensures var found := FirstComputedFor(old(pcmInstance.computedAllocationContexts), allCtx.value.id, usage.id);
        r.Success? ==>
          && (found.Some? ==> r.value == old(pcmInstance.computedAllocationContexts)[found.value]
                              && pcmInstance.computedAllocationContexts == old(pcmInstance.computedAllocationContexts))
          && (found.None? ==> fresh(r.value) && r.value.resourceDemands == []
                              && pcmInstance.computedAllocationContexts == old(pcmInstance.computedAllocationContexts) + [r.value])
      ensures r.Success? ==> IsComputedFor(r.value, allCtx.value.id, usage.id)
      ensures var again := FirstComputedFor(pcmInstance.computedAllocationContexts, allCtx.value.id, usage.id);
        r.Success? ==> again.Some? && pcmInstance.computedAllocationContexts[again.value] == r.value
    {
      var existing := GetExistingComputedAllocationContext(usage);
      var own := GetAssCtx();
      if own.Fail? {
        return Fail(own.error);
      }
      if existing.Some? {
        return Success(existing.value);
      }
      var allocationId := allCtx.value.id;
      var cac := new ComputedAllocationContext(allocationId, usage.id);
      FirstWhereAppend(pcmInstance.computedAllocationContexts, cac,
                       (c: ComputedAllocationContext) => IsComputedFor(c, allocationId, usage.id));
      pcmInstance.computedAllocationContexts := pcmInstance.computedAllocationContexts + [cac];
      r := Success(cac);
    }
  }

  /** A fresh wrapper per allocation context, with the template's list and usage context. */
  predicate WrapperFor(w: ContextWrapper, template: ContextWrapper, alloc: AllocationContext)
    reads w, template
  {
    && w.assCtxList == template.assCtxList && w.compUsgCtx == template.compUsgCtx
    && w.pcmInstance == template.pcmInstance && w.allCtx == Some(alloc)
  }

  /**
   * createContextWrappersBasedOnTemplate: one clone of the template per allocation context of
   * its first assembly context, each with its computed allocation context found or created.
   * With an empty list there is no allocation list, and taking its size fails.
   */
  method CreateContextWrappersBasedOnTemplate(template: ContextWrapper) returns (r: Result<seq<ContextWrapper>>)
    requires template.compUsgCtx.Some?
    modifies template.pcmInstance
    ensures template.assCtxList == [] ==> r == Fail(NullPointer("allocationContextList"))
    ensures template.assCtxList != [] ==> r.Success?
    ensures r.Success? ==>
      var allocs := AllocationsOf(template.pcmInstance.allocationContexts, template.assCtxList[0].id);
      && |r.value| == |allocs|
      && (forall i :: 0 <= i < |allocs| ==>
            var w := r.value[i];
            && fresh(w) && WrapperFor(w, template, allocs[i]) && w.compAllCtx.Some?
            && IsComputedFor(w.compAllCtx.value, allocs[i].id, template.compUsgCtx.value.id)
            && w.compAllCtx.value in template.pcmInstance.computedAllocationContexts)
      && (forall i, j :: 0 <= i < j < |allocs| ==> r.value[i] != r.value[j])
    ensures old(template.pcmInstance.computedAllocationContexts) <= template.pcmInstance.computedAllocationContexts
  {
    var allocationContextList := template.GetNextAllocationContextList(template.assCtxList);
    if allocationContextList.None? {
      return Fail(NullPointer("allocationContextList"));
    }
    var allocs := allocationContextList.value;
    var pcm := template.pcmInstance;
    var wrappers: seq<ContextWrapper> := [];
    var i := 0;
    while i < |allocs|
      invariant 0 <= i <= |allocs| && |wrappers| == i
      invariant template.pcmInstance == pcm && template.compUsgCtx.Some?
      invariant old(pcm.computedAllocationContexts) <= pcm.computedAllocationContexts
      invariant forall k :: 0 <= k < i ==>
        var w := wrappers[k];
        && fresh(w) && WrapperFor(w, template, allocs[k]) && w.compAllCtx.Some?
        && IsComputedFor(w.compAllCtx.value, allocs[k].id, template.compUsgCtx.value.id)
        && w.compAllCtx.value in pcm.computedAllocationContexts
      invariant forall k, l :: 0 <= k < l < i ==> wrappers[k] != wrappers[l]
    {
      var contextWrapper := template.Clone();
      contextWrapper.allCtx := Some(allocs[i]);
      // The clone has the template's list, which is not empty here, so getAssCtx succeeds.
      var cac := contextWrapper.GetNextComputedAllocationContext(contextWrapper.compUsgCtx.value);
      contextWrapper.compAllCtx := Some(cac.value);
      wrappers := wrappers + [contextWrapper];
      i := i + 1;
    }
    return Success(wrappers);
  }

  // ---------------------------------------------------------------------------------------
  // Presence checks and the two small tables

  /** exists: whether a container with the same id is in the list. */
  method Exists(list: seq<ResourceContainer>, container: ResourceContainer) returns (found: bool)
    ensures found <==> exists i :: 0 <= i < |list| && list[i].id == container.id
  {
    var i := 0;
    while i < |list|
      invariant 0 <= i <= |list|
      invariant forall j :: 0 <= j < i ==> list[j].id != container.id
    {
      if list[i].id == container.id {
        return true;
      }
      i := i + 1;
    }
    return false;
  }

  /** A link-resource entry: the allocation context id and the communication link specification (by id). */
  datatype LinkEntry = LinkEntry(allocationId: string, linkSpec: string)

  /** The link specification of the earliest entry for the allocation context. */
  function FirstSpec(entries: seq<LinkEntry>, allocationId: string): (r: Option<string>)
  {
    match FirstWhere(entries, (e: LinkEntry) => e.allocationId == allocationId)
    case None => None
    case Some(k) => Some(entries[k].linkSpec)
  }

  /** Storing another entry never changes an answer already given; it only answers a new allocation context. */
  lemma FirstSpecAfterPut(entries: seq<LinkEntry>, e: LinkEntry, allocationId: string)
    ensures FirstSpec(entries + [e], allocationId) ==
      if FirstSpec(entries, allocationId).Some? then FirstSpec(entries, allocationId)
      else if e.allocationId == allocationId then Some(e.linkSpec) else None
  {
    FirstWhereAppend(entries, e, (x: LinkEntry) => x.allocationId == allocationId);
    assert (entries + [e])[|entries|] == e;
    var f := FirstWhere(entries, (x: LinkEntry) => x.allocationId == allocationId);
    if f.Some? {
      assert (entries + [e])[f.value] == entries[f.value];
    }
  }

  /** CallsToLinkResourcesMap: per external call (by id), the entries in the order they were put. */
  class CallsToLinkResourcesMap {
    var internalMap: map<string, seq<LinkEntry>>

    constructor ()
      ensures internalMap == map[]
    {
      internalMap := map[];
    }

    /** put: appends an entry for the call, creating its list on first use; nothing is overwritten. */
    method Put(ecaId: string, allocationId: string, linkSpec: string)
      modifies this
      ensures internalMap == old(internalMap)[ecaId :=
        (if ecaId in old(internalMap) then old(internalMap)[ecaId] else []) + [LinkEntry(allocationId, linkSpec)]]
    {
      var listForEca := if ecaId in internalMap then internalMap[ecaId] else [];
      internalMap := internalMap[ecaId := listForEca + [LinkEntry(allocationId, linkSpec)]];
    }

    /** get: the specification of the earliest entry for the call and the allocation context, or null. */
    method Get(ecaId: string, allocationId: string) returns (r: Option<string>)
      ensures r == if ecaId in internalMap then FirstSpec(internalMap[ecaId], allocationId) else None
    {
      if ecaId !in internalMap {
        return None;
      }
      var listForEca := internalMap[ecaId];
      var i := 0;
      while i < |listForEca|
        invariant 0 <= i <= |listForEca|
        invariant forall j :: 0 <= j < i ==> listForEca[j].allocationId != allocationId
      {
        if listForEca[i].allocationId == allocationId {
          return Some(listForEca[i].linkSpec);
        }
        i := i + 1;
      }
      return None;
    }
  }

  /** An ExpressionToPDFWrapper, as far as the cache's answers go: whether it was built from an original PDF. */
  datatype DemandDistribution = DemandDistribution(expression: string, originalPdf: bool)

  /** isOriginalPDF over the cache's map: false for a demand that is not cached. */
  function OriginalPdf(distributions: map<string, DemandDistribution>, prdId: string): bool
  {
    prdId in distributions && distributions[prdId].originalPdf
  }

  /** After a put, the demand answers with the new entry and every other demand as before. */
  lemma OriginalPdfAfterPut(distributions: map<string, DemandDistribution>, prdId: string, w: DemandDistribution, other: string)
    ensures OriginalPdf(distributions[prdId := w], prdId) == w.originalPdf
    ensures other != prdId ==> OriginalPdf(distributions[prdId := w], other) == OriginalPdf(distributions, other)
  {
  }

  /** ResourceDemandCache: the solved demand of each parametric demand (by id); only presence is modelled. */
  class ResourceDemandCache {
    var distributions: map<string, DemandDistribution>

    constructor ()
      ensures distributions == map[]
    {
      distributions := map[];
    }

    /** getDouble and getPDF: nothing for a demand that is not cached, else the cached entry. */
    function Lookup(prdId: string): (r: Option<DemandDistribution>)
      reads this
      ensures r.None? <==> prdId !in distributions
      ensures r.Some? ==> r.value == distributions[prdId]
    {
      if prdId in distributions then Some(distributions[prdId]) else None
    }

    function IsOriginalPdf(prdId: string): (r: bool)
      reads this
      ensures r == OriginalPdf(distributions, prdId)
    {
      if prdId in distributions then distributions[prdId].originalPdf else false
    }

    /** put: stores the entry, replacing an earlier one for the same demand. */
    method Put(prdId: string, w: DemandDistribution)
      modifies this
      ensures distributions == old(distributions)[prdId := w]
    {
      distributions := distributions[prdId := w];
    }
  }
}
