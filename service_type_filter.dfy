/** Services/Tr1ppy.Services.Integration/ServiceTypeFilter.cs: which
    interfaces are too general to register a service under, and the
    abstractions a service is registered under. The two exclusion lists are
    fixed sets of framework types; they are given as `ExclusionLists`. */
module ServiceTypeFilter {
  import opened Wrappers
  import opened TypeUniverse
  import HashSets
  import ServiceAttributeResolver

  /** `ExcludedNonGenericInterfaces` and `ExcludedGenericInterfaceDefinitions`. */
  datatype ExclusionLists = ExclusionLists(nonGenericInterfaces: set<TypeId>, genericInterfaceDefinitions: set<TypeId>)

  /** `IsExcluded` as written: an interface in the non-generic list, or a
      generic interface whose definition is in the generic list. A
      non-generic interface placed in the generic list is never matched. */
  predicate ExcludedAsWritten(u: Universe, lists: ExclusionLists, t: TypeId)
    requires t in u.types
  {
    var info := u.types[t];
    && info.isInterface
    && (|| t in lists.nonGenericInterfaces
        || (info.isGeneric && info.genericDefinition.Some?
            && info.genericDefinition.value in lists.genericInterfaceDefinitions))
  }

  /** `IsExcluded` as intended: the non-generic interfaces listed among the
      generic definitions are excluded as well. */
  predicate ExcludedCorrected(u: Universe, lists: ExclusionLists, t: TypeId)
    requires t in u.types
  {
    var info := u.types[t];
    && info.isInterface
    && (|| t in lists.nonGenericInterfaces
        || (!info.isGeneric && t in lists.genericInterfaceDefinitions)
        || (info.isGeneric && info.genericDefinition.Some?
            && info.genericDefinition.value in lists.genericInterfaceDefinitions))
  }

  /** `IsExcluded(type)`: a null type throws; otherwise only an interface is
      excluded, and the answer is the intended rule's except for a
      non-generic interface listed only among the generic definitions, which
      is not excluded. */
  function IsExcluded(u: Universe, lists: ExclusionLists, t: Option<TypeId>): (r: Outcome<bool>)
    requires t.Some? ==> t.value in u.types
    ensures t.None? <==> r == Throw(ArgumentNull("type"))
    ensures r.Ok? ==> (r.value ==> u.types[t.value].isInterface)
    ensures r.Ok? ==> (r.value <==>
      && ExcludedCorrected(u, lists, t.value)
      && !(!u.types[t.value].isGeneric && t.value in lists.genericInterfaceDefinitions
           && t.value !in lists.nonGenericInterfaces))
  {
    if t.None? then Throw(ArgumentNull("type")) else Ok(ExcludedAsWritten(u, lists, t.value))
  }

  /** A class is never excluded, so class entries of the lists have no
      effect; the intended check agrees with the written one except on a
      non-generic interface listed among the generic definitions, which only
      the intended check excludes. */
  lemma ExclusionRules(u: Universe, lists: ExclusionLists, t: TypeId)
    requires t in u.types
    ensures !u.types[t].isInterface ==> !ExcludedCorrected(u, lists, t) && !ExcludedAsWritten(u, lists, t)
    ensures ExcludedCorrected(u, lists, t) != ExcludedAsWritten(u, lists, t) <==>
      && u.types[t].isInterface && !u.types[t].isGeneric
      && t in lists.genericInterfaceDefinitions && t !in lists.nonGenericInterfaces
  {
  }

  /** As written, a non-generic interface such as `IAsyncStateMachine`, listed
      only among the generic definitions, is not excluded. */
  lemma ListedNonGenericInterfaceAsWritten(u: Universe, lists: ExclusionLists, t: TypeId)
    requires t in u.types && u.types[t].isInterface && !u.types[t].isGeneric
    requires t in lists.genericInterfaceDefinitions && t !in lists.nonGenericInterfaces
    ensures !ExcludedAsWritten(u, lists, t)
    ensures ExcludedCorrected(u, lists, t)
  {
  }

  /** The types the walk visits: the service type and its base types, up to
      but not including `object`. */
  function Chain(u: Universe, t: TypeId): (chain: seq<TypeId>)
    requires Valid(u) && t in u.types
    ensures AllIn(chain, u.types)
    decreases u.types[t].rank
  {
    if t == u.objectType then []
    else
      match u.types[t].baseType
      case None => [t]
      case Some(b) => [t] + Chain(u, b)
  }

  /** The chain starts at the service type unless that is `object`, follows
      `BaseType` one step at a time, never holds `object`, and ends at a type
      whose base type is null or `object`. */
  lemma {:induction false} ChainShape(u: Universe, t: TypeId)
    requires Valid(u) && t in u.types
    ensures var chain := Chain(u, t);
      && (forall i :: 0 <= i < |chain| ==> chain[i] != u.objectType)
      && (t != u.objectType <==> |chain| > 0)
      && (|chain| > 0 ==> chain[0] == t)
      && (forall i :: 0 <= i < |chain| - 1 ==> u.types[chain[i]].baseType == Some(chain[i + 1]))
      && (|chain| > 0 ==> var last := u.types[chain[|chain| - 1]].baseType;
            last.None? || last == Some(u.objectType))
    decreases u.types[t].rank
  {
    if t != u.objectType && u.types[t].baseType.Some? {
      var b := u.types[t].baseType.value;
      ChainShape(u, b);
      var rest := Chain(u, b);
      assert Chain(u, t) == [t] + rest;
      assert forall i :: 0 <= i < |rest| ==> Chain(u, t)[i + 1] == rest[i];
    }
  }

  /** The items that are not excluded, in order. */
  function NotExcluded(u: Universe, lists: ExclusionLists, items: seq<TypeId>): seq<TypeId>
    requires AllIn(items, u.types)
  {
    if items == [] then []
    else
      var last := items[|items| - 1];
      NotExcluded(u, lists, items[..|items| - 1]) + (if ExcludedAsWritten(u, lists, last) then [] else [last])
  }

  /** What one visited type adds: for an abstract type, itself and its
      interfaces, each unless excluded; nothing for any other type. */
  function Contribution(u: Universe, lists: ExclusionLists, c: TypeId): seq<TypeId>
    requires Valid(u) && c in u.types
  {
    var info := u.types[c];
    if !info.isAbstract then []
    else (if ExcludedAsWritten(u, lists, c) then [] else [c]) + NotExcluded(u, lists, info.interfaces)
  }

  predicate Contributes(u: Universe, lists: ExclusionLists, c: TypeId, x: TypeId)
    requires Valid(u) && c in u.types
  {
    var info := u.types[c];
    && info.isAbstract
    && (x == c || x in info.interfaces)
    && x in u.types && !ExcludedAsWritten(u, lists, x)
  }

  /** The contributions of the visited types, in visiting order. */
  function ChainAdds(u: Universe, lists: ExclusionLists, visited: seq<TypeId>): seq<TypeId>
    requires Valid(u) && AllIn(visited, u.types)
  {
    if visited == [] then []
    else ChainAdds(u, lists, visited[..|visited| - 1]) + Contribution(u, lists, visited[|visited| - 1])
  }

  /** `HashSet.Add` of each item in turn. */
  function AddAll(s: seq<TypeId>, items: seq<TypeId>): seq<TypeId>
  {
    if items == [] then s else HashSets.Add(AddAll(s, items[..|items| - 1]), items[|items| - 1])
  }

  /** Adding items one by one gives the union, and never a duplicate. */
  lemma {:induction false} AddAllMembers(s: seq<TypeId>, items: seq<TypeId>)
    ensures forall x :: x in AddAll(s, items) <==> x in s || x in items
    ensures HashSets.NoDuplicates(s) ==> HashSets.NoDuplicates(AddAll(s, items))
  {
    if items != [] {
      var init := items[..|items| - 1];
      AddAllMembers(s, init);
      assert forall x :: x in items <==> x in init || x == items[|items| - 1];
    }
  }

  lemma {:induction false} NotExcludedMembers(u: Universe, lists: ExclusionLists, items: seq<TypeId>)
    requires AllIn(items, u.types)
    ensures forall x :: x in NotExcluded(u, lists, items) <==> x in items && !ExcludedAsWritten(u, lists, x)
  {
    if items != [] {
      var init := items[..|items| - 1];
      NotExcludedMembers(u, lists, init);
      assert forall x :: x in items <==> x in init || x == items[|items| - 1];
    }
  }

  /** A type is among the contributions of the visited types exactly when
      one of them contributes it. */
  lemma {:induction false} ChainAddsMembers(u: Universe, lists: ExclusionLists, visited: seq<TypeId>)
    requires Valid(u) && AllIn(visited, u.types)
    ensures forall x :: x in ChainAdds(u, lists, visited) <==>
      exists i :: 0 <= i < |visited| && Contributes(u, lists, visited[i], x)
  {
    if visited != [] {
      var init := visited[..|visited| - 1];
      var c := visited[|visited| - 1];
      ChainAddsMembers(u, lists, init);
      NotExcludedMembers(u, lists, u.types[c].interfaces);
      assert forall x :: x in Contribution(u, lists, c) <==> Contributes(u, lists, c, x);
      assert forall i :: 0 <= i < |init| ==> init[i] == visited[i];
    }
  }

  lemma {:induction false} AddAllAppend(s: seq<TypeId>, xs: seq<TypeId>, ys: seq<TypeId>)
    ensures AddAll(s, xs + ys) == AddAll(AddAll(s, xs), ys)
    decreases |ys|
  {
    if ys == [] {
      assert xs + ys == xs;
    } else {
      assert (xs + ys)[..|xs + ys| - 1] == xs + ys[..|ys| - 1];
      AddAllAppend(s, xs, ys[..|ys| - 1]);
    }
  }

  /** The abstractions `GetAbstractionsToRegister` returns once the declared
      ones are known to be implemented. */
  function Abstractions(u: Universe, lists: ExclusionLists, serviceType: TypeId): seq<TypeId>
    requires Valid(u) && serviceType in u.types
  {
    AddAll(AddAll([], u.types[serviceType].attributes.fromAbstractions), ChainAdds(u, lists, Chain(u, serviceType)))
  }

  /** The result holds no duplicates; it holds every declared abstraction,
      even an excluded one, and otherwise exactly the abstract types on the
      base chain and the interfaces they implement, each unless excluded:
      an interface reached only through a non-abstract type is not there. */
  lemma AbstractionsMembers(u: Universe, lists: ExclusionLists, serviceType: TypeId, x: TypeId)
    requires Valid(u) && serviceType in u.types
    ensures HashSets.NoDuplicates(Abstractions(u, lists, serviceType))
    ensures x in Abstractions(u, lists, serviceType) <==>
      || x in u.types[serviceType].attributes.fromAbstractions
      || exists c :: c in Chain(u, serviceType) && Contributes(u, lists, c, x)
  {
    var chain := Chain(u, serviceType);
    assert AllIn(chain, u.types);
    var declared := u.types[serviceType].attributes.fromAbstractions;
    AddAllMembers([], declared);
    AddAllMembers(AddAll([], declared), ChainAdds(u, lists, chain));
    ChainAddsMembers(u, lists, chain);
    if exists c :: c in chain && Contributes(u, lists, c, x) {
      var c :| c in chain && Contributes(u, lists, c, x);
      var i :| 0 <= i < |chain| && chain[i] == c;
    }
  }

  /** `foreach (var a in abstractions) typesToRegister.Add(a)`. */
  method AddEach(typesToRegister: seq<TypeId>, items: seq<TypeId>) returns (r: seq<TypeId>)
    ensures r == AddAll(typesToRegister, items)
  {
    r := typesToRegister;
    for i := 0 to |items|
      invariant r == AddAll(typesToRegister, items[..i])
    {
      assert items[..i + 1][..i] == items[..i];
      r := HashSets.Add(r, items[i]);
    }
    assert items[..|items|] == items;
  }

  /** `foreach (var i in interfaces) if (!IsExcluded(i)) typesToRegister.Add(i)`. */
  method AddNotExcluded(u: Universe, lists: ExclusionLists, typesToRegister: seq<TypeId>, items: seq<TypeId>)
    returns (r: seq<TypeId>)
    requires AllIn(items, u.types)
    ensures r == AddAll(typesToRegister, NotExcluded(u, lists, items))
  {
    r := typesToRegister;
    for i := 0 to |items|
      invariant r == AddAll(typesToRegister, NotExcluded(u, lists, items[..i]))
    {
      assert items[..i + 1][..i] == items[..i];
      var excluded := IsExcluded(u, lists, Some(items[i]));
      ghost var before := NotExcluded(u, lists, items[..i]);
      assert NotExcluded(u, lists, items[..i + 1]) == before + (if excluded.value then [] else [items[i]]);
      if !excluded.value {
        AddAllAppend(typesToRegister, before, [items[i]]);
        assert [items[i]][..0] == [];
        r := HashSets.Add(r, items[i]);
      } else {
        assert before + [] == before;
      }
    }
    assert items[..|items|] == items;
  }

  /** One visit of the walk: an abstract type adds itself and its interfaces,
      each unless excluded. */
  method Visit(u: Universe, lists: ExclusionLists, typesToRegister: seq<TypeId>, c: TypeId)
    returns (r: seq<TypeId>)
    requires Valid(u) && c in u.types
    ensures r == AddAll(typesToRegister, Contribution(u, lists, c))
  {
    var info := u.types[c];
    if !info.isAbstract {
      return typesToRegister;
    }
    r := typesToRegister;
    var excluded := IsExcluded(u, lists, Some(c));
    if !excluded.value {
      r := HashSets.Add(r, c);
      assert [c][..0] == [];
    }
    r := AddNotExcluded(u, lists, r, info.interfaces);
    AddAllAppend(typesToRegister, if excluded.value then [] else [c], NotExcluded(u, lists, info.interfaces));
  }

  /** The `while` loop up the base chain, stopping at null or `object`. */
  method Walk(u: Universe, lists: ExclusionLists, start: seq<TypeId>, t: TypeId) returns (r: seq<TypeId>)
    requires Valid(u) && t in u.types
    ensures r == AddAll(start, ChainAdds(u, lists, Chain(u, t)))
  {
    r := start;
    var current: Option<TypeId> := Some(t);
    ghost var visited: seq<TypeId> := [];
    while current.Some? && current.value != u.objectType
      invariant current.Some? ==> current.value in u.types
      invariant AllIn(visited, u.types)
      invariant Chain(u, t) == visited + Rest(u, current)
      invariant r == AddAll(start, ChainAdds(u, lists, visited))
      decreases if current.Some? then u.types[current.value].rank + 1 else 0
    {
      var c := current.value;
      WalkStep(u, lists, start, visited, c);
      r := Visit(u, lists, r, c);
      visited := visited + [c];
      current := u.types[c].baseType;
    }
    assert Rest(u, current) == [];
    assert Chain(u, t) == visited + [] == visited;
  }

  /** The part of the chain still to visit from `current`. */
  function Rest(u: Universe, current: Option<TypeId>): seq<TypeId>
    requires Valid(u) && (current.Some? ==> current.value in u.types)
  {
    if current.Some? then Chain(u, current.value) else []
  }

  /** Visiting `c` moves it from the rest of the chain to the visited part. */
  lemma WalkStep(u: Universe, lists: ExclusionLists, start: seq<TypeId>, visited: seq<TypeId>, c: TypeId)
    requires Valid(u) && c in u.types && c != u.objectType && AllIn(visited, u.types)
    ensures visited + Rest(u, Some(c)) == (visited + [c]) + Rest(u, u.types[c].baseType)
    ensures AddAll(start, ChainAdds(u, lists, visited + [c]))
         == AddAll(AddAll(start, ChainAdds(u, lists, visited)), Contribution(u, lists, c))
  {
    assert (visited + [c])[..|visited|] == visited;
    AddAllAppend(start, ChainAdds(u, lists, visited), Contribution(u, lists, c));
  }

  /** `GetAbstractionsToRegister`: a null type throws, an unimplemented
      declared abstraction throws as `TryGetAbstractionFromAttribute` does,
      and otherwise the walk up the base chain collects the abstractions. */
  method GetAbstractionsToRegister(u: Universe, lists: ExclusionLists, serviceType: Option<TypeId>)
    returns (r: Outcome<seq<TypeId>>)
    requires Valid(u)
    requires serviceType.Some? ==> serviceType.value in u.types
    ensures serviceType.None? ==> r == Throw(ArgumentNull("serviceType"))
    ensures serviceType.Some? ==>
      var t := serviceType.value;
      r == if ServiceAttributeResolver.AllImplemented(u, t, u.types[t].attributes.fromAbstractions)
        then Ok(Abstractions(u, lists, t))
        else Throw(Argument(ServiceAttributeResolver.NotImplementedMessage(u, t)))
  {
    if serviceType.None? {
      return Throw(ArgumentNull("serviceType"));
    }
    var t := serviceType.value;
    var typesToRegister: seq<TypeId> := [];
    var found := ServiceAttributeResolver.TryGetAbstractionFromAttribute(u, t);
    if found.Throw? {
      return Throw(found.exception);
    }
    if found.value.0 {
      typesToRegister := AddEach(typesToRegister, found.value.1);
    } else {
      assert found.value.1 == [];
    }
    typesToRegister := Walk(u, lists, typesToRegister, t);
    r := Ok(typesToRegister);
  }
}
