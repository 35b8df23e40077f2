/** The reflection facts the code reads (`Type.IsInterface`, `BaseType`,
    `GetInterfaces()`, `GetCustomAttribute<...>()`, `IsAssignableFrom`, ...),
    given as an explicit, finite and acyclic table of type records. */
module TypeUniverse {
  import opened Wrappers

  /** The identity of a runtime type (`System.Type` compared by reference). */
  type TypeId(==, !new)

  /** The key object of a `[Keyed]` attribute. */
  type ServiceKey(==, !new)

  /** The service attributes a class carries. An enum value is kept as the
      integer it holds, because a C# enum variable may hold any integer. */
  datatype ServiceAttributes = ServiceAttributes(
    autoregistered: Option<int>,    // [AutoregisteredService(lifetime)]
    onPlatform: Option<bv32>,       // [OnPlatform(platform)]
    fromAbstractions: seq<TypeId>,  // every [FromAbstraction(t)], in enumeration order
    keyed: Option<ServiceKey>,      // [Keyed(key)]
    mustManuallyRegister: bool)     // [MustManuallyRegisterService]

  datatype TypeInfo = TypeInfo(
    name: string,
    fullName: Option<string>,
    isClass: bool,
    isInterface: bool,
    isAbstract: bool,
    isGeneric: bool,
    genericDefinition: Option<TypeId>,  // GetGenericTypeDefinition(), for a generic type
    genericArguments: seq<TypeId>,      // GetGenericArguments()
    baseType: Option<TypeId>,           // BaseType
    interfaces: seq<TypeId>,            // GetInterfaces(): all implemented interfaces
    attributes: ServiceAttributes,
    rank: nat)                          // strictly above the rank of every type it is built from

  /** `assignable(parent, child)` is `parent.IsAssignableFrom(child)`. */
  datatype Universe = Universe(
    types: map<TypeId, TypeInfo>,
    objectType: TypeId,
    assignable: (TypeId, TypeId) -> bool)

  predicate AllIn(ts: seq<TypeId>, types: map<TypeId, TypeInfo>) {
    forall i :: 0 <= i < |ts| ==> ts[i] in types
  }

  predicate AllBelow(ts: seq<TypeId>, types: map<TypeId, TypeInfo>, rank: nat)
    requires AllIn(ts, types)
  {
    forall i :: 0 <= i < |ts| ==> types[ts[i]].rank < rank
  }

  /** Every type mentioned by the record of `t` is itself in the table, and the
      base type and the generic arguments have a smaller rank: the base-type
      chain and the generic-argument nesting are finite. */
  predicate EntryWellFormed(u: Universe, t: TypeId)
    requires t in u.types
  {
    var info := u.types[t];
    && (info.baseType.Some? ==>
          info.baseType.value in u.types && u.types[info.baseType.value].rank < info.rank)
    && (info.isGeneric ==> info.genericDefinition.Some?)
    && (info.genericDefinition.Some? ==> info.genericDefinition.value in u.types)
    && AllIn(info.genericArguments, u.types)
    && AllBelow(info.genericArguments, u.types, info.rank)
    && AllIn(info.interfaces, u.types)
    && AllIn(info.attributes.fromAbstractions, u.types)
  }

  predicate Valid(u: Universe) {
    && u.objectType in u.types
    && forall t :: t in u.types ==> EntryWellFormed(u, t)
  }
}
