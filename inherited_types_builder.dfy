/** Queries/Tr1ppy.Querries.Integration/InheritedTypesConfgurationBuilder.cs
    and the `InheritedTypesConfiguration` it builds. The two `HashSet<Type>`
    objects are modelled as objects, because `Build` hands out the builder's
    own sets rather than copies. */
module InheritedTypes {
  import opened TypeUniverse

  /** A `HashSet<Type>` object; only membership is ever used. */
  class TypeSet {
    var elems: set<TypeId>

    constructor ()
      ensures elems == {}
    {
      elems := {};
    }

    method Add(t: TypeId)
      modifies this
      ensures elems == old(elems) + {t}
    {
      elems := elems + {t};
    }
  }

  /** The include/exclude lists of a queue's type filter. */
  class InheritedTypesConfiguration {
    var includedTypes: TypeSet
    var excludedTypes: TypeSet

    constructor (included: TypeSet, excluded: TypeSet)
      ensures includedTypes == included && excludedTypes == excluded
    {
      includedTypes := included;
      excludedTypes := excluded;
    }
  }

  class InheritedTypesConfgurationBuilder {
    const includedTypes: TypeSet
    const excludedTypes: TypeSet

    ghost predicate Valid()
      reads this
    {
      includedTypes != excludedTypes
    }

    /** A fresh builder holds two distinct, empty sets. */
    constructor ()
      ensures Valid() && fresh(includedTypes) && fresh(excludedTypes)
      ensures includedTypes.elems == {} && excludedTypes.elems == {}
    {
      includedTypes := new TypeSet();
      excludedTypes := new TypeSet();
    }

    method IncludeSubtype(t: TypeId) returns (self: InheritedTypesConfgurationBuilder)
      requires Valid()
      modifies includedTypes
      ensures self == this
      ensures includedTypes.elems == old(includedTypes.elems) + {t}
      ensures excludedTypes.elems == old(excludedTypes.elems)
    {
      includedTypes.Add(t);
      self := this;
    }

    method ExcludeSubtype(t: TypeId)
      requires Valid()
      modifies excludedTypes
      ensures excludedTypes.elems == old(excludedTypes.elems) + {t}
      ensures includedTypes.elems == old(includedTypes.elems)
    {
      excludedTypes.Add(t);
    }

    /** The built configuration shares the builder's two set objects. */
    method Build() returns (c: InheritedTypesConfiguration)
      ensures fresh(c)
      ensures c.includedTypes == includedTypes && c.excludedTypes == excludedTypes
    {
      c := new InheritedTypesConfiguration(includedTypes, excludedTypes);
    }
  }

  /** Including the same type twice changes nothing the second time. */
  method IncludeTwice(b: InheritedTypesConfgurationBuilder, t: TypeId)
    requires b.Valid()
    modifies b.includedTypes
    ensures b.includedTypes.elems == old(b.includedTypes.elems) + {t}
  {
    var _ := b.IncludeSubtype(t);
    var _ := b.IncludeSubtype(t);
  }

  /** Nothing stops a type from being both included and excluded, and a call
      made after `Build` is visible in the configuration already built. */
  method IncludeAndExcludeAfterBuild(t: TypeId) returns (c: InheritedTypesConfiguration)
    ensures t in c.includedTypes.elems && t in c.excludedTypes.elems
  {
    var b := new InheritedTypesConfgurationBuilder();
    c := b.Build();
    var _ := b.IncludeSubtype(t);
    b.ExcludeSubtype(t);
  }
}
